/** Driver selection: scoring, ranking, and the scan for the first driver online. */
module Matching {
  import opened Domain

  /** One driver returned by the GEO search, nearest first. */
  datatype Candidate = Candidate(driver: DriverId, distance: Km)

  /** One member of the GEO index; a name that is not a driver's has no id. */
  datatype Member = Member(driver: Option<DriverId>, distance: Km)

  const SEARCH_COUNT := 100
  const TIER_PENALTY := 2.5

  function Clamp(x: real, low: real, high: real): real {
    if x < low then low else if high < x then high else x
  }

  /** Lower is better. */
  function Score(distance: Km, driver: Driver, requested: Tier): real {
    var penalty := if driver.tier == requested then 0.0 else TIER_PENALTY;
    var rating := if driver.rating.Some? then driver.rating.value else 3.0;
    distance + penalty + (5.0 - Clamp(rating, 0.0, 5.0)) * 0.15
  }

  predicate Known(geo: seq<Candidate>, drivers: map<DriverId, Driver>, i: nat) {
    i < |geo| && geo[i].driver in drivers
  }

  function ScoreAt(geo: seq<Candidate>, drivers: map<DriverId, Driver>, tier: Tier, i: nat): real
    requires Known(geo, drivers, i)
  {
    Score(geo[i].distance, drivers[geo[i].driver], tier)
  }

  /** A smaller score wins; a tie goes to the earlier place in GEO order. */
  predicate Before(geo: seq<Candidate>, drivers: map<DriverId, Driver>, tier: Tier, i: nat, j: nat)
    requires Known(geo, drivers, i) && Known(geo, drivers, j)
  {
    var a, b := ScoreAt(geo, drivers, tier, i), ScoreAt(geo, drivers, tier, j);
    a < b || (a == b && i < j)
  }

  /** `order` lists every place with a known driver once, best first. */
  ghost predicate IsRanking(geo: seq<Candidate>, drivers: map<DriverId, Driver>, tier: Tier, order: seq<nat>) {
    && (forall k :: 0 <= k < |order| ==> Known(geo, drivers, order[k]))
    && (forall i: nat :: Known(geo, drivers, i) ==> i in order)
    && (forall j, k :: 0 <= j < k < |order| ==> Before(geo, drivers, tier, order[j], order[k]))
  }

  /** There is only one ranking. */
  lemma RankingIsUnique(geo: seq<Candidate>, drivers: map<DriverId, Driver>, tier: Tier, p: seq<nat>, q: seq<nat>)
    requires IsRanking(geo, drivers, tier, p) && IsRanking(geo, drivers, tier, q)
    ensures p == q
  {
    SameUpTo(geo, drivers, tier, p, q, |p|);
    SameUpTo(geo, drivers, tier, q, p, |q|);
  }

  lemma {:induction false} SameUpTo(geo: seq<Candidate>, drivers: map<DriverId, Driver>, tier: Tier,
                                    p: seq<nat>, q: seq<nat>, n: nat)
    requires IsRanking(geo, drivers, tier, p) && IsRanking(geo, drivers, tier, q)
    requires n <= |p|
    ensures n <= |q| && p[..n] == q[..n]
  {
    if n == 0 {
    } else {
      SameUpTo(geo, drivers, tier, p, q, n - 1);
      assert forall k :: 0 <= k < n - 1 ==> p[k] == p[..n - 1][k] == q[..n - 1][k] == q[k];
      var i := p[n - 1];
      var k :| 0 <= k < |q| && q[k] == i;
      assert k >= n - 1;
      var j := q[n - 1];
      var m :| 0 <= m < |p| && p[m] == j;
      assert m >= n - 1;
      assert i == j;
    }
  }

  /** An entry of the candidate list; `place` is its position in GEO order, which the sort key ignores. */
  datatype Scored = Scored(driver: DriverId, score: real, place: nat)

  predicate Precedes(a: Scored, b: Scored) {
    a.score < b.score || (a.score == b.score && a.place < b.place)
  }

  predicate Sorted(s: seq<Scored>) {
    forall j, k :: 0 <= j < k < |s| ==> Precedes(s[j], s[k])
  }

  predicate InPlaceOrder(s: seq<Scored>) {
    forall j, k :: 0 <= j < k < |s| ==> s[j].place < s[k].place
  }

  /** Stable sort by score, as the list sort of the standard library promises. */
  function SortByScore(s: seq<Scored>): seq<Scored> {
    if s == [] then [] else Insert(SortByScore(s[..|s| - 1]), s[|s| - 1])
  }

  function Insert(s: seq<Scored>, x: Scored): seq<Scored> {
    if s == [] || s[|s| - 1].score <= x.score then s + [x]
    else Insert(s[..|s| - 1], x) + [s[|s| - 1]]
  }

  lemma {:induction false} InsertAdds(s: seq<Scored>, x: Scored)
    ensures |Insert(s, x)| == |s| + 1
    ensures forall e :: e in Insert(s, x) <==> e == x || e in s
  {
    if s == [] || s[|s| - 1].score <= x.score {
    } else {
      InsertAdds(s[..|s| - 1], x);
      assert s == s[..|s| - 1] + [s[|s| - 1]];
    }
  }

  lemma AppendKeepsSorted(s: seq<Scored>, x: Scored)
    requires Sorted(s) && forall e :: e in s ==> Precedes(e, x)
    ensures Sorted(s + [x])
  {
    assert forall k :: 0 <= k < |s| ==> s[k] in s;
  }

  lemma {:induction false} InsertKeepsOrder(s: seq<Scored>, x: Scored)
    requires Sorted(s) && forall k :: 0 <= k < |s| ==> s[k].place < x.place
    ensures Sorted(Insert(s, x))
  {
    if s == [] || s[|s| - 1].score <= x.score {
    } else {
      var rest := s[..|s| - 1];
      InsertKeepsOrder(rest, x);
      InsertAdds(rest, x);
      var tail := s[|s| - 1];
      forall e | e in Insert(rest, x) ensures Precedes(e, tail) {
        if e != x {
          var k :| 0 <= k < |rest| && rest[k] == e;
          assert s[k] == e;
        }
      }
      AppendKeepsSorted(Insert(rest, x), tail);
    }
  }

  lemma {:induction false} SortIsStable(s: seq<Scored>)
    requires InPlaceOrder(s)
    ensures Sorted(SortByScore(s))
    ensures |SortByScore(s)| == |s|
    ensures forall e :: e in SortByScore(s) <==> e in s
  {
    if s == [] {
    } else {
      var rest, x := s[..|s| - 1], s[|s| - 1];
      SortIsStable(rest);
      assert s == rest + [x];
      forall k | 0 <= k < |SortByScore(rest)| ensures SortByScore(rest)[k].place < x.place {
        assert SortByScore(rest)[k] in rest;
      }
      InsertKeepsOrder(SortByScore(rest), x);
      InsertAdds(SortByScore(rest), x);
    }
  }

  /** The candidate list before sorting: one entry per known driver among the first `n`, in GEO order. */
  function ScoreKnown(geo: seq<Candidate>, drivers: map<DriverId, Driver>, tier: Tier, n: nat): seq<Scored>
    requires n <= |geo|
  {
    if n == 0 then []
    else
      ScoreKnown(geo, drivers, tier, n - 1)
      + if geo[n - 1].driver !in drivers then []
        else [Scored(geo[n - 1].driver, ScoreAt(geo, drivers, tier, n - 1), n - 1)]
  }

  /** The entry made for a place. */
  predicate Describes(geo: seq<Candidate>, drivers: map<DriverId, Driver>, tier: Tier, e: Scored) {
    Known(geo, drivers, e.place) && e == Scored(geo[e.place].driver, ScoreAt(geo, drivers, tier, e.place), e.place)
  }

  lemma {:induction false} ScoreKnownLists(geo: seq<Candidate>, drivers: map<DriverId, Driver>, tier: Tier, n: nat)
    requires n <= |geo|
    ensures forall e :: e in ScoreKnown(geo, drivers, tier, n) <==> e.place < n && Describes(geo, drivers, tier, e)
  {
    if n == 0 {
    } else {
      ScoreKnownLists(geo, drivers, tier, n - 1);
    }
  }

  lemma AppendKeepsPlaceOrder(s: seq<Scored>, x: Scored)
    requires InPlaceOrder(s) && forall e :: e in s ==> e.place < x.place
    ensures InPlaceOrder(s + [x])
  {
    assert forall k :: 0 <= k < |s| ==> s[k] in s;
  }

  lemma {:induction false} ScoreKnownIsInPlaceOrder(geo: seq<Candidate>, drivers: map<DriverId, Driver>, tier: Tier,
                                                    n: nat)
    requires n <= |geo|
    ensures InPlaceOrder(ScoreKnown(geo, drivers, tier, n))
  {
    if n == 0 {
    } else {
      ScoreKnownIsInPlaceOrder(geo, drivers, tier, n - 1);
      ScoreKnownLists(geo, drivers, tier, n - 1);
      if Known(geo, drivers, n - 1) {
        AppendKeepsPlaceOrder(ScoreKnown(geo, drivers, tier, n - 1),
                              Scored(geo[n - 1].driver, ScoreAt(geo, drivers, tier, n - 1), n - 1));
      }
    }
  }

  ghost function Places(s: seq<Scored>): (order: seq<nat>)
    ensures |order| == |s| && forall k :: 0 <= k < |s| ==> order[k] == s[k].place
  {
    seq(|s|, k requires 0 <= k < |s| => s[k].place)
  }

  lemma SortedEntriesRank(geo: seq<Candidate>, drivers: map<DriverId, Driver>, tier: Tier, s: seq<Scored>)
    requires forall e :: e in s <==> e.place < |geo| && Describes(geo, drivers, tier, e)
    requires Sorted(s)
    ensures IsRanking(geo, drivers, tier, Places(s))
    ensures forall k :: 0 <= k < |s| ==> Known(geo, drivers, s[k].place) && s[k].driver == geo[s[k].place].driver
  {
    assert forall k :: 0 <= k < |s| ==> s[k] in s;
    forall p: nat | Known(geo, drivers, p) ensures p in Places(s) {
      var e := Scored(geo[p].driver, ScoreAt(geo, drivers, tier, p), p);
      assert e in s;
      var k :| 0 <= k < |s| && s[k] == e;
      assert Places(s)[k] == p;
    }
  }

  /** The drivers standing at the given places. */
  predicate DriversAt(geo: seq<Candidate>, order: seq<nat>, ranked: seq<DriverId>) {
    && |ranked| == |order|
    && forall k :: 0 <= k < |ranked| ==> order[k] < |geo| && ranked[k] == geo[order[k]].driver
  }

  /** The known candidates' drivers, once per place, best first. */
  ghost predicate Ranks(geo: seq<Candidate>, drivers: map<DriverId, Driver>, tier: Tier, ranked: seq<DriverId>) {
    exists order: seq<nat> :: IsRanking(geo, drivers, tier, order) && DriversAt(geo, order, ranked)
  }

  /** Scores the known candidates in a loop, sorts them, and keeps the ids. */
  method RankDrivers(geo: seq<Candidate>, drivers: map<DriverId, Driver>, tier: Tier)
    returns (ranked: seq<DriverId>)
    ensures Ranks(geo, drivers, tier, ranked)
  {
    var candidates: seq<Scored> := [];
    for i := 0 to |geo|
      invariant candidates == ScoreKnown(geo, drivers, tier, i)
    {
      if geo[i].driver in drivers {
        var s := Score(geo[i].distance, drivers[geo[i].driver], tier);
        candidates := candidates + [Scored(geo[i].driver, s, i)];
      }
    }
    ScoreKnownLists(geo, drivers, tier, |geo|);
    ScoreKnownIsInPlaceOrder(geo, drivers, tier, |geo|);
    SortIsStable(candidates);
    candidates := SortByScore(candidates);
    SortedEntriesRank(geo, drivers, tier, candidates);
    ranked := seq(|candidates|, k requires 0 <= k < |candidates| => candidates[k].driver);
    assert DriversAt(geo, Places(candidates), ranked);
  }

  /** A known driver who is online. */
  predicate Eligible(geo: seq<Candidate>, drivers: map<DriverId, Driver>, i: nat) {
    Known(geo, drivers, i) && drivers[geo[i].driver].status == Online
  }

  /** The first eligible place of least score among the first `n`, in one pass. */
  function Best(geo: seq<Candidate>, drivers: map<DriverId, Driver>, tier: Tier, n: nat): (best: Option<nat>)
    requires n <= |geo|
    ensures best.Some? ==> best.value < n && Eligible(geo, drivers, best.value)
  {
    if n == 0 then None
    else
      var best := Best(geo, drivers, tier, n - 1);
      if !Eligible(geo, drivers, n - 1) then best
      else if best.Some? && ScoreAt(geo, drivers, tier, best.value) <= ScoreAt(geo, drivers, tier, n - 1) then best
      else Some(n - 1)
  }

  function Choose(geo: seq<Candidate>, drivers: map<DriverId, Driver>, tier: Tier): Option<DriverId> {
    var best := Best(geo, drivers, tier, |geo|);
    if best.None? then None else Some(geo[best.value].driver)
  }

  /** The winner beats every other eligible place. */
  predicate Wins(geo: seq<Candidate>, drivers: map<DriverId, Driver>, tier: Tier, n: nat, i: nat) {
    && i < n && Eligible(geo, drivers, i)
    && forall j: nat :: j < n && j != i && Eligible(geo, drivers, j) ==> Before(geo, drivers, tier, i, j)
  }

  lemma {:induction false} BestWins(geo: seq<Candidate>, drivers: map<DriverId, Driver>, tier: Tier, n: nat)
    requires n <= |geo|
    ensures Best(geo, drivers, tier, n).Some? ==> Wins(geo, drivers, tier, n, Best(geo, drivers, tier, n).value)
    ensures Best(geo, drivers, tier, n).None? ==> forall j: nat :: j < n ==> !Eligible(geo, drivers, j)
  {
    if n == 0 {
    } else {
      BestWins(geo, drivers, tier, n - 1);
    }
  }

  /** The choice is the stable argmin, and there is none exactly when nobody is eligible. */
  lemma ChoiceIsStableArgmin(geo: seq<Candidate>, drivers: map<DriverId, Driver>, tier: Tier)
    ensures Choose(geo, drivers, tier).None? <==> forall i: nat :: i < |geo| ==> !Eligible(geo, drivers, i)
    ensures forall i: nat :: Wins(geo, drivers, tier, |geo|, i) ==> Choose(geo, drivers, tier) == Some(geo[i].driver)
    ensures Choose(geo, drivers, tier).Some? ==>
      exists i: nat :: Wins(geo, drivers, tier, |geo|, i) && geo[i].driver == Choose(geo, drivers, tier).value
  {
    BestWins(geo, drivers, tier, |geo|);
    forall i: nat | Wins(geo, drivers, tier, |geo|, i)
      ensures Choose(geo, drivers, tier) == Some(geo[i].driver)
    {
      assert Best(geo, drivers, tier, |geo|) == Some(i);
    }
  }

  lemma FirstOnlineWins(geo: seq<Candidate>, drivers: map<DriverId, Driver>, tier: Tier, order: seq<nat>, n: nat)
    requires IsRanking(geo, drivers, tier, order) && n < |order| && Eligible(geo, drivers, order[n])
    requires forall k :: 0 <= k < n ==> !Eligible(geo, drivers, order[k])
    ensures Wins(geo, drivers, tier, |geo|, order[n])
  {
    forall j: nat | j < |geo| && j != order[n] && Eligible(geo, drivers, j)
      ensures Before(geo, drivers, tier, order[n], j)
    {
      var k :| 0 <= k < |order| && order[k] == j;
      assert k > n;
    }
  }

  predicate IsOnline(drivers: map<DriverId, Driver>, d: DriverId) {
    d in drivers && drivers[d].status == Online
  }

  lemma FirstOnlineIsChosen(geo: seq<Candidate>, drivers: map<DriverId, Driver>, tier: Tier, ranked: seq<DriverId>,
                            n: nat)
    requires Ranks(geo, drivers, tier, ranked) && n < |ranked| && IsOnline(drivers, ranked[n])
    requires forall k :: 0 <= k < n ==> !IsOnline(drivers, ranked[k])
    ensures Choose(geo, drivers, tier) == Some(ranked[n])
  {
    var order: seq<nat> :| IsRanking(geo, drivers, tier, order) && DriversAt(geo, order, ranked);
    forall k | 0 <= k < n ensures !Eligible(geo, drivers, order[k]) {
      assert !IsOnline(drivers, ranked[k]);
    }
    FirstOnlineWins(geo, drivers, tier, order, n);
    ChoiceIsStableArgmin(geo, drivers, tier);
  }

  lemma NobodyOnlineIsChosen(geo: seq<Candidate>, drivers: map<DriverId, Driver>, tier: Tier, ranked: seq<DriverId>)
    requires Ranks(geo, drivers, tier, ranked)
    requires forall k :: 0 <= k < |ranked| ==> !IsOnline(drivers, ranked[k])
    ensures Choose(geo, drivers, tier).None?
  {
    var order: seq<nat> :| IsRanking(geo, drivers, tier, order) && DriversAt(geo, order, ranked);
    forall i: nat | i < |geo| ensures !Eligible(geo, drivers, i) {
      if Known(geo, drivers, i) {
        var k :| 0 <= k < |order| && order[k] == i;
        assert !IsOnline(drivers, ranked[k]);
      }
    }
    ChoiceIsStableArgmin(geo, drivers, tier);
  }

  /** The scan of match_ride for the first driver online. */
  method FirstOnline(drivers: map<DriverId, Driver>, ranked: seq<DriverId>) returns (n: nat)
    ensures n <= |ranked|
    ensures forall k :: 0 <= k < n ==> !IsOnline(drivers, ranked[k])
    ensures n < |ranked| ==> IsOnline(drivers, ranked[n])
  {
    n := 0;
    while n < |ranked| && !IsOnline(drivers, ranked[n])
      invariant n <= |ranked|
      invariant forall k :: 0 <= k < n ==> !IsOnline(drivers, ranked[k])
    {
      n := n + 1;
    }
  }

  /** The selection inside match_ride: rank, then scan. */
  method SelectDriver(geo: seq<Candidate>, drivers: map<DriverId, Driver>, tier: Tier)
    returns (chosen: Option<DriverId>)
    ensures chosen == Choose(geo, drivers, tier)
  {
    var ranked := RankDrivers(geo, drivers, tier);
    var n := FirstOnline(drivers, ranked);
    if n < |ranked| {
      chosen := Some(ranked[n]);
      FirstOnlineIsChosen(geo, drivers, tier, ranked, n);
    } else {
      chosen := None;
      NobodyOnlineIsChosen(geo, drivers, tier, ranked);
    }
  }

  /** Only the rows of the candidates matter to the choice. */
  lemma {:induction false} BestReadsCandidateRows(geo: seq<Candidate>, drivers: map<DriverId, Driver>,
                                                  rows: map<DriverId, Driver>, tier: Tier, n: nat)
    requires n <= |geo|
    requires forall i :: 0 <= i < |geo| ==>
      (geo[i].driver in rows <==> geo[i].driver in drivers) &&
      (geo[i].driver in rows ==> rows[geo[i].driver] == drivers[geo[i].driver])
    ensures Best(geo, rows, tier, n) == Best(geo, drivers, tier, n)
  {
    if n == 0 {
    } else {
      BestReadsCandidateRows(geo, drivers, rows, tier, n - 1);
    }
  }

  /** The search answer is capped; members that name no driver are dropped after the cap. */
  function Parse(raw: seq<Member>): (geo: seq<Candidate>) {
    if raw == [] then []
    else
      var rest, last := raw[..|raw| - 1], raw[|raw| - 1];
      Parse(rest) + if last.driver.Some? then [Candidate(last.driver.value, last.distance)] else []
  }

  method GeoCandidates(raw: seq<Member>) returns (geo: seq<Candidate>)
    ensures geo == Parse(raw)
  {
    geo := [];
    for i := 0 to |raw|
      invariant geo == Parse(raw[..i])
    {
      assert raw[..i + 1][..i] == raw[..i];
      if raw[i].driver.Some? {
        geo := geo + [Candidate(raw[i].driver.value, raw[i].distance)];
      }
    }
    assert raw[..|raw|] == raw;
  }

  lemma {:induction false} ParsedCandidatesComeFromRaw(raw: seq<Member>, c: Candidate)
    requires c in Parse(raw)
    ensures Member(Some(c.driver), c.distance) in raw
  {
    var rest := raw[..|raw| - 1];
    if c in Parse(rest) {
      ParsedCandidatesComeFromRaw(rest, c);
    }
  }

  /** `geo` lists the members at `places`, in order, and these are all that name a driver. */
  ghost predicate ListsNamed(raw: seq<Member>, geo: seq<Candidate>, places: seq<nat>) {
    && |places| == |geo|
    && (forall j, k :: 0 <= j < k < |places| ==> places[j] < places[k])
    && (forall k :: 0 <= k < |geo| ==>
          places[k] < |raw| && raw[places[k]] == Member(Some(geo[k].driver), geo[k].distance))
    && (forall i: nat :: i < |raw| && raw[i].driver.Some? ==> i in places)
  }

  lemma ListsOneMore(raw: seq<Member>, geo: seq<Candidate>, places: seq<nat>, last: Member)
    requires ListsNamed(raw, geo, places)
    ensures if last.driver.None? then ListsNamed(raw + [last], geo, places)
            else ListsNamed(raw + [last], geo + [Candidate(last.driver.value, last.distance)], places + [|raw|])
  {
  }

  /** The places of the members that name a driver. */
  ghost function NamedPlaces(raw: seq<Member>): seq<nat> {
    if raw == [] then []
    else
      var n := |raw| - 1;
      NamedPlaces(raw[..n]) + if raw[n].driver.Some? then [n] else []
  }

  /** No named member is lost, added or moved. */
  lemma {:induction false} ParseListsNamed(raw: seq<Member>)
    ensures ListsNamed(raw, Parse(raw), NamedPlaces(raw))
  {
    if raw == [] {
    } else {
      var rest, last := raw[..|raw| - 1], raw[|raw| - 1];
      ParseListsNamed(rest);
      ListsOneMore(rest, Parse(rest), NamedPlaces(rest), last);
      assert raw == rest + [last];
    }
  }

  function Capped(inRadius: seq<Member>): seq<Member> {
    if |inRadius| <= SEARCH_COUNT then inRadius else inRadius[..SEARCH_COUNT]
  }

  predicate NearestFirst(members: seq<Member>) {
    forall i, j :: 0 <= i < j < |members| ==> members[i].distance <= members[j].distance
  }

  /** At most a hundred members are kept, and no member left out is nearer than a kept one. */
  lemma CapKeepsNearest(inRadius: seq<Member>)
    requires NearestFirst(inRadius)
    ensures |Capped(inRadius)| == if |inRadius| < 100 then |inRadius| else 100
    ensures forall k, cut :: 0 <= k < |Capped(inRadius)| <= cut < |inRadius| ==>
      Capped(inRadius)[k] == inRadius[k] && inRadius[k].distance <= inRadius[cut].distance
  {
  }

  /** The rating that counts: three for an unrated driver, and the nearer end for a rating off the scale of five. */
  predicate RatedAt(driver: Driver, rating: real) {
    match driver.rating
    case None => rating == 3.0
    case Some(stars) =>
      && 0.0 <= rating <= 5.0
      && (0.0 <= stars <= 5.0 ==> rating == stars)
      && (stars < 0.0 ==> rating == 0.0)
      && (5.0 < stars ==> rating == 5.0)
  }

  lemma RatingsAreUnique(driver: Driver)
    ensures exists g :: RatedAt(driver, g)
    ensures forall g, h :: RatedAt(driver, g) && RatedAt(driver, h) ==> g == h
  {
    if driver.rating.Some? {
      assert RatedAt(driver, Clamp(driver.rating.value, 0.0, 5.0));
    } else {
      assert RatedAt(driver, 3.0);
    }
  }

  /** The exact score: the distance, 2.5 for the wrong tier, and 0.15 for each point short of five. */
  lemma ScoreIsExactly(distance: Km, driver: Driver, tier: Tier, rating: real)
    requires RatedAt(driver, rating)
    ensures Score(distance, driver, tier)
            == distance + (if driver.tier == tier then 0.0 else 2.5) + 0.15 * (5.0 - rating)
  {
  }

  /** The better rated of two candidates alike in distance and tier. */
  ghost predicate BetterRated(geo: seq<Candidate>, drivers: map<DriverId, Driver>, tier: Tier, i: nat, j: nat)
    requires Known(geo, drivers, i) && Known(geo, drivers, j)
  {
    var a, b := drivers[geo[i].driver], drivers[geo[j].driver];
    && geo[i].distance == geo[j].distance && (a.tier == tier <==> b.tier == tier)
    && exists g, h :: RatedAt(a, g) && RatedAt(b, h) && g > h
  }

  /** Of two candidates alike in distance and tier the better rated one ranks first, and the other is not chosen. */
  lemma BetterRatedFirst(geo: seq<Candidate>, drivers: map<DriverId, Driver>, tier: Tier, i: nat, j: nat)
    requires Known(geo, drivers, i) && Known(geo, drivers, j) && BetterRated(geo, drivers, tier, i, j)
    ensures forall order: seq<nat>, m, n ::
      IsRanking(geo, drivers, tier, order) && 0 <= m < |order| && 0 <= n < |order| && order[m] == i && order[n] == j
      ==> m < n
    ensures Eligible(geo, drivers, i) ==>
      exists k: nat :: k != j && Wins(geo, drivers, tier, |geo|, k) && Choose(geo, drivers, tier) == Some(geo[k].driver)
  {
    var a, b := drivers[geo[i].driver], drivers[geo[j].driver];
    var g, h :| RatedAt(a, g) && RatedAt(b, h) && g > h;
    ScoreIsExactly(geo[i].distance, a, tier, g);
    ScoreIsExactly(geo[j].distance, b, tier, h);
    assert Before(geo, drivers, tier, i, j);
    if Eligible(geo, drivers, i) {
      ChoiceIsStableArgmin(geo, drivers, tier);
      var k: nat :| Wins(geo, drivers, tier, |geo|, k) && geo[k].driver == Choose(geo, drivers, tier).value;
    }
  }

  lemma ScoreIsNearDistance(distance: Km, driver: Driver, tier: Tier)
    ensures distance <= Score(distance, driver, tier) <= distance + 3.25
    ensures driver.tier != tier ==> distance + 2.5 <= Score(distance, driver, tier)
    ensures driver.tier == tier ==> Score(distance, driver, tier) <= distance + 0.75
  {
  }

  /** What the cap of 100 can cost: a chosen driver is at most 3.25 worse than anyone it cut off. */
  lemma CutOffDriversAreBarelyBetter(inRadius: seq<Member>, drivers: map<DriverId, Driver>, tier: Tier, i: nat,
                                     cut: nat)
    requires NearestFirst(inRadius) && SEARCH_COUNT <= cut < |inRadius|
    requires inRadius[cut].driver.Some? && inRadius[cut].driver.value in drivers
    requires Wins(Parse(Capped(inRadius)), drivers, tier, |Parse(Capped(inRadius))|, i)
    ensures ScoreAt(Parse(Capped(inRadius)), drivers, tier, i)
            <= Score(inRadius[cut].distance, drivers[inRadius[cut].driver.value], tier) + 3.25
  {
    var geo := Parse(Capped(inRadius));
    ParsedCandidatesComeFromRaw(Capped(inRadius), geo[i]);
    var k :| 0 <= k < |Capped(inRadius)| && Capped(inRadius)[k] == Member(Some(geo[i].driver), geo[i].distance);
    assert inRadius[k].distance <= inRadius[cut].distance;
    ScoreIsNearDistance(geo[i].distance, drivers[geo[i].driver], tier);
    ScoreIsNearDistance(inRadius[cut].distance, drivers[inRadius[cut].driver.value], tier);
  }

  /** A driver of the wrong tier wins only when the right tier is 1.75 km farther off. */
  lemma WrongTierNeedsDistance(geo: seq<Candidate>, drivers: map<DriverId, Driver>, tier: Tier, i: nat, j: nat)
    requires Wins(geo, drivers, tier, |geo|, i) && drivers[geo[i].driver].tier != tier
    requires j < |geo| && Eligible(geo, drivers, j) && drivers[geo[j].driver].tier == tier
    ensures geo[i].distance + 1.75 <= geo[j].distance
  {
    assert Before(geo, drivers, tier, i, j);
    ScoreIsNearDistance(geo[i].distance, drivers[geo[i].driver], tier);
    ScoreIsNearDistance(geo[j].distance, drivers[geo[j].driver], tier);
  }

  /** The search answer that holds only this driver. */
  function Only(d: DriverId): seq<Member> {
    [Member(Some(d), 0.0)]
  }

  lemma OnlyDriverIsChosen(d: DriverId, drivers: map<DriverId, Driver>, tier: Tier)
    ensures Choose(Parse(Only(d)), drivers, tier) == if IsOnline(drivers, d) then Some(d) else None
  {
    var raw := Only(d);
    assert raw[..0] == [] && Parse(raw[..0]) == [];
    var geo := Parse(raw);
    assert geo == [Candidate(d, 0.0)];
    assert Best(geo, drivers, tier, 0).None?;
  }
}
