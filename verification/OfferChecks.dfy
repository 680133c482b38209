/** The offer check of a concurrent accept, two reads of one store, and the answer the call gives. */
module OfferChecks {
  import opened Domain
  import opened Offers
  import opened Operations
  import opened Concurrent
  import opened ConcurrentRuns

  // The two reads

  ghost predicate KeysNamed(k: Keys) {
    forall r :: r in k.byRide ==> k.byRide[r].payload.ride == r
  }

  lemma WritesKeepNames(k: Keys, p: Payload, ttl: Ttl, now: nat)
    requires KeysNamed(k)
    ensures KeysNamed(Put(k, p, ttl, now)) && KeysNamed(Clear(k, p.ride, p.driver))
  {
  }

  lemma NextKeepsNames(w: World, a: Action)
    requires KeysNamed(w.keys)
    ensures KeysNamed(Next(w, a).keys)
  {
    if a.ClearOffer? {
      WritesKeepNames(w.keys, Payload(a.ride, a.driver, ""), 60, 0);
    } else if a.Advance? && Enabled(w, a) {
      var c := w.calls[a.pid];
      if c.Accepting? {
        WritesKeepNames(w.keys, Payload(c.ride, c.driver, c.token), 60, 0);
      } else if c.task.StoreOffer? {
        WritesKeepNames(w.keys, Payload(c.ride, c.task.chosen, a.token), a.ttl, w.now);
      }
    }
  }

  lemma {:induction false} ExecKeepsNames(w: World, actions: seq<Action>)
    requires Idle(w)
    ensures KeysNamed(Exec(w, actions).keys)
  {
    if actions == [] {
    } else {
      ExecKeepsNames(w, actions[..|actions| - 1]);
      NextKeepsNames(Exec(w, actions[..|actions| - 1]), actions[|actions| - 1]);
    }
  }

  predicate IsAccept(w: World, p: Pid, d: DriverId, r: RideId, token: string) {
    p in w.calls && w.calls[p].Accepting? && w.calls[p].driver == d && w.calls[p].ride == r && w.calls[p].token == token
  }

  /** The driver key names the ride. */
  predicate KeyNames(w: World, d: DriverId, r: RideId) {
    DriverKeyLive(w.keys, d, w.now) && w.keys.byDriver[d].ride == r
  }

  /** The ride's offer carries the token. */
  predicate OfferCarries(w: World, r: RideId, token: string) {
    ForRide(w.keys, r, w.now).Some? && ForRide(w.keys, r, w.now).value.token == token
  }

  /** The call has its offer check behind it. */
  predicate Checked(point: AcceptPoint) {
    !point.ReadDriverKey? && !point.ReadRideKey? && point != Returned(Refused(InvalidOffer))
  }

  /** The worlds of a run. */
  ghost function Trace(w: World, actions: seq<Action>): (trace: seq<World>)
    ensures |trace| == |actions| + 1
    ensures forall i :: 0 <= i <= |actions| ==> trace[i] == Exec(w, actions[..i])
  {
    seq(|actions| + 1, i requires 0 <= i <= |actions| => Exec(w, actions[..i]))
  }

  /** The call stands before its first read and the driver key names the ride. */
  predicate ReadsKey(y: World, p: Pid, d: DriverId, r: RideId, token: string, named: RideId) {
    IsAccept(y, p, d, r, token) && y.calls[p].point == ReadDriverKey && KeyNames(y, d, named)
  }

  /** The call stands before its second read and the ride's offer carries its token. */
  predicate ReadsOffer(y: World, p: Pid, d: DriverId, r: RideId, token: string) {
    IsAccept(y, p, d, r, token) && y.calls[p].point.ReadRideKey? && OfferCarries(y, r, token)
  }

  /** How a call gets to its second read, and past it. */
  predicate ReadsInOrder(y: World, z: World, p: Pid, d: DriverId, r: RideId, token: string) {
    IsAccept(z, p, d, r, token) ==>
      var point := z.calls[p].point;
      && (point.ReadRideKey? ==>
            || (IsAccept(y, p, d, r, token) && y.calls[p].point == point)
            || ReadsKey(y, p, d, r, token, point.named))
      && (Checked(point) ==>
            || (IsAccept(y, p, d, r, token) && Checked(y.calls[p].point))
            || (ReadsOffer(y, p, d, r, token) && y.calls[p].point == ReadRideKey(r)))
  }

  lemma AdvanceReadsInOrder(w: World, p: Pid)
    requires KeysNamed(w.keys) && p in w.calls && w.calls[p].Accepting?
    ensures var c := w.calls[p];
      ReadsInOrder(w, AdvanceAccept(w, p, c), p, c.driver, c.ride, c.token)
  {
  }

  lemma NextReadsInOrder(w: World, a: Action, p: Pid, d: DriverId, r: RideId, token: string)
    requires KeysNamed(w.keys)
    ensures ReadsInOrder(w, Next(w, a), p, d, r, token)
  {
    if a.Advance? && Enabled(w, a) && a.pid == p && w.calls[p].Accepting? {
      AdvanceReadsInOrder(w, p);
    }
  }

  lemma {:induction false} KeyWasRead(trace: seq<World>, n: nat, p: Pid, d: DriverId, r: RideId, token: string)
    requires n < |trace| && trace[0].calls == map[]
    requires forall i :: 0 <= i < |trace| - 1 ==> ReadsInOrder(trace[i], trace[i + 1], p, d, r, token)
    requires IsAccept(trace[n], p, d, r, token) && trace[n].calls[p].point.ReadRideKey?
    ensures exists j :: 0 <= j < n && ReadsKey(trace[j], p, d, r, token, trace[n].calls[p].point.named)
  {
    assert ReadsInOrder(trace[n - 1], trace[n - 1 + 1], p, d, r, token);
    if ReadsKey(trace[n - 1], p, d, r, token, trace[n].calls[p].point.named) {
    } else {
      KeyWasRead(trace, n - 1, p, d, r, token);
    }
  }

  lemma {:induction false} OfferWasRead(trace: seq<World>, n: nat, p: Pid, d: DriverId, r: RideId, token: string)
    requires n < |trace| && trace[0].calls == map[]
    requires forall i :: 0 <= i < |trace| - 1 ==> ReadsInOrder(trace[i], trace[i + 1], p, d, r, token)
    requires IsAccept(trace[n], p, d, r, token) && Checked(trace[n].calls[p].point)
    ensures exists j, k ::
      0 <= j < k < n && ReadsKey(trace[j], p, d, r, token, r) && ReadsOffer(trace[k], p, d, r, token)
  {
    assert ReadsInOrder(trace[n - 1], trace[n - 1 + 1], p, d, r, token);
    if IsAccept(trace[n - 1], p, d, r, token) && Checked(trace[n - 1].calls[p].point) {
      OfferWasRead(trace, n - 1, p, d, r, token);
    } else {
      KeyWasRead(trace, n - 1, p, d, r, token);
    }
  }

  lemma TraceReadsInOrder(w: World, actions: seq<Action>, i: nat, p: Pid, d: DriverId, r: RideId, token: string)
    requires Idle(w) && i < |actions|
    ensures ReadsInOrder(Trace(w, actions)[i], Trace(w, actions)[i + 1], p, d, r, token)
  {
    var y, z := Exec(w, actions[..i]), Exec(w, actions[..i + 1]);
    assert actions[..i + 1][..i] == actions[..i];
    ExecKeepsNames(w, actions[..i]);
    NextReadsInOrder(y, actions[i], p, d, r, token);
    assert z == Next(y, actions[i]);
  }

  /** The two reads of a call that has its offer check behind it. */
  lemma ChecksRead(w: World, actions: seq<Action>, p: Pid, d: DriverId, r: RideId, token: string)
    requires Idle(w) && IsAccept(Exec(w, actions), p, d, r, token) && Checked(Exec(w, actions).calls[p].point)
    ensures var trace := Trace(w, actions);
      exists j, k :: && 0 <= j < k < |actions|
                     && ReadsKey(trace[j], p, d, r, token, r) && ReadsOffer(trace[k], p, d, r, token)
  {
    var trace := Trace(w, actions);
    forall i | 0 <= i < |trace| - 1 ensures ReadsInOrder(trace[i], trace[i + 1], p, d, r, token) {
      TraceReadsInOrder(w, actions, i, p, d, r, token);
    }
    assert trace[|actions|] == Exec(w, actions) by {
      assert actions[..|actions|] == actions;
    }
    assert trace[0] == w;
    OfferWasRead(trace, |actions|, p, d, r, token);
  }

  // Both reads at one moment

  /** The whole offer check, made at one moment. */
  predicate CheckPasses(y: World, d: DriverId, r: RideId, token: string) {
    var offer := ForDriver(y.keys, d, y.now);
    offer.Some? && offer.value.ride == r && offer.value.token == token
  }

  /** A task offers the ride to another driver under the token, while the key of `d` does not name the ride. */
  predicate StoresForAnother(y: World, a: Action, d: DriverId, r: RideId, token: string) {
    Stores(y, a, r) && a.token == token && y.calls[a.pid].task.chosen != d && !KeyNames(y, d, r)
  }

  /** At some moment from `j` to `k` the whole check passes. */
  ghost predicate HeldBetween(trace: seq<World>, j: nat, k: nat, d: DriverId, r: RideId, token: string)
    requires k < |trace|
  {
    exists i :: j <= i <= k && CheckPasses(trace[i], d, r, token)
  }

  /** Between `j` and `k` the token is stored for another driver. */
  ghost predicate OvertakenBetween(trace: seq<World>, actions: seq<Action>, j: nat, k: nat,
                                   d: DriverId, r: RideId, token: string)
    requires k < |trace| && |trace| == |actions| + 1
  {
    exists i :: j <= i < k && StoresForAnother(trace[i], actions[i], d, r, token)
  }

  /** A ride's entry was there before the action, or the action stored it together with its driver's key. */
  lemma EntryComesFrom(w: World, a: Action, r: RideId)
    requires KeysNamed(w.keys) && r in Next(w, a).keys.byRide
    ensures var z := Next(w, a);
      || (r in w.keys.byRide && w.keys.byRide[r] == z.keys.byRide[r])
      || (&& Stores(w, a, r) && z.now == w.now
          && z.keys == Put(w.keys, Payload(r, w.calls[a.pid].task.chosen, a.token), a.ttl, w.now))
  {
  }

  lemma ClockNeverFalls(w: World, a: Action)
    ensures w.now <= Next(w, a).now
  {
  }

  lemma TraceStep(w: World, actions: seq<Action>, i: nat)
    requires Idle(w) && i < |actions|
    ensures var trace := Trace(w, actions);
      trace[i + 1] == Next(trace[i], actions[i]) && KeysNamed(trace[i].keys) && trace[i].now <= trace[i + 1].now
  {
    var rest, all := actions[..i], actions[..i + 1];
    assert all[..|all| - 1] == rest;
    ExecKeepsNames(w, rest);
    ClockNeverFalls(Exec(w, rest), actions[i]);
  }

  /** One step back from the second read. */
  lemma CheckOneStepBack(w: World, a: Action, d: DriverId, r: RideId, token: string)
    requires KeysNamed(w.keys) && OfferCarries(Next(w, a), r, token)
    ensures var z := Next(w, a);
      || (r in w.keys.byRide && w.keys.byRide[r] == z.keys.byRide[r])
      || CheckPasses(z, d, r, token)
      || (StoresForAnother(w, a, d, r, token) && z.keys.byRide[r].payload.driver != d)
  {
    EntryComesFrom(w, a, r);
  }

  /**
   * Between the read of the driver key and the read of the ride's offer the whole check passes at one moment,
   * unless the offer was stored in between for another driver whose task found the key of `d` gone.
   */
  lemma {:induction false} CheckHeldUnlessOvertaken(w: World, actions: seq<Action>, j: nat, k: nat,
                                                    d: DriverId, r: RideId, token: string)
    requires Idle(w) && j <= k <= |actions|
    requires KeyNames(Trace(w, actions)[j], d, r) && OfferCarries(Trace(w, actions)[k], r, token)
    ensures var trace := Trace(w, actions);
      || HeldBetween(trace, j, k, d, r, token)
      || (OvertakenBetween(trace, actions, j, k, d, r, token) && trace[k].keys.byRide[r].payload.driver != d)
  {
    var trace := Trace(w, actions);
    if j == k {
      ExecKeepsNames(w, actions[..j]);
      assert CheckPasses(trace[j], d, r, token);
    } else {
      TraceStep(w, actions, k - 1);
      CheckOneStepBack(trace[k - 1], actions[k - 1], d, r, token);
      if r in trace[k - 1].keys.byRide && trace[k - 1].keys.byRide[r] == trace[k].keys.byRide[r] {
        CheckHeldUnlessOvertaken(w, actions, j, k - 1, d, r, token);
      }
    }
  }

  /** An offer addressed to the driver was wholly there at one moment of the check. */
  lemma OwnOfferHeldAtOnce(w: World, actions: seq<Action>, j: nat, k: nat, d: DriverId, r: RideId, token: string)
    requires Idle(w) && j <= k <= |actions|
    requires KeyNames(Trace(w, actions)[j], d, r) && OfferCarries(Trace(w, actions)[k], r, token)
    requires Trace(w, actions)[k].keys.byRide[r].payload.driver == d
    ensures HeldBetween(Trace(w, actions), j, k, d, r, token)
  {
    CheckHeldUnlessOvertaken(w, actions, j, k, d, r, token);
  }

  // Fresh tokens

  /** No two offers of a ride carry the same token. */
  ghost predicate FreshTokens(w: World, actions: seq<Action>, r: RideId) {
    var trace := Trace(w, actions);
    forall i, j :: 0 <= i < j < |actions| && Stores(trace[i], actions[i], r) && Stores(trace[j], actions[j], r) ==>
      actions[i].token != actions[j].token
  }

  predicate StoresToken(y: World, a: Action, r: RideId, token: string) {
    Stores(y, a, r) && a.token == token
  }

  lemma {:induction false} TokenWasStored(w: World, actions: seq<Action>, n: nat, r: RideId, token: string)
    requires Idle(w) && n <= |actions| && OfferCarries(Trace(w, actions)[n], r, token)
    ensures exists i :: 0 <= i < n && StoresToken(Trace(w, actions)[i], actions[i], r, token)
  {
    var trace := Trace(w, actions);
    assert trace[0] == w by {
      assert actions[..0] == [];
    }
    if n == 0 {
    } else {
      TraceStep(w, actions, n - 1);
      EntryComesFrom(trace[n - 1], actions[n - 1], r);
      if !StoresToken(trace[n - 1], actions[n - 1], r, token) {
        TokenWasStored(w, actions, n - 1, r, token);
      }
    }
  }

  /** The driver's key names the ride while the ride's entry, live or not, carries the token. */
  predicate MayPass(y: World, d: DriverId, r: RideId, token: string) {
    KeyNames(y, d, r) && r in y.keys.byRide && y.keys.byRide[r].payload.token == token
  }

  lemma OvertakingForbids(w: World, a: Action, d: DriverId, r: RideId, token: string)
    requires StoresForAnother(w, a, d, r, token)
    ensures !MayPass(Next(w, a), d, r, token)
  {
  }

  lemma OnlyItsStorePasses(w: World, a: Action, d: DriverId, r: RideId, token: string)
    requires !MayPass(w, d, r, token) && !StoresToken(w, a, r, token)
    ensures !MayPass(Next(w, a), d, r, token)
  {
  }

  lemma PassesOnlyAfterItsStore(w: World, actions: seq<Action>, i: nat, d: DriverId, r: RideId, token: string)
    requires Idle(w) && i < |actions| && !StoresToken(Trace(w, actions)[i], actions[i], r, token)
    requires !MayPass(Trace(w, actions)[i], d, r, token)
    ensures !MayPass(Trace(w, actions)[i + 1], d, r, token)
  {
    TraceStep(w, actions, i);
    OnlyItsStorePasses(Trace(w, actions)[i], actions[i], d, r, token);
  }

  lemma {:induction false} NeverPassesAfter(w: World, actions: seq<Action>, s: nat, n: nat,
                                            d: DriverId, r: RideId, token: string)
    requires Idle(w) && s <= n <= |actions| && !MayPass(Trace(w, actions)[s], d, r, token)
    requires forall i :: s <= i < |actions| ==> !StoresToken(Trace(w, actions)[i], actions[i], r, token)
    ensures !MayPass(Trace(w, actions)[n], d, r, token)
  {
    if n == s {
    } else {
      NeverPassesAfter(w, actions, s, n - 1, d, r, token);
      PassesOnlyAfterItsStore(w, actions, n - 1, d, r, token);
    }
  }

  /** A token stored for another driver, the key of `d` not naming the ride, never lets `d` pass. */
  lemma OvertakenNeverPasses(w: World, actions: seq<Action>, s: nat, n: nat, d: DriverId, r: RideId, token: string)
    requires Idle(w) && FreshTokens(w, actions, r) && s < |actions| && n <= |actions|
    requires StoresForAnother(Trace(w, actions)[s], actions[s], d, r, token)
    ensures !CheckPasses(Trace(w, actions)[n], d, r, token)
  {
    var trace := Trace(w, actions);
    ExecKeepsNames(w, actions[..n]);
    if s < n {
      TraceStep(w, actions, s);
      OvertakingForbids(trace[s], actions[s], d, r, token);
      assert forall i: nat :: i < |actions| && StoresToken(trace[i], actions[i], r, token) ==> i == s;
      NeverPassesAfter(w, actions, s + 1, n, d, r, token);
    } else if CheckPasses(trace[n], d, r, token) {
      TokenWasStored(w, actions, n, r, token);
    }
  }

  /** With fresh tokens the whole check passes at one moment exactly when the offer was not overtaken. */
  lemma HeldIffNotOvertaken(w: World, actions: seq<Action>, j: nat, k: nat, d: DriverId, r: RideId, token: string)
    requires Idle(w) && FreshTokens(w, actions, r) && j <= k <= |actions|
    requires KeyNames(Trace(w, actions)[j], d, r) && OfferCarries(Trace(w, actions)[k], r, token)
    ensures var trace := Trace(w, actions);
      HeldBetween(trace, j, k, d, r, token) <==> !OvertakenBetween(trace, actions, j, k, d, r, token)
  {
    var trace := Trace(w, actions);
    CheckHeldUnlessOvertaken(w, actions, j, k, d, r, token);
    if OvertakenBetween(trace, actions, j, k, d, r, token) {
      var s :| j <= s < k && StoresForAnother(trace[s], actions[s], d, r, token);
      forall i | j <= i <= k ensures !CheckPasses(trace[i], d, r, token) {
        OvertakenNeverPasses(w, actions, s, i, d, r, token);
      }
    }
  }

  /** A token that was issued before the call's first read was checked wholly at one moment. */
  lemma IssuedTokenHeldAtOnce(w: World, actions: seq<Action>, s: nat, j: nat, k: nat,
                              d: DriverId, r: RideId, token: string)
    requires Idle(w) && FreshTokens(w, actions, r) && s < j <= k <= |actions|
    requires StoresToken(Trace(w, actions)[s], actions[s], r, token)
    requires KeyNames(Trace(w, actions)[j], d, r) && OfferCarries(Trace(w, actions)[k], r, token)
    ensures HeldBetween(Trace(w, actions), j, k, d, r, token)
  {
    var trace := Trace(w, actions);
    HeldIffNotOvertaken(w, actions, j, k, d, r, token);
    assert forall i :: j <= i < k && Stores(trace[i], actions[i], r) ==> actions[i].token != actions[s].token;
  }

  /**
   * A call past its offer check read a driver key for the ride and, later, an offer with its token. The check
   * passed as a whole at one moment of the call if that offer was the driver's own, and also unless the offer
   * was stored between the two reads for another driver; with fresh tokens, exactly unless it was.
   */
  lemma OfferWasSeen(w: World, actions: seq<Action>, p: Pid, d: DriverId, r: RideId, token: string)
    requires Idle(w) && IsAccept(Exec(w, actions), p, d, r, token) && Checked(Exec(w, actions).calls[p].point)
    ensures var trace := Trace(w, actions);
      exists j, k :: && 0 <= j < k < |actions|
                     && ReadsKey(trace[j], p, d, r, token, r) && ReadsOffer(trace[k], p, d, r, token)
                     && var held := HeldBetween(trace, j, k, d, r, token);
                        var overtaken := OvertakenBetween(trace, actions, j, k, d, r, token);
                        && (trace[k].keys.byRide[r].payload.driver == d ==> held)
                        && (held || overtaken)
                        && (FreshTokens(w, actions, r) ==> (held <==> !overtaken))
  {
    ChecksRead(w, actions, p, d, r, token);
    var trace := Trace(w, actions);
    var j, k :| 0 <= j < k < |actions|
                && ReadsKey(trace[j], p, d, r, token, r) && ReadsOffer(trace[k], p, d, r, token);
    CheckHeldUnlessOvertaken(w, actions, j, k, d, r, token);
    if FreshTokens(w, actions, r) {
      HeldIffNotOvertaken(w, actions, j, k, d, r, token);
    }
  }

  // Answers

  /** The answer of the guarded transaction on the committed rows. */
  ghost function TransactionReply(db: Tables, d: DriverId, r: RideId): Reply {
    var rows := AcceptRows(db, d, r);
    if rows.Failure? then Refused(rows.error) else RideAndTrip(r, TripOf(db.trips, r).value)
  }

  predicate InCall(y: World, p: Pid, d: DriverId, r: RideId, token: string) {
    IsAccept(y, p, d, r, token) && !y.calls[p].point.Returned?
  }

  /** World `y` justifies the answer. */
  ghost predicate Justifies(y: World, d: DriverId, r: RideId, token: string, reply: Reply) {
    if reply == Refused(InvalidOffer) then !CheckPasses(y, d, r, token) else reply == TransactionReply(y.db, d, r)
  }

  /** World `y` justifies the answer to which the call is bound once it stands at `point`, if it is bound to one. */
  ghost predicate Explains(y: World, d: DriverId, r: RideId, token: string, point: AcceptPoint) {
    match point
    case ReadRideKey(named) => named == r || !CheckPasses(y, d, r, token)
    case LockDriver(row) => row.Some? || TransactionReply(y.db, d, r) == Refused(NotFound)
    case ReadTrip(row, driver) => (row.Some? && driver.Some?) || TransactionReply(y.db, d, r) == Refused(NotFound)
    case ClearKeys(t) => TransactionReply(y.db, d, r) == RideAndTrip(r, t)
    case Returned(reply) => Justifies(y, d, r, token, reply)
    case _ => true
  }

  /** A step to `point` is justified by the world it is taken in, or by whatever justified the call before. */
  ghost predicate StepExplained(w: World, c: Call, point: AcceptPoint, y: World)
    requires c.Accepting?
  {
    || Explains(w, c.driver, c.ride, c.token, point)
    || (!c.point.ReadDriverKey? && Explains(y, c.driver, c.ride, c.token, c.point) ==>
          Explains(y, c.driver, c.ride, c.token, point))
  }

  lemma CheckExplains(w: World, p: Pid, y: World)
    requires KeysNamed(w.keys) && p in w.calls && w.calls[p].Accepting?
    requires w.calls[p].point.ReadDriverKey? || w.calls[p].point.ReadRideKey?
    ensures StepExplained(w, w.calls[p], AdvanceAccept(w, p, w.calls[p]).calls[p].point, y)
    ensures w.calls[p].point.ReadDriverKey? ==>
      var c := w.calls[p]; Explains(w, c.driver, c.ride, c.token, AdvanceAccept(w, p, c).calls[p].point)
  {
  }

  lemma LocksExplain(w: World, p: Pid, y: World)
    requires p in w.calls && w.calls[p].Accepting?
    requires w.calls[p].point.LockRide? || w.calls[p].point.LockDriver?
    ensures StepExplained(w, w.calls[p], AdvanceAccept(w, p, w.calls[p]).calls[p].point, y)
  {
  }

  lemma DecisionExplains(w: World, p: Pid, y: World)
    requires p in w.calls && w.calls[p].Accepting? && RowsCurrent(w.db, w.calls[p])
    requires w.calls[p].point.ReadTrip?
    ensures StepExplained(w, w.calls[p], AdvanceAccept(w, p, w.calls[p]).calls[p].point, y)
  {
  }

  lemma CommitExplains(w: World, p: Pid, y: World)
    requires p in w.calls && w.calls[p].Accepting? && RowsCurrent(w.db, w.calls[p]) && TablesOk(w.db)
    requires w.calls[p].point.Commit? || w.calls[p].point.ClearKeys?
    ensures StepExplained(w, w.calls[p], AdvanceAccept(w, p, w.calls[p]).calls[p].point, y)
  {
  }

  lemma AdvanceExplains(w: World, p: Pid, y: World)
    requires KeysNamed(w.keys) && SafeFor(w, p) && w.calls[p].Accepting? && !w.calls[p].point.Returned?
    ensures StepExplained(w, w.calls[p], AdvanceAccept(w, p, w.calls[p]).calls[p].point, y)
  {
    match w.calls[p].point
    case ReadDriverKey => CheckExplains(w, p, y);
    case ReadRideKey(_) => CheckExplains(w, p, y);
    case LockRide => LocksExplain(w, p, y);
    case LockDriver(_) => LocksExplain(w, p, y);
    case ReadTrip(_, _) => DecisionExplains(w, p, y);
    case _ => CommitExplains(w, p, y);
  }

  /** How the justification of a call is found from one world to the next. */
  ghost predicate KeepsExplained(y: World, z: World, p: Pid, d: DriverId, r: RideId, token: string) {
    IsAccept(z, p, d, r, token) && !z.calls[p].point.ReadDriverKey? ==>
      && IsAccept(y, p, d, r, token)
      && var was, point := y.calls[p].point, z.calls[p].point;
         || was == point
         || (InCall(y, p, d, r, token)
             && (|| Explains(y, d, r, token, point)
                 || (!was.ReadDriverKey?
                     && forall x :: Explains(x, d, r, token, was) ==> Explains(x, d, r, token, point))))
  }

  lemma AdvanceKeepsExplained(w: World, p: Pid)
    requires KeysNamed(w.keys) && SafeFor(w, p) && w.calls[p].Accepting? && !w.calls[p].point.Returned?
    ensures var c := w.calls[p];
      KeepsExplained(w, AdvanceAccept(w, p, c), p, c.driver, c.ride, c.token)
  {
    var c := w.calls[p];
    var point := AdvanceAccept(w, p, c).calls[p].point;
    AdvanceExplains(w, p, w);
    if !Explains(w, c.driver, c.ride, c.token, point) {
      forall x | Explains(x, c.driver, c.ride, c.token, c.point) ensures Explains(x, c.driver, c.ride, c.token, point) {
        AdvanceExplains(w, p, x);
      }
    }
  }

  lemma NextKeepsExplained(w: World, a: Action, p: Pid, d: DriverId, r: RideId, token: string)
    requires Safe(w) && KeysNamed(w.keys)
    ensures KeepsExplained(w, Next(w, a), p, d, r, token)
  {
    if a.Advance? && Enabled(w, a) && a.pid == p && w.calls[p].Accepting? {
      assert SafeFor(w, p);
      AdvanceKeepsExplained(w, p);
    }
  }

  lemma TraceKeepsExplained(w: World, actions: seq<Action>, i: nat, p: Pid, d: DriverId, r: RideId, token: string)
    requires Idle(w) && i < |actions|
    ensures KeepsExplained(Trace(w, actions)[i], Trace(w, actions)[i + 1], p, d, r, token)
  {
    TraceStep(w, actions, i);
    ExecIsSafe(w, actions[..i]);
    NextKeepsExplained(Trace(w, actions)[i], actions[i], p, d, r, token);
  }

  /** Some world of the call so far justifies where it stands. */
  ghost predicate Explained(trace: seq<World>, n: nat, p: Pid, d: DriverId, r: RideId, token: string,
                            point: AcceptPoint)
    requires n < |trace|
  {
    exists i :: 0 <= i < n && InCall(trace[i], p, d, r, token) && Explains(trace[i], d, r, token, point)
  }

  lemma {:induction false} CallIsExplained(trace: seq<World>, n: nat, p: Pid, d: DriverId, r: RideId, token: string)
    requires n < |trace| && trace[0].calls == map[]
    requires forall i :: 0 <= i < |trace| - 1 ==> KeepsExplained(trace[i], trace[i + 1], p, d, r, token)
    requires IsAccept(trace[n], p, d, r, token) && !trace[n].calls[p].point.ReadDriverKey?
    ensures Explained(trace, n, p, d, r, token, trace[n].calls[p].point)
  {
    assert KeepsExplained(trace[n - 1], trace[n - 1 + 1], p, d, r, token);
    var point := trace[n].calls[p].point;
    if InCall(trace[n - 1], p, d, r, token) && Explains(trace[n - 1], d, r, token, point) {
    } else {
      CallIsExplained(trace, n - 1, p, d, r, token);
      var i :| 0 <= i < n - 1 && InCall(trace[i], p, d, r, token)
               && Explains(trace[i], d, r, token, trace[n - 1].calls[p].point);
      assert Explains(trace[i], d, r, token, point);
    }
  }

  lemma ExplainedAnswer(trace: seq<World>, n: nat, p: Pid, d: DriverId, r: RideId, token: string, reply: Reply)
    requires n < |trace| && Explained(trace, n, p, d, r, token, Returned(reply))
    ensures exists i :: 0 <= i < n && InCall(trace[i], p, d, r, token) && Justifies(trace[i], d, r, token, reply)
  {
    var i :| 0 <= i < n && InCall(trace[i], p, d, r, token) && Explains(trace[i], d, r, token, Returned(reply));
    assert Justifies(trace[i], d, r, token, reply);
  }

  /**
   * Every answer of a concurrent accept is the serial one at some moment of the call: a refused offer fails the
   * whole check there, and any other answer, a missing row included, is that of the guarded transaction.
   */
  lemma AnswerIsSerial(w: World, actions: seq<Action>, p: Pid, d: DriverId, r: RideId, token: string)
    requires Idle(w) && IsAccept(Exec(w, actions), p, d, r, token) && Exec(w, actions).calls[p].point.Returned?
    ensures var trace, reply := Trace(w, actions), Exec(w, actions).calls[p].point.reply;
      exists i :: 0 <= i < |actions| && InCall(trace[i], p, d, r, token) && Justifies(trace[i], d, r, token, reply)
  {
    var trace := Trace(w, actions);
    var n := |actions|;
    forall i | 0 <= i < |trace| - 1 ensures KeepsExplained(trace[i], trace[i + 1], p, d, r, token) {
      TraceKeepsExplained(w, actions, i, p, d, r, token);
    }
    assert trace[n] == Exec(w, actions) by {
      assert actions[..n] == actions;
    }
    assert trace[0] == w;
    CallIsExplained(trace, n, p, d, r, token);
    ExplainedAnswer(trace, n, p, d, r, token, trace[n].calls[p].point.reply);
  }
}
