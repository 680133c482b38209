/** Runs of the interleaved service, from the idle start, that show what interleaving loses. */
module Witnesses {
  import opened Domain
  import opened Offers
  import opened Operations
  import opened Concurrent
  import opened ConcurrentRuns
  import opened Atomicity
  import opened OfferChecks
  import Matching

  // Runs in pieces

  lemma {:induction false} ExecAppend(w: World, a: seq<Action>, b: seq<Action>)
    ensures Exec(w, a + b) == Exec(Exec(w, a), b)
  {
    if b == [] {
      assert a + b == a;
    } else {
      var n := |b| - 1;
      ExecAppend(w, a, b[..n]);
      assert (a + b)[..|a + b| - 1] == a + b[..n];
    }
  }

  lemma ExecOne(w: World, a: Action)
    ensures Exec(w, [a]) == Next(w, a)
  {
    assert [a][..0] == [];
    assert Exec(w, [a][..0]) == w;
  }

  function Times(a: Action, n: nat): seq<Action> {
    if n == 0 then [] else [a] + Times(a, n - 1)
  }

  /** Advancing one call `n` times in a row. */
  lemma {:induction false} TimesIsFinish(w: World, a: Action, n: nat)
    requires a.Advance?
    ensures Exec(w, Times(a, n)) == Finish(w, a, n)
    decreases n
  {
    if n == 0 {
    } else {
      ExecAppend(w, [a], Times(a, n - 1));
      ExecOne(w, a);
      TimesIsFinish(Next(w, a), a, n - 1);
      if !CanAdvance(w, a.pid) {
        FinishStops(w, a, n - 1);
      }
    }
  }

  ghost predicate OnlyMoves(w: World, z: World, p: Pid) {
    p in z.calls && z.calls == w.calls[p := z.calls[p]]
  }

  lemma NextMovesOneCall(w: World, a: Action)
    requires a.Advance? && CanAdvance(w, a.pid)
    ensures OnlyMoves(w, Next(w, a), a.pid)
  {
  }

  lemma OnlyMovesTwice(x: World, y: World, z: World, p: Pid)
    requires OnlyMoves(x, y, p) && OnlyMoves(y, z, p)
    ensures OnlyMoves(x, z, p)
  {
  }

  /** Advancing one call leaves the others where they are. */
  lemma {:induction false} FinishMovesOneCall(w: World, a: Action, n: nat)
    requires a.Advance? && a.pid in w.calls
    ensures OnlyMoves(w, Finish(w, a, n), a.pid)
    decreases n
  {
    if n == 0 || !CanAdvance(w, a.pid) {
      FinishStops(w, a, n);
      assert OnlyMoves(w, w, a.pid);
    } else {
      var y := Next(w, a);
      NextMovesOneCall(w, a);
      FinishSteps(w, a, n, y);
      FinishMovesOneCall(y, a, n - 1);
      OnlyMovesTwice(w, y, Finish(y, a, n - 1), a.pid);
    }
  }

  lemma {:induction false} FinishIsSafe(w: World, a: Action, n: nat)
    requires a.Advance? && Safe(w)
    ensures Safe(Finish(w, a, n))
    decreases n
  {
    if n == 0 || !CanAdvance(w, a.pid) {
      FinishStops(w, a, n);
    } else {
      NextIsSafe(w, a);
      FinishSteps(w, a, n, Next(w, a));
      FinishIsSafe(Next(w, a), a, n - 1);
    }
  }

  /** The call holds no row lock. */
  predicate Resting(c: Call) {
    match c
    case Accepting(_, _, _, point) => WithoutLocks(point) || point.LockRide? || point.Returned?
    case Tasking(_, task) => task.LockRow? || task.Ended?
    case Crashed => true
  }

  predicate AllRest(w: World) {
    forall p :: p in w.calls ==> Resting(w.calls[p])
  }

  lemma RestingHoldsNothing(c: Call, r: RideId, d: DriverId)
    requires Resting(c)
    ensures !HoldsRide(c, r) && !HoldsDriver(c, d)
  {
  }

  lemma NoLocksAtRest(w: World)
    requires Safe(w) && AllRest(w)
    ensures w.rideLocks == map[] && w.driverLocks == map[]
  {
    forall r | r in w.rideLocks ensures false {
      RestingHoldsNothing(w.calls[w.rideLocks[r]], r, DriverId(0));
    }
    forall d | d in w.driverLocks ensures false {
      RestingHoldsNothing(w.calls[w.driverLocks[d]], RideId(0), d);
    }
    assert w.rideLocks.Keys == {} && w.driverLocks.Keys == {};
  }

  // An offer

  /** Rows of one waiting ride. */
  ghost predicate Waiting(db: Tables, r: RideId, t: TripId) {
    && Unmatched(db, r) && TripOf(db.trips, r) == Some(t)
    && db.rides[r].driver.None?
  }

  /** A world at rest with a waiting ride and no assign lock. */
  ghost predicate AtRest(w: World, r: RideId, t: TripId) {
    Safe(w) && AllRest(w) && Waiting(w.db, r, t) && w.assignLocks == map[]
  }

  lemma TaskOffersAtomically(s: State, r: RideId, d: DriverId, token: string)
    requires Unmatched(s.db, r) && s.locks == map[] && Matching.IsOnline(s.db.drivers, d)
    ensures var z := MatchRide(s, r, Matching.Only(d), token, 60);
      z == s.(keys := Put(s.keys, Payload(r, d, token), 60, s.now))
  {
    Matching.OnlyDriverIsChosen(d, s.db.drivers, s.db.rides[r].tier);
    assert s.locks - {r} == s.locks;
  }

  /** Seven steps of a lone task offer the ride to the only driver found. */
  lemma TaskOffers(w: World, p: Pid, r: RideId, t: TripId, d: DriverId, token: string)
    requires AtRest(w, r, t) && TaskAt(w, p, r, LockRow) && Matching.IsOnline(w.db.drivers, d)
    ensures var z := Exec(w, Times(Advance(p, Matching.Only(d), token, 60), 7));
      && AtRest(z, r, t) && z.db == w.db && z.now == w.now
      && z.keys == Put(w.keys, Payload(r, d, token), 60, w.now)
      && z.calls == w.calls[p := Tasking(r, Ended)]
  {
    var a := Advance(p, Matching.Only(d), token, 60);
    var z := Finish(w, a, 7);
    NoLocksAtRest(w);
    TimesIsFinish(w, a, 7);
    TaskAlone(w, a, r, multiset{});
    TaskOffersAtomically(View(w, multiset{}), r, d, token);
    FinishMovesOneCall(w, a, 7);
    FinishIsSafe(w, a, 7);
    assert View(z, multiset{}).db == w.db && View(z, multiset{}).locks == map[];
  }

  lemma BeginsAtRest(w: World, p: Pid, c: Call, r: RideId, t: TripId)
    requires AtRest(w, r, t) && p !in w.calls && Fresh(c)
    ensures Next(w, Begin(p, c)) == w.(calls := w.calls[p := c]) && AtRest(Next(w, Begin(p, c)), r, t)
  {
    NextIsSafe(w, Begin(p, c));
  }

  /** A ride is created and its task offers it. */
  function OfferRun(p: Pid, r: RideId, t: TripId, order: Order, d: DriverId, token: string): seq<Action> {
    [Background(Insert(r, t, order, None))]
    + ([Begin(p, Tasking(r, LockRow))] + Times(Advance(p, Matching.Only(d), token, 60), 7))
  }

  /** A fresh service with drivers. */
  ghost predicate Start(w: World) {
    Idle(w) && w.assignLocks == map[]
  }

  lemma InsertWaits(w: World, r: RideId, t: TripId, order: Order)
    requires Start(w)
    ensures var a := Background(Insert(r, t, order, None));
      && Next(w, a) == w.(db := Next(w, a).db) && Next(w, a).db.drivers == w.db.drivers
      && AtRest(Next(w, a), r, t)
  {
    var a := Background(Insert(r, t, order, None));
    NextIsSafe(w, a);
    assert Next(w, a).db.trips == map[t := NewTrip(r)];
  }

  lemma OfferRunOffers(w: World, p: Pid, r: RideId, t: TripId, order: Order, d: DriverId, token: string)
    requires Start(w) && Matching.IsOnline(w.db.drivers, d)
    ensures var z := Exec(w, OfferRun(p, r, t, order, d, token));
      && AtRest(z, r, t) && z.db.drivers == w.db.drivers && z.now == w.now
      && z.keys == Put(Keys(map[], map[]), Payload(r, d, token), 60, w.now)
      && z.calls == map[p := Tasking(r, Ended)]
  {
    var insert, begin := Background(Insert(r, t, order, None)), Begin(p, Tasking(r, LockRow));
    var steps := Times(Advance(p, Matching.Only(d), token, 60), 7);
    ExecAppend(w, [insert], [begin] + steps);
    ExecOne(w, insert);
    InsertWaits(w, r, t, order);
    var y := Next(w, insert);
    ExecAppend(y, [begin], steps);
    ExecOne(y, begin);
    BeginsAtRest(y, p, Tasking(r, LockRow), r, t);
    TaskOffers(Next(y, begin), p, r, t, d, token);
  }

  // A cancel undone

  lemma CancelledRowsStillAccept(db: Tables, d: DriverId, r: RideId, t: TripId)
    requires TablesOk(db) && Waiting(db, r, t) && Matching.IsOnline(db.drivers, d)
    ensures var z := Apply(db, CancelWrite(r, Some(t)));
      && r in z.rides && z.rides[r].status == RideStatus.Cancelled
      && t in z.trips && z.trips[t].status == TripStatus.Cancelled
      && TripOf(z.trips, r) == Some(t) && d in z.drivers
      && AcceptRows(z, d, r) == Success(AssignRows(z, d, r, t))
  {
    var z := Apply(db, CancelWrite(r, Some(t)));
    ApplyKeepsTables(db, CancelWrite(r, Some(t)));
    assert t in z.trips && z.trips[t].ride == r;
  }

  /** The two reads of an accept that finds its offer. */
  lemma TwoReads(w: World, q: Pid, d: DriverId, r: RideId, token: string)
    requires InCall(w, q, d, r, token) && w.calls[q].point.ReadDriverKey?
    requires KeysNamed(w.keys) && CheckPasses(w, d, r, token)
    ensures var a := Advance(q, [], "", 60);
      Exec(w, Times(a, 2)) == w.(calls := w.calls[q := Accepting(d, r, token, LockRide)])
  {
    var a := Advance(q, [], "", 60);
    TimesIsFinish(w, a, 2);
    var y := Next(w, a);
    FinishSteps(w, a, 2, y);
    FinishSteps(y, a, 1, Next(y, a));
  }

  /** The steps of one accept call. */
  function Steps(q: Pid, n: nat): seq<Action> {
    Times(Advance(q, [], "", 60), n)
  }

  /** The driver's call gets past its offer check. */
  function CheckedRun(p: Pid, q: Pid, r: RideId, t: TripId, order: Order, d: DriverId, token: string): seq<Action> {
    OfferRun(p, r, t, order, d, token) + ([Begin(q, Accepting(d, r, token, ReadDriverKey))] + Steps(q, 2))
  }

  /** Then the rider cancels: the offer is cleared, ride and trip are cancelled. */
  function CancelRun(p: Pid, q: Pid, r: RideId, t: TripId, order: Order, d: DriverId, token: string): seq<Action> {
    CheckedRun(p, q, r, t, order, d, token) + ([ClearOffer(r, d)] + [Background(CancelWrite(r, Some(t)))])
  }

  /** Then the driver's call goes on. */
  function UndoneRun(p: Pid, q: Pid, r: RideId, t: TripId, order: Order, d: DriverId, token: string): seq<Action> {
    CancelRun(p, q, r, t, order, d, token) + Steps(q, 5)
  }

  lemma CheckedRunChecks(w: World, p: Pid, q: Pid, r: RideId, t: TripId, order: Order, d: DriverId, token: string)
    requires Start(w) && Matching.IsOnline(w.db.drivers, d) && p != q
    ensures var z := Exec(w, CheckedRun(p, q, r, t, order, d, token));
      && AtRest(z, r, t) && z.db.drivers == w.db.drivers
      && q in z.calls && z.calls[q] == Accepting(d, r, token, LockRide)
  {
    var first, c := OfferRun(p, r, t, order, d, token), Accepting(d, r, token, ReadDriverKey);
    var y := Exec(w, first);
    OfferRunOffers(w, p, r, t, order, d, token);
    ExecAppend(w, first, [Begin(q, c)] + Steps(q, 2));
    ExecAppend(y, [Begin(q, c)], Steps(q, 2));
    ExecOne(y, Begin(q, c));
    BeginsAtRest(y, q, c, r, t);
    var x := Next(y, Begin(q, c));
    TwoReads(x, q, d, r, token);
    ChecksAtRest(x, q, r, t);
  }

  lemma ChecksAtRest(w: World, q: Pid, r: RideId, t: TripId)
    requires AtRest(w, r, t) && q in w.calls && w.calls[q].Accepting?
    requires var z := Exec(w, Steps(q, 2)); z == w.(calls := z.calls) && q in z.calls && Resting(z.calls[q])
    ensures AtRest(Exec(w, Steps(q, 2)), r, t)
  {
    var a := Advance(q, [], "", 60);
    TimesIsFinish(w, a, 2);
    FinishMovesOneCall(w, a, 2);
    FinishIsSafe(w, a, 2);
  }

  lemma CancelRunCancels(w: World, p: Pid, q: Pid, r: RideId, t: TripId, order: Order, d: DriverId, token: string)
    requires Start(w) && Matching.IsOnline(w.db.drivers, d) && p != q
    ensures var y := Exec(w, CheckedRun(p, q, r, t, order, d, token));
      var z := Exec(w, CancelRun(p, q, r, t, order, d, token));
      z == y.(keys := Clear(y.keys, r, d), db := Apply(y.db, CancelWrite(r, Some(t))))
  {
    var first := CheckedRun(p, q, r, t, order, d, token);
    var clear, cancel := ClearOffer(r, d), Background(CancelWrite(r, Some(t)));
    var y := Exec(w, first);
    CheckedRunChecks(w, p, q, r, t, order, d, token);
    NoLocksAtRest(y);
    ExecAppend(w, first, [clear] + [cancel]);
    ExecAppend(y, [clear], [cancel]);
    ExecOne(y, clear);
    ExecOne(Next(y, clear), cancel);
  }

  /** A cancel between the offer check and the row lock: both rows are cancelled, and then assigned all the same. */
  lemma CancelCanBeUndone(w: World, p: Pid, q: Pid, r: RideId, t: TripId, order: Order, d: DriverId, token: string)
    requires Start(w) && Matching.IsOnline(w.db.drivers, d) && p != q
    ensures var y := Exec(w, CancelRun(p, q, r, t, order, d, token)).db;
      && r in y.rides && y.rides[r].status == RideStatus.Cancelled
      && t in y.trips && y.trips[t].status == TripStatus.Cancelled
    ensures var z := Exec(w, UndoneRun(p, q, r, t, order, d, token));
      && r in z.db.rides && z.db.rides[r].status == RideStatus.DriverAssigned && z.db.rides[r].driver == Some(d)
      && t in z.db.trips && z.db.trips[t].status == TripStatus.DriverAssigned
      && AcceptAt(z, q, Returned(RideAndTrip(r, t)))
  {
    var first := CancelRun(p, q, r, t, order, d, token);
    var x := Exec(w, CheckedRun(p, q, r, t, order, d, token));
    var y := Exec(w, first);
    CheckedRunChecks(w, p, q, r, t, order, d, token);
    NoLocksAtRest(x);
    CancelRunCancels(w, p, q, r, t, order, d, token);
    CancelledRowsStillAccept(x.db, d, r, t);
    ExecAppend(w, first, Steps(q, 5));
    TimesIsFinish(y, Advance(q, [], "", 60), 5);
    TransactionAlone(y, Advance(q, [], "", 60));
  }

  // An offer overtaken

  /** No entry of the ride carries the token. */
  predicate Unstored(w: World, r: RideId, token: string) {
    r in w.keys.byRide ==> w.keys.byRide[r].payload.token != token
  }

  /** The driver's key does not name the ride, and no task is about to offer the ride to the driver. */
  predicate Passed(w: World, d: DriverId, r: RideId) {
    && !KeyNames(w, d, r)
    && forall p :: p in w.calls && w.calls[p].Tasking? && w.calls[p].ride == r ==> !Chose(w.calls[p].task, d)
  }

  predicate Chose(task: MatchPoint, d: DriverId) {
    (task.TakeAssignLock? || task.StoreOffer?) && task.chosen == d
  }

  lemma StaysUnstored(w: World, a: Action, r: RideId, token: string)
    requires Unstored(w, r, token) && (a.Advance? ==> a.token != token)
    ensures Unstored(Next(w, a), r, token)
  {
  }

  lemma StaysPassed(w: World, a: Action, d: DriverId, e: DriverId, r: RideId)
    requires Passed(w, d, r) && d != e
    requires a.Advance? ==> a.raw == Matching.Only(e) || a.raw == []
    ensures Passed(Next(w, a), d, r)
  {
    if a.Advance? && Enabled(w, a) && w.calls[a.pid].Tasking? && w.calls[a.pid].task.Scan? {
      Matching.OnlyDriverIsChosen(e, w.db.drivers, w.calls[a.pid].task.row.tier);
    }
  }

  lemma {:induction false} UnstoredThroughout(w: World, actions: seq<Action>, r: RideId, token: string)
    requires Unstored(w, r, token)
    requires forall i :: 0 <= i < |actions| && actions[i].Advance? ==> actions[i].token != token
    ensures Unstored(Exec(w, actions), r, token)
  {
    if actions == [] {
    } else {
      UnstoredThroughout(w, actions[..|actions| - 1], r, token);
      StaysUnstored(Exec(w, actions[..|actions| - 1]), actions[|actions| - 1], r, token);
    }
  }

  lemma {:induction false} PassedThroughout(w: World, actions: seq<Action>, d: DriverId, e: DriverId, r: RideId)
    requires Passed(w, d, r) && d != e
    requires forall i :: 0 <= i < |actions| && actions[i].Advance? ==>
      actions[i].raw == Matching.Only(e) || actions[i].raw == []
    ensures Passed(Exec(w, actions), d, r)
  {
    if actions == [] {
    } else {
      PassedThroughout(w, actions[..|actions| - 1], d, e, r);
      StaysPassed(Exec(w, actions[..|actions| - 1]), actions[|actions| - 1], d, e, r);
    }
  }

  /** The check fails all along `early + late` if its token comes late and its key is gone by then. */
  lemma NeverChecks(w: World, early: seq<Action>, late: seq<Action>, n: nat,
                    d: DriverId, e: DriverId, r: RideId, token: string)
    requires Idle(w) && d != e && n <= |early + late|
    requires forall i :: 0 <= i < |early| && early[i].Advance? ==> early[i].token != token
    requires Passed(Exec(w, early), d, r)
    requires forall i :: 0 <= i < |late| && late[i].Advance? ==> late[i].raw == Matching.Only(e) || late[i].raw == []
    ensures !CheckPasses(Exec(w, (early + late)[..n]), d, r, token)
  {
    ExecKeepsNames(w, (early + late)[..n]);
    if n <= |early| {
      assert (early + late)[..n] == early[..n];
      UnstoredThroughout(w, early[..n], r, token);
    } else {
      var m := n - |early|;
      assert (early + late)[..n] == early + late[..m];
      ExecAppend(w, early, late[..m]);
      PassedThroughout(Exec(w, early), late[..m], d, e, r);
    }
  }

  /** A task offers the ride to `d`; the driver's call, with another token, reads the driver key; both keys expire. */
  function EarlyRun(p: Pid, q: Pid, r: RideId, t: TripId, order: Order, d: DriverId, a: string,
                    b: string): seq<Action> {
    OfferRun(p, r, t, order, d, a) + ([Begin(q, Accepting(d, r, b, ReadDriverKey))] + (Steps(q, 1) + [Action.Tick(60)]))
  }

  /** A second task offers the ride to `e` under the presented token; the first driver's call goes on. */
  function LateRun(p: Pid, q: Pid, r: RideId, e: DriverId, b: string): seq<Action> {
    [Begin(p, Tasking(r, LockRow))] + (Times(Advance(p, Matching.Only(e), b, 60), 7) + Steps(q, 6))
  }

  lemma KeyRead(w: World, q: Pid, d: DriverId, r: RideId, t: TripId, token: string)
    requires AtRest(w, r, t) && q in w.calls && w.calls[q] == Accepting(d, r, token, ReadDriverKey)
    requires KeyNames(w, d, r)
    ensures var z := Next(w, Advance(q, [], "", 60));
      z == w.(calls := w.calls[q := Accepting(d, r, token, ReadRideKey(r))]) && AtRest(z, r, t)
  {
    NextIsSafe(w, Advance(q, [], "", 60));
  }

  lemma KeyExpires(w: World, d: DriverId, r: RideId, t: TripId)
    requires AtRest(w, r, t) && KeyNames(w, d, r) && w.keys.byDriver[d].expires <= w.now + 60
    ensures var z := Next(w, Action.Tick(60));
      z == w.(now := w.now + 60) && AtRest(z, r, t) && !KeyNames(z, d, r)
  {
    NextIsSafe(w, Action.Tick(60));
  }

  lemma KeyReadAndExpired(w: World, q: Pid, d: DriverId, r: RideId, t: TripId, token: string)
    requires AtRest(w, r, t) && q in w.calls && w.calls[q] == Accepting(d, r, token, ReadDriverKey)
    requires KeyNames(w, d, r) && w.keys.byDriver[d].expires <= w.now + 60
    ensures var z := Exec(w, Steps(q, 1) + [Action.Tick(60)]);
      && AtRest(z, r, t) && z.db == w.db && !KeyNames(z, d, r)
      && z.calls == w.calls[q := Accepting(d, r, token, ReadRideKey(r))]
  {
    var a := Advance(q, [], "", 60);
    ExecAppend(w, Steps(q, 1), [Action.Tick(60)]);
    TimesAre(a, 1);
    assert Steps(q, 1) == [a];
    ExecOne(w, a);
    ExecOne(Next(w, a), Action.Tick(60));
    KeyRead(w, q, d, r, t, token);
    KeyExpires(Next(w, a), d, r, t);
  }

  /** The driver's call begins, reads the driver key, and both keys expire. */
  lemma CallReadsAndExpires(w: World, q: Pid, d: DriverId, r: RideId, t: TripId, b: string)
    requires AtRest(w, r, t) && q !in w.calls
    requires KeyNames(w, d, r) && w.keys.byDriver[d].expires <= w.now + 60
    ensures var z := Exec(w, [Begin(q, Accepting(d, r, b, ReadDriverKey))] + (Steps(q, 1) + [Action.Tick(60)]));
      && AtRest(z, r, t) && z.db == w.db && !KeyNames(z, d, r)
      && z.calls == w.calls[q := Accepting(d, r, b, ReadRideKey(r))]
  {
    var begin := Begin(q, Accepting(d, r, b, ReadDriverKey));
    ExecAppend(w, [begin], Steps(q, 1) + [Action.Tick(60)]);
    ExecOne(w, begin);
    BeginsAtRest(w, q, Accepting(d, r, b, ReadDriverKey), r, t);
    KeyReadAndExpired(Next(w, begin), q, d, r, t, b);
  }

  lemma EarlyRunExpires(w: World, p: Pid, q: Pid, r: RideId, t: TripId, order: Order,
                        d: DriverId, a: string, b: string)
    requires Start(w) && Matching.IsOnline(w.db.drivers, d) && p != q
    ensures var z := Exec(w, EarlyRun(p, q, r, t, order, d, a, b));
      && AtRest(z, r, t) && z.db.drivers == w.db.drivers && Passed(z, d, r)
      && z.calls == map[p := Tasking(r, Ended), q := Accepting(d, r, b, ReadRideKey(r))]
  {
    var first := OfferRun(p, r, t, order, d, a);
    OfferRunOffers(w, p, r, t, order, d, a);
    ExecAppend(w, first, [Begin(q, Accepting(d, r, b, ReadDriverKey))] + (Steps(q, 1) + [Action.Tick(60)]));
    CallReadsAndExpires(Exec(w, first), q, d, r, t, b);
  }

  /** The second read and the transaction of a call whose first read named the ride. */
  lemma LateAcceptSucceeds(w: World, q: Pid, d: DriverId, r: RideId, t: TripId, b: string)
    requires AtRest(w, r, t) && Matching.IsOnline(w.db.drivers, d)
    requires q in w.calls && w.calls[q] == Accepting(d, r, b, ReadRideKey(r))
    requires ForRide(w.keys, r, w.now).Some? && KeysNamed(w.keys) && ForRide(w.keys, r, w.now).value.token == b
    ensures var z := Exec(w, Steps(q, 6));
      AcceptAt(z, q, Returned(RideAndTrip(r, t))) && DriverOf(z.db, r) == Some(d)
  {
    var a := Advance(q, [], "", 60);
    NoLocksAtRest(w);
    TimesIsFinish(w, a, 6);
    OfferAlone(w, a, r);
  }

  lemma LateRunAccepts(w: World, p: Pid, q: Pid, d: DriverId, e: DriverId, r: RideId, t: TripId, b: string)
    requires AtRest(w, r, t) && KeysNamed(w.keys) && p !in w.calls
    requires Matching.IsOnline(w.db.drivers, d) && Matching.IsOnline(w.db.drivers, e)
    requires q in w.calls && w.calls[q] == Accepting(d, r, b, ReadRideKey(r))
    ensures var z := Exec(w, LateRun(p, q, r, e, b));
      AcceptAt(z, q, Returned(RideAndTrip(r, t))) && DriverOf(z.db, r) == Some(d)
  {
    var begin, steps := Begin(p, Tasking(r, LockRow)), Times(Advance(p, Matching.Only(e), b, 60), 7);
    ExecAppend(w, [begin], steps + Steps(q, 6));
    ExecOne(w, begin);
    BeginsAtRest(w, p, Tasking(r, LockRow), r, t);
    var y := Next(w, begin);
    ExecAppend(y, steps, Steps(q, 6));
    TaskOffers(y, p, r, t, e, b);
    WritesKeepNames(y.keys, Payload(r, e, b), 60, y.now);
    LateAcceptSucceeds(Exec(y, steps), q, d, r, t, b);
  }

  lemma TimesAre(a: Action, n: nat)
    ensures |Times(a, n)| == n && forall i :: 0 <= i < n ==> Times(a, n)[i] == a
  {
  }

  lemma RunsAre(p: Pid, p2: Pid, q: Pid, r: RideId, t: TripId, order: Order,
                d: DriverId, e: DriverId, a: string, b: string)
    requires a != b && b != ""
    ensures var early := EarlyRun(p, q, r, t, order, d, a, b);
      forall i :: 0 <= i < |early| && early[i].Advance? ==> early[i].token != b
    ensures var late := LateRun(p2, q, r, e, b);
      forall i :: 0 <= i < |late| && late[i].Advance? ==> late[i].raw == Matching.Only(e) || late[i].raw == []
  {
    TimesAre(Advance(p, Matching.Only(d), a, 60), 7);
    TimesAre(Advance(p2, Matching.Only(e), b, 60), 7);
    TimesAre(Advance(q, [], "", 60), 1);
    TimesAre(Advance(q, [], "", 60), 6);
  }

  /**
   * The offer check of a winner need never pass as a whole: the driver's key is read while it names the ride, and
   * the ride's offer is read after it has been made to somebody else under the token the call presents.
   */
  lemma OfferCanBeOvertaken(w: World, p: Pid, p2: Pid, q: Pid, r: RideId, t: TripId, order: Order,
                            d: DriverId, e: DriverId, a: string, b: string)
    requires Start(w) && Matching.IsOnline(w.db.drivers, d) && Matching.IsOnline(w.db.drivers, e)
    requires d != e && p != q && p2 != p && p2 != q && a != b && b != ""
    ensures var actions := EarlyRun(p, q, r, t, order, d, a, b) + LateRun(p2, q, r, e, b);
      var z := Exec(w, actions);
      && AcceptAt(z, q, Returned(RideAndTrip(r, t))) && DriverOf(z.db, r) == Some(d)
      && forall n :: 0 <= n <= |actions| ==> !CheckPasses(Trace(w, actions)[n], d, r, b)
  {
    var early, late := EarlyRun(p, q, r, t, order, d, a, b), LateRun(p2, q, r, e, b);
    EarlyRunExpires(w, p, q, r, t, order, d, a, b);
    ExecKeepsNames(w, early);
    ExecAppend(w, early, late);
    LateRunAccepts(Exec(w, early), p2, q, d, e, r, t, b);
    RunsAre(p, p2, q, r, t, order, d, e, a, b);
    forall n | 0 <= n <= |early + late| ensures !CheckPasses(Trace(w, early + late)[n], d, r, b) {
      NeverChecks(w, early, late, n, d, e, r, b);
    }
  }
}
