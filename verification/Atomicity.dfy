/** How the interleaved calls relate to the requests taken one at a time. */
module Atomicity {
  import opened Domain
  import opened Offers
  import opened Operations
  import opened Concurrent
  import Invariants
  import Matching
  import TripFsm

  /** The concurrent world as the one-at-a-time model sees it. */
  function View(w: World, queue: multiset<RideId>): State {
    State(w.db, w.keys, w.assignLocks, queue, w.now)
  }

  /** One call advances without interference, at most `n` times. */
  ghost function Finish(w: World, a: Action, n: nat): World
    requires a.Advance?
    decreases n
  {
    if n == 0 || !CanAdvance(w, a.pid) then w else Finish(Next(w, a), a, n - 1)
  }

  lemma FinishSteps(w: World, a: Action, n: nat, z: World)
    requires a.Advance? && 0 < n && CanAdvance(w, a.pid) && z == Next(w, a)
    ensures Finish(w, a, n) == Finish(z, a, n - 1)
  {
  }

  lemma FinishStops(w: World, a: Action, n: nat)
    requires a.Advance? && (n == 0 || !CanAdvance(w, a.pid))
    ensures Finish(w, a, n) == w
  {
  }

  predicate AcceptAt(w: World, p: Pid, point: AcceptPoint) {
    p in w.calls && w.calls[p].Accepting? && w.calls[p].point == point
  }

  predicate TaskAt(w: World, p: Pid, r: RideId, task: MatchPoint) {
    p in w.calls && w.calls[p] == Tasking(r, task)
  }

  /** Neither row of an accept call is locked. */
  predicate FreeRows(w: World, p: Pid) {
    && p in w.calls && w.calls[p].Accepting?
    && w.calls[p].ride !in w.rideLocks && w.calls[p].driver !in w.driverLocks
  }

  /** `z` is `w` after the guarded transaction of call `p`, its clear and its answer. */
  ghost predicate Transacted(w: World, z: World, p: Pid)
    requires p in w.calls && w.calls[p].Accepting?
  {
    var d, r := w.calls[p].driver, w.calls[p].ride;
    var rows := AcceptRows(w.db, d, r);
    && z.assignLocks == w.assignLocks && z.now == w.now
    && (rows.Failure? ==> z.db == w.db && z.keys == w.keys && AcceptAt(z, p, Returned(Refused(rows.error))))
    && (rows.Success? ==>
          && z.db == rows.value && z.keys == Clear(w.keys, r, d)
          && AcceptAt(z, p, Returned(RideAndTrip(r, TripOf(w.db.trips, r).value))))
  }

  lemma CommitAlone(w: World, a: Action)
    requires a.Advance? && a.pid in w.calls && w.calls[a.pid].Accepting?
    requires AcceptRows(w.db, w.calls[a.pid].driver, w.calls[a.pid].ride).Success?
    requires AcceptAt(w, a.pid, Commit(TripOf(w.db.trips, w.calls[a.pid].ride).value))
    ensures Transacted(w, Finish(w, a, 2), a.pid)
  {
    var w1 := Next(w, a);
    var w2 := Next(w1, a);
    FinishSteps(w, a, 2, w1);
    FinishSteps(w1, a, 1, w2);
  }

  /** The step that decides changes nothing but the call and, on a refusal, its locks. */
  lemma DecisionMoves(w: World, a: Action)
    requires a.Advance? && a.pid in w.calls && w.calls[a.pid].Accepting?
    requires AcceptAt(w, a.pid, ReadTrip(RideRow(w.db, w.calls[a.pid].ride), DriverRow(w.db, w.calls[a.pid].driver)))
    ensures CanAdvance(w, a.pid)
    ensures var c, z := w.calls[a.pid], Next(w, a);
      var rows := AcceptRows(w.db, c.driver, c.ride);
      && z.db == w.db && z.keys == w.keys && z.assignLocks == w.assignLocks && z.now == w.now
      && a.pid in z.calls && z.calls[a.pid].Accepting?
      && z.calls[a.pid].driver == c.driver && z.calls[a.pid].ride == c.ride
      && AcceptAt(z, a.pid, if rows.Failure? then Returned(Refused(rows.error))
                            else Commit(TripOf(w.db.trips, c.ride).value))
  {
  }

  lemma DecisionAlone(w: World, a: Action)
    requires a.Advance? && a.pid in w.calls && w.calls[a.pid].Accepting?
    requires AcceptAt(w, a.pid, ReadTrip(RideRow(w.db, w.calls[a.pid].ride), DriverRow(w.db, w.calls[a.pid].driver)))
    ensures Transacted(w, Finish(w, a, 3), a.pid)
  {
    var w1 := Next(w, a);
    DecisionMoves(w, a);
    FinishSteps(w, a, 3, w1);
    if AcceptRows(w.db, w.calls[a.pid].driver, w.calls[a.pid].ride).Success? {
      CommitAlone(w1, a);
    } else {
      FinishStops(w1, a, 2);
    }
  }

  /** From the first lock on, an undisturbed accept is the guarded transaction and the clear after it. */
  lemma TransactionAlone(w: World, a: Action)
    requires a.Advance? && AcceptAt(w, a.pid, LockRide) && FreeRows(w, a.pid)
    ensures Transacted(w, Finish(w, a, 5), a.pid)
  {
    var w1 := Next(w, a);
    assert AcceptAt(w1, a.pid, LockDriver(RideRow(w.db, w.calls[a.pid].ride)));
    var w2 := Next(w1, a);
    FinishSteps(w, a, 5, w1);
    FinishSteps(w1, a, 4, w2);
    DecisionAlone(w2, a);
  }

  /** The second read decides between the transaction and a refusal. */
  lemma OfferAlone(w: World, a: Action, named: RideId)
    requires a.Advance? && AcceptAt(w, a.pid, ReadRideKey(named)) && FreeRows(w, a.pid)
    ensures var c, offer, z := w.calls[a.pid], ForRide(w.keys, named, w.now), Finish(w, a, 6);
      if offer.None? || offer.value.ride != c.ride || offer.value.token != c.token
      then z == w.(calls := z.calls) && AcceptAt(z, a.pid, Returned(Refused(InvalidOffer)))
      else Transacted(w, z, a.pid)
  {
    var w1 := Next(w, a);
    FinishSteps(w, a, 6, w1);
    if AcceptAt(w1, a.pid, LockRide) {
      TransactionAlone(w1, a);
    } else {
      FinishStops(w1, a, 5);
    }
  }

  lemma TransactedIsAccept(w: World, z: World, p: Pid, queue: multiset<RideId>)
    requires p in w.calls && w.calls[p].Accepting? && Transacted(w, z, p)
    requires var c := w.calls[p];
      ForDriver(w.keys, c.driver, w.now).Some? && ForDriver(w.keys, c.driver, w.now).value.ride == c.ride
      && ForDriver(w.keys, c.driver, w.now).value.token == c.token
    ensures var c := w.calls[p];
      var atomic := AcceptOffer(View(w, queue), c.driver, c.ride, c.token);
      View(z, queue) == atomic.state && AcceptAt(z, p, Returned(atomic.reply))
  {
  }

  /** An accept call that nobody interrupts is the atomic accept, in its effect and in its answer. */
  lemma AcceptAlone(w: World, a: Action, queue: multiset<RideId>)
    requires a.Advance? && AcceptAt(w, a.pid, ReadDriverKey) && FreeRows(w, a.pid)
    ensures var c, z := w.calls[a.pid], Finish(w, a, 7);
      var atomic := AcceptOffer(View(w, queue), c.driver, c.ride, c.token);
      View(z, queue) == atomic.state && AcceptAt(z, a.pid, Returned(atomic.reply))
  {
    var c, w1, z := w.calls[a.pid], Next(w, a), Finish(w, a, 7);
    FinishSteps(w, a, 7, w1);
    if !DriverKeyLive(w.keys, c.driver, w.now) {
      FinishStops(w1, a, 6);
    } else {
      OfferAlone(w1, a, w.keys.byDriver[c.driver].ride);
      if Transacted(w1, z, a.pid) {
        assert Transacted(w, z, a.pid);
        var offer := ForDriver(w.keys, c.driver, w.now);
        if offer.Some? && offer.value.ride == c.ride && offer.value.token == c.token {
          TransactedIsAccept(w, z, a.pid, queue);
        }
      }
    }
  }

  lemma StoreAlone(w: World, a: Action, r: RideId, chosen: DriverId)
    requires a.Advance? && TaskAt(w, a.pid, r, StoreOffer(chosen))
    ensures var z := Finish(w, a, 3);
      && z.db == w.db && z.now == w.now && TaskAt(z, a.pid, r, Ended)
      && z.keys == Put(w.keys, Payload(r, chosen, a.token), a.ttl, w.now)
      && z.assignLocks == w.assignLocks - {r}
  {
    var w1 := Next(w, a);
    var w2 := Next(w1, a);
    var w3 := Next(w2, a);
    FinishSteps(w, a, 3, w1);
    FinishSteps(w1, a, 2, w2);
    FinishSteps(w2, a, 1, w3);
  }

  lemma LockAlone(w: World, a: Action, r: RideId, chosen: DriverId, queue: multiset<RideId>)
    requires a.Advance? && TaskAt(w, a.pid, r, TakeAssignLock(chosen))
    ensures var s, z := View(w, queue), Finish(w, a, 4);
      && TaskAt(z, a.pid, r, Ended)
      && View(z, queue) ==
         if LockLive(s, r) then s
         else s.(keys := Put(s.keys, Payload(r, chosen, a.token), a.ttl, s.now), locks := s.locks - {r})
  {
    var w1 := Next(w, a);
    FinishSteps(w, a, 4, w1);
    if TaskAt(w1, a.pid, r, StoreOffer(chosen)) {
      StoreAlone(w1, a, r, chosen);
      assert w1.assignLocks - {r} == w.assignLocks - {r};
    } else {
      FinishStops(w1, a, 3);
    }
  }

  lemma ScanAlone(w: World, a: Action, r: RideId, queue: multiset<RideId>)
    requires a.Advance? && Unmatched(w.db, r) && TaskAt(w, a.pid, r, Scan(w.db.rides[r]))
    ensures View(Finish(w, a, 5), queue) == MatchRide(View(w, queue), r, a.raw, a.token, a.ttl)
    ensures TaskAt(Finish(w, a, 5), a.pid, r, Ended)
  {
    var w1 := Next(w, a);
    FinishSteps(w, a, 5, w1);
    var chosen := Matching.Choose(Matching.Parse(a.raw), w.db.drivers, w.db.rides[r].tier);
    if chosen.Some? {
      LockAlone(w1, a, r, chosen.value, queue);
    } else {
      FinishStops(w1, a, 4);
    }
  }

  /** A matching task that nobody interrupts is the atomic task body. */
  lemma TaskAlone(w: World, a: Action, r: RideId, queue: multiset<RideId>)
    requires a.Advance? && TaskAt(w, a.pid, r, LockRow) && r !in w.rideLocks
    ensures View(Finish(w, a, 7), queue) == MatchRide(View(w, queue), r, a.raw, a.token, a.ttl)
    ensures TaskAt(Finish(w, a, 7), a.pid, r, Ended)
  {
    var w1 := Next(w, a);
    FinishSteps(w, a, 7, w1);
    if r !in w.db.rides {
      FinishStops(w1, a, 6);
    } else {
      var w2 := Next(w1, a);
      FinishSteps(w1, a, 6, w2);
      if Unmatched(w.db, r) {
        ScanAlone(w2, a, r, queue);
      } else {
        FinishStops(w2, a, 5);
      }
    }
  }

  // The other requests

  /** A request of the kind that appears as one background commit. */
  predicate IsCommit(e: Event) {
    e.Create? || e.Cancel? || e.Availability? || e.Start? || e.Pause? || e.Resume? || e.End?
  }

  /** What a successful request commits. */
  ghost function WriteOf(s: State, e: Event): Write
    requires IsCommit(e) && !Perform(s, e).reply.Refused?
  {
    var trips := Step(s, e).db.trips;
    if e.Create? then Insert(e.rid, e.tid, e.order, e.key)
    else if e.Cancel? then CancelWrite(e.ride, TripOf(s.db.trips, e.ride))
    else if e.Availability? then AvailabilityWrite(e.driver, e.status)
    else if e.End? then EndWrite(e.trip, trips[e.trip], true, true)
    else ProgressWrite(e.trip, trips[e.trip], !e.Pause?)
  }

  lemma NewRideIsCommit(s: State, e: Event)
    requires e.Create? && !Perform(s, e).reply.Refused? && Step(s, e) != s
    ensures Possible(s.db, WriteOf(s, e)) && Apply(s.db, WriteOf(s, e)) == Step(s, e).db
  {
  }

  lemma CancelIsCommit(s: State, e: Event)
    requires Invariants.RowsOk(s.db.rides, s.db.trips, s.db.drivers.Keys)
    requires e.Cancel? && !Perform(s, e).reply.Refused?
    ensures Possible(s.db, WriteOf(s, e)) && Apply(s.db, WriteOf(s, e)) == Step(s, e).db
  {
    Invariants.CancelRowsKeepsRows(s.db, e.ride);
  }

  lemma ProgressIsCommit(s: State, e: Event)
    requires (e.Start? || e.Pause? || e.Resume?) && !Perform(s, e).reply.Refused?
    ensures Possible(s.db, WriteOf(s, e)) && Apply(s.db, WriteOf(s, e)) == Step(s, e).db
  {
  }

  lemma EndIsCommit(s: State, e: Event)
    requires e.End? && !Perform(s, e).reply.Refused?
    ensures Possible(s.db, WriteOf(s, e)) && Apply(s.db, WriteOf(s, e)) == Step(s, e).db
  {
  }

  /** A reachable state between calls: its background commit may run, and does to the tables what the request does. */
  lemma RequestIsCommit(s: State, events: seq<Event>, e: Event, w: World)
    requires Init(s) && IsCommit(e) && !Perform(Run(s, events), e).reply.Refused?
    requires e.Create? ==> Step(Run(s, events), e) != Run(s, events)
    requires w.db == Run(s, events).db && w.rideLocks == map[] && w.driverLocks == map[]
    ensures var y := Run(s, events);
      && Enabled(w, Background(WriteOf(y, e)))
      && Next(w, Background(WriteOf(y, e))) == w.(db := Step(y, e).db)
  {
    var y := Run(s, events);
    if e.Create? {
      NewRideIsCommit(y, e);
    } else if e.Cancel? {
      Invariants.RunIsGood(s, events);
      CancelIsCommit(y, e);
    } else if e.End? {
      EndIsCommit(y, e);
    } else if !e.Availability? {
      ProgressIsCommit(y, e);
    }
  }

  /** A crash ends an unfinished call at any point: its row locks go, and nothing else changes. */
  lemma CrashReleases(w: World, p: Pid)
    requires p in w.calls && !Finished(w.calls[p])
    ensures var z := Next(w, Crash(p));
      && z == w.(rideLocks := z.rideLocks, driverLocks := z.driverLocks, calls := w.calls[p := Crashed])
      && (forall r :: r in z.rideLocks <==> r in w.rideLocks && w.rideLocks[r] != p)
      && (forall r :: r in z.rideLocks ==> z.rideLocks[r] == w.rideLocks[r])
      && (forall d :: d in z.driverLocks <==> d in w.driverLocks && w.driverLocks[d] != p)
      && (forall d :: d in z.driverLocks ==> z.driverLocks[d] == w.driverLocks[d])
  {
  }

  /** Time and the clears of other requests never wait, and touch only the clock and the two keys. */
  lemma OthersNeverWait(w: World, elapsed: nat, r: RideId, d: DriverId)
    ensures Next(w, Action.Tick(elapsed)) == w.(now := w.now + elapsed)
    ensures var z := Next(w, ClearOffer(r, d));
      && z == w.(keys := z.keys) && r !in z.keys.byRide && d !in z.keys.byDriver
      && (forall q :: q != r ==> ForRide(z.keys, q, z.now) == ForRide(w.keys, q, w.now))
      && (forall c :: c != d && c in w.keys.byDriver ==>
            c in z.keys.byDriver && z.keys.byDriver[c] == w.keys.byDriver[c])
  {
  }

  /** The assign lock keeps other tasks out for fifteen seconds, unless it is dropped before. */
  lemma AssignLockLastsFifteenSeconds(w: World, a: Action, r: RideId, d: DriverId, z: World, b: Action, e: DriverId)
    requires a.Advance? && TaskAt(w, a.pid, r, TakeAssignLock(d)) && TaskAt(Next(w, a), a.pid, r, StoreOffer(d))
    requires w.now <= z.now && r in z.assignLocks && z.assignLocks[r] == Next(w, a).assignLocks[r]
    requires b.Advance? && TaskAt(z, b.pid, r, TakeAssignLock(e))
    ensures TaskAt(Next(z, b), b.pid, r, StoreOffer(e)) <==> w.now + 15 <= z.now
  {
  }
}
