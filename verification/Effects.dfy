/** What each request answers in a reachable state, and which field of which row it changes; everything else stays. */
module Effects {
  import opened Domain
  import opened Offers
  import opened Operations
  import opened Invariants
  import Lifecycle
  import Matching
  import Pricing
  import TripFsm

  /** The maps agree at every key but `k`. */
  ghost predicate Elsewhere<K(!new), V>(a: map<K, V>, b: map<K, V>, k: K) {
    forall q :: q != k ==> (q in a <==> q in b) && (q in a ==> b[q] == a[q])
  }

  /** Only tables change. */
  ghost predicate OnlyRows(y: State, z: State) {
    z.keys == y.keys && z.queue == y.queue && z.locks == y.locks && z.now == y.now
  }

  /** The keys of one offer are gone. */
  ghost predicate Cleared(a: Keys, b: Keys, r: RideId, d: DriverId) {
    && r !in b.byRide && d !in b.byDriver
    && Elsewhere(a.byRide, b.byRide, r) && Elsewhere(a.byDriver, b.byDriver, d)
  }

  // Accepting

  /** Only known drivers are offered rides, and no driver row is ever deleted. */
  ghost predicate OfferedDriversExist(s: State) {
    forall d :: d in s.keys.byDriver ==> d in s.db.drivers
  }

  lemma TaskOffersKnownDriver(s: State, r: RideId, raw: seq<Matching.Member>, token: string, ttl: Ttl)
    requires OfferedDriversExist(s)
    ensures OfferedDriversExist(RunTask(s, r, raw, token, ttl))
  {
    if r in s.queue && Unmatched(s.db, r) {
      Matching.ChoiceIsStableArgmin(Matching.Parse(raw), s.db.drivers, s.db.rides[r].tier);
    }
  }

  lemma StepOffersKnownDriver(s: State, e: Event)
    requires OfferedDriversExist(s) && Lifecycle.DriversContinue(s.db.drivers, Step(s, e).db.drivers)
    ensures OfferedDriversExist(Step(s, e))
  {
    if e.Match? {
      TaskOffersKnownDriver(s, e.ride, e.raw, e.token, e.ttl);
    } else {
      OnlyTasksAddKeys(s, e);
    }
  }

  lemma StepKeepsDrivers(s: State, e: Event)
    requires Good(s)
    ensures Lifecycle.DriversContinue(s.db.drivers, Step(s, e).db.drivers)
  {
    Lifecycle.StepContinues(s, e);
  }

  lemma OnlyTasksAddKeys(s: State, e: Event)
    requires !e.Match?
    ensures forall d :: d in Step(s, e).keys.byDriver ==> d in s.keys.byDriver
  {
  }

  lemma {:induction false} RunOffersKnownDrivers(s: State, events: seq<Event>)
    requires Init(s)
    ensures OfferedDriversExist(Run(s, events))
  {
    if events == [] {
    } else {
      RunOffersKnownDrivers(s, events[..|events| - 1]);
      RunIsGood(s, events[..|events| - 1]);
      StepKeepsDrivers(Run(s, events[..|events| - 1]), events[|events| - 1]);
      StepOffersKnownDriver(Run(s, events[..|events| - 1]), events[|events| - 1]);
    }
  }

  /** The ride gets its driver, ride and trip are assigned, and the driver is busy. */
  ghost predicate RowsAssigned(y: Tables, z: Tables, d: DriverId, r: RideId, t: TripId) {
    && r in y.rides && t in y.trips && d in y.drivers && r in z.rides && t in z.trips && d in z.drivers
    && y.trips[t].ride == r
    && z.rides[r] == y.rides[r].(driver := Some(d), status := RideStatus.DriverAssigned)
    && z.trips[t] == y.trips[t].(status := TripStatus.DriverAssigned)
    && z.drivers[d] == y.drivers[d].(status := Busy)
    && Elsewhere(y.rides, z.rides, r) && Elsewhere(y.trips, z.trips, t) && Elsewhere(y.drivers, z.drivers, d)
    && z.payments == y.payments
  }

  /** The rows are assigned and the offer is gone. */
  ghost predicate Accepted(y: State, z: State, d: DriverId, r: RideId, t: TripId) {
    && RowsAssigned(y.db, z.db, d, r, t)
    && Cleared(y.keys, z.keys, r, d)
    && z.queue == y.queue && z.locks == y.locks && z.now == y.now
  }

  /** The transaction of an accept on any rows, those that only interleaved calls can meet included. */
  lemma TransactionDoes(db: Tables, d: DriverId, r: RideId)
    ensures var rows := AcceptRows(db, d, r);
      if r !in db.rides || d !in db.drivers || forall t :: t in db.trips ==> db.trips[t].ride != r
      then rows == Failure(NotFound)
      else if db.rides[r].driver != None then rows == Failure(AlreadyAssigned)
      else if db.drivers[d].status != Online then rows == Failure(DriverNotOnline)
      else rows.Success? && exists t :: RowsAssigned(db, rows.value, d, r, t)
  {
    if AcceptRows(db, d, r).Success? {
      assert RowsAssigned(db, AcceptRows(db, d, r).value, d, r, TripOf(db.trips, r).value);
    }
  }

  /** The driver's key is live and leads to an offer of the ride. */
  predicate Pending(s: State, d: DriverId, r: RideId) {
    d in s.keys.byDriver && s.now < s.keys.byDriver[d].expires && s.keys.byDriver[d].ride == r
  }

  predicate Presents(s: State, r: RideId, token: string) {
    r in s.keys.byRide && s.keys.byRide[r].payload.token == token
  }

  lemma PendingIsLookup(s: State, d: DriverId, r: RideId, token: string)
    requires Good(s)
    ensures var offer := ForDriver(s.keys, d, s.now);
      && (Pending(s, d, r) <==> offer.Some? && offer.value.ride == r)
      && (Pending(s, d, r) ==> RideKeyLive(s.keys, r, s.now) && offer.value.driver == d
                               && (Presents(s, r, token) <==> offer.value.token == token))
  {
    if DriverKeyLive(s.keys, d, s.now) {
      OfferLookupIsOwn(s.db.rides, s.keys, s.queue, s.now, d);
    }
  }

  lemma AssignIsAccepted(s: State, d: DriverId, r: RideId, t: TripId)
    requires r in s.db.rides && d in s.db.drivers && t in s.db.trips && s.db.trips[t].ride == r
    ensures Accepted(s, s.(db := AssignRows(s.db, d, r, t), keys := Clear(s.keys, r, d)), d, r, t)
  {
  }

  /** The three answers of an accept and its whole effect; a missing row or an assigned ride is never met. */
  lemma AcceptDoes(s: State, events: seq<Event>, d: DriverId, r: RideId, token: string)
    requires Init(s)
    ensures var y := Run(s, events);
      var answer := Perform(y, Accept(d, r, token));
      if !Pending(y, d, r) || !Presents(y, r, token) then answer == Outcome(y, Refused(InvalidOffer))
      else
        && d in y.db.drivers
        && if y.db.drivers[d].status != Online then answer == Outcome(y, Refused(DriverNotOnline))
           else exists t :: answer.reply == RideAndTrip(r, t) && Accepted(y, answer.state, d, r, t)
  {
    var y := Run(s, events);
    RunIsGood(s, events);
    RunOffersKnownDrivers(s, events);
    PendingIsLookup(y, d, r, token);
    if Pending(y, d, r) && Presents(y, r, token) && y.db.drivers[d].status == Online {
      OnlineAcceptSucceeds(y, d, r, token);
    } else if Pending(y, d, r) {
      OfferLookupIsOwn(y.db.rides, y.keys, y.queue, y.now, d);
      WaitingRideHasWaitingTrip(y.db, r);
    }
  }

  lemma OnlineAcceptSucceeds(s: State, d: DriverId, r: RideId, token: string)
    requires Good(s) && Pending(s, d, r) && Presents(s, r, token)
    requires d in s.db.drivers && s.db.drivers[d].status == Online
    ensures var answer := AcceptOffer(s, d, r, token);
      exists t :: answer.reply == RideAndTrip(r, t) && Accepted(s, answer.state, d, r, t)
  {
    PendingIsLookup(s, d, r, token);
    OfferLookupIsOwn(s.db.rides, s.keys, s.queue, s.now, d);
    WaitingRideHasWaitingTrip(s.db, r);
    AcceptedPair(s, d, r, token);
    var t := TripOf(s.db.trips, r).value;
    AssignIsAccepted(s, d, r, t);
    assert AcceptOffer(s, d, r, token).reply == RideAndTrip(r, t);
  }

  // Rejecting

  /** The offer turns back into the ride's only task. */
  ghost predicate Requeued(y: State, z: State, d: DriverId, r: RideId) {
    && Cleared(y.keys, z.keys, r, d)
    && y.queue[r] == 0 && z.queue[r] == 1
    && (forall q :: q != r ==> z.queue[q] == y.queue[q])
    && z.db == y.db && z.locks == y.locks && z.now == y.now
  }

  lemma RejectRequeues(s: State, d: DriverId, r: RideId)
    requires ForDriver(s.keys, d, s.now).Some? && ForDriver(s.keys, d, s.now).value.ride == r && s.queue[r] == 0
    ensures RejectOffer(s, d, r).reply == Done && Requeued(s, RejectOffer(s, d, r).state, d, r)
  {
  }

  lemma PendingRideIsNotQueued(s: State, d: DriverId, r: RideId)
    requires Good(s) && Pending(s, d, r)
    ensures RideKeyLive(s.keys, r, s.now) && s.queue[r] == 0
  {
    PendingIsLookup(s, d, r, "");
    assert s.queue[r] + LiveCount(s.keys, r, s.now) <= 1;
  }

  lemma ReachablePending(s: State, events: seq<Event>, d: DriverId, r: RideId)
    requires Init(s)
    ensures var y := Run(s, events);
      var offer := ForDriver(y.keys, d, y.now);
      && (Pending(y, d, r) <==> offer.Some? && offer.value.ride == r)
      && (Pending(y, d, r) ==> RideKeyLive(y.keys, r, y.now) && y.queue[r] == 0)
  {
    var y := Run(s, events);
    RunIsGood(s, events);
    PendingIsLookup(y, d, r, "");
    if Pending(y, d, r) {
      PendingRideIsNotQueued(y, d, r);
    }
  }

  /** A reject of a pending offer hands its place back to a task: tasks and live offers are one before and after. */
  lemma RejectDoes(s: State, events: seq<Event>, d: DriverId, r: RideId)
    requires Init(s)
    ensures var y := Run(s, events);
      var answer := Perform(y, Reject(d, r));
      if !Pending(y, d, r) then answer == Outcome(y, Refused(NoPendingOffer))
      else
        && answer.reply == Done && Requeued(y, answer.state, d, r)
        && y.queue[r] + LiveCount(y.keys, r, y.now) == 1
        && answer.state.queue[r] + LiveCount(answer.state.keys, r, answer.state.now) == 1
  {
    var y := Run(s, events);
    ReachablePending(s, events, d, r);
    if Pending(y, d, r) {
      RejectRequeues(y, d, r);
    }
  }

  // Cancelling

  /** The rows a cancel writes, whatever they are: a trip that is over stays as it is. */
  lemma CancelRowsDoes(db: Tables, r: RideId, t: TripId)
    requires r in db.rides && t in db.trips
    ensures var z, over := CancelRows(db, r, Some(t)), Finished(db.trips[t].status);
      && r in z.rides && z.rides[r] == db.rides[r].(status := RideStatus.Cancelled)
      && t in z.trips && z.trips[t] == (if over then db.trips[t] else db.trips[t].(status := TripStatus.Cancelled))
      && Elsewhere(db.rides, z.rides, r) && Elsewhere(db.trips, z.trips, t)
      && z.drivers == db.drivers && z.payments == db.payments
    ensures CancelRows(db, r, None).trips == db.trips
  {
  }

  predicate Finished(status: TripStatus) {
    status == TripStatus.Completed || status == TripStatus.Cancelled
  }

  /** Ride and trip are cancelled, and the offer, if one is live, is gone. */
  ghost predicate WasCancelled(y: State, z: State, r: RideId, t: TripId) {
    && r in y.db.rides && r in z.db.rides && t in y.db.trips && t in z.db.trips && y.db.trips[t].ride == r
    && z.db.rides[r] == y.db.rides[r].(status := RideStatus.Cancelled)
    && z.db.trips[t] == y.db.trips[t].(status := TripStatus.Cancelled)
    && Elsewhere(y.db.rides, z.db.rides, r) && Elsewhere(y.db.trips, z.db.trips, t)
    && z.db.drivers == y.db.drivers && z.db.payments == y.db.payments
    && !RideKeyLive(z.keys, r, z.now)
    && (if RideKeyLive(y.keys, r, y.now) then Cleared(y.keys, z.keys, r, y.keys.byRide[r].payload.driver)
        else z.keys == y.keys)
    && z.queue == y.queue && z.locks == y.locks && z.now == y.now
  }

  lemma CancelWrites(s: State, rider: RiderId, r: RideId, t: TripId)
    requires r in s.db.rides && s.db.rides[r].rider == rider
    requires s.db.rides[r].status != RideStatus.Completed && s.db.rides[r].status != RideStatus.Cancelled
    requires TripOf(s.db.trips, r) == Some(t) && !TripFsm.Terminal(s.db.trips[t].status)
    ensures CancelRide(s, rider, r).reply == Done && WasCancelled(s, CancelRide(s, rider, r).state, r, t)
  {
  }

  lemma CancelRefuses(s: State, rider: RiderId, r: RideId)
    requires !RideKeyLive(s.keys, r, s.now)
    ensures r in s.db.rides && s.db.rides[r].rider == rider
            && (s.db.rides[r].status == RideStatus.Completed || s.db.rides[r].status == RideStatus.Cancelled)
            ==> CancelRide(s, rider, r) == Outcome(s, Refused(NotCancellable))
  {
  }

  lemma OwnCancelCancels(s: State, rider: RiderId, r: RideId)
    requires Good(s) && r in s.db.rides && s.db.rides[r].rider == rider
    requires s.db.rides[r].status != RideStatus.Completed && s.db.rides[r].status != RideStatus.Cancelled
    ensures var answer := CancelRide(s, rider, r);
      && answer.reply == Done && TripOf(s.db.trips, r).Some?
      && WasCancelled(s, answer.state, r, TripOf(s.db.trips, r).value)
  {
    var t := TripOf(s.db.trips, r).value;
    CancelRowsKeepsRows(s.db, r);
    CancelWrites(s, rider, r, t);
  }

  lemma FinishedRideHasNoOffer(s: State, r: RideId)
    requires Good(s) && r in s.db.rides
    requires s.db.rides[r].status == RideStatus.Completed || s.db.rides[r].status == RideStatus.Cancelled
    ensures !RideKeyLive(s.keys, r, s.now)
  {
  }

  ghost predicate CancelAnswered(y: State, answer: Outcome, rider: RiderId, r: RideId) {
    if r !in y.db.rides || y.db.rides[r].rider != rider then answer == Outcome(y, Refused(NotFound))
    else if y.db.rides[r].status == RideStatus.Completed || y.db.rides[r].status == RideStatus.Cancelled
    then answer == Outcome(y, Refused(NotCancellable))
    else answer.reply == Done && exists t :: WasCancelled(y, answer.state, r, t)
  }

  lemma CancelOfOthers(s: State, rider: RiderId, r: RideId)
    requires r !in s.db.rides || s.db.rides[r].rider != rider
    ensures CancelRide(s, rider, r) == Outcome(s, Refused(NotFound))
  {
  }

  lemma GoodCancelAnswered(s: State, rider: RiderId, r: RideId)
    requires Good(s)
    ensures CancelAnswered(s, CancelRide(s, rider, r), rider, r)
  {
    if r !in s.db.rides || s.db.rides[r].rider != rider {
      CancelOfOthers(s, rider, r);
    } else if s.db.rides[r].status == RideStatus.Completed || s.db.rides[r].status == RideStatus.Cancelled {
      FinishedRideHasNoOffer(s, r);
      CancelRefuses(s, rider, r);
    } else {
      OwnCancelCancels(s, rider, r);
    }
  }

  /** Only the rider of an unfinished ride cancels it; every other cancel is refused and changes nothing. */
  lemma CancelDoes(s: State, events: seq<Event>, rider: RiderId, r: RideId)
    requires Init(s)
    ensures CancelAnswered(Run(s, events), Perform(Run(s, events), Cancel(rider, r)), rider, r)
  {
    RunIsGood(s, events);
    GoodCancelAnswered(Run(s, events), rider, r);
  }

  // Driving

  /** The trip's row becomes `trip` and its ride's row becomes `ride`. */
  ghost predicate PairMoved(y: State, z: State, t: TripId, trip: Trip, ride: Ride) {
    && t in y.db.trips && y.db.trips[t].ride in y.db.rides
    && z.db.payments == y.db.payments && OnlyRows(y, z)
    && var r := y.db.trips[t].ride;
       && t in z.db.trips && z.db.trips[t] == trip && r in z.db.rides && z.db.rides[r] == ride
       && Elsewhere(y.db.rides, z.db.rides, r) && Elsewhere(y.db.trips, z.db.trips, t)
  }

  /** The refusal of a trip request, if it is refused. */
  function Refusal(db: Tables, t: TripId, next: TripStatus, from: set<TripStatus>): Option<Error> {
    if t !in db.trips then Some(NotFound)
    else if db.trips[t].status !in from then Some(IllegalTransition(db.trips[t].status, next))
    else None
  }

  lemma RefusalOfPair(db: Tables, t: TripId)
    requires t in db.trips && db.trips[t].ride in db.rides
    requires PairOk(db.rides[db.trips[t].ride], db.trips[t], db.drivers.Keys)
    ensures TripGuard(db, t, TripStatus.InProgress)
            == Refusal(db, t, TripStatus.InProgress, {TripStatus.DriverAssigned, TripStatus.Paused})
    ensures TripGuard(db, t, TripStatus.Paused) == Refusal(db, t, TripStatus.Paused, {TripStatus.InProgress})
    ensures TripGuard(db, t, TripStatus.Completed) == Refusal(db, t, TripStatus.Completed, {TripStatus.InProgress})
  {
  }

  lemma RefusalIsGuard(s: State, t: TripId)
    requires Good(s)
    ensures TripGuard(s.db, t, TripStatus.InProgress)
            == Refusal(s.db, t, TripStatus.InProgress, {TripStatus.DriverAssigned, TripStatus.Paused})
    ensures TripGuard(s.db, t, TripStatus.Paused) == Refusal(s.db, t, TripStatus.Paused, {TripStatus.InProgress})
    ensures TripGuard(s.db, t, TripStatus.Completed) == Refusal(s.db, t, TripStatus.Completed, {TripStatus.InProgress})
  {
    if t in s.db.trips {
      RefusalOfPair(s.db, t);
    }
  }

  lemma ReachableRefusals(s: State, events: seq<Event>, t: TripId)
    requires Init(s)
    ensures var db := Run(s, events).db;
      && (t in db.trips ==> db.trips[t].ride in db.rides)
      && TripGuard(db, t, TripStatus.InProgress)
         == Refusal(db, t, TripStatus.InProgress, {TripStatus.DriverAssigned, TripStatus.Paused})
      && TripGuard(db, t, TripStatus.Paused) == Refusal(db, t, TripStatus.Paused, {TripStatus.InProgress})
      && TripGuard(db, t, TripStatus.Completed) == Refusal(db, t, TripStatus.Completed, {TripStatus.InProgress})
  {
    RunIsGood(s, events);
    RefusalIsGuard(Run(s, events), t);
  }

  lemma StartWrites(s: State, t: TripId)
    ensures var answer, guard := StartTrip(s, t), TripGuard(s.db, t, TripStatus.InProgress);
      if guard.Some? then answer == Outcome(s, Refused(guard.value))
      else
        && answer.reply == TripReply(t) && answer.state.db.drivers == s.db.drivers
        && PairMoved(s, answer.state, t, s.db.trips[t].(status := TripStatus.InProgress, startedAt := Some(s.now)),
                     s.db.rides[s.db.trips[t].ride].(status := RideStatus.InProgress))
  {
  }

  /** Starting: both statuses and the start time. */
  lemma StartDoes(s: State, events: seq<Event>, t: TripId)
    requires Init(s)
    ensures var y := Run(s, events);
      var answer := Perform(y, Start(t));
      var refusal := Refusal(y.db, t, TripStatus.InProgress, {TripStatus.DriverAssigned, TripStatus.Paused});
      if refusal.Some? then answer == Outcome(y, Refused(refusal.value))
      else
        && answer.reply == TripReply(t) && y.db.trips[t].ride in y.db.rides && answer.state.db.drivers == y.db.drivers
        && PairMoved(y, answer.state, t, y.db.trips[t].(status := TripStatus.InProgress, startedAt := Some(y.now)),
                     y.db.rides[y.db.trips[t].ride].(status := RideStatus.InProgress))
  {
    ReachableRefusals(s, events, t);
    StartWrites(Run(s, events), t);
  }

  lemma PauseWrites(s: State, t: TripId)
    ensures var answer, guard := PauseTrip(s, t), TripGuard(s.db, t, TripStatus.Paused);
      if guard.Some? then answer == Outcome(s, Refused(guard.value))
      else
        && answer.reply == TripReply(t) && answer.state.db.drivers == s.db.drivers
        && PairMoved(s, answer.state, t, s.db.trips[t].(status := TripStatus.Paused, pausedAt := Some(s.now)),
                     s.db.rides[s.db.trips[t].ride])
  {
  }

  /** Pausing: the trip alone. */
  lemma PauseDoes(s: State, events: seq<Event>, t: TripId)
    requires Init(s)
    ensures var y := Run(s, events);
      var answer := Perform(y, Pause(t));
      var refusal := Refusal(y.db, t, TripStatus.Paused, {TripStatus.InProgress});
      if refusal.Some? then answer == Outcome(y, Refused(refusal.value))
      else
        && answer.reply == TripReply(t) && y.db.trips[t].ride in y.db.rides && answer.state.db.drivers == y.db.drivers
        && PairMoved(y, answer.state, t, y.db.trips[t].(status := TripStatus.Paused, pausedAt := Some(y.now)),
                     y.db.rides[y.db.trips[t].ride])
  {
    ReachableRefusals(s, events, t);
    PauseWrites(Run(s, events), t);
  }

  lemma ResumeWrites(s: State, t: TripId)
    ensures var answer, guard := ResumeTrip(s, t), TripGuard(s.db, t, TripStatus.InProgress);
      if guard.Some? then answer == Outcome(s, Refused(guard.value))
      else
        && answer.reply == TripReply(t) && answer.state.db.drivers == s.db.drivers
        && PairMoved(s, answer.state, t, s.db.trips[t].(status := TripStatus.InProgress, pausedAt := None),
                     s.db.rides[s.db.trips[t].ride].(status := RideStatus.InProgress))
  {
  }

  /** Resuming: both statuses, and no pause time. */
  lemma ResumeDoes(s: State, events: seq<Event>, t: TripId)
    requires Init(s)
    ensures var y := Run(s, events);
      var answer := Perform(y, Resume(t));
      var refusal := Refusal(y.db, t, TripStatus.InProgress, {TripStatus.DriverAssigned, TripStatus.Paused});
      if refusal.Some? then answer == Outcome(y, Refused(refusal.value))
      else
        && answer.reply == TripReply(t) && y.db.trips[t].ride in y.db.rides && answer.state.db.drivers == y.db.drivers
        && PairMoved(y, answer.state, t, y.db.trips[t].(status := TripStatus.InProgress, pausedAt := None),
                     y.db.rides[y.db.trips[t].ride].(status := RideStatus.InProgress))
  {
    ReachableRefusals(s, events, t);
    ResumeWrites(Run(s, events), t);
  }

  /** The ride's driver is online again, and no other driver's row changes. */
  ghost predicate Freed(y: Tables, z: Tables, ride: Ride) {
    && ride.driver.Some?
    && var d := ride.driver.value;
       && d in y.drivers && d in z.drivers && z.drivers[d] == y.drivers[d].(status := Online)
       && Elsewhere(y.drivers, z.drivers, d)
  }

  /** Ending a trip: both statuses, the end time, the nearest cent to the exact price, and the driver. */
  ghost predicate Ended(y: State, z: State, t: TripId, fare: real, multiplier: real) {
    && t in y.db.trips && y.db.trips[t].ride in y.db.rides
    && var trip := y.db.trips[t];
       var ride := y.db.rides[trip.ride];
       && PairMoved(y, z, t, trip.(fare := Some(fare), status := TripStatus.Completed, endedAt := Some(y.now)),
                    ride.(status := RideStatus.Completed))
       && Pricing.ChargesNearestCent(fare, ride.distance, multiplier)
       && Freed(y.db, z.db, ride)
  }

  lemma EndedPair(s: State, t: TripId, quoted: Option<real>)
    requires TripGuard(s.db, t, TripStatus.Completed).None?
    requires var ride := s.db.rides[s.db.trips[t].ride]; ride.driver.Some? && ride.driver.value in s.db.drivers
    ensures var ride, z := s.db.rides[s.db.trips[t].ride], EndTrip(s, t, quoted).state;
      var fare := FareOf(ride, quoted);
      && PairMoved(s, z, t, s.db.trips[t].(fare := Some(fare), status := TripStatus.Completed, endedAt := Some(s.now)),
                   ride.(status := RideStatus.Completed))
      && Freed(s.db, z.db, ride)
  {
  }

  lemma EndRefuses(s: State, t: TripId, quoted: Option<real>)
    ensures var guard := TripGuard(s.db, t, TripStatus.Completed);
      guard.Some? ==> EndTrip(s, t, quoted) == Outcome(s, Refused(guard.value))
  {
  }

  lemma ReachableTripIsDriven(s: State, events: seq<Event>, t: TripId)
    requires Init(s) && TripGuard(Run(s, events).db, t, TripStatus.Completed).None?
    ensures var db := Run(s, events).db;
      var ride := db.rides[db.trips[t].ride];
      ride.driver.Some? && ride.driver.value in db.drivers
  {
    RunIsGood(s, events);
    LegalRequestIsDriven(Run(s, events).db, t, TripStatus.Completed);
  }

  lemma EndDoes(s: State, events: seq<Event>, t: TripId, quoted: Option<real>, multiplier: real)
    requires Init(s)
    requires var y := Run(s, events).db;
      t in y.trips && y.trips[t].ride in y.rides ==> Lifecycle.Charged(y.rides[y.trips[t].ride], quoted, multiplier)
    ensures var y := Run(s, events);
      var answer := Perform(y, End(t, quoted));
      var refusal := Refusal(y.db, t, TripStatus.Completed, {TripStatus.InProgress});
      if refusal.Some? then answer == Outcome(y, Refused(refusal.value))
      else answer.reply == TripReply(t) && exists fare :: Ended(y, answer.state, t, fare, multiplier)
  {
    var y := Run(s, events);
    ReachableRefusals(s, events, t);
    EndRefuses(y, t, quoted);
    if TripGuard(y.db, t, TripStatus.Completed).None? {
      var ride := y.db.rides[y.db.trips[t].ride];
      ReachableTripIsDriven(s, events, t);
      EndedPair(y, t, quoted);
      Lifecycle.FareIsRight(ride, quoted, multiplier);
      assert Ended(y, EndTrip(y, t, quoted).state, t, FareOf(ride, quoted), multiplier);
    }
  }

  // Creating

  predicate Closed(status: RideStatus) {
    status == RideStatus.Completed || status == RideStatus.Cancelled
  }

  /** The stored ride that the key replays, if it replays. */
  predicate RideReplays(db: Tables, key: Option<string>, r: RideId) {
    key.Some? && key.value != "" && r in db.rides && db.rides[r].key == key
  }

  predicate RiderBusy(db: Tables, rider: RiderId) {
    exists r :: r in db.rides && db.rides[r].rider == rider && !Closed(db.rides[r].status)
  }

  predicate RideClashes(db: Tables, rid: RideId, tid: TripId, key: Option<string>) {
    rid in db.rides || tid in db.trips || (key == Some("") && exists r :: r in db.rides && db.rides[r].key == Some(""))
  }

  /** A ride as ordered, its trip, and one task. */
  ghost predicate Created(y: State, z: State, rid: RideId, tid: TripId, order: Order, key: Option<string>) {
    && rid in z.db.rides && tid in z.db.trips
    && z.db.rides[rid] == Ride(order.rider, None, RideStatus.Matching, order.tier, order.distance, order.zone,
                               order.surge, key)
    && z.db.trips[tid] == Trip(rid, TripStatus.Matching, None, None, None, None)
    && Elsewhere(y.db.rides, z.db.rides, rid) && Elsewhere(y.db.trips, z.db.trips, tid)
    && z.db.drivers == y.db.drivers && z.db.payments == y.db.payments
    && z.queue[rid] == y.queue[rid] + 1 && (forall q :: q != rid ==> z.queue[q] == y.queue[q])
    && z.keys == y.keys && z.locks == y.locks && z.now == y.now
  }

  ghost predicate CreateAnswered(y: State, answer: Outcome, rid: RideId, tid: TripId, order: Order,
                                 key: Option<string>)
  {
    if exists r :: RideReplays(y.db, key, r) then
      exists r, t :: RideReplays(y.db, key, r) && t in y.db.trips && y.db.trips[t].ride == r
                     && answer == Outcome(y, RideAndTrip(r, t))
    else if RiderBusy(y.db, order.rider) then answer == Outcome(y, Refused(ActiveRide))
    else if RideClashes(y.db, rid, tid, key) then answer == Outcome(y, Refused(UniqueViolation))
    else answer.reply == RideAndTrip(rid, tid) && y.queue[rid] == 0 && Created(y, answer.state, rid, tid, order, key)
  }

  lemma ReplayFinds(s: State, rid: RideId, tid: TripId, order: Order, key: Option<string>, r: RideId)
    requires Good(s) && RideReplays(s.db, key, r)
    ensures TripOf(s.db.trips, r).Some?
    ensures CreateRide(s, rid, tid, order, key) == Outcome(s, RideAndTrip(r, TripOf(s.db.trips, r).value))
  {
    assert RideByKey(s.db.rides, key.value) == Some(r);
  }

  lemma NewRideInserts(s: State, rid: RideId, tid: TripId, order: Order, key: Option<string>)
    requires !(exists r :: RideReplays(s.db, key, r))
    requires forall t :: t in s.db.trips ==> s.db.trips[t].ride in s.db.rides
    ensures var answer := CreateRide(s, rid, tid, order, key);
      if RiderBusy(s.db, order.rider) then answer == Outcome(s, Refused(ActiveRide))
      else if RideClashes(s.db, rid, tid, key) then answer == Outcome(s, Refused(UniqueViolation))
      else answer.reply == RideAndTrip(rid, tid) && Created(s, answer.state, rid, tid, order, key)
  {
    assert HasActiveRide(s.db.rides, order.rider) <==> RiderBusy(s.db, order.rider);
    if Replays(key) && RideByKey(s.db.rides, key.value).Some? {
      assert RideReplays(s.db, key, RideByKey(s.db.rides, key.value).value);
    }
  }

  lemma GoodCreateAnswered(s: State, rid: RideId, tid: TripId, order: Order, key: Option<string>)
    requires Good(s)
    ensures CreateAnswered(s, CreateRide(s, rid, tid, order, key), rid, tid, order, key)
  {
    if r :| RideReplays(s.db, key, r) {
      ReplayFinds(s, rid, tid, order, key, r);
    } else {
      NewRideInserts(s, rid, tid, order, key);
    }
  }

  /** The four answers of a create request, and the ride, trip and task it adds. */
  lemma CreateDoes(s: State, events: seq<Event>, rid: RideId, tid: TripId, order: Order, key: Option<string>)
    requires Init(s)
    ensures CreateAnswered(Run(s, events), Perform(Run(s, events), Create(rid, tid, order, key)), rid, tid, order, key)
  {
    RunIsGood(s, events);
    GoodCreateAnswered(Run(s, events), rid, tid, order, key);
  }

  // Paying

  predicate PaymentReplays(db: Tables, key: Option<string>, p: PaymentId) {
    key.Some? && key.value != "" && p in db.payments && db.payments[p].key == key
  }

  predicate PaymentClashes(db: Tables, pid: PaymentId, key: Option<string>) {
    pid in db.payments || (key == Some("") && exists p :: p in db.payments && db.payments[p].key == Some(""))
  }

  /** A payment as requested, settled; the provider declines amounts whose cents end in 99. */
  ghost predicate PaidAs(p: Payment, pid: PaymentId, t: TripId, amount: real, currency: string, key: Option<string>) {
    && p.trip == t && p.amount == amount && p.currency == currency && p.key == key
    && exists cents: int :: AmountIs(amount, cents) &&
         if cents % 100 == 99
         then p.status == PaymentStatus.Failed && p.reference.None? && p.declined == Some("mock_psp_decline")
         else p.status == PaymentStatus.Succeeded && p.reference == Some(pid) && p.declined.None?
  }

  predicate AmountIs(amount: real, cents: int) {
    Pricing.NearestEven(amount * 100.0, cents)
  }

  ghost predicate Paid(y: State, z: State, pid: PaymentId, t: TripId, amount: real, currency: string,
                       key: Option<string>)
  {
    && pid in z.db.payments && PaidAs(z.db.payments[pid], pid, t, amount, currency, key)
    && Elsewhere(y.db.payments, z.db.payments, pid)
    && z.db.rides == y.db.rides && z.db.trips == y.db.trips && z.db.drivers == y.db.drivers && OnlyRows(y, z)
  }

  lemma NewPaymentIsPaidAs(pid: PaymentId, t: TripId, amount: real, currency: string, key: Option<string>)
    ensures PaidAs(NewPayment(pid, t, amount, currency, key), pid, t, amount, currency, key)
  {
    var cents := Pricing.RoundHalfEven(amount * 100.0);
    Pricing.RoundingIsNearestEven(amount * 100.0, cents);
    assert AmountIs(amount, cents);
  }

  ghost predicate PayAnswered(y: State, answer: Outcome, pid: PaymentId, t: TripId, amount: real, currency: string,
                              key: Option<string>)
  {
    if exists p :: PaymentReplays(y.db, key, p) then
      exists p :: PaymentReplays(y.db, key, p) && answer == Outcome(y, PaymentReply(p))
    else if t !in y.db.trips then answer == Outcome(y, Refused(NotFound))
    else if y.db.trips[t].status != TripStatus.Completed then answer == Outcome(y, Refused(TripNotCompleted))
    else if PaymentClashes(y.db, pid, key) then answer == Outcome(y, Refused(UniqueViolation))
    else answer.reply == PaymentReply(pid) && Paid(y, answer.state, pid, t, amount, currency, key)
  }

  /** The five answers of a payment request, and the row it adds. */
  lemma PayDoes(s: State, pid: PaymentId, t: TripId, amount: real, currency: string, key: Option<string>)
    ensures PayAnswered(s, Perform(s, Pay(pid, t, amount, currency, key)), pid, t, amount, currency, key)
  {
    NewPaymentIsPaidAs(pid, t, amount, currency, key);
    if Replays(key) && PaymentByKey(s.db.payments, key.value).Some? {
      assert PaymentReplays(s.db, key, PaymentByKey(s.db.payments, key.value).value);
    }
  }

  // Availability, tasks and time

  /** A driver's row takes the status sent; a new driver is standard and unrated. */
  lemma AvailabilityDoes(s: State, d: DriverId, status: DriverStatus)
    ensures var answer := Perform(s, Availability(d, status));
      var z := answer.state;
      && answer.reply == DriverReply(d) && d in z.db.drivers
      && z.db.drivers[d] == (if d in s.db.drivers then s.db.drivers[d].(status := status)
                             else Driver(status, Standard, None))
      && Elsewhere(s.db.drivers, z.db.drivers, d)
      && z.db.rides == s.db.rides && z.db.trips == s.db.trips && z.db.payments == s.db.payments && OnlyRows(s, z)
  {
  }

  /** The offer of the place that wins, under both keys and for its time to live. */
  ghost predicate Offered(y: State, z: State, r: RideId, p: Payload, ttl: Ttl) {
    && p.ride == r
    && r in z.keys.byRide && z.keys.byRide[r] == RideEntry(p, y.now + ttl)
    && p.driver in z.keys.byDriver && z.keys.byDriver[p.driver] == DriverEntry(r, y.now + ttl)
    && Elsewhere(y.keys.byRide, z.keys.byRide, r) && Elsewhere(y.keys.byDriver, z.keys.byDriver, p.driver)
  }

  ghost predicate TaskDone(y: State, z: State, r: RideId, geo: seq<Matching.Candidate>, token: string, ttl: Ttl)
    requires r in y.db.rides
  {
    if y.db.rides[r].status == RideStatus.Matching && exists i: nat :: Matching.Eligible(geo, y.db.drivers, i)
    then exists i: nat :: Matching.Wins(geo, y.db.drivers, y.db.rides[r].tier, |geo|, i)
                          && Offered(y, z, r, Payload(r, geo[i].driver, token), ttl)
    else z.keys == y.keys
  }

  lemma PutIsOffered(s: State, p: Payload, ttl: Ttl, z: State)
    requires z.keys == Put(s.keys, p, ttl, s.now)
    ensures Offered(s, z, p.ride, p, ttl)
  {
  }

  lemma TaskOfWaitingRide(s: State, r: RideId, raw: seq<Matching.Member>, token: string, ttl: Ttl)
    requires Unmatched(s.db, r) && s.locks == map[]
    ensures var geo, z := Matching.Parse(raw), MatchRide(s, r, raw, token, ttl);
      && z == s.(keys := z.keys, locks := z.locks) && z.locks == map[] && TaskDone(s, z, r, geo, token, ttl)
  {
    var geo, tier := Matching.Parse(raw), s.db.rides[r].tier;
    assert s.locks - {r} == map[];
    Matching.ChoiceIsStableArgmin(geo, s.db.drivers, tier);
    if Matching.Choose(geo, s.db.drivers, tier).Some? {
      var i: nat :| Matching.Wins(geo, s.db.drivers, tier, |geo|, i)
                    && geo[i].driver == Matching.Choose(geo, s.db.drivers, tier).value;
      PutIsOffered(s, Payload(r, geo[i].driver, token), ttl, MatchRide(s, r, raw, token, ttl));
    }
  }

  lemma QueuedTaskDoes(s: State, r: RideId, raw: seq<Matching.Member>, token: string, ttl: Ttl)
    requires r in s.queue && r in s.db.rides && s.locks == map[]
    requires Unmatched(s.db, r) <==> s.db.rides[r].status == RideStatus.Matching
    ensures var z := RunTask(s, r, raw, token, ttl);
      && z == s.(keys := z.keys, queue := s.queue - multiset{r})
      && TaskDone(s, z, r, Matching.Parse(raw), token, ttl)
  {
    if Unmatched(s.db, r) {
      TaskOfWaitingRide(s.(queue := s.queue - multiset{r}), r, raw, token, ttl);
    }
  }

  /** A queued task runs once; it offers a waiting ride to the winner of the ranking, if anybody is eligible. */
  lemma MatchDoes(s: State, events: seq<Event>, r: RideId, raw: seq<Matching.Member>, token: string, ttl: Ttl)
    requires Init(s)
    ensures var y, z := Run(s, events), Step(Run(s, events), Match(r, raw, token, ttl));
      if y.queue[r] == 0 then z == y
      else
        && r in y.db.rides && z.queue[r] == y.queue[r] - 1 && (forall q :: q != r ==> z.queue[q] == y.queue[q])
        && z.db == y.db && z.locks == y.locks && z.now == y.now
        && TaskDone(y, z, r, Matching.Parse(raw), token, ttl)
  {
    var y := Run(s, events);
    ReachableTask(s, events, r);
    if r in y.queue {
      QueuedTaskDoes(y, r, raw, token, ttl);
    }
  }

  lemma ReachableTask(s: State, events: seq<Event>, r: RideId)
    requires Init(s)
    ensures var y := Run(s, events);
      && y.locks == map[]
      && (r in y.queue ==> r in y.db.rides)
      && (r in y.db.rides ==> (Unmatched(y.db, r) <==> y.db.rides[r].status == RideStatus.Matching))
  {
    RunIsGood(s, events);
    Lifecycle.NoAssignLockRemains(s, events);
    var y := Run(s, events);
    if r in y.db.rides && y.db.rides[r].status == RideStatus.Matching {
      WaitingRideHasWaitingTrip(y.db, r);
    }
  }

  /** Time moves the clock alone, and an offer is found until its time is up. */
  lemma TickDoes(s: State, elapsed: nat, r: RideId)
    ensures var answer := Perform(s, Tick(elapsed));
      && answer.state == s.(now := s.now + elapsed)
      && (ForRide(answer.state.keys, r, answer.state.now).Some?
          <==> r in s.keys.byRide && s.now + elapsed < s.keys.byRide[r].expires)
  {
  }
}
