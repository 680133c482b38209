/** Whole runs of the service, with requests and tasks taken one at a time. */
module Lifecycle {
  import opened Domain
  import opened Offers
  import opened Operations
  import opened Invariants
  import TripFsm
  import Matching
  import Pricing

  // Offers

  /** The lookup by driver returns the driver's own offer, and returns one whenever the driver key is live. */
  lemma PendingOfferIsOwn(s: State, events: seq<Event>, d: DriverId)
    requires Init(s)
    ensures var z := Run(s, events);
      && (ForDriver(z.keys, d, z.now).Some? <==> DriverKeyLive(z.keys, d, z.now))
      && (DriverKeyLive(z.keys, d, z.now) ==>
            var p := ForDriver(z.keys, d, z.now).value;
            && p.driver == d && p.ride == z.keys.byDriver[d].ride
            && ForRide(z.keys, p.ride, z.now) == Some(p)
            && z.keys.byRide[p.ride].expires == z.keys.byDriver[d].expires)
  {
    RunIsGood(s, events);
    var z := Run(s, events);
    if DriverKeyLive(z.keys, d, z.now) {
      OfferLookupIsOwn(z.db.rides, z.keys, z.queue, z.now, d);
    }
  }

  /** Conservation of the right to match a ride; the holder is a ride that exists, and an offered one still waits. */
  lemma OneTaskOrOffer(s: State, events: seq<Event>, r: RideId)
    requires Init(s)
    ensures var z := Run(s, events);
      && z.queue[r] + LiveCount(z.keys, r, z.now) <= 1
      && (r in z.queue || RideKeyLive(z.keys, r, z.now) ==> r in z.db.rides)
      && (RideKeyLive(z.keys, r, z.now) ==> Unmatched(z.db, r) && z.db.rides[r].driver.None?)
  {
    RunIsGood(s, events);
    var z := Run(s, events);
    assert z.queue[r] + LiveCount(z.keys, r, z.now) <= 1;
    if RideKeyLive(z.keys, r, z.now) {
      WaitingRideHasWaitingTrip(z.db, r);
    }
  }

  lemma OnlyTasksTouchLocks(s: State, e: Event)
    requires s.locks == map[]
    ensures Step(s, e).locks == map[]
  {
  }

  /** Between tasks no assign lock is left, so a matching task that runs alone never finds it taken. */
  lemma {:induction false} NoAssignLockRemains(s: State, events: seq<Event>)
    requires Init(s)
    ensures Run(s, events).locks == map[]
  {
    if events == [] {
    } else {
      NoAssignLockRemains(s, events[..|events| - 1]);
      OnlyTasksTouchLocks(Run(s, events[..|events| - 1]), events[|events| - 1]);
    }
  }

  // Rows

  /** Which ride status goes with which trip status. */
  predicate Aligned(ride: RideStatus, trip: TripStatus) {
    && (ride == RideStatus.Matching <==> trip == TripStatus.Matching)
    && (ride == RideStatus.DriverAssigned <==> trip == TripStatus.DriverAssigned)
    && (ride == RideStatus.InProgress <==> trip == TripStatus.InProgress || trip == TripStatus.Paused)
    && (ride == RideStatus.Completed <==> trip == TripStatus.Completed)
    && (ride == RideStatus.Cancelled <==> trip == TripStatus.Cancelled)
    && ride != RideStatus.Requested && ride != RideStatus.DriverArriving
    && trip != TripStatus.Requested && trip != TripStatus.DriverArriving
  }

  lemma PairIsAligned(ride: Ride, trip: Trip, drivers: set<DriverId>)
    requires PairOk(ride, trip, drivers)
    ensures Aligned(ride.status, trip.status)
  {
  }

  /** Exactly one trip per ride, aligned with it; fare and end time mark completion. */
  lemma RideAndTripAgree(s: State, events: seq<Event>, r: RideId)
    requires Init(s) && r in Run(s, events).db.rides
    ensures var z := Run(s, events).db;
      exists t :: && t in z.trips && z.trips[t].ride == r
                  && (forall u :: u in z.trips && z.trips[u].ride == r ==> u == t)
                  && Aligned(z.rides[r].status, z.trips[t].status)
                  && (z.trips[t].fare.Some? <==> z.trips[t].status == TripStatus.Completed)
                  && (z.trips[t].endedAt.Some? <==> z.trips[t].status == TripStatus.Completed)
                  && (Driven(z.trips[t].status) ==> z.rides[r].driver.Some? && z.rides[r].driver.value in z.drivers)
  {
    RunIsGood(s, events);
    var z := Run(s, events).db;
    var t := TripOf(z.trips, r).value;
    assert PairOk(z.rides[r], z.trips[t], z.drivers.Keys);
    PairIsAligned(z.rides[r], z.trips[t], z.drivers.Keys);
  }

  lemma GuardsOfAgreeingPair(z: State, t: TripId, quoted: Option<real>)
    requires t in z.db.trips && z.db.trips[t].ride in z.db.rides
    requires PairOk(z.db.rides[z.db.trips[t].ride], z.db.trips[t], z.db.drivers.Keys)
    ensures var status := z.db.trips[t].status;
      var startable := status == TripStatus.DriverAssigned || status == TripStatus.Paused;
      && (StartTrip(z, t).reply == TripReply(t) <==> startable)
      && (ResumeTrip(z, t).reply == TripReply(t) <==> startable)
      && (PauseTrip(z, t).reply == TripReply(t) <==> status == TripStatus.InProgress)
      && (EndTrip(z, t, quoted).reply == TripReply(t) <==> status == TripStatus.InProgress)
  {
  }

  /** Which trip requests succeed in a reachable state; starting and resuming are the same to the guard. */
  lemma RequestsSucceedIff(s: State, events: seq<Event>, t: TripId, quoted: Option<real>)
    requires Init(s) && t in Run(s, events).db.trips
    ensures var z := Run(s, events);
      var status := z.db.trips[t].status;
      var startable := status == TripStatus.DriverAssigned || status == TripStatus.Paused;
      && (StartTrip(z, t).reply == TripReply(t) <==> startable)
      && (ResumeTrip(z, t).reply == TripReply(t) <==> startable)
      && (PauseTrip(z, t).reply == TripReply(t) <==> status == TripStatus.InProgress)
      && (EndTrip(z, t, quoted).reply == TripReply(t) <==> status == TripStatus.InProgress)
  {
    RunIsGood(s, events);
    GuardsOfAgreeingPair(Run(s, events), t, quoted);
  }

  /** The multiplier charged: the quote for a named zone, else the stored one unless it is zero, else one. */
  predicate Charged(ride: Ride, quoted: Option<real>, multiplier: real) {
    if ride.zone.Some? && ride.zone.value != "" && quoted.Some? then multiplier == quoted.value
    else if ride.surge.Some? && ride.surge.value != 0.0 then multiplier == ride.surge.value
    else multiplier == 1.0
  }

  /** The fare of a trip request is the nearest cent to the exact price, and never below the base fare. */
  lemma FareIsRight(ride: Ride, quoted: Option<real>, multiplier: real)
    requires Charged(ride, quoted, multiplier)
    ensures Pricing.ChargesNearestCent(FareOf(ride, quoted), ride.distance, multiplier)
    ensures 2.5 <= FareOf(ride, quoted)
  {
    var surge := Pricing.SurgeMultiplier(ride.zone, quoted, Pricing.SurgeOrOne(ride.surge));
    assert surge == multiplier;
    Pricing.FareIsNearestCent(ride.distance, surge);
    Pricing.FareIsMonotone(ride.distance, ride.distance, surge, surge);
  }

  /** Ending a trip charges the fare of its distance and multiplier, and puts its driver online. */
  lemma EndingChargesAndFrees(s: State, events: seq<Event>, t: TripId, quoted: Option<real>, multiplier: real)
    requires Init(s) && EndTrip(Run(s, events), t, quoted).reply == TripReply(t)
    requires var y := Run(s, events).db;
      t in y.trips && y.trips[t].ride in y.rides ==> Charged(y.rides[y.trips[t].ride], quoted, multiplier)
    ensures var y, z := Run(s, events).db, EndTrip(Run(s, events), t, quoted).state.db;
      && t in y.trips && y.trips[t].ride in y.rides && t in z.trips && z.trips[t].fare.Some?
      && var ride, fare := y.rides[y.trips[t].ride], z.trips[t].fare.value;
         && Pricing.ChargesNearestCent(fare, ride.distance, multiplier)
         && 2.5 <= fare
         && ride.driver.Some? && ride.driver.value in z.drivers && z.drivers[ride.driver.value].status == Online
  {
    RunIsGood(s, events);
    var y := Run(s, events).db;
    LegalRequestIsDriven(y, t, TripStatus.Completed);
    FareIsRight(y.rides[y.trips[t].ride], quoted, multiplier);
  }

  lemma RiderHasOneActiveRide(s: State, events: seq<Event>, r: RideId, q: RideId)
    requires Init(s)
    requires var z := Run(s, events).db.rides;
      r in z && q in z && z[r].rider == z[q].rider && Active(z[r].status) && Active(z[q].status)
    ensures r == q
  {
    RunIsGood(s, events);
  }

  /** Every payment is settled and belongs to a completed trip with a fare and a driver. */
  lemma PaymentsFollowCompletion(s: State, events: seq<Event>, p: PaymentId)
    requires Init(s) && p in Run(s, events).db.payments
    ensures var z := Run(s, events).db;
      var payment := z.payments[p];
      && payment.trip in z.trips && z.trips[payment.trip].status == TripStatus.Completed
      && z.trips[payment.trip].fare.Some?
      && z.trips[payment.trip].ride in z.rides && z.rides[z.trips[payment.trip].ride].driver.Some?
      && (payment.status == PaymentStatus.Succeeded <==> payment.reference == Some(p))
      && (payment.status == PaymentStatus.Failed <==> payment.reference.None?)
  {
    RunIsGood(s, events);
    var z := Run(s, events).db;
    var t := z.payments[p].trip;
    assert PairOk(z.rides[z.trips[t].ride], z.trips[t], z.drivers.Keys);
  }

  // What never changes

  /** A ride's identity is fixed, and so is its driver once there is one. */
  predicate RideContinues(a: Ride, b: Ride) {
    && b == a.(driver := b.driver, status := b.status)
    && (a.driver.Some? ==> b.driver == a.driver)
    && (Active(b.status) ==> Active(a.status))
  }

  /** A trip follows the table and stops for good at a terminal status. */
  predicate TripContinues(a: Trip, b: Trip) {
    && b.ride == a.ride
    && (b.status == a.status || b.status in TripFsm.Allowed(a.status))
    && (TripFsm.Terminal(a.status) ==> b == a)
  }

  /** A driver's row stays, and only its status changes. */
  ghost predicate DriversContinue(a: map<DriverId, Driver>, b: map<DriverId, Driver>) {
    forall d :: d in a ==> d in b && b[d] == a[d].(status := b[d].status)
  }

  ghost predicate Continues(a: Tables, b: Tables) {
    && (forall r :: r in a.rides ==> r in b.rides && RideContinues(a.rides[r], b.rides[r]))
    && (forall t :: t in a.trips ==> t in b.trips && TripContinues(a.trips[t], b.trips[t]))
    && (forall p :: p in a.payments ==> p in b.payments && b.payments[p] == a.payments[p])
    && DriversContinue(a.drivers, b.drivers)
  }

  lemma PutPairContinues(db: Tables, t: TripId, trip: Trip, ride: Ride, drivers: map<DriverId, Driver>)
    requires t in db.trips && db.trips[t].ride in db.rides
    requires TripContinues(db.trips[t], trip) && RideContinues(db.rides[trip.ride], ride)
    requires DriversContinue(db.drivers, drivers)
    ensures Continues(db, PutPair(db, t, trip, ride).(drivers := drivers))
  {
  }

  lemma AssignContinues(db: Tables, d: DriverId, r: RideId, t: TripId)
    requires r in db.rides && d in db.drivers && t in db.trips && db.trips[t].ride == r
    requires Active(db.rides[r].status) && db.rides[r].driver.None?
    requires TripStatus.DriverAssigned in TripFsm.Allowed(db.trips[t].status)
    ensures Continues(db, AssignRows(db, d, r, t))
  {
    var z := AssignRows(db, d, r, t);
    PutPairContinues(db, t, z.trips[t], z.rides[r], z.drivers);
  }

  lemma AcceptContinues(s: State, d: DriverId, r: RideId, token: string)
    requires Good(s)
    ensures Continues(s.db, AcceptOffer(s, d, r, token).state.db)
  {
    if AcceptOffer(s, d, r, token).reply.RideAndTrip? {
      AcceptedPair(s, d, r, token);
      AssignContinues(s.db, d, r, TripOf(s.db.trips, r).value);
    } else {
      ContinuesItself(s.db);
    }
  }

  lemma ContinuesItself(db: Tables)
    ensures Continues(db, db)
  {
  }

  lemma CancelRowsContinues(db: Tables, r: RideId, t: TripId)
    requires r in db.rides && t in db.trips && db.trips[t].ride == r && !TripFsm.Terminal(db.trips[t].status)
    ensures Continues(db, CancelRows(db, r, Some(t)))
  {
    var z := CancelRows(db, r, Some(t));
    PutPairContinues(db, t, z.trips[t], z.rides[r], z.drivers);
  }

  lemma CancelContinues(s: State, rider: RiderId, r: RideId)
    requires Good(s)
    ensures Continues(s.db, CancelRide(s, rider, r).state.db)
  {
    if CancelRide(s, rider, r).reply.Done? {
      CancelRowsKeepsRows(s.db, r);
      CancelRowsContinues(s.db, r, TripOf(s.db.trips, r).value);
    } else {
      ContinuesItself(s.db);
    }
  }

  lemma ProgressContinues(db: Tables, t: TripId, trip: Trip)
    requires RowsOk(db.rides, db.trips, db.drivers.Keys)
    requires TripGuard(db, t, TripStatus.InProgress).None?
    requires trip.ride == db.trips[t].ride && trip.status == TripStatus.InProgress
    ensures Continues(db, PutPair(db, t, trip, db.rides[trip.ride].(status := RideStatus.InProgress)))
  {
    LegalRequestIsDriven(db, t, TripStatus.InProgress);
    PutPairContinues(db, t, trip, db.rides[trip.ride].(status := RideStatus.InProgress), db.drivers);
  }

  lemma StartContinues(s: State, e: Event)
    requires RowsOk(s.db.rides, s.db.trips, s.db.drivers.Keys) && e.Start?
    ensures Continues(s.db, Step(s, e).db)
  {
    if TripGuard(s.db, e.trip, TripStatus.InProgress).None? {
      ProgressWrites(s, e.trip);
      ProgressContinues(s.db, e.trip, s.db.trips[e.trip].(status := TripStatus.InProgress, startedAt := Some(s.now)));
    } else {
      ContinuesItself(s.db);
    }
  }

  lemma ResumeContinues(s: State, e: Event)
    requires RowsOk(s.db.rides, s.db.trips, s.db.drivers.Keys) && e.Resume?
    ensures Continues(s.db, Step(s, e).db)
  {
    if TripGuard(s.db, e.trip, TripStatus.InProgress).None? {
      ProgressWrites(s, e.trip);
      ProgressContinues(s.db, e.trip, s.db.trips[e.trip].(status := TripStatus.InProgress, pausedAt := None));
    } else {
      ContinuesItself(s.db);
    }
  }

  lemma PauseContinues(s: State, e: Event)
    requires RowsOk(s.db.rides, s.db.trips, s.db.drivers.Keys) && e.Pause?
    ensures Continues(s.db, Step(s, e).db)
  {
    var t := e.trip;
    if TripGuard(s.db, t, TripStatus.Paused).None? {
      LegalRequestIsDriven(s.db, t, TripStatus.Paused);
      var trip := s.db.trips[t].(status := TripStatus.Paused, pausedAt := Some(s.now));
      PauseIsPutPair(s.db, t, trip);
      PutPairContinues(s.db, t, trip, s.db.rides[trip.ride], s.db.drivers);
    } else {
      ContinuesItself(s.db);
    }
  }

  lemma CompletionContinues(db: Tables, t: TripId, trip: Trip, drivers: map<DriverId, Driver>)
    requires RowsOk(db.rides, db.trips, db.drivers.Keys)
    requires TripGuard(db, t, TripStatus.Completed).None?
    requires trip.ride == db.trips[t].ride && trip.status == TripStatus.Completed
    requires DriversContinue(db.drivers, drivers)
    ensures var ride := db.rides[trip.ride].(status := RideStatus.Completed);
      Continues(db, PutPair(db, t, trip, ride).(drivers := drivers))
  {
    LegalRequestIsDriven(db, t, TripStatus.Completed);
    PutPairContinues(db, t, trip, db.rides[trip.ride].(status := RideStatus.Completed), drivers);
  }

  lemma EndContinues(s: State, e: Event)
    requires RowsOk(s.db.rides, s.db.trips, s.db.drivers.Keys) && e.End?
    ensures Continues(s.db, Step(s, e).db)
  {
    var t := e.trip;
    if TripGuard(s.db, t, TripStatus.Completed).None? {
      var z := Step(s, e).db;
      CompletionContinues(s.db, t, z.trips[t], z.drivers);
    } else {
      ContinuesItself(s.db);
    }
  }

  lemma CreateContinues(s: State, rid: RideId, tid: TripId, order: Order, key: Option<string>)
    ensures Continues(s.db, CreateRide(s, rid, tid, order, key).state.db)
  {
  }

  lemma PayContinues(s: State, pid: PaymentId, t: TripId, amount: real, currency: string, key: Option<string>)
    ensures Continues(s.db, InitiatePayment(s, pid, t, amount, currency, key).state.db)
  {
  }

  /** Matching, rejecting and waiting leave the tables alone; availability writes only the driver. */
  lemma OthersContinue(s: State, e: Event)
    requires e.Match? || e.Reject? || e.Availability? || e.Tick?
    ensures Continues(s.db, Step(s, e).db)
  {
    ContinuesItself(s.db);
  }

  /** Every change of a trip is an edge of the table, including the writes that never ask it. */
  lemma StepContinues(s: State, e: Event)
    requires Good(s)
    ensures Continues(s.db, Step(s, e).db)
  {
    if e.Start? {
      StartContinues(s, e);
    } else if e.Pause? {
      PauseContinues(s, e);
    } else if e.Resume? {
      ResumeContinues(s, e);
    } else if e.End? {
      EndContinues(s, e);
    } else if e.Create? {
      CreateContinues(s, e.rid, e.tid, e.order, e.key);
    } else if e.Accept? {
      AcceptContinues(s, e.driver, e.ride, e.token);
    } else if e.Cancel? {
      CancelContinues(s, e.rider, e.ride);
    } else if e.Pay? {
      PayContinues(s, e.pid, e.trip, e.amount, e.currency, e.key);
    } else {
      OthersContinue(s, e);
    }
  }

  lemma {:induction false} RunStaysGood(s: State, events: seq<Event>)
    requires Good(s)
    ensures Good(Run(s, events))
  {
    if events == [] {
    } else {
      RunStaysGood(s, events[..|events| - 1]);
      StepKeepsGood(Run(s, events[..|events| - 1]), events[|events| - 1]);
    }
  }

  lemma {:induction false} RunAppend(s: State, a: seq<Event>, b: seq<Event>)
    ensures Run(s, a + b) == Run(Run(s, a), b)
  {
    if b == [] {
      assert a + b == a;
    } else {
      var n := |b| - 1;
      RunAppend(s, a, b[..n]);
      assert (a + b)[..|a + b| - 1] == a + b[..n];
    }
  }

  /** What a run can never undo: identities, drivers and their rows, terminal trips with their fares, and payments. */
  ghost predicate Frozen(a: Tables, b: Tables) {
    && (forall r :: r in a.rides ==>
          && r in b.rides && b.rides[r] == a.rides[r].(driver := b.rides[r].driver, status := b.rides[r].status)
          && (a.rides[r].driver.Some? ==> b.rides[r].driver == a.rides[r].driver)
          && (Active(b.rides[r].status) ==> Active(a.rides[r].status)))
    && (forall t :: t in a.trips ==>
          && t in b.trips && b.trips[t].ride == a.trips[t].ride
          && TripFsm.Rank(a.trips[t].status) <= TripFsm.Rank(b.trips[t].status)
          && (TripFsm.Terminal(a.trips[t].status) ==> b.trips[t] == a.trips[t]))
    && (forall p :: p in a.payments ==> p in b.payments && b.payments[p] == a.payments[p])
    && DriversContinue(a.drivers, b.drivers)
  }

  lemma FrozenThenContinues(a: Tables, b: Tables, c: Tables)
    requires Frozen(a, b) && Continues(b, c)
    ensures Frozen(a, c)
  {
    forall t | t in a.trips
      ensures t in c.trips && TripFsm.Rank(a.trips[t].status) <= TripFsm.Rank(c.trips[t].status)
    {
      assert TripContinues(b.trips[t], c.trips[t]);
      if b.trips[t].status != c.trips[t].status {
        TripFsm.EdgeRank(b.trips[t].status, c.trips[t].status);
      }
    }
    forall r | r in a.rides ensures r in c.rides && RideContinues(a.rides[r], c.rides[r]) {
      assert RideContinues(b.rides[r], c.rides[r]);
    }
  }

  lemma {:induction false} RunFreezes(s: State, events: seq<Event>)
    requires Good(s)
    ensures Frozen(s.db, Run(s, events).db)
  {
    if events == [] {
    } else {
      var rest, e := events[..|events| - 1], events[|events| - 1];
      RunFreezes(s, rest);
      RunStaysGood(s, rest);
      StepContinues(Run(s, rest), e);
      FrozenThenContinues(s.db, Run(s, rest).db, Run(s, events).db);
    }
  }

  /** From any moment of a run to any later one. */
  lemma HistoryIsFrozen(s: State, a: seq<Event>, b: seq<Event>)
    requires Init(s)
    ensures Frozen(Run(s, a).db, Run(s, a + b).db)
  {
    RunIsGood(s, a);
    RunAppend(s, a, b);
    RunFreezes(Run(s, a), b);
  }

  lemma LookupNeedsWaitingRide(s: State, d: DriverId, r: RideId)
    requires Good(s) && r in s.db.rides && s.db.rides[r].driver.Some?
    ensures ForDriver(s.keys, d, s.now).Some? ==> ForDriver(s.keys, d, s.now).value.ride != r
  {
    if ForDriver(s.keys, d, s.now).Some? {
      OfferLookupIsOwn(s.db.rides, s.keys, s.queue, s.now, d);
    }
  }

  lemma AcceptedRideKeepsDriver(s: State, d: DriverId, r: RideId, token: string, mid: seq<Event>)
    requires Good(s) && AcceptOffer(s, d, r, token).reply.RideAndTrip?
    ensures var y := Run(AcceptOffer(s, d, r, token).state, mid);
      Good(y) && r in y.db.rides && y.db.rides[r].driver == Some(d)
  {
    var z := AcceptOffer(s, d, r, token).state;
    AcceptedPair(s, d, r, token);
    AcceptKeepsGood(s, d, r, token);
    assert z.db.rides[r].driver == Some(d);
    RunFreezes(z, mid);
    RunStaysGood(z, mid);
  }

  /** Once an accept has succeeded, every later accept for that ride is refused at the offer check. */
  lemma SecondAcceptIsRefused(s: State, d: DriverId, r: RideId, token: string, mid: seq<Event>,
                              d': DriverId, token': string)
    requires Good(s) && AcceptOffer(s, d, r, token).reply.RideAndTrip?
    ensures var y := Run(AcceptOffer(s, d, r, token).state, mid);
      && r in y.db.rides && y.db.rides[r].driver == Some(d)
      && AcceptOffer(y, d', r, token') == Outcome(y, Refused(InvalidOffer))
  {
    AcceptedRideKeepsDriver(s, d, r, token, mid);
    LookupNeedsWaitingRide(Run(AcceptOffer(s, d, r, token).state, mid), d', r);
  }

  // The life of one trip

  /** The statuses so far, and the present one if it is new. */
  ghost function Extend(past: seq<TripStatus>, trips: map<TripId, Trip>, t: TripId): seq<TripStatus> {
    if t !in trips || (past != [] && past[|past| - 1] == trips[t].status) then past else past + [trips[t].status]
  }

  /** The statuses a trip has had, in order, each change listed once. */
  ghost function History(s: State, events: seq<Event>, t: TripId): seq<TripStatus> {
    Extend(if events == [] then [] else History(s, events[..|events| - 1], t), Run(s, events).db.trips, t)
  }

  /** The statuses listed so far are the story of the trip in `trips`. */
  ghost predicate Recounts(h: seq<TripStatus>, trips: map<TripId, Trip>, t: TripId) {
    if t !in trips then h == []
    else TripFsm.Path(h) && h[0] == TripStatus.Matching && h[|h| - 1] == trips[t].status
  }

  lemma ExtendRecounts(past: seq<TripStatus>, before: map<TripId, Trip>, after: map<TripId, Trip>, t: TripId)
    requires Recounts(past, before, t)
    requires t in before ==> t in after && TripContinues(before[t], after[t])
    requires t !in before && t in after ==> after[t].status == TripStatus.Matching
    ensures Recounts(Extend(past, after, t), after, t)
  {
  }

  lemma NewTripsStartMatching(s: State, e: Event, t: TripId)
    requires t !in s.db.trips && t in Step(s, e).db.trips
    ensures Step(s, e).db.trips[t].status == TripStatus.Matching
  {
  }

  lemma StepOfTrip(s: State, e: Event, t: TripId)
    requires Good(s)
    ensures var before, after := s.db.trips, Step(s, e).db.trips;
      && (t in before ==> t in after && TripContinues(before[t], after[t]))
      && (t !in before && t in after ==> after[t].status == TripStatus.Matching)
  {
    StepContinues(s, e);
    if t !in s.db.trips && t in Step(s, e).db.trips {
      NewTripsStartMatching(s, e, t);
    }
  }

  lemma {:induction false} HistoryIsPath(s: State, events: seq<Event>, t: TripId)
    requires Init(s)
    ensures Recounts(History(s, events, t), Run(s, events).db.trips, t)
  {
    if events == [] {
    } else {
      var rest, e := events[..|events| - 1], events[|events| - 1];
      HistoryIsPath(s, rest, t);
      RunIsGood(s, rest);
      StepOfTrip(Run(s, rest), e, t);
      ExtendRecounts(History(s, rest, t), Run(s, rest).db.trips, Run(s, events).db.trips, t);
    }
  }

  lemma RecountedIsBounded(h: seq<TripStatus>, trips: map<TripId, Trip>, t: TripId)
    requires t in trips && Recounts(h, trips, t)
    ensures TripFsm.NonPauseEdges(h) <= TripFsm.Rank(h[|h| - 1]) - 1 <= 4
    ensures forall i :: 0 <= i < |h| - 1 ==> !TripFsm.Terminal(h[i])
  {
    TripFsm.PathIsBounded(h);
  }

  /**
   * The whole life of a trip walks the table from Matching; apart from pausing and resuming it changes
   * at most four times, and nothing follows a terminal status.
   */
  lemma TripLifeIsBounded(s: State, events: seq<Event>, t: TripId)
    requires Init(s) && t in Run(s, events).db.trips
    ensures var h := History(s, events, t);
      && TripFsm.Path(h) && h[0] == TripStatus.Matching && h[|h| - 1] == Run(s, events).db.trips[t].status
      && TripFsm.NonPauseEdges(h) <= TripFsm.Rank(h[|h| - 1]) - 1 <= 4
      && forall i :: 0 <= i < |h| - 1 ==> !TripFsm.Terminal(h[i])
  {
    HistoryIsPath(s, events, t);
    RecountedIsBounded(History(s, events, t), Run(s, events).db.trips, t);
  }

  // Replays

  /** The branch for a ride without a trip is dead. */
  lemma NeverInconsistent(s: State, events: seq<Event>, rid: RideId, tid: TripId, order: Order, key: Option<string>)
    requires Init(s)
    ensures CreateRide(Run(s, events), rid, tid, order, key).reply != Refused(DataInconsistency)
  {
    RunIsGood(s, events);
  }

  /** A non-empty key that was answered once is stored with the ride it was answered with. */
  lemma AnsweredKeyIsStored(s: State, rid: RideId, tid: TripId, order: Order, key: Option<string>, r: RideId, t: TripId)
    requires Replays(key) && CreateRide(s, rid, tid, order, key).reply == RideAndTrip(r, t)
    ensures var z := CreateRide(s, rid, tid, order, key).state.db;
      r in z.rides && z.rides[r].key == key && t in z.trips && z.trips[t].ride == r
  {
  }

  /** Repeating a create request at any later time answers with the same rows and changes nothing. */
  lemma RepeatedCreateIsErased(s: State, first: Event, again: Event, mid: seq<Event>, rest: seq<Event>, r: RideId,
                               t: TripId)
    requires Good(s) && first.Create? && again.Create? && again.key == first.key && Replays(first.key)
    requires Perform(s, first).reply == RideAndTrip(r, t)
    ensures var y := Run(Step(s, first), mid);
      Perform(y, again) == Outcome(y, RideAndTrip(r, t))
    ensures Run(s, [first] + mid + [again] + rest) == Run(s, [first] + mid + rest)
  {
    var z := Step(s, first);
    AnsweredKeyIsStored(s, first.rid, first.tid, first.order, first.key, r, t);
    StepKeepsGood(s, first);
    RunFreezes(z, mid);
    RunStaysGood(z, mid);
    var y := Run(z, mid);
    assert y.db.rides[r].key == first.key;
    TripOfIs(y.db.trips, t);
    EraseStutter(s, first, mid, again, rest);
  }

  lemma EraseStutter(s: State, first: Event, mid: seq<Event>, again: Event, rest: seq<Event>)
    requires Step(Run(Step(s, first), mid), again) == Run(Step(s, first), mid)
    ensures Run(s, [first] + mid + [again] + rest) == Run(s, [first] + mid + rest)
  {
    RunOne(s, first);
    RunAppend(s, [first], mid);
    var y := Run(Step(s, first), mid);
    RunOne(y, again);
    RunAppend(s, [first] + mid, [again]);
    RunAppend(s, [first] + mid + [again], rest);
    RunAppend(s, [first] + mid, rest);
  }

  lemma RunOne(s: State, e: Event)
    ensures Run(s, [e]) == Step(s, e)
  {
    assert [e][..0] == [];
    assert Run(s, [e][..0]) == s;
  }

  lemma PaidKeyIsStored(s: State, pid: PaymentId, t: TripId, amount: real, currency: string, key: Option<string>,
                        p: PaymentId)
    requires Replays(key) && InitiatePayment(s, pid, t, amount, currency, key).reply == PaymentReply(p)
    ensures var z := InitiatePayment(s, pid, t, amount, currency, key).state.db.payments;
      p in z && z[p].key == key
  {
  }

  lemma StoredPaymentIsAnswered(s: State, p: PaymentId, pid: PaymentId, t: TripId, amount: real, currency: string)
    requires UniquePaymentKeys(s.db.payments) && p in s.db.payments && Replays(s.db.payments[p].key)
    ensures InitiatePayment(s, pid, t, amount, currency, s.db.payments[p].key) == Outcome(s, PaymentReply(p))
  {
    assert PaymentByKey(s.db.payments, s.db.payments[p].key.value) == Some(p);
  }

  /** The same for payments; the repeat is answered whatever trip or amount it names. */
  lemma RepeatedPaymentIsErased(s: State, first: Event, again: Event, mid: seq<Event>, rest: seq<Event>, p: PaymentId)
    requires Good(s) && first.Pay? && again.Pay? && again.key == first.key && Replays(first.key)
    requires Perform(s, first).reply == PaymentReply(p)
    ensures var y := Run(Step(s, first), mid);
      && Perform(y, again) == Outcome(y, PaymentReply(p))
      && p in Step(s, first).db.payments && p in y.db.payments
      && y.db.payments[p] == Step(s, first).db.payments[p] && y.db.payments[p].key == first.key
    ensures Run(s, [first] + mid + [again] + rest) == Run(s, [first] + mid + rest)
  {
    PaidKeyIsStored(s, first.pid, first.trip, first.amount, first.currency, first.key, p);
    StepKeepsGood(s, first);
    PaymentStays(Step(s, first), mid, p);
    StoredPaymentIsAnswered(Run(Step(s, first), mid), p, again.pid, again.trip, again.amount, again.currency);
    EraseStutter(s, first, mid, again, rest);
  }

  lemma PaymentStays(s: State, mid: seq<Event>, p: PaymentId)
    requires Good(s) && p in s.db.payments
    ensures var y := Run(s, mid).db.payments;
      UniquePaymentKeys(y) && p in y && y[p] == s.db.payments[p]
  {
    RunFreezes(s, mid);
    RunStaysGood(s, mid);
  }

  /** The answer to a request whose key is empty and stored already. */
  lemma EmptyRideKeyAnswer(s: State, rid: RideId, tid: TripId, order: Order, r: RideId)
    requires r in s.db.rides && s.db.rides[r].key == Some("")
    ensures CreateRide(s, rid, tid, order, Some(""))
            == Outcome(s, Refused(if HasActiveRide(s.db.rides, order.rider) then ActiveRide else UniqueViolation))
  {
  }

  /** Repeating a stored key is answered with the stored ride and its trip exactly when the key is not empty. */
  lemma RideKeyReplaysIff(s: State, events: seq<Event>, r: RideId, key: string, rid: RideId, tid: TripId, order: Order)
    requires Init(s) && r in Run(s, events).db.rides && Run(s, events).db.rides[r].key == Some(key)
    ensures var z := Run(s, events);
      var answer := CreateRide(z, rid, tid, order, Some(key));
      && TripOf(z.db.trips, r).Some?
      && (answer.reply == RideAndTrip(r, TripOf(z.db.trips, r).value) <==> key != "")
      && (key == "" ==>
            answer.reply == Refused(if HasActiveRide(z.db.rides, order.rider) then ActiveRide else UniqueViolation))
      && answer.state == z
  {
    RunIsGood(s, events);
    var z := Run(s, events);
    if key == "" {
      EmptyRideKeyAnswer(z, rid, tid, order, r);
    } else {
      assert RideByKey(z.db.rides, key) == Some(r);
    }
  }

  lemma EmptyPaymentKeyAnswer(s: State, p: PaymentId, pid: PaymentId, t: TripId, amount: real, currency: string)
    requires p in s.db.payments && s.db.payments[p].key == Some("")
    ensures InitiatePayment(s, pid, t, amount, currency, Some(""))
            == Outcome(s, Refused(if t !in s.db.trips then NotFound
                                  else if s.db.trips[t].status != TripStatus.Completed then TripNotCompleted
                                  else UniqueViolation))
  {
  }

  /** The same for payments. */
  lemma PaymentKeyReplaysIff(s: State, events: seq<Event>, p: PaymentId, key: string,
                             pid: PaymentId, t: TripId, amount: real, currency: string)
    requires Init(s) && p in Run(s, events).db.payments && Run(s, events).db.payments[p].key == Some(key)
    ensures var z := Run(s, events);
      var answer := InitiatePayment(z, pid, t, amount, currency, Some(key));
      && (answer.reply == PaymentReply(p) <==> key != "")
      && (key == "" ==> answer.reply == Refused(if t !in z.db.trips then NotFound
                                                else if z.db.trips[t].status != TripStatus.Completed
                                                then TripNotCompleted else UniqueViolation))
      && answer.state == z
  {
    RunIsGood(s, events);
    if key == "" {
      EmptyPaymentKeyAnswer(Run(s, events), p, pid, t, amount, currency);
    } else {
      StoredPaymentIsAnswered(Run(s, events), p, pid, t, amount, currency);
    }
  }

  // Drivers

  predicate OnRide(rides: map<RideId, Ride>, r: RideId, d: DriverId) {
    r in rides && Active(rides[r].status) && rides[r].driver == Some(d)
  }

  /** Each driver has at most one active ride and is busy while there is one. */
  ghost predicate Exclusive(db: Tables) {
    && (forall r, q, d :: OnRide(db.rides, r, d) && OnRide(db.rides, q, d) ==> r == q)
    && (forall r, d :: OnRide(db.rides, r, d) ==> d in db.drivers && db.drivers[d].status == Busy)
  }

  /** The driver declares another availability than busy in the middle of an active ride. */
  ghost predicate Disturbs(s: State, e: Event) {
    e.Availability? && e.status != Busy && exists r :: OnRide(s.db.rides, r, e.driver)
  }

  /** Only an online driver accepts, and an online driver has no active ride. */
  lemma AssignIsExclusive(db: Tables, d: DriverId, r: RideId, t: TripId)
    requires Exclusive(db) && r in db.rides && d in db.drivers && t in db.trips
    requires db.rides[r].driver.None? && db.drivers[d].status == Online
    ensures Exclusive(AssignRows(db, d, r, t))
  {
    var rides := AssignRows(db, d, r, t).rides;
    assert forall q, c :: OnRide(rides, q, c) ==> (q == r && c == d) || OnRide(db.rides, q, c);
  }

  lemma AcceptIsExclusive(s: State, d: DriverId, r: RideId, token: string)
    requires Good(s) && Exclusive(s.db)
    ensures Exclusive(AcceptOffer(s, d, r, token).state.db)
  {
    if AcceptOffer(s, d, r, token).reply.RideAndTrip? {
      AcceptedPair(s, d, r, token);
      AssignIsExclusive(s.db, d, r, TripOf(s.db.trips, r).value);
    }
  }

  lemma RideWriteIsExclusive(db: Tables, r: RideId, ride: Ride)
    requires Exclusive(db) && r in db.rides && RideContinues(db.rides[r], ride) && ride.driver == db.rides[r].driver
    ensures Exclusive(db.(rides := db.rides[r := ride]))
  {
    var rides := db.rides[r := ride];
    assert forall q, d :: OnRide(rides, q, d) ==> OnRide(db.rides, q, d);
  }

  lemma ProgressIsExclusive(db: Tables, t: TripId, trip: Trip)
    requires RowsOk(db.rides, db.trips, db.drivers.Keys) && Exclusive(db)
    requires TripGuard(db, t, TripStatus.InProgress).None? && trip.ride == db.trips[t].ride
    ensures Exclusive(PutPair(db, t, trip, db.rides[trip.ride].(status := RideStatus.InProgress)))
  {
    LegalRequestIsDriven(db, t, TripStatus.InProgress);
    RideWriteIsExclusive(db, trip.ride, db.rides[trip.ride].(status := RideStatus.InProgress));
  }

  lemma StartIsExclusive(s: State, t: TripId)
    requires RowsOk(s.db.rides, s.db.trips, s.db.drivers.Keys) && Exclusive(s.db)
    ensures Exclusive(StartTrip(s, t).state.db)
  {
    if TripGuard(s.db, t, TripStatus.InProgress).None? {
      ProgressWrites(s, t);
      ProgressIsExclusive(s.db, t, s.db.trips[t].(status := TripStatus.InProgress, startedAt := Some(s.now)));
    }
  }

  lemma ResumeIsExclusive(s: State, t: TripId)
    requires RowsOk(s.db.rides, s.db.trips, s.db.drivers.Keys) && Exclusive(s.db)
    ensures Exclusive(ResumeTrip(s, t).state.db)
  {
    if TripGuard(s.db, t, TripStatus.InProgress).None? {
      ProgressWrites(s, t);
      ProgressIsExclusive(s.db, t, s.db.trips[t].(status := TripStatus.InProgress, pausedAt := None));
    }
  }

  /** A driver whose only active ride ends may go online. */
  lemma FinishIsExclusive(db: Tables, r: RideId, d: DriverId)
    requires Exclusive(db) && OnRide(db.rides, r, d)
    ensures var rides := db.rides[r := db.rides[r].(status := RideStatus.Completed)];
      Exclusive(db.(rides := rides, drivers := FreeDriver(db.drivers, Some(d))))
  {
    var rides := db.rides[r := db.rides[r].(status := RideStatus.Completed)];
    assert forall q, c :: OnRide(rides, q, c) ==> q != r && OnRide(db.rides, q, c);
  }

  /** What ending a trip writes besides the trip row. */
  lemma EndWrites(s: State, t: TripId, quoted: Option<real>)
    requires TripGuard(s.db, t, TripStatus.Completed).None?
    ensures var r, z := s.db.trips[t].ride, EndTrip(s, t, quoted).state.db;
      && z.rides == s.db.rides[r := s.db.rides[r].(status := RideStatus.Completed)]
      && z.drivers == FreeDriver(s.db.drivers, s.db.rides[r].driver)
  {
  }

  lemma EndedRideWasActive(db: Tables, t: TripId)
    requires RowsOk(db.rides, db.trips, db.drivers.Keys) && TripGuard(db, t, TripStatus.Completed).None?
    ensures var r := db.trips[t].ride;
      db.rides[r].driver.Some? && OnRide(db.rides, r, db.rides[r].driver.value)
  {
    LegalRequestIsDriven(db, t, TripStatus.Completed);
  }

  lemma EndIsExclusive(s: State, t: TripId, quoted: Option<real>)
    requires RowsOk(s.db.rides, s.db.trips, s.db.drivers.Keys) && Exclusive(s.db)
    ensures Exclusive(EndTrip(s, t, quoted).state.db)
  {
    if TripGuard(s.db, t, TripStatus.Completed).None? {
      EndWrites(s, t, quoted);
      EndedRideWasActive(s.db, t);
      var r := s.db.trips[t].ride;
      FinishIsExclusive(s.db, r, s.db.rides[r].driver.value);
    }
  }

  lemma TripRequestIsExclusive(s: State, e: Event)
    requires RowsOk(s.db.rides, s.db.trips, s.db.drivers.Keys) && Exclusive(s.db) && TripRequest(e)
    ensures Exclusive(Step(s, e).db)
  {
    match e
    case Start(t) => StartIsExclusive(s, t);
    case Pause(_) => assert Step(s, e).db.rides == s.db.rides;
    case Resume(t) => ResumeIsExclusive(s, t);
    case End(t, quoted) => EndIsExclusive(s, t, quoted);
  }

  lemma CancelIsExclusive(s: State, rider: RiderId, r: RideId)
    requires Good(s) && Exclusive(s.db)
    ensures Exclusive(CancelRide(s, rider, r).state.db)
  {
    if CancelRide(s, rider, r).reply.Done? {
      RideWriteIsExclusive(s.db, r, s.db.rides[r].(status := RideStatus.Cancelled));
    }
  }

  lemma CreateIsExclusive(s: State, rid: RideId, tid: TripId, order: Order, key: Option<string>)
    requires Exclusive(s.db)
    ensures Exclusive(CreateRide(s, rid, tid, order, key).state.db)
  {
    var rides := CreateRide(s, rid, tid, order, key).state.db.rides;
    assert forall q, d :: OnRide(rides, q, d) ==> OnRide(s.db.rides, q, d);
  }

  lemma OthersAreExclusive(s: State, e: Event)
    requires Exclusive(s.db) && (e.Match? || e.Reject? || e.Tick?)
    ensures Exclusive(Step(s, e).db)
  {
    assert Step(s, e).db == s.db;
  }

  lemma PayIsExclusive(s: State, pid: PaymentId, t: TripId, amount: real, currency: string, key: Option<string>)
    requires Exclusive(s.db)
    ensures Exclusive(InitiatePayment(s, pid, t, amount, currency, key).state.db)
  {
  }

  /** One step breaks the exclusivity of drivers exactly when it disturbs an active ride. */
  lemma ExclusiveUnlessDisturbed(s: State, e: Event)
    requires Good(s) && Exclusive(s.db)
    ensures Exclusive(Step(s, e).db) <==> !Disturbs(s, e)
  {
    if e.Availability? {
      AvailabilityDisturbs(s, e.driver, e.status);
    } else if TripRequest(e) {
      TripRequestIsExclusive(s, e);
    } else if e.Create? {
      CreateIsExclusive(s, e.rid, e.tid, e.order, e.key);
    } else if e.Accept? {
      AcceptIsExclusive(s, e.driver, e.ride, e.token);
    } else if e.Cancel? {
      CancelIsExclusive(s, e.rider, e.ride);
    } else if e.Pay? {
      PayIsExclusive(s, e.pid, e.trip, e.amount, e.currency, e.key);
    } else {
      OthersAreExclusive(s, e);
    }
  }

  lemma AvailabilityDisturbs(s: State, d: DriverId, status: DriverStatus)
    requires Exclusive(s.db)
    ensures Exclusive(SetAvailability(s, d, status).state.db) <==> !Disturbs(s, Availability(d, status))
  {
    var z := SetAvailability(s, d, status).state.db;
    if r :| OnRide(s.db.rides, r, d) {
      assert OnRide(z.rides, r, d);
    }
  }

  /** Over a run without disturbances drivers stay exclusive. */
  lemma {:induction false} UndisturbedRunIsExclusive(s: State, events: seq<Event>)
    requires Init(s)
    requires forall i :: 0 <= i < |events| ==> !Disturbs(Run(s, events[..i]), events[i])
    ensures Exclusive(Run(s, events).db)
  {
    if events == [] {
    } else {
      var n := |events| - 1;
      var rest := events[..n];
      assert forall i :: 0 <= i < n ==> rest[..i] == events[..i];
      UndisturbedRunIsExclusive(s, rest);
      RunIsGood(s, rest);
      ExclusiveUnlessDisturbed(Run(s, rest), events[n]);
    }
  }

  lemma OnlyDriverIsOffered(s: State, d: DriverId, q: RideId, token: string)
    requires q in s.queue && Unmatched(s.db, q) && !LockLive(s, q)
    requires d in s.db.drivers && s.db.drivers[d].status == Online
    ensures var z := RunTask(s, q, Matching.Only(d), token, 60);
      && z.db == s.db && z.now == s.now && ForDriver(z.keys, d, z.now) == Some(Payload(q, d, token))
  {
    Matching.OnlyDriverIsChosen(d, s.db.drivers, s.db.rides[q].tier);
  }

  lemma RunThree(s: State, a: Event, b: Event, c: Event)
    ensures Run(s, [a, b, c]) == Step(Step(Step(s, a), b), c)
  {
    RunOne(s, a);
    RunOne(Step(s, a), b);
    RunOne(Step(Step(s, a), b), c);
    RunAppend(s, [a], [b]);
    RunAppend(s, [a] + [b], [c]);
    assert [a, b, c] == [a] + [b] + [c];
  }

  lemma AcceptBooks(s: State, d: DriverId, q: RideId, token: string)
    requires ForDriver(s.keys, d, s.now) == Some(Payload(q, d, token))
    requires AcceptRows(s.db, d, q).Success?
    ensures AcceptOffer(s, d, q, token).state.db == AcceptRows(s.db, d, q).value
    ensures OnRide(AcceptRows(s.db, d, q).value.rides, q, d)
    ensures forall r :: OnRide(s.db.rides, r, d) ==> r != q && OnRide(AcceptRows(s.db, d, q).value.rides, r, d)
  {
  }

  lemma OfferedDriverBooks(s: State, d: DriverId, r: RideId, q: RideId, token: string)
    requires OnRide(s.db.rides, r, d) && d in s.db.drivers && s.db.drivers[d].status == Online
    requires q in s.queue && Unmatched(s.db, q) && s.db.rides[q].driver.None? && !LockLive(s, q)
    ensures var z := AcceptOffer(RunTask(s, q, Matching.Only(d), token, 60), d, q, token).state;
      q != r && OnRide(z.db.rides, r, d) && OnRide(z.db.rides, q, d)
  {
    OnlyDriverIsOffered(s, d, q, token);
    AcceptBooks(RunTask(s, q, Matching.Only(d), token, 60), d, q, token);
  }

  lemma EventsAre(s: State, d: DriverId, q: RideId, token: string)
    ensures Step(s, Availability(d, Online)) == SetAvailability(s, d, Online).state
    ensures Step(s, Match(q, Matching.Only(d), token, 60)) == RunTask(s, q, Matching.Only(d), token, 60)
    ensures Step(s, Accept(d, q, token)) == AcceptOffer(s, d, q, token).state
  {
  }

  lemma BookingRun(s: State, d: DriverId, q: RideId, token: string)
    ensures Run(s, [Availability(d, Online), Match(q, Matching.Only(d), token, 60), Accept(d, q, token)])
            == AcceptOffer(RunTask(SetAvailability(s, d, Online).state, q, Matching.Only(d), token, 60),
                           d, q, token).state
  {
    var s1 := SetAvailability(s, d, Online).state;
    var s2 := RunTask(s1, q, Matching.Only(d), token, 60);
    RunThree(s, Availability(d, Online), Match(q, Matching.Only(d), token, 60), Accept(d, q, token));
    EventsAre(s, d, q, token);
    EventsAre(s1, d, q, token);
    EventsAre(s2, d, q, token);
  }

  /** The disturbance is real: going online mid-ride lets a waiting ride book the same driver twice. */
  lemma DisturbanceDoubleBooks(s: State, events: seq<Event>, d: DriverId, r: RideId, q: RideId, token: string)
    requires Init(s) && OnRide(Run(s, events).db.rides, r, d)
    requires q in Run(s, events).queue && Unmatched(Run(s, events).db, q)
    ensures var more := [Availability(d, Online), Match(q, Matching.Only(d), token, 60), Accept(d, q, token)];
      var z := Run(s, events + more);
      q != r && OnRide(z.db.rides, r, d) && OnRide(z.db.rides, q, d)
  {
    var y := Run(s, events);
    RunIsGood(s, events);
    NoAssignLockRemains(s, events);
    WaitingRideHasNoDriver(y.db, q);
    BookingRun(y, d, q, token);
    OfferedDriverBooks(SetAvailability(y, d, Online).state, d, r, q, token);
    RunAppend(s, events, [Availability(d, Online), Match(q, Matching.Only(d), token, 60), Accept(d, q, token)]);
  }

  // Runs from a fresh deployment

  /** A driver goes online, a ride is created, offered to the driver and accepted. */
  function Booking(d: DriverId, r: RideId, t: TripId, order: Order, token: string): seq<Event> {
    [Create(r, t, order, None)] + [Availability(d, Online), Match(r, Matching.Only(d), token, 60), Accept(d, r, token)]
  }

  /** A new ride with its trip and its task, and nothing else. */
  ghost predicate JustCreated(s: State, r: RideId, t: TripId, order: Order) {
    && s.db.rides == map[r := NewRide(order, None)] && s.db.trips == map[t := NewTrip(r)]
    && s.db.payments == map[] && s.queue == multiset{r} && s.locks == map[]
  }

  /** The same ride, assigned. */
  ghost predicate JustAssigned(s: State, d: DriverId, r: RideId, t: TripId, order: Order) {
    && s.db.rides == map[r := NewRide(order, None).(driver := Some(d), status := RideStatus.DriverAssigned)]
    && s.db.trips == map[t := NewTrip(r).(status := TripStatus.DriverAssigned)]
    && s.db.payments == map[] && s.queue == multiset{} && s.locks == map[]
  }

  lemma FirstCreate(s: State, r: RideId, t: TripId, order: Order)
    requires Init(s)
    ensures JustCreated(Step(s, Create(r, t, order, None)), r, t, order)
  {
  }

  lemma AcceptAssigns(s: State, d: DriverId, r: RideId, t: TripId, order: Order, token: string)
    requires JustCreated(s, r, t, order) && Matching.IsOnline(s.db.drivers, d)
    ensures JustAssigned(AcceptOffer(RunTask(s, r, Matching.Only(d), token, 60), d, r, token).state, d, r, t, order)
  {
    assert s.db.trips[t].ride == r;
    assert TripOf(s.db.trips, r) == Some(t);
    OnlyDriverIsOffered(s, d, r, token);
  }

  lemma BookingAssigns(s: State, d: DriverId, r: RideId, t: TripId, order: Order, token: string)
    requires Init(s)
    ensures JustAssigned(Run(s, Booking(d, r, t, order, token)), d, r, t, order)
  {
    var create := Create(r, t, order, None);
    var y := Step(s, create);
    RunAppend(s, [create], [Availability(d, Online), Match(r, Matching.Only(d), token, 60), Accept(d, r, token)]);
    RunOne(s, create);
    FirstCreate(s, r, t, order);
    BookingRun(y, d, r, token);
    AcceptAssigns(SetAvailability(y, d, Online).state, d, r, t, order, token);
  }

  /** The double booking from the start: a second rider's ride waits while the driver is on the first. */
  lemma DoubleBookingIsReachable(s: State, d: DriverId, r: RideId, t: TripId, order: Order, token: string,
                                 q: RideId, u: TripId, order': Order, token': string)
    requires Init(s) && q != r && u != t && order'.rider != order.rider
    ensures var events := Booking(d, r, t, order, token) + [Create(q, u, order', None)]
                          + [Availability(d, Online), Match(q, Matching.Only(d), token', 60), Accept(d, q, token')];
      OnRide(Run(s, events).db.rides, r, d) && OnRide(Run(s, events).db.rides, q, d)
  {
    var booking, create := Booking(d, r, t, order, token), Create(q, u, order', None);
    BookingAssigns(s, d, r, t, order, token);
    RunAppend(s, booking, [create]);
    RunOne(Run(s, booking), create);
    SecondCreate(Run(s, booking), d, r, t, order, q, u, order');
    DisturbanceDoubleBooks(s, booking + [create], d, r, q, token');
  }

  lemma SecondCreate(s: State, d: DriverId, r: RideId, t: TripId, order: Order, q: RideId, u: TripId, order': Order)
    requires JustAssigned(s, d, r, t, order) && q != r && u != t && order'.rider != order.rider
    ensures var z := Step(s, Create(q, u, order', None));
      OnRide(z.db.rides, r, d) && q in z.queue && Unmatched(z.db, q)
  {
    var z := Step(s, Create(q, u, order', None));
    assert u in z.db.trips && z.db.trips[u] == NewTrip(q) && z.db.trips[t].ride == r;
  }

  /** A second rider who sends the empty key is refused, although the key was accepted once. */
  lemma EmptyRideKeyIsRefused(s: State, r: RideId, t: TripId, order: Order, q: RideId, u: TripId, order': Order)
    requires Init(s) && order'.rider != order.rider
    ensures var first := Create(r, t, order, Some(""));
      && Perform(s, first).reply == RideAndTrip(r, t)
      && Perform(Step(s, first), Create(q, u, order', Some(""))).reply == Refused(UniqueViolation)
  {
    EmptyRideKeyAnswer(Step(s, Create(r, t, order, Some(""))), q, u, order', r);
  }

  lemma StartAndEnd(s: State, t: TripId)
    requires t in s.db.trips && s.db.trips[t].ride in s.db.rides && s.db.trips[t].status == TripStatus.DriverAssigned
    ensures var z := Step(Step(s, Start(t)), End(t, None)).db;
      t in z.trips && z.trips[t].status == TripStatus.Completed && z.payments == s.db.payments
  {
  }

  /** The same for payments: a trip is booked, driven and paid with the empty key, and a repeat is refused. */
  lemma EmptyPaymentKeyIsRefused(s: State, d: DriverId, r: RideId, t: TripId, order: Order, token: string,
                                 p: PaymentId, amount: real, currency: string, again: PaymentId)
    requires Init(s)
    ensures var y := Run(s, Booking(d, r, t, order, token) + [Start(t), End(t, None)]);
      var first := Pay(p, t, amount, currency, Some(""));
      && Perform(y, first).reply == PaymentReply(p)
      && Perform(Step(y, first), Pay(again, t, amount, currency, Some(""))).reply == Refused(UniqueViolation)
  {
    var booking := Booking(d, r, t, order, token);
    var x := Run(s, booking);
    BookingAssigns(s, d, r, t, order, token);
    RunAppend(s, booking, [Start(t), End(t, None)]);
    RunOne(x, Start(t));
    RunOne(Step(x, Start(t)), End(t, None));
    RunAppend(x, [Start(t)], [End(t, None)]);
    assert [Start(t)] + [End(t, None)] == [Start(t), End(t, None)];
    StartAndEnd(x, t);
    PayTwice(Step(Step(x, Start(t)), End(t, None)), t, p, amount, currency, again);
  }

  lemma PayTwice(s: State, t: TripId, p: PaymentId, amount: real, currency: string, again: PaymentId)
    requires t in s.db.trips && s.db.trips[t].status == TripStatus.Completed && s.db.payments == map[]
    ensures var first := Pay(p, t, amount, currency, Some(""));
      && Perform(s, first).reply == PaymentReply(p)
      && Perform(Step(s, first), Pay(again, t, amount, currency, Some(""))).reply == Refused(UniqueViolation)
  {
    NewPaymentIsSettled(p, t, amount, currency, Some(""));
    EmptyPaymentKeyAnswer(Step(s, Pay(p, t, amount, currency, Some(""))), p, again, t, amount, currency);
  }
}
