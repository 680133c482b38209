/** What every request and every task keeps when requests run one at a time. */
module Invariants {
  import opened Domain
  import opened Offers
  import opened Operations
  import TripFsm
  import Matching

  /** The ride status that goes with a trip status. */
  function RideStatusOf(status: TripStatus): RideStatus {
    if status == TripStatus.Requested then RideStatus.Requested
    else if status == TripStatus.Matching then RideStatus.Matching
    else TripFsm.AlignRideStatus(status).value
  }

  /** A trip with a driver on it, or that had one when it finished. */
  predicate Driven(status: TripStatus) {
    || status == TripStatus.DriverAssigned
    || status == TripStatus.InProgress
    || status == TripStatus.Paused
    || status == TripStatus.Completed
  }

  /** How a trip row and its ride row agree. */
  predicate PairOk(ride: Ride, trip: Trip, drivers: set<DriverId>) {
    && ride.status == RideStatusOf(trip.status)
    && (trip.status == TripStatus.Matching || trip.status == TripStatus.Cancelled || Driven(trip.status))
    && (trip.status == TripStatus.Matching ==> ride.driver.None?)
    && (Driven(trip.status) ==> ride.driver.Some?)
    && (ride.driver.Some? ==> ride.driver.value in drivers)
    && (trip.fare.Some? <==> trip.status == TripStatus.Completed)
    && (trip.endedAt.Some? <==> trip.status == TripStatus.Completed)
  }

  /** Every ride has exactly one trip, and the two rows agree. */
  ghost predicate RowsOk(rides: map<RideId, Ride>, trips: map<TripId, Trip>, drivers: set<DriverId>) {
    && OneTripPerRide(trips)
    && (forall r :: r in rides ==> TripOf(trips, r).Some?)
    && (forall t :: t in trips ==> trips[t].ride in rides && PairOk(rides[trips[t].ride], trips[t], drivers))
  }

  function LiveCount(keys: Keys, r: RideId, now: nat): nat {
    if RideKeyLive(keys, r, now) then 1 else 0
  }

  /** A live offer belongs to a ride that still waits for a driver. */
  ghost predicate OffersWait(rides: map<RideId, Ride>, keys: Keys, now: nat) {
    forall r :: RideKeyLive(keys, r, now) ==>
      && keys.byRide[r].payload.ride == r
      && r in rides && rides[r].status == RideStatus.Matching && rides[r].driver.None?
  }

  /** A live driver key leads to a live offer for that driver, with the same expiry. */
  ghost predicate IndexSound(keys: Keys, now: nat) {
    forall d :: DriverKeyLive(keys, d, now) ==>
      && RideKeyLive(keys, keys.byDriver[d].ride, now)
      && keys.byRide[keys.byDriver[d].ride].payload.driver == d
      && keys.byRide[keys.byDriver[d].ride].expires == keys.byDriver[d].expires
  }

  /** Conservation: a ride has one queued task or one live offer or neither. */
  ghost predicate OneBaton(rides: map<RideId, Ride>, keys: Keys, queue: multiset<RideId>, now: nat) {
    && (forall r :: r in queue ==> r in rides)
    && (forall r :: queue[r] + LiveCount(keys, r, now) <= 1)
  }

  ghost predicate OffersOk(rides: map<RideId, Ride>, keys: Keys, queue: multiset<RideId>, now: nat) {
    OffersWait(rides, keys, now) && IndexSound(keys, now) && OneBaton(rides, keys, queue, now)
  }

  /** A rider has at most one active ride. */
  ghost predicate OneActiveRide(rides: map<RideId, Ride>) {
    forall r, q :: (r in rides && q in rides && rides[r].rider == rides[q].rider
                    && Active(rides[r].status) && Active(rides[q].status)) ==> r == q
  }

  /** A settled payment names its provider reference exactly when it succeeded. */
  predicate Settled(p: PaymentId, payment: Payment) {
    || (payment.status == PaymentStatus.Succeeded && payment.reference == Some(p) && payment.declined.None?)
    || (payment.status == PaymentStatus.Failed && payment.reference.None? && payment.declined.Some?)
  }

  ghost predicate PaymentsOk(trips: map<TripId, Trip>, payments: map<PaymentId, Payment>) {
    && UniquePaymentKeys(payments)
    && forall p :: p in payments ==>
         && Settled(p, payments[p])
         && payments[p].trip in trips && trips[payments[p].trip].status == TripStatus.Completed
  }

  ghost predicate Good(s: State) {
    && RowsOk(s.db.rides, s.db.trips, s.db.drivers.Keys)
    && UniqueRideKeys(s.db.rides)
    && OneActiveRide(s.db.rides)
    && OffersOk(s.db.rides, s.keys, s.queue, s.now)
    && PaymentsOk(s.db.trips, s.db.payments)
  }

  // Rows

  lemma TripOfIs(trips: map<TripId, Trip>, t: TripId)
    requires OneTripPerRide(trips) && t in trips
    ensures TripOf(trips, trips[t].ride) == Some(t)
  {
  }

  lemma PutPairKeepsRows(rides: map<RideId, Ride>, trips: map<TripId, Trip>, drivers: set<DriverId>,
                         t: TripId, trip: Trip, ride: Ride, drivers': set<DriverId>)
    requires RowsOk(rides, trips, drivers) && drivers <= drivers'
    requires t in trips && trip.ride == trips[t].ride && PairOk(ride, trip, drivers')
    ensures RowsOk(rides[trip.ride := ride], trips[t := trip], drivers')
  {
    var rides', trips' := rides[trip.ride := ride], trips[t := trip];
    forall r | r in rides' ensures TripOf(trips', r).Some? {
      var u := TripOf(trips, r).value;
      assert u in trips' && trips'[u].ride == r;
    }
  }

  lemma PutRideKeepsRiderFacts(rides: map<RideId, Ride>, r: RideId, ride: Ride)
    requires UniqueRideKeys(rides) && OneActiveRide(rides) && r in rides
    requires ride.rider == rides[r].rider && ride.key == rides[r].key
    requires Active(ride.status) ==> Active(rides[r].status)
    ensures UniqueRideKeys(rides[r := ride]) && OneActiveRide(rides[r := ride])
  {
  }

  lemma InsertKeepsRows(db: Tables, rid: RideId, tid: TripId, order: Order, key: Option<string>)
    requires RowsOk(db.rides, db.trips, db.drivers.Keys)
    requires rid !in db.rides && tid !in db.trips
    ensures RowsOk(db.rides[rid := NewRide(order, key)], db.trips[tid := NewTrip(rid)], db.drivers.Keys)
  {
    var rides', trips' := db.rides[rid := NewRide(order, key)], db.trips[tid := NewTrip(rid)];
    forall r | r in rides' ensures TripOf(trips', r).Some? {
      if r == rid {
        assert trips'[tid].ride == rid;
      } else {
        var u := TripOf(db.trips, r).value;
        assert u in trips' && trips'[u].ride == r;
      }
    }
  }

  lemma InsertKeepsRiderFacts(rides: map<RideId, Ride>, rid: RideId, order: Order, key: Option<string>)
    requires UniqueRideKeys(rides) && OneActiveRide(rides)
    requires !HasActiveRide(rides, order.rider) && !RideKeyTaken(rides, key)
    ensures UniqueRideKeys(rides[rid := NewRide(order, key)]) && OneActiveRide(rides[rid := NewRide(order, key)])
  {
  }

  // Offers

  lemma RideWriteKeepsOffers(rides: map<RideId, Ride>, keys: Keys, queue: multiset<RideId>, now: nat, r: RideId,
                             ride: Ride)
    requires OffersOk(rides, keys, queue, now) && !RideKeyLive(keys, r, now)
    ensures OffersOk(rides[r := ride], keys, queue, now)
  {
  }

  lemma EnqueueKeepsOffers(rides: map<RideId, Ride>, keys: Keys, queue: multiset<RideId>, now: nat, r: RideId)
    requires OffersOk(rides, keys, queue, now) && r in rides && r !in queue && !RideKeyLive(keys, r, now)
    ensures OffersOk(rides, keys, queue + multiset{r}, now)
  {
  }

  /** Clearing an offer together with its own driver's key; the driver key may point at another ride. */
  lemma ClearKeepsOffers(rides: map<RideId, Ride>, keys: Keys, queue: multiset<RideId>, now: nat, r: RideId,
                         d: DriverId)
    requires OffersOk(rides, keys, queue, now)
    requires RideKeyLive(keys, r, now) && keys.byRide[r].payload.driver == d
    ensures OffersOk(rides, Clear(keys, r, d), queue, now)
    ensures !RideKeyLive(Clear(keys, r, d), r, now) && r in rides && r !in queue
  {
    assert queue[r] + LiveCount(keys, r, now) <= 1;
    var keys' := Clear(keys, r, d);
    forall q ensures queue[q] + LiveCount(keys', q, now) <= 1 {
      assert queue[q] + LiveCount(keys, q, now) <= 1;
    }
  }

  /** A task that stores an offer hands its place in the queue over to the offer. */
  lemma PutKeepsOffers(rides: map<RideId, Ride>, keys: Keys, queue: multiset<RideId>, now: nat, p: Payload, ttl: Ttl)
    requires OffersOk(rides, keys, queue, now) && p.ride in queue
    requires rides[p.ride].status == RideStatus.Matching && rides[p.ride].driver.None?
    ensures OffersOk(rides, Put(keys, p, ttl, now), queue - multiset{p.ride}, now)
  {
    assert queue[p.ride] + LiveCount(keys, p.ride, now) <= 1;
    var keys' := Put(keys, p, ttl, now);
    forall q ensures (queue - multiset{p.ride})[q] + LiveCount(keys', q, now) <= 1 {
      assert queue[q] + LiveCount(keys, q, now) <= 1;
    }
    forall d | DriverKeyLive(keys', d, now) && d != p.driver ensures keys.byDriver[d].ride != p.ride {
      assert DriverKeyLive(keys, d, now);
    }
  }

  lemma DequeueKeepsOffers(rides: map<RideId, Ride>, keys: Keys, queue: multiset<RideId>, now: nat, r: RideId)
    requires OffersOk(rides, keys, queue, now)
    ensures OffersOk(rides, keys, queue - multiset{r}, now)
  {
    forall q ensures (queue - multiset{r})[q] + LiveCount(keys, q, now) <= 1 {
      assert queue[q] + LiveCount(keys, q, now) <= 1;
    }
  }

  /** Equal expiries make both keys die together. */
  lemma TimeKeepsOffers(rides: map<RideId, Ride>, keys: Keys, queue: multiset<RideId>, now: nat, elapsed: nat)
    requires OffersOk(rides, keys, queue, now)
    ensures OffersOk(rides, keys, queue, now + elapsed)
  {
    assert forall r :: RideKeyLive(keys, r, now + elapsed) ==> RideKeyLive(keys, r, now);
    assert forall d :: DriverKeyLive(keys, d, now + elapsed) ==> DriverKeyLive(keys, d, now);
    forall q ensures queue[q] + LiveCount(keys, q, now + elapsed) <= 1 {
      assert queue[q] + LiveCount(keys, q, now) <= 1;
    }
  }

  /** What the driver's offer lookup can return. */
  lemma OfferLookupIsOwn(rides: map<RideId, Ride>, keys: Keys, queue: multiset<RideId>, now: nat, d: DriverId)
    requires OffersOk(rides, keys, queue, now) && ForDriver(keys, d, now).Some?
    ensures var p := ForDriver(keys, d, now).value;
      && p.driver == d && ForRide(keys, p.ride, now) == Some(p)
      && RideKeyLive(keys, p.ride, now) && keys.byRide[p.ride].payload == p
      && p.ride in rides && rides[p.ride].status == RideStatus.Matching && rides[p.ride].driver.None?
  {
    assert DriverKeyLive(keys, d, now);
  }

  // Payments

  lemma TripWriteKeepsPayments(trips: map<TripId, Trip>, payments: map<PaymentId, Payment>, t: TripId, trip: Trip)
    requires PaymentsOk(trips, payments) && t in trips && trips[t].status != TripStatus.Completed
    ensures PaymentsOk(trips[t := trip], payments)
  {
  }

  // Events

  /** Writes of keys, queue and assign locks leave the tables as good as they were. */
  lemma OfferWriteKeepsGood(s: State, z: State)
    requires Good(s) && OffersOk(s.db.rides, z.keys, z.queue, z.now) && z.db == s.db
    ensures Good(z)
  {
  }

  /** The rows and the task that a new ride adds. */
  ghost predicate Inserts(s: State, z: State, rid: RideId, tid: TripId, order: Order, key: Option<string>) {
    && rid !in s.db.rides && tid !in s.db.trips
    && !HasActiveRide(s.db.rides, order.rider) && !RideKeyTaken(s.db.rides, key)
    && z.db == s.db.(rides := s.db.rides[rid := NewRide(order, key)], trips := s.db.trips[tid := NewTrip(rid)])
    && z.keys == s.keys && z.now == s.now && z.queue == s.queue + multiset{rid}
  }

  lemma CreateInserts(s: State, rid: RideId, tid: TripId, order: Order, key: Option<string>)
    ensures var z := CreateRide(s, rid, tid, order, key).state; z == s || Inserts(s, z, rid, tid, order, key)
  {
  }

  lemma InsertKeepsOffers(rides: map<RideId, Ride>, keys: Keys, queue: multiset<RideId>, now: nat, rid: RideId,
                          ride: Ride)
    requires OffersOk(rides, keys, queue, now) && rid !in rides
    ensures OffersOk(rides[rid := ride], keys, queue + multiset{rid}, now)
  {
    assert !RideKeyLive(keys, rid, now);
    RideWriteKeepsOffers(rides, keys, queue, now, rid, ride);
    EnqueueKeepsOffers(rides[rid := ride], keys, queue, now, rid);
  }

  lemma InsertKeepsGood(s: State, z: State, rid: RideId, tid: TripId, order: Order, key: Option<string>)
    requires Good(s) && Inserts(s, z, rid, tid, order, key)
    ensures Good(z)
  {
    InsertKeepsRows(s.db, rid, tid, order, key);
    InsertKeepsRiderFacts(s.db.rides, rid, order, key);
    InsertKeepsOffers(s.db.rides, s.keys, s.queue, s.now, rid, NewRide(order, key));
  }

  lemma CreateKeepsGood(s: State, rid: RideId, tid: TripId, order: Order, key: Option<string>)
    requires Good(s)
    ensures Good(CreateRide(s, rid, tid, order, key).state)
  {
    var z := CreateRide(s, rid, tid, order, key).state;
    CreateInserts(s, rid, tid, order, key);
    if z != s {
      InsertKeepsGood(s, z, rid, tid, order, key);
    }
  }

  lemma TaskKeepsOffers(s: State, r: RideId, raw: seq<Matching.Member>, token: string, ttl: Ttl)
    requires OffersOk(s.db.rides, s.keys, s.queue, s.now)
    requires r in s.db.rides && s.db.rides[r].status == RideStatus.Matching ==> s.db.rides[r].driver.None?
    ensures var z := RunTask(s, r, raw, token, ttl);
      z.db == s.db && OffersOk(s.db.rides, z.keys, z.queue, z.now)
  {
    if r in s.queue {
      DequeueKeepsOffers(s.db.rides, s.keys, s.queue, s.now, r);
      var chosen := Matching.Choose(Matching.Parse(raw), s.db.drivers, s.db.rides[r].tier);
      if Unmatched(s.db, r) && chosen.Some? {
        PutKeepsOffers(s.db.rides, s.keys, s.queue, s.now, Payload(r, chosen.value, token), ttl);
      }
    }
  }

  lemma WaitingRideHasNoDriver(db: Tables, r: RideId)
    requires RowsOk(db.rides, db.trips, db.drivers.Keys) && r in db.rides && db.rides[r].status == RideStatus.Matching
    ensures db.rides[r].driver.None?
  {
    WaitingRideHasWaitingTrip(db, r);
  }

  lemma MatchKeepsGood(s: State, r: RideId, raw: seq<Matching.Member>, token: string, ttl: Ttl)
    requires Good(s)
    ensures Good(RunTask(s, r, raw, token, ttl))
  {
    if r in s.db.rides && s.db.rides[r].status == RideStatus.Matching {
      WaitingRideHasNoDriver(s.db, r);
    }
    TaskKeepsOffers(s, r, raw, token, ttl);
    OfferWriteKeepsGood(s, RunTask(s, r, raw, token, ttl));
  }

  /** What a successful accept finds and writes. */
  lemma AcceptedPair(s: State, d: DriverId, r: RideId, token: string)
    requires Good(s) && AcceptOffer(s, d, r, token).reply.RideAndTrip?
    ensures r in s.db.rides && TripOf(s.db.trips, r).Some? && d in s.db.drivers
    ensures var t := TripOf(s.db.trips, r).value;
      && s.db.rides[r].status == RideStatus.Matching && s.db.rides[r].driver.None?
      && s.db.trips[t].status == TripStatus.Matching && s.db.trips[t].fare.None? && s.db.trips[t].endedAt.None?
      && s.db.drivers[d].status == Online
      && RideKeyLive(s.keys, r, s.now) && s.keys.byRide[r].payload.driver == d
      && AcceptOffer(s, d, r, token).state == s.(db := AssignRows(s.db, d, r, t), keys := Clear(s.keys, r, d))
  {
    OfferLookupIsOwn(s.db.rides, s.keys, s.queue, s.now, d);
    WaitingRideHasWaitingTrip(s.db, r);
  }

  lemma WaitingRideHasWaitingTrip(db: Tables, r: RideId)
    requires RowsOk(db.rides, db.trips, db.drivers.Keys) && r in db.rides && db.rides[r].status == RideStatus.Matching
    ensures TripOf(db.trips, r).Some? && Unmatched(db, r)
    ensures var trip := db.trips[TripOf(db.trips, r).value]; trip.fare.None? && trip.endedAt.None?
  {
    assert PairOk(db.rides[r], db.trips[TripOf(db.trips, r).value], db.drivers.Keys);
  }

  lemma AssignKeepsRows(db: Tables, d: DriverId, r: RideId, t: TripId)
    requires RowsOk(db.rides, db.trips, db.drivers.Keys)
    requires r in db.rides && d in db.drivers && TripOf(db.trips, r) == Some(t)
    requires db.trips[t].status == TripStatus.Matching
    ensures var z := AssignRows(db, d, r, t); RowsOk(z.rides, z.trips, z.drivers.Keys)
  {
    var ride := db.rides[r].(driver := Some(d), status := RideStatus.DriverAssigned);
    var trip := db.trips[t].(status := TripStatus.DriverAssigned);
    assert PairOk(db.rides[r], db.trips[t], db.drivers.Keys);
    PutPairKeepsRows(db.rides, db.trips, db.drivers.Keys, t, trip, ride, db.drivers.Keys);
    assert AssignRows(db, d, r, t).drivers.Keys == db.drivers.Keys;
  }

  lemma AcceptKeepsGood(s: State, d: DriverId, r: RideId, token: string)
    requires Good(s)
    ensures Good(AcceptOffer(s, d, r, token).state)
  {
    if AcceptOffer(s, d, r, token).reply.RideAndTrip? {
      AcceptedPair(s, d, r, token);
      var t := TripOf(s.db.trips, r).value;
      var ride := s.db.rides[r].(driver := Some(d), status := RideStatus.DriverAssigned);
      AssignKeepsRows(s.db, d, r, t);
      PutRideKeepsRiderFacts(s.db.rides, r, ride);
      ClearKeepsOffers(s.db.rides, s.keys, s.queue, s.now, r, d);
      RideWriteKeepsOffers(s.db.rides, Clear(s.keys, r, d), s.queue, s.now, r, ride);
      TripWriteKeepsPayments(s.db.trips, s.db.payments, t, s.db.trips[t].(status := TripStatus.DriverAssigned));
    }
  }

  lemma RejectKeepsGood(s: State, d: DriverId, r: RideId)
    requires Good(s)
    ensures Good(RejectOffer(s, d, r).state)
  {
    var s' := RejectOffer(s, d, r).state;
    if s' != s {
      OfferLookupIsOwn(s.db.rides, s.keys, s.queue, s.now, d);
      ClearKeepsOffers(s.db.rides, s.keys, s.queue, s.now, r, d);
      EnqueueKeepsOffers(s.db.rides, s'.keys, s.queue, s.now, r);
    }
  }

  lemma CancelledPair(ride: Ride, trip: Trip, drivers: set<DriverId>)
    requires PairOk(ride, trip, drivers)
    requires ride.status != RideStatus.Completed && ride.status != RideStatus.Cancelled
    ensures !TripFsm.Terminal(trip.status)
    ensures PairOk(ride.(status := RideStatus.Cancelled), trip.(status := TripStatus.Cancelled), drivers)
  {
  }

  lemma CancelRowsKeepsRows(db: Tables, r: RideId)
    requires RowsOk(db.rides, db.trips, db.drivers.Keys) && r in db.rides
    requires db.rides[r].status != RideStatus.Completed && db.rides[r].status != RideStatus.Cancelled
    ensures var t := TripOf(db.trips, r).value;
      var trip := db.trips[t].(status := TripStatus.Cancelled);
      var ride := db.rides[r].(status := RideStatus.Cancelled);
      && !TripFsm.Terminal(db.trips[t].status) && trip.ride == r
      && CancelRows(db, r, Some(t)) == PutPair(db, t, trip, ride)
      && RowsOk(db.rides[r := ride], db.trips[t := trip], db.drivers.Keys)
  {
    var t := TripOf(db.trips, r).value;
    CancelledPair(db.rides[r], db.trips[t], db.drivers.Keys);
    var trip := db.trips[t].(status := TripStatus.Cancelled);
    var ride := db.rides[r].(status := RideStatus.Cancelled);
    PutPairKeepsRows(db.rides, db.trips, db.drivers.Keys, t, trip, ride, db.drivers.Keys);
  }

  lemma CancelKeepsGood(s: State, rider: RiderId, r: RideId)
    requires Good(s)
    ensures Good(CancelRide(s, rider, r).state)
  {
    if r in s.db.rides && s.db.rides[r].rider == rider {
      var offer := ForRide(s.keys, r, s.now);
      var keys := if offer.Some? then Clear(s.keys, r, offer.value.driver) else s.keys;
      if offer.Some? {
        ClearKeepsOffers(s.db.rides, s.keys, s.queue, s.now, r, offer.value.driver);
      }
      assert OffersOk(s.db.rides, keys, s.queue, s.now) && !RideKeyLive(keys, r, s.now);
      var status := s.db.rides[r].status;
      if status != RideStatus.Completed && status != RideStatus.Cancelled {
        var t := TripOf(s.db.trips, r).value;
        CancelRowsKeepsRows(s.db, r);
        PutRideKeepsRiderFacts(s.db.rides, r, s.db.rides[r].(status := RideStatus.Cancelled));
        RideWriteKeepsOffers(s.db.rides, keys, s.queue, s.now, r, s.db.rides[r].(status := RideStatus.Cancelled));
        TripWriteKeepsPayments(s.db.trips, s.db.payments, t, s.db.trips[t].(status := TripStatus.Cancelled));
      }
    }
  }

  lemma AvailabilityKeepsGood(s: State, d: DriverId, status: DriverStatus)
    requires Good(s)
    ensures Good(SetAvailability(s, d, status).state)
  {
    var s' := SetAvailability(s, d, status).state;
    assert s.db.drivers.Keys <= s'.db.drivers.Keys;
    forall t | t in s.db.trips
      ensures PairOk(s.db.rides[s.db.trips[t].ride], s.db.trips[t], s'.db.drivers.Keys)
    {
      assert PairOk(s.db.rides[s.db.trips[t].ride], s.db.trips[t], s.db.drivers.Keys);
    }
  }

  /** The rows behind a trip request that the state machine lets through. */
  lemma LegalRequestIsDriven(db: Tables, t: TripId, next: TripStatus)
    requires RowsOk(db.rides, db.trips, db.drivers.Keys) && TripGuard(db, t, next).None?
    requires next == TripStatus.InProgress || next == TripStatus.Paused || next == TripStatus.Completed
    ensures Driven(db.trips[t].status) && db.trips[t].status != TripStatus.Completed
    ensures PairOk(db.rides[db.trips[t].ride], db.trips[t], db.drivers.Keys)
  {
    assert PairOk(db.rides[db.trips[t].ride], db.trips[t], db.drivers.Keys);
  }

  /** A trip request writes a pair that agrees and whose ride has no live offer. */
  lemma TripWriteKeepsGood(s: State, t: TripId, trip: Trip, ride: Ride, drivers: map<DriverId, Driver>, z: State)
    requires Good(s) && t in s.db.trips && trip.ride == s.db.trips[t].ride && trip.ride in s.db.rides
    requires PairOk(s.db.rides[trip.ride], s.db.trips[t], s.db.drivers.Keys)
    requires Driven(s.db.trips[t].status) && s.db.trips[t].status != TripStatus.Completed
    requires ride == s.db.rides[trip.ride].(status := ride.status)
    requires PairOk(ride, trip, s.db.drivers.Keys) && drivers.Keys == s.db.drivers.Keys
    requires z == s.(db := PutPair(s.db, t, trip, ride).(drivers := drivers))
    ensures Good(z)
  {
    var r := trip.ride;
    assert !RideKeyLive(s.keys, r, s.now);
    PutPairKeepsRows(s.db.rides, s.db.trips, s.db.drivers.Keys, t, trip, ride, s.db.drivers.Keys);
    PutRideKeepsRiderFacts(s.db.rides, r, ride);
    RideWriteKeepsOffers(s.db.rides, s.keys, s.queue, s.now, r, ride);
    TripWriteKeepsPayments(s.db.trips, s.db.payments, t, trip);
  }

  lemma ProgressKeepsGood(s: State, t: TripId, trip: Trip)
    requires Good(s) && TripGuard(s.db, t, TripStatus.InProgress).None?
    requires trip
             == s.db.trips[t].(status := TripStatus.InProgress, startedAt := trip.startedAt, pausedAt := trip.pausedAt)
    ensures Good(s.(db := PutPair(s.db, t, trip, s.db.rides[trip.ride].(status := RideStatus.InProgress))))
  {
    LegalRequestIsDriven(s.db, t, TripStatus.InProgress);
    var ride := s.db.rides[trip.ride].(status := RideStatus.InProgress);
    TripWriteKeepsGood(s, t, trip, ride, s.db.drivers, s.(db := PutPair(s.db, t, trip, ride)));
  }

  /** Starting and resuming differ in the time they record, not in the statuses. */
  lemma ProgressWrites(s: State, t: TripId)
    requires TripGuard(s.db, t, TripStatus.InProgress).None?
    ensures var row := s.db.trips[t].(status := TripStatus.InProgress);
      var ride := s.db.rides[s.db.trips[t].ride].(status := RideStatus.InProgress);
      && StartTrip(s, t).state == s.(db := PutPair(s.db, t, row.(startedAt := Some(s.now)), ride))
      && ResumeTrip(s, t).state == s.(db := PutPair(s.db, t, row.(pausedAt := None), ride))
  {
  }

  lemma StartKeepsGood(s: State, t: TripId)
    requires Good(s)
    ensures Good(StartTrip(s, t).state)
  {
    if TripGuard(s.db, t, TripStatus.InProgress).None? {
      ProgressWrites(s, t);
      ProgressKeepsGood(s, t, s.db.trips[t].(status := TripStatus.InProgress, startedAt := Some(s.now)));
    }
  }

  /** Pausing writes the trip; the ride row is put back as it was. */
  lemma PauseIsPutPair(db: Tables, t: TripId, trip: Trip)
    requires t in db.trips && trip.ride == db.trips[t].ride && trip.ride in db.rides
    ensures db.(trips := db.trips[t := trip]) == PutPair(db, t, trip, db.rides[trip.ride])
  {
    assert db.rides == db.rides[trip.ride := db.rides[trip.ride]];
  }

  lemma PauseWrites(s: State, t: TripId)
    requires TripGuard(s.db, t, TripStatus.Paused).None?
    ensures var trip := s.db.trips[t].(status := TripStatus.Paused, pausedAt := Some(s.now));
      PauseTrip(s, t).state == s.(db := PutPair(s.db, t, trip, s.db.rides[trip.ride]).(drivers := s.db.drivers))
  {
    PauseIsPutPair(s.db, t, s.db.trips[t].(status := TripStatus.Paused, pausedAt := Some(s.now)));
  }

  lemma PausedPair(db: Tables, t: TripId, now: nat)
    requires RowsOk(db.rides, db.trips, db.drivers.Keys) && TripGuard(db, t, TripStatus.Paused).None?
    ensures var ride := db.rides[db.trips[t].ride];
      && PairOk(ride, db.trips[t], db.drivers.Keys) && db.trips[t].status == TripStatus.InProgress
      && PairOk(ride, db.trips[t].(status := TripStatus.Paused, pausedAt := Some(now)), db.drivers.Keys)
  {
    LegalRequestIsDriven(db, t, TripStatus.Paused);
  }

  lemma PauseKeepsGood(s: State, t: TripId)
    requires Good(s)
    ensures Good(PauseTrip(s, t).state)
  {
    if TripGuard(s.db, t, TripStatus.Paused).None? {
      PausedPair(s.db, t, s.now);
      PauseWrites(s, t);
      var trip := s.db.trips[t].(status := TripStatus.Paused, pausedAt := Some(s.now));
      TripWriteKeepsGood(s, t, trip, s.db.rides[trip.ride], s.db.drivers, PauseTrip(s, t).state);
    }
  }

  lemma ResumeKeepsGood(s: State, t: TripId)
    requires Good(s)
    ensures Good(ResumeTrip(s, t).state)
  {
    if TripGuard(s.db, t, TripStatus.InProgress).None? {
      ProgressWrites(s, t);
      ProgressKeepsGood(s, t, s.db.trips[t].(status := TripStatus.InProgress, pausedAt := None));
    }
  }

  lemma CompletedPair(db: Tables, t: TripId, fare: real, ended: nat)
    requires RowsOk(db.rides, db.trips, db.drivers.Keys) && TripGuard(db, t, TripStatus.Completed).None?
    ensures var ride := db.rides[db.trips[t].ride];
      var trip := db.trips[t].(fare := Some(fare), status := TripStatus.Completed, endedAt := Some(ended));
      && PairOk(ride, db.trips[t], db.drivers.Keys) && db.trips[t].status == TripStatus.InProgress
      && PairOk(ride.(status := RideStatus.Completed), trip, db.drivers.Keys)
  {
    LegalRequestIsDriven(db, t, TripStatus.Completed);
  }

  /** Completion keeps everything, whatever the fare. */
  lemma CompletionKeepsGood(s: State, t: TripId, fare: real, ended: nat)
    requires Good(s) && TripGuard(s.db, t, TripStatus.Completed).None?
    ensures var ride := s.db.rides[s.db.trips[t].ride];
      var trip := s.db.trips[t].(fare := Some(fare), status := TripStatus.Completed, endedAt := Some(ended));
      var db := PutPair(s.db, t, trip, ride.(status := RideStatus.Completed));
      Good(s.(db := db.(drivers := FreeDriver(db.drivers, ride.driver))))
  {
    CompletedPair(s.db, t, fare, ended);
    var ride := s.db.rides[s.db.trips[t].ride];
    var trip := s.db.trips[t].(fare := Some(fare), status := TripStatus.Completed, endedAt := Some(ended));
    var drivers := FreeDriver(s.db.drivers, ride.driver);
    var db := PutPair(s.db, t, trip, ride.(status := RideStatus.Completed));
    TripWriteKeepsGood(s, t, trip, ride.(status := RideStatus.Completed), drivers, s.(db := db.(drivers := drivers)));
  }

  lemma EndKeepsGood(s: State, t: TripId, quoted: Option<real>)
    requires Good(s)
    ensures Good(EndTrip(s, t, quoted).state)
  {
    if TripGuard(s.db, t, TripStatus.Completed).None? {
      CompletionKeepsGood(s, t, FareOf(s.db.rides[s.db.trips[t].ride], quoted), s.now);
    }
  }

  lemma InsertKeepsPayments(trips: map<TripId, Trip>, payments: map<PaymentId, Payment>, p: PaymentId, payment: Payment)
    requires PaymentsOk(trips, payments) && Settled(p, payment) && !PaymentKeyTaken(payments, payment.key)
    requires payment.trip in trips && trips[payment.trip].status == TripStatus.Completed
    ensures PaymentsOk(trips, payments[p := payment])
  {
  }

  lemma NewPaymentIsSettled(pid: PaymentId, t: TripId, amount: real, currency: string, key: Option<string>)
    ensures var payment := NewPayment(pid, t, amount, currency, key);
      Settled(pid, payment) && payment.trip == t && payment.key == key
  {
  }

  lemma PayKeepsPayments(s: State, pid: PaymentId, t: TripId, amount: real, currency: string, key: Option<string>)
    requires PaymentsOk(s.db.trips, s.db.payments)
    ensures var z := InitiatePayment(s, pid, t, amount, currency, key).state;
      z == s.(db := s.db.(payments := z.db.payments)) && PaymentsOk(s.db.trips, z.db.payments)
  {
    if InitiatePayment(s, pid, t, amount, currency, key).state != s {
      NewPaymentIsSettled(pid, t, amount, currency, key);
      InsertKeepsPayments(s.db.trips, s.db.payments, pid, NewPayment(pid, t, amount, currency, key));
    }
  }

  lemma PaymentWriteKeepsGood(s: State, z: State)
    requires Good(s) && z == s.(db := s.db.(payments := z.db.payments)) && PaymentsOk(s.db.trips, z.db.payments)
    ensures Good(z)
  {
  }

  lemma PayKeepsGood(s: State, pid: PaymentId, t: TripId, amount: real, currency: string, key: Option<string>)
    requires Good(s)
    ensures Good(InitiatePayment(s, pid, t, amount, currency, key).state)
  {
    PayKeepsPayments(s, pid, t, amount, currency, key);
    PaymentWriteKeepsGood(s, InitiatePayment(s, pid, t, amount, currency, key).state);
  }

  lemma TickKeepsOffers(s: State, elapsed: nat)
    requires OffersOk(s.db.rides, s.keys, s.queue, s.now)
    ensures var z := Step(s, Tick(elapsed)); z.db == s.db && OffersOk(s.db.rides, z.keys, z.queue, z.now)
  {
    TimeKeepsOffers(s.db.rides, s.keys, s.queue, s.now, elapsed);
  }

  lemma TickKeepsGood(s: State, elapsed: nat)
    requires Good(s)
    ensures Good(Step(s, Tick(elapsed)))
  {
    TickKeepsOffers(s, elapsed);
    OfferWriteKeepsGood(s, Step(s, Tick(elapsed)));
  }

  lemma TripRequestKeepsGood(s: State, e: Event)
    requires Good(s) && TripRequest(e)
    ensures Good(Step(s, e))
  {
    match e
    case Start(t) => StartKeepsGood(s, t);
    case Pause(t) => PauseKeepsGood(s, t);
    case Resume(t) => ResumeKeepsGood(s, t);
    case End(t, quoted) => EndKeepsGood(s, t, quoted);
  }

  lemma DriverRequestKeepsGood(s: State, e: Event)
    requires Good(s) && DriverRequest(e)
    ensures Good(Step(s, e))
  {
    match e
    case Accept(d, r, token) => AcceptKeepsGood(s, d, r, token);
    case Reject(d, r) => RejectKeepsGood(s, d, r);
    case Availability(d, status) => AvailabilityKeepsGood(s, d, status);
  }

  lemma RideEventKeepsGood(s: State, e: Event)
    requires Good(s) && RideEvent(e)
    ensures Good(Step(s, e))
  {
    match e
    case Create(rid, tid, order, key) => CreateKeepsGood(s, rid, tid, order, key);
    case Match(r, raw, token, ttl) => MatchKeepsGood(s, r, raw, token, ttl);
    case Cancel(rider, r) => CancelKeepsGood(s, rider, r);
  }

  lemma StepKeepsGood(s: State, e: Event)
    requires Good(s)
    ensures Good(Step(s, e))
  {
    if TripRequest(e) {
      TripRequestKeepsGood(s, e);
    } else if DriverRequest(e) {
      DriverRequestKeepsGood(s, e);
    } else if RideEvent(e) {
      RideEventKeepsGood(s, e);
    } else if e.Pay? {
      PayKeepsGood(s, e.pid, e.trip, e.amount, e.currency, e.key);
    } else {
      TickKeepsGood(s, e.elapsed);
    }
  }

  /** Every reachable state is good. */
  lemma {:induction false} RunIsGood(s: State, events: seq<Event>)
    requires Init(s)
    ensures Good(Run(s, events))
  {
    if events == [] {
    } else {
      RunIsGood(s, events[..|events| - 1]);
      StepKeepsGood(Run(s, events[..|events| - 1]), events[|events| - 1]);
    }
  }
}
