/**
 * What each request and each matching task does to the tables, the offer keys, the assign locks and the task
 * queue when it runs alone. Random ids, tokens and the GEO answer are parameters, so a run of the
 * service is a fold over a list of events.
 */
module Operations {
  import opened Domain
  import opened Offers
  import TripFsm
  import Matching
  import Pricing

  datatype State = State(
    db: Tables,
    keys: Keys,
    locks: map<RideId, nat>,
    queue: multiset<RideId>,
    now: nat)

  datatype Reply =
    | RideAndTrip(ride: RideId, trip: TripId)
    | TripReply(trip: TripId)
    | PaymentReply(payment: PaymentId)
    | DriverReply(driver: DriverId)
    | Done
    | Refused(error: Error)

  datatype Outcome = Outcome(state: State, reply: Reply)

  /** The fields of a ride that the rider chooses. */
  datatype Order = Order(rider: RiderId, distance: Km, tier: Tier, zone: Option<string>, surge: Option<real>)

  predicate Active(status: RideStatus) {
    || status == RideStatus.Requested
    || status == RideStatus.Matching
    || status == RideStatus.DriverAssigned
    || status == RideStatus.DriverArriving
    || status == RideStatus.InProgress
  }

  predicate HasActiveRide(rides: map<RideId, Ride>, rider: RiderId) {
    exists r :: r in rides && rides[r].rider == rider && Active(rides[r].status)
  }

  /** An empty key is falsy: it is stored, but never looked up. */
  predicate Replays(key: Option<string>) {
    key.Some? && key.value != ""
  }

  predicate RideKeyTaken(rides: map<RideId, Ride>, key: Option<string>) {
    key.Some? && exists r :: r in rides && rides[r].key == key
  }

  predicate PaymentKeyTaken(payments: map<PaymentId, Payment>, key: Option<string>) {
    key.Some? && exists p :: p in payments && payments[p].key == key
  }

  function NewRide(order: Order, key: Option<string>): Ride {
    Ride(order.rider, None, RideStatus.Matching, order.tier, order.distance, order.zone, order.surge, key)
  }

  function NewTrip(r: RideId): Trip {
    Trip(r, TripStatus.Matching, None, None, None, None)
  }

  ghost function CreateRide(s: State, rid: RideId, tid: TripId, order: Order, key: Option<string>): Outcome {
    if Replays(key) && RideByKey(s.db.rides, key.value).Some? then
      var r := RideByKey(s.db.rides, key.value).value;
      var t := TripOf(s.db.trips, r);
      Outcome(s, if t.None? then Refused(DataInconsistency) else RideAndTrip(r, t.value))
    else if HasActiveRide(s.db.rides, order.rider) then Outcome(s, Refused(ActiveRide))
    else if rid in s.db.rides || RideKeyTaken(s.db.rides, key)
         || tid in s.db.trips || TripOf(s.db.trips, rid).Some? then Outcome(s, Refused(UniqueViolation))
    else
      var rides := s.db.rides[rid := NewRide(order, key)];
      var trips := s.db.trips[tid := NewTrip(rid)];
      Outcome(s.(db := s.db.(rides := rides, trips := trips), queue := s.queue + multiset{rid}),
              RideAndTrip(rid, tid))
  }

  predicate LockLive(s: State, r: RideId) {
    r in s.locks && s.now < s.locks[r]
  }

  /** Both rows still wait for a driver. */
  ghost predicate Unmatched(db: Tables, r: RideId) {
    && r in db.rides && TripOf(db.trips, r).Some?
    && db.rides[r].status == RideStatus.Matching
    && db.trips[TripOf(db.trips, r).value].status == TripStatus.Matching
  }

  /** The matching task, given the answer of the GEO search. */
  ghost function MatchRide(s: State, r: RideId, raw: seq<Matching.Member>, token: string, ttl: Ttl): State {
    if !Unmatched(s.db, r) then s
    else
      var chosen := Matching.Choose(Matching.Parse(raw), s.db.drivers, s.db.rides[r].tier);
      if chosen.None? || LockLive(s, r) then s
      else s.(keys := Put(s.keys, Payload(r, chosen.value, token), ttl, s.now), locks := s.locks - {r})
  }

  /** The writes of accept_offer's transaction. */
  function AssignRows(db: Tables, d: DriverId, r: RideId, t: TripId): Tables
    requires r in db.rides && d in db.drivers && t in db.trips
  {
    db.(rides := db.rides[r := db.rides[r].(driver := Some(d), status := RideStatus.DriverAssigned)],
        drivers := db.drivers[d := db.drivers[d].(status := Busy)],
        trips := db.trips[t := db.trips[t].(status := TripStatus.DriverAssigned)])
  }

  /** The transaction of accept_offer: it looks at the driver columns, not at the ride status. */
  ghost function AcceptRows(db: Tables, d: DriverId, r: RideId): Result<Tables> {
    var t := TripOf(db.trips, r);
    if r !in db.rides || d !in db.drivers || t.None? then Failure(NotFound)
    else if db.rides[r].driver.Some? then Failure(AlreadyAssigned)
    else if db.drivers[d].status != Online then Failure(DriverNotOnline)
    else Success(AssignRows(db, d, r, t.value))
  }

  ghost function AcceptOffer(s: State, d: DriverId, r: RideId, token: string): Outcome {
    var offer := ForDriver(s.keys, d, s.now);
    if offer.None? || offer.value.ride != r || offer.value.token != token then Outcome(s, Refused(InvalidOffer))
    else
      var rows := AcceptRows(s.db, d, r);
      if rows.Failure? then Outcome(s, Refused(rows.error))
      else Outcome(s.(db := rows.value, keys := Clear(s.keys, r, d)), RideAndTrip(r, TripOf(s.db.trips, r).value))
  }

  function RejectOffer(s: State, d: DriverId, r: RideId): Outcome {
    var offer := ForDriver(s.keys, d, s.now);
    if offer.None? || offer.value.ride != r then Outcome(s, Refused(NoPendingOffer))
    else Outcome(s.(keys := Clear(s.keys, r, d), queue := s.queue + multiset{r}), Done)
  }

  /** cancel_ride guards the ride and the trip separately. */
  function CancelRows(db: Tables, r: RideId, t: Option<TripId>): Tables
    requires r in db.rides && (t.Some? ==> t.value in db.trips)
  {
    var rides := db.rides[r := db.rides[r].(status := RideStatus.Cancelled)];
    var trips :=
      if t.Some? && !TripFsm.Terminal(db.trips[t.value].status)
      then db.trips[t.value := db.trips[t.value].(status := TripStatus.Cancelled)] else db.trips;
    db.(rides := rides, trips := trips)
  }

  /** The cancel endpoint clears the offer first, whatever comes after. */
  ghost function CancelRide(s: State, rider: RiderId, r: RideId): Outcome {
    if r !in s.db.rides || s.db.rides[r].rider != rider then Outcome(s, Refused(NotFound))
    else
      var offer := ForRide(s.keys, r, s.now);
      var s1 := if offer.Some? then s.(keys := Clear(s.keys, r, offer.value.driver)) else s;
      var status := s.db.rides[r].status;
      if status == RideStatus.Completed || status == RideStatus.Cancelled then Outcome(s1, Refused(NotCancellable))
      else Outcome(s1.(db := CancelRows(s.db, r, TripOf(s.db.trips, r))), Done)
  }

  function SetAvailability(s: State, d: DriverId, status: DriverStatus): Outcome {
    var row := if d in s.db.drivers then s.db.drivers[d] else Driver(Offline, Standard, None);
    Outcome(s.(db := s.db.(drivers := s.db.drivers[d := row.(status := status)])), DriverReply(d))
  }

  function WithStatus(ride: Ride, status: Option<RideStatus>): Ride {
    if status.Some? then ride.(status := status.value) else ride
  }

  /** Writes a trip row and its ride row. */
  function PutPair(db: Tables, t: TripId, trip: Trip, ride: Ride): Tables
    requires t in db.trips
  {
    db.(rides := db.rides[db.trips[t].ride := ride], trips := db.trips[t := trip])
  }

  /** Why a trip request fails, if it does. */
  function TripGuard(db: Tables, t: TripId, next: TripStatus): Option<Error> {
    if t !in db.trips || db.trips[t].ride !in db.rides then Some(NotFound)
    else if next !in TripFsm.Allowed(db.trips[t].status) then Some(IllegalTransition(db.trips[t].status, next))
    else None
  }

  function StartTrip(s: State, t: TripId): Outcome {
    var guard := TripGuard(s.db, t, TripStatus.InProgress);
    if guard.Some? then Outcome(s, Refused(guard.value))
    else
      var trip := s.db.trips[t].(status := TripStatus.InProgress, startedAt := Some(s.now));
      var ride := WithStatus(s.db.rides[trip.ride], TripFsm.AlignRideStatus(trip.status));
      Outcome(s.(db := PutPair(s.db, t, trip, ride)), TripReply(t))
  }

  /** Pausing leaves the ride row alone. */
  function PauseTrip(s: State, t: TripId): Outcome {
    var guard := TripGuard(s.db, t, TripStatus.Paused);
    if guard.Some? then Outcome(s, Refused(guard.value))
    else
      var trip := s.db.trips[t].(status := TripStatus.Paused, pausedAt := Some(s.now));
      Outcome(s.(db := s.db.(trips := s.db.trips[t := trip])), TripReply(t))
  }

  function ResumeTrip(s: State, t: TripId): Outcome {
    var guard := TripGuard(s.db, t, TripStatus.InProgress);
    if guard.Some? then Outcome(s, Refused(guard.value))
    else
      var trip := s.db.trips[t].(status := TripStatus.InProgress, pausedAt := None);
      var ride := WithStatus(s.db.rides[trip.ride], TripFsm.AlignRideStatus(trip.status));
      Outcome(s.(db := PutPair(s.db, t, trip, ride)), TripReply(t))
  }

  /** The driver of a finished ride is online again. */
  function FreeDriver(drivers: map<DriverId, Driver>, d: Option<DriverId>): map<DriverId, Driver> {
    if d.Some? && d.value in drivers then drivers[d.value := drivers[d.value].(status := Online)] else drivers
  }

  function FareOf(ride: Ride, quoted: Option<real>): real {
    Pricing.TripFare(ride.distance, Pricing.SurgeMultiplier(ride.zone, quoted, Pricing.SurgeOrOne(ride.surge)))
  }

  function EndTrip(s: State, t: TripId, quoted: Option<real>): Outcome {
    var guard := TripGuard(s.db, t, TripStatus.Completed);
    if guard.Some? then Outcome(s, Refused(guard.value))
    else
      var ride := s.db.rides[s.db.trips[t].ride];
      var fare := FareOf(ride, quoted);
      var trip := s.db.trips[t].(fare := Some(fare), status := TripStatus.Completed, endedAt := Some(s.now));
      var db := PutPair(s.db, t, trip, ride.(status := RideStatus.Completed));
      Outcome(s.(db := db.(drivers := FreeDriver(db.drivers, ride.driver))), TripReply(t))
  }

  /** The mock provider declines amounts that end in 99 cents. */
  predicate Declines(amount: real) {
    Pricing.RoundHalfEven(amount * 100.0) % 100 == 99
  }

  function NewPayment(pid: PaymentId, t: TripId, amount: real, currency: string, key: Option<string>): Payment {
    if Declines(amount) then Payment(t, amount, currency, PaymentStatus.Failed, key, None, Some("mock_psp_decline"))
    else Payment(t, amount, currency, PaymentStatus.Succeeded, key, Some(pid), None)
  }

  ghost function InitiatePayment(s: State, pid: PaymentId, t: TripId, amount: real, currency: string,
                                 key: Option<string>): Outcome
  {
    if Replays(key) && PaymentByKey(s.db.payments, key.value).Some? then
      Outcome(s, PaymentReply(PaymentByKey(s.db.payments, key.value).value))
    else if t !in s.db.trips then Outcome(s, Refused(NotFound))
    else if s.db.trips[t].status != TripStatus.Completed then Outcome(s, Refused(TripNotCompleted))
    else if pid in s.db.payments || PaymentKeyTaken(s.db.payments, key) then Outcome(s, Refused(UniqueViolation))
    else
      var payments := s.db.payments[pid := NewPayment(pid, t, amount, currency, key)];
      Outcome(s.(db := s.db.(payments := payments)), PaymentReply(pid))
  }

  datatype Event =
    | Create(rid: RideId, tid: TripId, order: Order, key: Option<string>)
    | Match(ride: RideId, raw: seq<Matching.Member>, token: string, ttl: Ttl)
    | Accept(driver: DriverId, ride: RideId, token: string)
    | Reject(driver: DriverId, ride: RideId)
    | Cancel(rider: RiderId, ride: RideId)
    | Availability(driver: DriverId, status: DriverStatus)
    | Start(trip: TripId)
    | Pause(trip: TripId)
    | Resume(trip: TripId)
    | End(trip: TripId, quoted: Option<real>)
    | Pay(pid: PaymentId, trip: TripId, amount: real, currency: string, key: Option<string>)
    | Tick(elapsed: nat)

  predicate TripRequest(e: Event) {
    e.Start? || e.Pause? || e.Resume? || e.End?
  }

  predicate DriverRequest(e: Event) {
    e.Accept? || e.Reject? || e.Availability?
  }

  predicate RideEvent(e: Event) {
    e.Create? || e.Match? || e.Cancel?
  }

  /** A worker takes a task off the queue before running it; one that is not queued does not run. */
  ghost function RunTask(s: State, r: RideId, raw: seq<Matching.Member>, token: string, ttl: Ttl): State {
    if r !in s.queue then s
    else MatchRide(s.(queue := s.queue - multiset{r}), r, raw, token, ttl)
  }

  ghost function Perform(s: State, e: Event): Outcome {
    match e
    case Create(rid, tid, order, key) => CreateRide(s, rid, tid, order, key)
    case Match(r, raw, token, ttl) => Outcome(RunTask(s, r, raw, token, ttl), Done)
    case Accept(d, r, token) => AcceptOffer(s, d, r, token)
    case Reject(d, r) => RejectOffer(s, d, r)
    case Cancel(rider, r) => CancelRide(s, rider, r)
    case Availability(d, status) => SetAvailability(s, d, status)
    case Start(t) => StartTrip(s, t)
    case Pause(t) => PauseTrip(s, t)
    case Resume(t) => ResumeTrip(s, t)
    case End(t, quoted) => EndTrip(s, t, quoted)
    case Pay(pid, t, amount, currency, key) => InitiatePayment(s, pid, t, amount, currency, key)
    case Tick(elapsed) => Outcome(s.(now := s.now + elapsed), Done)
  }

  ghost function Step(s: State, e: Event): State {
    Perform(s, e).state
  }

  ghost function Run(s: State, events: seq<Event>): State {
    if events == [] then s else Step(Run(s, events[..|events| - 1]), events[|events| - 1])
  }

  /** A fresh deployment: drivers may exist, nothing else does. */
  ghost predicate Init(s: State) {
    && s.db.rides == map[] && s.db.trips == map[] && s.db.payments == map[]
    && s.keys == Keys(map[], map[]) && s.locks == map[] && s.queue == multiset{}
  }
}
