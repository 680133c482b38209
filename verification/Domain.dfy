/** Identifiers, enumerations and table rows of the ride-hailing service. */
module Domain {
  datatype Option<+T> = None | Some(value: T)

  datatype RideId = RideId(raw: nat)
  datatype TripId = TripId(raw: nat)
  datatype DriverId = DriverId(raw: nat)
  datatype RiderId = RiderId(raw: nat)
  datatype PaymentId = PaymentId(raw: nat)

  /** Distances are great-circle lengths, never negative. */
  type Km = x: real | 0.0 <= x witness 0.0

  /** A Redis expiry must be positive. */
  type Ttl = n: nat | 0 < n witness 60

  datatype DriverStatus = Online | Offline | Busy
  datatype Tier = Standard | Premium

  datatype RideStatus =
    | Requested | Matching | DriverAssigned | DriverArriving | InProgress | Completed | Cancelled

  datatype TripStatus =
    | Requested | Matching | DriverAssigned | DriverArriving | InProgress | Paused | Completed | Cancelled

  datatype PaymentStatus = Pending | Processing | Succeeded | Failed

  datatype Driver = Driver(status: DriverStatus, tier: Tier, rating: Option<real>)

  /** `distance` stands for the pickup and destination coordinates. */
  datatype Ride = Ride(
    rider: RiderId,
    driver: Option<DriverId>,
    status: RideStatus,
    tier: Tier,
    distance: Km,
    zone: Option<string>,
    surge: Option<real>,
    key: Option<string>)

  datatype Trip = Trip(
    ride: RideId,
    status: TripStatus,
    fare: Option<real>,
    startedAt: Option<nat>,
    pausedAt: Option<nat>,
    endedAt: Option<nat>)

  /** `reference` is the payment id carried in the provider reference. */
  datatype Payment = Payment(
    trip: TripId,
    amount: real,
    currency: string,
    status: PaymentStatus,
    key: Option<string>,
    reference: Option<PaymentId>,
    declined: Option<string>)

  datatype Tables = Tables(
    rides: map<RideId, Ride>,
    trips: map<TripId, Trip>,
    drivers: map<DriverId, Driver>,
    payments: map<PaymentId, Payment>)

  datatype Error =
    | NotFound
    | InvalidOffer
    | AlreadyAssigned
    | DriverNotOnline
    | NoPendingOffer
    | ActiveRide
    | NotCancellable
    | IllegalTransition(current: TripStatus, next: TripStatus)
    | TripNotCompleted
    | DataInconsistency
    | UniqueViolation

  datatype Result<+T> = Success(value: T) | Failure(error: Error)

  /** The trip row selected by its ride id. */
  ghost function TripOf(trips: map<TripId, Trip>, r: RideId): (found: Option<TripId>)
    ensures found.Some? ==> found.value in trips && trips[found.value].ride == r
    ensures found.None? ==> forall t :: t in trips ==> trips[t].ride != r
  {
    if t: TripId :| t in trips && trips[t].ride == r then Some(t) else None
  }

  /** The ride row selected by its idempotency key. */
  ghost function RideByKey(rides: map<RideId, Ride>, key: string): (found: Option<RideId>)
    ensures found.Some? ==> found.value in rides && rides[found.value].key == Some(key)
    ensures found.None? ==> forall r :: r in rides ==> rides[r].key != Some(key)
  {
    if r: RideId :| r in rides && rides[r].key == Some(key) then Some(r) else None
  }

  /** The payment row selected by its idempotency key. */
  ghost function PaymentByKey(payments: map<PaymentId, Payment>, key: string): (found: Option<PaymentId>)
    ensures found.Some? ==> found.value in payments && payments[found.value].key == Some(key)
    ensures found.None? ==> forall p :: p in payments ==> payments[p].key != Some(key)
  {
    if p: PaymentId :| p in payments && payments[p].key == Some(key) then Some(p) else None
  }

  /** The unique index on trips.ride_id. */
  ghost predicate OneTripPerRide(trips: map<TripId, Trip>) {
    forall t, u :: t in trips && u in trips && trips[t].ride == trips[u].ride ==> t == u
  }

  /** The unique index on rides.idempotency_key; null keys may repeat. */
  ghost predicate UniqueRideKeys(rides: map<RideId, Ride>) {
    forall r, q :: r in rides && q in rides && rides[r].key.Some? && rides[r].key == rides[q].key ==> r == q
  }

  /** The unique index on payments.idempotency_key. */
  ghost predicate UniquePaymentKeys(payments: map<PaymentId, Payment>) {
    forall p, q ::
      p in payments && q in payments && payments[p].key.Some? && payments[p].key == payments[q].key ==> p == q
  }
}
