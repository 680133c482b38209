/**
 * The service as it changes its tables, keys and queue in place. Every method is proved equal to its
 * counterpart in Operations, so what is proved about runs of Operations holds of these methods.
 */
module Services {
  import opened Domain
  import opened Offers
  import opened Operations
  import Invariants
  import TripFsm
  import Matching
  import Pricing

  class Backend {
    var rides: map<RideId, Ride>
    var trips: map<TripId, Trip>
    var drivers: map<DriverId, Driver>
    var payments: map<PaymentId, Payment>
    var locks: map<RideId, nat>
    var queue: multiset<RideId>
    var now: nat
    const offers: OfferStore

    /** The unique indexes of the schema. */
    ghost predicate Valid()
      reads this
    {
      OneTripPerRide(trips) && UniqueRideKeys(rides) && UniquePaymentKeys(payments)
    }

    ghost function Rows(): Tables
      reads this
    {
      Tables(rides, trips, drivers, payments)
    }

    ghost function Snapshot(): State
      reads this, offers
    {
      State(Rows(), offers.Contents(), locks, queue, now)
    }

    constructor (drivers: map<DriverId, Driver>)
      ensures Valid() && fresh(offers)
      ensures Init(Snapshot()) && this.drivers == drivers
    {
      this.drivers := drivers;
      rides, trips, payments, locks, queue, now := map[], map[], map[], map[], multiset{}, 0;
      offers := new OfferStore();
    }

    method SelectTrip(r: RideId) returns (t: Option<TripId>)
      requires Valid()
      ensures t == TripOf(trips, r)
    {
      if id: TripId :| id in trips && trips[id].ride == r {
        t := Some(id);
      } else {
        t := None;
      }
    }

    method SelectRideByKey(key: string) returns (r: Option<RideId>)
      requires Valid()
      ensures r == RideByKey(rides, key)
    {
      if id: RideId :| id in rides && rides[id].key == Some(key) {
        r := Some(id);
      } else {
        r := None;
      }
    }

    method SelectPaymentByKey(key: string) returns (p: Option<PaymentId>)
      requires Valid()
      ensures p == PaymentByKey(payments, key)
    {
      if id: PaymentId :| id in payments && payments[id].key == Some(key) {
        p := Some(id);
      } else {
        p := None;
      }
    }

    method CreateRide(rid: RideId, tid: TripId, order: Order, key: Option<string>) returns (reply: Reply)
      requires Valid()
      modifies this
      ensures Valid()
      ensures Outcome(Snapshot(), reply) == Operations.CreateRide(old(Snapshot()), rid, tid, order, key)
    {
      if key.Some? && key.value != "" {
        var existing := SelectRideByKey(key.value);
        if existing.Some? {
          var trip := SelectTrip(existing.value);
          if trip.None? {
            return Refused(DataInconsistency);
          }
          return RideAndTrip(existing.value, trip.value);
        }
      }
      if HasActiveRide(rides, order.rider) {
        return Refused(ActiveRide);
      }
      var orphan := SelectTrip(rid);
      if rid in rides || RideKeyTaken(rides, key) || tid in trips || orphan.Some? {
        return Refused(UniqueViolation);
      }
      rides := rides[rid := NewRide(order, key)];
      trips := trips[tid := NewTrip(rid)];
      queue := queue + multiset{rid};
      return RideAndTrip(rid, tid);
    }

    /** Loads the candidates' rows and ranks them. */
    method ChooseDriver(ordered: seq<Matching.Candidate>, tier: Tier) returns (chosen: Option<DriverId>)
      ensures chosen == Matching.Choose(ordered, drivers, tier)
    {
      var ids := set c | c in ordered :: c.driver;
      var dmap := map d | d in ids && d in drivers :: drivers[d];
      Matching.BestReadsCandidateRows(ordered, drivers, dmap, tier, |ordered|);
      chosen := Matching.SelectDriver(ordered, dmap, tier);
    }

    /** The body of a matching task: the ride row stays locked from the status check to the end. */
    method MatchRide(r: RideId, raw: seq<Matching.Member>, token: string, ttl: Ttl)
      requires Valid()
      modifies this, offers
      ensures Valid()
      ensures Snapshot() == Operations.MatchRide(old(Snapshot()), r, raw, token, ttl)
    {
      if r !in rides {
        return;
      }
      var ride := rides[r];
      var trip := SelectTrip(r);
      if trip.None? {
        return;
      }
      if ride.status != RideStatus.Matching || trips[trip.value].status != TripStatus.Matching {
        return;
      }
      var ordered := Matching.GeoCandidates(raw);
      if ordered == [] {
        return;
      }
      var chosen := ChooseDriver(ordered, ride.tier);
      if chosen.None? {
        return;
      }
      if r in locks && now < locks[r] {
        return;
      }
      ghost var before := locks;
      locks := locks[r := now + 15];
      offers.StoreOffer(r, chosen.value, token, ttl, now);
      locks := locks - {r};
      assert locks == before - {r};
    }

    method RunTask(r: RideId, raw: seq<Matching.Member>, token: string, ttl: Ttl)
      requires Valid()
      modifies this, offers
      ensures Valid()
      ensures Snapshot() == Operations.RunTask(old(Snapshot()), r, raw, token, ttl)
    {
      if r in queue {
        queue := queue - multiset{r};
        MatchRide(r, raw, token, ttl);
      }
    }

    method AcceptOffer(d: DriverId, r: RideId, token: string) returns (reply: Reply)
      requires Valid()
      modifies this, offers
      ensures Valid()
      ensures Outcome(Snapshot(), reply) == Operations.AcceptOffer(old(Snapshot()), d, r, token)
    {
      var offer := offers.GetOfferForDriver(d, now);
      if offer.None? || offer.value.ride != r || offer.value.token != token {
        return Refused(InvalidOffer);
      }
      var t := SelectTrip(r);
      if r !in rides || d !in drivers || t.None? {
        return Refused(NotFound);
      }
      var ride, driver, trip := rides[r], drivers[d], trips[t.value];
      if ride.driver.Some? {
        return Refused(AlreadyAssigned);
      }
      if driver.status != Online {
        return Refused(DriverNotOnline);
      }
      ride := ride.(driver := Some(d));
      ride := ride.(status := RideStatus.DriverAssigned);
      driver := driver.(status := Busy);
      trip := trip.(status := TripStatus.DriverAssigned);
      rides, drivers, trips := rides[r := ride], drivers[d := driver], trips[t.value := trip];
      offers.ClearOffer(r, d);
      return RideAndTrip(r, t.value);
    }

    method RejectOffer(d: DriverId, r: RideId) returns (reply: Reply)
      requires Valid()
      modifies this`queue, offers
      ensures Valid()
      ensures Outcome(Snapshot(), reply) == Operations.RejectOffer(old(Snapshot()), d, r)
    {
      var offer := offers.GetOfferForDriver(d, now);
      if offer.None? || offer.value.ride != r {
        return Refused(NoPendingOffer);
      }
      offers.ClearOffer(r, d);
      queue := queue + multiset{r};
      return Done;
    }

    method CancelRows(r: RideId, t: Option<TripId>) returns (reply: Reply)
      requires Valid() && r in rides && (t.Some? ==> t.value in trips)
      modifies this`rides, this`trips
      ensures Valid()
      ensures reply == if old(rides[r].status) in {RideStatus.Completed, RideStatus.Cancelled}
                       then Refused(NotCancellable) else Done
      ensures Rows() == if reply.Done? then Operations.CancelRows(old(Rows()), r, t) else old(Rows())
    {
      var ride := rides[r];
      if ride.status == RideStatus.Completed || ride.status == RideStatus.Cancelled {
        return Refused(NotCancellable);
      }
      rides := rides[r := ride.(status := RideStatus.Cancelled)];
      if t.Some? {
        var trip := trips[t.value];
        if trip.status != TripStatus.Completed && trip.status != TripStatus.Cancelled {
          trips := trips[t.value := trip.(status := TripStatus.Cancelled)];
        }
      }
      return Done;
    }

    /** The endpoint reads the rows, clears the offer, then cancels. */
    method CancelRide(rider: RiderId, r: RideId) returns (reply: Reply)
      requires Valid()
      modifies this, offers
      ensures Valid()
      ensures Outcome(Snapshot(), reply) == Operations.CancelRide(old(Snapshot()), rider, r)
    {
      if r !in rides || rides[r].rider != rider {
        return Refused(NotFound);
      }
      var trip := SelectTrip(r);
      var offer := offers.GetOfferForRide(r, now);
      if offer.Some? {
        offers.ClearOffer(r, offer.value.driver);
      }
      reply := CancelRows(r, trip);
    }

    method SetAvailability(d: DriverId, status: DriverStatus) returns (reply: Reply)
      requires Valid()
      modifies this`drivers
      ensures Valid()
      ensures Outcome(Snapshot(), reply) == Operations.SetAvailability(old(Snapshot()), d, status)
    {
      var driver := Driver(Offline, Standard, None);
      if d in drivers {
        driver := drivers[d];
      }
      driver := driver.(status := status);
      drivers := drivers[d := driver];
      return DriverReply(d);
    }

    /** Loads the trip and its ride and asks the state machine. */
    method Guard(t: TripId, next: TripStatus) returns (refusal: Option<Error>)
      ensures refusal == TripGuard(Rows(), t, next)
    {
      if t !in trips {
        return Some(NotFound);
      }
      if trips[t].ride !in rides {
        return Some(NotFound);
      }
      var checked := TripFsm.AssertTransition(trips[t].status, next);
      if checked.Failure? {
        return Some(checked.error);
      }
      return None;
    }

    method StartTrip(t: TripId) returns (reply: Reply)
      requires Valid()
      modifies this`rides, this`trips
      ensures Valid()
      ensures Outcome(Snapshot(), reply) == Operations.StartTrip(old(Snapshot()), t)
    {
      var refusal := Guard(t, TripStatus.InProgress);
      if refusal.Some? {
        return Refused(refusal.value);
      }
      var trip := trips[t];
      var ride := rides[trip.ride];
      trip := trip.(status := TripStatus.InProgress);
      trip := trip.(startedAt := Some(now));
      var aligned := TripFsm.AlignRideStatus(trip.status);
      if aligned.Some? {
        ride := ride.(status := aligned.value);
      }
      rides, trips := rides[trip.ride := ride], trips[t := trip];
      return TripReply(t);
    }

    method PauseTrip(t: TripId) returns (reply: Reply)
      requires Valid()
      modifies this`trips
      ensures Valid()
      ensures Outcome(Snapshot(), reply) == Operations.PauseTrip(old(Snapshot()), t)
    {
      var refusal := Guard(t, TripStatus.Paused);
      if refusal.Some? {
        return Refused(refusal.value);
      }
      var trip := trips[t];
      trip := trip.(status := TripStatus.Paused);
      trip := trip.(pausedAt := Some(now));
      trips := trips[t := trip];
      return TripReply(t);
    }

    method ResumeTrip(t: TripId) returns (reply: Reply)
      requires Valid()
      modifies this`rides, this`trips
      ensures Valid()
      ensures Outcome(Snapshot(), reply) == Operations.ResumeTrip(old(Snapshot()), t)
    {
      var refusal := Guard(t, TripStatus.InProgress);
      if refusal.Some? {
        return Refused(refusal.value);
      }
      var trip := trips[t];
      var ride := rides[trip.ride];
      trip := trip.(status := TripStatus.InProgress);
      trip := trip.(pausedAt := None);
      var aligned := TripFsm.AlignRideStatus(trip.status);
      if aligned.Some? {
        ride := ride.(status := aligned.value);
      }
      rides, trips := rides[trip.ride := ride], trips[t := trip];
      return TripReply(t);
    }

    method EndTrip(t: TripId, quoted: Option<real>) returns (reply: Reply)
      requires Valid()
      modifies this`rides, this`trips, this`drivers
      ensures Valid()
      ensures Outcome(Snapshot(), reply) == Operations.EndTrip(old(Snapshot()), t, quoted)
    {
      var refusal := Guard(t, TripStatus.Completed);
      if refusal.Some? {
        return Refused(refusal.value);
      }
      var trip := trips[t];
      var ride := rides[trip.ride];
      var duration := Pricing.EstimateDurationMinutes(ride.distance);
      var surge := Pricing.SurgeMultiplier(ride.zone, quoted, Pricing.SurgeOrOne(ride.surge));
      var fare := Pricing.ComputeFare(ride.distance, duration, surge);
      trip := trip.(fare := Some(fare));
      trip := trip.(status := TripStatus.Completed);
      trip := trip.(endedAt := Some(now));
      ride := ride.(status := RideStatus.Completed);
      if ride.driver.Some? && ride.driver.value in drivers {
        drivers := drivers[ride.driver.value := drivers[ride.driver.value].(status := Online)];
      }
      rides, trips := rides[trip.ride := ride], trips[t := trip];
      return TripReply(t);
    }

    /** The row is inserted as processing and settled before the commit. */
    method InitiatePayment(pid: PaymentId, t: TripId, amount: real, currency: string, key: Option<string>)
      returns (reply: Reply)
      requires Valid()
      modifies this`payments
      ensures Valid()
      ensures Outcome(Snapshot(), reply) == Operations.InitiatePayment(old(Snapshot()), pid, t, amount, currency, key)
    {
      if key.Some? && key.value != "" {
        var existing := SelectPaymentByKey(key.value);
        if existing.Some? {
          return PaymentReply(existing.value);
        }
      }
      if t !in trips {
        return Refused(NotFound);
      }
      if trips[t].status != TripStatus.Completed {
        return Refused(TripNotCompleted);
      }
      if pid in payments || PaymentKeyTaken(payments, key) {
        return Refused(UniqueViolation);
      }
      var payment := Payment(t, amount, currency, Processing, key, None, None);
      if Pricing.RoundHalfEven(amount * 100.0) % 100 == 99 {
        payment := payment.(status := PaymentStatus.Failed);
        payment := payment.(declined := Some("mock_psp_decline"));
        payments := payments[pid := payment];
        return PaymentReply(pid);
      }
      payment := payment.(status := Succeeded);
      payment := payment.(reference := Some(pid));
      payments := payments[pid := payment];
      return PaymentReply(pid);
    }

    /** Time passes; keys expire by comparison with the clock. */
    method Wait(elapsed: nat)
      requires Valid()
      modifies this`now
      ensures Valid()
      ensures Snapshot() == old(Snapshot()).(now := old(now) + elapsed)
    {
      now := now + elapsed;
    }

    /** Any request, task or pause of the service: one event of a run, which keeps every invariant. */
    method Handle(e: Event) returns (reply: Reply)
      requires Valid()
      modifies this, offers
      ensures Valid()
      ensures Outcome(Snapshot(), reply) == Perform(old(Snapshot()), e)
      ensures old(Invariants.Good(Snapshot())) ==> Invariants.Good(Snapshot())
    {
      ghost var before := Snapshot();
      match e {
        case Create(rid, tid, order, key) => reply := CreateRide(rid, tid, order, key);
        case Match(r, raw, token, ttl) => RunTask(r, raw, token, ttl); reply := Done;
        case Accept(d, r, token) => reply := AcceptOffer(d, r, token);
        case Reject(d, r) => reply := RejectOffer(d, r);
        case Cancel(rider, r) => reply := CancelRide(rider, r);
        case Availability(d, status) => reply := SetAvailability(d, status);
        case Start(t) => reply := StartTrip(t);
        case Pause(t) => reply := PauseTrip(t);
        case Resume(t) => reply := ResumeTrip(t);
        case End(t, quoted) => reply := EndTrip(t, quoted);
        case Pay(pid, t, amount, currency, key) => reply := InitiatePayment(pid, t, amount, currency, key);
        case Tick(elapsed) => Wait(elapsed); reply := Done;
      }
      if Invariants.Good(before) {
        Invariants.StepKeepsGood(before, e);
      }
    }
  }
}
