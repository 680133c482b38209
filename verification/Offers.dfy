/** Pending driver offers: two Redis keys that share one time to live. */
module Offers {
  import opened Domain

  datatype Payload = Payload(ride: RideId, driver: DriverId, token: string)

  /** A stored value is readable while the clock is below `expires`. */
  datatype RideEntry = RideEntry(payload: Payload, expires: nat)
  datatype DriverEntry = DriverEntry(ride: RideId, expires: nat)

  datatype Keys = Keys(byRide: map<RideId, RideEntry>, byDriver: map<DriverId, DriverEntry>)

  predicate RideKeyLive(k: Keys, r: RideId, now: nat) {
    r in k.byRide && now < k.byRide[r].expires
  }

  predicate DriverKeyLive(k: Keys, d: DriverId, now: nat) {
    d in k.byDriver && now < k.byDriver[d].expires
  }

  function Put(k: Keys, p: Payload, ttl: Ttl, now: nat): Keys {
    Keys(k.byRide[p.ride := RideEntry(p, now + ttl)], k.byDriver[p.driver := DriverEntry(p.ride, now + ttl)])
  }

  function Clear(k: Keys, r: RideId, d: DriverId): Keys {
    Keys(k.byRide - {r}, k.byDriver - {d})
  }

  function ForRide(k: Keys, r: RideId, now: nat): Option<Payload> {
    if RideKeyLive(k, r, now) then Some(k.byRide[r].payload) else None
  }

  /** Two reads: the driver key names a ride, the ride key holds the offer. */
  function ForDriver(k: Keys, d: DriverId, now: nat): Option<Payload> {
    if DriverKeyLive(k, d, now) then ForRide(k, k.byDriver[d].ride, now) else None
  }

  /** A stored offer is found through both keys for exactly its time to live, and nothing else changes. */
  lemma StoredOfferLives(k: Keys, p: Payload, ttl: Ttl, now: nat, later: nat)
    requires now <= later
    ensures var z := Put(k, p, ttl, now);
      && ForRide(z, p.ride, later) == (if later < now + ttl then Some(p) else None)
      && ForDriver(z, p.driver, later) == (if later < now + ttl then Some(p) else None)
      && (forall r :: r != p.ride ==> ForRide(z, r, later) == ForRide(k, r, later))
      && (forall d :: d != p.driver ==> (d in z.byDriver <==> d in k.byDriver)
                                        && (d in k.byDriver ==> z.byDriver[d] == k.byDriver[d]))
  {
  }

  /** Clearing an offer removes both keys and nothing else. */
  lemma ClearedOfferIsGone(k: Keys, r: RideId, d: DriverId, now: nat)
    ensures var z := Clear(k, r, d);
      && ForRide(z, r, now).None? && ForDriver(z, d, now).None?
      && (forall q :: q != r ==> ForRide(z, q, now) == ForRide(k, q, now))
      && (forall c :: c != d ==> (c in z.byDriver <==> c in k.byDriver)
                                 && (c in k.byDriver ==> z.byDriver[c] == k.byDriver[c]))
  {
  }

  class OfferStore {
    var byRide: map<RideId, RideEntry>
    var byDriver: map<DriverId, DriverEntry>

    constructor ()
      ensures Contents() == Keys(map[], map[])
    {
      byRide, byDriver := map[], map[];
    }

    ghost function Contents(): Keys
      reads this
    {
      Keys(byRide, byDriver)
    }

    method StoreOffer(r: RideId, d: DriverId, token: string, ttl: Ttl, now: nat)
      modifies this
      ensures Contents() == Put(old(Contents()), Payload(r, d, token), ttl, now)
    {
      var payload := Payload(r, d, token);
      byRide := byRide[r := RideEntry(payload, now + ttl)];
      byDriver := byDriver[d := DriverEntry(r, now + ttl)];
    }

    method ClearOffer(r: RideId, d: DriverId)
      modifies this
      ensures Contents() == Clear(old(Contents()), r, d)
    {
      byRide := byRide - {r};
      byDriver := byDriver - {d};
    }

    method GetOfferForRide(r: RideId, now: nat) returns (offer: Option<Payload>)
      ensures offer == ForRide(Contents(), r, now)
    {
      if r !in byRide || byRide[r].expires <= now {
        return None;
      }
      return Some(byRide[r].payload);
    }

    method GetOfferForDriver(d: DriverId, now: nat) returns (offer: Option<Payload>)
      ensures offer == ForDriver(Contents(), d, now)
    {
      if d !in byDriver || byDriver[d].expires <= now {
        return None;
      }
      offer := GetOfferForRide(byDriver[d].ride, now);
    }
  }
}
