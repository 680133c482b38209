/**
 * Any number of accept_offer calls and match_ride tasks at once. A call is split at every Redis
 * operation, row lock, commit and clear; other requests appear as single commits that wait for the
 * row locks of what they write, and as clears of an offer at any time. Those commits may rest on rows
 * read long before, so they are allowed to write whatever the row says now.
 */
module Concurrent {
  import opened Domain
  import opened Offers
  import opened Operations
  import Matching

  datatype Pid = Pid(raw: nat)

  /** Where an accept call stands: the next thing it does, with the rows its locks returned. */
  datatype AcceptPoint =
    | ReadDriverKey
    | ReadRideKey(named: RideId)
    | LockRide
    | LockDriver(ride: Option<Ride>)
    | ReadTrip(ride: Option<Ride>, driver: Option<Driver>)
    | Commit(trip: TripId)
    | ClearKeys(trip: TripId)
    | Returned(reply: Reply)

  /** Where a matching task stands. */
  datatype MatchPoint =
    | LockRow
    | CheckTrip(row: Ride)
    | Scan(row: Ride)
    | TakeAssignLock(chosen: DriverId)
    | StoreOffer(chosen: DriverId)
    | DropAssignLock
    | EndTask
    | Ended

  datatype Call =
    | Accepting(driver: DriverId, ride: RideId, token: string, point: AcceptPoint)
    | Tasking(ride: RideId, task: MatchPoint)
    | Crashed

  datatype World = World(
    db: Tables,
    keys: Keys,
    assignLocks: map<RideId, nat>,
    now: nat,
    rideLocks: map<RideId, Pid>,
    driverLocks: map<DriverId, Pid>,
    calls: map<Pid, Call>)

  /** What a commit writes. */
  datatype Write =
    | Assign(driver: DriverId, ride: RideId)
    | Insert(rid: RideId, tid: TripId, order: Order, key: Option<string>)
    | CancelWrite(ride: RideId, cancelled: Option<TripId>)
    | AvailabilityWrite(driver: DriverId, status: DriverStatus)
    | ProgressWrite(trip: TripId, row: Trip, aligns: bool)
    | EndWrite(trip: TripId, row: Trip, aligns: bool, frees: bool)

  function PutTrip(trips: map<TripId, Trip>, t: TripId, row: Trip): map<TripId, Trip> {
    if t in trips then trips[t := row.(ride := trips[t].ride)] else trips
  }

  function PutRideStatus(rides: map<RideId, Ride>, r: RideId, status: RideStatus): map<RideId, Ride> {
    if r in rides then rides[r := rides[r].(status := status)] else rides
  }

  /** The driver that the end of a trip frees. */
  function FreedDriver(db: Tables, t: TripId): Option<DriverId> {
    if t in db.trips && db.trips[t].ride in db.rides then db.rides[db.trips[t].ride].driver else None
  }

  /** The serial meaning of a write; an assignment checks its guards. */
  ghost function Apply(db: Tables, w: Write): Tables {
    match w
    case Assign(d, r) =>
      var rows := AcceptRows(db, d, r);
      if rows.Success? then rows.value else db
    case Insert(rid, tid, order, key) =>
      if rid in db.rides || tid in db.trips || TripOf(db.trips, rid).Some? then db
      else db.(rides := db.rides[rid := NewRide(order, key)], trips := db.trips[tid := NewTrip(rid)])
    case CancelWrite(r, t) =>
      var trips :=
        if t.Some? && t.value in db.trips
        then PutTrip(db.trips, t.value, db.trips[t.value].(status := TripStatus.Cancelled)) else db.trips;
      db.(rides := PutRideStatus(db.rides, r, RideStatus.Cancelled), trips := trips)
    case AvailabilityWrite(d, status) =>
      var row := if d in db.drivers then db.drivers[d] else Driver(Offline, Standard, None);
      db.(drivers := db.drivers[d := row.(status := status)])
    case ProgressWrite(t, row, aligns) =>
      var rides :=
        if aligns && t in db.trips then PutRideStatus(db.rides, db.trips[t].ride, RideStatus.InProgress) else db.rides;
      db.(rides := rides, trips := PutTrip(db.trips, t, row))
    case EndWrite(t, row, aligns, frees) =>
      var rides :=
        if aligns && t in db.trips then PutRideStatus(db.rides, db.trips[t].ride, RideStatus.Completed) else db.rides;
      db.(rides := rides, trips := PutTrip(db.trips, t, row),
          drivers := if frees then FreeDriver(db.drivers, FreedDriver(db, t)) else db.drivers)
  }

  /** The existing rides and drivers whose rows a background write updates. */
  function RidesWritten(db: Tables, w: Write): set<RideId> {
    match w
    case CancelWrite(r, _) => {r}
    case ProgressWrite(t, _, aligns) => if aligns && t in db.trips then {db.trips[t].ride} else {}
    case EndWrite(t, _, aligns, _) => if aligns && t in db.trips then {db.trips[t].ride} else {}
    case _ => {}
  }

  function DriversWritten(db: Tables, w: Write): set<DriverId> {
    match w
    case AvailabilityWrite(d, _) => {d}
    case EndWrite(t, _, _, frees) => if frees && FreedDriver(db, t).Some? then {FreedDriver(db, t).value} else {}
    case _ => {}
  }

  /**
   * What a background request knows of the rows it writes, however long ago it read them: rows are never
   * deleted, a trip never changes its ride, and each request writes a status of its own. Whether the ride
   * row is written too depends on what it was when it was read.
   */
  predicate Possible(db: Tables, w: Write) {
    match w
    case Assign(_, _) => false
    case Insert(_, _, _, _) => true
    case CancelWrite(r, t) => r in db.rides && (t.Some? ==> t.value in db.trips && db.trips[t.value].ride == r)
    case AvailabilityWrite(_, _) => true
    case ProgressWrite(t, row, aligns) =>
      t in db.trips && (row.status == TripStatus.InProgress || (row.status == TripStatus.Paused && !aligns))
    case EndWrite(t, row, _, _) => t in db.trips && row.status == TripStatus.Completed
  }

  predicate Unlocked(w: World, write: Write) {
    && Possible(w.db, write)
    && RidesWritten(w.db, write) !! w.rideLocks.Keys
    && DriversWritten(w.db, write) !! w.driverLocks.Keys
  }

  // Calls

  predicate Fresh(c: Call) {
    (c.Accepting? && c.point == ReadDriverKey) || (c.Tasking? && c.task == LockRow)
  }

  predicate Finished(c: Call) {
    c.Crashed? || (c.Accepting? && c.point.Returned?) || (c.Tasking? && c.task.Ended?)
  }

  /** FOR UPDATE waits only while another call holds the row. */
  predicate Blocked(w: World, c: Call) {
    || (c.Accepting? && c.point.LockRide? && c.ride in w.rideLocks)
    || (c.Accepting? && c.point.LockDriver? && c.driver in w.driverLocks)
    || (c.Tasking? && c.task.LockRow? && c.ride in w.rideLocks)
  }

  predicate CanAdvance(w: World, p: Pid) {
    p in w.calls && !Finished(w.calls[p]) && !Blocked(w, w.calls[p])
  }

  predicate HoldsRide(c: Call, r: RideId) {
    match c
    case Accepting(_, ride, _, LockDriver(row)) => ride == r && row.Some?
    case Accepting(_, ride, _, ReadTrip(row, _)) => ride == r && row.Some?
    case Accepting(_, ride, _, Commit(_)) => ride == r
    case Tasking(ride, task) => ride == r && !task.LockRow? && !task.Ended?
    case _ => false
  }

  predicate HoldsDriver(c: Call, d: DriverId) {
    match c
    case Accepting(driver, _, _, ReadTrip(_, row)) => driver == d && row.Some?
    case Accepting(driver, _, _, Commit(_)) => driver == d
    case _ => false
  }

  function Goto(w: World, p: Pid, c: Call): World {
    w.(calls := w.calls[p := c])
  }

  function LocksWithout<K>(locks: map<K, Pid>, p: Pid): map<K, Pid> {
    map k | k in locks && locks[k] != p :: locks[k]
  }

  /** Commit, rollback or a lost connection: the row locks of the call go. */
  function Release(w: World, p: Pid): World {
    w.(rideLocks := LocksWithout(w.rideLocks, p), driverLocks := LocksWithout(w.driverLocks, p))
  }

  function LockedRide(w: World, p: Pid, r: RideId): World {
    if r in w.db.rides then w.(rideLocks := w.rideLocks[r := p]) else w
  }

  function LockedDriver(w: World, p: Pid, d: DriverId): World {
    if d in w.db.drivers then w.(driverLocks := w.driverLocks[d := p]) else w
  }

  function RideRow(db: Tables, r: RideId): Option<Ride> {
    if r in db.rides then Some(db.rides[r]) else None
  }

  function DriverRow(db: Tables, d: DriverId): Option<Driver> {
    if d in db.drivers then Some(db.drivers[d]) else None
  }

  /** The checks of accept_offer on the rows its locks returned. */
  function Decide(ride: Option<Ride>, driver: Option<Driver>, trip: Option<TripId>): Result<TripId> {
    if ride.None? || driver.None? || trip.None? then Failure(NotFound)
    else if ride.value.driver.Some? then Failure(AlreadyAssigned)
    else if driver.value.status != Online then Failure(DriverNotOnline)
    else Success(trip.value)
  }

  /** Only the call itself moves, and it keeps its arguments. */
  ghost function AdvanceAccept(w: World, p: Pid, c: Call): (z: World)
    requires c.Accepting? && p in w.calls && w.calls[p] == c
    ensures p in z.calls && z.calls == w.calls[p := z.calls[p]]
    ensures z.calls[p].Accepting? && c == z.calls[p].(point := c.point)
    ensures z.keys == w.keys || z.keys == Clear(w.keys, c.ride, c.driver)
    ensures z.now == w.now
  {
    var d, r := c.driver, c.ride;
    match c.point
    case ReadDriverKey =>
      if DriverKeyLive(w.keys, d, w.now) then Goto(w, p, c.(point := ReadRideKey(w.keys.byDriver[d].ride)))
      else Goto(w, p, c.(point := Returned(Refused(InvalidOffer))))
    case ReadRideKey(named) =>
      var offer := ForRide(w.keys, named, w.now);
      if offer.None? || offer.value.ride != r || offer.value.token != c.token
      then Goto(w, p, c.(point := Returned(Refused(InvalidOffer))))
      else Goto(w, p, c.(point := LockRide))
    case LockRide => Goto(LockedRide(w, p, r), p, c.(point := LockDriver(RideRow(w.db, r))))
    case LockDriver(row) => Goto(LockedDriver(w, p, d), p, c.(point := ReadTrip(row, DriverRow(w.db, d))))
    case ReadTrip(ride, driver) =>
      var decision := Decide(ride, driver, TripOf(w.db.trips, r));
      if decision.Failure? then Goto(Release(w, p), p, c.(point := Returned(Refused(decision.error))))
      else Goto(w, p, c.(point := Commit(decision.value)))
    case Commit(t) =>
      if r in w.db.rides && d in w.db.drivers && t in w.db.trips
      then Goto(Release(w.(db := AssignRows(w.db, d, r, t)), p), p, c.(point := ClearKeys(t)))
      else w
    case ClearKeys(t) =>
      Goto(w.(keys := Clear(w.keys, r, d)), p, c.(point := Returned(RideAndTrip(r, t))))
    case Returned(_) => w
  }

  ghost function AdvanceTask(w: World, p: Pid, c: Call, raw: seq<Matching.Member>, token: string, ttl: Ttl): (z: World)
    requires c.Tasking? && p in w.calls && w.calls[p] == c
    ensures p in z.calls && z.calls == w.calls[p := z.calls[p]]
    ensures z.calls[p].Tasking? && c == z.calls[p].(task := c.task)
    ensures z.db == w.db && z.now == w.now
    ensures z.keys == w.keys
      || (c.task.StoreOffer? && z.keys == Put(w.keys, Payload(c.ride, c.task.chosen, token), ttl, w.now))
  {
    var r := c.ride;
    var quit := Goto(Release(w, p), p, c.(task := Ended));
    match c.task
    case LockRow =>
      if r in w.db.rides then Goto(LockedRide(w, p, r), p, c.(task := CheckTrip(w.db.rides[r]))) else quit
    case CheckTrip(row) =>
      var t := TripOf(w.db.trips, r);
      if t.None? || row.status != RideStatus.Matching || w.db.trips[t.value].status != TripStatus.Matching then quit
      else Goto(w, p, c.(task := Scan(row)))
    case Scan(row) =>
      var chosen := Matching.Choose(Matching.Parse(raw), w.db.drivers, row.tier);
      if chosen.None? then quit else Goto(w, p, c.(task := TakeAssignLock(chosen.value)))
    case TakeAssignLock(chosen) =>
      if r in w.assignLocks && w.now < w.assignLocks[r] then quit
      else Goto(w.(assignLocks := w.assignLocks[r := w.now + 15]), p, c.(task := StoreOffer(chosen)))
    case StoreOffer(chosen) =>
      Goto(w.(keys := Put(w.keys, Payload(r, chosen, token), ttl, w.now)), p, c.(task := DropAssignLock))
    case DropAssignLock => Goto(w.(assignLocks := w.assignLocks - {r}), p, c.(task := EndTask))
    case EndTask => quit
    case Ended => w
  }

  datatype Action =
    | Begin(pid: Pid, call: Call)
    | Advance(pid: Pid, raw: seq<Matching.Member>, token: string, ttl: Ttl)
    | Crash(pid: Pid)
    | Background(write: Write)
    | ClearOffer(ride: RideId, driver: DriverId)
    | Tick(elapsed: nat)

  predicate Enabled(w: World, a: Action) {
    match a
    case Begin(p, c) => p !in w.calls && Fresh(c)
    case Advance(p, _, _, _) => CanAdvance(w, p)
    case Crash(p) => p in w.calls && !Finished(w.calls[p])
    case Background(write) => Unlocked(w, write)
    case ClearOffer(_, _) => true
    case Tick(_) => true
  }

  ghost function Do(w: World, a: Action): World
    requires Enabled(w, a)
  {
    match a
    case Begin(p, c) => Goto(w, p, c)
    case Advance(p, raw, token, ttl) =>
      if w.calls[p].Accepting? then AdvanceAccept(w, p, w.calls[p])
      else AdvanceTask(w, p, w.calls[p], raw, token, ttl)
    case Crash(p) => Goto(Release(w, p), p, Crashed)
    case Background(write) => w.(db := Apply(w.db, write))
    case ClearOffer(r, d) => w.(keys := Clear(w.keys, r, d))
    case Tick(elapsed) => w.(now := w.now + elapsed)
  }

  /** An action that is not enabled does nothing. */
  ghost function Next(w: World, a: Action): World {
    if Enabled(w, a) then Do(w, a) else w
  }

  ghost function Exec(w: World, actions: seq<Action>): World {
    if actions == [] then w else Next(Exec(w, actions[..|actions| - 1]), actions[|actions| - 1])
  }

  ghost predicate Idle(w: World) {
    && w.db.rides == map[] && w.db.trips == map[]
    && w.keys == Keys(map[], map[])
    && w.rideLocks == map[] && w.driverLocks == map[] && w.calls == map[]
  }

  // Safety

  /** What the locks of a call guarantee about the rows it has read. */
  ghost predicate RowsCurrent(db: Tables, c: Call) {
    match c
    case Accepting(_, r, _, LockDriver(row)) => row.Some? ==> RideRow(db, r) == row
    case Accepting(d, r, _, ReadTrip(row, driver)) =>
      (row.Some? ==> RideRow(db, r) == row) && (driver.Some? ==> DriverRow(db, d) == driver)
    case Accepting(d, r, _, Commit(t)) =>
      && r in db.rides && db.rides[r].driver.None?
      && d in db.drivers && db.drivers[d].status == Online
      && t in db.trips && db.trips[t].ride == r
    case Tasking(r, CheckTrip(row)) => RideRow(db, r) == Some(row)
    case Tasking(r, Scan(row)) => RideRow(db, r) == Some(row) && row.status == RideStatus.Matching
    case Tasking(r, task) =>
      !task.LockRow? && !task.Ended? ==> r in db.rides && db.rides[r].status == RideStatus.Matching
    case _ => true
  }

  ghost predicate CallOk(w: World, p: Pid)
    requires p in w.calls
  {
    && (forall r :: HoldsRide(w.calls[p], r) ==> r in w.rideLocks && w.rideLocks[r] == p)
    && (forall d :: HoldsDriver(w.calls[p], d) ==> d in w.driverLocks && w.driverLocks[d] == p)
    && RowsCurrent(w.db, w.calls[p])
  }

  ghost predicate LocksOwned(w: World) {
    && (forall r :: r in w.rideLocks ==> w.rideLocks[r] in w.calls && HoldsRide(w.calls[w.rideLocks[r]], r))
    && (forall d :: d in w.driverLocks ==> w.driverLocks[d] in w.calls && HoldsDriver(w.calls[w.driverLocks[d]], d))
  }

  /** A ride that still waits has no driver. */
  ghost predicate TablesOk(db: Tables) {
    && OneTripPerRide(db.trips)
    && (forall r :: r in db.rides && db.rides[r].status == RideStatus.Matching ==> db.rides[r].driver.None?)
  }

  ghost predicate Safe(w: World) {
    && TablesOk(w.db)
    && LocksOwned(w)
    && forall p :: p in w.calls ==> CallOk(w, p)
  }

  /** From one world to the next, nothing that call `q` relies on moves. */
  ghost predicate Undisturbed(w: World, z: World, q: Pid)
    requires q in w.calls
  {
    && q in z.calls && z.calls[q] == w.calls[q]
    && (forall r :: r in w.rideLocks && w.rideLocks[r] == q ==>
          r in z.rideLocks && z.rideLocks[r] == q && RideRow(z.db, r) == RideRow(w.db, r))
    && (forall d :: d in w.driverLocks && w.driverLocks[d] == q ==>
          d in z.driverLocks && z.driverLocks[d] == q && DriverRow(z.db, d) == DriverRow(w.db, d))
    && (forall t :: t in w.db.trips ==> t in z.db.trips && z.db.trips[t].ride == w.db.trips[t].ride)
  }

  lemma UndisturbedStaysOk(w: World, z: World, q: Pid)
    requires q in w.calls && CallOk(w, q) && Undisturbed(w, z, q)
    ensures CallOk(z, q)
  {
    var c := w.calls[q];
    if c.Accepting? {
      assert HoldsRide(c, c.ride) ==> RideRow(z.db, c.ride) == RideRow(w.db, c.ride);
      assert HoldsDriver(c, c.driver) ==> DriverRow(z.db, c.driver) == DriverRow(w.db, c.driver);
    } else if c.Tasking? {
      assert HoldsRide(c, c.ride) ==> RideRow(z.db, c.ride) == RideRow(w.db, c.ride);
    }
  }

  lemma ApplyKeepsTables(db: Tables, w: Write)
    requires TablesOk(db)
    ensures TablesOk(Apply(db, w))
    ensures forall t :: t in db.trips ==> t in Apply(db, w).trips && Apply(db, w).trips[t].ride == db.trips[t].ride
  {
  }

  /** A background write leaves every other existing row as it was. */
  lemma ApplyFrame(db: Tables, w: Write)
    requires !w.Assign?
    ensures forall r :: r in db.rides && r !in RidesWritten(db, w) ==> RideRow(Apply(db, w), r) == RideRow(db, r)
    ensures forall d :: d in db.drivers && d !in DriversWritten(db, w) ==>
      DriverRow(Apply(db, w), d) == DriverRow(db, d)
  {
  }

  lemma HeldRowsExist(w: World, q: Pid)
    requires q in w.calls && CallOk(w, q)
    ensures forall r :: HoldsRide(w.calls[q], r) ==> r in w.db.rides
    ensures forall d :: HoldsDriver(w.calls[q], d) ==> d in w.db.drivers
  {
  }

  /** A background commit waits for row locks, so it disturbs no holder. */
  lemma BackgroundDisturbsNobody(w: World, write: Write, q: Pid)
    requires LocksOwned(w) && TablesOk(w.db) && Unlocked(w, write) && q in w.calls && CallOk(w, q)
    ensures Undisturbed(w, w.(db := Apply(w.db, write)), q)
  {
    ApplyKeepsTables(w.db, write);
    ApplyFrame(w.db, write);
    HeldRowsExist(w, q);
  }

  lemma BackgroundIsSafe(w: World, write: Write)
    requires Safe(w) && Unlocked(w, write)
    ensures Safe(w.(db := Apply(w.db, write)))
  {
    var z := w.(db := Apply(w.db, write));
    ApplyKeepsTables(w.db, write);
    forall q | q in z.calls ensures CallOk(z, q) {
      BackgroundDisturbsNobody(w, write, q);
      UndisturbedStaysOk(w, z, q);
    }
  }

  // Advancing one call

  /** The step of call `p`: its own invariant holds again, and nobody else is disturbed. */
  ghost predicate StepOf(w: World, z: World, p: Pid) {
    && p in w.calls && p in z.calls && CallOk(z, p)
    && z.calls.Keys == w.calls.Keys
    && TablesOk(z.db)
    && (forall q :: q in w.calls && q != p ==> Undisturbed(w, z, q))
    && (forall r :: r in z.rideLocks ==>
          if z.rideLocks[r] == p then HoldsRide(z.calls[p], r)
          else r in w.rideLocks && w.rideLocks[r] == z.rideLocks[r])
    && (forall d :: d in z.driverLocks ==>
          if z.driverLocks[d] == p then HoldsDriver(z.calls[p], d)
          else d in w.driverLocks && w.driverLocks[d] == z.driverLocks[d])
  }

  lemma StepIsSafe(w: World, z: World, p: Pid)
    requires Safe(w) && StepOf(w, z, p)
    ensures Safe(z)
  {
    forall q | q in z.calls ensures CallOk(z, q) {
      if q != p {
        UndisturbedStaysOk(w, z, q);
      }
    }
    forall r | r in z.rideLocks ensures z.rideLocks[r] in z.calls && HoldsRide(z.calls[z.rideLocks[r]], r) {
      assert z.rideLocks[r] != p ==>
        w.rideLocks[r] == z.rideLocks[r] && z.calls[z.rideLocks[r]] == w.calls[z.rideLocks[r]];
    }
    forall d | d in z.driverLocks ensures z.driverLocks[d] in z.calls && HoldsDriver(z.calls[z.driverLocks[d]], d) {
      assert z.driverLocks[d] != p ==>
        w.driverLocks[d] == z.driverLocks[d] && z.calls[z.driverLocks[d]] == w.calls[z.driverLocks[d]];
    }
  }

  /** The part of safety that a step of call `p` rests on. */
  ghost predicate SafeFor(w: World, p: Pid) {
    LocksOwned(w) && TablesOk(w.db) && p in w.calls && CallOk(w, p)
  }

  /** Only call `p` and its own locks move. */
  ghost predicate OwnLocksMove(w: World, z: World, p: Pid) {
    && p in w.calls && p in z.calls && z.calls == w.calls[p := z.calls[p]]
    && z.db == w.db
    && (forall r :: r in w.rideLocks && w.rideLocks[r] != p ==> r in z.rideLocks && z.rideLocks[r] == w.rideLocks[r])
    && (forall d :: d in w.driverLocks && w.driverLocks[d] != p ==>
          d in z.driverLocks && z.driverLocks[d] == w.driverLocks[d])
  }

  lemma OthersKeepTheirLocks(w: World, z: World, p: Pid)
    requires OwnLocksMove(w, z, p)
    ensures forall q :: q in w.calls && q != p ==> Undisturbed(w, z, q)
  {
  }

  /** Moving on without touching tables or locks. */
  lemma GotoStep(w: World, p: Pid, c: Call, z: World)
    requires SafeFor(w, p)
    requires z.db == w.db && z.rideLocks == w.rideLocks && z.driverLocks == w.driverLocks && z.calls == w.calls[p := c]
    requires forall r :: HoldsRide(c, r) <==> HoldsRide(w.calls[p], r)
    requires forall d :: HoldsDriver(c, d) <==> HoldsDriver(w.calls[p], d)
    requires RowsCurrent(w.db, c)
    ensures StepOf(w, z, p)
  {
    OthersKeepTheirLocks(w, z, p);
  }

  /** Giving up every lock. */
  lemma ReleaseStep(w: World, p: Pid, c: Call, z: World)
    requires SafeFor(w, p) && z == Goto(Release(w, p), p, c)
    requires forall r :: !HoldsRide(c, r)
    requires forall d :: !HoldsDriver(c, d)
    requires RowsCurrent(w.db, c)
    ensures StepOf(w, z, p)
  {
    OthersKeepTheirLocks(w, z, p);
  }

  /** Taking a free ride row. */
  lemma LockRideStep(w: World, p: Pid, r: RideId, c: Call, z: World)
    requires SafeFor(w, p) && r !in w.rideLocks
    requires z == Goto(LockedRide(w, p, r), p, c)
    requires forall q :: !HoldsRide(w.calls[p], q)
    requires forall q :: HoldsRide(c, q) <==> q == r && r in w.db.rides
    requires forall d :: !HoldsDriver(w.calls[p], d) && !HoldsDriver(c, d)
    requires RowsCurrent(w.db, c)
    ensures StepOf(w, z, p)
  {
    OthersKeepTheirLocks(w, z, p);
  }

  /** Taking a free driver row. */
  lemma LockDriverStep(w: World, p: Pid, d: DriverId, c: Call, z: World)
    requires SafeFor(w, p) && d !in w.driverLocks
    requires z == Goto(LockedDriver(w, p, d), p, c)
    requires forall r :: HoldsRide(c, r) <==> HoldsRide(w.calls[p], r)
    requires forall e :: !HoldsDriver(w.calls[p], e)
    requires forall e :: HoldsDriver(c, e) <==> e == d && d in w.db.drivers
    requires RowsCurrent(w.db, c)
    ensures StepOf(w, z, p)
  {
    OthersKeepTheirLocks(w, z, p);
  }

  lemma AssignKeepsTables(db: Tables, d: DriverId, r: RideId, t: TripId)
    requires TablesOk(db) && r in db.rides && d in db.drivers && t in db.trips
    ensures TablesOk(AssignRows(db, d, r, t))
  {
  }

  /** Writing a ride and a driver that somebody else has locked is impossible, so nobody else is disturbed. */
  lemma AssignDisturbsNobody(w: World, p: Pid, d: DriverId, r: RideId, t: TripId, c: Call, q: Pid)
    requires r in w.db.rides && d in w.db.drivers && t in w.db.trips
    requires r in w.rideLocks && w.rideLocks[r] == p && d in w.driverLocks && w.driverLocks[d] == p
    requires q in w.calls && q != p
    ensures Undisturbed(w, Goto(Release(w.(db := AssignRows(w.db, d, r, t)), p), p, c), q)
  {
  }

  lemma AssignStep(w: World, p: Pid, d: DriverId, r: RideId, t: TripId, c: Call)
    requires LocksOwned(w) && TablesOk(w.db) && p in w.calls
    requires r in w.db.rides && d in w.db.drivers && t in w.db.trips
    requires r in w.rideLocks && w.rideLocks[r] == p && d in w.driverLocks && w.driverLocks[d] == p
    requires c.Accepting? && c.point.ClearKeys?
    ensures StepOf(w, Goto(Release(w.(db := AssignRows(w.db, d, r, t)), p), p, c), p)
  {
    AssignKeepsTables(w.db, d, r, t);
    forall q | q in w.calls && q != p
      ensures Undisturbed(w, Goto(Release(w.(db := AssignRows(w.db, d, r, t)), p), p, c), q)
    {
      AssignDisturbsNobody(w, p, d, r, t, c, q);
    }
  }

  /** The commit writes only rows the call has locked, and the trip's status. */
  lemma CommitStep(w: World, p: Pid)
    requires SafeFor(w, p) && w.calls[p].Accepting? && w.calls[p].point.Commit?
    ensures StepOf(w, AdvanceAccept(w, p, w.calls[p]), p)
  {
    var c := w.calls[p];
    var d, r, t := c.driver, c.ride, c.point.trip;
    assert HoldsRide(c, r) && HoldsDriver(c, d);
    AssignStep(w, p, d, r, t, c.(point := ClearKeys(t)));
  }

  /** The checks pass only on rows that are still current when the commit follows. */
  lemma DecideStep(w: World, p: Pid)
    requires SafeFor(w, p) && w.calls[p].Accepting? && w.calls[p].point.ReadTrip?
    ensures StepOf(w, AdvanceAccept(w, p, w.calls[p]), p)
  {
    var c := w.calls[p];
    var z := AdvanceAccept(w, p, c);
    if Decide(c.point.ride, c.point.driver, TripOf(w.db.trips, c.ride)).Success? {
      GotoStep(w, p, z.calls[p], z);
    } else {
      ReleaseStep(w, p, z.calls[p], z);
    }
  }

  predicate WithoutLocks(point: AcceptPoint) {
    point.ReadDriverKey? || point.ReadRideKey? || point.ClearKeys?
  }

  /** Redis operations leave tables and row locks alone. */
  lemma UnlockedMoves(w: World, p: Pid)
    requires p in w.calls && w.calls[p].Accepting? && WithoutLocks(w.calls[p].point)
    ensures var c, z := w.calls[p], AdvanceAccept(w, p, w.calls[p]);
      && z.db == w.db && z.rideLocks == w.rideLocks && z.driverLocks == w.driverLocks
      && (forall r :: !HoldsRide(c, r) && !HoldsRide(z.calls[p], r))
      && (forall d :: !HoldsDriver(c, d) && !HoldsDriver(z.calls[p], d))
      && RowsCurrent(w.db, z.calls[p])
  {
  }

  lemma UnlockedStep(w: World, p: Pid)
    requires SafeFor(w, p) && w.calls[p].Accepting? && WithoutLocks(w.calls[p].point)
    ensures StepOf(w, AdvanceAccept(w, p, w.calls[p]), p)
  {
    UnlockedMoves(w, p);
    var z := AdvanceAccept(w, p, w.calls[p]);
    GotoStep(w, p, z.calls[p], z);
  }

  lemma AcceptStep(w: World, p: Pid)
    requires SafeFor(w, p) && CanAdvance(w, p) && w.calls[p].Accepting?
    ensures StepOf(w, AdvanceAccept(w, p, w.calls[p]), p)
  {
    var c := w.calls[p];
    match c.point
    case LockRide => LockRideStep(w, p, c.ride, c.(point := LockDriver(RideRow(w.db, c.ride))), AdvanceAccept(w, p, c));
    case LockDriver(row) =>
      LockDriverStep(w, p, c.driver, c.(point := ReadTrip(row, DriverRow(w.db, c.driver))), AdvanceAccept(w, p, c));
    case ReadTrip(_, _) => DecideStep(w, p);
    case Commit(_) => CommitStep(w, p);
    case _ => UnlockedStep(w, p);
  }

  predicate ChecksRows(point: MatchPoint) {
    point.LockRow? || point.CheckTrip? || point.Scan?
  }

  /** What a step of a task does to the row locks. */
  ghost predicate TaskMoved(w: World, p: Pid, z: World)
    requires p in w.calls && w.calls[p].Tasking? && p in z.calls && z.calls[p].Tasking?
  {
    var c := w.calls[p];
    if z.calls[p].task.Ended? then z == Goto(Release(w, p), p, z.calls[p])
    else if c.task.LockRow? then c.ride in w.db.rides && z == Goto(LockedRide(w, p, c.ride), p, z.calls[p])
    else z.rideLocks == w.rideLocks && z.driverLocks == w.driverLocks
  }

  lemma ChecksMove(w: World, p: Pid, raw: seq<Matching.Member>, token: string, ttl: Ttl)
    requires CanAdvance(w, p) && w.calls[p].Tasking? && ChecksRows(w.calls[p].task) && RowsCurrent(w.db, w.calls[p])
    ensures var z := AdvanceTask(w, p, w.calls[p], raw, token, ttl);
      RowsCurrent(w.db, z.calls[p]) && TaskMoved(w, p, z)
  {
  }

  lemma StoresMove(w: World, p: Pid, raw: seq<Matching.Member>, token: string, ttl: Ttl)
    requires CanAdvance(w, p) && w.calls[p].Tasking? && !ChecksRows(w.calls[p].task) && RowsCurrent(w.db, w.calls[p])
    ensures var z := AdvanceTask(w, p, w.calls[p], raw, token, ttl);
      RowsCurrent(w.db, z.calls[p]) && TaskMoved(w, p, z)
  {
  }

  lemma TaskStep(w: World, p: Pid, raw: seq<Matching.Member>, token: string, ttl: Ttl)
    requires SafeFor(w, p) && CanAdvance(w, p) && w.calls[p].Tasking?
    ensures StepOf(w, AdvanceTask(w, p, w.calls[p], raw, token, ttl), p)
  {
    var c := w.calls[p];
    var z := AdvanceTask(w, p, c, raw, token, ttl);
    if ChecksRows(c.task) {
      ChecksMove(w, p, raw, token, ttl);
    } else {
      StoresMove(w, p, raw, token, ttl);
    }
    if z.calls[p].task.Ended? {
      ReleaseStep(w, p, z.calls[p], z);
    } else if c.task.LockRow? {
      LockRideStep(w, p, c.ride, z.calls[p], z);
    } else {
      GotoStep(w, p, z.calls[p], z);
    }
  }

  lemma BeginIsSafe(w: World, p: Pid, c: Call)
    requires Safe(w) && p !in w.calls && Fresh(c)
    ensures Safe(Goto(w, p, c))
  {
    var z := Goto(w, p, c);
    forall q | q in z.calls ensures CallOk(z, q) {
      if q != p {
        assert CallOk(w, q);
      }
    }
  }

  lemma NextIsSafe(w: World, a: Action)
    requires Safe(w)
    ensures Safe(Next(w, a))
  {
    if Enabled(w, a) {
      match a
      case Begin(p, c) => BeginIsSafe(w, p, c);
      case Advance(p, raw, token, ttl) =>
        assert SafeFor(w, p);
        if w.calls[p].Accepting? {
          AcceptStep(w, p);
        } else {
          TaskStep(w, p, raw, token, ttl);
        }
        StepIsSafe(w, Do(w, a), p);
      case Crash(p) =>
        ReleaseStep(w, p, Crashed, Do(w, a));
        StepIsSafe(w, Do(w, a), p);
      case Background(write) => BackgroundIsSafe(w, write);
      case ClearOffer(_, _) => RowsUntouchedIsSafe(w, Do(w, a));
      case Tick(_) => RowsUntouchedIsSafe(w, Do(w, a));
    }
  }

  /** Keys and clock are not part of safety. */
  lemma RowsUntouchedIsSafe(w: World, z: World)
    requires Safe(w) && z == w.(keys := z.keys, now := z.now)
    ensures Safe(z)
  {
    forall q | q in z.calls ensures CallOk(z, q) {
      UndisturbedStaysOk(w, z, q);
    }
  }

  /** Every world that concurrent calls can reach is safe. */
  lemma {:induction false} ExecIsSafe(w: World, actions: seq<Action>)
    requires Idle(w)
    ensures Safe(Exec(w, actions))
  {
    if actions == [] {
    } else {
      ExecIsSafe(w, actions[..|actions| - 1]);
      NextIsSafe(Exec(w, actions[..|actions| - 1]), actions[|actions| - 1]);
    }
  }
}
