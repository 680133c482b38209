/** What holds over whole runs of concurrent accepts and matching tasks. */
module ConcurrentRuns {
  import opened Domain
  import opened Offers
  import opened Operations
  import opened Concurrent
  import Matching

  // Linearization at the commit

  /** What an action commits. */
  ghost function Committed(w: World, a: Action): seq<Write> {
    if !Enabled(w, a) then []
    else if a.Background? then [a.write]
    else if a.Advance? && w.calls[a.pid].Accepting? && w.calls[a.pid].point.Commit?
    then [Assign(w.calls[a.pid].driver, w.calls[a.pid].ride)]
    else []
  }

  /** All commits of a run, in commit order. */
  ghost function Commits(w: World, actions: seq<Action>): seq<Write> {
    if actions == [] then []
    else
      var rest := actions[..|actions| - 1];
      Commits(w, rest) + Committed(Exec(w, rest), actions[|actions| - 1])
  }

  /** The same writes, one after the other. */
  ghost function Serial(db: Tables, writes: seq<Write>): Tables {
    if writes == [] then db else Apply(Serial(db, writes[..|writes| - 1]), writes[|writes| - 1])
  }

  /** An assignment passes the guards of the serial transaction; any other write finds the rows it read. */
  ghost predicate Meets(db: Tables, w: Write) {
    if w.Assign? then AcceptRows(db, w.driver, w.ride).Success? else Possible(db, w)
  }

  /** Every write meets its guards when its turn comes. */
  ghost predicate AllSucceed(db: Tables, writes: seq<Write>) {
    forall i :: 0 <= i < |writes| ==> Meets(Serial(db, writes[..i]), writes[i])
  }

  /** The unguarded writes of a commit are the guarded serial transaction. */
  lemma CommitIsSerial(w: World, p: Pid)
    requires SafeFor(w, p) && w.calls[p].Accepting? && w.calls[p].point.Commit?
    ensures AcceptRows(w.db, w.calls[p].driver, w.calls[p].ride).Success?
    ensures AdvanceAccept(w, p, w.calls[p]).db == Apply(w.db, Assign(w.calls[p].driver, w.calls[p].ride))
  {
  }

  lemma ActionIsSerial(w: World, a: Action)
    requires Safe(w)
    ensures Next(w, a).db == Serial(w.db, Committed(w, a)) && AllSucceed(w.db, Committed(w, a))
  {
    var writes := Committed(w, a);
    if |writes| == 1 {
      assert writes[..0] == [] && Serial(w.db, writes[..0]) == w.db;
      if a.Advance? {
        assert SafeFor(w, a.pid);
        CommitIsSerial(w, a.pid);
      }
    }
  }

  lemma {:induction false} SerialAppend(db: Tables, a: seq<Write>, b: seq<Write>)
    ensures Serial(db, a + b) == Serial(Serial(db, a), b)
  {
    if b == [] {
      assert a + b == a;
    } else {
      SerialAppend(db, a, b[..|b| - 1]);
      assert (a + b)[..|a + b| - 1] == a + b[..|b| - 1];
    }
  }

  lemma SucceedAppend(db: Tables, a: seq<Write>, b: seq<Write>)
    requires AllSucceed(db, a) && AllSucceed(Serial(db, a), b)
    ensures AllSucceed(db, a + b)
  {
    forall i | 0 <= i < |a + b| ensures Meets(Serial(db, (a + b)[..i]), (a + b)[i]) {
      if i < |a| {
        assert (a + b)[..i] == a[..i];
      } else {
        assert (a + b)[..i] == a + b[..i - |a|];
        SerialAppend(db, a, b[..i - |a|]);
      }
    }
  }

  /**
   * Linearization: the tables after any interleaving are those of the commits run one after the other
   * in commit order, and every accept among them passes the guards of the serial transaction there.
   */
  lemma {:induction false} RunIsSerial(w: World, actions: seq<Action>)
    requires Idle(w)
    ensures Exec(w, actions).db == Serial(w.db, Commits(w, actions))
    ensures AllSucceed(w.db, Commits(w, actions))
  {
    if actions == [] {
    } else {
      var rest, a := actions[..|actions| - 1], actions[|actions| - 1];
      RunIsSerial(w, rest);
      ExecIsSafe(w, rest);
      ActionIsSerial(Exec(w, rest), a);
      SerialAppend(w.db, Commits(w, rest), Committed(Exec(w, rest), a));
      SucceedAppend(w.db, Commits(w, rest), Committed(Exec(w, rest), a));
    }
  }

  // Single assignment

  predicate AssignsRide(w: Write, r: RideId) {
    w.Assign? && w.ride == r
  }

  function DriverOf(db: Tables, r: RideId): Option<DriverId> {
    if r in db.rides then db.rides[r].driver else None
  }

  lemma OnlyAssignWritesDrivers(db: Tables, w: Write, r: RideId)
    requires !AssignsRide(w, r)
    ensures DriverOf(Apply(db, w), r) == DriverOf(db, r)
  {
  }

  lemma AssignWritesDriver(db: Tables, d: DriverId, r: RideId)
    requires AcceptRows(db, d, r).Success?
    ensures DriverOf(db, r).None? && DriverOf(Apply(db, Assign(d, r)), r) == Some(d)
  {
  }

  /** One commit for `r`, and its driver. */
  ghost predicate OnlyAssignment(writes: seq<Write>, i: int, d: DriverId, r: RideId) {
    && 0 <= i < |writes| && writes[i] == Assign(d, r)
    && forall j :: 0 <= j < |writes| && AssignsRide(writes[j], r) ==> j == i
  }

  ghost predicate NoAssignment(writes: seq<Write>, r: RideId) {
    forall i :: 0 <= i < |writes| ==> !AssignsRide(writes[i], r)
  }

  lemma LastWriteOfDriver(db: Tables, w: Write, r: RideId)
    requires Meets(db, w)
    ensures AssignsRide(w, r) ==> DriverOf(db, r).None? && DriverOf(Apply(db, w), r) == Some(w.driver)
    ensures !AssignsRide(w, r) ==> DriverOf(Apply(db, w), r) == DriverOf(db, r)
  {
    if AssignsRide(w, r) {
      AssignWritesDriver(db, w.driver, r);
    } else {
      OnlyAssignWritesDrivers(db, w, r);
    }
  }

  lemma SucceedPrefix(db: Tables, writes: seq<Write>)
    requires writes != [] && AllSucceed(db, writes)
    ensures var n := |writes| - 1;
      && AllSucceed(db, writes[..n])
      && Meets(Serial(db, writes[..n]), writes[n])
  {
    var n := |writes| - 1;
    assert forall i :: 0 <= i < n ==> writes[..n][..i] == writes[..i] && writes[..n][i] == writes[i];
  }

  lemma {:induction false} SerialAssignsOnce(db: Tables, writes: seq<Write>, r: RideId)
    requires AllSucceed(db, writes) && DriverOf(db, r).None?
    ensures var d := DriverOf(Serial(db, writes), r);
      if d.None? then NoAssignment(writes, r) else exists i :: OnlyAssignment(writes, i, d.value, r)
  {
    if writes == [] {
    } else {
      var n := |writes| - 1;
      var rest, last := writes[..n], writes[n];
      SucceedPrefix(db, writes);
      SerialAssignsOnce(db, rest, r);
      var before := Serial(db, rest);
      LastWriteOfDriver(before, last, r);
      ExtendAssignment(writes, r, DriverOf(before, r), DriverOf(Serial(db, writes), r));
    }
  }

  lemma ExtendAssignment(writes: seq<Write>, r: RideId, was: Option<DriverId>, now: Option<DriverId>)
    requires writes != []
    requires var rest := writes[..|writes| - 1];
      if was.None? then NoAssignment(rest, r) else exists i :: OnlyAssignment(rest, i, was.value, r)
    requires var last := writes[|writes| - 1];
      if AssignsRide(last, r) then was.None? && now == Some(last.driver) else now == was
    ensures if now.None? then NoAssignment(writes, r) else exists i :: OnlyAssignment(writes, i, now.value, r)
  {
    var n := |writes| - 1;
    var rest := writes[..n];
    if AssignsRide(writes[n], r) {
      assert forall j :: 0 <= j < n ==> rest[j] == writes[j];
      assert OnlyAssignment(writes, n, now.value, r);
    } else if now.Some? {
      var i :| OnlyAssignment(rest, i, now.value, r);
      assert OnlyAssignment(writes, i, now.value, r);
    }
  }

  /** A ride has a driver exactly when one accept for it has committed; it is the only one, and it set the driver. */
  lemma SingleAssignment(w: World, actions: seq<Action>, r: RideId)
    requires Idle(w)
    ensures var d, commits := DriverOf(Exec(w, actions).db, r), Commits(w, actions);
      if d.None? then NoAssignment(commits, r) else exists i :: OnlyAssignment(commits, i, d.value, r)
  {
    RunIsSerial(w, actions);
    SerialAssignsOnce(w.db, Commits(w, actions), r);
  }

  /** Once written, the driver of a ride is never written again. */
  lemma NextKeepsDriver(w: World, a: Action, r: RideId)
    requires Safe(w) && DriverOf(w.db, r).Some?
    ensures DriverOf(Next(w, a).db, r) == DriverOf(w.db, r)
  {
    ActionIsSerial(w, a);
    var writes := Committed(w, a);
    if |writes| == 1 {
      assert writes[..0] == [] && Serial(w.db, writes[..0]) == w.db;
      assert Serial(w.db, writes) == Apply(w.db, writes[0]);
      if AssignsRide(writes[0], r) {
        AssignWritesDriver(w.db, writes[0].driver, r);
        assert false;
      }
      OnlyAssignWritesDrivers(w.db, writes[0], r);
    }
  }

  lemma {:induction false} DriverIsWrittenOnce(w: World, actions: seq<Action>, i: nat, r: RideId)
    requires Idle(w) && i <= |actions| && DriverOf(Exec(w, actions[..i]).db, r).Some?
    ensures DriverOf(Exec(w, actions).db, r) == DriverOf(Exec(w, actions[..i]).db, r)
  {
    if i == |actions| {
      assert actions[..i] == actions;
    } else {
      var n := |actions| - 1;
      assert actions[..n][..i] == actions[..i];
      DriverIsWrittenOnce(w, actions[..n], i, r);
      ExecIsSafe(w, actions[..n]);
      NextKeepsDriver(Exec(w, actions[..n]), actions[n], r);
    }
  }

  lemma ApplyKeepsDriverRows(db: Tables, w: Write, d: DriverId)
    requires d in db.drivers
    ensures var z := Apply(db, w).drivers; d in z && z[d] == db.drivers[d].(status := z[d].status)
  {
  }

  lemma NextKeepsDriverRows(w: World, a: Action, d: DriverId)
    requires Safe(w) && d in w.db.drivers
    ensures var z := Next(w, a).db.drivers; d in z && z[d] == w.db.drivers[d].(status := z[d].status)
  {
    ActionIsSerial(w, a);
    var writes := Committed(w, a);
    if |writes| == 1 {
      assert writes[..0] == [] && Serial(w.db, writes[..0]) == w.db;
      assert Serial(w.db, writes) == Apply(w.db, writes[0]);
      ApplyKeepsDriverRows(w.db, writes[0], d);
    }
  }

  /** A driver's row is never removed, and its tier and rating never change. */
  lemma {:induction false} DriverRowsStay(w: World, actions: seq<Action>, i: nat, d: DriverId)
    requires Idle(w) && i <= |actions| && d in Exec(w, actions[..i]).db.drivers
    ensures var y, z := Exec(w, actions[..i]).db.drivers, Exec(w, actions).db.drivers;
      d in z && z[d].tier == y[d].tier && z[d].rating == y[d].rating
  {
    if i == |actions| {
      assert actions[..i] == actions;
    } else {
      var n := |actions| - 1;
      assert actions[..n][..i] == actions[..i];
      DriverRowsStay(w, actions[..n], i, d);
      ExecIsSafe(w, actions[..n]);
      NextKeepsDriverRows(Exec(w, actions[..n]), actions[n], d);
    }
  }

  // Drivers between two accepts

  /** The writes that make a driver available: the driver's own word, or the end of the driver's trip. */
  predicate SetsOnline(db: Tables, w: Write, d: DriverId) {
    || w == AvailabilityWrite(d, Online)
    || (w.EndWrite? && w.frees && FreedDriver(db, w.trip) == Some(d))
  }

  lemma OnlineHasCause(db: Tables, w: Write, d: DriverId)
    requires Matching.IsOnline(Apply(db, w).drivers, d) && !Matching.IsOnline(db.drivers, d)
    ensures SetsOnline(db, w, d)
  {
  }

  lemma AssignMakesBusy(db: Tables, d: DriverId, r: RideId)
    requires AcceptRows(db, d, r).Success?
    ensures !Matching.IsOnline(Apply(db, Assign(d, r)).drivers, d)
  {
  }

  lemma SerialStep(db: Tables, writes: seq<Write>, m: nat)
    requires 0 < m <= |writes|
    ensures Serial(db, writes[..m]) == Apply(Serial(db, writes[..m - 1]), writes[m - 1])
  {
    assert writes[..m][..m - 1] == writes[..m - 1];
  }

  /** Why a driver is online after a commit. */
  lemma OnlineStep(db: Tables, writes: seq<Write>, m: nat, d: DriverId)
    requires AllSucceed(db, writes) && 0 < m <= |writes| && Matching.IsOnline(Serial(db, writes[..m]).drivers, d)
    ensures var before, last := Serial(db, writes[..m - 1]), writes[m - 1];
      || SetsOnline(before, last, d)
      || (Matching.IsOnline(before.drivers, d) && !(last.Assign? && last.driver == d))
  {
    var before, last := Serial(db, writes[..m - 1]), writes[m - 1];
    SerialStep(db, writes, m);
    if last.Assign? && last.driver == d {
      AssignMakesBusy(before, d, last.ride);
    } else if !Matching.IsOnline(before.drivers, d) {
      OnlineHasCause(before, last, d);
    }
  }

  /** A fact that holds at `m`, but not right after `i`, was made true in between. */
  lemma {:induction false} CauseBetween(holds: seq<bool>, made: seq<bool>, i: nat, m: nat)
    requires |holds| == |made| + 1 && i < m <= |made| && holds[m] && !made[i]
    requires forall k :: i < k <= |made| && holds[k] ==> made[k - 1] || (holds[k - 1] && k - 1 != i)
    ensures exists k :: i < k < m && made[k]
  {
    if made[m - 1] {
    } else {
      CauseBetween(holds, made, i, m - 1);
    }
  }

  ghost function OnlineTimes(db: Tables, writes: seq<Write>, d: DriverId): (times: seq<bool>)
    ensures |times| == |writes| + 1
    ensures forall k :: 0 <= k <= |writes| ==> times[k] == Matching.IsOnline(Serial(db, writes[..k]).drivers, d)
  {
    seq(|writes| + 1, k requires 0 <= k <= |writes| => Matching.IsOnline(Serial(db, writes[..k]).drivers, d))
  }

  ghost function OnlineWrites(db: Tables, writes: seq<Write>, d: DriverId): (makers: seq<bool>)
    ensures |makers| == |writes|
    ensures forall k :: 0 <= k < |writes| ==> makers[k] == SetsOnline(Serial(db, writes[..k]), writes[k], d)
  {
    seq(|writes|, k requires 0 <= k < |writes| => SetsOnline(Serial(db, writes[..k]), writes[k], d))
  }

  lemma OnlineSince(db: Tables, writes: seq<Write>, i: nat, m: nat, d: DriverId)
    requires AllSucceed(db, writes) && i < m <= |writes| && writes[i].Assign? && writes[i].driver == d
    requires OnlineTimes(db, writes, d)[m]
    ensures exists k :: i < k < m && OnlineWrites(db, writes, d)[k]
  {
    var times, makers := OnlineTimes(db, writes, d), OnlineWrites(db, writes, d);
    forall k | i < k <= |writes| && times[k] ensures makers[k - 1] || (times[k - 1] && k - 1 != i) {
      OnlineStep(db, writes, k, d);
    }
    CauseBetween(times, makers, i, m);
  }

  /** Between two committed accepts by one driver some commit puts that driver online. */
  lemma OnlineBetweenAccepts(w: World, actions: seq<Action>, i: nat, j: nat, d: DriverId)
    requires Idle(w) && i < j < |Commits(w, actions)|
    requires Commits(w, actions)[i].Assign? && Commits(w, actions)[i].driver == d
    requires Commits(w, actions)[j].Assign? && Commits(w, actions)[j].driver == d
    ensures var commits := Commits(w, actions);
      exists k :: i < k < j && SetsOnline(Serial(w.db, commits[..k]), commits[k], d)
  {
    RunIsSerial(w, actions);
    var commits := Commits(w, actions);
    assert Meets(Serial(w.db, commits[..j]), commits[j]);
    assert OnlineTimes(w.db, commits, d)[j];
    OnlineSince(w.db, commits, i, j, d);
    var k :| i < k < j && OnlineWrites(w.db, commits, d)[k];
    assert SetsOnline(Serial(w.db, commits[..k]), commits[k], d);
  }

  // Offers

  /** At most one call at a time holds a ride, so one task at most is between its check and its store. */
  lemma OneHolderPerRide(w: World, actions: seq<Action>, p: Pid, q: Pid, r: RideId)
    requires Idle(w)
    requires var z := Exec(w, actions);
      p in z.calls && q in z.calls && HoldsRide(z.calls[p], r) && HoldsRide(z.calls[q], r)
    ensures p == q
  {
    ExecIsSafe(w, actions);
    var z := Exec(w, actions);
    assert CallOk(z, p) && CallOk(z, q);
  }

  predicate Stores(w: World, a: Action, r: RideId) {
    && a.Advance? && Enabled(w, a)
    && w.calls[a.pid].Tasking? && w.calls[a.pid].ride == r && w.calls[a.pid].task.StoreOffer?
  }

  /** An offer is stored only while the committed ride still waits. */
  lemma StoresOnlyWhileWaiting(w: World, actions: seq<Action>, a: Action, r: RideId)
    requires Idle(w) && Stores(Exec(w, actions), a, r)
    ensures var db := Exec(w, actions).db;
      r in db.rides && db.rides[r].status == RideStatus.Matching && db.rides[r].driver.None?
  {
    ExecIsSafe(w, actions);
    assert CallOk(Exec(w, actions), a.pid);
  }

  lemma NoStoreAfterAssignment(w: World, actions: seq<Action>, i: nat, j: nat, r: RideId)
    requires Idle(w) && i <= j < |actions| && DriverOf(Exec(w, actions[..i]).db, r).Some?
    ensures !Stores(Exec(w, actions[..j]), actions[j], r)
  {
    assert actions[..j][..i] == actions[..i];
    DriverIsWrittenOnce(w, actions[..j], i, r);
    if Stores(Exec(w, actions[..j]), actions[j], r) {
      StoresOnlyWhileWaiting(w, actions[..j], actions[j], r);
    }
  }

  // Progress

  /** Steps a call still has before it. */
  function Remaining(c: Call): nat {
    match c
    case Accepting(_, _, _, point) =>
      (match point
       case ReadDriverKey => 7
       case ReadRideKey(_) => 6
       case LockRide => 5
       case LockDriver(_) => 4
       case ReadTrip(_, _) => 3
       case Commit(_) => 2
       case ClearKeys(_) => 1
       case Returned(_) => 0)
    case Tasking(_, task) =>
      (match task
       case LockRow => 7
       case CheckTrip(_) => 6
       case Scan(_) => 5
       case TakeAssignLock(_) => 4
       case StoreOffer(_) => 3
       case DropAssignLock => 2
       case EndTask => 1
       case Ended => 0)
    case Crashed => 0
  }

  /** The call at the end of the chain of waits: a blocked call, the ride's holder, the driver's holder. */
  lemma NobodyWaitsForever(w: World, p: Pid) returns (q: Pid)
    requires Safe(w) && p in w.calls && !Finished(w.calls[p])
    ensures CanAdvance(w, q)
  {
    q := p;
    if Blocked(w, w.calls[q]) && !(w.calls[q].Accepting? && w.calls[q].point.LockDriver?) {
      q := w.rideLocks[w.calls[q].ride];
      assert HoldsRide(w.calls[q], w.calls[p].ride);
    }
    if Blocked(w, w.calls[q]) {
      var d := w.calls[q].driver;
      q := w.driverLocks[d];
      assert HoldsDriver(w.calls[q], d);
    }
  }

  /** No deadlock: while some call is unfinished, some call can advance. */
  lemma NoDeadlock(w: World, actions: seq<Action>)
    requires Idle(w)
    ensures var z := Exec(w, actions);
      (exists p :: p in z.calls && !Finished(z.calls[p])) <==> (exists q :: CanAdvance(z, q))
  {
    ExecIsSafe(w, actions);
    var z := Exec(w, actions);
    if p :| p in z.calls && !Finished(z.calls[p]) {
      var q := NobodyWaitsForever(z, p);
    }
  }

  /** The steps taken for one call. */
  ghost function StepsOf(w: World, actions: seq<Action>, p: Pid): nat {
    if actions == [] then 0
    else
      var rest, a := actions[..|actions| - 1], actions[|actions| - 1];
      StepsOf(w, rest, p) + if a.Advance? && a.pid == p && Enabled(Exec(w, rest), a) then 1 else 0
  }

  lemma CheckGetsCloser(w: World, p: Pid, c: Call)
    requires p in w.calls && w.calls[p] == c && c.Accepting?
    requires c.point.ReadDriverKey? || c.point.ReadRideKey? || c.point.LockRide?
    ensures Remaining(AdvanceAccept(w, p, c).calls[p]) < Remaining(c)
  {
  }

  lemma TransactionGetsCloser(w: World, p: Pid, c: Call)
    requires p in w.calls && w.calls[p] == c && c.Accepting? && RowsCurrent(w.db, c)
    requires c.point.LockDriver? || c.point.ReadTrip? || c.point.Commit? || c.point.ClearKeys?
    ensures Remaining(AdvanceAccept(w, p, c).calls[p]) < Remaining(c)
  {
  }

  lemma AcceptGetsCloser(w: World, p: Pid, c: Call)
    requires p in w.calls && w.calls[p] == c
    requires c.Accepting? && !c.point.Returned? && RowsCurrent(w.db, c)
    ensures Remaining(AdvanceAccept(w, p, c).calls[p]) < Remaining(c)
  {
    if c.point.ReadDriverKey? || c.point.ReadRideKey? || c.point.LockRide? {
      CheckGetsCloser(w, p, c);
    } else {
      TransactionGetsCloser(w, p, c);
    }
  }

  lemma TaskGetsCloser(w: World, p: Pid, c: Call, raw: seq<Matching.Member>, token: string, ttl: Ttl)
    requires p in w.calls && w.calls[p] == c
    requires c.Tasking? && !c.task.Ended?
    ensures Remaining(AdvanceTask(w, p, c, raw, token, ttl).calls[p]) < Remaining(c)
  {
  }

  /** Only its own steps bring a call closer to its end; nothing sends it back. */
  lemma StepsCount(w: World, a: Action, p: Pid)
    requires Safe(w)
    ensures p in w.calls ==> p in Next(w, a).calls
    ensures p in w.calls ==>
      Remaining(Next(w, a).calls[p]) + (if a.Advance? && a.pid == p && Enabled(w, a) then 1 else 0)
      <= Remaining(w.calls[p])
    ensures p !in w.calls && p in Next(w, a).calls ==> Remaining(Next(w, a).calls[p]) == 7
  {
    if a.Advance? && Enabled(w, a) {
      var c := w.calls[a.pid];
      assert CallOk(w, a.pid);
      if c.Accepting? {
        AcceptGetsCloser(w, a.pid, c);
      } else {
        TaskGetsCloser(w, a.pid, c, a.raw, a.token, a.ttl);
      }
    }
  }

  /** No call takes more than seven steps of its own, however the others are interleaved. */
  lemma {:induction false} CallsAreShort(w: World, actions: seq<Action>, p: Pid)
    requires Idle(w)
    ensures p !in Exec(w, actions).calls ==> StepsOf(w, actions, p) == 0
    ensures p in Exec(w, actions).calls ==> StepsOf(w, actions, p) + Remaining(Exec(w, actions).calls[p]) <= 7
  {
    if actions == [] {
    } else {
      var rest, a := actions[..|actions| - 1], actions[|actions| - 1];
      CallsAreShort(w, rest, p);
      ExecIsSafe(w, rest);
      StepsCount(Exec(w, rest), a, p);
    }
  }
}
