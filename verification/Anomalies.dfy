/** What interleaving loses: exactly when an accept leaves the table of transitions, and runs that show the losses. */
module Anomalies {
  import opened Domain
  import opened Offers
  import opened Operations
  import opened Concurrent
  import opened ConcurrentRuns
  import opened Atomicity
  import opened OfferChecks
  import Matching
  import TripFsm

  // When the unchecked trip write is legal

  predicate Cancels(w: Write, t: TripId) {
    w.CancelWrite? && w.cancelled == Some(t)
  }

  /** A commit of another request that writes the trip. */
  predicate Touches(w: Write, t: TripId) {
    Cancels(w, t) || (w.ProgressWrite? && w.trip == t) || (w.EndWrite? && w.trip == t)
  }

  ghost predicate Touched(writes: seq<Write>, t: TripId) {
    exists i :: 0 <= i < |writes| && Touches(writes[i], t)
  }

  ghost predicate Cancelled(writes: seq<Write>, t: TripId) {
    exists i :: 0 <= i < |writes| && Cancels(writes[i], t)
  }

  /** The statuses other requests write. */
  predicate MovedOn(status: TripStatus) {
    || status == TripStatus.InProgress
    || status == TripStatus.Paused
    || TripFsm.Terminal(status)
  }

  /** As long as nobody accepts its ride, a trip waits exactly until another request writes it. */
  ghost predicate WaitsUntilTouched(db: Tables, writes: seq<Write>, t: TripId) {
    && (Touched(writes, t) ==> t in db.trips)
    && (t in db.trips && NoAssignment(writes, db.trips[t].ride) ==>
          if Touched(writes, t) then MovedOn(db.trips[t].status) else db.trips[t].status == TripStatus.Matching)
  }

  /** What one write does to a trip. */
  lemma WriteOfTrip(db: Tables, w: Write, t: TripId)
    requires Meets(db, w)
    ensures var z := Apply(db, w).trips;
      && (t in db.trips ==> t in z && z[t].ride == db.trips[t].ride)
      && (Touches(w, t) ==> t in db.trips && t in z && MovedOn(z[t].status))
      && (Cancels(w, t) ==> t in z && z[t].status == TripStatus.Cancelled)
      && (t !in db.trips && t in z ==> z[t].status == TripStatus.Matching)
      && (t in db.trips && !Touches(w, t) && !AssignsRide(w, db.trips[t].ride) ==> z[t].status == db.trips[t].status)
  {
  }

  lemma TouchedSplits(writes: seq<Write>, t: TripId)
    requires writes != []
    ensures var n := |writes| - 1;
      && (Touched(writes, t) <==> Touched(writes[..n], t) || Touches(writes[n], t))
      && (Cancelled(writes, t) <==> Cancelled(writes[..n], t) || Cancels(writes[n], t))
  {
    var n := |writes| - 1;
    assert forall i :: 0 <= i < n ==> writes[..n][i] == writes[i];
  }

  lemma NoAssignmentSplits(writes: seq<Write>, r: RideId)
    requires writes != []
    ensures var n := |writes| - 1;
      NoAssignment(writes, r) <==> NoAssignment(writes[..n], r) && !AssignsRide(writes[n], r)
  {
    var n := |writes| - 1;
    assert forall i :: 0 <= i < n ==> writes[..n][i] == writes[i];
  }

  lemma {:induction false} TripWaitsUntilTouched(db: Tables, writes: seq<Write>, t: TripId)
    requires AllSucceed(db, writes) && db.trips == map[]
    ensures WaitsUntilTouched(Serial(db, writes), writes, t)
  {
    if writes == [] {
    } else {
      var n := |writes| - 1;
      SucceedPrefix(db, writes);
      TripWaitsUntilTouched(db, writes[..n], t);
      WriteOfTrip(Serial(db, writes[..n]), writes[n], t);
      TouchedSplits(writes, t);
      if t in Serial(db, writes).trips {
        NoAssignmentSplits(writes, Serial(db, writes).trips[t].ride);
      }
    }
  }

  lemma SucceedUpTo(db: Tables, writes: seq<Write>, i: nat)
    requires AllSucceed(db, writes) && i <= |writes|
    ensures AllSucceed(db, writes[..i])
  {
    assert forall k :: 0 <= k < i ==> writes[..i][..k] == writes[..k] && writes[..i][k] == writes[k];
  }

  /** Before an accept commits, no other accept for the ride has. */
  lemma FirstAssignment(db: Tables, writes: seq<Write>, i: nat)
    requires AllSucceed(db, writes) && db.rides == map[] && i < |writes| && writes[i].Assign?
    ensures NoAssignment(writes[..i], writes[i].ride)
  {
    SucceedUpTo(db, writes, i);
    SerialAssignsOnce(db, writes[..i], writes[i].ride);
    assert Meets(Serial(db, writes[..i]), writes[i]);
  }

  /** The trip write of one accept, given what is known of the trip. */
  lemma AssignIsEdgeIff(db: Tables, writes: seq<Write>, d: DriverId, r: RideId)
    requires AcceptRows(db, d, r).Success? && NoAssignment(writes, r)
    requires WaitsUntilTouched(db, writes, TripOf(db.trips, r).value)
    ensures var t, z := TripOf(db.trips, r).value, Apply(db, Assign(d, r)).trips;
      && t in z && z[t].status == TripStatus.DriverAssigned
      && (z[t].status in TripFsm.Allowed(db.trips[t].status) <==> !Touched(writes, t))
  {
  }

  /**
   * The commit of an accept moves the trip to DriverAssigned without asking the table. That is an edge of the
   * table exactly when no commit before it cancelled, started, paused, resumed or ended the trip.
   */
  lemma CommitIsLegalIff(w: World, actions: seq<Action>, i: nat)
    requires Idle(w) && i < |Commits(w, actions)| && Commits(w, actions)[i].Assign?
    ensures var commits := Commits(w, actions);
      var before, after := Serial(w.db, commits[..i]).trips, Serial(w.db, commits[..i + 1]).trips;
      var found := TripOf(before, commits[i].ride);
      && found.Some? && found.value in after && after[found.value].status == TripStatus.DriverAssigned
      && (after[found.value].status in TripFsm.Allowed(before[found.value].status)
          <==> !Touched(commits[..i], found.value))
  {
    RunIsSerial(w, actions);
    var commits := Commits(w, actions);
    var before := Serial(w.db, commits[..i]);
    assert Meets(before, commits[i]);
    SerialStep(w.db, commits, i + 1);
    FirstAssignment(w.db, commits, i);
    SucceedUpTo(w.db, commits, i);
    TripWaitsUntilTouched(w.db, commits[..i], TripOf(before.trips, commits[i].ride).value);
    AssignIsEdgeIff(before, commits[..i], commits[i].driver, commits[i].ride);
  }

  /** The transition check of start, pause, resume and end, made on the trip as it was at some earlier commit. */
  ghost predicate CheckedEarlier(db: Tables, writes: seq<Write>, i: nat)
    requires i < |writes|
  {
    writes[i].ProgressWrite? || writes[i].EndWrite? ==>
      exists k :: 0 <= k <= i && AllowedAt(Serial(db, writes[..k]).trips, writes[i].trip, writes[i].row.status)
  }

  predicate AllowedAt(trips: map<TripId, Trip>, t: TripId, next: TripStatus) {
    t in trips && next in TripFsm.Allowed(trips[t].status)
  }

  ghost predicate AllCheckedEarlier(db: Tables, writes: seq<Write>) {
    forall i :: 0 <= i < |writes| ==> CheckedEarlier(db, writes, i)
  }

  lemma CheckedUpTo(db: Tables, writes: seq<Write>, n: nat)
    requires AllCheckedEarlier(db, writes) && n <= |writes|
    ensures AllCheckedEarlier(db, writes[..n])
  {
    forall i | 0 <= i < n ensures CheckedEarlier(db, writes[..n], i) {
      assert CheckedEarlier(db, writes, i);
      assert forall k :: 0 <= k <= i ==> writes[..n][..k] == writes[..k];
    }
  }

  /** A trip stays in the table and with its ride. */
  lemma {:induction false} TripStays(db: Tables, writes: seq<Write>, k: nat, t: TripId)
    requires AllSucceed(db, writes) && k <= |writes| && t in Serial(db, writes[..k]).trips
    ensures var y, z := Serial(db, writes[..k]).trips, Serial(db, writes).trips;
      t in z && z[t].ride == y[t].ride
  {
    if k == |writes| {
      assert writes[..k] == writes;
    } else {
      var n := |writes| - 1;
      SucceedPrefix(db, writes);
      assert writes[..n][..k] == writes[..k];
      TripStays(db, writes[..n], k, t);
      WriteOfTrip(Serial(db, writes[..n]), writes[n], t);
    }
  }

  /** A trip that only ever waited or was cancelled passes no transition check but the accept's own edge. */
  lemma NoCheckPassed(status: TripStatus, next: TripStatus)
    requires status == TripStatus.Matching || status == TripStatus.Cancelled
    requires next == TripStatus.InProgress || next == TripStatus.Paused || next == TripStatus.Completed
    ensures next !in TripFsm.Allowed(status)
  {
  }

  ghost predicate WaitsUntilCancelled(db: Tables, writes: seq<Write>, t: TripId) {
    t in db.trips && NoAssignment(writes, db.trips[t].ride) ==>
      && (Touched(writes, t) <==> Cancelled(writes, t))
      && (db.trips[t].status == TripStatus.Matching || db.trips[t].status == TripStatus.Cancelled)
  }

  lemma NeverAllowedSoFar(db: Tables, writes: seq<Write>, k: nat, t: TripId, next: TripStatus)
    requires AllSucceed(db, writes) && k <= |writes| && WaitsUntilCancelled(Serial(db, writes[..k]), writes[..k], t)
    requires var z := Serial(db, writes).trips; t in z && NoAssignment(writes, z[t].ride)
    requires next == TripStatus.InProgress || next == TripStatus.Paused || next == TripStatus.Completed
    ensures !AllowedAt(Serial(db, writes[..k]).trips, t, next)
  {
    var y := Serial(db, writes[..k]).trips;
    if t in y {
      TripStays(db, writes, k, t);
      assert NoAssignment(writes[..k], y[t].ride);
      NoCheckPassed(y[t].status, next);
    }
  }

  /** A last write that touches the trip is a cancel. */
  lemma LastTouchCancels(db: Tables, writes: seq<Write>, t: TripId)
    requires AllSucceed(db, writes) && AllCheckedEarlier(db, writes) && writes != []
    requires forall k :: 0 <= k < |writes| ==> WaitsUntilCancelled(Serial(db, writes[..k]), writes[..k], t)
    requires var z := Serial(db, writes).trips; t in z && NoAssignment(writes, z[t].ride)
    ensures var last := writes[|writes| - 1]; Touches(last, t) ==> Cancels(last, t)
  {
    var n := |writes| - 1;
    var last := writes[n];
    if last.ProgressWrite? || last.EndWrite? {
      assert CheckedEarlier(db, writes, n) && Meets(Serial(db, writes[..n]), last);
      var k :| 0 <= k <= n && AllowedAt(Serial(db, writes[..k]).trips, last.trip, last.row.status);
      if last.trip == t {
        NeverAllowedSoFar(db, writes, k, t, last.row.status);
      }
    }
  }

  lemma WaitsOneMore(db: Tables, writes: seq<Write>, t: TripId)
    requires AllSucceed(db, writes) && writes != []
    requires var n := |writes| - 1; WaitsUntilCancelled(Serial(db, writes[..n]), writes[..n], t)
    requires var n := |writes| - 1; WaitsUntilTouched(Serial(db, writes[..n]), writes[..n], t)
    requires var z, last := Serial(db, writes).trips, writes[|writes| - 1];
      t in z && NoAssignment(writes, z[t].ride) && Touches(last, t) ==> Cancels(last, t)
    ensures WaitsUntilCancelled(Serial(db, writes), writes, t)
  {
    var n := |writes| - 1;
    SucceedPrefix(db, writes);
    WriteOfTrip(Serial(db, writes[..n]), writes[n], t);
    TouchedSplits(writes, t);
    if t in Serial(db, writes).trips {
      NoAssignmentSplits(writes, Serial(db, writes).trips[t].ride);
    }
  }

  lemma WaitsAfterPrefixes(db: Tables, writes: seq<Write>, t: TripId)
    requires AllSucceed(db, writes) && AllCheckedEarlier(db, writes) && db.trips == map[] && writes != []
    requires forall k :: 0 <= k < |writes| ==> WaitsUntilCancelled(Serial(db, writes[..k]), writes[..k], t)
    ensures WaitsUntilCancelled(Serial(db, writes), writes, t)
  {
    var n := |writes| - 1;
    if t in Serial(db, writes).trips && NoAssignment(writes, Serial(db, writes).trips[t].ride) {
      LastTouchCancels(db, writes, t);
    }
    SucceedUpTo(db, writes, n);
    TripWaitsUntilTouched(db, writes[..n], t);
    WaitsOneMore(db, writes, t);
  }

  /** Nobody starts or ends a trip whose ride nobody has accepted, so only a cancel can touch it. */
  lemma {:induction false} OnlyCancelsTouch(db: Tables, writes: seq<Write>, t: TripId)
    requires AllSucceed(db, writes) && AllCheckedEarlier(db, writes) && db.trips == map[]
    ensures WaitsUntilCancelled(Serial(db, writes), writes, t)
    decreases |writes|
  {
    if writes == [] {
    } else {
      forall k | 0 <= k < |writes| ensures WaitsUntilCancelled(Serial(db, writes[..k]), writes[..k], t) {
        SucceedUpTo(db, writes, k);
        CheckedUpTo(db, writes, k);
        OnlyCancelsTouch(db, writes[..k], t);
      }
      WaitsAfterPrefixes(db, writes, t);
    }
  }

  /**
   * When start, pause, resume and end have checked the transition on some earlier state of the trip, as the code
   * does, the accept's write is an edge exactly when no commit before it cancelled the trip.
   */
  lemma OnlyCancelsMakeItIllegal(w: World, actions: seq<Action>, i: nat)
    requires Idle(w) && i < |Commits(w, actions)| && Commits(w, actions)[i].Assign?
    requires AllCheckedEarlier(w.db, Commits(w, actions))
    ensures var commits := Commits(w, actions);
      var before := Serial(w.db, commits[..i]).trips;
      var found := TripOf(before, commits[i].ride);
      && found.Some?
      && (TripStatus.DriverAssigned in TripFsm.Allowed(before[found.value].status)
          <==> !Cancelled(commits[..i], found.value))
  {
    CommitIsLegalIff(w, actions, i);
    RunIsSerial(w, actions);
    var commits := Commits(w, actions);
    FirstAssignment(w.db, commits, i);
    SucceedUpTo(w.db, commits, i);
    CheckedUpTo(w.db, commits, i);
    OnlyCancelsTouch(w.db, commits[..i], TripOf(Serial(w.db, commits[..i]).trips, commits[i].ride).value);
  }
}
