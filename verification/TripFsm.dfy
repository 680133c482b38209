/** The trip state machine and the ride status that goes with each trip status. */
module TripFsm {
  import opened Domain

  function Allowed(current: TripStatus): set<TripStatus> {
    match current
    case Requested => {TripStatus.Matching, TripStatus.Cancelled}
    case Matching => {TripStatus.DriverAssigned, TripStatus.Cancelled}
    case DriverAssigned => {TripStatus.DriverArriving, TripStatus.InProgress, TripStatus.Cancelled}
    case DriverArriving => {TripStatus.InProgress, TripStatus.Cancelled}
    case InProgress => {TripStatus.Paused, TripStatus.Completed, TripStatus.Cancelled}
    case Paused => {TripStatus.InProgress, TripStatus.Cancelled}
    case Completed => {}
    case Cancelled => {}
  }

  function AssertTransition(current: TripStatus, next: TripStatus): Result<TripStatus> {
    if next in Allowed(current) then Success(next) else Failure(IllegalTransition(current, next))
  }

  /** The lookup of trips.py; two trip statuses have no entry. */
  function AlignRideStatus(status: TripStatus): Option<RideStatus> {
    match status
    case DriverAssigned => Some(RideStatus.DriverAssigned)
    case DriverArriving => Some(RideStatus.DriverArriving)
    case InProgress => Some(RideStatus.InProgress)
    case Paused => Some(RideStatus.InProgress)
    case Completed => Some(RideStatus.Completed)
    case Cancelled => Some(RideStatus.Cancelled)
    case Requested => None
    case Matching => None
  }

  /** How far a trip has come; pausing does not count as progress. */
  function Rank(status: TripStatus): nat {
    match status
    case Requested => 0
    case Matching => 1
    case DriverAssigned => 2
    case DriverArriving => 3
    case InProgress => 4
    case Paused => 4
    case Completed => 5
    case Cancelled => 5
  }

  predicate Terminal(status: TripStatus) {
    status == TripStatus.Completed || status == TripStatus.Cancelled
  }

  /** The two edges between InProgress and Paused. */
  predicate PauseEdge(a: TripStatus, b: TripStatus) {
    || (a == TripStatus.InProgress && b == TripStatus.Paused)
    || (a == TripStatus.Paused && b == TripStatus.InProgress)
  }

  /**
   * The whole table in terms of rank: one rank up, except to or from a pause; a start that skips the arrival;
   * pausing and resuming; and cancelling from anywhere but the end.
   */
  lemma TableIsAlmostLinear(a: TripStatus, b: TripStatus)
    ensures b in Allowed(a) <==>
      || (Rank(b) == Rank(a) + 1 && a != TripStatus.Paused && b != TripStatus.Paused)
      || (a == TripStatus.DriverAssigned && b == TripStatus.InProgress)
      || PauseEdge(a, b)
      || (b == TripStatus.Cancelled && Rank(a) < 5)
  {
  }

  /**
   * A trip has a ride status from its assignment on, its own except that a pause counts as progress, and what is
   * over for the trip is over for the ride.
   */
  lemma AlignmentFollowsTheTrip(a: TripStatus, b: TripStatus)
    ensures AlignRideStatus(a).Some? <==> 2 <= Rank(a)
    ensures AlignRideStatus(a).Some? && AlignRideStatus(a) == AlignRideStatus(b) <==>
            AlignRideStatus(a).Some? && (a == b || PauseEdge(a, b))
    ensures AlignRideStatus(TripStatus.DriverAssigned) == Some(RideStatus.DriverAssigned)
    ensures AlignRideStatus(TripStatus.DriverArriving) == Some(RideStatus.DriverArriving)
    ensures AlignRideStatus(TripStatus.InProgress) == Some(RideStatus.InProgress)
    ensures AlignRideStatus(TripStatus.Completed) == Some(RideStatus.Completed)
    ensures AlignRideStatus(TripStatus.Cancelled) == Some(RideStatus.Cancelled)
  {
  }

  /** One walk along the table. */
  predicate Path(statuses: seq<TripStatus>) {
    && 0 < |statuses|
    && forall i :: 0 <= i < |statuses| - 1 ==> statuses[i + 1] in Allowed(statuses[i])
  }

  function NonPauseEdges(statuses: seq<TripStatus>): nat {
    if |statuses| < 2 then 0
    else
      var n := |statuses|;
      NonPauseEdges(statuses[..n - 1]) + if PauseEdge(statuses[n - 2], statuses[n - 1]) then 0 else 1
  }

  lemma EdgeRank(a: TripStatus, b: TripStatus)
    requires b in Allowed(a)
    ensures Rank(a) <= Rank(b)
    ensures Rank(a) == Rank(b) <==> PauseEdge(a, b)
    ensures !Terminal(a)
  {
  }

  /** Pausing and resuming may repeat for ever; every other edge is paid for in rank. */
  lemma {:induction false} PathIsBounded(statuses: seq<TripStatus>)
    requires Path(statuses)
    ensures NonPauseEdges(statuses) <= Rank(statuses[|statuses| - 1]) - Rank(statuses[0]) <= 5
    ensures forall i :: 0 <= i < |statuses| - 1 ==> !Terminal(statuses[i])
  {
    var n := |statuses|;
    if n == 1 {
    } else {
      PathIsBounded(statuses[..n - 1]);
      EdgeRank(statuses[n - 2], statuses[n - 1]);
    }
  }
}
