# Ride dispatch and trip lifecycle, verified

A Dafny model of the Comet ride-hailing service: a rider opens a ride, a worker offers it to one driver for a
limited time, the driver accepts or rejects, the trip starts, pauses, resumes and ends, and the rider pays. The
state lives in four places: the database rows, two Redis keys per offer with a shared expiry, the queue of
matching tasks, and the clock.

| file | content |
|---|---|
| `Domain.dfy` | ids, enumerations, table rows, the unique indexes |
| `TripFsm.dfy` | the transition table, ride status alignment, ranks |
| `Pricing.dfy` | fares in exact reals, rounded half to even |
| `Matching.dfy` | scoring, ranking, the scan for a driver, the capped GEO answer |
| `Offers.dfy` | the two-key offer store |
| `Operations.dfy` | each request or task, taken alone, as a function on the whole state; runs as folds over events |
| `Services.dfy` | the same as methods that update tables, keys and queue in place |
| `Invariants.dfy`, `Lifecycle.dfy` | what runs of whole requests keep and never undo |
| `Effects.dfy` | what each request answers in a reachable state and which field of which row it changes |
| `Concurrent.dfy`, `ConcurrentRuns.dfy` | any number of interleaved accepts and matching tasks |
| `OfferChecks.dfy` | what an interleaved accept knew of its offer, and where its answer comes from |
| `Atomicity.dfy` | calls that nobody interrupts are the atomic requests |
| `Anomalies.dfy`, `Witnesses.dfy` | exactly when interleaving leaves the transition table, and runs that show what it loses |

There are two models over the same rows, keys and clock.

*One at a time.* Each request or task is one event; time passes between events. Random ids and tokens, the GEO
answer, the cached surge and the offer lifetime are parameters of the event, so every theorem holds for all of
their values. `Services.Backend` has the imperative methods; each is proved equal to its function in `Operations`,
and `Handle` ties any request to one event of a run.

*Interleaved.* A call of `accept_offer` or `match_ride` is split at every Redis operation, row lock, commit and
clear, and may crash anywhere. Cancelling, availability, trip progress, trip end and ride creation appear as single
commits that wait for the row locks of what they update, and the clears of cancelling and rejecting as removals of
any two offer keys at any time. Because such a request may rest on rows and keys read long before, it may act
whatever they say now, which is more than the code can do; it writes only rows that exist and only the statuses
its function writes. The commit of an accept writes blindly, as the ORM does; that this equals the guarded
transaction is a theorem.

Results worth knowing:

- Every request is stated by its effect in reachable states: which answer it gives when, which fields of which rows it
  writes, and that nothing else changes (`Effects.dfy`). A live offer's driver always exists and its ride is always
  free, so an accept taken alone answers only "invalid", "not online" or success (`AcceptDoes`).
- Every successful request other than an accept is one commit that the interleaved model allows (`RequestIsCommit`).
- Accepts linearize at their commits: any interleaving leaves the tables of the serial run in commit order, and
  every committed accept passes its guards there (`RunIsSerial`).
- The offer check of an accept is two reads. The whole check passed at one moment of the call whenever the offer was
  the driver's own. It need not have otherwise: a call can pass though its check held at no moment of the run
  (`OfferCanBeOvertaken`). When every offer has a fresh token, the check held at one moment exactly unless, between the
  two reads, the offer was stored under the presented token for another driver while the driver's own key named some
  other ride or none (`HeldIffNotOvertaken`); so it always did if the token had been issued before the first read
  (`IssuedTokenHeldAtOnce`).
- Every answer of an interleaved accept, refusals and missing rows included, is the serial answer at some moment of
  the same call (`AnswerIsSerial`).
- One at a time, every status change is an edge of the table although accept and cancel never ask it. Interleaved,
  the write of an accept is an edge exactly when no commit before it cancelled, started, paused, resumed or ended the
  trip (`CommitIsLegalIff`); given that the trip requests check the table on some earlier state, exactly when no
  commit before it cancelled the trip (`OnlyCancelsMakeItIllegal`). A run from the idle service cancels a ride
  between the offer check and the row lock and assigns it all the same (`CancelCanBeUndone`).
- A driver has one active ride and is busy during it exactly as long as nobody sets the driver's availability to
  something else in the middle of a ride (`ExclusiveUnlessDisturbed`); otherwise the driver can be booked twice
  (`DisturbanceDoubleBooks`), as a run from a fresh deployment shows (`DoubleBookingIsReachable`).
- The documentation promises that a repeated idempotency key replays. For rides and for payments a stored key replays
  exactly when it is not empty: the code skips the replay of the empty key and runs into the unique index instead
  (`RideKeyReplaysIff`, `PaymentKeyReplaysIff`).
- Starting and resuming are the same to the state machine, so either works from an assigned or a paused trip
  (`RequestsSucceedIff`).

## Model

| member | source | states |
|---|---|---|
| `TripFsm.EdgeRank` | app/services/trip_fsm.py:9-35 | along an allowed edge progress never falls, it stands still exactly between in progress and paused, and no edge leaves a terminal status |
| `TripFsm.TableIsAlmostLinear` | app/services/trip_fsm.py:9-35 | the table is exactly one rank up except to or from a pause, the start that skips the arrival, pausing and resuming, and cancelling from anywhere but the end |
| `TripFsm.AlignmentFollowsTheTrip` | app/services/trips.py:33-42 | a trip has a ride status exactly from its assignment on, and two trip statuses share one exactly when they are the two sides of a pause |
| `TripFsm.PathIsBounded` | app/services/trip_fsm.py:9-44 | a walk along the table has at most as many edges other than pause and resume as it gains in rank, and meets a terminal status only at its end |
| `Pricing.RoundingIsNearestEven` | app/pricing/service.py:53 | the rounding is the unique nearest integer, ties to the even one |
| `Pricing.ComputeFareIsNearestCent` | app/pricing/service.py:42-53 | at any rates the fare is the nearest cent, ties to even, to the price, where a negative price counts as zero and a multiplier below one as one |
| `Pricing.DurationCoversDistance` | app/pricing/service.py:36-39 | driving the estimated minutes at the given speed covers the distance; no speed, no minutes |
| `Pricing.FareIsNearestCent` | app/pricing/service.py:36-53 | a trip costs the nearest cent to (2.5 + 1.15 per km + 0.35 per minute at 22 km/h) times the multiplier, at least one |
| `Pricing.FareIsExactToHalfACent` | app/pricing/service.py:36-53 | the fare differs from the exact product by at most half a cent |
| `Pricing.FareIsMonotone` | app/pricing/service.py:36-53 | a longer trip or a higher multiplier never costs less, and no fare is below 2.50 |
| `Pricing.SplittingNeverPays` | app/pricing/service.py:42-53 | two trips cost at least as much as one trip of their joint length at the same multiplier |
| `Matching.RankDrivers` | app/matching/engine.py:25-39 | the ranking lists every known candidate once, by score, ties in GEO order |
| `Matching.RankingIsUnique` | app/matching/engine.py:38-39 | only one list is such a ranking |
| `Matching.SortIsStable` | app/matching/engine.py:38 | sorting by score alone keeps all entries and keeps equal scores in GEO order |
| `Matching.FirstOnline` | app/workers/tasks.py:88-96 | the scan stops at the first ranked driver who is online, or past the end when there is none |
| `Matching.SelectDriver` | app/workers/tasks.py:83-99 | ranking and scanning for the first driver online finds the same driver as one pass for the first least score |
| `Matching.ChoiceIsStableArgmin` | app/workers/tasks.py:87-99 | the chosen driver is known, online, of least score and earliest in GEO order among equals, and there is none exactly when no candidate is known and online |
| `Matching.BestReadsCandidateRows` | app/workers/tasks.py:83-87 | loading only the candidates' rows does not change the choice |
| `Matching.GeoCandidates` | app/workers/tasks.py:50-58 | the loop keeps exactly the members that name a driver, in order |
| `Matching.ParseListsNamed` | app/workers/tasks.py:50-58 | the candidates are exactly the members that name a driver, each once, in order and with its distance |
| `Matching.CapKeepsNearest` | app/workers/tasks.py:40-49 | at most a hundred members are kept, and none left out is nearer than a kept one |
| `Matching.ScoreIsNearDistance` | app/matching/engine.py:19-22 | a score lies between the distance and the distance plus 3.25; a wrong tier adds at least 2.5, a right one at most 0.75 |
| `Matching.ScoreIsExactly` | app/matching/engine.py:19-22 | the score is the distance, plus exactly 2.5 for the wrong tier, plus exactly 0.15 for each point of the counted rating short of five; an unrated driver counts as three, and ratings off the scale as its nearer end |
| `Matching.RatingsAreUnique` | app/matching/engine.py:20-21 | every driver has exactly one counted rating |
| `Matching.BetterRatedFirst` | app/matching/engine.py:14-39 | of two candidates alike in distance and tier the better rated ranks first in every ranking, and if eligible keeps the other from being chosen |
| `Matching.CutOffDriversAreBarelyBetter` | app/workers/tasks.py:40-49 | the chosen driver scores at most 3.25 above any driver cut off by the cap of 100 |
| `Matching.WrongTierNeedsDistance` | app/matching/engine.py:19-22 | a driver of the wrong tier is chosen only if every eligible driver of the right tier is at least 1.75 km farther |
| `Offers.OfferStore.StoreOffer` | app/matching/offers.py:94-108 | both keys are set with one expiry and no other key changes |
| `Offers.OfferStore.ClearOffer` | app/matching/offers.py:63-67 | exactly the two named keys go |
| `Offers.StoredOfferLives` | app/matching/offers.py:46-60 | a stored offer is found by ride and by driver for exactly its time to live, and no other offer or driver key changes |
| `Offers.ClearedOfferIsGone` | app/matching/offers.py:63-67 | after a clear neither key finds the offer, and no other offer or driver key changes |
| `Offers.OfferStore.GetOfferForRide` | app/matching/offers.py:70-74 | the payload of an unexpired ride key, or nothing |
| `Offers.OfferStore.GetOfferForDriver` | app/matching/offers.py:77-88 | the payload found through an unexpired driver key and then an unexpired ride key, or nothing |
| `Services.Backend.CreateRide` | app/services/rides.py:37-92 | replay, refusal or insertion of a ride with its trip and a queued task, as the run model has it |
| `Services.Backend.MatchRide` | app/workers/tasks.py:61-117 | an offer for the stable argmin is stored, or nothing changes, on exactly the code's conditions |
| `Services.Backend.AcceptOffer` | app/services/drivers_service.py:70-116 | each refusal in the code's order, or the three rows assigned and both keys cleared |
| `Services.Backend.RejectOffer` | app/services/drivers_service.py:119-131 | a pending offer turns back into a queued task |
| `Services.Backend.CancelRows` | app/services/rides.py:107-113 | ride and trip are guarded separately and cancelled together |
| `Services.Backend.CancelRide` | app/api/v1/endpoints/rides.py:92-107 | the offer is cleared even when the ride can no longer be cancelled |
| `Services.Backend.SetAvailability` | app/services/drivers_service.py:54-67 | the driver row, created if need be, takes any status |
| `Services.Backend.StartTrip` | app/services/trips.py:45-60 | the start of an allowed trip aligns the ride |
| `Services.Backend.PauseTrip` | app/services/trips.py:63-70 | only the trip row changes |
| `Services.Backend.ResumeTrip` | app/services/trips.py:73-83 | the pause time is cleared and the ride aligned |
| `Services.Backend.EndTrip` | app/services/trips.py:86-117 | fare, end time and both statuses are set and the driver is online |
| `Services.Backend.InitiatePayment` | app/services/payments_service.py:19-79 | replay, refusal, or one settled row |
| `Services.Backend.Handle` | app/services/drivers_service.py:70-131 | any request in place is one event of a run and keeps every invariant |
| `Invariants.ClearKeepsOffers` | app/matching/offers.py:63-67 | clearing an offer with its own driver's key keeps the index sound even when that key points at another ride |
| `Invariants.PutKeepsOffers` | app/matching/offers.py:94-108 | storing an offer uses up the queued task and keeps the index sound although it may overwrite a driver key |
| `Invariants.TimeKeepsOffers` | app/matching/offers.py:57-60 | expiry keeps the index sound because both keys expire together |
| `Invariants.AcceptedPair` | app/services/drivers_service.py:78-99 | a successful accept found a waiting, unassigned ride and its own driver's offer, although the code checks neither |
| `Invariants.RunIsGood` | app/services/drivers_service.py:70-131 | every reachable state satisfies all row, offer, rider and payment invariants |
| `Lifecycle.PendingOfferIsOwn` | app/matching/offers.py:77-88 | a live driver key always leads to a live offer for that driver with the same expiry, so the lookup never returns another driver's offer |
| `Lifecycle.OneTaskOrOffer` | app/services/drivers_service.py:124-131 | queued tasks plus live offers of a ride never exceed one, and an offered ride still waits on both rows |
| `Lifecycle.RideAndTripAgree` | app/services/trips.py:33-83 | each ride has exactly one trip, its status is the aligned one, and fare and end time are set exactly on completion |
| `Lifecycle.RequestsSucceedIff` | app/services/trips.py:45-107 | from which reachable statuses start, resume, pause and end succeed |
| `Lifecycle.EndingChargesAndFrees` | app/services/trips.py:86-107 | ending charges the nearest cent to the exact price of the distance at the multiplier charged, at least 2.50, and puts the driver online |
| `Lifecycle.FareIsRight` | app/services/trips.py:90-98 | the fare is the nearest cent to the exact price, every rate a literal, at the multiplier charged: the quote of a named zone, else the stored one unless it is zero, else one |
| `Lifecycle.RiderHasOneActiveRide` | app/services/rides.py:59-69 | a rider never has two active rides |
| `Lifecycle.PaymentsFollowCompletion` | app/services/payments_service.py:34-79 | each payment is settled, with a reference exactly when it succeeded, for a completed trip with a fare and a driver |
| `Lifecycle.StepContinues` | app/services/trip_fsm.py:9-44 | every change of a trip by any request is an edge of the table, terminal trips never change, a ride keeps its driver, no ride becomes active again, and every driver row stays and changes in its status only |
| `Lifecycle.HistoryIsFrozen` | app/services/trips.py:86-107 | between any two moments of a run identities, assigned drivers, the tier and rating of every driver, finished trips with their fares, and payments stay as they were, and trip ranks never fall |
| `Lifecycle.SecondAcceptIsRefused` | app/services/drivers_service.py:78-80 | after a successful accept every later accept for the ride, by anyone, is refused without effect |
| `Lifecycle.TripLifeIsBounded` | app/services/trip_fsm.py:9-44 | the statuses of a trip over a whole run walk the table from matching, with at most four changes besides pausing and resuming |
| `Lifecycle.NeverInconsistent` | app/services/rides.py:53-56 | the branch for a replayed ride without a trip is unreachable |
| `Lifecycle.RepeatedCreateIsErased` | app/services/rides.py:48-57 | a repeat of an answered non-empty key, at any later time and with any other fields, returns the same ride and trip and can be erased from the run |
| `Lifecycle.RepeatedPaymentIsErased` | app/services/payments_service.py:27-32 | the same for payments, whose stored row is unchanged |
| `Lifecycle.RideKeyReplaysIff` | app/services/rides.py:48-81 | a request that repeats the stored key of any reachable ride is answered with that ride and its trip if and only if the key is not empty; the empty key is refused and nothing changes |
| `Lifecycle.PaymentKeyReplaysIff` | app/services/payments_service.py:27-49 | the same for payments |
| `Lifecycle.EmptyRideKeyIsRefused` | app/services/rides.py:48-81 | from a fresh deployment, two riders send the empty key: the first gets a ride, the second is refused |
| `Lifecycle.EmptyPaymentKeyIsRefused` | app/services/payments_service.py:27-49 | from a fresh deployment, a trip is booked, driven and paid with the empty key, and the repeat is refused |
| `Lifecycle.ExclusiveUnlessDisturbed` | app/services/drivers_service.py:54-99 | one step keeps "at most one active ride per driver, busy meanwhile" if and only if it does not set a driver on an active ride to another availability |
| `Lifecycle.UndisturbedRunIsExclusive` | app/services/drivers_service.py:92-99 | over runs without such a step every driver has at most one active ride and is busy during it |
| `Lifecycle.DisturbanceDoubleBooks` | app/services/drivers_service.py:64 | in every reachable state in which a driver on an active ride goes online while another ride is queued and waits, matching and accepting books the driver twice |
| `Lifecycle.DoubleBookingIsReachable` | app/services/drivers_service.py:64 | a run from a fresh deployment that leaves one driver on two active rides |
| `Effects.AcceptDoes` | app/services/drivers_service.py:70-101 | in a reachable state an accept is refused as invalid exactly when the driver has no live offer of the ride or presents another token, refused exactly when the driver is not online, and otherwise sets the driver and status of the ride, the status of its trip and the status of the driver, clears the two keys, and changes nothing else |
| `Effects.TransactionDoes` | app/services/drivers_service.py:82-99 | the same rows and each refusal of the transaction on any tables, those that only interleaved calls meet included |
| `Effects.RejectDoes` | app/services/drivers_service.py:119-131 | a reject of a pending offer clears its two keys and queues exactly one task for the ride, so tasks and live offers of the ride are one before and after; any other reject changes nothing |
| `Effects.CancelDoes` | app/api/v1/endpoints/rides.py:92-107 | only the rider of an unfinished ride cancels it, both rows become cancelled and its live offer goes; a cancel of a missing or foreign ride or of a finished one is refused and changes nothing |
| `Effects.CancelRowsDoes` | app/services/rides.py:107-113 | on any rows, a cancel writes the ride and leaves a trip that is over as it is |
| `Effects.StartDoes` | app/services/trips.py:45-60 | a start sets both statuses and the start time of an assigned or paused trip and nothing else, or is refused with the status found |
| `Effects.PauseDoes` | app/services/trips.py:63-70 | a pause sets the status and pause time of a trip in progress and nothing else, or is refused |
| `Effects.ResumeDoes` | app/services/trips.py:73-83 | a resume sets both statuses, clears the pause time and changes nothing else, or is refused |
| `Effects.EndDoes` | app/services/trips.py:86-107 | ending a trip in progress sets its fare, end time and status, completes the ride, frees the driver and changes nothing else; the fare is the nearest cent to the exact price at the multiplier charged |
| `Effects.CreateDoes` | app/services/rides.py:37-92 | a create replays, is refused for an active ride or a taken id or key, or stores the ride exactly as ordered with its trip and one task |
| `Effects.PayDoes` | app/services/payments_service.py:19-79 | a payment replays, is refused, or is stored as requested, failed exactly when the nearest cents of the amount end in 99 |
| `Effects.AvailabilityDoes` | app/services/drivers_service.py:25-67 | the driver row takes the status sent and keeps tier and rating; a new one is standard and unrated |
| `Effects.MatchDoes` | app/workers/tasks.py:61-117 | a queued task is used up; it offers a waiting ride to the winner among the eligible candidates for the time to live, and changes nothing else; without a winner no key changes |
| `Effects.RunOffersKnownDrivers` | app/workers/tasks.py:83-99 | every driver key belongs to a driver row |
| `Concurrent.AdvanceAccept` | app/services/drivers_service.py:70-116 | a step of an accept call moves only that call, keeps its arguments, and changes the keys only by the clear |
| `Concurrent.AdvanceTask` | app/workers/tasks.py:61-117 | a step of a matching task moves only that task, never writes the tables, and changes the keys only by its store |
| `Concurrent.BackgroundDisturbsNobody` | app/services/rides.py:107-113 | commits of other requests that wait for row locks leave everything a lock holder has read as it was |
| `Concurrent.CommitStep` | app/services/drivers_service.py:96-99 | the commit of an accept disturbs no other call and gives up its locks |
| `Concurrent.ExecIsSafe` | app/services/drivers_service.py:82-99 | in every reachable world locks and holders match, rows read under a lock are current, and a waiting ride has no driver |
| `ConcurrentRuns.CommitIsSerial` | app/services/drivers_service.py:92-99 | the blind writes of a commit are the guarded transaction on the committed rows of that moment |
| `ConcurrentRuns.RunIsSerial` | app/services/drivers_service.py:82-99 | the tables after any interleaving are those of its commits in order, each accept passing its guards there |
| `ConcurrentRuns.SingleAssignment` | app/services/drivers_service.py:92-99 | a ride has a driver exactly when one accept for it has committed, that accept is the only one, and it set that driver |
| `ConcurrentRuns.DriverIsWrittenOnce` | app/services/drivers_service.py:92-96 | a ride's driver never changes once written |
| `ConcurrentRuns.DriverRowsStay` | app/services/drivers_service.py:94-98 | in any interleaving every driver row stays and keeps its tier and rating |
| `ConcurrentRuns.OnlineBetweenAccepts` | app/services/drivers_service.py:94-98 | between two committed accepts by one driver some commit set that driver online: availability, or the end of a trip of that driver |
| `ConcurrentRuns.OneHolderPerRide` | app/workers/tasks.py:66-117 | at most one call holds a ride, so at most one task is between its check and its store, whatever happens to the Redis lock |
| `ConcurrentRuns.StoresOnlyWhileWaiting` | app/workers/tasks.py:74-116 | an offer is stored only while the committed ride is matching and has no driver |
| `ConcurrentRuns.NoStoreAfterAssignment` | app/workers/tasks.py:106-116 | no offer is stored for a ride after its assignment has committed |
| `OfferChecks.OfferWasSeen` | app/services/drivers_service.py:78-80 | a call past its offer check read a driver key for the ride and later an offer with its token, and the whole check passed at one moment in between if the offer was the driver's own, and in any case unless it was overtaken; with fresh tokens exactly unless it was overtaken |
| `OfferChecks.CheckHeldUnlessOvertaken` | app/matching/offers.py:77-88 | between the two reads the whole check passes at one moment, or the offer was stored in between for another driver whose task found the first driver's key not naming the ride |
| `OfferChecks.OwnOfferHeldAtOnce` | app/matching/offers.py:77-88 | an offer addressed to the driver was there with its key at one moment between the reads |
| `OfferChecks.HeldIffNotOvertaken` | app/services/drivers_service.py:78-80 | with fresh tokens the whole check passes at one moment between the reads if and only if the offer was not overtaken |
| `OfferChecks.IssuedTokenHeldAtOnce` | app/workers/tasks.py:106-116 | with fresh tokens, a token issued before the call's first read was checked wholly at one moment |
| `OfferChecks.AnswerIsSerial` | app/services/drivers_service.py:77-101 | each answer is justified at some moment of the call: a refused offer by a failing check, any other answer by the guarded transaction on the rows committed then, with or without the ride, driver and trip |
| `ConcurrentRuns.NoDeadlock` | app/services/drivers_service.py:82-88 | some call can advance exactly when some call is unfinished |
| `ConcurrentRuns.CallsAreShort` | app/services/drivers_service.py:70-101 | no call takes more than seven steps of its own |
| `Atomicity.AcceptAlone` | app/services/drivers_service.py:70-116 | an accept call that nobody interrupts has the effect and the answer of the atomic accept |
| `Atomicity.TaskAlone` | app/workers/tasks.py:61-117 | a matching task that nobody interrupts has the effect of the atomic task |
| `Atomicity.RequestIsCommit` | app/services/trips.py:45-107 | every successful create, cancel, availability and trip request has exactly the effect on the tables of one background commit that the interleaved model allows |
| `Atomicity.AssignLockLastsFifteenSeconds` | app/workers/tasks.py:101-104 | a taken assign lock turns other tasks away for exactly fifteen seconds unless it is dropped |
| `Anomalies.CommitIsLegalIff` | app/services/drivers_service.py:92-99 | in any interleaved run the unchecked trip write of an accept is an edge of the table if and only if no commit before it cancelled, moved or ended that trip |
| `Anomalies.OnlyCancelsMakeItIllegal` | app/services/trips.py:45-89 | when start, pause, resume and end checked the table on some earlier state of the trip, that write is an edge if and only if no commit before it cancelled the trip |
| `Anomalies.TripWaitsUntilTouched` | app/services/rides.py:107-113 | as long as nobody accepts its ride, a trip is matching exactly until another request writes it |
| `Witnesses.CancelCanBeUndone` | app/services/drivers_service.py:77-99 | a run from the idle service in which a cancel commits between the offer check and the row lock and the accept assigns the cancelled rows |
| `Witnesses.OfferCanBeOvertaken` | app/services/drivers_service.py:77-99 | a run from the idle service in which an accept succeeds although its offer check passes as a whole at no moment of the run |

## Left out

- Row objects: table rows are values in maps that the methods reassign; aliasing between ORM objects is not modelled.
- Alignment, active-ride and transition claims for interleaved cancels and trip requests: these read without row locks, so the claims hold only one at a time; for an interleaved accept the transition has its exact condition.
- Transaction isolation beyond row locks, implicit locks of plain updates, and concurrent creation: two creates by one rider can both pass the active-ride check.
- Times of start and pause: start and resume share a guard, so neither timestamp characterises a status.
- Progress of matching: a ride without candidates is dropped, an expired offer is not queued again, and a rejecting driver may be chosen again.
- The number of payments per trip and the amount charged: the code checks neither; rounding of stored amounts to the column's two decimals is not modelled.
- Great-circle distance: any non-negative real stands for it. Floating-point noise and surge values that are not numbers are not modelled.
- The GEO index, driver positions and the search radius: the search answer is an arbitrary list, sorted and capped only where the cap matters.
- Rider rows, notifications, WebSocket broadcasts, retry and analytics stubs, authentication, schema validation, rate limits and health checks.
- A non-positive offer lifetime, which Redis rejects.
