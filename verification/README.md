# A verified model of shared-rate_limiter

This project models `shared-rate_limiter`, a deterministic, synchronous rate limiter, in Dafny, and
proves what its callers rely on. Time is a number of nanoseconds up to `Duration::MAX`; every
fixed-width integer, saturating operator and cast of the original is written out.

The model has two layers. The value layer (`TokenBucket`, `SlowStart`, `Windows`, `Buckets`,
`Limiters`, `Servers`, and the functions of `OpenGate` and `InFlight`) says what each operation does
to the state as a function. The object layer (`TokenBucketState`, `FixedWindowState`, `BucketState`,
`RateLimiter`, `DeterministicServer`, `InFlightTable`, `DurableOpenGate`) updates fields in place, as
the original does, and each method is proved to leave exactly the state its function names. The
theorems are about the functions, so they hold of the objects:

- **Accounting** (`Worlds`, `Accounting`). A run is any sequence of acquires, commits, refunds,
  feedback and checked configuration updates, carried with a ledger of the permits callers hold.
  In every run each bucket's counter is the cost of its outstanding permits, and no finalisation is
  dropped, whatever is evicted, remapped, reset or reconfigured in between. A run is followed bucket
  by bucket: `StepCell` shows that each operation changes each bucket by one event of its own.
- **Rates** (`WindowBounds`, `PoolBounds`, `KeyHistory`, `TableRuns`). Bounds on what a bucket gives
  out in its lifetime (creation to eviction) and on what its key does where no key is evicted, exact
  admission for windows, and the bound on the key table and its order.
  A condition on a run is a predicate that every step satisfies where it happens (`Along`).
- **Backoff and retries** (`BackoffHistory`, `Clocks`, `Retries`). Denials agree with the history of
  deadlines; waiting as told leads to a grant within four denials or not at all, and exactly when.
- **Answers** (`Updates`, `Replies`). What an update, an acquire and a feedback answer and do, in terms
  of the configuration, the tracked keys and the permits callers hold.
- **Slow start and pools** (`RampedPools`). When a grant is drawn from within the ramp.
- **The reference server** (`Servers`, `Lockstep`, `TraceDriver`, `Conservative`). The limiter
  simulates the server of the crate's own tests on every trace, and slow start is conservative.
- **In-flight table** (`InFlight`). The lazily cleaned heap refines a plain map; its space and
  compaction work are bounded; waiters are conserved and each id is single flight.
- **Durable gate** (`OpenGate`). Grants are separated over every crash schedule.

## Hypotheses

- The clock does not go back where a theorem says so; the accounting, key-table, token-bucket and
  gate theorems need no clock assumption. The run bound of fixed windows needs `now < Duration::MAX`:
  at that reading a window reaching past it resets on every call (`Buckets.ResetsAtRealEndIff`).
- The costs of the token permits outstanding against one bucket sum below 2^64 (`Worlds.Legal`); that
  is exactly when the counter is right (`Accounting.TokenCounterExactIff`).
- A refund adds to the credits without an overflow check, as a release build compiles it. It is exact
  if and only if the sum fits 64 bits (`TokenBucket.RefundRestoresIff`); a capacity of at most
  2^64 - 2^32 is enough. The bound on what a pool gives out holds even when it wraps.
- Permits are linear: a caller finalises only permits of the ledger. `debug_assert!` is the release
  build's no-op.
- The retry theorems are about times from the limiter's start on (`now >= started_at`).
- The heap of the in-flight table is sound while fewer than 2^64 entries have begun
  (`InFlight.EarlyNumberUnused`), and beyond that exactly as long as no wrapped number meets a stale item
  of its id (`InFlight.StaleItemsStayDeadIff`).
- At most one gate is live in a directory, which the file lock provides.

## Where the code differs from what is said about it

Each with the member that shows it and the one that says exactly when.

- The reference server and the limiter disagree at `max_per_window` 0 (different waits) and at
  2^32 - 1, where the server's saturating addition accepts what the limiter denies
  (`Lockstep.ZeroMaximumAgreesIff`, `Lockstep.LargestMaximumBreaksLockstep`;
  `Lockstep.FixedDecisionsAgreeIff`); and a request above the capacity of a pool refills the limiter
  but not the server, after which a floor can make the limiter deny what the server accepts
  (`Lockstep.OverCapacityRequestBreaksLockstep`; `Lockstep.PoolStatesAgreeIff`).
- Slow start is described as scaling the effective capacity, but only a refill by an acquire clamps to
  it. A pool is created with its full credits, and `refund`, `commit(NotSent)` and a configuration
  update refill at the configured capacity and rate; an acquire at the same instant is not clamped
  (`RampedPools.RefundAndUpdateLift`; `RampedPools.DrawnWithinRampIff`).
- The wait a denial names does not always lead to a grant. A ramped rate that rounds to zero names
  Duration::MAX (`Retries.RampedPoolNamesForever`); a window kept open by reservations names a wait of
  zero past its end (`Retries.HeldWindowServesNobody`); and a key table that refuses a new key names one
  window or one second, again and again - under `DenyNewKey` for good, whatever is finalised
  (`Retries.FullTableServesNoNewKey`, `TableRuns.RunKeepsRefusal`), under `EvictOldestKey` until some
  tracked key holds nothing (`Retries.HeldTableServesNoNewKey`). `Retries.AdmittedWithinFourDenialsIff`
  says exactly when it does.
- Slow start hides that a cost is above the limit: it is told to wait for the end of the ramp and then
  for nothing, again and again, where without slow start it is told to wait forever
  (`Replies.RampHidesUnachievable`; `Replies.AboveLimitUnderRamp`, `Replies.AboveLimitSaysWhy`).
- A limit is promised per key, but eviction forgets what a key has spent: the key is granted again in
  the same window (`KeyHistory.EvictionForgetsWhatWasSpent`). Where no key is evicted the bounds hold of
  the key (`KeyHistory.KeyWindowBound`, `KeyHistory.KeyPoolBound`).
- The gate promises one grant per configured window and rejects a zero window, but a window below one
  millisecond truncates to none and never blocks (`OpenGate.SubMillisecondWindowNeverBlocks`;
  `OpenGate.SecondAskBlockedIff`), and truncation to milliseconds ends a lock before the real window
  (`OpenGate.RealWindowFallsShort`; `OpenGate.RealGapIff`).
- With `fail_closed` off a failure to begin the write transaction still returns an error, while every
  later failure grants in memory (`OpenGate.BeginFailureFailsOpenGate`;
  `OpenGate.FailOpenStillFailsIff`).

## Model

| member | source | states |
|---|---|---|
| TokenBucket.CreditsAddedExact | src/token_bucket.rs:100-105 | the 128-bit saturation and the 64-bit clamp never change the count: it is the true floor, clamped |
| TokenBucket.RetryIsCeiling | src/token_bucket.rs:107-116 | splitting the wait in seconds and nanoseconds loses nothing: it is the true ceiling |
| TokenBucket.RetryExact | src/token_bucket.rs:100-116 | a delay earns the deficit if and only if it is at least the wait named, for every representable delay |
| TokenBucket.RefillExact | src/token_bucket.rs:83-98 | every path of a refill is one formula in unbounded arithmetic |
| TokenBucket.SplitRefillLosesAtMostOnePerCall | src/token_bucket.rs:83-98 | refilling through k intermediate calls never earns more than one refill and loses at most k credits, clamps included |
| TokenBucket.TokenRetryExact | src/token_bucket.rs:25-59 | after a denial for lack of credits the same cost succeeds at `now + retry_after` and at no earlier time |
| TokenBucket.RefundRestoresIff | src/token_bucket.rs:61-66 | a refund restores its cost, clamped, if and only if credits plus cost fit 64 bits |
| PoolBounds.RefundCanEmptyFullPool | src/token_bucket.rs:61-66 | the unchecked addition at the largest capacity: a run in which one refund empties a full pool |
| TokenBucket.CapacityChangeKeepsDeficit | src/token_bucket.rs:73-81 | an increase keeps what is missing from a full pool; a decrease only clamps |
| TokenBucket.TokenBucketState.constructor | src/token_bucket.rs:13-19 | a pool is born full, with nothing in flight |
| TokenBucket.TokenBucketState.TryReserve | src/token_bucket.rs:25-59 | the object does in place what the value model does, for every state |
| TokenBucket.TokenBucketState.Refund | src/token_bucket.rs:61-66 | the same for a refund |
| TokenBucket.TokenBucketState.Commit | src/token_bucket.rs:68-71 | the same for a commit |
| TokenBucket.TokenBucketState.ApplyCapacityChange | src/token_bucket.rs:73-81 | the same for a capacity change |
| TokenBucket.TokenBucketState.RefillTo | src/token_bucket.rs:83-98 | the same for a refill |
| SlowStart.EffectiveMaxReaches | src/slow_start.rs:23-41 | the ramped window limit reaches a cost exactly where the exact line does; the cast to 32 bits truncates nothing |
| SlowStart.EffectiveU64Reaches | src/slow_start.rs:43-56 | the 64-bit ramp reaches any cost exactly where the saturated 128-bit product does |
| SlowStart.SlowStartRetryExact | src/slow_start.rs:58-87 | the limit at t reaches an achievable cost if and only if t >= now + retry_after |
| SlowStart.SlowStartRetryExactU64 | src/slow_start.rs:89-113 | the same for the 64-bit ramp and every cost whose product with the ramp fits 128 bits, even where the product with the elapsed time saturates |
| SlowStart.SmallCostFits | src/slow_start.rs:89-113 | every 32-bit cost, the only ones a request carries, is such a cost |
| SlowStart.SlowStartRetryExactU64Iff | src/slow_start.rs:89-113 | for every 64-bit cost, exactly when the wait is the true one at all times; elsewhere saturation ends it early |
| SlowStart.WaitBeforeStart | src/slow_start.rs:58-113 | before its start the ramp names the wait it names at its start |
| SlowStart.EffectiveLimitsMonotone | src/slow_start.rs:23-56 | both effective limits only grow with time and never pass the configured limit |
| Windows.WindowStartFor | src/bucket.rs:390-400 | the start is aligned and within one window before `now` |
| Windows.OnlyWindow | src/bucket.rs:390-400 | it is the only such time |
| Windows.WindowStartMonotone | src/bucket.rs:390-400 | it never goes back as time goes on |
| Buckets.ResetsAtRealEndIff | src/bucket.rs:41-54 | a window resets exactly from its real end on, unless the clock reads Duration::MAX inside a window reaching past it |
| Buckets.WindowForgetsAtClockEnd | src/bucket.rs:41-54 | at that reading an exhausted window admits again |
| Buckets.MismatchIsInert | src/bucket.rs:207-214 | a bucket whose kind is not the configured one denies for a second and drops what is finalised |
| Buckets.LatePermit | src/bucket.rs:226-304 | a permit not held any more, against a window that holds none, counts only in its very window |
| BucketObjects.FixedWindowState.MaybeResetWindow | src/bucket.rs:41-54 | the object resets in place as the value model does |
| BucketObjects.FixedWindowState.TryReserve | src/bucket.rs:125-168 | the fixed-window branch of an acquire, in place |
| BucketObjects.FixedWindowState.Refund | src/bucket.rs:226-234 | the fixed-window branch of a refund, in place |
| BucketObjects.FixedWindowState.Commit | src/bucket.rs:283-304 | the fixed-window branch of a commit, in place |
| BucketObjects.BucketState.constructor | src/bucket.rs:75-88 | a new bucket has the state its configured algorithm starts with |
| BucketObjects.BucketState.TryReserve | src/bucket.rs:97-216 | backoff first, then the algorithm, with the same denials and waits in every branch |
| BucketObjects.BucketState.Refund | src/bucket.rs:218-250 | a refund in place, dropped on a mismatch of kinds |
| BucketObjects.BucketState.Commit | src/bucket.rs:252-321 | a commit in place, with the backoff its outcome asks for |
| BucketObjects.BucketState.ApplyBlockedUntil | src/bucket.rs:323-325 | a deadline never shortens the one in force |
| BucketObjects.BucketState.OnUpdate | src/bucket.rs:327-379 | a configuration update of one bucket, including a fresh state when the kind changes |
| BucketObjects.BucketState.ClearExpiredBlock | src/bucket.rs:381-387 | only a deadline that is past is cleared |
| Limiters.FirstEvictable | src/limiter.rs:360-369 | the first key in insertion order that holds no reservation |
| Limiters.EffectiveWithin | src/limiter.rs:419-450 | slow start keeps the kind and the window and never raises a limit |
| Limiters.EffectiveIsLine | src/limiter.rs:419-450 | slow start scales every limit and rate along the line from nothing to the configured one, rounded down, and nothing else |
| Limiters.RampDenialExact | src/limiter.rs:452-517 | a slow-start denial of an achievable cost lasts exactly the wait it names, for both algorithms |
| LimiterObject.RateLimiter.NewAt | src/limiter.rs:82-92 | a new limiter tracks nothing |
| LimiterObject.RateLimiter.TryAcquire | src/limiter.rs:148-220 | the whole new limiter state and the reply are those of the value model |
| LimiterObject.RateLimiter.EnsureBucketCapacity | src/limiter.rs:327-391 | the eviction scan and its outcome |
| LimiterObject.RateLimiter.FindEvictable | src/limiter.rs:360-369 | the loop finds the first key that may be evicted |
| LimiterObject.RateLimiter.ApplyFeedback | src/limiter.rs:226-274 | remap, backoff and bucket creation on feedback |
| LimiterObject.RateLimiter.Commit | src/limiter.rs:279-296 | finalisation as spent, with global backoff |
| LimiterObject.RateLimiter.Refund | src/limiter.rs:299-303 | finalisation as not sent |
| LimiterObject.RateLimiter.UpdateConfig | src/limiter.rs:98-127 | the update is refused exactly when it needs no permit outstanding and one is |
| LimiterObject.RateLimiter.UpdateConfigUnchecked | src/limiter.rs:133-140 | the loop updates every bucket once and touches nothing else |
| LimiterObject.LimiterInFlight.Join | src/in_flight.rs:259-261 | waiters are kept in join order |
| LimiterObject.LimiterInFlight.Finalize | src/in_flight.rs:269-280 | the permit is finalised for the outcome and all waiters are drained |
| LimiterObject.LimiterInFlight.Expire | src/in_flight.rs:283-298 | the permit is finalised by the policy and all waiters are drained |
| KeyTable.EvictionChoice | src/limiter.rs:358-389 | eviction refuses if and only if every tracked key holds reservations, and else takes the oldest that holds none |
| KeyTable.InsertionOrder | src/limiter.rs:191-197 | the queue after an arrival: at most one key gone, the rest in order, the new key last |
| TableRuns.StepFifo | src/limiter.rs:148-417 | how each operation of a run changes the insertion queue |
| TableRuns.InsertedByBirth | src/limiter.rs:191-197 | in every run with a clock that does not go back the queue lists the tracked keys by the time their buckets were created |
| TableRuns.RunKeepsRefusal | src/limiter.rs:327-357 | under DenyNewKey a key that a full table refuses is refused for the rest of the run, whatever is committed or refunded |
| TableRuns.RunBounded | src/limiter.rs:314-417 | in every run at a constant bound, tracked keys and route remaps stay within it and the queue lists each tracked key once |
| TableRuns.RemapTakesEffectIff | src/limiter.rs:314-325 | a remap redirects its route if and only if the route is known or the table has room, and never another route |
| Worlds.StepCell | src/limiter.rs:133-303 | each operation changes each bucket by its own event only; new buckets start new |
| Accounting.CommitTakesEffect | src/bucket.rs:252-321 | finalising a held permit moves exactly its cost |
| Accounting.UpdateStartsAfresh | src/bucket.rs:327-379 | a change of kind or window leaves a bucket as new, a change of maximum leaves its window as it was; neither shortens a backoff still in force |
| Accounting.NotSentIsRefund | src/bucket.rs:296-315 | commit(NotSent) leaves the very state of a refund, for both algorithms |
| Accounting.FinalizeIsCommit | src/in_flight.rs:275-278 | refunding on NotSent and committing NotSent leave the same limiter at any point of any run |
| Accounting.TokenCounterExactIff | src/token_bucket.rs:44-47 | the in-flight counter follows the ledger if and only if the sum of costs fits 64 bits |
| Accounting.StepAccounted | src/limiter.rs:98-303 | every operation, checked updates and evictions included, keeps each bucket's counter equal to its outstanding permits |
| Accounting.RunAccounted | src/limiter.rs:98-389 | the same over whole runs |
| Accounting.NoFinalisationDropped | src/limiter.rs:279-303 | at any point of any run a held permit's bucket is tracked, fits it, and its finalisation takes full effect there and nowhere else: counters, spent cost, credits; a refund leaves the very limiter a NotSent leaves |
| Updates.UpdateReplies | src/limiter.rs:98-127 | at any point of any run: an update is refused as a change of kind, or as a change of the windows' length, exactly for such a change while any permit is outstanding; a refusal changes nothing, and else the new configuration is in force |
| Updates.UpdateTakesEffect | src/bucket.rs:327-379 | in every run, an accepted update brings each pool current at the old rate, then grants an increase and clamps a decrease; a window of the same length stays, of another length starts afresh, and so does a changed kind; only a past backoff is cleared |
| Replies.TableReplies | src/limiter.rs:327-391 | at any point of any run: past the global block and slow start a request is refused for the bound on keys if and only if the key is new, the bound is reached, and the policy denies or every tracked key has a permit outstanding, with a wait of one window or one second; below the bound nothing is evicted, at it exactly the oldest idle key is |
| Replies.FeedbackReplies | src/limiter.rs:226-274 | at any point of any run: feedback blocks everyone, or the bucket its route resolves to and no other, creating it if there is room; without room every bucket stays as it was |
| Replies.DenialReplies | src/limiter.rs:148-220 | at any point of any run every denial names its cause |
| Replies.GrantReplies | src/bucket.rs:156-194 | at any point of any run a grant hands out a permit with exactly the key, cost, window, instant and deadline it stands for |
| Replies.AboveLimitUnderRamp | src/slow_start.rs:66-74 | under slow start a cost above the limit is told to wait for the end of the ramp, past it for nothing; with a pool of capacity zero for nothing from the start |
| Replies.AboveLimitSaysWhy | src/bucket.rs:133-147 | without slow start it is told to wait forever; a maximum of zero names one window, with slow start or without |
| Replies.RampHidesUnachievable | src/slow_start.rs:66-74 | a cost of eleven in a window of ten, in the ramp, after it and without it |
| WindowBounds.AdmitsIffItFits | src/bucket.rs:117-168 | at any point of any run, past the other gates, a window grants if and only if the cost fits beside the net cost already charged to it |
| WindowBounds.DeadlineIsWindowEnd | src/bucket.rs:156-168 | at any point of any run a permit expires with the window it is charged to, and is issued before its deadline if and only if that is the real window of its issue |
| WindowBounds.FixedWindowBound | src/bucket.rs:41-54 | in every run, for each bucket from its creation to its eviction: at most the maximum is charged to one window, at most twice the maximum is issued in one real window |
| WindowBounds.FixedWindowBoundWithoutCarry | src/bucket.rs:41-54 | for each bucket, from its creation to its eviction: if no reservation of its key is held across a boundary, at most the maximum is issued in one real window, whatever other keys hold |
| WindowBounds.TwiceMaxIsIssued | src/bucket.rs:41-54 | the double bound is attained, by a legal run from the start, for every maximum of at least two |
| PoolBounds.TokenBucketBound | src/token_bucket.rs:25-98 | in every run, for each bucket: net cost at most budget plus what the largest rate earns since creation; credits within the capacity |
| PoolBounds.TokenBucketBoundInTime | src/token_bucket.rs:25-98 | the same in the callers' own time, from the call that created the bucket to the latest call |
| PoolBounds.ConstantBudget | src/bucket.rs:347-361 | at a constant capacity the budget is that capacity |
| KeyHistory.RunKeepsLife | src/limiter.rs:327-391 | where no key is evicted and the kind of algorithm stays, a bucket lives on through the run, and what it spent is what the run sent for its key |
| KeyHistory.KeyWindowBound | src/bucket.rs:41-54 | so both window bounds hold of the key over the whole run |
| KeyHistory.KeyWindowBoundWithoutCarry | src/bucket.rs:41-54 | and so does the single bound where none of its reservations is held across a boundary |
| KeyHistory.KeyPoolBound | src/token_bucket.rs:25-98 | and so does the pool bound, from the one call that created the bucket to the latest call |
| KeyHistory.EvictionForgetsWhatWasSpent | src/limiter.rs:345-389 | with eviction they do not: a run that grants a key twice its maximum in one window, nothing held over a boundary |
| BackoffHistory.LatestIsMaximum | src/bucket.rs:323-325 | the deadline the theorems compare with is the maximum of all deadlines applied |
| BackoffHistory.BackoffAgreesWithHistory | src/limiter.rs:156-171 | in every run a permit is issued only at or past every deadline applied, and each level denies exactly until the latest of its own; a bucket evicted and created again counts the deadlines of its current lifetime |
| BackoffHistory.HistoryGrows | src/limiter.rs:226-296 | without a key bound no operation forgets a deadline |
| BackoffHistory.RunHistoryGrows | src/limiter.rs:226-296 | nor does any run |
| BackoffHistory.FeedbackHolds | src/limiter.rs:226-274 | in every run without a key bound, no request for the bucket a feedback resolved to is granted before that feedback's deadline, whatever comes before and after |
| BackoffHistory.FeedbackIsApplied | src/limiter.rs:253-262 | without a key bound every feedback deadline is applied to the bucket its route resolves to |
| BackoffHistory.FeedbackDeadline | src/limiter.rs:243-249 | the deadline of a feedback is the later of its retry-after and, when nothing remains, its reset-after |
| FinishOrder.OrderDoesNotMatter | src/bucket.rs:218-321 | the same finalisations in any order leave the same counters and the same remaining backoff |
| FinishOrder.RunOrderDoesNotMatter | src/bucket.rs:218-321 | the same for the permits outstanding at any point of any run |
| FinishOrder.LimiterOrderDoesNotMatter | src/limiter.rs:279-303 | the same for permits of any keys: every order leaves the same limiter, global deadline included, up to deadlines already past |
| Retries.AdmittedWithinFourDenialsIff | src/limiter.rs:148-220 | for any key, tracked or new, any cost, ramped or not: waiting as told and asking again comes to a grant if and only if `Servable` holds, then after at most four denials (two for a new key) and at a stated instant; and otherwise no number of tries does |
| Retries.ReachableRetriesAreBoundedIff | src/limiter.rs:148-220 | so it is from every state a run with a clock that never goes back can reach |
| Retries.ServableWhen | src/limiter.rs:452-517 | a cost within the limit is servable if the window holds no reservation, or if the rate in force at the time of asking is positive |
| Retries.ReachableRetriesAreBounded | src/limiter.rs:148-220 | both together, for a caller that holds no permit of the window or a pool that refills, with a bound on the instant of admission |
| Retries.RampOpens | src/limiter.rs:452-517 | slow start lets an achievable cost through exactly from the end of the wait it names on, which is exactly where the cost is within the effective limit |
| Retries.RefilledPoolFits | src/token_bucket.rs:32-58 | a ramped pool has earned its deficit when it said to come back, as capacity and rate have only grown |
| Retries.NamesForeverIff | src/token_bucket.rs:53-58 | a pool names Duration::MAX for a cost within its capacity if and only if the rate in force is zero |
| Retries.HeldWindowGrantsIff | src/bucket.rs:41-54 | a window kept open by reservations grants, at any later time, exactly what fits beside them, and names a wait of zero once past its end |
| Retries.HeldWindowDeniesForever | src/bucket.rs:133-154 | from then on a caller that waits as told is denied at the same instant however often it asks |
| Retries.RefusedNeverAdmitted | src/limiter.rs:186-189 | a key the table refuses is denied however often it asks and waits |
| Retries.TableStage | src/limiter.rs:186-197 | past the other gates a new key is granted at once if and only if the table takes it |
| Retries.FullTableServesNoNewKey | src/limiter.rs:345-357 | a run that ends there under DenyNewKey, with nothing outstanding |
| Retries.HeldTableServesNoNewKey | src/limiter.rs:358-389 | a run that ends there under EvictOldestKey, and is let out by a commit |
| Retries.HeldWindowServesNobody | src/bucket.rs:41-54 | a run that ends there: a window of one, held |
| Retries.RampedPoolNamesForever | src/limiter.rs:419-450 | a run that ends in a ramped rate of zero: the pool names Duration::MAX where ten seconds would do |
| RampedPools.GrantWithinRampIff | src/token_bucket.rs:25-59 | a grant is drawn from at most the ramped capacity if and only if the clock has moved on since the last refill or the pool held no more than that |
| RampedPools.DrawnWithinRampIff | src/limiter.rs:419-450 | the same at any point of any run, for the whole limiter |
| RampedPools.StepKeepsRamp | src/limiter.rs:279-303 | only creation, a refund, a commit(NotSent) or an update, at that very instant, can leave a pool over the ramp |
| RampedPools.RampBoundsGrants | src/limiter.rs:419-450 | in every run where none of those happens to the bucket at the instant of a grant, the grant is drawn from at most the ramped capacity |
| RampedPools.CreationLifts | src/bucket.rs:80-82 | a new pool is born full and holds more than the ramp allows at its first instant |
| RampedPools.RefundAndUpdateLift | src/limiter.rs:294-301 | a refund, a commit(NotSent) and an update that changes nothing each refill past the ramp |
| RampedPools.LiftedPoolIgnoresRamp | src/token_bucket.rs:83-86 | an acquire at that instant is not clamped: a cost of two leaves eight where the ramp allows two |
| Lockstep.FixedDecisionsAgreeIff | tests/deterministic_server_model.rs:107-135 | limiter and server decide alike except at a maximum of zero and at the largest maximum |
| Lockstep.ZeroMaximumAgreesIff | tests/deterministic_server_model.rs:122-135 | from a new limiter and server, a maximum of zero disagrees at the first request unless the window is Duration::MAX |
| Lockstep.LargestMaximumBreaksLockstep | tests/deterministic_server_model.rs:122-135 | from a new limiter and server, at a maximum of 2^32 - 1 the server accepts one more than the maximum |
| Lockstep.PoolStatesAgreeIff | tests/deterministic_server_model.rs:136-171 | they decide alike, and stay in the same state except after a cost above the capacity |
| Lockstep.OverCapacityRequestBreaksLockstep | tests/deterministic_server_model.rs:308-312 | from a new limiter and server, such a cost makes the limiter deny later what the server accepts |
| Lockstep.LimiterMatchesServer | tests/deterministic_server_model.rs:274-315 | on every trace of every set of keys and outcomes both decide alike with the same wait at every step |
| TraceDriver.DeterministicServer.Decide | tests/deterministic_server_model.rs:85-173 | the server object decides as the value model does |
| TraceDriver.DeterministicServer.ApplyOutcome | tests/deterministic_server_model.rs:175-243 | the server object accounts as the value model does |
| Servers.OutcomeInItsWindow | tests/deterministic_server_model.rs:175-243 | an outcome is charged to the window of its own instant, whenever the decision was |
| Servers.OutcomeStartsKey | tests/deterministic_server_model.rs:175-243 | an outcome for a key never asked about starts the key at its own instant |
| TraceDriver.DriveTrace | tests/deterministic_server_model.rs:274-315 | the loop reports exactly whether no step would panic |
| TraceDriver.DriverNeverPanics | tests/deterministic_server_model.rs:274-315 | from a new limiter and server it never panics, on any timely trace: with equal algorithms, or with a client whose maximum is above the server's, where a 429 makes it back off as long as the server does |
| TraceDriver.OptimistKeyDrives | tests/deterministic_server_model.rs:412-434 | one attempt of an optimistic client, accepted or answered with a 429, leaves client and server counting and blocking alike |
| Conservative.SlowStartIsConservative | tests/deterministic_server_model.rs:382-410 | whatever a ramped limiter sends, the full-limit server accepts, for both algorithms and every trace |
| Conservative.RefillStaysBehind | src/token_bucket.rs:83-105 | the sum of floors at lower rates is at most one floor at the full rate |
| InFlight.InFlightTable.constructor | src/in_flight.rs:103-110 | a new table is empty |
| InFlight.InFlightTable.Begin | src/in_flight.rs:123-155 | the result and the new map of live entries, in all four cases; it never compacts |
| InFlight.InFlightTable.Enter | src/in_flight.rs:142-152 | the new entry takes the next, wrapping, number, in the map and in the heap |
| InFlight.InFlightTable.Complete | src/in_flight.rs:158-168 | the entry's waiters come out in join order and only that entry leaves; exactly when and how much it compacts |
| InFlight.InFlightTable.Expire | src/in_flight.rs:173-192 | exactly the due entries come out, by deadline and then number; exactly the rest stays |
| InFlight.InFlightTable.ExpireDue | src/in_flight.rs:173-188 | the expiry loop: stale items are skipped, due entries drained, and it stops with nothing due left |
| InFlight.InFlightTable.MaybeCompactHeap | src/in_flight.rs:199-214 | the heap is within 4 * live + 64 items; exactly when it compacts and what that pushes again, paid by completions |
| InFlight.InFlightTable.CompactHeap | src/in_flight.rs:216-226 | the rebuilt heap holds the live entries and nothing else |
| InFlight.EarlyNumberUnused | src/in_flight.rs:194-197 | while fewer than 2^64 entries have begun the next number is that of no heap item |
| InFlight.StaleItemsStayDeadIff | src/in_flight.rs:183-185 | stale items of an id stay dead when it begins again if and only if the new number is none of theirs |
| InFlight.PushKeepsOrder | src/in_flight.rs:33-54 | joining appends |
| InFlight.DrainBetweenNews | src/in_flight.rs:130-137 | two New results for one id are separated by a drain of that id |
| OpenGate.DurableOpenGate.Open | src/durable_open_gate.rs:176-232 | when opening fails and what the cache starts with |
| OpenGate.OpensIff | src/durable_open_gate.rs:176-232 | a down process comes up exactly if the store opens, the configuration is valid, and the record loads or the gate fails open, and with which lock |
| OpenGate.FreshGateBlocks | src/durable_open_gate.rs:221-230 | over every fail-closed schedule a gate that opens has the lock of the durable record, at or past every earlier grant's, and blocks until exactly then under every fault of the store |
| OpenGate.DurableOpenGate.TryAcquireOpen | src/durable_open_gate.rs:240-308 | reply, cache and record of one call, for every fault |
| OpenGate.DurableOpenGate.PersistErrorDecision | src/durable_open_gate.rs:310-326 | a persistence failure denies when failing closed and grants in memory otherwise |
| OpenGate.FailsIff | src/durable_open_gate.rs:240-326 | exactly which calls fail, for every record, cache, configuration and fault |
| OpenGate.EveryOutcome | src/durable_open_gate.rs:240-326 | for every record, cache, configuration and fault: when a call blocks, what it writes, and where reply and cache end up |
| OpenGate.FailOpenStillFailsIff | src/durable_open_gate.rs:255 | with fail_closed off a call past the cached lock fails if and only if the write transaction cannot begin |
| OpenGate.BeginFailureFailsOpenGate | src/durable_open_gate.rs:255 | a fresh gate that fails open grants when it cannot read or write, and fails when it cannot begin |
| OpenGate.DurableOpenGate.TryAcquireOpenFailClosed | src/durable_open_gate.rs:370-381 | contention blocks and poison fails, changing nothing |
| OpenGate.GrantsAreSeparated | src/durable_open_gate.rs:240-326 | failing closed, over every schedule of calls, faults, crashes and reopens, each grant comes after every earlier lock |
| OpenGate.GrantsInSpan | src/durable_open_gate.rs:728-766 | a span holds at most span / window + 1 grants |
| OpenGate.GrantsAreSeparatedInLife | src/durable_open_gate.rs:310-326 | with any configuration the grants of one process lifetime are separated |
| OpenGate.FailOpenForgetsAcrossCrash | src/durable_open_gate.rs:310-326 | failing open, a crash lets two grants into one window |
| OpenGate.LockIsWindowIff | src/durable_open_gate.rs:274 | the lock lasts the whole window if and only if the 64-bit sum does not saturate |
| OpenGate.RealGap | src/durable_open_gate.rs:393-395 | in real time a gap falls short of the window by less than two milliseconds |
| OpenGate.RealGapIff | src/durable_open_gate.rs:393-395 | the end of the lock is never before the end of the real window if and only if grant and window are whole milliseconds and the lock does not saturate |
| OpenGate.RealWindowFallsShort | src/durable_open_gate.rs:274 | a schedule in which the second grant comes one nanosecond into a window of almost two milliseconds |
| OpenGate.SecondAskBlockedIff | src/durable_open_gate.rs:240-308 | asking again at once is blocked if and only if the window has a whole millisecond and the clock is not at its end |
| OpenGate.SubMillisecondWindowNeverBlocks | src/durable_open_gate.rs:188-192 | every window below one millisecond is accepted and, as long as the clock does not go back, never blocks |
| OpenGate.GrantedIffLastLockOver | src/durable_open_gate.rs:678-726 | in fault-free runs the gate grants if and only if the last lock is over, and else blocks until exactly then |
| OpenGate.RepliesFromRecord | src/durable_open_gate.rs:240-308 | over every fail-closed schedule of faults and crashes, a request without faults is granted if and only if the record's lock is over, and else blocked until a lock still ahead |
| OpenGate.GrantedAfterTwoBlocks | src/durable_open_gate.rs:240-308 | so a caller that waits as told is granted after at most two blocks |
| OpenGate.PersistedFailureBlocks | src/durable_open_gate.rs:256-272 | a schedule in which both come: a commit that failed but persisted leaves a record past the cache |

## Left out

- InFlight.InFlightTable.Expire: says which entries come out while the heap is sound; a begin whose wrapped sequence number is that of a stale heap item of the same id ends that, as expiry then takes the item for the new entry's.
- Lockstep.LimiterMatchesServer: assumes no slow start, no key bound, and a permit finalised at once, as the reference server knows none of these.
- LMDB, record encoding, the file lock and file system calls: replaced by one durable record and a fault chosen at each call.
- The heap's sifting, the hash map's hashing and the iteration order of either: the heap is a multiset with a least element, and no result depends on the order.
- The overflow of `usize` in the compaction threshold, and the statistics counters of the gate.
- Observers and their events (only the reason of a denial is kept), `Display` and `Error` implementations, clock helpers and configuration builders.
- `update_config_unchecked` as an operation of a run with permits outstanding: it is outside the guarantee the crate gives.
- The server's per-key records are values in a map that the server object reassigns; updating one through a reference is not modelled.
