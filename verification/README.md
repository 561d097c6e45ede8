# Temporaless: a verified model

Temporaless is a workflow runtime without an engine. Its safety rests on the order in which
independent object writes are made and on replay accepting whatever a crash leaves in the
bucket. This project models that core in Dafny and proves what it keeps.

Two kinds of model are used.

- *Step machines* where the property is about crashes or interleavings: the retry machine of
  `runActivity`, consumed wake timers, single flight, the two-object timer protocol, the
  dispatcher, the latest-run pointer. A state holds what the bucket holds and what only a live
  call knows; every store operation is one event; a write may be acknowledged, be lost, or land
  behind an error; a crash may fall between any two events. A theorem about "every run" is
  about every sequence of events, and an event that does not apply changes nothing.
- *Classes and methods with loops*, proved against specifications, where the source works step
  by step on its own state: the timer store and its due scan, the run cache, concurrency slots,
  the topological check, pagination, the retention sweep, fan-out, the backoff loops.

| file | models |
|---|---|
| `RetryPolicy.dfy`, `ActivityRetry.dfy` | backoff plans, and one activity call at a time with its retries across crashes |
| `ActivityCalls.dfy` | the same calls through the run cache: repeated within an invocation, with and without claims |
| `WakeRetention.dfy` | sleeps, polls and the acknowledgement of consumed wake timers |
| `SingleFlight.dfy`, `ConcurrencySlots.dfy` | execution claims and slot claims |
| `TimerKinds.dfy`, `TimerRecords.dfy`, `TimerProtocol.dfy`, `TimerStore.dfy` | ledger entry and point of a timer, many callers at once, and the store with its scanner |
| `LatestRun.dfy`, `RunCache.dfy` | the latest-run pointer and the run-scoped record cache |
| `Dispatcher.dfy`, `Fanout.dfy` | admission and shutdown, and settling of parallel branches |
| `PlanGraph.dfy`, `PlanRules.dfy` | plan validation |
| `Directory.dfy`, `Janitor.dfy` | cursor pagination and retention |
| `Basics.dfy`, `Sorting.dfy` | shared wrappers and sequence facts |

## Where the code does less than it promises

Each of these is proved with its exact condition, and the failing runs are constructed.

- Calling an activity again in one invocation, after its record was stored behind an error and
  without claims, acts on what the run cache remembers. The call can run the body behind a stored
  COMPLETED record and replace the result. Terminal records are final, and attempt history only
  grows, exactly in the settings that rule out one of the three.
- Replay conflicts with the runtime's own records when waits shrink below the durable threshold.
  Without Retry-After it never does exactly when a plan that is durable after attempt one is
  still durable after its last retryable attempt. With arbitrary Retry-After values the
  condition is stricter, and a constant backoff below the threshold already breaks it. Where
  such repeated calls are possible, exactly the plans that never wait durably are safe.
- A run can lose its only scheduled wake: when an invocation waits twice on one timer ID and an
  acknowledgement lands behind an error, and whenever durable activity retries are used.
- Once CANCELED records may be stored through `PutTimer`, a `GetTimer` that overlaps such a put
  can return a value that was never current; without them it never does.
- A due scan that overlaps a delete can bring the deleted timer back: its rewrite is invisible
  exactly when nobody published another record of the timer since the scan read it.
- Single flight and the concurrency cap hold exactly when operators remove a claim only after
  its owner stopped.
- A cached read or list that overlaps writes leaves a wrong answer behind exactly when the last
  write that landed in between left something else than it loaded, even if that write was
  acknowledged.
- A reader finds the run that is pointed at as the latest exactly when it did not go back in
  time, provided its writers do not overlap; overlapping writers of one run can hide it, and a
  status that changes and changes back at one time can fool a reader between its two reads.
- Setting the dispatcher's closed flag does not end admission: a submitter already past its
  check is still counted, at most one, and only before `waitSubmissions` has looked.
- A page size or read budget that is not positive ends a directory listing silently; a
  concurrency of zero never ends it, and negative limits slice out of range.

## Model

| member | source | states |
|---|---|---|
| `RetryPolicies.RetryIntervalAfterAttempt` | core/go/workflow/workflow.go:2255-2268 | The loop returns the interval of the recursive schedule, or its overflow error |
| `RetryPolicies.ValidateRetrySchedule` | core/go/workflow/workflow.go:2090-2107 | The single pass accepts exactly the plans whose every interval is computable |
| `RetryPolicies.NextIntervalBounds` | core/go/workflow/workflow.go:2773-2786 | One backoff step stays positive, within 63 bits and the maximum interval, and moves the way the coefficient says |
| `RetryPolicies.AcceptedScheduleIsUsable` | core/go/workflow/workflow.go:2025-2107 | Every accepted policy has, for each attempt before the last, a computable positive interval within its maximum |
| `RetryPolicies.WaitMonotone` | core/go/workflow/workflow.go:2255-2268 | Waits never shrink for coefficients of at least one and never grow for coefficients of at most one |
| `RetryPolicies.UniqueCodes` | core/go/workflow/workflow.go:2130-2157 | The compaction loop drops exactly the codes equal to their predecessor |
| `RetryPolicies.CodesCanonical` | core/go/workflow/workflow.go:2130-2157 | Sorting and compacting keeps the code set and leaves it strictly ascending |
| `RetryPolicies.NormalizePreservesPlan` | core/go/workflow/workflow.go:2130-2157 | A normalized policy has the plan of the original |
| `RetryPolicies.NormalizeIdempotent` | core/go/workflow/workflow.go:2130-2157 | Normalizing twice changes nothing |
| `RetryPolicies.NormalizedEqualIffSamePlan` | core/go/workflow/workflow.go:2130-2157 | Two normalized policies are equal exactly when their plans are |
| `ActivityRetry.OptionsForAccepted` | core/go/workflow/workflow.go:1457-1482 | Whatever options pass validation carry an accepted plan, its canonical policy, and a timer ID where backoff may be durable |
| `ActivityRetry.BodyRecordValid` | core/go/workflow/workflow.go:1767-1952 | Whatever the body does, the record an attempt produces is valid on replay and extends the stored history by one |
| `ActivityRetry.InvPrepared` | core/go/workflow/workflow.go:2506-2598 | Meeting a prepared timer, whatever its verification read does, keeps the pairing invariant |
| `ActivityRetry.InvEnsured` | core/go/workflow/workflow.go:2305-2398 | For a stored durable retry the paired timer is found as it is and its wake is returned |
| `ActivityRetry.InvTimerWrite` | core/go/workflow/workflow.go:2605-2681 | The timer write that precedes the record keeps the pairing, also when it is lost or lands behind an error |
| `ActivityRetry.InvActivityWrite` | core/go/workflow/workflow.go:1901-1952 | The record write keeps the pairing under every outcome |
| `ActivityRetry.ShapeEnter` | core/go/workflow/workflow.go:1491-1576 | Acting on any record the cache may answer with, a call changes no record, touches the timer only behind a terminal record, and runs the body only with that record's attempts |
| `ActivityRetry.EnterConflictsExactlyOnRejectedTimer` | core/go/workflow/workflow.go:2470-2598 | Whatever record a call acts on, it reports a conflict exactly when the stored timer does not fit that record: shorter than the next wait, moved on past a last retryable attempt, or of another duration than its record asks for |
| `ActivityRetry.EnterConflictsExactlyOnStaleTimer` | core/go/workflow/workflow.go:2470-2504 | Where the record acted on and the timer come from one history of calls, that leaves exactly a leftover timer shorter than the next wait |
| `ActivityRetry.ConflictOnlyOnEntry` | core/go/workflow/workflow.go:2560-2598 | No other step of an invocation can report a conflict |
| `ActivityRetry.UnsafePlainConflicts` | core/go/workflow/workflow.go:2560-2598 | Every plan outside the condition has a run without Retry-After that conflicts |
| `ActivityRetry.UnsafePolicyConflicts` | core/go/workflow/workflow.go:2560-2598 | Every plan outside the stricter condition has a run that conflicts |
| `ActivityRetry.GrowingBackoffIsSafe` | core/go/workflow/workflow.go:2773-2786 | Coefficients of at least one meet that condition |
| `ActivityRetry.RetryAfterBreaksReplay` | core/go/workflow/workflow.go:2560-2598 | Three attempts, one second apart, threshold ten seconds: safe without Retry-After, conflicting with it |
| `ActivityCalls.StoredStateIsReplayable` | core/go/workflow/workflow.go:2159-2250 | In every setting, at every cut of every run: a durable RETRYING record has a SCHEDULED timer naming its activity that fires no earlier; every RETRYING record passes the replay checks; attempts are numbered 1..k within the maximum; a FIRED timer implies a terminal record |
| `ActivityCalls.WakeNeverMovesBack` | core/go/workflow/workflow.go:2605-2681 | In every setting, from any cut to any later one, the stored wake never moves back or disappears |
| `ActivityCalls.RunsOnlyMoveForward` | core/go/workflow/workflow.go:1496-1576 | Unless bodies call again after a masked write without claims: from any cut to any later one, the wake never moves back, the attempt history only grows and a terminal record never changes |
| `ActivityCalls.SecondCallOverwritesResult` | core/go/workflow/cache.go:222-296 | Otherwise, for every plan and any two results: a run in which a second call runs the body behind the stored COMPLETED record and replaces its result |
| `ActivityCalls.TerminalIsFinalExactly` | core/go/workflow/workflow.go:1601-1745 | All runs only move forward and never run the body behind a terminal record, if and only if bodies do not call again, or record writes are not ambiguous, or calls hold claims |
| `ActivityCalls.RunConflictsExactly` | core/go/workflow/workflow.go:1491-1744 | In every setting and after any run, a move brings on a conflict if and only if it is a first read whose timer does not fit the record the cache answers with, or a refresh under a claim whose timer does not fit the stored record |
| `ActivityCalls.MaskedRetryConflicts` | core/go/workflow/workflow.go:2470-2504 | Where calls can be misled, any run that reaches the last retryable attempt of a plan with a durable wait continues to a conflict: the attempt is rerun behind its stored record and moves the timer past it |
| `ActivityCalls.UnprotectedConflicts` | core/go/workflow/workflow.go:2470-2504 | There, every plan with retries and a threshold has a conflicting run, also without Retry-After when its last wait is durable |
| `ActivityCalls.NeverDurableNeverConflicts` | core/go/workflow/workflow.go:2305-2398 | In every setting a plan that never waits durably stores no timer and never conflicts |
| `ActivityCalls.ReplayAcceptsWithoutRetryAfter` | core/go/workflow/workflow.go:2470-2598 | Over all runs without Retry-After, no call conflicts if and only if a plan durable after attempt one is durable after its last retryable attempt, or, where calls can be misled, no wait of the plan is durable |
| `ActivityCalls.ReplayAcceptsAnyFailure` | core/go/workflow/workflow.go:2470-2598 | Over all runs, no call conflicts if and only if each wait reaches the threshold or the next wait exists and does not exceed it, or, where calls can be misled, the plan has no threshold or no retries |
| `WakeRetention.InvSleep` | core/go/workflow/workflow.go:1179-1291 | Every branch of a sleep keeps the wake invariant and retires nothing early |
| `WakeRetention.InvArmPoll` | core/go/workflow/workflow.go:920-1020 | The same for arming a poll |
| `WakeRetention.InvAck` | core/go/workflow/workflow.go:221-268 | Acknowledging one consumed timer, under every write outcome, keeps it |
| `WakeRetention.WakesRetiredOnlyBehindSuccessor` | core/go/workflow/workflow.go:205-274 | Over all runs, durable activities included, every step that marks a sleep or poll timer FIRED leaves another timer SCHEDULED or the terminal record stored, if and only if an ambiguous acknowledgement cannot meet a reused timer ID |
| `WakeRetention.ReuseLosesWake` | core/go/workflow/workflow.go:221-268 | Reusing a consumed ID after an ambiguous acknowledgement retires the only scheduled wake |
| `WakeRetention.DurableActivityLosesWake` | core/go/workflow/workflow.go:1822-1824 | A durable activity that ends after a sleep leaves no scheduled wake |
| `WakeRetention.WakeRetention` | core/go/workflow/workflow.go:719-755 | Every run keeps a SCHEDULED timer from its first durable wake to its terminal record, if and only if bodies use no durable activities and do not combine ID reuse with ambiguous acknowledgements |
| `SingleFlight.InvStepped` | core/go/workflow/workflow.go:433-587 | Every storage operation of an invocation, with any write outcome, keeps the claim invariant |
| `SingleFlight.InvBody` | core/go/workflow/workflow.go:655-757 | Leaving the body, terminally or pending, keeps it |
| `SingleFlight.TerminalRecordIsFinal` | core/go/workflow/workflow.go:719-757 | Once a terminal record is stored no continuation of the run changes it |
| `SingleFlight.UnverifiedCleanupBreaksSingleFlight` | core/go/workflow/workflow.go:433-587 | Removing a live owner's claim puts two invocations into the body |
| `SingleFlight.SingleFlightIffVerifiedCleanup` | core/go/workflow/workflow.go:433-587 | Over all interleavings, crashes and ambiguous claim errors: one invocation inside the body, one terminal commit, every successful return equal to the stored result, if and only if claims are removed only after their owner stopped |
| `ConcurrencySlots.ClaimStore.AcquireConcurrencySlot` | core/go/workflow/concurrency.go:53-96 | Takes the lowest free slot below the limit; busy exactly when all are taken; a failed attempt adds at most one claim |
| `ConcurrencySlots.ReleaseFreesOnlyItsOwn` | core/go/workflow/concurrency.go:98-113 | After any run with verified cleanup, releasing undoes exactly the own acquisition: that claim and no other goes, nobody holds the slot, every other holder keeps a stored claim, and whoever tries the slot next takes it |
| `ConcurrencySlots.UnverifiedCleanupCrowds` | core/go/workflow/concurrency.go:53-96 | Removing held claims lets any number of invocations hold slots under a limit of one |
| `ConcurrencySlots.CapHoldsIffVerifiedCleanup` | core/go/workflow/concurrency.go:53-113 | Over all interleavings, crashes and leaked claims, holders never exceed the cap and each keeps its claim, if and only if claims are removed only after their holder is gone (or the cap is zero) |
| `TimerRecords.WrittenEntryIsValid` | core/go/storage/opendal.go:1259-1313 | The ledger entry written for a storable record passes the scanner's validation and carries that record |
| `TimerProtocol.StepRefinesAtomicMap` | core/go/storage/opendal.go:98-145 | Over all interleavings, one step changes what `GetTimer` reports only when it publishes a ledger entry, and only for that key |
| `TimerProtocol.GetTimerShowsLastPublished` | core/go/storage/opendal.go:1220-1313 | After any run, `GetTimer` reports the last published entry of the key |
| `TimerProtocol.LateWritesNeverResurrect` | core/go/storage/opendal.go:661-716 | A deleted timer stays deleted until somebody publishes a new entry, whatever point writes are still under way |
| `TimerProtocol.CanceledPutBreaksGetTimer` | core/go/storage/opendal.go:98-110 | For every storable CANCELED record, a run in which the second read of `GetTimer` returns it although it was never current |
| `TimerProtocol.GetTimerIsLinearizable` | core/go/storage/opendal.go:98-145 | Every two-read `GetTimer` of every run returns a value current at some moment of its call, if and only if runs do not store CANCELED records through `PutTimer` |
| `TimerProtocol.ScanKeepsWhatItRead` | core/go/storage/opendal.go:882-909 | Whatever others do meanwhile, a scan goes on with the record it read |
| `TimerProtocol.RepairIsInvisibleExactly` | core/go/storage/opendal.go:882-909 | Over every run since its read, the scan's ledger rewrite changes nothing a reader sees if and only if nobody published the timer anew, or the last to do so published the same record |
| `TimerProtocol.OverlappingScanResurrects` | core/go/storage/opendal.go:882-909 | For every scheduled timer there is a run where the rewrite brings it back after its delete |
| `TimerStore.OpenDALStore.GetTimer` | core/go/storage/opendal.go:98-145 | Returns the ledger's record, nothing under a tombstone, the point only without an entry, and corruption where it cannot tell |
| `TimerStore.OpenDALStore.PutTimer` | core/go/storage/opendal.go:1220-1257 | Under every outcome of its two writes: the exact new objects and number of bucket writes, visible from the ledger write on, other keys unchanged |
| `TimerStore.OpenDALStore.DeleteTimer` | core/go/storage/opendal.go:661-716 | Success hides and removes the timer; an error leaves it as it was or hidden; other keys keep both objects |
| `TimerStore.OpenDALStore.ListTimers` | core/go/storage/opendal.go:562-659 | Succeeds exactly when no timer of the run reads as corrupt, and lists exactly what `GetTimer` finds, once each, by ascending ID, also where an entry shadows a corrupt point |
| `TimerStore.OpenDALStore.ListLedger` | core/go/storage/opendal.go:562-607 | The ledger pass yields every shadowed point and the records prepared for them |
| `TimerStore.OpenDALStore.ScanEntry` | core/go/storage/opendal.go:882-940 | One entry: quarantined if invalid, its point brought into agreement, a wake only if both copies agreed before |
| `TimerStore.OpenDALStore.DueTimers` | core/go/storage/opendal.go:832-957 | A scan never changes what `GetTimer` reports; on success every point agrees with its entry, the wakes are exactly the due timers that agreed before, strictly ordered and valid; on a settled bucket it makes no write call at all |
| `TimerStore.RecoverAndReport` | core/go/storage/opendal.go:832-957 | From any state with readable entries and parents, two scans settle the bucket and report exactly the SCHEDULED, elapsed timers of IN_PROGRESS runs, strictly ordered |
| `TimerStore.SettledReportsEveryWake` | core/go/storage/validate.go:251-282 | In a settled bucket no due wake is held back |
| `TimerStore.SortedRecords` | core/go/storage/opendal.go:640-659 | Filters by status and sorts by ID, each record once |
| `TimerStore.SortDue` | core/go/storage/opendal.go:939-956 | Sorts the wakes strictly by fire time and key without losing or repeating one |
| `LatestRun.PointerIsLexicographicMaximum` | core/go/storage/opendal.go:299-408 | However writers overlap, stop or fail, the pointer is the last of the puts with the greatest (run_order_time, record_time) among those whose comparison took effect |
| `LatestRun.InOrderRun` | core/go/storage/opendal.go:178-227 | With one writer per run, the puts of a run are compared in the order in which they were written |
| `LatestRun.FoundExactlyWhenNotGoneBack` | core/go/storage/opendal.go:229-256 | With one writer per run, once the pointer's run is caught up a reader finds it if and only if no earlier comparison of that run was later than its stored record |
| `LatestRun.OverlappingWritersHideTheRun` | core/go/storage/opendal.go:220-227 | For any two records of one run with the same pair and different statuses, overlapping puts leave a pointer no reader accepts |
| `LatestRun.NotGoingBackSufficesExactly` | core/go/storage/opendal.go:178-256 | Not having gone back makes every run with a caught-up pointer findable, if and only if writers of one run never overlap |
| `LatestRun.ReaderSeesMatchingPointer` | core/go/storage/validate.go:212-246 | At every cut and whatever happens between the two reads, a returned pointer matches the record read and is no earlier than any stored put compared by the first read |
| `LatestRun.LatestRunIsFound` | core/go/storage/opendal.go:178-256 | If no run goes back, each has one writer and all are caught up, the pointer is found, matches, and no stored run is later |
| `LatestRun.FlippingStatusFoolsTheReader` | core/go/storage/opendal.go:229-256 | A status that changes and changes back without its pair makes two reads return a pointer that was current at no moment between them |
| `LatestRun.TwoReadsAreCurrentExactly` | core/go/storage/opendal.go:229-256 | Over all writers that never go back, a pointer two reads return was current between them, if and only if no run changes its status without its pair |
| `LatestRun.GoingBackHidesTheRun` | core/go/storage/opendal.go:386-408 | For any two records of a run of which the second is the earlier, both puts complete and no reader finds the run |
| `RunCache.StaleStep` | core/go/workflow/cache.go:222-345 | Exactly which operations make a key's cached answer wrong and which restore it |
| `RunCache.StaleOnlyWhenUnsettled` | core/go/workflow/cache.go:261-283 | After any operations on a new cache, a key is stale only if the last thing that settled it was a write that landed behind an error, or another process |
| `RunCache.GetMatchesStore` | core/go/workflow/cache.go:222-255 | Reads of settled keys equal the inner store's answer |
| `RunCache.ListAgrees` | core/go/workflow/cache.go:298-335 | A cached list agrees with the store's on every key that is not stale |
| `RunCache.ListMatchesStore` | core/go/workflow/cache.go:424-481 | With every key settled, lists equal the inner store's, filtered or not |
| `RunCache.AmbiguousPutIsMasked` | core/go/workflow/cache.go:387-409 | In any cache that answers a key from memory, a put that landed behind an error stays hidden until the key is refreshed |
| `RunCache.StoreHoldsLastLanded` | core/go/workflow/cache.go:285-296 | After any operations the store holds what the last landed write to a key left |
| `RunCache.OverlappedReadIsStaleExactly` | core/go/workflow/cache.go:237-255 | For any cache and any operations between the load and its remembering, the key ends stale if and only if the last write to it that landed in between left something other than the load saw; other keys are untouched |
| `RunCache.OverlappedReadHidesAckedPut` | core/go/workflow/cache.go:237-255 | In any cache such a read hides any acknowledged put that changes the record |
| `RunCache.OverlappedListIsStaleExactly` | core/go/workflow/cache.go:298-335 | For any cache and any operations between a list's load and its merge, a key it listed or nobody remembered since ends stale if and only if the last write to it that landed in between left something other than was listed; other entries stay as they were |
| `RunCache.OverlappedListHidesAckedPutExactly` | core/go/workflow/cache.go:105-121 | Such a merge hides an acknowledged put if and only if the list held another record of that key |
| `RunCache.KindCache.Get` | core/go/workflow/cache.go:222-255 | Answers from memory or loads and remembers, absence included |
| `RunCache.KindCache.Refresh` | core/go/workflow/cache.go:261-283 | Always loads, and remembers the answer |
| `RunCache.KindCache.Put` | core/go/workflow/cache.go:285-296 | Write-through; remembers only acknowledged writes |
| `RunCache.KindCache.Delete` | core/go/workflow/cache.go:337-345 | Delete-through; remembers absence only when acknowledged |
| `RunCache.KindCache.List` | core/go/workflow/cache.go:424-481 | From memory once listed; otherwise from the store, and only an unfiltered list fills the cache |
| `RunCache.KindCache.Remember` | core/go/workflow/cache.go:105-121 | The merge loop ends in the store's records over the earlier entries |
| `RunCache.PrefetchAll` | core/go/workflow/cache.go:63-121 | Fills the three kinds, or none if any list fails |
| `Dispatcher.AdmissionAfterClosing` | adapters/go/dispatch/dispatch.go:374-385 | In every reachable closed state nobody passes the check any more, and a step admits only the lock's owner, already past its check, before `waitSubmissions` has looked |
| `Dispatcher.AtMostOneAdmissionAfterClosing` | adapters/go/dispatch/dispatch.go:374-385 | In every continuation of a closed state at most one submission is counted, and none without a submitter already past its check |
| `Dispatcher.SubmissionCountedAfterClosing` | adapters/go/dispatch/dispatch.go:588-592 | A run that closes with no active submission and then counts one |
| `Dispatcher.ClosedAndIdleStaysIdleExactly` | adapters/go/dispatch/dispatch.go:735-772 | A closed dispatcher with no active submission stays idle in every continuation if and only if nobody is past its check |
| `Dispatcher.DrainedForever` | adapters/go/dispatch/dispatch.go:735-772 | Once closed with no active submission and nobody past its check, that stays so and the wait group only falls |
| `Dispatcher.NoAddAfterWait` | adapters/go/dispatch/dispatch.go:747-772 | After `waitSubmissions`, which looks under the admission lock, reports true, in every continuation active submissions stay zero and nothing is added to the wait group |
| `Dispatcher.QueueClosedOnceAndHandlersBounded` | adapters/go/dispatch/dispatch.go:562-639 | In every interleaving the queue is closed at most once, exactly once when shutdown ends, and running handlers stay within MaxInflight |
| `PlanGraph.Relax` | adapters/go/visualization/visualization.go:284-291 | The inner loop lowers each in-degree by the arc multiplicity and appends exactly the nodes that reach zero |
| `PlanGraph.TopologicalOrderExcludesCycles` | adapters/go/visualization/visualization.go:279-295 | A complete order in which arcs come from earlier nodes admits no cycle |
| `PlanGraph.PredecessorsMakeCycle` | adapters/go/visualization/visualization.go:279-295 | Nodes that all keep a predecessor among themselves contain a cycle |
| `PlanGraph.TopologicalCheck` | adapters/go/visualization/visualization.go:271-295 | For any order of the ready nodes, all nodes are visited if and only if the arcs, with multiplicity, have no cycle |
| `PlanRules.CheckNodes` | adapters/go/visualization/visualization.go:119-148 | The node pass accepts exactly distinct IDs with complete callable nodes, and indexes them |
| `PlanRules.CheckEdges` | adapters/go/visualization/visualization.go:150-269 | The edge pass accepts exactly the lists whose every edge fits and whose pairs are compatible, and fills the tables |
| `PlanRules.ValidatePlan` | adapters/go/visualization/visualization.go:95-298 | Accepts exactly the plans within limits, without nil elements, with valid nodes and edges and acyclic forward edges |
| `Directory.TokenResumes` | adapters/go/inspection/directory.go:52-60 | A page token leaves exactly the names its page did not read |
| `Directory.FollowedPagesAreTheListing` | adapters/go/inspection/directory.go:62-95 | Following tokens from any cursor yields the rest of the filtered listing in order |
| `Directory.PagesAreCompleteExactly` | adapters/go/inspection/inspection.go:340-364 | The concatenated pages are the whole listing if and only if page size and budget are positive or nothing matches |
| `Directory.PagesKeepLimits` | adapters/go/inspection/directory.go:62-88 | Every page keeps the page size and the read budget |
| `Directory.IterationAdvancesExactly` | adapters/go/inspection/directory.go:67-68 | Under the loop guard an iteration advances exactly for a positive concurrency, changes nothing exactly for zero, and slices out of range exactly for a negative one |
| `Directory.NoConcurrencyNeverEnds` | adapters/go/inspection/directory.go:67-87 | With concurrency zero the loop stands where it stood after any number of iterations |
| `Directory.ListWorkflowDirectory` | adapters/go/inspection/directory.go:25-95 | For all limits: the error for too many objects, that page, or, when there is something to read, no end for concurrency zero and an out-of-range slice for a negative one |
| `Directory.Search` | adapters/go/inspection/directory.go:217-225 | Bisection finds where the names past the cursor begin, in both directions |
| `Directory.ListWorkflowRuns` | adapters/go/inspection/directory.go:178-249 | For all limits: a page of run directories in the asked direction with the count of those without a record, and an out-of-range slice exactly for a negative page size |
| `Janitor.RecordStore.SnapshotRun` | adapters/go/janitor/janitor.go:219-311 | A plan only if every list call succeeds and every listed key belongs to the run |
| `Janitor.RecordStore.PlanSweep` | adapters/go/janitor/janitor.go:104-153 | The planning pass reports the first failing row or all plans, and changes nothing |
| `Janitor.RecordStore.DeleteRun` | adapters/go/janitor/janitor.go:313-345 | Claims, activities, timers, events, then the record, up to the failing call |
| `Janitor.ListCompleted` | adapters/go/janitor/janitor.go:79-101 | The paging loop ends, with the rows of all pages, with the failed call, or with a repeated token |
| `Janitor.QueryYieldsOne` | adapters/go/janitor/janitor.go:79-101 | Its outcome is determined by the pages, and a repeated token is reported if and only if following tokens would never end |
| `Janitor.RecordStore.SweepRows` | adapters/go/janitor/janitor.go:103-167 | Nothing changes on a planning error; otherwise exactly a prefix of the planned deletions is gone, all of it on success, and the count names the runs finished |
| `Janitor.RecordStore.Sweep` | adapters/go/janitor/janitor.go:49-167 | The whole call: request check, claim preflight, paging, then that sweep of the listed rows |
| `Janitor.OnlyDeletionChanges` | adapters/go/janitor/janitor.go:169-196 | Every error but a failed delete is reported with nothing changed |
| `Janitor.OnlyExpiredRunsAreTouched` | adapters/go/janitor/janitor.go:104-153 | Runs that were not queried, or not COMPLETED by the cutoff, keep their record and children |
| `Janitor.NoOrphansAtAnyCut` | adapters/go/janitor/janitor.go:313-345 | At every cut a run whose record is gone has no children left |
| `Janitor.SuccessRemovesEveryExpiredRun` | adapters/go/janitor/janitor.go:154-167 | A successful sweep removes every expired queried run |
| `Janitor.RerunRemovesWhatRemained` | adapters/go/janitor/janitor.go:313-345 | After any interruption, a later successful sweep leaves neither record nor children of a run that had expired |
| `Fanout.JoinedIsContinuationExactly` | core/go/workflow/workflow.go:759-787 | A joined error is a continuation exactly when a part reports a leaked claim, or a part is pending and none is an activity outcome or conflict |
| `Fanout.JoiningTerminalStaysTerminal` | core/go/workflow/fanout.go:73-86 | Joining terminal errors never makes a continuation, for any error trees |
| `Fanout.JoiningHidesPending` | core/go/workflow/fanout.go:67-71 | Joining without looking for a pending branch first would lose it |
| `Fanout.LeakedClaimIsAlwaysContinuation` | core/go/workflow/workflow.go:759-765 | A leaked claim survives any join and any wrapping activity outcome |
| `Fanout.Choose` | core/go/workflow/fanout.go:67-86 | No error exactly when no branch failed; the first continuing failure exactly when there is one; otherwise the failures in branch order |
| `Fanout.AllActivities` | core/go/workflow/fanout.go:39-86 | The outcome is that choice and the results by position, whatever order the branches settle in |

## Left out

- Form: `Run`, `runActivity`, `Sleep`, `ArmPoll`, `PutWorkflow` and the dispatcher are step machines on values, because a crash or another caller can fall between any two of their operations; the Go control flow inside one step is not kept.
- Activity claims are free, taken or failing at will, so who holds, leaks or releases one is open; a failed read under a claim is a failed claim. Calls of one activity follow one another: two that run at once are not modelled.
- The identity check of a replayed activity and the waits of in-process retries are not part of the retry machine.
- Go runtime cancellation: a cancelled context is a crash or a failed call, not a separate event.
- Floating-point rounding in the backoff: the coefficient is an exact real.
- Delayed writes: a write never lands after its call has returned.
- Several store instances sharing a bucket: the pointer's mutex orders one instance only.
- LatestRun.FoundExactlyWhenNotGoneBack: covers records with a persisted time; an undated record is matched by status alone, as in the source, and is not ranked.
- TimerStore.RecoverAndReport: composes two scans; the source leaves the second to the next poll.
- RunCache.KindCache.List: the order of a list served from memory is arbitrary, as Go map iteration is, so lists are compared as sets without repeats.
- The single workflow record of the cache is the one-key case of a kind and has no class of its own.
- Directory.ListWorkflowDirectory: reads that fail are not modelled; a loop that never ends is an outcome of the model, not a run of it.
- Janitor.ListCompleted: the query answers from finitely many tokens; one that hands out new tokens for ever never returns in the source either.
- PlanRules.ValidatePlan: protobuf field validation is not modelled.
- Fanout.AllActivities: goroutines settle in any order given as a sequence; a panicking branch is one more error.
- Key syntax, path building, protobuf encoding, OpenDAL and quarantine file formats are abstract.
- Event delivery, workflow dependencies, connect transports, cloud events, cron schedules, consoles, authorization, payload rendering and the projection of runs onto plans are not modelled.
