# Proofs about gforce and the query engine of its UI

This project models the stateful parts of gforce, a self-hosted Git forge, and of TanStack Query,
the engine its UI runs on (bundled under `ui/.vite/deps`), and proves what they keep over whole runs.

Each module takes one component. Where the source updates state, the module has a pure `Step` (one
event) and `Exec` (a run), a class that performs the same events in place with `ensures View() ==
Step(old(View()), …)`, and lemmas about every run of `Step`. Promises, timers and calls into the
database, the disk and the API server are explicit events, each of which may fail.

| module | component |
|---|---|
| `MutationQueue` | mutations that share a scope run one after the other: `MutationCache`, `Mutation.execute`, pausing |
| `StructuralSharing` | `replaceEqualDeep`: reuse the old value where the new one says the same |
| `QueryState` | a query: reducer, fetches, revert; built on the machine of `Retryer` |
| `Retryer` | `createRetryer`: retries, pauses, cancellation |
| `QueriesObserver` | `QueriesObserver`: matching queries with observers, subscriptions |
| `Notifier` | `createNotifyManager`: batches of callbacks |
| `Reconciler` | the Kubernetes controller of repositories over resources, disk and rows |
| `RepoRace` | REST creates racing with reconcile workers over the table of repositories |
| `Migrations` | the migration runner, concurrent and crashing |
| `RateLimit` | the per-address token bucket with eviction |
| `RepoNames` | disk path, clone URL, HTTP paths, SSH command and resource name of a repository |
| `PktLine` | pkt-line framing |
| `Pats` | personal access tokens: prefix index against full scan |

Some properties one would expect are false of the code. For each there is the exact condition under
which it holds and an input or a run on which it fails:

- **At most one fetch of a query in flight.** False when a fetch starts after an earlier one has
  settled but before its continuation has run: that continuation then marks the query idle under the
  new fetch (`QueryState.OneInFlight`, `OverlapMeansTwo`; the run: `TwoInFlight`).
- **A settled retryer is silent.** A machine cancelled while it sleeps reports a pause when it wakes
  out of focus (`Retryer.StrayPauseIff`; the run: `StrayPause`).
- **`replaceEqualDeep(a, b)` means b.** An own key `__proto__` is lost, an own key `constructor` can
  make the test for plain objects throw (`StructuralSharing.ReplaceEqualDeep`; the inputs: `ProtoIsLost`,
  `NullConstructorFails`).
- **Every scheduled callback is called.** One that throws takes the rest of its batch with it
  (`Notifier.DeliveredIff`; the run: `ThrowDropsTheRest`).
- **One subscription per observer.** Subscribing the sole listener again subscribes to every observer
  again (`QueriesObserver.StepKeeps`; the run: `SubscribingAgainDoubles`).
- **A mutation that may go on goes on.** The client skips the resume on focus while offline
  (`MutationQueue.StrandedIff`, `FocusOfflineResumesNothing`; the run: `FocusOfflineStrands`).
- **Eviction is unobservable.** Exactly from two requests a minute on (`RateLimit.EvictionUnobservableIff`;
  the run: `DrainedSeparates`).
- **Each migration takes effect exactly once.** Exactly when no script that is ever accepted holds a
  COMMIT of its own (`Migrations.ExactlyOnceIff`; for any such script the run: `CrashAfter`). All three
  scripts under `internal/store/migrations` hold one, so what holds for them is `HarmlessIff`.
  The comment on `RunMigrations` promises idempotence without this condition; the model follows the code.
- **Ready means synced.** A failed sync is reported as synced, and so is a row that somebody else
  inserted in between, which is never synced; an emptied description is never sent
  (`Reconciler.FailedSyncIsReported`, `DescriptionSyncedIff`; the worlds: `ReadyOverAnotherRow`,
  `EmptiedDescriptionStays`).
- **A deletion leaves nothing.** The finalizer goes with the first attempt that can write it, so what
  that attempt did not remove stays; and what the status does not name is not removed at all
  (`Reconciler.DeletionLeaves`; the runs: `DeletionLeaks`, `DeletionOrphans`).
- **One resource per repository.** `user-repo` is shared when it splits at another hyphen
  (`RepoNames.CrNameSharedIff`; the names: `CrNameShared`).
- **A flush is not a packet.** The reader answers "" to both a flush and an empty payload
  (`PktLine.ReaderConfuses`; the streams: `FlushReadsLikeEmpty`).

## Model

| member | source | states |
|---|---|---|
| MutationQueue.OneInFlightPerScope | ui/.vite/deps/@tanstack_react-query.js:2359-2380 | in every interleaving two functions of one scope are never in flight together |
| MutationQueue.StartsInSubmissionOrder | ui/.vite/deps/@tanstack_react-query.js:2076-2222 | in every interleaving the functions of a scope are first called in submission order, each once |
| MutationQueue.NothingStuck | ui/.vite/deps/@tanstack_react-query.js:2371-2416 | a focused online window never comes to rest with a mutation left pending |
| MutationQueue.FinishWakesNextHead | ui/.vite/deps/@tanstack_react-query.js:2371-2380 | when a mutation settles in an awake window, a waiting one of its scope resumes if and only if it is now the first pending |
| MutationQueue.StrandedIff | ui/.vite/deps/@tanstack_react-query.js:844-860 | in every run a mutation is left paused that may go on if and only if it is the waiting head of its scope, needs no network, and the window is focused and offline |
| MutationQueue.FocusOfflineResumesNothing | ui/.vite/deps/@tanstack_react-query.js:3062-3067 | in every run one event leaves such a mutation behind if and only if it is the focus regained offline while that head waits; the focus changes no mutation |
| MutationQueue.FocusOfflineStrands | ui/.vite/deps/@tanstack_react-query.js:2887-2902 | a run from an empty cache with such a mutation |
| MutationQueue.CanRunIffHead | ui/.vite/deps/@tanstack_react-query.js:2359-2370 | the scope check admits a pending mutation if and only if no earlier one of its scope is pending |
| MutationQueue.StepKeeps | ui/.vite/deps/@tanstack_react-query.js:2076-2222 | every event keeps the invariant of scope lists, stages, heads and the log of first calls |
| MutationQueue.ExecKeeps | ui/.vite/deps/@tanstack_react-query.js:2305-2417 | the invariant holds after every run from an empty cache |
| MutationQueue.SubmitLeaves | ui/.vite/deps/@tanstack_react-query.js:2316-2339 | in every run a new mutation gets the next id and is marked paused exactly if it is not the head of its scope or lacks the network it asks for; no other changes |
| MutationQueue.PreparedStartsIff | ui/.vite/deps/@tanstack_react-query.js:2076-2110 | in every run the function is called after onMutate if and only if that succeeded, the mutation is the head, and the network is there should its mode ask for it |
| MutationQueue.CallSettles | ui/.vite/deps/@tanstack_react-query.js:861-898 | a call is the last one if and only if it succeeded or is not to be retried; any other failure is counted and slept on |
| MutationQueue.WakeGoesOnIff | ui/.vite/deps/@tanstack_react-query.js:888-897 | in every run the function is called again after the delay if and only if the window has focus and the network is there should the mode ask for it |
| MutationQueue.ResumedRuns | ui/.vite/deps/@tanstack_react-query.js:853-873 | the end of a pause takes the mark away, and the call is logged if it is the first |
| MutationQueue.FinishSettles | ui/.vite/deps/@tanstack_react-query.js:2160-2222 | a mutation ends succeeded with a clean count or failed with one failure more, as its callbacks do, and at most a waiting one resumes |
| MutationQueue.SettledStays | ui/.vite/deps/@tanstack_react-query.js:2223-2288 | no event but its collection changes a settled mutation |
| MutationQueue.OutcomeStays | ui/.vite/deps/@tanstack_react-query.js:2160-2222 | in every run, what a mutation ended as is what any later event sees until it is collected |
| MutationQueue.ResumeIff | ui/.vite/deps/@tanstack_react-query.js:2409-2416 | in every run, focus, network and the explicit call continue exactly the waiting heads, and only in a focused window online |
| MutationQueue.RemoveLeaves | ui/.vite/deps/@tanstack_react-query.js:2340-2358 | in every run, collecting takes one mutation out of the cache and its scope and touches no other |
| MutationQueue.CallsKeepExact | ui/.vite/deps/@tanstack_react-query.js:2076-2222 | in every run the log holds each mutation whose function was called, once, and no pending other |
| MutationQueue.RunNextKeeps | ui/.vite/deps/@tanstack_react-query.js:2371-2380 | `runNext` after the head settled wakes exactly the mutation that becomes the head |
| MutationQueue.WithoutRemoves | ui/.vite/deps/@tanstack_react-query.js:2340-2358 | removing from a scope's list takes out that one mutation and keeps the order of the others |
| MutationQueue.FirstPendingFinds | ui/.vite/deps/@tanstack_react-query.js:2363-2365 | the search finds the earliest pending mutation of the list, or none if there is none |
| MutationQueue.FirstPausedFinds | ui/.vite/deps/@tanstack_react-query.js:2375-2376 | the search finds the earliest paused mutation other than the given one, or none |
| MutationQueue.MutationCache.CanRunNow | ui/.vite/deps/@tanstack_react-query.js:2359-2370 | the scope check on the fields answers what the specification of the scope check says |
| MutationQueue.MutationCache.Mutate | ui/.vite/deps/@tanstack_react-query.js:2316-2339 | building, adding and executing a mutation in place is the submit event |
| MutationQueue.MutationCache.StartRetryer | ui/.vite/deps/@tanstack_react-query.js:2076-2110 | starting the retryer runs or pauses as the start event says |
| MutationQueue.MutationCache.ContinuePaused | ui/.vite/deps/@tanstack_react-query.js:844-860 | continuing a pause in place is the continue function of the specification |
| MutationQueue.MutationCache.OnFunctionSettled | ui/.vite/deps/@tanstack_react-query.js:861-895 | a settled or failed function moves the mutation as the event says |
| MutationQueue.MutationCache.SettleAndRunNext | ui/.vite/deps/@tanstack_react-query.js:2166-2222 | settling a mutation and running the next of its scope in place is the finish event |
| MutationQueue.MutationCache.ResumePausedMutations | ui/.vite/deps/@tanstack_react-query.js:2409-2416 | the loop over all paused mutations continues exactly those that may go on |
| MutationQueue.MutationCache.SetFocused | ui/.vite/deps/@tanstack_react-query.js:2887-2902 | a change of focus updates the manager and resumes as the focus event says |
| MutationQueue.MutationCache.SetOnline | ui/.vite/deps/@tanstack_react-query.js:2887-2902 | a change of the network updates the manager and resumes as the online event says |
| StructuralSharing.ReplaceEqualDeep | ui/.vite/deps/@tanstack_react-query.js:278-309 | throws, returns the old value itself, and equals the new value in meaning, each if and only if a predicate on the two inputs says so; and shares: at every depth a kept part is the very old value, a part that is not walked the new one |
| StructuralSharing.ReplaceSlot | ui/.vite/deps/@tanstack_react-query.js:286-307 | the same for one round of the loop; a slot counted as equal holds the old slot's value itself |
| StructuralSharing.KeepsMeaning | ui/.vite/deps/@tanstack_react-query.js:278-309 | whenever the old value is returned it means the same as the new one; the count of equal slots is enough |
| StructuralSharing.WalksIff | ui/.vite/deps/@tanstack_react-query.js:278-284 | two different values are walked down to five hundred levels if both are arrays or both plain objects |
| StructuralSharing.PlainIff | ui/.vite/deps/@tanstack_react-query.js:324-351 | when the test for plain objects passes, fails and throws |
| StructuralSharing.SharedIffSameMeaning | ui/.vite/deps/@tanstack_react-query.js:278-309 | plain values within the depth limit are shared if and only if they mean the same |
| StructuralSharing.SamePointwise | ui/.vite/deps/@tanstack_react-query.js:284-308 | two objects with as many keys, all of one owned by the other, have the same keys |
| StructuralSharing.CopyMeaning | ui/.vite/deps/@tanstack_react-query.js:286-307 | a filled copy means the same as the new object if and only if every value does and no `__proto__` was assigned |
| StructuralSharing.OrdinaryIsSafe | ui/.vite/deps/@tanstack_react-query.js:278-351 | values that own no key `constructor` or `__proto__` are replaced without error or loss |
| StructuralSharing.ProtoIsLost | ui/.vite/deps/@tanstack_react-query.js:286-307 | an input on which the result does not mean the new value |
| StructuralSharing.NullConstructorFails | ui/.vite/deps/@tanstack_react-query.js:324-343 | an input on which the function throws |
| QueryState.StatusIsTruthful | ui/.vite/deps/@tanstack_react-query.js:1396-1488 | over every run the status says exactly which of data and error there is: pending neither, success data and no error, error an error |
| QueryState.ReduceKeepsShape | ui/.vite/deps/@tanstack_react-query.js:1397-1459 | every action of the reducer keeps that |
| QueryState.DataLands | ui/.vite/deps/@tanstack_react-query.js:1344-1362 | the continuation of a fetch that brought data leaves that very data, success, no error, idle, and nothing to revert to |
| QueryState.ErrorLands | ui/.vite/deps/@tanstack_react-query.js:1363-1394 | a rejection that is neither silent nor reverting leaves that very error on the data there was |
| QueryState.NothingOrUndefinedLands | ui/.vite/deps/@tanstack_react-query.js:1346-1377 | a silent or reverting cancel lands nothing, a value of undefined lands as an error |
| QueryState.FetchedArrives | ui/.vite/deps/@tanstack_react-query.js:1344-1394 | what the function of a fetch brings, data or a last error, is what the query holds after the continuation, whatever happens in between |
| QueryState.RunLingers | ui/.vite/deps/@tanstack_react-query.js:824-843 | a settled fetch stays settled that way until its continuation runs |
| QueryState.DataIsSet | ui/.vite/deps/@tanstack_react-query.js:1121-1130 | data set by hand is there at once, is what a cancel reverts to, and a fetch in flight goes on |
| QueryState.NewHolds | ui/.vite/deps/@tanstack_react-query.js:1489-1507 | a new query holds its initial data, if any, idle, and a reset restores just that |
| QueryState.InitialFills | ui/.vite/deps/@tanstack_react-query.js:1100-1115 | initial data fills a query that has none, also as what a reset restores, and nothing else |
| QueryState.ResetLeavesInitial | ui/.vite/deps/@tanstack_react-query.js:1140-1150 | a reset leaves the initial state and grounds the current fetch |
| QueryState.MarkingStale | ui/.vite/deps/@tanstack_react-query.js:1231-1235 | invalidation marks the state and changes nothing else |
| QueryState.FetchShows | ui/.vite/deps/@tanstack_react-query.js:1314-1345 | a new fetch clears failures, takes its meta, and shows whether it runs or waits, except over one still shown as going on with the very same meta |
| QueryState.ReplacedIsCancelled | ui/.vite/deps/@tanstack_react-query.js:1241-1243 | the fetch that a new one replaces is cancelled silently, and no other is touched |
| QueryState.MachineShows | ui/.vite/deps/@tanstack_react-query.js:1330-1338 | a fetch in flight shows exactly its retried failures, pauses and ends of pauses |
| QueryState.NudgesShowNothing | ui/.vite/deps/@tanstack_react-query.js:1193-1227 | a cancel that is not to revert, a continue, and giving up retries change the state no sooner than they take effect |
| QueryState.JoinsIff | ui/.vite/deps/@tanstack_react-query.js:1236-1248 | exactly when a fetch starts and when it joins the one going on |
| QueryState.JoiningShows | ui/.vite/deps/@tanstack_react-query.js:1244-1247 | joining lets the running fetch retry again and changes nothing else |
| QueryState.RevertMoves | ui/.vite/deps/@tanstack_react-query.js:1314-1329 | how each event changes the state to revert to: a start remembers, a manual set replaces, a landing fetch forgets |
| QueryState.CancelReverts | ui/.vite/deps/@tanstack_react-query.js:1314-1329 | cancelling with revert leaves the latest of the data before the fetch, its options taken up, and any manual set since, unless an earlier fetch landed in between |
| QueryState.SafeCancelReverts | ui/.vite/deps/@tanstack_react-query.js:1314-1329 | and no fetch can land in between when the cancelled one did not start over a fetch still to land |
| QueryState.CancelRestores | ui/.vite/deps/@tanstack_react-query.js:1321-1329 | the whole state is restored, idle, and the cancelled fetch dispatches nothing later |
| QueryState.OneInFlight | ui/.vite/deps/@tanstack_react-query.js:1236-1248 | in every run in which no fetch starts while another is settled but not landed, at most one fetch is in flight, it is the current one, and the state shows it |
| QueryState.OverlapMeansTwo | ui/.vite/deps/@tanstack_react-query.js:1236-1248 | any start that does overlap leads by two more events to two fetches in flight |
| QueryState.TwoInFlight | ui/.vite/deps/@tanstack_react-query.js:1318-1345 | a run from a new query with two fetches in flight |
| QueryState.CachedQuery.DispatchAction | ui/.vite/deps/@tanstack_react-query.js:1396-1468 | dispatch sets the state and the revert state as specified |
| QueryState.CachedQuery.FetchData | ui/.vite/deps/@tanstack_react-query.js:1236-1345 | joining, cancelling, taking up the options given and starting in place is the fetch event |
| QueryState.CachedQuery.BeginFetch | ui/.vite/deps/@tanstack_react-query.js:1314-1345 | remembering, dispatching, making and starting the retryer in that order |
| QueryState.CachedQuery.Callback | ui/.vite/deps/@tanstack_react-query.js:1321-1338 | what each callback of the retryer dispatches |
| QueryState.CachedQuery.Drive | ui/.vite/deps/@tanstack_react-query.js:1318-1345 | one event of a retryer with all its callbacks, delivered in order |
| QueryState.CachedQuery.OnSettled | ui/.vite/deps/@tanstack_react-query.js:1344-1394 | the continuation of a fetch: data, an undefined value, an error, or a silent or reverting cancel |
| QueryState.CachedQuery.CancelFetch | ui/.vite/deps/@tanstack_react-query.js:1134-1139 | cancelling the current retryer |
| QueryState.CachedQuery.SetQueryData | ui/.vite/deps/@tanstack_react-query.js:1121-1130 | a manual set of data |
| QueryState.CachedQuery.UseOptions | ui/.vite/deps/@tanstack_react-query.js:1100-1115 | options with initial data fill an empty query |
| QueryState.CachedQuery.ResetState | ui/.vite/deps/@tanstack_react-query.js:1140-1150 | a reset cancels silently and restores the initial state |
| Retryer.SettlesOnce | ui/.vite/deps/@tanstack_react-query.js:810-918 | in every run the promise settles at most once, as the status says; afterwards the function is never called and nothing is reported but a cancel and one pause |
| Retryer.CallsAreBounded | ui/.vite/deps/@tanstack_react-query.js:861-886 | with a numeric retry r the function is called at most max(r, 0) + 1 times, one fewer when a promise was given |
| Retryer.FailureMeasure | ui/.vite/deps/@tanstack_react-query.js:872-886 | a failure is retried if and only if failures are below r and retries are not cancelled, and then r minus the count goes down |
| Retryer.RetriesAreExhausted | ui/.vite/deps/@tanstack_react-query.js:861-898 | the bound is met: a function that always fails is tried that often, and the last error rejects |
| Retryer.FailsOutcome | ui/.vite/deps/@tanstack_react-query.js:872-890 | a failure is retried exactly as the policy and the retry flag say, and else rejects with that error |
| Retryer.SucceedsOutcome | ui/.vite/deps/@tanstack_react-query.js:870-872 | a call that succeeds resolves with its value |
| Retryer.StartOutcome | ui/.vite/deps/@tanstack_react-query.js:909-916 | the first attempt is made at once or waits, and calls the function unless a promise was given |
| Retryer.WakeOutcome | ui/.vite/deps/@tanstack_react-query.js:888-890 | after the delay the machine goes on or pauses |
| Retryer.PauseEnds | ui/.vite/deps/@tanstack_react-query.js:844-860 | a pause ends if and only if the machine may go on or has settled |
| Retryer.DecideOutcome | ui/.vite/deps/@tanstack_react-query.js:890-897 | then the function is called again, or the last error rejects if retries were cancelled |
| Retryer.CancelOutcome | ui/.vite/deps/@tanstack_react-query.js:816-823 | a cancel rejects with its own error and is reported once |
| Retryer.RetryFlag | ui/.vite/deps/@tanstack_react-query.js:824-829 | cancelling and continuing retries only set the flag |
| Retryer.LastErrorStays | ui/.vite/deps/@tanstack_react-query.js:872-897 | only a retried failure replaces the last error |
| Retryer.GivesUpWithLastError | ui/.vite/deps/@tanstack_react-query.js:872-897 | a machine whose retries are cancelled after a failure rejects with that failure's error |
| Retryer.StrayPauseIff | ui/.vite/deps/@tanstack_react-query.js:888-898 | a settled machine reports a pause exactly when it slept or had not started and may not go on |
| Retryer.StrayPause | ui/.vite/deps/@tanstack_react-query.js:888-898 | such a run |
| Retryer.StepKeeps | ui/.vite/deps/@tanstack_react-query.js:810-918 | every event keeps the invariant of log, status, attempts and failures |
| Retryer.RetryMachine.ContinueFn | ui/.vite/deps/@tanstack_react-query.js:844-852 | a pause ends when the promise is settled or the machine may continue |
| Retryer.RetryMachine.SettleWith | ui/.vite/deps/@tanstack_react-query.js:832-843 | resolve and reject do nothing once settled, and call the continue function before they settle |
| Retryer.RetryMachine.RunOnce | ui/.vite/deps/@tanstack_react-query.js:861-873 | a run on a settled machine calls nothing; the first run may await a given promise |
| Retryer.RetryMachine.OnError | ui/.vite/deps/@tanstack_react-query.js:872-890 | a failure rejects or counts and sleeps |
| Retryer.RetryMachine.OnReady | ui/.vite/deps/@tanstack_react-query.js:890-897 | after the sleep and any pause: give up if retries were cancelled, else run again |
| Retryer.RetryMachine.OnResume | ui/.vite/deps/@tanstack_react-query.js:853-859 | the end of a pause is reported only while unsettled |
| Retryer.RetryMachine.Cancel | ui/.vite/deps/@tanstack_react-query.js:816-823 | cancelling rejects and then calls back, once |
| Retryer.RetryMachine.Start | ui/.vite/deps/@tanstack_react-query.js:909-916 | start runs or pauses |
| QueriesObserver.ExecKeeps | ui/.vite/deps/@tanstack_react-query.js:2598-2669 | after every run the observers are pairwise distinct and those subscribed to are exactly the current ones when mounted, none otherwise; once each unless a sole listener subscribed again |
| QueriesObserver.StepKeeps | ui/.vite/deps/@tanstack_react-query.js:2598-2669 | one event breaks "once each" if and only if it subscribes the sole listener again |
| QueriesObserver.SubscribingAgainDoubles | ui/.vite/deps/@tanstack_react-query.js:2598-2606 | a run with two subscriptions on one observer |
| QueriesObserver.NewKeeps | ui/.vite/deps/@tanstack_react-query.js:2583-2597 | a new observer meets the invariant |
| QueriesObserver.MatchDistinct | ui/.vite/deps/@tanstack_react-query.js:2730-2753 | the matched observers are pairwise distinct |
| QueriesObserver.MatchIs | ui/.vite/deps/@tanstack_react-query.js:2730-2753 | a match is an old observer of the query's own non-empty hash or a new one |
| QueriesObserver.ReusesMin | ui/.vite/deps/@tanstack_react-query.js:2730-2753 | per hash exactly min(old, new) observers are reused, none for an empty hash |
| QueriesObserver.KeptIff | ui/.vite/deps/@tanstack_react-query.js:2730-2753 | an old observer is kept if and only if its hash is not empty and fewer of that hash come before it than there are queries of it |
| QueriesObserver.FirstComeFirstServed | ui/.vite/deps/@tanstack_react-query.js:2730-2753 | of two queries of a hash the earlier one gets the earlier observer |
| QueriesObserver.MatchKnown | ui/.vite/deps/@tanstack_react-query.js:2633-2650 | the i-th observer serves the i-th query's hash |
| QueriesObserver.SameQueriesSameObservers | ui/.vite/deps/@tanstack_react-query.js:2631-2650 | setting the same queries again keeps every observer in place if and only if no hash is empty |
| QueriesObserver.Observer.FindMatchingObservers | ui/.vite/deps/@tanstack_react-query.js:2730-2753 | the queues per hash hand out the k-th old observer of a hash to its k-th query |
| QueriesObserver.Observer.QueueObservers | ui/.vite/deps/@tanstack_react-query.js:2731-2741 | the map of queues holds the observers of each non-empty hash in order |
| QueriesObserver.Observer.SetTheQueries | ui/.vite/deps/@tanstack_react-query.js:2618-2669 | `setQueries` replaces the observers, destroys the dropped and subscribes to the added, or does nothing |
| QueriesObserver.Observer.AddListener | ui/.vite/deps/@tanstack_react-query.js:2598-2606 | a listener that is the only one subscribes to every observer |
| QueriesObserver.Observer.RemoveListener | ui/.vite/deps/@tanstack_react-query.js:2607-2617 | the last listener to leave destroys every observer |
| Notifier.ExecKeeps | ui/.vite/deps/@tanstack_react-query.js:660-716 | in every run the queue is empty outside batches, and callbacks leave exactly once, in schedule order |
| Notifier.NothingBeforeTheEnd | ui/.vite/deps/@tanstack_react-query.js:693-705 | whatever is well nested inside an outermost batch, nothing is released before its end |
| Notifier.BatchReleasesOnce | ui/.vite/deps/@tanstack_react-query.js:679-705 | at its end everything scheduled inside is released as one task, if there was anything |
| Notifier.DeliveredIff | ui/.vite/deps/@tanstack_react-query.js:679-691 | every callback that left was called if and only if none threw before the last of its task |
| Notifier.ThrowDropsTheRest | ui/.vite/deps/@tanstack_react-query.js:684-688 | a run that drops a callback |
| Notifier.NewKeeps | ui/.vite/deps/@tanstack_react-query.js:660-662 | a new notifier meets the invariant |
| Notifier.WorkDelivers | ui/.vite/deps/@tanstack_react-query.js:660-691 | when nothing throws, the scheduler's work delivers everything scheduled, in order |
| Notifier.TakeStarts | ui/.vite/deps/@tanstack_react-query.js:658-678 | the scheduler starts its oldest task exactly when no batch is open and none is running |
| Notifier.NotifyManager.ScheduleCallback | ui/.vite/deps/@tanstack_react-query.js:670-678 | inside a batch a callback is queued, outside it is handed over |
| Notifier.NotifyManager.FlushQueue | ui/.vite/deps/@tanstack_react-query.js:679-691 | a flush hands over the whole queue, if there is one |
| Notifier.NotifyManager.EndBatch | ui/.vite/deps/@tanstack_react-query.js:693-705 | the end of the outermost batch flushes |
| Notifier.NotifyManager.CallNext | ui/.vite/deps/@tanstack_react-query.js:684-688 | a callback that throws ends its task |
| Reconciler.Converges | operator/controllers/repository_controller.go:54-163 | from any state, a live resource converges after at most three failure-free reconciles, one for each of finalizer, status and work that is missing, not before unless it was Ready already, and further ones change nothing |
| Reconciler.ConvergedIsStable | operator/controllers/repository_controller.go:54-163 | a failure-free reconcile of a converged resource changes nothing anywhere |
| Reconciler.PhasesNeverGoBack | operator/controllers/repository_controller.go:81-163 | over every run with failures, edits and outside changes: the phase never returns to empty, nor to Pending once left; Ready implies its conditions, a path and an observed generation not above the current one; DatabaseSynced is False under Ready only as CreateFailed |
| Reconciler.ReconcileKeepsSound | operator/controllers/repository_controller.go:54-163 | one reconcile with any failures keeps that and touches no other resource |
| Reconciler.UnreadDoesNothing | operator/controllers/repository_controller.go:58-64 | a reconcile that cannot read the resource or finds none does nothing |
| Reconciler.FinalizerFirst | operator/controllers/repository_controller.go:71-78 | the first reconcile adds the finalizer and nothing else |
| Reconciler.PendingSecond | operator/controllers/repository_controller.go:80-93 | the second reports Pending and all three conditions False |
| Reconciler.DiskFails | operator/controllers/repository_controller.go:95-106 | a directory that cannot be made fails the resource and leaves the database alone |
| Reconciler.OwnerFails | operator/controllers/repository_controller.go:111-119 | an owner id that does not parse fails the resource after the directory was made, and leaves its Ready condition as it was |
| Reconciler.RecordFails | operator/controllers/repository_controller.go:121-136 | a lookup that fails writes no status; a create that fails is reported and leaves the phase |
| Reconciler.InsertedRow | operator/controllers/repository_controller.go:199-219 | an inserted row names the directory that was made, holds the spec under the id the database gave, and no other row changes |
| Reconciler.FoundRow | operator/controllers/repository_controller.go:137-147 | a row that was found keeps its id and directory; one somebody else inserted stays as it is |
| Reconciler.UnwrittenStatus | operator/controllers/repository_controller.go:157-159 | a status that cannot be written leaves the resource, while disk and rows change all the same |
| Reconciler.FailedSyncIsReported | operator/controllers/repository_controller.go:121-158 | every reconcile that gets a record reports Ready and Synced; the row matches the spec if and only if it was inserted, or was found and synced, or matched before, be it the row found or the one somebody else inserted |
| Reconciler.DescriptionSyncedIff | operator/controllers/repository_controller.go:222-235 | the row's description follows the spec if and only if the row is new, had it before, or was found and synced with one that is not empty |
| Reconciler.ReadyOverAnotherRow | operator/controllers/repository_controller.go:121-158 | Ready and Synced over a public row of a private repository: the sync failed, or every call succeeded and somebody else inserted the row |
| Reconciler.EmptiedDescriptionStays | operator/controllers/repository_controller.go:222-235 | a world in which every call succeeds and the old description stays |
| Reconciler.EmptyIsSound | operator/controllers/repository_controller.go:81-163 | a cluster without resources meets the invariant |
| Reconciler.ReadyIsRecorded | operator/controllers/repository_controller.go:121-160 | when a reconcile gets a record, and every one that does persists the path and the id of the row that is there, whoever inserted it |
| Reconciler.DeletionIsCompleteAndFramed | operator/controllers/repository_controller.go:166-196 | from a reconcile that persisted Ready, through any further reconciles with any failures and the deletion event, an attempt whose disk and store calls succeed takes the directory and the row, whatever its status and finalizer writes do, and no other row nor any other slug-named repository's directory |
| Reconciler.RecordedDeletion | operator/controllers/repository_controller.go:166-196 | the same for any status that names the directory and the row |
| Reconciler.RecordedStays | operator/controllers/repository_controller.go:95-160 | reconciles of a live resource, whatever fails, go on naming the directory and the row |
| Reconciler.DeletionLeaves | operator/controllers/repository_controller.go:166-196 | after any attempts with any failures, whatever the status names: the directory it names is gone iff some attempt removed it, the row iff some attempt deleted it, nothing else changes, and the resource is gone iff some attempt wrote the finalizer and no other finalizer is left |
| Reconciler.AttemptMarks | operator/controllers/repository_controller.go:169-191 | a deletion attempt marks the phase and strips the finalizer, each if it can be written, and changes no other resource |
| Reconciler.RemovesTree | operator/controllers/repository_controller.go:173-178 | a removal takes the directory and everything below it and nothing else |
| Reconciler.DeletionLeaks | operator/controllers/repository_controller.go:173-191 | failed removals of what the status names, and the finalizer goes |
| Reconciler.DeletionOrphans | operator/controllers/repository_controller.go:157-191 | every deletion call succeeds and everything stays, the last status write having failed |
| Reconciler.Controller.ReconcileRequest | operator/controllers/repository_controller.go:54-163 | the step-by-step reconcile over the fields is the specified one |
| Reconciler.Controller.Deletion | operator/controllers/repository_controller.go:166-196 | the deletion in place, finalizer last |
| Reconciler.Controller.EnsureDatabase | operator/controllers/repository_controller.go:121-147 | look up, then sync or create, with each error's outcome |
| Reconciler.Controller.EnsureDisk | operator/controllers/repository_controller.go:95-106 | the repository is initialised only if it is not there |
| Reconciler.Controller.CreateDbRecord | operator/controllers/repository_controller.go:199-219 | insert, and on a conflict read what the other insert left |
| Reconciler.Controller.SyncDbRecord | operator/controllers/repository_controller.go:222-235 | the row takes privacy, branch and a non-empty description, and nothing else |
| RepoRace.RacesAgree | internal/api/handlers/repos.go:77-101 | in every interleaving at most one row of a key exists; while none was deleted, at most one insert has succeeded and every success path carries that row's id |
| RepoRace.NeverAnothersRow | operator/controllers/repository_controller.go:121-147 | a carried id, even a stale one, never names another repository's row |
| RepoRace.CompensationIsOwn | internal/api/handlers/repos.go:94-101 | the compensating delete takes back the handler's own insert and leaves every other row |
| RepoRace.DisagreementNeedsDeletion | operator/controllers/repository_controller.go:206-218 | two workers carry different ids of one key only if a row of it was deleted |
| RepoRace.LoserAdoptsWinner | operator/controllers/repository_controller.go:213-217 | a reconcile that lost the insert ends with the row that is there, if and only if there is one and the read succeeds |
| RepoRace.InsertOutcome | internal/api/handlers/repos.go:77-92 | an insert makes a row under a new id if and only if the key has none and the call takes effect; what handler and reconcile do then |
| RepoRace.LookupOutcome | operator/controllers/repository_controller.go:121-147 | a lookup leads to a sync of the row that is there, or to an insert, or fails |
| RepoRace.InitOutcome | internal/api/handlers/repos.go:94-101 | a directory that is made ends the handler in success, one that is not in the delete of its row |
| RepoRace.DeleteTakesOne | internal/store/postgres/postgres.go:407-416 | a deletion takes one row and leaves every worker where it is |
| RepoRace.ArriveAndEnd | internal/api/handlers/repos.go:77-101 | where workers begin, and that one that has ended does nothing |
| RepoRace.CompensationCanStrand | internal/api/handlers/repos.go:94-101 | a run that leaves a reconcile with the id of a row the handler has taken back |
| RepoRace.FailedCreateLeaves | internal/api/handlers/repos.go:77-101 | when a lone create succeeds, when it conflicts, and exactly when it leaves the table as it was |
| RepoRace.StepKeeps | internal/store/migrations/001_initial.sql:44-59 | every step keeps one row per key and every carried id honest |
| RepoRace.Store.CreateRepo | internal/store/postgres/postgres.go:354-361 | an insert, a conflict or an error, and what each leaves in the table |
| RepoRace.Store.DeleteRepo | internal/store/postgres/postgres.go:407-416 | the row of the id goes and no other |
| RepoRace.Store.Create | internal/api/handlers/repos.go:77-101 | the handler in sequence is the interleaving of its steps with nobody between |
| Migrations.AlwaysPrefix | internal/store/migrate.go:24-78 | with any runners and crashes the recorded files are always a prefix of the sorted list, every one of them has run, at most the next one has run unrecorded, and a runner that reports success leaves all recorded |
| Migrations.PlainIsExactlyOnce | internal/store/migrate.go:57-74 | when no script that is ever accepted holds a COMMIT, each recorded script took effect exactly once, in order, and the schema is the fold of the recorded prefix |
| Migrations.HarmlessIsAtLeastOnce | internal/store/migrate.go:57-74 | with such scripts, if running one again is refused or changes nothing, the schema is the fold of the recorded prefix or of one file more |
| Migrations.HarmlessIff | internal/store/migrate.go:42-75 | and that condition is exact: otherwise a runner with a stale list runs such a script over a later schema |
| Migrations.ExactlyOnceIff | internal/store/migrate.go:47-75 | for any directory, scripts take effect exactly once in every run if and only if none that is ever accepted holds a COMMIT of its own |
| Migrations.PlainScripts | internal/store/migrate.go:57-74 | so they do when no script holds one |
| Migrations.CrashAfter | internal/store/migrate.go:62-74 | a run that crashes between a script's own COMMIT and its record |
| Migrations.RerunDoesNothing | internal/store/migrate.go:42-50 | a run after full success changes nothing, and reports success when it gets to the end |
| Migrations.LoneRun | internal/store/migrate.go:47-75 | a run without failures applies every file from where the database stands |
| Migrations.RunOutIsARun | internal/store/migrate.go:24-78 | a lone run is one of the interleavings |
| Migrations.TurnOutcome | internal/store/migrate.go:47-75 | what one turn does to database and runner: skipped, refused, failed, run, recorded, or done with the answer lost |
| Migrations.TurnEnds | internal/store/migrate.go:42-78 | a runner begins with what is recorded when it asks and succeeds after the last file |
| Migrations.LessIsLexicographic | internal/store/migrate.go:40 | the order of the files is lexicographic: a proper prefix, or smaller where they first differ |
| Migrations.SortedIsUnique | internal/store/migrate.go:34-40 | the sorted list depends only on which files there are |
| Migrations.ListFiles | internal/store/migrate.go:34-40 | the list holds exactly the names of plain entries ending in .sql, each lexicographically before the next |
| Migrations.Database.RunMigrations | internal/store/migrate.go:24-78 | the loop with its skips, errors and rollbacks performs the specified turns |
| Migrations.Database.Execute | internal/store/migrate.go:62-65 | a script changes the schema or is refused |
| Migrations.Database.InsertRecord | internal/store/migrate.go:67-70 | a filename is recorded once |
| RateLimit.EvictionUnobservable | internal/api/middleware/ratelimit.go:48-74 | from two requests a minute on, every run gets the same answers with eviction as without |
| RateLimit.EvictionUnobservableIff | internal/api/middleware/ratelimit.go:14-15 | that, and the window bound, hold for every run if and only if the rate is at least two a minute |
| RateLimit.DrainedSeparates | internal/api/middleware/ratelimit.go:61-74 | below two a minute, a run on which both fail |
| RateLimit.WindowBound | internal/api/middleware/ratelimit.go:14-15 | across any evictions an address gets at most max(a fifth of the rate, ten) plus the rate times the length in any window |
| RateLimit.BurstExactly | internal/api/middleware/ratelimit.go:14-15 | of n requests at one instant from a fresh address exactly max(a fifth of the rate, ten) are allowed, at any rate |
| RateLimit.SustainedRateIsAllowed | internal/api/middleware/ratelimit.go:48-74 | nobody who keeps to the sustained rate is ever denied, whatever others do and whatever is evicted |
| RateLimit.EvictsAfterFiveMinutes | internal/api/middleware/ratelimit.go:62-74 | the clean-up forgets exactly the addresses unseen for more than five minutes |
| RateLimit.LevelBounds | internal/api/middleware/ratelimit.go:48-59 | without eviction, what is allowed is paid for by the bucket's level and its gain |
| RateLimit.SameAnswers | internal/api/middleware/ratelimit.go:48-74 | two maps that differ only by full buckets answer alike from then on |
| RateLimit.Isolation | internal/api/middleware/ratelimit.go:48-59 | the answers to one address are those it would get alone, with or without eviction |
| RateLimit.IpLimiter.AllowRequest | internal/api/middleware/ratelimit.go:48-59 | one request answers and updates the map as specified |
| RateLimit.IpLimiter.CleanupRound | internal/api/middleware/ratelimit.go:62-74 | the loop deletes exactly the entries idle for more than five minutes |
| RepoNames.PathsApart | internal/gitserver/repo.go:14-16 | the directories of two slug-named repositories are neither equal nor nested |
| RepoNames.PathIs | internal/gitserver/repo.go:14-16 | the directory is root, owner and name with .git, joined by slashes |
| RepoNames.SlugIff | internal/api/validate/validate.go:17 | the pattern of slugs, character by character |
| RepoNames.Alphabets | internal/gitserver/handler.go:28-30 | the characters of slugs and URL names by their codes |
| RepoNames.FrontEndsAgree | internal/api/handlers/repos.go:361-369 | clone URL, HTTP routes and SSH command all lead to the same owner and repository |
| RepoNames.UrlPathIs | internal/api/handlers/repos.go:358-369 | the clone path, and the command a git client sends for it |
| RepoNames.RoutesIff | internal/gitserver/handler.go:61-85 | a request is dispatched if and only if it reads the refs for a service there is or posts to one, and when it is refused |
| RepoNames.MatchIff | internal/gitserver/handler.go:28-30 | a pattern's groups are the only way to read the path |
| RepoNames.OneService | internal/gitserver/handler.go:74-80 | the two service patterns exclude each other |
| RepoNames.HttpAgrees | internal/gitserver/handler.go:61-85 | each pattern reads back the owner and the repository of a clone path |
| RepoNames.ExecRoundTrip | internal/sshserver/parse.go:20-45 | an exec payload parses back to its command and path, quotes taken off |
| RepoNames.ExecIff | internal/sshserver/parse.go:20-45 | what any exec payload is answered with, error by error, and where a command is split |
| RepoNames.TrimIs | internal/sshserver/parse.go:43 | trimming takes quotes off both ends, as many as there are, and nothing else |
| RepoNames.BigEndianIs | internal/sshserver/parse.go:25 | the length field is four bytes, the most significant first |
| RepoNames.RepoPathRoundTrip | internal/sshserver/parse.go:56-65 | a repository path parses back, with or without its first slash |
| RepoNames.RepoPathIff | internal/sshserver/parse.go:56-65 | any path is split at its first slash, or has no name |
| RepoNames.PanicsIff | internal/sshserver/parse.go:25-31 | the slice bound wraps exactly for a declared length near 2^32 that the payload honours, so never below 2^32 bytes |
| RepoNames.CrNameSharedIff | internal/api/handlers/repos.go:136 | another repository has the same resource name if and only if the name splits at another hyphen |
| RepoNames.CrNameShared | internal/api/handlers/repos.go:136 | two repositories with one resource name |
| PktLine.StreamRoundTrip | internal/gitserver/pktline.go:13-56 | any writable items followed by any bytes read back as the same items, a flush as "", and the bytes are left |
| PktLine.EncodingIsPrefixFree | internal/gitserver/pktline.go:13-26 | one encoding begins with another if and only if its items begin with the other's, so distinct lists never share one |
| PktLine.ReaderConfuses | internal/gitserver/pktline.go:28-56 | two lists read alike if and only if they differ by empty payloads for flushes |
| PktLine.FlushReadsLikeEmpty | internal/gitserver/pktline.go:41-55 | two different streams that read alike |
| PktLine.ReadSucceedsIff | internal/gitserver/pktline.go:30-56 | which streams the reader takes, whoever wrote them, and that it splits them without loss |
| PktLine.LenientLengths | internal/gitserver/pktline.go:36 | lengths in upper case, with a sign and negative zero are taken |
| PktLine.HexRoundTrip | internal/gitserver/pktline.go:18 | a length of four digits reads back |
| PktLine.PacketIs | internal/gitserver/pktline.go:13-26 | a packet is the whole length in four lower-case hex digits and the payload; a flush is 0000 |
| PktLine.WritableIff | internal/gitserver/pktline.go:14-17 | the longest payload has 65516 bytes |
| PktLine.LengthIff | internal/gitserver/pktline.go:36-39 | a length field is one if and only if it is hex digits after at most one sign |
| PktLine.LengthSays | internal/gitserver/pktline.go:36 | and says what its digits say, most significant first |
| PktLine.ReadFailsIff | internal/gitserver/pktline.go:30-53 | each way a read fails, and what it has consumed |
| PktLine.ServiceHeaderReads | internal/gitserver/pack.go:48-56 | the service header reads as its line and a flush, and the advertisement is left |
| PktLine.Pipe.PacketWrite | internal/gitserver/pktline.go:13-20 | a payload of at most 65516 bytes is appended, a longer one refused and nothing written |
| PktLine.Pipe.PacketFlush | internal/gitserver/pktline.go:23-26 | a flush is appended |
| PktLine.Pipe.PacketRead | internal/gitserver/pktline.go:30-56 | the steps of the reader are the specified read, each error with what it leaves |
| PktLine.Pipe.ReadPayload | internal/gitserver/pktline.go:41-55 | the part after the length |
| PktLine.Pipe.WriteServiceHeader | internal/gitserver/pack.go:48-56 | both packets or, for a service name too long, none |
| Pats.IndexRefinesScan | internal/store/postgres/pats.go:113-148 | after every run the lookup by prefix answers exactly the unexpired row that holds the token |
| Pats.IssuedTokenResolves | internal/store/postgres/pats.go:81-170 | an issued token resolves to its row if and only if its owner has not revoked it and it has not expired |
| Pats.ExpiryDecides | internal/store/postgres/pats.go:23-26 | at any later time the token is good exactly before it expires |
| Pats.ShortIsUnknown | internal/store/postgres/pats.go:114-116 | a token shorter than a prefix is nobody's |
| Pats.RowStays | internal/store/postgres/pats.go:161-170 | only the owner's revocation takes a row away |
| Pats.PatStore.CreatePAT | internal/store/postgres/pats.go:81-109 | a row with the first twelve characters as its prefix |
| Pats.PatStore.ValidatePAT | internal/store/postgres/pats.go:113-148 | the scan of the candidates finds the row, or reports that there is none |
| Pats.PatStore.RevokePAT | internal/store/postgres/pats.go:161-170 | the row goes if it is the user's own, and the answer says whether one did |

## Left out

- Subprocesses of git, the SSH handshake, HTTP envelopes, CORS, configuration, logging and the UI: input, output and foreign code.
- REST `Update`, pagination and access checks: single decisions that would only add easy members.
- The mutation cache's `clear`, hydration, and cancellation of mutations; scope ids that change after submission.
- Timestamps of queries (`dataUpdatedAt`, staleness, garbage collection), observers' results and notifications, hydration, suspense, infinite queries; a cache callback that throws inside a fetch's continuation.
- Callbacks that call back into the retryer or the query within the same event.
- Retry delays: a sleep ends whenever its event comes.
- StructuralSharing: JSON values as a parser yields them; accessors, symbols, sparse arrays and cyclic values are not modelled.
- QueryState.CachedQuery.Drive: the machines of a query's fetches are values in a map, so aliasing of a retryer by its callers is not captured.
- QueriesObserver.Observer.SetTheQueries: observers are numbers; the results it computes and its notifications are not modelled.
- Notifier.NotifyManager.StartTask: the scheduler is first in, first out; custom notify functions and schedulers are not modelled.
- The scripts' effect on the schema is a function that may refuse; a script with a COMMIT of its own is committed as a whole.
- Transactions of the migration runner that commit are atomic and one after the other, as the primary key on the filename makes those of the same file.
- Reconciler: status writes take effect at once or fail; one reconcile of a resource runs at a time, apart from one insert by somebody else; a directory is removed as a whole or not at all; messages and transition times of conditions are not modelled.
- Reconciler.PhasesNeverGoBack: names of resources that are deleted and created again start over, so the statement is about a resource that lives through the run.
- RepoNames.PathsApart: cleaning of paths is not modelled, so names like ".." are outside; the root is clean.
- RateLimit: one clock reading per critical section; tokens are exact integers instead of floating point; clock differences do not overflow.
- PktLine.Pipe.PacketWrite: writes that fail half-way are not modelled.
- Pats: bcrypt is equality, drawn tokens are distinct and base64 is not modelled; `last_used_at` is ignored.
- Pats.PatStore.CreatePAT: the entropy source and default scopes are left out; the token is an input.
