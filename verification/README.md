# Start and abort protocol of a distributed load test: a Dafny model

One webapp coordinates a test run over N locations. In each location a k6-operator polls the webapp, creates a paused
Kubernetes Job, reports its progress as status writes, and unpauses its pods at an agreed instant. No single file decides
that this is right. This project models the webapp's code, the operator's code and the split of the work, composes them
into one step machine, and proves what holds in every interleaving.

- `Statuses`, `Server`: the status state machine and what one request does to a run (validation, save, three hooks).
- `Webapp`, `Admin`: the webapp's code as a class and methods, proved to do what `Server` says; the admin's aggregation.
- `Protocol`: the step machine. Each operator has a program counter, a snapshot, all igniters it ever made and a map
  entry; each cluster has a Job, pods, start requests that took effect and completion indexes that succeeded. An event is
  one access of one operator (with what the outside chooses: lost request, lost response, missing or stale Job, failed
  create), one step of an igniter's goroutine, one thing a cluster does, the admin's cancel, or time passing.
- `Invariant`: an invariant in rely/guarantee form, kept by every event; `Safety`: the protocol's guarantees.
- `PickUp`: who gets to start, exactly; `Runs`: what runs can do, among it all the failures found below, for any workers.
- `Reports`: when an igniter's error is reported, and that it may never be.
- `LevelTriggered`: a reconcile pass with nothing else moving, and when it has nothing to do.
- `Decisions`: which writes a pass makes, for every row, Job, pods and igniter, and what each error leads to.
- `World`, `Reconciler`, `Ignition`: the reconcile loop and the igniter's goroutine as imperative code. Before each of
  its accesses any steps of everything else may happen; the code and the machine move in lockstep.
- `Decimal`, `Segments`, `JobSpec`, `Work`: cut points and shares, the Job's counts and environment, the segment each pod
  reads from it, and the work done.
- `Dashboard`: the time window of the results link.

Times are integer microseconds on one clock. Assumed: at least one location, and locations and worker counts fixed once
the run is started; a fresh run (all rows pending, no stamps, no Job of that name); each webapp request is atomic;
reconciles of one job are serial; no operator restarts during a run; k6 started with `--paused` does not finish before it
is told to start; Kubernetes counts only distinct completion indexes as succeeded, does not lose that count, and sets a
container's `JOB_COMPLETION_INDEX` unless the Job's template already does.

## What the proofs found

- **A location can be stranded.** The doc comment on the start delay promises time to pick up the start. An operator that
  misses it (it makes no pass meanwhile, or its pods are not listed in time) is refused an igniter for good as soon as any
  other location leaves READY, because `ready` then stays false. `CanIgniteExactlyWhen` gives the exact condition; by
  `AnyLocationCanBeStranded` it can happen to any location of any run with company, with no failure and no cancel.
- **A failed ignition can go unreported.** An igniter counts as started before its requests return. A pass in between
  reports RUNNING, and passes for a running job do not look at the error: no pod was told to start, and the location runs
  until its Job ends. `ErrorIsNoticedExactlyWhen` gives the exact condition; by `ErrorCanGoUnreported` it can happen to
  any location with workers of any run.
- **A completion can be refused without a cancel**, when the RUNNING request of the same pass was lost: the pass goes on
  with the local status and reports COMPLETED to a server that still says READY. By `AnyCompletionCanBeRefused` this can
  happen to any location of any run; `WithoutLossOnlyCanceledRefuse` shows that losing a write or its response is the only way.
- **A user's variable can make all pods run one segment.** A pod finds its segment through `JOB_COMPLETION_INDEX`, which
  Kubernetes sets unless the container already has a variable of that name, and the user's variables are put there. With two
  or more workers in a location every pod reads its own segment if and only if the user sets no such variable
  (`PodsReadTheirSegmentsExactlyWhen`, `TwoPodsOneSegment`); if there is one, some segment is run by no pod of the whole
  run, completed or not (`SomeSegmentIsNeverRead`).
- **Retry can break fail-fast**, exactly when another location has failed too (`PutKeepsFailFastUnlessRetried`). Any two
  locations of any run can get there, the second by a stale failure report (`RetryCanBreakFailFast`). No operator and no
  admin action sends a retry.
- The state diagram in the repository's README shows `fail()` and `cancel()` only from unfinished states; the code
  declares them without a source and so allows them from every state. The model follows the code.
- A run without workers still has two cut points, enclosing one segment that nobody gets, and a started run without
  locations counts as completed. The dashboard window of a running test ends up to a minute before the deadline after
  the start, unless the start falls on a whole minute (`Dashboard.Window`).

## Model

| member | source | states |
|---|---|---|
| `Statuses.AcceptsIsTheTable` | webapp/loadtest/models.py:414-448 | The acceptance relation used everywhere is exactly the declared transition table, plus rewriting the same status |
| `Statuses.AcceptedExactlyWhen` | webapp/loadtest/models.py:414-448 | A status write is accepted if and only if it repeats the status, fails, cancels, retries a failure, or takes the next rank |
| `Statuses.OnlyRetryAndRewritesLowerTheRank` | webapp/loadtest/models.py:414-448 | Of all accepted status changes, exactly a retry and the cancel of a completed or failed location do not move forward |
| `Webapp.TestRun.ValidateStatus` | webapp/loadtest/serializers.py:51-64 | The search through the available transitions accepts a write exactly when the relation does |
| `Webapp.TestRun.Update` | webapp/loadtest/serializers.py:66-79 | Transition bodies, save and hooks together are one `Put`; the immediate start inside the `ready` body never happens |
| `Webapp.TestRun.ReadyBody` | webapp/loadtest/models.py:418-425 | The body stamps the present instant if, and only if, it counts no location that is not ready |
| `Webapp.TestRun.HandlePut` | webapp/loadtest/serializers.py:51-79 | A refused PUT changes nothing, an accepted one does exactly what `Put` says |
| `Webapp.TestRun.SetTestStartedAt` | webapp/loadtest/signals.py:12-26 | Stamps the whole second 30 s ahead, once, when the saved row is ready and all others are too |
| `Webapp.TestRun.SetTestCompletedAt` | webapp/loadtest/signals.py:29-42 | Stamps the present whole second, once, when the saved row is completed and all others are too |
| `Webapp.TestRun.CancelOnFailure` | webapp/loadtest/signals.py:45-57 | The bulk update cancels every row that has neither failed nor completed, and no other |
| `Webapp.TestRun.Save` | webapp/loadtest/signals.py:12-57 | The combined effect of the three hooks, in their order, on rows and both stamps |
| `Webapp.TestRun.CancelRun` | webapp/loadtest/models.py:280-290 | Canceling and saving row by row cancels exactly the active rows and triggers no stamp and no cascade |
| `Server.PutEffect` | webapp/loadtest/signals.py:12-57 | Location by location and in microseconds: only a failure reaches other rows, and canceled are all that neither failed nor completed; each stamp is written once, by the last location to get there, and to what value |
| `Server.StampIsAhead` | webapp/loadtest/signals.py:7-25 | The stamped start is more than 29 and at most 30 seconds ahead, on a whole second, and all rows are ready then |
| `Server.ReadyBodySeesItself` | webapp/loadtest/models.py:418-425 | While a queued row is becoming ready the count of rows that are not ready is never zero |
| `Server.PutKeepsBarrierOpen` | webapp/loadtest/signals.py:12-26 | For every client and every request: all rows ready implies that the start is stamped |
| `Server.PutKeepsFailFastUnlessRetried` | webapp/loadtest/signals.py:45-57 | For every client: an accepted request breaks fail-fast if and only if it retries a failed row while another row has failed |
| `Server.AdminCancelLeavesNothingActive` | webapp/loadtest/admin.py:275-289 | Under fail-fast, whatever the guard decides, no row is active afterwards and finished rows are untouched |
| `Admin.CountStatuses` | webapp/loadtest/models.py:199-204 | The dictionary has exactly the statuses that occur, with their counts, and the total is the number of locations |
| `Admin.StatusLabel` | webapp/loadtest/admin.py:291-312 | The cascade over counts shows, in this order, failed, canceled, pending, queued, ready or running if it occurs, else completed; that is the most urgent status, "Draft" is for drafts and "Unknown" never shown |
| `Admin.CompletedColumn` | webapp/loadtest/admin.py:239-253 | Yes if and only if all locations completed, no if and only if one failed or was canceled, else unknown; that is the outcome of the most urgent status |
| `Admin.WorstIsTheMostUrgent` | webapp/loadtest/admin.py:291-312 | The fold yields a status that occurs and that no occurring status outranks |
| `Admin.CompletionNotionsAgree` | webapp/loadtest/models.py:206-208 | Label, column and `TestRun.completed` mean the same, also for no locations; a failed label means that nothing is active |
| `Admin.CancelTestRuns` | webapp/loadtest/admin.py:271-289 | Over any selection of runs: drafts untouched, the count exact, and no started run keeps an active location |
| `Admin.CountIsTheirNumber` | webapp/loadtest/admin.py:275-283 | The count the action reports is the number of selected runs that are started, have no failure and have not all completed |
| `Invariant.ApplyKeepsInv` | k6-operator/internal/controller/testrun_controller.go:89-261 | The global invariant is kept by every event of the closed system |
| `Invariant.EveryRunHasInv` | k6-operator/internal/controller/testrun_controller.go:89-261 | Every state of every interleaving of every fresh run satisfies the invariant |
| `Safety.StartBarrier` | k6-operator/internal/controller/testrun_controller.go:219-242 | A running or completed location implies that the agreed start has passed and that no location is pending or queued |
| `Safety.NoWorkBeforeTheStart` | k6-operator/internal/controller/igniter.go:36-87 | No pod is unpaused and no index succeeds before the agreed start |
| `Safety.BarrierAlwaysOpens` | webapp/loadtest/signals.py:12-26 | In every reachable state with all locations ready the start is stamped |
| `Safety.OnlyTheLastReadyStamps` | webapp/loadtest/signals.py:12-26 | The only event that stamps the start is an operator's write that makes the last, queued, location ready |
| `Safety.StartNeverChanges` | webapp/loadtest/signals.py:17-26 | A stamped start is the same after any continuation of the run |
| `Safety.StartAgreement` | k6-operator/internal/controller/igniter.go:93-133 | All igniters ever made, by all operators, carry the one stamped start |
| `Safety.SingleIgnition` | k6-operator/internal/controller/igniter.go:93-140 | At most one igniter per operator in a whole run, although it is removed from the map; no pod is unpaused twice |
| `Safety.IgnitionIsComplete` | k6-operator/internal/controller/igniter.go:45-84 | An igniter that came to its end without an error has sent every pod a request |
| `Safety.SingleWriter` | k6-operator/internal/controller/testrun_controller.go:89-261 | During a pass the row holds a status the operator's own exchanges allow, or it was canceled; the snapshot the pass carries is the row, or the row was canceled, or the pass takes for running what is still ready |
| `Safety.SnapshotIsTrue` | k6-operator/internal/controller/testrun_controller.go:89-261 | In every run that loses no write and no response to one, the status a pass holds is the row at every moment of the pass, unless the row was canceled |
| `Safety.WriteIsAcceptedExactlyWhen` | webapp/loadtest/serializers.py:51-64 | A write that reaches the server is refused if and only if the row is canceled, or it is a completion of a row still ready; failures are never refused, and retries and cancels never sent |
| `Safety.WithoutLossOnlyCanceledRefuse` | k6-operator/internal/controller/testrun_controller.go:89-261 | In every run that loses no write and no response to one, a write is accepted if and only if it reports a failure or the row is not canceled |
| `Safety.TerminalRowsChangeOneWay` | webapp/loadtest/models.py:435-443 | The only change ever made to a finished row is canceled to failed, by a stale failure report of its own operator |
| `Safety.EveryChangeRaisesTheRank` | webapp/loadtest/models.py:414-448 | Every event, bulk updates included, leaves each row alone or raises its rank |
| `Safety.AtMostFiveChangesPerLocation` | webapp/loadtest/models.py:280-290 | A run of any length over N locations changes statuses at most 5N times |
| `Safety.FailFastForever` | webapp/loadtest/signals.py:45-57 | One failed location makes all terminal at once and in every continuation, whatever stale operators still send |
| `Safety.AbortIsFinalExactlyWhen` | k6-operator/internal/controller/igniter.go:135-140 | After a pass took a final status in, the location's pods are unpaused in no continuation, and none of its work is done, if and only if its igniter had sent no request by then |
| `Safety.NothingSentBeforeTheStart` | k6-operator/internal/controller/igniter.go:36-45 | Before the agreed start no igniter of any operator has sent a request |
| `Safety.FailureStopsTheOthersExactlyWhen` | k6-operator/internal/controller/testrun_controller.go:129-139 | One location failed and each other operator took its cancel in at some moment of its own: then another location never starts if and only if its igniter had sent nothing by that moment, as always before the start |
| `Safety.StoppedIgniterNeverFires` | k6-operator/internal/controller/igniter.go:36-41 | An igniter stopped while blocked in its select before the start never fires, in any continuation |
| `Safety.CancelIsComplete` | webapp/loadtest/admin.py:275-289 | In every reachable state the admin's cancel leaves every location terminal |
| `Safety.CompletionIsExact` | webapp/loadtest/signals.py:29-42 | The completion stamp is set if and only if all locations completed; then all indexes of all Jobs succeeded and the stamps are in order |
| `PickUp.TimedPickUp` | webapp/loadtest/signals.py:7-25 | Up to 29 s after stamping, if nothing was aborted, all rows are ready and any healthy pass begun then ends with an igniter for the start, whatever the others do meanwhile |
| `PickUp.EveryOperatorPicksUp` | webapp/loadtest/signals.py:7-25 | For any number of operators: if each has such a pass within 29 s of the stamp, or it is the one whose write stamped the start and its pass goes on, and nothing is aborted, all hold the one start while all rows are ready, and none is stranded in any continuation |
| `PickUp.IgnitingGoesOn` | k6-operator/internal/controller/testrun_controller.go:211-220 | A pass that holds the start and is about to ask for its igniter gets it from a complete listing, whatever the others do meanwhile |
| `PickUp.StampLeadsToIgniter` | k6-operator/internal/controller/testrun_controller.go:211-220 | The operator whose delivered write stamps the start holds that start in the same pass and asks for its igniter next |
| `PickUp.PassFromReadySnapshotIgnites` | k6-operator/internal/controller/igniter.go:93-133 | A pass whose snapshot was all ready gets its igniter even if others leave READY before it asks |
| `PickUp.CanIgniteExactlyWhen` | k6-operator/internal/controller/igniter.go:98-100 | After stamping, an operator without an igniter can ever get one if and only if all rows are ready or its pass began while they were |
| `PickUp.StrandedForever` | k6-operator/internal/controller/igniter.go:98-100 | Otherwise it never gets one, and its ready location never runs |
| `Runs.AnyLocationCanBeStranded` | k6-operator/internal/controller/igniter.go:98-112 | For every run with at least two locations and every one of them: some run without failure or cancel, in which its operator makes no pass between its READY report and the start, leaves it ready, idle and stranded for good |
| `Runs.EveryRunCanComplete` | webapp/loadtest/signals.py:29-42 | For every number of locations and of workers, none included, some interleaving of a fresh run, with pods and Jobs that agree, ends completed |
| `Runs.AnyCompletionCanBeRefused` | k6-operator/internal/controller/testrun_controller.go:232-258 | For every run and every location of it: some run without failure or cancel, in which one request is lost, ends with the location's completion about to be refused |
| `Runs.RetryCanBreakFailFast` | webapp/loadtest/models.py:435-448 | For every run and any two of its locations: some run ends with both failed, where an accepted retry of one breaks fail-fast |
| `Reports.ErrorIsNoticedExactlyWhen` | k6-operator/internal/controller/testrun_controller.go:219-242 | The error of a finished igniter is looked at in some continuation if and only if the row is still ready or the current pass is on the branch for ready jobs; once RUNNING was accepted and that pass is over, never |
| `Reports.NoticedErrorIsReported` | k6-operator/internal/controller/testrun_controller.go:234-241 | A pass that looks at the error reports the failure, and the webapp accepts it |
| `Reports.PassReportsTheError` | k6-operator/internal/controller/testrun_controller.go:219-242 | An undisturbed pass over a ready location with a healthy Job reports the error |
| `Reports.ErrorCanGoUnreported` | k6-operator/internal/controller/igniter.go:40-82 | For every run and every location that has workers: some run without failure or cancel ends with it running, no pod told to start, its operator settled, and the igniter's error looked at in no continuation |
| `Runs.MovesAreARun` | k6-operator/internal/controller/testrun_controller.go:89-261 | Steps at one location, in a row, are a run of the whole system and change nothing elsewhere but through the webapp |
| `LevelTriggered.QuietExactlyWhenSettled` | k6-operator/internal/controller/testrun_controller.go:89-261 | An undisturbed pass writes nothing if and only if row, Job, pods and igniter are in an explicit settled state, and it always ends in one |
| `LevelTriggered.SecondPassWritesNothing` | k6-operator/internal/controller/testrun_controller.go:80-89 | Right after a pass from any state, a second one writes no status and touches no Kubernetes object |
| `Decisions.PassDoes` | k6-operator/internal/controller/testrun_controller.go:89-261 | For every row, Job, pods and igniter: exactly which writes an undisturbed pass makes, in which order, and what they make of the webapp |
| `Decisions.RowAfterPass` | k6-operator/internal/controller/testrun_controller.go:119-258 | For every row, Job, pods and igniter: where an undisturbed pass leaves the row; a running job without active pods completed if and only if as many pods succeeded as there are workers, and failed otherwise |
| `Decisions.StableReadyExactlyWhen` | k6-operator/internal/controller/testrun_controller.go:689-699 | A pod counts as ready if and only if, of its ready conditions that are more than five seconds old, there is one and the first is true |
| `Decisions.IgniterIsMadeExactlyWhen` | k6-operator/internal/controller/igniter.go:93-133 | Whatever event happens: an igniter is made if and only if it is the createIgniter access of a snapshot with the start, without an entry, and as many pods are listed as there are workers; it has that start and those pods |
| `Decisions.CreateKeepsTheJob` | k6-operator/internal/controller/testrun_controller.go:154-175 | Creating leaves a Job that exists as it is; a failed create leads to a failure report, a partial one ends the pass |
| `Decisions.ErrorsEndThePass` | k6-operator/internal/controller/testrun_controller.go:113-225 | A failed read or listing ends the pass and changes nothing, neither writes nor igniters |
| `Decisions.UnansweredWrites` | k6-operator/internal/controller/testrun_controller.go:187-258 | A lost or refused write ends the pass, except that after RUNNING it goes on as if accepted; igniters and cluster are untouched |
| `World.World.Interfere` | k6-operator/internal/controller/testrun_controller.go:89-261 | Between two accesses of a thread anything else may have happened, any number of times, and nothing of its own |
| `Reconciler.Reconciler.Reconcile` | k6-operator/internal/controller/testrun_controller.go:89-142 | Under any interference the pass fetches exactly once and is a run of the machine that ends idle; what it returns is judged by its last access (`Verdict`); if it fetched a final status the row is final and its igniter is canceled and forgotten, or left as it was because the Job could not be read or was being deleted; undisturbed it makes exactly the writes of `Decisions.WritesOf` |
| `Reconciler.Reconciler.ReconcileAborts` | k6-operator/internal/controller/testrun_controller.go:113-139 | After a pass of the code that took a final status in, the pods are unpaused in no continuation if and only if the igniter had sent nothing, as always before the start |
| `Reconciler.Reconciler.Handle` | k6-operator/internal/controller/testrun_controller.go:119-175 | The branches for unreadable, deleting, canceled, missing and new Jobs keep in step with the machine and return as `Verdict` says; a canceled job's igniter is removed also when the suspension fails; an unreadable or deleted Job leads to no write, and a missing one to a failure report whose own failure is not returned |
| `Reconciler.Reconciler.Launch` | k6-operator/internal/controller/testrun_controller.go:154-175 | The branch that creates the Job: after a failed create one failure report, whose outcome is returned; after a partial one an error and no further write |
| `Reconciler.Reconciler.Advance` | k6-operator/internal/controller/testrun_controller.go:177-195 | The failed Job is reported without an error being returned, and the switch to queued keeps in step with the machine |
| `Reconciler.Reconciler.Proceed` | k6-operator/internal/controller/testrun_controller.go:196-260 | The fall-through from queued over ready to running keeps in step with the machine at every access; undisturbed it ends where `Pass` ends |
| `Reconciler.Reconciler.CheckPods` | k6-operator/internal/controller/testrun_controller.go:196-217 | The queued branch ends in the ready branch exactly when it returns a ready job, and otherwise ends the pass: with an error if the listing or the report failed, without a write if the counts differ |
| `Reconciler.Reconciler.StartRunning` | k6-operator/internal/controller/testrun_controller.go:219-242 | The ready branch keeps in step with the machine; undisturbed it ends where `Pass` ends |
| `Reconciler.Reconciler.FinishRunning` | k6-operator/internal/controller/testrun_controller.go:244-258 | Under any interference: one report if and only if the job is running and no pod is active, completed if and only if as many pods succeeded as there are workers; an error is returned if and only if that report was lost or refused |
| `Reconciler.Reconciler.UpdateStatus` | k6-operator/internal/loadtesting/client/uncached.go:189-222 | Exactly one write of the wanted status; the job becomes a response with it, or keeps its locally changed status when request, validation or response failed |
| `Reconciler.Reconciler.Exchange` | k6-operator/internal/loadtesting/client/uncached.go:189-222 | The exchange changes webapp, known statuses, log and position exactly as the machine's send step, for every fate of request and response |
| `Reconciler.Reconciler.CreateIgniter` | k6-operator/internal/controller/igniter.go:93-133 | The entry, or without one a new igniter if and only if the snapshot is ready with a start and just as many pods are listed as there are workers; otherwise an error |
| `Reconciler.Reconciler.LookUpOrMake` | k6-operator/internal/controller/igniter.go:93-128 | The same of the lookup itself, and the new igniter in full: that start, those pods, nothing sent |
| `Reconciler.Reconciler.RemoveIgniter` | k6-operator/internal/controller/igniter.go:135-140 | The map entry is gone and every igniter the operator ever made is canceled |
| `Reconciler.Reconciler.WindDown` | k6-operator/internal/controller/testrun_controller.go:129-139 | A canceled job's Job is suspended unless it is, and the igniter removed in any case; the error of a suspension refused by a Job that is there is returned |
| `Reconciler.Reconciler.StopAndForget` | k6-operator/internal/controller/igniter.go:135-140 | Exactly the machine's forget step: the igniter is stopped at this instant and the entry deleted |
| `Reconciler.Reconciler.HasCondition` | k6-operator/internal/controller/testrun_controller.go:668-675 | The loop finds a condition if and only if it is listed |
| `Reconciler.Reconciler.IsPodStableReady` | k6-operator/internal/controller/testrun_controller.go:689-699 | The loop computes `StableReady`, which `Decisions.StableReadyExactlyWhen` characterises |
| `Reconciler.Reconciler.ReconcileTwice` | k6-operator/internal/controller/testrun_controller.go:89-261 | Run twice in a quiet world, the code's second pass leaves log, webapp and cluster as the first left them |
| `Ignition.Goroutine.Start` | k6-operator/internal/controller/igniter.go:36-87 | Fires no earlier than the start and never stays blocked after it; past the select a live igniter sends every pod its request whatever the others answer, and it ends with an error if and only if one was not sent or was refused; stopped, which takes a cancel, or blocked, it sent none |
| `Ignition.Goroutine.Select` | k6-operator/internal/controller/igniter.go:37-40 | Of the two cases either may be taken when both are ready; the timer's not before the start, the other not without a cancel, and only a live igniter before its start remains blocked |
| `Ignition.StoppedCanFireExactlyWhen` | k6-operator/internal/controller/igniter.go:37-91 | After a stop an igniter can still fire if and only if its start has come and it was not yet blocked, or its start had come when it was stopped |
| `Ignition.WaysOut` | k6-operator/internal/controller/igniter.go:37-40 | A blocked igniter can take the timer's case if and only if it is time, canceled or not, and its context's if and only if canceled |
| `Ignition.Goroutine.SendAll` | k6-operator/internal/controller/igniter.go:45-84 | Without a cancel every pod is sent its request; the group fails if and only if one was not sent or was refused; an igniter canceled when it fired sends none |
| `Ignition.OthersDrift` | k6-operator/internal/controller/igniter.go:89-91 | All that other threads can do to an igniter is to stop it or to let sent requests take effect |
| `Segments.SharesAreThePartitionExactlyWhen` | webapp/loadtest/models.py:369-395 | The locations' shares in primary key order are the segments between neighbouring cut points if and only if there is a worker |
| `Segments.SharesTileTheUnitInterval` | webapp/loadtest/models.py:214-222 | Parsed as k6 reads them, the shares are the intervals from k/W to (k+1)/W, end to end from 0 to 1 |
| `Segments.SharesAreNumbered` | webapp/loadtest/models.py:381-395 | The shares' numbers, in the same order, are 1 to W |
| `Segments.SegmentsAreDistinct` | webapp/loadtest/models.py:381-395 | No two segments of a run share their string or their number |
| `Segments.SegmentHasOneOwner` | webapp/loadtest/models.py:369-395 | Two workers with the same segment string are the same completion index of the same location |
| `Decimal.ParseRender` | webapp/loadtest/models.py:387 | Decimal rendering is undone by parsing, so it is injective |
| `JobSpec.SegmentsEnv` | k6-operator/internal/controller/testrun_controller.go:458-473 | Two variables per assigned segment, in order, all names distinct |
| `JobSpec.SyncJob` | k6-operator/internal/controller/testrun_controller.go:404-568 | One completion index per segment and no retries; for every name what the container finds under it: segments first, then the operator's own three, then the user's variables, all of them and nothing else |
| `JobSpec.PodsReadTheirSegmentsExactlyWhen` | k6-operator/internal/controller/testrun_controller.go:481-483 | Every pod of a location reads its own segment and number if, and with two workers or more only if, no user variable is called like the completion index |
| `JobSpec.TwoPodsOneSegment` | webapp/loadtest/models.py:319-335 | With two workers and that variable set to 0 the second pod reads the first one's segment and not its own |
| `Work.WorkIsConserved` | k6-operator/internal/controller/testrun_controller.go:244-258 | Never more succeeded indexes over all clusters than workers; just as many once the run is completed |
| `Work.EverySegmentWasFinished` | webapp/loadtest/signals.py:29-42 | Without such a variable every segment of a completed run was read by exactly one of the completion indexes that succeeded |
| `Work.SomeSegmentIsNeverRead` | k6-operator/internal/controller/testrun_controller.go:544-568 | With such a variable and a location of two workers some segment of the run is read by no pod of any location |
| `Dashboard.Window` | webapp/loadtest/models.py:224-256 | The left edge is 5 to 6 minutes before the start, the right edge 4 to 5 minutes after completion, on whole minutes; a running test's ends by the truncated amounts before its deadline after the start, so on it if and only if start and deadline are whole; all fallbacks |

## Left out

- HTTP, JSON, permissions, and PUTs that carry other fields: a PUT is modelled by its status; operators echo the rest.
- PUTs without a status: they save the row as it is, which is the modelled PUT of the row's own status.
- Status descriptions. The one for a missing Job names the status after it was already overwritten with `failed`
  (`k6-operator/internal/controller/testrun_controller.go:145-146`).
- Deletion of a run, and the deletion of the Job that follows it: the run exists and is started throughout.
- `views.accept`, which calls a method that does not exist in the model, and `duplicate_test_run`.
- Construction of pod templates, scripts, telegraf configuration and disruption budgets: literals.
- Kubernetes scheduling: the cluster reports anything about Job and pods, except indexes that never succeeded.
- Operator restarts, clock skew, and a Job of the same name from before the run.
- The error group's own cancellation after a first failed request: the model lets later requests go out or fail.
- The igniters live as values in the world's state, and the operators share one `World`: aliasing of the job object
  between a pass and its igniter is not captured. The start time it is read for never changes (`Safety.StartNeverChanges`).
- The Go function of the reconcile pass is one body; here it is split into methods at its branches.
- Pods are numbered by completion index; the order in which a list returns them plays no role.
- Worker counts are unbounded naturals; the webapp's field and the operator's 32-bit counts are far from their limits.
- Floating-point rounding in the dashboard's milliseconds, dates before 1970, and time zones whose offset is not a whole
  minute.
- Text inside a user's variable that Kubernetes or the shell would itself expand: values are taken as they are.
