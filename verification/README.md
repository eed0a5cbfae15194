# Verified model of the generation gateway

The gateway lets signed-in users queue ComfyUI workflows. A generation is a durable database row
that several actors move: request handlers, dispatch workers, the status reconciler, the
cancellation path, other gateway processes. ComfyUI itself may lose a reply, finish early, or be
read while entries move from one list to another. This project models that lifecycle and the
self-contained algorithms around it, and proves what they promise.

## How the parts fit

| file | what it holds |
|---|---|
| `Options.dfy`, `ArchiveResults.dfy`, `Octets.dfy` | small shared types: optional values, what becomes of an output, byte strings |
| `GenerationJobs.dfy` | the state graph of a job |
| `JobRows.dfy` | the row, and every store call that writes it, guarded as its SQL statement is |
| `DispatchProtocol.dfy` | workers, sends, ComfyUI's verdicts, and all other actors, as a step machine; invariants over every run |
| `DispatchRuns.dfy` | what a worker that claims, marks, sends and hears achieves, and when exactly; what a send needs |
| `QuotaRace.dfy` | a run that keeps the quota of a cancelled job |
| `ComfyReads.dfy` | ComfyUI's lists while entries move; the scan by job id; the status fetch |
| `JobScripts.dfy` | advance, release, fail and expire as functions, under scripts of interference and lost calls |
| `JobReconcile.dfy`, `JobCancel.dfy`, `JobRefresh.dfy` | reconciliation, recovery and cancellation, the background pass |
| `OutputClaims.dfy` | which outputs a pass claims |
| `JobLifecycle.dfy` | the same paths as a class whose methods update the database and the claimed outputs in place, proved against those functions |
| `LifecycleRuns.dfy` | those paths are runs of the protocol |
| `ArchivePasses.dfy` | overlapping passes over one completed job |
| `Migrations.dfy` | the schema migrator over histories of binaries |
| `MediaChunks.dfy`, `StreamLimits.dfy` | encrypted chunk storage with reused buffers, and when an output is stored at all; writers that keep the beginning of a stream |
| `Workload.dfy`, `Admission.dfy` | the limits on a workflow; admission into the ComfyUI queue |
| `BatchPlanner.dfy` | values, labels and seeds of an experiment |
| `ParentWalk.dfy`, `DependencyMonitor.dfy`, `ObjectInfoCache.dfy` | the bounded walk over chat messages; the service monitor; the cache of node descriptions |

Two views of concurrency appear. In `DispatchProtocol` a run is any sequence of steps, where any actor
may make any store call that needs no evidence. In `JobScripts` and the modules above it, one path of
the code is followed call by call over the same system; a script says which steps of the protocol come
before each call, and whether the call lands, lands without a reply, or fails. A step that is not enabled
changes nothing, so every script is possible. A process that is cut off is a script whose calls all fail
from some point on. `LifecycleRuns` shows that each path, with all that happens around it, is a run.

## Where the code and its promises differ

The code is modelled as it is. Each of these has a lemma with the failing case, and the condition
under which the promise holds is proved.

- `docs/GENERATION_JOBS.md` (rule 4) says a job is completed only after its outputs are archived. In
  the code an output counts as done when archiving it returns without an error, and it does so without
  storing anything for seven reasons (`ArchiveResults.dfy`, `MediaChunks.PersistMedia`); even a single
  pass can complete a job of which nothing is stored (`ArchivePasses.OnePassMayStoreNothing`). Passes
  that do not overlap complete only with every output stored or skipped for such a reason
  (`SerialCompletionIsDone`). Two overlapping passes complete it without (`OverlapLosesOutput`); what
  is missing then is given exactly by `CompletionLacksExactly`.
- The same document (rule 5) says a cancellation is confirmed against ComfyUI. A job that finishes
  between the history read and the queue read ends Cancelled with its outputs there
  (`JobCancel.FinishedJobCanEndCancelled`), and one unreadable queue cancels a running job
  (`RunningJobCanEndCancelled`). `ConfirmsHeldExactly` gives the condition in both directions.
- One unreadable queue also expires a job that ComfyUI is running, once its state is five minutes old
  (`JobRefresh.RunningJobCanExpire`; exact condition in `ExpiresExactly`), and pushes a younger one to
  Archiving (`FailedQueueReadOvershoots`; which targets the walk can reach is in
  `JobScripts.AdvanceExactly`).
- A cancellation that is confirmed after the job has moved on to Postprocessing or Archiving cannot end
  it any more. The job ends exactly when a later pass sees it completed or failed, which withdraws the
  confirmation; while no pass does, it stays where it is
  (`JobRefresh.LateConfirmationEndsExactly`; how it comes about in `LateConfirmationIsReachable`).
- A quota reservation granted after the release has fenced the job stays charged unless the release is
  repeated (`QuotaRace.LateReservationIsKept`; the exact condition is in `DispatchProtocol.QuotaIsReturned`).
- An experiment may accept zero twice, printed as "0" and "-0" (`BatchPlanner.NegativeZeroCountsTwice`,
  exactly in `AcceptedExactly`), and step 0.25 is printed with one digit (`PrintsExactly`).
- A negative frame count passes the workload limits exactly when the other frame input is not negative
  and within the limit (`Workload.NegativeFramesExactly`).
- A submission that times out and arrives later can overfill the queue, and nothing else can
  (`Admission.OverfillsExactly`, `OneLateRequestOverfills`).
- The "fresh" cache of node descriptions can answer with snapshots of any age after a failed fetch
  (`ObjectInfoCache.FreshCacheAnswersAreUnbounded`, exactly in `StaleHitsExactly`).

The service monitor keeps its promises in the program, though not for all inputs: the constructor's
fallbacks overflow for durations the configuration refuses (`DependencyMonitor.ConfigureOrders`,
`AdmittedIsKept`), and two probes of a service would need one that outlives a check interval
(`SecondProbeExactly`), which the timeouts exclude (`ProbesNeverOverlap`).

## Model

| member | source | states |
|---|---|---|
| `GenerationJobs.EdgeClimbs` | internal/domain/generation_job.go:22-83 | every edge climbs a rank, leaves no terminal state, and enters the states of an accepted job only through Queued |
| `GenerationJobs.GraphExactly` | internal/domain/generation_job.go:22-83 | the edges, exactly: one step up the normal path, two shortcuts (no inputs, observed late), completion out of Archiving, cancellation from the cancellable states, failure and expiry from every live state |
| `GenerationJobs.PathShape` | internal/domain/generation_job.go:22-83 | any path of edges has at most eight changes, ends at its first terminal state, and enters Completed only from Archiving |
| `JobRows.TransitionLawful` | internal/store/generation_job.go:360-458 | a state write keeps the row invariant (an end state only with released resources, an executor state only with a prompt), moves along an edge, and changes nothing else |
| `JobRows.BindLawful` | internal/store/generation_job.go:315-358 | binding keeps the row invariant and never replaces a prompt |
| `JobRows.JobCallLawful` | internal/store/generation_job.go:460-491 | preparing and marking released keep the row invariant; the mark, made behind the fence, stays |
| `JobRows.CancelCallLawful` | internal/store/generation_job.go:493-595 | a cancellation is requested only in a cancellable state, confirmed only when it was requested and the outcome of the send is known, and changes nothing else |
| `JobRows.ClaimLawful` | internal/store/generation_dispatch.go:42-116 | a claim moves the state at most along Draft to Preparing and keeps the row invariant |
| `JobRows.DispatchCallLawful` | internal/store/generation_dispatch.go:16-174 | marking, postponing, rejecting and fencing keep the row invariant: a fence needs a known outcome, a refusal a mark, and neither is undone |
| `JobRows.QuotaCallLawful` | internal/store/generation_quota.go:64-255 | quota is reserved only for an owned job, committed only for a bound one, and a refund leaves only committed quota |
| `JobRows.CallLawful` | internal/store/generation_dispatch.go:16-174 | every store call by anyone keeps the row invariant, takes back no binding, fence, mark or progress, moves the state only along edges, and touches only what it is for |
| `JobRows.RepeatsAreHarmless` | internal/store/generation_job.go:315-595 | after a lost reply, every successful call but a claim, a mark, a postponement and an end state can be made again: it succeeds and changes nothing more |
| `JobRows.TokenChanges` | internal/store/generation_dispatch.go:42-134 | only a claim installs a token, and the send is marked only under the current one |
| `DispatchProtocol.RunKeepsInv` | internal/gateway/generation_batches.go:694-828 | the invariant tying row, workers, sends, state trail and quota holds throughout every run with crashes, lease expiries, stale workers and other callers |
| `DispatchProtocol.RunEvolves` | internal/store/generation_dispatch.go:16-174 | no run takes back a binding, fence, mark or end state |
| `DispatchProtocol.AtMostOnePost` | internal/gateway/generation_batches.go:760-784 | in every run the workflow of a job is sent at most once |
| `DispatchProtocol.SendNeedsLiveMark` | internal/gateway/generation.go:1134-1140 | a send happens only for a marked, live, unfenced, unbound job with no earlier send, and no later state of the row can be claimed |
| `DispatchProtocol.StaleTokenNeverMarks` | internal/store/generation_dispatch.go:118-134 | once the row carries another token or none, no run lets a worker with the old one mark the send |
| `DispatchProtocol.ClaimIsExclusive` | internal/store/generation_dispatch.go:42-116 | for two minutes after a claim no run lets anyone else claim the row, unless the claim is postponed |
| `DispatchProtocol.FenceExcludesSend` | internal/store/generation_dispatch.go:165-174 | once a run has fenced the job, no continuation sends it |
| `DispatchProtocol.UnknownOutcomeKeepsJobOpen` | internal/gateway/generation_jobs.go:521-561 | while a send is neither bound nor refused, the job is not fenced, released, confirmed as cancelled or ended, in any run |
| `DispatchProtocol.EndedUnboundNeverRuns` | internal/gateway/generation_jobs.go:398-411 | a job that ended without a prompt has nothing at ComfyUI but a refusal, in every continuation |
| `DispatchProtocol.NoOutcomeIsGuessed` | internal/gateway/generation_submission.go:13-32 | a terminal job without a prompt was never sent or has a recorded refusal, and ComfyUI holds nothing but refused sends of it, in every continuation; the invariant needs the proof of a refusal to be one |
| `DispatchProtocol.RefusalIsProvedExactly` | internal/gateway/generation_submission.go:13-32 | a reply is taken as proof of a refusal if and only if it can be heard of a refused workflow only |
| `DispatchProtocol.EndIsFinal` | internal/gateway/generation_jobs.go:369-385 | terminal jobs are released and fenced, stay terminal, and got there in at most eight changes, through Archiving if completed |
| `DispatchProtocol.QuotaIsReturned` | internal/store/generation_quota.go:64-255 | the owner is charged exactly while a reservation stands; an ended job that never reached ComfyUI costs something if and only if a reservation was granted behind the fence and no repeated release has refunded it since |
| `DispatchRuns.DispatchCallsExactly` | internal/store/generation_dispatch.go:16-163 | which rows can be published, claimed, marked, postponed and refused, in both directions |
| `DispatchRuns.FenceExactly` | internal/store/generation_dispatch.go:165-174 | the fence goes up if and only if the outcome is known and no one else holds an unbound claim; it takes publication and claim back |
| `DispatchRuns.EndedAcceptsRepeatsOnly` | internal/store/generation_job.go:360-458 | an ended job accepts only the repetition of its last write |
| `DispatchRuns.ReadyIffGranted` | internal/gateway/generation.go:446-499 | a new job gets ready to be sent if and only if its quota is granted, and is charged exactly then |
| `DispatchRuns.ReadyIsSentExactly` | internal/gateway/generation_batches.go:694-784 | a ready job is sent by its claimant if and only if that marks it within two minutes of the claim and hears so |
| `DispatchRuns.BatchMemberIsSentExactly` | internal/gateway/generation_batches.go:694-784 | the same for a member of a batch, after its preparation |
| `DispatchRuns.PostponedExactly` | internal/store/generation_dispatch.go:136-150 | a postponed claim can be taken up after five seconds and not before, and never again by the one that postponed it |
| `DispatchRuns.CancellationStopsDispatch` | internal/store/generation_dispatch.go:42-134 | once a cancellation is requested, no run claims, marks or sends the job until the request is withdrawn |
| `DispatchRuns.SendIsPaidFor` | internal/store/generation_dispatch.go:14-40 | in every run whose refunds come after the fence, nothing is sent without a quota reservation and a stored payload |
| `DispatchRuns.ReceiptIsKept` | internal/gateway/generation_batches.go:785-828 | a receipt is bound, and the job goes on as Queued with its quota committed |
| `DispatchRuns.RefusalIsRecordedExactly` | internal/gateway/generation_batches.go:790-801 | a refusal is recorded if and only if the reply proves it |
| `QuotaRace.LateReservationIsKept` | internal/store/generation_quota.go:64-154 | a run in which a cancelled, never sent job stays charged |
| `ComfyReads.FindPrompt` | internal/gateway/generation_jobs.go:314-337 | the result of the scan, exactly: the first queue entry of the job decides; without one the history does, if it could be read; an error exactly when neither decided and a request failed |
| `ComfyReads.MovesForward` | internal/gateway/generation_jobs.go:314-337 | entries move forward between lists and are not lost |
| `ComfyReads.RecoveryScan` | internal/gateway/generation_jobs.go:314-337 | a job that ComfyUI holds with a valid prompt id is found or an error is reported, never "missing", whatever moves between the two reads |
| `ComfyReads.StatusUnknownExactly` | internal/gateway/generation.go:1273-1298 | a held job is reported unknown if and only if it was not yet in the history and then the queue failed or had let it go |
| `ComfyReads.StatusAnswersExactly` | internal/gateway/generation.go:1273-1335 | every answer about a held job, from the lists of ComfyUI: the verdict of its history entry; else running, queued or unknown exactly by the queue list that has it at the second read; no answer only without a history |
| `ComfyReads.StatusCanLoseFinishedJob` | internal/gateway/generation.go:1273-1298 | a job that finishes between the reads is reported unknown and queued |
| `JobScripts.StaleTokenIsPowerless` | internal/store/generation_dispatch.go:118-174 | whatever a worker does under a replaced token, marking, postponing, rejecting or fencing, the unbound row stays as it is |
| `JobScripts.AdvanceExactly` | internal/gateway/generation_jobs.go:481-519 | the walk reaches its target if and only if it is there or the target lies ahead and a prompt is bound where needed; otherwise it names where the walk stops |
| `JobScripts.LaggingStatusOvershoots` | internal/gateway/generation_jobs.go:628-634 | Running with target Queued ends in Archiving |
| `JobScripts.AdvanceEvolves` | internal/gateway/generation_jobs.go:481-519 | under every script the walk keeps the row invariant and success means the target was stored |
| `JobScripts.AdvanceAlone` | internal/gateway/generation_jobs.go:481-519 | cut off anywhere, it asks only for edges of the graph and changes nothing but the state |
| `JobScripts.AdvanceCalm` | internal/gateway/generation_jobs.go:481-519 | undisturbed, it ends where the walk on states ends, and succeeds exactly at its target |
| `JobScripts.WalkIsDirect` | internal/gateway/generation_jobs.go:481-519 | a target one edge away is the only state the walk stores: a job observed late is never recorded as running |
| `JobScripts.ReleaseFollows` | internal/gateway/generation_jobs.go:521-538 | under every script a complete release has fenced the job before marking it |
| `JobScripts.ReleaseMeans` | internal/gateway/generation_jobs.go:521-538 | a complete release leaves the row fenced and marked, with a known outcome, whatever was read before |
| `JobScripts.ReleaseNeedsReplies` | internal/gateway/generation_jobs.go:521-538 | under every script, a release that does not hear of its fence reports an error, and a complete one has heard every reply |
| `JobScripts.ReleaseAlone` | internal/gateway/generation_jobs.go:521-538 | undisturbed, a release completes only with a known outcome and does not touch a job of unknown outcome |
| `JobScripts.ReleaseCalm` | internal/gateway/generation_jobs.go:521-538 | uncut, it completes if and only if the outcome is known and the mining lease is freed, fails if and only if the lease table still has a lease the agent let go, and fences and refunds whenever the outcome is known |
| `JobScripts.EndReports` | internal/gateway/generation_jobs.go:540-585 | under every script, ending a job reports an error when its release did; an incomplete release is none; after a complete one, success means the end state was stored |
| `JobScripts.EndingsAlone` | internal/gateway/generation_jobs.go:540-585 | failing, expiring and cancelling keep the state or take the end state along an edge, and leave a job of unknown outcome exactly as it is |
| `JobScripts.EndingsCalm` | internal/gateway/generation_jobs.go:369-385 | uncut, they end the job if and only if its release goes through and the graph has the edge; a known outcome alone fences it off and returns its quota; when they report an error |
| `JobReconcile.ReconcileFollows` | internal/gateway/generation_jobs.go:587-690 | under every script, for every status, reconciliation keeps the row invariant and takes nothing back (what it decides is in `ReconcileDecides`) |
| `JobReconcile.PendingCancellationIsStable` | internal/gateway/generation_jobs.go:592-594 | a requested, unconfirmed cancellation leaves the job unchanged |
| `JobReconcile.CompleteAlone` | internal/gateway/generation_jobs.go:643-686 | cut off anywhere, the completed branch leaves a job the next pass can carry through, asks for no missing edge, and completes only what was archived |
| `JobReconcile.CompleteCalm` | internal/gateway/generation_jobs.go:643-686 | uncut, it completes if and only if archiving and release succeed |
| `JobReconcile.ReconcileDecides` | internal/gateway/generation_jobs.go:587-690 | what an undisturbed reconciliation leaves, for every status: running and queued bring the row to that state or, if it is past it, to Archiving with an error; error and a missing owner fail it; completed completes it once archived and released; a confirmed cancellation ends it; the rest leaves it alone |
| `JobReconcile.EndedIsLeftAlone` | internal/gateway/generation_jobs.go:588-591 | an ended job is not touched, whatever the status |
| `JobReconcile.ReconcileResumes` | internal/gateway/generation_jobs.go:643-686 | after any number of passes, each cut off anywhere and with its own archiving results and leases, one undisturbed pass completes the job, and no pass ever asked for an illegal edge |
| `JobCancel.RecoverFollows` | internal/gateway/generation_jobs.go:339-367 | under every script a recovery that reports success has bound the prompt it found and stored Queued |
| `JobCancel.RecoverCalm` | internal/gateway/generation_jobs.go:339-367 | undisturbed, it binds, and goes on to Queued exactly if there is a reservation to commit |
| `JobCancel.CancelFollows` | internal/gateway/generation_jobs.go:387-460 | under every script and for all answers, a cancellation keeps the row invariant and takes nothing back (what it decides is in the four lemmas below) |
| `JobCancel.UnknownOutcomeIsNotCancelled` | internal/gateway/generation_jobs.go:398-405 | a send of unknown outcome that is not found makes no store call |
| `JobCancel.CancelDecides` | internal/gateway/generation_jobs.go:412-460 | what one round does with a bound job, for all answers and for jobs already confirmed too: completed ends Completed, own error ends Failed, both withdrawing a confirmation; confirmed if and only if missing everywhere or errored after a request; otherwise unchanged; and exactly when it reports "cancelled", an error, or that nothing was sent |
| `JobCancel.CancelUnsentDecides` | internal/gateway/generation_jobs.go:406-411 | a job that was not sent, or was refused, is confirmed without asking ComfyUI, keeps its request, and ends Cancelled if and only if its release goes through and it still can |
| `JobCancel.CancelFoundDecides` | internal/gateway/generation_jobs.go:398-405 | a send of unknown outcome that the scan finds is bound; without a reservation or projections that is all, otherwise it is cancelled from Queued like any bound job |
| `JobCancel.CancelRefuses` | internal/gateway/generation_jobs.go:389-397 | an ended job, one nobody wants cancelled and one without an owner are left alone |
| `JobCancel.SeenCompletionIsNeverCancelled` | internal/gateway/generation_jobs.go:435-443 | cut off anywhere, a job seen completed is not cancelled, and is not confirmed unless it was before |
| `JobCancel.ConfirmsHeldExactly` | internal/gateway/generation_jobs.go:412-460 | exactly when a job that ComfyUI still holds is confirmed as cancelled |
| `JobCancel.ConfirmationIsTruthful` | internal/gateway/generation_jobs.go:412-460 | with a readable queue and nothing moving between the reads, only absent or failed jobs are confirmed |
| `JobCancel.FinishedJobCanEndCancelled` | internal/gateway/generation.go:1277-1297 | a finished job ends Cancelled |
| `JobCancel.RunningJobCanEndCancelled` | internal/gateway/generation.go:1277-1297 | a running job ends Cancelled when the second queue read fails |
| `JobRefresh.RefreshEvolves` | internal/gateway/generation.go:2155-2274 | one background pass keeps the row invariant and takes nothing back, under every script (what it decides is in the lemmas below) |
| `JobRefresh.RefreshBoundDecides` | internal/gateway/generation.go:2239-2259 | what an undisturbed pass makes of a bound, uncancelled job, for all answers of ComfyUI |
| `JobRefresh.RefreshUnboundDecides` | internal/gateway/generation.go:2180-2220 | what it makes of an unbound one: refused fails, published waits, unsearchable waits, missing expires if never sent and two minutes old, found is bound and goes on |
| `JobRefresh.OwnerlessFails` | internal/gateway/generation.go:2176-2179 | a job without an owner fails, bound or not, if its release goes through |
| `JobRefresh.UnclaimedMemberIsLeftAlone` | internal/gateway/generation.go:2173-2175 | an unclaimed member of a batch is not touched by any call |
| `JobRefresh.CancellationIsCarriedOn` | internal/gateway/generation.go:2185-2194 | a requested cancellation is carried on by one round of it, bound or not, refused or not |
| `JobRefresh.UnknownOutcomeIsLeftAlone` | internal/gateway/generation.go:2180-2218 | a job of unknown outcome that is not found is left exactly as it is by the whole pass |
| `JobRefresh.ExpiresExactly` | internal/gateway/generation.go:2239-2257 | a bound job expires if and only if its status is unknown, its state is old and its release goes through |
| `JobRefresh.RunningJobCanExpire` | internal/gateway/generation.go:2249-2257 | a running job expires after one failed queue read |
| `JobRefresh.FailedQueueReadOvershoots` | internal/gateway/generation.go:2239-2259 | a running job whose state is young is pushed to Archiving by one failed queue read |
| `JobRefresh.LateConfirmationEndsExactly` | internal/gateway/generation_jobs.go:435-459 | past the cancellable states, a confirmed job ends Completed or Failed if and only if a pass sees it completed or failed and its release goes through; otherwise it stays confirmed where it is |
| `JobRefresh.LateConfirmationIsReachable` | internal/gateway/generation.go:2155-2274 | two passes and a user's request bring a running job to Archiving with a confirmed cancellation |
| `LifecycleRuns.ReleaseRuns` | internal/gateway/generation_jobs.go:521-538 | the release, with any steps of the protocol around its calls, is a run of the protocol |
| `LifecycleRuns.ReconcileRuns` | internal/gateway/generation_jobs.go:587-690 | so is reconciliation |
| `LifecycleRuns.CancelRuns` | internal/gateway/generation_jobs.go:387-460 | so is cancellation with its recovery, when the scan finds the prompt that ComfyUI issued |
| `LifecycleRuns.RefreshIsRun` | internal/gateway/generation.go:2155-2274 | the whole background pass, with workers and other actors at work between its calls, refines the protocol |
| `LifecycleRuns.PassesKeepPromises` | internal/gateway/generation.go:2155-2274 | after such a pass from any reachable system, and in every continuation: one send at most; ended means released with a known outcome, for good; ended without a prompt means not at ComfyUI |
| `OutputClaims.UnclaimedMembers` | internal/gateway/generation.go:2119-2139 | a pass claims exactly the reported outputs nobody has claimed, each once |
| `OutputClaims.KeyIdentifies` | internal/gateway/generation.go:2131-2135 | the claim key identifies an output whose names hold no NUL |
| `JobLifecycle.Gateway.Advance` | internal/gateway/generation_jobs.go:481-519 | the loop does what the walk function says, one stored state at a time |
| `JobLifecycle.Gateway.Release` | internal/gateway/generation_jobs.go:521-538 | fence, refund, free, mark, in that order, under any interference; complete means fenced, marked and of known outcome |
| `JobLifecycle.Gateway.Fail` | internal/gateway/generation_jobs.go:540-585 | the failure path does what its function says, and returns a reading of the row |
| `JobLifecycle.Gateway.End` | internal/gateway/generation_jobs.go:369-385 | expiry and the end of a confirmed cancellation do what their function says, and return a reading of the row |
| `JobLifecycle.Gateway.Remember` | internal/gateway/generation.go:2119-2139 | claims all reported outputs and returns those that were unclaimed |
| `JobLifecycle.Gateway.Forget` | internal/gateway/generation.go:2141-2151 | gives claims back |
| `JobLifecycle.Gateway.Archive` | internal/gateway/generation.go:2064-2076 | goes over all outputs, keeps what is stored apart from what is skipped and why, and succeeds if and only if none failed |
| `JobLifecycle.Gateway.ArchiveNew` | internal/gateway/generation_jobs.go:664-670 | claims and archives what is unclaimed; on a failure the claims are as they were |
| `JobLifecycle.Gateway.Finish` | internal/gateway/generation_jobs.go:664-686 | with settled claims, every output of what this pass completes is stored or skipped |
| `JobLifecycle.Gateway.Complete` | internal/gateway/generation_jobs.go:643-686 | the completed branch does what its function says and keeps claims settled |
| `JobLifecycle.Gateway.Reconcile` | internal/gateway/generation_jobs.go:587-690 | does what its function says (see `JobReconcile.ReconcileDecides`); with settled claims, Completed means every reported output is stored or skipped |
| `JobLifecycle.Gateway.Recover` | internal/gateway/generation_jobs.go:339-367 | does what its function says; found means bound to the scanned prompt and Queued; the prompt is remembered afresh |
| `JobLifecycle.Gateway.CancelKnown` | internal/gateway/generation_jobs.go:412-460 | the round for a known outcome does what its function says (see `JobCancel.CancelDecides`, `CancelUnsentDecides`); an error that lets the caller withdraw the request has written nothing |
| `JobLifecycle.Gateway.ContinueCancel` | internal/gateway/generation_jobs.go:387-460 | recovers a send of unknown outcome first, then cancels under its prompt |
| `ArchivePasses.PassesClaimAsGateway` | internal/gateway/generation.go:2119-2151 | a pass claims and gives back what the gateway's map of claimed outputs does |
| `ArchivePasses.RunKeepsInv` | internal/gateway/generation.go:2119-2151 | whatever is claimed is done or held by a live pass, over failures, restarts and overlapping passes; what is done stays done |
| `ArchivePasses.CompletionLacksExactly` | internal/gateway/generation_jobs.go:664-681 | what a completed job lacks is exactly what the completing pass relied on another live pass for and was not done; nothing if and only if all of that was done |
| `ArchivePasses.SerialCompletionIsDone` | internal/gateway/generation_jobs.go:664-681 | when passes do not overlap, every reported output of a completed job is stored or was skipped for a listed reason |
| `ArchivePasses.OnePassMayStoreNothing` | internal/gateway/generation.go:2093-2102 | one pass alone completes a job of which nothing is stored, for each reason to skip |
| `ArchivePasses.OverlapLosesOutput` | internal/gateway/generation_jobs.go:664-681 | two overlapping passes complete a job whose output is neither stored nor skipped |
| `Migrations.Validate` | internal/database/migrations.go:1579-1604 | accepts exactly the catalogs numbered 1..n with distinct, non-blank names and statements |
| `Migrations.Database.Migrate` | internal/database/migrations.go:1446-1519 | succeeds only on compatible databases (and on all of them unless the connection fails), then records the catalog and ran each pending statement once in order; otherwise changes nothing |
| `Migrations.UpgradeIsFreshInstall` | internal/database/migrations.go:1446-1519 | a binary is refused if and only if the database is ahead of it; otherwise the upgrade equals a fresh install |
| `Migrations.HistoryIsOneRun` | internal/database/migrations.go:1446-1519 | over any history of prefix catalogs with any failures, the versions are 1..k and each of their statements ran once, in order |
| `Migrations.StagedIsOneRun` | internal/database/migrations.go:1446-1519 | migrating in stages equals migrating once |
| `Migrations.ChangedMigration` | internal/database/migrations.go:1521-1546 | a changed migration is accepted if and only if it is the redacted one and its tables exist; then only its record changes |
| `MediaChunks.TagIdentifies` | internal/gateway/content_media_storage.go:59-61 | the chunk tag is injective in medium and index |
| `MediaChunks.EncryptInto` | internal/content/crypto.go:43-56 | the reused or new buffer begins with nonce and sealed text |
| `MediaChunks.DecryptInto` | internal/content/crypto.go:71-81 | the reused or new buffer begins with the plain text, exactly if it opens |
| `MediaChunks.ChunkWriter.WriteChunk` | internal/store/content_media_chunks.go:75-91 | rows are accepted in index order and within the size limit |
| `MediaChunks.ChunkWriter.Commit` | internal/store/content_media_chunks.go:93-118 | commits if and only if something was written and it adds up to the declared size |
| `MediaChunks.Persist` | internal/gateway/content_media_storage.go:236-276 | stores exactly the readers of the declared length and hash, as the sealed cuts of their content, despite buffer reuse |
| `MediaChunks.PersistMedia` | internal/gateway/content_media_storage.go:187-281 | exactly when an output is stored, and exactly when and why it is skipped without an error |
| `MediaChunks.ArchiveOutput` | internal/gateway/generation.go:2078-2103 | exactly when an output is stored, as its sealed cuts, when and why it is skipped, and when it is an error |
| `MediaChunks.Materialize` | internal/gateway/content_media_storage.go:107-150 | reads rows with a reused, wiped buffer and yields what opening them in order yields |
| `MediaChunks.ReadsExactly` | internal/gateway/content_media_storage.go:107-150 | a read succeeds if and only if every row is at its place, opens under that tag and has the recorded size, and the sizes add up |
| `MediaChunks.CutJoins` | internal/gateway/content_media_storage.go:243-265 | the cuts of a file join to the file, for every chunk size |
| `MediaChunks.RoundTrip` | internal/gateway/content_media_storage.go:107-150 | what was stored reads back as the same bytes |
| `MediaChunks.ReadsArchivedFileOnly` | internal/store/content_media_chunks.go:128-161 | whatever rows come back, a successful read of the declared size is the archived file |
| `MediaChunks.GapsShowInTheSize` | internal/gateway/content_media_storage.go:148-150 | genuine chunks in order, with gaps, add up to the declared size if and only if none is missing |
| `StreamLimits.LimitedBuffer.Write` | internal/gateway/content_capture.go:66-81 | holds the first bytes of everything written, and the truncation mark says whether there was more |
| `StreamLimits.SpoolCapture.Write` | internal/gateway/generation.go:1807-1829 | the same through a file, until a write fails |
| `StreamLimits.MediaCapture.Write` | internal/gateway/content_capture.go:100-128 | the same, and the digest covers exactly the captured prefix |
| `StreamLimits.ReadArchive` | internal/gateway/generation.go:1831-1849 | for every split of the stream: size and digest of the whole, content if and only if it is within the archive limit |
| `StreamLimits.SpoolArchive` | internal/gateway/generation.go:1851-1891 | the same through a file, or an error if the disk fails |
| `StreamLimits.CaptureMedia` | internal/gateway/content_capture.go:100-128 | the capture of a response does not depend on how it was split |
| `Workload.GuardsAreExact` | internal/gateway/comfy_isolation.go:134-141 | the two integer divisions reject exactly the products above the limit |
| `Workload.SizeOf` | internal/gateway/comfy_isolation.go:134-141 | no 64-bit operation overflows, and the size is exact |
| `Workload.Validate` | internal/gateway/comfy_isolation.go:83-151 | accepts exactly the workflows whose nodes and exact totals are within the limits |
| `Workload.LimitsExactly` | internal/gateway/comfy_isolation.go:89-131 | the limits of one node in numbers, in both directions |
| `Workload.PixelFramesExactly` | internal/gateway/comfy_isolation.go:112-141 | the size of a node: area times batch times the larger frame count, missing ones counting as one |
| `Workload.VerdictIgnoresOrder` | internal/gateway/comfy_isolation.go:89 | the verdict does not depend on the order in which the map is walked |
| `Workload.NegativeFramesExactly` | internal/gateway/comfy_isolation.go:120-131 | a negative frame count passes if and only if the other frame input is not negative and within the limit |
| `Workload.NegativeFramesPass` | internal/gateway/comfy_isolation.go:120-131 | such a workflow is accepted, as one frame |
| `Admission.QueueBounds` | internal/gateway/comfy_isolation.go:531-576 | under every interleaving the queue exceeds its limits by at most the requests that arrived late |
| `Admission.AdmissionHolds` | internal/gateway/comfy_isolation.go:531-576 | if requests take effect before they return: at most twelve entries, at most two of one client |
| `Admission.OverfillsExactly` | internal/gateway/comfy_isolation.go:531-576 | from a reached gate with a free lock and nothing arrived late, some continuation without further time-outs exceeds a limit if and only if a request is still on its way |
| `Admission.OneLateRequestOverfills` | internal/gateway/generation.go:1110-1114 | one late request and two ordinary ones give one client three entries |
| `BatchPlanner.Values` | internal/gateway/generation_batches.go:227-245 | accepts exactly the experiments within range whose labels all differ, and returns those labels |
| `BatchPlanner.RawRunsEvenly` | internal/gateway/generation_batches.go:235-236 | the first variant is the one end, the last the other, and all steps between are equal |
| `BatchPlanner.NearestSteps` | internal/gateway/generation_batches.go:237 | each value is the nearest whole number of steps, a half rounded away from zero |
| `BatchPlanner.NearestEven` | internal/gateway/generation_batches.go:216-225 | printing rounds to the nearest unit, a half to the even one |
| `BatchPlanner.ValuesOnGrid` | internal/gateway/generation_batches.go:236-237 | with aligned bounds every value is a whole number of steps within them, in the direction of the experiment |
| `BatchPlanner.SameLabelExactly` | internal/gateway/generation_batches.go:216-225 | two variants print alike if and only if they have the same value and, unless integer, the same sign before rounding |
| `BatchPlanner.AcceptedExactly` | internal/gateway/generation_batches.go:227-245 | accepted if and only if the ends are in range and no two values are equal, not counting zero and "-0" as equal |
| `BatchPlanner.CatalogueIsAligned` | internal/gateway/generation_batches.go:122-183 | every parameter of the catalogue has bounds of whole steps |
| `BatchPlanner.NegativeZeroCountsTwice` | internal/gateway/generation_batches.go:234-243 | an accepted experiment whose two values are both zero |
| `BatchPlanner.PrintsExactly` | internal/gateway/generation_batches.go:216-225 | for values of either sign, printing is exact for every listed step but 0.25, and for 0.25 if and only if the number of steps is even |
| `BatchPlanner.IntegersPrintExactly` | internal/gateway/generation_batches.go:216-219 | integer parameters print their value |
| `BatchPlanner.Seeds` | internal/gateway/generation_batches.go:247-268 | as many distinct seeds in range as asked for, consecutive from the base if it is not random and they fit; it fails only when the random source yields too few values |
| `ParentWalk.BoundSuffices` | internal/gateway/content_capture.go:409-423 | by the pigeonhole principle, the number of messages bounds the walk on every graph |
| `ParentWalk.ParentUser` | internal/gateway/content_capture.go:401-423 | returns the nearest user ancestor, and nothing if and only if none is reachable |
| `DependencyMonitor.ConfigureOrders` | internal/gateway/dependency_health.go:87-110 | stale is at least two check intervals and offline is beyond stale, if and only if the fallbacks do not overflow |
| `DependencyMonitor.FallbacksExactly` | internal/gateway/dependency_health.go:87-110 | the durations used where one is missing or out of order |
| `DependencyMonitor.ExtremeDurationsAreDisordered` | internal/gateway/dependency_health.go:87-110 | durations for which they do |
| `DependencyMonitor.AdmittedIsKept` | internal/config/config.go:315-333 | the configured bounds exclude them: admitted durations are kept as they are, in order |
| `DependencyMonitor.Monitor.Claim` | internal/gateway/dependency_health.go:112-124 | claims exactly when no probe is marked and the next check is due, and touches one key |
| `DependencyMonitor.Monitor.Success` | internal/gateway/dependency_health.go:126-149 | the new record of the key, others unchanged |
| `DependencyMonitor.Monitor.Failure` | internal/gateway/dependency_health.go:151-166 | the new record of the key, others unchanged |
| `DependencyMonitor.Monitor.ObserveData` | internal/gateway/dependency_health.go:168-184 | the data time moves forward only and not past the clock |
| `DependencyMonitor.DataTimeMovesForward` | internal/gateway/dependency_health.go:126-184 | over every run, with readings applied late, the last-data time neither decreases nor passes the clock |
| `DependencyMonitor.SpacingExactly` | internal/gateway/dependency_health.go:112-166 | the next claim comes at least one interval after the last, for certain, if and only if that claim is still marked or no report with an older reading was applied after it |
| `DependencyMonitor.OneProbeAtATime` | internal/gateway/dependency_health.go:295-318 | whoever reports, at most one probe of a key is under way if probes end and readings are applied within a check interval together; with reports of the probes alone, always |
| `DependencyMonitor.ProbesNeverOverlap` | internal/gateway/maintenance.go:71-76 | with the four-second timeout and the configured interval, probes never overlap unless a report waits a second for the lock |
| `DependencyMonitor.SecondProbeExactly` | internal/gateway/mining.go:47-58 | a second probe can start beside a running one if and only if that one still runs a check interval after the earliest reading another report can bring |
| `DependencyMonitor.StatusDecays` | internal/gateway/dependency_health.go:186-249 | with no events a status only gets worse, and missing required data stays stale |
| `DependencyMonitor.StatusExactly` | internal/gateway/dependency_health.go:186-249 | online, stale and offline, exactly by the age of the last success and, where required, of the last data |
| `DependencyMonitor.SuccessBringsOnline` | internal/gateway/dependency_health.go:126-149 | a success brings a service online until the stale limit, exactly if the data it needs is no older than that |
| `DependencyMonitor.FailureKeepsStatus` | internal/gateway/dependency_health.go:151-166 | a failure changes the status only if it shows or ends a misconfiguration |
| `ObjectInfoCache.New` | internal/gateway/comfy_schema.go:99-113 | the stale limit is at least the lifetime, which is positive; the defaults are thirty seconds and a day |
| `ObjectInfoCache.ObjectInfo.Get` | internal/gateway/comfy_schema.go:122-158 | answer and new state of one call |
| `ObjectInfoCache.AnswersAreLastFetch` | internal/gateway/comfy_schema.go:122-158 | over every run the cache answers exactly as one that remembers only fetches and attempts: the latest snapshot while the last attempt is young, else the new fetch, else the latest snapshot up to the stale limit, else an error |
| `ObjectInfoCache.StaleHitsExactly` | internal/gateway/comfy_schema.go:128-134 | for every reachable cache, a fresh answer older than the stale limit is possible if and only if the deadline lies beyond that age, which takes a failed last attempt |
| `ObjectInfoCache.FreshCacheAnswersAreUnbounded` | internal/gateway/comfy_schema.go:128-134 | for every age there is a run that answers from the fresh cache with a snapshot of that age |

## Left out

- Message texts, error codes, timestamps of reports, audit and trace records, projections and the transition log rows: a row keeps only what guards read. A nullable timestamp is modelled by whether it is set, except the dispatch lease.
- Ids, tokens, statements and checksums are numbered where they are only compared; a random dispatch token may repeat in the model, which makes more runs possible, not fewer.
- The conditions a dispatch claim puts on the batch and on other jobs, the retry and idempotency of request handlers, and the quota limits: they only make a granted claim or reservation rarer.
- The mining agent, its leases and the GPU pause: whether the lease was freed is an answer from outside.
- `JobScripts.ReleaseFollows`: the refund, the mining lease and the release mark belong to one job; leases shared between jobs are not modelled.
- `ComfyReads.StatusAnswersExactly`: how the words of a history entry (`status_str`, `completed`, its outputs) make up its verdict is not modelled, nor the position in the queue.
- `JobReconcile.ReconcileResumes`: convergence is stated for passes that no other writer disturbs; with other writers only the invariants of `ReconcileFollows` hold.
- `JobRefresh.RefreshEvolves`: one job of the pass; the loop over at most 500 rows treats them one by one, and the prompts remembered for more than two hours are not aged out.
- `JobCancel.CancelDecides`: that ComfyUI drops a deleted or interrupted entry is not modelled; only what the gateway reads afterwards is. The decision is stated for undisturbed rounds; with other writers only `CancelFollows` holds.
- `LifecycleRuns.PassesKeepPromises`: the scan by job id is taken to find only the prompt that ComfyUI issued for the job's one send, as the job id in the entry says.
- `Migrations.Database.Migrate`: the advisory lock and serializable isolation are taken to make a run one transaction, and leading or trailing blanks of a statement, which its checksum ignores, are not modelled.
- `MediaChunks.ReadsArchivedFileOnly`: the cipher is ideal in the sense of sections 7.1 and 7.2 of NIST SP 800-38D; forgeries and repeated nonces are assumed away. The inline storage format, how much memory is reserved and the file system are left out.
- `StreamLimits.SpoolArchive`: closing, rewinding and removing the spool file are left out.
- `Workload.Validate`: which error is reported first depends on the map order and is not modelled; only acceptance is. Whether a class name contains "sampler", "save" or "preview" is given.
- `Admission.AdmissionHolds`: the lock is a mutex of one gateway process, and all prompts are taken to pass it; a second process, a deployment without the limiter, or anyone else posting to ComfyUI is not modelled. The rate limiter and the waiting slots only refuse more.
- `BatchPlanner.Values`: real numbers stand for floating point, so rounding errors of the division and the product are not modelled; the sign of zero is.
- `DependencyMonitor.StatusDecays`: detail texts and latencies are left out.
- `DependencyMonitor.ProbesNeverOverlap`: that a probe ends when its timeout expires, and that a report takes the lock within a second of reading the clock, are assumptions about the scheduler.
- The legacy prompt handlers, galleries, drafts, datasets, moderation, administration, configuration, HTTP plumbing and templates: they would add easy members only.
