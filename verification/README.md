# Baseten operator: a verified model

The operator reconciles `BasetenModel` resources with the Baseten API: it resolves the model,
builds deployments by asynchronous truss pushes, keeps environments as declared, promotes source
deployments, retries failed ones, cleans up orphans and deletes models. This project models that
protocol in Dafny and proves what it keeps over every pass and over whole runs.

## How the model is laid out

- `Types`, `Baseten`, `Model`: statuses, API answers, the resource with its spec and status.
- `StatusUpdates`, `Backoff`, `Pushes`: refreshing the status, waiting times, push write-backs.
- `Steps`: a pass as a function of the resource read and of every answer it gets.
- `Controller`, `AsyncPush`: the same pass as imperative code over a mutable status, each method
  proved equal to its function in `Steps`; the push goroutine and its slots.
- `PassCalls`, `PassStatus`, `PassRetry`, `PassPush`, `PassNames`: what one pass can do, for all inputs.
- `Facts`, `ScheduleFields`: what a pass reads, in plain fields and apart from the functions of `Steps`.
- `Paths`, `Answers`, `StageAnswers`, `DueCalls`, `Verdicts`, `Swept`: what a pass comes to in each
  situation, in terms of `Facts`: its calls, how it ends, and what its status then tells.
- `Messages`, `WriteBacks`: which deployments messages show; what ends of pushes leave stored over runs.
- `Runs`: any number of passes on stored versions that may be stale, with writes that arrive, are
  lost, or conflict, between edits and push write-backs. A write is accepted only from a copy of the
  current version. Times are stored in whole seconds. `StatusExamples` is one such run in full.
- `NameRuns`: hash and name of the push over these runs.
- `Backend`, `Promotion`: passes interleaved with the environment's own moves.
- `Convergence`: a rank that mutating passes and backend progress lower.
- `PushRuns`, `PushExamples`: push backoff, the cached deployment name, capacity over many resources,
  and four concrete runs that show where the first two fail.
- `Cleanup`, `CleanupRuns`, `Sweeps`, `Schedules`, `SchedulePatch`, `ScheduleFixpoint`, `Drift`, `Names`: the
  algorithms the passes rely on.

## What does not hold as one might expect

- Push backoff fails when a failure is recorded on a status that does not name what failed. That
  happens when a pass announces a push over one in flight and finds no slot, which blanks the name
  (`BackoffIsSkipped`; exact conditions in `EarlyPushExactlyWhenMisplaced` and
  `NameStaysExactlyWhenSlotFree`).
- In the same situation a success makes the fast path return an empty name (`NameIsLost`; exact
  condition in `CacheHoldsExactlyWhenSlotFree`).
- It returns a wrong name when the spec has named a source in between, because a promotion replaces
  the cached name and keeps the hash (`SourceIsMistaken`; exact condition in
  `NamedSourceStaysExactlyUnlessPromoting`).
- A configuration change resets the push failure count only if the last outcome was a failure
  (`OldFailuresAreInherited`; exact condition in `CountResetsExactlyWhen`).
- An untagged image behind a registry with a port is read wrongly (`UntaggedImageRecovered`).
- A second cleanup run may delete more when two orphans have one creation time
  (`EqualAgesMayBeDeletedNextTime`; exact condition in `SecondRunDeletesExactlyWhenTied`).
- A transition time may move without a flip in the stored status when a write in between is lost
  (`StatusExamples.LostWriteMovesTransition`; exact condition in `TransitionsMoveExactlyWhen`).
- The comment at the top of `Reconcile` says that a pause skips deletion too. The code handles
  deletion first, and so does the model (`PausedDeletionReleases`).

## Hypotheses

- Retry bound: the clock is not behind the failure time read, is read in order within a pass, and
  less than half an hour passes between the deadline check and the check of the waiting time. A retry
  call is counted with the write that follows it; a process that dies in between has lost that write.
- Promotion safety: one resource per environment, one pass of it at a time (the work queue).
- Convergence: a named source with cleanup off, successful and truthful answers, nobody else.
- Push backoff and fast path in `PushRuns`: the writes of the resource succeed, so a pass and a
  write-back do not overlap. Overlapping pushes of one resource are allowed. `NameRuns` drops this.
- Both: equal hashes stand for equal images.
- Schedules: the API gives each schedule its own id, and stores what it is sent up to normal form.

## Model

| member | source | states |
|---|---|---|
| `PassCalls.EveryCallIsExplained` | internal/controller/basetenmodel_controller.go:112-332 | For every status read, spec and set of answers: a pass makes no mutating call, or mutations of one kind only, and each has its reason in what the pass read (mode Reconcile and finalizer held; promote only into an environment read without a candidate whose current does not match and whose source is ACTIVE or SCALED_TO_ZERO; settings patch exactly for the drift seen; push only with a free slot, no backoff and no fresh push; deletion only when owed and idle) |
| `PassStatus.PassIsSound` | internal/controller/basetenmodel_controller.go:1820-1922 | Every status a pass writes, and the one it ends with, keeps condition list and status in agreement, never clears a resolution time, takes model IDs only from the cache or the lookup, and calls the resource healthy only as Baseten reported it |
| `PassStatus.ReadyIsEarned` | internal/controller/basetenmodel_controller.go:1876-1887 | A pass that turns Ready true in a write was told ACTIVE or SCALED_TO_ZERO by the environment it read |
| `PassRetry.PassKeepsRetryBook` | internal/controller/basetenmodel_controller.go:1011-1111 | Retry fields over a pass: untouched, first failure noted or cleared, or from the retry call on one attempt within deadline and past its waiting time; clearing is final within a pass |
| `PassPush.PassLeaves` | internal/controller/basetenmodel_controller.go:1199-1382 | Push fields a pass leaves stored: as read, those of an existing deployment, those of an announcement kept (slot free) or taken back with a blank name and the hash kept (semaphore full), or cleared |
| `PassPush.PushesExactlyWhenAnnounced` | internal/controller/basetenmodel_controller.go:1345-1381 | A push is launched exactly when one is announced and a slot is free, under the name the configuration stands for, as the only call of the pass |
| `Answers.DeletionAnswers` | internal/controller/basetenmodel_controller.go:626-745 | Deletion over a whole pass, in plain fields: DeleteModel of the cached ID is called if and only if the object goes with the finalizer, mode Reconcile, a deleting policy and a cached model, and, under guardrails, every listed environment has minimum, current and candidate replicas of at most zero or the model is gone (404); the finalizer stays exactly when that is owed and not allowed or not done, and then the pass comes back in 30s; the status tells DELETE_BLOCKED, DELETE_FAILED or DELETING |
| `Answers.PreludeAnswers` | internal/controller/basetenmodel_controller.go:597-613 | A paused object is reported PAUSED with its last message wrapped once, and nothing else happens; an object without the finalizer gets it, a conflict is no error, and the pass ends there |
| `Answers.ObserveAnswers` | internal/controller/basetenmodel_controller.go:797-946 | Observing an environment calls nothing, reports current, candidate or neither with its status, replicas and names, and says drift exactly when a declared autoscaling, promotion or schedule field differs or schedules cannot be read |
| `Answers.ObserveFails` | internal/controller/basetenmodel_controller.go:797-848 | Short of an environment observing reports FAILED and looks again in 30s; only an unreadable environment is an error, and leaves the status as it was |
| `Answers.ModelAnswers` | internal/controller/basetenmodel_controller.go:1128-1190 | Without a model: a failed lookup is an error, a model once resolved is not recreated under a deleting policy (FAILED, again in 5m), and without a configuration to push it is an error; nothing is called |
| `Answers.PushAnswers` | internal/controller/basetenmodel_controller.go:1256-1382 | A push goes out if and only if nothing is built, no push of the name is in flight for up to 5m, none is waiting out a failure, the configuration can be written and a slot is free; it creates the model exactly when there is none; the next pass comes in 10s, or at the end of the waiting time |
| `Answers.LookupAnswers` | internal/controller/basetenmodel_controller.go:1206-1240 | An unreadable setup script is an error; so is a failed lookup of the built deployment, except that a 404 empties the cached model ID, stores that, keeps its time, and looks again in 1s |
| `StageAnswers.EnvironmentAnswers` | internal/controller/basetenmodel_controller.go:1502-1558 | A missing environment is created (PENDING, again in 10s); one that cannot be read, or whose schedules cannot, stops the pass before any call |
| `StageAnswers.CorrectionAnswers` | internal/controller/basetenmodel_controller.go:1560-1646 | An environment that differs from the declaration is corrected: settings exactly when a declared autoscaling field differs outside a schedule in force or a promotion field does, schedules exactly when they differ and the settings went through; FAILED if a call fails (404 forgets the model ID), else PENDING and again in 10s |
| `StageAnswers.ReactivateAnswers` | internal/controller/basetenmodel_controller.go:178-208 | An inactive current deployment of the source is activated by its ID: ACTIVATING or FAILED, again in 30s, a 404 forgets the model ID |
| `StageAnswers.SteadyAnswers` | internal/controller/basetenmodel_controller.go:210-236 | A current deployment of the source is reported with its own status, replicas and name, the candidate is forgotten, a serving one clears the retry history; orphans are swept exactly when asked for, due by the interval in minutes and listed, the time of it stored; again in 5m unless the report was lost |
| `StageAnswers.RetryAnswers` | internal/controller/basetenmodel_controller.go:1011-1126 | A failed deployment is retried if and only if no more than 2h have passed since its first failure, its waiting time is over, and a fresh look at its status, where it gives one, still shows FAILED, DEPLOY_FAILED or BUILD_FAILED; count, next time (2m doubled up to 30m, plus jitter) and first failure are stored; the next pass comes at the end of the waiting time or in 30s |
| `StageAnswers.PendingAnswers` | internal/controller/basetenmodel_controller.go:238-261 | A candidate of the source that has not failed is reported PROMOTING and looked at again in 30s; a stopped build is an error; a failure is retried under the candidate's ID, else the cached one, and given up once it is late or has no ID |
| `StageAnswers.ForeignCandidateAnswers` | internal/controller/basetenmodel_controller.go:336-383 | A candidate of another source holds the promotion back: PROMOTING, again in 30s, no call, and the cached candidate replaced by the one seen |
| `StageAnswers.WaitingSourceAnswers` | internal/controller/basetenmodel_controller.go:1651-1740 | A source that cannot be found is a failure (a 404 forgets the model ID); an inactive one is activated; any other that neither serves nor fails is reported with its own status and waited for, 30s |
| `StageAnswers.FailedSourceAnswers` | internal/controller/basetenmodel_controller.go:1682-1694 | A failed source is retried; once that is late its own status is reported and the pass gives up |
| `StageAnswers.PromotionAnswers` | internal/controller/basetenmodel_controller.go:273-331 | A source that serves is promoted by its ID; on success the status is PROMOTING and tells the target's ID as candidate ID, its name as candidate name, its replicas, the source's ID and name and the current deployment's name; on failure it is FAILED and the candidate stays as it was after the guard |
| `DueCalls.CallsExactlyWhenDue` | internal/controller/basetenmodel_controller.go:112-332 | If and only if, for every mutating call, status, spec and set of answers: the call is made exactly when the fields read say it is due |
| `DueCalls.RetriesOnlyFailures` | internal/controller/basetenmodel_controller.go:1049-1065 | A retry is never made on a status that has changed: if the fresh lookup gave a status it is FAILED, DEPLOY_FAILED or BUILD_FAILED, and if not, the status read is |
| `Verdicts.EveryPassEnds` | internal/controller/basetenmodel_controller.go:112-332 | Over every pass: none is asked for afterwards if and only if the object is deleted or paused or its finalizer has just been written; a failure is given up if and only if two hours have passed since the first one or the candidate has no ID; every next pass is asked for at a later time |
| `Paths.OffIsDrift` | internal/controller/basetenmodel_controller.go:960-968 | Drift in plain fields: baseline (skipped while a managed schedule is in force), promotion settings with nil as zero and a missing rolling-deploy block as different, schedules field by field |
| `Runs.AtMostEightRetryCalls` | internal/controller/basetenmodel_controller.go:1011-1126 | In every run, with stale, conflicting and lost writes: between two clears of the first failure time at most eight RetryDeployment calls are made besides those whose own record is lost; in runs that lose no such record, at most eight, whatever the jitter |
| `Runs.AtMostEightOnRecord` | internal/controller/basetenmodel_controller.go:1103-1126 | The retries on record since then are at most eight, and the stored next retry time is at least first failure plus the sum of the waiting times |
| `Runs.RetriesComeInTime` | internal/controller/basetenmodel_controller.go:1031-1051 | A retry is made neither more than 2h after the first failure nor before the stored retry time, and is followed by a write that puts it on record |
| `Runs.EighthAttemptIsMade` | internal/controller/basetenmodel_controller.go:1032-1051 | The bound is reached: after seven attempts without extra delay the eighth is made at the very deadline |
| `Runs.NoNinthAttempt` | internal/controller/basetenmodel_controller.go:1031-1051 | A stored count of eight leaves no attempt that deadline and waiting time both allow |
| `Runs.StoredStatusIsConsistent` | internal/controller/basetenmodel_controller.go:1820-1922 | In every stored version: one condition per type, Ready and Progressing both absent or exactly as the deployment status says; a stored model ID was named by the API and carries its resolution time |
| `Runs.TransitionsMoveExactlyWhen` | internal/controller/basetenmodel_controller.go:1937-1952 | If and only if, in every run, with stale, conflicting and lost writes: from one stored version to the next the transition time of Ready or Progressing moves only when its truth flips, unless an accepted write shows the stored truth again, at another time than the stored one, after a write the same pass has sent and lost since its last accepted one had shown the other truth |
| `Runs.TransitionsMoveOnFlips` | internal/controller/basetenmodel_controller.go:1937-1952 | In particular it moves only on a flip while the pass that writes has lost no write |
| `Runs.FailedDeletionFlipsTwice` | internal/controller/basetenmodel_controller.go:672-697 | A deletion that fails writes twice, DELETING and DELETE_FAILED, so that Progressing flips there and back, with the time of the pass |
| `StatusExamples.LostWriteMovesTransition` | internal/controller/basetenmodel_controller.go:672-697 | A run from the creation of a resource in which the first of these two writes is lost and the second accepted: Progressing is stored false before and after, and its time moves from the tenth second to the twentieth |
| `Runs.ResolvedModelsAreNotRecreated` | internal/controller/basetenmodel_controller.go:1128-1190 | Under optimistic concurrency a stored resolution time is in every later version, and no pass that reads such a version under Delete or DeleteWithGuardrails launches a push that would create the model |
| `Runs.PassesActOnlyInReconcileMode` | internal/controller/basetenmodel_controller.go:112-141 | However mode and policy are edited during a run: a pass that makes any mutating call read a version in effective mode Reconcile holding the finalizer; it calls DeleteModel exactly when that version is terminating, and then as its only call, under a deleting policy, with a model ID the API named for this resource |
| `Runs.ReleaseOutcome` | internal/controller/basetenmodel_controller.go:626-707 | If and only if: a pass that read the finalizer ends without it exactly on a terminating object on which no deletion is owed, or DeleteModel answered success or 404 and, under guardrails, the listing showed nothing serving; the deletion owed is then its only call |
| `Runs.PausedDeletionReleases` | internal/controller/basetenmodel_controller.go:597-644 | A paused object that terminates loses its finalizer at once, without a call or a status write |
| `Runs.FinalizerReleaseIsEarned` | internal/controller/basetenmodel_controller.go:626-756 | Over whole runs the stored object loses its finalizer only through a pass that read the spec still in force; if that spec owes the deletion of the model in the status in force, exactly that call was made and answered with success or 404 |
| `Promotion.PromotesExactlyWhen` | internal/controller/basetenmodel_controller.go:169-331 | If and only if: Promote(id) is issued exactly when the pass is acting, model, source and an undrifted environment were found, the environment has no candidate, its current does not match, and the source was read as id, ACTIVE or SCALED_TO_ZERO |
| `Promotion.CachedCandidateIsIrrelevant` | internal/controller/basetenmodel_controller.go:336-353 | Replacing the cached candidate ID and name by anything else changes no promotion |
| `Promotion.MovesCreateNoCandidate` | test/e2e/testdata/mock_server.go:392-449 | The backend's own steps (complete, fail, deactivate, settings, removal) never put a candidate into an environment that has none |
| `Promotion.NoCandidateIsDisplaced` | internal/controller/basetenmodel_controller.go:112-384 | Over every interleaving of one resource's passes with the environment's own moves between reading and acting, no promote call ever finds a candidate in place |
| `Convergence.RankZeroIsRest` | internal/controller/basetenmodel_controller.go:169-228 | The rank is zero exactly when the environment exists without drift, nothing is pending, and the source serves in it |
| `Convergence.MutationLowers` | internal/controller/basetenmodel_controller.go:112-332 | With a fixed named source, truthful successful calls and no outside changes, every pass that mutates anything lowers the rank, whatever its cached status |
| `Convergence.ProgressLowers` | test/e2e/testdata/mock_server.go:395-401 | A completed promotion (own or foreign), a settled current or a source that becomes ready lowers the rank |
| `Convergence.WaitingCostsNothing` | internal/baseten/schedules.go:231-237 | The passing of time alone never raises the rank: schedules in sync stay in sync as windows expire |
| `Convergence.SilentExactlyWhenWaiting` | internal/controller/basetenmodel_controller.go:112-384 | If and only if: a pass makes no mutating call exactly when the environment is undrifted and its current serves, a candidate is pending, or the source is not ready with any retry held back |
| `Convergence.SilentAtRest` | internal/controller/basetenmodel_controller.go:201-228 | At rank zero a pass makes no mutating call |
| `Convergence.WaitingHasACause` | internal/controller/basetenmodel_controller.go:169-384 | A pass that waits short of rest waits for a step the backend can take, or for the time of the next retry, or the site is stuck: drift hidden by a schedule in force, or a terminal failure of candidate, current or needed source that is never retried or whose retry deadline is over |
| `Convergence.DelayedRetryIsMade` | internal/controller/basetenmodel_controller.go:1031-1101 | A pass that finds a retryable failure after its waiting time and before the deadline is never silent |
| `Convergence.WaitingComesBack` | internal/controller/basetenmodel_controller.go:169-384 | A pass that waits is followed by another one at a later time unless the site is stuck; if a retry is delayed, at the very time of the retry |
| `Convergence.RunsComeToRest` | internal/controller/basetenmodel_controller.go:112-332 | In any run, mutating passes and progress steps together are at most the rank at the start minus the rank at the end |
| `PushRuns.NoPushBeforeItsTime` | internal/controller/basetenmodel_controller.go:1299-1320 | As long as each failure is recorded on a status naming the deployment that failed, no push of that name is launched before its retry time, unless a push succeeds, the configuration changes or the deployment appears |
| `PushRuns.EarlyPushExactlyWhenMisplaced` | internal/controller/basetenmodel_controller.go:1303-1320 | The condition is exact: a pass otherwise ready to push goes before the retry time if and only if the failure was recorded on a status naming something else |
| `PushRuns.UndisturbedRunsWait` | internal/controller/basetenmodel_controller.go:1272-1368 | While passes read the configuration in flight and one that announces over a push in flight finds a slot, every outcome lands on a status that names it and no push goes before its time, however many pushes of the name overlap |
| `PushRuns.NameStaysExactlyWhenSlotFree` | internal/controller/basetenmodel_controller.go:1345-1368 | The condition is exact: an announcement over pushes in flight keeps their name stored if and only if it finds a slot |
| `PushRuns.FullSemaphoreBlanksName` | internal/controller/basetenmodel_controller.go:1345-1368 | How that comes about: an announcement that finds no slot leaves the name blank and the hash in place |
| `PushRuns.KthFailureWaits` | internal/controller/basetenmodel_controller.go:1440-1467 | Over runs whose failures land in place: the k-th failure in a row of a name (no success, no deployment found, no other configuration read since) makes its pushes wait at least min(2m * 2^(k-1), 30m), to the second |
| `PushRuns.CountResetsExactlyWhen` | internal/controller/basetenmodel_controller.go:1299-1306 | If and only if: an announcing pass leaves a failure count of zero exactly when it was zero or the last outcome was a failure of another name |
| `PushRuns.CountFallsOnlyWhen` | internal/controller/basetenmodel_controller.go:1242-1306 | Any pass brings a count back to zero only when the deployment exists or a failure of another name is stored |
| `PushRuns.FastPathAgrees` | internal/controller/basetenmodel_controller.go:1222-1226 | In runs that stay on trussConfig and in which a push announced over one in flight finds a slot, whenever hash and TRUSS_PUSH_DONE match, the fast path returns the name of the configuration, which is the one observe mode computes |
| `PushRuns.CacheHoldsExactlyWhenSlotFree` | internal/controller/basetenmodel_controller.go:1345-1368 | The condition is exact: with pushes in flight, an announcing pass keeps hash and cached name together if and only if it finds a slot |
| `PushRuns.SuccessAfterBlankingLosesName` | internal/controller/basetenmodel_controller.go:1345-1435 | What follows when they part: a success that lands on the blanked status makes the fast path return an empty name |
| `PassNames.PassNamesSoundly` | internal/controller/basetenmodel_controller.go:1199-1382 | Every single write of a pass, not only the last, stores configuration hash and deployment name as read, or as computed together, or with the name blanked for want of a slot, or with the name the spec gives in place of a configuration |
| `PassNames.NamedSourceStaysExactlyUnlessPromoting` | internal/controller/basetenmodel_controller.go:273-332 | If and only if: a pass that works for a source named in the spec leaves that name stored beside the hash of an earlier configuration exactly when it promotes; otherwise it leaves all push fields as they were |
| `NameRuns.NamesAreAccountedFor` | internal/controller/basetenmodel_controller.go:1199-1382 | In every run of stale, conflicting and lost writes, edits and write-backs: each stored name was put next to its hash by a pass that computed both, that blanked the name for want of a slot, or that was given it by the spec |
| `NameRuns.OwnHashMeansOwnName` | internal/controller/basetenmodel_controller.go:1222-1320 | In every such run, a pass that reads the hash of its own configuration also reads its own name, so that the fast path returns that name and a recorded waiting time holds its push back, unless an earlier pass had no slot for a push of this hash or a named source was worked for in between |
| `PushExamples.BackoffIsSkipped` | internal/controller/basetenmodel_controller.go:1272-1368 | A run from a fresh resource in which a push goes out before the retry time recorded for its failure |
| `PushExamples.OldFailuresAreInherited` | internal/controller/basetenmodel_controller.go:1299-1467 | A run from a fresh resource in which the configuration changes while a retry is in flight, so that the first failure of the new name waits four minutes |
| `WriteBacks.PushSuccessIsStored` | internal/controller/basetenmodel_controller.go:1408-1435 | Over runs: a successful push stores done, no push time and no failures, and the model ID it created with the time it became known; all other fields stay |
| `WriteBacks.PushFailureIsStored` | internal/controller/basetenmodel_controller.go:1440-1480 | Over runs: a failed push stores one failure more, the next time after 2m doubled up to 30m plus jitter, to the second, and the error cut to 512 characters; all other fields stay |
| `PassPush.LaunchesWhatItAcquires` | internal/controller/basetenmodel_controller.go:1345-1376 | A pass launches one push exactly when it announces one and takes a slot, and none otherwise |
| `PushRuns.CapacityIsKept` | internal/controller/basetenmodel_controller.go:1345-1404 | Over interleaved passes of any resources and completions, with tokens taken where a slot is found and goroutines started where a push is called: tokens held equal pushes in flight and never exceed capacity, and each push launched is in flight or has given its token back exactly once |
| `PushExamples.NameIsLost` | internal/controller/basetenmodel_controller.go:1336-1435 | A run from a fresh resource after which the fast path returns an empty name |
| `PushExamples.SourceIsMistaken` | internal/controller/basetenmodel_controller.go:1222-1226 | A run from a fresh resource in which the spec names a source between two passes on one configuration, and the fast path then returns that source |
| `StatusUpdates.SetConditionSets` | internal/controller/basetenmodel_controller.go:1937-1952 | Setting a condition replaces that type alone, keeps one per type, and moves its transition time exactly when its truth flips |
| `StatusUpdates.UpdateIsConsistent` | internal/controller/basetenmodel_controller.go:1876-1898 | Every update leaves conditions and status in agreement, touches no other condition, and moves a transition time only on a flip |
| `StatusUpdates.NeverReadyAndProgressing` | internal/controller/basetenmodel_controller.go:1781-1793 | In a consistent status Ready and Progressing are never both true, and Ready is true exactly for ACTIVE and SCALED_TO_ZERO |
| `WriteBacks.StoredConditionsTell` | internal/controller/basetenmodel_controller.go:1781-1793 | In every stored version of every run: Ready is true exactly for ACTIVE and SCALED_TO_ZERO, Progressing exactly for the ten statuses of work under way, and both give the status as reason and its message |
| `Messages.ReportsStampGeneration` | internal/controller/basetenmodel_controller.go:1876-1898 | Every report of a pass stamps both conditions with the generation the pass has read |
| `Messages.CurrentSays` | internal/controller/basetenmodel_controller.go:178-216 | With the source current every message is about the current deployment |
| `Messages.CandidateSays` | internal/controller/basetenmodel_controller.go:238-261 | With a candidate pending every message is about the current deployment and the candidate, except that a failure waiting for its retry leaves the message as it was, or says that it is retried |
| `Messages.FreeSays` | internal/controller/basetenmodel_controller.go:263-331 | With nothing pending every message is about the current deployment and, after a promotion, the deployment that came of it; the same exception for a failed source |
| `StatusUpdates.SkipRestsOnSnapshot` | internal/controller/basetenmodel_controller.go:1901-1919 | An update is skipped exactly when the snapshot is unchanged: the condition check never decides |
| `StatusUpdates.SkippedWriteLosesOnly` | internal/controller/basetenmodel_controller.go:1827-1838 | What a skipped write leaves out: a newer resolution time, cleared retry fields and the observed generation, nothing else |
| `StatusUpdates.FirstResolutionIsWritten` | internal/controller/basetenmodel_controller.go:1822-1832 | An update that sets the resolution time for the first time is never skipped |
| `Backoff.RetryBackoff` | internal/controller/basetenmodel_controller.go:1115-1126 | The doubling loop computes min(2m * 2^(count-1), 30m) plus jitter for every count |
| `Backoff.DeadlineAllowsEight` | internal/controller/basetenmodel_controller.go:65-80 | The waits of seven attempts add up to the 2h deadline, those of eight to 150m |
| `Backoff.WaitsGrow` | internal/controller/basetenmodel_controller.go:1113-1126 | The summed waiting times grow strictly with the number of attempts |
| `Controller.Reconciler.SetCondition` | internal/controller/basetenmodel_controller.go:1937-1952 | The in-place loop over the condition list does what the condition function says |
| `Controller.Reconciler.ConditionsChanged` | internal/controller/basetenmodel_controller.go:1955-1969 | The loop answers whether some Ready or Progressing condition differs in truth or reason |
| `Controller.Reconciler.UpdateStatus` | internal/controller/basetenmodel_controller.go:1820-1922 | Assigning the fields one by one gives the status update, written unless skipped |
| `Controller.Reconciler.InvalidateModelID` | internal/controller/basetenmodel_controller.go:1800-1812 | Clears and writes the model ID exactly on a 404 with an ID cached, keeping the resolution time |
| `Controller.Reconciler.ReleaseFinalizer` | internal/controller/basetenmodel_controller.go:753-756 | Removes the finalizer; not-found counts as done |
| `Controller.Reconciler.CheckDeleteGuardrails` | internal/controller/basetenmodel_controller.go:720-747 | The loop finds no blocker exactly when the model may go: 404, or no listed environment with min replicas or active replicas above zero; other errors are kept apart |
| `Controller.Reconciler.ReconcileDeletion` | internal/controller/basetenmodel_controller.go:626-707 | Deletion as one step of the pass, calls, writes and finalizer included |
| `Controller.Reconciler.ReconcilePaused` | internal/controller/basetenmodel_controller.go:758-777 | The paused message keeps the last status message once |
| `Controller.Reconciler.ReconcileObserve` | internal/controller/basetenmodel_controller.go:797-860 | Observing computes the expected name, writes the observed status and calls nothing |
| `Controller.Reconciler.ComposeObserveStatus` | internal/controller/basetenmodel_controller.go:886-958 | Steady, promoting or not yet promoted, with a suffix exactly when the steady state is drifted |
| `Controller.Reconciler.ScheduleNextRetry` | internal/controller/basetenmodel_controller.go:1103-1111 | One more retry counted and the next one scheduled by the backoff loop |
| `Controller.Reconciler.TryRetryDeployment` | internal/controller/basetenmodel_controller.go:1011-1099 | First failure, deadline, waiting time, fresh status and the retry call, in this order |
| `Controller.Reconciler.ResolveModelID` | internal/controller/basetenmodel_controller.go:1128-1190 | Cached ID, lookup, and the recreation guard |
| `Controller.Reconciler.ReconcileTrussDeployment` | internal/controller/basetenmodel_controller.go:1199-1259 | Fast path, existing deployment, or the push that has to be made |
| `Controller.Reconciler.PushOrWait` | internal/controller/basetenmodel_controller.go:1262-1334 | Waiting for a fresh push, clearing a stale one, waiting out a failure, dropping the failure of another name |
| `Controller.Reconciler.StartPush` | internal/controller/basetenmodel_controller.go:1336-1381 | Announcement, slot, launch; a full semaphore takes the announcement back; tokens rise by the pushes launched |
| `Controller.Reconciler.BaselineAutoscalingDrift` | internal/controller/basetenmodel_controller.go:962-967 | Baseline drift is not looked at while a managed schedule is in force |
| `Controller.Reconciler.ReconcileEnvironment` | internal/controller/basetenmodel_controller.go:1502-1649 | Creates a missing environment, patches what is drifted, or passes the environment on |
| `Controller.Reconciler.HandleCandidateFailure` | internal/controller/basetenmodel_controller.go:972-1005 | Retries a retryable candidate, gives up when exhausted, reports a stopped build |
| `Controller.Reconciler.CheckDoublePromoteGuard` | internal/controller/basetenmodel_controller.go:336-384 | Drops a stale cached candidate in place and stops for a pending one |
| `Controller.Reconciler.ValidateSourceDeployment` | internal/controller/basetenmodel_controller.go:1651-1745 | Each status of the source leads to its own branch |
| `Controller.Reconciler.PromoteSource` | internal/controller/basetenmodel_controller.go:254-331 | Status, promote call, and the candidate recorded or the failure reported |
| `Controller.Reconciler.ReconcileOrphanCleanup` | internal/controller/basetenmodel_controller.go:386-438 | Interval and switches first; what is swept follows the cleanup plan; the time is recorded even when calls fail |
| `Controller.Reconciler.ReconcileLifecycle` | internal/controller/basetenmodel_controller.go:597-613 | Deletion before pause before the finalizer |
| `Controller.Reconciler.Reconcile` | internal/controller/basetenmodel_controller.go:112-332 | A whole pass does what the pass function says, what it sweeps follows the cleanup plan, and it takes as many slots as it launches pushes |
| `AsyncPush.PushSlots.TryAcquire` | internal/controller/basetenmodel_controller.go:1345-1351 | Takes a token exactly when one is free, never blocks |
| `AsyncPush.StoredObject.UpdatePushStatus` | internal/controller/basetenmodel_controller.go:1408-1435 | A success is written without looking at the name the push was for |
| `AsyncPush.StoredObject.RecordPushFailure` | internal/controller/basetenmodel_controller.go:1440-1467 | A failure counts one up and schedules the next attempt by the backoff loop |
| `AsyncPush.AsyncPush` | internal/controller/basetenmodel_controller.go:1385-1404 | However a push ends, its outcome is stored and its slot given back once |
| `Cleanup.FindOrphanDeployments` | internal/controller/basetenmodel_controller.go:440-486 | The loops select exactly the deployments that serve nowhere, carry no flag, and, as variants of the source, are dead and detached |
| `Cleanup.ScaleInOrphans` | internal/controller/basetenmodel_controller.go:488-506 | Exactly the orphans not already at zero are scaled in, in order |
| `Cleanup.DeleteStaleOrphans` | internal/controller/basetenmodel_controller.go:508-587 | Sorting in place, sparing, splitting, re-sorting and deleting carries out the deletion plan for any unstable sort |
| `CleanupRuns.PlanIsExact` | internal/controller/basetenmodel_controller.go:520-587 | The deleted orphans are exactly the stale ones beyond the newest minToKeep, each once; every spared one is at least as new as every deleted one |
| `CleanupRuns.PlanOrder` | internal/controller/basetenmodel_controller.go:534-584 | Other sources' deployments go before variants of the own source, and within each group the oldest first |
| `CleanupRuns.CleanupSparesServing` | internal/controller/basetenmodel_controller.go:440-506 | Nothing current or candidate in a listed environment, nothing flagged, and no live or attached variant is ever scaled in or deleted |
| `Sweeps.PassSparesServing` | internal/controller/basetenmodel_controller.go:386-587 | Whatever a whole pass scales in or deletes is a listed deployment that is current or candidate in no listed environment, carries no flag, and as a variant of the source is dead and detached; what it deletes is dead |
| `Swept.PassDeletesExactly` | internal/controller/basetenmodel_controller.go:508-587 | Over a whole pass that sweeps: of the stray deployments (serving no listed environment, unflagged, and if called after the source detached and out of use) the minToKeep newest are spared, and of the rest exactly those are deleted that are INACTIVE or failed for good, whose creation time parses, and that were created at least deleteAfterDays times 24h ago |
| `Swept.PassScalesInExactly` | internal/controller/basetenmodel_controller.go:440-506 | If and only if: a deployment is scaled in exactly when that is configured and a stray of that ID does not already have a minimum of zero; without the deletion switch nothing is deleted |
| `CleanupRuns.RunKeepsMinimum` | internal/controller/basetenmodel_controller.go:520-530 | A run, whichever of its calls succeed, leaves at least min(minToKeep, count) orphans |
| `CleanupRuns.RunsKeepMinimum` | internal/controller/basetenmodel_controller.go:440-587 | So does any sequence of runs, each with its own environments, source, cutoff and failing calls, while deployments appear in between, as long as nobody else takes orphans away |
| `CleanupRuns.SecondRunDeletesExactlyWhenTied` | internal/controller/basetenmodel_controller.go:520-587 | If and only if: after a fully successful run an immediate second one may delete something exactly when a stale orphan among the spared has the creation time of one beyond them that is not stale |
| `CleanupRuns.SecondRunDeletesNothing` | internal/controller/basetenmodel_controller.go:520-587 | In particular with distinct creation times a second run deletes nothing |
| `CleanupRuns.EqualAgesMayBeDeletedNextTime` | internal/controller/basetenmodel_controller.go:520-525 | The smallest tie: one order spares the dead orphan, the other deletes it |
| `Schedules.NormalFormIsStable` | internal/baseten/schedules.go:211-228 | Normal forms are idempotent for every cadence |
| `Schedules.NormalFormIsBlind` | internal/baseten/schedules.go:211-246 | Normal forms do not see ids, weekday order, or the UTC offset and sub-second part of an instant |
| `ScheduleFields.NormalFormsAgreeExactlyWhen` | internal/baseten/schedules.go:209-246 | If and only if: two schedules have one normal form exactly when name, enabled, cadence and settings agree and, for ONE_TIME, both moments to the second (or the same unparsable text), else weekdays as a multiset, both minutes, and both hours unless HOURLY |
| `ScheduleFields.AgreesExactlyInSync` | internal/baseten/schedules.go:87-155 | If and only if: nothing differs exactly when the declared timezone is the observed one, names do not repeat, every observed name is declared, and every declared schedule that is not over is observed with the same fields |
| `ScheduleFields.WritesExactlyWhatIsDue` | internal/baseten/schedules.go:122-142 | If and only if: a schedule is written exactly when a declared one not over is not observed by name (then without an ID), or the first observed of its name differs in some field (then under its ID), with all declared fields and enabled by default |
| `ScheduleFields.DeletesExactlyTheUnwanted` | internal/baseten/schedules.go:102-150 | If and only if: an ID is deleted exactly when an observed schedule of that ID repeats an earlier name or is not declared |
| `Schedules.RemoveDuplicates` | internal/baseten/schedules.go:102-112 | The loop deletes each later schedule of a repeated name once and keeps the first by name |
| `Schedules.CollectUpserts` | internal/baseten/schedules.go:114-136 | The loop collects exactly the due schedules that are missing or differ in normal form, with the id of the one they replace |
| `Schedules.RemoveUnlisted` | internal/baseten/schedules.go:137-141 | The loop adds the unlisted schedules to the deletions, without repeats |
| `Schedules.DiffSchedules` | internal/baseten/schedules.go:89-147 | The whole difference, also for an absent spec or observation |
| `Schedules.DiffEmptyIffInSync` | internal/baseten/schedules.go:65-68 | Drift is reported exactly when spec and environment are not in sync: timezone, names without repeats, every listed name declared, every due schedule present in normal form |
| `SchedulePatch.EncodeRoundTrip` | internal/baseten/schedules.go:248-372 | What is sent for a schedule reads back equal in normal form, under any id and offset |
| `SchedulePatch.ToUpdateAutoscalingScheduleSettings` | internal/baseten/schedules.go:149-174 | No patch exactly when in sync, a build error exactly when some schedule to write has an unparsable time, else a patch carrying the whole difference |
| `SchedulePatch.DiffPartitionsObserved` | internal/baseten/schedules.go:102-146 | Deletions have no repeats and name observed ids; replacements go to observed schedules of their own name that are not deleted and differ |
| `SchedulePatch.ObservedScheduleFate` | internal/baseten/schedules.go:102-146 | Each observed schedule is deleted, replaced or untouched, each exactly under its condition |
| `ScheduleFixpoint.OnePatchIsEnough` | internal/baseten/schedules.go:72-174 | After one patch, for any ids, offsets and listing order the API answers with, spec and environment are in sync, then and at any later time |
| `Drift.HasAutoscalingDrift` | internal/baseten/client.go:616-646 | Drift and changes are reported exactly when a wanted field differs |
| `Drift.HasPromotionSettingsDrift` | internal/baseten/client.go:666-728 | The same for promotion settings, the nested block and an absent environment configuration included |
| `Drift.ToUpdateAutoscalingSettings` | internal/baseten/client.go:451-489 | The request is the configuration, or nothing when it manages nothing |
| `Drift.ToUpdatePromotionSettings` | internal/baseten/client.go:491-528 | The same for promotion settings |
| `Drift.ToUpdateRollingDeployConfig` | internal/baseten/client.go:530-557 | The same for the nested block |
| `Drift.AutoscalingPatchRemovesDrift` | internal/baseten/client.go:451-489 | Drift implies a request; merging it removes all drift, keeps unmanaged fields, and changes something exactly when there was drift |
| `Drift.PromotionPatchRemovesDrift` | internal/baseten/client.go:491-557 | The same for promotion settings with a nested block present or absent on either side |
| `Names.ParseImage` | internal/truss/config.go:166-192 | The reassigned locals give name and tag of the reference |
| `Names.TaggedImageRecovered` | internal/truss/config.go:166-192 | Name and tag come back from any tagged reference whose path has no '@', ports and digests allowed |
| `Names.UntaggedImageRecovered` | internal/truss/config.go:166-192 | An untagged reference, bare or under a path, gives its name and latest if and only if it is not empty and has no ':' |
| `Names.PortTakenForTag` | internal/truss/config.go:166-192 | The failing case: host:port/name is read as image host with tag port/name |
| `Names.DeploymentNameTells` | internal/truss/config.go:152-158 | The name of a tagged image, ports and digests allowed, is depl-name-tag-hash; of none, depl-hash |
| `Names.NamesSeparateHashes` | internal/truss/config.go:152-158 | Different hashes of one length never share a deployment name, whatever the images |
| `Names.MatchIsPartialOrder` | internal/baseten/client.go:577-579 | Prefix matching is reflexive, antisymmetric and transitive |
| `Names.SourcesOfOneNameFormAChain` | internal/baseten/client.go:577-579 | Of two sources that match one deployment, one matches the other |

## Left out

- HTTP, generated SDK types, JSON and YAML, writing the truss directory: calls and field copies.
- SHA-256: the hash is a parameter; where its freedom from collisions matters it is a hypothesis.
- RFC 3339 text: a time is an instant with an offset, or text that does not parse.
- Exact message text, events and logs: a message is a short label with the deployments it shows, so two
  messages that differ only in an embedded error, count or list of drifted fields are one message here,
  and a write of the code that changes nothing else is then skipped.
- 32-bit counters: replica counts and retry counts are unbounded integers.
- Creation times as strings: their order is a key, so mixed UTC offsets are not compared.
- sort.Slice: an insertion sort stands in for it, of which only order and permutation are promised and used.
- Calendar days: a day of the cleanup cutoff is 24 hours.
- How the writes and the calls of a pass alternate, except around a deployment retry.
- A pass reads one clock value everywhere except around deployment retries, where each reading counts.
- Sub-second parts of condition transition times stay as they are in stored versions.
- A reconciler without a push semaphore: the pass is then always told that a slot is free.
- The build error of a schedule patch inside a pass: it is one of the failures of that call.
- Several resources on one environment, and a push of an old configuration that marks a new one done:
  the code does not prevent either.
- Fetching the resource, the work queue, leader election and wiring.
- PushRuns.NoPushBeforeItsTime: stated for runs whose failures land in place, because it is false otherwise.
- PushRuns.KthFailureWaits: the same.
- PushRuns.FastPathAgrees: stated for runs in which an announcement over a push in flight finds a slot,
  because it is false otherwise.
