/** The reconcile pass as a function of the resource read and of everything the outside answers.
    Every API call site is reached at most once in a pass, so the answers are one record. */
module Steps {
  import opened Types
  import opened Names
  import opened Drift
  import opened Schedules
  import opened Baseten
  import opened Model
  import opened StatusUpdates
  import opened Backoff

  /** Readings of the clock while a deployment retry is considered, in that order. */
  datatype RetryTimes = RetryTimes(detected: Time, checked: Time, compared: Time, scheduled: Time)
  {
    predicate InOrder() {
      detected <= checked <= compared <= scheduled
    }
  }

  /** How an update of the object itself (its finalizer list) went. */
  datatype MetaWrite = MetaWritten | MetaConflict | MetaNotFound | MetaFailed

  datatype Replies = Replies(
    now: Time, retryTimes: RetryTimes, jitter: nat,
    metaWrite: MetaWrite, steadyWritten: bool, promotedWritten: bool, observedWritten: bool,
    findModel: ApiResult<string>, setupScript: Option<string>, configGenerates: bool,
    findBuilt: ApiResult<Found>, pushSlotFree: bool,
    environment: ApiResult<Environment>, createEnvironment: ApiResult<()>,
    updateSettings: ApiResult<()>, updateSchedules: ApiResult<()>,
    activateCurrent: ApiResult<()>, findSource: ApiResult<Found>, activateSource: ApiResult<()>,
    findFresh: ApiResult<Found>, retry: ApiResult<RetryResponse>, promote: ApiResult<Deployment>,
    listEnvironments: ApiResult<seq<Environment>>, deleteModel: ApiResult<()>,
    listDeployments: ApiResult<seq<Detail>>, sweep: Sweep)

  /** The deployments orphan cleanup scaled in and deleted, in order; sorting leaves equal
      creation times in any order, so the listing alone does not determine them. */
  datatype Sweep = Sweep(scaledIn: seq<string>, deleted: seq<string>)

  /** What a pass sees of the resource, and the answers it gets; `orphanCalls` tells by deployment id
      which calls of orphan cleanup succeed. */
  datatype Context = Context(spec: Spec, generation: int, deleting: bool, hash: Hasher, replies: Replies,
                             orphanCalls: string -> bool)

  /** Mutating calls to Baseten, in the order they are made. */
  datatype Call =
    | CreateEnvironment
    | UpdateSettings(autoscaling: bool, promotion: bool)
    | UpdateSchedules
    | Activate(id: string)
    | RetryDeployment(id: string)
    | Promote(id: string)
    | Push(name: string, createsModel: bool)
    | DeleteModel(modelID: string)
    | ScaleIn(id: string)
    | DeleteDeployment(id: string)

  /** What a pass has done so far: the status in memory, the calls made, every status handed to
      the API server for writing, and which write, if any, was the first after a deployment retry. */
  datatype Trail = Trail(status: Status, calls: seq<Call>, writes: seq<Status>, record: Option<nat>)
  {
    function Written(): Trail { this.(writes := writes + [status]) }
    function Called(c: Call): Trail { this.(calls := calls + [c]) }
  }

  datatype Error = Missing | OtherError

  /** How a pass ends. */
  datatype Verdict = Requeue(after: Time) | Fail(error: Error) | GiveUp | Quiet

  /** What a whole pass comes to; the finalizer is the one left on the object in memory. */
  datatype Outcome = Outcome(trail: Trail, verdict: Verdict, finalizer: bool)

  /** Either the pass goes on with a value, or it stops. */
  datatype Step<+T> = Go(trail: Trail, value: T) | Stop(trail: Trail, verdict: Verdict)

  function ErrorOf<T>(r: ApiResult<T>): Error {
    if r.NotFound? then Missing else OtherError
  }

  /** The status stored once all writes of a pass have been accepted. */
  function LastStored(st0: Status, t: Trail): Status {
    if t.writes == [] then st0 else t.writes[|t.writes| - 1]
  }

  /** The pushes among the calls. */
  function PushCount(calls: seq<Call>): nat {
    if calls == [] then 0
    else PushCount(calls[..|calls| - 1]) + if calls[|calls| - 1].Push? then 1 else 0
  }

  /* ---- status ---- */

  function Update(code: StatusCode, message: Message, modelID: string): StatusUpdate {
    StatusUpdate(code, message, modelID, "", "", "", "", "", false, 0, None)
  }

  function Say(text: string): Message { Note(text, None, None) }

  function UpdateStatus(c: Context, t: Trail, su: StatusUpdate): Trail {
    var t' := t.(status := Updated(t.status, su, c.generation, c.replies.now));
    if Skipped(t.status, su, c.generation, c.replies.now) then t' else t'.Written()
  }

  /** No error comes back from an update that was skipped, or written. */
  predicate UpdateWentThrough(c: Context, t: Trail, su: StatusUpdate, written: bool) {
    Skipped(t.status, su, c.generation, c.replies.now) || written
  }

  /** A 404 on a cached model ID forgets the ID, but not when it was last resolved. */
  function Invalidates(t: Trail, v: Verdict): bool {
    v == Fail(Missing) && t.status.modelID != ""
  }

  function Invalidate(t: Trail): Trail {
    t.(status := t.status.(modelID := "")).Written()
  }

  /** Ends a pass, turning a 404 on a cached model ID into a quick second look. */
  function Conclude(t: Trail, v: Verdict): (Trail, Verdict) {
    if Invalidates(t, v) then (Invalidate(t), Requeue(SECOND)) else (t, v)
  }

  /* ---- deletion ---- */

  function ReleaseFinalizer(c: Context, t: Trail): Outcome {
    var done := c.replies.metaWrite.MetaWritten? || c.replies.metaWrite.MetaNotFound?;
    Outcome(t, if done then Quiet else Fail(OtherError), false)
  }

  function MinReplicaOf(env: Environment): int {
    if env.autoscaling.Some? then env.autoscaling.value.minReplica else 0
  }

  function ReplicasOf(d: Option<Deployment>): int {
    if d.Some? then d.value.replicas else 0
  }

  /** Still serving, or configured to. */
  predicate Blocking(env: Environment) {
    MinReplicaOf(env) > 0 || ReplicasOf(env.current) > 0 || ReplicasOf(env.candidate) > 0
  }

  /** Whether guarded deletion may go ahead on this listing; a 404 means the model is gone. */
  predicate Idle(list: ApiResult<seq<Environment>>) {
    list.NotFound? || (list.Ok? && forall env :: env in list.value ==> !Blocking(env))
  }

  function BlockedMessage(list: ApiResult<seq<Environment>>): Message {
    if list.Ok? then Say("deletion blocked: not idle") else Say("deletion blocked: failed to list environments")
  }

  /** Whether the operator owes Baseten a deletion when this resource goes. */
  predicate DeletionDue(c: Context, st: Status) {
    c.spec.EffectiveMode().ReconcileMode? && c.spec.deletionPolicy.Deletes() && st.modelID != ""
  }

  function Deletion(c: Context, t: Trail, finalizer: bool): Outcome {
    var id := t.status.modelID;
    if !finalizer then Outcome(t, Quiet, false)
    else if !DeletionDue(c, t.status) then ReleaseFinalizer(c, t)
    else if c.spec.deletionPolicy.DeleteWithGuardrails? && !Idle(c.replies.listEnvironments) then
      Outcome(UpdateStatus(c, t, Update(DeleteBlocked, BlockedMessage(c.replies.listEnvironments), id)),
              Requeue(30 * SECOND), true)
    else
      var t1 := UpdateStatus(c, t, Update(Deleting, Say("deleting model"), id)).Called(DeleteModel(id));
      if c.replies.deleteModel.Failure? then
        Outcome(UpdateStatus(c, t1, Update(DeleteFailed, Say("failed to delete model"), id)), Requeue(30 * SECOND),
                true)
      else ReleaseFinalizer(c, t1)
  }

  /* ---- pause and observe ---- */

  function PausedMessage(m: Message): Message {
    if m.PausedOver? then m else PausedOver(m)
  }

  function ReconcilePaused(c: Context, t: Trail): Trail {
    UpdateStatus(c, t, Update(Paused, PausedMessage(t.status.message), ""))
  }

  /** Hash and deployment name of the inline configuration, once its setup script is read. */
  function TrussHash(c: Context): string
    requires c.spec.truss.Some? && c.replies.setupScript.Some?
  {
    c.hash(c.spec.truss.value, c.replies.setupScript.value)
  }

  function TrussName(c: Context): string
    requires c.spec.truss.Some? && c.replies.setupScript.Some?
  {
    DeploymentName(TrussHash(c), c.spec.truss.value.image)
  }

  /** The name the spec stands for, computed without any call. */
  function ExpectedSource(c: Context): Option<string> {
    if c.spec.sourceDeploymentName != "" then Some(c.spec.sourceDeploymentName)
    else if c.spec.truss.None? || c.replies.setupScript.None? then None
    else Some(TrussName(c))
  }

  predicate Matches(d: Option<Deployment>, source: string) {
    d.Some? && MatchesPrefix(d.value.name, source)
  }

  function NameOf(d: Option<Deployment>): string {
    if d.Some? then d.value.name else ""
  }

  /** What observing reports; the suffix on a steady state says that something is drifted. */
  function ObservedUpdate(env: Environment, source: string, modelID: string, drift: bool): StatusUpdate {
    if Matches(env.current, source) then
      Update(env.current.value.status, Note(if drift then "active | drift" else "active", env.current, None), modelID)
        .(activeDeploymentName := env.current.value.name, replicaCount := env.current.value.replicas,
          clearCandidate := true)
    else if Matches(env.candidate, source) then
      Update(env.candidate.value.status, Note("promoting", env.current, env.candidate), modelID)
        .(candidateDeploymentName := env.candidate.value.name, replicaCount := env.candidate.value.replicas,
          activeDeploymentName := NameOf(env.current))
    else
      Update(Pending, Note("not yet promoted " + source, env.current, None), modelID)
        .(activeDeploymentName := NameOf(env.current), replicaCount := ReplicasOf(env.current))
  }

  ghost predicate ObservedDrift(c: Context, env: Environment) {
    || BaselineDrift(c.spec.environment, env)
    || AnyPromotionDrift(c.spec.environment.promotion, env.promotion)
    || ScheduleDrift(c.spec.environment, env, c.replies.now)
    || (c.spec.environment.schedule.Some? && env.schedulesUnreadable)
  }

  ghost function ReconcileObserve(c: Context, t: Trail): (Trail, Verdict) {
    var id := if t.status.modelID != "" then t.status.modelID
              else if c.replies.findModel.Ok? then c.replies.findModel.value else "";
    if t.status.modelID == "" && !c.replies.findModel.Ok? then
      (UpdateStatus(c, t, Update(Failed, Say("failed to lookup model"), "")), Requeue(30 * SECOND))
    else if id == "" then
      (UpdateStatus(c, t, Update(Failed, Say("model not found; not created"), "")), Requeue(30 * SECOND))
    else if ExpectedSource(c).None? then
      (UpdateStatus(c, t, Update(Failed, Say("no expected source"), id)), Requeue(30 * SECOND))
    else
      match c.replies.environment
      case NotFound =>
        (UpdateStatus(c, t, Update(Failed, Say("environment does not exist"), id)), Requeue(30 * SECOND))
      case Failure => (t, Fail(OtherError))
      case Ok(env) =>
        var su := ObservedUpdate(env, ExpectedSource(c).value, id, ObservedDrift(c, env));
        (UpdateStatus(c, t, su),
         if UpdateWentThrough(c, t, su, c.replies.observedWritten) then Requeue(30 * SECOND) else Fail(OtherError))
  }

  /* ---- deployment retries ---- */

  function ScheduleNextRetry(c: Context, t: Trail): Trail {
    var count := t.status.retryCount + 1;
    t.(record := Some(|t.writes|), status := t.status.(
         retryCount := count,
         nextRetryTime := Some(c.replies.retryTimes.scheduled + Interval(count) + c.replies.jitter))).Written()
  }

  function NoteFirstFailure(c: Context, t: Trail): Trail {
    if t.status.firstFailureTime.Some? then t
    else t.(status := t.status.(firstFailureTime := Some(c.replies.retryTimes.detected))).Written()
  }

  /** The status a retry decision rests on: the fresh one if the lookup gave one. */
  function FreshStatus(c: Context, failed: StatusCode): StatusCode {
    if c.replies.findFresh.Ok? && c.replies.findFresh.value.status != Blank then c.replies.findFresh.value.status
        else failed
  }

  /** `Stop` when the pass ends here, `Go` when retries are exhausted. */
  function TryRetry(c: Context, t: Trail, modelID: string, id: string, failed: StatusCode): Step<()> {
    var t1 := NoteFirstFailure(c, t);
    var times := c.replies.retryTimes;
    if times.checked - t1.status.firstFailureTime.value > DEPLOYMENT_RETRY_DEADLINE then Go(t1, ())
    else if t1.status.nextRetryTime.Some? && times.compared < t1.status.nextRetryTime.value then
      Stop(t1, Requeue(t1.status.nextRetryTime.value - times.compared))
    else if !FreshStatus(c, failed).RetryableFailure() then Stop(t1, Requeue(30 * SECOND))
    else
      var t2 := ScheduleNextRetry(c, t1.Called(RetryDeployment(id)));
      if c.replies.retry.Ok? && c.replies.retry.value.retried then
        Stop(UpdateStatus(c, t2, Update(Building, Say("retrying deployment"), modelID)), Requeue(30 * SECOND))
      else Stop(t2, Requeue(30 * SECOND))
  }

  /* ---- model ID ---- */

  function ResolveModelID(c: Context, t: Trail): Step<string> {
    if t.status.modelID != "" then Go(t, t.status.modelID)
    else if !c.replies.findModel.Ok? then
      Stop(UpdateStatus(c, t, Update(Failed, Say("failed to lookup model"), "")), Fail(ErrorOf(c.replies.findModel)))
    else if c.replies.findModel.value != "" then Go(t, c.replies.findModel.value)
    else if c.spec.deletionPolicy.Deletes() && t.status.modelIDResolvedTime.Some? then
      Stop(UpdateStatus(c, t, Update(Failed, Say("model missing; policy blocks recreation"), "")), Requeue(5 * MINUTE))
    else if c.spec.truss.Some? then Go(t, "")
    else Stop(UpdateStatus(c, t, Update(Failed, Say("model not found"), "")), Fail(OtherError))
  }

  /* ---- truss pushes ---- */

  const PUSH_STALE_TIMEOUT: Time := 5 * MINUTE

  function ClearPushFailure(st: Status): Status {
    st.(pushFailureCount := 0, pushNextRetryTime := None, pushLastError := "")
  }

  predicate PushIsCurrent(st: Status, name: string) {
    st.pushStatus.Pushing? && st.sourceDeploymentName == name
  }

  predicate PushIsStale(st: Status, now: Time) {
    st.pushTime.Some? && now - st.pushTime.value > PUSH_STALE_TIMEOUT
  }

  /** A failed push of this very name whose waiting time is not over. */
  predicate BackingOff(st: Status, name: string, now: Time) {
    && st.pushStatus.PushFailed? && st.sourceDeploymentName == name
    && st.pushNextRetryTime.Some? && now < st.pushNextRetryTime.value
  }

  /** The status with which a push is attempted: failure tracking of another name is dropped, and
      a stale push no longer counts as in flight. */
  function ReadyToPush(t: Trail, name: string, now: Time): Trail {
    if PushIsCurrent(t.status, name) then t.(status := t.status.(pushStatus := NoPush, pushTime := None)).Written()
    else if t.status.pushStatus.PushFailed? && t.status.sourceDeploymentName != name then
      t.(status := ClearPushFailure(t.status))
    else t
  }

  /** Announces the push, then launches it if a slot is free and takes the announcement back if not. */
  function StartPush(c: Context, t: Trail, modelID: string, configHash: string, name: string): (Trail, Verdict) {
    var announced := t.(status := t.status.(trussConfigHash := configHash, sourceDeploymentName := name,
                                            pushStatus := Pushing, pushTime := Some(c.replies.now))).Written();
    if !c.replies.pushSlotFree then
      var blank := announced.(status := announced.status.(pushStatus := NoPush, sourceDeploymentName := "")).Written();
      (UpdateStatus(c, blank, Update(Pending, Say("waiting for push capacity"), modelID)), Requeue(10 * SECOND))
    else
      (UpdateStatus(c, announced.Called(Push(name, modelID == "")),
                    Update(Deploying, Say("truss push started"), modelID)),
       Requeue(10 * SECOND))
  }

  /** When neither a cached nor an existing deployment answers for the configuration. */
  function PushOrWait(c: Context, t: Trail, modelID: string, configHash: string, name: string): (Trail, Verdict) {
    var now := c.replies.now;
    if PushIsCurrent(t.status, name) && !PushIsStale(t.status, now) then
      (UpdateStatus(c, t, Update(Deploying, Say("truss push in progress"), modelID)), Requeue(10 * SECOND))
    else if BackingOff(t.status, name, now) then
      (UpdateStatus(c, t, Update(Failed, Say("truss push failed"), modelID)),
       Requeue(t.status.pushNextRetryTime.value - now))
    else
      var ready := ReadyToPush(t, name, now);
      if !c.replies.configGenerates then
        (UpdateStatus(c, ready, Update(Failed, Say("truss push failed"), modelID)), Fail(OtherError))
      else StartPush(c, ready, modelID, configHash, name)
  }

  function ReconcileTruss(c: Context, t: Trail, modelID: string): Step<string>
    requires c.spec.truss.Some?
  {
    if c.replies.setupScript.None? then
      Stop(UpdateStatus(c, t, Update(Failed, Say("truss push failed"), modelID)), Fail(OtherError))
    else
      var configHash, name := TrussHash(c), TrussName(c);
      if modelID != "" && t.status.trussConfigHash == configHash && t.status.pushStatus.PushDone? then
        Go(t, t.status.sourceDeploymentName)
      else if modelID != "" && !c.replies.findBuilt.Ok? then
        Stop(UpdateStatus(c, t, Update(Pending, Say("unable to check deployment"), modelID)),
             Fail(ErrorOf(c.replies.findBuilt)))
      else if modelID != "" && c.replies.findBuilt.value.id != "" then
        Go(t.(status := ClearPushFailure(t.status.(trussConfigHash := configHash, sourceDeploymentName := name,
                                                   pushStatus := PushDone))).Written(), name)
      else
        var (t', v) := PushOrWait(c, t, modelID, configHash, name);
        Stop(t', v)
  }

  function ResolveSource(c: Context, t: Trail, modelID: string): Step<string> {
    if c.spec.truss.Some? then ReconcileTruss(c, t, modelID) else Go(t, c.spec.sourceDeploymentName)
  }

  /* ---- environment ---- */

  /** Baseline drift is not looked at while a managed schedule is in force. */
  predicate BaselineDrift(spec: EnvironmentConfig, env: Environment) {
    !(spec.schedule.Some? && ScheduleActive(env.schedules)) && AnyDrift(spec.autoscaling, env.autoscaling)
  }

  ghost predicate ScheduleDrift(spec: EnvironmentConfig, env: Environment, now: Time) {
    spec.schedule.Some? && !InSync(spec.schedule.value, OrNone(env.schedules), now)
  }

  ghost function PatchSettings(c: Context, t: Trail, modelID: string, env: Environment): (Trail, Verdict) {
    var autoscaling := BaselineDrift(c.spec.environment, env);
    var promotion := AnyPromotionDrift(c.spec.environment.promotion, env.promotion);
    var t1 := if autoscaling || promotion then t.Called(UpdateSettings(autoscaling, promotion)) else t;
    if (autoscaling || promotion) && !c.replies.updateSettings.Ok? then
      (UpdateStatus(c, t1, Update(Failed, Note("failed to update settings", env.current, None), modelID)),
       Fail(ErrorOf(c.replies.updateSettings)))
    else
      var schedules := ScheduleDrift(c.spec.environment, env, c.replies.now);
      var t2 := if schedules then t1.Called(UpdateSchedules) else t1;
      if schedules && !c.replies.updateSchedules.Ok? then
        (UpdateStatus(c, t2,
                      Update(Failed, Note("failed to update autoscaling schedules", env.current, None), modelID)),
         Fail(ErrorOf(c.replies.updateSchedules)))
      else
        (UpdateStatus(c, t2, Update(Pending, Note("updating settings", env.current, None), modelID)),
         Requeue(10 * SECOND))
  }

  ghost function ReconcileEnvironment(c: Context, t: Trail, modelID: string): Step<Environment> {
    match c.replies.environment
    case NotFound =>
      var t1 := t.Called(CreateEnvironment);
      if !c.replies.createEnvironment.Ok? then
        Stop(UpdateStatus(c, t1, Update(Failed, Say("failed to create environment"), modelID)),
             Fail(ErrorOf(c.replies.createEnvironment)))
      else Stop(UpdateStatus(c, t1, Update(Pending, Say("created environment"), modelID)), Requeue(10 * SECOND))
    case Failure =>
      Stop(UpdateStatus(c, t, Update(Failed, Say("failed to get environment"), modelID)), Fail(OtherError))
    case Ok(env) =>
      if c.spec.environment.schedule.Some? && env.schedulesUnreadable then
        Stop(UpdateStatus(c, t, Update(Failed, Say("failed to read autoscaling schedules"), modelID)), Fail(OtherError))
      else if BaselineDrift(c.spec.environment, env)
           || AnyPromotionDrift(c.spec.environment.promotion, env.promotion)
           || ScheduleDrift(c.spec.environment, env, c.replies.now) then
        var (t', v) := PatchSettings(c, t, modelID, env);
        Stop(t', v)
      else Go(t, env)
  }

  /* ---- promotion ---- */

  function CurrentUpdate(env: Environment, code: StatusCode, text: string, modelID: string): StatusUpdate
    requires env.current.Some?
  {
    Update(code, Note(text, env.current, None), modelID)
      .(activeDeploymentName := env.current.value.name, replicaCount := env.current.value.replicas)
  }

  function Reactivate(c: Context, t: Trail, modelID: string, env: Environment): (Trail, Verdict)
    requires env.current.Some?
  {
    var t1 := t.Called(Activate(env.current.value.id));
    if c.replies.activateCurrent.Ok? then
      (UpdateStatus(c, t1, CurrentUpdate(env, Activating, "reactivating", modelID)), Requeue(30 * SECOND))
    else
      var t2 := UpdateStatus(c, t1, CurrentUpdate(env, Failed, "failed to reactivate", modelID));
      Conclude(t2, if c.replies.activateCurrent.NotFound? && t2.status.modelID != "" then Fail(Missing)
               else Requeue(30 * SECOND))
  }

  function SteadyUpdate(t: Trail, modelID: string, env: Environment): StatusUpdate
    requires env.current.Some?
  {
    var clear := t.status.candidateDeploymentID != "" || t.status.candidateDeploymentName != "";
    CurrentUpdate(env, env.current.value.status, "active", modelID).(clearCandidate := clear)
  }

  function CleanupCalls(s: Sweep): seq<Call> {
    seq(|s.scaledIn|, i requires 0 <= i < |s.scaledIn| => ScaleIn(s.scaledIn[i])) +
    seq(|s.deleted|, i requires 0 <= i < |s.deleted| => DeleteDeployment(s.deleted[i]))
  }

  /** Cleanup is configured with an interval, the interval has passed, and it has something to do. */
  predicate CleanupDue(c: Context, st: Status) {
    && c.spec.cleanup.Some? && c.spec.cleanup.value.intervalMinutes.Some?
    && (st.lastCleanupTime.Some? ==>
          c.replies.now - st.lastCleanupTime.value >= c.spec.cleanup.value.intervalMinutes.value * MINUTE)
    && (c.spec.cleanup.value.scaleToZero == Some(true) || c.spec.cleanup.value.delete == Some(true))
  }

  function OrphanCleanup(c: Context, t: Trail): Trail {
    if !CleanupDue(c, t.status) || !c.replies.listDeployments.Ok? || !c.replies.listEnvironments.Ok? then t
    else t.(calls := t.calls + CleanupCalls(c.replies.sweep),
            status := t.status.(lastCleanupTime := Some(c.replies.now))).Written()
  }

  /** Steady state; orphan cleanup follows when the status update went through. */
  function SteadyState(c: Context, t: Trail, modelID: string, env: Environment): (Trail, Verdict)
    requires env.current.Some?
  {
    var su := SteadyUpdate(t, modelID, env);
    var t1 := UpdateStatus(c, t, su);
    if UpdateWentThrough(c, t, su, c.replies.steadyWritten) then (OrphanCleanup(c, t1), Requeue(5 * MINUTE))
    else (t1, Fail(OtherError))
  }

  function PromotionUpdate(c: Context, t: Trail, modelID: string, env: Environment): StatusUpdate
    requires env.candidate.Some?
  {
    Update(Promoting, Note("promoting", env.current, env.candidate), modelID)
      .(candidateDeploymentName := env.candidate.value.name, replicaCount := env.candidate.value.replicas,
        activeDeploymentName := NameOf(env.current), candidateDeploymentID := t.status.candidateDeploymentID)
  }

  function CandidateIdToRetry(t: Trail, candidate: Deployment): string {
    if candidate.id != "" then candidate.id else t.status.candidateDeploymentID
  }

  function HandleCandidateFailure(c: Context, t: Trail, modelID: string, env: Environment): (Trail, Verdict)
    requires env.candidate.Some?
  {
    var candidate := env.candidate.value;
    var su := PromotionUpdate(c, t, modelID, env);
    if candidate.status.RetryableFailure() then
      var id := CandidateIdToRetry(t, candidate);
      if id == "" then (UpdateStatus(c, t, su), GiveUp)
      else
        match TryRetry(c, t, modelID, id, candidate.status)
        case Stop(t', v) => (t', v)
        case Go(t', _) => (UpdateStatus(c, t', su), GiveUp)
    else
      (UpdateStatus(c, t, su.(deploymentStatus := candidate.status,
                              message := Note("candidate failed", env.current, env.candidate))), Fail(OtherError))
  }

  function PromotionInProgress(c: Context, t: Trail, modelID: string, env: Environment): (Trail, Verdict)
    requires env.candidate.Some?
  {
    if env.candidate.value.status.TerminalFailure() then HandleCandidateFailure(c, t, modelID, env)
    else (UpdateStatus(c, t, PromotionUpdate(c, t, modelID, env)), Requeue(30 * SECOND))
  }

  /** A cached candidate that the environment does not show as this source's is dropped; then only
      a candidate in the environment itself holds promotion back. */
  function ForgetCandidate(t: Trail, env: Environment, source: string): Trail {
    if t.status.candidateDeploymentID != "" && !Matches(env.candidate, source) then
      t.(status := t.status.(candidateDeploymentID := "", candidateDeploymentName := ""))
    else t
  }

  function DoublePromoteGuard(c: Context, t: Trail, env: Environment, modelID: string, source: string): Step<()> {
    var t1 := ForgetCandidate(t, env, source);
    if t1.status.candidateDeploymentID == "" && env.candidate.None? then Go(t1, ())
    else
      var note := Note("waiting for existing promotion before " + source, env.current, env.candidate);
      Stop(UpdateStatus(c, t1, Update(Promoting, note, modelID)
                                 .(candidateDeploymentID := t1.status.candidateDeploymentID,
                                   candidateDeploymentName := NameOf(env.candidate),
                                   activeDeploymentName := NameOf(env.current))),
           Requeue(30 * SECOND))
  }

  function SourceUpdate(env: Environment, code: StatusCode, text: string, modelID: string): StatusUpdate {
    Update(code, Note(text, env.current, None), modelID)
  }

  predicate SourceReady(s: StatusCode) {
    s.Active? || s.ScaledToZero?
  }

  function ValidateSource(c: Context, t: Trail, modelID: string, source: string, env: Environment): Step<string> {
    match c.replies.findSource
    case NotFound =>
      Stop(UpdateStatus(c, t, SourceUpdate(env, Failed, "unable to promote: not found " + source, modelID)),
           Fail(Missing))
    case Failure =>
      Stop(UpdateStatus(c, t, SourceUpdate(env, Failed, "unable to promote: not found " + source, modelID)),
           Fail(OtherError))
    case Ok(found) =>
      if found.id == "" then
        Stop(UpdateStatus(c, t, SourceUpdate(env, Failed, "unable to promote: not found " + source, modelID)),
             Fail(OtherError))
      else if found.status.RetryableFailure() then
        match TryRetry(c, t, modelID, found.id, found.status)
        case Stop(t', v) => Stop(t', v)
        case Go(t', _) =>
          var text := "unable to promote: retries exhausted " + source;
          Stop(UpdateStatus(c, t', SourceUpdate(env, found.status, text, modelID)), GiveUp)
      else if found.status.Inactive? then
        var t1 := t.Called(Activate(found.id));
        if c.replies.activateSource.Ok? then
          Stop(UpdateStatus(c, t1, SourceUpdate(env, Activating, "waiting to promote " + source, modelID)),
               Requeue(30 * SECOND))
        else
          var text := "unable to promote: failed to activate " + source;
          Stop(UpdateStatus(c, t1, SourceUpdate(env, Failed, text, modelID)), Requeue(30 * SECOND))
      else if SourceReady(found.status) then Go(t, found.id)
      else Stop(UpdateStatus(c, t, SourceUpdate(env, found.status, "waiting to promote " + source, modelID)),
                Requeue(30 * SECOND))
  }

  function PromoteSource(c: Context, t: Trail, modelID: string, source: string, sourceID: string,
                         env: Environment): (Trail, Verdict) {
    var base := SourceUpdate(env, PromotingDeployment, "promoting " + source, modelID)
      .(sourceDeploymentID := sourceID, sourceDeploymentName := source);
    var t1 := UpdateStatus(c, t, base).Called(Promote(sourceID));
    match c.replies.promote
    case Ok(target) =>
      var su := base.(deploymentStatus := Promoting, message := Note("promoted " + source, env.current, Some(target)),
                      candidateDeploymentID := target.id, candidateDeploymentName := target.name,
                      replicaCount := target.replicas, activeDeploymentName := NameOf(env.current));
      (UpdateStatus(c, t1, su),
       if UpdateWentThrough(c, t1, su, c.replies.promotedWritten) then Requeue(30 * SECOND) else Fail(OtherError))
    case _ =>
      Conclude(UpdateStatus(c, t1,
                            base.(deploymentStatus := Failed,
                                  message := Note("promotion failed " + source, env.current, None))),
               Fail(ErrorOf(c.replies.promote)))
  }

  function PromoteWhenReady(c: Context, t: Trail, modelID: string, source: string, env: Environment): (Trail, Verdict) {
    match DoublePromoteGuard(c, t, env, modelID, source)
    case Stop(t1, v) => (t1, v)
    case Go(t1, _) =>
      match ValidateSource(c, t1, modelID, source, env)
      case Stop(t2, v) => Conclude(t2, v)
      case Go(t2, sourceID) => PromoteSource(c, t2, modelID, source, sourceID, env)
  }

  /** Whether the environment as read is in steady state for the source. */
  predicate IsSteady(env: Environment, source: string) {
    Matches(env.current, source) && !env.current.value.status.Inactive?
  }

  function WithEnvironment(c: Context, t: Trail, modelID: string, source: string, env: Environment): (Trail, Verdict) {
    if Matches(env.current, source) then
      if env.current.value.status.Inactive? then Reactivate(c, t, modelID, env) else SteadyState(c, t, modelID, env)
    else if Matches(env.candidate, source) then PromotionInProgress(c, t, modelID, env)
    else PromoteWhenReady(c, t, modelID, source, env)
  }

  /* ---- the whole pass ---- */

  ghost function ReconcileActive(c: Context, t: Trail): (Trail, Verdict) {
    match ResolveModelID(c, t)
    case Stop(t1, v) => (t1, v)
    case Go(t1, modelID) =>
      match ResolveSource(c, t1, modelID)
      case Stop(t2, v) => Conclude(t2, v)
      case Go(t2, source) =>
        if modelID == "" then (t2, Requeue(10 * SECOND))
        else
          match ReconcileEnvironment(c, t2, modelID)
          case Stop(t3, v) => Conclude(t3, v)
          case Go(t3, env) => WithEnvironment(c, t3, modelID, source, env)
  }

  /** What comes before reconciling proper; `None` when that is next. */
  function Lifecycle(c: Context, t: Trail, finalizer: bool): Option<Outcome> {
    if c.deleting then Some(Deletion(c, t, finalizer))
    else if c.spec.EffectiveMode().PauseMode? then Some(Outcome(ReconcilePaused(c, t), Quiet, finalizer))
    else if finalizer then None
    else
      var done := c.replies.metaWrite.MetaWritten? || c.replies.metaWrite.MetaConflict?;
      Some(Outcome(t, if done then Quiet else Fail(OtherError), true))
  }

  /** A pass over the status and finalizer read. */
  ghost function Reconcile(c: Context, st: Status, finalizer: bool): Outcome {
    var t := Start(st);
    var early := Lifecycle(c, t, finalizer);
    if early.Some? then early.value
    else
      var (t', v) := if c.spec.EffectiveMode().ObserveMode? then ReconcileObserve(c, t) else ReconcileActive(c, t);
      Outcome(t', v, true)
  }

  function Start(status: Status): Trail {
    Trail(status, [], [], None)
  }
}
