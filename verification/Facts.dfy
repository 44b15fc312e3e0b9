/** What a pass reads and reports, in plain fields, without any of the functions a pass is made of. */
module Facts {
  import opened Types
  import opened Names
  import opened Drift
  import opened Schedules
  import opened Baseten
  import opened Model
  import opened Steps
  import opened ScheduleFields

  const NS_SECOND: int := 1_000_000_000
  const NS_MINUTE: int := 60_000_000_000
  const NS_DAY: int := 86_400_000_000_000

  /* ---- statuses and names ---- */

  predicate Failing(s: StatusCode) { s == Failed || s == DeployFailed || s == BuildFailed }

  predicate Serving(s: StatusCode) { s == Active || s == ScaledToZero }

  /** The deployment is called as the source, or so with something appended after a dot. */
  ghost predicate Called(d: Option<Deployment>, source: string) {
    d.Some? && (d.value.name == source || exists suffix :: d.value.name == source + "." + suffix)
  }

  function NameIn(d: Option<Deployment>): string { if d.Some? then d.value.name else "" }

  /* ---- the resource ---- */

  predicate Reconciles(spec: Spec) { !spec.paused && (spec.mode == ModeUnset || spec.mode == ReconcileMode) }

  predicate Pauses(spec: Spec) { spec.paused || spec.mode == PauseMode }

  predicate Observes(spec: Spec) { !spec.paused && spec.mode == ObserveMode }

  predicate MayDelete(p: DeletionPolicy) { p == Delete || p == DeleteWithGuardrails }

  /** The pass works on Baseten. */
  predicate Acts(c: Context, finalizer: bool) { !c.deleting && finalizer && Reconciles(c.spec) }

  /** The model the pass works on, cached or found by name. */
  predicate Knows(c: Context, st: Status, id: string) {
    id != "" && (st.modelID == id || (st.modelID == "" && c.replies.findModel == Ok(id)))
  }

  /* ---- the source ---- */

  predicate HasConfig(c: Context) { c.spec.truss.Some? && c.replies.setupScript.Some? }

  function HashOf(c: Context): string
    requires HasConfig(c)
  {
    c.hash(c.spec.truss.value, c.replies.setupScript.value)
  }

  function NameFor(c: Context): string
    requires HasConfig(c)
  {
    DeploymentName(HashOf(c), c.spec.truss.value.image)
  }

  /** The configuration is the one last pushed, with success. */
  predicate IsPushed(c: Context, st: Status)
    requires HasConfig(c)
  {
    st.trussConfigHash == HashOf(c) && st.pushStatus == PushDone
  }

  /** The configuration was not known to be pushed, and a deployment of its name exists. */
  predicate IsFound(c: Context, st: Status) {
    HasConfig(c) && !IsPushed(c, st) && c.replies.findBuilt.Ok? && c.replies.findBuilt.value.id != ""
  }

  predicate WorksOn(c: Context, st: Status, source: string) {
    if c.spec.truss.None? then source == c.spec.sourceDeploymentName
    else
      && HasConfig(c)
      && if IsPushed(c, st) then source == st.sourceDeploymentName else IsFound(c, st) && source == NameFor(c)
  }

  /** The status once the source is known; finding a deployment is stored at once. */
  function Sourced(c: Context, st: Status): Status {
    if IsFound(c, st) then
      st.(trussConfigHash := HashOf(c), sourceDeploymentName := NameFor(c), pushStatus := PushDone,
          pushFailureCount := 0, pushNextRetryTime := None, pushLastError := "")
    else st
  }

  function AtSource(c: Context, st: Status): Trail {
    Trail(Sourced(c, st), [], if IsFound(c, st) then [Sourced(c, st)] else [], None)
  }

  /* ---- the environment ---- */

  predicate Off(wanted: Option<int>, have: int) { wanted.Some? && wanted.value != have }

  function IntOr0(p: Option<int>): int { if p.Some? then p.value else 0 }

  /** A declared autoscaling field differs from the environment's. */
  predicate OffAutoscaling(spec: Option<AutoscalingConfig>, env: Option<AutoscalingSettings>) {
    && spec.Some? && env.Some?
    && var c, e := spec.value, env.value;
       || Off(c.minReplicas, e.minReplica) || Off(c.maxReplicas, e.maxReplica)
       || Off(c.concurrencyTarget, e.concurrencyTarget)
       || Off(c.autoscalingWindow, IntOr0(e.autoscalingWindow)) || Off(c.scaleDownDelay, IntOr0(e.scaleDownDelay))
       || Off(c.targetUtilization, IntOr0(e.targetUtilization)) || Off(c.maxScaleDownRate, IntOr0(e.maxScaleDownRate))
  }

  predicate OffFlag(wanted: Option<bool>, have: Option<bool>) {
    wanted.Some? && wanted.value != (have.Some? && have.value)
  }

  predicate OffText(wanted: Option<string>, have: Option<string>) {
    wanted.Some? && wanted.value != (if have.Some? then have.value else "")
  }

  /** A declared rolling-deploy field differs, or there is no such block to compare it with. */
  predicate OffRolling(spec: Option<RollingConfig>, env: Option<RollingConfig>) {
    && spec.Some?
    && var c := spec.value;
       if env.None? then c.strategy.Some? || c.maxSurge.Some? || c.maxUnavailable.Some? || c.stabilization.Some?
       else
         var e := env.value;
         || OffText(c.strategy, e.strategy) || Off(c.maxSurge, IntOr0(e.maxSurge))
         || Off(c.maxUnavailable, IntOr0(e.maxUnavailable)) || Off(c.stabilization, IntOr0(e.stabilization))
  }

  /** A declared promotion setting differs; an environment without any counts as all unset. */
  predicate OffPromotion(spec: Option<PromotionConfig>, env: Option<PromotionConfig>) {
    && spec.Some?
    && var c := spec.value;
       var e := if env.Some? then env.value else PromotionConfig(None, None, None, None, None, None);
       || OffFlag(c.redeploy, e.redeploy) || OffFlag(c.rollingDeploy, e.rollingDeploy) || OffFlag(c.rampUp, e.rampUp)
       || Off(c.rampUpDuration, IntOr0(e.rampUpDuration)) || OffText(c.cleanupStrategy, e.cleanupStrategy)
       || OffRolling(c.rolling, e.rolling)
  }

  /** A schedule of the environment is in force and the spec manages schedules. */
  predicate ScheduleInForce(spec: EnvironmentConfig, env: Environment) {
    && spec.schedule.Some? && env.schedules.Some?
    && env.schedules.value.applied.Some? && env.schedules.value.applied.value.Some?
  }

  predicate OffBaseline(spec: EnvironmentConfig, env: Environment) {
    !ScheduleInForce(spec, env) && OffAutoscaling(spec.autoscaling, env.autoscaling)
  }

  ghost predicate OffSchedule(spec: EnvironmentConfig, env: Environment, now: Time) {
    && spec.schedule.Some?
    && !Agrees(spec.schedule.value,
               if env.schedules.Some? then env.schedules.value else AutoscalingSchedules(None, [], None), now)
  }

  predicate Unreadable(spec: EnvironmentConfig, env: Environment) {
    spec.schedule.Some? && env.schedulesUnreadable
  }

  /** Nothing of the environment needs a correction. */
  ghost predicate Settled(c: Context, env: Environment) {
    && !Unreadable(c.spec.environment, env)
    && !OffBaseline(c.spec.environment, env)
    && !OffPromotion(c.spec.environment.promotion, env.promotion)
    && !OffSchedule(c.spec.environment, env, c.replies.now)
  }

  /** The pass gets as far as the deployments of the environment. */
  ghost predicate Reaches(c: Context, st: Status, finalizer: bool, id: string, source: string, env: Environment) {
    && Acts(c, finalizer) && Knows(c, st, id) && WorksOn(c, st, source)
    && c.replies.environment == Ok(env) && Settled(c, env)
  }

  /* ---- what the status tells ---- */

  datatype Told = Told(
    code: StatusCode, replicas: int, modelID: string, resolved: Option<Time>, sourceID: string, sourceName: string,
    active: string, candidateID: string, candidateName: string)

  function What(st: Status): Told {
    Told(st.deploymentStatus, st.activeReplicaCount, st.modelID, st.modelIDResolvedTime, st.sourceDeploymentID,
         st.sourceDeploymentName, st.activeDeploymentName, st.candidateDeploymentID, st.candidateDeploymentName)
  }

  function Or(given: string, kept: string): string { if given != "" then given else kept }

  /** A report of this code and replica count about this model; what is not given is kept. */
  function Report(st: Status, code: StatusCode, replicas: int, id: string, now: Time): Told {
    What(st).(code := code, replicas := replicas, modelID := Or(id, st.modelID),
              resolved := if id != "" then Some(now) else st.modelIDResolvedTime)
  }
}
