/** Which mutating calls a pass makes, and why. */
module PassCalls {
  import opened Types
  import opened Names
  import opened Drift
  import opened Schedules
  import opened Baseten
  import opened Model
  import opened StatusUpdates
  import opened Steps

  /** The pass acts on Baseten: the resource is not going away, held the finalizer when read, and
      its effective mode is Reconcile. */
  predicate Acting(c: Context, finalizer: bool) {
    !c.deleting && finalizer && c.spec.EffectiveMode().ReconcileMode?
  }

  /** The source deployment a pass works for, when it gets that far. */
  ghost predicate WorksFor(c: Context, st: Status, source: string) {
    if c.spec.truss.None? then source == c.spec.sourceDeploymentName
    else
      && c.replies.setupScript.Some?
      && (if st.trussConfigHash == TrussHash(c) && st.pushStatus.PushDone? then source == st.sourceDeploymentName
          else source == TrussName(c) && c.replies.findBuilt.Ok? && c.replies.findBuilt.value.id != "")
  }

  /** The model ID a pass works with, "" when it finds none. */
  function ModelIdFor(c: Context, st: Status): string {
    if st.modelID != "" then st.modelID else if c.replies.findModel.Ok? then c.replies.findModel.value else ""
  }

  /** The environment as read, once its settings need no correction. */
  ghost predicate Undrifted(c: Context, env: Environment) {
    && c.replies.environment == Ok(env)
    && !(c.spec.environment.schedule.Some? && env.schedulesUnreadable)
    && !BaselineDrift(c.spec.environment, env)
    && !AnyPromotionDrift(c.spec.environment.promotion, env.promotion)
    && !ScheduleDrift(c.spec.environment, env, c.replies.now)
  }

  /** The pass found the model, its source and an environment that needs no correction. */
  ghost predicate Located(c: Context, st: Status, source: string, env: Environment) {
    ModelIdFor(c, st) != "" && WorksFor(c, st, source) && Undrifted(c, env)
  }

  ghost predicate PromoteDue(c: Context, st: Status, source: string, env: Environment, id: string) {
    && Located(c, st, source, env)
    && env.candidate.None? && !Matches(env.current, source)
    && c.replies.findSource.Ok? && c.replies.findSource.value.id == id && id != ""
    && SourceReady(c.replies.findSource.value.status)
  }

  /** An inactive deployment may be activated when it is the source's current one, or the source
      itself while nothing is being promoted. */
  ghost predicate ActivateDue(c: Context, st: Status, source: string, env: Environment, id: string) {
    && Located(c, st, source, env)
    && (|| (Matches(env.current, source) && env.current.value.status.Inactive? && env.current.value.id == id)
        || (env.candidate.None? && !Matches(env.current, source) &&
            c.replies.findSource.Ok? && c.replies.findSource.value == Found(id, Inactive) && id != ""))
  }

  ghost predicate RetryDue(c: Context, st: Status, source: string, env: Environment, id: string) {
    && Located(c, st, source, env) && !Matches(env.current, source)
    && id != ""
    && (|| (Matches(env.candidate, source) && env.candidate.value.status.RetryableFailure() &&
            id == (if env.candidate.value.id != "" then env.candidate.value.id else st.candidateDeploymentID) &&
            FreshStatus(c, env.candidate.value.status).RetryableFailure())
        || (env.candidate.None? && c.replies.findSource.Ok? && c.replies.findSource.value.id == id &&
            c.replies.findSource.value.status.RetryableFailure() &&
            FreshStatus(c, c.replies.findSource.value.status).RetryableFailure()))
  }

  ghost predicate PatchDue(c: Context, calls: seq<Call>) {
    && c.replies.environment.Ok?
    && var env := c.replies.environment.value;
       var a, p := BaselineDrift(c.spec.environment, env),
           AnyPromotionDrift(c.spec.environment.promotion, env.promotion);
       var s := ScheduleDrift(c.spec.environment, env, c.replies.now);
       && (a || p || s)
       && calls == (if a || p then [UpdateSettings(a, p)] else []) +
                   (if s && ((a || p) ==> c.replies.updateSettings.Ok?) then [UpdateSchedules] else [])
  }

  /** A push that would create the model needs a model never resolved, or a policy that allows it. */
  ghost predicate MayCreateModel(c: Context, st: Status) {
    st.modelID == "" && c.replies.findModel == Ok("")
        && !(c.spec.deletionPolicy.Deletes() && st.modelIDResolvedTime.Some?)
  }

  ghost predicate PushDue(c: Context, st: Status, name: string, createsModel: bool) {
    && c.spec.truss.Some? && c.replies.setupScript.Some? && c.replies.configGenerates && c.replies.pushSlotFree
    && name == TrussName(c)
    && !BackingOff(st, name, c.replies.now)
    && (PushIsCurrent(st, name) ==> PushIsStale(st, c.replies.now))
    && (if createsModel then MayCreateModel(c, st)
        else
          && ModelIdFor(c, st) != "" && !(st.trussConfigHash == TrussHash(c) && st.pushStatus.PushDone?)
          && c.replies.findBuilt.Ok? && c.replies.findBuilt.value.id == "")
  }

  /** Cleanup acts only in steady state, when it is due and both listings answered. */
  ghost predicate SweepDue(c: Context, st: Status, source: string, env: Environment, calls: seq<Call>) {
    && Located(c, st, source, env) && IsSteady(env, source)
    && CleanupDue(c, st) && c.replies.listDeployments.Ok? && c.replies.listEnvironments.Ok?
    && calls == CleanupCalls(c.replies.sweep)
  }

  /** Everything a pass may do to Baseten: nothing, or mutations of one kind, each with its reason. */
  ghost predicate Explained(c: Context, st: Status, finalizer: bool, calls: seq<Call>) {
    calls == [] ||
    if c.deleting then
      && calls == [DeleteModel(st.modelID)]
      && finalizer && DeletionDue(c, st)
      && (c.spec.deletionPolicy.DeleteWithGuardrails? ==> Idle(c.replies.listEnvironments))
    else
      && Acting(c, finalizer)
      && match calls[0]
         case CreateEnvironment => |calls| == 1 && c.replies.environment.NotFound?
         case UpdateSettings(_, _) => PatchDue(c, calls)
         case UpdateSchedules => PatchDue(c, calls)
         case Activate(id) => |calls| == 1 && exists source, env :: ActivateDue(c, st, source, env, id)
         case RetryDeployment(id) => |calls| == 1 && exists source, env :: RetryDue(c, st, source, env, id)
         case Promote(id) => |calls| == 1 && exists source, env :: PromoteDue(c, st, source, env, id)
         case Push(name, createsModel) => |calls| == 1 && PushDue(c, st, name, createsModel)
         case DeleteModel(_) => false
         case ScaleIn(_) => exists source, env :: SweepDue(c, st, source, env, calls)
         case DeleteDeployment(_) => exists source, env :: SweepDue(c, st, source, env, calls)
  }

  /* ---- step by step ---- */

  lemma UpdatesCallNothing(c: Context)
    ensures forall t, su: StatusUpdate :: UpdateStatus(c, t, su).calls == t.calls
  {
    hide Skipped, Updated;
  }

  lemma TryRetryCalls(c: Context, t: Trail, modelID: string, id: string, failed: StatusCode)
    ensures TryRetry(c, t, modelID, id, failed).trail.calls == t.calls ||
            (TryRetry(c, t, modelID, id, failed).trail.calls == t.calls + [RetryDeployment(id)] &&
             FreshStatus(c, failed).RetryableFailure())
  {
    hide UpdateStatus;
    UpdatesCallNothing(c);
  }

  lemma PushCalls(c: Context, t: Trail, modelID: string, configHash: string, name: string)
    requires t.calls == []
    ensures var calls := PushOrWait(c, t, modelID, configHash, name).0.calls;
      || calls == []
      || (&& calls == [Push(name, modelID == "")] && c.replies.configGenerates && c.replies.pushSlotFree
          && !BackingOff(t.status, name, c.replies.now)
          && (PushIsCurrent(t.status, name) ==> PushIsStale(t.status, c.replies.now)))
  {
    hide UpdateStatus;
    UpdatesCallNothing(c);
  }

  lemma TrussCalls(c: Context, t: Trail, modelID: string)
    requires c.spec.truss.Some? && t.calls == []
    requires if modelID == "" then MayCreateModel(c, t.status) else ModelIdFor(c, t.status) == modelID
    ensures var step := ReconcileTruss(c, t, modelID);
      && (step.Go? ==> step.trail.calls == [] && WorksFor(c, t.status, step.value))
      && (step.trail.calls == [] ||
          (&& c.replies.setupScript.Some? && step.trail.calls == [Push(TrussName(c), modelID == "")]
           && PushDue(c, t.status, TrussName(c), modelID == "")))
  {
    hide UpdateStatus, PushOrWait;
    UpdatesCallNothing(c);
    if c.replies.setupScript.Some? {
      PushCalls(c, t, modelID, TrussHash(c), TrussName(c));
    }
  }

  lemma EnvironmentCalls(c: Context, t: Trail, modelID: string)
    requires t.calls == []
    ensures var step := ReconcileEnvironment(c, t, modelID);
      if step.Go? then step.trail.calls == [] && Undrifted(c, step.value)
      else step.trail.calls == []
           || (step.trail.calls == [CreateEnvironment] && c.replies.environment.NotFound?)
           || (PatchDue(c, step.trail.calls) && step.trail.calls != [] &&
               (step.trail.calls[0].UpdateSettings? || step.trail.calls[0].UpdateSchedules?))
  {
    hide UpdateStatus, InSync, AnyDrift, AnyPromotionDrift;
    UpdatesCallNothing(c);
  }

  lemma ValidateCalls(c: Context, t: Trail, modelID: string, source: string, env: Environment)
    requires t.calls == []
    ensures var step := ValidateSource(c, t, modelID, source, env);
      && (step.Go? ==> step.trail.calls == [] && c.replies.findSource.Ok? && c.replies.findSource.value.id == step.value
                       && step.value != "" && SourceReady(c.replies.findSource.value.status))
      && (step.Stop? && step.trail.calls != [] ==>
           && c.replies.findSource.Ok? && c.replies.findSource.value.id != ""
           && var found := c.replies.findSource.value;
              || (step.trail.calls == [RetryDeployment(found.id)] && found.status.RetryableFailure()
                  && FreshStatus(c, found.status).RetryableFailure())
              || (step.trail.calls == [Activate(found.id)] && found.status.Inactive?))
  {
    hide UpdateStatus, TryRetry;
    UpdatesCallNothing(c);
    if c.replies.findSource.Ok? {
      TryRetryCalls(c, t, modelID, c.replies.findSource.value.id, c.replies.findSource.value.status);
    }
  }

  ghost predicate EnvironmentStage(c: Context, st: Status, source: string, env: Environment, calls: seq<Call>) {
    || calls == []
    || (|calls| == 1 && calls[0].Activate? && ActivateDue(c, st, source, env, calls[0].id))
    || (|calls| == 1 && calls[0].RetryDeployment? && RetryDue(c, st, source, env, calls[0].id))
    || (|calls| == 1 && calls[0].Promote? && PromoteDue(c, st, source, env, calls[0].id))
    || ((calls[0].ScaleIn? || calls[0].DeleteDeployment?) && SweepDue(c, st, source, env, calls))
  }

  lemma PromoteStageCalls(c: Context, st: Status, t: Trail, modelID: string, source: string, env: Environment)
    requires t.calls == [] && Located(c, st, source, env)
    requires !Matches(env.current, source) && !Matches(env.candidate, source)
    ensures EnvironmentStage(c, st, source, env, PromoteWhenReady(c, t, modelID, source, env).0.calls)
  {
    hide UpdateStatus, TryRetry, Undrifted, ValidateSource;
    UpdatesCallNothing(c);
    var guard := DoublePromoteGuard(c, t, env, modelID, source);
    if guard.Go? {
      assert env.candidate.None?;
      ValidateCalls(c, guard.trail, modelID, source, env);
    }
  }

  lemma UpdateKeeps(c: Context, t: Trail, su: StatusUpdate)
    ensures UpdateStatus(c, t, su).calls == t.calls
    ensures UpdateStatus(c, t, su).status.lastCleanupTime == t.status.lastCleanupTime
  {
    hide Skipped;
  }

  lemma SteadyCalls(c: Context, st: Status, t: Trail, modelID: string, source: string, env: Environment)
    requires t.calls == [] && Located(c, st, source, env) && IsSteady(env, source)
    requires t.status.lastCleanupTime == st.lastCleanupTime
    ensures EnvironmentStage(c, st, source, env, SteadyState(c, t, modelID, env).0.calls)
  {
    hide Updated, Skipped, UpdateStatus;
    UpdateKeeps(c, t, SteadyUpdate(t, modelID, env));
    assert [] + CleanupCalls(c.replies.sweep) == CleanupCalls(c.replies.sweep);
  }

  lemma WithEnvironmentCalls(c: Context, st: Status, t: Trail, modelID: string, source: string, env: Environment)
    requires t.calls == [] && Located(c, st, source, env)
    requires t.status.candidateDeploymentID == st.candidateDeploymentID
    requires t.status.lastCleanupTime == st.lastCleanupTime
    ensures EnvironmentStage(c, st, source, env, WithEnvironment(c, t, modelID, source, env).0.calls)
  {
    hide UpdateStatus, TryRetry, Undrifted, PromoteWhenReady, SteadyState;
    UpdatesCallNothing(c);
    if Matches(env.current, source) {
      if !env.current.value.status.Inactive? {
        SteadyCalls(c, st, t, modelID, source, env);
      }
    } else if Matches(env.candidate, source) {
      TryRetryCalls(c, t, modelID, CandidateIdToRetry(t, env.candidate.value), env.candidate.value.status);
    } else {
      PromoteStageCalls(c, st, t, modelID, source, env);
    }
  }

  lemma SourceCalls(c: Context, t: Trail, modelID: string)
    requires t.calls == []
    requires if modelID == "" then c.spec.truss.Some? ==> MayCreateModel(c, t.status)
        else ModelIdFor(c, t.status) == modelID
    ensures var step := ResolveSource(c, t, modelID);
      && (step.Go? ==> step.trail.calls == [] && WorksFor(c, t.status, step.value)
                       && step.trail.status.candidateDeploymentID == t.status.candidateDeploymentID
                       && step.trail.status.lastCleanupTime == t.status.lastCleanupTime)
      && (step.trail.calls == [] ||
          (|step.trail.calls| == 1 && step.trail.calls[0].Push? &&
           PushDue(c, t.status, step.trail.calls[0].name, step.trail.calls[0].createsModel)))
  {
    hide UpdateStatus, PushOrWait;
    UpdatesCallNothing(c);
    if c.spec.truss.Some? {
      TrussCalls(c, t, modelID);
    }
  }

  lemma ActiveCalls(c: Context, st: Status, finalizer: bool)
    requires Acting(c, finalizer)
    ensures Explained(c, st, finalizer, ReconcileActive(c, Start(st)).0.calls)
  {
    hide UpdateStatus, Undrifted, ReconcileTruss, WithEnvironment, ReconcileEnvironment, PushDue, PatchDue;
    UpdatesCallNothing(c);
    var t := Start(st);
    var resolved := ResolveModelID(c, t);
    if resolved.Go? {
      SourceCalls(c, t, resolved.value);
      var sourced := ResolveSource(c, t, resolved.value);
      if sourced.Go? && resolved.value != "" {
        EnvironmentCalls(c, sourced.trail, resolved.value);
        var env := ReconcileEnvironment(c, sourced.trail, resolved.value);
        if env.Go? {
          EnvironmentKeepsStatus(c, sourced.trail, resolved.value);
          WithEnvironmentCalls(c, st, env.trail, resolved.value, sourced.value, env.value);
        }
      }
    }
  }

  lemma EnvironmentKeepsStatus(c: Context, t: Trail, modelID: string)
    ensures ReconcileEnvironment(c, t, modelID).Go? ==> ReconcileEnvironment(c, t, modelID).trail == t
  {
    hide Updated, Skipped;
  }

  /** The mutating calls of any pass, on any status read and whatever the API answers. */
  lemma EveryCallIsExplained(c: Context, st: Status, finalizer: bool)
    ensures Explained(c, st, finalizer, Reconcile(c, st, finalizer).trail.calls)
  {
    hide Updated, Skipped, ReconcileActive;
    if Acting(c, finalizer) {
      ActiveCalls(c, st, finalizer);
    }
  }
}
