/** What a pass comes to before it reaches the environment: calls, verdict and report, in terms of
    what it reads. */
module Answers {
  import opened Types
  import opened Names
  import opened Drift
  import opened Schedules
  import opened Baseten
  import opened Model
  import opened StatusUpdates
  import opened Steps
  import opened Facts
  import opened Paths

  /* ---- deletion ---- */

  /** The operator owes Baseten the deletion of the model it has cached. */
  predicate Owed(c: Context, st: Status, finalizer: bool) {
    finalizer && Reconciles(c.spec) && MayDelete(c.spec.deletionPolicy) && st.modelID != ""
  }

  /** Neither configured to serve nor serving, by its current deployment or its candidate. */
  predicate Still(env: Environment) {
    && (env.autoscaling.Some? ==> env.autoscaling.value.minReplica <= 0)
    && (env.current.Some? ==> env.current.value.replicas <= 0)
    && (env.candidate.Some? ==> env.candidate.value.replicas <= 0)
  }

  /** Guardrails let a deletion pass if every listed environment is still, or the model is gone. */
  predicate Allowed(c: Context) {
    c.spec.deletionPolicy == DeleteWithGuardrails ==>
      match c.replies.listEnvironments
      case Ok(envs) => forall env :: env in envs ==> Still(env)
      case NotFound => true
      case Failure => false
  }

  lemma StillIsIdle(c: Context)
    ensures Allowed(c) <==> (c.spec.deletionPolicy.DeleteWithGuardrails? ==> Idle(c.replies.listEnvironments))
  {
    forall env ensures Still(env) <==> !Blocking(env) {
    }
  }

  /** Deletion: the model is deleted exactly when that is owed and allowed; the finalizer stays
      exactly when it is owed and not allowed, or not done. */
  lemma DeletionAnswers(c: Context, st: Status, finalizer: bool)
    requires c.deleting
    ensures var o, owed := Reconcile(c, st, finalizer), Owed(c, st, finalizer);
      && o.trail.calls == (if owed && Allowed(c) then [DeleteModel(st.modelID)] else [])
      && (o.finalizer <==> owed && (!Allowed(c) || c.replies.deleteModel.Failure?))
      && o.verdict == (if o.finalizer then Requeue(30 * NS_SECOND)
                       else if !finalizer || c.replies.metaWrite in {MetaWritten, MetaNotFound} then Quiet
                       else Fail(OtherError))
      && What(o.trail.status) ==
           if !owed then What(st)
           else Report(st, if !Allowed(c) then DeleteBlocked
                           else if c.replies.deleteModel.Failure? then DeleteFailed else Deleting,
                       0, st.modelID, c.replies.now)
  {
    StillIsIdle(c);
    UpdatesTell(c);
    hide UpdateStatus, Idle, Allowed;
  }

  /* ---- pause and finalizer ---- */

  /** A paused object is reported as such, with its last message once; one without a finalizer gets
      it, and nothing else happens. */
  lemma PreludeAnswers(c: Context, st: Status, finalizer: bool)
    requires !c.deleting
    ensures var o := Reconcile(c, st, finalizer);
      && (Pauses(c.spec) ==>
            && o.trail.calls == [] && o.verdict == Quiet && o.finalizer == finalizer
            && What(o.trail.status) == Report(st, Paused, 0, "", c.replies.now)
            && o.trail.status.message == if st.message.PausedOver? then st.message else PausedOver(st.message))
      && (!Pauses(c.spec) && !finalizer ==>
            && o.trail == Trail(st, [], [], None) && o.finalizer
            && o.verdict == if c.replies.metaWrite in {MetaWritten, MetaConflict} then Quiet else Fail(OtherError))
      && (!Pauses(c.spec) && finalizer ==> o.finalizer)
  {
    UpdatesTell(c);
    hide ReconcileActive, ReconcileObserve, Skipped, Conditions;
  }

  /* ---- observing ---- */

  /** The name the declaration stands for, by itself. */
  predicate Expects(c: Context, source: string) {
    if c.spec.sourceDeploymentName != "" then source == c.spec.sourceDeploymentName
    else HasConfig(c) && source == NameFor(c)
  }

  /** What observing tells of an environment. */
  ghost predicate ToldObserved(c: Context, st: Status, id: string, source: string, env: Environment, told: Told) {
    var now := c.replies.now;
    if Called(env.current, source) then
      told == Report(st, env.current.value.status, env.current.value.replicas, id, now).(
        active := Or(env.current.value.name, st.activeDeploymentName), candidateID := "", candidateName := "")
    else if Called(env.candidate, source) then
      told == Report(st, env.candidate.value.status, env.candidate.value.replicas, id, now).(
        active := Or(NameIn(env.current), st.activeDeploymentName),
        candidateName := Or(env.candidate.value.name, st.candidateDeploymentName))
    else
      told == Report(st, Pending, if env.current.Some? then env.current.value.replicas else 0, id, now).(
        active := Or(NameIn(env.current), st.activeDeploymentName))
  }

  /** Observing an environment reports what is there, and tells of drift exactly when there is any. */
  lemma ObserveAnswers(c: Context, st: Status, id: string, source: string, env: Environment)
    requires !c.deleting && Observes(c.spec) && Knows(c, st, id) && Expects(c, source)
    requires c.replies.environment == Ok(env)
    ensures var o := Reconcile(c, st, true);
      && o.trail.calls == []
      && o.verdict == (if o.trail.writes == [] || c.replies.observedWritten then Requeue(30 * NS_SECOND)
                       else Fail(OtherError))
      && ToldObserved(c, st, id, source, env, What(o.trail.status))
      && (Called(env.current, source) ==>
            (o.trail.status.message == Note("active | drift", env.current, None) <==>
             !Settled(c, env)))
      && RetryKept(st, o.trail.status)
  {
    ObserveReached(c, st, id, source, env);
    var su := ObservedUpdate(env, source, id, ObservedDrift(c, env));
    UpdateObserved(c, st, id, source, env);
    SkipWritesNothing(c, Start(st), su);
    hide Reconcile, ObservedUpdate, ObservedDrift, UpdateStatus, Settled, Called, What, ToldObserved, Skipped, Knows,
      Expects, RetryKept;
  }

  lemma ObserveReached(c: Context, st: Status, id: string, source: string, env: Environment)
    requires !c.deleting && Observes(c.spec) && Knows(c, st, id) && Expects(c, source)
    requires c.replies.environment == Ok(env)
    ensures var su := ObservedUpdate(env, source, id, ObservedDrift(c, env));
      Reconcile(c, st, true) ==
        Outcome(UpdateStatus(c, Start(st), su),
                if UpdateWentThrough(c, Start(st), su, c.replies.observedWritten) then Requeue(30 * SECOND)
                else Fail(OtherError), true)
  {
    assert ExpectedSource(c) == Some(source) by { hide DeploymentName; }
    hide UpdateStatus, ObservedUpdate, ObservedDrift, ExpectedSource, Expects, ReconcileActive, Skipped;
  }

  lemma UpdateObserved(c: Context, st: Status, id: string, source: string, env: Environment)
    requires c.replies.environment == Ok(env)
    ensures var t := UpdateStatus(c, Start(st), ObservedUpdate(env, source, id, ObservedDrift(c, env)));
      && t.calls == []
      && ToldObserved(c, st, id, source, env, What(t.status))
      && (Called(env.current, source) ==>
            (t.status.message == Note("active | drift", env.current, None) <==> !Settled(c, env)))
      && RetryKept(st, t.status)
  {
    UpdatesTell(c);
    HealthClearsRetry(c, Start(st), ObservedUpdate(env, source, id, ObservedDrift(c, env)));
    CalledIsMatched(env.current, source);
    CalledIsMatched(env.candidate, source);
    OffIsDrift(c.spec.environment, env, c.replies.now);
    MessageTold(c, Start(st), ObservedUpdate(env, source, id, ObservedDrift(c, env)));
    hide UpdateStatus, BaselineDrift, AnyPromotionDrift, ScheduleDrift, OffBaseline, OffPromotion, OffSchedule, Matches,
      Called, RetryKept;
  }

  /** A report that the deployment serves ends the history of failures; any other keeps it. */
  predicate RetryKept(before: Status, after: Status) {
    if Serving(after.deploymentStatus)
    then after.firstFailureTime.None? && after.retryCount == 0 && after.nextRetryTime.None?
    else after.firstFailureTime == before.firstFailureTime && after.retryCount == before.retryCount
         && after.nextRetryTime == before.nextRetryTime
  }

  lemma HealthClearsRetry(c: Context, t: Trail, su: StatusUpdate)
    requires su.firstFailureTime.None?
    ensures RetryKept(t.status, UpdateStatus(c, t, su).status)
  {
    hide Skipped, Conditions;
  }

  lemma MessageTold(c: Context, t: Trail, su: StatusUpdate)
    ensures UpdateStatus(c, t, su).status.message == su.message
  {
    hide Skipped, Conditions;
  }

  lemma SkipWritesNothing(c: Context, t: Trail, su: StatusUpdate)
    ensures UpdateStatus(c, t, su).writes == t.writes <==> Skipped(t.status, su, c.generation, c.replies.now)
  {
    hide Skipped, Updated;
  }

  /** Short of an environment, observing reports a failure and looks again in half a minute, except
      that an environment that cannot be read is an error of the pass. */
  lemma ObserveFails(c: Context, st: Status, id: string)
    requires !c.deleting && Observes(c.spec)
    requires if id == "" then st.modelID == "" && (c.replies.findModel.Ok? ==> c.replies.findModel.value == "")
             else Knows(c, st, id)
    requires id != "" && (c.spec.sourceDeploymentName != "" || HasConfig(c)) ==> !c.replies.environment.Ok?
    ensures var o := Reconcile(c, st, true);
      && o.trail.calls == []
      && if id != "" && (c.spec.sourceDeploymentName != "" || HasConfig(c)) && c.replies.environment.Failure?
         then o.verdict == Fail(OtherError) && What(o.trail.status) == What(st)
         else o.verdict == Requeue(30 * NS_SECOND) && What(o.trail.status) == Report(st, Failed, 0, id, c.replies.now)
  {
    UpdatesTell(c);
    hide UpdateStatus, DeploymentName, ObservedUpdate;
  }

  /* ---- the model ---- */

  /** Without a model and without leave to create one, a pass reports a failure. */
  lemma ModelAnswers(c: Context, st: Status)
    requires Acts(c, true) && forall id :: !ModelStage(c, st, id)
    ensures var o := Reconcile(c, st, true);
      && o.trail.calls == [] && What(o.trail.status) == Report(st, Failed, 0, "", c.replies.now)
      && o.verdict ==
           match c.replies.findModel
           case NotFound => Fail(Missing)
           case Failure => Fail(OtherError)
           case Ok(_) =>
             if MayDelete(c.spec.deletionPolicy) && st.modelIDResolvedTime.Some? then Requeue(5 * NS_MINUTE)
             else Fail(OtherError)
  {
    ActsOn(c, st, true);
    UpdatesTell(c);
    assert !ModelStage(c, st, st.modelID) && !ModelStage(c, st, "");
    assert c.replies.findModel.Ok? ==> !ModelStage(c, st, c.replies.findModel.value);
    hide UpdateStatus, ResolveSource, ReconcileEnvironment, Reconcile;
  }

  /* ---- the push ---- */

  /** A push of this name is in flight, and not for more than five minutes. */
  predicate InFlight(c: Context, st: Status, name: string) {
    && st.pushStatus == Pushing && st.sourceDeploymentName == name
    && (st.pushTime.None? || c.replies.now - st.pushTime.value <= 5 * NS_MINUTE)
  }

  /** A push of this name failed, and its waiting time is not over. */
  predicate Held(c: Context, st: Status, name: string) {
    && st.pushStatus == PushFailed && st.sourceDeploymentName == name
    && st.pushNextRetryTime.Some? && c.replies.now < st.pushNextRetryTime.value
  }

  /** Nothing has been built yet for the configuration. */
  predicate Unbuilt(c: Context, st: Status, id: string) {
    HasConfig(c) && (id != "" ==> !IsPushed(c, st) && c.replies.findBuilt.Ok? && c.replies.findBuilt.value.id == "")
  }

  predicate Pushes(c: Context, st: Status) {
    HasConfig(c) && !InFlight(c, st, NameFor(c)) && !Held(c, st, NameFor(c)) && c.replies.configGenerates
  }

  lemma StartPushAnswers(c: Context, t: Trail, id: string)
    requires HasConfig(c) && t.calls == []
    ensures var (t', v) := StartPush(c, t, id, HashOf(c), NameFor(c));
      && v == Requeue(10 * NS_SECOND)
      && t'.calls == (if c.replies.pushSlotFree then [Push(NameFor(c), id == "")] else [])
      && What(t'.status) ==
           if c.replies.pushSlotFree
           then Report(t.status, Deploying, 0, id, c.replies.now).(sourceName := NameFor(c))
           else Report(t.status, Pending, 0, id, c.replies.now).(sourceName := "")
  {
    UpdatesTell(c);
    hide UpdateStatus, DeploymentName;
  }

  lemma ReadyAnswers(c: Context, t: Trail, name: string)
    ensures var ready := ReadyToPush(t, name, c.replies.now);
      && ready.calls == t.calls
      && forall code, id ::
          Report(ready.status, code, 0, id, c.replies.now) == Report(t.status, code, 0, id, c.replies.now)
  {
  }

  /** An update of code, message and model ID alone. */
  lemma PlainUpdatesReport(c: Context)
    ensures forall t, code, message, id ::
      What(UpdateStatus(c, t, Update(code, message, id)).status) == Report(t.status, code, 0, id, c.replies.now)
    ensures forall t, code, message, id ::
      id != "" ==> UpdateStatus(c, t, Update(code, message, id)).status.modelID == id
    ensures forall t, su: StatusUpdate :: UpdateStatus(c, t, su).calls == t.calls
  {
    UpdatesTell(c);
    hide UpdateStatus;
    forall t, code, message, id
      ensures id != "" ==> UpdateStatus(c, t, Update(code, message, id)).status.modelID == id
    {
      assert What(UpdateStatus(c, t, Update(code, message, id)).status) == Report(t.status, code, 0, id, c.replies.now);
    }
  }

  lemma GuardsAgree(c: Context, st: Status, name: string)
    ensures InFlight(c, st, name) <==> PushIsCurrent(st, name) && !PushIsStale(st, c.replies.now)
    ensures Held(c, st, name) <==> BackingOff(st, name, c.replies.now)
    ensures !(InFlight(c, st, name) && Held(c, st, name))
  {
  }

  /** The stage when no push goes out. */
  lemma NoPushStage(c: Context, st: Status, id: string)
    requires HasConfig(c) && !Pushes(c, st)
    ensures var name := NameFor(c);
      var (t, v) := PushOrWait(c, Start(st), id, HashOf(c), name);
      && t.calls == []
      && v == (if InFlight(c, st, name) then Requeue(10 * NS_SECOND)
               else if Held(c, st, name) then Requeue(st.pushNextRetryTime.value - c.replies.now)
               else Fail(OtherError))
      && What(t.status) == Report(st, if InFlight(c, st, name) then Deploying else Failed, 0, id, c.replies.now)
  {
    var name := NameFor(c);
    GuardsAgree(c, st, name);
    hide UpdateStatus, StartPush, DeploymentName, ReadyToPush, NameFor, HashOf, What, Report, InFlight, Held,
      PushIsCurrent, PushIsStale, BackingOff, Say, Update;
    PlainUpdatesReport(c);
    ReadyAnswers(c, Start(st), name);
  }

  lemma PushStage(c: Context, st: Status, id: string)
    requires HasConfig(c) && Pushes(c, st)
    ensures PushOrWait(c, Start(st), id, HashOf(c), NameFor(c)) ==
      StartPush(c, ReadyToPush(Start(st), NameFor(c), c.replies.now), id, HashOf(c), NameFor(c))
  {
    GuardsAgree(c, st, NameFor(c));
    hide UpdateStatus, StartPush, DeploymentName, ReadyToPush, NameFor, HashOf, InFlight, Held, PushIsCurrent,
      PushIsStale, BackingOff;
  }

  lemma PushStageAnswers(c: Context, st: Status, id: string)
    requires HasConfig(c)
    ensures var (t, v) := PushOrWait(c, Start(st), id, HashOf(c), NameFor(c));
      PushTold(c, st, id, Outcome(t, v, true))
  {
    var name := NameFor(c);
    GuardsAgree(c, st, name);
    assert Pushes(c, st) ==> !InFlight(c, st, name) && !Held(c, st, name);
    hide UpdateStatus, StartPush, ReadyToPush, NameFor, HashOf, What, Report, InFlight, Held, Pushes, PushOrWait;
    if Pushes(c, st) {
      PushStage(c, st, id);
      ReadyAnswers(c, Start(st), name);
      StartPushAnswers(c, ReadyToPush(Start(st), name, c.replies.now), id);
    } else {
      NoPushStage(c, st, id);
    }
  }

  ghost predicate PushTold(c: Context, st: Status, id: string, o: Outcome)
    requires HasConfig(c)
  {
    var name, now := NameFor(c), c.replies.now;
    && o.trail.calls == (if Pushes(c, st) && c.replies.pushSlotFree then [Push(name, id == "")] else [])
    && o.verdict == (if Held(c, st, name) then Requeue(st.pushNextRetryTime.value - now)
                     else if InFlight(c, st, name) || Pushes(c, st) then Requeue(10 * NS_SECOND)
                     else Fail(OtherError))
    && What(o.trail.status) ==
         (if InFlight(c, st, name) then Report(st, Deploying, 0, id, now)
          else if !Pushes(c, st) then Report(st, Failed, 0, id, now)
          else if c.replies.pushSlotFree then Report(st, Deploying, 0, id, now).(sourceName := name)
          else Report(st, Pending, 0, id, now).(sourceName := ""))
  }

  /** Pushing: one goes out exactly when nothing is built, in flight or held back, the configuration
      can be written and there is a slot; it creates the model exactly when there is none. */
  lemma PushAnswers(c: Context, st: Status, id: string)
    requires Acts(c, true) && ModelStage(c, st, id) && c.spec.truss.Some? && Unbuilt(c, st, id)
    ensures PushTold(c, st, id, Reconcile(c, st, true))
  {
    GetsToSource(c, st, true, id);
    PushStageAnswers(c, st, id);
    var (t, v) := PushOrWait(c, Start(st), id, HashOf(c), NameFor(c));
    assert ResolveSource(c, Start(st), id) == Stop(t, v) by { hide PushOrWait, DeploymentName; }
    hide UpdateStatus, Reconcile, ReconcileEnvironment, WithEnvironment, DeploymentName, PushOrWait, ResolveSource,
      InFlight, Held, Pushes;
  }

  /** Before that: an unreadable setup script is a failure; so is a lookup of the deployment that
      fails, and a 404 there forgets the model ID for a second look. */
  lemma LookupAnswers(c: Context, st: Status, id: string)
    requires Acts(c, true) && ModelStage(c, st, id) && c.spec.truss.Some?
    requires c.replies.setupScript.Some? ==> id != "" && !IsPushed(c, st) && !c.replies.findBuilt.Ok?
    ensures var o, now := Reconcile(c, st, true), c.replies.now;
      && o.trail.calls == []
      && if c.replies.setupScript.None? then
           o.verdict == Fail(OtherError) && What(o.trail.status) == Report(st, Failed, 0, id, now)
         else Ends(o, c.replies.findBuilt.NotFound?, Report(st, Pending, 0, id, now))
  {
    GetsToSource(c, st, true, id);
    UpdatesTell(c);
    hide UpdateStatus, Reconcile, ReconcileEnvironment, WithEnvironment, PushOrWait, DeploymentName;
  }

  /** An error ends the pass with this report; a 404 forgets the model ID, keeps its time, and stores
      that for a second look. */
  predicate Ends(o: Outcome, missing: bool, told: Told) {
    && o.verdict == (if missing then Requeue(NS_SECOND) else Fail(OtherError))
    && What(o.trail.status) == (if missing then told.(modelID := "") else told)
    && (missing ==> o.trail.writes != [] && o.trail.writes[|o.trail.writes| - 1] == o.trail.status)
  }
}
