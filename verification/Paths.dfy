/** How a pass comes to each of its stages, from what it reads alone. */
module Paths {
  import opened Types
  import opened Names
  import opened Drift
  import opened Schedules
  import opened Baseten
  import opened Model
  import opened StatusUpdates
  import opened Steps
  import opened ScheduleFields
  import opened Facts

  /* ---- the words of the code and those of the facts ---- */

  lemma CalledIsMatched(d: Option<Deployment>, source: string)
    ensures Called(d, source) <==> Matches(d, source)
  {
    if d.Some? && source + "." <= d.value.name {
      var suffix := d.value.name[|source| + 1..];
      assert d.value.name == source + "." + suffix;
    }
  }

  lemma OffIsDrift(spec: EnvironmentConfig, env: Environment, now: Time)
    ensures OffBaseline(spec, env) <==> BaselineDrift(spec, env)
    ensures OffPromotion(spec.promotion, env.promotion) <==> AnyPromotionDrift(spec.promotion, env.promotion)
    ensures OffSchedule(spec, env, now) <==> ScheduleDrift(spec, env, now)
  {
    PromotionOff(spec.promotion, env.promotion);
    if spec.schedule.Some? {
      AgreesExactlyInSync(spec.schedule.value, OrNone(env.schedules), now);
    }
    hide InSync, Agrees, OffPromotion, AnyPromotionDrift;
  }

  lemma RollingOff(c: PromotionConfig, e: PromotionConfig)
    ensures OffRolling(c.rolling, e.rolling) <==> AnyRollingDrift(c, e)
  {
  }

  lemma PromotionOff(spec: Option<PromotionConfig>, env: Option<PromotionConfig>)
    ensures OffPromotion(spec, env) <==> AnyPromotionDrift(spec, env)
  {
    if spec.Some? {
      RollingOff(spec.value, OrEmpty(env));
      DriftSpelledOut(spec.value, OrEmpty(env));
      hide PromotionDrifted, OffRolling;
    }
  }

  /* ---- reports ---- */

  /** What an update leaves told. */
  function Telling(st: Status, su: StatusUpdate, now: Time): Told {
    Report(st, su.deploymentStatus, su.replicaCount, su.modelID, now).(
      sourceID := Or(su.sourceDeploymentID, st.sourceDeploymentID),
      sourceName := Or(su.sourceDeploymentName, st.sourceDeploymentName),
      active := Or(su.activeDeploymentName, st.activeDeploymentName),
      candidateID := if su.clearCandidate then "" else Or(su.candidateDeploymentID, st.candidateDeploymentID),
      candidateName := if su.clearCandidate then "" else Or(su.candidateDeploymentName, st.candidateDeploymentName))
  }

  lemma UpdatesTell(c: Context)
    ensures forall t, su: StatusUpdate ::
      What(UpdateStatus(c, t, su).status) == Telling(t.status, su, c.replies.now)
    ensures forall t, su: StatusUpdate :: UpdateStatus(c, t, su).calls == t.calls
  {
    hide Skipped, Conditions;
  }

  /* ---- stages ---- */

  lemma ActsOn(c: Context, st: Status, finalizer: bool)
    requires Acts(c, finalizer)
    ensures Reconcile(c, st, finalizer) ==
      var (t, v) := ReconcileActive(c, Start(st)); Outcome(t, v, true)
  {
    hide ReconcileActive;
  }

  /** The model ID is known, or there is a configuration to create the model from. */
  predicate ModelStage(c: Context, st: Status, id: string) {
    || Knows(c, st, id)
    || (&& id == "" && st.modelID == "" && c.replies.findModel == Ok("") && c.spec.truss.Some?
        && !(MayDelete(c.spec.deletionPolicy) && st.modelIDResolvedTime.Some?))
  }

  lemma ModelFound(c: Context, st: Status, id: string)
    requires ModelStage(c, st, id)
    ensures ResolveModelID(c, Start(st)) == Go(Start(st), id)
  {
    hide UpdateStatus;
  }

  lemma SourceFound(c: Context, st: Status, id: string, source: string)
    requires id != "" && WorksOn(c, st, source)
    ensures ResolveSource(c, Start(st), id) == Go(AtSource(c, st), source)
  {
    hide UpdateStatus, PushOrWait, DeploymentName;
  }

  lemma EnvironmentFound(c: Context, t: Trail, id: string, env: Environment)
    requires c.replies.environment == Ok(env) && Settled(c, env)
    ensures ReconcileEnvironment(c, t, id) == Go(t, env)
  {
    OffIsDrift(c.spec.environment, env, c.replies.now);
    hide UpdateStatus, BaselineDrift, AnyPromotionDrift, ScheduleDrift, OffBaseline, OffPromotion, OffSchedule;
  }

  /** The pass has its model and its source and goes on to the environment. */
  ghost predicate AtEnvironment(c: Context, st: Status, finalizer: bool, id: string, source: string) {
    Acts(c, finalizer) && Knows(c, st, id) && WorksOn(c, st, source)
  }

  lemma GetsToSource(c: Context, st: Status, finalizer: bool, id: string)
    requires Acts(c, finalizer) && ModelStage(c, st, id)
    ensures var step := ResolveSource(c, Start(st), id);
      Reconcile(c, st, finalizer) ==
        if step.Stop? then (var (t, v) := Conclude(step.trail, step.verdict); Outcome(t, v, true))
        else if id == "" then Outcome(step.trail, Requeue(10 * SECOND), true)
        else
          var next := ReconcileEnvironment(c, step.trail, id);
          if next.Stop? then (var (t, v) := Conclude(next.trail, next.verdict); Outcome(t, v, true))
          else var (t, v) := WithEnvironment(c, next.trail, id, step.value, next.value); Outcome(t, v, true)
  {
    ActsOn(c, st, finalizer);
    ModelFound(c, st, id);
    hide Reconcile, ResolveModelID, ResolveSource, ReconcileEnvironment, WithEnvironment, Conclude;
  }

  lemma GetsToEnvironment(c: Context, st: Status, finalizer: bool, id: string, source: string)
    requires AtEnvironment(c, st, finalizer, id, source)
    ensures var step := ReconcileEnvironment(c, AtSource(c, st), id);
      Reconcile(c, st, finalizer) ==
        if step.Stop? then (var (t, v) := Conclude(step.trail, step.verdict); Outcome(t, v, true))
        else var (t, v) := WithEnvironment(c, step.trail, id, source, step.value); Outcome(t, v, true)
  {
    GetsToSource(c, st, finalizer, id);
    SourceFound(c, st, id, source);
    hide Reconcile, ResolveSource, ReconcileEnvironment, WithEnvironment, Conclude, WorksOn;
  }

  lemma GetsToDeployments(c: Context, st: Status, finalizer: bool, id: string, source: string, env: Environment)
    requires Reaches(c, st, finalizer, id, source, env)
    ensures Reconcile(c, st, finalizer) ==
      var (t, v) := WithEnvironment(c, AtSource(c, st), id, source, env); Outcome(t, v, true)
  {
    GetsToEnvironment(c, st, finalizer, id, source);
    EnvironmentFound(c, AtSource(c, st), id, env);
    hide Reconcile, ReconcileEnvironment, WithEnvironment, Conclude, WorksOn, Settled;
  }
}
