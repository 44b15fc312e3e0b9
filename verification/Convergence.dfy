/** Passes and the backend's own progress bring a resource to rest, by a rank that both lower. */
module Convergence {
  import opened Types
  import opened Names
  import opened Drift
  import opened Schedules
  import opened SchedulePatch
  import opened ScheduleFixpoint
  import opened Baseten
  import opened Model
  import opened StatusUpdates
  import opened Backoff
  import opened Steps
  import opened PassCalls
  import opened Backend
  import Facts
  import Paths
  import StageAnswers
  import Verdicts

  /** What Baseten holds for one resource: its environment, and the deployment to be promoted. */
  datatype Site = Site(environment: Option<Environment>, source: Deployment)

  /* ---- the setting: a fixed spec, truthful answers, nobody else ---- */

  /** Active reconciliation of a named source, with cleanup off. */
  predicate Settled(spec: Spec) {
    && spec.EffectiveMode().ReconcileMode? && spec.truss.None? && spec.cleanup.None?
    && (spec.environment.schedule.Some? ==> SpecNamesDistinct(spec.environment.schedule.value.schedules))
  }

  /** Promoting copies a deployment, so ids differ; schedule ids are unique and readable. */
  predicate Sane(b: Site) {
    && b.source.id != "" && !b.source.status.Blank?
    && (b.environment.Some? ==>
          var env := b.environment.value;
          && (env.current.Some? ==> env.current.value.id != b.source.id)
          && (env.candidate.Some? ==>
                env.candidate.value.id !in {"", b.source.id} && !env.candidate.value.status.Blank?)
          && !env.schedulesUnreadable && IdsDistinct(OrNone(env.schedules).schedules))
  }

  /** Every call succeeds and tells the truth. */
  predicate Sees(c: Context, b: Site) {
    var r := c.replies;
    && r.environment == (if b.environment.Some? then Ok(b.environment.value) else NotFound)
    && r.findSource == Ok(Found(b.source.id, b.source.status))
    && r.findFresh.Ok?
    && r.findFresh.value.status ==
         (if b.environment.Some? && Matches(b.environment.value.candidate, c.spec.sourceDeploymentName)
          then b.environment.value.candidate.value.status else b.source.status)
    && r.createEnvironment.Ok? && r.updateSettings.Ok? && r.updateSchedules.Ok?
    && r.activateCurrent.Ok? && r.activateSource.Ok? && r.promote.Ok?
    && r.retry == Ok(RetryResponse(true))
  }

  /** A pass of the operator in this setting. */
  predicate Pass(c: Context, st: Status, spec: Spec, b: Site) {
    c.spec == spec && !c.deleting && ModelIdFor(c, st) != "" && Settled(spec) && Sane(b) && Sees(c, b)
  }

  ghost function Calls(c: Context, st: Status): seq<Call> {
    Reconcile(c, st, true).trail.calls
  }

  /* ---- what the calls do ---- */

  function Turned(d: Option<Deployment>, id: string, status: StatusCode): Option<Deployment> {
    if d.Some? && d.value.id == id then Some(d.value.(status := status)) else d
  }

  function SourceTurned(d: Deployment, id: string, status: StatusCode): Deployment {
    if d.id == id then d.(status := status) else d
  }

  /** The schedules a successful patch leaves behind. */
  ghost predicate Delivered(spec: ScheduleConfig, observed: AutoscalingSchedules, now: Time,
                            after: AutoscalingSchedules) {
    exists p, store, newId ::
      && CarriesDifference(p, spec, observed, now) && Echoes(store)
      && after.timezone == ApplyPatch(observed, p, store, newId).timezone
      && multiset(after.schedules) == multiset(ApplyPatch(observed, p, store, newId).schedules)
  }

  ghost predicate Patched(spec: EnvironmentConfig, env: Environment, now: Time, calls: seq<Call>, env': Environment) {
    && env'.current == env.current && env'.candidate == env.candidate
    && env'.autoscaling == (if UpdateSettings(true, false) in calls || UpdateSettings(true, true) in calls
                            then MergedAutoscaling(spec, env) else env.autoscaling)
    && env'.promotion == (if UpdateSettings(false, true) in calls || UpdateSettings(true, true) in calls
                          then Some(MergePromotion(OrEmpty(env.promotion), PromotionPatch(spec.promotion)))
                          else env.promotion)
    && (if UpdateSchedules in calls
        then env'.schedules.Some? && (spec.schedule.Some? ==>
               Delivered(spec.schedule.value, OrNone(env.schedules), now, env'.schedules.value))
        else env'.schedules == env.schedules)
  }

  function MergedAutoscaling(spec: EnvironmentConfig, env: Environment): Option<AutoscalingSettings> {
    if env.autoscaling.Some? then Some(MergeAutoscaling(env.autoscaling.value, AutoscalingPatch(spec.autoscaling)))
    else None
  }

  /** The site after the calls of one pass. */
  ghost predicate Effect(c: Context, b: Site, calls: seq<Call>, b': Site) {
    if calls == [] then b' == b
    else if calls[0].CreateEnvironment? then
      && b'.source == b.source && b'.environment.Some?
      && b'.environment.value.current.None? && b'.environment.value.candidate.None?
    else if b.environment.None? then b' == b
    else
      var env := b.environment.value;
      match calls[0]
      case Activate(id) =>
        b' == Site(Some(env.(current := Turned(env.current, id, Activating))), SourceTurned(b.source, id, Activating))
      case RetryDeployment(id) =>
        b' == Site(Some(env.(candidate := Turned(env.candidate, id, Building))), SourceTurned(b.source, id, Building))
      case Promote(_) =>
        && b'.source == b.source && b'.environment.Some?
        && b'.environment.value == env.(candidate := b'.environment.value.candidate)
        && Matches(b'.environment.value.candidate, c.spec.sourceDeploymentName)
      case _ =>
        && b'.source == b.source && b'.environment.Some?
        && Patched(c.spec.environment, env, c.replies.now, calls, b'.environment.value)
  }

  /* ---- the rank ---- */

  predicate NeedsSource(source: string, env: Environment) {
    !Matches(env.candidate, source) && (!Matches(env.current, source) || env.candidate.Some?)
  }

  function SourceRank(s: StatusCode): nat {
    if SourceReady(s) then 1 else if s.Inactive? then 3 else if s.RetryableFailure() then 4 else 2
  }

  function CurrentRank(source: string, env: Environment): nat {
    if !Matches(env.current, source) || env.current.value.status.Healthy() then 0
    else if env.current.value.status.Inactive? then 2 else 1
  }

  function CandidateRank(source: string, env: Environment): nat {
    if env.candidate.None? then 0
    else if !Matches(env.candidate, source) then 40
    else if env.candidate.value.status.RetryableFailure() then 5 else 4
  }

  function Stage(source: string, env: Environment, s: StatusCode): nat {
    CandidateRank(source, env) + CurrentRank(source, env) + if NeedsSource(source, env) then 10 + SourceRank(s) else 0
  }

  ghost function SettingsRank(spec: EnvironmentConfig, env: Environment, now: Time): nat {
    (if AnyDrift(spec.autoscaling, env.autoscaling) then 1 else 0) +
    (if AnyPromotionDrift(spec.promotion, env.promotion) then 1 else 0) +
    (if ScheduleDrift(spec, env, now) then 1 else 0)
  }

  /** A missing environment weighs most, then settings, then the way of the source to the
      environment; 0 is rest. */
  ghost function Rank(spec: Spec, b: Site, now: Time): nat {
    if b.environment.None? then 1000
    else 100 * SettingsRank(spec.environment, b.environment.value, now)
         + Stage(spec.sourceDeploymentName, b.environment.value, b.source.status)
  }

  /** The environment is as declared, with the source serving in it and nothing pending. */
  ghost predicate AtRest(spec: Spec, b: Site, now: Time) {
    && b.environment.Some?
    && var env := b.environment.value;
       && !AnyDrift(spec.environment.autoscaling, env.autoscaling)
       && !AnyPromotionDrift(spec.environment.promotion, env.promotion)
       && !ScheduleDrift(spec.environment, env, now)
       && env.candidate.None?
       && Matches(env.current, spec.sourceDeploymentName) && env.current.value.status.Healthy()
  }

  lemma RankZeroIsRest(spec: Spec, b: Site, now: Time)
    ensures Rank(spec, b, now) == 0 <==> AtRest(spec, b, now)
  {
    hide ScheduleDrift, AnyDrift, AnyPromotionDrift;
  }

  /** Time by itself never raises the rank: what is in sync stays in sync. */
  lemma WaitingCostsNothing(spec: Spec, b: Site, now: Time, later: Time)
    requires now <= later
    ensures Rank(spec, b, later) <= Rank(spec, b, now)
  {
    hide AnyDrift, AnyPromotionDrift, Stage;
  }

  lemma StageBounded(source: string, env: Environment, s: StatusCode)
    ensures Stage(source, env, s) < 100
  {
  }

  /* ---- every mutating pass lowers the rank ---- */

  lemma PatchParts(spec: EnvironmentConfig, env: Environment, now: Time, a: bool, p: bool, s: bool, env': Environment)
    requires Patched(spec, env, now,
                     (if a || p then [UpdateSettings(a, p)] else []) + (if s then [UpdateSchedules] else []), env')
    requires s ==> spec.schedule.Some?
    ensures env'.autoscaling == if a then MergedAutoscaling(spec, env) else env.autoscaling
    ensures env'.promotion ==
      if p then Some(MergePromotion(OrEmpty(env.promotion), PromotionPatch(spec.promotion))) else env.promotion
    ensures if s
      then env'.schedules.Some? && Delivered(spec.schedule.value, OrNone(env.schedules), now, env'.schedules.value)
      else env'.schedules == env.schedules
  {
    hide Delivered, MergedAutoscaling, MergePromotion, PromotionPatch;
  }

  lemma PatchLowers(spec: EnvironmentConfig, env: Environment, now: Time, later: Time, a: bool, p: bool, s: bool,
                    env': Environment)
    requires a == BaselineDrift(spec, env) && p == AnyPromotionDrift(spec.promotion, env.promotion)
        && s == ScheduleDrift(spec, env, now)
    requires (a || p || s) && now <= later
    requires Patched(spec, env, now,
                     (if a || p then [UpdateSettings(a, p)] else []) + (if s then [UpdateSchedules] else []), env')
    requires spec.schedule.Some? ==> SpecNamesDistinct(spec.schedule.value.schedules)
    requires IdsDistinct(OrNone(env.schedules).schedules)
    ensures SettingsRank(spec, env', later) < SettingsRank(spec, env, now)
  {
    hide AnyDrift, AnyPromotionDrift, BaselineDrift, Patched, Delivered, MergedAutoscaling, MergePromotion, InSync;
    PatchParts(spec, env, now, a, p, s, env');
    AutoscalingPart(spec, env, a, env');
    PromotionPart(spec, env, p, env');
    SchedulePart(spec, env, now, later, s, env');
    BaselineIsDrift(spec, env);
  }

  lemma BaselineIsDrift(spec: EnvironmentConfig, env: Environment)
    ensures BaselineDrift(spec, env) ==> AnyDrift(spec.autoscaling, env.autoscaling)
  {
    hide AnyDrift;
  }

  lemma AutoscalingPart(spec: EnvironmentConfig, env: Environment, a: bool, env': Environment)
    requires a == BaselineDrift(spec, env)
    requires env'.autoscaling == if a then MergedAutoscaling(spec, env) else env.autoscaling
    ensures AnyDrift(spec.autoscaling, env'.autoscaling) ==> !a && AnyDrift(spec.autoscaling, env.autoscaling)
  {
    if a {
      assert spec.autoscaling.Some? && env.autoscaling.Some?;
      AutoscalingPatchRemovesDrift(spec.autoscaling.value, env.autoscaling.value);
    }
  }

  lemma PromotionPart(spec: EnvironmentConfig, env: Environment, p: bool, env': Environment)
    requires p == AnyPromotionDrift(spec.promotion, env.promotion)
    requires env'.promotion ==
      if p then Some(MergePromotion(OrEmpty(env.promotion), PromotionPatch(spec.promotion))) else env.promotion
    ensures !AnyPromotionDrift(spec.promotion, env'.promotion)
  {
    if p {
      assert spec.promotion.Some?;
      PromotionPatchRemovesDrift(spec.promotion.value, env.promotion);
    }
  }

  lemma SchedulePart(spec: EnvironmentConfig, env: Environment, now: Time, later: Time, s: bool, env': Environment)
    requires s == ScheduleDrift(spec, env, now) && now <= later
    requires spec.schedule.Some? ==> SpecNamesDistinct(spec.schedule.value.schedules)
    requires IdsDistinct(OrNone(env.schedules).schedules)
    requires if s
      then env'.schedules.Some? && Delivered(spec.schedule.value, OrNone(env.schedules), now, env'.schedules.value)
      else env'.schedules == env.schedules
    ensures !ScheduleDrift(spec, env', later)
  {
    if s {
      var p, store, newId :|
        && CarriesDifference(p, spec.schedule.value, OrNone(env.schedules), now) && Echoes(store)
        && env'.schedules.value.timezone == ApplyPatch(OrNone(env.schedules), p, store, newId).timezone
        && multiset(env'.schedules.value.schedules) ==
            multiset(ApplyPatch(OrNone(env.schedules), p, store, newId).schedules);
      OnePatchIsEnough(spec.schedule.value, OrNone(env.schedules), now, p, store, newId, env'.schedules.value, later);
    }
  }

  lemma ActivateLowers(c: Context, st: Status, spec: Spec, b: Site, id: string, env: Environment, b': Site)
    requires Pass(c, st, spec, b) && ActivateDue(c, st, spec.sourceDeploymentName, env, id)
    requires Effect(c, b, [Activate(id)], b')
    ensures b.environment == Some(env) && b'.environment.Some?
    ensures var source := spec.sourceDeploymentName;
      && Stage(source, b'.environment.value, b'.source.status) < Stage(source, env, b.source.status)
      && SameSettings(env, b'.environment.value)
  {
    hide BaselineDrift, AnyPromotionDrift, ScheduleDrift, MatchesPrefix;
  }

  lemma RetryLowers(c: Context, st: Status, spec: Spec, b: Site, id: string, env: Environment, b': Site)
    requires Pass(c, st, spec, b) && RetryDue(c, st, spec.sourceDeploymentName, env, id)
    requires Effect(c, b, [RetryDeployment(id)], b')
    ensures b.environment == Some(env) && b'.environment.Some?
    ensures var source := spec.sourceDeploymentName;
      && Stage(source, b'.environment.value, b'.source.status) < Stage(source, env, b.source.status)
      && SameSettings(env, b'.environment.value)
  {
    hide BaselineDrift, AnyPromotionDrift, ScheduleDrift, MatchesPrefix;
  }

  lemma PromoteLowers(c: Context, st: Status, spec: Spec, b: Site, id: string, env: Environment, b': Site)
    requires Pass(c, st, spec, b) && PromoteDue(c, st, spec.sourceDeploymentName, env, id)
    requires Effect(c, b, [Promote(id)], b')
    ensures b.environment == Some(env) && b'.environment.Some?
    ensures var source := spec.sourceDeploymentName;
      && Stage(source, b'.environment.value, b'.source.status) < Stage(source, env, b.source.status)
      && SameSettings(env, b'.environment.value)
  {
    hide BaselineDrift, AnyPromotionDrift, ScheduleDrift, MatchesPrefix;
  }

  predicate SameSettings(a: Environment, b: Environment) {
    a.autoscaling == b.autoscaling && a.promotion == b.promotion && a.schedules == b.schedules
  }

  lemma StageLowersRank(spec: Spec, b: Site, b': Site, now: Time, later: Time)
    requires b.environment.Some? && b'.environment.Some? && now <= later
    requires SameSettings(b.environment.value, b'.environment.value)
    requires Stage(spec.sourceDeploymentName, b'.environment.value, b'.source.status)
           < Stage(spec.sourceDeploymentName, b.environment.value, b.source.status)
    ensures Rank(spec, b', later) < Rank(spec, b, now)
  {
    WaitingCostsNothing(spec, b', now, later);
    hide AnyDrift, AnyPromotionDrift, Stage, InSync;
  }

  lemma SettingsLowerRank(c: Context, st: Status, spec: Spec, b: Site, calls: seq<Call>, b': Site, later: Time)
    requires Pass(c, st, spec, b) && PatchDue(c, calls) && calls != [] && Effect(c, b, calls, b')
        && c.replies.now <= later
    ensures Rank(spec, b', later) < Rank(spec, b, c.replies.now)
  {
    hide BaselineDrift, AnyPromotionDrift, AnyDrift, ScheduleDrift, Delivered, MergePromotion, MergedAutoscaling, Stage;
    var env, now := b.environment.value, c.replies.now;
    var a, p := BaselineDrift(spec.environment, env), AnyPromotionDrift(spec.environment.promotion, env.promotion);
    var s := ScheduleDrift(spec.environment, env, now);
    assert calls == (if a || p then [UpdateSettings(a, p)] else []) + (if s then [UpdateSchedules] else []);
    PatchLowers(spec.environment, env, now, later, a, p, s, b'.environment.value);
    SameStage(spec.sourceDeploymentName, env, b'.environment.value, b.source.status);
  }

  lemma SameStage(source: string, env: Environment, env': Environment, s: StatusCode)
    requires env'.current == env.current && env'.candidate == env.candidate
    ensures Stage(source, env', s) == Stage(source, env, s)
  {
  }

  /** In this setting a pass works for the source the spec names, on the environment as it is. */
  lemma DueForSpec(c: Context, st: Status, spec: Spec, b: Site, source: string, env: Environment)
    requires Pass(c, st, spec, b) && Located(c, st, source, env)
    ensures source == spec.sourceDeploymentName && b.environment == Some(env)
  {
    hide Sane;
  }

  /** Every pass that mutates anything lowers the rank, whatever it reads in the status. */
  lemma MutationLowers(c: Context, st: Status, spec: Spec, b: Site, b': Site, later: Time)
    requires Pass(c, st, spec, b) && Calls(c, st) != [] && Effect(c, b, Calls(c, st), b') && c.replies.now <= later
    ensures Rank(spec, b', later) < Rank(spec, b, c.replies.now)
  {
    hide Reconcile, Rank, Effect, Located, PatchDue, ActivateDue, RetryDue, PromoteDue, Sane, Sees, PushDue, SweepDue;
    EveryCallIsExplained(c, st, true);
    var calls := Calls(c, st);
    match calls[0]
    case CreateEnvironment =>
      assert calls == [CreateEnvironment];
      CreationLowers(c, st, spec, b, b', later);
    case UpdateSettings(_, _) => SettingsLowerRank(c, st, spec, b, calls, b', later);
    case UpdateSchedules => SettingsLowerRank(c, st, spec, b, calls, b', later);
    case Activate(id) =>
      assert calls == [Activate(id)];
      var source, env :| ActivateDue(c, st, source, env, id);
      OneCallLowers(c, st, spec, b, source, env, Activate(id), b', later);
    case RetryDeployment(id) =>
      assert calls == [RetryDeployment(id)];
      var source, env :| RetryDue(c, st, source, env, id);
      OneCallLowers(c, st, spec, b, source, env, RetryDeployment(id), b', later);
    case Promote(id) =>
      assert calls == [Promote(id)];
      var source, env :| PromoteDue(c, st, source, env, id);
      OneCallLowers(c, st, spec, b, source, env, Promote(id), b', later);
    case _ =>
      NothingElse(c, st, spec, calls);
  }

  lemma NothingElse(c: Context, st: Status, spec: Spec, calls: seq<Call>)
    requires c.spec == spec && Settled(spec) && !c.deleting && calls != [] && Explained(c, st, true, calls)
    ensures !calls[0].Push? && !calls[0].ScaleIn? && !calls[0].DeleteDeployment? && !calls[0].DeleteModel?
  {
    hide PatchDue, ActivateDue, RetryDue, PromoteDue;
  }

  ghost predicate Due(c: Context, st: Status, source: string, env: Environment, call: Call) {
    match call
    case Activate(id) => ActivateDue(c, st, source, env, id)
    case RetryDeployment(id) => RetryDue(c, st, source, env, id)
    case Promote(id) => PromoteDue(c, st, source, env, id)
    case _ => false
  }

  lemma OneCallLowers(c: Context, st: Status, spec: Spec, b: Site, source: string, env: Environment, call: Call,
                      b': Site, later: Time)
    requires Pass(c, st, spec, b) && Due(c, st, source, env, call) && Effect(c, b, [call], b') && c.replies.now <= later
    ensures Rank(spec, b', later) < Rank(spec, b, c.replies.now)
  {
    hide Rank, Effect, Sane, Sees, Stage, Located;
    DueForSpec(c, st, spec, b, source, env);
    match call {
      case Activate(id) => ActivateLowers(c, st, spec, b, id, env, b');
      case RetryDeployment(id) => RetryLowers(c, st, spec, b, id, env, b');
      case Promote(id) => PromoteLowers(c, st, spec, b, id, env, b');
    }
    StageLowersRank(spec, b, b', c.replies.now, later);
  }

  lemma CreationLowers(c: Context, st: Status, spec: Spec, b: Site, b': Site, later: Time)
    requires c.replies.environment.NotFound? && Sees(c, b) && Effect(c, b, [CreateEnvironment], b')
    ensures Rank(spec, b', later) < Rank(spec, b, c.replies.now)
  {
    hide ScheduleDrift, AnyDrift, AnyPromotionDrift, Stage;
    StageBounded(spec.sourceDeploymentName, b'.environment.value, b'.source.status);
  }

  /* ---- waiting ---- */

  /** The deadline is over: no retry is made while the failure time stays. */
  predicate RetryExhausted(c: Context, st: Status) {
    var times := c.replies.retryTimes;
    var first := if st.firstFailureTime.Some? then st.firstFailureTime.value else times.detected;
    times.checked - first > DEPLOYMENT_RETRY_DEADLINE
  }

  /** A retry is made once its waiting time is over. */
  predicate RetryDelayed(c: Context, st: Status) {
    && !RetryExhausted(c, st)
    && st.nextRetryTime.Some? && c.replies.retryTimes.compared < st.nextRetryTime.value
  }

  /** A retry is not made now. */
  predicate RetryHeld(c: Context, st: Status) {
    RetryExhausted(c, st) || RetryDelayed(c, st)
  }

  /** Nothing is left for this pass to do: only the backend can move on, if anybody. */
  ghost predicate Waits(c: Context, st: Status, spec: Spec, b: Site) {
    && b.environment.Some?
    && var env, source := b.environment.value, spec.sourceDeploymentName;
       && !BaselineDrift(spec.environment, env) && !AnyPromotionDrift(spec.environment.promotion, env.promotion)
       && !ScheduleDrift(spec.environment, env, c.replies.now)
       && if Matches(env.current, source) then !env.current.value.status.Inactive?
          else if env.candidate.Some? then
            Matches(env.candidate, source) && env.candidate.value.status.RetryableFailure() ==> RetryHeld(c, st)
          else
            && !SourceReady(b.source.status) && !b.source.status.Inactive?
            && (b.source.status.RetryableFailure() ==> RetryHeld(c, st))
  }

  lemma RetryMade(c: Context, t: Trail, modelID: string, id: string, failed: StatusCode)
    requires t.calls == [] && FreshStatus(c, failed).RetryableFailure()
    ensures (TryRetry(c, t, modelID, id, failed).trail.calls == []) <==> RetryHeld(c, t.status)
    ensures TryRetry(c, t, modelID, id, failed).trail.calls == [] || TryRetry(c, t, modelID, id, failed).Stop?
  {
    hide Updated, Skipped, Interval;
  }

  lemma GetsToEnvironment(c: Context, st: Status, spec: Spec, b: Site)
    requires Pass(c, st, spec, b) && b.environment.Some?
    ensures var env := b.environment.value;
      if BaselineDrift(spec.environment, env) || AnyPromotionDrift(spec.environment.promotion, env.promotion) ||
         ScheduleDrift(spec.environment, env, c.replies.now)
      then Calls(c, st) != []
      else Calls(c, st) == WithEnvironment(c, Start(st), ModelIdFor(c, st), spec.sourceDeploymentName, env).0.calls
  {
    hide BaselineDrift, AnyPromotionDrift, ScheduleDrift, WithEnvironment, Updated, Skipped;
  }

  lemma CandidateWaits(c: Context, st: Status, spec: Spec, b: Site)
    requires Pass(c, st, spec, b) && b.environment.Some?
    requires !Matches(b.environment.value.current, spec.sourceDeploymentName)
    requires Matches(b.environment.value.candidate, spec.sourceDeploymentName)
    ensures PromotionInProgress(c, Start(st), ModelIdFor(c, st), b.environment.value).0.calls == [] <==>
      (b.environment.value.candidate.value.status.RetryableFailure() ==> RetryHeld(c, st))
  {
    hide Updated, Skipped, TryRetry;
    var candidate := b.environment.value.candidate.value;
    if candidate.status.RetryableFailure() {
      RetryMade(c, Start(st), ModelIdFor(c, st), candidate.id, candidate.status);
    }
  }

  lemma SourceWaits(c: Context, st: Status, spec: Spec, b: Site)
    requires Pass(c, st, spec, b) && b.environment.Some?
    requires !Matches(b.environment.value.current, spec.sourceDeploymentName) && b.environment.value.candidate.None?
    ensures PromoteWhenReady(c, Start(st), ModelIdFor(c, st), spec.sourceDeploymentName,
                             b.environment.value).0.calls == [] <==>
      && !SourceReady(b.source.status) && !b.source.status.Inactive?
      && (b.source.status.RetryableFailure() ==> RetryHeld(c, st))
  {
    hide Updated, Skipped, TryRetry, PromoteSource;
    var t := ForgetCandidate(Start(st), b.environment.value, spec.sourceDeploymentName);
    if b.source.status.RetryableFailure() {
      RetryMade(c, t, ModelIdFor(c, st), b.source.id, b.source.status);
    }
    if SourceReady(b.source.status) {
      PromoteSourceCalls(c, t, ModelIdFor(c, st), spec.sourceDeploymentName, b.source.id, b.environment.value);
    }
  }

  lemma PromoteSourceCalls(c: Context, t: Trail, modelID: string, source: string, id: string, env: Environment)
    requires t.calls == []
    ensures PromoteSource(c, t, modelID, source, id, env).0.calls == [Promote(id)]
  {
    hide Updated, Skipped;
  }

  lemma CurrentWaits(c: Context, st: Status, spec: Spec, b: Site)
    requires Pass(c, st, spec, b) && b.environment.Some?
        && Matches(b.environment.value.current, spec.sourceDeploymentName)
    ensures WithEnvironment(c, Start(st), ModelIdFor(c, st), spec.sourceDeploymentName,
                            b.environment.value).0.calls == [] <==>
      !b.environment.value.current.value.status.Inactive?
  {
    hide Updated, Skipped;
  }

  /** A pass makes no mutating call exactly when it waits. */
  lemma SilentExactlyWhenWaiting(c: Context, st: Status, spec: Spec, b: Site)
    requires Pass(c, st, spec, b)
    ensures Calls(c, st) == [] <==> Waits(c, st, spec, b)
  {
    hide Calls, Pass, BaselineDrift, AnyPromotionDrift, ScheduleDrift, PromotionInProgress, PromoteWhenReady,
        Reactivate, SteadyState;
    if b.environment.None? {
      CreatesMissing(c, st, spec, b);
    } else {
      GetsToEnvironment(c, st, spec, b);
      var env := b.environment.value;
      if Matches(env.current, spec.sourceDeploymentName) {
        CurrentWaits(c, st, spec, b);
      } else if Matches(env.candidate, spec.sourceDeploymentName) {
        CandidateWaits(c, st, spec, b);
      } else if env.candidate.None? {
        SourceWaits(c, st, spec, b);
      } else {
        ForeignCandidateHolds(c, Start(st), ModelIdFor(c, st), spec.sourceDeploymentName, env);
      }
    }
  }

  lemma CreatesMissing(c: Context, st: Status, spec: Spec, b: Site)
    requires Pass(c, st, spec, b) && b.environment.None?
    ensures Calls(c, st) == [CreateEnvironment]
  {
    hide Updated, Skipped;
  }

  lemma ForeignCandidateHolds(c: Context, t: Trail, modelID: string, source: string, env: Environment)
    requires t.calls == [] && env.candidate.Some? && !Matches(env.candidate, source)
    ensures PromoteWhenReady(c, t, modelID, source, env).0.calls == []
  {
    hide Updated, Skipped;
  }

  /** At rest the operator is silent. */
  lemma SilentAtRest(c: Context, st: Status, spec: Spec, b: Site)
    requires Pass(c, st, spec, b) && Rank(spec, b, c.replies.now) == 0
    ensures Calls(c, st) == []
  {
    hide Calls, AnyDrift, AnyPromotionDrift, ScheduleDrift;
    RankZeroIsRest(spec, b, c.replies.now);
    SilentExactlyWhenWaiting(c, st, spec, b);
  }

  /* ---- progress of the backend ---- */

  /** On its way to active by itself, as far as anybody can tell. */
  predicate Settling(s: StatusCode) {
    !s.Healthy() && !s.Inactive? && !s.TerminalFailure()
  }

  /** A pending promotion completes, the current deployment settles, or the source becomes ready
      while it is still to be promoted. */
  ghost predicate Progress(spec: Spec, b: Site, b': Site) {
    && b.environment.Some?
    && var env := b.environment.value;
       || (&& env.candidate.Some? && !env.candidate.value.status.TerminalFailure()
           && b' == b.(environment := Some(Completed(env))))
       || (&& Matches(env.current, spec.sourceDeploymentName) && Settling(env.current.value.status)
           && b' == b.(environment := Some(env.(current := Some(env.current.value.(status := Active))))))
       || (&& NeedsSource(spec.sourceDeploymentName, env) && Settling(b.source.status)
           && b' == b.(source := b.source.(status := Active)))
  }

  lemma ProgressLowers(spec: Spec, b: Site, b': Site, now: Time, later: Time)
    requires Progress(spec, b, b') && now <= later
    ensures Rank(spec, b', later) < Rank(spec, b, now)
  {
    hide Rank, MatchesPrefix;
    StageLowersRank(spec, b, b', now, later);
  }

  /** The failure short of rest is one that a pass may retry: of the pending promotion if it is
      ours, or of the source if it is still to be promoted. */
  predicate AwaitsRetry(spec: Spec, b: Site) {
    && b.environment.Some?
    && var env, source := b.environment.value, spec.sourceDeploymentName;
       && !Matches(env.current, source)
       && if env.candidate.Some? then Matches(env.candidate, source) && env.candidate.value.status.RetryableFailure()
          else b.source.status.RetryableFailure()
  }

  predicate HasFailed(spec: Spec, b: Site) {
    && b.environment.Some?
    && var env, source := b.environment.value, spec.sourceDeploymentName;
       || (env.candidate.Some? && env.candidate.value.status.TerminalFailure())
       || (Matches(env.current, source) && env.current.value.status.TerminalFailure())
       || (NeedsSource(source, env) && b.source.status.TerminalFailure())
  }

  /** What keeps a site from rest with nobody left to move: drift that a schedule in force hides,
      and failures that are never retried or whose retries are used up. */
  predicate Stuck(c: Context, st: Status, spec: Spec, b: Site) {
    || (&& b.environment.Some?
        && spec.environment.schedule.Some? && ScheduleActive(b.environment.value.schedules)
        && AnyDrift(spec.environment.autoscaling, b.environment.value.autoscaling))
    || (HasFailed(spec, b) && (AwaitsRetry(spec, b) ==> RetryExhausted(c, st)))
  }

  /** A retry is due, but not yet. */
  predicate Delayed(c: Context, st: Status, spec: Spec, b: Site) {
    AwaitsRetry(spec, b) && RetryDelayed(c, st)
  }

  /** A pass that waits short of rest waits for progress the backend can make or for the time of
      the next retry, or the site is stuck. */
  lemma WaitingHasACause(c: Context, st: Status, spec: Spec, b: Site)
    requires Waits(c, st, spec, b) && Rank(spec, b, c.replies.now) > 0
    ensures Stuck(c, st, spec, b) || Delayed(c, st, spec, b) || exists b' :: Progress(spec, b, b')
  {
    RankZeroIsRest(spec, b, c.replies.now);
    hide AnyDrift, AnyPromotionDrift, ScheduleDrift, MatchesPrefix, Rank, RetryExhausted;
    var env := b.environment.value;
    if !Stuck(c, st, spec, b) && !HasFailed(spec, b) {
      if env.candidate.Some? {
        assert Progress(spec, b, b.(environment := Some(Completed(env))));
      } else if Matches(env.current, spec.sourceDeploymentName) {
        assert Progress(spec, b, b.(environment := Some(env.(current := Some(env.current.value.(status := Active))))));
      } else {
        assert Progress(spec, b, b.(source := b.source.(status := Active)));
      }
    }
  }

  /** A delayed retry is made by the first pass that finds its time come before the deadline is over. */
  lemma DelayedRetryIsMade(c: Context, st: Status, spec: Spec, b: Site)
    requires Pass(c, st, spec, b) && AwaitsRetry(spec, b)
    requires !RetryExhausted(c, st) && !RetryDelayed(c, st)
    ensures Calls(c, st) != []
  {
    hide Calls, Pass, BaselineDrift, AnyPromotionDrift, ScheduleDrift, Rank, RetryExhausted, RetryDelayed;
    SilentExactlyWhenWaiting(c, st, spec, b);
  }

  /* ---- the next pass ---- */

  /** A pass that waits has come to the deployments of the environment. */
  lemma WaitingReaches(c: Context, st: Status, spec: Spec, b: Site)
    requires Pass(c, st, spec, b) && Waits(c, st, spec, b)
    ensures Facts.Reaches(c, st, true, ModelIdFor(c, st), spec.sourceDeploymentName, b.environment.value)
  {
    Paths.OffIsDrift(spec.environment, b.environment.value, c.replies.now);
    hide BaselineDrift, AnyPromotionDrift, ScheduleDrift, Facts.OffBaseline, Facts.OffPromotion, Facts.OffSchedule,
      RetryHeld, MatchesPrefix;
  }

  lemma SameWaits(c: Context, st: Status)
    ensures var s := Facts.Sourced(c, st);
      && (StageAnswers.Late(c, s) <==> RetryExhausted(c, st)) && (StageAnswers.Late(c, st) <==> RetryExhausted(c, st))
      && (StageAnswers.Late(c, StageAnswers.Forgetting(s)) <==> RetryExhausted(c, st))
      && s.nextRetryTime == st.nextRetryTime && StageAnswers.Forgetting(s).nextRetryTime == st.nextRetryTime
  {
    hide Facts.NameFor, Facts.HashOf;
  }

  /** A pass that waits is followed by another one, unless the site is stuck; if a retry is delayed,
      at the very time of the retry. */
  lemma WaitingComesBack(c: Context, st: Status, spec: Spec, b: Site)
    requires Pass(c, st, spec, b) && Waits(c, st, spec, b) && c.replies.steadyWritten
    ensures var v := Reconcile(c, st, true).verdict;
      && ((v.Requeue? && v.after > 0) || Stuck(c, st, spec, b))
      && (Delayed(c, st, spec, b) ==> v == Requeue(st.nextRetryTime.value - c.replies.retryTimes.compared))
  {
    var id, source, env := ModelIdFor(c, st), spec.sourceDeploymentName, b.environment.value;
    WaitingReaches(c, st, spec, b);
    SameWaits(c, st);
    Paths.CalledIsMatched(env.current, source);
    Paths.CalledIsMatched(env.candidate, source);
    Verdicts.EveryPassEnds(c, st, true);
    assert Matches(env.current, source) ==> env.current.Some?;
    assert Matches(env.candidate, source) ==> env.candidate.Some? && env.candidate.value.id != "";
    hide Reconcile, Pass, Facts.Reaches, Facts.Called, Matches, Facts.What, Facts.Report, StageAnswers.Late,
      Facts.Sourced, StageAnswers.Forgetting, Verdicts.GivesUp, Verdicts.Dismissed, RetryExhausted, BaselineDrift,
      AnyPromotionDrift, ScheduleDrift, AnyDrift, ScheduleActive, StageAnswers.Retries, StageAnswers.PendingTold;
    if Matches(env.current, source) {
      if env.current.value.status != Inactive {
        StageAnswers.SteadyAnswers(c, st, id, source, env);
      }
    } else if Matches(env.candidate, source) {
      StageAnswers.PendingAnswers(c, st, id, source, env);
    } else if env.candidate.Some? {
      StageAnswers.ForeignCandidateAnswers(c, st, id, source, env);
    } else {
      FreeComesBack(c, st, spec, b);
    }
  }

  lemma FreeComesBack(c: Context, st: Status, spec: Spec, b: Site)
    requires Pass(c, st, spec, b) && Waits(c, st, spec, b)
    requires var env, source := b.environment.value, spec.sourceDeploymentName;
      !Matches(env.current, source) && env.candidate.None?
    ensures var v := Reconcile(c, st, true).verdict;
      && ((v.Requeue? && v.after > 0) || Stuck(c, st, spec, b))
      && (Delayed(c, st, spec, b) ==> v == Requeue(st.nextRetryTime.value - c.replies.retryTimes.compared))
  {
    assert c.replies.findSource == Ok(Found(b.source.id, b.source.status)) && b.source.id != "";
    hide Reconcile, Pass, Facts.Reaches, Facts.Called, Matches, Facts.What, Facts.Report, StageAnswers.Late,
      Facts.Sourced, StageAnswers.Forgetting, RetryExhausted, BaselineDrift, AnyPromotionDrift, ScheduleDrift,
      AnyDrift, ScheduleActive, StageAnswers.Retries;
    var id, source, env := ModelIdFor(c, st), spec.sourceDeploymentName, b.environment.value;
    WaitingReaches(c, st, spec, b);
    SameWaits(c, st);
    Paths.CalledIsMatched(env.current, source);
    Paths.CalledIsMatched(env.candidate, source);
    if Facts.Failing(b.source.status) {
      StageAnswers.FailedSourceAnswers(c, st, id, source, env);
    } else {
      StageAnswers.WaitingSourceAnswers(c, st, id, source, env);
    }
  }

  /* ---- whole runs ---- */

  datatype Round = PassRound(c: Context, st: Status) | ProgressRound

  /** Rounds between sites, the clock read before each round and at the end. */
  ghost predicate IsRun(spec: Spec, bs: seq<Site>, times: seq<Time>, rounds: seq<Round>) {
    && |bs| == |times| == |rounds| + 1
    && forall i :: 0 <= i < |rounds| ==> IsRound(spec, bs[i], times[i], rounds[i], bs[i + 1], times[i + 1])
  }

  ghost predicate IsRound(spec: Spec, b: Site, now: Time, round: Round, b': Site, later: Time) {
    && now <= later
    && match round
       case PassRound(c, st) => Pass(c, st, spec, b) && c.replies.now == now && Effect(c, b, Calls(c, st), b')
       case ProgressRound => Progress(spec, b, b')
  }

  /** The rounds in which something happened. */
  ghost function Busy(rounds: seq<Round>): nat {
    if rounds == [] then 0 else
      var r := rounds[|rounds| - 1];
      Busy(rounds[..|rounds| - 1]) + if r.PassRound? && Calls(r.c, r.st) == [] then 0 else 1
  }

  lemma RoundLowers(spec: Spec, b: Site, now: Time, round: Round, b': Site, later: Time)
    requires IsRound(spec, b, now, round, b', later)
    ensures var busy := if round.PassRound? && Calls(round.c, round.st) == [] then 0 else 1;
            Rank(spec, b', later) + busy <= Rank(spec, b, now)
  {
    hide Rank, Pass, Calls, Progress;
    match round
    case PassRound(c, st) =>
      if Calls(c, st) == [] {
        WaitingCostsNothing(spec, b, now, later);
      } else {
        MutationLowers(c, st, spec, b, b', later);
      }
    case ProgressRound => ProgressLowers(spec, b, b', now, later);
  }

  /** Convergence: from any site, mutating passes and steps of progress together are no more than
      the rank allows, however they are mixed with passes that wait. */
  lemma {:induction false} RunsComeToRest(spec: Spec, bs: seq<Site>, times: seq<Time>, rounds: seq<Round>)
    requires IsRun(spec, bs, times, rounds)
    ensures Rank(spec, bs[|rounds|], times[|rounds|]) + Busy(rounds) <= Rank(spec, bs[0], times[0])
  {
    hide Rank, IsRound;
    if rounds == [] {
    } else {
      var n := |rounds| - 1;
      RunsComeToRest(spec, bs[..n + 1], times[..n + 1], rounds[..n]);
      assert IsRound(spec, bs[n], times[n], rounds[n], bs[n + 1], times[n + 1]);
      RoundLowers(spec, bs[n], times[n], rounds[n], bs[n + 1], times[n + 1]);
    }
  }
}
