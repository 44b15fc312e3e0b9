/** When a pass promotes, and that promotion never displaces a candidate. */
module Promotion {
  import opened Types
  import opened Names
  import opened Drift
  import opened Schedules
  import opened Baseten
  import opened Model
  import opened StatusUpdates
  import opened Steps
  import opened PassCalls
  import opened Backend

  /* ---- when a pass promotes ---- */

  /** Exactly when a pass promotes a deployment: the conditions are on the spec, the environment
      as read and the source as read; the cached candidate is not among them. */
  ghost predicate Promotes(c: Context, st: Status, finalizer: bool, id: string) {
    Acting(c, finalizer) && exists source, env :: PromoteDue(c, st, source, env, id)
  }

  lemma PromotionReached(c: Context, st: Status, finalizer: bool, source: string, env: Environment, id: string)
    requires Acting(c, finalizer) && PromoteDue(c, st, source, env, id)
    ensures Reconcile(c, st, finalizer).trail.calls == [Promote(id)]
  {
    hide UpdateStatus, BaselineDrift, AnyPromotionDrift, ScheduleDrift;
    var t, modelID := Start(st), ModelIdFor(c, st);
    assert ResolveModelID(c, t) == Go(t, modelID);
    SourceGoes(c, t, modelID, source);
    var t2 := ResolveSource(c, t, modelID).trail;
    assert ReconcileEnvironment(c, t2, modelID) == Go(t2, env);
    assert ReconcileActive(c, t).0 == PromoteWhenReady(c, t2, modelID, source, env).0;
    PromotingCalls(c, t2, modelID, source, env);
  }

  lemma SourceGoes(c: Context, t: Trail, modelID: string, source: string)
    requires modelID != "" && WorksFor(c, t.status, source)
    ensures ResolveSource(c, t, modelID).Go? && ResolveSource(c, t, modelID).value == source
    ensures ResolveSource(c, t, modelID).trail.calls == t.calls
  {
    hide UpdateStatus, PushOrWait;
  }

  lemma PromotingCalls(c: Context, t: Trail, modelID: string, source: string, env: Environment)
    requires t.calls == [] && env.candidate.None?
    requires c.replies.findSource.Ok? && c.replies.findSource.value.id != ""
    requires SourceReady(c.replies.findSource.value.status)
    ensures PromoteWhenReady(c, t, modelID, source, env).0.calls == [Promote(c.replies.findSource.value.id)]
  {
    hide Updated, Skipped;
  }

  /** A pass promotes a deployment exactly when `Promotes` says so, whatever candidate the status
      has cached. */
  lemma PromotesExactlyWhen(c: Context, st: Status, finalizer: bool, id: string)
    ensures Promote(id) in Reconcile(c, st, finalizer).trail.calls <==> Promotes(c, st, finalizer, id)
  {
    hide Reconcile, PromoteDue, ActivateDue, RetryDue, PushDue, Located, CleanupDue, InSync, Idle;
    if Promotes(c, st, finalizer, id) {
      var source, env :| PromoteDue(c, st, source, env, id);
      PromotionReached(c, st, finalizer, source, env, id);
    }
    EveryCallIsExplained(c, st, finalizer);
  }

  /** In particular a stale cached candidate neither causes nor prevents a promotion. */
  lemma CachedCandidateIsIrrelevant(c: Context, st: Status, finalizer: bool, id: string, cachedID: string,
                                    cachedName: string)
    ensures var cached := st.(candidateDeploymentID := cachedID, candidateDeploymentName := cachedName);
      Promote(id) in Reconcile(c, cached, finalizer).trail.calls <==>
        Promote(id) in Reconcile(c, st, finalizer).trail.calls
  {
    hide Reconcile, Undrifted;
    var cached := st.(candidateDeploymentID := cachedID, candidateDeploymentName := cachedName);
    PromotesExactlyWhen(c, st, finalizer, id);
    PromotesExactlyWhen(c, cached, finalizer, id);
    assert forall source, env :: PromoteDue(c, cached, source, env, id) <==> PromoteDue(c, st, source, env, id);
  }

  /* ---- passes interleaved with the environment's own moves ---- */

  /** One resource has one pass at a time; between reading the environment and acting on it,
      anything may move. `displaced` counts promote calls that found a candidate in place. */
  datatype World = World(environment: Option<Environment>, read: Option<ApiResult<Environment>>, displaced: nat)

  datatype Event =
    | Moves(step: BackendStep)
    | Reads(fails: bool)
    | Acts(c: Context, st: Status, finalizer: bool, target: Deployment)

  ghost predicate Enabled(w: World, e: Event) {
    match e
    case Moves(_) => true
    case Reads(_) => w.read.None?
    case Acts(c, _, _, _) => w.read == Some(c.replies.environment)
  }

  function Answer(env: Option<Environment>): ApiResult<Environment> {
    if env.Some? then Ok(env.value) else NotFound
  }

  /** A call may fail on the way back and yet have its effect, so effects do not depend on replies. */
  ghost function Next(w: World, e: Event): World {
    match e
    case Moves(step) => w.(environment := Moved(w.environment, step))
    case Reads(fails) => w.(read := Some(if fails then Failure else Answer(w.environment)))
    case Acts(c, st, finalizer, target) =>
      var calls := Reconcile(c, st, finalizer).trail.calls;
      World(AllPerformed(w.environment, calls, c.spec.environment.name, target), None,
            w.displaced + if Occupied(w.environment) && HasPromote(calls) then 1 else 0)
  }

  predicate Occupied(env: Option<Environment>) {
    env.Some? && env.value.candidate.Some?
  }

  predicate HasPromote(calls: seq<Call>) {
    exists i :: 0 <= i < |calls| && calls[i].Promote?
  }

  ghost predicate IsRun(ws: seq<World>, es: seq<Event>) {
    && |ws| == |es| + 1
    && forall i :: 0 <= i < |es| ==> Enabled(ws[i], es[i]) && ws[i + 1] == Next(ws[i], es[i])
  }

  /** An environment read without a candidate has none until the pass acts. */
  predicate StillFree(w: World) {
    w.read.Some? && w.read.value.Ok? && w.read.value.value.candidate.None? ==> !Occupied(w.environment)
  }

  /** The environment moves by itself only away from a pending promotion. */
  lemma MovesCreateNoCandidate(env: Option<Environment>, step: BackendStep)
    ensures Occupied(Moved(env, step)) ==> Occupied(env)
  {
  }

  lemma NextKeepsFree(w: World, e: Event)
    requires Enabled(w, e) && StillFree(w) && w.displaced == 0
    ensures StillFree(Next(w, e)) && Next(w, e).displaced == 0
  {
    hide Reconcile;
    match e
    case Moves(step) => MovesCreateNoCandidate(w.environment, step);
    case Reads(_) =>
    case Acts(c, st, finalizer, _) =>
      if HasPromote(Reconcile(c, st, finalizer).trail.calls) {
        PromoteReadsFree(c, st, finalizer);
      }
  }

  lemma PromoteReadsFree(c: Context, st: Status, finalizer: bool)
    requires HasPromote(Reconcile(c, st, finalizer).trail.calls)
    ensures c.replies.environment.Ok? && c.replies.environment.value.candidate.None?
  {
    hide Reconcile;
    var calls := Reconcile(c, st, finalizer).trail.calls;
    var i :| 0 <= i < |calls| && calls[i].Promote?;
    assert Promote(calls[i].id) in calls;
    PromotesExactlyWhen(c, st, finalizer, calls[i].id);
  }

  /** Promotion safety: over every interleaving of one resource's passes with the environment's
      own moves, no promote call ever displaces a pending candidate. */
  lemma {:induction false} NoCandidateIsDisplaced(ws: seq<World>, es: seq<Event>, i: nat)
    requires IsRun(ws, es) && ws[0].read.None? && ws[0].displaced == 0 && i < |ws|
    ensures ws[i].displaced == 0 && StillFree(ws[i])
  {
    hide Next, Enabled;
    if i == 0 {
    } else {
      NoCandidateIsDisplaced(ws, es, i - 1);
      assert Enabled(ws[i - 1], es[i - 1]) && ws[i - 1 + 1] == Next(ws[i - 1], es[i - 1]);
      NextKeepsFree(ws[i - 1], es[i - 1]);
    }
  }
}
