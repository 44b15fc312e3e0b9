/** Orphan cleanup as part of a pass: what it may sweep, and what it leaves alone. */
module Sweeps {
  import opened Types
  import opened Baseten
  import opened Cleanup
  import opened Model
  import opened Steps
  import CleanupRuns
  import PassCalls

  function SourceOfCleanup(c: Context, st: Status): string {
    if c.spec.sourceDeploymentName != "" then c.spec.sourceDeploymentName else st.sourceDeploymentName
  }

  /** Guaranteed by the CRD's minimum. */
  predicate MinToKeepAllowed(c: Context) {
    c.spec.cleanup.Some? && c.spec.cleanup.value.minToKeep.Some? ==> c.spec.cleanup.value.minToKeep.value >= 0
  }

  /** What was swept is what the configuration asks for, on the orphans among the listed deployments. */
  ghost predicate SweepFollowsPlan(c: Context, st: Status, sweep: Sweep) {
    && c.spec.cleanup.Some? && c.replies.listDeployments.Ok? && c.replies.listEnvironments.Ok?
    && var cleanup, source := c.spec.cleanup.value, SourceOfCleanup(c, st);
       var orphans := Orphans(c.replies.listDeployments.value, ProtectedIds(c.replies.listEnvironments.value), source);
       && sweep.scaledIn == (if cleanup.scaleToZero == Some(true) then Ids(Filter(orphans, ScalingIn())) else [])
       && if cleanup.delete == Some(true) && cleanup.deleteAfterDays.Some? && cleanup.minToKeep.Some?
          then cleanup.minToKeep.value >= 0 &&
               DeletesByPlan(orphans, cleanup.minToKeep.value, source,
                             c.replies.now - cleanup.deleteAfterDays.value * DAY, sweep.deleted)
          else sweep.deleted == []
  }

  ghost predicate DeletesByPlan(orphans: seq<Detail>, keep: nat, source: string, cutoff: Time, deleted: seq<string>) {
    exists sorted, calls :: multiset(sorted) == multiset(orphans) && DeletePlan(sorted, keep, source, cutoff, calls)
        && deleted == Ids(calls)
  }

  /* ---- what is never swept ---- */

  lemma {:induction false} IdsOf(s: seq<Detail>, id: string)
    ensures id in Ids(s) <==> exists d :: d in s && d.id == id
  {
    if s == [] {
    } else {
      IdsOf(s[..|s| - 1], id);
      assert s == s[..|s| - 1] + [s[|s| - 1]];
    }
  }

  /** A listed deployment that serves nowhere, carries no flag, and as a variant of the source is
      dead and detached. */
  ghost predicate Sweepable(c: Context, source: string, d: Detail)
    requires c.replies.listDeployments.Ok? && c.replies.listEnvironments.Ok?
  {
    && d in c.replies.listDeployments.value
    && (forall env :: env in c.replies.listEnvironments.value ==> d.id !in ServingIds(env))
    && !d.isProduction && !d.isDevelopment
    && (Variant(d, source) ==> Dead(d) && d.environment.None?)
  }

  lemma OrphanIsSweepable(c: Context, source: string, d: Detail)
    requires c.replies.listDeployments.Ok? && c.replies.listEnvironments.Ok?
    requires d in Orphans(c.replies.listDeployments.value, ProtectedIds(c.replies.listEnvironments.value), source)
    ensures Sweepable(c, source, d)
  {
    var ds, envs := c.replies.listDeployments.value, c.replies.listEnvironments.value;
    FilterMembers(ds, Orphaned(ProtectedIds(envs), source));
    CleanupRuns.ServingIsProtected(envs, d.id);
  }

  lemma ScaledInIsSweepable(c: Context, st: Status, sweep: Sweep, id: string) returns (d: Detail)
    requires SweepFollowsPlan(c, st, sweep) && id in sweep.scaledIn
    ensures d.id == id && Sweepable(c, SourceOfCleanup(c, st), d)
  {
    var source := SourceOfCleanup(c, st);
    var orphans := Orphans(c.replies.listDeployments.value, ProtectedIds(c.replies.listEnvironments.value), source);
    hide Orphans, DeletesByPlan, Filter, Sweepable, ProtectedIds;
    IdsOf(Filter(orphans, ScalingIn()), id);
    FilterMembers(orphans, ScalingIn());
    d :| d in Filter(orphans, ScalingIn()) && d.id == id;
    OrphanIsSweepable(c, source, d);
  }

  lemma DeletedIsSweepable(c: Context, st: Status, sweep: Sweep, id: string) returns (d: Detail)
    requires SweepFollowsPlan(c, st, sweep) && id in sweep.deleted
    ensures d.id == id && Sweepable(c, SourceOfCleanup(c, st), d) && Dead(d)
  {
    var source, cleanup := SourceOfCleanup(c, st), c.spec.cleanup.value;
    var orphans := Orphans(c.replies.listDeployments.value, ProtectedIds(c.replies.listEnvironments.value), source);
    var keep, cutoff := cleanup.minToKeep.value, c.replies.now - cleanup.deleteAfterDays.value * DAY;
    hide Orphans, Filter, Sweepable, ProtectedIds, DeletePlan;
    var sorted, calls :| multiset(sorted) == multiset(orphans) && DeletePlan(sorted, keep, source, cutoff, calls)
                         && sweep.deleted == Ids(calls);
    IdsOf(calls, id);
    CleanupRuns.PlanIsExact(sorted, keep, source, cutoff, calls);
    d :| d in calls && d.id == id;
    assert d in sorted;
    assert d in multiset(orphans);
    OrphanIsSweepable(c, source, d);
  }

  /** Cleanup safety for a pass: whatever it scales in or deletes is a listed deployment that serves
      in no listed environment, carries no flag, and as a variant of the source is dead and
      detached; what it deletes is dead. */
  lemma PassSparesServing(c: Context, st: Status, finalizer: bool, call: Call) returns (d: Detail)
    requires var end := Reconcile(c, st, finalizer).trail;
      call in end.calls && SweepFollowsPlan(c, end.status, c.replies.sweep)
    requires call.ScaleIn? || call.DeleteDeployment?
    ensures d.id == call.id
    ensures c.replies.listDeployments.Ok? && c.replies.listEnvironments.Ok?
    ensures Sweepable(c, SourceOfCleanup(c, Reconcile(c, st, finalizer).trail.status), d)
    ensures call.DeleteDeployment? ==> Dead(d)
  {
    hide Reconcile, SweepFollowsPlan, Sweepable;
    SweptByPlan(c, st, finalizer, call);
    var end := Reconcile(c, st, finalizer).trail.status;
    if call.ScaleIn? {
      d := ScaledInIsSweepable(c, end, c.replies.sweep, call.id);
    } else {
      d := DeletedIsSweepable(c, end, c.replies.sweep, call.id);
    }
    PlanHasListings(c, end, c.replies.sweep);
  }

  lemma PlanHasListings(c: Context, st: Status, sweep: Sweep)
    requires SweepFollowsPlan(c, st, sweep)
    ensures c.replies.listDeployments.Ok? && c.replies.listEnvironments.Ok?
  {
    hide Orphans, DeletesByPlan, Filter;
  }

  lemma SweptByPlan(c: Context, st: Status, finalizer: bool, call: Call)
    requires call in Reconcile(c, st, finalizer).trail.calls && (call.ScaleIn? || call.DeleteDeployment?)
    ensures if call.ScaleIn? then call.id in c.replies.sweep.scaledIn else call.id in c.replies.sweep.deleted
  {
    hide Reconcile;
    PassCalls.EveryCallIsExplained(c, st, finalizer);
    SweepAlone(c, st, finalizer, Reconcile(c, st, finalizer).trail.calls, call);
  }

  lemma SweepAlone(c: Context, st: Status, finalizer: bool, calls: seq<Call>, call: Call)
    requires PassCalls.Explained(c, st, finalizer, calls) && call in calls && (call.ScaleIn? || call.DeleteDeployment?)
    ensures calls == CleanupCalls(c.replies.sweep)
    ensures if call.ScaleIn? then call.id in c.replies.sweep.scaledIn else call.id in c.replies.sweep.deleted
  {
    hide PassCalls.Located, PassCalls.PushDue, PassCalls.Acting, Idle, DeletionDue;
    var i :| 0 <= i < |calls| && calls[i] == call;
    assert calls[0].ScaleIn? || calls[0].DeleteDeployment?;
  }
}
