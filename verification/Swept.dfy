/** Exactly what a pass scales in and deletes, in the fields of the listings. */
module Swept {
  import opened Types
  import opened Names
  import opened Baseten
  import opened Cleanup
  import opened Model
  import opened Steps
  import opened Facts
  import CleanupRuns
  import DueCalls
  import Sweeps

  /** Out of use for good. */
  predicate Gone(s: StatusCode) {
    s == Inactive || s == Failed || s == DeployFailed || s == BuildFailed || s == BuildStopped
  }

  /** Created as many days ago as the configuration asks for, as far as the creation time can be read. */
  predicate Aged(c: Context, days: int, d: Detail) {
    d.createdAt.instant.Some? && d.createdAt.instant.value <= c.replies.now - days * NS_DAY
  }

  ghost predicate CalledAfter(name: string, source: string) {
    name == source || exists suffix :: name == source + "." + suffix
  }

  /** A listed deployment that serves no listed environment, carries no flag, and, if it is called
      after the source, belongs to no environment and is out of use. */
  ghost predicate Stray(c: Context, source: string, d: Detail)
    requires c.replies.listDeployments.Ok? && c.replies.listEnvironments.Ok?
  {
    && d in c.replies.listDeployments.value
    && (forall env :: env in c.replies.listEnvironments.value ==>
          && (env.current.Some? ==> env.current.value.id != d.id)
          && (env.candidate.Some? ==> env.candidate.value.id != d.id))
    && !d.isProduction && !d.isDevelopment
    && (source != "" && CalledAfter(d.name, source) ==> d.environment.None? && Gone(d.status))
  }

  function OrphansOf(c: Context, source: string): seq<Detail>
    requires c.replies.listDeployments.Ok? && c.replies.listEnvironments.Ok?
  {
    Orphans(c.replies.listDeployments.value, ProtectedIds(c.replies.listEnvironments.value), source)
  }

  lemma StrayIsOrphan(c: Context, source: string, d: Detail)
    requires c.replies.listDeployments.Ok? && c.replies.listEnvironments.Ok?
    ensures d in OrphansOf(c, source) <==> Stray(c, source, d)
    ensures multiset(OrphansOf(c, source))[d] ==
      if Stray(c, source, d) then multiset(c.replies.listDeployments.value)[d] else 0
  {
    var ds, envs := c.replies.listDeployments.value, c.replies.listEnvironments.value;
    var p := Orphaned(ProtectedIds(envs), source);
    FilterMembers(ds, p);
    FilterCount(ds, p, d);
    CleanupRuns.ServingIsProtected(envs, d.id);
    CalledAfterIsMatched(d.name, source);
    assert d in ds <==> multiset(ds)[d] > 0;
    hide Filter, ProtectedIds, CalledAfter;
    assert d in ds ==> (p(d) <==> Stray(c, source, d));
  }

  lemma CalledAfterIsMatched(name: string, source: string)
    ensures CalledAfter(name, source) <==> MatchesPrefix(name, source)
  {
    if source + "." <= name {
      var suffix := name[|source| + 1..];
      assert name == source + "." + suffix;
    }
  }

  /** The strays, split into the newest, which are spared, and the rest. */
  ghost predicate Split(c: Context, source: string, keep: nat, spared: seq<Detail>, rest: seq<Detail>)
    requires c.replies.listDeployments.Ok? && c.replies.listEnvironments.Ok?
  {
    && (forall d :: multiset(spared + rest)[d] ==
          if Stray(c, source, d) then multiset(c.replies.listDeployments.value)[d] else 0)
    && (|spared| == keep || (|spared| < keep && rest == []))
    && (forall x, y :: x in spared && y in rest ==> x.createdAt.key >= y.createdAt.key)
  }

  ghost predicate HasId(s: seq<Detail>, id: string, days: int, c: Context) {
    exists d :: d in s && d.id == id && Gone(d.status) && Aged(c, days, d)
  }

  lemma StaleIsGoneAndAged(c: Context, days: int, d: Detail)
    ensures Stale(d, c.replies.now - days * DAY) <==> Gone(d.status) && Aged(c, days, d)
  {
  }

  lemma SplitSorted(c: Context, source: string, keep: nat, sorted: seq<Detail>)
    requires c.replies.listDeployments.Ok? && c.replies.listEnvironments.Ok?
    requires Ordered(sorted, true) && multiset(sorted) == multiset(OrphansOf(c, source))
    ensures var k := Min(keep, |sorted|); Split(c, source, keep, sorted[..k], sorted[k..])
  {
    var k := Min(keep, |sorted|);
    assert sorted[..k] + sorted[k..] == sorted;
    SparedAreNewer(sorted, k);
    forall d ensures multiset(sorted)[d] ==
      if Stray(c, source, d) then multiset(c.replies.listDeployments.value)[d] else 0
    {
      StrayIsOrphan(c, source, d);
    }
    hide Stray, Ordered, OrphansOf;
  }

  lemma CallsHaveIds(c: Context, days: int, rest: seq<Detail>, calls: seq<Detail>, id: string)
    requires forall d :: d in calls <==> d in rest && Stale(d, c.replies.now - days * DAY)
    ensures id in Ids(calls) <==> HasId(rest, id, days, c)
  {
    Sweeps.IdsOf(calls, id);
    forall d ensures Stale(d, c.replies.now - days * DAY) <==> Gone(d.status) && Aged(c, days, d) {
      StaleIsGoneAndAged(c, days, d);
    }
    hide Stale, Gone, Aged, Ids;
    if HasId(rest, id, days, c) {
      var d :| d in rest && d.id == id && Gone(d.status) && Aged(c, days, d);
      assert d in calls;
    }
  }

  lemma PlanDeletes(c: Context, source: string, keep: nat, days: int, sorted: seq<Detail>, calls: seq<Detail>)
    returns (spared: seq<Detail>, rest: seq<Detail>)
    requires c.replies.listDeployments.Ok? && c.replies.listEnvironments.Ok?
    requires multiset(sorted) == multiset(OrphansOf(c, source))
    requires DeletePlan(sorted, keep, source, c.replies.now - days * DAY, calls)
    ensures Split(c, source, keep, spared, rest)
    ensures forall id :: id in Ids(calls) <==> HasId(rest, id, days, c)
  {
    var k := Min(keep, |sorted|);
    spared, rest := sorted[..k], sorted[k..];
    SplitSorted(c, source, keep, sorted);
    CleanupRuns.PlanIsExact(sorted, keep, source, c.replies.now - days * DAY, calls);
    hide Split, HasId, DeletePlan, Ids, Stale, OrphansOf;
    forall id ensures id in Ids(calls) <==> HasId(rest, id, days, c) {
      CallsHaveIds(c, days, rest, calls, id);
    }
  }

  lemma SparedAreNewer(sorted: seq<Detail>, k: nat)
    requires Ordered(sorted, true) && k <= |sorted|
    ensures forall x, y :: x in sorted[..k] && y in sorted[k..] ==> x.createdAt.key >= y.createdAt.key
  {
    forall x, y | x in sorted[..k] && y in sorted[k..] ensures x.createdAt.key >= y.createdAt.key {
      var i :| 0 <= i < k && sorted[i] == x;
      var j :| 0 <= j < |sorted[k..]| && sorted[k..][j] == y;
      assert Rank(sorted[i], true) <= Rank(sorted[k + j], true);
    }
  }

  /** A pass that sweeps, in steady state, with listings of deployments and environments. */
  ghost predicate Sweeping(c: Context, st: Status, id: string, source: string, env: Environment) {
    && Reaches(c, st, true, id, source, env) && DueCalls.SweepDue(c, st, source, env)
    && c.spec.cleanup.Some? && c.replies.listDeployments.Ok? && c.replies.listEnvironments.Ok?
  }

  /** The source whose variants are treated with more care. */
  ghost function OwnSource(c: Context, st: Status): string {
    if c.spec.sourceDeploymentName != "" then c.spec.sourceDeploymentName
    else Reconcile(c, st, true).trail.status.sourceDeploymentName
  }

  /** Deletion, exactly: of the strays the `minToKeep` newest are spared, and of the others those
      and only those are deleted that are out of use and were created `deleteAfterDays` ago. */
  lemma PassDeletesExactly(c: Context, st: Status, id: string, source: string, env: Environment)
    returns (spared: seq<Detail>, rest: seq<Detail>)
    requires Sweeping(c, st, id, source, env)
    requires Sweeps.SweepFollowsPlan(c, Reconcile(c, st, true).trail.status, c.replies.sweep)
    requires c.spec.cleanup.value.delete == Some(true)
    requires c.spec.cleanup.value.deleteAfterDays.Some? && c.spec.cleanup.value.minToKeep.Some?
    ensures c.spec.cleanup.value.minToKeep.value >= 0
    ensures Split(c, OwnSource(c, st), c.spec.cleanup.value.minToKeep.value, spared, rest)
    ensures forall x :: DeleteDeployment(x) in Reconcile(c, st, true).trail.calls <==>
      HasId(rest, x, c.spec.cleanup.value.deleteAfterDays.value, c)
  {
    hide Reconcile, Split, HasId, Sweeps.SweepFollowsPlan, Sweeps.DeletesByPlan, Reaches, DueCalls.SweepDue, OrphansOf;
    var cleanup := c.spec.cleanup.value;
    PlanIsKept(c, Reconcile(c, st, true).trail.status);
    spared, rest := DeletedByPlan(c, OwnSource(c, st), cleanup.minToKeep.value, cleanup.deleteAfterDays.value);
    forall x ensures DeleteDeployment(x) in Reconcile(c, st, true).trail.calls <==> x in c.replies.sweep.deleted {
      DeletedWhenDue(c, st, id, source, env, x);
    }
  }

  lemma PlanIsKept(c: Context, st: Status)
    requires Sweeps.SweepFollowsPlan(c, st, c.replies.sweep) && c.spec.cleanup.value.delete == Some(true)
    requires c.spec.cleanup.value.deleteAfterDays.Some? && c.spec.cleanup.value.minToKeep.Some?
    ensures c.spec.cleanup.value.minToKeep.value >= 0
    ensures var cleanup, own := c.spec.cleanup.value, Sweeps.SourceOfCleanup(c, st);
      Sweeps.DeletesByPlan(OrphansOf(c, own), cleanup.minToKeep.value, own,
                           c.replies.now - cleanup.deleteAfterDays.value * DAY, c.replies.sweep.deleted)
  {
    hide Sweeps.DeletesByPlan, Orphans, Ids, ProtectedIds, Filter;
  }

  lemma DeletedByPlan(c: Context, own: string, keep: nat, days: int) returns (spared: seq<Detail>, rest: seq<Detail>)
    requires c.replies.listDeployments.Ok? && c.replies.listEnvironments.Ok?
    requires Sweeps.DeletesByPlan(OrphansOf(c, own), keep, own, c.replies.now - days * DAY, c.replies.sweep.deleted)
    ensures Split(c, own, keep, spared, rest)
    ensures forall x :: x in c.replies.sweep.deleted <==> HasId(rest, x, days, c)
  {
    hide DeletePlan, OrphansOf, Ids, Split, HasId;
    var sorted, calls :| multiset(sorted) == multiset(OrphansOf(c, own))
      && DeletePlan(sorted, keep, own, c.replies.now - days * DAY, calls) && c.replies.sweep.deleted == Ids(calls);
    spared, rest := PlanDeletes(c, own, keep, days, sorted, calls);
  }

  lemma DeletedWhenDue(c: Context, st: Status, id: string, source: string, env: Environment, x: string)
    requires Sweeping(c, st, id, source, env)
    ensures DeleteDeployment(x) in Reconcile(c, st, true).trail.calls <==> x in c.replies.sweep.deleted
    ensures ScaleIn(x) in Reconcile(c, st, true).trail.calls <==> x in c.replies.sweep.scaledIn
  {
    DueCalls.SteadyDue(c, st, id, source, env);
    DueCalls.DueInSteady(c, st, source, env, DeleteDeployment(x));
    DueCalls.DueInSteady(c, st, source, env, ScaleIn(x));
    hide Reconcile, Reaches, Called, DueCalls.DueThere;
  }

  /** Scaling in, exactly: the strays that do not already have a minimum of zero, if it is asked for. */
  lemma PassScalesInExactly(c: Context, st: Status, id: string, source: string, env: Environment, x: string)
    requires Sweeping(c, st, id, source, env)
    requires Sweeps.SweepFollowsPlan(c, Reconcile(c, st, true).trail.status, c.replies.sweep)
    ensures ScaleIn(x) in Reconcile(c, st, true).trail.calls <==>
      && c.spec.cleanup.value.scaleToZero == Some(true)
      && exists d :: Stray(c, OwnSource(c, st), d) && d.id == x && d.minReplica != Some(0)
    ensures c.spec.cleanup.value.delete != Some(true) ==>
      DeleteDeployment(x) !in Reconcile(c, st, true).trail.calls
  {
    var own := OwnSource(c, st);
    DeletedWhenDue(c, st, id, source, env, x);
    FilterMembers(OrphansOf(c, own), ScalingIn());
    Sweeps.IdsOf(Filter(OrphansOf(c, own), ScalingIn()), x);
    forall d ensures d in OrphansOf(c, own) <==> Stray(c, own, d) {
      StrayIsOrphan(c, own, d);
    }
    hide Reconcile, Stray, Sweeping, Filter, Orphans, ProtectedIds, Ids, Sweeps.DeletesByPlan;
  }
}
