/** Orphan cleanup: which deployments are orphans, which are scaled in, which are deleted. */
module Cleanup {
  import opened Types
  import opened Names
  import opened Baseten

  function Filter<T>(s: seq<T>, p: T -> bool): seq<T> {
    if s == [] then [] else Filter(s[..|s| - 1], p) + if p(s[|s| - 1]) then [s[|s| - 1]] else []
  }

  /* The selections cleanup makes, as predicates on one deployment. */
  function Orphaned(protected: set<string>, source: string): Detail -> bool {
    (d: Detail) => IsOrphan(d, protected, source)
  }
  function ScalingIn(): Detail -> bool { (d: Detail) => NeedsScaleIn(d) }
  function ScaledIn(succeeds: string -> bool): Detail -> bool { (d: Detail) => NeedsScaleIn(d) && succeeds(d.id) }
  function Others(source: string): Detail -> bool { (d: Detail) => !Variant(d, source) }
  function Variants(source: string): Detail -> bool { (d: Detail) => Variant(d, source) }
  function StaleBy(cutoff: Time): Detail -> bool { (d: Detail) => Stale(d, cutoff) }
  function StaleOthers(source: string, cutoff: Time): Detail -> bool {
    (d: Detail) => Stale(d, cutoff) && !Variant(d, source)
  }
  function StaleVariants(source: string, cutoff: Time): Detail -> bool {
    (d: Detail) => Stale(d, cutoff) && Variant(d, source)
  }
  function Answered(succeeds: string -> bool): Detail -> bool { (d: Detail) => succeeds(d.id) }

  function ServingIds(env: Environment): set<string> {
    (if env.current.Some? then {env.current.value.id} else {}) +
    (if env.candidate.Some? then {env.candidate.value.id} else {})
  }

  /** Ids serving in some environment. */
  function ProtectedIds(envs: seq<Environment>): set<string> {
    if envs == [] then {} else ProtectedIds(envs[..|envs| - 1]) + ServingIds(envs[|envs| - 1])
  }

  /** A deployment of the source the CR promotes. */
  predicate Variant(d: Detail, source: string) {
    source != "" && MatchesPrefix(d.name, source)
  }

  predicate Dead(d: Detail) {
    d.status.Inactive? || d.status.TerminalFailure()
  }

  predicate IsOrphan(d: Detail, protected: set<string>, source: string) {
    && d.id !in protected
    && !d.isProduction && !d.isDevelopment
    && (Variant(d, source) ==> d.environment.None? && Dead(d))
  }

  function Orphans(ds: seq<Detail>, protected: set<string>, source: string): seq<Detail> {
    Filter(ds, Orphaned(protected, source))
  }

  method FindOrphanDeployments(deployments: seq<Detail>, environments: seq<Environment>, source: string)
      returns (orphans: seq<Detail>)
    ensures orphans == Orphans(deployments, ProtectedIds(environments), source)
  {
    var protected: set<string> := {};
    for i := 0 to |environments|
      invariant protected == ProtectedIds(environments[..i])
    {
      assert environments[..i + 1][..i] == environments[..i];
      if environments[i].current.Some? {
        protected := protected + {environments[i].current.value.id};
      }
      if environments[i].candidate.Some? {
        protected := protected + {environments[i].candidate.value.id};
      }
    }
    assert environments[..|environments|] == environments;
    orphans := [];
    for i := 0 to |deployments|
      invariant orphans == Orphans(deployments[..i], protected, source)
    {
      var dep := deployments[i];
      assert deployments[..i + 1][..i] == deployments[..i];
      if dep.id in protected {
        continue;
      }
      if dep.isProduction || dep.isDevelopment {
        continue;
      }
      if source != "" && MatchesPrefix(dep.name, source) &&
         (dep.environment.Some? || (!dep.status.Inactive? && !dep.status.TerminalFailure())) {
        continue;
      }
      orphans := orphans + [dep];
    }
    assert deployments[..|deployments|] == deployments;
  }

  /* ---- scaling in ---- */

  predicate NeedsScaleIn(d: Detail) {
    d.minReplica != Some(0)
  }

  function Ids(s: seq<Detail>): seq<string> {
    if s == [] then [] else Ids(s[..|s| - 1]) + [s[|s| - 1].id]
  }

  /** The orphans asked to scale in, and those whose call succeeded. */
  method ScaleInOrphans(orphans: seq<Detail>, succeeds: string -> bool)
      returns (calls: seq<Detail>, scaled: seq<Detail>)
    ensures calls == Filter(orphans, ScalingIn())
    ensures scaled == Filter(orphans, ScaledIn(succeeds))
  {
    calls, scaled := [], [];
    for i := 0 to |orphans|
      invariant calls == Filter(orphans[..i], ScalingIn())
      invariant scaled == Filter(orphans[..i], ScaledIn(succeeds))
    {
      var dep := orphans[i];
      assert orphans[..i + 1][..i] == orphans[..i];
      if dep.minReplica.Some? && dep.minReplica.value == 0 {
        continue;
      }
      calls := calls + [dep];
      if !succeeds(dep.id) {
        continue;
      }
      scaled := scaled + [dep];
    }
    assert orphans[..|orphans|] == orphans;
  }

  /* ---- sorting, as far as sort.Slice promises ---- */

  /** Sorting key: creation time, turned round for newest first. */
  function Rank(d: Detail, newest: bool): int {
    if newest then -d.createdAt.key else d.createdAt.key
  }

  /** Newest first, or oldest first; equal creation times stand in any order. */
  predicate Ordered(s: seq<Detail>, newest: bool) {
    forall i, j :: 0 <= i < j < |s| ==> Rank(s[i], newest) <= Rank(s[j], newest)
  }

  /** Callers may rely on order and permutation only, not on the place of equal elements. */
  method SortSlice(a: array<Detail>, newest: bool)
    modifies a
    ensures Ordered(a[..], newest)
    ensures multiset(a[..]) == multiset(old(a[..]))
  {
    var i := 0;
    while i < a.Length
      invariant 0 <= i <= a.Length
      invariant Ordered(a[..i], newest)
      invariant multiset(a[..]) == multiset(old(a[..]))
    {
      Sink(a, i, newest);
      i := i + 1;
    }
    assert a[..i] == a[..];
  }

  method Swap(a: array<Detail>, i: nat, j: nat)
    requires i < a.Length && j < a.Length
    modifies a
    ensures a[i] == old(a[j]) && a[j] == old(a[i])
    ensures forall k :: 0 <= k < a.Length && k != i && k != j ==> a[k] == old(a[k])
    ensures multiset(a[..]) == multiset(old(a[..]))
  {
    a[i], a[j] := a[j], a[i];
  }

  /** Moves element `n` down to its place in the ordered part before it. */
  method Sink(a: array<Detail>, n: nat, newest: bool)
    requires n < a.Length && Ordered(a[..n], newest)
    modifies a
    ensures Ordered(a[..n + 1], newest)
    ensures multiset(a[..]) == multiset(old(a[..]))
  {
    var j := n;
    while j > 0 && Rank(a[j], newest) < Rank(a[j - 1], newest)
      invariant 0 <= j <= n
      invariant multiset(a[..]) == multiset(old(a[..]))
      invariant forall p, q :: 0 <= p < q <= n && q != j ==> Rank(a[p], newest) <= Rank(a[q], newest)
    {
      Swap(a, j, j - 1);
      j := j - 1;
    }
  }

  /* ---- deleting ---- */

  /** Dead, and created no later than the cutoff; unparsable creation times are passed over. */
  predicate Stale(d: Detail, cutoff: Time) {
    Dead(d) && d.createdAt.instant.Some? && d.createdAt.instant.value <= cutoff
  }

  function Min(a: nat, b: nat): nat { if a < b then a else b }

  /** What deletion may do with orphans `s`, sorted newest first: the first `keep` are spared;
      of the rest exactly the stale ones are deleted, each once, other sources' deployments
      before variants of the CR's own source, each group oldest first. */
  ghost predicate DeletePlan(s: seq<Detail>, keep: nat, source: string, cutoff: Time, calls: seq<Detail>) {
    var rest := s[Min(keep, |s|)..];
    var others := Filter(rest, StaleOthers(source, cutoff));
    var variants := Filter(rest, StaleVariants(source, cutoff));
    && Ordered(s, true)
    && |calls| == |others| + |variants|
    && Ordered(calls[..|others|], false) && multiset(calls[..|others|]) == multiset(others)
    && Ordered(calls[|others|..], false) && multiset(calls[|others|..]) == multiset(variants)
  }

  method DeleteStaleOrphans(orphans: array<Detail>, deleteAfterDays: Option<int>, minToKeep: Option<int>,
                            source: string, now: Time, succeeds: string -> bool)
      returns (calls: seq<Detail>, deleted: seq<Detail>)
    requires minToKeep.Some? ==> minToKeep.value >= 0
    modifies orphans
    ensures multiset(orphans[..]) == multiset(old(orphans[..]))
    ensures deleteAfterDays.None? || minToKeep.None? ==> calls == [] && orphans[..] == old(orphans[..])
    ensures deleteAfterDays.Some? && minToKeep.Some? ==>
      DeletePlan(orphans[..], minToKeep.value, source, now - deleteAfterDays.value * DAY, calls)
    ensures deleted == Filter(calls, Answered(succeeds))
  {
    if deleteAfterDays.None? || minToKeep.None? {
      return [], [];
    }
    SortSlice(orphans, true);
    calls, deleted := DeleteBeyond(orphans[..], minToKeep.value, source, now - deleteAfterDays.value * DAY, succeeds);
  }

  /** The part after the first sort: spare `minKeep`, split, sort each group, and delete. */
  method DeleteBeyond(s: seq<Detail>, minKeep: nat, source: string, cutoff: Time, succeeds: string -> bool)
      returns (calls: seq<Detail>, deleted: seq<Detail>)
    requires Ordered(s, true)
    ensures DeletePlan(s, minKeep, source, cutoff, calls)
    ensures deleted == Filter(calls, Answered(succeeds))
  {
    var protectedCount := minKeep;
    if protectedCount > |s| {
      protectedCount := |s|;
    }
    var nonPrefix, prefixMatched := Split(s[protectedCount..], source);
    nonPrefix := SortedOldestFirst(nonPrefix);
    prefixMatched := SortedOldestFirst(prefixMatched);
    calls, deleted := TryDeleteAll(nonPrefix, cutoff, succeeds);
    var calls', deleted' := TryDeleteAll(prefixMatched, cutoff, succeeds);
    PlanFromGroups(s, minKeep, source, cutoff, nonPrefix, prefixMatched);
    FilterConcat(calls, calls', Answered(succeeds));
    calls, deleted := calls + calls', deleted + deleted';
  }

  method Split(candidates: seq<Detail>, source: string) returns (nonPrefix: seq<Detail>, prefixMatched: seq<Detail>)
    ensures nonPrefix == Filter(candidates, Others(source))
    ensures prefixMatched == Filter(candidates, Variants(source))
  {
    nonPrefix, prefixMatched := [], [];
    for i := 0 to |candidates|
      invariant nonPrefix == Filter(candidates[..i], Others(source))
      invariant prefixMatched == Filter(candidates[..i], Variants(source))
    {
      assert candidates[..i + 1][..i] == candidates[..i];
      if source != "" && MatchesPrefix(candidates[i].name, source) {
        prefixMatched := prefixMatched + [candidates[i]];
        continue;
      }
      nonPrefix := nonPrefix + [candidates[i]];
    }
    assert candidates[..|candidates|] == candidates;
  }

  method SortedOldestFirst(s: seq<Detail>) returns (r: seq<Detail>)
    ensures Ordered(r, false) && multiset(r) == multiset(s)
  {
    var a := new Detail[|s|](i requires 0 <= i < |s| => s[i]);
    assert a[..] == s;
    SortSlice(a, false);
    r := a[..];
  }

  method TryDeleteAll(s: seq<Detail>, cutoff: Time, succeeds: string -> bool)
      returns (calls: seq<Detail>, deleted: seq<Detail>)
    ensures calls == Filter(s, StaleBy(cutoff))
    ensures deleted == Filter(calls, Answered(succeeds))
  {
    calls, deleted := [], [];
    for i := 0 to |s|
      invariant calls == Filter(s[..i], StaleBy(cutoff))
      invariant deleted == Filter(calls, Answered(succeeds))
    {
      var dep := s[i];
      assert s[..i + 1][..i] == s[..i];
      if !dep.status.Inactive? && !dep.status.TerminalFailure() {
        continue;
      }
      if dep.createdAt.instant.None? {
        continue;
      }
      if dep.createdAt.instant.value > cutoff {
        continue;
      }
      ghost var before := calls;
      calls := calls + [dep];
      assert calls[..|calls| - 1] == before;
      if !succeeds(dep.id) {
        continue;
      }
      deleted := deleted + [dep];
    }
    assert s[..|s|] == s;
  }

  /* ---- filters, permutations and order ---- */

  lemma {:induction false} FilterConcat<T>(a: seq<T>, b: seq<T>, p: T -> bool)
    ensures Filter(a + b, p) == Filter(a, p) + Filter(b, p)
  {
    if b == [] {
      assert a + b == a;
    } else {
      assert (a + b)[..|a + b| - 1] == a + b[..|b| - 1];
      FilterConcat(a, b[..|b| - 1], p);
    }
  }

  lemma {:induction false} FilterCount<T>(s: seq<T>, p: T -> bool, x: T)
    ensures multiset(Filter(s, p))[x] == if p(x) then multiset(s)[x] else 0
  {
    if s == [] {
    } else {
      FilterCount(s[..|s| - 1], p, x);
      assert s == s[..|s| - 1] + [s[|s| - 1]];
    }
  }

  lemma {:induction false} FilterMembers<T>(s: seq<T>, p: T -> bool)
    ensures forall x :: x in Filter(s, p) <==> x in s && p(x)
    ensures |Filter(s, p)| <= |s|
  {
    if s == [] {
    } else {
      FilterMembers(s[..|s| - 1], p);
      assert s == s[..|s| - 1] + [s[|s| - 1]];
    }
  }

  lemma {:induction false} FilterOrdered(s: seq<Detail>, p: Detail -> bool, newest: bool)
    requires Ordered(s, newest)
    ensures Ordered(Filter(s, p), newest)
  {
    if s == [] {
    } else {
      var init, last := s[..|s| - 1], s[|s| - 1];
      FilterOrdered(init, p, newest);
      FilterMembers(init, p);
      var f := Filter(init, p);
      forall k | 0 <= k < |f|
        ensures if newest then f[k].createdAt.key >= last.createdAt.key else f[k].createdAt.key <= last.createdAt.key
      {
        assert f[k] in f && f[k] in init;
      }
    }
  }

  lemma FilterPermuted(a: seq<Detail>, b: seq<Detail>, p: Detail -> bool)
    requires multiset(a) == multiset(b)
    ensures multiset(Filter(a, p)) == multiset(Filter(b, p))
  {
    var fa, fb := multiset(Filter(a, p)), multiset(Filter(b, p));
    forall x ensures fa[x] == fb[x] {
      FilterCount(a, p, x);
      FilterCount(b, p, x);
    }
    assert fa == fb;
  }

  lemma {:induction false} FilterTwice<T>(s: seq<T>, p: T -> bool, q: T -> bool, both: T -> bool)
    requires forall x :: both(x) <==> q(x) && p(x)
    ensures Filter(Filter(s, p), q) == Filter(s, both)
  {
    if s == [] {
    } else {
      var init, last := s[..|s| - 1], s[|s| - 1];
      FilterTwice(init, p, q, both);
      if p(last) {
        FilterConcat(Filter(init, p), [last], q);
        assert [last][..0] == [];
        assert Filter([last], q) == if q(last) then [last] else [];
      } else {
        assert Filter(s, p) == Filter(init, p);
      }
    }
  }

  lemma {:induction false} SameLength<T>(a: seq<T>, b: seq<T>)
    requires multiset(a) == multiset(b)
    ensures |a| == |b|
  {
    assert |multiset(a)| == |a| && |multiset(b)| == |b|;
  }

  /** Splitting, sorting and then picking the stale ones carries out the plan. */
  lemma PlanFromGroups(s: seq<Detail>, keep: nat, source: string, cutoff: Time, a: seq<Detail>, b: seq<Detail>)
    requires Ordered(s, true)
    requires Ordered(a, false) && multiset(a) == multiset(Filter(s[Min(keep, |s|)..], Others(source)))
    requires Ordered(b, false) && multiset(b) == multiset(Filter(s[Min(keep, |s|)..], Variants(source)))
    ensures DeletePlan(s, keep, source, cutoff, Filter(a, StaleBy(cutoff)) + Filter(b, StaleBy(cutoff)))
  {
    var rest := s[Min(keep, |s|)..];
    Group(a, rest, cutoff, Others(source), StaleOthers(source, cutoff));
    Group(b, rest, cutoff, Variants(source), StaleVariants(source, cutoff));
    var first, second := Filter(a, StaleBy(cutoff)), Filter(b, StaleBy(cutoff));
    assert (first + second)[..|first|] == first && (first + second)[|first|..] == second;
  }

  ghost predicate GroupOf(g: seq<Detail>, all: seq<Detail>) {
    |g| == |all| && Ordered(g, false) && multiset(g) == multiset(all)
  }

  lemma Group(a: seq<Detail>, rest: seq<Detail>, cutoff: Time, p: Detail -> bool, both: Detail -> bool)
    requires Ordered(a, false) && multiset(a) == multiset(Filter(rest, p))
    requires forall d :: both(d) <==> Stale(d, cutoff) && p(d)
    ensures GroupOf(Filter(a, StaleBy(cutoff)), Filter(rest, both))
  {
    var stale := StaleBy(cutoff);
    FilterOrdered(a, stale, false);
    FilterPermuted(a, Filter(rest, p), stale);
    FilterTwice(rest, p, stale, both);
    SameLength(Filter(a, stale), Filter(rest, both));
  }
}
