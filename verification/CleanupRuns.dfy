/** What orphan cleanup guarantees, for one run and for any number of them. */
module CleanupRuns {
  import opened Types
  import opened Names
  import opened Baseten
  import opened Cleanup

  /* ---- one run ---- */

  /** The plan deletes exactly the stale orphans beyond the newest `keep`, each once, and the
      spared ones are at least as new as every deleted one. */
  lemma PlanIsExact(s: seq<Detail>, keep: nat, source: string, cutoff: Time, calls: seq<Detail>)
    requires DeletePlan(s, keep, source, cutoff, calls)
    ensures multiset(calls) == multiset(Filter(s[Min(keep, |s|)..], StaleBy(cutoff)))
    ensures forall d :: d in calls <==> d in s[Min(keep, |s|)..] && Stale(d, cutoff)
    ensures forall x, y :: x in s[..Min(keep, |s|)] && y in calls ==> x.createdAt.key >= y.createdAt.key
  {
    var k := Min(keep, |s|);
    var rest := s[k..];
    var n := |Filter(rest, StaleOthers(source, cutoff))|;
    assert calls == calls[..n] + calls[n..];
    SplitStale(rest, source, cutoff);
    GroupMembers(calls, rest, StaleBy(cutoff));
    forall x, y | x in s[..k] && y in calls ensures x.createdAt.key >= y.createdAt.key {
      var i :| 0 <= i < k && s[i] == x;
      var j :| 0 <= j < |rest| && rest[j] == y;
      assert Rank(s[i], true) <= Rank(s[k + j], true);
    }
  }

  /** In the order of the calls no variant of the CR's source goes before another source's
      deployment, and within either group older ones go first. */
  lemma PlanOrder(s: seq<Detail>, keep: nat, source: string, cutoff: Time, calls: seq<Detail>, i: nat, j: nat)
    requires DeletePlan(s, keep, source, cutoff, calls) && i < j < |calls|
    ensures Variant(calls[i], source) ==> Variant(calls[j], source)
    ensures (Variant(calls[i], source) <==> Variant(calls[j], source)) ==>
        calls[i].createdAt.key <= calls[j].createdAt.key
  {
    var rest := s[Min(keep, |s|)..];
    var n := |Filter(rest, StaleOthers(source, cutoff))|;
    GroupMembers(calls[..n], rest, StaleOthers(source, cutoff));
    GroupMembers(calls[n..], rest, StaleVariants(source, cutoff));
    PlaceOf(calls, n, i);
    PlaceOf(calls, n, j);
    if j < n {
      assert Rank(calls[..n][i], false) <= Rank(calls[..n][j], false);
    } else if n <= i {
      assert Rank(calls[n..][i - n], false) <= Rank(calls[n..][j - n], false);
    }
  }

  lemma PlaceOf(calls: seq<Detail>, n: nat, i: nat)
    requires n <= |calls| && i < |calls|
    ensures if i < n then calls[i] in calls[..n] else calls[i] in calls[n..]
  {
    if i < n {
      assert calls[..n][i] == calls[i];
    } else {
      assert calls[n..][i - n] == calls[i];
    }
  }

  lemma GroupMembers(g: seq<Detail>, rest: seq<Detail>, p: Detail -> bool)
    requires multiset(g) == multiset(Filter(rest, p))
    ensures forall d :: d in g <==> d in rest && p(d)
  {
    FilterMembers(rest, p);
    forall d ensures d in g <==> d in Filter(rest, p) {
      assert d in g <==> d in multiset(g);
      assert d in Filter(rest, p) <==> d in multiset(Filter(rest, p));
    }
  }

  lemma SplitStale(rest: seq<Detail>, source: string, cutoff: Time)
    ensures multiset(Filter(rest, StaleBy(cutoff)))
         == multiset(Filter(rest, StaleOthers(source, cutoff))) + multiset(Filter(rest, StaleVariants(source, cutoff)))
  {
    var all := multiset(Filter(rest, StaleBy(cutoff)));
    var others, variants := multiset(Filter(rest, StaleOthers(source, cutoff))),
        multiset(Filter(rest, StaleVariants(source, cutoff)));
    forall x ensures all[x] == (others + variants)[x] {
      FilterCount(rest, StaleBy(cutoff), x);
      FilterCount(rest, StaleOthers(source, cutoff), x);
      FilterCount(rest, StaleVariants(source, cutoff), x);
    }
    assert all == others + variants;
  }

  lemma {:induction false} ServingIsProtected(envs: seq<Environment>, id: string)
    ensures id in ProtectedIds(envs) <==> exists env :: env in envs && id in ServingIds(env)
  {
    if envs == [] {
    } else {
      ServingIsProtected(envs[..|envs| - 1], id);
      assert envs == envs[..|envs| - 1] + [envs[|envs| - 1]];
    }
  }

  /** Nothing that serves in a listed environment, nothing flagged production or development,
      and no live or attached variant of the CR's own source is ever scaled in or deleted. */
  lemma CleanupSparesServing(ds: seq<Detail>, envs: seq<Environment>, source: string, sorted: seq<Detail>,
                             keep: nat, cutoff: Time, deletes: seq<Detail>, scaled: seq<Detail>, d: Detail)
    requires scaled == Filter(Orphans(ds, ProtectedIds(envs), source), ScalingIn())
    requires multiset(sorted) == multiset(Orphans(ds, ProtectedIds(envs), source))
    requires DeletePlan(sorted, keep, source, cutoff, deletes)
    requires d in deletes || d in scaled
    ensures forall env :: env in envs ==> d.id !in ServingIds(env)
    ensures !d.isProduction && !d.isDevelopment
    ensures Variant(d, source) ==> Dead(d) && d.environment.None?
    ensures d in deletes ==> Dead(d)
    ensures d in scaled ==> d.minReplica != Some(0)
  {
    var orphans := Orphans(ds, ProtectedIds(envs), source);
    PlanIsExact(sorted, keep, source, cutoff, deletes);
    FilterMembers(orphans, ScalingIn());
    FilterMembers(ds, Orphaned(ProtectedIds(envs), source));
    assert d in orphans by {
      if d in deletes {
        assert d in sorted;
        assert d in multiset(sorted);
      }
    }
    ServingIsProtected(envs, d.id);
  }

  /* ---- repeated runs ---- */

  function NotIn(gone: seq<Detail>): Detail -> bool { (d: Detail) => d !in gone }

  /** The deployments left when the calls for `gone` succeeded. */
  function Remaining(ds: seq<Detail>, gone: seq<Detail>): seq<Detail> {
    Filter(ds, NotIn(gone))
  }

  predicate NoRepeats(ds: seq<Detail>) {
    forall i, j :: 0 <= i < j < |ds| ==> ds[i] != ds[j]
  }

  /** A cleanup run takes `ds` to `ds'`: some sorted order of the orphans, the plan for it, and
      any part of the planned deletions succeeding. */
  ghost predicate CleanupRun(ds: seq<Detail>, ds': seq<Detail>, protected: set<string>, source: string, keep: nat,
                             cutoff: Time) {
    exists sorted: seq<Detail>, calls: seq<Detail>, gone: seq<Detail> ::
      RunOf(ds, ds', protected, source, keep, cutoff, sorted, calls, gone)
  }

  ghost predicate RunOf(ds: seq<Detail>, ds': seq<Detail>, protected: set<string>, source: string, keep: nat,
                        cutoff: Time,
                        sorted: seq<Detail>, calls: seq<Detail>, gone: seq<Detail>) {
    && multiset(sorted) == multiset(Orphans(ds, protected, source))
    && DeletePlan(sorted, keep, source, cutoff, calls)
    && (forall d :: d in gone ==> d in calls)
    && ds' == Remaining(ds, gone)
  }

  lemma RemainingOrphans(ds: seq<Detail>, gone: seq<Detail>, protected: set<string>, source: string)
    ensures Orphans(Remaining(ds, gone), protected, source) == Remaining(Orphans(ds, protected, source), gone)
  {
    var p, q := Orphaned(protected, source), NotIn(gone);
    var both := (d: Detail) => p(d) && q(d);
    FilterTwice(ds, p, q, both);
    FilterTwice(ds, q, p, both);
  }

  lemma {:induction false} NoRepeatsCount(s: seq<Detail>, x: Detail)
    requires NoRepeats(s)
    ensures multiset(s)[x] <= 1
  {
    if s == [] {
    } else {
      var init, last := s[..|s| - 1], s[|s| - 1];
      NoRepeatsCount(init, x);
      assert s == init + [last];
      assert last !in init;
    }
  }

  lemma {:induction false} CountsGiveNoRepeats(s: seq<Detail>)
    requires forall x :: multiset(s)[x] <= 1
    ensures NoRepeats(s)
  {
    forall i, j | 0 <= i < j < |s| ensures s[i] != s[j] {
      assert s == s[..j] + [s[j]] + s[j + 1..];
      assert s[i] in s[..j];
      assert multiset(s)[s[j]] == multiset(s[..j])[s[j]] + 1 + multiset(s[j + 1..])[s[j]];
    }
  }

  lemma OrphansNoRepeats(ds: seq<Detail>, p: Detail -> bool, sorted: seq<Detail>)
    requires NoRepeats(ds) && multiset(sorted) == multiset(Filter(ds, p))
    ensures NoRepeats(sorted) && NoRepeats(Filter(ds, p))
  {
    forall x ensures multiset(sorted)[x] <= 1 {
      FilterCount(ds, p, x);
      NoRepeatsCount(ds, x);
    }
    CountsGiveNoRepeats(sorted);
    CountsGiveNoRepeats(Filter(ds, p));
  }

  /** Everything spared stays. */
  lemma SparedRemain(s: seq<Detail>, keep: nat, source: string, cutoff: Time, calls: seq<Detail>, gone: seq<Detail>)
    requires NoRepeats(s) && DeletePlan(s, keep, source, cutoff, calls) && forall d :: d in gone ==> d in calls
    ensures Remaining(s, gone) == s[..Min(keep, |s|)] + Remaining(s[Min(keep, |s|)..], gone)
  {
    var k := Min(keep, |s|);
    PlanIsExact(s, keep, source, cutoff, calls);
    assert s == s[..k] + s[k..];
    FilterConcat(s[..k], s[k..], NotIn(gone));
    forall i | 0 <= i < k ensures s[i] !in gone {
      forall j | k <= j < |s| ensures s[j] != s[i] {}
      assert s[i] !in s[k..];
    }
    AllKept(s[..k], NotIn(gone));
  }

  lemma {:induction false} AllKept(s: seq<Detail>, p: Detail -> bool)
    requires forall i :: 0 <= i < |s| ==> p(s[i])
    ensures Filter(s, p) == s
  {
    if s == [] {
    } else {
      AllKept(s[..|s| - 1], p);
    }
  }

  /** A run never leaves fewer orphans than the smaller of `keep` and what it found. */
  lemma RunKeepsMinimum(ds: seq<Detail>, ds': seq<Detail>, protected: set<string>, source: string, keep: nat,
                        cutoff: Time)
    requires NoRepeats(ds) && CleanupRun(ds, ds', protected, source, keep, cutoff)
    ensures |Orphans(ds', protected, source)| >= Min(keep, |Orphans(ds, protected, source)|)
    ensures NoRepeats(ds')
  {
    var sorted, calls, gone :| RunOf(ds, ds', protected, source, keep, cutoff, sorted, calls, gone);
    var orphans := Orphans(ds, protected, source);
    OrphansNoRepeats(ds, Orphaned(protected, source), sorted);
    SparedRemain(sorted, keep, source, cutoff, calls, gone);
    RemainingOrphans(ds, gone, protected, source);
    FilterPermuted(sorted, orphans, NotIn(gone));
    SameLength(Remaining(sorted, gone), Remaining(orphans, gone));
    SameLength(sorted, orphans);
    OrphansNoRepeats(ds, NotIn(gone), ds');
  }

  /** One run of many: what it found and left, and what it protected, with its own environments,
      source and cutoff. */
  datatype Sweeping = Sweeping(
    before: seq<Detail>, after: seq<Detail>, protected: set<string>, source: string, cutoff: Time)
  {
    ghost predicate Valid(keep: nat) {
      NoRepeats(before) && CleanupRun(before, after, protected, source, keep, cutoff)
    }

    function Found(): nat { |Orphans(before, protected, source)| }

    function Left(): nat { |Orphans(after, protected, source)| }
  }

  /** Over any sequence of runs, with any cutoffs and any failing calls, while environments and
      source change and new deployments appear between them: as long as no orphans are lost from
      one run to the next, the orphan count never falls below the smaller of `keep` and the count
      at the start. */
  lemma {:induction false} RunsKeepMinimum(runs: seq<Sweeping>, keep: nat)
    requires |runs| > 0
    requires forall i :: 0 <= i < |runs| ==> runs[i].Valid(keep)
    requires forall i :: 0 <= i < |runs| - 1 ==> runs[i].Left() <= runs[i + 1].Found()
    ensures runs[|runs| - 1].Left() >= Min(keep, runs[0].Found())
  {
    var last := runs[|runs| - 1];
    RunKeepsMinimum(last.before, last.after, last.protected, last.source, keep, last.cutoff);
    if |runs| > 1 {
      var init := runs[..|runs| - 1];
      assert forall i :: 0 <= i < |init| ==> init[i] == runs[i];
      RunsKeepMinimum(init, keep);
      assert runs[|runs| - 2].Left() <= last.Found();
    }
  }

  /* ---- when a second run can delete again ---- */

  function Reversed(s: seq<Detail>): seq<Detail> {
    if s == [] then [] else Reversed(s[1..]) + [s[0]]
  }

  lemma HeadIsNewest(s: seq<Detail>, d: Detail)
    requires s != [] && Ordered(s, true) && d in s[1..]
    ensures d.createdAt.key <= s[0].createdAt.key
  {
    var j :| 0 <= j < |s[1..]| && s[1..][j] == d;
    assert Rank(s[0], true) <= Rank(s[j + 1], true);
  }

  lemma AppendNewest(r: seq<Detail>, d: Detail)
    requires Ordered(r, false) && forall e :: e in r ==> e.createdAt.key <= d.createdAt.key
    ensures Ordered(r + [d], false)
  {
    forall i | 0 <= i < |r| ensures r[i].createdAt.key <= d.createdAt.key {
      assert r[i] in r;
    }
  }

  lemma {:induction false} ReversedIsOldestFirst(s: seq<Detail>)
    requires Ordered(s, true)
    ensures Ordered(Reversed(s), false) && multiset(Reversed(s)) == multiset(s)
  {
    if s == [] {
    } else {
      ReversedIsOldestFirst(s[1..]);
      assert s == [s[0]] + s[1..];
      var r := Reversed(s[1..]);
      forall e | e in r ensures e.createdAt.key <= s[0].createdAt.key {
        assert e in multiset(r);
        HeadIsNewest(s, e);
      }
      AppendNewest(r, s[0]);
    }
  }

  /** There is a plan for every sorted order. */
  lemma PlanExists(s: seq<Detail>, keep: nat, source: string, cutoff: Time) returns (calls: seq<Detail>)
    requires Ordered(s, true)
    ensures DeletePlan(s, keep, source, cutoff, calls)
  {
    var rest := s[Min(keep, |s|)..];
    var others, variants := Filter(rest, StaleOthers(source, cutoff)), Filter(rest, StaleVariants(source, cutoff));
    FilterOrdered(rest, StaleOthers(source, cutoff), true);
    FilterOrdered(rest, StaleVariants(source, cutoff), true);
    ReversedIsOldestFirst(others);
    ReversedIsOldestFirst(variants);
    SameLength(Reversed(others), others);
    SameLength(Reversed(variants), variants);
    calls := Reversed(others) + Reversed(variants);
    assert calls[..|others|] == Reversed(others) && calls[|others|..] == Reversed(variants);
  }

  lemma {:induction false} NoRepeatsSize(s: seq<Detail>)
    requires NoRepeats(s)
    ensures |set d | d in s| == |s|
  {
    if s == [] {
    } else {
      var init, last := s[..|s| - 1], s[|s| - 1];
      NoRepeatsSize(init);
      assert s == init + [last];
      assert last !in init;
      assert (set d | d in s) == (set d | d in init) + {last};
    }
  }

  lemma SubsetSize(a: set<Detail>, b: set<Detail>)
    requires a <= b
    ensures |a| <= |b|
  {
    assert b == a + (b - a);
  }

  /** If something spared is not among the first, something not spared has taken its place. */
  lemma PlaceTaken(spared: seq<Detail>, first: seq<Detail>, x: Detail)
    requires NoRepeats(first) && |first| == |spared| && NoRepeats(spared)
    requires x in spared && x !in first
    ensures exists y :: y in first && y !in spared
  {
    var a, b := set d | d in first, set d | d in spared;
    NoRepeatsSize(first);
    NoRepeatsSize(spared);
    assert |b - {x}| == |b| - 1;
    if a <= b - {x} {
      SubsetSize(a, b - {x});
    } else {
      var y :| y in a && y !in b - {x};
      assert y in first && y !in spared;
    }
  }

  /** Whoever stands before is no older. */
  lemma EarlierIsNewer(a: seq<Detail>, b: seq<Detail>, x: Detail, y: Detail)
    requires Ordered(a + b, true) && x in a && y in b
    ensures x.createdAt.key >= y.createdAt.key
  {
    var i :| 0 <= i < |a| && a[i] == x;
    var j :| 0 <= j < |b| && b[j] == y;
    var all := a + b;
    assert all[i] == x && all[|a| + j] == y;
    assert Rank(all[i], true) <= Rank(all[|a| + j], true);
  }

  lemma PartsDiffer(s: seq<Detail>, k: nat, x: Detail)
    requires NoRepeats(s) && k <= |s|
    ensures NoRepeats(s[..k]) && (x in s[k..] ==> x !in s[..k])
  {
    if x in s[k..] {
      var n :| 0 <= n < |s[k..]| && s[k..][n] == x;
      assert s[k + n] == x;
    }
  }

  /** And in sorted orders of the same orphans the two are of one age. */
  lemma PlaceTakenByEqual(spared: seq<Detail>, left: seq<Detail>, s: seq<Detail>, x: Detail) returns (y: Detail)
    requires Ordered(spared + left, true) && Ordered(s, true) && multiset(s) == multiset(spared + left)
    requires NoRepeats(spared + left) && NoRepeats(s) && |spared| <= |s|
    requires x in spared && x in s[|spared|..]
    ensures y in left && y.createdAt.key == x.createdAt.key
  {
    hide Ordered, NoRepeats;
    var k := |spared|;
    PartsDiffer(spared + left, k, x);
    assert (spared + left)[..k] == spared && s == s[..k] + s[k..];
    PartsDiffer(s, k, x);
    PlaceTaken(spared, s[..k], x);
    y :| y in s[..k] && y !in spared;
    assert y in s[0..];
    InEither(spared, left, s, 0, y);
    EarlierIsNewer(s[..k], s[k..], y, x);
    EarlierIsNewer(spared, left, x, y);
  }

  /** Two orphans of one age may change places. */
  lemma SwapEqual(s: seq<Detail>, i: nat, j: nat)
    requires Ordered(s, true) && i < j < |s| && s[i].createdAt.key == s[j].createdAt.key
    ensures Ordered(s[i := s[j]][j := s[i]], true) && multiset(s[i := s[j]][j := s[i]]) == multiset(s)
  {
    var t := s[i := s[j]][j := s[i]];
    forall p, q | 0 <= p < q < |t| ensures Rank(t[p], true) <= Rank(t[q], true) {
      assert Rank(t[p], true) == Rank(s[p], true) && Rank(t[q], true) == Rank(s[q], true);
    }
  }

  /** A stale orphan among the spared has the age of one beyond them that is not stale. */
  ghost predicate Tied(s: seq<Detail>, keep: nat, cutoff: Time) {
    exists x, y :: x in s[..Min(keep, |s|)] && y in s[Min(keep, |s|)..] && Stale(x, cutoff) && !Stale(y, cutoff)
      && x.createdAt.key == y.createdAt.key
  }

  ghost predicate MayDelete(ds: seq<Detail>, protected: set<string>, source: string, keep: nat, cutoff: Time) {
    exists sorted, calls :: multiset(sorted) == multiset(Orphans(ds, protected, source))
      && DeletePlan(sorted, keep, source, cutoff, calls) && calls != []
  }

  /** What a fully successful run leaves of the orphans: the spared and those that are not stale. */
  lemma LeftBySuccess(ds: seq<Detail>, protected: set<string>, source: string, keep: nat, cutoff: Time,
                      sorted: seq<Detail>, calls: seq<Detail>) returns (left: seq<Detail>)
    requires NoRepeats(ds)
    requires RunOf(ds, Remaining(ds, calls), protected, source, keep, cutoff, sorted, calls, calls)
    ensures var spared := sorted[..Min(keep, |sorted|)];
      && NoRepeats(spared + left) && Ordered(spared + left, true)
      && multiset(spared + left) == multiset(Orphans(Remaining(ds, calls), protected, source))
    ensures forall d :: d in left <==> d in sorted[Min(keep, |sorted|)..] && !Stale(d, cutoff)
  {
    var orphans, k := Orphans(ds, protected, source), Min(keep, |sorted|);
    OrphansNoRepeats(ds, Orphaned(protected, source), sorted);
    RemainingOrphans(ds, calls, protected, source);
    FilterPermuted(sorted, orphans, NotIn(calls));
    FilterOrdered(sorted, NotIn(calls), true);
    SparedRemain(sorted, keep, source, cutoff, calls, calls);
    PlanIsExact(sorted, keep, source, cutoff, calls);
    left := Remaining(sorted[k..], calls);
    FilterMembers(sorted[k..], NotIn(calls));
    OrphansNoRepeats(sorted, NotIn(calls), sorted[..k] + left);
  }

  /** As many are spared the second time. */
  lemma SparesAsMany(sorted: seq<Detail>, keep: nat, left: seq<Detail>, n: nat)
    requires n == |sorted[..Min(keep, |sorted|)] + left|
    requires forall d :: d in left ==> d in sorted[Min(keep, |sorted|)..]
    ensures Min(keep, n) == Min(keep, |sorted|)
  {
    assert left != [] ==> left[0] in left;
  }

  lemma DeletionNeedsTie(sorted: seq<Detail>, keep: nat, source: string, cutoff: Time, left: seq<Detail>,
                         s: seq<Detail>, calls: seq<Detail>)
    requires var spared := sorted[..Min(keep, |sorted|)];
      && NoRepeats(spared + left) && Ordered(spared + left, true) && multiset(s) == multiset(spared + left)
    requires forall d :: d in left <==> d in sorted[Min(keep, |sorted|)..] && !Stale(d, cutoff)
    requires DeletePlan(s, keep, source, cutoff, calls) && calls != []
    ensures Tied(sorted, keep, cutoff)
  {
    var k, x := Min(keep, |sorted|), calls[0];
    var spared := sorted[..k];
    PlanIsExact(s, keep, source, cutoff, calls);
    assert x in calls;
    SameLength(s, spared + left);
    SparesAsMany(sorted, keep, left, |s|);
    OnceEach(spared + left, s);
    assert x in s[k..] && Stale(x, cutoff);
    InEither(spared, left, s, k, x);
    var y := PlaceTakenByEqual(spared, left, s, x);
  }

  lemma OnceEach(a: seq<Detail>, b: seq<Detail>)
    requires NoRepeats(a) && multiset(a) == multiset(b)
    ensures NoRepeats(b)
  {
    forall d ensures multiset(b)[d] <= 1 {
      NoRepeatsCount(a, d);
    }
    CountsGiveNoRepeats(b);
  }

  lemma InEither(a: seq<Detail>, b: seq<Detail>, s: seq<Detail>, k: nat, x: Detail)
    requires multiset(s) == multiset(a + b) && k <= |s| && x in s[k..]
    ensures x in a || x in b
  {
    assert x in multiset(s);
    assert x in a + b;
  }

  /** A sorted order in which the stale one stands beyond the first. */
  lemma MovedBack(spared: seq<Detail>, left: seq<Detail>, x: Detail, y: Detail) returns (s: seq<Detail>)
    requires Ordered(spared + left, true) && x in spared && y in left && x.createdAt.key == y.createdAt.key
    ensures Ordered(s, true) && multiset(s) == multiset(spared + left) && |s| == |spared + left|
    ensures x in s[|spared|..]
  {
    var k, all := |spared|, spared + left;
    var i :| 0 <= i < k && spared[i] == x;
    var j :| 0 <= j < |left| && left[j] == y;
    assert all[i] == x && all[k + j] == y;
    hide Ordered;
    SwapEqual(all, i, k + j);
    s := all[i := all[k + j]][k + j := all[i]];
    PlaceOf(s, k, k + j);
  }

  lemma TieAllowsDeletion(sorted: seq<Detail>, keep: nat, source: string, cutoff: Time, left: seq<Detail>)
      returns (s: seq<Detail>, calls: seq<Detail>)
    requires Ordered(sorted[..Min(keep, |sorted|)] + left, true)
    requires forall d :: d in left <==> d in sorted[Min(keep, |sorted|)..] && !Stale(d, cutoff)
    requires Tied(sorted, keep, cutoff)
    ensures multiset(s) == multiset(sorted[..Min(keep, |sorted|)] + left)
    ensures DeletePlan(s, keep, source, cutoff, calls) && calls != []
  {
    var k := Min(keep, |sorted|);
    var x, y :| x in sorted[..k] && y in sorted[k..] && Stale(x, cutoff) && !Stale(y, cutoff)
                && x.createdAt.key == y.createdAt.key;
    hide Tied, Stale, Ordered, DeletePlan;
    SparesAsMany(sorted, keep, left, |sorted[..k] + left|);
    s := MovedBack(sorted[..k], left, x, y);
    calls := PlanExists(s, keep, source, cutoff);
    PlanIsExact(s, keep, source, cutoff, calls);
    assert x in calls;
  }

  /** After a fully successful run an immediate second one may delete something if and only if a
      stale orphan among the spared has the age of one beyond them that is not stale. */
  lemma SecondRunDeletesExactlyWhenTied(ds: seq<Detail>, protected: set<string>, source: string, keep: nat,
                                        cutoff: Time,
                                        sorted: seq<Detail>, calls: seq<Detail>)
    requires NoRepeats(ds)
    requires RunOf(ds, Remaining(ds, calls), protected, source, keep, cutoff, sorted, calls, calls)
    ensures MayDelete(Remaining(ds, calls), protected, source, keep, cutoff) <==> Tied(sorted, keep, cutoff)
  {
    var left := LeftBySuccess(ds, protected, source, keep, cutoff, sorted, calls);
    hide Tied, DeletePlan, RunOf, Remaining, Orphans;
    if MayDelete(Remaining(ds, calls), protected, source, keep, cutoff) {
      var s, again :| multiset(s) == multiset(Orphans(Remaining(ds, calls), protected, source))
                      && DeletePlan(s, keep, source, cutoff, again) && again != [];
      DeletionNeedsTie(sorted, keep, source, cutoff, left, s, again);
    }
    if Tied(sorted, keep, cutoff) {
      var s, again := TieAllowsDeletion(sorted, keep, source, cutoff, left);
    }
  }

  predicate KeysDistinct(s: seq<Detail>) {
    forall i, j :: 0 <= i < j < |s| ==> s[i].createdAt.key != s[j].createdAt.key
  }

  lemma DistinctIsUntied(s: seq<Detail>, keep: nat, cutoff: Time)
    requires KeysDistinct(s)
    ensures !Tied(s, keep, cutoff)
  {
    var k := Min(keep, |s|);
    forall x, y | x in s[..k] && y in s[k..] ensures x.createdAt.key != y.createdAt.key {
      var i :| 0 <= i < k && s[i] == x;
      var j :| 0 <= j < |s[k..]| && s[k..][j] == y;
      assert s[k + j] == y;
    }
  }

  /** In particular with distinct creation times a second run with the same cutoff after a fully
      successful one asks for no deletion at all. */
  lemma SecondRunDeletesNothing(ds: seq<Detail>, protected: set<string>, source: string, keep: nat, cutoff: Time,
                                sorted: seq<Detail>, calls: seq<Detail>, sorted': seq<Detail>, calls': seq<Detail>)
    requires NoRepeats(ds) && KeysDistinct(sorted)
    requires RunOf(ds, Remaining(ds, calls), protected, source, keep, cutoff, sorted, calls, calls)
    requires multiset(sorted') == multiset(Orphans(Remaining(ds, calls), protected, source))
    requires DeletePlan(sorted', keep, source, cutoff, calls')
    ensures calls' == []
  {
    DistinctIsUntied(sorted, keep, cutoff);
    var left := LeftBySuccess(ds, protected, source, keep, cutoff, sorted, calls);
    hide Tied, DeletePlan, RunOf, Remaining, Orphans, KeysDistinct;
    if calls' != [] {
      DeletionNeedsTie(sorted, keep, source, cutoff, left, sorted', calls');
    }
  }

  /** The smallest case of a tie: sort.Slice may put two orphans of one age either way round, so a
      run may spare the dead one and the next run delete it. */
  lemma EqualAgesMayBeDeletedNextTime(dead: Detail, live: Detail, source: string, cutoff: Time)
    requires dead.createdAt.key == live.createdAt.key
    requires Stale(dead, cutoff) && !Dead(live)
    ensures multiset([dead, live]) == multiset([live, dead])
    ensures DeletePlan([dead, live], 1, source, cutoff, [])
    ensures DeletePlan([live, dead], 1, source, cutoff, [dead])
  {
    PlanForTwo(dead, live, source, cutoff);
    PlanForTwo(live, dead, source, cutoff);
  }

  lemma FilterOne(d: Detail, p: Detail -> bool)
    ensures Filter([d], p) == if p(d) then [d] else []
  {
    assert [d][..0] == [];
  }

  lemma ShortIsOrdered(s: seq<Detail>, newest: bool)
    requires |s| <= 1
    ensures Ordered(s, newest)
  {
  }

  /** Of two orphans with one to keep, the plan for a given order is decided by the second. */
  lemma PlanForTwo(spared: Detail, other: Detail, source: string, cutoff: Time)
    requires spared.createdAt.key >= other.createdAt.key
    ensures DeletePlan([spared, other], 1, source, cutoff, if Stale(other, cutoff) then [other] else [])
  {
    var calls := if Stale(other, cutoff) then [other] else [];
    assert [spared, other][Min(1, 2)..] == [other];
    FilterOne(other, StaleOthers(source, cutoff));
    FilterOne(other, StaleVariants(source, cutoff));
    assert Ordered([spared, other], true);
    ShortIsOrdered(calls, false);
    ShortIsOrdered([], false);
    hide Filter, Stale, Variant, Ordered;
    assert calls[|calls|..] == [] && calls[0..] == calls && calls[..|calls|] == calls && calls[..0] == [];
  }
}
