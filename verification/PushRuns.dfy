/** Pushes over whole runs: waiting after failures, agreement of the cached name, capacity. */
module PushRuns {
  import opened Types
  import opened Names
  import opened Drift
  import opened Schedules
  import opened Baseten
  import opened Model
  import opened StatusUpdates
  import opened Backoff
  import opened Steps
  import opened Pushes
  import opened PassPush
  import PassCalls
  import Runs

  /** A resource whose writes all succeed, and the names of its pushes in flight. `waiting` is the
      last recorded failure that still holds pushes of its name back; `early` counts pushes that
      went out in spite of it; `failing` counts the failures in a row of one deployment name. */
  datatype World = World(stored: Status, flying: seq<string>, waiting: Option<Wait>, early: nat, failing: Failing)

  /** Failures of pushes of this name since one succeeded, since the deployment turned out to
      exist, and since a pass read another configuration. */
  datatype Failing = Failing(name: string, count: nat)

  datatype Wait = Wait(name: string, until: Time)

  datatype Event =
    | PassRuns(c: Context, finalizer: bool)
    | PushSucceeds(push: nat, modelID: string, now: Time)
    | PushFails(push: nat, error: string, now: Time, jitter: nat)
    | PushVanishes(push: nat)

  ghost predicate Enabled(w: World, e: Event) {
    match e
    case PassRuns(_, _) => true
    case PushSucceeds(k, _, _) => k < |w.flying|
    case PushFails(k, _, _, _) => k < |w.flying|
    case PushVanishes(k) => k < |w.flying|
  }

  function Without<T>(s: seq<T>, k: nat): seq<T> requires k < |s| { s[..k] + s[k + 1..] }

  ghost predicate Launches(c: Context, st: Status, finalizer: bool) {
    var calls := Reconcile(c, st, finalizer).trail.calls;
    |calls| > 0 && calls[0].Push?
  }

  /** The configuration a pass reads is one of another deployment name, or none. */
  predicate OtherConfig(c: Context, name: string) {
    c.spec.truss.None? || (c.replies.setupScript.Some? && TrussName(c) != name)
  }

  /** A pass ends the waiting when its time is over, the configuration has changed, or the
      deployment turns out to exist. */
  ghost predicate StillWaits(w: Wait, c: Context, stored': Status) {
    c.replies.now < w.until && !OtherConfig(c, w.name) && !stored'.pushStatus.PushDone?
  }

  ghost function StillFailing(f: Failing, c: Context, stored': Status): Failing {
    if OtherConfig(c, f.name) || stored'.pushStatus.PushDone? then f.(count := 0) else f
  }

  ghost function Next(w: World, e: Event): World
    requires Enabled(w, e)
  {
    match e
    case PassRuns(c, finalizer) =>
      var launches := Launches(c, w.stored, finalizer);
      var stored' := Runs.Persist(LastStored(w.stored, Reconcile(c, w.stored, finalizer).trail));
      World(stored',
            w.flying + (if launches && Reads(c) then [TrussName(c)] else []),
            if w.waiting.Some? && StillWaits(w.waiting.value, c, stored') then w.waiting else None,
            w.early + (if launches && Reads(c) && w.waiting.Some? && w.waiting.value.name == TrussName(c)
                          && c.replies.now < w.waiting.value.until then 1 else 0),
            StillFailing(w.failing, c, stored'))
    case PushSucceeds(k, modelID, now) =>
      var stored' := Runs.Persist(UpdatePushStatus(w.stored, modelID, now));
      World(stored', Without(w.flying, k), None, w.early, w.failing.(count := 0))
    case PushFails(k, error, now, jitter) =>
      var stored' := Runs.Persist(RecordPushFailure(w.stored, error, now, jitter));
      World(stored', Without(w.flying, k), Some(Wait(w.flying[k], stored'.pushNextRetryTime.value)), w.early,
            Failing(w.flying[k], if w.failing.name == w.flying[k] then w.failing.count + 1 else 1))
    case PushVanishes(k) => w.(flying := Without(w.flying, k))
  }

  ghost predicate IsRun(ws: seq<World>, es: seq<Event>) {
    && |ws| == |es| + 1
    && forall i :: 0 <= i < |es| ==> Enabled(ws[i], es[i]) && ws[i + 1] == Next(ws[i], es[i])
  }

  /* ---- waiting after a failure ---- */

  /** A failure is recorded on a status that names the deployment which failed. */
  predicate LandsInPlace(w: World, e: Event) {
    e.PushFails? && e.push < |w.flying| ==> w.stored.sourceDeploymentName == w.flying[e.push]
  }

  predicate WaitStored(w: World) {
    w.waiting.Some? ==>
      && w.stored.pushStatus.PushFailed? && w.stored.sourceDeploymentName == w.waiting.value.name
      && w.stored.pushNextRetryTime == Some(w.waiting.value.until)
      && Runs.Whole(w.waiting.value.until) == w.waiting.value.until
  }

  lemma PassKeepsWait(w: World, c: Context, finalizer: bool)
    requires WaitStored(w) && w.waiting.Some? && c.replies.now < w.waiting.value.until
    requires !OtherConfig(c, w.waiting.value.name)
    ensures !Announces(c, w.stored, finalizer)
    ensures !Launches(c, w.stored, finalizer)
    ensures WaitStored(Next(w, PassRuns(c, finalizer)))
  {
    hide Reconcile, ResolveModelID;
    PushesExactlyWhenAnnounced(c, w.stored, finalizer);
    PassLeaves(c, w.stored, finalizer);
  }

  lemma NextKeepsWait(w: World, e: Event)
    requires Enabled(w, e) && WaitStored(w) && LandsInPlace(w, e) && w.early == 0
    ensures WaitStored(Next(w, e)) && Next(w, e).early == 0
  {
    hide Reconcile, Announces, LastStored;
    match e
    case PassRuns(c, finalizer) =>
      if w.waiting.Some? && c.replies.now < w.waiting.value.until && !OtherConfig(c, w.waiting.value.name) {
        PassKeepsWait(w, c, finalizer);
      }
    case _ =>
  }

  /** Push backoff: as long as failures are recorded on a status that names what failed, no push of
      that name goes out before its retry time, whatever else happens in between. */
  lemma {:induction false} NoPushBeforeItsTime(ws: seq<World>, es: seq<Event>, i: nat)
    requires IsRun(ws, es) && i < |ws|
    requires ws[0].waiting.None? && ws[0].early == 0
    requires forall j :: 0 <= j < |es| ==> LandsInPlace(ws[j], es[j])
    ensures ws[i].early == 0 && WaitStored(ws[i])
  {
    hide Next, Enabled, LandsInPlace;
    if i == 0 {

    } else {
      NoPushBeforeItsTime(ws, es, i - 1);
      assert Enabled(ws[i - 1], es[i - 1]) && ws[i - 1 + 1] == Next(ws[i - 1], es[i - 1]);
      NextKeepsWait(ws[i - 1], es[i - 1]);
    }
  }

  /** The condition is exact: recorded on a status that names something else, the failure does not
      hold back the very next pass that is otherwise ready to push. */
  lemma EarlyPushExactlyWhenMisplaced(st: Status, name: string, error: string, now: Time, jitter: nat, c: Context)
    requires PassCalls.Acting(c, true) && Reads(c) && TrussName(c) == name
    requires c.replies.configGenerates && c.replies.pushSlotFree
    requires var st' := Runs.Persist(RecordPushFailure(st, error, now, jitter));
      && c.replies.now < st'.pushNextRetryTime.value
      && ResolveModelID(c, Start(st')).Go? && Unanswered(c, st', ResolveModelID(c, Start(st')).value)
    ensures var st' := Runs.Persist(RecordPushFailure(st, error, now, jitter));
      Launches(c, st', true) <==> st.sourceDeploymentName != name
  {
    hide Reconcile, ResolveModelID;
    PushesExactlyWhenAnnounced(c, Runs.Persist(RecordPushFailure(st, error, now, jitter)), true);
  }

  /** How a failure comes to be misplaced without any change of configuration: a pass that takes
      the push in flight for dead announces another one, finds no slot, and blanks the name. */
  lemma FullSemaphoreBlanksName(c: Context, st: Status)
    requires Announces(c, st, true) && !c.replies.pushSlotFree
    ensures var after := LastStored(st, Reconcile(c, st, true).trail);
      after.sourceDeploymentName == "" && after.trussConfigHash == TrussHash(c) && after.pushStatus.NoPush?
    ensures PushIsCurrent(st, TrussName(c)) ==> PushIsStale(st, c.replies.now)
  {
    hide Reconcile, LastStored, ResolveModelID;
    PassLeaves(c, st, true);
  }

  /** While pushes are in flight, passes read their configuration, and one that announces another
      push of it finds a free slot. */
  ghost predicate Undisturbed(w: World, e: Event) {
    e.PassRuns? && w.flying != [] ==>
      !OtherConfig(e.c, w.flying[0]) && (Announces(e.c, w.stored, e.finalizer) ==> e.c.replies.pushSlotFree)
  }

  /** The status names what is in flight. */
  predicate NamesFlying(w: World) {
    forall i :: 0 <= i < |w.flying| ==> w.flying[i] == w.stored.sourceDeploymentName
  }

  lemma PassKeepsNames(w: World, c: Context, finalizer: bool)
    requires NamesFlying(w) && Undisturbed(w, PassRuns(c, finalizer))
    ensures NamesFlying(Next(w, PassRuns(c, finalizer)))
  {
    hide Reconcile, LastStored, Announces, BackingOff, DeploymentName;
    PushesExactlyWhenAnnounced(c, w.stored, finalizer);
    if Announces(c, w.stored, finalizer) {
      AnnouncesReads(c, w.stored, finalizer);
    }
    if c.spec.truss.Some? {
      PassLeaves(c, w.stored, finalizer);
    }
  }

  lemma NextKeepsNames(w: World, e: Event)
    requires Enabled(w, e) && NamesFlying(w) && Undisturbed(w, e)
    ensures NamesFlying(Next(w, e)) && LandsInPlace(w, e)
  {
    if e.PassRuns? {
      PassKeepsNames(w, e.c, e.finalizer);
    }
  }

  /** A slot is what it takes: a pass that announces a push of the name in flight keeps that name
      stored if and only if it finds one. */
  lemma NameStaysExactlyWhenSlotFree(w: World, c: Context)
    requires NamesFlying(w) && w.flying != [] && Announces(c, w.stored, true) && TrussName(c) == w.flying[0]
    ensures NamesFlying(Next(w, PassRuns(c, true))) <==> c.replies.pushSlotFree
  {
    hide Reconcile, LastStored, Announces, BackingOff, DeploymentName;
    AnnouncesReads(c, w.stored, true);
    PassLeaves(c, w.stored, true);
    NeverNameless(c);
    PushesExactlyWhenAnnounced(c, w.stored, true);
    assert Next(w, PassRuns(c, true)).flying[0] == w.flying[0];
  }

  lemma NeverNameless(c: Context)
    requires Reads(c)
    ensures TrussName(c) != ""
  {
  }

  /** So in undisturbed runs every outcome lands in place, and no push goes out before its time,
      however many pushes of one name are in flight. */
  lemma {:induction false} UndisturbedRunsWait(ws: seq<World>, es: seq<Event>, i: nat)
    requires IsRun(ws, es) && i < |ws|
    requires ws[0].waiting.None? && ws[0].early == 0 && ws[0].flying == []
    requires forall j :: 0 <= j < |es| ==> Undisturbed(ws[j], es[j])
    ensures NamesFlying(ws[i]) && WaitStored(ws[i]) && ws[i].early == 0
    ensures forall j :: 0 <= j < i ==> LandsInPlace(ws[j], es[j])
  {
    hide Next, Enabled, Undisturbed, LandsInPlace;
    if i > 0 {
      UndisturbedRunsWait(ws, es, i - 1);
      assert Enabled(ws[i - 1], es[i - 1]) && ws[i - 1 + 1] == Next(ws[i - 1], es[i - 1]);
      NextKeepsNames(ws[i - 1], es[i - 1]);
      NextKeepsWait(ws[i - 1], es[i - 1]);
    }
  }

  /* ---- how long a failure makes the next push wait ---- */

  /** The stored count covers the failures in a row, and a failure is stored under its own name. */
  predicate CountCovers(w: World) {
    && 0 <= w.failing.count <= w.stored.pushFailureCount
    && (w.failing.count > 0 && w.stored.pushStatus.PushFailed? ==> w.stored.sourceDeploymentName == w.failing.name)
  }

  lemma PassKeepsCover(w: World, c: Context, finalizer: bool)
    requires CountCovers(w) && c.spec.truss.Some?
    ensures CountCovers(Next(w, PassRuns(c, finalizer)))
  {
    hide Reconcile, LastStored, Announces, BackingOff, DeploymentName, Launches, PushIsStale;
    PassLeaves(c, w.stored, finalizer);
    if Announces(c, w.stored, finalizer) {
      AnnouncesReads(c, w.stored, finalizer);
    }
  }

  lemma NextKeepsCover(w: World, e: Event)
    requires Enabled(w, e) && CountCovers(w) && LandsInPlace(w, e)
    requires e.PassRuns? ==> e.c.spec.truss.Some?
    ensures CountCovers(Next(w, e))
  {
    hide Interval, Reconcile;
    if e.PassRuns? {
      PassKeepsCover(w, e.c, e.finalizer);
    }
  }

  lemma {:induction false} CountStaysCovered(ws: seq<World>, es: seq<Event>, i: nat)
    requires IsRun(ws, es) && i < |ws| && CountCovers(ws[0])
    requires forall j :: 0 <= j < |es| ==> LandsInPlace(ws[j], es[j])
    requires forall j :: 0 <= j < |es| && es[j].PassRuns? ==> es[j].c.spec.truss.Some?
    ensures CountCovers(ws[i])
  {
    hide Next, Enabled, CountCovers, LandsInPlace;
    if i > 0 {
      CountStaysCovered(ws, es, i - 1);
      assert Enabled(ws[i - 1], es[i - 1]) && ws[i - 1 + 1] == Next(ws[i - 1], es[i - 1]);
      NextKeepsCover(ws[i - 1], es[i - 1]);
    }
  }

  lemma FailureWaits(w: World, e: Event)
    requires Enabled(w, e) && e.PushFails? && CountCovers(w)
    ensures var w' := Next(w, e);
      && w'.waiting.Some? && w'.waiting.value.name == w'.failing.name == w.flying[e.push]
      && w'.waiting.value.until > e.now + Interval(w'.failing.count) - SECOND
  {
    hide Interval;
    IntervalGrows(Next(w, e).failing.count, w.stored.pushFailureCount + 1);
  }

  /** Growing waits: as long as failures are recorded in place, the k-th failure in a row of a
      deployment name makes its pushes wait for min(2m * 2^(k-1), 30m) at least, to the second. */
  lemma KthFailureWaits(ws: seq<World>, es: seq<Event>, i: nat)
    requires IsRun(ws, es) && i < |es| && es[i].PushFails? && CountCovers(ws[0])
    requires forall j :: 0 <= j < |es| ==> LandsInPlace(ws[j], es[j])
    requires forall j :: 0 <= j < |es| && es[j].PassRuns? ==> es[j].c.spec.truss.Some?
    ensures es[i].push < |ws[i].flying|
    ensures ws[i + 1].waiting.Some?
    ensures ws[i + 1].waiting.value.name == ws[i + 1].failing.name == ws[i].flying[es[i].push]
    ensures ws[i + 1].waiting.value.until > es[i].now + Interval(ws[i + 1].failing.count) - SECOND
  {
    hide Next, CountCovers, LandsInPlace, Interval;
    CountStaysCovered(ws, es, i);
    assert Enabled(ws[i], es[i]) && ws[i + 1] == Next(ws[i], es[i]);
    FailureWaits(ws[i], es[i]);
  }

  /** Resets: a pass that announces a push leaves a count of zero if and only if it was zero, or the
      last outcome was a failure of another name. A change of configuration while a push is in
      flight keeps the old count. */
  lemma CountResetsExactlyWhen(c: Context, st: Status, finalizer: bool)
    requires Announces(c, st, finalizer)
    ensures Reads(c)
    ensures LastStored(st, Reconcile(c, st, finalizer).trail).pushFailureCount == 0 <==>
      st.pushFailureCount == 0 || (st.pushStatus.PushFailed? && st.sourceDeploymentName != TrussName(c))
  {
    hide Reconcile, LastStored, Announces, BackingOff, DeploymentName;
    AnnouncesReads(c, st, finalizer);
    PassLeaves(c, st, finalizer);
  }

  /** Any other pass brings the count back to zero only when the deployment turns out to exist, or
      when a failure of another name is found without a push being announced. */
  lemma CountFallsOnlyWhen(w: World, c: Context, finalizer: bool)
    requires c.spec.truss.Some? && w.stored.pushFailureCount > 0
    requires Next(w, PassRuns(c, finalizer)).stored.pushFailureCount == 0
    ensures Reads(c)
    ensures || (c.replies.findBuilt.Ok? && c.replies.findBuilt.value.id != "")
            || (w.stored.pushStatus.PushFailed? && w.stored.sourceDeploymentName != TrussName(c))
  {
    hide Reconcile, LastStored, Announces, BackingOff, DeploymentName;
    PassLeaves(c, w.stored, finalizer);
  }

  /* ---- the cached name ---- */

  /** Equal hashes stand for equal images. */
  ghost predicate ImagesKept(hash: Hasher) {
    forall a: TrussConfig, s, b: TrussConfig, r {:trigger hash(a, s), hash(b, r)} :: hash(a, s) == hash(b, r) ==>
        a.image == b.image
  }

  /** Hash and name in the status belong together. */
  ghost predicate Paired(hash: Hasher, st: Status) {
    forall tc: TrussConfig, s {:trigger hash(tc, s)} ::
      hash(tc, s) == st.trussConfigHash ==> st.sourceDeploymentName == DeploymentName(st.trussConfigHash, tc.image)
  }

  ghost predicate CacheOk(hash: Hasher, w: World) {
    w.stored.pushStatus.Pushing? || w.stored.pushStatus.PushDone? || w.flying != [] ==> Paired(hash, w.stored)
  }

  /** The resource stays on an inline configuration, and a push announced while another one is in
      flight finds a free slot. */
  ghost predicate StaysOnTruss(hash: Hasher, w: World, e: Event) {
    e.PassRuns? ==>
      && e.c.spec.truss.Some? && e.c.hash == hash
      && (w.flying != [] && Announces(e.c, w.stored, e.finalizer) ==> e.c.replies.pushSlotFree)
  }

  lemma FreshPair(hash: Hasher, c: Context, st: Status)
    requires ImagesKept(hash) && c.hash == hash && Reads(c)
    requires st.trussConfigHash == TrussHash(c) && st.sourceDeploymentName == TrussName(c)
    ensures Paired(hash, st)
  {
    hide DeploymentName;
    var tc0, s0 := c.spec.truss.value, c.replies.setupScript.value;
    forall tc: TrussConfig, s | hash(tc, s) == st.trussConfigHash
      ensures st.sourceDeploymentName == DeploymentName(st.trussConfigHash, tc.image)
    {
      assert hash(tc, s) == hash(tc0, s0);
    }
  }

  lemma NextKeepsCache(hash: Hasher, w: World, e: Event)
    requires ImagesKept(hash) && Enabled(w, e) && CacheOk(hash, w) && StaysOnTruss(hash, w, e)
    ensures CacheOk(hash, Next(w, e))
  {
    hide Reconcile, LastStored, Announces, BackingOff, DeploymentName, ImagesKept, PushIsStale;
    if e.PassRuns? {
      var stored' := Next(w, e).stored;
      PassLeaves(e.c, w.stored, e.finalizer);
      PushesExactlyWhenAnnounced(e.c, w.stored, e.finalizer);
      if Reads(e.c) && stored'.trussConfigHash == TrussHash(e.c) && stored'.sourceDeploymentName == TrussName(e.c) {
        FreshPair(hash, e.c, stored');
      }
    }
  }

  lemma {:induction false} CacheStaysOk(hash: Hasher, ws: seq<World>, es: seq<Event>, i: nat)
    requires ImagesKept(hash) && IsRun(ws, es) && i < |ws| && CacheOk(hash, ws[0])
    requires forall j :: 0 <= j < |es| ==> StaysOnTruss(hash, ws[j], es[j])
    ensures CacheOk(hash, ws[i])
  {
    hide Next, Enabled, StaysOnTruss, CacheOk, ImagesKept;
    if i > 0 {
      CacheStaysOk(hash, ws, es, i - 1);
      assert Enabled(ws[i - 1], es[i - 1]) && ws[i - 1 + 1] == Next(ws[i - 1], es[i - 1]);
      NextKeepsCache(hash, ws[i - 1], es[i - 1]);
    }
  }

  /** A slot is what it takes: with pushes in flight, a pass that announces another one keeps the
      cache in order if and only if it finds a slot. Without one, hash and name part. */
  lemma CacheHoldsExactlyWhenSlotFree(hash: Hasher, w: World, c: Context)
    requires ImagesKept(hash) && c.hash == hash
    requires CacheOk(hash, w) && w.flying != [] && Announces(c, w.stored, true)
    ensures CacheOk(hash, Next(w, PassRuns(c, true))) <==> c.replies.pushSlotFree
  {
    hide Reconcile, LastStored, Announces, BackingOff, DeploymentName, ImagesKept, PushIsStale;
    AnnouncesReads(c, w.stored, true);
    if c.replies.pushSlotFree {
      NextKeepsCache(hash, w, PassRuns(c, true));
    } else {
      PassLeaves(c, w.stored, true);
      NeverNameless(c);
      assert hash(c.spec.truss.value, c.replies.setupScript.value) == TrussHash(c);
    }
  }

  /** Fast path: in runs that stay on an inline configuration and in which a push announced over
      another one finds a slot, whenever hash and outcome match, the cached name a pass trusts is the name the
      configuration stands for, the one observe mode computes. */
  lemma FastPathAgrees(hash: Hasher, ws: seq<World>, es: seq<Event>, i: nat, c: Context, modelID: string)
    requires ImagesKept(hash) && IsRun(ws, es) && i < |ws|
    requires ws[0].flying == [] && ws[0].stored.pushStatus.NoPush?
    requires forall j :: 0 <= j < |es| ==> StaysOnTruss(hash, ws[j], es[j])
    requires Reads(c) && c.hash == hash && modelID != ""
    requires ws[i].stored.trussConfigHash == TrussHash(c) && ws[i].stored.pushStatus.PushDone?
    ensures ReconcileTruss(c, Start(ws[i].stored), modelID) == Go(Start(ws[i].stored), TrussName(c))
    ensures c.spec.sourceDeploymentName == "" ==> ExpectedSource(c) == Some(ws[i].stored.sourceDeploymentName)
  {
    hide Next, Enabled, StaysOnTruss, DeploymentName, ImagesKept;
    CacheStaysOk(hash, ws, es, i);
    assert hash(c.spec.truss.value, c.replies.setupScript.value) == ws[i].stored.trussConfigHash;
  }

  /** What the parting leads to: a success that lands on a blanked name makes the fast path work for
      a deployment without a name. */
  lemma SuccessAfterBlankingLosesName(c: Context, st: Status, pushed: string, now: Time, modelID: string)
    requires Announces(c, st, true) && !c.replies.pushSlotFree && modelID != ""
    ensures var t := Start(UpdatePushStatus(LastStored(st, Reconcile(c, st, true).trail), pushed, now));
      ReconcileTruss(c, t, modelID) == Go(t, "")
  {
    hide Reconcile, Announces, LastStored;
    AnnouncesReads(c, st, true);
    FullSemaphoreBlanksName(c, st);
  }

  /* ---- capacity, over the passes of any number of resources ---- */

  /** The semaphore and the goroutines: each push has its own number; `ended` lists those that have
      given their token back. */
  datatype Pool = Pool(capacity: nat, tokens: int, flying: set<nat>, ended: seq<nat>, launched: nat)

  datatype PoolEvent = AnyPass(c: Context, st: Status, finalizer: bool) | Ends(push: nat)

  /** A pass is told of a free slot exactly when there is one at that moment. */
  ghost predicate PoolEnabled(p: Pool, e: PoolEvent) {
    match e
    case AnyPass(c, _, _) => c.replies.pushSlotFree <==> p.tokens < p.capacity
    case Ends(k) => k in p.flying
  }

  /** A token is taken by an announcement that finds a slot; a goroutine is started by a push call,
      and its end gives a token back. */
  ghost function PoolNext(p: Pool, e: PoolEvent): Pool
    requires PoolEnabled(p, e)
  {
    match e
    case AnyPass(c, st, finalizer) =>
      var acquired := if Announces(c, st, finalizer) && c.replies.pushSlotFree then 1 else 0;
      var started := PushCount(Reconcile(c, st, finalizer).trail.calls);
      p.(tokens := p.tokens + acquired, flying := p.flying + Numbers(p.launched, started),
         launched := p.launched + started)
    case Ends(k) => p.(tokens := p.tokens - 1, flying := p.flying - {k}, ended := p.ended + [k])
  }

  /** The next `n` numbers. */
  function Numbers(start: nat, n: nat): set<nat> {
    if n == 0 then {} else Numbers(start, n - 1) + {start + n - 1}
  }

  /** Tokens are the pushes in flight, within capacity; every push ever launched is in flight or
      has given its token back, once. */
  ghost predicate PoolOk(p: Pool) {
    && p.tokens == |p.flying| && p.tokens <= p.capacity
    && Distinct(p.ended)
    && (forall k: nat :: k < p.launched <==> k in p.flying || k in p.ended)
    && (forall k :: k in p.ended ==> k !in p.flying)
  }

  lemma LaunchKeepsPool(p: Pool, n: nat)
    requires PoolOk(p) && n <= 1 && (n == 1 ==> p.tokens < p.capacity)
    ensures PoolOk(p.(tokens := p.tokens + n, flying := p.flying + Numbers(p.launched, n), launched := p.launched + n))
  {
    if n == 1 {
      assert Numbers(p.launched, 0) == {};
      assert p.launched !in p.flying;
      assert |p.flying + {p.launched}| == |p.flying| + 1;
    }
  }

  lemma EndKeepsPool(p: Pool, k: nat)
    requires PoolOk(p) && k in p.flying
    ensures PoolOk(p.(tokens := p.tokens - 1, flying := p.flying - {k}, ended := p.ended + [k]))
  {
    assert |p.flying - {k}| == |p.flying| - 1;
    assert k !in p.ended;
  }

  lemma NextKeepsPool(p: Pool, e: PoolEvent)
    requires PoolOk(p) && PoolEnabled(p, e)
    ensures PoolOk(PoolNext(p, e))
  {
    hide Reconcile, PushCount, PoolOk, Numbers, Announces;
    match e
    case AnyPass(c, st, finalizer) =>
      LaunchesWhatItAcquires(c, st, finalizer);
      LaunchKeepsPool(p, PushCount(Reconcile(c, st, finalizer).trail.calls));
    case Ends(k) => EndKeepsPool(p, k);
  }

  ghost predicate IsPoolRun(ps: seq<Pool>, es: seq<PoolEvent>) {
    && |ps| == |es| + 1
    && forall i :: 0 <= i < |es| ==> PoolEnabled(ps[i], es[i]) && ps[i + 1] == PoolNext(ps[i], es[i])
  }

  /** Push capacity: over interleaved passes of any resources and completions of their pushes. */
  lemma {:induction false} CapacityIsKept(ps: seq<Pool>, es: seq<PoolEvent>, i: nat)
    requires IsPoolRun(ps, es) && i < |ps|
    requires ps[0] == Pool(ps[0].capacity, 0, {}, [], 0)
    ensures PoolOk(ps[i])
  {
    hide PoolNext, PoolEnabled;
    if i > 0 {
      CapacityIsKept(ps, es, i - 1);
      assert PoolEnabled(ps[i - 1], es[i - 1]) && ps[i - 1 + 1] == PoolNext(ps[i - 1], es[i - 1]);
      NextKeepsPool(ps[i - 1], es[i - 1]);
    }
  }
}
