/** Runs of the operator against the API server's optimistic concurrency: any number of passes,
    each on a version of the status that may already be out of date, whose writes arrive one by
    one or not at all, between edits of the spec and write-backs of pushes. */
module Runs {
  import opened Types
  import opened Baseten
  import opened Model
  import opened StatusUpdates
  import opened Backoff
  import opened Steps
  import opened Pushes
  import opened PassCalls
  import opened PassStatus
  import opened PassRetry

  /** Times are stored in whole seconds. */
  function Whole(t: Time): Time { t - t % SECOND }

  function Seconds(t: Option<Time>): Option<Time> {
    if t.Some? then Some(Whole(t.value)) else None
  }

  function Persist(st: Status): Status {
    st.(modelIDResolvedTime := Seconds(st.modelIDResolvedTime), pushNextRetryTime := Seconds(st.pushNextRetryTime),
        pushTime := Seconds(st.pushTime), lastCleanupTime := Seconds(st.lastCleanupTime),
        firstFailureTime := Seconds(st.firstFailureTime), nextRetryTime := Seconds(st.nextRetryTime))
  }

  /** The stored object: status, spec, and the two pieces of metadata that matter. */
  datatype Resource = Resource(status: Status, spec: Spec, deleting: bool, finalizer: bool)

  /** A pass under way: what it read, the version its object now carries, how many of its writes
      have been sent, and which was the last to be accepted. */
  datatype Pass = Pass(c: Context, read: Resource, version: nat, sent: nat, accepted: Option<nat>)
  {
    ghost function Outcome(): Outcome { Reconcile(c, read.status, read.finalizer) }

    ghost function Trail(): Trail { Outcome().trail }

    /** The stored status the pass's object is a copy of, if nobody else has written since. */
    ghost function Base(): Status
      requires accepted.Some? ==> accepted.value < |Trail().writes|
    {
      if accepted.None? then read.status else Persist(Trail().writes[accepted.value])
    }
  }

  /** `history` holds every stored version of the object, the current one last; `retried` counts
      the retries on record since the failure time was last cleared, `made` the retry calls since
      then, each counted with the write that follows it, and `lost` those whose write was not
      accepted; `named` are the model IDs the API has answered with. */
  datatype World = World(history: seq<Resource>, passes: seq<Pass>, retried: nat, made: nat, lost: nat,
                         named: set<string>)
  {
    function Latest(): Resource requires history != [] { history[|history| - 1] }
  }

  datatype Event =
    | BeginPass(c: Context, version: nat)
    | SendWrite(pass: nat, arrives: bool)
    | SendFinalizer(pass: nat, arrives: bool)
    | PushSucceeded(modelID: string, now: Time)
    | PushFailing(error: string, now: Time, jitter: nat)
    | Edit(spec: Spec, deleting: bool)

  /** The clock is not behind the failure time read, it is read in order, and not half an hour
      passes between two neighbouring checks. */
  predicate Prompt(st: Status, times: RetryTimes) {
    && (st.firstFailureTime.Some? ==> st.firstFailureTime.value <= times.detected)
    && times.InOrder() && times.compared - times.checked < RETRY_MAX_INTERVAL
  }

  /** A pass may start from any version, current or not; its writes come in order, the change of
      the finalizer last; deletion is never taken back. */
  ghost predicate Enabled(w: World, e: Event) {
    w.history != [] &&
    match e
    case BeginPass(c, version) =>
      && version < |w.history|
      && c.spec == w.history[version].spec && c.deleting == w.history[version].deleting
      && Prompt(w.history[version].status, c.replies.retryTimes)
    case SendWrite(k, _) => k < |w.passes| && w.passes[k].sent < |w.passes[k].Trail().writes|
    case SendFinalizer(k, _) => k < |w.passes| && w.passes[k].sent == |w.passes[k].Trail().writes|
    case Edit(_, deleting) => w.Latest().deleting ==> deleting
    case _ => true
  }

  /** Whether the write a pass sends next is the first one accepted since the pass made a retry. */
  ghost predicate PutsRetryOnRecord(p: Pass) {
    var r := p.Trail().record;
    r.Some? && r.value <= p.sent && (p.accepted.None? || p.accepted.value < r.value)
  }

  /** The next write is the first one after a retry call. */
  ghost predicate FollowsRetryCall(p: Pass) {
    p.Trail().record == Some(p.sent)
  }

  /** The server accepts a write only from a copy of its current version. */
  predicate Accepts(w: World, k: nat, arrives: bool)
    requires k < |w.passes|
  {
    arrives && w.passes[k].version == |w.history| - 1
  }

  ghost function Send(w: World, k: nat, arrives: bool): World
    requires Enabled(w, SendWrite(k, arrives))
  {
    var p := w.passes[k];
    var st := Persist(p.Trail().writes[p.sent]);
    var calls := if FollowsRetryCall(p) then 1 else 0;
    if Accepts(w, k, arrives) then
      var cleared := st.firstFailureTime.None?;
      w.(history := w.history + [w.Latest().(status := st)],
         passes := w.passes[k := p.(version := |w.history|, sent := p.sent + 1, accepted := Some(p.sent))],
         retried := if cleared then 0 else if PutsRetryOnRecord(p) then w.retried + 1 else w.retried,
         made := if cleared then 0 else w.made + calls,
         lost := if cleared then 0 else w.lost)
    else
      w.(passes := w.passes[k := p.(sent := p.sent + 1)], made := w.made + calls, lost := w.lost + calls)
  }

  function Store(w: World, r: Resource): World {
    w.(history := w.history + [r.(status := Persist(r.status))])
  }

  /** A goroutine retries on conflict, so what it stores is based on the current version. */
  ghost function Next(w: World, e: Event): World
    requires Enabled(w, e)
  {
    match e
    case BeginPass(c, version) =>
      w.(passes := w.passes + [Pass(c, w.history[version], version, 0, None)],
         named := w.named + if c.replies.findModel.Ok? then {c.replies.findModel.value} else {})
    case SendWrite(k, arrives) => Send(w, k, arrives)
    case SendFinalizer(k, arrives) =>
      if arrives && w.passes[k].version == |w.history| - 1 then
        Store(w, w.Latest().(finalizer := w.passes[k].Outcome().finalizer))
      else w
    case PushSucceeded(modelID, now) =>
      Store(w, w.Latest().(status := UpdatePushStatus(w.Latest().status, modelID, now))).(named := w.named + {modelID})
    case PushFailing(error, now, jitter) =>
      Store(w, w.Latest().(status := RecordPushFailure(w.Latest().status, error, now, jitter)))
    case Edit(spec, deleting) => Store(w, w.Latest().(spec := spec, deleting := deleting))
  }

  ghost predicate IsRun(ws: seq<World>, es: seq<Event>) {
    && |ws| == |es| + 1
    && forall i :: 0 <= i < |es| ==> Enabled(ws[i], es[i]) && ws[i + 1] == Next(ws[i], es[i])
  }

  /* ---- what every stored version satisfies ---- */

  predicate Stored(st: Status) { Persist(st) == st }

  /** Retries so far, and how long the next one has to wait. */
  predicate RetryBounded(st: Status) {
    if st.firstFailureTime.None? then Cleared(st)
    else
      && 0 <= st.retryCount <= 8
      && (if st.retryCount == 0 then st.nextRetryTime.None?
          else && st.nextRetryTime.Some?
               && st.nextRetryTime.value >= st.firstFailureTime.value + WaitedAfter(st.retryCount))
  }

  predicate VersionOk(st: Status, named: set<string>) {
    && Stored(st) && Consistent(st) && RetryBounded(st)
    && (st.modelID != "" ==> st.modelIDResolvedTime.Some? && st.modelID in named)
  }

  /* ---- one write ---- */

  lemma WholeBounds(t: Time)
    ensures Whole(t) <= t && Whole(t) % SECOND == 0
    ensures forall u: Time :: u % SECOND == 0 && u <= t ==> u <= Whole(t)
  {
    forall u: Time | u % SECOND == 0 && u <= t ensures u <= Whole(t) {
      WholeIsLargest(u, t);
    }
  }

  lemma WholeIsLargest(u: Time, t: Time)
    requires u % SECOND == 0 && u <= t
    ensures u <= Whole(t)
  {
    assert u == SECOND * (u / SECOND) && Whole(t) == SECOND * (t / SECOND);
    assert u / SECOND <= t / SECOND;
  }

  /** A ninth attempt would have to wait past the deadline. */
  lemma NoNinthAttempt(c: Context, st0: Status, st: Status)
    requires RetryBounded(st0) && Prompt(st0, c.replies.retryTimes) && Attempted(c, st0, st)
    ensures st0.retryCount < 8
  {
    DeadlineAllowsEight();
    hide WaitedAfter, Interval;
  }

  /** Rounding to seconds loses nothing of the waiting times, which are whole seconds themselves. */
  lemma WaitsSurviveRounding(start: Time, scheduled: Time, count: int, jitter: nat)
    requires start % SECOND == 0 && start <= scheduled
    ensures start + Interval(count) <= Whole(scheduled + Interval(count) + jitter)
  {
    IntervalBounds(count);
    hide Interval;
    var i := Interval(count);
    assert start + i == SECOND * (start / SECOND + i / SECOND);
    WholeIsLargest(start + i, scheduled + i + jitter);
  }

  /** An attempt that was allowed leaves the bound intact. */
  lemma AttemptBounded(c: Context, st0: Status, st: Status)
    requires Stored(st0) && RetryBounded(st0) && Prompt(st0, c.replies.retryTimes) && Attempted(c, st0, st)
    ensures RetryBounded(Persist(st))
  {
    NoNinthAttempt(c, st0, st);
    hide Interval, Whole;
    var times, n := c.replies.retryTimes, st0.retryCount;
    var first := if st0.firstFailureTime.Some? then st0.firstFailureTime.value else times.detected;
    WholeBounds(first);
    assert st0.firstFailureTime.Some? ==> Seconds(st0.firstFailureTime) == st0.firstFailureTime;
    assert st0.nextRetryTime.Some? ==> Seconds(st0.nextRetryTime) == st0.nextRetryTime;
    var start := if n == 0 then Whole(first) else st0.nextRetryTime.value;
    assert start % SECOND == 0 by {
      if n != 0 { WholeBounds(start); }
    }
    WaitsSurviveRounding(start, times.scheduled, n + 1, c.replies.jitter);
    assert WaitedAfter(0) == 0 && WaitedAfter(n + 1) == WaitedAfter(n) + Interval(n + 1);
  }

  /* ---- the invariant of runs ---- */

  ghost predicate PassOk(history: seq<Resource>, named: set<string>, p: Pass) {
    && p.version < |history| && p.read in history && VersionOk(p.read.status, named)
    && Prompt(p.read.status, p.c.replies.retryTimes)
    && p.c.spec == p.read.spec && p.c.deleting == p.read.deleting
    && (p.c.replies.findModel.Ok? ==> p.c.replies.findModel.value in named)
    && p.sent <= |p.Trail().writes| && (p.accepted.Some? ==> p.accepted.value < p.sent)
    && history[p.version] == p.read.(status := p.Base())
  }

  predicate NeverUnresolved(history: seq<Resource>) {
    forall i, j :: 0 <= i < j < |history| && history[i].status.modelIDResolvedTime.Some? ==>
      history[j].status.modelIDResolvedTime.Some?
  }

  ghost predicate Invariant(w: World) {
    && w.history != []
    && (forall r :: r in w.history ==> VersionOk(r.status, w.named))
    && NeverUnresolved(w.history)
    && w.retried == w.Latest().status.retryCount && w.made <= w.retried + w.lost
    && (forall p :: p in w.passes ==> PassOk(w.history, w.named, p))
  }

  /** Whatever a pass on a good version writes is a good version once stored. */
  lemma WritesOk(p: Pass, named: set<string>, n: nat)
    requires VersionOk(p.read.status, named) && Prompt(p.read.status, p.c.replies.retryTimes)
    requires p.c.replies.findModel.Ok? ==> p.c.replies.findModel.value in named
    requires n < |p.Trail().writes|
    ensures VersionOk(Persist(p.Trail().writes[n]), named)
  {
    hide ConsistentWith, Reconcile, WaitedAfter, Interval;
    PassIsSound(p.c, p.read.status, p.read.finalizer);
    var st := p.Trail().writes[n];
    assert st in p.Trail().writes;
    WriteRetryBounded(p, n);
    PersistIsStored(st);
  }

  lemma SecondsTwice(t: Option<Time>)
    ensures Seconds(Seconds(t)) == Seconds(t)
  {
  }

  lemma PersistIsStored(st: Status)
    ensures Stored(Persist(st))
  {
    SecondsTwice(st.modelIDResolvedTime);
    SecondsTwice(st.pushNextRetryTime);
    SecondsTwice(st.pushTime);
    SecondsTwice(st.lastCleanupTime);
    SecondsTwice(st.firstFailureTime);
    SecondsTwice(st.nextRetryTime);
    hide Seconds;
  }

  lemma WriteRetryBounded(p: Pass, n: nat)
    requires Stored(p.read.status) && RetryBounded(p.read.status) && Prompt(p.read.status, p.c.replies.retryTimes)
    requires n < |p.Trail().writes|
    ensures RetryBounded(Persist(p.Trail().writes[n]))
  {
    hide Reconcile, WaitedAfter, Interval;
    PassKeepsRetryBook(p.c, p.read.status, p.read.finalizer);
    var t := p.Trail();
    if t.record.Some? && t.record.value <= n {
      AttemptBounded(p.c, p.read.status, t.writes[n]);
    }
  }

  lemma ResolutionFollows(p: Pass)
    requires p.sent < |p.Trail().writes| && (p.accepted.Some? ==> p.accepted.value < p.sent)
    requires p.Base().modelIDResolvedTime.Some?
    ensures p.Trail().writes[p.sent].modelIDResolvedTime.Some?
  {
    hide ConsistentWith, Reconcile, Known, Reported, Chained;
    PassIsSound(p.c, p.read.status, p.read.finalizer);
  }

  lemma CountFollows(p: Pass)
    requires Stored(p.read.status) && RetryBounded(p.read.status)
    requires p.sent < |p.Trail().writes| && (p.accepted.Some? ==> p.accepted.value < p.sent)
    ensures var st := p.Trail().writes[p.sent];
      st.retryCount ==
        if st.firstFailureTime.None? then 0 else p.Base().retryCount + if PutsRetryOnRecord(p) then 1 else 0
  {
    hide Reconcile, WaitedAfter, Interval;
    PassKeepsRetryBook(p.c, p.read.status, p.read.finalizer);
  }

  /** From the accepted version to the next write: the resolution time stays, and the retry count
      rises exactly when a retry goes on record, unless the failure time is cleared. */
  lemma WriteFollows(p: Pass, named: set<string>)
    requires VersionOk(p.read.status, named) && Prompt(p.read.status, p.c.replies.retryTimes)
    requires p.sent < |p.Trail().writes| && (p.accepted.Some? ==> p.accepted.value < p.sent)
    ensures var st := Persist(p.Trail().writes[p.sent]);
      && (p.Base().modelIDResolvedTime.Some? ==> st.modelIDResolvedTime.Some?)
      && st.retryCount ==
           if st.firstFailureTime.None? then 0 else p.Base().retryCount + if PutsRetryOnRecord(p) then 1 else 0
  {
    hide ConsistentWith, Reconcile, RetryBounded, PutsRetryOnRecord;
    CountFollows(p);
    if p.Base().modelIDResolvedTime.Some? {
      ResolutionFollows(p);
    }
  }

  lemma PassOkLater(history: seq<Resource>, named: set<string>, p: Pass, r: Resource, named': set<string>)
    requires PassOk(history, named, p) && named <= named'
    ensures PassOk(history + [r], named', p) && PassOk(history, named', p)
  {
    hide Stored, ConsistentWith, RetryBounded, Reconcile, Prompt;
  }

  /** Storing a good version that keeps the resolution time and the retry count. */
  lemma StoreKeeps(w: World, r: Resource, named: set<string>)
    requires Invariant(w) && w.named <= named
    requires VersionOk(Persist(r.status), named) && r.status.retryCount == w.Latest().status.retryCount
    requires w.Latest().status.modelIDResolvedTime.Some? ==> r.status.modelIDResolvedTime.Some?
    ensures Invariant(Store(w, r).(named := named))
  {
    hide Stored, ConsistentWith, RetryBounded, PassOk;
    var h := w.history;
    assert h[|h| - 1] == w.Latest();
    forall p | p in w.passes ensures PassOk(Store(w, r).history, named, p) {
      PassOkLater(h, w.named, p, r.(status := Persist(r.status)), named);
    }
  }

  lemma SendKeeps(w: World, k: nat, arrives: bool)
    requires Invariant(w) && Enabled(w, SendWrite(k, arrives))
    ensures Invariant(Send(w, k, arrives))
  {
    hide Stored, ConsistentWith, RetryBounded, Prompt, Reconcile, Persist;
    var p := w.passes[k];
    assert p in w.passes;
    var w' := Send(w, k, arrives);
    if Accepts(w, k, arrives) {
      WritesOk(p, w.named, p.sent);
      WriteFollows(p, w.named);
      var r := w.Latest().(status := Persist(p.Trail().writes[p.sent]));
      forall q | q in w'.passes ensures PassOk(w'.history, w.named, q) {
        if q in w.passes {
          PassOkLater(w.history, w.named, q, r, w.named);
        }
      }
    }
  }

  lemma BeginKeeps(w: World, e: Event)
    requires Invariant(w) && Enabled(w, e) && e.BeginPass?
    ensures Invariant(Next(w, e))
  {
    hide Stored, ConsistentWith, RetryBounded, Prompt, Reconcile, Persist;
    var w' := Next(w, e);
    assert w.history[e.version] in w.history;
    forall q | q in w'.passes ensures PassOk(w'.history, w'.named, q) {
      if q in w.passes {
        PassOkLater(w.history, w.named, q, w.history[e.version], w'.named);
      }
    }
  }

  lemma NextKeeps(w: World, e: Event)
    requires Invariant(w) && Enabled(w, e)
    ensures Invariant(Next(w, e))
  {
    hide Stored, ConsistentWith, RetryBounded, PassOk, Persist, Send;
    var st := w.Latest().status;
    match e
    case BeginPass(_, _) => BeginKeeps(w, e);
    case SendWrite(k, arrives) => SendKeeps(w, k, arrives);
    case SendFinalizer(k, _) =>
      WriteBackOk(st, w.named, st, w.named);
      StoreKeeps(w, w.Latest().(finalizer := w.passes[k].Outcome().finalizer), w.named);
    case PushSucceeded(modelID, now) =>
      var st' := UpdatePushStatus(st, modelID, now);
      WriteBackOk(st, w.named, st', w.named + {modelID});
      StoreKeeps(w, w.Latest().(status := st'), w.named + {modelID});
    case PushFailing(error, now, jitter) =>
      var st' := RecordPushFailure(st, error, now, jitter);
      WriteBackOk(st, w.named, st', w.named);
      StoreKeeps(w, w.Latest().(status := st'), w.named);
    case Edit(spec, deleting) =>
      WriteBackOk(st, w.named, st, w.named);
      StoreKeeps(w, w.Latest().(spec := spec, deleting := deleting), w.named);
  }

  /** A change of the push fields alone, or of the model ID together with its resolution time. */
  lemma WriteBackOk(prev: Status, named: set<string>, st: Status, named': set<string>)
    requires VersionOk(prev, named) && named <= named'
    requires RetryOf(st) == RetryOf(prev) && st.conditions == prev.conditions
    requires st.deploymentStatus == prev.deploymentStatus && st.message == prev.message
    requires (st.modelID == prev.modelID && st.modelIDResolvedTime == prev.modelIDResolvedTime)
             || (st.modelID in named' && st.modelIDResolvedTime.Some?)
    ensures VersionOk(Persist(st), named')
  {
    hide ConsistentWith, WaitedAfter;
    PersistIsStored(st);
  }

  /* ---- whole runs of one resource, from its creation ---- */

  const BLANK_STATUS := Status("", None, "", "", "", "", "", Blank, 0, NoMessage, "", NoPush, 0, None, "", None, None,
                               None, 0, None, [])

  ghost predicate Created(w: World) {
    exists spec :: w == World([Resource(BLANK_STATUS, spec, false, false)], [], 0, 0, 0, {})
  }

  ghost predicate Run(ws: seq<World>, es: seq<Event>) {
    IsRun(ws, es) && Created(ws[0])
  }

  lemma {:induction false} RunKeepsInvariant(ws: seq<World>, es: seq<Event>, i: nat)
    requires Run(ws, es) && i < |ws|
    ensures Invariant(ws[i])
    decreases i
  {
    hide Next, Enabled;
    if i == 0 {
    } else {
      RunKeepsInvariant(ws, es, i - 1);
      assert Enabled(ws[i - 1], es[i - 1]) && ws[i - 1 + 1] == Next(ws[i - 1], es[i - 1]);
      NextKeeps(ws[i - 1], es[i - 1]);
    }
  }

  /** The retries on record since the failure time was last cleared are the stored count, at most
      eight, and the next one has to wait for the sum of the waiting times. */
  lemma AtMostEightOnRecord(ws: seq<World>, es: seq<Event>, i: nat)
    requires Run(ws, es) && i < |ws|
    ensures ws[i].retried <= 8
    ensures ws[i].history != []
    ensures var st := ws[i].Latest().status;
      ws[i].retried > 0 ==>
        && st.firstFailureTime.Some? && st.nextRetryTime.Some?
        && st.nextRetryTime.value >= st.firstFailureTime.value + WaitedAfter(ws[i].retried)
  {
    hide WaitedAfter;
    RunKeepsInvariant(ws, es, i);
    assert ws[i].Latest() in ws[i].history;
  }

  /** The write after a retry call is accepted. */
  ghost predicate RetryIsRecorded(w: World, e: Event) {
    e.SendWrite? && e.pass < |w.passes| && FollowsRetryCall(w.passes[e.pass]) ==> Accepts(w, e.pass, e.arrives)
  }

  /** Retries: between two clears of the failure time at most eight retry calls are made, not
      counting those whose own record is lost; in runs that lose no such record, at most eight. */
  lemma AtMostEightRetryCalls(ws: seq<World>, es: seq<Event>, i: nat)
    requires Run(ws, es) && i < |ws|
    ensures ws[i].made <= 8 + ws[i].lost
    ensures (forall j :: 0 <= j < i ==> RetryIsRecorded(ws[j], es[j])) ==> ws[i].made <= 8
  {
    hide WaitedAfter;
    RunKeepsInvariant(ws, es, i);
    AtMostEightOnRecord(ws, es, i);
    if forall j :: 0 <= j < i ==> RetryIsRecorded(ws[j], es[j]) {
      NoneLost(ws, es, i);
    }
  }

  lemma {:induction false} NoneLost(ws: seq<World>, es: seq<Event>, i: nat)
    requires Run(ws, es) && i < |ws|
    requires forall j :: 0 <= j < i ==> RetryIsRecorded(ws[j], es[j])
    ensures ws[i].lost == 0
  {
    hide Reconcile, Persist, PutsRetryOnRecord, FollowsRetryCall, UpdatePushStatus, RecordPushFailure, Prompt;
    if i > 0 {
      NoneLost(ws, es, i - 1);
      assert Enabled(ws[i - 1], es[i - 1]) && ws[i - 1 + 1] == Next(ws[i - 1], es[i - 1]);
      assert RetryIsRecorded(ws[i - 1], es[i - 1]);
    }
  }

  /** Status: every stored version is consistent, and a model ID in it was named by the API and
      carries its resolution time. */
  lemma StoredStatusIsConsistent(ws: seq<World>, es: seq<Event>, i: nat, r: Resource)
    requires Run(ws, es) && i < |ws| && r in ws[i].history
    ensures Consistent(r.status)
    ensures r.status.modelID != "" ==> r.status.modelID in ws[i].named && r.status.modelIDResolvedTime.Some?
  {
    RunKeepsInvariant(ws, es, i);
  }

  /* ---- when transition times move ---- */

  /** The first write sent since the last accepted one. */
  function FirstUnaccepted(p: Pass): nat {
    if p.accepted.None? then 0 else p.accepted.value + 1
  }

  /** Of the writes from `first` to `n` none showed a truth other than `truth`. */
  predicate ShowsOnly(writes: seq<Status>, first: nat, n: nat, kind: ConditionKind, truth: bool)
    requires n < |writes|
  {
    forall m :: first <= m <= n && Get(writes[m].conditions, kind).Some? ==>
      Get(writes[m].conditions, kind).value.isTrue == truth
  }

  /** Along the writes of a pass a transition time stays as long as the truth does, and is the
      time of the pass from the first flip on. */
  lemma {:induction false} TransitionAlong(st0: Status, writes: seq<Status>, last: Status, now: Time,
                                           first: nat, n: nat, kind: ConditionKind)
    requires Chained(st0, writes, last, now) && kind in {Ready, Progressing} && first <= n < |writes|
    requires Get(Before(st0, writes, first).conditions, kind).Some?
    ensures var had, c := Get(Before(st0, writes, first).conditions, kind), Get(writes[n].conditions, kind);
      && c.Some?
      && c.value.transition ==
           if ShowsOnly(writes, first, n, kind, had.value.isTrue) then had.value.transition else now
  {
    hide Get, Rests, ShowsOnly, Chained;
    FlipsAt(st0, writes, last, now, n);
    if first < n {
      TransitionAlong(st0, writes, last, now, first, n - 1, kind);
      assert Before(st0, writes, n) == writes[n - 1];
      OneMoreShown(writes, first, n, kind, Get(Before(st0, writes, first).conditions, kind).value.isTrue);
    } else {
      OnlyOneShown(writes, n, kind, Get(Before(st0, writes, first).conditions, kind).value.isTrue);
    }
  }

  lemma FlipsAt(st0: Status, writes: seq<Status>, last: Status, now: Time, n: nat)
    requires Chained(st0, writes, last, now) && n < |writes|
    ensures Flips(Before(st0, writes, n), writes[n], now)
  {
    hide Flips, Rests;
  }

  lemma OneMoreShown(writes: seq<Status>, first: nat, n: nat, kind: ConditionKind, truth: bool)
    requires first < n < |writes| && Get(writes[n].conditions, kind).Some?
    ensures ShowsOnly(writes, first, n, kind, truth) <==>
      ShowsOnly(writes, first, n - 1, kind, truth) && Get(writes[n].conditions, kind).value.isTrue == truth
    ensures ShowsOnly(writes, first, n - 1, kind, truth) && Get(writes[n - 1].conditions, kind).Some? ==>
      Get(writes[n - 1].conditions, kind).value.isTrue == truth
  {
    hide Get;
  }

  lemma OnlyOneShown(writes: seq<Status>, n: nat, kind: ConditionKind, truth: bool)
    requires n < |writes| && Get(writes[n].conditions, kind).Some?
    ensures ShowsOnly(writes, n, n, kind, truth) <==> Get(writes[n].conditions, kind).value.isTrue == truth
  {
    hide Get;
  }

  /** Write `n` shows the stored truth again, after a write from `first` on that showed the other one,
      at a time that is not the stored transition time. */
  predicate ReturnsFromFlip(stored: Status, writes: seq<Status>, first: nat, n: nat, kind: ConditionKind, now: Time)
    requires n < |writes|
  {
    var had, c := Get(stored.conditions, kind), Get(writes[n].conditions, kind);
    && had.Some? && c.Some? && c.value.isTrue == had.value.isTrue && had.value.transition != now
    && exists m | first <= m < n ::
         Get(writes[m].conditions, kind).Some? && Get(writes[m].conditions, kind).value.isTrue != had.value.isTrue
  }

  /** The write a pass is about to send returns from a flip it has sent, and lost, since its last
      accepted write. */
  ghost predicate LostFlip(p: Pass, stored: Status, kind: ConditionKind)
    requires p.sent < |p.Trail().writes|
  {
    ReturnsFromFlip(stored, p.Trail().writes, FirstUnaccepted(p), p.sent, kind, p.c.replies.now)
  }

  lemma KeepsUnlessReturning(st0: Status, writes: seq<Status>, last: Status, now: Time, first: nat, n: nat,
                             base: Status, kind: ConditionKind)
    requires Chained(st0, writes, last, now) && kind in {Ready, Progressing} && first <= n < |writes|
    requires base.conditions == Before(st0, writes, first).conditions
    ensures KeepsUnlessFlipped(base, writes[n], kind) <==> !ReturnsFromFlip(base, writes, first, n, kind, now)
  {
    hide Get, Chained;
    if Get(base.conditions, kind).Some? {
      TransitionAlong(st0, writes, last, now, first, n, kind);
    }
  }

  lemma NextWriteKeeps(p: Pass, named: set<string>, kind: ConditionKind)
    requires VersionOk(p.read.status, named) && p.sent < |p.Trail().writes|
    requires p.accepted.Some? ==> p.accepted.value < p.sent
    requires kind in {Ready, Progressing}
    ensures KeepsUnlessFlipped(p.Base(), p.Trail().writes[p.sent], kind) <==> !LostFlip(p, p.Base(), kind)
  {
    hide Reconcile, Sound, SoundWrites, NeverCleared, Chained, Get, Stored, RetryBounded, ConsistentWith,
      KeepsUnlessFlipped, ReturnsFromFlip;
    VersionIsConsistent(p.read.status, named);
    PassIsSound(p.c, p.read.status, p.read.finalizer);
    var t, first := p.Trail(), FirstUnaccepted(p);
    assert p.Base().conditions == Before(p.read.status, t.writes, first).conditions;
    KeepsUnlessReturning(p.read.status, t.writes, t.status, p.c.replies.now, first, p.sent, p.Base(), kind);
  }

  lemma SameConditionsKeep(a: Status, b: Status, a': Status, b': Status, kind: ConditionKind)
    requires a'.conditions == a.conditions && b'.conditions == b.conditions
    ensures KeepsUnlessFlipped(a, b, kind) <==> KeepsUnlessFlipped(a', b', kind)
    ensures KeepsUnlessFlipped(a, a', kind)
  {
  }

  /** A write of a pass reaches the stored object. */
  predicate Lands(w: World, e: Event) {
    e.SendWrite? && e.pass < |w.passes| && Accepts(w, e.pass, e.arrives)
  }

  /** Transition times: from one stored version to the next a condition's transition time moves
      only when its truth flips, if and only if the write is not the return from a flip that was
      lost. */
  lemma TransitionsMoveExactlyWhen(ws: seq<World>, es: seq<Event>, i: nat, kind: ConditionKind)
    requires Run(ws, es) && i < |es| && kind in {Ready, Progressing}
    ensures ws[i].history != [] && ws[i + 1].history != []
    ensures Lands(ws[i], es[i]) ==> ws[i].passes[es[i].pass].sent < |ws[i].passes[es[i].pass].Trail().writes|
    ensures KeepsUnlessFlipped(ws[i].Latest().status, ws[i + 1].Latest().status, kind) <==>
      !(Lands(ws[i], es[i]) && LostFlip(ws[i].passes[es[i].pass], ws[i].Latest().status, kind))
  {
    hide VersionOk, Reconcile, Prompt, PutsRetryOnRecord, FollowsRetryCall, KeepsUnlessFlipped, LostFlip;
    RunKeepsInvariant(ws, es, i);
    var w, e := ws[i], es[i];
    assert Enabled(w, e) && ws[i + 1] == Next(w, e);
    var a, b := w.Latest().status, ws[i + 1].Latest().status;
    if Lands(w, e) {
      var p := w.passes[e.pass];
      assert p in w.passes && PassOk(w.history, w.named, p);
      assert a == p.Base();
      NextWriteKeeps(p, w.named, kind);
      SameConditionsKeep(a, p.Trail().writes[p.sent], a, b, kind);
    } else {
      SameConditionsKeep(a, a, b, b, kind);
    }
  }

  lemma VersionIsConsistent(st: Status, named: set<string>)
    requires VersionOk(st, named)
    ensures Consistent(st)
  {
  }

  /** Every write of the pass so far has been accepted. */
  predicate Unbroken(p: Pass) {
    p.accepted == if p.sent == 0 then None else Some(p.sent - 1)
  }

  /** In particular it moves only on flips while the pass that writes has lost no write. */
  lemma TransitionsMoveOnFlips(ws: seq<World>, es: seq<Event>, i: nat, kind: ConditionKind)
    requires Run(ws, es) && i < |es| && kind in {Ready, Progressing}
    requires Lands(ws[i], es[i]) ==> Unbroken(ws[i].passes[es[i].pass])
    ensures ws[i].history != [] && ws[i + 1].history != []
    ensures KeepsUnlessFlipped(ws[i].Latest().status, ws[i + 1].Latest().status, kind)
  {
    hide Run, KeepsUnlessFlipped, Reconcile, Get;
    TransitionsMoveExactlyWhen(ws, es, i, kind);
  }

  /** A deletion that fails writes twice, and Progressing flips there and back. */
  lemma FailedDeletionFlipsTwice(c: Context, st: Status)
    requires c.deleting && DeletionDue(c, st) && c.spec.deletionPolicy.Delete? && c.replies.deleteModel.Failure?
    requires Consistent(st) && !st.deploymentStatus.Progressing() && Get(st.conditions, Progressing).Some?
    ensures var t := Reconcile(c, st, true).trail;
      && |t.writes| == 2
      && Shows(t.writes[0], true) && Shows(t.writes[1], false) && Shows(st, false)
      && Get(t.writes[1].conditions, Progressing).value.transition == c.replies.now
  {
    var now, id := c.replies.now, st.modelID;
    var first := Update(Deleting, Say("deleting model"), id);
    var mid := Updated(st, first, c.generation, now);
    var second := Update(DeleteFailed, Say("failed to delete model"), id);
    hide Get, Conditions, ConsistentWith, OneEach;
    KeepsOneEach(st);
    UpdateIsConsistent(st, first, c.generation, now);
    KeepsOneEach(mid);
    UpdateIsConsistent(mid, second, c.generation, now);
    ConditionsReport(st);
    ConditionsReport(mid);
    ConditionsReport(Updated(mid, second, c.generation, now));
  }

  predicate Shows(st: Status, progressing: bool) {
    var c := Get(st.conditions, Progressing);
    c.Some? && c.value.isTrue == progressing
  }

  lemma ConditionsReport(st: Status)
    requires Consistent(st) && Get(st.conditions, Progressing).Some?
    ensures Get(st.conditions, Progressing).value.isTrue == st.deploymentStatus.Progressing()
  {
  }

  /** Recreation guard: a resolution time, once stored, is in every later version, and no pass
      that reads such a version under a deleting policy launches a push that creates the model. */
  lemma ResolvedModelsAreNotRecreated(ws: seq<World>, es: seq<Event>, i: nat, first: nat, p: Pass, name: string)
    requires Run(ws, es) && i < |ws| && first < |ws[i].history|
    requires ws[i].history[first].status.modelIDResolvedTime.Some?
    requires p in ws[i].passes && p.read in ws[i].history[first..] && p.c.spec.deletionPolicy.Deletes()
    ensures forall j :: first <= j < |ws[i].history| ==> ws[i].history[j].status.modelIDResolvedTime.Some?
    ensures Push(name, true) !in p.Trail().calls
  {
    hide VersionOk, PassOk, Reconcile, PushDue;
    RunKeepsInvariant(ws, es, i);
    var j :| 0 <= j < |ws[i].history[first..]| && ws[i].history[first..][j] == p.read;
    assert p.read == ws[i].history[first + j];
    GuardHolds(p.c, p.read.status, p.read.finalizer, name);
  }

  lemma GuardHolds(c: Context, st: Status, finalizer: bool, name: string)
    requires st.modelIDResolvedTime.Some? && c.spec.deletionPolicy.Deletes()
    ensures Push(name, true) !in Reconcile(c, st, finalizer).trail.calls
  {
    hide Reconcile;
    EveryCallIsExplained(c, st, finalizer);
  }

  /** A retry is made neither after the deadline nor before the waiting time is over, and it is on
      record as soon as any write the pass made after it is accepted. */
  lemma RetriesComeInTime(p: Pass, id: string)
    requires RetryDeployment(id) in p.Trail().calls
    ensures var times, st := p.c.replies.retryTimes, p.read.status;
      var first := if st.firstFailureTime.Some? then st.firstFailureTime.value else times.detected;
      && times.checked <= first + DEPLOYMENT_RETRY_DEADLINE
      && (st.nextRetryTime.Some? ==> st.nextRetryTime.value <= times.compared)
    ensures p.Trail().record.Some? && p.Trail().record.value < |p.Trail().writes|
  {
    hide Reconcile, Untried, Interval;
    PassKeepsRetryBook(p.c, p.read.status, p.read.finalizer);
  }

  /** Eight is the exact bound: after seven attempts that waited no longer than they had to, the
      eighth is made at the very deadline. */
  lemma EighthAttemptIsMade(c: Context, t: Trail, modelID: string, id: string, failed: StatusCode, first: Time)
    requires RetryOf(t.status) == Retry(Some(first), 7, Some(first + WaitedAfter(7)))
    requires c.replies.retryTimes.checked == c.replies.retryTimes.compared == first + WaitedAfter(7)
    requires FreshStatus(c, failed).RetryableFailure()
    ensures RetryBounded(t.status)
    ensures TryRetry(c, t, modelID, id, failed).trail.calls == t.calls + [RetryDeployment(id)]
    ensures TryRetry(c, t, modelID, id, failed).trail.status.retryCount == 8
  {
    DeadlineAllowsEight();
    hide WaitedAfter, Interval, Skipped, Conditions;
  }

  /** Mode safety: however the mode is flipped between and during passes, a pass acts on Baseten
      only if the version it read was in effective mode Reconcile and carried the finalizer, and
      deletes only a model the API has named for this resource. */
  lemma PassesActOnlyInReconcileMode(ws: seq<World>, es: seq<Event>, i: nat, p: Pass)
    requires Run(ws, es) && i < |ws| && p in ws[i].passes && p.Trail().calls != []
    ensures p.read in ws[i].history && p.read.finalizer && p.read.spec.EffectiveMode().ReconcileMode?
    ensures p.Trail().calls[0].DeleteModel? <==> p.read.deleting
    ensures p.read.deleting ==>
      && p.Trail().calls == [DeleteModel(p.read.status.modelID)]
      && p.read.spec.deletionPolicy.Deletes()
      && p.read.status.modelID in ws[i].named
  {
    hide VersionOk, Reconcile, PushDue, PatchDue, PromoteDue, ActivateDue, RetryDue, SweepDue;
    RunKeepsInvariant(ws, es, i);
    EveryCallIsExplained(p.c, p.read.status, p.read.finalizer);
    assert VersionOk(p.read.status, ws[i].named);
    NamedModel(p.read.status, ws[i].named);
  }

  lemma NamedModel(st: Status, named: set<string>)
    requires VersionOk(st, named)
    ensures st.modelID != "" ==> st.modelID in named
  {
  }

  /* ---- deletion ---- */

  /** A deletion keeps the cached model ID through all its writes. */
  lemma DeletionKeepsId(c: Context, st: Status)
    requires c.deleting && DeletionDue(c, st)
    ensures var t := Reconcile(c, st, true).trail;
            forall w :: w in t.writes ==> w.modelID == st.modelID
  {
    hide Skipped, Conditions;
  }

  /** The outcome of a pass takes the finalizer away if and only if the object is going and, when a
      deletion is due, `DeleteModel` was answered with success or 404 and, under guardrails, nothing
      serves; the deletion due is then the one call made. */
  lemma ReleaseOutcome(c: Context, st: Status)
    ensures !Reconcile(c, st, true).finalizer <==>
      && c.deleting
      && (DeletionDue(c, st) ==>
            && !c.replies.deleteModel.Failure?
            && (c.spec.deletionPolicy.DeleteWithGuardrails? ==> Idle(c.replies.listEnvironments)))
    ensures !Reconcile(c, st, true).finalizer ==>
      Reconcile(c, st, true).trail.calls == if DeletionDue(c, st) then [DeleteModel(st.modelID)] else []
  {
    hide Skipped, Updated, ReconcileActive, ReconcileObserve;
  }

  /** A pause does not hold deletion up, but keeps it from touching Baseten: a paused object that is
      going loses its finalizer at once, without any call or write. */
  lemma PausedDeletionReleases(c: Context, st: Status)
    requires c.deleting && c.spec.EffectiveMode().PauseMode?
    ensures !Reconcile(c, st, true).finalizer
    ensures Reconcile(c, st, true).trail.calls == [] && Reconcile(c, st, true).trail.writes == []
  {
  }

  /** Deletion over whole runs: the stored object loses its finalizer only through a pass that
      read the spec still in force and the object as going; if that spec owes Baseten the
      deletion of the model cached in the status in force, the pass made exactly that call, it was
      answered with success or 404, and under guardrails the listing showed nothing serving. */
  lemma FinalizerReleaseIsEarned(ws: seq<World>, es: seq<Event>, i: nat)
    requires Run(ws, es) && i < |es|
    requires ws[i].history != [] && ws[i + 1].history != []
    requires ws[i].Latest().finalizer && !ws[i + 1].Latest().finalizer
    ensures es[i].SendFinalizer? && es[i].pass < |ws[i].passes|
    ensures var p, now := ws[i].passes[es[i].pass], ws[i].Latest();
      && now.deleting && p.c.deleting && p.c.spec == now.spec
      && (DeletionDue(p.c, now.status) ==>
            && p.Trail().calls == [DeleteModel(now.status.modelID)]
            && !p.c.replies.deleteModel.Failure?
            && (now.spec.deletionPolicy.DeleteWithGuardrails? ==> Idle(p.c.replies.listEnvironments)))
  {
    hide VersionOk, Reconcile, Persist, Prompt;
    RunKeepsInvariant(ws, es, i);
    var w, e := ws[i], es[i];
    assert Enabled(w, e) && ws[i + 1] == Next(w, e);
    assert e.SendFinalizer?;
    var p := w.passes[e.pass];
    assert p in w.passes && PassOk(w.history, w.named, p) && p.version == |w.history| - 1;
    assert w.Latest() == p.read.(status := p.Base());
    ReleaseOutcome(p.c, p.read.status);
    BaseKeepsId(p);
  }

  lemma BaseKeepsId(p: Pass)
    requires p.accepted.Some? ==> p.accepted.value < |p.Trail().writes|
    requires p.c.deleting && p.read.finalizer
    ensures DeletionDue(p.c, p.Base()) ==> DeletionDue(p.c, p.read.status) && p.Base().modelID == p.read.status.modelID
  {
    hide Reconcile;
    if DeletionDue(p.c, p.read.status) {
      DeletionKeepsId(p.c, p.read.status);
    } else {
      NothingDueNothingWritten(p.c, p.read.status);
    }
    assert p.accepted.Some? ==> p.Trail().writes[p.accepted.value] in p.Trail().writes;
  }

  lemma NothingDueNothingWritten(c: Context, st: Status)
    requires c.deleting && !DeletionDue(c, st)
    ensures Reconcile(c, st, true).trail.writes == []
  {
  }
}
