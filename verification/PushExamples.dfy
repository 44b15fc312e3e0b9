/** Three runs from a fresh resource. In two of them a pass takes a slow push for dead, announces
    another one and finds no slot, which costs the push its backoff or its name; in the third a
    changed configuration inherits the failures of the old one. */
module PushExamples {
  import opened Types
  import opened Names
  import opened Drift
  import opened Schedules
  import opened Baseten
  import opened Model
  import opened StatusUpdates
  import opened Backoff
  import opened Steps
  import opened PassPush
  import opened PushRuns
  import PassCalls
  import PassNames
  import Runs

  const OLD := TrussConfig("old", "vllm:1")
  const NEW := TrussConfig("new", "vllm:1")

  function SpecWith(config: TrussConfig): Spec {
    Spec("model", "", Some(config), EnvironmentConfig("prod", None, None, None), None, ReconcileMode, false, Retain)
  }

  /** The model exists, the deployment does not, and the clock shows `now`. */
  function At(config: TrussConfig, now: Time, slotFree: bool): Context {
    Context(SpecWith(config), 1, false, (tc: TrussConfig, script) => tc.content,
      Replies(now, RetryTimes(now, now, now, now), 0, MetaWritten, true, true, true,
              Ok("m"), Some("script"), true, Ok(Found("", Blank)), slotFree, NotFound, Failure, Failure, Failure,
              Failure, Failure, Failure, Failure, Failure, Failure, Failure, Failure, Failure, Sweep([], [])),
      id => true)
  }

  function NameFor(config: TrussConfig): string {
    DeploymentName(config.content, config.image)
  }

  const FRESH := World(Runs.BLANK_STATUS, [], None, 0, Failing("", 0))

  /** Just past the stale timeout; the push itself may take five minutes and then has to write. */
  const SLOW: Time := 5 * MINUTE + SECOND

  lemma NameOfConfig(config: TrussConfig, now: Time, slotFree: bool)
    ensures var c := At(config, now, slotFree);
      && Reads(c) && TrussHash(c) == config.content && TrussName(c) == NameFor(config)
      && PassCalls.Acting(c, true)
    ensures NameFor(config) != ""
  {
  }

  lemma OldIsNotNew()
    ensures NameFor(OLD) != NameFor(NEW)
  {
    assert "old"[0] != "new"[0];
    if NameFor(OLD) == NameFor(NEW) {
      NamesSeparateHashes("old", OLD.image, "new", NEW.image);
    }
  }

  /** A pass announces a push unless one of this name is done, fresh, or being waited out. */
  lemma Announcing(config: TrussConfig, st: Status, now: Time, slotFree: bool)
    requires !st.pushStatus.PushDone?
    requires PushIsCurrent(st, NameFor(config)) ==> PushIsStale(st, now)
    requires !BackingOff(st, NameFor(config), now)
    ensures Announces(At(config, now, slotFree), st, true)
  {
    NameOfConfig(config, now, slotFree);
    hide DeploymentName;
  }

  function Kept(st: Status, config: TrussConfig): int {
    if st.pushStatus.PushFailed? && st.sourceDeploymentName != NameFor(config) then 0 else st.pushFailureCount
  }

  /** What such a pass leaves behind. */
  lemma Announced(w: World, config: TrussConfig, now: Time, slotFree: bool)
    requires !w.stored.pushStatus.PushDone?
    requires PushIsCurrent(w.stored, NameFor(config)) ==> PushIsStale(w.stored, now)
    requires !BackingOff(w.stored, NameFor(config), now)
    ensures var c := At(config, now, slotFree);
      var w' := Next(w, PassRuns(c, true));
      && Launches(c, w.stored, true) == slotFree
      && w'.stored.pushFailureCount == Kept(w.stored, config) && w'.stored.trussConfigHash == config.content
      && w'.flying == w.flying + (if slotFree then [NameFor(config)] else [])
      && (if slotFree
          then && w'.stored.pushStatus.Pushing? && w'.stored.sourceDeploymentName == NameFor(config)
               && w'.stored.pushTime == Some(Runs.Whole(now))
          else w'.stored.pushStatus.NoPush? && w'.stored.sourceDeploymentName == "")
  {
    Announcing(config, w.stored, now, slotFree);
    NameOfConfig(config, now, slotFree);
    SlotOf(config, now, slotFree);
    hide Reconcile, Announces, LastStored, DeploymentName, BackingOff, At, PushIsStale;
    PassLeaves(At(config, now, slotFree), w.stored, true);
    PushesExactlyWhenAnnounced(At(config, now, slotFree), w.stored, true);
  }

  lemma SlotOf(config: TrussConfig, now: Time, slotFree: bool)
    ensures At(config, now, slotFree).replies.pushSlotFree == slotFree
    ensures At(config, now, slotFree).replies.now == now
  {
  }

  /** What a failure leaves behind, at a full second and without jitter. */
  lemma Failed(w: World, k: nat, now: Time)
    requires k < |w.flying| && now % SECOND == 0
    ensures var w' := Next(w, PushFails(k, "unreachable", now, 0));
      var until := now + Interval(w.stored.pushFailureCount + 1);
      && w'.stored.sourceDeploymentName == w.stored.sourceDeploymentName && w'.stored.pushStatus.PushFailed?
      && w'.stored.pushFailureCount == w.stored.pushFailureCount + 1 && w'.stored.pushNextRetryTime == Some(until)
      && w'.waiting == Some(Wait(w.flying[k], until)) && w'.early == w.early
      && w'.flying == Without(w.flying, k)
      && w'.failing == Failing(w.flying[k], if w.failing.name == w.flying[k] then w.failing.count + 1 else 1)
  {
    IntervalBounds(w.stored.pushFailureCount + 1);
    hide Interval;
  }

  /** One more event of a run. */
  lemma Extend(ws: seq<World>, es: seq<Event>, e: Event)
    requires IsRun(ws, es) && Enabled(ws[|es|], e)
    ensures IsRun(ws + [Next(ws[|es|], e)], es + [e])
  {
    hide Next, Enabled;
    var ws', es' := ws + [Next(ws[|es|], e)], es + [e];
    forall i | 0 <= i < |es'| ensures Enabled(ws'[i], es'[i]) && ws'[i + 1] == Next(ws'[i], es'[i]) {
      if i < |es| {
        assert ws'[i] == ws[i] && ws'[i + 1] == ws[i + 1] && es'[i] == es[i];
      }
    }
  }

  /* ---- the first push, and how it is taken for dead ---- */

  ghost function Pushed(): World { Next(FRESH, PassRuns(At(OLD, 0, true), true)) }

  ghost function Slotless(): World { Next(Pushed(), PassRuns(At(OLD, SLOW, false), true)) }

  lemma FirstPush()
    ensures var w := Pushed();
      && w.flying == [NameFor(OLD)] && w.waiting.None? && w.early == 0
      && w.stored.sourceDeploymentName == NameFor(OLD) && w.stored.trussConfigHash == "old"
      && w.stored.pushStatus.Pushing? && w.stored.pushTime == Some(0) && w.stored.pushFailureCount == 0
  {
    NameOfConfig(OLD, 0, true);
    SlotOf(OLD, 0, true);
    Announced(FRESH, OLD, 0, true);
    hide Reconcile, LastStored, DeploymentName, Launches, At;
  }

  /** A push is launched, grows stale while its slot is still taken, and a pass blanks its name. */
  lemma Blanked()
    ensures var w := Slotless();
      && w.flying == [NameFor(OLD)] && w.waiting.None? && w.early == 0
      && w.stored.sourceDeploymentName == "" && w.stored.trussConfigHash == "old"
      && w.stored.pushStatus.NoPush? && w.stored.pushFailureCount == 0
  {
    FirstPush();
    NameOfConfig(OLD, SLOW, false);
    SlotOf(OLD, SLOW, false);
    hide Reconcile, LastStored, DeploymentName, Launches, At, Pushed;
    Announced(Pushed(), OLD, SLOW, false);
  }

  /** The run up to there. */
  lemma ToSlotless() returns (ws: seq<World>, es: seq<Event>)
    ensures IsRun(ws, es) && |es| == 2 && |ws| == 3 && ws[0] == FRESH && ws[2] == Slotless()
  {
    hide Next;
    var e0, e1 := PassRuns(At(OLD, 0, true), true), PassRuns(At(OLD, SLOW, false), true);
    Extend([FRESH], [], e0);
    ws, es := [FRESH] + [Pushed()], [] + [e0];
    Extend(ws, es, e1);
    ws, es := ws + [Slotless()], es + [e1];
  }

  /** A pass that finds the failure on a blank name pushes at once. */
  lemma EarlyPush(w: World, now: Time)
    requires w.waiting.Some? && w.waiting.value.name == NameFor(OLD) && now < w.waiting.value.until
    requires w.stored.pushStatus.PushFailed? && w.stored.sourceDeploymentName == ""
    ensures Next(w, PassRuns(At(OLD, now, true), true)).early == w.early + 1
  {
    NameOfConfig(OLD, now, true);
    SlotOf(OLD, now, true);
    hide Reconcile, LastStored, DeploymentName, Launches, At;
    Announced(w, OLD, now, true);
  }

  /** The failure of the slow push then holds nothing back: a push goes out a second later. */
  lemma BackoffIsSkipped() returns (ws: seq<World>, es: seq<Event>)
    ensures IsRun(ws, es) && |ws| == 5 && ws[0] == FRESH && ws[4].early == 1
  {
    Blanked();
    ws, es := ToSlotless();
    hide Slotless, Next, Interval, IsRun, At, NameFor;
    var w2 := Slotless();
    var e2, e3 := PushFails(0, "unreachable", SLOW + SECOND, 0), PassRuns(At(OLD, SLOW + 2 * SECOND, true), true);
    IntervalBounds(1);
    Failed(w2, 0, SLOW + SECOND);
    var w3 := Next(w2, e2);
    EarlyPush(w3, SLOW + 2 * SECOND);
    Extend(ws, es, e2);
    ws, es := ws + [w3], es + [e2];
    Extend(ws, es, e3);
    ws, es := ws + [Next(w3, e3)], es + [e3];
  }

  /** Its success leaves a resource whose next pass works for a deployment without a name. */
  lemma NameIsLost() returns (ws: seq<World>, es: seq<Event>, c: Context)
    ensures IsRun(ws, es) && |ws| == 4 && ws[0] == FRESH
    ensures Reads(c) && TrussName(c) != ""
    ensures ReconcileTruss(c, Start(ws[3].stored), "m") == Go(Start(ws[3].stored), "")
  {
    Blanked();
    ws, es := ToSlotless();
    hide Slotless, DeploymentName, PushOrWait, IsRun;
    NameOfConfig(OLD, 7 * MINUTE, true);
    var e2 := PushSucceeds(0, "", SLOW + SECOND);
    c := At(OLD, 7 * MINUTE, true);
    Extend(ws, es, e2);
    ws, es := ws + [Next(Slotless(), e2)], es + [e2];
  }

  /* ---- a change of configuration while a retry is in flight ---- */

  ghost function FailedOnce(): World
    ensures FailedOnce().flying == []
  {
    FirstPush();
    Next(Pushed(), PushFails(0, "unreachable", SECOND, 0))
  }

  ghost function PushedAgain(): World { Next(FailedOnce(), PassRuns(At(OLD, 3 * MINUTE, true), true)) }

  ghost function Changed(): World { Next(PushedAgain(), PassRuns(At(NEW, 3 * MINUTE + SECOND, true), true)) }

  lemma OneFailure()
    ensures var w := FailedOnce();
      && w.stored.sourceDeploymentName == NameFor(OLD) && w.stored.pushStatus.PushFailed?
      && w.stored.pushFailureCount == 1 && w.stored.pushNextRetryTime == Some(SECOND + 2 * MINUTE)
      && w.failing.name == NameFor(OLD)
  {
    FirstPush();
    hide Next, Pushed, DeploymentName;
    assert Interval(1) == 2 * MINUTE;
    Failed(Pushed(), 0, SECOND);
  }

  lemma SecondPush()
    ensures var w := PushedAgain();
      && w.flying == [NameFor(OLD)] && w.stored.sourceDeploymentName == NameFor(OLD)
      && w.stored.pushStatus.Pushing? && w.stored.pushFailureCount == 1 && w.failing.name == NameFor(OLD)
  {
    OneFailure();
    NameOfConfig(OLD, 3 * MINUTE, true);
    SlotOf(OLD, 3 * MINUTE, true);
    hide Reconcile, LastStored, DeploymentName, Launches, At, FailedOnce;
    Announced(FailedOnce(), OLD, 3 * MINUTE, true);
  }

  lemma NewPush()
    ensures var w := Changed();
      && w.flying == [NameFor(OLD), NameFor(NEW)] && w.stored.pushFailureCount == 1
      && w.failing.name == NameFor(OLD) != NameFor(NEW)
  {
    SecondPush();
    OldIsNotNew();
    NameOfConfig(NEW, 3 * MINUTE + SECOND, true);
    SlotOf(NEW, 3 * MINUTE + SECOND, true);
    hide Reconcile, LastStored, DeploymentName, Launches, At, PushedAgain;
    Announced(PushedAgain(), NEW, 3 * MINUTE + SECOND, true);
  }

  lemma ToFailedOnce() returns (ws: seq<World>, es: seq<Event>)
    ensures IsRun(ws, es) && |es| == 2 && |ws| == 3 && ws[0] == FRESH && ws[2] == FailedOnce()
  {
    FirstPush();
    hide Next, At, NameFor;
    var e0, e1 := PassRuns(At(OLD, 0, true), true), PushFails(0, "unreachable", SECOND, 0);
    Extend([FRESH], [], e0);
    ws, es := [FRESH] + [Pushed()], [] + [e0];
    Extend(ws, es, e1);
    ws, es := ws + [FailedOnce()], es + [e1];
  }

  lemma ToChanged() returns (ws: seq<World>, es: seq<Event>)
    ensures IsRun(ws, es) && |es| == 4 && |ws| == 5 && ws[0] == FRESH && ws[4] == Changed()
  {
    hide Next, At, NameFor, IsRun, FailedOnce;
    var e2, e3 := PassRuns(At(OLD, 3 * MINUTE, true), true), PassRuns(At(NEW, 3 * MINUTE + SECOND, true), true);
    ws, es := ToFailedOnce();
    Extend(ws, es, e2);
    ws, es := ws + [PushedAgain()], es + [e2];
    Extend(ws, es, e3);
    ws, es := ws + [Changed()], es + [e3];
  }

  lemma SecondInterval()
    ensures Interval(2) == 4 * MINUTE
  {
    assert Pow2(0) == 1 && Pow2(1) == 2;
  }

  /** The first failure of the new name makes it wait four minutes, as if it had failed before. */
  lemma OldFailuresAreInherited() returns (ws: seq<World>, es: seq<Event>)
    ensures IsRun(ws, es) && |ws| == 6 && ws[0] == FRESH && es[4] == PushFails(1, "unreachable", 4 * MINUTE, 0)
    ensures ws[5].failing == Failing(NameFor(NEW), 1)
    ensures ws[5].waiting == Some(Wait(NameFor(NEW), 4 * MINUTE + 4 * MINUTE))
  {
    hide Next, Changed, Interval, IsRun, NameFor, At;
    NewPush();
    ws, es := ToChanged();
    SecondInterval();
    var e4 := PushFails(1, "unreachable", 4 * MINUTE, 0);
    Failed(Changed(), 1, 4 * MINUTE);
    Extend(ws, es, e4);
    ws, es := ws + [Next(Changed(), e4)], es + [e4];
  }

  /* ---- a source named by the spec, between two passes on a configuration ---- */

  const EMPTY := Environment("prod", None, None, None, None, None, false)

  /** The spec names a source instead; it is ready, and the environment is empty. */
  function Naming(now: Time): Context {
    var c := At(OLD, now, true);
    c.(spec := c.spec.(truss := None, sourceDeploymentName := "dep"),
       replies := c.replies.(environment := Ok(EMPTY), findSource := Ok(Found("d", Active))))
  }

  lemma NamingPromotes(st: Status, now: Time)
    requires st.modelID != ""
    ensures PassNames.GetsToPromote(Naming(now), st)
  {
  }

  lemma Renamed(st: Status, now: Time)
    requires st.modelID != ""
    ensures ViewOf(LastStored(st, Reconcile(Naming(now), st, true).trail)) == ViewOf(st).(name := "dep")
  {
    NamingPromotes(st, now);
    hide Reconcile, LastStored, ViewOf, PassNames.GetsToPromote;
    PassNames.PromotingIs(Naming(now), st, true);
    PassNames.NamedSourceStaysExactlyUnlessPromoting(Naming(now), st, true);
  }

  ghost function Swapped(): World { Next(Done(), PassRuns(Naming(MINUTE), true)) }

  ghost function Done(): World
    ensures var w := Done().stored;
      && w.modelID == "m" && w.trussConfigHash == "old" && w.pushStatus.PushDone?
  {
    FirstPush();
    Next(Pushed(), PushSucceeds(0, "m", SECOND))
  }

  lemma ToDone() returns (ws: seq<World>, es: seq<Event>)
    ensures IsRun(ws, es) && |es| == 2 && |ws| == 3 && ws[0] == FRESH && ws[2] == Done()
  {
    FirstPush();
    hide Next, At, NameFor;
    var e0, e1 := PassRuns(At(OLD, 0, true), true), PushSucceeds(0, "m", SECOND);
    Extend([FRESH], [], e0);
    ws, es := [FRESH] + [Pushed()], [] + [e0];
    Extend(ws, es, e1);
    ws, es := ws + [Done()], es + [e1];
  }

  lemma NameIsOther()
    ensures NameFor(OLD) != "dep"
  {
    assert |NameFor(OLD)| != 3;
  }

  lemma TrustsCache(c: Context, st: Status)
    requires Reads(c) && st.trussConfigHash == TrussHash(c) && st.pushStatus.PushDone?
    ensures ReconcileTruss(c, Start(st), "m") == Go(Start(st), st.sourceDeploymentName)
  {
    hide TrussHash, TrussName, PushOrWait;
  }

  lemma StoredAfterNaming()
    ensures var st := Swapped().stored;
      st.trussConfigHash == "old" && st.pushStatus.PushDone? && st.sourceDeploymentName == "dep"
  {
    hide Reconcile, LastStored, Done, Naming;
    Renamed(Done().stored, MINUTE);
  }

  /** Back on the configuration, the fast path takes the source named in between for its own. */
  lemma SourceIsMistaken() returns (ws: seq<World>, es: seq<Event>, c: Context)
    ensures IsRun(ws, es) && |ws| == 4 && ws[0] == FRESH
    ensures Reads(c) && TrussName(c) != "dep"
    ensures ReconcileTruss(c, Start(ws[3].stored), "m") == Go(Start(ws[3].stored), "dep")
  {
    ws, es := ToDone();
    c := At(OLD, 2 * MINUTE, true);
    NameOfConfig(OLD, 2 * MINUTE, true);
    NameIsOther();
    hide Next, At, NameFor, Done, IsRun, ReconcileTruss, DeploymentName;
    StoredAfterNaming();
    TrustsCache(c, Swapped().stored);
    var e2 := PassRuns(Naming(MINUTE), true);
    Extend(ws, es, e2);
    ws, es := ws + [Swapped()], es + [e2];
  }
}
