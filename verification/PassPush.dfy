/** What a pass leaves stored of the fields that track pushes. */
module PassPush {
  import opened Types
  import opened Drift
  import opened Schedules
  import opened Baseten
  import opened Model
  import opened StatusUpdates
  import opened Steps
  import PassCalls

  /** The push fields of a status. */
  datatype View = View(hash: string, name: string, status: PushStatus, time: Option<Time>,
                       failures: int, nextRetry: Option<Time>, lastError: string)

  function ViewOf(st: Status): View {
    View(st.trussConfigHash, st.sourceDeploymentName, st.pushStatus, st.pushTime,
         st.pushFailureCount, st.pushNextRetryTime, st.pushLastError)
  }

  /** In memory and stored, the push fields are `v`. */
  predicate Holds(st0: Status, v: View, t: Trail) {
    ViewOf(t.status) == v && ViewOf(LastStored(st0, t)) == v
  }

  lemma UpdatesHold(c: Context, st0: Status, v: View)
    ensures forall t, su: StatusUpdate :: Holds(st0, v, t) && su.sourceDeploymentName in {"", v.name} ==>
      Holds(st0, v, UpdateStatus(c, t, su))
  {
    forall t, su: StatusUpdate | Holds(st0, v, t) && su.sourceDeploymentName in {"", v.name}
      ensures Holds(st0, v, UpdateStatus(c, t, su))
    {
      UpdateHolds(c, st0, v, t, su);
    }
  }

  lemma UpdateHolds(c: Context, st0: Status, v: View, t: Trail, su: StatusUpdate)
    requires Holds(st0, v, t) && su.sourceDeploymentName in {"", v.name}
    ensures Holds(st0, v, UpdateStatus(c, t, su))
  {
    hide Skipped, Conditions;
  }

  /* ---- the stages that leave the push fields alone ---- */

  lemma DeletionHolds(c: Context, st0: Status, v: View, t: Trail, finalizer: bool)
    requires Holds(st0, v, t)
    ensures Holds(st0, v, Deletion(c, t, finalizer).trail)
  {
    hide UpdateStatus, ViewOf;
    UpdatesHold(c, st0, v);
  }

  lemma ObserveHolds(c: Context, st0: Status, v: View, t: Trail)
    requires Holds(st0, v, t)
    ensures Holds(st0, v, ReconcileObserve(c, t).0)
  {
    hide UpdateStatus, ViewOf;
    UpdatesHold(c, st0, v);
  }

  lemma ResolveHolds(c: Context, st0: Status, v: View, t: Trail)
    requires Holds(st0, v, t)
    ensures Holds(st0, v, ResolveModelID(c, t).trail)
  {
    hide UpdateStatus, ViewOf;
    UpdatesHold(c, st0, v);
  }

  lemma ConcludeHolds(c: Context, st0: Status, v: View, t: Trail, verdict: Verdict)
    requires Holds(st0, v, t)
    ensures Holds(st0, v, Conclude(t, verdict).0)
  {
  }

  lemma RetryHolds(c: Context, st0: Status, v: View, t: Trail, modelID: string, id: string, failed: StatusCode)
    requires Holds(st0, v, t)
    ensures Holds(st0, v, TryRetry(c, t, modelID, id, failed).trail)
  {
    hide UpdateStatus;
    UpdatesHold(c, st0, v);
  }

  lemma EnvironmentHolds(c: Context, st0: Status, v: View, t: Trail, modelID: string)
    requires Holds(st0, v, t)
    ensures Holds(st0, v, ReconcileEnvironment(c, t, modelID).trail)
  {
    hide UpdateStatus, ViewOf;
    UpdatesHold(c, st0, v);
  }

  lemma SteadyHolds(c: Context, st0: Status, v: View, t: Trail, modelID: string, env: Environment)
    requires Holds(st0, v, t) && env.current.Some?
    ensures Holds(st0, v, SteadyState(c, t, modelID, env).0)
  {
    hide UpdateStatus, Skipped;
    UpdateHolds(c, st0, v, t, SteadyUpdate(t, modelID, env));
  }

  lemma CandidateHolds(c: Context, st0: Status, v: View, t: Trail, modelID: string, env: Environment)
    requires Holds(st0, v, t) && env.candidate.Some?
    ensures Holds(st0, v, PromotionInProgress(c, t, modelID, env).0)
  {
    hide UpdateStatus, TryRetry, ViewOf;
    UpdatesHold(c, st0, v);
    RetryHolds(c, st0, v, t, modelID, CandidateIdToRetry(t, env.candidate.value), env.candidate.value.status);
  }

  lemma ValidateHolds(c: Context, st0: Status, v: View, t: Trail, modelID: string, source: string, env: Environment)
    requires Holds(st0, v, t)
    ensures Holds(st0, v, ValidateSource(c, t, modelID, source, env).trail)
  {
    hide UpdateStatus, TryRetry, ViewOf;
    UpdatesHold(c, st0, v);
    if c.replies.findSource.Ok? {
      RetryHolds(c, st0, v, t, modelID, c.replies.findSource.value.id, c.replies.findSource.value.status);
    }
  }

  lemma PromoteHolds(c: Context, st0: Status, v: View, t: Trail, modelID: string, id: string, env: Environment)
    requires Holds(st0, v, t)
    ensures Holds(st0, v, PromoteSource(c, t, modelID, v.name, id, env).0)
  {
    hide UpdateStatus, Skipped;
    UpdatesHold(c, st0, v);
  }

  lemma GuardHolds(c: Context, st0: Status, v: View, t: Trail, env: Environment, modelID: string, source: string)
    requires Holds(st0, v, t)
    ensures Holds(st0, v, DoublePromoteGuard(c, t, env, modelID, source).trail)
  {
    hide UpdateStatus;
    UpdatesHold(c, st0, v);
  }

  lemma ReactivateHolds(c: Context, st0: Status, v: View, t: Trail, modelID: string, env: Environment)
    requires Holds(st0, v, t) && env.current.Some?
    ensures Holds(st0, v, Reactivate(c, t, modelID, env).0)
  {
    hide UpdateStatus;
    UpdatesHold(c, st0, v);
  }

  lemma WithEnvironmentHolds(c: Context, st0: Status, v: View, t: Trail, modelID: string, env: Environment)
    requires Holds(st0, v, t)
    ensures Holds(st0, v, WithEnvironment(c, t, modelID, v.name, env).0)
  {
    hide Holds, UpdateStatus, SteadyState, Reactivate, PromotionInProgress, DoublePromoteGuard, ValidateSource,
        PromoteSource, Conclude;
    if Matches(env.current, v.name) {
      SteadyHolds(c, st0, v, t, modelID, env);
      ReactivateHolds(c, st0, v, t, modelID, env);
    } else if Matches(env.candidate, v.name) {
      CandidateHolds(c, st0, v, t, modelID, env);
    } else {
      var guard := DoublePromoteGuard(c, t, env, modelID, v.name);
      GuardHolds(c, st0, v, t, env, modelID, v.name);
      if guard.Go? {
        ValidateHolds(c, st0, v, guard.trail, modelID, v.name, env);
        var valid := ValidateSource(c, guard.trail, modelID, v.name, env);
        if valid.Go? {
          PromoteHolds(c, st0, v, valid.trail, modelID, valid.value, env);
        } else {
          ConcludeHolds(c, st0, v, valid.trail, valid.verdict);
        }
      }
    }
  }

  /* ---- the stage that changes them ---- */

  predicate Reads(c: Context) { c.spec.truss.Some? && c.replies.setupScript.Some? }

  /** An existing deployment is taken for the result of the push. */
  function FoundView(c: Context, v: View): View
    requires Reads(c)
  {
    v.(hash := TrussHash(c), name := TrussName(c), status := PushDone, failures := 0, nextRetry := None,
       lastError := "")
  }

  /** The fields just before a push is announced. */
  function ReadyView(c: Context, v: View): View
    requires Reads(c)
  {
    if v.status.Pushing? && v.name == TrussName(c) then v.(status := NoPush, time := None)
    else if v.status.PushFailed? && v.name != TrussName(c) then v.(failures := 0, nextRetry := None, lastError := "")
    else v
  }

  function AnnouncedView(c: Context, v: View): View
    requires Reads(c)
  {
    ReadyView(c, v).(hash := TrussHash(c), name := TrussName(c), status := Pushing, time := Some(c.replies.now))
  }

  /** A full semaphore takes the announcement back, and the name with it, but not the hash. */
  function BlankedView(c: Context, v: View): View
    requires Reads(c)
  {
    AnnouncedView(c, v).(status := NoPush, name := "")
  }

  /** The pass announces a push: nothing answers for the configuration, nothing is in progress and
      no failure is being waited out. */
  predicate Announces(c: Context, st: Status, finalizer: bool) {
    && PassCalls.Acting(c, finalizer) && Reads(c)
    && ResolveModelID(c, Start(st)).Go?
    && (var modelID := ResolveModelID(c, Start(st)).value;
        modelID != "" ==>
          && !(st.trussConfigHash == TrussHash(c) && st.pushStatus.PushDone?)
          && c.replies.findBuilt.Ok? && c.replies.findBuilt.value.id == "")
    && !(PushIsCurrent(st, TrussName(c)) && !PushIsStale(st, c.replies.now))
    && !BackingOff(st, TrussName(c), c.replies.now)
    && c.replies.configGenerates
  }

  /** The push fields stored by a pass under a configured truss. */
  predicate Leaves(c: Context, st0: Status, after: View, calls: seq<Call>, announced: bool) {
    var v := ViewOf(st0);
    if !Reads(c) then after == v && !announced
    else if announced then
      if c.replies.pushSlotFree then after == AnnouncedView(c, v) && |calls| == 1 && calls[0].Push?
          && calls[0].name == TrussName(c)
      else after == BlankedView(c, v)
    else
      || after == v
      || (after == FoundView(c, v) && c.replies.findBuilt.Ok? && c.replies.findBuilt.value.id != "")
      || (after == ReadyView(c, v) && !BackingOff(st0, TrussName(c), c.replies.now)
          && (PushIsCurrent(st0, TrussName(c)) ==> PushIsStale(st0, c.replies.now)))
  }

  lemma StartPushHolds(c: Context, st0: Status, t: Trail, modelID: string)
    requires Reads(c) && t.calls == []
    ensures var v, r := ViewOf(t.status), StartPush(c, t, modelID, TrussHash(c), TrussName(c)).0;
      var announced := v.(hash := TrussHash(c), name := TrussName(c), status := Pushing, time := Some(c.replies.now));
      if c.replies.pushSlotFree then Holds(st0, announced, r) && r.calls == [Push(TrussName(c), modelID == "")]
      else Holds(st0, announced.(status := NoPush, name := ""), r)
  {
    hide UpdateStatus;
    var v := ViewOf(t.status);
    var announced := v.(hash := TrussHash(c), name := TrussName(c), status := Pushing, time := Some(c.replies.now));
    UpdatesHold(c, st0, announced);
    UpdatesHold(c, st0, announced.(status := NoPush, name := ""));
    PassCalls.UpdatesCallNothing(c);
  }

  /** Nothing answers yet for the configuration: wait, or announce a push. */
  predicate Pushable(c: Context, st: Status)
    requires Reads(c)
  {
    && !(PushIsCurrent(st, TrussName(c)) && !PushIsStale(st, c.replies.now))
    && !BackingOff(st, TrussName(c), c.replies.now)
    && c.replies.configGenerates
  }

  lemma ReadyHolds(c: Context, st0: Status)
    requires Reads(c)
    ensures var ready := ReadyToPush(Start(st0), TrussName(c), c.replies.now);
      && ready.calls == [] && ViewOf(ready.status) == ReadyView(c, ViewOf(st0))
      && ViewOf(LastStored(st0, ready)) in {ViewOf(st0), ReadyView(c, ViewOf(st0))}
  {
    hide TrussName;
  }

  lemma PushOrWaitLeaves(c: Context, st0: Status, modelID: string)
    requires Reads(c)
    ensures var t := PushOrWait(c, Start(st0), modelID, TrussHash(c), TrussName(c)).0;
      Leaves(c, st0, ViewOf(LastStored(st0, t)), t.calls, Pushable(c, st0))
  {
    hide StartPush, UpdateStatus, TrussName, TrussHash, LastStored;
    var t, v := Start(st0), ViewOf(st0);
    StartHolds(st0);
    var ready := ReadyToPush(t, TrussName(c), c.replies.now);
    ReadyHolds(c, st0);
    if Pushable(c, st0) {
      StartPushHolds(c, st0, ready, modelID);
    } else {
      UpdatesHold(c, st0, v);
      ConfigFailureHolds(c, st0, ready, modelID);
    }
  }

  lemma ConfigFailureHolds(c: Context, st0: Status, t: Trail, modelID: string)
    ensures ViewOf(LastStored(st0, UpdateStatus(c, t, Update(Failed, Say("truss push failed"), modelID)))) in
      {ViewOf(LastStored(st0, t)), ViewOf(t.status)}
  {
    hide Skipped, Conditions;
  }

  /** How far the pass gets towards a push once it knows whether there is a model. */
  predicate Unanswered(c: Context, st: Status, modelID: string)
    requires Reads(c)
  {
    modelID != "" ==>
      && !(st.trussConfigHash == TrussHash(c) && st.pushStatus.PushDone?)
      && c.replies.findBuilt.Ok? && c.replies.findBuilt.value.id == ""
  }

  lemma TrussGoes(c: Context, st0: Status, modelID: string)
    requires c.spec.truss.Some?
    ensures var step := ReconcileTruss(c, Start(st0), modelID);
      step.Go? ==>
        && Reads(c) && !Unanswered(c, st0, modelID)
        && Holds(st0, ViewOf(step.trail.status), step.trail) && step.value == ViewOf(step.trail.status).name
        && (ViewOf(step.trail.status) == ViewOf(st0) ||
            (ViewOf(step.trail.status) == FoundView(c, ViewOf(st0)) && c.replies.findBuilt.Ok?
             && c.replies.findBuilt.value.id != ""))
  {
    hide PushOrWait, UpdateStatus;
  }

  lemma TrussStops(c: Context, st0: Status, modelID: string)
    requires c.spec.truss.Some?
    ensures var step := ReconcileTruss(c, Start(st0), modelID);
      step.Stop? ==> var t := Conclude(step.trail, step.verdict).0;
        Leaves(c, st0, ViewOf(LastStored(st0, t)), t.calls, Reads(c) && Unanswered(c, st0, modelID) && Pushable(c, st0))
  {
    hide PushOrWait, UpdateStatus, ViewOf, Leaves, LastStored;
    if Reads(c) && Unanswered(c, st0, modelID) {
      PushOrWaitLeaves(c, st0, modelID);
      PushNeverMissing(c, Start(st0), modelID, TrussHash(c), TrussName(c));
    } else {
      AnswerHolds(c, st0, modelID);
    }
  }

  lemma PushNeverMissing(c: Context, t: Trail, modelID: string, configHash: string, name: string)
    ensures PushOrWait(c, t, modelID, configHash, name).1 != Fail(Missing)
  {
    hide UpdateStatus;
  }

  lemma AnswerHolds(c: Context, st0: Status, modelID: string)
    requires c.spec.truss.Some? && (Reads(c) ==> !Unanswered(c, st0, modelID))
    ensures var step := ReconcileTruss(c, Start(st0), modelID);
      step.Stop? ==> var t := Conclude(step.trail, step.verdict).0;
        Leaves(c, st0, ViewOf(LastStored(st0, t)), t.calls, false)
  {
    hide PushOrWait, UpdateStatus, ViewOf;
    UpdatesHold(c, st0, ViewOf(st0));
    var step := ReconcileTruss(c, Start(st0), modelID);
    if step.Stop? {
      ConcludeHolds(c, st0, ViewOf(st0), step.trail, step.verdict);
    }
  }

  lemma ActiveLeaves(c: Context, st0: Status)
    requires c.spec.truss.Some? && PassCalls.Acting(c, true)
    ensures var t := ReconcileActive(c, Start(st0)).0;
      Leaves(c, st0, ViewOf(LastStored(st0, t)), t.calls, Announces(c, st0, true))
  {
    hide ResolveModelID, ReconcileTruss, ReconcileEnvironment, WithEnvironment, Conclude, Holds, LastStored, ViewOf,
        Pushable;
    var t, v := Start(st0), ViewOf(st0);
    StartHolds(st0);
    ResolveHolds(c, st0, v, t);
    var resolved := ResolveModelID(c, t);
    if resolved.Stop? {
      HoldsLeaves(c, st0, v, resolved.trail);
    } else {
      ResolveIsStart(c, t);
      TrussStops(c, st0, resolved.value);
      TrussGoes(c, st0, resolved.value);
      AnnouncesIs(c, st0, resolved.value);
      var truss := ReconcileTruss(c, t, resolved.value);
      if truss.Go? {
        AfterTruss(c, st0, truss.trail, resolved.value, truss.value);
      }
    }
  }

  lemma StartHolds(st0: Status)
    ensures Holds(st0, ViewOf(st0), Start(st0))
  {
  }

  lemma ResolveIsStart(c: Context, t: Trail)
    ensures ResolveModelID(c, t).Go? ==> ResolveModelID(c, t).trail == t
  {
    hide UpdateStatus;
  }

  lemma AnnouncesIs(c: Context, st: Status, modelID: string)
    requires PassCalls.Acting(c, true) && ResolveModelID(c, Start(st)).Go?
        && ResolveModelID(c, Start(st)).value == modelID
    ensures Announces(c, st, true) <==> Reads(c) && Unanswered(c, st, modelID) && Pushable(c, st)
  {
    hide ResolveModelID;
  }

  lemma HoldsLeaves(c: Context, st0: Status, v: View, t: Trail)
    requires Holds(st0, v, t)
    requires v == ViewOf(st0) || (Reads(c) && v == FoundView(c, ViewOf(st0)) && c.replies.findBuilt.Ok?
                                  && c.replies.findBuilt.value.id != "")
    ensures Leaves(c, st0, ViewOf(LastStored(st0, t)), t.calls, false)
  {
    hide ViewOf;
  }

  /** What follows the source deployment leaves the push fields alone. */
  lemma AfterTruss(c: Context, st0: Status, t: Trail, modelID: string, source: string)
    requires var v := ViewOf(t.status);
      && Holds(st0, v, t) && source == v.name
      && (v == ViewOf(st0) || (Reads(c) && v == FoundView(c, ViewOf(st0)) && c.replies.findBuilt.Ok?
                               && c.replies.findBuilt.value.id != ""))
    ensures var end :=
        if modelID == "" then t
        else match ReconcileEnvironment(c, t, modelID)
             case Stop(t3, verdict) => Conclude(t3, verdict).0
             case Go(t3, env) => WithEnvironment(c, t3, modelID, source, env).0;
      Leaves(c, st0, ViewOf(LastStored(st0, end)), end.calls, false)
  {
    hide Holds, LastStored, ViewOf, ReconcileEnvironment, WithEnvironment, Conclude, Leaves;
    var v := ViewOf(t.status);
    if modelID == "" {
      HoldsLeaves(c, st0, v, t);
    } else {
      var step := ReconcileEnvironment(c, t, modelID);
      EnvironmentHolds(c, st0, v, t, modelID);
      if step.Stop? {
        ConcludeHolds(c, st0, v, step.trail, step.verdict);
        HoldsLeaves(c, st0, v, Conclude(step.trail, step.verdict).0);
      } else {
        WithEnvironmentHolds(c, st0, v, step.trail, modelID, step.value);
        HoldsLeaves(c, st0, v, WithEnvironment(c, step.trail, modelID, source, step.value).0);
      }
    }
  }

  /** The push fields any pass leaves stored under a configured truss: as they were, those of an
      existing deployment, those of an announcement that was kept or taken back, or cleared. */
  lemma PassLeaves(c: Context, st0: Status, finalizer: bool)
    requires c.spec.truss.Some?
    ensures var t := Reconcile(c, st0, finalizer).trail;
      Leaves(c, st0, ViewOf(LastStored(st0, t)), t.calls, Announces(c, st0, finalizer))
  {
    hide Holds, LastStored, ViewOf, ReconcileActive, Deletion, ReconcileObserve, UpdateStatus, ResolveModelID, Leaves;
    var t, v := Start(st0), ViewOf(st0);
    StartHolds(st0);
    if PassCalls.Acting(c, finalizer) {
      ActiveLeaves(c, st0);
    } else {
      UpdatesHold(c, st0, v);
      DeletionHolds(c, st0, v, t, finalizer);
      ObserveHolds(c, st0, v, t);
      HoldsLeaves(c, st0, v, Reconcile(c, st0, finalizer).trail);
    }
  }

  lemma PushIsAnnounced(c: Context, st: Status, finalizer: bool, name: string, createsModel: bool)
    requires Push(name, createsModel) in Reconcile(c, st, finalizer).trail.calls
    ensures Announces(c, st, finalizer) && c.replies.pushSlotFree && name == TrussName(c)
  {
    hide Reconcile, PassCalls.PushDue, UpdateStatus;
    PassCalls.EveryCallIsExplained(c, st, finalizer);
    SolePush(c, st, finalizer, Reconcile(c, st, finalizer).trail.calls, name, createsModel);
    DueIsAnnounced(c, st, finalizer, name, createsModel);
  }

  lemma SolePush(c: Context, st: Status, finalizer: bool, calls: seq<Call>, name: string, createsModel: bool)
    requires PassCalls.Explained(c, st, finalizer, calls) && Push(name, createsModel) in calls
    ensures PassCalls.Acting(c, finalizer) && PassCalls.PushDue(c, st, name, createsModel)
  {
    hide PassCalls.Located, PassCalls.PushDue, PassCalls.Acting, AnyPromotionDrift, BaselineDrift,
      ScheduleDrift, Idle, DeletionDue;
    if calls[0].Push? {
      assert calls == [Push(name, createsModel)];
    }
  }

  lemma DueIsAnnounced(c: Context, st: Status, finalizer: bool, name: string, createsModel: bool)
    requires PassCalls.Acting(c, finalizer) && PassCalls.PushDue(c, st, name, createsModel)
    ensures Announces(c, st, finalizer) && c.replies.pushSlotFree && name == TrussName(c)
  {
    hide UpdateStatus;
  }

  /** A push is launched exactly by an announcement that finds a free slot. */
  lemma PushesExactlyWhenAnnounced(c: Context, st: Status, finalizer: bool)
    ensures var calls := Reconcile(c, st, finalizer).trail.calls;
      (|calls| > 0 && calls[0].Push?) <==> Announces(c, st, finalizer) && c.replies.pushSlotFree
    ensures forall name, createsModel :: Push(name, createsModel) in Reconcile(c, st, finalizer).trail.calls ==>
      Reads(c) && name == TrussName(c) && |Reconcile(c, st, finalizer).trail.calls| == 1
  {
    hide Reconcile, Announces;
    var calls := Reconcile(c, st, finalizer).trail.calls;
    forall name, createsModel | Push(name, createsModel) in calls
      ensures Reads(c) && name == TrussName(c) && |calls| == 1 && Announces(c, st, finalizer) && c.replies.pushSlotFree
    {
      PushIsAnnounced(c, st, finalizer, name, createsModel);
      AnnouncesReads(c, st, finalizer);
      PassLeaves(c, st, finalizer);
    }
    if |calls| > 0 && calls[0].Push? {
      assert Push(calls[0].name, calls[0].createsModel) in calls;
    }
    if Announces(c, st, finalizer) {
      AnnouncesReads(c, st, finalizer);
      PassLeaves(c, st, finalizer);
    }
  }

  lemma AnnouncesReads(c: Context, st: Status, finalizer: bool)
    requires Announces(c, st, finalizer)
    ensures Reads(c)
  {
  }

  lemma {:induction false} NoPushNoCount(calls: seq<Call>)
    requires forall i :: 0 <= i < |calls| ==> !calls[i].Push?
    ensures PushCount(calls) == 0
  {
    if calls != [] {
      NoPushNoCount(calls[..|calls| - 1]);
    }
  }

  /** A pass launches one push when it announces one and is given a slot, and none otherwise. */
  lemma LaunchesWhatItAcquires(c: Context, st: Status, finalizer: bool)
    ensures PushCount(Reconcile(c, st, finalizer).trail.calls) ==
      if Announces(c, st, finalizer) && c.replies.pushSlotFree then 1 else 0
  {
    hide Reconcile, Announces;
    var calls := Reconcile(c, st, finalizer).trail.calls;
    PushesExactlyWhenAnnounced(c, st, finalizer);
    if i :| 0 <= i < |calls| && calls[i].Push? {
      assert Push(calls[i].name, calls[i].createsModel) in calls;
      assert calls[..0] == [];
    } else {
      NoPushNoCount(calls);
    }
  }
}
