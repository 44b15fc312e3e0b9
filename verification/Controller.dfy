/** The reconciler as it runs: one pass over one resource, its status assigned field by field and
    its calls made one after the other. Each method is proved to do what its function in `Steps`
    says. */
module Controller {
  import opened Types
  import opened Names
  import opened Drift
  import opened Schedules
  import opened Baseten
  import opened Cleanup
  import opened Model
  import opened StatusUpdates
  import opened Backoff
  import opened Steps
  import opened Sweeps
  import AsyncPush
  import PassCalls
  import PassPush
  import S = Steps
  import SU = StatusUpdates

  /** How a method that may end the pass compares with its function. */
  ghost predicate Ends<T>(step: Step<T>, t: Trail, value: T, stop: Option<Verdict>) {
    && t == step.trail
    && if step.Go? then stop.None? && value == step.value else stop == Some(step.verdict)
  }

  function Transition(had: Condition, c: Condition, now: Time): Time {
    if had.isTrue == c.isTrue then had.transition else now
  }

  lemma {:induction false} SetConditionAt(cs: seq<Condition>, c: Condition, now: Time, i: nat)
    requires i < |cs| && cs[i].kind == c.kind && forall j :: 0 <= j < i ==> cs[j].kind != c.kind
    ensures SU.SetCondition(cs, c, now) == cs[i := c.(transition := Transition(cs[i], c, now))]
  {
    if i > 0 {
      SetConditionAt(cs[1..], c, now, i - 1);
    }
  }

  lemma {:induction false} SetConditionEnd(cs: seq<Condition>, c: Condition, now: Time)
    requires forall j :: 0 <= j < |cs| ==> cs[j].kind != c.kind
    ensures SU.SetCondition(cs, c, now) == cs + [c.(transition := now)]
  {
    if cs != [] {
      SetConditionEnd(cs[1..], c, now);
    }
  }

  /* ---- cleanup and the rest of the pass ---- */

  lemma PlanKeeps(c: Context, c': Context, st: Status, st': Status, sweep: Sweep)
    requires SameButSweep(c', c) && st'.sourceDeploymentName == st.sourceDeploymentName
        && SweepFollowsPlan(c, st, sweep)
    ensures SweepFollowsPlan(c', st', sweep)
  {
    hide Orphans, Filter, DeletesByPlan, ProtectedIds;
  }

  ghost predicate SameButSweep(a: Context, b: Context) {
    a == b.(replies := b.replies.(sweep := a.replies.sweep))
  }

  lemma NoCleanup(c: Context, t: Trail)
    requires c.spec.cleanup.None?
    ensures S.OrphanCleanup(c, t) == t
  {
  }

  lemma UpdatesAlike(c: Context, c': Context)
    requires SameButSweep(c', c)
    ensures forall t, su: StatusUpdate :: S.UpdateStatus(c', t, su) == S.UpdateStatus(c, t, su)
  {
  }

  /** Nothing before the cleanup depends on what it will sweep. */
  lemma SweepComesLast(c: Context, c': Context, t: Trail, modelID: string, t1: Trail, t2: Trail)
    requires SameButSweep(c', c)
    ensures S.ResolveModelID(c', t) == S.ResolveModelID(c, t)
    ensures S.ResolveSource(c', t1, modelID) == S.ResolveSource(c, t1, modelID)
    ensures S.ReconcileEnvironment(c', t2, modelID) == S.ReconcileEnvironment(c, t2, modelID)
  {
    hide S.UpdateStatus, S.ResolveSource, S.ReconcileEnvironment;
    UpdatesAlike(c, c');
    SourcesAlike(c, c', t1, modelID);
    EnvironmentsAlike(c, c', t2, modelID);
  }

  lemma EnvironmentsAlike(c: Context, c': Context, t: Trail, modelID: string)
    requires SameButSweep(c', c)
    ensures S.ReconcileEnvironment(c', t, modelID) == S.ReconcileEnvironment(c, t, modelID)
  {
    hide S.UpdateStatus, BaselineDrift, AnyPromotionDrift, ScheduleDrift;
    UpdatesAlike(c, c');
  }

  lemma SourcesAlike(c: Context, c': Context, t: Trail, modelID: string)
    requires SameButSweep(c', c)
    ensures S.ResolveSource(c', t, modelID) == S.ResolveSource(c, t, modelID)
  {
    hide S.UpdateStatus, S.PushOrWait, DeploymentName;
    UpdatesAlike(c, c');
    PushesAlike(c, c', t, modelID);
  }

  lemma PushesAlike(c: Context, c': Context, t: Trail, modelID: string)
    requires SameButSweep(c', c)
    ensures c.spec.truss.Some? && c.replies.setupScript.Some? ==>
      S.PushOrWait(c', t, modelID, TrussHash(c), TrussName(c)) ==
          S.PushOrWait(c, t, modelID, TrussHash(c), TrussName(c))
  {
    hide S.UpdateStatus, S.StartPush, DeploymentName;
    UpdatesAlike(c, c');
    if c.spec.truss.Some? && c.replies.setupScript.Some? {
      LaunchesAlike(c, c', ReadyToPush(t, TrussName(c), c.replies.now), modelID, TrussHash(c), TrussName(c));
    }
  }

  lemma LaunchesAlike(c: Context, c': Context, t: Trail, modelID: string, configHash: string, name: string)
    requires SameButSweep(c', c)
    ensures S.StartPush(c', t, modelID, configHash, name) == S.StartPush(c, t, modelID, configHash, name)
  {
    hide S.UpdateStatus;
    UpdatesAlike(c, c');
  }

  lemma SweepKeepsLifecycle(c: Context, c': Context, t: Trail, finalizer: bool)
    requires SameButSweep(c', c)
    ensures S.Lifecycle(c', t, finalizer) == S.Lifecycle(c, t, finalizer)
  {
    hide S.UpdateStatus;
    UpdatesAlike(c, c');
  }

  lemma ReadySourceGoes(c: Context, t: Trail, modelID: string, source: string, env: Environment)
    requires c.replies.findSource.Ok? && c.replies.findSource.value.id != ""
    requires SourceReady(c.replies.findSource.value.status)
    ensures S.ValidateSource(c, t, modelID, source, env) == Go(t, c.replies.findSource.value.id)
  {
    hide S.UpdateStatus, S.TryRetry;
  }

  /* ---- slots taken and pushes launched ---- */

  /** The calls made while the source deployment is settled. */
  ghost function SourceCalls(c: Context, t: Trail): int {
    var resolved := S.ResolveModelID(c, t);
    if resolved.Stop? then 0
    else |S.ResolveSource(c, resolved.trail, resolved.value).trail.calls| - |resolved.trail.calls|
  }

  /** They are the pushes of the whole pass. */
  lemma SourceCallsArePushes(c: Context, st: Status)
    requires PassCalls.Acting(c, true)
    ensures SourceCalls(c, Start(st)) == PushCount(S.Reconcile(c, st, true).trail.calls)
  {
    hide S.UpdateStatus, S.ReconcileTruss, S.ReconcileEnvironment, S.WithEnvironment, PassCalls.PushDue,
        PassPush.Announces;
    var t := Start(st);
    var resolved := S.ResolveModelID(c, t);
    PassCalls.UpdatesCallNothing(c);
    if resolved.Go? {
      PassCalls.SourceCalls(c, t, resolved.value);
      var sourced := S.ResolveSource(c, t, resolved.value);
      if sourced.Go? {
        NoPushOnceSettled(c, st, resolved.value);
        PassPush.LaunchesWhatItAcquires(c, st, true);
      } else {
        OnePushCounts(sourced.trail.calls);
      }
    }
  }

  lemma OnePushCounts(calls: seq<Call>)
    requires calls == [] || (|calls| == 1 && calls[0].Push?)
    ensures PushCount(calls) == |calls|
  {
    if calls != [] {
      assert calls[..0] == [];
    }
  }

  /** With a source deployment settled, no push was announced. */
  lemma NoPushOnceSettled(c: Context, st: Status, modelID: string)
    requires S.ResolveModelID(c, Start(st)) == Go(Start(st), modelID) && S.ResolveSource(c, Start(st), modelID).Go?
    ensures !PassPush.Announces(c, st, true)
  {
    hide S.UpdateStatus, S.ReconcileTruss, S.ResolveModelID;
    if c.spec.truss.Some? {
      PassPush.TrussGoes(c, st, modelID);
    }
  }

  lemma SlotlessUnlessActing(c: Context, st: Status, finalizer: bool)
    requires !PassCalls.Acting(c, finalizer)
    ensures PushCount(S.Reconcile(c, st, finalizer).trail.calls) == 0
  {
    hide S.Reconcile;
    PassPush.LaunchesWhatItAcquires(c, st, finalizer);
  }

  /** What is swept says nothing about pushes. */
  lemma SweepKeepsPushes(c: Context, c': Context, st: Status)
    requires SameButSweep(c', c)
    ensures PushCount(S.Reconcile(c', st, true).trail.calls) == PushCount(S.Reconcile(c, st, true).trail.calls)
  {
    hide S.Reconcile, S.ResolveModelID;
    PassPush.LaunchesWhatItAcquires(c, st, true);
    PassPush.LaunchesWhatItAcquires(c', st, true);
    SweepComesLast(c, c', Start(st), "", Start(st), Start(st));
  }

  class Reconciler {
    /** The push slots all resources share. */
    const slots: AsyncPush.PushSlots
    /** The spec, and the answers this pass gets. */
    var context: Context
    var status: Status
    var finalizer: bool
    var calls: seq<Call>
    var writes: seq<Status>
    ghost var record: Option<nat>
    /** Whether orphan cleanup ran. */
    ghost var swept: bool

    constructor (slots: AsyncPush.PushSlots, context: Context, status: Status, finalizer: bool)
      ensures this.slots == slots && this.context == context && this.status == status && this.finalizer == finalizer
      ensures Trail() == Start(status) && !swept
    {
      this.slots, this.context, this.status, this.finalizer := slots, context, status, finalizer;
      calls, writes, record, swept := [], [], None, false;
    }

    ghost function Trail(): Trail
      reads this
    {
      S.Trail(status, calls, writes, record)
    }

    /** What the pass is told about the slots is how they are. */
    ghost predicate SlotsAgree()
      reads this, slots
    {
      slots.Valid() && (context.replies.pushSlotFree <==> slots.tokens < slots.capacity)
    }

    /** Hands the status to the API server. */
    method Write()
      modifies this`writes
      ensures Trail() == old(Trail()).Written()
    {
      writes := writes + [status];
    }

    method Call(call: Call)
      modifies this`calls
      ensures Trail() == old(Trail()).Called(call)
    {
      calls := calls + [call];
    }

    /* ---- status ---- */

    method SetCondition(condition: Condition)
      modifies this`status
      ensures status == old(status).(conditions :=
                                     SU.SetCondition(old(status).conditions, condition, context.replies.now))
    {
      var now := context.replies.now;
      var i := 0;
      while i < |status.conditions|
        invariant 0 <= i <= |status.conditions| && status == old(status)
        invariant forall j :: 0 <= j < i ==> status.conditions[j].kind != condition.kind
      {
        var had := status.conditions[i];
        if had.kind == condition.kind {
          SetConditionAt(status.conditions, condition, now, i);
          var transition := now;
          if had.isTrue == condition.isTrue {
            transition := had.transition;
          }
          status := status.(conditions := status.conditions[i := condition.(transition := transition)]);
          return;
        }
        i := i + 1;
      }
      SetConditionEnd(status.conditions, condition, now);
      status := status.(conditions := status.conditions + [condition.(transition := now)]);
    }

    method ConditionsChanged(reason: StatusCode, ready: bool, progressing: bool) returns (changed: bool)
      ensures changed == SU.ConditionsChanged(status.conditions, reason, ready, progressing)
    {
      for i := 0 to |status.conditions|
        invariant forall j :: 0 <= j < i ==> !Differs(status.conditions[j], reason, ready, progressing)
      {
        var c := status.conditions[i];
        match c.kind
        case Ready =>
          if c.isTrue != ready || c.reason != reason {
            return true;
          }
        case Progressing =>
          if c.isTrue != progressing || c.reason != reason {
            return true;
          }
        case _ =>
      }
      return false;
    }

    /** The fields an update assigns, conditions apart. */
    method Assign(su: StatusUpdate)
      modifies this`status
      ensures status == Updated(old(status), su, context.generation,
                                context.replies.now).(conditions := old(status).conditions)
    {
      hide SU.Conditions;
      status := status.(deploymentStatus := su.deploymentStatus, message := su.message);
      status := status.(activeReplicaCount := su.replicaCount);
      if su.modelID != "" {
        status := status.(modelID := su.modelID);
        status := status.(modelIDResolvedTime := Some(context.replies.now));
      }
      AssignNames(su);
      AssignCandidate(su);
      if su.deploymentStatus.Active? || su.deploymentStatus.ScaledToZero? {
        status := status.(firstFailureTime := None, retryCount := 0, nextRetryTime := None);
      } else if su.firstFailureTime.Some? {
        status := status.(firstFailureTime := su.firstFailureTime);
      }
    }

    method AssignNames(su: StatusUpdate)
      modifies this`status
      ensures status == old(status).(
        sourceDeploymentID := KeepOr(old(status).sourceDeploymentID, su.sourceDeploymentID),
        sourceDeploymentName := KeepOr(old(status).sourceDeploymentName, su.sourceDeploymentName),
        activeDeploymentName := KeepOr(old(status).activeDeploymentName, su.activeDeploymentName))
    {
      if su.sourceDeploymentID != "" {
        status := status.(sourceDeploymentID := su.sourceDeploymentID);
      }
      if su.sourceDeploymentName != "" {
        status := status.(sourceDeploymentName := su.sourceDeploymentName);
      }
      if su.activeDeploymentName != "" {
        status := status.(activeDeploymentName := su.activeDeploymentName);
      }
    }

    method AssignCandidate(su: StatusUpdate)
      modifies this`status
      ensures status == old(status).(
        candidateDeploymentID := if su.clearCandidate then ""
            else KeepOr(old(status).candidateDeploymentID, su.candidateDeploymentID),
        candidateDeploymentName := if su.clearCandidate then ""
            else KeepOr(old(status).candidateDeploymentName, su.candidateDeploymentName))
    {
      if su.clearCandidate {
        status := status.(candidateDeploymentID := "");
        status := status.(candidateDeploymentName := "");
      } else {
        if su.candidateDeploymentID != "" {
          status := status.(candidateDeploymentID := su.candidateDeploymentID);
        }
        if su.candidateDeploymentName != "" {
          status := status.(candidateDeploymentName := su.candidateDeploymentName);
        }
      }
    }

    method UpdateStatus(su: StatusUpdate) returns (skipped: bool)
      modifies this`status, this`writes
      ensures Trail() == S.UpdateStatus(context, old(Trail()), su)
      ensures skipped == Skipped(old(status), su, context.generation, context.replies.now)
    {
      var prev := status;
      Assign(su);
      var ready := su.deploymentStatus.Healthy();
      SetCondition(Condition(Ready, ready, 0, context.generation, su.deploymentStatus, su.message));
      var progressing := su.deploymentStatus.Progressing();
      SetCondition(Condition(Progressing, progressing, 0, context.generation, su.deploymentStatus, su.message));
      assert status == Updated(prev, su, context.generation, context.replies.now);
      var changed := ConditionsChanged(su.deploymentStatus, ready, progressing);
      skipped := SameSnapshot(status, prev) && !changed;
      if !skipped {
        writes := writes + [status];
      }
    }

    /** Ends a pass, forgetting the model ID on a 404. */
    method Conclude(v: Verdict) returns (end: Verdict)
      modifies this`status, this`writes
      ensures (Trail(), end) == S.Conclude(old(Trail()), v)
    {
      var invalidated := InvalidateModelID(v == Fail(Missing));
      end := if invalidated then Requeue(SECOND) else v;
    }

    method InvalidateModelID(missing: bool) returns (invalidated: bool)
      modifies this`status, this`writes
      ensures invalidated == (missing && old(status).modelID != "")
      ensures Trail() == if invalidated then Invalidate(old(Trail())) else old(Trail())
    {
      if !missing || status.modelID == "" {
        return false;
      }
      status := status.(modelID := "");
      writes := writes + [status];
      return true;
    }

    /* ---- deletion ---- */

    method ReleaseFinalizer() returns (end: Verdict)
      modifies this`finalizer
      ensures Outcome(Trail(), end, finalizer) == S.ReleaseFinalizer(context, Trail())
    {
      finalizer := false;
      var done := context.replies.metaWrite.MetaWritten? || context.replies.metaWrite.MetaNotFound?;
      end := if done then Quiet else Fail(OtherError);
    }

    /** The environments that stand in the way, by name; `None` when they could not be listed. */
    method CheckDeleteGuardrails() returns (blockers: Option<seq<string>>)
      ensures blockers.None? <==> context.replies.listEnvironments.Failure?
      ensures blockers == Some([]) <==> Idle(context.replies.listEnvironments)
    {
      var list := context.replies.listEnvironments;
      if list.NotFound? {
        return Some([]);
      }
      if list.Failure? {
        return None;
      }
      var names: seq<string> := [];
      for i := 0 to |list.value|
        invariant names == [] <==> forall j :: 0 <= j < i ==> !Blocking(list.value[j])
      {
        var env := list.value[i];
        var minReplica := 0;
        if env.autoscaling.Some? {
          minReplica := env.autoscaling.value.minReplica;
        }
        var activeReplica := 0;
        if env.current.Some? && env.current.value.replicas > activeReplica {
          activeReplica := env.current.value.replicas;
        }
        if env.candidate.Some? && env.candidate.value.replicas > activeReplica {
          activeReplica := env.candidate.value.replicas;
        }
        if minReplica > 0 || activeReplica > 0 {
          names := names + [env.name];
        }
      }
      assert forall j :: 0 <= j < |list.value| ==> list.value[j] in list.value;
      return Some(names);
    }

    method ReconcileDeletion() returns (end: Verdict)
      modifies this`status, this`writes, this`calls, this`finalizer
      ensures Outcome(Trail(), end, finalizer) == Deletion(context, old(Trail()), old(finalizer))
    {
      if !finalizer {
        return Quiet;
      }
      var policy := context.spec.deletionPolicy;
      if !context.spec.EffectiveMode().ReconcileMode? || !policy.Deletes() {
        end := ReleaseFinalizer();
        return;
      }
      var modelID := status.modelID;
      if modelID == "" {
        end := ReleaseFinalizer();
        return;
      }
      if policy.DeleteWithGuardrails? {
        var blockers := CheckDeleteGuardrails();
        if blockers.None? {
          var _ := UpdateStatus(Update(DeleteBlocked, Say("deletion blocked: failed to list environments"), modelID));
          return Requeue(30 * SECOND);
        }
        if |blockers.value| > 0 {
          var _ := UpdateStatus(Update(DeleteBlocked, Say("deletion blocked: not idle"), modelID));
          return Requeue(30 * SECOND);
        }
      }
      var _ := UpdateStatus(Update(Deleting, Say("deleting model"), modelID));
      Call(DeleteModel(modelID));
      if context.replies.deleteModel.Failure? {
        var _ := UpdateStatus(Update(DeleteFailed, Say("failed to delete model"), modelID));
        return Requeue(30 * SECOND);
      }
      end := ReleaseFinalizer();
    }

    /* ---- pause and observe ---- */

    method ReconcilePaused()
      modifies this`status, this`writes
      ensures Trail() == S.ReconcilePaused(context, old(Trail()))
    {
      hide S.UpdateStatus;
      var message := status.message;
      if !message.PausedOver? {
        message := PausedOver(status.message);
      }
      var _ := UpdateStatus(Update(Paused, message, ""));
    }

    method ReconcileObserve() returns (end: Verdict)
      modifies this`status, this`writes
      ensures (Trail(), end) == S.ReconcileObserve(context, old(Trail()))
    {
      hide S.UpdateStatus, ObservedUpdate, ObservedDrift;
      var modelID := status.modelID;
      if modelID == "" {
        if !context.replies.findModel.Ok? {
          var _ := UpdateStatus(Update(Failed, Say("failed to lookup model"), ""));
          return Requeue(30 * SECOND);
        }
        modelID := context.replies.findModel.value;
      }
      if modelID == "" {
        var _ := UpdateStatus(Update(Failed, Say("model not found; not created"), ""));
        return Requeue(30 * SECOND);
      }
      var source := ExpectedSource(context);
      if source.None? {
        var _ := UpdateStatus(Update(Failed, Say("no expected source"), modelID));
        return Requeue(30 * SECOND);
      }
      match context.replies.environment {
        case NotFound =>
          var _ := UpdateStatus(Update(Failed, Say("environment does not exist"), modelID));
          return Requeue(30 * SECOND);
        case Failure =>
          return Fail(OtherError);
        case Ok(env) =>
          var su := ComposeObserveStatus(env, source.value, modelID);
          var skipped := UpdateStatus(su);
          if !skipped && !context.replies.observedWritten {
            return Fail(OtherError);
          }
          return Requeue(30 * SECOND);
      }
    }

    method ComposeObserveStatus(env: Environment, source: string, modelID: string) returns (su: StatusUpdate)
      ensures su == ObservedUpdate(env, source, modelID, ObservedDrift(context, env))
    {
      hide BaselineDrift, AnyPromotionDrift, ScheduleDrift;
      var drift := false;
      if env.current.Some? && MatchesPrefix(env.current.value.name, source) {
        var autoscalingDrift := BaselineAutoscalingDrift(env);
        var promotionDrift, _ := HasPromotionSettingsDrift(context.spec.environment.promotion, env.promotion);
        var scheduleDrift := HasScheduleDrift(env);
        if context.spec.environment.schedule.Some? && env.schedulesUnreadable {
          scheduleDrift := true;
        }
        drift := autoscalingDrift || promotionDrift || scheduleDrift;
      }
      su := ObservedUpdate(env, source, modelID, drift);
    }

    /* ---- deployment retries ---- */

    method ScheduleNextRetry()
      modifies this`status, this`writes, this`record
      ensures Trail() == S.ScheduleNextRetry(context, old(Trail()))
    {
      record := Some(|writes|);
      status := status.(retryCount := status.retryCount + 1);
      var backoff := RetryBackoff(status.retryCount, context.replies.jitter);
      status := status.(nextRetryTime := Some(context.replies.retryTimes.scheduled + backoff));
      Write();
    }

    method NoteFirstFailure() returns (firstFailure: Time)
      modifies this`status, this`writes
      ensures Trail() == S.NoteFirstFailure(context, old(Trail())) && status.firstFailureTime == Some(firstFailure)
    {
      if status.firstFailureTime.None? {
        status := status.(firstFailureTime := Some(context.replies.retryTimes.detected));
        Write();
      }
      return status.firstFailureTime.value;
    }

    /** `exhausted` when retries are over and the caller has to report the failure. */
    method TryRetryDeployment(modelID: string, id: string, failed: StatusCode) returns (exhausted: bool, end: Verdict)
      modifies this`status, this`writes, this`record, this`calls
      ensures var stop := if exhausted then None else Some(end);
        Ends(S.TryRetry(context, old(Trail()), modelID, id, failed), Trail(), (), stop)
    {
      hide S.UpdateStatus, S.ScheduleNextRetry, S.NoteFirstFailure, FreshStatus;
      var times := context.replies.retryTimes;
      var firstFailure := NoteFirstFailure();
      if times.checked - firstFailure > DEPLOYMENT_RETRY_DEADLINE {
        return true, Quiet;
      }
      if status.nextRetryTime.Some? && times.compared < status.nextRetryTime.value {
        return false, Requeue(status.nextRetryTime.value - times.compared);
      }
      var currentStatus := CurrentStatus(failed);
      if !currentStatus.RetryableFailure() {
        return false, Requeue(30 * SECOND);
      }
      MakeRetry(modelID, id);
      return false, Requeue(30 * SECOND);
    }

    /** Another resource may have retried this deployment already. */
    method CurrentStatus(failed: StatusCode) returns (currentStatus: StatusCode)
      ensures currentStatus == FreshStatus(context, failed)
    {
      currentStatus := failed;
      if context.replies.findFresh.Ok? && context.replies.findFresh.value.status != Blank {
        currentStatus := context.replies.findFresh.value.status;
      }
    }

    /** The retry itself; the next one is scheduled whether it succeeded, was declined, or failed. */
    method MakeRetry(modelID: string, id: string)
      modifies this`status, this`writes, this`record, this`calls
      ensures var t := S.ScheduleNextRetry(context, old(Trail()).Called(RetryDeployment(id)));
        Trail() == if context.replies.retry.Ok? && context.replies.retry.value.retried
                   then S.UpdateStatus(context, t, Update(Building, Say("retrying deployment"), modelID)) else t
    {
      hide S.UpdateStatus, S.ScheduleNextRetry;
      Call(RetryDeployment(id));
      if !context.replies.retry.Ok? {
        ScheduleNextRetry();
        return;
      }
      if !context.replies.retry.value.retried {
        ScheduleNextRetry();
        return;
      }
      ScheduleNextRetry();
      var _ := UpdateStatus(Update(Building, Say("retrying deployment"), modelID));
    }

    /* ---- model ID and source deployment ---- */

    method ResolveModelID() returns (modelID: string, stop: Option<Verdict>)
      modifies this`status, this`writes
      ensures Ends(S.ResolveModelID(context, old(Trail())), Trail(), modelID, stop)
    {
      hide S.UpdateStatus;
      if status.modelID != "" {
        return status.modelID, None;
      }
      if !context.replies.findModel.Ok? {
        var _ := UpdateStatus(Update(Failed, Say("failed to lookup model"), ""));
        return "", Some(Fail(ErrorOf(context.replies.findModel)));
      }
      modelID := context.replies.findModel.value;
      if modelID == "" {
        if context.spec.deletionPolicy.Deletes() && status.modelIDResolvedTime.Some? {
          var _ := UpdateStatus(Update(Failed, Say("model missing; policy blocks recreation"), ""));
          return "", Some(Requeue(5 * MINUTE));
        }
        if context.spec.truss.Some? {
          return "", None;
        }
        var _ := UpdateStatus(Update(Failed, Say("model not found"), ""));
        return "", Some(Fail(OtherError));
      }
      return modelID, None;
    }

    method ClearPushFailure()
      modifies this`status
      ensures status == S.ClearPushFailure(old(status))
    {
      status := status.(pushFailureCount := 0);
      status := status.(pushNextRetryTime := None);
      status := status.(pushLastError := "");
    }

    method ReconcileTrussDeployment(modelID: string) returns (name: string, stop: Option<Verdict>)
      requires context.spec.truss.Some?
      requires SlotsAgree()
      modifies this`status, this`writes, this`calls, slots
      ensures Ends(S.ReconcileTruss(context, old(Trail()), modelID), Trail(), name, stop)
      ensures slots.Valid() && slots.tokens - old(slots.tokens) == |calls| - |old(calls)|
    {
      hide S.UpdateStatus, S.PushOrWait, DeploymentName;
      if context.replies.setupScript.None? {
        var _ := UpdateStatus(Update(Failed, Say("truss push failed"), modelID));
        return "", Some(Fail(OtherError));
      }
      var configHash := TrussHash(context);
      var deploymentName := TrussName(context);
      if modelID != "" {
        if status.trussConfigHash == configHash && status.pushStatus.PushDone? {
          return status.sourceDeploymentName, None;
        }
        if !context.replies.findBuilt.Ok? {
          var _ := UpdateStatus(Update(Pending, Say("unable to check deployment"), modelID));
          return "", Some(Fail(ErrorOf(context.replies.findBuilt)));
        }
        if context.replies.findBuilt.value.id != "" {
          status := status.(trussConfigHash := configHash);
          status := status.(sourceDeploymentName := deploymentName);
          status := status.(pushStatus := PushDone);
          ClearPushFailure();
          Write();
          return deploymentName, None;
        }
      }
      var end := PushOrWait(modelID, configHash, deploymentName);
      return "", Some(end);
    }

    /** The part of the above that follows when no deployment answers for the configuration. */
    method PushOrWait(modelID: string, configHash: string, deploymentName: string) returns (end: Verdict)
      requires SlotsAgree()
      modifies this`status, this`writes, this`calls, slots
      ensures (Trail(), end) == S.PushOrWait(context, old(Trail()), modelID, configHash, deploymentName)
      ensures slots.Valid() && slots.tokens - old(slots.tokens) == |calls| - |old(calls)|
    {
      hide S.UpdateStatus, S.StartPush;
      var now := context.replies.now;
      if status.pushStatus.Pushing? && status.sourceDeploymentName == deploymentName {
        if status.pushTime.Some? && now - status.pushTime.value > PUSH_STALE_TIMEOUT {
          status := status.(pushStatus := NoPush);
          status := status.(pushTime := None);
          Write();
        } else {
          var _ := UpdateStatus(Update(Deploying, Say("truss push in progress"), modelID));
          return Requeue(10 * SECOND);
        }
      }
      if status.pushStatus.PushFailed? {
        if status.sourceDeploymentName != deploymentName {
          ClearPushFailure();
        } else if status.pushNextRetryTime.Some? && now < status.pushNextRetryTime.value {
          var next := status.pushNextRetryTime.value;
          var _ := UpdateStatus(Update(Failed, Say("truss push failed"), modelID));
          return Requeue(next - now);
        }
      }
      if !context.replies.configGenerates {
        var _ := UpdateStatus(Update(Failed, Say("truss push failed"), modelID));
        return Fail(OtherError);
      }
      end := StartPush(modelID, configHash, deploymentName);
    }

    method StartPush(modelID: string, configHash: string, deploymentName: string) returns (end: Verdict)
      requires SlotsAgree()
      modifies this`status, this`writes, this`calls, slots
      ensures (Trail(), end) == S.StartPush(context, old(Trail()), modelID, configHash, deploymentName)
      ensures slots.Valid() && slots.tokens - old(slots.tokens) == |calls| - |old(calls)|
    {
      hide S.UpdateStatus;
      status := status.(trussConfigHash := configHash);
      status := status.(sourceDeploymentName := deploymentName);
      status := status.(pushStatus := Pushing);
      status := status.(pushTime := Some(context.replies.now));
      Write();
      var acquired := slots.TryAcquire();
      if !acquired {
        status := status.(pushStatus := NoPush);
        status := status.(sourceDeploymentName := "");
        Write();
        var _ := UpdateStatus(Update(Pending, Say("waiting for push capacity"), modelID));
        return Requeue(10 * SECOND);
      }
      Call(Push(deploymentName, modelID == ""));
      var _ := UpdateStatus(Update(Deploying, Say("truss push started"), modelID));
      return Requeue(10 * SECOND);
    }

    method ResolveSourceDeployment(modelID: string) returns (name: string, stop: Option<Verdict>)
      requires SlotsAgree()
      modifies this`status, this`writes, this`calls, slots
      ensures Ends(S.ResolveSource(context, old(Trail()), modelID), Trail(), name, stop)
      ensures slots.Valid() && slots.tokens - old(slots.tokens) == |calls| - |old(calls)|
    {
      hide S.ReconcileTruss;
      if context.spec.truss.Some? {
        name, stop := ReconcileTrussDeployment(modelID);
        return;
      }
      return context.spec.sourceDeploymentName, None;
    }

    /* ---- environment ---- */

    method BaselineAutoscalingDrift(env: Environment) returns (drift: bool)
      ensures drift == BaselineDrift(context.spec.environment, env)
    {
      if context.spec.environment.schedule.Some? && ScheduleActive(env.schedules) {
        return false;
      }
      var changes;
      drift, changes := HasAutoscalingDrift(context.spec.environment.autoscaling, env.autoscaling);
    }

    method HasScheduleDrift(env: Environment) returns (drift: bool)
      ensures drift == ScheduleDrift(context.spec.environment, env, context.replies.now)
    {
      var spec, now := context.spec.environment.schedule, context.replies.now;
      var d := DiffSchedules(spec, env.schedules, now);
      if spec.Some? {
        DiffEmptyIffInSync(spec.value, OrNone(env.schedules), now, d);
      }
      drift := d.changes > 0;
    }

    method ReconcileEnvironment(modelID: string) returns (env: Option<Environment>, stop: Option<Verdict>)
      modifies this`status, this`writes, this`calls
      ensures var step := S.ReconcileEnvironment(context, old(Trail()), modelID);
        && Trail() == step.trail
        && if step.Go? then stop.None? && env == Some(step.value) else stop == Some(step.verdict) && env.None?
    {
      hide S.UpdateStatus, BaselineDrift, AnyPromotionDrift, ScheduleDrift, S.PatchSettings;
      env := None;
      match context.replies.environment {
        case NotFound =>
          Call(CreateEnvironment);
          if !context.replies.createEnvironment.Ok? {
            var _ := UpdateStatus(Update(Failed, Say("failed to create environment"), modelID));
            stop := Some(Fail(ErrorOf(context.replies.createEnvironment)));
            return;
          }
          var _ := UpdateStatus(Update(Pending, Say("created environment"), modelID));
          stop := Some(Requeue(10 * SECOND));
        case Failure =>
          var _ := UpdateStatus(Update(Failed, Say("failed to get environment"), modelID));
          stop := Some(Fail(OtherError));
        case Ok(found) =>
          if context.spec.environment.schedule.Some? && found.schedulesUnreadable {
            var _ := UpdateStatus(Update(Failed, Say("failed to read autoscaling schedules"), modelID));
            stop := Some(Fail(OtherError));
            return;
          }
          var autoscalingDrift := BaselineAutoscalingDrift(found);
          var promotionDrift, _ := HasPromotionSettingsDrift(context.spec.environment.promotion, found.promotion);
          var scheduleDrift := HasScheduleDrift(found);
          if autoscalingDrift || promotionDrift || scheduleDrift {
            var end := PatchSettings(modelID, found, autoscalingDrift, promotionDrift, scheduleDrift);
            stop := Some(end);
            return;
          }
          env, stop := Some(found), None;
      }
    }

    method PatchSettings(modelID: string, env: Environment, autoscalingDrift: bool, promotionDrift: bool,
                         scheduleDrift: bool)
        returns (end: Verdict)
      requires autoscalingDrift == BaselineDrift(context.spec.environment, env)
      requires promotionDrift == AnyPromotionDrift(context.spec.environment.promotion, env.promotion)
      requires scheduleDrift == ScheduleDrift(context.spec.environment, env, context.replies.now)
      modifies this`status, this`writes, this`calls
      ensures (Trail(), end) == S.PatchSettings(context, old(Trail()), modelID, env)
    {
      hide S.UpdateStatus, BaselineDrift, AnyPromotionDrift, ScheduleDrift;
      if autoscalingDrift || promotionDrift {
        Call(UpdateSettings(autoscalingDrift, promotionDrift));
        if !context.replies.updateSettings.Ok? {
          var _ := UpdateStatus(Update(Failed, Note("failed to update settings", env.current, None), modelID));
          return Fail(ErrorOf(context.replies.updateSettings));
        }
      }
      if scheduleDrift {
        Call(UpdateSchedules);
        if !context.replies.updateSchedules.Ok? {
          var _ := UpdateStatus(Update(Failed, Note("failed to update autoscaling schedules", env.current, None),
                                       modelID));
          return Fail(ErrorOf(context.replies.updateSchedules));
        }
      }
      var _ := UpdateStatus(Update(Pending, Note("updating settings", env.current, None), modelID));
      return Requeue(10 * SECOND);
    }

    /* ---- promotion ---- */

    method Reactivate(modelID: string, env: Environment) returns (end: Verdict)
      requires env.current.Some?
      modifies this`status, this`writes, this`calls
      ensures (Trail(), end) == S.Reactivate(context, old(Trail()), modelID, env)
    {
      hide S.UpdateStatus;
      Call(Activate(env.current.value.id));
      if !context.replies.activateCurrent.Ok? {
        var _ := UpdateStatus(CurrentUpdate(env, Failed, "failed to reactivate", modelID));
        var invalidated := InvalidateModelID(context.replies.activateCurrent.NotFound?);
        if invalidated {
          return Requeue(SECOND);
        }
        return Requeue(30 * SECOND);
      }
      var _ := UpdateStatus(CurrentUpdate(env, Activating, "reactivating", modelID));
      return Requeue(30 * SECOND);
    }

    method HandleCandidateFailure(modelID: string, env: Environment, su: StatusUpdate) returns (end: Verdict)
      requires env.candidate.Some? && su == PromotionUpdate(context, Trail(), modelID, env)
      modifies this`status, this`writes, this`calls, this`record
      ensures (Trail(), end) == S.HandleCandidateFailure(context, old(Trail()), modelID, env)
    {
      hide S.UpdateStatus, S.TryRetry;
      var candidate := env.candidate.value;
      if candidate.status.RetryableFailure() {
        var candidateID := candidate.id;
        if candidateID == "" {
          candidateID := status.candidateDeploymentID;
        }
        if candidateID != "" {
          var exhausted;
          exhausted, end := TryRetryDeployment(modelID, candidateID, candidate.status);
          if !exhausted {
            return;
          }
        }
        var _ := UpdateStatus(su);
        return GiveUp;
      }
      var _ := UpdateStatus(su.(deploymentStatus := candidate.status,
                                message := Note("candidate failed", env.current, env.candidate)));
      return Fail(OtherError);
    }

    method PromotionInProgress(modelID: string, env: Environment) returns (end: Verdict)
      requires env.candidate.Some?
      modifies this`status, this`writes, this`calls, this`record
      ensures (Trail(), end) == S.PromotionInProgress(context, old(Trail()), modelID, env)
    {
      hide S.UpdateStatus, S.HandleCandidateFailure;
      var su := PromotionUpdate(context, S.Trail(status, calls, writes, None), modelID, env);
      if env.candidate.value.status.TerminalFailure() {
        end := HandleCandidateFailure(modelID, env, su);
        return;
      }
      var _ := UpdateStatus(su);
      return Requeue(30 * SECOND);
    }

    method CheckDoublePromoteGuard(env: Environment, modelID: string, source: string) returns (stop: Option<Verdict>)
      modifies this`status, this`writes
      ensures Ends(S.DoublePromoteGuard(context, old(Trail()), env, modelID, source), Trail(), (), stop)
    {
      hide S.UpdateStatus;
      if status.candidateDeploymentID != "" {
        if env.candidate.None? || !MatchesPrefix(env.candidate.value.name, source) {
          status := status.(candidateDeploymentID := "");
          status := status.(candidateDeploymentName := "");
        }
      }
      if status.candidateDeploymentID == "" && env.candidate.None? {
        return None;
      }
      var note := Note("waiting for existing promotion before " + source, env.current, env.candidate);
      var _ := UpdateStatus(Update(Promoting, note, modelID)
                              .(candidateDeploymentID := status.candidateDeploymentID,
                                candidateDeploymentName := NameOf(env.candidate),
                                activeDeploymentName := NameOf(env.current)));
      return Some(Requeue(30 * SECOND));
    }

    method ValidateSourceDeployment(modelID: string, source: string, env: Environment)
        returns (id: string, stop: Option<Verdict>)
      modifies this`status, this`writes, this`calls, this`record
      ensures Ends(S.ValidateSource(context, old(Trail()), modelID, source, env), Trail(), id, stop)
    {
      hide S.ValidateSource;
      if !context.replies.findSource.Ok? || context.replies.findSource.value.id == "" {
        var end := MissSource(modelID, source, env);
        return "", Some(end);
      }
      var found := context.replies.findSource.value;
      match found.status
      case Failed | DeployFailed | BuildFailed =>
        var end := RetrySource(modelID, source, env);
        return "", Some(end);
      case Inactive =>
        var end := ActivateSource(modelID, source, env);
        return "", Some(end);
      case Active | ScaledToZero =>
        ReadySourceGoes(context, Trail(), modelID, source, env);
        return found.id, None;
      case _ =>
        var end := AwaitSource(modelID, source, env);
        return "", Some(end);
    }

    method AwaitSource(modelID: string, source: string, env: Environment) returns (end: Verdict)
      requires context.replies.findSource.Ok? && context.replies.findSource.value.id != ""
      requires var code := context.replies.findSource.value.status;
        !code.RetryableFailure() && !code.Inactive? && !SourceReady(code)
      modifies this`status, this`writes
      ensures S.ValidateSource(context, old(Trail()), modelID, source, env) == Stop(Trail(), end)
    {
      hide S.UpdateStatus, S.TryRetry;
      var code := context.replies.findSource.value.status;
      var _ := UpdateStatus(SourceUpdate(env, code, "waiting to promote " + source, modelID));
      return Requeue(30 * SECOND);
    }

    /** The lookup failed, or found nothing. */
    method MissSource(modelID: string, source: string, env: Environment) returns (end: Verdict)
      requires !context.replies.findSource.Ok? || context.replies.findSource.value.id == ""
      modifies this`status, this`writes
      ensures S.ValidateSource(context, old(Trail()), modelID, source, env) == Stop(Trail(), end)
    {
      hide S.UpdateStatus, S.TryRetry;
      var _ := UpdateStatus(SourceUpdate(env, Failed, "unable to promote: not found " + source, modelID));
      if !context.replies.findSource.Ok? {
        return Fail(ErrorOf(context.replies.findSource));
      }
      return Fail(OtherError);
    }

    method RetrySource(modelID: string, source: string, env: Environment) returns (end: Verdict)
      requires context.replies.findSource.Ok? && context.replies.findSource.value.id != ""
      requires context.replies.findSource.value.status.RetryableFailure()
      modifies this`status, this`writes, this`calls, this`record
      ensures S.ValidateSource(context, old(Trail()), modelID, source, env) == Stop(Trail(), end)
    {
      hide S.UpdateStatus, S.TryRetry;
      var found := context.replies.findSource.value;
      var exhausted;
      exhausted, end := TryRetryDeployment(modelID, found.id, found.status);
      if !exhausted {
        return;
      }
      var _ := UpdateStatus(SourceUpdate(env, found.status, "unable to promote: retries exhausted " + source, modelID));
      return GiveUp;
    }

    method ActivateSource(modelID: string, source: string, env: Environment) returns (end: Verdict)
      requires context.replies.findSource.Ok? && context.replies.findSource.value.id != ""
      requires context.replies.findSource.value.status.Inactive?
      modifies this`status, this`writes, this`calls
      ensures S.ValidateSource(context, old(Trail()), modelID, source, env) == Stop(Trail(), end)
    {
      hide S.UpdateStatus, S.TryRetry;
      Call(Activate(context.replies.findSource.value.id));
      if !context.replies.activateSource.Ok? {
        var _ := UpdateStatus(SourceUpdate(env, Failed, "unable to promote: failed to activate " + source, modelID));
        return Requeue(30 * SECOND);
      }
      var _ := UpdateStatus(SourceUpdate(env, Activating, "waiting to promote " + source, modelID));
      return Requeue(30 * SECOND);
    }

    method PromoteSource(modelID: string, source: string, sourceID: string, env: Environment) returns (end: Verdict)
      modifies this`status, this`writes, this`calls
      ensures (Trail(), end) == S.PromoteSource(context, old(Trail()), modelID, source, sourceID, env)
    {
      hide S.UpdateStatus, Skipped, S.Conclude;
      var su := SourceUpdate(env, PromotingDeployment, "promoting " + source, modelID)
        .(sourceDeploymentID := sourceID, sourceDeploymentName := source);
      var _ := UpdateStatus(su);
      Call(Promote(sourceID));
      if !context.replies.promote.Ok? {
        var _ := UpdateStatus(su.(deploymentStatus := Failed,
                                  message := Note("promotion failed " + source, env.current, None)));
        end := Conclude(Fail(ErrorOf(context.replies.promote)));
        return;
      }
      var target := context.replies.promote.value;
      var promoted := su.(deploymentStatus := Promoting,
                          message := Note("promoted " + source, env.current, Some(target)),
                          candidateDeploymentID := target.id, candidateDeploymentName := target.name,
                          replicaCount := target.replicas, activeDeploymentName := NameOf(env.current));
      var skipped := UpdateStatus(promoted);
      if !skipped && !context.replies.promotedWritten {
        return Fail(OtherError);
      }
      return Requeue(30 * SECOND);
    }

    method PromoteWhenReady(modelID: string, source: string, env: Environment) returns (end: Verdict)
      modifies this`status, this`writes, this`calls, this`record
      ensures (Trail(), end) == S.PromoteWhenReady(context, old(Trail()), modelID, source, env)
    {
      hide S.DoublePromoteGuard, S.ValidateSource, S.PromoteSource, S.Conclude;
      var stop := CheckDoublePromoteGuard(env, modelID, source);
      if stop.Some? {
        return stop.value;
      }
      var sourceID;
      sourceID, stop := ValidateSourceDeployment(modelID, source, env);
      if stop.Some? {
        end := Conclude(stop.value);
        return;
      }
      end := PromoteSource(modelID, source, sourceID, env);
    }

    /* ---- orphan cleanup ---- */

    /** The source whose deployments cleanup treats as variants. */
    method CleanupSource() returns (source: string)
      ensures source == SourceOfCleanup(context, status)
    {
      source := context.spec.sourceDeploymentName;
      if source == "" {
        source := status.sourceDeploymentName;
      }
    }

    /** Records in the context what was swept, since the listings alone do not determine it. */
    method ReconcileOrphanCleanup()
      requires context.spec.cleanup.Some? && MinToKeepAllowed(context)
      modifies this`status, this`writes, this`calls, this`context, this`swept
      ensures SameButSweep(context, old(context))
      ensures Trail() == S.OrphanCleanup(context, old(Trail()))
      ensures if swept then SweepFollowsPlan(context, status, context.replies.sweep) else context == old(context)
    {
      swept := false;
      hide SweepFollowsPlan, CleanupCalls;
      ghost var c, st := context, status;
      var cleanup, now := context.spec.cleanup.value, context.replies.now;
      if cleanup.intervalMinutes.None? {
        return;
      }
      if status.lastCleanupTime.Some? && now - status.lastCleanupTime.value < cleanup.intervalMinutes.value * MINUTE {
        return;
      }
      var scaleIn := cleanup.scaleToZero.Some? && cleanup.scaleToZero.value;
      var deleteStale := cleanup.delete.Some? && cleanup.delete.value;
      if !scaleIn && !deleteStale {
        return;
      }
      if !context.replies.listDeployments.Ok? || !context.replies.listEnvironments.Ok? {
        return;
      }
      var sweep := SweepOrphans(scaleIn, deleteStale);
      RecordSweep(sweep);
      PlanKeeps(c, context, st, status, sweep);
    }

    method RecordSweep(sweep: Sweep)
      modifies this`status, this`writes, this`calls, this`context, this`swept
      ensures swept && context == old(context).(replies := old(context).replies.(sweep := sweep))
      ensures status == old(status).(lastCleanupTime := Some(context.replies.now))
      ensures Trail() == old(Trail()).(calls := old(calls) + CleanupCalls(sweep), status := status).Written()
    {
      hide CleanupCalls;
      context := context.(replies := context.replies.(sweep := sweep));
      swept := true;
      calls := calls + CleanupCalls(sweep);
      status := status.(lastCleanupTime := Some(context.replies.now));
      Write();
    }

    method SweepOrphans(scaleIn: bool, deleteStale: bool) returns (sweep: Sweep)
      requires context.spec.cleanup.Some? && MinToKeepAllowed(context)
      requires context.replies.listDeployments.Ok? && context.replies.listEnvironments.Ok?
      requires scaleIn == (context.spec.cleanup.value.scaleToZero == Some(true))
      requires deleteStale == (context.spec.cleanup.value.delete == Some(true))
      ensures SweepFollowsPlan(context, status, sweep)
    {
      hide Orphans, Filter, DeletesByPlan, ProtectedIds;
      var cleanup := context.spec.cleanup.value;
      var source := CleanupSource();
      var orphans := FindOrphanDeployments(context.replies.listDeployments.value,
                                           context.replies.listEnvironments.value, source);
      var scaledIn: seq<string>, deleted: seq<string> := [], [];
      if scaleIn {
        var asked, done := ScaleInOrphans(orphans, context.orphanCalls);
        scaledIn := Ids(asked);
      }
      if deleteStale {
        deleted := SweepStale(orphans, cleanup.deleteAfterDays, cleanup.minToKeep, source);
      }
      sweep := Sweep(scaledIn, deleted);
    }

    method SweepStale(orphans: seq<Detail>, deleteAfterDays: Option<int>, minToKeep: Option<int>, source: string)
        returns (deleted: seq<string>)
      requires minToKeep.Some? ==> minToKeep.value >= 0
      ensures if deleteAfterDays.Some? && minToKeep.Some?
              then DeletesByPlan(orphans, minToKeep.value, source, context.replies.now - deleteAfterDays.value * DAY,
                                 deleted)
              else deleted == []
    {
      hide DeletePlan;
      var sorted := new Detail[|orphans|](i requires 0 <= i < |orphans| => orphans[i]);
      assert sorted[..] == orphans;
      var asked, done := DeleteStaleOrphans(sorted, deleteAfterDays, minToKeep, source, context.replies.now,
                                            context.orphanCalls);
      deleted := Ids(asked);
      assert multiset(sorted[..]) == multiset(orphans);
    }

    /* ---- the whole pass ---- */

    method SteadyState(modelID: string, env: Environment) returns (end: Verdict)
      requires env.current.Some? && MinToKeepAllowed(context) && !swept
      modifies this`status, this`writes, this`calls, this`context, this`swept
      ensures SameButSweep(context, old(context))
      ensures (Trail(), end) == S.SteadyState(context, old(Trail()), modelID, env)
      ensures if swept then SweepFollowsPlan(context, status, context.replies.sweep) else context == old(context)
    {
      hide S.OrphanCleanup, SweepFollowsPlan, Updated, Skipped;
      var su := CurrentUpdate(env, env.current.value.status, "active", modelID);
      if status.candidateDeploymentID != "" || status.candidateDeploymentName != "" {
        su := su.(clearCandidate := true);
      }
      var skipped := UpdateStatus(su);
      if !skipped && !context.replies.steadyWritten {
        return Fail(OtherError);
      }
      if context.spec.cleanup.Some? {
        ReconcileOrphanCleanup();
      } else {
        assert S.OrphanCleanup(context, Trail()) == Trail() by { NoCleanup(context, Trail()); }
      }
      return Requeue(5 * MINUTE);
    }

    method ReconcileActive() returns (end: Verdict)
      requires MinToKeepAllowed(context) && !swept
      requires SlotsAgree()
      modifies this`status, this`writes, this`calls, this`record, this`context, this`swept, slots
      ensures SameButSweep(context, old(context))
      ensures (Trail(), end) == S.ReconcileActive(context, old(Trail()))
      ensures if swept then SweepFollowsPlan(context, status, context.replies.sweep) else context == old(context)
      ensures slots.Valid() && slots.tokens == old(slots.tokens) + SourceCalls(old(context), old(Trail()))
    {
      hide S.ResolveModelID, S.ResolveSource, S.ReconcileEnvironment, S.Conclude, S.SteadyState, S.PromotionInProgress,
        S.PromoteWhenReady, S.Reactivate;
      ghost var c := context;
      var modelID, stop := ResolveModelID();
      if stop.Some? {
        return stop.value;
      }
      ghost var t1 := Trail();
      var source;
      source, stop := ResolveSourceDeployment(modelID);
      if stop.Some? {
        end := Conclude(stop.value);
        return;
      }
      if modelID == "" {
        return Requeue(10 * SECOND);
      }
      ghost var t2 := Trail();
      var found;
      found, stop := ReconcileEnvironment(modelID);
      if stop.Some? {
        end := Conclude(stop.value);
        return;
      }
      var env := found.value;
      if env.current.Some? && MatchesPrefix(env.current.value.name, source) {
        if env.current.value.status.Inactive? {
          end := Reactivate(modelID, env);
          return;
        }
        end := SteadyState(modelID, env);
        SweepComesLast(c, context, old(Trail()), modelID, t1, t2);
        return;
      }
      if env.candidate.Some? && MatchesPrefix(env.candidate.value.name, source) {
        end := PromotionInProgress(modelID, env);
        return;
      }
      end := PromoteWhenReady(modelID, source, env);
    }

    method ReconcileLifecycle() returns (handled: bool, end: Verdict)
      modifies this`status, this`writes, this`calls, this`finalizer
      ensures var early := S.Lifecycle(context, old(Trail()), old(finalizer));
        if handled then early == Some(Outcome(Trail(), end, finalizer))
        else early.None? && Trail() == old(Trail()) && finalizer == old(finalizer)
    {
      hide S.Deletion, S.ReconcilePaused;
      if context.deleting {
        end := ReconcileDeletion();
        return true, end;
      }
      if context.spec.EffectiveMode().PauseMode? {
        ReconcilePaused();
        return true, Quiet;
      }
      if finalizer {
        return false, Quiet;
      }
      finalizer := true;
      if !context.replies.metaWrite.MetaWritten? && !context.replies.metaWrite.MetaConflict? {
        return true, Fail(OtherError);
      }
      return true, Quiet;
    }

    /** A pass does what `Steps` says, what it sweeps follows the cleanup plan, and it takes as many
        slots as it launches pushes. */
    method Reconcile() returns (end: Verdict)
      requires MinToKeepAllowed(context) && Trail() == Start(status) && !swept
      requires SlotsAgree()
      modifies this, slots
      ensures SameButSweep(context, old(context))
      ensures Outcome(Trail(), end, finalizer) == S.Reconcile(context, old(status), old(finalizer))
      ensures swept ==> SweepFollowsPlan(context, status, context.replies.sweep)
      ensures !swept ==> context == old(context)
      ensures slots.Valid() && slots.tokens == old(slots.tokens) + PushCount(calls)
    {
      hide S.Deletion, S.ReconcilePaused, S.ReconcileObserve, S.ReconcileActive, SweepFollowsPlan, SourceCalls;
      ghost var c, st := context, status;
      if !PassCalls.Acting(c, finalizer) {
        SlotlessUnlessActing(c, st, finalizer);
      }
      var handled;
      handled, end := ReconcileLifecycle();
      if handled {
        return;
      }
      if context.spec.EffectiveMode().ObserveMode? {
        end := ReconcileObserve();
        return;
      }
      SourceCallsArePushes(c, st);
      end := ReconcileActive();
      SweepKeepsLifecycle(c, context, Start(st), old(finalizer));
      SweepKeepsPushes(c, context, st);
    }
  }
}
