/** What a pass does to the fields that bound deployment retries. */
module PassRetry {
  import opened Types
  import opened Drift
  import opened Schedules
  import opened Baseten
  import opened Model
  import opened StatusUpdates
  import opened Backoff
  import opened Steps
  import PassCalls

  /** The retry fields of a status. */
  datatype Retry = Retry(first: Option<Time>, count: int, next: Option<Time>)

  const NO_RETRY := Retry(None, 0, None)

  function RetryOf(st: Status): Retry { Retry(st.firstFailureTime, st.retryCount, st.nextRetryTime) }

  /** The failure was seen for the first time, or not even that. */
  predicate Untried(c: Context, st0: Status, st: Status) {
    || RetryOf(st) == RetryOf(st0)
    || (st0.firstFailureTime.None? && RetryOf(st) == RetryOf(st0).(first := Some(c.replies.retryTimes.detected)))
  }

  predicate Cleared(st: Status) { RetryOf(st) == NO_RETRY }

  /** A retry was made: not past the deadline, not before the waiting time was over. */
  predicate Attempted(c: Context, st0: Status, st: Status) {
    var times, count := c.replies.retryTimes, st0.retryCount + 1;
    var first := if st0.firstFailureTime.Some? then st0.firstFailureTime.value else times.detected;
    && RetryOf(st) == Retry(Some(first), count, Some(times.scheduled + Interval(count) + c.replies.jitter))
    && times.checked - first <= DEPLOYMENT_RETRY_DEADLINE
    && (st0.nextRetryTime.Some? ==> st0.nextRetryTime.value <= times.compared)
  }

  /** Clearing is final: within a pass a known failure time does not come back once it is gone. */
  predicate StaysCleared(st0: Status, writes: seq<Status>, last: Status) {
    st0.firstFailureTime.Some? ==>
      && (forall i, j :: 0 <= i < j < |writes| && writes[i].firstFailureTime.None? ==> writes[j].firstFailureTime.None?)
      && (forall i :: 0 <= i < |writes| && writes[i].firstFailureTime.None? ==> last.firstFailureTime.None?)
  }

  /** Without a retry, the fields are as read, note a first failure, or are cleared. */
  predicate Quiescent(c: Context, st0: Status, t: Trail) {
    && t.record.None?
    && (forall i :: 0 <= i < |t.calls| ==> !t.calls[i].RetryDeployment?)
    && (forall i :: 0 <= i < |t.writes| ==> Untried(c, st0, t.writes[i]) || Cleared(t.writes[i]))
    && (Untried(c, st0, t.status) || Cleared(t.status))
    && StaysCleared(st0, t.writes, t.status)
  }

  /** The same, and nothing has been cleared. */
  predicate Untouched(c: Context, st0: Status, t: Trail) {
    && t.record.None?
    && (forall i :: 0 <= i < |t.calls| ==> !t.calls[i].RetryDeployment?)
    && (forall i :: 0 <= i < |t.writes| ==> Untried(c, st0, t.writes[i]))
    && Untried(c, st0, t.status)
  }

  /** With a retry, every write from the record on carries the attempt. */
  predicate Retried(c: Context, st0: Status, t: Trail) {
    && t.record.Some? && t.record.value < |t.writes|
    && (exists i :: 0 <= i < |t.calls| && t.calls[i].RetryDeployment?)
    && (forall i :: 0 <= i < t.record.value ==> Untried(c, st0, t.writes[i]))
    && (forall i :: t.record.value <= i < |t.writes| ==> Attempted(c, st0, t.writes[i]))
    && Attempted(c, st0, t.status)
  }

  predicate RetryBook(c: Context, st0: Status, t: Trail) {
    Quiescent(c, st0, t) || Retried(c, st0, t)
  }

  lemma UpdatesBook(c: Context, st0: Status)
    ensures forall t, su: StatusUpdate :: su.firstFailureTime.None? && Untouched(c, st0, t) ==>
      if su.deploymentStatus.Healthy() then Quiescent(c, st0, UpdateStatus(c, t, su))
          else Untouched(c, st0, UpdateStatus(c, t, su))
  {
    forall t, su: StatusUpdate | su.firstFailureTime.None? && Untouched(c, st0, t)
      ensures if su.deploymentStatus.Healthy() then Quiescent(c, st0, UpdateStatus(c, t, su))
          else Untouched(c, st0, UpdateStatus(c, t, su))
    {
      UpdateBook(c, st0, t, su);
    }
  }

  lemma UpdateBook(c: Context, st0: Status, t: Trail, su: StatusUpdate)
    requires su.firstFailureTime.None? && Untouched(c, st0, t)
    ensures if su.deploymentStatus.Healthy() then Quiescent(c, st0, UpdateStatus(c, t, su))
        else Untouched(c, st0, UpdateStatus(c, t, su))
  {
    hide Skipped, Conditions;
  }

  /** A change outside the retry fields. */
  lemma WriteBook(c: Context, st0: Status, t: Trail, st: Status)
    requires Untouched(c, st0, t) && RetryOf(st) == RetryOf(t.status)
    ensures Untouched(c, st0, t.(status := st)) && Untouched(c, st0, t.(status := st).Written())
  {
  }

  /* ---- step by step ---- */

  lemma DeletionBook(c: Context, st0: Status, t: Trail, finalizer: bool)
    requires Untouched(c, st0, t)
    ensures Untouched(c, st0, Deletion(c, t, finalizer).trail)
  {
    hide UpdateStatus, Untried;
    UpdatesBook(c, st0);
  }

  lemma ObserveBook(c: Context, st0: Status, t: Trail)
    requires Untouched(c, st0, t)
    ensures Quiescent(c, st0, ReconcileObserve(c, t).0)
  {
    hide UpdateStatus, Untried;
    UpdatesBook(c, st0);
    UntouchedIsQuiescent(c, st0);
  }

  lemma ResolveBook(c: Context, st0: Status, t: Trail)
    requires Untouched(c, st0, t)
    ensures Untouched(c, st0, ResolveModelID(c, t).trail)
  {
    hide UpdateStatus, Untried;
    UpdatesBook(c, st0);
  }

  lemma ConcludeBook(c: Context, st0: Status, t: Trail, v: Verdict)
    requires Untouched(c, st0, t)
    ensures Untouched(c, st0, Conclude(t, v).0)
  {
  }

  /** The record of a retry, and the update that may follow it. */
  lemma RecordBook(c: Context, st0: Status, t: Trail, id: string)
    requires Untouched(c, st0, t) && t.status.firstFailureTime.Some? && RetryOf(t.status).count == st0.retryCount
    requires t.status.nextRetryTime == st0.nextRetryTime
    requires t.status.firstFailureTime == if st0.firstFailureTime.Some? then st0.firstFailureTime
        else Some(c.replies.retryTimes.detected)
    requires c.replies.retryTimes.checked - t.status.firstFailureTime.value <= DEPLOYMENT_RETRY_DEADLINE
    requires t.status.nextRetryTime.Some? ==> t.status.nextRetryTime.value <= c.replies.retryTimes.compared
    ensures Retried(c, st0, ScheduleNextRetry(c, t.Called(RetryDeployment(id))))
  {
    hide Interval;
    var t2 := ScheduleNextRetry(c, t.Called(RetryDeployment(id)));
    assert t2.calls[|t.calls|] == RetryDeployment(id);
  }

  lemma UpdateAfterRetry(c: Context, st0: Status, t: Trail, su: StatusUpdate)
    requires Retried(c, st0, t) && su.firstFailureTime.None? && !su.deploymentStatus.Healthy()
    ensures Retried(c, st0, UpdateStatus(c, t, su))
  {
    hide Skipped, Conditions, Interval;
  }

  lemma FirstFailureBook(c: Context, st0: Status, t: Trail)
    requires Untouched(c, st0, t) && RetryOf(t.status) == RetryOf(st0)
    ensures Untouched(c, st0, NoteFirstFailure(c, t))
  {
  }

  /** Exhausted retries leave the trail untouched; nothing else may follow a retry that was made. */
  lemma RetriesBooked(c: Context, st0: Status, t: Trail, modelID: string, id: string, failed: StatusCode)
    requires Untouched(c, st0, t) && RetryOf(t.status) == RetryOf(st0)
    ensures var step := TryRetry(c, t, modelID, id, failed);
      if step.Go? then Untouched(c, st0, step.trail) else RetryBook(c, st0, step.trail)
  {
    hide Untouched, Retried, Quiescent, UpdateStatus, ScheduleNextRetry;
    UntouchedIsQuiescent(c, st0);
    FirstFailureBook(c, st0, t);
    var t1, times := NoteFirstFailure(c, t), c.replies.retryTimes;
    if times.checked - t1.status.firstFailureTime.value <= DEPLOYMENT_RETRY_DEADLINE &&
       (t1.status.nextRetryTime.Some? ==> t1.status.nextRetryTime.value <= times.compared) {
      RecordBook(c, st0, t1, id);
      UpdateAfterRetry(c, st0, ScheduleNextRetry(c, t1.Called(RetryDeployment(id))),
                       Update(Building, Say("retrying deployment"), modelID));
    }
  }

  lemma StartPushBook(c: Context, st0: Status, t: Trail, modelID: string, configHash: string, name: string)
    requires Untouched(c, st0, t)
    ensures Untouched(c, st0, StartPush(c, t, modelID, configHash, name).0)
  {
    hide UpdateStatus;
    UpdatesBook(c, st0);
  }

  lemma PushBook(c: Context, st0: Status, t: Trail, modelID: string, configHash: string, name: string)
    requires Untouched(c, st0, t)
    ensures Untouched(c, st0, PushOrWait(c, t, modelID, configHash, name).0)
  {
    hide UpdateStatus, StartPush;
    UpdatesBook(c, st0);
    var ready := ReadyToPush(t, name, c.replies.now);
    WriteBook(c, st0, t, ready.status);
    StartPushBook(c, st0, ready, modelID, configHash, name);
  }

  lemma SourceBook(c: Context, st0: Status, t: Trail, modelID: string)
    requires Untouched(c, st0, t)
    ensures Untouched(c, st0, ResolveSource(c, t, modelID).trail)
    ensures ResolveSource(c, t, modelID).Go? ==> RetryOf(ResolveSource(c, t, modelID).trail.status) == RetryOf(t.status)
  {
    hide UpdateStatus, PushOrWait, Untouched;
    UpdatesBook(c, st0);
    if c.spec.truss.Some? && c.replies.setupScript.Some? {
      PushBook(c, st0, t, modelID, TrussHash(c), TrussName(c));
      WriteBook(c, st0, t,
                ClearPushFailure(t.status.(trussConfigHash := TrussHash(c), sourceDeploymentName := TrussName(c),
                                                      pushStatus := PushDone)));
    }
  }

  lemma CallsBook(c: Context, st0: Status)
    ensures forall t, call: Call :: Untouched(c, st0, t) && !call.RetryDeployment? ==> Untouched(c, st0, t.Called(call))
  {
    hide Untried;
  }

  lemma EnvironmentBook(c: Context, st0: Status, t: Trail, modelID: string)
    requires Untouched(c, st0, t)
    ensures Untouched(c, st0, ReconcileEnvironment(c, t, modelID).trail)
  {
    hide UpdateStatus, Untouched, AnyPromotionDrift, BaselineDrift, ScheduleDrift;
    UpdatesBook(c, st0);
    CallsBook(c, st0);
  }

  lemma SteadyBook(c: Context, st0: Status, t: Trail, modelID: string, env: Environment)
    requires Untouched(c, st0, t) && env.current.Some?
    ensures Quiescent(c, st0, SteadyState(c, t, modelID, env).0)
  {
    hide UpdateStatus, Skipped;
    UpdateBook(c, st0, t, SteadyUpdate(t, modelID, env));
  }

  lemma CandidateBook(c: Context, st0: Status, t: Trail, modelID: string, env: Environment)
    requires Untouched(c, st0, t) && RetryOf(t.status) == RetryOf(st0) && env.candidate.Some?
    ensures RetryBook(c, st0, PromotionInProgress(c, t, modelID, env).0)
  {
    hide UpdateStatus, TryRetry, Untried;
    UpdatesBook(c, st0);
    UntouchedIsQuiescent(c, st0);
    RetriesBooked(c, st0, t, modelID, CandidateIdToRetry(t, env.candidate.value), env.candidate.value.status);
  }

  lemma ValidateBook(c: Context, st0: Status, t: Trail, modelID: string, source: string, env: Environment)
    requires Untouched(c, st0, t) && RetryOf(t.status) == RetryOf(st0)
    ensures var step := ValidateSource(c, t, modelID, source, env);
      && RetryBook(c, st0, step.trail)
      && (step.Go? || step.verdict.Fail? ==> Untouched(c, st0, step.trail))
  {
    hide UpdateStatus, TryRetry, Untouched, Quiescent, Retried;
    UpdatesBook(c, st0);
    UntouchedIsQuiescent(c, st0);
    CallsBook(c, st0);
    if c.replies.findSource.Ok? {
      RetriesBooked(c, st0, t, modelID, c.replies.findSource.value.id, c.replies.findSource.value.status);
      RetryNeverFails(c, t, modelID, c.replies.findSource.value.id, c.replies.findSource.value.status);
    }
  }

  lemma RetryNeverFails(c: Context, t: Trail, modelID: string, id: string, failed: StatusCode)
    ensures TryRetry(c, t, modelID, id, failed).Stop? ==> TryRetry(c, t, modelID, id, failed).verdict.Requeue?
  {
    hide UpdateStatus;
  }

  lemma PromoteSourceBook(c: Context, st0: Status, t: Trail, modelID: string, source: string, id: string,
                          env: Environment)
    requires Untouched(c, st0, t)
    ensures Untouched(c, st0, PromoteSource(c, t, modelID, source, id, env).0)
  {
    hide UpdateStatus, Skipped;
    UpdatesBook(c, st0);
  }

  lemma GuardBook(c: Context, st0: Status, t: Trail, env: Environment, modelID: string, source: string)
    requires Untouched(c, st0, t)
    ensures var step := DoublePromoteGuard(c, t, env, modelID, source);
      Untouched(c, st0, step.trail) && (step.Go? ==> RetryOf(step.trail.status) == RetryOf(t.status))
  {
    hide UpdateStatus;
    UpdatesBook(c, st0);
  }

  lemma ReactivateBook(c: Context, st0: Status, t: Trail, modelID: string, env: Environment)
    requires Untouched(c, st0, t) && env.current.Some?
    ensures Untouched(c, st0, Reactivate(c, t, modelID, env).0)
  {
    hide UpdateStatus;
    UpdatesBook(c, st0);
  }

  lemma WithEnvironmentBook(c: Context, st0: Status, t: Trail, modelID: string, source: string, env: Environment)
    requires Untouched(c, st0, t) && RetryOf(t.status) == RetryOf(st0)
    ensures RetryBook(c, st0, WithEnvironment(c, t, modelID, source, env).0)
  {
    hide UpdateStatus, Untouched, Retried, SteadyState, Reactivate, PromotionInProgress, DoublePromoteGuard,
        ValidateSource, PromoteSource;
    UntouchedIsQuiescent(c, st0);
    if Matches(env.current, source) {
      SteadyBook(c, st0, t, modelID, env);
      ReactivateBook(c, st0, t, modelID, env);
    } else if Matches(env.candidate, source) {
      CandidateBook(c, st0, t, modelID, env);
    } else {
      PromoteBook(c, st0, t, modelID, source, env);
    }
  }

  lemma PromoteBook(c: Context, st0: Status, t: Trail, modelID: string, source: string, env: Environment)
    requires Untouched(c, st0, t) && RetryOf(t.status) == RetryOf(st0)
    ensures RetryBook(c, st0, PromoteWhenReady(c, t, modelID, source, env).0)
  {
    hide UpdateStatus, Untouched, Retried, Quiescent, DoublePromoteGuard, ValidateSource, PromoteSource, Conclude;
    UntouchedIsQuiescent(c, st0);
    var guard := DoublePromoteGuard(c, t, env, modelID, source);
    GuardBook(c, st0, t, env, modelID, source);
    if guard.Go? {
      ValidateBook(c, st0, guard.trail, modelID, source, env);
      var valid := ValidateSource(c, guard.trail, modelID, source, env);
      if valid.Go? {
        PromoteSourceBook(c, st0, valid.trail, modelID, source, valid.value, env);
      } else if valid.verdict.Fail? {
        ConcludeBook(c, st0, valid.trail, valid.verdict);
      } else {
        ConcludeKeeps(valid.trail, valid.verdict);
      }
    }
  }

  lemma ConcludeKeeps(t: Trail, v: Verdict)
    requires !v.Fail?
    ensures Conclude(t, v).0 == t
  {
  }

  lemma ActiveBook(c: Context, st0: Status, t: Trail)
    requires Untouched(c, st0, t) && RetryOf(t.status) == RetryOf(st0)
    ensures RetryBook(c, st0, ReconcileActive(c, t).0)
  {
    hide Untouched, Retried, Quiescent, ResolveModelID, ResolveSource, ReconcileEnvironment, WithEnvironment, Conclude;
    UntouchedIsQuiescent(c, st0);
    ResolveBook(c, st0, t);
    var resolved := ResolveModelID(c, t);
    if resolved.Go? {
      ResolveKeeps(c, t);
      SourceBook(c, st0, t, resolved.value);
      var sourced := ResolveSource(c, t, resolved.value);
      if sourced.Stop? {
        ConcludeBook(c, st0, sourced.trail, sourced.verdict);
      } else {
        EnvironmentBook(c, st0, sourced.trail, resolved.value);
        var env := ReconcileEnvironment(c, sourced.trail, resolved.value);
        if env.Stop? {
          ConcludeBook(c, st0, env.trail, env.verdict);
        } else {
          PassCalls.EnvironmentKeepsStatus(c, sourced.trail, resolved.value);
          WithEnvironmentBook(c, st0, env.trail, resolved.value, sourced.value, env.value);
        }
      }
    }
  }

  lemma ResolveKeeps(c: Context, t: Trail)
    ensures ResolveModelID(c, t).Go? ==> ResolveModelID(c, t).trail == t
  {
    hide UpdateStatus;
  }

  /** Whatever a pass does, its writes either carry at most a first failure time or a clear, or
      they carry, from the retry it made on, one attempt that deadline and waiting time allowed. */
  lemma PassKeepsRetryBook(c: Context, st0: Status, finalizer: bool)
    ensures RetryBook(c, st0, Reconcile(c, st0, finalizer).trail)
  {
    hide UpdateStatus, Untouched, Retried, Quiescent, ReconcileActive, ReconcileObserve, Deletion;
    UntouchedIsQuiescent(c, st0);
    var t := Start(st0);
    StartUntouched(c, st0);
    UpdatesBook(c, st0);
    DeletionBook(c, st0, t, finalizer);
    ObserveBook(c, st0, t);
    ActiveBook(c, st0, t);
  }

  lemma StartUntouched(c: Context, st0: Status)
    ensures Untouched(c, st0, Start(st0))
  {
  }

  lemma UntouchedIsQuiescent(c: Context, st0: Status)
    ensures forall t :: Untouched(c, st0, t) ==> Quiescent(c, st0, t)
  {
  }
}
