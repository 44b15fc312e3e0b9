/** What a pass comes to from the environment on: calls, verdict and report, in terms of what it reads. */
module StageAnswers {
  import opened Types
  import opened Names
  import opened Drift
  import opened Schedules
  import opened Baseten
  import opened Model
  import opened StatusUpdates
  import opened Backoff
  import opened Steps
  import opened Facts
  import opened Paths
  import opened Answers
  import PassCalls

  /* ---- the environment ---- */

  /** What forgetting the model ID leaves told. */
  lemma ConcludeEnds(t: Trail, v: Verdict, told: Told)
    requires v.Fail? && What(t.status) == told && t.status.modelID != ""
    ensures var (t', v') := Conclude(t, v);
      t'.calls == t.calls && Ends(Outcome(t', v', true), v == Fail(Missing), told)
  {
    assert v.error.Missing? || v.error.OtherError?;
  }

  /** What settings and schedules a pass corrects; the schedules only once the settings went through. */
  ghost predicate PatchCalls(c: Context, env: Environment, calls: seq<Call>) {
    var a, p := OffBaseline(c.spec.environment, env), OffPromotion(c.spec.environment.promotion, env.promotion);
    var s := OffSchedule(c.spec.environment, env, c.replies.now);
    calls == (if a || p then [UpdateSettings(a, p)] else []) +
             (if s && ((a || p) ==> c.replies.updateSettings.Ok?) then [UpdateSchedules] else [])
  }

  /** A correction that is called for did not go through, and whether the model was missing. */
  ghost predicate PatchFails(c: Context, env: Environment, missing: bool) {
    var settings := OffBaseline(c.spec.environment, env) || OffPromotion(c.spec.environment.promotion, env.promotion);
    if settings && !c.replies.updateSettings.Ok? then missing == c.replies.updateSettings.NotFound?
    else OffSchedule(c.spec.environment, env, c.replies.now) && !c.replies.updateSchedules.Ok?
         && missing == c.replies.updateSchedules.NotFound?
  }

  lemma SettingsFail(c: Context, t: Trail, id: string, env: Environment)
    requires t.calls == [] && id != "" && !c.replies.updateSettings.Ok?
    requires OffBaseline(c.spec.environment, env) || OffPromotion(c.spec.environment.promotion, env.promotion)
    ensures var (t', v) := PatchSettings(c, t, id, env);
      && PatchCalls(c, env, t'.calls)
      && v == Fail(if c.replies.updateSettings.NotFound? then Missing else OtherError) && t'.status.modelID == id
      && What(t'.status) == Report(t.status, Failed, 0, id, c.replies.now)
  {
    OffIsDrift(c.spec.environment, env, c.replies.now);
    hide UpdateStatus, BaselineDrift, AnyPromotionDrift, ScheduleDrift, OffBaseline, OffPromotion, OffSchedule, What,
      Report, Update;
    PlainUpdatesReport(c);
  }

  lemma SettingsPass(c: Context, t: Trail, id: string, env: Environment)
    requires t.calls == [] && id != ""
    requires OffBaseline(c.spec.environment, env) || OffPromotion(c.spec.environment.promotion, env.promotion) ==>
      c.replies.updateSettings.Ok?
    ensures var (t', v) := PatchSettings(c, t, id, env);
      var fails := OffSchedule(c.spec.environment, env, c.replies.now) && !c.replies.updateSchedules.Ok?;
      && PatchCalls(c, env, t'.calls)
      && v == (if !fails then Requeue(10 * NS_SECOND)
               else Fail(if c.replies.updateSchedules.NotFound? then Missing else OtherError))
      && t'.status.modelID == id
      && What(t'.status) == Report(t.status, if fails then Failed else Pending, 0, id, c.replies.now)
  {
    OffIsDrift(c.spec.environment, env, c.replies.now);
    hide UpdateStatus, BaselineDrift, AnyPromotionDrift, ScheduleDrift, OffBaseline, OffPromotion, OffSchedule, What,
      Report, Update;
    PlainUpdatesReport(c);
  }

  lemma PatchAnswers(c: Context, t: Trail, id: string, env: Environment)
    requires t.calls == [] && id != ""
    requires c.replies.environment == Ok(env) && !Unreadable(c.spec.environment, env) && !Settled(c, env)
    ensures var (t', v) := PatchSettings(c, t, id, env);
      && PatchCalls(c, env, t'.calls)
      && (v.Fail? <==> PatchFails(c, env, v == Fail(Missing)))
      && (v.Requeue? ==> v == Requeue(10 * NS_SECOND) && !PatchFails(c, env, true) && !PatchFails(c, env, false))
      && (v.Fail? || v.Requeue?) && t'.status.modelID == id
      && What(t'.status) == Report(t.status, if v.Fail? then Failed else Pending, 0, id, c.replies.now)
  {
    hide PatchSettings, PatchCalls, OffBaseline, OffPromotion, OffSchedule, What, Report;
    if (OffBaseline(c.spec.environment, env) || OffPromotion(c.spec.environment.promotion, env.promotion))
       && !c.replies.updateSettings.Ok? {
      SettingsFail(c, t, id, env);
    } else {
      SettingsPass(c, t, id, env);
    }
  }

  lemma MissingEnvironment(c: Context, t: Trail, id: string)
    requires t.calls == [] && id != "" && c.replies.environment.NotFound?
    ensures var step, answer := ReconcileEnvironment(c, t, id), c.replies.createEnvironment;
      && step.Stop? && step.trail.status.modelID == id && step.trail.calls == [CreateEnvironment]
      && step.verdict == (if answer.Ok? then Requeue(10 * NS_SECOND)
                          else Fail(if answer.NotFound? then Missing else OtherError))
      && What(step.trail.status) == Report(t.status, if answer.Ok? then Pending else Failed, 0, id, c.replies.now)
  {
    PlainUpdatesReport(c);
    hide UpdateStatus, PatchSettings, BaselineDrift, AnyPromotionDrift, ScheduleDrift, What, Report, Update;
  }

  lemma UnreadEnvironment(c: Context, t: Trail, id: string)
    requires t.calls == [] && id != ""
    requires c.replies.environment.Failure?
             || (c.replies.environment.Ok? && Unreadable(c.spec.environment, c.replies.environment.value))
    ensures var step := ReconcileEnvironment(c, t, id);
      && step.Stop? && step.trail.status.modelID == id && step.trail.calls == [] && step.verdict == Fail(OtherError)
      && What(step.trail.status) == Report(t.status, Failed, 0, id, c.replies.now)
  {
    PlainUpdatesReport(c);
    hide UpdateStatus, PatchSettings, BaselineDrift, AnyPromotionDrift, ScheduleDrift, What, Report, Update;
  }

  lemma OffEnvironment(c: Context, t: Trail, id: string, env: Environment)
    requires c.replies.environment == Ok(env) && !Unreadable(c.spec.environment, env) && !Settled(c, env)
    ensures ReconcileEnvironment(c, t, id) == var (t', v) := PatchSettings(c, t, id, env); Stop(t', v)
  {
    OffIsDrift(c.spec.environment, env, c.replies.now);
    hide UpdateStatus, PatchSettings, BaselineDrift, AnyPromotionDrift, ScheduleDrift, OffBaseline, OffPromotion,
      OffSchedule;
  }

  lemma OffCallsSomething(c: Context, env: Environment, calls: seq<Call>)
    requires PatchCalls(c, env, calls) && !Unreadable(c.spec.environment, env) && !Settled(c, env)
    ensures calls != []
  {
    hide OffBaseline, OffPromotion, OffSchedule;
  }

  /** An environment that is off is corrected, exactly where it is off. */
  lemma CorrectionAnswers(c: Context, st: Status, id: string, source: string, env: Environment)
    requires AtEnvironment(c, st, true, id, source)
    requires c.replies.environment == Ok(env) && !Unreadable(c.spec.environment, env) && !Settled(c, env)
    ensures var o, s, now := Reconcile(c, st, true), Sourced(c, st), c.replies.now;
      && PatchCalls(c, env, o.trail.calls) && o.trail.calls != []
      && if PatchFails(c, env, true) then Ends(o, true, Report(s, Failed, 0, id, now))
         else if PatchFails(c, env, false) then Ends(o, false, Report(s, Failed, 0, id, now))
         else o.verdict == Requeue(10 * NS_SECOND) && What(o.trail.status) == Report(s, Pending, 0, id, now)
  {
    GetsToEnvironment(c, st, true, id, source);
    assert id != "";
    var t := AtSource(c, st);
    OffEnvironment(c, t, id, env);
    PatchAnswers(c, t, id, env);
    FailsOneWay(c, env);
    var (t', v) := PatchSettings(c, t, id, env);
    OffCallsSomething(c, env, t'.calls);
    if v.Fail? {
      ConcludeEnds(t', v, Report(t.status, Failed, 0, id, c.replies.now));
    } else {
      assert Conclude(t', v) == (t', v);
    }
    hide Reconcile, ReconcileEnvironment, WithEnvironment, AtEnvironment, Settled, Conclude, PatchSettings, PatchCalls,
      PatchFails, Sourced, Report, What, Ends;
  }

  lemma FailsOneWay(c: Context, env: Environment)
    ensures !(PatchFails(c, env, true) && PatchFails(c, env, false))
  {
    hide OffBaseline, OffPromotion, OffSchedule;
  }

  /** An environment that is missing is created; one that cannot be read, or whose schedules cannot,
      is left alone. */
  lemma EnvironmentAnswers(c: Context, st: Status, id: string, source: string)
    requires AtEnvironment(c, st, true, id, source)
    requires c.replies.environment.Ok? ==> Unreadable(c.spec.environment, c.replies.environment.value)
    ensures var o, s, now := Reconcile(c, st, true), Sourced(c, st), c.replies.now;
      if c.replies.environment.NotFound? then
        && o.trail.calls == [CreateEnvironment]
        && if c.replies.createEnvironment.Ok?
           then o.verdict == Requeue(10 * NS_SECOND) && What(o.trail.status) == Report(s, Pending, 0, id, now)
           else Ends(o, c.replies.createEnvironment.NotFound?, Report(s, Failed, 0, id, now))
      else o.trail.calls == [] && Ends(o, false, Report(s, Failed, 0, id, now))
  {
    GetsToEnvironment(c, st, true, id, source);
    assert id != "";
    var t := AtSource(c, st);
    if c.replies.environment.NotFound? {
      MissingEnvironment(c, t, id);
    } else {
      UnreadEnvironment(c, t, id);
    }
    var step := ReconcileEnvironment(c, t, id);
    if step.verdict.Fail? {
      ConcludeEnds(step.trail, step.verdict, Report(t.status, Failed, 0, id, c.replies.now));
    } else {
      assert Conclude(step.trail, step.verdict) == (step.trail, step.verdict);
    }
    hide Reconcile, ReconcileEnvironment, WithEnvironment, AtEnvironment, Conclude, Sourced, Report, What, Ends;
  }

  /* ---- steady state ---- */

  /** Cleanup is asked for, its interval is over, and both listings answered. */
  predicate Sweeps(c: Context, st: Status) {
    && c.replies.listDeployments.Ok? && c.replies.listEnvironments.Ok?
    && c.spec.cleanup.Some?
    && var cleanup := c.spec.cleanup.value;
       && cleanup.intervalMinutes.Some? && (cleanup.scaleToZero == Some(true) || cleanup.delete == Some(true))
       && (st.lastCleanupTime.Some? ==>
             c.replies.now - st.lastCleanupTime.value >= cleanup.intervalMinutes.value * NS_MINUTE)
  }

  /** First all scale-ins, then all deletions. */
  predicate SweepCalls(calls: seq<Call>, sweep: Sweep) {
    var n := |sweep.scaledIn|;
    && |calls| == n + |sweep.deleted|
    && (forall i :: 0 <= i < n ==> calls[i] == ScaleIn(sweep.scaledIn[i]))
    && (forall i :: 0 <= i < |sweep.deleted| ==> calls[n + i] == DeleteDeployment(sweep.deleted[i]))
  }

  lemma CurrentReached(c: Context, st: Status, id: string, source: string, env: Environment)
    requires Reaches(c, st, true, id, source, env) && Called(env.current, source)
    ensures Reconcile(c, st, true) ==
      var (t, v) := if env.current.value.status.Inactive? then Reactivate(c, AtSource(c, st), id, env)
                    else SteadyState(c, AtSource(c, st), id, env);
      Outcome(t, v, true)
  {
    CalledIsMatched(env.current, source);
    GetsToDeployments(c, st, true, id, source, env);
    hide Reconcile, Reactivate, SteadyState, Reaches, Called, Matches, AtSource;
  }

  lemma ReactivationAnswers(c: Context, t: Trail, id: string, env: Environment)
    requires env.current.Some? && t.calls == [] && id != ""
    ensures var (t', v), d := Reactivate(c, t, id, env), env.current.value;
      var told := Report(t.status, if c.replies.activateCurrent.Ok? then Activating else Failed, d.replicas, id,
                         c.replies.now).(active := Or(d.name, t.status.activeDeploymentName));
      && t'.calls == [Activate(d.id)]
      && if c.replies.activateCurrent.NotFound? then Ends(Outcome(t', v, true), true, told)
         else v == Requeue(30 * NS_SECOND) && What(t'.status) == told
  {
    hide UpdateStatus;
    UpdatesTell(c);
  }

  /** An inactive current deployment of the source is activated. */
  lemma ReactivateAnswers(c: Context, st: Status, id: string, source: string, env: Environment)
    requires Reaches(c, st, true, id, source, env) && Called(env.current, source)
    requires env.current.value.status == Inactive
    ensures var o, s, d := Reconcile(c, st, true), Sourced(c, st), env.current.value;
      var told := Report(s, if c.replies.activateCurrent.Ok? then Activating else Failed, d.replicas, id, c.replies.now)
        .(active := Or(d.name, s.activeDeploymentName));
      && o.trail.calls == [Activate(d.id)]
      && if c.replies.activateCurrent.NotFound? then Ends(o, true, told)
         else o.verdict == Requeue(30 * NS_SECOND) && What(o.trail.status) == told
  {
    assert env.current.Some? && id != "";
    hide Reconcile, Called, Reactivate, Reaches, Sourced, Report, What, Ends;
    CurrentReached(c, st, id, source, env);
    ReactivationAnswers(c, AtSource(c, st), id, env);
  }

  /** The report of a current deployment of the source that serves, or at least is not inactive. */
  function SteadyTold(s: Status, d: Deployment, id: string, now: Time): Told {
    Report(s, d.status, d.replicas, id, now).(
      active := Or(d.name, s.activeDeploymentName), candidateID := "", candidateName := "")
  }

  lemma SkippedTellsNothing(c: Context, t: Trail, su: StatusUpdate)
    requires Skipped(t.status, su, c.generation, c.replies.now)
    ensures What(UpdateStatus(c, t, su).status).(resolved := t.status.modelIDResolvedTime) == What(t.status)
  {
    hide Conditions, ConditionsChanged;
  }

  /** The time of the cleanup is the last thing stored. */
  predicate StoresCleanup(t: Trail, now: Time) {
    && t.status.lastCleanupTime == Some(now)
    && t.writes != [] && t.writes[|t.writes| - 1] == t.status
  }

  lemma SweepsExactly(c: Context, t: Trail)
    requires t.calls == []
    ensures var t' := OrphanCleanup(c, t);
      && What(t'.status) == What(t.status)
      && (forall before :: RetryKept(before, t.status) ==> RetryKept(before, t'.status))
      && if Sweeps(c, t.status)
         then SweepCalls(t'.calls, c.replies.sweep) && StoresCleanup(t', c.replies.now)
         else t' == t
  {
    assert [] + CleanupCalls(c.replies.sweep) == CleanupCalls(c.replies.sweep);
  }

  lemma SteadyTells(c: Context, t: Trail, id: string, env: Environment)
    requires env.current.Some?
    ensures var t' := UpdateStatus(c, t, SteadyUpdate(t, id, env));
      && What(t'.status) == SteadyTold(t.status, env.current.value, id, c.replies.now)
      && t'.calls == t.calls && t'.status.lastCleanupTime == t.status.lastCleanupTime
      && RetryKept(t.status, t'.status)
  {
    UpdatesTell(c);
    HealthClearsRetry(c, t, SteadyUpdate(t, id, env));
    PassCalls.UpdateKeeps(c, t, SteadyUpdate(t, id, env));
    hide UpdateStatus, Skipped;
  }

  lemma SameSweeps(c: Context, a: Status, b: Status)
    requires a.lastCleanupTime == b.lastCleanupTime
    ensures Sweeps(c, a) <==> Sweeps(c, b)
  {
  }

  lemma SteadyStateAnswers(c: Context, t: Trail, id: string, env: Environment)
    requires env.current.Some? && t.calls == []
    ensures var (t', v) := SteadyState(c, t, id, env);
      var told := SteadyTold(t.status, env.current.value, id, c.replies.now);
      && What(t'.status) == told
      && (c.replies.steadyWritten ==> v == Requeue(5 * NS_MINUTE))
      && (v == Requeue(5 * NS_MINUTE) || v == Fail(OtherError))
      && RetryKept(t.status, t'.status)
      && (told.(resolved := t.status.modelIDResolvedTime) != What(t.status) ==> (v.Fail? <==> !c.replies.steadyWritten))
      && if v.Requeue? && Sweeps(c, t.status)
         then SweepCalls(t'.calls, c.replies.sweep) && StoresCleanup(t', c.replies.now)
         else t'.calls == [] && t'.status.lastCleanupTime == t.status.lastCleanupTime
  {
    var su := SteadyUpdate(t, id, env);
    SteadyTells(c, t, id, env);
    SweepsExactly(c, UpdateStatus(c, t, su));
    if Skipped(t.status, su, c.generation, c.replies.now) {
      SkippedTellsNothing(c, t, su);
    }
    hide UpdateStatus, Skipped, OrphanCleanup, SteadyTold, What, SweepCalls, SteadyUpdate, RetryKept, StoresCleanup,
      Sweeps;
    SameSweeps(c, t.status, UpdateStatus(c, t, su).status);
  }

  /** A current deployment of the source ends the promotion: its status is reported, the candidate
      forgotten, and orphans are swept when that is due; then the pass rests for five minutes. */
  lemma SteadyAnswers(c: Context, st: Status, id: string, source: string, env: Environment)
    requires Reaches(c, st, true, id, source, env) && Called(env.current, source)
    requires env.current.value.status != Inactive
    ensures var o, s, now := Reconcile(c, st, true), Sourced(c, st), c.replies.now;
      var told := SteadyTold(s, env.current.value, id, now);
      && What(o.trail.status) == told
      && (c.replies.steadyWritten ==> o.verdict == Requeue(5 * NS_MINUTE))
      && (o.verdict == Requeue(5 * NS_MINUTE) || o.verdict == Fail(OtherError))
      && RetryKept(s, o.trail.status)
      && (told.(resolved := s.modelIDResolvedTime) != What(s) ==> (o.verdict.Fail? <==> !c.replies.steadyWritten))
      && if o.verdict.Requeue? && Sweeps(c, st)
         then SweepCalls(o.trail.calls, c.replies.sweep) && StoresCleanup(o.trail, now)
         else o.trail.calls == [] && o.trail.status.lastCleanupTime == st.lastCleanupTime
  {
    CurrentReached(c, st, id, source, env);
    SteadyStateAnswers(c, AtSource(c, st), id, env);
    assert Sourced(c, st).lastCleanupTime == st.lastCleanupTime by { hide NameFor, HashOf; }
    SameSweeps(c, st, Sourced(c, st));
    hide Reconcile, Called, SteadyState, Reaches, Sourced, SteadyTold, What, SweepCalls, Sweeps, StoresCleanup,
      RetryKept;
  }

  /* ---- retries ---- */

  function FirstFailure(c: Context, st: Status): Time {
    if st.firstFailureTime.Some? then st.firstFailureTime.value else c.replies.retryTimes.detected
  }

  /** More than two hours have passed since the first failure. */
  predicate Late(c: Context, st: Status) {
    c.replies.retryTimes.checked - FirstFailure(c, st) > 120 * NS_MINUTE
  }

  /** The time of the next retry has not come. */
  predicate Early(c: Context, st: Status) {
    st.nextRetryTime.Some? && c.replies.retryTimes.compared < st.nextRetryTime.value
  }

  /** A fresh look at the deployment, if it gave a status, still shows a failure that can be retried;
      without one the status already known counts. */
  predicate FailsStill(c: Context, known: StatusCode) {
    match c.replies.findFresh
    case Ok(found) => Failing(found.status) || (found.status == Blank && Failing(known))
    case _ => Failing(known)
  }

  predicate Retries(c: Context, st: Status, known: StatusCode) {
    !Late(c, st) && !Early(c, st) && FailsStill(c, known)
  }

  /** Two minutes, doubled with every retry up to half an hour. */
  function WaitFor(count: int): Time {
    if count <= 1 then 2 * NS_MINUTE else if count == 2 then 4 * NS_MINUTE else if count == 3 then 8 * NS_MINUTE
    else if count == 4 then 16 * NS_MINUTE else 30 * NS_MINUTE
  }

  lemma WaitIsInterval(count: int)
    ensures WaitFor(count) == Interval(count)
  {
    assert Pow2(0) == 1 && Pow2(1) == 2 && Pow2(2) == 4 && Pow2(3) == 8 && Pow2(4) == 16;
    if count > 4 {
      Pow2Grows(4, count - 1);
    }
  }

  /** The history of failures is stored as it stands; `s` is what was stored before the pass wrote. */
  predicate RetryStored(s: Status, t: Trail) {
    var stored := if t.writes == [] then s else t.writes[|t.writes| - 1];
    && stored.firstFailureTime == t.status.firstFailureTime && stored.retryCount == t.status.retryCount
    && stored.nextRetryTime == t.status.nextRetryTime
  }

  /** A pass short of the deadline retries, waits, or finds that somebody else has retried. */
  ghost predicate RetryTold(c: Context, s: Status, deployment: string, id: string, known: StatusCode, o: Outcome) {
    var times, st, retries := c.replies.retryTimes, o.trail.status, Retries(c, s, known);
    && o.trail.calls == (if retries then [RetryDeployment(deployment)] else [])
    && o.verdict == (if Early(c, s) then Requeue(s.nextRetryTime.value - times.compared) else Requeue(30 * NS_SECOND))
    && What(st) == (if retries && c.replies.retry == Ok(RetryResponse(true))
                    then Report(s, Building, 0, id, c.replies.now)
                    else What(s))
    && st.firstFailureTime == Some(FirstFailure(c, s))
    && st.retryCount == s.retryCount + (if retries then 1 else 0)
    && st.nextRetryTime == (if retries then Some(times.scheduled + WaitFor(s.retryCount + 1) + c.replies.jitter)
                            else s.nextRetryTime)
    && RetryStored(s, o.trail)
  }

  lemma RetryFieldsUntold(st: Status, first: Option<Time>, count: int, next: Option<Time>)
    ensures var st' := st.(firstFailureTime := first, retryCount := count, nextRetryTime := next);
      && What(st') == What(st)
      && forall code, replicas, id, now :: Report(st', code, replicas, id, now) == Report(st, code, replicas, id, now)
  {
  }

  lemma FailsStillIsFresh(c: Context, known: StatusCode)
    ensures FailsStill(c, known) <==> FreshStatus(c, known).RetryableFailure()
  {
  }

  /** The status when a retry is considered. */
  function Noted(c: Context, st: Status): Status { st.(firstFailureTime := Some(FirstFailure(c, st))) }

  lemma FailureNoted(c: Context, t: Trail)
    ensures NoteFirstFailure(c, t).status == Noted(c, t.status) && NoteFirstFailure(c, t).calls == t.calls
    ensures What(Noted(c, t.status)) == What(t.status)
  {
    assert t.status.firstFailureTime.Some? ==> t.status.(firstFailureTime := t.status.firstFailureTime) == t.status;
  }

  lemma RetryNotMade(c: Context, t: Trail, deployment: string, id: string, known: StatusCode)
    requires t.calls == [] && !Retries(c, t.status, known)
    ensures var step := TryRetry(c, t, id, deployment, known);
      && step.trail == NoteFirstFailure(c, t) && step.trail.calls == [] && step.trail.status == Noted(c, t.status)
      && (step.Go? <==> Late(c, t.status))
      && (step.Stop? ==>
            step.verdict == if Early(c, t.status)
                            then Requeue(t.status.nextRetryTime.value - c.replies.retryTimes.compared)
                            else Requeue(30 * NS_SECOND))
  {
    FailureNoted(c, t);
    FailsStillIsFresh(c, known);
    hide UpdateStatus, FailsStill, FreshStatus, What, ScheduleNextRetry, NoteFirstFailure;
  }

  lemma RetryMade(c: Context, t: Trail, deployment: string, id: string, known: StatusCode)
    requires t.calls == [] && Retries(c, t.status, known)
    ensures var step, t2 := TryRetry(c, t, id, deployment, known),
                            ScheduleNextRetry(c, NoteFirstFailure(c, t).Called(RetryDeployment(deployment)));
      && step.Stop? && step.verdict == Requeue(30 * NS_SECOND)
      && step.trail == if c.replies.retry == Ok(RetryResponse(true))
                       then UpdateStatus(c, t2, Update(Building, Say("retrying deployment"), id)) else t2
  {
    FailureNoted(c, t);
    FailsStillIsFresh(c, known);
    hide UpdateStatus, FailsStill, FreshStatus, What, ScheduleNextRetry, NoteFirstFailure;
  }

  lemma RetryScheduled(c: Context, t: Trail, deployment: string)
    requires t.calls == []
    ensures var t2 := ScheduleNextRetry(c, NoteFirstFailure(c, t).Called(RetryDeployment(deployment)));
      && t2.calls == [RetryDeployment(deployment)]
      && t2.status == t.status.(
           firstFailureTime := Some(FirstFailure(c, t.status)), retryCount := t.status.retryCount + 1,
           nextRetryTime := Some(c.replies.retryTimes.scheduled + WaitFor(t.status.retryCount + 1) + c.replies.jitter))
  {
    FailureNoted(c, t);
    WaitIsInterval(t.status.retryCount + 1);
    hide NoteFirstFailure, Interval, WaitFor, What;
  }

  lemma WritesStoreRetry(c: Context, t: Trail)
    requires RetryStored(t.status, t)
    ensures RetryStored(t.status, NoteFirstFailure(c, t))
    ensures forall t' {:trigger ScheduleNextRetry(c, t')} :: RetryStored(t.status, ScheduleNextRetry(c, t'))
  {
    hide Interval;
  }

  lemma BuildingStoresRetry(c: Context, s: Status, t: Trail, message: Message, id: string)
    requires RetryStored(s, t)
    ensures RetryStored(s, UpdateStatus(c, t, Update(Building, message, id)))
  {
    hide Skipped, Conditions;
  }

  lemma BuildingTold(c: Context, s: Status, t: Trail, id: string)
    requires RetryStored(s, t) && What(t.status) == What(s)
    ensures var t' := UpdateStatus(c, t, Update(Building, Say("retrying deployment"), id));
      && What(t'.status) == Report(s, Building, 0, id, c.replies.now) && t'.calls == t.calls
      && t'.status.firstFailureTime == t.status.firstFailureTime && t'.status.retryCount == t.status.retryCount
      && t'.status.nextRetryTime == t.status.nextRetryTime
      && RetryStored(s, t')
  {
    PlainUpdatesReport(c);
    BuildingKeepsRetry(c);
    BuildingStoresRetry(c, s, t, Say("retrying deployment"), id);
    hide UpdateStatus, RetryStored;
  }

  /** A retry that is made, and what is known of the pass by then. */
  ghost predicate Made(c: Context, s: Status, deployment: string, known: StatusCode, t: Trail) {
    && Retries(c, s, known) && t.calls == [RetryDeployment(deployment)] && What(t.status) == What(s)
    && t.status.firstFailureTime == Some(FirstFailure(c, s)) && t.status.retryCount == s.retryCount + 1
    && t.status.nextRetryTime == Some(c.replies.retryTimes.scheduled + WaitFor(s.retryCount + 1) + c.replies.jitter)
    && RetryStored(s, t)
  }

  lemma ScheduledIsMade(c: Context, t: Trail, deployment: string, known: StatusCode)
    requires t.calls == [] && RetryStored(t.status, t) && Retries(c, t.status, known)
    ensures Made(c, t.status, deployment, known,
                 ScheduleNextRetry(c, NoteFirstFailure(c, t).Called(RetryDeployment(deployment))))
  {
    hide UpdateStatus, WaitFor, Report, ScheduleNextRetry, NoteFirstFailure, RetryStored, FirstFailure, Retries;
    RetryScheduled(c, t, deployment);
    WritesStoreRetry(c, t);
  }

  lemma MadeIsTold(c: Context, s: Status, deployment: string, id: string, known: StatusCode, t: Trail)
    requires Made(c, s, deployment, known, t)
    ensures var t' := if c.replies.retry == Ok(RetryResponse(true))
                      then UpdateStatus(c, t, Update(Building, Say("retrying deployment"), id)) else t;
      RetryTold(c, s, deployment, id, known, Outcome(t', Requeue(30 * NS_SECOND), true))
  {
    assert !Early(c, s);
    hide UpdateStatus, WaitFor, What, Report, Early, Update, Say, RetryStored, FirstFailure, Retries;
    if c.replies.retry == Ok(RetryResponse(true)) {
      BuildingTold(c, s, t, id);
    }
  }

  lemma NotMadeIsTold(c: Context, t: Trail, deployment: string, id: string, known: StatusCode)
    requires t.calls == [] && RetryStored(t.status, t) && !Retries(c, t.status, known) && !Late(c, t.status)
    ensures var step := TryRetry(c, t, id, deployment, known);
      step.Stop? && RetryTold(c, t.status, deployment, id, known, Outcome(step.trail, step.verdict, true))
  {
    RetryNotMade(c, t, deployment, id, known);
    FailureNoted(c, t);
    WritesStoreRetry(c, t);
    hide TryRetry, What, Report, FailsStill, Late, Early, Retries, NoteFirstFailure, RetryStored, FirstFailure;
  }

  lemma RetryAnswers(c: Context, t: Trail, deployment: string, id: string, known: StatusCode)
    requires t.calls == [] && RetryStored(t.status, t)
    ensures var step := TryRetry(c, t, id, deployment, known);
      if Late(c, t.status) then step.Go? && step.trail.calls == [] && step.trail.status == Noted(c, t.status)
      else step.Stop? && step.verdict.Requeue?
           && RetryTold(c, t.status, deployment, id, known, Outcome(step.trail, step.verdict, true))
  {
    if Retries(c, t.status, known) {
      RetryMade(c, t, deployment, id, known);
      ScheduledIsMade(c, t, deployment, known);
      MadeIsTold(c, t.status, deployment, id, known,
                 ScheduleNextRetry(c, NoteFirstFailure(c, t).Called(RetryDeployment(deployment))));
    } else {
      RetryNotMade(c, t, deployment, id, known);
      if !Late(c, t.status) {
        NotMadeIsTold(c, t, deployment, id, known);
      }
    }
    hide TryRetry, What, Report, FailsStill, Early, RetryStored, FirstFailure, NoteFirstFailure, RetryTold, Made,
      ScheduleNextRetry, UpdateStatus;
  }

  lemma BuildingKeepsRetry(c: Context)
    ensures forall t, message, id :: var st := UpdateStatus(c, t, Update(Building, message, id)).status;
      && st.firstFailureTime == t.status.firstFailureTime && st.retryCount == t.status.retryCount
      && st.nextRetryTime == t.status.nextRetryTime
  {
    hide Skipped, Conditions;
  }

  /* ---- a pending promotion of the source ---- */

  /** The report of a candidate of the source. */
  function PendingTold(s: Status, env: Environment, code: StatusCode, id: string, now: Time): Told
    requires env.candidate.Some?
  {
    Report(s, code, env.candidate.value.replicas, id, now).(
      active := Or(NameIn(env.current), s.activeDeploymentName),
      candidateName := Or(env.candidate.value.name, s.candidateDeploymentName))
  }

  /** Where a retry of the candidate is addressed. */
  function CandidateId(s: Status, d: Deployment): string { if d.id != "" then d.id else s.candidateDeploymentID }

  lemma PendingReached(c: Context, st: Status, id: string, source: string, env: Environment)
    requires Reaches(c, st, true, id, source, env) && !Called(env.current, source) && Called(env.candidate, source)
    ensures Reconcile(c, st, true) ==
      var (t, v) := PromotionInProgress(c, AtSource(c, st), id, env); Outcome(t, v, true)
  {
    CalledIsMatched(env.current, source);
    CalledIsMatched(env.candidate, source);
    GetsToDeployments(c, st, true, id, source, env);
    hide Reconcile, PromotionInProgress, Reaches, Called, Matches, AtSource;
  }

  lemma PendingUpdateTells(c: Context, t: Trail, s: Status, id: string, env: Environment)
    requires env.candidate.Some? && What(t.status) == What(s)
    ensures forall t0: Trail, code: StatusCode, message: Message | What(t0.status) == What(s) ::
      var t' := UpdateStatus(c, t, PromotionUpdate(c, t0, id, env).(deploymentStatus := code, message := message));
      What(t'.status) == PendingTold(s, env, code, id, c.replies.now) && t'.calls == t.calls
    ensures PromotionUpdate(c, t, id, env).deploymentStatus == Promoting
  {
    UpdatesTell(c);
    hide UpdateStatus;
  }

  lemma UnfailedCandidate(c: Context, t: Trail, id: string, env: Environment)
    requires env.candidate.Some? && !Failing(env.candidate.value.status) && t.calls == []
    ensures var (t', v), d := PromotionInProgress(c, t, id, env), env.candidate.value;
      && t'.calls == []
      && v == (if d.status == BuildStopped then Fail(OtherError) else Requeue(30 * NS_SECOND))
      && What(t'.status) ==
           PendingTold(t.status, env, if d.status == BuildStopped then BuildStopped else Promoting, id, c.replies.now)
  {
    PendingUpdateTells(c, t, t.status, id, env);
    var su := PromotionUpdate(c, t, id, env);
    assert su == su.(deploymentStatus := Promoting, message := su.message);
    hide UpdateStatus, TryRetry, What, PendingTold, PromotionUpdate;
  }

  lemma FailedCandidate(c: Context, t: Trail, id: string, env: Environment)
    requires env.candidate.Some? && Failing(env.candidate.value.status) && t.calls == [] && RetryStored(t.status, t)
    ensures var (t', v), d := PromotionInProgress(c, t, id, env), env.candidate.value;
      var deployment := CandidateId(t.status, d);
      if deployment != "" && !Late(c, t.status)
      then RetryTold(c, t.status, deployment, id, d.status, Outcome(t', v, true))
      else
        && t'.calls == [] && v == GiveUp
        && What(t'.status) == PendingTold(t.status, env, Promoting, id, c.replies.now)
  {
    var d := env.candidate.value;
    var deployment := CandidateId(t.status, d);
    var su := PromotionUpdate(c, t, id, env);
    PendingUpdateTells(c, t, t.status, id, env);
    assert su == su.(deploymentStatus := Promoting, message := su.message);
    var step := TryRetry(c, t, id, deployment, d.status);
    RetryAnswers(c, t, deployment, id, d.status);
    FailureNoted(c, t);
    if Late(c, t.status) {
      PendingUpdateTells(c, step.trail, t.status, id, env);
    }
    hide UpdateStatus, TryRetry, What, PendingTold, PromotionUpdate, Late, RetryTold, Noted;
  }

  /** A candidate of the source that has not failed is looked at again in half a minute; a stopped
      build is an error; a failure is retried, and given up once it is late, or when it cannot be
      addressed. */
  lemma PendingAnswers(c: Context, st: Status, id: string, source: string, env: Environment)
    requires Reaches(c, st, true, id, source, env) && !Called(env.current, source) && Called(env.candidate, source)
    ensures var o, s, d := Reconcile(c, st, true), Sourced(c, st), env.candidate.value;
      var deployment := CandidateId(s, d);
      if Failing(d.status) && deployment != "" && !Late(c, s) then RetryTold(c, s, deployment, id, d.status, o)
      else
        && o.trail.calls == []
        && o.verdict == (if Failing(d.status) then GiveUp
                         else if d.status == BuildStopped then Fail(OtherError) else Requeue(30 * NS_SECOND))
        && What(o.trail.status) ==
             PendingTold(s, env, if d.status == BuildStopped then BuildStopped else Promoting, id, c.replies.now)
  {
    PendingReached(c, st, id, source, env);
    if Failing(env.candidate.value.status) {
      FailedCandidate(c, AtSource(c, st), id, env);
    } else {
      UnfailedCandidate(c, AtSource(c, st), id, env);
    }
    hide Reconcile, Called, PromotionInProgress, Late, RetryTold, What, PendingTold, Sourced, Reaches, CandidateId;
  }

  /* ---- a source still to be promoted ---- */

  /** A cached candidate that is not the source's is forgotten. */
  function Forgetting(s: Status): Status {
    if s.candidateDeploymentID != "" then s.(candidateDeploymentID := "", candidateDeploymentName := "") else s
  }

  ghost predicate Unpromoted(c: Context, st: Status, id: string, source: string, env: Environment) {
    && Reaches(c, st, true, id, source, env)
    && !Called(env.current, source) && !Called(env.candidate, source)
  }

  function AtPromotion(c: Context, st: Status): Trail {
    AtSource(c, st).(status := Forgetting(Sourced(c, st)))
  }

  lemma UnpromotedReached(c: Context, st: Status, id: string, source: string, env: Environment)
    requires Unpromoted(c, st, id, source, env)
    ensures ForgetCandidate(AtSource(c, st), env, source) == AtPromotion(c, st)
    ensures Reconcile(c, st, true) ==
      var (t, v) := PromoteWhenReady(c, AtSource(c, st), id, source, env); Outcome(t, v, true)
  {
    CalledIsMatched(env.current, source);
    CalledIsMatched(env.candidate, source);
    GetsToDeployments(c, st, true, id, source, env);
    hide Reconcile, PromoteWhenReady, Reaches, Called, Matches, Sourced;
  }

  /** A candidate of another source holds the promotion back for half a minute. */
  lemma ForeignCandidateAnswers(c: Context, st: Status, id: string, source: string, env: Environment)
    requires Unpromoted(c, st, id, source, env) && env.candidate.Some?
    ensures var o, s := Reconcile(c, st, true), Forgetting(Sourced(c, st));
      && o.trail.calls == [] && o.verdict == Requeue(30 * NS_SECOND)
      && What(o.trail.status) == PendingTold(s, env, Promoting, id, c.replies.now).(replicas := 0)
  {
    UnpromotedReached(c, st, id, source, env);
    UpdatesTell(c);
    hide Reconcile, Unpromoted, UpdateStatus, Sourced, ForgetCandidate, ValidateSource, PromoteSource, Conclude;
  }

  /** Nothing stands in the way of the promotion but, perhaps, the source itself. */
  ghost predicate Free(c: Context, st: Status, id: string, source: string, env: Environment) {
    Unpromoted(c, st, id, source, env) && env.candidate.None?
  }

  lemma FreeReached(c: Context, st: Status, id: string, source: string, env: Environment)
    requires Free(c, st, id, source, env)
    ensures var step := ValidateSource(c, AtPromotion(c, st), id, source, env);
      Reconcile(c, st, true) ==
        var (t, v) := if step.Stop? then Conclude(step.trail, step.verdict)
                      else PromoteSource(c, step.trail, id, source, step.value, env);
        Outcome(t, v, true)
  {
    UnpromotedReached(c, st, id, source, env);
    hide Reconcile, Unpromoted, Sourced, ForgetCandidate, ValidateSource, PromoteSource, Conclude, UpdateStatus;
  }

  /** A source that is not there, or cannot be looked up, ends the pass. */
  lemma MissingSource(c: Context, t: Trail, id: string, source: string, env: Environment)
    requires t.calls == [] && id != "" && (c.replies.findSource.Ok? ==> c.replies.findSource.value.id == "")
    ensures var step := ValidateSource(c, t, id, source, env);
      && step.Stop? && step.trail.calls == [] && step.trail.status.modelID == id
      && step.verdict == Fail(if c.replies.findSource.NotFound? then Missing else OtherError)
      && What(step.trail.status) == Report(t.status, Failed, 0, id, c.replies.now)
  {
    PlainUpdatesReport(c);
    hide UpdateStatus, TryRetry, What, Report, Update;
  }

  /** One that neither serves nor fails is activated or waited for. */
  lemma UnreadySource(c: Context, t: Trail, id: string, source: string, env: Environment)
    requires t.calls == [] && c.replies.findSource.Ok? && c.replies.findSource.value.id != ""
    requires !Failing(c.replies.findSource.value.status) && !Serving(c.replies.findSource.value.status)
    ensures var step, found := ValidateSource(c, t, id, source, env), c.replies.findSource.value;
      && step.Stop? && step.verdict == Requeue(30 * NS_SECOND)
      && step.trail.calls == (if found.status == Inactive then [Activate(found.id)] else [])
      && What(step.trail.status) ==
           Report(t.status, if found.status != Inactive then found.status
                            else if c.replies.activateSource.Ok? then Activating else Failed,
                  0, id, c.replies.now)
  {
    PlainUpdatesReport(c);
    var code := if c.replies.findSource.value.status != Inactive then c.replies.findSource.value.status
                else if c.replies.activateSource.Ok? then Activating else Failed;
    var step := ValidateSource(c, t, id, source, env);
    assert exists t0: Trail, message ::
      t0.status == t.status && step.trail == UpdateStatus(c, t0, Update(code, message, id));
    hide UpdateStatus, TryRetry, What, Report, Update;
  }

  /** A source that cannot be looked up, or is not there, is a failure; an inactive one is activated;
      any other that neither serves nor fails is waited for, with its own status reported. */
  lemma WaitingSourceAnswers(c: Context, st: Status, id: string, source: string, env: Environment)
    requires Free(c, st, id, source, env)
    requires c.replies.findSource.Ok? && c.replies.findSource.value.id != "" ==>
      !Failing(c.replies.findSource.value.status) && !Serving(c.replies.findSource.value.status)
    ensures var o, s, now := Reconcile(c, st, true), Forgetting(Sourced(c, st)), c.replies.now;
      match c.replies.findSource
      case NotFound => o.trail.calls == [] && Ends(o, true, Report(s, Failed, 0, id, now))
      case Failure => o.trail.calls == [] && Ends(o, false, Report(s, Failed, 0, id, now))
      case Ok(found) =>
        if found.id == "" then o.trail.calls == [] && Ends(o, false, Report(s, Failed, 0, id, now))
        else
          && o.verdict == Requeue(30 * NS_SECOND)
          && o.trail.calls == (if found.status == Inactive then [Activate(found.id)] else [])
          && What(o.trail.status) ==
               Report(s, if found.status != Inactive then found.status
                         else if c.replies.activateSource.Ok? then Activating else Failed,
                      0, id, now)
  {
    FreeReached(c, st, id, source, env);
    assert id != "";
    var t := AtPromotion(c, st);
    var step := ValidateSource(c, t, id, source, env);
    if c.replies.findSource.Ok? && c.replies.findSource.value.id != "" {
      UnreadySource(c, t, id, source, env);
      assert Conclude(step.trail, step.verdict) == (step.trail, step.verdict);
    } else {
      MissingSource(c, t, id, source, env);
      ConcludeEnds(step.trail, step.verdict, Report(t.status, Failed, 0, id, c.replies.now));
    }
    hide Reconcile, Free, Sourced, PromoteSource, ValidateSource, Conclude, Report, What, Ends, Forgetting;
  }

  /** A source that failed is retried, and given up once it is late. */
  lemma FailedSourceAnswers(c: Context, st: Status, id: string, source: string, env: Environment)
    requires Free(c, st, id, source, env)
    requires c.replies.findSource.Ok? && c.replies.findSource.value.id != ""
        && Failing(c.replies.findSource.value.status)
    ensures var o, s, found := Reconcile(c, st, true), Forgetting(Sourced(c, st)), c.replies.findSource.value;
      if !Late(c, s) then RetryTold(c, s, found.id, id, found.status, o)
      else o.trail.calls == [] && o.verdict == GiveUp
           && What(o.trail.status) == Report(s, found.status, 0, id, c.replies.now)
  {
    FreeReached(c, st, id, source, env);
    PlainUpdatesReport(c);
    var t, found := AtPromotion(c, st), c.replies.findSource.value;
    RetryAnswers(c, t, found.id, id, found.status);
    RetryFieldsUntold(t.status, Some(FirstFailure(c, t.status)), t.status.retryCount, t.status.nextRetryTime);
    hide Reconcile, Free, Sourced, PromoteSource, UpdateStatus, TryRetry, Report, Update, What, RetryTold, Late;
  }

  /** The report of a promotion that went through, and of one that did not. */
  function PromotedTold(s: Status, env: Environment, source: string, sourceID: string, target: Deployment, id: string,
                        now: Time): Told {
    Report(s, StatusCode.Promoting, target.replicas, id, now).(
      sourceID := sourceID, sourceName := Or(source, s.sourceDeploymentName),
      active := Or(NameIn(env.current), s.activeDeploymentName),
      candidateID := Or(target.id, s.candidateDeploymentID),
      candidateName := Or(target.name, s.candidateDeploymentName))
  }

  function UnpromotedTold(s: Status, source: string, sourceID: string, id: string, now: Time): Told {
    Report(s, Failed, 0, id, now).(sourceID := sourceID, sourceName := Or(source, s.sourceDeploymentName))
  }

  /** The announcement, and the two updates that may follow the call. */
  lemma UpdatesPromote(c: Context, t: Trail, s: Status, id: string, source: string, sourceID: string, env: Environment)
    requires What(t.status) == What(s) || What(t.status) == UnpromotedTold(s, source, sourceID, id, c.replies.now)
                                          .(code := PromotingDeployment)
    requires id != "" && sourceID != ""
    ensures forall code, message :: var base := SourceUpdate(env, code, "", id)
        .(message := message, sourceDeploymentID := sourceID, sourceDeploymentName := source);
      && What(UpdateStatus(c, t, base).status) == UnpromotedTold(s, source, sourceID, id, c.replies.now).(code := code)
      && UpdateStatus(c, t, base).status.modelID == id
      && forall target: Deployment :: var su := base.(deploymentStatus := StatusCode.Promoting,
           candidateDeploymentID := target.id, candidateDeploymentName := target.name,
           replicaCount := target.replicas, activeDeploymentName := NameOf(env.current));
         What(UpdateStatus(c, t, su).status) == PromotedTold(s, env, source, sourceID, target, id, c.replies.now)
  {
    UpdatesTell(c);
    hide UpdateStatus;
  }

  /** A new code is never held back from the API server. */
  lemma NewCodeIsWritten(c: Context, t: Trail)
    requires What(t.status).code == PromotingDeployment
    ensures forall su: StatusUpdate | su.deploymentStatus == StatusCode.Promoting ::
      !Skipped(t.status, su, c.generation, c.replies.now)
  {
    hide Conditions;
  }

  lemma PromoteSourceAnswers(c: Context, t: Trail, id: string, source: string, sourceID: string, env: Environment)
    requires t.calls == [] && id != "" && sourceID != ""
    ensures var (t', v) := PromoteSource(c, t, id, source, sourceID, env);
      && t'.calls == [Promote(sourceID)]
      && match c.replies.promote
         case Ok(target) =>
           && What(t'.status) == PromotedTold(t.status, env, source, sourceID, target, id, c.replies.now)
           && v == (if c.replies.promotedWritten then Requeue(30 * NS_SECOND) else Fail(OtherError))
         case _ => Ends(Outcome(t', v, true), c.replies.promote.NotFound?,
                        UnpromotedTold(t.status, source, sourceID, id, c.replies.now))
  {
    PassCalls.UpdatesCallNothing(c);
    var base := SourceUpdate(env, PromotingDeployment, "promoting " + source, id)
      .(sourceDeploymentID := sourceID, sourceDeploymentName := source);
    var announced := UpdateStatus(c, t, base).Called(Promote(sourceID));
    UpdatesPromote(c, t, t.status, id, source, sourceID, env);
    assert base == SourceUpdate(env, PromotingDeployment, "", id)
      .(message := base.message, sourceDeploymentID := sourceID, sourceDeploymentName := source);
    UpdatesPromote(c, announced, t.status, id, source, sourceID, env);
    if c.replies.promote.Ok? {
      NewCodeIsWritten(c, announced);
    } else {
      var failed := base.(deploymentStatus := Failed, message := Note("promotion failed " + source, env.current, None));
      assert failed == SourceUpdate(env, Failed, "", id)
        .(message := failed.message, sourceDeploymentID := sourceID, sourceDeploymentName := source);
      ConcludeEnds(UpdateStatus(c, announced, failed), Fail(ErrorOf(c.replies.promote)),
                   UnpromotedTold(t.status, source, sourceID, id, c.replies.now));
    }
    hide UpdateStatus, Skipped, UnpromotedTold, PromotedTold, What, Ends, Conclude;
  }

  lemma ServingSource(c: Context, t: Trail, id: string, source: string, env: Environment)
    requires c.replies.findSource.Ok? && c.replies.findSource.value.id != ""
        && Serving(c.replies.findSource.value.status)
    ensures ValidateSource(c, t, id, source, env) == Go(t, c.replies.findSource.value.id)
  {
    hide UpdateStatus, TryRetry;
  }

  /** A promotion: the source that serves is promoted, and the status tells of the deployment that
      came of it, under its own id and name; if the call fails the candidate stays as it was. */
  lemma PromotionAnswers(c: Context, st: Status, id: string, source: string, env: Environment)
    requires Free(c, st, id, source, env)
    requires c.replies.findSource.Ok? && c.replies.findSource.value.id != ""
        && Serving(c.replies.findSource.value.status)
    ensures var o, s, found := Reconcile(c, st, true), Forgetting(Sourced(c, st)), c.replies.findSource.value;
      && o.trail.calls == [Promote(found.id)]
      && match c.replies.promote
         case Ok(target) =>
           && What(o.trail.status) == PromotedTold(s, env, source, found.id, target, id, c.replies.now)
           && o.verdict == (if c.replies.promotedWritten then Requeue(30 * NS_SECOND) else Fail(OtherError))
         case _ => Ends(o, c.replies.promote.NotFound?, UnpromotedTold(s, source, found.id, id, c.replies.now))
  {
    FreeReached(c, st, id, source, env);
    assert id != "";
    ServingSource(c, AtPromotion(c, st), id, source, env);
    PromoteSourceAnswers(c, AtPromotion(c, st), id, source, c.replies.findSource.value.id, env);
    hide Reconcile, Free, Sourced, PromoteSource, ValidateSource, Conclude, UnpromotedTold, PromotedTold, What, Ends,
      Forgetting;
  }
}
