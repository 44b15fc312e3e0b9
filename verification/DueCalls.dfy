/** Every mutating call of a pass, and exactly when it is made, in terms of what the pass reads. */
module DueCalls {
  import opened Types
  import opened Drift
  import opened Baseten
  import opened Model
  import opened Steps
  import opened Facts
  import opened Paths
  import opened Answers
  import opened StageAnswers
  import opened Verdicts
  import PassCalls

  /** A deployment is retried: the source's candidate, under its id or else the cached one, or the
      source itself while nothing is pending. */
  predicate RetryDue(c: Context, st: Status, env: Environment, deployment: string) {
    && deployment != ""
    && if env.candidate.Some? then
         && deployment == CandidateId(st, env.candidate.value) && Failing(env.candidate.value.status)
         && Retries(c, st, env.candidate.value.status)
       else
         && c.replies.findSource.Ok? && c.replies.findSource.value.id == deployment
         && Failing(c.replies.findSource.value.status) && Retries(c, st, c.replies.findSource.value.status)
  }

  /** What is due once a pass has come to the deployments of the environment; sweeping also needs the
      report of the steady state to have gone through. */
  ghost predicate DueThere(c: Context, st: Status, source: string, env: Environment, call: Call) {
    var current := Called(env.current, source);
    match call
    case Activate(id) =>
      if current then env.current.value.status == Inactive && id == env.current.value.id
      else env.candidate.None? && id != "" && c.replies.findSource == Ok(Found(id, Inactive))
    case RetryDeployment(id) =>
      !current && (env.candidate.Some? ==> Called(env.candidate, source)) && RetryDue(c, st, env, id)
    case Promote(id) =>
      && !current && env.candidate.None? && id != ""
      && (c.replies.findSource == Ok(Found(id, Active)) || c.replies.findSource == Ok(Found(id, ScaledToZero)))
    case ScaleIn(id) => SweepDue(c, st, source, env) && id in c.replies.sweep.scaledIn
    case DeleteDeployment(id) => SweepDue(c, st, source, env) && id in c.replies.sweep.deleted
    case _ => false
  }

  ghost predicate SweepDue(c: Context, st: Status, source: string, env: Environment) {
    && Called(env.current, source) && env.current.value.status != Inactive && Sweeps(c, st)
    && Reconcile(c, st, true).verdict.Requeue?
  }

  /** What is due on the way there. */
  ghost predicate DueBefore(c: Context, st: Status, call: Call) {
    match call
    case Push(name, createsModel) =>
      && c.spec.truss.Some? && Pushes(c, st) && c.replies.pushSlotFree && name == NameFor(c)
      && exists id :: ModelStage(c, st, id) && Unbuilt(c, st, id) && (createsModel <==> id == "")
    case CreateEnvironment =>
      c.replies.environment.NotFound? && exists id, source :: AtEnvironment(c, st, true, id, source)
    case UpdateSettings(autoscaling, promotion) =>
      && (exists id, source :: AtEnvironment(c, st, true, id, source))
      && c.replies.environment.Ok?
      && var spec, env := c.spec.environment, c.replies.environment.value;
         && !Unreadable(spec, env) && (autoscaling || promotion)
         && (autoscaling <==> OffBaseline(spec, env)) && (promotion <==> OffPromotion(spec.promotion, env.promotion))
    case UpdateSchedules =>
      && (exists id, source :: AtEnvironment(c, st, true, id, source))
      && c.replies.environment.Ok?
      && var spec, env := c.spec.environment, c.replies.environment.value;
         && !Unreadable(spec, env) && OffSchedule(spec, env, c.replies.now)
         && (OffBaseline(spec, env) || OffPromotion(spec.promotion, env.promotion) ==> c.replies.updateSettings.Ok?)
    case _ => false
  }

  ghost predicate Due(c: Context, st: Status, finalizer: bool, call: Call) {
    if call.DeleteModel? then
      c.deleting && Owed(c, st, finalizer) && Allowed(c) && call.modelID == st.modelID
    else
      && Acts(c, finalizer)
      && (DueBefore(c, st, call)
          || exists id, source, env :: Reaches(c, st, true, id, source, env) && DueThere(c, st, source, env, call))
  }

  /* ---- stage by stage ---- */

  lemma NothingThere(c: Context, st: Status)
    requires forall i, source :: !AtEnvironment(c, st, true, i, source)
    requires forall i, source, env :: !Reaches(c, st, true, i, source, env)
    ensures forall call: Call :: Due(c, st, true, call) ==> call.Push? || c.deleting
    ensures forall call: Call :: call.Push? ==> (Due(c, st, true, call) <==> Acts(c, true) && DueBefore(c, st, call))
  {
    hide Reaches, AtEnvironment, DueThere, OffBaseline, OffPromotion, OffSchedule, ModelStage, Unbuilt, Pushes;
  }

  lemma NoPushWithout(c: Context, st: Status, id: string)
    requires || (forall i :: !ModelStage(c, st, i))
             || (ModelStage(c, st, id) && !Unbuilt(c, st, id))
    ensures forall name, createsModel :: !DueBefore(c, st, Push(name, createsModel))
  {
    if ModelStage(c, st, id) {
      OneModel(c, st, id);
    }
    hide ModelStage, Unbuilt, Pushes, NameFor;
  }

  lemma PushDueBefore(c: Context, st: Status, id: string)
    requires ModelStage(c, st, id) && Unbuilt(c, st, id) && c.spec.truss.Some?
    ensures forall name, createsModel :: DueBefore(c, st, Push(name, createsModel)) <==>
      Pushes(c, st) && c.replies.pushSlotFree && name == NameFor(c) && (createsModel <==> id == "")
  {
    OneModel(c, st, id);
    assert HasConfig(c);
    hide ModelStage, Unbuilt, Pushes, NameFor;
  }

  lemma UnbuiltDue(c: Context, st: Status, id: string)
    requires Acts(c, true) && ModelStage(c, st, id) && c.spec.truss.Some? && Unbuilt(c, st, id)
    ensures forall call: Call :: call in Reconcile(c, st, true).trail.calls <==> Due(c, st, true, call)
  {
    NotOnTheWay(c, st, id);
    NothingThere(c, st);
    PushDueBefore(c, st, id);
    PushAnswers(c, st, id);
    assert HasConfig(c);
    hide Reconcile, What, Report, NameFor, HashOf, ModelStage, Unbuilt, Reaches, AtEnvironment, InFlight, Held, Due,
      DueBefore, Pushes;
  }

  lemma EarlyDue(c: Context, st: Status, id: string)
    requires Acts(c, true)
    requires || (forall i :: !ModelStage(c, st, i))
             || (ModelStage(c, st, id) && c.spec.truss.Some?
                 && (Unbuilt(c, st, id)
                     || (c.replies.setupScript.Some? ==> id != "" && !IsPushed(c, st) && !c.replies.findBuilt.Ok?)))
    ensures forall call: Call :: call in Reconcile(c, st, true).trail.calls <==> Due(c, st, true, call)
  {
    hide Reconcile, What, Report, NameFor, HashOf, ModelStage, Reaches, AtEnvironment, Due, DueBefore, Pushes, Ends;
    if exists i :: ModelStage(c, st, i) {
      if Unbuilt(c, st, id) {
        UnbuiltDue(c, st, id);
        return;
      }
      LookupAnswers(c, st, id);
    } else {
      ModelAnswers(c, st);
    }
    NotOnTheWay(c, st, id);
    NothingThere(c, st);
    NoPushWithout(c, st, id);
  }

  lemma OneModel(c: Context, st: Status, id: string)
    requires ModelStage(c, st, id)
    ensures forall i :: ModelStage(c, st, i) ==> i == id
  {
  }

  lemma NotOnTheWay(c: Context, st: Status, id: string)
    requires || (forall i :: !ModelStage(c, st, i))
             || (ModelStage(c, st, id) && c.spec.truss.Some?
                 && (Unbuilt(c, st, id)
                     || (c.replies.setupScript.Some? ==> id != "" && !IsPushed(c, st) && !c.replies.findBuilt.Ok?)))
    ensures forall i, source :: !AtEnvironment(c, st, true, i, source)
    ensures forall i, source, env :: !Reaches(c, st, true, i, source, env)
  {
    hide NameFor, HashOf, Settled;
    forall i, source ensures !AtEnvironment(c, st, true, i, source) {
      assert Knows(c, st, i) ==> ModelStage(c, st, i);
    }
    forall i, source, env ensures !Reaches(c, st, true, i, source, env) {
      assert Reaches(c, st, true, i, source, env) ==> AtEnvironment(c, st, true, i, source);
    }
  }

  lemma NoPushThere(c: Context, st: Status, id: string, source: string)
    requires AtEnvironment(c, st, true, id, source)
    ensures forall name, createsModel :: !DueBefore(c, st, Push(name, createsModel))
  {
    hide NameFor, HashOf, Pushes;
    forall i ensures !(c.spec.truss.Some? && ModelStage(c, st, i) && Unbuilt(c, st, i)) {
    }
  }

  lemma DueAtEnvironment(c: Context, st: Status, id: string, source: string)
    requires AtEnvironment(c, st, true, id, source)
    requires forall env :: c.replies.environment == Ok(env) ==> !Settled(c, env)
    ensures forall call: Call :: Due(c, st, true, call) <==>
      if c.replies.environment.NotFound? then call == CreateEnvironment
      else
        && c.replies.environment.Ok? && !Unreadable(c.spec.environment, c.replies.environment.value)
        && (call.UpdateSettings? || call.UpdateSchedules?) && DueBefore(c, st, call)
  {
    NoPushThere(c, st, id, source);
    assert Acts(c, true);
    assert forall i, s, e :: !Reaches(c, st, true, i, s, e) by { hide Settled, WorksOn; }
    hide Settled, AtEnvironment, Reaches, DueThere, Pushes, ModelStage, Unbuilt, OffBaseline, OffPromotion, OffSchedule,
      Unreadable;
  }

  lemma CorrectionDue(c: Context, st: Status, id: string, source: string, env: Environment, calls: seq<Call>)
    requires AtEnvironment(c, st, true, id, source) && c.replies.environment == Ok(env)
    requires !Unreadable(c.spec.environment, env) && PatchCalls(c, env, calls)
    ensures forall call: Call ::
      call in calls <==> (call.UpdateSettings? || call.UpdateSchedules?) && DueBefore(c, st, call)
  {
    hide AtEnvironment, Pushes, ModelStage, Unbuilt, OffBaseline, OffPromotion, OffSchedule, Unreadable;
  }

  lemma UnsettledDue(c: Context, st: Status, id: string, source: string)
    requires AtEnvironment(c, st, true, id, source)
    requires forall env :: c.replies.environment == Ok(env) ==> !Settled(c, env)
    ensures forall call: Call :: call in Reconcile(c, st, true).trail.calls <==> Due(c, st, true, call)
  {
    DueAtEnvironment(c, st, id, source);
    hide Reconcile, What, Report, Settled, Sourced, AtEnvironment, PatchFails, PatchCalls, Due, DueBefore, Ends;
    if c.replies.environment.Ok? && !Unreadable(c.spec.environment, c.replies.environment.value) {
      CorrectionAnswers(c, st, id, source, c.replies.environment.value);
      CorrectionDue(c, st, id, source, c.replies.environment.value, Reconcile(c, st, true).trail.calls);
    } else {
      EnvironmentAnswers(c, st, id, source);
    }
  }

  lemma SettledDueBefore(c: Context, st: Status, id: string, source: string, env: Environment)
    requires Reaches(c, st, true, id, source, env)
    ensures forall call: Call :: !DueBefore(c, st, call)
  {
    assert AtEnvironment(c, st, true, id, source) by { hide Settled, WorksOn; }
    NoPushThere(c, st, id, source);
    hide WorksOn, OffBaseline, OffPromotion, OffSchedule, Pushes, ModelStage, Unbuilt, NameFor;
  }

  lemma SweepCallsAre(calls: seq<Call>, sweep: Sweep)
    requires SweepCalls(calls, sweep)
    ensures forall call: Call :: call in calls <==>
      || (call.ScaleIn? && call.id in sweep.scaledIn) || (call.DeleteDeployment? && call.id in sweep.deleted)
  {
    var n := |sweep.scaledIn|;
    forall call: Call ensures call in calls <==>
      || (call.ScaleIn? && call.id in sweep.scaledIn) || (call.DeleteDeployment? && call.id in sweep.deleted)
    {
      if call in calls {
        var i :| 0 <= i < |calls| && calls[i] == call;
        if i >= n { assert calls[n + (i - n)] == DeleteDeployment(sweep.deleted[i - n]); }
      }
      if call.ScaleIn? && call.id in sweep.scaledIn {
        var i :| 0 <= i < n && sweep.scaledIn[i] == call.id;
        assert calls[i] == call;
      }
      if call.DeleteDeployment? && call.id in sweep.deleted {
        var i :| 0 <= i < |sweep.deleted| && sweep.deleted[i] == call.id;
        assert calls[n + i] == call;
      }
    }
  }

  lemma InactiveDue(c: Context, st: Status, id: string, source: string, env: Environment)
    requires Reaches(c, st, true, id, source, env) && Called(env.current, source)
    requires env.current.value.status == Inactive
    ensures forall call: Call :: call in Reconcile(c, st, true).trail.calls <==> DueThere(c, st, source, env, call)
  {
    ReactivateAnswers(c, st, id, source, env);
    hide Reconcile, Reaches, What, Report, Sourced, Called, Retries, Sweeps, RetryDue, Ends;
  }

  lemma SweptWhenDue(c: Context, st: Status, id: string, source: string, env: Environment)
    requires Reaches(c, st, true, id, source, env) && Called(env.current, source)
    requires env.current.value.status != Inactive
    ensures var calls := Reconcile(c, st, true).trail.calls;
      if SweepDue(c, st, source, env) then SweepCalls(calls, c.replies.sweep) else calls == []
  {
    SteadyAnswers(c, st, id, source, env);
    hide Reconcile, Reaches, What, Report, Sourced, Called, SteadyTold, Sweeps, SweepCalls;
  }

  lemma DueInSteady(c: Context, st: Status, source: string, env: Environment, call: Call)
    requires Called(env.current, source) && env.current.value.status != Inactive
    ensures DueThere(c, st, source, env, call) <==>
      && SweepDue(c, st, source, env)
      && (|| (call.ScaleIn? && call.id in c.replies.sweep.scaledIn)
          || (call.DeleteDeployment? && call.id in c.replies.sweep.deleted))
  {
    hide Called, SweepDue, RetryDue;
  }

  lemma SteadyDue(c: Context, st: Status, id: string, source: string, env: Environment)
    requires Reaches(c, st, true, id, source, env) && Called(env.current, source)
    requires env.current.value.status != Inactive
    ensures forall call: Call :: call in Reconcile(c, st, true).trail.calls <==> DueThere(c, st, source, env, call)
  {
    SweptWhenDue(c, st, id, source, env);
    forall call: Call ensures call in Reconcile(c, st, true).trail.calls <==> DueThere(c, st, source, env, call) {
      DueInSteady(c, st, source, env, call);
      hide Reconcile, Reaches, Called, SweepCalls, SweepDue, DueThere;
      if SweepDue(c, st, source, env) {
        SweepCallsAre(Reconcile(c, st, true).trail.calls, c.replies.sweep);
      }
    }
  }

  lemma CurrentDue(c: Context, st: Status, id: string, source: string, env: Environment)
    requires Reaches(c, st, true, id, source, env) && Called(env.current, source)
    ensures forall call: Call :: call in Reconcile(c, st, true).trail.calls <==> DueThere(c, st, source, env, call)
  {
    assert env.current.Some?;
    hide Reconcile, Reaches, Called, DueThere;
    if env.current.value.status == Inactive {
      InactiveDue(c, st, id, source, env);
    } else {
      SteadyDue(c, st, id, source, env);
    }
  }

  lemma RetriesAlike(c: Context, st: Status)
    ensures var s := Sourced(c, st); forall known ::
      && (Retries(c, s, known) <==> Retries(c, st, known))
      && (Retries(c, Forgetting(s), known) <==> Retries(c, st, known))
      && (Retries(c, st, known) ==> !Late(c, st))
    ensures forall d :: CandidateId(Sourced(c, st), d) == CandidateId(st, d)
  {
    SourcedKeepsRetry(c, st);
    hide NameFor, HashOf, FailsStill;
  }

  lemma CandidateDue(c: Context, st: Status, id: string, source: string, env: Environment)
    requires Reaches(c, st, true, id, source, env) && !Called(env.current, source) && env.candidate.Some?
    ensures forall call: Call :: call in Reconcile(c, st, true).trail.calls <==> DueThere(c, st, source, env, call)
  {
    SourcedKeepsRetry(c, st);
    RetriesAlike(c, st);
    hide Reconcile, Reaches, What, Report, Sourced, Called, Retries, Sweeps, Late, Forgetting, PendingTold, CandidateId;
    if Called(env.candidate, source) {
      PendingAnswers(c, st, id, source, env);
    } else {
      ForeignCandidateAnswers(c, st, id, source, env);
    }
  }

  lemma FreeDue(c: Context, st: Status, id: string, source: string, env: Environment)
    requires Free(c, st, id, source, env)
    ensures forall call: Call :: call in Reconcile(c, st, true).trail.calls <==> DueThere(c, st, source, env, call)
  {
    SourcedKeepsRetry(c, st);
    RetriesAlike(c, st);
    hide Reconcile, Reaches, What, Report, Sourced, Called, Retries, Sweeps, Late, Forgetting, PromotedTold,
      UnpromotedTold, CandidateId;
    if c.replies.findSource.Ok? && c.replies.findSource.value.id != "" && Failing(c.replies.findSource.value.status) {
      FailedSourceAnswers(c, st, id, source, env);
    } else if c.replies.findSource.Ok? && c.replies.findSource.value.id != ""
              && Serving(c.replies.findSource.value.status) {
      PromotionAnswers(c, st, id, source, env);
    } else {
      WaitingSourceAnswers(c, st, id, source, env);
    }
  }

  lemma ReachedDue(c: Context, st: Status, id: string, source: string, env: Environment)
    requires Reaches(c, st, true, id, source, env)
    ensures forall call: Call :: call in Reconcile(c, st, true).trail.calls <==> Due(c, st, true, call)
  {
    ReachesOne(c, st, id, source, env);
    SettledDueBefore(c, st, id, source, env);
    NoDeletionThere(c, st, source, env);
    assert Acts(c, true) by { hide Settled, WorksOn; }
    hide Reconcile, Reaches, DueThere, DueBefore, Called;
    if Called(env.current, source) {
      CurrentDue(c, st, id, source, env);
    } else if env.candidate.Some? {
      CandidateDue(c, st, id, source, env);
    } else {
      assert Free(c, st, id, source, env) by { NoCandidate(source); }
      FreeDue(c, st, id, source, env);
    }
  }

  lemma NoDeletionThere(c: Context, st: Status, source: string, env: Environment)
    ensures forall modelID :: !DueThere(c, st, source, env, DeleteModel(modelID))
  {
  }

  lemma NoCandidate(source: string)
    ensures !Called(None, source)
  {
  }

  lemma ActingDue(c: Context, st: Status)
    requires Acts(c, true)
    ensures forall call: Call :: call in Reconcile(c, st, true).trail.calls <==> Due(c, st, true, call)
  {
    var id, source := WayToEnvironment(c, st);
    hide Reconcile, Due, Settled, WorksOn, ModelStage, Unbuilt, IsPushed;
    if AtEnvironment(c, st, true, id, source) {
      if c.replies.environment.Ok? && Settled(c, c.replies.environment.value) {
        ReachedDue(c, st, id, source, c.replies.environment.value);
      } else {
        UnsettledDue(c, st, id, source);
      }
    } else {
      EarlyDue(c, st, id);
    }
  }

  /** A pass makes a mutating call if and only if it is due. */
  lemma CallsExactlyWhenDue(c: Context, st: Status, finalizer: bool, call: Call)
    ensures call in Reconcile(c, st, finalizer).trail.calls <==> Due(c, st, finalizer, call)
  {
    hide Reconcile, What, Report, Allowed, Owed, DueBefore, DueThere, Reaches;
    if c.deleting {
      DeletionAnswers(c, st, finalizer);
    } else if Acts(c, finalizer) {
      ActingDue(c, st);
    } else {
      NotActing(c, st, finalizer);
    }
  }

  lemma NotActing(c: Context, st: Status, finalizer: bool)
    requires !c.deleting && !Acts(c, finalizer)
    ensures Reconcile(c, st, finalizer).trail.calls == []
  {
    PassCalls.EveryCallIsExplained(c, st, finalizer);
    hide Reconcile;
  }

  /** A retry is never made on a status that has changed: if the fresh look gave one, it is a failure
      that can be retried, and if not, the status the pass had read is one. */
  lemma RetriesOnlyFailures(c: Context, st: Status, finalizer: bool, deployment: string)
    requires RetryDeployment(deployment) in Reconcile(c, st, finalizer).trail.calls
    ensures c.replies.findFresh.Ok? && c.replies.findFresh.value.status != Blank ==>
      c.replies.findFresh.value.status in {Failed, DeployFailed, BuildFailed}
    ensures !(c.replies.findFresh.Ok? && c.replies.findFresh.value.status != Blank) ==>
      && c.replies.environment.Ok?
      && if c.replies.environment.value.candidate.Some?
         then c.replies.environment.value.candidate.value.status in {Failed, DeployFailed, BuildFailed}
         else c.replies.findSource.Ok? && c.replies.findSource.value.status in {Failed, DeployFailed, BuildFailed}
  {
    CallsExactlyWhenDue(c, st, finalizer, RetryDeployment(deployment));
    hide Reconcile, Settled, WorksOn, Called, Late, Early;
  }
}
