/** How passes end: when one is the last, and when the next one comes. */
module Verdicts {
  import opened Types
  import opened Baseten
  import opened Model
  import opened Steps
  import opened Facts
  import opened Paths
  import opened Answers
  import opened StageAnswers

  /* ---- every pass is one of those answered ---- */

  /** On the way to the environment nothing can happen but what is answered there. */
  lemma WayToEnvironment(c: Context, st: Status) returns (id: string, source: string)
    requires Acts(c, true)
    ensures || (forall i :: !ModelStage(c, st, i))
            || (ModelStage(c, st, id) && c.spec.truss.Some?
                && (Unbuilt(c, st, id)
                    || (c.replies.setupScript.Some? ==> id != "" && !IsPushed(c, st) && !c.replies.findBuilt.Ok?)))
            || AtEnvironment(c, st, true, id, source)
  {
    id, source := "", "";
    if i :| ModelStage(c, st, i) {
      id := i;
      if c.spec.truss.None? {
        source := c.spec.sourceDeploymentName;
      } else if c.replies.setupScript.Some? && id != "" {
        source := if IsPushed(c, st) then st.sourceDeploymentName else NameFor(c);
      }
    }
    hide NameFor, HashOf;
  }

  /* ---- giving up ---- */

  /** In this environment a failure of the source's candidate, or of the source itself, is beyond
      retrying: two hours have passed since the first failure, or the candidate has no id. */
  ghost predicate Hopeless(c: Context, st: Status, source: string, env: Environment) {
    && !Called(env.current, source)
    && if env.candidate.Some? then
         && Called(env.candidate, source) && Failing(env.candidate.value.status)
         && (Late(c, st) || (env.candidate.value.id == "" && st.candidateDeploymentID == ""))
       else
         && c.replies.findSource.Ok? && c.replies.findSource.value.id != ""
         && Failing(c.replies.findSource.value.status) && Late(c, st)
  }

  ghost predicate GivesUp(c: Context, st: Status) {
    exists id, source, env :: Reaches(c, st, true, id, source, env) && Hopeless(c, st, source, env)
  }

  /** What a pass reads decides what it gets to. */
  lemma ReachesOne(c: Context, st: Status, id: string, source: string, env: Environment)
    requires Reaches(c, st, true, id, source, env)
    ensures forall i, s, e :: Reaches(c, st, true, i, s, e) ==> s == source && e == env
  {
    hide Settled, NameFor, HashOf;
  }

  /** How an acting pass may end: with another one to come, with an error, or with its failure given up. */
  ghost predicate EndsWell(c: Context, st: Status, v: Verdict) {
    && (v.Requeue? ==> v.after > 0)
    && v != Quiet
    && (v == GiveUp <==> GivesUp(c, st))
  }

  lemma SourcedKeepsRetry(c: Context, st: Status)
    ensures var s := Sourced(c, st);
      && s.firstFailureTime == st.firstFailureTime && s.nextRetryTime == st.nextRetryTime
      && s.candidateDeploymentID == st.candidateDeploymentID
      && (Late(c, s) <==> Late(c, st)) && (Late(c, Forgetting(s)) <==> Late(c, st))
  {
    hide NameFor, HashOf;
  }

  lemma EarlyEndsWell(c: Context, st: Status, id: string)
    requires Acts(c, true)
    requires || (forall i :: !ModelStage(c, st, i))
             || (ModelStage(c, st, id) && c.spec.truss.Some?
                 && (Unbuilt(c, st, id)
                     || (c.replies.setupScript.Some? ==> id != "" && !IsPushed(c, st) && !c.replies.findBuilt.Ok?)))
    ensures EndsWell(c, st, Reconcile(c, st, true).verdict)
  {
    NeverThere(c, st, id);
    if forall i :: !ModelStage(c, st, i) {
      ModelAnswers(c, st);
    } else if Unbuilt(c, st, id) {
      PushAnswers(c, st, id);
    } else {
      LookupAnswers(c, st, id);
    }
    hide Reconcile, GivesUp, What, Report, NameFor, HashOf, ModelStage, Unbuilt;
  }

  lemma NeverThere(c: Context, st: Status, id: string)
    requires || (forall i :: !ModelStage(c, st, i))
             || (ModelStage(c, st, id) && c.spec.truss.Some?
                 && (Unbuilt(c, st, id)
                     || (c.replies.setupScript.Some? ==> id != "" && !IsPushed(c, st) && !c.replies.findBuilt.Ok?)))
    ensures !GivesUp(c, st)
  {
    hide NameFor, HashOf, Settled, Hopeless;
    forall i, source, env ensures !Reaches(c, st, true, i, source, env) {
      assert Knows(c, st, i) ==> ModelStage(c, st, i);
    }
  }

  lemma UnsettledEndsWell(c: Context, st: Status, id: string, source: string)
    requires AtEnvironment(c, st, true, id, source)
    requires forall env :: c.replies.environment == Ok(env) ==> !Settled(c, env)
    ensures EndsWell(c, st, Reconcile(c, st, true).verdict)
  {
    assert !GivesUp(c, st) by { hide Settled, Hopeless, WorksOn; }
    hide Reconcile, GivesUp, What, Report, Settled, PatchCalls, PatchFails, Sourced, AtEnvironment;
    if c.replies.environment.Ok? && !Unreadable(c.spec.environment, c.replies.environment.value) {
      CorrectionAnswers(c, st, id, source, c.replies.environment.value);
    } else {
      EnvironmentAnswers(c, st, id, source);
    }
  }

  lemma ReachedEndsWell(c: Context, st: Status, id: string, source: string, env: Environment)
    requires Reaches(c, st, true, id, source, env)
    ensures EndsWell(c, st, Reconcile(c, st, true).verdict)
  {
    ReachesOne(c, st, id, source, env);
    assert GivesUp(c, st) <==> Hopeless(c, st, source, env) by { hide Reaches, Hopeless; }
    SourcedKeepsRetry(c, st);
    hide Reconcile, Reaches, GivesUp, What, Report, Sourced, Late, Called, Forgetting, PendingTold, PromotedTold,
      UnpromotedTold, SteadyTold, Retries;
    if Called(env.current, source) {
      if env.current.value.status == Inactive {
        ReactivateAnswers(c, st, id, source, env);
      } else {
        SteadyAnswers(c, st, id, source, env);
      }
    } else if Called(env.candidate, source) {
      PendingAnswers(c, st, id, source, env);
    } else if env.candidate.Some? {
      ForeignCandidateAnswers(c, st, id, source, env);
    } else {
      FreeEndsWell(c, st, id, source, env);
    }
  }

  lemma FreeEndsWell(c: Context, st: Status, id: string, source: string, env: Environment)
    requires Free(c, st, id, source, env)
    ensures var v := Reconcile(c, st, true).verdict;
      && (v.Requeue? ==> v.after > 0) && v != Quiet
      && (v == GiveUp <==> Hopeless(c, st, source, env))
  {
    SourcedKeepsRetry(c, st);
    hide Reconcile, Reaches, What, Report, Sourced, Late, Called, Forgetting, PromotedTold, UnpromotedTold, Retries;
    if c.replies.findSource.Ok? && c.replies.findSource.value.id != "" && Failing(c.replies.findSource.value.status) {
      FailedSourceAnswers(c, st, id, source, env);
    } else if c.replies.findSource.Ok? && c.replies.findSource.value.id != ""
              && Serving(c.replies.findSource.value.status) {
      PromotionAnswers(c, st, id, source, env);
    } else {
      WaitingSourceAnswers(c, st, id, source, env);
    }
  }

  lemma ActingEndsWell(c: Context, st: Status)
    requires Acts(c, true)
    ensures EndsWell(c, st, Reconcile(c, st, true).verdict)
  {
    var id, source := WayToEnvironment(c, st);
    hide Reconcile, EndsWell, Settled, WorksOn, ModelStage, Unbuilt, IsPushed;
    if AtEnvironment(c, st, true, id, source) {
      if c.replies.environment.Ok? && Settled(c, c.replies.environment.value) {
        ReachedEndsWell(c, st, id, source, c.replies.environment.value);
      } else {
        UnsettledEndsWell(c, st, id, source);
      }
    } else {
      EarlyEndsWell(c, st, id);
    }
  }

  /* ---- all passes ---- */

  /** The object is on its way out or paused, or has just been given the finalizer. */
  predicate Dismissed(c: Context, st: Status, finalizer: bool) {
    if c.deleting then
      !finalizer || (!(Owed(c, st, finalizer) && (!Allowed(c) || c.replies.deleteModel.Failure?))
                     && c.replies.metaWrite in {MetaWritten, MetaNotFound})
    else Pauses(c.spec) || (!finalizer && c.replies.metaWrite in {MetaWritten, MetaConflict})
  }

  lemma ObservingEndsWell(c: Context, st: Status)
    requires !c.deleting && Observes(c.spec)
    ensures Reconcile(c, st, true).verdict in {Requeue(30 * NS_SECOND), Fail(OtherError)}
  {
    hide Reconcile, What, Report, NameFor, HashOf, ToldObserved, Called, Settled;
    var found := if c.replies.findModel.Ok? then c.replies.findModel.value else "";
    var id := if st.modelID != "" then st.modelID else found;
    if id != "" && c.replies.environment.Ok? && (c.spec.sourceDeploymentName != "" || HasConfig(c)) {
      var source := if c.spec.sourceDeploymentName != "" then c.spec.sourceDeploymentName else NameFor(c);
      ObserveAnswers(c, st, id, source, c.replies.environment.value);
    } else {
      ObserveFails(c, st, id);
    }
  }

  /** The end of every pass: none is asked for only when the object is deleted or paused, or its
      finalizer has just been written; a failure is given up exactly when it is beyond retrying; and
      whenever a next pass is asked for, it is asked for later. */
  lemma EveryPassEnds(c: Context, st: Status, finalizer: bool)
    ensures var v := Reconcile(c, st, finalizer).verdict;
      && (v == Quiet <==> Dismissed(c, st, finalizer))
      && (v == GiveUp <==> !c.deleting && finalizer && Reconciles(c.spec) && GivesUp(c, st))
      && (v.Requeue? ==> v.after > 0)
  {
    hide Reconcile, GivesUp, What, Report, Allowed;
    if c.deleting {
      DeletionAnswers(c, st, finalizer);
    } else if Pauses(c.spec) || !finalizer {
      PreludeAnswers(c, st, finalizer);
    } else if Observes(c.spec) {
      ObservingEndsWell(c, st);
    } else {
      assert Acts(c, true) by { ModesAreFour(c.spec); }
      ActingEndsWell(c, st);
    }
  }

  lemma ModesAreFour(spec: Spec)
    ensures Pauses(spec) || Observes(spec) || Reconciles(spec)
  {
  }
}
