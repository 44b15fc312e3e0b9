/** What the messages of a pass show of the environment, and what its conditions are stamped with. */
module Messages {
  import opened Types
  import opened Baseten
  import opened Model
  import opened StatusUpdates
  import opened Steps
  import opened Facts
  import opened Paths
  import opened Answers
  import opened StageAnswers

  /** A message about these deployments: the one that serves, and the one that is to. */
  predicate Shows(m: Message, active: Option<Deployment>, shown: Option<Deployment>) {
    m.Note? && m.active == active && m.shown == shown
  }

  /** The old message, or one about no deployment in particular, as of a retry. */
  predicate KeepsOrRetries(m: Message, before: Message) {
    m == before || (m.Note? && m.active.None? && m.shown.None?)
  }

  lemma UpdatesSay(c: Context)
    ensures forall t, su: StatusUpdate :: UpdateStatus(c, t, su).status.message == su.message
  {
    hide Skipped, Conditions;
  }

  /** Every report of a pass stamps both conditions with the generation the pass has read. */
  lemma ReportsStampGeneration(c: Context, t: Trail, su: StatusUpdate, kind: ConditionKind)
    requires kind in {Ready, Progressing}
    ensures var condition := Get(UpdateStatus(c, t, su).status.conditions, kind);
      condition.Some? && condition.value.generation == c.generation
  {
    var code := su.deploymentStatus;
    var ready := Condition(Ready, code.Healthy(), 0, c.generation, code, su.message);
    var progressing := Condition(Progressing, code.Progressing(), 0, c.generation, code, su.message);
    SetConditionSets(t.status.conditions, ready, c.replies.now);
    SetConditionSets(SetCondition(t.status.conditions, ready, c.replies.now), progressing, c.replies.now);
    hide Get, SetCondition, Skipped;
  }

  lemma RetrySays(c: Context, t: Trail, deployment: string, id: string, known: StatusCode)
    ensures KeepsOrRetries(TryRetry(c, t, id, deployment, known).trail.status.message, t.status.message)
    ensures TryRetry(c, t, id, deployment, known).Go? ==>
      TryRetry(c, t, id, deployment, known).trail.status.message == t.status.message
  {
    UpdatesSay(c);
    hide UpdateStatus, FreshStatus;
  }

  lemma ReactivateSays(c: Context, t: Trail, id: string, env: Environment)
    requires env.current.Some?
    ensures Shows(Reactivate(c, t, id, env).0.status.message, env.current, None)
  {
    UpdatesSay(c);
    hide UpdateStatus;
  }

  lemma SteadySays(c: Context, t: Trail, id: string, env: Environment)
    requires env.current.Some?
    ensures Shows(SteadyState(c, t, id, env).0.status.message, env.current, None)
  {
    UpdatesSay(c);
    hide UpdateStatus, Skipped, CleanupCalls, CleanupDue;
  }

  /** With the source current, a message shows the current deployment. */
  lemma CurrentSays(c: Context, st: Status, id: string, source: string, env: Environment)
    requires Reaches(c, st, true, id, source, env) && Called(env.current, source)
    ensures Shows(Reconcile(c, st, true).trail.status.message, env.current, None)
  {
    assert env.current.Some?;
    hide Reconcile, Reaches, Called, Reactivate, SteadyState, AtSource, Shows;
    CurrentReached(c, st, id, source, env);
    ReactivateSays(c, AtSource(c, st), id, env);
    SteadySays(c, AtSource(c, st), id, env);
  }

  lemma PendingSays(c: Context, t: Trail, id: string, env: Environment)
    requires env.candidate.Some?
    ensures var m := PromotionInProgress(c, t, id, env).0.status.message;
      Shows(m, env.current, env.candidate)
      || (Failing(env.candidate.value.status) && KeepsOrRetries(m, t.status.message))
  {
    UpdatesSay(c);
    RetrySays(c, t, CandidateIdToRetry(t, env.candidate.value), id, env.candidate.value.status);
    hide UpdateStatus, TryRetry, KeepsOrRetries;
  }

  lemma ForeignSays(c: Context, t: Trail, id: string, source: string, env: Environment)
    requires env.candidate.Some?
    ensures var step := DoublePromoteGuard(c, t, env, id, source);
      step.Stop? && Shows(step.trail.status.message, env.current, env.candidate)
  {
    UpdatesSay(c);
    hide UpdateStatus;
  }

  /** With a promotion pending, it shows the current deployment and the candidate; only a failure
      that waits for its retry, or is retried, may leave it as it was or say just that. */
  lemma CandidateSays(c: Context, st: Status, id: string, source: string, env: Environment)
    requires Reaches(c, st, true, id, source, env) && !Called(env.current, source) && env.candidate.Some?
    ensures var m := Reconcile(c, st, true).trail.status.message;
      || Shows(m, env.current, env.candidate)
      || (&& Called(env.candidate, source) && Failing(env.candidate.value.status)
          && KeepsOrRetries(m, st.message))
  {
    var t := AtSource(c, st);
    assert t.status.message == st.message by { hide NameFor, HashOf; }
    hide Reconcile, Reaches, Called, PromotionInProgress, DoublePromoteGuard, ValidateSource, PromoteSource, Conclude,
      AtSource, KeepsOrRetries, ForgetCandidate;
    if Called(env.candidate, source) {
      PendingReached(c, st, id, source, env);
      PendingSays(c, t, id, env);
    } else {
      UnpromotedReached(c, st, id, source, env);
      ForeignSays(c, t, id, source, env);
    }
  }

  lemma FailedSourceSays(c: Context, t: Trail, id: string, source: string, env: Environment)
    requires c.replies.findSource.Ok? && Failing(c.replies.findSource.value.status)
    ensures var m := ValidateSource(c, t, id, source, env).trail.status.message;
      Shows(m, env.current, None) || KeepsOrRetries(m, t.status.message)
  {
    UpdatesSay(c);
    RetrySays(c, t, c.replies.findSource.value.id, id, c.replies.findSource.value.status);
    hide UpdateStatus, TryRetry, KeepsOrRetries;
  }

  lemma OtherSourceSays(c: Context, t: Trail, id: string, source: string, env: Environment)
    requires !(c.replies.findSource.Ok? && Failing(c.replies.findSource.value.status))
    ensures var step := ValidateSource(c, t, id, source, env);
      step.Stop? ==> Shows(step.trail.status.message, env.current, None)
  {
    UpdatesSay(c);
    hide UpdateStatus, TryRetry;
  }

  lemma PromotingSays(c: Context, t: Trail, id: string, source: string, sourceID: string, env: Environment)
    ensures Shows(PromoteSource(c, t, id, source, sourceID, env).0.status.message, env.current,
                  if c.replies.promote.Ok? then Some(c.replies.promote.value) else None)
  {
    UpdatesSay(c);
    hide UpdateStatus, Skipped;
  }

  lemma ConcludeSays(t: Trail, v: Verdict)
    ensures Conclude(t, v).0.status.message == t.status.message
  {
  }

  /** With nothing pending, it shows the current deployment, and after a promotion what came of it. */
  lemma FreeSays(c: Context, st: Status, id: string, source: string, env: Environment)
    requires Free(c, st, id, source, env)
    ensures var o, found := Reconcile(c, st, true), c.replies.findSource; var m := o.trail.status.message;
      if found.Ok? && found.value.id != "" && Serving(found.value.status)
      then Shows(m, env.current, if c.replies.promote.Ok? then Some(c.replies.promote.value) else None)
      else
        || Shows(m, env.current, None)
        || (&& found.Ok? && Failing(found.value.status)
            && KeepsOrRetries(m, st.message))
  {
    SourceDecides(c, AtPromotion(c, st), id, source, env);
    SameMessage(c, st);
    hide Reconcile, Free, PromoteSource, ValidateSource, Conclude, AtPromotion, Shows, KeepsOrRetries, Serving, Failing;
    FreeReached(c, st, id, source, env);
    var t := AtPromotion(c, st);
    var step := ValidateSource(c, t, id, source, env);
    if step.Go? {
      PromotingSays(c, step.trail, id, source, step.value, env);
    } else {
      ConcludeSays(step.trail, step.verdict);
      if c.replies.findSource.Ok? && Failing(c.replies.findSource.value.status) {
        FailedSourceSays(c, t, id, source, env);
      } else {
        OtherSourceSays(c, t, id, source, env);
      }
    }
  }

  lemma SameMessage(c: Context, st: Status)
    ensures AtPromotion(c, st).status.message == st.message
  {
    hide NameFor, HashOf;
  }

  lemma SourceDecides(c: Context, t: Trail, id: string, source: string, env: Environment)
    ensures ValidateSource(c, t, id, source, env).Go? <==>
      c.replies.findSource.Ok? && c.replies.findSource.value.id != "" && Serving(c.replies.findSource.value.status)
  {
    hide UpdateStatus, TryRetry;
  }
}
