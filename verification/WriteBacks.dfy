/** What the end of a push leaves stored, and what stored conditions tell. */
module WriteBacks {
  import opened Types
  import opened Model
  import opened StatusUpdates
  import opened Backoff
  import opened Pushes
  import opened Runs
  import Facts
  import StageAnswers

  function Floor(t: Time): Time { t - t % 1_000_000_000 }

  /** A success marks the push done and clears its failures; a model ID that comes with it is stored
      with the time it became known; nothing else changes. */
  lemma PushSuccessIsStored(ws: seq<World>, es: seq<Event>, i: nat)
    requires Run(ws, es) && i < |es| && es[i].PushSucceeded?
    ensures ws[i].history != [] && ws[i + 1].history != []
    ensures var before, after, id := ws[i].Latest().status, ws[i + 1].Latest().status, es[i].modelID;
      after == before.(
        pushStatus := PushDone, pushTime := None, pushFailureCount := 0, pushNextRetryTime := None, pushLastError := "",
        modelID := if id != "" then id else before.modelID,
        modelIDResolvedTime := if id != "" then Some(Floor(es[i].now)) else before.modelIDResolvedTime)
  {
    StoredAsRead(ws, es, i);
    hide Run, Invariant;
  }

  /** A failure is counted and sets the time of the next push: two minutes later, doubled with every
      failure up to half an hour, and a little more by chance; the error is cut to 512 characters. */
  lemma PushFailureIsStored(ws: seq<World>, es: seq<Event>, i: nat)
    requires Run(ws, es) && i < |es| && es[i].PushFailing?
    ensures ws[i].history != [] && ws[i + 1].history != []
    ensures var before, after, e := ws[i].Latest().status, ws[i + 1].Latest().status, es[i];
      after == before.(
        pushStatus := PushFailed, pushTime := None, pushFailureCount := before.pushFailureCount + 1,
        pushNextRetryTime := Some(Floor(e.now + StageAnswers.WaitFor(before.pushFailureCount + 1) + e.jitter)),
        pushLastError := if |e.error| <= 512 then e.error else e.error[..512] + "...")
  {
    StoredAsRead(ws, es, i);
    StageAnswers.WaitIsInterval(ws[i].Latest().status.pushFailureCount + 1);
    hide Run, Invariant, Interval, StageAnswers.WaitFor;
  }

  lemma StoredAsRead(ws: seq<World>, es: seq<Event>, i: nat)
    requires Run(ws, es) && i < |es|
    ensures ws[i].history != [] && Stored(ws[i].Latest().status)
    ensures Enabled(ws[i], es[i]) && ws[i + 1] == Next(ws[i], es[i])
  {
    RunKeepsInvariant(ws, es, i);
    hide Next, Enabled, Consistent, RetryBounded, NeverUnresolved, PassOk;
    assert ws[i].Latest() in ws[i].history;
  }

  /** In every stored version that has been reported on, Ready is true exactly for ACTIVE and
      SCALED_TO_ZERO, Progressing exactly while something is under way, and both give the status as
      their reason and its message as theirs. */
  lemma StoredConditionsTell(ws: seq<World>, es: seq<Event>, i: nat, r: Resource)
    requires Run(ws, es) && i < |ws| && r in ws[i].history
    requires Get(r.status.conditions, Ready).Some?
    ensures Get(r.status.conditions, Progressing).Some?
    ensures var code, ready, progressing := r.status.deploymentStatus, Get(r.status.conditions, Ready).value,
                                            Get(r.status.conditions, Progressing).value;
      && (ready.isTrue <==> code == Active || code == ScaledToZero)
      && (progressing.isTrue <==>
            || code == Promoting || code == PromotingDeployment || code == Pending || code == Deleting
            || code == Activating || code == Building || code == Deploying || code == WakingUp || code == Updating
            || code == LoadingModel)
      && ready.reason == code && progressing.reason == code
      && ready.message == r.status.message && progressing.message == r.status.message
  {
    hide Get;
    StoredStatusIsConsistent(ws, es, i, r);
  }
}
