/** What every status a pass writes, and the one it ends with, has in common with the one read. */
module PassStatus {
  import opened Types
  import opened Drift
  import opened Schedules
  import opened Baseten
  import opened Model
  import opened StatusUpdates
  import opened Steps

  /** The model IDs a pass can come to know: the cached one and the one found by name. */
  predicate Known(c: Context, st0: Status, id: string) {
    id == "" || id == st0.modelID || c.replies.findModel == Ok(id)
  }

  /** Baseten reported this status for what serves the environment (or, when only observing, for
      what is being promoted to it), under the name the spec asks for. */
  predicate Reported(c: Context, code: StatusCode) {
    && c.replies.environment.Ok?
    && var env := c.replies.environment.value;
       || (&& env.current.Some? && env.current.value.status == code
           && (c.spec.truss.None? ==> Matches(env.current, c.spec.sourceDeploymentName)))
       || (&& c.spec.EffectiveMode().ObserveMode? && env.candidate.Some? && env.candidate.value.status == code)
  }

  /** An update may call the resource healthy only on the strength of such a report. */
  predicate Fair(c: Context, su: StatusUpdate) {
    su.deploymentStatus.Healthy() ==> Reported(c, su.deploymentStatus)
  }

  /** What `st` keeps of `st0`: conditions that agree with the status, a resolution time once
      there is one, a model ID of known origin that is never without a resolution time, and health
      only as reported. */
  predicate Sound(c: Context, st0: Status, st: Status) {
    && (Consistent(st0) ==> Consistent(st))
    && (st0.modelIDResolvedTime.Some? ==> st.modelIDResolvedTime.Some?)
    && Known(c, st0, st.modelID)
    && (st.modelID != "" && st.modelIDResolvedTime.None? ==> st.modelID == st0.modelID)
    && (st.deploymentStatus.Healthy() ==>
          st.deploymentStatus == st0.deploymentStatus || Reported(c, st.deploymentStatus))
  }

  /** No write clears the resolution time of an earlier one. */
  predicate NeverCleared(writes: seq<Status>, last: Status) {
    && (forall i, j :: 0 <= i < j < |writes| && writes[i].modelIDResolvedTime.Some? ==>
          writes[j].modelIDResolvedTime.Some?)
    && (forall i :: 0 <= i < |writes| && writes[i].modelIDResolvedTime.Some? ==> last.modelIDResolvedTime.Some?)
  }

  /** A condition stays once it exists; its transition time is `now` if its truth flips, and stays
      if not. */
  predicate MovesOnFlip(a: Status, b: Status, kind: ConditionKind, now: Time) {
    var x, y := Get(a.conditions, kind), Get(b.conditions, kind);
    x.Some? ==> y.Some? && y.value.transition == if x.value.isTrue == y.value.isTrue then x.value.transition else now
  }

  predicate Flips(a: Status, b: Status, now: Time) {
    MovesOnFlip(a, b, Ready, now) && MovesOnFlip(a, b, Progressing, now)
  }

  /** What a reader of the two expects: the condition stays, and so does its transition time
      unless its truth has flipped. */
  predicate KeepsUnlessFlipped(a: Status, b: Status, kind: ConditionKind) {
    var x, y := Get(a.conditions, kind), Get(b.conditions, kind);
    x.Some? ==> y.Some? && (x.value.isTrue == y.value.isTrue ==> y.value.transition == x.value.transition)
  }

  /** Neither truth nor transition time has changed. */
  predicate Rests(a: Status, b: Status, kind: ConditionKind) {
    var x, y := Get(a.conditions, kind), Get(b.conditions, kind);
    x.Some? ==> y.Some? && x.value.isTrue == y.value.isTrue && y.value.transition == x.value.transition
  }

  function Before(st0: Status, writes: seq<Status>, i: nat): Status
    requires i <= |writes|
  {
    if i == 0 then st0 else writes[i - 1]
  }

  /** From one write to the next transition times move only on flips; what is not written has
      flipped nothing. */
  predicate Chained(st0: Status, writes: seq<Status>, last: Status, now: Time) {
    && Rests(Before(st0, writes, |writes|), last, Ready) && Rests(Before(st0, writes, |writes|), last, Progressing)
    && forall i :: 0 <= i < |writes| ==> Flips(Before(st0, writes, i), writes[i], now)
  }

  predicate AllSound(c: Context, st0: Status, t: Trail) {
    && Sound(c, st0, t.status) && SoundWrites(c, st0, t.writes)
    && NeverCleared(t.writes, t.status)
    && (Consistent(st0) ==> Chained(st0, t.writes, t.status, c.replies.now))
  }

  predicate SoundWrites(c: Context, st0: Status, writes: seq<Status>) {
    forall i :: 0 <= i < |writes| ==> Sound(c, st0, writes[i])
  }

  /* ---- one change of the status, written or not ---- */

  lemma ChainRests(st0: Status, writes: seq<Status>, last: Status, st: Status, now: Time)
    requires Chained(st0, writes, last, now) && Rests(last, st, Ready) && Rests(last, st, Progressing)
    ensures Chained(st0, writes, st, now)
  {
    hide Get, Flips;
  }

  lemma ChainGrows(st0: Status, writes: seq<Status>, last: Status, st: Status, now: Time)
    requires Chained(st0, writes, last, now) && Flips(last, st, now)
    ensures Chained(st0, writes + [st], st, now)
  {
    hide Get;
    var before := Before(st0, writes, |writes|);
    assert Flips(before, st, now);
    forall i | 0 <= i < |writes + [st]| ensures Flips(Before(st0, writes + [st], i), (writes + [st])[i], now) {
      if i < |writes| {
        assert Flips(Before(st0, writes, i), writes[i], now);
        assert Before(st0, writes + [st], i) == Before(st0, writes, i);
      } else {
        assert Before(st0, writes + [st], i) == before;
      }
    }
  }

  /** A sound status that keeps the resolution time may take the place of the one in memory, and
      be written, as far as its conditions allow. */
  lemma ChangeSound(c: Context, st0: Status, t: Trail, st: Status)
    requires AllSound(c, st0, t) && Sound(c, st0, st)
    requires t.status.modelIDResolvedTime.Some? ==> st.modelIDResolvedTime.Some?
    ensures (Consistent(st0) ==> Rests(t.status, st, Ready) && Rests(t.status, st, Progressing)) ==>
      AllSound(c, st0, t.(status := st))
    ensures (Consistent(st0) ==> Flips(t.status, st, c.replies.now)) ==> AllSound(c, st0, t.(status := st).Written())
  {
    hide Sound, Flips, Rests, Chained, ConsistentWith;
    if Consistent(st0) {
      if Rests(t.status, st, Ready) && Rests(t.status, st, Progressing) {
        ChainRests(st0, t.writes, t.status, st, c.replies.now);
      }
      if Flips(t.status, st, c.replies.now) {
        ChainGrows(st0, t.writes, t.status, st, c.replies.now);
      }
    }
  }

  lemma UpdatedSound(c: Context, st0: Status, st: Status, su: StatusUpdate)
    requires Sound(c, st0, st) && Known(c, st0, su.modelID) && Fair(c, su)
    ensures Sound(c, st0, Updated(st, su, c.generation, c.replies.now))
  {
    hide ConsistentWith, Conditions, Known, Reported;
    if Consistent(st0) {
      KeepsOneEach(st);
      UpdateIsConsistent(st, su, c.generation, c.replies.now);
    }
  }

  lemma KeepsOneEach(st: Status)
    requires Consistent(st)
    ensures OneEach(st.conditions)
  {
  }

  /** An update flips what it has to; when it is skipped it has flipped nothing. */
  lemma UpdateFlips(st: Status, su: StatusUpdate, generation: int, now: Time)
    requires Consistent(st)
    ensures var st' := Updated(st, su, generation, now);
      && Flips(st, st', now)
      && (Skipped(st, su, generation, now) ==> Rests(st, st', Ready) && Rests(st, st', Progressing))
  {
    hide Get, Conditions, OneEach;
    KeepsOneEach(st);
    UpdateIsConsistent(st, su, generation, now);
  }

  lemma UpdateSound(c: Context, st0: Status, t: Trail, su: StatusUpdate)
    requires AllSound(c, st0, t) && Known(c, st0, su.modelID) && Fair(c, su)
    ensures AllSound(c, st0, UpdateStatus(c, t, su))
  {
    hide Skipped, Flips, Rests, Chained, NeverCleared, ConsistentWith, Conditions, Reported, Known;
    UpdatedSound(c, st0, t.status, su);
    if Consistent(st0) {
      UpdateFlips(t.status, su, c.generation, c.replies.now);
    }
    ChangeSound(c, st0, t, Updated(t.status, su, c.generation, c.replies.now));
  }

  lemma UpdatesSound(c: Context, st0: Status)
    ensures forall t, su: StatusUpdate ::
      AllSound(c, st0, t) && Known(c, st0, su.modelID) && Fair(c, su) ==> AllSound(c, st0, UpdateStatus(c, t, su))
  {
    forall t, su: StatusUpdate | AllSound(c, st0, t) && Known(c, st0, su.modelID) && Fair(c, su)
      ensures AllSound(c, st0, UpdateStatus(c, t, su))
    {
      UpdateSound(c, st0, t, su);
    }
  }

  lemma CallsSound(c: Context, st0: Status)
    ensures forall t, call: Call :: AllSound(c, st0, t) ==> AllSound(c, st0, t.Called(call))
  {
    hide Sound, Chained;
  }

  /** A change that leaves alone what soundness is about; forgetting the model ID is one of them. */
  predicate SameCore(a: Status, b: Status) {
    && a.conditions == b.conditions && a.deploymentStatus == b.deploymentStatus && a.message == b.message
    && b.modelID in {a.modelID, ""} && a.modelIDResolvedTime == b.modelIDResolvedTime
  }

  lemma WriteSound(c: Context, st0: Status, t: Trail, st: Status)
    requires AllSound(c, st0, t) && SameCore(t.status, st)
    ensures AllSound(c, st0, t.(status := st)) && AllSound(c, st0, t.(status := st).Written())
  {
    hide ConsistentWith, Chained, NeverCleared, Get, Reported;
    ChangeSound(c, st0, t, st);
  }

  /** Calls and the note of a retry are nothing soundness is about. */
  lemma SameSound(c: Context, st0: Status, t: Trail, t': Trail)
    requires AllSound(c, st0, t) && t'.status == t.status && t'.writes == t.writes
    ensures AllSound(c, st0, t')
  {
    hide Sound, Chained;
  }

  /* ---- step by step ---- */

  lemma StartSound(c: Context, st0: Status)
    ensures AllSound(c, st0, Start(st0))
  {
  }

  lemma CachedKnown(c: Context, st0: Status, t: Trail)
    requires AllSound(c, st0, t)
    ensures Known(c, st0, t.status.modelID)
  {
  }

  lemma DeletionSound(c: Context, st0: Status, t: Trail, finalizer: bool)
    requires AllSound(c, st0, t)
    ensures AllSound(c, st0, Deletion(c, t, finalizer).trail)
  {
    hide UpdateStatus, AllSound, Reported;
    UpdatesSound(c, st0);
    CallsSound(c, st0);
    CachedKnown(c, st0, t);
  }

  lemma ObservedFair(c: Context, env: Environment)
    requires c.spec.EffectiveMode().ObserveMode? && c.replies.environment == Ok(env) && ExpectedSource(c).Some?
    ensures forall modelID, drift :: Fair(c, ObservedUpdate(env, ExpectedSource(c).value, modelID, drift))
    ensures forall modelID, drift :: ObservedUpdate(env, ExpectedSource(c).value, modelID, drift).modelID == modelID
  {
    hide TrussName;
  }

  lemma ObserveSound(c: Context, st0: Status, t: Trail)
    requires AllSound(c, st0, t) && c.spec.EffectiveMode().ObserveMode?
    ensures AllSound(c, st0, ReconcileObserve(c, t).0)
  {
    hide UpdateStatus, AllSound, Reported, ObservedUpdate, ObservedDrift, ExpectedSource;
    UpdatesSound(c, st0);
    CachedKnown(c, st0, t);
    if c.replies.environment.Ok? && ExpectedSource(c).Some? {
      ObservedFair(c, c.replies.environment.value);
    }
  }

  lemma ResolveSound(c: Context, st0: Status, t: Trail)
    requires AllSound(c, st0, t)
    ensures AllSound(c, st0, ResolveModelID(c, t).trail)
    ensures ResolveModelID(c, t).Go? ==> Known(c, st0, ResolveModelID(c, t).value)
  {
    hide UpdateStatus, AllSound, Reported;
    UpdatesSound(c, st0);
    CachedKnown(c, st0, t);
  }

  lemma ConcludeSound(c: Context, st0: Status, t: Trail, v: Verdict)
    requires AllSound(c, st0, t)
    ensures AllSound(c, st0, Conclude(t, v).0)
  {
    hide AllSound;
    WriteSound(c, st0, t, t.status.(modelID := ""));
  }

  lemma ConcludesSound(c: Context, st0: Status)
    ensures forall t, v :: AllSound(c, st0, t) ==> AllSound(c, st0, Conclude(t, v).0)
  {
    hide AllSound, Conclude;
    forall t, v | AllSound(c, st0, t) ensures AllSound(c, st0, Conclude(t, v).0) {
      ConcludeSound(c, st0, t, v);
    }
  }

  lemma RetrySound(c: Context, st0: Status, t: Trail, modelID: string, id: string, failed: StatusCode)
    requires AllSound(c, st0, t) && Known(c, st0, modelID)
    ensures AllSound(c, st0, TryRetry(c, t, modelID, id, failed).trail)
  {
    hide UpdateStatus, AllSound, Known, Reported;
    UpdatesSound(c, st0);
    CallsSound(c, st0);
    var t1 := NoteFirstFailure(c, t);
    WriteSound(c, st0, t, t1.status);
    var t2 := t1.Called(RetryDeployment(id));
    var t3 := ScheduleNextRetry(c, t2);
    WriteSound(c, st0, t2, t3.status);
    SameSound(c, st0, t2.(status := t3.status).Written(), t3);
  }

  lemma StartPushSound(c: Context, st0: Status, t: Trail, modelID: string, configHash: string, name: string)
    requires AllSound(c, st0, t) && Known(c, st0, modelID)
    ensures AllSound(c, st0, StartPush(c, t, modelID, configHash, name).0)
  {
    hide UpdateStatus, AllSound, Known, Reported;
    UpdatesSound(c, st0);
    CallsSound(c, st0);
    var st := t.status.(trussConfigHash := configHash, sourceDeploymentName := name, pushStatus := Pushing,
                        pushTime := Some(c.replies.now));
    WriteSound(c, st0, t, st);
    WriteSound(c, st0, t.(status := st).Written(), st.(pushStatus := NoPush, sourceDeploymentName := ""));
  }

  lemma PushSound(c: Context, st0: Status, t: Trail, modelID: string, configHash: string, name: string)
    requires AllSound(c, st0, t) && Known(c, st0, modelID)
    ensures AllSound(c, st0, PushOrWait(c, t, modelID, configHash, name).0)
  {
    hide UpdateStatus, StartPush, AllSound, Known, Reported;
    UpdatesSound(c, st0);
    var ready := ReadyToPush(t, name, c.replies.now);
    WriteSound(c, st0, t, ready.status);
    StartPushSound(c, st0, ready, modelID, configHash, name);
  }

  lemma SourceSound(c: Context, st0: Status, t: Trail, modelID: string)
    requires AllSound(c, st0, t) && Known(c, st0, modelID)
    ensures AllSound(c, st0, ResolveSource(c, t, modelID).trail)
  {
    hide UpdateStatus, PushOrWait, AllSound, Known, Reported;
    UpdatesSound(c, st0);
    if c.spec.truss.Some? && c.replies.setupScript.Some? {
      PushSound(c, st0, t, modelID, TrussHash(c), TrussName(c));
      var built := t.status.(trussConfigHash := TrussHash(c), sourceDeploymentName := TrussName(c),
                             pushStatus := PushDone);
      WriteSound(c, st0, t, ClearPushFailure(built));
    }
  }

  lemma EnvironmentSound(c: Context, st0: Status, t: Trail, modelID: string)
    requires AllSound(c, st0, t) && Known(c, st0, modelID)
    ensures AllSound(c, st0, ReconcileEnvironment(c, t, modelID).trail)
  {
    hide UpdateStatus, BaselineDrift, AnyPromotionDrift, ScheduleDrift, AllSound, Known, Reported;
    UpdatesSound(c, st0);
    CallsSound(c, st0);
  }

  lemma SteadySound(c: Context, st0: Status, t: Trail, modelID: string, env: Environment)
    requires AllSound(c, st0, t) && Known(c, st0, modelID) && c.replies.environment == Ok(env) && env.current.Some?
    requires c.spec.truss.None? ==> Matches(env.current, c.spec.sourceDeploymentName)
    ensures AllSound(c, st0, SteadyState(c, t, modelID, env).0)
  {
    hide UpdateStatus, AllSound, Known, Skipped, CleanupCalls;
    var su := SteadyUpdate(t, modelID, env);
    UpdateSound(c, st0, t, su);
    var t1 := UpdateStatus(c, t, su);
    var t2 := OrphanCleanup(c, t1);
    WriteSound(c, st0, t1, t2.status);
    SameSound(c, st0, t1.(status := t2.status).Written(), t1.(calls := t2.calls, status := t2.status).Written());
  }

  lemma CandidateSound(c: Context, st0: Status, t: Trail, modelID: string, env: Environment)
    requires AllSound(c, st0, t) && Known(c, st0, modelID) && env.candidate.Some?
    ensures AllSound(c, st0, PromotionInProgress(c, t, modelID, env).0)
  {
    hide UpdateStatus, TryRetry, AllSound, Known, Reported;
    UpdatesSound(c, st0);
    RetrySound(c, st0, t, modelID, CandidateIdToRetry(t, env.candidate.value), env.candidate.value.status);
  }

  lemma ValidateSound(c: Context, st0: Status, t: Trail, modelID: string, source: string, env: Environment)
    requires AllSound(c, st0, t) && Known(c, st0, modelID)
    ensures AllSound(c, st0, ValidateSource(c, t, modelID, source, env).trail)
  {
    hide UpdateStatus, AllSound, Known, Reported, TryRetry;
    UpdatesSound(c, st0);
    CallsSound(c, st0);
    if c.replies.findSource.Ok? {
      RetrySound(c, st0, t, modelID, c.replies.findSource.value.id, c.replies.findSource.value.status);
    }
  }

  lemma PromoteSourceSound(c: Context, st0: Status, t: Trail, modelID: string, source: string, id: string,
                           env: Environment)
    requires AllSound(c, st0, t) && Known(c, st0, modelID)
    ensures AllSound(c, st0, PromoteSource(c, t, modelID, source, id, env).0)
  {
    hide UpdateStatus, Skipped, Conclude, AllSound, Known, Reported;
    UpdatesSound(c, st0);
    CallsSound(c, st0);
    ConcludesSound(c, st0);
  }

  lemma GuardSound(c: Context, st0: Status, t: Trail, env: Environment, modelID: string, source: string)
    requires AllSound(c, st0, t) && Known(c, st0, modelID)
    ensures AllSound(c, st0, DoublePromoteGuard(c, t, env, modelID, source).trail)
  {
    hide UpdateStatus, AllSound, Known, Reported;
    UpdatesSound(c, st0);
    WriteSound(c, st0, t, ForgetCandidate(t, env, source).status);
  }

  lemma WithEnvironmentSound(c: Context, st0: Status, t: Trail, modelID: string, source: string, env: Environment)
    requires AllSound(c, st0, t) && Known(c, st0, modelID) && c.replies.environment == Ok(env)
    requires c.spec.truss.None? ==> source == c.spec.sourceDeploymentName
    ensures AllSound(c, st0, WithEnvironment(c, t, modelID, source, env).0)
  {
    hide AllSound, Known, Reactivate, SteadyState, PromotionInProgress, DoublePromoteGuard, ValidateSource,
        PromoteSource,
      Conclude;
    if Matches(env.current, source) {
      SteadySound(c, st0, t, modelID, env);
      ReactivateSound(c, st0, t, modelID, env);
    } else if Matches(env.candidate, source) {
      CandidateSound(c, st0, t, modelID, env);
    } else {
      var guard := DoublePromoteGuard(c, t, env, modelID, source);
      GuardSound(c, st0, t, env, modelID, source);
      if guard.Go? {
        ValidateSound(c, st0, guard.trail, modelID, source, env);
        var valid := ValidateSource(c, guard.trail, modelID, source, env);
        if valid.Go? {
          PromoteSourceSound(c, st0, valid.trail, modelID, source, valid.value, env);
        } else {
          ConcludeSound(c, st0, valid.trail, valid.verdict);
        }
      }
    }
  }

  lemma ReactivateSound(c: Context, st0: Status, t: Trail, modelID: string, env: Environment)
    requires AllSound(c, st0, t) && Known(c, st0, modelID) && env.current.Some?
    ensures AllSound(c, st0, Reactivate(c, t, modelID, env).0)
  {
    hide UpdateStatus, Conclude, AllSound, Known, Reported;
    UpdatesSound(c, st0);
    CallsSound(c, st0);
    ConcludesSound(c, st0);
  }

  lemma EnvironmentIsRead(c: Context, t: Trail, modelID: string)
    ensures var step := ReconcileEnvironment(c, t, modelID); step.Go? ==> c.replies.environment == Ok(step.value)
  {
    hide UpdateStatus;
  }

  lemma SourceIsNamed(c: Context, t: Trail, modelID: string)
    requires c.spec.truss.None?
    ensures ResolveSource(c, t, modelID) == Go(t, c.spec.sourceDeploymentName)
  {
  }

  lemma ActiveSound(c: Context, st0: Status, t: Trail)
    requires AllSound(c, st0, t)
    ensures AllSound(c, st0, ReconcileActive(c, t).0)
  {
    hide AllSound, Known, ResolveModelID, ResolveSource, ReconcileEnvironment, WithEnvironment, Conclude;
    ResolveSound(c, st0, t);
    var resolved := ResolveModelID(c, t);
    if resolved.Go? {
      SourceSound(c, st0, resolved.trail, resolved.value);
      var sourced := ResolveSource(c, resolved.trail, resolved.value);
      if sourced.Stop? {
        ConcludeSound(c, st0, sourced.trail, sourced.verdict);
      } else {
        EnvironmentSound(c, st0, sourced.trail, resolved.value);
        var env := ReconcileEnvironment(c, sourced.trail, resolved.value);
        if env.Stop? {
          ConcludeSound(c, st0, env.trail, env.verdict);
        } else {
          EnvironmentIsRead(c, sourced.trail, resolved.value);
          if c.spec.truss.None? {
            SourceIsNamed(c, resolved.trail, resolved.value);
          }
          WithEnvironmentSound(c, st0, env.trail, resolved.value, sourced.value, env.value);
        }
      }
    }
  }

  /** Every status any pass hands to the API server, and the one it ends with, is sound. */
  lemma PassIsSound(c: Context, st0: Status, finalizer: bool)
    ensures AllSound(c, st0, Reconcile(c, st0, finalizer).trail)
  {
    hide UpdateStatus, AllSound, ReconcileActive, ReconcileObserve, Deletion;
    var t := Start(st0);
    StartSound(c, st0);
    UpdatesSound(c, st0);
    DeletionSound(c, st0, t, finalizer);
    if c.spec.EffectiveMode().ObserveMode? {
      ObserveSound(c, st0, t);
    }
    ActiveSound(c, st0, t);
  }

  /** A pass that turns the Ready condition true in anything it writes was told so by Baseten. */
  lemma ReadyIsEarned(c: Context, st0: Status, finalizer: bool, w: Status)
    requires Consistent(st0) && !st0.deploymentStatus.Healthy()
    requires w in Reconcile(c, st0, finalizer).trail.writes
    requires Get(w.conditions, Ready).Some? && Get(w.conditions, Ready).value.isTrue
    ensures w.deploymentStatus.Healthy() && Reported(c, w.deploymentStatus)
  {
    hide Reconcile, Reported;
    PassIsSound(c, st0, finalizer);
  }
}
