/** Where the names come from that a pass writes next to the hash of a configuration, in every one
    of its writes and not only the last. */
module PassNames {
  import opened Types
  import opened Drift
  import opened Baseten
  import opened Model
  import opened StatusUpdates
  import opened Steps
  import opened PassPush
  import PassCalls
  import Promotion

  /** Hash and name are as read; or computed together from the configuration; or the name has been
      blanked, where that can be; or it is the one the spec gives and no configuration is involved. */
  predicate Named(c: Context, st0: Status, blanks: bool, st: Status) {
    || (st.trussConfigHash == st0.trussConfigHash && st.sourceDeploymentName == st0.sourceDeploymentName)
    || (&& Reads(c) && st.trussConfigHash == TrussHash(c)
        && (st.sourceDeploymentName == TrussName(c) || (blanks && st.sourceDeploymentName == "")))
    || (c.spec.truss.None? && st.sourceDeploymentName == c.spec.sourceDeploymentName)
  }

  predicate AllNamed(c: Context, st0: Status, blanks: bool, t: Trail) {
    && Named(c, st0, blanks, t.status)
    && forall w :: w in t.writes ==> Named(c, st0, blanks, w)
  }

  /** So far every name is accounted for, and the one in memory is `name`. */
  predicate Carries(c: Context, st0: Status, blanks: bool, name: string, t: Trail) {
    AllNamed(c, st0, blanks, t) && t.status.sourceDeploymentName == name
  }

  predicate SameName(a: Status, b: Status) {
    a.trussConfigHash == b.trussConfigHash && a.sourceDeploymentName == b.sourceDeploymentName
  }

  lemma KeepCarries(c: Context, st0: Status, blanks: bool, name: string, t: Trail, st: Status)
    requires Carries(c, st0, blanks, name, t) && SameName(t.status, st)
    ensures Carries(c, st0, blanks, name, t.(status := st))
    ensures Carries(c, st0, blanks, name, t.(status := st).Written())
  {
    hide TrussName, TrussHash;
  }

  lemma UpdateCarries(c: Context, st0: Status, blanks: bool, name: string, t: Trail, su: StatusUpdate)
    requires Carries(c, st0, blanks, name, t) && su.sourceDeploymentName in {"", name}
    ensures Carries(c, st0, blanks, name, UpdateStatus(c, t, su))
  {
    hide Skipped, Conditions, TrussName, TrussHash;
  }

  lemma UpdatesCarry(c: Context, st0: Status, blanks: bool, name: string)
    ensures forall t, su: StatusUpdate ::
      Carries(c, st0, blanks, name, t) && su.sourceDeploymentName in {"", name} ==>
        Carries(c, st0, blanks, name, UpdateStatus(c, t, su))
  {
    hide Carries, UpdateStatus;
    forall t, su: StatusUpdate | Carries(c, st0, blanks, name, t) && su.sourceDeploymentName in {"", name}
      ensures Carries(c, st0, blanks, name, UpdateStatus(c, t, su))
    {
      UpdateCarries(c, st0, blanks, name, t, su);
    }
  }

  lemma CallsCarry(c: Context, st0: Status, blanks: bool, name: string)
    ensures forall t, call: Call ::
      Carries(c, st0, blanks, name, t) ==> Carries(c, st0, blanks, name, t.Called(call))
  {
    hide Named;
  }

  lemma ConcludesCarry(c: Context, st0: Status, blanks: bool, name: string)
    ensures forall t, v ::
      Carries(c, st0, blanks, name, t) ==> Carries(c, st0, blanks, name, Conclude(t, v).0)
  {
    hide Carries;
    forall t, v | Carries(c, st0, blanks, name, t) ensures Carries(c, st0, blanks, name, Conclude(t, v).0) {
      KeepCarries(c, st0, blanks, name, t, t.status.(modelID := ""));
    }
  }

  /* ---- step by step ---- */

  lemma DeletionCarries(c: Context, st0: Status, blanks: bool, name: string, t: Trail, finalizer: bool)
    requires Carries(c, st0, blanks, name, t)
    ensures Carries(c, st0, blanks, name, Deletion(c, t, finalizer).trail)
  {
    hide UpdateStatus, Carries;
    UpdatesCarry(c, st0, blanks, name);
    CallsCarry(c, st0, blanks, name);
  }

  lemma ObserveCarries(c: Context, st0: Status, blanks: bool, name: string, t: Trail)
    requires Carries(c, st0, blanks, name, t)
    ensures Carries(c, st0, blanks, name, ReconcileObserve(c, t).0)
  {
    hide UpdateStatus, Carries, ObservedDrift, ExpectedSource;
    UpdatesCarry(c, st0, blanks, name);
  }

  lemma RetryCarries(c: Context, st0: Status, blanks: bool, name: string, t: Trail, modelID: string, id: string,
                     failed: StatusCode)
    requires Carries(c, st0, blanks, name, t)
    ensures Carries(c, st0, blanks, name, TryRetry(c, t, modelID, id, failed).trail)
  {
    hide UpdateStatus, Named;
    UpdatesCarry(c, st0, blanks, name);
    CallsCarry(c, st0, blanks, name);
    var t1 := NoteFirstFailure(c, t);
    KeepCarries(c, st0, blanks, name, t, t1.status);
    var t2 := t1.Called(RetryDeployment(id));
    KeepCarries(c, st0, blanks, name, t2, ScheduleNextRetry(c, t2).status);
  }

  lemma EnvironmentCarries(c: Context, st0: Status, blanks: bool, name: string, t: Trail, modelID: string)
    requires Carries(c, st0, blanks, name, t)
    ensures Carries(c, st0, blanks, name, ReconcileEnvironment(c, t, modelID).trail)
  {
    hide UpdateStatus, Carries, BaselineDrift, AnyPromotionDrift, ScheduleDrift;
    UpdatesCarry(c, st0, blanks, name);
    CallsCarry(c, st0, blanks, name);
  }

  lemma SteadyCarries(c: Context, st0: Status, blanks: bool, name: string, t: Trail, modelID: string, env: Environment)
    requires Carries(c, st0, blanks, name, t) && env.current.Some?
    ensures Carries(c, st0, blanks, name, SteadyState(c, t, modelID, env).0)
  {
    hide UpdateStatus, Skipped, Named, CleanupCalls, CleanupDue;
    UpdateCarries(c, st0, blanks, name, t, SteadyUpdate(t, modelID, env));
    var t1 := UpdateStatus(c, t, SteadyUpdate(t, modelID, env));
    KeepCarries(c, st0, blanks, name, t1, OrphanCleanup(c, t1).status);
  }

  lemma ReactivateCarries(c: Context, st0: Status, blanks: bool, name: string, t: Trail, modelID: string,
                          env: Environment)
    requires Carries(c, st0, blanks, name, t) && env.current.Some?
    ensures Carries(c, st0, blanks, name, Reactivate(c, t, modelID, env).0)
  {
    hide UpdateStatus, Carries, Conclude;
    UpdatesCarry(c, st0, blanks, name);
    CallsCarry(c, st0, blanks, name);
    ConcludesCarry(c, st0, blanks, name);
  }

  lemma CandidateCarries(c: Context, st0: Status, blanks: bool, name: string, t: Trail, modelID: string,
                         env: Environment)
    requires Carries(c, st0, blanks, name, t) && env.candidate.Some?
    ensures Carries(c, st0, blanks, name, PromotionInProgress(c, t, modelID, env).0)
  {
    hide UpdateStatus, TryRetry, Carries;
    UpdatesCarry(c, st0, blanks, name);
    RetryCarries(c, st0, blanks, name, t, modelID, CandidateIdToRetry(t, env.candidate.value),
                 env.candidate.value.status);
  }

  lemma GuardCarries(c: Context, st0: Status, blanks: bool, name: string, t: Trail, env: Environment, modelID: string,
                     source: string)
    requires Carries(c, st0, blanks, name, t)
    ensures Carries(c, st0, blanks, name, DoublePromoteGuard(c, t, env, modelID, source).trail)
  {
    hide UpdateStatus, Carries;
    UpdatesCarry(c, st0, blanks, name);
    KeepCarries(c, st0, blanks, name, t, ForgetCandidate(t, env, source).status);
  }

  lemma ValidateCarries(c: Context, st0: Status, blanks: bool, name: string, t: Trail, modelID: string, source: string,
                        env: Environment)
    requires Carries(c, st0, blanks, name, t)
    ensures Carries(c, st0, blanks, name, ValidateSource(c, t, modelID, source, env).trail)
  {
    hide UpdateStatus, TryRetry, Carries;
    UpdatesCarry(c, st0, blanks, name);
    CallsCarry(c, st0, blanks, name);
    if c.replies.findSource.Ok? {
      RetryCarries(c, st0, blanks, name, t, modelID, c.replies.findSource.value.id, c.replies.findSource.value.status);
    }
  }

  /** What a pass may work for: the name in memory, or the one the spec gives. */
  predicate IsSource(c: Context, name: string, source: string) {
    source == name || (c.spec.truss.None? && source == c.spec.sourceDeploymentName)
  }

  lemma SourceUpdateCarries(c: Context, st0: Status, blanks: bool, name: string, t: Trail, su: StatusUpdate)
    requires Carries(c, st0, blanks, name, t) && IsSource(c, name, su.sourceDeploymentName)
    ensures Carries(c, st0, blanks, KeepOr(name, su.sourceDeploymentName), UpdateStatus(c, t, su))
  {
    hide Skipped, Conditions, TrussName, TrussHash;
  }

  lemma PromoteCarries(c: Context, st0: Status, blanks: bool, name: string, t: Trail, modelID: string, source: string,
                       id: string, env: Environment)
    requires Carries(c, st0, blanks, name, t) && IsSource(c, name, source)
    ensures Carries(c, st0, blanks, KeepOr(name, source), PromoteSource(c, t, modelID, source, id, env).0)
  {
    hide UpdateStatus, Carries, Conclude, Skipped;
    var named := KeepOr(name, source);
    SourceUpdateCarries(c, st0, blanks, name, t,
                        SourceUpdate(env, PromotingDeployment, "promoting " + source, modelID)
                          .(sourceDeploymentID := id, sourceDeploymentName := source));
    UpdatesCarry(c, st0, blanks, named);
    CallsCarry(c, st0, blanks, named);
    ConcludesCarry(c, st0, blanks, named);
  }

  lemma CarriesNames(c: Context, st0: Status, blanks: bool, name: string, t: Trail)
    requires Carries(c, st0, blanks, name, t)
    ensures AllNamed(c, st0, blanks, t)
  {
  }

  lemma WithEnvironmentNames(c: Context, st0: Status, blanks: bool, name: string, t: Trail, modelID: string,
                             source: string, env: Environment)
    requires Carries(c, st0, blanks, name, t) && IsSource(c, name, source)
    ensures AllNamed(c, st0, blanks, WithEnvironment(c, t, modelID, source, env).0)
  {
    hide Carries, AllNamed, UpdateStatus, SteadyState, Reactivate, PromotionInProgress, DoublePromoteGuard,
      ValidateSource, PromoteSource, Conclude;
    var end := WithEnvironment(c, t, modelID, source, env).0;
    if Matches(env.current, source) {
      SteadyCarries(c, st0, blanks, name, t, modelID, env);
      ReactivateCarries(c, st0, blanks, name, t, modelID, env);
      CarriesNames(c, st0, blanks, name, end);
    } else if Matches(env.candidate, source) {
      CandidateCarries(c, st0, blanks, name, t, modelID, env);
      CarriesNames(c, st0, blanks, name, end);
    } else {
      var guard := DoublePromoteGuard(c, t, env, modelID, source);
      GuardCarries(c, st0, blanks, name, t, env, modelID, source);
      if guard.Stop? {
        CarriesNames(c, st0, blanks, name, end);
      } else {
        ValidateCarries(c, st0, blanks, name, guard.trail, modelID, source, env);
        var valid := ValidateSource(c, guard.trail, modelID, source, env);
        if valid.Go? {
          PromoteCarries(c, st0, blanks, name, valid.trail, modelID, source, valid.value, env);
          CarriesNames(c, st0, blanks, KeepOr(name, source), end);
        } else {
          ConcludesCarry(c, st0, blanks, name);
          CarriesNames(c, st0, blanks, name, end);
        }
      }
    }
  }

  lemma StartCarries(c: Context, st0: Status, blanks: bool)
    ensures Carries(c, st0, blanks, st0.sourceDeploymentName, Start(st0))
  {
  }

  lemma ResolveCarries(c: Context, st0: Status, blanks: bool, name: string, t: Trail)
    requires Carries(c, st0, blanks, name, t)
    ensures Carries(c, st0, blanks, name, ResolveModelID(c, t).trail)
  {
    hide UpdateStatus, Carries;
    UpdatesCarry(c, st0, blanks, name);
  }

  /** Announcing names the push; a full semaphore blanks the name again. */
  lemma StartPushCarries(c: Context, st0: Status, blanks: bool, name: string, t: Trail, modelID: string)
    requires Reads(c) && Carries(c, st0, blanks, name, t) && (blanks || c.replies.pushSlotFree)
    ensures var t' := StartPush(c, t, modelID, TrussHash(c), TrussName(c)).0;
      Carries(c, st0, blanks, t'.status.sourceDeploymentName, t')
  {
    hide UpdateStatus, TrussHash, TrussName;
    UpdatesCarry(c, st0, blanks, TrussName(c));
    UpdatesCarry(c, st0, blanks, "");
    CallsCarry(c, st0, blanks, TrussName(c));
  }

  lemma PushOrWaitCarries(c: Context, st0: Status, blanks: bool, modelID: string)
    requires Reads(c) && (Pushable(c, st0) && !c.replies.pushSlotFree ==> blanks)
    ensures var t' := PushOrWait(c, Start(st0), modelID, TrussHash(c), TrussName(c)).0;
      Carries(c, st0, blanks, t'.status.sourceDeploymentName, t')
  {
    hide UpdateStatus, StartPush, Named, TrussHash, TrussName, BackingOff, PushIsStale;
    var name := st0.sourceDeploymentName;
    StartCarries(c, st0, blanks);
    UpdatesCarry(c, st0, blanks, name);
    var ready := ReadyToPush(Start(st0), TrussName(c), c.replies.now);
    KeepCarries(c, st0, blanks, name, Start(st0), ready.status);
    if Pushable(c, st0) {
      StartPushCarries(c, st0, blanks, name, ready, modelID);
    }
  }

  /** On the way to the source only a push that finds no slot blanks a name. */
  lemma TrussCarries(c: Context, st0: Status, blanks: bool, modelID: string)
    requires c.spec.truss.Some?
    requires Reads(c) && Unanswered(c, st0, modelID) && Pushable(c, st0) && !c.replies.pushSlotFree ==> blanks
    ensures var step := ReconcileTruss(c, Start(st0), modelID);
      && Carries(c, st0, blanks, step.trail.status.sourceDeploymentName, step.trail)
      && (step.Go? ==> step.value == step.trail.status.sourceDeploymentName)
  {
    hide UpdateStatus, PushOrWait, TrussHash, TrussName, Pushable;
    StartCarries(c, st0, blanks);
    UpdatesCarry(c, st0, blanks, st0.sourceDeploymentName);
    if Reads(c) && Unanswered(c, st0, modelID) {
      PushOrWaitCarries(c, st0, blanks, modelID);
    }
  }

  lemma SourceCarries(c: Context, st0: Status, blanks: bool, modelID: string)
    requires Reads(c) && Unanswered(c, st0, modelID) && Pushable(c, st0) && !c.replies.pushSlotFree ==> blanks
    ensures var step := ResolveSource(c, Start(st0), modelID);
      && Carries(c, st0, blanks, step.trail.status.sourceDeploymentName, step.trail)
      && (step.Go? ==> IsSource(c, step.trail.status.sourceDeploymentName, step.value))
  {
    hide ReconcileTruss, Carries;
    StartCarries(c, st0, blanks);
    if c.spec.truss.Some? {
      TrussCarries(c, st0, blanks, modelID);
    }
  }

  lemma AfterSourceNames(c: Context, st0: Status, blanks: bool, t: Trail, modelID: string, source: string)
    requires Carries(c, st0, blanks, t.status.sourceDeploymentName, t)
    requires IsSource(c, t.status.sourceDeploymentName, source)
    ensures match ReconcileEnvironment(c, t, modelID)
            case Stop(t', v) => AllNamed(c, st0, blanks, Conclude(t', v).0)
            case Go(t', env) => AllNamed(c, st0, blanks, WithEnvironment(c, t', modelID, source, env).0)
  {
    hide Carries, AllNamed, ReconcileEnvironment, WithEnvironment, Conclude;
    var name := t.status.sourceDeploymentName;
    EnvironmentCarries(c, st0, blanks, name, t, modelID);
    var step := ReconcileEnvironment(c, t, modelID);
    if step.Go? {
      WithEnvironmentNames(c, st0, blanks, name, step.trail, modelID, source, step.value);
    } else {
      ConcludesCarry(c, st0, blanks, name);
      CarriesNames(c, st0, blanks, name, Conclude(step.trail, step.verdict).0);
    }
  }

  lemma ActiveNames(c: Context, st0: Status)
    requires PassCalls.Acting(c, true)
    ensures AllNamed(c, st0, Announces(c, st0, true) && !c.replies.pushSlotFree, ReconcileActive(c, Start(st0)).0)
  {
    hide Carries, AllNamed, ResolveModelID, ResolveSource, ReconcileEnvironment, WithEnvironment, Conclude, Unanswered,
      Pushable, Announces;
    var t, blanks := Start(st0), Announces(c, st0, true) && !c.replies.pushSlotFree;
    StartCarries(c, st0, blanks);
    ResolveCarries(c, st0, blanks, st0.sourceDeploymentName, t);
    var resolved := ResolveModelID(c, t);
    if resolved.Stop? {
      CarriesNames(c, st0, blanks, st0.sourceDeploymentName, resolved.trail);
    } else {
      ResolveIsStart(c, t);
      AnnouncesIs(c, st0, resolved.value);
      SourceCarries(c, st0, blanks, resolved.value);
      var sourced := ResolveSource(c, t, resolved.value);
      var name := sourced.trail.status.sourceDeploymentName;
      if sourced.Stop? {
        ConcludesCarry(c, st0, blanks, name);
        CarriesNames(c, st0, blanks, name, Conclude(sourced.trail, sourced.verdict).0);
      } else if resolved.value == "" {
        CarriesNames(c, st0, blanks, name, sourced.trail);
      } else {
        AfterSourceNames(c, st0, blanks, sourced.trail, resolved.value, sourced.value);
      }
    }
  }

  /** A pass blanks the name only when it announces a push and finds no slot for it. */
  predicate FindsNoSlot(c: Context, st0: Status, finalizer: bool) {
    Announces(c, st0, finalizer) && !c.replies.pushSlotFree
  }

  /** Every write of every pass stores hash and name as it read them, or as they belong together, or
      blanks a name it has no slot for, or gives the name in the spec. */
  lemma PassNamesSoundly(c: Context, st0: Status, finalizer: bool)
    ensures AllNamed(c, st0, FindsNoSlot(c, st0, finalizer), Reconcile(c, st0, finalizer).trail)
  {
    hide Carries, AllNamed, ReconcileActive, ReconcileObserve, Deletion, UpdateStatus, Announces;
    var t, name := Start(st0), st0.sourceDeploymentName;
    var blanks := FindsNoSlot(c, st0, finalizer);
    if PassCalls.Acting(c, finalizer) {
      ActingWithFinalizer(c, finalizer);
      ActiveNames(c, st0);
    } else {
      StartCarries(c, st0, blanks);
      UpdatesCarry(c, st0, blanks, name);
      DeletionCarries(c, st0, blanks, name, t, finalizer);
      ObserveCarries(c, st0, blanks, name, t);
      CarriesNames(c, st0, blanks, name, Reconcile(c, st0, finalizer).trail);
    }
  }

  lemma ActingWithFinalizer(c: Context, finalizer: bool)
    requires PassCalls.Acting(c, finalizer)
    ensures finalizer
  {
  }

  /* ---- what a pass leaves stored that works for a source the spec names ---- */

  /** The environment is free for the source, and the source is ready. */
  predicate Promotable(c: Context, source: string, env: Environment) {
    && env.candidate.None? && !Matches(env.current, source)
    && c.replies.findSource.Ok? && c.replies.findSource.value.id != ""
    && SourceReady(c.replies.findSource.value.status)
  }

  lemma NamingHolds(c: Context, st0: Status, v: View, t: Trail, su: StatusUpdate)
    requires Holds(st0, v, t)
    ensures Holds(st0, v.(name := KeepOr(v.name, su.sourceDeploymentName)), UpdateStatus(c, t, su))
  {
    hide Conditions, ConditionsChanged;
  }

  lemma PromoteNames(c: Context, st0: Status, v: View, t: Trail, modelID: string, source: string, id: string,
                     env: Environment)
    requires Holds(st0, v, t)
    ensures Holds(st0, v.(name := KeepOr(v.name, source)), PromoteSource(c, t, modelID, source, id, env).0)
  {
    hide UpdateStatus, Skipped;
    NamingHolds(c, st0, v, t, SourceUpdate(env, PromotingDeployment, "promoting " + source, modelID)
                                .(sourceDeploymentID := id, sourceDeploymentName := source));
    UpdatesHold(c, st0, v.(name := KeepOr(v.name, source)));
  }

  lemma PromotableNames(c: Context, st0: Status, v: View, t: Trail, modelID: string, source: string, env: Environment)
    requires Holds(st0, v, t) && Promotable(c, source, env)
    ensures Holds(st0, v.(name := KeepOr(v.name, source)), WithEnvironment(c, t, modelID, source, env).0)
  {
    hide UpdateStatus, PromoteSource, Holds;
    GuardHolds(c, st0, v, t, env, modelID, source);
    PromoteNames(c, st0, v, ForgetCandidate(t, env, source), modelID, source, c.replies.findSource.value.id, env);
  }

  lemma UnpromotableHolds(c: Context, st0: Status, v: View, t: Trail, modelID: string, source: string, env: Environment)
    requires Holds(st0, v, t) && !Promotable(c, source, env)
    ensures Holds(st0, v, WithEnvironment(c, t, modelID, source, env).0)
  {
    hide Holds, UpdateStatus, SteadyState, Reactivate, PromotionInProgress, DoublePromoteGuard, ValidateSource,
      PromoteSource, Conclude;
    if Matches(env.current, source) {
      SteadyHolds(c, st0, v, t, modelID, env);
      ReactivateHolds(c, st0, v, t, modelID, env);
    } else if Matches(env.candidate, source) {
      CandidateHolds(c, st0, v, t, modelID, env);
    } else {
      var guard := DoublePromoteGuard(c, t, env, modelID, source);
      GuardHolds(c, st0, v, t, env, modelID, source);
      GuardAndValidation(c, t, modelID, source, env);
      if guard.Go? {
        ValidateHolds(c, st0, v, guard.trail, modelID, source, env);
        var valid := ValidateSource(c, guard.trail, modelID, source, env);
        ConcludeHolds(c, st0, v, valid.trail, valid.verdict);
      }
    }
  }

  lemma GuardAndValidation(c: Context, t: Trail, modelID: string, source: string, env: Environment)
    requires !Matches(env.current, source) && !Promotable(c, source, env)
    ensures var guard := DoublePromoteGuard(c, t, env, modelID, source);
      guard.Go? ==> ValidateSource(c, guard.trail, modelID, source, env).Stop?
  {
    hide UpdateStatus, TryRetry;
  }

  lemma EnvironmentGoes(c: Context, t: Trail, modelID: string)
    ensures var step := ReconcileEnvironment(c, t, modelID);
      && (step.Go? <==> c.replies.environment.Ok? && PassCalls.Undrifted(c, c.replies.environment.value))
      && (step.Go? ==> step == Go(t, c.replies.environment.value))
  {
    hide UpdateStatus, BaselineDrift, AnyPromotionDrift, ScheduleDrift;
  }

  /** A pass for a named source gets as far as promoting it. */
  ghost predicate GetsToPromote(c: Context, st: Status) {
    && PassCalls.ModelIdFor(c, st) != ""
    && c.replies.environment.Ok? && PassCalls.Undrifted(c, c.replies.environment.value)
    && Promotable(c, c.spec.sourceDeploymentName, c.replies.environment.value)
  }

  lemma ActiveRenames(c: Context, st0: Status)
    requires c.spec.truss.None?
    ensures var v, source := ViewOf(st0), c.spec.sourceDeploymentName;
      Holds(st0, if GetsToPromote(c, st0) then v.(name := KeepOr(v.name, source)) else v,
            ReconcileActive(c, Start(st0)).0)
  {
    hide Holds, UpdateStatus, ReconcileEnvironment, WithEnvironment, Conclude, Promotable, PassCalls.Undrifted;
    var t, v, source := Start(st0), ViewOf(st0), c.spec.sourceDeploymentName;
    StartHolds(st0);
    ResolveHolds(c, st0, v, t);
    var id := PassCalls.ModelIdFor(c, st0);
    var resolved := ResolveModelID(c, t);
    if resolved.Go? && id != "" {
      EnvironmentGoes(c, t, id);
      EnvironmentHolds(c, st0, v, t, id);
      var step := ReconcileEnvironment(c, t, id);
      if step.Stop? {
        ConcludeHolds(c, st0, v, step.trail, step.verdict);
      } else if Promotable(c, source, step.value) {
        PromotableNames(c, st0, v, t, id, source, step.value);
      } else {
        UnpromotableHolds(c, st0, v, t, id, source, step.value);
      }
    }
  }

  /** The pass promotes some deployment. */
  ghost predicate Promoting(c: Context, st: Status, finalizer: bool) {
    exists id :: Promote(id) in Reconcile(c, st, finalizer).trail.calls
  }

  lemma PromotingIs(c: Context, st: Status, finalizer: bool)
    requires c.spec.truss.None?
    ensures Promoting(c, st, finalizer) <==> PassCalls.Acting(c, finalizer) && GetsToPromote(c, st)
  {
    hide Reconcile, BaselineDrift, AnyPromotionDrift, ScheduleDrift;
    if Promoting(c, st, finalizer) {
      var id :| Promote(id) in Reconcile(c, st, finalizer).trail.calls;
      Promotion.PromotesExactlyWhen(c, st, finalizer, id);
    }
    if PassCalls.Acting(c, finalizer) && GetsToPromote(c, st) {
      var id := c.replies.findSource.value.id;
      assert PassCalls.PromoteDue(c, st, c.spec.sourceDeploymentName, c.replies.environment.value, id);
      Promotion.PromotesExactlyWhen(c, st, finalizer, id);
    }
  }

  /** A pass that works for a source the spec names leaves that name beside the hash of a
      configuration exactly when it promotes; otherwise it leaves all push fields alone. */
  lemma NamedSourceStaysExactlyUnlessPromoting(c: Context, st0: Status, finalizer: bool)
    requires c.spec.truss.None?
    ensures var v, source := ViewOf(st0), c.spec.sourceDeploymentName;
      ViewOf(LastStored(st0, Reconcile(c, st0, finalizer).trail)) ==
        if Promoting(c, st0, finalizer) then v.(name := KeepOr(v.name, source)) else v
  {
    hide LastStored, ViewOf, ReconcileActive, Deletion, ReconcileObserve, UpdateStatus, Promoting, GetsToPromote;
    var t, v := Start(st0), ViewOf(st0);
    PromotingIs(c, st0, finalizer);
    StartHolds(st0);
    if PassCalls.Acting(c, finalizer) {
      ActiveRenames(c, st0);
    } else {
      UpdatesHold(c, st0, v);
      DeletionHolds(c, st0, v, t, finalizer);
      ObserveHolds(c, st0, v, t);
    }
  }
}
