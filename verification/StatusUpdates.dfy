/** Refreshing the status: its effect in memory, and when it reaches the API server. */
module StatusUpdates {
  import opened Types
  import opened Baseten
  import opened Model

  datatype StatusUpdate = StatusUpdate(
    deploymentStatus: StatusCode, message: Message, modelID: string,
    sourceDeploymentID: string, sourceDeploymentName: string, activeDeploymentName: string,
    candidateDeploymentID: string, candidateDeploymentName: string, clearCandidate: bool,
    replicaCount: int, firstFailureTime: Option<Time>)

  function SetCondition(cs: seq<Condition>, c: Condition, now: Time): seq<Condition> {
    if cs == [] then [c.(transition := now)]
    else if cs[0].kind == c.kind then
      [c.(transition := if cs[0].isTrue == c.isTrue then cs[0].transition else now)] + cs[1..]
    else [cs[0]] + SetCondition(cs[1..], c, now)
  }

  predicate Differs(c: Condition, reason: StatusCode, ready: bool, progressing: bool) {
    || (c.kind.Ready? && (c.isTrue != ready || c.reason != reason))
    || (c.kind.Progressing? && (c.isTrue != progressing || c.reason != reason))
  }

  predicate ConditionsChanged(cs: seq<Condition>, reason: StatusCode, ready: bool, progressing: bool) {
    exists i :: 0 <= i < |cs| && Differs(cs[i], reason, ready, progressing)
  }

  function KeepOr(have: string, given: string): string {
    if given != "" then given else have
  }

  function Conditions(cs: seq<Condition>, su: StatusUpdate, generation: int, now: Time): seq<Condition> {
    SetCondition(
      SetCondition(cs, Condition(Ready, su.deploymentStatus.Healthy(), 0, generation, su.deploymentStatus,
                                 su.message), now),
      Condition(Progressing, su.deploymentStatus.Progressing(), 0, generation, su.deploymentStatus, su.message), now)
  }

  /** The status after an update, in memory. */
  function Updated(st: Status, su: StatusUpdate, generation: int, now: Time): Status {
    var healthy := su.deploymentStatus.Healthy();
    st.(deploymentStatus := su.deploymentStatus,
        message := su.message,
        activeReplicaCount := su.replicaCount,
        modelID := KeepOr(st.modelID, su.modelID),
        modelIDResolvedTime := if su.modelID != "" then Some(now) else st.modelIDResolvedTime,
        sourceDeploymentID := KeepOr(st.sourceDeploymentID, su.sourceDeploymentID),
        sourceDeploymentName := KeepOr(st.sourceDeploymentName, su.sourceDeploymentName),
        activeDeploymentName := KeepOr(st.activeDeploymentName, su.activeDeploymentName),
        candidateDeploymentID := if su.clearCandidate then ""
            else KeepOr(st.candidateDeploymentID, su.candidateDeploymentID),
        candidateDeploymentName := if su.clearCandidate then ""
            else KeepOr(st.candidateDeploymentName, su.candidateDeploymentName),
        firstFailureTime := if healthy then None else if su.firstFailureTime.Some? then su.firstFailureTime
            else st.firstFailureTime,
        retryCount := if healthy then 0 else st.retryCount,
        nextRetryTime := if healthy then None else st.nextRetryTime,
        conditions := Conditions(st.conditions, su, generation, now))
  }

  /** The fields whose change makes a write worthwhile; the time a model ID was resolved only
      counts as set or not set, and the retry fields are not among them. */
  predicate SameSnapshot(a: Status, b: Status) {
    && a.deploymentStatus == b.deploymentStatus && a.message == b.message
    && a.activeReplicaCount == b.activeReplicaCount
    && a.modelID == b.modelID && a.modelIDResolvedTime.Some? == b.modelIDResolvedTime.Some?
    && a.sourceDeploymentID == b.sourceDeploymentID && a.sourceDeploymentName == b.sourceDeploymentName
    && a.activeDeploymentName == b.activeDeploymentName
    && a.candidateDeploymentID == b.candidateDeploymentID && a.candidateDeploymentName == b.candidateDeploymentName
  }

  /** Whether the update is left unwritten. */
  predicate Skipped(st: Status, su: StatusUpdate, generation: int, now: Time) {
    var st' := Updated(st, su, generation, now);
    && SameSnapshot(st', st)
    && !ConditionsChanged(st'.conditions, su.deploymentStatus, su.deploymentStatus.Healthy(),
                          su.deploymentStatus.Progressing())
  }

  /* ---- the condition list ---- */

  predicate OneEach(cs: seq<Condition>) {
    forall i, j :: 0 <= i < j < |cs| ==> cs[i].kind != cs[j].kind
  }

  function Get(cs: seq<Condition>, kind: ConditionKind): Option<Condition> {
    if cs == [] then None else if cs[0].kind == kind then Some(cs[0]) else Get(cs[1..], kind)
  }

  lemma {:induction false} GetFinds(cs: seq<Condition>, kind: ConditionKind)
    ensures Get(cs, kind).None? <==> forall c :: c in cs ==> c.kind != kind
    ensures Get(cs, kind).Some? ==> Get(cs, kind).value in cs && Get(cs, kind).value.kind == kind
    ensures OneEach(cs) ==> forall c :: c in cs && c.kind == kind ==> Get(cs, kind) == Some(c)
  {
    if cs == [] {
    } else {
      GetFinds(cs[1..], kind);
      assert cs == [cs[0]] + cs[1..];
      assert OneEach(cs) ==> forall c :: c in cs[1..] ==> c.kind != cs[0].kind;
    }
  }

  /** Setting a condition replaces that kind alone, and its transition time moves only when its
      truth flips. */
  lemma {:induction false} SetConditionSets(cs: seq<Condition>, c: Condition, now: Time)
    ensures Get(SetCondition(cs, c, now), c.kind) == Some(
      c.(transition := if Get(cs, c.kind).Some? && Get(cs, c.kind).value.isTrue == c.isTrue
                       then Get(cs, c.kind).value.transition else now))
    ensures forall kind :: kind != c.kind ==> Get(SetCondition(cs, c, now), kind) == Get(cs, kind)
    ensures OneEach(cs) ==> OneEach(SetCondition(cs, c, now))
  {
    if cs == [] {
    } else if cs[0].kind == c.kind {
      var r := SetCondition(cs, c, now);
      assert r[1..] == cs[1..];
      assert forall kind :: kind != c.kind ==> Get(r, kind) == Get(cs[1..], kind);
    } else {
      var r := SetCondition(cs, c, now);
      SetConditionSets(cs[1..], c, now);
      assert r[1..] == SetCondition(cs[1..], c, now) && r[0] == cs[0];
      if OneEach(cs) {
        SetConditionMembers(cs[1..], c, now);
        forall k | 0 <= k < |r[1..]| ensures r[1..][k].kind != cs[0].kind {
          assert r[1..][k] in r[1..];
        }
      }
    }
  }

  lemma {:induction false} SetConditionMembers(cs: seq<Condition>, c: Condition, now: Time)
    ensures forall x :: x in SetCondition(cs, c, now) ==> x in cs || x.kind == c.kind
  {
    if cs != [] && cs[0].kind != c.kind {
      SetConditionMembers(cs[1..], c, now);
    }
  }

  /* ---- the status invariant ---- */

  predicate Reports(c: Option<Condition>, truth: bool, code: StatusCode, message: Message) {
    c.Some? && c.value.isTrue == truth && c.value.reason == code && c.value.message == message
  }

  predicate ConsistentWith(cs: seq<Condition>, code: StatusCode, message: Message) {
    && OneEach(cs)
    && (|| (Get(cs, Ready).None? && Get(cs, Progressing).None?)
        || (&& Reports(Get(cs, Ready), code.Healthy(), code, message)
            && Reports(Get(cs, Progressing), code.Progressing(), code, message)))
  }

  /** There is one condition per kind, and either neither of the operator's two exists yet, or
      both do and say what the deployment status says. */
  predicate Consistent(st: Status) {
    ConsistentWith(st.conditions, st.deploymentStatus, st.message)
  }

  /** In a consistent status Ready and Progressing are never both true. */
  lemma NeverReadyAndProgressing(st: Status)
    requires Consistent(st)
    ensures !(&& Get(st.conditions, Ready).Some? && Get(st.conditions, Ready).value.isTrue
              && Get(st.conditions, Progressing).Some? && Get(st.conditions, Progressing).value.isTrue)
    ensures Get(st.conditions, Ready).Some? ==>
      (Get(st.conditions, Ready).value.isTrue <==> st.deploymentStatus == Active || st.deploymentStatus == ScaledToZero)
  {
  }

  /** Every update leaves a consistent status, touches no other condition, and moves a
      transition time only on a flip. */
  lemma UpdateIsConsistent(st: Status, su: StatusUpdate, generation: int, now: Time)
    requires OneEach(st.conditions)
    ensures var st' := Updated(st, su, generation, now);
            && Consistent(st')
            && (forall kind :: kind != Ready && kind != Progressing ==>
                Get(st'.conditions, kind) == Get(st.conditions, kind))
            && Steady(st, st', Ready, now) && Steady(st, st', Progressing, now)
  {
    var cs := st.conditions;
    var ready := Condition(Ready, su.deploymentStatus.Healthy(), 0, generation, su.deploymentStatus, su.message);
    var progressing := Condition(Progressing, su.deploymentStatus.Progressing(), 0, generation, su.deploymentStatus,
                                 su.message);
    SetConditionSets(cs, ready, now);
    SetConditionSets(SetCondition(cs, ready, now), progressing, now);
  }

  /** The transition time of one kind moved exactly if its truth flipped (or it is new). */
  predicate Steady(st: Status, st': Status, kind: ConditionKind, now: Time) {
    var c, c' := Get(st.conditions, kind), Get(st'.conditions, kind);
    && c'.Some?
    && c'.value.transition == if c.Some? && c.value.isTrue == c'.value.isTrue then c.value.transition else now
  }

  predicate SameButGeneration(c: Option<Condition>, c': Option<Condition>) {
    c.Some? && c'.Some? && c'.value == c.value.(generation := c'.value.generation)
  }

  /** The check of the conditions never decides: on a consistent status that already has its
      conditions, an update is skipped exactly when the snapshot is unchanged. */
  lemma SkipRestsOnSnapshot(st: Status, su: StatusUpdate, generation: int, now: Time)
    requires OneEach(st.conditions)
    ensures Skipped(st, su, generation, now) <==> SameSnapshot(Updated(st, su, generation, now), st)
  {
    var st' := Updated(st, su, generation, now);
    UpdateIsConsistent(st, su, generation, now);
    GetFinds(st'.conditions, Ready);
    GetFinds(st'.conditions, Progressing);
  }

  /** What a skipped write leaves out of the stored status: a newer resolution time, cleared
      retry fields and the observed generation, and nothing else. */
  lemma SkippedWriteLosesOnly(st: Status, su: StatusUpdate, generation: int, now: Time)
    requires Consistent(st) && Get(st.conditions, Ready).Some?
    requires Skipped(st, su, generation, now)
    ensures var st' := Updated(st, su, generation, now);
      && st' == st.(modelIDResolvedTime := st'.modelIDResolvedTime, firstFailureTime := st'.firstFailureTime,
                    retryCount := st'.retryCount, nextRetryTime := st'.nextRetryTime, conditions := st'.conditions)
      && SameButGeneration(Get(st.conditions, Ready), Get(st'.conditions, Ready))
      && SameButGeneration(Get(st.conditions, Progressing), Get(st'.conditions, Progressing))
  {
    UpdateIsConsistent(st, su, generation, now);
    var cs := st.conditions;
    var ready := Condition(Ready, su.deploymentStatus.Healthy(), 0, generation, su.deploymentStatus, su.message);
    var progressing := Condition(Progressing, su.deploymentStatus.Progressing(), 0, generation, su.deploymentStatus,
                                 su.message);
    SetConditionSets(cs, ready, now);
    SetConditionSets(SetCondition(cs, ready, now), progressing, now);
    GetFinds(cs, Ready);
    GetFinds(cs, Progressing);
  }

  /** The first resolution of a model ID is never lost to the skip. */
  lemma FirstResolutionIsWritten(st: Status, su: StatusUpdate, generation: int, now: Time)
    requires st.modelIDResolvedTime.None? && su.modelID != ""
    ensures !Skipped(st, su, generation, now)
    ensures Updated(st, su, generation, now).modelIDResolvedTime.Some?
  {
  }
}
