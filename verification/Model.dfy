/** The custom resource: what it declares and what the operator keeps in its status. */
module Model {
  import opened Types
  import opened Drift
  import opened Schedules
  import opened Baseten

  datatype Mode = ModeUnset | ReconcileMode | ObserveMode | PauseMode

  datatype DeletionPolicy = PolicyUnset | Retain | Delete | DeleteWithGuardrails
  {
    predicate Deletes() {
      Delete? || DeleteWithGuardrails?
    }
  }

  /** The inline deployment definition: everything the hash covers, and the image among it. */
  datatype TrussConfig = TrussConfig(content: string, image: string)

  /** The hash of a definition and its setup script. */
  type Hasher = (TrussConfig, string) -> string

  datatype EnvironmentConfig = EnvironmentConfig(
    name: string, autoscaling: Option<AutoscalingConfig>, promotion: Option<PromotionConfig>,
    schedule: Option<ScheduleConfig>)

  datatype CleanupConfig = CleanupConfig(
    scaleToZero: Option<bool>, delete: Option<bool>, deleteAfterDays: Option<int>, minToKeep: Option<int>,
    intervalMinutes: Option<int>)

  datatype Spec = Spec(
    modelName: string, sourceDeploymentName: string, truss: Option<TrussConfig>, environment: EnvironmentConfig,
    cleanup: Option<CleanupConfig>, mode: Mode, paused: bool, deletionPolicy: DeletionPolicy)
  {
    /** The deprecated pause flag wins over the mode; an unset mode means Reconcile. */
    function EffectiveMode(): Mode {
      if paused then PauseMode else if mode.ModeUnset? then ReconcileMode else mode
    }
  }

  datatype PushStatus = NoPush | Pushing | PushDone | PushFailed

  /** A status message: what is said, and the deployments whose names and counts it shows. */
  datatype Message =
    | NoMessage
    | PausedOver(last: Message)
    | Note(text: string, active: Option<Deployment>, shown: Option<Deployment>)

  datatype ConditionKind = Ready | Progressing | OtherKind(name: string)

  datatype Condition = Condition(
    kind: ConditionKind, isTrue: bool, transition: Time, generation: int, reason: StatusCode, message: Message)

  datatype Status = Status(
    modelID: string, modelIDResolvedTime: Option<Time>,
    sourceDeploymentID: string, sourceDeploymentName: string, activeDeploymentName: string,
    candidateDeploymentID: string, candidateDeploymentName: string,
    deploymentStatus: StatusCode, activeReplicaCount: int, message: Message,
    trussConfigHash: string, pushStatus: PushStatus, pushFailureCount: int, pushNextRetryTime: Option<Time>,
    pushLastError: string, pushTime: Option<Time>,
    lastCleanupTime: Option<Time>,
    firstFailureTime: Option<Time>, retryCount: int, nextRetryTime: Option<Time>,
    conditions: seq<Condition>)
}
