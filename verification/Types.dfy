/** Vocabulary shared by the whole model: optional values, instants and deployment statuses. */
module Types {

  datatype Option<+T> = None | Some(value: T)

  /** An instant or a duration, in nanoseconds, as Go's time package counts them. */
  type Time = int

  const SECOND: int := 1_000_000_000
  const MINUTE: int := 60 * SECOND
  const HOUR: int := 60 * MINUTE
  const DAY: int := 24 * HOUR

  /** Deployment statuses of the Baseten API together with the ones the operator invents.
      `Blank` is the empty string and `Unknown` any status the operator has no name for. */
  datatype StatusCode =
    | Active | Failed | ScaledToZero | Inactive | Deploying | Building | WakingUp | Activating
    | Updating | DeployFailed | LoadingModel | Unhealthy | BuildFailed | BuildStopped | Deactivating
    | Promoting | PromotingDeployment | Pending | Paused | Deleting | DeleteFailed | DeleteBlocked
    | Blank
    | Unknown(text: string)
  {
    predicate TerminalFailure() {
      Failed? || DeployFailed? || BuildFailed? || BuildStopped?
    }

    predicate RetryableFailure() {
      Failed? || DeployFailed? || BuildFailed?
    }

    /** The statuses under which the CR is reported Ready. */
    predicate Healthy() {
      Active? || ScaledToZero?
    }

    predicate Progressing() {
      || Promoting? || PromotingDeployment? || Pending? || Deleting?
      || Activating? || Building? || Deploying? || WakingUp? || Updating? || LoadingModel?
    }
  }
}
