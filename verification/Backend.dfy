/** How an environment moves at Baseten: by itself, through other hands, and by the operator's calls. */
module Backend {
  import opened Types
  import opened Drift
  import opened Schedules
  import opened Baseten
  import opened Steps

  /** Everything that happens to an environment without a promote call. */
  datatype BackendStep =
    | CompletePromotion
    | CandidateTurns(status: StatusCode, replicas: int)
    | CandidateWithdrawn
    | CurrentTurns(status: StatusCode, replicas: int)
    | CurrentReplaced(deployment: Deployment)
    | SettingsBecome(autoscaling: Option<AutoscalingSettings>, promotion: Option<PromotionConfig>,
                     schedules: Option<AutoscalingSchedules>, unreadable: bool)
    | EnvironmentRemoved
    | EnvironmentAdded(name: string)

  function Fresh(name: string): Environment {
    Environment(name, None, None, None, None, None, false)
  }

  /** A completed promotion makes the candidate current, active with one replica. */
  function Completed(env: Environment): Environment
    requires env.candidate.Some?
  {
    env.(current := Some(env.candidate.value.(status := Active, replicas := 1)), candidate := None)
  }

  function MovedIn(e: Environment, s: BackendStep): Environment {
    match s
    case CompletePromotion => if e.candidate.Some? then Completed(e) else e
    case CandidateTurns(status, replicas) =>
      if e.candidate.Some? then e.(candidate := Some(e.candidate.value.(status := status, replicas := replicas))) else e
    case CandidateWithdrawn => e.(candidate := None)
    case CurrentTurns(status, replicas) =>
      if e.current.Some? then e.(current := Some(e.current.value.(status := status, replicas := replicas))) else e
    case CurrentReplaced(d) => e.(current := Some(d))
    case SettingsBecome(autoscaling, promotion, schedules, unreadable) =>
      e.(autoscaling := autoscaling, promotion := promotion, schedules := schedules, schedulesUnreadable := unreadable)
    case _ => e
  }

  function Moved(env: Option<Environment>, s: BackendStep): Option<Environment> {
    if s.EnvironmentRemoved? then None
    else if env.Some? then Some(MovedIn(env.value, s))
    else if s.EnvironmentAdded? then Some(Fresh(s.name))
    else None
  }

  /** A promote call puts its target in the candidate's place, whoever is there. */
  function Performed(env: Option<Environment>, call: Call, name: string, target: Deployment): Option<Environment> {
    match call
    case CreateEnvironment => if env.None? then Some(Fresh(name)) else env
    case Promote(_) => if env.None? then None else Some(env.value.(candidate := Some(target)))
    case _ => env
  }

  function AllPerformed(env: Option<Environment>, calls: seq<Call>, name: string,
                        target: Deployment): Option<Environment> {
    if calls == [] then env
    else Performed(AllPerformed(env, calls[..|calls| - 1], name, target), calls[|calls| - 1], name, target)
  }
}
