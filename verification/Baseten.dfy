/** What the Baseten API reports, and how its calls can answer. */
module Baseten {
  import opened Types
  import opened Drift
  import opened Schedules

  datatype Deployment = Deployment(id: string, name: string, status: StatusCode, replicas: int)

  datatype Environment = Environment(
    name: string, current: Option<Deployment>, candidate: Option<Deployment>,
    autoscaling: Option<AutoscalingSettings>, promotion: Option<PromotionConfig>,
    schedules: Option<AutoscalingSchedules>, schedulesUnreadable: bool)

  /** A creation time as the API writes it: its place in string order, which is what sorting
      compares, and the instant it parses to, if it does. */
  datatype CreatedAt = CreatedAt(key: int, instant: Option<Time>)

  /** A deployment as the list call reports it. */
  datatype Detail = Detail(
    id: string, name: string, status: StatusCode, createdAt: CreatedAt, isProduction: bool, isDevelopment: bool,
    environment: Option<string>, minReplica: Option<int>)

  datatype ApiResult<+T> = Ok(value: T) | NotFound | Failure

  /** A lookup by name: the id is "" when there is no such deployment. */
  datatype Found = Found(id: string, status: StatusCode)

  datatype RetryResponse = RetryResponse(retried: bool)
}
