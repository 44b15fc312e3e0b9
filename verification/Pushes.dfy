/** What a finished push writes back to the status it finds stored. */
module Pushes {
  import opened Types
  import opened Model
  import opened Backoff
  import opened Steps

  const MAX_PUSH_ERROR_LEN: nat := 512

  function TruncateString(s: string, n: nat): string {
    if |s| <= n then s else s[..n] + "..."
  }

  /** A push succeeded; the model ID comes with it when the push created the model. The name the
      push was for is not looked at. */
  function UpdatePushStatus(st: Status, modelID: string, now: Time): Status {
    var done := ClearPushFailure(st.(pushStatus := PushDone, pushTime := None));
    if modelID == "" then done else done.(modelID := modelID, modelIDResolvedTime := Some(now))
  }

  /** A push failed: one more failure, and a longer wait. */
  function RecordPushFailure(st: Status, error: string, now: Time, jitter: nat): Status {
    var count := st.pushFailureCount + 1;
    st.(pushStatus := PushFailed, pushTime := None, pushFailureCount := count,
        pushNextRetryTime := Some(now + Interval(count) + jitter),
        pushLastError := TruncateString(error, MAX_PUSH_ERROR_LEN))
  }
}
