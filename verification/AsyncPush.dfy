/** The goroutine that carries out a push, and the slots that bound how many run at once. */
module AsyncPush {
  import opened Types
  import opened Model
  import opened Backoff
  import opened Steps
  import P = Pushes

  /** A buffered channel used as a counting semaphore. */
  class PushSlots {
    const capacity: nat
    var tokens: nat

    ghost predicate Valid()
      reads this
    {
      tokens <= capacity
    }

    constructor (capacity: nat)
      ensures Valid() && tokens == 0 && this.capacity == capacity
    {
      this.capacity := capacity;
      tokens := 0;
    }

    /** Never blocks: a full channel is reported. */
    method TryAcquire() returns (acquired: bool)
      requires Valid()
      modifies this
      ensures Valid() && acquired == (old(tokens) < capacity)
      ensures tokens == if acquired then old(tokens) + 1 else old(tokens)
    {
      acquired := tokens < capacity;
      if acquired {
        tokens := tokens + 1;
      }
    }

    method Release()
      requires Valid() && tokens > 0
      modifies this
      ensures Valid() && tokens == old(tokens) - 1
    {
      tokens := tokens - 1;
    }
  }

  datatype PushResult = Pushed(modelID: string) | PushError(text: string)

  /** The object as the goroutine finds it in its last, conflict-free attempt. */
  class StoredObject {
    var status: Status

    constructor (status: Status)
      ensures this.status == status
    {
      this.status := status;
    }

    method ClearPushFailure()
      modifies this
      ensures status == Steps.ClearPushFailure(old(status))
    {
      status := status.(pushFailureCount := 0);
      status := status.(pushNextRetryTime := None);
      status := status.(pushLastError := "");
    }

    method UpdatePushStatus(modelID: string, now: Time)
      modifies this
      ensures status == P.UpdatePushStatus(old(status), modelID, now)
    {
      status := status.(pushStatus := PushDone);
      status := status.(pushTime := None);
      ClearPushFailure();
      if modelID != "" {
        status := status.(modelID := modelID);
        status := status.(modelIDResolvedTime := Some(now));
      }
    }

    method RecordPushFailure(error: string, now: Time, jitter: nat)
      modifies this
      ensures status == P.RecordPushFailure(old(status), error, now, jitter)
    {
      status := status.(pushStatus := PushFailed);
      status := status.(pushTime := None);
      status := status.(pushFailureCount := status.pushFailureCount + 1);
      var backoff := RetryBackoff(status.pushFailureCount, jitter);
      status := status.(pushNextRetryTime := Some(now + backoff));
      status := status.(pushLastError := P.TruncateString(error, P.MAX_PUSH_ERROR_LEN));
    }
  }

  /** However the push ends, its outcome is written and its slot is given back once. */
  method AsyncPush(slots: PushSlots, stored: StoredObject, result: PushResult, now: Time, jitter: nat)
    requires slots.Valid() && slots.tokens > 0
    modifies slots, stored
    ensures slots.Valid() && slots.tokens == old(slots.tokens) - 1
    ensures stored.status ==
      match result
      case Pushed(modelID) => P.UpdatePushStatus(old(stored.status), modelID, now)
      case PushError(text) => P.RecordPushFailure(old(stored.status), text, now, jitter)
  {
    match result {
      case Pushed(modelID) => stored.UpdatePushStatus(modelID, now);
      case PushError(text) => stored.RecordPushFailure(text, now, jitter);
    }
    slots.Release();
  }
}
