/**
 * The error path every remote call of the storage blob service goes through
 * (`_callStorageClient`), and the single-file upload built on it.
 *
 * The storage SDK, the client lookup `storageClient.getFor` and the RxJS
 * plumbing are not part of this model: a remote call is represented by the
 * reply it gets, a `Reply`, and what the caller observes is an `Outcome`.
 */
module StorageCall {

  /** A failure reported by the storage SDK or by the client lookup. */
  datatype StorageFailure = StorageFailure(statusCode: int, message: string)

  /** The normalized error callers observe. */
  datatype ServerError = ServerError(status: int, message: string)

  /** How the SDK's promise settled. */
  datatype Reply<+T> = Resolved(value: T) | Rejected(failure: StorageFailure)

  /** What the returned observable does: emit one value, or raise an error. */
  datatype Outcome<+T> = Emitted(value: T) | Raised(error: ServerError)

  /** The outcome of a call and the errors its optional error callback was given, in order. */
  datatype CallResult<+T> = CallResult(outcome: Outcome<T>, callbackCalls: seq<ServerError>)

  /**
   * `ServerError.fromStorage`, reduced to what it keeps of a storage failure:
   * its status code and its message.
   */
  function FromStorage(e: StorageFailure): (r: ServerError)
    ensures r.status == e.statusCode && r.message == e.message
  {
    ServerError(e.statusCode, e.message)
  }

  /**
   * `_callStorageClient`: a resolved reply is passed through; a rejected one is
   * normalized, handed once to the error callback when there is one, and
   * re-raised. Nothing is retried and nothing is swallowed.
   */
  function CallStorageClient<T>(reply: Reply<T>, hasErrorCallback: bool): (r: CallResult<T>)
    ensures r.outcome.Emitted? <==> reply.Resolved?
    ensures reply.Resolved? ==> r.outcome.value == reply.value && r.callbackCalls == []
    ensures reply.Rejected? ==> r.outcome.error == FromStorage(reply.failure)
    ensures |r.callbackCalls| == (if reply.Rejected? && hasErrorCallback then 1 else 0)
    ensures forall e :: e in r.callbackCalls ==> r.outcome == Raised(e)
  {
    match reply
    case Resolved(v) => CallResult(Emitted(v), [])
    case Rejected(f) =>
      var e := FromStorage(f);
      CallResult(Raised(e), if hasErrorCallback then [e] else [])
  }

  /**
   * `uploadFile`: one upload through `_callStorageClient`, with an error
   * callback that logs the failure.
   */
  function UploadFile<T>(reply: Reply<T>): (r: CallResult<T>)
    ensures r.outcome.Raised? <==> reply.Rejected?
    ensures reply.Rejected? ==> r.outcome == Raised(FromStorage(reply.failure))
    ensures reply.Rejected? ==> r.callbackCalls == [FromStorage(reply.failure)]
    ensures reply.Resolved? ==> r == CallResult(Emitted(reply.value), [])
  {
    CallStorageClient(reply, true)
  }
}
