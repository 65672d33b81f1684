/**
 * The outcome of an asynchronous operation as its reducers see it: the
 * fulfilled payload, or the value the operation rejected with.
 */
module Async {
  import opened Wrappers
  import opened Remote

  datatype Settled<T> = Fulfilled(payload: T) | Rejected(message: string)

  /** An operation's outcome together with the store as the operation left it. */
  datatype Completion<T> = Completion(outcome: Settled<T>, server: Server)

  /**
   * `error.response?.data?.message || fallback`: the server's message when it
   * sent a non-empty one (an empty string is falsy), the operation's own
   * fixed message otherwise.
   */
  function RejectionMessage(f: Failure, fallback: string): (m: string)
    ensures f.message.Some? && f.message.value != "" ==> m == f.message.value
    ensures m == fallback || Some(m) == f.message
    ensures fallback != "" ==> m != ""
  {
    match f.message
    case Some(text) => if text != "" then text else fallback
    case None => fallback
  }
}
