/**
 * The shape every async thunk of the stores shares: the request either answers
 * with data or fails, and a failure is turned into a rejection value with
 * `rejectWithValue(error.response?.data?.message || fallback)`.
 */
module Thunks {
  import opened Options

  /** What the HTTP call produced: the response data, or a failure with the body's `message` if it had one. */
  datatype Reply<+T> = Answered(data: T) | Failed(message: Option<string>)

  /** How the thunk settles: `fulfilled` with a payload or `rejected` with a value. */
  datatype Outcome<+T> = Fulfilled(payload: T) | Rejected(reason: string)

  /** `message || fallback`: the server's message when it is a non-empty string, otherwise the fallback. */
  function RejectValue(message: Option<string>, fallback: string): (r: string)
    ensures r == fallback || (message.Some? && r == message.value)
    ensures r == fallback <==> message.None? || message.value == "" || message.value == fallback
    ensures fallback != "" ==> r != ""
  {
    if message.Some? && message.value != "" then message.value else fallback
  }

  /** A thunk that passes the response data through: fulfilled with the data, or rejected with the message. */
  function Settle<T>(reply: Reply<T>, fallback: string): (r: Outcome<T>)
    ensures reply.Answered? <==> r.Fulfilled?
    ensures r.Fulfilled? ==> r.payload == reply.data
    ensures r.Rejected? ==> r.reason == RejectValue(reply.message, fallback)
  {
    match reply
    case Answered(data) => Fulfilled(data)
    case Failed(message) => Rejected(RejectValue(message, fallback))
  }
}
