// What the Redux slices of the front end share: the payload of a fulfilled
// request, which is either a `{ data }` envelope or the value itself, and the
// error text a rejected request leaves behind.

module Store {
  import opened Util

  /** A fulfilled payload: a `{ data }` envelope, or the bare value. */
  datatype Payload<T> = Enveloped(data: T) | Bare(value: T)

  /** `action.payload.data || action.payload`. */
  function Unwrap<T>(p: Payload<T>): T
  {
    if p.Enveloped? then p.data else p.value
  }

  /** `action.error.message || fallback`: a missing or empty message falls
    * back, so the error text is never empty when the fallback is not. */
  function ErrorText(message: Option<string>, fallback: string): (e: string)
    ensures message.Some? && message.value != "" ==> e == message.value
    ensures message.None? || message.value == "" ==> e == fallback
    ensures fallback != "" ==> e != ""
  {
    if message.Some? && message.value != "" then message.value else fallback
  }
}
