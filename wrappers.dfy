/** Small value wrappers shared by every module of the model. */
module Wrappers {

  /** JavaScript's `T | null` / `T | undefined`. */
  datatype Option<T> = None | Some(value: T)

  /** The outcome of an awaited `fetch(...)` followed by `response.json()`: a response with its
      `ok` flag and its parsed body, or an exception (network failure, unparsable body). */
  datatype FetchOutcome<T> = Response(ok: bool, body: T) | Thrown

  /** The `type: 'user' | 'assistant'` tag of a chat message. */
  datatype Speaker = User | Assistant
}
