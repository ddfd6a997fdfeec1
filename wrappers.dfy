/** Option and the shape of a backend answer, shared by every store and page. */
module Wrappers {

  datatype Option<+T> = None | Some(value: T)

  /** How a `fetch` call ended, as seen by the code awaiting it:
      - Ok: a 2xx response whose JSON body is `payload`;
      - Fail: a response with a non-2xx `status`;
      - Rejected: the call threw, with the thrown error's `message`: the
        transport failed before any status arrived, or the body could not be
        decoded after the status was checked. */
  datatype Response<+T> = Ok(payload: T) | Fail(status: int) | Rejected(message: string)
}
