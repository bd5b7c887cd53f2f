/** Small value types shared by the whole model. */
module Base {

  /** An optional value: JavaScript's `null`/`undefined` against a present value. */
  datatype Option<T> = None | Some(value: T)

  /** One octet of a binary body. */
  newtype byte = x: int | 0 <= x < 256

  /** The settled outcome of a promise-returning body reader
      (`response.json()`, `response.text()`, `response.blob()`, `response.arrayBuffer()`):
      it resolves with a value or rejects with an error carrying a message. */
  datatype Read<T> = Done(value: T) | Failed(message: string)

  /** `response.ok` of a fetch response: the status is in the 2xx range. */
  predicate IsOkStatus(status: nat) {
    200 <= status <= 299
  }
}
