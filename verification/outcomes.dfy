/** Small failure-carrying datatypes shared by every module of the model. */
module Outcomes {

  /** A value that may be missing; stands for a Go pointer that may be nil. */
  datatype Option<+T> = None | Some(value: T)

  /** The outcome of a call into code this model does not see (the remote API, the
      JSON encoder, the argument binder): a value, or the text of the Go error. */
  datatype Reply<+T> = Ok(value: T) | Failed(err: string)
}
