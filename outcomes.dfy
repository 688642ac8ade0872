/** Outcomes shared by every part of the model: optional values and the
    errors a promise rejects (or a call throws) with. */
module Outcomes {

  datatype Option<T> = None | Some(value: T)

  /** The three kinds of error the runner produces. */
  datatype Error =
    /** `Joi.assert` refused an argument; `subject` is the message it was given. */
    | Invalid(subject: string)
    /** An `Error` (or chai `AssertionError`) whose message is `message`. */
    | Failure(message: string)
    /** An exception thrown from inside an I/O callback: it escapes the
        surrounding promise, which then never settles. */
    | Escaped(message: string)

  datatype Result<T> = Ok(value: T) | Err(error: Error)

  /** `err.message`. */
  function Message(e: Error): (m: string)
    ensures e.Invalid? ==> m == e.subject
    ensures !e.Invalid? ==> m == e.message
  {
    match e
    case Invalid(s) => s
    case Failure(m) => m
    case Escaped(m) => m
  }
}
