/**
 * The values a request handler can panic with, as the error mapper sees
 * them: the application's not-found signal (exception/not_found_err.go),
 * the validator's aggregate of field errors, and any other value.
 */
module Failures {

  /** The not-found signal; `Error` is the message it carries. */
  datatype NotFoundErr = NotFoundErr(Error: string)

  /** `NewNotFoundErr`: wraps a message into the not-found signal. */
  function NewNotFoundErr(err: string): (e: NotFoundErr)
    ensures e.Error == err
  {
    NotFoundErr(err)
  }

  /** Distinct messages give distinct signals, and equal ones equal signals. */
  lemma NewNotFoundErrInjective(a: string, b: string)
    ensures NewNotFoundErr(a) == NewNotFoundErr(b) <==> a == b
  {
  }

  /** The validator's `ValidationErrors`, kept as the text its `Error()` renders. */
  datatype ValidationErrors = ValidationErrors(rendered: string)

  /** A failure value of any other dynamic type. */
  datatype Value =
    | NumError(num: string)   // the error strconv.Atoi returns for the input `num`
    | Fault(message: string)  // any other error (a database failure, say)

  /** The dynamic value of a recovered panic. */
  datatype Failure =
    | NotFound(notFound: NotFoundErr)
    | Invalid(errors: ValidationErrors)
    | Other(value: Value)
}
