/**
 * The facade's error type: an error value that has already been logged.
 * It carries the user-facing message (what Error() returns) and the text of
 * the underlying cause (what RawError() returns).
 */
module Errors {

  datatype Error = Error(message: string, rawError: string)
  {
    /** Go's `Error() string`: the user-facing message. */
    function Message(): string
    {
      message
    }

    function RawError(): string
    {
      rawError
    }
  }

  /** Builds an Error value; it is not logged by being built. */
  function NewError(message: string, rawError: string): (e: Error)
    ensures e.Message() == message && e.RawError() == rawError
  {
    Error(message, rawError)
  }

  /** Two Error values are equal exactly when their message and raw cause agree. */
  lemma ErrorDeterminedByAccessors(a: Error, b: Error)
    ensures a == b <==> a.Message() == b.Message() && a.RawError() == b.RawError()
  {
  }

  /**
   * A non-nil value of Go's `error` interface as the facade sees it: either
   * one of its own Error values or any other error, known only by the text
   * its Error() method returns. LogError treats every Error value as already
   * logged, including one built by NewError and never logged.
   */
  datatype Failure = AlreadyLogged(logged: Error) | Raw(text: string)
  {
    function Text(): string
    {
      match this
      case AlreadyLogged(e) => e.Message()
      case Raw(t) => t
    }
  }
}
