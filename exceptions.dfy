/** What a call can throw, and the result of a call that can throw.
    The parser's own `ParserError` is declared in a header that is not
    part of this model; only the fact that it is thrown is kept. */
module Exceptions {
  import Errors

  /** The standard-library exceptions a converter can throw. */
  datatype StdException = InvalidArgument | OutOfRange | OtherStdException(name: string)

  datatype Exception =
    | LibraryError(error: Errors.Error)
    | ParserError
    | StdError(std: StdException)

  /** A returned value, or the exception that was thrown instead. */
  datatype Result<+T> = Success(value: T) | Failure(exception: Exception)
}
