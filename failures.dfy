/**
 * The exceptions of the dispatch stage, as values.
 *
 * Java signals failure by throwing; here a failure is a `Failure` value and an
 * operation that may throw returns a `Result` (when it also yields a value) or
 * an `Outcome` (when it yields nothing).
 */
module Failures {

  /** The exception kinds the core raises, catches by type, or passes on. */
  datatype Failure =
    /** Spring's HttpServerErrorException: the remote service answered 5xx. */
    | HttpServerError(status: nat, statusText: string)
    /** Spring's ResourceAccessException: an I/O error reaching the service (timeout, refused, reset). */
    | ResourceAccess(message: string)
    /**
     * Any other java.lang.Exception, identified by its class name and its
     * message. `kind` never names HttpServerErrorException,
     * ResourceAccessException, RetryableException or NotRetryableException
     * (those have constructors of their own) nor a java.lang.Error (see Fatal).
     */
    | Other(kind: string, message: string)
    /**
     * A java.lang.Error (StackOverflowError, OutOfMemoryError, AssertionError):
     * a Throwable that is not an Exception, so no `catch (Exception e)` clause
     * catches it.
     */
    | Fatal(kind: string, message: string)
    /** RetryableException built from a cause: the message is to be redelivered. */
    | Retryable(cause: Failure)
    /** NotRetryableException built from a cause: the message goes to the dead-letter topic. */
    | NotRetryable(cause: Failure)

  /** A call that returns a value or throws. */
  datatype Result<T> = Ok(value: T) | Err(error: Failure)

  /** A call that returns nothing or throws. */
  datatype Outcome = Pass | Fail(error: Failure)

  /** The class name of the generic exception the stock client throws on a non-200 reply. */
  const RUNTIME_EXCEPTION: string := "java.lang.RuntimeException"

  /** A Throwable that a `catch (Exception e)` clause catches: everything but an Error. */
  predicate IsException(f: Failure) {
    !f.Fatal?
  }

  /** The two exception kinds the stock client turns into a Retryable failure. */
  predicate IsTransient(f: Failure) {
    f.HttpServerError? || f.ResourceAccess?
  }
}
