/**
 * The failure vocabulary of the event-sourcing runtime.
 *
 * Java's `null` becomes `None` wherever the source validates an argument or
 * dereferences a possibly-null value; every exception the modelled code throws
 * or wraps becomes an `Error` carried by a `Result` or an `Outcome`.
 */
module Failures {

  datatype Option<+T> = None | Some(value: T)

  datatype Error =
    /** `Validate.notNull` / `Validate.isTrue` rejected an argument. */
    | ValidationFailed(reason: string)
    /** A dereference of `null`: a method was called on a missing object. */
    | NullDereference
    | IllegalState(reason: string)
    | IllegalArgument(reason: string)
    /** The newer router's EndpointNotFoundException. */
    | EndpointNotFound(eventType: string)
    /** The older router's HandlerNotFoundException. */
    | HandlerNotFound(eventType: string)
    /** Reflection found no constructor without parameters (NoSuchMethodException). */
    | NoSuchConstructor
    /** `Class.newInstance` could not instantiate the class (InstantiationException). */
    | Instantiation
    /** Reflection was refused access to a member (IllegalAccessException). */
    | IllegalAccess
    /** The event store's DuplicateCommitException. */
    | DuplicateCommit
    /** The event store's ConcurrencyException. */
    | ConcurrencyConflict
    /** The event store could not open the stream for reading. */
    | StreamNotFound
    /** `new RuntimeException(message, cause)` around a caught exception. */
    | Wrapped(cause: Error)

  datatype Result<+T> = Success(value: T) | Failure(error: Error)

  /** The result of a Java method returning `void`: it returns normally or throws. */
  datatype Outcome = Pass | Fail(error: Error)

  function OutcomeOf<T>(r: Result<T>): (o: Outcome)
    ensures o.Pass? <==> r.Success?
    ensures r.Failure? ==> o == Fail(r.error)
  {
    match r
    case Success(_) => Pass
    case Failure(e) => Fail(e)
  }
}
