/**
 * The part of Java's throwable hierarchy that `Try` inspects with `instanceof`,
 * and the two ways a call can end: by returning or by throwing.
 */
module Throwables {
  import opened Optionals

  /** Where a throwable raised by code outside `Try` sits in the hierarchy. */
  datatype Kind =
    | RuntimeExc                      // a RuntimeException
    | CheckedExc(interrupted: bool)   // an Exception that is not a RuntimeException; `interrupted` for an InterruptedException
    | Error                           // an Error
    | BareThrowable                   // a Throwable that is neither an Exception nor an Error

  /**
   * A throwable instance. `Raised(id, kind)` is one thrown by a callable or hook (two of them
   * are the same instance exactly when their ids agree); the other three are the ones `Try`
   * itself creates, all of them RuntimeExceptions.
   */
  datatype Thr =
    | Raised(id: nat, kind: Kind)
    | NullPointer                         // NullPointerException("failure must not be null")
    | IllegalArgument(cause: Option<Thr>) // IllegalArgumentException, with its (nullable) cause
    | CheckedWrapper(wrapped: Thr)        // Try.CheckedExceptionWrapper, whose cause is `wrapped`

  /** `t instanceof RuntimeException` */
  predicate IsRuntimeException(t: Thr)
    ensures !t.Raised? ==> IsRuntimeException(t)   // every throwable Try creates is one
  {
    match t
    case Raised(_, kind) => kind.RuntimeExc?
    case _ => true
  }

  /** `t instanceof Exception`: every RuntimeException is one. */
  predicate IsException(t: Thr)
    ensures IsRuntimeException(t) ==> IsException(t)
  {
    IsRuntimeException(t) || (t.Raised? && t.kind.CheckedExc?)
  }

  /** `t instanceof Error`: no Error is an Exception. */
  predicate IsError(t: Thr)
    ensures IsError(t) ==> !IsException(t)
  {
    t.Raised? && t.kind.Error?
  }

  /** `t instanceof InterruptedException`: a checked Exception, never an unchecked one. */
  predicate IsInterruptedException(t: Thr)
    ensures IsInterruptedException(t) ==> IsException(t) && !IsRuntimeException(t) && !IsError(t)
  {
    t.Raised? && t.kind == CheckedExc(true)
  }

  /**
   * What `throwIfUnchecked` rethrows: a RuntimeException or an Error, that is everything but
   * checked Exceptions and bare Throwables.
   */
  predicate IsUnchecked(t: Thr)
    ensures IsUnchecked(t) <==> !(t.Raised? && (t.kind.CheckedExc? || t.kind.BareThrowable?))
  {
    IsRuntimeException(t) || IsError(t)
  }

  /** What `throwIfNonThrowableChecked` rethrows: an Exception or an Error. */
  predicate IsExceptionOrError(t: Thr)
    ensures IsUnchecked(t) ==> IsExceptionOrError(t)
  {
    IsException(t) || IsError(t)
  }

  /** How a call ended: it returned a value or it threw. */
  datatype Outcome<+R> = Returned(value: R) | Threw(thrown: Thr)

  /**
   * The outcome of an operation that takes a one-argument hook, together with the arguments
   * the hook was invoked with, in order.
   */
  datatype Traced<+R> = Traced(outcome: Outcome<R>, hookCalls: seq<Thr>)
}
