/**
 * Building a `Try` from a caller's callable or runnable, and the factories that coordinate
 * with the current thread's interrupt flag. The flag is passed in as `interrupted` and the
 * flag afterwards comes back as `interrupted'`.
 */
module TryCapture {
  import opened Optionals
  import opened Throwables
  import opened TryValue

  /**
   * The Try that stands for how a callable ended: its (nullable) result as a success, or the
   * throwable it threw as a failure.
   */
  function Captured<V>(call: Outcome<Option<V>>): (t: Try<V>)
    ensures t.IsSuccess() <==> call.Returned?
    ensures call.Returned? ==> t == OfSuccess(call.value)
    ensures call.Threw? ==> Returned(t) == OfFailureSwallowingInterrupt<V>(Some(call.thrown))
  {
    match call
    case Returned(v) => OfSuccess(v)
    case Threw(e) => TryState(None, Some(e))
  }

  /**
   * `ofFailurePreservingInterrupt`: the same result as `ofFailureSwallowingInterrupt`, and
   * the flag is set exactly when the failure is an InterruptedException (a null failure is not
   * one, so it raises NullPointerException with the flag untouched). The flag is never cleared.
   */
  method OfFailurePreservingInterrupt<V>(failure: Option<Thr>, interrupted: bool)
    returns (r: Outcome<Try<V>>, interrupted': bool)
    ensures r == OfFailureSwallowingInterrupt(failure)
    ensures interrupted' <==> interrupted || (failure.Some? && IsInterruptedException(failure.value))
  {
    interrupted' := interrupted;
    if failure.Some? && IsInterruptedException(failure.value) {
      interrupted' := true;
    }
    r := OfFailureSwallowingInterrupt(failure);
  }

  /**
   * `ofPreservingInterrupt`, that is the private `of` given `ofFailurePreservingInterrupt` as
   * its failure factory: the same result as `ofSwallowingInterrupt`, and the flag is set only
   * when an InterruptedException is actually stored (not when both arguments are non-null).
   */
  method OfPreservingInterrupt<V>(success: Option<V>, failure: Option<Thr>, interrupted: bool)
    returns (r: Outcome<Try<V>>, interrupted': bool)
    ensures r == OfSwallowingInterrupt(success, failure)
    ensures interrupted' <==> interrupted || (r.Returned? && r.value.IsFailure() && IsInterruptedException(failure.value))
  {
    if success.Some? && failure.Some? {
      r, interrupted' := Threw(IllegalArgument(None)), interrupted;
    } else if failure.None? {
      r, interrupted' := Returned(OfSuccess(success)), interrupted;
    } else {
      r, interrupted' := OfFailurePreservingInterrupt(failure, interrupted);
    }
  }

  /**
   * `callCatchRuntime`: a RuntimeException thrown by the callable is captured (through the
   * swallowing factory); any other throwable propagates as the same instance. Never touches
   * the interrupt flag, so it takes none.
   */
  function CallCatchRuntime<V>(call: Outcome<Option<V>>): (r: Outcome<Try<V>>)
    ensures r.Threw? <==> call.Threw? && !IsRuntimeException(call.thrown)
    ensures r.Threw? ==> r == Threw(call.thrown)
    ensures r.Returned? ==> r.value == Captured(call)
  {
    match call
    case Returned(v) => Returned(OfSuccess(v))
    case Threw(e) => if IsRuntimeException(e) then OfFailureSwallowingInterrupt(Some(e)) else Threw(e)
  }

  /**
   * `callCatchException`: every Exception is captured (so all that `callCatchRuntime`
   * captures, identically); Errors and bare Throwables propagate as the same instance. The flag
   * is set exactly when an InterruptedException is captured.
   */
  method CallCatchException<V>(call: Outcome<Option<V>>, interrupted: bool)
    returns (r: Outcome<Try<V>>, interrupted': bool)
    ensures r.Threw? <==> call.Threw? && !IsException(call.thrown)
    ensures r.Threw? ==> r == Threw(call.thrown)
    ensures r.Returned? ==> r.value == Captured(call)
    ensures CallCatchRuntime(call).Returned? ==> r == CallCatchRuntime(call)
    ensures interrupted' <==> interrupted || (call.Threw? && IsInterruptedException(call.thrown))
  {
    match call {
      case Returned(v) =>
        r, interrupted' := Returned(OfSuccess(v)), interrupted;
      case Threw(e) =>
        if IsException(e) {
          r, interrupted' := OfFailurePreservingInterrupt(Some(e), interrupted);
        } else {
          r, interrupted' := Threw(e), interrupted;
        }
    }
  }

  /**
   * `callCatchThrowable`: every throwable is captured, so it always yields a Try (the same one
   * `callCatchRuntime` and `callCatchException` yield wherever they capture). The flag is set
   * exactly when an InterruptedException is captured.
   */
  method CallCatchThrowable<V>(call: Outcome<Option<V>>, interrupted: bool)
    returns (t: Try<V>, interrupted': bool)
    ensures t == Captured(call)
    ensures CallCatchRuntime(call).Returned? ==> Returned(t) == CallCatchRuntime(call)
    ensures interrupted' <==> interrupted || (call.Threw? && IsInterruptedException(call.thrown))
  {
    match call {
      case Returned(v) =>
        t, interrupted' := OfSuccess(v), interrupted;
      case Threw(e) =>
        var r;
        r, interrupted' := OfFailurePreservingInterrupt(Some(e), interrupted);
        t := r.value;
    }
  }

  /** The callable `() -> { runnable.run(); return null; }` that the `run*` variants pass on. */
  function RunAsCallable(run: Outcome<()>): (call: Outcome<Option<()>>)
    ensures call.Returned? <==> run.Returned?
    ensures call.Returned? ==> call.value == None
    ensures call.Threw? ==> call.thrown == run.thrown
  {
    match run
    case Returned(_) => Returned(None)
    case Threw(e) => Threw(e)
  }

  /** `runCatchRuntime`: like `callCatchRuntime`; a success never holds a result. */
  function RunCatchRuntime(run: Outcome<()>): (r: Outcome<Try<()>>)
    ensures r.Threw? <==> run.Threw? && !IsRuntimeException(run.thrown)
    ensures r.Threw? ==> r.thrown == run.thrown
    ensures r.Returned? ==> r.value.GetSuccess() == None
    ensures r.Returned? ==> r.value.GetFailure() == if run.Threw? then Some(run.thrown) else None
  {
    CallCatchRuntime(RunAsCallable(run))
  }

  /** `runCatchException`: like `callCatchException`; a success never holds a result. */
  method RunCatchException(run: Outcome<()>, interrupted: bool)
    returns (r: Outcome<Try<()>>, interrupted': bool)
    ensures r.Threw? <==> run.Threw? && !IsException(run.thrown)
    ensures r.Threw? ==> r.thrown == run.thrown
    ensures r.Returned? ==> r.value.GetSuccess() == None
    ensures r.Returned? ==> r.value.GetFailure() == if run.Threw? then Some(run.thrown) else None
    ensures interrupted' <==> interrupted || (run.Threw? && IsInterruptedException(run.thrown))
  {
    r, interrupted' := CallCatchException(RunAsCallable(run), interrupted);
  }

  /** `runCatchThrowable`: like `callCatchThrowable`; a success never holds a result. */
  method RunCatchThrowable(run: Outcome<()>, interrupted: bool)
    returns (t: Try<()>, interrupted': bool)
    ensures t.GetSuccess() == None
    ensures t.GetFailure() == if run.Threw? then Some(run.thrown) else None
    ensures interrupted' <==> interrupted || (run.Threw? && IsInterruptedException(run.thrown))
  {
    t, interrupted' := CallCatchThrowable(RunAsCallable(run), interrupted);
  }
}
