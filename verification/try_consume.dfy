/**
 * Turning a `Try` back into a plain value or a thrown throwable, routing it through caller
 * hooks, and the eager "unchecked" compositions. Hooks are total functions from their
 * argument to how the hook call ends; whatever a hook throws propagates unchanged.
 */
module TryConsume {
  import opened Optionals
  import opened Throwables
  import opened TryValue
  import opened TryCapture

  /** `CheckedExceptionWrapper::new`, the default transformer: wrap the throwable as the cause. */
  function WrapChecked(t: Thr): (r: Outcome<Option<Thr>>)
    ensures r.Returned? && r.value.Some? && IsRuntimeException(r.value.value)
    ensures r.value.value.CheckedWrapper? && r.value.value.wrapped == t
  {
    Returned(Some(CheckedWrapper(t)))
  }

  /**
   * `getOrThrowUnchecked(checkedTransformer)`: a success returns its result; a RuntimeException
   * or Error failure is rethrown as the same instance; any other failure goes to the transformer
   * once, whose result is thrown when it is unchecked, and otherwise (a checked throwable or
   * null) replaced by an IllegalArgumentException whose cause it is. It never touches the
   * interrupt flag, so it takes none.
   */
  function GetOrThrowUnchecked<V>(t: Try<V>, checkedTransformer: Thr -> Outcome<Option<Thr>>): (r: Traced<Option<V>>)
    ensures t.IsSuccess() ==> r == Traced(Returned(t.GetSuccess()), [])
    ensures t.IsFailure() ==> r.outcome.Threw?
    ensures t.IsFailure() && IsUnchecked(t.GetFailure().value) ==> r == Traced(Threw(t.GetFailure().value), [])
    ensures t.IsFailure() && !IsUnchecked(t.GetFailure().value) ==> r.hookCalls == [t.GetFailure().value]
    // what escapes is unchecked, unless the transformer threw it itself
    ensures r.outcome.Threw? && !IsUnchecked(r.outcome.thrown) ==>
              r.hookCalls != [] && checkedTransformer(r.hookCalls[0]) == Threw(r.outcome.thrown)
    // whatever the transformer throws propagates as is
    ensures r.hookCalls != [] && checkedTransformer(r.hookCalls[0]).Threw? ==>
              r.outcome == Threw(checkedTransformer(r.hookCalls[0]).thrown)
    // a transformer result that is not unchecked becomes the cause of an IllegalArgumentException
    ensures r.hookCalls != [] && checkedTransformer(r.hookCalls[0]).Returned? ==>
              var x := checkedTransformer(r.hookCalls[0]).value;
              r.outcome == Threw(if x.Some? && IsUnchecked(x.value) then x.value else IllegalArgument(x))
  {
    if t.IsSuccess() then Traced(Returned(t.success), [])
    else
      var f := t.failure.value;
      if IsUnchecked(f) then Traced(Threw(f), [])
      else
        var thrown := match checkedTransformer(f)
          case Threw(x) => x
          case Returned(x) => if x.Some? && IsUnchecked(x.value) then x.value else IllegalArgument(x);
        Traced(Threw(thrown), [f])
  }

  /**
   * `getOrThrowUnchecked()`: a checked or bare failure is thrown wrapped in a
   * CheckedExceptionWrapper whose cause it is; an unchecked one as the same instance.
   */
  function GetOrThrowUncheckedDefault<V>(t: Try<V>): (r: Outcome<Option<V>>)
    ensures t.IsSuccess() ==> r == Returned(t.GetSuccess())
    ensures t.IsFailure() ==> r == Threw(if IsUnchecked(t.GetFailure().value) then t.GetFailure().value
                                         else CheckedWrapper(t.GetFailure().value))
    ensures r.Threw? ==> IsUnchecked(r.thrown)
  {
    GetOrThrowUnchecked(t, WrapChecked).outcome
  }

  /**
   * `clearInterruptStatusForInterruptedException`: clears the flag (`Thread.interrupted()`)
   * when the throwable is an InterruptedException and leaves it alone otherwise; it never sets it.
   */
  method ClearInterruptStatusForInterruptedException(throwable: Thr, interrupted: bool)
    returns (interrupted': bool)
    ensures IsInterruptedException(throwable) ==> !interrupted'
    ensures !IsInterruptedException(throwable) ==> interrupted' == interrupted
  {
    interrupted' := interrupted;
    if IsInterruptedException(throwable) {
      interrupted' := false;
    }
  }

  /**
   * `getOrThrowException(throwableTransformer)`: a success returns its result with the flag
   * untouched. A failure first clears the flag exactly when it is an InterruptedException; an
   * Exception or Error failure is then rethrown as the same instance; a bare Throwable goes to
   * the transformer once, whose result is thrown when it is an Exception or Error and otherwise
   * (a bare Throwable or null) replaced by an IllegalArgumentException whose cause it is.
   */
  method GetOrThrowException<V>(t: Try<V>, throwableTransformer: Thr -> Outcome<Option<Thr>>, interrupted: bool)
    returns (r: Traced<Option<V>>, interrupted': bool)
    ensures t.IsSuccess() ==> r == Traced(Returned(t.GetSuccess()), [])
    ensures t.IsFailure() ==> r.outcome.Threw?
    ensures interrupted' <==> interrupted && !(t.IsFailure() && IsInterruptedException(t.GetFailure().value))
    ensures t.IsFailure() && IsExceptionOrError(t.GetFailure().value) ==> r == Traced(Threw(t.GetFailure().value), [])
    ensures t.IsFailure() && !IsExceptionOrError(t.GetFailure().value) ==> r.hookCalls == [t.GetFailure().value]
    // what escapes is an Exception or an Error, unless the transformer threw it itself
    ensures r.outcome.Threw? && !IsExceptionOrError(r.outcome.thrown) ==>
              r.hookCalls != [] && throwableTransformer(r.hookCalls[0]) == Threw(r.outcome.thrown)
    // whatever the transformer throws propagates as is
    ensures r.hookCalls != [] && throwableTransformer(r.hookCalls[0]).Threw? ==>
              r.outcome == Threw(throwableTransformer(r.hookCalls[0]).thrown)
    // a transformer result that is neither an Exception nor an Error becomes the cause of an IllegalArgumentException
    ensures r.hookCalls != [] && throwableTransformer(r.hookCalls[0]).Returned? ==>
              var x := throwableTransformer(r.hookCalls[0]).value;
              r.outcome == Threw(if x.Some? && IsExceptionOrError(x.value) then x.value else IllegalArgument(x))
  {
    if t.IsSuccess() {
      return Traced(Returned(t.success), []), interrupted;
    }
    var f := t.failure.value;
    interrupted' := ClearInterruptStatusForInterruptedException(f, interrupted);
    if IsExceptionOrError(f) {
      return Traced(Threw(f), []), interrupted';
    }
    var thrown := match throwableTransformer(f)
      case Threw(x) => x
      case Returned(x) => if x.Some? && IsExceptionOrError(x.value) then x.value else IllegalArgument(x);
    r := Traced(Threw(thrown), [f]);
  }

  /**
   * `getOrThrowException()`: a bare Throwable failure is thrown wrapped in a
   * CheckedExceptionWrapper whose cause it is; an Exception or Error as the same instance.
   */
  method GetOrThrowExceptionDefault<V>(t: Try<V>, interrupted: bool)
    returns (r: Outcome<Option<V>>, interrupted': bool)
    ensures t.IsSuccess() ==> r == Returned(t.GetSuccess())
    ensures t.IsFailure() ==> r == Threw(if IsExceptionOrError(t.GetFailure().value) then t.GetFailure().value
                                         else CheckedWrapper(t.GetFailure().value))
    ensures r.Threw? ==> IsExceptionOrError(r.thrown)
    ensures interrupted' <==> interrupted && !(t.IsFailure() && IsInterruptedException(t.GetFailure().value))
  {
    var traced;
    traced, interrupted' := GetOrThrowException(t, WrapChecked, interrupted);
    r := traced.outcome;
  }

  /**
   * `getOrThrowThrowable()`: a success returns its result; a failure is rethrown as the same
   * instance, after clearing the flag exactly when it is an InterruptedException.
   */
  method GetOrThrowThrowable<V>(t: Try<V>, interrupted: bool)
    returns (r: Outcome<Option<V>>, interrupted': bool)
    ensures t.IsSuccess() ==> r == Returned(t.GetSuccess())
    ensures t.IsFailure() ==> r == Threw(t.GetFailure().value)
    ensures interrupted' <==> interrupted && !(t.IsFailure() && IsInterruptedException(t.GetFailure().value))
  {
    if t.IsSuccess() {
      return Returned(t.success), interrupted;
    }
    interrupted' := ClearInterruptStatusForInterruptedException(t.failure.value, interrupted);
    r := Threw(t.failure.value);
  }

  /**
   * Capturing with `callCatchThrowable` and rethrowing with `getOrThrowThrowable` gives back
   * exactly how the callable ended; the flag ends cleared when it threw an InterruptedException
   * (set by the capture, cleared by the rethrow) and is otherwise untouched.
   */
  method CatchThrowableThenRethrow<V>(call: Outcome<Option<V>>, interrupted: bool)
    returns (r: Outcome<Option<V>>, interrupted': bool)
    ensures r == call
    ensures interrupted' <==> interrupted && !(call.Threw? && IsInterruptedException(call.thrown))
  {
    var t, i := CallCatchThrowable(call, interrupted);
    r, interrupted' := GetOrThrowThrowable(t, i);
  }

  /**
   * `getOrRecover`: a success returns its result without calling the recovery; a failure
   * calls the recovery once with it and ends as the recovery ends.
   */
  function GetOrRecover<V>(t: Try<V>, recovery: Thr -> Outcome<Option<V>>): (r: Traced<Option<V>>)
    ensures t.IsSuccess() ==> r == Traced(Returned(t.GetSuccess()), [])
    ensures t.IsFailure() ==> r == Traced(recovery(t.GetFailure().value), [t.GetFailure().value])
  {
    if t.IsSuccess() then Traced(Returned(t.success), [])
    else Traced(recovery(t.failure.value), [t.failure.value])
  }

  /**
   * `observeFailure`: calls the observer once with the failure, if there is one, and then
   * returns the very same Try; an observer that throws makes it throw the same.
   */
  function ObserveFailure<V>(t: Try<V>, observer: Thr -> Outcome<()>): (r: Traced<Try<V>>)
    ensures r.hookCalls == if t.IsFailure() then [t.GetFailure().value] else []
    ensures r.outcome.Returned? ==> r.outcome.value == t
    ensures r.outcome.Threw? <==> r.hookCalls != [] && observer(r.hookCalls[0]).Threw?
    ensures r.outcome.Threw? ==> r.outcome == Threw(observer(r.hookCalls[0]).thrown)
  {
    if t.failure.Some? then
      match observer(t.failure.value)
      case Returned(_) => Traced(Returned(t), [t.failure.value])
      case Threw(x) => Traced(Threw(x), [t.failure.value])
    else Traced(Returned(t), [])
  }

  /**
   * `getOrHandle`, that is `observeFailure(handler).getSuccess()`: a success returns its
   * result without calling the handler; a failure calls the handler once with it and returns an
   * empty result, unless the handler throws.
   */
  function GetOrHandle<V>(t: Try<V>, handler: Thr -> Outcome<()>): (r: Traced<Option<V>>)
    ensures t.IsSuccess() ==> r == Traced(Returned(t.GetSuccess()), [])
    ensures t.IsFailure() ==> r.hookCalls == [t.GetFailure().value]
    ensures t.IsFailure() ==> r.outcome == match handler(t.GetFailure().value)
                                           case Returned(_) => Returned(None)
                                           case Threw(x) => Threw(x)
  {
    var observed := ObserveFailure(t, handler);
    match observed.outcome
    case Returned(same) => Traced(Returned(same.GetSuccess()), observed.hookCalls)
    case Threw(x) => Traced(Threw(x), observed.hookCalls)
  }

  /** `convert`: the converter is applied to the (success, failure) pair and decides the outcome. */
  function Convert<V, U>(t: Try<V>, converter: (Option<V>, Option<Thr>) -> Outcome<U>): (r: Outcome<U>)
    ensures r == converter(t.GetSuccess(), t.GetFailure())
  {
    converter(t.success, t.failure)
  }

  /** `consume`: the same as `convert`, with a consumer whose only result is how it ends. */
  function Consume<V>(t: Try<V>, consumer: (Option<V>, Option<Thr>) -> Outcome<()>): (r: Outcome<()>)
    ensures r == Convert(t, consumer)
  {
    consumer(t.success, t.failure)
  }

  /**
   * The pair `convert` hands its converter is never both non-null: converting with
   * `ofSwallowingInterrupt` always succeeds and rebuilds the same Try.
   */
  lemma {:induction false} ConvertRebuildsTry<V>(t: Try<V>)
    ensures Convert(t, (s, f) => OfSwallowingInterrupt(s, f)) == Returned(t)
  {
  }

  /**
   * `callUnchecked`, that is `callCatchThrowable(callable).getOrThrowUnchecked()`: the
   * callable's result or unchecked throwable comes back unchanged, and a checked or bare one is
   * thrown inside a CheckedExceptionWrapper whose cause it is. The flag is set when the callable
   * threw an InterruptedException, which the wrapper hides, and is otherwise untouched.
   */
  method CallUnchecked<V>(call: Outcome<Option<V>>, interrupted: bool)
    returns (r: Outcome<Option<V>>, interrupted': bool)
    ensures call.Returned? || IsUnchecked(call.thrown) ==> r == call
    ensures call.Threw? && !IsUnchecked(call.thrown) ==> r == Threw(CheckedWrapper(call.thrown))
    ensures r.Threw? ==> IsUnchecked(r.thrown)
    ensures interrupted' <==> interrupted || (call.Threw? && IsInterruptedException(call.thrown))
  {
    var t;
    t, interrupted' := CallCatchThrowable(call, interrupted);
    r := GetOrThrowUncheckedDefault(t);
  }

  /**
   * `runUnchecked`, that is `runCatchThrowable(runnable).getOrThrowUnchecked()`: as
   * `callUnchecked`, for a runnable.
   */
  method RunUnchecked(run: Outcome<()>, interrupted: bool)
    returns (r: Outcome<()>, interrupted': bool)
    ensures run.Returned? || IsUnchecked(run.thrown) ==> r == run
    ensures run.Threw? && !IsUnchecked(run.thrown) ==> r == Threw(CheckedWrapper(run.thrown))
    ensures interrupted' <==> interrupted || (run.Threw? && IsInterruptedException(run.thrown))
  {
    var t;
    t, interrupted' := RunCatchThrowable(run, interrupted);
    var o := GetOrThrowUncheckedDefault(t);
    r := match o
      case Returned(_) => Returned(())
      case Threw(x) => Threw(x);
    if run.Returned? {
      var u: () := run.value;
      assert u == ();
    }
  }
}
