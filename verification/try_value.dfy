/**
 * The `Try` value: an immutable pair of a (nullable) success and a (nullable) failure, never
 * both present, with its flag-free factories, its accessors and its equality.
 */
module TryValue {
  import opened Optionals
  import opened Throwables

  /** The two final fields of a `Try`; `None` stands for `null`. */
  datatype TryState<V> = TryState(success: Option<V>, failure: Option<Thr>)
  {
    /** At least one of the two fields is null. */
    predicate Valid()
    {
      success.None? || failure.None?
    }

    /** `getSuccess()` and `getNullableSuccess()`: the success part, absent for a failure. */
    function GetSuccess(): (r: Option<V>)
      ensures Valid() && failure.Some? ==> r.None?
    {
      success
    }

    /**
     * `getFailure()` and `getNullableFailure()`: the failure part; present only when no success
     * result is, and absent exactly for a success.
     */
    function GetFailure(): (r: Option<Thr>)
      ensures Valid() && r.Some? ==> success.None?
      ensures r.None? <==> IsSuccess()
    {
      failure
    }

    /** `isSuccess()`: a Try is successful when it holds no failure; a failure holds no result. */
    predicate IsSuccess()
      ensures Valid() && !IsSuccess() ==> success.None?
    {
      failure.None?
    }

    /** `isFailure()`: exactly when a failure is present. */
    predicate IsFailure()
      ensures IsFailure() <==> failure.Some?
    {
      !IsSuccess()
    }
  }

  /** A `Try` as the private constructor is ever called: never with both fields non-null. */
  type Try<V> = t: TryState<V> | t.Valid() witness TryState(None, None)

  /** `ofSuccess`: a success holding exactly `success`, which may be null. */
  function OfSuccess<V>(success: Option<V>): (t: Try<V>)
    ensures t.IsSuccess() && !t.IsFailure()
    ensures t.GetSuccess() == success && t.GetFailure() == None
  {
    TryState(success, None)
  }

  /**
   * `ofFailureSwallowingInterrupt`: a null failure raises NullPointerException; any other
   * throwable, an InterruptedException included, becomes a failure holding that same instance.
   */
  function OfFailureSwallowingInterrupt<V>(failure: Option<Thr>): (r: Outcome<Try<V>>)
    ensures r.Threw? <==> failure.None?
    ensures r.Threw? ==> r.thrown == NullPointer
    ensures r.Returned? ==> r.value.IsFailure()
    ensures r.Returned? ==> r.value.GetFailure() == failure && r.value.GetSuccess() == None
  {
    if failure.None? then Threw(NullPointer) else Returned(TryState(None, failure))
  }

  /**
   * `ofSwallowingInterrupt`, that is the private `of` given `ofFailureSwallowingInterrupt` as
   * its failure factory: both non-null raises IllegalArgumentException; a null failure gives a
   * success (so null, null is a success with a null result); otherwise a failure.
   */
  function OfSwallowingInterrupt<V>(success: Option<V>, failure: Option<Thr>): (r: Outcome<Try<V>>)
    ensures r.Threw? <==> success.Some? && failure.Some?
    ensures r.Threw? ==> r.thrown == IllegalArgument(None)
    ensures failure.None? ==> r == Returned(OfSuccess(success))
    ensures r.Returned? ==> r.value.GetSuccess() == success && r.value.GetFailure() == failure
  {
    if success.Some? && failure.Some? then Threw(IllegalArgument(None))
    else if failure.None? then Returned(OfSuccess(success))
    else OfFailureSwallowingInterrupt(failure)
  }

  /**
   * `equals`: `other` is `None` when the compared object is null or not a Try. Equal exactly
   * when the other object is a Try with equal success and the identical failure.
   */
  function Equals<V(==)>(t: Try<V>, other: Option<Try<V>>): (r: bool)
    ensures r <==> other == Some(t)
  {
    match other
    case None => false
    case Some(o) => t.success == o.success && t.failure == o.failure
  }

  /** `isFailure` is exactly the negation of `isSuccess`, and a success is what `ofSuccess` builds. */
  lemma {:induction false} SuccessIsOfSuccess<V>(t: Try<V>)
    ensures t.IsFailure() <==> !t.IsSuccess()
    ensures t.IsSuccess() <==> t.GetFailure().None?
    ensures t.IsSuccess() <==> t == OfSuccess(t.GetSuccess())
  {
  }

  /**
   * The factories build every Try there is: each success comes from `ofSuccess` and each
   * failure from `ofFailureSwallowingInterrupt`, and `ofSwallowingInterrupt` rebuilds any Try
   * from its two parts.
   */
  lemma {:induction false} EveryTryIsBuilt<V>(t: Try<V>)
    ensures t.IsSuccess() <==> exists v :: t == OfSuccess(v)
    ensures t.IsFailure() <==> exists e :: OfFailureSwallowingInterrupt<V>(Some(e)) == Returned(t)
    ensures OfSwallowingInterrupt(t.GetSuccess(), t.GetFailure()) == Returned(t)
  {
    if t.IsSuccess() {
      assert t == OfSuccess(t.success);
    } else {
      assert OfFailureSwallowingInterrupt<V>(Some(t.failure.value)) == Returned(t);
    }
  }

  /**
   * The equality cases the source promises: equality is an equivalence, two successes are equal
   * exactly when their results are, and a success never equals a failure.
   */
  lemma {:induction false} EqualsContract<V>(a: Try<V>, b: Try<V>, c: Try<V>, e: Thr, v: Option<V>, w: Option<V>)
    ensures Equals(a, Some(a))
    ensures Equals(a, Some(b)) <==> Equals(b, Some(a))
    ensures Equals(a, Some(b)) && Equals(b, Some(c)) ==> Equals(a, Some(c))
    ensures !Equals(a, None)
    ensures Equals(OfSuccess(v), Some(OfSuccess(w))) <==> v == w
    ensures OfFailureSwallowingInterrupt<V>(Some(e)).Returned?
    ensures Equals(OfFailureSwallowingInterrupt<V>(Some(e)).value, Some(OfFailureSwallowingInterrupt<V>(Some(e)).value))
    ensures !Equals(OfSuccess(v), Some(OfFailureSwallowingInterrupt<V>(Some(e)).value))
  {
  }
}
