# one-more-try `Try<T>` in Dafny

This project models `Try<T>` from `io.github.graydavid.onemoretry`. A `Try` is an immutable container holding either a success (a result that may be null) or a failure (a non-null `Throwable`). The model covers the three groups of operations around it:

- **Construction and classification** (`try_value.dfy`, `try_capture.dfy`):
  - `ofSuccess`, `ofFailureSwallowingInterrupt`, `ofFailurePreservingInterrupt` and the pairing forms `ofSwallowingInterrupt` / `ofPreservingInterrupt`.
  - `callCatchRuntime` / `callCatchException` / `callCatchThrowable` and their `runCatch*` variants. These catch the nested sets RuntimeException ⊆ Exception ⊆ Throwable.
- **Consumption and re-raise** (`try_consume.dfy`):
  - the three `getOrThrow*` operations, each with and without a transformer;
  - the hook operations `getOrRecover`, `getOrHandle`, `observeFailure`, `convert` and `consume`;
  - the eager compositions `callUnchecked` and `runUnchecked`.
- **The thread's interrupt flag:**
  - `ofFailurePreservingInterrupt` and every capture that goes through it set the flag for an InterruptedException.
  - `getOrThrowException` and `getOrThrowThrowable` clear it when they rethrow one.
  - Everything else leaves it alone.

How the model is built:

- **Throwables** (`throwables.dfy`):
  - A throwable from caller code is `Raised(id, kind)`. The `id` stands for object identity, so "the same instance" means equal ids.
  - `kind` places it in the hierarchy: RuntimeException, checked Exception (with a mark for InterruptedException), Error, or a bare Throwable.
  - The throwables `Try` creates itself are `NullPointer`, `IllegalArgument(cause)` and `CheckedWrapper(wrapped)`. All three are RuntimeExceptions.
  - The `instanceof` tests in the source become the predicates `IsRuntimeException`, `IsException`, `IsError`, `IsInterruptedException`, `IsUnchecked` (what `throwIfUnchecked` rethrows) and `IsExceptionOrError` (what `throwIfNonThrowableChecked` rethrows).
- **The `Try` value:**
  - Its two final fields are `Option`s, with `None` for null.
  - The subset type `Try<V>` holds exactly the field pairs the private constructor is ever called with: not both non-null.
  - A `Try<Void>` is a `Try<()>` whose result is always absent.
- **Calls and hooks:**
  - A callable or runnable is given as how it ends: `Returned(v)` or `Threw(t)`.
  - A transformer, recovery, handler, observer, converter or consumer is a total function from its arguments to how that call ends.
  - Operations with a one-argument hook return `Traced(outcome, hookCalls)`. `hookCalls` lists the arguments the hook was called with, in order. This is what "not invoked on a success" and "invoked once with the failure" are stated about.
- **The interrupt flag:**
  - It is the boolean `interrupted`, passed into the operations that read or write it. Its value afterwards comes back as `interrupted'`.
  - These operations are methods.
  - Operations that never touch the flag are functions and take no flag at all.

Three behaviours of the source worth pointing out:

- A null failure raises NullPointerException (`Try.java:73-75`), also through `ofFailurePreservingInterrupt`, where `null instanceof InterruptedException` is false and so the flag is left alone.
- `callCatchRuntime` captures through the swallowing factory (`Try.java:144`). No RuntimeException is an InterruptedException (the contract of `IsInterruptedException` says it is neither a RuntimeException nor an Error), so this cannot lose an interrupt.
- `callUnchecked` and `runUnchecked` capture with `callCatchThrowable` / `runCatchThrowable` (`Try.java:247`, `Try.java:282`), so an Error is caught as well and then rethrown unchanged by `getOrThrowUnchecked`.

Two Javadoc comments state the opposite of what the code does; the model follows the code:

- `getFailure` / `getNullableFailure` (`Try.java:302`, `Try.java:318-319`) say the failure is empty (null) exactly when the Try failed. The code returns `Optional.ofNullable(failure)`, which is empty exactly for a success. `TryState.GetFailure` states the code's side.
- `getOrThrowException()` documents a CheckedExceptionWrapper for checked exceptions (`Try.java:407-408`). The code rethrows every Exception as is and wraps only a bare Throwable (`Try.java:438-441`). `TryConsume.GetOrThrowExceptionDefault` states the code's side.

## Model

| member | source | states |
|---|---|---|
| `TryValue.OfSuccess` | src/main/java/io/github/graydavid/onemoretry/Try.java:62-64 | the result is a success, not a failure, whose success is exactly the given (possibly null) value and whose failure is absent |
| `TryValue.OfFailureSwallowingInterrupt` | src/main/java/io/github/graydavid/onemoretry/Try.java:72-77 | NullPointerException exactly when the failure is null; otherwise a failure holding that same throwable with no success (the flag is not an input, so it is untouched even for an InterruptedException) |
| `TryValue.OfSwallowingInterrupt` | src/main/java/io/github/graydavid/onemoretry/Try.java:97-108 | throws exactly when both arguments are non-null, and then an IllegalArgumentException; a null failure gives `ofSuccess(success)` (so null, null is a success); any Try returned has exactly the two given parts |
| `TryValue.Equals` | src/main/java/io/github/graydavid/onemoretry/Try.java:533-540 | against an absent (null) other, or a Try of the same type argument: equal exactly when the other is present with the same two fields (equal success, identical failure); never equal to null |
| `TryValue.SuccessIsOfSuccess` | src/main/java/io/github/graydavid/onemoretry/Try.java:326-334 | `isFailure` is the negation of `isSuccess`; a Try is a success exactly when its failure is absent, and exactly when it is `ofSuccess` of its own success part |
| `TryValue.EveryTryIsBuilt` | src/main/java/io/github/graydavid/onemoretry/Try.java:50-56 | every Try is `ofSuccess(v)` for some v iff it is a success, `ofFailureSwallowingInterrupt(e)` for some e iff it is a failure, and `ofSwallowingInterrupt` of its two parts rebuilds it |
| `TryValue.EqualsContract` | src/test/java/io/github/graydavid/onemoretry/TryTest.java:1106-1137 | equality is reflexive, symmetric and transitive, never holds against null, two successes are equal iff their results are, and a success never equals a failure |
| `Throwables.IsExceptionOrError` | src/main/java/io/github/graydavid/onemoretry/Try.java:450-457 | the throwables `throwIfNonThrowableChecked` rethrows include every one `throwIfUnchecked` rethrows |
| `Throwables.IsRuntimeException` | src/main/java/io/github/graydavid/onemoretry/Try.java:389-391 | the `instanceof RuntimeException` test; every throwable `Try` creates (NullPointerException, IllegalArgumentException, CheckedExceptionWrapper) passes it |
| `Throwables.IsException` | src/main/java/io/github/graydavid/onemoretry/Try.java:451-453 | the `instanceof Exception` test; every RuntimeException passes it, so the catch at line 185 covers the one at line 143 |
| `Throwables.IsError` | src/main/java/io/github/graydavid/onemoretry/Try.java:392-394 | the `instanceof Error` test; no Error is an Exception |
| `Throwables.IsInterruptedException` | src/main/java/io/github/graydavid/onemoretry/Try.java:444-448 | the `instanceof InterruptedException` test; an InterruptedException is an Exception and neither a RuntimeException nor an Error |
| `Throwables.IsUnchecked` | src/main/java/io/github/graydavid/onemoretry/Try.java:388-395 | what `throwIfUnchecked` rethrows: exactly the throwables that are neither checked Exceptions nor bare Throwables |
| `TryValue.TryState.GetSuccess` | src/main/java/io/github/graydavid/onemoretry/Try.java:298-300 | `getSuccess` / `getNullableSuccess`: empty whenever the Try failed |
| `TryValue.TryState.GetFailure` | src/main/java/io/github/graydavid/onemoretry/Try.java:303-305 | `getFailure` / `getNullableFailure`: empty exactly for a success, and present only when no success result is |
| `TryValue.TryState.IsSuccess` | src/main/java/io/github/graydavid/onemoretry/Try.java:327-329 | a Try that is not a success holds no success result |
| `TryValue.TryState.IsFailure` | src/main/java/io/github/graydavid/onemoretry/Try.java:332-334 | a Try is a failure exactly when its failure part is present |
| `TryCapture.RunAsCallable` | src/main/java/io/github/graydavid/onemoretry/Try.java:124-127 | the lambda the `run*` variants pass on (also at lines 160-163 and 196-199): returns a null result exactly when the runnable returns, and otherwise throws what it threw |
| `TryCapture.Captured` | src/main/java/io/github/graydavid/onemoretry/Try.java:215-221 | the Try a `callCatch*` method builds from a call: `ofSuccess` of the result when it returned, and exactly what `ofFailure*` builds from the thrown throwable otherwise |
| `TryCapture.OfFailurePreservingInterrupt` | src/main/java/io/github/graydavid/onemoretry/Try.java:83-88 | the same result as `ofFailureSwallowingInterrupt`; the flag afterwards is set iff it was set before or the failure is an InterruptedException (never for null) |
| `TryCapture.OfPreservingInterrupt` | src/main/java/io/github/graydavid/onemoretry/Try.java:101-116 | the same result as `ofSwallowingInterrupt`; the flag is set iff it was before or an InterruptedException was actually stored as the failure (not when both arguments are non-null) |
| `TryCapture.CallCatchRuntime` | src/main/java/io/github/graydavid/onemoretry/Try.java:139-146 | throws iff the callable threw something that is not a RuntimeException, and then that same instance; otherwise the Try standing for the callable's result or its RuntimeException |
| `TryCapture.CallCatchException` | src/main/java/io/github/graydavid/onemoretry/Try.java:181-188 | throws iff the callable threw a non-Exception, as the same instance; otherwise the Try standing for the call; agrees with `callCatchRuntime` wherever that captures; the flag is set iff it was or an InterruptedException was captured |
| `TryCapture.CallCatchThrowable` | src/main/java/io/github/graydavid/onemoretry/Try.java:215-222 | never throws: always the Try standing for the call, agreeing with `callCatchRuntime` wherever that captures; the flag is set iff it was or an InterruptedException was captured |
| `TryCapture.RunCatchRuntime` | src/main/java/io/github/graydavid/onemoretry/Try.java:123-128 | as `callCatchRuntime` for a runnable; a returned Try never holds a success value and holds the runnable's RuntimeException as failure |
| `TryCapture.RunCatchException` | src/main/java/io/github/graydavid/onemoretry/Try.java:159-164 | as `callCatchException` for a runnable; a returned Try never holds a success value; flag as for `callCatchException` |
| `TryCapture.RunCatchThrowable` | src/main/java/io/github/graydavid/onemoretry/Try.java:195-200 | never throws; the Try holds no success value and exactly the runnable's throwable, if any, as failure; flag as for `callCatchThrowable` |
| `TryConsume.WrapChecked` | src/main/java/io/github/graydavid/onemoretry/Try.java:251-257 | `CheckedExceptionWrapper::new` returns a RuntimeException whose cause is the given throwable |
| `TryConsume.GetOrThrowUnchecked` | src/main/java/io/github/graydavid/onemoretry/Try.java:376-395 | a success returns its result and calls nothing; a failure always throws; an unchecked failure is rethrown as the same instance without calling the transformer; otherwise the transformer is called once with the failure, and a result that is not unchecked (or null) becomes the cause of an IllegalArgumentException; anything checked that escapes was thrown by the transformer itself; takes no flag |
| `TryConsume.GetOrThrowUncheckedDefault` | src/main/java/io/github/graydavid/onemoretry/Try.java:351-353 | a success returns its result; an unchecked failure is rethrown as is, a checked or bare one inside a CheckedExceptionWrapper whose cause it is; only unchecked throwables escape |
| `TryConsume.ClearInterruptStatusForInterruptedException` | src/main/java/io/github/graydavid/onemoretry/Try.java:444-448 | the flag is cleared for an InterruptedException and otherwise unchanged |
| `TryConsume.GetOrThrowException` | src/main/java/io/github/graydavid/onemoretry/Try.java:431-457 | a success returns its result with the flag unchanged; on a failure the flag is cleared iff it is an InterruptedException; an Exception or Error is rethrown as the same instance without calling the transformer; a bare Throwable goes to the transformer once, whose result is thrown if an Exception or Error and otherwise becomes an IllegalArgumentException's cause; a bare Throwable escapes only when the transformer threw it |
| `TryConsume.GetOrThrowExceptionDefault` | src/main/java/io/github/graydavid/onemoretry/Try.java:411-413 | an Exception or Error failure is rethrown as is, a bare Throwable inside a CheckedExceptionWrapper; only Exceptions and Errors escape; flag as for `getOrThrowException` |
| `TryConsume.GetOrThrowThrowable` | src/main/java/io/github/graydavid/onemoretry/Try.java:473-480 | a success returns its result; a failure is rethrown as the same instance; the flag is cleared iff the failure is an InterruptedException, and otherwise unchanged |
| `TryConsume.CatchThrowableThenRethrow` | src/main/java/io/github/graydavid/onemoretry/Try.java:215-222 | round trip: `callCatchThrowable` then `getOrThrowThrowable` ends exactly as the callable did; the flag ends cleared after an InterruptedException and is otherwise unchanged |
| `TryConsume.GetOrRecover` | src/main/java/io/github/graydavid/onemoretry/Try.java:487-492 | a success returns its result without calling the recovery; a failure calls the recovery exactly once, with the failure, and ends as it does |
| `TryConsume.ObserveFailure` | src/main/java/io/github/graydavid/onemoretry/Try.java:510-515 | the observer is called once with the failure for a failure and never for a success; when it returns, a Try equal to the receiver is returned; when it throws, that is thrown |
| `TryConsume.GetOrHandle` | src/main/java/io/github/graydavid/onemoretry/Try.java:500-502 | a success returns its result without calling the handler; a failure calls the handler once with it and returns an empty result, or throws what the handler throws |
| `TryConsume.Convert` | src/main/java/io/github/graydavid/onemoretry/Try.java:522-524 | the outcome is the converter's, applied once to the (success, failure) pair |
| `TryConsume.Consume` | src/main/java/io/github/graydavid/onemoretry/Try.java:529-531 | the same as `convert` with the consumer |
| `TryConsume.ConvertRebuildsTry` | src/main/java/io/github/graydavid/onemoretry/Try.java:517-524 | the pair handed to a converter is never both non-null: converting with `ofSwallowingInterrupt` rebuilds the same Try |
| `TryConsume.CallUnchecked` | src/main/java/io/github/graydavid/onemoretry/Try.java:281-283 | the callable's result or unchecked throwable comes back unchanged; a checked or bare throwable is thrown inside a CheckedExceptionWrapper whose cause it is; only unchecked throwables escape; the flag is set iff it was or the callable threw an InterruptedException |
| `TryConsume.RunUnchecked` | src/main/java/io/github/graydavid/onemoretry/Try.java:246-248 | as `callUnchecked`, for a runnable |

## Left out

- `hashCode` and `toString`: library hashing (`Objects.hash`) and formatting (`String.format`); equal Trys are equal values here, so "equal implies equal hash" holds for any function of the value.
- Exception messages (for example the text at `Try.java:103-104`) are not modelled; only the kind of throwable and its cause are.
- `uncheckedRunnable` and `uncheckedSupplier`: closures that defer `runUnchecked` / `callUnchecked` until invoked; only the eager forms are modelled.
- `getNullableSuccess` and `getNullableFailure`: they differ from `getSuccess` / `getFailure` only by returning null rather than an empty `Optional`, and both are `None` here, so `GetSuccess` / `GetFailure` stand for both.
- `TryValue.Equals`: compares Trys of the same type argument only. Java's `equals(Object)` also compares a `Try<Integer>` with a `Try<String>` after the `Try<?>` cast (so two `ofSuccess(null)` of different type arguments are equal there); this is not captured.
- `TryConsume.ObserveFailure`: "the very same Try" is value equality in the model; Java returns `this`, the identical object, which the model cannot tell apart from an equal Try.
- Object identity of the throwables `Try` creates (`NullPointer`, `IllegalArgument`, `CheckedWrapper`): two such values with the same parts are equal in the model, where Java would have two distinct instances. Identity of caller throwables is kept through their ids.
- The thread machinery of `Thread.interrupt()` / `Thread.interrupted()`: the current thread's flag is one boolean passed in and returned; other threads and concurrency are not modelled.
- Side effects of hooks other than throwing: a hook is a total function, so only its arguments and how it ends are visible; a hook that never returns is not modelled.
- Java generics and checked-exception declarations (including "sneaky" throws through generic signatures): static typing only; the model lets any callable or hook throw any throwable, which covers what sneaky throws make possible.
- The JUnit tests in `TryTest.java` are not modelled; the model states the properties they check.
