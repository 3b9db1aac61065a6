# Circuit breaker model

A Dafny model of the `CircuitBreaker` class of `cbreaker_decorator.py`: a
sequential gate placed around a fallible function (in the repository, an
outbound HTTP call). The breaker counts recognised failures since the
last success (`failure_count`); neither an unrecognised failure nor a blocked
call resets it. Once that count is greater than both 0 and
`failure_threshold`, that is, greater than max(failure_threshold, 0), the
circuit is open. An open breaker rejects calls locally with
`CircuitOpenException` and counts the rejections (`circuit_open_call_count`).
When that count would exceed `max_open_calls`, it is reset to 0 and one call
is forced through to the wrapped function. A success on any call resets both
counters. A recognised failure adds one to `failure_count` and is re-raised.
Any other failure is re-raised and counts for nothing.

Two modules:

- `BreakerSpec` (`breaker_spec.dfy`) is the reference semantics on values.
  `Config` holds the two settings and `Counters` the two counters.
  `Outcome` is what the wrapped function does if it is invoked. `CallResult` is
  what the caller sees: `Blocked` for `CircuitOpenException`, `Returned(v)`, or
  `Raised(e)` with the function's own error. `Step` is one call. `Run` is a
  sequence of calls. `IsOpen` (cbreaker_decorator.py:26-27), `OpenCheck`
  (cbreaker_decorator.py:33-38) and `Step` (cbreaker_decorator.py:14-24) are
  the reference definitions that `CircuitBreaker.IsCircuitOpen`,
  `CircuitBreaker.RaiseCircuitOpen` and `CircuitBreaker.Call` are proved equal
  to. The lemmas state the breaker's properties about one call and about
  sequences of calls.
- `CbreakerDecorator` (`breaker.dfy`) has the class `CircuitBreaker`. Its
  fields `failureCount` and `openCallCount` are updated in place by
  `ResetFailures`, `RaiseCircuitOpen` and `Call`, as in the source. `Call` is
  proved to produce exactly `BreakerSpec.Step`'s counters, result and
  invocation flag, and to keep the object invariant `Valid()`.

The open test is strict (`failure_count > failure_threshold`). So a fresh
breaker opens after `max(failure_threshold, 0) + 1` consecutive recognised
failures, not after `failure_threshold`.

The settings are Python integers that the source never checks. The model
therefore takes any `int`, zero and negative values included. With
`max_open_calls <= 0`, an open breaker never rejects: every call is a forced
pass-through.

## Model

| member | source | states |
|---|---|---|
| CbreakerDecorator.CircuitBreaker.constructor | cbreaker_decorator.py:5-12 | stores both settings, which default to threshold 3 and max_open_calls 5; both counters start at 0 whatever the settings; the new breaker is valid and closed |
| CbreakerDecorator.CircuitBreaker.IsCircuitOpen | cbreaker_decorator.py:26-27 | open exactly when failureCount exceeds max(failureThreshold, 0) |
| CbreakerDecorator.CircuitBreaker.ResetFailures | cbreaker_decorator.py:29-31 | both counters become 0 |
| CbreakerDecorator.CircuitBreaker.RaiseCircuitOpen | cbreaker_decorator.py:33-38 | called only on an open breaker; openCallCount is bumped; the call is rejected iff the bumped count is at most maxOpenCalls; otherwise the count is reset to 0; failureCount is untouched; the invariant Valid is kept |
| CbreakerDecorator.CircuitBreaker.Call | cbreaker_decorator.py:14-24 | new counters, result and "wrapped function invoked" flag equal those of BreakerSpec.Step on the old counters; the invariant Valid is kept; the result is Blocked iff the function was not invoked |
| CbreakerDecorator.ClientScenario | main.py:12 | a breaker built with threshold 4 and max_open_calls 3 and driven through the object gives: five re-raised failures, three blocked calls, a forced pass-through that re-raises, then a blocked call |
| BreakerSpec.InitialIsValidAndClosed | cbreaker_decorator.py:29-31 | the zero counters satisfy the invariant and are closed for every configuration, so the first call is never rejected |
| BreakerSpec.BlockedIffRejects | cbreaker_decorator.py:15-16 | a call is blocked iff the breaker is open and the bumped rejected-call count is within maxOpenCalls; a call invokes the wrapped function iff it is not blocked |
| BreakerSpec.StepRejected | cbreaker_decorator.py:33-36 | a rejected call returns Blocked, does not invoke the function, bumps openCallCount by one and leaves failureCount unchanged, whatever the function would have done |
| BreakerSpec.StepForcedPassThrough | cbreaker_decorator.py:33-38 | past the budget the function is invoked, with openCallCount reset to 0 and failureCount untouched by the open check; a recognised failure then leaves the circuit open with failureCount + 1 |
| BreakerSpec.StepSuccess | cbreaker_decorator.py:18-21 | a success on any admitted call, open or not, resets both counters and returns the function's value unchanged |
| BreakerSpec.StepRecognizedFailure | cbreaker_decorator.py:22-24 | a recognised failure re-raises the same error and adds exactly one to failureCount; openCallCount is unchanged on a closed breaker and 0 after a forced pass-through |
| BreakerSpec.StepUnrecognizedFailure | cbreaker_decorator.py:18-24 | an unrecognised failure re-raises the same error and leaves failureCount unchanged; on a closed breaker both counters are unchanged |
| BreakerSpec.StepMovesCounters | cbreaker_decorator.py:14-38 | on every call each counter stays the same, goes up by exactly one, or is reset to 0 |
| BreakerSpec.StepPreservesValid | cbreaker_decorator.py:14-38 | every call keeps failureCount >= 0, 0 <= openCallCount <= max(maxOpenCalls, 0), and openCallCount > 0 only while open |
| BreakerSpec.InvokedCallClearsOpenCount | cbreaker_decorator.py:15-19 | on a valid breaker, every call that reaches the wrapped function leaves openCallCount at 0 |
| BreakerSpec.RunPreservesValid | cbreaker_decorator.py:14-38 | the invariant holds after any sequence of calls |
| BreakerSpec.NeverBlockedWithinThreshold | cbreaker_decorator.py:26-27 | while failureCount plus the number of calls stays within max(threshold, 0), no call is blocked whatever the function does, and the breaker ends closed |
| BreakerSpec.FailuresAccumulate | cbreaker_decorator.py:22-24 | consecutive recognised failures on a closed breaker are each re-raised unchanged and each add one to failureCount |
| BreakerSpec.TripsAfterThresholdPlusOne | cbreaker_decorator.py:26-27 | from fresh counters, max(threshold, 0) + 1 recognised failures open the circuit with counters (that number, 0); one fewer leaves it closed |
| BreakerSpec.RejectedWithinBudget | cbreaker_decorator.py:33-36 | on an open breaker every call within the budget is blocked whatever the function does; only openCallCount moves, by one per call |
| BreakerSpec.BlockingCycle | cbreaker_decorator.py:33-38 | an open breaker with openCallCount 0 blocks exactly max(maxOpenCalls, 0) calls and forwards the next whatever the function would do; if that call fails with a recognised error it is re-raised, failureCount goes up by one, openCallCount is 0, and the next call is blocked again whenever maxOpenCalls >= 1 |
| BreakerSpec.SuccessesKeepInitial | cbreaker_decorator.py:18-21 | from fresh counters, any number of successes returns each value unchanged and never moves the counters |
| BreakerSpec.ClientConfigurationScenario | main.py:12 | with threshold 4 and max_open_calls 3: five failures are re-raised, three calls are blocked even though the function would now succeed, the fourth call is forced through and re-raises, and the call after it is blocked |

## Left out

- The wrapped function is not stored or called. Each call receives, as an `Outcome`, what the function would do if invoked. A blocked call ignores it and reports that it did not invoke the function.
- Re-entrant calls are not modelled: the wrapped function is assumed not to call back into the same breaker. A decorated recursive function would change both counters between the open check and the update after its own outcome, which `Step` does not capture, since it applies the update to the state from before the call.
- Python's exception matching (`except self.exception_to_catch`, an `isinstance` test over the class hierarchy) is not modelled. The caller classifies the function's failure as `Recognized` or `Unrecognized`.
- Forwarding of `*args`/`**kwargs` and the function's return value are not modelled beyond passing the value through unchanged (`Returned(v)`).
- The `circuit_breaker` decorator factory (cbreaker_decorator.py:41-55) only builds a `CircuitBreaker`. It is represented by the constructor.
- The `exceptions` module is not part of this model. `CircuitOpenException` and its message are the `Blocked` result.
- main.py (command-line options, HTTP requests, authentication, JSON output and the sleep-and-retry loop) is I/O and timing. Only its breaker configuration appears, in the scenario members.
- Concurrency: the class has no locking, and the model is sequential.
