/** The circuit breaker as an object whose two counters are updated in place by
    each call. The wrapped function is not stored: each call is given the
    Outcome that the wrapped function would produce if invoked, and the call
    reports whether it did invoke it. Every method is proved against the
    reference semantics of module BreakerSpec. */
module CbreakerDecorator {
  import opened BreakerSpec

  class CircuitBreaker {
    const failureThreshold: int
    const maxOpenCalls: int
    var failureCount: int
    var openCallCount: int

    function Settings(): Config
    {
      Config(failureThreshold, maxOpenCalls)
    }

    function State(): Counters
      reads this
    {
      Counters(failureCount, openCallCount)
    }

    ghost predicate Valid()
      reads this
    {
      BreakerSpec.Valid(Settings(), State())
    }

    /** A new breaker starts with both counters at 0, whatever its settings;
        the settings default to a threshold of 3 and five rejected calls. */
    constructor (failureThreshold: int := 3, maxOpenCalls: int := 5)
      ensures this.failureThreshold == failureThreshold && this.maxOpenCalls == maxOpenCalls
      ensures failureCount == 0 && openCallCount == 0
      ensures Valid() && !IsCircuitOpen()
    {
      this.failureThreshold := failureThreshold;
      this.maxOpenCalls := maxOpenCalls;
      new;
      ResetFailures();
    }

    /** Open means more recognised failures than the threshold, and at least one. */
    function IsCircuitOpen(): (open: bool)
      reads this
      ensures open <==> failureCount > NonNeg(failureThreshold)
    {
      IsOpen(Settings(), State())
    }

    /** Both counters go back to 0. */
    method ResetFailures()
      modifies this
      ensures State() == Initial
    {
      failureCount := 0;
      openCallCount := 0;
    }

    /** The circuit-open handler: bumps the rejected-call count and reports that
        the call is rejected while the count is within maxOpenCalls; past the
        budget it resets the count to 0 and lets the call through. */
    method RaiseCircuitOpen() returns (rejected: bool)
      requires Valid() && IsCircuitOpen()
      modifies this
      ensures Valid()
      ensures rejected <==> old(openCallCount) + 1 <= maxOpenCalls
      ensures openCallCount == if rejected then old(openCallCount) + 1 else 0
      ensures failureCount == old(failureCount)
      ensures (State(), rejected) == OpenCheck(Settings(), old(State()))
    {
      openCallCount := openCallCount + 1;
      if openCallCount <= maxOpenCalls {
        rejected := true;
      } else {
        openCallCount := 0;
        rejected := false;
      }
    }

    /** One call through the breaker, when the wrapped function would behave as
        outcome: the result, whether the wrapped function was invoked, and the new
        counters are those of BreakerSpec.Step, and the breaker stays valid. */
    method Call<T, E>(outcome: Outcome<T, E>) returns (r: CallResult<T, E>, invoked: bool)
      requires Valid()
      modifies this
      ensures Valid()
      ensures State() == Step(Settings(), old(State()), outcome).after
      ensures r == Step(Settings(), old(State()), outcome).result
      ensures invoked == Step(Settings(), old(State()), outcome).invoked
      ensures r.Blocked? <==> !invoked
    {
      StepPreservesValid(Settings(), State(), outcome);
      if IsCircuitOpen() {
        var rejected := RaiseCircuitOpen();
        if rejected {
          return Blocked, false;
        }
      }
      invoked := true;
      match outcome
      case Success(v) =>
        ResetFailures();
        r := Returned(v);
      case Recognized(e) =>
        failureCount := failureCount + 1;
        r := Raised(e);
      case Unrecognized(e) =>
        r := Raised(e);
    }
  }

  /** The client's configuration (threshold 4, three rejected calls), driven
      through one breaker object: five connection failures, three blocked calls,
      a forced pass-through that fails, and a blocked call again. */
  method ClientScenario<T, E>(v: T, e: E) returns (results: seq<CallResult<T, E>>)
    ensures results == [Raised(e), Raised(e), Raised(e), Raised(e), Raised(e),
                        Blocked, Blocked, Blocked, Raised(e), Blocked]
  {
    var breaker := new CircuitBreaker(4, 3);
    var fail: Outcome<T, E> := Recognized(e);
    var ok: Outcome<T, E> := Success(v);
    var r1, _ := breaker.Call(fail);
    var r2, _ := breaker.Call(fail);
    var r3, _ := breaker.Call(fail);
    var r4, _ := breaker.Call(fail);
    var r5, _ := breaker.Call(fail);
    assert breaker.State() == Counters(5, 0);
    var r6, _ := breaker.Call(ok);
    var r7, _ := breaker.Call(ok);
    var r8, _ := breaker.Call(ok);
    assert breaker.State() == Counters(5, 3);
    var r9, passed := breaker.Call(fail);
    assert passed && breaker.State() == Counters(6, 0);
    var r10, _ := breaker.Call(ok);
    results := [r1, r2, r3, r4, r5, r6, r7, r8, r9, r10];
  }
}
