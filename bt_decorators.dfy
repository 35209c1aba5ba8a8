// The single-child decorators: Repeat, Inverter, Retry, ForceSuccess,
// ForceFailure, Timeout, Delay, UntilSuccess and UntilFailure.
//
// Each decorator class keeps the decorator base (state and optional child) in
// `base` and its own counters or timers beside it. `childResult` is what the
// child returns if it is evaluated during the tick; `now` is the engine clock.
// The pure tick functions below say what one tick computes; the lemmas state
// what a run of ticks does.

module BTDecorators {
  import opened BTNode

  /** `m` copies of `s`. */
  function Constant(m: nat, s: NodeState): (r: seq<NodeState>)
    ensures |r| == m && forall i :: 0 <= i < m ==> r[i] == s
  {
    if m == 0 then [] else [s] + Constant(m - 1, s)
  }

  // ---------------------------------------------------------------- Inverter

  /** Inverter swaps Success and Failure and passes Running through. */
  function Invert(s: NodeState): (r: NodeState)
    ensures (r == Running) == (s == Running)
    ensures s != Running ==> r != s
  {
    match s
    case Success => Failure
    case Failure => Success
    case Running => Running
  }

  // ---------------------------------------------------- ForceSuccess/Failure

  /** ForceSuccess never fails; Running passes through. */
  function ForceSuccessResult(s: NodeState): (r: NodeState)
    ensures r != Failure
    ensures (r == Running) == (s == Running)
  {
    if s == Running then Running else Success
  }

  /** ForceFailure never succeeds; Running passes through. */
  function ForceFailureResult(s: NodeState): (r: NodeState)
    ensures r != Success
    ensures (r == Running) == (s == Running)
  {
    if s == Running then Running else Failure
  }

  // ---------------------------------------------------- UntilSuccess/Failure

  /** UntilSuccess turns a child Failure into Running (the child is reset). */
  function UntilSuccessResult(s: NodeState): (r: NodeState)
    ensures r != Failure
    ensures (r == Success) == (s == Success)
  {
    if s == Success then Success else Running
  }

  /** UntilFailure reports a child Failure as Success and turns a child
      Success into Running (the child is reset). */
  function UntilFailureResult(s: NodeState): (r: NodeState)
    ensures r != Failure
    ensures (r == Success) == (s == Failure)
  {
    if s == Failure then Success else Running
  }

  // ------------------------------------------------------------------ Repeat

  /** The count check made before the child runs; -1 means "no limit". */
  predicate RepeatFinished(count: int, repeatCount: int)
  {
    repeatCount != -1 && count >= repeatCount
  }

  /** One tick of Repeat.Evaluate: a finished Repeat succeeds without running
      the child; otherwise a child Success raises the count and succeeds once
      the count reaches repeatCount, a child Failure fails and Running waits.
      The check after a child Success has no "-1 means no limit" test. */
  function RepeatTickAsWritten(count: int, repeatCount: int, s: NodeState): (r: (NodeState, int))
    ensures r.0 == Success <==> RepeatFinished(count, repeatCount) || (s == Success && count + 1 >= repeatCount)
    ensures r.0 == Success ==> r.1 >= repeatCount
    ensures r.0 == Failure <==> !RepeatFinished(count, repeatCount) && s == Failure
    ensures r.1 == if !RepeatFinished(count, repeatCount) && s == Success then count + 1 else count
  {
    if RepeatFinished(count, repeatCount) then (Success, count)
    else match s
      case Success => if count + 1 >= repeatCount then (Success, count + 1) else (Running, count + 1)
      case Failure => (Failure, count)
      case Running => (Running, count)
  }

  /** The results of successive Repeat ticks and the final count. */
  function RepeatRun(count: int, repeatCount: int, outs: seq<NodeState>): (r: (seq<NodeState>, int))
    ensures |r.0| == |outs|
    decreases |outs|
  {
    if outs == [] then ([], count)
    else
      var (res, c) := RepeatTickAsWritten(count, repeatCount, outs[0]);
      var rest := RepeatRun(c, repeatCount, outs[1..]);
      ([res] + rest.0, rest.1)
  }

  /** With "no limit", Repeat(-1) reports every child Success as its own
      Success. */
  lemma RepeatForeverStopsAsWritten()
    ensures RepeatTickAsWritten(0, -1, Success) == (Success, 1)
    ensures RepeatRun(0, -1, [Success, Success]).0 == [Success, Success]
  {
    assert [Success, Success][1..] == [Success];
    assert RepeatRun(1, -1, [Success]).0 == [Success];
  }

  /** The intended tick: the "-1 means no limit" test applied after a child
      Success as well, so that Repeat(-1) never succeeds. */
  function RepeatTick(count: int, repeatCount: int, s: NodeState): (r: (NodeState, int))
    ensures r.0 == Success ==> repeatCount != -1 && r.1 >= repeatCount
    ensures r.0 == Failure <==> !RepeatFinished(count, repeatCount) && s == Failure
    ensures r.1 == if !RepeatFinished(count, repeatCount) && s == Success then count + 1 else count
  {
    if RepeatFinished(count, repeatCount) then (Success, count)
    else match s
      case Success =>
        if repeatCount != -1 && count + 1 >= repeatCount then (Success, count + 1)
        else (Running, count + 1)
      case Failure => (Failure, count)
      case Running => (Running, count)
  }

  /** The two ticks differ only for repeatCount -1. */
  lemma RepeatTicksAgreeUnlessForever(count: int, repeatCount: int, s: NodeState)
    ensures RepeatTick(count, repeatCount, s) != RepeatTickAsWritten(count, repeatCount, s) <==>
              repeatCount == -1 && s == Success && count + 1 >= -1
  {
  }

  /** The results of successive intended Repeat ticks and the final count. */
  function RepeatRunIntended(count: int, repeatCount: int, outs: seq<NodeState>): (r: (seq<NodeState>, int))
    ensures |r.0| == |outs|
    decreases |outs|
  {
    if outs == [] then ([], count)
    else
      var (res, c) := RepeatTick(count, repeatCount, outs[0]);
      var rest := RepeatRunIntended(c, repeatCount, outs[1..]);
      ([res] + rest.0, rest.1)
  }

  /** With the intended tick, Repeat(-1) never succeeds, whatever its child
      does. */
  lemma {:induction false} RepeatForeverNeverSucceeds(count: int, outs: seq<NodeState>)
    ensures Success !in RepeatRunIntended(count, -1, outs).0
    decreases |outs|
  {
    if outs != [] {
      var (res, c) := RepeatTick(count, -1, outs[0]);
      RepeatForeverNeverSucceeds(c, outs[1..]);
    }
  }

  /** Repeat(n): from count c, each child Success raises the count by one and
      the tick succeeds exactly when the count reaches n. */
  lemma {:induction false} RepeatCountsSuccesses(n: int, c: int, m: nat)
    requires 0 <= c && c + m <= n
    ensures RepeatRun(c, n, Constant(m, Success)).1 == c + m
    ensures RepeatRun(c, n, Constant(m, Success)).0 ==
              seq(m, j => if c + j + 1 == n then Success else Running)
    decreases m
  {
    if m > 0 {
      var outs := Constant(m, Success);
      assert outs[1..] == Constant(m - 1, Success);
      RepeatCountsSuccesses(n, c + 1, m - 1);
    }
  }

  /** Once the count is reached, every tick succeeds without running the
      child, until Reset. */
  lemma {:induction false} RepeatStaysDone(count: int, n: int, outs: seq<NodeState>)
    requires RepeatFinished(count, n)
    ensures RepeatRun(count, n, outs) == (Constant(|outs|, Success), count)
    decreases |outs|
  {
    if outs != [] {
      RepeatStaysDone(count, n, outs[1..]);
    }
  }

  // ------------------------------------------------------------------- Retry

  /** One Retry tick: the result and the new failure count. */
  function RetryTick(retries: int, maxRetries: int, s: NodeState): (r: (NodeState, int))
    ensures (r.0 == Success) == (s == Success)
    ensures r.0 == Failure <==> s == Failure && retries + 1 >= maxRetries
    ensures r.0 != Running ==> r.1 == 0
    ensures r.0 == Running ==> r.1 == if s == Failure then retries + 1 else retries
  {
    match s
    case Success => (Success, 0)
    case Running => (Running, retries)
    case Failure => if retries + 1 < maxRetries then (Running, retries + 1) else (Failure, 0)
  }

  /** The results of successive Retry ticks and the final count. */
  function RetryRun(retries: int, maxRetries: int, outs: seq<NodeState>): (r: (seq<NodeState>, int))
    ensures |r.0| == |outs|
    decreases |outs|
  {
    if outs == [] then ([], retries)
    else
      var (res, c) := RetryTick(retries, maxRetries, outs[0]);
      var rest := RetryRun(c, maxRetries, outs[1..]);
      ([res] + rest.0, rest.1)
  }

  /** Retry(n): child failures give Running until the n-th, which gives
      Failure and clears the counter. */
  lemma {:induction false} RetryGivesUpAfterMax(maxRetries: int, c: int, m: nat)
    requires 0 <= c && c + m <= maxRetries
    ensures RetryRun(c, maxRetries, Constant(m, Failure)).1 ==
              if m > 0 && c + m == maxRetries then 0 else c + m
    ensures RetryRun(c, maxRetries, Constant(m, Failure)).0 ==
              seq(m, j => if c + j + 1 == maxRetries then Failure else Running)
    decreases m
  {
    if m > 0 {
      var outs := Constant(m, Failure);
      assert outs[1..] == Constant(m - 1, Failure);
      RetryGivesUpAfterMax(maxRetries, c + 1, m - 1);
    }
  }

  // ----------------------------------------------------------------- Timeout

  datatype TimerStep = TimerStep(result: NodeState, running: bool, start: real, childEvaluated: bool)

  /** One Timeout tick: the timer starts on the first tick of a run; once the
      elapsed time reaches the limit the child is reset instead of run. */
  function TimeoutTick(isRunning: bool, startTime: real, now: real, timeout: real, s: NodeState): (t: TimerStep)
    ensures t.start == if isRunning then startTime else now
    ensures t.childEvaluated <==> now - t.start < timeout
    ensures t.childEvaluated ==> t.result == s && t.running == (s == Running)
    ensures !t.childEvaluated ==> t.result == Failure && !t.running
  {
    var start := if isRunning then startTime else now;
    if now - start >= timeout then TimerStep(Failure, false, start, false)
    else TimerStep(s, s == Running, start, true)
  }

  /** The results of successive Timeout ticks at times `times`, and the timer. */
  function TimeoutRun(isRunning: bool, startTime: real, timeout: real,
                      times: seq<real>, outs: seq<NodeState>): (r: (seq<NodeState>, bool, real))
    requires |times| == |outs|
    ensures |r.0| == |outs|
    decreases |outs|
  {
    if outs == [] then ([], isRunning, startTime)
    else
      var t := TimeoutTick(isRunning, startTime, times[0], timeout, outs[0]);
      var rest := TimeoutRun(t.running, t.start, timeout, times[1..], outs[1..]);
      ([t.result] + rest.0, rest.1, rest.2)
  }

  /** While the child keeps running and the deadline is not reached, the timer
      keeps its start time and every tick is Running. */
  lemma {:induction false} TimeoutHoldsStart(startTime: real, timeout: real,
                                             times: seq<real>, outs: seq<NodeState>)
    requires |times| == |outs|
    requires forall j :: 0 <= j < |outs| ==> outs[j] == Running && times[j] - startTime < timeout
    ensures TimeoutRun(true, startTime, timeout, times, outs) == (outs, true, startTime)
    decreases |outs|
  {
    if outs != [] {
      TimeoutHoldsStart(startTime, timeout, times[1..], outs[1..]);
      assert outs == [outs[0]] + outs[1..];
    }
  }

  // ------------------------------------------------------------------- Delay

  datatype DelayStep = DelayStep(result: NodeState, complete: bool, start: real, childEvaluated: bool)

  /** One Delay tick: a start time of 0 means "not yet stamped"; the child runs
      only once the delay has elapsed, and from then on on every tick. */
  function DelayTick(complete: bool, startTime: real, now: real, delay: real, s: NodeState): (t: DelayStep)
    ensures t.start == if !complete && startTime == 0.0 then now else startTime
    ensures t.childEvaluated <==> complete || now - t.start >= delay
    ensures t.complete == t.childEvaluated
    ensures t.childEvaluated ==> t.result == s
    ensures !t.childEvaluated ==> t.result == Running
  {
    if complete then DelayStep(s, true, startTime, true)
    else
      var start := if startTime == 0.0 then now else startTime;
      if now - start >= delay then DelayStep(s, true, start, true)
      else DelayStep(Running, false, start, false)
  }

  /** The results of successive Delay ticks at times `times`, and the timer. */
  function DelayRun(complete: bool, startTime: real, delay: real,
                    times: seq<real>, outs: seq<NodeState>): (r: (seq<NodeState>, bool, real))
    requires |times| == |outs|
    ensures |r.0| == |outs|
    decreases |outs|
  {
    if outs == [] then ([], complete, startTime)
    else
      var t := DelayTick(complete, startTime, times[0], delay, outs[0]);
      var rest := DelayRun(t.complete, t.start, delay, times[1..], outs[1..]);
      ([t.result] + rest.0, rest.1, rest.2)
  }

  /** Before the delay elapses no tick runs the child: all are Running and the
      stamped start time is kept. */
  lemma {:induction false} DelayWaits(startTime: real, delay: real, times: seq<real>, outs: seq<NodeState>)
    requires |times| == |outs| && startTime != 0.0
    requires forall j :: 0 <= j < |times| ==> times[j] - startTime < delay
    ensures DelayRun(false, startTime, delay, times, outs) == (Constant(|outs|, Running), false, startTime)
    decreases |outs|
  {
    if outs != [] {
      DelayWaits(startTime, delay, times[1..], outs[1..]);
    }
  }

  /** Once complete, the decorator is transparent: it returns the child's
      results unchanged until Reset. */
  lemma {:induction false} DelayTransparentOnceComplete(startTime: real, delay: real,
                                                        times: seq<real>, outs: seq<NodeState>)
    requires |times| == |outs|
    ensures DelayRun(true, startTime, delay, times, outs) == (outs, true, startTime)
    decreases |outs|
  {
    if outs != [] {
      DelayTransparentOnceComplete(startTime, delay, times[1..], outs[1..]);
      assert outs == [outs[0]] + outs[1..];
    }
  }

  // ----------------------------------------------------------------- Classes

  class Repeat {
    const base: DecoratorNode
    const repeatCount: int
    var currentCount: int

    constructor (repeatCount: int)
      ensures fresh(base) && base.child == null && base.state == Running
      ensures this.repeatCount == repeatCount && currentCount == 0
    {
      base := new DecoratorNode();
      this.repeatCount := repeatCount;
      currentCount := 0;
    }

    method Evaluate(childResult: NodeState) returns (r: NodeState)
      modifies this`currentCount, base`state, base.child
      ensures base.state == r
      ensures base.child == null ==> r == Failure && currentCount == old(currentCount)
      ensures base.child != null ==>
                (r, currentCount) == RepeatTickAsWritten(old(currentCount), repeatCount, childResult)
      ensures base.child != null ==>
                base.child.state == if RepeatFinished(old(currentCount), repeatCount)
                                    then old(base.child.state) else Running
    {
      var child := base.child;
      if child == null {
        base.state := Failure;
        return Failure;
      }
      if repeatCount != -1 && currentCount >= repeatCount {
        base.state := Success;
        return Success;
      }
      var s := child.Evaluate(childResult);
      if s == Success {
        child.Reset();
        currentCount := currentCount + 1;
        if currentCount >= repeatCount {
          base.state := Success;
          return Success;
        }
      } else if s == Failure {
        child.Reset();
        base.state := Failure;
        return Failure;
      } else {
        base.state := Running;
        return Running;
      }
      child.Reset();
      base.state := Running;
      r := Running;
    }

    method Reset()
      modifies this`currentCount, base`state, base.child
      ensures currentCount == 0 && base.state == Running
      ensures base.child != null ==> base.child.state == Running
    {
      base.Reset();
      currentCount := 0;
    }
  }

  class Inverter {
    const base: DecoratorNode

    constructor ()
      ensures fresh(base) && base.child == null && base.state == Running
    {
      base := new DecoratorNode();
    }

    /** A terminal child result is inverted and the child reset. */
    method Evaluate(childResult: NodeState) returns (r: NodeState)
      modifies base`state, base.child
      ensures base.state == r
      ensures base.child == null ==> r == Failure
      ensures base.child != null ==> r == Invert(childResult) && base.child.state == Running
    {
      var child := base.child;
      if child == null {
        base.state := Failure;
        return Failure;
      }
      var s := child.Evaluate(childResult);
      if s == Success {
        child.Reset();
        base.state := Failure;
      } else if s == Failure {
        child.Reset();
        base.state := Success;
      } else {
        base.state := Running;
      }
      r := base.state;
    }
  }

  class Retry {
    const base: DecoratorNode
    const maxRetries: int
    var currentRetries: int

    constructor (maxRetries: int)
      ensures fresh(base) && base.child == null && base.state == Running
      ensures this.maxRetries == maxRetries && currentRetries == 0
    {
      base := new DecoratorNode();
      this.maxRetries := maxRetries;
      currentRetries := 0;
    }

    /** A failure below the limit resets the child for another try; the final
        failure leaves the child as it ended. */
    method Evaluate(childResult: NodeState) returns (r: NodeState)
      modifies this`currentRetries, base`state, base.child
      ensures base.state == r
      ensures base.child == null ==> r == Failure && currentRetries == old(currentRetries)
      ensures base.child != null ==>
                (r, currentRetries) == RetryTick(old(currentRetries), maxRetries, childResult)
      ensures base.child != null ==>
                base.child.state == if childResult == Failure && r == Running then Running else childResult
    {
      var child := base.child;
      if child == null {
        base.state := Failure;
        return Failure;
      }
      var s := child.Evaluate(childResult);
      if s == Success {
        currentRetries := 0;
        base.state := Success;
      } else if s == Running {
        base.state := Running;
      } else {
        currentRetries := currentRetries + 1;
        if currentRetries < maxRetries {
          child.Reset();
          base.state := Running;
        } else {
          currentRetries := 0;
          base.state := Failure;
        }
      }
      r := base.state;
    }

    method Reset()
      modifies this`currentRetries, base`state, base.child
      ensures currentRetries == 0 && base.state == Running
      ensures base.child != null ==> base.child.state == Running
    {
      base.Reset();
      currentRetries := 0;
    }
  }

  class ForceSuccess {
    const base: DecoratorNode

    constructor ()
      ensures fresh(base) && base.child == null && base.state == Running
    {
      base := new DecoratorNode();
    }

    /** The child is not reset. */
    method Evaluate(childResult: NodeState) returns (r: NodeState)
      modifies base`state, base.child
      ensures base.state == r
      ensures base.child == null ==> r == Success
      ensures base.child != null ==> r == ForceSuccessResult(childResult) && base.child.state == childResult
    {
      var child := base.child;
      if child == null {
        base.state := Success;
        return Success;
      }
      var s := child.Evaluate(childResult);
      base.state := if s == Running then Running else Success;
      r := base.state;
    }
  }

  class ForceFailure {
    const base: DecoratorNode

    constructor ()
      ensures fresh(base) && base.child == null && base.state == Running
    {
      base := new DecoratorNode();
    }

    /** The child is not reset. */
    method Evaluate(childResult: NodeState) returns (r: NodeState)
      modifies base`state, base.child
      ensures base.state == r
      ensures base.child == null ==> r == Failure
      ensures base.child != null ==> r == ForceFailureResult(childResult) && base.child.state == childResult
    {
      var child := base.child;
      if child == null {
        base.state := Failure;
        return Failure;
      }
      var s := child.Evaluate(childResult);
      base.state := if s == Running then Running else Failure;
      r := base.state;
    }
  }

  class Timeout {
    const base: DecoratorNode
    const timeout: real
    var startTime: real
    var isRunning: bool

    constructor (timeout: real)
      ensures fresh(base) && base.child == null && base.state == Running
      ensures this.timeout == timeout && startTime == 0.0 && !isRunning
    {
      base := new DecoratorNode();
      this.timeout := timeout;
      startTime := 0.0;
      isRunning := false;
    }

    method Evaluate(now: real, childResult: NodeState) returns (r: NodeState)
      modifies this`startTime, this`isRunning, base`state, base.child
      ensures base.state == r
      ensures base.child == null ==>
                r == Failure && startTime == old(startTime) && isRunning == old(isRunning)
      ensures base.child != null ==>
                var t := TimeoutTick(old(isRunning), old(startTime), now, timeout, childResult);
                r == t.result && isRunning == t.running && startTime == t.start
                && base.child.state == if t.childEvaluated then childResult else Running
    {
      var child := base.child;
      if child == null {
        base.state := Failure;
        return Failure;
      }
      if !isRunning {
        startTime := now;
        isRunning := true;
      }
      if now - startTime >= timeout {
        child.Reset();
        isRunning := false;
        base.state := Failure;
        return Failure;
      }
      var s := child.Evaluate(childResult);
      if s != Running {
        isRunning := false;
      }
      base.state := s;
      r := s;
    }

    method Reset()
      modifies this`isRunning, base`state, base.child
      ensures !isRunning && base.state == Running
      ensures base.child != null ==> base.child.state == Running
    {
      base.Reset();
      isRunning := false;
    }
  }

  class Delay {
    const base: DecoratorNode
    const delay: real
    var startTime: real
    var complete: bool

    constructor (delay: real)
      ensures fresh(base) && base.child == null && base.state == Running
      ensures this.delay == delay && startTime == 0.0 && !complete
    {
      base := new DecoratorNode();
      this.delay := delay;
      startTime := 0.0;
      complete := false;
    }

    method Evaluate(now: real, childResult: NodeState) returns (r: NodeState)
      modifies this`startTime, this`complete, base`state, base.child
      ensures base.state == r
      ensures base.child == null ==>
                r == Failure && startTime == old(startTime) && complete == old(complete)
      ensures base.child != null ==>
                var t := DelayTick(old(complete), old(startTime), now, delay, childResult);
                r == t.result && complete == t.complete && startTime == t.start
                && base.child.state == if t.childEvaluated then childResult else old(base.child.state)
    {
      var child := base.child;
      if child == null {
        base.state := Failure;
        return Failure;
      }
      if !complete {
        if startTime == 0.0 {
          startTime := now;
        }
        if now - startTime >= delay {
          complete := true;
        } else {
          base.state := Running;
          return Running;
        }
      }
      var s := child.Evaluate(childResult);
      base.state := s;
      r := s;
    }

    method Reset()
      modifies this`startTime, this`complete, base`state, base.child
      ensures startTime == 0.0 && !complete && base.state == Running
      ensures base.child != null ==> base.child.state == Running
    {
      base.Reset();
      startTime := 0.0;
      complete := false;
    }
  }

  class UntilSuccess {
    const base: DecoratorNode

    constructor ()
      ensures fresh(base) && base.child == null && base.state == Running
    {
      base := new DecoratorNode();
    }

    /** A child Failure is reset and retried on the next tick. */
    method Evaluate(childResult: NodeState) returns (r: NodeState)
      modifies base`state, base.child
      ensures base.state == r
      ensures base.child == null ==> r == Failure
      ensures base.child != null ==>
                r == UntilSuccessResult(childResult)
                && base.child.state == if childResult == Failure then Running else childResult
    {
      var child := base.child;
      if child == null {
        base.state := Failure;
        return Failure;
      }
      var s := child.Evaluate(childResult);
      if s == Failure {
        child.Reset();
        base.state := Running;
      } else {
        base.state := s;
      }
      r := base.state;
    }
  }

  class UntilFailure {
    const base: DecoratorNode

    constructor ()
      ensures fresh(base) && base.child == null && base.state == Running
    {
      base := new DecoratorNode();
    }

    /** A child Success is reset and run again on the next tick. */
    method Evaluate(childResult: NodeState) returns (r: NodeState)
      modifies base`state, base.child
      ensures base.state == r
      ensures base.child == null ==> r == Success
      ensures base.child != null ==>
                r == UntilFailureResult(childResult)
                && base.child.state == if childResult == Success then Running else childResult
    {
      var child := base.child;
      if child == null {
        base.state := Success;
        return Success;
      }
      var s := child.Evaluate(childResult);
      if s == Failure {
        base.state := Success;
      } else if s == Running {
        base.state := Running;
      } else {
        child.Reset();
        base.state := Running;
      }
      r := base.state;
    }
  }
}
