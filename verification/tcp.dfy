/** The TCP probing engine of ping/tcp.go. The engine holds a target and a
    lazily created Result. Start launches an event loop that serves three kinds
    of event, in whatever order they arrive: a ticker tick (dispatch a probe or
    stop at the probe limit), a probe outcome (fold it into the Result), and a
    stop request. Each event is one method of Loop, so any interleaving of the
    Go select is a sequence of calls to them. */
module TcpPing {
  import opened Durations

  datatype Option<T> = None | Some(value: T)

  /** The probe parameters. The loop reads `interval` once, to start its
      ticker, and `counter`, the probe limit (0 means unlimited), on every tick.
      Durations are in nanoseconds. */
  datatype Target = Target(host: string, port: int, timeout: int, interval: int, counter: int)

  /** One probe outcome as delivered on the packetResult channel. `failed`
      stands for a non-nil error. The remote address is only printed, so it is
      not modelled. */
  datatype PacketResult = PacketResult(delay: int, failed: bool)

  /** What the loop does on a tick: dispatch one more probe, or stop. */
  datatype TickAction = Dispatch | Halt

  /** The delays of the successful outcomes, in arrival order. */
  function SuccessDelays(outs: seq<PacketResult>): (ds: seq<int>)
    ensures |ds| <= |outs|
  {
    if outs == [] then []
    else (if outs[0].failed then [] else [outs[0].delay]) + SuccessDelays(outs[1..])
  }

  lemma {:induction false} SuccessDelaysAppend(outs: seq<PacketResult>, p: PacketResult)
    ensures p.failed ==> SuccessDelays(outs + [p]) == SuccessDelays(outs)
    ensures !p.failed ==> SuccessDelays(outs + [p]) == SuccessDelays(outs) + [p.delay]
  {
    if outs != [] {
      assert (outs + [p])[1..] == outs[1..] + [p];
      SuccessDelaysAppend(outs[1..], p);
    }
  }

  /** The running statistics. The engine's loop is the only writer. The ghost
      fields record what has been folded in: the number of dispatching ticks
      and the outcomes in arrival order. */
  class Result {
    const target: Target
    var counter: int
    var successCounter: int
    var minDuration: int
    var maxDuration: int
    var totalDuration: int

    ghost var dispatched: nat
    ghost var outcomes: seq<PacketResult>

    /** Every counter is determined by the history: `counter` counts both
        dispatches and outcomes, `maxDuration` is the largest of 0 and the
        successful delays, and `minDuration` is the smallest successful delay
        recorded after the last zero-delay success, or 0 when there is none. */
    ghost predicate Valid()
      reads this
    {
      |outcomes| <= dispatched &&
      counter == dispatched + |outcomes| &&
      0 <= successCounter <= counter &&
      Summarises(SuccessDelays(outcomes), successCounter, minDuration, maxDuration, totalDuration)
    }

    constructor (t: Target)
      ensures target == t && Valid()
      ensures counter == 0 && successCounter == 0
      ensures minDuration == 0 && maxDuration == 0 && totalDuration == 0
      ensures dispatched == 0 && outcomes == []
    {
      target := t;
      counter, successCounter := 0, 0;
      minDuration, maxDuration, totalDuration := 0, 0, 0;
      dispatched, outcomes := 0, [];
    }
  }

  /** The engine: the target it probes and the Result, both absent at first. */
  class TCPing {
    var target: Option<Target>
    var result: Result?

    constructor ()
      ensures target == None && result == null
    {
      target := None;
      result := null;
    }

    /** Always replaces the target; creates a Result bound to it only when there
        is none yet, so a later call keeps the earlier Result and its counters. */
    method SetTarget(t: Target)
      modifies this
      ensures target == Some(t)
      ensures old(result) == null ==>
        result != null && fresh(result) && result.Valid() && result.target == t &&
        result.counter == 0 && result.successCounter == 0 &&
        result.minDuration == 0 && result.maxDuration == 0 && result.totalDuration == 0 &&
        result.dispatched == 0 && result.outcomes == []
      ensures old(result) != null ==> result == old(result) && unchanged(result)
    {
      target := Some(t);
      if result == null {
        result := new Result(t);
      }
    }

    /** Launches the event loop. The loop works on a copy of the engine taken
        now (a value receiver): it keeps the target attached now, while its
        Result is the engine's own object. The ticker needs a positive
        interval. */
    method Start() returns (loop: Loop)
      requires target.Some? && result != null
      requires target.value.interval > 0
      ensures fresh(loop) && !loop.stopped
      ensures loop.target == target.value && loop.result == result
    {
      loop := new Loop(target.value, result);
    }
  }

  /** The goroutine that Start launches. */
  class Loop {
    const target: Target
    const result: Result
    var stopped: bool

    constructor (t: Target, r: Result)
      ensures target == t && result == r && !stopped
    {
      target, result := t, r;
      stopped := false;
    }

    /** A tick. With a non-zero limit that the counter has reached, the loop
        stops and nothing changes in the Result. Otherwise one probe is
        dispatched and counted. */
    method OnTick() returns (action: TickAction)
      requires !stopped && result.Valid()
      modifies this, result
      ensures result.Valid()
      ensures var limitReached := target.counter != 0 && old(result.counter) >= target.counter;
        action == (if limitReached then Halt else Dispatch)
      ensures action == Halt ==> stopped && unchanged(result)
      ensures action == Halt ==> 2 * result.dispatched >= target.counter
      ensures action == Dispatch ==>
        !stopped &&
        result.counter == old(result.counter) + 1 &&
        result.dispatched == old(result.dispatched) + 1 &&
        result.outcomes == old(result.outcomes) &&
        result.successCounter == old(result.successCounter) &&
        result.minDuration == old(result.minDuration) &&
        result.maxDuration == old(result.maxDuration) &&
        result.totalDuration == old(result.totalDuration)
      ensures action == Dispatch && target.counter > 0 ==> result.dispatched <= target.counter
      ensures target.counter == 0 ==> action == Dispatch
    {
      if result.counter >= target.counter && target.counter != 0 {
        stopped := true;
        return Halt;
      }
      result.counter := result.counter + 1;
      result.dispatched := result.dispatched + 1;
      action := Dispatch;
    }

    /** A probe outcome. Every outcome is counted; a failed one changes nothing
        else. A success is counted, added to the total and folded into the
        extremes, where a zero extreme stands for "no success yet". */
    method OnOutcome(p: PacketResult)
      requires !stopped && result.Valid()
      requires p.delay >= 0
      requires |result.outcomes| < result.dispatched
      modifies result
      ensures result.Valid()
      ensures result.outcomes == old(result.outcomes) + [p]
      ensures result.dispatched == old(result.dispatched)
      ensures result.counter == old(result.counter) + 1
      ensures p.failed ==>
        result.successCounter == old(result.successCounter) &&
        result.minDuration == old(result.minDuration) &&
        result.maxDuration == old(result.maxDuration) &&
        result.totalDuration == old(result.totalDuration)
      ensures !p.failed ==>
        result.successCounter == old(result.successCounter) + 1 &&
        result.totalDuration == old(result.totalDuration) + p.delay &&
        result.maxDuration == Max(old(result.maxDuration), p.delay) &&
        result.minDuration <= p.delay <= result.maxDuration
      ensures !p.failed && old(result.minDuration) == 0 ==> result.minDuration == p.delay
      ensures !p.failed && p.delay == 0 ==> result.minDuration == 0
    {
      ghost var ds := SuccessDelays(result.outcomes);
      ghost var count0, min0, max0, total0 :=
        result.successCounter, result.minDuration, result.maxDuration, result.totalDuration;
      SuccessDelaysAppend(result.outcomes, p);
      result.counter := result.counter + 1;
      result.outcomes := result.outcomes + [p];
      if !p.failed {
        var duration := p.delay;
        if result.minDuration == 0 {
          result.minDuration := duration;
        }
        if result.maxDuration == 0 {
          result.maxDuration := duration;
        }
        result.successCounter := result.successCounter + 1;
        if duration > result.maxDuration {
          result.maxDuration := duration;
        } else if duration < result.minDuration {
          result.minDuration := duration;
        }
        result.totalDuration := result.totalDuration + duration;
        FoldSuccess(ds, count0, min0, max0, total0, duration);
      }
    }

    /** The stop request, received on the done channel: the loop returns. */
    method OnDone()
      requires !stopped
      modifies this
      ensures stopped
    {
      stopped := true;
    }
  }

  /** A limit of 2 against a closed port, the failure arriving before the next
      tick: the loop stops after dispatching a single probe, with the counter
      at 2. */
  method ClosedPortLimitTwo() returns (actions: seq<TickAction>, counter: int, successes: int)
    ensures actions == [Dispatch, Halt]
    ensures counter == 2 && successes == 0
  {
    var engine := new TCPing();
    engine.SetTarget(Target("127.0.0.1", 1, 200_000_000, 50_000_000, 2));
    var loop := engine.Start();
    var first := loop.OnTick();
    loop.OnOutcome(PacketResult(0, true));
    var second := loop.OnTick();
    actions := [first, second];
    counter, successes := loop.result.counter, loop.result.successCounter;
  }

  /** A limit of 3 with every outcome still in flight: three ticks dispatch
      three probes and the fourth tick stops the loop. */
  method SlowProbesLimitThree() returns (actions: seq<TickAction>, counter: int)
    ensures actions == [Dispatch, Dispatch, Dispatch, Halt]
    ensures counter == 3
  {
    var engine := new TCPing();
    engine.SetTarget(Target("127.0.0.1", 80, 200_000_000, 50_000_000, 3));
    var loop := engine.Start();
    actions := [];
    var i := 0;
    while i < 4
      invariant 0 <= i <= 4 && |actions| == i
      invariant actions == [Dispatch, Dispatch, Dispatch, Halt][..i]
      invariant loop.result.Valid() && loop.result.outcomes == []
      invariant loop.target.counter == 3 && loop.result.counter == if i < 4 then i else 3
      invariant loop.stopped <==> i == 4
    {
      var action := loop.OnTick();
      actions := actions + [action];
      i := i + 1;
    }
    counter := loop.result.counter;
  }

  /** Without a limit, a zero-delay success followed by a 5 ms success leaves
      the minimum at 5 ms: the zero was taken for "no success yet". */
  method ZeroDelayNotRetained() returns (minDuration: int, maxDuration: int, successes: int)
    ensures minDuration == 5_000_000 && maxDuration == 5_000_000 && successes == 2
  {
    var engine := new TCPing();
    engine.SetTarget(Target("127.0.0.1", 80, 200_000_000, 50_000_000, 0));
    var loop := engine.Start();
    var action := loop.OnTick();
    loop.OnOutcome(PacketResult(0, false));
    action := loop.OnTick();
    loop.OnOutcome(PacketResult(5_000_000, false));
    minDuration, maxDuration := loop.result.minDuration, loop.result.maxDuration;
    successes := loop.result.successCounter;
  }
}
