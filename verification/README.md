# tcping probing engine in Dafny

This project models the probing engine of `tcping`, a ping that measures reachability and latency by opening and closing TCP connections. The engine is `TCPing` in `ping/tcp.go`:

- `SetTarget` attaches a target. It creates the `Result` record only when there is none yet.
- `Start` launches an event loop that serves three events in whatever order they arrive:
  - a ticker tick, which either dispatches one probe or stops the loop at the probe limit;
  - a probe outcome, which is folded into the `Result` statistics;
  - a stop request on the `done` channel.

The model has two modules:

- `Durations` (`durations.dfy`) holds reference definitions over the sequence of successful delays and the lemmas about them:
  - `Sum` is the total of the delays.
  - `MaxOf` is the largest of 0 and the delays.
  - `SinceLastZero` is the delays recorded after the last zero delay.
  - `RecordedMin` is the smallest of those, or 0 when there are none.
  - `Summarises` ties the five statistics to a delay sequence.
- `TcpPing` (`tcp.dfy`) holds three classes:
  - `TCPing` is the engine, with its `target` and its `result`, which is absent at first.
  - `Result` is the statistics record that the engine and its loop share.
  - `Loop` is the goroutine that `Start` launches.

  Each branch of the loop's `select` is one method of `Loop`: `OnTick`, `OnOutcome` and `OnDone`. Any interleaving of the events is a sequence of calls to these methods.

`Result` carries a ghost history: the number of dispatching ticks and the outcomes in arrival order. Its invariant `Valid()` pins every counter to that history. `counter` is the number of dispatches plus the number of outcomes. `successCounter` is the number of successes and `totalDuration` is the sum of their delays. `maxDuration` is the largest of 0 and the successful delays. `minDuration` is `RecordedMin` of the successful delays. The invariant also gives `0 <= successCounter <= counter` and `0 <= minDuration <= maxDuration`.

The model follows the code as written, including three behaviours a reader might not expect:

- `Counter` is incremented at dispatch (line 59) and again when the outcome arrives (line 62). The limit test on a tick therefore compares the limit against dispatches plus outcomes. With a limit L, the loop stops after dispatching between ⌈L/2⌉ and L probes, depending on how ticks and outcomes interleave.
  - `OnTick` proves both bounds.
  - `ClosedPortLimitTwo` shows a limit of 2 stopping after one probe, with the counter at 2.
  - `SlowProbesLimitThree` shows a limit of 3 stopping after three probes.
- "No success yet" is detected by a zero `MinDuration` or `MaxDuration` (lines 71-76), not by a flag. So a zero-delay success resets the minimum to "unset", and the next success overwrites it. This is why the recorded minimum is the minimum since the last zero delay. `ZeroDelayNotRetained` shows the effect.
- `SetTarget` keeps an existing `Result` bound to the first target. `Start` has a value receiver, so a running loop keeps the target it was started with, while its `Result` is the engine's own object.

## Model

| member | source | states |
|---|---|---|
| `TcpPing.TCPing.constructor` | ping/tcp.go:25-31 | a new engine has no target and no result |
| `TcpPing.TCPing.SetTarget` | ping/tcp.go:34-39 | the target is always replaced; a fresh, all-zero, valid Result bound to the new target is created only when none exists; an existing Result is kept and left unchanged |
| `TcpPing.Result.constructor` | ping/tcp.go:37 | a Result bound to a target starts with every counter at zero, an empty history, and satisfies the invariant |
| `TcpPing.TCPing.Start` | ping/tcp.go:47-50 | with a target whose interval is positive, the loop gets the engine's current target, fixed from then on, and shares the engine's Result object; it starts running |
| `TcpPing.Loop.OnTick` | ping/tcp.go:53-59 | with a non-zero limit already reached by the counter, the loop stops and the Result is unchanged; otherwise exactly one probe is dispatched and the counter grows by 1, with nothing else changing; with limit 0 a tick always dispatches; a dispatch never takes the number of dispatched probes above a non-zero limit, and at a stop at least half the limit has been dispatched; the invariant is kept |
| `TcpPing.Loop.OnOutcome` | ping/tcp.go:61-84 | every outcome adds 1 to the counter and is appended to the history; a failure leaves the success count, minimum, maximum and total unchanged; a success adds 1 to the success count and its delay to the total, raises the maximum to at least the delay, and leaves minimum <= delay <= maximum; an unset minimum becomes the delay, and a zero delay leaves the minimum unset; the invariant (counts and extremes as functions of the history) is kept |
| `TcpPing.Loop.OnDone` | ping/tcp.go:85-86 | a stop request ends the loop |
| `TcpPing.SuccessDelaysAppend` | ping/tcp.go:66-77 | a failed outcome adds no successful delay; a successful one appends its delay |
| `Durations.FoldSuccess` | ping/tcp.go:71-83 | folding one successful delay into statistics that summarise a delay sequence gives statistics that summarise the extended sequence: count + 1, total + delay, maximum max(old, delay), minimum the delay when the delay is 0 or the minimum was unset and min(old, delay) otherwise |
| `Durations.RecordedMinBounds` | ping/tcp.go:71-82 | over non-negative delays, the recorded minimum is 0 exactly when no delay follows the last zero delay, and 0 <= minimum <= maximum |
| `Durations.SumAppend` | ping/tcp.go:83 | the total of the delays grows by exactly the appended delay |
| `Durations.MaxOfIsMaximum` | ping/tcp.go:74-79 | the recorded maximum is an upper bound of every successful delay and is either 0 or one of them |
| `Durations.MaxOfAppend` | ping/tcp.go:78-79 | appending a delay makes the maximum the larger of the old maximum and the delay, so it never decreases |
| `Durations.MinOrZeroIsMinimum` | ping/tcp.go:80-81 | the minimum of a non-empty delay sequence is one of its delays and a lower bound of all of them |
| `Durations.MinOrZeroAppend` | ping/tcp.go:80-81 | appending a delay makes the minimum the smaller of the old minimum and the delay, or the delay itself for a first delay |
| `Durations.SinceLastZeroIsSuffix` | ping/tcp.go:71-72 | the delays since the last zero are the longest zero-free suffix of the sequence |
| `Durations.SinceLastZeroAppend` | ping/tcp.go:71-72 | a zero delay empties the delays since the last zero; any other delay is appended to them |
| `TcpPing.ClosedPortLimitTwo` | ping/tcp.go:53-67 | with limit 2 and a failure that arrives before the next tick, the loop dispatches once and then stops, with counter 2 and no success |
| `TcpPing.SlowProbesLimitThree` | ping/tcp.go:53-59 | with limit 3 and no outcome yet, three ticks dispatch and the fourth stops the loop, with counter 3 |
| `TcpPing.ZeroDelayNotRetained` | ping/tcp.go:71-82 | a zero-delay success followed by a 5 ms success leaves both the minimum and the maximum at 5 ms |

## Left out

- Probe execution (`ping`, lines 98-119): the TCP dial with its timeout, `SetLinger`, `Close`, and the `timeIt` helper are network I/O and wall-clock timing. A probe's outcome is an input to `OnOutcome`: a delay of at least 0 and a failure flag. The `timeIt` helper is not part of this model.
- The remote address in an outcome: it is only printed, so it is not modelled.
- Concurrency: the goroutines, the ticker, and the unbuffered `packetResult` and `done` channels are not modelled. The `select` is modelled only as an arbitrary order of `OnTick`, `OnOutcome` and `OnDone` calls. An outcome can only follow a dispatch, so `OnOutcome` requires a probe in flight. After the loop has stopped, nothing serves events, so every loop method requires a running loop.
- The blocking send of `Stop` (lines 94-96) and possible deadlocks after the loop returns are not modelled. `OnDone` is the loop receiving the stop request. A tick at the limit sets the same stopped state.
- The `fmt.Printf` notifications (lines 67 and 69): output formatting only.
- Panics when the loop starts: the loop reads the target and the result without nil checks, and `time.NewTicker` (line 49) panics on an interval that is not positive. So `Start` requires both to be present and the interval to be positive, where Go would panic.
- The `Result()` getter (lines 41-44) only reads the field, and the model reads `result` directly.
- Integer width: `time.Duration` and the counters are int64 in Go, while the model uses unbounded integers. int64 overflow is not modelled.
- The target's host, port and timeout are carried but not used by the modelled logic. Besides the positivity that `Start` requires, the interval only decides when ticks happen, and the model does not capture timing.
- Target aliasing: Go shares the target through a pointer (lines 11, 37 and 47), while the model copies it as an immutable value. The model's claim that a running loop keeps its target holds because nothing writes to a target after it is attached. A write through the shared pointer would not be seen by the model.
