# Load-balancer simulation: a verified model

This project models the core of a discrete-event simulation that compares
load-balancing policies for a pool of servers, each with a fixed number of cores.
Tasks arrive at random, and the load balancer assigns each one to a server. A task
waits for that server, is served for its duration, may pay a per-policy overhead
and then completes. A monitor samples every server's load per core and queue
length whenever a task is scheduled or completes. At the end it reports
time-weighted means and variances.

Modules, one per concern of the source:

- `Options` (in `selection.dfy`) holds the `Option` datatype.
- `Selection` (`selection.dfy`) holds the pure selection rules of `least_load` and
  `least_connections`. These are the scores per core and the "first minimum" that
  Python's `min` and `list.index` produce.
- `Scheduling` (`scheduler.dfy`) holds the `Scheduler` class. Its state is the
  per-server outstanding `loads` and the round-robin cursor `current`. It has the
  four policies and `schedule`.
- `Stats` (`stats.dfy`) holds specification functions over irregularly timed
  samples: sums, means and right-endpoint weighted integrals. It also holds the
  lemmas about them.
- `Monitoring` (`monitor.dfy`) holds the `Monitor` class and the loops of
  `print_stats`, as written, as methods proved against the `Stats` functions.
- `Tasks` (`tasks.dfy`) holds the task lifecycle as an explicit phase machine
  (`Waiting`, `Serving`, `Overhead`, `Done`). The `Simulation` class ties one
  scheduler, one monitor, the clock, the next task id and the tasks together.
  Each lifecycle step (`Arrive`, `Grant`, `EndService`, `EndOverhead`) runs from
  one suspension point of the `task` generator to the next; `Admit`,
  `RecordSamples`, `Release`, `Finish` and `Complete` are parts of those steps. Its invariant `Simulation.Valid` says four things:
  - every server's load is the total duration of the tasks scheduled on it that
    have not finished service;
  - the completion counter counts the completed tasks;
  - there is one latency per granted request;
  - there is one sample pair per arrival and per completion, besides the
    initial pair.

Points where the code behaves differently from what its comments and names
suggest, or where its effect is easy to misread:

- **Right-endpoint weighting.** `print_stats` weights each interval by the value
  sampled at its later end (monitor.py:26-30). For the samples (0,[0]), (2,[3]) and
  (5,[0]) it reports a mean of 1.2, where the step-function reading gives 1.8
  (`Stats.RightEndpointExample`). The first sample never carries weight
  (`Stats.RightIntegralIgnoresFirst`).
- **Queue-length statistics.** The "average queue length" loop (monitor.py:46-50)
  reads the load series and adds into the load averages. As a result:
  - every average queue length is 0;
  - every reported average load is the time-weighted mean scaled by
    (1 + elapsed time);
  - the queue-length "variance" is the time-weighted mean of squared queue lengths.

  See `Monitoring.QueueLengthStats`, `Monitoring.ReportedLoadIsScaled` and
  `Monitoring.Monitor.PrintStats`.
- **Load decrement.** The load decrement at simulation.py:62 runs for every
  policy, and it runs before the overhead delay of the load-aware policies.
- **Server held through the overhead.** The server is held by the
  `with server.request()` block until the final samples are taken, which is
  after the overhead delay. Server occupancy is an input to the model (see
  below), so this shows only in the `count` values a caller passes.
- **Overhead constants.** The two overhead constants read at simulation.py:66
  and 68 are not fields of the configuration record (config.py:4-12). They are
  fields of `Tasks.Config` here.

## Model

| member | source | states |
|---|---|---|
| Selection.MinOf | simulation.py:33 | Python's `min`: the result is an element of the list and no element is smaller |
| Selection.IndexOf | simulation.py:33 | `list.index`: the position holds the value and no earlier position does |
| Selection.MinByKey | simulation.py:37 | `min` with a key keeps the first minimum: no key is smaller, and every earlier key is strictly larger |
| Selection.LeastLoad | simulation.py:31-34 | the chosen server is the lowest index minimising load / capacity |
| Selection.LeastConnections | simulation.py:36-37 | the chosen server is the lowest index minimising (holders + waiters) / capacity |
| Selection.FirstMinUnique | simulation.py:31-37 | a list has exactly one first minimum, so both policies' choices are determined by their scores |
| Selection.IndexOfMinIsMinByKey | simulation.py:31-37 | `index(min(xs))` and `min` with a key pick the same position |
| Selection.LeastLoadTieBreak | simulation.py:31-34 | a tie in load per core goes to the lower index; the later server is never chosen |
| Selection.LeastConnectionsAvoidsBusier | simulation.py:36-37 | a server with strictly more connections per core than some other server is never chosen |
| Scheduling.NextCursor | simulation.py:25 | the advanced cursor stays in [0, n) |
| Scheduling.CursorAfterIsShift | simulation.py:23-26 | after k round-robin choices from cursor c the cursor is (c + k) mod n, independent of the loads |
| Scheduling.RoundRobinVisitsAllInOrder | simulation.py:14-26 | from the initial cursor 0, n consecutive choices return 0, 1, ..., n-1 in order and bring the cursor back to 0 |
| Scheduling.Scheduler.constructor | simulation.py:9-15 | all loads 0, cursor 0, policy and capacities as configured |
| Scheduling.Scheduler.RoundRobin | simulation.py:23-26 | returns the server at the cursor and moves the cursor to (cursor + 1) mod n |
| Scheduling.Scheduler.RandomAllocation | simulation.py:28-29 | any valid server index in [0, n) |
| Scheduling.Scheduler.Select | simulation.py:15-18 | dispatches to the configured policy; only round-robin moves the cursor; the load-aware choices are the first minima of their scores |
| Scheduling.Scheduler.Schedule | simulation.py:17-21 | adds the duration to the chosen server's load only; other loads, the length and the cursor (except under round-robin) are unchanged; the index is in [0, n) |
| Stats.RightIntegralBounds | monitor.py:26-30 | the accumulated weighted sum lies between lo and hi times the elapsed time when every weighted value lies in [lo, hi] |
| Stats.TimeWeightedMeanBounds | monitor.py:26-33 | the time-weighted mean lies between the least and the greatest weighted value |
| Stats.RightIntegralIgnoresFirst | monitor.py:26-30 | the first sample's values never contribute to the weighted sum |
| Stats.LeftIntegralIgnoresLast | monitor.py:26-30 | under the step-function reading it is instead the last sample that never contributes |
| Stats.RightEndpointExample | monitor.py:26-33 | on (0,[0]), (2,[3]), (5,[0]) the computed mean is 1.2 while the step-function mean is 1.8 |
| Stats.RightSqDevNonNeg | monitor.py:36-41 | the accumulated squared deviations are non-negative when timestamps never decrease |
| Stats.TimeWeightedVarianceNonNeg | monitor.py:36-43 | every per-server time-weighted variance is non-negative when timestamps never decrease and time has elapsed |
| Stats.SumBounds | monitor.py:14 | a sum of n terms in [lo, hi] lies in [n*lo, n*hi] |
| Stats.MeanBounds | monitor.py:14 | an arithmetic mean (the latency mean, the cross-server means) lies between its least and greatest term |
| Stats.SumSqDevNonNeg | monitor.py:81-82 | a sum of squared deviations is non-negative |
| Stats.SampleVarianceNonNeg | monitor.py:79-82 | the cross-server sample variance is non-negative |
| Stats.AllZeroStats | monitor.py:74-82 | all-zero values have sum, mean and sample variance 0 |
| Monitoring.AddIntegral | monitor.py:26-30 | the nested accumulation loop adds to every server's entry its right-endpoint weighted integral |
| Monitoring.AddSqDev | monitor.py:36-41 | the nested variance loop adds to every server's entry its weighted squared deviations from that server's centre |
| Monitoring.LoadStats | monitor.py:20-43 | per-server load mean and variance are the time-weighted mean and the time-weighted variance around it |
| Monitoring.QueueLengthStats | monitor.py:46-63 | as written: the reported load averages gain the raw load integral, the queue-length means are 0, and the queue-length variances are the weighted mean of squared queue lengths |
| Monitoring.ReportedLoadIsScaled | monitor.py:46-50 | the reported load average is the true mean times (1 + elapsed time), and equals the true mean exactly when that mean is 0 |
| Monitoring.CrossServerStats | monitor.py:73-84 | cross-server means are arithmetic means; the variances (divisor n - 1) exist exactly when there are at least two servers |
| Monitoring.Monitor.constructor | monitor.py:5-10 | no finished task, no latency, and each series is the single sample (0, [0] * n) |
| Monitoring.Monitor.PrintStats | monitor.py:12-84 | every reported value, in terms of the statistics functions, with the queue-length defect made explicit |
| Tasks.OverheadDelay | simulation.py:64-68 | an overhead delay exists exactly for least-load and least-connections, with that policy's constant |
| Tasks.Simulation.constructor | simulation.py:9-15 | a fresh scheduler (all loads 0, cursor 0) and monitor (counter 0, no latency, each series the single sample (0, [0] * n)), clock 0, no task issued, and the invariant holds |
| Tasks.Simulation.RecordSamples | simulation.py:46-48 | appends one load-per-core sample and one queue-length sample at the current time, keeping both series in step |
| Tasks.Simulation.Arrive | simulation.py:40-48 | the next id is issued and the task is scheduled on the policy's pick (the cursor's server under round-robin, the first minimum of the old loads per core or of the connections per core under the load-aware policies), its duration added to that server's load only; only round-robin moves the cursor; the task waits, a sample pair is taken at its arrival time, and the invariant is kept |
| Tasks.Simulation.Admit | simulation.py:41-48 | the scheduled task is appended under the next id and a sample pair is taken; the invariant holds again |
| Tasks.Simulation.Grant | simulation.py:50-53 | the wait (grant time minus arrival) is appended as the task's latency, and service starts; the invariant is kept |
| Tasks.Simulation.Release | simulation.py:57-68 | under a load-aware policy, at start + duration the duration is taken off the task's server and the overhead phase begins, ending after the policy's constant; the invariant is kept |
| Tasks.Simulation.Finish | simulation.py:57-73 | under round-robin or random allocation, at start + duration the duration is taken off the task's server and the task completes at once (counter + 1, one sample pair); the invariant is kept |
| Tasks.Simulation.Complete | simulation.py:70-73 | only when the overhead's end time is reached: the completion counter rises by one and a second sample pair is taken; the invariant is kept |
| Tasks.Simulation.EndService | simulation.py:57-73 | load-aware policies enter the overhead phase with the monitor untouched; the others complete at once (counter + 1, one sample pair); the cursor is never touched |
| Tasks.Simulation.EndOverhead | simulation.py:64-73 | after the overhead the task completes at the later time (counter + 1, one sample pair) |
| Tasks.Simulation.LoadsNonNegative | simulation.py:20-62 | with non-negative duration bounds no server's load is ever negative |
| Tasks.Simulation.LoadsZeroWhenIdle | simulation.py:20-62 | each task's increment and decrement cancel: with no task waiting or in service, every load is 0 |
| Tasks.Simulation.AllDoneAccounting | simulation.py:47-73 | once every task has completed, each was counted once and left one latency and two sample pairs: both series hold 1 + 2 * tasks samples |
| Tasks.Simulation.IdsIncreasing | simulation.py:78-82 | task ids are issued 0, 1, 2, ... in increasing order |

## Left out

- The simpy event engine (`env.process`, `env.timeout`, `env.run`, the `yield` suspensions) is not modelled. Each lifecycle step is a method, and the time at which it runs is its input (`gap`, `now`) or is fixed by the task's own timeout.
- The internals of `simpy.Resource` (grant order, FIFO queue, release at the end of the `with` block) are not modelled. Each server's holders (`count`) and waiters (`queueLen`) are per-step inputs, and `Grant` may be applied to any waiting task.
- Randomness is not modelled:
  - `random.choice` is a nondeterministic choice of a valid index;
  - the `random.uniform` duration is a parameter constrained to the uniform's range;
  - the `random.expovariate` gap is a non-negative parameter;
  - `arrival_rate` and the seed therefore play no part.
- The `while True` arrival loop (simulation.py:79-82) is modelled as one turn, `Tasks.Simulation.Arrive`. The engine interleaves the other task processes between turns, so the model applies the lifecycle methods in any order the caller chooses.
- The spawn of a task process and its first segment (up to the server request) are merged into `Arrive`, because no suspension lies between them.
- Floating-point arithmetic is modelled as exact `real` arithmetic. In floating point, a load that gains and loses the same duration need not return exactly to 0.
- The `print` output of `print_stats` (monitor.py:65-84) is not modelled. `Monitoring.Monitor.PrintStats` returns the values it prints. The plotting functions (monitor.py:86-120) are not modelled.
- The string-based `getattr` dispatch (simulation.py:15) is replaced by the four-case `Scheduling.Algorithm` datatype, so an unknown policy name cannot be expressed.
- runner.py, scenarios.py, simulation_parameters.py and config.py are not part of this model. They are a scenario sweep with file output, plus constants and a plain record.
- Scheduling.Scheduler.constructor requires at least n capacities, each positive (`Selection.PositiveCapacities`). With too few capacities the source raises `IndexError` at simulation.py:12, and simpy raises `ValueError` for a capacity of 0 or less. Tasks.Simulation.constructor requires the same.
- Scheduling.Scheduler.RoundRobin requires at least one server. With none the source raises `IndexError` at simulation.py:24.
- Scheduling.Scheduler.Select and Scheduling.Scheduler.Schedule require at least one server. With none the source raises `IndexError` (round-robin, simulation.py:24) or `ValueError` from `min` of an empty list (simulation.py:33 and 37).
- Scheduling.Scheduler.RandomAllocation requires at least one server. With none `random.choice` raises `IndexError` (simulation.py:29).
- Tasks.Simulation.Arrive requires at least one server, for the same reasons as `Schedule`.
- Tasks.Simulation.Grant requires a non-negative duration. With a negative one `env.timeout` raises `ValueError` at simulation.py:57 and the run stops.
- Tasks.Simulation.EndService requires a non-negative overhead constant for the load-aware policies. With a negative one `env.timeout` raises `ValueError` at simulation.py:66 or 68 and the run stops.
- Monitoring.Monitor.PrintStats requires every sample to hold at least n values (`Stats.Wide`). Otherwise the source raises `IndexError` at monitor.py:30.
- Monitoring.Monitor.PrintStats requires what its `assert`s check, plus a non-zero elapsed time for each series and at least one server (Python raises `ZeroDivisionError` otherwise). The raised exceptions themselves are not modelled.
