// The task lifecycle of the simulation as an explicit phase machine: each task
// is spawned by the arrival loop, scheduled, waits for its server, is served,
// pays the policy's overhead and completes. The event engine that resumes the
// phases is not modelled; each lifecycle step (Arrive, Grant, EndService,
// EndOverhead) runs from one suspension point to the next, and the clock value
// at which it runs is its input.

module Tasks {
  import opened Options
  import Selection
  import opened Scheduling
  import opened Stats
  import opened Monitoring

  /** The suspension point a task is parked at. */
  datatype Phase =
    | Waiting                 // requested its server, not granted yet
    | Serving(start: real)    // granted at start, running for its duration
    | Overhead(until: real)   // service over, paying the policy's overhead delay
    | Done

  datatype Task = Task(id: nat, arrival: real, duration: real, sid: nat, phase: Phase)

  /** The parameters the task processes read. The two overhead constants are not
      fields of the source's configuration record; they are parameters here. */
  datatype Config = Config(
    nServers: nat,
    capacities: seq<int>,
    algorithm: Algorithm,
    overheadLeastLoad: real,
    overheadLeastConnections: real,
    durationMin: real,
    durationMax: real)

  /** random.uniform(a, b) returns a value between a and b, in either order. */
  ghost predicate InUniformRange(d: real, a: real, b: real)
  {
    if a <= b then a <= d <= b else b <= d <= a
  }

  /** The delay charged after service: only the load-aware policies pay one. */
  function OverheadDelay(cfg: Config): (d: Option<real>)
    ensures d.Some? <==> cfg.algorithm.LeastLoad? || cfg.algorithm.LeastConnections?
    ensures cfg.algorithm.LeastLoad? ==> d == Some(cfg.overheadLeastLoad)
    ensures cfg.algorithm.LeastConnections? ==> d == Some(cfg.overheadLeastConnections)
  {
    match cfg.algorithm
    case LeastLoad => Some(cfg.overheadLeastLoad)
    case LeastConnections => Some(cfg.overheadLeastConnections)
    case _ => None
  }

  /** Queue lengths as the real-valued vector a sample holds. */
  function Reals(xs: seq<nat>): seq<real>
  {
    seq(|xs|, i requires 0 <= i < |xs| => xs[i] as real)
  }

  /** The load a task still holds on server j: its duration from scheduling until
      its service ends, nothing before or after. */
  function Pending(t: Task, j: nat): real
  {
    if t.sid == j && (t.phase.Waiting? || t.phase.Serving?) then t.duration else 0.0
  }

  /** Outstanding load on server j: the durations of the tasks scheduled on j whose
      service has not ended. */
  function Outstanding(ts: seq<Task>, j: nat): real
  {
    if |ts| == 0 then 0.0 else Outstanding(ts[..|ts| - 1], j) + Pending(ts[|ts| - 1], j)
  }

  /** Number of tasks that have completed. */
  function CountDone(ts: seq<Task>): nat
  {
    if |ts| == 0 then 0 else CountDone(ts[..|ts| - 1]) + (if ts[|ts| - 1].phase.Done? then 1 else 0)
  }

  /** Number of tasks whose server request has been granted. */
  function CountGranted(ts: seq<Task>): nat
  {
    if |ts| == 0 then 0 else CountGranted(ts[..|ts| - 1]) + (if ts[|ts| - 1].phase.Waiting? then 0 else 1)
  }

  /** Replacing one task changes the outstanding load by the difference of what the
      old and the new state hold. */
  lemma {:induction false} OutstandingUpdate(ts: seq<Task>, k: nat, t: Task, j: nat)
    requires k < |ts|
    ensures Outstanding(ts[k := t], j) == Outstanding(ts, j) - Pending(ts[k], j) + Pending(t, j)
  {
    var last := |ts| - 1;
    if k < last {
      assert ts[k := t][..last] == ts[..last][k := t];
      OutstandingUpdate(ts[..last], k, t, j);
    } else {
      assert ts[k := t][..last] == ts[..last];
    }
  }

  lemma OutstandingAppend(ts: seq<Task>, t: Task, j: nat)
    ensures Outstanding(ts + [t], j) == Outstanding(ts, j) + Pending(t, j)
  {
    assert (ts + [t])[..|ts|] == ts;
  }

  /** With non-negative durations no server's outstanding load is negative. */
  lemma {:induction false} OutstandingNonNeg(ts: seq<Task>, j: nat)
    requires forall i :: 0 <= i < |ts| ==> ts[i].duration >= 0.0
    ensures Outstanding(ts, j) >= 0.0
  {
    if |ts| > 0 {
      OutstandingNonNeg(ts[..|ts| - 1], j);
    }
  }

  /** Tasks past their service hold no load at all. */
  lemma {:induction false} OutstandingIdle(ts: seq<Task>, j: nat)
    requires forall i :: 0 <= i < |ts| ==> ts[i].phase.Overhead? || ts[i].phase.Done?
    ensures Outstanding(ts, j) == 0.0
  {
    if |ts| > 0 {
      OutstandingIdle(ts[..|ts| - 1], j);
    }
  }

  /** When every task has completed, every task is counted as done and as granted. */
  lemma {:induction false} CountAllDone(ts: seq<Task>)
    requires forall i :: 0 <= i < |ts| ==> ts[i].phase.Done?
    ensures CountDone(ts) == |ts| && CountGranted(ts) == |ts|
  {
    if |ts| > 0 {
      CountAllDone(ts[..|ts| - 1]);
    }
  }

  lemma {:induction false} CountUpdate(ts: seq<Task>, k: nat, t: Task)
    requires k < |ts|
    ensures CountDone(ts[k := t]) + (if ts[k].phase.Done? then 1 else 0)
         == CountDone(ts) + (if t.phase.Done? then 1 else 0)
    ensures CountGranted(ts[k := t]) + (if ts[k].phase.Waiting? then 0 else 1)
         == CountGranted(ts) + (if t.phase.Waiting? then 0 else 1)
  {
    var last := |ts| - 1;
    if k < last {
      assert ts[k := t][..last] == ts[..last][k := t];
      CountUpdate(ts[..last], k, t);
    } else {
      assert ts[k := t][..last] == ts[..last];
    }
  }

  lemma CountAppend(ts: seq<Task>, t: Task)
    ensures CountDone(ts + [t]) == CountDone(ts) + (if t.phase.Done? then 1 else 0)
    ensures CountGranted(ts + [t]) == CountGranted(ts) + (if t.phase.Waiting? then 0 else 1)
  {
    assert (ts + [t])[..|ts|] == ts;
  }

  /** The scheduler, the monitor and the task processes of one run, with the clock
      of the event engine and the arrival loop's next task id. */
  class Simulation {
    const cfg: Config
    const sched: Scheduler
    const mon: Monitor
    var clock: real
    var taskId: nat
    var tasks: seq<Task>

    ghost predicate TaskOk(t: Task, i: nat)
      reads this
    {
      t.id == i && t.sid < cfg.nServers && t.arrival <= clock
      && InUniformRange(t.duration, cfg.durationMin, cfg.durationMax)
      && (t.phase.Serving? ==> t.duration >= 0.0)
      && (t.phase.Overhead? ==> OverheadDelay(cfg).Some?)
    }

    /** The scheduler and the monitor are built from this configuration. */
    ghost predicate Wired()
      reads this, sched, mon
    {
      sched.Valid() && mon.Valid()
      && sched.n == cfg.nServers && sched.capacities == cfg.capacities
      && sched.algorithm == cfg.algorithm && mon.nServers == cfg.nServers
    }

    /** Ids are issued in order and every task is well formed. */
    ghost predicate TasksOk()
      reads this
    {
      taskId == |tasks| && forall i :: 0 <= i < |tasks| ==> TaskOk(tasks[i], i)
    }

    /** Every server's load is the outstanding work of the tasks scheduled on it. */
    ghost predicate LoadsMatch()
      reads this, sched
    {
      |sched.loads| == cfg.nServers
      && forall j :: 0 <= j < cfg.nServers ==> sched.loads[j] == Outstanding(tasks, j)
    }

    /** The monitor has counted every completion, recorded one latency per granted
        request, and holds one sample pair per arrival and per completion besides
        the initial one, none later than the clock. */
    ghost predicate MonitorMatches()
      reads this, mon
    {
      mon.Valid()
      && mon.finishedTaskCounter == CountDone(tasks)
      && |mon.taskLatencies| == CountGranted(tasks)
      && (forall i :: 0 <= i < |mon.taskLatencies| ==> mon.taskLatencies[i] >= 0.0)
      && |mon.loadsOverTime| == 1 + |tasks| + CountDone(tasks)
      && mon.LastTime() <= clock
    }

    ghost predicate Valid()
      reads this, sched, mon
    {
      Wired() && TasksOk() && LoadsMatch() && MonitorMatches()
    }

    constructor (config: Config)
      requires Selection.PositiveCapacities(config.capacities, config.nServers)
      ensures Valid() && fresh(sched) && fresh(mon)
      ensures cfg == config && clock == 0.0 && taskId == 0 && tasks == []
      ensures sched.loads == Zeros(config.nServers) && sched.current == 0
      ensures mon.finishedTaskCounter == 0 && mon.taskLatencies == []
      ensures mon.loadsOverTime == mon.queueLengthsOverTime == [Sample(0.0, Zeros(config.nServers))]
    {
      cfg := config;
      sched := new Scheduler(config.nServers, config.capacities, config.algorithm);
      mon := new Monitor(config.nServers);
      clock := 0.0;
      taskId := 0;
      tasks := [];
    }

    /** Append the load-per-core and queue-length samples at the current time. */
    method RecordSamples(queueLen: seq<nat>)
      requires sched.Valid() && mon.Valid() && |queueLen| == cfg.nServers
      requires sched.n == cfg.nServers && sched.capacities == cfg.capacities
      requires mon.nServers == cfg.nServers && mon.LastTime() <= clock
      modifies mon
      ensures mon.Valid() && mon.LastTime() == clock
      ensures mon.loadsOverTime ==
        old(mon.loadsOverTime) + [Sample(clock, Selection.LoadPerCore(sched.loads, cfg.capacities))]
      ensures mon.queueLengthsOverTime == old(mon.queueLengthsOverTime) + [Sample(clock, Reals(queueLen))]
      ensures mon.finishedTaskCounter == old(mon.finishedTaskCounter)
      ensures mon.taskLatencies == old(mon.taskLatencies)
    {
      mon.loadsOverTime := mon.loadsOverTime + [Sample(clock, Selection.LoadPerCore(sched.loads, cfg.capacities))];
      mon.queueLengthsOverTime := mon.queueLengthsOverTime + [Sample(clock, Reals(queueLen))];
    }

    /** One turn of the arrival loop after its inter-arrival delay `gap`: the next
        id is issued and the new task runs up to its server request (it is
        scheduled, and both series are sampled). `duration` is the task's uniform
        draw; `count` and `queueLen` are the servers' holders and waiters. */
    method Arrive(gap: real, duration: real, count: seq<nat>, queueLen: seq<nat>) returns (id: nat, sid: nat)
      requires Valid() && cfg.nServers > 0
      requires gap >= 0.0 && InUniformRange(duration, cfg.durationMin, cfg.durationMax)
      requires |count| == cfg.nServers && |queueLen| == cfg.nServers
      modifies this, sched, mon
      ensures Valid()
      ensures clock == old(clock) + gap
      ensures id == old(taskId) && taskId == old(taskId) + 1
      ensures tasks == old(tasks) + [Task(id, clock, duration, sid, Waiting)]
      ensures sid < cfg.nServers
      ensures sched.loads == old(sched.loads)[sid := old(sched.loads)[sid] + duration]
      ensures cfg.algorithm.RoundRobin? ==>
        sid == old(sched.current) && sched.current == NextCursor(old(sched.current), cfg.nServers)
      ensures !cfg.algorithm.RoundRobin? ==> sched.current == old(sched.current)
      ensures cfg.algorithm.LeastLoad? ==>
        Selection.IsFirstMin(Selection.LoadPerCore(old(sched.loads), cfg.capacities), sid)
      ensures cfg.algorithm.LeastConnections? ==>
        Selection.IsFirstMin(Selection.ConnectionsPerCore(count, queueLen, cfg.capacities), sid)
      ensures mon.loadsOverTime ==
        old(mon.loadsOverTime) + [Sample(clock, Selection.LoadPerCore(sched.loads, cfg.capacities))]
      ensures mon.queueLengthsOverTime == old(mon.queueLengthsOverTime) + [Sample(clock, Reals(queueLen))]
      ensures mon.finishedTaskCounter == old(mon.finishedTaskCounter)
      ensures mon.taskLatencies == old(mon.taskLatencies)
    {
      clock := clock + gap;
      id := taskId;
      sid := sched.Schedule(duration, count, queueLen);
      var t := Task(id, clock, duration, sid, Waiting);
      forall j | 0 <= j < cfg.nServers
        ensures sched.loads[j] == Outstanding(tasks + [t], j)
      {
        OutstandingAppend(tasks, t, j);
      }
      Admit(t, queueLen);
    }

    /** The freshly scheduled task t joins the run under the next id, and both series
        are sampled; the loads already include its duration. */
    method Admit(t: Task, queueLen: seq<nat>)
      requires Wired() && TasksOk() && MonitorMatches() && |queueLen| == cfg.nServers
      requires TaskOk(t, |tasks|) && t.phase == Waiting
      requires forall j :: 0 <= j < cfg.nServers ==> sched.loads[j] == Outstanding(tasks + [t], j)
      modifies this`tasks, this`taskId, mon
      ensures Valid()
      ensures tasks == old(tasks) + [t] && taskId == old(taskId) + 1
      ensures mon.loadsOverTime ==
        old(mon.loadsOverTime) + [Sample(clock, Selection.LoadPerCore(sched.loads, cfg.capacities))]
      ensures mon.queueLengthsOverTime == old(mon.queueLengthsOverTime) + [Sample(clock, Reals(queueLen))]
      ensures mon.finishedTaskCounter == old(mon.finishedTaskCounter)
      ensures mon.taskLatencies == old(mon.taskLatencies)
    {
      CountAppend(tasks, t);
      tasks := tasks + [t];
      taskId := taskId + 1;
      RecordSamples(queueLen);
    }

    /** The server grants the request at time `now`: the wait is recorded as the
        task's latency and service starts. */
    method Grant(id: nat, now: real)
      requires Valid() && id < |tasks| && tasks[id].phase == Waiting
      requires now >= clock
      requires tasks[id].duration >= 0.0  // simpy refuses a negative timeout
      modifies this`clock, this`tasks, mon`taskLatencies
      ensures Valid() && clock == now
      ensures tasks == old(tasks)[id := old(tasks)[id].(phase := Serving(now))]
      ensures mon.taskLatencies == old(mon.taskLatencies) + [now - old(tasks)[id].arrival]
      ensures mon.finishedTaskCounter == old(mon.finishedTaskCounter)
      ensures mon.loadsOverTime == old(mon.loadsOverTime)
      ensures mon.queueLengthsOverTime == old(mon.queueLengthsOverTime)
    {
      var t := tasks[id];
      var t' := t.(phase := Serving(now));
      forall j | 0 <= j < cfg.nServers
        ensures sched.loads[j] == Outstanding(tasks[id := t'], j)
      {
        OutstandingUpdate(tasks, id, t', j);
      }
      CountUpdate(tasks, id, t');
      assert t.arrival <= now;
      clock := now;
      tasks := tasks[id := t'];
      assert TasksOk() && LoadsMatch();
      assert mon.Valid() && now - t.arrival >= 0.0;
      mon.taskLatencies := mon.taskLatencies + [now - t.arrival];
      assert mon.Valid();
    }

    /** The service timeout fires at start + duration under a load-aware policy: the
        duration is taken off the server's load and the task starts paying the
        policy's overhead delay. */
    method Release(id: nat)
      requires Valid() && id < |tasks| && tasks[id].phase.Serving?
      requires clock <= tasks[id].phase.start + tasks[id].duration
      requires OverheadDelay(cfg).Some?
      modifies this`clock, this`tasks, sched`loads
      ensures Valid()
      ensures clock == old(tasks[id].phase.start + tasks[id].duration)
      ensures tasks == old(tasks)[id := old(tasks)[id].(phase := Overhead(clock + OverheadDelay(cfg).value))]
      ensures sched.loads ==
        old(sched.loads)[old(tasks[id].sid) := old(sched.loads)[old(tasks[id].sid)] - old(tasks[id].duration)]
    {
      var t := tasks[id];
      var finish := t.phase.start + t.duration;
      var t' := t.(phase := Overhead(finish + OverheadDelay(cfg).value));
      var loads' := sched.loads[t.sid := sched.loads[t.sid] - t.duration];
      forall j | 0 <= j < cfg.nServers
        ensures loads'[j] == Outstanding(tasks[id := t'], j)
      {
        OutstandingUpdate(tasks, id, t', j);
      }
      CountUpdate(tasks, id, t');
      clock := finish;
      tasks := tasks[id := t'];
      assert TasksOk() && MonitorMatches();
      sched.loads := loads';
    }

    /** The service timeout fires at start + duration under a policy without an
        overhead: the duration is taken off the server's load and, with no further
        suspension, the task completes (counter and a second sample pair). */
    method Finish(id: nat, queueLen: seq<nat>)
      requires Valid() && id < |tasks| && tasks[id].phase.Serving?
      requires clock <= tasks[id].phase.start + tasks[id].duration
      requires OverheadDelay(cfg).None? && |queueLen| == cfg.nServers
      modifies this`clock, this`tasks, sched`loads, mon
      ensures Valid()
      ensures clock == old(tasks[id].phase.start + tasks[id].duration)
      ensures tasks == old(tasks)[id := old(tasks)[id].(phase := Done)]
      ensures sched.loads ==
        old(sched.loads)[old(tasks[id].sid) := old(sched.loads)[old(tasks[id].sid)] - old(tasks[id].duration)]
      ensures mon.finishedTaskCounter == old(mon.finishedTaskCounter) + 1
      ensures mon.loadsOverTime ==
        old(mon.loadsOverTime) + [Sample(clock, Selection.LoadPerCore(sched.loads, cfg.capacities))]
      ensures mon.queueLengthsOverTime == old(mon.queueLengthsOverTime) + [Sample(clock, Reals(queueLen))]
      ensures mon.taskLatencies == old(mon.taskLatencies)
    {
      var t := tasks[id];
      var t' := t.(phase := Done);
      var loads' := sched.loads[t.sid := sched.loads[t.sid] - t.duration];
      forall j | 0 <= j < cfg.nServers
        ensures loads'[j] == Outstanding(tasks[id := t'], j)
      {
        OutstandingUpdate(tasks, id, t', j);
      }
      CountUpdate(tasks, id, t');
      clock := t.phase.start + t.duration;
      tasks := tasks[id := t'];
      assert TasksOk();
      sched.loads := loads';
      assert Wired() && LoadsMatch();
      mon.finishedTaskCounter := mon.finishedTaskCounter + 1;
      RecordSamples(queueLen);
    }

    /** At the end of its overhead delay the task completes: the monitor counts it and
        takes a second sample pair. */
    method Complete(id: nat, queueLen: seq<nat>)
      requires Valid() && id < |tasks| && tasks[id].phase.Overhead?
      requires clock == tasks[id].phase.until
      requires |queueLen| == cfg.nServers
      modifies this`tasks, mon
      ensures Valid()
      ensures tasks == old(tasks)[id := old(tasks)[id].(phase := Done)]
      ensures mon.finishedTaskCounter == old(mon.finishedTaskCounter) + 1
      ensures mon.loadsOverTime ==
        old(mon.loadsOverTime) + [Sample(clock, Selection.LoadPerCore(sched.loads, cfg.capacities))]
      ensures mon.queueLengthsOverTime == old(mon.queueLengthsOverTime) + [Sample(clock, Reals(queueLen))]
      ensures mon.taskLatencies == old(mon.taskLatencies)
    {
      var t' := tasks[id].(phase := Done);
      forall j | 0 <= j < cfg.nServers
        ensures sched.loads[j] == Outstanding(tasks[id := t'], j)
      {
        OutstandingUpdate(tasks, id, t', j);
      }
      CountUpdate(tasks, id, t');
      tasks := tasks[id := t'];
      assert TasksOk() && LoadsMatch();
      mon.finishedTaskCounter := mon.finishedTaskCounter + 1;
      RecordSamples(queueLen);
    }

    /** End of service: under a load-aware policy the task enters its overhead phase
        with the monitor untouched; under the others it completes at once. */
    method EndService(id: nat, queueLen: seq<nat>)
      requires Valid() && id < |tasks| && tasks[id].phase.Serving?
      requires clock <= tasks[id].phase.start + tasks[id].duration
      requires |queueLen| == cfg.nServers
      requires OverheadDelay(cfg).Some? ==> OverheadDelay(cfg).value >= 0.0  // simpy refuses a negative timeout
      modifies this`clock, this`tasks, sched`loads, mon
      ensures Valid()
      ensures clock == old(tasks[id].phase.start + tasks[id].duration)
      ensures sched.loads ==
        old(sched.loads)[old(tasks[id].sid) := old(sched.loads)[old(tasks[id].sid)] - old(tasks[id].duration)]
      ensures match OverheadDelay(cfg)
        case Some(d) =>
          tasks == old(tasks)[id := old(tasks)[id].(phase := Overhead(clock + d))]
          && mon.finishedTaskCounter == old(mon.finishedTaskCounter)
          && mon.loadsOverTime == old(mon.loadsOverTime)
          && mon.queueLengthsOverTime == old(mon.queueLengthsOverTime)
        case None =>
          tasks == old(tasks)[id := old(tasks)[id].(phase := Done)]
          && mon.finishedTaskCounter == old(mon.finishedTaskCounter) + 1
          && mon.loadsOverTime ==
            old(mon.loadsOverTime) + [Sample(clock, Selection.LoadPerCore(sched.loads, cfg.capacities))]
          && mon.queueLengthsOverTime == old(mon.queueLengthsOverTime) + [Sample(clock, Reals(queueLen))]
      ensures mon.taskLatencies == old(mon.taskLatencies)
    {
      if OverheadDelay(cfg).Some? {
        Release(id);
      } else {
        Finish(id, queueLen);
      }
    }

    /** The overhead timeout fires: the task completes at the later time. */
    method EndOverhead(id: nat, queueLen: seq<nat>)
      requires Valid() && id < |tasks| && tasks[id].phase.Overhead?
      requires clock <= tasks[id].phase.until
      requires |queueLen| == cfg.nServers
      modifies this`clock, this`tasks, mon
      ensures Valid()
      ensures clock == old(tasks[id].phase.until)
      ensures tasks == old(tasks)[id := old(tasks)[id].(phase := Done)]
      ensures mon.finishedTaskCounter == old(mon.finishedTaskCounter) + 1
      ensures mon.loadsOverTime ==
        old(mon.loadsOverTime) + [Sample(clock, Selection.LoadPerCore(sched.loads, cfg.capacities))]
      ensures mon.queueLengthsOverTime == old(mon.queueLengthsOverTime) + [Sample(clock, Reals(queueLen))]
      ensures mon.taskLatencies == old(mon.taskLatencies)
    {
      clock := tasks[id].phase.until;
      assert TasksOk() && MonitorMatches();
      Complete(id, queueLen);
    }

    /** With non-negative duration bounds, no server's load is ever negative. */
    lemma LoadsNonNegative()
      requires Valid() && cfg.durationMin >= 0.0 && cfg.durationMax >= 0.0
      ensures forall j :: 0 <= j < cfg.nServers ==> sched.loads[j] >= 0.0
    {
      forall j | 0 <= j < cfg.nServers
        ensures sched.loads[j] >= 0.0
      {
        OutstandingNonNeg(tasks, j);
      }
    }

    /** Each task adds its duration when scheduled and takes the same duration off
        when its service ends: once no task is waiting or being served, every load
        is back to 0. */
    lemma LoadsZeroWhenIdle()
      requires Valid()
      requires forall i :: 0 <= i < |tasks| ==> tasks[i].phase.Overhead? || tasks[i].phase.Done?
      ensures forall j :: 0 <= j < cfg.nServers ==> sched.loads[j] == 0.0
    {
      forall j | 0 <= j < cfg.nServers
        ensures sched.loads[j] == 0.0
      {
        OutstandingIdle(tasks, j);
      }
    }

    /** Once every task has completed, each was counted once, left one latency and
        two sample pairs (after scheduling and at completion) besides the initial one. */
    lemma AllDoneAccounting()
      requires Valid()
      requires forall i :: 0 <= i < |tasks| ==> tasks[i].phase.Done?
      ensures mon.finishedTaskCounter == |tasks| && |mon.taskLatencies| == |tasks|
      ensures |mon.loadsOverTime| == |mon.queueLengthsOverTime| == 1 + 2 * |tasks|
    {
      CountAllDone(tasks);
    }

    /** Task ids are issued 0, 1, 2, ... in increasing order. */
    lemma IdsIncreasing()
      requires Valid()
      ensures forall a, b :: 0 <= a < b < |tasks| ==> tasks[a].id < tasks[b].id
      ensures taskId == |tasks|
    {
    }
  }
}
