// The load balancer of the simulation: per-server outstanding load, a
// round-robin cursor, and the four assignment policies.

module Scheduling {
  import Selection

  /** The four policies a configuration can name (the source picks one by its method name). */
  datatype Algorithm = RoundRobin | RandomAllocation | LeastLoad | LeastConnections

  /** Cursor position after one round-robin choice among n servers. */
  function NextCursor(c: nat, n: nat): (r: nat)
    requires n > 0
    ensures r < n
  {
    (c + 1) % n
  }

  /** Cursor position after k round-robin choices starting at c. */
  function CursorAfter(c: nat, n: nat, k: nat): nat
    requires n > 0
  {
    if k == 0 then c else NextCursor(CursorAfter(c, n, k - 1), n)
  }

  /** Euclidean division has a unique remainder. */
  lemma ModUnique(a: int, n: int, q: int, r: int)
    requires n > 0 && 0 <= r < n && a == q * n + r
    ensures a % n == r
  {
    var d := q - a / n;
    assert d * n == a % n - r;
  }

  lemma ModSuccessor(a: nat, b: nat, n: nat)
    requires n > 0 && b == a + 1
    ensures (a % n + 1) % n == b % n
  {
    var q, r := a / n, a % n;
    if r + 1 < n {
      ModUnique(b, n, q, r + 1);
      ModUnique(r + 1, n, 0, r + 1);
    } else {
      ModUnique(b, n, q + 1, 0);
      ModUnique(r + 1, n, 1, 0);
    }
  }

  /** The k-th round-robin choice from cursor c is server (c + k) mod n: servers are
      visited cyclically whatever their loads. */
  lemma {:induction false} CursorAfterIsShift(c: nat, n: nat, k: nat)
    requires n > 0 && c < n
    ensures CursorAfter(c, n, k) == (c + k) % n
  {
    if k > 0 {
      var a := c + k - 1;
      CursorAfterIsShift(c, n, k - 1);
      ModSuccessor(a, c + k, n);
      assert CursorAfter(c, n, k) == NextCursor(a % n, n);
    }
  }

  /** From a fresh cursor, n consecutive round-robin choices return 0, 1, ..., n-1 in
      order and leave the cursor back at 0. */
  lemma RoundRobinVisitsAllInOrder(n: nat)
    requires n > 0
    ensures forall k :: 0 <= k < n ==> CursorAfter(0, n, k) == k
    ensures CursorAfter(0, n, n) == 0
  {
    forall k | 0 <= k < n
      ensures CursorAfter(0, n, k) == k
    {
      CursorAfterIsShift(0, n, k);
      ModUnique(k, n, 0, k);
    }
    CursorAfterIsShift(0, n, n);
    ModUnique(n, n, 1, 0);
  }

  class Scheduler {
    const n: nat
    const capacities: seq<int>
    const algorithm: Algorithm
    var loads: seq<real>
    var current: nat

    ghost predicate Valid()
      reads this
    {
      |loads| == n
      && Selection.PositiveCapacities(capacities, n)
      && (if n == 0 then current == 0 else current < n)
    }

    constructor (nServers: nat, caps: seq<int>, alg: Algorithm)
      requires Selection.PositiveCapacities(caps, nServers)
      ensures Valid()
      ensures n == nServers && capacities == caps && algorithm == alg
      ensures loads == seq(nServers, _ => 0.0) && current == 0
    {
      n := nServers;
      capacities := caps;
      algorithm := alg;
      loads := seq(nServers, _ => 0.0);
      current := 0;
    }

    /** round_robin: the server at the cursor; the cursor moves on by one, modulo n. */
    method RoundRobin() returns (sid: nat)
      requires Valid() && n > 0
      modifies this`current
      ensures Valid()
      ensures sid == old(current) && current == NextCursor(old(current), n)
    {
      sid := current;
      current := NextCursor(current, n);
    }

    /** random_allocation: any server; the random draw is not modelled. */
    method RandomAllocation() returns (sid: nat)
      requires Valid() && n > 0
      ensures sid < n
    {
      sid :| 0 <= sid < n;
    }

    /** The policy named by the configuration (self.algorithm()). Only round-robin moves the cursor. */
    method Select(count: seq<nat>, queueLen: seq<nat>) returns (sid: nat)
      requires Valid() && n > 0 && |count| == n && |queueLen| == n
      modifies this`current
      ensures Valid() && sid < n
      ensures algorithm.RoundRobin? ==> sid == old(current) && current == NextCursor(old(current), n)
      ensures !algorithm.RoundRobin? ==> current == old(current)
      ensures algorithm.LeastLoad? ==>
        Selection.IsFirstMin(Selection.LoadPerCore(loads, capacities), sid)
      ensures algorithm.LeastConnections? ==>
        Selection.IsFirstMin(Selection.ConnectionsPerCore(count, queueLen, capacities), sid)
    {
      match algorithm
      case RoundRobin =>
        sid := RoundRobin();
      case RandomAllocation =>
        sid := RandomAllocation();
      case LeastLoad =>
        sid := Selection.LeastLoad(loads, capacities);
      case LeastConnections =>
        sid := Selection.LeastConnections(count, queueLen, capacities);
    }

    /** schedule: choose a server and add the task's duration to that server's load only. */
    method Schedule(duration: real, count: seq<nat>, queueLen: seq<nat>) returns (sid: nat)
      requires Valid() && n > 0 && |count| == n && |queueLen| == n
      modifies this
      ensures Valid() && sid < n
      ensures loads == old(loads)[sid := old(loads)[sid] + duration]
      ensures algorithm.RoundRobin? ==> sid == old(current) && current == NextCursor(old(current), n)
      ensures !algorithm.RoundRobin? ==> current == old(current)
      ensures algorithm.LeastLoad? ==>
        Selection.IsFirstMin(Selection.LoadPerCore(old(loads), capacities), sid)
      ensures algorithm.LeastConnections? ==>
        Selection.IsFirstMin(Selection.ConnectionsPerCore(count, queueLen, capacities), sid)
    {
      sid := Select(count, queueLen);
      loads := loads[sid := loads[sid] + duration];
    }
  }
}
