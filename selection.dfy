// Pure server-selection rules of the load balancer: the scores the load-aware
// policies compare and the "first minimum" choices Python's min/index make.

module Options {
  datatype Option<T> = None | Some(value: T)
}

module Selection {

  /** i is the lowest index at which xs takes its minimum value. */
  ghost predicate IsFirstMin(xs: seq<real>, i: nat)
  {
    i < |xs|
    && (forall k :: 0 <= k < |xs| ==> xs[i] <= xs[k])
    && (forall k :: 0 <= k < i ==> xs[i] < xs[k])
  }

  /** The first n capacities exist and are positive (simpy refuses a resource of capacity <= 0). */
  ghost predicate PositiveCapacities(caps: seq<int>, n: nat)
  {
    n <= |caps| && forall i :: 0 <= i < n ==> caps[i] > 0
  }

  /** Outstanding load per core: loads[i] / capacities[i] for every server. */
  function LoadPerCore(loads: seq<real>, caps: seq<int>): seq<real>
    requires PositiveCapacities(caps, |loads|)
  {
    seq(|loads|, i requires 0 <= i < |loads| => loads[i] / caps[i] as real)
  }

  /** Connections per core: (holders + waiters) / capacity for every server. */
  function ConnectionsPerCore(count: seq<nat>, queueLen: seq<nat>, caps: seq<int>): seq<real>
    requires |queueLen| == |count| && PositiveCapacities(caps, |count|)
  {
    seq(|count|, i requires 0 <= i < |count| => (count[i] + queueLen[i]) as real / caps[i] as real)
  }

  /** Python's built-in min over a list: scans left to right, replacing only on a strictly smaller item. */
  function MinOf(xs: seq<real>): (m: real)
    requires |xs| > 0
    ensures m in xs
    ensures forall k :: 0 <= k < |xs| ==> m <= xs[k]
  {
    if |xs| == 1 then xs[0]
    else
      var m := MinOf(xs[..|xs| - 1]);
      if xs[|xs| - 1] < m then xs[|xs| - 1] else m
  }

  /** Python's list.index: the first position holding v. */
  function IndexOf(xs: seq<real>, v: real): (r: nat)
    requires v in xs
    ensures r < |xs| && xs[r] == v
    ensures forall k :: 0 <= k < r ==> xs[k] != v
  {
    if xs[0] == v then 0 else 1 + IndexOf(xs[1..], v)
  }

  /** Python's min(items, key=...): the position of the item kept by a left-to-right
      scan that replaces the current best only on a strictly smaller key. */
  function MinByKey(keys: seq<real>): (r: nat)
    requires |keys| > 0
    ensures IsFirstMin(keys, r)
  {
    if |keys| == 1 then 0
    else
      var b := MinByKey(keys[..|keys| - 1]);
      if keys[|keys| - 1] < keys[b] then |keys| - 1 else b
  }

  /** least_load: load_per_core.index(min(load_per_core)). */
  function LeastLoad(loads: seq<real>, caps: seq<int>): (sid: nat)
    requires |loads| > 0 && PositiveCapacities(caps, |loads|)
    ensures IsFirstMin(LoadPerCore(loads, caps), sid)
  {
    var perCore := LoadPerCore(loads, caps);
    IndexOf(perCore, MinOf(perCore))
  }

  /** least_connections: min(servers, key=(count + len(queue)) / capacity). */
  function LeastConnections(count: seq<nat>, queueLen: seq<nat>, caps: seq<int>): (sid: nat)
    requires |count| > 0 && |queueLen| == |count| && PositiveCapacities(caps, |count|)
    ensures IsFirstMin(ConnectionsPerCore(count, queueLen, caps), sid)
  {
    MinByKey(ConnectionsPerCore(count, queueLen, caps))
  }

  /** A sequence has exactly one first minimum. */
  lemma FirstMinUnique(xs: seq<real>, a: nat, b: nat)
    requires IsFirstMin(xs, a) && IsFirstMin(xs, b)
    ensures a == b
  {
    assert xs[a] == xs[b];
  }

  /** The two Python idioms (index of min, and min with a key) pick the same position. */
  lemma IndexOfMinIsMinByKey(xs: seq<real>)
    requires |xs| > 0
    ensures IndexOf(xs, MinOf(xs)) == MinByKey(xs)
  {
    FirstMinUnique(xs, IndexOf(xs, MinOf(xs)), MinByKey(xs));
  }

  /** Ties in load per core go to the lower index: a later server with the same
      score as an earlier one is never chosen. */
  lemma LeastLoadTieBreak(loads: seq<real>, caps: seq<int>, a: nat, b: nat)
    requires |loads| > 0 && PositiveCapacities(caps, |loads|)
    requires a < b < |loads|
    requires loads[a] / caps[a] as real == loads[b] / caps[b] as real
    ensures LeastLoad(loads, caps) != b
  {
    var perCore := LoadPerCore(loads, caps);
    assert perCore[a] == perCore[b];
  }

  /** A server whose connections per core exceed another's is never chosen by least_connections. */
  lemma LeastConnectionsAvoidsBusier(count: seq<nat>, queueLen: seq<nat>, caps: seq<int>, s: nat, t: nat)
    requires |count| > 0 && |queueLen| == |count| && PositiveCapacities(caps, |count|)
    requires s < |count| && t < |count|
    requires ConnectionsPerCore(count, queueLen, caps)[t] < ConnectionsPerCore(count, queueLen, caps)[s]
    ensures LeastConnections(count, queueLen, caps) != s
  {
  }
}
