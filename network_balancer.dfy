/**
 * The queue-aware round-robin dispatcher of the network balancer.
 *
 * For every request the handler reads one queue-depth sample per machine,
 * then walks the machine list starting after the persistent cursor `lastIdx`,
 * making one try per machine, and pipes the request to each candidate whose
 * depth is below `MAX`. Redis reads, `parseInt` and `req.pipe` are abstracted:
 * the snapshot arrives already parsed and the method returns the machines the
 * request was piped to, in order.
 */
module NetworkBalancer {
  import opened Wrappers

  type MachineId = string

  /**
   * One queue-depth reading per machine, taken before the loop starts.
   * `Some(d)` is a stored string that parses to the integer `d`; `None` is a
   * `null` reading (no entry in the store) or a string that parses to NaN.
   * A machine without a key reads as `None`.
   */
  type Snapshot = map<MachineId, Option<int>>

  /** The fixed machine registry the balancer is deployed with. */
  const AllNetworkedMachines: seq<MachineId> := ["a", "b", "c"]

  /** Queue depth at which a machine stops receiving new work. */
  const MAX: int := 250

  /**
   * Which object the eligibility test inspects.
   * `WholeObject` is the test as written: `typeof` is applied to the whole
   * snapshot object, which is never a string, so every candidate gets `MAX`.
   * `PerMachine` is the evidently intended test on the candidate's own sample.
   */
  datatype Gate = WholeObject | PerMachine

  function Sample(snapshot: Snapshot, m: MachineId): Option<int> {
    if m in snapshot then snapshot[m] else None
  }

  /** The `currentQueue` the loop compares against `MAX` for candidate `m`. */
  function QueueDepth(gate: Gate, snapshot: Snapshot, m: MachineId): int {
    match gate
    case WholeObject => MAX
    case PerMachine => Sample(snapshot, m).GetOr(MAX)
  }

  /** The `currentQueue < MAX` gate. */
  predicate Eligible(depth: int) {
    depth < MAX
  }

  /** The depth threshold is strict: `MAX` itself is refused and `MAX - 1` accepted. */
  lemma ThresholdBoundary()
    ensures !Eligible(250) && Eligible(249)
  {
  }

  /** A missing sample is never eligible, whatever the gate (fail closed). */
  lemma MissingSampleFailsClosed(gate: Gate, snapshot: Snapshot, m: MachineId)
    requires Sample(snapshot, m) == None
    ensures !Eligible(QueueDepth(gate, snapshot, m))
  {
  }

  // ---------------------------------------------------------------------
  // Rotation order

  /**
   * The machine index of try `j` (counting from 0) when the cursor starts at
   * `start`: that try runs with `lastIdx == start + j` and looks at
   * `(lastIdx + 1) % n`.
   */
  function TryIndex(start: nat, n: nat, j: nat): (i: nat)
    requires n > 0
    ensures i < n
  {
    (start + j + 1) % n
  }

  /** The machine indices of the first `k` tries when the cursor starts at `start`. */
  function Candidates(start: nat, n: nat, k: nat): (r: seq<nat>)
    requires n > 0
    ensures |r| == k
    ensures forall j :: 0 <= j < k ==> r[j] < n
  {
    if k == 0 then [] else Candidates(start, n, k - 1) + [(start + k) % n]
  }

  lemma {:induction false} CandidateAt(start: nat, n: nat, k: nat, j: nat)
    requires n > 0 && j < k
    ensures Candidates(start, n, k)[j] == (start + j + 1) % n
  {
    if j < k - 1 {
      CandidateAt(start, n, k - 1, j);
    }
  }

  /** `(n * q + r) % n == r` for a remainder in range. */
  lemma ModMultiplePlus(n: nat, q: int, r: int)
    requires 0 <= r < n
    ensures (n * q + r) % n == r
  {
    var a := n * q + r;
    var d := q - a / n;
    assert n * d == a % n - r;
  }

  lemma ModSplit(a: nat, n: nat)
    requires n > 0
    ensures a == n * (a / n) + a % n && 0 <= a % n < n && a / n >= 0
  {
  }

  /** One full rotation visits indices pairwise distinct, so it visits each index exactly once. */
  lemma {:induction false} RotationDistinct(start: nat, n: nat)
    requires n > 0
    ensures forall j, k :: 0 <= j < k < n ==> Candidates(start, n, n)[j] != Candidates(start, n, n)[k]
  {
    forall j, k | 0 <= j < k < n
      ensures Candidates(start, n, n)[j] != Candidates(start, n, n)[k]
    {
      CandidateAt(start, n, n, j);
      CandidateAt(start, n, n, k);
      var a := start + j + 1;
      var d := k - j;
      ModSplit(a, n);
      var q, r := a / n, a % n;
      if r + d < n {
        assert a + d == n * q + (r + d);
        ModMultiplePlus(n, q, r + d);
      } else {
        assert a + d == n * (q + 1) + (r + d - n);
        ModMultiplePlus(n, q + 1, r + d - n);
      }
    }
  }

  /** One full rotation reaches every machine index. */
  lemma RotationCovers(start: nat, n: nat, i: nat)
    requires i < n
    ensures exists j :: 0 <= j < n && TryIndex(start, n, j) == i
  {
    var s := start % n;
    ModSplit(start, n);
    var j: nat := if s < i then i - s - 1 else i - s - 1 + n;
    if s < i {
      assert start + j + 1 == n * (start / n) + i;
      ModMultiplePlus(n, start / n, i);
    } else {
      assert start + j + 1 == n * (start / n + 1) + i;
      ModMultiplePlus(n, start / n + 1, i);
    }
    assert TryIndex(start, n, j) == i;
  }

  /**
   * A cursor that moved by a whole rotation yields the same candidate order:
   * as written, every request starts its rotation at the same machine.
   */
  lemma {:induction false} RotationRepeats(start: nat, n: nat)
    requires n > 0
    ensures Candidates(start + n, n, n) == Candidates(start, n, n)
  {
    forall j | 0 <= j < n
      ensures Candidates(start + n, n, n)[j] == Candidates(start, n, n)[j]
    {
      CandidateAt(start + n, n, n, j);
      CandidateAt(start, n, n, j);
      var a := start + j + 1;
      ModSplit(a, n);
      assert start + n + j + 1 == n * (a / n + 1) + a % n;
      ModMultiplePlus(n, a / n + 1, a % n);
    }
  }

  // ---------------------------------------------------------------------
  // What one request pipes to

  /** The machines the first `k` tries pipe to, in rotation order. */
  function Piped(machines: seq<MachineId>, start: nat, snapshot: Snapshot, gate: Gate, k: nat): (r: seq<MachineId>)
    requires |machines| > 0
    ensures |r| <= k
  {
    if k == 0 then []
    else
      var prev := Piped(machines, start, snapshot, gate, k - 1);
      var m := machines[(start + k) % |machines|];
      if Eligible(QueueDepth(gate, snapshot, m)) then prev + [m] else prev
  }

  /** A machine is piped to by the first `k` tries iff one of those tries looked at it and it was eligible. */
  lemma {:induction false} PipedMembership(machines: seq<MachineId>, start: nat, snapshot: Snapshot, gate: Gate, k: nat, m: MachineId)
    requires |machines| > 0
    ensures m in Piped(machines, start, snapshot, gate, k) <==>
      Eligible(QueueDepth(gate, snapshot, m)) &&
      exists j :: 0 <= j < k && machines[TryIndex(start, |machines|, j)] == m
  {
    var n := |machines|;
    if k > 0 {
      PipedMembership(machines, start, snapshot, gate, k - 1, m);
      var prev := Piped(machines, start, snapshot, gate, k - 1);
      var c := machines[TryIndex(start, n, k - 1)];
      assert TryIndex(start, n, k - 1) == (start + k) % n;
      assert m in Piped(machines, start, snapshot, gate, k) <==>
        m in prev || (Eligible(QueueDepth(gate, snapshot, c)) && m == c);
      if exists j :: 0 <= j < k && machines[TryIndex(start, n, j)] == m {
        var j :| 0 <= j < k && machines[TryIndex(start, n, j)] == m;
        if j < k - 1 {
          assert exists j' :: 0 <= j' < k - 1 && machines[TryIndex(start, n, j')] == m;
        }
      }
    }
  }

  /** Every machine piped to lies within the registry and passed the gate. */
  lemma {:induction false} PipedAreEligible(machines: seq<MachineId>, start: nat, snapshot: Snapshot, gate: Gate, k: nat)
    requires |machines| > 0
    ensures forall m :: m in Piped(machines, start, snapshot, gate, k) ==>
      m in machines && Eligible(QueueDepth(gate, snapshot, m))
  {
    if k > 0 {
      PipedAreEligible(machines, start, snapshot, gate, k - 1);
    }
  }

  /** Piping only ever extends the list: the first `k` tries' targets prefix those of `k'` tries. */
  lemma {:induction false} PipedPrefix(machines: seq<MachineId>, start: nat, snapshot: Snapshot, gate: Gate, k: nat, k': nat)
    requires |machines| > 0 && k <= k'
    ensures Piped(machines, start, snapshot, gate, k) <= Piped(machines, start, snapshot, gate, k')
  {
    if k < k' {
      PipedPrefix(machines, start, snapshot, gate, k, k' - 1);
    }
  }

  /**
   * With the intended per-machine gate, one full rotation pipes to exactly the
   * registry machines whose sample is present and strictly below `MAX`.
   */
  lemma PipedAreExactlyEligible(machines: seq<MachineId>, start: nat, snapshot: Snapshot, m: MachineId)
    requires |machines| > 0
    ensures m in Piped(machines, start, snapshot, PerMachine, |machines|) <==>
      m in machines && Sample(snapshot, m).Some? && Sample(snapshot, m).value < MAX
  {
    var n := |machines|;
    PipedMembership(machines, start, snapshot, PerMachine, n, m);
    PipedAreEligible(machines, start, snapshot, PerMachine, n);
    if m in machines && Eligible(QueueDepth(PerMachine, snapshot, m)) {
      var i :| 0 <= i < n && machines[i] == m;
      RotationCovers(start, n, i);
    }
  }

  /** With the gate as written no machine is ever piped to, whatever the snapshot. */
  lemma {:induction false} WholeObjectGateNeverPipes(machines: seq<MachineId>, start: nat, snapshot: Snapshot, k: nat)
    requires |machines| > 0
    ensures Piped(machines, start, snapshot, WholeObject, k) == []
  {
    if k > 0 {
      WholeObjectGateNeverPipes(machines, start, snapshot, k - 1);
    }
  }

  /**
   * Because `sent` is never set, a rotation in which every sample is below
   * `MAX` pipes the request to every machine, once each, in rotation order.
   */
  lemma {:induction false} AllEligiblePipesToAll(machines: seq<MachineId>, start: nat, snapshot: Snapshot, k: nat)
    requires |machines| > 0
    requires forall i :: 0 <= i < |machines| ==> Eligible(QueueDepth(PerMachine, snapshot, machines[i]))
    ensures Piped(machines, start, snapshot, PerMachine, k) == seq(k, j requires 0 <= j < k => machines[Candidates(start, |machines|, k)[j]])
  {
    if k > 0 {
      AllEligiblePipesToAll(machines, start, snapshot, k - 1);
      var n := |machines|;
      assert Candidates(start, n, k)[..k - 1] == Candidates(start, n, k - 1);
    }
  }

  /**
   * The deployed registry with a fresh cursor: the tries look at `b`, `c`,
   * `a`. With samples `a: 10`, `b: 260`, `c: 5` the intended gate skips `b`
   * and pipes to `c` and then `a`; the gate as written pipes to nobody.
   */
  lemma DeployedFirstRequest()
    ensures Candidates(0, 3, 3) == [1, 2, 0]
    ensures Piped(AllNetworkedMachines, 0, map["a" := Some(10), "b" := Some(260), "c" := Some(5)], PerMachine, 3) == ["c", "a"]
    ensures Piped(AllNetworkedMachines, 0, map["a" := Some(10), "b" := Some(260), "c" := Some(5)], WholeObject, 3) == []
  {
  }

  /** The per-request state of the balancer: the round-robin cursor over a fixed registry. */
  class Dispatcher {
    const machines: seq<MachineId>
    var lastIdx: nat

    constructor (machines: seq<MachineId>)
      requires |machines| > 0
      ensures this.machines == machines && lastIdx == 0
    {
      this.machines := machines;
      lastIdx := 0;
    }

    /**
     * The `/` handler as written: `sent` is never set to `true`, so the loop
     * always makes one try per machine and pipes to every candidate the gate
     * accepts. `tried` records the candidate index of each try.
     */
    method Dispatch(snapshot: Snapshot, gate: Gate) returns (piped: seq<MachineId>, ghost tried: seq<nat>)
      requires |machines| > 0
      modifies this
      ensures lastIdx == old(lastIdx) + |machines|
      ensures lastIdx % |machines| == old(lastIdx) % |machines|
      ensures tried == Candidates(old(lastIdx), |machines|, |machines|)
      ensures piped == Piped(machines, old(lastIdx), snapshot, gate, |machines|)
    {
      var n := |machines|;
      var sent := false;
      var totalTries := 0;
      piped, tried := [], [];
      while !sent && totalTries != n
        invariant 0 <= totalTries <= n
        invariant !sent
        invariant lastIdx == old(lastIdx) + totalTries
        invariant tried == Candidates(old(lastIdx), n, totalTries)
        invariant piped == Piped(machines, old(lastIdx), snapshot, gate, totalTries)
        decreases n - totalTries
      {
        totalTries := totalTries + 1;
        var curIdx := (lastIdx + 1) % n;
        var curMachine := machines[curIdx];
        var currentQueue := QueueDepth(gate, snapshot, curMachine);
        if currentQueue < MAX {
          piped := piped + [curMachine];
        }
        tried := tried + [curIdx];
        lastIdx := lastIdx + 1;
      }
      ModSplit(old(lastIdx), n);
      assert lastIdx == n * (old(lastIdx) / n + 1) + old(lastIdx) % n;
      ModMultiplePlus(n, old(lastIdx) / n + 1, old(lastIdx) % n);
    }

    /**
     * The handler with `sent = true` after the pipe: it stops at the first
     * eligible candidate, so the request goes to at most one machine and the
     * cursor stops on the machine that took it.
     */
    method DispatchOnce(snapshot: Snapshot, gate: Gate) returns (target: Option<MachineId>)
      requires |machines| > 0
      modifies this
      ensures old(lastIdx) < lastIdx <= old(lastIdx) + |machines|
      ensures target.None? <==> Piped(machines, old(lastIdx), snapshot, gate, |machines|) == []
      ensures target.None? ==> lastIdx == old(lastIdx) + |machines|
      ensures target.Some? ==>
        target.value == machines[lastIdx % |machines|] &&
        target.value == Piped(machines, old(lastIdx), snapshot, gate, |machines|)[0] &&
        Piped(machines, old(lastIdx), snapshot, gate, lastIdx - old(lastIdx)) == [target.value]
    {
      var n := |machines|;
      var sent := false;
      var totalTries := 0;
      target := None;
      while !sent && totalTries != n
        invariant 0 <= totalTries <= n
        invariant lastIdx == old(lastIdx) + totalTries
        invariant !sent ==> target == None && Piped(machines, old(lastIdx), snapshot, gate, totalTries) == []
        invariant sent ==> (totalTries > 0 && target.Some? && target.value == machines[lastIdx % n] &&
          Piped(machines, old(lastIdx), snapshot, gate, totalTries) == [target.value])
        decreases n - totalTries, if sent then 0 else 1
      {
        totalTries := totalTries + 1;
        var curIdx := (lastIdx + 1) % n;
        var curMachine := machines[curIdx];
        var currentQueue := QueueDepth(gate, snapshot, curMachine);
        if currentQueue < MAX {
          target := Some(curMachine);
          sent := true;
        }
        lastIdx := lastIdx + 1;
      }
      PipedPrefix(machines, old(lastIdx), snapshot, gate, totalTries, n);
    }
  }
}
