/**
 When `walkCircuit` ends. A wiring cycle that an input gate reaches keeps the
 worklist from ever emptying (`Propagation.ReachedLoopNeverCompletes`). This
 module proves the converse: when no such cycle exists, the walk completes,
 or fails on a throwing gate, within a bound computed from the wiring.

 The bound counts wired paths. A gate is queued only when a gate wired into
 it is dequeued, so each dequeue trades the paths starting at the dequeued
 gate for the paths starting at its targets, of which there is one fewer.
 */
module Termination {
  import opened Gates
  import opened Worklist
  import opened Propagation

  /** The wires out of each gate, by position: all the walk's shape depends on. */
  function Wiring(gates: seq<Gate>): (w: seq<seq<Connection>>)
    ensures |w| == |gates| && forall i :: 0 <= i < |gates| ==> w[i] == gates[i].connections
  {
    seq(|gates|, i requires 0 <= i < |gates| => gates[i].connections)
  }

  lemma SameShapeSameWiring(a: seq<Gate>, b: seq<Gate>)
    requires SameShape(a, b)
    ensures Wiring(a) == Wiring(b)
  {
  }

  /* ----- Long wired paths ----- */

  /** A wired path of `k` wires starts at gate `i`. */
  predicate Deep(w: seq<seq<Connection>>, i: nat, k: nat)
    decreases k
  {
    i < |w| && (k == 0 || exists c :: c in w[i] && Deep(w, c.target, k - 1))
  }

  /** A path of `k + 1` wires has a path of `k` wires as its prefix. */
  lemma {:induction false} DeepShorter(w: seq<seq<Connection>>, i: nat, k: nat)
    requires Deep(w, i, k + 1)
    ensures Deep(w, i, k)
    decreases k
  {
    if k > 0 {
      var c: Connection :| c in w[i] && Deep(w, c.target, k);
      DeepShorter(w, c.target, k - 1);
    }
  }

  lemma {:induction false} DeepDown(w: seq<seq<Connection>>, i: nat, k: nat, j: nat)
    requires j <= k && Deep(w, i, k)
    ensures Deep(w, i, j)
    decreases k - j
  {
    if j < k {
      DeepShorter(w, i, k - 1);
      DeepDown(w, i, k - 1, j);
    }
  }

  /** The gates from which a path of `k` wires starts. */
  function DeepSet(w: seq<seq<Connection>>, k: nat): set<nat> {
    set i: nat | i < |w| && Deep(w, i, k)
  }

  /** The positions below `n`. */
  function Below(n: nat): (b: set<nat>)
    ensures forall i: nat :: i in b <==> i < n
    ensures |b| == n
  {
    if n == 0 then {} else Below(n - 1) + {n - 1}
  }

  lemma SubsetSize(a: set<nat>, b: set<nat>)
    requires a <= b
    ensures |a| <= |b|
    ensures a != b ==> |a| < |b|
  {
    assert b == a + (b - a);
    if a != b {
      var x :| x in b - a;
    }
  }

  /**
   Climbing from `k`, the sets of deep gates shrink until two in a row agree;
   they cannot shrink past empty, so that happens by `|w|`.
   */
  lemma {:induction false} StableFrom(w: seq<seq<Connection>>, k: nat) returns (s: nat)
    requires |DeepSet(w, k)| + k <= |w|
    ensures k <= s <= |w| && DeepSet(w, s + 1) == DeepSet(w, s)
    decreases |w| - k
  {
    forall i | i in DeepSet(w, k + 1) ensures i in DeepSet(w, k) {
      DeepShorter(w, i, k);
    }
    SubsetSize(DeepSet(w, k + 1), DeepSet(w, k));
    if DeepSet(w, k + 1) == DeepSet(w, k) {
      s := k;
    } else {
      s := StableFrom(w, k + 1);
    }
  }

  /** Once the deep gates stop shrinking, every one of them has a wire to another. */
  lemma StableSetNoWayOut(gates: seq<Gate>, s: nat)
    requires DeepSet(Wiring(gates), s + 1) == DeepSet(Wiring(gates), s)
    ensures NoWayOut(gates, DeepSet(Wiring(gates), s))
  {
    var w := Wiring(gates);
    var deep := DeepSet(w, s);
    forall i | i in deep ensures WiredInto(gates, i, deep) {
      assert i in DeepSet(w, s + 1);
      var c: Connection :| c in w[i] && Deep(w, c.target, s);
      assert c.target in deep;
    }
  }

  /**
   With no set that holds an input gate and has no way out, no input gate
   starts a path of as many wires as there are gates: the deep gates at the
   depth where they stop shrinking form such a set.
   */
  lemma NoLoopNoDeepInput(gates: seq<Gate>)
    requires forall loop: set<nat>, i: nat :: NoWayOut(gates, loop) && i in loop && i < |gates| ==> !gates[i].kind.Input?
    ensures forall i :: 0 <= i < |gates| && gates[i].kind.Input? ==> !Deep(Wiring(gates), i, |gates|)
  {
    var w := Wiring(gates);
    SubsetSize(DeepSet(w, 0), Below(|w|));
    var s := StableFrom(w, 0);
    var deep := DeepSet(w, s);
    StableSetNoWayOut(gates, s);
    forall i | 0 <= i < |gates| && gates[i].kind.Input?
      ensures !Deep(w, i, |gates|)
    {
      assert i !in deep;
      if Deep(w, i, |gates|) {
        DeepDown(w, i, |gates|, s);
      }
    }
  }

  /* ----- Counting paths ----- */

  /** The number of wired paths of at most `d` wires starting at gate `i`. */
  function Paths(w: seq<seq<Connection>>, i: nat, d: nat): nat
    decreases d, 0
  {
    if i >= |w| || d == 0 then 1 else 1 + SumPaths(w, w[i], d - 1)
  }

  function SumPaths(w: seq<seq<Connection>>, conns: seq<Connection>, d: nat): nat
    decreases d, |conns|
  {
    if |conns| == 0 then 0 else Paths(w, conns[0].target, d) + SumPaths(w, conns[1..], d)
  }

  /** Without a path of `d` wires, allowing longer paths adds none. */
  lemma {:induction false} PathsSettle(w: seq<seq<Connection>>, i: nat, d: nat)
    requires !Deep(w, i, d)
    ensures Paths(w, i, d + 1) == Paths(w, i, d)
    decreases d, 0
  {
    if i < |w| && d > 0 {
      SumPathsSettle(w, w[i], d - 1);
    }
  }

  lemma {:induction false} SumPathsSettle(w: seq<seq<Connection>>, conns: seq<Connection>, d: nat)
    requires forall c :: c in conns ==> !Deep(w, c.target, d)
    ensures SumPaths(w, conns, d + 1) == SumPaths(w, conns, d)
    decreases d, |conns|
  {
    if |conns| > 0 {
      assert conns[0] in conns;
      PathsSettle(w, conns[0].target, d);
      assert forall c :: c in conns[1..] ==> c in conns;
      SumPathsSettle(w, conns[1..], d);
    }
  }

  /** The paths from every pending gate, counted with repeats. */
  function QueueWeight(w: seq<seq<Connection>>, queue: seq<nat>, d: nat): nat {
    if |queue| == 0 then 0 else Paths(w, queue[0], d) + QueueWeight(w, queue[1..], d)
  }

  lemma {:induction false} WeightAppend(w: seq<seq<Connection>>, queue: seq<nat>, t: nat, d: nat)
    ensures QueueWeight(w, queue + [t], d) == QueueWeight(w, queue, d) + Paths(w, t, d)
  {
    if |queue| > 0 {
      assert (queue + [t])[1..] == queue[1..] + [t];
      WeightAppend(w, queue[1..], t, d);
    }
  }

  /** The wires of one gate add at most the paths from their targets. */
  lemma {:induction false} PendingWeight(
    w: seq<seq<Connection>>, out: map<string, bool>, conns: seq<Connection>, queue: seq<nat>, d: nat)
    ensures QueueWeight(w, PendingAfter(out, conns, queue), d) <= QueueWeight(w, queue, d) + SumPaths(w, conns, d)
    decreases |conns|
  {
    if |conns| > 0 && conns[0].output in out {
      var t := conns[0].target;
      if t !in queue {
        WeightAppend(w, queue, t, d);
      }
      PendingWeight(w, out, conns[1..], Enqueue(queue, t), d);
    }
  }

  /* ----- The walk ----- */

  /** A dequeue that does not fail leaves the queue the wires compute. */
  lemma StepPending(gates: seq<Gate>, queue: seq<nat>)
    requires WellFormed(gates) && InRange(queue, |gates|) && |queue| > 0
    requires Step(gates, queue).Running?
    ensures CalculateOutput(gates[queue[0]]).Ok?
    ensures Step(gates, queue).queue ==
              PendingAfter(CalculateOutput(gates[queue[0]]).value.outputs, gates[queue[0]].connections, queue[1..])
  {
    var i := queue[0];
    var g := CalculateOutput(gates[i]).value;
    assert forall c :: c in g.connections ==> c.target < |gates| by {
      forall c | c in g.connections ensures c.target < |gates| {
        assert c in gates[i].connections;
      }
    }
    FanoutPending(gates[i := g], g.outputs, g.connections, queue[1..]);
  }

  lemma WalkEmpty(gates: seq<Gate>, fuel: nat)
    requires WellFormed(gates)
    ensures Walk(gates, [], fuel).status == Done
  {
  }

  /** No gate still to be dequeued starts a path of `d` wires. */
  predicate Shallow(w: seq<seq<Connection>>, queue: seq<nat>, d: nat) {
    forall k :: 0 <= k < |queue| ==> !Deep(w, queue[k], d)
  }

  /** A path of `d` wires from a target extends to one from the gate wired into it. */
  lemma DeepSource(w: seq<seq<Connection>>, i: nat, d: nat, c: Connection)
    requires i < |w| && c in w[i]
    ensures Deep(w, c.target, d) ==> Deep(w, i, d)
  {
    if d > 0 && Deep(w, c.target, d) {
      DeepShorter(w, c.target, d - 1);
    }
  }

  /** The queue a dequeue of a shallow gate leaves behind is shallow again. */
  lemma PendingShallow(
    w: seq<seq<Connection>>, d: nat, queue: seq<nat>, out: map<string, bool>, pending: seq<nat>)
    requires |queue| > 0 && queue[0] < |w| && Shallow(w, queue, d)
    requires pending == PendingAfter(out, w[queue[0]], queue[1..])
    ensures Shallow(w, pending, d)
  {
    var i := queue[0];
    assert !Deep(w, i, d);
    forall k | 0 <= k < |pending| ensures !Deep(w, pending[k], d) {
      var t := pending[k];
      if t in queue[1..] {
        var m :| 0 <= m < |queue[1..]| && queue[1..][m] == t;
        assert queue[m + 1] == t;
      } else {
        var c: Connection :| c in w[i] && c.target == t;
        DeepSource(w, i, d, c);
      }
    }
  }

  /**
   That queue is lighter by at least one: the dequeued gate's paths are its
   own plus those of its targets, and each target is added at most once per
   wire.
   */
  lemma PendingLighter(
    w: seq<seq<Connection>>, d: nat, queue: seq<nat>, out: map<string, bool>, pending: seq<nat>)
    requires |queue| > 0 && queue[0] < |w| && !Deep(w, queue[0], d)
    requires pending == PendingAfter(out, w[queue[0]], queue[1..])
    ensures QueueWeight(w, pending, d) < QueueWeight(w, queue, d)
  {
    var i := queue[0];
    PathsSettle(w, i, d);
    PendingWeight(w, out, w[i], queue[1..], d);
  }

  /** Without that condition the weight need not drop: a gate wired to itself is queued again. */
  lemma SelfWiredKeepsWeight()
    ensures var w := [[Connection("Z", 0, "A")]];
      && Deep(w, 0, 1)
      && PendingAfter(map["Z" := true], w[0], []) == [0]
      && QueueWeight(w, [0], 1) == QueueWeight(w, PendingAfter(map["Z" := true], w[0], []), 1)
  {
    var w := [[Connection("Z", 0, "A")]];
    assert w[0][0] in w[0];
  }

  /** One dequeue that does not fail keeps every pending gate shallow and lowers the weight of the queue. */
  lemma StepLowersWeight(gates: seq<Gate>, queue: seq<nat>)
    requires WellFormed(gates) && InRange(queue, |gates|) && |queue| > 0
    requires Shallow(Wiring(gates), queue, |gates|)
    requires Step(gates, queue).Running?
    ensures Wiring(Step(gates, queue).gates) == Wiring(gates)
    ensures Shallow(Wiring(gates), Step(gates, queue).queue, |gates|)
    ensures QueueWeight(Wiring(gates), Step(gates, queue).queue, |gates|) < QueueWeight(Wiring(gates), queue, |gates|)
  {
    var w := Wiring(gates);
    var r := Step(gates, queue);
    SameShapeSameWiring(gates, r.gates);
    StepPending(gates, queue);
    var out := CalculateOutput(gates[queue[0]]).value.outputs;
    PendingShallow(w, |gates|, queue, out, r.queue);
    PendingLighter(w, |gates|, queue, out, r.queue);
  }

  /** A walk from shallow gates with as much fuel as their weight does not run out of fuel. */
  lemma {:induction false} ShallowWalkEnds(gates: seq<Gate>, queue: seq<nat>, fuel: nat)
    requires WellFormed(gates) && InRange(queue, |gates|)
    requires Shallow(Wiring(gates), queue, |gates|)
    requires QueueWeight(Wiring(gates), queue, |gates|) <= fuel
    ensures !Walk(gates, queue, fuel).status.OutOfFuel?
    decreases fuel
  {
    if |queue| == 0 {
      WalkEmpty(gates, fuel);
    } else {
      match Step(gates, queue)
      case Halted(_, _) =>
        WalkHalts(gates, queue, fuel);
      case Running(after, pending) =>
        StepLowersWeight(gates, queue);
        SameShapeKeepsWellFormed(gates, after);
        var less := fuel - 1;
        ShallowWalkEnds(after, pending, less);
        WalkThen(gates, queue, fuel, less, after, pending, Walk(after, pending, less));
    }
  }

  /** Enough fuel for every wired path out of the input gates. */
  function WalkBound(gates: seq<Gate>): nat {
    QueueWeight(Wiring(gates), Seed(gates), |gates|)
  }

  /**
   `walkCircuit` on a circuit where no input gate belongs to a set whose every
   gate has a wire back into the set, that is, where no wiring cycle is
   reached from an input gate, completes or fails on a throwing gate once it
   has `WalkBound` dequeues to spend.
   */
  lemma LoopFreeWalkEnds(gates: seq<Gate>, fuel: nat)
    requires WellFormed(gates)
    requires forall loop: set<nat>, i: nat :: NoWayOut(gates, loop) && i in loop && i < |gates| ==> !gates[i].kind.Input?
    requires WalkBound(gates) <= fuel
    ensures WalkCircuit(gates, fuel).status.Done? || WalkCircuit(gates, fuel).status.Failed?
  {
    NoLoopNoDeepInput(gates);
    ShallowWalkEnds(gates, Seed(gates), fuel);
  }
}
