/**
 `walkCircuit`, the worklist that runs once per animation frame. A FIFO queue
 is seeded with the input gates in list order and each dequeued gate takes
 one `Step`. On a wiring cycle that an input gate reaches, `walkCircuit`
 loops for ever unless some gate throws; here every dequeue costs one unit
 of `fuel`.
 */
module Propagation {
  import opened Gates
  import opened Worklist

  /* ----- Seeding ----- */

  function SeedFrom(gates: seq<Gate>, from: nat): (q: seq<nat>)
    requires from <= |gates|
    ensures forall k :: 0 <= k < |q| ==> from <= q[k] < |gates| && gates[q[k]].kind.Input?
    ensures forall i :: from <= i < |gates| && gates[i].kind.Input? ==> i in q
    ensures forall j, k :: 0 <= j < k < |q| ==> q[j] < q[k]
    decreases |gates| - from
  {
    if from == |gates| then []
    else if gates[from].kind.Input? then [from] + SeedFrom(gates, from + 1)
    else SeedFrom(gates, from + 1)
  }

  /** The initial worklist: the positions of the input gates, in list order. */
  function Seed(gates: seq<Gate>): (q: seq<nat>)
    ensures forall k :: 0 <= k < |q| ==> q[k] < |gates| && gates[q[k]].kind.Input?
    ensures forall i :: 0 <= i < |gates| && gates[i].kind.Input? ==> i in q
    ensures forall j, k :: 0 <= j < k < |q| ==> q[j] < q[k]
    ensures NoDup(q) && InRange(q, |gates|)
  {
    SeedFrom(gates, 0)
  }

  /** Gates with the same kinds seed the same worklist. */
  lemma SeedDependsOnKindsOnly(a: seq<Gate>, b: seq<Gate>)
    requires SameShape(a, b)
    ensures Seed(a) == Seed(b)
  {
    SeedFromDependsOnKindsOnly(a, b, 0);
  }

  lemma {:induction false} SeedFromDependsOnKindsOnly(a: seq<Gate>, b: seq<Gate>, from: nat)
    requires SameShape(a, b) && from <= |a|
    ensures SeedFrom(a, from) == SeedFrom(b, from)
    decreases |a| - from
  {
    if from < |a| {
      SeedFromDependsOnKindsOnly(a, b, from + 1);
    }
  }

  /* ----- Wiring seen from a list of gates ----- */

  function Elems(s: seq<nat>): set<nat> {
    set x | x in s
  }

  /** The targets of the wires out of the gates listed in `from`. */
  function WiredFrom(gates: seq<Gate>, from: seq<nat>): set<nat> {
    set j, c | j in from && 0 <= j < |gates| && c in gates[j].connections :: c.target
  }

  lemma WiredFromCons(gates: seq<Gate>, j: nat, from: seq<nat>)
    requires j < |gates|
    ensures WiredFrom(gates, [j] + from) == Targets(gates[j].connections) + WiredFrom(gates, from)
  {
    var l, r := WiredFrom(gates, [j] + from), Targets(gates[j].connections) + WiredFrom(gates, from);
    forall t | t in l ensures t in r {
      var i, c :| i in [j] + from && 0 <= i < |gates| && c in gates[i].connections && c.target == t;
      if i != j {
        assert i in from;
      }
    }
    forall t | t in r ensures t in l {
      if t in Targets(gates[j].connections) {
        var c :| c in gates[j].connections && c.target == t;
        assert j in [j] + from;
      } else {
        var i, c :| i in from && 0 <= i < |gates| && c in gates[i].connections && c.target == t;
        assert i in [j] + from;
      }
    }
  }

  lemma WiredFromSameShape(a: seq<Gate>, b: seq<Gate>, from: seq<nat>)
    requires SameShape(a, b)
    ensures WiredFrom(a, from) == WiredFrom(b, from)
  {
    forall t | t in WiredFrom(a, from) ensures t in WiredFrom(b, from) {
      var i, c :| i in from && 0 <= i < |a| && c in a[i].connections && c.target == t;
      assert c in b[i].connections;
    }
    forall t | t in WiredFrom(b, from) ensures t in WiredFrom(a, from) {
      var i, c :| i in from && 0 <= i < |b| && c in b[i].connections && c.target == t;
      assert c in a[i].connections;
    }
  }

  /* ----- The whole walk ----- */

  datatype Status = Done | Failed(error: GateError) | OutOfFuel

  /** The gates after the walk, the positions dequeued in order, and how the walk ended. */
  datatype WalkResult = WalkResult(gates: seq<Gate>, trace: seq<nat>, status: Status)

  /**
   Run the worklist from `queue`, allowing at most `fuel` dequeues. A gate
   that throws ends the walk with the writes made so far kept.
   */
  function Walk(gates: seq<Gate>, queue: seq<nat>, fuel: nat): (r: WalkResult)
    requires WellFormed(gates) && InRange(queue, |gates|)
    ensures SameShape(gates, r.gates)
    ensures |r.trace| <= fuel
    ensures r.status.OutOfFuel? ==> |r.trace| == fuel
    // The pending gates are served first and in order; a walk that completes serves them all.
    ensures forall k :: 0 <= k < |r.trace| && k < |queue| ==> r.trace[k] == queue[k]
    ensures r.status.Done? ==> |queue| <= |r.trace|
    // Every dequeued gate was pending at the start or is wired from a gate dequeued before it.
    ensures forall k :: 0 <= k < |r.trace| ==>
              r.trace[k] in queue || r.trace[k] in WiredFrom(gates, r.trace[..k])
    // A gate neither dequeued nor wired from a dequeued gate keeps all its ports.
    ensures forall i :: 0 <= i < |gates| && i !in r.trace && i !in WiredFrom(gates, r.trace) ==>
              r.gates[i] == gates[i]
    // Dequeuing only settled gates changes nothing and cannot fail.
    ensures (forall k :: 0 <= k < |r.trace| ==> Settled(gates, r.trace[k])) ==>
              r.gates == gates && !r.status.Failed?
    // A walk that completes leaves every gate it met settled.
    ensures forall seen :: WalkInvariant(gates, queue, seen) && r.status.Done? ==>
              Stable(r.gates, seen + Elems(r.trace))
    decreases fuel
  {
    if |queue| == 0 then
      EmptyWalkIsStable(gates);
      WalkResult(gates, [], Done)
    else if fuel == 0 then WalkResult(gates, [], OutOfFuel)
    else
      StepQueue(gates, queue);
      StepTouches(gates, queue);
      StepOnSettled(gates, queue);
      WiredFromCons(gates, queue[0], []);
      match Step(gates, queue)
      case Halted(after, e) => WalkResult(after, [queue[0]], Failed(e))
      case Running(after, pending) =>
        SameShapeKeepsWellFormed(gates, after);
        var r := Walk(after, pending, fuel - 1);
        PrefixShift(queue, pending, r.trace);
        CausalityShift(gates, after, queue, pending, r.trace);
        UntouchedShift(gates, after, r.gates, queue[0], r.trace);
        SettledShift(gates, queue[0], r.trace);
        InvariantShift(gates, queue, after, pending, r);
        WalkResult(r.gates, [queue[0]] + r.trace, r.status)
  }

  /** A dequeue that does not fail hands the rest of the walk to the new state. */
  lemma WalkRunning(gates: seq<Gate>, queue: seq<nat>, fuel: nat)
    requires WellFormed(gates) && InRange(queue, |gates|) && |queue| > 0 && fuel > 0
    requires Step(gates, queue).Running?
    ensures WellFormed(Step(gates, queue).gates)
    ensures var r := Walk(Step(gates, queue).gates, Step(gates, queue).queue, fuel - 1);
      Walk(gates, queue, fuel) == WalkResult(r.gates, [queue[0]] + r.trace, r.status)
  {
    SameShapeKeepsWellFormed(gates, Step(gates, queue).gates);
  }

  /** A walk whose first step throws fails at once. */
  lemma WalkHalts(gates: seq<Gate>, queue: seq<nat>, fuel: nat)
    requires WellFormed(gates) && InRange(queue, |gates|) && |queue| > 0 && fuel > 0
    requires Step(gates, queue).Halted?
    ensures Walk(gates, queue, fuel).status == Failed(Step(gates, queue).error)
  {
  }

  /** A walk whose first step runs is that step's dequeue followed by the walk,
      one unit of fuel shorter, from the step's result. */
  lemma WalkThen(gates: seq<Gate>, queue: seq<nat>, fuel: nat, less: nat,
                 after: seq<Gate>, pending: seq<nat>, rest: WalkResult)
    requires WellFormed(gates) && InRange(queue, |gates|) && |queue| > 0 && fuel == less + 1
    requires Step(gates, queue) == Running(after, pending)
    requires WellFormed(after) && InRange(pending, |after|)
    requires Walk(after, pending, less) == rest
    ensures Walk(gates, queue, fuel) == WalkResult(rest.gates, [queue[0]] + rest.trace, rest.status)
  {
    WalkRunning(gates, queue, fuel);
  }

  lemma EmptyWalkIsStable(gates: seq<Gate>)
    ensures forall seen :: WalkInvariant(gates, [], seen) ==> Stable(gates, seen + Elems([]))
  {
    assert Elems([]) == {};
    forall seen | WalkInvariant(gates, [], seen) ensures Stable(gates, seen + Elems([])) {
      assert seen + Elems([]) == seen;
    }
  }

  lemma PrefixShift(queue: seq<nat>, pending: seq<nat>, trace: seq<nat>)
    requires |queue| > 0 && |queue| - 1 <= |pending| && pending[..|queue| - 1] == queue[1..]
    requires forall k :: 0 <= k < |trace| && k < |pending| ==> trace[k] == pending[k]
    ensures forall k :: 0 <= k < |trace| + 1 && k < |queue| ==> ([queue[0]] + trace)[k] == queue[k]
  {
    forall k | 1 <= k < |trace| + 1 && k < |queue|
      ensures ([queue[0]] + trace)[k] == queue[k]
    {
      assert pending[..|queue| - 1][k - 1] == queue[1..][k - 1];
    }
  }

  lemma CausalityShift(gates: seq<Gate>, after: seq<Gate>, queue: seq<nat>, pending: seq<nat>, trace: seq<nat>)
    requires SameShape(gates, after) && InRange(queue, |gates|) && |queue| > 0
    requires forall t :: t in pending ==> t in queue[1..] || t in Targets(gates[queue[0]].connections)
    requires forall k :: 0 <= k < |trace| ==> trace[k] in pending || trace[k] in WiredFrom(after, trace[..k])
    ensures var t := [queue[0]] + trace;
      forall k :: 0 <= k < |t| ==> t[k] in queue || t[k] in WiredFrom(gates, t[..k])
  {
    var t := [queue[0]] + trace;
    forall k | 1 <= k < |t|
      ensures t[k] in queue || t[k] in WiredFrom(gates, t[..k])
    {
      var u := trace[k - 1];
      assert t[k] == u;
      assert t[..k] == [queue[0]] + trace[..k - 1];
      WiredFromCons(gates, queue[0], trace[..k - 1]);
      WiredFromSameShape(gates, after, trace[..k - 1]);
      if u in pending && u in queue[1..] {
        assert u in queue;
      }
    }
  }

  lemma UntouchedShift(gates: seq<Gate>, after: seq<Gate>, final: seq<Gate>, j: nat, trace: seq<nat>)
    requires SameShape(gates, after) && j < |gates| && |final| == |gates|
    requires forall i :: 0 <= i < |gates| && i != j && i !in Targets(gates[j].connections) ==> after[i] == gates[i]
    requires forall i :: 0 <= i < |after| && i !in trace && i !in WiredFrom(after, trace) ==> final[i] == after[i]
    ensures forall i :: 0 <= i < |gates| && i !in [j] + trace && i !in WiredFrom(gates, [j] + trace) ==>
              final[i] == gates[i]
  {
    WiredFromCons(gates, j, trace);
    WiredFromSameShape(gates, after, trace);
  }

  lemma SettledShift(gates: seq<Gate>, j: nat, trace: seq<nat>)
    ensures (forall k :: 0 <= k < |[j] + trace| ==> Settled(gates, ([j] + trace)[k])) ==>
              Settled(gates, j) && forall k :: 0 <= k < |trace| ==> Settled(gates, trace[k])
  {
    if forall k :: 0 <= k < |[j] + trace| ==> Settled(gates, ([j] + trace)[k]) {
      assert ([j] + trace)[0] == j;
      forall k | 0 <= k < |trace| ensures Settled(gates, trace[k]) {
        assert ([j] + trace)[k + 1] == trace[k];
      }
    }
  }

  lemma InvariantShift(gates: seq<Gate>, queue: seq<nat>, after: seq<Gate>, pending: seq<nat>, r: WalkResult)
    requires WellFormed(gates) && InRange(queue, |gates|) && |queue| > 0
    requires Step(gates, queue) == Running(after, pending)
    requires forall seen :: WalkInvariant(after, pending, seen) && r.status.Done? ==>
               Stable(r.gates, seen + Elems(r.trace))
    ensures forall seen :: WalkInvariant(gates, queue, seen) && r.status.Done? ==>
              Stable(r.gates, seen + Elems([queue[0]] + r.trace))
  {
    forall seen | WalkInvariant(gates, queue, seen) && r.status.Done?
      ensures Stable(r.gates, seen + Elems([queue[0]] + r.trace))
    {
      StepKeepsInvariant(gates, queue, seen);
      assert seen + {queue[0]} + Elems(r.trace) == seen + Elems([queue[0]] + r.trace);
    }
  }

  /* ----- walkCircuit ----- */

  /**
   `walkCircuit`: one walk seeded with the input gates. The input gates are
   dequeued first, in list order, and a walk that completes dequeues them all.
   */
  function WalkCircuit(gates: seq<Gate>, fuel: nat): (r: WalkResult)
    requires WellFormed(gates)
    ensures SameShape(gates, r.gates) && WellFormed(r.gates)
    ensures forall k :: 0 <= k < |r.trace| && k < |Seed(gates)| ==> r.trace[k] == Seed(gates)[k]
    ensures r.status.Done? ==> |Seed(gates)| <= |r.trace| && r.trace[..|Seed(gates)|] == Seed(gates)
  {
    var r := Walk(gates, Seed(gates), fuel);
    SameShapeKeepsWellFormed(gates, r.gates);
    r
  }

  /** Gates dequeued by a walk starting inside a set that wiring cannot
      leave all lie in that set. */
  lemma {:induction false} TraceStaysInside(gates: seq<Gate>, queue: seq<nat>, trace: seq<nat>, reach: set<nat>, n: nat)
    requires forall q :: q in queue ==> q in reach
    requires ClosedUnderWiring(gates, reach)
    requires forall k :: 0 <= k < |trace| ==> trace[k] in queue || trace[k] in WiredFrom(gates, trace[..k])
    requires n <= |trace|
    ensures forall k :: 0 <= k < n ==> trace[k] in reach
  {
    if n > 0 {
      TraceStaysInside(gates, queue, trace, reach, n - 1);
      var u := trace[n - 1];
      if u !in queue {
        var i, c :| i in trace[..n - 1] && 0 <= i < |gates| && c in gates[i].connections && c.target == u;
        var m :| 0 <= m < n - 1 && trace[m] == i;
      }
    }
  }

  /**
   Starting from pending gates inside a set that wiring cannot leave, the walk
   dequeues only gates of that set and leaves every gate outside it, ports and
   all, exactly as it was.
   */
  lemma WalkStaysInside(gates: seq<Gate>, queue: seq<nat>, fuel: nat, reach: set<nat>)
    requires WellFormed(gates) && InRange(queue, |gates|)
    requires forall q :: q in queue ==> q in reach
    requires ClosedUnderWiring(gates, reach)
    ensures forall t :: t in Walk(gates, queue, fuel).trace ==> t in reach
    ensures forall i :: 0 <= i < |gates| && i !in reach ==> Walk(gates, queue, fuel).gates[i] == gates[i]
  {
    var r := Walk(gates, queue, fuel);
    TraceStaysInside(gates, queue, r.trace, reach, |r.trace|);
    forall t | t in WiredFrom(gates, r.trace) ensures t in reach {
      var i, c :| i in r.trace && 0 <= i < |gates| && c in gates[i].connections && c.target == t;
    }
  }

  /** A gate outside every set that holds the input gates and that wiring
      cannot leave is never evaluated by `walkCircuit` and keeps its ports. */
  lemma UnreachedGatesUntouched(gates: seq<Gate>, fuel: nat, reach: set<nat>)
    requires WellFormed(gates)
    requires forall i :: 0 <= i < |gates| && gates[i].kind.Input? ==> i in reach
    requires ClosedUnderWiring(gates, reach)
    ensures forall t :: t in WalkCircuit(gates, fuel).trace ==> t in reach
    ensures forall i :: 0 <= i < |gates| && i !in reach ==> WalkCircuit(gates, fuel).gates[i] == gates[i]
  {
    WalkStaysInside(gates, Seed(gates), fuel, reach);
  }

  /** A walk from pending gates of a stable set changes no gate and does not
      fail, however much fuel it has. */
  lemma StableWalkChangesNothing(gates: seq<Gate>, queue: seq<nat>, fuel: nat, reach: set<nat>)
    requires WellFormed(gates) && InRange(queue, |gates|)
    requires Stable(gates, reach)
    requires forall q :: q in queue ==> q in reach
    ensures Walk(gates, queue, fuel).gates == gates
    ensures !Walk(gates, queue, fuel).status.Failed?
  {
    var r := Walk(gates, queue, fuel);
    TraceStaysInside(gates, queue, r.trace, reach, |r.trace|);
  }

  /**
   With one driver per input port, a `walkCircuit` that completes leaves the
   gates it dequeued stable: they include every input gate, no wire leaves
   them, and each is settled.
   */
  lemma CompletedWalkIsStable(gates: seq<Gate>, fuel: nat)
    requires WellFormed(gates) && UniqueDrivers(gates)
    ensures var r := WalkCircuit(gates, fuel);
      r.status.Done? ==> Stable(r.gates, Elems(r.trace))
  {
    var r := WalkCircuit(gates, fuel);
    assert WalkInvariant(gates, Seed(gates), {});
    assert {} + Elems(r.trace) == Elems(r.trace);
  }

  /**
   With one driver per input port, running `walkCircuit` again after a walk
   that completed changes no gate and does not fail, whatever its fuel. It
   need not complete within that fuel.
   */
  lemma CompletedWalkIsIdempotent(gates: seq<Gate>, fuel: nat, fuel': nat)
    requires WellFormed(gates) && UniqueDrivers(gates)
    requires WalkCircuit(gates, fuel).status.Done?
    ensures var g := WalkCircuit(gates, fuel).gates;
      WalkCircuit(g, fuel').gates == g && !WalkCircuit(g, fuel').status.Failed?
  {
    var r := WalkCircuit(gates, fuel);
    CompletedWalkIsStable(gates, fuel);
    StableWalkChangesNothing(r.gates, Seed(r.gates), fuel', Elems(r.trace));
  }

  /* ----- Wiring cycles ----- */

  /** Every gate of `loop` has a wire into `loop`. A wiring cycle is one, and
      so is a cycle together with a wired path leading into it. */
  predicate NoWayOut(gates: seq<Gate>, loop: set<nat>) {
    forall i {:trigger WiredInto(gates, i, loop)} :: i in loop ==> WiredInto(gates, i, loop)
  }

  /** Gate `i` exists and has a wire into `loop`. */
  predicate WiredInto(gates: seq<Gate>, i: nat, loop: set<nat>) {
    i < |gates| && exists c :: c in gates[i].connections && c.target in loop
  }

  /** A step keeps some gate of the set pending: the dequeued gate hands on
      to its wire's target, and every other pending gate stays queued. */
  lemma LoopStaysPending(gates: seq<Gate>, queue: seq<nat>, loop: set<nat>)
    requires WellFormed(gates) && InRange(queue, |gates|) && |queue| > 0
    requires NoWayOut(gates, loop)
    requires exists q :: q in queue && q in loop
    requires Step(gates, queue).Running?
    ensures NoWayOut(Step(gates, queue).gates, loop)
    ensures exists q :: q in Step(gates, queue).queue && q in loop
  {
    var r := Step(gates, queue);
    StepQueue(gates, queue);
    var q :| q in queue && q in loop;
    if q in queue[1..] {
      assert q in r.queue;
    } else {
      assert q == queue[0] && WiredInto(gates, q, loop);
      var c :| c in gates[q].connections && c.target in loop;
      assert c.target in r.queue;
    }
    forall i | i in loop ensures WiredInto(r.gates, i, loop) {
      assert WiredInto(gates, i, loop);
      assert r.gates[i].connections == gates[i].connections;
    }
  }

  /**
   Once a gate of such a set is pending, some gate of it stays pending after
   every step, so the walk never completes: it stops only when a gate throws
   or the fuel runs out.
   */
  lemma {:induction false} PendingLoopNeverCompletes(gates: seq<Gate>, queue: seq<nat>, fuel: nat, loop: set<nat>)
    requires WellFormed(gates) && InRange(queue, |gates|)
    requires NoWayOut(gates, loop)
    requires exists q :: q in queue && q in loop
    ensures !Walk(gates, queue, fuel).status.Done?
    decreases fuel
  {
    var q :| q in queue && q in loop;
    if fuel > 0 {
      match Step(gates, queue)
      case Halted(_, _) =>
        WalkHalts(gates, queue, fuel);
      case Running(after, pending) =>
        LoopStaysPending(gates, queue, loop);
        SameShapeKeepsWellFormed(gates, after);
        var less := fuel - 1;
        PendingLoopNeverCompletes(after, pending, less, loop);
        WalkThen(gates, queue, fuel, less, after, pending, Walk(after, pending, less));
    }
  }

  /**
   `walkCircuit` never completes on a circuit in which some input gate belongs
   to a set whose every gate has a wire back into the set; that is, on any
   wiring cycle an input gate reaches.
   */
  lemma ReachedLoopNeverCompletes(gates: seq<Gate>, fuel: nat, loop: set<nat>, i: nat)
    requires WellFormed(gates) && NoWayOut(gates, loop)
    requires i < |gates| && i in loop && gates[i].kind.Input?
    ensures WalkCircuit(gates, fuel).status.Failed? || WalkCircuit(gates, fuel).status.OutOfFuel?
  {
    assert i in Seed(gates);
    PendingLoopNeverCompletes(gates, Seed(gates), fuel, loop);
  }
}
