/**
 One iteration of the loop in `walkCircuit`: dequeue the front gate, evaluate
 it, and push its output value down each of its wires in order. Gates live in
 one list and are named by their position in it; the queue holds positions.

 For each wire the target is appended to the queue unless it is already
 pending, and the value is written into the target's input port whether or
 not it was appended. A gate is compared only against the pending queue,
 never against the gates already evaluated, so a gate whose input is written
 after its evaluation is queued again.

 The second half of the module states when a gate is settled (evaluating it
 and pushing its value changes nothing) and the invariant one step keeps.
 */
module Worklist {
  import opened Gates

  /** Every wire points at a gate of the list. */
  predicate WellFormed(gates: seq<Gate>) {
    forall i, c :: 0 <= i < |gates| && c in gates[i].connections ==> c.target < |gates|
  }

  predicate InRange(queue: seq<nat>, n: nat) {
    forall k :: 0 <= k < |queue| ==> queue[k] < n
  }

  predicate NoDup(queue: seq<nat>) {
    forall j, k :: 0 <= j < k < |queue| ==> queue[j] != queue[k]
  }

  /** The same gates with the same kinds, positions and wiring: only port values may differ. */
  predicate SameShape(a: seq<Gate>, b: seq<Gate>) {
    && |a| == |b|
    && forall i :: 0 <= i < |a| ==>
         && a[i].kind == b[i].kind && a[i].x == b[i].x && a[i].y == b[i].y
         && a[i].connections == b[i].connections
  }

  lemma SameShapeKeepsWellFormed(a: seq<Gate>, b: seq<Gate>)
    requires SameShape(a, b) && WellFormed(a)
    ensures WellFormed(b)
  {
    forall i, c | 0 <= i < |b| && c in b[i].connections
      ensures c.target < |b|
    {
      assert c in a[i].connections;
    }
  }

  function Targets(conns: seq<Connection>): set<nat> {
    set c | c in conns :: c.target
  }

  /* ----- One wire at a time ----- */

  /** Append `t` unless it is already pending. */
  function Enqueue(queue: seq<nat>, t: nat): (r: seq<nat>)
    ensures forall u :: u in r <==> u in queue || u == t
  {
    if t in queue then queue else queue + [t]
  }

  /** Appending only when absent keeps the queue free of repeats and never
      reorders or drops what was already pending. */
  lemma EnqueueKeepsOrderAndNoDup(queue: seq<nat>, t: nat)
    ensures |queue| <= |Enqueue(queue, t)| && Enqueue(queue, t)[..|queue|] == queue
    ensures t in queue ==> Enqueue(queue, t) == queue
    ensures NoDup(queue) ==> NoDup(Enqueue(queue, t))
  {
  }

  /** Store `value` in input port `port` of gate `t`, adding the port if it is absent. */
  function WritePort(gates: seq<Gate>, t: nat, port: string, value: bool): (r: seq<Gate>)
    requires t < |gates|
  {
    gates[t := gates[t].(inputs := gates[t].inputs[port := value])]
  }

  /** A write adds or overwrites one port of one gate: the port holds the
      value, and every other port, every output, the wiring and every other
      gate stay as they were. */
  lemma WritePortWrites(gates: seq<Gate>, t: nat, port: string, value: bool)
    requires t < |gates|
    ensures var r := WritePort(gates, t, port, value);
      && SameShape(gates, r)
      && (forall i :: 0 <= i < |gates| && i != t ==> r[i] == gates[i])
      && r[t].outputs == gates[t].outputs
      && r[t].inputs.Keys == gates[t].inputs.Keys + {port}
      && r[t].inputs[port] == value
      && (forall p :: p in gates[t].inputs && p != port ==> r[t].inputs[p] == gates[t].inputs[p])
  {
  }

  /** Wire `k` is the first of `conns` whose output port is absent from `out`. */
  predicate FirstMissing(out: map<string, bool>, conns: seq<Connection>, k: int) {
    && 0 <= k < |conns|
    && conns[k].output !in out
    && forall j :: 0 <= j < k ==> conns[j].output in out
  }

  datatype Progress =
    | Running(gates: seq<Gate>, queue: seq<nat>)
    | Halted(gates: seq<Gate>, error: GateError)

  /**
   The inner loop over the wires `conns` of a gate whose output map is `out`.
   A wire naming an output port the source lacks throws; the writes made by
   the wires before it stay in place.
   */
  function Fanout(gates: seq<Gate>, out: map<string, bool>, conns: seq<Connection>, queue: seq<nat>)
    : (r: Progress)
    requires forall c :: c in conns ==> c.target < |gates|
    requires InRange(queue, |gates|)
    ensures SameShape(gates, r.gates)
    ensures r.Halted? <==> exists c :: c in conns && c.output !in out
    ensures r.Running? ==> InRange(r.queue, |gates|)
    decreases |conns|
  {
    if |conns| == 0 then Running(gates, queue)
    else
      var c := conns[0];
      assert c in conns;
      assert forall d :: d in conns[1..] ==> d in conns;
      assert forall d :: d in conns ==> d == c || d in conns[1..];
      if c.output !in out then Halted(gates, MissingPort(c.output))
      else
        Fanout(WritePort(gates, c.target, c.input, out[c.output]), out, conns[1..], Enqueue(queue, c.target))
  }

  /** A fan-out that halts does so at the first wire whose output port is
      absent, with that port's error. */
  lemma {:induction false} FanoutHaltsAtFirstMissing(
    gates: seq<Gate>, out: map<string, bool>, conns: seq<Connection>, queue: seq<nat>)
    requires forall c :: c in conns ==> c.target < |gates|
    requires InRange(queue, |gates|)
    requires Fanout(gates, out, conns, queue).Halted?
    ensures exists k :: FirstMissing(out, conns, k) &&
              Fanout(gates, out, conns, queue).error == MissingPort(conns[k].output)
    decreases |conns|
  {
    var c := conns[0];
    assert c in conns;
    if c.output in out {
      assert forall d :: d in conns[1..] ==> d in conns;
      var rest := Fanout(WritePort(gates, c.target, c.input, out[c.output]), out, conns[1..], Enqueue(queue, c.target));
      FanoutHaltsAtFirstMissing(WritePort(gates, c.target, c.input, out[c.output]), out, conns[1..], Enqueue(queue, c.target));
      var k :| FirstMissing(out, conns[1..], k) && rest.error == MissingPort(conns[1..][k].output);
      assert FirstMissing(out, conns, k + 1) by {
        forall j | 0 <= j < k + 1 ensures conns[j].output in out {
          if j > 0 {
            assert conns[j] == conns[1..][j - 1];
          }
        }
      }
    } else {
      assert FirstMissing(out, conns, 0);
    }
  }

  /**
   The queue after the wires, computed apart from the gates: each target is
   appended unless pending, up to the first wire whose output port is absent.
   It keeps the old queue in front, adds only targets, and never a repeat.
   */
  function PendingAfter(out: map<string, bool>, conns: seq<Connection>, queue: seq<nat>): (q: seq<nat>)
    ensures |queue| <= |q| && q[..|queue|] == queue
    ensures forall t :: t in q ==> t in queue || t in Targets(conns)
    ensures (forall c :: c in conns ==> c.output in out) ==> forall c :: c in conns ==> c.target in q
    ensures NoDup(queue) ==> NoDup(q)
    decreases |conns|
  {
    if |conns| == 0 || conns[0].output !in out then queue
    else
      var c := conns[0];
      var pending := Enqueue(queue, c.target);
      var q := PendingAfter(out, conns[1..], pending);
      assert c in conns;
      assert forall d :: d in conns[1..] ==> d in conns;
      assert Targets(conns) == {c.target} + Targets(conns[1..]);
      EnqueueKeepsOrderAndNoDup(queue, c.target);
      assert q[..|queue|] == q[..|pending|][..|queue|];
      InPrefix(q, pending, c.target);
      q
  }

  /** What a prefix holds, the whole sequence holds. */
  lemma InPrefix(q: seq<nat>, prefix: seq<nat>, x: nat)
    requires |prefix| <= |q| && q[..|prefix|] == prefix && x in prefix
    ensures x in q
  {
    var k :| 0 <= k < |prefix| && prefix[k] == x;
    assert q[k] == q[..|prefix|][k];
  }

  /** A fan-out that runs leaves exactly that queue. */
  lemma {:induction false} FanoutPending(gates: seq<Gate>, out: map<string, bool>, conns: seq<Connection>, queue: seq<nat>)
    requires forall c :: c in conns ==> c.target < |gates|
    requires InRange(queue, |gates|)
    requires Fanout(gates, out, conns, queue).Running?
    ensures Fanout(gates, out, conns, queue).queue == PendingAfter(out, conns, queue)
    decreases |conns|
  {
    if |conns| > 0 {
      var c := conns[0];
      assert c in conns;
      assert forall d :: d in conns[1..] ==> d in conns;
      FanoutPending(WritePort(gates, c.target, c.input, out[c.output]), out, conns[1..], Enqueue(queue, c.target));
    }
  }

  /** The queue after the wires: the old queue, followed by the targets that
      were not already pending, each once. */
  lemma FanoutQueue(gates: seq<Gate>, out: map<string, bool>, conns: seq<Connection>, queue: seq<nat>)
    requires forall c :: c in conns ==> c.target < |gates|
    requires InRange(queue, |gates|)
    requires Fanout(gates, out, conns, queue).Running?
    ensures var q := Fanout(gates, out, conns, queue).queue;
      && |queue| <= |q| && q[..|queue|] == queue
      && (forall c :: c in conns ==> c.target in q)
      && (forall t :: t in q ==> t in queue || t in Targets(conns))
      && (NoDup(queue) ==> NoDup(q))
  {
    FanoutPending(gates, out, conns, queue);
  }

  /** Only the targets' input maps change: every output map stays, every gate
      that is not a target stays whole, and no input port disappears. */
  lemma {:induction false} FanoutTouchesTargetsOnly(
    gates: seq<Gate>, out: map<string, bool>, conns: seq<Connection>, queue: seq<nat>)
    requires forall c :: c in conns ==> c.target < |gates|
    requires InRange(queue, |gates|)
    ensures var after := Fanout(gates, out, conns, queue).gates;
      && (forall i :: 0 <= i < |gates| ==> after[i].outputs == gates[i].outputs)
      && (forall i :: 0 <= i < |gates| && i !in Targets(conns) ==> after[i] == gates[i])
      && (forall i, p :: 0 <= i < |gates| && p in gates[i].inputs ==> p in after[i].inputs)
    decreases |conns|
  {
    if |conns| > 0 && conns[0].output in out {
      var c := conns[0];
      assert c in conns;
      assert forall d :: d in conns[1..] ==> d in conns;
      FanoutTouchesTargetsOnly(WritePort(gates, c.target, c.input, out[c.output]), out, conns[1..],
                               Enqueue(queue, c.target));
      assert Targets(conns) == {c.target} + Targets(conns[1..]);
    }
  }

  /** A port that none of `conns` writes keeps its presence and its value. */
  lemma {:induction false} FanoutFrame(
    gates: seq<Gate>, out: map<string, bool>, conns: seq<Connection>, queue: seq<nat>, t: nat, p: string)
    requires forall c :: c in conns ==> c.target < |gates|
    requires InRange(queue, |gates|)
    requires t < |gates|
    requires forall c :: c in conns ==> c.target != t || c.input != p
    ensures p in Fanout(gates, out, conns, queue).gates[t].inputs <==> p in gates[t].inputs
    ensures p in gates[t].inputs ==> Fanout(gates, out, conns, queue).gates[t].inputs[p] == gates[t].inputs[p]
    decreases |conns|
  {
    if |conns| > 0 && conns[0].output in out {
      var c := conns[0];
      assert c in conns;
      forall d | d in conns[1..]
        ensures d.target < |gates| && (d.target != t || d.input != p)
      {
        assert d in conns;
      }
      FanoutFrame(WritePort(gates, c.target, c.input, out[c.output]), out, conns[1..],
                  Enqueue(queue, c.target), t, p);
    }
  }

  /**
   Every wire delivers the source's output value to the target's named port,
   unless a later wire of the same gate overwrites that very port.
   */
  lemma {:induction false} FanoutDelivers(
    gates: seq<Gate>, out: map<string, bool>, conns: seq<Connection>, queue: seq<nat>, k: nat)
    requires forall c :: c in conns ==> c.target < |gates|
    requires InRange(queue, |gates|)
    requires k < |conns|
    requires Fanout(gates, out, conns, queue).Running?
    requires forall j :: k < j < |conns| ==> conns[j].target != conns[k].target || conns[j].input != conns[k].input
    ensures conns[k].output in out
    ensures conns[k].input in Fanout(gates, out, conns, queue).gates[conns[k].target].inputs
    ensures Fanout(gates, out, conns, queue).gates[conns[k].target].inputs[conns[k].input] == out[conns[k].output]
    decreases |conns|
  {
    var c := conns[0];
    assert c in conns;
    assert conns[k] in conns;
    var written := WritePort(gates, c.target, c.input, out[c.output]);
    forall d | d in conns[1..]
      ensures d.target < |gates|
    {
      assert d in conns;
    }
    if k == 0 {
      forall d | d in conns[1..]
        ensures d.target != c.target || d.input != c.input
      {
        var j :| 0 <= j < |conns[1..]| && conns[1..][j] == d;
        assert conns[j + 1] == d;
      }
      FanoutFrame(written, out, conns[1..], Enqueue(queue, c.target), c.target, c.input);
    } else {
      FanoutDelivers(written, out, conns[1..], Enqueue(queue, c.target), k - 1);
    }
  }

  /* ----- One iteration of the outer loop ----- */

  /** Dequeue the front gate, evaluate it, and push its value down its wires. */
  function Step(gates: seq<Gate>, queue: seq<nat>): (r: Progress)
    requires WellFormed(gates) && InRange(queue, |gates|) && |queue| > 0
    ensures SameShape(gates, r.gates)
    ensures r.Running? ==> InRange(r.queue, |gates|)
  {
    var i := queue[0];
    match CalculateOutput(gates[i])
    case Err(e) => Halted(gates, e)
    case Ok(g) =>
      assert forall c :: c in g.connections ==> c.target < |gates| by {
        forall c | c in g.connections ensures c.target < |gates| {
          assert c in gates[i].connections;
        }
      }
      Fanout(gates[i := g], g.outputs, g.connections, queue[1..])
  }

  /** After a step the queue is the rest of the old queue followed by the new
      targets; it never holds a gate twice; every target of the dequeued gate
      is pending; and a gate whose evaluation throws stops the walk untouched. */
  lemma StepQueue(gates: seq<Gate>, queue: seq<nat>)
    requires WellFormed(gates) && InRange(queue, |gates|) && |queue| > 0
    ensures var r := Step(gates, queue);
      && (r.Running? ==> |queue| - 1 <= |r.queue| && r.queue[..|queue| - 1] == queue[1..])
      && (r.Running? ==> forall t :: t in queue[1..] ==> t in r.queue)
      && (r.Running? && NoDup(queue) ==> NoDup(r.queue))
      && (r.Running? ==> forall c :: c in gates[queue[0]].connections ==> c.target in r.queue)
      && (r.Running? ==> forall t :: t in r.queue ==> t in queue[1..] || t in Targets(gates[queue[0]].connections))
      && (CalculateOutput(gates[queue[0]]).Err? ==> r == Halted(gates, CalculateOutput(gates[queue[0]]).error))
  {
    var i := queue[0];
    match CalculateOutput(gates[i])
    case Err(e) =>
    case Ok(g) =>
      assert forall c :: c in g.connections ==> c.target < |gates| by {
        forall c | c in g.connections ensures c.target < |gates| {
          assert c in gates[i].connections;
        }
      }
      if Step(gates, queue).Running? {
        FanoutQueue(gates[i := g], g.outputs, g.connections, queue[1..]);
        var q := Step(gates, queue).queue;
        forall t | t in queue[1..] ensures t in q {
          assert t in q[..|queue| - 1];
        }
        if NoDup(queue) {
          assert NoDup(queue[1..]);
        }
      }
  }

  /** Only the dequeued gate and the targets of its wires can change. */
  lemma StepTouches(gates: seq<Gate>, queue: seq<nat>)
    requires WellFormed(gates) && InRange(queue, |gates|) && |queue| > 0
    ensures forall i :: 0 <= i < |gates| && i != queue[0] && i !in Targets(gates[queue[0]].connections) ==>
              Step(gates, queue).gates[i] == gates[i]
  {
    var i := queue[0];
    match CalculateOutput(gates[i])
    case Err(_) =>
    case Ok(g) =>
      assert forall c :: c in g.connections ==> c.target < |gates| by {
        forall c | c in g.connections ensures c.target < |gates| {
          assert c in gates[i].connections;
        }
      }
      FanoutTouchesTargetsOnly(gates[i := g], g.outputs, g.connections, queue[1..]);
  }

  /* ----- Settled gates ----- */

  /**
   Gate `i` is settled: evaluating it again gives the same gate, and each of
   its wires already holds the gate's output value at the target's port.
   */
  predicate Settled(gates: seq<Gate>, i: nat) {
    && i < |gates|
    && CalculateOutput(gates[i]) == Ok(gates[i])
    && forall c :: c in gates[i].connections ==>
         && c.output in gates[i].outputs
         && c.target < |gates|
         && c.input in gates[c.target].inputs
         && gates[c.target].inputs[c.input] == gates[i].outputs[c.output]
  }

  /** Every wire out of a gate in `reach` ends in `reach`. */
  predicate ClosedUnderWiring(gates: seq<Gate>, reach: set<nat>) {
    forall i, c :: i in reach && 0 <= i < |gates| && c in gates[i].connections ==> c.target in reach
  }

  /**
   A set of gates that holds every input gate, that wiring cannot leave, and
   whose every gate is settled: a walk over it has nothing left to change.
   */
  predicate Stable(gates: seq<Gate>, reach: set<nat>) {
    && (forall i :: 0 <= i < |gates| && gates[i].kind.Input? ==> i in reach)
    && ClosedUnderWiring(gates, reach)
    && (forall i :: i in reach ==> Settled(gates, i))
  }

  /** No input port is written by two wires. */
  predicate UniqueDrivers(gates: seq<Gate>) {
    forall i, a, j, b ::
      && 0 <= i < |gates| && 0 <= a < |gates[i].connections|
      && 0 <= j < |gates| && 0 <= b < |gates[j].connections|
      && gates[i].connections[a].target == gates[j].connections[b].target
      && gates[i].connections[a].input == gates[j].connections[b].input
      ==> i == j && a == b
  }

  lemma SameShapeKeepsUniqueDrivers(a: seq<Gate>, b: seq<Gate>)
    requires SameShape(a, b) && UniqueDrivers(a)
    ensures UniqueDrivers(b)
  {
    forall i, x, j, y |
      && 0 <= i < |b| && 0 <= x < |b[i].connections|
      && 0 <= j < |b| && 0 <= y < |b[j].connections|
      && b[i].connections[x].target == b[j].connections[y].target
      && b[i].connections[x].input == b[j].connections[y].input
      ensures i == j && x == y
    {
      assert a[i].connections == b[i].connections && a[j].connections == b[j].connections;
    }
  }

  /** Wires that already hold the values they would write change nothing. */
  lemma {:induction false} FanoutOnSettledWires(
    gates: seq<Gate>, out: map<string, bool>, conns: seq<Connection>, queue: seq<nat>)
    requires forall c :: c in conns ==> c.target < |gates|
    requires InRange(queue, |gates|)
    requires forall c :: c in conns ==>
               && c.output in out && c.target < |gates| && c.input in gates[c.target].inputs
               && gates[c.target].inputs[c.input] == out[c.output]
    ensures Fanout(gates, out, conns, queue).Running?
    ensures Fanout(gates, out, conns, queue).gates == gates
    decreases |conns|
  {
    if |conns| > 0 {
      var c := conns[0];
      assert c in conns;
      var t := c.target;
      assert gates[t].inputs[c.input := out[c.output]] == gates[t].inputs;
      assert WritePort(gates, t, c.input, out[c.output]) == gates;
      assert forall d :: d in conns[1..] ==> d in conns;
      FanoutOnSettledWires(gates, out, conns[1..], Enqueue(queue, t));
    }
  }

  /** A step that dequeues a settled gate does not fail and changes no gate. */
  lemma StepOnSettled(gates: seq<Gate>, queue: seq<nat>)
    requires WellFormed(gates) && InRange(queue, |gates|) && |queue| > 0
    ensures Settled(gates, queue[0]) ==> Step(gates, queue).Running? && Step(gates, queue).gates == gates
  {
    var i := queue[0];
    if Settled(gates, i) {
      var g := gates[i];
      assert gates[i := g] == gates;
      FanoutOnSettledWires(gates, g.outputs, g.connections, queue[1..]);
    }
  }

  /**
   With one driver per port, a step that leaves the dequeued gate off the
   queue leaves it settled: none of its own wires feeds it, and no later wire
   of the same gate overwrites a port it has written.
   */
  lemma StepSettlesDequeued(gates: seq<Gate>, queue: seq<nat>)
    requires WellFormed(gates) && InRange(queue, |gates|) && |queue| > 0 && UniqueDrivers(gates)
    ensures Step(gates, queue).Running? && queue[0] !in Step(gates, queue).queue ==>
              Settled(Step(gates, queue).gates, queue[0])
  {
    var i := queue[0];
    match CalculateOutput(gates[i])
    case Err(_) =>
    case Ok(g) =>
      var conns := g.connections;
      assert conns == gates[i].connections;
      assert forall c :: c in conns ==> c.target < |gates| by {
        forall c | c in conns ensures c.target < |gates| {
          assert c in gates[i].connections;
        }
      }
      var g1 := gates[i := g];
      var s := Fanout(g1, g.outputs, conns, queue[1..]);
      if s.Running? && i !in s.queue {
        FanoutQueue(g1, g.outputs, conns, queue[1..]);
        FanoutTouchesTargetsOnly(g1, g.outputs, conns, queue[1..]);
        assert s.gates[i] == g;
        CalculateOutputIdempotent(gates[i]);
        DistinctWires(gates, i);
        FanoutDeliversAll(g1, g.outputs, conns, queue[1..]);
      }
  }

  /** With one driver per port, no two wires of one gate share a target port. */
  lemma DistinctWires(gates: seq<Gate>, i: nat)
    requires i < |gates| && UniqueDrivers(gates)
    ensures var conns := gates[i].connections;
      forall a, b :: 0 <= a < b < |conns| ==> conns[a].target != conns[b].target || conns[a].input != conns[b].input
  {
  }

  /** When no two wires share a target port, every wire delivers its value. */
  lemma FanoutDeliversAll(gates: seq<Gate>, out: map<string, bool>, conns: seq<Connection>, queue: seq<nat>)
    requires forall c :: c in conns ==> c.target < |gates|
    requires InRange(queue, |gates|)
    requires Fanout(gates, out, conns, queue).Running?
    requires forall a, b :: 0 <= a < b < |conns| ==> conns[a].target != conns[b].target || conns[a].input != conns[b].input
    ensures forall c :: c in conns ==>
              && c.output in out
              && c.input in Fanout(gates, out, conns, queue).gates[c.target].inputs
              && Fanout(gates, out, conns, queue).gates[c.target].inputs[c.input] == out[c.output]
  {
    forall c | c in conns
      ensures && c.output in out
              && c.input in Fanout(gates, out, conns, queue).gates[c.target].inputs
              && Fanout(gates, out, conns, queue).gates[c.target].inputs[c.input] == out[c.output]
    {
      var k :| 0 <= k < |conns| && conns[k] == c;
      FanoutDelivers(gates, out, conns, queue, k);
    }
  }

  /**
   With one driver per port, a settled gate other than the dequeued one that
   the step does not queue stays settled: the step writes none of the ports
   its wires feed.
   */
  lemma StepKeepsSettled(gates: seq<Gate>, queue: seq<nat>, j: nat)
    requires WellFormed(gates) && InRange(queue, |gates|) && |queue| > 0 && UniqueDrivers(gates)
    requires Settled(gates, j) && j != queue[0]
    ensures Step(gates, queue).Running? && j !in Step(gates, queue).queue ==> Settled(Step(gates, queue).gates, j)
  {
    var i := queue[0];
    match CalculateOutput(gates[i])
    case Err(_) =>
    case Ok(g) =>
      var conns := g.connections;
      assert conns == gates[i].connections;
      assert forall c :: c in conns ==> c.target < |gates| by {
        forall c | c in conns ensures c.target < |gates| {
          assert c in gates[i].connections;
        }
      }
      var g1 := gates[i := g];
      var wires := gates[j].connections;
      forall c, d | c in wires && d in conns
        ensures d.target != c.target || d.input != c.input
      {
        var a :| 0 <= a < |wires| && wires[a] == c;
        var b :| 0 <= b < |conns| && conns[b] == d;
        assert gates[i].connections[b] == d;
      }
      assert Settled(g1, j) by {
        assert g1[j] == gates[j];
        assert forall c :: c in wires ==> g1[c.target].inputs == gates[c.target].inputs;
      }
      FanoutKeepsSettled(g1, g.outputs, conns, queue[1..], j);
  }

  /** A settled gate that is not a target of `conns` and none of whose wires
      feeds a port that `conns` writes stays settled, if it is not queued. */
  lemma FanoutKeepsSettled(
    gates: seq<Gate>, out: map<string, bool>, conns: seq<Connection>, queue: seq<nat>, j: nat)
    requires forall c :: c in conns ==> c.target < |gates|
    requires InRange(queue, |gates|)
    requires Settled(gates, j)
    requires forall c, d :: c in gates[j].connections && d in conns ==> d.target != c.target || d.input != c.input
    ensures var s := Fanout(gates, out, conns, queue);
      s.Running? && j !in s.queue ==> Settled(s.gates, j)
  {
    var s := Fanout(gates, out, conns, queue);
    if s.Running? && j !in s.queue {
      FanoutQueue(gates, out, conns, queue);
      FanoutTouchesTargetsOnly(gates, out, conns, queue);
      assert s.gates[j] == gates[j];
      FanoutSparesPorts(gates, out, conns, queue, gates[j].connections);
    }
  }

  /** Ports that none of `conns` writes keep their values. */
  lemma FanoutSparesPorts(
    gates: seq<Gate>, out: map<string, bool>, conns: seq<Connection>, queue: seq<nat>, wires: seq<Connection>)
    requires forall c :: c in conns ==> c.target < |gates|
    requires InRange(queue, |gates|)
    requires forall c :: c in wires ==> c.target < |gates|
    requires forall c, d :: c in wires && d in conns ==> d.target != c.target || d.input != c.input
    ensures forall c :: c in wires && c.input in gates[c.target].inputs ==>
              && c.input in Fanout(gates, out, conns, queue).gates[c.target].inputs
              && Fanout(gates, out, conns, queue).gates[c.target].inputs[c.input] == gates[c.target].inputs[c.input]
  {
    forall c | c in wires && c.input in gates[c.target].inputs
      ensures && c.input in Fanout(gates, out, conns, queue).gates[c.target].inputs
              && Fanout(gates, out, conns, queue).gates[c.target].inputs[c.input] == gates[c.target].inputs[c.input]
    {
      FanoutFrame(gates, out, conns, queue, c.target, c.input);
    }
  }

  /**
   The invariant of the walk, with `seen` the gates already dequeued: the
   queue has no repeats; every input gate and every target of a wire out of
   `seen` is in `seen` or pending; and every gate of `seen` that is not
   pending is settled.
   */
  ghost predicate WalkInvariant(gates: seq<Gate>, queue: seq<nat>, seen: set<nat>) {
    && WellFormed(gates) && InRange(queue, |gates|) && NoDup(queue) && UniqueDrivers(gates)
    && (forall i :: 0 <= i < |gates| && gates[i].kind.Input? ==> i in seen || i in queue)
    && (forall i, c :: i in seen && 0 <= i < |gates| && c in gates[i].connections ==>
          c.target in seen || c.target in queue)
    && (forall i :: i in seen && i !in queue ==> Settled(gates, i))
  }

  /** One step keeps the invariant, with the dequeued gate added to `seen`. */
  lemma StepKeepsInvariant(gates: seq<Gate>, queue: seq<nat>, seen: set<nat>)
    requires WalkInvariant(gates, queue, seen) && |queue| > 0
    ensures Step(gates, queue).Running? ==>
              WalkInvariant(Step(gates, queue).gates, Step(gates, queue).queue, seen + {queue[0]})
  {
    var q0 := queue[0];
    var s := Step(gates, queue);
    if s.Running? {
      var after, pending := s.gates, s.queue;
      var seen' := seen + {q0};
      StepQueue(gates, queue);
      SameShapeKeepsWellFormed(gates, after);
      SameShapeKeepsUniqueDrivers(gates, after);
      forall i | 0 <= i < |after| && after[i].kind.Input?
        ensures i in seen' || i in pending
      {
        if i != q0 && i in queue {
          assert i in queue[1..];
        }
      }
      forall i, c | i in seen' && 0 <= i < |after| && c in after[i].connections
        ensures c.target in seen' || c.target in pending
      {
        assert c in gates[i].connections;
        if c.target != q0 && c.target in queue {
          assert c.target in queue[1..];
        }
      }
      forall i | i in seen' && i !in pending
        ensures Settled(after, i)
      {
        if i == q0 {
          StepSettlesDequeued(gates, queue);
        } else {
          assert i !in queue[1..];
          StepKeepsSettled(gates, queue, i);
        }
      }
    }
  }

  /** A step on a gate with a single wire: evaluate, queue the target unless
      pending, and write the value into the target's port. */
  lemma StepOneWire(gates: seq<Gate>, queue: seq<nat>, c: Connection)
    requires WellFormed(gates) && InRange(queue, |gates|) && |queue| > 0
    requires CalculateOutput(gates[queue[0]]).Ok? && gates[queue[0]].connections == [c]
    requires c.output == "Z"
    ensures c.target < |gates|
    ensures var g := CalculateOutput(gates[queue[0]]).value;
      Step(gates, queue) ==
        Running(WritePort(gates[queue[0] := g], c.target, c.input, g.outputs["Z"]), Enqueue(queue[1..], c.target))
  {
    var i := queue[0];
    assert c in gates[i].connections;
    var g := CalculateOutput(gates[i]).value;
    var written := WritePort(gates[i := g], c.target, c.input, g.outputs["Z"]);
    assert [c][1..] == [];
    assert Fanout(written, g.outputs, [], Enqueue(queue[1..], c.target)) == Running(written, Enqueue(queue[1..], c.target));
  }

  /** A step on a gate without wires only evaluates it. */
  lemma StepNoWire(gates: seq<Gate>, queue: seq<nat>)
    requires WellFormed(gates) && InRange(queue, |gates|) && |queue| > 0
    requires CalculateOutput(gates[queue[0]]).Ok? && gates[queue[0]].connections == []
    ensures Step(gates, queue) == Running(gates[queue[0] := CalculateOutput(gates[queue[0]]).value], queue[1..])
  {
  }
}
