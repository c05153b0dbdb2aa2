/**
 The application around the worklist: the reference circuit that
 `initCircuit` builds, and the pointer click that toggles an input gate.
 */
module App {
  import opened Gates
  import opened Worklist
  import opened Propagation

  /* ----- The reference circuit ----- */

  /** The port values of the reference circuit: the input ports of its five
      gates, then each gate's output `Z`. */
  datatype Ports = Ports(
    a: bool, b: bool, andA: bool, andB: bool, notA: bool, outA: bool,
    zA: bool, zB: bool, zAnd: bool, zNot: bool, zOut: bool)

  /**
   The reference circuit holding the port values `p`: input gates A
   (position 0) and B (1), an AND gate (2), a NOT gate (3) and an output gate
   (4), wired A → NOT.A, NOT → AND.A, B → AND.B, AND → output.A.
   */
  function Reference(p: Ports): (gates: seq<Gate>)
    ensures |gates| == 5 && WellFormed(gates)
    ensures forall i :: 0 <= i < 5 ==> gates[i].outputs.Keys == {"Z"}
  {
    [ Gate(Input("A"), 50.0, 50.0, map["A" := p.a], map["Z" := p.zA], [Connection("Z", 3, "A")]),
      Gate(Input("B"), 50.0, 200.0, map["A" := p.b], map["Z" := p.zB], [Connection("Z", 2, "B")]),
      Gate(And, 400.0, 125.0, map["A" := p.andA, "B" := p.andB], map["Z" := p.zAnd], [Connection("Z", 4, "A")]),
      Gate(Not, 200.0, 50.0, map["A" := p.notA], map["Z" := p.zNot], [Connection("Z", 2, "A")]),
      Gate(Output, 500.0, 125.0, map["A" := p.outA], map["Z" := p.zOut], []) ]
  }

  /** No input port of the reference circuit is fed by two wires. */
  lemma ReferenceDrivers(p: Ports)
    ensures UniqueDrivers(Reference(p))
  {
    var g := Reference(p);
    forall i, a, j, b |
      && 0 <= i < |g| && 0 <= a < |g[i].connections|
      && 0 <= j < |g| && 0 <= b < |g[j].connections|
      && g[i].connections[a].target == g[j].connections[b].target
      && g[i].connections[a].input == g[j].connections[b].input
      ensures i == j && a == b
    {
    }
  }

  /**
   `initCircuit`: the gates built with their default ports, wired, input A
   set false and input B set true, in the order input A, input B, AND, NOT,
   output.
   */
  function InitCircuit(): (gates: seq<Gate>)
    ensures gates == Reference(Ports(false, true, false, false, false, false, false, false, false, false, false))
  {
    var input1 := NewInputGate(50.0, 50.0, "A");
    var input2 := NewInputGate(50.0, 200.0, "B");
    var notGate := NewNotGate(200.0, 50.0);
    var andGate := NewAndGate(400.0, 125.0);
    var output := NewOutputGate(500.0, 125.0, "Z");
    var input1 := input1.(connections := input1.connections + [Connection("Z", 3, "A")]);
    var notGate := notGate.(connections := notGate.connections + [Connection("Z", 2, "A")]);
    var input2 := input2.(connections := input2.connections + [Connection("Z", 2, "B")]);
    var andGate := andGate.(connections := andGate.connections + [Connection("Z", 4, "A")]);
    var input1 := input1.(inputs := input1.inputs["A" := false]);
    var input2 := input2.(inputs := input2.inputs["A" := true]);
    assert forall c: Connection :: [] + [c] == [c];
    assert map["A" := false]["A" := false] == map["A" := false];
    assert map["A" := false]["A" := true] == map["A" := true];
    [input1, input2, andGate, notGate, output]
  }

  /** The port values after one complete walk: every port downstream of the
      inputs follows them, and the output reads ¬A ∧ B. */
  function Propagated(p: Ports): Ports {
    Ports(p.a, p.b, !p.a, p.b, p.a, !p.a && p.b, p.a, p.b, !p.a && p.b, !p.a, !p.a && p.b)
  }

  /* ----- The reference walk, one dequeue at a time ----- */

  /* Each dequeue is proved in three small pieces, one lemma each: the gate's
     evaluation (`ReferenceEvalN`), the new output stored in the list
     (`ReferenceSetOutputN`), and the wire's write into its target
     (`ReferenceSetInputN`, joined by `ReferenceWriteN`). Every piece speaks
     about a single concrete five-gate list. One lemma over all five gates
     would put several such lists into one proof obligation, and the solver's
     work on those grows far faster than their number. `Prepend` and
     `Predecessor` keep the walk's compositions free of concrete arithmetic
     for the same reason. */

  /* The ports after each dequeue of the reference walk: the dequeued gate's
     output `Z` takes its computed value, and so does the port its wire feeds. */

  function AfterA(p: Ports): Ports { p.(zA := p.a, notA := p.a) }
  function AfterB(p: Ports): Ports { p.(zB := p.b, andB := p.b) }
  function AfterNot(p: Ports): Ports { p.(zNot := !p.notA, andA := !p.notA) }
  function AfterAnd(p: Ports): Ports { p.(zAnd := p.andA && p.andB, outA := p.andA && p.andB) }
  function AfterOutput(p: Ports): Ports { p.(zOut := p.outA) }

  /** Replacing one gate of a five-gate list. */
  lemma UpdateFive(a: Gate, b: Gate, c: Gate, d: Gate, e: Gate, x: Gate)
    ensures [a, b, c, d, e][0 := x] == [x, b, c, d, e]
    ensures [a, b, c, d, e][1 := x] == [a, x, c, d, e]
    ensures [a, b, c, d, e][2 := x] == [a, b, x, d, e]
    ensures [a, b, c, d, e][3 := x] == [a, b, c, x, e]
    ensures [a, b, c, d, e][4 := x] == [a, b, c, d, x]
  {
  }

  /** Overwriting the port of a one-port map. */
  lemma Overwrite(k: string, v: bool, u: bool)
    ensures map[k := v][k := u] == map[k := u]
  {
  }

  /** Overwriting one port of a two-port map keeps the other. */
  lemma OverwriteOneOfTwo(k: string, l: string, v: bool, w: bool, u: bool)
    requires k != l
    ensures map[k := v, l := w][k := u] == map[k := u, l := w]
    ensures map[k := v, l := w][l := u] == map[k := v, l := u]
  {
  }

  /** A one-port gate of the reference circuit evaluates to its kind's
      function of port `A`, stored over its old `Z`. */
  lemma EvalOnePort(kind: Kind, x: real, y: real, a: bool, z: bool, conns: seq<Connection>)
    requires kind.Input? || kind.Not? || kind.Output?
    ensures var g := Gate(kind, x, y, map["A" := a], map["Z" := z], conns);
      CalculateOutput(g) == Ok(g.(outputs := map["Z" := if kind.Not? then !a else a]))
  {
    var g := Gate(kind, x, y, map["A" := a], map["Z" := z], conns);
    assert g.inputs.Keys == {"A"};
    Overwrite("Z", z, if kind.Not? then !a else a);
  }

  /** The AND gate of the reference circuit evaluates to the conjunction of its ports. */
  lemma EvalAnd(x: real, y: real, a: bool, b: bool, z: bool, conns: seq<Connection>)
    ensures var g := Gate(And, x, y, map["A" := a, "B" := b], map["Z" := z], conns);
      CalculateOutput(g) == Ok(g.(outputs := map["Z" := a && b]))
  {
    var g := Gate(And, x, y, map["A" := a, "B" := b], map["Z" := z], conns);
    assert g.inputs.Keys == {"A", "B"};
    Overwrite("Z", z, a && b);
  }

  /**
   Dequeuing gate `i` of the reference circuit, whose evaluation yields `z`
   and whose single wire writes `z` into port `port` of gate `t`, gives the
   reference circuit holding `p'`.
   */
  lemma ReferenceStepVia(p: Ports, queue: seq<nat>, i: nat, z: bool, t: nat, port: string, p': Ports)
    requires InRange(queue, 5) && |queue| > 0 && queue[0] == i
    requires Reference(p)[i].connections == [Connection("Z", t, port)]
    requires CalculateOutput(Reference(p)[i]) == Ok(Reference(p)[i].(outputs := map["Z" := z]))
    requires var r := Reference(p)[i := Reference(p)[i].(outputs := map["Z" := z])];
      t < 5 && r[t := r[t].(inputs := r[t].inputs[port := z])] == Reference(p')
    ensures Step(Reference(p), queue) == Running(Reference(p'), Enqueue(queue[1..], t))
  {
    StepOneWire(Reference(p), queue, Connection("Z", t, port));
  }

  lemma ReferenceStep1(p: Ports)
    ensures Step(Reference(p), [0, 1]) == Running(Reference(AfterA(p)), [1, 3])
  {
    ReferenceEval1(p);
    ReferenceWrite1(p, p.a);
    ReferenceStepVia(p, [0, 1], 0, p.a, 3, "A", p.(zA := p.a, notA := p.a));
  }

  lemma ReferenceEval1(p: Ports)
    ensures CalculateOutput(Reference(p)[0]) == Ok(Reference(p)[0].(outputs := map["Z" := p.a]))
  {
    EvalOnePort(Input("A"), 50.0, 50.0, p.a, p.zA, [Connection("Z", 3, "A")]);
  }

  lemma ReferenceWrite1(p: Ports, z: bool)
    ensures var r := Reference(p)[0 := Reference(p)[0].(outputs := map["Z" := z])];
      r[3 := r[3].(inputs := r[3].inputs["A" := z])] == Reference(p.(zA := z, notA := z))
  {
    ReferenceSetOutput1(p, z);
    ReferenceSetInput1(p.(zA := z), z);
  }

  lemma ReferenceSetOutput1(p: Ports, z: bool)
    ensures Reference(p)[0 := Reference(p)[0].(outputs := map["Z" := z])] == Reference(p.(zA := z))
  {
    var r := Reference(p);
    UpdateFive(r[0], r[1], r[2], r[3], r[4], r[0].(outputs := map["Z" := z]));
  }

  lemma ReferenceSetInput1(p: Ports, z: bool)
    ensures var r := Reference(p);
      r[3 := r[3].(inputs := r[3].inputs["A" := z])] == Reference(p.(notA := z))
  {
    var r := Reference(p);
    Overwrite("A", p.notA, z);
    UpdateFive(r[0], r[1], r[2], r[3], r[4], r[3].(inputs := map["A" := z]));
  }

  lemma ReferenceStep2(p: Ports)
    ensures Step(Reference(p), [1, 3]) == Running(Reference(AfterB(p)), [3, 2])
  {
    ReferenceEval2(p);
    ReferenceWrite2(p, p.b);
    ReferenceStepVia(p, [1, 3], 1, p.b, 2, "B", p.(zB := p.b, andB := p.b));
  }

  lemma ReferenceEval2(p: Ports)
    ensures CalculateOutput(Reference(p)[1]) == Ok(Reference(p)[1].(outputs := map["Z" := p.b]))
  {
    EvalOnePort(Input("B"), 50.0, 200.0, p.b, p.zB, [Connection("Z", 2, "B")]);
  }

  lemma ReferenceWrite2(p: Ports, z: bool)
    ensures var r := Reference(p)[1 := Reference(p)[1].(outputs := map["Z" := z])];
      r[2 := r[2].(inputs := r[2].inputs["B" := z])] == Reference(p.(zB := z, andB := z))
  {
    ReferenceSetOutput2(p, z);
    ReferenceSetInput2(p.(zB := z), z);
  }

  lemma ReferenceSetOutput2(p: Ports, z: bool)
    ensures Reference(p)[1 := Reference(p)[1].(outputs := map["Z" := z])] == Reference(p.(zB := z))
  {
    var r := Reference(p);
    UpdateFive(r[0], r[1], r[2], r[3], r[4], r[1].(outputs := map["Z" := z]));
  }

  lemma ReferenceSetInput2(p: Ports, z: bool)
    ensures var r := Reference(p);
      r[2 := r[2].(inputs := r[2].inputs["B" := z])] == Reference(p.(andB := z))
  {
    var r := Reference(p);
    OverwriteOneOfTwo("A", "B", p.andA, p.andB, z);
    UpdateFive(r[0], r[1], r[2], r[3], r[4], r[2].(inputs := map["A" := p.andA, "B" := z]));
  }

  lemma ReferenceStep3(p: Ports)
    ensures Step(Reference(p), [3, 2]) == Running(Reference(AfterNot(p)), [2])
  {
    ReferenceEval3(p);
    ReferenceWrite3(p, !p.notA);
    ReferenceStepVia(p, [3, 2], 3, !p.notA, 2, "A", p.(zNot := !p.notA, andA := !p.notA));
  }

  lemma ReferenceEval3(p: Ports)
    ensures CalculateOutput(Reference(p)[3]) == Ok(Reference(p)[3].(outputs := map["Z" := !p.notA]))
  {
    EvalOnePort(Not, 200.0, 50.0, p.notA, p.zNot, [Connection("Z", 2, "A")]);
  }

  lemma ReferenceWrite3(p: Ports, z: bool)
    ensures var r := Reference(p)[3 := Reference(p)[3].(outputs := map["Z" := z])];
      r[2 := r[2].(inputs := r[2].inputs["A" := z])] == Reference(p.(zNot := z, andA := z))
  {
    ReferenceSetOutput3(p, z);
    ReferenceSetInput3(p.(zNot := z), z);
  }

  lemma ReferenceSetOutput3(p: Ports, z: bool)
    ensures Reference(p)[3 := Reference(p)[3].(outputs := map["Z" := z])] == Reference(p.(zNot := z))
  {
    var r := Reference(p);
    UpdateFive(r[0], r[1], r[2], r[3], r[4], r[3].(outputs := map["Z" := z]));
  }

  lemma ReferenceSetInput3(p: Ports, z: bool)
    ensures var r := Reference(p);
      r[2 := r[2].(inputs := r[2].inputs["A" := z])] == Reference(p.(andA := z))
  {
    var r := Reference(p);
    OverwriteOneOfTwo("A", "B", p.andA, p.andB, z);
    UpdateFive(r[0], r[1], r[2], r[3], r[4], r[2].(inputs := map["A" := z, "B" := p.andB]));
  }

  lemma ReferenceStep4(p: Ports)
    ensures Step(Reference(p), [2]) == Running(Reference(AfterAnd(p)), [4])
  {
    LastInQueue(2, 4);
    ReferenceEval4(p);
    ReferenceWrite4(p, p.andA && p.andB);
    ReferenceStepVia(p, [2], 2, p.andA && p.andB, 4, "A", AfterAnd(p));
  }

  /** Dequeuing the only pending gate and queuing `t` leaves just `t`. */
  lemma LastInQueue(i: nat, t: nat)
    ensures Enqueue([i][1..], t) == [t]
  {
    assert [i][1..] == [];
  }

  lemma ReferenceEval4(p: Ports)
    ensures CalculateOutput(Reference(p)[2]) == Ok(Reference(p)[2].(outputs := map["Z" := p.andA && p.andB]))
  {
    EvalAnd(400.0, 125.0, p.andA, p.andB, p.zAnd, [Connection("Z", 4, "A")]);
  }

  lemma ReferenceWrite4(p: Ports, z: bool)
    ensures var r := Reference(p)[2 := Reference(p)[2].(outputs := map["Z" := z])];
      r[4 := r[4].(inputs := r[4].inputs["A" := z])] == Reference(p.(zAnd := z, outA := z))
  {
    ReferenceSetOutput4(p, z);
    ReferenceSetInput4(p.(zAnd := z), z);
  }

  lemma ReferenceSetOutput4(p: Ports, z: bool)
    ensures Reference(p)[2 := Reference(p)[2].(outputs := map["Z" := z])] == Reference(p.(zAnd := z))
  {
    var r := Reference(p);
    UpdateFive(r[0], r[1], r[2], r[3], r[4], r[2].(outputs := map["Z" := z]));
  }

  lemma ReferenceSetInput4(p: Ports, z: bool)
    ensures var r := Reference(p);
      r[4 := r[4].(inputs := r[4].inputs["A" := z])] == Reference(p.(outA := z))
  {
    var r := Reference(p);
    Overwrite("A", p.outA, z);
    UpdateFive(r[0], r[1], r[2], r[3], r[4], r[4].(inputs := map["A" := z]));
  }

  lemma ReferenceStep5(p: Ports)
    ensures Step(Reference(p), [4]) == Running(Reference(AfterOutput(p)), [])
  {
    ReferenceEval5(p);
    ReferenceWrite5(p, p.outA);
    StepNoWire(Reference(p), [4]);
  }

  lemma ReferenceEval5(p: Ports)
    ensures CalculateOutput(Reference(p)[4]) == Ok(Reference(p)[4].(outputs := map["Z" := p.outA]))
  {
    EvalOnePort(Output, 500.0, 125.0, p.outA, p.zOut, []);
  }

  lemma ReferenceWrite5(p: Ports, z: bool)
    ensures Reference(p)[4 := Reference(p)[4].(outputs := map["Z" := z])] == Reference(p.(zOut := z))
  {
    var r := Reference(p);
    UpdateFive(r[0], r[1], r[2], r[3], r[4], r[4].(outputs := map["Z" := z]));
  }

  /** Traces of the reference walk are put together one dequeued gate at a time. */
  lemma Prepend(a: nat, b: nat, c: nat, d: nat, e: nat)
    ensures [a] + [] == [a]
    ensures [a] + [b] == [a, b]
    ensures [a] + [b, c] == [a, b, c]
    ensures [a] + [b, c, d] == [a, b, c, d]
    ensures [a] + [b, c, d, e] == [a, b, c, d, e]
  {
  }

  /* The reference walk from each of its intermediate queues, last step first. */

  /** The fuel left after one step, related to the fuel before it only through `n == m + 1`. */
  lemma Predecessor(n: nat) returns (m: nat)
    requires n > 0
    ensures n == m + 1
  {
    m := n - 1;
  }

  lemma ReferenceWalkFrom4(p: Ports, fuel: nat, less: nat)
    requires fuel == less + 1
    ensures WellFormed(Reference(p))
    ensures Walk(Reference(p), [4], fuel) == WalkResult(Reference(AfterOutput(p)), [4], Done)
  {
    var p' := AfterOutput(p);
    ReferenceStep5(p);
    Prepend(4, 0, 0, 0, 0);
    assert Walk(Reference(p'), [], less) == WalkResult(Reference(p'), [], Done);
    WalkThen(Reference(p), [4], fuel, less, Reference(p'), [], WalkResult(Reference(p'), [], Done));
  }

  lemma ReferenceWalkFrom2(p: Ports, fuel: nat, less: nat)
    requires fuel == less + 1 && less >= 1
    ensures WellFormed(Reference(p))
    ensures Walk(Reference(p), [2], fuel) == WalkResult(Reference(AfterOutput(AfterAnd(p))), [2, 4], Done)
  {
    var least := Predecessor(less);
    var p' := AfterAnd(p);
    ReferenceStep4(p);
    ReferenceWalkFrom4(p', less, least);
    Prepend(2, 4, 0, 0, 0);
    assert Step(Reference(p), [2]) == Running(Reference(p'), [4]);
    WalkThen(Reference(p), [2], fuel, less, Reference(p'), [4], WalkResult(Reference(AfterOutput(p')), [4], Done));
  }

  lemma ReferenceWalkFrom32(p: Ports, fuel: nat, less: nat)
    requires fuel == less + 1 && less >= 2
    ensures WellFormed(Reference(p))
    ensures Walk(Reference(p), [3, 2], fuel) ==
      WalkResult(Reference(AfterOutput(AfterAnd(AfterNot(p)))), [3, 2, 4], Done)
  {
    var least := Predecessor(less);
    var p' := AfterNot(p);
    ReferenceStep3(p);
    ReferenceWalkFrom2(p', less, least);
    Prepend(3, 2, 4, 0, 0);
    assert Step(Reference(p), [3, 2]) == Running(Reference(p'), [2]);
    WalkThen(Reference(p), [3, 2], fuel, less, Reference(p'), [2],
             WalkResult(Reference(AfterOutput(AfterAnd(p'))), [2, 4], Done));
  }

  lemma ReferenceWalkFrom13(p: Ports, fuel: nat, less: nat)
    requires fuel == less + 1 && less >= 3
    ensures WellFormed(Reference(p))
    ensures Walk(Reference(p), [1, 3], fuel) ==
      WalkResult(Reference(AfterOutput(AfterAnd(AfterNot(AfterB(p))))), [1, 3, 2, 4], Done)
  {
    var least := Predecessor(less);
    var p' := AfterB(p);
    ReferenceStep2(p);
    ReferenceWalkFrom32(p', less, least);
    Prepend(1, 3, 2, 4, 0);
    assert Step(Reference(p), [1, 3]) == Running(Reference(p'), [3, 2]);
    WalkThen(Reference(p), [1, 3], fuel, less, Reference(p'), [3, 2],
             WalkResult(Reference(AfterOutput(AfterAnd(AfterNot(p')))), [3, 2, 4], Done));
  }

  /** The five dequeues of the reference walk compose to `Propagated`. */
  lemma AfterWalk(p: Ports)
    ensures AfterOutput(AfterAnd(AfterNot(AfterB(AfterA(p))))) == Propagated(p)
  {
  }

  /**
   On the reference circuit `walkCircuit` dequeues input A, input B, NOT, AND
   and the output gate, in that order, and completes; every port downstream
   of the inputs then follows them, and the output gate reads ¬A ∧ B.
   */
  lemma ReferenceWalk(p: Ports, fuel: nat)
    requires fuel >= 5
    ensures WellFormed(Reference(p))
    ensures WalkCircuit(Reference(p), fuel) == WalkResult(Reference(Propagated(p)), [0, 1, 3, 2, 4], Done)
    ensures Reference(Propagated(p))[4].outputs["Z"] == (!p.a && p.b)
  {
    var less := Predecessor(fuel);
    var least := Predecessor(less);
    var p' := AfterA(p);
    ReferenceSeed(p);
    ReferenceStep1(p);
    ReferenceWalkFrom13(p', less, least);
    Prepend(0, 1, 3, 2, 4);
    AfterWalk(p);
    assert Step(Reference(p), [0, 1]) == Running(Reference(p'), [1, 3]);
    assert Walk(Reference(p'), [1, 3], less) ==
      WalkResult(Reference(AfterOutput(AfterAnd(AfterNot(AfterB(p'))))), [1, 3, 2, 4], Done);
    assert InRange([1, 3], |Reference(p')|) && InRange([0, 1], |Reference(p)|);
    WalkThen(Reference(p), [0, 1], fuel, less, Reference(p'), [1, 3],
             WalkResult(Reference(AfterOutput(AfterAnd(AfterNot(AfterB(p'))))), [1, 3, 2, 4], Done));
  }

  lemma ReferenceSeed(p: Ports)
    ensures Seed(Reference(p)) == [0, 1]
  {
    var g := Reference(p);
    assert SeedFrom(g, 5) == [];
    assert SeedFrom(g, 4) == [];
    assert SeedFrom(g, 3) == [];
    assert SeedFrom(g, 2) == [];
    assert SeedFrom(g, 1) == [1];
  }

  /* ----- pointerClicked ----- */

  datatype Option<T> = None | Some(value: T)

  /** A gate the click acts on: an input gate whose footprint holds the point. */
  predicate IsHit(g: Gate, px: real, py: real) {
    g.kind.Input? && Collides(g, px, py)
  }

  /** The position of the first gate from `from` on that the click hits. */
  function FirstHit(gates: seq<Gate>, px: real, py: real, from: nat): (r: Option<nat>)
    requires from <= |gates|
    ensures r.Some? ==> from <= r.value < |gates| && IsHit(gates[r.value], px, py)
    ensures r.Some? ==> forall k :: from <= k < r.value ==> !IsHit(gates[k], px, py)
    ensures r.None? <==> forall k :: from <= k < |gates| ==> !IsHit(gates[k], px, py)
    decreases |gates| - from
  {
    if from == |gates| then None
    else if IsHit(gates[from], px, py) then Some(from)
    else FirstHit(gates, px, py, from + 1)
  }

  /** The input gate `g` with port `A` negated; reading an absent `A` throws. */
  function Toggle(g: Gate): (r: Result<Gate>)
    ensures r.Ok? <==> "A" in g.inputs
    ensures r.Err? ==> r.error == MissingPort("A")
    ensures r.Ok? ==> r.value.kind == g.kind && r.value.x == g.x && r.value.y == g.y
    ensures r.Ok? ==> r.value.outputs == g.outputs && r.value.connections == g.connections
    ensures r.Ok? ==> r.value.inputs.Keys == g.inputs.Keys && r.value.inputs["A"] == !g.inputs["A"]
    ensures r.Ok? ==> forall p :: p in g.inputs && p != "A" ==> r.value.inputs[p] == g.inputs[p]
  {
    var a :- Read(g.inputs, "A");
    Ok(g.(inputs := g.inputs["A" := !a]))
  }

  /**
   `pointerClicked`: the first input gate, in list order, whose footprint
   holds the point has its port `A` negated, and the loop stops there.
   */
  function PointerClicked(gates: seq<Gate>, px: real, py: real): (r: Result<seq<Gate>>)
    // No input gate is hit: nothing changes.
    ensures (forall k :: 0 <= k < |gates| ==> !IsHit(gates[k], px, py)) ==> r == Ok(gates)
    // The first hit input gate is toggled and no other gate changes.
    ensures forall i :: 0 <= i < |gates| && IsHit(gates[i], px, py) &&
                        (forall k :: 0 <= k < i ==> !IsHit(gates[k], px, py)) ==>
              && (r.Ok? <==> "A" in gates[i].inputs)
              && (r.Err? ==> r.error == MissingPort("A"))
              && (r.Ok? ==> |r.value| == |gates| && Toggle(gates[i]) == Ok(r.value[i]))
              && (r.Ok? ==> forall k :: 0 <= k < |gates| && k != i ==> r.value[k] == gates[k])
    ensures r.Ok? ==> SameShape(gates, r.value)
  {
    match FirstHit(gates, px, py, 0)
    case None => Ok(gates)
    case Some(i) =>
      var g :- Toggle(gates[i]);
      Ok(gates[i := g])
  }

  /** Gates that the click hits alike have the same first hit. */
  lemma {:induction false} FirstHitSameHits(a: seq<Gate>, b: seq<Gate>, px: real, py: real, from: nat)
    requires |a| == |b| && from <= |a|
    requires forall k :: 0 <= k < |a| ==> IsHit(a[k], px, py) == IsHit(b[k], px, py)
    ensures FirstHit(a, px, py, from) == FirstHit(b, px, py, from)
    decreases |a| - from
  {
    if from < |a| {
      FirstHitSameHits(a, b, px, py, from + 1);
    }
  }

  /** Negating `A` twice restores the gate. */
  lemma ToggleTwice(g: Gate)
    ensures Toggle(g).Ok? ==> Toggle(Toggle(g).value) == Ok(g)
  {
    if "A" in g.inputs {
      assert g.inputs["A" := !g.inputs["A"]]["A" := !!g.inputs["A"]] == g.inputs;
    }
  }

  /** Clicking the same point twice gives back the gates clicked on: the
      hit gate keeps its kind and footprint, so the second click finds it
      again and negates `A` back. */
  lemma ClickTwiceRestores(gates: seq<Gate>, px: real, py: real)
    ensures PointerClicked(gates, px, py).Ok? ==>
              PointerClicked(PointerClicked(gates, px, py).value, px, py) == Ok(gates)
  {
    var r := PointerClicked(gates, px, py);
    if r.Ok? {
      var once := r.value;
      forall k | 0 <= k < |gates| ensures IsHit(gates[k], px, py) == IsHit(once[k], px, py) {
        assert gates[k].kind == once[k].kind && gates[k].x == once[k].x && gates[k].y == once[k].y;
      }
      FirstHitSameHits(gates, once, px, py, 0);
      match FirstHit(gates, px, py, 0)
      case None =>
      case Some(i) =>
        var g := Toggle(gates[i]).value;
        assert once == gates[i := g];
        ToggleTwice(gates[i]);
        assert once[i := gates[i]] == gates;
    }
  }

  /** A click that hits the first gate toggles that gate. */
  lemma ClickFirst(gates: seq<Gate>, px: real, py: real, g: Gate)
    requires |gates| > 0 && IsHit(gates[0], px, py) && Toggle(gates[0]) == Ok(g)
    ensures PointerClicked(gates, px, py) == Ok(gates[0 := g])
  {
    assert FirstHit(gates, px, py, 0) == Some(0);
  }

  /** Clicking inside input A of the reference circuit negates `A` and nothing else. */
  lemma ClickReference(p: Ports)
    ensures PointerClicked(Reference(p), 60.0, 60.0) == Ok(Reference(p.(a := !p.a)))
  {
    ClickHitsInputA(p);
    ReferenceSetA(p);
  }

  lemma ClickHitsInputA(p: Ports)
    ensures PointerClicked(Reference(p), 60.0, 60.0) ==
              Ok(Reference(p)[0 := Reference(p)[0].(inputs := map["A" := !p.a])])
  {
    var r := Reference(p);
    var g := r[0].(inputs := map["A" := !p.a]);
    Overwrite("A", p.a, !p.a);
    assert Collides(r[0], 60.0, 60.0);
    assert Toggle(r[0]) == Ok(g);
    ClickFirst(r, 60.0, 60.0, g);
  }

  lemma ReferenceSetA(p: Ports)
    ensures Reference(p)[0 := Reference(p)[0].(inputs := map["A" := !p.a])] == Reference(p.(a := !p.a))
  {
    var r := Reference(p);
    UpdateFive(r[0], r[1], r[2], r[3], r[4], r[0].(inputs := map["A" := !p.a]));
  }

  /* ----- The reference scenario ----- */

  /** The ports `initCircuit` sets: input A false, input B true, all else false. */
  const Initial: Ports := Ports(false, true, false, false, false, false, false, false, false, false, false)

  /** After the first walk, and after a click on input A. */
  const FirstWalk: Ports := Propagated(Initial)
  const Clicked: Ports := FirstWalk.(a := true)

  /** The first walk of `initCircuit` completes and lights the output. */
  lemma FirstWalkLightsOutput(fuel: nat)
    requires fuel >= 5
    ensures WalkCircuit(InitCircuit(), fuel) == WalkResult(Reference(FirstWalk), [0, 1, 3, 2, 4], Done)
    ensures Reference(FirstWalk)[4].outputs["Z"]
  {
    ReferenceWalk(Initial, fuel);
  }

  /** Clicking input A then walking again turns the output off; a further
      walk changes no port and does not fail. */
  lemma ClickThenWalk(fuel: nat, fuel': nat)
    requires fuel >= 5
    ensures PointerClicked(Reference(FirstWalk), 60.0, 60.0) == Ok(Reference(Clicked))
    ensures WalkCircuit(Reference(Clicked), fuel) == WalkResult(Reference(Propagated(Clicked)), [0, 1, 3, 2, 4], Done)
    ensures !Reference(Propagated(Clicked))[4].outputs["Z"]
    ensures WalkCircuit(Reference(Propagated(Clicked)), fuel').gates == Reference(Propagated(Clicked))
    ensures !WalkCircuit(Reference(Propagated(Clicked)), fuel').status.Failed?
  {
    ClickReference(FirstWalk);
    ReferenceWalk(Clicked, fuel);
    ReferenceDrivers(Clicked);
    CompletedWalkIsIdempotent(Reference(Clicked), fuel, fuel');
  }

  /* ----- A wire back into its own gate ----- */

  /** One input gate whose output is wired back into its own port `A`. */
  function SelfLoop(v: bool, z: bool): (gates: seq<Gate>)
    ensures |gates| == 1 && WellFormed(gates) && UniqueDrivers(gates)
  {
    [Gate(Input("A"), 0.0, 0.0, map["A" := v], map["Z" := z], [Connection("Z", 0, "A")])]
  }

  /** The gate copies `A` to `Z` and writes it back into `A` unchanged, yet,
      having just left the queue, it is queued again. */
  lemma SelfLoopStep(v: bool, z: bool)
    ensures Step(SelfLoop(v, z), [0]) == Running(SelfLoop(v, v), [0])
  {
    var g := SelfLoop(v, z);
    EvalOnePort(Input("A"), 0.0, 0.0, v, z, [Connection("Z", 0, "A")]);
    StepOneWire(g, [0], Connection("Z", 0, "A"));
    Overwrite("Z", z, v);
    Overwrite("A", v, v);
    assert Enqueue([], 0) == [0];
  }

  /**
   The loop never empties its queue: a walk over the wired-back gate spends
   all its fuel, dequeuing that one gate every time, whatever the fuel.
   `walkCircuit` loops for ever here although no port ever changes value.
   */
  lemma {:induction false} SelfLoopRunsOutOfFuel(v: bool, z: bool, fuel: nat)
    ensures Walk(SelfLoop(v, z), [0], fuel).status == OutOfFuel
    ensures forall k :: 0 <= k < |Walk(SelfLoop(v, z), [0], fuel).trace| ==> Walk(SelfLoop(v, z), [0], fuel).trace[k] == 0
    decreases fuel
  {
    if fuel > 0 {
      var less := Predecessor(fuel);
      SelfLoopStep(v, z);
      SelfLoopRunsOutOfFuel(v, v, less);
      var rest := Walk(SelfLoop(v, v), [0], less);
      WalkThen(SelfLoop(v, z), [0], fuel, less, SelfLoop(v, v), [0], rest);
      assert forall k :: 1 <= k < |[0] + rest.trace| ==> ([0] + rest.trace)[k] == rest.trace[k - 1];
    }
  }

  /** So `walkCircuit` on that circuit never completes. */
  lemma SelfLoopNeverCompletes(v: bool, z: bool, fuel: nat)
    ensures WalkCircuit(SelfLoop(v, z), fuel).status == OutOfFuel
    ensures |WalkCircuit(SelfLoop(v, z), fuel).trace| == fuel
  {
    var g := SelfLoop(v, z);
    assert SeedFrom(g, 1) == [];
    assert Seed(g) == [0];
    SelfLoopRunsOutOfFuel(v, z, fuel);
  }

  /* ----- A wiring cycle no input gate reaches ----- */

  /** Two NOT gates, each wired into the other's port `A`, and no input gate. */
  function Ring(a: bool, b: bool): (gates: seq<Gate>)
    ensures |gates| == 2 && WellFormed(gates) && UniqueDrivers(gates)
  {
    [Gate(Not, 0.0, 0.0, map["A" := a], map["Z" := false], [Connection("Z", 1, "A")]),
     Gate(Not, 100.0, 0.0, map["A" := b], map["Z" := false], [Connection("Z", 0, "A")])]
  }

  /**
   A cycle is not enough to keep `walkCircuit` running: the ring has no way
   out, yet with no input gate to seed it the walk completes at once,
   dequeuing nothing and changing nothing.
   */
  lemma UnreachedRingCompletes(a: bool, b: bool, fuel: nat)
    ensures NoWayOut(Ring(a, b), {0, 1})
    ensures WalkCircuit(Ring(a, b), fuel) == WalkResult(Ring(a, b), [], Done)
  {
    var g := Ring(a, b);
    assert WiredInto(g, 0, {0, 1}) by {
      assert g[0].connections[0] in g[0].connections;
    }
    assert WiredInto(g, 1, {0, 1}) by {
      assert g[1].connections[0] in g[1].connections;
    }
    assert SeedFrom(g, 2) == [];
    assert Seed(g) == [];
  }
}
