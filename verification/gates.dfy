/**
 The gate variants of the logic-gate toy: the port maps each kind of gate is
 built with, the boolean rule each kind uses to compute its single output
 port `Z`, and the square footprint used for pointer hit-testing.

 Ports are name-keyed maps, as in the Kotlin program, so that the arity checks and
 the behaviour on an unknown or missing port name stay observable. A thrown
 exception becomes an `Err` value.
 */
module Gates {

  /** Every gate occupies a 30 by 30 square whose top-left corner is (x, y). */
  const GateWidth: real := 30.0
  const GateHeight: real := 30.0

  /** The five gate classes. Only an input gate keeps the label it is built with. */
  datatype Kind = Input(name: string) | And | Or | Not | Output

  /** An outgoing wire: the source's output port, the position of the target
      gate in the circuit's gate list, and the target's input port. */
  datatype Connection = Connection(output: string, target: nat, input: string)

  datatype Gate = Gate(
    kind: Kind,
    x: real,
    y: real,
    inputs: map<string, bool>,
    outputs: map<string, bool>,
    connections: seq<Connection>)

  /** What evaluating or building a gate can throw. */
  datatype GateError =
    | ArityError(expected: nat, actual: nat)  // the input-count check of calculateOutput
    | MissingPort(port: string)               // a port read that finds no entry
    | IndexOutOfRange(index: int)             // an index past the end of the letter list

  datatype Result<+T> = Ok(value: T) | Err(error: GateError) {
    predicate IsFailure() {
      Err?
    }

    function PropagateFailure<U>(): Result<U>
      requires Err?
    {
      Err(error)
    }

    function Extract(): T
      requires Ok?
    {
      value
    }
  }

  /* ----- Port contract of each kind ----- */

  /** The input ports a gate of this kind is built with. */
  function PortNames(kind: Kind): set<string> {
    if kind.And? || kind.Or? then {"A", "B"} else {"A"}
  }

  /** The input count the evaluation rule insists on. An input gate never checks it. */
  function RequiredInputs(kind: Kind): nat {
    if kind.And? || kind.Or? then 2 else 1
  }

  predicate ChecksArity(kind: Kind) {
    !kind.Input?
  }

  /** The textbook boolean function of each kind, over its declared ports. */
  function Truth(kind: Kind, ports: map<string, bool>): bool
    requires PortNames(kind) <= ports.Keys
  {
    match kind
    case Input(_) => ports["A"]
    case Output => ports["A"]
    case Not => !ports["A"]
    case And => ports["A"] && ports["B"]
    case Or => ports["A"] || ports["B"]
  }

  /** Reading a port and casting it to a boolean; an absent entry throws. */
  function Read(ports: map<string, bool>, port: string): (r: Result<bool>)
    ensures r.Ok? <==> port in ports
    ensures r.Ok? ==> r.value == ports[port]
    ensures r.Err? ==> r.error == MissingPort(port)
  {
    if port in ports then Ok(ports[port]) else Err(MissingPort(port))
  }

  /* ----- Evaluation ----- */

  /**
   The value a gate of `kind` computes for `Z` from `inputs`. The two-input
   rules read `B` only when `A` does not already decide the result, so a
   missing `B` goes unnoticed in that case.
   */
  function Evaluate(kind: Kind, inputs: map<string, bool>): (r: Result<bool>)
    ensures ChecksArity(kind) && |inputs| != RequiredInputs(kind) ==>
              r == Err(ArityError(RequiredInputs(kind), |inputs|))
    ensures "A" !in inputs ==> r.Err?
    ensures inputs.Keys == PortNames(kind) ==> r == Ok(Truth(kind, inputs))
    ensures r.Ok? && PortNames(kind) <= inputs.Keys ==> r.value == Truth(kind, inputs)
  {
    assert |inputs| == |inputs.Keys|;
    match kind
    case Input(_) =>
      Read(inputs, "A")
    case Output =>
      if |inputs| != 1 then Err(ArityError(1, |inputs|)) else Read(inputs, "A")
    case Not =>
      if |inputs| != 1 then Err(ArityError(1, |inputs|))
      else
        var a :- Read(inputs, "A");
        Ok(!a)
    case And =>
      if |inputs| != 2 then Err(ArityError(2, |inputs|))
      else
        var a :- Read(inputs, "A");
        if !a then Ok(false) else Read(inputs, "B")
    case Or =>
      if |inputs| != 2 then Err(ArityError(2, |inputs|))
      else
        var a :- Read(inputs, "A");
        if a then Ok(true) else Read(inputs, "B")
  }

  /** The gate's `calculateOutput`: store the evaluated value in output port `Z`. */
  function CalculateOutput(g: Gate): (r: Result<Gate>)
    ensures r.Ok? <==> Evaluate(g.kind, g.inputs).Ok?
    ensures r.Err? ==> r == Err(Evaluate(g.kind, g.inputs).error)
    ensures r.Ok? ==>
              && r.value.kind == g.kind && r.value.x == g.x && r.value.y == g.y
              && r.value.inputs == g.inputs && r.value.connections == g.connections
    ensures r.Ok? ==> "Z" in r.value.outputs && r.value.outputs["Z"] == Evaluate(g.kind, g.inputs).value
    ensures r.Ok? ==> r.value.outputs.Keys == g.outputs.Keys + {"Z"}
    ensures r.Ok? ==> forall p :: p in g.outputs && p != "Z" ==> r.value.outputs[p] == g.outputs[p]
  {
    var z :- Evaluate(g.kind, g.inputs);
    Ok(g.(outputs := g.outputs["Z" := z]))
  }

  /** A gate whose only output port is `Z` still has only `Z` after evaluation. */
  lemma CalculateOutputKeepsOneOutput(g: Gate)
    requires g.outputs.Keys == {"Z"}
    ensures CalculateOutput(g).Ok? ==> CalculateOutput(g).value.outputs.Keys == {"Z"}
    ensures CalculateOutput(g).Ok? ==> |CalculateOutput(g).value.outputs| == 1
  {
    if CalculateOutput(g).Ok? {
      var o := CalculateOutput(g).value.outputs;
      assert o.Keys == {"Z"};
      assert |o| == |o.Keys|;
    }
  }

  /** Evaluating a gate that has just been evaluated changes nothing. */
  lemma CalculateOutputIdempotent(g: Gate)
    requires CalculateOutput(g).Ok?
    ensures CalculateOutput(CalculateOutput(g).value) == CalculateOutput(g)
  {
    var h := CalculateOutput(g).value;
    assert h.outputs["Z" := h.outputs["Z"]] == h.outputs;
  }

  /** An input gate copies port `A` to `Z` without checking how many ports it has. */
  lemma InputRule(name: string, inputs: map<string, bool>)
    ensures "A" in inputs ==> Evaluate(Input(name), inputs) == Ok(inputs["A"])
    ensures "A" !in inputs ==> Evaluate(Input(name), inputs) == Err(MissingPort("A"))
    ensures Evaluate(Input(name), map["A" := true, "B" := false]) == Ok(true)
  {
  }

  /** An AND gate insists on exactly two ports, then reads `A`, and reads `B`
      only when `A` is true. */
  lemma AndRule(a: bool, b: bool, inputs: map<string, bool>)
    ensures |inputs| != 2 ==> Evaluate(And, inputs) == Err(ArityError(2, |inputs|))
    ensures Evaluate(And, map["A" := a, "B" := b]) == Ok(a && b)
    ensures |inputs| == 2 && "A" !in inputs ==> Evaluate(And, inputs) == Err(MissingPort("A"))
    ensures |inputs| == 2 && "A" in inputs && !inputs["A"] ==> Evaluate(And, inputs) == Ok(false)
    ensures |inputs| == 2 && "A" in inputs && inputs["A"] && "B" !in inputs ==>
              Evaluate(And, inputs) == Err(MissingPort("B"))
  {
    var m := map["A" := a, "B" := b];
    assert m.Keys == {"A", "B"};
  }

  /** An OR gate insists on exactly two ports, then reads `A`, and reads `B`
      only when `A` is false. */
  lemma OrRule(a: bool, b: bool, inputs: map<string, bool>)
    ensures |inputs| != 2 ==> Evaluate(Or, inputs) == Err(ArityError(2, |inputs|))
    ensures Evaluate(Or, map["A" := a, "B" := b]) == Ok(a || b)
    ensures |inputs| == 2 && "A" !in inputs ==> Evaluate(Or, inputs) == Err(MissingPort("A"))
    ensures |inputs| == 2 && "A" in inputs && inputs["A"] ==> Evaluate(Or, inputs) == Ok(true)
    ensures |inputs| == 2 && "A" in inputs && !inputs["A"] && "B" !in inputs ==>
              Evaluate(Or, inputs) == Err(MissingPort("B"))
  {
    var m := map["A" := a, "B" := b];
    assert m.Keys == {"A", "B"};
  }

  /** A NOT gate insists on exactly one port and negates `A`. */
  lemma NotRule(a: bool, inputs: map<string, bool>)
    ensures |inputs| != 1 ==> Evaluate(Not, inputs) == Err(ArityError(1, |inputs|))
    ensures Evaluate(Not, map["A" := a]) == Ok(!a)
    ensures |inputs| == 1 && "A" !in inputs ==> Evaluate(Not, inputs) == Err(MissingPort("A"))
  {
  }

  /** An output gate insists on exactly one port and copies `A`. */
  lemma OutputRule(a: bool, inputs: map<string, bool>)
    ensures |inputs| != 1 ==> Evaluate(Output, inputs) == Err(ArityError(1, |inputs|))
    ensures Evaluate(Output, map["A" := a]) == Ok(a)
    ensures |inputs| == 1 && "A" !in inputs ==> Evaluate(Output, inputs) == Err(MissingPort("A"))
  {
  }

  /* ----- Construction ----- */

  /** What every primary constructor produces: the kind's declared ports, all
      false, a single output `Z` that is false, and no wires yet. */
  predicate Fresh(g: Gate) {
    && g.inputs.Keys == PortNames(g.kind)
    && (forall p :: p in g.inputs ==> !g.inputs[p])
    && g.outputs.Keys == {"Z"}
    && !g.outputs["Z"]
    && g.connections == []
  }

  function NewInputGate(x: real, y: real, name: string): (g: Gate)
    ensures Fresh(g) && g.kind == Input(name) && g.x == x && g.y == y
  {
    Gate(Input(name), x, y, map["A" := false], map["Z" := false], [])
  }

  function NewAndGate(x: real, y: real): (g: Gate)
    ensures Fresh(g) && g.kind == And && g.x == x && g.y == y
  {
    Gate(And, x, y, map["A" := false, "B" := false], map["Z" := false], [])
  }

  function NewOrGate(x: real, y: real): (g: Gate)
    ensures Fresh(g) && g.kind == Or && g.x == x && g.y == y
  {
    Gate(Or, x, y, map["A" := false, "B" := false], map["Z" := false], [])
  }

  function NewNotGate(x: real, y: real): (g: Gate)
    ensures Fresh(g) && g.kind == Not && g.x == x && g.y == y
  {
    Gate(Not, x, y, map["A" := false], map["Z" := false], [])
  }

  /** The output gate takes a label but does not keep it. */
  function NewOutputGate(x: real, y: real, name: string): (g: Gate)
    ensures Fresh(g) && g.kind == Output && g.x == x && g.y == y
  {
    Gate(Output, x, y, map["A" := false], map["Z" := false], [])
  }

  /** A freshly built gate of any kind evaluates without error, to its
      kind's function of all-false inputs, and keeps its single output. */
  lemma FreshGateEvaluates(g: Gate)
    requires Fresh(g)
    ensures CalculateOutput(g).Ok?
    ensures CalculateOutput(g).value.outputs == map["Z" := Truth(g.kind, g.inputs)]
    ensures CalculateOutput(g).value.outputs["Z"] == g.kind.Not?
  {
    var o := CalculateOutput(g).value.outputs;
    assert o.Keys == {"Z"};
  }

  /* ----- The n-input constructors ----- */

  const AndLetters: string := "ABCDEFGHIJKLM"
  const OrLetters: string := "ABCDEFGHIJKLMNOPQRSTUV"

  /** Splitting a string on the empty delimiter: an empty piece, then one
      single-character piece per character, then another empty piece. */
  function SplitOnEmpty(s: string): (parts: seq<string>)
    ensures |parts| == |s| + 2
    ensures parts[0] == "" && parts[|s| + 1] == ""
    ensures forall k :: 0 <= k < |s| ==> parts[k + 1] == [s[k]]
  {
    [""] + seq(|s|, k requires 0 <= k < |s| => [s[k]]) + [""]
  }

  /** One single-character name per character, with no empty pieces. */
  function LetterNames(s: string): (names: seq<string>)
    ensures |names| == |s|
    ensures forall k :: 0 <= k < |s| ==> names[k] == [s[k]]
  {
    seq(|s|, k requires 0 <= k < |s| => [s[k]])
  }

  /* Kotlin's `Int`: 32-bit two's complement, wrapping on overflow. */
  const IntMin: int := -0x8000_0000
  const IntMax: int := 0x7fff_ffff

  predicate IsInt(n: int) {
    IntMin <= n <= IntMax
  }

  /** `n - 1` on an `Int`: only the smallest value wraps, to the largest. */
  function Decrement(n: int): (r: int)
    requires IsInt(n)
    ensures IsInt(r)
    ensures n == IntMin ==> r == IntMax
    ensures n != IntMin ==> r == n - 1
  {
    (n - 1 - IntMin) % 0x1_0000_0000 + IntMin
  }

  /**
   The number of passes of the loop `for (i in 0..n)` with `n = nInputs - 1`
   computed on an `Int`: none when the range is empty, and 2^31 when the
   subtraction wraps.
   */
  function Passes(nInputs: int): (k: nat)
    requires IsInt(nInputs)
    ensures nInputs == IntMin ==> k == 0x8000_0000
    ensures IntMin < nInputs <= 0 ==> k == 0
    ensures 0 < nInputs ==> k == nInputs
  {
    var n := Decrement(nInputs);
    if n < 0 then 0 else n + 1
  }

  /**
   The loop `for (i in from..n-1) ports[letters[i]] = value`. It throws as
   soon as `i` runs past the end of `letters`, and then no gate is built.
   */
  function InsertLetters(ports: map<string, bool>, letters: seq<string>, from: nat, n: nat, value: bool)
    : (r: Result<map<string, bool>>)
    requires from <= n && from <= |letters|
    ensures r.Ok? <==> n <= |letters|
    ensures r.Err? ==> r.error == IndexOutOfRange(|letters|)
    ensures r.Ok? ==> forall p :: p in r.value <==> p in ports || p in letters[from..n]
    ensures r.Ok? ==> forall p :: p in r.value ==>
                        r.value[p] == if p in letters[from..n] then value else ports[p]
    decreases n - from
  {
    if from == n then Ok(ports)
    else if from >= |letters| then Err(IndexOutOfRange(from))
    else
      var r := InsertLetters(ports[letters[from] := value], letters, from + 1, n, value);
      assert r.Ok? ==> letters[from..n] == [letters[from]] + letters[from + 1..n];
      r
  }

  /**
   `AndGate(x, y, nInputs)` as written: the letter list comes from splitting
   "ABCDEFGHIJKLM" on the empty string, so its first entry is "" and the loop
   stores `true` under "" and under the first nInputs - 1 letters. For the
   smallest `Int`, `nInputs - 1` wraps to the largest and the loop runs off
   the end of the letters.
   */
  function NewAndGateN(x: real, y: real, nInputs: int): (r: Result<Gate>)
    requires IsInt(nInputs)
    ensures r.Ok? <==> IntMin < nInputs <= |AndLetters| + 2
    ensures r.Err? ==> r.error == IndexOutOfRange(|AndLetters| + 2)
    ensures r.Ok? ==> r.value.kind == And && r.value.x == x && r.value.y == y
    ensures r.Ok? ==> r.value.outputs == map["Z" := false] && r.value.connections == []
    ensures r.Ok? ==> forall p :: p in r.value.inputs <==>
                        p in {"A", "B"} || p in SplitOnEmpty(AndLetters)[..Passes(nInputs)]
    ensures r.Ok? ==> forall p :: p in r.value.inputs ==>
                        (r.value.inputs[p] <==> p in SplitOnEmpty(AndLetters)[..Passes(nInputs)])
  {
    var base := NewAndGate(x, y);
    var ports :- InsertLetters(base.inputs, SplitOnEmpty(AndLetters), 0, Passes(nInputs), true);
    Ok(base.(inputs := ports))
  }

  /** `OrGate(x, y, nInputs)` as written: as for the AND gate, but the stored value is `false`. */
  function NewOrGateN(x: real, y: real, nInputs: int): (r: Result<Gate>)
    requires IsInt(nInputs)
    ensures r.Ok? <==> IntMin < nInputs <= |OrLetters| + 2
    ensures r.Err? ==> r.error == IndexOutOfRange(|OrLetters| + 2)
    ensures r.Ok? ==> r.value.kind == Or && r.value.x == x && r.value.y == y
    ensures r.Ok? ==> r.value.outputs == map["Z" := false] && r.value.connections == []
    ensures r.Ok? ==> forall p :: p in r.value.inputs <==>
                        p in {"A", "B"} || p in SplitOnEmpty(OrLetters)[..Passes(nInputs)]
    ensures r.Ok? ==> forall p :: p in r.value.inputs ==> !r.value.inputs[p]
  {
    var base := NewOrGate(x, y);
    var ports :- InsertLetters(base.inputs, SplitOnEmpty(OrLetters), 0, Passes(nInputs), false);
    Ok(base.(inputs := ports))
  }

  lemma ThreeKeys(m: map<string, bool>)
    requires "" in m && "A" in m && "B" in m
    ensures |m| >= 3
  {
    var three: set<string> := {"", "A", "B"};
    assert three <= m.Keys;
    assert |three| == 3;
    assert m.Keys == three + (m.Keys - three);
    assert |m| == |m.Keys|;
  }

  lemma TwoKeys(m: map<string, bool>)
    requires "A" in m && "B" in m
    ensures |m| >= 2
  {
    var two: set<string> := {"A", "B"};
    assert two <= m.Keys;
    assert |two| == 2;
    assert m.Keys == two + (m.Keys - two);
    assert |m| == |m.Keys|;
  }

  /** The n-input AND constructor never drops below the two ports `A` and
      `B`, and any n of at least one adds the empty-named port, so the gate
      it builds always fails its own arity check. */
  lemma AndGateNCannotEvaluate(x: real, y: real, nInputs: int)
    requires IsInt(nInputs)
    ensures NewAndGateN(x, y, nInputs).Ok? ==> |NewAndGateN(x, y, nInputs).value.inputs| >= 2
    ensures 1 <= nInputs && NewAndGateN(x, y, nInputs).Ok? ==>
              CalculateOutput(NewAndGateN(x, y, nInputs).value).Err?
  {
    var r := NewAndGateN(x, y, nInputs);
    if r.Ok? {
      var m := r.value.inputs;
      TwoKeys(m);
      if 1 <= nInputs {
        assert SplitOnEmpty(AndLetters)[..Passes(nInputs)][0] == "";
        ThreeKeys(m);
      }
    }
  }

  /** The same holds for the n-input OR constructor. */
  lemma OrGateNCannotEvaluate(x: real, y: real, nInputs: int)
    requires IsInt(nInputs)
    ensures NewOrGateN(x, y, nInputs).Ok? ==> |NewOrGateN(x, y, nInputs).value.inputs| >= 2
    ensures 1 <= nInputs && NewOrGateN(x, y, nInputs).Ok? ==>
              CalculateOutput(NewOrGateN(x, y, nInputs).value).Err?
  {
    var s := NewOrGateN(x, y, nInputs);
    if s.Ok? {
      var m := s.value.inputs;
      TwoKeys(m);
      if 1 <= nInputs {
        assert SplitOnEmpty(OrLetters)[..Passes(nInputs)][0] == "";
        ThreeKeys(m);
      }
    }
  }

  /** The two-input AND gate asked for through the n-input constructor is
      built, yet its evaluation throws. */
  lemma AndGateNTwoInputsFails(x: real, y: real)
    ensures NewAndGateN(x, y, 2).Ok?
    ensures CalculateOutput(NewAndGateN(x, y, 2).value) == Err(ArityError(2, 3))
  {
    var m := NewAndGateN(x, y, 2).value.inputs;
    assert SplitOnEmpty(AndLetters)[..2] == ["", "A"];
    assert m.Keys == {"", "A", "B"};
    assert |m| == |m.Keys|;
  }

  /** `AndGate(x, y, nInputs)` with the letter list meant: "A", "B", ... */
  function NewAndGateNIntended(x: real, y: real, nInputs: int): (r: Result<Gate>)
    requires IsInt(nInputs)
    ensures r.Ok? <==> IntMin < nInputs <= |AndLetters|
    ensures r.Ok? ==> r.value.kind == And && r.value.x == x && r.value.y == y
    ensures r.Ok? ==> r.value.outputs == map["Z" := false] && r.value.connections == []
    ensures r.Ok? ==> forall p :: p in r.value.inputs <==>
                        p in {"A", "B"} || p in LetterNames(AndLetters)[..Passes(nInputs)]
    ensures r.Ok? ==> forall p :: p in r.value.inputs ==>
                        (r.value.inputs[p] <==> p in LetterNames(AndLetters)[..Passes(nInputs)])
  {
    var base := NewAndGate(x, y);
    var ports :- InsertLetters(base.inputs, LetterNames(AndLetters), 0, Passes(nInputs), true);
    Ok(base.(inputs := ports))
  }

  /** `OrGate(x, y, nInputs)` with the letter list meant: "A", "B", ... */
  function NewOrGateNIntended(x: real, y: real, nInputs: int): (r: Result<Gate>)
    requires IsInt(nInputs)
    ensures r.Ok? <==> IntMin < nInputs <= |OrLetters|
    ensures r.Ok? ==> r.value.kind == Or && r.value.x == x && r.value.y == y
    ensures r.Ok? ==> r.value.outputs == map["Z" := false] && r.value.connections == []
    ensures r.Ok? ==> forall p :: p in r.value.inputs <==>
                        p in {"A", "B"} || p in LetterNames(OrLetters)[..Passes(nInputs)]
    ensures r.Ok? ==> forall p :: p in r.value.inputs ==> !r.value.inputs[p]
  {
    var base := NewOrGate(x, y);
    var ports :- InsertLetters(base.inputs, LetterNames(OrLetters), 0, Passes(nInputs), false);
    Ok(base.(inputs := ports))
  }

  /** With at most two inputs, the intended loop touches only `A` and `B`,
      `A` exactly when n is at least one and `B` exactly when it is two. */
  lemma IntendedNamesUsed(letters: string, nInputs: int)
    requires |letters| >= 2 && letters[0] == 'A' && letters[1] == 'B' && IntMin < nInputs <= 2
    ensures forall p :: p in LetterNames(letters)[..Passes(nInputs)] ==> p == "A" || p == "B"
    ensures "A" in LetterNames(letters)[..Passes(nInputs)] <==> 1 <= nInputs
    ensures "B" in LetterNames(letters)[..Passes(nInputs)] <==> nInputs == 2
  {
    var names := LetterNames(letters);
    assert names[0] == "A" && names[1] == "B";
    var used := names[..Passes(nInputs)];
    if nInputs <= 0 {
      assert used == [];
    } else if nInputs == 1 {
      assert used == ["A"];
    } else {
      assert used == ["A", "B"];
    }
  }

  /** With the intended letters, up to two inputs keep exactly the ports `A`
      and `B`, so the AND gate evaluates, to true only when both were set. */
  lemma IntendedAndGateEvaluates(x: real, y: real, nInputs: int)
    requires IntMin < nInputs <= 2
    ensures NewAndGateNIntended(x, y, nInputs).Ok?
    ensures CalculateOutput(NewAndGateNIntended(x, y, nInputs).value).Ok?
    ensures CalculateOutput(NewAndGateNIntended(x, y, nInputs).value).value.outputs["Z"] == (nInputs == 2)
  {
    var g := NewAndGateNIntended(x, y, nInputs).value;
    IntendedNamesUsed(AndLetters, nInputs);
    assert g.inputs.Keys == {"A", "B"};
  }

  /** With the intended letters, up to two inputs keep exactly the ports `A`
      and `B`, so the OR gate evaluates, to false as every port is false. */
  lemma IntendedOrGateEvaluates(x: real, y: real, nInputs: int)
    requires IntMin < nInputs <= 2
    ensures NewOrGateNIntended(x, y, nInputs).Ok?
    ensures CalculateOutput(NewOrGateNIntended(x, y, nInputs).value).Ok?
    ensures !CalculateOutput(NewOrGateNIntended(x, y, nInputs).value).value.outputs["Z"]
  {
    var g := NewOrGateNIntended(x, y, nInputs).value;
    IntendedNamesUsed(OrLetters, nInputs);
    assert g.inputs.Keys == {"A", "B"};
  }

  /* ----- Hit-testing ----- */

  /** Whether the point (px, py) lies in the gate's footprint, edges included. */
  function Collides(g: Gate, px: real, py: real): (hit: bool)
    ensures hit <==> 0.0 <= px - g.x <= GateWidth && 0.0 <= py - g.y <= GateHeight
  {
    px >= g.x && px <= g.x + GateWidth && py >= g.y && py <= g.y + GateHeight
  }

  /** The footprint is closed: all four corners hit, and the hit test depends
      only on where the point sits relative to the gate's corner. */
  lemma CollidesClosedBox(g: Gate, dx: real, dy: real)
    ensures Collides(g, g.x, g.y) && Collides(g, g.x + GateWidth, g.y)
    ensures Collides(g, g.x, g.y + GateHeight) && Collides(g, g.x + GateWidth, g.y + GateHeight)
    ensures forall px, py :: Collides(g, px, py) == Collides(g.(x := g.x + dx, y := g.y + dy), px + dx, py + dy)
    ensures forall px, py :: px < g.x || px > g.x + GateWidth ==> !Collides(g, px, py)
  {
  }
}
