# Logic gates: gate evaluation and worklist propagation

A Dafny model of the simulation core of a small Kotlin/JavaFX logic-circuit
toy. The toy has five gate classes: input, AND, OR, NOT and output. Each
holds a name-keyed map of boolean input ports and a one-entry output map
keyed `Z`. A gate's `calculateOutput` checks how many input ports it has
(the input gate excepted) and computes `Z`. Wires (`Connection`s) copy an
output port of one gate into a named input port of another.

Once per animation frame `walkCircuit` propagates values through a FIFO
worklist:

- the worklist is seeded with the input gates, in list order;
- each dequeued gate is evaluated;
- for each of its wires, the target is appended unless it is already pending,
  and the value is then written into the target's port.

`initCircuit` builds a five-gate circuit computing ¬A ∧ B. `pointerClicked`
negates port `A` of the first input gate whose 30 × 30 footprint holds the
click.

Files:

- `gates.dfy` (module `Gates`) covers the gate kinds, their default ports and
  evaluation rules, the n-input constructors, and the hit test.
- `worklist.dfy` (module `Worklist`) covers one dequeue of the worklist, and
  when a gate is settled.
- `propagation.dfy` (module `Propagation`) covers seeding, the whole walk,
  what a walk guarantees, and why a wiring cycle that an input gate reaches
  keeps it from completing.
- `termination.dfy` (module `Termination`) proves that a walk with no wiring
  cycle reachable from an input gate ends within a bound computed from the
  wiring.
- `app.dfy` (module `App`) covers the reference circuit and its walk, the
  pointer click, a wired-back gate that never lets the walk finish, and a
  ring of gates that no input gate reaches.

Modelling choices:

- Gates live in one list and are named by their position. A connection holds
  the target's position.
- Coordinates are `real`.
- `nInputs` is a Kotlin `Int`: a 32-bit integer. The wrap-around of
  `nInputs - 1` at the smallest value is written out.
- A thrown exception becomes an `Err` value (`ArityError`, `MissingPort`,
  `IndexOutOfRange`).
- The walk takes `fuel`, the number of dequeues it may make. It reports
  `Done`, `Failed(error)` or `OutOfFuel`, together with the gates and the order
  in which they were dequeued.

Gates can be evaluated more than once in a single walk. The check before
appending a target (`src/main.kt:45-47`) compares it only against the
pending queue, never against the gates already evaluated. A gate whose
input is written after it was evaluated is therefore queued again and
re-evaluated. As a result:

- With no port driven by two wires, a walk that completes leaves every gate
  it met settled (`Propagation.CompletedWalkIsStable`). A further walk
  changes nothing (`Propagation.CompletedWalkIsIdempotent`).
- A wiring cycle that an input gate reaches keeps the loop running unless
  some gate throws (`Propagation.ReachedLoopNeverCompletes`), even when no
  value on it ever changes (`App.SelfLoopNeverCompletes`). A cycle that no
  input gate reaches is never visited (`Propagation.UnreachedGatesUntouched`,
  `App.UnreachedRingCompletes`).
- Conversely, when no wiring cycle is reachable from an input gate, the walk
  completes or fails once it may make as many dequeues as there are wired
  paths starting at the input gates (`Termination.LoopFreeWalkEnds`).
- When two wires drive the same port, the later writer wins. That result is
  order-dependent, and the model reproduces it: `Worklist.FanoutDelivers`
  guarantees delivery only when no later wire overwrites the port.

## Model

| member | source | states |
|---|---|---|
| Gates.Collides | src/Gates.kt:29-31 | A point hits a gate exactly when it lies within 0 to 30 of the gate's corner on both axes, edges included. |
| Gates.CollidesClosedBox | src/Gates.kt:6-7 | All four corners of the 30 × 30 box hit. Moving gate and point together does not change the answer. A point left or right of the box never hits. |
| Gates.Read | src/Gates.kt:49 | Reading a port succeeds exactly when the key is present, and then gives its value. An absent key is the `MissingPort` error that the `as Boolean` cast throws. |
| Gates.Evaluate | src/Gates.kt:48-146 | The rules of all five `calculateOutput` bodies: input at lines 48-50, AND at 76-81, OR at 99-104, NOT at 122-127, output at 141-146. A kind that checks arity and gets the wrong port count fails with `ArityError(required, actual)`. A missing `A` always fails. With exactly the declared ports, the result is the kind's boolean function. |
| Gates.InputRule | src/Gates.kt:48-50 | An input gate copies `A`, even when it has extra ports. Without `A` it fails. |
| Gates.AndRule | src/Gates.kt:76-81 | The AND gate fails unless it has exactly 2 ports, and otherwise gives A ∧ B on all four rows. A false `A` gives false without reading `B`. A true `A` without `B` fails on `B`. |
| Gates.OrRule | src/Gates.kt:99-104 | The OR gate fails unless it has exactly 2 ports, and otherwise gives A ∨ B. A true `A` gives true without reading `B`. A false `A` without `B` fails on `B`. |
| Gates.NotRule | src/Gates.kt:122-127 | The NOT gate fails unless it has exactly 1 port, and otherwise gives ¬A. With one port that is not `A`, it fails on `A`. |
| Gates.OutputRule | src/Gates.kt:141-146 | The output gate fails unless it has exactly 1 port, and otherwise copies `A`. |
| Gates.CalculateOutput | src/Gates.kt:48-146 | For each of the five `calculateOutput` bodies (lines 48-50, 76-81, 99-104, 122-127 and 141-146), evaluation succeeds exactly when the rule does, and the rule's error is passed on unchanged. On success only `outputs["Z"]` changes: it holds the rule's value. Kind, position, inputs, wires and the other outputs stay as they were. |
| Gates.CalculateOutputKeepsOneOutput | src/Gates.kt:49 | A gate whose only output is `Z` still has exactly one output key after evaluation. |
| Gates.CalculateOutputIdempotent | src/Gates.kt:19 | Evaluating a gate that was just evaluated gives the same gate. |
| Gates.NewInputGate | src/Gates.kt:34-37 | A new input gate has port `A` false, `Z` false and no wires. It keeps its label as its kind. |
| Gates.NewAndGate | src/Gates.kt:53-57 | A new AND gate has ports exactly {A, B}, all false, `Z` false, and no wires. |
| Gates.NewOrGate | src/Gates.kt:84-88 | A new OR gate has ports exactly {A, B}, all false, `Z` false, and no wires. |
| Gates.NewNotGate | src/Gates.kt:107-110 | A new NOT gate has ports exactly {A}, false, `Z` false, and no wires. |
| Gates.NewOutputGate | src/Gates.kt:130-133 | A new output gate has ports exactly {A}, false, `Z` false, and no wires. The label it is given is dropped. |
| Gates.FreshGateEvaluates | src/Gates.kt:35-37 | Every freshly built gate evaluates without error and keeps the single output `Z`. `Z` is true only for a NOT gate. |
| Gates.SplitOnEmpty | src/Gates.kt:60 | Splitting on the empty string gives an empty piece, then one piece per character, then another empty piece. |
| Gates.InsertLetters | src/Gates.kt:62-64 | The loop succeeds exactly when it stays inside the letter list, and otherwise fails at the first index past the end. It only adds keys, and sets the value on exactly the letters it visits. |
| Gates.NewAndGateN | src/Gates.kt:59-65 | The n-input AND constructor, as written, takes a 32-bit `Int` and builds a gate exactly when `Int.MIN_VALUE` < n ≤ 15. For `Int.MIN_VALUE`, `nInputs - 1` wraps to `Int.MAX_VALUE`. Every failure is the index error at position 15. The gate has ports {A, B} plus the first n split pieces. Exactly the inserted ones are true. |
| Gates.NewOrGateN | src/Gates.kt:90-96 | The n-input OR constructor, as written, takes a 32-bit `Int` and builds a gate exactly when `Int.MIN_VALUE` < n ≤ 24. Every failure is the index error at position 24. The gate has ports {A, B} plus the first n split pieces, all false. |
| Gates.AndGateNCannotEvaluate | src/Gates.kt:59-65 | A gate from the n-input AND constructor has at least two ports. For n ≥ 1 its evaluation always fails. |
| Gates.OrGateNCannotEvaluate | src/Gates.kt:90-96 | A gate from the n-input OR constructor has at least two ports. For n ≥ 1 its evaluation always fails. |
| Gates.AndGateNTwoInputsFails | src/Gates.kt:60-63 | `AndGate(x, y, 2)` is built, yet its evaluation fails with `ArityError(2, 3)`: the gate has three ports. |
| Gates.NewAndGateNIntended | src/Gates.kt:59-65 | With the letter list meant, "A", "B", …, construction succeeds exactly when `Int.MIN_VALUE` < n ≤ 13. The ports are {A, B} plus the first n letters, and exactly those letters are true. |
| Gates.NewOrGateNIntended | src/Gates.kt:90-96 | With the letter list meant, construction succeeds exactly when `Int.MIN_VALUE` < n ≤ 22. The ports are {A, B} plus the first n letters, all false. |
| Gates.IntendedAndGateEvaluates | src/Gates.kt:59-65 | With the intended letters and `Int.MIN_VALUE` < n ≤ 2, the AND gate evaluates, and is true exactly when n = 2. |
| Gates.IntendedOrGateEvaluates | src/Gates.kt:90-96 | With the intended letters and `Int.MIN_VALUE` < n ≤ 2, the OR gate evaluates, to false. |
| Worklist.Enqueue | src/main.kt:45-47 | After appending, the queue holds exactly the old entries and the target. |
| Worklist.EnqueueKeepsOrderAndNoDup | src/main.kt:45-47 | Appending keeps the old queue as a prefix, does nothing when the target is already pending, and never creates a repeat. |
| Worklist.Fanout | src/main.kt:44-49 | Pushing values down the wires changes only port values. It fails exactly when some wire names an output the gate lacks. Every queued position is a gate. |
| Worklist.FanoutHaltsAtFirstMissing | src/main.kt:44-48 | A fan-out that fails does so at the first wire whose output port the gate lacks, with `MissingPort` for that port. The wires before it all found their port. |
| Worklist.PendingAfter | src/main.kt:44-47 | The queue after the wires, up to the first missing output, keeps the old queue in front. It adds only wire targets, and never a repeat. When every output is present, every target is in it. |
| Worklist.FanoutPending | src/main.kt:44-49 | A fan-out that does not fail leaves exactly that queue: the port writes do not affect what is queued. |
| Worklist.WritePortWrites | src/main.kt:48 | Writing a port adds or overwrites that one port of the target gate with the value. Every other port, the outputs, the wiring and every other gate stay as they were. |
| Worklist.FanoutQueue | src/main.kt:44-47 | After the wires, the queue is the old queue followed by new targets. Every target is pending, nothing else was added, and a repeat-free queue stays repeat-free. |
| Worklist.FanoutTouchesTargetsOnly | src/main.kt:44-49 | Only the input maps of wire targets change. Outputs, non-target gates and existing port keys survive. |
| Worklist.FanoutFrame | src/main.kt:48 | A port that no wire writes keeps its presence and its value. |
| Worklist.FanoutDelivers | src/main.kt:48 | Each wire leaves the source's output value in the target's port, unless a later wire of the same gate writes that same port. This holds whether or not the target was newly queued. |
| Worklist.FanoutDeliversAll | src/main.kt:44-48 | When no two wires of a gate share a target port, every wire delivers its value. |
| Worklist.Step | src/main.kt:42-49 | One dequeue changes only port values and keeps every queued position a gate. |
| Worklist.StepQueue | src/main.kt:41-49 | After a dequeue, the queue is the rest of the old queue followed by the new targets, and every target of the dequeued gate is pending. The queue never gains a repeat. A gate that throws stops the walk with the gates untouched. |
| Worklist.StepTouches | src/main.kt:42-49 | A dequeue changes no gate other than the dequeued one and its wires' targets. |
| Worklist.StepOnSettled | src/main.kt:42-49 | Dequeuing a settled gate does not fail and changes no gate. |
| Worklist.StepSettlesDequeued | src/main.kt:42-49 | With one driver per port, a dequeued gate that is not queued again is left settled. |
| Worklist.StepKeepsSettled | src/main.kt:42-49 | With one driver per port, another settled gate that the step does not queue stays settled. |
| Worklist.StepKeepsInvariant | src/main.kt:41-50 | One dequeue preserves the walk invariant, with the dequeued gate added to the set already seen. The invariant says: no repeats; every input gate, and every target of a seen gate, is seen or pending; every seen gate that is not pending is settled. |
| Worklist.StepOneWire | src/main.kt:44-48 | A gate with a single wire is evaluated, its target is queued unless pending, and the target's port receives `Z`. |
| Worklist.StepNoWire | src/main.kt:43 | A gate without wires is only evaluated. |
| Propagation.SeedFrom | src/main.kt:40 | The seed holds exactly the input gates from the given position on, in increasing order. |
| Propagation.Seed | src/main.kt:39-40 | The initial worklist holds exactly the input gates, in list order, without repeats. |
| Propagation.SeedDependsOnKindsOnly | src/main.kt:40 | Circuits that differ only in port values seed the same worklist. |
| Propagation.Walk | src/main.kt:41-50 | The walk changes only port values, and makes at most `fuel` dequeues, exactly `fuel` when it runs out. Pending gates are served first and in order. Every dequeued gate was pending or is wired from an earlier one. A gate neither dequeued nor wired from one keeps all its ports. If only settled gates are dequeued, nothing changes and nothing fails. A completed walk from the invariant leaves a stable set. |
| Propagation.WalkRunning | src/main.kt:41-49 | A dequeue that does not fail hands the rest of the walk, with one unit of fuel less, to the state it produced. |
| Propagation.WalkThen | src/main.kt:41-49 | The walk is the first dequeue followed by the walk from that dequeue's result. |
| Propagation.WalkCircuit | src/main.kt:38-51 | `walkCircuit` changes only port values and serves the input gates first, in list order. A completed walk dequeues all of them. |
| Propagation.TraceStaysInside | src/main.kt:41-47 | Starting from a set of gates that no wire leaves, every dequeued gate lies in that set. |
| Propagation.WalkStaysInside | src/main.kt:41-50 | From pending gates inside a set that no wire leaves, the walk dequeues only gates of that set. It leaves every other gate, ports and all, as it was. |
| Propagation.UnreachedGatesUntouched | src/main.kt:38-51 | A gate not reachable by wires from any input gate is never evaluated, and its outputs and inputs keep their values. |
| Propagation.StableWalkChangesNothing | src/main.kt:41-50 | A walk from inside a stable set changes no gate and cannot fail, for any fuel. |
| Propagation.CompletedWalkIsStable | src/main.kt:38-51 | With one driver per port, a completed walk leaves the gates it dequeued stable. That set holds every input gate, no wire leaves it, and each of its gates is settled. |
| Propagation.CompletedWalkIsIdempotent | src/main.kt:38-51 | With one driver per port, a second walk after a completed one changes no gate and does not fail, for any fuel. |
| Propagation.WalkHalts | src/main.kt:43 | A walk whose first dequeued gate throws fails with that error. |
| Propagation.LoopStaysPending | src/main.kt:42-47 | Take a set in which every gate has a wire back into the set. If a gate of it is pending, a gate of it is still pending after a step that does not fail. |
| Propagation.PendingLoopNeverCompletes | src/main.kt:41-50 | Once a gate of such a set is pending, the walk never completes, whatever the fuel. It ends only by a throw or by running out of fuel. |
| Propagation.ReachedLoopNeverCompletes | src/main.kt:38-51 | If an input gate belongs to such a set, `walkCircuit` never completes. This covers every wiring cycle that an input gate reaches. |
| App.Reference | src/main.kt:23-36 | The reference circuit has five gates, every wire ends at one of them, and each gate has the single output `Z`. |
| App.ReferenceDrivers | src/main.kt:29-32 | No input port of the reference circuit is fed by two wires. |
| App.InitCircuit | src/main.kt:23-36 | Building, wiring and setting the inputs of the five default gates gives the reference circuit with A false, B true and every other port false. |
| App.ReferenceSeed | src/main.kt:39-40 | The reference circuit's worklist starts as [input A, input B]. |
| App.ReferenceStep1 | src/main.kt:42-48 | Dequeuing input A copies A into its `Z` and into the NOT gate's port, and queues the NOT gate behind input B. |
| App.ReferenceStep2 | src/main.kt:42-48 | Dequeuing input B copies B into its `Z` and into AND.B, and queues the AND gate. |
| App.ReferenceStep3 | src/main.kt:42-48 | Dequeuing the NOT gate writes the negation into its `Z` and into AND.A. The AND gate is already pending and is not queued twice. |
| App.ReferenceStep4 | src/main.kt:42-48 | Dequeuing the AND gate writes the conjunction into its `Z` and into the output gate, and queues the output gate. |
| App.ReferenceStep5 | src/main.kt:42-48 | Dequeuing the output gate copies its port into `Z`, and the queue is empty. |
| App.ReferenceWalk | src/main.kt:38-51 | From any port values, with at least five dequeues of fuel, the walk dequeues A, B, NOT, AND and output in that order, and completes. Every port downstream then follows the inputs, and the output reads ¬A ∧ B. |
| App.FirstHit | src/main.kt:111-112 | The first hit is an input gate holding the point, with no earlier gate hit. There is no hit exactly when no input gate holds the point. |
| App.Toggle | src/main.kt:113 | Toggling succeeds exactly when port `A` exists. It negates `A` and changes no other port, output, wire or position. |
| App.PointerClicked | src/main.kt:110-117 | With no input gate hit, nothing changes. Otherwise the first hit input gate, in list order, has `A` negated and no other gate changes. A missing `A` fails with `MissingPort("A")`. |
| App.ClickTwiceRestores | src/main.kt:110-117 | Clicking the same point twice gives back the gates it started from. |
| App.ClickReference | src/main.kt:110-117 | Clicking at (60, 60) in the reference circuit negates input A and changes nothing else. |
| App.FirstWalkLightsOutput | src/main.kt:23-51 | The first walk of `initCircuit` completes with the output gate's `Z` true. |
| App.ClickThenWalk | src/main.kt:38-51 | After clicking input A, the next walk completes with the output's `Z` false. Walking again changes nothing and does not fail. |
| App.SelfLoopStep | src/main.kt:44-48 | A gate wired into its own port writes back an unchanged value, yet is queued again. |
| Termination.NoLoopNoDeepInput | src/main.kt:41-47 | If no input gate belongs to a set every gate of which has a wire back into it, then no input gate starts a wired path with as many wires as there are gates. |
| Termination.PendingShallow | src/main.kt:42-47 | If no pending gate starts a path of `d` wires, the queue after the next dequeue has none either, since new entries are targets of the dequeued gate. |
| Termination.PendingLighter | src/main.kt:42-47 | Counting, for each pending gate, the wired paths of at most `d` wires that start at it: when the dequeued gate starts no path of `d` wires, one dequeue lowers the total by at least one. Under that condition the dequeued gate's count is one more than its targets' counts added up, and each wire appends at most one target. A gate wired to itself, which does start such paths, is queued again and leaves the total unchanged. |
| Termination.SelfWiredKeepsWeight | src/main.kt:44-47 | A gate whose `Z` is wired to its own `A` starts a path of one wire. Its dequeue queues it again, so the path total of the queue stays the same. |
| Termination.StepLowersWeight | src/main.kt:42-49 | A dequeue that does not throw keeps the wiring, keeps the pending gates free of long paths, and lowers the path count of the queue. |
| Termination.ShallowWalkEnds | src/main.kt:41-50 | A walk whose pending gates start no path of as many wires as there are gates, given at least their path count in fuel, completes or fails and never runs out of fuel. |
| Termination.LoopFreeWalkEnds | src/main.kt:38-51 | If no wiring cycle is reachable from an input gate, `walkCircuit` completes or throws within `WalkBound(gates)` dequeues, for every larger fuel too. |
| App.SelfLoopRunsOutOfFuel | src/main.kt:41-47 | A walk over the wired-back gate dequeues it on every step and runs out of fuel, whatever the fuel. |
| App.SelfLoopNeverCompletes | src/main.kt:38-51 | `walkCircuit` on that circuit never completes. It makes exactly as many dequeues as it has fuel. |
| App.UnreachedRingCompletes | src/main.kt:38-51 | The ring is a set every gate of which has a wire back into it. Yet with no input gate, `walkCircuit` completes at once, dequeuing nothing and changing nothing. |

## Left out

- Drawing is not modelled: `draw`, `drawConnections`, the `inputPositions` maps, colours and `CONNECTION_WIDTH`. It is rendering only. The OR gate's odd `B` position does not affect the logic.
- The JavaFX application is not modelled: `start`, the toolbar listener, the `AnimationTimer` that walks the circuit each frame, `main` and the `State` enum. These are UI and event wiring. The model takes one walk or one click at a time.
- `moveClicked` and `moveDragged` are not modelled. They assign to `x` and `y`, which are declared `val`, so the handlers as written are rejected by the Kotlin compiler and cannot move a gate.
- Coordinates are exact reals. Floating-point rounding, NaN and infinities are not modelled.
- `HashMap` iteration order is not modelled. Only port membership, count and values are observable.
- Aliasing is not modelled. One gate object listed twice in `gates` has no counterpart, because a position names exactly one gate.
- Wires to gates outside the list are not modelled. `Worklist.WellFormed` requires every wire's target to be a position in `gates`. In Kotlin a `Connection` holds a `Gate` reference, which may name a gate missing from `gates`, and `walkCircuit` would still queue and evaluate that gate.
- Propagation.Walk: the loop in `walkCircuit` does not terminate on a wiring cycle that an input gate reaches, unless some gate throws; the exception from `calculateOutput` then ends it. The model bounds it by `fuel`, and what happens after the fuel is spent is not modelled. Both sides of this are proved separately: `Propagation.ReachedLoopNeverCompletes` for circuits with such a cycle and `Termination.LoopFreeWalkEnds` for circuits without one.
- Gates.SplitOnEmpty: the model assumes `split("")` resolves to the Kotlin standard library's literal `split(vararg delimiters: String)`, under which the empty delimiter matches at both ends of the string as well as between characters. The source pins no Kotlin version, and it calls `linkedListOf`, which predates Kotlin 1.0, so an older overload with other behaviour cannot be ruled out from the text. The two findings below rest on this assumption.
- The exception message strings are not modelled. A failure records only which check failed.

## Findings

| source | as written | input that shows it | evidently intended | confidence | as-written member | corrected member |
|---|---|---|---|---|---|---|
| src/Gates.kt:60 | `"ABCDEFGHIJKLM".split("")` yields an empty first piece, so the loop stores a port named "" before "A". | `AndGate(x, y, 2)` has ports {"", "A", "B"} and every evaluation throws the arity error (2 expected, 3 found). | The letters "A", "B", … themselves, so that a two-input AND gate has ports {A, B}, both true, and evaluates. | high; not executed | Gates.AndGateNTwoInputsFails | Gates.IntendedAndGateEvaluates |
| src/Gates.kt:91 | `"ABCDEFGHIJKLMNOPQRSTUV".split("")` likewise puts "" first. | `OrGate(x, y, 1)` has ports {"", "A", "B"} and every evaluation throws the arity error. | The letters themselves, so that up to two inputs keep the ports {A, B} and the gate evaluates. | high; not executed | Gates.OrGateNCannotEvaluate | Gates.IntendedOrGateEvaluates |
