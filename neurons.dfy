/**
 * The neuron signal graph of a creature's brain: `Signal` slots that
 * neurons write into, the `Neuron` base class's progress and propagation,
 * the per-type input arities and evaluation, and `NeuronFactory`.
 * Floating-point values are modelled as reals.
 */
module Neurons {
  import opened Wrappers
  import opened Text

  datatype SignalState = Cancelled | Consumable

  function SetInputError(length: int, index: int): string {
    "Signal only has " + IntToString(length) + " inputs, but a connection was set for index " +
    IntToString(index) + "."
  }

  /** .NET's exception for a negative array index. */
  const IndexOutOfRange: string := "IndexOutOfRangeException"

  /** `Signal<float>`: one slot per input of the receiving neuron, and
      whether the signal may still be consumed. */
  class Signal {
    const inputs: array<real>
    var state: SignalState

    /** A new signal: `inputCount` slots holding the default 0, consumable. */
    constructor (inputCount: nat)
      ensures fresh(inputs) && inputs.Length == inputCount
      ensures forall i :: 0 <= i < inputCount ==> inputs[i] == 0.0
      ensures state == Consumable
    {
      inputs := new real[inputCount](_ => 0.0);
      state := Consumable;
    }

    /** `SetInput`: an index past the end throws the signal's own message, a
        negative one the runtime's; otherwise exactly that slot changes. The
        state never does. */
    method SetInput(input: real, index: int) returns (err: Option<string>)
      modifies inputs
      ensures err.None? <==> 0 <= index < inputs.Length
      ensures index >= inputs.Length ==> err == Some(SetInputError(inputs.Length, index))
      ensures index < 0 ==> err == Some(IndexOutOfRange)
      ensures err.None? ==> inputs[..] == old(inputs[..])[index := input]
      ensures err.Some? ==> inputs[..] == old(inputs[..])
      ensures state == old(state)
    {
      if index >= inputs.Length {
        return Some(SetInputError(inputs.Length, index));
      }
      if index < 0 {
        return Some(IndexOutOfRange);
      }
      inputs[index] := input;
      err := None;
    }

    /** `Cancel`: the state becomes cancelled whatever it was, so a second
        call changes nothing; the slots are untouched. */
    method Cancel()
      modifies this
      ensures state == Cancelled
    {
      state := Cancelled;
    }
  }

  datatype NeuronType =
    | Sum | Product | Divide | SumThreshold | GreaterThan | SignOf | Min | Max | Abs | If
    | Interpolate | Sin | Cos | ATan | Log | Exponent | Sigmoid | Integrate | Differentiate
    | Smooth | Memory | OscillateWave | OscillateSaw | DotProductVec3 | DotProductVec2
    | InterpolateAngle | InterpolateUnclamped | Negate | IsNan | Debug
      /** A value cast to the enum that names none of its members. */
    | Undefined(code: UndefinedCode)

  /** The enum's members are numbered 0 to 28, with `DEBUG` at -1; every other
      value names none of them. */
  type UndefinedCode = c: int | c < -1 || 28 < c witness -2

  /** The types a neuron class exists for. */
  predicate HasClass(t: NeuronType) {
    !t.Undefined?
  }

  /** The number of inputs each neuron class declares: single-, double- and
      triple-input neurons, `IfNeuron` and the two dot products. A debug
      neuron is given its count when constructed. */
  function Arity(t: NeuronType): (n: nat)
    requires HasClass(t) && t != Debug
    ensures 1 <= n <= 6
  {
    match t
    case SignOf | Abs | Sin | Cos | ATan | Sigmoid | Integrate | Differentiate | Smooth | Memory
       | OscillateWave | OscillateSaw | Negate | IsNan => 1
    case Sum | Product | Divide | GreaterThan | Min | Max | Log | Exponent | If => 2
    case SumThreshold | Interpolate | InterpolateAngle | InterpolateUnclamped => 3
    case DotProductVec3 => 6
    case DotProductVec2 => 4
  }

  /** The inputs an evaluation reads: the arity, and the first input for a
      debug neuron. */
  function Needed(t: NeuronType): nat
    requires HasClass(t)
  {
    if t == Debug then 1 else Arity(t)
  }

  function MinReal(x: real, y: real): real {
    if x <= y then x else y
  }

  /** The value an always-evaluating neuron sends. The arithmetic operations
      are written out; the others (division, the transcendental, stateful,
      interpolating and NaN-testing neurons) are computed in floating point
      and enter as `other`. */
  function LeafValue(t: NeuronType, ins: seq<real>, other: real): real
    requires HasClass(t) && t != Debug && t != If && |ins| >= Arity(t)
  {
    match t
    case Sum => ins[0] + ins[1]
    case Product => ins[0] * ins[1]
    case SumThreshold => MinReal(ins[0] + ins[1], ins[2])
    case GreaterThan => if ins[0] > ins[1] then 1.0 else 0.0
    case SignOf => if ins[0] > 0.0 then 1.0 else if ins[0] < 0.0 then -1.0 else 0.0
    case Min => MinReal(ins[0], ins[1])
    case Max => if ins[0] >= ins[1] then ins[0] else ins[1]
    case Abs => if ins[0] < 0.0 then -ins[0] else ins[0]
    case Negate => -ins[0]
    case DotProductVec3 => ins[0] * ins[3] + ins[1] * ins[4] + ins[2] * ins[5]
    case DotProductVec2 => ins[0] * ins[2] + ins[1] * ins[3]
    case _ => other
  }

  /** `EvaluationFunction`: whether to send, and what. `IfNeuron` sends its
      second input when its first is non-zero; a debug neuron sends its first
      input; every other neuron always sends its operation's value. */
  function Evaluation(t: NeuronType, ins: seq<real>, other: real): (bool, real)
    requires HasClass(t) && |ins| >= Needed(t)
  {
    if t == If then (ins[0] != 0.0, ins[1])
    else if t == Debug then (true, ins[0])
    else (true, LeafValue(t, ins, other))
  }

  /** Only an `IfNeuron` with a zero condition declines to send; when it
      sends, it sends its second input. */
  lemma OnlyIfDeclines(t: NeuronType, ins: seq<real>, other: real)
    requires HasClass(t) && |ins| >= Needed(t)
    ensures !Evaluation(t, ins, other).0 <==> t == If && ins[0] == 0.0
    ensures t == If ==> Evaluation(t, ins, other).1 == ins[1]
  {
  }

  /** An out-connection: the receiving neuron and the slot it feeds. */
  type Connection = (Neuron, int)

  /** The signals the connections currently feed: each receiver's next signal. */
  ghost function Targets(conns: seq<Connection>): set<Signal>
    reads set j | 0 <= j < |conns| :: conns[j].0
  {
    set j | 0 <= j < |conns| :: conns[j].0.nextSignal
  }

  ghost function TargetArrays(conns: seq<Connection>): set<array<real>>
    reads set j | 0 <= j < |conns| :: conns[j].0
  {
    set j | 0 <= j < |conns| :: conns[j].0.nextSignal.inputs
  }

  /** The signal each connection currently feeds, in connection order. */
  ghost function FedSignals(conns: seq<Connection>): (sigs: seq<Signal>)
    reads set j | 0 <= j < |conns| :: conns[j].0
    ensures Feeds(conns, sigs)
  {
    seq(|conns|, j requires 0 <= j < |conns| reads if 0 <= j < |conns| then {conns[j].0} else {} =>
      conns[j].0.nextSignal)
  }

  /** `sigs` lists, connection by connection, the signal it currently feeds. */
  ghost predicate Feeds(conns: seq<Connection>, sigs: seq<Signal>)
    reads set j | 0 <= j < |conns| :: conns[j].0
  {
    |sigs| == |conns| && forall j :: 0 <= j < |conns| ==> sigs[j] == conns[j].0.nextSignal
  }

  /** The slots the first `n` connections write. */
  ghost function Slots(sigs: seq<Signal>, conns: seq<Connection>, n: nat): set<(array<real>, int)>
    requires n <= |conns| == |sigs|
  {
    set j | 0 <= j < n :: (sigs[j].inputs, conns[j].1)
  }

  /** The cancelling loop of `Evaluate`: every receiver's current signal is
      cancelled. */
  method CancelAll(conns: seq<Connection>)
    modifies Targets(conns)
    ensures forall j :: 0 <= j < |conns| ==> conns[j].0.nextSignal.state == Cancelled
  {
    var i := 0;
    while i < |conns|
      invariant 0 <= i <= |conns|
      invariant forall j :: 0 <= j < i ==> conns[j].0.nextSignal.state == Cancelled
    {
      conns[i].0.nextSignal.Cancel();
      i := i + 1;
    }
  }

  /** The sending loop of `Evaluate`: each connection's slot receives the
      value, in order, until a slot is out of range and `SetInput` throws.
      Every slot that changes is one a connection feeds, and holds the value. */
  method Broadcast(conns: seq<Connection>, value: real, ghost sigs: seq<Signal>) returns (err: Option<string>)
    requires Feeds(conns, sigs)
    modifies set s | s in sigs :: s.inputs
    ensures err.None? <==> forall j :: 0 <= j < |conns| ==> 0 <= conns[j].1 < sigs[j].inputs.Length
    ensures err.None? ==> forall j :: 0 <= j < |conns| ==> sigs[j].inputs[conns[j].1] == value
    ensures err.Some? ==>
      exists k :: 0 <= k < |conns| && !(0 <= conns[k].1 < sigs[k].inputs.Length) &&
        forall j :: 0 <= j < k ==> 0 <= conns[j].1 < sigs[j].inputs.Length && sigs[j].inputs[conns[j].1] == value
    ensures forall s, k :: s in sigs && 0 <= k < s.inputs.Length ==>
      s.inputs[k] == old(s.inputs[k]) || ((s.inputs, k) in Slots(sigs, conns, |conns|) && s.inputs[k] == value)
  {
    var i := 0;
    while i < |conns|
      invariant 0 <= i <= |conns|
      invariant Feeds(conns, sigs)
      invariant forall j :: 0 <= j < i ==> 0 <= conns[j].1 < sigs[j].inputs.Length && sigs[j].inputs[conns[j].1] == value
      invariant forall s, k :: s in sigs && 0 <= k < s.inputs.Length ==>
        s.inputs[k] == old(s.inputs[k]) || ((s.inputs, k) in Slots(sigs, conns, i) && s.inputs[k] == value)
    {
      var target := conns[i].0.nextSignal;
      err := target.SetInput(value, conns[i].1);
      if err.Some? {
        assert !(0 <= conns[i].1 < sigs[i].inputs.Length);
        return;
      }
      assert Slots(sigs, conns, i + 1) == Slots(sigs, conns, i) + {(target.inputs, conns[i].1)};
      i := i + 1;
    }
    err := None;
  }

  /** `Neuron`: its type, the signal being filled for the next step, the
      signal filled in the last step, and where it sends its output. */
  class Neuron {
    const neuronType: NeuronType
    var nextSignal: Signal
    var lastSignal: Signal?
    var outConnections: seq<Connection>

    /** `InputCount`: the slots of the next signal. */
    function InputCount(): nat
      reads this
    {
      nextSignal.inputs.Length
    }

    /** The neuron's invariant: its signals are distinct, of the same size,
        and sized by its type. */
    ghost predicate Valid()
      reads this
    {
      HasClass(neuronType) &&
      (neuronType != Debug ==> InputCount() == Arity(neuronType)) &&
      (lastSignal != null ==> lastSignal != nextSignal && lastSignal.inputs.Length == InputCount())
    }

    constructor (t: NeuronType, inputCount: nat)
      requires HasClass(t) && (t != Debug ==> inputCount == Arity(t))
      ensures Valid()
      ensures neuronType == t && InputCount() == inputCount
      ensures fresh(nextSignal) && fresh(nextSignal.inputs) && nextSignal.state == Consumable
      ensures forall i :: 0 <= i < inputCount ==> nextSignal.inputs[i] == 0.0
      ensures lastSignal == null && outConnections == []
    {
      neuronType := t;
      nextSignal := new Signal(inputCount);
      lastSignal := null;
      outConnections := [];
    }

    /** `SetOutConnection`: one more connection, at the end. */
    method SetOutConnection(toSet: Neuron, index: int)
      modifies this
      ensures outConnections == old(outConnections) + [(toSet, index)]
      ensures nextSignal == old(nextSignal) && lastSignal == old(lastSignal)
    {
      outConnections := outConnections + [(toSet, index)];
    }

    /** `AddOutConnections`: the given connections, at the end, in order. */
    method AddOutConnections(connections: seq<Connection>)
      modifies this
      ensures outConnections == old(outConnections) + connections
      ensures nextSignal == old(nextSignal) && lastSignal == old(lastSignal)
    {
      outConnections := outConnections + connections;
    }

    /** `Progress`: the signal filled so far becomes the last signal, and a
        fresh consumable one of the same size takes its place. */
    method Progress()
      requires Valid()
      modifies this
      ensures Valid()
      ensures lastSignal == old(nextSignal) && InputCount() == old(InputCount())
      ensures fresh(nextSignal) && fresh(nextSignal.inputs) && nextSignal.state == Consumable
      ensures forall i :: 0 <= i < InputCount() ==> nextSignal.inputs[i] == 0.0
      ensures outConnections == old(outConnections)
    {
      lastSignal := nextSignal;
      nextSignal := new Signal(lastSignal.inputs.Length);
    }

    /** `Evaluate`, with `other` standing for the floating-point value of the
        operations the model does not compute. Before the first `Progress`
        there is no last signal to read. A cancelled last signal sends
        nothing; a declined evaluation cancels every receiver's signal and
        sets no input; otherwise every receiver's slot gets the value. */
    method Evaluate(other: real) returns (err: Option<string>)
      requires Valid()
      modifies Targets(outConnections), TargetArrays(outConnections)
      ensures old(lastSignal) == null ==> err == Some("NullReferenceException")
      ensures old(lastSignal) == null || old(lastSignal.state) == Cancelled ==>
        (err.None? || old(lastSignal) == null) &&
        unchanged(Targets(outConnections)) && unchanged(TargetArrays(outConnections))
      ensures old(lastSignal) != null && old(lastSignal.state) == Consumable &&
              old(lastSignal.inputs.Length) < Needed(neuronType) ==>
        err == Some(IndexOutOfRange) &&
        unchanged(Targets(outConnections)) && unchanged(TargetArrays(outConnections))
      ensures old(lastSignal) != null && old(lastSignal.state) == Consumable &&
              old(lastSignal.inputs.Length) >= Needed(neuronType) ==>
        var (evaluated, value) := Evaluation(neuronType, old(lastSignal.inputs[..]), other);
        var sigs := FedSignals(outConnections);
        (!evaluated ==>
          err.None? &&
          (forall j :: 0 <= j < |sigs| ==> sigs[j].state == Cancelled) &&
          unchanged(TargetArrays(outConnections))) &&
        (evaluated ==>
          (err.None? <==> forall j :: 0 <= j < |sigs| ==> 0 <= outConnections[j].1 < sigs[j].inputs.Length) &&
          (err.None? ==> forall j :: 0 <= j < |sigs| ==> sigs[j].inputs[outConnections[j].1] == value) &&
          (forall s, k :: s in sigs && 0 <= k < s.inputs.Length ==>
            s.inputs[k] == old(s.inputs[k]) ||
            ((s.inputs, k) in Slots(sigs, outConnections, |sigs|) && s.inputs[k] == value)) &&
          unchanged(Targets(outConnections)))
    {
      if lastSignal == null {
        return Some("NullReferenceException");
      }
      if lastSignal.state == Cancelled {
        return None;
      }
      var ins := lastSignal.inputs[..];
      if |ins| < Needed(neuronType) {
        return Some(IndexOutOfRange);
      }
      var (evaluated, value) := Evaluation(neuronType, ins, other);
      err := Propagate(evaluated, value);
    }

    /** The end of `Evaluate`: a declined evaluation cancels every receiver's
        signal and sets no input; otherwise every receiver's slot gets the
        value. */
    method Propagate(evaluated: bool, value: real) returns (err: Option<string>)
      requires Valid()
      modifies Targets(outConnections), TargetArrays(outConnections)
      ensures var sigs := FedSignals(outConnections);
        (!evaluated ==>
          err.None? &&
          (forall j :: 0 <= j < |sigs| ==> sigs[j].state == Cancelled) &&
          unchanged(TargetArrays(outConnections))) &&
        (evaluated ==>
          (err.None? <==> forall j :: 0 <= j < |sigs| ==> 0 <= outConnections[j].1 < sigs[j].inputs.Length) &&
          (err.None? ==> forall j :: 0 <= j < |sigs| ==> sigs[j].inputs[outConnections[j].1] == value) &&
          (forall s, k :: s in sigs && 0 <= k < s.inputs.Length ==>
            s.inputs[k] == old(s.inputs[k]) ||
            ((s.inputs, k) in Slots(sigs, outConnections, |sigs|) && s.inputs[k] == value)) &&
          unchanged(Targets(outConnections)))
    {
      ghost var sigs := FedSignals(outConnections);
      if !evaluated {
        CancelAll(outConnections);
        return None;
      }
      err := Broadcast(outConnections, value, sigs);
    }
  }

  /** How the enum prints: its member's name, or the number for a value
      that names none. */
  function TypeName(t: NeuronType): string {
    match t
    case Sum => "SUM"
    case Product => "PRODUCT"
    case Divide => "DIVIDE"
    case SumThreshold => "SUM_THRESHOLD"
    case GreaterThan => "GREATER_THAN"
    case SignOf => "SIGN_OF"
    case Min => "MIN"
    case Max => "MAX"
    case Abs => "ABS"
    case If => "IF"
    case Interpolate => "INTERPOLATE"
    case Sin => "SIN"
    case Cos => "COS"
    case ATan => "ATAN"
    case Log => "LOG"
    case Exponent => "EXPONENT"
    case Sigmoid => "SIGMOID"
    case Integrate => "INTEGRATE"
    case Differentiate => "DIFFERENTIATE"
    case Smooth => "SMOOTH"
    case Memory => "MEMORY"
    case OscillateWave => "OSCIALLATE_WAVE"
    case OscillateSaw => "OSCIALLATE_SAW"
    case DotProductVec3 => "DOT_PRODUCT_VEC3"
    case DotProductVec2 => "DOT_PRODUCT_VEC2"
    case InterpolateAngle => "INTERPOLATE_ANGLE"
    case InterpolateUnclamped => "INTERPOLATE_UNCLAMPED"
    case Negate => "NEGATE"
    case IsNan => "IS_NAN"
    case Debug => "DEBUG"
    case Undefined(code) => IntToString(code)
  }

  /** `NeuronFactory.Instantiate`: a new neuron of the requested type with
      its class's arity; a debug neuron or an undefined type cannot be made
      this way. */
  method Instantiate(t: NeuronType) returns (r: Result<Neuron, string>)
    ensures r.Success? <==> HasClass(t) && t != Debug
    ensures r.Failure? ==> r.error == "Could not recognize neuron type " + TypeName(t) + "."
    ensures r.Success? ==>
      fresh(r.value) && r.value.Valid() && r.value.neuronType == t &&
      r.value.InputCount() == Arity(t) && r.value.lastSignal == null && r.value.outConnections == [] &&
      r.value.nextSignal.state == Consumable
  {
    if t == Debug || t.Undefined? {
      return Failure("Could not recognize neuron type " + TypeName(t) + ".");
    }
    var n := new Neuron(t, Arity(t));
    return Success(n);
  }
}
