/**
 * The backend's circuit construction (backend/app/services/simulator.py):
 * `build_qiskit_circuit` as a map from the gate list to the list of
 * `QuantumCircuit` method calls it makes, `_pauli_string`, and the choice of
 * error channels in `build_noise_model`. The Qiskit objects themselves are
 * not modelled: a circuit is its register sizes and its instruction list, a
 * noise model the list of errors added to it.
 */
module Simulator {
  import opened Wrappers
  import opened Text
  import opened CircuitStore
  import opened GateOrder

  // ---------------------------------------------------------------------------
  // build_qiskit_circuit

  /** One call on the `QuantumCircuit`. */
  datatype Instr =
    | Named(op: string, q: int)                      // getattr(qc, name.lower())(q): x, y, z, h, s, t
    | RX(theta: real, q: int)
    | RY(theta: real, q: int)
    | RZ(theta: real, q: int)
    | U(theta: real, phi: real, lam: real, q: int)
    | CX(c: int, t: int)
    | CZ(c: int, t: int)
    | Swap(a: int, b: int)
    | CCX(c1: int, c2: int, t: int)
    | Measure(q: int, clbit: int)
    | Reset(q: int)
    | Barrier
    | P(phase: real, q: int)
    | CRX(theta: real, c: int, t: int)
    | CRY(theta: real, c: int, t: int)
    | CRZ(theta: real, c: int, t: int)

  /** `QuantumCircuit(num_qubits, num_qubits)` after the calls in `instrs`. */
  datatype QuantumCircuit = QuantumCircuit(numQubits: int, numClbits: int, instrs: seq<Instr>)

  /** The call a `for t in targets` loop makes for target `t`. */
  datatype PerTarget =
    | NamedOn(op: string)
    | RXOn(theta: real)
    | RYOn(theta: real)
    | RZOn(theta: real)
    | UOn(theta: real, phi: real, lam: real)
    | MeasureOn
    | ResetOn
    | POn(phase: real)

  function At(p: PerTarget, t: int): Instr {
    match p
    case NamedOn(op) => Named(op, t)
    case RXOn(theta) => RX(theta, t)
    case RYOn(theta) => RY(theta, t)
    case RZOn(theta) => RZ(theta, t)
    case UOn(theta, phi, lam) => U(theta, phi, lam, t)
    case MeasureOn => Measure(t, t)
    case ResetOn => Reset(t)
    case POn(phase) => P(phase, t)
  }

  /** The call the nested `for ctrl in controls: for t in targets` loop makes. */
  datatype PerPair = CXOn | CZOn | CRXOn(theta: real) | CRYOn(theta: real) | CRZOn(theta: real)

  function PairAt(k: PerPair, c: int, t: int): Instr {
    match k
    case CXOn => CX(c, t)
    case CZOn => CZ(c, t)
    case CRXOn(theta) => CRX(theta, c, t)
    case CRYOn(theta) => CRY(theta, c, t)
    case CRZOn(theta) => CRZ(theta, c, t)
  }

  /** One call per target, in target order. */
  function Each(p: PerTarget, targets: seq<int>): seq<Instr> {
    if targets == [] then []
    else Each(p, targets[..|targets| - 1]) + [At(p, targets[|targets| - 1])]
  }

  /** One target row per control, in control order. */
  function Pairs(k: PerPair, controls: seq<int>, targets: seq<int>): seq<Instr> {
    if controls == [] then []
    else Pairs(k, controls[..|controls| - 1], targets) + Row(k, controls[|controls| - 1], targets)
  }

  /** The calls for one control, one per target in target order. */
  function Row(k: PerPair, c: int, targets: seq<int>): seq<Instr> {
    if targets == [] then []
    else Row(k, c, targets[..|targets| - 1]) + [PairAt(k, c, targets[|targets| - 1])]
  }

  /** The branch of the `if`/`elif` chain a gate takes. */
  datatype Kind =
    | SingleQubit | RXGate | RYGate | RZGate | UGate | CXGate | CZGate | SwapGate | CCXGate
    | MeasureGate | ResetGate | BarrierGate | PhaseGate | U1Gate | U2Gate | CRXGate | CRYGate | CRZGate
    | Unrecognised

  const SingleQubitNames := {"X", "Y", "Z", "H", "S", "T"}

  /** The branch taken for an upper-cased name, in the order of the if/elif chain of build_qiskit_circuit. */
  function Classify(name: string): Kind {
    if name in SingleQubitNames then SingleQubit
    else if name == "RX" then RXGate
    else if name == "RY" then RYGate
    else if name == "RZ" then RZGate
    else if name in {"U", "U3"} then UGate
    else if name in {"CX", "CNOT"} then CXGate
    else if name == "CZ" then CZGate
    else if name == "SWAP" then SwapGate
    else if name in {"CCX", "TOFFOLI"} then CCXGate
    else if name == "MEASURE" then MeasureGate
    else if name == "RESET" then ResetGate
    else if name == "BARRIER" then BarrierGate
    else if name in {"P", "PHASE"} then PhaseGate
    else if name == "U1" then U1Gate
    else if name == "U2" then U2Gate
    else if name == "CRX" then CRXGate
    else if name == "CRY" then CRYGate
    else if name == "CRZ" then CRZGate
    else Unrecognised
  }

  /** `params[i] if len(params) > i else 0.0` */
  function ParamOr0(params: seq<real>, i: nat): real {
    if |params| > i then params[i] else 0.0
  }

  /** The calls one gate makes; `pi` is `np.pi`. */
  function GateInstrs(g: Gate, pi: real): seq<Instr> {
    var targets := g.targets;
    var controls := g.controls;
    var params := g.params;
    var theta := FirstParamOr0(params);
    if |targets| == 0 then []
    else
      match Classify(Upper(g.name))
      case SingleQubit => Each(NamedOn(Lower(g.name)), targets)
      case RXGate => Each(RXOn(theta), targets)
      case RYGate => Each(RYOn(theta), targets)
      case RZGate => Each(RZOn(theta), targets)
      case UGate =>
        var padded := (params + [0.0, 0.0, 0.0])[..3];
        Each(UOn(padded[0], padded[1], padded[2]), targets)
      case CXGate => Pairs(CXOn, controls, targets)
      case CZGate => Pairs(CZOn, controls, targets)
      case SwapGate => if |targets| >= 2 then [Swap(targets[0], targets[1])] else []
      case CCXGate =>
        if |controls| >= 2 && |targets| >= 1 then [CCX(controls[0], controls[1], targets[0])] else []
      case MeasureGate => Each(MeasureOn, targets)
      case ResetGate => Each(ResetOn, targets)
      case BarrierGate => [Barrier]
      case PhaseGate => Each(POn(theta), targets)
      case U1Gate => Each(POn(theta), targets)
      case U2Gate => Each(UOn(pi / 2.0, ParamOr0(params, 0), ParamOr0(params, 1)), targets)
      case CRXGate => Pairs(CRXOn(theta), controls, targets)
      case CRYGate => Pairs(CRYOn(theta), controls, targets)
      case CRZGate => Pairs(CRZOn(theta), controls, targets)
      case Unrecognised => []
  }

  /** The calls of the gates, one gate after another. */
  function BodyInstrs(gs: seq<Gate>, pi: real): seq<Instr> {
    if gs == [] then []
    else BodyInstrs(gs[..|gs| - 1], pi) + GateInstrs(gs[|gs| - 1], pi)
  }

  /** What `build_qiskit_circuit` returns. */
  function Build(numQubits: int, gates: seq<Gate>, pi: real): QuantumCircuit {
    QuantumCircuit(numQubits, numQubits, BodyInstrs(SortByStep(gates), pi))
  }

  lemma EachSnoc(p: PerTarget, targets: seq<int>, i: nat)
    requires i < |targets|
    ensures Each(p, targets[..i + 1]) == Each(p, targets[..i]) + [At(p, targets[i])]
  {
    assert targets[..i + 1][..i] == targets[..i];
  }

  lemma RowSnoc(k: PerPair, c: int, targets: seq<int>, i: nat)
    requires i < |targets|
    ensures Row(k, c, targets[..i + 1]) == Row(k, c, targets[..i]) + [PairAt(k, c, targets[i])]
  {
    assert targets[..i + 1][..i] == targets[..i];
  }

  lemma PairsSnoc(k: PerPair, controls: seq<int>, targets: seq<int>, i: nat)
    requires i < |controls|
    ensures Pairs(k, controls[..i + 1], targets) == Pairs(k, controls[..i], targets) + Row(k, controls[i], targets)
  {
    assert controls[..i + 1][..i] == controls[..i];
  }

  /** Appending control i's row to the calls for the controls before it. */
  lemma PairsStep(qc: seq<Instr>, out: seq<Instr>, k: PerPair, controls: seq<int>, targets: seq<int>, i: nat)
    requires i < |controls|
    requires out == qc + Pairs(k, controls[..i], targets)
    ensures out + Row(k, controls[i], targets) == qc + Pairs(k, controls[..i + 1], targets)
  {
    var done, row := Pairs(k, controls[..i], targets), Row(k, controls[i], targets);
    PairsSnoc(k, controls, targets, i);
    assert qc + done + row == qc + (done + row);
  }

  lemma BodySnoc(gs: seq<Gate>, i: nat, pi: real)
    requires i < |gs|
    ensures BodyInstrs(gs[..i + 1], pi) == BodyInstrs(gs[..i], pi) + GateInstrs(gs[i], pi)
  {
    assert gs[..i + 1][..i] == gs[..i];
  }

  /** `for t in targets: qc.<op>(..., t)` */
  method EmitEach(qc: seq<Instr>, p: PerTarget, targets: seq<int>) returns (out: seq<Instr>)
    ensures out == qc + Each(p, targets)
  {
    out := qc;
    for i := 0 to |targets|
      invariant out == qc + Each(p, targets[..i])
    {
      EachSnoc(p, targets, i);
      out := out + [At(p, targets[i])];
    }
    assert targets[..|targets|] == targets;
  }

  /** `for ctrl in controls: for t in targets: qc.<op>(..., ctrl, t)` */
  method EmitPairs(qc: seq<Instr>, k: PerPair, controls: seq<int>, targets: seq<int>) returns (out: seq<Instr>)
    ensures out == qc + Pairs(k, controls, targets)
  {
    out := qc;
    for i := 0 to |controls|
      invariant out == qc + Pairs(k, controls[..i], targets)
    {
      PairsStep(qc, out, k, controls, targets, i);
      out := EmitRow(out, k, controls[i], targets);
    }
    assert controls[..|controls|] == controls;
  }

  /** `for t in targets: qc.<op>(..., ctrl, t)` */
  method EmitRow(qc: seq<Instr>, k: PerPair, ctrl: int, targets: seq<int>) returns (out: seq<Instr>)
    ensures out == qc + Row(k, ctrl, targets)
  {
    out := qc;
    for j := 0 to |targets|
      invariant out == qc + Row(k, ctrl, targets[..j])
    {
      RowSnoc(k, ctrl, targets, j);
      out := out + [PairAt(k, ctrl, targets[j])];
    }
    assert targets[..|targets|] == targets;
  }

  /** One pass of the loop: the `if`/`elif` chain for one gate. */
  method EmitGate(qc: seq<Instr>, g: Gate, pi: real) returns (out: seq<Instr>)
    ensures out == qc + GateInstrs(g, pi)
  {
    var targets := g.targets;
    var controls := g.controls;
    var params := g.params;
    if |targets| == 0 {
      return qc;
    }
    var theta := if |params| > 0 then params[0] else 0.0;
    match Classify(Upper(g.name))
    case SingleQubit =>
      out := EmitEach(qc, NamedOn(Lower(g.name)), targets);
    case RXGate =>
      out := EmitEach(qc, RXOn(theta), targets);
    case RYGate =>
      out := EmitEach(qc, RYOn(theta), targets);
    case RZGate =>
      out := EmitEach(qc, RZOn(theta), targets);
    case UGate =>
      var padded := (params + [0.0, 0.0, 0.0])[..3];
      var th, ph, lm := padded[0], padded[1], padded[2];
      out := EmitEach(qc, UOn(th, ph, lm), targets);
    case CXGate =>
      out := EmitPairs(qc, CXOn, controls, targets);
    case CZGate =>
      out := EmitPairs(qc, CZOn, controls, targets);
    case SwapGate =>
      out := qc;
      if |targets| >= 2 {
        out := qc + [Swap(targets[0], targets[1])];
      }
    case CCXGate =>
      out := qc;
      if |controls| >= 2 && |targets| >= 1 {
        out := qc + [CCX(controls[0], controls[1], targets[0])];
      }
    case MeasureGate =>
      out := EmitEach(qc, MeasureOn, targets);
    case ResetGate =>
      out := EmitEach(qc, ResetOn, targets);
    case BarrierGate =>
      out := qc + [Barrier];
    case PhaseGate =>
      out := EmitEach(qc, POn(theta), targets);
    case U1Gate =>
      out := EmitEach(qc, POn(theta), targets);
    case U2Gate =>
      var phi := if |params| > 0 then params[0] else 0.0;
      var lam := if |params| > 1 then params[1] else 0.0;
      out := EmitEach(qc, UOn(pi / 2.0, phi, lam), targets);
    case CRXGate =>
      out := EmitPairs(qc, CRXOn(theta), controls, targets);
    case CRYGate =>
      out := EmitPairs(qc, CRYOn(theta), controls, targets);
    case CRZGate =>
      out := EmitPairs(qc, CRZOn(theta), controls, targets);
    case Unrecognised =>
      out := qc;
  }

  /** `build_qiskit_circuit(num_qubits, gates)`; `pi` stands for `np.pi`. */
  method BuildQiskitCircuit(numQubits: int, gates: seq<Gate>, pi: real) returns (qc: QuantumCircuit)
    ensures qc == Build(numQubits, gates, pi)
  {
    var instrs: seq<Instr> := [];
    var gatesSorted := SortByStep(gates);
    for i := 0 to |gatesSorted|
      invariant instrs == BodyInstrs(gatesSorted[..i], pi)
    {
      BodySnoc(gatesSorted, i, pi);
      instrs := EmitGate(instrs, gatesSorted[i], pi);
    }
    assert gatesSorted[..|gatesSorted|] == gatesSorted;
    qc := QuantumCircuit(numQubits, numQubits, instrs);
  }

  // ---------------------------------------------------------------------------
  // Properties of build_qiskit_circuit

  /** `Each` makes one call per target, the j-th on `targets[j]`. */
  lemma {:induction false} EachCharacterised(p: PerTarget, targets: seq<int>)
    ensures |Each(p, targets)| == |targets|
    ensures forall j :: 0 <= j < |targets| ==> Each(p, targets)[j] == At(p, targets[j])
  {
    if targets != [] {
      EachCharacterised(p, targets[..|targets| - 1]);
    }
  }

  /** A control's row makes one call per target, the j-th on `targets[j]`. */
  lemma {:induction false} RowCharacterised(k: PerPair, c: int, targets: seq<int>)
    ensures |Row(k, c, targets)| == |targets|
    ensures forall j :: 0 <= j < |targets| ==> Row(k, c, targets)[j] == PairAt(k, c, targets[j])
  {
    if targets != [] {
      RowCharacterised(k, c, targets[..|targets| - 1]);
    }
  }

  lemma {:induction false} PairsAppend(k: PerPair, a: seq<int>, b: seq<int>, targets: seq<int>)
    ensures Pairs(k, a + b, targets) == Pairs(k, a, targets) + Pairs(k, b, targets)
  {
    if b == [] {
      assert a + b == a;
    } else {
      var init, last := b[..|b| - 1], b[|b| - 1];
      var row, pa, pi := Row(k, last, targets), Pairs(k, a, targets), Pairs(k, init, targets);
      assert Pairs(k, a + b, targets) == Pairs(k, a + init, targets) + row by {
        assert (a + b)[..|a + b| - 1] == a + init && (a + b)[|a + b| - 1] == last;
      }
      assert Pairs(k, a + init, targets) == pa + pi by {
        PairsAppend(k, a, init, targets);
      }
      assert Pairs(k, b, targets) == pi + row;
      AppendAssociative(pa, pi, row);
    }
  }

  /** One call per (control, target) pair; none when there are no controls. */
  lemma {:induction false} PairsCount(k: PerPair, controls: seq<int>, targets: seq<int>)
    ensures |Pairs(k, controls, targets)| == |controls| * |targets|
  {
    if controls != [] {
      var init := controls[..|controls| - 1];
      PairsCount(k, init, targets);
      RowCharacterised(k, controls[|controls| - 1], targets);
      assert |init| * |targets| + |targets| == (|init| + 1) * |targets|;
    }
  }

  /**
   * Control-major order: the calls for control i (one per target, in target
   * order) come after those of the earlier controls and before those of the
   * later ones.
   */
  lemma PairsControlMajor(k: PerPair, controls: seq<int>, targets: seq<int>, i: nat)
    requires i < |controls|
    ensures Pairs(k, controls, targets)
      == Pairs(k, controls[..i], targets) + Row(k, controls[i], targets) + Pairs(k, controls[i + 1..], targets)
  {
    assert controls == controls[..i + 1] + controls[i + 1..];
    PairsAppend(k, controls[..i + 1], controls[i + 1..], targets);
    PairsSnoc(k, controls, targets, i);
  }

  /** The qubits a call acts on, in argument order. */
  function Wires(x: Instr): seq<int> {
    match x
    case Named(_, q) => [q]
    case RX(_, q) => [q]
    case RY(_, q) => [q]
    case RZ(_, q) => [q]
    case U(_, _, _, q) => [q]
    case CX(c, t) => [c, t]
    case CZ(c, t) => [c, t]
    case Swap(a, b) => [a, b]
    case CCX(c1, c2, t) => [c1, c2, t]
    case Measure(q, _) => [q]
    case Reset(q) => [q]
    case Barrier => []
    case P(_, q) => [q]
    case CRX(_, c, t) => [c, t]
    case CRY(_, c, t) => [c, t]
    case CRZ(_, c, t) => [c, t]
  }

  lemma EachWires(p: PerTarget, targets: seq<int>)
    ensures forall x :: x in Each(p, targets) ==> |Wires(x)| == 1 && Wires(x)[0] in targets
  {
    EachCharacterised(p, targets);
    forall x | x in Each(p, targets) ensures |Wires(x)| == 1 && Wires(x)[0] in targets {
      var j :| 0 <= j < |targets| && Each(p, targets)[j] == x;
    }
  }

  lemma {:induction false} PairsWires(k: PerPair, controls: seq<int>, targets: seq<int>)
    ensures forall x :: x in Pairs(k, controls, targets) ==>
      |Wires(x)| == 2 && Wires(x)[0] in controls && Wires(x)[1] in targets
  {
    if controls != [] {
      var init, last := controls[..|controls| - 1], controls[|controls| - 1];
      PairsWires(k, init, targets);
      RowCharacterised(k, last, targets);
      forall x | x in Pairs(k, controls, targets)
        ensures |Wires(x)| == 2 && Wires(x)[0] in controls && Wires(x)[1] in targets
      {
        if x !in Pairs(k, init, targets) {
          var j :| 0 <= j < |targets| && Row(k, last, targets)[j] == x;
        }
      }
    }
  }

  /** BARRIER with a target makes one `barrier()` call, with no qubit arguments, whatever its targets. */
  lemma BarrierSpansRegister(g: Gate, pi: real)
    requires Upper(g.name) == "BARRIER" && |g.targets| > 0
    ensures GateInstrs(g, pi) == [Barrier]
    ensures Wires(Barrier) == []
  {
  }

  /**
   * Every qubit passed to a call is among the gate's targets or controls.
   * BARRIER passes none and spans the whole register.
   */
  lemma CallsUseGateQubits(g: Gate, pi: real)
    ensures forall x, q :: x in GateInstrs(g, pi) && q in Wires(x) ==> q in g.targets || q in g.controls
  {
    var ts, cs, ps := g.targets, g.controls, g.params;
    var theta := FirstParamOr0(ps);
    if |ts| > 0 {
      match Classify(Upper(g.name))
      case SingleQubit => EachWires(NamedOn(Lower(g.name)), ts);
      case RXGate => EachWires(RXOn(theta), ts);
      case RYGate => EachWires(RYOn(theta), ts);
      case RZGate => EachWires(RZOn(theta), ts);
      case UGate =>
        var padded := (ps + [0.0, 0.0, 0.0])[..3];
        EachWires(UOn(padded[0], padded[1], padded[2]), ts);
      case CXGate => PairsWires(CXOn, cs, ts);
      case CZGate => PairsWires(CZOn, cs, ts);
      case MeasureGate => EachWires(MeasureOn, ts);
      case ResetGate => EachWires(ResetOn, ts);
      case PhaseGate => EachWires(POn(theta), ts);
      case U1Gate => EachWires(POn(theta), ts);
      case U2Gate => EachWires(UOn(pi / 2.0, ParamOr0(ps, 0), ParamOr0(ps, 1)), ts);
      case CRXGate => PairsWires(CRXOn(theta), cs, ts);
      case CRYGate => PairsWires(CRYOn(theta), cs, ts);
      case CRZGate => PairsWires(CRZOn(theta), cs, ts);
      case _ =>
    }
  }

  /** MEASURE measures each target into the classical bit of the same index, in target order. */
  lemma MeasureIntoSameIndex(g: Gate, pi: real)
    requires Upper(g.name) == "MEASURE" && |g.targets| > 0
    ensures |GateInstrs(g, pi)| == |g.targets|
    ensures forall j :: 0 <= j < |g.targets| ==> GateInstrs(g, pi)[j] == Measure(g.targets[j], g.targets[j])
  {
    EachCharacterised(MeasureOn, g.targets);
  }

  /**
   * X, Y, Z, H, S and T in any letter case call the lower-case Qiskit method
   * of that name once per target, in target order.
   */
  lemma SingleQubitGateCalls(g: Gate, pi: real)
    requires Upper(g.name) in SingleQubitNames && |g.targets| > 0
    ensures |GateInstrs(g, pi)| == |g.targets|
    ensures forall j :: 0 <= j < |g.targets| ==>
      GateInstrs(g, pi)[j].Named? && GateInstrs(g, pi)[j].q == g.targets[j]
    ensures forall j :: 0 <= j < |g.targets| ==> GateInstrs(g, pi)[j].op in {"x", "y", "z", "h", "s", "t"}
  {
    var op := Lower(g.name);
    EachCharacterised(NamedOn(op), g.targets);
    LowerOfUpper(g.name);
    assert Lower("X") == "x" && Lower("Y") == "y" && Lower("Z") == "z";
    assert Lower("H") == "h" && Lower("S") == "s" && Lower("T") == "t";
  }

  /**
   * U and U3 take theta, phi and lambda from the first three parameters,
   * each 0 when absent; U2 is U with theta fixed at pi/2 and phi, lambda from
   * the first two parameters.
   */
  lemma UParameterDefaults(g: Gate, pi: real)
    requires Upper(g.name) in {"U", "U3", "U2"} && |g.targets| > 0
    ensures |GateInstrs(g, pi)| == |g.targets|
    ensures forall j :: 0 <= j < |g.targets| ==> GateInstrs(g, pi)[j].U? && GateInstrs(g, pi)[j].q == g.targets[j]
    ensures Upper(g.name) != "U2" ==> forall x :: x in GateInstrs(g, pi) ==>
      x.theta == (if |g.params| > 0 then g.params[0] else 0.0) &&
      x.phi == (if |g.params| > 1 then g.params[1] else 0.0) &&
      x.lam == (if |g.params| > 2 then g.params[2] else 0.0)
    ensures Upper(g.name) == "U2" ==> forall x :: x in GateInstrs(g, pi) ==>
      x.theta == pi / 2.0 &&
      x.phi == (if |g.params| > 0 then g.params[0] else 0.0) &&
      x.lam == (if |g.params| > 1 then g.params[1] else 0.0)
  {
    var ps := g.params;
    var padded := (ps + [0.0, 0.0, 0.0])[..3];
    assert padded[0] == if |ps| > 0 then ps[0] else 0.0;
    assert padded[1] == if |ps| > 1 then ps[1] else 0.0;
    assert padded[2] == if |ps| > 2 then ps[2] else 0.0;
    var p := if Upper(g.name) == "U2" then UOn(pi / 2.0, ParamOr0(ps, 0), ParamOr0(ps, 1))
      else UOn(padded[0], padded[1], padded[2]);
    ClassifyUFamily(Upper(g.name));
    var ins := GateInstrs(g, pi);
    assert ins == Each(p, g.targets);
    EachCharacterised(p, g.targets);
    forall x | x in ins ensures x.U? && x.theta == p.theta && x.phi == p.phi && x.lam == p.lam {
      var j :| 0 <= j < |g.targets| && ins[j] == x;
    }
  }

  lemma ClassifyUFamily(n: string)
    requires n in {"U", "U3", "U2"}
    ensures Classify(n) == if n == "U2" then U2Gate else UGate
  {
  }

  /** The call a one-angle gate makes on target `t`: P, PHASE and U1 all call `p`. */
  function AngleCall(name: string, theta: real, t: int): Instr {
    if name == "RX" then RX(theta, t)
    else if name == "RY" then RY(theta, t)
    else if name == "RZ" then RZ(theta, t)
    else P(theta, t)
  }

  /**
   * RX, RY, RZ, P, PHASE and U1 make one call per target, in target order,
   * with the first parameter as angle, 0 when there is none.
   */
  lemma OneAngleCalls(g: Gate, pi: real)
    requires Upper(g.name) in {"RX", "RY", "RZ", "P", "PHASE", "U1"} && |g.targets| > 0
    ensures |GateInstrs(g, pi)| == |g.targets|
    ensures forall j :: 0 <= j < |g.targets| ==>
      GateInstrs(g, pi)[j] == AngleCall(Upper(g.name), if |g.params| > 0 then g.params[0] else 0.0, g.targets[j])
  {
    var name, theta := Upper(g.name), FirstParamOr0(g.params);
    var p := AnglePiece(name, theta);
    AngleEach(g, pi);
    EachCharacterised(p, g.targets);
    assert forall t :: At(p, t) == AngleCall(name, theta, t);
  }

  /** The per-target call of a one-angle gate, as the branch builds it. */
  function AnglePiece(name: string, theta: real): PerTarget {
    if name == "RX" then RXOn(theta)
    else if name == "RY" then RYOn(theta)
    else if name == "RZ" then RZOn(theta)
    else POn(theta)
  }

  lemma AngleEach(g: Gate, pi: real)
    requires Upper(g.name) in {"RX", "RY", "RZ", "P", "PHASE", "U1"} && |g.targets| > 0
    ensures GateInstrs(g, pi) == Each(AnglePiece(Upper(g.name), FirstParamOr0(g.params)), g.targets)
  {
    ClassifyAngle(Upper(g.name));
  }

  lemma ClassifyAngle(n: string)
    requires n in {"RX", "RY", "RZ", "P", "PHASE", "U1"}
    ensures Classify(n) == if n == "RX" then RXGate else if n == "RY" then RYGate
      else if n == "RZ" then RZGate else if n == "U1" then U1Gate else PhaseGate
  {
  }

  /** RESET resets each target, in target order. */
  lemma ResetEachTarget(g: Gate, pi: real)
    requires Upper(g.name) == "RESET" && |g.targets| > 0
    ensures |GateInstrs(g, pi)| == |g.targets|
    ensures forall j :: 0 <= j < |g.targets| ==> GateInstrs(g, pi)[j] == Reset(g.targets[j])
  {
    EachCharacterised(ResetOn, g.targets);
  }

  /** SWAP calls `swap` once on its first two targets, and not at all with fewer than two. */
  lemma SwapNeedsTwoTargets(g: Gate, pi: real)
    requires Upper(g.name) == "SWAP"
    ensures |GateInstrs(g, pi)| == if |g.targets| >= 2 then 1 else 0
    ensures |g.targets| >= 2 ==> GateInstrs(g, pi) == [Swap(g.targets[0], g.targets[1])]
  {
  }

  /**
   * CCX and TOFFOLI call `ccx` once, on the first two controls and the first
   * target, and not at all with fewer than two controls or no target.
   */
  lemma ToffoliNeedsTwoControls(g: Gate, pi: real)
    requires Upper(g.name) in {"CCX", "TOFFOLI"}
    ensures |GateInstrs(g, pi)| == if |g.controls| >= 2 && |g.targets| >= 1 then 1 else 0
    ensures |g.controls| >= 2 && |g.targets| >= 1 ==>
      GateInstrs(g, pi) == [CCX(g.controls[0], g.controls[1], g.targets[0])]
  {
    ClassifyCCX();
  }

  /** The per-pair call of a controlled gate name, with its angle. */
  function PairKindOf(name: string, theta: real): PerPair {
    if name == "CZ" then CZOn
    else if name == "CRX" then CRXOn(theta)
    else if name == "CRY" then CRYOn(theta)
    else if name == "CRZ" then CRZOn(theta)
    else CXOn
  }

  /**
   * CX, CNOT, CZ, CRX, CRY and CRZ make one call per (control, target) pair,
   * control-major (`PairsControlMajor`); no controls means no calls.
   */
  lemma ControlledPairCalls(g: Gate, pi: real)
    requires Upper(g.name) in {"CX", "CNOT", "CZ", "CRX", "CRY", "CRZ"} && |g.targets| > 0
    ensures GateInstrs(g, pi) == Pairs(PairKindOf(Upper(g.name), FirstParamOr0(g.params)), g.controls, g.targets)
    ensures |GateInstrs(g, pi)| == |g.controls| * |g.targets|
  {
    var name := Upper(g.name);
    ClassifyPair(name);
    PairsCount(PairKindOf(name, FirstParamOr0(g.params)), g.controls, g.targets);
  }

  lemma ClassifyPair(n: string)
    requires n in {"CX", "CNOT", "CZ", "CRX", "CRY", "CRZ"}
    ensures Classify(n) == if n == "CZ" then CZGate else if n == "CRX" then CRXGate
      else if n == "CRY" then CRYGate else if n == "CRZ" then CRZGate else CXGate
  {
  }

  /** Gate names are matched without regard to letter case. */
  lemma CaseInsensitive(g: Gate, pi: real)
    ensures GateInstrs(g, pi) == GateInstrs(g.(name := Upper(g.name)), pi)
  {
    UpperIdempotent(g.name);
    LowerOfUpper(g.name);
  }

  /**
   * Outside the single-qubit branch (which keeps the name's own letters),
   * the calls depend on the branch taken and not on the name itself.
   */
  lemma SameBranchSameCalls(g: Gate, h: Gate, pi: real)
    requires g.(name := h.name) == h
    requires Classify(Upper(g.name)) == Classify(Upper(h.name)) != SingleQubit
    ensures GateInstrs(g, pi) == GateInstrs(h, pi)
  {
  }

  /** CNOT is CX, TOFFOLI is CCX, U3 is U, and PHASE and U1 are P. */
  lemma Aliases(g: Gate, pi: real)
    ensures GateInstrs(g.(name := "CNOT"), pi) == GateInstrs(g.(name := "CX"), pi)
    ensures GateInstrs(g.(name := "TOFFOLI"), pi) == GateInstrs(g.(name := "CCX"), pi)
    ensures GateInstrs(g.(name := "U3"), pi) == GateInstrs(g.(name := "U"), pi)
    ensures GateInstrs(g.(name := "PHASE"), pi) == GateInstrs(g.(name := "P"), pi)
    ensures GateInstrs(g.(name := "U1"), pi) == GateInstrs(g.(name := "P"), pi)
  {
    ClassifyCX();
    AliasOf(g, "CNOT", "CX", CXGate, pi);
    ClassifyCCX();
    AliasOf(g, "TOFFOLI", "CCX", CCXGate, pi);
    ClassifyU();
    AliasOf(g, "U3", "U", UGate, pi);
    ClassifyP();
    AliasOf(g, "PHASE", "P", PhaseGate, pi);
    U1IsPhase(g, pi);
  }

  lemma ClassifyCX()
    ensures Classify("CX") == CXGate && Classify("CNOT") == CXGate
  {
  }

  lemma ClassifyCCX()
    ensures Classify("CCX") == CCXGate && Classify("TOFFOLI") == CCXGate
  {
  }

  lemma ClassifyU()
    ensures Classify("U") == UGate && Classify("U3") == UGate
  {
  }

  lemma ClassifyP()
    ensures Classify("P") == PhaseGate && Classify("PHASE") == PhaseGate
  {
  }

  lemma U1IsPhase(g: Gate, pi: real)
    ensures GateInstrs(g.(name := "U1"), pi) == GateInstrs(g.(name := "P"), pi)
  {
    UpperOfUpperCase("U1");
    UpperOfUpperCase("P");
    assert Classify("U1") == U1Gate;
    assert Classify("P") == PhaseGate;
  }

  lemma AliasOf(g: Gate, alias: string, name: string, k: Kind, pi: real)
    requires forall i :: 0 <= i < |alias| ==> !('a' <= alias[i] <= 'z')
    requires forall i :: 0 <= i < |name| ==> !('a' <= name[i] <= 'z')
    requires Classify(alias) == k && Classify(name) == k && k != SingleQubit
    ensures GateInstrs(g.(name := alias), pi) == GateInstrs(g.(name := name), pi)
  {
    UpperOfUpperCase(alias);
    UpperOfUpperCase(name);
    SameBranchSameCalls(g.(name := alias), g.(name := name), pi);
  }

  /** The gates that have targets and a recognised name, in order. */
  function Recognised(gs: seq<Gate>): seq<Gate> {
    if gs == [] then []
    else
      var last := gs[|gs| - 1];
      Recognised(gs[..|gs| - 1]) + (if |last.targets| > 0 && Classify(Upper(last.name)) != Unrecognised then [last] else [])
  }

  /**
   * Gates without targets and gates with an unrecognised name are skipped:
   * dropping them leaves the calls unchanged.
   */
  lemma {:induction false} SkippedGatesEmitNothing(gs: seq<Gate>, pi: real)
    ensures BodyInstrs(gs, pi) == BodyInstrs(Recognised(gs), pi)
  {
    if gs != [] {
      var init, last := gs[..|gs| - 1], gs[|gs| - 1];
      SkippedGatesEmitNothing(init, pi);
      var w := Recognised(init);
      if |last.targets| > 0 && Classify(Upper(last.name)) != Unrecognised {
        assert Recognised(gs) == w + [last];
        assert (w + [last])[..|w|] == w;
      } else {
        SkippedGateEmitsNothing(last, pi);
        assert Recognised(gs) == w;
        assert BodyInstrs(gs, pi) == BodyInstrs(init, pi) + [];
      }
    }
  }

  lemma SkippedGateEmitsNothing(g: Gate, pi: real)
    requires |g.targets| == 0 || Classify(Upper(g.name)) == Unrecognised
    ensures GateInstrs(g, pi) == []
  {
  }

  /** Recognised keeps exactly the gates with targets and a recognised name. */
  lemma {:induction false} RecognisedMembers(gs: seq<Gate>)
    ensures forall g :: g in Recognised(gs) <==> g in gs && |g.targets| > 0 && Classify(Upper(g.name)) != Unrecognised
  {
    if gs != [] {
      var init, last := gs[..|gs| - 1], gs[|gs| - 1];
      RecognisedMembers(init);
      assert gs == init + [last];
    }
  }

  /**
   * Only the order of the gates within each step matters: two gate lists
   * that agree step by step build the same circuit.
   */
  lemma BuildDependsOnStepOrderOnly(n: int, a: seq<Gate>, b: seq<Gate>, pi: real)
    requires forall k :: WithStep(a, k) == WithStep(b, k)
    ensures Build(n, a, pi) == Build(n, b, pi)
  {
    SameStepOrderSameSort(a, b);
  }

  /**
   * A Bell-pair circuit listed out of order (CNOT from q0 to q1 at step 1,
   * then H on q0 at step 0) becomes `h(0)` followed by `cx(0, 1)` on two
   * qubits and two classical bits.
   */
  lemma BellCircuitCalls(cx: Gate, h: Gate, pi: real)
    requires cx == Gate("CNOT", [1], [0], [], Some(1)) && h == Gate("H", [0], [], [], Some(0))
    ensures Build(2, [cx, h], pi) == QuantumCircuit(2, 2, [Named("h", 0), CX(0, 1)])
  {
    SortTwo(cx, h);
    assert StepKey(h) == 0 && StepKey(cx) == 1;
    var sorted := SortByStep([cx, h]);
    assert sorted == [h, cx];
    BodyOfTwo(h, cx, pi);
    HadamardCalls(h, pi);
    CnotCalls(cx, pi);
    assert BodyInstrs(sorted, pi) == [Named("h", 0), CX(0, 1)];
  }

  lemma BodyOfTwo(a: Gate, b: Gate, pi: real)
    ensures BodyInstrs([a, b], pi) == GateInstrs(a, pi) + GateInstrs(b, pi)
  {
    assert [a, b][..1] == [a];
    assert BodyInstrs([a], pi) == BodyInstrs([], pi) + GateInstrs(a, pi);
  }

  lemma HadamardCalls(h: Gate, pi: real)
    requires h == Gate("H", [0], [], [], Some(0))
    ensures GateInstrs(h, pi) == [Named("h", 0)]
  {
    UpperOfUpperCase("H");
    assert Classify("H") == SingleQubit;
    assert Lower("H") == "h";
    assert Each(NamedOn("h"), [0]) == Each(NamedOn("h"), []) + [Named("h", 0)];
  }

  lemma CnotCalls(cx: Gate, pi: real)
    requires cx == Gate("CNOT", [1], [0], [], Some(1))
    ensures GateInstrs(cx, pi) == [CX(0, 1)]
  {
    UpperOfUpperCase("CNOT");
    assert Classify("CNOT") == CXGate;
    assert Row(CXOn, 0, [1]) == Row(CXOn, 0, []) + [CX(0, 1)];
    assert Pairs(CXOn, [0], [1]) == Pairs(CXOn, [], [1]) + Row(CXOn, 0, [1]);
  }

  // ---------------------------------------------------------------------------
  // _pauli_string

  /** The axis letters `axis_map` knows. */
  const Axes := {"X", "Y", "Z"}

  /**
   * `_pauli_string(num_qubits, target, axis)` before it is handed to `Pauli`:
   * one letter per qubit, the axis letter at position `target` and `I`
   * elsewhere. `axis_map[axis]` is looked up only at position `target`, so
   * an unknown axis is an error (None here) exactly when that position exists.
   */
  function PauliString(numQubits: int, target: int, axis: string): (r: Option<string>)
    ensures r.None? <==> 0 <= target < numQubits && axis !in Axes
    ensures r.Some? ==> |r.value| == if numQubits < 0 then 0 else numQubits
    ensures r.Some? && 0 <= target < numQubits ==> r.value[target] == axis[0]
    ensures r.Some? ==> forall i :: 0 <= i < |r.value| && i != target ==> r.value[i] == 'I'
  {
    if 0 <= target < numQubits && axis !in Axes then None
    else Some(PauliLetters(numQubits, target, axis))
  }

  /** The letters for positions `0 .. n-1`, built from the right. */
  function PauliLetters(n: int, target: int, axis: string): (s: string)
    requires 0 <= target < n ==> axis in Axes
    ensures |s| == if n < 0 then 0 else n
    ensures forall i :: 0 <= i < |s| ==> s[i] == if i == target then axis[0] else 'I'
  {
    if n <= 0 then ""
    else PauliLetters(n - 1, target, axis) + [if n - 1 == target then axis[0] else 'I']
  }

  // ---------------------------------------------------------------------------
  // build_noise_model

  /** The errors `build_noise_model` can attach. */
  datatype QuantumError =
    | PauliError(terms: seq<(string, real)>)    // pauli_error([(label, probability), ...])
    | AmplitudeDampingError(gamma: real)        // amplitude_damping_error(gamma)

  /** One `add_all_qubit_quantum_error(error, instructions)` call. */
  datatype NoiseEntry = NoiseEntry(error: QuantumError, instructions: seq<string>)

  /** A `NoiseModel()` after the calls in `entries`. */
  datatype NoiseModel = NoiseModel(entries: seq<NoiseEntry>)

  /** Python truthiness of an optional float: present and non-zero. */
  predicate Truthy(x: Option<real>) {
    x.Some? && x.value != 0.0
  }

  /** `x and x > 0` */
  predicate Positive(x: Option<real>) {
    Truthy(x) && x.value > 0.0
  }

  function BitFlip(p: real): NoiseEntry {
    NoiseEntry(PauliError([("X", p), ("I", 1.0 - p)]), ["x"])
  }

  function Depolarizing(p: real): NoiseEntry {
    NoiseEntry(PauliError([("X", p / 3.0), ("Y", p / 3.0), ("Z", p / 3.0), ("I", 1.0 - p)]),
      ["x", "y", "z", "h", "cx"])
  }

  function AmplitudeDamping(gamma: real): NoiseEntry {
    NoiseEntry(AmplitudeDampingError(gamma), ["id", "u", "x", "y", "z"])
  }

  /** What `build_noise_model` returns. */
  function NoiseModelOf(bitFlip: Option<real>, depolarizing: Option<real>, damping: Option<real>): Option<NoiseModel> {
    if !(Truthy(bitFlip) || Truthy(depolarizing) || Truthy(damping)) then None
    else Some(NoiseModel(
      (if Positive(bitFlip) then [BitFlip(bitFlip.value)] else []) +
      (if Positive(depolarizing) then [Depolarizing(depolarizing.value)] else []) +
      (if Positive(damping) then [AmplitudeDamping(damping.value)] else [])))
  }

  /** `build_noise_model(bit_flip_prob, depolarizing_prob, amplitude_damping_gamma)` */
  method BuildNoiseModel(bitFlipProb: Option<real>, depolarizingProb: Option<real>, amplitudeDampingGamma: Option<real>)
    returns (nm: Option<NoiseModel>)
    ensures nm == NoiseModelOf(bitFlipProb, depolarizingProb, amplitudeDampingGamma)
  {
    if !(Truthy(bitFlipProb) || Truthy(depolarizingProb) || Truthy(amplitudeDampingGamma)) {
      return None;
    }
    var entries: seq<NoiseEntry> := [];
    if Truthy(bitFlipProb) && bitFlipProb.value > 0.0 {
      var p := bitFlipProb.value;
      entries := entries + [NoiseEntry(PauliError([("X", p), ("I", 1.0 - p)]), ["x"])];
    }
    assert entries == if Positive(bitFlipProb) then [BitFlip(bitFlipProb.value)] else [];
    if Truthy(depolarizingProb) && depolarizingProb.value > 0.0 {
      var p := depolarizingProb.value;
      var depErr := PauliError([("X", p / 3.0), ("Y", p / 3.0), ("Z", p / 3.0), ("I", 1.0 - p)]);
      entries := entries + [NoiseEntry(depErr, ["x", "y", "z", "h", "cx"])];
    }
    assert entries == (if Positive(bitFlipProb) then [BitFlip(bitFlipProb.value)] else []) +
      (if Positive(depolarizingProb) then [Depolarizing(depolarizingProb.value)] else []);
    if Truthy(amplitudeDampingGamma) && amplitudeDampingGamma.value > 0.0 {
      var g := amplitudeDampingGamma.value;
      entries := entries + [NoiseEntry(AmplitudeDampingError(g), ["id", "u", "x", "y", "z"])];
    }
    assert entries == (if Positive(bitFlipProb) then [BitFlip(bitFlipProb.value)] else []) +
      (if Positive(depolarizingProb) then [Depolarizing(depolarizingProb.value)] else []) +
      (if Positive(amplitudeDampingGamma) then [AmplitudeDamping(amplitudeDampingGamma.value)] else []);
    nm := Some(NoiseModel(entries));
  }

  /** No model at all exactly when every argument is None or zero. */
  lemma NoNoiseModelIffAllFalsy(b: Option<real>, d: Option<real>, a: Option<real>)
    ensures NoiseModelOf(b, d, a).None? <==> (b.None? || b.value == 0.0) && (d.None? || d.value == 0.0) && (a.None? || a.value == 0.0)
  {
  }

  /** The sum of the probabilities of a Pauli error's terms. */
  function TotalProbability(terms: seq<(string, real)>): real {
    if terms == [] then 0.0 else TotalProbability(terms[..|terms| - 1]) + terms[|terms| - 1].1
  }

  lemma BitFlipSumsToOne(p: real)
    ensures TotalProbability(BitFlip(p).error.terms) == 1.0
  {
    var ts := BitFlip(p).error.terms;
    assert ts[..1] == [("X", p)] && ts[..1][..0] == [];
    assert TotalProbability(ts[..1]) == 0.0 + p;
    assert TotalProbability(ts) == TotalProbability(ts[..1]) + (1.0 - p);
  }

  lemma DepolarizingSumsToOne(p: real)
    ensures TotalProbability(Depolarizing(p).error.terms) == 1.0
  {
    var ts := Depolarizing(p).error.terms;
    assert ts[..3] == [("X", p / 3.0), ("Y", p / 3.0), ("Z", p / 3.0)];
    assert ts[..3][..2] == [("X", p / 3.0), ("Y", p / 3.0)];
    assert ts[..3][..2][..1] == [("X", p / 3.0)];
    assert ts[..3][..2][..1][..0] == [];
    assert TotalProbability(ts[..3][..2][..1]) == 0.0 + p / 3.0;
    assert TotalProbability(ts[..3][..2]) == TotalProbability(ts[..3][..2][..1]) + p / 3.0;
    assert TotalProbability(ts[..3]) == TotalProbability(ts[..3][..2]) + p / 3.0;
    assert TotalProbability(ts) == TotalProbability(ts[..3]) + (1.0 - p);
  }

  /**
   * Each channel is present exactly when its argument is positive, at most
   * once and in the order bit flip, depolarizing, amplitude damping; a model
   * whose arguments are truthy but none positive has no errors. The Pauli
   * errors' probabilities sum to 1.
   */
  lemma NoiseChannels(b: Option<real>, d: Option<real>, a: Option<real>)
    requires NoiseModelOf(b, d, a).Some?
    ensures var es := NoiseModelOf(b, d, a).value.entries;
      |es| <= 3 &&
      (!Positive(b) && !Positive(d) && !Positive(a) <==> es == []) &&
      (Positive(b) <==> b.Some? && es != [] && es[0] == BitFlip(b.value)) &&
      (Positive(d) <==> d.Some? && exists i :: 0 <= i < |es| && es[i] == Depolarizing(d.value)) &&
      (Positive(a) <==> a.Some? && es != [] && es[|es| - 1] == AmplitudeDamping(a.value)) &&
      (forall e :: e in es && e.error.PauliError? ==> TotalProbability(e.error.terms) == 1.0)
  {
    var es := NoiseModelOf(b, d, a).value.entries;
    if Positive(d) {
      var i := if Positive(b) then 1 else 0;
      assert es[i] == Depolarizing(d.value);
    }
    forall e | e in es && e.error.PauliError? ensures TotalProbability(e.error.terms) == 1.0 {
      if Positive(b) && e == BitFlip(b.value) {
        BitFlipSumsToOne(b.value);
      } else {
        DepolarizingSumsToOne(d.value);
      }
    }
  }
}
