/**
 * The client-side OpenQASM 2.0 generator of the circuit view
 * (frontend/src/components/QASMDisplay.tsx, `generateQASM`). The text is a
 * header followed by the instructions of the gates in step order; each
 * instruction is one line ending with a newline, appended to the text as it
 * is produced. The function `Qasm` lists the instructions as values and
 * renders them separately, so that their order and number can be stated
 * without looking inside the strings.
 */
module QasmDisplay {
  import opened Wrappers
  import opened Text
  import opened CircuitStore
  import opened GateOrder

  /** One emitted line. */
  datatype Instr =
    | OneQubit(op: string, t: int)            // `op q[t];`
    | Measure(t: int)                         // `measure q[t] -> c[t];`
    | TwoQubit(op: string, c: int, t: int)    // `op q[c],q[t];`
    | Unknown(name: string)                   // `// Unknown gate: name`

  function Render(i: Instr): string {
    match i
    case OneQubit(op, t) => op + " q[" + IntToString(t) + "];\n"
    case Measure(t) => "measure q[" + IntToString(t) + "] -> c[" + IntToString(t) + "];\n"
    case TwoQubit(op, c, t) => op + " q[" + IntToString(c) + "],q[" + IntToString(t) + "];\n"
    case Unknown(name) => "// Unknown gate: " + name + "\n"
  }

  /** The instructions written one after another. */
  function RenderAll(instrs: seq<Instr>): string {
    if instrs == [] then "" else RenderAll(instrs[..|instrs| - 1]) + Render(instrs[|instrs| - 1])
  }

  /** The instruction a `forEach` body writes for target `t`. */
  datatype Piece = OneQubitOf(op: string) | MeasureOf | ControlledBy(op: string, c: int)

  function At(p: Piece, t: int): Instr {
    match p
    case OneQubitOf(op) => OneQubit(op, t)
    case MeasureOf => Measure(t)
    case ControlledBy(op, c) => TwoQubit(op, c, t)
  }

  /** `targets.forEach(t => qasm += ...)`: one instruction per target, in order. */
  function Each(p: Piece, targets: seq<int>): seq<Instr> {
    if targets == [] then []
    else Each(p, targets[..|targets| - 1]) + [At(p, targets[|targets| - 1])]
  }

  /** `controls.forEach(c => targets.forEach(t => qasm += op q[c],q[t];))` */
  function Pairs(op: string, controls: seq<int>, targets: seq<int>): seq<Instr> {
    if controls == [] then []
    else
      var c := controls[|controls| - 1];
      Pairs(op, controls[..|controls| - 1], targets) + Each(ControlledBy(op, c), targets)
  }

  /** The instructions of one gate, chosen by its upper-cased name. */
  function GateInstrs(g: Gate, show: real -> string): seq<Instr> {
    var name := Upper(g.name);
    var targets := g.targets;
    var angle := FirstParamOr0(g.params);
    if |targets| == 0 then []
    else if name == "H" then Each(OneQubitOf("h"), targets)
    else if name == "X" then Each(OneQubitOf("x"), targets)
    else if name == "Y" then Each(OneQubitOf("y"), targets)
    else if name == "Z" then Each(OneQubitOf("z"), targets)
    else if name == "RX" then Each(OneQubitOf("rx(" + show(angle) + ")"), targets)
    else if name == "RY" then Each(OneQubitOf("ry(" + show(angle) + ")"), targets)
    else if name == "RZ" then Each(OneQubitOf("rz(" + show(angle) + ")"), targets)
    else if name == "CNOT" || name == "CX" then Pairs("cx", g.controls, targets)
    else if name == "CZ" then Pairs("cz", g.controls, targets)
    else if name == "MEASURE" then Each(MeasureOf, targets)
    else if name == "S" then Each(OneQubitOf("s"), targets)
    else if name == "T" then Each(OneQubitOf("t"), targets)
    else if name == "SWAP" then (if |targets| >= 2 then [TwoQubit("swap", targets[0], targets[1])] else [])
    else [Unknown(name)]
  }

  /** The instructions of the gates, one gate after another. */
  function BodyInstrs(gs: seq<Gate>, show: real -> string): seq<Instr> {
    if gs == [] then []
    else BodyInstrs(gs[..|gs| - 1], show) + GateInstrs(gs[|gs| - 1], show)
  }

  predicate IsMeasure(g: Gate) {
    Upper(g.name) == "MEASURE"
  }

  /** `circuit.gates.some(g => g.name.toUpperCase() === 'MEASURE')` */
  predicate HasMeasurements(gs: seq<Gate>) {
    exists g :: g in gs && IsMeasure(g)
  }

  /** The fixed opening: version, include, blank line, quantum register. */
  function Preamble(n: int): string {
    "OPENQASM 2.0;\ninclude \"qelib1.inc\";\n\n" + "qreg q[" + IntToString(n) + "];\n"
  }

  function CregLine(n: int): string {
    "creg c[" + IntToString(n) + "];\n"
  }

  /** The opening: the classical register only when some gate measures, then a blank line. */
  function Header(n: int, measured: bool): string {
    Preamble(n) + (if measured then CregLine(n) else "") + "\n"
  }

  /** What `generateQASM` returns: nothing for no gates, else the header and the gates by step. */
  function Qasm(c: Circuit, show: real -> string): string {
    if |c.gates| == 0 then ""
    else Header(c.numQubits, HasMeasurements(c.gates)) + RenderAll(BodyInstrs(SortByStep(c.gates), show))
  }

  // ---------------------------------------------------------------------------
  // Steps of the loops

  lemma {:induction false} RenderAllConcat(a: seq<Instr>, b: seq<Instr>)
    ensures RenderAll(a + b) == RenderAll(a) + RenderAll(b)
  {
    if b != [] {
      RenderAllConcat(a, b[..|b| - 1]);
      assert (a + b)[..|a + b| - 1] == a + b[..|b| - 1];
    } else {
      assert a + b == a;
    }
  }

  lemma RenderAllAppend(start: string, text: string, done: seq<Instr>, more: seq<Instr>)
    requires text == start + RenderAll(done)
    ensures text + RenderAll(more) == start + RenderAll(done + more)
  {
    RenderAllConcat(done, more);
    AppendAssociative(start, RenderAll(done), RenderAll(more));
  }

  lemma RenderExtend(start: string, text: string, done: seq<Instr>, x: Instr)
    requires text == start + RenderAll(done)
    ensures text + Render(x) == start + RenderAll(done + [x])
  {
    RenderAllAppend(start, text, done, [x]);
    assert [x][..0] == [];
    assert "" + Render(x) == Render(x);
  }

  lemma EachSnoc(p: Piece, targets: seq<int>, i: nat)
    requires i < |targets|
    ensures Each(p, targets[..i + 1]) == Each(p, targets[..i]) + [At(p, targets[i])]
  {
    assert targets[..i + 1][..i] == targets[..i];
  }

  lemma PairsSnoc(op: string, controls: seq<int>, targets: seq<int>, i: nat)
    requires i < |controls|
    ensures Pairs(op, controls[..i + 1], targets) ==
      Pairs(op, controls[..i], targets) + Each(ControlledBy(op, controls[i]), targets)
  {
    assert controls[..i + 1][..i] == controls[..i];
  }

  lemma BodySnoc(gs: seq<Gate>, i: nat, show: real -> string)
    requires i < |gs|
    ensures BodyInstrs(gs[..i + 1], show) == BodyInstrs(gs[..i], show) + GateInstrs(gs[i], show)
  {
    assert gs[..i + 1][..i] == gs[..i];
  }

  // ---------------------------------------------------------------------------
  // The generator

  /** One `forEach` over the targets. */
  method EmitEach(qasm: string, p: Piece, targets: seq<int>) returns (out: string)
    ensures out == qasm + RenderAll(Each(p, targets))
  {
    out := qasm;
    for i := 0 to |targets|
      invariant out == qasm + RenderAll(Each(p, targets[..i]))
    {
      EachSnoc(p, targets, i);
      RenderExtend(qasm, out, Each(p, targets[..i]), At(p, targets[i]));
      out := out + Render(At(p, targets[i]));
    }
    assert targets[..|targets|] == targets;
  }

  /** The nested `forEach` of the two-qubit gates: controls outside, targets inside. */
  method EmitPairs(qasm: string, op: string, controls: seq<int>, targets: seq<int>) returns (out: string)
    ensures out == qasm + RenderAll(Pairs(op, controls, targets))
  {
    out := qasm;
    for i := 0 to |controls|
      invariant out == qasm + RenderAll(Pairs(op, controls[..i], targets))
    {
      var c := controls[i];
      PairsSnoc(op, controls, targets, i);
      RenderAllAppend(qasm, out, Pairs(op, controls[..i], targets), Each(ControlledBy(op, c), targets));
      out := EmitEach(out, ControlledBy(op, c), targets);
    }
    assert controls[..|controls|] == controls;
  }

  /** The `switch` on the upper-cased name of one gate. */
  method EmitGate(qasm: string, gate: Gate, show: real -> string) returns (out: string)
    ensures out == qasm + RenderAll(GateInstrs(gate, show))
  {
    var name := Upper(gate.name);
    var targets := gate.targets;
    var controls := gate.controls;
    var params := gate.params;
    ghost var instrs := GateInstrs(gate, show);
    if |targets| == 0 {
      assert instrs == [];
      return qasm;
    }
    if name == "H" {
      out := EmitEach(qasm, OneQubitOf("h"), targets);
    } else if name == "X" {
      out := EmitEach(qasm, OneQubitOf("x"), targets);
    } else if name == "Y" {
      out := EmitEach(qasm, OneQubitOf("y"), targets);
    } else if name == "Z" {
      out := EmitEach(qasm, OneQubitOf("z"), targets);
    } else if name == "RX" {
      var rxAngle := FirstParamOr0(params);
      out := EmitEach(qasm, OneQubitOf("rx(" + show(rxAngle) + ")"), targets);
    } else if name == "RY" {
      var ryAngle := FirstParamOr0(params);
      out := EmitEach(qasm, OneQubitOf("ry(" + show(ryAngle) + ")"), targets);
    } else if name == "RZ" {
      var rzAngle := FirstParamOr0(params);
      out := EmitEach(qasm, OneQubitOf("rz(" + show(rzAngle) + ")"), targets);
    } else if name == "CNOT" || name == "CX" {
      assert instrs == Pairs("cx", controls, targets);
      out := qasm;
      if |controls| > 0 {
        out := EmitPairs(qasm, "cx", controls, targets);
      } else {
        assert instrs == [];
      }
    } else if name == "CZ" {
      assert instrs == Pairs("cz", controls, targets);
      out := qasm;
      if |controls| > 0 {
        out := EmitPairs(qasm, "cz", controls, targets);
      } else {
        assert instrs == [];
      }
    } else {
      out := EmitOtherGate(qasm, gate, show);
    }
  }

  /** The remaining cases of the `switch`: MEASURE, S, T, SWAP and unknown names. */
  method EmitOtherGate(qasm: string, gate: Gate, show: real -> string) returns (out: string)
    requires |gate.targets| > 0
    requires Upper(gate.name) !in {"H", "X", "Y", "Z", "RX", "RY", "RZ", "CNOT", "CX", "CZ"}
    ensures out == qasm + RenderAll(GateInstrs(gate, show))
  {
    var name := Upper(gate.name);
    var targets := gate.targets;
    ghost var instrs := GateInstrs(gate, show);
    if name == "MEASURE" {
      out := EmitEach(qasm, MeasureOf, targets);
    } else if name == "S" {
      out := EmitEach(qasm, OneQubitOf("s"), targets);
    } else if name == "T" {
      out := EmitEach(qasm, OneQubitOf("t"), targets);
    } else if name == "SWAP" {
      out := qasm;
      if |targets| >= 2 {
        var swap := TwoQubit("swap", targets[0], targets[1]);
        assert instrs == [] + [swap];
        RenderExtend(qasm, qasm, [], swap);
        out := qasm + Render(swap);
      } else {
        assert instrs == [];
      }
    } else {
      assert instrs == [] + [Unknown(name)];
      RenderExtend(qasm, qasm, [], Unknown(name));
      out := qasm + Render(Unknown(name));
    }
  }

  /** The opening lines of `generateQASM`. */
  method EmitHeader(n: int, hasMeasurements: bool) returns (qasm: string)
    ensures qasm == Header(n, hasMeasurements)
  {
    qasm := Preamble(n);
    if hasMeasurements {
      qasm := qasm + CregLine(n);
    } else {
      assert qasm == qasm + "";
    }
    qasm := qasm + "\n";
  }

  /** The loop of `generateQASM` over the sorted gates. */
  method EmitGates(qasm: string, sortedGates: seq<Gate>, show: real -> string) returns (out: string)
    ensures out == qasm + RenderAll(BodyInstrs(sortedGates, show))
  {
    out := qasm;
    for i := 0 to |sortedGates|
      invariant out == qasm + RenderAll(BodyInstrs(sortedGates[..i], show))
    {
      var gate := sortedGates[i];
      BodySnoc(sortedGates, i, show);
      RenderAllAppend(qasm, out, BodyInstrs(sortedGates[..i], show), GateInstrs(gate, show));
      out := EmitGate(out, gate, show);
    }
    assert sortedGates[..|sortedGates|] == sortedGates;
  }

  /** `generateQASM`. */
  method GenerateQasm(c: Circuit, show: real -> string) returns (qasm: string)
    ensures qasm == Qasm(c, show)
  {
    if |c.gates| == 0 {
      return "";
    }
    var hasMeasurements := exists g :: g in c.gates && IsMeasure(g);
    qasm := EmitHeader(c.numQubits, hasMeasurements);
    var sortedGates := SortByStep(c.gates);
    qasm := EmitGates(qasm, sortedGates, show);
  }

  // ---------------------------------------------------------------------------
  // Properties of the generated text

  /** One instruction per target, in target order. */
  lemma {:induction false} EachCharacterised(p: Piece, targets: seq<int>)
    ensures |Each(p, targets)| == |targets|
    ensures forall j :: 0 <= j < |targets| ==> Each(p, targets)[j] == At(p, targets[j])
  {
    if targets != [] {
      EachCharacterised(p, targets[..|targets| - 1]);
    }
  }

  /** The gate names that `generateQASM` writes one line per target for. */
  const PerTargetNames: set<string> := {"H", "X", "Y", "Z", "S", "T", "RX", "RY", "RZ", "MEASURE"}

  /**
   * The line a per-target gate writes for target `t`: a measurement into the
   * classical bit of the same index, a rotation as its lower-case name with
   * the formatted angle, any other gate as its lower-case name.
   */
  function TargetLine(name: string, angle: real, show: real -> string, t: int): Instr {
    if name == "MEASURE" then Measure(t)
    else if name == "RX" || name == "RY" || name == "RZ" then OneQubit(Lower(name) + "(" + show(angle) + ")", t)
    else OneQubit(Lower(name), t)
  }

  /** The piece a per-target gate applies to each target. */
  function TargetPiece(name: string, angle: real, show: real -> string): Piece {
    if name == "MEASURE" then MeasureOf
    else if name == "RX" || name == "RY" || name == "RZ" then OneQubitOf(Lower(name) + "(" + show(angle) + ")")
    else OneQubitOf(Lower(name))
  }

  lemma PerTargetPiece(g: Gate, show: real -> string)
    requires |g.targets| > 0
    requires Upper(g.name) in PerTargetNames
    ensures GateInstrs(g, show) == Each(TargetPiece(Upper(g.name), FirstParamOr0(g.params), show), g.targets)
  {
    var name := Upper(g.name);
    var angle := FirstParamOr0(g.params);
    if name == "RX" || name == "RY" || name == "RZ" {
      RotationPiece(g, show);
    } else if name == "MEASURE" {
      assert GateInstrs(g, show) == Each(MeasureOf, g.targets);
    } else {
      FixedPiece(g, show);
    }
  }

  lemma RotationPiece(g: Gate, show: real -> string)
    requires |g.targets| > 0
    requires Upper(g.name) in {"RX", "RY", "RZ"}
    ensures GateInstrs(g, show) == Each(TargetPiece(Upper(g.name), FirstParamOr0(g.params), show), g.targets)
  {
    var name := Upper(g.name);
    var angle := FirstParamOr0(g.params);
    var op: string;
    if name == "RX" {
      op := "rx";
      assert op + "(" == "rx(";
    } else if name == "RY" {
      op := "ry";
      assert op + "(" == "ry(";
    } else {
      op := "rz";
      assert op + "(" == "rz(";
    }
    assert Lower(name) == op;
    assert GateInstrs(g, show) == Each(OneQubitOf(op + "(" + show(angle) + ")"), g.targets);
  }

  lemma FixedPiece(g: Gate, show: real -> string)
    requires |g.targets| > 0
    requires Upper(g.name) in {"H", "X", "Y", "Z", "S", "T"}
    ensures GateInstrs(g, show) == Each(TargetPiece(Upper(g.name), FirstParamOr0(g.params), show), g.targets)
  {
    var name := Upper(g.name);
    var op: string;
    if name == "H" {
      op := "h";
    } else if name == "X" {
      op := "x";
    } else if name == "Y" {
      op := "y";
    } else if name == "Z" {
      op := "z";
    } else if name == "S" {
      op := "s";
    } else {
      op := "t";
    }
    assert Lower(name) == op;
    assert GateInstrs(g, show) == Each(OneQubitOf(op), g.targets);
  }

  /**
   * H, X, Y, Z, S, T, RX, RY, RZ and MEASURE write exactly one line per
   * target, in target order, whatever their controls.
   */
  lemma OneLinePerTarget(g: Gate, show: real -> string)
    requires |g.targets| > 0
    requires Upper(g.name) in PerTargetNames
    ensures |GateInstrs(g, show)| == |g.targets|
    ensures forall j :: 0 <= j < |g.targets| ==>
      GateInstrs(g, show)[j] == TargetLine(Upper(g.name), FirstParamOr0(g.params), show, g.targets[j])
  {
    var name := Upper(g.name);
    var p := TargetPiece(name, FirstParamOr0(g.params), show);
    PerTargetPiece(g, show);
    EachCharacterised(p, g.targets);
  }

  /**
   * CNOT and CX write `cx`, CZ writes `cz`, once for every (control, target)
   * pair with the controls outermost; no controls means no lines.
   */
  lemma ControlledLines(g: Gate, show: real -> string)
    requires |g.targets| > 0
    requires Upper(g.name) in {"CNOT", "CX", "CZ"}
    ensures GateInstrs(g, show) == Pairs(if Upper(g.name) == "CZ" then "cz" else "cx", g.controls, g.targets)
    ensures |GateInstrs(g, show)| == |g.controls| * |g.targets|
  {
    PairsCount(if Upper(g.name) == "CZ" then "cz" else "cx", g.controls, g.targets);
  }

  /** SWAP writes one line for its first two targets, and nothing with fewer than two. */
  lemma SwapLine(g: Gate, show: real -> string)
    requires Upper(g.name) == "SWAP"
    ensures GateInstrs(g, show) == if |g.targets| >= 2 then [TwoQubit("swap", g.targets[0], g.targets[1])] else []
  {
  }

  /** An unrecognised gate with a target writes one comment line with its upper-cased name. */
  lemma UnknownGateComment(g: Gate, show: real -> string)
    requires |g.targets| > 0
    requires Upper(g.name) !in PerTargetNames + {"CNOT", "CX", "CZ", "SWAP"}
    ensures RenderAll(GateInstrs(g, show)) == "// Unknown gate: " + Upper(g.name) + "\n"
  {
    var u := Unknown(Upper(g.name));
    assert GateInstrs(g, show) == [u];
    assert [u][..0] == [];
    assert RenderAll([u]) == "" + Render(u);
    assert "" + Render(u) == Render(u);
  }

  /** The last row of an m-by-w table ends at m * w. */
  lemma LastRow(m: nat, w: nat)
    requires m >= 1
    ensures (m - 1) * w + w == m * w
  {
  }

  /** The two-qubit gates emit one line per (control, target) pair. */
  lemma {:induction false} PairsCount(op: string, controls: seq<int>, targets: seq<int>)
    ensures |Pairs(op, controls, targets)| == |controls| * |targets|
  {
    if controls != [] {
      var c := controls[|controls| - 1];
      PairsCount(op, controls[..|controls| - 1], targets);
      EachCharacterised(ControlledBy(op, c), targets);
      LastRow(|controls|, |targets|);
    }
  }

  /** Splitting the controls splits the lines the same way. */
  lemma {:induction false} PairsAppend(op: string, a: seq<int>, b: seq<int>, targets: seq<int>)
    ensures Pairs(op, a + b, targets) == Pairs(op, a, targets) + Pairs(op, b, targets)
  {
    if b == [] {
      assert a + b == a;
    } else {
      var init, last := b[..|b| - 1], b[|b| - 1];
      var row, pa, pi := Each(ControlledBy(op, last), targets), Pairs(op, a, targets), Pairs(op, init, targets);
      assert Pairs(op, a + b, targets) == Pairs(op, a + init, targets) + row by {
        assert (a + b)[..|a + b| - 1] == a + init && (a + b)[|a + b| - 1] == last;
      }
      assert Pairs(op, a + init, targets) == pa + pi by {
        PairsAppend(op, a, init, targets);
      }
      assert Pairs(op, b, targets) == pi + row;
      AppendAssociative(pa, pi, row);
    }
  }

  /**
   * Control-major order: the lines of control i are its lines for every
   * target in target order, after those of the earlier controls and before
   * those of the later ones.
   */
  lemma PairsControlMajor(op: string, controls: seq<int>, targets: seq<int>, i: nat)
    requires i < |controls|
    ensures Pairs(op, controls, targets) ==
      Pairs(op, controls[..i], targets) + Each(ControlledBy(op, controls[i]), targets) + Pairs(op, controls[i + 1..], targets)
  {
    var c := controls[i];
    assert controls == controls[..i] + [c] + controls[i + 1..];
    PairsAppend(op, controls[..i] + [c], controls[i + 1..], targets);
    PairsAppend(op, controls[..i], [c], targets);
    assert [c][..0] == [];
  }

  /** A circuit without gates gives the empty text, any other begins with the preamble. */
  lemma QasmEmptyIffNoGates(c: Circuit, show: real -> string)
    ensures Qasm(c, show) == "" <==> |c.gates| == 0
  {
    if |c.gates| > 0 {
      QasmHeader(c, show);
    }
  }

  /**
   * The text starts with the preamble naming `numQubits` qubits, followed by
   * the classical register declaration exactly when some gate is a MEASURE.
   */
  lemma QasmHeader(c: Circuit, show: real -> string)
    requires |c.gates| > 0
    ensures Preamble(c.numQubits) <= Qasm(c, show)
    ensures HasMeasurements(c.gates) <==> Preamble(c.numQubits) + CregLine(c.numQubits) <= Qasm(c, show)
  {
    var n := c.numQubits;
    var p, creg := Preamble(n), CregLine(n);
    var rest := RenderAll(BodyInstrs(SortByStep(c.gates), show));
    var text := Qasm(c, show);
    if HasMeasurements(c.gates) {
      assert text == ((p + creg) + "\n") + rest;
      AppendAssociative(p + creg, "\n", rest);
      PrefixOfAppend(p + creg, "\n" + rest);
      PrefixOfAppend(p, creg);
    } else {
      assert text == ((p + "") + "\n") + rest;
      assert p + "" == p;
      AppendAssociative(p, "\n", rest);
      PrefixOfAppend(p, "\n" + rest);
      assert text[|p|] == '\n';
      assert creg[0] == 'c';
      assert (p + creg)[|p|] == 'c';
    }
  }

  /**
   * Only the order of the gates within each step matters: two circuits of the
   * same width whose gates agree step by step give the same text, however
   * their lists interleave the steps.
   */
  lemma QasmDependsOnStepOrderOnly(c1: Circuit, c2: Circuit, show: real -> string)
    requires c1.numQubits == c2.numQubits
    requires forall k :: WithStep(c1.gates, k) == WithStep(c2.gates, k)
    ensures Qasm(c1, show) == Qasm(c2, show)
  {
    SameStepOrderSameSort(c1.gates, c2.gates);
    assert HasMeasurements(c1.gates) == HasMeasurements(c2.gates);
    if |c1.gates| > 0 {
      assert c1.gates[0] in c2.gates;
    }
    if |c2.gates| > 0 {
      assert c2.gates[0] in c1.gates;
    }
  }

  /** Gates without targets emit nothing: dropping them leaves the instructions unchanged. */
  lemma {:induction false} TargetlessGatesEmitNothing(gs: seq<Gate>, show: real -> string)
    ensures BodyInstrs(gs, show) == BodyInstrs(WithTargets(gs), show)
  {
    if gs != [] {
      var init, last := gs[..|gs| - 1], gs[|gs| - 1];
      TargetlessGatesEmitNothing(init, show);
      var w := WithTargets(init);
      if |last.targets| > 0 {
        assert WithTargets(gs) == w + [last];
        assert (w + [last])[..|w|] == w;
      } else {
        assert WithTargets(gs) == w;
        assert BodyInstrs(gs, show) == BodyInstrs(init, show) + [];
      }
    }
  }

  lemma RenderTwo(a: Instr, b: Instr)
    ensures RenderAll([a, b]) == Render(a) + Render(b)
  {
    assert [a, b][..1] == [a];
    assert [a][..0] == [];
    assert RenderAll([a]) == "" + Render(a);
    assert "" + Render(a) == Render(a);
  }

  /**
   * A Bell-pair circuit listed out of order (CNOT from q0 to q1 at step 1
   * first, H on q0 at step 0 second): the text has no classical register and
   * the lines `h q[0];` and `cx q[0],q[1];` in step order.
   */
  lemma BellCircuitText(show: real -> string)
    ensures Qasm(Circuit(2, [Gate("CNOT", [1], [0], [], Some(1)), Gate("H", [0], [], [], Some(0))]), show)
      == Header(2, false) + Render(OneQubit("h", 0)) + Render(TwoQubit("cx", 0, 1))
  {
    var h := Gate("H", [0], [], [], Some(0));
    var cx := Gate("CNOT", [1], [0], [], Some(1));
    var c := Circuit(2, [cx, h]);
    assert !HasMeasurements(c.gates) by {
      UpperOfUpperCase("H");
      UpperOfUpperCase("CNOT");
      UpperOfUpperCase("MEASURE");
      assert Upper(h.name) != "MEASURE" && Upper(cx.name) != "MEASURE";
    }
    var hi := OneQubit("h", 0);
    var cxi := TwoQubit("cx", 0, 1);
    BellInstrs(h, cx, show);
    RenderTwo(hi, cxi);
    AppendAssociative(Header(2, false), Render(hi), Render(cxi));
  }

  lemma BellInstrs(h: Gate, cx: Gate, show: real -> string)
    requires h == Gate("H", [0], [], [], Some(0))
    requires cx == Gate("CNOT", [1], [0], [], Some(1))
    ensures BodyInstrs(SortByStep([cx, h]), show) == [OneQubit("h", 0), TwoQubit("cx", 0, 1)]
  {
    SortTwo(cx, h);
    assert StepKey(h) == 0 && StepKey(cx) == 1;
    var sorted := SortByStep([cx, h]);
    assert sorted == [h, cx];
    BodyOfTwo(h, cx, show);
    HadamardInstrs(h, show);
    CnotInstrs(cx, show);
    assert BodyInstrs(sorted, show) == [OneQubit("h", 0)] + [TwoQubit("cx", 0, 1)];
  }

  lemma BodyOfTwo(a: Gate, b: Gate, show: real -> string)
    ensures BodyInstrs([a, b], show) == GateInstrs(a, show) + GateInstrs(b, show)
  {
    assert [a, b][..1] == [a];
    assert BodyInstrs([a], show) == BodyInstrs([], show) + GateInstrs(a, show);
  }

  lemma HadamardInstrs(h: Gate, show: real -> string)
    requires h == Gate("H", [0], [], [], Some(0))
    ensures GateInstrs(h, show) == [OneQubit("h", 0)]
  {
    UpperOfUpperCase("H");
    assert [0][..0] == [];
  }

  lemma CnotInstrs(cx: Gate, show: real -> string)
    requires cx == Gate("CNOT", [1], [0], [], Some(1))
    ensures GateInstrs(cx, show) == [TwoQubit("cx", 0, 1)]
  {
    UpperOfUpperCase("CNOT");
    assert [0][..0] == [] && [1][..0] == [];
    assert Pairs("cx", [0], [1]) == [] + Each(ControlledBy("cx", 0), [1]);
  }
}
