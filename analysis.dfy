/**
 * The client-side simulation of the Analysis page
 * (frontend/src/pages/Analysis.tsx, `simulateCircuit`): a 2^n real
 * amplitude vector starting at |0...0>, to which only H gates are applied
 * (by the index loop as written, which is not a Hadamard), then squared into
 * probabilities and rounded into counts for 1024 shots.
 */
module Analysis {
  import opened Wrappers
  import opened Text
  import opened RealMath
  import opened CircuitStore
  import opened GateOrder

  const Shots: int := 1024

  /** Probabilities at or below this are left out of the counts. */
  const Threshold: real := 0.001

  /** `(i >> q) & 1`: bit `q` of `i`. */
  function Bit(i: nat, q: nat): (b: nat)
    ensures b < 2
    ensures b == 1 ==> i >= Pow2(q)
  {
    if q == 0 then i % 2 else Bit(i / 2, q - 1)
  }

  /** Adding 2^q flips bit q. */
  lemma {:induction false} AddFlipsBit(i: nat, q: nat)
    ensures Bit(i + Pow2(q), q) == 1 - Bit(i, q)
  {
    if q > 0 {
      assert (i + Pow2(q)) / 2 == i / 2 + Pow2(q - 1);
      AddFlipsBit(i / 2, q - 1);
    }
  }

  /** Below 2^n (q < n), an index whose bit q is clear has its bit-set partner in range. */
  lemma {:induction false} PartnerInRange(i: nat, q: nat, n: nat)
    requires i < Pow2(n) && q < n && Bit(i, q) == 0
    ensures i + Pow2(q) < Pow2(n)
  {
    assert Pow2(n) == 2 * Pow2(n - 1);
    if q == 0 {
      assert i % 2 == 0;
    } else {
      var h := i / 2;
      assert h < Pow2(n - 1);
      PartnerInRange(h, q - 1, n - 1);
      assert Pow2(q) == 2 * Pow2(q - 1);
      assert i == 2 * h + i % 2;
      assert i + Pow2(q) == 2 * (h + Pow2(q - 1)) + i % 2;
    }
  }

  /** The vector the H loop as written produces: 0 where bit q is clear, twice s[j]/sqrt2 at j + 2^q. */
  function HalfHadamard(m: Host, s: seq<real>, q: nat): (t: seq<real>)
    ensures |t| == |s|
  {
    seq(|s|, k requires 0 <= k < |s| =>
      if Bit(k, q) == 0 then 0.0 else s[k - Pow2(q)] / m.sqrt2 + s[k - Pow2(q)] / m.sqrt2)
  }

  /** `newStateVector[k]` after the loop has visited the indices below `i`. */
  ghost function Accumulated(m: Host, s: seq<real>, q: nat, i: nat, k: nat): real
    requires k < |s|
  {
    var b := Pow2(q);
    if Bit(k, q) == 0 then
      (if k < i then s[k] / m.sqrt2 else 0.0) - (if k + b < i then s[k] / m.sqrt2 else 0.0)
    else
      (if k - b < i then s[k - b] / m.sqrt2 else 0.0) + (if k < i then s[k - b] / m.sqrt2 else 0.0)
  }

  /** Once every index is visited, the accumulated value is the closed form. */
  lemma AccumulatedComplete(m: Host, s: seq<real>, q: nat, n: nat, k: nat)
    requires |s| == Pow2(n) && q < n && k < |s|
    ensures Accumulated(m, s, q, |s|, k) == HalfHadamard(m, s, q)[k]
  {
    if Bit(k, q) == 0 {
      PartnerInRange(k, q, n);
    }
  }

  /** What visiting index `i` adds to `newStateVector[k]`. */
  ghost function Contribution(m: Host, s: seq<real>, q: nat, i: nat, k: nat): real
    requires i < |s|
  {
    var b := Pow2(q);
    if Bit(i, q) == 0 then
      (if k == i then s[i] / m.sqrt2 else 0.0) + (if k == i + b then s[i] / m.sqrt2 else 0.0)
    else
      (if k == i then s[i - b] / m.sqrt2 else 0.0) - (if k == i - b then s[i - b] / m.sqrt2 else 0.0)
  }

  lemma AccumulatedStep(m: Host, s: seq<real>, q: nat, i: nat, k: nat)
    requires i < |s| && k < |s|
    ensures Accumulated(m, s, q, i + 1, k) == Accumulated(m, s, q, i, k) + Contribution(m, s, q, i, k)
  {
    var b := Pow2(q);
    if Bit(i, q) == 0 {
      AddFlipsBit(i, q);
      if Bit(k, q) == 0 {
        assert k != i + b;
        AddFlipsBit(k, q);
        assert k + b != i;
      } else {
        assert k != i;
        assert k - b == i <==> k == i + b;
      }
    } else {
      AddFlipsBit(i - b, q);
      if Bit(k, q) == 0 {
        assert k != i;
        assert k + b == i <==> k == i - b;
      } else {
        assert k != i - b;
        AddFlipsBit(k - b, q);
        assert k - b != i;
      }
    }
  }

  /** The H gate of the loop: one pass over the indices, accumulating into a zeroed vector. */
  method ApplyHadamard(m: Host, stateVector: seq<real>, qubit: nat, ghost n: nat) returns (t: seq<real>)
    requires |stateVector| == Pow2(n) && qubit < n
    ensures t == HalfHadamard(m, stateVector, qubit)
  {
    var numStates := |stateVector|;
    var newStateVector := new real[numStates](_ => 0.0);
    var b := Pow2(qubit);
    for i := 0 to numStates
      invariant forall k :: 0 <= k < numStates ==>
        newStateVector[k] == Accumulated(m, stateVector, qubit, i, k)
    {
      ghost var before := newStateVector[..];
      var bit := Bit(i, qubit);
      if bit == 0 {
        var flipped := i + b;
        PartnerInRange(i, qubit, n);
        newStateVector[i] := newStateVector[i] + stateVector[i] / m.sqrt2;
        newStateVector[flipped] := newStateVector[flipped] + stateVector[i] / m.sqrt2;
      } else {
        var flipped := i - b;
        newStateVector[i] := newStateVector[i] + stateVector[flipped] / m.sqrt2;
        newStateVector[flipped] := newStateVector[flipped] - stateVector[flipped] / m.sqrt2;
      }
      forall k | 0 <= k < numStates
        ensures newStateVector[k] == before[k] + Contribution(m, stateVector, qubit, i, k)
      {
      }
      forall k | 0 <= k < numStates
        ensures newStateVector[k] == Accumulated(m, stateVector, qubit, i + 1, k)
      {
        AccumulatedStep(m, stateVector, qubit, i, k);
      }
    }
    forall k | 0 <= k < numStates
      ensures newStateVector[k] == HalfHadamard(m, stateVector, qubit)[k]
    {
      AccumulatedComplete(m, stateVector, qubit, n, k);
    }
    t := newStateVector[..];
  }

  /** An H gate with at least one target: the only gates that change the vector. */
  predicate IsHadamard(g: Gate) {
    Upper(g.name) == "H" && |g.targets| > 0
  }

  /** Every H gate of `gs` has its first target in [0, n). */
  predicate TargetsInRange(gs: seq<Gate>, n: int) {
    forall g :: g in gs && IsHadamard(g) ==> 0 <= g.targets[0] < n
  }

  /** Every H gate of `gs` has a non-negative first target. */
  predicate TargetsNonNegative(gs: seq<Gate>) {
    forall g :: g in gs && IsHadamard(g) ==> 0 <= g.targets[0]
  }

  /**
   * The circuits the simulation handles: an empty gate list, or a
   * non-negative qubit count with every H gate's first target below it.
   */
  predicate InDomain(c: Circuit) {
    |c.gates| > 0 ==> c.numQubits >= 0 && TargetsInRange(c.gates, c.numQubits)
  }

  /** The initial vector: amplitude 1 at |0...0>, 0 elsewhere. */
  function InitialVector(n: nat): (v: seq<real>)
    ensures |v| == Pow2(n)
    ensures v[0] == 1.0 && forall i :: 0 < i < |v| ==> v[i] == 0.0
  {
    seq(Pow2(n), i => if i == 0 then 1.0 else 0.0)
  }

  /** One gate of the loop: an H gate rewrites the vector, anything else is skipped. */
  function ApplyGate(m: Host, v: seq<real>, g: Gate): seq<real>
    requires IsHadamard(g) ==> g.targets[0] >= 0
  {
    if IsHadamard(g) then HalfHadamard(m, v, g.targets[0] as nat) else v
  }

  /** The gates applied one after another. */
  function ApplyAll(m: Host, v: seq<real>, gs: seq<Gate>): (r: seq<real>)
    requires TargetsNonNegative(gs)
    ensures |r| == |v|
  {
    if gs == [] then v
    else
      assert TargetsNonNegative(gs[..|gs| - 1]) by {
        forall g | g in gs[..|gs| - 1] ensures g in gs { }
      }
      ApplyGate(m, ApplyAll(m, v, gs[..|gs| - 1]), gs[|gs| - 1])
  }

  /** `Math.abs(amp) ** 2` for every amplitude. */
  function Probabilities(v: seq<real>): (p: seq<real>)
    ensures |p| == |v|
    ensures forall i :: 0 <= i < |p| ==> p[i] >= 0.0
  {
    seq(|v|, i requires 0 <= i < |v| => v[i] * v[i])
  }

  /** The counts after the counting loop has visited the indices below `i`. */
  function CountsUpTo(p: seq<real>, n: nat, i: nat): map<string, int>
    requires i <= |p|
  {
    if i == 0 then map[]
    else
      var counts := CountsUpTo(p, n, i - 1);
      if p[i - 1] > Threshold then counts[PaddedBinary(i - 1, n) := Round(p[i - 1] * Shots as real)]
      else counts
  }

  /** The result of `simulateCircuit`. */
  datatype Estimate = Estimate(probabilities: seq<real>, counts: map<string, int>)

  /** What `simulateCircuit` returns. */
  function Simulate(m: Host, c: Circuit): Estimate
    requires InDomain(c)
  {
    if |c.gates| == 0 then Estimate([], map[])
    else
      var n := c.numQubits as nat;
      var sorted := SortByStep(c.gates);
      SortByStepMembers(c.gates);
      var p := Probabilities(ApplyAll(m, InitialVector(n), sorted));
      Estimate(p, CountsUpTo(p, n, |p|))
  }

  /** The H loop of `simulateCircuit` over the sorted gates. */
  method ApplyGates(m: Host, numQubits: nat, sortedGates: seq<Gate>) returns (stateVector: seq<real>)
    requires TargetsInRange(sortedGates, numQubits)
    ensures stateVector == ApplyAll(m, InitialVector(numQubits), sortedGates)
  {
    stateVector := InitialVector(numQubits);
    for j := 0 to |sortedGates|
      invariant |stateVector| == Pow2(numQubits)
      invariant stateVector == ApplyAll(m, InitialVector(numQubits), sortedGates[..j])
    {
      var gate := sortedGates[j];
      assert sortedGates[..j + 1] == sortedGates[..j] + [gate];
      if Upper(gate.name) == "H" && |gate.targets| > 0 {
        var qubit := gate.targets[0];
        stateVector := ApplyHadamard(m, stateVector, qubit as nat, numQubits);
      }
    }
    assert sortedGates[..|sortedGates|] == sortedGates;
  }

  /** The counting loop of `simulateCircuit`. */
  method CountShots(probabilities: seq<real>, numQubits: nat) returns (counts: map<string, int>)
    ensures counts == CountsUpTo(probabilities, numQubits, |probabilities|)
  {
    counts := map[];
    for i := 0 to |probabilities|
      invariant counts == CountsUpTo(probabilities, numQubits, i)
    {
      assert CountsUpTo(probabilities, numQubits, i + 1) ==
        if probabilities[i] > Threshold
        then counts[PaddedBinary(i, numQubits) := Round(probabilities[i] * Shots as real)]
        else counts;
      if probabilities[i] > Threshold {
        var binaryState := PaddedBinary(i, numQubits);
        counts := counts[binaryState := Round(probabilities[i] * Shots as real)];
      }
    }
  }

  /** `simulateCircuit`: the H loop over the sorted gates, the squares, the counting loop. */
  method SimulateCircuit(m: Host, c: Circuit) returns (probabilities: seq<real>, counts: map<string, int>)
    requires InDomain(c)
    ensures Estimate(probabilities, counts) == Simulate(m, c)
  {
    if |c.gates| == 0 {
      return [], map[];
    }
    var numQubits := c.numQubits as nat;
    var sortedGates := SortByStep(c.gates);
    SortByStepMembers(c.gates);
    var stateVector := ApplyGates(m, numQubits, sortedGates);
    probabilities := seq(|stateVector|, i requires 0 <= i < |stateVector| => stateVector[i] * stateVector[i]);
    counts := CountShots(probabilities, numQubits);
  }

  // ---------------------------------------------------------------------------
  // The counts

  /** Labels of indices below 2^n are pairwise distinct. */
  lemma LabelsDistinct(i: nat, j: nat, n: nat)
    requires i < Pow2(n) && j < Pow2(n) && i != j
    ensures PaddedBinary(i, n) != PaddedBinary(j, n)
  {
    if n >= 1 {
      PaddedBinaryDistinct(i, j, n);
    }
  }

  /**
   * The counts have a key exactly for each index whose probability exceeds
   * 0.001: its binary numeral padded to n digits.
   */
  lemma {:induction false} CountsKeys(p: seq<real>, n: nat, i: nat)
    requires i <= |p|
    ensures forall key :: key in CountsUpTo(p, n, i) <==>
      exists j :: 0 <= j < i && p[j] > Threshold && key == PaddedBinary(j, n)
  {
    if i > 0 {
      CountsKeys(p, n, i - 1);
      var prev := CountsUpTo(p, n, i - 1);
      var cur := CountsUpTo(p, n, i);
      assert forall key :: key in cur <==> key in prev || (p[i - 1] > Threshold && key == PaddedBinary(i - 1, n));
      KeysStep(prev.Keys, cur.Keys, p, i, (j: nat) => PaddedBinary(j, n));
    }
  }

  /** One step of the counting loop, with the labelling left abstract. */
  lemma KeysStep(prev: set<string>, cur: set<string>, p: seq<real>, i: nat, tag: nat -> string)
    requires 1 <= i <= |p|
    requires forall key :: key in prev <==> exists j :: 0 <= j < i - 1 && p[j] > Threshold && key == tag(j)
    requires forall key :: key in cur <==> key in prev || (p[i - 1] > Threshold && key == tag(i - 1))
    ensures forall key :: key in cur <==> exists j :: 0 <= j < i && p[j] > Threshold && key == tag(j)
  {
    forall key
      ensures key in cur <==> exists j :: 0 <= j < i && p[j] > Threshold && key == tag(j)
    {
      if exists j :: 0 <= j < i && p[j] > Threshold && key == tag(j) {
        var j :| 0 <= j < i && p[j] > Threshold && key == tag(j);
        if j < i - 1 {
          assert key in prev;
        }
      }
    }
  }

  /** The key of each index above 0.001 holds round(probability * 1024). */
  lemma {:induction false} CountsValues(p: seq<real>, n: nat, i: nat)
    requires i <= |p| <= Pow2(n)
    ensures forall j :: 0 <= j < i && p[j] > Threshold ==>
      PaddedBinary(j, n) in CountsUpTo(p, n, i) &&
      CountsUpTo(p, n, i)[PaddedBinary(j, n)] == Round(p[j] * Shots as real)
  {
    if i > 0 {
      CountsValues(p, n, i - 1);
      forall j | 0 <= j < i - 1
        ensures PaddedBinary(j, n) != PaddedBinary(i - 1, n)
      {
        LabelsDistinct(j, i - 1, n);
      }
    }
  }

  /** The counts of a vector with amplitude 1 at index 0 and 0 elsewhere. */
  lemma {:induction false} GroundCounts(p: seq<real>, n: nat, i: nat)
    requires 1 <= i <= |p|
    requires p[0] == 1.0 && forall j :: 0 < j < |p| ==> p[j] == 0.0
    ensures CountsUpTo(p, n, i) == map[PaddedBinary(0, n) := Shots]
  {
    if i > 1 {
      GroundCounts(p, n, i - 1);
    } else {
      assert Round(1.0 * Shots as real) == Shots;
    }
  }

  // ---------------------------------------------------------------------------
  // The vector

  /** The gates that change the vector, in order. */
  function Hadamards(gs: seq<Gate>): (r: seq<Gate>)
    ensures forall g :: g in r <==> g in gs && IsHadamard(g)
  {
    if gs == [] then []
    else Hadamards(gs[..|gs| - 1]) + (if IsHadamard(gs[|gs| - 1]) then [gs[|gs| - 1]] else [])
  }

  /** Only H gates with a target change the vector: the others can be dropped. */
  lemma {:induction false} OnlyHadamardsMatter(m: Host, v: seq<real>, gs: seq<Gate>)
    requires TargetsNonNegative(gs)
    ensures ApplyAll(m, v, gs) == ApplyAll(m, v, Hadamards(gs))
  {
    if gs != [] {
      var init, last := gs[..|gs| - 1], gs[|gs| - 1];
      assert TargetsNonNegative(init) by {
        forall g | g in init ensures g in gs { }
      }
      OnlyHadamardsMatter(m, v, init);
      var h := Hadamards(init);
      if IsHadamard(last) {
        assert Hadamards(gs) == h + [last];
        assert (h + [last])[..|h|] == h;
      } else {
        assert Hadamards(gs) == h;
      }
    }
  }

  /** A non-empty circuit without H gates measures |0...0> in all 1024 shots. */
  lemma NoHadamardGivesGround(m: Host, c: Circuit)
    requires InDomain(c) && |c.gates| > 0
    requires forall g :: g in c.gates ==> !IsHadamard(g)
    ensures Simulate(m, c).probabilities == Probabilities(InitialVector(c.numQubits as nat))
    ensures Simulate(m, c).counts == map[PaddedBinary(0, c.numQubits as nat) := Shots]
  {
    var n := c.numQubits as nat;
    var sorted := SortByStep(c.gates);
    SortByStepMembers(c.gates);
    OnlyHadamardsMatter(m, InitialVector(n), sorted);
    assert Hadamards(sorted) == [];
    var p := Probabilities(InitialVector(n));
    GroundCounts(p, n, |p|);
  }

  /** The all-zero label of width n >= 1 is n '0' characters. */
  lemma GroundLabel(n: nat)
    requires n >= 1
    ensures PaddedBinary(0, n) == seq(n, _ => '0')
  {
    PaddedBinaryIsBits(0, n);
    ZeroBits(0, n);
  }

  /** After the loop, every amplitude at an index with bit q clear is 0. */
  lemma HalfHadamardClearsBit(m: Host, s: seq<real>, q: nat, k: nat)
    requires k < |s| && Bit(k, q) == 0
    ensures HalfHadamard(m, s, q)[k] == 0.0
  {
  }

  /**
   * The loop as written is not a Hadamard: applying it twice to the same
   * qubit leaves every amplitude 0.
   */
  lemma HalfHadamardTwiceVanishes(m: Host, s: seq<real>, q: nat)
    ensures HalfHadamard(m, HalfHadamard(m, s, q), q) == seq(|s|, _ => 0.0)
  {
    var t := HalfHadamard(m, s, q);
    var u := HalfHadamard(m, t, q);
    forall k | 0 <= k < |s|
      ensures u[k] == 0.0
    {
      if Bit(k, q) == 1 {
        AddFlipsBit(k - Pow2(q), q);
        assert t[k - Pow2(q)] == 0.0;
      }
    }
  }

  /**
   * One H on a single qubit: probabilities (0, 2) instead of (1/2, 1/2),
   * and all 2048 "shots" land on "1".
   */
  lemma SingleHadamard(m: Host, c: Circuit)
    requires m.Valid()
    requires c == Circuit(1, [Gate("H", [0], [], [], Some(0))])
    ensures Simulate(m, c) == Estimate([0.0, 2.0], map["1" := 2 * Shots])
  {
    var g := c.gates[0];
    UpperOfUpperCase("H");
    assert IsHadamard(g);
    assert SortByStep([g]) == [g] by {
      assert [g][..0] == [];
    }
    var v := InitialVector(1);
    assert v == [1.0, 0.0];
    var r := m.sqrt2;
    assert Bit(0, 0) == 0 && Bit(1, 0) == 1;
    var h := HalfHadamard(m, v, 0);
    assert h == [0.0, 1.0 / r + 1.0 / r];
    assert [g][..0] == [];
    assert ApplyAll(m, v, [g]) == h;
    var two := 1.0 / r + 1.0 / r;
    assert two * two == 2.0 by {
      assert two * r == 2.0;
      assert (two * r) * (two * r) == 4.0;
      assert two * two * (r * r) == 4.0;
    }
    var p := Probabilities(h);
    assert p[1] == two * two;
    assert p == [0.0, 2.0];
    assert CountsUpTo(p, 1, 1) == map[];
    assert PaddedBinary(1, 1) == "1";
    assert Round(2.0 * Shots as real) == 2 * Shots;
  }

  /** Equal superposition of one qubit: 512 shots each for "0" and "1". */
  lemma EvenSplitCounts()
    ensures CountsUpTo([0.5, 0.5], 1, 2) == map["0" := 512, "1" := 512]
  {
    assert PaddedBinary(0, 1) == "0" && PaddedBinary(1, 1) == "1";
    assert Round(0.5 * Shots as real) == 512;
  }
}
