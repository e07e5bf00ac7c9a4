/**
 * The editing rules of the circuit builder page
 * (frontend/src/pages/CircuitBuilder.tsx): placing a gate in a grid cell
 * (with a pending state for rotations that still need an angle), clearing a
 * cell, adding and removing qubits, clearing all gates, appending a column
 * of measurements, and the map from grid cells to the gate shown there.
 */
module CircuitBuilder {
  import opened Wrappers
  import opened Text
  import opened CircuitStore
  import opened GateOrder

  // ---------------------------------------------------------------------------
  // Circuit edits (each builds a new circuit for `setCircuit`)

  /** `g.step === step && g.targets?.includes(q)`: the gate occupies cell (q, step). */
  predicate InCell(g: Gate, q: int, step: int) {
    g.step == Some(step) && q in g.targets
  }

  /** `gates.filter(g => !(g.step === step && g.targets?.includes(q)))` */
  function WithoutCell(gs: seq<Gate>, q: int, step: int): seq<Gate> {
    if gs == [] then []
    else
      var last := gs[|gs| - 1];
      WithoutCell(gs[..|gs| - 1], q, step) + (if InCell(last, q, step) then [] else [last])
  }

  /** The gates occupying cell (q, step), in order. */
  function CellGates(gs: seq<Gate>, q: int, step: int): seq<Gate> {
    if gs == [] then []
    else
      var last := gs[|gs| - 1];
      CellGates(gs[..|gs| - 1], q, step) + (if InCell(last, q, step) then [last] else [])
  }

  /** The gate `addGate` places: `{ name, targets: [q], step, params }`. */
  function Placed(name: string, q: int, step: int, params: seq<real>): Gate {
    Gate(name, [q], [], params, Some(step))
  }

  /** `['RX', 'RY', 'RZ'].includes(name.toUpperCase()) && !params` */
  predicate NeedsAngle(name: string, params: Option<seq<real>>) {
    Upper(name) in {"RX", "RY", "RZ"} && params.None?
  }

  /** The circuit after a gate is placed: whatever occupied the cell goes, the new gate comes last. */
  function WithGate(c: Circuit, name: string, q: int, step: int, params: seq<real>): Circuit {
    c.(gates := WithoutCell(c.gates, q, step) + [Placed(name, q, step, params)])
  }

  /** `clearCell(q, step)` */
  function CellCleared(c: Circuit, q: int, step: int): Circuit {
    c.(gates := WithoutCell(c.gates, q, step))
  }

  /** `+ Qubit`: one more qubit, at most 8. */
  function QubitAdded(c: Circuit): Circuit {
    c.(numQubits := if c.numQubits + 1 < 8 then c.numQubits + 1 else 8)
  }

  /** `g.targets.some(t => t >= bound)` */
  predicate TargetsReach(g: Gate, bound: int) {
    exists t :: t in g.targets && t >= bound
  }

  /** The gates none of whose targets reaches `bound`, in order. */
  function Below(gs: seq<Gate>, bound: int): seq<Gate> {
    if gs == [] then []
    else
      var last := gs[|gs| - 1];
      Below(gs[..|gs| - 1], bound) + (if TargetsReach(last, bound) then [] else [last])
  }

  /** `- Qubit`: one qubit fewer, at least 1; every gate touching the old last qubit or beyond goes. */
  function QubitRemoved(c: Circuit): Circuit {
    Circuit(if c.numQubits - 1 > 1 then c.numQubits - 1 else 1, Below(c.gates, c.numQubits - 1))
  }

  /** `Clear All Gates` */
  function AllCleared(c: Circuit): Circuit {
    c.(gates := [])
  }

  /** `Math.max(0, ...gates.map(g => g.step || 0))` */
  function MaxStep(gs: seq<Gate>): (r: int)
    ensures r >= 0
    ensures forall g :: g in gs ==> StepKey(g) <= r
    ensures r == 0 || exists g :: g in gs && StepKey(g) == r
  {
    if gs == [] then 0
    else
      var m := MaxStep(gs[..|gs| - 1]);
      var k := StepKey(gs[|gs| - 1]);
      assert gs == gs[..|gs| - 1] + [gs[|gs| - 1]];
      if k > m then k else m
  }

  /** The measurement added on qubit `i`. */
  function MeasureGate(i: int, step: int): Gate {
    Gate("MEASURE", [i], [], [], Some(step))
  }

  /** `Array.from({ length: n }, (_, i) => measure i at step)` */
  function Measurements(n: int, step: int): (r: seq<Gate>)
    ensures |r| == if n < 0 then 0 else n
    ensures forall i :: 0 <= i < |r| ==> r[i] == MeasureGate(i, step)
  {
    if n <= 0 then [] else Measurements(n - 1, step) + [MeasureGate(n - 1, step)]
  }

  /** `Add Measurements`: one MEASURE per qubit, all in the step after the last one used. */
  function WithMeasurements(c: Circuit): Circuit {
    c.(gates := c.gates + Measurements(c.numQubits, MaxStep(c.gates) + 1))
  }

  // ---------------------------------------------------------------------------
  // Properties of the edits

  lemma {:induction false} WithoutCellAppend(a: seq<Gate>, b: seq<Gate>, q: int, step: int)
    ensures WithoutCell(a + b, q, step) == WithoutCell(a, q, step) + WithoutCell(b, q, step)
  {
    if b == [] {
      assert a + b == a;
    } else {
      var init, last := b[..|b| - 1], b[|b| - 1];
      var tail := if InCell(last, q, step) then [] else [last];
      assert (a + b)[..|a + b| - 1] == a + init;
      assert (a + b)[|a + b| - 1] == last;
      assert WithoutCell(a + b, q, step) == WithoutCell(a + init, q, step) + tail;
      WithoutCellAppend(a, init, q, step);
      assert WithoutCell(b, q, step) == WithoutCell(init, q, step) + tail;
    }
  }

  /** Clearing a cell removes exactly the gates in it. */
  lemma {:induction false} WithoutCellMembers(gs: seq<Gate>, q: int, step: int)
    ensures forall g :: g in WithoutCell(gs, q, step) <==> g in gs && !InCell(g, q, step)
  {
    if gs != [] {
      var init, last := gs[..|gs| - 1], gs[|gs| - 1];
      WithoutCellMembers(init, q, step);
      assert gs == init + [last];
    }
  }

  /** Clearing a cell twice is clearing it once. */
  lemma {:induction false} ClearCellIdempotent(c: Circuit, q: int, step: int)
    ensures CellCleared(CellCleared(c, q, step), q, step) == CellCleared(c, q, step)
  {
    WithoutCellTwice(c.gates, q, step);
  }

  lemma {:induction false} WithoutCellTwice(gs: seq<Gate>, q: int, step: int)
    ensures WithoutCell(WithoutCell(gs, q, step), q, step) == WithoutCell(gs, q, step)
  {
    if gs != [] {
      var init, last := gs[..|gs| - 1], gs[|gs| - 1];
      var w := WithoutCell(init, q, step);
      WithoutCellTwice(init, q, step);
      var tail := if InCell(last, q, step) then [] else [last];
      WithoutCellAppend(w, tail, q, step);
      if !InCell(last, q, step) {
        assert [last][..0] == [];
        assert WithoutCell([last], q, step) == WithoutCell([], q, step) + [last];
      }
    }
  }

  /**
   * Clearing a cell keeps every other gate, in order: clearing distributes
   * over concatenation, removes a gate in the cell and keeps one outside it.
   */
  lemma ClearCellKeepsOrder(a: seq<Gate>, g: Gate, b: seq<Gate>, q: int, step: int)
    ensures WithoutCell(a + [g] + b, q, step)
      == WithoutCell(a, q, step) + (if InCell(g, q, step) then [] else [g]) + WithoutCell(b, q, step)
  {
    WithoutCellAppend(a + [g], b, q, step);
    WithoutCellAppend(a, [g], q, step);
    assert [g][..0] == [];
  }

  lemma {:induction false} CellGatesAppend(a: seq<Gate>, b: seq<Gate>, q: int, step: int)
    ensures CellGates(a + b, q, step) == CellGates(a, q, step) + CellGates(b, q, step)
  {
    if b == [] {
      assert a + b == a;
    } else {
      var init, last := b[..|b| - 1], b[|b| - 1];
      var tail := if InCell(last, q, step) then [last] else [];
      assert (a + b)[..|a + b| - 1] == a + init;
      assert (a + b)[|a + b| - 1] == last;
      assert CellGates(a + b, q, step) == CellGates(a + init, q, step) + tail;
      CellGatesAppend(a, init, q, step);
      assert CellGates(b, q, step) == CellGates(init, q, step) + tail;
    }
  }

  lemma {:induction false} NoneLeftInCell(gs: seq<Gate>, q: int, step: int)
    ensures CellGates(WithoutCell(gs, q, step), q, step) == []
  {
    if gs != [] {
      var init, last := gs[..|gs| - 1], gs[|gs| - 1];
      NoneLeftInCell(init, q, step);
      var tail := if InCell(last, q, step) then [] else [last];
      CellGatesAppend(WithoutCell(init, q, step), tail, q, step);
      if !InCell(last, q, step) {
        assert [last][..0] == [];
        assert CellGates([last], q, step) == CellGates([], q, step) + [];
      }
    }
  }

  /**
   * After a gate is placed in cell (q, step) it is the only gate there, the
   * width is unchanged, and the gates outside the cell are kept in order
   * ahead of it.
   */
  lemma PlacedAlone(c: Circuit, name: string, q: int, step: int, params: seq<real>)
    ensures CellGates(WithGate(c, name, q, step, params).gates, q, step) == [Placed(name, q, step, params)]
    ensures WithGate(c, name, q, step, params).numQubits == c.numQubits
    ensures WithGate(c, name, q, step, params).gates[..|WithoutCell(c.gates, q, step)|] == WithoutCell(c.gates, q, step)
  {
    var p := Placed(name, q, step, params);
    var rest := WithoutCell(c.gates, q, step);
    NoneLeftInCell(c.gates, q, step);
    CellGatesAppend(rest, [p], q, step);
    assert [p][..0] == [];
    assert CellGates([p], q, step) == CellGates([], q, step) + [p];
  }

  /** After `- Qubit` every remaining gate targets only qubits below the old last one, and every such gate remains. */
  lemma RemoveQubitDropsTouching(c: Circuit)
    ensures forall g, t :: g in QubitRemoved(c).gates && t in g.targets ==> t < c.numQubits - 1
    ensures forall g :: g in c.gates && (forall t :: t in g.targets ==> t < c.numQubits - 1) ==> g in QubitRemoved(c).gates
    ensures 1 <= QubitRemoved(c).numQubits
  {
    BelowMembers(c.gates, c.numQubits - 1);
  }

  lemma {:induction false} BelowMembers(gs: seq<Gate>, bound: int)
    ensures forall g :: g in Below(gs, bound) <==> g in gs && !TargetsReach(g, bound)
  {
    if gs != [] {
      var init, last := gs[..|gs| - 1], gs[|gs| - 1];
      BelowMembers(init, bound);
      assert gs == init + [last];
    }
  }

  /** On one qubit, `- Qubit` keeps the width at 1 and drops every gate with a non-negative target. */
  lemma RemoveLastQubit(c: Circuit)
    requires c.numQubits == 1
    ensures QubitRemoved(c).numQubits == 1
    ensures forall g, t :: g in QubitRemoved(c).gates && t in g.targets ==> t < 0
  {
    RemoveQubitDropsTouching(c);
  }

  /** Below a width of 8, `- Qubit` undoes `+ Qubit` on a circuit whose targets are all in range. */
  lemma {:induction false} RemoveUndoesAdd(c: Circuit)
    requires 1 <= c.numQubits < 8
    requires forall g, t :: g in c.gates && t in g.targets ==> t < c.numQubits
    ensures QubitRemoved(QubitAdded(c)) == c
  {
    BelowKeepsAll(c.gates, c.numQubits);
  }

  lemma {:induction false} BelowKeepsAll(gs: seq<Gate>, bound: int)
    requires forall g, t :: g in gs && t in g.targets ==> t < bound
    ensures Below(gs, bound) == gs
  {
    if gs != [] {
      var init, last := gs[..|gs| - 1], gs[|gs| - 1];
      assert gs == init + [last];
      BelowKeepsAll(init, bound);
      assert !TargetsReach(last, bound);
      assert Below(gs, bound) == Below(init, bound) + [last];
    }
  }

  /**
   * Add Measurements keeps the gates as a prefix and appends one MEASURE per
   * qubit, the i-th on qubit i, all at one step later than every existing gate.
   */
  lemma MeasurementsAppended(c: Circuit)
    ensures c.gates <= WithMeasurements(c).gates
    ensures |WithMeasurements(c).gates| == |c.gates| + (if c.numQubits < 0 then 0 else c.numQubits)
    ensures forall i :: |c.gates| <= i < |WithMeasurements(c).gates| ==>
      WithMeasurements(c).gates[i] == MeasureGate(i - |c.gates|, MaxStep(c.gates) + 1)
    ensures forall g, m :: g in c.gates && m in WithMeasurements(c).gates[|c.gates|..] ==> StepKey(g) < StepKey(m)
  {
    var ms := Measurements(c.numQubits, MaxStep(c.gates) + 1);
    assert WithMeasurements(c).gates[|c.gates|..] == ms;
  }

  /**
   * Every component visits the measurements last: sorting the extended list
   * is sorting the old list and then appending the measurements in qubit order.
   */
  lemma MeasurementsSortLast(c: Circuit)
    ensures SortByStep(WithMeasurements(c).gates) == SortByStep(c.gates) + WithMeasurements(c).gates[|c.gates|..]
  {
    var all := WithMeasurements(c).gates;
    var ms := all[|c.gates|..];
    assert all == c.gates + ms;
    SortMeasurements(c.gates, ms, c.numQubits);
  }

  lemma SortMeasurements(gs: seq<Gate>, ms: seq<Gate>, n: int)
    requires ms == Measurements(n, MaxStep(gs) + 1)
    ensures SortByStep(gs + ms) == SortByStep(gs) + ms
  {
    var s := MaxStep(gs) + 1;
    forall m | m in ms ensures StepKey(m) == s {
      var i :| 0 <= i < |ms| && ms[i] == m;
    }
    SortThenAppendLater(gs, ms);
  }

  /** Appending gates of one step after all others commutes with sorting. */
  lemma SortThenAppendLater(gs: seq<Gate>, ms: seq<Gate>)
    requires forall m :: m in ms ==> StepKey(m) == MaxStep(gs) + 1
    ensures SortByStep(gs + ms) == SortByStep(gs) + ms
  {
    var r := SortByStep(gs) + ms;
    LaterStepSorted(gs, ms);
    forall k ensures WithStep(r, k) == WithStep(gs + ms, k) {
      WithStepAppend(SortByStep(gs), ms, k);
      WithStepAppend(gs, ms, k);
      SortByStepStable(gs, k);
    }
    StableSortUnique(r, gs + ms);
  }

  /** Sorted gates followed by gates of one later step are sorted. */
  lemma LaterStepSorted(gs: seq<Gate>, ms: seq<Gate>)
    requires forall m :: m in ms ==> StepKey(m) == MaxStep(gs) + 1
    ensures SortedByStep(SortByStep(gs) + ms)
  {
    var sorted := SortByStep(gs);
    var r := sorted + ms;
    SortByStepSorted(gs);
    SortByStepMembers(gs);
    forall i, j | 0 <= i < j < |r| ensures StepKey(r[i]) <= StepKey(r[j]) {
      if j >= |sorted| {
        assert r[j] == ms[j - |sorted|];
        if i < |sorted| {
          assert r[i] in gs;
        } else {
          assert r[i] == ms[i - |sorted|];
        }
      } else {
        assert r[i] == sorted[i] && r[j] == sorted[j];
      }
    }
  }

  // ---------------------------------------------------------------------------
  // The cell map

  /** A cell key `${targets[0]}:${step}` as the pair (qubit, step); absent without a step or targets. */
  function CellKey(g: Gate): Option<(int, int)> {
    if g.step.Some? && |g.targets| > 0 then Some((g.targets[0], g.step.value)) else None
  }

  /** The `cells` record after the loop over `gs`. */
  function CellsOf(gs: seq<Gate>): map<(int, int), Gate> {
    if gs == [] then map[]
    else
      var cells := CellsOf(gs[..|gs| - 1]);
      var g := gs[|gs| - 1];
      match CellKey(g)
      case Some(key) => cells[key := g]
      case None => cells
  }

  /** The loop that fills `cells`. */
  method BuildCells(gates: seq<Gate>) returns (cells: map<(int, int), Gate>)
    ensures cells == CellsOf(gates)
  {
    cells := map[];
    for i := 0 to |gates|
      invariant cells == CellsOf(gates[..i])
    {
      var g := gates[i];
      assert gates[..i + 1][..i] == gates[..i];
      if g.step.Some? && |g.targets| > 0 {
        var key := (g.targets[0], g.step.value);
        cells := cells[key := g];
      }
    }
    assert gates[..|gates|] == gates;
  }

  /** Gate i is keyed to `key` and no later gate is. */
  predicate LastKeyedAt(gs: seq<Gate>, key: (int, int), i: int) {
    0 <= i < |gs| && CellKey(gs[i]) == Some(key) && forall j :: i < j < |gs| ==> CellKey(gs[j]) != Some(key)
  }

  /** A cell has an entry exactly when some gate is keyed to it. */
  lemma {:induction false} CellsDomain(gs: seq<Gate>)
    ensures forall key :: key in CellsOf(gs) <==> exists i :: 0 <= i < |gs| && CellKey(gs[i]) == Some(key)
  {
    if gs != [] {
      var init := gs[..|gs| - 1];
      var n := |gs| - 1;
      CellsDomain(init);
      forall key ensures key in CellsOf(gs) <==> exists i :: 0 <= i < |gs| && CellKey(gs[i]) == Some(key) {
        if key in CellsOf(init) {
          var i :| 0 <= i < |init| && CellKey(init[i]) == Some(key);
          assert gs[i] == init[i];
        }
        if exists i :: 0 <= i < |gs| && CellKey(gs[i]) == Some(key) {
          var i :| 0 <= i < |gs| && CellKey(gs[i]) == Some(key);
          if i < n {
            assert init[i] == gs[i];
          }
        }
      }
    }
  }

  /** The entry of a cell is the last gate keyed to it: a later gate overwrites an earlier one. */
  lemma {:induction false} CellsLastWins(gs: seq<Gate>)
    ensures forall key :: key in CellsOf(gs) ==> exists i :: LastKeyedAt(gs, key, i) && gs[i] == CellsOf(gs)[key]
  {
    if gs != [] {
      var init, g := gs[..|gs| - 1], gs[|gs| - 1];
      var n := |gs| - 1;
      CellsLastWins(init);
      forall key | key in CellsOf(gs) ensures exists i :: LastKeyedAt(gs, key, i) && gs[i] == CellsOf(gs)[key] {
        if CellKey(g) == Some(key) {
          assert LastKeyedAt(gs, key, n);
        } else {
          assert CellsOf(gs)[key] == CellsOf(init)[key];
          var i :| LastKeyedAt(init, key, i) && init[i] == CellsOf(init)[key];
          assert gs[i] == init[i];
          forall j | i < j < |gs| ensures CellKey(gs[j]) != Some(key) {
            if j < n {
              assert gs[j] == init[j];
            }
          }
          assert LastKeyedAt(gs, key, i);
        }
      }
    }
  }

  // ---------------------------------------------------------------------------
  // The page's state

  /** A rotation waiting for its angle: `{ name, qubit, step }`. */
  datatype Pending = Pending(name: string, qubit: int, step: int)

  /** The builder page: the shared store plus its own pending-angle state. */
  class Builder {
    const store: Store
    var pendingGate: Option<Pending>
    var showAngleModal: bool
    var angle: real

    /** Nothing pending, the modal hidden, the angle at pi/4. */
    constructor (store: Store, pi: real)
      ensures this.store == store
      ensures pendingGate == None && !showAngleModal && angle == pi / 4.0
    {
      this.store := store;
      pendingGate := None;
      showAngleModal := false;
      angle := pi / 4.0;
    }

    /**
     * `addGate(name, q, step, params?)`: a rotation without parameters only
     * records what is pending and opens the angle modal; any other gate
     * replaces whatever occupies the cell.
     */
    method AddGate(name: string, q: int, step: int, params: Option<seq<real>>)
      modifies this, store
      ensures angle == old(angle)
      ensures NeedsAngle(name, params) ==>
        store.circuit == old(store.circuit) && pendingGate == Some(Pending(name, q, step)) && showAngleModal
      ensures !NeedsAngle(name, params) ==>
        store.circuit == WithGate(old(store.circuit), name, q, step, params.GetOr([])) &&
        pendingGate == old(pendingGate) && showAngleModal == old(showAngleModal)
    {
      if Upper(name) in {"RX", "RY", "RZ"} && params.None? {
        pendingGate := Some(Pending(name, q, step));
        showAngleModal := true;
        return;
      }
      var filteredGates := WithoutCell(store.circuit.gates, q, step);
      var g := Gate(name, [q], [], params.GetOr([]), Some(step));
      store.SetCircuit(store.circuit.(gates := filteredGates + [g]));
    }

    /** `confirmAngle`: place the pending rotation with the chosen angle and close the modal. */
    method ConfirmAngle()
      modifies this, store
      ensures angle == old(angle)
      ensures old(pendingGate).Some? ==>
        var p := old(pendingGate).value;
        store.circuit == WithGate(old(store.circuit), p.name, p.qubit, p.step, [old(angle)]) &&
        pendingGate == None && !showAngleModal
      ensures old(pendingGate).None? ==>
        store.circuit == old(store.circuit) && pendingGate == None && showAngleModal == old(showAngleModal)
    {
      if pendingGate.Some? {
        var p := pendingGate.value;
        AddGate(p.name, p.qubit, p.step, Some([angle]));
        showAngleModal := false;
        pendingGate := None;
      }
    }

    /** The modal's Cancel button: drop the pending rotation. */
    method CancelAngle()
      modifies this
      ensures pendingGate == None && !showAngleModal && angle == old(angle)
    {
      showAngleModal := false;
      pendingGate := None;
    }

    /** The slider and the common-angle buttons. */
    method SetAngle(a: real)
      modifies this
      ensures angle == a && pendingGate == old(pendingGate) && showAngleModal == old(showAngleModal)
    {
      angle := a;
    }

    /** A click on an occupied cell. */
    method ClearCell(q: int, step: int)
      modifies store
      ensures store.circuit == CellCleared(old(store.circuit), q, step)
    {
      store.SetCircuit(store.circuit.(gates := WithoutCell(store.circuit.gates, q, step)));
    }

    /** `+ Qubit` */
    method AddQubit()
      modifies store
      ensures store.circuit == QubitAdded(old(store.circuit))
    {
      var n := store.circuit.numQubits;
      store.SetCircuit(store.circuit.(numQubits := if n + 1 < 8 then n + 1 else 8));
    }

    /** `- Qubit` */
    method RemoveQubit()
      modifies store
      ensures store.circuit == QubitRemoved(old(store.circuit))
    {
      var n := store.circuit.numQubits;
      store.SetCircuit(Circuit(if n - 1 > 1 then n - 1 else 1, Below(store.circuit.gates, n - 1)));
    }

    /** `Clear All Gates` */
    method ClearAll()
      modifies store
      ensures store.circuit == AllCleared(old(store.circuit))
    {
      store.SetCircuit(store.circuit.(gates := []));
    }

    /** `Add Measurements` */
    method AddMeasurements()
      modifies store
      ensures store.circuit == WithMeasurements(old(store.circuit))
    {
      var maxStep := MaxStep(store.circuit.gates);
      var measurementGates := Measurements(store.circuit.numQubits, maxStep + 1);
      store.SetCircuit(store.circuit.(gates := store.circuit.gates + measurementGates));
    }
  }
}
