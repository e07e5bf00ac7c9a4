/**
 * The client-side Bloch-vector calculation of the Bloch sphere view
 * (frontend/src/components/BlochSphere.tsx, `calculateBlochVector`): the
 * gates that target qubit 0 are folded, in step order, into a real state
 * (alpha, beta, phase), which is then projected onto (x, y, z).
 */
module BlochSphere {
  import opened Wrappers
  import opened Text
  import opened RealMath
  import opened CircuitStore
  import opened GateOrder

  /** Real amplitudes of |0> and |1> for qubit 0, and the phase RZ accumulates. */
  datatype QubitState = QubitState(alpha: real, beta: real, phase: real)

  datatype BlochVector = BlochVector(x: real, y: real, z: real)

  /** |0>: the state every evolution starts from. */
  const Ground := QubitState(1.0, 0.0, 0.0)

  /** The north pole, returned for an empty circuit or one without qubits. */
  const NorthPole := BlochVector(0.0, 0.0, 1.0)

  /** The gate names that change the state; every other name is ignored. */
  const Evolving: set<string> := {"H", "X", "Y", "Z", "RX", "RY", "RZ"}

  /** Whether `g` changes the state of qubit 0 at all. */
  predicate Acts(g: Gate) {
    0 in g.targets && KindOf(g) != Ignored
  }

  /** The cases of the `switch` on the upper-cased gate name; rotations carry their angle. */
  datatype Kind = HGate | XGate | YGate | ZGate | RXGate(theta: real) | RYGate(theta: real) | RZGate(theta: real) | Ignored

  /** Which case of the `switch` a gate falls into; the angle is `params[0]`, or 0 when absent. */
  function KindOf(g: Gate): (k: Kind)
    ensures k == Ignored <==> Upper(g.name) !in Evolving
  {
    var name := Upper(g.name);
    var theta := FirstParamOr0(g.params);
    if name == "H" then HGate
    else if name == "X" then XGate
    else if name == "Y" then YGate
    else if name == "Z" then ZGate
    else if name == "RX" then RXGate(theta)
    else if name == "RY" then RYGate(theta)
    else if name == "RZ" then RZGate(theta)
    else Ignored
  }

  /** The update rule of one case. */
  function ApplyKind(m: Host, s: QubitState, k: Kind): QubitState {
    var a, b := s.alpha, s.beta;
    match k
    case HGate => QubitState((a + b) / m.sqrt2, (a - b) / m.sqrt2, s.phase)
    case XGate => QubitState(b, a, s.phase)
    case YGate => QubitState(-b, a, s.phase)
    case ZGate => QubitState(a, -b, s.phase)
    case RXGate(theta) =>
      var c, sn := m.cos(theta / 2.0), m.sin(theta / 2.0);
      QubitState(c * a - sn * b, c * b - sn * a, s.phase)
    case RYGate(theta) =>
      var c, sn := m.cos(theta / 2.0), m.sin(theta / 2.0);
      QubitState(c * a - sn * b, c * b + sn * a, s.phase)
    case RZGate(theta) => QubitState(a, b, s.phase + theta / 2.0)
    case Ignored => s
  }

  /** One gate applied to qubit 0: skipped unless it targets qubit 0. */
  function ApplyGate(m: Host, s: QubitState, g: Gate): QubitState {
    if 0 !in g.targets then s else ApplyKind(m, s, KindOf(g))
  }

  /** The gates applied one after another, from |0>. */
  function Evolve(m: Host, gs: seq<Gate>): QubitState {
    if gs == [] then Ground else ApplyGate(m, Evolve(m, gs[..|gs| - 1]), gs[|gs| - 1])
  }

  function Abs(r: real): real {
    if r < 0.0 then -r else r
  }

  /** `Math.atan2(0, v)`: pi for a negative `v`, 0 otherwise. */
  function Atan2OfZero(m: Host, v: real): real {
    if v < 0.0 then m.pi else 0.0
  }

  /** The relative phase `betaPhase - alphaPhase` the projection uses. */
  function RelativePhase(m: Host, s: QubitState): real {
    (Atan2OfZero(m, s.beta) + s.phase) - Atan2OfZero(m, s.alpha)
  }

  /** The Bloch coordinates of a state. */
  function Project(m: Host, s: QubitState): BlochVector {
    var am, bm := Abs(s.alpha), Abs(s.beta);
    var rel := RelativePhase(m, s);
    BlochVector(2.0 * am * bm * m.cos(rel), 2.0 * am * bm * m.sin(rel), am * am - bm * bm)
  }

  /** What `calculateBlochVector` returns for a circuit. */
  function BlochVectorOf(m: Host, c: Circuit): BlochVector {
    if |c.gates| == 0 || c.numQubits == 0 then NorthPole
    else Project(m, Evolve(m, SortByStep(c.gates)))
  }

  /** The `switch` on the upper-cased name for one gate of the loop. */
  method ApplyToQubit0(m: Host, alpha0: real, beta0: real, phase0: real, gate: Gate)
    returns (alpha: real, beta: real, phase: real)
    ensures QubitState(alpha, beta, phase) == ApplyGate(m, QubitState(alpha0, beta0, phase0), gate)
  {
      alpha, beta, phase := alpha0, beta0, phase0;
      if 0 in gate.targets {
        var name := Upper(gate.name);
        if name == "H" {
          var newAlpha := (alpha + beta) / m.sqrt2;
          var newBeta := (alpha - beta) / m.sqrt2;
          alpha, beta := newAlpha, newBeta;
        } else if name == "X" {
          alpha, beta := beta, alpha;
        } else if name == "Y" {
          alpha, beta := -beta, alpha;
        } else if name == "Z" {
          beta := -beta;
        } else if name == "RX" {
          var theta := FirstParamOr0(gate.params);
          var c, s := m.cos(theta / 2.0), m.sin(theta / 2.0);
          alpha, beta := c * alpha - s * beta, c * beta - s * alpha;
        } else if name == "RY" {
          var theta := FirstParamOr0(gate.params);
          var c, s := m.cos(theta / 2.0), m.sin(theta / 2.0);
          alpha, beta := c * alpha - s * beta, c * beta + s * alpha;
        } else if name == "RZ" {
          var theta := FirstParamOr0(gate.params);
          phase := phase + theta / 2.0;
        }
      }
  }

  /** The coordinates computed from the final amplitudes and phase. */
  method ProjectState(m: Host, alpha: real, beta: real, phase: real) returns (v: BlochVector)
    ensures v == Project(m, QubitState(alpha, beta, phase))
  {
    var alphaMag := if alpha < 0.0 then -alpha else alpha;
    var betaMag := if beta < 0.0 then -beta else beta;
    var alphaPhase := if alpha < 0.0 then m.pi else 0.0;
    var betaPhase := (if beta < 0.0 then m.pi else 0.0) + phase;
    assert alphaMag == Abs(alpha) && betaMag == Abs(beta);
    assert betaPhase - alphaPhase == RelativePhase(m, QubitState(alpha, beta, phase));
    v := BlochVector(
      2.0 * alphaMag * betaMag * m.cos(betaPhase - alphaPhase),
      2.0 * alphaMag * betaMag * m.sin(betaPhase - alphaPhase),
      alphaMag * alphaMag - betaMag * betaMag);
  }

  /** `calculateBlochVector`: the gate loop over the sorted gates, then the projection. */
  method CalculateBlochVector(m: Host, c: Circuit) returns (v: BlochVector)
    ensures v == BlochVectorOf(m, c)
  {
    if |c.gates| == 0 {
      return NorthPole;
    }
    if c.numQubits == 0 {
      return NorthPole;
    }
    var alpha, beta, phase := 1.0, 0.0, 0.0;
    var sorted := SortByStep(c.gates);
    for i := 0 to |sorted|
      invariant QubitState(alpha, beta, phase) == Evolve(m, sorted[..i])
    {
      var gate := sorted[i];
      alpha, beta, phase := ApplyToQubit0(m, alpha, beta, phase, gate);
      assert sorted[..i + 1] == sorted[..i] + [gate];
    }
    assert sorted[..|sorted|] == sorted;
    v := ProjectState(m, alpha, beta, phase);
  }

  // ---------------------------------------------------------------------------
  // Evolution

  /** A gate that does not target qubit 0, or whose name is not one of H/X/Y/Z/RX/RY/RZ, changes nothing. */
  lemma InactiveGateIsIdentity(m: Host, s: QubitState, g: Gate)
    requires 0 !in g.targets || Upper(g.name) !in Evolving
    ensures ApplyGate(m, s, g) == s
  {
  }

  /** Gates that do not act on qubit 0 can be dropped without changing the result. */
  lemma {:induction false} OnlyActingGatesMatter(m: Host, gs: seq<Gate>)
    ensures Evolve(m, gs) == Evolve(m, ActingGates(gs))
  {
    if gs != [] {
      var init, last := gs[..|gs| - 1], gs[|gs| - 1];
      OnlyActingGatesMatter(m, init);
      var a := ActingGates(init);
      if Acts(last) {
        assert ActingGates(gs) == a + [last];
        assert (a + [last])[..|a|] == a;
      } else {
        assert ActingGates(gs) == a;
      }
    }
  }

  /** The gates of `gs` that act on qubit 0, in order. */
  function ActingGates(gs: seq<Gate>): (r: seq<Gate>)
    ensures forall g :: g in r <==> g in gs && Acts(g)
  {
    if gs == [] then []
    else ActingGates(gs[..|gs| - 1]) + (if Acts(gs[|gs| - 1]) then [gs[|gs| - 1]] else [])
  }

  /** Evolving the concatenation is evolving the first part, then the second. */
  function EvolveFrom(m: Host, s: QubitState, gs: seq<Gate>): QubitState {
    if gs == [] then s else ApplyGate(m, EvolveFrom(m, s, gs[..|gs| - 1]), gs[|gs| - 1])
  }

  lemma {:induction false} EvolveAppend(m: Host, a: seq<Gate>, b: seq<Gate>)
    ensures Evolve(m, a + b) == EvolveFrom(m, Evolve(m, a), b)
  {
    if b == [] {
      assert a + b == a;
    } else {
      EvolveAppend(m, a, b[..|b| - 1]);
      assert (a + b)[..|a + b| - 1] == a + b[..|b| - 1];
    }
  }

  /** X swaps the amplitudes, so two X gates on qubit 0 cancel. */
  lemma XTwiceIsIdentity(m: Host, s: QubitState, g: Gate)
    requires 0 in g.targets && Upper(g.name) == "X"
    ensures ApplyGate(m, s, g) == QubitState(s.beta, s.alpha, s.phase)
    ensures ApplyGate(m, ApplyGate(m, s, g), g) == s
  {
  }

  /** Z negates beta, so two Z gates on qubit 0 cancel. */
  lemma ZTwiceIsIdentity(m: Host, s: QubitState, g: Gate)
    requires 0 in g.targets && Upper(g.name) == "Z"
    ensures ApplyGate(m, s, g) == QubitState(s.alpha, -s.beta, s.phase)
    ensures ApplyGate(m, ApplyGate(m, s, g), g) == s
  {
  }

  /** Y maps (alpha, beta) to (-beta, alpha), so two Y gates negate and four cancel. */
  lemma YFourTimesIsIdentity(m: Host, s: QubitState, g: Gate)
    requires 0 in g.targets && Upper(g.name) == "Y"
    ensures ApplyGate(m, s, g) == QubitState(-s.beta, s.alpha, s.phase)
    ensures ApplyGate(m, ApplyGate(m, s, g), g) == QubitState(-s.alpha, -s.beta, s.phase)
    ensures ApplyGate(m, ApplyGate(m, ApplyGate(m, ApplyGate(m, s, g), g), g), g) == s
  {
  }

  lemma HadamardTwiceArith(a: real, b: real, r: real)
    requires r > 0.0 && r * r == 2.0
    ensures ((a + b) / r + (a - b) / r) / r == a
    ensures ((a + b) / r - (a - b) / r) / r == b
  {
    var p, q := (a + b) / r, (a - b) / r;
    assert p * r == a + b && q * r == a - b;
    var u, v := (p + q) / r, (p - q) / r;
    assert u * r == p + q && v * r == p - q;
    assert u * (r * r) == (u * r) * r == 2.0 * a;
    assert v * (r * r) == (v * r) * r == 2.0 * b;
  }

  /** Two H gates on qubit 0 restore (alpha, beta). */
  lemma HTwiceIsIdentity(m: Host, s: QubitState, g: Gate)
    requires m.Valid()
    requires 0 in g.targets && Upper(g.name) == "H"
    ensures ApplyGate(m, ApplyGate(m, s, g), g) == s
  {
    HadamardTwiceArith(s.alpha, s.beta, m.sqrt2);
  }

  /** H from |0> gives the equal superposition alpha = beta = 1/sqrt(2). */
  lemma HFromGround(m: Host, g: Gate)
    requires 0 in g.targets && Upper(g.name) == "H"
    ensures Evolve(m, [g]) == QubitState(1.0 / m.sqrt2, 1.0 / m.sqrt2, 0.0)
  {
    assert [g][..0] == [];
  }

  /** RZ keeps the amplitudes and adds half its angle to the phase. */
  lemma RzOnlyShiftsPhase(m: Host, s: QubitState, g: Gate)
    requires 0 in g.targets && Upper(g.name) == "RZ"
    ensures ApplyGate(m, s, g) == QubitState(s.alpha, s.beta, s.phase + FirstParamOr0(g.params) / 2.0)
  {
  }

  /** Only RZ changes the phase. */
  lemma OnlyRzShiftsPhase(m: Host, s: QubitState, g: Gate)
    requires Upper(g.name) != "RZ"
    ensures ApplyGate(m, s, g).phase == s.phase
  {
  }

  /** RX and RY without an angle (theta = 0) leave the state unchanged. */
  lemma RotationByZero(m: Host, s: QubitState, g: Gate)
    requires m.Valid()
    requires Upper(g.name) == "RX" || Upper(g.name) == "RY"
    requires FirstParamOr0(g.params) == 0.0
    ensures ApplyGate(m, s, g) == s
  {
    assert 0.0 / 2.0 == 0.0;
  }

  /** The sum of the first parameters (angles) of a gate list. */
  function AngleSum(gs: seq<Gate>): real {
    if gs == [] then 0.0 else AngleSum(gs[..|gs| - 1]) + FirstParamOr0(gs[|gs| - 1].params)
  }

  /** A run of RZ gates on qubit 0 keeps alpha and beta and adds half the angle sum to the phase. */
  lemma {:induction false} RzRun(m: Host, s: QubitState, rs: seq<Gate>)
    requires forall g :: g in rs ==> 0 in g.targets && Upper(g.name) == "RZ"
    ensures EvolveFrom(m, s, rs) == QubitState(s.alpha, s.beta, s.phase + AngleSum(rs) / 2.0)
  {
    if rs != [] {
      RzRun(m, s, rs[..|rs| - 1]);
    }
  }

  // ---------------------------------------------------------------------------
  // Norm

  function Norm(s: QubitState): real {
    s.alpha * s.alpha + s.beta * s.beta
  }

  lemma HadamardArith(a: real, b: real, r: real)
    requires r > 0.0 && r * r == 2.0
    ensures ((a + b) / r) * ((a + b) / r) + ((a - b) / r) * ((a - b) / r) == a * a + b * b
  {
    var p, q := (a + b) / r, (a - b) / r;
    assert p * r == a + b && q * r == a - b;
    assert 2.0 * (p * p) == (p * r) * (p * r);
    assert 2.0 * (q * q) == (q * r) * (q * r);
  }

  lemma RotationArith(c: real, sn: real, a: real, b: real)
    ensures (c * a - sn * b) * (c * a - sn * b) + (c * b + sn * a) * (c * b + sn * a)
         == (c * c + sn * sn) * (a * a + b * b)
    ensures (c * a - sn * b) * (c * a - sn * b) + (c * b - sn * a) * (c * b - sn * a)
         == (c * c + sn * sn) * (a * a + b * b) - 4.0 * c * sn * a * b
  {
  }

  /** A rotation by an angle whose cosine and sine are on the unit circle keeps the norm. */
  lemma RotationKeepsNorm(c: real, sn: real, a: real, b: real)
    requires c * c + sn * sn == 1.0
    ensures (c * a - sn * b) * (c * a - sn * b) + (c * b + sn * a) * (c * b + sn * a) == a * a + b * b
  {
    RotationArith(c, sn, a, b);
    var n := a * a + b * b;
    assert (c * c + sn * sn) * n == 1.0 * n;
  }

  /** The Hadamard case keeps alpha^2 + beta^2. */
  lemma HadamardKeepsNorm(m: Host, s: QubitState)
    requires m.Valid()
    ensures Norm(ApplyKind(m, s, HGate)) == Norm(s)
  {
    HadamardArith(s.alpha, s.beta, m.sqrt2);
  }

  /** The RY case keeps alpha^2 + beta^2. */
  lemma RyKeepsNorm(m: Host, s: QubitState, theta: real)
    requires m.Valid()
    ensures Norm(ApplyKind(m, s, RYGate(theta))) == Norm(s)
  {
    var c, sn := m.cos(theta / 2.0), m.sin(theta / 2.0);
    assert c * c + sn * sn == 1.0;
    RotationKeepsNorm(c, sn, s.alpha, s.beta);
  }

  /** Every case except RX keeps alpha^2 + beta^2. */
  lemma KindKeepsNorm(m: Host, s: QubitState, k: Kind)
    requires m.Valid()
    requires !k.RXGate?
    ensures Norm(ApplyKind(m, s, k)) == Norm(s)
  {
    match k
    case HGate => HadamardKeepsNorm(m, s);
    case RYGate(theta) => RyKeepsNorm(m, s, theta);
    case YGate => assert (-s.beta) * (-s.beta) == s.beta * s.beta;
    case ZGate => assert (-s.beta) * (-s.beta) == s.beta * s.beta;
    case _ =>
  }

  /** Every gate except RX keeps alpha^2 + beta^2. */
  lemma GateKeepsNorm(m: Host, s: QubitState, g: Gate)
    requires m.Valid()
    requires !(0 in g.targets && Upper(g.name) == "RX")
    ensures Norm(ApplyGate(m, s, g)) == Norm(s)
  {
    if 0 in g.targets {
      var k := KindOf(g);
      assert k.RXGate? ==> Upper(g.name) == "RX";
      KindKeepsNorm(m, s, k);
    }
  }

  /** The RX update, with cosine and sine on the unit circle, loses 4 c s alpha beta of the norm. */
  lemma RxArith(c: real, sn: real, a: real, b: real)
    requires c * c + sn * sn == 1.0
    ensures (c * a - sn * b) * (c * a - sn * b) + (c * b - sn * a) * (c * b - sn * a)
         == (a * a + b * b) - 4.0 * c * sn * a * b
  {
    RotationArith(c, sn, a, b);
    var n := a * a + b * b;
    assert (c * c + sn * sn) * n == 1.0 * n;
  }

  /** RX as written changes alpha^2 + beta^2 by -4 cos(t/2) sin(t/2) alpha beta. */
  lemma RxChangesNorm(m: Host, s: QubitState, g: Gate)
    requires m.Valid()
    requires 0 in g.targets && Upper(g.name) == "RX"
    ensures var t := FirstParamOr0(g.params) / 2.0;
      Norm(ApplyGate(m, s, g)) == Norm(s) - 4.0 * m.cos(t) * m.sin(t) * s.alpha * s.beta
  {
    var theta := FirstParamOr0(g.params);
    assert KindOf(g) == RXGate(theta);
    RxKindNorm(m, s, theta);
  }

  /** The RX case on its own: the norm loses 4 cos(t/2) sin(t/2) alpha beta. */
  lemma RxKindNorm(m: Host, s: QubitState, theta: real)
    requires m.Valid()
    ensures var c, sn := m.cos(theta / 2.0), m.sin(theta / 2.0);
      Norm(ApplyKind(m, s, RXGate(theta))) == Norm(s) - 4.0 * c * sn * s.alpha * s.beta
  {
    var c, sn := m.cos(theta / 2.0), m.sin(theta / 2.0);
    assert c * c + sn * sn == 1.0;
    RxArith(c, sn, s.alpha, s.beta);
  }

  /** Without RX on qubit 0 the evolved state stays normalised. */
  lemma {:induction false} EvolveKeepsNorm(m: Host, gs: seq<Gate>)
    requires m.Valid()
    requires forall g :: g in gs ==> !(0 in g.targets && Upper(g.name) == "RX")
    ensures Norm(Evolve(m, gs)) == 1.0
  {
    if gs != [] {
      EvolveKeepsNorm(m, gs[..|gs| - 1]);
      GateKeepsNorm(m, Evolve(m, gs[..|gs| - 1]), gs[|gs| - 1]);
    }
  }

  // ---------------------------------------------------------------------------
  // Projection

  /** z is alpha^2 - beta^2, signs and phase notwithstanding. */
  lemma ZIsPopulationDifference(m: Host, s: QubitState)
    ensures Project(m, s).z == s.alpha * s.alpha - s.beta * s.beta
  {
  }

  /** A basis state (alpha = 0 or beta = 0) has no x or y component. */
  lemma BasisStateOnAxis(m: Host, s: QubitState)
    requires s.alpha == 0.0 || s.beta == 0.0
    ensures Project(m, s).x == 0.0 && Project(m, s).y == 0.0
  {
  }

  /**
   * With no accumulated phase, y is 0 and x is 2|alpha||beta|, positive
   * exactly when alpha and beta have the same sign (atan2(0, v) is pi for v < 0).
   */
  lemma RealStateProjection(m: Host, s: QubitState)
    requires m.Valid() && s.phase == 0.0
    ensures Project(m, s).y == 0.0
    ensures Project(m, s).x == (if (s.alpha < 0.0) == (s.beta < 0.0) then 1.0 else -1.0)
                               * 2.0 * Abs(s.alpha) * Abs(s.beta)
  {
    var rel := RelativePhase(m, s);
    if (s.alpha < 0.0) == (s.beta < 0.0) {
      assert rel == 0.0;
    } else if s.beta < 0.0 {
      assert rel == m.pi;
    } else {
      assert rel == -m.pi;
    }
  }

  function SquaredLength(v: BlochVector): real {
    v.x * v.x + v.y * v.y + v.z * v.z
  }

  /** The projection lies on the sphere of radius alpha^2 + beta^2. */
  lemma ProjectionRadius(m: Host, s: QubitState)
    requires m.Valid()
    ensures SquaredLength(Project(m, s)) == Norm(s) * Norm(s)
  {
    var am, bm := Abs(s.alpha), Abs(s.beta);
    var rel := RelativePhase(m, s);
    var c, sn := m.cos(rel), m.sin(rel);
    var k := 2.0 * am * bm;
    assert am * am == s.alpha * s.alpha && bm * bm == s.beta * s.beta;
    assert c * c + sn * sn == 1.0;
    calc {
      (k * c) * (k * c) + (k * sn) * (k * sn) + (am * am - bm * bm) * (am * am - bm * bm);
      == k * k * (c * c + sn * sn) + (am * am - bm * bm) * (am * am - bm * bm);
      == k * k + (am * am - bm * bm) * (am * am - bm * bm);
      == (am * am + bm * bm) * (am * am + bm * bm);
    }
  }

  /** Without RX on qubit 0 the Bloch vector of a circuit lies on the unit sphere. */
  lemma OnUnitSphere(m: Host, c: Circuit)
    requires m.Valid()
    requires forall g :: g in c.gates ==> !(0 in g.targets && Upper(g.name) == "RX")
    ensures SquaredLength(BlochVectorOf(m, c)) == 1.0
  {
    if |c.gates| > 0 && c.numQubits != 0 {
      var sorted := SortByStep(c.gates);
      SortByStepMembers(c.gates);
      assert forall g :: g in sorted ==> !(0 in g.targets && Upper(g.name) == "RX");
      EvolveKeepsNorm(m, sorted);
      var s := Evolve(m, sorted);
      ProjectionRadius(m, s);
      assert BlochVectorOf(m, c) == Project(m, s);
    }
  }

  /** The early return agrees with projecting |0>. */
  lemma GroundIsNorthPole(m: Host)
    requires m.Valid()
    ensures Project(m, Ground) == NorthPole
  {
  }

  /**
   * A circuit none of whose gates acts on qubit 0 shows the north pole,
   * the same vector the early return gives for an empty circuit.
   */
  lemma NoActingGateIsNorthPole(m: Host, c: Circuit)
    requires m.Valid()
    requires forall g :: g in c.gates ==> !Acts(g)
    ensures BlochVectorOf(m, c) == NorthPole
  {
    if |c.gates| > 0 && c.numQubits != 0 {
      var sorted := SortByStep(c.gates);
      SortByStepMembers(c.gates);
      OnlyActingGatesMatter(m, sorted);
      NoneActing(sorted);
      GroundIsNorthPole(m);
    }
  }

  lemma {:induction false} NoneActing(gs: seq<Gate>)
    requires forall g :: g in gs ==> !Acts(g)
    ensures ActingGates(gs) == []
  {
    if gs != [] {
      NoneActing(gs[..|gs| - 1]);
      assert gs[|gs| - 1] in gs;
    }
  }

  // ---------------------------------------------------------------------------
  // Scenarios

  /** Steps, not list positions, order the gates: X at step 1 listed before H at step 0 runs H first. */
  lemma StepOrderBeatsListOrder(m: Host, x: Gate, h: Gate)
    requires x == Gate("X", [0], [], [], Some(1)) && h == Gate("H", [0], [], [], Some(0))
    ensures SortByStep([x, h]) == [h, x]
    ensures Evolve(m, SortByStep([x, h])) == QubitState(1.0 / m.sqrt2, 1.0 / m.sqrt2, 0.0)
  {
    SortTwo(x, h);
    UpperOfUpperCase("H");
    UpperOfUpperCase("X");
    assert KindOf(h) == HGate && KindOf(x) == XGate;
    assert [h, x][..1] == [h] && [h][..0] == [];
    assert Evolve(m, [h]) == QubitState(1.0 / m.sqrt2, 1.0 / m.sqrt2, 0.0);
  }

  /**
   * The Bell tutorial circuit (H on qubit 0, then CNOT 0 -> 1) shows the
   * pure H result on the Bloch sphere: the CNOT is ignored by this view.
   */
  lemma BellCircuitShowsPlusState(m: Host, c: Circuit)
    requires m.Valid()
    requires c == Circuit(2, [Gate("H", [0], [], [], Some(0)), Gate("CNOT", [1], [0], [], Some(1))])
    ensures BlochVectorOf(m, c) == BlochVector(1.0, 0.0, 0.0)
  {
    var h, cx := c.gates[0], c.gates[1];
    SortTwo(h, cx);
    assert c.gates == [h, cx];
    UpperOfUpperCase("H");
    assert KindOf(h) == HGate && 0 !in cx.targets;
    assert c.gates[..1] == [h] && [h][..0] == [];
    assert Evolve(m, [h]) == QubitState(1.0 / m.sqrt2, 1.0 / m.sqrt2, 0.0);
    var s := Evolve(m, c.gates);
    assert s == ApplyGate(m, Evolve(m, [h]), cx);
    assert s == QubitState(1.0 / m.sqrt2, 1.0 / m.sqrt2, 0.0);
    RealStateProjection(m, s);
    var r := m.sqrt2;
    assert (1.0 / r) * (1.0 / r) * (r * r) == 1.0;
  }
}
