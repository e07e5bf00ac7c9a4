# QSV-1 circuit core in Dafny

QSV-1 is a quantum-circuit visualiser. A circuit is a number of qubits and a
list of gate records: a name, target and control qubits, numeric parameters
and an optional step. The browser front end edits that list on a grid and
renders it in several ways. The Python back end turns it into a Qiskit
circuit. This project models the deterministic parts of both sides and
proves properties of them:

- **CircuitStore** (`circuit_store.dfy`): the gate and circuit records and the
  application-wide store, a class with one `circuit` field that `setCircuit`
  and `reset` replace.
- **GateOrder** (`gate_order.dfy`): the stable sort by step, where a missing
  step counts as 0. Every component uses it. It is an insertion sort, proved
  to be sorted, stable and a permutation, and proved to be the only sequence
  with those properties.
- **BlochSphere** (`bloch_sphere.dfy`): `calculateBlochVector`. It folds the
  sorted gates that target qubit 0 into real amplitudes `(alpha, beta)` and an
  RZ phase, then projects them onto the Bloch sphere.
- **Analysis** (`analysis.dfy`): `simulateCircuit`. It applies the H index
  loop to a 2^n real vector, squares the amplitudes into probabilities, and
  rounds them into counts for 1024 shots. The array loop is an imperative
  method.
- **QasmDisplay** (`qasm_display.dfy`): `generateQASM`, the OpenQASM 2.0 text.
  It is built with string-accumulating methods and specified by a function
  from the gates to the emitted lines.
- **Simulator** (`simulator.dfy`): `build_qiskit_circuit`, modelled as the
  list of `QuantumCircuit` calls it makes. It also covers the Pauli label of
  `_pauli_string` and the choice of error channels in `build_noise_model`.
- **CircuitBuilder** (`circuit_builder.dfy`): the grid-editing rules of the
  builder page. These are add and replace, the pending-angle dialog, clear a
  cell, add or remove a qubit, clear all, add measurements, and the
  cell-to-gate map.
- **Histogram** and **Amplitudes** (`histogram.dfy`, `amplitudes.dfy`): the
  labels and bar values of the two charts.
- **Text** and **RealMath** (`text.dfy`, `real_math.dfy`) are shared helpers.
  Text holds ASCII case mapping, binary and decimal numerals, and string
  order, which agrees with JavaScript's for strings without characters above
  U+FFFF. RealMath holds `Math.round` and the host's square root, pi,
  cosine and sine.

The host's `Math.sqrt(2)`, `Math.PI`/`np.pi`, `Math.cos` and `Math.sin` are
not definable over Dafny's reals. They are passed in as a record
(`RealMath.Maths`), and its `Valid` predicate lists the only facts the proofs
use. The text form of an angle in the QASM output is a parameter
`show: real -> string`. Qubit indices are formatted by a concrete decimal
formatter.

Three behaviours of the code are easy to misread, and the model keeps them
as written:

- The Bloch projection takes `Math.atan2(0, v)` of each amplitude, which is
  pi for negative `v`, so the signs of the amplitudes reach `x`
  (`BlochSphere.RealStateProjection`).
- The Analysis H loop is not a Hadamard. It sets every amplitude whose bit is
  clear to 0, and sets the partner with the bit set to `2 s[j] / sqrt 2`
  (`Analysis.HalfHadamardClearsBit`, `Analysis.HalfHadamardTwiceVanishes`,
  `Analysis.SingleHadamard`).
- The RX update does not keep `alpha^2 + beta^2`
  (`BlochSphere.RxChangesNorm`). Every other case does
  (`BlochSphere.GateKeepsNorm`).

## Model

| member | source | states |
|---|---|---|
| CircuitStore.Store.constructor | frontend/src/store/circuitStore.ts:22-23 | the store starts with a two-qubit circuit and no gates |
| CircuitStore.Store.SetCircuit | frontend/src/store/circuitStore.ts:24 | the stored circuit becomes exactly the argument |
| CircuitStore.Store.Reset | frontend/src/store/circuitStore.ts:25 | the store holds an empty circuit of the given width, 2 when no width is given |
| CircuitStore.ResetTwice | frontend/src/store/circuitStore.ts:25 | resetting twice leaves the same circuit as resetting once |
| GateOrder.SortByStep | frontend/src/components/BlochSphere.tsx:28 | the sorted gates are a permutation of the input |
| GateOrder.SortByStepSorted | frontend/src/components/BlochSphere.tsx:28 | the sorted gates are in ascending step order, a missing step counting as 0 |
| GateOrder.SortByStepStable | backend/app/services/simulator.py:16 | for every step, the gates of that step keep their input order |
| GateOrder.SortByStepMembers | frontend/src/pages/Analysis.tsx:18 | a gate is in the sorted list exactly when it is in the input |
| GateOrder.StableSortUnique | frontend/src/components/QASMDisplay.tsx:25 | any sequence that is sorted by step and keeps each step's input order equals the sort's result, so every stable sort gives the same order |
| GateOrder.SameStepOrderSameSort | frontend/src/components/QASMDisplay.tsx:25 | two gate lists with the same gates per step, in the same order, sort to the same list |
| GateOrder.SortTwo | frontend/src/pages/Analysis.tsx:18 | of two gates, the one with the smaller step goes first, and equal steps keep their order |
| GateOrder.InsertStable | frontend/src/pages/Analysis.tsx:18 | inserting a gate appends it after the gates of its own step and leaves other steps alone |
| GateOrder.InsertSorted | frontend/src/pages/Analysis.tsx:18 | inserting into a sorted list keeps it sorted |
| BlochSphere.CalculateBlochVector | frontend/src/components/BlochSphere.tsx:14-99 | the result is the north pole for no gates or no qubits, else the projection of qubit 0 evolved by the step-sorted gates |
| BlochSphere.ApplyToQubit0 | frontend/src/components/BlochSphere.tsx:30-83 | one pass of the loop: skip unless the targets include 0, then the update of the upper-cased name's case |
| BlochSphere.ProjectState | frontend/src/components/BlochSphere.tsx:88-98 | the coordinates computed from the final amplitudes and phase |
| BlochSphere.KindOf | frontend/src/components/BlochSphere.tsx:34-83 | a gate is ignored exactly when its upper-cased name is not H, X, Y, Z, RX, RY or RZ |
| BlochSphere.InactiveGateIsIdentity | frontend/src/components/BlochSphere.tsx:32-36 | a gate that misses qubit 0 or has another name leaves alpha, beta and phase unchanged |
| BlochSphere.OnlyActingGatesMatter | frontend/src/components/BlochSphere.tsx:30-84 | dropping every gate that does not act on qubit 0 does not change the final state |
| BlochSphere.EvolveAppend | frontend/src/components/BlochSphere.tsx:30-84 | evolving through two gate lists in turn is evolving through their concatenation |
| BlochSphere.XTwiceIsIdentity | frontend/src/components/BlochSphere.tsx:44-46 | X swaps alpha and beta, and two X gates cancel |
| BlochSphere.ZTwiceIsIdentity | frontend/src/components/BlochSphere.tsx:53-55 | Z negates beta, and two Z gates cancel |
| BlochSphere.YFourTimesIsIdentity | frontend/src/components/BlochSphere.tsx:48-51 | Y maps (alpha, beta) to (-beta, alpha); two negate the state, four restore it |
| BlochSphere.HTwiceIsIdentity | frontend/src/components/BlochSphere.tsx:37-42 | two H gates on qubit 0 restore alpha and beta |
| BlochSphere.HFromGround | frontend/src/components/BlochSphere.tsx:23-42 | H on \|0> gives alpha = beta = 1/sqrt 2 with phase 0 |
| BlochSphere.RzOnlyShiftsPhase | frontend/src/components/BlochSphere.tsx:77-82 | RZ keeps alpha and beta and adds half its angle (0 when absent) to the phase |
| BlochSphere.OnlyRzShiftsPhase | frontend/src/components/BlochSphere.tsx:36-83 | no other gate changes the phase |
| BlochSphere.RzRun | frontend/src/components/BlochSphere.tsx:77-82 | a run of RZ gates adds half the sum of their angles to the phase and keeps the amplitudes |
| BlochSphere.RotationByZero | frontend/src/components/BlochSphere.tsx:57-75 | RX and RY with angle 0 (or no parameter) leave the state unchanged |
| BlochSphere.HadamardKeepsNorm | frontend/src/components/BlochSphere.tsx:37-42 | the H update keeps alpha^2 + beta^2 |
| BlochSphere.RyKeepsNorm | frontend/src/components/BlochSphere.tsx:67-75 | the RY update keeps alpha^2 + beta^2 |
| BlochSphere.KindKeepsNorm | frontend/src/components/BlochSphere.tsx:36-83 | every case but RX keeps alpha^2 + beta^2 |
| BlochSphere.GateKeepsNorm | frontend/src/components/BlochSphere.tsx:30-83 | every gate except an RX on qubit 0 keeps alpha^2 + beta^2 |
| BlochSphere.RxChangesNorm | frontend/src/components/BlochSphere.tsx:57-65 | the RX update as written changes alpha^2 + beta^2 by -4 cos(t/2) sin(t/2) alpha beta |
| BlochSphere.EvolveKeepsNorm | frontend/src/components/BlochSphere.tsx:23-84 | a gate list without RX on qubit 0 leaves the state normalised |
| BlochSphere.ZIsPopulationDifference | frontend/src/components/BlochSphere.tsx:88-96 | z is alpha^2 - beta^2 |
| BlochSphere.BasisStateOnAxis | frontend/src/components/BlochSphere.tsx:88-96 | when alpha or beta is 0, x and y are 0 |
| BlochSphere.RealStateProjection | frontend/src/components/BlochSphere.tsx:88-95 | with phase 0, y is 0 and x is 2\|alpha\|\|beta\|, with sign + when alpha and beta have the same sign and - otherwise |
| BlochSphere.ProjectionRadius | frontend/src/components/BlochSphere.tsx:88-96 | the squared length of the vector is (alpha^2 + beta^2)^2 |
| BlochSphere.OnUnitSphere | frontend/src/components/BlochSphere.tsx:14-99 | without RX on qubit 0 the vector of a circuit lies on the unit sphere |
| BlochSphere.GroundIsNorthPole | frontend/src/components/BlochSphere.tsx:15-25 | the early return (0, 0, 1) is the projection of the initial state |
| BlochSphere.NoActingGateIsNorthPole | frontend/src/components/BlochSphere.tsx:15-36 | a circuit with no gate acting on qubit 0 shows the same north pole as an empty one |
| BlochSphere.StepOrderBeatsListOrder | frontend/src/components/BlochSphere.tsx:28-46 | X at step 1 listed before H at step 0 runs H first |
| BlochSphere.BellCircuitShowsPlusState | frontend/src/components/BlochSphere.tsx:14-99 | the Bell tutorial circuit shows (1, 0, 0); the CNOT is ignored |
| Analysis.SimulateCircuit | frontend/src/pages/Analysis.tsx:5-57 | empty results for no gates, else the squared amplitudes after the H loop and their thresholded counts |
| Analysis.ApplyGates | frontend/src/pages/Analysis.tsx:21-41 | the gate loop applies the H loop for each H gate with a target, in order, and skips every other gate |
| Analysis.ApplyHadamard | frontend/src/pages/Analysis.tsx:25-38 | the index loop yields 0 at every index whose bit q is clear, and 2 s[j]/sqrt 2 at j + 2^q |
| Analysis.CountShots | frontend/src/pages/Analysis.tsx:47-54 | the counting loop builds the counts map of all indices |
| Analysis.InitialVector | frontend/src/pages/Analysis.tsx:11-15 | the vector has 2^n entries, 1 at index 0 and 0 elsewhere |
| Analysis.Probabilities | frontend/src/pages/Analysis.tsx:44 | one non-negative probability per amplitude |
| Analysis.AddFlipsBit | frontend/src/pages/Analysis.tsx:27-29 | adding 2^q to an index flips its bit q |
| Analysis.PartnerInRange | frontend/src/pages/Analysis.tsx:29 | the partner index with bit q set stays below 2^n |
| Analysis.AccumulatedComplete | frontend/src/pages/Analysis.tsx:26-37 | after all indices are visited, the += and -= updates add up to the closed form |
| Analysis.CountsKeys | frontend/src/pages/Analysis.tsx:49-51 | the counts have a key exactly for each index whose probability exceeds 0.001, namely its binary numeral padded to n digits |
| Analysis.CountsValues | frontend/src/pages/Analysis.tsx:48-52 | the key of each such index holds round(probability * 1024) |
| Analysis.LabelsDistinct | frontend/src/pages/Analysis.tsx:51 | indices below 2^n get distinct keys |
| Analysis.GroundCounts | frontend/src/pages/Analysis.tsx:47-54 | probability 1 at index 0 and 0 elsewhere gives exactly the all-zero key with 1024 |
| Analysis.OnlyHadamardsMatter | frontend/src/pages/Analysis.tsx:21-41 | dropping every gate that is not an H with a target leaves the vector unchanged |
| Analysis.NoHadamardGivesGround | frontend/src/pages/Analysis.tsx:14-54 | a non-empty circuit without H gates gives the initial probabilities and exactly {"0...0": 1024} |
| Analysis.GroundLabel | frontend/src/pages/Analysis.tsx:51 | the all-zero key of width n is n '0' characters |
| Analysis.HalfHadamardClearsBit | frontend/src/pages/Analysis.tsx:28-36 | after the loop every amplitude at an index with bit q clear is 0 |
| Analysis.HalfHadamardTwiceVanishes | frontend/src/pages/Analysis.tsx:25-38 | two H gates on the same qubit leave every amplitude 0, so the loop is not a Hadamard |
| Analysis.SingleHadamard | frontend/src/pages/Analysis.tsx:5-57 | one H on one qubit gives probabilities (0, 2) and counts {"1": 2048} |
| Analysis.EvenSplitCounts | frontend/src/pages/Analysis.tsx:47-54 | probabilities (1/2, 1/2) on one qubit give counts {"0": 512, "1": 512} |
| QasmDisplay.GenerateQasm | frontend/src/components/QASMDisplay.tsx:9-96 | the text is empty for no gates, else the header followed by the lines of the step-sorted gates |
| QasmDisplay.EmitHeader | frontend/src/components/QASMDisplay.tsx:14-22 | the opening lines: version, include, qreg, creg only when some gate measures, then a blank line |
| QasmDisplay.EmitGates | frontend/src/components/QASMDisplay.tsx:27-93 | the loop appends the lines of each gate in turn |
| QasmDisplay.EmitGate | frontend/src/components/QASMDisplay.tsx:28-92 | one pass of the switch appends exactly the lines of that gate |
| QasmDisplay.EmitEach | frontend/src/components/QASMDisplay.tsx:37 | a forEach over the targets appends one line per target |
| QasmDisplay.EmitPairs | frontend/src/components/QASMDisplay.tsx:62-66 | the nested forEach appends one line per control and target |
| QasmDisplay.OneLinePerTarget | frontend/src/components/QASMDisplay.tsx:36-83 | H, X, Y, Z, S, T, RX, RY, RZ and MEASURE write exactly one line per target in target order: the lower-case name, a rotation with its angle (params[0], else 0), a measure into the same classical index |
| QasmDisplay.ControlledLines | frontend/src/components/QASMDisplay.tsx:60-74 | CNOT/CX write cx and CZ writes cz once per (control, target) pair, \|controls\| * \|targets\| lines, none without controls |
| QasmDisplay.PairsControlMajor | frontend/src/components/QASMDisplay.tsx:63-65 | the lines of control i, one per target in order, come after those of earlier controls and before later ones |
| QasmDisplay.SwapLine | frontend/src/components/QASMDisplay.tsx:84-88 | SWAP writes one line on its first two targets when there are at least two, else nothing |
| QasmDisplay.UnknownGateComment | frontend/src/components/QASMDisplay.tsx:89-91 | any other name with a target writes exactly the comment line with the upper-cased name |
| QasmDisplay.QasmEmptyIffNoGates | frontend/src/components/QASMDisplay.tsx:10-15 | the text is empty exactly when there are no gates |
| QasmDisplay.QasmHeader | frontend/src/components/QASMDisplay.tsx:14-22 | the text starts with the preamble for n qubits, followed by creg c[n] exactly when some gate's upper-cased name is MEASURE, with or without targets |
| QasmDisplay.QasmDependsOnStepOrderOnly | frontend/src/components/QASMDisplay.tsx:25-27 | two circuits whose gates agree step by step give the same text |
| QasmDisplay.TargetlessGatesEmitNothing | frontend/src/components/QASMDisplay.tsx:33 | gates without targets contribute nothing, not even a comment |
| QasmDisplay.BellCircuitText | frontend/src/components/QASMDisplay.tsx:9-96 | the out-of-order Bell circuit gives the header without creg, then h q[0]; and cx q[0],q[1]; |
| Simulator.BuildQiskitCircuit | backend/app/services/simulator.py:13-98 | a circuit with num_qubits qubits and classical bits and the calls of the step-sorted gates in turn |
| Simulator.EmitGate | backend/app/services/simulator.py:18-96 | one pass of the loop appends exactly the calls of that gate |
| Simulator.EmitEach | backend/app/services/simulator.py:28-29 | a loop over the targets appends one call per target |
| Simulator.EmitPairs | backend/app/services/simulator.py:47-49 | the nested loop appends one row of calls per control |
| Simulator.SingleQubitGateCalls | backend/app/services/simulator.py:27-29 | X, Y, Z, H, S, T in any case call the lower-case method once per target, in order |
| Simulator.OneAngleCalls | backend/app/services/simulator.py:30-77 | RX, RY, RZ, P, PHASE and U1 call rx, ry, rz or p once per target with params[0], else 0 |
| Simulator.UParameterDefaults | backend/app/services/simulator.py:42-83 | U and U3 take the first three parameters padded with zeros; U2 uses pi/2 with params[0] and params[1], else 0 |
| Simulator.MeasureIntoSameIndex | backend/app/services/simulator.py:60-62 | MEASURE measures each target into the classical bit of the same index, in order |
| Simulator.ResetEachTarget | backend/app/services/simulator.py:63-65 | RESET resets each target, in order |
| Simulator.SwapNeedsTwoTargets | backend/app/services/simulator.py:54-56 | SWAP calls swap once on the first two targets when there are at least two, else not at all |
| Simulator.ToffoliNeedsTwoControls | backend/app/services/simulator.py:57-59 | CCX/TOFFOLI calls ccx once on two controls and the first target, and not at all with fewer controls |
| Simulator.ControlledPairCalls | backend/app/services/simulator.py:46-94 | CX/CNOT, CZ, CRX, CRY and CRZ make one call per (control, target) pair, \|controls\| * \|targets\| calls, none without controls |
| Simulator.PairsControlMajor | backend/app/services/simulator.py:47-49 | the calls of control i, one per target, come after those of earlier controls and before later ones |
| Simulator.CallsUseGateQubits | backend/app/services/simulator.py:27-94 | every qubit passed to a call is among the gate's targets or controls; BARRIER passes none |
| Simulator.BarrierSpansRegister | backend/app/services/simulator.py:66-67 | BARRIER with a target makes one `barrier()` call with no qubit arguments, which spans the whole register |
| Simulator.CaseInsensitive | backend/app/services/simulator.py:27-94 | the calls do not depend on the letter case of the name |
| Simulator.SameBranchSameCalls | backend/app/services/simulator.py:30-94 | outside the X/Y/Z/H/S/T branch, two names that take the same branch make the same calls |
| Simulator.Aliases | backend/app/services/simulator.py:42-77 | CNOT is CX, TOFFOLI is CCX, U3 is U, and PHASE and U1 are P |
| Simulator.SkippedGatesEmitNothing | backend/app/services/simulator.py:24-96 | gates without targets or with an unrecognised name can be dropped without changing the calls |
| Simulator.SkippedGateEmitsNothing | backend/app/services/simulator.py:24-25 | such a gate makes no call |
| Simulator.BuildDependsOnStepOrderOnly | backend/app/services/simulator.py:16 | two gate lists that agree step by step build the same circuit |
| Simulator.BellCircuitCalls | backend/app/services/simulator.py:13-98 | the out-of-order Bell circuit builds h(0) then cx(0, 1) on two qubits and two clbits |
| Simulator.PauliString | backend/app/services/simulator.py:168-171 | n letters, the axis letter at position target and I elsewhere; an error exactly when the target position exists and the axis is not X, Y or Z |
| Simulator.PauliLetters | backend/app/services/simulator.py:170 | the joined letters have length n, the axis letter at the target and I elsewhere |
| Simulator.BuildNoiseModel | backend/app/services/simulator.py:101-117 | the method builds the model the selection rules give |
| Simulator.NoNoiseModelIffAllFalsy | backend/app/services/simulator.py:102-103 | no model exactly when each argument is None or 0 |
| Simulator.NoiseChannels | backend/app/services/simulator.py:104-117 | each channel is added exactly when its argument is positive, at most once, in the order bit flip, depolarizing, amplitude damping, on the listed instructions |
| Simulator.BitFlipSumsToOne | backend/app/services/simulator.py:107 | the bit-flip error's probabilities sum to 1 |
| Simulator.DepolarizingSumsToOne | backend/app/services/simulator.py:111 | the depolarizing error's probabilities sum to 1 |
| CircuitBuilder.Builder.constructor | frontend/src/pages/CircuitBuilder.tsx:74-78 | nothing pending, the dialog closed, the angle pi/4 |
| CircuitBuilder.Builder.AddGate | frontend/src/pages/CircuitBuilder.tsx:82-94 | a parameterless RX/RY/RZ in any case only records the pending gate and opens the dialog; any other gate replaces the gates in its cell and is appended |
| CircuitBuilder.Builder.ConfirmAngle | frontend/src/pages/CircuitBuilder.tsx:96-102 | with a pending gate, places it with parameters [angle] and clears the pending state; otherwise changes nothing |
| CircuitBuilder.Builder.CancelAngle | frontend/src/pages/CircuitBuilder.tsx:326-328 | drops the pending gate and closes the dialog |
| CircuitBuilder.Builder.SetAngle | frontend/src/pages/CircuitBuilder.tsx:290 | the slider sets the angle and nothing else |
| CircuitBuilder.Builder.ClearCell | frontend/src/pages/CircuitBuilder.tsx:125-127 | the circuit loses the gates of the cell |
| CircuitBuilder.Builder.AddQubit | frontend/src/pages/CircuitBuilder.tsx:144 | the width becomes min(8, n + 1) and the gates stay |
| CircuitBuilder.Builder.RemoveQubit | frontend/src/pages/CircuitBuilder.tsx:145 | the width becomes max(1, n - 1) and gates reaching qubit n - 1 go |
| CircuitBuilder.Builder.ClearAll | frontend/src/pages/CircuitBuilder.tsx:202 | the gates are removed and the width kept |
| CircuitBuilder.Builder.AddMeasurements | frontend/src/pages/CircuitBuilder.tsx:233-249 | the circuit gains the measurements of Add Measurements |
| CircuitBuilder.WithoutCellMembers | frontend/src/pages/CircuitBuilder.tsx:126 | clearing a cell removes exactly the gates with that step whose targets contain the qubit |
| CircuitBuilder.ClearCellKeepsOrder | frontend/src/pages/CircuitBuilder.tsx:126 | the other gates stay, in order |
| CircuitBuilder.ClearCellIdempotent | frontend/src/pages/CircuitBuilder.tsx:125-127 | clearing a cell twice is clearing it once |
| CircuitBuilder.NoneLeftInCell | frontend/src/pages/CircuitBuilder.tsx:126 | no gate remains in a cleared cell |
| CircuitBuilder.PlacedAlone | frontend/src/pages/CircuitBuilder.tsx:90-93 | after a placement the new gate is the only one in its cell, the width is unchanged, and the kept gates come first in order |
| CircuitBuilder.RemoveQubitDropsTouching | frontend/src/pages/CircuitBuilder.tsx:145 | after - Qubit every target is below n - 1, every gate within range remains, and the width is at least 1 |
| CircuitBuilder.RemoveLastQubit | frontend/src/pages/CircuitBuilder.tsx:145 | on one qubit the width stays 1 and every gate with a non-negative target goes |
| CircuitBuilder.RemoveUndoesAdd | frontend/src/pages/CircuitBuilder.tsx:144-145 | below width 8, - Qubit undoes + Qubit on a circuit whose targets are in range |
| CircuitBuilder.MaxStep | frontend/src/pages/CircuitBuilder.tsx:235 | the largest step key, at least 0, of the gates |
| CircuitBuilder.Measurements | frontend/src/pages/CircuitBuilder.tsx:236-243 | n measurement gates, the i-th on qubit i at the given step |
| CircuitBuilder.MeasurementsAppended | frontend/src/pages/CircuitBuilder.tsx:233-249 | the old gates stay as a prefix, followed by one MEASURE per qubit, the i-th on qubit i, each at a later step than every old gate |
| CircuitBuilder.MeasurementsSortLast | frontend/src/pages/CircuitBuilder.tsx:235-247 | sorting the extended list sorts the old gates and puts the measurements last in qubit order |
| CircuitBuilder.BuildCells | frontend/src/pages/CircuitBuilder.tsx:130-136 | the loop builds the cell map of the gates |
| CircuitBuilder.CellsDomain | frontend/src/pages/CircuitBuilder.tsx:131-133 | a cell has an entry exactly when some gate has a step and a first target there |
| CircuitBuilder.CellsLastWins | frontend/src/pages/CircuitBuilder.tsx:131-135 | a cell holds the last gate keyed to it |
| Histogram.HistogramBars | frontend/src/components/Histogram.tsx:6-8 | the labels are a permutation of the keys in strictly descending string order, and each value is the count of its label |
| Histogram.KeyOrderIrrelevant | frontend/src/components/Histogram.tsx:6-7 | the bars do not depend on the order in which the keys are listed |
| Histogram.SortDescendingSorted | frontend/src/components/Histogram.tsx:7 | distinct keys sort into strictly descending order |
| Histogram.DescendingUnique | frontend/src/components/Histogram.tsx:7 | two strictly descending sequences with the same elements are equal |
| Text.StrLessTransitive | frontend/src/components/Histogram.tsx:7 | string comparison is transitive |
| Text.StrLessTotal | frontend/src/components/Histogram.tsx:7 | two different strings are ordered one way or the other |
| Amplitudes.AmplitudeChart | frontend/src/components/Amplitudes.tsx:4-7 | one label per probability; label i is made of '0' and '1' only, reads back as i, and is as long as the pad width or i's shortest binary numeral, whichever is longer; the heights are the probabilities |
| Amplitudes.Width | frontend/src/components/Amplitudes.tsx:4 | the pad width is at least 1 |
| Amplitudes.SingleStateLabel | frontend/src/components/Amplitudes.tsx:4 | one probability is labelled "0" |
| Amplitudes.PowerOfTwoLabels | frontend/src/components/Amplitudes.tsx:4 | for 2^k entries (k >= 1) every label has k characters and the labels are pairwise distinct |
| Text.PaddedBinaryValue | frontend/src/components/Amplitudes.tsx:4 | a zero-padded binary numeral reads back as its number, whatever the width |
| Text.PaddedBinaryDigits | frontend/src/components/Amplitudes.tsx:4 | a padded numeral is made of binary digits and its length is the larger of w and the shortest numeral's length |
| Text.PaddedBinaryDistinct | frontend/src/pages/Analysis.tsx:51 | below 2^w, padded numerals have length w and are pairwise distinct |
| Text.IntRoundTrip | frontend/src/components/QASMDisplay.tsx:37 | a formatted qubit index parses back to the index |
| Text.UpperIdempotent | frontend/src/components/QASMDisplay.tsx:28 | upper-casing twice is upper-casing once |
| RealMath.Round | frontend/src/pages/Analysis.tsx:52 | the result is the integer nearest x, with halves rounded up |

## Left out

- Floating point: amplitudes, angles and probabilities are exact reals, so NaN, infinities, signed zero in `Math.atan2` and rounding drift are not modelled. The NaN case of `params?.[0] || 0` and `step || 0` is one of these.
- `Math.sqrt(2)`, `Math.PI`/`np.pi`, `Math.cos` and `Math.sin` are parameters constrained only by the facts in `RealMath.Maths.Valid`. The text form of an angle (`${angle}`) is the parameter `show` and is not defined.
- Analysis.SimulateCircuit: requires a non-negative qubit count and every H gate's first target in [0, num_qubits). For other targets JavaScript grows or indexes the array in ways the model does not follow.
- JavaScript's 32-bit `>>`, `|`, `&` and `~` are modelled as arithmetic on unbounded naturals. This is the same for the qubit counts the page allows (at most 8).
- Case mapping covers ASCII letters only. Non-ASCII `toUpperCase`/`lower()` is not modelled.
- A Python gate record without a name (`name is None`) is not modelled. Every gate has a string name. A record whose step is present but `None` is also not modelled, since Python's `sorted` would raise.
- Qiskit itself is not modelled: index errors for qubits outside the register, `pauli_error` validation, the contents of `amplitude_damping_error`, and the `Pauli` object built from the label. Simulator.PauliString returns the label, or None where the `axis_map` lookup raises.
- Statevector and Aer execution, density matrices, expectations, partial traces, entropy and fidelity in simulator.py are not modelled. They are numeric library calls.
- The builder's cell keys `${targets[0]}:${step}` are modelled as pairs (qubit, step), not strings.
- Histogram.HistogramBars: orders labels by code point, which equals JavaScript's UTF-16 code-unit order only for strings without characters above U+FFFF. Count keys are strings of '0' and '1', so the chart is the same.
- `Object.keys` order is a parameter of Histogram.HistogramBars. The result is proved not to depend on it.
- Builder event plumbing is not modelled: drag-and-drop events, the active-gate overlay, the angle dialog's rendering, JSON export through a Blob, and the `Date.now()` ids of measurement gates. Gates carry no id.
- React state updates are treated as taking effect immediately and in program order.
- Plotly and matplotlib rendering, the FastAPI/WebSocket endpoints, the routers, pydantic schemas, the front end's `fetch` layer, the settings page and the tutorial catalogue are not part of this model.
