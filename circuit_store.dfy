/**
 * The circuit data model and the application-wide circuit store
 * (frontend/src/store/circuitStore.ts).
 */
module CircuitStore {
  import opened Wrappers

  /**
   * One gate placed in the circuit. `controls` and `params` are empty when the
   * record leaves them out; `step` is `None` when it is absent.
   */
  datatype Gate = Gate(
    name: string,
    targets: seq<int>,
    controls: seq<int>,
    params: seq<real>,
    step: Option<int>)

  datatype Circuit = Circuit(numQubits: int, gates: seq<Gate>)

  /** The scheduling key `(g.step || 0)`: a missing step counts as 0. */
  function StepKey(g: Gate): int {
    g.step.GetOr(0)
  }

  /** `params?.[0] || 0` (TypeScript) and `params[0] if params else 0.0` (Python). */
  function FirstParamOr0(params: seq<real>): real {
    if |params| > 0 then params[0] else 0.0
  }

  /** The qubit count `reset` uses when called without an argument. */
  const DefaultQubits := 2

  /** The store: one mutable circuit, replaced wholesale by its two actions. */
  class Store {
    var circuit: Circuit

    /** The store starts with two qubits and no gates. */
    constructor ()
      ensures circuit == Circuit(DefaultQubits, [])
    {
      circuit := Circuit(DefaultQubits, []);
    }

    /** `setCircuit(c)`: the stored circuit becomes exactly `c`. */
    method SetCircuit(c: Circuit)
      modifies this
      ensures circuit == c
    {
      circuit := c;
    }

    /** `reset(qubits = 2)`: an empty circuit of the given width, whatever was stored. */
    method Reset(qubits: Option<int>)
      modifies this
      ensures circuit == Circuit(qubits.GetOr(DefaultQubits), [])
    {
      circuit := Circuit(qubits.GetOr(DefaultQubits), []);
    }
  }

  /** Resetting twice leaves the store as resetting once does. */
  method ResetTwice(s: Store, qubits: Option<int>)
    modifies s
    ensures s.circuit == Circuit(qubits.GetOr(DefaultQubits), [])
  {
    s.Reset(qubits);
    ghost var once := s.circuit;
    s.Reset(qubits);
    assert s.circuit == once;
  }
}
