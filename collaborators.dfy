/**
 * The two collaborators a muscle is composed of: a motor-neuron pool and a
 * set of muscle fibres. The composition layer reaches them only through a
 * fixed motor-unit count and a `step` operation, so each is modelled as a
 * class with an immutable count, the configuration it was built with, a
 * state the composition layer never inspects, and a transition function
 * standing for the (unmodelled) implementation of its `step`. A ghost
 * history records every call made to `step`, so that callers can state
 * which calls happened and with which arguments.
 */
module Collaborators {

  datatype Result<T, E> = Ok(value: T) | Err(error: E)

  /** Whatever a collaborator raises from its `step` (a malformed input shape, say). */
  datatype CollaboratorError = CollaboratorError(message: string)

  /** What one `step` of a collaborator does: either a new state and an output, or an exception. */
  datatype Outcome<S, O> = Stepped(state: S, output: O) | Raised(error: CollaboratorError)

  /** The pool's step: (state, excitation per unit, step size) to (new state, activation per unit). */
  type PoolDynamics<!S> = (S, seq<real>, real) -> Outcome<S, seq<real>>

  /** The fibres' step: (state, activation per unit) to (new state, force). */
  type FibersDynamics<!T, F> = (T, seq<real>) -> Outcome<T, F>

  /** Which pool implementation an object stands for, with the options it was built with. */
  datatype PoolKind =
    | PotvinFuglevand2017MotorNeuronPool(applyFatigue: bool, preCalcFiringRates: bool)
    | OtherPool

  /** Which fibre implementation an object stands for, with the options it was built with. */
  datatype FibersKind =
    | PotvinFuglevand2017MuscleFibers(applyFatigue: bool)
    | PyMuscleFibers(forceConversionFactor: real, applyFatigue: bool)
    | OtherFibers

  /** One recorded call of the pool's `step`. */
  datatype PoolCall = PoolCall(input: seq<real>, stepSize: real)

  class MotorNeuronPool<S> {
    const motorUnitCount: nat
    const kind: PoolKind
    const dynamics: PoolDynamics<S>
    var state: S
    /** Every call of Step so far, oldest first. */
    ghost var calls: seq<PoolCall>

    constructor (motorUnitCount: nat, kind: PoolKind, dynamics: PoolDynamics<S>, initial: S)
      ensures this.motorUnitCount == motorUnitCount && this.kind == kind
      ensures this.dynamics == dynamics && state == initial && calls == []
    {
      this.motorUnitCount := motorUnitCount;
      this.kind := kind;
      this.dynamics := dynamics;
      state := initial;
      calls := [];
    }

    /**
     * Advances the pool by one step. The call is recorded whether or not it
     * raises; the state moves only when it does not.
     */
    method Step(input: seq<real>, stepSize: real) returns (r: Result<seq<real>, CollaboratorError>)
      modifies this
      ensures calls == old(calls) + [PoolCall(input, stepSize)]
      ensures match dynamics(old(state), input, stepSize)
        case Stepped(s, out) => state == s && r == Ok(out)
        case Raised(e) => state == old(state) && r == Err(e)
    {
      calls := calls + [PoolCall(input, stepSize)];
      match dynamics(state, input, stepSize)
      case Stepped(s, out) =>
        state := s;
        r := Ok(out);
      case Raised(e) =>
        r := Err(e);
    }
  }

  class MuscleFibers<T, F> {
    const motorUnitCount: nat
    const kind: FibersKind
    const dynamics: FibersDynamics<T, F>
    var state: T
    /** The force computed by the most recent successful Step (a rest value before the first). */
    var currentForces: F
    /** The activation passed to every call of Step so far, oldest first. */
    ghost var calls: seq<seq<real>>

    constructor (motorUnitCount: nat, kind: FibersKind, dynamics: FibersDynamics<T, F>, initial: T, restForces: F)
      ensures this.motorUnitCount == motorUnitCount && this.kind == kind
      ensures this.dynamics == dynamics && state == initial
      ensures currentForces == restForces && calls == []
    {
      this.motorUnitCount := motorUnitCount;
      this.kind := kind;
      this.dynamics := dynamics;
      state := initial;
      currentForces := restForces;
      calls := [];
    }

    /**
     * Advances the fibres by one step and caches the force it returns in
     * currentForces. A call that raises is recorded but changes nothing else.
     */
    method Step(activation: seq<real>) returns (r: Result<F, CollaboratorError>)
      modifies this
      ensures calls == old(calls) + [activation]
      ensures match dynamics(old(state), activation)
        case Stepped(t, f) => state == t && currentForces == f && r == Ok(f)
        case Raised(e) => state == old(state) && currentForces == old(currentForces) && r == Err(e)
    {
      calls := calls + [activation];
      match dynamics(state, activation)
      case Stepped(t, f) =>
        state := t;
        currentForces := f;
        r := Ok(f);
      case Raised(e) =>
        r := Err(e);
    }
  }
}
