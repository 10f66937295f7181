/**
 * The composition layer of pymuscle (pymuscle/muscle.py): a Muscle joins a
 * motor-neuron pool and a set of muscle fibres that agree on their
 * motor-unit count, normalises the excitation it is given, and drives one
 * simulation step by feeding the pool's output into the fibres. The preset
 * subclasses become named constructors; the one that is sized by force
 * derives its motor-unit count by truncating a real quotient.
 */
module PyMuscle {
  import opened Collaborators

  /** The excitation handed to Muscle.Step: one value for every unit, or one value per unit. */
  datatype Excitation = Scalar(value: real) | PerUnit(values: seq<real>)

  /** The single error the composition layer raises itself. */
  datatype ConfigurationError = MotorUnitCountMismatch(poolCount: nat, fibersCount: nat)

  /** Which of the source's classes built a Muscle, with the attributes only that class stores. */
  datatype Preset =
    | Composed
    | PotvinFuglevandPreset
    | StandardPreset(maxForce: real, forceConversionFactor: real)

  /** A sequence of `count` copies of `v`. */
  function Broadcast(v: real, count: nat): (r: seq<real>)
    ensures |r| == count
    ensures forall i :: 0 <= i < |r| ==> r[i] == v
  {
    seq(count, _ => v)
  }

  /**
   * The input the pool receives: a scalar is spread over every motor unit;
   * a per-unit sequence is handed on as it is, whatever its length.
   */
  function Normalize(input: Excitation, count: nat): (r: seq<real>)
    ensures input.Scalar? ==> |r| == count && forall i :: 0 <= i < |r| ==> r[i] == input.value
    ensures input.PerUnit? ==> r == input.values
  {
    match input
    case Scalar(v) => Broadcast(v, count)
    case PerUnit(s) => s
  }

  /** Everything one step does, as a value: what each collaborator received and became, and what is returned. */
  datatype StepTrace<S, T, F> = StepTrace(
    poolInput: seq<real>,
    poolState: S,
    fibersCalls: seq<seq<real>>,
    fibersState: T,
    forces: F,
    result: Result<F, CollaboratorError>)

  /**
   * One step of a muscle whose pool is in state `s` and whose fibres are in
   * state `t` with cached force `f`: the pool steps on the normalised input
   * and the step size; if it raises, the error is returned as it is and the
   * fibres are not called; otherwise the fibres step on the pool's output
   * and their result is returned.
   */
  function StepSpec<S, T, F>(poolDynamics: PoolDynamics<S>, fibersDynamics: FibersDynamics<T, F>, count: nat,
                             s: S, t: T, f: F, input: Excitation, stepSize: real): (tr: StepTrace<S, T, F>)
    ensures tr.poolInput == Normalize(input, count)
    ensures |tr.fibersCalls| <= 1
    ensures tr.fibersCalls != [] <==> poolDynamics(s, tr.poolInput, stepSize).Stepped?
    ensures tr.fibersCalls != [] ==> tr.fibersCalls[0] == poolDynamics(s, tr.poolInput, stepSize).output
    ensures poolDynamics(s, tr.poolInput, stepSize).Raised? ==>
              tr.result == Err(poolDynamics(s, tr.poolInput, stepSize).error) &&
              tr.poolState == s && tr.fibersState == t && tr.forces == f
    ensures var p := poolDynamics(s, tr.poolInput, stepSize);
            p.Stepped? ==>
              tr.poolState == p.state &&
              match fibersDynamics(t, p.output)
              case Stepped(t', force) => tr.result == Ok(force) && tr.fibersState == t' && tr.forces == force
              case Raised(e) => tr.result == Err(e) && tr.fibersState == t && tr.forces == f
    ensures tr.result.Ok? ==> tr.forces == tr.result.value
    ensures tr.result.Err? ==> tr.fibersState == t && tr.forces == f
  {
    var poolInput := Normalize(input, count);
    match poolDynamics(s, poolInput, stepSize)
    case Raised(e) => StepTrace(poolInput, s, [], t, f, Err(e))
    case Stepped(s', activation) =>
      match fibersDynamics(t, activation)
      case Raised(e) => StepTrace(poolInput, s', [activation], t, f, Err(e))
      case Stepped(t', force) => StepTrace(poolInput, s', [activation], t', force, Ok(force))
  }

  /** One call of Muscle.Step, as a caller issues it. */
  datatype StepRequest = StepRequest(input: Excitation, stepSize: real)

  /**
   * The results of issuing the requests one after another on the same muscle
   * (a caller that catches a collaborator's exception may go on stepping).
   */
  function Run<S, T, F>(poolDynamics: PoolDynamics<S>, fibersDynamics: FibersDynamics<T, F>, count: nat,
                        s: S, t: T, f: F, steps: seq<StepRequest>): (rs: seq<Result<F, CollaboratorError>>)
    ensures |rs| == |steps|
    decreases |steps|
  {
    if steps == [] then []
    else
      var tr := StepSpec(poolDynamics, fibersDynamics, count, s, t, f, steps[0].input, steps[0].stepSize);
      [tr.result] + Run(poolDynamics, fibersDynamics, count, tr.poolState, tr.fibersState, tr.forces, steps[1..])
  }

  /** Where a sequence of steps leaves the collaborators, and every call it made on them, oldest first. */
  datatype RunOutcome<S, T, F> = RunOutcome(
    poolState: S,
    fibersState: T,
    forces: F,
    poolCalls: seq<PoolCall>,
    fibersCalls: seq<seq<real>>)

  /**
   * The states after issuing the requests one after another from `s`, `t`
   * and `f`, with the calls they made: one pool call per request, carrying
   * that request's normalised input and step size, and at most one fibres call.
   */
  function RunEnd<S, T, F>(poolDynamics: PoolDynamics<S>, fibersDynamics: FibersDynamics<T, F>, count: nat,
                           s: S, t: T, f: F, steps: seq<StepRequest>): (e: RunOutcome<S, T, F>)
    ensures |e.poolCalls| == |steps|
    ensures |e.fibersCalls| <= |steps|
    decreases |steps|
  {
    if steps == [] then RunOutcome(s, t, f, [], [])
    else
      var tr := StepSpec(poolDynamics, fibersDynamics, count, s, t, f, steps[0].input, steps[0].stepSize);
      var rest := RunEnd(poolDynamics, fibersDynamics, count, tr.poolState, tr.fibersState, tr.forces, steps[1..]);
      RunOutcome(rest.poolState, rest.fibersState, rest.forces,
                 [PoolCall(tr.poolInput, steps[0].stepSize)] + rest.poolCalls,
                 tr.fibersCalls + rest.fibersCalls)
  }

  /** The k-th pool call of a run carries the k-th request's normalised input and its step size. */
  lemma {:induction false} RunEndPoolCalls<S, T, F>(poolDynamics: PoolDynamics<S>, fibersDynamics: FibersDynamics<T, F>,
                                                  count: nat, s: S, t: T, f: F, steps: seq<StepRequest>, k: nat)
    requires k < |steps|
    ensures RunEnd(poolDynamics, fibersDynamics, count, s, t, f, steps).poolCalls[k]
         == PoolCall(Normalize(steps[k].input, count), steps[k].stepSize)
    decreases k
  {
    var tr := StepSpec(poolDynamics, fibersDynamics, count, s, t, f, steps[0].input, steps[0].stepSize);
    if 0 < k {
      RunEndPoolCalls(poolDynamics, fibersDynamics, count, tr.poolState, tr.fibersState, tr.forces, steps[1..], k - 1);
    }
  }

  /**
   * One more step, taken from states `s`, `t`, `f` with call histories `pc`
   * and `fc`, moves a run forward by one request: its result is the first
   * of the remaining results, and the final states and histories are kept.
   */
  lemma RunAdvance<S, T, F>(poolDynamics: PoolDynamics<S>, fibersDynamics: FibersDynamics<T, F>, count: nat,
                            s: S, t: T, f: F, pc: seq<PoolCall>, fc: seq<seq<real>>,
                            tr: StepTrace<S, T, F>, steps: seq<StepRequest>, i: nat)
    requires i < |steps|
    requires tr == StepSpec(poolDynamics, fibersDynamics, count, s, t, f, steps[i].input, steps[i].stepSize)
    ensures Run(poolDynamics, fibersDynamics, count, s, t, f, steps[i..])
         == [tr.result] + Run(poolDynamics, fibersDynamics, count, tr.poolState, tr.fibersState, tr.forces, steps[i + 1..])
    ensures var e := RunEnd(poolDynamics, fibersDynamics, count, s, t, f, steps[i..]);
            var e' := RunEnd(poolDynamics, fibersDynamics, count, tr.poolState, tr.fibersState, tr.forces, steps[i + 1..]);
            e'.poolState == e.poolState && e'.fibersState == e.fibersState && e'.forces == e.forces &&
            (pc + [PoolCall(tr.poolInput, steps[i].stepSize)]) + e'.poolCalls == pc + e.poolCalls &&
            (fc + tr.fibersCalls) + e'.fibersCalls == fc + e.fibersCalls
  {
    assert steps[i..][0] == steps[i] && steps[i..][1..] == steps[i + 1..];
  }

  /** The same requests with every excitation written out per unit. */
  function Expand(steps: seq<StepRequest>, count: nat): (es: seq<StepRequest>)
    ensures |es| == |steps|
    ensures forall i :: 0 <= i < |es| ==>
              es[i].input.PerUnit? && es[i].stepSize == steps[i].stepSize &&
              Normalize(es[i].input, count) == Normalize(steps[i].input, count)
  {
    seq(|steps|, i requires 0 <= i < |steps| =>
      StepRequest(PerUnit(Normalize(steps[i].input, count)), steps[i].stepSize))
  }

  /** Later requests never change the results of earlier ones. */
  lemma {:induction false} RunPrefix<S, T, F>(poolDynamics: PoolDynamics<S>, fibersDynamics: FibersDynamics<T, F>, count: nat,
                                            s: S, t: T, f: F, first: seq<StepRequest>, rest: seq<StepRequest>)
    ensures Run(poolDynamics, fibersDynamics, count, s, t, f, first + rest)[..|first|]
         == Run(poolDynamics, fibersDynamics, count, s, t, f, first)
    decreases |first|
  {
    if first != [] {
      var tr := StepSpec(poolDynamics, fibersDynamics, count, s, t, f, first[0].input, first[0].stepSize);
      assert (first + rest)[0] == first[0];
      assert (first + rest)[1..] == first[1..] + rest;
      RunPrefix(poolDynamics, fibersDynamics, count, tr.poolState, tr.fibersState, tr.forces, first[1..], rest);
    }
  }

  /** A scalar excitation is shorthand for that scalar repeated on every unit: one step cannot tell them apart. */
  lemma StepBroadcastEquivalence<S, T, F>(poolDynamics: PoolDynamics<S>, fibersDynamics: FibersDynamics<T, F>, count: nat,
                                          s: S, t: T, f: F, v: real, stepSize: real)
    ensures StepSpec(poolDynamics, fibersDynamics, count, s, t, f, Scalar(v), stepSize)
         == StepSpec(poolDynamics, fibersDynamics, count, s, t, f, PerUnit(Broadcast(v, count)), stepSize)
  {
  }

  /** Writing every excitation out per unit never changes what a sequence of steps returns. */
  lemma {:induction false} RunBroadcastEquivalence<S, T, F>(poolDynamics: PoolDynamics<S>, fibersDynamics: FibersDynamics<T, F>,
                                                          count: nat, s: S, t: T, f: F, steps: seq<StepRequest>)
    ensures Run(poolDynamics, fibersDynamics, count, s, t, f, steps)
         == Run(poolDynamics, fibersDynamics, count, s, t, f, Expand(steps, count))
    decreases |steps|
  {
    if steps != [] {
      var es := Expand(steps, count);
      var tr := StepSpec(poolDynamics, fibersDynamics, count, s, t, f, steps[0].input, steps[0].stepSize);
      assert StepSpec(poolDynamics, fibersDynamics, count, s, t, f, es[0].input, es[0].stepSize) == tr;
      assert es[1..] == Expand(steps[1..], count);
      RunBroadcastEquivalence(poolDynamics, fibersDynamics, count, tr.poolState, tr.fibersState, tr.forces, steps[1..]);
    }
  }

  /** The average peak force of one motor unit, in the fibres' arbitrary force units (exactly 1766/100). */
  const AverageUnitForce: real := 17.66

  /** Python's int() on a float: the integer part, truncated toward zero. */
  function TruncateTowardZero(x: real): (n: int)
    ensures 0.0 <= x ==> 0 <= n && n as real <= x < n as real + 1.0
    ensures x < 0.0 ==> n <= 0 && n as real - 1.0 < x <= n as real
  {
    if 0.0 <= x then x.Floor else -((-x).Floor)
  }

  /** The motor-unit count StandardMuscle derives from the force it is asked for. */
  function StandardUnitCount(maxForce: real, forceConversionFactor: real): (n: int)
    requires forceConversionFactor != 0.0
    ensures 0.0 <= maxForce && 0.0 < forceConversionFactor ==>
              0 <= n &&
              n as real * (forceConversionFactor * AverageUnitForce) <= maxForce &&
              maxForce < (n + 1) as real * (forceConversionFactor * AverageUnitForce)
  {
    var perUnit := forceConversionFactor * AverageUnitForce;
    var n := TruncateTowardZero(maxForce / perUnit);
    if 0.0 <= maxForce && 0.0 < forceConversionFactor then
      QuotientBounds(maxForce, perUnit, n); n
    else
      n
  }

  /** From n <= x / d < n + 1 with d > 0 follows n * d <= x < (n + 1) * d. */
  lemma QuotientBounds(x: real, d: real, n: int)
    requires 0.0 < d
    requires n as real <= x / d < n as real + 1.0
    ensures n as real * d <= x < (n + 1) as real * d
  {
    var q, m := x / d, n as real;
    assert q * d == x;
    assert q * d - m * d >= 0.0 by {
      assert (q - m) * d >= 0.0;
    }
    assert m * d + d - q * d > 0.0 by {
      assert (m + 1.0 - q) * d > 0.0;
    }
    calc {
      (n + 1) as real * d - x;
      == m * d + d - q * d;
      > 0.0;
    }
  }

  /** The derived count is the largest number of average units whose total force stays within maxForce. */
  lemma StandardUnitCountIsLargest(maxForce: real, forceConversionFactor: real, m: nat)
    requires 0.0 <= maxForce && 0.0 < forceConversionFactor
    ensures m as real * (forceConversionFactor * AverageUnitForce) <= maxForce <==>
            m <= StandardUnitCount(maxForce, forceConversionFactor)
  {
  }

  /** The default force (60) gives 121 units; the docstring's 500 gives 1011 (truncated, not rounded). */
  lemma StandardUnitCountExamples()
    ensures StandardUnitCount(60.0, 0.028) == 121
    ensures StandardUnitCount(500.0, 0.028) == 1011
  {
  }

  class Muscle<S, T, F> {
    const pool: MotorNeuronPool<S>
    const fibers: MuscleFibers<T, F>
    const preset: Preset

    /** The one structural invariant: both collaborators have the same number of motor units. */
    ghost predicate Valid() {
      pool.motorUnitCount == fibers.motorUnitCount
    }

    /** Assembles a muscle from collaborators already known to agree. */
    constructor (pool: MotorNeuronPool<S>, fibers: MuscleFibers<T, F>)
      requires pool.motorUnitCount == fibers.motorUnitCount
      ensures Valid() && this.pool == pool && this.fibers == fibers && preset == Composed
    {
      this.pool := pool;
      this.fibers := fibers;
      preset := Composed;
    }

    /** Muscle(pool, fibers): refuses collaborators whose motor-unit counts differ. */
    static method Create(pool: MotorNeuronPool<S>, fibers: MuscleFibers<T, F>)
      returns (r: Result<Muscle<S, T, F>, ConfigurationError>)
      ensures r.Ok? <==> pool.motorUnitCount == fibers.motorUnitCount
      ensures r.Ok? ==> r.value.Valid() && r.value.pool == pool && r.value.fibers == fibers && r.value.preset == Composed
      ensures r.Err? ==> r.error == MotorUnitCountMismatch(pool.motorUnitCount, fibers.motorUnitCount)
    {
      if pool.motorUnitCount == fibers.motorUnitCount {
        var m := new Muscle(pool, fibers);
        r := Ok(m);
      } else {
        r := Err(MotorUnitCountMismatch(pool.motorUnitCount, fibers.motorUnitCount));
      }
    }

    /** The shared motor-unit count, read from the pool. */
    function MotorUnitCount(): (n: nat)
      requires Valid()
      ensures n == pool.motorUnitCount && n == fibers.motorUnitCount
    {
      pool.motorUnitCount
    }

    /** The force the fibres cached on their last successful step; reading it steps nothing. */
    function CurrentForces(): (f: F)
      reads fibers
      ensures f == fibers.currentForces
    {
      fibers.currentForces
    }

    /**
     * Advances the muscle one step: the pool steps once on the normalised
     * input and stepSize, then (unless it raised) the fibres step once on
     * the pool's output; the fibres' result, or the first exception, is
     * returned unchanged.
     */
    method Step(input: Excitation, stepSize: real) returns (r: Result<F, CollaboratorError>)
      requires Valid()
      modifies pool, fibers
      ensures var tr := StepSpec(pool.dynamics, fibers.dynamics, pool.motorUnitCount,
                                 old(pool.state), old(fibers.state), old(fibers.currentForces), input, stepSize);
              r == tr.result &&
              pool.state == tr.poolState &&
              pool.calls == old(pool.calls) + [PoolCall(tr.poolInput, stepSize)] &&
              fibers.state == tr.fibersState &&
              fibers.currentForces == tr.forces &&
              fibers.calls == old(fibers.calls) + tr.fibersCalls
      ensures r.Ok? ==> CurrentForces() == r.value
    {
      var poolInput := Normalize(input, pool.motorUnitCount);
      var activation := pool.Step(poolInput, stepSize);
      match activation
      case Err(e) =>
        r := Err(e);
      case Ok(a) =>
        r := fibers.Step(a);
    }

    /**
     * Issues the requests one after another through Step, as a caller driving
     * the simulation does; the results are those Run predicts.
     */
    method StepAll(steps: seq<StepRequest>) returns (results: seq<Result<F, CollaboratorError>>)
      requires Valid()
      modifies pool, fibers
      ensures results == Run(pool.dynamics, fibers.dynamics, pool.motorUnitCount,
                             old(pool.state), old(fibers.state), old(fibers.currentForces), steps)
      ensures var e := RunEnd(pool.dynamics, fibers.dynamics, pool.motorUnitCount,
                              old(pool.state), old(fibers.state), old(fibers.currentForces), steps);
              pool.state == e.poolState && fibers.state == e.fibersState && fibers.currentForces == e.forces &&
              pool.calls == old(pool.calls) + e.poolCalls && fibers.calls == old(fibers.calls) + e.fibersCalls
    {
      ghost var pd, fd, n := pool.dynamics, fibers.dynamics, pool.motorUnitCount;
      ghost var s0, t0, f0 := pool.state, fibers.state, fibers.currentForces;
      ghost var all := Run(pd, fd, n, s0, t0, f0, steps);
      ghost var end := RunEnd(pd, fd, n, s0, t0, f0, steps);
      results := [];
      var i := 0;
      while i < |steps|
        invariant 0 <= i <= |steps|
        invariant results + Run(pd, fd, n, pool.state, fibers.state, fibers.currentForces, steps[i..]) == all
        invariant var e := RunEnd(pd, fd, n, pool.state, fibers.state, fibers.currentForces, steps[i..]);
                  e.poolState == end.poolState && e.fibersState == end.fibersState && e.forces == end.forces &&
                  pool.calls + e.poolCalls == old(pool.calls) + end.poolCalls &&
                  fibers.calls + e.fibersCalls == old(fibers.calls) + end.fibersCalls
      {
        ghost var tr := StepSpec(pd, fd, n, pool.state, fibers.state, fibers.currentForces,
                                 steps[i].input, steps[i].stepSize);
        RunAdvance(pd, fd, n, pool.state, fibers.state, fibers.currentForces, pool.calls, fibers.calls, tr, steps, i);
        var r := Step(steps[i].input, steps[i].stepSize);
        results := results + [r];
        i := i + 1;
      }
      assert steps[i..] == [];
    }

    /** PotvinFuglevandMuscle: the Potvin-Fuglevand 2017 pool and fibres, both with the given count. */
    constructor PotvinFuglevand(poolDynamics: PoolDynamics<S>, poolInitial: S,
                                fibersDynamics: FibersDynamics<T, F>, fibersInitial: T, restForces: F,
                                motorUnitCount: nat,
                                applyCentralFatigue: bool := true,
                                applyPeripheralFatigue: bool := true,
                                preCalcFiringRates: bool := false)
      ensures Valid() && fresh(pool) && fresh(fibers) && preset == PotvinFuglevandPreset
      ensures pool.motorUnitCount == motorUnitCount
      ensures pool.kind == PotvinFuglevand2017MotorNeuronPool(applyCentralFatigue, preCalcFiringRates)
      ensures pool.dynamics == poolDynamics && pool.state == poolInitial && pool.calls == []
      ensures fibers.kind == PotvinFuglevand2017MuscleFibers(applyPeripheralFatigue)
      ensures fibers.dynamics == fibersDynamics && fibers.state == fibersInitial
      ensures fibers.currentForces == restForces && fibers.calls == []
    {
      pool := new MotorNeuronPool(motorUnitCount,
        PotvinFuglevand2017MotorNeuronPool(applyCentralFatigue, preCalcFiringRates), poolDynamics, poolInitial);
      fibers := new MuscleFibers(motorUnitCount,
        PotvinFuglevand2017MuscleFibers(applyPeripheralFatigue), fibersDynamics, fibersInitial, restForces);
      preset := PotvinFuglevandPreset;
    }

    /**
     * StandardMuscle: the Potvin-Fuglevand 2017 pool and the PyMuscle fibres,
     * sized by the force asked for; central fatigue is off by default.
     */
    constructor Standard(poolDynamics: PoolDynamics<S>, poolInitial: S,
                         fibersDynamics: FibersDynamics<T, F>, fibersInitial: T, restForces: F,
                         maxForce: real := 60.0,
                         forceConversionFactor: real := 0.028,
                         applyCentralFatigue: bool := false,
                         applyPeripheralFatigue: bool := true,
                         preCalcFiringRates: bool := false)
      requires 0.0 <= maxForce && 0.0 < forceConversionFactor
      ensures Valid() && fresh(pool) && fresh(fibers)
      ensures preset == StandardPreset(maxForce, forceConversionFactor)
      ensures pool.motorUnitCount == StandardUnitCount(maxForce, forceConversionFactor)
      ensures pool.kind == PotvinFuglevand2017MotorNeuronPool(applyCentralFatigue, preCalcFiringRates)
      ensures pool.dynamics == poolDynamics && pool.state == poolInitial && pool.calls == []
      ensures fibers.kind == PyMuscleFibers(forceConversionFactor, applyPeripheralFatigue)
      ensures fibers.dynamics == fibersDynamics && fibers.state == fibersInitial
      ensures fibers.currentForces == restForces && fibers.calls == []
    {
      var count := StandardUnitCount(maxForce, forceConversionFactor);
      pool := new MotorNeuronPool(count,
        PotvinFuglevand2017MotorNeuronPool(applyCentralFatigue, preCalcFiringRates), poolDynamics, poolInitial);
      fibers := new MuscleFibers(count,
        PyMuscleFibers(forceConversionFactor, applyPeripheralFatigue), fibersDynamics, fibersInitial, restForces);
      preset := StandardPreset(maxForce, forceConversionFactor);
    }
  }

  /** A StandardMuscle built with every default: 121 units, no central fatigue, peripheral fatigue on. */
  method StandardDefaults<S, T, F>(poolDynamics: PoolDynamics<S>, poolInitial: S,
                                   fibersDynamics: FibersDynamics<T, F>, fibersInitial: T, restForces: F)
    returns (m: Muscle<S, T, F>)
    ensures m.Valid() && m.MotorUnitCount() == 121
    ensures m.preset == StandardPreset(60.0, 0.028)
    ensures m.pool.kind == PotvinFuglevand2017MotorNeuronPool(false, false)
    ensures m.fibers.kind == PyMuscleFibers(0.028, true)
  {
    m := new Muscle.Standard(poolDynamics, poolInitial, fibersDynamics, fibersInitial, restForces);
    StandardUnitCountExamples();
  }

  /** A PotvinFuglevandMuscle built with every default: both kinds of fatigue on, no precalculated rates. */
  method PotvinFuglevandDefaults<S, T, F>(poolDynamics: PoolDynamics<S>, poolInitial: S,
                                          fibersDynamics: FibersDynamics<T, F>, fibersInitial: T, restForces: F,
                                          motorUnitCount: nat)
    returns (m: Muscle<S, T, F>)
    ensures m.Valid() && m.MotorUnitCount() == motorUnitCount
    ensures m.preset == PotvinFuglevandPreset
    ensures m.pool.kind == PotvinFuglevand2017MotorNeuronPool(true, false)
    ensures m.fibers.kind == PotvinFuglevand2017MuscleFibers(true)
  {
    m := new Muscle.PotvinFuglevand(poolDynamics, poolInitial, fibersDynamics, fibersInitial, restForces, motorUnitCount);
  }
}
