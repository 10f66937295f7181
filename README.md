# pymuscle composition layer, in Dafny

This project models the part of pymuscle that turns a motor-neuron pool and a
set of muscle fibres into one steppable `Muscle` (`pymuscle/muscle.py`).

- `collaborators.dfy` (module `Collaborators`): the two collaborators as the
  composition layer sees them. Each is a class with an immutable
  `motorUnitCount`, the options it was built with (`kind`), a state, and a
  function-valued `dynamics` that stands for its own `step` implementation.
  A ghost `calls` history records every call of `Step`. An exception raised
  by a collaborator is an `Err(CollaboratorError)`. The fibres cache the
  force of their last successful step in `currentForces`.
- `muscle.dfy` (module `PyMuscle`): the excitation as a tagged value
  (`Scalar(v)` or `PerUnit(s)`) and its normalisation; one step as a pure
  function `StepSpec` and many steps as `Run`; the `Muscle` class with its
  invariant `Valid()` (equal motor-unit counts), its fallible construction
  `Create`, its accessors and its `Step`; the two preset classes as named
  constructors `PotvinFuglevand` and `Standard` with the source's default
  arguments; and the unit-count derivation of `StandardMuscle`.

What is proved:

- Construction succeeds exactly when the two counts are equal. A mismatch
  gives `MotorUnitCountMismatch` with both counts.
- `MotorUnitCount` is the pool's count, and once built also the fibres'.
  Both accessors are functions, so reading them changes nothing and steps
  nothing.
- `Step` calls the pool once, with the normalised input and the step size.
  If the pool raises, that error is returned as it is and the fibres are not
  called. Otherwise the fibres are called once, with the pool's output and no
  step size, and their result (a force, or their exception) is returned as it
  is. Data dependency fixes the order: the fibres' argument is the output of
  this step's pool call.
- Many steps: `StepAll` (a caller's driving loop, not a method of the source)
  issues requests one after another through `Step`, and
  its results are exactly those of the pure fold `Run`. Results of earlier
  requests never depend on later ones.
- A scalar becomes `motorUnitCount` copies of itself. A per-unit sequence
  reaches the pool unchanged, whatever its length.
- Broadcast equivalence, for one step and for any sequence of steps: writing
  every excitation out per unit changes nothing that is returned.
- Determinism: the new states and the result of `Step` are a function
  (`StepSpec`) of the old states and the arguments.
- `StandardMuscle`'s count is Python's `int()` (truncation toward zero) of
  `max_force / (force_conversion_factor * 17.66)`. For non-negative force and
  positive factor it is the largest `m` with `m * factor * 17.66 <= max_force`.
  The defaults (60, 0.028) give 121. The docstring's example of 500, which
  it puts at about 1000, gives exactly 1011.
- Default flags: `StandardMuscle` has central fatigue off, peripheral fatigue
  on and precalculated firing rates off. `PotvinFuglevandMuscle` has both
  fatigues on. The flags are forwarded to the right collaborator, and
  `force_conversion_factor` goes to the PyMuscle fibres.

## Model

| member | source | states |
|---|---|---|
| `Collaborators.MotorNeuronPool.constructor` | pymuscle/muscle.py:101-105 | the pool keeps the count and options it was built with, starts in its initial state and has not been stepped (the same class stands for `StandardMuscle`'s pool at pymuscle/muscle.py:175-179) |
| `Collaborators.MotorNeuronPool.Step` | pymuscle/muscle.py:84 | one call is recorded with its input and step size; the state advances and the output is returned, or the exception is returned and the state is kept |
| `Collaborators.MuscleFibers.constructor` | pymuscle/muscle.py:106-109 | the fibres keep their count and options, start in their initial state with the rest force cached, and have not been stepped (the same class stands for the PyMuscle fibres at pymuscle/muscle.py:180-184) |
| `Collaborators.MuscleFibers.Step` | pymuscle/muscle.py:85 | one call is recorded with its activation; on success the new force is both returned and cached as the current force; on an exception nothing else changes |
| `PyMuscle.Broadcast` | pymuscle/muscle.py:79-82 | the result has exactly `count` entries, each equal to the value |
| `PyMuscle.Normalize` | pymuscle/muscle.py:76-83 | a scalar becomes `count` copies of itself; a per-unit sequence is returned unchanged, with no length check or padding |
| `PyMuscle.StepSpec` | pymuscle/muscle.py:76-85 | the pool gets the normalised input; the fibres are called at most once, exactly when the pool did not raise, and on the pool's output; a pool exception is returned unchanged with the fibres untouched; after a pool step the pool takes its new state and the result is exactly the fibres' outcome, `Ok(force)` with their new state or their exception unchanged |
| `PyMuscle.Run` | pymuscle/muscle.py:61-85 | one result per request, for any number of successive steps |
| `PyMuscle.RunEnd` | pymuscle/muscle.py:61-85 | successive steps make exactly one pool call per request and at most one fibres call per request |
| `PyMuscle.RunEndPoolCalls` | pymuscle/muscle.py:77-84 | the k-th pool call of a run carries the k-th request's normalised input and its step size |
| `PyMuscle.RunPrefix` | pymuscle/muscle.py:61-85 | the results of a run's first requests are those of running those requests alone |
| `PyMuscle.StepBroadcastEquivalence` | pymuscle/muscle.py:77-85 | one step on `Scalar(v)` and on `count` copies of `v` gives the same states, calls and result |
| `PyMuscle.RunBroadcastEquivalence` | pymuscle/muscle.py:77-85 | any sequence of steps returns the same results when every excitation is written out per unit |
| `PyMuscle.TruncateTowardZero` | pymuscle/muscle.py:171-173 | Python's `int()`: the result is the integer part, below the value for positives and above it for negatives, off by less than one |
| `PyMuscle.StandardUnitCount` | pymuscle/muscle.py:170-173 | for non-negative force and positive factor the count is non-negative, its units' average force stays within the maximum force, and one more unit would exceed it |
| `PyMuscle.StandardUnitCountIsLargest` | pymuscle/muscle.py:151-153 | for every `m`, `m` units of average force fit within the maximum force exactly when `m` is at most the derived count |
| `PyMuscle.StandardUnitCountExamples` | pymuscle/muscle.py:153-158 | the defaults 60 and 0.028 give 121 units; 500 and 0.028 give 1011 |
| `PyMuscle.Muscle.constructor` | pymuscle/muscle.py:42-51 | a muscle built from collaborators with equal counts holds exactly those two and satisfies the invariant |
| `PyMuscle.Muscle.Create` | pymuscle/muscle.py:42-51 | construction succeeds exactly when the two counts are equal, and then holds those collaborators and records no preset, so it stores no `max_force`; otherwise it fails with both counts |
| `PyMuscle.Muscle.MotorUnitCount` | pymuscle/muscle.py:53-55 | the pool's count, which is also the fibres' count |
| `PyMuscle.Muscle.CurrentForces` | pymuscle/muscle.py:57-59 | the fibres' cached force, read without stepping anything |
| `PyMuscle.Muscle.StepAll` | pymuscle/muscle.py:61-85 | requests issued one after another through `Step` give exactly the results `Run` gives from the muscle's starting states; both final states, the cached force and both call histories are those `RunEnd` gives, so no call is made beyond one `Step` per request |
| `PyMuscle.Muscle.Step` | pymuscle/muscle.py:61-85 | the pool is called once with the normalised input and step size, then at most once the fibres with its output; the result, both new states and both call histories are those `StepSpec` gives; after success the current force is the returned one (an assumption about the fibres, see below) |
| `PyMuscle.Muscle.PotvinFuglevand` | pymuscle/muscle.py:94-114 | fresh Potvin-Fuglevand pool and fibres with the given count; central fatigue and precalculation go to the pool, peripheral fatigue to the fibres |
| `PyMuscle.Muscle.Standard` | pymuscle/muscle.py:155-189 | fresh Potvin-Fuglevand pool and PyMuscle fibres sized by `StandardUnitCount`; the flags and the conversion factor reach the right collaborator; the force and factor are stored |
| `PyMuscle.StandardDefaults` | pymuscle/muscle.py:157-161 | with every default: 121 units, central fatigue off, peripheral fatigue on, firing rates not precalculated, factor 0.028 |
| `PyMuscle.PotvinFuglevandDefaults` | pymuscle/muscle.py:97-99 | with every default: both fatigues on, firing rates not precalculated |

## Left out

- The internals of the Potvin-Fuglevand 2017 pool and fibres, of the PyMuscle fibres and of their base `Model`: recruitment, firing rates, twitch forces and fatigue. `pymuscle/potvin_fuglevand_2017_*.py`, `pymuscle/pymuscle_fibers.py` and `pymuscle/model.py` are not part of this model. Each collaborator's `step` is a transition function given at construction.
- Floating point: excitations, step sizes, forces and the count quotient are exact reals. IEEE-754 rounding of `force_conversion_factor * 17.66` and of the division is not captured. It could only matter for a quotient within rounding error of an integer.
- numpy: `np.full` is `Broadcast`, arrays are `seq<real>`. Python's run-time check for `int`/`float` is the `Scalar`/`PerUnit` tag. So a numpy scalar such as `np.int64`, which the source passes on unexpanded, has no counterpart. An `int` scalar is taken as a real.
- What a collaborator does with an input of the wrong length is its own business: the model passes it on, and the collaborator's transition function may raise.
- Whether a collaborator that raises has already changed its state: on an exception the model keeps the old state.
- The order of the two collaborator calls is shown by data flow (the fibres receive this step's pool output), not by a shared clock.
- The fibres' cached `currentForces` is taken to be the force their last successful step returned. `pymuscle/muscle.py:57-59` only reads the fibres' attribute and promises nothing about how it relates to what `step` returns; it might, say, hold per-unit forces beside a total. So `CurrentForces() == r.value` after `Muscle.Step` is a property of this fibres model, not of the composition.
- `Muscle.__init__` (`pymuscle/muscle.py:47-48`) fails with a bare `AssertionError` carrying no counts; `MotorUnitCountMismatch` adds both counts. Under `python -O` the assertion is removed and mismatched collaborators are accepted; the model always checks.
- `PyMuscle.Muscle.Standard`: requires `max_force >= 0` and `force_conversion_factor > 0`. The source would raise `ZeroDivisionError` for a zero factor. For negative inputs it would hand a negative or truncated count to collaborators that are not part of this model.
- `PyMuscle.Muscle.PotvinFuglevand`: takes the count as a `nat`, so the negative counts that `PotvinFuglevandMuscle(motor_unit_count: int)` accepts are excluded. What the Python collaborators do with such a count is outside the model.
