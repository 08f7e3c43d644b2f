# CovidSEIR: a verified model of `SEIRModel`

This project models the discrete-time compartment simulator `SEIRModel` of
`covidseir/covidseir.py` in Dafny and proves properties of it.

The simulator tracks four compartments: Susceptible, Infected, Recovered and
Deceased. It keeps them in the vector `current_state = [S, I, R, D]` and counts
the steps taken in `t`. `step(nsteps)` runs an explicit-Euler difference update
`nsteps` times, in place. Then it returns the state multiplied by `population`.

The model has two layers, both in module `CovidSeir` (`covidseir.dfy`):

- A pure specification over `real` numbers:
  - `Rates` holds the four rates and `Compartments` the four compartments.
  - `DeltaS`, `DeltaI`, `DeltaR` and `DeltaD` are the four increments of one step. Each is a function of the pre-step snapshot alone.
  - `Update` applies one step and `Iterate` applies `n` of them.
  - Lemmas state what one step and `n` steps do.
- The class `SEIRModel`, written as the source writes it:
  - The compartments live in an `array<real>` of length 4. The same array is stored as `initialState` and as `currentState`, as the Python constructor does.
  - `Step` is a `while` loop that adds the four increments in place and increments `t`. It is proved against `Iterate`.
  - `ScaledState` builds the returned, population-scaled vector in a fresh array.

Results proved about the source's behaviour:

- One step sets the new I to exactly `infection_rate·S·I`. The three terms subtracted from I add up to all of I. So with `infection_rate = 0` the infected are gone after one step.
- With every rate zero, the state is not static. The first step moves all of I into R, and the state is then fixed (`ZeroRatesSettle`, `ZeroRatesScenario`).
- The total S+I+R+D is not conserved. Each step adds `birth_rate·(S+I+R) + death_rate·R` to it, because background deaths on R are credited to D but never debited from R.
- Steps compose: `Iterate(Iterate(c, a), b) == Iterate(c, a + b)`. `StepsCompose` lifts this to two calls of `Step` on one object.
- A negative `nsteps` takes no step. It changes neither the state nor `t`.

## Model

| member | source | states |
|---|---|---|
| CovidSeir.UpdateInfected | covidseir/covidseir.py:58-61 | the new I is exactly `infection_rate·s·i`; with `infection_rate = 0` it is 0 |
| CovidSeir.UpdateSusceptible | covidseir/covidseir.py:55-57 | the new S is what infections and background deaths spare of S, `s·(1 − infection_rate·i − death_rate)`, plus births `birth_rate·p` |
| CovidSeir.UpdateRecoveredPlusDeceased | covidseir/covidseir.py:58-65 | everything that leaves I ends up in R or D: one step raises R + D by all of I plus the background deaths `death_rate·(s + r)` |
| CovidSeir.RemovalFlow | covidseir/covidseir.py:62-65 | the increments of R and of D add up to `i + death_rate·(s + r)` |
| CovidSeir.UpdateDeceasedGrows | covidseir/covidseir.py:64-65 | D does not decrease in a step when the rates and S, I, R are non-negative |
| CovidSeir.UpdateTotal | covidseir/covidseir.py:49-65 | the total S+I+R+D is not conserved: one step adds exactly `birth_rate·p + death_rate·r` |
| CovidSeir.UpdateIgnoresDeceased | covidseir/covidseir.py:46-65 | the updates read only the snapshot `s, i, r`: two states agreeing on S, I, R step to states agreeing on S, I, R and on the change of D, so the old D is never read |
| CovidSeir.IterateCompose | covidseir/covidseir.py:45-67 | `a` steps followed by `b` steps equal `a + b` steps |
| CovidSeir.TotalAfterSteps | covidseir/covidseir.py:45-65 | after `n` steps the total is the start total plus the sum of each step's `birth_rate·p + death_rate·r` |
| CovidSeir.DeceasedAfterSteps | covidseir/covidseir.py:45-65 | after `n` steps D is the start D plus the sum of each step's `mortality_rate·i + death_rate·p` |
| CovidSeir.DeceasedNeverDecreases | covidseir/covidseir.py:45-65 | along a trajectory whose S, I, R stay non-negative, with non-negative rates, D after `n` steps is at least the start D |
| CovidSeir.NonNegativeStep | covidseir/covidseir.py:55-63 | one step keeps S, I, R non-negative when the rates are non-negative, `mortality_rate + death_rate ≤ 1` and `infection_rate·i + death_rate ≤ 1` |
| CovidSeir.SusceptibleStaysNonNegative | covidseir/covidseir.py:55-57 | the new S is non-negative when infections and background deaths take at most all of S |
| CovidSeir.InfectedStaysNonNegative | covidseir/covidseir.py:58-61 | the new I is non-negative for non-negative `infection_rate`, S and I |
| CovidSeir.RecoveredStaysNonNegative | covidseir/covidseir.py:62-63 | the new R is non-negative when `mortality_rate + death_rate ≤ 1` |
| CovidSeir.ZeroRatesSettle | covidseir/covidseir.py:45-65 | with all four rates zero, any positive number of steps gives `[s, 0, r + i, d]`: I moves to R, so the state is not static |
| CovidSeir.SEIRModel.constructor | covidseir/covidseir.py:17-29 | `t = 0`; stores `infection_rate / population` (needs `population ≠ 0`) and the other three rates and `population` unchanged; `current_state` and `initial_state` are the very array passed in |
| CovidSeir.SEIRModel.Step | covidseir/covidseir.py:31-69 | `t` grows by exactly `nsteps` (by 0 when `nsteps < 0`); the state becomes `Iterate` of the old state, the same array as `initial_state`; only `t` and the state array change; the result is a fresh array holding the state scaled by `population` |
| CovidSeir.SEIRModel.ScaledState | covidseir/covidseir.py:69 | the returned vector is a new array equal to the stored state times `population` component by component; nothing stored changes |
| CovidSeir.StepsCompose | covidseir/covidseir.py:45-69 | `step(a)` then `step(b)` on one object leaves `t` and the state as `step(a + b)` would, and returns the final state scaled by `population` in a fresh array |
| CovidSeir.DefaultScenarioOneStep | covidseir/covidseir.py:8-13 | with the default rates, population 1000 and state `[999, 1, 0, 0]`, one step gives `[995.9237645, 2.4975, 0.9872355, 0.7765]` |
| CovidSeir.DefaultScenario | covidseir/covidseir.py:17-69 | constructing with the defaults and population 1000 and calling `step(1)` on the float state `[999.0, 1.0, 0.0, 0.0]` returns `[995923.7645, 2497.5, 987.2355, 776.5]` (an integer array behaves differently, see below) |
| CovidSeir.ZeroRatesScenario | covidseir/covidseir.py:17-69 | all rates zero, population 1, state `[0.99, 0.01, 0, 0]`: any `step(n)` with `n ≥ 1` returns `[0.99, 0, 0.01, 0]`, not the start state |

## Left out

- Floating-point rounding: all compartment arithmetic is exact `real` arithmetic, so every equality above holds of the algebra, not of IEEE doubles.
- numpy dtypes: with an integer `initial_state` array, the in-place `+=` of floats truncates each new value to an integer. For example, `np.array([999, 1, 0, 0])` with the defaults and population 1000 would give `[995000, 2000, 0, 0]` from `step(1)`, not the float result above. The model has real-valued compartments only.
- SEIRModel.constructor: requires the state array to have exactly four entries. The Python code does not check this. A shorter array fails with an indexing error on the first step. A longer one keeps its extra entries unchanged and scaled.
- SEIRModel.constructor: requires `population ≠ 0`. That is the division the Python constructor performs, and it fails on zero.
- The `networkx` and `Graph` imports play no part in the logic.
- `INCUBATION_PERIOD` is kept as the inert constant `IncubationPeriod`. Nothing reads it.
- There is no argument validation. A negative `nsteps` runs zero iterations, as `range` does, and no error path is added.
- Concurrency: the object is single-writer, and the model has no threads.
- Non-negativity of the state is proved for one step only, under the stated bounds on the rates and the current state. No multi-step non-negativity result is claimed, because it depends on the trajectory.
