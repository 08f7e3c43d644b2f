/**
 * A model of the discrete-time S/I/R/D compartment simulator `SEIRModel`
 * (covidseir/covidseir.py).
 *
 * The compartment arithmetic is exact `real` arithmetic. The pure part of the
 * module (Rates, Compartments, Update, Iterate) is the specification: one
 * explicit-Euler step and its n-fold repetition. The class SEIRModel is the
 * object itself: it keeps the four compartments in an array that `Step`
 * updates in place, and a step counter `t`.
 */
module CovidSeir {

  // Base parameters of the simulator (per time step of 24 hours).
  const MortalityRate: real := 0.012
  const GlobalBirthRate: real := 0.000185
  const GlobalDeathRate: real := 0.0007645
  // Raw transmission coefficient, before division by the population.
  const InfectionRate: real := 2.5
  // Declared by the simulator but never read by the update rule.
  const IncubationPeriod: int := 5

  /** The four rates a model steps with; `infection` is already divided by the population. */
  datatype Rates = Rates(birth: real, death: real, infection: real, mortality: real)

  /** Susceptible, Infected, Recovered and Deceased, in that order. */
  datatype Compartments = Compartments(s: real, i: real, r: real, d: real)

  /** The living population S + I + R. */
  function Living(c: Compartments): (p: real) {
    c.s + c.i + c.r
  }

  /** The sum of all four compartments. */
  function Total(c: Compartments): (total: real) {
    c.s + c.i + c.r + c.d
  }

  /** What one step adds to the total: births on the living population, plus
      background deaths on R, which are credited to D but never debited from R. */
  function Inflow(k: Rates, c: Compartments): (inflow: real) {
    k.birth * Living(c) + k.death * c.r
  }

  /** True when all four rates are non-negative. */
  predicate NonNegativeRates(k: Rates) {
    k.birth >= 0.0 && k.death >= 0.0 && k.infection >= 0.0 && k.mortality >= 0.0
  }

  /** True when S, I and R are non-negative. */
  predicate NonNegativeLiving(c: Compartments) {
    c.s >= 0.0 && c.i >= 0.0 && c.r >= 0.0
  }

  /** The product of two non-negative reals is non-negative. */
  lemma MulNonNegative(x: real, y: real)
    ensures x >= 0.0 && y >= 0.0 ==> x * y >= 0.0
  {}

  // The four deltas of one step, each a function of the snapshot `c` alone.

  /** Births on the living population, less new infections and background deaths in S. */
  function DeltaS(k: Rates, c: Compartments): (delta: real) {
    k.birth * Living(c) - k.infection * c.s * c.i - k.death * c.s
  }

  /** New infections, less recoveries, disease deaths and background deaths in I. */
  function DeltaI(k: Rates, c: Compartments): (delta: real) {
    k.infection * c.s * c.i - (1.0 - k.mortality - k.death) * c.i - k.mortality * c.i - k.death * c.i
  }

  /** Recoveries: the infected who neither die of the disease nor of other causes. */
  function DeltaR(k: Rates, c: Compartments): (delta: real) {
    (1.0 - k.mortality - k.death) * c.i
  }

  /** Disease deaths in I plus background deaths on the whole living population. */
  function DeltaD(k: Rates, c: Compartments): (delta: real) {
    k.mortality * c.i + k.death * Living(c)
  }

  /**
   * One time step: every compartment is incremented by its delta, and all
   * four deltas read the same snapshot `c`. The old D is carried over and
   * never read by a delta.
   */
  function Update(k: Rates, c: Compartments): (c': Compartments) {
    Compartments(c.s + DeltaS(k, c), c.i + DeltaI(k, c), c.r + DeltaR(k, c), c.d + DeltaD(k, c))
  }

  /** The three subtracted terms of the I delta add up to exactly I, so the new I is the new infections alone. */
  lemma UpdateInfected(k: Rates, c: Compartments)
    ensures Update(k, c).i == k.infection * c.s * c.i
    ensures k.infection == 0.0 ==> Update(k, c).i == 0.0
  {
  }

  /** The new S: what infections and background deaths spare of S, plus the births. */
  lemma UpdateSusceptible(k: Rates, c: Compartments)
    ensures Update(k, c).s == c.s * (1.0 - k.infection * c.i - k.death) + k.birth * Living(c)
  {
  }

  /** The new R and the new D, one by one. */
  lemma UpdateRemoved(k: Rates, c: Compartments)
    ensures Update(k, c).r == c.r + (1.0 - k.mortality - k.death) * c.i
    ensures Update(k, c).d == c.d + k.mortality * c.i + k.death * Living(c)
  {
    assert Update(k, c).r == c.r + DeltaR(k, c);
    assert Update(k, c).d == c.d + DeltaD(k, c);
  }

  /** The two increments into R and D add up to all of I plus background deaths on S and R. */
  lemma RemovalFlow(k: Rates, c: Compartments)
    ensures DeltaR(k, c) + DeltaD(k, c) == c.i + k.death * (c.s + c.r)
  {
    assert DeltaR(k, c) == c.i - k.mortality * c.i - k.death * c.i;
    assert DeltaD(k, c) == k.mortality * c.i + k.death * c.s + k.death * c.i + k.death * c.r;
  }

  /**
   * Everything that leaves I ends up in R or in D: together they gain all of
   * I plus the background deaths on S and R.
   */
  lemma UpdateRecoveredPlusDeceased(k: Rates, c: Compartments)
    ensures Update(k, c).r + Update(k, c).d == c.r + c.d + c.i + k.death * (c.s + c.r)
  {
    RemovalFlow(k, c);
  }

  /** D does not decrease in a step when the rates and S, I, R are non-negative. */
  lemma UpdateDeceasedGrows(k: Rates, c: Compartments)
    requires NonNegativeRates(k) && NonNegativeLiving(c)
    ensures Update(k, c).d >= c.d
  {
    UpdateRemoved(k, c);
    MulNonNegative(k.mortality, c.i);
    MulNonNegative(k.death, Living(c));
  }

  /** The total is not conserved: one step adds exactly `Inflow`. */
  lemma UpdateTotal(k: Rates, c: Compartments)
    ensures Total(Update(k, c)) == Total(c) + Inflow(k, c)
  {
  }

  /**
   * The old D is never read: two states that agree on S, I and R step to
   * states that agree on S, I and R and on the change of D.
   */
  lemma UpdateIgnoresDeceased(k: Rates, c: Compartments, c2: Compartments)
    requires c.s == c2.s && c.i == c2.i && c.r == c2.r
    ensures Update(k, c).s == Update(k, c2).s
    ensures Update(k, c).i == Update(k, c2).i
    ensures Update(k, c).r == Update(k, c2).r
    ensures Update(k, c).d - c.d == Update(k, c2).d - c2.d
  {
    assert Living(c) == Living(c2);
    assert DeltaS(k, c) == DeltaS(k, c2);
    assert DeltaI(k, c) == DeltaI(k, c2);
    assert DeltaR(k, c) == DeltaR(k, c2);
    assert DeltaD(k, c) == DeltaD(k, c2);
  }

  /** `n` steps in a row; a non-positive `n` takes no step, as `range(n)` is then empty. */
  function Iterate(k: Rates, c: Compartments, n: int): (c': Compartments)
    decreases n
  {
    if n <= 0 then c else Update(k, Iterate(k, c, n - 1))
  }

  /** The sum of `Inflow` over the states visited before each of the first `n` steps. */
  function InflowOver(k: Rates, c: Compartments, n: int): (inflow: real)
    decreases n
  {
    if n <= 0 then 0.0 else InflowOver(k, c, n - 1) + Inflow(k, Iterate(k, c, n - 1))
  }

  /** The sum of what the first `n` steps credit to D. */
  function DeathsOver(k: Rates, c: Compartments, n: int): (deaths: real)
    decreases n
  {
    if n <= 0 then 0.0 else DeathsOver(k, c, n - 1) + DeltaD(k, Iterate(k, c, n - 1))
  }

  /** Stepping `a` times and then `b` times is stepping `a + b` times. */
  lemma {:induction false} IterateCompose(k: Rates, c: Compartments, a: nat, b: nat)
    ensures Iterate(k, Iterate(k, c, a), b) == Iterate(k, c, a + b)
  {
    if b > 0 {
      IterateCompose(k, c, a, b - 1);
    }
  }

  /** The total after `n` steps: the start total plus every step's inflow. */
  lemma {:induction false} TotalAfterSteps(k: Rates, c: Compartments, n: int)
    ensures Total(Iterate(k, c, n)) == Total(c) + InflowOver(k, c, n)
  {
    if n > 0 {
      TotalAfterSteps(k, c, n - 1);
      UpdateTotal(k, Iterate(k, c, n - 1));
    }
  }

  /** D after `n` steps: the start value plus every step's disease and background deaths. */
  lemma {:induction false} DeceasedAfterSteps(k: Rates, c: Compartments, n: int)
    ensures Iterate(k, c, n).d == c.d + DeathsOver(k, c, n)
  {
    if n > 0 {
      DeceasedAfterSteps(k, c, n - 1);
    }
  }

  /** D never decreases along a trajectory whose living compartments stay non-negative. */
  lemma {:induction false} DeceasedNeverDecreases(k: Rates, c: Compartments, n: nat)
    requires NonNegativeRates(k)
    requires forall j :: 0 <= j < n ==> NonNegativeLiving(Iterate(k, c, j))
    ensures Iterate(k, c, n).d >= c.d
  {
    if n > 0 {
      DeceasedNeverDecreases(k, c, n - 1);
      assert NonNegativeLiving(Iterate(k, c, n - 1));
      UpdateDeceasedGrows(k, Iterate(k, c, n - 1));
    }
  }

  /**
   * One step keeps S, I and R non-negative when the rates are non-negative,
   * disease and background death together take no more than all of I, and
   * infections plus background deaths take no more than all of S.
   */
  lemma NonNegativeStep(k: Rates, c: Compartments)
    requires NonNegativeRates(k) && NonNegativeLiving(c)
    requires k.mortality + k.death <= 1.0
    requires k.infection * c.i + k.death <= 1.0
    ensures NonNegativeLiving(Update(k, c))
  {
    SusceptibleStaysNonNegative(k, c);
    InfectedStaysNonNegative(k, c);
    RecoveredStaysNonNegative(k, c);
  }

  /** S stays non-negative when infections and background deaths take at most all of S. */
  lemma SusceptibleStaysNonNegative(k: Rates, c: Compartments)
    requires k.birth >= 0.0 && c.s >= 0.0 && Living(c) >= 0.0
    requires k.infection * c.i + k.death <= 1.0
    ensures Update(k, c).s >= 0.0
  {
    UpdateSusceptible(k, c);
    MulNonNegative(c.s, 1.0 - k.infection * c.i - k.death);
    MulNonNegative(k.birth, Living(c));
  }

  /** I stays non-negative: it becomes the new infections, a product of non-negatives. */
  lemma InfectedStaysNonNegative(k: Rates, c: Compartments)
    requires k.infection >= 0.0 && c.s >= 0.0 && c.i >= 0.0
    ensures Update(k, c).i >= 0.0
  {
    UpdateInfected(k, c);
    MulNonNegative(k.infection, c.s);
    MulNonNegative(k.infection * c.s, c.i);
  }

  /** R stays non-negative when the two death rates together are at most 1. */
  lemma RecoveredStaysNonNegative(k: Rates, c: Compartments)
    requires c.r >= 0.0 && c.i >= 0.0
    requires k.mortality + k.death <= 1.0
    ensures Update(k, c).r >= 0.0
  {
    UpdateRemoved(k, c);
    MulNonNegative(1.0 - k.mortality - k.death, c.i);
  }

  /** All rates zero. */
  const ZeroRates: Rates := Rates(0.0, 0.0, 0.0, 0.0)

  /**
   * With every rate zero the state is not static: the first step moves all of
   * I into R, and every later step leaves the state as it is.
   */
  lemma {:induction false} ZeroRatesSettle(c: Compartments, n: int)
    requires n >= 1
    ensures Iterate(ZeroRates, c, n) == Compartments(c.s, 0.0, c.r + c.i, c.d)
  {
    if n > 1 {
      ZeroRatesSettle(c, n - 1);
    }
  }

  /** Every compartment multiplied by `factor`. */
  function Scale(c: Compartments, factor: real): (scaled: Compartments) {
    Compartments(c.s * factor, c.i * factor, c.r * factor, c.d * factor)
  }

  /** The compartments held by a vector [S, I, R, D]. */
  function Vector(a: array<real>): (c: Compartments)
    reads a
    requires a.Length == 4
  {
    Compartments(a[0], a[1], a[2], a[3])
  }

  /** The S/I/R/D model object: the stored state, the rates and the step counter. */
  class SEIRModel {
    var initialState: array<real>
    var birthRate: real
    var deathRate: real
    var infectionRate: real
    var mortalityRate: real
    // The very array passed as the initial state: the model never copies it.
    var currentState: array<real>
    var population: real
    var t: int

    ghost predicate Valid()
      reads this
    {
      currentState.Length == 4 && initialState == currentState
    }

    /** The compartments stored in the state array. */
    function State(): (c: Compartments)
      reads this, currentState
      requires Valid()
    {
      Vector(currentState)
    }

    /** The rates `Step` uses. */
    function Parameters(): (k: Rates)
      reads this
    {
      Rates(birthRate, deathRate, infectionRate, mortalityRate)
    }

    constructor (initialState: array<real>, population: real,
                 birthRate: real := GlobalBirthRate,
                 deathRate: real := GlobalDeathRate,
                 infectionRate: real := InfectionRate,
                 mortalityRate: real := MortalityRate)
      requires initialState.Length == 4
      requires population != 0.0
      ensures Valid()
      ensures this.initialState == initialState && this.currentState == initialState
      ensures this.birthRate == birthRate && this.deathRate == deathRate
      ensures this.infectionRate == infectionRate / population
      ensures this.mortalityRate == mortalityRate
      ensures this.population == population && t == 0
      ensures State() == Compartments(initialState[0], initialState[1], initialState[2], initialState[3])
    {
      this.initialState := initialState;
      this.birthRate := birthRate;
      this.deathRate := deathRate;
      this.infectionRate := infectionRate / population;
      this.mortalityRate := mortalityRate;
      this.currentState := initialState;
      this.population := population;
      this.t := 0;
    }

    /**
     * Advances the model by `nsteps` time steps in place and returns the
     * stored state multiplied by the population, as a new array.
     */
    method Step(nsteps: int := 1) returns (scaled: array<real>)
      requires Valid()
      modifies this`t, currentState
      ensures Valid()
      ensures t == old(t) + (if nsteps < 0 then 0 else nsteps)
      ensures State() == Iterate(Parameters(), old(State()), nsteps)
      ensures nsteps <= 0 ==> State() == old(State())
      ensures fresh(scaled) && scaled.Length == 4
      ensures Vector(scaled) == Scale(State(), population)
    {
      var done := 0;
      while done < nsteps
        invariant 0 <= done <= (if nsteps < 0 then 0 else nsteps)
        invariant t == old(t) + done
        invariant State() == Iterate(Parameters(), old(State()), done)
      {
        // s, i, r (and d) are read before any compartment is written.
        var snapshot := State();
        var k := Parameters();
        currentState[0] := currentState[0] + DeltaS(k, snapshot);
        currentState[1] := currentState[1] + DeltaI(k, snapshot);
        currentState[2] := currentState[2] + DeltaR(k, snapshot);
        currentState[3] := currentState[3] + DeltaD(k, snapshot);

        t := t + 1;
        done := done + 1;
      }
      scaled := ScaledState();
    }

    /** The stored state multiplied by the population, as a new array; nothing stored changes. */
    method ScaledState() returns (scaled: array<real>)
      requires Valid()
      ensures fresh(scaled) && scaled.Length == 4
      ensures Vector(scaled) == Scale(State(), population)
    {
      scaled := new real[4];
      scaled[0], scaled[1], scaled[2], scaled[3] :=
        currentState[0] * population, currentState[1] * population,
        currentState[2] * population, currentState[3] * population;
    }
  }

  /** `m.Step(a)` followed by `m.Step(b)` ends where one `m.Step(a + b)` would. */
  method StepsCompose(m: SEIRModel, a: nat, b: nat) returns (scaled: array<real>)
    requires m.Valid()
    modifies m`t, m.currentState
    ensures m.Valid()
    ensures m.t == old(m.t) + a + b
    ensures m.State() == Iterate(m.Parameters(), old(m.State()), a + b)
    ensures fresh(scaled) && scaled.Length == 4
    ensures Vector(scaled) == Scale(m.State(), m.population)
  {
    ghost var start := m.State();
    var _ := m.Step(a);
    scaled := m.Step(b);
    IterateCompose(m.Parameters(), start, a, b);
  }

  /** The default rates of a model of the given population. */
  function DefaultRates(population: real): (k: Rates)
    requires population != 0.0
  {
    Rates(GlobalBirthRate, GlobalDeathRate, InfectionRate / population, MortalityRate)
  }

  /** One step from [999, 1, 0, 0] with the default rates for a population of 1000. */
  lemma DefaultScenarioOneStep()
    ensures Update(DefaultRates(1000.0), Compartments(999.0, 1.0, 0.0, 0.0))
         == Compartments(995.9237645, 2.4975, 0.9872355, 0.7765)
  {
  }

  /**
   * The default rates, a population of 1000 and the state [999, 1, 0, 0]:
   * one step, scaled by the population.
   */
  method DefaultScenario() returns (scaled: Compartments)
    ensures scaled == Compartments(995923.7645, 2497.5, 987.2355, 776.5)
  {
    var initial := new real[4];
    initial[0], initial[1], initial[2], initial[3] := 999.0, 1.0, 0.0, 0.0;
    var model := new SEIRModel(initial, 1000.0);
    assert model.Parameters() == DefaultRates(1000.0);
    assert model.State() == Compartments(999.0, 1.0, 0.0, 0.0);
    DefaultScenarioOneStep();
    var out := model.Step(1);
    assert model.State() == Compartments(995.9237645, 2.4975, 0.9872355, 0.7765);
    scaled := Vector(out);
  }

  /**
   * Every rate zero, a population of 1 and the state [0.99, 0.01, 0, 0]:
   * any positive number of steps leaves [0.99, 0, 0.01, 0], not the starting
   * state.
   */
  method ZeroRatesScenario(steps: int) returns (scaled: Compartments)
    requires steps >= 1
    ensures scaled == Compartments(0.99, 0.0, 0.01, 0.0)
  {
    var initial := new real[4];
    initial[0], initial[1], initial[2], initial[3] := 0.99, 0.01, 0.0, 0.0;
    var model := new SEIRModel(initial, 1.0, 0.0, 0.0, 0.0, 0.0);
    assert model.Parameters() == ZeroRates;
    assert model.State() == Compartments(0.99, 0.01, 0.0, 0.0);
    var out := model.Step(steps);
    assert model.State() == Iterate(ZeroRates, Compartments(0.99, 0.01, 0.0, 0.0), steps);
    ZeroRatesSettle(Compartments(0.99, 0.01, 0.0, 0.0), steps);
    scaled := Vector(out);
  }
}
