/**
 * The weight-management episode of WeightLossModule: an inactive person may start an
 * episode; in its first year an adherent person loses weight along a straight line; in
 * years one to five an adherent person without long-term success regains it; after year
 * five the episode is cleared, or kept for good when the loss lasted.
 *
 * Weights are `real`s. `Utilities.convertTime("years", n)` is `n * cfg.year`.
 */
module WeightLoss {
  import opened Agent

  const ActiveWeightManagement := "active_weight_management"
  const PreManagementWeight := "pre_management_weight"
  const WeightManagementStart := "weight_management_start"
  const WeightLossPercentage := "weight_loss_percentage"
  const LongTermWeightLoss := "long_term_weight_loss"
  const WeightLossAdherence := "weight_loss_adherence"

  /** The six attributes an episode writes and `StopWeightManagement` removes. */
  const ManagementKeys: set<string> :=
    {ActiveWeightManagement, PreManagementWeight, WeightManagementStart,
     WeightLossPercentage, LongTermWeightLoss, WeightLossAdherence}

  /** The age in months a child who has become an adult regresses towards. */
  const TransitionAgeInMonths := 240

  /** The BMI threshold left in place when no growth chart applies (under two years). */
  const UnreachableBmi := 500.0

  /** The biometrics configuration, and the length of one year in simulation time. */
  datatype Config = Config(
    year: Positive,
    managementStartAge: int,
    startWeightManagementProb: real,
    adherence: real,
    startBmi: real,
    startPercentile: real,
    minLoss: real,
    maxLoss: real,
    maintenance: real,
    minWeightPercentile: real)

  /** The values used when the biometrics configuration sets none. */
  function Defaults(year: Positive): Config {
    Config(year, 5, 0.493, 0.605, 30.0, 0.85, 0.07, 0.1, 0.2, 0.6)
  }

  /** With the default configuration an adherent person is given a loss of 7 to 10 percent. */
  lemma DefaultLossRange(b: Body, time: int, year: Positive, d: Draws)
    requires Weight in b.vitals && d.adherence <= 0.605
    ensures var r := Started(b, time, Defaults(year), d);
      r.Ok? && WeightLossPercentage in r.value && r.value[WeightLossPercentage].RealVal?
      && 0.07 <= r.value[WeightLossPercentage].r <= 0.1
  {
  }

  /**
   * What the module asks of code outside it: the person's age in years and in months at
   * a time, the growth-chart lookup (metric, gender, age in months, percentile) and the
   * BMI formula (height, weight).
   */
  datatype Env = Env(
    ageInYears: int -> int,
    ageInMonths: int -> int,
    growthChart: (string, Option<string>, int, real) -> real,
    bmi: (real, real) -> real)

  /** The draws one tick may consume, in the order `process` and `startWeightManagement` take them. */
  datatype Draws = Draws(start: Draw, adherence: Draw, loss: Draw, maintenance: Draw)

  predicate HasValue(a: map<string, Value>, key: string, x: Value) {
    key in a && a[key] == x
  }

  /** `a` and `a'` agree on every key outside `keys`. */
  predicate SameOutside(a: map<string, Value>, a': map<string, Value>, keys: set<string>) {
    && (forall k :: k !in keys && k in a ==> k in a' && a'[k] == a[k])
    && (forall k :: k !in keys && k in a' ==> k in a)
  }

  lemma KeysDistinct()
    ensures |ManagementKeys| == 6
    ensures Gender !in ManagementKeys
  {
    assert PreManagementWeight[0] == 'p' && LongTermWeightLoss[0] == 'l' && WeightLossAdherence[0] == 'w';
    assert WeightLossPercentage[7] == 'l' && WeightManagementStart[7] == 'm';
  }

  // ---------------------------------------------------------------------------------
  // Phases

  /** `firstYearOfManagement`: at most one year has passed since the start. */
  function FirstYearOfManagement(a: map<string, Value>, time: int, year: Positive): (r: Result<bool>)
    ensures r.Ok? <==> GetTime(a, WeightManagementStart).Ok?
    ensures r.Ok? ==> (r.value <==> time - a[WeightManagementStart].t <= year)
    ensures r.Ok? && r.value ==> FirstFiveYearsOfManagement(a, time, year) == Ok(true)
  {
    var start :- GetTime(a, WeightManagementStart);
    Ok(start >= time - year)
  }

  /** `firstFiveYearsOfManagement`: at most five years have passed since the start. */
  function FirstFiveYearsOfManagement(a: map<string, Value>, time: int, year: Positive): (r: Result<bool>)
    ensures r.Ok? <==> GetTime(a, WeightManagementStart).Ok?
    ensures r.Ok? ==> (r.value <==> time - a[WeightManagementStart].t <= 5 * year)
  {
    var start :- GetTime(a, WeightManagementStart);
    Ok(start >= time - 5 * year)
  }

  // ---------------------------------------------------------------------------------
  // Weight curves

  lemma DivideMonotone(x: real, y: real, d: real)
    requires x <= y && d > 0.0
    ensures x / d <= y / d
  {
    assert y / d - x / d == (y - x) / d;
  }

  /** The loss-year weight once a fraction `f` of the year has elapsed. */
  function LossAt(startWeight: real, lossPercent: real, f: real): (w: real)
    ensures f == 0.0 ==> w == startWeight
    ensures f == 1.0 ==> w == startWeight * (1.0 - lossPercent)
  {
    startWeight - startWeight * lossPercent * f
  }

  lemma LossAtNonIncreasing(startWeight: real, lossPercent: real, f1: real, f2: real)
    requires startWeight >= 0.0 && lossPercent >= 0.0 && f1 <= f2
    ensures LossAt(startWeight, lossPercent, f2) <= LossAt(startWeight, lossPercent, f1)
  {
    var drop := startWeight * lossPercent;
    NonNegativeProduct(startWeight, lossPercent);
    NonNegativeProduct(drop, f2 - f1);
    assert drop * (f2 - f1) == drop * f2 - drop * f1;
  }

  /** Fraction of the loss year elapsed at `time`. */
  function YearFraction(start: int, time: int, year: Positive): (f: real)
    ensures time == start ==> f == 0.0
    ensures time == start + year ==> f == 1.0
  {
    DivideSelf(year as real);
    (time - start) as real / year as real
  }

  /** Weight in the loss year: a straight line from `startWeight` down by `lossPercent`. */
  function LossCurve(start: int, time: int, year: Positive, startWeight: real, lossPercent: real): (w: real)
    ensures time == start ==> w == startWeight
    ensures time == start + year ==> w == startWeight * (1.0 - lossPercent)
  {
    LossAt(startWeight, lossPercent, YearFraction(start, time, year))
  }

  lemma {:induction false} LossCurveNonIncreasing(start: int, t1: int, t2: int, year: Positive, startWeight: real, lossPercent: real)
    requires t1 <= t2 && startWeight >= 0.0 && lossPercent >= 0.0
    ensures LossCurve(start, t2, year, startWeight, lossPercent) <= LossCurve(start, t1, year, startWeight, lossPercent)
  {
    DivideMonotone((t1 - start) as real, (t2 - start) as real, year as real);
    LossAtNonIncreasing(startWeight, lossPercent, YearFraction(start, t1, year), YearFraction(start, t2, year));
  }

  /** Fraction of the four regression years elapsed at `time`. */
  function RegressionElapsed(start: int, time: int, year: Positive): (e: real)
    ensures time == start + year ==> e == 0.0
    ensures time == start + 5 * year ==> e == 1.0
  {
    var span := (4 * year) as real;
    DivideSelf(span);
    (time - start - year) as real / span
  }

  lemma DivideSelf(x: real)
    requires x > 0.0
    ensures x / x == 1.0
  {
  }

  /** The regressing weight once a fraction `e` of the regression years has elapsed. */
  function RegressionAt(startWeight: real, lossPercent: real, e: real): (w: real)
    ensures e == 0.0 ==> w == startWeight * (1.0 - lossPercent)
    ensures e == 1.0 ==> w == startWeight
  {
    var minWeight := startWeight - startWeight * lossPercent;
    startWeight - (startWeight - minWeight) * (1.0 - e)
  }

  lemma RegressionAtNonDecreasing(startWeight: real, lossPercent: real, e1: real, e2: real)
    requires startWeight >= 0.0 && lossPercent >= 0.0 && e1 <= e2
    ensures RegressionAt(startWeight, lossPercent, e1) <= RegressionAt(startWeight, lossPercent, e2)
  {
    var drop := startWeight * lossPercent;
    NonNegativeProduct(startWeight, lossPercent);
    NonNegativeProduct(drop, e2 - e1);
    assert drop * (e2 - e1) == drop * (1.0 - e1) - drop * (1.0 - e2);
  }

  /** Weight in the regression years: a straight line from the loss-year minimum back up. */
  function RegressionCurve(start: int, time: int, year: Positive, startWeight: real, lossPercent: real): (w: real)
    ensures time == start + year ==> w == startWeight * (1.0 - lossPercent)
    ensures time == start + 5 * year ==> w == startWeight
  {
    RegressionAt(startWeight, lossPercent, RegressionElapsed(start, time, year))
  }

  lemma {:induction false} RegressionCurveNonDecreasing(start: int, t1: int, t2: int, year: Positive, startWeight: real, lossPercent: real)
    requires t1 <= t2 && startWeight >= 0.0 && lossPercent >= 0.0
    ensures RegressionCurve(start, t1, year, startWeight, lossPercent) <= RegressionCurve(start, t2, year, startWeight, lossPercent)
  {
    DivideMonotone((t1 - start - year) as real, (t2 - start - year) as real, (4 * year) as real);
    RegressionAtNonDecreasing(startWeight, lossPercent, RegressionElapsed(start, t1, year), RegressionElapsed(start, t2, year));
  }

  /** Between years one and five the regressing weight stays between the minimum and the start weight. */
  lemma {:induction false} RegressionCurveBetween(start: int, time: int, year: Positive, startWeight: real, lossPercent: real)
    requires start + year <= time <= start + 5 * year && startWeight >= 0.0 && lossPercent >= 0.0
    ensures startWeight * (1.0 - lossPercent) <= RegressionCurve(start, time, year, startWeight, lossPercent) <= startWeight
  {
    RegressionCurveNonDecreasing(start, start + year, time, year, startWeight, lossPercent);
    RegressionCurveNonDecreasing(start, time, start + 5 * year, year, startWeight, lossPercent);
  }

  /** The two phases meet: the trajectory has no jump at the end of the loss year. */
  lemma LossMeetsRegression(start: int, year: Positive, startWeight: real, lossPercent: real)
    ensures LossCurve(start, start + year, year, startWeight, lossPercent)
         == RegressionCurve(start, start + year, year, startWeight, lossPercent)
  {
  }

  /** The child's regressing weight once a fraction `e` of the regression years has elapsed. */
  function PercentileAt(regressionWeight: real, lossPercent: real, e: real): (w: real)
    ensures e == 0.0 ==> w == regressionWeight * (1.0 - lossPercent)
    ensures e == 1.0 ==> w == regressionWeight
  {
    regressionWeight - regressionWeight * lossPercent * (1.0 - e)
  }

  /** Weight in the regression years of a child: from the percentile weight less the loss, back up to it. */
  function PercentileCurve(start: int, time: int, year: Positive, regressionWeight: real, lossPercent: real): (w: real)
    ensures time == start + year ==> w == regressionWeight * (1.0 - lossPercent)
    ensures time == start + 5 * year ==> w == regressionWeight
  {
    PercentileAt(regressionWeight, lossPercent, RegressionElapsed(start, time, year))
  }

  /** The pediatric floor: the larger of the computed weight and the floor weight. */
  function PediatricFloor(weight: real, minWeight: real): (w: real)
    ensures w >= weight && w >= minWeight
    ensures w == weight || w == minWeight
  {
    if minWeight > weight then minWeight else weight
  }

  // ---------------------------------------------------------------------------------
  // The weight computations, reading the episode from the attributes

  /** Start, pre-management weight and loss percentage are present with their types. */
  predicate EpisodeReadable(a: map<string, Value>) {
    && GetTime(a, WeightManagementStart).Ok?
    && GetReal(a, PreManagementWeight).Ok?
    && GetReal(a, WeightLossPercentage).Ok?
  }

  /** What `percentileRegression` reads is present with its type. */
  predicate PercentileReadable(b: Body) {
    && GetTime(b.attributes, WeightManagementStart).Ok?
    && GetGender(b.attributes).Ok?
    && WeightPercentile in b.vitals
    && GetReal(b.attributes, WeightLossPercentage).Ok?
  }

  /** `adultWeightLoss`. */
  function AdultWeightLoss(a: map<string, Value>, time: int, year: Positive): (r: Result<real>)
    ensures r.Ok? <==> EpisodeReadable(a)
    ensures r.Ok? ==> r.value == LossCurve(a[WeightManagementStart].t, time, year, a[PreManagementWeight].r, a[WeightLossPercentage].r)
  {
    var start :- GetTime(a, WeightManagementStart);
    var startWeight :- GetReal(a, PreManagementWeight);
    var lossPercent :- GetReal(a, WeightLossPercentage);
    Ok(LossCurve(start, time, year, startWeight, lossPercent))
  }

  /** `adultRegression`. */
  function AdultRegression(a: map<string, Value>, time: int, year: Positive): (r: Result<real>)
    ensures r.Ok? <==> EpisodeReadable(a)
    ensures r.Ok? ==> r.value == RegressionCurve(a[WeightManagementStart].t, time, year, a[PreManagementWeight].r, a[WeightLossPercentage].r)
  {
    var start :- GetTime(a, WeightManagementStart);
    var startWeight :- GetReal(a, PreManagementWeight);
    var lossPercent :- GetReal(a, WeightLossPercentage);
    Ok(RegressionCurve(start, time, year, startWeight, lossPercent))
  }

  /** `percentileRegression`: regress towards the weight at the person's weight percentile at `ageInMonths`. */
  function PercentileRegression(b: Body, time: int, year: Positive, env: Env, ageInMonths: int): (r: Result<real>)
    ensures r.Ok? <==> PercentileReadable(b)
    ensures r.Ok? ==> r.value == PercentileCurve(b.attributes[WeightManagementStart].t, time, year,
      env.growthChart("weight", GetGender(b.attributes).value, ageInMonths, b.vitals[WeightPercentile]),
      b.attributes[WeightLossPercentage].r)
  {
    var a := b.attributes;
    var start :- GetTime(a, WeightManagementStart);
    var gender :- GetGender(a);
    var percentile :- GetVital(b.vitals, WeightPercentile);
    var regressionWeight := env.growthChart("weight", gender, ageInMonths, percentile);
    var lossPercent :- GetReal(a, WeightLossPercentage);
    Ok(PercentileCurve(start, time, year, regressionWeight, lossPercent))
  }

  /** `pediatricRegression`: the percentile weight at the person's current age. */
  function PediatricRegression(b: Body, time: int, year: Positive, env: Env): (r: Result<real>)
    ensures r.Ok? <==> PercentileReadable(b)
    ensures r.Ok? && time == b.attributes[WeightManagementStart].t + 5 * year ==>
      r.value == env.growthChart("weight", GetGender(b.attributes).value, env.ageInMonths(time), b.vitals[WeightPercentile])
  {
    PercentileRegression(b, time, year, env, env.ageInMonths(time))
  }

  /** `transitionRegression`: the percentile weight at 240 months, whatever the age now. */
  function TransitionRegression(b: Body, time: int, year: Positive, env: Env): (r: Result<real>)
    ensures r.Ok? <==> PercentileReadable(b)
    ensures r.Ok? && time == b.attributes[WeightManagementStart].t + 5 * year ==>
      r.value == env.growthChart("weight", GetGender(b.attributes).value, TransitionAgeInMonths, b.vitals[WeightPercentile])
  {
    PercentileRegression(b, time, year, env, TransitionAgeInMonths)
  }

  /** `pediatricWeightLoss`: the adult loss, never below the weight at the floor percentile. */
  function PediatricWeightLoss(b: Body, time: int, cfg: Config, env: Env): (r: Result<real>)
    ensures r.Ok? <==> EpisodeReadable(b.attributes) && GetGender(b.attributes).Ok?
    ensures r.Ok? ==>
      var weight := AdultWeightLoss(b.attributes, time, cfg.year).value;
      var minWeight := env.growthChart("weight", GetGender(b.attributes).value, env.ageInMonths(time), cfg.minWeightPercentile);
      && r.value >= weight && r.value >= minWeight
      && (r.value == weight || r.value == minWeight)
  {
    var weight :- AdultWeightLoss(b.attributes, time, cfg.year);
    var gender :- GetGender(b.attributes);
    var minWeight := env.growthChart("weight", gender, env.ageInMonths(time), cfg.minWeightPercentile);
    Ok(PediatricFloor(weight, minWeight))
  }

  // ---------------------------------------------------------------------------------
  // Starting and stopping an episode

  /** `meetsWeightManagementThresholds`. */
  function MeetsWeightManagementThresholds(b: Body, time: int, cfg: Config, env: Env): (r: Result<bool>)
    ensures var age := env.ageInYears(time);
      r.Ok? <==> Bmi in b.vitals && (2 <= age < 20 ==> GetGender(b.attributes).Ok?)
    ensures r.Ok? && env.ageInYears(time) < cfg.managementStartAge ==> !r.value
    ensures var age := env.ageInYears(time);
      r.Ok? && age >= cfg.managementStartAge && age >= 20 ==> (r.value <==> b.vitals[Bmi] >= cfg.startBmi)
    ensures var age := env.ageInYears(time);
      r.Ok? && age >= cfg.managementStartAge && 2 <= age < 20 ==>
        (r.value <==> b.vitals[Bmi] >= env.growthChart("bmi", GetGender(b.attributes).value, env.ageInMonths(time), cfg.startPercentile))
    ensures var age := env.ageInYears(time);
      r.Ok? && age >= cfg.managementStartAge && age < 2 ==> (r.value <==> b.vitals[Bmi] >= UnreachableBmi)
  {
    var age := env.ageInYears(time);
    var bmi :- GetVital(b.vitals, Bmi);
    var bmiAtPercentile :-
      if 2 <= age < 20 then
        var gender :- GetGender(b.attributes);
        Ok(env.growthChart("bmi", gender, env.ageInMonths(time), cfg.startPercentile))
      else Ok(UnreachableBmi);
    Ok(age >= cfg.managementStartAge && ((bmi >= cfg.startBmi && age >= 20) || (age < 20 && bmi >= bmiAtPercentile)))
  }

  /** `willStartWeightManagement`: the thresholds, then the start draw. */
  function WillStartWeightManagement(b: Body, time: int, cfg: Config, env: Env, draw: Draw): (r: Result<bool>)
    ensures r.Ok? <==> MeetsWeightManagementThresholds(b, time, cfg, env).Ok?
    ensures r.Ok? && !MeetsWeightManagementThresholds(b, time, cfg, env).value ==> !r.value
    ensures r.Ok? && MeetsWeightManagementThresholds(b, time, cfg, env).value ==> (r.value <==> draw <= cfg.startWeightManagementProb)
  {
    var meets :- MeetsWeightManagementThresholds(b, time, cfg, env);
    if meets then Ok(draw <= cfg.startWeightManagementProb) else Ok(false)
  }

  /** The attributes after `startWeightManagement`. */
  function Started(b: Body, time: int, cfg: Config, d: Draws): (r: Result<map<string, Value>>)
    ensures r.Ok? <==> Weight in b.vitals
    ensures r.Ok? ==> HasValue(r.value, ActiveWeightManagement, BoolVal(true))
    ensures r.Ok? ==> HasValue(r.value, PreManagementWeight, RealVal(b.vitals[Weight]))
    ensures r.Ok? ==> HasValue(r.value, WeightManagementStart, TimeVal(time))
    ensures r.Ok? ==> HasValue(r.value, WeightLossAdherence, BoolVal(d.adherence <= cfg.adherence))
    ensures r.Ok? && d.adherence <= cfg.adherence ==>
      && HasValue(r.value, WeightLossPercentage, RealVal(RandRange(cfg.minLoss, cfg.maxLoss, d.loss)))
      && (cfg.minLoss <= cfg.maxLoss ==> cfg.minLoss <= r.value[WeightLossPercentage].r <= cfg.maxLoss)
      && HasValue(r.value, LongTermWeightLoss, BoolVal(d.maintenance <= cfg.maintenance))
    ensures r.Ok? && !(d.adherence <= cfg.adherence) ==>
      && HasValue(r.value, LongTermWeightLoss, BoolVal(false))
      && (WeightLossPercentage in r.value <==> WeightLossPercentage in b.attributes)
      && (WeightLossPercentage in b.attributes ==> r.value[WeightLossPercentage] == b.attributes[WeightLossPercentage])
    ensures r.Ok? ==> SameOutside(b.attributes, r.value, ManagementKeys)
  {
    KeysDistinct();
    var startWeight :- GetVital(b.vitals, Weight);
    var stickToPlan := d.adherence <= cfg.adherence;
    var a := b.attributes[ActiveWeightManagement := BoolVal(true)]
                         [PreManagementWeight := RealVal(startWeight)]
                         [WeightManagementStart := TimeVal(time)]
                         [WeightLossAdherence := BoolVal(stickToPlan)];
    if stickToPlan then
      Ok(a[WeightLossPercentage := RealVal(RandRange(cfg.minLoss, cfg.maxLoss, d.loss))]
          [LongTermWeightLoss := BoolVal(d.maintenance <= cfg.maintenance)])
    else
      Ok(a[LongTermWeightLoss := BoolVal(false)])
  }

  /** The attributes after `stopWeightManagement`. */
  function Stopped(a: map<string, Value>): (r: map<string, Value>)
    ensures r.Keys !! ManagementKeys
    ensures SameOutside(a, r, ManagementKeys)
  {
    a - ManagementKeys
  }

  // ---------------------------------------------------------------------------------
  // One tick

  /** Store a new weight and the BMI it gives with the current height. */
  function WithWeight(b: Body, weight: real, env: Env): (r: Result<Body>)
    ensures r.Ok? <==> Height in b.vitals
    ensures r.Ok? ==>
      && r.value.attributes == b.attributes
      && r.value.vitals.Keys == b.vitals.Keys + {Weight, Bmi}
      && r.value.vitals[Weight] == weight
      && r.value.vitals[Bmi] == env.bmi(b.vitals[Height], weight)
      && forall s :: s in b.vitals && s != Weight && s != Bmi ==> r.value.vitals[s] == b.vitals[s]
  {
    var height :- GetVital(b.vitals, Height);
    Ok(Body(b.attributes, b.vitals[Weight := weight][Bmi := env.bmi(height, weight)]))
  }

  /** The regressing weight: pediatric, transition (a child at the start) or adult. */
  function RegressionWeight(b: Body, time: int, cfg: Config, env: Env): (r: Result<real>)
    ensures env.ageInYears(time) >= 20 && GetTime(b.attributes, WeightManagementStart).Err? ==>
      r == Err(GetTime(b.attributes, WeightManagementStart).fault)
    ensures r.Ok? ==> GetTime(b.attributes, WeightManagementStart).Ok?
    ensures r.Ok? && time == b.attributes[WeightManagementStart].t + 5 * cfg.year ==>
      var ageInMonths := if env.ageInYears(time) < 20 then env.ageInMonths(time) else TransitionAgeInMonths;
      if env.ageInYears(time) >= 20 && env.ageInYears(b.attributes[WeightManagementStart].t) >= 20
      then EpisodeReadable(b.attributes) && r.value == b.attributes[PreManagementWeight].r
      else (PercentileReadable(b)
            && r.value == env.growthChart("weight", GetGender(b.attributes).value, ageInMonths, b.vitals[WeightPercentile]))
  {
    if env.ageInYears(time) < 20 then PediatricRegression(b, time, cfg.year, env)
    else
      var start :- GetTime(b.attributes, WeightManagementStart);
      if env.ageInYears(start) < 20 then TransitionRegression(b, time, cfg.year, env)
      else AdultRegression(b.attributes, time, cfg.year)
  }

  /** What `process` does to the person at `time`: only the episode's attributes, weight and BMI change. */
  function Tick(b: Body, time: int, cfg: Config, env: Env, d: Draws): (r: Result<Body>)
    ensures r.Ok? ==> SameOutside(b.attributes, r.value.attributes, ManagementKeys)
    ensures r.Ok? ==> forall s :: s != Weight && s != Bmi ==>
      (s in r.value.vitals <==> s in b.vitals) && (s in b.vitals ==> r.value.vitals[s] == b.vitals[s])
  {
    var a := b.attributes;
    var active :- if ActiveWeightManagement in a then GetBool(a, ActiveWeightManagement) else Ok(false);
    if active then
      var followsPlan :- GetBool(a, WeightLossAdherence);
      var longTermSuccess :- GetBool(a, LongTermWeightLoss);
      var firstYear :- FirstYearOfManagement(a, time, cfg.year);
      if firstYear then
        if followsPlan then
          var weight :-
            if env.ageInYears(time) < 20 then PediatricWeightLoss(b, time, cfg, env)
            else AdultWeightLoss(a, time, cfg.year);
          WithWeight(b, weight, env)
        else Ok(b)
      else
        var firstFive := FirstFiveYearsOfManagement(a, time, cfg.year).Extract();
        if firstFive then
          if followsPlan && !longTermSuccess then
            var weight :- RegressionWeight(b, time, cfg, env);
            WithWeight(b, weight, env)
          else Ok(b)
        else if !longTermSuccess then Ok(Body(Stopped(a), b.vitals))
        else Ok(b)
    else
      var willStart :- WillStartWeightManagement(b, time, cfg, env, d.start);
      if willStart then
        var started :- Started(b, time, cfg, d);
        Ok(Body(started, b.vitals))
      else Ok(b)
  }

  // ---------------------------------------------------------------------------------
  // What one tick keeps and computes

  /** No management attribute is present. */
  predicate Inactive(a: map<string, Value>) {
    a.Keys !! ManagementKeys
  }

  /**
   * An episode as `startWeightManagement` leaves it: every attribute with its type, the
   * loss percentage present exactly when the person adheres, no long-term success without
   * adherence.
   */
  predicate ActiveEpisode(a: map<string, Value>) {
    && HasValue(a, ActiveWeightManagement, BoolVal(true))
    && GetTime(a, WeightManagementStart).Ok?
    && GetReal(a, PreManagementWeight).Ok?
    && GetBool(a, WeightLossAdherence).Ok?
    && GetBool(a, LongTermWeightLoss).Ok?
    && (WeightLossPercentage in a <==> a[WeightLossAdherence].b)
    && (WeightLossPercentage in a ==> a[WeightLossPercentage].RealVal?)
    && (!a[WeightLossAdherence].b ==> !a[LongTermWeightLoss].b)
  }

  predicate EpisodeWellFormed(a: map<string, Value>) {
    Inactive(a) || ActiveEpisode(a)
  }

  predicate VitalsPresent(v: map<VitalSign, real>) {
    Weight in v && Height in v && Bmi in v && WeightPercentile in v
  }

  /** On a well-formed episode with its vital signs recorded, no read of `process` fails. */
  lemma TickTotal(b: Body, time: int, cfg: Config, env: Env, d: Draws)
    requires EpisodeWellFormed(b.attributes) && GetGender(b.attributes).Ok? && VitalsPresent(b.vitals)
    ensures Tick(b, time, cfg, env, d).Ok?
  {
    KeysDistinct();
  }

  /** A tick keeps the episode well formed and never touches the gender. */
  lemma TickPreservesEpisode(b: Body, time: int, cfg: Config, env: Env, d: Draws)
    requires EpisodeWellFormed(b.attributes)
    ensures var t := Tick(b, time, cfg, env, d);
      t.Ok? ==> EpisodeWellFormed(t.value.attributes) && GetGender(t.value.attributes) == GetGender(b.attributes)
  {
    KeysDistinct();
    var a := b.attributes;
    var t := Tick(b, time, cfg, env, d);
    if t.Ok? && !HasValue(a, ActiveWeightManagement, BoolVal(true)) {
      assert ActiveWeightManagement !in a;
      if t.value != b {
        var s := Started(b, time, cfg, d);
        assert t.value.attributes == s.value;
        assert ActiveEpisode(s.value);
      }
    }
  }

  /** Only an active, adherent person has weight or BMI written. */
  lemma VitalsNeedAdherence(b: Body, time: int, cfg: Config, env: Env, d: Draws)
    ensures var t := Tick(b, time, cfg, env, d);
      t.Ok? && t.value.vitals != b.vitals ==>
        HasValue(b.attributes, ActiveWeightManagement, BoolVal(true)) && HasValue(b.attributes, WeightLossAdherence, BoolVal(true))
  {
  }

  /** While active, a tick changes no attribute, except that it clears the episode after five years without long-term success. */
  lemma ActiveTickAttributes(b: Body, time: int, cfg: Config, env: Env, d: Draws)
    requires HasValue(b.attributes, ActiveWeightManagement, BoolVal(true))
    ensures var t := Tick(b, time, cfg, env, d);
      t.Ok? ==>
        || t.value.attributes == b.attributes
        || (&& t.value.attributes == Stopped(b.attributes)
            && time - b.attributes[WeightManagementStart].t > 5 * cfg.year
            && b.attributes[LongTermWeightLoss] == BoolVal(false))
  {
  }

  /** After five years the episode is cleared exactly when the loss did not last; nothing else changes. */
  lemma AfterFiveYears(b: Body, time: int, cfg: Config, env: Env, d: Draws)
    requires ActiveEpisode(b.attributes)
    requires time - b.attributes[WeightManagementStart].t > 5 * cfg.year
    ensures Tick(b, time, cfg, env, d)
         == Ok(if b.attributes[LongTermWeightLoss].b then b else Body(Stopped(b.attributes), b.vitals))
  {
  }

  /** A person who does not adhere keeps the weight and BMI throughout, and the episode clears after year five. */
  lemma NonAdherentEpisode(b: Body, time: int, cfg: Config, env: Env, d: Draws)
    requires ActiveEpisode(b.attributes) && b.attributes[WeightLossAdherence] == BoolVal(false)
    ensures var t := Tick(b, time, cfg, env, d);
      && t.Ok?
      && t.value.vitals == b.vitals
      && t.value.attributes == if time - b.attributes[WeightManagementStart].t > 5 * cfg.year then Stopped(b.attributes) else b.attributes
  {
  }

  /** The weight an active, adherent adult is given at `time` in the loss year. */
  lemma AdultLossWeight(b: Body, time: int, cfg: Config, env: Env, d: Draws)
    requires ActiveEpisode(b.attributes) && b.attributes[WeightLossAdherence] == BoolVal(true)
    requires time - b.attributes[WeightManagementStart].t <= cfg.year && env.ageInYears(time) >= 20
    requires Height in b.vitals
    ensures var a := b.attributes; var t := Tick(b, time, cfg, env, d);
      && t.Ok? && Weight in t.value.vitals && Bmi in t.value.vitals
      && t.value.vitals[Weight] == LossCurve(a[WeightManagementStart].t, time, cfg.year, a[PreManagementWeight].r, a[WeightLossPercentage].r)
      && t.value.vitals[Bmi] == env.bmi(b.vitals[Height], t.value.vitals[Weight])
  {
  }

  /** One year after the start an adherent adult weighs the pre-management weight less the loss. */
  lemma AdultLossYearEnd(b: Body, time: int, cfg: Config, env: Env, d: Draws)
    requires ActiveEpisode(b.attributes) && b.attributes[WeightLossAdherence] == BoolVal(true)
    requires time == b.attributes[WeightManagementStart].t + cfg.year && env.ageInYears(time) >= 20
    requires Height in b.vitals
    ensures var a := b.attributes; var t := Tick(b, time, cfg, env, d);
      t.Ok? && Weight in t.value.vitals && t.value.vitals[Weight] == a[PreManagementWeight].r * (1.0 - a[WeightLossPercentage].r)
  {
    AdultLossWeight(b, time, cfg, env, d);
  }

  /** In the loss year a later tick never gives an adult a higher weight. */
  lemma AdultLossMonotone(b: Body, t1: int, t2: int, cfg: Config, env: Env, d: Draws)
    requires ActiveEpisode(b.attributes) && b.attributes[WeightLossAdherence] == BoolVal(true)
    requires b.attributes[PreManagementWeight].r >= 0.0 && b.attributes[WeightLossPercentage].r >= 0.0
    requires t1 <= t2 && t2 - b.attributes[WeightManagementStart].t <= cfg.year
    requires env.ageInYears(t1) >= 20 && env.ageInYears(t2) >= 20 && Height in b.vitals
    ensures var w1 := Tick(b, t1, cfg, env, d); var w2 := Tick(b, t2, cfg, env, d);
      && w1.Ok? && w2.Ok? && Weight in w1.value.vitals && Weight in w2.value.vitals
      && w2.value.vitals[Weight] <= w1.value.vitals[Weight]
  {
    var a := b.attributes;
    AdultLossWeight(b, t1, cfg, env, d);
    AdultLossWeight(b, t2, cfg, env, d);
    LossCurveNonIncreasing(a[WeightManagementStart].t, t1, t2, cfg.year, a[PreManagementWeight].r, a[WeightLossPercentage].r);
  }

  /** Five years after the start an adult episode without long-term success is back at the pre-management weight. */
  lemma AdultRegressionEnd(b: Body, time: int, cfg: Config, env: Env, d: Draws)
    requires ActiveEpisode(b.attributes) && b.attributes[WeightLossAdherence] == BoolVal(true)
    requires b.attributes[LongTermWeightLoss] == BoolVal(false)
    requires time == b.attributes[WeightManagementStart].t + 5 * cfg.year
    requires env.ageInYears(time) >= 20 && env.ageInYears(b.attributes[WeightManagementStart].t) >= 20
    requires Height in b.vitals
    ensures var t := Tick(b, time, cfg, env, d);
      t.Ok? && Weight in t.value.vitals && t.value.vitals[Weight] == b.attributes[PreManagementWeight].r
  {
  }

  /** In the loss year a child's new weight is never below the floor percentile's weight. */
  lemma PediatricLossFloor(b: Body, time: int, cfg: Config, env: Env, d: Draws)
    requires ActiveEpisode(b.attributes) && b.attributes[WeightLossAdherence] == BoolVal(true)
    requires time - b.attributes[WeightManagementStart].t <= cfg.year && env.ageInYears(time) < 20
    requires Height in b.vitals && GetGender(b.attributes).Ok?
    ensures var t := Tick(b, time, cfg, env, d);
      && t.Ok? && Weight in t.value.vitals
      && t.value.vitals[Weight] >= env.growthChart("weight", GetGender(b.attributes).value, env.ageInMonths(time), cfg.minWeightPercentile)
  {
  }

  /** In the loss year a child whose loss-curve weight is above the floor gets the loss-curve weight, like an adult. */
  lemma PediatricLossAboveFloor(b: Body, time: int, cfg: Config, env: Env, d: Draws)
    requires ActiveEpisode(b.attributes) && b.attributes[WeightLossAdherence] == BoolVal(true)
    requires time - b.attributes[WeightManagementStart].t <= cfg.year && env.ageInYears(time) < 20
    requires Height in b.vitals && GetGender(b.attributes).Ok?
    ensures var a := b.attributes; var t := Tick(b, time, cfg, env, d);
      var curve := LossCurve(a[WeightManagementStart].t, time, cfg.year, a[PreManagementWeight].r, a[WeightLossPercentage].r);
      curve >= env.growthChart("weight", GetGender(a).value, env.ageInMonths(time), cfg.minWeightPercentile) ==>
        t.Ok? && Weight in t.value.vitals && t.value.vitals[Weight] == curve
  {
  }

  /** An inactive adult at or over the start BMI, with a start probability of one, starts an episode at `time`. */
  lemma AdultStarts(b: Body, time: int, cfg: Config, env: Env, d: Draws)
    requires Inactive(b.attributes) && Weight in b.vitals && Bmi in b.vitals
    requires env.ageInYears(time) >= 20 && env.ageInYears(time) >= cfg.managementStartAge
    requires b.vitals[Bmi] >= cfg.startBmi && cfg.startWeightManagementProb >= 1.0
    ensures var t := Tick(b, time, cfg, env, d);
      && t.Ok? && t.value.vitals == b.vitals
      && HasValue(t.value.attributes, ActiveWeightManagement, BoolVal(true))
      && HasValue(t.value.attributes, PreManagementWeight, RealVal(b.vitals[Weight]))
      && HasValue(t.value.attributes, WeightManagementStart, TimeVal(time))
  {
    KeysDistinct();
  }

  // ---------------------------------------------------------------------------------
  // The module's operations on a person

  method StopWeightManagement(p: Person)
    modifies p`attributes
    ensures p.attributes == Stopped(old(p.attributes))
  {
    p.RemoveAttribute(WeightManagementStart);
    p.RemoveAttribute(WeightLossPercentage);
    p.RemoveAttribute(WeightLossAdherence);
    p.RemoveAttribute(PreManagementWeight);
    p.RemoveAttribute(ActiveWeightManagement);
    p.RemoveAttribute(LongTermWeightLoss);
  }

  method StartWeightManagement(p: Person, time: int, cfg: Config, d: Draws) returns (r: Result<()>)
    modifies p`attributes
    ensures var s := Started(old(p.Snapshot()), time, cfg, d);
      && (r.Ok? <==> s.Ok?)
      && (r.Ok? ==> p.attributes == s.value)
      && (r.Err? ==> r.fault == s.fault && p.attributes == old(p.attributes))
  {
    var startWeight :- GetVital(p.vitals, Weight);
    p.PutAttribute(ActiveWeightManagement, BoolVal(true));
    p.PutAttribute(PreManagementWeight, RealVal(startWeight));
    p.PutAttribute(WeightManagementStart, TimeVal(time));
    var stickToPlan := d.adherence <= cfg.adherence;
    p.PutAttribute(WeightLossAdherence, BoolVal(stickToPlan));
    if stickToPlan {
      var percentWeightLoss := RandRange(cfg.minLoss, cfg.maxLoss, d.loss);
      p.PutAttribute(WeightLossPercentage, RealVal(percentWeightLoss));
      var longTermSuccess := d.maintenance <= cfg.maintenance;
      p.PutAttribute(LongTermWeightLoss, BoolVal(longTermSuccess));
    } else {
      p.PutAttribute(LongTermWeightLoss, BoolVal(false));
    }
    r := Ok(());
  }

  /** `process`: never completes; a failed read leaves the person as it was. */
  method Process(p: Person, time: int, cfg: Config, env: Env, d: Draws) returns (r: Result<bool>)
    modifies p`attributes, p`vitals
    ensures var t := Tick(old(p.Snapshot()), time, cfg, env, d);
      && (r.Ok? <==> t.Ok?)
      && (r.Ok? ==> r.value == false && p.Snapshot() == t.value)
      && (r.Err? ==> r.fault == t.fault && p.Snapshot() == old(p.Snapshot()))
  {
    var a := p.attributes;
    var active := false;
    if ActiveWeightManagement in a {
      active :- GetBool(a, ActiveWeightManagement);
    }
    if active {
      var followsPlan :- GetBool(a, WeightLossAdherence);
      var longTermSuccess :- GetBool(a, LongTermWeightLoss);
      var firstYear :- FirstYearOfManagement(a, time, cfg.year);
      if firstYear {
        if followsPlan {
          var weight: real;
          if env.ageInYears(time) < 20 {
            weight :- PediatricWeightLoss(p.Snapshot(), time, cfg, env);
          } else {
            weight :- AdultWeightLoss(a, time, cfg.year);
          }
          var height :- GetVital(p.vitals, Height);
          p.SetVitalSign(Weight, weight);
          p.SetVitalSign(Bmi, env.bmi(height, weight));
        }
      } else {
        var firstFive := FirstFiveYearsOfManagement(a, time, cfg.year).Extract();
        if firstFive {
          if followsPlan {
            if !longTermSuccess {
              var weight: real;
              if env.ageInYears(time) < 20 {
                weight :- PediatricRegression(p.Snapshot(), time, cfg.year, env);
              } else {
                var start := GetTime(a, WeightManagementStart).Extract();
                if env.ageInYears(start) < 20 {
                  weight :- TransitionRegression(p.Snapshot(), time, cfg.year, env);
                } else {
                  weight :- AdultRegression(a, time, cfg.year);
                }
              }
              var height :- GetVital(p.vitals, Height);
              p.SetVitalSign(Weight, weight);
              p.SetVitalSign(Bmi, env.bmi(height, weight));
            }
          }
        } else if !longTermSuccess {
          StopWeightManagement(p);
        }
      }
    } else {
      var willStart :- WillStartWeightManagement(p.Snapshot(), time, cfg, env, d.start);
      if willStart {
        var started := StartWeightManagement(p, time, cfg, d);
        if started.Err? {
          return Err(started.fault);
        }
      }
    }
    r := Ok(false);
  }
}
