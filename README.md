# Synthea weight loss and health insurance, modelled in Dafny

This project models two of Synthea's per-person modules. The simulator calls each one at every time step.

- **WeightLossModule** handles a weight-management episode. An inactive person who meets the age and BMI thresholds may start an episode. Starting writes five attributes. A person who adheres to the plan also gets a sixth, the loss percentage.
  - In the first year, an adherent person's weight falls along a straight line.
  - From year one to year five, an adherent person without long-term success regains the weight. Children, and adults who started as children, regain towards a growth-chart weight.
  - After year five the episode is cleared, unless the loss lasted.
- **HealthInsuranceModule** handles the yearly insurance decision. When no payer covers the person at the current time, the module:
  - credits last year's quality of life to the last payer;
  - picks a primary payer by a first-match cascade: Dual Eligible, then Medicare, then Medicaid, then keeping the payer at time, then `findPayer`;
  - lets a Medicare customer buy a supplement;
  - records both payers and counts them as customers;
  - stores the insurance status.

  Every living person then has the monthly premium checked.

Files:

- `agent.dfy` (module `Agent`) holds the shared pieces:
  - the attribute values and vital signs;
  - `Result`, for the Java runtime exceptions a module can raise;
  - the `Person` class, whose methods change its attribute map, vital signs, coverage history and premium checks;
  - the `PayerBook` class, with the payers' customer counts and quality-of-life totals.
- `weight_loss.dfy` (module `WeightLoss`):
  - pure functions for the phases, the weight curves, the thresholds and the start and stop of an episode;
  - `Tick`, the specification of one call of `process`, with lemmas about it;
  - the methods `StartWeightManagement`, `StopWeightManagement` and `Process`. These change a `Person` and are proved equal to the functions.
- `health_insurance.dfy` (module `HealthInsurance`):
  - the cascade as a function, and proof that it is a first-match reading of a priority list;
  - the secondary payer, the status derivation and the counter updates;
  - `Decide`, with lemmas about it;
  - the method `Process`, over a `Person` and a `PayerBook`.

How the model represents the Java code:

- A Java exception becomes an `Err` result:
  - a missing Boolean, Double or Long attribute unboxed;
  - a value of the wrong class cast;
  - a missing vital sign;
  - a null Dual Eligible payer dereferenced.
- In `WeightLossModule.process` every read happens before any write. So an `Err` leaves the person unchanged, and `Process` ensures it.
- Weights are `real`s. `Utilities.convertTime("years", n)` is `n * year`, for a positive `year`.
- `Person.rand(low, high)` is `low + (high - low) * u`, for a draw `u` in [0, 1).
- The random draws are parameters, and so is everything outside the two modules:
  - ages;
  - the growth chart and the BMI formula;
  - the payers' `accepts` and `meetsBasicRequirements`;
  - `findPayer`;
  - the coverage record's answers;
  - `getYear` and `getQolsForYear`.

Behaviour of the code that is easy to misread:

- A person who does not adhere never has `weight_loss_percentage` written. So the loss percentage is present exactly when the person adheres, not exactly when the episode is active. `ActiveEpisode` states this, and `TickPreservesEpisode` proves that a tick preserves it.
- `determineInsurance` asks for the payer at time again. `process` only calls it after that same question returned null. So on the `process` path the "keep the previous payer" branch fires only if the coverage record answers differently the second time. The model keeps both answers as separate inputs, and `ProcessPathNeverKeeps` states the consequence.
- The status "medicaid" tests the payer's name against the literal "Medicaid", not against the configured Medicaid name. `ConfiguredMedicaidNameIgnored` shows a Medicaid payer configured under another name getting the status "medicare".

## Model

| member | source | states |
|---|---|---|
| Agent.GetBool | src/main/java/org/mitre/synthea/modules/WeightLossModule.java:54-55 | a Boolean attribute is read; a missing one fails as a missing attribute, one of another class as a wrong type |
| Agent.GetReal | src/main/java/org/mitre/synthea/modules/WeightLossModule.java:149-150 | a Double attribute is read; a missing one fails as a missing attribute, one of another class as a wrong type |
| Agent.GetTime | src/main/java/org/mitre/synthea/modules/WeightLossModule.java:127 | a Long attribute is read; a missing one fails as a missing attribute, one of another class as a wrong type |
| Agent.GetGender | src/main/java/org/mitre/synthea/modules/WeightLossModule.java:189 | an absent gender reads as null; a string reads as itself; any other class fails as a wrong type |
| Agent.GetVital | src/main/java/org/mitre/synthea/modules/WeightLossModule.java:67 | a vital sign is read when recorded; otherwise the read fails naming the sign |
| Agent.RandRange | src/main/java/org/mitre/synthea/modules/WeightLossModule.java:226 | a draw of `rand(low, high)` lies between the bounds whenever `low <= high` |
| Agent.Scale | src/main/java/org/mitre/synthea/modules/WeightLossModule.java:226 | a fraction in [0, 1) of a non-negative spread lies between 0 and the spread |
| Agent.ScaleBounds | src/main/java/org/mitre/synthea/modules/WeightLossModule.java:226 | a fraction in [0, 1] of a non-negative spread lies between 0 and the spread |
| Agent.Person.PutAttribute | src/main/java/org/mitre/synthea/modules/WeightLossModule.java:220-231 | the attribute map afterwards is the old one with the key set to the value |
| Agent.Person.RemoveAttribute | src/main/java/org/mitre/synthea/modules/WeightLossModule.java:114-119 | the attribute map afterwards is the old one without the key |
| Agent.Person.SetVitalSign | src/main/java/org/mitre/synthea/modules/WeightLossModule.java:68-69 | the vital signs afterwards are the old ones with the sign set to the value |
| Agent.Person.SetPayerAtTime | src/main/java/org/mitre/synthea/modules/HealthInsuranceModule.java:76 | the coverage history gains one record of the time, the primary and the secondary |
| Agent.Person.CheckToPayMonthlyPremium | src/main/java/org/mitre/synthea/modules/HealthInsuranceModule.java:100 | one premium check at the given time is appended |
| Agent.PayerBook.IncrementCustomers | src/main/java/org/mitre/synthea/modules/HealthInsuranceModule.java:79-81 | the payer's customer count rises by one; other payers' counts do not change |
| Agent.PayerBook.AddQols | src/main/java/org/mitre/synthea/modules/HealthInsuranceModule.java:63 | the payer's quality-of-life total rises by the amount; other totals do not change |
| WeightLoss.DefaultLossRange | src/main/java/org/mitre/synthea/modules/WeightLossModule.java:42-43 | with the default configuration, an adherent person's loss percentage lies between 7 and 10 percent |
| WeightLoss.KeysDistinct | src/main/java/org/mitre/synthea/modules/WeightLossModule.java:26-31 | the six management keys are distinct, and none of them is the gender key |
| WeightLoss.FirstYearOfManagement | src/main/java/org/mitre/synthea/modules/WeightLossModule.java:126-129 | fails exactly when the start is missing or is not a time; otherwise true iff at most one year has passed since the start; true implies that the five-year test is true |
| WeightLoss.FirstFiveYearsOfManagement | src/main/java/org/mitre/synthea/modules/WeightLossModule.java:135-138 | fails exactly when the start is missing or is not a time; otherwise true iff at most five years have passed |
| WeightLoss.YearFraction | src/main/java/org/mitre/synthea/modules/WeightLossModule.java:148 | the elapsed fraction of the loss year is 0 at the start and 1 one year later |
| WeightLoss.LossAt | src/main/java/org/mitre/synthea/modules/WeightLossModule.java:151 | at fraction 0 the weight is the start weight; at fraction 1 it is the start weight less the loss percentage |
| WeightLoss.LossAtNonIncreasing | src/main/java/org/mitre/synthea/modules/WeightLossModule.java:151 | for a non-negative weight and loss percentage, a larger elapsed fraction never gives a higher weight |
| WeightLoss.LossCurve | src/main/java/org/mitre/synthea/modules/WeightLossModule.java:145-152 | at the start it is the start weight; one year later it is the start weight less the loss percentage |
| WeightLoss.LossCurveNonIncreasing | src/main/java/org/mitre/synthea/modules/WeightLossModule.java:145-152 | for a non-negative weight and loss percentage, the loss-year weight never rises with time |
| WeightLoss.RegressionElapsed | src/main/java/org/mitre/synthea/modules/WeightLossModule.java:160-161 | the elapsed fraction of the regression years is 0 one year after the start and 1 five years after it |
| WeightLoss.RegressionAt | src/main/java/org/mitre/synthea/modules/WeightLossModule.java:164-165 | at fraction 0 it is the minimum weight; at fraction 1 it is the start weight |
| WeightLoss.RegressionAtNonDecreasing | src/main/java/org/mitre/synthea/modules/WeightLossModule.java:164-165 | for a non-negative weight and loss percentage, a larger elapsed fraction never gives a lower weight |
| WeightLoss.RegressionCurve | src/main/java/org/mitre/synthea/modules/WeightLossModule.java:158-166 | one year after the start it is the minimum weight; five years after it is the start weight |
| WeightLoss.RegressionCurveNonDecreasing | src/main/java/org/mitre/synthea/modules/WeightLossModule.java:158-166 | for a non-negative weight and loss percentage, the regressing weight never falls with time |
| WeightLoss.RegressionCurveBetween | src/main/java/org/mitre/synthea/modules/WeightLossModule.java:158-166 | from year one to year five the regressing weight stays between the minimum and the start weight |
| WeightLoss.LossMeetsRegression | src/main/java/org/mitre/synthea/modules/WeightLossModule.java:145-166 | the loss line and the regression line meet at the end of the first year |
| WeightLoss.PercentileAt | src/main/java/org/mitre/synthea/modules/WeightLossModule.java:195 | at fraction 0 it is the percentile weight less the loss; at fraction 1 it is the percentile weight |
| WeightLoss.PercentileCurve | src/main/java/org/mitre/synthea/modules/WeightLossModule.java:193-195 | one year after the start it is the percentile weight less the loss; five years after, the percentile weight |
| WeightLoss.PediatricFloor | src/main/java/org/mitre/synthea/modules/WeightLossModule.java:207-210 | the result is not below the computed weight or the floor, and it is one of them |
| WeightLoss.AdultWeightLoss | src/main/java/org/mitre/synthea/modules/WeightLossModule.java:145-152 | succeeds exactly when start, pre-management weight and loss percentage are present with their types; then it is the loss curve of those values |
| WeightLoss.AdultRegression | src/main/java/org/mitre/synthea/modules/WeightLossModule.java:158-166 | succeeds exactly when the same three attributes are readable; then it is the regression curve of those values |
| WeightLoss.PercentileRegression | src/main/java/org/mitre/synthea/modules/WeightLossModule.java:187-196 | succeeds exactly when the start, the gender, the weight-percentile vital sign and the loss percentage can be read; then it is the percentile curve, towards the growth-chart weight at that percentile and age |
| WeightLoss.PediatricRegression | src/main/java/org/mitre/synthea/modules/WeightLossModule.java:173-176 | five years after the start, the weight is the growth-chart weight at the current age in months |
| WeightLoss.TransitionRegression | src/main/java/org/mitre/synthea/modules/WeightLossModule.java:182-185 | five years after the start, the weight is the growth-chart weight at 240 months |
| WeightLoss.PediatricWeightLoss | src/main/java/org/mitre/synthea/modules/WeightLossModule.java:202-211 | succeeds exactly when the episode and the gender can be read; the weight is then the larger of the adult loss weight and the growth-chart weight at the floor percentile |
| WeightLoss.MeetsWeightManagementThresholds | src/main/java/org/mitre/synthea/modules/WeightLossModule.java:253-263 | false below the minimum age; from age 20 it is BMI at or over the start BMI; from 2 to 19 it is BMI at or over the chart BMI at the start percentile; under 2 it compares against the 500 sentinel; it fails exactly when the BMI is missing, or the gender is unreadable where a chart is consulted |
| WeightLoss.WillStartWeightManagement | src/main/java/org/mitre/synthea/modules/WeightLossModule.java:240-245 | false when the thresholds fail; otherwise true iff the draw is at most the start probability |
| WeightLoss.Started | src/main/java/org/mitre/synthea/modules/WeightLossModule.java:218-233 | sets active, the pre-management weight (the current weight) and the start time. An adherent person gets a loss percentage drawn in [minLoss, maxLoss] and a long-term-success draw. Anyone else gets long-term success false and an untouched loss percentage. No other attribute changes, and it fails exactly when the weight is missing |
| WeightLoss.Stopped | src/main/java/org/mitre/synthea/modules/WeightLossModule.java:113-120 | no management key is left, and every other attribute is kept |
| WeightLoss.WithWeight | src/main/java/org/mitre/synthea/modules/WeightLossModule.java:67-69 | succeeds exactly when the height is recorded; the weight is then the new one, the BMI is that of the height and the new weight, and no other vital sign or attribute changes |
| WeightLoss.RegressionWeight | src/main/java/org/mitre/synthea/modules/WeightLossModule.java:77-88 | an adult with an unreadable start fails with that read's fault. Five years after the start, an adult who started as an adult is back at the pre-management weight; anyone else is at the growth-chart weight for the age in months, or for 240 months if they are now adult |
| WeightLoss.Tick | src/main/java/org/mitre/synthea/modules/WeightLossModule.java:49-107 | a call changes no attribute outside the six management keys and no vital sign other than weight and BMI; its other properties are stated by TickTotal, TickPreservesEpisode and the lemmas below |
| WeightLoss.TickTotal | src/main/java/org/mitre/synthea/modules/WeightLossModule.java:49-107 | on a well-formed episode with gender and vital signs readable, a call never fails |
| WeightLoss.TickPreservesEpisode | src/main/java/org/mitre/synthea/modules/WeightLossModule.java:49-107 | a call keeps the attributes either free of the episode or a complete episode, with the loss percentage present exactly when the person adheres; the gender is untouched |
| WeightLoss.VitalsNeedAdherence | src/main/java/org/mitre/synthea/modules/WeightLossModule.java:58-93 | weight and BMI change only for an active, adherent person |
| WeightLoss.ActiveTickAttributes | src/main/java/org/mitre/synthea/modules/WeightLossModule.java:53-99 | while active, the attributes change only by clearing the episode, after five years without long-term success |
| WeightLoss.AfterFiveYears | src/main/java/org/mitre/synthea/modules/WeightLossModule.java:94-99 | past five years the episode is cleared iff long-term success is false; otherwise nothing changes |
| WeightLoss.NonAdherentEpisode | src/main/java/org/mitre/synthea/modules/WeightLossModule.java:53-99 | a non-adherent person's vital signs never change, and the episode clears after year five |
| WeightLoss.AdultLossWeight | src/main/java/org/mitre/synthea/modules/WeightLossModule.java:58-70 | in the loss year an adherent adult gets the loss-curve weight and the BMI of the height and that weight |
| WeightLoss.AdultLossYearEnd | src/main/java/org/mitre/synthea/modules/WeightLossModule.java:58-70 | one year after the start, an adherent adult weighs the pre-management weight less the loss |
| WeightLoss.AdultLossMonotone | src/main/java/org/mitre/synthea/modules/WeightLossModule.java:58-70 | in the loss year, a later call never gives an adult a higher weight |
| WeightLoss.AdultRegressionEnd | src/main/java/org/mitre/synthea/modules/WeightLossModule.java:71-92 | five years after the start, an adult without long-term success who started as an adult is back at the pre-management weight |
| WeightLoss.PediatricLossFloor | src/main/java/org/mitre/synthea/modules/WeightLossModule.java:62-63 | with height and gender readable, a call for an adherent child in the loss year succeeds, and the weight is never below the weight at the floor percentile |
| WeightLoss.PediatricLossAboveFloor | src/main/java/org/mitre/synthea/modules/WeightLossModule.java:62-63 | a child whose loss-curve weight is at or above the floor gets the loss-curve weight |
| WeightLoss.AdultStarts | src/main/java/org/mitre/synthea/modules/WeightLossModule.java:100-104 | an inactive adult over the BMI threshold, with start probability one, starts an episode at this time |
| WeightLoss.StopWeightManagement | src/main/java/org/mitre/synthea/modules/WeightLossModule.java:113-120 | the attributes afterwards are the old ones without the six keys |
| WeightLoss.StartWeightManagement | src/main/java/org/mitre/synthea/modules/WeightLossModule.java:218-233 | the attributes afterwards are those `Started` describes; a missing weight fails with nothing changed |
| WeightLoss.Process | src/main/java/org/mitre/synthea/modules/WeightLossModule.java:49-107 | the person afterwards is what `Tick` gives and the result is false; a failed read leaves the person unchanged, with the same fault |
| HealthInsurance.DetermineInsurance | src/main/java/org/mitre/synthea/modules/HealthInsuranceModule.java:113-139 | Dual Eligible when both programs accept; a government payer whenever one of them accepts; with neither accepting, the payer at time if it meets the basic requirements, else `findPayer`'s result; null only for a missing Dual Eligible payer |
| HealthInsurance.FirstMatch | src/main/java/org/mitre/synthea/modules/HealthInsuranceModule.java:122-137 | with no rule firing the result is the fallback; otherwise it is the payer of some firing rule (which one is stated by FirstMatchPicksFirstFiring) |
| HealthInsurance.CascadeRules | src/main/java/org/mitre/synthea/modules/HealthInsuranceModule.java:122-133 | four rules; the Dual Eligible rule fires only when both government rules do; the government rules give government payers and the keep rule gives the payer at time |
| HealthInsurance.FirstMatchPicksFirstFiring | src/main/java/org/mitre/synthea/modules/HealthInsuranceModule.java:122-133 | a priority list yields the payer of the first rule that fires |
| HealthInsurance.FirstMatchNoneFiring | src/main/java/org/mitre/synthea/modules/HealthInsuranceModule.java:134-137 | when no rule fires, the list yields the fallback |
| HealthInsurance.DetermineInsuranceIsFirstMatch | src/main/java/org/mitre/synthea/modules/HealthInsuranceModule.java:113-139 | the cascade equals the first-match reading of its four rules in order, with `findPayer` as the fallback |
| HealthInsurance.ProcessPathNeverKeeps | src/main/java/org/mitre/synthea/modules/HealthInsuranceModule.java:58-59 | when the payer at time was null and is still null when asked again, the payer is never kept, and a person no government program accepts gets `findPayer`'s result |
| HealthInsurance.SecondaryPayer | src/main/java/org/mitre/synthea/modules/HealthInsuranceModule.java:67-73 | the supplement is bought only when the primary is the Medicare payer and the draw is at most 0.8; otherwise the secondary is no insurance |
| HealthInsurance.InsuranceStatusOf | src/main/java/org/mitre/synthea/modules/HealthInsuranceModule.java:85-96 | the status is one of four values: none iff the primary is no insurance; medicaid iff a government payer named "Medicaid" in any case; medicare for any other government payer; private otherwise |
| HealthInsurance.EqualsIgnoreCase | src/main/java/org/mitre/synthea/modules/HealthInsuranceModule.java:90 | equal strings match; a match has equal lengths and agrees letter by letter after ASCII lower-casing |
| HealthInsurance.LowerCharwise | src/main/java/org/mitre/synthea/modules/HealthInsuranceModule.java:90 | the lower-cased string has the same length and each letter lower-cased |
| HealthInsurance.EqualsIgnoreCaseEquivalence | src/main/java/org/mitre/synthea/modules/HealthInsuranceModule.java:90 | the test is symmetric and transitive |
| HealthInsurance.ConfiguredMedicaidNameIgnored | src/main/java/org/mitre/synthea/modules/HealthInsuranceModule.java:88-92 | a Medicaid payer configured under another name gets the status "medicare" |
| HealthInsurance.MedicaidNameAnyCase | src/main/java/org/mitre/synthea/modules/HealthInsuranceModule.java:90 | the name test ignores letter case |
| HealthInsurance.CustomersAfter | src/main/java/org/mitre/synthea/modules/HealthInsuranceModule.java:78-82 | the primary's count rises by one, even for no insurance; the secondary's rises by one iff it is not no insurance |
| HealthInsurance.QolsAfter | src/main/java/org/mitre/synthea/modules/HealthInsuranceModule.java:60-64 | the last payer, if any, gains the amount; no other total changes |
| HealthInsurance.Decide | src/main/java/org/mitre/synthea/modules/HealthInsuranceModule.java:66-96 | fails with a null payer exactly when both programs accept and there is no Dual Eligible payer. Otherwise the primary is the first firing rule of the cascade, the secondary is the supplement rule of `SecondaryPayer` for that primary (findPayer's result for the Medicare payer on a draw of at most 0.8, no insurance otherwise), and the status is the four-way `InsuranceStatusOf` of the primary |
| HealthInsurance.DualEligibleDecision | src/main/java/org/mitre/synthea/modules/HealthInsuranceModule.java:122-125 | a person both programs accept gets Dual Eligible, whatever the payer at time, and no supplement |
| HealthInsurance.MedicaidDecision | src/main/java/org/mitre/synthea/modules/HealthInsuranceModule.java:128-129 | a person only Medicaid accepts gets Medicaid and no supplement |
| HealthInsurance.SupplementOnlyForMedicare | src/main/java/org/mitre/synthea/modules/HealthInsuranceModule.java:67-73 | a secondary payer other than no insurance implies that the primary is Medicare, the draw was at most 0.8, and the secondary is `findPayer`'s result |
| HealthInsurance.MedicareDecision | src/main/java/org/mitre/synthea/modules/HealthInsuranceModule.java:126-127 | a person only Medicare accepts gets Medicare, findPayer's supplement on a draw of at most 0.8 (no insurance otherwise), and Medicare's status |
| HealthInsurance.KeptPayerDecision | src/main/java/org/mitre/synthea/modules/HealthInsuranceModule.java:130-133 | a person no government program accepts keeps a payer at time that meets the basic requirements |
| HealthInsurance.PrivateDecision | src/main/java/org/mitre/synthea/modules/HealthInsuranceModule.java:134-137 | a person no government program accepts, with no payer at time, gets `findPayer`'s result and that payer's status |
| HealthInsurance.Enroll | src/main/java/org/mitre/synthea/modules/HealthInsuranceModule.java:75-96 | the history gains the two payers from this time on, the counts are those `CustomersAfter` gives, and the status attribute is set |
| HealthInsurance.Process | src/main/java/org/mitre/synthea/modules/HealthInsuranceModule.java:49-104 | a dead person gets a true completion and nothing changes. When a payer covers the time, only the premium check happens and the result is false. Otherwise the last payer is credited, and the decision, the counters, the status and the premium check follow `Decide`; a null Dual Eligible payer fails before anything else is recorded |

## Left out

- Reading BiometricsConfig and Config: the configuration values are parameters; `Defaults` gives the defaults the code falls back to.
- `lookupGrowthChart`, `bmi`, the age functions, `Utilities.getYear` and `getQolsForYear` live in code that is not part of this model, so they are abstract function parameters.
- Random number generation: the draws are parameters. `Person.rand(low, high)` is not part of this model, so it is taken to be linear in the draw.
- The payers' internals are not part of this model: `accepts`, `findPayer`, `meetsBasicRequirements` and `getGovernmentPayer(s)`. Their answers are inputs. `incrementCustomers` and `addQols` are counter updates in `PayerBook`.
- `checkToPayMonthlyPremium`: only the fact that it is called at the time is recorded; the premium payment itself is outside the modules.
- `getPayerAtTime` and `getLastPayer`: what the coverage record answers is an input, not derived from the recorded history.
- `inventoryAttributes` and `clone`: metadata and boilerplate.
- Concurrency: the payers' shared counters are not modelled for thread-safety.
- IEEE double rounding and NaN: weights and percentages are reals. Non-negativity of weights is not claimed; the monotonicity lemmas assume non-negative inputs.
- Overflow of `long` time arithmetic: times are unbounded integers.
- The vital-sign generators: a vital sign is a value at the current time, and a missing one is an error.
- `String.equalsIgnoreCase`: only ASCII letters are case-folded.
- HealthInsurance.Process: with a null Dual Eligible payer the Java code calls `setPayerAtTime` with null and then fails on `incrementCustomers`; the model fails before `setPayerAtTime`, so it does not record that null entry (its effect is in code that is not part of this model).
