/**
 * The yearly coverage decision of HealthInsuranceModule. When no payer covers the person
 * at `time`, the last payer is credited with last year's quality of life, a primary payer
 * is chosen by a first-match cascade (Dual Eligible, Medicare, Medicaid, keep the payer at
 * time, find a payer), Medicare customers may buy a supplement, both are recorded and
 * counted, and the insurance status attribute is derived. Every living person then has the
 * monthly premium checked.
 *
 * The payers and the person's eligibility are outside the model: the registry, the
 * payers' `accepts` and `meetsBasicRequirements` answers, what the coverage record answers
 * and what `findPayer` returns come in as values.
 */
module HealthInsurance {
  import opened Agent

  const InsuranceStatus := "insurance_status"

  /** The chance that a Medicare customer looks for supplemental insurance. */
  const SupplementProbability := 0.8

  /**
   * The payers the module names: the government payers found under the configured
   * Medicare, Medicaid and Dual Eligible names (None when the registry has none), the set
   * of all government payers, each payer's name and the no-insurance sentinel.
   */
  datatype Registry = Registry(
    medicare: Option<PayerId>,
    medicaid: Option<PayerId>,
    dualEligible: Option<PayerId>,
    governmentPayers: set<PayerId>,
    nameOf: PayerId -> string,
    noInsurance: PayerId)

  /** `payer.accepts(person, time)` and `meetsBasicRequirements(payer, person, null, time)`. */
  datatype Eligibility = Eligibility(accepts: PayerId -> bool, meetsBasicRequirements: PayerId -> bool)

  /**
   * What the coverage record answers this tick: `getPayerAtTime(time)` in `process`, the
   * same call again in `determineInsurance`, and `getLastPayer()`.
   */
  datatype Coverage = Coverage(payerAtTime: Option<PayerId>, payerAtTimeReread: Option<PayerId>, lastPayer: Option<PayerId>)

  /**
   * The rest of the person: `alive(time)`, the coverage answers, `Utilities.getYear` and
   * `getQolsForYear`.
   */
  datatype Env = Env(alive: bool, coverage: Coverage, yearOf: int -> int, qolsForYear: int -> real)

  /** What the random calls return: `findPayer` for the primary, the supplement draw, `findPayer` for the supplement. */
  datatype Draws = Draws(foundPrimary: PayerId, supplement: Draw, foundSupplement: PayerId)

  predicate MedicareAccepts(reg: Registry, elig: Eligibility) {
    reg.medicare.Some? && elig.accepts(reg.medicare.value)
  }

  predicate MedicaidAccepts(reg: Registry, elig: Eligibility) {
    reg.medicaid.Some? && elig.accepts(reg.medicaid.value)
  }

  predicate DualEligible(reg: Registry, elig: Eligibility) {
    MedicareAccepts(reg, elig) && MedicaidAccepts(reg, elig)
  }

  /** The payer at time may be kept. */
  predicate Keeps(elig: Eligibility, payerAtTime: Option<PayerId>) {
    payerAtTime.Some? && elig.meetsBasicRequirements(payerAtTime.value)
  }

  // ---------------------------------------------------------------------------------
  // The primary payer

  /** `determineInsurance`; None is the null a missing Dual Eligible payer gives. */
  function DetermineInsurance(reg: Registry, elig: Eligibility, payerAtTime: Option<PayerId>, found: PayerId): (r: Option<PayerId>)
    ensures DualEligible(reg, elig) ==> r == reg.dualEligible
    ensures MedicareAccepts(reg, elig) || MedicaidAccepts(reg, elig) ==>
      r == reg.dualEligible || r == reg.medicare || r == reg.medicaid
    ensures !MedicareAccepts(reg, elig) && !MedicaidAccepts(reg, elig) ==>
      r == Some(if Keeps(elig, payerAtTime) then payerAtTime.value else found)
    ensures r.None? ==> DualEligible(reg, elig) && reg.dualEligible.None?
  {
    if reg.medicare.Some? && reg.medicaid.Some? && elig.accepts(reg.medicare.value) && elig.accepts(reg.medicaid.value) then
      reg.dualEligible
    else if reg.medicare.Some? && elig.accepts(reg.medicare.value) then
      reg.medicare
    else if reg.medicaid.Some? && elig.accepts(reg.medicaid.value) then
      reg.medicaid
    else if payerAtTime.Some? && elig.meetsBasicRequirements(payerAtTime.value) then
      payerAtTime
    else
      Some(found)
  }

  /** A guarded choice of a priority list. */
  datatype Rule = Rule(fires: bool, payer: Option<PayerId>)

  /** The payer of the first rule that fires, or `otherwise`. */
  function FirstMatch(rules: seq<Rule>, otherwise: Option<PayerId>): (r: Option<PayerId>)
    ensures (forall j :: 0 <= j < |rules| ==> !rules[j].fires) ==> r == otherwise
    ensures (exists i :: 0 <= i < |rules| && rules[i].fires) ==>
      exists i :: 0 <= i < |rules| && rules[i].fires && r == rules[i].payer
  {
    if rules == [] then otherwise
    else if rules[0].fires then rules[0].payer
    else FirstMatch(rules[1..], otherwise)
  }

  lemma {:induction false} FirstMatchPicksFirstFiring(rules: seq<Rule>, otherwise: Option<PayerId>, i: nat)
    requires i < |rules| && rules[i].fires
    requires forall j :: 0 <= j < i ==> !rules[j].fires
    ensures FirstMatch(rules, otherwise) == rules[i].payer
  {
    if i > 0 {
      assert !rules[0].fires;
      FirstMatchPicksFirstFiring(rules[1..], otherwise, i - 1);
    }
  }

  lemma {:induction false} FirstMatchNoneFiring(rules: seq<Rule>, otherwise: Option<PayerId>)
    requires forall j :: 0 <= j < |rules| ==> !rules[j].fires
    ensures FirstMatch(rules, otherwise) == otherwise
  {
    if rules != [] {
      assert !rules[0].fires;
      FirstMatchNoneFiring(rules[1..], otherwise);
    }
  }

  /** The cascade in its order of priority; `findPayer` is the fallback. */
  function CascadeRules(reg: Registry, elig: Eligibility, payerAtTime: Option<PayerId>): (rules: seq<Rule>)
    ensures |rules| == 4
    ensures rules[0].fires ==> rules[1].fires && rules[2].fires
    ensures forall j :: 0 <= j < 3 && rules[j].fires ==> rules[j].payer in {reg.dualEligible, reg.medicare, reg.medicaid}
    ensures rules[3].fires ==> rules[3].payer == payerAtTime && payerAtTime.Some?
  {
    [ Rule(DualEligible(reg, elig), reg.dualEligible),
      Rule(MedicareAccepts(reg, elig), reg.medicare),
      Rule(MedicaidAccepts(reg, elig), reg.medicaid),
      Rule(Keeps(elig, payerAtTime), payerAtTime) ]
  }

  /** `determineInsurance` is the first-match reading of the cascade. */
  lemma DetermineInsuranceIsFirstMatch(reg: Registry, elig: Eligibility, payerAtTime: Option<PayerId>, found: PayerId)
    ensures DetermineInsurance(reg, elig, payerAtTime, found) == FirstMatch(CascadeRules(reg, elig, payerAtTime), Some(found))
  {
    var rules := CascadeRules(reg, elig, payerAtTime);
    if DualEligible(reg, elig) {
      FirstMatchPicksFirstFiring(rules, Some(found), 0);
    } else if MedicareAccepts(reg, elig) {
      FirstMatchPicksFirstFiring(rules, Some(found), 1);
    } else if MedicaidAccepts(reg, elig) {
      FirstMatchPicksFirstFiring(rules, Some(found), 2);
    } else if Keeps(elig, payerAtTime) {
      FirstMatchPicksFirstFiring(rules, Some(found), 3);
    } else {
      FirstMatchNoneFiring(rules, Some(found));
    }
  }

  /**
   * On the path `process` takes, the coverage record has just said that no payer covers
   * `time`; asked again it says the same, so the payer at time is never kept there.
   */
  lemma ProcessPathNeverKeeps(reg: Registry, elig: Eligibility, cov: Coverage, found: PayerId)
    requires cov.payerAtTime.None? && cov.payerAtTimeReread == cov.payerAtTime
    ensures !Keeps(elig, cov.payerAtTimeReread)
    ensures !MedicareAccepts(reg, elig) && !MedicaidAccepts(reg, elig) ==>
      DetermineInsurance(reg, elig, cov.payerAtTimeReread, found) == Some(found)
  {
  }

  // ---------------------------------------------------------------------------------
  // The supplement, the status and the counters

  /** The secondary payer: a supplement only for the Medicare payer itself, on a draw of at most 0.8. */
  function SecondaryPayer(reg: Registry, primary: PayerId, draw: Draw, found: PayerId): (r: PayerId)
    ensures reg.medicare == Some(primary) && draw <= SupplementProbability ==> r == found
    ensures reg.medicare != Some(primary) || draw > SupplementProbability ==> r == reg.noInsurance
  {
    if reg.medicare == Some(primary) && draw <= SupplementProbability then found else reg.noInsurance
  }

  function ToLowerAscii(c: char): char {
    if 'A' <= c <= 'Z' then (c as int + 32) as char else c
  }

  /** `String.equalsIgnoreCase`, folding the ASCII letters. */
  function EqualsIgnoreCase(x: string, y: string): (r: bool)
    ensures x == y ==> r
    ensures r ==> |x| == |y|
    ensures r <==> |x| == |y| && forall i :: 0 <= i < |x| ==> ToLowerAscii(x[i]) == ToLowerAscii(y[i])
  {
    LowerCharwise(x) == LowerCharwise(y)
  }

  /** `x` with every ASCII capital replaced by its small letter. */
  function LowerCharwise(x: string): (l: string)
    ensures |l| == |x| && forall i :: 0 <= i < |x| ==> l[i] == ToLowerAscii(x[i])
  {
    if x == [] then [] else [ToLowerAscii(x[0])] + LowerCharwise(x[1..])
  }

  /** The test is symmetric and transitive. */
  lemma EqualsIgnoreCaseEquivalence(x: string, y: string, z: string)
    ensures EqualsIgnoreCase(x, y) == EqualsIgnoreCase(y, x)
    ensures EqualsIgnoreCase(x, y) && EqualsIgnoreCase(y, z) ==> EqualsIgnoreCase(x, z)
  {
  }

  /** The insurance status of a primary payer; the Medicaid test is on the literal name "Medicaid". */
  function InsuranceStatusOf(reg: Registry, primary: PayerId): (s: string)
    ensures s == "none" || s == "medicaid" || s == "medicare" || s == "private"
    ensures s == "none" <==> primary == reg.noInsurance
    ensures s == "medicaid" <==>
      primary != reg.noInsurance && primary in reg.governmentPayers && EqualsIgnoreCase(reg.nameOf(primary), "Medicaid")
    ensures s == "medicare" <==>
      primary != reg.noInsurance && primary in reg.governmentPayers && !EqualsIgnoreCase(reg.nameOf(primary), "Medicaid")
    ensures s == "private" <==> primary != reg.noInsurance && primary !in reg.governmentPayers
  {
    assert "medicaid"[6] != "medicare"[6];
    if primary == reg.noInsurance then "none"
    else if primary in reg.governmentPayers then
      if EqualsIgnoreCase(reg.nameOf(primary), "Medicaid") then "medicaid" else "medicare"
    else "private"
  }

  /** A Medicaid payer configured under another name is counted as "medicare". */
  lemma ConfiguredMedicaidNameIgnored()
    ensures var reg := Registry(Some(1), Some(2), Some(3), {1, 2, 3}, (p: PayerId) => if p == 2 then "MassHealth" else "Medicare", 0);
      DetermineInsurance(reg, Eligibility((p: PayerId) => p == 2, (p: PayerId) => false), None, 4) == Some(2)
      && InsuranceStatusOf(reg, 2) == "medicare"
  {
  }

  /** The name test ignores case. */
  lemma MedicaidNameAnyCase()
    ensures InsuranceStatusOf(Registry(None, Some(2), None, {2}, (p: PayerId) => "MEDICAID", 0), 2) == "medicaid"
  {
    var name := "MEDICAID";
    assert forall i :: 0 <= i < 8 ==> ToLowerAscii(name[i]) == ToLowerAscii("Medicaid"[i]);
  }

  /** The customer counts after the primary and, unless it is the sentinel, the secondary are incremented. */
  function CustomersAfter(c: map<PayerId, nat>, primary: PayerId, secondary: PayerId, noInsurance: PayerId): (c': map<PayerId, nat>)
    ensures forall q :: (CountAt(c', q) ==
      CountAt(c, q) + (if q == primary then 1 else 0) + (if q == secondary && secondary != noInsurance then 1 else 0))
  {
    var once := c[primary := CountAt(c, primary) + 1];
    if secondary != noInsurance then once[secondary := CountAt(once, secondary) + 1] else once
  }

  /** The quality-of-life totals after the last payer, if any, is credited with `q`. */
  function QolsAfter(qols: map<PayerId, real>, lastPayer: Option<PayerId>, q: real): (r: map<PayerId, real>)
    ensures forall p: PayerId :: SumAt(r, p) == SumAt(qols, p) + (if lastPayer == Some(p) then q else 0.0)
  {
    if lastPayer.Some? then qols[lastPayer.value := SumAt(qols, lastPayer.value) + q] else qols
  }

  // ---------------------------------------------------------------------------------
  // The decision

  datatype Decision = Decision(primary: PayerId, secondary: PayerId, status: string)

  /** The payers and status a pending decision records. */
  function Decide(reg: Registry, elig: Eligibility, payerAtTime: Option<PayerId>, d: Draws): (r: Result<Decision>)
    ensures r.Err? <==> DualEligible(reg, elig) && reg.dualEligible.None?
    ensures r.Err? ==> r.fault == NullPayer
    ensures r.Ok? ==> Some(r.value.primary) == FirstMatch(CascadeRules(reg, elig, payerAtTime), Some(d.foundPrimary))
    ensures r.Ok? ==> r.value.secondary == SecondaryPayer(reg, r.value.primary, d.supplement, d.foundSupplement)
    ensures r.Ok? ==> r.value.status == InsuranceStatusOf(reg, r.value.primary)
    ensures r.Ok? && r.value.secondary != reg.noInsurance ==>
      reg.medicare == Some(r.value.primary) && r.value.secondary == d.foundSupplement
    ensures r.Ok? ==> (r.value.status == "none" <==> r.value.primary == reg.noInsurance)
  {
    DetermineInsuranceIsFirstMatch(reg, elig, payerAtTime, d.foundPrimary);
    var primary := DetermineInsurance(reg, elig, payerAtTime, d.foundPrimary);
    if primary.None? then Err(NullPayer)
    else Ok(Decision(primary.value, SecondaryPayer(reg, primary.value, d.supplement, d.foundSupplement),
                     InsuranceStatusOf(reg, primary.value)))
  }

  /** A person both government programs accept gets Dual Eligible, whatever the previous payer, and no supplement. */
  lemma DualEligibleDecision(reg: Registry, elig: Eligibility, payerAtTime: Option<PayerId>, d: Draws)
    requires DualEligible(reg, elig) && reg.dualEligible.Some? && reg.dualEligible != reg.medicare
    ensures Decide(reg, elig, payerAtTime, d)
         == Ok(Decision(reg.dualEligible.value, reg.noInsurance, InsuranceStatusOf(reg, reg.dualEligible.value)))
  {
  }

  /** A person only Medicaid accepts gets Medicaid and no supplement. */
  lemma MedicaidDecision(reg: Registry, elig: Eligibility, payerAtTime: Option<PayerId>, d: Draws)
    requires !MedicareAccepts(reg, elig) && MedicaidAccepts(reg, elig)
    ensures Decide(reg, elig, payerAtTime, d)
         == Ok(Decision(reg.medicaid.value, reg.noInsurance, InsuranceStatusOf(reg, reg.medicaid.value)))
  {
  }

  /** Only a Medicare primary can have a secondary payer other than the sentinel. */
  lemma SupplementOnlyForMedicare(reg: Registry, elig: Eligibility, payerAtTime: Option<PayerId>, d: Draws)
    ensures var r := Decide(reg, elig, payerAtTime, d);
      r.Ok? && r.value.secondary != reg.noInsurance ==>
        reg.medicare == Some(r.value.primary) && d.supplement <= SupplementProbability && r.value.secondary == d.foundSupplement
  {
  }

  /** A person only Medicare accepts gets Medicare, with `findPayer`'s supplement on a draw of at most 0.8. */
  lemma MedicareDecision(reg: Registry, elig: Eligibility, payerAtTime: Option<PayerId>, d: Draws)
    requires MedicareAccepts(reg, elig) && !MedicaidAccepts(reg, elig)
    ensures Decide(reg, elig, payerAtTime, d)
         == Ok(Decision(reg.medicare.value,
                        if d.supplement <= SupplementProbability then d.foundSupplement else reg.noInsurance,
                        InsuranceStatusOf(reg, reg.medicare.value)))
  {
  }

  /** A person no government program accepts keeps a payer at time that meets the basic requirements. */
  lemma KeptPayerDecision(reg: Registry, elig: Eligibility, payerAtTime: Option<PayerId>, d: Draws)
    requires !MedicareAccepts(reg, elig) && !MedicaidAccepts(reg, elig) && Keeps(elig, payerAtTime)
    ensures Decide(reg, elig, payerAtTime, d)
         == Ok(Decision(payerAtTime.value, SecondaryPayer(reg, payerAtTime.value, d.supplement, d.foundSupplement),
                        InsuranceStatusOf(reg, payerAtTime.value)))
  {
  }

  /** A person no government program accepts, with no payer at time, gets what `findPayer` returns. */
  lemma PrivateDecision(reg: Registry, elig: Eligibility, d: Draws)
    requires !MedicareAccepts(reg, elig) && !MedicaidAccepts(reg, elig)
    ensures Decide(reg, elig, None, d)
         == Ok(Decision(d.foundPrimary, SecondaryPayer(reg, d.foundPrimary, d.supplement, d.foundSupplement),
                        InsuranceStatusOf(reg, d.foundPrimary)))
  {
  }

  // ---------------------------------------------------------------------------------
  // The module's operation

  /** Record the two payers from `time` on, count them as customers and store the status. */
  method Enroll(p: Person, book: PayerBook, time: int, reg: Registry, newPayer: PayerId, secondaryPayer: PayerId)
    modifies p`attributes, p`plans, book`customers
    ensures p.plans == old(p.plans) + [PlanRecord(time, newPayer, secondaryPayer)]
    ensures book.customers == CustomersAfter(old(book.customers), newPayer, secondaryPayer, reg.noInsurance)
    ensures p.attributes == old(p.attributes)[InsuranceStatus := StrVal(InsuranceStatusOf(reg, newPayer))]
  {
    p.SetPayerAtTime(time, newPayer, secondaryPayer);
    book.IncrementCustomers(newPayer);
    if reg.noInsurance != secondaryPayer {
      book.IncrementCustomers(secondaryPayer);
    }
    var insuranceStatus := InsuranceStatusOf(reg, newPayer);
    p.PutAttribute(InsuranceStatus, StrVal(insuranceStatus));
  }

  /**
   * `process`: for a living person, takes the decision when no payer covers `time`, then
   * checks the monthly premium; never completes. A dead person completes and nothing changes.
   */
  method Process(p: Person, book: PayerBook, time: int, reg: Registry, elig: Eligibility, env: Env, d: Draws)
    returns (r: Result<bool>)
    modifies p`attributes, p`plans, p`premiumChecks, book`customers, book`qols
    ensures !env.alive ==> r == Ok(true) && unchanged(p) && unchanged(book)
    ensures env.alive && env.coverage.payerAtTime.Some? ==>
      && r == Ok(false)
      && p.attributes == old(p.attributes) && p.plans == old(p.plans)
      && p.premiumChecks == old(p.premiumChecks) + [time]
      && unchanged(book)
    ensures env.alive && env.coverage.payerAtTime.None? ==>
      var dec := Decide(reg, elig, env.coverage.payerAtTimeReread, d);
      && book.qols == QolsAfter(old(book.qols), env.coverage.lastPayer, env.qolsForYear(env.yearOf(time) - 1))
      && (dec.Err? ==>
            && r == Err(NullPayer)
            && p.attributes == old(p.attributes) && p.plans == old(p.plans)
            && p.premiumChecks == old(p.premiumChecks) && book.customers == old(book.customers))
      && (dec.Ok? ==>
            && r == Ok(false)
            && p.plans == old(p.plans) + [PlanRecord(time, dec.value.primary, dec.value.secondary)]
            && book.customers == CustomersAfter(old(book.customers), dec.value.primary, dec.value.secondary, reg.noInsurance)
            && p.attributes == old(p.attributes)[InsuranceStatus := StrVal(dec.value.status)]
            && p.premiumChecks == old(p.premiumChecks) + [time])
  {
    if !env.alive {
      return Ok(true);
    }
    var payerAtTime := env.coverage.payerAtTime;
    if payerAtTime.None? {
      var lastPayer := env.coverage.lastPayer;
      if lastPayer.Some? {
        book.AddQols(lastPayer.value, env.qolsForYear(env.yearOf(time) - 1));
      }
      var determined := DetermineInsurance(reg, elig, env.coverage.payerAtTimeReread, d.foundPrimary);
      if determined.None? {
        return Err(NullPayer);
      }
      var newPayer := determined.value;
      var secondaryPayer := SecondaryPayer(reg, newPayer, d.supplement, d.foundSupplement);
      Enroll(p, book, time, reg, newPayer, secondaryPayer);
    }
    p.CheckToPayMonthlyPremium(time);
    r := Ok(false);
  }
}
