/** The three artifact records of the debate and their construction-time
    validation: field-level length and range constraints on every record,
    and the cross-field guard on FinalDecision (no INVEST with unresolved
    risks; weights summing to 100). Construction is a total function from a
    candidate field set to either the same record or a tagged error. */
module Models {
  import opened Wrappers

  // ---------------------------------------------------------------------
  // Records
  // ---------------------------------------------------------------------

  /** The optimistic thesis: reasons to invest. */
  datatype BullCase = BullCase(
    startupName: string,
    oneLiner: string,
    marketOpportunity: string,
    competitiveMoat: string,
    growthCatalysts: seq<string>,
    tractionHighlights: seq<string>,
    teamStrengths: seq<string>,
    comparableExits: seq<string>,
    confidenceScore: int,
    investmentThesisSummary: string)

  /** The skeptical analysis: reasons not to invest. The two optional lists
      default to absent. */
  datatype BearCase = BearCase(
    startupName: string,
    marketRisks: seq<string>,
    executionRisks: seq<string>,
    competitiveThreats: seq<string>,
    financialConcerns: seq<string>,
    regulatoryRisks: Option<seq<string>> := None,
    technologyRisks: Option<seq<string>> := None,
    keyWeaknesses: seq<string>,
    killScenario: string,
    riskSeverityScore: int)

  datatype InvestmentDecision = Invest | Pass | FollowUp

  /** The string value of each enum member. */
  function DecisionValue(d: InvestmentDecision): (v: string)
    ensures v == "INVEST" <==> d == Invest
    ensures v == "PASS" <==> d == Pass
    ensures v == "FOLLOW_UP" <==> d == FollowUp
  {
    match d
    case Invest => "INVEST"
    case Pass => "PASS"
    case FollowUp => "FOLLOW_UP"
  }

  datatype RiskMitigation = RiskMitigation(risk: string, mitigation: string)

  /** The committee's verdict. Both risk lists default to empty, the three
      trailing optional fields to absent. */
  datatype FinalDecision = FinalDecision(
    startupName: string,
    decision: InvestmentDecision,
    investmentThesis: string,
    unresolvedRisks: seq<string> := [],
    riskMitigations: seq<RiskMitigation> := [],
    bullCaseWeight: int,
    bearCaseWeight: int,
    recommendedCheckSize: Option<string> := None,
    keyDueDiligence: Option<seq<string>> := None,
    followUpQuestions: Option<seq<string>> := None)

  // ---------------------------------------------------------------------
  // Errors
  // ---------------------------------------------------------------------

  /** The constrained fields of the three records. */
  datatype Field =
    | GrowthCatalysts | ConfidenceScore
    | MarketRisks | ExecutionRisks | KeyWeaknesses | RiskSeverityScore
    | BullCaseWeight | BearCaseWeight

  /** The field's name as the records declare it. */
  function FieldName(f: Field): string
  {
    match f
    case GrowthCatalysts => "growth_catalysts"
    case ConfidenceScore => "confidence_score"
    case MarketRisks => "market_risks"
    case ExecutionRisks => "execution_risks"
    case KeyWeaknesses => "key_weaknesses"
    case RiskSeverityScore => "risk_severity_score"
    case BullCaseWeight => "bull_case_weight"
    case BearCaseWeight => "bear_case_weight"
  }

  /** One violated field constraint: `min_length`, `ge` and `le`
      respectively. */
  datatype FieldError =
    | TooShort(field: Field, minLength: nat, length: nat)
    | BelowMinimum(field: Field, bound: int, actual: int)
    | AboveMaximum(field: Field, bound: int, actual: int)

  datatype ValidationError =
      /** All field-level violations, in field declaration order. */
    | FieldErrors(errors: seq<FieldError>)
      /** INVEST with this many unresolved risks, which are listed. */
    | InvestBlocked(count: nat, risks: seq<string>)
      /** The two weights, whose sum is not 100. */
    | WeightSumNot100(bullWeight: int, bearWeight: int)

  // ---------------------------------------------------------------------
  // Field constraints
  // ---------------------------------------------------------------------

  function CheckMinLength(field: Field, items: seq<string>, minLength: nat): (errs: seq<FieldError>)
    ensures errs == [] <==> |items| >= minLength
    ensures errs != [] ==> errs == [TooShort(field, minLength, |items|)]
  {
    if |items| < minLength then [TooShort(field, minLength, |items|)] else []
  }

  function CheckRange(field: Field, value: int, lo: int, hi: int): (errs: seq<FieldError>)
    requires lo <= hi
    ensures errs == [] <==> lo <= value <= hi
    ensures value < lo ==> errs == [BelowMinimum(field, lo, value)]
    ensures value > hi ==> errs == [AboveMaximum(field, hi, value)]
  {
    if value < lo then [BelowMinimum(field, lo, value)]
    else if value > hi then [AboveMaximum(field, hi, value)]
    else []
  }

  // ---------------------------------------------------------------------
  // BullCase
  // ---------------------------------------------------------------------

  /** The record invariant of a BullCase. */
  predicate ValidBullCase(c: BullCase)
  {
    |c.growthCatalysts| >= 3 && 1 <= c.confidenceScore <= 10
  }

  function BullCaseFieldErrors(c: BullCase): seq<FieldError>
  {
    CheckMinLength(GrowthCatalysts, c.growthCatalysts, 3)
    + CheckRange(ConfidenceScore, c.confidenceScore, 1, 10)
  }

  /** Construct a BullCase: the candidate itself when it meets every field
      constraint, otherwise the list of the constraints it violates. */
  function ValidateBullCase(c: BullCase): (r: Result<BullCase, ValidationError>)
    ensures r.Ok? <==> ValidBullCase(c)
    ensures r.Ok? ==> r.value == c
    ensures r.Err? ==> r.error.FieldErrors? && 1 <= |r.error.errors| <= 2
    ensures r.Err? ==>
      r.error.errors == CheckMinLength(GrowthCatalysts, c.growthCatalysts, 3)
                        + CheckRange(ConfidenceScore, c.confidenceScore, 1, 10)
    ensures r.Err? ==> (TooShort(GrowthCatalysts, 3, |c.growthCatalysts|) in r.error.errors <==> |c.growthCatalysts| < 3)
    ensures r.Err? ==> (BelowMinimum(ConfidenceScore, 1, c.confidenceScore) in r.error.errors <==> c.confidenceScore < 1)
    ensures r.Err? ==> (AboveMaximum(ConfidenceScore, 10, c.confidenceScore) in r.error.errors <==> c.confidenceScore > 10)
  {
    var errs := BullCaseFieldErrors(c);
    if errs == [] then Ok(c) else Err(FieldErrors(errs))
  }

  // ---------------------------------------------------------------------
  // BearCase
  // ---------------------------------------------------------------------

  /** The record invariant of a BearCase; the optional lists are free. */
  predicate ValidBearCase(c: BearCase)
  {
    && |c.marketRisks| >= 2
    && |c.executionRisks| >= 2
    && |c.keyWeaknesses| >= 3
    && 1 <= c.riskSeverityScore <= 10
  }

  function BearCaseFieldErrors(c: BearCase): seq<FieldError>
  {
    CheckMinLength(MarketRisks, c.marketRisks, 2)
    + CheckMinLength(ExecutionRisks, c.executionRisks, 2)
    + CheckMinLength(KeyWeaknesses, c.keyWeaknesses, 3)
    + CheckRange(RiskSeverityScore, c.riskSeverityScore, 1, 10)
  }

  /** Construct a BearCase: the candidate itself when it meets every field
      constraint, otherwise the list of the constraints it violates. */
  function ValidateBearCase(c: BearCase): (r: Result<BearCase, ValidationError>)
    ensures r.Ok? <==> ValidBearCase(c)
    ensures r.Ok? ==> r.value == c
    ensures r.Err? ==> r.error.FieldErrors? && 1 <= |r.error.errors| <= 4
    ensures r.Err? ==>
      r.error.errors == CheckMinLength(MarketRisks, c.marketRisks, 2)
                        + CheckMinLength(ExecutionRisks, c.executionRisks, 2)
                        + CheckMinLength(KeyWeaknesses, c.keyWeaknesses, 3)
                        + CheckRange(RiskSeverityScore, c.riskSeverityScore, 1, 10)
    ensures r.Err? ==> (TooShort(MarketRisks, 2, |c.marketRisks|) in r.error.errors <==> |c.marketRisks| < 2)
    ensures r.Err? ==> (TooShort(ExecutionRisks, 2, |c.executionRisks|) in r.error.errors <==> |c.executionRisks| < 2)
    ensures r.Err? ==> (TooShort(KeyWeaknesses, 3, |c.keyWeaknesses|) in r.error.errors <==> |c.keyWeaknesses| < 3)
    ensures r.Err? ==> (BelowMinimum(RiskSeverityScore, 1, c.riskSeverityScore) in r.error.errors <==> c.riskSeverityScore < 1)
    ensures r.Err? ==> (AboveMaximum(RiskSeverityScore, 10, c.riskSeverityScore) in r.error.errors <==> c.riskSeverityScore > 10)
  {
    var errs := BearCaseFieldErrors(c);
    if errs == [] then Ok(c) else Err(FieldErrors(errs))
  }

  /** Whatever the optional regulatory and technology lists hold, they never
      decide whether a BearCase is accepted. */
  lemma BearCaseOptionalListsFree(c: BearCase, regulatory: Option<seq<string>>, technology: Option<seq<string>>)
    ensures ValidateBearCase(c.(regulatoryRisks := regulatory, technologyRisks := technology)).Ok?
        <==> ValidateBearCase(c).Ok?
  {
  }

  // ---------------------------------------------------------------------
  // FinalDecision
  // ---------------------------------------------------------------------

  predicate WeightsInRange(d: FinalDecision)
  {
    0 <= d.bullCaseWeight <= 100 && 0 <= d.bearCaseWeight <= 100
  }

  /** The two runtime-enforced invariants of a decision. */
  predicate GuardHolds(d: FinalDecision)
  {
    && (d.decision == Invest ==> d.unresolvedRisks == [])
    && d.bullCaseWeight + d.bearCaseWeight == 100
  }

  predicate ValidFinalDecision(d: FinalDecision)
  {
    WeightsInRange(d) && GuardHolds(d)
  }

  function FinalDecisionFieldErrors(d: FinalDecision): seq<FieldError>
  {
    CheckRange(BullCaseWeight, d.bullCaseWeight, 0, 100)
    + CheckRange(BearCaseWeight, d.bearCaseWeight, 0, 100)
  }

  /** The after-validator `invest_requires_addressed_risks`: the INVEST check
      first, then the weight sum; on success the record itself. */
  function InvestRequiresAddressedRisks(d: FinalDecision): (r: Result<FinalDecision, ValidationError>)
    ensures r.Ok? <==> GuardHolds(d)
    ensures r.Ok? ==> r.value == d
    ensures (d.decision == Invest && |d.unresolvedRisks| > 0)
        <==> r == Err(InvestBlocked(|d.unresolvedRisks|, d.unresolvedRisks))
    ensures r.Err? && r.error.WeightSumNot100?
        <==> !(d.decision == Invest && |d.unresolvedRisks| > 0)
             && d.bullCaseWeight + d.bearCaseWeight != 100
    ensures r.Err? && r.error.WeightSumNot100?
        ==> r.error == WeightSumNot100(d.bullCaseWeight, d.bearCaseWeight)
  {
    if d.decision == Invest && |d.unresolvedRisks| > 0 then
      Err(InvestBlocked(|d.unresolvedRisks|, d.unresolvedRisks))
    else if d.bullCaseWeight + d.bearCaseWeight != 100 then
      Err(WeightSumNot100(d.bullCaseWeight, d.bearCaseWeight))
    else
      Ok(d)
  }

  /** Construct a FinalDecision: field constraints first (the guard does not
      run when any of them fails), then the cross-field guard. */
  function ValidateFinalDecision(d: FinalDecision): (r: Result<FinalDecision, ValidationError>)
    ensures r.Ok? <==> ValidFinalDecision(d)
    ensures r.Ok? ==> r.value == d
    ensures r.Err? && r.error.FieldErrors? <==> !WeightsInRange(d)
    ensures r.Err? && r.error.FieldErrors? ==> 1 <= |r.error.errors| <= 2
    ensures r.Err? && r.error.FieldErrors? ==>
      r.error.errors == CheckRange(BullCaseWeight, d.bullCaseWeight, 0, 100)
                        + CheckRange(BearCaseWeight, d.bearCaseWeight, 0, 100)
    ensures r.Err? && r.error.FieldErrors? ==> (BelowMinimum(BullCaseWeight, 0, d.bullCaseWeight) in r.error.errors <==> d.bullCaseWeight < 0)
    ensures r.Err? && r.error.FieldErrors? ==> (AboveMaximum(BullCaseWeight, 100, d.bullCaseWeight) in r.error.errors <==> d.bullCaseWeight > 100)
    ensures r.Err? && r.error.FieldErrors? ==> (BelowMinimum(BearCaseWeight, 0, d.bearCaseWeight) in r.error.errors <==> d.bearCaseWeight < 0)
    ensures r.Err? && r.error.FieldErrors? ==> (AboveMaximum(BearCaseWeight, 100, d.bearCaseWeight) in r.error.errors <==> d.bearCaseWeight > 100)
    ensures r.Err? && r.error.InvestBlocked?
        <==> WeightsInRange(d) && d.decision == Invest && d.unresolvedRisks != []
    ensures r.Err? && r.error.WeightSumNot100?
        <==> WeightsInRange(d) && !(d.decision == Invest && d.unresolvedRisks != [])
             && d.bullCaseWeight + d.bearCaseWeight != 100
  {
    var errs := FinalDecisionFieldErrors(d);
    if errs != [] then Err(FieldErrors(errs)) else InvestRequiresAddressedRisks(d)
  }

  // ---------------------------------------------------------------------
  // Consequences of the guard
  // ---------------------------------------------------------------------

  /** INVEST with any unresolved risk never yields a record; when both guard
      rules are broken, the INVEST rule is the one reported. */
  lemma InvestWithUnresolvedRisksRejected(d: FinalDecision)
    requires d.decision == Invest && d.unresolvedRisks != []
    ensures ValidateFinalDecision(d).Err?
    ensures WeightsInRange(d) ==>
      ValidateFinalDecision(d) == Err(InvestBlocked(|d.unresolvedRisks|, d.unresolvedRisks))
  {
  }

  /** Weights that do not sum to 100 never yield a record, 0/0 and 100/100
      included. */
  lemma WeightSumRejected(d: FinalDecision)
    requires d.bullCaseWeight + d.bearCaseWeight != 100
    ensures ValidateFinalDecision(d).Err?
    ensures WeightsInRange(d) && !(d.decision == Invest && d.unresolvedRisks != []) ==>
      ValidateFinalDecision(d) == Err(WeightSumNot100(d.bullCaseWeight, d.bearCaseWeight))
  {
  }

  /** PASS and FOLLOW_UP tolerate any number of unresolved risks. */
  lemma PassAndFollowUpTolerateRisks(d: FinalDecision)
    requires d.decision != Invest && WeightsInRange(d)
    requires d.bullCaseWeight + d.bearCaseWeight == 100
    ensures ValidateFinalDecision(d) == Ok(d)
  {
  }

  /** Built with the default (empty) risk lists, an INVEST decision whose
      weights are in range and sum to 100 is accepted unchanged. */
  lemma InvestWithDefaultListsAccepted(name: string, thesis: string, bull: int, bear: int)
    requires 0 <= bull <= 100 && 0 <= bear <= 100 && bull + bear == 100
    ensures var d := FinalDecision(startupName := name, decision := Invest,
                                   investmentThesis := thesis,
                                   bullCaseWeight := bull, bearCaseWeight := bear);
            d.unresolvedRisks == [] && d.riskMitigations == []
            && ValidateFinalDecision(d) == Ok(d)
  {
  }
}
