/**
 * The request and response records of the residency eligibility service, with the range
 * constraints their validating constructors enforce. A record that passes its constructor
 * satisfies the matching `Valid...` predicate, which the scorer then relies on or
 * establishes.
 */
module Schemas {
  import opened Wrappers

  /** The seven program types an applicant may ask for. "other" is deliberately not one. */
  datatype ProgramType = Investor | Employment | Startup | Student | Retired | Family | Citizenship {
    /** The enumeration member's string value. */
    function Value(): string {
      match this
      case Investor => "investor"
      case Employment => "employment"
      case Startup => "startup"
      case Student => "student"
      case Retired => "retired"
      case Family => "family"
      case Citizenship => "citizenship"
    }
  }

  /** Coercion of a string to the enumeration: the member with that value, if any. */
  function ParseProgramType(s: string): (t: Option<ProgramType>)
    ensures t.Some? ==> t.value.Value() == s
    ensures t.None? <==> forall pt: ProgramType :: pt.Value() != s
  {
    if s == "investor" then Some(Investor)
    else if s == "employment" then Some(Employment)
    else if s == "startup" then Some(Startup)
    else if s == "student" then Some(Student)
    else if s == "retired" then Some(Retired)
    else if s == "family" then Some(Family)
    else if s == "citizenship" then Some(Citizenship)
    else None
  }

  /** Every member's value parses back to that member, so values are pairwise distinct. */
  lemma ProgramTypeRoundTrip(t: ProgramType)
    ensures ParseProgramType(t.Value()) == Some(t)
  {
  }

  /** No program type has the value "other". */
  lemma OtherIsNotAProgramType()
    ensures ParseProgramType("other") == None
  {
  }

  /** The applicant profile. Budget and net worth are in USD. */
  datatype EligibilityCheckRequest = EligibilityCheckRequest(
    investmentBudget: real,
    netWorth: real,
    familySize: int,
    age: Option<int>,
    countryPreference: Option<string>,
    programTypePreference: Option<ProgramType>)

  /** The field constraints of a request that passed validation. */
  predicate ValidRequest(r: EligibilityCheckRequest) {
    && r.investmentBudget > 0.0
    && r.netWorth >= 0.0
    && 1 <= r.familySize <= 20
    && (r.age.Some? ==> 18 <= r.age.value <= 120)
  }

  /** One violated field constraint. */
  datatype FieldError =
    | InvestmentBudgetNotPositive
    | NetWorthNegative
    | FamilySizeOutOfRange
    | AgeOutOfRange
    | AmountNotPositive

  /** The explicit budget validator, run after the field's own `> 0` constraint. */
  function ValidateInvestment(v: real): (r: Result<real, FieldError>)
    ensures r.Success? <==> v > 0.0
    ensures r.Success? ==> r.value == v
  {
    if v <= 0.0 then Failure(InvestmentBudgetNotPositive) else Success(v)
  }

  /** Every violated constraint of a request, in field order. */
  function RequestErrors(budget: real, netWorth: real, familySize: int, age: Option<int>): seq<FieldError> {
    (if budget > 0.0 && ValidateInvestment(budget).Success? then [] else [InvestmentBudgetNotPositive])
    + (if netWorth >= 0.0 then [] else [NetWorthNegative])
    + (if 1 <= familySize <= 20 then [] else [FamilySizeOutOfRange])
    + (if age.None? || 18 <= age.value <= 120 then [] else [AgeOutOfRange])
  }

  /**
   * Builds a request from raw fields as the validating constructor does: an omitted family
   * size defaults to 1, and every violated constraint is reported.
   */
  function NewEligibilityCheckRequest(
    budget: real, netWorth: real, familySize: Option<int>, age: Option<int>,
    countryPreference: Option<string>, programTypePreference: Option<ProgramType>
  ): (r: Result<EligibilityCheckRequest, seq<FieldError>>)
    ensures r.Success? <==>
      budget > 0.0 && netWorth >= 0.0 && 1 <= familySize.GetOr(1) <= 20
      && (age.Some? ==> 18 <= age.value <= 120)
    ensures r.Success? ==> ValidRequest(r.value)
    ensures r.Success? ==> r.value == EligibilityCheckRequest(
      budget, netWorth, familySize.GetOr(1), age, countryPreference, programTypePreference)
    ensures r.Failure? ==> r.error != []
    ensures r.Failure? ==> (InvestmentBudgetNotPositive in r.error <==> budget <= 0.0)
    ensures r.Failure? ==> (NetWorthNegative in r.error <==> netWorth < 0.0)
    ensures r.Failure? ==> (FamilySizeOutOfRange in r.error <==> !(1 <= familySize.GetOr(1) <= 20))
    ensures r.Failure? ==> (AgeOutOfRange in r.error <==> age.Some? && !(18 <= age.value <= 120))
  {
    var errors := RequestErrors(budget, netWorth, familySize.GetOr(1), age);
    if errors == [] then
      Success(EligibilityCheckRequest(budget, netWorth, familySize.GetOr(1), age,
                                      countryPreference, programTypePreference))
    else
      Failure(errors)
  }

  /** The public listing of one residency program (only the fields the scorer reads). */
  datatype ResidencyProgram = ResidencyProgram(
    id: int,
    country: string,
    programName: string,
    investmentCurrency: string,
    investmentMinAmount: Option<real>,
    investmentMaxAmount: Option<real>,
    familySizeLimit: Option<int>,
    netWorthRequired: Option<real>,
    programType: Option<string>)

  /** One explanation line of a match, by the template it is formatted from. */
  datatype Explanation =
    | InvestmentBudgetMeetsMinimum(budget: real)
    | InvestmentShortfall(currency: string, shortfall: real, required: real)
    | FamilySizeWithinLimit(familySize: int, limit: int)
    | FamilySizeExceedsLimit(familySize: int, limit: int)
    | NetWorthMeetsRequirement(netWorth: real)
    | NetWorthShortfall(shortfall: real, required: real)
    | MatchesPreferredType(programType: string)
  {
    /** The lower-case key word that the formatted message carries. */
    function Keyword(): string {
      match this
      case InvestmentBudgetMeetsMinimum(_) => "meets"
      case InvestmentShortfall(_, _, _) => "shortfall"
      case FamilySizeWithinLimit(_, _) => "within"
      case FamilySizeExceedsLimit(_, _) => "exceeds"
      case NetWorthMeetsRequirement(_) => "meets"
      case NetWorthShortfall(_, _) => "shortfall"
      case MatchesPreferredType(_) => "matches"
    }
  }

  /** The per-program result of scoring. */
  datatype EligibilityMatchDetail = EligibilityMatchDetail(
    programId: int,
    programName: string,
    country: string,
    matchScore: int,
    investmentFit: bool,
    familyFit: bool,
    netWorthFit: bool,
    matchingFactors: seq<Explanation>,
    potentialIssues: seq<Explanation>)

  /** The detail's score constraint: between 0 and 100. */
  predicate ValidMatchDetail(d: EligibilityMatchDetail) {
    0 <= d.matchScore <= 100
  }

  /** The summary message of a response, by the template it is formatted from. */
  datatype Message =
    | NoMatchingPrograms
    | FoundOneProgram(investmentBudget: real)
    | FoundPrograms(count: nat)
  {
    /** The lower-case phrase that the formatted message carries. */
    function Keyword(): string {
      match this
      case NoMatchingPrograms => "no matching programs"
      case FoundOneProgram(_) => "found 1 matching program"
      case FoundPrograms(_) => "matching programs"
    }
  }

  datatype EligibilityCheckResponse = EligibilityCheckResponse(
    requestId: string,
    status: string,
    timestamp: string,
    matchingPrograms: seq<ResidencyProgram>,
    eligibilityScore: real,
    message: Message)

  /** The response's field constraints: at most ten programs, an overall score in [0, 100]. */
  predicate ValidResponse(r: EligibilityCheckResponse) {
    |r.matchingPrograms| <= 10 && 0.0 <= r.eligibilityScore <= 100.0
  }

  datatype CurrencyConversionRequest = CurrencyConversionRequest(
    amount: real,
    fromCurrency: string,
    toCurrency: string)

  /** Builds a conversion request: a positive amount, USD to EUR unless stated otherwise. */
  function NewCurrencyConversionRequest(amount: real, fromCurrency: Option<string>, toCurrency: Option<string>)
    : (r: Result<CurrencyConversionRequest, FieldError>)
    ensures r.Success? <==> amount > 0.0
    ensures r.Success? ==> r.value.amount == amount
    ensures r.Success? ==> r.value.fromCurrency == fromCurrency.GetOr("USD")
    ensures r.Success? ==> r.value.toCurrency == toCurrency.GetOr("EUR")
  {
    if amount > 0.0 then
      Success(CurrencyConversionRequest(amount, fromCurrency.GetOr("USD"), toCurrency.GetOr("EUR")))
    else
      Failure(AmountNotPositive)
  }
}
