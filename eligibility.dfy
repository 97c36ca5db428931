/**
 * The rule-based eligibility scorer. Each program is scored against an applicant on three
 * criteria (investment 40, family size 30, net worth 20) and a program-type bonus (10);
 * every criterion the program constrains adds one explanation to either the matching
 * factors or the potential issues. `CheckEligibility` scores the candidate programs, keeps
 * those with a positive score, ranks them with a stable descending sort and answers with
 * the top five, their rounded mean score and a message chosen by their number.
 */
module Eligibility {
  import opened Wrappers
  import opened Schemas
  import Seqs
  import Rounding
  import StableSort
  import Currency

  /** The weights of the four parts of a match score. */
  const InvestmentWeight: int := 40
  const FamilyWeight: int := 30
  const NetWorthWeight: int := 20
  const PreferenceWeight: int := 10

  /** At most this many matches are returned. */
  const TopCount: nat := 5

  /** A nullable numeric column read as a condition: absent and zero both mean "no requirement". */
  predicate IsSet(o: Option<real>) {
    o.Some? && o.value != 0.0
  }

  predicate IsSetInt(o: Option<int>) {
    o.Some? && o.value != 0
  }

  /** What one criterion check concluded, with the explanation it appends (if any). */
  datatype CheckResult = NoRequirement | Met(factor: Explanation) | Unmet(issue: Explanation) {
    /** The boolean the check returns. */
    predicate Fit() {
      !Unmet?
    }

    /** What the check appends to the matching factors. */
    function Factors(): seq<Explanation> {
      if Met? then [factor] else []
    }

    /** What the check appends to the potential issues. */
    function Issues(): seq<Explanation> {
      if Unmet? then [issue] else []
    }
  }

  /** The applicant's budget expressed in the program's currency (the budget is in USD). */
  function ConvertedBudget(p: ResidencyProgram, r: EligibilityCheckRequest): real {
    Currency.ConvertCurrency(r.investmentBudget, "USD", p.investmentCurrency)
  }

  /**
   * The investment criterion: met when the converted budget reaches the program minimum;
   * otherwise the issue records the positive shortfall and the minimum.
   */
  function InvestmentCheck(p: ResidencyProgram, r: EligibilityCheckRequest): (c: CheckResult)
    ensures c.NoRequirement? <==> !IsSet(p.investmentMinAmount)
    ensures c.Fit() <==> !IsSet(p.investmentMinAmount)
                         || ConvertedBudget(p, r) >= p.investmentMinAmount.value
    ensures c.Met? ==> c.factor == InvestmentBudgetMeetsMinimum(r.investmentBudget)
    ensures c.Unmet? ==> c.issue.InvestmentShortfall? && c.issue.Keyword() == "shortfall"
    ensures c.Unmet? ==> c.issue.shortfall > 0.0
    ensures c.Unmet? ==> c.issue.currency == p.investmentCurrency
    ensures c.Unmet? ==> c.issue.required == p.investmentMinAmount.value
    ensures c.Unmet? ==> ConvertedBudget(p, r) + c.issue.shortfall == c.issue.required
  {
    if !IsSet(p.investmentMinAmount) then NoRequirement
    else
      var minimum := p.investmentMinAmount.value;
      var converted := ConvertedBudget(p, r);
      if converted >= minimum then Met(InvestmentBudgetMeetsMinimum(r.investmentBudget))
      else Unmet(InvestmentShortfall(p.investmentCurrency, minimum - converted, minimum))
  }

  /** The family criterion: met when the family is no larger than the program's limit. */
  function FamilyCheck(p: ResidencyProgram, r: EligibilityCheckRequest): (c: CheckResult)
    ensures c.NoRequirement? <==> !IsSetInt(p.familySizeLimit)
    ensures c.Fit() <==> !IsSetInt(p.familySizeLimit) || r.familySize <= p.familySizeLimit.value
    ensures c.Met? ==> c.factor.FamilySizeWithinLimit? && c.factor.Keyword() == "within"
    ensures c.Unmet? ==> c.issue.FamilySizeExceedsLimit? && c.issue.Keyword() == "exceeds"
    ensures c.Unmet? ==> c.issue.familySize > c.issue.limit == p.familySizeLimit.value
  {
    if !IsSetInt(p.familySizeLimit) then NoRequirement
    else
      var limit := p.familySizeLimit.value;
      if r.familySize <= limit then Met(FamilySizeWithinLimit(r.familySize, limit))
      else Unmet(FamilySizeExceedsLimit(r.familySize, limit))
  }

  /** The net-worth criterion: met when the applicant's net worth reaches the requirement. */
  function NetWorthCheck(p: ResidencyProgram, r: EligibilityCheckRequest): (c: CheckResult)
    ensures c.NoRequirement? <==> !IsSet(p.netWorthRequired)
    ensures c.Fit() <==> !IsSet(p.netWorthRequired) || r.netWorth >= p.netWorthRequired.value
    ensures c.Met? ==> c.factor == NetWorthMeetsRequirement(r.netWorth)
    ensures c.Unmet? ==> c.issue.NetWorthShortfall? && c.issue.Keyword() == "shortfall"
    ensures c.Unmet? ==> c.issue.shortfall > 0.0
    ensures c.Unmet? ==> r.netWorth + c.issue.shortfall == c.issue.required == p.netWorthRequired.value
  {
    if !IsSet(p.netWorthRequired) then NoRequirement
    else
      var required := p.netWorthRequired.value;
      if r.netWorth >= required then Met(NetWorthMeetsRequirement(r.netWorth))
      else Unmet(NetWorthShortfall(required - r.netWorth, required))
  }

  /**
   * The program-type bonus applies when the applicant stated a preference, the program has
   * a non-empty type, and the preference's value is that type.
   */
  predicate PreferenceMatches(p: ResidencyProgram, r: EligibilityCheckRequest) {
    && r.programTypePreference.Some?
    && p.programType.Some? && p.programType.value != ""
    && r.programTypePreference.value.Value() == p.programType.value
  }

  function Points(fit: bool, weight: int): int {
    if fit then weight else 0
  }

  /** The match score of a program for an applicant. */
  function MatchScore(p: ResidencyProgram, r: EligibilityCheckRequest): (s: int)
    ensures 0 <= s <= 100 && s % 10 == 0
    ensures s > 0 <== InvestmentCheck(p, r).Fit() || FamilyCheck(p, r).Fit()
                      || NetWorthCheck(p, r).Fit() || PreferenceMatches(p, r)
  {
    Points(InvestmentCheck(p, r).Fit(), InvestmentWeight)
    + Points(FamilyCheck(p, r).Fit(), FamilyWeight)
    + Points(NetWorthCheck(p, r).Fit(), NetWorthWeight)
    + Points(PreferenceMatches(p, r), PreferenceWeight)
  }

  /** The factor the bonus appends, if it applies. */
  function PreferenceFactors(p: ResidencyProgram, r: EligibilityCheckRequest): seq<Explanation> {
    if PreferenceMatches(p, r) then [MatchesPreferredType(r.programTypePreference.value.Value())] else []
  }

  /** The matching factors of a program, in the order the checks append them. */
  function MatchFactors(p: ResidencyProgram, r: EligibilityCheckRequest): seq<Explanation> {
    InvestmentCheck(p, r).Factors() + FamilyCheck(p, r).Factors() + NetWorthCheck(p, r).Factors()
    + PreferenceFactors(p, r)
  }

  /** The potential issues of a program, in the order the checks append them. */
  function MatchIssues(p: ResidencyProgram, r: EligibilityCheckRequest): seq<Explanation> {
    InvestmentCheck(p, r).Issues() + FamilyCheck(p, r).Issues() + NetWorthCheck(p, r).Issues()
  }

  /** The detail record of one program's match. */
  function MatchDetailOf(p: ResidencyProgram, r: EligibilityCheckRequest): (d: EligibilityMatchDetail)
    ensures ValidMatchDetail(d)
    ensures d.programId == p.id && d.programName == p.programName && d.country == p.country
    ensures d.matchScore == MatchScore(p, r)
    ensures d.investmentFit == InvestmentCheck(p, r).Fit()
    ensures d.familyFit == FamilyCheck(p, r).Fit()
    ensures d.netWorthFit == NetWorthCheck(p, r).Fit()
    ensures d.matchingFactors == MatchFactors(p, r) && d.potentialIssues == MatchIssues(p, r)
  {
    EligibilityMatchDetail(p.id, p.programName, p.country, MatchScore(p, r),
                           InvestmentCheck(p, r).Fit(), FamilyCheck(p, r).Fit(),
                           NetWorthCheck(p, r).Fit(), MatchFactors(p, r), MatchIssues(p, r))
  }

  /** A list of explanations owned by the caller, to which the checks append. */
  class ExplanationList {
    var items: seq<Explanation>

    constructor()
      ensures items == []
    {
      items := [];
    }

    method Append(e: Explanation)
      modifies this
      ensures items == old(items) + [e]
    {
      items := items + [e];
    }
  }

  /** Checks the investment criterion, appending its explanation to the caller's lists. */
  method CheckInvestmentFit(p: ResidencyProgram, r: EligibilityCheckRequest,
                            factors: ExplanationList, issues: ExplanationList)
    returns (fit: bool)
    requires factors != issues
    modifies factors, issues
    ensures fit == InvestmentCheck(p, r).Fit()
    ensures factors.items == old(factors.items) + InvestmentCheck(p, r).Factors()
    ensures issues.items == old(issues.items) + InvestmentCheck(p, r).Issues()
  {
    if !IsSet(p.investmentMinAmount) {
      return true;
    }
    var minimum := p.investmentMinAmount.value;
    var converted := Currency.ConvertCurrency(r.investmentBudget, "USD", p.investmentCurrency);
    if converted >= minimum {
      factors.Append(InvestmentBudgetMeetsMinimum(r.investmentBudget));
      return true;
    } else {
      var shortfall := minimum - converted;
      issues.Append(InvestmentShortfall(p.investmentCurrency, shortfall, minimum));
      return false;
    }
  }

  /** Checks the family-size criterion, appending its explanation to the caller's lists. */
  method CheckFamilyFit(p: ResidencyProgram, r: EligibilityCheckRequest,
                        factors: ExplanationList, issues: ExplanationList)
    returns (fit: bool)
    requires factors != issues
    modifies factors, issues
    ensures fit == FamilyCheck(p, r).Fit()
    ensures factors.items == old(factors.items) + FamilyCheck(p, r).Factors()
    ensures issues.items == old(issues.items) + FamilyCheck(p, r).Issues()
  {
    if !IsSetInt(p.familySizeLimit) {
      return true;
    }
    var limit := p.familySizeLimit.value;
    if r.familySize <= limit {
      factors.Append(FamilySizeWithinLimit(r.familySize, limit));
      return true;
    } else {
      issues.Append(FamilySizeExceedsLimit(r.familySize, limit));
      return false;
    }
  }

  /** Checks the net-worth criterion, appending its explanation to the caller's lists. */
  method CheckNetWorthFit(p: ResidencyProgram, r: EligibilityCheckRequest,
                          factors: ExplanationList, issues: ExplanationList)
    returns (fit: bool)
    requires factors != issues
    modifies factors, issues
    ensures fit == NetWorthCheck(p, r).Fit()
    ensures factors.items == old(factors.items) + NetWorthCheck(p, r).Factors()
    ensures issues.items == old(issues.items) + NetWorthCheck(p, r).Issues()
  {
    if !IsSet(p.netWorthRequired) {
      return true;
    }
    var required := p.netWorthRequired.value;
    if r.netWorth >= required {
      factors.Append(NetWorthMeetsRequirement(r.netWorth));
      return true;
    } else {
      var shortfall := required - r.netWorth;
      issues.Append(NetWorthShortfall(shortfall, required));
      return false;
    }
  }

  /**
   * Scores one program: runs the three checks on two fresh lists, adds their weights and
   * the preference bonus, and packs the lists into the detail record.
   */
  method CalculateMatchScore(p: ResidencyProgram, r: EligibilityCheckRequest)
    returns (score: int, detail: EligibilityMatchDetail)
    ensures score == MatchScore(p, r) && detail == MatchDetailOf(p, r)
    ensures 0 <= score <= 100 && score % 10 == 0
  {
    score := 0;
    var factors := new ExplanationList();
    var issues := new ExplanationList();
    var investmentFit := CheckInvestmentFit(p, r, factors, issues);
    if investmentFit {
      score := score + InvestmentWeight;
    }
    var familyFit := CheckFamilyFit(p, r, factors, issues);
    if familyFit {
      score := score + FamilyWeight;
    }
    var netWorthFit := CheckNetWorthFit(p, r, factors, issues);
    if netWorthFit {
      score := score + NetWorthWeight;
    }
    ghost var checked := InvestmentCheck(p, r).Factors() + FamilyCheck(p, r).Factors() + NetWorthCheck(p, r).Factors();
    assert [] + InvestmentCheck(p, r).Factors() == InvestmentCheck(p, r).Factors();
    assert [] + InvestmentCheck(p, r).Issues() == InvestmentCheck(p, r).Issues();
    assert factors.items == checked;
    assert issues.items == MatchIssues(p, r);
    if r.programTypePreference.Some? && p.programType.Some? && p.programType.value != "" {
      if r.programTypePreference.value.Value() == p.programType.value {
        score := score + PreferenceWeight;
        factors.Append(MatchesPreferredType(r.programTypePreference.value.Value()));
      }
    }
    assert score == Points(investmentFit, InvestmentWeight) + Points(familyFit, FamilyWeight)
                    + Points(netWorthFit, NetWorthWeight) + Points(PreferenceMatches(p, r), PreferenceWeight);
    assert score == MatchScore(p, r);
    assert factors.items == checked + PreferenceFactors(p, r) == MatchFactors(p, r);
    detail := EligibilityMatchDetail(p.id, p.programName, p.country, score,
                                     investmentFit, familyFit, netWorthFit,
                                     factors.items, issues.items);
    ghost var expected := MatchDetailOf(p, r);
    assert detail == expected;
  }

  /** The score is 100 exactly when every criterion fits and the preference bonus applies. */
  lemma PerfectScoreIff(p: ResidencyProgram, r: EligibilityCheckRequest)
    ensures MatchScore(p, r) == 100 <==>
      InvestmentCheck(p, r).Fit() && FamilyCheck(p, r).Fit() && NetWorthCheck(p, r).Fit()
      && PreferenceMatches(p, r)
  {
  }

  /** Missing the investment minimum caps the score at 60. */
  lemma InvestmentShortfallCapsScore(p: ResidencyProgram, r: EligibilityCheckRequest)
    requires IsSet(p.investmentMinAmount)
    requires ConvertedBudget(p, r) < p.investmentMinAmount.value
    ensures MatchScore(p, r) <= 60
  {
  }

  /**
   * A program with no requirement at all (no minimum, no limit, no net worth, or zeros)
   * fits on all three criteria and explains nothing about them.
   */
  lemma UnconstrainedProgramFits(p: ResidencyProgram, r: EligibilityCheckRequest)
    requires !IsSet(p.investmentMinAmount) && !IsSetInt(p.familySizeLimit) && !IsSet(p.netWorthRequired)
    ensures MatchScore(p, r) >= 90
    ensures MatchIssues(p, r) == []
    ensures MatchFactors(p, r) == PreferenceFactors(p, r)
  {
  }

  /** For a program priced in dollars the budget is compared unconverted. */
  lemma UsdProgramComparesBudget(p: ResidencyProgram, r: EligibilityCheckRequest)
    requires p.investmentCurrency == "USD" && IsSet(p.investmentMinAmount)
    ensures InvestmentCheck(p, r).Fit() <==> r.investmentBudget >= p.investmentMinAmount.value
  {
  }

  /** Every constrained criterion contributes exactly one explanation, to one of the two lists. */
  lemma OneExplanationPerConstraint(p: ResidencyProgram, r: EligibilityCheckRequest)
    ensures |MatchFactors(p, r)| + |MatchIssues(p, r)| ==
      (if IsSet(p.investmentMinAmount) then 1 else 0)
      + (if IsSetInt(p.familySizeLimit) then 1 else 0)
      + (if IsSet(p.netWorthRequired) then 1 else 0)
      + (if PreferenceMatches(p, r) then 1 else 0)
    ensures |MatchIssues(p, r)| ==
      (if InvestmentCheck(p, r).Fit() then 0 else 1)
      + (if FamilyCheck(p, r).Fit() then 0 else 1)
      + (if NetWorthCheck(p, r).Fit() then 0 else 1)
  {
  }

  /**
   * Stating a preference that matches adds exactly 10 points and one trailing factor;
   * any other preference leaves score, factors and issues as they are without one.
   */
  lemma PreferenceEffect(p: ResidencyProgram, r: EligibilityCheckRequest)
    ensures var r0 := r.(programTypePreference := None);
      && MatchScore(p, r) == MatchScore(p, r0) + (if PreferenceMatches(p, r) then 10 else 0)
      && MatchFactors(p, r) == MatchFactors(p, r0)
           + (if PreferenceMatches(p, r) then [MatchesPreferredType(p.programType.value)] else [])
      && MatchIssues(p, r) == MatchIssues(p, r0)
  {
    var r0 := r.(programTypePreference := None);
    assert InvestmentCheck(p, r) == InvestmentCheck(p, r0);
    assert FamilyCheck(p, r) == FamilyCheck(p, r0);
    assert NetWorthCheck(p, r) == NetWorthCheck(p, r0);
  }

  /** A program whose type is "other" never earns the bonus, whatever the preference. */
  lemma OtherTypeNeverMatches(p: ResidencyProgram, r: EligibilityCheckRequest)
    requires p.programType == Some("other")
    ensures !PreferenceMatches(p, r)
    ensures MatchScore(p, r) <= 90
  {
    if PreferenceMatches(p, r) {
      ProgramTypeRoundTrip(r.programTypePreference.value);
      OtherIsNotAProgramType();
      assert false;
    }
  }

  /**
   * A richer applicant never scores lower: more budget, more net worth, a family no larger,
   * with the same preference.
   */
  lemma {:induction false} ScoreMonotone(p: ResidencyProgram, r1: EligibilityCheckRequest, r2: EligibilityCheckRequest)
    requires r1.investmentBudget <= r2.investmentBudget
    requires r1.netWorth <= r2.netWorth
    requires r2.familySize <= r1.familySize
    requires r1.programTypePreference == r2.programTypePreference
    ensures MatchScore(p, r1) <= MatchScore(p, r2)
  {
    Currency.ConvertMonotone(r1.investmentBudget, r2.investmentBudget, "USD", p.investmentCurrency);
  }

  /** A program together with its score and detail, as collected before sorting. */
  datatype Match = Match(program: ResidencyProgram, score: int, detail: EligibilityMatchDetail)

  /** The sort key: the score. */
  function MatchKey(m: Match): real {
    m.score as real
  }

  /** The country filter is on when the applicant names a non-empty country. */
  predicate CountryFilterOn(r: EligibilityCheckRequest) {
    r.countryPreference.Some? && r.countryPreference.value != ""
  }

  /** The programs considered: all of them, or those whose country equals the preference. */
  function Candidates(programs: seq<ResidencyProgram>, r: EligibilityCheckRequest): (c: seq<ResidencyProgram>)
    ensures forall p :: p in c ==> p in programs
    ensures CountryFilterOn(r) ==> forall p :: p in c <==> p in programs && p.country == r.countryPreference.value
    ensures !CountryFilterOn(r) ==> c == programs
  {
    if CountryFilterOn(r) then Seqs.Filter(programs, (p: ResidencyProgram) => p.country == r.countryPreference.value)
    else programs
  }

  /** The match of one program, when its score is positive. */
  function MatchOf(p: ResidencyProgram, r: EligibilityCheckRequest): seq<Match> {
    if MatchScore(p, r) > 0 then [Match(p, MatchScore(p, r), MatchDetailOf(p, r))] else []
  }

  /** The positively scored programs with their scores and details, in query order. */
  function ScoredMatches(programs: seq<ResidencyProgram>, r: EligibilityCheckRequest): (ms: seq<Match>)
    ensures |ms| <= |programs|
    ensures forall m :: m in ms ==> m.program in programs && m.score > 0
    ensures forall m :: m in ms ==> m.score == MatchScore(m.program, r) && m.detail == MatchDetailOf(m.program, r)
    ensures forall p :: p in programs && MatchScore(p, r) > 0 ==> Match(p, MatchScore(p, r), MatchDetailOf(p, r)) in ms
  {
    if programs == [] then []
    else ScoredMatches(programs[..|programs| - 1], r) + MatchOf(programs[|programs| - 1], r)
  }

  /** The matches in descending score order, ties in query order. */
  function Ranked(programs: seq<ResidencyProgram>, r: EligibilityCheckRequest): seq<Match> {
    StableSort.Sort(ScoredMatches(Candidates(programs, r), r), MatchKey)
  }

  function Min(a: int, b: int): int {
    if a < b then a else b
  }

  /** The best five matches, or all of them when there are fewer. */
  function TopMatches(programs: seq<ResidencyProgram>, r: EligibilityCheckRequest): (top: seq<Match>)
    ensures |top| <= TopCount
    ensures |top| == Min(TopCount, |ScoredMatches(Candidates(programs, r), r)|)
  {
    var ranked := Ranked(programs, r);
    ranked[..Min(TopCount, |ranked|)]
  }

  /** The sum of the scores of some matches. */
  function SumScores(ms: seq<Match>): int {
    if ms == [] then 0 else SumScores(ms[..|ms| - 1]) + ms[|ms| - 1].score
  }

  /** The overall eligibility score: the mean score rounded to two places, 0 without matches. */
  function OverallScore(top: seq<Match>): real {
    if top == [] then 0.0 else Rounding.Round2(SumScores(top) as real / |top| as real)
  }

  /** The message, chosen by the number of matches; a single match cites the budget. */
  function MessageFor(count: nat, budget: real): (m: Message)
    ensures m.NoMatchingPrograms? <==> count == 0
    ensures m.FoundOneProgram? <==> count == 1
    ensures m.FoundOneProgram? ==> m.investmentBudget == budget
    ensures m.FoundPrograms? ==> m.count == count >= 2
  {
    if count == 0 then NoMatchingPrograms
    else if count == 1 then FoundOneProgram(budget)
    else FoundPrograms(count)
  }

  function ProgramsOf(ms: seq<Match>): (ps: seq<ResidencyProgram>)
    ensures |ps| == |ms| && forall i :: 0 <= i < |ms| ==> ps[i] == ms[i].program
  {
    if ms == [] then [] else ProgramsOf(ms[..|ms| - 1]) + [ms[|ms| - 1].program]
  }

  /** The response to a request, given the program table in query order and the request id and time. */
  function EligibilityResponseOf(programs: seq<ResidencyProgram>, r: EligibilityCheckRequest,
                                 requestId: string, timestamp: string): EligibilityCheckResponse
  {
    var top := TopMatches(programs, r);
    EligibilityCheckResponse(requestId, "success", timestamp, ProgramsOf(top), OverallScore(top),
                             MessageFor(|top|, r.investmentBudget))
  }

  /**
   * Answers an eligibility request: scores every candidate in query order, keeps the
   * positive scores, sorts them in place by descending score, and summarises the top five.
   */
  method CheckEligibility(programs: seq<ResidencyProgram>, r: EligibilityCheckRequest,
                          requestId: string, timestamp: string)
    returns (response: EligibilityCheckResponse)
    ensures response == EligibilityResponseOf(programs, r, requestId, timestamp)
    ensures ValidResponse(response)
  {
    var matches := ScorePrograms(Candidates(programs, r), r);
    var top := TopOf(matches);
    response := EligibilityCheckResponse(requestId, "success", timestamp, ProgramsOf(top),
                                         OverallScore(top), MessageFor(|top|, r.investmentBudget));
    ResponseIsValid(programs, r, requestId, timestamp);
  }

  /** Scores every candidate in query order and keeps those that scored above 0. */
  method ScorePrograms(candidates: seq<ResidencyProgram>, r: EligibilityCheckRequest) returns (matches: seq<Match>)
    ensures matches == ScoredMatches(candidates, r)
  {
    matches := [];
    for i := 0 to |candidates|
      invariant matches == ScoredMatches(candidates[..i], r)
    {
      var score, detail := CalculateMatchScore(candidates[i], r);
      ScoredMatchesStep(candidates, i, r);
      if score > 0 {
        matches := matches + [Match(candidates[i], score, detail)];
      }
    }
    assert candidates[..|candidates|] == candidates;
  }

  /** Sorts the matches in place by descending score, ties keeping their order, and keeps the first five. */
  method TopOf(matches: seq<Match>) returns (top: seq<Match>)
    ensures var sorted := StableSort.Sort(matches, MatchKey); top == sorted[..Min(TopCount, |sorted|)]
  {
    var a := new Match[|matches|](k requires 0 <= k < |matches| => matches[k]);
    assert a[..] == matches;
    StableSort.SortDescending(a, MatchKey);
    top := a[..Min(TopCount, a.Length)];
  }

  /** Scoring one more candidate extends the matches by that candidate's match, if any. */
  lemma ScoredMatchesStep(candidates: seq<ResidencyProgram>, i: nat, r: EligibilityCheckRequest)
    requires i < |candidates|
    ensures ScoredMatches(candidates[..i + 1], r) == ScoredMatches(candidates[..i], r) + MatchOf(candidates[i], r)
  {
    assert candidates[..i + 1][..i] == candidates[..i];
  }

  /** The response has at most five programs and an overall score within [0, 100]. */
  lemma ResponseIsValid(programs: seq<ResidencyProgram>, r: EligibilityCheckRequest,
                        requestId: string, timestamp: string)
    ensures ValidResponse(EligibilityResponseOf(programs, r, requestId, timestamp))
    ensures |EligibilityResponseOf(programs, r, requestId, timestamp).matchingPrograms| <= TopCount
  {
    var top := TopMatches(programs, r);
    if top != [] {
      TopScoresPositive(programs, r);
      OverallScoreBetween(top, 10, 100);
    }
  }

  /** Every returned match scored above 0, and its score is its program's match score. */
  lemma {:induction false} TopScoresPositive(programs: seq<ResidencyProgram>, r: EligibilityCheckRequest)
    ensures forall m :: m in TopMatches(programs, r) ==>
      m.score > 0 && m.score == MatchScore(m.program, r) && m.detail == MatchDetailOf(m.program, r)
    ensures forall m :: m in TopMatches(programs, r) ==> 10 <= m.score <= 100
    ensures CountryFilterOn(r) ==>
      forall m :: m in TopMatches(programs, r) ==> m.program.country == r.countryPreference.value
    ensures forall m :: m in TopMatches(programs, r) ==> m.program in programs
  {
    var scored := ScoredMatches(Candidates(programs, r), r);
    StableSort.SortPermutes(scored, MatchKey);
    forall m | m in TopMatches(programs, r)
      ensures m in scored
    {
      assert m in multiset(StableSort.Sort(scored, MatchKey));
    }
  }

  /** The returned matches are in descending score order. */
  lemma {:induction false} TopMatchesSorted(programs: seq<ResidencyProgram>, r: EligibilityCheckRequest)
    ensures forall i, j :: 0 <= i < j < |TopMatches(programs, r)| ==>
      TopMatches(programs, r)[i].score >= TopMatches(programs, r)[j].score
  {
    var scored := ScoredMatches(Candidates(programs, r), r);
    StableSort.SortIsSorted(scored, MatchKey);
  }

  /**
   * The returned matches are the best ones: a positively scored candidate is left out only
   * when five matches are returned, each scoring at least as high as it.
   */
  lemma {:induction false} TopMatchesAreBest(programs: seq<ResidencyProgram>, r: EligibilityCheckRequest,
                                             p: ResidencyProgram)
    requires p in Candidates(programs, r) && MatchScore(p, r) > 0
    ensures var m := Match(p, MatchScore(p, r), MatchDetailOf(p, r));
      m in TopMatches(programs, r)
      || (|TopMatches(programs, r)| == TopCount && forall t :: t in TopMatches(programs, r) ==> t.score >= m.score)
  {
    var scored := ScoredMatches(Candidates(programs, r), r);
    var m := Match(p, MatchScore(p, r), MatchDetailOf(p, r));
    assert m in scored;
    StableSort.SortPrefixDominates(scored, MatchKey, TopCount, m);
    var top := TopMatches(programs, r);
    var sorted := StableSort.Sort(scored, MatchKey);
    assert top == sorted[..if TopCount < |scored| then TopCount else |scored|];
    if |scored| <= TopCount {
      StableSort.SortPermutes(scored, MatchKey);
      assert m in multiset(sorted);
      assert top == sorted;
    }
    if m !in top {
      assert |top| == TopCount;
      forall t | t in top
        ensures t.score >= m.score
      {
        assert MatchKey(t) >= MatchKey(m);
      }
    }
  }

  /** Ties keep query order: the matches with any one score appear as they were scored. */
  lemma {:induction false} RankingIsStable(programs: seq<ResidencyProgram>, r: EligibilityCheckRequest, v: int)
    ensures StableSort.WithKey(Ranked(programs, r), MatchKey, v as real)
         == StableSort.WithKey(ScoredMatches(Candidates(programs, r), r), MatchKey, v as real)
  {
    StableSort.SortIsStable(ScoredMatches(Candidates(programs, r), r), MatchKey, v as real);
  }

  /** Sums of bounded scores are bounded. */
  lemma {:induction false} SumScoresBetween(ms: seq<Match>, lo: int, hi: int)
    requires forall m :: m in ms ==> lo <= m.score <= hi
    ensures lo * |ms| <= SumScores(ms) <= hi * |ms|
  {
    if ms != [] {
      var init := ms[..|ms| - 1];
      var n, last := |init|, ms[|ms| - 1];
      assert forall m :: m in init ==> m in ms;
      assert last in ms;
      SumScoresBetween(init, lo, hi);
      assert SumScores(ms) == SumScores(init) + last.score;
      assert |ms| == n + 1;
      BoundsStep(SumScores(init), last.score, n, lo, hi);
    }
  }

  /** Adding a value within [lo, hi] to a sum of n such values gives a sum of n + 1 of them. */
  lemma BoundsStep(sum: int, x: int, n: nat, lo: int, hi: int)
    requires lo * n <= sum <= hi * n && lo <= x <= hi
    ensures lo * (n + 1) <= sum + x <= hi * (n + 1)
  {
    assert lo * (n + 1) == lo * n + lo;
    assert hi * (n + 1) == hi * n + hi;
  }

  /** A mean of values within [lo, hi] is within [lo, hi]. */
  lemma MeanBetween(sum: real, n: real, lo: real, hi: real)
    requires n > 0.0 && lo * n <= sum <= hi * n
    ensures lo <= sum / n <= hi
  {
    var q := sum / n;
    assert q * n == sum;
    if q < lo {
      MulStrict(q, lo, n);
    }
    if q > hi {
      MulStrict(hi, q, n);
    }
  }

  lemma MulStrict(u: real, v: real, n: real)
    requires u < v && n > 0.0
    ensures u * n < v * n
  {
    assert (v - u) * n > 0.0;
  }

  /**
   * When every returned score lies within [lo, hi], so does the overall eligibility score;
   * in particular it lies between the lowest and the highest returned score.
   */
  lemma {:induction false} OverallScoreBetween(top: seq<Match>, lo: int, hi: int)
    requires top != []
    requires forall m :: m in top ==> lo <= m.score <= hi
    ensures lo as real <= OverallScore(top) <= hi as real
  {
    SumScoresBetween(top, lo, hi);
    var n := |top|;
    ProductAsReal(lo, n);
    ProductAsReal(hi, n);
    MeanBetween(SumScores(top) as real, n as real, lo as real, hi as real);
    Rounding.Round2Between(SumScores(top) as real / n as real, lo * 100, hi * 100);
  }

  lemma ProductAsReal(a: int, b: int)
    ensures (a * b) as real == a as real * b as real
  {
  }

  /** Without matches the answer is "no matching programs" with score 0. */
  lemma NoMatchesResponse(programs: seq<ResidencyProgram>, r: EligibilityCheckRequest,
                          requestId: string, timestamp: string)
    requires TopMatches(programs, r) == []
    ensures EligibilityResponseOf(programs, r, requestId, timestamp).matchingPrograms == []
    ensures EligibilityResponseOf(programs, r, requestId, timestamp).eligibilityScore == 0.0
    ensures EligibilityResponseOf(programs, r, requestId, timestamp).message.Keyword() == "no matching programs"
  {
  }

  /** An empty program table always yields the "no matching programs" answer. */
  lemma {:induction false} EmptyTableHasNoMatches(r: EligibilityCheckRequest, requestId: string, timestamp: string)
    ensures EligibilityResponseOf([], r, requestId, timestamp).message == NoMatchingPrograms
    ensures EligibilityResponseOf([], r, requestId, timestamp).eligibilityScore == 0.0
  {
    assert Candidates([], r) == [];
    assert ScoredMatches([], r) == [];
  }

  /**
   * The EB-5 example: a USD 500,000 minimum, a family limit of 10 and USD 750,000 net
   * worth, against a USD 1,000,000 budget, USD 2,000,000 net worth and a family of 4.
   * All three criteria fit (90); asking for an investor program adds the bonus (100).
   */
  lemma Eb5Example()
    ensures var p := ResidencyProgram(1, "United States", "EB-5 Immigrant Investor Program", "USD",
                                      Some(500000.0), Some(1000000.0), Some(10), Some(750000.0),
                                      Some("investor"));
            var r := EligibilityCheckRequest(1000000.0, 2000000.0, 4, None, None, None);
            && MatchScore(p, r) == 90
            && MatchScore(p, r.(programTypePreference := Some(Investor))) == 100
            && MatchScore(p, r.(programTypePreference := Some(Startup))) == 90
            && MatchIssues(p, r) == []
            && |MatchFactors(p, r)| == 3
  {
  }

  /**
   * A budget of USD 10,000 does not rule everything out: a table holding the skilled-worker
   * program (no investment minimum, family limit 10, no net-worth requirement) answers with
   * at least one match, because that program scores 90 (family 30, net worth 20, investment 40).
   */
  lemma {:induction false} LowBudgetStillMatches(programs: seq<ResidencyProgram>, requestId: string, timestamp: string)
    requires ResidencyProgram(5, "Canada", "Federal Skilled Worker Program", "CAD", None, None, Some(10), None,
                              Some("employment")) in programs
    ensures var r := EligibilityCheckRequest(10000.0, 10000.0, 1, None, None, None);
            && |TopMatches(programs, r)| >= 1
            && EligibilityResponseOf(programs, r, requestId, timestamp).message != NoMatchingPrograms
  {
    var p := ResidencyProgram(5, "Canada", "Federal Skilled Worker Program", "CAD", None, None, Some(10), None,
                              Some("employment"));
    var r := EligibilityCheckRequest(10000.0, 10000.0, 1, None, None, None);
    assert MatchScore(p, r) == 90;
    var scored := ScoredMatches(Candidates(programs, r), r);
    assert Match(p, 90, MatchDetailOf(p, r)) in scored;
    StableSort.SortPermutes(scored, MatchKey);
    assert |scored| >= 1;
    assert |multiset(Ranked(programs, r))| == |multiset(scored)|;
  }
}
