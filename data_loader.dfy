/**
 * The three string parsers of the residency data loader: the program-type guess from a
 * program's name, the investment range with its currency, and the processing time in
 * months. Each is a pure function of its input string.
 */
module DataLoader {
  import opened Wrappers
  import opened Text
  import Seqs
  import Currency

  /** The keyword lists of each program type, in the table's (and the search's) order. */
  const ProgramTypeKeywords: seq<(string, seq<string>)> := [
    ("investor", ["investor", "investment", "visa", "entrepreneur", "startup", "founder"]),
    ("employment", ["work", "skilled", "professional", "employee", "employment"]),
    ("student", ["student", "study", "graduate", "education"]),
    ("retired", ["retirement", "retired", "pensioner", "retiree", "passive income"]),
    ("family", ["family", "spouse", "dependent", "reunion"]),
    ("citizenship", ["citizenship", "naturalization"])
  ]

  /** Every value `InferProgramType` can return. */
  const InferredTypes: set<string> :=
    {"investor", "employment", "student", "retired", "family", "citizenship", "other"}

  /** Some keyword of the list occurs in `text`. */
  predicate AnyOccurs(text: string, keywords: seq<string>) {
    exists k :: k in keywords && Contains(text, k)
  }

  /** The first type of the table (from `start` on) with a keyword occurring in `text`. */
  function FirstTypeHit(text: string, table: seq<(string, seq<string>)>): (t: Option<string>)
    ensures t.Some? ==> exists j :: 0 <= j < |table| && table[j].0 == t.value && AnyOccurs(text, table[j].1)
    ensures t.Some? ==> exists j :: 0 <= j < |table| && table[j].0 == t.value
                         && forall e :: 0 <= e < j ==> !AnyOccurs(text, table[e].1)
    ensures t.None? <==> forall j :: 0 <= j < |table| ==> !AnyOccurs(text, table[j].1)
  {
    if table == [] then None
    else if AnyOccurs(text, table[0].1) then Some(table[0].0)
    else
      var rest := FirstTypeHit(text, table[1..]);
      assert forall j :: 1 <= j < |table| ==> table[j] == table[1..][j - 1];
      rest
  }

  /**
   * Guesses a program's type: the first type whose keyword occurs in the lower-cased name;
   * failing that "investor" when "investment" occurs in the lower-cased `programInfo`, else
   * "other". `programInfo` stands for `str(program_info)`, the text form of the program's
   * record; how a dict is rendered as text is not modelled.
   */
  function InferProgramType(programName: string, programInfo: string): (t: string)
    ensures t in InferredTypes
  {
    TableTypes();
    match FirstTypeHit(Lower(programName), ProgramTypeKeywords)
    case Some(hit) => hit
    case None => if Contains(Lower(programInfo), "investment") then "investor" else "other"
  }

  /** Every type of the keyword table is a possible result, and none of them is "startup". */
  lemma TableTypes()
    ensures forall j :: 0 <= j < |ProgramTypeKeywords| ==>
      ProgramTypeKeywords[j].0 in InferredTypes && ProgramTypeKeywords[j].0 != "startup"
  {
  }

  /** Any name in which "visa" occurs (in any letter case) is taken for an investor program. */
  lemma VisaNamesAreInvestor(programName: string, programInfo: string)
    requires Contains(Lower(programName), "visa")
    ensures InferProgramType(programName, programInfo) == "investor"
  {
    assert AnyOccurs(Lower(programName), ProgramTypeKeywords[0].1);
  }

  /**
   * The inferred type is the earliest type of the table with a keyword in the name: a
   * name hit never yields a type listed after another hit.
   */
  lemma {:induction false} InferredTypeIsFirstHit(programName: string, programInfo: string, j: nat)
    requires j < |ProgramTypeKeywords| && AnyOccurs(Lower(programName), ProgramTypeKeywords[j].1)
    ensures exists e :: 0 <= e <= j && InferProgramType(programName, programInfo) == ProgramTypeKeywords[e].0
  {
    var t := FirstTypeHit(Lower(programName), ProgramTypeKeywords);
    var e :| 0 <= e < |ProgramTypeKeywords| && ProgramTypeKeywords[e].0 == t.value
             && forall e' :: 0 <= e' < e ==> !AnyOccurs(Lower(programName), ProgramTypeKeywords[e'].1);
    assert e <= j;
  }

  /** Without a keyword in the name, the record's text decides between "investor" and "other". */
  lemma NoNameHitFallsBack(programName: string, programInfo: string)
    requires forall j :: 0 <= j < |ProgramTypeKeywords| ==> !AnyOccurs(Lower(programName), ProgramTypeKeywords[j].1)
    ensures InferProgramType(programName, programInfo) ==
      (if Contains(Lower(programInfo), "investment") then "investor" else "other")
  {
  }

  /** The currency named in an investment string: the first symbol or code found, else USD. */
  function DetectCurrency(s: string): (c: string)
    ensures c in Currency.CurrencyRates
    ensures Contains(s, "€") ==> c == "EUR"
    ensures !Contains(s, "€") && Contains(s, "£") ==> c == "GBP"
    ensures !Contains(s, "€") && !Contains(s, "£") && Contains(s, "CAD") ==> c == "CAD"
    ensures !Contains(s, "€") && !Contains(s, "£") && !Contains(s, "CAD") && Contains(s, "AUD") ==> c == "AUD"
    ensures (!Contains(s, "€") && !Contains(s, "£") && !Contains(s, "CAD") && !Contains(s, "AUD")
             && Contains(s, "SGD")) ==> c == "SGD"
    ensures (!Contains(s, "€") && !Contains(s, "£") && !Contains(s, "CAD") && !Contains(s, "AUD")
             && !Contains(s, "SGD") && Contains(s, "AED")) ==> c == "AED"
    ensures (!Contains(s, "€") && !Contains(s, "£") && !Contains(s, "CAD") && !Contains(s, "AUD")
             && !Contains(s, "SGD") && !Contains(s, "AED") && Contains(s, "CHF")) ==> c == "CHF"
    ensures c == "USD" <==> !Contains(s, "€") && !Contains(s, "£") && !Contains(s, "CAD")
                            && !Contains(s, "AUD") && !Contains(s, "SGD") && !Contains(s, "AED")
                            && !Contains(s, "CHF")
  {
    if Contains(s, "€") then "EUR"
    else if Contains(s, "£") then "GBP"
    else if Contains(s, "CAD") then "CAD"
    else if Contains(s, "AUD") then "AUD"
    else if Contains(s, "SGD") then "SGD"
    else if Contains(s, "AED") then "AED"
    else if Contains(s, "CHF") then "CHF"
    else "USD"
  }

  /** A parsed investment range: minimum, maximum and currency code. */
  datatype InvestmentAmount = InvestmentAmount(minAmount: Option<real>, maxAmount: Option<real>, currency: string)

  /** The parse fails when a number run holds commas only (`float('')` raises). */
  datatype ParseError = EmptyNumber(run: string)

  predicate NotComma(c: char) {
    c != ','
  }

  /** `float(run.replace(',', ''))` for a run of digits and commas. */
  function ParseNumber(run: string): (r: Result<real, ParseError>)
    requires forall i :: 0 <= i < |run| ==> IsDigitOrComma(run[i])
    ensures r.Failure? <==> forall i :: 0 <= i < |run| ==> run[i] == ','
    ensures r.Success? ==> r.value >= 0.0
  {
    var digits := Seqs.Filter(run, NotComma);
    assert AllDigits(digits) by {
      forall i | 0 <= i < |digits|
        ensures IsDigit(digits[i])
      {
        assert digits[i] in digits;
        var j :| 0 <= j < |run| && run[j] == digits[i];
        assert NotComma(run[j]) && IsDigitOrComma(run[j]);
      }
    }
    if digits == [] then
      Failure(EmptyNumber(run))
    else
      assert !forall i :: 0 <= i < |run| ==> run[i] == ',' by {
        if forall i :: 0 <= i < |run| ==> run[i] == ',' {
          Seqs.FilterNone(run, NotComma);
        }
      }
      Success(DecimalValue(digits) as real)
  }

  /** The runs of digits and commas in `s`, as `re.findall(r'[\d,]+', s)` finds them. */
  function NumberRuns(s: string): (runs: seq<string>)
    ensures forall k, i :: 0 <= k < |runs| && 0 <= i < |runs[k]| ==> IsDigitOrComma(runs[k][i])
  {
    Runs(s, IsDigitOrComma)
  }

  /**
   * Parses an investment string such as "$500,000 - $1,000,000" or "€50,000 minimum":
   * nothing for an absent, empty or exactly "N/A" string; otherwise the currency, and the
   * first and second numbers as minimum and maximum.
   */
  function ParseInvestmentAmount(s: Option<string>): (r: Result<InvestmentAmount, ParseError>)
    ensures s.None? || s.value == "" || s.value == "N/A" ==>
      r == Success(InvestmentAmount(None, None, "USD"))
    ensures r.Success? && r.value.maxAmount.Some? ==> r.value.minAmount.Some?
    ensures r.Success? ==> r.value.currency in Currency.CurrencyRates
    ensures r.Success? && r.value.minAmount.Some? ==> r.value.minAmount.value >= 0.0
    ensures s.Some? && s.value != "" && s.value != "N/A" && r.Success? ==>
      var runs := NumberRuns(s.value);
      && (|runs| >= 1 ==> ParseNumber(runs[0]).Success? && r.value.minAmount == Some(ParseNumber(runs[0]).value))
      && (|runs| >= 2 ==> ParseNumber(runs[1]).Success? && r.value.maxAmount == Some(ParseNumber(runs[1]).value))
  {
    if s.None? || s.value == "" || s.value == "N/A" then Success(InvestmentAmount(None, None, "USD"))
    else
      var text := s.value;
      var currency := DetectCurrency(text);
      var numbers := NumberRuns(text);
      if |numbers| >= 2 then
        match ParseNumber(numbers[0])
        case Failure(e) => Failure(e)
        case Success(minAmount) =>
          match ParseNumber(numbers[1])
          case Failure(e) => Failure(e)
          case Success(maxAmount) => Success(InvestmentAmount(Some(minAmount), Some(maxAmount), currency))
      else if |numbers| == 1 then
        match ParseNumber(numbers[0])
        case Failure(e) => Failure(e)
        case Success(amount) => Success(InvestmentAmount(Some(amount), None, currency))
      else
        Success(InvestmentAmount(None, None, currency))
  }

  /**
   * How many numbers a non-trivial investment string yields, and when it fails: the parse
   * fails exactly when one of the first two runs is made of commas only.
   */
  lemma {:induction false} InvestmentAmountShape(s: string)
    requires s != "" && s != "N/A"
    ensures var r := ParseInvestmentAmount(Some(s));
            var runs := NumberRuns(s);
            && (r.Failure? <==> exists k :: 0 <= k < |runs| && k < 2 && forall i :: 0 <= i < |runs[k]| ==> runs[k][i] == ',')
            && (r.Success? ==> r.value.currency == DetectCurrency(s))
            && (r.Success? ==> (r.value.minAmount.Some? <==> |runs| >= 1))
            && (r.Success? ==> (r.value.maxAmount.Some? <==> |runs| >= 2))
            && (r.Success? && |runs| >= 1 ==>
                  ParseNumber(runs[0]).Success? && r.value.minAmount == Some(ParseNumber(runs[0]).value))
            && (r.Success? && |runs| >= 2 ==>
                  ParseNumber(runs[1]).Success? && r.value.maxAmount == Some(ParseNumber(runs[1]).value))
  {
    var runs := NumberRuns(s);
    if |runs| >= 1 {
      var _ := ParseNumber(runs[0]);
    }
    if |runs| >= 2 {
      var _ := ParseNumber(runs[1]);
    }
  }

  /**
   * A string that merely starts with "N/A" is parsed like any other: its currency is
   * detected and its numbers are read, so it yields a minimum exactly when it holds a
   * number run, the first run's number.
   */
  lemma NotApplicableWithSuffix(s: string)
    requires |s| > 3 && s[..3] == "N/A"
    ensures var r := ParseInvestmentAmount(Some(s));
            var runs := NumberRuns(s);
            && (r.Success? ==> r.value.currency == DetectCurrency(s))
            && (r.Success? ==> (r.value.minAmount.Some? <==> runs != []))
            && (r.Success? && runs != [] ==> r.value.minAmount == Some(ParseNumber(runs[0]).value))
  {
    InvestmentAmountShape(s);
  }

  /** The numbers of a processing-time string: the runs of decimal digits, read as integers. */
  function Numbers(s: string): (ns: seq<nat>)
    ensures |ns| == |Runs(s, IsDigit)|
  {
    var runs := Runs(s, IsDigit);
    seq(|runs|, k requires 0 <= k < |runs| => DecimalValue(runs[k]))
  }

  /** `int(x)` for a non-negative real: truncation is the floor. */
  function Truncate(x: real): (n: int)
    requires x >= 0.0
    ensures n >= 0 && n as real <= x < n as real + 1.0
  {
    x.Floor
  }

  /** Months from a "... months" string: the truncated mean of a range, or the one number. */
  function MonthsFromMonthText(numbers: seq<nat>): (m: Option<int>)
    ensures |numbers| >= 2 ==> m.Some? && numbers[0] + numbers[1] <= 2 * m.value + 1
                               && 2 * m.value <= numbers[0] + numbers[1]
    ensures |numbers| == 1 ==> m == Some(numbers[0])
    ensures numbers == [] ==> m.None?
  {
    if |numbers| >= 2 then Some(Truncate((numbers[0] + numbers[1]) as real / 2.0))
    else if |numbers| == 1 then Some(numbers[0])
    else None
  }

  /** The weeks a "... weeks" string states: the mean of a range, the one number, or 4. */
  function WeeksStated(numbers: seq<nat>): (w: real)
    ensures w >= 0.0
  {
    if |numbers| >= 2 then (numbers[0] + numbers[1]) as real / 2.0
    else if |numbers| == 1 then numbers[0] as real
    else 4.0
  }

  /** Months from a "... weeks" string: the weeks divided by 4.3, truncated. */
  function MonthsFromWeekText(numbers: seq<nat>): (m: int)
    ensures m >= 0
    ensures m as real * 4.3 <= WeeksStated(numbers) < (m as real + 1.0) * 4.3
  {
    var weeks := WeeksStated(numbers);
    var months := Truncate(weeks / 4.3);
    assert (weeks / 4.3) * 4.3 == weeks;
    months
  }

  /** Months from a "... years" string: twelve per year of the first number. */
  function MonthsFromYearText(numbers: seq<nat>): (m: Option<int>)
    ensures m.Some? <==> numbers != []
    ensures m.Some? ==> m.value % 12 == 0 && m.value / 12 == numbers[0]
  {
    if |numbers| >= 1 then Some(numbers[0] * 12) else None
  }

  /**
   * Parses a processing time such as "18-36 months" or "8 weeks" into months. "month"
   * is looked for first, then "week", then "year", in the lower-cased text; anything
   * else, and an absent or empty string, gives nothing.
   */
  function ParseProcessingTime(s: Option<string>): (m: Option<int>)
    ensures s.None? || s.value == "" ==> m.None?
    ensures m.Some? ==> m.value >= 0
  {
    if s.None? || s.value == "" then None
    else
      var text := s.value;
      var numbers := Numbers(text);
      var lower := Lower(text);
      if Contains(lower, "month") then MonthsFromMonthText(numbers)
      else if Contains(lower, "week") then Some(MonthsFromWeekText(numbers))
      else if Contains(lower, "year") then MonthsFromYearText(numbers)
      else None
  }

  /** The unit words decide, with "month" taking precedence over "week" over "year". */
  lemma ProcessingTimeUnits(s: string)
    requires s != ""
    ensures Contains(Lower(s), "month") ==> ParseProcessingTime(Some(s)) == MonthsFromMonthText(Numbers(s))
    ensures !Contains(Lower(s), "month") && Contains(Lower(s), "week") ==>
      ParseProcessingTime(Some(s)) == Some(MonthsFromWeekText(Numbers(s)))
    ensures !Contains(Lower(s), "month") && !Contains(Lower(s), "week") && Contains(Lower(s), "year") ==>
      ParseProcessingTime(Some(s)) == MonthsFromYearText(Numbers(s))
    ensures !Contains(Lower(s), "month") && !Contains(Lower(s), "week") && !Contains(Lower(s), "year") ==>
      ParseProcessingTime(Some(s)) == None
  {
  }

  /** The mean of a month range lies between its two ends. */
  lemma MonthRangeBetween(numbers: seq<nat>)
    requires |numbers| >= 2
    ensures var m := MonthsFromMonthText(numbers).value;
      (numbers[0] <= numbers[1] ==> numbers[0] <= m <= numbers[1])
      && (numbers[1] <= numbers[0] ==> numbers[1] <= m <= numbers[0])
  {
  }

  /** A week string without numbers is read as four weeks, which is less than one month. */
  lemma WeeksWithoutNumbers()
    ensures MonthsFromWeekText([]) == 0
  {
  }

  /** "3 weeks - 3 months" mentions months, so months win: the mean of 3 and 3. */
  lemma WeeksThenMonthsExample(s: string)
    requires s == "3 weeks - 3 months"
    ensures ParseProcessingTime(Some(s)) == Some(3)
  {
    WeeksThenMonthsUnit(s);
    WeeksThenMonthsNumbers(s);
    ProcessingTimeUnits(s);
    assert MonthsFromMonthText([3, 3]) == Some(3);
  }

  lemma WeeksThenMonthsUnit(s: string)
    requires s == "3 weeks - 3 months"
    ensures Contains(Lower(s), "month")
  {
    LowerOfLowercase(s);
    var prefix, unit, suffix := "3 weeks - 3 ", "month", "s";
    assert s == prefix + unit + suffix;
    ContainsInfix(prefix, unit, suffix);
  }

  lemma WeeksThenMonthsNumbers(s: string)
    requires s == "3 weeks - 3 months"
    ensures Numbers(s) == [3, 3]
  {
    WeeksThenMonthsRuns(s);
    assert DecimalValue("3") == 3;
  }

  lemma WeeksThenMonthsRuns(s: string)
    requires s == "3 weeks - 3 months"
    ensures Runs(s, IsDigit) == ["3", "3"]
  {
    assert s == "3" + (" weeks - " + ("3" + " months"));
    RunsOfTwo("3", " weeks - ", "3", " months", IsDigit);
  }

  /** "MXN 2,700,000+ (USD ~180,000)": pesos are not recognised, and the maximum is below the minimum. */
  lemma UnorderedRangeExample(s: string)
    requires s == "MXN 2,700,000+ (USD ~180,000)"
    ensures ParseInvestmentAmount(Some(s)) == Success(InvestmentAmount(Some(2700000.0), Some(180000.0), "USD"))
  {
    UnorderedRangeCurrency(s);
    UnorderedRangeRuns(s);
    ParseMillions("2,700,000");
    ParseThousands("180,000");
  }

  /** Dropping the commas of digit groups joins the groups. */
  lemma CommaGroups(a: string, b: string)
    requires AllDigits(a)
    ensures Seqs.Filter(a + ("," + b), NotComma) == a + Seqs.Filter(b, NotComma)
  {
    var comma: string := [','];
    Seqs.FilterAppend(a, comma + b, NotComma);
    Seqs.FilterAppend(comma, b, NotComma);
    Seqs.FilterAll(a, NotComma);
    assert comma[..0] == [];
    assert Seqs.Filter(comma, NotComma) == [];
    assert Seqs.Filter(comma + b, NotComma) == Seqs.Filter(b, NotComma);
  }

  /** A run whose digits spell the decimal form of `n` parses to `n`. */
  lemma ParseOfDecimal(run: string, n: nat)
    requires forall i :: 0 <= i < |run| ==> IsDigitOrComma(run[i])
    requires Seqs.Filter(run, NotComma) == DecimalString(n)
    ensures ParseNumber(run) == Success(n as real)
  {
    DecimalRoundTrip(n);
  }

  lemma ParseMillions(run: string)
    requires run == "2,700,000"
    ensures ParseNumber(run) == Success(2700000.0)
  {
    MillionsDigits(run);
    ParseOfDecimal(run, 2700000);
  }

  lemma MillionsDigits(run: string)
    requires run == "2,700,000"
    ensures Seqs.Filter(run, NotComma) == DecimalString(2700000)
  {
    var tail := "700" + ("," + "000");
    assert run == "2" + ("," + tail);
    GroupDigits();
    JoinGroups("700", "000");
    CommaGroups("2", tail);
    MillionsString();
  }

  /** The digit groups of the two example amounts are made of digits. */
  lemma GroupDigits()
    ensures AllDigits("2") && AllDigits("700") && AllDigits("180") && AllDigits("000")
  {
  }

  /** Two comma-separated groups of digits read as their digits joined. */
  lemma JoinGroups(a: string, b: string)
    requires AllDigits(a) && AllDigits(b)
    ensures Seqs.Filter(a + ("," + b), NotComma) == a + b
  {
    CommaGroups(a, b);
    Seqs.FilterAll(b, NotComma);
  }

  lemma MillionsString()
    ensures DecimalString(2700000) == "2" + ("700" + "000")
  {
    DecimalSteps(2, "2", [7, 0, 0, 0, 0, 0]);
    assert "2" + ['7', '0', '0', '0', '0', '0'] == "2" + ("700" + "000");
  }

  lemma ThousandsString()
    ensures DecimalString(180000) == "180" + "000"
  {
    DecimalSteps(1, "1", [8, 0, 0, 0, 0]);
    assert "1" + ['8', '0', '0', '0', '0'] == "180" + "000";
  }

  /** Appending the digits `ds` one at a time to the decimal form of `n`. */
  lemma {:induction false} DecimalSteps(n: nat, s: string, ds: seq<nat>)
    requires 0 < n && DecimalString(n) == s
    requires forall i :: 0 <= i < |ds| ==> ds[i] < 10
    ensures DecimalString(Extend(n, ds)) == s + DigitsOf(ds)
    decreases |ds|
  {
    if ds != [] {
      var m := n * 10 + ds[0];
      assert m / 10 == n && m % 10 == ds[0];
      assert DecimalString(m) == s + [DigitChar(ds[0])];
      DecimalSteps(m, s + [DigitChar(ds[0])], ds[1..]);
      assert [DigitChar(ds[0])] + DigitsOf(ds[1..]) == DigitsOf(ds);
      Seqs.AppendAssociative(s, [DigitChar(ds[0])], DigitsOf(ds[1..]));
    }
  }

  /** `n` followed by the decimal digits `ds`. */
  function Extend(n: nat, ds: seq<nat>): nat
    decreases |ds|
  {
    if ds == [] then n else Extend(n * 10 + ds[0], ds[1..])
  }

  function DigitsOf(ds: seq<nat>): string
    requires forall i :: 0 <= i < |ds| ==> ds[i] < 10
    decreases |ds|
  {
    if ds == [] then [] else [DigitChar(ds[0])] + DigitsOf(ds[1..])
  }

  lemma ParseThousands(run: string)
    requires run == "180,000"
    ensures ParseNumber(run) == Success(180000.0)
  {
    ThousandsDigits(run);
    ParseOfDecimal(run, 180000);
  }

  lemma ThousandsDigits(run: string)
    requires run == "180,000"
    ensures Seqs.Filter(run, NotComma) == DecimalString(180000)
  {
    assert run == "180" + ("," + "000");
    GroupDigits();
    JoinGroups("180", "000");
    ThousandsString();
  }

  lemma UnorderedRangeCurrency(s: string)
    requires s == "MXN 2,700,000+ (USD ~180,000)"
    ensures DetectCurrency(s) == "USD"
  {
    var alphabet := "MXN 0123456789,+(USD~)";
    assert Over(s, alphabet);
    NoCurrencyMarker(s, alphabet);
  }

  /** A text over these characters names none of the recognised currencies, so it is read as US dollars. */
  lemma NoCurrencyMarker(s: string, alphabet: string)
    requires alphabet == "MXN 0123456789,+(USD~)"
    requires Over(s, alphabet)
    ensures DetectCurrency(s) == "USD"
  {
    NoCurrencySymbol(s, alphabet);
    NoCurrencyCode(s, alphabet);
  }

  lemma NoCurrencySymbol(s: string, alphabet: string)
    requires alphabet == "MXN 0123456789,+(USD~)"
    requires Over(s, alphabet)
    ensures !Contains(s, "€") && !Contains(s, "£")
  {
    OutsideAlphabetNotContained(s, alphabet, "€", 0);
    OutsideAlphabetNotContained(s, alphabet, "£", 0);
  }

  lemma NoCurrencyCode(s: string, alphabet: string)
    requires alphabet == "MXN 0123456789,+(USD~)"
    requires Over(s, alphabet)
    ensures !Contains(s, "CAD") && !Contains(s, "AUD") && !Contains(s, "SGD")
    ensures !Contains(s, "AED") && !Contains(s, "CHF")
  {
    OutsideAlphabetNotContained(s, alphabet, "CAD", 0);
    OutsideAlphabetNotContained(s, alphabet, "AUD", 0);
    OutsideAlphabetNotContained(s, alphabet, "SGD", 1);
    OutsideAlphabetNotContained(s, alphabet, "AED", 0);
    OutsideAlphabetNotContained(s, alphabet, "CHF", 0);
  }

  lemma UnorderedRangeRuns(s: string)
    requires s == "MXN 2,700,000+ (USD ~180,000)"
    ensures NumberRuns(s) == ["2,700,000", "180,000"]
  {
    var rest := "2,700,000" + ("+ (USD ~" + ("180,000" + ")"));
    assert s == "MXN " + rest;
    UnorderedRangeTailRuns(rest);
    RunsNone("MXN ", IsDigitOrComma);
    RunsAppend("MXN ", rest, IsDigitOrComma);
  }

  lemma UnorderedRangeTailRuns(rest: string)
    requires rest == "2,700,000" + ("+ (USD ~" + ("180,000" + ")"))
    ensures Runs(rest, IsDigitOrComma) == ["2,700,000", "180,000"]
  {
    RunsOfTwo("2,700,000", "+ (USD ~", "180,000", ")", IsDigitOrComma);
  }

  /** "Retirement Visa" is taken for an investor program: "visa" is an investor keyword. */
  lemma RetirementVisaExample()
    ensures InferProgramType("Retirement Visa", "") == "investor"
  {
    assert Lower("Retirement Visa") == "retirement " + "visa" + "";
    ContainsInfix("retirement ", "visa", "");
    VisaNamesAreInvestor("Retirement Visa", "");
  }
}
