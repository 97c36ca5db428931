# Residency eligibility scorer and residency analytics — a Dafny model

This project models the scoring core of a residency-by-investment service and proves
properties of it:

- **Request and response records.** The requests and responses of the eligibility check and
  of currency conversion, with their field constraints (`schemas.dfy`). This covers the
  seven-member program-type enumeration and the validating constructors that report every
  violated field.
- **Currency conversion.** The fixed table of eight USD-based rates, `convert` (through US
  dollars, rounded to 2 places) and `rate` (rounded to 4 places) (`currency.dfy`). Python's
  `round` is modelled as exact half-even rounding on reals (`rounding.dfy`).
- **The eligibility checker** (`eligibility.dfy`):
  - the three criterion checks, which append their explanation to caller-owned lists;
  - the 40/30/20/10 match score and its detail record;
  - `check_eligibility`, which filters by country, keeps positive scores, stable-sorts by
    descending score, keeps the top five, averages their scores and chooses the message.
- **Loading helpers** (`data_loader.dfy`): the program-type keyword table, program-type
  inference, parsing an investment string into minimum, maximum and currency, and parsing a
  processing time into months. Python's `re.findall` runs, ASCII `lower`/`strip` and
  `str.replace` are modelled in `text.dfy`. Python's stable `list.sort` is an insertion sort,
  both as a function and as an in-place array method (`stable_sort.dfy`).
- **Residency analytics** (`analytics.dfy`):
  - `get_program_ranking`: the top ten by visa-free countries, least parsable minimum
    investment, or number of benefits;
  - the counting and bucketing of `get_program_analytics`;
  - the best-of tracking of `compare_programs`;
  - the counting of `get_program_insights`.

  The program catalog is a parameter (a sequence of countries, each with its programs in
  order). Python's `float()` on a cleaned minimum is a parameter `parse: string -> Option<real>`,
  where `None` stands for the `ValueError` that the `except` swallows.

Each loop of `app/residencies/eligibility.py` and `residency_analytics.py` is a `method` with
its loop invariants, proved equal to a specification function. The properties are proved about
those functions. The explanation lists that the checks append to are an `ExplanationList`
class whose methods modify it in place. Three pieces of the source that iterate are
expressions rather than loops, and are modelled as recursive functions:

- the keyword search of `infer_program_type` (`app/residencies/data_loader.py:63-65`) is
  `DataLoader.FirstTypeHit`;
- the program list of `check_eligibility` (`app/residencies/eligibility.py:63-66`) is
  `Eligibility.ProgramsOf`;
- the score sum of `check_eligibility` (`app/residencies/eligibility.py:69`) is
  `Eligibility.SumScores`.

Two behaviours of the code are worth knowing, and the test suite expects otherwise on one of them:

- A program constraint that is zero counts as no constraint. The code tests these columns by
  truthiness (`app/residencies/eligibility.py:144`, `:175`, `:197`).
- A request whose budget is too low for every program can still get matches. A program
  whose family limit is met and that sets no other requirement scores 90 and is returned.
  `tests/test_residencies_eligibility.py:371-384` expects no matches for a budget of
  USD 10,000, but on that test's own fixture the code returns all five programs:
  - the skilled-worker program (Canada) scores 90;
  - the D7 program (Portugal) scores 70;
  - the Innovator program (United Kingdom) scores 50;
  - the EB-5 program (United States) and the golden visa (UAE) score 30 each.

  `Eligibility.LowBudgetStillMatches` proves that any table holding the fixture's Canada
  program gives at least one match for that request.

## Model

| member | source | states |
|---|---|---|
| Schemas.ParseProgramType | app/residencies/schemas.py:9-17 | a string coerces to the enumeration member with that value, and to nothing exactly when no member has that value |
| Schemas.ProgramTypeRoundTrip | app/residencies/schemas.py:9-17 | every member's value coerces back to that member (values are distinct) |
| Schemas.OtherIsNotAProgramType | app/residencies/schemas.py:9-17 | "other" is not a requestable program type |
| Schemas.ValidateInvestment | app/residencies/schemas.py:29-33 | the budget validator accepts exactly the positive budgets and returns them unchanged |
| Schemas.NewEligibilityCheckRequest | app/residencies/schemas.py:20-27 | a request is built exactly when budget > 0, net worth >= 0, family size (default 1) in 1..20 and age, if given, in 18..120; the built request satisfies those constraints; on failure each violated field is reported and no other |
| Schemas.NewCurrencyConversionRequest | app/residencies/schemas.py:97-101 | a conversion request is built exactly when the amount is positive, with currencies defaulting to USD and EUR |
| Rounding.RoundToInteger | app/residencies/eligibility.py:225 | the nearest integer, with ties going to the even one |
| Rounding.Round2 | app/residencies/eligibility.py:225 | `round(x, 2)` is within 0.005 of x and has at most two decimals |
| Rounding.Round4 | app/residencies/eligibility.py:235 | `round(x, 4)` is within 0.00005 of x and has at most four decimals |
| Rounding.Round2Monotone | app/residencies/eligibility.py:225 | rounding to two places preserves order |
| Rounding.Round2Between | app/residencies/eligibility.py:84 | rounding keeps a value inside bounds that are themselves two-place values |
| Currency.RateOf | app/residencies/eligibility.py:25-34 | a known code's rate is its table entry, an unknown code's rate is 1.0, and every rate is between 0.79 and 3.67 |
| Currency.ConvertCurrency | app/residencies/eligibility.py:213-225 | converting between equal currencies returns the amount unchanged, unrounded; between different codes the result is a whole number of cents within half a cent of amount / rate(from) * rate(to) |
| Currency.ConvertAt | app/residencies/eligibility.py:218-225 | converting through US dollars at the two rates gives a whole number of cents within half a cent of the exact amount / rate(from) * rate(to) |
| Currency.RoundTripAt | app/residencies/eligibility.py:218-225 | at any two rates of the table's range, converting and converting back returns the amount within 0.03 |
| Currency.MonotoneAt | app/residencies/eligibility.py:218-225 | at fixed positive rates a larger amount never converts to a smaller one |
| Currency.GetCurrencyRate | app/residencies/eligibility.py:227-235 | the rate is 1.0 for equal currencies; otherwise it is a whole number of ten-thousandths within 0.00005 of rate(to) / rate(from) |
| Currency.ConversionRoundTrip | app/residencies/eligibility.py:213-225 | converting to another currency and back returns the amount within 0.03, for every pair of codes |
| Currency.RateReciprocal | app/residencies/eligibility.py:227-235 | the rates of a pair and of its reverse multiply to 1 within 0.001, for every pair of codes |
| Currency.ConvertMonotone | app/residencies/eligibility.py:213-225 | a larger amount never converts to a smaller one |
| Currency.UnknownCodesOnlyRound | app/residencies/eligibility.py:218-223 | between two unknown codes conversion only rounds the amount |
| Currency.UsdEurRates | tests/test_residencies_eligibility.py:299-308 | the USD to EUR rate is 0.92, the reverse is 1.087, and their product is 1 within 0.01 |
| Eligibility.InvestmentCheck | app/residencies/eligibility.py:136-165 | with no (or a zero) minimum there is no requirement; otherwise the check fits exactly when the budget converted into the program's currency reaches the minimum; the issue states the positive shortfall, in the program's currency, adding up to the minimum |
| Eligibility.FamilyCheck | app/residencies/eligibility.py:167-187 | with no (or a zero) limit there is no requirement; otherwise the check fits exactly when the family size is within the limit, and explains with "within" or "exceeds" |
| Eligibility.NetWorthCheck | app/residencies/eligibility.py:189-211 | with no (or a zero) requirement it fits; otherwise it fits exactly when net worth reaches the requirement, and the issue's shortfall adds up to the requirement |
| Eligibility.MatchScore | app/residencies/eligibility.py:97-120 | the score is a multiple of 10 between 0 and 100, and is positive whenever the investment or the family check fits |
| Eligibility.MatchDetailOf | app/residencies/eligibility.py:122-132 | the detail carries the program's identity, the score (valid, 0..100), each check's verdict and the explanations in the checks' order |
| Eligibility.ExplanationList.constructor | app/residencies/eligibility.py:98-99 | a new explanation list is empty |
| Eligibility.ExplanationList.Append | app/residencies/eligibility.py:150-165 | appending adds exactly one explanation at the end |
| Eligibility.CheckInvestmentFit | app/residencies/eligibility.py:136-165 | returns the investment verdict and appends exactly its factor or issue to the caller's lists |
| Eligibility.CheckFamilyFit | app/residencies/eligibility.py:167-187 | returns the family verdict and appends exactly its factor or issue to the caller's lists |
| Eligibility.CheckNetWorthFit | app/residencies/eligibility.py:189-211 | returns the net-worth verdict and appends exactly its factor or issue to the caller's lists |
| Eligibility.CalculateMatchScore | app/residencies/eligibility.py:88-134 | the score accumulated step by step equals MatchScore, a multiple of 10 in 0..100, and the detail equals MatchDetailOf |
| Eligibility.PerfectScoreIff | app/residencies/eligibility.py:101-120 | the score is 100 exactly when all three checks fit and the preferred type matches |
| Eligibility.InvestmentShortfallCapsScore | app/residencies/eligibility.py:101-104 | missing the investment minimum caps the score at 60 |
| Eligibility.UnconstrainedProgramFits | app/residencies/eligibility.py:136-211 | a program with no constraints scores at least 90, with no issues and no factor but the preference's |
| Eligibility.UsdProgramComparesBudget | app/residencies/eligibility.py:148-154 | for a USD program the budget is compared with the minimum unconverted |
| Eligibility.OneExplanationPerConstraint | app/residencies/eligibility.py:136-211 | the explanations are one per constrained criterion plus one for a matching preference, and the issues are exactly one per check that does not fit |
| Eligibility.PreferenceEffect | app/residencies/eligibility.py:116-120 | stating a preference adds 10 points and one factor when it equals the program's type, and changes nothing otherwise |
| Eligibility.OtherTypeNeverMatches | app/residencies/eligibility.py:116-120 | a program of type "other" never gets the preference bonus, so it scores at most 90 |
| Eligibility.ScoreMonotone | app/residencies/eligibility.py:101-114 | a larger budget, a larger net worth and a smaller family never lower the score |
| Eligibility.Candidates | app/residencies/eligibility.py:44-48 | with a non-empty country preference exactly the programs of that country are considered, otherwise all |
| Eligibility.ScoredMatches | app/residencies/eligibility.py:51-56 | the collected matches are exactly the considered programs with a positive score, each with its score and detail |
| Eligibility.TopMatches | app/residencies/eligibility.py:59-60 | the best five matches are kept, or all of them when fewer than five programs score above 0: exactly min(5, number of positive matches) |
| Eligibility.MessageFor | app/residencies/eligibility.py:71-77 | "no matching programs" exactly for 0 matches, the budget-citing message exactly for 1, the count otherwise |
| Eligibility.ProgramsOf | app/residencies/eligibility.py:63-66 | the response lists the matched programs in match order |
| Eligibility.CheckEligibility | app/residencies/eligibility.py:36-86 | the response built by the loop equals the specified response and satisfies the response constraints |
| Eligibility.ScorePrograms | app/residencies/eligibility.py:51-56 | the scoring loop collects exactly the specified matches: the considered programs that score above 0, in order |
| Eligibility.TopOf | app/residencies/eligibility.py:58-60 | sorting a copy in place and slicing keeps the first five of the stable descending sort by score |
| Eligibility.ScoredMatchesStep | app/residencies/eligibility.py:53-56 | scoring one more program appends its match exactly when it scores above 0 |
| Eligibility.ResponseIsValid | app/residencies/schemas.py:62-68 | every response has at most five programs and an overall score in 0..100 |
| Eligibility.TopScoresPositive | app/residencies/eligibility.py:53-60 | every returned match scored between 10 and 100, is a considered program, and is in the preferred country when one is given |
| Eligibility.TopMatchesSorted | app/residencies/eligibility.py:59 | returned matches come in non-increasing score order |
| Eligibility.TopMatchesAreBest | app/residencies/eligibility.py:59-60 | a positively scored program is left out only when five matches are returned, each scoring no less than it |
| Eligibility.RankingIsStable | app/residencies/eligibility.py:59 | matches with equal scores keep the order in which they were scored |
| Eligibility.SumScoresBetween | app/residencies/eligibility.py:69 | the sum of scores within [lo, hi] lies within [lo·n, hi·n] |
| Eligibility.OverallScoreBetween | app/residencies/eligibility.py:69-84 | the rounded mean score lies between the lowest and the highest returned score |
| Eligibility.NoMatchesResponse | app/residencies/eligibility.py:69-73 | without matches the response lists nothing, scores 0 and says "no matching programs" |
| Eligibility.EmptyTableHasNoMatches | app/residencies/eligibility.py:48-73 | an empty program table always gives the "no matching programs" answer with score 0 |
| Eligibility.Eb5Example | tests/test_residencies_eligibility.py:45-60 | the EB-5 fixture against a USD 1,000,000 budget scores 90, 100 with an investor preference and 90 with a startup preference, with three factors and no issues |
| Eligibility.LowBudgetStillMatches | tests/test_residencies_eligibility.py:371-384 | for a USD 10,000 budget, net worth 10,000 and a family of one, a table holding the fixture's skilled-worker program answers with at least one match and not "no matching programs" |
| StableSort.Sort | app/residencies/eligibility.py:59 | the sort keeps the number of elements |
| StableSort.SortPermutes | app/residencies/eligibility.py:59 | the sort is a permutation of its input |
| StableSort.SortIsSorted | app/residencies/eligibility.py:59 | the sort puts keys in non-increasing order |
| StableSort.SortIsStable | app/residencies/eligibility.py:59 | elements with equal keys keep their original order |
| StableSort.SortPrefixDominates | residency_analytics.py:276-281 | every element of a prefix of the sort has a key at least that of any input element left out of it |
| StableSort.InsertInPlace | app/residencies/eligibility.py:59 | one insertion step in the array equals the functional insertion and leaves the rest of the array alone |
| StableSort.ShiftSmaller | app/residencies/eligibility.py:59 | the scan moves every element with a smaller key than the inserted one up one place, stops at the first key that is not smaller, and changes nothing else |
| StableSort.SortDescending | residency_analytics.py:276-279 | sorting the array in place leaves it equal to the stable sort of its old contents |
| Text.ContainsIff | app/residencies/data_loader.py:64 | `pat in s` holds exactly when pat occurs at some index of s |
| Text.RemoveAll | residency_analytics.py:64 | `s.replace(pat, '')` is no longer than s and keeps only characters of s |
| Text.RemoveCharGone | residency_analytics.py:64 | removing a single character leaves no copy of it |
| Text.StripStart | residency_analytics.py:64 | stripping the front removes exactly the leading whitespace |
| Text.StripEnd | residency_analytics.py:64 | stripping the back removes exactly the trailing whitespace |
| Text.StripSlice | residency_analytics.py:64 | `str.strip()` leaves the slice of s that neither starts nor ends with whitespace, with only whitespace cut away on either side |
| Text.StripIdempotent | residency_analytics.py:64 | stripping twice is stripping once |
| Text.Lower | app/residencies/data_loader.py:61 | lower-casing maps each character, changing only A-Z |
| Text.LowerIdempotent | residency_analytics.py:30-34 | lower-casing twice is lower-casing once |
| Text.Runs | app/residencies/data_loader.py:102 | `re.findall` yields non-empty runs made only of characters of the class |
| Text.RunsCoverClass | app/residencies/data_loader.py:102 | the runs, joined, are exactly the characters of the class in order |
| Text.RunsOfTwo | app/residencies/data_loader.py:102 | two runs separated by a gap outside the class and followed by no further class character are found as exactly those two runs |
| Text.DecimalRoundTrip | app/residencies/data_loader.py:105-109 | the decimal digits of n read back as n |
| DataLoader.FirstTypeHit | app/residencies/data_loader.py:63-65 | the type found is one of the table whose keyword occurs, and none is found exactly when no keyword of any type occurs |
| DataLoader.InferProgramType | app/residencies/data_loader.py:59-71 | the inferred type is one of the seven strings investor, employment, student, retired, family, citizenship and other, so never "startup" |
| DataLoader.VisaNamesAreInvestor | app/residencies/data_loader.py:46-65 | a name containing "visa" in any case is inferred as "investor" |
| DataLoader.InferredTypeIsFirstHit | app/residencies/data_loader.py:63-65 | the inferred type is never later in the table than a type that has a keyword in the name |
| DataLoader.NoNameHitFallsBack | app/residencies/data_loader.py:67-71 | without a keyword in the name, "investment" in the program text gives "investor", else "other" |
| DataLoader.RetirementVisaExample | app/residencies/data_loader.py:46-49 | "Retirement Visa" is inferred as "investor", because "visa" is checked before "retirement" |
| DataLoader.DetectCurrency | app/residencies/data_loader.py:84-99 | the currency is a known code, taken from the first marker found in the order €, £, CAD, AUD, SGD, AED, CHF; it is USD exactly when none of them occurs |
| DataLoader.ParseNumber | app/residencies/data_loader.py:105-109 | a run of digits and commas fails exactly when it is all commas, and otherwise gives a non-negative number |
| DataLoader.ParseOfDecimal | app/residencies/data_loader.py:105-109 | a run whose digits spell n parses to n |
| DataLoader.NumberRuns | app/residencies/data_loader.py:102 | the runs consist of digits and commas only |
| DataLoader.ParseInvestmentAmount | app/residencies/data_loader.py:74-112 | an absent, empty or "N/A" string gives nothing in USD; otherwise the minimum is the number of the first digit/comma run and the maximum that of the second; a maximum only comes with a minimum; the currency is known; the minimum is non-negative |
| DataLoader.InvestmentAmountShape | app/residencies/data_loader.py:101-112 | two or more runs give minimum and maximum, one run gives only a minimum, none gives neither; the minimum and maximum are the numbers of the first and second runs; the parse fails exactly when one of the first two runs is all commas |
| DataLoader.NotApplicableWithSuffix | app/residencies/data_loader.py:81 | only the exact string "N/A" is skipped; "N/A (...)" has its currency detected and gets a minimum exactly when it holds a number run, namely the first run's number |
| DataLoader.UnorderedRangeExample | investment_data.py:552 | "MXN 2,700,000+ (USD ~180,000)" parses to minimum 2,700,000, maximum 180,000 in USD (pesos are not recognised, and the maximum is below the minimum) |
| DataLoader.Numbers | app/residencies/data_loader.py:126 | one integer per run of decimal digits |
| DataLoader.Truncate | app/residencies/data_loader.py:131-141 | `int(x)` of a non-negative x is its floor |
| DataLoader.MonthsFromMonthText | app/residencies/data_loader.py:128-133 | two numbers give their truncated mean, one number gives itself, none gives nothing |
| DataLoader.WeeksStated | app/residencies/data_loader.py:136-139 | the week count is never negative |
| DataLoader.MonthsFromWeekText | app/residencies/data_loader.py:135-141 | the months are the stated weeks divided by 4.3, rounded down |
| DataLoader.MonthsFromYearText | app/residencies/data_loader.py:143-145 | with a number, the months are twelve times it, otherwise nothing |
| DataLoader.ParseProcessingTime | app/residencies/data_loader.py:115-147 | an absent or empty string gives nothing, and any result is non-negative |
| DataLoader.ProcessingTimeUnits | app/residencies/data_loader.py:128-147 | "month" takes precedence over "week", which takes precedence over "year"; with none of them the result is nothing |
| DataLoader.MonthRangeBetween | app/residencies/data_loader.py:129-131 | the months of a range lie between its two ends |
| DataLoader.WeeksWithoutNumbers | app/residencies/data_loader.py:139-141 | a week text without numbers counts as 4 weeks, i.e. 0 months |
| DataLoader.WeeksThenMonthsExample | investment_data.py:107 | "3 weeks - 3 months" is read as 3 months, since "month" is looked for first |
| Analytics.RefsIn | residency_analytics.py:33 | a country's programs are visited in order, each with the country's name |
| Analytics.RemoveEach | residency_analytics.py:64 | the chained replacements keep only characters of the input |
| Analytics.CleanedMinimumShape | residency_analytics.py:64 | a cleaned minimum has no comma, euro or pound sign and is already stripped |
| Analytics.CleanDigits | residency_analytics.py:64 | a minimum written as bare digits is left unchanged by cleaning |
| Analytics.MinAmount | residency_analytics.py:249-256 | the running minimum, if any, is the amount of one of the investment types |
| Analytics.MinAmountIsLeast | residency_analytics.py:249-258 | there is no minimum exactly when no minimum parses; otherwise it is at most every parsed amount |
| Analytics.MinimumInvestment | residency_analytics.py:247-256 | the inner loop computes the least parsable minimum |
| Analytics.Entries | residency_analytics.py:233-272 | at most one ranking row per program |
| Analytics.GetProgramRanking | residency_analytics.py:228-281 | the nested loops, the in-place stable sort and the slice give the specified top-ten ranking |
| Analytics.RankProgram | residency_analytics.py:236-272 | visiting one program appends exactly its ranking row, if the criterion gives it one |
| Analytics.RankingBounded | residency_analytics.py:281 | exactly min(10, number of rankable programs) rows, each the row of some program of the catalog |
| Analytics.RankingOrdered | residency_analytics.py:276-279 | "investment" rows come in ascending score, the rows of other criteria in descending score |
| Analytics.RankingKeepsBest | residency_analytics.py:276-281 | a row left out of the top ten is no better than any row kept |
| Analytics.InvestmentRow | residency_analytics.py:246-264 | under "investment" a program is ranked by its least parsable minimum, marked lower-is-better, exactly when it has investment types and one of them parses |
| Analytics.UnknownCriterionRanksNothing | residency_analytics.py:235-272 | a criterion other than "visa_free", "investment" and "benefits" ranks nothing |
| Analytics.ProcessingTimeRanksNothing | residency_analytics.py:230-231 | the documented "processing_time" criterion gives an empty ranking |
| Analytics.VisaFreeRanksEveryProgram | residency_analytics.py:236-243 | under "visa_free" every program gets a row, so the ranking holds min(10, number of programs) rows |
| Analytics.AmountsOf | residency_analytics.py:67 | one amount per parsable minimum |
| Analytics.TalliedMeaning | residency_analytics.py:29-99 | the counts the loops accumulate are the specified totals: programs, programs with a citizenship path, popular programs, and the parsable minimums sorted into buckets |
| Analytics.GetProgramAnalytics | residency_analytics.py:8-106 | the loops compute the specified analytics of the programs that pass the filters |
| Analytics.CountCountry | residency_analytics.py:33-99 | visiting a country's programs adds exactly its selected programs to the tally |
| Analytics.CountProgram | residency_analytics.py:37-99 | one selected program adds exactly its counts and its bucketed minimums |
| Analytics.CountMinimums | residency_analytics.py:61-99 | the loop over a program's investment types adds exactly its parsable minimums to the buckets and the amounts |
| Analytics.CountMinimum | residency_analytics.py:69-97 | one parsed minimum is appended to the bucket its amount belongs to |
| Analytics.BucketsPartition | residency_analytics.py:70-97 | every parsable minimum lands in exactly the bucket of its amount, and the bucket sizes add up to the number of minimums |
| Analytics.AnalyticsBuckets | residency_analytics.py:62-99 | the buckets are below 50 000, 50 000 to below 250 000, 250 000 to below 500 000, and 500 000 up; together they hold every parsable minimum |
| Analytics.UnfilteredSelectsAll | residency_analytics.py:30-34 | an unset or empty filter selects every program |
| Analytics.FiltersIgnoreCase | residency_analytics.py:30-34 | filters equal up to case give the same analytics |
| Analytics.AverageBetween | residency_analytics.py:103-104 | the average investment lies between the least and the greatest parsed minimum |
| Analytics.CountryPrograms | residency_analytics.py:137-138 | a country's programs are found exactly when the catalog lists the country |
| Analytics.FindProgram | residency_analytics.py:140-143 | a program is found exactly when its country lists it |
| Analytics.Known | residency_analytics.py:136-143 | the compared programs are exactly the requested pairs that exist, with their data |
| Analytics.LeaderIsFirstMaximum | residency_analytics.py:193-201 | the running maximum starts at 0 and bounds every score; the leader is the first program with the largest score, and there is none exactly when no score is positive |
| Analytics.ComparePrograms | residency_analytics.py:109-225 | the loop with its two running maxima computes the specified comparison |
| Analytics.BestPick | residency_analytics.py:193-201 | a best-of pick names the first program with the largest count, with that count, and is absent exactly when no count is positive |
| Analytics.MostBenefitsPick | residency_analytics.py:186-196 | "most benefits" is absent exactly when no compared program lists a benefit; otherwise it names the first compared program with the most benefits |
| Analytics.BestVisaFreePick | residency_analytics.py:198-201 | "best visa-free access" is absent exactly when no compared program has a positive visa-free count; otherwise it names the first compared program with the largest count |
| Analytics.TypeCountsCount | residency_analytics.py:305-311 | the program-type counts have a key exactly for each type that occurs, counting the programs of that type |
| Analytics.GetProgramInsights | residency_analytics.py:284-335 | the loop computes the specified insights, or nothing for an unknown country |
| Analytics.CountInsight | residency_analytics.py:305-322 | one program raises its type's count by one (starting it at 0), and the citizenship, family and popular tallies exactly when it qualifies |
| Analytics.InsightsCounts | residency_analytics.py:284-335 | insights are absent exactly for an unknown country; the citizenship and family counts never exceed the program count, and every type count is positive and counts that type's programs |

## Left out

- Floating point: amounts, rates and scores are exact reals. Python's rounding of the binary double nearest to a value (and the exactness of large amounts) is not modelled.
- String formatting: the explanation and message texts are datatypes carrying their numbers and a keyword. Currency formatting such as `f"€{x:,.0f}"` and the `"{country} - {program}"` strings of the comparison are not modelled.
- The request id (a random uuid) and the timestamp (the clock) are parameters of the eligibility check.
- The analytics catalog is a sequence, so nothing forces its country names, or the program names within one country, to be distinct as the keys of a Python dict are. The model assumes they are. With a repeated country, `total_countries` would count it twice, and lookups take the first entry.
- The database query is an input: the program table arrives as a sequence in query order. The analytics catalog is likewise a parameter.
- `float()` on a cleaned minimum is the parameter `parse`, which returns a real or nothing. Python's `float()` also accepts texts such as "inf" or "nan". Those values are not modelled. In `get_program_analytics` they fail every `<` test, so they land in the 500 000-and-above bucket. They also enter the amounts averaged, which makes the average "€nan" or "€inf" (`residency_analytics.py:67-104`). In `get_program_ranking` neither is below the `inf` starting value, so a program whose only parsable minimums are such values is left out of the "investment" ranking (`residency_analytics.py:247-264`).
- `\d`, `lower()` and `strip()` are modelled on ASCII only. Non-ASCII digits, case mappings and whitespace are not.
- Eligibility.CheckInvestmentFit, Eligibility.CheckFamilyFit, Eligibility.CheckNetWorthFit: they require the factor and issue lists to be distinct objects, as they are in the only caller.
- A program record whose `investment_types` entry has no "minimum" key makes the source raise `KeyError`; the model assumes the key is present.
- `compare_programs`: the rows of `investment_comparison`, `processing_time_comparison`, `requirements_comparison`, `benefits_comparison`, `cost_comparison`, `family_eligibility` and `citizenship_paths` copy fields and are not modelled. The compared programs are kept as whole records.
- `compare_programs`: the "lowest_investment" and "fastest_processing" picks are never assigned by the source (always `None`). The model omits them.
- `get_program_analytics`: `programs_by_type` only groups records and is not modelled. Neither are `best_value_programs` and `fastest_processing`, which stay empty.
- `get_program_insights`: the `minimum_investments` rows (sorted as strings) and the `country_highlights` are not modelled. `program_types` is a map, so the first-seen order of the source's list is not kept.
- The remainder of `data_loader.py` (loading and exporting, the database commands), the Flask routes, the models' serialisation and the OCR module are not part of this model.
