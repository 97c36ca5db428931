/**
 * The residency analytics: ranking every program of the catalog by one criterion, counting
 * and bucketing the programs that pass a country and a program-name filter, picking the
 * best of a list of programs to compare, and the per-country insight counts.
 *
 * The catalog (`residency_programs`) is an input: a sequence of countries, each with its
 * programs in order. `float()` on a cleaned minimum is a caller-supplied partial parse.
 */
module Analytics {
  import opened Wrappers
  import opened Text
  import Seqs
  import StableSort

  /** One entry of a program's `investment_types`: its name and its `minimum` text. */
  datatype InvestmentType = InvestmentType(name: string, minimum: string)

  /**
   * The keys of a program record the analytics read. `None` stands for a missing key;
   * `popular` and `familyMembersEligible` are the truth values of those keys.
   */
  datatype ProgramData = ProgramData(
    residencyType: Option<string>,
    pathToCitizenship: Option<string>,
    popular: bool,
    visaFreeCountries: Option<int>,
    familyMembersEligible: bool,
    investmentTypes: Option<seq<InvestmentType>>,
    benefits: Option<seq<string>>)

  datatype ProgramEntry = ProgramEntry(name: string, data: ProgramData)

  /** A country and its programs, in the catalog's order. */
  datatype CountryEntry = CountryEntry(country: string, programs: seq<ProgramEntry>)

  /**
   * The `residency_programs` table, countries in order. The type does not force the country
   * names (or the program names within a country) to be distinct as a dict's keys are; the
   * model assumes they are, and lookups take the first match.
   */
  type Catalog = seq<CountryEntry>

  /** `float()` on a cleaned minimum: `None` where Python raises and the `except` skips it. */
  type Parser = string -> Option<real>

  /** A program together with its country, as the nested loops visit it. */
  datatype ProgramRef = ProgramRef(country: string, name: string, data: ProgramData)

  /** `prog_data.get('visa_free_countries', 0)`. */
  function VisaFree(d: ProgramData): int {
    d.visaFreeCountries.GetOr(0)
  }

  /** `prog_data.get('residency_type', 'Other')`. */
  function TypeOf(d: ProgramData): string {
    d.residencyType.GetOr("Other")
  }

  /** A path to citizenship is present, non-empty and not "no citizenship path" in any case. */
  predicate HasCitizenshipPath(r: ProgramRef) {
    var p := r.data.pathToCitizenship;
    p.Some? && p.value != "" && Lower(p.value) != "no citizenship path"
  }

  predicate IsPopular(r: ProgramRef) {
    r.data.popular
  }

  predicate IsFamilyFriendly(r: ProgramRef) {
    r.data.familyMembersEligible
  }

  /** The programs of one country, each paired with the country's name. */
  function RefsIn(country: string, programs: seq<ProgramEntry>): (refs: seq<ProgramRef>)
    ensures |refs| == |programs|
    ensures forall i :: 0 <= i < |programs| ==>
      refs[i] == ProgramRef(country, programs[i].name, programs[i].data)
    decreases |programs|
  {
    if programs == [] then []
    else
      var last := programs[|programs| - 1];
      RefsIn(country, programs[..|programs| - 1]) + [ProgramRef(country, last.name, last.data)]
  }

  /** Every program of the catalog, in the order of the nested `items()` loops. */
  function AllPrograms(catalog: Catalog): seq<ProgramRef>
    decreases |catalog|
  {
    if catalog == [] then []
    else
      var last := catalog[|catalog| - 1];
      AllPrograms(catalog[..|catalog| - 1]) + RefsIn(last.country, last.programs)
  }

  lemma RefsInStep(country: string, programs: seq<ProgramEntry>, j: nat)
    requires j < |programs|
    ensures RefsIn(country, programs[..j + 1])
      == RefsIn(country, programs[..j]) + [ProgramRef(country, programs[j].name, programs[j].data)]
  {
    assert programs[..j + 1][..j] == programs[..j];
  }

  lemma AllProgramsStep(catalog: Catalog, i: nat)
    requires i < |catalog|
    ensures AllPrograms(catalog[..i + 1])
      == AllPrograms(catalog[..i]) + RefsIn(catalog[i].country, catalog[i].programs)
  {
    assert catalog[..i + 1][..i] == catalog[..i];
  }

  // ---------------------------------------------------------------------------------------
  // Cleaning a minimum-investment text

  /**
   * What the cleaning removes, in order: the currency markers "€", "£", "CAD $", "AUD $",
   * "AED" and "SGD $", the "/year" suffix and the thousands separators.
   */
  const Markers: seq<string> := ["€", "£", "CAD $", "AUD $", "AED", "SGD $", "/year", ","]

  /** `s.replace(pats[0], '').replace(pats[1], '')...`, left to right. */
  function RemoveEach(s: string, pats: seq<string>): (t: string)
    requires forall i :: 0 <= i < |pats| ==> pats[i] != []
    ensures forall c :: c in t ==> c in s
    decreases |pats|
  {
    if pats == [] then s else RemoveEach(RemoveAll(s, pats[0]), pats[1..])
  }

  /** The minimum text with every marker removed, then stripped. */
  function CleanMinimum(minimum: string): string {
    Strip(RemoveEach(minimum, Markers))
  }

  /** A one-character pattern in the list leaves no copy of its character. */
  lemma {:induction false} RemoveEachGone(s: string, pats: seq<string>, k: nat)
    requires forall i :: 0 <= i < |pats| ==> pats[i] != []
    requires k < |pats| && |pats[k]| == 1
    ensures pats[k][0] !in RemoveEach(s, pats)
    decreases |pats|
  {
    if k == 0 {
      assert pats[0] == [pats[0][0]];
      RemoveCharGone(s, pats[0][0]);
    } else {
      RemoveEachGone(RemoveAll(s, pats[0]), pats[1..], k - 1);
    }
  }

  /** Removing patterns that do not occur changes nothing. */
  lemma {:induction false} RemoveEachAbsent(s: string, pats: seq<string>)
    requires forall i :: 0 <= i < |pats| ==> pats[i] != [] && !Contains(s, pats[i])
    ensures RemoveEach(s, pats) == s
    decreases |pats|
  {
    if pats != [] {
      RemoveAbsent(s, pats[0]);
      RemoveEachAbsent(s, pats[1..]);
    }
  }

  /** A cleaned minimum holds no comma and no euro or pound sign, and is already stripped. */
  lemma CleanedMinimumShape(minimum: string)
    ensures ',' !in CleanMinimum(minimum)
    ensures '€' !in CleanMinimum(minimum) && '£' !in CleanMinimum(minimum)
    ensures Strip(CleanMinimum(minimum)) == CleanMinimum(minimum)
  {
    var s := RemoveEach(minimum, Markers);
    RemoveEachGone(minimum, Markers, 0);
    RemoveEachGone(minimum, Markers, 1);
    RemoveEachGone(minimum, Markers, 7);
    StripSlice(s);
    StripIdempotent(s);
  }

  /** A minimum written as bare digits is already clean. */
  lemma CleanDigits(minimum: string)
    requires AllDigits(minimum)
    ensures CleanMinimum(minimum) == minimum
  {
    forall i | 0 <= i < |Markers|
      ensures !Contains(minimum, Markers[i])
    {
      NotInDigits(minimum, Markers[i], 0);
    }
    RemoveEachAbsent(minimum, Markers);
    if minimum != [] {
      assert !IsSpace(minimum[0]) && !IsSpace(minimum[|minimum| - 1]);
    }
  }

  lemma NotInDigits(s: string, pat: string, k: nat)
    requires AllDigits(s) && k < |pat| && !IsDigit(pat[k])
    ensures !Contains(s, pat)
  {
    ContainsIff(s, pat);
  }

  /** The parsed minimum of an investment type: `float()` of its cleaned `minimum`. */
  function ParsedBy(parse: Parser): InvestmentType -> Option<real> {
    (t: InvestmentType) => parse(CleanMinimum(t.minimum))
  }

  // ---------------------------------------------------------------------------------------
  // get_program_ranking

  datatype RankEntry = RankEntry(country: string, program: string, score: real, lowerIsBetter: bool)

  const RankLimit: nat := 10

  /** The running minimum over the amounts that parse (`None` while it is still infinite). */
  function MinAmount(types: seq<InvestmentType>, amount: InvestmentType -> Option<real>): (m: Option<real>)
    ensures m.Some? ==> exists i :: 0 <= i < |types| && amount(types[i]) == m
    decreases |types|
  {
    if types == [] then None
    else
      var m := MinAmount(types[..|types| - 1], amount);
      var a := amount(types[|types| - 1]);
      if a.Some? && (m.None? || a.value < m.value) then a else m
  }

  /** The running minimum is the least amount that parses, and is absent exactly when none parses. */
  lemma {:induction false} MinAmountIsLeast(types: seq<InvestmentType>, amount: InvestmentType -> Option<real>)
    ensures MinAmount(types, amount).None? <==> forall i :: 0 <= i < |types| ==> amount(types[i]).None?
    ensures MinAmount(types, amount).Some? ==> forall i :: 0 <= i < |types| && amount(types[i]).Some? ==>
      MinAmount(types, amount).value <= amount(types[i]).value
    decreases |types|
  {
    if types != [] {
      var prev := types[..|types| - 1];
      MinAmountIsLeast(prev, amount);
      assert forall i :: 0 <= i < |prev| ==> prev[i] == types[i];
    }
  }

  /** The inner loop of the "investment" criterion: the running minimum over the parsable minimums. */
  method MinimumInvestment(types: seq<InvestmentType>, parse: Parser) returns (m: Option<real>)
    ensures m == MinAmount(types, ParsedBy(parse))
  {
    m := None;
    for k := 0 to |types|
      invariant m == MinAmount(types[..k], ParsedBy(parse))
    {
      var amount := parse(CleanMinimum(types[k].minimum));
      MinAmountStep(types, k, ParsedBy(parse));
      if amount.Some? && (m.None? || amount.value < m.value) {
        m := amount;
      }
    }
    assert types[..|types|] == types;
  }

  lemma MinAmountStep(types: seq<InvestmentType>, k: nat, amount: InvestmentType -> Option<real>)
    requires k < |types|
    ensures var m, a := MinAmount(types[..k], amount), amount(types[k]);
      MinAmount(types[..k + 1], amount) == if a.Some? && (m.None? || a.value < m.value) then a else m
  {
    assert types[..k + 1][..k] == types[..k];
  }

  /** The ranking row a program contributes under `criteria`, if any. */
  function EntryFor(r: ProgramRef, criteria: string, parse: Parser): Option<RankEntry> {
    if criteria == "visa_free" then
      Some(RankEntry(r.country, r.name, VisaFree(r.data) as real, false))
    else if criteria == "investment" && r.data.investmentTypes.Some? then
      match MinAmount(r.data.investmentTypes.value, ParsedBy(parse))
      case None => None
      case Some(m) => Some(RankEntry(r.country, r.name, m, true))
    else if criteria == "benefits" && r.data.benefits.Some? then
      Some(RankEntry(r.country, r.name, |r.data.benefits.value| as real, false))
    else
      None
  }

  /** The unsorted rows, in catalog order. */
  function Entries(refs: seq<ProgramRef>, criteria: string, parse: Parser): (es: seq<RankEntry>)
    ensures |es| <= |refs|
    decreases |refs|
  {
    if refs == [] then []
    else
      var e := EntryFor(refs[|refs| - 1], criteria, parse);
      Entries(refs[..|refs| - 1], criteria, parse) + (if e.Some? then [e.value] else [])
  }

  lemma EntriesStep(refs: seq<ProgramRef>, r: ProgramRef, criteria: string, parse: Parser)
    ensures Entries(refs + [r], criteria, parse) == Entries(refs, criteria, parse)
      + (if EntryFor(r, criteria, parse).Some? then [EntryFor(r, criteria, parse).value] else [])
  {
    assert (refs + [r])[..|refs|] == refs;
  }

  function Descending(e: RankEntry): real {
    e.score
  }

  function Ascending(e: RankEntry): real {
    -e.score
  }

  /** The sort key: ascending score for "investment", descending otherwise. */
  function RankKey(criteria: string): RankEntry -> real {
    if criteria == "investment" then Ascending else Descending
  }

  /** The top `RankLimit` rows after a stable sort on the criterion's key. */
  function Ranking(catalog: Catalog, criteria: string, parse: Parser): seq<RankEntry> {
    var sorted := StableSort.Sort(Entries(AllPrograms(catalog), criteria, parse), RankKey(criteria));
    sorted[..if |sorted| < RankLimit then |sorted| else RankLimit]
  }

  method GetProgramRanking(catalog: Catalog, criteria: string, parse: Parser)
    returns (ranked: seq<RankEntry>)
    ensures ranked == Ranking(catalog, criteria, parse)
  {
    var entries: seq<RankEntry> := [];
    ghost var seen: seq<ProgramRef> := [];
    for i := 0 to |catalog|
      invariant seen == AllPrograms(catalog[..i])
      invariant entries == Entries(seen, criteria, parse)
    {
      var c := catalog[i];
      ghost var before := seen;
      assert before + RefsIn(c.country, c.programs[..0]) == before;
      for j := 0 to |c.programs|
        invariant seen == before + RefsIn(c.country, c.programs[..j])
        invariant entries == Entries(seen, criteria, parse)
      {
        var r := ProgramRef(c.country, c.programs[j].name, c.programs[j].data);
        RefsInStep(c.country, c.programs, j);
        Seqs.AppendAssociative(before, RefsIn(c.country, c.programs[..j]), [r]);
        EntriesStep(seen, r, criteria, parse);
        entries := RankProgram(entries, r, criteria, parse);
        seen := seen + [r];
      }
      assert c.programs[..|c.programs|] == c.programs;
      AllProgramsStep(catalog, i);
    }
    assert catalog[..|catalog|] == catalog;
    var a := new RankEntry[|entries|](k requires 0 <= k < |entries| => entries[k]);
    assert a[..] == entries;
    StableSort.SortDescending(a, RankKey(criteria));
    ranked := a[..if a.Length < RankLimit then a.Length else RankLimit];
  }

  /** One program: append its ranking row under `criteria`, if it has one. */
  method RankProgram(entries: seq<RankEntry>, r: ProgramRef, criteria: string, parse: Parser)
    returns (entries': seq<RankEntry>)
    ensures var e := EntryFor(r, criteria, parse); entries' == entries + (if e.Some? then [e.value] else [])
  {
    entries' := entries;
    if criteria == "visa_free" {
      entries' := entries + [RankEntry(r.country, r.name, VisaFree(r.data) as real, false)];
    } else if criteria == "investment" && r.data.investmentTypes.Some? {
      var minInvestment := MinimumInvestment(r.data.investmentTypes.value, parse);
      if minInvestment.Some? {
        entries' := entries + [RankEntry(r.country, r.name, minInvestment.value, true)];
      }
    } else if criteria == "benefits" && r.data.benefits.Some? {
      entries' := entries + [RankEntry(r.country, r.name, |r.data.benefits.value| as real, false)];
    }
    if EntryFor(r, criteria, parse).None? {
      assert entries + [] == entries;
    }
  }

  /** The first ten rows, or all of them when there are fewer; each is the row of some program of the catalog. */
  lemma RankingBounded(catalog: Catalog, criteria: string, parse: Parser)
    ensures |Ranking(catalog, criteria, parse)| <= RankLimit
    ensures var n := |Entries(AllPrograms(catalog), criteria, parse)|;
      |Ranking(catalog, criteria, parse)| == if n < RankLimit then n else RankLimit
    ensures forall e :: e in Ranking(catalog, criteria, parse) ==> e in Entries(AllPrograms(catalog), criteria, parse)
  {
    var es := Entries(AllPrograms(catalog), criteria, parse);
    var sorted := StableSort.Sort(es, RankKey(criteria));
    StableSort.SortPermutes(es, RankKey(criteria));
    forall e | e in Ranking(catalog, criteria, parse)
      ensures e in es
    {
      assert e in sorted;
      assert e in multiset(sorted);
    }
  }

  /** "investment" rows come in ascending score, the rows of the other criteria in descending score. */
  lemma RankingOrdered(catalog: Catalog, criteria: string, parse: Parser)
    ensures var ranked := Ranking(catalog, criteria, parse);
      forall i, j :: 0 <= i < j < |ranked| ==>
        if criteria == "investment" then ranked[i].score <= ranked[j].score
        else ranked[i].score >= ranked[j].score
  {
    var es := Entries(AllPrograms(catalog), criteria, parse);
    var sorted := StableSort.Sort(es, RankKey(criteria));
    StableSort.SortIsSorted(es, RankKey(criteria));
    var ranked := Ranking(catalog, criteria, parse);
    forall i, j | 0 <= i < j < |ranked|
      ensures if criteria == "investment" then ranked[i].score <= ranked[j].score
        else ranked[i].score >= ranked[j].score
    {
      assert ranked[i] == sorted[i] && ranked[j] == sorted[j];
      assert RankKey(criteria)(sorted[i]) >= RankKey(criteria)(sorted[j]);
    }
  }

  /** A row that did not make the top ten is no better than any row that did. */
  lemma RankingKeepsBest(catalog: Catalog, criteria: string, parse: Parser, e: RankEntry)
    requires e in Entries(AllPrograms(catalog), criteria, parse)
    requires e !in Ranking(catalog, criteria, parse)
    ensures forall t :: t in Ranking(catalog, criteria, parse) ==>
      if criteria == "investment" then t.score <= e.score else t.score >= e.score
  {
    var es := Entries(AllPrograms(catalog), criteria, parse);
    var sorted := StableSort.Sort(es, RankKey(criteria));
    StableSort.SortPrefixDominates(es, RankKey(criteria), RankLimit, e);
    assert Ranking(catalog, criteria, parse) == sorted[..if RankLimit < |es| then RankLimit else |es|];
    forall t | t in Ranking(catalog, criteria, parse)
      ensures if criteria == "investment" then t.score <= e.score else t.score >= e.score
    {
      assert RankKey(criteria)(t) >= RankKey(criteria)(e);
    }
  }

  /**
   * Under "investment" a program is ranked by its least parsable minimum, marked lower-is-better,
   * and left out when it has no investment types or none of its minimums parses.
   */
  lemma InvestmentRow(r: ProgramRef, parse: Parser)
    ensures EntryFor(r, "investment", parse).Some? <==> (r.data.investmentTypes.Some?
      && exists i :: 0 <= i < |r.data.investmentTypes.value| && ParsedBy(parse)(r.data.investmentTypes.value[i]).Some?)
    ensures EntryFor(r, "investment", parse).Some? ==>
      var e, types := EntryFor(r, "investment", parse).value, r.data.investmentTypes.value;
      e == RankEntry(r.country, r.name, e.score, true)
      && (exists i :: 0 <= i < |types| && ParsedBy(parse)(types[i]) == Some(e.score))
      && forall i :: 0 <= i < |types| && ParsedBy(parse)(types[i]).Some? ==> e.score <= ParsedBy(parse)(types[i]).value
  {
    if r.data.investmentTypes.Some? {
      MinAmountIsLeast(r.data.investmentTypes.value, ParsedBy(parse));
    }
  }

  lemma {:induction false} EntriesNone(refs: seq<ProgramRef>, criteria: string, parse: Parser)
    requires criteria != "visa_free" && criteria != "investment" && criteria != "benefits"
    ensures Entries(refs, criteria, parse) == []
    decreases |refs|
  {
    if refs != [] {
      EntriesNone(refs[..|refs| - 1], criteria, parse);
    }
  }

  /** A criterion other than "visa_free", "investment" and "benefits" ranks nothing. */
  lemma UnknownCriterionRanksNothing(catalog: Catalog, criteria: string, parse: Parser)
    requires criteria != "visa_free" && criteria != "investment" && criteria != "benefits"
    ensures Ranking(catalog, criteria, parse) == []
  {
    EntriesNone(AllPrograms(catalog), criteria, parse);
  }

  /** Ranking by "processing_time", which the function's documentation offers, gives an empty list. */
  lemma ProcessingTimeRanksNothing(catalog: Catalog, parse: Parser)
    ensures Ranking(catalog, "processing_time", parse) == []
  {
    UnknownCriterionRanksNothing(catalog, "processing_time", parse);
  }

  lemma {:induction false} EntriesAll(refs: seq<ProgramRef>, parse: Parser)
    ensures |Entries(refs, "visa_free", parse)| == |refs|
    decreases |refs|
  {
    if refs != [] {
      EntriesAll(refs[..|refs| - 1], parse);
    }
  }

  /** Every program has a "visa_free" row, so that ranking is as long as the catalog allows. */
  lemma VisaFreeRanksEveryProgram(catalog: Catalog, parse: Parser)
    ensures var n := |AllPrograms(catalog)|;
      |Ranking(catalog, "visa_free", parse)| == if n < RankLimit then n else RankLimit
  {
    EntriesAll(AllPrograms(catalog), parse);
  }

  // ---------------------------------------------------------------------------------------
  // get_program_analytics: counting and bucketing

  /** A country or program-name filter: unset or empty passes everything, else names match ignoring case. */
  predicate Passes(filter: Option<string>, name: string) {
    filter.None? || filter.value == "" || Lower(name) == Lower(filter.value)
  }

  function Selector(country: Option<string>, programName: Option<string>): ProgramRef -> bool {
    (r: ProgramRef) => Passes(country, r.country) && Passes(programName, r.name)
  }

  /** The programs that pass both filters, in catalog order. */
  function Selected(catalog: Catalog, country: Option<string>, programName: Option<string>): seq<ProgramRef> {
    Seqs.Filter(AllPrograms(catalog), Selector(country, programName))
  }

  /** The four `investment_range` buckets. */
  datatype RangeBucket = Under50k | From50kTo250k | From250kTo500k | Above500k

  function BucketOf(amount: real): RangeBucket {
    if amount < 50000.0 then Under50k
    else if amount < 250000.0 then From50kTo250k
    else if amount < 500000.0 then From250kTo500k
    else Above500k
  }

  datatype PopularEntry = PopularEntry(country: string, program: string, visaFree: int)

  /** One parsable minimum: its program, its amount and its investment type. */
  datatype RangeEntry = RangeEntry(country: string, program: string, amount: real, investmentType: string)

  /** The `popular_programs` rows of the popular programs among `refs`. */
  function PopularOf(refs: seq<ProgramRef>): seq<PopularEntry>
    decreases |refs|
  {
    if refs == [] then []
    else
      var r := refs[|refs| - 1];
      PopularOf(refs[..|refs| - 1]) + (if r.data.popular then [PopularEntry(r.country, r.name, VisaFree(r.data))] else [])
  }

  /** The parsable minimums among one program's investment types, in order. */
  function TypeEntries(r: ProgramRef, types: seq<InvestmentType>, amount: InvestmentType -> Option<real>): seq<RangeEntry>
    decreases |types|
  {
    if types == [] then []
    else
      var t := types[|types| - 1];
      var a := amount(t);
      TypeEntries(r, types[..|types| - 1], amount)
        + (if a.Some? then [RangeEntry(r.country, r.name, a.value, t.name)] else [])
  }

  /** The parsable minimums of all of `refs`, in order. */
  function RangeEntries(refs: seq<ProgramRef>, amount: InvestmentType -> Option<real>): seq<RangeEntry>
    decreases |refs|
  {
    if refs == [] then []
    else
      var r := refs[|refs| - 1];
      RangeEntries(refs[..|refs| - 1], amount)
        + (if r.data.investmentTypes.Some? then TypeEntries(r, r.data.investmentTypes.value, amount) else [])
  }

  function AmountsOf(es: seq<RangeEntry>): (amounts: seq<real>)
    ensures |amounts| == |es|
    decreases |es|
  {
    if es == [] then [] else AmountsOf(es[..|es| - 1]) + [es[|es| - 1].amount]
  }

  function InBucket(b: RangeBucket): RangeEntry -> bool {
    (e: RangeEntry) => BucketOf(e.amount) == b
  }

  /** What the loops accumulate over the selected programs. */
  datatype Tally = Tally(
    totalPrograms: nat,
    programsWithCitizenship: nat,
    popularPrograms: seq<PopularEntry>,
    amounts: seq<real>,
    under50k: seq<RangeEntry>,
    from50kTo250k: seq<RangeEntry>,
    from250kTo500k: seq<RangeEntry>,
    above500k: seq<RangeEntry>)

  /**
   * The tally of a sequence of programs, stated outright: their number, how many have a
   * citizenship path, the popular ones, and their parsable minimums with each bucket holding
   * the minimums in its range.
   */
  function TallyFrom(total: nat, citizenship: nat, popular: seq<PopularEntry>, es: seq<RangeEntry>): Tally {
    Tally(total, citizenship, popular, AmountsOf(es),
      Seqs.Filter(es, InBucket(Under50k)), Seqs.Filter(es, InBucket(From50kTo250k)),
      Seqs.Filter(es, InBucket(From250kTo500k)), Seqs.Filter(es, InBucket(Above500k)))
  }

  function TallyOf(refs: seq<ProgramRef>, parse: Parser): Tally {
    TallyFrom(|refs|, Seqs.Count(refs, HasCitizenshipPath), PopularOf(refs), RangeEntries(refs, ParsedBy(parse)))
  }

  function Sum(xs: seq<real>): real
    decreases |xs|
  {
    if xs == [] then 0.0 else Sum(xs[..|xs| - 1]) + xs[|xs| - 1]
  }

  /** The mean of the parsed minimums, absent when there are none. */
  function Average(xs: seq<real>): Option<real> {
    if xs == [] then None else Some(Sum(xs) / |xs| as real)
  }

  datatype ProgramAnalytics = ProgramAnalytics(programs: Tally, totalCountries: nat, averageInvestment: Option<real>)

  /**
   * The analytics of the programs that pass the filters; `totalCountries` counts every
   * country of the catalog whatever the filters.
   */
  function AnalyticsOf(catalog: Catalog, country: Option<string>, programName: Option<string>, parse: Parser): ProgramAnalytics {
    var t := TallyOf(Selected(catalog, country, programName), parse);
    ProgramAnalytics(t, |catalog|, Average(t.amounts))
  }

  // The loops' own steps, one program and one parsable minimum at a time.

  function AddEntry(t: Tally, e: RangeEntry): Tally {
    var t := t.(amounts := t.amounts + [e.amount]);
    if e.amount < 50000.0 then t.(under50k := t.under50k + [e])
    else if e.amount < 250000.0 then t.(from50kTo250k := t.from50kTo250k + [e])
    else if e.amount < 500000.0 then t.(from250kTo500k := t.from250kTo500k + [e])
    else t.(above500k := t.above500k + [e])
  }

  function AddMinimums(t: Tally, r: ProgramRef, types: seq<InvestmentType>, amount: InvestmentType -> Option<real>): Tally
    decreases |types|
  {
    if types == [] then t
    else
      var u := AddMinimums(t, r, types[..|types| - 1], amount);
      var last := types[|types| - 1];
      var a := amount(last);
      if a.Some? then AddEntry(u, RangeEntry(r.country, r.name, a.value, last.name)) else u
  }

  function AddProgram(t: Tally, r: ProgramRef, parse: Parser): Tally {
    var t := t.(totalPrograms := t.totalPrograms + 1,
                programsWithCitizenship := t.programsWithCitizenship + (if HasCitizenshipPath(r) then 1 else 0),
                popularPrograms := t.popularPrograms + (if r.data.popular then [PopularEntry(r.country, r.name, VisaFree(r.data))] else []));
    if r.data.investmentTypes.Some? then AddMinimums(t, r, r.data.investmentTypes.value, ParsedBy(parse)) else t
  }

  function Tallied(refs: seq<ProgramRef>, parse: Parser): Tally
    decreases |refs|
  {
    if refs == [] then Tally(0, 0, [], [], [], [], [], [])
    else AddProgram(Tallied(refs[..|refs| - 1], parse), refs[|refs| - 1], parse)
  }

  /** One more parsable minimum: its amount is appended, and the entry lands in its amount's bucket. */
  lemma TallyAdd(total: nat, citizenship: nat, popular: seq<PopularEntry>, es: seq<RangeEntry>, e: RangeEntry)
    ensures AddEntry(TallyFrom(total, citizenship, popular, es), e) == TallyFrom(total, citizenship, popular, es + [e])
  {
    assert (es + [e])[..|es|] == es;
    Seqs.FilterStep(es, e, InBucket(Under50k));
    Seqs.FilterStep(es, e, InBucket(From50kTo250k));
    Seqs.FilterStep(es, e, InBucket(From250kTo500k));
    Seqs.FilterStep(es, e, InBucket(Above500k));
  }

  lemma {:induction false} AddMinimumsMeaning(total: nat, citizenship: nat, popular: seq<PopularEntry>, es: seq<RangeEntry>,
                                              r: ProgramRef, types: seq<InvestmentType>, amount: InvestmentType -> Option<real>)
    ensures AddMinimums(TallyFrom(total, citizenship, popular, es), r, types, amount)
      == TallyFrom(total, citizenship, popular, es + TypeEntries(r, types, amount))
    decreases |types|
  {
    if types == [] {
      assert es + [] == es;
    } else {
      var prev := types[..|types| - 1];
      var last := types[|types| - 1];
      AddMinimumsMeaning(total, citizenship, popular, es, r, prev, amount);
      var a := amount(last);
      if a.Some? {
        var e := RangeEntry(r.country, r.name, a.value, last.name);
        TallyAdd(total, citizenship, popular, es + TypeEntries(r, prev, amount), e);
        assert TypeEntries(r, types, amount) == TypeEntries(r, prev, amount) + [e];
        Seqs.AppendAssociative(es, TypeEntries(r, prev, amount), [e]);
      } else {
        assert TypeEntries(r, types, amount) == TypeEntries(r, prev, amount) + [];
        assert TypeEntries(r, types, amount) == TypeEntries(r, prev, amount);
      }
    }
  }

  /** The loops' running tally is the tally of the programs seen so far. */
  lemma {:induction false} TalliedMeaning(refs: seq<ProgramRef>, parse: Parser)
    ensures Tallied(refs, parse) == TallyOf(refs, parse)
    decreases |refs|
  {
    if refs == [] {
      assert Seqs.Filter(refs, HasCitizenshipPath) == [];
    } else {
      var prev := refs[..|refs| - 1];
      var r := refs[|refs| - 1];
      TalliedMeaning(prev, parse);
      TallyOfStep(prev, r, parse);
      assert refs == prev + [r];
    }
  }

  /** Adding one program to the tally of `prev` gives the tally of `prev + [r]`. */
  lemma TallyOfStep(prev: seq<ProgramRef>, r: ProgramRef, parse: Parser)
    ensures AddProgram(TallyOf(prev, parse), r, parse) == TallyOf(prev + [r], parse)
  {
    var refs := prev + [r];
    ProgramStep(prev, r, parse);
    var es := RangeEntries(prev, ParsedBy(parse));
    var t := TallyFrom(|refs|, Seqs.Count(refs, HasCitizenshipPath), PopularOf(refs), es);
    assert AddProgram(TallyOf(prev, parse), r, parse) == if r.data.investmentTypes.Some?
      then AddMinimums(t, r, r.data.investmentTypes.value, ParsedBy(parse)) else t;
    if r.data.investmentTypes.Some? {
      AddMinimumsMeaning(|refs|, Seqs.Count(refs, HasCitizenshipPath), PopularOf(refs), es,
                         r, r.data.investmentTypes.value, ParsedBy(parse));
    } else {
      assert es + [] == es;
    }
  }

  /** One more program: its citizenship path, popularity and parsable minimums are appended. */
  lemma ProgramStep(prev: seq<ProgramRef>, r: ProgramRef, parse: Parser)
    ensures Seqs.Count(prev + [r], HasCitizenshipPath)
      == Seqs.Count(prev, HasCitizenshipPath) + (if HasCitizenshipPath(r) then 1 else 0)
    ensures PopularOf(prev + [r])
      == PopularOf(prev) + (if r.data.popular then [PopularEntry(r.country, r.name, VisaFree(r.data))] else [])
    ensures RangeEntries(prev + [r], ParsedBy(parse)) == RangeEntries(prev, ParsedBy(parse))
      + (if r.data.investmentTypes.Some? then TypeEntries(r, r.data.investmentTypes.value, ParsedBy(parse)) else [])
  {
    assert (prev + [r])[..|prev|] == prev;
    Seqs.CountStep(prev, r, HasCitizenshipPath);
  }

  method GetProgramAnalytics(catalog: Catalog, country: Option<string>, programName: Option<string>, parse: Parser)
    returns (a: ProgramAnalytics)
    ensures a == AnalyticsOf(catalog, country, programName, parse)
  {
    var t := Tally(0, 0, [], [], [], [], [], []);
    ghost var seen: seq<ProgramRef> := [];
    for i := 0 to |catalog|
      invariant seen == Selected(catalog[..i], country, programName)
      invariant t == Tallied(seen, parse)
    {
      var c := catalog[i];
      if Passes(country, c.country) {
        t := CountCountry(t, seen, c, country, programName, parse);
      } else {
        Seqs.FilterNone(RefsIn(c.country, c.programs), Selector(country, programName));
        assert seen + [] == seen;
      }
      seen := seen + Seqs.Filter(RefsIn(c.country, c.programs), Selector(country, programName));
      AllProgramsStep(catalog, i);
      Seqs.FilterAppend(AllPrograms(catalog[..i]), RefsIn(c.country, c.programs), Selector(country, programName));
    }
    assert catalog[..|catalog|] == catalog;
    TalliedMeaning(seen, parse);
    var average: Option<real> := None;
    if |t.amounts| > 0 {
      average := Some(Sum(t.amounts) / |t.amounts| as real);
    }
    a := ProgramAnalytics(t, |catalog|, average);
  }

  /** The programs of one country that passes the country filter, one by one. */
  method CountCountry(t: Tally, ghost seen: seq<ProgramRef>, c: CountryEntry,
                      country: Option<string>, programName: Option<string>, parse: Parser)
    returns (u: Tally)
    requires t == Tallied(seen, parse) && Passes(country, c.country)
    ensures u == Tallied(seen + Seqs.Filter(RefsIn(c.country, c.programs), Selector(country, programName)), parse)
  {
    u := t;
    assert c.programs[..0] == [] && seen + [] == seen;
    for j := 0 to |c.programs|
      invariant u == Tallied(seen + Seqs.Filter(RefsIn(c.country, c.programs[..j]), Selector(country, programName)), parse)
    {
      var p := c.programs[j];
      CountryStep(seen, c, j, country, programName, parse);
      if Passes(programName, p.name) {
        u := CountProgram(u, ProgramRef(c.country, p.name, p.data), parse);
      }
    }
    assert c.programs[..|c.programs|] == c.programs;
  }

  /** Visiting the next program of a country that passes the country filter. */
  lemma CountryStep(seen: seq<ProgramRef>, c: CountryEntry, j: nat,
                    country: Option<string>, programName: Option<string>, parse: Parser)
    requires j < |c.programs| && Passes(country, c.country)
    ensures var sel, p := Selector(country, programName), c.programs[j];
      var before := seen + Seqs.Filter(RefsIn(c.country, c.programs[..j]), sel);
      Tallied(seen + Seqs.Filter(RefsIn(c.country, c.programs[..j + 1]), sel), parse)
        == if Passes(programName, p.name) then AddProgram(Tallied(before, parse), ProgramRef(c.country, p.name, p.data), parse)
           else Tallied(before, parse)
  {
    var sel, p := Selector(country, programName), c.programs[j];
    var r := ProgramRef(c.country, p.name, p.data);
    var filtered := Seqs.Filter(RefsIn(c.country, c.programs[..j]), sel);
    RefsInStep(c.country, c.programs, j);
    Seqs.FilterStep(RefsIn(c.country, c.programs[..j]), r, sel);
    assert sel(r) == Passes(programName, p.name);
    if Passes(programName, p.name) {
      TalliedStep(seen + filtered, r, parse);
      Seqs.AppendAssociative(seen, filtered, [r]);
    } else {
      assert filtered + [] == filtered;
    }
  }

  /** One selected program: count it, note its citizenship path and popularity, bucket its minimums. */
  method CountProgram(t: Tally, r: ProgramRef, parse: Parser) returns (u: Tally)
    ensures u == AddProgram(t, r, parse)
  {
    u := t.(totalPrograms := t.totalPrograms + 1);
    if HasCitizenshipPath(r) {
      u := u.(programsWithCitizenship := u.programsWithCitizenship + 1);
    }
    if r.data.popular {
      u := u.(popularPrograms := u.popularPrograms + [PopularEntry(r.country, r.name, VisaFree(r.data))]);
    } else {
      assert u.popularPrograms + [] == u.popularPrograms;
    }
    if r.data.investmentTypes.Some? {
      u := CountMinimums(u, r, r.data.investmentTypes.value, parse);
    }
  }

  /** The program's investment types in order: each minimum that parses goes into the tally. */
  method CountMinimums(start: Tally, r: ProgramRef, types: seq<InvestmentType>, parse: Parser) returns (u: Tally)
    ensures u == AddMinimums(start, r, types, ParsedBy(parse))
  {
    u := start;
    for k := 0 to |types|
      invariant u == AddMinimums(start, r, types[..k], ParsedBy(parse))
    {
      var amount := parse(CleanMinimum(types[k].minimum));
      assert amount == ParsedBy(parse)(types[k]);
      AddMinimumsStep(start, r, types, k, ParsedBy(parse));
      if amount.Some? {
        u := CountMinimum(u, RangeEntry(r.country, r.name, amount.value, types[k].name));
      }
    }
    assert types[..|types|] == types;
  }

  /** One parsable minimum: record its amount and put it in the bucket of its range. */
  method CountMinimum(t: Tally, e: RangeEntry) returns (u: Tally)
    ensures u == AddEntry(t, e)
  {
    u := t.(amounts := t.amounts + [e.amount]);
    if e.amount < 50000.0 {
      u := u.(under50k := u.under50k + [e]);
    } else if e.amount < 250000.0 {
      u := u.(from50kTo250k := u.from50kTo250k + [e]);
    } else if e.amount < 500000.0 {
      u := u.(from250kTo500k := u.from250kTo500k + [e]);
    } else {
      u := u.(above500k := u.above500k + [e]);
    }
  }

  lemma AddMinimumsStep(t: Tally, r: ProgramRef, types: seq<InvestmentType>, k: nat, amount: InvestmentType -> Option<real>)
    requires k < |types|
    ensures var u, a := AddMinimums(t, r, types[..k], amount), amount(types[k]);
      AddMinimums(t, r, types[..k + 1], amount)
        == if a.Some? then AddEntry(u, RangeEntry(r.country, r.name, a.value, types[k].name)) else u
  {
    assert types[..k + 1][..k] == types[..k];
  }

  lemma TalliedStep(refs: seq<ProgramRef>, r: ProgramRef, parse: Parser)
    ensures Tallied(refs + [r], parse) == AddProgram(Tallied(refs, parse), r, parse)
  {
    assert (refs + [r])[..|refs|] == refs;
  }

  /** The four buckets split the parsable minimums: each lands in exactly the bucket of its amount. */
  lemma BucketsPartition(es: seq<RangeEntry>)
    ensures |Seqs.Filter(es, InBucket(Under50k))| + |Seqs.Filter(es, InBucket(From50kTo250k))|
      + |Seqs.Filter(es, InBucket(From250kTo500k))| + |Seqs.Filter(es, InBucket(Above500k))| == |es|
    ensures forall e, b :: e in es ==> (e in Seqs.Filter(es, InBucket(b)) <==> BucketOf(e.amount) == b)
  {
    BucketSizes(es);
    forall e, b | e in es
      ensures e in Seqs.Filter(es, InBucket(b)) <==> BucketOf(e.amount) == b
    {
      var i :| 0 <= i < |es| && es[i] == e;
      assert InBucket(b)(es[i]) == (BucketOf(e.amount) == b);
    }
  }

  lemma {:induction false} BucketSizes(es: seq<RangeEntry>)
    ensures |Seqs.Filter(es, InBucket(Under50k))| + |Seqs.Filter(es, InBucket(From50kTo250k))|
      + |Seqs.Filter(es, InBucket(From250kTo500k))| + |Seqs.Filter(es, InBucket(Above500k))| == |es|
    decreases |es|
  {
    if es != [] {
      var prev, e := es[..|es| - 1], es[|es| - 1];
      assert es == prev + [e];
      BucketSizes(prev);
      Seqs.CountStep(prev, e, InBucket(Under50k));
      Seqs.CountStep(prev, e, InBucket(From50kTo250k));
      Seqs.CountStep(prev, e, InBucket(From250kTo500k));
      Seqs.CountStep(prev, e, InBucket(Above500k));
    }
  }

  /**
   * The buckets are the half-open ranges below 50 000, from 50 000 below 250 000, from 250 000
   * below 500 000, and from 500 000 up, and together they hold every parsable minimum.
   */
  lemma AnalyticsBuckets(catalog: Catalog, country: Option<string>, programName: Option<string>, parse: Parser)
    ensures var t := AnalyticsOf(catalog, country, programName, parse).programs;
      (forall e :: e in t.under50k ==> e.amount < 50000.0)
      && (forall e :: e in t.from50kTo250k ==> 50000.0 <= e.amount < 250000.0)
      && (forall e :: e in t.from250kTo500k ==> 250000.0 <= e.amount < 500000.0)
      && (forall e :: e in t.above500k ==> 500000.0 <= e.amount)
      && |t.under50k| + |t.from50kTo250k| + |t.from250kTo500k| + |t.above500k| == |t.amounts|
  {
    var es := RangeEntries(Selected(catalog, country, programName), ParsedBy(parse));
    BucketsPartition(es);
  }

  /** An unset or empty filter selects every program of the catalog. */
  lemma UnfilteredSelectsAll(catalog: Catalog, country: Option<string>, programName: Option<string>)
    requires country == None || country == Some("")
    requires programName == None || programName == Some("")
    ensures Selected(catalog, country, programName) == AllPrograms(catalog)
  {
    Seqs.FilterAll(AllPrograms(catalog), Selector(country, programName));
  }

  /** The filters ignore case: filters with the same lower-case form give the same analytics. */
  lemma FiltersIgnoreCase(catalog: Catalog, c1: string, c2: string, n1: string, n2: string, parse: Parser)
    requires Lower(c1) == Lower(c2) && Lower(n1) == Lower(n2)
    ensures AnalyticsOf(catalog, Some(c1), Some(n1), parse) == AnalyticsOf(catalog, Some(c2), Some(n2), parse)
  {
    assert |c1| == |c2| && |n1| == |n2|;
    var refs := AllPrograms(catalog);
    Seqs.FilterAgree(refs, Selector(Some(c1), Some(n1)), Selector(Some(c2), Some(n2)));
  }

  lemma {:induction false} SumBetween(xs: seq<real>, lo: real, hi: real)
    requires forall i :: 0 <= i < |xs| ==> lo <= xs[i] <= hi
    ensures |xs| as real * lo <= Sum(xs) <= |xs| as real * hi
    decreases |xs|
  {
    if xs != [] {
      SumBetween(xs[..|xs| - 1], lo, hi);
    }
  }

  /** The average investment lies between the smallest and the largest parsed minimum. */
  lemma AverageBetween(xs: seq<real>, lo: real, hi: real)
    requires xs != [] && forall i :: 0 <= i < |xs| ==> lo <= xs[i] <= hi
    ensures Average(xs).Some? && lo <= Average(xs).value <= hi
  {
    SumBetween(xs, lo, hi);
    var n := |xs| as real;
    DivideBounds(Sum(xs), n, lo, hi);
  }

  lemma DivideBounds(s: real, n: real, lo: real, hi: real)
    requires n > 0.0 && n * lo <= s <= n * hi
    ensures lo <= s / n <= hi
  {
    assert s / n * n == s;
  }

  // ---------------------------------------------------------------------------------------
  // compare_programs: best-of tracking

  /** `residency_programs[country]`, absent when `country not in residency_programs`. */
  function CountryPrograms(catalog: Catalog, country: string): (r: Option<seq<ProgramEntry>>)
    ensures r.None? <==> forall i :: 0 <= i < |catalog| ==> catalog[i].country != country
    ensures r.Some? ==> CountryEntry(country, r.value) in catalog
    decreases |catalog|
  {
    if catalog == [] then None
    else if catalog[0].country == country then Some(catalog[0].programs)
    else CountryPrograms(catalog[1..], country)
  }

  /** `programs[name]`, absent when `name not in programs`. */
  function FindProgram(programs: seq<ProgramEntry>, name: string): (r: Option<ProgramData>)
    ensures r.None? <==> forall i :: 0 <= i < |programs| ==> programs[i].name != name
    ensures r.Some? ==> ProgramEntry(name, r.value) in programs
    decreases |programs|
  {
    if programs == [] then None
    else if programs[0].name == name then Some(programs[0].data)
    else FindProgram(programs[1..], name)
  }

  function Lookup(catalog: Catalog, country: string, name: string): Option<ProgramData> {
    match CountryPrograms(catalog, country)
    case None => None
    case Some(programs) => FindProgram(programs, name)
  }

  /** The requested (country, program) pairs that exist, in request order; the others are skipped. */
  function Known(catalog: Catalog, pairs: seq<(string, string)>): (refs: seq<ProgramRef>)
    ensures |refs| <= |pairs|
    ensures forall r :: r in refs ==> Lookup(catalog, r.country, r.name) == Some(r.data)
    ensures forall i :: 0 <= i < |pairs| && Lookup(catalog, pairs[i].0, pairs[i].1).Some? ==>
      ProgramRef(pairs[i].0, pairs[i].1, Lookup(catalog, pairs[i].0, pairs[i].1).value) in refs
    decreases |pairs|
  {
    if pairs == [] then []
    else
      var prev := pairs[..|pairs| - 1];
      var (country, name) := pairs[|pairs| - 1];
      assert forall i :: 0 <= i < |prev| ==> prev[i] == pairs[i];
      Known(catalog, prev)
        + match Lookup(catalog, country, name)
          case None => []
          case Some(d) => [ProgramRef(country, name, d)]
  }

  /** The number of benefits; a program without a `benefits` key never takes the lead, as a count of 0. */
  function BenefitCount(r: ProgramRef): int {
    if r.data.benefits.Some? then |r.data.benefits.value| else 0
  }

  function VisaFreeCount(r: ProgramRef): int {
    VisaFree(r.data)
  }

  /** The running maximum, starting from 0. */
  function RunningMax(refs: seq<ProgramRef>, score: ProgramRef -> int): int
    decreases |refs|
  {
    if refs == [] then 0
    else
      var m := RunningMax(refs[..|refs| - 1], score);
      var s := score(refs[|refs| - 1]);
      if s > m then s else m
  }

  /** The program that last raised the running maximum, if any did. */
  function Leader(refs: seq<ProgramRef>, score: ProgramRef -> int): Option<ProgramRef>
    decreases |refs|
  {
    if refs == [] then None
    else
      var prev := refs[..|refs| - 1];
      if score(refs[|refs| - 1]) > RunningMax(prev, score) then Some(refs[|refs| - 1]) else Leader(prev, score)
  }

  lemma LeaderStep(refs: seq<ProgramRef>, r: ProgramRef, score: ProgramRef -> int)
    ensures RunningMax(refs + [r], score) == if score(r) > RunningMax(refs, score) then score(r) else RunningMax(refs, score)
    ensures Leader(refs + [r], score) == if score(r) > RunningMax(refs, score) then Some(r) else Leader(refs, score)
  {
    assert (refs + [r])[..|refs|] == refs;
  }

  /**
   * The leader is the first program with the largest score, and there is none exactly when no
   * score is positive: a later program must beat the maximum strictly to take over.
   */
  lemma {:induction false} LeaderIsFirstMaximum(refs: seq<ProgramRef>, score: ProgramRef -> int)
    ensures RunningMax(refs, score) >= 0
    ensures forall i :: 0 <= i < |refs| ==> score(refs[i]) <= RunningMax(refs, score)
    ensures RunningMax(refs, score) == 0 || exists i :: 0 <= i < |refs| && score(refs[i]) == RunningMax(refs, score)
    ensures Leader(refs, score).None? <==> forall i :: 0 <= i < |refs| ==> score(refs[i]) <= 0
    ensures Leader(refs, score).Some? ==> exists i :: (0 <= i < |refs| && refs[i] == Leader(refs, score).value
      && score(refs[i]) == RunningMax(refs, score) && forall j :: 0 <= j < i ==> score(refs[j]) < score(refs[i]))
    decreases |refs|
  {
    if refs != [] {
      var prev := refs[..|refs| - 1];
      var last := |refs| - 1;
      LeaderIsFirstMaximum(prev, score);
      assert forall i :: 0 <= i < |prev| ==> prev[i] == refs[i];
      if score(refs[last]) > RunningMax(prev, score) {
        assert refs[last] == Leader(refs, score).value;
      }
    }
  }

  /** A `best_for` entry: the program's country and name and its count. */
  datatype Pick = Pick(country: string, program: string, count: int)

  function PickOf(leader: Option<ProgramRef>, score: ProgramRef -> int): Option<Pick> {
    match leader
    case None => None
    case Some(r) => Some(Pick(r.country, r.name, score(r)))
  }

  datatype Comparison = Comparison(programs: seq<ProgramRef>, mostBenefits: Option<Pick>, bestVisaFreeAccess: Option<Pick>)

  function ComparisonOf(catalog: Catalog, pairs: seq<(string, string)>): Comparison {
    var known := Known(catalog, pairs);
    Comparison(known, PickOf(Leader(known, BenefitCount), BenefitCount), PickOf(Leader(known, VisaFreeCount), VisaFreeCount))
  }

  method ComparePrograms(catalog: Catalog, pairs: seq<(string, string)>) returns (c: Comparison)
    ensures c == ComparisonOf(catalog, pairs)
  {
    var programs: seq<ProgramRef> := [];
    var maxBenefits, maxVisaFree := 0, 0;
    var mostBenefits: Option<Pick> := None;
    var bestVisaFree: Option<Pick> := None;
    for i := 0 to |pairs|
      invariant programs == Known(catalog, pairs[..i])
      invariant maxBenefits == RunningMax(programs, BenefitCount)
      invariant mostBenefits == PickOf(Leader(programs, BenefitCount), BenefitCount)
      invariant maxVisaFree == RunningMax(programs, VisaFreeCount)
      invariant bestVisaFree == PickOf(Leader(programs, VisaFreeCount), VisaFreeCount)
    {
      var (country, name) := pairs[i];
      assert pairs[..i + 1][..i] == pairs[..i];
      var found := CountryPrograms(catalog, country);
      if found.Some? {
        var data := FindProgram(found.value, name);
        if data.Some? {
          var d := data.value;
          var r := ProgramRef(country, name, d);
          LeaderStep(programs, r, BenefitCount);
          LeaderStep(programs, r, VisaFreeCount);
          LeaderIsFirstMaximum(programs, BenefitCount);
          programs := programs + [r];
          if d.benefits.Some? {
            var n := |d.benefits.value|;
            if n > maxBenefits {
              maxBenefits := n;
              mostBenefits := Some(Pick(country, name, n));
            }
          }
          var visaFree := VisaFree(d);
          if visaFree > maxVisaFree {
            maxVisaFree := visaFree;
            bestVisaFree := Some(Pick(country, name, visaFree));
          }
        }
      }
    }
    assert pairs[..|pairs|] == pairs;
    c := Comparison(programs, mostBenefits, bestVisaFree);
  }

  /**
   * Each `best_for` pick names the first compared program with the largest count, with that
   * count, and is absent exactly when no compared program has a positive count.
   */
  lemma BestPick(refs: seq<ProgramRef>, score: ProgramRef -> int)
    ensures var p := PickOf(Leader(refs, score), score);
      (p.None? <==> forall i :: 0 <= i < |refs| ==> score(refs[i]) <= 0)
      && (p.Some? ==> exists i :: (0 <= i < |refs|
            && p.value == Pick(refs[i].country, refs[i].name, score(refs[i]))
            && (forall j :: 0 <= j < i ==> score(refs[j]) < score(refs[i]))
            && (forall j :: 0 <= j < |refs| ==> score(refs[j]) <= score(refs[i]))))
  {
    LeaderIsFirstMaximum(refs, score);
  }

  /**
   * "most_benefits" is absent exactly when no compared program lists a benefit; otherwise it
   * names the first compared program with the most benefits.
   */
  lemma MostBenefitsPick(catalog: Catalog, pairs: seq<(string, string)>)
    ensures var c := ComparisonOf(catalog, pairs);
      (c.mostBenefits.None? <==> forall i :: 0 <= i < |c.programs| ==> BenefitCount(c.programs[i]) == 0)
      && (c.mostBenefits.Some? ==> exists i :: (0 <= i < |c.programs|
            && c.mostBenefits.value == Pick(c.programs[i].country, c.programs[i].name, BenefitCount(c.programs[i]))
            && forall j :: 0 <= j < |c.programs| ==>
                 (j < i ==> BenefitCount(c.programs[j]) < BenefitCount(c.programs[i]))
                 && BenefitCount(c.programs[j]) <= BenefitCount(c.programs[i])))
  {
    BestPick(Known(catalog, pairs), BenefitCount);
  }

  /**
   * "best_visa_free_access" is absent exactly when no compared program has a positive
   * visa-free count; otherwise it names the first compared program with the largest count.
   */
  lemma BestVisaFreePick(catalog: Catalog, pairs: seq<(string, string)>)
    ensures var c := ComparisonOf(catalog, pairs);
      (c.bestVisaFreeAccess.None? <==> forall i :: 0 <= i < |c.programs| ==> VisaFreeCount(c.programs[i]) <= 0)
      && (c.bestVisaFreeAccess.Some? ==> exists i :: (0 <= i < |c.programs|
            && c.bestVisaFreeAccess.value == Pick(c.programs[i].country, c.programs[i].name, VisaFreeCount(c.programs[i]))
            && forall j :: 0 <= j < |c.programs| ==>
                 (j < i ==> VisaFreeCount(c.programs[j]) < VisaFreeCount(c.programs[i]))
                 && VisaFreeCount(c.programs[j]) <= VisaFreeCount(c.programs[i])))
  {
    BestPick(Known(catalog, pairs), VisaFreeCount);
  }

  // ---------------------------------------------------------------------------------------
  // get_program_insights: counting

  /** How many programs of each residency type, as the `program_types` dict counts them. */
  function TypeCounts(refs: seq<ProgramRef>): map<string, nat>
    decreases |refs|
  {
    if refs == [] then map[]
    else CountType(TypeCounts(refs[..|refs| - 1]), TypeOf(refs[|refs| - 1].data))
  }

  /** One more program of type `t`: a new key starts at zero, then the count goes up by one. */
  function CountType(m: map<string, nat>, t: string): map<string, nat> {
    var m := if t in m then m else m[t := 0];
    m[t := m[t] + 1]
  }

  function OfType(t: string): ProgramRef -> bool {
    (r: ProgramRef) => TypeOf(r.data) == t
  }

  /** The keys are the types that occur, each counting the programs of that type. */
  lemma TypeCountsCount(refs: seq<ProgramRef>)
    ensures forall t :: t in TypeCounts(refs) <==> exists i :: 0 <= i < |refs| && TypeOf(refs[i].data) == t
    ensures forall t :: t in TypeCounts(refs) ==> TypeCounts(refs)[t] == Seqs.Count(refs, OfType(t))
  {
    TypeCountsTotal(refs);
    TypeCountsPositive(refs);
    forall t
      ensures t in TypeCounts(refs) <==> exists i :: 0 <= i < |refs| && TypeOf(refs[i].data) == t
    {
      var matching := Seqs.Filter(refs, OfType(t));
      if t in TypeCounts(refs) {
        assert matching[0] in matching;
        var i :| 0 <= i < |refs| && refs[i] == matching[0];
      }
      if exists i :: 0 <= i < |refs| && TypeOf(refs[i].data) == t {
        var i :| 0 <= i < |refs| && TypeOf(refs[i].data) == t;
        assert refs[i] in matching;
      }
    }
  }

  /** The count a type has in a `program_types` dict, zero when it has no key. */
  function CountOf(m: map<string, nat>, t: string): nat {
    if t in m then m[t] else 0
  }

  /** Every type, present or not, has as its count the number of programs of that type. */
  lemma {:induction false} TypeCountsTotal(refs: seq<ProgramRef>)
    ensures forall t :: CountOf(TypeCounts(refs), t) == Seqs.Count(refs, OfType(t))
    decreases |refs|
  {
    if refs != [] {
      var prev, r := refs[..|refs| - 1], refs[|refs| - 1];
      TypeCountsTotal(prev);
      assert refs == prev + [r];
      forall t
        ensures CountOf(TypeCounts(refs), t) == Seqs.Count(refs, OfType(t))
      {
        CountTypeCountOf(TypeCounts(prev), TypeOf(r.data), t);
        Seqs.CountStep(prev, r, OfType(t));
      }
    }
  }

  lemma CountTypeCountOf(m: map<string, nat>, u: string, t: string)
    ensures CountOf(CountType(m, u), t) == CountOf(m, t) + (if t == u then 1 else 0)
  {
  }

  /** Only types that occur get a key, so every count in the dict is positive. */
  lemma {:induction false} TypeCountsPositive(refs: seq<ProgramRef>)
    ensures forall t :: t in TypeCounts(refs) ==> TypeCounts(refs)[t] > 0
    decreases |refs|
  {
    if refs != [] {
      TypeCountsPositive(refs[..|refs| - 1]);
    }
  }

  function PopularNames(refs: seq<ProgramRef>): seq<string>
    decreases |refs|
  {
    if refs == [] then []
    else
      var r := refs[|refs| - 1];
      PopularNames(refs[..|refs| - 1]) + (if r.data.popular then [r.name] else [])
  }

  datatype Insights = Insights(
    country: string,
    totalPrograms: nat,
    programTypes: map<string, nat>,
    programsWithCitizenship: nat,
    familyFriendlyCount: nat,
    popularPrograms: seq<string>)

  /** The insights of a country, absent when the catalog does not list it. */
  function InsightsOf(catalog: Catalog, country: string): Option<Insights> {
    match CountryPrograms(catalog, country)
    case None => None
    case Some(programs) =>
      var refs := RefsIn(country, programs);
      Some(Insights(country, |programs|, TypeCounts(refs), Seqs.Count(refs, HasCitizenshipPath),
                    Seqs.Count(refs, IsFamilyFriendly), PopularNames(refs)))
  }

  method GetProgramInsights(catalog: Catalog, country: string) returns (insights: Option<Insights>)
    ensures insights == InsightsOf(catalog, country)
  {
    var found := CountryPrograms(catalog, country);
    if found.None? {
      return None;
    }
    var programs := found.value;
    var citizenship, family := 0, 0;
    var types: map<string, nat> := map[];
    var popular: seq<string> := [];
    ghost var refs: seq<ProgramRef> := [];
    for i := 0 to |programs|
      invariant refs == RefsIn(country, programs[..i])
      invariant citizenship == Seqs.Count(refs, HasCitizenshipPath)
      invariant family == Seqs.Count(refs, IsFamilyFriendly)
      invariant types == TypeCounts(refs)
      invariant popular == PopularNames(refs)
    {
      var r := ProgramRef(country, programs[i].name, programs[i].data);
      RefsInStep(country, programs, i);
      InsightsStep(refs, r);
      citizenship, family, types, popular := CountInsight(citizenship, family, types, popular, r);
      refs := refs + [r];
    }
    assert programs[..|programs|] == programs;
    insights := Some(Insights(country, |programs|, types, citizenship, family, popular));
  }

  /** One program: count its type, its citizenship path and its family eligibility, and note it if popular. */
  method CountInsight(citizenship: nat, family: nat, types: map<string, nat>, popular: seq<string>, r: ProgramRef)
    returns (citizenship': nat, family': nat, types': map<string, nat>, popular': seq<string>)
    ensures citizenship' == citizenship + (if HasCitizenshipPath(r) then 1 else 0)
    ensures family' == family + (if IsFamilyFriendly(r) then 1 else 0)
    ensures types' == CountType(types, TypeOf(r.data))
    ensures popular' == popular + (if r.data.popular then [r.name] else [])
  {
    var t := TypeOf(r.data);
    types' := types;
    if t !in types' {
      types' := types'[t := 0];
    }
    types' := types'[t := types'[t] + 1];
    citizenship', family', popular' := citizenship, family, popular;
    if HasCitizenshipPath(r) {
      citizenship' := citizenship' + 1;
    }
    if r.data.familyMembersEligible {
      family' := family' + 1;
    }
    if r.data.popular {
      popular' := popular' + [r.name];
    } else {
      assert popular + [] == popular;
    }
  }

  /** One more program: each of the four insights takes it into account. */
  lemma InsightsStep(refs: seq<ProgramRef>, r: ProgramRef)
    ensures Seqs.Count(refs + [r], HasCitizenshipPath) == Seqs.Count(refs, HasCitizenshipPath) + (if HasCitizenshipPath(r) then 1 else 0)
    ensures Seqs.Count(refs + [r], IsFamilyFriendly) == Seqs.Count(refs, IsFamilyFriendly) + (if IsFamilyFriendly(r) then 1 else 0)
    ensures TypeCounts(refs + [r]) == CountType(TypeCounts(refs), TypeOf(r.data))
    ensures PopularNames(refs + [r]) == PopularNames(refs) + (if r.data.popular then [r.name] else [])
  {
    Seqs.CountStep(refs, r, HasCitizenshipPath);
    Seqs.CountStep(refs, r, IsFamilyFriendly);
    TypeCountsStep(refs, r);
    PopularNamesStep(refs, r);
  }

  lemma TypeCountsStep(refs: seq<ProgramRef>, r: ProgramRef)
    ensures TypeCounts(refs + [r]) == CountType(TypeCounts(refs), TypeOf(r.data))
  {
    assert (refs + [r])[..|refs|] == refs;
  }

  lemma PopularNamesStep(refs: seq<ProgramRef>, r: ProgramRef)
    ensures PopularNames(refs + [r]) == PopularNames(refs) + (if r.data.popular then [r.name] else [])
  {
    assert (refs + [r])[..|refs|] == refs;
  }

  /** The insight counts never exceed the number of programs, and each type count is a real count. */
  lemma InsightsCounts(catalog: Catalog, country: string)
    ensures InsightsOf(catalog, country).None? <==> forall i :: 0 <= i < |catalog| ==> catalog[i].country != country
    ensures InsightsOf(catalog, country).Some? ==>
      var s, refs := InsightsOf(catalog, country).value, RefsIn(country, CountryPrograms(catalog, country).value);
      s.programsWithCitizenship <= s.totalPrograms && s.familyFriendlyCount <= s.totalPrograms
      && (forall t :: t in s.programTypes ==> 0 < s.programTypes[t] == Seqs.Count(refs, OfType(t)))
  {
    if CountryPrograms(catalog, country).Some? {
      var refs := RefsIn(country, CountryPrograms(catalog, country).value);
      TypeCountsTotal(refs);
      TypeCountsPositive(refs);
    }
  }
}
