/**
 * The string primitives the program's parsers are built from: substring search, ASCII
 * lower-casing, the maximal runs of a character class (what `re.findall` returns for a
 * pattern `[class]+`), and the value of a string of decimal digits.
 */
module Text {
  import Seqs

  /** `pat` occurs in `s` starting at index `i`. */
  predicate OccursAt(s: string, pat: string, i: int) {
    0 <= i && i + |pat| <= |s| && s[i..i + |pat|] == pat
  }

  /** Python's `pat in s` on strings. */
  predicate Contains(s: string, pat: string)
    decreases |s|
  {
    |pat| <= |s| && (s[..|pat|] == pat || Contains(s[1..], pat))
  }

  /** `Contains` finds an occurrence exactly when there is one. */
  lemma {:induction false} ContainsIff(s: string, pat: string)
    ensures Contains(s, pat) <==> exists i :: OccursAt(s, pat, i)
    decreases |s|
  {
    if exists i :: OccursAt(s, pat, i) {
      var i :| OccursAt(s, pat, i);
      if i > 0 {
        assert s[1..][i - 1..i - 1 + |pat|] == s[i..i + |pat|];
        assert OccursAt(s[1..], pat, i - 1);
        ContainsIff(s[1..], pat);
      }
    }
    if Contains(s, pat) && s[..|pat|] != pat {
      ContainsIff(s[1..], pat);
      var i :| OccursAt(s[1..], pat, i);
      assert s[1..][i..i + |pat|] == s[i + 1..i + 1 + |pat|];
      assert OccursAt(s, pat, i + 1);
    }
    if Contains(s, pat) && s[..|pat|] == pat {
      assert OccursAt(s, pat, 0);
    }
  }

  /** An occurrence inside a part is an occurrence in the whole. */
  lemma ContainsInfix(a: string, pat: string, b: string)
    ensures Contains(pat, pat)
    ensures Contains(a + pat + b, pat)
  {
    ContainsIff(pat, pat);
    assert OccursAt(pat, pat, 0);
    var s := a + pat + b;
    assert s[|a|..|a| + |pat|] == pat;
    assert OccursAt(s, pat, |a|);
    ContainsIff(s, pat);
  }

  /** Every character of `s` is drawn from `alphabet`. */
  predicate Over(s: string, alphabet: string) {
    forall i :: 0 <= i < |s| ==> s[i] in alphabet
  }

  /** A pattern with a character outside the alphabet of `s` does not occur in `s`. */
  lemma OutsideAlphabetNotContained(s: string, alphabet: string, pat: string, k: nat)
    requires Over(s, alphabet)
    requires k < |pat| && pat[k] !in alphabet
    ensures !Contains(s, pat)
  {
    ContainsIff(s, pat);
  }

  /**
   * Python's `s.replace(pat, '')`: occurrences of `pat` are removed scanning left to right,
   * an occurrence starting where the previous one ended.
   */
  function RemoveAll(s: string, pat: string): (t: string)
    requires pat != []
    ensures |t| <= |s|
    ensures forall c :: c in t ==> c in s
    decreases |s|
  {
    if |s| < |pat| then s
    else if s[..|pat|] == pat then RemoveAll(s[|pat|..], pat)
    else [s[0]] + RemoveAll(s[1..], pat)
  }

  /** Removing a pattern that does not occur changes nothing. */
  lemma {:induction false} RemoveAbsent(s: string, pat: string)
    requires pat != [] && !Contains(s, pat)
    ensures RemoveAll(s, pat) == s
    decreases |s|
  {
    if |s| >= |pat| {
      RemoveAbsent(s[1..], pat);
      assert s == [s[0]] + s[1..];
    }
  }

  /** Removing a one-character pattern leaves no copy of that character. */
  lemma {:induction false} RemoveCharGone(s: string, c: char)
    ensures c !in RemoveAll(s, [c])
    decreases |s|
  {
    if |s| >= 1 {
      if s[..1] == [c] {
        RemoveCharGone(s[1..], c);
      } else {
        RemoveCharGone(s[1..], c);
        assert s[0] != c by { assert s[..1] == [s[0]]; }
      }
    }
  }

  /** The whitespace `str.strip()` removes, restricted to ASCII. */
  predicate IsSpace(c: char) {
    c == ' ' || 9 <= c as int <= 13 || 28 <= c as int <= 31
  }

  /** `str.lstrip()`: the suffix left after the leading whitespace. */
  function StripStart(s: string): (t: string)
    ensures |t| <= |s| && t == s[|s| - |t|..]
    ensures forall i :: 0 <= i < |s| - |t| ==> IsSpace(s[i])
    ensures t != [] ==> !IsSpace(t[0])
    decreases |s|
  {
    if s != [] && IsSpace(s[0]) then StripStart(s[1..]) else s
  }

  /** `str.rstrip()`: the prefix left before the trailing whitespace. */
  function StripEnd(s: string): (t: string)
    ensures |t| <= |s| && t == s[..|t|]
    ensures forall i :: |t| <= i < |s| ==> IsSpace(s[i])
    ensures t != [] ==> !IsSpace(t[|t| - 1])
    decreases |s|
  {
    if s != [] && IsSpace(s[|s| - 1]) then StripEnd(s[..|s| - 1]) else s
  }

  /** `str.strip()`: `s` without its leading and trailing whitespace. */
  function Strip(s: string): (t: string)
  {
    StripEnd(StripStart(s))
  }

  /**
   * `t` is the slice of `s` starting at `i` that neither starts nor ends with whitespace, and
   * everything around it in `s` is whitespace.
   */
  predicate TrimmedAt(s: string, i: int, t: string)
  {
    0 <= i && i + |t| <= |s| && t == s[i..i + |t|]
    && (forall k :: 0 <= k < i ==> IsSpace(s[k]))
    && (forall k :: i + |t| <= k < |s| ==> IsSpace(s[k]))
    && (t != [] ==> !IsSpace(t[0]) && !IsSpace(t[|t| - 1]))
  }

  /** The stripped string is `s` with exactly its leading and trailing whitespace cut away. */
  lemma StripSlice(s: string)
    ensures TrimmedAt(s, |s| - |StripStart(s)|, Strip(s))
  {
    TrimmedSlice(s, StripStart(s), Strip(s));
  }

  /**
   * A whitespace-free suffix `u` of `s` and a whitespace-free prefix `t` of `u`, each cutting
   * away only whitespace, make `t` a slice of `s` with only whitespace around it.
   */
  lemma TrimmedSlice(s: string, u: string, t: string)
    requires |u| <= |s| && u == s[|s| - |u|..]
    requires forall k :: 0 <= k < |s| - |u| ==> IsSpace(s[k])
    requires u != [] ==> !IsSpace(u[0])
    requires |t| <= |u| && t == u[..|t|]
    requires forall k :: |t| <= k < |u| ==> IsSpace(u[k])
    requires t != [] ==> !IsSpace(t[|t| - 1])
    ensures TrimmedAt(s, |s| - |u|, t)
  {
    var i := |s| - |u|;
    forall k | i + |t| <= k < |s|
      ensures IsSpace(s[k])
    {
      assert s[k] == u[k - i];
    }
    if t != [] {
      assert t[0] == u[0];
    }
  }

  /** Stripping a second time changes nothing. */
  lemma StripIdempotent(s: string)
    ensures Strip(Strip(s)) == Strip(s)
  {
    StripSlice(s);
  }

  /** ASCII `str.lower` of one character. */
  function LowerChar(c: char): (d: char)
    ensures 'A' <= c <= 'Z' ==> d as int == c as int + 32
    ensures !('A' <= c <= 'Z') ==> d == c
    ensures !('A' <= d <= 'Z')
  {
    if 'A' <= c <= 'Z' then (c as int + 32) as char else c
  }

  /** ASCII `str.lower`. */
  function Lower(s: string): (t: string)
    ensures |t| == |s| && forall i :: 0 <= i < |s| ==> t[i] == LowerChar(s[i])
  {
    seq(|s|, i requires 0 <= i < |s| => LowerChar(s[i]))
  }

  /** Lower-casing twice is lower-casing once. */
  lemma LowerIdempotent(s: string)
    ensures Lower(Lower(s)) == Lower(s)
  {
  }

  /** A string without capitals is its own lower-case form. */
  lemma LowerOfLowercase(s: string)
    requires forall i :: 0 <= i < |s| ==> !('A' <= s[i] <= 'Z')
    ensures Lower(s) == s
  {
  }

  predicate IsDigit(c: char) {
    '0' <= c <= '9'
  }

  /** The character class `[\d,]`. */
  predicate IsDigitOrComma(c: char) {
    IsDigit(c) || c == ','
  }

  /** The length of the longest prefix of `s` inside the class. */
  function RunLength(s: string, inClass: char -> bool): (n: nat)
    ensures 0 < |s| && inClass(s[0]) ==> n > 0
    ensures n <= |s|
    ensures forall i :: 0 <= i < n ==> inClass(s[i])
    ensures n < |s| ==> !inClass(s[n])
  {
    if s == [] || !inClass(s[0]) then 0 else 1 + RunLength(s[1..], inClass)
  }

  /**
   * The maximal runs of characters of a class, left to right: what `re.findall` returns
   * for the pattern `[class]+`.
   */
  function Runs(s: string, inClass: char -> bool): (runs: seq<string>)
    ensures forall k :: 0 <= k < |runs| ==> runs[k] != []
    ensures forall k, i :: 0 <= k < |runs| && 0 <= i < |runs[k]| ==> inClass(runs[k][i])
    decreases |s|
  {
    if s == [] then []
    else if !inClass(s[0]) then Runs(s[1..], inClass)
    else
      var n := RunLength(s, inClass);
      [s[..n]] + Runs(s[n..], inClass)
  }

  /** A string with no character of the class has no runs. */
  lemma {:induction false} RunsNone(s: string, inClass: char -> bool)
    requires forall i :: 0 <= i < |s| ==> !inClass(s[i])
    ensures Runs(s, inClass) == []
    decreases |s|
  {
    if s != [] {
      RunsNone(s[1..], inClass);
    }
  }

  /** A non-empty string entirely of the class is a single run. */
  lemma RunsWhole(s: string, inClass: char -> bool)
    requires s != [] && forall i :: 0 <= i < |s| ==> inClass(s[i])
    ensures Runs(s, inClass) == [s]
  {
    RunLengthAll(s, inClass);
    assert s[..|s|] == s && s[|s|..] == [];
  }

  lemma {:induction false} RunLengthAll(s: string, inClass: char -> bool)
    requires forall i :: 0 <= i < |s| ==> inClass(s[i])
    ensures RunLength(s, inClass) == |s|
  {
    if s != [] {
      RunLengthAll(s[1..], inClass);
    }
  }

  /** The longest class prefix of `a + b` is that of `a` when `a` has a character outside the class. */
  lemma {:induction false} RunLengthAppend(a: string, b: string, inClass: char -> bool)
    requires RunLength(a, inClass) < |a| || b == [] || !inClass(b[0])
    ensures RunLength(a + b, inClass) == RunLength(a, inClass)
  {
    if a == [] {
      assert a + b == b;
    } else if inClass(a[0]) {
      assert (a + b)[0] == a[0];
      assert (a + b)[1..] == a[1..] + b;
      RunLengthAppend(a[1..], b, inClass);
    } else {
      assert (a + b)[0] == a[0];
    }
  }

  /**
   * Runs do not merge across a boundary where one side is outside the class: the runs of
   * `a + b` are the runs of `a` followed by the runs of `b`.
   */
  lemma {:induction false} RunsAppend(a: string, b: string, inClass: char -> bool)
    requires a == [] || b == [] || !inClass(a[|a| - 1]) || !inClass(b[0])
    ensures Runs(a + b, inClass) == Runs(a, inClass) + Runs(b, inClass)
    decreases |a|
  {
    if a == [] {
      assert a + b == b;
    } else if !inClass(a[0]) {
      assert (a + b)[0] == a[0];
      assert (a + b)[1..] == a[1..] + b;
      RunsAppend(a[1..], b, inClass);
    } else {
      var n := RunLength(a, inClass);
      if n < |a| {
        RunLengthAppend(a, b, inClass);
        assert (a + b)[..n] == a[..n];
        assert (a + b)[n..] == a[n..] + b;
        RunsAppend(a[n..], b, inClass);
        Seqs.AppendAssociative([a[..n]], Runs(a[n..], inClass), Runs(b, inClass));
      } else {
        RunLengthAppend(a, b, inClass);
        assert (a + b)[..n] == a;
        assert (a + b)[n..] == b;
        RunsWhole(a, inClass);
      }
    }
  }

  /** Two runs of the class, a separator after each: the runs found are those two. */
  lemma RunsOfTwo(first: string, gap: string, second: string, rest: string, inClass: char -> bool)
    requires first != [] && forall i :: 0 <= i < |first| ==> inClass(first[i])
    requires second != [] && forall i :: 0 <= i < |second| ==> inClass(second[i])
    requires gap != [] && forall i :: 0 <= i < |gap| ==> !inClass(gap[i])
    requires forall i :: 0 <= i < |rest| ==> !inClass(rest[i])
    ensures Runs(first + (gap + (second + rest)), inClass) == [first, second]
  {
    var tail := second + rest;
    var middle := gap + tail;
    RunsWhole(first, inClass);
    RunsWhole(second, inClass);
    RunsNone(gap, inClass);
    RunsNone(rest, inClass);
    assert rest == [] || !inClass(rest[0]);
    RunsAppend(second, rest, inClass);
    assert Runs(tail, inClass) == [second];
    assert !inClass(gap[|gap| - 1]);
    RunsAppend(gap, tail, inClass);
    assert Runs(middle, inClass) == [second];
    assert middle[0] == gap[0];
    RunsAppend(first, middle, inClass);
  }

  /** The concatenation of a list of strings. */
  function Concat(parts: seq<string>): string {
    if parts == [] then [] else parts[0] + Concat(parts[1..])
  }

  lemma {:induction false} ConcatAppend(a: seq<string>, b: seq<string>)
    ensures Concat(a + b) == Concat(a) + Concat(b)
  {
    if a != [] {
      assert (a + b)[0] == a[0];
      assert (a + b)[1..] == a[1..] + b;
      ConcatAppend(a[1..], b);
      assert Concat(a + b) == a[0] + (Concat(a[1..]) + Concat(b));
      assert Concat(a) + Concat(b) == (a[0] + Concat(a[1..])) + Concat(b);
    } else {
      assert a + b == b;
    }
  }

  /**
   * The runs lose nothing and add nothing: laid end to end they are exactly the
   * characters of `s` that belong to the class, in order.
   */
  lemma {:induction false} RunsCoverClass(s: string, inClass: char -> bool)
    ensures Concat(Runs(s, inClass)) == Seqs.Filter(s, inClass)
    decreases |s|
  {
    if s != [] {
      if !inClass(s[0]) {
        FilterSkip(s, inClass);
        RunsCoverClass(s[1..], inClass);
      } else {
        var n := RunLength(s, inClass);
        FilterSplit(s, n, inClass);
        RunsCoverClass(s[n..], inClass);
        ConcatAppend([s[..n]], Runs(s[n..], inClass));
        assert Concat([s[..n]]) == s[..n] + Concat([]);
      }
    }
  }

  lemma FilterSkip(s: string, inClass: char -> bool)
    requires s != [] && !inClass(s[0])
    ensures Seqs.Filter(s, inClass) == Seqs.Filter(s[1..], inClass)
  {
    assert s == [s[0]] + s[1..];
    Seqs.FilterAppend([s[0]], s[1..], inClass);
    assert Seqs.Filter([s[0]], inClass) == Seqs.Filter([], inClass) + [];
  }

  lemma FilterSplit(s: string, n: nat, inClass: char -> bool)
    requires n <= |s| && forall i :: 0 <= i < n ==> inClass(s[i])
    ensures Seqs.Filter(s, inClass) == s[..n] + Seqs.Filter(s[n..], inClass)
  {
    var front, back := s[..n], s[n..];
    assert s == front + back;
    assert forall i :: 0 <= i < |front| ==> inClass(front[i]);
    Seqs.FilterPassingPrefix(front, back, inClass);
  }

  /** The value of one decimal digit. */
  function DigitValue(c: char): (d: nat)
    requires IsDigit(c)
    ensures d < 10
  {
    c as int - '0' as int
  }

  /** The digit character of a value below ten. */
  function DigitChar(d: nat): (c: char)
    requires d < 10
    ensures IsDigit(c) && DigitValue(c) == d
  {
    ('0' as int + d) as char
  }

  predicate AllDigits(s: string) {
    forall i :: 0 <= i < |s| ==> IsDigit(s[i])
  }

  /** The value of a string of decimal digits, as `int()` and `float()` read it. */
  function DecimalValue(s: string): (n: nat)
    requires AllDigits(s)
  {
    if s == [] then 0 else DecimalValue(s[..|s| - 1]) * 10 + DigitValue(s[|s| - 1])
  }

  /** The shortest decimal representation of a natural number. */
  function DecimalString(n: nat): (s: string)
    ensures s != [] && AllDigits(s)
  {
    if n < 10 then [DigitChar(n)] else DecimalString(n / 10) + [DigitChar(n % 10)]
  }

  /** Reading back the decimal representation of a number gives the number. */
  lemma {:induction false} DecimalRoundTrip(n: nat)
    ensures DecimalValue(DecimalString(n)) == n
  {
    var s := DecimalString(n);
    if n >= 10 {
      DecimalRoundTrip(n / 10);
      assert s[..|s| - 1] == DecimalString(n / 10);
    }
  }

  /** Leading zeros do not change the value. */
  lemma {:induction false} LeadingZero(s: string)
    requires AllDigits(s)
    ensures DecimalValue("0" + s) == DecimalValue(s)
  {
    if s != [] {
      var t := "0" + s;
      assert t[..|t| - 1] == "0" + s[..|s| - 1];
      LeadingZero(s[..|s| - 1]);
    }
  }
}
