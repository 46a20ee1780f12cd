/**
 The text cleanup at the end of `SpeachToText.listen`: strip leading
 whitespace, reject an empty or all-period result as "nothing detected",
 strip trailing periods one at a time, then lowercase.
 */
module Cleanup {

  /** The outcome of cleanup: nothing to type, or the text to type. */
  datatype Cleaned = NothingDetected | Text(text: string)

  /** The ASCII characters Python's `str.isspace` accepts (tab, line feed,
      vertical tab, form feed, carriage return, the four separators
      0x1C-0x1F and space): what `str.lstrip()` without arguments removes
      from ASCII text. */
  predicate IsSpace(c: char)
  {
    '\t' <= c <= '\r' || '\U{1C}' <= c <= ' '
  }

  /** ASCII lowercasing; every other character is left as it is. */
  function Lower(c: char): char
  {
    if 'A' <= c <= 'Z' then (c as int + 32) as char else c
  }

  function LowerString(s: string): string
  {
    seq(|s|, i requires 0 <= i < |s| => Lower(s[i]))
  }

  /** `s == '.' * len(s)`: every character is a period (true of ""). */
  predicate AllPeriods(s: string)
  {
    forall i :: 0 <= i < |s| ==> s[i] == '.'
  }

  /** `str.lstrip()`: the suffix left after the maximal run of leading
      whitespace. */
  function LStrip(s: string): (r: string)
    ensures |r| <= |s| && r == s[|s| - |r|..]
    ensures r == [] || !IsSpace(r[0])
    ensures forall i :: 0 <= i < |s| - |r| ==> IsSpace(s[i])
  {
    if s != [] && IsSpace(s[0]) then LStrip(s[1..]) else s
  }

  /** The prefix left after removing the maximal run of trailing periods. */
  function TrimTrailingPeriods(s: string): (r: string)
    ensures |r| <= |s| && r == s[..|r|]
    ensures r == [] || r[|r| - 1] != '.'
    ensures forall i :: |r| <= i < |s| ==> s[i] == '.'
  {
    if s != [] && s[|s| - 1] == '.' then TrimTrailingPeriods(s[..|s| - 1]) else s
  }

  /** What cleanup produces for the engine's raw text. */
  function Clean(raw: string): Cleaned
  {
    var t := LStrip(raw);
    if t == [] || AllPeriods(t) then NothingDetected
    else Text(LowerString(TrimTrailingPeriods(t)))
  }

  /** Cleanup reports nothing exactly when the text left after lstrip is
      empty or all periods. */
  lemma CleanNothing(raw: string)
    ensures Clean(raw).NothingDetected? <==> AllPeriods(LStrip(raw))
  {
  }

  /** Otherwise the text it yields (the lowercase of the lstripped text with
      its maximal trailing run of periods removed) is non-empty, has no
      leading whitespace, does not end in a period and has no upper-case
      ASCII letter. */
  lemma CleanShape(raw: string)
    requires Clean(raw).Text?
    ensures Clean(raw).text == LowerString(TrimTrailingPeriods(LStrip(raw)))
    ensures IsNormalized(Clean(raw).text)
  {
    var t := LStrip(raw);
    var u := TrimTrailingPeriods(t);
    assert !AllPeriods(t);
    assert u != [] && u[0] == t[0];
    NormalizedOfLower(u);
  }

  /** Lowercasing keeps a text's first character non-blank and its last
      character not a period. */
  lemma NormalizedOfLower(u: string)
    requires u != [] && !IsSpace(u[0]) && u[|u| - 1] != '.'
    ensures IsNormalized(LowerString(u))
  {
    var l := LowerString(u);
    LowerFixes(u[0]);
    LowerFixes(u[|u| - 1]);
    forall i | 0 <= i < |l|
      ensures Lower(l[i]) == l[i]
    {
      LowerFixes(u[i]);
    }
  }

  /** Lowering never makes a period or whitespace and is idempotent. */
  lemma LowerFixes(c: char)
    ensures c != '.' ==> Lower(c) != '.'
    ensures !IsSpace(c) ==> !IsSpace(Lower(c))
    ensures Lower(Lower(c)) == Lower(c)
  {
  }

  /** The shape of a text cleanup can produce. */
  predicate IsNormalized(t: string)
  {
    && t != []
    && !IsSpace(t[0])
    && t[|t| - 1] != '.'
    && forall i :: 0 <= i < |t| ==> Lower(t[i]) == t[i]
  }

  /** Cleanup leaves a text already in normalized form unchanged. */
  lemma CleanNormalized(t: string)
    requires IsNormalized(t)
    ensures Clean(t) == Text(t)
  {
    assert LStrip(t) == t;
    assert !AllPeriods(t);
    assert TrimTrailingPeriods(t) == t;
    assert LowerString(t) == t;
  }

  /** Idempotence: cleaning the text cleanup produced gives it back. */
  lemma CleanIdempotent(raw: string)
    requires Clean(raw).Text?
    ensures Clean(Clean(raw).text) == Clean(raw)
  {
    CleanShape(raw);
    CleanNormalized(Clean(raw).text);
  }

  /** Leading whitespace followed only by periods is "nothing detected". */
  lemma {:induction false} SpacesThenPeriodsIsNothing(w: string, p: string)
    requires forall i :: 0 <= i < |w| ==> IsSpace(w[i])
    requires AllPeriods(p)
    ensures Clean(w + p) == NothingDetected
    decreases |w|
  {
    if w != [] {
      assert (w + p)[1..] == w[1..] + p;
      SpacesThenPeriodsIsNothing(w[1..], p);
    } else {
      assert w + p == p;
      if p != [] {
        assert p[0] == '.';
      }
    }
  }

  /** Only the last character is examined by the trailing-period loop, so a
      period followed by a blank survives. */
  lemma TrailingBlankKeepsPeriod()
    ensures Clean(" Hi. ") == Text("hi. ")
  {
    var t := "Hi. ";
    assert LStrip(" Hi. ") == LStrip(t) == t;
    assert TrimTrailingPeriods(t) == t;
    assert LowerString(t) == "hi. ";
  }

  /** A mixture of periods and whitespace is not always "nothing detected":
      the blank between the periods is kept and typed. */
  lemma PeriodsAndBlanksCanBeTyped()
    ensures Clean(" . .") == Text(". ")
  {
    var s := " . .";
    assert LStrip(s) == s[1..] == ". .";
    assert (". .")[1] == ' ';
    assert TrimTrailingPeriods(". .") == TrimTrailingPeriods(". ") == ". ";
    assert LowerString(". ") == ". ";
  }

  /** The cleanup code of `listen` with its trailing-period loop. The inner
      emptiness check of the loop is kept, and proved never to fire. */
  method CleanText(raw: string) returns (res: Cleaned)
    ensures res == Clean(raw)
  {
    var t := LStrip(raw);
    if t == [] || AllPeriods(t) {
      return NothingDetected;
    }
    ghost var stripped := t;
    while t[|t| - 1] == '.'
      invariant 0 < |t| <= |stripped| && t == stripped[..|t|]
      invariant forall i :: |t| <= i < |stripped| ==> stripped[i] == '.'
      invariant !AllPeriods(t)
      invariant TrimTrailingPeriods(t) == TrimTrailingPeriods(stripped)
      decreases |t|
    {
      t := t[..|t| - 1];
      if t == [] {
        assert false;
        return NothingDetected;
      }
    }
    t := LowerString(t);
    return Text(t);
  }
}
