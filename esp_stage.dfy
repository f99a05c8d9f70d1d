/**
 * The load-shedding stage announced in an EskomSePush event note
 * (EspImpl.extractStageNumber): the number after the first "stage" that is
 * followed by optional whitespace and at least one digit, matched without
 * regard to case, or -1 when there is none.
 */
module EspStage {
  import opened Wrappers
  import opened JavaInt

  const Keyword: string := "stage"

  /** Java's `\s` without UNICODE_CHARACTER_CLASS: space, tab, newline, vertical tab, form feed, carriage return. */
  predicate IsSpace(c: char) {
    c == ' ' || c == '\t' || c == '\n' || c == '\U{B}' || c == '\U{C}' || c == '\r'
  }

  /** Java's `\d` without UNICODE_CHARACTER_CLASS: an ASCII digit. */
  predicate IsDigit(c: char) {
    '0' <= c <= '9'
  }

  /** CASE_INSENSITIVE without UNICODE_CASE folds ASCII letters only. */
  function Fold(c: char): (d: char)
    ensures !('A' <= c <= 'Z') ==> d == c
    ensures 'A' <= c <= 'Z' ==> d as int == c as int + 32 && 'a' <= d <= 'z'
  {
    if 'A' <= c <= 'Z' then (c as int - 'A' as int + 'a' as int) as char else c
  }

  /** "stage", in any mix of case, starts at position i. */
  predicate KeywordAt(s: string, i: nat) {
    i + |Keyword| <= |s| && forall k :: 0 <= k < |Keyword| ==> Fold(s[i + k]) == Keyword[k]
  }

  /** The end of the run of whitespace that starts at j. */
  function SpacesEnd(s: string, j: nat): (e: nat)
    requires j <= |s|
    ensures j <= e <= |s| && (e < |s| ==> !IsSpace(s[e]))
    decreases |s| - j
  {
    if j < |s| && IsSpace(s[j]) then SpacesEnd(s, j + 1) else j
  }

  /** Everything from j up to SpacesEnd(s, j) is whitespace. */
  lemma {:induction false} SpacesEndRun(s: string, j: nat)
    requires j <= |s|
    ensures forall k :: j <= k < SpacesEnd(s, j) ==> IsSpace(s[k])
    decreases |s| - j
  {
    if j < |s| && IsSpace(s[j]) {
      SpacesEndRun(s, j + 1);
    }
  }

  /** The end of the run of digits that starts at j. */
  function DigitsEnd(s: string, j: nat): (e: nat)
    requires j <= |s|
    ensures j <= e <= |s| && (e < |s| ==> !IsDigit(s[e]))
    decreases |s| - j
  {
    if j < |s| && IsDigit(s[j]) then DigitsEnd(s, j + 1) else j
  }

  /** Everything from j up to DigitsEnd(s, j) is a digit. */
  lemma {:induction false} DigitsEndRun(s: string, j: nat)
    requires j <= |s|
    ensures forall k :: j <= k < DigitsEnd(s, j) ==> IsDigit(s[k])
    decreases |s| - j
  {
    if j < |s| && IsDigit(s[j]) {
      DigitsEndRun(s, j + 1);
    }
  }

  /** Where the digits of a match at i start: after "stage" and its whitespace. */
  function DigitsStart(s: string, i: nat): nat
    requires i + |Keyword| <= |s|
  {
    SpacesEnd(s, i + |Keyword|)
  }

  /** `stage\s*(\d+)` matches at position i. */
  predicate MatchAt(s: string, i: nat) {
    KeywordAt(s, i) && DigitsStart(s, i) < |s| && IsDigit(s[DigitsStart(s, i)])
  }

  /** Group 1 of a match at i: the greedy, hence maximal, run of digits. */
  function Group(s: string, i: nat): (g: string)
    requires MatchAt(s, i)
    ensures |g| >= 1 && forall k :: 0 <= k < |g| ==> IsDigit(g[k])
  {
    DigitsEndRun(s, DigitsStart(s, i));
    s[DigitsStart(s, i)..DigitsEnd(s, DigitsStart(s, i))]
  }

  /** Matcher.find(): the first position from i on where the pattern matches. */
  function FindFrom(s: string, i: nat): (r: Option<nat>)
    ensures r.Some? ==> i <= r.value <= |s| && MatchAt(s, r.value)
    decreases |s| + 1 - i
  {
    if i > |s| then None
    else if MatchAt(s, i) then Some(i)
    else FindFrom(s, i + 1)
  }

  function Pow10(n: nat): (p: nat)
    ensures p >= 1
  {
    if n == 0 then 1 else 10 * Pow10(n - 1)
  }

  /** The value of a decimal digit string, read from the left as Integer.parseInt does. */
  function DecimalValue(ds: string): (v: nat)
    ensures v < Pow10(|ds|)
    decreases |ds|
  {
    if ds == [] then 0 else 10 * DecimalValue(ds[..|ds| - 1]) + (ds[|ds| - 1] as int - '0' as int) % 10
  }

  /**
   * extractStageNumber: the parsed group of the first match, or -1 without
   * one. None stands for the NumberFormatException Integer.parseInt throws
   * when the digits exceed Integer.MAX_VALUE.
   */
  function ExtractStageNumber(note: string): (r: Option<int>)
    ensures r.Some? ==> r.value >= -1 && r.value <= MaxInt
  {
    match FindFrom(note, 0)
    case None => Some(-1)
    case Some(i) =>
      var v: int := DecimalValue(Group(note, i));
      if v <= MaxInt then Some(v) else None
  }

  /** find() reports the first position from i on where the pattern matches. */
  lemma {:induction false} FindFromFirst(s: string, i: nat)
    ensures FindFrom(s, i).Some? ==>
      var p := FindFrom(s, i).value;
      i <= p <= |s| && MatchAt(s, p) && forall k :: i <= k < p ==> !MatchAt(s, k)
    decreases |s| + 1 - i
  {
    if i <= |s| {
      if MatchAt(s, i) {
        assert FindFrom(s, i) == Some(i);
      } else {
        assert FindFrom(s, i) == FindFrom(s, i + 1);
        FindFromFirst(s, i + 1);
      }
    }
  }

  /** find() fails only when the pattern matches nowhere from i on. */
  lemma {:induction false} FindFromNone(s: string, i: nat)
    ensures FindFrom(s, i).None? <==> forall k :: i <= k <= |s| ==> !MatchAt(s, k)
    decreases |s| + 1 - i
  {
    if i <= |s| {
      if MatchAt(s, i) {
        assert FindFrom(s, i) == Some(i);
      } else {
        assert FindFrom(s, i) == FindFrom(s, i + 1);
        FindFromNone(s, i + 1);
      }
    }
  }

  /** The first matching position is the one find() reports. */
  lemma FirstMatchFound(s: string, p: nat)
    requires p <= |s| && MatchAt(s, p) && forall k :: 0 <= k < p ==> !MatchAt(s, k)
    ensures FindFrom(s, 0) == Some(p)
  {
    FindFromNone(s, 0);
    FindFromFirst(s, 0);
    var q := FindFrom(s, 0).value;
    assert !(q < p) && !(p < q);
  }

  /**
   * The result is -1 exactly when no position matches; otherwise it is the
   * value of the maximal digit run after the first match, which is never
   * negative.
   */
  lemma StageNumberMeaning(note: string)
    ensures ExtractStageNumber(note) == Some(-1) <==> forall k :: 0 <= k <= |note| ==> !MatchAt(note, k)
    ensures forall p :: 0 <= p <= |note| && MatchAt(note, p) && (forall k :: 0 <= k < p ==> !MatchAt(note, k)) ==>
      && (DecimalValue(Group(note, p)) <= MaxInt ==> ExtractStageNumber(note) == Some(DecimalValue(Group(note, p))))
      && (DecimalValue(Group(note, p)) > MaxInt ==> ExtractStageNumber(note) == None)
  {
    FindFromNone(note, 0);
    FindFromFirst(note, 0);
    forall p | 0 <= p <= |note| && MatchAt(note, p) && (forall k :: 0 <= k < p ==> !MatchAt(note, k))
      ensures FindFrom(note, 0) == Some(p)
    {
      FirstMatchFound(note, p);
    }
  }

  /**
   * parseInt can only throw for the group of the first match when that group
   * has ten digits or more: up to nine digits always parse.
   */
  lemma ShortGroupParses(note: string)
    requires FindFrom(note, 0).Some? && |Group(note, FindFrom(note, 0).value)| <= 9
    ensures ExtractStageNumber(note).Some? && ExtractStageNumber(note).value >= 0
  {
    var g := Group(note, FindFrom(note, 0).value);
    Pow10Grows(|g|, 9);
    assert Pow10(9) == 1_000_000_000 by {
      assert Pow10(1) == 10 && Pow10(2) == 100 && Pow10(3) == 1_000;
      assert Pow10(4) == 10_000 && Pow10(5) == 100_000 && Pow10(6) == 1_000_000;
      assert Pow10(7) == 10_000_000 && Pow10(8) == 100_000_000;
    }
  }

  lemma {:induction false} Pow10Grows(m: nat, n: nat)
    requires m <= n
    ensures Pow10(m) <= Pow10(n)
    decreases n
  {
    if m < n {
      Pow10Grows(m, n - 1);
    }
  }

  /** Two notes that agree up to the case of ASCII letters. */
  predicate SameUpToCase(s: string, t: string) {
    |s| == |t| && forall k :: 0 <= k < |s| ==> Fold(s[k]) == Fold(t[k])
  }

  /** Folding leaves digits and whitespace alone, so notes equal up to case agree on them. */
  lemma FoldKeepsClasses(c: char, d: char)
    requires Fold(c) == Fold(d)
    ensures IsDigit(c) ==> c == d
    ensures IsSpace(c) <==> IsSpace(d)
  {
  }

  lemma {:induction false} SpacesEndUpToCase(s: string, t: string, j: nat)
    requires SameUpToCase(s, t) && j <= |s|
    ensures SpacesEnd(s, j) == SpacesEnd(t, j)
    decreases |s| - j
  {
    if j < |s| {
      FoldKeepsClasses(s[j], t[j]);
      SpacesEndUpToCase(s, t, j + 1);
    }
  }

  lemma {:induction false} DigitsUpToCase(s: string, t: string, j: nat)
    requires SameUpToCase(s, t) && j <= |s|
    ensures DigitsEnd(s, j) == DigitsEnd(t, j)
    ensures s[j..DigitsEnd(s, j)] == t[j..DigitsEnd(t, j)]
    decreases |s| - j
  {
    if j < |s| {
      FoldKeepsClasses(s[j], t[j]);
      FoldKeepsClasses(t[j], s[j]);
      DigitsUpToCase(s, t, j + 1);
      if IsDigit(s[j]) {
        assert s[j..DigitsEnd(s, j)] == [s[j]] + s[j + 1..DigitsEnd(s, j)];
        assert t[j..DigitsEnd(t, j)] == [t[j]] + t[j + 1..DigitsEnd(t, j)];
      }
    }
  }

  lemma MatchUpToCase(s: string, t: string, i: nat)
    requires SameUpToCase(s, t)
    ensures MatchAt(s, i) <==> MatchAt(t, i)
    ensures MatchAt(s, i) ==> Group(s, i) == Group(t, i)
  {
    if i + |Keyword| <= |s| {
      SpacesEndUpToCase(s, t, i + |Keyword|);
      var j := DigitsStart(s, i);
      if j < |s| {
        FoldKeepsClasses(s[j], t[j]);
        FoldKeepsClasses(t[j], s[j]);
        DigitsUpToCase(s, t, j);
      }
    }
  }

  lemma {:induction false} FindUpToCase(s: string, t: string, i: nat)
    requires SameUpToCase(s, t)
    ensures FindFrom(s, i) == FindFrom(t, i)
    decreases |s| + 1 - i
  {
    if i <= |s| {
      MatchUpToCase(s, t, i);
      FindUpToCase(s, t, i + 1);
    }
  }

  /** Matching ignores case: "Stage 4", "STAGE 4" and "stage 4" give the same result. */
  lemma CaseInsensitive(s: string, t: string)
    requires SameUpToCase(s, t)
    ensures ExtractStageNumber(s) == ExtractStageNumber(t)
  {
    FindUpToCase(s, t, 0);
    if FindFrom(s, 0).Some? {
      MatchUpToCase(s, t, FindFrom(s, 0).value);
    }
  }

  /** The decimal digits of n, most significant first, without leading zeros. */
  function DecimalString(n: nat): (ds: string)
    ensures |ds| >= 1 && forall k :: 0 <= k < |ds| ==> IsDigit(ds[k])
    decreases n
  {
    var d := ((n % 10) + '0' as int) as char;
    if n < 10 then [d] else DecimalString(n / 10) + [d]
  }

  /** Parsing the decimal digits of n gives n back. */
  lemma {:induction false} DecimalRoundTrip(n: nat)
    ensures DecimalValue(DecimalString(n)) == n
    decreases n
  {
    var ds := DecimalString(n);
    assert ds[|ds| - 1] as int - '0' as int == n % 10;
    if n >= 10 {
      assert ds[..|ds| - 1] == DecimalString(n / 10);
      DecimalRoundTrip(n / 10);
    }
  }

  /**
   * A note consisting of "stage" in any case, any run of whitespace and the
   * decimal digits of a stage number n yields n.
   */
  lemma StageRoundTrip(keyword: string, spaces: string, n: nat)
    requires |keyword| == |Keyword| && forall k :: 0 <= k < |Keyword| ==> Fold(keyword[k]) == Keyword[k]
    requires forall k :: 0 <= k < |spaces| ==> IsSpace(spaces[k])
    requires n <= MaxInt
    ensures ExtractStageNumber(keyword + spaces + DecimalString(n)) == Some(n)
  {
    var ds := DecimalString(n);
    var s := keyword + spaces + ds;
    var j := |Keyword| + |spaces|;
    NoteLayout(keyword, spaces, ds);
    SpacesRun(s, |Keyword|, j);
    DigitsRun(s, j);
    assert MatchAt(s, 0);
    assert Group(s, 0) == ds;
    DecimalRoundTrip(n);
  }

  /** Where the keyword, the whitespace and the digits sit in the note they make up. */
  lemma NoteLayout(keyword: string, spaces: string, ds: string)
    requires |keyword| == |Keyword| && forall k :: 0 <= k < |Keyword| ==> Fold(keyword[k]) == Keyword[k]
    requires forall k :: 0 <= k < |spaces| ==> IsSpace(spaces[k])
    requires |ds| >= 1 && forall k :: 0 <= k < |ds| ==> IsDigit(ds[k])
    ensures var s, j := keyword + spaces + ds, |Keyword| + |spaces|;
      && KeywordAt(s, 0)
      && (forall k :: |Keyword| <= k < j ==> IsSpace(s[k]))
      && j < |s| && !IsSpace(s[j])
      && (forall k :: j <= k < |s| ==> IsDigit(s[k]))
      && s[j..] == ds
  {
    var s, j := keyword + spaces + ds, |Keyword| + |spaces|;
    assert forall k :: 0 <= k < |Keyword| ==> s[k] == keyword[k];
    assert forall k :: |Keyword| <= k < j ==> s[k] == spaces[k - |Keyword|];
    assert forall k :: j <= k < |s| ==> s[k] == ds[k - j];
  }

  /** Whitespace up to `e`, followed by a non-space, ends at `e`. */
  lemma {:induction false} SpacesRun(s: string, j: nat, e: nat)
    requires j <= e < |s| && !IsSpace(s[e]) && forall k :: j <= k < e ==> IsSpace(s[k])
    ensures SpacesEnd(s, j) == e
    decreases e - j
  {
    if j < e {
      SpacesRun(s, j + 1, e);
    }
  }

  /** Digits to the end of the note run to the end. */
  lemma {:induction false} DigitsRun(s: string, j: nat)
    requires j <= |s| && forall k :: j <= k < |s| ==> IsDigit(s[k])
    ensures DigitsEnd(s, j) == |s|
    decreases |s| - j
  {
    if j < |s| {
      DigitsRun(s, j + 1);
    }
  }
}
