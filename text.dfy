/** ASCII models of the Python string operations the command interpreters rely on:
    `str.lower`, `str.strip`, `str.split`, `str.isdigit`, `int()`, the `in` substring test
    and the handful of `re.search` patterns of the voice interpreter. */
module Text {
  import opened Common

  // ---------------------------------------------------------------------------
  // Characters
  // ---------------------------------------------------------------------------

  /** The ASCII characters for which Python's `str.isspace` holds. */
  predicate IsSpace(c: char) {
    c == ' ' || ('\t' <= c <= '\r') || ('\U{1C}' <= c <= '\U{1F}')
  }

  predicate IsDigit(c: char) {
    '0' <= c <= '9'
  }

  /** The ASCII part of the regular-expression class `\w`. */
  predicate IsWordChar(c: char) {
    IsDigit(c) || ('a' <= c <= 'z') || ('A' <= c <= 'Z') || c == '_'
  }

  function ToLower(c: char): char {
    if 'A' <= c <= 'Z' then (c as int + 32) as char else c
  }

  // ---------------------------------------------------------------------------
  // Whole-string operations
  // ---------------------------------------------------------------------------

  /** `s.lower()` */
  function Lower(s: string): string {
    seq(|s|, i requires 0 <= i < |s| => ToLower(s[i]))
  }

  /** `s.lstrip()` */
  function TrimLeft(s: string): (r: string)
    ensures |r| <= |s| && r == s[|s| - |r|..]
    ensures r != [] ==> !IsSpace(r[0])
  {
    if s != [] && IsSpace(s[0]) then TrimLeft(s[1..]) else s
  }

  /** `s.rstrip()` */
  function TrimRight(s: string): (r: string)
    ensures |r| <= |s| && r == s[..|r|]
    ensures r != [] ==> !IsSpace(r[|r| - 1])
  {
    if s != [] && IsSpace(s[|s| - 1]) then TrimRight(s[..|s| - 1]) else s
  }

  /** `s.strip()` */
  function Strip(s: string): string {
    TrimRight(TrimLeft(s))
  }

  /** `s.lower().strip()`, the normalisation both interpreters apply. */
  function Normalize(s: string): string {
    Strip(Lower(s))
  }

  /** `s.isdigit()` */
  predicate IsDigits(s: string) {
    |s| > 0 && forall i :: 0 <= i < |s| ==> IsDigit(s[i])
  }

  function DigitValue(c: char): nat
    requires IsDigit(c)
  {
    c as int - '0' as int
  }

  /** The decimal value of a string of digits, as `int(s)` computes it. */
  function Value(s: string): nat
    requires forall i :: 0 <= i < |s| ==> IsDigit(s[i])
  {
    if s == [] then 0 else 10 * Value(s[..|s| - 1]) + DigitValue(s[|s| - 1])
  }

  /** `int(w)` for a token without whitespace: optional sign, then decimal digits;
      `None` stands for the `ValueError` Python raises. */
  function ParseInt(w: string): (r: Option<int>)
    ensures IsDigits(w) ==> r == Some(Value(w))
    ensures r.Some? ==> |w| > 0 && (IsDigit(w[0]) || w[0] == '+' || w[0] == '-')
    // a sign followed by digits gives the signed value
    ensures |w| > 1 && w[0] == '+' && IsDigits(w[1..]) ==> r == Some(Value(w[1..]))
    ensures |w| > 1 && w[0] == '-' && IsDigits(w[1..]) ==> r.Some? && r.value == -(Value(w[1..]) as int)
    // every other word raises
    ensures r.None? <==> !IsDigits(w) && !(|w| > 1 && (w[0] == '+' || w[0] == '-') && IsDigits(w[1..]))
  {
    if IsDigits(w) then Some(Value(w))
    else if |w| > 1 && (w[0] == '+' || w[0] == '-') && IsDigits(w[1..]) then
      var v: int := Value(w[1..]);
      Some(if w[0] == '-' then -v else v)
    else None
  }

  /** `lit in t` for strings. */
  function Contains(t: string, lit: string): bool
    decreases |t|
  {
    if lit <= t then true
    else if t == [] then false
    else Contains(t[1..], lit)
  }

  /** `Contains` holds exactly when `lit` is a prefix of some suffix of `t`. */
  lemma {:induction false} ContainsIff(t: string, lit: string)
    ensures Contains(t, lit) <==> exists i :: 0 <= i <= |t| && lit <= t[i..]
    decreases |t|
  {
    assert t[0..] == t;
    if !(lit <= t) && t != [] {
      ContainsIff(t[1..], lit);
      assert forall i :: 1 <= i <= |t| ==> t[1..][i - 1..] == t[i..];
    }
  }

  /** An occurrence at a known position. */
  lemma ContainsAt(t: string, lit: string, i: nat)
    requires i <= |t| && lit <= t[i..]
    ensures Contains(t, lit)
  {
    ContainsIff(t, lit);
  }

  /** A character of `lit` that `t` lacks rules the substring out. */
  lemma NotContainsByChar(t: string, lit: string, k: nat)
    requires k < |lit| && lit[k] !in t
    ensures !Contains(t, lit)
  {
    forall i | 0 <= i <= |t|
      ensures !(lit <= t[i..])
    {
      if i + k < |t| {
        assert t[i..][k] == t[i + k] && t[i + k] in t;
      }
    }
    ContainsIff(t, lit);
  }

  /** A string is no substring of a shorter one. */
  lemma NotContainsByLength(t: string, lit: string)
    requires |t| < |lit|
    ensures !Contains(t, lit)
  {
    ContainsIff(t, lit);
  }

  /** Between strings of the same length, containment is equality. */
  lemma ContainsSameLength(t: string, lit: string)
    requires |t| == |lit|
    ensures Contains(t, lit) <==> t == lit
  {
    ContainsIff(t, lit);
    assert t[0..] == t;
    if Contains(t, lit) {
      var i :| 0 <= i <= |t| && lit <= t[i..];
      assert i == 0;
    }
  }

  /** `any(w in t for w in lits)` */
  function ContainsAny(t: string, lits: seq<string>): bool
    decreases |lits|
  {
    if lits == [] then false else Contains(t, lits[0]) || ContainsAny(t, lits[1..])
  }

  /** `ContainsAny` holds exactly when one of the literals occurs. */
  lemma {:induction false} ContainsAnyIff(t: string, lits: seq<string>)
    ensures ContainsAny(t, lits) <==> exists k :: 0 <= k < |lits| && Contains(t, lits[k])
    decreases |lits|
  {
    if lits != [] {
      ContainsAnyIff(t, lits[1..]);
      assert forall k :: 1 <= k < |lits| ==> lits[1..][k - 1] == lits[k];
    }
  }

  /** None of the literals occurs, so the `any` fails. */
  lemma NoneContained(t: string, lits: seq<string>)
    requires forall k :: 0 <= k < |lits| ==> !Contains(t, lits[k])
    ensures !ContainsAny(t, lits)
  {
    ContainsAnyIff(t, lits);
  }

  /** One literal occurs, so the `any` holds. */
  lemma OneContained(t: string, lits: seq<string>, k: nat)
    requires k < |lits| && Contains(t, lits[k])
    ensures ContainsAny(t, lits)
  {
    ContainsAnyIff(t, lits);
  }

  // ---------------------------------------------------------------------------
  // str.split()
  // ---------------------------------------------------------------------------

  /** Length of the run of non-space characters at the start of `s`. */
  function WordLength(s: string): (n: nat)
    ensures n <= |s|
    ensures forall k :: 0 <= k < n ==> !IsSpace(s[k])
    ensures n == |s| || IsSpace(s[n])
  {
    if s == [] || IsSpace(s[0]) then 0 else 1 + WordLength(s[1..])
  }

  /** `s.split()`: the maximal runs of non-space characters, in order. */
  function Split(s: string): seq<string>
    decreases |s|
  {
    var r := TrimLeft(s);
    if r == [] then []
    else
      var n := WordLength(r);
      [r[..n]] + Split(r[n..])
  }


  // ---------------------------------------------------------------------------
  // The regular-expression searches
  // ---------------------------------------------------------------------------

  /** Length of the run of characters satisfying `IsDigit` from position `j`. */
  function DigitRun(t: string, j: nat): (n: nat)
    requires j <= |t|
    ensures j + n <= |t|
    ensures forall k :: j <= k < j + n ==> IsDigit(t[k])
    ensures j + n == |t| || !IsDigit(t[j + n])
    decreases |t| - j
  {
    if j < |t| && IsDigit(t[j]) then 1 + DigitRun(t, j + 1) else 0
  }

  /** Length of the run of whitespace from position `j`. */
  function SpaceRun(t: string, j: nat): (n: nat)
    requires j <= |t|
    ensures j + n <= |t|
    ensures forall k :: j <= k < j + n ==> IsSpace(t[k])
    ensures j + n == |t| || !IsSpace(t[j + n])
    decreases |t| - j
  {
    if j < |t| && IsSpace(t[j]) then 1 + SpaceRun(t, j + 1) else 0
  }

  /** Greedy `(\d+)` at position `j`: the value of the maximal digit run, if it is non-empty. */
  function DigitsAt(t: string, j: nat): (r: Option<nat>)
    requires j <= |t|
    ensures r.Some? <==> j < |t| && IsDigit(t[j])
  {
    var d := DigitRun(t, j);
    if d == 0 then None else Some(Value(t[j..j + d]))
  }

  /** The three shapes of pattern the interpreters search for.
      - `KeywordNumber("page")` is `page\s+(\d+)`;
      - `LiteralNumber(["jump back ", "jump backward "])` is `jump (back|backward) (\d+)`;
      - `StandaloneNumber` is `\b(\d+)\b`. */
  datatype Pattern =
    | KeywordNumber(keyword: string)
    | LiteralNumber(alternatives: seq<string>)
    | StandaloneNumber

  /** The first alternative that matches at `i` and is followed by digits decides the capture. */
  function AlternativeAt(t: string, i: nat, alts: seq<string>): Option<nat>
    requires i <= |t|
  {
    if alts == [] then None
    else if alts[0] <= t[i..] && DigitsAt(t, i + |alts[0]|).Some? then DigitsAt(t, i + |alts[0]|)
    else AlternativeAt(t, i, alts[1..])
  }

  /** The number a pattern captures when it is anchored at position `i`, if it matches there. */
  function MatchAt(t: string, i: nat, p: Pattern): Option<nat>
    requires i <= |t|
  {
    match p
    case KeywordNumber(kw) =>
      if kw <= t[i..] then
        var ws := SpaceRun(t, i + |kw|);
        if ws == 0 then None else DigitsAt(t, i + |kw| + ws)
      else None
    case LiteralNumber(alts) => AlternativeAt(t, i, alts)
    case StandaloneNumber =>
      if i < |t| && IsDigit(t[i]) && (i == 0 || !IsWordChar(t[i - 1])) then
        var d := DigitRun(t, i);
        if i + d == |t| || !IsWordChar(t[i + d]) then DigitsAt(t, i) else None
      else None
  }

  /** The outcome of anchoring `p` at every position of `t`, from 0 to `|t|`. */
  function Anchorings(t: string, p: Pattern): (ms: seq<Option<nat>>)
    ensures |ms| == |t| + 1
  {
    seq(|t| + 1, k requires 0 <= k <= |t| => MatchAt(t, k, p))
  }

  /** The first success in `ms` from position `from` on. */
  function FirstSome(ms: seq<Option<nat>>, from: nat): Option<nat>
    requires from <= |ms|
    decreases |ms| - from
  {
    if from == |ms| then None
    else if ms[from].Some? then ms[from]
    else FirstSome(ms, from + 1)
  }

  /** `FirstSome` fails exactly when every entry fails, and otherwise returns the leftmost success. */
  lemma {:induction false} FirstSomeLeftmost(ms: seq<Option<nat>>, from: nat)
    requires from <= |ms|
    ensures FirstSome(ms, from).None? <==> forall k :: from <= k < |ms| ==> ms[k].None?
    ensures FirstSome(ms, from).Some? ==>
              exists k :: from <= k < |ms| && ms[k] == FirstSome(ms, from)
                          && forall k' :: from <= k' < k ==> ms[k'].None?
    decreases |ms| - from
  {
    if from < |ms| && ms[from].None? {
      FirstSomeLeftmost(ms, from + 1);
    }
  }

  /** `re.search(p, t)`, reduced to the number it captures: the capture at the leftmost
      position where `p` matches. */
  function Search(t: string, p: Pattern): Option<nat> {
    FirstSome(Anchorings(t, p), 0)
  }

  /** The search succeeds exactly when some anchoring does, and then returns the leftmost one. */
  lemma SearchLeftmost(t: string, p: Pattern)
    ensures Search(t, p).None? <==> forall k :: 0 <= k <= |t| ==> MatchAt(t, k, p).None?
    ensures Search(t, p).Some? ==>
              exists k :: 0 <= k <= |t| && MatchAt(t, k, p) == Search(t, p)
                          && forall k' :: 0 <= k' < k ==> MatchAt(t, k', p).None?
  {
    var ms := Anchorings(t, p);
    FirstSomeLeftmost(ms, 0);
    assert forall k :: 0 <= k <= |t| ==> ms[k] == MatchAt(t, k, p);
  }

  /** A literal alternative that occurs nowhere in `t` matches at no position. */
  lemma {:induction false} AlternativeAtNone(t: string, i: nat, alts: seq<string>)
    requires i <= |t|
    requires forall k :: 0 <= k < |alts| ==> !Contains(t, alts[k])
    ensures AlternativeAt(t, i, alts).None?
    decreases |alts|
  {
    if alts != [] {
      assert !Contains(t, alts[0]);
      if alts[0] <= t[i..] {
        ContainsAt(t, alts[0], i);
      }
      assert forall k :: 0 <= k < |alts[1..]| ==> alts[1..][k] == alts[k + 1];
      AlternativeAtNone(t, i, alts[1..]);
    }
  }

  /** A literal-prefixed search fails when no alternative occurs in `t`. */
  lemma SearchLiteralNone(t: string, alts: seq<string>)
    requires forall k :: 0 <= k < |alts| ==> !Contains(t, alts[k])
    ensures Search(t, LiteralNumber(alts)).None?
  {
    forall k | 0 <= k <= |t|
      ensures MatchAt(t, k, LiteralNumber(alts)).None?
    {
      AlternativeAtNone(t, k, alts);
    }
    SearchLeftmost(t, LiteralNumber(alts));
  }

  /** A literal-prefixed match at `i` starts with one of the alternatives. */
  lemma {:induction false} AlternativeAtSome(t: string, i: nat, alts: seq<string>)
    requires i <= |t| && AlternativeAt(t, i, alts).Some?
    ensures exists k :: 0 <= k < |alts| && alts[k] <= t[i..]
    decreases |alts|
  {
    if !(alts[0] <= t[i..] && DigitsAt(t, i + |alts[0]|).Some?) {
      AlternativeAtSome(t, i, alts[1..]);
      var k :| 0 <= k < |alts[1..]| && alts[1..][k] <= t[i..];
      assert alts[k + 1] == alts[1..][k];
    }
  }

  /** A literal-prefixed search succeeds only where one of the alternatives occurs. */
  lemma SearchLiteralSome(t: string, alts: seq<string>)
    requires Search(t, LiteralNumber(alts)).Some?
    ensures exists i, k :: 0 <= i <= |t| && 0 <= k < |alts| && alts[k] <= t[i..]
  {
    SearchLeftmost(t, LiteralNumber(alts));
    var i :| 0 <= i <= |t| && MatchAt(t, i, LiteralNumber(alts)) == Search(t, LiteralNumber(alts));
    AlternativeAtSome(t, i, alts);
  }

  /** A match at the first position is the search's result. */
  lemma SearchAtStart(t: string, p: Pattern)
    requires MatchAt(t, 0, p).Some?
    ensures Search(t, p) == MatchAt(t, 0, p)
  {
    assert Anchorings(t, p)[0] == MatchAt(t, 0, p);
  }

  /** A string without upper-case letters and without surrounding whitespace is its own
      normalisation. */
  lemma NormalizeFixed(t: string)
    requires forall i :: 0 <= i < |t| ==> !('A' <= t[i] <= 'Z')
    requires t != [] ==> !IsSpace(t[0]) && !IsSpace(t[|t| - 1])
    ensures Normalize(t) == t
  {
    assert Lower(t) == t;
  }
}
