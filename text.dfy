/**
 * The handful of Python string operations and regular-expression scans that
 * the odds parser relies on: `str.strip`, `str.split()`, `str.splitlines`,
 * `str.lower`, `str.replace`, `str(int)`, `re.search` for the patterns
 * `-?\d+`, `-?\d+\.?\d*` and `\d+\.?\d*`, `re.findall` for `[+-]?\d+`,
 * and the plain-decimal subset of `float()`.
 * Digits are the ASCII digits '0'..'9'.
 */
module Text {
  import opened Wrappers

  /** Python's `str.isspace` for a single character. */
  predicate IsSpace(c: char) {
    c == ' ' || ('\t' <= c <= '\r') || ('\U{1C}' <= c <= '\U{1F}') || c == '\U{85}' || c == '\U{A0}'
    || c == '\U{1680}' || ('\U{2000}' <= c <= '\U{200A}') || c == '\U{2028}' || c == '\U{2029}'
    || c == '\U{202F}' || c == '\U{205F}' || c == '\U{3000}'
  }

  /** The characters at which `str.splitlines` cuts a line. */
  predicate IsLineBreak(c: char) {
    ('\n' <= c <= '\r') || ('\U{1C}' <= c <= '\U{1E}') || c == '\U{85}' || c == '\U{2028}' || c == '\U{2029}'
  }

  predicate IsDigit(c: char) { '0' <= c <= '9' }

  function DigitValue(c: char): nat
    requires IsDigit(c)
  {
    (c - '0') as nat
  }

  function DigitChar(d: nat): (c: char)
    requires d < 10
    ensures IsDigit(c) && DigitValue(c) == d
  {
    (d + '0' as int) as char
  }

  predicate AllDigits(s: string) { forall i :: 0 <= i < |s| ==> IsDigit(s[i]) }

  /** A string with no surrounding whitespace, as `str.strip` leaves it. */
  predicate Stripped(s: string) {
    s == [] || (!IsSpace(s[0]) && !IsSpace(s[|s| - 1]))
  }

  // ---------------------------------------------------------------------
  // strip, split, splitlines, lower, replace
  // ---------------------------------------------------------------------

  function TrimLeft(s: string): (r: string)
    ensures |r| <= |s|
    ensures r == [] || !IsSpace(r[0])
  {
    if s != [] && IsSpace(s[0]) then TrimLeft(s[1..]) else s
  }

  function TrimRight(s: string): (r: string)
    ensures |r| <= |s|
    ensures r == [] || !IsSpace(r[|r| - 1])
  {
    if s != [] && IsSpace(s[|s| - 1]) then TrimRight(s[..|s| - 1]) else s
  }

  /** `lstrip` keeps a suffix. */
  lemma {:induction false} TrimLeftSuffix(s: string)
    ensures TrimLeft(s) == s[|s| - |TrimLeft(s)|..]
  {
    if s != [] && IsSpace(s[0]) {
      TrimLeftSuffix(s[1..]);
    }
  }

  /** `rstrip` keeps a prefix. */
  lemma {:induction false} TrimRightPrefix(s: string)
    ensures TrimRight(s) == s[..|TrimRight(s)|]
  {
    if s != [] && IsSpace(s[|s| - 1]) {
      TrimRightPrefix(s[..|s| - 1]);
    }
  }

  /** `str.strip()`: the string without leading and trailing whitespace. */
  function Strip(s: string): (r: string)
    ensures Stripped(r)
    ensures |r| <= |s|
  {
    var t := TrimLeft(s);
    var r := TrimRight(t);
    TrimRightPrefix(t);
    assert r == [] || r[0] == t[0];
    r
  }

  /** Only whitespace is trimmed: a string without any is its own strip. */
  lemma StripNoSpace(s: string)
    requires forall i :: 0 <= i < |s| ==> !IsSpace(s[i])
    ensures Strip(s) == s
  {
    TrimRightNoSpace(TrimLeft(s));
  }

  lemma {:induction false} TrimRightNoSpace(s: string)
    requires s == [] || !IsSpace(s[|s| - 1])
    ensures TrimRight(s) == s
  {
  }

  /** Length of the run of non-whitespace characters starting at `i`. */
  function WordLength(s: string, i: nat): (n: nat)
    requires i <= |s|
    ensures i + n <= |s|
    ensures forall j :: i <= j < i + n ==> !IsSpace(s[j])
    ensures i + n == |s| || IsSpace(s[i + n])
    decreases |s| - i
  {
    if i < |s| && !IsSpace(s[i]) then 1 + WordLength(s, i + 1) else 0
  }

  /** `str.split()` with no argument: the maximal runs of non-whitespace characters, in order. */
  function Tokens(s: string): seq<string>
    decreases |s|
  {
    var t := TrimLeft(s);
    if t == [] then []
    else
      var n := WordLength(t, 0);
      [t[..n]] + Tokens(t[n..])
  }

  /** Every token of `split()` is a non-empty word with no surrounding whitespace. */
  lemma {:induction false} TokensStripped(s: string)
    ensures AllStripped(Tokens(s))
    decreases |s|
  {
    var t := TrimLeft(s);
    if t != [] {
      var n := WordLength(t, 0);
      var w := t[..n];
      assert w != [] && Stripped(w) by {
        assert w[0] == t[0] && w[n - 1] == t[n - 1];
      }
      TokensStripped(t[n..]);
      assert AllStripped([w]);
      AllStrippedAppend([w], Tokens(t[n..]));
    }
  }

  /** Length of the run of characters before the next line break at or after `i`. */
  function LineLength(s: string, i: nat): (n: nat)
    requires i <= |s|
    ensures i + n <= |s|
    ensures forall j :: i <= j < i + n ==> !IsLineBreak(s[j])
    ensures i + n == |s| || IsLineBreak(s[i + n])
    decreases |s| - i
  {
    if i < |s| && !IsLineBreak(s[i]) then 1 + LineLength(s, i + 1) else 0
  }

  /**
   * `[ln.strip() for ln in s.splitlines() if ln.strip() != '']`: the stripped
   * non-blank lines of `s`, in order. Cutting "\r\n" into two pieces only adds
   * a blank piece, which is dropped, so the result equals Python's.
   */
  function NonBlankLines(s: string): seq<string>
    decreases |s|
  {
    var n := LineLength(s, 0);
    KeptLine(s[..n]) + (if n < |s| then NonBlankLines(s[n + 1..]) else [])
  }

  /** The stripped line, or nothing when the line is blank. */
  function KeptLine(line: string): (r: seq<string>)
    ensures |r| <= 1
    ensures r == [] <==> Strip(line) == []
    ensures r != [] ==> r[0] == Strip(line)
  {
    var l := Strip(line);
    if l == [] then [] else [l]
  }

  /** Every string in `ls` is a non-empty word or line with no surrounding whitespace. */
  predicate AllStripped(ls: seq<string>) {
    forall k :: 0 <= k < |ls| ==> ls[k] != [] && Stripped(ls[k])
  }

  lemma AllStrippedAppend(xs: seq<string>, ys: seq<string>)
    requires AllStripped(xs) && AllStripped(ys)
    ensures AllStripped(xs + ys)
  {
    forall k | 0 <= k < |xs + ys| ensures (xs + ys)[k] != [] && Stripped((xs + ys)[k]) {
      if k >= |xs| {
        assert (xs + ys)[k] == ys[k - |xs|];
      }
    }
  }

  /** Every line kept is non-empty and stripped. */
  lemma {:induction false} NonBlankLinesStripped(s: string)
    ensures AllStripped(NonBlankLines(s))
    decreases |s|
  {
    var n := LineLength(s, 0);
    if n < |s| {
      NonBlankLinesStripped(s[n + 1..]);
    }
    AllStrippedAppend(KeptLine(s[..n]), if n < |s| then NonBlankLines(s[n + 1..]) else []);
  }


  function LowerChar(c: char): char {
    if 'A' <= c <= 'Z' then (c as int + 32) as char else c
  }

  /**
   * `str.lower()` restricted to ASCII letters. For the one comparison the
   * parser makes (`s.lower() == "even"`) this is exact: no other character
   * lower-cases to 'e', 'v' or 'n'.
   */
  function Lower(s: string): (r: string)
    ensures |r| == |s|
  {
    seq(|s|, i requires 0 <= i < |s| => LowerChar(s[i]))
  }

  /** `s.replace(c, '')`: `s` with every occurrence of `c` removed, the rest in order. */
  function RemoveAll(s: string, c: char): string {
    if s == [] then []
    else (if s[0] == c then [] else [s[0]]) + RemoveAll(s[1..], c)
  }

  // ---------------------------------------------------------------------
  // Decimal digits and numbers
  // ---------------------------------------------------------------------

  /** The number a string of decimal digits spells (leading zeros allowed). */
  function NatValue(ds: string): nat
    requires AllDigits(ds)
  {
    if ds == [] then 0 else NatValue(ds[..|ds| - 1]) * 10 + DigitValue(ds[|ds| - 1])
  }

  /** `x` divided by ten `k` times. */
  function Tenths(x: real, k: nat): real {
    if k == 0 then x else Tenths(x, k - 1) / 10.0
  }

  /** The value of the digits after a decimal point: "25" is 25 divided by ten twice. */
  function FractionValue(ds: string): real
    requires AllDigits(ds)
  {
    Tenths(NatValue(ds) as real, |ds|)
  }

  /** A single digit after the point counts in tenths: "5" is one half. */
  lemma FractionOfOneDigit(ds: string)
    requires |ds| == 1 && AllDigits(ds)
    ensures FractionValue(ds) == NatValue(ds) as real / 10.0
  {
    assert Tenths(NatValue(ds) as real, 0) == NatValue(ds) as real;
  }

  /** Length of the run of decimal digits starting at `i`. */
  function DigitRun(s: string, i: nat): (n: nat)
    requires i <= |s|
    ensures i + n <= |s|
    ensures forall k :: i <= k < i + n ==> IsDigit(s[k])
    ensures i + n == |s| || !IsDigit(s[i + n])
    decreases |s| - i
  {
    if i < |s| && IsDigit(s[i]) then 1 + DigitRun(s, i + 1) else 0
  }

  /** `str(n)` for a natural number. */
  function NatToString(n: nat): (s: string)
    ensures s != [] && AllDigits(s)
  {
    if n < 10 then [DigitChar(n)] else NatToString(n / 10) + [DigitChar(n % 10)]
  }

  /** `str(n)` for an integer. */
  function IntToString(n: int): (s: string)
    ensures s != [] && (n < 0 <==> s[0] == '-')
  {
    if n < 0 then "-" + NatToString(-n) else NatToString(n)
  }

  // ---------------------------------------------------------------------
  // Regular-expression scans
  // ---------------------------------------------------------------------

  /** Position `i` starts a match of `-?\d+` (and so of `-?\d+\.?\d*`). */
  predicate SignedStart(s: string, i: nat) {
    i < |s| && (IsDigit(s[i]) || (s[i] == '-' && i + 1 < |s| && IsDigit(s[i + 1])))
  }

  /** Position `i` starts a match of `\d+\.?\d*`. */
  predicate DigitStart(s: string, i: nat) {
    i < |s| && IsDigit(s[i])
  }

  /** The leftmost position at or after `from` where `-?\d+` matches, as `re.search` finds it. */
  function FirstSignedStart(s: string, from: nat): (r: Option<nat>)
    requires from <= |s|
    ensures r.Some? ==> from <= r.value < |s| && SignedStart(s, r.value)
    ensures r.Some? ==> forall j :: from <= j < r.value ==> !SignedStart(s, j)
    ensures r.None? ==> forall j :: from <= j < |s| ==> !SignedStart(s, j)
    decreases |s| - from
  {
    if from == |s| then None
    else if SignedStart(s, from) then Some(from)
    else FirstSignedStart(s, from + 1)
  }

  /** The leftmost position at or after `from` holding a digit. */
  function FirstDigitStart(s: string, from: nat): (r: Option<nat>)
    requires from <= |s|
    ensures r.Some? ==> from <= r.value < |s| && DigitStart(s, r.value)
    ensures r.Some? ==> forall j :: from <= j < r.value ==> !DigitStart(s, j)
    ensures r.None? ==> forall j :: from <= j < |s| ==> !DigitStart(s, j)
    decreases |s| - from
  {
    if from == |s| then None
    else if DigitStart(s, from) then Some(from)
    else FirstDigitStart(s, from + 1)
  }

  /** The integer that the greedy match of `-?\d+` starting at `i` spells. */
  function SignedIntAt(s: string, i: nat): int
    requires SignedStart(s, i)
  {
    if IsDigit(s[i]) then NatValue(s[i..i + DigitRun(s, i)])
    else -(NatValue(s[i + 1..i + 1 + DigitRun(s, i + 1)]) as int)
  }

  /** The number that the greedy match of `\d+\.?\d*` starting at digit `i` spells. */
  function DecimalAt(s: string, i: nat): real
    requires DigitStart(s, i)
  {
    var k := DigitRun(s, i);
    var whole := NatValue(s[i..i + k]) as real;
    if i + k < |s| && s[i + k] == '.' then
      var f := DigitRun(s, i + k + 1);
      whole + FractionValue(s[i + k + 1..i + k + 1 + f])
    else whole
  }

  /** The number that the greedy match of `-?\d+\.?\d*` starting at `i` spells. */
  function SignedDecimalAt(s: string, i: nat): real
    requires SignedStart(s, i)
  {
    if IsDigit(s[i]) then DecimalAt(s, i) else -DecimalAt(s, i + 1)
  }

  /** `re.search(r"-?\d+", s)` converted with `int()`, or None without a match. */
  function ScanSignedInt(s: string): Option<int> {
    match FirstSignedStart(s, 0)
    case None => None
    case Some(i) => Some(SignedIntAt(s, i))
  }

  /** `re.search(r"-?\d+\.?\d*", s)` converted with `float()`, or None without a match. */
  function ScanSignedDecimal(s: string): Option<real> {
    match FirstSignedStart(s, 0)
    case None => None
    case Some(i) => Some(SignedDecimalAt(s, i))
  }

  /** `re.search(r"\d+\.?\d*", s)` converted with `float()`, or None without a match. */
  function ScanDecimal(s: string): Option<real> {
    match FirstDigitStart(s, 0)
    case None => None
    case Some(i) => Some(DecimalAt(s, i))
  }

  /** `re.findall(r"[+-]?\d+", s[from..])`: the non-overlapping matches, left to right. */
  function SignedIntMatches(s: string, from: nat): (ms: seq<string>)
    requires from <= |s|
    ensures forall k :: 0 <= k < |ms| ==> ms[k] != []
    decreases |s| - from
  {
    if from == |s| then []
    else if IsDigit(s[from]) then
      var n := DigitRun(s, from);
      [s[from..from + n]] + SignedIntMatches(s, from + n)
    else if (s[from] == '+' || s[from] == '-') && from + 1 < |s| && IsDigit(s[from + 1]) then
      var n := 1 + DigitRun(s, from + 1);
      [s[from..from + n]] + SignedIntMatches(s, from + n)
    else SignedIntMatches(s, from + 1)
  }

  /** The plain-decimal forms `\d+`, `\d+\.\d*` and `\.\d+` of `float()`, unsigned. */
  function UnsignedPlainFloat(b: string): Option<real> {
    var k := DigitRun(b, 0);
    if k == |b| then (if k > 0 then Some(NatValue(b) as real) else None)
    else if b[k] == '.' && DigitRun(b, k + 1) == |b| - k - 1 && (k > 0 || k + 1 < |b|) then
      Some(NatValue(b[..k]) as real + FractionValue(b[k + 1..]))
    else None
  }

  /** `float(s)` on an already stripped string, for optionally signed plain decimals. */
  function PlainFloat(s: string): Option<real> {
    if s == [] then None
    else if s[0] == '+' || s[0] == '-' then
      match UnsignedPlainFloat(s[1..])
      case None => None
      case Some(v) => Some(if s[0] == '-' then -v else v)
    else UnsignedPlainFloat(s)
  }

  // ---------------------------------------------------------------------
  // Lemmas
  // ---------------------------------------------------------------------

  /** Removing a character that does not occur changes nothing. */
  lemma {:induction false} RemoveAllAbsent(s: string, c: char)
    requires c !in s
    ensures RemoveAll(s, c) == s
  {
    if s != [] {
      assert s == [s[0]] + s[1..];
      RemoveAllAbsent(s[1..], c);
    }
  }

  lemma {:induction false} RemoveAllAppend(s: string, t: string, c: char)
    ensures RemoveAll(s + t, c) == RemoveAll(s, c) + RemoveAll(t, c)
  {
    if s == [] {
      assert s + t == t;
    } else {
      assert (s + t)[1..] == s[1..] + t;
      RemoveAllAppend(s[1..], t, c);
    }
  }

  lemma {:induction false} NatValueOfNatToString(n: nat)
    ensures NatValue(NatToString(n)) == n
  {
    if n >= 10 {
      var s := NatToString(n);
      NatValueOfNatToString(n / 10);
      assert s[..|s| - 1] == NatToString(n / 10);
    }
  }

  lemma {:induction false} DigitRunOfDigits(s: string, i: nat)
    requires i <= |s|
    requires forall j :: i <= j < |s| ==> IsDigit(s[j])
    ensures DigitRun(s, i) == |s| - i
    decreases |s| - i
  {
    if i < |s| {
      DigitRunOfDigits(s, i + 1);
    }
  }

  /** Scanning `str(n)` for `-?\d+` gives back `n`: the scan inverts the formatting. */
  lemma ScanSignedIntOfIntToString(n: int)
    ensures ScanSignedInt(IntToString(n)) == Some(n)
  {
    var s := IntToString(n);
    if n < 0 {
      var d := NatToString(-n);
      assert s == "-" + d;
      assert SignedStart(s, 0);
      DigitRunOfDigits(s, 1);
      assert s[1..1 + DigitRun(s, 1)] == d;
      NatValueOfNatToString(-n);
    } else {
      assert SignedStart(s, 0);
      DigitRunOfDigits(s, 0);
      assert s[0..DigitRun(s, 0)] == s;
      NatValueOfNatToString(n);
    }
  }

  /** No whitespace anywhere in `w`. */
  predicate NoSpace(w: string) {
    forall i :: 0 <= i < |w| ==> !IsSpace(w[i])
  }

  /** A digit run is exactly as long as the digits before the first non-digit. */
  lemma DigitRunExact(s: string, i: nat, n: nat)
    requires i + n <= |s|
    requires forall j :: i <= j < i + n ==> IsDigit(s[j])
    requires i + n == |s| || !IsDigit(s[i + n])
    ensures DigitRun(s, i) == n
  {
  }

  /** A single word splits to itself. */
  lemma TokensOfWord(w: string)
    requires w != [] && NoSpace(w)
    ensures Tokens(w) == [w]
  {
    assert TrimLeft(w) == w;
    assert WordLength(w, 0) == |w|;
    assert w[..|w|] == w && w[|w|..] == [];
    assert Tokens([]) == [];
  }

  /** A word followed by a space splits off as the first token. */
  lemma TokensCons(w: string, rest: string)
    requires w != [] && NoSpace(w)
    ensures Tokens(w + " " + rest) == [w] + Tokens(rest)
  {
    var t := w + " " + rest;
    assert TrimLeft(t) == t;
    assert t[|w|] == ' ';
    assert forall j :: 0 <= j < |w| ==> t[j] == w[j];
    assert WordLength(t, 0) == |w|;
    assert t[..|w|] == w;
    assert t[|w|..] == " " + rest;
    assert (" " + rest)[1..] == rest;
  }

  // ---------------------------------------------------------------------
  // Where digits survive, and where the scans match
  // ---------------------------------------------------------------------

  /** `s` holds at least one decimal digit, so `\d` matches somewhere in it. */
  predicate HasDigit(s: string) {
    exists i :: 0 <= i < |s| && IsDigit(s[i])
  }

  /** `lstrip` never removes a non-whitespace character. */
  lemma {:induction false} TrimLeftKeeps(s: string, i: nat)
    requires i < |s| && !IsSpace(s[i])
    ensures |s| - |TrimLeft(s)| <= i
    decreases |s|
  {
    if IsSpace(s[0]) {
      TrimLeftKeeps(s[1..], i - 1);
    }
  }

  /** `rstrip` never removes a non-whitespace character. */
  lemma {:induction false} TrimRightKeeps(s: string, i: nat)
    requires i < |s| && !IsSpace(s[i])
    ensures i < |TrimRight(s)|
    decreases |s|
  {
    if IsSpace(s[|s| - 1]) {
      TrimRightKeeps(s[..|s| - 1], i);
    }
  }

  /** Stripping keeps exactly the digits: a string has one iff its strip has one. */
  lemma DigitsSurviveStrip(s: string)
    ensures HasDigit(Strip(s)) <==> HasDigit(s)
  {
    if HasDigit(s) {
      var i :| 0 <= i < |s| && IsDigit(s[i]);
      DigitSurvivesStrip(s, i);
    }
    if HasDigit(Strip(s)) {
      DigitOfStrip(s);
    }
  }

  lemma DigitSurvivesStrip(s: string, i: nat)
    requires i < |s| && IsDigit(s[i])
    ensures HasDigit(Strip(s))
  {
    var t := TrimLeft(s);
    TrimLeftSuffix(s);
    TrimRightPrefix(t);
    TrimLeftKeeps(s, i);
    var j := i - (|s| - |t|);
    assert t[j] == s[i];
    TrimRightKeeps(t, j);
    assert Strip(s)[j] == t[j];
  }

  lemma DigitOfStrip(s: string)
    requires HasDigit(Strip(s))
    ensures HasDigit(s)
  {
    var t := TrimLeft(s);
    var r := TrimRight(t);
    assert Strip(s) == r;
    var i :| 0 <= i < |r| && IsDigit(r[i]);
    TrimRightPrefix(t);
    assert r[i] == t[i];
    TrimLeftSuffix(s);
    var k := |s| - |t| + i;
    assert t[i] == s[k];
    assert IsDigit(s[k]);
  }

  /** A digit left after removing `c` was a digit before. */
  lemma {:induction false} RemoveAllKeepsDigits(s: string, c: char)
    requires HasDigit(RemoveAll(s, c))
    ensures HasDigit(s)
  {
    var r := RemoveAll(s, c);
    var i :| 0 <= i < |r| && IsDigit(r[i]);
    if s[0] != c && i == 0 {
      assert IsDigit(s[0]);
    } else {
      var j := if s[0] == c then i else i - 1;
      assert RemoveAll(s[1..], c)[j] == r[i];
      RemoveAllKeepsDigits(s[1..], c);
      var k :| 0 <= k < |s[1..]| && IsDigit(s[1..][k]);
      assert IsDigit(s[k + 1]);
    }
  }

  /** Removing a character that is not a digit keeps every digit. */
  lemma {:induction false} RemoveAllKeepsDigitsBack(s: string, c: char)
    requires !IsDigit(c) && HasDigit(s)
    ensures HasDigit(RemoveAll(s, c))
  {
    var head := if s[0] == c then [] else [s[0]];
    if IsDigit(s[0]) {
      assert RemoveAll(s, c)[0] == s[0];
    } else {
      var i :| 0 <= i < |s| && IsDigit(s[i]);
      assert IsDigit(s[1..][i - 1]);
      RemoveAllKeepsDigitsBack(s[1..], c);
      var k :| 0 <= k < |RemoveAll(s[1..], c)| && IsDigit(RemoveAll(s[1..], c)[k]);
      assert RemoveAll(s, c)[|head| + k] == RemoveAll(s[1..], c)[k];
    }
  }

  /** Removing a character that is not a digit keeps exactly the digits there were. */
  lemma RemoveAllDigits(s: string, c: char)
    requires !IsDigit(c)
    ensures HasDigit(RemoveAll(s, c)) <==> HasDigit(s)
  {
    if HasDigit(s) {
      RemoveAllKeepsDigitsBack(s, c);
    }
    if HasDigit(RemoveAll(s, c)) {
      RemoveAllKeepsDigits(s, c);
    }
  }

  /** `re.search(r"-?\d+", s)` matches exactly when `s` holds a digit. */
  lemma ScanSignedIntFound(s: string)
    ensures ScanSignedInt(s).Some? <==> HasDigit(s)
  {
    match FirstSignedStart(s, 0)
    case Some(i) =>
      assert IsDigit(s[i]) || IsDigit(s[i + 1]);
    case None =>
      if HasDigit(s) {
        var i :| 0 <= i < |s| && IsDigit(s[i]);
        assert SignedStart(s, i);
      }
  }

  // ---------------------------------------------------------------------
  // Reading a decimal written out
  // ---------------------------------------------------------------------

  /** A match of `\d+\.?\d*` with a decimal point: the whole part plus the fraction. */
  lemma DecimalAtPoint(s: string, i: nat, k: nat, f: nat, whole: string, frac: string)
    requires DigitStart(s, i) && k == DigitRun(s, i) && i + k < |s| && s[i + k] == '.'
    requires f == DigitRun(s, i + k + 1)
    requires whole == s[i..i + k] && frac == s[i + k + 1..i + k + 1 + f]
    ensures AllDigits(whole) && AllDigits(frac)
    ensures DecimalAt(s, i) == NatValue(whole) as real + FractionValue(frac)
  {
  }

  /** `whole + "." + frac` at the end of `s` is read by `\d+\.?\d*` as that decimal. */
  lemma DecimalAtText(s: string, i: nat, whole: string, frac: string)
    requires whole != [] && AllDigits(whole) && AllDigits(frac)
    requires i <= |s| && s[i..] == whole + "." + frac
    ensures DigitStart(s, i)
    ensures DecimalAt(s, i) == NatValue(whole) as real + FractionValue(frac)
  {
    DecimalTextLayout(s, i, whole, frac);
    DecimalAtPoint(s, i, |whole|, |frac|, whole, frac);
  }

  /** Where the digit runs and the point of a decimal written out at `i` lie. */
  lemma DecimalTextLayout(s: string, i: nat, whole: string, frac: string)
    requires whole != [] && AllDigits(whole) && AllDigits(frac)
    requires i <= |s| && s[i..] == whole + "." + frac
    ensures var k := |whole|;
      && DigitStart(s, i) && DigitRun(s, i) == k && i + k < |s| && s[i + k] == '.'
      && DigitRun(s, i + k + 1) == |frac|
      && s[i..i + k] == whole && s[i + k + 1..i + k + 1 + |frac|] == frac
  {
    var k := |whole|;
    var t := s[i..];
    PlainDecimalLayout(whole, frac);
    assert s[i] == t[0] && s[i + k] == t[k];
    DigitRunDrop(s, i, 0);
    DigitRunDrop(s, i, k + 1);
    SliceOfDrop(s, i, 0, k);
    SliceOfDrop(s, i, k + 1, |t|);
  }

  /** Digit runs are the same counted in `s` or in a suffix of it. */
  lemma DigitRunDrop(s: string, i: nat, j: nat)
    requires i + j <= |s|
    ensures DigitRun(s, i + j) == DigitRun(s[i..], j)
  {
    var n := DigitRun(s[i..], j);
    assert forall m :: i + j <= m < i + j + n ==> s[m] == s[i..][m - i];
    assert i + j + n < |s| ==> s[i + j + n] == s[i..][j + n];
    DigitRunExact(s, i + j, n);
  }

  lemma SliceOfDrop(s: string, i: nat, a: nat, b: nat)
    requires a <= b && i + b <= |s|
    ensures s[i..][a..b] == s[i + a..i + b]
  {
  }

  /** A match of `\d+\.?\d*` without a decimal point: the whole part. */
  lemma DecimalAtWhole(s: string, i: nat, k: nat, whole: string)
    requires DigitStart(s, i) && k == DigitRun(s, i) && (i + k == |s| || s[i + k] != '.')
    requires whole == s[i..i + k]
    ensures AllDigits(whole)
    ensures DecimalAt(s, i) == NatValue(whole) as real
  {
  }

  /** `float(whole + "." + frac)` for digit strings with a non-empty whole part. */
  lemma PlainFloatOfDecimalText(whole: string, frac: string)
    requires whole != [] && AllDigits(whole) && AllDigits(frac)
    ensures PlainFloat(whole + "." + frac) == Some(NatValue(whole) as real + FractionValue(frac))
  {
    PlainDecimalLayout(whole, frac);
  }

  /** Where the digit runs and the point of `whole + "." + frac` lie. */
  lemma PlainDecimalLayout(whole: string, frac: string)
    requires whole != [] && AllDigits(whole) && AllDigits(frac)
    ensures var b, k := whole + "." + frac, |whole|;
      && b[0] != '+' && b[0] != '-' && DigitRun(b, 0) == k && k < |b| && b[k] == '.'
      && DigitRun(b, k + 1) == |b| - k - 1 && b[..k] == whole && b[k + 1..] == frac
  {
    var b := whole + "." + frac;
    var k := |whole|;
    assert forall m :: 0 <= m < k ==> b[m] == whole[m];
    assert b[k] == '.';
    assert forall m :: k + 1 <= m < |b| ==> b[m] == frac[m - k - 1];
    DigitRunExact(b, 0, k);
    DigitRunOfDigits(b, k + 1);
    assert b[..k] == whole;
    assert b[k + 1..] == frac;
  }

  /** A decimal written out holds no space and no '%'. */
  lemma DecimalTextClean(whole: string, frac: string)
    requires AllDigits(whole) && AllDigits(frac)
    ensures NoSpace(whole + "." + frac) && '%' !in whole + "." + frac
  {
    var b := whole + "." + frac;
    forall m | 0 <= m < |b| ensures !IsSpace(b[m]) && b[m] != '%' {
      if m < |whole| {
        assert b[m] == whole[m];
      } else if m > |whole| {
        assert b[m] == frac[m - |whole| - 1];
      }
    }
  }

  /**
   * After a prefix with no digit that does not end in '-', the leftmost
   * match of `-?\d+` starts where the rest starts, if a match starts there.
   */
  lemma SignedStartAfterPrefix(p: string, rest: string)
    requires !HasDigit(p) && (p == [] || p[|p| - 1] != '-')
    requires SignedStart(rest, 0)
    ensures FirstSignedStart(p + rest, 0) == Some(|p|)
  {
    var x := p + rest;
    forall j | 0 <= j < |p| ensures !SignedStart(x, j) {
      assert x[j] == p[j];
      if j + 1 < |p| {
        assert x[j + 1] == p[j + 1];
      }
    }
    assert x[|p|] == rest[0];
    assert |rest| > 1 ==> x[|p| + 1] == rest[1];
    assert SignedStart(x, |p|);
  }

  /** How a signed decimal written after a prefix lies in the text. */
  lemma PrefixedDecimalLayout(p: string, sign: string, whole: string, frac: string)
    requires whole != []
    ensures var x := p + sign + whole + "." + frac;
      && x == p + (sign + (whole + "." + frac))
      && x[|p| + |sign|..] == whole + "." + frac
      && (sign + (whole + "." + frac))[|sign|] == whole[0]
  {
  }

  /** The leftmost signed match at `i`, an optional '-', then digits reading as `d`. */
  lemma SignedDecimalFoundAt(x: string, i: nat, neg: bool, d: real)
    requires FirstSignedStart(x, 0) == Some(i)
    requires neg ==> x[i] == '-'
    requires var o := i + (if neg then 1 else 0); DigitStart(x, o) && DecimalAt(x, o) == d
    ensures ScanSignedDecimal(x) == Some(if neg then -d else d)
  {
    assert ScanSignedDecimal(x) == Some(SignedDecimalAt(x, i));
  }

  /** The leftmost signed match at `i`, an optional '-', then a decimal written out. */
  lemma SignedDecimalFound(x: string, i: nat, neg: bool, whole: string, frac: string)
    requires FirstSignedStart(x, 0) == Some(i)
    requires neg ==> x[i] == '-'
    requires whole != [] && AllDigits(whole) && AllDigits(frac)
    requires var o := i + (if neg then 1 else 0); o <= |x| && x[o..] == whole + "." + frac
    ensures var v := NatValue(whole) as real + FractionValue(frac);
      ScanSignedDecimal(x) == Some(if neg then -v else v)
  {
    var o := i + (if neg then 1 else 0);
    DecimalAtText(x, o, whole, frac);
    SignedDecimalFoundAt(x, i, neg, NatValue(whole) as real + FractionValue(frac));
  }

  /** `-?\d+\.?\d*` finds a decimal written out after such a prefix. */
  lemma ScanSignedDecimalAfterPrefix(p: string, neg: bool, whole: string, frac: string)
    requires !HasDigit(p) && (p == [] || p[|p| - 1] != '-')
    requires whole != [] && AllDigits(whole) && AllDigits(frac)
    ensures var v := NatValue(whole) as real + FractionValue(frac);
      ScanSignedDecimal(p + (if neg then "-" else "") + whole + "." + frac)
        == Some(if neg then -v else v)
  {
    var sign := if neg then "-" else "";
    var rest := sign + (whole + "." + frac);
    PrefixedDecimalLayout(p, sign, whole, frac);
    SignedStartAfterPrefix(p, rest);
    assert (p + rest)[|p|] == rest[0];
    SignedDecimalFound(p + rest, |p|, neg, whole, frac);
  }

  /**
   * A number followed by a space and a word: not a plain decimal, and its
   * leftmost match of `\d+\.?\d*` is the number at the start.
   */
  lemma NumberThenWord(digits: string, word: string)
    requires digits != [] && AllDigits(digits) && word != [] && NoSpace(word)
    ensures var tok := digits + " " + word;
      && Stripped(tok)
      && PlainFloat(tok) == None
      && FirstDigitStart(tok, 0) == Some(0)
      && DecimalAt(tok, 0) == NatValue(digits) as real
  {
    var tok := digits + " " + word;
    var k := |digits|;
    assert tok[0] == digits[0] && tok[k] == ' ' && tok[|tok| - 1] == word[|word| - 1];
    assert forall m :: 0 <= m < k ==> tok[m] == digits[m];
    DigitRunExact(tok, 0, k);
    assert tok[0..k] == digits;
    DecimalAtWhole(tok, 0, k, digits);
  }

  // ---------------------------------------------------------------------
  // Lines joined by line breaks
  // ---------------------------------------------------------------------

  /** A line as the feed holds it after `strip`: non-empty, stripped, no line break inside. */
  predicate CleanLine(l: string) {
    l != [] && Stripped(l) && forall i :: 0 <= i < |l| ==> !IsLineBreak(l[i])
  }

  /**
   * What may stand between two lines: whitespace that starts and ends with a
   * line break, such as "\n", "\r\n", "\n\n" or "\n  \n" (blank lines between).
   */
  predicate Separator(sep: string) {
    && sep != [] && IsLineBreak(sep[0]) && IsLineBreak(sep[|sep| - 1])
    && forall i :: 0 <= i < |sep| ==> IsSpace(sep[i])
  }

  /** `sep.join(ls)`. */
  function JoinLines(ls: seq<string>, sep: string): string
    decreases |ls|
  {
    if |ls| == 0 then [] else if |ls| == 1 then ls[0] else ls[0] + sep + JoinLines(ls[1..], sep)
  }

  /** A line length is exactly as long as the text before the first line break. */
  lemma LineLengthExact(s: string, n: nat)
    requires n <= |s|
    requires forall j :: 0 <= j < n ==> !IsLineBreak(s[j])
    requires n == |s| || IsLineBreak(s[n])
    ensures LineLength(s, 0) == n
  {
  }

  /** A stripped string is its own strip. */
  lemma StripStripped(s: string)
    requires Stripped(s)
    ensures Strip(s) == s
  {
    assert TrimLeft(s) == s;
    TrimRightNoSpace(s);
  }

  /** Whitespace strips to nothing. */
  lemma {:induction false} StripAllSpace(b: string)
    requires forall i :: 0 <= i < |b| ==> IsSpace(b[i])
    ensures Strip(b) == []
    decreases |b|
  {
    if b != [] {
      StripAllSpace(b[1..]);
      assert TrimLeft(b) == TrimLeft(b[1..]);
    }
  }

  /** A line, a line break, and the rest: the line is kept (if not blank) before the rest's lines. */
  lemma NonBlankLinesCons(l: string, c: char, rest: string)
    requires forall i :: 0 <= i < |l| ==> !IsLineBreak(l[i])
    requires IsLineBreak(c)
    ensures NonBlankLines(l + [c] + rest) == KeptLine(l) + NonBlankLines(rest)
  {
    var s := l + [c] + rest;
    assert forall j :: 0 <= j < |l| ==> s[j] == l[j];
    LineLengthExact(s, |l|);
    assert s[..|l|] == l;
    assert s[|l| + 1..] == rest;
  }

  /** Text with no line break is one line. */
  lemma NonBlankLinesOneLine(l: string)
    requires forall i :: 0 <= i < |l| ==> !IsLineBreak(l[i])
    ensures NonBlankLines(l) == KeptLine(l)
  {
    LineLengthExact(l, |l|);
    assert l[..|l|] == l;
  }

  /** Blank lines in front of the text add no line. */
  lemma {:induction false} NonBlankLinesBlankPrefix(b: string, rest: string)
    requires forall i :: 0 <= i < |b| ==> IsSpace(b[i])
    requires b == [] || IsLineBreak(b[|b| - 1])
    ensures NonBlankLines(b + rest) == NonBlankLines(rest)
    decreases |b|
  {
    if b == [] {
      assert b + rest == rest;
    } else {
      var n := LineLength(b + rest, 0);
      BlankLineDropped(b, rest);
      BlankSuffix(b, n + 1);
      NonBlankLinesBlankPrefix(b[n + 1..], rest);
    }
  }

  lemma BlankSuffix(b: string, k: nat)
    requires forall i :: 0 <= i < |b| ==> IsSpace(b[i])
    requires b == [] || IsLineBreak(b[|b| - 1])
    requires k <= |b|
    ensures forall i :: 0 <= i < |b[k..]| ==> IsSpace(b[k..][i])
    ensures b[k..] == [] || IsLineBreak(b[k..][|b[k..]| - 1])
  {
  }

  /** The first line of blank text ending in a line break is dropped. */
  lemma BlankLineDropped(b: string, rest: string)
    requires forall i :: 0 <= i < |b| ==> IsSpace(b[i])
    requires b != [] && IsLineBreak(b[|b| - 1])
    ensures var n := LineLength(b + rest, 0);
      n < |b| && NonBlankLines(b + rest) == NonBlankLines(b[n + 1..] + rest)
  {
    var s := b + rest;
    var n := LineLength(s, 0);
    assert n < |b| by {
      assert s[|b| - 1] == b[|b| - 1];
    }
    SlicesOfAppend(b, rest, n);
    SlicesOfAppend(b, rest, n + 1);
    StripAllSpace(b[..n]);
    NonBlankLinesSkipBlank(s);
  }

  lemma SlicesOfAppend(b: string, rest: string, k: nat)
    requires k <= |b|
    ensures (b + rest)[..k] == b[..k] && (b + rest)[k..] == b[k..] + rest
  {
  }

  lemma NonBlankLinesSkipBlank(s: string)
    requires LineLength(s, 0) < |s| && Strip(s[..LineLength(s, 0)]) == []
    ensures NonBlankLines(s) == NonBlankLines(s[LineLength(s, 0) + 1..])
  {
  }

  /** The separator's first line break, then the rest of it. */
  lemma SeparatorHead(l: string, sep: string, rest: string)
    requires sep != []
    ensures l + sep + rest == l + [sep[0]] + (sep[1..] + rest)
  {
    assert sep == [sep[0]] + sep[1..];
  }

  /** A clean line and a separator in front of the text add just that line. */
  lemma NonBlankLinesJoinStep(l: string, sep: string, rest: string)
    requires CleanLine(l) && Separator(sep)
    ensures NonBlankLines(l + sep + rest) == [l] + NonBlankLines(rest)
  {
    SeparatorHead(l, sep, rest);
    NonBlankLinesCons(l, sep[0], sep[1..] + rest);
    KeptCleanLine(l);
    SeparatorTail(sep);
    NonBlankLinesBlankPrefix(sep[1..], rest);
  }

  lemma KeptCleanLine(l: string)
    requires CleanLine(l)
    ensures KeptLine(l) == [l]
  {
    StripStripped(l);
  }

  /** What follows a separator's first line break is blank and ends in a line break, or is empty. */
  lemma SeparatorTail(sep: string)
    requires Separator(sep)
    ensures forall i :: 0 <= i < |sep[1..]| ==> IsSpace(sep[1..][i])
    ensures sep[1..] == [] || IsLineBreak(sep[1..][|sep[1..]| - 1])
  {
  }

  /** Splitting joined clean lines into non-blank lines gives back the lines. */
  lemma {:induction false} NonBlankLinesOfJoin(ls: seq<string>, sep: string)
    requires Separator(sep)
    requires forall k :: 0 <= k < |ls| ==> CleanLine(ls[k])
    ensures NonBlankLines(JoinLines(ls, sep)) == ls
    decreases |ls|
  {
    if |ls| == 0 {
      StripAllSpace([]);
    } else if |ls| == 1 {
      NonBlankLinesOneLine(ls[0]);
      StripStripped(ls[0]);
    } else {
      NonBlankLinesJoinStep(ls[0], sep, JoinLines(ls[1..], sep));
      NonBlankLinesOfJoin(ls[1..], sep);
      assert [ls[0]] + ls[1..] == ls;
    }
  }

  // ---------------------------------------------------------------------
  // Matches of `[+-]?\d+`
  // ---------------------------------------------------------------------

  /** An optional sign as `[+-]?` matches it. */
  predicate SignText(sign: string) {
    sign == "" || sign == "+" || sign == "-"
  }

  /** `[+-]?\d+` at a digit: the whole digit run, up to `e`, is the next match. */
  lemma SignedIntMatchesAtDigit(s: string, from: nat, e: nat)
    requires from < |s| && IsDigit(s[from]) && e == from + DigitRun(s, from)
    ensures e <= |s|
    ensures SignedIntMatches(s, from) == [s[from..e]] + SignedIntMatches(s, e)
  {
  }

  /** `[+-]?\d+` at a sign followed by a digit: the sign and its digit run, up to `e`, are the next match. */
  lemma SignedIntMatchesAtSign(s: string, from: nat, e: nat)
    requires from + 1 < |s| && (s[from] == '+' || s[from] == '-') && IsDigit(s[from + 1])
    requires e == from + 1 + DigitRun(s, from + 1)
    ensures e <= |s|
    ensures SignedIntMatches(s, from) == [s[from..e]] + SignedIntMatches(s, e)
  {
  }

  /**
   * A match of `[+-]?\d+` from `from` to `e`: an optional sign at `from`,
   * digits from `d` to `e`, and no digit after them.
   */
  lemma SignedIntMatchesRun(s: string, from: nat, d: nat, e: nat)
    requires from <= d < e <= |s|
    requires d == from || (d == from + 1 && (s[from] == '+' || s[from] == '-'))
    requires forall j :: d <= j < e ==> IsDigit(s[j])
    requires e == |s| || !IsDigit(s[e])
    ensures SignedIntMatches(s, from) == [s[from..e]] + SignedIntMatches(s, e)
  {
    DigitRunExact(s, d, e - d);
    if d == from {
      SignedIntMatchesAtDigit(s, from, e);
    } else {
      SignedIntMatchesAtSign(s, from, e);
    }
  }

  /** A numeral followed by a space is the first match, and the space is skipped. */
  lemma SignedIntMatchesPairFirst(sa: string, da: string, h: string)
    requires SignText(sa) && da != [] && AllDigits(da)
    ensures var s := (sa + da) + " " + h;
      SignedIntMatches(s, 0) == [sa + da] + SignedIntMatches(s, |sa + da| + 1)
  {
    var a := sa + da;
    var s := a + " " + h;
    forall j | |sa| <= j < |a| ensures IsDigit(s[j]) {
      assert s[j] == da[j - |sa|];
    }
    assert s[|a|] == ' ';
    SignedIntMatchesRun(s, 0, |sa|, |a|);
    assert s[0..|a|] == a;
  }

  /** A numeral that ends the text is the last match. */
  lemma SignedIntMatchesLast(p: string, sign: string, ds: string)
    requires SignText(sign) && ds != [] && AllDigits(ds)
    ensures SignedIntMatches(p + (sign + ds), |p|) == [sign + ds]
  {
    var s := p + (sign + ds);
    NumeralAtEnd(p, sign, ds);
    SignedIntMatchesRun(s, |p|, |p| + |sign|, |s|);
    SignedIntMatchesEnd(s);
  }

  /** The layout of a numeral that ends the text `p + (sign + ds)`. */
  lemma NumeralAtEnd(p: string, sign: string, ds: string)
    requires SignText(sign) && ds != [] && AllDigits(ds)
    ensures var s := p + (sign + ds);
      && |s| == |p| + |sign| + |ds|
      && s[|p|..|s|] == sign + ds
      && (sign != [] ==> s[|p|] == sign[0])
      && forall j :: |p| + |sign| <= j < |s| ==> IsDigit(s[j])
  {
    var s := p + (sign + ds);
    forall j | |p| + |sign| <= j < |s| ensures IsDigit(s[j]) {
      assert s[j] == ds[j - |p| - |sign|];
    }
  }

  /** No match starts at the end of the text. */
  lemma SignedIntMatchesEnd(s: string)
    ensures SignedIntMatches(s, |s|) == []
  {
  }

  /** Two signed numerals separated by a space are the two matches, in order. */
  lemma SignedIntMatchesOfPair(sa: string, da: string, sh: string, dh: string)
    requires SignText(sa) && da != [] && AllDigits(da)
    requires SignText(sh) && dh != [] && AllDigits(dh)
    ensures SignedIntMatches((sa + da) + " " + (sh + dh), 0) == [sa + da, sh + dh]
  {
    SignedIntMatchesPairFirst(sa, da, sh + dh);
    SignedIntMatchesLast((sa + da) + " ", sh, dh);
  }
}
