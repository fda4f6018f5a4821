/**
 * American-odds arithmetic and the token helpers of the odds parser:
 * sanitising an odds token, converting odds to an implied probability,
 * two-way vig normalisation, the symmetric opposite vig, and the
 * percentage and point-value readers.
 */
module OddsMath {
  import opened Wrappers
  import opened Text
  import opened Stats

  /**
   * `_sanitize_int_token`: None and blank tokens give None, "even" in any
   * case gives 100, otherwise every '+' is removed and the leftmost match of
   * `-?\d+` is the value.
   */
  function SanitizeIntToken(tok: Option<string>): (r: Option<int>)
    // a value is read exactly for "even" or a token with a digit: no `-?\d+` match gives None
    ensures r.Some? <==> tok.Some? && (Lower(Strip(tok.value)) == "even" || HasDigit(tok.value))
    ensures tok.Some? && Lower(Strip(tok.value)) == "even" ==> r == Some(100)
  {
    match tok
    case None => None
    case Some(raw) =>
      var s := Strip(raw);
      DigitsSurviveStrip(raw);
      if s == [] then None
      else if Lower(s) == "even" then Some(100)
      else
        RemoveAllDigits(s, '+');
        ScanSignedIntFound(RemoveAll(s, '+'));
        ScanSignedInt(RemoveAll(s, '+'))
  }

  /**
   * `_american_to_prob_raw`: positive odds pay `odds` per 100 staked, so the
   * implied probability is 100/(odds+100); non-positive odds stake |odds| to
   * win 100, giving |odds|/(|odds|+100).
   */
  function AmericanToProbRaw(odds: Option<int>): (r: Option<real>)
    ensures r.Some? <==> odds.Some?
    ensures r.Some? ==> 0.0 <= r.value < 1.0
    ensures r.Some? ==> (r.value == 0.0 <==> odds.value == 0)
    ensures r.Some? && odds.value > 0 ==> r.value * (odds.value as real + 100.0) == 100.0
    ensures r.Some? && odds.value <= 0 ==> r.value * (100.0 - odds.value as real) == -odds.value as real
  {
    match odds
    case None => None
    case Some(o) =>
      if o > 0 then
        ShareOfTotal(100.0, o as real + 100.0);
        Some(100.0 / (o as real + 100.0))
      else
        var x := (-o) as real;
        ShareOfTotal(x, x + 100.0);
        Some(x / (x + 100.0))
  }

  /** A part `x` of a larger positive total `t` is a share in [0, 1), zero only for a zero part. */
  lemma ShareOfTotal(x: real, t: real)
    requires 0.0 <= x < t
    ensures 0.0 <= x / t < 1.0
    ensures x / t == 0.0 <==> x == 0.0
    ensures x / t * t == x
  {
    QuotientBounds(x, t);
    assert x / t * t == x;
  }

  /**
   * `_normalize_two_way`: both sides absent gives (None, None); otherwise the
   * raw probabilities (0 for an absent side) are divided by their total. When
   * that total is 0 the raw probability of one side is returned with None for
   * the other: (raw_a, None) if b is absent, else (None, raw_b).
   */
  function NormalizeTwoWay(a: Option<int>, b: Option<int>): (r: (Option<real>, Option<real>))
    ensures a.None? && b.None? ==> r == (None, None)
    // both sides present and not both even-money zero: a probability distribution
    ensures a.Some? && b.Some? && (a.value != 0 || b.value != 0) ==>
              && r.0.Some? && r.1.Some?
              && r.0.value + r.1.value == 1.0
              && 0.0 <= r.0.value <= 1.0 && 0.0 <= r.1.value <= 1.0
    // exactly one side present with non-zero odds: all the mass on that side
    ensures a.Some? && a.value != 0 && b.None? ==> r == (Some(1.0), Some(0.0))
    ensures a.None? && b.Some? && b.value != 0 ==> r == (Some(0.0), Some(1.0))
    // the un-normalised fallback fires exactly when every present side has odds 0
    ensures (r.0.None? || r.1.None?) && (a.Some? || b.Some?) <==>
              (a.Some? || b.Some?) && (a.None? || a.value == 0) && (b.None? || b.value == 0)
    ensures r.0.Some? && r.1.None? ==> b.None? && a == Some(0) && r.0 == Some(0.0)
    ensures r.0.None? && r.1.Some? ==> b == Some(0) && r.1 == Some(0.0)
  {
    if a.None? && b.None? then (None, None)
    else
      var aRaw := if a.Some? then AmericanToProbRaw(a).value else 0.0;
      var bRaw := if b.Some? then AmericanToProbRaw(b).value else 0.0;
      var total := aRaw + bRaw;
      if total == 0.0 then
        (if b.None? then (Some(aRaw), None) else (None, Some(bRaw)))
      else
        DivSum(aRaw, bRaw);
        QuotientBounds(aRaw, total);
        QuotientBounds(bRaw, total);
        assert b.None? ==> aRaw / total == 1.0 && bRaw / total == 0.0;
        assert a.None? ==> aRaw / total == 0.0 && bRaw / total == 1.0;
        (Some(aRaw / total), Some(bRaw / total))
  }

  /** `_calc_opposite_vig`: the other side of a symmetric -110/-110-style market. */
  function OppositeVig(vig: Option<int>): (r: Option<int>)
    ensures r.Some? <==> vig.Some?
    ensures r.Some? ==> vig.value + r.value == -220
  {
    match vig
    case None => None
    case Some(v) => Some(-220 - v)
  }

  /** The opposite of a known vig is known. */
  lemma OppositeOfKnown(v: int)
    ensures OppositeVig(Some(v)) == Some(-220 - v)
  {
  }

  /**
   * `_parse_percentage`: the empty token gives None; otherwise, after
   * stripping and removing every '%', the text as a plain decimal if it is
   * one, else the leftmost match of `\d+\.?\d*`, else None.
   */
  function ParsePercentage(tok: string): (r: Option<real>)
    ensures tok == [] ==> r.None?
    ensures tok != [] && PlainFloat(Strip(RemoveAll(Strip(tok), '%'))).Some? ==>
              r == PlainFloat(Strip(RemoveAll(Strip(tok), '%')))
    ensures r.Some? ==> tok != [] && HasDigit(tok)
  {
    if tok == [] then None
    else
      var t := RemoveAll(Strip(tok), '%');
      match PlainFloat(Strip(t))
      case Some(v) =>
        PlainFloatHasDigit(Strip(t));
        SubstringHasDigit(tok, t);
        Some(v)
      case None =>
        match FirstDigitStart(t, 0)
        case None => None
        case Some(i) =>
          SubstringHasDigit(tok, t);
          Some(DecimalAt(t, i))
  }

  /**
   * `_extract_point_value`: the leftmost match of `-?\d+\.?\d*` read as a
   * decimal, or None without one.
   */
  function ExtractPointValue(token: string): (r: Option<real>)
    ensures r.Some? <==> exists i :: 0 <= i < |token| && SignedStart(token, i)
  {
    var r := ScanSignedDecimal(token);
    assert r.Some? ==> SignedStart(token, FirstSignedStart(token, 0).value);
    r
  }

  // ---------------------------------------------------------------------
  // Lemmas
  // ---------------------------------------------------------------------

  /** Applying the opposite-vig rule twice gives back the original vig. */
  lemma OppositeVigInvolution(vig: Option<int>)
    ensures OppositeVig(OppositeVig(vig)) == vig
  {
  }

  /** -110 is its own opposite, and so -110/-110 normalises to an even split. */
  lemma EvenMarket()
    ensures OppositeVig(Some(-110)) == Some(-110)
    ensures NormalizeTwoWay(Some(-110), Some(-110)) == (Some(0.5), Some(0.5))
  {
  }

  /** A digit of `t = RemoveAll(Strip(tok), '%')` is a digit of `tok`. */
  lemma SubstringHasDigit(tok: string, t: string)
    requires t == RemoveAll(Strip(tok), '%')
    requires HasDigit(t) || HasDigit(Strip(t))
    ensures HasDigit(tok)
  {
    DigitsSurviveStrip(t);
    RemoveAllKeepsDigits(Strip(tok), '%');
    DigitsSurviveStrip(tok);
  }

  lemma PlainFloatHasDigit(s: string)
    requires PlainFloat(s).Some?
    ensures HasDigit(s)
  {
    var b := if s[0] == '+' || s[0] == '-' then s[1..] else s;
    var off := |s| - |b|;
    var k := DigitRun(b, 0);
    if k > 0 {
      assert IsDigit(b[0]) && b[0] == s[off];
    } else {
      assert b[k] == '.' && k + 1 < |b|;
      DigitRunOfDigits(b, k + 1);
      assert IsDigit(b[1]) && b[1] == s[off + 1];
    }
  }

  /** How an odds value is written: `str(n)`, with a '+' before a non-negative value when `plus` holds. */
  function OddsText(n: int, plus: bool): string {
    (if plus && n >= 0 then "+" else "") + IntToString(n)
  }

  /** The sign a written odds value starts with, if any. */
  function OddsSign(n: int, plus: bool): string {
    if n < 0 then "-" else if plus then "+" else ""
  }

  /** A written odds value is an optional sign and the digits of its magnitude, with no whitespace. */
  lemma OddsTextParts(n: int, plus: bool)
    ensures SignText(OddsSign(n, plus))
    ensures OddsText(n, plus) == OddsSign(n, plus) + NatToString(if n < 0 then -n else n)
    ensures OddsText(n, plus) != [] && NoSpace(OddsText(n, plus))
  {
    var sign, ds := OddsSign(n, plus), NatToString(if n < 0 then -n else n);
    var t := sign + ds;
    assert OddsText(n, plus) == t;
    forall i | 0 <= i < |t| ensures !IsSpace(t[i]) {
      if i >= |sign| {
        assert t[i] == ds[i - |sign|];
      }
    }
  }

  /**
   * The sanitiser reads back every formatted odds value, with or without an
   * explicit '+' before a non-negative number.
   */
  lemma SanitizeFormatted(n: int, plus: bool)
    ensures SanitizeIntToken(Some((if plus && n >= 0 then "+" else "") + IntToString(n))) == Some(n)
  {
    var tok := (if plus && n >= 0 then "+" else "") + IntToString(n);
    FormattedToken(n, plus);
    assert Strip(tok) == tok && tok != [];
    ScanSignedIntOfIntToString(n);
  }

  /** A written odds value is already stripped and is read back as itself. */
  lemma SanitizeOddsText(n: int, plus: bool)
    ensures Strip(OddsText(n, plus)) == OddsText(n, plus)
    ensures SanitizeIntToken(Some(OddsText(n, plus))) == Some(n)
  {
    FormattedTokenStripped(n, plus);
    SanitizeFormatted(n, plus);
  }

  /** The facts about a formatted odds token that the sanitiser's branches test. */
  lemma FormattedToken(n: int, plus: bool)
    ensures var tok := (if plus && n >= 0 then "+" else "") + IntToString(n);
      Strip(tok) == tok && Lower(tok) != "even" && RemoveAll(tok, '+') == IntToString(n)
  {
    FormattedTokenStripped(n, plus);
    FormattedTokenNotEven(n, plus);
    FormattedTokenPlusFree(n, plus);
  }

  lemma FormattedTokenStripped(n: int, plus: bool)
    ensures var tok := (if plus && n >= 0 then "+" else "") + IntToString(n); Strip(tok) == tok
  {
    var digits := IntToString(n);
    var sign := if plus && n >= 0 then "+" else "";
    var tok := sign + digits;
    FormattedIntChars(n);
    forall i | 0 <= i < |tok| ensures !IsSpace(tok[i]) {
      if i >= |sign| { assert tok[i] == digits[i - |sign|]; }
    }
    StripNoSpace(tok);
  }

  lemma FormattedTokenNotEven(n: int, plus: bool)
    ensures var tok := (if plus && n >= 0 then "+" else "") + IntToString(n); Lower(tok) != "even"
  {
    var digits := IntToString(n);
    var sign := if plus && n >= 0 then "+" else "";
    var tok := sign + digits;
    FormattedIntChars(n);
    assert tok[0] == '+' || tok[0] == '-' || IsDigit(tok[0]);
    NotEven(tok);
  }

  lemma FormattedTokenPlusFree(n: int, plus: bool)
    ensures var tok := (if plus && n >= 0 then "+" else "") + IntToString(n); RemoveAll(tok, '+') == IntToString(n)
  {
    var digits := IntToString(n);
    var sign := if plus && n >= 0 then "+" else "";
    FormattedIntChars(n);
    assert '+' !in digits;
    RemoveAllAbsent(digits, '+');
    RemoveAllAppend(sign, digits, '+');
    assert RemoveAll(sign, '+') == [];
  }

  /** Every character of `str(n)` is a digit or the minus sign. */
  lemma FormattedIntChars(n: int)
    ensures forall i :: 0 <= i < |IntToString(n)| ==> IntToString(n)[i] == '-' || IsDigit(IntToString(n)[i])
  {
    if n < 0 {
      var d := NatToString(-n);
      assert IntToString(n) == "-" + d;
      assert forall i :: 1 <= i < |IntToString(n)| ==> IntToString(n)[i] == d[i - 1];
    }
  }

  /** A string that does not start with a letter is not "even" in any case. */
  lemma NotEven(s: string)
    requires s != [] && !('a' <= s[0] <= 'z') && !('A' <= s[0] <= 'Z')
    ensures Lower(s) != "even"
  {
    assert Lower(s)[0] == s[0];
  }

  /** A whole-number percentage written as "<n>%" reads back as n. */
  lemma PercentageOfNat(n: nat)
    ensures ParsePercentage(NatToString(n) + "%") == Some(n as real)
  {
    var digits := NatToString(n);
    PercentTokenClean(n);
    assert digits[0] != '+' && digits[0] != '-';
    DigitRunOfDigits(digits, 0);
    NatValueOfNatToString(n);
    assert UnsignedPlainFloat(digits) == Some(n as real);
  }

  /** Stripping "<n>%" and removing its '%' leaves the digits of n. */
  lemma PercentTokenClean(n: nat)
    ensures Strip(NatToString(n) + "%") == NatToString(n) + "%"
    ensures RemoveAll(NatToString(n) + "%", '%') == NatToString(n)
    ensures Strip(NatToString(n)) == NatToString(n)
  {
    var digits := NatToString(n);
    PercentTokenNoSpace(n);
    StripNoSpace(digits + "%");
    RemoveAllAppend(digits, "%", '%');
    assert '%' !in digits;
    RemoveAllAbsent(digits, '%');
    assert RemoveAll("%", '%') == [];
    StripNoSpace(digits);
  }

  lemma PercentTokenNoSpace(n: nat)
    ensures forall i :: 0 <= i < |NatToString(n) + "%"| ==> !IsSpace((NatToString(n) + "%")[i])
  {
    var digits := NatToString(n);
    var tok := digits + "%";
    forall i | 0 <= i < |tok| ensures !IsSpace(tok[i]) {
      if i < |digits| { assert tok[i] == digits[i]; }
    }
  }


  /** An integer point value written with `str()` reads back as itself. */
  lemma PointValueOfInt(n: int)
    ensures ExtractPointValue(IntToString(n)) == Some(n as real)
  {
    var s := IntToString(n);
    assert SignedStart(s, 0);
    if n < 0 {
      var d := NatToString(-n);
      assert s == "-" + d;
      DigitRunOfDigits(s, 1);
      assert s[1..1 + DigitRun(s, 1)] == d;
      NatValueOfNatToString(-n);
    } else {
      DigitRunOfDigits(s, 0);
      assert s[0..DigitRun(s, 0)] == s;
      NatValueOfNatToString(n);
    }
  }

  /**
   * With both sides present and not both at odds 0, each normalised
   * probability is that side's raw probability over the total of the two.
   */
  lemma NormalizeTwoWayShares(a: int, b: int)
    requires a != 0 || b != 0
    ensures var pa, pb := AmericanToProbRaw(Some(a)).value, AmericanToProbRaw(Some(b)).value;
      && NormalizeTwoWay(Some(a), Some(b)).0.value * (pa + pb) == pa
      && NormalizeTwoWay(Some(a), Some(b)).1.value * (pa + pb) == pb
  {
    var pa, pb := AmericanToProbRaw(Some(a)).value, AmericanToProbRaw(Some(b)).value;
    var r := NormalizeTwoWay(Some(a), Some(b));
    var t := pa + pb;
    assert t > 0.0;
    assert r.0.value == pa / t && r.1.value == pb / t;
    QuotientTimes(pa, t, r.0.value);
    QuotientTimes(pb, t, r.1.value);
  }

  lemma QuotientTimes(x: real, t: real, q: real)
    requires t != 0.0 && q == x / t
    ensures q * t == x
  {
  }

  /**
   * A point value written `[-]<whole>.<frac>` reads back as that decimal,
   * after any prefix that holds no digit and does not end in '-': the
   * leftmost match of `-?\d+\.?\d*` is the written number.
   */
  lemma PointValueAfterPrefix(p: string, neg: bool, whole: string, frac: string)
    requires !HasDigit(p) && (p == [] || p[|p| - 1] != '-')
    requires whole != [] && AllDigits(whole) && AllDigits(frac)
    ensures var v := NatValue(whole) as real + FractionValue(frac);
      ExtractPointValue(p + (if neg then "-" else "") + whole + "." + frac)
        == Some(if neg then -v else v)
  {
    ScanSignedDecimalAfterPrefix(p, neg, whole, frac);
  }

  /** A point value written `[-]<whole>.<frac>` reads back as that decimal. */
  lemma PointValueOfDecimal(neg: bool, whole: string, frac: string)
    requires whole != [] && AllDigits(whole) && AllDigits(frac)
    ensures var v := NatValue(whole) as real + FractionValue(frac);
      ExtractPointValue((if neg then "-" else "") + whole + "." + frac)
        == Some(if neg then -v else v)
  {
    PointValueAfterPrefix([], neg, whole, frac);
    assert [] + (if neg then "-" else "") == (if neg then "-" else "");
  }

  /** A total token such as "O8.5" reads as its point value. */
  lemma PointValueExample()
    ensures ExtractPointValue("O8.5") == Some(8.5)
  {
    assert NatValue("8") as real + FractionValue("5") == 8.5 by {
      FractionOfOneDigit("5");
      assert NatValue("8") == 8 && NatValue("5") == 5;
    }
    assert !HasDigit("O") by { assert !IsDigit('O'); }
    PointValueAfterPrefix("O", false, "8", "5");
    assert "O" + "" + "8" + "." + "5" == "O8.5";
  }

  /** Stripping a clean "<body>%" and removing its '%' leaves the body. */
  lemma PercentSuffixClean(body: string)
    requires body != [] && NoSpace(body) && '%' !in body
    ensures Strip(body + "%") == body + "%"
    ensures RemoveAll(body + "%", '%') == body
    ensures Strip(body) == body
  {
    var tok := body + "%";
    assert forall i :: 0 <= i < |body| ==> tok[i] == body[i];
    StripNoSpace(tok);
    RemoveAllAppend(body, "%", '%');
    RemoveAllAbsent(body, '%');
    assert RemoveAll("%", '%') == [];
    StripNoSpace(body);
  }

  /** A clean "<body>%" whose body `float()` accepts reads back as that value. */
  lemma PercentageOfPlain(body: string, v: real)
    requires body != [] && NoSpace(body) && '%' !in body
    requires PlainFloat(body) == Some(v)
    ensures ParsePercentage(body + "%") == Some(v)
  {
    PercentSuffixClean(body);
    assert PlainFloat(Strip(RemoveAll(Strip(body + "%"), '%'))) == Some(v);
  }

  /** A whole-number percentage written "<digits>%" reads back as its value. */
  lemma PercentageOfDigits(ds: string)
    requires ds != [] && AllDigits(ds)
    ensures ParsePercentage(ds + "%") == Some(NatValue(ds) as real)
  {
    assert ds[0] != '+' && ds[0] != '-';
    assert forall i :: 0 <= i < |ds| ==> !IsSpace(ds[i]) && ds[i] != '%';
    DigitRunOfDigits(ds, 0);
    assert UnsignedPlainFloat(ds) == Some(NatValue(ds) as real);
    PercentageOfPlain(ds, NatValue(ds) as real);
  }

  /**
   * A decimal percentage written "<whole>.<frac>%" reads back as that
   * decimal, for any digit strings with a non-empty whole part.
   */
  lemma PercentageOfDecimal(whole: string, frac: string)
    requires whole != [] && AllDigits(whole) && AllDigits(frac)
    ensures ParsePercentage(whole + "." + frac + "%")
              == Some(NatValue(whole) as real + FractionValue(frac))
  {
    DecimalTextClean(whole, frac);
    PlainFloatOfDecimalText(whole, frac);
    PercentageOfPlain(whole + "." + frac, NatValue(whole) as real + FractionValue(frac));
  }

  /**
   * When `float()` fails, the first run of digits is read: a whole number
   * followed by a space and a word, such as "55 pct", reads as that number.
   */
  lemma PercentageFallback(n: nat, word: string)
    requires word != [] && NoSpace(word) && '%' !in word
    ensures ParsePercentage(NatToString(n) + " " + word) == Some(n as real)
  {
    var tok := NatToString(n) + " " + word;
    NumberThenWord(NatToString(n), word);
    StripStripped(tok);
    assert '%' !in NatToString(n);
    assert '%' !in tok;
    RemoveAllAbsent(tok, '%');
    NatValueOfNatToString(n);
  }

  lemma PercentageFallbackExample()
    ensures ParsePercentage("55 pct") == Some(55.0)
  {
    assert NatToString(55) == "55";
    PercentageFallback(55, "pct");
    assert "55" + " " + "pct" == "55 pct";
  }
}
