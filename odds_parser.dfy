/**
 * The block parser: pasted feed text is cut into stripped non-blank lines,
 * an optional header line is dropped, the rest is grouped into 5- or 4-line
 * blocks, and each block is mapped by a positional grammar to a game record
 * whose odds are normalised to implied probabilities. A separate grammar
 * reads betting-splits blocks.
 */
module OddsParser {
  import opened Wrappers
  import opened Text
  import opened OddsMath
  import opened Config

  datatype TotalSide = Over | Under

  /** One parsed game. The two grammars fill different fields and build different game ids. */
  datatype GameRecord =
    | FiveLineRecord(
        gameId: string, date: string, time: string, favoriteTeam: string,
        spreadPoints: Option<real>, favoriteIp: Option<real>, dogIp: Option<real>,
        spreadVig: Option<int>, spreadVigOpp: Option<int>,
        totalPoints: Option<real>, totalSide: Option<TotalSide>,
        overIp: Option<real>, underIp: Option<real>, totalVig: Option<int>, totalVigOpp: Option<int>,
        awayMl: Option<int>, homeMl: Option<int>, awayMlIp: Option<real>, homeMlIp: Option<real>)
    | FourLineRecord(
        gameId: string, date: string, time: string,
        awayMl: Option<int>, homeMl: Option<int>, awayMlIp: Option<real>, homeMlIp: Option<real>,
        totalPoints: Option<real>, totalVig: Option<int>, totalVigOpp: Option<int>,
        overIp: Option<real>, underIp: Option<real>,
        runlinePoints: Option<real>, runlineVig: Option<int>, runlineVigOpp: Option<int>)

  /** Bet and money percentages of a splits block. */
  datatype SplitsRecord = SplitsRecord(
    awayBetPct: Option<real>, homeBetPct: Option<real>,
    awayMoneyPct: Option<real>, homeMoneyPct: Option<real>)

  /** The `block_type` argument: '5line', '4line', or anything else (auto). */
  datatype BlockType = FiveLineMode | FourLineMode | AutoMode

  /** What `parse_feed` hands back: the parsed rows, or the exception it raised. */
  datatype FeedReturn = Returned(rows: seq<GameRecord>) | RaisedAttributeError

  // ---------------------------------------------------------------------
  // The 5-line and 4-line grammars
  // ---------------------------------------------------------------------

  /** A vig and its symmetric opposite, normalised to a pair of implied probabilities. */
  predicate VigPairNormalised(vig: Option<int>, opp: Option<int>, p: Option<real>, q: Option<real>) {
    && opp == OppositeVig(vig)
    && (vig.None? ==> p.None? && q.None?)
    && (vig.Some? ==> p.Some? && q.Some? && p.value + q.value == 1.0
                      && 0.0 <= p.value <= 1.0 && 0.0 <= q.value <= 1.0)
  }

  /** Normalising a vig against its opposite always yields a distribution (they are never both 0). */
  lemma VigPair(vig: Option<int>)
    ensures var opp := OppositeVig(vig);
      var pq := NormalizeTwoWay(vig, opp);
      VigPairNormalised(vig, opp, pq.0, pq.1)
  {
  }

  /**
   * `_parse_5line`: line 1 `date time favorite spread` (at least 4 tokens),
   * line 2 the spread vig, line 3 the total with an optional o/u side letter,
   * line 4 the total vig, line 5 the two moneylines, taken as the first two
   * matches of `[+-]?\d+`. A block of fewer than 5 lines raises inside the
   * `try` and so gives None, as does a first line of fewer than 4 tokens.
   */
  function Parse5Line(block: seq<string>): (r: Option<GameRecord>)
    ensures r.Some? <==> |block| >= 5 && |Tokens(block[0])| >= 4
    ensures r.Some? ==> r.value.FiveLineRecord?
  {
    if |block| < 5 then None
    else
      var t1 := Tokens(block[0]);
      if |t1| < 4 then None
      else
        var spreadVig := SanitizeIntToken(Some(Strip(block[1])));
        var spreadVigOpp := OppositeVig(spreadVig);
        var spreadIp := NormalizeTwoWay(spreadVig, spreadVigOpp);
        var totalToken := Strip(block[2]);
        var hasSide := |totalToken| >= 2 && (LowerChar(totalToken[0]) == 'o' || LowerChar(totalToken[0]) == 'u');
        var totalSide := if !hasSide then None else if LowerChar(totalToken[0]) == 'o' then Some(Over) else Some(Under);
        var totalPoints := if hasSide then ExtractPointValue(totalToken[1..]) else ExtractPointValue(totalToken);
        var totalVig := SanitizeIntToken(Some(block[3]));
        var totalVigOpp := OppositeVig(totalVig);
        var totalIp := NormalizeTwoWay(totalVig, totalVigOpp);
        var mlMatches := SignedIntMatches(block[4], 0);
        var awayMl := if |mlMatches| > 0 then SanitizeIntToken(Some(mlMatches[0])) else None;
        var homeMl := if |mlMatches| > 1 then SanitizeIntToken(Some(mlMatches[1])) else None;
        var mlIp := NormalizeTwoWay(awayMl, homeMl);
        Some(FiveLineRecord(
          gameId := t1[0] + "|" + t1[1] + "|" + t1[2], date := t1[0], time := t1[1], favoriteTeam := t1[2],
          spreadPoints := ExtractPointValue(t1[3]), favoriteIp := spreadIp.0, dogIp := spreadIp.1,
          spreadVig := spreadVig, spreadVigOpp := spreadVigOpp,
          totalPoints := totalPoints, totalSide := totalSide,
          overIp := totalIp.0, underIp := totalIp.1, totalVig := totalVig, totalVigOpp := totalVigOpp,
          awayMl := awayMl, homeMl := homeMl, awayMlIp := mlIp.0, homeMlIp := mlIp.1))
  }

  /**
   * What a parsed 5-line record holds: date, time, favourite and spread come
   * from the tokens of line 1 and the game id joins the first three; the
   * spread vig is read from line 2 and the total vig from line 4, and both
   * vig pairs are distributions; the moneyline probabilities normalise the
   * two moneylines, and form a distribution whenever both were read and not
   * both are 0.
   */
  lemma Parse5LineRecord(block: seq<string>)
    requires |block| >= 5 && |Tokens(block[0])| >= 4
    ensures var r := Parse5Line(block).value;
      var t1 := Tokens(block[0]);
      && r.gameId == t1[0] + "|" + t1[1] + "|" + t1[2]
      && r.date == t1[0] && r.time == t1[1]
      && r.favoriteTeam == t1[2]
      && r.spreadPoints == ExtractPointValue(t1[3])
      && r.spreadVig == SanitizeIntToken(Some(Strip(block[1])))
      && r.totalVig == SanitizeIntToken(Some(block[3]))
      && VigPairNormalised(r.spreadVig, r.spreadVigOpp, r.favoriteIp, r.dogIp)
      && VigPairNormalised(r.totalVig, r.totalVigOpp, r.overIp, r.underIp)
      && (r.awayMlIp, r.homeMlIp) == NormalizeTwoWay(r.awayMl, r.homeMl)
      && (r.awayMl.Some? && r.homeMl.Some? && (r.awayMl.value != 0 || r.homeMl.value != 0) ==>
            r.awayMlIp.Some? && r.homeMlIp.Some? && r.awayMlIp.value + r.homeMlIp.value == 1.0)
  {
    VigPair(SanitizeIntToken(Some(Strip(block[1]))));
    VigPair(SanitizeIntToken(Some(block[3])));
  }

  /**
   * Line 1 of a 5-line block written as `date time favourite spread` gives
   * those four fields and the game id `date|time|favourite`.
   */
  lemma Parse5LineFirstLine(block: seq<string>, date: string, time: string, fav: string, spread: string)
    requires |block| >= 5
    requires date != [] && NoSpace(date) && time != [] && NoSpace(time)
    requires fav != [] && NoSpace(fav) && spread != [] && NoSpace(spread)
    requires block[0] == date + " " + (time + " " + (fav + " " + spread))
    ensures Parse5Line(block).Some?
    ensures var r := Parse5Line(block).value;
      && r.date == date && r.time == time && r.favoriteTeam == fav
      && r.gameId == date + "|" + time + "|" + fav
      && r.spreadPoints == ExtractPointValue(spread)
  {
    TokensOfFourWords(date, time, fav, spread);
    Parse5LineRecord(block);
  }

  /** Odds written on lines 2 and 4 of a 5-line block are read back as the spread vig and the total vig. */
  lemma Parse5LineVigs(block: seq<string>, v: int, pv: bool, w: int, pw: bool)
    requires |block| >= 5 && |Tokens(block[0])| >= 4
    requires block[1] == OddsText(v, pv) && block[3] == OddsText(w, pw)
    ensures var r := Parse5Line(block).value;
      && r.spreadVig == Some(v) && r.spreadVigOpp == Some(-220 - v)
      && r.totalVig == Some(w) && r.totalVigOpp == Some(-220 - w)
  {
    var r := Parse5Line(block).value;
    Parse5LineRecord(block);
    SanitizeOddsText(v, pv);
    SanitizeOddsText(w, pw);
    assert r.spreadVig == Some(v) && r.totalVig == Some(w);
    OppositeOfKnown(v);
    OppositeOfKnown(w);
  }

  /**
   * Line 3 of a 5-line block written as an 'o' or 'u' (in either case) and
   * a point value gives that side, and the point value is read after the
   * letter.
   */
  lemma Parse5LineSidedTotal(block: seq<string>, c: char, x: string)
    requires |block| >= 5 && |Tokens(block[0])| >= 4
    requires LowerChar(c) == 'o' || LowerChar(c) == 'u'
    requires x != [] && NoSpace(x) && block[2] == [c] + x
    ensures var r := Parse5Line(block).value;
      && r.totalSide == Some(if LowerChar(c) == 'o' then Over else Under)
      && r.totalPoints == ExtractPointValue(x)
  {
    var t := [c] + x;
    assert NoSpace(t) by {
      forall i | 0 <= i < |t| ensures !IsSpace(t[i]) {
        if i > 0 {
          assert t[i] == x[i - 1];
        }
      }
    }
    StripNoSpace(t);
    assert t[1..] == x;
  }

  /** Line 3 written without a side letter gives no side, and the whole line is the point value. */
  lemma Parse5LinePlainTotal(block: seq<string>, x: string)
    requires |block| >= 5 && |Tokens(block[0])| >= 4
    requires x != [] && NoSpace(x) && block[2] == x
    requires LowerChar(x[0]) != 'o' && LowerChar(x[0]) != 'u'
    ensures var r := Parse5Line(block).value;
      r.totalSide.None? && r.totalPoints == ExtractPointValue(x)
  {
    StripNoSpace(x);
  }

  /** An over/under total such as "o45.5" gives that side and that point value. */
  lemma Parse5LineOverUnder(block: seq<string>, c: char, whole: string, frac: string)
    requires |block| >= 5 && |Tokens(block[0])| >= 4
    requires LowerChar(c) == 'o' || LowerChar(c) == 'u'
    requires whole != [] && AllDigits(whole) && AllDigits(frac)
    requires block[2] == [c] + (whole + "." + frac)
    ensures var r := Parse5Line(block).value;
      && r.totalSide == Some(if LowerChar(c) == 'o' then Over else Under)
      && r.totalPoints == Some(NatValue(whole) as real + FractionValue(frac))
  {
    DecimalTextClean(whole, frac);
    Parse5LineSidedTotal(block, c, whole + "." + frac);
    PointValueOfDecimal(false, whole, frac);
    assert "" + whole == whole;
  }

  /** Two odds written on line 5 of a 5-line block, separated by a space, are the away and home moneylines. */
  lemma Parse5LineMoneylines(block: seq<string>, a: int, pa: bool, h: int, ph: bool)
    requires |block| >= 5 && |Tokens(block[0])| >= 4
    requires block[4] == OddsText(a, pa) + " " + OddsText(h, ph)
    ensures var r := Parse5Line(block).value;
      && r.awayMl == Some(a) && r.homeMl == Some(h)
      && (r.awayMlIp, r.homeMlIp) == NormalizeTwoWay(Some(a), Some(h))
  {
    MoneylineMatches(a, pa, h, ph);
    SanitizeOddsText(a, pa);
    SanitizeOddsText(h, ph);
  }

  /** `re.findall(r"[+-]?\d+", ...)` on two written odds separated by a space finds exactly those two. */
  lemma MoneylineMatches(a: int, pa: bool, h: int, ph: bool)
    ensures SignedIntMatches(OddsText(a, pa) + " " + OddsText(h, ph), 0) == [OddsText(a, pa), OddsText(h, ph)]
  {
    OddsTextParts(a, pa);
    OddsTextParts(h, ph);
    SignedIntMatchesOfPair(OddsSign(a, pa), NatToString(if a < 0 then -a else a),
                           OddsSign(h, ph), NatToString(if h < 0 then -h else h));
  }

  /** `str()` of an optional integer inside an f-string: the digits, or "None". */
  function OptionalIntText(n: Option<int>): string {
    match n
    case None => "None"
    case Some(v) => IntToString(v)
  }

  /**
   * `_parse_4line`: line 1 `date time awayML homeML total` (at least 5
   * tokens), line 2 the total vig, line 3 `label runline_point`, line 4 the
   * runline vig. The runline probabilities are computed by the source but
   * not stored in the record, so they are not computed here.
   */
  function Parse4Line(block: seq<string>): (r: Option<GameRecord>)
    ensures r.Some? <==> |block| >= 4 && |Tokens(block[0])| >= 5
    ensures r.Some? ==> r.value.FourLineRecord?
    ensures r.Some? ==>
      var t1 := Tokens(block[0]);
      && r.value.awayMl == SanitizeIntToken(Some(t1[2]))
      && r.value.homeMl == SanitizeIntToken(Some(t1[3]))
      && r.value.gameId == t1[0] + "|" + t1[1] + "|" + OptionalIntText(r.value.awayMl) + "|" + OptionalIntText(r.value.homeMl)
      && r.value.date == t1[0] && r.value.time == t1[1]
      && (r.value.awayMlIp, r.value.homeMlIp) == NormalizeTwoWay(r.value.awayMl, r.value.homeMl)
      && r.value.totalPoints == ExtractPointValue(t1[4])
      && r.value.totalVig == SanitizeIntToken(Some(block[1]))
      && VigPairNormalised(r.value.totalVig, r.value.totalVigOpp, r.value.overIp, r.value.underIp)
      && r.value.runlineVig == SanitizeIntToken(Some(block[3]))
      && r.value.runlineVigOpp == OppositeVig(r.value.runlineVig)
      && (r.value.runlinePoints.Some? ==> |Tokens(block[2])| >= 2)
      && (|Tokens(block[2])| >= 2 ==> r.value.runlinePoints == ExtractPointValue(Tokens(block[2])[1]))
  {
    if |block| < 4 then None
    else
      var t1 := Tokens(block[0]);
      if |t1| < 5 then None
      else
        var awayMl := SanitizeIntToken(Some(t1[2]));
        var homeMl := SanitizeIntToken(Some(t1[3]));
        var mlIp := NormalizeTwoWay(awayMl, homeMl);
        var totalVig := SanitizeIntToken(Some(block[1]));
        var totalVigOpp := OppositeVig(totalVig);
        var totalIp := NormalizeTwoWay(totalVig, totalVigOpp);
        VigPair(totalVig);
        var rtokens := Tokens(block[2]);
        var runlinePoints := if |rtokens| >= 2 then ExtractPointValue(rtokens[1]) else None;
        var runlineVig := SanitizeIntToken(Some(block[3]));
        Some(FourLineRecord(
          gameId := t1[0] + "|" + t1[1] + "|" + OptionalIntText(awayMl) + "|" + OptionalIntText(homeMl),
          date := t1[0], time := t1[1],
          awayMl := awayMl, homeMl := homeMl, awayMlIp := mlIp.0, homeMlIp := mlIp.1,
          totalPoints := ExtractPointValue(t1[4]), totalVig := totalVig, totalVigOpp := totalVigOpp,
          overIp := totalIp.0, underIp := totalIp.1,
          runlinePoints := runlinePoints, runlineVig := runlineVig, runlineVigOpp := OppositeVig(runlineVig)))
  }

  /**
   * Line 1 of a 4-line block written as `date time away home total`, with
   * the two moneylines as written odds, gives date, time, both moneylines,
   * the total and the game id built from them.
   */
  lemma Parse4LineFirstLine(block: seq<string>, date: string, time: string,
                            a: int, pa: bool, h: int, ph: bool, total: string)
    requires |block| >= 4
    requires date != [] && NoSpace(date) && time != [] && NoSpace(time)
    requires total != [] && NoSpace(total)
    requires block[0] == date + " " + (time + " " + (OddsText(a, pa) + " " + (OddsText(h, ph) + " " + total)))
    ensures Parse4Line(block).Some?
    ensures var r := Parse4Line(block).value;
      && r.date == date && r.time == time
      && r.awayMl == Some(a) && r.homeMl == Some(h)
      && (r.awayMlIp, r.homeMlIp) == NormalizeTwoWay(Some(a), Some(h))
      && r.totalPoints == ExtractPointValue(total)
      && r.gameId == date + "|" + time + "|" + IntToString(a) + "|" + IntToString(h)
  {
    OddsTextParts(a, pa);
    OddsTextParts(h, ph);
    TokensOfFiveWords(date, time, OddsText(a, pa), OddsText(h, ph), total);
    SanitizeOddsText(a, pa);
    SanitizeOddsText(h, ph);
  }

  /** Odds written on lines 2 and 4 of a 4-line block are read back as the total vig and the runline vig. */
  lemma Parse4LineVigs(block: seq<string>, w: int, pw: bool, x: int, px: bool)
    requires |block| >= 4 && |Tokens(block[0])| >= 5
    requires block[1] == OddsText(w, pw) && block[3] == OddsText(x, px)
    ensures var r := Parse4Line(block).value;
      && r.totalVig == Some(w) && r.totalVigOpp == Some(-220 - w)
      && r.runlineVig == Some(x) && r.runlineVigOpp == Some(-220 - x)
  {
    var r := Parse4Line(block).value;
    SanitizeOddsText(w, pw);
    SanitizeOddsText(x, px);
    assert r.totalVig == Some(w) && r.runlineVig == Some(x);
    assert r.totalVigOpp == OppositeVig(Some(w)) && r.runlineVigOpp == OppositeVig(Some(x));
    OppositeOfKnown(w);
    OppositeOfKnown(x);
  }

  /** Line 3 of a 4-line block written as `<side> <point>` gives the runline points read from the second word. */
  lemma Parse4LineRunline(block: seq<string>, side: string, point: string)
    requires |block| >= 4 && |Tokens(block[0])| >= 5
    requires side != [] && NoSpace(side) && point != [] && NoSpace(point)
    requires block[2] == side + " " + point
    ensures Parse4Line(block).value.runlinePoints == ExtractPointValue(point)
  {
    TokensOfWord(point);
    TokensCons(side, point);
  }

  // ---------------------------------------------------------------------
  // Grouping lines into blocks
  // ---------------------------------------------------------------------

  /** The stripped non-blank lines of the feed, without the header line when it is ignored. */
  function FeedLines(cfg: Settings, text: string): (ls: seq<string>)
    ensures |ls| == |NonBlankLines(text)| - (if cfg.ignoreHeaderRows && NonBlankLines(text) != [] then 1 else 0)
    ensures AllStripped(ls)
  {
    var lines := NonBlankLines(text);
    NonBlankLinesStripped(text);
    if cfg.ignoreHeaderRows && |lines| > 0 then lines[1..] else lines
  }

  /**
   * A feed written as a header line and then game lines, separated by line
   * breaks with any blank lines between them, gives back those lines, the
   * header dropped when header rows are ignored.
   */
  lemma FeedLinesOfJoin(cfg: Settings, header: string, ls: seq<string>, sep: string)
    requires Separator(sep) && CleanLine(header)
    requires forall k :: 0 <= k < |ls| ==> CleanLine(ls[k])
    ensures FeedLines(cfg, JoinLines([header] + ls, sep)) == if cfg.ignoreHeaderRows then ls else [header] + ls
  {
    var all := [header] + ls;
    forall k | 0 <= k < |all| ensures CleanLine(all[k]) {
      if k > 0 {
        assert all[k] == ls[k - 1];
      }
    }
    NonBlankLinesOfJoin(all, sep);
    assert all[1..] == ls;
  }

  /** The block length `parse_feed` flushes at once `cur` holds `curLen` lines (None: no flush). */
  function Expect(mode: BlockType, cfg: Settings, curLen: nat): Option<nat> {
    match mode
    case FiveLineMode => Some(5)
    case FourLineMode => Some(4)
    case AutoMode =>
      if curLen >= 5 && cfg.parse5LineBlocks then Some(5)
      else if curLen >= 4 && cfg.parse4LineBlocks then Some(4)
      else None
  }

  /**
   * The block length the grouping loop actually cuts at. In auto mode the
   * 4-line rule is met first, so it wins whenever 4-line blocks are enabled.
   */
  function FlushSize(mode: BlockType, cfg: Settings): (k: Option<nat>)
    ensures k.Some? ==> k.value == 4 || k.value == 5
  {
    match mode
    case FiveLineMode => Some(5)
    case FourLineMode => Some(4)
    case AutoMode =>
      if cfg.parse4LineBlocks then Some(4)
      else if cfg.parse5LineBlocks then Some(5)
      else None
  }

  /**
   * The blocks cut from `lines`: consecutive runs of `size` lines, then the
   * trailing remainder if it has 4 or 5 lines. Without a size nothing is cut
   * and the whole input is one block if it has 4 or 5 lines.
   */
  function Blocks(lines: seq<string>, size: Option<nat>): seq<seq<string>>
    requires size.Some? ==> size.value > 0
    decreases |lines|
  {
    if size.Some? && |lines| >= size.value then [lines[..size.value]] + Blocks(lines[size.value..], size)
    else if |lines| == 4 || |lines| == 5 then [lines]
    else []
  }

  /** While `cur` is shorter than the flush size, the per-step rule fires exactly at the flush size. */
  lemma ExpectMatchesFlushSize(mode: BlockType, cfg: Settings, n: nat)
    requires n >= 1
    requires FlushSize(mode, cfg).Some? ==> n <= FlushSize(mode, cfg).value
    ensures (Expect(mode, cfg, n).Some? && Expect(mode, cfg, n).value == n) <==> FlushSize(mode, cfg) == Some(n)
  {
  }

  /** Cutting one full block off the front of `lines[from..]`. */
  lemma BlocksCut(lines: seq<string>, from: nat, k: nat)
    requires k > 0 && from + k <= |lines|
    ensures Blocks(lines[from..], Some(k)) == [lines[from..from + k]] + Blocks(lines[from + k..], Some(k))
  {
    assert lines[from..][..k] == lines[from..from + k];
    assert lines[from..][k..] == lines[from + k..];
  }

  /** Flushing the full block `lines[from..i]` keeps the blocks found so far plus those still to come unchanged. */
  lemma FlushKeepsBlocks(lines: seq<string>, start: nat, from: nat, i: nat, blocks: seq<seq<string>>, size: Option<nat>)
    requires start <= from < i <= |lines| && size == Some(i - from)
    requires blocks + Blocks(lines[from..], size) == Blocks(lines[start..], size)
    ensures (blocks + [lines[from..i]]) + Blocks(lines[i..], size) == Blocks(lines[start..], size)
  {
    BlocksCut(lines, from, i - from);
    assert Blocks(lines[from..], size) == [lines[from..i]] + Blocks(lines[i..], size);
  }

  /** A remainder shorter than the block size is one block if it has 4 or 5 lines, and nothing otherwise. */
  lemma BlocksRemainder(rest: seq<string>, size: Option<nat>)
    requires size.Some? ==> 0 < |rest| + 1 <= size.value
    ensures Blocks(rest, size) == if |rest| == 4 || |rest| == 5 then [rest] else []
  {
  }

  /** The `while` loop of `parse_feed` that fills `blocks` from `lines[start..]`. */
  method GroupLines(lines: seq<string>, start: nat, mode: BlockType, cfg: Settings) returns (blocks: seq<seq<string>>)
    requires start <= |lines|
    ensures blocks == Blocks(lines[start..], FlushSize(mode, cfg))
  {
    ghost var size := FlushSize(mode, cfg);
    ghost var from := start;
    var cur: seq<string> := [];
    blocks := [];
    var i := start;
    while i < |lines|
      invariant start <= from <= i <= |lines|
      invariant cur == lines[from..i]
      invariant size.Some? ==> |cur| < size.value
      invariant blocks + Blocks(lines[from..], size) == Blocks(lines[start..], size)
    {
      assert lines[from..i + 1] == lines[from..i] + [lines[i]];
      cur := cur + [lines[i]];
      i := i + 1;
      var expected := Expect(mode, cfg, |cur|);
      ExpectMatchesFlushSize(mode, cfg, |cur|);
      if expected.Some? && |cur| == expected.value {
        FlushKeepsBlocks(lines, start, from, i, blocks, size);
        blocks := blocks + [cur];
        cur := [];
        from := i;
      }
    }
    assert lines[from..] == cur;
    BlocksRemainder(cur, size);
    if |cur| == 4 || |cur| == 5 {
      blocks := blocks + [cur];
    } else {
      assert blocks + [] == blocks;
    }
  }

  // ---------------------------------------------------------------------
  // Mapping blocks to records
  // ---------------------------------------------------------------------

  /** What the mapping loop does with one block. */
  datatype BlockOutcome = Mapped(record: GameRecord) | Dropped | Raised

  /**
   * One step of the mapping loop. A 4-line block reaches a test of
   * `cfg.parse_4line_blocks`, which the configuration does not define (it
   * defines `parse_4_line_blocks`), so the attribute lookup raises outside
   * any `try`.
   */
  function MapBlock(cfg: Settings, b: seq<string>): BlockOutcome {
    if |b| == 5 && cfg.parse5LineBlocks then
      match Parse5Line(b)
      case Some(rec) => Mapped(rec)
      case None => Dropped
    else if |b| == 4 then Raised
    else Dropped
  }

  /** The records appended by the mapping loop over `blocks`, and whether it raised. */
  datatype FeedOutcome = FeedOutcome(rows: seq<GameRecord>, raised: bool)

  function MapBlocks(cfg: Settings, blocks: seq<seq<string>>): FeedOutcome
    decreases |blocks|
  {
    if blocks == [] then FeedOutcome([], false)
    else
      var prev := MapBlocks(cfg, blocks[..|blocks| - 1]);
      if prev.raised then prev
      else
        match MapBlock(cfg, blocks[|blocks| - 1])
        case Mapped(rec) => FeedOutcome(prev.rows + [rec], false)
        case Dropped => prev
        case Raised => FeedOutcome(prev.rows, true)
  }

  /** Everything `parse_feed(text, mode)` does to `parsed_data`, and whether it raises. */
  function Feed(cfg: Settings, text: string, mode: BlockType): FeedOutcome {
    if NonBlankLines(text) == [] then FeedOutcome([], false)
    else MapBlocks(cfg, Blocks(FeedLines(cfg, text), FlushSize(mode, cfg)))
  }

  /** The splits grammar over the non-blank lines of a block: lines 4 to 7 are the percentages. */
  function SplitsFromLines(lines: seq<string>): (r: Option<SplitsRecord>)
    ensures r.Some? <==> |lines| >= 7
  {
    if |lines| < 7 then None
    else Some(SplitsRecord(ParsePercentage(lines[3]), ParsePercentage(lines[4]),
                           ParsePercentage(lines[5]), ParsePercentage(lines[6])))
  }

  /** The parser object with the two lists it appends to. */
  class OmniscienceParser {
    const cfg: Settings
    var parsedData: seq<GameRecord>
    var splitsData: seq<SplitsRecord>

    constructor (cfg: Settings)
      ensures this.cfg == cfg && parsedData == [] && splitsData == []
    {
      this.cfg := cfg;
      parsedData := [];
      splitsData := [];
    }

    /**
     * `parse_feed`: groups the feed into blocks, maps them in order and
     * appends every mapped record to `parsedData`. When a block raises, the
     * records of the blocks before it stay appended.
     */
    method ParseFeed(text: string, mode: BlockType) returns (r: FeedReturn)
      modifies this
      ensures parsedData == old(parsedData) + Feed(cfg, text, mode).rows
      ensures splitsData == old(splitsData)
      ensures r == if Feed(cfg, text, mode).raised then RaisedAttributeError else Returned(Feed(cfg, text, mode).rows)
    {
      var lines := NonBlankLines(text);
      if |lines| == 0 {
        return Returned([]);
      }
      var start := if cfg.ignoreHeaderRows && |lines| > 0 then 1 else 0;
      var blocks := GroupLines(lines, start, mode, cfg);
      assert lines[start..] == FeedLines(cfg, text);
      r := MapFeedBlocks(blocks);
    }

    /** The `for` loop of `parse_feed` that maps each block and appends its record. */
    method MapFeedBlocks(blocks: seq<seq<string>>) returns (r: FeedReturn)
      modifies this
      ensures parsedData == old(parsedData) + MapBlocks(cfg, blocks).rows
      ensures splitsData == old(splitsData)
      ensures r == if MapBlocks(cfg, blocks).raised then RaisedAttributeError else Returned(MapBlocks(cfg, blocks).rows)
    {
      var parsed: seq<GameRecord> := [];
      var j := 0;
      while j < |blocks|
        invariant 0 <= j <= |blocks|
        invariant MapBlocks(cfg, blocks[..j]) == FeedOutcome(parsed, false)
        invariant parsedData == old(parsedData) + parsed
        invariant splitsData == old(splitsData)
      {
        var o := MapOneBlock(blocks[j]);
        if o.Raised? {
          MapBlocksStopsAtRaise(cfg, blocks, j);
          return RaisedAttributeError;
        }
        MapBlocksStep(cfg, blocks, j);
        if o.Mapped? {
          parsed := parsed + [o.record];
          parsedData := parsedData + [o.record];
        }
        j := j + 1;
      }
      assert blocks[..j] == blocks;
      return Returned(parsed);
    }

    /** The body of the mapping loop for one block, before its record is appended. */
    method MapOneBlock(b: seq<string>) returns (o: BlockOutcome)
      ensures o == MapBlock(cfg, b)
    {
      if |b| == 5 && cfg.parse5LineBlocks {
        var p := Parse5Line(b);
        o := if p.Some? then Mapped(p.value) else Dropped;
      } else if |b| == 4 {
        o := Raised;
      } else {
        o := Dropped;
      }
    }

    /** `parse_splits_block`: fewer than 7 non-blank lines give None; otherwise the record is appended. */
    method ParseSplitsBlock(text: string) returns (r: Option<SplitsRecord>)
      modifies this
      ensures r == SplitsFromLines(NonBlankLines(text))
      ensures splitsData == old(splitsData) + (if r.Some? then [r.value] else [])
      ensures parsedData == old(parsedData)
    {
      var lines := NonBlankLines(text);
      if |lines| < 7 {
        return None;
      }
      var awayBetPct := ParsePercentage(lines[3]);
      var homeBetPct := ParsePercentage(lines[4]);
      var awayMoneyPct := ParsePercentage(lines[5]);
      var homeMoneyPct := ParsePercentage(lines[6]);
      var rec := SplitsRecord(awayBetPct, homeBetPct, awayMoneyPct, homeMoneyPct);
      assert Some(rec) == SplitsFromLines(lines);
      splitsData := splitsData + [rec];
      return Some(rec);
    }
  }

  /** One step of the mapping loop, while nothing has raised. */
  lemma MapBlocksStep(cfg: Settings, blocks: seq<seq<string>>, j: nat)
    requires j < |blocks| && !MapBlocks(cfg, blocks[..j]).raised
    ensures MapBlocks(cfg, blocks[..j + 1]) ==
      match MapBlock(cfg, blocks[j])
      case Mapped(rec) => FeedOutcome(MapBlocks(cfg, blocks[..j]).rows + [rec], false)
      case Dropped => MapBlocks(cfg, blocks[..j])
      case Raised => FeedOutcome(MapBlocks(cfg, blocks[..j]).rows, true)
  {
    assert blocks[..j + 1][..j] == blocks[..j];
  }

  /** Once block `j` raises, the outcome over all blocks is the outcome up to it. */
  lemma {:induction false} MapBlocksStopsAtRaise(cfg: Settings, blocks: seq<seq<string>>, j: nat)
    requires j < |blocks| && MapBlock(cfg, blocks[j]) == Raised && !MapBlocks(cfg, blocks[..j]).raised
    ensures MapBlocks(cfg, blocks) == FeedOutcome(MapBlocks(cfg, blocks[..j]).rows, true)
    decreases |blocks|
  {
    if j == |blocks| - 1 {
      assert blocks[..|blocks| - 1] == blocks[..j];
    } else {
      var init := blocks[..|blocks| - 1];
      assert init[..j] == blocks[..j] && init[j] == blocks[j];
      MapBlocksStopsAtRaise(cfg, init, j);
    }
  }

  // ---------------------------------------------------------------------
  // Properties of the grouping
  // ---------------------------------------------------------------------

  /** The lines of `bs`, block after block. */
  function Concat(bs: seq<seq<string>>): seq<string> {
    if bs == [] then [] else bs[0] + Concat(bs[1..])
  }

  /**
   * With a fixed block size `k`: every block but the last has exactly `k`
   * lines and the last has `k`, 4 or 5; the blocks laid end to end are a
   * prefix of the lines; and what is left over is shorter than `k` and is
   * neither 4 nor 5 lines long.
   */
  lemma {:induction false} BlocksPartition(lines: seq<string>, k: nat)
    requires k > 0
    ensures var bs := Blocks(lines, Some(k));
      && (forall i :: 0 <= i < |bs| ==> |bs[i]| == k || (i == |bs| - 1 && (|bs[i]| == 4 || |bs[i]| == 5)))
      && |Concat(bs)| <= |lines|
      && Concat(bs) == lines[..|Concat(bs)|]
      && |lines| - |Concat(bs)| < k
      && (|Concat(bs)| < |lines| ==> |lines| - |Concat(bs)| != 4 && |lines| - |Concat(bs)| != 5)
    decreases |lines|
  {
    var bs := Blocks(lines, Some(k));
    if |lines| >= k {
      var rest := Blocks(lines[k..], Some(k));
      BlocksPartition(lines[k..], k);
      assert bs == [lines[..k]] + rest;
      assert bs[1..] == rest;
      assert Concat(bs) == lines[..k] + Concat(rest);
      assert lines[..k] + lines[k..][..|Concat(rest)|] == lines[..k + |Concat(rest)|];
      forall i | 0 <= i < |bs|
        ensures |bs[i]| == k || (i == |bs| - 1 && (|bs[i]| == 4 || |bs[i]| == 5))
      {
        if i > 0 {
          assert bs[i] == rest[i - 1];
        }
      }
    } else if |lines| == 4 || |lines| == 5 {
      assert bs == [lines];
      assert Concat(bs) == lines + Concat([]);
    }
  }

  /** In auto mode with 4-line blocks enabled every block has exactly 4 lines. */
  lemma AutoBlocksAreFourLine(cfg: Settings, lines: seq<string>)
    requires cfg.parse4LineBlocks
    ensures forall i :: 0 <= i < |Blocks(lines, FlushSize(AutoMode, cfg))| ==> |Blocks(lines, FlushSize(AutoMode, cfg))[i]| == 4
  {
    BlocksPartition(lines, 4);
  }

  /** The mapping loop raises exactly when some block has 4 lines. */
  lemma {:induction false} MapBlocksRaises(cfg: Settings, blocks: seq<seq<string>>)
    ensures MapBlocks(cfg, blocks).raised <==> exists i :: 0 <= i < |blocks| && |blocks[i]| == 4
    decreases |blocks|
  {
    if blocks != [] {
      var init := blocks[..|blocks| - 1];
      MapBlocksRaises(cfg, init);
      if exists i :: 0 <= i < |init| && |init[i]| == 4 {
        var i :| 0 <= i < |init| && |init[i]| == 4;
        assert blocks[i] == init[i];
      }
      if exists i :: 0 <= i < |blocks| && |blocks[i]| == 4 {
        var i :| 0 <= i < |blocks| && |blocks[i]| == 4;
        if i < |init| {
          assert init[i] == blocks[i];
        }
      }
    }
  }

  /** Only 5-line records are ever appended by `parse_feed`, at most one per block. */
  lemma {:induction false} MapBlocksRows(cfg: Settings, blocks: seq<seq<string>>)
    ensures forall k :: 0 <= k < |MapBlocks(cfg, blocks).rows| ==> MapBlocks(cfg, blocks).rows[k].FiveLineRecord?
    ensures |MapBlocks(cfg, blocks).rows| <= |blocks|
    decreases |blocks|
  {
    if blocks != [] {
      var init := blocks[..|blocks| - 1];
      MapBlocksRows(cfg, init);
      var prev := MapBlocks(cfg, init);
      if !prev.raised {
        match MapBlock(cfg, blocks[|blocks| - 1])
        case Mapped(rec) =>
          assert rec.FiveLineRecord?;
          var rows := prev.rows + [rec];
          assert forall k :: 0 <= k < |prev.rows| ==> rows[k] == prev.rows[k];
        case Dropped =>
        case Raised =>
      }
    }
  }

  /**
   * With the shipped settings (4-line blocks enabled), `parse_feed` in auto
   * mode raises on every feed that leaves at least 4 lines after the header,
   * having appended nothing.
   */
  lemma AutoFeedRaises(cfg: Settings, text: string)
    requires cfg.parse4LineBlocks
    requires |FeedLines(cfg, text)| >= 4
    ensures Feed(cfg, text, AutoMode) == FeedOutcome([], true)
  {
    var lines := FeedLines(cfg, text);
    var bs := Blocks(lines, Some(4));
    assert bs == [lines[..4]] + Blocks(lines[4..], Some(4));
    assert |bs[0]| == 4;
    MapBlocksRaises(cfg, bs);
    MapBlocksFirstRaise(cfg, bs);
  }

  /** When the first block raises, nothing is appended. */
  lemma {:induction false} MapBlocksFirstRaise(cfg: Settings, blocks: seq<seq<string>>)
    requires blocks != [] && |blocks[0]| == 4
    ensures MapBlocks(cfg, blocks) == FeedOutcome([], true)
    decreases |blocks|
  {
    if |blocks| > 1 {
      var init := blocks[..|blocks| - 1];
      assert init[0] == blocks[0];
      MapBlocksFirstRaise(cfg, init);
    } else {
      assert blocks[..0] == [];
    }
  }

  /** Only lines 4 to 7 of a splits block matter. */
  lemma SplitsUseLinesFourToSeven(a: seq<string>, b: seq<string>)
    requires |a| >= 7 && |b| >= 7 && a[3..7] == b[3..7]
    ensures SplitsFromLines(a) == SplitsFromLines(b)
  {
    assert a[3] == a[3..7][0] && a[4] == a[3..7][1] && a[5] == a[3..7][2] && a[6] == a[3..7][3];
    assert b[3] == b[3..7][0] && b[4] == b[3..7][1] && b[5] == b[3..7][2] && b[6] == b[3..7][3];
  }

  lemma SplitsOfLines(lines: seq<string>, pa: Option<real>, pb: Option<real>, pc: Option<real>, pd: Option<real>)
    requires |lines| >= 7
    requires ParsePercentage(lines[3]) == pa && ParsePercentage(lines[4]) == pb
    requires ParsePercentage(lines[5]) == pc && ParsePercentage(lines[6]) == pd
    ensures SplitsFromLines(lines) == Some(SplitsRecord(pa, pb, pc, pd))
  {
  }

  lemma PercentLine(l: string, ds: string, v: real)
    requires ds != [] && AllDigits(ds) && l == ds + "%" && NatValue(ds) as real == v
    ensures ParsePercentage(l) == Some(v)
  {
    PercentageOfDigits(ds);
  }

  /** Percentages written "<digits>%" on lines 4 to 7 read back as the numbers they spell. */
  lemma SplitsOfPercentages(h: seq<string>, t: seq<string>, a: string, b: string, c: string, d: string,
                            na: nat, nb: nat, nc: nat, nd: nat)
    requires |h| == 3
    requires a != [] && b != [] && c != [] && d != []
    requires AllDigits(a) && AllDigits(b) && AllDigits(c) && AllDigits(d)
    requires NatValue(a) == na && NatValue(b) == nb && NatValue(c) == nc && NatValue(d) == nd
    ensures SplitsFromLines(h + [a + "%", b + "%", c + "%", d + "%"] + t)
              == Some(SplitsRecord(Some(na as real), Some(nb as real), Some(nc as real), Some(nd as real)))
  {
    var lines := h + [a + "%", b + "%", c + "%", d + "%"] + t;
    assert lines[3] == a + "%" && lines[4] == b + "%" && lines[5] == c + "%" && lines[6] == d + "%";
    PercentLine(lines[3], a, na as real);
    PercentLine(lines[4], b, nb as real);
    PercentLine(lines[5], c, nc as real);
    PercentLine(lines[6], d, nd as real);
    SplitsOfLines(lines, Some(na as real), Some(nb as real), Some(nc as real), Some(nd as real));
  }

  /** A block with 55%, 45%, 62% and 38% on lines 4 to 7, whatever its other lines. */
  lemma SplitsExample(h: seq<string>, t: seq<string>)
    requires |h| == 3
    ensures SplitsFromLines(h + ["55%", "45%", "62%", "38%"] + t)
              == Some(SplitsRecord(Some(55.0), Some(45.0), Some(62.0), Some(38.0)))
  {
    assert NatValue("55") == 55 && NatValue("45") == 45;
    assert NatValue("62") == 62 && NatValue("38") == 38;
    assert "55" + "%" == "55%" && "45" + "%" == "45%";
    assert "62" + "%" == "62%" && "38" + "%" == "38%";
    SplitsOfPercentages(h, t, "55", "45", "62", "38", 55, 45, 62, 38);
  }

  // ---------------------------------------------------------------------
  // A worked 5-line block
  // ---------------------------------------------------------------------

  lemma ExampleWords()
    ensures NoSpace("01/01") && NoSpace("7:00pm") && NoSpace("TeamA") && NoSpace("-3.5")
  {
  }

  lemma ExampleLineShape()
    ensures "TeamA" + " " + "-3.5" == "TeamA -3.5"
    ensures "7:00pm" + " " + "TeamA -3.5" == "7:00pm TeamA -3.5"
    ensures "01/01" + " " + "7:00pm TeamA -3.5" == "01/01 7:00pm TeamA -3.5"
  {
  }

  lemma ExampleGameId()
    ensures "01/01" + "|" + "7:00pm" + "|" + "TeamA" == "01/01|7:00pm|TeamA"
  {
  }

  lemma ExampleTotalLine()
    ensures Strip("-110") == "-110" && Strip("o45.5") == "o45.5"
    ensures "o45.5"[1..] == "45.5" && LowerChar("o45.5"[0]) == 'o'
  {
    StripNoSpace("-110");
    StripNoSpace("o45.5");
  }

  /** Four words separated by single spaces split into exactly those words. */
  lemma TokensOfFourWords(a: string, b: string, c: string, d: string)
    requires a != [] && NoSpace(a) && b != [] && NoSpace(b)
    requires c != [] && NoSpace(c) && d != [] && NoSpace(d)
    ensures Tokens(a + " " + (b + " " + (c + " " + d))) == [a, b, c, d]
  {
    TokensOfWord(d);
    TokensCons(c, d);
    TokensCons(b, c + " " + d);
    TokensCons(a, b + " " + (c + " " + d));
  }

  lemma TokensOfFiveWords(a: string, b: string, c: string, d: string, e: string)
    requires a != [] && NoSpace(a) && b != [] && NoSpace(b)
    requires c != [] && NoSpace(c) && d != [] && NoSpace(d) && e != [] && NoSpace(e)
    ensures Tokens(a + " " + (b + " " + (c + " " + (d + " " + e)))) == [a, b, c, d, e]
  {
    TokensOfFourWords(b, c, d, e);
    TokensCons(a, b + " " + (c + " " + (d + " " + e)));
  }

  lemma ExampleFirstLine()
    ensures Tokens("01/01 7:00pm TeamA -3.5") == ["01/01", "7:00pm", "TeamA", "-3.5"]
  {
    ExampleWords();
    TokensOfFourWords("01/01", "7:00pm", "TeamA", "-3.5");
    ExampleLineShape();
  }

  lemma ExampleSpreadPoints()
    ensures ExtractPointValue("-3.5") == Some(-3.5)
  {
    FractionOfOneDigit("5");
    var s := "-3.5";
    assert SignedStart(s, 0);
    DigitRunExact(s, 1, 1);
    DigitRunExact(s, 3, 1);
    assert s[1..2] == "3" && s[3..4] == "5";
    assert NatValue("3") == 3 && NatValue("5") == 5;
  }

  lemma ExampleTotalPoints()
    ensures ExtractPointValue("45.5") == Some(45.5)
  {
    FractionOfOneDigit("5");
    var t := "45.5";
    assert SignedStart(t, 0);
    DigitRunExact(t, 0, 2);
    DigitRunExact(t, 3, 1);
    assert t[0..2] == "45" && t[3..4] == "5";
    assert "45"[..1] == "4";
    assert NatValue("45") == 45;
  }

  lemma ExampleMoneylines()
    ensures SignedIntMatches("-150 +130", 0) == ["-150", "+130"]
  {
    var s := "-150 +130";
    DigitRunExact(s, 1, 3);
    DigitRunExact(s, 6, 3);
    assert s[0..4] == "-150" && s[5..9] == "+130";
    assert SignedIntMatches(s, 9) == [];
    assert SignedIntMatches(s, 4) == SignedIntMatches(s, 5);
  }

  lemma ExampleNumerals()
    ensures IntToString(-110) == "-110" && IntToString(-150) == "-150" && IntToString(130) == "130"
  {
    assert NatToString(1) == "1";
    assert NatToString(11) == "11";
    assert NatToString(15) == "15";
    assert NatToString(13) == "13";
    assert NatToString(110) == "110";
    assert NatToString(150) == "150";
    assert NatToString(130) == "130";
  }

  lemma ExampleVig110()
    ensures SanitizeIntToken(Some("-110")) == Some(-110)
  {
    ExampleNumerals();
    SanitizeFormatted(-110, false);
    assert "" + IntToString(-110) == "-110";
  }

  lemma ExampleVig150()
    ensures SanitizeIntToken(Some("-150")) == Some(-150)
  {
    ExampleNumerals();
    SanitizeFormatted(-150, false);
    assert "" + IntToString(-150) == "-150";
  }

  lemma ExampleVig130()
    ensures SanitizeIntToken(Some("+130")) == Some(130)
  {
    var tok := "+" + IntToString(130);
    SanitizeFormatted(130, true);
    assert SanitizeIntToken(Some(tok)) == Some(130);
    assert tok == "+130" by { ExampleNumerals(); }
  }

  lemma ExampleMoneylineSplit()
    ensures NormalizeTwoWay(Some(-150), Some(130)) == (Some(69.0 / 119.0), Some(50.0 / 119.0))
  {
    assert AmericanToProbRaw(Some(-150)) == Some(150.0 / 250.0);
    assert AmericanToProbRaw(Some(130)) == Some(100.0 / 230.0);
    assert 150.0 / 250.0 + 100.0 / 230.0 == 119.0 / 115.0;
    assert (150.0 / 250.0) / (119.0 / 115.0) == 69.0 / 119.0;
    assert (100.0 / 230.0) / (119.0 / 115.0) == 50.0 / 119.0;
  }

  /**
   * The 5-line block from the parser's own layout comment: favourite TeamA
   * laying 3.5 at -110/-110, over 45.5 at -110/-110, moneylines -150/+130.
   */
  lemma Parse5LineExample()
    ensures var r := Parse5Line(["01/01 7:00pm TeamA -3.5", "-110", "o45.5", "-110", "-150 +130"]);
      && r.Some?
      && r.value.gameId == "01/01|7:00pm|TeamA"
      && r.value.favoriteTeam == "TeamA"
      && r.value.spreadPoints == Some(-3.5)
      && r.value.favoriteIp == Some(0.5) && r.value.dogIp == Some(0.5)
      && r.value.totalPoints == Some(45.5) && r.value.totalSide == Some(Over)
      && r.value.overIp == Some(0.5) && r.value.underIp == Some(0.5)
      && r.value.awayMl == Some(-150) && r.value.homeMl == Some(130)
      && r.value.awayMlIp == Some(69.0 / 119.0) && r.value.homeMlIp == Some(50.0 / 119.0)
  {
    ExampleFirstLine();
    ExampleSpreadPoints();
    ExampleTotalPoints();
    ExampleMoneylines();
    ExampleVig110();
    ExampleVig150();
    ExampleVig130();
    ExampleMoneylineSplit();
    EvenMarket();
    ExampleLineShape();
    ExampleGameId();
    ExampleTotalLine();
  }
}
