/**
 * The per-game, per-market history kept by the dashboard: a bounded FIFO of
 * points under the key `"{game_id}|{market}"`, created on its first push,
 * appended at the tail and cut back to the last `default_history_len`
 * points; and the read that turns each non-empty history of a game into its
 * indicator set.
 */
module SeriesBuffer {
  import opened Wrappers
  import opened Stats
  import opened Config
  import opened OddsParser
  import opened TaEngine
  import opened Recommendations

  /** One buffered observation: the ip, the point value if any, and the push time as text. */
  datatype Point = Point(ip: real, point: Option<real>, ts: string)

  /** The buffer key `"{gid}|{market}"`. */
  function Key(gid: string, market: Market): string {
    gid + "|" + MarketName(market)
  }

  /** The markets in the order the read visits them. */
  const AllMarkets: seq<Market> := [AwayMl, HomeMl, Spread, Total]

  /** `buffers.get(key, [])` */
  function HistoryIn(m: map<string, seq<Point>>, key: string): seq<Point> {
    if key in m then m[key] else []
  }

  /** The buffers after one push: nothing when the ip is missing, else the key's history with the point appended and cut to the cap. */
  function Stored(m: map<string, seq<Point>>, cap: nat, gid: string, market: Market,
                  ip: Option<real>, point: Option<real>, ts: string): map<string, seq<Point>>
  {
    if ip.None? then m
    else
      var key := Key(gid, market);
      m[key := Tail(HistoryIn(m, key) + [Point(ip.value, point, ts)], cap)]
  }

  /** Every point ever pushed, per key, with nothing cut. */
  function Logged(m: map<string, seq<Point>>, gid: string, market: Market,
                  ip: Option<real>, point: Option<real>, ts: string): map<string, seq<Point>>
  {
    if ip.None? then m
    else
      var key := Key(gid, market);
      m[key := HistoryIn(m, key) + [Point(ip.value, point, ts)]]
  }

  /** Each stored history is the last `cap` points of what was pushed under its key. */
  predicate Tracks(buffers: map<string, seq<Point>>, logged: map<string, seq<Point>>, cap: nat) {
    buffers.Keys == logged.Keys &&
    forall k :: k in buffers ==> buffers[k] == Tail(logged[k], cap)
  }

  /** The spread push takes the favourite's ip and the spread points, which a four-line record lacks. */
  function SpreadIp(row: GameRecord): Option<real> {
    if row.FiveLineRecord? then row.favoriteIp else None
  }

  function SpreadPoints(row: GameRecord): Option<real> {
    if row.FiveLineRecord? then row.spreadPoints else None
  }

  /** The four pushes of one parsed row: away moneyline, home moneyline, spread, total. */
  function RowStored(m: map<string, seq<Point>>, cap: nat, row: GameRecord, ts: string): map<string, seq<Point>> {
    var away := Stored(m, cap, row.gameId, AwayMl, row.awayMlIp, None, ts);
    var home := Stored(away, cap, row.gameId, HomeMl, row.homeMlIp, None, ts);
    var spread := Stored(home, cap, row.gameId, Spread, SpreadIp(row), SpreadPoints(row), ts);
    Stored(spread, cap, row.gameId, Total, row.overIp, row.totalPoints, ts)
  }

  function RowLogged(m: map<string, seq<Point>>, row: GameRecord, ts: string): map<string, seq<Point>> {
    var away := Logged(m, row.gameId, AwayMl, row.awayMlIp, None, ts);
    var home := Logged(away, row.gameId, HomeMl, row.homeMlIp, None, ts);
    var spread := Logged(home, row.gameId, Spread, SpreadIp(row), SpreadPoints(row), ts);
    Logged(spread, row.gameId, Total, row.overIp, row.totalPoints, ts)
  }

  /** The pushes of all rows, in row order. */
  function RowsStored(m: map<string, seq<Point>>, cap: nat, rows: seq<GameRecord>, ts: string): map<string, seq<Point>> {
    if rows == [] then m
    else RowStored(RowsStored(m, cap, rows[..|rows| - 1], ts), cap, rows[|rows| - 1], ts)
  }

  function RowsLogged(m: map<string, seq<Point>>, rows: seq<GameRecord>, ts: string): map<string, seq<Point>> {
    if rows == [] then m
    else RowLogged(RowsLogged(m, rows[..|rows| - 1], ts), rows[|rows| - 1], ts)
  }

  /** The series handed to the indicator engine: every buffered ip with its point. */
  function SeriesOf(buf: seq<Point>): seq<SeriesPoint> {
    seq(|buf|, i requires 0 <= i < |buf| => SeriesPoint(Some(buf[i].ip), buf[i].point))
  }

  /** The indicators of a game's markets among `markets`: one entry per market whose history is not empty. */
  function IndicatorsFold(nums: Numerics, m: map<string, seq<Point>>, gid: string, markets: seq<Market>): map<Market, Option<IndicatorSet>> {
    if markets == [] then map[]
    else
      var market := markets[|markets| - 1];
      var prev := IndicatorsFold(nums, m, gid, markets[..|markets| - 1]);
      var buf := HistoryIn(m, Key(gid, market));
      if buf != [] then prev[market := AllIndicators(nums, SeriesOf(buf))] else prev
  }

  function IndicatorsOf(nums: Numerics, m: map<string, seq<Point>>, gid: string): map<Market, Option<IndicatorSet>> {
    IndicatorsFold(nums, m, gid, AllMarkets)
  }

  /** The dashboard's buffers, with the ghost log of every point pushed since the last clear. */
  class SeriesBuffers {
    const cap: nat
    var buffers: map<string, seq<Point>>
    ghost var pushed: map<string, seq<Point>>

    ghost predicate Valid()
      reads this
    {
      Tracks(buffers, pushed, cap)
    }

    constructor (cfg: Settings)
      ensures Valid()
      ensures cap == cfg.defaultHistoryLen && buffers == map[] && pushed == map[]
    {
      cap := cfg.defaultHistoryLen;
      buffers := map[];
      pushed := map[];
    }

    /** The `push` closure: skip a missing ip, otherwise append at the key's tail and cut to the cap. */
    method Push(gid: string, market: Market, ip: Option<real>, point: Option<real>, ts: string)
      requires Valid()
      modifies this
      ensures Valid()
      ensures buffers == Stored(old(buffers), cap, gid, market, ip, point, ts)
      ensures pushed == Logged(old(pushed), gid, market, ip, point, ts)
    {
      StoredTracksLogged(buffers, pushed, cap, gid, market, ip, point, ts);
      if ip.None? {
        return;
      }
      var key := Key(gid, market);
      var buf := if key in buffers then buffers[key] else [];
      buf := buf + [Point(ip.value, point, ts)];
      assert buf == HistoryIn(old(buffers), key) + [Point(ip.value, point, ts)];
      buffers := buffers[key := buf];
      if |buf| > cap {
        buffers := buffers[key := Tail(buf, cap)];
      }
      assert buffers == old(buffers)[key := Tail(buf, cap)];
      pushed := pushed[key := HistoryIn(pushed, key) + [Point(ip.value, point, ts)]];
    }

    /** The four pushes made for one parsed row. */
    method PushRow(row: GameRecord, ts: string)
      requires Valid()
      modifies this
      ensures Valid()
      ensures buffers == RowStored(old(buffers), cap, row, ts)
      ensures pushed == RowLogged(old(pushed), row, ts)
    {
      Push(row.gameId, AwayMl, row.awayMlIp, None, ts);
      Push(row.gameId, HomeMl, row.homeMlIp, None, ts);
      Push(row.gameId, Spread, SpreadIp(row), SpreadPoints(row), ts);
      Push(row.gameId, Total, row.overIp, row.totalPoints, ts);
    }

    /** The pushes for every row of a parsed feed, all stamped with the same time. */
    method PushRows(rows: seq<GameRecord>, ts: string)
      requires Valid()
      modifies this
      ensures Valid()
      ensures buffers == RowsStored(old(buffers), cap, rows, ts)
      ensures pushed == RowsLogged(old(pushed), rows, ts)
    {
      var i := 0;
      while i < |rows|
        invariant 0 <= i <= |rows|
        invariant Valid()
        invariant buffers == RowsStored(old(buffers), cap, rows[..i], ts)
        invariant pushed == RowsLogged(old(pushed), rows[..i], ts)
      {
        assert rows[..i + 1][..i] == rows[..i];
        PushRow(rows[i], ts);
        i := i + 1;
      }
      assert rows[..i] == rows;
    }

    /** The "Clear buffers" button: every history is dropped. */
    method Clear()
      requires Valid()
      modifies this
      ensures Valid()
      ensures buffers == map[] && pushed == map[]
    {
      buffers := map[];
      pushed := map[];
    }

    /** The read before recommending: the indicators of each market of the game whose history is not empty. */
    method ReadIndicators(nums: Numerics, gid: string) returns (ind: map<Market, Option<IndicatorSet>>)
      ensures ind == IndicatorsOf(nums, buffers, gid)
    {
      ind := map[];
      var i := 0;
      while i < |AllMarkets|
        invariant 0 <= i <= |AllMarkets|
        invariant ind == IndicatorsFold(nums, buffers, gid, AllMarkets[..i])
      {
        var market := AllMarkets[i];
        assert AllMarkets[..i + 1] == AllMarkets[..i] + [market];
        IndicatorsFoldSnoc(nums, buffers, gid, AllMarkets[..i], market);
        var key := Key(gid, market);
        var buf := if key in buffers then buffers[key] else [];
        if buf != [] {
          ind := ind[market := AllIndicators(nums, SeriesOf(buf))];
        }
        i := i + 1;
      }
      assert AllMarkets[..i] == AllMarkets;
    }
  }

  // ---------------------------------------------------------------------
  // Properties
  // ---------------------------------------------------------------------

  /** Visiting one more market adds its entry when its history is not empty. */
  lemma IndicatorsFoldSnoc(nums: Numerics, m: map<string, seq<Point>>, gid: string, markets: seq<Market>, market: Market)
    ensures var buf := HistoryIn(m, Key(gid, market));
      var prev := IndicatorsFold(nums, m, gid, markets);
      IndicatorsFold(nums, m, gid, markets + [market]) ==
        if buf != [] then prev[market := AllIndicators(nums, SeriesOf(buf))] else prev
  {
    assert (markets + [market])[..|markets|] == markets;
  }

  /** Distinct markets of one game never share a key. */
  lemma KeysDistinct(gid: string, a: Market, b: Market)
    requires a != b
    ensures Key(gid, a) != Key(gid, b)
  {
    assert Key(gid, a)[|gid| + 1..] == MarketName(a);
    assert Key(gid, b)[|gid| + 1..] == MarketName(b);
  }

  /** Cutting before or after an append keeps the same last `cap` points. */
  lemma TailAppend(s: seq<Point>, cap: nat, x: Point)
    ensures Tail(Tail(s, cap) + [x], cap) == Tail(s + [x], cap)
  {
    if 0 < cap <= |s| {
      var t := s[|s| - cap..];
      assert Tail(s, cap) == t;
      assert Tail(t + [x], cap) == (t + [x])[1..];
      assert (t + [x])[1..] == s[|s| - cap + 1..] + [x];
      assert (s + [x])[|s| + 1 - cap..] == s[|s| - cap + 1..] + [x];
    }
  }

  /**
   * Under the buffer invariant every stored history is the last points of
   * what was pushed under its key, in push order: all of them while there
   * are at most `cap` (or the cap is 0), otherwise exactly `cap` of them.
   */
  lemma TracksBounded(b: map<string, seq<Point>>, l: map<string, seq<Point>>, cap: nat, k: string)
    requires Tracks(b, l, cap) && k in b
    ensures b[k] == l[k][|l[k]| - |b[k]|..]
    ensures |b[k]| == if 0 < cap < |l[k]| then cap else |l[k]|
  {
  }

  /** A push keeps the buffers equal to the last `cap` points of everything pushed. */
  lemma StoredTracksLogged(b: map<string, seq<Point>>, l: map<string, seq<Point>>, cap: nat, gid: string,
                           market: Market, ip: Option<real>, point: Option<real>, ts: string)
    requires Tracks(b, l, cap)
    ensures Tracks(Stored(b, cap, gid, market, ip, point, ts), Logged(l, gid, market, ip, point, ts), cap)
  {
    if ip.Some? {
      var key := Key(gid, market);
      var p := Point(ip.value, point, ts);
      if key in b {
        TailAppend(l[key], cap, p);
      }
    }
  }

  /** A push with a missing ip changes nothing, and no push touches another key. */
  lemma StoredElsewhere(m: map<string, seq<Point>>, cap: nat, gid: string, market: Market,
                        ip: Option<real>, point: Option<real>, ts: string, other: string)
    ensures ip.None? ==> Stored(m, cap, gid, market, ip, point, ts) == m
    ensures other != Key(gid, market) ==>
      (other in Stored(m, cap, gid, market, ip, point, ts) <==> other in m) &&
      HistoryIn(Stored(m, cap, gid, market, ip, point, ts), other) == HistoryIn(m, other)
  {
  }

  /**
   * After a push with an ip the key exists, its history ends with the new
   * point, is a suffix of the old history plus that point, and holds `cap`
   * points once the old history had reached the cap, else one more than
   * before (a cap of 0 keeps everything, as Python's `buf[-0:]` does).
   */
  lemma StoredAtKey(m: map<string, seq<Point>>, cap: nat, gid: string, market: Market,
                    ip: real, point: Option<real>, ts: string)
    ensures var before := HistoryIn(m, Key(gid, market));
      var after := Stored(m, cap, gid, market, Some(ip), point, ts);
      Key(gid, market) in after &&
      var h := after[Key(gid, market)];
      |h| > 0 && h[|h| - 1] == Point(ip, point, ts) &&
      h == (before + [Point(ip, point, ts)])[|before| + 1 - |h|..] &&
      |h| == (if 0 < cap <= |before| then cap else |before| + 1)
  {
    var key := Key(gid, market);
    var s := HistoryIn(m, key) + [Point(ip, point, ts)];
    var h := Tail(s, cap);
    assert Stored(m, cap, gid, market, Some(ip), point, ts) == m[key := h];
    assert h == s[|s| - |h|..];
  }

  /** A row pushes each of its four markets at most once: the history of each is the old one plus its point, cut to the cap. */
  lemma RowStoredFacts(m: map<string, seq<Point>>, cap: nat, row: GameRecord, ts: string, market: Market)
    ensures var ip := match market
              case AwayMl => row.awayMlIp
              case HomeMl => row.homeMlIp
              case Spread => SpreadIp(row)
              case Total => row.overIp;
      var point := match market
              case AwayMl => None
              case HomeMl => None
              case Spread => SpreadPoints(row)
              case Total => row.totalPoints;
      var key := Key(row.gameId, market);
      HistoryIn(RowStored(m, cap, row, ts), key) ==
        if ip.None? then HistoryIn(m, key) else Tail(HistoryIn(m, key) + [Point(ip.value, point, ts)], cap)
  {
    var gid := row.gameId;
    var k := Key(gid, market);
    forall other: Market | other != market
      ensures k != Key(gid, other)
    {
      KeysDistinct(gid, market, other);
    }
    var away := Stored(m, cap, gid, AwayMl, row.awayMlIp, None, ts);
    var home := Stored(away, cap, gid, HomeMl, row.homeMlIp, None, ts);
    var spread := Stored(home, cap, gid, Spread, SpreadIp(row), SpreadPoints(row), ts);
    StoredElsewhere(m, cap, gid, AwayMl, row.awayMlIp, None, ts, k);
    StoredElsewhere(away, cap, gid, HomeMl, row.homeMlIp, None, ts, k);
    StoredElsewhere(home, cap, gid, Spread, SpreadIp(row), SpreadPoints(row), ts, k);
    StoredElsewhere(spread, cap, gid, Total, row.overIp, row.totalPoints, ts, k);
  }

  /** After a clear no game has any history, so the read finds no indicators. */
  lemma ClearedHasNoIndicators(nums: Numerics, gid: string)
    ensures IndicatorsOf(nums, map[], gid) == map[]
  {
    forall market: Market
      ensures market !in IndicatorsOf(nums, map[], gid)
    {
      IndicatorsOfFacts(nums, map[], gid, market);
    }
    assert IndicatorsOf(nums, map[], gid).Keys == {};
  }

  /** The series built from a non-empty history has an ip at every point, so its indicators are present. */
  lemma SeriesOfPresent(nums: Numerics, buf: seq<Point>)
    requires buf != []
    ensures AllIndicators(nums, SeriesOf(buf)).Some?
    ensures AllIndicators(nums, SeriesOf(buf)).value.dataPoints == |buf|
  {
    IpValuesAllPresent(SeriesOf(buf));
  }

  /** When every point carries an ip, the ip list is the whole series. */
  lemma {:induction false} IpValuesAllPresent(series: seq<SeriesPoint>)
    requires forall k :: 0 <= k < |series| ==> series[k].ip.Some?
    ensures |IpValues(series)| == |series|
  {
    if series != [] {
      var init := series[..|series| - 1];
      assert forall k :: 0 <= k < |init| ==> init[k] == series[k];
      IpValuesAllPresent(init);
    }
  }

  /** The read has an entry for a market exactly when the market is among those visited and its history is not empty. */
  lemma {:induction false} IndicatorsFoldKeys(nums: Numerics, m: map<string, seq<Point>>, gid: string,
                                              markets: seq<Market>, market: Market)
    ensures market in IndicatorsFold(nums, m, gid, markets) <==>
      market in markets && HistoryIn(m, Key(gid, market)) != []
  {
    if markets != [] {
      var init, last := markets[..|markets| - 1], markets[|markets| - 1];
      assert market in markets <==> market in init || market == last by {
        assert markets == init + [last];
      }
      IndicatorsFoldKeys(nums, m, gid, init, market);
    }
  }

  /** Each entry of the read is the indicator set of that market's history. */
  lemma {:induction false} IndicatorsFoldValues(nums: Numerics, m: map<string, seq<Point>>, gid: string,
                                                markets: seq<Market>, market: Market)
    requires market in IndicatorsFold(nums, m, gid, markets)
    ensures IndicatorsFold(nums, m, gid, markets)[market] == AllIndicators(nums, SeriesOf(HistoryIn(m, Key(gid, market))))
  {
    var init, last := markets[..|markets| - 1], markets[|markets| - 1];
    if market != last || HistoryIn(m, Key(gid, last)) == [] {
      IndicatorsFoldValues(nums, m, gid, init, market);
    }
  }

  /** For the four markets of a game: an entry exactly for each non-empty history, holding that history's indicators, which are present. */
  lemma IndicatorsOfFacts(nums: Numerics, m: map<string, seq<Point>>, gid: string, market: Market)
    ensures market in IndicatorsOf(nums, m, gid) <==> HistoryIn(m, Key(gid, market)) != []
    ensures market in IndicatorsOf(nums, m, gid) ==>
      IndicatorsOf(nums, m, gid)[market] == AllIndicators(nums, SeriesOf(HistoryIn(m, Key(gid, market)))) &&
      IndicatorsOf(nums, m, gid)[market].Some?
  {
    IndicatorsFoldKeys(nums, m, gid, AllMarkets, market);
    if market in IndicatorsOf(nums, m, gid) {
      IndicatorsFoldValues(nums, m, gid, AllMarkets, market);
      SeriesOfPresent(nums, HistoryIn(m, Key(gid, market)));
    }
  }
}
