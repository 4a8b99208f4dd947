/** decoder.go: the messages with counted rows. Historical bars and scanner rows are handed to the wrapper one by one as
    they are read; symbol samples are lists in a list. */
module Counted {
  import opened Basics
  import opened Fields
  import opened Cursor
  import opened Items
  import opened Versions

  // ---------------------------------------------------------------- what the wrapper gets

  datatype Bar = Bar(date: Text, open: Float, high: Float, low: Float, close: Float, volume: Float, average: Float,
                     barCount: int64)

  /** Rank .. Legs of a scanner row. */
  datatype ScanRow = ScanRow(rank: int64, contractID: int64, symbol: Text, secType: Text, expiry: Text,
                             strike: Float, right: Text, exchange: Text, currency: Text, localSymbol: Text,
                             marketName: Text, tradingClass: Text, distance: Text, benchmark: Text, projection: Text,
                             legs: Text)

  /** A call of the wrapper: one row, or the end of the rows. */
  datatype Call =
    | HistoricalData(reqID: int64, bar: Bar)
    | HistoricalDataEnd(reqID: int64, start: Text, end: Text)
    | ScannerData(reqID: int64, row: ScanRow)
    | ScannerDataEnd(reqID: int64)

  /** One call a row. */
  function Calls(call: seq<Value> -> Call, rows: seq<seq<Value>>): (calls: seq<Call>)
    ensures |calls| == |rows| && forall i :: 0 <= i < |rows| ==> calls[i] == call(rows[i])
  {
    seq(|rows|, i requires 0 <= i < |rows| => call(rows[i]))
  }

  /** `for n := readInt(); n > 0; n-- { read a row; call the wrapper }`: a count below zero is no row at all, and rows
      read before a failure have been handed over. */
  method ReportRows(fc: FloatCodec, m: MsgBuffer, ks: seq<Kind>, call: seq<Value> -> Call)
      returns (calls: seq<Call>, ok: bool)
    requires m.Valid()
    modifies m
    ensures m.Valid() && m.fields == old(m.fields) && (old(m.tail) == [] ==> m.tail == [])
    ensures ok <==> RowsAt(fc, ks, m.fields, old(m.pos)).Success?
    ensures ok ==> calls == Calls(call, RowsAt(fc, ks, m.fields, old(m.pos)).value.value)
    ensures ok ==> m.pos == RowsAt(fc, ks, m.fields, old(m.pos)).value.next
    ensures !ok ==> exists rows :: calls == Calls(call, rows) && ReadBefore(fc, ks, m.fields, old(m.pos), rows)
  {
    hide BlockAt, AsInt, BlocksAt, Behind;
    calls, ok := [], true;
    var count := m.ReadInt();
    if count.Panic? {
      assert calls == Calls(call, []);
      assert ReadBefore(fc, ks, m.fields, old(m.pos), []);
      return calls, false;
    }
    var n := count.value;
    ghost var rows: seq<seq<Value>> := [];
    ghost var start := m.pos;
    ghost var whole := BlocksAt(fc, ks, Times(n), m.fields, start);
    NothingBehind(whole);
    NoMoreRows(fc, ks, [], m.fields, start);
    while n > 0
      invariant m.Valid() && m.fields == old(m.fields) && (old(m.tail) == [] ==> m.tail == [])
      invariant n <= count.value && |rows| == Times(count.value) - Times(n)
      invariant calls == Calls(call, rows)
      invariant whole == Behind(rows, BlocksAt(fc, ks, Times(n), m.fields, m.pos))
      invariant BlocksAt(fc, ks, |rows|, m.fields, start) == Success(At(rows, m.pos))
    {
      ghost var at := m.pos;
      var row := ReadBlock(fc, m, ks);
      ItemRead(fc, ks, Times(n), m.fields, at, rows);
      if row.Panic? {
        assert ReadBefore(fc, ks, m.fields, old(m.pos), rows);
        return calls, false;
      }
      BlocksSnoc(fc, ks, |rows|, m.fields, start, rows, at, row.value);
      rows := rows + [row.value];
      calls := calls + [call(row.value)];
      n := n - 1;
    }
    NoMoreRows(fc, ks, rows, m.fields, m.pos);
  }

  function Times(n: int64): nat { if n > 0 then n as nat else 0 }

  /** The count and its rows. */
  function RowsAt(fc: FloatCodec, ks: seq<Kind>, ts: seq<Text>, pos: nat): (r: Result<At<seq<seq<Value>>>>)
    ensures r.Success? ==> IntAt(ts, pos).Success? && |r.value.value| == Times(IntAt(ts, pos).value)
    ensures r.Success? ==> r.value.next == pos + 1 + |r.value.value| * |ks|
  {
    var n :- IntAt(ts, pos);
    BlocksAt(fc, ks, Times(n), ts, pos + 1)
  }

  /** rows are the leading rows, fewer than the count says, and the one after them cannot be read. */
  ghost predicate ReadBefore(fc: FloatCodec, ks: seq<Kind>, ts: seq<Text>, pos: nat, rows: seq<seq<Value>>) {
    if IntAt(ts, pos).Panic? then rows == []
    else
      && |rows| < Times(IntAt(ts, pos).value)
      && exists next ::
           BlocksAt(fc, ks, |rows|, ts, pos + 1) == Success(At(rows, next)) && BlockAt(fc, ks, ts, next).Panic?
  }

  lemma NoMoreRows(fc: FloatCodec, ks: seq<Kind>, rows: seq<seq<Value>>, ts: seq<Text>, pos: nat)
    ensures BlocksAt(fc, ks, 0, ts, pos) == Success(At([], pos))
    ensures Behind(rows, BlocksAt(fc, ks, 0, ts, pos)) == Success(At(rows, pos))
  {
    assert rows + [] == rows;
  }

  lemma {:induction false} BlocksSnoc(fc: FloatCodec, ks: seq<Kind>, n: nat, ts: seq<Text>, pos: nat,
                                      rows: seq<seq<Value>>, at: nat, row: seq<Value>)
    requires BlocksAt(fc, ks, n, ts, pos) == Success(At(rows, at))
    requires BlockAt(fc, ks, ts, at) == Success(At(row, at + |ks|))
    ensures BlocksAt(fc, ks, n + 1, ts, pos) == Success(At(rows + [row], at + |ks|))
    decreases n
  {
    hide BlockAt;
    if n == 0 {
      BlocksCons(fc, ks, row, [], ts, pos, at + |ks|);
      assert rows + [row] == [row] + [];
    } else {
      var first := BlockAt(fc, ks, ts, pos).value.value;
      BlocksSnoc(fc, ks, n - 1, ts, pos + |ks|, rows[1..], at, row);
      BlocksCons(fc, ks, first, rows[1..] + [row], ts, pos, at + |ks|);
      assert [first] + (rows[1..] + [row]) == rows + [row];
    }
  }

  // ---------------------------------------------------------------- historical data

  /** Date, six floats, a string that later versions dropped, and the bar count. */
  function BarKinds(dv: int): (ks: seq<Kind>)
    ensures |ks| == if dv < SYNT_REALTIME_BARS then 9 else 8
  {
    [KStr, KFloat, KFloat, KFloat, KFloat, KFloat, KFloat] + On(dv < SYNT_REALTIME_BARS, [KStr]) + [KInt]
  }

  function BarOf(dv: int, vs: seq<Value>): Bar {
    Bar(TextOf(vs, 0), FloatOf(vs, 1), FloatOf(vs, 2), FloatOf(vs, 3), FloatOf(vs, 4), FloatOf(vs, 5), FloatOf(vs, 6),
        IntOf(vs, if dv < SYNT_REALTIME_BARS then 8 else 7))
  }

  /** Request ID, start and end date, and the bars. */
  datatype History = History(reqID: int64, start: Text, end: Text, bars: seq<seq<Value>>)

  /** Request ID and dates; before 124 a field to skip is in front of them. */
  function HistoryHeadAt(dv: int, ts: seq<Text>, pos: nat): Result<At<(int64, Text, Text)>> {
    var at := pos + Gate(dv < SYNT_REALTIME_BARS, 1);
    var reqID :- IntAt(ts, at);
    var start :- TextAt(ts, at + 1);
    var end :- TextAt(ts, at + 2);
    Success(At((reqID, start, end), at + 3))
  }

  function HistoryAt(fc: FloatCodec, dv: int, ts: seq<Text>, pos: nat): Result<At<History>> {
    var head :- HistoryHeadAt(dv, ts, pos);
    var bars :- RowsAt(fc, BarKinds(dv), ts, head.next);
    Success(At(History(head.value.0, head.value.1, head.value.2, bars.value), bars.next))
  }

  method ReadHistoryHead(dv: int, m: MsgBuffer) returns (r: Result<(int64, Text, Text)>)
    requires m.Valid()
    modifies m
    ensures m.Valid() && m.fields == old(m.fields)
    ensures var spec := HistoryHeadAt(dv, m.fields, old(m.pos));
            if spec.Success? then r == Success(spec.value.value) && m.pos == spec.value.next else r.Panic?
  {
    hide AsInt;
    if dv < SYNT_REALTIME_BARS {
      var skipped :- m.ReadString();
    }
    var reqID :- m.ReadInt();
    var start :- m.ReadString();
    var end :- m.ReadString();
    return Success((reqID, start, end));
  }

  function BarCall(dv: int, reqID: int64): seq<Value> -> Call { vs => HistoricalData(reqID, BarOf(dv, vs)) }

  /** One bar at a time, and the end. */
  function HistoryCalls(dv: int, h: History): seq<Call> {
    Calls(BarCall(dv, h.reqID), h.bars) + [HistoricalDataEnd(h.reqID, h.start, h.end)]
  }

  /** Exactly max(n, 0) bar callbacks, in order, and then one end callback; 8 or 9 fields a bar. If a read fails there
      is no end callback. */
  method ProcessHistoricalData(fc: FloatCodec, dv: int, m: MsgBuffer) returns (calls: seq<Call>, ok: bool)
    requires m.Valid()
    modifies m
    ensures m.Valid() && m.fields == old(m.fields)
    ensures ok <==> HistoryAt(fc, dv, m.fields, old(m.pos)).Success?
    ensures ok ==> var h := HistoryAt(fc, dv, m.fields, old(m.pos)).value;
                   calls == HistoryCalls(dv, h.value) && m.pos == h.next
    ensures ok ==> var n := |calls| - 1;
        m.pos == old(m.pos) + (if dv < SYNT_REALTIME_BARS then 5 + 9 * n else 4 + 8 * n)
    ensures !ok ==> forall i :: 0 <= i < |calls| ==> calls[i].HistoricalData?
  {
    hide BlockAt, RowsAt, HistoryHeadAt, BarKinds, BarCall, Calls;
    HeadLength(dv, m.fields, m.pos);
    calls, ok := [], false;
    var head := ReadHistoryHead(dv, m);
    if head.Panic? {
      return;
    }
    calls, ok := ReportRows(fc, m, BarKinds(dv), BarCall(dv, head.value.0));
    BarCallIsBar(dv, head.value.0);
    if ok {
      calls := calls + [HistoricalDataEnd(head.value.0, head.value.1, head.value.2)];
    }
  }

  lemma HeadLength(dv: int, ts: seq<Text>, pos: nat)
    ensures var head := HistoryHeadAt(dv, ts, pos);
            head.Success? ==> head.value.next == pos + if dv < SYNT_REALTIME_BARS then 4 else 3
  {
    hide AsInt;
  }

  lemma BarCallIsBar(dv: int, reqID: int64)
    ensures forall vs :: BarCall(dv, reqID)(vs).HistoricalData?
  {
  }

  /** A bar at position p; before 124 a field is dropped in front of the bar count. */
  predicate BarAt(fc: FloatCodec, dv: int, x: Bar, ts: seq<Text>, p: nat) {
    && TextAt(ts, p) == Success(x.date) && FloatAt(fc, ts, p + 1) == Success(x.open)
    && FloatAt(fc, ts, p + 2) == Success(x.high) && FloatAt(fc, ts, p + 3) == Success(x.low)
    && FloatAt(fc, ts, p + 4) == Success(x.close) && FloatAt(fc, ts, p + 5) == Success(x.volume)
    && FloatAt(fc, ts, p + 6) == Success(x.average)
    && IntAt(ts, if dv < 124 then p + 8 else p + 7) == Success(x.barCount)
  }

  lemma BarKindsAre(dv: int)
    ensures dv < 124 ==> BarKinds(dv) == [KStr, KFloat, KFloat, KFloat, KFloat, KFloat, KFloat, KStr, KInt]
    ensures dv >= 124 ==> BarKinds(dv) == [KStr, KFloat, KFloat, KFloat, KFloat, KFloat, KFloat, KInt]
  {
  }

  lemma BarRead(fc: FloatCodec, dv: int, vs: seq<Value>, ts: seq<Text>, p: nat, end: nat)
    requires BlockAt(fc, BarKinds(dv), ts, p) == Success(At(vs, end))
    ensures BarAt(fc, dv, BarOf(dv, vs), ts, p)
  {
    BarKindsAre(dv);
    var ks := BarKinds(dv);
    hide BlockAt, BarKinds, IntAt, FloatAt, TextAt, IntOf, FloatOf, TextOf;
    Picked(fc, ks, ts, p, 0);
    Picked(fc, ks, ts, p, 1);
    Picked(fc, ks, ts, p, 2);
    Picked(fc, ks, ts, p, 3);
    Picked(fc, ks, ts, p, 4);
    Picked(fc, ks, ts, p, 5);
    Picked(fc, ks, ts, p, 6);
    Picked(fc, ks, ts, p, if dv < 124 then 8 else 7);
  }

  lemma RowNumber(fc: FloatCodec, ks: seq<Kind>, rows: seq<seq<Value>>, ts: seq<Text>, pos: nat, end: nat, i: nat)
    requires RowsAt(fc, ks, ts, pos) == Success(At(rows, end)) && i < |rows|
    ensures BlockAt(fc, ks, ts, pos + 1 + i * |ks|) == Success(At(rows[i], pos + 1 + i * |ks| + |ks|))
  {
    hide BlocksAt, BlockAt, AsInt;
    BlockNumber(fc, ks, |rows|, rows, ts, pos + 1, end, i);
  }

  /** What any historical data message that can be read means: one call for each of the bars counted, made of the fields
      at the bar's own positions, and then the end with start and end date in that order. */
  lemma HistoryMeans(fc: FloatCodec, dv: int, ts: seq<Text>, pos: nat)
    requires HistoryAt(fc, dv, ts, pos).Success?
    ensures var calls := HistoryCalls(dv, HistoryAt(fc, dv, ts, pos).value.value);
            var at := if dv < 124 then pos + 1 else pos;
            && IntAt(ts, at).Success? && TextAt(ts, at + 1).Success? && TextAt(ts, at + 2).Success?
            && IntAt(ts, at + 3).Success? && |calls| == Times(IntAt(ts, at + 3).value) + 1
            && (forall i :: 0 <= i < |calls| - 1 ==>
                  && calls[i].HistoricalData? && calls[i].reqID == IntAt(ts, at).value
                  && BarAt(fc, dv, calls[i].bar, ts, at + 4 + i * if dv < 124 then 9 else 8))
            && calls[|calls| - 1]
               == HistoricalDataEnd(IntAt(ts, at).value, TextAt(ts, at + 1).value, TextAt(ts, at + 2).value)
  {
    hide BlockAt, RowsAt, BarAt, BarOf, BarKinds, AsInt;
    var h := HistoryAt(fc, dv, ts, pos).value;
    var at := pos + Gate(dv < SYNT_REALTIME_BARS, 1);
    forall i | 0 <= i < |h.value.bars|
      ensures BarAt(fc, dv, BarOf(dv, h.value.bars[i]), ts, at + 4 + i * if dv < 124 then 9 else 8)
    {
      RowNumber(fc, BarKinds(dv), h.value.bars, ts, at + 3, h.next, i);
      BarRead(fc, dv, h.value.bars[i], ts, at + 4 + i * |BarKinds(dv)|, at + 4 + i * |BarKinds(dv)| + |BarKinds(dv)|);
    }
  }

  function BarItems(dv: int, x: Bar, dropped: Text): (r: seq<Item>)
    ensures Kinds(r) == BarKinds(dv)
  {
    [Str(x.date), Num(x.open), Num(x.high), Num(x.low), Num(x.close), Num(x.volume), Num(x.average)]
        + If(dv < SYNT_REALTIME_BARS, [Str(dropped)]) + [Int(x.barCount)]
  }

  /** A bar on the wire, before 124 with a field that is dropped. */
  function BarTexts(fc: FloatCodec, dv: int, x: Bar, dropped: Text): seq<Text> {
    [x.date, fc.format(x.open), fc.format(x.high), fc.format(x.low), fc.format(x.close), fc.format(x.volume),
     fc.format(x.average)] + (if dv < 124 then [dropped] else []) + [FormatInt(x.barCount as int)]
  }

  /** Ten digits are enough for its floats. */
  predicate ExactBar(fc: FloatCodec, x: Bar) {
    && fc.Exact(x.open) && fc.Exact(x.high) && fc.Exact(x.low) && fc.Exact(x.close) && fc.Exact(x.volume)
    && fc.Exact(x.average)
  }

  lemma BarBack(dv: int, x: Bar, dropped: Text)
    ensures BarOf(dv, Values(BarItems(dv, x, dropped))) == x
  {
    hide Kinds, BarKinds;
  }

  lemma BarSent(fc: FloatCodec, dv: int, x: Bar, dropped: Text)
    ensures RenderAll(fc, Sent(fc, BarItems(dv, x, dropped))) == BarTexts(fc, dv, x, dropped)
  {
    hide Kinds, BarKinds, FormatInt;
  }

  lemma BarExact(fc: FloatCodec, dv: int, x: Bar, dropped: Text)
    requires ExactBar(fc, x)
    ensures AllExact(fc, BarItems(dv, x, dropped))
  {
    hide Kinds, BarKinds;
  }

  function BarRows(dv: int, bars: seq<Bar>, dropped: seq<Text>): (rows: seq<seq<Item>>)
    requires |dropped| == |bars|
    ensures |rows| == |bars| && forall i :: 0 <= i < |bars| ==> rows[i] == BarItems(dv, bars[i], dropped[i])
  {
    seq(|bars|, i requires 0 <= i < |bars| => BarItems(dv, bars[i], dropped[i]))
  }

  function AllBarTexts(fc: FloatCodec, dv: int, bars: seq<Bar>, dropped: seq<Text>): (gs: seq<seq<Text>>)
    requires |dropped| == |bars|
    ensures |gs| == |bars| && forall i :: 0 <= i < |bars| ==> gs[i] == BarTexts(fc, dv, bars[i], dropped[i])
  {
    seq(|bars|, i requires 0 <= i < |bars| => BarTexts(fc, dv, bars[i], dropped[i]))
  }

  lemma BarsBack(fc: FloatCodec, dv: int, bars: seq<Bar>, dropped: seq<Text>)
    requires |dropped| == |bars| <= INT64_MAX && forall i :: 0 <= i < |bars| ==> ExactBar(fc, bars[i])
    ensures Uniform(fc, BarKinds(dv), BarRows(dv, bars, dropped))
    ensures RowTexts(fc, BarRows(dv, bars, dropped)) == AllBarTexts(fc, dv, bars, dropped)
    ensures forall i :: 0 <= i < |bars| ==> BarOf(dv, RowValues(BarRows(dv, bars, dropped))[i]) == bars[i]
  {
    hide BarItems, BarTexts, BarOf, ExactBar, AllExact, Kinds, Values, Sent, RenderAll, BarKinds;
    forall i | 0 <= i < |bars|
      ensures BarOf(dv, Values(BarRows(dv, bars, dropped)[i])) == bars[i]
      ensures RenderAll(fc, Sent(fc, BarRows(dv, bars, dropped)[i])) == BarTexts(fc, dv, bars[i], dropped[i])
      ensures AllExact(fc, BarRows(dv, bars, dropped)[i])
    {
      BarBack(dv, bars[i], dropped[i]);
      BarSent(fc, dv, bars[i], dropped[i]);
      BarExact(fc, dv, bars[i], dropped[i]);
    }
  }

  /** Rows written with their count are read back. */
  lemma RowsReadBack(fc: FloatCodec, ks: seq<Kind>, rows: seq<seq<Item>>, ts: seq<Text>, pos: nat)
    requires fc.Valid() && Uniform(fc, ks, rows) && Here(ts, pos, Listed(RowTexts(fc, rows)))
    ensures RowsAt(fc, ks, ts, pos) == Success(At(RowValues(rows), pos + |Listed(RowTexts(fc, rows))|))
  {
    CountHere(|rows|, ts, pos);
    hide BlockTexts, AsInt, FormatInt, BlocksAt, Here, RowTexts, RowValues, Uniform, Sound;
    UniformSize(fc, ks, rows);
    RowsAreBlocks(fc, ks, rows);
    CountedReadsBack(fc, ks, RowValues(rows), ts, pos);
  }

  lemma UniformSize(fc: FloatCodec, ks: seq<Kind>, rows: seq<seq<Item>>)
    requires Uniform(fc, ks, rows)
    ensures |rows| <= INT64_MAX
  {
  }

  /** A historical data message: before 124 a field to skip, then request ID, start, end, count and bars. */
  function HistoryTexts(fc: FloatCodec, dv: int, skipped: Text, reqID: int64, start: Text, end: Text, bars: seq<Bar>,
                        dropped: seq<Text>): seq<Text>
    requires |dropped| == |bars|
  {
    (if dv < 124 then [skipped] else []) + ([FormatInt(reqID as int), start, end]
    + Listed(AllBarTexts(fc, dv, bars, dropped)))
  }

  lemma HistoryHere(dv: int, skipped: Text, reqID: int64, start: Text, end: Text, rows: seq<Text>, ts: seq<Text>,
                    pos: nat, at: nat)
    requires Here(ts, pos, (if dv < 124 then [skipped] else []) + ([FormatInt(reqID as int), start, end] + rows))
    requires at == pos + Gate(dv < 124, 1)
    ensures IntAt(ts, at) == Success(reqID)
    ensures TextAt(ts, at + 1) == Success(start) && TextAt(ts, at + 2) == Success(end)
    ensures Here(ts, at + 3, rows)
  {
    IntRoundTrip(reqID);
    hide FormatInt;
    HereSplit(ts, pos, if dv < 124 then [skipped] else [], [FormatInt(reqID as int), start, end] + rows);
    HereSplit(ts, at, [FormatInt(reqID as int), start, end], rows);
    assert ts[at..at + 3] == [FormatInt(reqID as int), start, end];
    assert ts[at] == ts[at..at + 3][0] && ts[at + 1] == ts[at..at + 3][1] && ts[at + 2] == ts[at..at + 3][2];
  }

  /** Written the natural way, any number of bars make one call each, and then the end is called with the dates. */
  lemma HistoryReadsBack(fc: FloatCodec, dv: int, skipped: Text, reqID: int64, start: Text, end: Text, bars: seq<Bar>,
                         dropped: seq<Text>, ts: seq<Text>, pos: nat)
    requires fc.Valid() && |dropped| == |bars| <= INT64_MAX && forall i :: 0 <= i < |bars| ==> ExactBar(fc, bars[i])
    requires Here(ts, pos, HistoryTexts(fc, dv, skipped, reqID, start, end, bars, dropped))
    ensures HistoryAt(fc, dv, ts, pos).Success?
    ensures HistoryAt(fc, dv, ts, pos).value.next
            == pos + |HistoryTexts(fc, dv, skipped, reqID, start, end, bars, dropped)|
    ensures HistoryCalls(dv, HistoryAt(fc, dv, ts, pos).value.value)
            == seq(|bars|, i requires 0 <= i < |bars| => HistoricalData(reqID, bars[i]))
               + [HistoricalDataEnd(reqID, start, end)]
  {
    hide Here, BarKinds, BarOf, BarRows, RowTexts, AllBarTexts, RowsAt, ExactBar, Uniform, Listed, IntAt;
    var rows := BarRows(dv, bars, dropped);
    var at := pos + Gate(dv < SYNT_REALTIME_BARS, 1);
    BarsBack(fc, dv, bars, dropped);
    HistoryHere(dv, skipped, reqID, start, end, Listed(AllBarTexts(fc, dv, bars, dropped)), ts, pos, at);
    RowsReadBack(fc, BarKinds(dv), rows, ts, at + 3);
  }

  // ---------------------------------------------------------------- scanner data

  /** Rank .. Legs. */
  const SCANNER_ROW: seq<Kind> := [KInt, KInt, KStr, KStr, KStr, KFloat, KStr, KStr, KStr, KStr, KStr, KStr, KStr, KStr,
                                   KStr, KStr]

  function ScanRowOf(vs: seq<Value>): ScanRow {
    ScanRow(IntOf(vs, 0), IntOf(vs, 1), TextOf(vs, 2), TextOf(vs, 3), TextOf(vs, 4), FloatOf(vs, 5), TextOf(vs, 6),
            TextOf(vs, 7), TextOf(vs, 8), TextOf(vs, 9), TextOf(vs, 10), TextOf(vs, 11), TextOf(vs, 12),
            TextOf(vs, 13), TextOf(vs, 14), TextOf(vs, 15))
  }

  /** What is read at position p. */
  predicate ScanRowAt(fc: FloatCodec, x: ScanRow, ts: seq<Text>, p: nat) {
    && IntAt(ts, p) == Success(x.rank) && IntAt(ts, p + 1) == Success(x.contractID)
    && TextAt(ts, p + 2) == Success(x.symbol) && TextAt(ts, p + 3) == Success(x.secType)
    && TextAt(ts, p + 4) == Success(x.expiry) && FloatAt(fc, ts, p + 5) == Success(x.strike)
    && TextAt(ts, p + 6) == Success(x.right) && TextAt(ts, p + 7) == Success(x.exchange)
    && TextAt(ts, p + 8) == Success(x.currency) && TextAt(ts, p + 9) == Success(x.localSymbol)
    && TextAt(ts, p + 10) == Success(x.marketName) && TextAt(ts, p + 11) == Success(x.tradingClass)
    && TextAt(ts, p + 12) == Success(x.distance) && TextAt(ts, p + 13) == Success(x.benchmark)
    && TextAt(ts, p + 14) == Success(x.projection) && TextAt(ts, p + 15) == Success(x.legs)
  }

  lemma ScanRowRead(fc: FloatCodec, vs: seq<Value>, ts: seq<Text>, p: nat, end: nat)
    requires BlockAt(fc, SCANNER_ROW, ts, p) == Success(At(vs, end))
    ensures ScanRowAt(fc, ScanRowOf(vs), ts, p)
  {
    hide BlockAt, IntAt, IntUnsetAt, FloatAt, FloatUnsetAt, TextAt, BoolAt, IntOf, FloatOf, TextOf, BoolOf;
    Picked(fc, SCANNER_ROW, ts, p, 0);
    Picked(fc, SCANNER_ROW, ts, p, 1);
    Picked(fc, SCANNER_ROW, ts, p, 2);
    Picked(fc, SCANNER_ROW, ts, p, 3);
    Picked(fc, SCANNER_ROW, ts, p, 4);
    Picked(fc, SCANNER_ROW, ts, p, 5);
    Picked(fc, SCANNER_ROW, ts, p, 6);
    Picked(fc, SCANNER_ROW, ts, p, 7);
    Picked(fc, SCANNER_ROW, ts, p, 8);
    Picked(fc, SCANNER_ROW, ts, p, 9);
    Picked(fc, SCANNER_ROW, ts, p, 10);
    Picked(fc, SCANNER_ROW, ts, p, 11);
    Picked(fc, SCANNER_ROW, ts, p, 12);
    Picked(fc, SCANNER_ROW, ts, p, 13);
    Picked(fc, SCANNER_ROW, ts, p, 14);
    Picked(fc, SCANNER_ROW, ts, p, 15);
  }

  function ScanRowItems(x: ScanRow): (r: seq<Item>)
    ensures Kinds(r) == SCANNER_ROW
  {
    [Int(x.rank), Int(x.contractID), Str(x.symbol), Str(x.secType), Str(x.expiry), Num(x.strike), Str(x.right),
     Str(x.exchange), Str(x.currency), Str(x.localSymbol), Str(x.marketName), Str(x.tradingClass), Str(x.distance),
     Str(x.benchmark), Str(x.projection), Str(x.legs)]
  }

  lemma ScanRowBack(x: ScanRow)
    ensures ScanRowOf(Values(ScanRowItems(x))) == x
  {
  }

  function ScanAt(fc: FloatCodec, ts: seq<Text>, pos: nat): Result<At<(int64, seq<seq<Value>>)>> {
    var reqID :- IntAt(ts, pos + 1);
    var rows :- RowsAt(fc, SCANNER_ROW, ts, pos + 2);
    Success(At((reqID, rows.value), rows.next))
  }

  function ScanCall(reqID: int64): seq<Value> -> Call { vs => ScannerData(reqID, ScanRowOf(vs)) }

  function ScanCalls(s: (int64, seq<seq<Value>>)): seq<Call> { Calls(ScanCall(s.0), s.1) + [ScannerDataEnd(s.0)] }

  method ProcessScannerData(fc: FloatCodec, m: MsgBuffer) returns (calls: seq<Call>, ok: bool)
    requires m.Valid()
    modifies m
    ensures m.Valid() && m.fields == old(m.fields)
    ensures ok <==> ScanAt(fc, m.fields, old(m.pos)).Success?
    ensures ok ==> var s := ScanAt(fc, m.fields, old(m.pos)).value;
                   calls == ScanCalls(s.value) && m.pos == s.next
    ensures ok ==> m.pos == old(m.pos) + 3 + 16 * (|calls| - 1)
    ensures !ok ==> forall i :: 0 <= i < |calls| ==> calls[i].ScannerData?
  {
    hide RowsAt, AsInt, ScanRowOf;
    calls, ok := [], false;
    var skipped := m.ReadString();
    if skipped.Panic? {
      return;
    }
    var reqID := m.ReadInt();
    if reqID.Panic? {
      return;
    }
    calls, ok := ReportRows(fc, m, SCANNER_ROW, ScanCall(reqID.value));
    if ok {
      calls := calls + [ScannerDataEnd(reqID.value)];
    }
  }

  /** What any scanner data message that can be read means. */
  lemma ScanMeans(fc: FloatCodec, ts: seq<Text>, pos: nat)
    requires ScanAt(fc, ts, pos).Success?
    ensures var calls := ScanCalls(ScanAt(fc, ts, pos).value.value);
            && IntAt(ts, pos + 1).Success? && IntAt(ts, pos + 2).Success?
            && |calls| == Times(IntAt(ts, pos + 2).value) + 1
            && (forall i :: 0 <= i < |calls| - 1 ==>
                  && calls[i].ScannerData? && calls[i].reqID == IntAt(ts, pos + 1).value
                  && ScanRowAt(fc, calls[i].row, ts, pos + 3 + i * 16))
            && calls[|calls| - 1] == ScannerDataEnd(IntAt(ts, pos + 1).value)
  {
    hide BlockAt, RowsAt, ScanRowAt, ScanRowOf, AsInt;
    var s := ScanAt(fc, ts, pos).value;
    forall i | 0 <= i < |s.value.1| ensures ScanRowAt(fc, ScanRowOf(s.value.1[i]), ts, pos + 3 + i * 16) {
      RowNumber(fc, SCANNER_ROW, s.value.1, ts, pos + 2, s.next, i);
      ScanRowRead(fc, s.value.1[i], ts, pos + 3 + i * 16, pos + 3 + i * 16 + 16);
    }
  }

  function ScanRows(rows: seq<ScanRow>): (r: seq<seq<Item>>)
    ensures |r| == |rows| && forall i :: 0 <= i < |rows| ==> r[i] == ScanRowItems(rows[i])
  {
    seq(|rows|, i requires 0 <= i < |rows| => ScanRowItems(rows[i]))
  }

  /** A scanner row on the wire. */
  function ScanRowTexts(fc: FloatCodec, x: ScanRow): seq<Text> {
    [FormatInt(x.rank as int), FormatInt(x.contractID as int), x.symbol, x.secType, x.expiry, fc.format(x.strike),
     x.right, x.exchange, x.currency, x.localSymbol, x.marketName, x.tradingClass, x.distance, x.benchmark,
     x.projection, x.legs]
  }

  function AllScanRowTexts(fc: FloatCodec, rows: seq<ScanRow>): (gs: seq<seq<Text>>)
    ensures |gs| == |rows| && forall i :: 0 <= i < |rows| ==> gs[i] == ScanRowTexts(fc, rows[i])
  {
    seq(|rows|, i requires 0 <= i < |rows| => ScanRowTexts(fc, rows[i]))
  }

  lemma ScanRowSent(fc: FloatCodec, x: ScanRow)
    ensures RenderAll(fc, Sent(fc, ScanRowItems(x))) == ScanRowTexts(fc, x)
    ensures fc.Exact(x.strike) ==> AllExact(fc, ScanRowItems(x))
  {
    hide Kinds, FormatInt;
  }

  lemma ScanRowsBack(fc: FloatCodec, rows: seq<ScanRow>)
    requires |rows| <= INT64_MAX && forall i :: 0 <= i < |rows| ==> fc.Exact(rows[i].strike)
    ensures Uniform(fc, SCANNER_ROW, ScanRows(rows)) && RowTexts(fc, ScanRows(rows)) == AllScanRowTexts(fc, rows)
    ensures forall i :: 0 <= i < |rows| ==> ScanRowOf(RowValues(ScanRows(rows))[i]) == rows[i]
  {
    hide ScanRowItems, ScanRowTexts, ScanRowOf, AllExact, Kinds, Values, Sent, RenderAll;
    forall i | 0 <= i < |rows|
      ensures ScanRowOf(Values(ScanRows(rows)[i])) == rows[i] && AllExact(fc, ScanRows(rows)[i])
      ensures RenderAll(fc, Sent(fc, ScanRows(rows)[i])) == ScanRowTexts(fc, rows[i])
    {
      ScanRowBack(rows[i]);
      ScanRowSent(fc, rows[i]);
    }
  }

  lemma ScanHere(skipped: Text, reqID: int64, rows: seq<Text>, ts: seq<Text>, pos: nat)
    requires Here(ts, pos, [skipped, FormatInt(reqID as int)] + rows)
    ensures IntAt(ts, pos + 1) == Success(reqID) && Here(ts, pos + 2, rows)
  {
    IntRoundTrip(reqID);
    hide FormatInt;
    HereSplit(ts, pos, [skipped, FormatInt(reqID as int)], rows);
    assert ts[pos + 1] == ts[pos..pos + 2][1];
  }

  /** The natural encoding of scanner rows makes one call a row, with the row's own attributes, and then the end. */
  lemma ScanReadsBack(fc: FloatCodec, skipped: Text, reqID: int64, rows: seq<ScanRow>, ts: seq<Text>, pos: nat)
    requires fc.Valid() && |rows| <= INT64_MAX && forall i :: 0 <= i < |rows| ==> fc.Exact(rows[i].strike)
    requires Here(ts, pos, [skipped, FormatInt(reqID as int)] + Listed(AllScanRowTexts(fc, rows)))
    ensures ScanAt(fc, ts, pos).Success?
    ensures ScanAt(fc, ts, pos).value.next == pos + 2 + |Listed(AllScanRowTexts(fc, rows))|
    ensures ScanCalls(ScanAt(fc, ts, pos).value.value)
            == seq(|rows|, i requires 0 <= i < |rows| => ScannerData(reqID, rows[i])) + [ScannerDataEnd(reqID)]
  {
    hide Here, ScanRowOf, ScanRows, RowTexts, AllScanRowTexts, RowsAt, Uniform, Listed, IntAt, FormatInt;
    ScanRowsBack(fc, rows);
    ScanHere(skipped, reqID, Listed(AllScanRowTexts(fc, rows)), ts, pos);
    RowsReadBack(fc, SCANNER_ROW, ScanRows(rows), ts, pos + 2);
  }

  // ---------------------------------------------------------------- symbol samples

  const DESCRIPTION: seq<Kind> := [KInt, KStr, KStr, KStr, KStr]
  const DERIVATIVE: seq<Kind> := [KStr]

  /** A contract description and its derivative security types. */
  datatype Sample = Sample(contractID: int64, symbol: Text, secType: Text, primaryExchange: Text, currency: Text,
                           types: seq<Text>)

  function SampleOf(vs: seq<Value>, types: seq<seq<Value>>): Sample {
    Sample(IntOf(vs, 0), TextOf(vs, 1), TextOf(vs, 2), TextOf(vs, 3), TextOf(vs, 4),
           seq(|types|, i requires 0 <= i < |types| => TextOf(types[i], 0)))
  }

  function SampleAt(fc: FloatCodec, ts: seq<Text>, pos: nat): Result<At<Sample>> {
    var contract :- BlockAt(fc, DESCRIPTION, ts, pos);
    var types :- CountedAt(fc, DERIVATIVE, ts, contract.next);
    Success(At(SampleOf(contract.value, types.value), types.next))
  }

  function SamplesAt(fc: FloatCodec, n: nat, ts: seq<Text>, pos: nat): Result<At<seq<Sample>>> {
    if n == 0 then Success(At([], pos))
    else
      var first :- SampleAt(fc, ts, pos);
      var others :- SamplesAt(fc, n - 1, ts, first.next);
      Success(At([first.value] + others.value, others.next))
  }

  function SymbolSamplesAt(fc: FloatCodec, ts: seq<Text>, pos: nat): Result<At<(int64, seq<Sample>)>> {
    var reqID :- IntAt(ts, pos);
    var n :- CountAt(ts, pos + 1);
    var samples :- SamplesAt(fc, n.value, ts, n.next);
    Success(At((reqID, samples.value), samples.next))
  }

  method ReadSample(fc: FloatCodec, m: MsgBuffer) returns (r: Result<Sample>)
    requires m.Valid()
    modifies m
    ensures m.Valid() && m.fields == old(m.fields) && (old(m.tail) == [] ==> m.tail == [])
    ensures var spec := SampleAt(fc, m.fields, old(m.pos));
            if spec.Success? then r == Success(spec.value.value) && m.pos == spec.value.next else r.Panic?
  {
    hide BlockAt, CountedAt, SampleOf;
    var contract :- ReadBlock(fc, m, DESCRIPTION);
    var types :- ReadCounted(fc, m, DERIVATIVE);
    return Success(SampleOf(contract, types));
  }

  lemma SampleRead(fc: FloatCodec, n: nat, ts: seq<Text>, pos: nat, before: seq<Sample>)
    requires n > 0
    ensures var s := SampleAt(fc, ts, pos);
            Behind(before, SamplesAt(fc, n, ts, pos))
            == (if s.Success? then Behind(before + [s.value.value], SamplesAt(fc, n - 1, ts, s.value.next)) else Panic)
  {
    hide SampleAt;
    var s := SampleAt(fc, ts, pos);
    if s.Success? {
      var left := SamplesAt(fc, n - 1, ts, s.value.next);
      if left.Success? {
        assert before + ([s.value.value] + left.value.value) == (before + [s.value.value]) + left.value.value;
      }
    }
  }

  method ProcessSymbolSamples(fc: FloatCodec, m: MsgBuffer) returns (r: Result<(int64, seq<Sample>)>)
    requires m.Valid()
    modifies m
    ensures m.Valid() && m.fields == old(m.fields) && (old(m.tail) == [] ==> m.tail == [])
    ensures var spec := SymbolSamplesAt(fc, m.fields, old(m.pos));
            if spec.Success? then r == Success(spec.value.value) && m.pos == spec.value.next else r.Panic?
  {
    hide SampleAt, AsInt;
    var reqID :- m.ReadInt();
    var n :- m.ReadInt();
    if n < 0 {
      return Panic;
    }
    ghost var whole := SamplesAt(fc, n as nat, m.fields, m.pos);
    var samples: seq<Sample> := [];
    if whole.Success? {
      assert samples + whole.value.value == whole.value.value;
    }
    while n > 0
      invariant m.Valid() && m.fields == old(m.fields) && (old(m.tail) == [] ==> m.tail == []) && 0 <= n
      invariant whole == Behind(samples, SamplesAt(fc, n as nat, m.fields, m.pos))
    {
      SampleRead(fc, n as nat, m.fields, m.pos, samples);
      var s := ReadSample(fc, m);
      if s.Panic? {
        return Panic;
      }
      samples := samples + [s.value];
      n := n - 1;
    }
    assert samples + [] == samples;
    return Success((reqID, samples));
  }

  // The natural encoding: every list with its count in front.

  function SampleTexts(s: Sample): seq<Text> {
    [FormatInt(s.contractID as int), s.symbol, s.secType, s.primaryExchange, s.currency]
        + ([FormatInt(|s.types|)] + s.types)
  }

  ghost predicate AllNatural(samples: seq<Sample>) {
    forall i :: 0 <= i < |samples| ==> |samples[i].types| <= INT64_MAX
  }

  function SamplesTexts(samples: seq<Sample>): seq<Text> {
    if samples == [] then [] else SampleTexts(samples[0]) + SamplesTexts(samples[1..])
  }

  function DescriptionItems(s: Sample): (r: seq<Item>)
    ensures Kinds(r) == DESCRIPTION
  {
    [Int(s.contractID), Str(s.symbol), Str(s.secType), Str(s.primaryExchange), Str(s.currency)]
  }

  function TypeRows(types: seq<Text>): (rows: seq<seq<Item>>)
    ensures |rows| == |types| && forall i :: 0 <= i < |types| ==> rows[i] == [Str(types[i])]
  {
    seq(|types|, i requires 0 <= i < |types| => [Str(types[i])])
  }

  lemma {:induction false} SinglesFlat(ts: seq<Text>, gs: seq<seq<Text>>)
    requires |gs| == |ts| && forall i :: 0 <= i < |ts| ==> gs[i] == [ts[i]]
    ensures Flatten(gs) == ts
    decreases |ts|
  {
    if ts != [] {
      SinglesFlat(ts[1..], gs[1..]);
      assert ts == [ts[0]] + ts[1..];
    }
  }

  lemma TypesBack(fc: FloatCodec, types: seq<Text>)
    requires |types| <= INT64_MAX
    ensures Uniform(fc, DERIVATIVE, TypeRows(types))
    ensures Listed(RowTexts(fc, TypeRows(types))) == [FormatInt(|types|)] + types
    ensures forall i :: 0 <= i < |types| ==> TextOf(RowValues(TypeRows(types))[i], 0) == types[i]
  {
    hide FormatInt;
    var gs := RowTexts(fc, TypeRows(types));
    forall i | 0 <= i < |types| ensures gs[i] == [types[i]] {
      assert RenderAll(fc, Sent(fc, [Str(types[i])])) == [types[i]];
    }
    SinglesFlat(types, gs);
  }

  lemma DescriptionSent(fc: FloatCodec, s: Sample)
    ensures RenderAll(fc, Sent(fc, DescriptionItems(s)))
            == [FormatInt(s.contractID as int), s.symbol, s.secType, s.primaryExchange, s.currency]
    ensures AllExact(fc, DescriptionItems(s))
  {
    hide FormatInt;
  }

  lemma SampleBack(s: Sample)
    ensures SampleOf(Values(DescriptionItems(s)), RowValues(TypeRows(s.types))) == s
  {
  }

  lemma SampleFound(fc: FloatCodec, s: Sample, vs: seq<Value>, types: seq<seq<Value>>, ts: seq<Text>, pos: nat, at: nat,
                    next: nat)
    requires BlockAt(fc, DESCRIPTION, ts, pos) == Success(At(vs, at))
    requires CountedAt(fc, DERIVATIVE, ts, at) == Success(At(types, next)) && SampleOf(vs, types) == s
    ensures SampleAt(fc, ts, pos) == Success(At(s, next))
  {
    hide BlockAt, CountedAt, SampleOf;
  }

  lemma DescriptionReadsBack(fc: FloatCodec, s: Sample, ts: seq<Text>, pos: nat)
    requires fc.Valid()
    requires Here(ts, pos, [FormatInt(s.contractID as int), s.symbol, s.secType, s.primaryExchange, s.currency])
    ensures BlockAt(fc, DESCRIPTION, ts, pos) == Success(At(Values(DescriptionItems(s)), pos + 5))
  {
    assert |DescriptionItems(s)| == 5;
    hide Here, FormatInt, DescriptionItems, Kinds, Values, Sent, RenderAll, AllExact, BlockAt;
    DescriptionSent(fc, s);
    ItemsReadBack(fc, DescriptionItems(s), ts, pos);
  }

  lemma TypesReadBack(fc: FloatCodec, types: seq<Text>, ts: seq<Text>, pos: nat)
    requires fc.Valid() && |types| <= INT64_MAX && Here(ts, pos, [FormatInt(|types|)] + types)
    ensures CountedAt(fc, DERIVATIVE, ts, pos) == Success(At(RowValues(TypeRows(types)), pos + 1 + |types|))
  {
    hide Here, FormatInt, Uniform, RowTexts, RowValues, TypeRows, CountedAt, Listed, BlockTexts, Sound;
    TypesBack(fc, types);
    RowsAreBlocks(fc, DERIVATIVE, TypeRows(types));
    CountedReadsBack(fc, DERIVATIVE, RowValues(TypeRows(types)), ts, pos);
  }

  lemma SampleReadsBack(fc: FloatCodec, s: Sample, ts: seq<Text>, pos: nat)
    requires fc.Valid() && |s.types| <= INT64_MAX && Here(ts, pos, SampleTexts(s))
    ensures SampleAt(fc, ts, pos) == Success(At(s, pos + |SampleTexts(s)|))
  {
    var front := [FormatInt(s.contractID as int), s.symbol, s.secType, s.primaryExchange, s.currency];
    var back := [FormatInt(|s.types|)] + s.types;
    hide Here, FormatInt, DescriptionItems, Values, RowValues, TypeRows, CountedAt, BlockAt, SampleOf, SampleAt;
    HereSplit(ts, pos, front, back);
    DescriptionReadsBack(fc, s, ts, pos);
    TypesReadBack(fc, s.types, ts, pos + 5);
    SampleBack(s);
    SampleFound(fc, s, Values(DescriptionItems(s)), RowValues(TypeRows(s.types)), ts, pos, pos + 5, pos + 5 + |back|);
  }

  lemma SamplesCons(fc: FloatCodec, n: nat, first: Sample, others: seq<Sample>, ts: seq<Text>, pos: nat, at: nat,
                    next: nat)
    requires n > 0 && SampleAt(fc, ts, pos) == Success(At(first, at))
    requires SamplesAt(fc, n - 1, ts, at) == Success(At(others, next))
    ensures SamplesAt(fc, n, ts, pos) == Success(At([first] + others, next))
  {
    hide SampleAt;
  }

  lemma SamplesSplit(fc: FloatCodec, samples: seq<Sample>, ts: seq<Text>, pos: nat)
    requires samples != [] && AllNatural(samples) && Here(ts, pos, SamplesTexts(samples))
    ensures |samples[0].types| <= INT64_MAX && AllNatural(samples[1..]) && Here(ts, pos, SampleTexts(samples[0]))
    ensures Here(ts, pos + |SampleTexts(samples[0])|, SamplesTexts(samples[1..]))
    ensures |SamplesTexts(samples)| == |SampleTexts(samples[0])| + |SamplesTexts(samples[1..])|
  {
    hide Here, SampleTexts;
    HereSplit(ts, pos, SampleTexts(samples[0]), SamplesTexts(samples[1..]));
  }

  lemma NoSamples(fc: FloatCodec, samples: seq<Sample>, ts: seq<Text>, pos: nat)
    requires samples == [] && AllNatural(samples)
    ensures SamplesAt(fc, 0, ts, pos) == Success(At(samples, pos + |SamplesTexts(samples)|))
  {
  }

  lemma {:induction false} SamplesReadBack(fc: FloatCodec, samples: seq<Sample>, n: nat, ts: seq<Text>, pos: nat)
    requires fc.Valid() && n == |samples| && AllNatural(samples) && Here(ts, pos, SamplesTexts(samples))
    ensures SamplesAt(fc, n, ts, pos) == Success(At(samples, pos + |SamplesTexts(samples)|))
    decreases n
  {
    hide *;
    if n == 0 {
      NoSamples(fc, samples, ts, pos);
    } else {
      SamplesSplit(fc, samples, ts, pos);
      var at := pos + |SampleTexts(samples[0])|;
      SampleReadsBack(fc, samples[0], ts, pos);
      SamplesReadBack(fc, samples[1..], n - 1, ts, at);
      SamplesCons(fc, n, samples[0], samples[1..], ts, pos, at, at + |SamplesTexts(samples[1..])|);
      assert samples == [samples[0]] + samples[1..];
    }
  }

  lemma SymbolSamplesRead(fc: FloatCodec, reqID: int64, samples: seq<Sample>, ts: seq<Text>, pos: nat, next: nat)
    requires IntAt(ts, pos) == Success(reqID) && CountAt(ts, pos + 1) == Success(At(|samples|, pos + 2))
    requires SamplesAt(fc, |samples|, ts, pos + 2) == Success(At(samples, next))
    ensures SymbolSamplesAt(fc, ts, pos) == Success(At((reqID, samples), next))
  {
    hide SamplesAt, CountAt, AsInt;
  }

  lemma IntHere(i: int64, ts: seq<Text>, pos: nat)
    requires Here(ts, pos, [FormatInt(i as int)])
    ensures IntAt(ts, pos) == Success(i)
  {
    IntRoundTrip(i);
    hide FormatInt;
  }

  lemma CountTextHere(n: nat, ts: seq<Text>, pos: nat)
    requires n <= INT64_MAX && Here(ts, pos, [FormatInt(n)])
    ensures CountAt(ts, pos) == Success(At(n, pos + 1))
  {
    hide FormatInt, AsInt;
    CountHere(n, ts, pos);
  }

  /** The nested loops invert the natural encoding. */
  lemma SymbolSamplesReadBack(fc: FloatCodec, reqID: int64, samples: seq<Sample>, ts: seq<Text>, pos: nat)
    requires fc.Valid() && |samples| <= INT64_MAX && AllNatural(samples)
    requires Here(ts, pos, [FormatInt(reqID as int)] + ([FormatInt(|samples|)] + SamplesTexts(samples)))
    ensures SymbolSamplesAt(fc, ts, pos) == Success(At((reqID, samples), pos + 2 + |SamplesTexts(samples)|))
  {
    hide *;
    HereSplit(ts, pos, [FormatInt(reqID as int)], [FormatInt(|samples|)] + SamplesTexts(samples));
    HereSplit(ts, pos + 1, [FormatInt(|samples|)], SamplesTexts(samples));
    IntHere(reqID, ts, pos);
    CountTextHere(|samples|, ts, pos + 1);
    SamplesReadBack(fc, samples, |samples|, ts, pos + 2);
    SymbolSamplesRead(fc, reqID, samples, ts, pos, pos + 2 + |SamplesTexts(samples)|);
  }
}
