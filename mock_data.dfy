/** The mock price generator: a random-walk series of `days * int(hours)`
    hourly rows ending now, whose last close is then rewritten to push the
    strategy towards a chosen signal. The random parts (the force type,
    the walk's factors, the volumes, the fallback base price) are
    injected. */
module MockData {
  import opened Values
  import Text
  import Strategy

  /** The force type random.choices picks. */
  datatype ForceType = BuyCross | SellCross | RsiOversold | RsiOverbought | NaturalHold

  /** The new last close for a force type, from the previous and the last close. */
  function ForcedClose(prevClose: real, lastClose: real, force: ForceType): (c: real)
    ensures force == BuyCross ==> c == lastClose * 1.10
    ensures force == SellCross ==> c == lastClose * 0.90
    ensures force == RsiOversold ==> c == prevClose * 0.85
    ensures force == RsiOverbought ==> c == prevClose * 1.15
    ensures force == NaturalHold ==> c == lastClose
  {
    match force
    case NaturalHold => lastClose
    case BuyCross => lastClose * 1.10
    case SellCross => lastClose * 0.90
    case RsiOversold => prevClose * 0.85
    case RsiOverbought => prevClose * 1.15
  }

  /** The Close column after forcing: unchanged below 50 rows, otherwise
      only the last entry is rewritten. */
  function ForcedCloses(closes: seq<real>, force: ForceType): (r: seq<real>)
    ensures |r| == |closes|
  {
    if |closes| < Strategy.SmaLongPeriod then closes
    else closes[..|closes| - 1] + [ForcedClose(closes[|closes| - 2], closes[|closes| - 1], force)]
  }

  /** Forcing leaves a short frame alone and otherwise changes at most
      the last close, to the value its force type prescribes. */
  lemma ForcingTouchesOnlyLastClose(closes: seq<real>, force: ForceType)
    ensures |closes| < Strategy.SmaLongPeriod ==> ForcedCloses(closes, force) == closes
    ensures forall i :: 0 <= i < |closes| - 1 ==> ForcedCloses(closes, force)[i] == closes[i]
    ensures |closes| >= Strategy.SmaLongPeriod ==>
      ForcedCloses(closes, force)[|closes| - 1] == ForcedClose(closes[|closes| - 2], closes[|closes| - 1], force)
    ensures force == NaturalHold ==> ForcedCloses(closes, force) == closes
  {
    if |closes| >= Strategy.SmaLongPeriod && force == NaturalHold {
      assert closes[..|closes| - 1] + [closes[|closes| - 1]] == closes;
    }
  }

  // ---------------------------------------------------------------------
  // The effect of the rewrite on the moving averages
  // ---------------------------------------------------------------------

  lemma SumReplaceLast(s: seq<real>, v: real)
    requires s != []
    ensures Strategy.Sum(s[..|s| - 1] + [v]) == Strategy.Sum(s) - s[|s| - 1] + v
  {
    assert (s[..|s| - 1] + [v])[..|s| - 1] == s[..|s| - 1];
  }

  /** Rewriting the last close to v moves the last moving average by
      (v - last) / window and leaves the one before it unchanged. */
  lemma LastCloseShiftsSma(closes: seq<real>, window: nat, v: real)
    requires 2 <= window <= |closes|
    ensures var n := |closes|;
      var forced := closes[..n - 1] + [v];
      && (Strategy.SmaAt(forced, window, n - 1).value - Strategy.SmaAt(closes, window, n - 1).value) * window as real
           == v - closes[n - 1]
      && Strategy.SmaAt(forced, window, n - 2) == Strategy.SmaAt(closes, window, n - 2)
  {
    var n := |closes|;
    var forced := closes[..n - 1] + [v];
    var w := closes[n - window..n];
    assert forced[n - window..n] == w[..|w| - 1] + [v];
    SumReplaceLast(w, v);
    Strategy.SmaAtMean(closes, window, n - 1);
    Strategy.SmaAtMean(forced, window, n - 1);
    assert forced[..n - 1] == closes[..n - 1];
    if n - 1 >= window {
      assert forced[n - 1 - window..n - 1] == closes[n - 1 - window..n - 1];
    }
  }

  /** The gap between the 20- and the 50-period average on the last row. */
  function LastGap(closes: seq<real>): real
    requires |closes| >= Strategy.SmaLongPeriod
  {
    Strategy.SmaAt(closes, Strategy.SmaShortPeriod, |closes| - 1).value
      - Strategy.SmaAt(closes, Strategy.SmaLongPeriod, |closes| - 1).value
  }

  /** A shift of d in the last close moves the short average by d / 20 and
      the long one by d / 50, so the gap moves in the direction of d. */
  lemma GapShift(short: real, short': real, long: real, long': real, d: real)
    requires (short' - short) * 20.0 == d && (long' - long) * 50.0 == d
    ensures d > 0.0 ==> short' - long' > short - long
    ensures d < 0.0 ==> short' - long' < short - long
  {
  }

  /** Raising the last close widens the short-over-long gap of the last
      row and lowering it narrows the gap, while the previous row's
      averages stay put. */
  lemma GapFollowsLastClose(closes: seq<real>, v: real)
    requires |closes| >= Strategy.SmaLongPeriod
    ensures var n := |closes|;
      var forced := closes[..n - 1] + [v];
      && (v > closes[n - 1] ==> LastGap(forced) > LastGap(closes))
      && (v < closes[n - 1] ==> LastGap(forced) < LastGap(closes))
      && Strategy.SmaAt(forced, Strategy.SmaShortPeriod, n - 2) == Strategy.SmaAt(closes, Strategy.SmaShortPeriod, n - 2)
      && Strategy.SmaAt(forced, Strategy.SmaLongPeriod, n - 2) == Strategy.SmaAt(closes, Strategy.SmaLongPeriod, n - 2)
  {
    var n := |closes|;
    var forced := closes[..n - 1] + [v];
    LastCloseShiftsSma(closes, Strategy.SmaShortPeriod, v);
    LastCloseShiftsSma(closes, Strategy.SmaLongPeriod, v);
    GapShift(Strategy.SmaAt(closes, Strategy.SmaShortPeriod, n - 1).value, Strategy.SmaAt(forced, Strategy.SmaShortPeriod, n - 1).value,
             Strategy.SmaAt(closes, Strategy.SmaLongPeriod, n - 1).value, Strategy.SmaAt(forced, Strategy.SmaLongPeriod, n - 1).value,
             v - closes[n - 1]);
  }

  /** On a positive series, BUY_CROSS widens the short-over-long gap and
      SELL_CROSS narrows it, while the previous row's averages stay put, so
      a cross can only come from the rewritten row. */
  lemma CrossForcingMovesGap(closes: seq<real>, force: ForceType)
    requires |closes| >= Strategy.SmaLongPeriod && closes[|closes| - 1] > 0.0
    requires force == BuyCross || force == SellCross
    ensures force == BuyCross ==> LastGap(ForcedCloses(closes, force)) > LastGap(closes)
    ensures force == SellCross ==> LastGap(ForcedCloses(closes, force)) < LastGap(closes)
    ensures var n := |closes|;
      && Strategy.SmaAt(ForcedCloses(closes, force), Strategy.SmaShortPeriod, n - 2) == Strategy.SmaAt(closes, Strategy.SmaShortPeriod, n - 2)
      && Strategy.SmaAt(ForcedCloses(closes, force), Strategy.SmaLongPeriod, n - 2) == Strategy.SmaAt(closes, Strategy.SmaLongPeriod, n - 2)
  {
    var n := |closes|;
    var v := ForcedClose(closes[n - 2], closes[n - 1], force);
    assert ForcedCloses(closes, force) == closes[..n - 1] + [v];
    GapFollowsLastClose(closes, v);
  }

  // ---------------------------------------------------------------------
  // The in-place rewrite
  // ---------------------------------------------------------------------

  const TempColumns: set<string> := {"SMA_20", "SMA_50"}

  /** df[name] = ...: a new column is appended, an existing one replaced in place. */
  function AddColumn(columns: seq<string>, name: string): (r: seq<string>)
    ensures name in r
    ensures forall c :: c in columns ==> c in r
  {
    if name in columns then columns else columns + [name]
  }

  /** df.drop(columns=['SMA_20', 'SMA_50']). */
  function DropTempColumns(columns: seq<string>): seq<string> {
    if columns == [] then []
    else (if columns[0] in TempColumns then [] else [columns[0]]) + DropTempColumns(columns[1..])
  }

  /** Dropping keeps exactly the columns that are not temporary. */
  lemma {:induction false} DropTempMembers(columns: seq<string>)
    ensures forall c :: c in DropTempColumns(columns) <==> c in columns && c !in TempColumns
  {
    if columns != [] {
      DropTempMembers(columns[1..]);
      assert columns == [columns[0]] + columns[1..];
    }
  }

  /** Adding the temporary columns and dropping them again gives the
      original columns back, less any temporary column they already had. */
  lemma {:induction false} DropAfterAdd(columns: seq<string>, name: string)
    requires name in TempColumns
    ensures DropTempColumns(AddColumn(columns, name)) == DropTempColumns(columns)
  {
    if name !in columns {
      DropAppend(columns, [name]);
      assert DropTempColumns([name]) == [];
    }
  }

  lemma {:induction false} DropAppend(a: seq<string>, b: seq<string>)
    ensures DropTempColumns(a + b) == DropTempColumns(a) + DropTempColumns(b)
  {
    if a != [] {
      DropAppend(a[1..], b);
      assert (a + b)[1..] == a[1..] + b;
    } else {
      assert a + b == b;
    }
  }

  lemma {:induction false} DropKeeps(columns: seq<string>)
    requires forall i :: 0 <= i < |columns| ==> columns[i] !in TempColumns
    ensures DropTempColumns(columns) == columns
  {
    if columns != [] {
      DropKeeps(columns[1..]);
      assert [columns[0]] + columns[1..] == columns;
    }
  }

  /** The columns generate_mock_ohlcv builds. */
  const FrameColumns: seq<string> := ["Date", "Open", "High", "Low", "Close", "Volume"]

  /** _force_signal_on_last_rows(df), on the frame's column names and its
      Close column: the last close is rewritten in place and the temporary
      average columns are added and dropped again. */
  method ForceSignalOnLastRows(columns: seq<string>, close: array<real>, force: ForceType) returns (outColumns: seq<string>)
    modifies close
    ensures close[..] == ForcedCloses(old(close[..]), force)
    ensures outColumns == if close.Length < Strategy.SmaLongPeriod then columns else DropTempColumns(columns)
  {
    if close.Length < Strategy.SmaLongPeriod {
      return columns;
    }
    var withTemp := AddColumn(AddColumn(columns, "SMA_20"), "SMA_50");
    var lastIdx := close.Length - 1;
    var prevIdx := close.Length - 2;
    var prevClose := close[prevIdx];
    var lastClose := close[lastIdx];
    match force {
      case NaturalHold =>
      case BuyCross =>
        close[lastIdx] := lastClose * 1.10;
      case SellCross =>
        close[lastIdx] := lastClose * 0.90;
      case RsiOversold =>
        close[lastIdx] := prevClose * 0.85;
      case RsiOverbought =>
        close[lastIdx] := prevClose * 1.15;
    }
    assert close[..] == old(close[..])[..lastIdx] + [ForcedClose(prevClose, lastClose, force)];
    DropAfterAdd(AddColumn(columns, "SMA_20"), "SMA_50");
    DropAfterAdd(columns, "SMA_20");
    outColumns := DropTempColumns(withTemp);
  }

  /** The generator's own frame keeps its six columns through the rewrite. */
  lemma FrameColumnsSurviveForcing()
    ensures DropTempColumns(FrameColumns) == FrameColumns
  {
    forall i | 0 <= i < |FrameColumns|
      ensures FrameColumns[i] !in TempColumns
    {
      assert FrameColumns[i][0] != 'S';
      assert "SMA_20"[0] == 'S' && "SMA_50"[0] == 'S';
    }
    DropKeeps(FrameColumns);
  }

  // ---------------------------------------------------------------------
  // The generated series
  // ---------------------------------------------------------------------

  /** Python's int(x) on a float: truncation towards zero. */
  function Trunc(x: real): (n: int)
    ensures x >= 0.0 ==> n as real <= x < n as real + 1.0
    ensures x < 0.0 ==> n as real - 1.0 < x <= n as real
  {
    if x >= 0.0 then x.Floor else -((-x).Floor)
  }

  /** N = days * int(interval_hours). */
  function RowCount(days: int, intervalHours: real): int {
    days * Trunc(intervalHours)
  }

  /** The base price table, keyed by the upper-cased symbol, with the
      injected uniform(100, 500) draw as the fallback. */
  function BasePrice(symbol: string, fallback: real): (p: real)
    ensures Text.Upper(symbol) == "AAPL" ==> p == 310.0
    ensures Text.Upper(symbol) == "TSLA" ==> p == 430.0
    ensures Text.Upper(symbol) == "MSFT" ==> p == 280.0
    ensures Text.Upper(symbol) == "GOOGL" ==> p == 135.0
    ensures Text.Upper(symbol) == "AMZN" ==> p == 140.0
    ensures Text.Upper(symbol) !in {"AAPL", "TSLA", "MSFT", "GOOGL", "AMZN"} ==> p == fallback
  {
    var key := Text.Upper(symbol);
    if key == "AAPL" then 310.0
    else if key == "TSLA" then 430.0
    else if key == "MSFT" then 280.0
    else if key == "GOOGL" then 135.0
    else if key == "AMZN" then 140.0
    else fallback
  }

  /** np.cumprod. */
  function CumProd(fs: seq<real>): (r: seq<real>)
    ensures |r| == |fs|
  {
    if fs == [] then []
    else
      var p := CumProd(fs[..|fs| - 1]);
      p + [(if p == [] then 1.0 else p[|p| - 1]) * fs[|fs| - 1]]
  }

  /** Positive factors give a positive running product. */
  lemma {:induction false} CumProdPositive(fs: seq<real>)
    requires forall i :: 0 <= i < |fs| ==> fs[i] > 0.0
    ensures forall i :: 0 <= i < |fs| ==> CumProd(fs)[i] > 0.0
  {
    if fs != [] {
      var front := fs[..|fs| - 1];
      CumProdPositive(front);
      var p := CumProd(front);
      assert p == CumProd(fs)[..|fs| - 1];
      if p != [] {
        assert p[|p| - 1] > 0.0;
      }
    }
  }

  /** base_price * cumprod(price_change_factor). */
  function RawCloses(base: real, factors: seq<real>): (r: seq<real>)
    ensures |r| == |factors|
  {
    var p := CumProd(factors);
    seq(|p|, i requires 0 <= i < |p| => base * p[i])
  }

  const MinVolume: int := 50_000
  const MaxVolume: int := 500_000

  /** np.random.randint(50_000, 500_000): the upper bound is excluded. */
  function MockVolume(draw: nat): (v: int)
    ensures MinVolume <= v < MaxVolume
  {
    MinVolume + draw % (MaxVolume - MinVolume)
  }

  /** generate_mock_ohlcv(symbol, days, interval_hours): with `now` the
      current hour, `fallback` the base price for an unknown symbol, and
      the walk's factors and volume draws given. A negative N makes numpy
      raise. The rows are built in ascending date order, so sorting by
      Date keeps them as they are; only Date, Close and Volume are returned. */
  function GenerateMockOhlcv(symbol: string, days: int, intervalHours: real, now: int, fallback: real,
                             factors: seq<real>, volumeDraws: seq<nat>, force: ForceType): (r: Option<seq<Bar>>)
    requires RowCount(days, intervalHours) <= |factors| && RowCount(days, intervalHours) <= |volumeDraws|
    ensures r.None? <==> RowCount(days, intervalHours) < 0
    ensures r.Some? ==> |r.value| == RowCount(days, intervalHours)
  {
    var n := RowCount(days, intervalHours);
    if n < 0 then None
    else
      var closes := ForcedCloses(RawCloses(BasePrice(symbol, fallback), factors[..n]), force);
      Some(seq(n, i requires 0 <= i < n => Bar(now - (n - 1 - i), closes[i], MockVolume(volumeDraws[i]))))
  }

  /** The series has N rows with hourly dates strictly ascending up to
      now, volumes in numpy's range, and the forced random-walk closes. */
  lemma MockSeriesShape(symbol: string, days: int, intervalHours: real, now: int, fallback: real,
                        factors: seq<real>, volumeDraws: seq<nat>, force: ForceType)
    requires RowCount(days, intervalHours) <= |factors| && RowCount(days, intervalHours) <= |volumeDraws|
    ensures var r := GenerateMockOhlcv(symbol, days, intervalHours, now, fallback, factors, volumeDraws, force);
      r.Some? ==>
        && (forall i, j :: 0 <= i < j < |r.value| ==> r.value[i].date < r.value[j].date)
        && (forall i :: 0 <= i < |r.value| ==> r.value[i].date == now - (|r.value| - 1 - i))
        && (forall i :: 0 <= i < |r.value| ==> MinVolume <= r.value[i].volume < MaxVolume)
        && Closes(r.value) == ForcedCloses(RawCloses(BasePrice(symbol, fallback), factors[..|r.value|]), force)
  {
    var r := GenerateMockOhlcv(symbol, days, intervalHours, now, fallback, factors, volumeDraws, force);
    if r.Some? {
      var n := RowCount(days, intervalHours);
      var closes := ForcedCloses(RawCloses(BasePrice(symbol, fallback), factors[..n]), force);
      assert Closes(r.value) == closes;
    }
  }

  /** With the pipeline's arguments (60 days at 6 hours) the series has 360
      rows, so the last close is always rewritten and no other is. */
  lemma PipelineSeriesIsForced(symbol: string, now: int, fallback: real, factors: seq<real>,
                               volumeDraws: seq<nat>, force: ForceType)
    requires |factors| >= 360 && |volumeDraws| >= 360
    ensures RowCount(60, 6.0) == 360
    ensures var r := GenerateMockOhlcv(symbol, 60, 6.0, now, fallback, factors, volumeDraws, force);
      var raw := RawCloses(BasePrice(symbol, fallback), factors[..360]);
      && r.Some? && |r.value| == 360
      && r.value[359].close == ForcedClose(raw[358], raw[359], force)
      && forall i :: 0 <= i < 359 ==> r.value[i].close == raw[i]
  {
    assert Trunc(6.0) == 6;
    var raw := RawCloses(BasePrice(symbol, fallback), factors[..360]);
    ForcingTouchesOnlyLastClose(raw, force);
    var r := GenerateMockOhlcv(symbol, 60, 6.0, now, fallback, factors, volumeDraws, force);
    MockSeriesShape(symbol, 60, 6.0, now, fallback, factors, volumeDraws, force);
    assert Closes(r.value) == ForcedCloses(raw, force);
    assert forall i :: 0 <= i < 360 ==> r.value[i].close == Closes(r.value)[i];
  }

  /** With a positive base price and positive factors every generated
      close is positive, so the cross rewrites move the gap as intended. */
  lemma MockClosesPositive(base: real, factors: seq<real>)
    requires base > 0.0
    requires forall i :: 0 <= i < |factors| ==> factors[i] > 0.0
    ensures forall i :: 0 <= i < |factors| ==> RawCloses(base, factors)[i] > 0.0
  {
    CumProdPositive(factors);
  }
}
