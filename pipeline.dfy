/** The per-symbol analysis pipeline (fetch, strategy, optional
    commentary, history append), the dashboard that fans it out over a
    comma-separated symbol list, and the HTML table rows it renders.

    Everything a run observes from outside (the market data, the mock
    generator's draws, the strategy's confidence draw, the commentary,
    the clock and the file-system faults) is carried in a RunEnv. */
module Pipeline {
  import opened Values
  import Text
  import Strategy
  import History
  import MockData

  /** get_historical_data(symbol): a price frame or an error dictionary. */
  datatype FetchResult = Frame(bars: seq<Bar>) | FetchError(info: Dict)

  /** generate_trade_comment(signal_data): the text, or the class name of
      the exception it raised. */
  datatype Commentary = Commentary(text: string) | CommentaryRaised(exceptionClass: string)

  /** What one run of the pipeline observes from outside. */
  datatype RunEnv = RunEnv(
    fetched: FetchResult,            // the data agent's answer
    mockNow: int,                    // datetime.now() for the mock dates, in hours
    mockFallback: real,              // random.uniform(100, 500)
    factors: seq<real>,              // np.random.uniform(1 - v, 1 + v, N)
    volumeDraws: seq<nat>,           // np.random.randint(50_000, 500_000, N)
    force: MockData.ForceType,       // random.choices(...)
    draw: nat,                       // random.randint in decide_signal
    commentary: Commentary,          // the AI agent's answer
    lastUpdated: string,             // now, as "%Y-%m-%d %H:%M:%S"
    now: string,                     // now, in ISO format
    today: string,                   // today's date
    fault: History.SaveFault)        // how the history write ends

  /** The mock generator needs one factor and one volume per row. */
  predicate ValidEnv(env: RunEnv) {
    |env.factors| >= 360 && |env.volumeDraws| >= 360
  }

  predicate AllValid(envs: seq<RunEnv>) {
    forall i :: 0 <= i < |envs| ==> ValidEnv(envs[i])
  }

  // ---------------------------------------------------------------------
  // process_asset_pipeline
  // ---------------------------------------------------------------------

  /** Step 1: the mock generator with 60 days at 6 hours, or the data agent. */
  function Fetch(symbol: string, useMockData: bool, env: RunEnv): (f: FetchResult)
    requires ValidEnv(env)
    ensures useMockData ==> f.Frame? && |f.bars| == 360
    ensures !useMockData ==> f == env.fetched
  {
    if useMockData then
      assert MockData.Trunc(6.0) == 6;
      Frame(MockData.GenerateMockOhlcv(symbol, 60, 6.0, env.mockNow, env.mockFallback, env.factors, env.volumeDraws, env.force).value)
    else
      env.fetched
  }

  function DataSource(useMockData: bool): Value {
    Str(if useMockData then "MOCK" else "REAL")
  }

  /** The dictionary returned when the fetch gives an error dictionary. */
  function FetchFailureResult(symbol: string, info: Dict, useMockData: bool, lastUpdated: string): (r: Dict)
    ensures r.Keys == {Key.Symbol, Key.Close, Key.Signal, Key.AI_Confidence, Key.ai_comment, Key.Last_Updated, Key.data_source}
  {
    map[
      Key.Symbol := Str(Text.Upper(symbol)),
      Key.Close := Num(0.0),
      Key.Signal := Str("ERROR"),
      Key.AI_Confidence := Str("0%"),
      Key.ai_comment := Get(info, Key.error, Str("Data Fetch Failed.")),
      Key.Last_Updated := Str(lastUpdated),
      Key.data_source := Str(if useMockData then "MOCK" else "REAL_FAIL")
    ]
  }

  /** The error dictionary marks the error, zeroes the close and the
      confidence, and passes on the fetch's error text or a default. */
  lemma FetchFailureFields(symbol: string, info: Dict, useMockData: bool, lastUpdated: string)
    ensures var r := FetchFailureResult(symbol, info, useMockData, lastUpdated);
      && r[Key.Signal] == Str("ERROR") && r[Key.Close] == Num(0.0) && r[Key.AI_Confidence] == Str("0%")
      && r[Key.Symbol] == Str(Text.Upper(symbol))
      && (Key.error in info ==> r[Key.ai_comment] == info[Key.error])
      && (Key.error !in info ==> r[Key.ai_comment] == Str("Data Fetch Failed."))
      && r[Key.data_source] == Str(if useMockData then "MOCK" else "REAL_FAIL")
  {
  }

  /** Steps 2 and 3: the strategy's dictionary with the symbol, the source
      and, when requested, the commentary or the reason it failed. */
  function Enriched(signal: Dict, symbol: string, useMockData: bool, includeCommentary: bool, commentary: Commentary): Dict {
    var base := signal[Key.Symbol := Str(Text.Upper(symbol))][Key.data_source := DataSource(useMockData)];
    if !includeCommentary then base
    else match commentary
      case Commentary(text) => base[Key.llm_commentary := Str(text)]
      case CommentaryRaised(cls) => base[Key.llm_commentary_error := Str("LLM generation failed: " + cls)]
  }

  /** The dictionary a run returns once the fetch has answered. */
  function Outcome(fetched: FetchResult, symbol: string, useMockData: bool, includeCommentary: bool, env: RunEnv): Dict {
    match fetched
    case FetchError(info) => FetchFailureResult(symbol, info, useMockData, env.lastUpdated)
    case Frame(bars) => Enriched(Strategy.GenerateLatestSignal(bars, env.draw), symbol, useMockData, includeCommentary, env.commentary)
  }

  /** The dictionary process_asset_pipeline returns. */
  function PipelineResult(symbol: string, useMockData: bool, includeCommentary: bool, env: RunEnv): Dict
    requires ValidEnv(env)
  {
    Outcome(Fetch(symbol, useMockData, env), symbol, useMockData, includeCommentary, env)
  }

  /** The history file and its temporary companion. */
  datatype Disk = Disk(file: History.StoredFile, temp: History.StoredFile)

  /** The record a successful run appends, built from the returned dictionary. */
  function HistoryEntry(fetched: FetchResult, symbol: string, useMockData: bool, includeCommentary: bool, env: RunEnv): History.Record {
    History.ProcessLatestSignal(Text.Upper(symbol), Outcome(fetched, symbol, useMockData, includeCommentary, env), env.now, env.today)
  }

  /** The disk once the fetch has answered: untouched when it failed,
      otherwise after saving the run's history entry. */
  function DiskAfter(fetched: FetchResult, d: Disk, symbol: string, useMockData: bool, includeCommentary: bool, env: RunEnv): Disk {
    if fetched.FetchError? then d
    else
      var entry := HistoryEntry(fetched, symbol, useMockData, includeCommentary, env);
      Disk(History.AfterSave(d.file, entry, env.fault), History.TempAfterSave(d.file, d.temp, entry, env.fault))
  }

  /** The disk after one run. */
  function DiskAfterRun(d: Disk, symbol: string, useMockData: bool, includeCommentary: bool, env: RunEnv): Disk
    requires ValidEnv(env)
  {
    DiskAfter(Fetch(symbol, useMockData, env), d, symbol, useMockData, includeCommentary, env)
  }

  /** The disk after runs for several symbols, one after the other. */
  function DiskAfterRuns(d: Disk, symbols: seq<string>, useMockData: bool, includeCommentary: bool, envs: seq<RunEnv>): Disk
    requires |envs| == |symbols| && AllValid(envs)
  {
    if symbols == [] then d
    else
      var n := |symbols| - 1;
      DiskAfterRun(DiskAfterRuns(d, symbols[..n], useMockData, includeCommentary, envs[..n]), symbols[n], useMockData, includeCommentary, envs[n])
  }

  /** Running one more symbol extends the disk history of a prefix by one run. */
  lemma DiskAfterRunsStep(d: Disk, symbols: seq<string>, useMockData: bool, includeCommentary: bool, envs: seq<RunEnv>, i: nat)
    requires |envs| == |symbols| && AllValid(envs) && i < |symbols|
    ensures DiskAfterRuns(d, symbols[..i + 1], useMockData, includeCommentary, envs[..i + 1])
         == DiskAfterRun(DiskAfterRuns(d, symbols[..i], useMockData, includeCommentary, envs[..i]),
                         symbols[i], useMockData, includeCommentary, envs[i])
  {
    assert symbols[..i + 1][..i] == symbols[..i];
    assert envs[..i + 1][..i] == envs[..i];
  }

  /** process_asset_pipeline(symbol, use_mock_data, include_commentary):
      fetch; on an error dictionary return at once; otherwise run the
      strategy, add the symbol, the source and the optional commentary to
      its dictionary, append one history record built from it, and return it. */
  method ProcessAssetPipeline(store: History.HistoryStore, symbol: string, useMockData: bool, includeCommentary: bool, env: RunEnv)
    returns (result: Dict)
    requires ValidEnv(env)
    modifies store
    ensures result == PipelineResult(symbol, useMockData, includeCommentary, env)
    ensures Disk(store.file, store.temp) == DiskAfterRun(Disk(old(store.file), old(store.temp)), symbol, useMockData, includeCommentary, env)
  {
    var fetched := Fetch(symbol, useMockData, env);
    if fetched.FetchError? {
      return FetchFailureResult(symbol, fetched.info, useMockData, env.lastUpdated);
    }
    var signalData := Strategy.GenerateLatestSignal(fetched.bars, env.draw);
    var symbolUpper := Text.Upper(symbol);
    signalData := signalData[Key.Symbol := Str(symbolUpper)];
    signalData := signalData[Key.data_source := DataSource(useMockData)];
    if includeCommentary {
      match env.commentary {
        case Commentary(text) =>
          signalData := signalData[Key.llm_commentary := Str(text)];
        case CommentaryRaised(cls) =>
          signalData := signalData[Key.llm_commentary_error := Str("LLM generation failed: " + cls)];
      }
    }
    assert signalData == Outcome(fetched, symbol, useMockData, includeCommentary, env);
    var entry := History.ProcessLatestSignal(symbolUpper, signalData, env.now, env.today);
    store.SaveHistoryEntry(entry, env.fault);
    result := signalData;
  }

  /** A failed fetch gives the error dictionary and writes no history. */
  lemma FetchFailureWritesNothing(info: Dict, d: Disk, symbol: string, useMockData: bool, includeCommentary: bool, env: RunEnv)
    ensures Outcome(FetchError(info), symbol, useMockData, includeCommentary, env)
         == FetchFailureResult(symbol, info, useMockData, env.lastUpdated)
    ensures DiskAfter(FetchError(info), d, symbol, useMockData, includeCommentary, env) == d
  {
  }

  /** The strategy's dictionary gains the upper-cased symbol and the
      source, and the commentary or the failure note when commentary was
      requested; every other key keeps its value. */
  lemma EnrichedFields(signal: Dict, symbol: string, useMockData: bool, includeCommentary: bool, commentary: Commentary)
    ensures var r := Enriched(signal, symbol, useMockData, includeCommentary, commentary);
      && r[Key.Symbol] == Str(Text.Upper(symbol))
      && r[Key.data_source] == DataSource(useMockData)
      && (forall k :: k in signal && k !in {Key.Symbol, Key.data_source, Key.llm_commentary, Key.llm_commentary_error}
            ==> k in r && r[k] == signal[k])
      && (includeCommentary && commentary.Commentary? ==> r[Key.llm_commentary] == Str(commentary.text))
      && (includeCommentary && commentary.CommentaryRaised? ==>
            r[Key.llm_commentary_error] == Str("LLM generation failed: " + commentary.exceptionClass))
  {
  }

  /** The keys added: the symbol and the source always, the commentary or
      the failure note exactly when commentary was requested. */
  lemma EnrichedKeys(signal: Dict, symbol: string, useMockData: bool, includeCommentary: bool, commentary: Commentary)
    ensures Enriched(signal, symbol, useMockData, includeCommentary, commentary).Keys
         == signal.Keys + {Key.Symbol, Key.data_source}
            + (if !includeCommentary then {}
               else if commentary.Commentary? then {Key.llm_commentary}
               else {Key.llm_commentary_error})
  {
  }

  /** The strategy never writes the keys the pipeline adds, nor `Signal`
      or `Close`. */
  lemma SignalKeysFree(bars: seq<Bar>, draw: nat)
    ensures var signal := Strategy.GenerateLatestSignal(bars, draw);
      && Key.Symbol !in signal && Key.data_source !in signal && Key.Signal !in signal && Key.Close !in signal
      && Key.llm_commentary !in signal && Key.llm_commentary_error !in signal
  {
    if |bars| < Strategy.SmaLongPeriod {
    } else {
    }
  }

  /** A run whose fetch gave a frame returns the strategy's dictionary
      with the upper-cased symbol and its source added. */
  lemma SuccessfulRun(bars: seq<Bar>, symbol: string, useMockData: bool, includeCommentary: bool, env: RunEnv)
    ensures var signal := Strategy.GenerateLatestSignal(bars, env.draw);
      var r := Outcome(Frame(bars), symbol, useMockData, includeCommentary, env);
      && r[Key.Symbol] == Str(Text.Upper(symbol))
      && r[Key.data_source] == DataSource(useMockData)
      && (forall k :: k in signal ==> k in r && r[k] == signal[k])
  {
    SignalKeysFree(bars, env.draw);
    EnrichedFields(Strategy.GenerateLatestSignal(bars, env.draw), symbol, useMockData, includeCommentary, env.commentary);
  }

  /** Its dictionary carries no `Signal` and no `Close` key, and it carries the
      commentary or the failure note exactly when commentary was
      requested. */
  lemma SuccessfulRunCommentary(bars: seq<Bar>, symbol: string, useMockData: bool, includeCommentary: bool, env: RunEnv)
    ensures var r := Outcome(Frame(bars), symbol, useMockData, includeCommentary, env);
      && Key.Signal !in r && Key.Close !in r
      && (Key.llm_commentary in r <==> includeCommentary && env.commentary.Commentary?)
      && (Key.llm_commentary_error in r <==> includeCommentary && env.commentary.CommentaryRaised?)
  {
    var signal := Strategy.GenerateLatestSignal(bars, env.draw);
    SignalKeysFree(bars, env.draw);
    EnrichedKeys(signal, symbol, useMockData, includeCommentary, env.commentary);
  }

  /** The returned dictionary marks an error exactly when the fetch failed;
      the mock path never does. */
  lemma ErrorOnlyOnFetchFailure(fetched: FetchResult, symbol: string, useMockData: bool, includeCommentary: bool, env: RunEnv)
    ensures var r := Outcome(fetched, symbol, useMockData, includeCommentary, env);
      (Key.Signal in r && r[Key.Signal] == Str("ERROR")) <==> fetched.FetchError?
  {
    if fetched.Frame? {
      SuccessfulRunCommentary(fetched.bars, symbol, useMockData, includeCommentary, env);
    }
  }

  /** The mock path never reports an error. */
  lemma MockRunNeverFails(symbol: string, includeCommentary: bool, env: RunEnv)
    requires ValidEnv(env)
    ensures Key.Signal !in PipelineResult(symbol, true, includeCommentary, env)
  {
    SuccessfulRunCommentary(Fetch(symbol, true, env).bars, symbol, true, includeCommentary, env);
  }

  /** A successful run appends exactly one record, the one built from the
      returned dictionary, to a readable history of text timestamps. */
  lemma SuccessfulRunAppends(bars: seq<Bar>, d: Disk, symbol: string, useMockData: bool, includeCommentary: bool, env: RunEnv)
    requires env.fault == History.NoFault
    requires History.AllTextKeys(History.Decoded(d.file))
    ensures var entry := HistoryEntry(Frame(bars), symbol, useMockData, includeCommentary, env);
      var after := DiskAfter(Frame(bars), d, symbol, useMockData, includeCommentary, env);
      && after.file.Saved?
      && multiset(after.file.records) == multiset(History.Decoded(d.file)) + multiset{entry}
      && History.Sorted(History.TimestampKey, after.file.records)
      && after.temp == History.Missing
      && entry[Key.symbol] == Str(Text.Upper(symbol))
      && entry[Key.timestamp] == Str(env.now)
  {
    var entry := HistoryEntry(Frame(bars), symbol, useMockData, includeCommentary, env);
    History.RecordFieldsDefaulted(Text.Upper(symbol), Outcome(Frame(bars), symbol, useMockData, includeCommentary, env), env.now, env.today);
    History.SaveAppendsInOrder(d.file, entry);
  }

  // ---------------------------------------------------------------------
  // Symbol parsing
  // ---------------------------------------------------------------------

  /** [f(x) for x in xs], each f(x) contributing zero or more items. */
  function FlatMap<T, U>(f: T -> seq<U>, xs: seq<T>): seq<U> {
    if xs == [] then [] else FlatMap(f, xs[..|xs| - 1]) + f(xs[|xs| - 1])
  }

  lemma {:induction false} FlatMapAppend<T, U>(f: T -> seq<U>, a: seq<T>, b: seq<T>)
    ensures FlatMap(f, a + b) == FlatMap(f, a) + FlatMap(f, b)
  {
    if b == [] {
      assert a + b == a;
    } else {
      FlatMapAppend(f, a, b[..|b| - 1]);
      assert (a + b)[..|a + b| - 1] == a + b[..|b| - 1];
    }
  }

  /** What one piece contributes: its stripped, upper-cased text, or
      nothing when it is blank. */
  function ParseItem(piece: string): seq<string> {
    var s := Text.Strip(piece);
    if s != [] then [Text.Upper(s)] else []
  }

  /** [s.strip().upper() for s in pieces if s.strip()]. */
  function ParseSymbols(pieces: seq<string>): seq<string> {
    FlatMap(ParseItem, pieces)
  }

  /** A parsed symbol: non-empty, upper case, no surrounding white space,
      no comma. */
  predicate IsSymbol(s: string) {
    && s != []
    && !Text.IsSpace(s[0]) && !Text.IsSpace(s[|s| - 1])
    && Text.Upper(s) == s
    && forall k :: 0 <= k < |s| ==> s[k] != ','
  }

  lemma ParseItemIsSymbol(piece: string)
    requires forall k :: 0 <= k < |piece| ==> piece[k] != ','
    ensures |ParseItem(piece)| <= 1
    ensures ParseItem(piece) != [] ==> IsSymbol(ParseItem(piece)[0])
  {
    var s := Text.Strip(piece);
    if s != [] {
      var u := Text.Upper(s);
      Text.UpperIdempotent(s);
      forall k | 0 <= k < |u| ensures u[k] != ',' {
        assert s[k] in s;
      }
    }
  }

  lemma ParseItemOfSymbol(s: string)
    requires IsSymbol(s)
    ensures ParseItem(s) == [s]
  {
    Text.StripOfTrimmed(s);
  }

  /** A property every item's image has holds of the whole flat map. */
  lemma {:induction false} FlatMapAll<T>(f: T -> seq<T>, xs: seq<T>, p: T -> bool)
    requires forall i, j :: 0 <= i < |xs| && 0 <= j < |f(xs[i])| ==> p(f(xs[i])[j])
    ensures forall i :: 0 <= i < |FlatMap(f, xs)| ==> p(FlatMap(f, xs)[i])
  {
    if xs != [] {
      var n := |xs| - 1;
      assert forall i, j :: 0 <= i < n && 0 <= j < |f(xs[..n][i])| ==> p(f(xs[..n][i])[j]) by {
        forall i, j | 0 <= i < n && 0 <= j < |f(xs[..n][i])| ensures p(f(xs[..n][i])[j]) {
          assert xs[..n][i] == xs[i];
        }
      }
      FlatMapAll(f, xs[..n], p);
      var front := FlatMap(f, xs[..n]);
      var last := f(xs[n]);
      assert FlatMap(f, xs) == front + last;
      forall i | 0 <= i < |front + last| ensures p((front + last)[i]) {
        if i < |front| {
          assert (front + last)[i] == front[i];
        } else {
          assert (front + last)[i] == last[i - |front|];
        }
      }
    }
  }

  lemma ParsedAreSymbols(pieces: seq<string>)
    requires forall i, k :: 0 <= i < |pieces| && 0 <= k < |pieces[i]| ==> pieces[i][k] != ','
    ensures forall i :: 0 <= i < |ParseSymbols(pieces)| ==> IsSymbol(ParseSymbols(pieces)[i])
  {
    forall i, j | 0 <= i < |pieces| && 0 <= j < |ParseItem(pieces[i])| ensures IsSymbol(ParseItem(pieces[i])[j]) {
      ParseItemIsSymbol(pieces[i]);
    }
    FlatMapAll(ParseItem, pieces, IsSymbol);
  }

  /** When every item maps to itself alone, the flat map is the identity. */
  lemma {:induction false} FlatMapOfSingletons<T>(f: T -> seq<T>, xs: seq<T>)
    requires forall i :: 0 <= i < |xs| ==> f(xs[i]) == [xs[i]]
    ensures FlatMap(f, xs) == xs
  {
    if xs != [] {
      var n := |xs| - 1;
      FlatMapOfSingletons(f, xs[..n]);
      assert xs[..n] + [xs[n]] == xs;
    }
  }

  lemma ParseOfSymbols(items: seq<string>)
    requires forall i :: 0 <= i < |items| ==> IsSymbol(items[i])
    ensures ParseSymbols(items) == items
  {
    forall i | 0 <= i < |items| ensures ParseItem(items[i]) == [items[i]] {
      ParseItemOfSymbol(items[i]);
    }
    FlatMapOfSingletons(ParseItem, items);
  }

  /** The symbol list of a comma-separated request parameter. */
  function SymbolList(symbols: string): seq<string> {
    ParseSymbols(Text.Split(symbols, ','))
  }

  /** Every parsed symbol is non-empty, upper case, stripped and comma-free. */
  lemma SymbolListAreSymbols(symbols: string)
    ensures forall i :: 0 <= i < |SymbolList(symbols)| ==> IsSymbol(SymbolList(symbols)[i])
  {
    ParsedAreSymbols(Text.Split(symbols, ','));
  }

  /** The list keeps the request's order: the symbols of "a,b" are those
      of a followed by those of b. */
  lemma SymbolListConcat(a: string, b: string)
    ensures SymbolList(a + [','] + b) == SymbolList(a) + SymbolList(b)
  {
    Text.SplitAppend(a, b, ',');
    FlatMapAppend(ParseItem, Text.Split(a, ','), Text.Split(b, ','));
  }

  lemma SymbolListOfEmpty()
    ensures SymbolList([]) == []
  {
    assert Text.Split([], ',') == [[]];
    assert ParseSymbols([[]]) == ParseItem([]) + ParseSymbols([]);
  }

  /** Joining symbols with commas and parsing gives them back. */
  lemma {:induction false} SymbolListOfJoin(items: seq<string>)
    requires forall i :: 0 <= i < |items| ==> IsSymbol(items[i])
    ensures SymbolList(Text.Join(items, ',')) == items
  {
    if items == [] {
      assert Text.Join(items, ',') == [];
      SymbolListOfEmpty();
    } else {
      assert forall i, k :: 0 <= i < |items| && 0 <= k < |items[i]| ==> items[i][k] != ',' by {
        forall i, k | 0 <= i < |items| && 0 <= k < |items[i]| ensures items[i][k] != ',' {
          assert IsSymbol(items[i]);
        }
      }
      Text.SplitJoin(items, ',');
      ParseOfSymbols(items);
    }
  }

  /** Parsing is idempotent: parsing the comma-joined list gives it back. */
  lemma SymbolListIdempotent(symbols: string)
    ensures SymbolList(Text.Join(SymbolList(symbols), ',')) == SymbolList(symbols)
  {
    SymbolListAreSymbols(symbols);
    SymbolListOfJoin(SymbolList(symbols));
  }

  /** A single item is its own stripped, upper-cased text, or nothing when
      it is blank. */
  lemma SymbolListOfOne(s: string)
    requires forall k :: 0 <= k < |s| ==> s[k] != ','
    ensures Text.Strip(s) == [] ==> SymbolList(s) == []
    ensures Text.Strip(s) != [] ==> SymbolList(s) == [Text.Upper(Text.Strip(s))]
  {
    Text.SplitPiece(s, ',');
    assert ParseSymbols([s]) == ParseItem(s) + ParseSymbols([]);
  }

  // ---------------------------------------------------------------------
  // The HTML table
  // ---------------------------------------------------------------------

  datatype Color = Green | Red | Gray

  /** dict.get(key): None when absent. */
  function Lookup(d: Dict, key: Key): (r: Option<Value>)
    ensures r.Some? <==> key in d
  {
    if key in d then Some(d[key]) else None
  }

  /** get_color(signal). */
  function GetColor(signal: Option<Value>): (c: Color)
    ensures c == Green <==> signal == Some(Str("BUY"))
    ensures c == Red <==> signal == Some(Str("SELL"))
    ensures c == Gray <==> signal != Some(Str("BUY")) && signal != Some(Str("SELL"))
  {
    if signal == Some(Str("BUY")) then Green
    else if signal == Some(Str("SELL")) then Red
    else Gray
  }

  /** Python's `a or b`. */
  function Or(a: Value, b: Value): (r: Value)
    ensures Truthy(a) ==> r == a
    ensures !Truthy(a) ==> r == b
  {
    if Truthy(a) then a else b
  }

  /** The cells of one table row. */
  datatype Row = Row(symbol: Value, close: Value, colorClass: Color, signal: Value, confidence: Value,
                     rationale: Value, llmText: Value, source: Value)

  /** The row for one result, every missing field taking its default. */
  function RowOf(d: Dict): Row {
    Row(
      Get(d, Key.Symbol, Str("N/A")),
      Get(d, Key.Close, Str("N/A")),
      GetColor(Lookup(d, Key.Signal)),
      Get(d, Key.Signal, Str("HOLD")),
      Get(d, Key.AI_Confidence, Str("0%")),
      Get(d, Key.ai_comment, Str("No Comment")),
      Or(Or(Get(d, Key.llm_commentary, Str("")), Get(d, Key.llm_commentary_error, Str(""))), Str("N/A (Not Requested)")),
      Get(d, Key.data_source, Str("N/A")))
  }

  /** The LLM cell shows a non-empty commentary, else a non-empty failure
      note, else says it was not requested. */
  lemma LlmCell(d: Dict)
    ensures var commentary := Get(d, Key.llm_commentary, Str(""));
      var failure := Get(d, Key.llm_commentary_error, Str(""));
      var cell := RowOf(d).llmText;
      && (Truthy(commentary) ==> cell == commentary)
      && (!Truthy(commentary) && Truthy(failure) ==> cell == failure)
      && (!Truthy(commentary) && !Truthy(failure) ==> cell == Str("N/A (Not Requested)"))
  {
  }

  /** generate_html_template(results): one row per result, in order. */
  method GenerateHtmlTemplate(results: seq<Dict>) returns (rows: seq<Row>)
    ensures |rows| == |results|
    ensures forall i :: 0 <= i < |results| ==> rows[i] == RowOf(results[i])
  {
    rows := [];
    for i := 0 to |results|
      invariant |rows| == i
      invariant forall j :: 0 <= j < i ==> rows[j] == RowOf(results[j])
    {
      rows := rows + [RowOf(results[i])];
    }
  }

  /** The row of a pipeline result. A failed fetch shows ERROR and a zero
      close. A successful run has no `Signal` key, so its signal cell
      falls back to HOLD whatever the strategy decided, and no `Close`
      key, so its close cell reads N/A. Either way the row is gray. */
  lemma RowOfOutcome(fetched: FetchResult, symbol: string, useMockData: bool, includeCommentary: bool, env: RunEnv)
    ensures var row := RowOf(Outcome(fetched, symbol, useMockData, includeCommentary, env));
      && row.colorClass == Gray
      && row.symbol == Str(Text.Upper(symbol))
      && (fetched.FetchError? ==> row.signal == Str("ERROR") && row.close == Num(0.0) && row.confidence == Str("0%"))
      && (fetched.Frame? ==> row.signal == Str("HOLD") && row.close == Str("N/A") && row.source == DataSource(useMockData))
  {
    if fetched.Frame? {
      SuccessfulRun(fetched.bars, symbol, useMockData, includeCommentary, env);
      SuccessfulRunCommentary(fetched.bars, symbol, useMockData, includeCommentary, env);
    }
  }

  /** asyncio.gather over the symbols, taken as a sequential,
      order-preserving map: one pipeline run per symbol, in order. */
  method RunAll(store: History.HistoryStore, symbolList: seq<string>, useMockData: bool, includeCommentary: bool,
                envs: seq<RunEnv>) returns (results: seq<Dict>)
    requires |envs| == |symbolList| && AllValid(envs)
    modifies store
    ensures |results| == |symbolList|
    ensures forall i :: 0 <= i < |results| ==>
      results[i] == PipelineResult(symbolList[i], useMockData, includeCommentary, envs[i])
    ensures Disk(store.file, store.temp)
         == DiskAfterRuns(Disk(old(store.file), old(store.temp)), symbolList, useMockData, includeCommentary, envs)
  {
    results := [];
    var start := Disk(store.file, store.temp);
    for i := 0 to |symbolList|
      invariant |results| == i
      invariant forall j :: 0 <= j < i ==> results[j] == PipelineResult(symbolList[j], useMockData, includeCommentary, envs[j])
      invariant Disk(store.file, store.temp) == DiskAfterRuns(start, symbolList[..i], useMockData, includeCommentary, envs[..i])
    {
      var result := ProcessAssetPipeline(store, symbolList[i], useMockData, includeCommentary, envs[i]);
      DiskAfterRunsStep(start, symbolList, useMockData, includeCommentary, envs, i);
      ghost var prior := results;
      results := results + [result];
      forall j | 0 <= j < i + 1
        ensures results[j] == PipelineResult(symbolList[j], useMockData, includeCommentary, envs[j])
      {
        if j < i {
          assert results[j] == prior[j];
        }
      }
    }
    assert symbolList[..|symbolList|] == symbolList;
    assert envs[..|envs|] == envs;
  }

  /** generate_dashboard_html(symbols, ...): one pipeline run per parsed
      symbol, in order, then the table of their results. */
  method GenerateDashboardHtml(store: History.HistoryStore, symbols: string, useMockData: bool, includeCommentary: bool,
                               envs: seq<RunEnv>) returns (rows: seq<Row>)
    requires |envs| == |SymbolList(symbols)| && AllValid(envs)
    modifies store
    ensures |rows| == |SymbolList(symbols)|
    ensures forall i :: 0 <= i < |rows| ==>
      rows[i] == RowOf(PipelineResult(SymbolList(symbols)[i], useMockData, includeCommentary, envs[i]))
    ensures Disk(store.file, store.temp)
         == DiskAfterRuns(Disk(old(store.file), old(store.temp)), SymbolList(symbols), useMockData, includeCommentary, envs)
  {
    var symbolList := SymbolList(symbols);
    var results := RunAll(store, symbolList, useMockData, includeCommentary, envs);
    rows := GenerateHtmlTemplate(results);
  }

  /** Every row of the dashboard is gray. */
  lemma DashboardAllGray(symbols: string, useMockData: bool, includeCommentary: bool, envs: seq<RunEnv>)
    requires |envs| == |SymbolList(symbols)| && AllValid(envs)
    ensures forall i :: 0 <= i < |envs| ==>
      RowOf(PipelineResult(SymbolList(symbols)[i], useMockData, includeCommentary, envs[i])).colorClass == Gray
  {
    forall i | 0 <= i < |envs|
      ensures RowOf(PipelineResult(SymbolList(symbols)[i], useMockData, includeCommentary, envs[i])).colorClass == Gray
    {
      RowOfOutcome(Fetch(SymbolList(symbols)[i], useMockData, envs[i]), SymbolList(symbols)[i], useMockData, includeCommentary, envs[i]);
    }
  }
}
