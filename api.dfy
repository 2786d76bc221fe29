/** The HTTP endpoints' request validation and error mapping: the single
    and batch analyses, the feedback and threat-intelligence utilities and
    the history export. A raised HTTPException is an HttpError response.

    What the endpoints observe from outside (whether the single analysis
    timed out, which batch runs raised, the answers of the LLM and the
    threat-intelligence agents) is passed in as parameters. */
module Api {
  import opened Values
  import Text
  import History
  import Pipeline

  /** An endpoint's answer: a JSON object, the batch {"symbols": [...]},
      a file download of the history, or an HTTP error with its detail. */
  datatype Response =
    | Json(body: Dict)
    | Batch(symbols: seq<Dict>)
    | Download(format: ExportFormat, records: seq<History.Record>)
    | HttpError(status: int, detail: Value)
    | Uncaught  // an exception the endpoint lets escape: the framework's bare 500

  datatype ExportFormat = Csv | Xlsx

  /** DEFAULT_TIMEOUT_SECONDS, and the detail of the 504 it leads to. */
  const DefaultTimeoutSeconds: nat := 15
  const TimeoutDetail: string := "Analysis timed out after 15 seconds."

  // ---------------------------------------------------------------------
  // analyze_single_asset
  // ---------------------------------------------------------------------

  /** symbol.strip().upper(). */
  function NormalizedSymbol(symbol: string): string {
    Text.Upper(Text.Strip(symbol))
  }

  /** The answer once the pipeline has returned `data`: a 500 carrying its
      comment when it marks an error, otherwise the data itself. */
  function SingleResponse(data: Dict): Response {
    if Pipeline.Lookup(data, Key.Signal) == Some(Str("ERROR"))
    then HttpError(500, Get(data, Key.ai_comment, Str("Internal error during analysis.")))
    else Json(data)
  }

  /** analyze_single_asset(symbol, include_commentary, use_mock_data). A
      timed-out analysis is taken to have stopped before it changed
      anything. */
  method AnalyzeSingleAsset(store: History.HistoryStore, symbol: string, includeCommentary: bool, useMockData: bool,
                            env: Pipeline.RunEnv, timedOut: bool) returns (resp: Response)
    requires Pipeline.ValidEnv(env)
    modifies store
    ensures timedOut ==> resp == HttpError(504, Str(TimeoutDetail)) && store.file == old(store.file) && store.temp == old(store.temp)
    ensures !timedOut ==>
      && resp == SingleResponse(Pipeline.PipelineResult(NormalizedSymbol(symbol), useMockData, includeCommentary, env))
      && Pipeline.Disk(store.file, store.temp)
         == Pipeline.DiskAfterRun(Pipeline.Disk(old(store.file), old(store.temp)), NormalizedSymbol(symbol),
                                  useMockData, includeCommentary, env)
  {
    var normalized := NormalizedSymbol(symbol);
    if timedOut {
      return HttpError(504, Str(TimeoutDetail));
    }
    var data := Pipeline.ProcessAssetPipeline(store, normalized, useMockData, includeCommentary, env);
    if Pipeline.Lookup(data, Key.Signal) == Some(Str("ERROR")) {
      return HttpError(500, Get(data, Key.ai_comment, Str("Internal error during analysis.")));
    }
    return Json(data);
  }

  /** A completed single analysis fails exactly when the fetch failed, with
      status 500 and the fetch's error text (or the pipeline's default for
      it); otherwise it returns the pipeline's dictionary unchanged. The
      endpoint's own default comment is never used. */
  lemma SingleOutcomes(fetched: Pipeline.FetchResult, symbol: string, useMockData: bool, includeCommentary: bool,
                       env: Pipeline.RunEnv)
    ensures var data := Pipeline.Outcome(fetched, symbol, useMockData, includeCommentary, env);
      var resp := SingleResponse(data);
      && (resp.HttpError? <==> fetched.FetchError?)
      && (fetched.FetchError? ==>
            resp == HttpError(500, Get(fetched.info, Key.error, Str("Data Fetch Failed."))))
      && (fetched.Frame? ==> resp == Json(data))
  {
    Pipeline.ErrorOnlyOnFetchFailure(fetched, symbol, useMockData, includeCommentary, env);
    if fetched.FetchError? {
      Pipeline.FetchFailureFields(symbol, fetched.info, useMockData, env.lastUpdated);
    }
  }

  /** The pipeline sees the normalized symbol; normalizing it again
      changes nothing, so the pipeline's own upper-casing is harmless. */
  lemma NormalizedSymbolStable(symbol: string)
    ensures Text.Upper(NormalizedSymbol(symbol)) == NormalizedSymbol(symbol)
  {
    Text.UpperIdempotent(Text.Strip(symbol));
  }

  // ---------------------------------------------------------------------
  // analyze_multi_asset
  // ---------------------------------------------------------------------

  /** The dictionary run_single_analysis returns when the pipeline raises. */
  function IsolatedError(symbol: string): (d: Dict)
    ensures d.Keys == {Key.Symbol, Key.Signal, Key.AI_Confidence, Key.ai_comment}
  {
    map[Key.Symbol := Str(symbol), Key.Signal := Str("ERROR"), Key.AI_Confidence := Str("0%"),
        Key.ai_comment := Str("Analysis failed or timed out.")]
  }

  /** run_single_analysis(symbol): the pipeline's dictionary, or the
      isolated error when that run raised. */
  function RunSingleAnalysis(symbol: string, useMockData: bool, includeCommentary: bool, env: Pipeline.RunEnv, raised: bool): Dict
    requires Pipeline.ValidEnv(env)
  {
    if raised then IsolatedError(symbol) else Pipeline.PipelineResult(symbol, useMockData, includeCommentary, env)
  }

  /** The disk after the batch's runs; a run that raised is taken to have
      raised before it changed anything. */
  function DiskAfterBatch(d: Pipeline.Disk, symbols: seq<string>, useMockData: bool, includeCommentary: bool,
                          envs: seq<Pipeline.RunEnv>, raised: seq<bool>): Pipeline.Disk
    requires |envs| == |symbols| && |raised| == |symbols| && Pipeline.AllValid(envs)
  {
    if symbols == [] then d
    else
      var n := |symbols| - 1;
      var before := DiskAfterBatch(d, symbols[..n], useMockData, includeCommentary, envs[..n], raised[..n]);
      if raised[n] then before else Pipeline.DiskAfterRun(before, symbols[n], useMockData, includeCommentary, envs[n])
  }

  lemma DiskAfterBatchStep(d: Pipeline.Disk, symbols: seq<string>, useMockData: bool, includeCommentary: bool,
                           envs: seq<Pipeline.RunEnv>, raised: seq<bool>, i: nat)
    requires |envs| == |symbols| && |raised| == |symbols| && Pipeline.AllValid(envs) && i < |symbols|
    ensures var before := DiskAfterBatch(d, symbols[..i], useMockData, includeCommentary, envs[..i], raised[..i]);
      DiskAfterBatch(d, symbols[..i + 1], useMockData, includeCommentary, envs[..i + 1], raised[..i + 1])
      == if raised[i] then before else Pipeline.DiskAfterRun(before, symbols[i], useMockData, includeCommentary, envs[i])
  {
    assert symbols[..i + 1][..i] == symbols[..i];
    assert envs[..i + 1][..i] == envs[..i];
    assert raised[..i + 1][..i] == raised[..i];
  }

  /** One guarded run: the pipeline's answer and its history write, or the
      isolated error and no write when the run raised. */
  method RunIsolated(store: History.HistoryStore, symbol: string, useMockData: bool, includeCommentary: bool,
                     env: Pipeline.RunEnv, raised: bool) returns (data: Dict)
    requires Pipeline.ValidEnv(env)
    modifies store
    ensures data == RunSingleAnalysis(symbol, useMockData, includeCommentary, env, raised)
    ensures raised ==> store.file == old(store.file) && store.temp == old(store.temp)
    ensures !raised ==>
      Pipeline.Disk(store.file, store.temp)
        == Pipeline.DiskAfterRun(Pipeline.Disk(old(store.file), old(store.temp)), symbol, useMockData, includeCommentary, env)
  {
    if raised {
      data := IsolatedError(symbol);
    } else {
      data := Pipeline.ProcessAssetPipeline(store, symbol, useMockData, includeCommentary, env);
    }
  }

  /** The gathered runs, in order; each run's failure stays its own. */
  method GatherIsolated(store: History.HistoryStore, symbolList: seq<string>, useMockData: bool, includeCommentary: bool,
                        envs: seq<Pipeline.RunEnv>, raised: seq<bool>) returns (results: seq<Dict>)
    requires |envs| == |symbolList| && |raised| == |symbolList| && Pipeline.AllValid(envs)
    modifies store
    ensures |results| == |symbolList|
    ensures forall i :: 0 <= i < |results| ==>
      results[i] == RunSingleAnalysis(symbolList[i], useMockData, includeCommentary, envs[i], raised[i])
    ensures Pipeline.Disk(store.file, store.temp)
         == DiskAfterBatch(Pipeline.Disk(old(store.file), old(store.temp)), symbolList, useMockData, includeCommentary, envs, raised)
  {
    results := [];
    var start := Pipeline.Disk(store.file, store.temp);
    for i := 0 to |symbolList|
      invariant |results| == i
      invariant forall j :: 0 <= j < i ==>
        results[j] == RunSingleAnalysis(symbolList[j], useMockData, includeCommentary, envs[j], raised[j])
      invariant Pipeline.Disk(store.file, store.temp)
             == DiskAfterBatch(start, symbolList[..i], useMockData, includeCommentary, envs[..i], raised[..i])
    {
      var data := RunIsolated(store, symbolList[i], useMockData, includeCommentary, envs[i], raised[i]);
      DiskAfterBatchStep(start, symbolList, useMockData, includeCommentary, envs, raised, i);
      ghost var prior := results;
      results := results + [data];
      forall j | 0 <= j < i + 1
        ensures results[j] == RunSingleAnalysis(symbolList[j], useMockData, includeCommentary, envs[j], raised[j])
      {
        if j < i {
          assert results[j] == prior[j];
        }
      }
    }
    assert symbolList[..|symbolList|] == symbolList;
    assert envs[..|envs|] == envs;
    assert raised[..|raised|] == raised;
  }

  /** analyze_multi_asset(symbols, include_commentary, use_mock_data): 400
      when no symbol is left after parsing, otherwise one entry per parsed
      symbol, in order. */
  method AnalyzeMultiAsset(store: History.HistoryStore, symbols: string, includeCommentary: bool, useMockData: bool,
                           envs: seq<Pipeline.RunEnv>, raised: seq<bool>) returns (resp: Response)
    requires |envs| == |Pipeline.SymbolList(symbols)| && |raised| == |envs| && Pipeline.AllValid(envs)
    modifies store
    ensures Pipeline.SymbolList(symbols) == [] ==> resp == HttpError(400, Str("No symbols provided."))
    ensures Pipeline.SymbolList(symbols) != [] ==>
      && resp.Batch?
      && |resp.symbols| == |Pipeline.SymbolList(symbols)|
      && forall i :: 0 <= i < |resp.symbols| ==>
           resp.symbols[i] == RunSingleAnalysis(Pipeline.SymbolList(symbols)[i], useMockData, includeCommentary, envs[i], raised[i])
    ensures Pipeline.Disk(store.file, store.temp)
         == DiskAfterBatch(Pipeline.Disk(old(store.file), old(store.temp)), Pipeline.SymbolList(symbols),
                           useMockData, includeCommentary, envs, raised)
  {
    var symbolList := Pipeline.SymbolList(symbols);
    if symbolList == [] {
      return HttpError(400, Str("No symbols provided."));
    }
    var results := GatherIsolated(store, symbolList, useMockData, includeCommentary, envs, raised);
    return Batch(results);
  }

  /** A batch entry marks an error exactly when its own run raised or its
      own fetch failed; a raised run keeps its symbol. */
  lemma BatchEntryError(symbol: string, useMockData: bool, includeCommentary: bool, env: Pipeline.RunEnv, raised: bool)
    requires Pipeline.ValidEnv(env)
    ensures var d := RunSingleAnalysis(symbol, useMockData, includeCommentary, env, raised);
      && ((Key.Signal in d && d[Key.Signal] == Str("ERROR")) <==> raised || Pipeline.Fetch(symbol, useMockData, env).FetchError?)
      && (raised ==> d[Key.Symbol] == Str(symbol) && d[Key.ai_comment] == Str("Analysis failed or timed out."))
  {
    if raised {
      assert RunSingleAnalysis(symbol, useMockData, includeCommentary, env, raised) == IsolatedError(symbol);
    } else {
      var fetched := Pipeline.Fetch(symbol, useMockData, env);
      assert RunSingleAnalysis(symbol, useMockData, includeCommentary, env, raised)
          == Pipeline.Outcome(fetched, symbol, useMockData, includeCommentary, env);
      Pipeline.ErrorOnlyOnFetchFailure(fetched, symbol, useMockData, includeCommentary, env);
    }
  }

  // ---------------------------------------------------------------------
  // analyze_user_feedback
  // ---------------------------------------------------------------------

  const MinFeedbackLength: nat := 10

  /** analyze_user_feedback(feedback), given what the LLM agent answers. */
  function AnalyzeUserFeedback(feedback: string, analysis: Dict): Response {
    if feedback == [] || |feedback| < MinFeedbackLength
    then HttpError(400, Str("Feedback text must be provided and substantial."))
    else Json(analysis)
  }

  /** Feedback is accepted exactly when it has at least ten characters, in
      which case the agent's answer is returned; lengthening accepted
      feedback keeps it accepted. */
  lemma FeedbackAcceptance(feedback: string, more: string, analysis: Dict)
    ensures AnalyzeUserFeedback(feedback, analysis) == Json(analysis) <==> |feedback| >= 10
    ensures !AnalyzeUserFeedback(feedback, analysis).Json? ==> AnalyzeUserFeedback(feedback, analysis).status == 400
    ensures AnalyzeUserFeedback(feedback, analysis).Json? ==> AnalyzeUserFeedback(feedback + more, analysis).Json?
  {
  }

  // ---------------------------------------------------------------------
  // check_threat_intel
  // ---------------------------------------------------------------------

  datatype CheckType = HashCheck | UrlCheck

  /** check_type.lower(), matched against 'hash' and 'url'. */
  function ParseCheckType(checkType: string): Option<CheckType> {
    var t := Text.Lower(checkType);
    if t == "hash" then Some(HashCheck)
    else if t == "url" then Some(UrlCheck)
    else None
  }

  /** What a VirusTotal report agent gives back: the decoded 200 response,
      or any exception it raises (VTAPIError for a missing API key or any
      other status, and whatever requests.get or .json() raises). */
  datatype AgentAnswer = Report(report: Dict) | Raised

  /** check_threat_intel(check_value, check_type), given what the file and
      the URL report agents answer for check_value. Only the chosen agent
      is called; its VTAPIError is not caught, and a report that carries
      an `error` key is turned into a 500 with that detail. */
  function CheckThreatIntel(checkType: string, fileAnswer: AgentAnswer, urlAnswer: AgentAnswer): Response {
    match ParseCheckType(checkType)
    case None => HttpError(400, Str("Invalid check type. Must be 'hash' or 'url'."))
    case Some(kind) =>
      match (if kind == HashCheck then fileAnswer else urlAnswer)
      case Raised => Uncaught
      case Report(result) =>
        if Key.error in result then HttpError(500, result[Key.error]) else Json(result)
  }

  /** The check type is read case-insensitively. */
  lemma CheckTypeIgnoresCase(checkType: string, fileAnswer: AgentAnswer, urlAnswer: AgentAnswer)
    ensures ParseCheckType(Text.Upper(checkType)) == ParseCheckType(checkType)
    ensures CheckThreatIntel(Text.Upper(checkType), fileAnswer, urlAnswer) == CheckThreatIntel(checkType, fileAnswer, urlAnswer)
  {
    Text.LowerOfUpper(checkType);
  }

  /** An unknown check type is a 400 whatever the agents would say. A
      known one consults exactly its own agent: a raised VTAPIError escapes
      as the framework's 500, a report with an `error` key becomes a 500
      with that detail, and any other report is returned unchanged. */
  lemma ThreatIntelOutcomes(checkType: string, fileAnswer: AgentAnswer, urlAnswer: AgentAnswer)
    ensures var r := CheckThreatIntel(checkType, fileAnswer, urlAnswer);
      var kind := ParseCheckType(checkType);
      var chosen := if kind == Some(HashCheck) then fileAnswer else urlAnswer;
      && (r.HttpError? && r.status == 400 <==> kind.None?)
      && (kind == Some(HashCheck) ==> r == CheckThreatIntel(checkType, fileAnswer, Raised))
      && (kind == Some(UrlCheck) ==> r == CheckThreatIntel(checkType, Raised, urlAnswer))
      && (kind.Some? ==> (r.Uncaught? <==> chosen.Raised?))
      && (kind.Some? ==> (r.HttpError? <==> chosen.Report? && Key.error in chosen.report))
      && (kind.Some? && chosen.Report? && Key.error !in chosen.report ==> r == Json(chosen.report))
  {
  }

  // ---------------------------------------------------------------------
  // export_history
  // ---------------------------------------------------------------------

  /** format_type.lower(), matched against 'csv' and 'xlsx'. */
  function ParseFormat(formatType: string): Option<ExportFormat> {
    var t := Text.Lower(formatType);
    if t == "csv" then Some(Csv)
    else if t == "xlsx" then Some(Xlsx)
    else None
  }

  /** The answer of export_history for a given stored history. */
  function ExportResponse(formatType: string, history: seq<History.Record>): Response {
    match ParseFormat(formatType)
    case None => HttpError(400, Str("Invalid format type. Must be 'csv' or 'xlsx'."))
    case Some(format) =>
      if history == [] then HttpError(404, Str("No history data found to export."))
      else Download(format, history)
  }

  /** export_history(format_type): validates the format before reading the
      history; reads the history without changing it. */
  method ExportHistory(store: History.HistoryStore, formatType: string) returns (resp: Response)
    ensures resp == ExportResponse(formatType, History.Decoded(store.file))
  {
    var format := ParseFormat(formatType);
    if format.None? {
      return HttpError(400, Str("Invalid format type. Must be 'csv' or 'xlsx'."));
    }
    var historyData := store.LoadHistory();
    if historyData == [] {
      return HttpError(404, Str("No history data found to export."));
    }
    return Download(format.value, historyData);
  }

  /** The export is a download exactly when the format is known and the
      stored history is a non-empty list; it then carries that list in its
      stored order. A bad format wins over a missing history, and the
      format is read case-insensitively. */
  lemma ExportOutcomes(formatType: string, file: History.StoredFile)
    ensures var r := ExportResponse(formatType, History.Decoded(file));
      && (r.Download? <==> ParseFormat(formatType).Some? && file.Saved? && file.records != [])
      && (r.Download? ==> r.records == file.records && r.format == ParseFormat(formatType).value)
      && (ParseFormat(formatType).None? ==> r.HttpError? && r.status == 400)
      && (ParseFormat(formatType).Some? && !file.Saved? ==> r == HttpError(404, Str("No history data found to export.")))
    ensures ExportResponse(Text.Upper(formatType), History.Decoded(file)) == ExportResponse(formatType, History.Decoded(file))
  {
    Text.LowerOfUpper(formatType);
  }
}
