# HCO Quant core, modelled in Dafny

HCO Quant is a small quantitative-trading service. For each ticker it:

- fetches an hourly price frame, real or mock;
- computes a 20- and a 50-period simple moving average and a 14-period RSI;
- turns the last two rows into a BUY, SELL or HOLD decision with a confidence and a rationale;
- optionally asks an LLM for commentary;
- appends a record to a JSON history file.

A FastAPI layer exposes single and batch analyses, an HTML dashboard, a feedback and a threat-intelligence utility, and a history export.

The project models that core:

| file | module | what it models |
|---|---|---|
| `values.dfy` | `Values` | Python dictionaries as `map<Key, Value>`, with one `Key` constructor per key the program uses. The symbolic rationale texts, and a price row `Bar(date, close, volume)`. |
| `text.dfy` | `Text` | `strip`, `upper` and `lower`, and `split` and `join` on one separator character. The lexicographic order that sorting by string keys uses. |
| `strategy.dfy` | `Strategy` | `sma`, `rsi`, `compute_indicators`, `decide_signal` and `generate_latest_signal`. |
| `history.dfy` | `History` | `process_latest_signal`, and a stable sort by timestamp written once over any element type. A class `HistoryStore` holds the history file and its temporary companion; its methods `LoadHistory` and `SaveHistoryEntry` update them in place. |
| `mock_data.dfy` | `MockData` | `_force_signal_on_last_rows`, an in-place method on the `Close` column and the frame's column names. `generate_mock_ohlcv` is modelled as a function of the injected random draws. |
| `pipeline.dfy` | `Pipeline` | `process_asset_pipeline`, a method on the history store. Also the symbol-list parsing, `generate_dashboard_html` and `generate_html_template` with its `get_color`. |
| `api.dfy` | `Api` | The endpoints' request validation and error mapping: `analyze_single_asset`, `analyze_multi_asset` with its `run_single_analysis`, `analyze_user_feedback`, `check_threat_intel` and `export_history`. |

A run's outside inputs are all parameters, never hidden state:

- the market data;
- the mock generator's draws;
- the `randint` draw of the confidence;
- the LLM's answer or exception;
- the clock;
- how the history write ends.

`Pipeline.RunEnv` carries these for the pipeline. `Api` receives the timeouts and raised runs as flags, and the agents' answers as values.

The code behaves in these ways a reader might not expect, and the model follows it:

- **RSI with no losses.** A zero average loss gives RSI 50, not 100: the code turns it into NaN and then fills every NaN with 50 (`RsiZeroLoss`). With the program's period of 14, the average loss is zero only while no close has fallen since the first row, so a series that never falls reads 50 on every row (`RsiNeverFalling`). The smoothing never forgets: once a close has fallen, the average loss stays positive on every later row, so a later stretch without losses does not bring the RSI back to 50 (`LossPersists`).
- **Commentary always fails.** With the LLM configured, `generate_trade_comment` calls `.replace` on the strategy's integer `AI_Confidence` (backend/src/agents/ai_agent.py:72). That raises `AttributeError`, so every requested commentary ends as "LLM generation failed: AttributeError". The model keeps the LLM's answer as a parameter (`Commentary`) that covers this outcome; it does not force it.
- **Insufficient data.** The check is `len < 50`, so a 50-row frame is already analysed. On it the previous row has no long average, so only the RSI rules can fire (`ExactlyFiftyRows`). The second guard, `len < 2`, is unreachable (`LatestSignalFields`).
- **Failed fetch.** A failed fetch returns its error dictionary before the history step, so it writes no history (`FetchFailureWritesNothing`).
- **Success dictionary.** It carries the decision under `action` and has no `Signal` and no `Close` key. As a result:
  - every dashboard row, successful or not, is gray (`DashboardAllGray`);
  - a successful row shows HOLD and a close of N/A whatever the strategy decided (`RowOfOutcome`);
  - the API's `Signal == "ERROR"` test catches exactly the failed fetches (`ErrorOnlyOnFetchFailure`, `SingleOutcomes`).

## Model

| member | source | states |
|---|---|---|
| `Strategy.SmaColumn` | backend/src/agents/strategy_agent.py:18-21 | Row i of `sma(closes, window)` is the mean of the window ending at row i, computed the same way for every row. |
| `Strategy.SmaSlide` | backend/src/agents/strategy_agent.py:18-21 | Once a full window has passed, each step of `rolling(window).mean()` adds the entering close over the window and drops the leaving one: `sma[i] == sma[i-1] + (close[i] - close[i-window]) / window`. |
| `Strategy.SmaWithinWindow` | backend/src/agents/strategy_agent.py:18-21 | A defined moving average lies between the smallest and the largest close of its window. |
| `Strategy.EwmaRecurrence` | backend/src/agents/strategy_agent.py:30-31 | `ewm(adjust=False)`: the first average is the first observation, and each later one is `(1 - alpha) * previous + alpha * observation`. |
| `Strategy.EwmaNonNegative` | backend/src/agents/strategy_agent.py:30-31 | Smoothing non-negative gains or losses gives non-negative averages, and a positive observation gives a positive average. |
| `Strategy.EwmaOfZeros` | backend/src/agents/strategy_agent.py:30-31 | Smoothing a series of zeros gives zeros. |
| `Strategy.Alpha` | backend/src/agents/strategy_agent.py:30-31 | `span=period` means `alpha = 2 / (period + 1)`, which lies in (0, 1]. |
| `Strategy.AverageGainLoss` | backend/src/agents/strategy_agent.py:25-31 | With `min_periods=period`, the smoothed gain and loss are NaN exactly for the first `period - 1` rows. After that they are the smoothed values, and they are non-negative. |
| `Strategy.AveragesNonNegative` | backend/src/agents/strategy_agent.py:25-31 | Every defined average gain and average loss is non-negative. |
| `Strategy.RsiRange` | backend/src/agents/strategy_agent.py:23-40 | Every RSI value lies in [0, 100). |
| `Strategy.RsiWarmup` | backend/src/agents/strategy_agent.py:39-40 | Before `period` rows exist, the RSI is the neutral fill of 50. |
| `Strategy.EwmaStaysPositive` | backend/src/agents/strategy_agent.py:30-31 | With alpha below 1, one positive observation keeps the smoothed average positive on every later row. |
| `Strategy.LossPersists` | backend/src/agents/strategy_agent.py:25-34 | For period >= 2, once a close has fallen, the average loss is defined and positive on every later row past warm-up, however long the series then goes without falling. |
| `Strategy.RsiZeroLoss` | backend/src/agents/strategy_agent.py:34-40 | A zero average loss gives RSI 50, not 100. `replace(0, nan)` followed by `fillna(50)` does this. |
| `Strategy.RsiNeverFalling` | backend/src/agents/strategy_agent.py:23-40 | On a series that never falls, the RSI is 50 on every row. |
| `Strategy.RsiStrictlyFalling` | backend/src/agents/strategy_agent.py:23-40 | On a strictly falling series, the RSI is 0 from row `period - 1` on. |
| `Strategy.IndicatorColumns` | backend/src/agents/strategy_agent.py:42-54 | In `compute_indicators`: the 20-period average is defined exactly from row 19 on, the 50-period one exactly from row 49 on, and the RSI is always defined and in [0, 100). |
| `Strategy.RandInt` | backend/src/agents/strategy_agent.py:78 | `random.randint(lo, hi)` lies in [lo, hi]. |
| `Strategy.RandIntCovers` | backend/src/agents/strategy_agent.py:78 | Every value of [lo, hi] is drawn by some draw. |
| `Strategy.DecideSignal` | backend/src/agents/strategy_agent.py:60-112 | BUY if and only if there is a golden cross or the RSI is below 30. SELL if and only if neither holds, and there is a death cross or the RSI is above 70. HOLD if and only if there is no cross and 30 <= RSI <= 70. The confidence lies in [30, 95]. A NaN average makes both crosses false. |
| `Strategy.DecisionBands` | backend/src/agents/strategy_agent.py:73-110 | The first matching rule decides, giving its rationale and its confidence band (80-95, 70-85, 80-95, 70-85, 50-65, 30-50). |
| `Strategy.TieBreaks` | backend/src/agents/strategy_agent.py:73-99 | A golden cross beats an overbought RSI. An oversold RSI beats a death cross. The two crosses never hold together. |
| `Strategy.LatestSignalFields` | backend/src/agents/strategy_agent.py:118-166 | Below 50 rows, the answer is the insufficient-data HOLD. From 50 rows on, it is the rule table's decision on the last two rows plus the last close and date. The `len < 2` branch is never reached, and there is no `Signal` key. |
| `Strategy.LatestSignalKeys` | backend/src/agents/strategy_agent.py:126-166 | Short frames give exactly the keys `action`, `AI_Confidence` and `ai_comment`. Long frames also give `latest_close` and `latest_date`. |
| `Strategy.ExactlyFiftyRows` | backend/src/agents/strategy_agent.py:126 | At exactly 50 rows the previous long average is NaN, so the action is BUY exactly when the RSI is below 30 and SELL exactly when it is above 70. |
| `Strategy.ConfidenceOfLatestSignal` | backend/src/agents/strategy_agent.py:126-131 | The confidence is 10 exactly when the frame has fewer than 50 rows. |
| `History.ProcessLatestSignal` | backend/src/agents/report_agent.py:44-61 | The history record has exactly its nine fields. |
| `History.RecordFieldsDefaulted` | backend/src/agents/report_agent.py:50-61 | Each field takes the signal dictionary's value when the key is present and its default otherwise. The timestamp is the text `now`. |
| `History.SortCorrect` | backend/src/agents/report_agent.py:90 | `list.sort(key=...)` orders by the key, permutes its input and is stable: each key's records keep their relative order. |
| `History.SortOfSorted` | backend/src/agents/report_agent.py:90 | Sorting an already sorted list leaves it unchanged. |
| `History.Decoded` | backend/src/agents/report_agent.py:66-80 | A missing, empty, corrupt or unreadable history reads as `[]`. A saved list reads as itself. |
| `History.HistoryStore.LoadHistory` | backend/src/agents/report_agent.py:66-80 | Returns the decoded file and changes nothing. |
| `History.HistoryStore.SaveHistoryEntry` | backend/src/agents/report_agent.py:82-99 | The file becomes `AfterSave` and the temporary file `TempAfterSave`. A failure at any step leaves the file as it was. |
| `History.AfterSave` | backend/src/agents/report_agent.py:87-99 | After a save, the file is either unchanged or the sorted old history plus the entry. It changes only when nothing failed. |
| `History.TempAfterSave` | backend/src/agents/report_agent.py:92-96 | After a successful atomic replace, no temporary file is left. When the sort raises or the temporary file cannot be opened, the old temporary file stays as it was. |
| `History.SaveAppendsInOrder` | backend/src/agents/report_agent.py:87-96 | A successful save stores one record more, a permutation of old + [entry], sorted by timestamp, with the entry after every earlier record that has the same timestamp. |
| `History.SaveOverLostHistory` | backend/src/agents/report_agent.py:71-90 | Over a lost or unreadable history a save leaves exactly `[entry]`, whatever its timestamp, because sorting one record compares nothing. |
| `History.SaveInTimeOrder` | backend/src/agents/report_agent.py:88-90 | An entry whose timestamp is not before any stored one is appended at the end. |
| `MockData.ForcedClose` | backend/src/utils/mock_data.py:49-67 | The new last close for each force type: the last close times 1.10 or 0.90, the previous close times 0.85 or 1.15, or no change. |
| `MockData.ForcingTouchesOnlyLastClose` | backend/src/utils/mock_data.py:25-67 | A frame under 50 rows is left alone. Otherwise only the last close changes, to the prescribed value. NATURAL_HOLD changes nothing. |
| `MockData.ForceSignalOnLastRows` | backend/src/utils/mock_data.py:20-70 | The `Close` array is rewritten in place to `ForcedCloses` of its old contents. The temporary SMA columns that were added do not survive to the returned columns. |
| `MockData.DropTempMembers` | backend/src/utils/mock_data.py:70 | The drop keeps exactly the columns that are not `SMA_20` or `SMA_50`. |
| `MockData.DropAfterAdd` | backend/src/utils/mock_data.py:30-31 | Adding a temporary column and dropping the temporary columns again gives the original columns back, less any temporary column they already had. |
| `MockData.FrameColumnsSurviveForcing` | backend/src/utils/mock_data.py:108-120 | The generator's six columns come through the rewrite unchanged. |
| `MockData.LastCloseShiftsSma` | backend/src/utils/mock_data.py:53-59 | Rewriting the last close to v moves the last moving average by `(v - last) / window`, and leaves the previous row's average unchanged. |
| `MockData.GapFollowsLastClose` | backend/src/utils/mock_data.py:53-59 | Raising the last close widens the gap between the 20- and 50-period averages, and lowering it narrows the gap. |
| `MockData.CrossForcingMovesGap` | backend/src/utils/mock_data.py:53-59 | On a positive series, BUY_CROSS widens the short-over-long gap and SELL_CROSS narrows it. The previous row's averages stay put. |
| `MockData.Trunc` | backend/src/utils/mock_data.py:90 | `int(x)` truncates towards zero. |
| `MockData.BasePrice` | backend/src/utils/mock_data.py:85-88 | The five listed symbols have fixed base prices, looked up upper-cased. Any other symbol takes the uniform draw. |
| `MockData.CumProdPositive` | backend/src/utils/mock_data.py:98-99 | A running product of positive factors is positive. |
| `MockData.MockVolume` | backend/src/utils/mock_data.py:106 | Volumes lie in [50000, 500000). |
| `MockData.GenerateMockOhlcv` | backend/src/utils/mock_data.py:73-123 | The generator fails (numpy raises) exactly when N is negative. Otherwise it gives N rows. |
| `MockData.MockSeriesShape` | backend/src/utils/mock_data.py:90-123 | The dates are strictly ascending hourly instants ending now, so the sort keeps the order. Volumes are in range. The closes are the forced random walk. |
| `MockData.PipelineSeriesIsForced` | backend/src/utils/mock_data.py:73-123 | With the pipeline's 60 days at 6 hours, there are 360 rows. Exactly the last close is rewritten. |
| `MockData.MockClosesPositive` | backend/src/utils/mock_data.py:98-99 | A positive base and positive factors give positive closes. |
| `Pipeline.Fetch` | backend/src/pipelines/quant_async_pipeline.py:42-47 | The mock path always gives a 360-row frame. The real path gives the data agent's answer. |
| `Pipeline.FetchFailureResult` | backend/src/pipelines/quant_async_pipeline.py:50-59 | The error dictionary has exactly its seven keys. |
| `Pipeline.FetchFailureFields` | backend/src/pipelines/quant_async_pipeline.py:50-59 | On a fetch failure: Signal is ERROR, Close is 0.0, confidence is "0%" and the symbol is upper-cased. The comment is the fetch's error text, or "Data Fetch Failed.". The source is MOCK or REAL_FAIL. |
| `Pipeline.ProcessAssetPipeline` | backend/src/pipelines/quant_async_pipeline.py:20-86 | Returns the run's dictionary. The history store changes exactly as `DiskAfterRun` says. |
| `Pipeline.FetchFailureWritesNothing` | backend/src/pipelines/quant_async_pipeline.py:50-59 | A failed fetch returns the error dictionary and leaves the history files untouched. |
| `Pipeline.EnrichedFields` | backend/src/pipelines/quant_async_pipeline.py:67-78 | Enrichment sets the upper-cased symbol and the source, and keeps every other key of the strategy. It adds the commentary, or the "LLM generation failed: <class>" note. |
| `Pipeline.EnrichedKeys` | backend/src/pipelines/quant_async_pipeline.py:67-78 | Enrichment adds exactly Symbol, data_source and, only when commentary was requested, one of the two commentary keys. |
| `Pipeline.SignalKeysFree` | backend/src/pipelines/quant_async_pipeline.py:64-69 | The strategy's dictionary has none of the keys the pipeline adds, and no Signal or Close. |
| `Pipeline.SuccessfulRun` | backend/src/pipelines/quant_async_pipeline.py:61-86 | A successful run returns every key of the strategy's dictionary unchanged, plus the symbol and source. |
| `Pipeline.SuccessfulRunCommentary` | backend/src/pipelines/quant_async_pipeline.py:71-78 | A successful run has no Signal and no Close. It has the commentary key exactly when commentary was requested and returned, and the failure key exactly when it was requested and raised. |
| `Pipeline.ErrorOnlyOnFetchFailure` | backend/src/pipelines/quant_async_pipeline.py:50-86 | The returned dictionary has Signal ERROR exactly when the fetch failed. |
| `Pipeline.MockRunNeverFails` | backend/src/pipelines/quant_async_pipeline.py:42-44 | A mock run never reports an error. |
| `Pipeline.SuccessfulRunAppends` | backend/src/pipelines/quant_async_pipeline.py:80-83 | A successful run without write faults appends one record built from the returned dictionary, under the upper-cased symbol. The history stays sorted and no temporary file is left. |
| `Pipeline.ParseItemIsSymbol` | backend/src/pipelines/quant_async_pipeline.py:98 | A comma-free piece yields at most one symbol, and that symbol is stripped, upper case and non-empty. |
| `Pipeline.SymbolListAreSymbols` | backend/src/pipelines/quant_async_pipeline.py:98 | Every parsed symbol is non-empty, upper case, stripped and comma-free. |
| `Pipeline.SymbolListConcat` | backend/src/pipelines/quant_async_pipeline.py:98 | The parsed list keeps the order of the request: parsing `a,b` gives the symbols of a followed by those of b. |
| `Pipeline.SymbolListOfEmpty` | backend/src/pipelines/quant_async_pipeline.py:98 | An empty request gives no symbols. |
| `Pipeline.SymbolListOfOne` | backend/src/pipelines/quant_async_pipeline.py:98 | A single item gives nothing if it is blank, and otherwise its stripped, upper-cased text. |
| `Pipeline.SymbolListOfJoin` | backend/src/pipelines/quant_async_pipeline.py:98 | Joining symbols with commas and parsing gives them back. |
| `Pipeline.SymbolListIdempotent` | backend/src/pipelines/quant_async_pipeline.py:98 | Re-parsing a parsed list changes nothing. |
| `Pipeline.Lookup` | backend/src/pipelines/quant_async_pipeline.py:160 | `d.get(key)` is None exactly when the key is missing. |
| `Pipeline.GetColor` | backend/src/pipelines/quant_async_pipeline.py:120-123 | The color is green exactly for BUY, red exactly for SELL, and gray otherwise, including a missing signal. |
| `Pipeline.Or` | backend/src/pipelines/quant_async_pipeline.py:169 | `a or b` is a when a is truthy, and b otherwise. |
| `Pipeline.LlmCell` | backend/src/pipelines/quant_async_pipeline.py:169 | The LLM cell shows a non-empty commentary, else a non-empty failure note, else "N/A (Not Requested)". |
| `Pipeline.GenerateHtmlTemplate` | backend/src/pipelines/quant_async_pipeline.py:159-185 | One row per result, in order, each showing that result's fields with their defaults. |
| `Pipeline.RowOfOutcome` | backend/src/pipelines/quant_async_pipeline.py:159-173 | Every row is gray and shows the upper-cased symbol. A failed fetch shows ERROR, 0.0 and "0%". A successful run shows HOLD, a close of N/A and its source. |
| `Pipeline.RunAll` | backend/src/pipelines/quant_async_pipeline.py:101-108 | The gather runs the pipeline once per symbol, in order, and the history store ends as after those runs one after the other. |
| `Pipeline.GenerateDashboardHtml` | backend/src/pipelines/quant_async_pipeline.py:92-112 | The dashboard has one row per parsed symbol, in order, each showing that symbol's pipeline result. The store records every run. |
| `Pipeline.DashboardAllGray` | backend/src/pipelines/quant_async_pipeline.py:92-123 | Every dashboard row is gray. |
| `Api.AnalyzeSingleAsset` | backend/src/api/hco_quant_api.py:56-87 | A timeout answers 504 with the 15-second message and changes nothing. Otherwise the pipeline runs on `symbol.strip().upper()` and the store records it. The answer is a 500 with the comment on ERROR, and the data otherwise. |
| `Api.SingleOutcomes` | backend/src/api/hco_quant_api.py:81-87 | A completed single analysis fails exactly when the fetch failed, with 500 and the fetch's error text. Otherwise it returns the pipeline's dictionary unchanged. |
| `Api.NormalizedSymbolStable` | backend/src/api/hco_quant_api.py:66 | The normalized symbol is already upper case, so the pipeline's own upper-casing changes nothing. |
| `Api.IsolatedError` | backend/src/api/hco_quant_api.py:116-122 | The isolated error has exactly its four keys. |
| `Api.RunIsolated` | backend/src/api/hco_quant_api.py:105-122 | One guarded run: the pipeline's answer and its write, or the isolated error and no write. |
| `Api.GatherIsolated` | backend/src/api/hco_quant_api.py:124-126 | One entry per symbol, in order, each the guarded run's answer. The store ends as after the runs that did not raise. |
| `Api.AnalyzeMultiAsset` | backend/src/api/hco_quant_api.py:92-128 | No parsed symbol gives 400 "No symbols provided.". Otherwise the answer is `{"symbols": [...]}` with one guarded result per symbol, in order. |
| `Api.BatchEntryError` | backend/src/api/hco_quant_api.py:105-122 | A batch entry is marked ERROR exactly when its run raised or its fetch failed. A raised run keeps its symbol and says "Analysis failed or timed out.". |
| `Api.FeedbackAcceptance` | backend/src/api/hco_quant_api.py:153-162 | Feedback is accepted exactly when it has at least 10 characters. Otherwise the answer is 400. Lengthening accepted feedback keeps it accepted. |
| `Api.CheckTypeIgnoresCase` | backend/src/api/hco_quant_api.py:176 | The check type is read case-insensitively. |
| `Api.ThreatIntelOutcomes` | backend/src/api/hco_quant_api.py:167-188 | An unknown check type is a 400. A known type consults only its own agent. A `VTAPIError` the agent raises is not caught and escapes as the framework's bare 500 (`Uncaught`). A 200 report that carries an `error` key becomes a 500 with that detail. Any other report is returned unchanged. |
| `Api.ExportHistory` | backend/src/api/hco_quant_api.py:194-209 | The format is validated before the history is read. The answer is `ExportResponse` of the stored history, and nothing changes. |
| `Api.ExportOutcomes` | backend/src/api/hco_quant_api.py:194-209 | The export is a download exactly when the format is csv or xlsx (any case) and the stored history is a non-empty list, and it carries that list. A bad format gives 400 and wins over a missing history, which gives 404. |
| `Text.StripKeepsInterior` | backend/src/api/hco_quant_api.py:66 | `strip()` removes the leading white space (`LeadingSpaces`) and white space at the end, and nothing else: its result is the stretch of the text after the leading white space, followed only by white space. `Strip` adds that the result neither starts nor ends with white space. |
| `Text.JoinSplit` | backend/src/pipelines/quant_async_pipeline.py:98 | `split(",")` loses nothing: joining the pieces with commas gives the text back. |
| `Text.SplitAppend` | backend/src/pipelines/quant_async_pipeline.py:98 | Splitting `a,b` gives the pieces of a followed by the pieces of b. |
| `Text.LexTransitive` | backend/src/agents/report_agent.py:90 | Python's string order is transitive. The sort's correctness rests on this, together with `LexTotal` and `LexAntisymmetric`. |

## Left out

- I/O, the network and the clock are parameters. This covers the data agent, the LLM agent (`generate_trade_comment`, `analyze_feedback`), the VirusTotal agents (each answers a `Report` or a raised `VTAPIError`; the HTTP request and status checks of backend/src/agents/threat_intel_agent.py are not part of this model), `datetime.now()`, the latency sleep and the file system. The file system's outcomes are the `StoredFile` states and the `SaveFault` of a write.
- Query defaults are not modelled: the methods take `use_mock_data` and `include_commentary` as explicit flags. FastAPI's defaults are `use_mock_data=False` for every endpoint, `include_commentary=True` for a single symbol and `False` for a batch or the dashboard.
- Concurrency is modelled sequentially. `asyncio.gather` is a sequential, order-preserving loop. A timeout of `wait_for`, or a raised batch run, is taken to happen before the run changed anything.
- Randomness is modelled as oracles. Each draw is an argument: `random.randint`, `random.choices`, `random.uniform` and numpy's draws. Their distributions and weights are not modelled.
- Floating point is exact: prices and indicators are `real`. Rounding to two decimals (`np.round`) and the `.2f` formatting of the rationale texts are left out. A rationale is a `Remark`, which keeps the RSI value as a number.
- Mock frame columns: the Open, High and Low columns of the mock frame are not generated, because nothing downstream reads them. The frame is modelled by its column names, the `Close` column and `Bar`'s date, close and volume.
- Mock SMA columns: the temporary `SMA_20` and `SMA_50` columns of `_force_signal_on_last_rows` are modelled by name and are not computed, because their values are never read before they are dropped.
- Dates are instants in whole hours. `str(last['Date'])` and `strftime` are not rendered. The history's `timestamp` and `today` are opaque text from the clock.
- `History.HistoryStore.SaveHistoryEntry`: sort keys are compared only as text. When at least two records are sorted and one of them has a present but non-text timestamp, the model treats the sort as raising, so the save fails and is swallowed. Python raises only when the keys mix text with non-text values or include `None`; two or more all-numeric timestamps sort numerically and are saved. The pipeline's own entries always carry a text timestamp. A single record is never compared, so it is saved whatever its timestamp, as in Python. `json.dump(default=str)` is not modelled.
- `History.AfterSave`: shares the approximation above for several records with non-text timestamps.
- `History.Decoded`: a file holding valid JSON that is not a list of records (which `load_history` would return as it is) is not modelled. A `Saved` file always holds a list of records.
- Text in ASCII only: case mapping and white space are ASCII plus the C0 separators. The model does not do Unicode case folding or white space.
- Dictionary keys are a closed enumeration `Key` plus `Other(name)`. The values are a small JSON-like `Value` type.
- HTML markup: `generate_html_template` is modelled by its rows (`Row`), not by the markup text. The page header, styles and timestamp are left out.
- Export serialisation: `export_history`'s CSV and XLSX serialisation, the `str` conversion of columns and the 500 for an XLSX failure are left out. The model stops at the `Download` of the records.
- Not part of this model for lack of core logic: `create_chart`, the root status endpoint, the dashboard endpoint wrapper, and the legacy copies of the agents and the pipeline outside `backend/src`.
- `Strategy.ComputeIndicators`: represents the enhanced frame by its three indicator columns, not by a copy of the whole frame.
