/** The value vocabulary shared by the agents, the pipeline and the API:
    the dictionaries they pass around, the symbolic rationale texts of the
    strategy and the rows of a price frame. */
module Values {

  datatype Option<+T> = None | Some(value: T)

  /** The rationale texts the strategy writes into `ai_comment`. The two
      RSI texts embed the RSI value; it is kept as a number here rather
      than rendered with two decimals. */
  datatype Remark =
    | GoldenCrossNote        // "GOLDEN CROSS detected. ..."
    | OversoldNote(rsi: real)  // "RSI (<rsi>) is oversold, ..."
    | DeathCrossNote         // "DEATH CROSS detected. ..."
    | OverboughtNote(rsi: real) // "RSI (<rsi>) is overbought, ..."
    | ConsolidatingNote      // "Market is consolidating. ..."
    | MixedNote              // "Market neutral or mixed signals. ..."
    | InsufficientDataNote   // "Insufficient data to compute long-period indicators."
    | TooFewPointsNote       // "Not enough data points for crossover logic."

  /** A value held in one of the program's dictionaries (and in the JSON
      history file): text, a float, an int, an instant, a rationale, or None. */
  datatype Value =
    | Str(s: string)
    | Num(x: real)
    | Int(n: int)
    | Instant(t: int)
    | Note(remark: Remark)
    | Null

  /** The dictionary keys the program reads and writes, one constructor
      per key spelt as in the source, and any other key by its text. */
  datatype Key =
    | action | AI_Confidence | ai_comment | latest_close | latest_date   // generate_latest_signal
    | Symbol | data_source | llm_commentary | llm_commentary_error           // process_asset_pipeline
    | Close | Signal | Last_Updated | error                                  // the error dictionaries
    | timestamp | symbol | date | price | confidence | rationale            // history records
    | Other(name: string)

  type Dict = map<Key, Value>

  /** dict.get(key, default). */
  function Get(d: Dict, key: Key, default: Value): Value {
    if key in d then d[key] else default
  }

  /** Python truthiness, as used by `a or b`: empty text, zero and None are false. */
  predicate Truthy(v: Value) {
    match v
    case Str(s) => s != []
    case Num(x) => x != 0.0
    case Int(n) => n != 0
    case Instant(_) => true
    case Note(_) => true
    case Null => false
  }

  /** One row of a price frame: the `Date`, `Close` and `Volume` columns.
      Instants are whole hours on an arbitrary epoch. */
  datatype Bar = Bar(date: int, close: real, volume: int)

  function Closes(bars: seq<Bar>): (r: seq<real>)
    ensures |r| == |bars|
    ensures forall i :: 0 <= i < |bars| ==> r[i] == bars[i].close
  {
    seq(|bars|, i requires 0 <= i < |bars| => bars[i].close)
  }
}
