/** The history store of the report agent: building a history record from
    the strategy's dictionary, the corruption-tolerant load, and the append
    that loads, appends, stably sorts by `timestamp` and atomically
    replaces the durable file. */
module History {
  import opened Values
  import Text

  /** A history record, as a JSON object. */
  type Record = Dict

  /** The keys every record built by ProcessLatestSignal has. */
  const RecordFields: set<Key> :=
    {Key.timestamp, Key.symbol, Key.date, Key.action, Key.price, Key.confidence, Key.rationale, Key.llm_commentary, Key.data_source}

  /** process_latest_signal(symbol, signal_data); `now` is
      datetime.now().isoformat() and `today` the current date as text. */
  function ProcessLatestSignal(symbol: string, signalData: Dict, now: string, today: string): (r: Record)
    ensures r.Keys == RecordFields
  {
    map[
      Key.timestamp := Str(now),
      Key.symbol := Str(symbol),
      Key.date := Get(signalData, Key.latest_date, Str(today)),
      Key.action := Get(signalData, Key.action, Str("HOLD")),
      Key.price := Get(signalData, Key.latest_close, Null),
      Key.confidence := Get(signalData, Key.AI_Confidence, Int(0)),
      Key.rationale := Get(signalData, Key.ai_comment, Str("")),
      Key.llm_commentary := Get(signalData, Key.llm_commentary, Null),
      Key.data_source := Get(signalData, Key.data_source, Str("UNKNOWN"))
    ]
  }

  /** Each field of a new record comes from the signal dictionary when it
      has the matching key, and otherwise takes its default. */
  lemma RecordFieldsDefaulted(symbol: string, signalData: Dict, now: string, today: string)
    ensures var r := ProcessLatestSignal(symbol, signalData, now, today);
      && r[Key.timestamp] == Str(now) && r[Key.symbol] == Str(symbol)
      && r[Key.date] == (if Key.latest_date in signalData then signalData[Key.latest_date] else Str(today))
      && r[Key.action] == (if Key.action in signalData then signalData[Key.action] else Str("HOLD"))
      && r[Key.price] == (if Key.latest_close in signalData then signalData[Key.latest_close] else Null)
      && r[Key.confidence] == (if Key.AI_Confidence in signalData then signalData[Key.AI_Confidence] else Int(0))
      && r[Key.rationale] == (if Key.ai_comment in signalData then signalData[Key.ai_comment] else Str(""))
      && r[Key.llm_commentary] == (if Key.llm_commentary in signalData then signalData[Key.llm_commentary] else Null)
      && r[Key.data_source] == (if Key.data_source in signalData then signalData[Key.data_source] else Str("UNKNOWN"))
      && HasTextKey(r) && TimestampKey(r) == now
  {
  }

  // ---------------------------------------------------------------------
  // The sort key and the stable sort
  // ---------------------------------------------------------------------

  /** The record's timestamp is absent or text, so its sort key is text. */
  predicate HasTextKey(r: Record) {
    Key.timestamp in r ==> r[Key.timestamp].Str?
  }

  predicate AllTextKeys(s: seq<Record>) {
    forall i :: 0 <= i < |s| ==> HasTextKey(s[i])
  }

  /** x.get('timestamp', '0'). */
  function TimestampKey(r: Record): string {
    if Key.timestamp in r && r[Key.timestamp].Str? then r[Key.timestamp].s else "0"
  }

  // The sort is written over any element type with a text key, which
  // keeps the records' contents out of the ordering proofs.

  /** Non-decreasing by key, in Python's string order. */
  predicate Sorted<T>(key: T -> string, s: seq<T>) {
    forall i, j :: 0 <= i < j < |s| ==> Text.LexBefore(key(s[i]), key(s[j]))
  }

  /** Put x after every element whose key is at most x's. */
  function InsertBy<T>(key: T -> string, sorted: seq<T>, x: T): (r: seq<T>)
    ensures |r| == |sorted| + 1
  {
    if sorted == [] then [x]
    else if Text.LexBefore(key(sorted[0]), key(x)) then [sorted[0]] + InsertBy(key, sorted[1..], x)
    else [x] + sorted
  }

  /** list.sort(key=key): a stable sort, written as an insertion sort. */
  function SortBy<T>(key: T -> string, s: seq<T>): (r: seq<T>)
    ensures |r| == |s|
  {
    if s == [] then [] else InsertBy(key, SortBy(key, s[..|s| - 1]), s[|s| - 1])
  }

  /** data.sort(key=lambda x: x.get('timestamp', '0')). */
  function SortByTimestamp(s: seq<Record>): (r: seq<Record>)
    ensures |r| == |s|
  {
    SortBy(TimestampKey, s)
  }

  /** The elements carrying a given key, in their order. */
  function WithKey<T>(key: T -> string, s: seq<T>, k: string): seq<T> {
    if s == [] then []
    else WithKey(key, s[..|s| - 1], k) + (if key(s[|s| - 1]) == k then [s[|s| - 1]] else [])
  }

  lemma {:induction false} WithKeyAppend<T>(key: T -> string, a: seq<T>, b: seq<T>, k: string)
    ensures WithKey(key, a + b, k) == WithKey(key, a, k) + WithKey(key, b, k)
  {
    if b != [] {
      WithKeyAppend(key, a, b[..|b| - 1], k);
      assert (a + b)[..|a + b| - 1] == a + b[..|b| - 1];
    } else {
      assert a + b == a;
    }
  }

  lemma {:induction false} WithKeyNone<T>(key: T -> string, s: seq<T>, k: string)
    requires forall i :: 0 <= i < |s| ==> key(s[i]) != k
    ensures WithKey(key, s, k) == []
  {
    if s != [] { WithKeyNone(key, s[..|s| - 1], k); }
  }

  /** Every element of t has a key at least k. */
  predicate KeysFrom<T>(key: T -> string, k: string, t: seq<T>) {
    forall i :: 0 <= i < |t| ==> Text.LexBefore(k, key(t[i]))
  }

  lemma SortedCons<T>(key: T -> string, a: T, t: seq<T>)
    requires Sorted(key, t) && KeysFrom(key, key(a), t)
    ensures Sorted(key, [a] + t)
  {
    var r := [a] + t;
    forall i, j | 0 <= i < j < |r|
      ensures Text.LexBefore(key(r[i]), key(r[j]))
    {
      if i > 0 {
        assert r[i] == t[i - 1] && r[j] == t[j - 1];
      } else {
        assert r[j] == t[j - 1];
      }
    }
  }

  lemma SortedTail<T>(key: T -> string, t: seq<T>)
    requires Sorted(key, t) && t != []
    ensures Sorted(key, t[1..]) && KeysFrom(key, key(t[0]), t[1..])
  {
    forall i | 0 <= i < |t[1..]| ensures Text.LexBefore(key(t[0]), key(t[1..][i])) {
      assert t[1..][i] == t[i + 1];
    }
  }

  lemma {:induction false} InsertMultiset<T>(key: T -> string, t: seq<T>, x: T)
    ensures multiset(InsertBy(key, t, x)) == multiset(t) + multiset{x}
  {
    if t != [] && Text.LexBefore(key(t[0]), key(x)) {
      InsertMultiset(key, t[1..], x);
      assert t == [t[0]] + t[1..];
    }
  }

  lemma {:induction false} InsertKeysFrom<T>(key: T -> string, t: seq<T>, x: T, k: string)
    requires KeysFrom(key, k, t) && Text.LexBefore(k, key(x))
    ensures KeysFrom(key, k, InsertBy(key, t, x))
  {
    if t != [] && Text.LexBefore(key(t[0]), key(x)) {
      assert KeysFrom(key, k, t[1..]) by {
        forall i | 0 <= i < |t[1..]| ensures Text.LexBefore(k, key(t[1..][i])) {
          assert t[1..][i] == t[i + 1];
        }
      }
      InsertKeysFrom(key, t[1..], x, k);
      var r := InsertBy(key, t, x);
      forall i | 0 <= i < |r| ensures Text.LexBefore(k, key(r[i])) {
        if i > 0 {
          assert r[i] == InsertBy(key, t[1..], x)[i - 1];
        }
      }
    }
  }

  lemma {:induction false} InsertSorted<T>(key: T -> string, t: seq<T>, x: T)
    requires Sorted(key, t)
    ensures Sorted(key, InsertBy(key, t, x))
  {
    if t == [] {
    } else if Text.LexBefore(key(t[0]), key(x)) {
      SortedTail(key, t);
      InsertSorted(key, t[1..], x);
      InsertKeysFrom(key, t[1..], x, key(t[0]));
      SortedCons(key, t[0], InsertBy(key, t[1..], x));
    } else {
      Text.LexTotal(key(t[0]), key(x));
      forall i | 0 <= i < |t| ensures Text.LexBefore(key(x), key(t[i])) {
        if i > 0 {
          Text.LexTransitive(key(x), key(t[0]), key(t[i]));
        }
      }
      SortedCons(key, x, t);
    }
  }

  /** A key below the first key of a sorted sequence occurs nowhere in it. */
  lemma KeyBelowAbsent<T>(key: T -> string, t: seq<T>, k: string)
    requires Sorted(key, t) && t != [] && !Text.LexBefore(key(t[0]), k)
    ensures WithKey(key, t, k) == []
  {
    forall i | 0 <= i < |t| ensures key(t[i]) != k {
      if i > 0 {
        assert Text.LexBefore(key(t[0]), key(t[i]));
      } else {
        Text.LexReflexive(k);
      }
    }
    WithKeyNone(key, t, k);
  }

  lemma WithKeySingle<T>(key: T -> string, x: T, k: string)
    ensures WithKey(key, [x], k) == (if key(x) == k then [x] else [])
  {
    assert [x][..0] == [];
  }

  /** Inserting into a sorted sequence keeps the order among equal keys and
      puts the new element after the existing ones with its key. */
  lemma {:induction false} InsertWithKey<T>(key: T -> string, t: seq<T>, x: T, k: string)
    requires Sorted(key, t)
    ensures WithKey(key, InsertBy(key, t, x), k) == WithKey(key, t, k) + WithKey(key, [x], k)
  {
    if t == [] {
      assert InsertBy(key, t, x) == [x];
    } else if Text.LexBefore(key(t[0]), key(x)) {
      var rest := InsertBy(key, t[1..], x);
      assert InsertBy(key, t, x) == [t[0]] + rest;
      SortedTail(key, t);
      InsertWithKey(key, t[1..], x, k);
      WithKeyAppend(key, [t[0]], rest, k);
      WithKeyAppend(key, [t[0]], t[1..], k);
      assert [t[0]] + t[1..] == t;
    } else {
      InsertWithKeyInFront(key, t, x, k);
    }
  }

  /** The case where the new element goes first: it then has no key in
      common with the sorted rest. */
  lemma InsertWithKeyInFront<T>(key: T -> string, t: seq<T>, x: T, k: string)
    requires Sorted(key, t) && t != [] && !Text.LexBefore(key(t[0]), key(x))
    ensures WithKey(key, InsertBy(key, t, x), k) == WithKey(key, t, k) + WithKey(key, [x], k)
  {
    assert InsertBy(key, t, x) == [x] + t;
    WithKeyAppend(key, [x], t, k);
    WithKeySingle(key, x, k);
    if key(x) == k {
      KeyBelowAbsent(key, t, k);
    }
  }

  /** The sort orders its input, permutes it and is stable: the elements
      of each key keep their relative order. */
  lemma {:induction false} SortCorrect<T>(key: T -> string, s: seq<T>)
    ensures Sorted(key, SortBy(key, s))
    ensures multiset(SortBy(key, s)) == multiset(s)
    ensures forall k :: WithKey(key, SortBy(key, s), k) == WithKey(key, s, k)
  {
    if s != [] {
      var front := s[..|s| - 1];
      var x := s[|s| - 1];
      SortCorrect(key, front);
      InsertSorted(key, SortBy(key, front), x);
      InsertMultiset(key, SortBy(key, front), x);
      assert s == front + [x];
      forall k ensures WithKey(key, SortBy(key, s), k) == WithKey(key, s, k) {
        InsertWithKey(key, SortBy(key, front), x, k);
        WithKeyAppend(key, front, [x], k);
      }
    }
  }

  lemma {:induction false} InsertAtEnd<T>(key: T -> string, t: seq<T>, x: T)
    requires forall i :: 0 <= i < |t| ==> Text.LexBefore(key(t[i]), key(x))
    ensures InsertBy(key, t, x) == t + [x]
  {
    if t != [] {
      InsertAtEnd(key, t[1..], x);
      assert t == [t[0]] + t[1..];
    }
  }

  /** Sorting a sorted sequence leaves it as it is. */
  lemma {:induction false} SortOfSorted<T>(key: T -> string, s: seq<T>)
    requires Sorted(key, s)
    ensures SortBy(key, s) == s
  {
    if s != [] {
      var front := s[..|s| - 1];
      assert Sorted(key, front);
      SortOfSorted(key, front);
      InsertAtEnd(key, front, s[|s| - 1]);
    }
  }

  // ---------------------------------------------------------------------
  // The durable file
  // ---------------------------------------------------------------------

  /** What trade_history.json holds: nothing, zero bytes, text that is not
      JSON, a file that cannot be read, or a saved list of records. */
  datatype StoredFile = Missing | Blank | Corrupt | Unreadable | Saved(records: seq<Record>)

  /** load_history(): the saved list, and [] for every other state. */
  function Decoded(f: StoredFile): (r: seq<Record>)
    ensures f.Saved? ==> r == f.records
    ensures !f.Saved? ==> r == []
  {
    if f.Saved? then f.records else []
  }

  /** Where a save can fail: open(tmp_file, "w") raises, json.dump raises
      part-way through the temporary file, or os.replace raises. */
  datatype SaveFault = NoFault | TempOpenFails | TempDumpFails | ReplaceFails

  /** Whether data.sort(...) completes. A list of at most one record is
      never compared, so it always sorts; a longer one is sorted by text
      keys, and a non-text key among them is taken to make it raise. */
  predicate SortCompletes(data: seq<Record>) {
    |data| <= 1 || AllTextKeys(data)
  }

  /** The durable file after save_history_entry(entry). A sort that
      raises, like a failed write or rename, is swallowed and the file is
      left as it was. */
  function AfterSave(f: StoredFile, entry: Record, fault: SaveFault): (g: StoredFile)
    ensures g == f || g == Saved(SortByTimestamp(Decoded(f) + [entry]))
    ensures g != f ==> fault == NoFault
  {
    var data := Decoded(f) + [entry];
    if SortCompletes(data) && fault == NoFault then Saved(SortByTimestamp(data)) else f
  }

  /** The temporary file after save_history_entry(entry): untouched when
      the sort raises or the file cannot be opened, partly written when the
      dump fails, complete when only the rename fails, and gone after a
      successful rename. */
  function TempAfterSave(f: StoredFile, t: StoredFile, entry: Record, fault: SaveFault): (u: StoredFile)
    ensures fault == NoFault && SortCompletes(Decoded(f) + [entry]) ==> u == Missing
    ensures fault == TempOpenFails || !SortCompletes(Decoded(f) + [entry]) ==> u == t
  {
    var data := Decoded(f) + [entry];
    if !SortCompletes(data) || fault == TempOpenFails then t
    else if fault == TempDumpFails then Corrupt
    else if fault == ReplaceFails then Saved(SortByTimestamp(data))
    else Missing
  }

  /** Sorting keeps every record, so it keeps their text keys. */
  lemma SortKeepsTextKeys(s: seq<Record>)
    requires AllTextKeys(s)
    ensures AllTextKeys(SortByTimestamp(s))
  {
    var r := SortByTimestamp(s);
    SortCorrect(TimestampKey, s);
    forall i | 0 <= i < |r| ensures HasTextKey(r[i]) {
      assert r[i] in multiset(s);
      var j :| 0 <= j < |s| && s[j] == r[i];
    }
  }

  /** A successful save stores the previous history plus the entry: one
      record more, a permutation of old + [entry], sorted by key, and the
      entry after every earlier record with the same key. */
  lemma SaveAppendsInOrder(f: StoredFile, entry: Record)
    requires AllTextKeys(Decoded(f)) && HasTextKey(entry)
    ensures AfterSave(f, entry, NoFault).Saved?
    ensures var r := AfterSave(f, entry, NoFault).records;
      && |r| == |Decoded(f)| + 1
      && multiset(r) == multiset(Decoded(f)) + multiset{entry}
      && Sorted(TimestampKey, r)
      && WithKey(TimestampKey, r, TimestampKey(entry)) == WithKey(TimestampKey, Decoded(f), TimestampKey(entry)) + [entry]
      && AllTextKeys(r)
  {
    var old_ := Decoded(f);
    var data := old_ + [entry];
    assert AllTextKeys(data) by {
      forall i | 0 <= i < |data| ensures HasTextKey(data[i]) {
        if i < |old_| { assert data[i] == old_[i]; }
      }
    }
    assert SortCompletes(data);
    assert AfterSave(f, entry, NoFault) == Saved(SortByTimestamp(data));
    SortCorrect(TimestampKey, data);
    WithKeyAppend(TimestampKey, old_, [entry], TimestampKey(entry));
    WithKeySingle(TimestampKey, entry, TimestampKey(entry));
    SortKeepsTextKeys(data);
  }

  /** Over a missing, empty, corrupt or unreadable file, a save leaves
      exactly [entry], whatever its timestamp: one record is never compared. */
  lemma SaveOverLostHistory(f: StoredFile, entry: Record)
    requires !f.Saved?
    ensures AfterSave(f, entry, NoFault) == Saved([entry])
  {
    assert Decoded(f) + [entry] == [entry];
  }

  /** An entry whose key is at least every stored key lands at the end. */
  lemma SaveInTimeOrder(f: StoredFile, entry: Record)
    requires AllTextKeys(Decoded(f)) && HasTextKey(entry) && Sorted(TimestampKey, Decoded(f))
    requires forall i :: 0 <= i < |Decoded(f)| ==> Text.LexBefore(TimestampKey(Decoded(f)[i]), TimestampKey(entry))
    ensures AfterSave(f, entry, NoFault) == Saved(Decoded(f) + [entry])
  {
    var data := Decoded(f) + [entry];
    assert AllTextKeys(data);
    assert Sorted(TimestampKey, data);
    SortOfSorted(TimestampKey, data);
  }

  /** The history store; `file` is trade_history.json and `temp` the
      trade_history.json.tmp file used for the atomic replace. */
  class HistoryStore {
    var file: StoredFile
    var temp: StoredFile

    constructor (initial: StoredFile)
      ensures file == initial && temp == Missing
    {
      file := initial;
      temp := Missing;
    }

    /** load_history(): never raises; anything but a saved list reads as []. */
    method LoadHistory() returns (data: seq<Record>)
      ensures data == Decoded(file)
    {
      match file
      case Saved(records) =>
        data := records;
      case _ =>
        data := [];
    }

    /** save_history_entry(entry). Every failure is swallowed; the durable
        file holds either the complete old or the complete new list. */
    method SaveHistoryEntry(entry: Record, fault: SaveFault)
      modifies this
      ensures file == AfterSave(old(file), entry, fault)
      ensures temp == TempAfterSave(old(file), old(temp), entry, fault)
    {
      var data := LoadHistory();
      data := data + [entry];
      if !SortCompletes(data) {
        return;  // the sort raises TypeError
      }
      data := SortByTimestamp(data);
      if fault == TempOpenFails {
        return;  // open(tmp_file, "w") raises
      }
      if fault == TempDumpFails {
        temp := Corrupt;  // a partly written temporary file
        return;
      }
      temp := Saved(data);
      if fault == ReplaceFails {
        return;
      }
      file, temp := temp, Missing;  // os.replace(tmp_file, HISTORY_FILE)
    }
  }
}
