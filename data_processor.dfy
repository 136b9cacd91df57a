/**
 * The stream processor: for each Kinesis record of a batch, in order, decode
 * the JSON payload, archive it raw under
 * `stock-data/<hour path>/<ticker>_<sequence number>.json`, then upsert the
 * normalised row keyed by (ticker, timestamp). The first failure ends the
 * batch: the records after it are not processed.
 *
 * The two external stores (the archive bucket and the `stock-data` table)
 * are the fields of class `Stores`; the pure functions below say what each
 * record and each batch writes.
 */
module DataProcessor {
  import opened StockData

  const ArchivePrefix: string := "stock-data/"
  const ArchiveSuffix: string := ".json"
  const Separator: char := '_'

  /** A decoded JSON value; `Composite` stands for arrays and objects. */
  datatype Value = Str(s: string) | Int(i: int) | Real(x: real) | Bool(b: bool) | Null | Composite

  /** A decoded JSON object. */
  type Payload = map<string, Value>

  /**
   * A Kinesis record: its sequence number and its data after base64 and
   * JSON decoding, or None when the data does not decode to a JSON object.
   */
  datatype StreamRecord = StreamRecord(sequenceNumber: string, payload: Option<Payload>)

  /**
   * What the outside world supplies while one record is processed: the
   * clock reading formatted as `%Y/%m/%d/%H`, and whether the archive write
   * and the table write go through.
   */
  datatype Env = Env(hourPath: string, archiveUp: bool, tableUp: bool)

  datatype Failure =
    | Undecodable
    | MissingField(name: string)
    | BadValue(name: string)
    | ArchiveWriteFailed
    | TableWriteFailed

  // ---------------------------------------------------------------------
  // The archive key
  // ---------------------------------------------------------------------

  function ArchiveKey(hourPath: string, ticker: string, sequenceNumber: string): string {
    ArchivePrefix + hourPath + "/" + ticker + [Separator] + sequenceNumber + ArchiveSuffix
  }

  /** In `t + "_" + s` with no `_` in `s`, the separator at |t| is the last one. */
  lemma LastSeparatorAt(x: string, t: string, s: string)
    requires Separator !in s
    requires x == t + [Separator] + s
    ensures x[|t|] == Separator
    ensures forall j :: |t| < j < |x| ==> x[j] != Separator
  {
  }

  lemma SplitAtLastSeparator(t1: string, s1: string, t2: string, s2: string)
    requires Separator !in s1 && Separator !in s2
    requires t1 + [Separator] + s1 == t2 + [Separator] + s2
    ensures t1 == t2 && s1 == s2
  {
    var x := t1 + [Separator] + s1;
    LastSeparatorAt(x, t1, s1);
    LastSeparatorAt(x, t2, s2);
    assert |t1| == |t2|;
    assert t1 == x[..|t1|] == t2;
    assert s1 == x[|t1| + 1..] == s2;
  }

  /**
   * Archive keys never collide: with hour paths of one fixed width and
   * sequence numbers free of `_` (Kinesis sequence numbers are digit
   * strings), equal keys mean equal hour, ticker and sequence number, so two
   * records with distinct tickers or distinct sequence numbers get distinct
   * keys.
   */
  lemma ArchiveKeyInjective(h1: string, t1: string, s1: string, h2: string, t2: string, s2: string)
    requires |h1| == |h2|
    requires Separator !in s1 && Separator !in s2
    requires ArchiveKey(h1, t1, s1) == ArchiveKey(h2, t2, s2)
    ensures h1 == h2 && t1 == t2 && s1 == s2
  {
    var key := ArchiveKey(h1, t1, s1);
    var p := |ArchivePrefix|;
    assert key == ArchivePrefix + h1 + ("/" + (t1 + [Separator] + s1) + ArchiveSuffix);
    assert key == ArchivePrefix + h2 + ("/" + (t2 + [Separator] + s2) + ArchiveSuffix);
    assert h1 == key[p..p + |h1|] == h2;
    var mid := key[p + |h1| + 1..|key| - |ArchiveSuffix|];
    assert mid == t1 + [Separator] + s1;
    assert mid == t2 + [Separator] + s2;
    SplitAtLastSeparator(t1, s1, t2, s2);
  }

  // ---------------------------------------------------------------------
  // Field conversions and the default-fill rule
  // ---------------------------------------------------------------------

  /** Python's `int(x)` on a float: truncation toward zero. */
  function Trunc(x: real): (n: int)
    ensures 0.0 <= x ==> n as real <= x < n as real + 1.0
    ensures x < 0.0 ==> n as real - 1.0 < x <= n as real
  {
    if x >= 0.0 then x.Floor else -((-x).Floor)
  }

  /** `int(v)` on a decoded JSON value; None where Python raises. */
  function AsInt(v: Value): Option<int> {
    match v
    case Int(i) => Some(i)
    case Real(x) => Some(Trunc(x))
    case Bool(b) => Some(if b then 1 else 0)
    case _ => None
  }

  /** `Decimal(str(v))` on a decoded JSON value; None where Python raises. */
  function AsDecimal(v: Value): Option<real> {
    match v
    case Int(i) => Some(i as real)
    case Real(x) => Some(x)
    case _ => None
  }

  /** `data.get(name, default)` */
  function GetOr(data: Payload, name: string, default: Value): Value {
    if name in data then data[name] else default
  }

  function Field(data: Payload, name: string): Result<Value, Failure> {
    if name in data then Ok(data[name]) else Err(MissingField(name))
  }

  function ToInt(v: Value, name: string): Result<int, Failure> {
    match AsInt(v)
    case Some(i) => Ok(i)
    case None => Err(BadValue(name))
  }

  function ToDecimal(v: Value, name: string): Result<real, Failure> {
    match AsDecimal(v)
    case Some(x) => Ok(x)
    case None => Err(BadValue(name))
  }

  /** `data['ticker']`, which must be a string to name the archive object and the row. */
  function TickerOf(data: Payload): Result<string, Failure> {
    var v :- Field(data, "ticker");
    if v.Str? then Ok(v.s) else Err(BadValue("ticker"))
  }

  /** An optional price field converts when present (when absent `price` stands in). */
  predicate FillConverts(data: Payload, name: string) {
    name in data ==> AsDecimal(data[name]).Some?
  }

  /** The stored value of an optional price field: its own when present, else the price. */
  predicate FilledAs(data: Payload, name: string, stored: real, price: real) {
    if name in data then AsDecimal(data[name]) == Some(stored) else stored == price
  }

  /**
   * The row `put_item` stores for a decoded payload, fields converted in the
   * order the item literal evaluates them. `close`, `high`, `low` and `open`
   * default to `price` and `volume` to 0; `timestamp` is truncated to an
   * integer. It fails exactly when a required field is missing or a field
   * does not convert.
   */
  function Normalise(data: Payload): (r: Result<Row, Failure>)
    ensures r.Ok? <==>
      && TickerOf(data).Ok?
      && "timestamp" in data && AsInt(data["timestamp"]).Some?
      && "price" in data && AsDecimal(data["price"]).Some?
      && FillConverts(data, "close") && FillConverts(data, "high")
      && FillConverts(data, "low") && FillConverts(data, "open")
      && ("volume" in data ==> AsInt(data["volume"]).Some?)
    ensures r.Ok? ==>
      && r.value.ticker == TickerOf(data).value
      && Some(r.value.timestamp) == AsInt(data["timestamp"])
      && Some(r.value.price) == AsDecimal(data["price"])
      && FilledAs(data, "close", r.value.close, r.value.price)
      && FilledAs(data, "high", r.value.high, r.value.price)
      && FilledAs(data, "low", r.value.low, r.value.price)
      && FilledAs(data, "open", r.value.open, r.value.price)
      && r.value.volume == (if "volume" in data then AsInt(data["volume"]).value else 0)
    ensures r.Err? ==> r.error.MissingField? || r.error.BadValue?
  {
    var ticker :- TickerOf(data);
    var stamp :- Field(data, "timestamp");
    var timestamp :- ToInt(stamp, "timestamp");
    var quoted :- Field(data, "price");
    var price :- ToDecimal(quoted, "price");
    var close :- ToDecimal(GetOr(data, "close", quoted), "close");
    var volume :- ToInt(GetOr(data, "volume", Int(0)), "volume");
    var high :- ToDecimal(GetOr(data, "high", quoted), "high");
    var low :- ToDecimal(GetOr(data, "low", quoted), "low");
    var open :- ToDecimal(GetOr(data, "open", quoted), "open");
    Ok(Row(ticker, timestamp, price, close, volume, high, low, open))
  }

  /** A payload as the ingestion side sends it, without `close`. */
  lemma CloseDefaultsToPriceExample()
    ensures var data := map["ticker" := Str("ORCL"), "timestamp" := Real(1700000000.9),
                            "price" := Real(101.5), "volume" := Int(300), "high" := Real(102.0),
                            "low" := Real(100.25), "open" := Int(101)];
      Normalise(data) == Ok(Row("ORCL", 1700000000, 101.5, 101.5, 300, 102.0, 100.25, 101.0))
  {
  }

  // ---------------------------------------------------------------------
  // What one record and one batch write
  // ---------------------------------------------------------------------

  /** One external write: `s3.put_object` or `table.put_item`. */
  datatype Write = Archive(key: string, body: Payload) | Put(row: Row)

  /** The writes one record performed, and the failure that ended it, if any. */
  datatype Step = Step(writes: seq<Write>, failure: Option<Failure>)

  /**
   * One iteration of the handler's loop. The archive write comes first and
   * needs only the ticker; the row is built after it, so a payload whose
   * other fields do not convert is archived but not stored in the table.
   */
  function RecordStep(rec: StreamRecord, env: Env): (st: Step)
    ensures st.failure == None <==>
      rec.payload.Some? && Normalise(rec.payload.value).Ok? && env.archiveUp && env.tableUp
    ensures st.failure == None ==>
      var data := rec.payload.value;
      st.writes == [Archive(ArchiveKey(env.hourPath, TickerOf(data).value, rec.sequenceNumber), data),
                    Put(Normalise(data).value)]
    ensures st.failure.Some? ==> |st.writes| <= 1 && forall w :: w in st.writes ==> w.Archive?
    ensures st.writes != [] ==>
      && rec.payload.Some? && TickerOf(rec.payload.value).Ok? && env.archiveUp
      && st.writes[0] == Archive(ArchiveKey(env.hourPath, TickerOf(rec.payload.value).value, rec.sequenceNumber),
                                 rec.payload.value)
  {
    match rec.payload
    case None => Step([], Some(Undecodable))
    case Some(data) =>
      match TickerOf(data)
      case Err(e) => Step([], Some(e))
      case Ok(ticker) =>
        var archived := Archive(ArchiveKey(env.hourPath, ticker, rec.sequenceNumber), data);
        if !env.archiveUp then Step([], Some(ArchiveWriteFailed))
        else
          match Normalise(data)
          case Err(e) => Step([archived], Some(e))
          case Ok(row) =>
            if !env.tableUp then Step([archived], Some(TableWriteFailed))
            else Step([archived, Put(row)], None)
  }

  /**
   * A failed record leaves an archive object behind exactly when it got as
   * far as the archive write and that write went through.
   */
  lemma FailedRecordArchivesIffReached(rec: StreamRecord, env: Env)
    requires RecordStep(rec, env).failure.Some?
    ensures RecordStep(rec, env).writes != [] <==>
      rec.payload.Some? && TickerOf(rec.payload.value).Ok? && env.archiveUp
  {
  }

  /** Completed is the handler's status-200 return; Aborted is the exception it lets escape. */
  datatype BatchResult = Completed | Aborted(index: nat, failure: Failure)

  datatype Run = Run(writes: seq<Write>, result: BatchResult)

  /** The handler's loop over a batch, record `i` meeting `env(i)`; it stops at the first failure. */
  function RunBatch(records: seq<StreamRecord>, env: nat -> Env): Run
    decreases |records|
  {
    if records == [] then Run([], Completed)
    else
      var n := |records| - 1;
      var prev := RunBatch(records[..n], env);
      if prev.result.Aborted? then prev
      else
        var st := RecordStep(records[n], env(n));
        Run(prev.writes + st.writes, if st.failure.Some? then Aborted(n, st.failure.value) else Completed)
  }

  /** Extending a completed prefix by one record performs that record's step. */
  lemma RunBatchExtend(records: seq<StreamRecord>, env: nat -> Env, i: nat)
    requires i < |records|
    requires RunBatch(records[..i], env).result == Completed
    ensures var st := RecordStep(records[i], env(i));
      RunBatch(records[..i + 1], env) ==
        Run(RunBatch(records[..i], env).writes + st.writes,
            if st.failure.Some? then Aborted(i, st.failure.value) else Completed)
  {
    assert records[..i + 1][..i] == records[..i];
  }

  /**
   * What one more loop iteration of the handler amounts to: the stores after
   * record `i` are those of the batch cut after `i`, and a failure there is
   * the whole batch's result.
   */
  lemma HandleStep(start: Snapshot, records: seq<StreamRecord>, env: nat -> Env, i: nat)
    requires i < |records|
    requires RunBatch(records[..i], env).result == Completed
    ensures var st := RecordStep(records[i], env(i));
      && RunBatch(records[..i + 1], env).result ==
           (if st.failure.Some? then Aborted(i, st.failure.value) else Completed)
      && ApplyWrites(ApplyWrites(start, RunBatch(records[..i], env).writes), st.writes) ==
           ApplyWrites(start, RunBatch(records[..i + 1], env).writes)
  {
    RunBatchExtend(records, env, i);
    ApplyWritesAppend(start, RunBatch(records[..i], env).writes, RecordStep(records[i], env(i)).writes);
  }

  /** Once a prefix of the batch has aborted, the whole batch's run is that prefix's. */
  lemma AbortedPrefixDecides(records: seq<StreamRecord>, env: nat -> Env, n: nat)
    requires n <= |records|
    requires RunBatch(records[..n], env).result.Aborted?
    ensures RunBatch(records, env) == RunBatch(records[..n], env)
  {
    AbortIsFinal(records[..n], records[n..], env);
    assert records[..n] + records[n..] == records;
  }

  /** The batch completes, status 200, exactly when every record succeeds. */
  lemma {:induction false} CompletedIffAllSucceed(records: seq<StreamRecord>, env: nat -> Env)
    ensures RunBatch(records, env).result == Completed <==>
      forall i :: 0 <= i < |records| ==> RecordStep(records[i], env(i)).failure == None
  {
    if records != [] {
      var n := |records| - 1;
      CompletedIffAllSucceed(records[..n], env);
      assert forall i :: 0 <= i < n ==> records[..n][i] == records[i];
    }
  }

  /**
   * A completed batch wrote, record by record in order, one archive write
   * followed by one table upsert.
   */
  lemma {:induction false} CompletedWritesInOrder(records: seq<StreamRecord>, env: nat -> Env)
    requires RunBatch(records, env).result == Completed
    ensures var ws := RunBatch(records, env).writes;
      && |ws| == 2 * |records|
      && forall i :: 0 <= i < |records| ==>
           var st := RecordStep(records[i], env(i));
           && st.failure == None
           && ws[2 * i] == st.writes[0] && ws[2 * i].Archive?
           && ws[2 * i + 1] == st.writes[1] && ws[2 * i + 1].Put?
  {
    if records != [] {
      var n := |records| - 1;
      var prev := RunBatch(records[..n], env);
      var last := RecordStep(records[n], env(n));
      CompletedWritesInOrder(records[..n], env);
      var ws := RunBatch(records, env).writes;
      assert ws == prev.writes + last.writes;
      forall i | 0 <= i < |records|
        ensures var st := RecordStep(records[i], env(i));
          && st.failure == None
          && ws[2 * i] == st.writes[0] && ws[2 * i].Archive?
          && ws[2 * i + 1] == st.writes[1] && ws[2 * i + 1].Put?
      {
        if i < n {
          assert records[..n][i] == records[i];
        }
      }
    }
  }

  /**
   * A batch aborted at record i has processed every earlier record
   * successfully, performed only record i's partial writes after them, and
   * not touched the records after it.
   */
  lemma {:induction false} AbortedStopsAtFailure(records: seq<StreamRecord>, env: nat -> Env)
    requires RunBatch(records, env).result.Aborted?
    ensures var run := RunBatch(records, env);
      var i := run.result.index;
      && i < |records|
      && RecordStep(records[i], env(i)).failure == Some(run.result.failure)
      && (forall j :: 0 <= j < i ==> RecordStep(records[j], env(j)).failure == None)
      && run.writes == RunBatch(records[..i], env).writes + RecordStep(records[i], env(i)).writes
      && RunBatch(records[..i], env).result == Completed
  {
    var n := |records| - 1;
    var prev := RunBatch(records[..n], env);
    if prev.result.Aborted? {
      AbortedStopsAtFailure(records[..n], env);
      var i := prev.result.index;
      assert records[..n][..i] == records[..i];
      assert forall j :: 0 <= j <= i ==> records[..n][j] == records[j];
    } else {
      CompletedIffAllSucceed(records[..n], env);
      assert forall j :: 0 <= j < n ==> records[..n][j] == records[j];
    }
  }

  /** Records appended after the failing one change nothing. */
  lemma {:induction false} AbortIsFinal(records: seq<StreamRecord>, later: seq<StreamRecord>, env: nat -> Env)
    requires RunBatch(records, env).result.Aborted?
    ensures RunBatch(records + later, env) == RunBatch(records, env)
  {
    if later != [] {
      var all := records + later;
      var n := |all| - 1;
      assert all[..n] == records + later[..|later| - 1];
      AbortIsFinal(records, later[..|later| - 1], env);
    } else {
      assert records + later == records;
    }
  }

  // ---------------------------------------------------------------------
  // The stores as values, and what writes do to them
  // ---------------------------------------------------------------------

  datatype Snapshot = Snapshot(blobs: map<string, Payload>, table: Table)

  function ApplyWrite(s: Snapshot, w: Write): Snapshot {
    match w
    case Archive(key, body) => s.(blobs := s.blobs[key := body])
    case Put(row) => s.(table := Upsert(s.table, row))
  }

  /** The stores after performing `ws` in order, starting from `s`. */
  function ApplyWrites(s: Snapshot, ws: seq<Write>): Snapshot
    decreases |ws|
  {
    if ws == [] then s else ApplyWrite(ApplyWrites(s, ws[..|ws| - 1]), ws[|ws| - 1])
  }

  lemma {:induction false} ApplyWritesAppend(s: Snapshot, a: seq<Write>, b: seq<Write>)
    ensures ApplyWrites(s, a + b) == ApplyWrites(ApplyWrites(s, a), b)
    decreases |b|
  {
    if b == [] {
      assert a + b == a;
    } else {
      assert (a + b)[..|a + b| - 1] == a + b[..|b| - 1];
      ApplyWritesAppend(s, a, b[..|b| - 1]);
    }
  }

  /** The table keeps every row under its own key whatever is written. */
  lemma {:induction false} ApplyWritesWellKeyed(s: Snapshot, ws: seq<Write>)
    requires WellKeyed(s.table)
    ensures WellKeyed(ApplyWrites(s, ws).table)
    decreases |ws|
  {
    if ws != [] {
      ApplyWritesWellKeyed(s, ws[..|ws| - 1]);
    }
  }

  function Get<K, V>(m: map<K, V>, k: K): Option<V> {
    if k in m then Some(m[k]) else None
  }

  /** The row of the last upsert with key `k` in `ws`. */
  function LastPut(ws: seq<Write>, k: Key): Option<Row>
    decreases |ws|
  {
    if ws == [] then None
    else
      var w := ws[|ws| - 1];
      if w.Put? && KeyOf(w.row) == k then Some(w.row) else LastPut(ws[..|ws| - 1], k)
  }

  /** The body of the last archive write under `key` in `ws`. */
  function LastArchive(ws: seq<Write>, key: string): Option<Payload>
    decreases |ws|
  {
    if ws == [] then None
    else
      var w := ws[|ws| - 1];
      if w.Archive? && w.key == key then Some(w.body) else LastArchive(ws[..|ws| - 1], key)
  }

  /**
   * Last write wins: after `ws`, every key holds what the last write to it
   * in `ws` wrote, and keys `ws` never wrote hold what they held before.
   */
  lemma {:induction false} LastWriteWins(s: Snapshot, ws: seq<Write>)
    ensures forall k ::
              Get(ApplyWrites(s, ws).table, k) ==
              (if LastPut(ws, k).Some? then LastPut(ws, k) else Get(s.table, k))
    ensures forall key ::
              Get(ApplyWrites(s, ws).blobs, key) ==
              (if LastArchive(ws, key).Some? then LastArchive(ws, key) else Get(s.blobs, key))
    decreases |ws|
  {
    if ws != [] {
      LastWriteWins(s, ws[..|ws| - 1]);
    }
  }

  lemma MapsAgree<K, V>(a: map<K, V>, b: map<K, V>)
    requires forall k :: Get(a, k) == Get(b, k)
    ensures a == b
  {
    assert forall k :: k in a <==> Get(a, k).Some?;
    assert a.Keys == b.Keys;
  }

  /**
   * Redelivery is harmless: performing the same writes a second time leaves
   * both stores as the first time did. In particular re-processing a record
   * or a whole batch changes nothing.
   */
  lemma ReplayIdempotent(s: Snapshot, ws: seq<Write>)
    ensures ApplyWrites(ApplyWrites(s, ws), ws) == ApplyWrites(s, ws)
  {
    var once := ApplyWrites(s, ws);
    LastWriteWins(s, ws);
    LastWriteWins(once, ws);
    MapsAgree(ApplyWrites(once, ws).table, once.table);
    MapsAgree(ApplyWrites(once, ws).blobs, once.blobs);
  }

  /**
   * Redelivering a record that succeeds again leaves the table as the first
   * delivery left it, whatever the clock and the archive did in between:
   * the row does not depend on the hour path.
   */
  lemma RedeliveryKeepsTable(s: Snapshot, rec: StreamRecord, first: Env, again: Env)
    requires RecordStep(rec, first).failure == None
    requires RecordStep(rec, again).failure == None
    ensures var once := ApplyWrites(s, RecordStep(rec, first).writes);
      ApplyWrites(once, RecordStep(rec, again).writes).table == once.table
  {
    var w1 := RecordStep(rec, first).writes;
    var w2 := RecordStep(rec, again).writes;
    var once := ApplyWrites(s, w1);
    var row := Normalise(rec.payload.value).value;
    ApplyTwoWrites(s, w1[0], w1[1]);
    assert w1 == [w1[0], w1[1]];
    assert once.table == Upsert(s.table, row);
    ApplyTwoWrites(once, w2[0], w2[1]);
    assert w2 == [w2[0], w2[1]];
    UpsertIdempotent(s.table, row);
  }

  lemma ApplyTwoWrites(s: Snapshot, a: Write, b: Write)
    ensures ApplyWrites(s, [a, b]) == ApplyWrite(ApplyWrite(s, a), b)
  {
    var ws := [a, b];
    assert ws[..|ws| - 1] == [a];
    assert [a][..0] == [];
    assert ApplyWrites(s, [a]) == ApplyWrite(s, a);
  }

  /**
   * One record's upsert replaces the row with its (ticker, timestamp) key
   * and leaves every row with another key as it was.
   */
  lemma RecordTouchesOnlyItsKey(s: Snapshot, rec: StreamRecord, env: Env)
    requires RecordStep(rec, env).failure == None
    ensures var after := ApplyWrites(s, RecordStep(rec, env).writes).table;
      var row := Normalise(rec.payload.value).value;
      && Get(after, KeyOf(row)) == Some(row)
      && forall k :: k != KeyOf(row) ==> Get(after, k) == Get(s.table, k)
  {
    var ws := RecordStep(rec, env).writes;
    LastWriteWins(s, ws);
    var row := Normalise(rec.payload.value).value;
    assert ws[..1][..0] == [];
    forall k | k != KeyOf(row)
      ensures LastPut(ws, k) == None
    {
      assert LastPut(ws, k) == LastPut(ws[..1], k) == LastPut(ws[..1][..0], k);
    }
  }

  // ---------------------------------------------------------------------
  // The stores and the handler
  // ---------------------------------------------------------------------

  /** The archive bucket and the `stock-data` table. */
  class Stores {
    var blobs: map<string, Payload>
    var table: Table

    constructor (blobs0: map<string, Payload>, table0: Table)
      ensures blobs == blobs0 && table == table0
    {
      blobs := blobs0;
      table := table0;
    }

    function Contents(): Snapshot
      reads this
    {
      Snapshot(blobs, table)
    }

    /** `s3.put_object`; `up` says whether the service accepts the write. */
    method PutObject(key: string, body: Payload, up: bool) returns (ok: bool)
      modifies this
      ensures ok == up
      ensures blobs == (if up then old(blobs)[key := body] else old(blobs))
      ensures table == old(table)
    {
      ok := up;
      if up {
        blobs := blobs[key := body];
      }
    }

    /** `table.put_item`; `up` says whether the service accepts the write. */
    method PutItem(row: Row, up: bool) returns (ok: bool)
      modifies this
      ensures ok == up
      ensures table == (if up then Upsert(old(table), row) else old(table))
      ensures blobs == old(blobs)
    {
      ok := up;
      if up {
        table := Upsert(table, row);
      }
    }

    /** One iteration of the handler's loop. */
    method ProcessRecord(rec: StreamRecord, env: Env) returns (failure: Option<Failure>)
      modifies this
      ensures failure == RecordStep(rec, env).failure
      ensures Contents() == ApplyWrites(old(Contents()), RecordStep(rec, env).writes)
    {
      if rec.payload.None? {
        return Some(Undecodable);
      }
      var data := rec.payload.value;
      var ticker := TickerOf(data);
      if ticker.Err? {
        return Some(ticker.error);
      }
      var key := ArchiveKey(env.hourPath, ticker.value, rec.sequenceNumber);
      var ok := PutObject(key, data, env.archiveUp);
      if !ok {
        return Some(ArchiveWriteFailed);
      }
      assert Contents() == ApplyWrites(old(Contents()), [Archive(key, data)]);
      var row := Normalise(data);
      if row.Err? {
        return Some(row.error);
      }
      ok := PutItem(row.value, env.tableUp);
      if !ok {
        return Some(TableWriteFailed);
      }
      assert [Archive(key, data), Put(row.value)][..1] == [Archive(key, data)];
      failure := None;
    }

    /**
     * `lambda_handler`: process the records in order, stopping at the first
     * failure, with record `i` meeting `env(i)`.
     */
    method Handle(records: seq<StreamRecord>, env: nat -> Env) returns (result: BatchResult)
      modifies this
      ensures result == RunBatch(records, env).result
      ensures Contents() == ApplyWrites(old(Contents()), RunBatch(records, env).writes)
    {
      var i := 0;
      while i < |records|
        invariant 0 <= i <= |records|
        invariant RunBatch(records[..i], env).result == Completed
        invariant Contents() == ApplyWrites(old(Contents()), RunBatch(records[..i], env).writes)
      {
        var failure := ProcessRecord(records[i], env(i));
        HandleStep(old(Contents()), records, env, i);
        if failure.Some? {
          AbortedPrefixDecides(records, env, i + 1);
          return Aborted(i, failure.value);
        }
        i := i + 1;
      }
      assert records[..i] == records;
      result := Completed;
    }
  }
}
