/** The detection log: one `detections` table of rows (id, timestamp,
    frequency, power, band name) with an auto-incremented id, fed by event
    dictionaries. A database error (the file cannot be opened, locked past the
    timeout, disk full) is a `dbFault` argument: the call then fails and the
    table is unchanged. */
module Logger {
  import opened Common

  /** A value of an event dictionary, as far as the logger looks at it. */
  datatype Value = Text(s: string) | Number(x: real) | Null

  type EventDict = map<string, Value>

  /** Python truthiness: `None`, the empty string and zero are false. */
  predicate Falsy(v: Value) {
    v == Null || v == Text("") || v == Number(0.0)
  }

  /** `d.get(key, default)`. */
  function Get(d: EventDict, key: string, default: Value): Value {
    if key in d then d[key] else default
  }

  /** The four values `log_event` would insert. */
  datatype Record = Record(timestamp: Value, frequencyHz: Value, powerDb: Value, bandName: Value)

  /** A row of the table, as returned by a select. */
  datatype Row = Row(id: int, record: Record)

  /** The values extracted from an event dictionary, with their defaults;
      the power is the relative power when there is one. */
  function Extract(d: EventDict): Record {
    Record(Get(d, "timestamp", Text("")),
           Get(d, "frequency_hz", Number(0.0)),
           Get(d, "relative_power_db", Get(d, "power_db", Number(0.0))),
           Get(d, "band_name", Text("Unknown")))
  }

  /** Which value ends up in each column. */
  lemma ExtractDefaults(d: EventDict)
    ensures "relative_power_db" in d ==> Extract(d).powerDb == d["relative_power_db"]
    ensures "relative_power_db" !in d && "power_db" in d ==> Extract(d).powerDb == d["power_db"]
    ensures "relative_power_db" !in d && "power_db" !in d ==> Extract(d).powerDb == Number(0.0)
    ensures "band_name" !in d ==> Extract(d).bandName == Text("Unknown")
    ensures "timestamp" in d ==> Extract(d).timestamp == d["timestamp"]
    ensures "frequency_hz" in d ==> Extract(d).frequencyHz == d["frequency_hz"]
  {
  }

  /** The validation of `log_event`: a falsy timestamp or a zero frequency is
      refused before the database is touched. */
  predicate Acceptable(r: Record) {
    !Falsy(r.timestamp) && r.frequencyHz != Number(0.0)
  }

  /** All four columns are declared NOT NULL: a `None` among the values makes
      the insert fail. */
  predicate Insertable(r: Record) {
    r.timestamp != Null && r.frequencyHz != Null && r.powerDb != Null && r.bandName != Null
  }

  /** An event without a timestamp or without a frequency is always refused:
      the defaults are exactly the values the validation rejects. */
  lemma MissingKeysAreRejected(d: EventDict)
    ensures Acceptable(Extract(d)) ==> "timestamp" in d && "frequency_hz" in d
    ensures Acceptable(Extract(d)) ==> !Falsy(d["timestamp"]) && d["frequency_hz"] != Number(0.0)
  {
  }

  /** Ids strictly ascending in insertion order and below `nextId`. */
  ghost predicate Ordered(rows: seq<Row>, nextId: int) {
    && (forall i, j :: 0 <= i < j < |rows| ==> rows[i].id < rows[j].id)
    && (forall i :: 0 <= i < |rows| ==> 1 <= rows[i].id < nextId)
    && nextId >= 1
  }

  function Reverse(rows: seq<Row>): (r: seq<Row>)
    ensures |r| == |rows|
    ensures forall i :: 0 <= i < |rows| ==> r[i] == rows[|rows| - 1 - i]
  {
    if rows == [] then [] else [rows[|rows| - 1]] + Reverse(rows[..|rows| - 1])
  }

  /** `ORDER BY id DESC LIMIT limit` over rows stored in id order. SQLite
      reads a negative limit as no limit. */
  function NewestFirst(rows: seq<Row>, limit: int): seq<Row> {
    var newest := Reverse(rows);
    if limit < 0 || limit >= |rows| then newest else newest[..limit]
  }

  /** The select returns at most `limit` rows, the newest ones, newest first. */
  lemma NewestFirstSpec(rows: seq<Row>, nextId: int, limit: int)
    requires Ordered(rows, nextId)
    ensures var r := NewestFirst(rows, limit);
            && (limit >= 0 ==> |r| == if limit < |rows| then limit else |rows|)
            && (limit < 0 ==> |r| == |rows|)
            && (forall i :: 0 <= i < |r| ==> r[i] == rows[|rows| - 1 - i])
            && (forall i, j :: 0 <= i < j < |r| ==> r[i].id > r[j].id)
  {
  }

  // ---------------------------------------------------------------------------
  // Clearing the table: the statements the source issues
  // ---------------------------------------------------------------------------

  /** The statements of `clear_all_detections`. */
  datatype Statement = DeleteAll | Vacuum | Commit

  /** A connection: the committed table and, inside a transaction, the
      uncommitted one. */
  datatype Connection = Connection(committed: seq<Row>, pending: Option<seq<Row>>)

  /** One statement under Python's `sqlite3` default isolation: a data
      change first opens a transaction; `VACUUM` is refused inside one
      ("cannot VACUUM from within a transaction"); `None` is that error. */
  function Execute(c: Connection, st: Statement): (r: Option<Connection>)
    ensures st == DeleteAll ==> r == Some(Connection(c.committed, Some([])))
    ensures st == Vacuum ==> (r.Some? <==> c.pending.None?)
  {
    match st
    case DeleteAll => Some(c.(pending := Some([])))
    case Vacuum => if c.pending.Some? then None else Some(c)
    case Commit =>
      if c.pending.Some? then Some(Connection(c.pending.value, None)) else Some(c)
  }

  /** Runs statements in order, stopping at the first error. */
  function Run(c: Connection, script: seq<Statement>): Option<Connection>
    decreases |script|
  {
    if script == [] then Some(c)
    else
      var next := Execute(c, script[0]);
      if next.None? then None else Run(next.value, script[1..])
  }

  /** The committed table once a script has run: the connection's on
      success; on an error the uncommitted changes are dropped with the
      connection, leaving the table as it was. */
  function CommittedAfter(result: Option<Connection>, before: seq<Row>): seq<Row> {
    if result.Some? then result.value.committed else before
  }

  /** What `clear_all_detections` issues: delete, vacuum, commit. */
  const ClearScriptAsWritten := [DeleteAll, Vacuum, Commit]

  /** The intended order: commit the delete before vacuuming. */
  const ClearScript := [DeleteAll, Commit, Vacuum]

  /** As written, the vacuum always runs inside the transaction the delete
      opened, so the call reports failure and, the connection being dropped
      without a commit, the table keeps every row. */
  lemma ClearAsWrittenAlwaysFails(rows: seq<Row>)
    ensures Run(Connection(rows, None), ClearScriptAsWritten).None?
  {
    var c1 := Execute(Connection(rows, None), DeleteAll);
    assert c1.value.pending.Some?;
    assert Run(Connection(rows, None), ClearScriptAsWritten)
           == Run(c1.value, [Vacuum, Commit]);
  }

  /** Committing first empties the table and leaves no transaction open. */
  lemma ClearScriptEmpties(rows: seq<Row>)
    ensures Run(Connection(rows, None), ClearScript) == Some(Connection([], None))
  {
    var c1 := Execute(Connection(rows, None), DeleteAll).value;
    var c2 := Execute(c1, Commit).value;
    assert c2 == Connection([], None);
    assert Run(Connection(rows, None), ClearScript) == Run(c1, [Commit, Vacuum]);
    assert Run(c1, [Commit, Vacuum]) == Run(c2, [Vacuum]);
  }

  class SignalLogger {
    /** The table, in id order. */
    var rows: seq<Row>
    /** One more than the largest id ever handed out (AUTOINCREMENT never
        reuses an id, even after a delete). */
    var nextId: int

    ghost predicate Valid()
      reads this
    {
      Ordered(rows, nextId)
    }

    /** Opens a database that may already hold rows; creating the table when
        it is missing is the case `existing == []`. */
    constructor (existing: seq<Row>, nextId: int)
      requires Ordered(existing, nextId)
      ensures Valid() && rows == existing && this.nextId == nextId
    {
      rows := existing;
      this.nextId := nextId;
    }

    /** Validates and inserts one event. */
    method LogEvent(d: EventDict, dbFault: bool) returns (ok: bool)
      requires Valid()
      modifies this
      ensures Valid()
      ensures ok <==> Acceptable(Extract(d)) && !dbFault && Insertable(Extract(d))
      ensures ok ==> rows == old(rows) + [Row(old(nextId), Extract(d))] && nextId == old(nextId) + 1
      ensures !ok ==> rows == old(rows) && nextId == old(nextId)
    {
      var record := Extract(d);
      if Falsy(record.timestamp) || record.frequencyHz == Number(0.0) {
        return false;
      }
      if dbFault || !Insertable(record) {
        return false;
      }
      rows := rows + [Row(nextId, record)];
      nextId := nextId + 1;
      ok := true;
    }

    /** The newest `limit` rows, newest first; nothing on a database error. */
    method GetRecentDetections(limit: int, dbFault: bool) returns (r: seq<Row>)
      requires Valid()
      ensures dbFault ==> r == []
      ensures !dbFault ==> r == NewestFirst(rows, limit)
      ensures limit >= 0 ==> |r| <= limit
      ensures forall i, j :: 0 <= i < j < |r| ==> r[i].id > r[j].id
    {
      if dbFault {
        return [];
      }
      NewestFirstSpec(rows, nextId, limit);
      r := NewestFirst(rows, limit);
    }

    /** The number of rows; 0 on a database error. */
    method GetDetectionCount(dbFault: bool) returns (n: int)
      ensures n == if dbFault then 0 else |rows|
    {
      if dbFault {
        return 0;
      }
      n := |rows|;
    }

    /** `clear_all_detections` as written: delete, vacuum, commit. A failing
        statement raises, the connection is dropped without a commit and the
        committed table is what remains. The vacuum always fails inside the
        delete's transaction, so the call never succeeds and never removes a
        row. */
    method ClearAllDetections(dbFault: bool) returns (ok: bool)
      requires Valid()
      modifies this
      ensures Valid()
      ensures !ok && rows == old(rows) && nextId == old(nextId)
    {
      if dbFault {
        return false;
      }
      ClearAsWrittenAlwaysFails(rows);
      var result := Run(Connection(rows, None), ClearScriptAsWritten);
      ok := result.Some?;
      rows := CommittedAfter(result, rows);
    }

    /** The intended clearing, committing the delete before the vacuum:
        succeeds iff the database works, and then empties the table; the id
        counter is kept. */
    method ClearAllDetectionsCorrected(dbFault: bool) returns (ok: bool)
      requires Valid()
      modifies this
      ensures Valid()
      ensures ok == !dbFault
      ensures ok ==> rows == []
      ensures !ok ==> rows == old(rows)
      ensures nextId == old(nextId)
    {
      if dbFault {
        return false;
      }
      ClearScriptEmpties(rows);
      var result := Run(Connection(rows, None), ClearScript);
      ok := result.Some?;
      rows := CommittedAfter(result, rows);
    }
  }

  /** After a successful insert the count has grown by one, and the new row
      is the first one a select returns. */
  lemma LoggedRowIsNewest(rows: seq<Row>, nextId: int, record: Record, limit: int)
    requires Ordered(rows, nextId) && limit != 0
    ensures Ordered(rows + [Row(nextId, record)], nextId + 1)
    ensures |rows + [Row(nextId, record)]| == |rows| + 1
    ensures NewestFirst(rows + [Row(nextId, record)], limit)[0] == Row(nextId, record)
  {
    var rows' := rows + [Row(nextId, record)];
    NewestFirstSpec(rows', nextId + 1, limit);
  }
}
