/** The SQLite interaction log (database.py). The `query_logs` table is a sequence of
    records in insertion order; `conn` is the flag `connected`; whether
    `CREATE TABLE IF NOT EXISTS` has ever succeeded on this file is `tableExists`. */
module Database {
  import opened Base

  /** `str(uuid.uuid4())`, modelled as a serial number from a supply that never repeats. */
  datatype RequestId = RequestId(serial: nat)

  /** A `query_logs` row. Every column is NOT NULL except `prompt`. The AUTOINCREMENT
      `id` column is the row's position and is not stored. */
  datatype Record = Record(requestId: RequestId, timestamp: int, query: string,
                           answer: string, sources: string, prompt: Option<string>)

  datatype DbState = DbState(connected: bool, tableExists: bool, rows: seq<Record>)

  datatype DbError = ConnectFailed | CreateTableFailed

  /** `UNIQUE(request_id)`. */
  predicate UniqueIds(rows: seq<Record>)
  {
    forall i, j :: 0 <= i < j < |rows| ==> rows[i].requestId != rows[j].requestId
  }

  /** What any `query_logs` file satisfies: ids are unique, and there are no rows without
      the table. */
  ghost predicate WellFormed(s: DbState)
  {
    UniqueIds(s.rows) && (s.tableExists || s.rows == [])
  }

  predicate Logged(rows: seq<Record>, id: RequestId)
  {
    exists i :: 0 <= i < |rows| && rows[i].requestId == id
  }

  /** The log after `log_query(rec...)`: skipped without a connection; the INSERT fails
      (and the error is swallowed) without the table, on a duplicate `request_id`, or on
      any other database error `fault`. */
  function Insert(s: DbState, rec: Record, fault: bool): DbState
  {
    if !s.connected || !s.tableExists || fault || Logged(s.rows, rec.requestId) then s
    else s.(rows := s.rows + [rec])
  }

  /** The table never loses a row, only an existing table gains one, and the store's
      uniqueness constraint keeps holding. */
  lemma InsertPreservesTable(s: DbState, rec: Record, fault: bool)
    requires WellFormed(s)
    ensures WellFormed(Insert(s, rec, fault))
    ensures Insert(s, rec, fault).rows[..|s.rows|] == s.rows
    ensures |s.rows| <= |Insert(s, rec, fault).rows| <= |s.rows| + 1
    ensures Insert(s, rec, fault).connected == s.connected
    ensures Insert(s, rec, fault).tableExists == s.tableExists
    ensures Insert(s, rec, fault).rows != s.rows ==> s.connected && s.tableExists
  {
    var r := Insert(s, rec, fault).rows;
    if r != s.rows {
      forall i, j | 0 <= i < j < |r| ensures r[i].requestId != r[j].requestId {
        if j == |s.rows| {
          assert !Logged(s.rows, rec.requestId);
        }
      }
    }
  }

  /** A successful insert appends exactly the given record, which is then the only row
      carrying its `request_id`. */
  lemma InsertAppendsOne(s: DbState, rec: Record)
    requires UniqueIds(s.rows)
    requires s.connected && s.tableExists && !Logged(s.rows, rec.requestId)
    ensures Insert(s, rec, false).rows == s.rows + [rec]
    ensures forall i :: 0 <= i < |s.rows| + 1 && Insert(s, rec, false).rows[i].requestId == rec.requestId
                        ==> i == |s.rows|
  {
    var r := Insert(s, rec, false).rows;
    forall i | 0 <= i < |s.rows| + 1 && r[i].requestId == rec.requestId ensures i == |s.rows| {
      assert !Logged(s.rows, rec.requestId);
    }
  }

  /** A duplicate `request_id`, a missing connection or a missing table leave the log
      exactly as it was. */
  lemma RejectedInsertChangesNothing(s: DbState, rec: Record, fault: bool)
    requires Logged(s.rows, rec.requestId) || !s.connected || !s.tableExists || fault
    ensures Insert(s, rec, fault) == s
  {
  }

  class DatabaseLogger {
    const dbPath: string
    var connected: bool
    var tableExists: bool
    var rows: seq<Record>

    ghost predicate Valid()
      reads this
    {
      WellFormed(State())
    }

    function State(): DbState
      reads this
    {
      DbState(connected, tableExists, rows)
    }

    /** `DatabaseLogger(db_path)` over a database file that may already hold the table. */
    constructor (dbPath: string, tableExists: bool, rows: seq<Record>)
      requires UniqueIds(rows) && (tableExists || rows == [])
      ensures Valid()
      ensures this.dbPath == dbPath && State() == DbState(false, tableExists, rows)
    {
      this.dbPath := dbPath;
      this.tableExists := tableExists;
      this.rows := rows;
      connected := false;
    }

    /** Connects, then runs `CREATE TABLE IF NOT EXISTS`: existing rows survive, and a
        failure of either step propagates to the caller. A failed CREATE happens after the
        connection was stored, so the logger stays connected. */
    method Initialize(connectOk: bool, createOk: bool) returns (r: Outcome<DbError>)
      requires Valid()
      modifies this
      ensures Valid()
      ensures !connectOk ==> r == Fail(ConnectFailed) && State() == old(State())
      ensures connectOk ==> r == (if createOk then Pass else Fail(CreateTableFailed))
      ensures connectOk ==> State() == DbState(true, old(tableExists) || createOk, old(rows))
    {
      if !connectOk {
        return Fail(ConnectFailed);
      }
      connected := true;
      if !createOk {
        return Fail(CreateTableFailed);
      }
      tableExists := true;
      r := Pass;
    }

    /** Never raises: every failure leaves the table unchanged. */
    method LogQuery(requestId: RequestId, query: string, answer: string, sources: string,
                    prompt: Option<string>, now: int, fault: bool)
      requires Valid()
      modifies this
      ensures Valid()
      ensures State() == Insert(old(State()), Record(requestId, now, query, answer, sources, prompt), fault)
    {
      if !connected {
        return;
      }
      var rec := Record(requestId, now, query, answer, sources, prompt);
      if !tableExists || fault || Logged(rows, requestId) {
        return;
      }
      InsertPreservesTable(State(), rec, fault);
      rows := rows + [rec];
    }

    /** Closes the connection if there is one; calling it again changes nothing. */
    method Cleanup()
      modifies this
      ensures State() == old(State()).(connected := false)
    {
      if connected {
        connected := false;
      }
    }
  }
}
