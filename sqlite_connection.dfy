/** The part of the SQLite connector that the provider's storage code relies on:
 *  one in-memory database holding at most the providers_list table, whose only
 *  column peer_id is the PRIMARY KEY, and the prepare / bind / step protocol
 *  through which statements run. Engine failures that the code cannot
 *  foresee are injected as an optional error per step.
 */
module SqliteConnection {

  import opened Wrappers

  /** Why the connector reported an error. The connector's own error value and
   *  its text are not modelled, only the causes that matter to the storage code.
   */
  datatype ConnectorError =
    | SyntaxError                     // the statement text is not SQL the engine accepts
    | NoSuchTable                     // the statement names providers_list before it was created
    | ConstraintViolation             // an insert would give peer_id a second row
    | EngineFailure(message: string)  // any other failure (I/O, memory, a busy handle)

  /** The values a row may carry (floating-point values are left out). */
  datatype Value = Integer(intValue: int) | Text(text: string) | Binary(bytes: seq<bv8>) | Null

  datatype SqlResult<T> = SqlOk(value: T) | SqlErr(error: ConnectorError)

  /** The statements the storage code prepares, each with one `?` for a peer id. */
  datatype Statement = InsertPeer | SelectPeer | DeletePeer

  /** A prepared statement with its parameter bound. */
  datatype Cursor = Cursor(stmt: Statement, peerId: string)

  /** The database contents: whether providers_list exists, and its rows in insertion order. */
  datatype Db = Db(tableExists: bool, rows: seq<string>)

  /** The database after an operation, together with the operation's result. */
  datatype Transition<R> = Transition(db: Db, result: R)

  /** The SQL text the storage code prepares for each statement. */
  function Sql(stmt: Statement): string {
    match stmt
    case InsertPeer => "INSERT INTO providers_list (peer_id) VALUES (?)"
    case SelectPeer => "SELECT * FROM providers_list WHERE peer_id = ?"
    case DeletePeer => "DELETE * FROM providers_list WHERE peer_id = ?"
  }

  /** SQLite's DELETE statement (without a WITH clause) starts with the keywords DELETE FROM. */
  predicate DeleteSyntax(text: string) {
    "DELETE FROM " <= text
  }

  /** Whether the engine's parser accepts the statement's text. */
  predicate Accepted(stmt: Statement) {
    stmt.DeletePeer? ==> DeleteSyntax(Sql(stmt))
  }

  /** The delete text puts `*` after DELETE, so the parser refuses it. */
  lemma DeleteTextRejected()
    ensures !Accepted(DeletePeer)
  {
    assert Sql(DeletePeer)[7] != "DELETE FROM "[7];
  }

  /** The PRIMARY KEY: no peer id has two rows. */
  ghost predicate Unique(rows: seq<string>) {
    forall i, j :: 0 <= i < j < |rows| ==> rows[i] != rows[j]
  }

  /** The rows left once every row of `p` is deleted. */
  function Without(rows: seq<string>, p: string): (r: seq<string>)
    ensures forall q :: q in r <==> q in rows && q != p
    ensures Unique(rows) ==> Unique(r)
  {
    if rows == [] then []
    else if rows[0] == p then Without(rows[1..], p)
    else
      UniqueSplit(rows);
      var rest := Without(rows[1..], p);
      UniqueCons(rows[0], rest);
      [rows[0]] + rest
  }

  /** The tail of a duplicate-free sequence is duplicate-free and does not hold the head. */
  lemma UniqueSplit(rows: seq<string>)
    requires rows != []
    ensures Unique(rows) ==> Unique(rows[1..]) && rows[0] !in rows[1..]
  {
    if Unique(rows) {
      forall k | 0 <= k < |rows| - 1
        ensures rows[1..][k] != rows[0]
      {
        assert rows[1..][k] == rows[k + 1];
      }
    }
  }

  /** Putting a fresh id in front of a duplicate-free sequence keeps it duplicate-free. */
  lemma UniqueCons(x: string, rest: seq<string>)
    ensures Unique(rest) && x !in rest ==> Unique([x] + rest)
  {
    if Unique(rest) && x !in rest {
      forall i, j | 0 <= i < j < |rest| + 1
        ensures ([x] + rest)[i] != ([x] + rest)[j]
      {
        if i == 0 {
          assert rest[j - 1] in rest;
        } else {
          assert ([x] + rest)[i] == rest[i - 1] && ([x] + rest)[j] == rest[j - 1];
        }
      }
    }
  }

  /** Appending an id that has no row keeps the PRIMARY KEY. */
  lemma AppendKeepsUnique(rows: seq<string>, p: string)
    requires Unique(rows) && p !in rows
    ensures Unique(rows + [p])
  {
    forall i, j | 0 <= i < j < |rows| + 1
      ensures (rows + [p])[i] != (rows + [p])[j]
    {
      if j == |rows| {
        assert rows[i] in rows;
      }
    }
  }

  /** Preparing parses the text and resolves the table; it never writes. */
  function Prepare(db: Db, stmt: Statement, fault: Option<ConnectorError>): (r: SqlResult<Statement>)
    ensures r.SqlOk? <==> fault.None? && Accepted(stmt) && db.tableExists
    ensures r.SqlOk? ==> r.value == stmt
  {
    if fault.Some? then SqlErr(fault.value)
    else if !Accepted(stmt) then SqlErr(SyntaxError)
    else if !db.tableExists then SqlErr(NoSuchTable)
    else SqlOk(stmt)
  }

  /** Binding gives the statement's `?` the peer id. */
  function Bind(stmt: Statement, peerId: string, fault: Option<ConnectorError>): (r: SqlResult<Cursor>)
    ensures r.SqlOk? <==> fault.None?
    ensures r.SqlOk? ==> r.value == Cursor(stmt, peerId)
  {
    if fault.Some? then SqlErr(fault.value) else SqlOk(Cursor(stmt, peerId))
  }

  /** Stepping runs the bound statement; the boolean says whether it produced a row. */
  function Step(db: Db, c: Cursor, fault: Option<ConnectorError>): (t: Transition<SqlResult<bool>>)
    ensures t.db.tableExists == db.tableExists
    ensures t.result.SqlErr? ==> t.db == db
    ensures c.stmt == SelectPeer ==> t.db == db
  {
    if fault.Some? then Transition(db, SqlErr(fault.value))
    else
      match c.stmt
      case InsertPeer =>
        if c.peerId in db.rows then Transition(db, SqlErr(ConstraintViolation))
        else Transition(db.(rows := db.rows + [c.peerId]), SqlOk(false))
      case SelectPeer => Transition(db, SqlOk(c.peerId in db.rows))
      case DeletePeer => Transition(db.(rows := Without(db.rows, c.peerId)), SqlOk(false))
  }

  /** No step gives an id a second row. */
  lemma StepKeepsUnique(db: Db, c: Cursor, fault: Option<ConnectorError>)
    requires Unique(db.rows)
    ensures Unique(Step(db, c, fault).db.rows)
  {
    if fault.None? && c.stmt == InsertPeer && c.peerId !in db.rows {
      AppendKeepsUnique(db.rows, c.peerId);
    }
  }

  /** A delete, were it accepted, would take out the rows of its own peer id and no other. */
  lemma DeleteStepTouchesOnlyItsPeer(db: Db, p: string, q: string)
    requires q != p
    ensures var t := Step(db, Cursor(DeletePeer, p), None);
      t.result.SqlOk? && p !in t.db.rows && (q in t.db.rows <==> q in db.rows)
  {
  }

  /** CREATE TABLE IF NOT EXISTS providers_list: creates the table when it is missing and keeps its rows otherwise. */
  function CreateTable(db: Db, fault: Option<ConnectorError>): (t: Transition<SqlResult<()>>)
    ensures t.db.rows == db.rows
    ensures t.result.SqlOk? <==> fault.None?
    ensures t.result.SqlOk? ==> t.db.tableExists
    ensures t.result.SqlErr? ==> t.db == db
  {
    if fault.Some? then Transition(db, SqlErr(fault.value))
    else Transition(db.(tableExists := true), SqlOk(()))
  }

  /** The single shared connection. */
  class Connection {
    var tableExists: bool
    var rows: seq<string>

    function State(): Db
      reads this
    {
      Db(tableExists, rows)
    }

    ghost predicate Valid()
      reads this
    {
      Unique(rows)
    }

    /** Opening ":memory:" gives an empty database without tables. */
    constructor OpenInMemory()
      ensures Valid() && State() == Db(false, [])
    {
      tableExists, rows := false, [];
    }

    /** Executes the schema statement of the storage code. */
    method ExecuteCreateTable(fault: Option<ConnectorError>) returns (r: SqlResult<()>)
      requires Valid()
      modifies this
      ensures Valid()
      ensures Transition(State(), r) == CreateTable(old(State()), fault)
    {
      var t := CreateTable(State(), fault);
      tableExists, r := t.db.tableExists, t.result;
    }

    /** Advances a bound cursor by one step, applying the statement's effect. */
    method Next(c: Cursor, fault: Option<ConnectorError>) returns (r: SqlResult<bool>)
      requires Valid()
      modifies this
      ensures Valid()
      ensures Transition(State(), r) == Step(old(State()), c, fault)
    {
      var t := Step(State(), c, fault);
      StepKeepsUnique(State(), c, fault);
      rows, r := t.db.rows, t.result;
    }
  }
}
