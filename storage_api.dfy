/** The provider's storage: the providers_list table on the shared connection,
 *  read and written through prepare / bind / step, each step's failure
 *  propagated as a connector error.
 */
module StorageApi {

  import opened Wrappers
  import opened SqliteConnection
  import opened ProviderErrors

  /** The engine failures one call meets at its prepare, bind and step. */
  datatype Env = Env(prepare: Option<ConnectorError>, bind: Option<ConnectorError>, step: Option<ConnectorError>)

  const NoFaults: Env := Env(None, None, None)

  /** init: the schema statement, with its connector error converted. */
  function InitOutcome(db: Db, fault: Option<ConnectorError>): Transition<Result<()>> {
    var t := CreateTable(db, fault);
    Transition(t.db, if t.result.SqlErr? then Err(FromConnectorError(t.result.error)) else Ok(()))
  }

  /** Prepare, bind and step one writing statement, stopping at the first failure. */
  function PeerStatementOutcome(db: Db, stmt: Statement, peerId: string, env: Env): Transition<Result<()>> {
    match Prepare(db, stmt, env.prepare)
    case SqlErr(e) => Transition(db, Err(FromConnectorError(e)))
    case SqlOk(s) =>
      match Bind(s, peerId, env.bind)
      case SqlErr(e) => Transition(db, Err(FromConnectorError(e)))
      case SqlOk(c) =>
        var t := Step(db, c, env.step);
        match t.result
        case SqlErr(e) => Transition(t.db, Err(FromConnectorError(e)))
        case SqlOk(_) => Transition(t.db, Ok(()))
  }

  function AddOutcome(db: Db, peerId: string, env: Env): Transition<Result<()>> {
    PeerStatementOutcome(db, InsertPeer, peerId, env)
  }

  function DeleteOutcome(db: Db, peerId: string, env: Env): Transition<Result<()>> {
    PeerStatementOutcome(db, DeletePeer, peerId, env)
  }

  /** contains: whether the select produced a row. */
  function ContainsResult(db: Db, peerId: string, env: Env): Result<bool> {
    match Prepare(db, SelectPeer, env.prepare)
    case SqlErr(e) => Err(FromConnectorError(e))
    case SqlOk(s) =>
      match Bind(s, peerId, env.bind)
      case SqlErr(e) => Err(FromConnectorError(e))
      case SqlOk(c) =>
        match Step(db, c, env.step).result
        case SqlErr(e) => Err(FromConnectorError(e))
        case SqlOk(found) => Ok(found)
  }

  /** init is create-if-absent: it never touches the rows, and once it succeeds the table exists. */
  lemma InitKeepsRows(db: Db, fault: Option<ConnectorError>)
    ensures InitOutcome(db, fault).db.rows == db.rows
    ensures InitOutcome(db, fault).result.Ok? <==> fault.None?
    ensures fault.None? ==> InitOutcome(db, fault).db.tableExists
    ensures fault.Some? ==> InitOutcome(db, fault).db == db
  {
  }

  /** Calling init a second time leaves the table and its contents as the first call left them. */
  lemma InitIdempotent(db: Db, fault: Option<ConnectorError>)
    ensures var once := InitOutcome(db, None).db;
      InitOutcome(once, fault).db == once
  {
  }

  /** add succeeds exactly when the table exists, no step fails and the id has no row;
   *  it then appends one row, and otherwise changes nothing.
   */
  lemma AddCharacterized(db: Db, peerId: string, env: Env)
    ensures var t := AddOutcome(db, peerId, env);
      (t.result.Ok? <==> db.tableExists && env == NoFaults && peerId !in db.rows) &&
      (t.result.Ok? ==> t.db == db.(rows := db.rows + [peerId])) &&
      (t.result.Err? ==> t.db == db && t.result.error.SqliteConnectorError?)
  {
  }

  /** add is a plain insert, not an upsert: an id that already has a row is refused
   *  with a constraint violation and the table is unchanged.
   */
  lemma AddPresentIsRefused(db: Db, peerId: string)
    requires db.tableExists && peerId in db.rows
    ensures AddOutcome(db, peerId, NoFaults) == Transition(db, Err(SqliteConnectorError(ConstraintViolation)))
  {
  }

  /** contains answers Ok exactly when the table exists and no step fails, and then
   *  says whether the id has a row; absence is not an error.
   */
  lemma ContainsCharacterized(db: Db, peerId: string, env: Env)
    ensures var r := ContainsResult(db, peerId, env);
      (r.Ok? <==> db.tableExists && env == NoFaults) &&
      (r.Ok? ==> (r.value <==> peerId in db.rows)) &&
      (r.Err? ==> r.error.SqliteConnectorError?)
  {
  }

  /** After a successful add, contains reports the id. */
  lemma AddThenContains(db: Db, peerId: string, env: Env)
    requires AddOutcome(db, peerId, env).result.Ok?
    ensures ContainsResult(AddOutcome(db, peerId, env).db, peerId, NoFaults) == Ok(true)
  {
  }

  /** delete never succeeds: its text is refused at prepare, and the table is unchanged. */
  lemma DeleteAlwaysFails(db: Db, peerId: string, env: Env)
    ensures DeleteOutcome(db, peerId, env).db == db
    ensures DeleteOutcome(db, peerId, env).result.Err?
    ensures env.prepare.None? ==>
      DeleteOutcome(db, peerId, env).result.error == SqliteConnectorError(SyntaxError)
  {
    DeleteTextRejected();
  }

  /** Every writing statement keeps the PRIMARY KEY. */
  lemma PeerStatementKeepsUnique(db: Db, stmt: Statement, peerId: string, env: Env)
    requires Unique(db.rows)
    ensures Unique(PeerStatementOutcome(db, stmt, peerId, env).db.rows)
  {
    StepKeepsUnique(db, Cursor(stmt, peerId), env.step);
  }

  method Init(conn: Connection, fault: Option<ConnectorError>) returns (r: Result<()>)
    requires conn.Valid()
    modifies conn
    ensures conn.Valid()
    ensures Transition(conn.State(), r) == InitOutcome(old(conn.State()), fault)
  {
    var created := conn.ExecuteCreateTable(fault);
    if created.SqlErr? {
      return Err(FromConnectorError(created.error));
    }
    return Ok(());
  }

  /** The prepare, bind and step sequence that add and delete share. */
  method RunPeerStatement(conn: Connection, stmt: Statement, peerId: string, env: Env) returns (r: Result<()>)
    requires conn.Valid()
    modifies conn
    ensures conn.Valid()
    ensures Transition(conn.State(), r) == PeerStatementOutcome(old(conn.State()), stmt, peerId, env)
  {
    var prepared := Prepare(conn.State(), stmt, env.prepare);
    if prepared.SqlErr? {
      return Err(FromConnectorError(prepared.error));
    }
    var cursor := Bind(prepared.value, peerId, env.bind);
    if cursor.SqlErr? {
      return Err(FromConnectorError(cursor.error));
    }
    var stepped := conn.Next(cursor.value, env.step);
    if stepped.SqlErr? {
      return Err(FromConnectorError(stepped.error));
    }
    return Ok(());
  }

  method Add(conn: Connection, peerId: string, env: Env) returns (r: Result<()>)
    requires conn.Valid()
    modifies conn
    ensures conn.Valid()
    ensures Transition(conn.State(), r) == AddOutcome(old(conn.State()), peerId, env)
  {
    r := RunPeerStatement(conn, InsertPeer, peerId, env);
  }

  method Delete(conn: Connection, peerId: string, env: Env) returns (r: Result<()>)
    requires conn.Valid()
    modifies conn
    ensures conn.Valid()
    ensures Transition(conn.State(), r) == DeleteOutcome(old(conn.State()), peerId, env)
  {
    r := RunPeerStatement(conn, DeletePeer, peerId, env);
  }

  /** contains only reads: a select step writes nothing, so it is evaluated on the current contents. */
  method Contains(conn: Connection, peerId: string, env: Env) returns (r: Result<bool>)
    ensures r == ContainsResult(conn.State(), peerId, env)
    ensures r.Ok? <==> conn.tableExists && env == NoFaults
    ensures r.Ok? ==> (r.value <==> peerId in conn.rows)
  {
    ContainsCharacterized(conn.State(), peerId, env);
    var prepared := Prepare(conn.State(), SelectPeer, env.prepare);
    if prepared.SqlErr? {
      return Err(FromConnectorError(prepared.error));
    }
    var cursor := Bind(prepared.value, peerId, env.bind);
    if cursor.SqlErr? {
      return Err(FromConnectorError(cursor.error));
    }
    var stepped := Step(conn.State(), cursor.value, env.step).result;
    if stepped.SqlErr? {
      return Err(FromConnectorError(stepped.error));
    }
    return Ok(stepped.value);
  }
}
