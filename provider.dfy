/** The access-controlled provider: get_status, register and remove over the
 *  providers_list storage. register and remove run only for a privileged
 *  caller, that is the service's creator or a peer that already has a row, so
 *  a registered peer can admit others.
 */
module Provider {

  import opened Wrappers
  import opened ProviderTypes
  import opened SqliteConnection
  import opened ProviderErrors
  import opened StorageApi

  /** The plain success record: what a successful add converts to, and also what an
   *  unprivileged register or remove silently answers, with nothing done.
   */
  const Success: ProviderServiceResult := ProviderServiceResult(SUCCESS_CODE, "")

  /** A storage answer with every error read as false. */
  function UnwrapOrFalse(r: Result<bool>): (b: bool)
    ensures b <==> r == Ok(true)
  {
    match r
    case Ok(b) => b
    case Err(_) => false
  }

  /** The privilege rule: the caller created the service, or contains finds the
   *  caller's row. A storage error during the check denies the privilege; the
   *  check is not made at all for the creator.
   */
  function Privileged(db: Db, cp: CallParameters, checkEnv: Env): (b: bool)
    ensures b <==>
      cp.initPeerId == cp.serviceCreatorPeerId ||
      (db.tableExists && checkEnv == NoFaults && cp.initPeerId in db.rows)
  {
    ContainsCharacterized(db, cp.initPeerId, checkEnv);
    cp.initPeerId == cp.serviceCreatorPeerId || UnwrapOrFalse(ContainsResult(db, cp.initPeerId, checkEnv))
  }

  function RegisterOutcome(db: Db, cp: CallParameters, peerId: string, checkEnv: Env, addEnv: Env)
    : Transition<ProviderServiceResult>
  {
    if Privileged(db, cp, checkEnv) then
      var t := AddOutcome(db, peerId, addEnv);
      Transition(t.db, ToServiceResult(t.result))
    else
      Transition(db, Success)
  }

  function RemoveOutcome(db: Db, cp: CallParameters, peerId: string, checkEnv: Env, deleteEnv: Env)
    : Transition<ProviderServiceResult>
  {
    if Privileged(db, cp, checkEnv) then
      var t := DeleteOutcome(db, peerId, deleteEnv);
      Transition(t.db, ToServiceResult(t.result))
    else
      Transition(db, Success)
  }

  /** get_status: the caller's own id, looked up and converted. */
  function StatusResult(db: Db, cp: CallParameters, env: Env): GetStatusServiceResult {
    ToStatusResult(ContainsResult(db, cp.initPeerId, env))
  }

  /** A privileged register answers with exactly the converted result of add. */
  lemma PrivilegedRegisterIsAdd(db: Db, cp: CallParameters, peerId: string, checkEnv: Env, addEnv: Env)
    requires Privileged(db, cp, checkEnv)
    ensures RegisterOutcome(db, cp, peerId, checkEnv, addEnv) ==
      Transition(AddOutcome(db, peerId, addEnv).db, ToServiceResult(AddOutcome(db, peerId, addEnv).result))
  {
  }

  /** A privileged remove answers with exactly the converted result of delete. */
  lemma PrivilegedRemoveIsDelete(db: Db, cp: CallParameters, peerId: string, checkEnv: Env, deleteEnv: Env)
    requires Privileged(db, cp, checkEnv)
    ensures RemoveOutcome(db, cp, peerId, checkEnv, deleteEnv) ==
      Transition(DeleteOutcome(db, peerId, deleteEnv).db, ToServiceResult(DeleteOutcome(db, peerId, deleteEnv).result))
  {
  }

  /** An unprivileged register or remove changes nothing, yet reports success with no message. */
  lemma UnprivilegedIsSilentSuccess(db: Db, cp: CallParameters, peerId: string, checkEnv: Env, opEnv: Env)
    requires cp.initPeerId != cp.serviceCreatorPeerId
    requires !db.tableExists || checkEnv != NoFaults || cp.initPeerId !in db.rows
    ensures RegisterOutcome(db, cp, peerId, checkEnv, opEnv) == Transition(db, Success)
    ensures RemoveOutcome(db, cp, peerId, checkEnv, opEnv) == Transition(db, Success)
  {
  }

  /** A privileged register of a new id on an existing table, with no engine failure,
   *  appends its row and reports success.
   */
  lemma PrivilegedRegisterAdmits(db: Db, cp: CallParameters, peerId: string, checkEnv: Env)
    requires Privileged(db, cp, checkEnv)
    requires db.tableExists && peerId !in db.rows
    ensures RegisterOutcome(db, cp, peerId, checkEnv, NoFaults) ==
      Transition(db.(rows := db.rows + [peerId]), Success)
  {
    AddCharacterized(db, peerId, NoFaults);
  }

  /** remove never changes storage, and its return code is always SUCCESS_CODE:
   *  for a privileged caller the delete fails, but with a connector error, whose code is 0.
   */
  lemma RemoveNeverTakesEffect(db: Db, cp: CallParameters, peerId: string, checkEnv: Env, deleteEnv: Env)
    ensures RemoveOutcome(db, cp, peerId, checkEnv, deleteEnv).db == db
    ensures RemoveOutcome(db, cp, peerId, checkEnv, deleteEnv).result.retCode == SUCCESS_CODE
    ensures Privileged(db, cp, checkEnv) ==> RemoveOutcome(db, cp, peerId, checkEnv, deleteEnv).result.errMsg != ""
  {
    DeleteAlwaysFails(db, peerId, deleteEnv);
  }

  /** get_status reports the caller registered exactly when contains finds the caller's
   *  row, and its return code is always SUCCESS_CODE, failure or not.
   */
  lemma StatusOfCaller(db: Db, cp: CallParameters, env: Env)
    ensures StatusResult(db, cp, env).status.isRegistered <==>
      db.tableExists && env == NoFaults && cp.initPeerId in db.rows
    ensures StatusResult(db, cp, env).retCode == SUCCESS_CODE
  {
    ContainsCharacterized(db, cp.initPeerId, env);
  }

  /** Delegated admission: after the creator registers A, a call from A is privileged
   *  and its register of B takes effect.
   */
  lemma DelegatedAdmission(db: Db, owner: string, a: string, b: string)
    requires db.tableExists && a !in db.rows && b !in db.rows && a != b
    ensures var first := RegisterOutcome(db, CallParameters(owner, owner), a, NoFaults, NoFaults);
      first.result == Success &&
      Privileged(first.db, CallParameters(a, owner), NoFaults) &&
      RegisterOutcome(first.db, CallParameters(a, owner), b, NoFaults, NoFaults) ==
        Transition(db.(rows := db.rows + [a, b]), Success)
  {
    PrivilegedRegisterAdmits(db, CallParameters(owner, owner), a, NoFaults);
    var db1 := db.(rows := db.rows + [a]);
    assert a in db1.rows;
    PrivilegedRegisterAdmits(db1, CallParameters(a, owner), b, NoFaults);
    assert db1.rows + [b] == db.rows + [a, b];
  }

  /** One call of the service, with the engine failures it meets. */
  datatype ProviderCall =
    | InitCall(fault: Option<ConnectorError>)
    | StatusCall(cp: CallParameters, env: Env)
    | RegisterCall(cp: CallParameters, peerId: string, checkEnv: Env, opEnv: Env)
    | RemoveCall(cp: CallParameters, peerId: string, checkEnv: Env, opEnv: Env)

  function ApplyCall(db: Db, call: ProviderCall): Db {
    match call
    case InitCall(fault) => InitOutcome(db, fault).db
    case StatusCall(_, _) => db
    case RegisterCall(cp, p, checkEnv, opEnv) => RegisterOutcome(db, cp, p, checkEnv, opEnv).db
    case RemoveCall(cp, p, checkEnv, opEnv) => RemoveOutcome(db, cp, p, checkEnv, opEnv).db
  }

  /** The storage after the calls, applied first to last. */
  function Run(db: Db, calls: seq<ProviderCall>): Db
    decreases |calls|
  {
    if calls == [] then db else Run(ApplyCall(db, calls[0]), calls[1..])
  }

  /** One call keeps the PRIMARY KEY, keeps the table once created, and only ever appends rows. */
  lemma ApplyCallGrows(db: Db, call: ProviderCall)
    requires Unique(db.rows)
    ensures var db' := ApplyCall(db, call);
      Unique(db'.rows) && db.rows <= db'.rows && (db.tableExists ==> db'.tableExists)
  {
    match call
    case InitCall(fault) =>
    case StatusCall(_, _) =>
    case RegisterCall(cp, p, checkEnv, opEnv) =>
      AddCharacterized(db, p, opEnv);
      PeerStatementKeepsUnique(db, InsertPeer, p, opEnv);
    case RemoveCall(cp, p, checkEnv, opEnv) =>
      RemoveNeverTakesEffect(db, cp, p, checkEnv, opEnv);
  }

  /** No sequence of calls removes a row or breaks the PRIMARY KEY: once admitted,
   *  a peer stays registered (in particular, removing A never removes the peers A admitted).
   */
  lemma {:induction false} RunNeverDropsRows(db: Db, calls: seq<ProviderCall>)
    requires Unique(db.rows)
    ensures Unique(Run(db, calls).rows)
    ensures db.rows <= Run(db, calls).rows
    ensures db.tableExists ==> Run(db, calls).tableExists
    decreases |calls|
  {
    if calls != [] {
      var db1 := ApplyCall(db, calls[0]);
      ApplyCallGrows(db, calls[0]);
      RunNeverDropsRows(db1, calls[1..]);
    }
  }

  method GetStatus(conn: Connection, cp: CallParameters, env: Env) returns (r: GetStatusServiceResult)
    ensures r == StatusResult(conn.State(), cp, env)
    ensures r.status.isRegistered <==> conn.tableExists && env == NoFaults && cp.initPeerId in conn.rows
    ensures r.retCode == SUCCESS_CODE
  {
    StatusOfCaller(conn.State(), cp, env);
    var isRegistered := Contains(conn, cp.initPeerId, env);
    r := ToStatusResult(isRegistered);
  }

  method Register(conn: Connection, cp: CallParameters, peerId: string, checkEnv: Env, addEnv: Env)
    returns (r: ProviderServiceResult)
    requires conn.Valid()
    modifies conn
    ensures conn.Valid()
    ensures Transition(conn.State(), r) == RegisterOutcome(old(conn.State()), cp, peerId, checkEnv, addEnv)
  {
    var privileged := cp.initPeerId == cp.serviceCreatorPeerId;
    if !privileged {
      var check := Contains(conn, cp.initPeerId, checkEnv);
      privileged := UnwrapOrFalse(check);
    }
    if privileged {
      var added := Add(conn, peerId, addEnv);
      r := ToServiceResult(added);
    } else {
      r := Success;
    }
  }

  method Remove(conn: Connection, cp: CallParameters, peerId: string, checkEnv: Env, deleteEnv: Env)
    returns (r: ProviderServiceResult)
    requires conn.Valid()
    modifies conn
    ensures conn.Valid()
    ensures Transition(conn.State(), r) == RemoveOutcome(old(conn.State()), cp, peerId, checkEnv, deleteEnv)
  {
    var privileged := cp.initPeerId == cp.serviceCreatorPeerId;
    if !privileged {
      var check := Contains(conn, cp.initPeerId, checkEnv);
      privileged := UnwrapOrFalse(check);
    }
    if privileged {
      var deleted := Delete(conn, peerId, deleteEnv);
      r := ToServiceResult(deleted);
    } else {
      r := Success;
    }
  }

  /** The service starts, its creator o registers a, and a registers b: both
   *  calls answer SUCCESS_CODE and both ids get a row.
   */
  method StartAndAdmit(o: string, a: string, b: string) returns (conn: Connection, codes: seq<i32>)
    requires a != b
    ensures fresh(conn) && conn.Valid() && conn.State() == Db(true, [a, b])
    ensures codes == [SUCCESS_CODE, SUCCESS_CODE]
  {
    conn := new Connection.OpenInMemory();
    var created := Init(conn, None);
    assert conn.State() == Db(true, []);
    PrivilegedRegisterAdmits(Db(true, []), CallParameters(o, o), a, NoFaults);
    var r1 := Register(conn, CallParameters(o, o), a, NoFaults, NoFaults);
    assert conn.State() == Db(true, [a]);
    PrivilegedRegisterAdmits(Db(true, [a]), CallParameters(a, o), b, NoFaults);
    var r2 := Register(conn, CallParameters(a, o), b, NoFaults, NoFaults);
    codes := [r1.retCode, r2.retCode];
  }

  /** Owner o starts the service; o registers a; a registers b; the stranger x tries
   *  to register y; o removes a. Every call answers SUCCESS_CODE, y stays out, and
   *  a and b both stay registered, because the remove never runs its delete.
   */
  method OwnerScenario(o: string, a: string, b: string, x: string, y: string)
    returns (codes: seq<i32>, aRegistered: bool, bRegistered: bool, yRegistered: bool)
    requires a != b && x != o && x != a && x != b && y != a && y != b
    ensures codes == [SUCCESS_CODE, SUCCESS_CODE, SUCCESS_CODE, SUCCESS_CODE]
    ensures aRegistered && bRegistered && !yRegistered
  {
    var conn, admitted := StartAndAdmit(o, a, b);
    UnprivilegedIsSilentSuccess(Db(true, [a, b]), CallParameters(x, o), y, NoFaults, NoFaults);
    var r3 := Register(conn, CallParameters(x, o), y, NoFaults, NoFaults);
    RemoveNeverTakesEffect(Db(true, [a, b]), CallParameters(o, o), a, NoFaults, NoFaults);
    var r4 := Remove(conn, CallParameters(o, o), a, NoFaults, NoFaults);
    assert conn.State() == Db(true, [a, b]);
    codes := admitted + [r3.retCode, r4.retCode];
    var sa := GetStatus(conn, CallParameters(a, o), NoFaults);
    var sb := GetStatus(conn, CallParameters(b, o), NoFaults);
    var sy := GetStatus(conn, CallParameters(y, o), NoFaults);
    aRegistered, bRegistered, yRegistered := sa.status.isRegistered, sb.status.isRegistered, sy.status.isRegistered;
  }
}
