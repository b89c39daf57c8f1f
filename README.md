# rbac: allow-lists of peer ids and a pinned-caller check, in Dafny

This project models the three prototypes of one idea in the fluencelabs/rbac
repository and proves properties of the model.

- **The unguarded registry** (`src/main.rs`). A process-wide map from peer id to
  `Status`. `get_status` reads it, `register` inserts "registered", `remove`
  deletes the key. Nobody is checked. Module `PeerRegistry`, class `Registry`.
- **The access-controlled provider** (`provider/`). An in-memory SQLite table
  `providers_list` whose only column `peer_id` is the PRIMARY KEY. The table
  sits behind `init`, `add`, `contains` and `delete` (module `StorageApi`). The
  engine itself and its prepare / bind / step protocol are module
  `SqliteConnection`. The service functions `get_status`, `register` and
  `remove` are module `Provider`. `register` and `remove` run only for a
  privileged caller: the service's creator, or a peer that `contains` finds.
  The error type, its codes and the result conversions are module
  `ProviderErrors`. The records and `SUCCESS_CODE` are module `ProviderTypes`.
- **The provenance verifier** (`verifier/src/main.rs`). An `Option<Tetraplet>`
  cell. `set_tetraplet` overwrites it. `is_authorized` compares the host's
  record of the current call with the pinned one. Module `Verifier`, class
  `ProvenanceVerifier`.

The shared state becomes an object: `Registry`, `Connection` and
`ProvenanceVerifier`. Its methods change fields under `modifies`. Each method
of the storage and the provider is tied to a function of the old database
(`AddOutcome`, `RegisterOutcome`, ...). The lemmas prove what the code
promises about those functions. The host's call parameters (caller id,
creator id, the observed tetraplets) are method parameters. Engine failures
are parameters too: an `Env` gives an optional connector error for each of a
call's prepare, bind and step.

The provider is modelled as written, quirks included. Each quirk is a lemma:

- An unprivileged `register` or `remove` changes nothing and returns
  `SUCCESS_CODE` with an empty message (`Provider.UnprivilegedIsSilentSuccess`).
- A storage error during the privilege check denies the privilege
  (`Provider.Privileged`).
- `add` is a plain INSERT. A second add of the same id fails with a
  constraint violation and leaves the table as it was
  (`StorageApi.AddPresentIsRefused`).
- The code of `SqliteConnectorError` is 0, the same as `SUCCESS_CODE`
  (`ProviderErrors.ConnectorErrorCodeIsSuccess`). Only the message shows a
  storage failure (`ProviderErrors.MessageRevealsFailure`).
- The delete text is `DELETE * FROM ...`. SQLite's parser refuses it, so
  `delete` always fails and `remove` never changes storage. `remove` still
  returns code 0, because the failure is a connector error
  (`StorageApi.DeleteAlwaysFails`, `Provider.RemoveNeverTakesEffect`).

## Model

| member | source | states |
|---|---|---|
| PeerRegistry.Registry.constructor | src/main.rs:35-39 | the map starts empty, so every record in it says "registered" |
| PeerRegistry.Registry.GetStatus | src/main.rs:48-60 | an unknown id gets "not registered", a stored record is returned as is, and under the invariant the answer is true exactly when the id is a key |
| PeerRegistry.Registry.Register | src/main.rs:62-67 | for any caller (there is no caller input), the id's record becomes "registered", every other id keeps its answer, and the invariant is kept |
| PeerRegistry.Registry.Remove | src/main.rs:69-74 | for any caller, the id is no longer a key, every other id keeps its answer, and the invariant is kept |
| PeerRegistry.RegisterIdempotent | src/main.rs:66 | registering twice leaves the same map as registering once |
| PeerRegistry.RemoveAbsentIsNoop | src/main.rs:73 | removing an absent id leaves the map unchanged |
| PeerRegistry.CallsAreLocal | src/main.rs:62-74 | a call about one id leaves every other id's get_status answer unchanged |
| PeerRegistry.RunKeepsAllRegistered | src/main.rs:62-74 | every sequence of calls keeps the invariant that each stored record says "registered" |
| PeerRegistry.RunMembership | src/main.rs:62-74 | after any sequence of calls, an id is a key exactly when the last call that touched it was a register (or, with none, when it was a key before) |
| PeerRegistry.StatusAfterCalls | src/main.rs:48-74 | from the empty map, get_status of an id after any calls is true exactly when the last call that touched the id registered it |
| SqliteConnection.DeleteTextRejected | provider/src/storage_api.rs:58 | the delete text does not begin with DELETE FROM, so the engine's parser refuses it |
| SqliteConnection.StepKeepsUnique | provider/src/storage_api.rs:27-29 | no statement step gives a peer id a second row (the PRIMARY KEY) |
| SqliteConnection.DeleteStepTouchesOnlyItsPeer | provider/src/storage_api.rs:58 | a delete, if the engine accepted it, would remove its own id's row and keep every other id |
| SqliteConnection.CreateTable | provider/src/storage_api.rs:27-31 | CREATE TABLE IF NOT EXISTS never changes the rows, and when it succeeds the table exists |
| SqliteConnection.Prepare | provider/src/storage_api.rs:36 | `SQLITE.prepare` (also at lines 46 and 60) succeeds exactly when no engine fault occurs, the text parses and the table exists, and then returns the statement unchanged |
| SqliteConnection.Bind | provider/src/storage_api.rs:37 | `cursor.bind` (also at lines 47 and 61) succeeds exactly when no engine fault occurs, and then the cursor holds the statement and the peer id |
| SqliteConnection.Step | provider/src/storage_api.rs:38 | `cursor.next` (also at lines 50 and 63) never creates or drops the table, changes nothing when it fails, and a select never writes |
| SqliteConnection.Connection.ExecuteCreateTable | provider/src/storage_api.rs:31 | `SQLITE.execute` of the schema statement moves the connection to the state and result that CreateTable gives, keeping the PRIMARY KEY |
| SqliteConnection.Connection.Next | provider/src/storage_api.rs:38 | stepping a bound cursor moves the connection to the state and result that Step gives, keeping the PRIMARY KEY |
| SqliteConnection.Connection.OpenInMemory | provider/src/storage_api.rs:24 | the shared connection starts as an empty database without tables |
| StorageApi.InitKeepsRows | provider/src/storage_api.rs:26-32 | init keeps the rows, succeeds exactly when the engine does not fail, and then the table exists; on failure nothing changes |
| StorageApi.InitIdempotent | provider/src/storage_api.rs:26-32 | a second init leaves the table and its contents as the first one left them |
| StorageApi.AddCharacterized | provider/src/storage_api.rs:34-41 | add succeeds exactly when the table exists, no step fails and the id has no row; it then appends that one row; otherwise the table is unchanged and the error is a connector error |
| StorageApi.AddPresentIsRefused | provider/src/storage_api.rs:35-38 | adding an id that already has a row fails with a constraint violation and changes nothing: not an upsert |
| StorageApi.ContainsCharacterized | provider/src/storage_api.rs:43-55 | contains answers Ok exactly when the table exists and no step fails, the answer being whether the id has a row; absence is not an error |
| StorageApi.AddThenContains | provider/src/storage_api.rs:34-55 | after a successful add, contains reports the id |
| StorageApi.DeleteAlwaysFails | provider/src/storage_api.rs:57-66 | delete never changes the table and always fails, with a syntax error unless prepare met another failure first |
| StorageApi.PeerStatementKeepsUnique | provider/src/storage_api.rs:34-41 | add and delete keep at most one row per id |
| StorageApi.Init | provider/src/storage_api.rs:26-32 | the new database and result are InitOutcome of the old database, and the PRIMARY KEY is kept |
| StorageApi.Add | provider/src/storage_api.rs:34-41 | the new database and the result are AddOutcome of the old one, with every failing step propagated |
| StorageApi.Delete | provider/src/storage_api.rs:57-66 | the new database and the result are DeleteOutcome of the old one |
| StorageApi.Contains | provider/src/storage_api.rs:43-55 | read-only; Ok exactly when the table exists and no step fails, and then true exactly when the id has a row |
| ProviderErrors.FromConnectorError | provider/src/errors.rs:56-60 | every connector error becomes the SqliteConnectorError variant carrying it |
| ProviderErrors.ToErrorCode | provider/src/errors.rs:68-76 | every code lies in 0..4, and a code equals SUCCESS_CODE exactly when the error is a connector error |
| ProviderErrors.ErrorCodesDistinct | provider/src/errors.rs:68-76 | codes lie in 0..4, and two errors have the same code exactly when they are the same variant |
| ProviderErrors.ConnectorErrorCodeIsSuccess | provider/src/errors.rs:68-70 | a connector error has code 0 = SUCCESS_CODE, so its converted result has the same code as success, and it is the only variant with that code |
| ProviderErrors.Display | provider/src/errors.rs:36-54 | every error text is written with writeln, so it is non-empty and ends in a newline |
| ProviderErrors.ToStatusResult | provider/src/errors.rs:78-93 | registered exactly when the result is Ok(true); empty message exactly when Ok; code SUCCESS_CODE for Ok and the error's code for Err |
| ProviderErrors.ToServiceResult | provider/src/errors.rs:95-108 | empty message exactly when Ok; code SUCCESS_CODE for Ok and the error's code for Err |
| ProviderErrors.MessageRevealsFailure | provider/src/errors.rs:95-108 | a converted result equals the plain success record exactly when the storage call succeeded |
| Provider.UnwrapOrFalse | provider/src/main.rs:76 | an error from contains reads as false |
| Provider.Privileged | provider/src/main.rs:76 | privileged exactly when the caller is the creator, or the table exists, the check meets no failure and the caller has a row |
| Provider.PrivilegedRegisterIsAdd | provider/src/main.rs:76-77 | a privileged register's new database and answer are exactly add's, converted |
| Provider.PrivilegedRemoveIsDelete | provider/src/main.rs:92-93 | a privileged remove's new database and answer are exactly delete's, converted |
| Provider.UnprivilegedIsSilentSuccess | provider/src/main.rs:76-83 | an unprivileged register or remove leaves storage unchanged and answers SUCCESS_CODE with an empty message |
| Provider.PrivilegedRegisterAdmits | provider/src/main.rs:70-84 | a privileged register of a new id, with no engine failure, appends its row and answers success |
| Provider.RemoveNeverTakesEffect | provider/src/main.rs:86-100 | remove never changes storage and always answers SUCCESS_CODE; for a privileged caller its message is non-empty |
| Provider.StatusOfCaller | provider/src/main.rs:60-68 | get_status reports the caller's own id as registered exactly when contains finds its row, and always answers SUCCESS_CODE |
| Provider.DelegatedAdmission | provider/src/main.rs:70-84 | after the creator registers A, A is privileged and A's register of B appends B |
| Provider.ApplyCallGrows | provider/src/main.rs:60-100 | one call keeps the PRIMARY KEY, keeps the table once created, and only appends rows |
| Provider.RunNeverDropsRows | provider/src/main.rs:60-100 | over any sequence of calls no row is lost and no id gets two rows, so removing A never removes the peers A admitted |
| Provider.GetStatus | provider/src/main.rs:60-68 | read-only; registered exactly when the table exists, the lookup meets no failure and the caller's own id has a row; code always SUCCESS_CODE |
| Provider.Register | provider/src/main.rs:70-84 | the new database and answer are RegisterOutcome of the old database |
| Provider.Remove | provider/src/main.rs:86-100 | the new database and answer are RemoveOutcome of the old database |
| Provider.StartAndAdmit | provider/src/main.rs:70-84 | after init on a fresh connection, the creator admits a and a admits b: both calls answer SUCCESS_CODE and the table holds exactly a and b |
| Provider.OwnerScenario | provider/src/main.rs:60-100 | O admits A, A admits B, stranger X's register of Y is ignored, O's remove of A fails: all four calls answer SUCCESS_CODE, A and B stay registered, Y is not |
| Verifier.MatchesIffReported | verifier/src/main.rs:77-79 | the field-wise comparison holds exactly when the observed record equals the pinned one field for field |
| Verifier.UnpinnedRefusesAll | verifier/src/main.rs:71-72 | with nothing pinned every observed record is refused |
| Verifier.AnyDifferenceRefused | verifier/src/main.rs:77-79 | a difference in peer_pk, service_id, function name or json_path is refused |
| Verifier.RepinReplaces | verifier/src/main.rs:64 | after pinning t1 then t2, t2 is accepted and t1 is accepted only when it equals t2 |
| Verifier.LastPinWins | verifier/src/main.rs:53-65 | after any non-empty sequence of pins the cell holds the last one |
| Verifier.ProvenanceVerifier.constructor | verifier/src/main.rs:40-44 | the cell starts empty |
| Verifier.ProvenanceVerifier.SetTetraplet | verifier/src/main.rs:53-65 | the cell is overwritten with peer_id as peer_pk and path as json_path, whatever it held |
| Verifier.ProvenanceVerifier.IsAuthorized | verifier/src/main.rs:67-82 | read-only; true exactly when a tetraplet is pinned and the first observed record equals it in all four fields; `auth` has no effect |
| Verifier.PinScenario | verifier/src/main.rs:53-82 | refused before any pin, accepted after pinning, refused again once a different record is pinned, which is then accepted |

## Left out

- Logger setup in every `main`, and the log lines around `init` in the provider's `main`: I/O. The `init` call itself is `StorageApi.Init`.
- The host runtime's call parameters: the caller id, the creator id and the observed tetraplets are parameters. If nothing is pinned, `is_authorized` does not read the tetraplets. Otherwise the index `tetraplets[0][0]` would panic on an empty list, so `IsAuthorized` requires a non-empty list only in that case.
- The lazily initialised globals and their mutexes: each is one object field under sequential calls. Concurrent calls and lazy initialisation are not modelled.
- SQLite's parser and engine: the table is a `Db` value plus the prepare / bind / step functions of `SqliteConnection`. The parser check covers only what the code needs: a DELETE must begin with `DELETE FROM`. The other three statements are taken as well-formed.
- Engine failures the code cannot foresee: they are injected per step through `Env`. Which failures SQLite really raises, and when, is not modelled.
- The text of error messages: the connector's Debug text of its errors and values is replaced by stand-ins (`ProviderErrors.ConnectorDebug`, `ValueDebug`). Only the fixed text and the final newline of `Display` follow the code.
- Opening the in-memory database is taken to succeed. The code would panic if it failed.
- `From<Infallible>`: no value of that type exists.
- The wire-exposure attributes on the service functions and records.
- The connector's floating-point `Value` variant: floating point.
