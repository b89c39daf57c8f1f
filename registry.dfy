/** The unguarded in-memory registry: a process-wide map from peer id to a
 *  registration status, with operations to read, register and remove an id.
 *  Nobody's identity is checked: every call takes effect.
 */
module PeerRegistry {

  import opened Wrappers

  /** The status record stored per peer and returned by get_status. */
  datatype Status = Status(isRegistered: bool)

  /** One call of the service, used to reason about whole sequences of calls. */
  datatype Call = RegisterCall(peerId: string) | RemoveCall(peerId: string) | StatusCall(peerId: string)

  /** Every stored record says "registered". */
  ghost predicate AllRegistered(m: map<string, Status>) {
    forall p :: p in m ==> m[p].isRegistered
  }

  /** The record that get_status reports for `peerId`: the stored one, or "not registered". */
  function StatusOf(m: map<string, Status>, peerId: string): Status {
    if peerId in m then m[peerId] else Status(false)
  }

  /** The map after one call: register inserts (overwriting), remove deletes the key. */
  function Apply(m: map<string, Status>, call: Call): map<string, Status> {
    match call
    case RegisterCall(p) => m[p := Status(true)]
    case RemoveCall(p) => m - {p}
    case StatusCall(_) => m
  }

  /** The map after the calls, applied first to last. */
  function Run(m: map<string, Status>, calls: seq<Call>): map<string, Status>
    decreases |calls|
  {
    if calls == [] then m else Apply(Run(m, calls[..|calls| - 1]), calls[|calls| - 1])
  }

  /** The last call in `calls` that changes the entry of `p`, if any. */
  function LastChange(calls: seq<Call>, p: string): Option<Call>
    decreases |calls|
  {
    if calls == [] then None
    else
      var c := calls[|calls| - 1];
      if c == RegisterCall(p) || c == RemoveCall(p) then Some(c)
      else LastChange(calls[..|calls| - 1], p)
  }

  /** Registering twice is the same as registering once. */
  lemma RegisterIdempotent(m: map<string, Status>, p: string)
    ensures Apply(Apply(m, RegisterCall(p)), RegisterCall(p)) == Apply(m, RegisterCall(p))
  {
  }

  /** Removing an id that is not there changes nothing. */
  lemma RemoveAbsentIsNoop(m: map<string, Status>, p: string)
    requires p !in m
    ensures Apply(m, RemoveCall(p)) == m
  {
  }

  /** A call about one id leaves every other id's answer as it was. */
  lemma CallsAreLocal(m: map<string, Status>, call: Call, q: string)
    requires q != call.peerId
    ensures StatusOf(Apply(m, call), q) == StatusOf(m, q)
  {
  }

  /** Any sequence of calls keeps every stored record "registered". */
  lemma {:induction false} RunKeepsAllRegistered(m: map<string, Status>, calls: seq<Call>)
    requires AllRegistered(m)
    ensures AllRegistered(Run(m, calls))
    decreases |calls|
  {
    if calls != [] {
      RunKeepsAllRegistered(m, calls[..|calls| - 1]);
    }
  }

  /** After any sequence of calls, `p` is a key exactly when the last call
   *  that touched it was a register (or, if none did, when it was a key before).
   */
  lemma {:induction false} RunMembership(m: map<string, Status>, calls: seq<Call>, p: string)
    ensures p in Run(m, calls) <==>
      match LastChange(calls, p)
      case None => p in m
      case Some(c) => c.RegisterCall?
    decreases |calls|
  {
    if calls != [] {
      RunMembership(m, calls[..|calls| - 1], p);
    }
  }

  /** Starting from the empty map, get_status of `p` after any calls is true
   *  exactly when the last call that touched `p` registered it.
   */
  lemma StatusAfterCalls(calls: seq<Call>, p: string)
    ensures StatusOf(Run(map[], calls), p).isRegistered <==> LastChange(calls, p) == Some(RegisterCall(p))
  {
    RunKeepsAllRegistered(map[], calls);
    RunMembership(map[], calls, p);
    match LastChange(calls, p)
    case None =>
    case Some(c) => LastChangeIsAbout(calls, p);
  }

  /** The call LastChange finds is a register or a remove of `p` itself. */
  lemma {:induction false} LastChangeIsAbout(calls: seq<Call>, p: string)
    ensures LastChange(calls, p).Some? ==>
      LastChange(calls, p).value == RegisterCall(p) || LastChange(calls, p).value == RemoveCall(p)
    decreases |calls|
  {
    if calls != [] {
      LastChangeIsAbout(calls[..|calls| - 1], p);
    }
  }

  /** The service state: the map behind the process-wide lock. */
  class Registry {
    var data: map<string, Status>

    ghost predicate Valid()
      reads this
    {
      AllRegistered(data)
    }

    /** The lazily created map starts empty. */
    constructor ()
      ensures Valid() && data == map[]
    {
      data := map[];
    }

    /** get_status: an unknown id is reported as not registered; a stored record is returned as is. */
    method GetStatus(peerId: string) returns (s: Status)
      ensures peerId !in data ==> !s.isRegistered
      ensures peerId in data ==> s == data[peerId]
      ensures Valid() ==> (s.isRegistered <==> peerId in data)
    {
      if peerId in data {
        s := data[peerId];
      } else {
        s := Status(false);
      }
    }

    /** register: inserts or overwrites the record of `peerId` with "registered",
     *  whoever calls; other ids keep their records.
     */
    method Register(peerId: string)
      requires Valid()
      modifies this
      ensures Valid()
      ensures data == Apply(old(data), RegisterCall(peerId))
      ensures peerId in data && data[peerId].isRegistered
      ensures forall q :: q != peerId ==> StatusOf(data, q) == StatusOf(old(data), q)
    {
      data := data[peerId := Status(true)];
    }

    /** remove: deletes the key of `peerId` if present, whoever calls; other ids keep their records. */
    method Remove(peerId: string)
      requires Valid()
      modifies this
      ensures Valid()
      ensures data == Apply(old(data), RemoveCall(peerId))
      ensures peerId !in data
      ensures forall q :: q != peerId ==> StatusOf(data, q) == StatusOf(old(data), q)
    {
      data := data - {peerId};
    }
  }
}
