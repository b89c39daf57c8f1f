/** The provenance verifier: one cell that pins the expected origin of a call
 *  (peer, service, function, argument path), and a check of the origin the
 *  host reports for the current call against it.
 */
module Verifier {

  import opened Wrappers

  /** The pinned origin. */
  datatype Tetraplet = Tetraplet(peerPk: string, serviceId: string, fnName: string, jsonPath: string)

  /** The origin the host reports for an argument of the current call. */
  datatype SecurityTetraplet = SecurityTetraplet(peerPk: string, serviceId: string, functionName: string, jsonPath: string)

  /** The four fields agree, compared as plain strings. */
  predicate Matches(t: Tetraplet, st: SecurityTetraplet) {
    st.peerPk == t.peerPk && st.functionName == t.fnName &&
    st.serviceId == t.serviceId && st.jsonPath == t.jsonPath
  }

  /** The reported origin that corresponds to a pinned one. */
  function Reported(t: Tetraplet): SecurityTetraplet {
    SecurityTetraplet(t.peerPk, t.serviceId, t.fnName, t.jsonPath)
  }

  /** is_authorized on a cell: something is pinned and it matches. */
  predicate Authorized(cell: Option<Tetraplet>, st: SecurityTetraplet) {
    cell.Some? && Matches(cell.value, st)
  }

  /** The cell after a sequence of set_tetraplet calls, first to last. */
  function AfterPins(cell: Option<Tetraplet>, pins: seq<Tetraplet>): Option<Tetraplet>
    decreases |pins|
  {
    if pins == [] then cell else AfterPins(Some(pins[0]), pins[1..])
  }

  /** Field-wise matching is exactly equality with the corresponding reported origin. */
  lemma MatchesIffReported(t: Tetraplet, st: SecurityTetraplet)
    ensures Matches(t, st) <==> st == Reported(t)
  {
  }

  /** Nothing pinned: every reported origin is refused. */
  lemma UnpinnedRefusesAll(st: SecurityTetraplet)
    ensures !Authorized(None, st)
  {
  }

  /** A difference in any one field is refused. */
  lemma AnyDifferenceRefused(t: Tetraplet, st: SecurityTetraplet)
    requires st.peerPk != t.peerPk || st.serviceId != t.serviceId ||
             st.functionName != t.fnName || st.jsonPath != t.jsonPath
    ensures !Authorized(Some(t), st)
  {
  }

  /** Re-pinning with t2 after t1 refuses t1 and accepts t2, unless the two are equal. */
  lemma RepinReplaces(t1: Tetraplet, t2: Tetraplet)
    ensures Authorized(AfterPins(None, [t1, t2]), Reported(t2))
    ensures Authorized(AfterPins(None, [t1, t2]), Reported(t1)) <==> t1 == t2
  {
    LastPinWins(None, [t1, t2]);
  }

  /** Last write wins: after any non-empty sequence of pins the cell holds the last one. */
  lemma {:induction false} LastPinWins(cell: Option<Tetraplet>, pins: seq<Tetraplet>)
    ensures AfterPins(cell, pins) == if pins == [] then cell else Some(pins[|pins| - 1])
    decreases |pins|
  {
    if pins != [] {
      LastPinWins(Some(pins[0]), pins[1..]);
    }
  }

  /** The verifier's state: the process-wide cell behind its lock. */
  class ProvenanceVerifier {
    var data: Option<Tetraplet>

    /** The cell starts empty. */
    constructor ()
      ensures data == None
    {
      data := None;
    }

    /** set_tetraplet: replaces whatever is pinned, with no check on the caller. */
    method SetTetraplet(peerId: string, serviceId: string, fnName: string, path: string)
      modifies this
      ensures data == Some(Tetraplet(peerId, serviceId, fnName, path))
    {
      data := Some(Tetraplet(peerPk := peerId, serviceId := serviceId, fnName := fnName, jsonPath := path));
    }

    /** is_authorized: compares the first origin of the first argument with the pinned
     *  one. The host's list is read only when something is pinned; `auth` is ignored.
     */
    method IsAuthorized(auth: bool, tetraplets: seq<seq<SecurityTetraplet>>) returns (b: bool)
      requires data.Some? ==> |tetraplets| > 0 && |tetraplets[0]| > 0
      ensures b <==> data.Some? && tetraplets[0][0] == Reported(data.value)
    {
      match data
      case None =>
        b := false;
      case Some(t) =>
        b := Matches(t, tetraplets[0][0]);
    }
  }

  /** Pin, check, re-pin, check: the sequence the verifier is built for. */
  method PinScenario(t1: Tetraplet, t2: Tetraplet) returns (before: bool, first: bool, stale: bool, current: bool)
    requires t1 != t2
    ensures !before && first && !stale && current
  {
    var v := new ProvenanceVerifier();
    before := v.IsAuthorized(true, [[Reported(t1)]]);
    v.SetTetraplet(t1.peerPk, t1.serviceId, t1.fnName, t1.jsonPath);
    first := v.IsAuthorized(false, [[Reported(t1)]]);
    v.SetTetraplet(t2.peerPk, t2.serviceId, t2.fnName, t2.jsonPath);
    stale := v.IsAuthorized(true, [[Reported(t1)]]);
    current := v.IsAuthorized(true, [[Reported(t2)]]);
  }
}
