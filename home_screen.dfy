/**
 * The home screen's derived session status: every session is shown with the
 * number of "confirmed" answers that name it, and is "confirmed" as soon as
 * that number is positive.
 */
module HomeScreen {
  import opened Wrappers
  import opened Records
  import SessionService

  /**
   * Whether a confirmation is counted for a session with this id: its
   * `sessionId` must be strictly equal to the id (two missing fields are
   * equal, as `undefined === undefined`) and its status must be "confirmed".
   */
  predicate CountsFor(c: Confirmation, id: Option<string>)
  {
    c.sessionId == id && c.status == "confirmed"
  }

  /** The keys of the confirmations counted for a session with this id. */
  function CountedKeys(confirmations: map<string, Confirmation>, id: Option<string>): (ks: set<string>)
    ensures ks <= confirmations.Keys
    ensures forall k :: k in ks <==> k in confirmations && CountsFor(confirmations[k], id)
  {
    set k | k in confirmations && CountsFor(confirmations[k], id)
  }

  /** The number of map values that pass both filters, one per entry. */
  function ConfirmedCount(confirmations: map<string, Confirmation>, id: Option<string>): nat
  {
    |CountedKeys(confirmations, id)|
  }

  /** The count is positive exactly when some entry is counted. */
  lemma CountPositiveIff(confirmations: map<string, Confirmation>, id: Option<string>)
    ensures ConfirmedCount(confirmations, id) > 0 <==>
      exists k :: k in confirmations && CountsFor(confirmations[k], id)
  {
  }

  /** No more confirmations are counted for a session than the map has entries. */
  lemma CountAtMostEntries(confirmations: map<string, Confirmation>, id: Option<string>)
    ensures ConfirmedCount(confirmations, id) <= |confirmations|
  {
    SubsetCardinality(CountedKeys(confirmations, id), confirmations.Keys);
  }

  lemma {:induction false} SubsetCardinality(a: set<string>, b: set<string>)
    requires a <= b
    ensures |a| <= |b|
  {
    if a != {} {
      var x :| x in a;
      SubsetCardinality(a - {x}, b - {x});
    }
  }

  /** One session as the home screen shows it: the count and the status replaced, every other field kept. */
  function WithConfirmations(session: Session, confirmations: map<string, Confirmation>): (r: Session)
    ensures r.(confirmedPlayers := session.confirmedPlayers, status := session.status) == session
    ensures r.confirmedPlayers == Some(ConfirmedCount(confirmations, session.id))
    ensures r.status == Some("confirmed") <==> exists k :: k in confirmations && CountsFor(confirmations[k], session.id)
    ensures r.status == Some("pending") <==> !exists k :: k in confirmations && CountsFor(confirmations[k], session.id)
    ensures ConfirmedCount(confirmations, session.id) <= |confirmations|
  {
    CountPositiveIff(confirmations, session.id);
    CountAtMostEntries(confirmations, session.id);
    var n := ConfirmedCount(confirmations, session.id);
    session.(confirmedPlayers := Some(n), status := Some(if n > 0 then "confirmed" else "pending"))
  }

  /** `loadSessions`' enhancement: every session, in its place, as `WithConfirmations` shows it. */
  function SessionsWithConfirmations(sessions: seq<Session>, confirmations: map<string, Confirmation>)
    : (r: seq<Session>)
    ensures |r| == |sessions|
    ensures forall i :: 0 <= i < |r| ==>
      r[i].(confirmedPlayers := sessions[i].confirmedPlayers, status := sessions[i].status) == sessions[i]
    ensures forall i :: 0 <= i < |r| ==>
      r[i].confirmedPlayers == Some(ConfirmedCount(confirmations, sessions[i].id)) &&
      (r[i].status == Some("confirmed") <==> ConfirmedCount(confirmations, sessions[i].id) > 0) &&
      (r[i].status == Some("pending") <==> ConfirmedCount(confirmations, sessions[i].id) == 0)
  {
    seq(|sessions|, i requires 0 <= i < |sessions| => WithConfirmations(sessions[i], confirmations))
  }

  /**
   * Confirmations written by the session service carry no `sessionId`, so a
   * map of such records never counts toward a session that has an id: the
   * session is shown with zero confirmed players and as "pending".
   */
  lemma ServiceConfirmationsNeverCount(session: Session, confirmations: map<string, Confirmation>)
    requires session.id.Some?
    requires forall k :: k in confirmations ==> confirmations[k].sessionId.None?
    ensures WithConfirmations(session, confirmations).confirmedPlayers == Some(0)
    ensures WithConfirmations(session, confirmations).status == Some("pending")
  {
  }

  /**
   * Conversely, a session that lacks an id counts every "confirmed" answer the
   * session service wrote, whatever session that answer was for.
   */
  lemma IdlessSessionCountsServiceConfirmations(session: Session, confirmations: map<string, Confirmation>)
    requires session.id.None?
    requires forall k :: k in confirmations ==> confirmations[k].sessionId.None?
    ensures ConfirmedCount(confirmations, session.id) ==
      |set k | k in confirmations && confirmations[k].status == "confirmed"|
  {
    assert CountedKeys(confirmations, session.id) ==
      set k | k in confirmations && confirmations[k].status == "confirmed";
  }

  /**
   * A `confirmSession` write never raises the count of a session that has an
   * id: the entry it replaces may have counted, the new one cannot. So
   * confirming never turns a "pending" session "confirmed".
   */
  lemma ConfirmNeverRaisesCount(confirmations: map<string, Confirmation>, sessionId: string, userName: string,
                                status: string, confirmedAt: string, id: Option<string>)
    requires id.Some?
    ensures ConfirmedCount(SessionService.Upserted(confirmations, sessionId, userName, status, confirmedAt), id)
      <= ConfirmedCount(confirmations, id)
  {
    var after := SessionService.Upserted(confirmations, sessionId, userName, status, confirmedAt);
    assert CountedKeys(after, id) <= CountedKeys(confirmations, id);
    SubsetCardinality(CountedKeys(after, id), CountedKeys(confirmations, id));
  }
}
