/**
 * The session store: the list of sessions under one key and the map of
 * confirmations, keyed by session id alone, under another.
 */
module SessionService {
  import opened Wrappers
  import opened Records
  import opened AsyncStorage

  const SessionsKey: string := "@dndapp_sessions"
  const ConfirmationsKey: string := "@dndapp_confirmations"

  /** The list held under the sessions key; empty when the key is absent. */
  function StoredSessions(items: map<string, Value>): seq<Session>
  {
    if SessionsKey in items && items[SessionsKey].SessionList? then items[SessionsKey].sessions else []
  }

  /** The map held under the confirmations key; empty when the key is absent. */
  function StoredConfirmations(items: map<string, Value>): map<string, Confirmation>
  {
    if ConfirmationsKey in items && items[ConfirmationsKey].ConfirmationMap?
    then items[ConfirmationsKey].confirmations
    else map[]
  }

  /** The three sessions written on first launch; the first has no status and no count. */
  const DemoSessions: seq<Session> := [
    Session(Some("1"), "Sessão da Campanha Principal", "2024-06-15", "19:00", "Ana", 5,
      "Discord - Sala Dragões", None, None),
    Session(Some("2"), "One-shot: A Masmorra Esquecida", "2024-06-22", "14:00", "Carla", 4,
      "Roll20", Some("confirmed"), Some(4)),
    Session(Some("3"), "Sessão de Continuação", "2024-06-29", "20:00", "Beatriz", 6,
      "Discord - Sala Principal", Some("pending"), Some(2))
  ]

  /** `getSessions`: the stored list, or the empty list when the key is absent or the read fails. */
  method GetSessions(store: KeyValueStore, fault: bool) returns (list: seq<Session>)
    ensures fault ==> list == []
    ensures !fault ==> list == StoredSessions(store.items)
  {
    var r := store.GetItem(SessionsKey, fault);
    match r {
      case Ok(Some(SessionList(xs))) => list := xs;
      case Ok(_) => list := [];
      case Err(_) => list := [];
    }
  }

  /** `saveSessions`: overwrites the stored list, and nothing else; a failed write is swallowed. */
  method SaveSessions(store: KeyValueStore, list: seq<Session>, fault: bool)
    modifies store
    ensures store.items == if fault then old(store.items)
                           else old(store.items)[SessionsKey := SessionList(list)]
    ensures !fault ==> StoredSessions(store.items) == list
    ensures StoredConfirmations(store.items) == StoredConfirmations(old(store.items))
  {
    var _ := store.SetItem(SessionsKey, SessionList(list), fault);
  }

  /** `getUserConfirmations`: the stored map, or the empty map when the key is absent or the read fails. */
  method GetUserConfirmations(store: KeyValueStore, fault: bool) returns (confirmations: map<string, Confirmation>)
    ensures fault ==> confirmations == map[]
    ensures !fault ==> confirmations == StoredConfirmations(store.items)
  {
    var r := store.GetItem(ConfirmationsKey, fault);
    match r {
      case Ok(Some(ConfirmationMap(m))) => confirmations := m;
      case Ok(_) => confirmations := map[];
      case Err(_) => confirmations := map[];
    }
  }

  /**
   * The map `confirmSession` writes: the entry for `sessionId` replaced by a
   * record of this user's answer, which carries no `sessionId` field.
   */
  function Upserted(confirmations: map<string, Confirmation>, sessionId: string, userName: string,
                    status: string, confirmedAt: string): (r: map<string, Confirmation>)
    ensures r.Keys == confirmations.Keys + {sessionId}
    ensures r[sessionId] == Confirmation(None, userName, status, confirmedAt)
    ensures forall k :: k in confirmations && k != sessionId ==> r[k] == confirmations[k]
  {
    confirmations[sessionId := Confirmation(None, userName, status, confirmedAt)]
  }

  /**
   * Two answers for the same session, from any two users, leave one entry for
   * it: the second answer. The first user's answer is lost.
   */
  lemma SecondConfirmationOverwritesFirst(confirmations: map<string, Confirmation>, sessionId: string,
                                          user1: string, status1: string, at1: string,
                                          user2: string, status2: string, at2: string)
    ensures var r := Upserted(Upserted(confirmations, sessionId, user1, status1, at1), sessionId, user2, status2, at2);
      r == Upserted(confirmations, sessionId, user2, status2, at2) &&
      r[sessionId].userName == user2 && r[sessionId].status == status2 &&
      |r| == |confirmations.Keys + {sessionId}|
  {
  }

  /**
   * `confirmSession`: upserts this answer into the map it read and writes the
   * map back. `confirmedAt` stands for `new Date().toISOString()`. It returns
   * true exactly when the write succeeded; a failed read is read as the empty
   * map, so the write then drops every other session's entry.
   */
  method ConfirmSession(store: KeyValueStore, sessionId: string, userName: string, status: string,
                        confirmedAt: string, readFault: bool, writeFault: bool)
    returns (ok: bool)
    modifies store
    ensures ok == !writeFault
    ensures store.items ==
      if writeFault then old(store.items)
      else old(store.items)[ConfirmationsKey := ConfirmationMap(Upserted(
        if readFault then map[] else StoredConfirmations(old(store.items)),
        sessionId, userName, status, confirmedAt))]
    ensures StoredSessions(store.items) == StoredSessions(old(store.items))
  {
    var confirmations := GetUserConfirmations(store, readFault);
    confirmations := Upserted(confirmations, sessionId, userName, status, confirmedAt);
    var r := store.SetItem(ConfirmationsKey, ConfirmationMap(confirmations), writeFault);
    ok := r.Ok?;
  }

  /** The store after seeding: the demo list is written only when the stored list is empty. */
  function SeededSessions(items: map<string, Value>): (r: map<string, Value>)
    ensures StoredSessions(r) != []
    ensures StoredSessions(items) != [] ==> r == items
    ensures r.Keys == items.Keys + {SessionsKey}
    ensures forall k :: k in items && k != SessionsKey ==> r[k] == items[k]
  {
    if StoredSessions(items) == [] then items[SessionsKey := SessionList(DemoSessions)] else items
  }

  /** Seeding twice leaves the store as seeding once does. */
  lemma SeedIdempotent(items: map<string, Value>)
    ensures SeededSessions(SeededSessions(items)) == SeededSessions(items)
  {
  }

  /**
   * `initializeDemoSessions`: writes the demo list when the list it reads is
   * empty. A failed read is read as empty, so it then overwrites a non-empty
   * list; a failed write leaves the store as it was.
   */
  method InitializeDemoSessions(store: KeyValueStore, readFault: bool, writeFault: bool)
    modifies store
    ensures !readFault && !writeFault ==> store.items == SeededSessions(old(store.items))
    ensures store.items ==
      if writeFault || (!readFault && StoredSessions(old(store.items)) != []) then old(store.items)
      else old(store.items)[SessionsKey := SessionList(DemoSessions)]
  {
    var existing := GetSessions(store, readFault);
    if |existing| == 0 {
      SaveSessions(store, DemoSessions, writeFault);
    }
  }
}
