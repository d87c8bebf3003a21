/**
 * The session details screen's two computations: the placeholder player
 * lists cut from fixed name lists, and the label for the user's answer.
 */
module SessionDetailsScreen {
  import opened Wrappers
  import JsArray

  const ConfirmedNames: seq<string> := ["Ana", "Carla", "Beatriz"]
  const PendingNames: seq<string> := ["Diana", "Elena", "Fernanda"]

  /** The two lists the screen renders. */
  datatype PlayersList = PlayersList(confirmed: seq<string>, pending: seq<string>)

  /**
   * `getPlayersList`: the first `confirmedPlayers` confirmed names and the
   * first `totalPlayers - confirmedPlayers` pending names, with `slice`'s
   * treatment of an end past the list or below zero.
   */
  function GetPlayersList(confirmedPlayers: int, totalPlayers: int): (r: PlayersList)
    ensures |r.confirmed| <= |ConfirmedNames| && r.confirmed == ConfirmedNames[..|r.confirmed|]
    ensures |r.pending| <= |PendingNames| && r.pending == PendingNames[..|r.pending|]
    ensures |r.confirmed| == SliceLength(|ConfirmedNames|, confirmedPlayers)
    ensures |r.pending| == SliceLength(|PendingNames|, totalPlayers - confirmedPlayers)
  {
    PlayersList(JsArray.SliceTo(ConfirmedNames, confirmedPlayers),
                JsArray.SliceTo(PendingNames, totalPlayers - confirmedPlayers))
  }

  /** How many elements `slice(0, end)` keeps from a list of length `n`. */
  function SliceLength(n: nat, end: int): nat
  {
    if end < 0 then Max(0, n + end) else Min(end, n)
  }

  function Min(a: int, b: int): int { if a < b then a else b }
  function Max(a: int, b: int): int { if a < b then b else a }

  /** With a non-negative count, the confirmed list is the first `min(3, count)` names. */
  lemma ConfirmedListIsPrefix(confirmedPlayers: int, totalPlayers: int)
    requires confirmedPlayers >= 0
    ensures GetPlayersList(confirmedPlayers, totalPlayers).confirmed == ConfirmedNames[..Min(3, confirmedPlayers)]
  {
  }

  /** With at least as many places as confirmations, the pending list is the first `min(3, open places)` names. */
  lemma PendingListIsPrefix(confirmedPlayers: int, totalPlayers: int)
    requires totalPlayers - confirmedPlayers >= 0
    ensures GetPlayersList(confirmedPlayers, totalPlayers).pending
      == PendingNames[..Min(3, totalPlayers - confirmedPlayers)]
  {
  }

  /**
   * With more confirmations than places, the negative end counts back from
   * the end of the list, so names still show: `max(0, 3 + open places)` of them.
   */
  lemma OverbookedPendingList(confirmedPlayers: int, totalPlayers: int)
    requires totalPlayers - confirmedPlayers < 0
    ensures GetPlayersList(confirmedPlayers, totalPlayers).pending
      == PendingNames[..Max(0, 3 + (totalPlayers - confirmedPlayers))]
  {
  }

  /** One more confirmation than places still lists two pending players. */
  lemma OverbookedByOneShowsTwo(totalPlayers: int)
    ensures GetPlayersList(totalPlayers + 1, totalPlayers).pending == ["Diana", "Elena"]
  {
  }

  /** The label for the user's answer; `None` is the screen's initial `null`. */
  function StatusLabel(userStatus: Option<string>): (text: string)
    ensures text == "Confirmada" <==> userStatus == Some("confirmed")
    ensures text == "Não posso ir" <==> userStatus == Some("denied")
    ensures text == "Não respondido" <==> userStatus != Some("confirmed") && userStatus != Some("denied")
  {
    if userStatus == Some("confirmed") then "Confirmada"
    else if userStatus == Some("denied") then "Não posso ir"
    else "Não respondido"
  }
}
