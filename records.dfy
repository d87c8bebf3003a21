/**
 * The records the app keeps in local storage. A field that a JavaScript object
 * may lack is an `Option`; JSON serialisation is taken to be an exact round trip,
 * so a stored blob is the value itself.
 */
module Records {
  import opened Wrappers

  /** A notice-board post; `id` and `createdAt` are absent on the demo seed and on caller drafts. */
  datatype Announcement = Announcement(
    id: Option<string>,
    title: string,
    content: string,
    author: string,
    date: string,
    time: string,
    important: bool,
    createdAt: Option<string>)

  /** A scheduled game; `confirmedPlayers` and `status` are display fields that a record may lack. */
  datatype Session = Session(
    id: Option<string>,
    title: string,
    date: string,
    time: string,
    dungeonMaster: string,
    totalPlayers: int,
    location: string,
    status: Option<string>,
    confirmedPlayers: Option<int>)

  /** An RSVP; records written by the session service carry no `sessionId`. */
  datatype Confirmation = Confirmation(
    sessionId: Option<string>,
    userName: string,
    status: string,
    confirmedAt: string)

  /** An entry of the credential directory, also the shape of the cached current user. */
  datatype User = User(email: string, password: string, name: string, role: string)

  /** What one storage key holds once parsed. */
  datatype Value =
    | AnnouncementList(announcements: seq<Announcement>)
    | SessionList(sessions: seq<Session>)
    | ConfirmationMap(confirmations: map<string, Confirmation>)
    | UserRecord(user: User)
}
