# Tabletop session planner: local data model

This project models the logic of a small mobile app that coordinates tabletop
role-playing sessions for a fixed group of players. All of its data lives in the
device's asynchronous key-value store; three service objects read a blob, change
it and write it back whole:

- the **announcement store** keeps the notice board under `@dndapp_announcements`;
- the **session store** keeps the session list under `@dndapp_sessions` and the
  RSVP map under `@dndapp_confirmations`, keyed by session id alone;
- the **auth directory** checks credentials against three hard-coded accounts
  and caches the logged-in account under `user`.

Two screens add pure logic on top: the home screen derives each session's
confirmed count and status from the RSVP map, and the session details screen
cuts placeholder player lists from fixed name lists and labels the user's answer.

Modules, one per core source file, plus four support modules: `Wrappers` (Option, Result), `Records` (the
stored records and the shapes a key can hold), `AsyncStorage` (the store as a
class over a `map<string, Value>`, where every call takes a `fault` flag saying
whether it throws), `JsArray` (`find`, `filter`, `slice(0, end)`),
`AnnouncementService`, `SessionService`, `AuthService`, `HomeScreen`,
`SessionDetailsScreen`. The services' operations are methods that change the
store; each states the store's whole new value, and pure functions
(`StoredAnnouncements`, `Upserted`, `SeededSessions`, ...) carry the
properties the lemmas prove.

What the code does where its own `catch` blocks suggest otherwise:

- For any value the app itself stores, `addAnnouncement` never returns `null`
  and `deleteAnnouncement` always returns `true`. Both call `getAnnouncements` and `saveAnnouncements`, which
  catch their own errors, so the outer `catch` is never reached: the record is
  returned, and success reported, even when the write failed.
- A failed read inside `addAnnouncement`, `deleteAnnouncement`,
  `confirmSession` or the two seeding operations is read as "empty", so the
  write that follows replaces the stored list or map: the new record alone,
  the filtered empty list, the one new confirmation, or the demo seed.
- `confirmSession` stores no `sessionId` field, while the home screen counts
  only confirmations whose `sessionId` strictly equals the session's `id`.
  Records it writes therefore never count for a session that has an id, and
  they all count for a session that lacks one (`undefined === undefined`).

## Model

| member | source | states |
|---|---|---|
| `JsArray.Find` | authService.js:39-41 | the result exists iff some element passes the test, and is then the first element that does |
| `JsArray.Filter` | announcementService.js:54-56 | the result holds exactly the input's elements that pass the test, and is no longer than the input |
| `JsArray.FilterAppend` | announcementService.js:54-56 | filtering a concatenation is the concatenation of the filtered parts, so the survivors keep their order |
| `JsArray.FilterKeepsAll` | announcementService.js:54-56 | when every element passes, the filter returns the input unchanged |
| `JsArray.FilterIdempotent` | announcementService.js:54-56 | filtering twice with one test equals filtering once |
| `JsArray.SliceTo` | screens/SessionDetailsScreen.js:44-51 | `slice(0, end)` is a prefix whose length is `end` capped at the list length, or for negative `end` the length plus `end` floored at 0 |
| `AnnouncementService.GetAnnouncements` | announcementService.js:8-18 | returns the stored list, and the empty list when the key is absent or the read fails |
| `AnnouncementService.SaveAnnouncements` | announcementService.js:21-30 | overwrites only the announcements key; after a successful write the stored list reads back as the list saved; a failed write changes nothing |
| `AnnouncementService.Stamped` | announcementService.js:36-40 | the new record has the caller's fields, with `id` and `createdAt` replaced by the clock values |
| `AnnouncementService.AddAnnouncement` | announcementService.js:33-48 | returns the stamped record; the stored list becomes that record followed by the old list, one longer; a failed read stores the record alone |
| `AnnouncementService.WithoutId` | announcementService.js:54-56 | an announcement is in the result iff it was in the list and its id differs from the one deleted |
| `AnnouncementService.DeleteAbsentIsIdentity` | announcementService.js:54-57 | deleting an id no record carries leaves the list exactly as it was |
| `AnnouncementService.DeleteKeepsOrder` | announcementService.js:54-56 | deletion from a concatenation deletes from each part in order |
| `AnnouncementService.DeleteIdempotent` | announcementService.js:54-56 | deleting an id twice equals deleting it once, so every duplicate goes in one call |
| `AnnouncementService.DeleteAnnouncement` | announcementService.js:51-63 | stores the read list without the records with that id and reports true in every case |
| `AnnouncementService.SeededAnnouncements` | announcementService.js:66-102 | after seeding the list is non-empty; a non-empty list is left alone; no other key changes |
| `AnnouncementService.SeedIdempotent` | announcementService.js:66-68 | seeding twice equals seeding once |
| `AnnouncementService.InitializeDemoAnnouncements` | announcementService.js:66-103 | writes the three demo posts only when the list read is empty (or the read failed) and the write succeeds |
| `SessionService.GetSessions` | sessionService.js:10-18 | returns the stored list, and the empty list when the key is absent or the read fails |
| `SessionService.SaveSessions` | sessionService.js:21-27 | overwrites only the sessions key, leaving the confirmations as they were; a saved list reads back unchanged |
| `SessionService.GetUserConfirmations` | sessionService.js:30-40 | returns the stored map, and the empty map when the key is absent or the read fails |
| `SessionService.Upserted` | sessionService.js:45-50 | the entry for the session becomes the new answer without a `sessionId`; every other entry is kept |
| `SessionService.SecondConfirmationOverwritesFirst` | sessionService.js:46 | two answers for one session leave one entry, the second user's |
| `SessionService.ConfirmSession` | sessionService.js:43-61 | returns true exactly when the write succeeds, and then stores the read map with the answer upserted; the sessions key is untouched |
| `SessionService.SeededSessions` | sessionService.js:64-103 | after seeding the list is non-empty; a non-empty list is left alone; no other key changes |
| `SessionService.SeedIdempotent` | sessionService.js:64-68 | seeding twice equals seeding once |
| `SessionService.InitializeDemoSessions` | sessionService.js:64-104 | writes the three demo sessions only when the list read is empty (or the read failed) and the write succeeds |
| `AuthService.Authenticate` | authService.js:38-42 | an account is found iff some directory entry has exactly that email and password, and it is such an entry |
| `AuthService.RoleOf` | authService.js:32 | a role is found iff some directory entry has that email, and it is that entry's role |
| `AuthService.DirectoryRoles` | authService.js:6-25 | `ana@dnd.com` is `dm`, the other two accounts are `player`, any other email has no role |
| `AuthService.WrongPasswordRefused` | authService.js:39-46 | Ana's demo password is accepted and any other password refused |
| `AuthService.Login` | authService.js:38-47 | on a match caches the matched account under `user` and returns it; on no match fails with invalid credentials and changes nothing; a failed write fails with a storage error |
| `AuthService.Logout` | authService.js:49-51 | removes only the `user` key, after which no user is cached; repeating it is harmless |
| `AuthService.LogoutIdempotent` | authService.js:49-51 | removing the `user` key a second time leaves the store as one removal did, with no user cached |
| `AuthService.GetCurrentUser` | authService.js:53-56 | returns the cached account, none after logout or before any login |
| `AuthService.WithDirectoryRole` | authService.js:32-33 | none iff the email has no account; otherwise the cached record with only its role replaced by the directory's |
| `AuthService.GetCurrentUserWithRole` | authService.js:28-36 | none when nobody is logged in or the email is unknown, otherwise the cached record with the directory's role |
| `AuthService.LoginThenRole` | authService.js:28-47 | an account that logs in is returned by the role lookup unchanged |
| `HomeScreen.CountedKeys` | screens/HomeScreen.js:49-54 | exactly the entries whose `sessionId` strictly equals the session id and whose status is `confirmed` |
| `HomeScreen.CountPositiveIff` | screens/HomeScreen.js:49-59 | the confirmed count is positive iff some entry is counted |
| `HomeScreen.CountAtMostEntries` | screens/HomeScreen.js:49-54 | the confirmed count never exceeds the number of map entries |
| `HomeScreen.WithConfirmations` | screens/HomeScreen.js:49-60 | only `confirmedPlayers` and `status` change; status is `confirmed` iff a counted entry exists and `pending` otherwise |
| `HomeScreen.SessionsWithConfirmations` | screens/HomeScreen.js:48-61 | same length and order as the input; each session gets its count and the status it implies, other fields kept |
| `HomeScreen.ServiceConfirmationsNeverCount` | sessionService.js:46-50 | records without a `sessionId` never count for a session with an id, which stays `pending` with zero players |
| `HomeScreen.IdlessSessionCountsServiceConfirmations` | screens/HomeScreen.js:50 | a session without an id counts every `confirmed` record that lacks a `sessionId` |
| `HomeScreen.ConfirmNeverRaisesCount` | sessionService.js:45-50 | a `confirmSession` upsert never raises the count of a session that has an id |
| `SessionDetailsScreen.GetPlayersList` | screens/SessionDetailsScreen.js:43-54 | both lists are prefixes of their fixed name lists, of the lengths `slice(0, end)` gives for `end` = the confirmed count and `end` = total minus confirmed |
| `SessionDetailsScreen.ConfirmedListIsPrefix` | screens/SessionDetailsScreen.js:44-47 | for a non-negative count the confirmed list is the first `min(3, count)` names |
| `SessionDetailsScreen.PendingListIsPrefix` | screens/SessionDetailsScreen.js:48-51 | for `total - confirmed >= 0` the pending list is the first `min(3, total - confirmed)` names |
| `SessionDetailsScreen.OverbookedPendingList` | screens/SessionDetailsScreen.js:48-51 | for `total - confirmed < 0` the pending list is the first `max(0, 3 + total - confirmed)` names |
| `SessionDetailsScreen.OverbookedByOneShowsTwo` | screens/SessionDetailsScreen.js:48-51 | one confirmation over capacity still lists two pending names |
| `SessionDetailsScreen.StatusLabel` | screens/SessionDetailsScreen.js:118-122 | "Confirmada" iff confirmed, "Não posso ir" iff denied, "Não respondido" for anything else |

## Left out

- Rendering, styles, navigation and alerts in every screen; App.js, the settings, announcements, login and create-session screens.
- `addSession`, which the create-session screen calls but the session service does not define.
- The details screen's `handleConfirmation`, which refers to an undeclared `userName` and so never reaches the service.
- The progress-bar percentage on the home screen, a floating-point division.
- JSON serialisation: a stored value is the value itself, so a blob can never be malformed; a read that fails is the `fault` flag.
- A value of the wrong shape under a service's key, which only a foreign writer could store, is read as absent; the JavaScript would return it as parsed and fail later (for instance `unshift` would throw and `addAnnouncement` would return `null`, and `filter` would throw and `deleteAnnouncement` would return `false`).
- Clocks: `Date.now().toString()` and `new Date().toISOString()` are parameters; id uniqueness is not claimed.
- Interleaving of concurrent asynchronous calls and the lost updates it allows; every operation is one atomic step.
- `console` logging.
- `HomeScreen.CountedKeys` counts map entries rather than walking `Object.values` in the order JavaScript lists them; the count does not depend on that order.
- `SessionDetailsScreen.GetPlayersList` takes integer counts; a missing `totalPlayers` (which makes `slice` see `NaN`) is not modelled.
