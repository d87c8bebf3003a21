/**
 * The announcement store: one list of announcements kept under a single
 * storage key, read whole, changed, and written back whole.
 */
module AnnouncementService {
  import opened Wrappers
  import opened Records
  import opened AsyncStorage
  import JsArray

  const AnnouncementsKey: string := "@dndapp_announcements"

  /** The list held under the announcements key; empty when the key is absent. */
  function StoredAnnouncements(items: map<string, Value>): seq<Announcement>
  {
    if AnnouncementsKey in items && items[AnnouncementsKey].AnnouncementList?
    then items[AnnouncementsKey].announcements
    else []
  }

  /** The three posts written on first launch. */
  const DemoAnnouncements: seq<Announcement> := [
    Announcement(Some("1"), "Nova Campanha Iniciando!",
      "Estamos começando uma nova campanha na próxima semana. Todas as jogadoras estão convidadas!",
      "Ana (DM)", "2024-06-10", "14:30", true, None),
    Announcement(Some("2"), "Mudança de Horário",
      "A sessão de sábado será das 15h às 18h em vez das 14h às 17h.",
      "Carla", "2024-06-08", "09:15", false, None),
    Announcement(Some("3"), "Material para Próxima Sessão",
      "Por favor, leiam o capítulo 3 do livro de regras antes da próxima sessão.",
      "Beatriz (DM)", "2024-06-05", "19:45", true, None)
  ]

  /** `getAnnouncements`: the stored list, or the empty list when the key is absent or the read fails. */
  method GetAnnouncements(store: KeyValueStore, fault: bool) returns (list: seq<Announcement>)
    ensures fault ==> list == []
    ensures !fault ==> list == StoredAnnouncements(store.items)
  {
    var r := store.GetItem(AnnouncementsKey, fault);
    match r {
      case Ok(Some(AnnouncementList(xs))) => list := xs;
      case Ok(_) => list := [];
      case Err(_) => list := [];
    }
  }

  /** `saveAnnouncements`: overwrites the stored list; a failed write is swallowed. */
  method SaveAnnouncements(store: KeyValueStore, list: seq<Announcement>, fault: bool)
    modifies store
    ensures store.items == if fault then old(store.items)
                           else old(store.items)[AnnouncementsKey := AnnouncementList(list)]
    ensures !fault ==> StoredAnnouncements(store.items) == list
  {
    var _ := store.SetItem(AnnouncementsKey, AnnouncementList(list), fault);
  }

  /**
   * The record `addAnnouncement` stores: the caller's fields, with `id` and
   * `createdAt` set from the clock whatever the caller supplied.
   */
  function Stamped(draft: Announcement, id: string, createdAt: string): (n: Announcement)
    ensures n.id == Some(id) && n.createdAt == Some(createdAt)
    ensures n.(id := draft.id, createdAt := draft.createdAt) == draft
  {
    draft.(id := Some(id), createdAt := Some(createdAt))
  }

  /**
   * `addAnnouncement`: prepends the stamped record to the list it read and
   * writes the list back. `id` stands for `Date.now().toString()` and
   * `createdAt` for `new Date().toISOString()`. Both storage helpers swallow
   * their errors, so the record is returned even when it was not stored, and a
   * failed read makes the write replace the list with the new record alone.
   */
  method AddAnnouncement(store: KeyValueStore, draft: Announcement, id: string, createdAt: string,
                         readFault: bool, writeFault: bool)
    returns (n: Announcement)
    modifies store
    ensures n == Stamped(draft, id, createdAt)
    ensures store.items ==
      if writeFault then old(store.items)
      else old(store.items)[AnnouncementsKey :=
        AnnouncementList([n] + (if readFault then [] else StoredAnnouncements(old(store.items))))]
    ensures !readFault && !writeFault ==>
      StoredAnnouncements(store.items) == [n] + StoredAnnouncements(old(store.items)) &&
      |StoredAnnouncements(store.items)| == |StoredAnnouncements(old(store.items))| + 1
  {
    var list := GetAnnouncements(store, readFault);
    n := Stamped(draft, id, createdAt);
    list := [n] + list;
    SaveAnnouncements(store, list, writeFault);
  }

  /** The test `deleteAnnouncement` keeps a record by: its id is not `announcementId`. */
  function KeepUnless(announcementId: string): Announcement -> bool
  {
    (a: Announcement) => a.id != Some(announcementId)
  }

  /** The list left by deleting `announcementId` from `list`. */
  function WithoutId(list: seq<Announcement>, announcementId: string): (r: seq<Announcement>)
    ensures forall a :: a in r <==> a in list && a.id != Some(announcementId)
  {
    JsArray.Filter(list, KeepUnless(announcementId))
  }

  /** Deleting an id no record carries leaves the list exactly as it was. */
  lemma DeleteAbsentIsIdentity(list: seq<Announcement>, announcementId: string)
    requires forall i :: 0 <= i < |list| ==> list[i].id != Some(announcementId)
    ensures WithoutId(list, announcementId) == list
  {
    JsArray.FilterKeepsAll(list, KeepUnless(announcementId));
  }

  /** Deleting from a concatenation deletes from each part, keeping the order of the survivors. */
  lemma DeleteKeepsOrder(xs: seq<Announcement>, ys: seq<Announcement>, announcementId: string)
    ensures WithoutId(xs + ys, announcementId) == WithoutId(xs, announcementId) + WithoutId(ys, announcementId)
  {
    JsArray.FilterAppend(xs, ys, KeepUnless(announcementId));
  }

  /** Deleting the same id twice is deleting it once. */
  lemma DeleteIdempotent(list: seq<Announcement>, announcementId: string)
    ensures WithoutId(WithoutId(list, announcementId), announcementId) == WithoutId(list, announcementId)
  {
    JsArray.FilterIdempotent(list, KeepUnless(announcementId));
  }

  /**
   * `deleteAnnouncement`: writes back the list it read without the records
   * whose id is `announcementId`. It reports success whether or not a record
   * was removed, and also when the write failed, since the save helper
   * swallows that error.
   */
  method DeleteAnnouncement(store: KeyValueStore, announcementId: string, readFault: bool, writeFault: bool)
    returns (ok: bool)
    modifies store
    ensures ok
    ensures store.items ==
      if writeFault then old(store.items)
      else old(store.items)[AnnouncementsKey := AnnouncementList(
        WithoutId(if readFault then [] else StoredAnnouncements(old(store.items)), announcementId))]
  {
    var list := GetAnnouncements(store, readFault);
    var filtered := WithoutId(list, announcementId);
    SaveAnnouncements(store, filtered, writeFault);
    ok := true;
  }

  /** The store after seeding: the demo list is written only when the stored list is empty. */
  function SeededAnnouncements(items: map<string, Value>): (r: map<string, Value>)
    ensures StoredAnnouncements(r) != []
    ensures StoredAnnouncements(items) != [] ==> r == items
    ensures r.Keys == items.Keys + {AnnouncementsKey}
    ensures forall k :: k in items && k != AnnouncementsKey ==> r[k] == items[k]
  {
    if StoredAnnouncements(items) == [] then items[AnnouncementsKey := AnnouncementList(DemoAnnouncements)]
    else items
  }

  /** Seeding twice leaves the store as seeding once does. */
  lemma SeedIdempotent(items: map<string, Value>)
    ensures SeededAnnouncements(SeededAnnouncements(items)) == SeededAnnouncements(items)
  {
  }

  /**
   * `initializeDemoAnnouncements`: writes the demo list when the list it
   * reads is empty. A failed read is read as empty, so it then overwrites a
   * non-empty list; a failed write leaves the store as it was.
   */
  method InitializeDemoAnnouncements(store: KeyValueStore, readFault: bool, writeFault: bool)
    modifies store
    ensures !readFault && !writeFault ==> store.items == SeededAnnouncements(old(store.items))
    ensures store.items ==
      if writeFault || (!readFault && StoredAnnouncements(old(store.items)) != []) then old(store.items)
      else old(store.items)[AnnouncementsKey := AnnouncementList(DemoAnnouncements)]
  {
    var existing := GetAnnouncements(store, readFault);
    if |existing| == 0 {
      SaveAnnouncements(store, DemoAnnouncements, writeFault);
    }
  }
}
