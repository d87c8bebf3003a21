/**
 * The auth directory: a fixed list of three demo accounts, and the cached
 * current user kept under the "user" storage key. Storage errors are not
 * caught here; they reach the caller as `StorageFailure`.
 */
module AuthService {
  import opened Wrappers
  import opened Records
  import opened AsyncStorage
  import JsArray

  const UserKey: string := "user"

  /** Why a call into the auth directory fails. */
  datatype AuthError = InvalidCredentials | StorageFailure

  /** The three accounts; the list is a constant and nothing writes to it. */
  const DemoUsers: seq<User> := [
    User("ana@dnd.com", "senha123", "Ana (DM)", "dm"),
    User("carla@dnd.com", "senha123", "Carla", "player"),
    User("beatriz@dnd.com", "senha123", "Beatriz", "player")
  ]

  /** The test `login` applies to each account: exact email and exact password. */
  function HasCredentials(email: string, password: string): User -> bool
  {
    (u: User) => u.email == email && u.password == password
  }

  /** The test `getCurrentUserWithRole` applies to each account: exact email. */
  function HasEmail(email: string): User -> bool
  {
    (u: User) => u.email == email
  }

  /** The account `login` accepts: the first one with exactly this email and password. */
  function Authenticate(email: string, password: string): (r: Option<User>)
    ensures r.Some? <==> exists i :: 0 <= i < |DemoUsers| && DemoUsers[i].email == email && DemoUsers[i].password == password
    ensures r.Some? ==> r.value in DemoUsers && r.value.email == email && r.value.password == password
  {
    var r := JsArray.Find(DemoUsers, HasCredentials(email, password));
    assert r.Some? ==> HasCredentials(email, password)(r.value);
    r
  }

  /** The directory's role for an email, `None` when no account has that email. */
  function RoleOf(email: string): (r: Option<string>)
    ensures r.Some? <==> exists i :: 0 <= i < |DemoUsers| && DemoUsers[i].email == email
    ensures r.Some? ==> exists i :: 0 <= i < |DemoUsers| && DemoUsers[i].email == email && DemoUsers[i].role == r.value
  {
    match JsArray.Find(DemoUsers, HasEmail(email))
    case Some(u) => Some(u.role)
    case None => None
  }

  /** Ana is the one dungeon master; Carla and Beatriz are players; unknown emails have no role. */
  lemma DirectoryRoles(email: string)
    ensures RoleOf("ana@dnd.com") == Some("dm")
    ensures RoleOf("carla@dnd.com") == Some("player")
    ensures RoleOf("beatriz@dnd.com") == Some("player")
    ensures email !in {"ana@dnd.com", "carla@dnd.com", "beatriz@dnd.com"} ==> RoleOf(email) == None
  {
  }

  /** A wrong password is refused even for a known email, and the demo password is accepted. */
  lemma WrongPasswordRefused(password: string)
    requires password != "senha123"
    ensures Authenticate("ana@dnd.com", password) == None
    ensures Authenticate("ana@dnd.com", "senha123") == Some(DemoUsers[0])
  {
  }

  /** The user cached under the "user" key, `None` when the key is absent. */
  function CachedUser(items: map<string, Value>): Option<User>
  {
    if UserKey in items && items[UserKey].UserRecord? then Some(items[UserKey].user) else None
  }

  /**
   * `login`: on a directory match, caches the matched account under "user"
   * and returns it; otherwise refuses with `InvalidCredentials` and touches
   * nothing. A failed write reaches the caller as `StorageFailure`.
   */
  method Login(store: KeyValueStore, email: string, password: string, writeFault: bool)
    returns (r: Result<User, AuthError>)
    modifies store
    ensures Authenticate(email, password).None? ==> r == Err(InvalidCredentials) && store.items == old(store.items)
    ensures Authenticate(email, password).Some? && writeFault ==>
      r == Err(StorageFailure) && store.items == old(store.items)
    ensures Authenticate(email, password).Some? && !writeFault ==>
      r == Ok(Authenticate(email, password).value) &&
      store.items == old(store.items)[UserKey := UserRecord(r.value)] &&
      CachedUser(store.items) == Some(r.value)
  {
    var found := Authenticate(email, password);
    if found.Some? {
      var w := store.SetItem(UserKey, UserRecord(found.value), writeFault);
      if w.Ok? {
        r := Ok(found.value);
      } else {
        r := Err(StorageFailure);
      }
    } else {
      r := Err(InvalidCredentials);
    }
  }

  /** `logout`: removes the "user" key; removing it again is harmless. */
  method Logout(store: KeyValueStore, fault: bool) returns (r: Result<(), AuthError>)
    modifies store
    ensures fault <==> r == Err(StorageFailure)
    ensures store.items == if fault then old(store.items) else old(store.items) - {UserKey}
    ensures !fault ==> CachedUser(store.items) == None
  {
    var w := store.RemoveItem(UserKey, fault);
    r := if w.Ok? then Ok(()) else Err(StorageFailure);
  }

  /** Logging out twice leaves the store as logging out once: no user is cached either way. */
  lemma LogoutIdempotent(items: map<string, Value>)
    ensures (items - {UserKey}) - {UserKey} == items - {UserKey}
    ensures CachedUser(items - {UserKey}) == None
  {
  }

  /** `getCurrentUser`: the cached user, `None` when nobody is logged in. */
  method GetCurrentUser(store: KeyValueStore, fault: bool) returns (r: Result<Option<User>, AuthError>)
    ensures fault <==> r == Err(StorageFailure)
    ensures !fault ==> r == Ok(CachedUser(store.items))
  {
    var v := store.GetItem(UserKey, fault);
    match v {
      case Ok(Some(UserRecord(u))) => r := Ok(Some(u));
      case Ok(_) => r := Ok(None);
      case Err(_) => r := Err(StorageFailure);
    }
  }

  /** The cached user with its role re-read from the directory; `None` when its email has no account. */
  function WithDirectoryRole(user: User): (r: Option<User>)
    ensures r.Some? <==> RoleOf(user.email).Some?
    ensures r.Some? ==> r.value.(role := user.role) == user && Some(r.value.role) == RoleOf(user.email)
  {
    match RoleOf(user.email)
    case Some(role) => Some(user.(role := role))
    case None => None
  }

  /**
   * `getCurrentUserWithRole`: `None` when nobody is logged in or the cached
   * email is not in the directory; otherwise the cached record with the
   * directory's role in place of its own.
   */
  method GetCurrentUserWithRole(store: KeyValueStore, fault: bool) returns (r: Result<Option<User>, AuthError>)
    ensures fault <==> r == Err(StorageFailure)
    ensures !fault && CachedUser(store.items).None? ==> r == Ok(None)
    ensures !fault && CachedUser(store.items).Some? ==> r == Ok(WithDirectoryRole(CachedUser(store.items).value))
  {
    var user := GetCurrentUser(store, fault);
    match user {
      case Ok(Some(u)) => r := Ok(WithDirectoryRole(u));
      case Ok(None) => r := Ok(None);
      case Err(e) => r := Err(e);
    }
  }

  /** After a successful login the cached user is the account that matched, with its own role. */
  lemma LoginThenRole(email: string, password: string)
    requires Authenticate(email, password).Some?
    ensures var u := Authenticate(email, password).value; WithDirectoryRole(u) == Some(u)
  {
  }
}
