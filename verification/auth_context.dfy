/**
 * The identity state container (context/AuthContext.tsx): session restore,
 * mocked login, registration, logout and profile update. The artificial
 * delays are dropped; each operation is one atomic step.
 */
module AuthContext {
  import opened Types
  import opened Seqs
  import opened Text
  import opened StorageService

  /** `Partial<User>`: a field is `Some` when the caller supplied it. */
  datatype UserPatch = UserPatch(
    id: Option<string>,
    name: Option<string>,
    username: Option<string>,
    email: Option<string>,
    role: Option<Role>,
    avatar: Option<string>,
    phone: Option<string>,
    address: Option<string>,
    bio: Option<string>,
    pixKey: Option<string>,
    blocked: Option<bool>,
    isOnline: Option<bool>,
    createdAt: Option<int>)

  const NoChanges := UserPatch(None, None, None, None, None, None, None, None, None, None, None, None, None)

  const DuplicateIdentityMessage := "Usuário ou e-mail já cadastrado."

  datatype RegisterResult = RegisterResult(success: bool, message: Option<string>)

  /** `{...u, ...patch}`: every supplied field overrides, the rest is kept. */
  function Merge(u: User, patch: UserPatch): (r: User)
    ensures patch == NoChanges ==> r == u
  {
    User(
      id := patch.id.GetOr(u.id),
      name := patch.name.GetOr(u.name),
      username := patch.username.GetOr(u.username),
      email := patch.email.GetOr(u.email),
      role := patch.role.GetOr(u.role),
      avatar := patch.avatar.OrElse(u.avatar),
      phone := patch.phone.OrElse(u.phone),
      address := patch.address.OrElse(u.address),
      bio := patch.bio.OrElse(u.bio),
      pixKey := patch.pixKey.OrElse(u.pixKey),
      blocked := patch.blocked.OrElse(u.blocked),
      isOnline := patch.isOnline.OrElse(u.isOnline),
      createdAt := patch.createdAt.GetOr(u.createdAt))
  }

  /** Merging the same fields twice is merging them once. */
  lemma MergeIdempotent(u: User, patch: UserPatch)
    ensures Merge(Merge(u, patch), patch) == Merge(u, patch)
  {
  }

  /** JavaScript's "or" on an optional string: an absent or empty value gives the fallback. */
  function OrDefault(s: Option<string>, fallback: string): string {
    if s.Some? && s.value != "" then s.value else fallback
  }

  /** The generated avatar address (the name goes in unencoded). */
  function AvatarUrl(name: string): string {
    "https://ui-avatars.com/api/?name=" + name + "&background=random"
  }

  /**
   * The literal object `register` builds before spreading the supplied
   * fields: a clock id, a non-empty name and username (the supplied ones
   * unless absent or empty), online and not blocked.
   */
  function Defaults(data: UserPatch, now: nat): (r: User)
    ensures r.id == NatToString(now) && r.createdAt == now
    ensures r.name != "" && r.username != ""
    ensures data.name.Some? && data.name.value != "" ==> r.name == data.name.value
    ensures data.username.Some? && data.username.value != "" ==> r.username == data.username.value
    ensures !r.IsBlocked() && r.isOnline == Some(true)
  {
    User(
      id := NatToString(now),
      name := OrDefault(data.name, "User"),
      username := OrDefault(data.username, "user" + NatToString(now)),
      email := OrDefault(data.email, ""),
      role := data.role.GetOr(Buyer),
      avatar := Some(AvatarUrl(OrDefault(data.name, "U"))),
      phone := Some(""),
      address := Some(""),
      bio := Some(""),
      pixKey := None,
      blocked := Some(false),
      isOnline := Some(true),
      createdAt := now)
  }

  /**
   * The new user of a registration: every supplied field wins (an empty name
   * stays empty, since the spread comes after the "User" fallback), and the defaults
   * fill in the rest.
   */
  function NewUser(data: UserPatch, now: nat): (r: User)
    ensures r.id == data.id.GetOr(NatToString(now))
    ensures r.name == data.name.GetOr("User")
    ensures r.username == data.username.GetOr("user" + NatToString(now))
    ensures r.email == data.email.GetOr("")
    ensures r.role == data.role.GetOr(Buyer)
    ensures r.avatar == data.avatar.OrElse(Some(AvatarUrl(OrDefault(data.name, "U"))))
    ensures r.phone == data.phone.OrElse(Some("")) && r.address == data.address.OrElse(Some(""))
    ensures r.bio == data.bio.OrElse(Some("")) && r.pixKey == data.pixKey
    ensures r.blocked == data.blocked.OrElse(Some(false))
    ensures r.isOnline == data.isOnline.OrElse(Some(true))
    ensures r.createdAt == data.createdAt.GetOr(now)
  {
    Merge(Defaults(data, now), data)
  }

  /** The duplicate check: some stored user has the supplied email or the supplied username. */
  function IdentityTaken(users: seq<User>, data: UserPatch): (r: bool)
    ensures r <==>
            exists i :: 0 <= i < |users| && (Some(users[i].email) == data.email || Some(users[i].username) == data.username)
  {
    FirstIndex(users, (u: User) => Some(u.email) == data.email || Some(u.username) == data.username).Some?
  }

  /** A user the login form may sign in as: identifier matches email or username, not blocked. */
  predicate CanLogin(u: User, identifier: string) {
    (u.email == identifier || u.username == identifier) && !u.IsBlocked()
  }

  /** The login lookup: the first user who may sign in with this identifier. No password is involved. */
  function LoginMatch(users: seq<User>, identifier: string): (r: Option<User>)
    ensures r.Some? <==> exists i :: 0 <= i < |users| && CanLogin(users[i], identifier)
    ensures r.Some? ==> exists k :: 0 <= k < |users| && users[k] == r.value && CanLogin(users[k], identifier) &&
                                    forall j :: 0 <= j < k ==> !CanLogin(users[j], identifier)
  {
    match FirstIndex(users, (u: User) => CanLogin(u, identifier))
    case None => None
    case Some(k) => Some(users[k])
  }

  /** The user with `isOnline` set, as login and restore install it. */
  function Online(u: User): User {
    u.(isOnline := Some(true))
  }

  /** `k` is the first position holding a user with this id. */
  ghost predicate IsFirstWithId(users: seq<User>, k: int, id: string) {
    0 <= k < |users| && users[k].id == id && forall j :: 0 <= j < k ==> users[j].id != id
  }

  /**
   * Session restore: the stored user survives only if the first user record
   * with its id exists and is not blocked, and then the fresh record (not the
   * cached copy) becomes the current user, marked online.
   */
  function RestoredUser(stored: Option<User>, users: seq<User>): (r: Option<User>)
    ensures stored.None? ==> r.None?
    ensures r.Some? ==> exists k :: IsFirstWithId(users, k, stored.value.id) && !users[k].IsBlocked() && r.value == Online(users[k])
    ensures stored.Some? && r.None? ==> forall k :: IsFirstWithId(users, k, stored.value.id) ==> users[k].IsBlocked()
  {
    if stored.None? then None
    else match FirstIndex(users, (u: User) => u.id == stored.value.id)
      case None => None
      case Some(k) =>
        assert IsFirstWithId(users, k, stored.value.id);
        if users[k].IsBlocked() then None else Some(Online(users[k]))
  }

  /**
   * The users-list write of `updateProfile`: the first entry with the old id
   * is replaced by the updated user; with no such entry nothing is written.
   */
  function ProfileWrite(users: seq<User>, id: string, updated: User): (r: Option<seq<User>>)
    ensures r.None? <==> forall i :: 0 <= i < |users| ==> users[i].id != id
    ensures r.Some? ==> |r.value| == |users| &&
                        exists k :: IsFirstWithId(users, k, id) && r.value == users[k := updated]
  {
    match FirstIndex(users, (u: User) => u.id == id)
    case None => None
    case Some(k) =>
      assert IsFirstWithId(users, k, id);
      Some(users[k := updated])
  }

  class AuthProvider {
    var user: Option<User>
    const store: Storage

    ghost predicate Valid()
      reads this, store
    {
      store.Valid()
    }

    constructor (store: Storage)
      requires store.Valid()
      ensures Valid() && this.store == store && user == None
    {
      this.store := store;
      user := None;
    }

    /** `checkSession`, run once at mount. */
    method CheckSession()
      requires Valid()
      modifies this, store`slots
      ensures Valid()
      ensures var restored := RestoredUser(old(store.GetCurrentUser()), old(store.GetUsers()));
              && (restored.Some? ==> user == restored && store.slots == old(store.slots))
              && (old(store.GetCurrentUser()).Some? && restored.None? ==>
                    user == old(user) && store.slots == old(store.slots) - {SessionKey} && store.GetCurrentUser() == None)
              && (old(store.GetCurrentUser()).None? ==> user == old(user) && store.slots == old(store.slots))
    {
      var storedUser := store.GetCurrentUser();
      if storedUser.Some? {
        var allUsers := store.GetUsers();
        var restored := RestoredUser(storedUser, allUsers);
        if restored.Some? {
          user := restored;
        } else {
          store.SaveCurrentUser(None);
        }
      }
    }

    /**
     * `login`: succeeds exactly when some non-blocked user has this email or
     * username; the first such user becomes current and is saved as the
     * session. The password is never consulted. A failure changes nothing.
     */
    method Login(identifier: string, password: string) returns (ok: bool)
      requires Valid()
      modifies this, store`slots
      ensures Valid()
      ensures ok <==> exists i :: 0 <= i < |old(store.GetUsers())| && CanLogin(old(store.GetUsers())[i], identifier)
      ensures ok ==> var u := Online(LoginMatch(old(store.GetUsers()), identifier).value);
                     user == Some(u) && store.slots == old(store.slots)[SessionKey := SessionSlot(u)]
      ensures !ok ==> user == old(user) && store.slots == old(store.slots)
    {
      var users := store.GetUsers();
      var found := LoginMatch(users, identifier);
      if found.Some? {
        var userWithStatus := Online(found.value);
        user := Some(userWithStatus);
        store.SaveCurrentUser(Some(userWithStatus));
        return true;
      }
      return false;
    }

    /**
     * `register`: a duplicate email or username fails with its message and
     * changes nothing; otherwise exactly one user is appended to the stored
     * list and becomes both the current user and the session.
     */
    method Register(data: UserPatch, password: string, now: nat) returns (result: RegisterResult)
      requires Valid()
      modifies this, store`slots
      ensures Valid()
      ensures IdentityTaken(old(store.GetUsers()), data) ==>
                result == RegisterResult(false, Some(DuplicateIdentityMessage)) &&
                user == old(user) && store.slots == old(store.slots)
      ensures !IdentityTaken(old(store.GetUsers()), data) ==>
                var u := NewUser(data, now);
                && result == RegisterResult(true, None)
                && user == Some(u)
                && store.GetUsers() == old(store.GetUsers()) + [u]
                && store.GetCurrentUser() == Some(u)
                && store.slots == old(store.slots)[UsersKey := UsersSlot(old(store.GetUsers()) + [u])][SessionKey := SessionSlot(u)]
    {
      var users := store.GetUsers();
      if IdentityTaken(users, data) {
        return RegisterResult(false, Some(DuplicateIdentityMessage));
      }
      var newUser := NewUser(data, now);
      users := users + [newUser];
      store.SaveUsers(users);
      user := Some(newUser);
      store.SaveCurrentUser(Some(newUser));
      return RegisterResult(true, None);
    }

    /** `logout`: no current user and no session slot; nothing is published. */
    method Logout()
      requires Valid()
      modifies this, store`slots
      ensures Valid()
      ensures user == None
      ensures store.slots == old(store.slots) - {SessionKey}
      ensures store.GetCurrentUser() == None
    {
      user := None;
      store.SaveCurrentUser(None);
    }

    /**
     * `updateProfile`: without a user nothing happens. Otherwise the merged
     * user becomes current and is saved as the session, and the first stored
     * user with the old id, if any, is replaced by it.
     */
    method UpdateProfile(data: UserPatch)
      requires Valid()
      modifies this, store`slots
      ensures Valid()
      ensures old(user).None? ==> user == None && store.slots == old(store.slots)
      ensures old(user).Some? ==>
                var updated := Merge(old(user).value, data);
                var write := ProfileWrite(old(store.GetUsers()), old(user).value.id, updated);
                && user == Some(updated)
                && store.GetCurrentUser() == Some(updated)
                && (write.None? ==> store.slots == old(store.slots)[SessionKey := SessionSlot(updated)])
                && (write.Some? ==> store.slots == old(store.slots)[SessionKey := SessionSlot(updated)][UsersKey := UsersSlot(write.value)])
    {
      if user.None? {
        return;
      }
      var updatedUser := Merge(user.value, data);
      var previousId := user.value.id;
      user := Some(updatedUser);
      store.SaveCurrentUser(Some(updatedUser));
      var users := store.GetUsers();
      var write := ProfileWrite(users, previousId, updatedUser);
      if write.Some? {
        store.SaveUsers(write.value);
      }
    }
  }
}
