/**
 * The credential store of UserDatabase.java: a map from the trimmed,
 * lower-cased user name to the user's record. Hashing (SHA-256 over the
 * Base64 salt and the password) is the constant `hash` fixed at construction;
 * salts and clock readings are parameters of the operations that use them.
 */
module UserStore {
  import opened Base
  import opened JavaStrings

  /** The bootstrap administrator's fixed user name and initial password. */
  const OriginalAdmin: string := "admin"
  const DefaultAdminPassword: string := "admin"

  /** A stored account (UserDatabase.User). */
  datatype User = User(
    username: string,
    hashedPassword: string,
    salt: string,
    isAdmin: bool,
    createdAt: int,
    lastModified: int)

  /** The projection returned by `listUsers`, without the password hash and salt. */
  datatype UserInfo = UserInfo(username: string, isAdmin: bool, createdAt: int, lastModified: int)

  function Info(u: User): UserInfo
  {
    UserInfo(u.username, u.isAdmin, u.createdAt, u.lastModified)
  }

  /** `isOriginalAdmin`: decided from the name alone, whatever the store holds. */
  function IsOriginalAdmin(username: Option<string>): (r: bool)
    ensures r ==> username.Some?
    ensures username.Some? ==>
              (r <==> var t := Trim(username.value);
                      |t| == |OriginalAdmin| && forall k :: 0 <= k < |t| ==> LowerChar(t[k]) == OriginalAdmin[k])
  {
    username.Some? && Normalize(username.value) == OriginalAdmin
  }

  lemma NormalizeOriginalAdmin()
    ensures Normalize(OriginalAdmin) == OriginalAdmin
  {
    TrimOfTrimmed(OriginalAdmin);
  }

  /** Any spelling of the name that normalises like "admin" is the original admin, and no other. */
  lemma OriginalAdminIsCaseAndSpaceInsensitive(s: string)
    ensures IsOriginalAdmin(Some(s)) <==> IsOriginalAdmin(Some(Normalize(s)))
  {
    NormalizeIdempotent(s);
    NormalizeOriginalAdmin();
  }

  class UserDatabase {
    /** hashPassword(password, salt). */
    const hash: (string, string) -> string
    var users: map<string, User>

    /** Every key is a normalised name and is the name stored in its record. */
    ghost predicate Valid()
      reads this
    {
      forall k :: k in users ==> Normalize(k) == k && users[k].username == k
    }

    /** The store created when no database file exists: `createDefaultAdmin` on an empty map. */
    constructor (hash: (string, string) -> string, salt: string, now: int)
      ensures Valid()
      ensures this.hash == hash
      ensures users == map[OriginalAdmin := User(OriginalAdmin, hash(DefaultAdminPassword, salt), salt, true, now, now)]
      ensures Authenticate(Some(OriginalAdmin), Some(DefaultAdminPassword))
      ensures IsAdmin(Some(OriginalAdmin))
    {
      this.hash := hash;
      users := map[OriginalAdmin := User(OriginalAdmin, hash(DefaultAdminPassword, salt), salt, true, now, now)];
      NormalizeOriginalAdmin();
    }

    /** `getUser`: the record stored under the normalised name, if any. */
    function GetUser(username: Option<string>): (r: Option<User>)
      reads this
      ensures r.Some? <==> username.Some? && Normalize(username.value) in users
      ensures r.Some? ==> r.value == users[Normalize(username.value)]
    {
      if username.None? then None
      else
        var key := Normalize(username.value);
        if key in users then Some(users[key]) else None
    }

    /** `authenticateUser`: the password, hashed with the stored salt, matches the stored hash. */
    function Authenticate(username: Option<string>, password: Option<string>): (ok: bool)
      reads this
      ensures ok ==> GetUser(username).Some? && password.Some?
    {
      if username.None? || password.None? then false
      else
        match GetUser(username)
        case None => false
        case Some(user) => hash(password.value, user.salt) == user.hashedPassword
    }

    /** `isAdmin`. */
    function IsAdmin(username: Option<string>): (r: bool)
      reads this
      ensures r ==> GetUser(username).Some?
    {
      match GetUser(username)
      case None => false
      case Some(user) => user.isAdmin
    }

    /** `createUser`. */
    method CreateUser(username: Option<string>, password: Option<string>, isAdmin: bool, salt: string, now: int)
      returns (ok: bool)
      requires Valid()
      modifies this
      ensures Valid()
      ensures ok <==> username.Some? && !IsBlank(username.value) && password.Some? && !IsBlank(password.value)
                      && Normalize(username.value) !in old(users)
      ensures !ok ==> users == old(users)
      ensures ok ==> users == old(users)[Normalize(username.value) :=
                                User(Normalize(username.value), hash(password.value, salt), salt, isAdmin, now, now)]
      ensures ok ==> users.Keys == old(users).Keys + {Normalize(username.value)}
      ensures ok ==> forall k :: k in old(users) ==> k in users && users[k] == old(users)[k]
      ensures ok ==> Authenticate(username, password) && IsAdmin(username) == isAdmin
      ensures ok ==> forall q: string :: Authenticate(username, Some(q)) <==> hash(q, salt) == hash(password.value, salt)
    {
      if username.None? || IsBlank(username.value) || password.None? || IsBlank(password.value) {
        return false;
      }
      var key := Normalize(username.value);
      if key in users {
        return false;
      }
      NormalizeIdempotent(username.value);
      users := users[key := User(key, hash(password.value, salt), salt, isAdmin, now, now)];
      ok := true;
    }

    /** `updatePassword`; `newSalt` stands for the freshly generated salt. */
    method UpdatePassword(username: Option<string>, oldPassword: Option<string>, newPassword: Option<string>,
                          newSalt: string, now: int)
      returns (ok: bool)
      requires Valid()
      modifies this
      ensures Valid()
      ensures ok <==> newPassword.Some? && !IsBlank(newPassword.value) && old(Authenticate(username, oldPassword))
      ensures !ok ==> users == old(users)
      ensures ok ==> var key := Normalize(username.value);
                     users == old(users)[key := old(users)[key].(hashedPassword := hash(newPassword.value, newSalt),
                                                                 salt := newSalt, lastModified := now)]
      ensures ok ==> Authenticate(username, newPassword)
      ensures ok ==> (Authenticate(username, oldPassword) <==>
                      hash(oldPassword.value, newSalt) == hash(newPassword.value, newSalt))
    {
      if username.None? || oldPassword.None? || newPassword.None? || IsBlank(newPassword.value) {
        return false;
      }
      var key := Normalize(username.value);
      if key !in users {
        return false;
      }
      var user := users[key];
      if hash(oldPassword.value, user.salt) != user.hashedPassword {
        return false;
      }
      users := users[key := user.(hashedPassword := hash(newPassword.value, newSalt), salt := newSalt, lastModified := now)];
      ok := true;
    }

    /** `deleteUser`: no last-admin or original-admin guard exists. */
    method DeleteUser(username: Option<string>) returns (ok: bool)
      requires Valid()
      modifies this
      ensures Valid()
      ensures ok <==> username.Some? && Normalize(username.value) in old(users)
      ensures ok ==> users == old(users) - {Normalize(username.value)}
      ensures !ok ==> users == old(users)
    {
      if username.None? {
        return false;
      }
      var key := Normalize(username.value);
      ok := key in users;
      users := users - {key};
    }

    /** `setAdminStatus`: no last-admin or original-admin guard exists. */
    method SetAdminStatus(username: Option<string>, isAdmin: bool, now: int) returns (ok: bool)
      requires Valid()
      modifies this
      ensures Valid()
      ensures ok <==> old(GetUser(username)).Some?
      ensures !ok ==> users == old(users)
      ensures ok ==> var key := Normalize(username.value);
                     users == old(users)[key := old(users)[key].(isAdmin := isAdmin, lastModified := now)]
      ensures ok ==> IsAdmin(username) == isAdmin
      ensures forall u: string, p: string :: old(Authenticate(Some(u), Some(p))) == Authenticate(Some(u), Some(p))
    {
      if username.None? {
        return false;
      }
      var key := Normalize(username.value);
      if key !in users {
        return false;
      }
      users := users[key := users[key].(isAdmin := isAdmin, lastModified := now)];
      ok := true;
    }

    /** `updateUserAdminStatus`, an alias of `setAdminStatus`. */
    method UpdateUserAdminStatus(username: Option<string>, isAdmin: bool, now: int) returns (ok: bool)
      requires Valid()
      modifies this
      ensures Valid()
      ensures ok <==> old(GetUser(username)).Some?
      ensures !ok ==> users == old(users)
      ensures ok ==> var key := Normalize(username.value);
                     users == old(users)[key := old(users)[key].(isAdmin := isAdmin, lastModified := now)]
    {
      ok := SetAdminStatus(username, isAdmin, now);
    }

    /** `listUsers`: one UserInfo per stored key, built entry by entry. */
    method ListUsers() returns (list: map<string, UserInfo>)
      ensures list.Keys == users.Keys
      ensures forall k :: k in list ==> list[k] == Info(users[k])
    {
      list := map[];
      var remaining := users.Keys;
      while remaining != {}
        invariant remaining <= users.Keys
        invariant list.Keys == users.Keys - remaining
        invariant forall k :: k in list ==> list[k] == Info(users[k])
        decreases remaining
      {
        var k :| k in remaining;
        list := list[k := Info(users[k])];
        remaining := remaining - {k};
      }
    }
  }
}
