/**
 * The client's session (AuthContext.js): the signed-in user and token, the
 * copies kept in the browser's storage, the flags derived from them, and
 * login, logout and the restore at start-up.
 */
module AuthContext {
  import opened Http

  /** The user object the client keeps; `role` is whatever text the server
      (or the stored copy) said. */
  datatype UserData = UserData(id: string, name: string, email: string, role: string)

  /** The React state: no user is null, and '' is a missing token. */
  datatype Session = Session(user: Option<UserData>, token: string)

  const SignedOut := Session(None, "")

  /** The stored 'user' entry: absent, JSON that parses (to an object or to
      null), or text JSON.parse refuses. */
  datatype StoredUser = NoEntry | Entry(value: Option<UserData>) | Unparsable

  /** localStorage; '' is an absent token entry. */
  datatype Storage = Storage(user: StoredUser, token: string)

  const EmptyStorage := Storage(NoEntry, "")

  datatype Flags = Flags(isAuthenticated: bool, isAdmin: bool, isDoctor: bool, isCustomer: bool)

  /** The flags the context exposes: authenticated when there is a user and a
      token, one role flag per role name. */
  function DeriveFlags(s: Session): (f: Flags)
    ensures f.isAuthenticated <==> s.user.Some? && s.token != ""
    ensures s.user.None? ==> !f.isAdmin && !f.isDoctor && !f.isCustomer
    ensures f.isAdmin <==> s.user.Some? && s.user.value.role == "admin"
    ensures f.isDoctor <==> s.user.Some? && s.user.value.role == "doctor"
    ensures f.isCustomer <==> s.user.Some? && s.user.value.role == "customer"
  {
    var role := if s.user.Some? then s.user.value.role else "";
    Flags(s.user.Some? && s.token != "", role == "admin", role == "doctor", role == "customer")
  }

  /** At most one role flag holds. */
  lemma AtMostOneRole(s: Session)
    ensures var f := DeriveFlags(s);
            (if f.isAdmin then 1 else 0) + (if f.isDoctor then 1 else 0) + (if f.isCustomer then 1 else 0) <= 1
  {
  }

  /** What the start-up effect makes of the stored entries: the stored pair
      when both entries are set, a signed-out state when the user entry does
      not parse, and the current state otherwise. */
  function RestoreFrom(current: Session, storage: Storage): (r: Session)
    ensures storage.token == "" || storage.user.NoEntry? ==> r == current
    ensures storage.token != "" && storage.user.Entry? ==> r == Session(storage.user.value, storage.token)
    ensures storage.token != "" && storage.user.Unparsable? ==> r == SignedOut
  {
    if storage.token != "" && !storage.user.NoEntry? then
      match storage.user
      case Entry(u) => Session(u, storage.token)
      case Unparsable => SignedOut
    else
      current
  }

  /** The storage login leaves behind. */
  function StoredAfterLogin(u: UserData, t: string): Storage
  {
    Storage(Entry(Some(u)), t)
  }

  /** Reloading after a login with a token restores the same session. */
  lemma ReloadAfterLogin(u: UserData, t: string)
    requires t != ""
    ensures RestoreFrom(SignedOut, StoredAfterLogin(u, t)) == Session(Some(u), t)
    ensures DeriveFlags(RestoreFrom(SignedOut, StoredAfterLogin(u, t))).isAuthenticated
  {
  }

  /** Reloading after a logout stays signed out. */
  lemma ReloadAfterLogout()
    ensures RestoreFrom(SignedOut, EmptyStorage) == SignedOut
    ensures DeriveFlags(SignedOut) == Flags(false, false, false, false)
  {
  }

  class AuthProvider {
    var user: Option<UserData>
    var token: string
    var storedUser: StoredUser
    var storedToken: string

    function Current(): Session
      reads this
    {
      Session(user, token)
    }

    function CurrentFlags(): Flags
      reads this
    {
      DeriveFlags(Current())
    }

    /** The provider mounts signed out, over whatever the browser stored. */
    constructor (storage: Storage)
      ensures Current() == SignedOut
      ensures storedUser == storage.user && storedToken == storage.token
    {
      user := None;
      token := "";
      storedUser := storage.user;
      storedToken := storage.token;
    }

    /** login(userData, userToken): sets the session and stores it. */
    method Login(u: UserData, t: string)
      modifies this
      ensures user == Some(u) && token == t
      ensures storedUser == Entry(Some(u)) && storedToken == t
    {
      user := Some(u);
      token := t;
      storedUser := Entry(Some(u));
      storedToken := t;
    }

    /** logout(): clears the session and its stored copy. */
    method Logout()
      modifies this
      ensures Current() == SignedOut && storedUser == NoEntry && storedToken == ""
      ensures CurrentFlags() == Flags(false, false, false, false)
    {
      user := None;
      token := "";
      storedUser := NoEntry;
      storedToken := "";
    }

    /** The start-up effect. */
    method Restore()
      modifies this
      ensures Current() == RestoreFrom(old(Current()), Storage(old(storedUser), old(storedToken)))
      ensures old(storedToken) != "" && old(storedUser).Unparsable? ==> storedUser == NoEntry && storedToken == ""
      ensures !(old(storedToken) != "" && old(storedUser).Unparsable?) ==>
                storedUser == old(storedUser) && storedToken == old(storedToken)
    {
      if storedToken != "" && !storedUser.NoEntry? {
        match storedUser
        case Entry(u) =>
          user := u;
          token := storedToken;
        case Unparsable =>
          Logout();
      }
    }
  }
}
