/**
 * The identity store (src/context/AuthContext.jsx): the current session, the
 * registry of known credentials, their mirror in four localStorage keys, and
 * the route gate that decides who may see a protected page.
 */
module Auth {
  import opened Wrappers

  /** Roles are the strings the store writes and reads back; storage may hold any string. */
  type Role = string

  const AdminRole: Role := "admin"
  const ClientRole: Role := "client"

  /** The value written under `ecomAuthToken` while a session is authenticated. */
  const SimulatedToken := "simulated_token_123"

  datatype Credential = Credential(email: string, password: string, role: Role, name: string)

  /** The `{email, name, role}` profile a session carries. */
  datatype Profile = Profile(email: string, name: string, role: Role)

  /** `authState`: `{isAuthenticated, role, user}`, where `user` may be `null`. */
  datatype Session = Session(authenticated: bool, role: Role, user: Option<Profile>)

  /** What the `ecomUser` key holds: nothing, text that does not parse, or parsed JSON (`null` is `UserJson(None)`). */
  datatype UserRecord = NoUser | Unreadable | UserJson(profile: Option<Profile>)

  /** The three session keys `ecomAuthToken`, `ecomUserRole` and `ecomUser`. */
  datatype SessionKeys = SessionKeys(token: Option<string>, role: Option<string>, user: UserRecord)

  /** The two credentials seeded when the registry record is missing or unreadable. */
  const DefaultUsers: seq<Credential> := [
    Credential("admin@shop.com", "admin", AdminRole, "Admin User"),
    Credential("client@shop.com", "client", ClientRole, "Client Shopper")
  ]

  const SignedOut := Session(false, ClientRole, None)

  /**
   * The scoping identity every user-scoped store derives: `user?.email || 'guest'`.
   * An empty email is falsy, so it falls back to the guest identity too.
   */
  function ScopeId(user: Option<Profile>): (id: string)
    ensures id != ""
    ensures user.Some? && user.value.email != "" ==> id == user.value.email
    ensures user.None? || user.value.email == "" ==> id == "guest"
  {
    if user.Some? && user.value.email != "" then user.value.email else "guest"
  }

  predicate EmailsUnique(users: seq<Credential>) {
    forall i, j :: 0 <= i < j < |users| ==> users[i].email != users[j].email
  }

  /** `users.some(u => u.email === email)`. */
  predicate EmailTaken(users: seq<Credential>, email: string): (r: bool)
    ensures r <==> exists c :: c in users && c.email == email
  {
    exists i :: 0 <= i < |users| && users[i].email == email
  }

  /** The `find` callback of `login`: the record is the one for this email and password, whatever its role and name. */
  predicate Matches(c: Credential, email: string, password: string): (r: bool)
    ensures r <==> c == Credential(email, password, c.role, c.name)
  {
    c.email == email && c.password == password
  }

  /** `users.find(u => u.email === email && u.password === password)`: the first exact match. */
  function FindCredential(users: seq<Credential>, email: string, password: string): (r: Option<Credential>)
    ensures r.None? <==> forall i :: 0 <= i < |users| ==> !Matches(users[i], email, password)
    ensures r.Some? ==> exists i :: 0 <= i < |users| && users[i] == r.value && Matches(r.value, email, password)
                          && forall j :: 0 <= j < i ==> !Matches(users[j], email, password)
  {
    if users == [] then None
    else if Matches(users[0], email, password) then Some(users[0])
    else
      var r := FindCredential(users[1..], email, password);
      assert r.Some? ==> exists i :: 0 <= i < |users[1..]| && users[1..][i] == r.value
                          && forall j :: 0 <= j < i ==> !Matches(users[1..][j], email, password);
      assert r.Some? ==> exists i :: 1 <= i < |users| && users[i] == r.value
                          && forall j :: 0 <= j < i ==> !Matches(users[j], email, password) by {
        if r.Some? {
          var i :| 0 <= i < |users[1..]| && users[1..][i] == r.value
                   && forall j :: 0 <= j < i ==> !Matches(users[1..][j], email, password);
          assert users[i + 1] == r.value;
          forall j | 0 <= j < i + 1 ensures !Matches(users[j], email, password) {
            if j > 0 { assert users[j] == users[1..][j - 1]; }
          }
        }
      }
      r
  }

  /** `getInitialUserState('ecomUserDatabase')`: the stored registry, or the seeded defaults. */
  function InitialRegistry(stored: Option<seq<Credential>>): (users: seq<Credential>)
    ensures stored.None? ==> users == DefaultUsers
    ensures stored.Some? ==> users == stored.value
  {
    stored.GetOr(DefaultUsers)
  }

  /** The defaults: one admin and one client, with distinct emails. */
  lemma DefaultRegistry()
    ensures EmailsUnique(InitialRegistry(None))
    ensures |InitialRegistry(None)| == 2
    ensures InitialRegistry(None)[0].role == AdminRole && InitialRegistry(None)[1].role == ClientRole
  {
  }

  /**
   * `getInitialAuth()`: authenticated iff the token key holds a non-empty string,
   * role defaults to `client`; an unreadable `ecomUser` record resets everything.
   */
  function InitialSession(keys: SessionKeys): (s: Session)
    ensures s.authenticated <==> !keys.user.Unreadable? && keys.token.Some? && keys.token.value != ""
    ensures s.role != ""
    ensures keys.user.Unreadable? ==> s == SignedOut
    ensures !keys.user.Unreadable? && keys.role.Some? && keys.role.value != "" ==> s.role == keys.role.value
    ensures !keys.user.Unreadable? && (keys.role.None? || keys.role.value == "") ==> s.role == ClientRole
    ensures s.user.Some? ==> keys.user == UserJson(s.user)
    ensures keys.user.UserJson? ==> s.user == keys.user.profile
    ensures keys.user.NoUser? ==> s.user == None
  {
    if keys.user.Unreadable? then SignedOut
    else
      Session(
        keys.token.Some? && keys.token.value != "",
        if keys.role.Some? && keys.role.value != "" then keys.role.value else ClientRole,
        if keys.user.UserJson? then keys.user.profile else None)
  }

  /** The persistence effect: the three keys are written while authenticated and removed otherwise. */
  function PersistSession(s: Session): (keys: SessionKeys)
    ensures s.authenticated ==> keys == SessionKeys(Some(SimulatedToken), Some(s.role), UserJson(s.user))
    ensures !s.authenticated ==> keys == SessionKeys(None, None, NoUser)
  {
    if s.authenticated then SessionKeys(Some(SimulatedToken), Some(s.role), UserJson(s.user))
    else SessionKeys(None, None, NoUser)
  }

  /** The sessions a fresh start can rebuild from the keys: an authenticated one with a role, or the signed-out one. */
  predicate Restorable(s: Session) {
    (s.authenticated && s.role != "") || s == SignedOut
  }

  /** A fresh start reads back the last session that was mirrored, whenever that session is restorable. */
  lemma SessionRoundTrip(s: Session)
    ensures InitialSession(PersistSession(s)) == s <==> Restorable(s)
  {
    if s.authenticated {
      assert SimulatedToken != "";
    }
  }

  /** Outcome of `ProtectedRoute`: redirect to /login, redirect to /, or render the page. */
  datatype Access = ToLogin | ToHome | Render

  /**
   * `ProtectedRoute`: unauthenticated users go to login; when `allowedRoles` is given,
   * an authenticated user whose role is not listed goes home; everyone else gets the page.
   */
  function Gate(authenticated: bool, role: Role, allowedRoles: Option<seq<Role>>): (a: Access)
    ensures a == ToLogin <==> !authenticated
    ensures a == Render <==> authenticated && (allowedRoles.None? || role in allowedRoles.value)
    ensures a == ToHome <==> authenticated && allowedRoles.Some? && role !in allowedRoles.value
  {
    if !authenticated then ToLogin
    else if allowedRoles.Some? && role !in allowedRoles.value then ToHome
    else Render
  }

  /** The admin pages are gated with `allowedRoles={['admin']}`: only an authenticated admin session gets them. */
  lemma AdminGate(s: Session)
    ensures Gate(s.authenticated, s.role, Some([AdminRole])) == Render <==> s.authenticated && s.role == AdminRole
  {
  }

  /** The AuthProvider: `authState`, `users` and the localStorage keys they are mirrored to. */
  class IdentityStore {
    var session: Session
    var users: seq<Credential>
    /** `ecomAuthToken`, `ecomUserRole`, `ecomUser`. */
    var sessionKeys: SessionKeys
    /** `ecomUserDatabase`. */
    var database: Option<seq<Credential>>

    /** Both persistence effects have run: storage mirrors the in-memory state. */
    ghost predicate Valid()
      reads this
    {
      sessionKeys == PersistSession(session) && database == Some(users)
    }

    /** Mounting the provider: read the stored state, then let both effects write it back. */
    constructor (storedKeys: SessionKeys, storedUsers: Option<seq<Credential>>)
      ensures Valid()
      ensures session == InitialSession(storedKeys)
      ensures users == InitialRegistry(storedUsers)
    {
      session := InitialSession(storedKeys);
      users := InitialRegistry(storedUsers);
      sessionKeys := PersistSession(InitialSession(storedKeys));
      database := Some(InitialRegistry(storedUsers));
    }

    /** `login(email, password)`. */
    method Login(email: string, password: string) returns (ok: bool)
      requires Valid()
      modifies this
      ensures Valid()
      ensures users == old(users)
      ensures ok <==> exists i :: 0 <= i < |users| && Matches(users[i], email, password)
      ensures ok ==> var c := FindCredential(users, email, password).value;
                     Matches(c, email, password) &&
                     session == Session(true, c.role, Some(Profile(c.email, c.name, c.role)))
      ensures !ok ==> session == old(session) && sessionKeys == old(sessionKeys)
    {
      var found := FindCredential(users, email, password);
      if found.Some? {
        var c := found.value;
        session := Session(true, c.role, Some(Profile(c.email, c.name, c.role)));
        sessionKeys := PersistSession(session);
        ok := true;
      } else {
        ok := false;
      }
    }

    /** `register(name, email, password)`: rejects a taken email, otherwise appends a client and logs it in. */
    method Register(name: string, email: string, password: string) returns (ok: bool)
      requires Valid()
      modifies this
      ensures Valid()
      ensures ok <==> !EmailTaken(old(users), email)
      ensures ok ==> users == old(users) + [Credential(email, password, ClientRole, name)]
      ensures ok ==> session == Session(true, ClientRole, Some(Profile(email, name, ClientRole)))
      ensures !ok ==> users == old(users) && session == old(session) && sessionKeys == old(sessionKeys)
      ensures EmailsUnique(old(users)) ==> EmailsUnique(users)
    {
      if EmailTaken(users, email) {
        return false;
      }
      users := users + [Credential(email, password, ClientRole, name)];
      database := Some(users);
      session := Session(true, ClientRole, Some(Profile(email, name, ClientRole)));
      sessionKeys := PersistSession(session);
      ok := true;
    }

    /** `logout()`: back to the signed-out session; the session keys are removed. */
    method Logout()
      requires Valid()
      modifies this
      ensures Valid()
      ensures users == old(users)
      ensures session == SignedOut
      ensures sessionKeys == SessionKeys(None, None, NoUser)
    {
      session := SignedOut;
      sessionKeys := PersistSession(session);
    }
  }
}
