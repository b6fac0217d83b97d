/**
 * The session store: who is logged in, whether the session is still being
 * restored, and the two durable records (`auth_token`, `user_data`) that let a
 * session survive a reload.
 */
module Session {
  import opened Wrappers
  import opened Api
  import opened Storage
  import opened Text

  /**
   * The value kept as `user`. Login and registration keep the user record
   * itself; the profile endpoint's body is kept as it arrives, and the profile
   * page reads the user from its `payload` field.
   */
  datatype SessionUser = Bare(user: User) | Enveloped(payload: User)

  /**
   * `{ token, user }` as the client destructures it after login or registration.
   * Either field may be missing from what the server sent; destructuring then
   * yields `undefined` rather than failing.
   */
  datatype Credentials = Credentials(token: Option<string>, user: Option<User>)

  /** The body of a login response: the credentials sit under `payload`. */
  datatype LoginBody = LoginBody(payload: Option<Credentials>)

  function Quoted(s: string): string {
    "\"" + s + "\""
  }

  /**
   * `JSON.stringify(user)`. The real text follows the key order of the object
   * the server sent and carries any extra keys it had; the fixed field order
   * here is this model's own choice, with `role` only when present.
   */
  function Serialize(u: User): (r: string)
    ensures |r| >= 2 && r[0] == '{' && r[|r| - 1] == '}'
  {
    "{\"id\":" + IntToString(u.id)
    + ",\"name\":" + Quoted(u.name)
    + ",\"email\":" + Quoted(u.email)
    + (if u.role.Some? then ",\"role\":" + Quoted(u.role.value) else "")
    + ",\"created_at\":" + Quoted(u.created_at)
    + ",\"updated_at\":" + Quoted(u.updated_at)
    + "}"
  }

  /** `localStorage` coerces what it is given to a string: a missing value becomes "undefined". */
  const UNDEFINED := "undefined"

  /** What `setItem('auth_token', token)` stores. */
  function StoredToken(c: Credentials): (r: string)
    ensures c.token.Some? ==> r == c.token.value
    ensures c.token.None? ==> r == UNDEFINED
  {
    c.token.GetOr(UNDEFINED)
  }

  /** What `setItem('user_data', JSON.stringify(userData))` stores; `JSON.stringify(undefined)` is itself undefined. */
  function StoredUser(c: Credentials): (r: string)
    ensures c.user.Some? ==> r == Serialize(c.user.value) && r[0] == '{'
    ensures c.user.None? ==> r == UNDEFINED
  {
    if c.user.Some? then Serialize(c.user.value) else UNDEFINED
  }

  /** What `setUser(userData)` holds: the bare user record, or nobody when the field was missing. */
  function OpenedUser(c: Credentials): (r: Option<SessionUser>)
    ensures r.Some? <==> c.user.Some?
    ensures c.user.Some? ==> r == Some(Bare(c.user.value))
  {
    if c.user.Some? then Some(Bare(c.user.value)) else None
  }

  /** The stored items after a session is opened with `c`. */
  function Opened(items: map<string, string>, c: Credentials): (r: map<string, string>)
    ensures AUTH_TOKEN in r && r[AUTH_TOKEN] == StoredToken(c)
    ensures USER_DATA in r && r[USER_DATA] == StoredUser(c)
    ensures forall k :: k != AUTH_TOKEN && k != USER_DATA ==> (k in r <==> k in items)
    ensures forall k :: k in r && k != AUTH_TOKEN && k != USER_DATA ==> r[k] == items[k]
  {
    items[AUTH_TOKEN := StoredToken(c)][USER_DATA := StoredUser(c)]
  }

  class AuthProvider {
    var user: Option<SessionUser>
    var isLoading: bool
    const storage: LocalStorage

    /** A fresh provider: nobody logged in, restoration pending. */
    constructor (storage: LocalStorage)
      ensures user == None && isLoading && this.storage == storage
    {
      this.storage := storage;
      user := None;
      isLoading := true;
    }

    /** `!!user`. */
    function IsAuthenticated(): (r: bool)
      reads this
      ensures r <==> user != None
    {
      user.Some?
    }

    /**
     * Opens a session from the login response's `payload`. A rejected call,
     * or a body without a payload (the destructuring throws), changes nothing.
     */
    method Login(response: Outcome<LoginBody>) returns (ok: bool, message: string)
      modifies this, storage
      ensures ok <==> response.Success? && response.value.payload.Some?
      ensures ok ==> user == OpenedUser(response.value.payload.value)
                     && storage.items == Opened(old(storage.items), response.value.payload.value)
                     && message == "You have successfully logged in."
      ensures !ok ==> user == old(user) && storage.items == old(storage.items)
      ensures !ok && response.Failure? ==> message == ErrorMessage(response.error, "Invalid credentials")
      ensures !ok && response.Success? ==> message == "Invalid credentials"
      ensures !isLoading
    {
      isLoading := true;
      match response {
        case Failure(e) =>
          ok, message := false, ErrorMessage(e, "Invalid credentials");
        case Success(body) =>
          match body.payload {
            case None =>
              ok, message := false, "Invalid credentials";
            case Some(c) =>
              storage.SetItem(AUTH_TOKEN, StoredToken(c));
              storage.SetItem(USER_DATA, StoredUser(c));
              user := OpenedUser(c);
              ok, message := true, "You have successfully logged in.";
          }
      }
      isLoading := false;
    }

    /**
     * Opens a session from the registration response's body itself (no
     * `payload` level). Any successful answer reports success, even one whose
     * body lacks `token` or `user`: those are then stored as "undefined" and
     * nobody is held as the user.
     */
    method Register(response: Outcome<Credentials>) returns (ok: bool, message: string)
      modifies this, storage
      ensures ok == response.Success?
      ensures ok ==> user == OpenedUser(response.value)
                     && storage.items == Opened(old(storage.items), response.value)
                     && message == "Welcome to the task management system."
      ensures !ok ==> user == old(user) && storage.items == old(storage.items)
                      && message == ErrorMessage(response.error, "Failed to create account")
      ensures !isLoading
    {
      isLoading := true;
      match response {
        case Failure(e) =>
          ok, message := false, ErrorMessage(e, "Failed to create account");
        case Success(c) =>
          storage.SetItem(AUTH_TOKEN, StoredToken(c));
          storage.SetItem(USER_DATA, StoredUser(c));
          user := OpenedUser(c);
          ok, message := true, "Welcome to the task management system.";
      }
      isLoading := false;
    }

    /** Ends the session locally whatever the server answered. */
    method Logout(response: Outcome<()>) returns (message: string)
      modifies this, storage
      ensures user == None
      ensures storage.items == WithoutSession(old(storage.items))
      ensures isLoading == old(isLoading)
      ensures message == "You have been successfully logged out."
    {
      storage.RemoveItem(AUTH_TOKEN);
      storage.RemoveItem(USER_DATA);
      user := None;
      message := "You have been successfully logged out.";
    }

    /** Re-reads the profile; `ok == false` stands for the re-raised error, with `user` untouched. */
    method RefreshUser(response: Outcome<SessionUser>) returns (ok: bool)
      modifies this
      ensures ok == response.Success?
      ensures user == if ok then Some(response.value) else old(user)
      ensures isLoading == old(isLoading)
    {
      match response {
        case Success(u) =>
          user := Some(u);
          ok := true;
        case Failure(_) =>
          ok := false;
      }
    }

    /**
     * The startup restore: with a stored token, fetch the profile and forget
     * the durable session when that fails; without one, do nothing. Either way
     * restoration is over afterwards.
     */
    method InitAuth(profile: Outcome<SessionUser>)
      modifies this, storage
      ensures var restoring := HasValue(old(storage.items), AUTH_TOKEN);
              && user == (if restoring && profile.Success? then Some(profile.value) else old(user))
              && storage.items == (if restoring && profile.Failure? then WithoutSession(old(storage.items))
                                   else old(storage.items))
      ensures !isLoading
    {
      if HasValue(storage.items, AUTH_TOKEN) {
        var ok := RefreshUser(profile);
        if !ok {
          storage.RemoveItem(AUTH_TOKEN);
          storage.RemoveItem(USER_DATA);
        }
      }
      isLoading := false;
    }
  }

  /**
   * Opening a session makes the stored token count as present exactly when it
   * is non-empty, and wiping the session always makes it absent.
   */
  lemma SessionTokenPresence(items: map<string, string>, c: Credentials)
    ensures HasValue(Opened(items, c), AUTH_TOKEN) <==> c.token != Some("")
    ensures !HasValue(WithoutSession(items), AUTH_TOKEN)
    ensures !HasValue(WithoutSession(Opened(items, c)), AUTH_TOKEN)
  {
  }

  /**
   * A body without `token` and `user` (such as one that wraps them in a
   * `payload`) still opens a session record: the text "undefined" is a
   * truthy stored token, so every later request carries `Bearer undefined`,
   * while nobody is held as the user.
   */
  lemma MissingCredentialsStoreUndefined(items: map<string, string>, headers: map<string, string>)
    ensures var stored := Opened(items, Credentials(None, None));
            && stored[AUTH_TOKEN] == UNDEFINED && stored[USER_DATA] == UNDEFINED
            && HasValue(stored, AUTH_TOKEN)
            && WithBearer(headers, stored)[AUTHORIZATION] == "Bearer undefined"
    ensures OpenedUser(Credentials(None, None)) == None
  {
  }

  /** Registration answered with an enveloped body reports success yet leaves nobody authenticated. */
  method RegisterWithEnvelope(storage: LocalStorage) returns (auth: AuthProvider, ok: bool)
    modifies storage
    ensures ok && !auth.IsAuthenticated()
    ensures HasValue(storage.items, AUTH_TOKEN) && storage.items[AUTH_TOKEN] == UNDEFINED
  {
    auth := new AuthProvider(storage);
    var message;
    ok, message := auth.Register(Success(Credentials(None, None)));
  }

  /** Application start: a new provider restores the session from `storage`. */
  method Start(storage: LocalStorage, profile: Outcome<SessionUser>) returns (auth: AuthProvider)
    modifies storage
    ensures fresh(auth) && auth.storage == storage && !auth.isLoading
    ensures auth.IsAuthenticated() <==> HasValue(old(storage.items), AUTH_TOKEN) && profile.Success?
    ensures !auth.IsAuthenticated() ==> AUTH_TOKEN !in storage.items || !HasValue(old(storage.items), AUTH_TOKEN)
    ensures !HasValue(old(storage.items), AUTH_TOKEN) ==> storage.items == old(storage.items)
  {
    auth := new AuthProvider(storage);
    auth.InitAuth(profile);
  }

  /** Logging in and then out leaves nobody authenticated and no token stored. */
  method LoginThenLogout(storage: LocalStorage, login: Outcome<LoginBody>, logout: Outcome<()>)
    returns (auth: AuthProvider, loggedIn: bool)
    modifies storage
    ensures !auth.IsAuthenticated() && AUTH_TOKEN !in storage.items && USER_DATA !in storage.items
  {
    auth := new AuthProvider(storage);
    var message;
    loggedIn, message := auth.Login(login);
    message := auth.Logout(logout);
  }
}
