/**
 * Session calls over the token/user store: register, login, logout, the
 * authentication check, reading back the current user, and token verification.
 */
module Auth {
  import opened Wrappers
  import opened Http
  import opened BrowserStorage
  import opened UserJson

  /** Body of a login or register reply: `{ success, token, user, message }`. */
  datatype AuthResponse = AuthResponse(success: bool, token: string, user: User, message: Option<string>)

  /** Body of a token verification: `{ valid }`. */
  datatype Verification = Verification(valid: bool)

  const ConnectionError: string := "Error de conexión"

  /** Both session keys written, everything else kept. */
  function WithSession(m: map<string, string>, token: string, user: User): map<string, string> {
    m[TokenKey := token][UserKey := Stringify(user)]
  }

  /** A login or register reply that the wrappers store. */
  predicate Accepted(reply: Reply<AuthResponse>) {
    reply.Ok? && reply.data.success
  }

  /**
   * `isAuthenticated()`: both keys hold a non-empty (truthy) string. It
   * looks at the keys only, so an authenticated store may still hold a
   * corrupt user snapshot.
   */
  predicate IsAuthenticated(m: map<string, string>)
    ensures IsAuthenticated(m) ==> TokenKey in m && UserKey in m
    ensures IsAuthenticated(m) ==> (CurrentUser(m).Some? <==> !CorruptUser(m))
  {
    && TokenKey in m && m[TokenKey] != ""
    && UserKey in m && m[UserKey] != ""
  }

  /** The user snapshot exists but cannot be parsed. */
  predicate CorruptUser(m: map<string, string>) {
    UserKey in m && m[UserKey] != "" && Parse(m[UserKey]).None?
  }

  /** What `getCurrentUser()` returns for a store. */
  function CurrentUser(m: map<string, string>): (r: Option<User>)
    ensures UserKey !in m ==> r == None
    ensures r.None? && UserKey in m && m[UserKey] != "" ==> CorruptUser(m)
    ensures r.Some? ==> UserKey in m && m[UserKey] == Stringify(r.value)
  {
    if UserKey in m && m[UserKey] != "" then
      var u := Parse(m[UserKey]);
      if u.Some? then ParseOnlyAcceptsStringified(m[UserKey], u.value); u else u
    else None
  }

  /** Neither key is ever present without the other. */
  predicate Paired(m: map<string, string>) {
    TokenKey in m <==> UserKey in m
  }

  /** What login and register share; they differ only in endpoint. */
  method StoreSession(store: Storage, reply: Reply<AuthResponse>) returns (r: Result<AuthResponse, ErrorBody>)
    modifies store
    ensures r == Settle(reply, ConnectionError)
    ensures store.items == if Accepted(reply)
                           then WithSession(old(store.items), reply.data.token, reply.data.user)
                           else old(store.items)
  {
    if Accepted(reply) {
      store.SetItem(TokenKey, reply.data.token);
      store.SetItem(UserKey, Stringify(reply.data.user));
    }
    r := Settle(reply, ConnectionError);
  }

  /** `registerUser`: POST /auth/register; both keys stored only on `success`. */
  method RegisterUser(store: Storage, reply: Reply<AuthResponse>) returns (r: Result<AuthResponse, ErrorBody>)
    modifies store
    ensures r == Settle(reply, ConnectionError)
    ensures store.items == if Accepted(reply)
                           then WithSession(old(store.items), reply.data.token, reply.data.user)
                           else old(store.items)
    ensures Paired(old(store.items)) ==> Paired(store.items)
  {
    r := StoreSession(store, reply);
  }

  /** `loginUser`: POST /auth/login; both keys stored only on `success`. */
  method LoginUser(store: Storage, reply: Reply<AuthResponse>) returns (r: Result<AuthResponse, ErrorBody>)
    modifies store
    ensures r == Settle(reply, ConnectionError)
    ensures store.items == if Accepted(reply)
                           then WithSession(old(store.items), reply.data.token, reply.data.user)
                           else old(store.items)
    ensures Paired(old(store.items)) ==> Paired(store.items)
  {
    r := StoreSession(store, reply);
  }

  /** `logoutUser`: removes both keys. */
  method LogoutUser(store: Storage)
    modifies store
    ensures store.items == SessionRemoved(old(store.items))
    ensures !IsAuthenticated(store.items) && Paired(store.items)
  {
    store.RemoveItem(TokenKey);
    store.RemoveItem(UserKey);
  }

  /**
   * `getCurrentUser`: the parsed snapshot, or None when there is none; a
   * snapshot that does not parse is treated as no session and both keys go.
   */
  method GetCurrentUser(store: Storage) returns (u: Option<User>)
    modifies store
    ensures u == CurrentUser(old(store.items))
    ensures store.items == if CorruptUser(old(store.items)) then SessionRemoved(old(store.items)) else old(store.items)
  {
    var text := store.GetItem(UserKey);
    if Truthy(text) {
      u := Parse(text.value);
      if u.None? {
        LogoutUser(store);
      }
    } else {
      u := None;
    }
  }

  /** `verifyToken`: GET /auth/verify; any failure logs out and reports `{ valid: false }`. */
  method VerifyToken(store: Storage, reply: Reply<Verification>) returns (r: Verification)
    modifies store
    ensures reply.Ok? ==> r == reply.data && store.items == old(store.items)
    ensures reply.Fail? ==> r == Verification(false) && store.items == SessionRemoved(old(store.items))
  {
    if reply.Ok? {
      r := reply.data;
    } else {
      LogoutUser(store);
      r := Verification(false);
    }
  }

  /**
   * After a stored login the session is complete and reading the user back
   * gives exactly the user the server sent; it counts as authenticated
   * unless the server sent an empty token.
   */
  lemma CurrentUserAfterLogin(m: map<string, string>, token: string, user: User)
    ensures CurrentUser(WithSession(m, token, user)) == Some(user)
    ensures IsAuthenticated(WithSession(m, token, user)) <==> token != ""
    ensures Paired(WithSession(m, token, user))
  {
    ParseStringify(user);
  }

  /** Logging out twice is logging out once, and leaves nobody signed in. */
  lemma LogoutIdempotent(m: map<string, string>)
    ensures SessionRemoved(SessionRemoved(m)) == SessionRemoved(m)
    ensures !IsAuthenticated(SessionRemoved(m)) && CurrentUser(SessionRemoved(m)) == None
  {
    assert SessionRemoved(SessionRemoved(m)).Keys == SessionRemoved(m).Keys;
  }
}
