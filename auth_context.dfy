/**
 * The authentication provider: the in-memory `user`, `loading` and `error`
 * kept on top of the store, restored at start-up and updated by login,
 * register and logout.
 */
module AuthContext {
  import opened Wrappers
  import opened Http
  import opened BrowserStorage
  import opened UserJson
  import opened Auth
  import Config

  /** What `login` / `register` resolve with: `{ success, user }` or `{ success, message }`. */
  datatype AuthOutcome = Signed(user: User) | Refused(message: string)

  const LoginRejected: string := "Error en el login"
  const LoginFailed: string := "Error al iniciar sesión"
  const RegisterRejected: string := "Error en el registro"
  const RegisterFailed: string := "Error al registrarse"

  /**
   * The message stored in `error` for a reply that does not sign in: the
   * server's `message` (or `rejected`) when it answered without `success`,
   * and the thrown payload's message (or `failed`) when the call threw.
   */
  function FailureMessage(reply: Reply<AuthResponse>, rejected: string, failed: string): (r: string)
    requires !Accepted(reply)
    ensures rejected != "" && failed != "" ==> r != ""
    ensures reply.Ok? && rejected != "" ==> r == OrDefault(reply.data.message, rejected)
    ensures reply.Fail? && reply.error.data.None? ==> r == ConnectionError
    ensures reply.Fail? && reply.error.data.Some? ==> r == OrDefault(reply.error.data.value.message, failed)
  {
    match Settle(reply, ConnectionError)
    case Success(d) => OrDefault(Some(OrDefault(d.message, rejected)), failed)
    case Failure(body) => MessageOf(body, failed)
  }

  class AuthProvider {
    const store: Storage
    var user: Option<User>
    var loading: bool
    var error: Option<string>

    /** The state before `initAuth` has run. */
    constructor (store: Storage)
      ensures this.store == store
      ensures user == None && loading && error == None
    {
      this.store := store;
      user := None;
      loading := true;
      error := None;
    }

    /** `isAuthenticated: !!user`: signed in exactly while a user is held in memory. */
    function IsAuthenticated(): (r: bool)
      reads this
      ensures r <==> user.Some?
    {
      user.Some?
    }

    /**
     * `initAuth`: when the store passes the authentication check, `user`
     * becomes the stored snapshot (None if it is corrupt, which also clears
     * the store); otherwise `user` is left as it was. Loading ends either way.
     * The `catch` of the source is unreachable: neither call it guards throws.
     */
    method InitAuth()
      modifies this, store
      ensures Auth.IsAuthenticated(old(store.items)) ==> user == CurrentUser(old(store.items))
      ensures !Auth.IsAuthenticated(old(store.items)) ==> user == old(user)
      ensures store.items == if Auth.IsAuthenticated(old(store.items)) && CorruptUser(old(store.items))
                             then SessionRemoved(old(store.items))
                             else old(store.items)
      ensures !loading && error == old(error)
    {
      if Auth.IsAuthenticated(store.items) {
        var current := GetCurrentUser(store);
        user := current;
      }
      loading := false;
    }

    /** Shared by login and register. */
    method SignIn(reply: Reply<AuthResponse>, rejected: string, failed: string) returns (r: AuthOutcome)
      modifies this, store
      ensures store.items == if Accepted(reply)
                             then WithSession(old(store.items), reply.data.token, reply.data.user)
                             else old(store.items)
      ensures Accepted(reply) ==> user == Some(reply.data.user) && r == Signed(reply.data.user) && error == None
      ensures !Accepted(reply) ==>
                && user == old(user)
                && r == Refused(FailureMessage(reply, rejected, failed))
                && error == Some(r.message)
      ensures !loading
    {
      loading := true;
      error := None;
      var response := StoreSession(store, reply);
      if response.Success? && response.value.success {
        user := Some(response.value.user);
        r := Signed(response.value.user);
      } else {
        var message := FailureMessage(reply, rejected, failed);
        error := Some(message);
        r := Refused(message);
      }
      loading := false;
    }

    /** `login`: `user` is set only from a reply with `success`. */
    method Login(reply: Reply<AuthResponse>) returns (r: AuthOutcome)
      modifies this, store
      ensures store.items == if Accepted(reply)
                             then WithSession(old(store.items), reply.data.token, reply.data.user)
                             else old(store.items)
      ensures Accepted(reply) ==> user == Some(reply.data.user) && r == Signed(reply.data.user) && error == None
      ensures !Accepted(reply) ==>
                && user == old(user)
                && r == Refused(FailureMessage(reply, LoginRejected, LoginFailed))
                && error == Some(r.message)
      ensures !loading
    {
      r := SignIn(reply, LoginRejected, LoginFailed);
    }

    /** `register`: the same contract with its own messages. */
    method Register(reply: Reply<AuthResponse>) returns (r: AuthOutcome)
      modifies this, store
      ensures store.items == if Accepted(reply)
                             then WithSession(old(store.items), reply.data.token, reply.data.user)
                             else old(store.items)
      ensures Accepted(reply) ==> user == Some(reply.data.user) && r == Signed(reply.data.user) && error == None
      ensures !Accepted(reply) ==>
                && user == old(user)
                && r == Refused(FailureMessage(reply, RegisterRejected, RegisterFailed))
                && error == Some(r.message)
      ensures !loading
    {
      r := SignIn(reply, RegisterRejected, RegisterFailed);
    }

    /** `logout`: store cleared, `user` and `error` reset; `loading` untouched. */
    method Logout()
      modifies this, store
      ensures store.items == SessionRemoved(old(store.items))
      ensures user == None && error == None && loading == old(loading)
      ensures !IsAuthenticated() && !Auth.IsAuthenticated(store.items)
    {
      LogoutUser(store);
      user := None;
      error := None;
    }
  }

  /** Mounting the application: a fresh provider runs `initAuth` on the store. */
  method Boot(store: Storage) returns (p: AuthProvider)
    modifies store
    ensures fresh(p) && p.store == store && !p.loading
    ensures p.user == if Auth.IsAuthenticated(old(store.items)) then CurrentUser(old(store.items)) else None
    ensures store.items == if Auth.IsAuthenticated(old(store.items)) && CorruptUser(old(store.items))
                           then SessionRemoved(old(store.items))
                           else old(store.items)
  {
    p := new AuthProvider(store);
    p.InitAuth();
  }

  /**
   * A 401 seen by the response interceptor clears the store but not the
   * provider's `user`; only when the interceptor redirects does the page
   * reload, and the provider mounted by that reload starts signed out. On
   * `/login` and `/register` nothing reloads and the stale `user` stays.
   */
  method UnauthorizedThenReload<T>(p: AuthProvider, reply: Reply<T>, pathname: string)
    returns (redirect: bool, reloaded: Option<AuthProvider>)
    requires Config.IsUnauthorized(reply)
    modifies p.store
    ensures p.user == old(p.user)
    ensures p.store.items == SessionRemoved(old(p.store.items))
    ensures redirect <==> Config.RedirectsFrom(pathname)
    ensures reloaded.Some? <==> redirect
    ensures reloaded.Some? ==>
              fresh(reloaded.value) && reloaded.value.user == None && !reloaded.value.IsAuthenticated()
  {
    var _, r := Config.Intercept(p.store, reply, pathname);
    redirect := r;
    if redirect {
      var q := Boot(p.store);
      reloaded := Some(q);
    } else {
      reloaded := None;
    }
  }
}
