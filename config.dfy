/**
 * The axios instance's two interceptors: the request side attaches the
 * stored token as a bearer credential, the response side clears the session
 * on a 401 and asks for a redirect to the login page.
 */
module Config {
  import opened Wrappers
  import opened Http
  import opened BrowserStorage

  const LoginPath: string := "/login"
  const RegisterPath: string := "/register"
  const AuthorizationHeader: string := "Authorization"

  /** The outgoing request's configuration, whose headers the interceptor edits in place. */
  class RequestConfig {
    var headers: map<string, string>

    constructor (headers: map<string, string>)
      ensures this.headers == headers
    {
      this.headers := headers;
    }
  }

  /** Request interceptor: `Authorization: Bearer <token>` when a token is stored. */
  method AttachToken(store: Storage, config: RequestConfig)
    modifies config
    ensures Truthy(store.GetItem(TokenKey)) ==>
              config.headers == old(config.headers)[AuthorizationHeader := "Bearer " + store.items[TokenKey]]
    ensures !Truthy(store.GetItem(TokenKey)) ==> config.headers == old(config.headers)
  {
    var token := store.GetItem(TokenKey);
    if Truthy(token) {
      config.headers := config.headers[AuthorizationHeader := "Bearer " + token.value];
    }
  }

  /** The backend rejected the credential. */
  predicate IsUnauthorized<T>(reply: Reply<T>) {
    reply.Fail? && reply.error.status == Some(Unauthorized)
  }

  /** The redirect is skipped on the two authentication-entry pages. */
  predicate RedirectsFrom(pathname: string) {
    pathname != LoginPath && pathname != RegisterPath
  }

  /**
   * Response interceptor. Success and failure both reach the caller unchanged;
   * a 401 first removes the session keys, and `redirect` stands for the
   * assignment `window.location.href = "/login"`.
   */
  method Intercept<T>(store: Storage, reply: Reply<T>, pathname: string) returns (passed: Reply<T>, redirect: bool)
    modifies store
    ensures passed == reply
    ensures IsUnauthorized(reply) ==> store.items == SessionRemoved(old(store.items))
    ensures !IsUnauthorized(reply) ==> store.items == old(store.items)
    ensures redirect <==> IsUnauthorized(reply) && RedirectsFrom(pathname)
  {
    redirect := false;
    if IsUnauthorized(reply) {
      store.RemoveItem(TokenKey);
      store.RemoveItem(UserKey);
      redirect := RedirectsFrom(pathname);
    }
    passed := reply;
  }
}
