/** The API gateway client (`ApiService`): the endpoint table, the request
    interceptor that attaches the bearer credential (section 2.1 of
    RFC 6750), and the response interceptor that unwraps payloads,
    normalises failures to one message and tears the session down on
    HTTP 401 (section 15.5.2 of RFC 9110).  The transport itself is not
    modelled: a reply reaches the model as an `Outcome` value. */
module Api {
  import opened Wrappers
  import Browser

  // ---------------------------------------------------------------------
  // Requests and the endpoint table

  datatype Verb = Get | Post | Put

  /** A JSON scalar as the UI sends it in a request body. */
  datatype Value = Str(s: string) | Num(n: int)

  type Body = map<string, Value>

  /** What a service method hands to the HTTP client (before interceptors). */
  datatype Request = Request(verb: Verb, path: string, params: map<string, string>, body: Body)

  datatype Endpoint =
    | Login | Register | UpdatePassword
    | DashboardStats | CreateUser | CreateStore | Users | Stores
    | UserStores | SubmitRating
    | StoreOwnerDashboard

  function VerbOf(e: Endpoint): Verb {
    match e
    case Login => Post
    case Register => Post
    case UpdatePassword => Put
    case DashboardStats => Get
    case CreateUser => Post
    case CreateStore => Post
    case Users => Get
    case Stores => Get
    case UserStores => Get
    case SubmitRating => Post
    case StoreOwnerDashboard => Get
  }

  function PathOf(e: Endpoint): string {
    match e
    case Login => "/auth/login"
    case Register => "/auth/register"
    case UpdatePassword => "/auth/password"
    case DashboardStats => "/admin/dashboard"
    case CreateUser => "/admin/users"
    case CreateStore => "/admin/stores"
    case Users => "/admin/users"
    case Stores => "/admin/stores"
    case UserStores => "/user/stores"
    case SubmitRating => "/user/ratings"
    case StoreOwnerDashboard => "/store-owner/dashboard"
  }

  /** The list endpoints take `{ params: filters }`. */
  predicate IsList(e: Endpoint) {
    e == Users || e == Stores || e == UserStores
  }

  /** The endpoints that post or put a body. */
  predicate HasBody(e: Endpoint) {
    e == Login || e == Register || e == UpdatePassword || e == CreateUser
    || e == CreateStore || e == SubmitRating
  }

  /** The request a service method issues: list endpoints carry their
      filter map (`filters = {}` when called without one), body endpoints
      carry their argument, the two dashboards carry neither. */
  function Call(e: Endpoint, body: Body, filters: map<string, string>): (r: Request)
    ensures r.verb == VerbOf(e) && r.path == PathOf(e)
    ensures r.params == (if IsList(e) then filters else map[])
    ensures r.body == (if HasBody(e) then body else map[])
  {
    Request(VerbOf(e), PathOf(e), if IsList(e) then filters else map[], if HasBody(e) then body else map[])
  }

  /** No two endpoints share a verb and a path. */
  lemma RoutesDistinct(e1: Endpoint, e2: Endpoint)
    ensures e1 != e2 ==> (VerbOf(e1), PathOf(e1)) != (VerbOf(e2), PathOf(e2))
  {
  }

  /** Every list endpoint is a GET that sends its filters as the query and
      no body; no other endpoint sends a query, and every endpoint with a
      body posts or puts it. */
  lemma ListEndpointsAreGets(e: Endpoint, body: Body, filters: map<string, string>)
    ensures IsList(e) ==> VerbOf(e) == Get && !HasBody(e)
    ensures IsList(e) ==> Call(e, body, filters).params == filters && Call(e, body, filters).body == map[]
    ensures !IsList(e) ==> Call(e, body, filters).params == map[]
    ensures HasBody(e) ==> VerbOf(e) != Get && Call(e, body, filters).body == body
  {
  }

  // ---------------------------------------------------------------------
  // Credential header

  const ContentType := "application/json"

  /** The default `Authorization` header after `setAuthToken(token)`: set
      to the bearer form for a truthy token, deleted otherwise (never
      `Bearer null`). */
  function AuthHeaderFor(token: Option<string>): (h: Option<string>)
    ensures h.Some? <==> Truthy(token)
    ensures h.Some? ==> h.value == "Bearer " + token.value && |h.value| > |"Bearer "|
  {
    if Truthy(token) then Some("Bearer " + token.value) else None
  }

  /** The state the gateway reads and writes besides the network. */
  datatype Env = Env(storage: map<string, string>, location: string, defaultAuth: Option<string>)

  function StoredToken(storage: map<string, string>): Option<string> {
    if "token" in storage then Some(storage["token"]) else None
  }

  /** The `Authorization` header a request goes out with: the request
      interceptor's `Bearer <stored token>` wins over the client default. */
  function OutgoingAuthorization(env: Env): (h: Option<string>)
    ensures Truthy(StoredToken(env.storage)) ==> h == Some("Bearer " + env.storage["token"])
    ensures !Truthy(StoredToken(env.storage)) ==> h == env.defaultAuth
    ensures h.None? <==> !Truthy(StoredToken(env.storage)) && env.defaultAuth.None?
  {
    var token := StoredToken(env.storage);
    if Truthy(token) then Some("Bearer " + token.value) else env.defaultAuth
  }

  // ---------------------------------------------------------------------
  // Responses

  /** `error.response`: the status and the server's `data.error` field. */
  datatype ErrorResponse = ErrorResponse(status: int, error: Option<string>)

  /** An axios failure: the response (absent on transport errors and
      timeouts) and the transport-level `error.message`. */
  datatype Failure = Failure(response: Option<ErrorResponse>, message: Option<string>)

  datatype Outcome<D> =
    | Success(status: int, headers: map<string, string>, data: D)
    | Fail(failure: Failure)

  const Unauthorized := 401
  const FallbackMessage := "An error occurred"
  const LoginPath := "/login"

  predicate IsUnauthorized(f: Failure) {
    f.response.Some? && f.response.value.status == Unauthorized
  }

  function ServerError(f: Failure): Option<string> {
    if f.response.Some? then f.response.value.error else None
  }

  /** The first truthy value among the server's `error` field, the
      transport message and the fallback text. */
  function ErrorMessage(f: Failure): (m: string)
    ensures m != ""
    ensures Truthy(ServerError(f)) ==> m == ServerError(f).value
    ensures !Truthy(ServerError(f)) && Truthy(f.message) ==> m == f.message.value
    ensures !Truthy(ServerError(f)) && !Truthy(f.message) ==> m == FallbackMessage
  {
    if Truthy(ServerError(f)) then ServerError(f).value
    else if Truthy(f.message) then f.message.value
    else FallbackMessage
  }

  /** The three cases of the message rule, on concrete failures. */
  lemma ErrorMessageExamples()
    ensures ErrorMessage(Failure(Some(ErrorResponse(400, Some("Bad input"))), Some("Request failed"))) == "Bad input"
    ensures ErrorMessage(Failure(None, Some("Network Error"))) == "Network Error"
    ensures ErrorMessage(Failure(Some(ErrorResponse(500, Some(""))), None)) == FallbackMessage
  {
  }

  /** What a 401 does to the browser: both session entries removed and a
      hard navigation to the login page. */
  function Teardown(env: Env): Env {
    env.(storage := env.storage - {"token", "user"}, location := LoginPath)
  }

  /** The response interceptor as a state transition: the new gateway
      state and what the awaiting caller receives. */
  function Intercept<D>(env: Env, o: Outcome<D>): (Env, Result<D>) {
    match o
    case Success(_, _, data) => (env, Ok(data))
    case Fail(f) => (if IsUnauthorized(f) then Teardown(env) else env, Err(ErrorMessage(f)))
  }

  /** A success yields exactly the payload and changes nothing. */
  lemma SuccessUnwrapped<D>(env: Env, status: int, headers: map<string, string>, data: D)
    ensures Intercept(env, Success(status, headers, data)) == (env, Ok(data))
  {
  }

  /** A 401 clears both entries, navigates to the login page, keeps every
      other stored key and the in-memory default header, and still hands
      the caller a non-empty error. */
  lemma UnauthorizedTearsDown<D>(env: Env, f: Failure)
    requires IsUnauthorized(f)
    ensures var (env', r) := Intercept<D>(env, Fail(f));
      && "token" !in env'.storage && "user" !in env'.storage
      && (forall k :: k in env.storage && k != "token" && k != "user" ==> k in env'.storage && env'.storage[k] == env.storage[k])
      && env'.location == LoginPath
      && env'.defaultAuth == env.defaultAuth
      && r.Err? && r.message != ""
  {
  }

  /** Any other failure leaves storage and location alone. */
  lemma OtherFailuresKeepState<D>(env: Env, f: Failure)
    requires !IsUnauthorized(f)
    ensures Intercept<D>(env, Fail(f)) == (env, Err(ErrorMessage(f)))
  {
  }

  /** Several in-flight requests that all get a 401 end as one would. */
  lemma TeardownIdempotent(env: Env)
    ensures Teardown(Teardown(env)) == Teardown(env)
  {
  }

  /** After a 401 and before the navigation reloads the page, the next
      request still carries the stale default credential whenever one was
      installed: the teardown does not call `setAuthToken(null)`. */
  lemma StaleCredentialAfterUnauthorized(env: Env)
    requires env.defaultAuth.Some?
    ensures OutgoingAuthorization(Teardown(env)) == env.defaultAuth
  {
    assert "token" !in Teardown(env).storage;
  }

  // ---------------------------------------------------------------------
  // The client object

  /** Outgoing headers as sent: the client defaults overlaid with what the
      request interceptor sets. */
  datatype Sent = Sent(request: Request, headers: map<string, string>)

  class ApiService {
    const window: Browser.Window
    /** `client.defaults.headers.common['Authorization']`. */
    var defaultAuthorization: Option<string>

    constructor (w: Browser.Window)
      ensures window == w && defaultAuthorization == None
    {
      window := w;
      defaultAuthorization := None;
    }

    function State(): Env
      reads this, window
    {
      Env(window.localStorage, window.location, defaultAuthorization)
    }

    method SetAuthToken(token: Option<string>)
      modifies this
      ensures defaultAuthorization == AuthHeaderFor(token)
    {
      if Truthy(token) {
        defaultAuthorization := Some("Bearer " + token.value);
      } else {
        defaultAuthorization := None;
      }
    }

    /** Merges the default headers, then runs the request interceptor. */
    method PrepareRequest(r: Request) returns (s: Sent)
      ensures s.request == r
      ensures "Content-Type" in s.headers && s.headers["Content-Type"] == ContentType
      ensures s.headers.Keys <= {"Content-Type", "Authorization"}
      ensures "Authorization" in s.headers <==> OutgoingAuthorization(State()).Some?
      ensures "Authorization" in s.headers ==> s.headers["Authorization"] == OutgoingAuthorization(State()).value
    {
      var headers := map["Content-Type" := ContentType];
      if defaultAuthorization.Some? {
        headers := headers["Authorization" := defaultAuthorization.value];
      }
      var token := window.GetItem("token");
      if Truthy(token) {
        headers := headers["Authorization" := "Bearer " + token.value];
      }
      s := Sent(r, headers);
    }

    /** The response interceptor. */
    method HandleResponse<D>(o: Outcome<D>) returns (r: Result<D>)
      modifies window
      ensures (State(), r) == Intercept(old(State()), o)
    {
      match o {
        case Success(_, _, data) =>
          r := Ok(data);
        case Fail(f) =>
          if IsUnauthorized(f) {
            ghost var before := window.localStorage;
            window.RemoveItem("token");
            window.RemoveItem("user");
            window.Navigate(LoginPath);
            assert window.localStorage == before - {"token", "user"};
          }
          r := Err(ErrorMessage(f));
      }
    }
  }
}
