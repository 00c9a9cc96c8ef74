/**
 * The HTTP client's global policy: the request interceptor that attaches the
 * bearer token, the response interceptor that turns a failed request into at most
 * one toast (and, for 401, ends the session), and the rate-limited endpoint that
 * saves a typing test.
 *
 * The transport itself is not modelled: a failed request is given as an
 * `HttpError` value, and the toast the interceptor would show is returned as a
 * `Notice`. `window.location` is given as its pathname and search, and the
 * delayed assignment to `window.location.href` is returned as the redirect target.
 */
module Api {
  import opened Common
  import opened WebStorage
  import opened Toasts
  import opened RateLimiting
  import Router

  const AuthorizationHeader: string := "Authorization"
  const BearerPrefix: string := "Bearer "

  const NetworkErrorMessage: string := "Network error. Please check your connection."
  const SessionExpiredMessage: string := "Session expired. Please login again."
  const AccessDeniedMessage: string := "Access denied. You don't have permission."
  const NotFoundMessage: string := "Resource not found."
  const TooManyRequestsMessage: string := "Too many requests. Please slow down."
  const ServerErrorMessage: string := "Server error. Please try again later."
  const UnavailableMessage: string := "Service temporarily unavailable. Please try again."
  const TimeoutMessage: string := "Request timeout. Please try again."
  const GenericErrorMessage: string := "Something went wrong. Please try again."

  /** The shared limiter of the client: one request per second, at most twenty waiting. */
  const ClientMinInterval: nat := 1000
  const ClientMaxQueueSize: nat := 20

  /** The part of an axios request config the interceptors look at. */
  class RequestConfig {
    var url: Option<string>
    var headers: map<string, string>

    constructor (url: Option<string>, headers: map<string, string>)
      ensures this.url == url && this.headers == headers
    {
      this.url := url;
      this.headers := headers;
    }
  }

  /** The Authorization value for a token. */
  function Bearer(token: string): (h: string)
    ensures StartsWith(h, BearerPrefix) && |h| == |BearerPrefix| + |token|
  {
    BearerPrefix + token
  }

  /** The token a server reads back from an Authorization value, if it is a bearer one. */
  function TokenOf(h: string): (t: Option<string>)
    ensures t.Some? <==> StartsWith(h, BearerPrefix)
  {
    if StartsWith(h, BearerPrefix) then Some(h[|BearerPrefix|..]) else None
  }

  /** The header carries exactly the stored token. */
  lemma TokenOfBearer(token: string)
    ensures TokenOf(Bearer(token)) == Some(token)
  {
    assert (BearerPrefix + token)[|BearerPrefix|..] == token;
  }

  /** The request interceptor: with a non-empty stored token the request carries it as a bearer token; otherwise the headers are left as they are. */
  method AttachToken(config: RequestConfig, local: Storage)
    modifies config`headers
    ensures Truthy(local.GetItem(AuthTokenKey)) ==>
      config.headers == old(config.headers)[AuthorizationHeader := Bearer(local.GetItem(AuthTokenKey).value)]
    ensures !Truthy(local.GetItem(AuthTokenKey)) ==> config.headers == old(config.headers)
  {
    var token := local.GetItem(AuthTokenKey);
    if Truthy(token) {
      config.headers := config.headers[AuthorizationHeader := Bearer(token.value)];
    }
  }

  /** What the response interceptor sees of a failed request. */
  datatype HttpResponse = HttpResponse(status: int, message: Option<string>)

  /** A failed request: the response, if there was one, and the request's URL, if it had one. */
  datatype HttpError = HttpError(response: Option<HttpResponse>, url: Option<string>)

  /** The interceptor's reaction to a failed request, before its effects. */
  datatype Reaction = Quiet | Show(notice: Notice) | EndSession

  /** The `switch` of the response interceptor. */
  function Classify(e: HttpError): (r: Reaction)
    ensures e.response.None? ==> r == Show(Notice(Error, NetworkErrorMessage))
    ensures r == EndSession <==> e.response.Some? && e.response.value.status == 401
    ensures e.response.Some? ==>
      var status, message := e.response.value.status, e.response.value.message;
      && (status == 403 ==> r == Show(Notice(Error, AccessDeniedMessage)))
      && (status == 404 ==> r == (if Truthy(e.url) then Show(Notice(Error, NotFoundMessage)) else Quiet))
      && (status == 429 ==> r == Show(Notice(Warning, TooManyRequestsMessage)))
      && (status == 500 && !Truthy(message) ==> r == Show(Notice(Error, ServerErrorMessage)))
      && (status in {502, 503} ==> r == Show(Notice(Error, UnavailableMessage)))
      && (status == 504 ==> r == Show(Notice(Error, TimeoutMessage)))
      && (status >= 400 && status !in {401, 403, 404, 422, 429, 500, 502, 503, 504} && !Truthy(message) ==>
            r == Show(Notice(Error, GenericErrorMessage)))
  {
    if e.response.None? then Show(Notice(Error, NetworkErrorMessage))
    else
      var status := e.response.value.status;
      var message := e.response.value.message;
      if status == 401 then EndSession
      else if status == 403 then Show(Notice(Error, AccessDeniedMessage))
      else if status == 404 then
        (if Truthy(e.url) then Show(Notice(Error, NotFoundMessage)) else Quiet)
      else if status == 422 then Quiet
      else if status == 429 then Show(Notice(Warning, TooManyRequestsMessage))
      else if status == 500 then Show(Notice(Error, if Truthy(message) then message.value else ServerErrorMessage))
      else if status == 502 || status == 503 then Show(Notice(Error, UnavailableMessage))
      else if status == 504 then Show(Notice(Error, TimeoutMessage))
      else if status >= 400 then Show(Notice(Error, if Truthy(message) then message.value else GenericErrorMessage))
      else Quiet
  }

  /** The statuses the interceptor never reports: validation errors (left to the forms) and everything below 400. */
  predicate Unreported(status: int) {
    status == 422 || status < 400
  }

  /**
   * A toast is shown exactly for a missing response, or for a status of 400 or more
   * other than 401 and 422, where 404 needs a request URL.
   */
  lemma ShownExactlyWhen(e: HttpError)
    ensures Classify(e).Show? <==>
      e.response.None?
      || (var s := e.response.value.status;
          s != 401 && !Unreported(s) && (s == 404 ==> Truthy(e.url)))
  {
  }

  /** Only 429 is a warning; every other toast of the interceptor is an error. */
  lemma WarningOnlyForTooMany(e: HttpError)
    requires Classify(e).Show?
    ensures Classify(e).notice.kind == Warning <==> e.response.Some? && e.response.value.status == 429
    ensures Classify(e).notice.kind != Warning ==> Classify(e).notice.kind == Error
  {
  }

  /** A non-empty server message is what the toast says for 500 and for every status the switch does not list. */
  lemma ServerMessageShown(e: HttpError)
    requires e.response.Some? && Truthy(e.response.value.message)
    ensures var s := e.response.value.status;
      (s == 500 || (s >= 400 && s !in {401, 403, 404, 422, 429, 502, 503, 504})) ==>
        Classify(e) == Show(Notice(Error, e.response.value.message.value))
  {
  }

  /** 502 and 503 are reported the same way. */
  lemma GatewayStatusesAlike(url: Option<string>, m1: Option<string>, m2: Option<string>)
    ensures Classify(HttpError(Some(HttpResponse(502, m1)), url)) == Classify(HttpError(Some(HttpResponse(503, m2)), url))
  {
  }

  /** The 401 rule for the route to come back to: anything but the home page and the login page. */
  function RememberRoute(route: string): (b: bool)
    ensures b ==> route != Router.HomePath && !StartsWith(route, Router.LoginPath)
    ensures b ==> route != Router.LoginPath
  {
    route != "/" && !Includes(route, Router.LoginPath)
  }

  /**
   * The 401 branch: with a non-empty token and a pathname outside /login, the
   * session ends: the route is remembered (unless it is / or a login route), the
   * token is removed, an error toast is shown and the page is sent to /login. In
   * every other case nothing changes.
   */
  method ExpireSession(local: Storage, session: Storage, pathname: string, search: string)
    returns (notice: Option<Notice>, redirect: Option<string>)
    requires local != session
    modifies local, session
    ensures var ends := Truthy(old(local.GetItem(AuthTokenKey))) && !Includes(pathname, Router.LoginPath);
      && (ends ==>
        && local.items == old(local.items) - {AuthTokenKey}
        && session.items == (if RememberRoute(pathname + search) then old(session.items)[IntendedRouteKey := pathname + search] else old(session.items))
        && notice == Some(Notice(Error, SessionExpiredMessage))
        && redirect == Some(Router.LoginPath))
      && (!ends ==>
        && local.items == old(local.items) && session.items == old(session.items)
        && notice == None && redirect == None)
  {
    notice, redirect := None, None;
    var token := local.GetItem(AuthTokenKey);
    if Truthy(token) && !Includes(pathname, Router.LoginPath) {
      var intendedRoute := pathname + search;
      if RememberRoute(intendedRoute) {
        session.SetItem(IntendedRouteKey, intendedRoute);
      }
      local.RemoveItem(AuthTokenKey);
      notice := Some(Notice(Error, SessionExpiredMessage));
      redirect := Some(Router.LoginPath);
    }
  }

  /**
   * A route the 401 branch remembers is followed after the next sign-in lands on
   * the home page or the profile (unless it is that page itself).
   */
  lemma RememberedRouteIsFollowed(route: string, landing: string)
    requires RememberRoute(route) && route != ""
    requires landing == Router.HomePath || landing == Router.ProfilePath
    requires route != landing
    ensures Router.RestoreTarget(landing, Some(route)) == Some(route)
  {
  }

  /**
   * The response interceptor: reacts to the error and rejects with that same
   * error, so every error path ends in rejection with at most one toast.
   */
  method OnResponseError(e: HttpError, local: Storage, session: Storage, pathname: string, search: string)
    returns (rejected: HttpError, notice: Option<Notice>, redirect: Option<string>)
    requires local != session
    modifies local, session
    ensures rejected == e
    ensures Classify(e).Show? ==> notice == Some(Classify(e).notice) && redirect == None
    ensures Classify(e).Quiet? ==> notice == None && redirect == None
    ensures !Classify(e).EndSession? ==> local.items == old(local.items) && session.items == old(session.items)
    ensures Classify(e).EndSession? ==>
      var ends := Truthy(old(local.GetItem(AuthTokenKey))) && !Includes(pathname, Router.LoginPath);
      && (ends ==>
        && local.items == old(local.items) - {AuthTokenKey}
        && session.items == (if RememberRoute(pathname + search) then old(session.items)[IntendedRouteKey := pathname + search] else old(session.items))
        && notice == Some(Notice(Error, SessionExpiredMessage))
        && redirect == Some(Router.LoginPath))
      && (!ends ==>
        && local.items == old(local.items) && session.items == old(session.items)
        && notice == None && redirect == None)
    ensures redirect.Some? ==> Classify(e).EndSession? && notice == Some(Notice(Error, SessionExpiredMessage))
  {
    rejected := e;
    notice, redirect := None, None;
    match Classify(e)
    case Quiet =>
    case Show(n) =>
      notice := Some(n);
    case EndSession =>
      notice, redirect := ExpireSession(local, session, pathname, search);
  }

  /** The body of `saveTest`. */
  datatype TestResult = TestResult(
    wpm: int, accuracy: int, duration: int,
    correctWords: int, incorrectWords: int, totalWords: int,
    textContent: Option<string>)

  /** A request the client sends: a test result to save, or a call to any other endpoint, named by its path. */
  datatype Request = SaveTest(data: TestResult) | Plain(path: string)

  /** The client: its shared rate limiter and the plain requests it has sent. */
  class ApiClient {
    const limiter: RateLimiter<TestResult>
    var sent: seq<string>

    ghost predicate Valid()
      reads this, limiter
    {
      limiter.Valid() && limiter.minInterval == ClientMinInterval && limiter.maxQueueSize == ClientMaxQueueSize
    }

    constructor (now: int)
      ensures Valid() && fresh(limiter)
      ensures limiter.accepted == [] && limiter.started == [] && sent == []
    {
      limiter := new RateLimiter(ClientMinInterval, ClientMaxQueueSize, now);
      sent := [];
    }

    /**
     * Sends a request after `elapsed` time units. Saving a test goes through the
     * limiter, and is refused when twenty saves are already waiting; every other
     * request goes straight out and leaves the limiter alone.
     */
    method Send(req: Request, elapsed: nat) returns (r: Result<(), string>)
      requires Valid()
      modifies this`sent, limiter
      ensures Valid()
      ensures req.Plain? ==> r.Ok? && sent == old(sent) + [req.path] && unchanged(limiter)
      ensures req.SaveTest? ==> sent == old(sent)
      ensures req.SaveTest? ==> (r.Err? <==> |old(limiter.queue)| >= ClientMaxQueueSize)
      ensures req.SaveTest? && r.Ok? ==> limiter.accepted == old(limiter.accepted) + [req.data]
      ensures req.SaveTest? && r.Err? ==> limiter.accepted == old(limiter.accepted) && r.error == QueueFullMessage
    {
      match req
      case SaveTest(data) =>
        r := limiter.Execute(data, elapsed);
      case Plain(path) =>
        sent := sent + [path];
        r := Ok(());
    }
  }
}
