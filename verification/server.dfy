/**
 * The decision logic of the application's entry point: the base URL default,
 * the production hardening of the session cookie, the per-request middleware
 * that exposes session data to the views, and the terminal error handler.
 */
module Server {
  import opened JsValues
  import opened Sessions

  // ---------------------------------------------------------------------------
  // Configuration read at startup

  /** `process.env.BASE_URL || '/'`: the base URL used by every view. */
  function BaseURL(envBaseURL: Option<string>): (r: string)
    ensures r != ""
    ensures Truthy(envBaseURL) ==> r == envBaseURL.value
    ensures !Truthy(envBaseURL) ==> r == "/"
  {
    if Truthy(envBaseURL) then envBaseURL.value else "/"
  }

  /** One day in milliseconds, the lifetime of the session cookie. */
  const OneDayMs: int := 1000 * 60 * 60 * 24

  datatype CookieOptions = CookieOptions(maxAge: int, sameSite: string, secure: Option<bool>)

  /** The options handed to the session middleware (the in-memory store is not modelled). */
  datatype SessionOptions = SessionOptions(
    name: Option<string>,
    secret: Option<string>,
    resave: bool,
    saveUninitialized: bool,
    cookie: CookieOptions)

  /**
   * Builds the session options and the `trust proxy` setting. Only in the
   * `production` environment is the cookie marked secure and the first proxy
   * trusted; everything else is the same in every environment.
   */
  method ConfigureSession(env: string, name: Option<string>, secret: Option<string>)
    returns (options: SessionOptions, trustProxy: Option<int>)
    ensures options.cookie.secure == Some(true) <==> env == "production"
    ensures trustProxy == Some(1) <==> env == "production"
    ensures env != "production" ==> options.cookie.secure == None && trustProxy == None
    ensures options.cookie.maxAge == 86_400_000 && options.cookie.sameSite == "strict"
    ensures options.resave && !options.saveUninitialized
    ensures options.name == name && options.secret == secret
  {
    options := SessionOptions(name, secret, true, false, CookieOptions(OneDayMs, "strict", None));
    trustProxy := None;
    if env == "production" {
      trustProxy := Some(1);
      options := options.(cookie := options.cookie.(secure := Some(true)));
    }
  }

  // ---------------------------------------------------------------------------
  // Per-request middleware: flash, user and base URL for the views

  /** A snapshot of the `res.locals` properties the middleware may set. */
  datatype LocalsState = LocalsState(flash: Option<string>, user: Option<string>, baseURL: Option<string>)

  /** `res.locals` as it is when a request arrives: nothing set yet. */
  const EmptyLocals := LocalsState(None, None, None)

  /** `res.locals`, which the middleware assigns into. */
  class Locals {
    var flash: Option<string>
    var user: Option<string>
    var baseURL: Option<string>

    constructor ()
      ensures Value() == EmptyLocals
    {
      flash, user, baseURL := None, None, None;
    }

    function Value(): LocalsState
      reads this
    {
      LocalsState(flash, user, baseURL)
    }
  }

  /**
   * What one run of the middleware does to the session and to the locals: a
   * truthy flash is moved from the session to the locals (a one-shot take), a
   * truthy user is copied but stays in the session, and the base URL is always
   * set.
   */
  function Expose(s: SessionState, l: LocalsState, baseURL: string): (r: (SessionState, LocalsState))
    ensures Truthy(s.flash) ==> r.0.flash == None && r.1.flash == s.flash
    ensures !Truthy(s.flash) ==> r.0.flash == s.flash && r.1.flash == l.flash
    ensures r.0.user == s.user
    ensures Truthy(s.user) ==> r.1.user == s.user
    ensures !Truthy(s.user) ==> r.1.user == l.user
    ensures r.1.baseURL == Some(baseURL)
  {
    var (s1, l1) := if Truthy(s.flash) then (s.(flash := None), l.(flash := s.flash)) else (s, l);
    var l2 := if Truthy(s.user) then l1.(user := s.user) else l1;
    (s1, l2.(baseURL := Some(baseURL)))
  }

  /**
   * The middleware itself. It may change only the session's `flash` and the
   * locals, so `session.user` is left as it was; it then calls `next` once,
   * which is its return.
   */
  method ExposeSession(session: Session, locals: Locals, baseURL: string)
    modifies session`flash, locals
    ensures (session.State(), locals.Value()) == Expose(old(session.State()), old(locals.Value()), baseURL)
  {
    if Truthy(session.flash) {
      locals.flash := session.flash;
      session.flash := None;
    }
    if Truthy(session.user) {
      locals.user := session.user;
    }
    locals.baseURL := Some(baseURL);
  }

  /** The base URL the views receive is the configured one, `BASE_URL` or `/`, and never empty. */
  lemma BaseURLAlwaysExposed(s: SessionState, l: LocalsState, envBaseURL: Option<string>)
    ensures Expose(s, l, BaseURL(envBaseURL)).1.baseURL == Some(BaseURL(envBaseURL))
    ensures Truthy(Expose(s, l, BaseURL(envBaseURL)).1.baseURL)
    ensures Truthy(envBaseURL) ==> Expose(s, l, BaseURL(envBaseURL)).1.baseURL == envBaseURL
  {
  }

  /** Running the middleware on a session twice, with nothing re-arming the flash in between. */
  lemma FlashTakenOnlyOnce(s: SessionState, baseURL: string)
    ensures var (s1, l1) := Expose(s, EmptyLocals, baseURL);
            var (s2, l2) := Expose(s1, EmptyLocals, baseURL);
            l1.flash == (if Truthy(s.flash) then s.flash else None) &&
            l2.flash == None &&
            s2.user == s.user
  {
  }

  // A sequence of requests sharing one session, processed one after another.
  // Between requests a route handler may arm the flash again.

  datatype Event = Request | Arm(message: string)

  /**
   * The session after the events, and the `res.locals.flash` each request
   * received (one entry per `Request`, in order).
   */
  function Run(s: SessionState, events: seq<Event>, baseURL: string): (r: (SessionState, seq<Option<string>>))
    decreases |events|
  {
    if events == [] then (s, [])
    else match events[0]
      case Request =>
        var (s1, l1) := Expose(s, EmptyLocals, baseURL);
        var rest := Run(s1, events[1..], baseURL);
        (rest.0, [l1.flash] + rest.1)
      case Arm(m) =>
        Run(s.(flash := Some(m)), events[1..], baseURL)
  }

  /** The number of requests that received a flash message in their locals. */
  function Delivered(seen: seq<Option<string>>): nat {
    if seen == [] then 0 else (if seen[0].Some? then 1 else 0) + Delivered(seen[1..])
  }

  /** The number of events that arm a (truthy) flash message. */
  function Armings(events: seq<Event>): nat {
    if events == [] then 0
    else (if events[0].Arm? && events[0].message != "" then 1 else 0) + Armings(events[1..])
  }

  /** 1 when the session holds a flash message still to be delivered. */
  function Pending(s: SessionState): nat {
    if Truthy(s.flash) then 1 else 0
  }

  /** The number of `Request` events. */
  function RequestCount(events: seq<Event>): nat {
    if events == [] then 0 else (if events[0].Request? then 1 else 0) + RequestCount(events[1..])
  }

  /** `Run` records one `res.locals.flash` per request, and never touches `session.user`. */
  lemma {:induction false} RunShape(s: SessionState, events: seq<Event>, baseURL: string)
    ensures |Run(s, events, baseURL).1| == RequestCount(events)
    ensures Run(s, events, baseURL).0.user == s.user
    decreases |events|
  {
    if events != [] {
      match events[0]
      case Request =>
        var (s1, l1) := Expose(s, EmptyLocals, baseURL);
        RunShape(s1, events[1..], baseURL);
      case Arm(m) =>
        RunShape(s.(flash := Some(m)), events[1..], baseURL);
    }
  }

  /**
   * At-most-once delivery: every message exposed in a request's locals was
   * armed, and no armed message is exposed twice. Counting the message still pending at the
   * end, the deliveries never exceed the messages armed before or during the run.
   */
  lemma {:induction false} FlashAtMostOncePerArming(s: SessionState, events: seq<Event>, baseURL: string)
    ensures Delivered(Run(s, events, baseURL).1) + Pending(Run(s, events, baseURL).0)
            <= Pending(s) + Armings(events)
    decreases |events|
  {
    if events != [] {
      match events[0]
      case Request =>
        var (s1, l1) := Expose(s, EmptyLocals, baseURL);
        FlashAtMostOncePerArming(s1, events[1..], baseURL);
      case Arm(m) =>
        FlashAtMostOncePerArming(s.(flash := Some(m)), events[1..], baseURL);
    }
  }

  /** Every flash exposed in a request's locals is a truthy message. */
  lemma {:induction false} DeliveredFlashIsTruthy(s: SessionState, events: seq<Event>, baseURL: string)
    ensures forall i :: 0 <= i < |Run(s, events, baseURL).1| && Run(s, events, baseURL).1[i].Some? ==>
              Truthy(Run(s, events, baseURL).1[i])
    decreases |events|
  {
    if events != [] {
      match events[0]
      case Request =>
        var (s1, l1) := Expose(s, EmptyLocals, baseURL);
        DeliveredFlashIsTruthy(s1, events[1..], baseURL);
      case Arm(m) =>
        DeliveredFlashIsTruthy(s.(flash := Some(m)), events[1..], baseURL);
    }
  }

  /** `n` requests in a row, with no handler arming a flash. */
  function Requests(n: nat): (r: seq<Event>)
    ensures |r| == n && Armings(r) == 0
    ensures forall i :: 0 <= i < n ==> r[i] == Request
  {
    if n == 0 then [] else [Request] + Requests(n - 1)
  }

  /**
   * An armed flash is exposed to the first of any number of later requests and
   * to none of the others.
   */
  lemma ArmedFlashDeliveredExactlyOnce(s: SessionState, n: nat, baseURL: string)
    requires Truthy(s.flash) && n > 0
    ensures Run(s, Requests(n), baseURL).1[0] == s.flash
    ensures Delivered(Run(s, Requests(n), baseURL).1) == 1
  {
    var evs := Requests(n);
    assert evs[0] == Request;
    var (s1, l1) := Expose(s, EmptyLocals, baseURL);
    assert evs[1..] == Requests(n - 1);
    FlashAtMostOncePerArming(s1, evs[1..], baseURL);
  }

  // ---------------------------------------------------------------------------
  // Terminal error handler

  /** What is sent back: the static 404 or 403 page, or the error view rendered with the error. */
  datatype Page = NotFoundPage | ForbiddenPage | ErrorView(error: JsError)

  datatype Response = Response(status: int, page: Page)

  /**
   * The error handler at the end of the middleware chain. It is given the
   * application environment, but the branch that would send a generic page
   * outside development is commented out, so the environment plays no part.
   */
  function HandleError(err: JsError, env: string): (r: Response)
    ensures r.page == NotFoundPage <==> err.status == Some(404)
    ensures r.page == ForbiddenPage <==> err.status == Some(403)
    ensures r.page == NotFoundPage ==> r.status == 404
    ensures r.page == ForbiddenPage ==> r.status == 403
    ensures r.page.ErrorView? ==> r.page.error == err
    ensures r.page.ErrorView? && TruthyNumber(err.status) ==> r.status == err.status.value
    ensures r.page.ErrorView? && !TruthyNumber(err.status) ==> r.status == 500
    ensures r.status != 0
  {
    if err.status == Some(404) then Response(404, NotFoundPage)
    else if err.status == Some(403) then Response(403, ForbiddenPage)
    else Response(if TruthyNumber(err.status) then err.status.value else 500, ErrorView(err))
  }

  /** The full error is shown for every unclassified error, whatever the environment. */
  lemma DetailShownInEveryMode(err: JsError, env: string, env': string)
    requires err.status != Some(404) && err.status != Some(403)
    ensures HandleError(err, env) == HandleError(err, env')
    ensures HandleError(err, env).page == ErrorView(err)
  {
  }
}
