/**
 * The admin access gate of app.rb as a pure state machine over the session.
 *
 * A session holds at most two entries, `identity` and `previous_url`. A request is
 * one of the three routes that read or write them; handling it yields the new
 * session and what the server answers (a rendered view or a redirect).
 */
module Gate {
  import opened Wrappers

  /** The route pattern of the admin page, and the redirect target when no path was recorded. */
  const AdminPath := "/admin"
  /** The single hard-coded credential: both username and password must equal it. */
  const AdminCredential := "admin"
  const WrongCredentials := "Wrong username or password"
  const Stranger := "Hello stranger"

  datatype Session = Session(identity: Option<string>, previousUrl: Option<string>)

  /** A browser's session before any request has written to it. */
  const Fresh := Session(None, None)

  datatype Request =
    | AdminVisit(path: string)                                         // GET (or HEAD) /admin, as `request.path` reports it
    | AdminOtherMethod(path: string)                                   // POST, PUT, DELETE, ... to /admin: filter runs, no route
    | LoginAttempt(username: Option<string>, password: Option<string>) // POST /login/attempt
    | LogoutVisit                                                      // GET /logout

  datatype Outcome =
    | RenderAdmin
    | RenderLoginForm(error: string, bgColor: string, fontColor: string)
    | Redirect(target: string)   // the argument given to `to`, which prefixes it with scheme, host and script name
    | RenderLogout
    | NotFound                     // no route matched the request

  datatype Response = Response(session: Session, outcome: Outcome)

  /** What a `before` filter does: let the route run on a session, or halt with a response. */
  datatype FilterResult = Continue(session: Session) | Halt(response: Response)

  /** The requests that run the `before '/admin'` filter: it matches the path whatever the method. */
  predicate Filtered(req: Request) {
    req.AdminVisit? || req.AdminOtherMethod?
  }

  /** Ruby truthiness of `session[:identity]`: every stored string, even "", is truthy. */
  predicate Authenticated(s: Session) {
    s.identity.Some?
  }

  function MustLogIn(path: string): string {
    "Sorry, in order to visit '" + path + "' you must log in"
  }

  /** The warning-styled login form the filter shows in place of `path`. */
  function Blocked(path: string): Outcome {
    RenderLoginForm(MustLogIn(path), "bg-warning", "text-dark")
  }

  /** The danger-styled login form shown after wrong credentials. */
  function Rejected(): Outcome {
    RenderLoginForm(WrongCredentials, "bg-danger", "text-white")
  }

  /** `before '/admin'`: an anonymous visitor is halted and the requested path remembered. */
  function AdminFilter(s: Session, path: string): (r: FilterResult)
    ensures r.Continue? <==> Authenticated(s)
    ensures r.Continue? ==> r.session == s
    ensures r.Halt? ==>
              && r.response.outcome == Blocked(path)
              && r.response.session.identity == s.identity
              && r.response.session.previousUrl == Some(path)
  {
    if s.identity.None? then
      Halt(Response(s.(previousUrl := Some(path)), Blocked(path)))
    else
      Continue(s)
  }

  /**
   * GET /admin whose `request.path` is `path`: the filter, then (if it let the
   * request through) the admin view.
   */
  function VisitAdmin(s: Session, path: string): (r: Response)
    ensures r.outcome == RenderAdmin <==> Authenticated(s)
    ensures Authenticated(s) ==> r.session == s
    ensures !Authenticated(s) ==> r == Response(Session(None, Some(path)), Blocked(path))
  {
    match AdminFilter(s, path)
    case Halt(resp) => resp
    case Continue(s') => Response(s', RenderAdmin)
  }

  /**
   * A request to /admin with any method but GET or HEAD: the filter runs as for GET, and
   * a request it lets through finds no route.
   */
  function OtherMethodAdmin(s: Session, path: string): (r: Response)
    ensures r.outcome == NotFound <==> Authenticated(s)
    ensures Authenticated(s) ==> r.session == s
    ensures !Authenticated(s) ==> r == Response(Session(None, Some(path)), Blocked(path))
  {
    match AdminFilter(s, path)
    case Halt(resp) => resp
    case Continue(s') => Response(s', NotFound)
  }

  /** POST /login/attempt. */
  function Login(s: Session, username: Option<string>, password: Option<string>): (r: Response)
    ensures r.outcome.Redirect? <==> username == Some(AdminCredential) && password == Some(AdminCredential)
    ensures r.outcome.Redirect? ==>
              r.session == Session(username, s.previousUrl)
              && r.outcome.target == (if s.previousUrl.Some? then s.previousUrl.value else AdminPath)
    ensures !r.outcome.Redirect? ==> r.session == s && r.outcome == Rejected()
  {
    if username == Some(AdminCredential) && password == Some(AdminCredential) then
      var s' := s.(identity := username);
      Response(s', Redirect(s'.previousUrl.GetOr(AdminPath)))
    else
      Response(s, Rejected())
  }

  /** GET /logout: `session.delete(:identity)`. */
  function Logout(s: Session): (r: Response)
    ensures !Authenticated(r.session)
    ensures r.session.previousUrl == s.previousUrl
    ensures r.outcome == RenderLogout
  {
    Response(s.(identity := None), RenderLogout)
  }

  /**
   * One request against the session. Only an authenticated admin visit shows the
   * admin page, only a login redirects, only a logout ends the login, and only an
   * anonymous request through the admin filter records a path.
   */
  function Step(s: Session, req: Request): (r: Response)
    ensures r.outcome == RenderAdmin <==> req.AdminVisit? && Authenticated(s)
    ensures r.outcome.Redirect? ==> req.LoginAttempt?
    ensures Authenticated(s) && !Authenticated(r.session) <==> Authenticated(s) && req.LogoutVisit?
    ensures r.session.previousUrl != s.previousUrl ==> Filtered(req) && !Authenticated(s)
    ensures Filtered(req) && !Authenticated(s) ==> r.session.previousUrl == Some(req.path)
  {
    match req
    case AdminVisit(path) => VisitAdmin(s, path)
    case AdminOtherMethod(path) => OtherMethodAdmin(s, path)
    case LoginAttempt(u, p) => Login(s, u, p)
    case LogoutVisit => Logout(s)
  }

  /** The `username` helper: the stored identity, or a greeting for strangers. */
  function Username(s: Session): (r: string)
    ensures Authenticated(s) ==> r == s.identity.value
    ensures !Authenticated(s) ==> r == Stranger
  {
    if s.identity.Some? then s.identity.value else Stranger
  }

  /** Logging out twice is the same as logging out once. */
  lemma LogoutIdempotent(s: Session)
    ensures Logout(Logout(s).session) == Logout(s)
  {
  }

  /** After logout the next admin visit is blocked again. */
  lemma LogoutBlocksAdmin(s: Session, path: string)
    ensures VisitAdmin(Logout(s).session, path).outcome == Blocked(path)
  {
  }

  /**
   * An anonymous admin visit followed by a good login redirects back to the path
   * that was blocked, whatever it was and whatever was recorded before.
   */
  lemma BlockedThenLoginReturns(s: Session, path: string)
    requires !Authenticated(s)
    ensures var r := Login(VisitAdmin(s, path).session, Some(AdminCredential), Some(AdminCredential));
            r.outcome == Redirect(path) && Authenticated(r.session)
  {
  }

  /**
   * An anonymous request to /admin with another method, after a blocked GET at
   * `first`, moves the redirect target of the next good login to its own path.
   */
  lemma OtherMethodRetargets(s: Session, first: string, second: string)
    requires !Authenticated(s)
    ensures var s1 := VisitAdmin(s, first).session;
            var s2 := OtherMethodAdmin(s1, second).session;
            Login(s2, Some(AdminCredential), Some(AdminCredential)).outcome == Redirect(second)
  {
  }

  /** The greeting names the admin after a good login and a stranger after logout. */
  lemma UsernameAcrossLogin(s: Session)
    ensures Username(Login(s, Some(AdminCredential), Some(AdminCredential)).session) == AdminCredential
    ensures Username(Logout(s).session) == Stranger
  {
  }
}
