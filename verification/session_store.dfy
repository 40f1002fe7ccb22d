/**
 * The routes of app.rb that touch the session, written the way the source runs
 * them: as updates in place to one browser's session hash. Each method is tied
 * to the pure transition in module Gate, whose properties are proved there and
 * in module Traces.
 */
module AdminRoutes {
  import opened Wrappers
  import opened Gate

  class SessionStore {
    /** `session[:identity]` */
    var identity: Option<string>
    /** `session[:previous_url]` */
    var previousUrl: Option<string>

    function Value(): Session
      reads this
    {
      Session(identity, previousUrl)
    }

    /** A new browser's session, holding neither entry. */
    constructor ()
      ensures Value() == Fresh
    {
      identity, previousUrl := None, None;
    }

    /** `before '/admin'`: the response it halts with, or None when the route may run. */
    method BeforeAdmin(path: string) returns (halted: Option<Outcome>)
      modifies this
      ensures halted.None? <==> Authenticated(old(Value()))
      ensures halted.None? ==> Value() == old(Value())
      ensures halted.Some? ==>
                && halted.value == Blocked(path)
                && identity == old(identity)
                && previousUrl == Some(path)
      ensures AdminFilter(old(Value()), path)
              == if halted.None? then Continue(Value()) else Halt(Response(Value(), halted.value))
    {
      if identity.None? {
        previousUrl := Some(path);
        halted := Some(Blocked(path));
      } else {
        halted := None;
      }
    }

    /** GET /admin with request path `path`, filter included. */
    method GetAdmin(path: string) returns (o: Outcome)
      modifies this
      ensures o == RenderAdmin <==> Authenticated(old(Value()))
      ensures Response(Value(), o) == VisitAdmin(old(Value()), path)
    {
      var halted := BeforeAdmin(path);
      if halted.Some? {
        o := halted.value;
      } else {
        o := RenderAdmin;
      }
    }

    /** A request to /admin with a method other than GET or HEAD: the filter, then no route. */
    method OtherMethodToAdmin(path: string) returns (o: Outcome)
      modifies this
      ensures o == NotFound <==> Authenticated(old(Value()))
      ensures Response(Value(), o) == OtherMethodAdmin(old(Value()), path)
    {
      var halted := BeforeAdmin(path);
      if halted.Some? {
        o := halted.value;
      } else {
        o := NotFound;
      }
    }

    /** POST /login/attempt with the submitted `username` and `password` parameters. */
    method PostLoginAttempt(username: Option<string>, password: Option<string>) returns (o: Outcome)
      modifies this
      ensures o.Redirect? <==> username == Some(AdminCredential) && password == Some(AdminCredential)
      ensures o.Redirect? ==> identity == username && previousUrl == old(previousUrl)
      ensures !o.Redirect? ==> o == Rejected() && Value() == old(Value())
      ensures Response(Value(), o) == Login(old(Value()), username, password)
    {
      if username == Some(AdminCredential) && password == Some(AdminCredential) {
        identity := username;
        var whereUserCameFrom := previousUrl.GetOr(AdminPath);
        o := Redirect(whereUserCameFrom);
      } else {
        o := Rejected();
      }
    }

    /** GET /logout. */
    method GetLogout() returns (o: Outcome)
      modifies this
      ensures identity == None && previousUrl == old(previousUrl)
      ensures Response(Value(), o) == Gate.Logout(old(Value()))
    {
      identity := None;
      o := RenderLogout;
    }

    /** Dispatch one request to its route. */
    method Handle(req: Request) returns (o: Outcome)
      modifies this
      ensures Response(Value(), o) == Step(old(Value()), req)
    {
      match req
      case AdminVisit(path) =>
        o := GetAdmin(path);
      case AdminOtherMethod(path) =>
        o := OtherMethodToAdmin(path);
      case LoginAttempt(u, p) =>
        o := PostLoginAttempt(u, p);
      case LogoutVisit =>
        o := GetLogout();
    }
  }

  /**
   * A new visitor asks for the admin page at `path`, logs in and is sent back
   * there, sees the admin page, logs out and is blocked again.
   */
  method AdminRoundTrip(path: string) returns (outcomes: seq<Outcome>)
    ensures outcomes == [Blocked(path), Redirect(path), RenderAdmin, RenderLogout, Blocked(path)]
  {
    var store := new SessionStore();
    var o1 := store.GetAdmin(path);
    var o2 := store.PostLoginAttempt(Some(AdminCredential), Some(AdminCredential));
    var o3 := store.GetAdmin(path);
    var o4 := store.GetLogout();
    var o5 := store.GetAdmin(path);
    outcomes := [o1, o2, o3, o4, o5];
  }
}
