/**
 * `AuthProvider` of hotel-web/components/ui/authProvider.tsx: the session comes
 * from a probe of "/api/auth/session", and login, register and logout call the
 * app's own routes with `fetch`. Role names are lower case ("admin").
 */
module SessionAuthProvider {
  import opened Wrappers
  import opened ClientTypes
  import RouteGuard
  import MockLoginRoute
  import Text

  /** The JSON body the routes answer with: an optional `message` and an optional `user`. */
  datatype ReplyBody = ReplyBody(message: Option<string>, user: Option<User>)

  /** What an awaited `fetch` gives: a network failure, or a response whose body may not be JSON. */
  datatype FetchResult = NetworkFailure | Response(ok: bool, body: Option<ReplyBody>)

  /** Why `login` or `register` throws. */
  datatype AuthError =
    | Failed(message: string)   // an `Error` thrown with the server's message or the default text
    | BodyNotJson               // `response.json()` rejected
    | Network                   // `fetch` rejected
    | NoUserInReply             // `data.user.role` read on a reply without a user

  const ADMIN_ROLE := "admin"

  /** `error.message || fallback`. */
  function MessageOr(message: Option<string>, fallback: string): string {
    if message.Some? && message.value != "" then message.value else fallback
  }

  /** The browser's view of a route's answer: `ok` for a 2xx status, and its JSON body. */
  function Delivered(r: MockLoginRoute.RouteResponse): FetchResult {
    Response(200 <= r.status < 300,
             Some(match r.body
                  case MessageBody(m) => ReplyBody(Some(m), None)
                  case UserBody(u) => ReplyBody(None, Some(u))))
  }

  class AuthProvider {
    var user: Option<User>
    var loading: bool
    /** Every `router.push` target so far, oldest first. */
    var navigations: seq<string>

    constructor ()
      ensures user == None && loading && navigations == []
    {
      user := None;
      loading := true;
      navigations := [];
    }

    /** `loadUserFromSession`: the user of an ok probe with a JSON body, otherwise none; loading ends false. */
    method LoadUserFromSession(probe: FetchResult)
      modifies this`user, this`loading
      ensures !loading
      ensures user == if probe.Response? && probe.ok && probe.body.Some? then probe.body.value.user else None
    {
      if probe.Response? && probe.ok && probe.body.Some? {
        user := probe.body.value.user;
      } else {
        user := None;
      }
      loading := false;
    }

    /** One run of the redirect effect, comparing against the lower-case "admin". */
    method RunGuard(pathname: Option<string>)
      modifies this`navigations
      ensures navigations == old(navigations) + RouteGuard.Redirects(loading, pathname, user, ADMIN_ROLE)
    {
      navigations := navigations + RouteGuard.Redirects(loading, pathname, user, ADMIN_ROLE);
    }

    /**
     * `login`: a non-ok reply throws its message or "Login failed"; an ok reply
     * sets the user and pushes the role's home. A reply without a user sets no
     * user and then throws on reading its role.
     */
    method Login(reply: FetchResult) returns (error: Option<AuthError>)
      modifies this`user, this`navigations
      ensures reply.NetworkFailure? ==> error == Some(Network)
      ensures reply.Response? && reply.body.None? ==> error == Some(BodyNotJson)
      ensures reply.Response? && !reply.ok && reply.body.Some? ==>
                error == Some(Failed(MessageOr(reply.body.value.message, "Login failed")))
      ensures error.Some? && error != Some(NoUserInReply) ==> user == old(user)
      ensures reply.Response? && reply.ok && reply.body.Some? ==>
                && user == reply.body.value.user
                && (user.None? ==> error == Some(NoUserInReply) && navigations == old(navigations))
                && (user.Some? ==>
                      error == None
                      && navigations == old(navigations) + [RouteGuard.HomeOf(user.value.role, ADMIN_ROLE)])
      ensures error.Some? ==> navigations == old(navigations)
    {
      if reply.NetworkFailure? {
        return Some(Network);
      }
      if reply.body.None? {
        return Some(BodyNotJson);
      }
      if !reply.ok {
        return Some(Failed(MessageOr(reply.body.value.message, "Login failed")));
      }
      user := reply.body.value.user;
      if user.None? {
        return Some(NoUserInReply);
      }
      navigations := navigations + [if user.value.role == "admin" then "/admin" else "/dashboard"];
      error := None;
    }

    /** `register`: a non-ok reply throws its message or "Registration failed"; success sets the user and goes to "/dashboard". */
    method Register(reply: FetchResult) returns (error: Option<AuthError>)
      modifies this`user, this`navigations
      ensures reply.NetworkFailure? ==> error == Some(Network)
      ensures reply.Response? && reply.body.None? ==> error == Some(BodyNotJson)
      ensures reply.Response? && !reply.ok && reply.body.Some? ==>
                error == Some(Failed(MessageOr(reply.body.value.message, "Registration failed")))
      ensures error.Some? ==> user == old(user) && navigations == old(navigations)
      ensures reply.Response? && reply.ok && reply.body.Some? ==>
                error == None && user == reply.body.value.user
                && navigations == old(navigations) + [RouteGuard.CUSTOMER_HOME]
    {
      if reply.NetworkFailure? {
        return Some(Network);
      }
      if reply.body.None? {
        return Some(BodyNotJson);
      }
      if !reply.ok {
        return Some(Failed(MessageOr(reply.body.value.message, "Registration failed")));
      }
      user := reply.body.value.user;
      navigations := navigations + ["/dashboard"];
      error := None;
    }

    /** `logout`: any response clears the user and goes to "/"; only a rejected `fetch` keeps the user. */
    method Logout(reply: FetchResult)
      modifies this`user, this`navigations
      ensures reply.Response? ==> user == None && navigations == old(navigations) + ["/"]
      ensures reply.NetworkFailure? ==> user == old(user) && navigations == old(navigations)
    {
      if reply.Response? {
        user := None;
        navigations := navigations + ["/"];
      }
    }
  }

  /**
   * Signing in as the mock administrator against the mock login route, then
   * evaluating the guard on "/admin": the user has role "admin", the router went
   * to "/admin" once, and the guard adds no redirect.
   */
  method AdminSignInScenario() returns (p: AuthProvider)
    ensures p.user == Some(MockLoginRoute.ADMIN_USER)
    ensures p.navigations == ["/admin"]
  {
    p := new AuthProvider();
    p.LoadUserFromSession(Response(false, Some(ReplyBody(Some("not signed in"), None))));
    var reply := MockLoginRoute.Post(MockLoginRoute.Credentials(Some("admin@example.com"), Some("password")));
    var error := p.Login(Delivered(reply));
    assert error == None;
    p.RunGuard(Some("/admin"));
    assert Text.StartsWith("/admin", "/admin");
    RouteGuard.AdminZoneNeedsAdmin("/admin", p.user, ADMIN_ROLE);
  }
}
