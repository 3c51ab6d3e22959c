/**
 * The redirect effect of both `AuthProvider` components
 * (hotel-web/components/authProvider.tsx and hotel-web/components/ui/authProvider.tsx).
 * The two differ only in the role text that counts as administrator
 * ("ADMIN" in the first, "admin" in the second), which is a parameter here.
 */
module RouteGuard {
  import opened Wrappers
  import opened Text
  import opened ClientTypes

  const LOGIN_PAGE := "/auth/login"
  const ADMIN_HOME := "/admin"
  const CUSTOMER_HOME := "/dashboard"

  /** `pathname?.startsWith(prefix)`: false when there is no path. */
  predicate PathStarts(pathname: Option<string>, prefix: string) {
    pathname.Some? && StartsWith(pathname.value, prefix)
  }

  /** Where a signed-in user is sent away from an auth page. */
  function HomeOf(role: string, adminRole: string): string {
    if role == adminRole then ADMIN_HOME else CUSTOMER_HOME
  }

  /** A path cannot start with two of "/admin", "/dashboard" and "/auth". */
  lemma ZonesDisjoint(pathname: Option<string>)
    ensures !(PathStarts(pathname, "/admin") && PathStarts(pathname, "/dashboard"))
    ensures !(PathStarts(pathname, "/admin") && PathStarts(pathname, "/auth"))
    ensures !(PathStarts(pathname, "/dashboard") && PathStarts(pathname, "/auth"))
  {
    if pathname.Some? {
      var s := pathname.value;
      if StartsWith(s, "/admin") { assert s[1] == s[..6][1] == 'a' && s[2] == s[..6][2] == 'd'; }
      if StartsWith(s, "/auth") { assert s[1] == s[..5][1] == 'a' && s[2] == s[..5][2] == 'u'; }
      if StartsWith(s, "/dashboard") { assert s[1] == s[..10][1] == 'd'; }
    }
  }

  /**
   * The `router.push` calls one run of the effect makes, in order: the three
   * independent checks of the source, each contributing at most one target.
   * Because the three prefixes exclude each other, at most one fires.
   */
  function Redirects(loading: bool, pathname: Option<string>, user: Option<User>, adminRole: string): (pushes: seq<string>)
    ensures |pushes| <= 1
    ensures loading ==> pushes == []
  {
    if loading then []
    else
      ZonesDisjoint(pathname);
      (if PathStarts(pathname, "/admin") && (user.None? || user.value.role != adminRole) then [LOGIN_PAGE] else [])
      + (if PathStarts(pathname, "/dashboard") && user.None? then [LOGIN_PAGE] else [])
      + (if user.Some? && PathStarts(pathname, "/auth") then [HomeOf(user.value.role, adminRole)] else [])
  }

  /** The guard's verdict, written as one decision table over the three route zones. */
  datatype Decision = Stay | RedirectTo(target: string)

  function Decide(loading: bool, pathname: Option<string>, user: Option<User>, adminRole: string): Decision {
    if loading || pathname.None? then Stay
    else
      var p := pathname.value;
      if StartsWith(p, "/admin") then
        (if user.Some? && user.value.role == adminRole then Stay else RedirectTo(LOGIN_PAGE))
      else if StartsWith(p, "/dashboard") then
        (if user.Some? then Stay else RedirectTo(LOGIN_PAGE))
      else if StartsWith(p, "/auth") then
        (if user.Some? then RedirectTo(HomeOf(user.value.role, adminRole)) else Stay)
      else Stay
  }

  /** The effect pushes exactly the target of the decision table, and nothing when it says stay. */
  lemma RedirectsFollowDecision(loading: bool, pathname: Option<string>, user: Option<User>, adminRole: string)
    ensures Redirects(loading, pathname, user, adminRole)
         == match Decide(loading, pathname, user, adminRole)
            case Stay => []
            case RedirectTo(t) => [t]
  {
    ZonesDisjoint(pathname);
  }

  /** An admin path is left only for the administrator; everyone else is sent to the login page. */
  lemma AdminZoneNeedsAdmin(pathname: string, user: Option<User>, adminRole: string)
    requires StartsWith(pathname, "/admin")
    ensures Redirects(false, Some(pathname), user, adminRole)
         == if user.Some? && user.value.role == adminRole then [] else [LOGIN_PAGE]
  {
    RedirectsFollowDecision(false, Some(pathname), user, adminRole);
  }

  /** A signed-in user on an auth page is sent to the home of their role. */
  lemma AuthPageSendsHome(pathname: string, user: User, adminRole: string)
    requires StartsWith(pathname, "/auth")
    ensures Redirects(false, Some(pathname), Some(user), adminRole)
         == [if user.role == adminRole then ADMIN_HOME else CUSTOMER_HOME]
  {
    RedirectsFollowDecision(false, Some(pathname), Some(user), adminRole);
  }
}
