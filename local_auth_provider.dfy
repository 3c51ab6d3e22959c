/**
 * `AuthProvider` of hotel-web/components/authProvider.tsx: the session is read
 * from three localStorage keys, and login, register and logout go through the
 * API client. The component's `user` and `loading` state cells are fields;
 * the router is the list of `router.push` targets in call order.
 */
module LocalAuthProvider {
  import opened Wrappers
  import opened ClientTypes
  import RouteGuard

  const TOKEN_KEY := "jwt_token"
  const USER_ID_KEY := "user_id"
  const USER_ROLE_KEY := "user_role"

  /** `localStorage.getItem(key)` read as a JavaScript truthiness test: present and non-empty. */
  predicate Filled(storage: map<string, string>, key: string) {
    key in storage && storage[key] != ""
  }

  /** The user `loadUserFromLocalStorage` builds from what the storage holds. */
  function StoredUser(storage: map<string, string>): Option<User> {
    if Filled(storage, TOKEN_KEY) && Filled(storage, USER_ID_KEY) && Filled(storage, USER_ROLE_KEY)
    then Some(User(storage[USER_ID_KEY], "User", "", storage[USER_ROLE_KEY]))
    else None
  }

  class AuthProvider {
    var user: Option<User>
    var loading: bool
    /** Every `router.push` target so far, oldest first. */
    var navigations: seq<string>

    /** The initial state: no user, still loading, nowhere navigated. */
    constructor ()
      ensures user == None && loading && navigations == []
    {
      user := None;
      loading := true;
      navigations := [];
    }

    /**
     * `loadUserFromLocalStorage`. `storage` is `None` when reading localStorage
     * throws; the catch clears the user. `loading` ends false on every path.
     */
    method LoadUserFromLocalStorage(storage: Option<map<string, string>>)
      modifies this`user, this`loading
      ensures !loading
      ensures user == if storage.Some? then StoredUser(storage.value) else None
    {
      if storage.Some? {
        user := StoredUser(storage.value);
      } else {
        user := None;
      }
      loading := false;
    }

    /** One run of the redirect effect for the current path. */
    method RunGuard(pathname: Option<string>)
      modifies this`navigations
      ensures navigations == old(navigations) + RouteGuard.Redirects(loading, pathname, user, "ADMIN")
    {
      navigations := navigations + RouteGuard.Redirects(loading, pathname, user, "ADMIN");
    }

    /**
     * `login(email, password)`, given the outcome of the API call. On success the
     * user is set from the reply and the router is sent to the role's home; on
     * failure the error is rethrown (returned) and nothing changes. No storage is written.
     */
    method Login(email: string, reply: Outcome<LoginReply>) returns (error: Option<string>)
      modifies this`user, this`navigations
      ensures reply.Rejected? ==>
                error == Some(reply.message) && user == old(user) && navigations == old(navigations)
      ensures reply.Resolved? ==>
                && error == None
                && user == Some(User(reply.value.userId, "User", email, reply.value.userRole))
                && navigations == old(navigations) + [RouteGuard.HomeOf(reply.value.userRole, "ADMIN")]
    {
      match reply
      case Rejected(message) =>
        error := Some(message);
      case Resolved(r) =>
        user := Some(User(r.userId, "User", email, r.userRole));
        navigations := navigations + [if r.userRole == "ADMIN" then "/admin" else "/dashboard"];
        error := None;
    }

    /**
     * `register(name, email, password)`: the register call, then `login`, then a
     * push to "/dashboard". `loginReply` is the outcome of the login call, made
     * only when registration succeeds. Any failure is rethrown.
     */
    method Register(registered: Outcome<()>, email: string, loginReply: Outcome<LoginReply>)
      returns (error: Option<string>)
      modifies this`user, this`navigations
      ensures registered.Rejected? ==>
                error == Some(registered.message) && user == old(user) && navigations == old(navigations)
      ensures registered.Resolved? && loginReply.Rejected? ==>
                error == Some(loginReply.message) && user == old(user) && navigations == old(navigations)
      ensures registered.Resolved? && loginReply.Resolved? ==>
                && error == None
                && user == Some(User(loginReply.value.userId, "User", email, loginReply.value.userRole))
                && navigations == old(navigations)
                     + [RouteGuard.HomeOf(loginReply.value.userRole, "ADMIN"), RouteGuard.CUSTOMER_HOME]
    {
      if registered.Rejected? {
        return Some(registered.message);
      }
      error := Login(email, loginReply);
      if error.None? {
        navigations := navigations + ["/dashboard"];
      }
    }

    /** `logout()`: the user is cleared only when the API call succeeds; a failure is swallowed. */
    method Logout(reply: Outcome<()>)
      modifies this`user, this`navigations
      ensures reply.Resolved? ==> user == None && navigations == old(navigations) + ["/"]
      ensures reply.Rejected? ==> user == old(user) && navigations == old(navigations)
    {
      if reply.Resolved? {
        user := None;
        navigations := navigations + ["/"];
      }
    }
  }
}
