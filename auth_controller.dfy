/**
 * `controller/auth/AuthController`: sign-up, login and logout as the server
 * answers them. The `AuthenticationManager`'s verdict is a parameter, as is
 * `User.getUsername`, since the user entity's `UserDetails` side is not part
 * of this model.
 */
module AuthController {
  import opened Wrappers
  import opened Entities
  import opened Repositories
  import opened Http
  import AuthService
  import JwtUtil
  import Blacklist

  const USER_EXISTS := "User Already Exists!"
  const USER_NOT_CREATED := "User Not Created. Please try again later"
  const INCORRECT_CREDENTIALS := "Incorrect username or password"
  const USER_NOT_FOUND := "User not found"
  const LOGOUT_SUCCESSFUL := "Logout Successful!"

  /** `signupUser`'s mapping: 200 with the DTO, 406 for a taken email, 400 for any other failure. */
  function SignupResponse(outcome: Outcome<UserDto>): (r: Response<UserDto>)
    ensures r.status == OK <==> outcome.Returned?
    ensures r.status == NOT_ACCEPTABLE <==> outcome.Threw? && outcome.exception.EntityExistsException?
    ensures r.status == BAD_REQUEST <==> outcome.Threw? && !outcome.exception.EntityExistsException?
    ensures outcome.Returned? ==> r.body == Json(outcome.value)
    ensures r.status == NOT_ACCEPTABLE ==> r.body == Text(USER_EXISTS)
    ensures r.status == BAD_REQUEST ==> r.body == Text(USER_NOT_CREATED)
  {
    match outcome
    case Returned(dto) => Response(OK, Json(dto))
    case Threw(EntityExistsException(_)) => Response(NOT_ACCEPTABLE, Text(USER_EXISTS))
    case Threw(_) => Response(BAD_REQUEST, Text(USER_NOT_CREATED))
  }

  /** `signupUser(request)`: `createUser` followed by the mapping above. */
  method SignupUser(db: Database, request: AuthService.SignupRequest, encode: string -> string) returns (r: Response<UserDto>)
    requires db.Valid()
    modifies db`users
    ensures db.Valid()
    ensures r.status == NOT_ACCEPTABLE <==> AuthService.EmailPresent(old(db.users), request.email)
    ensures r.status != NOT_ACCEPTABLE ==>
      && r == Response(OK, Json(GetUserDto(old(db.users).nextId, AuthService.NewCustomer(request, encode))))
      && db.users == Insert(old(db.users), AuthService.NewCustomer(request, encode))
    ensures r.status == NOT_ACCEPTABLE ==> db.users == old(db.users)
  {
    var created := AuthService.CreateUser(db, request, encode);
    match created
    case Created(dto) =>
      r := SignupResponse(Returned(dto));
    case EntityExists(message) =>
      r := SignupResponse(Threw(EntityExistsException(message)));
  }

  datatype AuthenticationRequest = AuthenticationRequest(email: string, password: string)

  /** The `AuthenticationManager`'s verdict on the credentials. */
  datatype Authentication = Authenticated | Refused(exception: Exception)

  /** `AuthenticationResponse`: each field stays null (`None`) unless set. */
  datatype AuthenticationResponse = AuthenticationResponse(
    jwt: Option<JwtUtil.Claims>,
    userId: Option<int>,
    userRole: Option<UserRole>)

  /**
   * `createAuthenticationToken(request)`: bad credentials are re-thrown with
   * a fixed message and any other refusal passes through; then the user is
   * loaded by email (`UsernameNotFoundException` if absent), looked up again
   * by its username, and the token, role and id are filled in only when that
   * second lookup finds someone.
   */
  function CreateAuthenticationToken(
    request: AuthenticationRequest, authentication: Authentication, users: Table<User>,
    usernameOf: User -> string, issuedMillis: nat, expiryBaseMillis: nat)
    : (r: Handled<AuthenticationResponse>)
    requires WellFormed(users)
    ensures authentication.Refused? && authentication.exception.BadCredentialsException? ==>
      r == Propagate(BadCredentialsException(INCORRECT_CREDENTIALS))
    ensures authentication.Refused? && !authentication.exception.BadCredentialsException? ==>
      r == Propagate(authentication.exception)
    ensures authentication.Authenticated? && !AuthService.EmailPresent(users, request.email) ==>
      r == Propagate(OtherException(USER_NOT_FOUND))
    ensures authentication.Authenticated? && AuthService.EmailPresent(users, request.email) ==> r.Respond?
    ensures r.Respond? ==> authentication.Authenticated? && r.response.status == OK && r.response.body.Json?
    ensures r.Respond? ==>
      var a := r.response.body.value;
      && (a.jwt.Some? <==> a.userId.Some?)
      && (a.userId.Some? <==> a.userRole.Some?)
      && (a.userId.Some? ==> a.userId.value in users.rows && users.rows[a.userId.value].userRole == a.userRole.value)
      && var username := usernameOf(AuthService.FindFirstByEmail(users, request.email).value.1);
      && (a.userId.Some? <==> AuthService.EmailPresent(users, username))
      && (a.jwt.Some? ==> a.jwt.value.subject == username && users.rows[a.userId.value].email == username)
  {
    match authentication
    case Refused(BadCredentialsException(_)) => Propagate(BadCredentialsException(INCORRECT_CREDENTIALS))
    case Refused(e) => Propagate(e)
    case Authenticated =>
      match AuthService.FindFirstByEmail(users, request.email)
      case None => Propagate(OtherException(USER_NOT_FOUND))
      case Some(details) =>
        var username := usernameOf(details.1);
        var jwt := JwtUtil.GenerateToken(username, issuedMillis, expiryBaseMillis);
        match AuthService.FindFirstByEmail(users, username)
        case Some(found) =>
          Respond(Response(OK, Json(AuthenticationResponse(Some(jwt), Some(found.0), Some(found.1.userRole)))))
        case None =>
          Respond(Response(OK, Json(AuthenticationResponse(None, None, None))))
  }

  /**
   * When the username is the email, a successful login always fills all
   * three fields, with the first user of that email and a token for it.
   */
  lemma {:induction false} LoginByEmailFillsResponse(
    request: AuthenticationRequest, users: Table<User>, usernameOf: User -> string,
    issuedMillis: nat, expiryBaseMillis: nat)
    requires WellFormed(users) && AuthService.EmailPresent(users, request.email)
    requires forall u: User :: usernameOf(u) == u.email
    ensures var r := CreateAuthenticationToken(request, Authenticated, users, usernameOf, issuedMillis, expiryBaseMillis);
      && r.Respond?
      && var a := r.response.body.value;
      && a.userId == Some(AuthService.FindFirstByEmail(users, request.email).value.0)
      && a.jwt.Some? && a.jwt.value.subject == request.email
      && a.userRole.Some?
  {
    var details := AuthService.FindFirstByEmail(users, request.email).value;
    assert usernameOf(details.1) == request.email;
  }

  /** `logoutUser(request)`: the request's token joins the blacklist, and the answer is 200 "Logout Successful!". */
  method LogoutUser(blacklist: Blacklist.TokenBlacklist, token: string) returns (r: Response<()>)
    modifies blacklist
    ensures blacklist.blacklistedTokens == old(blacklist.blacklistedTokens) + {token}
    ensures r == Response(OK, Text(LOGOUT_SUCCESSFUL))
  {
    blacklist.AddToBlackList(token);
    r := Response(OK, Text(LOGOUT_SUCCESSFUL));
  }
}
