/**
 * The mock `POST /api/auth/login` route of hotel-web/app/api/auth/login/route.ts:
 * a fixed credential table answered with a JSON body and a status code.
 */
module MockLoginRoute {
  import opened Wrappers
  import opened ClientTypes

  /** The request body: unreadable JSON, or the `email` and `password` fields (absent or null as `None`). */
  datatype RequestBody = Unparseable | Credentials(email: Option<string>, password: Option<string>)

  /** The JSON body of the answer: `{ message }` or `{ user }`. */
  datatype ReplyBody = MessageBody(message: string) | UserBody(user: User)

  datatype RouteResponse = RouteResponse(status: int, body: ReplyBody)

  const ADMIN_USER := User("2", "Admin User", "admin@example.com", "admin")
  const DEMO_USER := User("1", "Demo User", "user@example.com", "customer")

  /** JavaScript truthiness of an optional string field. */
  predicate Truthy(field: Option<string>) {
    field.Some? && field.value != ""
  }

  /** `POST`: the presence check, then the two listed credential pairs, else 401; unreadable JSON is a 500. */
  function Post(body: RequestBody): RouteResponse {
    match body
    case Unparseable => RouteResponse(500, MessageBody("An error occurred during login"))
    case Credentials(email, password) =>
      if !Truthy(email) || !Truthy(password) then
        RouteResponse(400, MessageBody("Email and password are required"))
      else if email.value == "admin@example.com" && password.value == "password" then
        RouteResponse(200, UserBody(ADMIN_USER))
      else if email.value == "user@example.com" && password.value == "password" then
        RouteResponse(200, UserBody(DEMO_USER))
      else
        RouteResponse(401, MessageBody("Invalid credentials"))
  }

  /** A user comes back (status 200) exactly for the two listed credential pairs, each with its own user. */
  lemma AcceptedExactlyListedPairs(email: string, password: string)
    ensures var r := Post(Credentials(Some(email), Some(password)));
      && (r.status == 200 <==> password == "password" && (email == "admin@example.com" || email == "user@example.com"))
      && (r.status == 200 ==> r.body == UserBody(if email == "admin@example.com" then ADMIN_USER else DEMO_USER))
      && (r.status != 200 ==> r.body.MessageBody?)
  {
  }

  /** The presence check comes first: a missing or empty field is a 400 whatever the other field holds. */
  lemma MissingFieldIsBadRequest(email: Option<string>, password: Option<string>)
    requires !Truthy(email) || !Truthy(password)
    ensures Post(Credentials(email, password)) == RouteResponse(400, MessageBody("Email and password are required"))
  {
  }

  /** Every answer is one of the five rows of the table. */
  lemma StatusesOfTheTable(body: RequestBody)
    ensures Post(body).status in {200, 400, 401, 500}
    ensures Post(body).status == 401 <==>
              body.Credentials? && Truthy(body.email) && Truthy(body.password)
              && !(body.password.value == "password"
                   && (body.email.value == "admin@example.com" || body.email.value == "user@example.com"))
  {
  }
}
