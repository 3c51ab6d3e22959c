/**
 * `AuthServiceImpl`: customer sign-up with duplicate-email rejection, and the
 * start-up seeding of a single administrator account. The password encoder is
 * a parameter standing for BCrypt.
 */
module AuthService {
  import opened Wrappers
  import opened Entities
  import opened Repositories

  const ADMIN_EMAIL := "admin@test.com"
  const ADMIN_NAME := "Admin"
  const ADMIN_PASSWORD := "admin"
  const EMAIL_TAKEN_PREFIX := "User Already Present With Email"

  datatype SignupRequest = SignupRequest(email: string, password: string, name: string)

  /** What `createUser` gives back: the created user's DTO, or the `EntityExistsException` it throws. */
  datatype SignupResult = Created(dto: UserDto) | EntityExists(message: string)

  /** `findFirstByEmail(email).isPresent()`. */
  predicate EmailPresent(users: Table<User>, email: string) {
    exists id :: id in users.rows && users.rows[id].email == email
  }

  /** The first entry with the given email: `findFirstByEmail` over rows in storage order. */
  function FirstWithEmail(entries: seq<(int, User)>, email: string): (r: Option<(int, User)>)
    ensures r.None? <==> forall k :: 0 <= k < |entries| ==> entries[k].1.email != email
    ensures r.Some? ==> r.value.1.email == email
    ensures r.Some? ==>
      exists k :: 0 <= k < |entries| && entries[k] == r.value && forall j :: 0 <= j < k ==> entries[j].1.email != email
  {
    if entries == [] then None
    else if entries[0].1.email == email then Some(entries[0])
    else
      var r := FirstWithEmail(entries[1..], email);
      assert forall k :: 1 <= k < |entries| ==> entries[k] == entries[1..][k - 1];
      r
  }

  /** `findFirstByEmail(email)`. */
  function FindFirstByEmail(users: Table<User>, email: string): (r: Option<(int, User)>)
    requires WellFormed(users)
    ensures r.Some? ==> r.value.0 in users.rows && users.rows[r.value.0] == r.value.1 && r.value.1.email == email
    ensures r.Some? <==> EmailPresent(users, email)
  {
    FirstOfRowsIsStored(users, email);
    FirstWithEmail(Rows(users), email)
  }

  /** The first match among the stored rows is a stored user, and there is one exactly when the email is stored. */
  lemma FirstOfRowsIsStored(users: Table<User>, email: string)
    requires WellFormed(users)
    ensures var r := FirstWithEmail(Rows(users), email);
      && (r.Some? ==> r.value.0 in users.rows && users.rows[r.value.0] == r.value.1)
      && (r.Some? <==> EmailPresent(users, email))
  {
    var entries := Rows(users);
    var r := FirstWithEmail(entries, email);
    if r.Some? {
      var k :| 0 <= k < |entries| && entries[k] == r.value;
      assert r.value.0 in users.rows && users.rows[r.value.0] == r.value.1;
      assert users.rows[r.value.0].email == email;
    }
    if EmailPresent(users, email) {
      var id :| id in users.rows && users.rows[id].email == email;
      assert id in users.order;
      var k :| 0 <= k < |users.order| && users.order[k] == id;
      assert entries[k].1.email == email;
    }
  }

  /** `findByUserRole(ADMIN).isPresent()`. */
  predicate HasAdmin(users: Table<User>) {
    exists id :: id in users.rows && users.rows[id].userRole == ADMIN
  }

  /** The row a sign-up stores: the request's email and name, the encoded password, role CUSTOMER. */
  function NewCustomer(request: SignupRequest, encode: string -> string): User {
    User(request.email, request.name, encode(request.password), CUSTOMER)
  }

  /**
   * `createUser(request)`: a taken email throws (the message glues the email
   * straight onto the prefix) and saves nothing; otherwise one CUSTOMER row is
   * added and its projection returned.
   */
  method CreateUser(db: Database, request: SignupRequest, encode: string -> string) returns (r: SignupResult)
    requires db.Valid()
    modifies db`users
    ensures db.Valid()
    ensures r.EntityExists? <==> EmailPresent(old(db.users), request.email)
    ensures r.EntityExists? ==> r.message == EMAIL_TAKEN_PREFIX + request.email && db.users == old(db.users)
    ensures r.Created? ==>
      && db.users == Insert(old(db.users), NewCustomer(request, encode))
      && r.dto == GetUserDto(old(db.users).nextId, NewCustomer(request, encode))
  {
    if FindFirstByEmail(db.users, request.email).Some? {
      return EntityExists(EMAIL_TAKEN_PREFIX + request.email);
    }
    var id := db.users.nextId;
    var user := NewCustomer(request, encode);
    db.users := Insert(db.users, user);
    return Created(GetUserDto(id, user));
  }

  /** A successful sign-up makes the email taken, so the same request a second time is refused. */
  lemma {:induction false} SignupTakesTheEmail(users: Table<User>, request: SignupRequest, encode: string -> string)
    requires WellFormed(users)
    ensures EmailPresent(Insert(users, NewCustomer(request, encode)), request.email)
    ensures NewCustomer(request, encode).userRole == CUSTOMER
  {
    var after := Insert(users, NewCustomer(request, encode));
    assert after.rows[users.nextId].email == request.email;
  }

  /** The users table after start-up seeding. */
  function Seeded(users: Table<User>, encode: string -> string): (r: Table<User>)
    requires WellFormed(users)
    ensures WellFormed(r) && HasAdmin(r)
    ensures HasAdmin(users) ==> r == users
    ensures !HasAdmin(users) ==> r == Insert(users, User(ADMIN_EMAIL, ADMIN_NAME, encode(ADMIN_PASSWORD), ADMIN))
  {
    if HasAdmin(users) then users
    else
      var r := Insert(users, User(ADMIN_EMAIL, ADMIN_NAME, encode(ADMIN_PASSWORD), ADMIN));
      assert r.rows[users.nextId].userRole == ADMIN;
      r
  }

  /** Seeding twice is seeding once. */
  lemma SeedingIdempotent(users: Table<User>, encode: string -> string)
    requires WellFormed(users)
    ensures Seeded(Seeded(users, encode), encode) == Seeded(users, encode)
  {
  }

  /** Seeding never touches an existing row. */
  lemma SeedingKeepsUsers(users: Table<User>, encode: string -> string, id: int)
    requires WellFormed(users) && id in users.rows
    ensures id in Seeded(users, encode).rows && Seeded(users, encode).rows[id] == users.rows[id]
  {
  }

  /** `createAnAdminAccount`: adds admin@test.com / "Admin" with role ADMIN only when no ADMIN exists. */
  method CreateAnAdminAccount(db: Database, encode: string -> string)
    requires db.Valid()
    modifies db`users
    ensures db.Valid()
    ensures db.users == Seeded(old(db.users), encode)
  {
    if !HasAdmin(db.users) {
      db.users := Insert(db.users, User(ADMIN_EMAIL, ADMIN_NAME, encode(ADMIN_PASSWORD), ADMIN));
    }
  }
}
