/**
 * The web client's API module: the base URL, the request every API function
 * sends (method, URL, headers, body, credentials mode), the query string of
 * the available-rooms search and the rule that turns a response into data or
 * an error message.
 */
module Api {
  import opened Wrappers
  import opened Text
  import JsNumber

  /** The base URL used when `NEXT_PUBLIC_API_URL` is unset or empty. */
  const DEFAULT_BASE_URL := "http://localhost:9091/api"

  /** The message thrown when a failed response carries no usable message of its own. */
  const DEFAULT_ERROR := "An error occurred while fetching data"

  /** `process.env.NEXT_PUBLIC_API_URL || DEFAULT_BASE_URL`. */
  function BaseUrl(env: Option<string>): (url: string)
    ensures env.Some? && env.value != "" ==> url == env.value
    ensures env.None? || env.value == "" ==> url == DEFAULT_BASE_URL
    ensures url != ""
  {
    if env.Some? && env.value != "" then env.value else DEFAULT_BASE_URL
  }

  /** The JSON values the client puts in request bodies. */
  datatype Json =
    | JString(s: string)
    | JNumber(n: JsNumber.Number)
    | JBool(b: bool)
    | JObject(members: seq<(string, Json)>)

  /** The optional filters of the available-rooms search. */
  datatype RoomQuery = RoomQuery(checkIn: Option<string>, checkOut: Option<string>, price: Option<int>)

  /** Every function the API module exports, with its arguments. */
  datatype Call =
    | Login(email: string, password: string)
    | Register(userData: Json)
    | Logout
    | GetAvailableRooms(params: Option<RoomQuery>)
    | CreateBooking(bookingData: Json)
    | GetUserBookings(pageNumber: int)
    | GetAllReservations(pageIndex: Option<int>)
    | UpdateReservationStatus(id: string, status: string)
    | GetAllRooms
    | GetRoomById(roomId: string)
    | CreateRoom(roomData: Json)
    | UpdateRoom(id: string, roomData: Json)
    | DeleteRoom(id: string)

  /** What `fetch` is asked to send. A missing method is GET. */
  datatype Request = Request(
    verb: string,
    url: string,
    headers: map<string, string>,
    body: Option<Json>,
    credentials: string)

  /** A value is appended to the query only when it is truthy: present and not '' or 0. */
  function Present(key: string, value: Option<string>): seq<(string, string)> {
    if value.Some? && value.value != "" then [(key, value.value)] else []
  }

  /** The rank of a query key in the order the search appends them. */
  function KeyRank(key: string): int {
    if key == "checkIn" then 0 else if key == "checkOut" then 1 else 2
  }

  /**
   * The query pairs of the available-rooms search. It holds at most one pair
   * per key, keys in the order check-in, check-out, price, and the price goes
   * under the key "capacity"; `QueryPairsSendTruthy` says which pairs are sent.
   */
  function QueryPairs(params: Option<RoomQuery>): (pairs: seq<(string, string)>)
    ensures |pairs| <= 3
    ensures forall i, j :: 0 <= i < j < |pairs| ==> KeyRank(pairs[i].0) < KeyRank(pairs[j].0)
    ensures forall i :: 0 <= i < |pairs| ==> pairs[i].0 in ["checkIn", "checkOut", "capacity"]
    ensures params.None? ==> pairs == []
    ensures forall i :: 0 <= i < |pairs| && pairs[i].0 == "capacity" ==>
      params.Some? && params.value.price.Some? && pairs[i].1 == IntToDecimal(params.value.price.value)
  {
    match params
    case None => []
    case Some(q) =>
      assert "checkIn"[5] != "checkOut"[5] && "capacity"[1] != "checkIn"[1] && "capacity"[1] != "checkOut"[1];
      Present("checkIn", q.checkIn)
        + Present("checkOut", q.checkOut)
        + (if q.price.Some? && q.price.value != 0 then [("capacity", IntToDecimal(q.price.value))] else [])
  }

  /** A search filter is sent exactly when it is truthy: a non-empty date, a non-zero price. */
  lemma QueryPairsSendTruthy(q: RoomQuery)
    ensures (exists v :: ("checkIn", v) in QueryPairs(Some(q))) <==> q.checkIn.Some? && q.checkIn.value != ""
    ensures (exists v :: ("checkOut", v) in QueryPairs(Some(q))) <==> q.checkOut.Some? && q.checkOut.value != ""
    ensures (exists v :: ("capacity", v) in QueryPairs(Some(q))) <==> q.price.Some? && q.price.value != 0
  {
    var a := Present("checkIn", q.checkIn);
    var b := Present("checkOut", q.checkOut);
    var c := if q.price.Some? && q.price.value != 0 then [("capacity", IntToDecimal(q.price.value))] else [];
    var pairs := QueryPairs(Some(q));
    assert pairs == a + b + c;
    assert "checkIn"[5] != "checkOut"[5] && "capacity"[1] != "checkIn"[1] && "capacity"[1] != "checkOut"[1];
    forall v ensures ("checkIn", v) in pairs <==> ("checkIn", v) in a {
    }
    forall v ensures ("checkOut", v) in pairs <==> ("checkOut", v) in b {
    }
    forall v ensures ("capacity", v) in pairs <==> ("capacity", v) in c {
    }
    if q.checkIn.Some? && q.checkIn.value != "" {
      assert ("checkIn", q.checkIn.value) in a;
    }
    if q.checkOut.Some? && q.checkOut.value != "" {
      assert ("checkOut", q.checkOut.value) in b;
    }
    if q.price.Some? && q.price.value != 0 {
      assert ("capacity", IntToDecimal(q.price.value)) in c;
    }
  }

  /** `URLSearchParams.toString()`: `key=value` pairs joined by '&'. */
  function Serialize(pairs: seq<(string, string)>): string {
    if pairs == [] then ""
    else if |pairs| == 1 then pairs[0].0 + "=" + pairs[0].1
    else Serialize(pairs[..|pairs| - 1]) + "&" + pairs[|pairs| - 1].0 + "=" + pairs[|pairs| - 1].1
  }

  /** A page index interpolated into a path; a missing one prints as "undefined". */
  function PageText(n: Option<int>): string {
    if n.Some? then IntToDecimal(n.value) else "undefined"
  }

  /** The path after the base URL. */
  function Path(call: Call): string {
    match call
    case Login(_, _) => "/auth/login"
    case Register(_) => "/auth/register"
    case Logout => "/auth/logout"
    case GetAvailableRooms(params) => "/rooms/available?" + Serialize(QueryPairs(params))
    case CreateBooking(_) => "/book"
    case GetUserBookings(n) => "/bookings/{userId}/" + IntToDecimal(n)
    case GetAllReservations(n) => "/admin/reservations/" + PageText(n)
    case UpdateReservationStatus(id, _) => "/admin/reservation/" + id + "/status"
    case GetAllRooms => "/admin/rooms"
    case GetRoomById(id) => "/admin/rooms/" + id
    case CreateRoom(_) => "/admin/rooms"
    case UpdateRoom(id, _) => "/admin/room/" + id
    case DeleteRoom(id) => "/admin/room/" + id
  }

  /** The HTTP method each API function passes to `fetch`; GET when it passes none. */
  function MethodOf(call: Call): string {
    match call
    case Login(_, _) => "POST"
    case Register(_) => "POST"
    case Logout => "POST"
    case CreateBooking(_) => "POST"
    case CreateRoom(_) => "POST"
    case UpdateReservationStatus(_, _) => "PATCH"
    case UpdateRoom(_, _) => "PUT"
    case DeleteRoom(_) => "DELETE"
    case _ => "GET"
  }

  /** The object each API function passes to `JSON.stringify` as its body, when it sends one. */
  function BodyOf(call: Call): Option<Json> {
    match call
    case Login(email, password) => Some(JObject([("email", JString(email)), ("password", JString(password))]))
    case Register(userData) => Some(userData)
    case CreateBooking(bookingData) => Some(bookingData)
    case UpdateReservationStatus(_, status) => Some(JObject([("status", JString(status))]))
    case CreateRoom(roomData) => Some(roomData)
    case UpdateRoom(_, roomData) => Some(roomData)
    case _ => None
  }

  /**
   * The request an API function sends. Every request goes to the base URL,
   * carries the browser's cookies and sets no Authorization header; a JSON
   * content type is declared exactly when there is a body.
   */
  function RequestFor(base: string, call: Call): (r: Request)
    ensures r.credentials == "include"
    ensures "Authorization" !in r.headers
    ensures StartsWith(r.url, base)
    ensures r.body.Some? ==> r.headers == map["Content-Type" := "application/json"]
    ensures r.body.None? ==> r.headers == map[]
    ensures r.body.Some? ==> r.verb != "GET" && r.verb != "DELETE"
    ensures r.verb == MethodOf(call) && r.url == base + Path(call) && r.body == BodyOf(call)
  {
    StartsWithConcat(base, Path(call));
    var body := BodyOf(call);
    Request(
      MethodOf(call),
      base + Path(call),
      if body.Some? then map["Content-Type" := "application/json"] else map[],
      body,
      "include")
  }

  /** Appending to a `URLSearchParams` object. */
  class QueryParams {
    var pairs: seq<(string, string)>

    constructor()
      ensures pairs == []
    {
      pairs := [];
    }

    method Append(key: string, value: string)
      modifies this
      ensures pairs == old(pairs) + [(key, value)]
    {
      pairs := pairs + [(key, value)];
    }
  }

  /** The three conditional appends of `getAvailableRooms`. */
  method BuildAvailableRoomsQuery(params: Option<RoomQuery>) returns (q: QueryParams)
    ensures fresh(q)
    ensures q.pairs == QueryPairs(params)
  {
    q := new QueryParams();
    if params.Some? && params.value.checkIn.Some? && params.value.checkIn.value != "" {
      q.Append("checkIn", params.value.checkIn.value);
    }
    if params.Some? && params.value.checkOut.Some? && params.value.checkOut.value != "" {
      q.Append("checkOut", params.value.checkOut.value);
    }
    if params.Some? && params.value.price.Some? && params.value.price.value != 0 {
      q.Append("capacity", IntToDecimal(params.value.price.value));
    }
  }

  /** A response body as `response.json()` sees it: not JSON, or JSON with an optional `message`. */
  datatype ResponseBody<T> = NotJson | Parsed(message: Option<string>, data: T)

  /** What `handleResponse` settles to. */
  datatype Handled<T> = Data(value: T) | Thrown(message: string) | ParseFailure

  /**
   * `handleResponse`: an ok response yields its parsed body, and fails when the
   * body is not JSON; a failed response throws the body's own non-empty message,
   * else the default message.
   */
  function HandleResponse<T>(ok: bool, body: ResponseBody<T>): (r: Handled<T>)
    ensures r.Data? <==> ok && body.Parsed?
    ensures r.Data? ==> r.value == body.data
    ensures r.ParseFailure? <==> ok && body.NotJson?
    ensures r.Thrown? <==> !ok
    ensures r.Thrown? ==> r.message != ""
    ensures r.Thrown? && body.Parsed? && body.message.Some? && body.message.value != "" ==>
      r.message == body.message.value
    ensures r.Thrown? && (body.NotJson? || body.message.None? || body.message.value == "") ==>
      r.message == DEFAULT_ERROR
  {
    if !ok then
      if body.Parsed? && body.message.Some? && body.message.value != "" then Thrown(body.message.value)
      else Thrown(DEFAULT_ERROR)
    else if body.Parsed? then Data(body.data)
    else ParseFailure
  }

  /**
   * The customer bookings path holds the literal text "{userId}" rather than an
   * id, so the request is the same whoever is signed in; different page
   * numbers still give different URLs.
   */
  lemma UserBookingsPath(base: string, m: int, n: int)
    ensures RequestFor(base, GetUserBookings(n)).url == base + "/bookings/{userId}/" + IntToDecimal(n)
    ensures RequestFor(base, GetUserBookings(m)).url == RequestFor(base, GetUserBookings(n)).url <==> m == n
  {
    var pm, pn := Path(GetUserBookings(m)), Path(GetUserBookings(n));
    assert RequestFor(base, GetUserBookings(m)).url == base + pm;
    assert RequestFor(base, GetUserBookings(n)).url == base + pn;
    if base + pm == base + pn {
      CancelPrefix(base, pm, pn);
      CancelPrefix("/bookings/{userId}/", IntToDecimal(m), IntToDecimal(n));
      IntDecimalInjective(m, n);
    }
  }

  lemma CancelPrefix(p: string, a: string, b: string)
    requires p + a == p + b
    ensures a == b
  {
    assert a == (p + a)[|p|..];
    assert b == (p + b)[|p|..];
  }

  /** A status change is a PATCH to `/admin/reservation/{id}/status` whose body is `{status}`. */
  lemma StatusUpdateRequest(base: string, id: string, status: string)
    ensures var r := RequestFor(base, UpdateReservationStatus(id, status));
      r.verb == "PATCH"
      && r.url == base + "/admin/reservation/" + id + "/status"
      && r.body == Some(JObject([("status", JString(status))]))
  {
  }

  /**
   * The reservations listing is paged by a path index, and a call without an
   * index asks for the page "undefined".
   */
  lemma ReservationsListingPath(base: string, n: int)
    ensures RequestFor(base, GetAllReservations(Some(n))).url == base + "/admin/reservations/" + IntToDecimal(n)
    ensures RequestFor(base, GetAllReservations(None)).url == base + "/admin/reservations/undefined"
    ensures RequestFor(base, GetAllReservations(None)).verb == "GET"
  {
    var paged, unpaged := GetAllReservations(Some(n)), GetAllReservations(None);
    assert Path(paged) == "/admin/reservations/" + IntToDecimal(n);
    assert base + Path(paged) == base + "/admin/reservations/" + IntToDecimal(n);
    assert Path(unpaged) == "/admin/reservations/undefined";
    assert MethodOf(unpaged) == "GET";
  }

  /** The admin rooms listing has no page index and shares its URL with room creation. */
  lemma RoomsListingPath(base: string, room: Json)
    ensures RequestFor(base, GetAllRooms).url == base + "/admin/rooms"
    ensures RequestFor(base, GetAllRooms).verb == "GET"
    ensures RequestFor(base, CreateRoom(room)).url == RequestFor(base, GetAllRooms).url
    ensures RequestFor(base, CreateRoom(room)).verb == "POST"
  {
  }

  /** Logging out and deleting a room send no body and so no content type. */
  lemma BodilessCalls(base: string, id: string)
    ensures RequestFor(base, Logout).body.None? && RequestFor(base, Logout).headers == map[]
    ensures RequestFor(base, DeleteRoom(id)).verb == "DELETE" && RequestFor(base, DeleteRoom(id)).body.None?
  {
  }
}
