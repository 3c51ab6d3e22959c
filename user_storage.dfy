/**
 * `UserStorageService` of the Angular client
 * (HotelWeb/src/app/auth/services/storage/user-storage.service.ts): a token
 * under the key "token" and a JSON user `{id, role}` under the key "user" in
 * `window.localStorage`, with role predicates read back from the stored user.
 * Outside a browser there is no storage: every write is skipped and every read
 * gives the empty answer.
 */
module UserStorage {
  import opened Wrappers
  import opened Text

  const TOKEN := "token"
  const USER := "user"

  /** The user object the login form stores: the server's numeric id and the role text. */
  datatype StoredUser = StoredUser(id: nat, role: string)

  /** One call on `localStorage`. */
  datatype StorageOp = RemoveItem(key: string) | SetItem(key: string, value: string)

  // ---------------------------------------------------------------- JSON of a stored user

  /**
   * The body of a JSON string literal: quote and backslash escaped.
   * `JSON.stringify` also escapes control characters and lone surrogates;
   * the stored roles are the server's enum names, which contain neither.
   */
  function Escape(s: string): string {
    if s == [] then []
    else (if s[0] == '"' || s[0] == '\\' then ['\\', s[0]] else [s[0]]) + Escape(s[1..])
  }

  const ID_OPEN := "{\"id\":"
  const ROLE_OPEN := ",\"role\":\""

  /** `JSON.stringify({id, role})`. */
  function EncodeUser(u: StoredUser): string {
    ID_OPEN + NatToDecimal(u.id) + ROLE_OPEN + Escape(u.role) + "\"}"
  }

  /** Reads a string literal body up to its closing quote: the text and what follows the quote. */
  function Unescape(s: string): Option<(string, string)> {
    if s == [] then None
    else if s[0] == '"' then Some(([], s[1..]))
    else if s[0] == '\\' then
      if |s| >= 2 && (s[1] == '"' || s[1] == '\\') then
        match Unescape(s[2..])
        case None => None
        case Some(p) => Some(([s[1]] + p.0, p.1))
      else None
    else
      match Unescape(s[1..])
      case None => None
      case Some(p) => Some(([s[0]] + p.0, p.1))
  }

  /** `JSON.parse` of a text this service wrote; `None` for any other text. */
  function DecodeUser(t: string): Option<StoredUser> {
    if StartsWith(t, ID_OPEN) then DecodeId(t[|ID_OPEN|..]) else None
  }

  /** The id digits, then the role member. */
  function DecodeId(s: string): Option<StoredUser> {
    var n := LeadingDigits(s);
    if n == 0 then None else DecodeRole(DigitsValue(s[..n]), s[n..])
  }

  /** The role member and the closing brace. */
  function DecodeRole(id: nat, s: string): Option<StoredUser> {
    if !StartsWith(s, ROLE_OPEN) then None
    else match Unescape(s[|ROLE_OPEN|..])
      case None => None
      case Some(p) => if p.1 == "}" then Some(StoredUser(id, p.0)) else None
  }

  lemma {:induction false} UnescapeEscape(r: string, tail: string)
    ensures Unescape(Escape(r) + "\"" + tail) == Some((r, tail))
  {
    if r == [] {
      assert Escape(r) + "\"" + tail == "\"" + tail;
    } else {
      var rest := Escape(r[1..]) + "\"" + tail;
      UnescapeEscape(r[1..], tail);
      assert [r[0]] + r[1..] == r;
      if r[0] == '"' || r[0] == '\\' {
        assert Escape(r) + "\"" + tail == ['\\', r[0]] + rest;
        UnescapeEscaped(r[0], rest, (r[1..], tail));
      } else {
        assert Escape(r) + "\"" + tail == [r[0]] + rest;
        UnescapePlain(r[0], rest, (r[1..], tail));
      }
    }
  }

  /** An escaped quote or backslash reads as that character. */
  lemma UnescapeEscaped(c: char, rest: string, p: (string, string))
    requires c == '"' || c == '\\'
    requires Unescape(rest) == Some(p)
    ensures Unescape(['\\', c] + rest) == Some(([c] + p.0, p.1))
  {
    assert (['\\', c] + rest)[2..] == rest;
  }

  /** Any other character reads as itself. */
  lemma UnescapePlain(c: char, rest: string, p: (string, string))
    requires c != '"' && c != '\\'
    requires Unescape(rest) == Some(p)
    ensures Unescape([c] + rest) == Some(([c] + p.0, p.1))
  {
    assert ([c] + rest)[1..] == rest;
  }

  lemma {:induction false} LeadingDigitsOfDecimal(d: string, tail: string)
    requires AllDigits(d)
    requires tail == [] || !('0' <= tail[0] <= '9')
    ensures LeadingDigits(d + tail) == |d|
  {
    if d != [] {
      assert (d + tail)[1..] == d[1..] + tail;
      LeadingDigitsOfDecimal(d[1..], tail);
    }
  }

  /** Reading back a stored user gives the user that was stored. */
  lemma UserRoundTrip(u: StoredUser)
    ensures DecodeUser(EncodeUser(u)) == Some(u)
  {
    var d := NatToDecimal(u.id);
    var roleText := ROLE_OPEN + Escape(u.role) + "\"}";
    var t := EncodeUser(u);
    assert t == ID_OPEN + (d + roleText);
    assert StartsWith(t, ID_OPEN) && t[|ID_OPEN|..] == d + roleText;
    DecodeIdOf(d, roleText);
    DecimalRoundTrip(u.id);
    DecodeRoleOf(u.id, u.role);
  }

  lemma DecodeIdOf(d: string, roleText: string)
    requires d != [] && AllDigits(d)
    requires StartsWith(roleText, ROLE_OPEN)
    ensures DecodeId(d + roleText) == DecodeRole(DigitsValue(d), roleText)
  {
    assert roleText[0] == ROLE_OPEN[0];
    LeadingDigitsOfDecimal(d, roleText);
    assert (d + roleText)[..|d|] == d;
    assert (d + roleText)[|d|..] == roleText;
  }

  lemma DecodeRoleOf(id: nat, role: string)
    ensures DecodeRole(id, ROLE_OPEN + Escape(role) + "\"}") == Some(StoredUser(id, role))
  {
    var s := ROLE_OPEN + (Escape(role) + "\"" + "}");
    assert s == ROLE_OPEN + Escape(role) + "\"}";
    assert s[..|ROLE_OPEN|] == ROLE_OPEN;
    assert s[|ROLE_OPEN|..] == Escape(role) + "\"" + "}";
    UnescapeEscape(role, "}");
  }

  // ---------------------------------------------------------------- reads

  /** What `getUser` finds: nothing, a user this service wrote, or other text it does not interpret. */
  datatype UserRead = NoUser | Stored(user: StoredUser) | Foreign(text: string)

  /** `getToken()`: the stored token, or '' when there is none or no browser. */
  function GetToken(browser: bool, items: map<string, string>): string {
    if browser && TOKEN in items then items[TOKEN] else ""
  }

  /** `getUser()`: `null` (NoUser) when nothing is stored or there is no browser. */
  function GetUser(browser: bool, items: map<string, string>): UserRead {
    if !browser || USER !in items then NoUser
    else match DecodeUser(items[USER])
      case Some(u) => Stored(u)
      case None => Foreign(items[USER])
  }

  /**
   * `getUserId()`: '' without a user, else the id (numeric in the source; its
   * decimal text here). `None` for stored text the model does not interpret.
   */
  function GetUserId(browser: bool, items: map<string, string>): Option<string> {
    match GetUser(browser, items)
    case NoUser => Some("")
    case Stored(u) => Some(NatToDecimal(u.id))
    case Foreign(_) => None
  }

  /** `getUserRole()`: '' without a user, else the stored role. */
  function GetUserRole(browser: bool, items: map<string, string>): Option<string> {
    match GetUser(browser, items)
    case NoUser => Some("")
    case Stored(u) => Some(u.role)
    case Foreign(_) => None
  }

  /**
   * `isAdminLoggedIn()`. The source first tests `getToken() === null`, which
   * cannot hold because `getToken` always returns a string; the test is
   * therefore a no-op and the answer depends on the stored role only.
   */
  function IsAdminLoggedIn(browser: bool, items: map<string, string>): Option<bool> {
    match GetUserRole(browser, items)
    case Some(role) => Some(role == "ADMIN")
    case None => None
  }

  /** `isCustomerLoggedIn()`, with the same no-op token test. */
  function IsCustomerLoggedIn(browser: bool, items: map<string, string>): Option<bool> {
    match GetUserRole(browser, items)
    case Some(role) => Some(role == "CUSTOMER")
    case None => None
  }

  /** The role predicates hold exactly for the roles 'ADMIN' and 'CUSTOMER', and never both. */
  lemma RolePredicates(browser: bool, items: map<string, string>)
    ensures IsAdminLoggedIn(browser, items) == Some(true) <==> GetUserRole(browser, items) == Some("ADMIN")
    ensures IsCustomerLoggedIn(browser, items) == Some(true) <==> GetUserRole(browser, items) == Some("CUSTOMER")
    ensures !(IsAdminLoggedIn(browser, items) == Some(true) && IsCustomerLoggedIn(browser, items) == Some(true))
  {
  }

  /** Whether a token is stored has no effect on either role predicate. */
  lemma TokenDoesNotMatter(browser: bool, items: map<string, string>, token: string)
    ensures IsAdminLoggedIn(browser, items[TOKEN := token]) == IsAdminLoggedIn(browser, items - {TOKEN})
    ensures IsCustomerLoggedIn(browser, items[TOKEN := token]) == IsCustomerLoggedIn(browser, items - {TOKEN})
  {
    assert GetUser(browser, items[TOKEN := token]) == GetUser(browser, items - {TOKEN});
  }

  /** With no stored user there is no user, and the id and role read as ''. */
  lemma NoStoredUser(browser: bool, items: map<string, string>)
    requires !browser || USER !in items
    ensures GetUser(browser, items) == NoUser
    ensures GetUserId(browser, items) == Some("") && GetUserRole(browser, items) == Some("")
  {
  }

  /** In a browser, a saved user reads back with the same id and role. */
  lemma SavedUserReadsBack(items: map<string, string>, u: StoredUser)
    ensures GetUser(true, items[USER := EncodeUser(u)]) == Stored(u)
    ensures GetUserId(true, items[USER := EncodeUser(u)]) == Some(NatToDecimal(u.id))
    ensures GetUserRole(true, items[USER := EncodeUser(u)]) == Some(u.role)
  {
    UserRoundTrip(u);
  }

  // ---------------------------------------------------------------- writes

  /** The storage, and the calls made on it in order. `browser` is the service's `isBrowser()`. */
  class UserStorageService {
    const browser: bool
    var items: map<string, string>
    var operations: seq<StorageOp>

    constructor (browser: bool, items: map<string, string>)
      ensures this.browser == browser && this.items == (if browser then items else map[])
      ensures operations == []
    {
      this.browser := browser;
      this.items := if browser then items else map[];
      operations := [];
    }

    /** `saveToken(token)`: remove then set the "token" key; nothing outside a browser. */
    method SaveToken(token: string)
      modifies this
      ensures items == if browser then old(items)[TOKEN := token] else old(items)
      ensures operations == old(operations) + (if browser then [RemoveItem(TOKEN), SetItem(TOKEN, token)] else [])
      ensures browser ==> GetToken(browser, items) == token
    {
      if browser {
        items := items - {TOKEN};
        items := items[TOKEN := token];
        operations := operations + [RemoveItem(TOKEN), SetItem(TOKEN, token)];
      }
    }

    /** `saveUser(user)`: remove then set the "user" key to the user's JSON; nothing outside a browser. */
    method SaveUser(user: StoredUser)
      modifies this
      ensures items == if browser then old(items)[USER := EncodeUser(user)] else old(items)
      ensures operations
           == old(operations) + (if browser then [RemoveItem(USER), SetItem(USER, EncodeUser(user))] else [])
      ensures browser ==>
                GetUserRole(browser, items) == Some(user.role) && GetUserId(browser, items) == Some(NatToDecimal(user.id))
    {
      if browser {
        items := items - {USER};
        items := items[USER := EncodeUser(user)];
        operations := operations + [RemoveItem(USER), SetItem(USER, EncodeUser(user))];
        SavedUserReadsBack(old(items), user);
      }
    }

    /** `signOut()`: remove both keys; afterwards the token reads '' and there is no user. */
    method SignOut()
      modifies this
      ensures items == if browser then old(items) - {TOKEN, USER} else old(items)
      ensures operations == old(operations) + (if browser then [RemoveItem(TOKEN), RemoveItem(USER)] else [])
      ensures GetToken(browser, items) == "" && GetUser(browser, items) == NoUser
    {
      if browser {
        items := items - {TOKEN};
        items := items - {USER};
        operations := operations + [RemoveItem(TOKEN), RemoveItem(USER)];
      }
    }
  }
}
