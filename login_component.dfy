/**
 * `LoginComponent.submitForm` of the Angular client
 * (HotelWeb/src/app/auth/components/login/login.component.ts), with the form's
 * two validators: `Validators.required` on both fields and Angular's
 * `Validators.email` on the email field.
 */
module LoginComponent {
  import opened Wrappers
  import opened UserStorage

  // ---------------------------------------------------------------- Angular's email validator

  /**
   * The characters allowed in the local part by Angular's email pattern, besides
   * the dot: letters, digits and the symbols !#$%&'*+-/=?^_`{|}~, written as
   * the code ranges they occupy.
   */
  predicate IsAtext(c: char) {
    || ('a' <= c <= 'z') || ('A' <= c <= 'Z') || ('0' <= c <= '9')
    || c == '!' || ('#' <= c <= '\'') || c == '*' || c == '+' || c == '-' || c == '/'
    || c == '=' || c == '?' || ('^' <= c <= '`') || ('{' <= c <= '~')
  }

  predicate IsAlnum(c: char) {
    ('a' <= c <= 'z') || ('A' <= c <= 'Z') || ('0' <= c <= '9')
  }

  /** The position of the first `c` in `s`, or `|s|` when there is none. */
  function IndexOf(s: string, c: char): (k: nat)
    ensures k <= |s| && (k < |s| ==> s[k] == c)
    ensures forall i :: 0 <= i < k ==> s[i] != c
  {
    if s == [] then 0 else if s[0] == c then 0 else 1 + IndexOf(s[1..], c)
  }

  /** Non-empty runs of atext characters joined by single dots. */
  predicate IsDotAtom(s: string)
    decreases |s|
  {
    var k := IndexOf(s, '.');
    && k > 0
    && (forall i :: 0 <= i < k ==> IsAtext(s[i]))
    && (k < |s| ==> IsDotAtom(s[k + 1..]))
  }

  /** A domain label: 1 to 63 letters, digits and hyphens, beginning and ending with a letter or digit. */
  predicate IsLabel(s: string) {
    && 1 <= |s| <= 63
    && IsAlnum(s[0]) && IsAlnum(s[|s| - 1])
    && forall i :: 0 <= i < |s| ==> IsAlnum(s[i]) || s[i] == '-'
  }

  /** Labels joined by single dots. */
  predicate IsDomain(s: string)
    decreases |s|
  {
    var k := IndexOf(s, '.');
    IsLabel(s[..k]) && (k < |s| ==> IsDomain(s[k + 1..]))
  }

  /**
   * Angular's email pattern: at most 254 characters, a dot-atom local part of
   * 1 to 64 characters before the `@`, and a domain of labels after it.
   */
  predicate IsEmailAddress(s: string) {
    var at := IndexOf(s, '@');
    && |s| <= 254
    && 1 <= at <= 64 && at < |s|
    && IsDotAtom(s[..at])
    && IsDomain(s[at + 1..])
  }

  lemma AtextIsNotAt(c: char)
    requires IsAtext(c)
    ensures c != '@'
  {
  }

  /** A dot-atom is not empty and has no `@`. */
  lemma {:induction false} DotAtomHasNoAt(s: string)
    requires IsDotAtom(s)
    ensures |s| >= 1
    ensures forall i :: 0 <= i < |s| ==> s[i] != '@'
    decreases |s|
  {
    var k := IndexOf(s, '.');
    forall i | 0 <= i < k ensures s[i] != '@' {
      AtextIsNotAt(s[i]);
    }
    if k < |s| {
      var rest := s[k + 1..];
      DotAtomHasNoAt(rest);
      forall i | k < i < |s| ensures s[i] != '@' {
        assert s[i] == rest[i - k - 1];
      }
    }
  }

  /** A domain has no `@`. */
  lemma {:induction false} DomainHasNoAt(s: string)
    requires IsDomain(s)
    ensures forall i :: 0 <= i < |s| ==> s[i] != '@'
    decreases |s|
  {
    var k := IndexOf(s, '.');
    assert IsLabel(s[..k]);
    forall i | 0 <= i < k ensures s[i] != '@' {
      assert s[i] == s[..k][i];
    }
    if k < |s| {
      DomainHasNoAt(s[k + 1..]);
      forall i | k < i < |s| ensures s[i] != '@' {
        assert s[i] == s[k + 1..][i - k - 1];
      }
    }
  }

  /** A text with no `c` before a `c`: that `c` is the first one. */
  lemma IndexOfAfter(a: string, c: char, b: string)
    requires forall i :: 0 <= i < |a| ==> a[i] != c
    ensures IndexOf(a + [c] + b, c) == |a|
  {
    var s := a + [c] + b;
    assert s[|a|] == c;
    assert forall i :: 0 <= i < |a| ==> s[i] == a[i];
  }

  /**
   * The pattern's shape: a dot-atom of at most 64 characters, `@` and a
   * domain make an address, as long as the whole is at most 254 characters long.
   */
  lemma EmailShape(local: string, domain: string)
    requires IsDotAtom(local) && IsDomain(domain)
    requires |local| <= 64 && |local| + 1 + |domain| <= 254
    ensures IsEmailAddress(local + "@" + domain)
  {
    var s := local + "@" + domain;
    assert IndexOf(s, '@') == |local| >= 1 by {
      DotAtomHasNoAt(local);
      IndexOfAfter(local, '@', domain);
    }
    assert s[..|local|] == local;
    assert s[|local| + 1..] == domain;
  }

  /** Nothing after the position of a domain's start is an `@`. */
  lemma NoAtInDomain(s: string, at: nat)
    requires at < |s| && IsDomain(s[at + 1..])
    ensures forall i :: at < i < |s| ==> s[i] != '@'
  {
    var d := s[at + 1..];
    DomainHasNoAt(d);
    forall i | at < i < |s| ensures s[i] != '@' {
      assert s[i] == d[i - at - 1];
    }
  }

  /** An address holds exactly one `@`, between its local part and its domain. */
  lemma EmailHasOneAt(s: string)
    requires IsEmailAddress(s)
    ensures forall i :: 0 <= i < |s| && s[i] == '@' ==> i == IndexOf(s, '@')
  {
    NoAtInDomain(s, IndexOf(s, '@'));
  }

  /** An address without a local part, without `@`, or with a doubled dot fails the pattern. */
  lemma MalformedAddressesAreNotEmail()
    ensures !IsEmailAddress("@example.com")
    ensures !IsEmailAddress("admin")
    ensures !IsEmailAddress("a..b@c")
  {
    assert !IsEmailAddress("@example.com") by {
      assert IndexOf("@example.com", '@') == 0;
    }
    assert !IsEmailAddress("admin") by {
      assert IndexOf("admin", '@') == 5;
    }
    var s := "a..b@c";
    assert IndexOf(s, '@') == 4;
    assert s[..4] == "a..b" && "a..b"[2..] == ".b";
    assert !IsDotAtom("a..b") by {
      assert IndexOf("a..b", '.') == 1;
      assert IndexOf(".b", '.') == 0;
    }
  }

  /** The form's values. */
  datatype LoginForm = LoginForm(email: string, password: string)

  /** `loginForm.valid`: both fields required (non-empty), and the email well-formed. */
  predicate FormValid(form: LoginForm) {
    form.email != "" && IsEmailAddress(form.email) && form.password != ""
  }

  /** The login reply: `jwt`, `userId` (possibly null) and `userRole`. */
  datatype AuthenticationReply = AuthenticationReply(jwt: string, userId: Option<nat>, userRole: string)

  /** The reply of `authService.login`: `next` with a reply, or `error`. */
  datatype Subscription = Next(reply: AuthenticationReply) | Error

  /** A message shown by `NzMessageService.error`, with its duration in milliseconds. */
  datatype Message = Message(text: string, durationMs: int)

  /** The navigation the component chooses from what the storage reads after saving. */
  function NavigationFor(browser: bool, items: map<string, string>): seq<string> {
    if IsAdminLoggedIn(browser, items) == Some(true) then ["/admin/dashboard"]
    else if IsCustomerLoggedIn(browser, items) == Some(true) then ["/customer/rooms"]
    else []
  }

  /** The storage after the user and then the token were saved in a browser. */
  function SavedSession(items: map<string, string>, reply: AuthenticationReply): map<string, string>
    requires reply.userId.Some?
  {
    items[USER := EncodeUser(StoredUser(reply.userId.value, reply.userRole))][TOKEN := reply.jwt]
  }

  /**
   * After a successful save in a browser, role ADMIN goes to '/admin/dashboard',
   * CUSTOMER to '/customer/rooms' and any other role nowhere. Outside a browser
   * nothing is stored, so the role reads '' and there is no navigation.
   */
  lemma NavigationByRole(browser: bool, items: map<string, string>, reply: AuthenticationReply)
    requires reply.userId.Some?
    ensures var after := if browser then SavedSession(items, reply) else items;
      NavigationFor(browser, after)
      == if !browser then []
         else if reply.userRole == "ADMIN" then ["/admin/dashboard"]
         else if reply.userRole == "CUSTOMER" then ["/customer/rooms"]
         else []
  {
    if browser {
      var u := StoredUser(reply.userId.value, reply.userRole);
      var withUser := items[USER := EncodeUser(u)];
      SavedUserReadsBack(items, u);
      assert GetUser(true, SavedSession(items, reply)) == GetUser(true, withUser);
    }
  }

  class LoginComponent {
    const storage: UserStorageService
    /** Every `router.navigateByUrl` target so far, oldest first. */
    var navigations: seq<string>
    /** Every error message shown so far. */
    var messages: seq<Message>
    /** Every form value sent to `authService.login`. */
    var requests: seq<LoginForm>

    constructor (storage: UserStorageService)
      ensures this.storage == storage && navigations == [] && messages == [] && requests == []
    {
      this.storage := storage;
      navigations := [];
      messages := [];
      requests := [];
    }

    /**
     * `submitForm()`, given the answer the login call would produce. An invalid
     * form sends nothing. A reply with a null `userId` stores nothing and goes
     * nowhere; otherwise the user and then the token are saved and the role read
     * back from storage picks the navigation. An error shows "Bad credentials"
     * for 5000 ms and writes nothing.
     */
    method SubmitForm(form: LoginForm, answer: Subscription)
      modifies this`navigations, this`messages, this`requests, storage
      ensures !FormValid(form) ==>
                && requests == old(requests) && navigations == old(navigations) && messages == old(messages)
                && storage.items == old(storage.items) && storage.operations == old(storage.operations)
      ensures FormValid(form) ==> requests == old(requests) + [form]
      ensures FormValid(form) && answer.Error? ==>
                && messages == old(messages) + [Message("Bad credentials", 5000)]
                && navigations == old(navigations)
                && storage.items == old(storage.items) && storage.operations == old(storage.operations)
      ensures FormValid(form) && answer.Next? && answer.reply.userId.None? ==>
                && messages == old(messages) && navigations == old(navigations)
                && storage.items == old(storage.items) && storage.operations == old(storage.operations)
      ensures FormValid(form) && answer.Next? && answer.reply.userId.Some? ==>
                && messages == old(messages)
                && storage.items
                   == (if storage.browser then SavedSession(old(storage.items), answer.reply) else old(storage.items))
                && storage.operations == old(storage.operations)
                   + (if storage.browser then
                        var u := EncodeUser(StoredUser(answer.reply.userId.value, answer.reply.userRole));
                        [RemoveItem(USER), SetItem(USER, u), RemoveItem(TOKEN), SetItem(TOKEN, answer.reply.jwt)]
                      else [])
                && navigations == old(navigations) + NavigationFor(storage.browser, storage.items)
    {
      if !FormValid(form) {
        return;
      }
      requests := requests + [form];
      match answer
      case Error =>
        messages := messages + [Message("Bad credentials", 5000)];
      case Next(reply) =>
        if reply.userId.Some? {
          SaveAndNavigate(reply);
        }
    }

    /** The `next` handler for a reply with a user id: save the user, then the token, then navigate. */
    method SaveAndNavigate(reply: AuthenticationReply)
      requires reply.userId.Some?
      modifies this`navigations, storage
      ensures storage.items
              == (if storage.browser then SavedSession(old(storage.items), reply) else old(storage.items))
      ensures storage.operations == old(storage.operations)
              + (if storage.browser then
                   var u := EncodeUser(StoredUser(reply.userId.value, reply.userRole));
                   [RemoveItem(USER), SetItem(USER, u), RemoveItem(TOKEN), SetItem(TOKEN, reply.jwt)]
                 else [])
      ensures navigations == old(navigations) + NavigationFor(storage.browser, storage.items)
    {
      var u := StoredUser(reply.userId.value, reply.userRole);
      ghost var ops0 := storage.operations;
      storage.SaveUser(u);
      storage.SaveToken(reply.jwt);
      if storage.browser {
        assert storage.operations
               == ops0 + [RemoveItem(USER), SetItem(USER, EncodeUser(u))] + [RemoveItem(TOKEN), SetItem(TOKEN, reply.jwt)];
        assert [RemoveItem(USER), SetItem(USER, EncodeUser(u))] + [RemoveItem(TOKEN), SetItem(TOKEN, reply.jwt)]
               == [RemoveItem(USER), SetItem(USER, EncodeUser(u)), RemoveItem(TOKEN), SetItem(TOKEN, reply.jwt)];
      }
      NavigateByRole();
    }

    /** The role tests after saving: `isAdminLoggedIn`, then `isCustomerLoggedIn`, each read from storage. */
    method NavigateByRole()
      modifies this`navigations
      ensures navigations == old(navigations) + NavigationFor(storage.browser, storage.items)
    {
      if IsAdminLoggedIn(storage.browser, storage.items) == Some(true) {
        navigations := navigations + ["/admin/dashboard"];
      } else if IsCustomerLoggedIn(storage.browser, storage.items) == Some(true) {
        navigations := navigations + ["/customer/rooms"];
      }
    }
  }
}
