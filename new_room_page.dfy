/**
 * The admin "Add New Room" form: its three checks, the payload it sends and
 * what a submission does.
 */
module NewRoomPage {
  import opened Text
  import opened ClientTypes
  import opened JsNumber
  import Api

  /** The form's text fields as typed. */
  datatype RoomForm = RoomForm(name: string, price: string, roomType: string)

  /** The outcome of the checks: the first error message, or the payload to send. */
  datatype Checked = Refused(message: string) | Accepted(payload: Api.Json)

  const NAME_REQUIRED := "Room name is required"
  const TYPE_REQUIRED := "Room type is required"
  const PRICE_NOT_POSITIVE := "Price must be greater than 0"

  /** The body sent to `createRoom`: the trimmed name, the parsed price and the trimmed type. */
  function Payload(form: RoomForm): Api.Json {
    Api.JObject([
      ("name", Api.JString(Trim(form.name))),
      ("price", Api.JNumber(ParseFloat(form.price))),
      ("type", Api.JString(Trim(form.roomType)))])
  }

  /** The checks in the order name, type, price; the first failure wins. */
  function Validate(form: RoomForm): Checked {
    if Trim(form.name) == "" then Refused(NAME_REQUIRED)
    else if Trim(form.roomType) == "" then Refused(TYPE_REQUIRED)
    else if form.price == "" || AtMostZero(ParseFloat(form.price)) then Refused(PRICE_NOT_POSITIVE)
    else Accepted(Payload(form))
  }

  /**
   * Which message a refused form gets: a blank name, else a blank type, else
   * an empty or non-positive price; and a form is accepted exactly when none
   * of these holds.
   */
  lemma ValidationOrder(form: RoomForm)
    ensures Validate(form) == Refused(NAME_REQUIRED) <==> AllSpace(form.name)
    ensures Validate(form) == Refused(TYPE_REQUIRED) <==> !AllSpace(form.name) && AllSpace(form.roomType)
    ensures Validate(form) == Refused(PRICE_NOT_POSITIVE) <==>
      !AllSpace(form.name) && !AllSpace(form.roomType) && (form.price == "" || AtMostZero(ParseFloat(form.price)))
    ensures Validate(form).Accepted? <==>
      !AllSpace(form.name) && !AllSpace(form.roomType) && form.price != "" && !AtMostZero(ParseFloat(form.price))
    ensures Validate(form).Accepted? ==> Validate(form).payload == Payload(form)
  {
    TrimEmptyIffAllSpace(form.name);
    TrimEmptyIffAllSpace(form.roomType);
  }

  /**
   * A price that does not start like a number is not caught: it parses to
   * NaN, which is not at most zero, and NaN is what the payload carries.
   */
  lemma UnparseablePriceIsAccepted(form: RoomForm)
    requires !AllSpace(form.name) && !AllSpace(form.roomType)
    requires form.price != [] && 'a' <= form.price[0] <= 'z'
    ensures Validate(form) == Accepted(Payload(form))
    ensures Payload(form).members[1] == ("price", Api.JNumber(NaN))
  {
    LetterStartIsNaN(form.price);
    ValidationOrder(form);
  }

  const CREATED := Toast("Success", "Room created successfully", false)

  function Failed(message: string): Toast {
    Toast("Error", message, true)
  }

  class NewRoom {
    var loading: bool
    var toasts: seq<Toast>
    var requests: seq<Api.Call>
    /** The targets of `router.replace`, in order. */
    var replacements: seq<string>

    constructor()
      ensures !loading && toasts == [] && requests == [] && replacements == []
    {
      loading := false;
      toasts := [];
      requests := [];
      replacements := [];
    }

    /**
     * `handleSubmit`: a refused form shows its message and calls nothing; an
     * accepted one posts the payload, and only when that succeeds shows the
     * success toast and replaces the route with the rooms list; a failed post
     * shows the error's message.
     */
    method HandleSubmit(form: RoomForm, reply: Outcome<()>)
      modifies this
      ensures !loading
      ensures SubmittedAs(Validate(form), reply, old(toasts), old(requests), old(replacements))
    {
      loading := true;
      var checked := Validate(form);
      Submit(checked, reply);
      loading := false;
    }

    /** What a submission leaves, given the checks' outcome and the reply to the post. */
    ghost predicate SubmittedAs(checked: Checked, reply: Outcome<()>, toasts0: seq<Toast>, requests0: seq<Api.Call>, replacements0: seq<string>)
      reads this
    {
      match checked
      case Refused(message) =>
        requests == requests0 && replacements == replacements0 && toasts == toasts0 + [Failed(message)]
      case Accepted(payload) =>
        requests == requests0 + [Api.CreateRoom(payload)]
        && (reply.Resolved? ==> toasts == toasts0 + [CREATED] && replacements == replacements0 + ["/admin/rooms"])
        && (reply.Rejected? ==> toasts == toasts0 + [Failed(reply.message)] && replacements == replacements0)
    }

    method Submit(checked: Checked, reply: Outcome<()>)
      modifies this`toasts, this`requests, this`replacements
      ensures SubmittedAs(checked, reply, old(toasts), old(requests), old(replacements))
    {
      if checked.Refused? {
        toasts := toasts + [Failed(checked.message)];
      } else {
        requests := requests + [Api.CreateRoom(checked.payload)];
        if reply.Resolved? {
          toasts := toasts + [CREATED];
          replacements := replacements + ["/admin/rooms"];
        } else {
          toasts := toasts + [Failed(reply.message)];
        }
      }
    }
  }
}
