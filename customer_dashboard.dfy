/**
 * The customer dashboard: the first page of the signed-in customer's
 * bookings, the figures computed from it, the next approved stay and the
 * three latest entries.
 */
module CustomerDashboard {
  import opened Wrappers
  import opened ClientTypes
  import opened Filtering
  import opened BookingStats
  import Paging
  import Api

  /** `totalElements || 0`. */
  function TotalBookings(data: Option<PaginatedResponse<Booking>>): int {
    if data.Some? then data.value.totalElements else 0
  }

  /** The "APPROVED" rows of the current page. */
  function ConfirmedBookings(data: Option<PaginatedResponse<Booking>>): nat {
    if data.Some? then |WithStatus(data.value.content, "APPROVED")| else 0
  }

  /** The "PENDING" rows of the current page. */
  function PendingBookings(data: Option<PaginatedResponse<Booking>>): nat {
    if data.Some? then |WithStatus(data.value.content, "PENDING")| else 0
  }

  /** The sum of `totalPrice` over the current page. */
  function TotalSpent(data: Option<PaginatedResponse<Booking>>): int {
    if data.Some? then TotalPrice(data.value.content) else 0
  }

  /** Confirmed and pending bookings together never exceed the rows on the page. */
  lemma CountsFitThePage(data: Option<PaginatedResponse<Booking>>)
    ensures ConfirmedBookings(data) + PendingBookings(data) <= if data.Some? then |data.value.content| else 0
  {
    if data.Some? {
      TwoStatusesFit(data.value.content, "APPROVED", "PENDING");
    }
  }

  /**
   * The position of the first booking with the earliest check-in: what a
   * stable sort by check-in puts first.
   */
  function Earliest(bookings: seq<Booking>): (r: Option<nat>)
    ensures r.None? <==> bookings == []
    ensures r.Some? ==> r.value < |bookings|
    ensures r.Some? ==> forall j :: 0 <= j < |bookings| ==> bookings[r.value].checkIn <= bookings[j].checkIn
    ensures r.Some? ==> forall j :: 0 <= j < r.value ==> bookings[j].checkIn > bookings[r.value].checkIn
  {
    if bookings == [] then None
    else match Earliest(bookings[1..])
      case None => Some(0)
      case Some(k) => if bookings[k + 1].checkIn < bookings[0].checkIn then Some(k + 1) else Some(0)
  }

  /** A booking that counts as upcoming: approved, with check-in strictly after now. */
  predicate IsUpcoming(b: Booking, now: int) {
    b.status == "APPROVED" && b.checkIn > now
  }

  /** `upcomingBooking`: the upcoming booking with the earliest check-in, first in page order among ties. */
  function UpcomingBooking(data: Option<PaginatedResponse<Booking>>, now: int): (r: Option<Booking>)
    ensures r.Some? ==> data.Some? && r.value in data.value.content && IsUpcoming(r.value, now)
    ensures r.Some? ==> forall b :: b in data.value.content && IsUpcoming(b, now) ==> r.value.checkIn <= b.checkIn
    ensures r.None? <==> data.None? || forall b :: b in data.value.content ==> !IsUpcoming(b, now)
  {
    if data.None? then None
    else
      var candidates := Filter(data.value.content, (b: Booking) => IsUpcoming(b, now));
      match Earliest(candidates)
      case None => None
      case Some(k) => Some(candidates[k])
  }

  /** The "latest reservations" list: the first three entries of the page, in order. */
  function Recent(data: Option<PaginatedResponse<Booking>>): (r: seq<Booking>)
    ensures data.None? ==> r == []
    ensures data.Some? ==> |r| == Paging.Min(3, |data.value.content|) && r == data.value.content[..|r|]
  {
    if data.Some? then Take(data.value.content, 3) else []
  }

  const LOAD_FAILED := Toast("Error", "Failed to load your bookings. Please try again.", true)

  class Dashboard {
    var data: Option<PaginatedResponse<Booking>>
    var loading: bool
    var toasts: seq<Toast>
    var requests: seq<Api.Call>

    constructor()
      ensures data.None? && loading && toasts == [] && requests == []
    {
      data := None;
      loading := true;
      toasts := [];
      requests := [];
    }

    /**
     * The fetch effect, run when the user changes: with no user nothing is
     * requested and loading stays as it is; with one, page 0 is requested and
     * loading ends whatever the reply.
     */
    method FetchRecentBookings(user: Option<User>, reply: Outcome<PaginatedResponse<Booking>>)
      modifies this
      ensures user.None? ==>
        data == old(data) && loading == old(loading) && toasts == old(toasts) && requests == old(requests)
      ensures user.Some? ==> requests == old(requests) + [Api.GetUserBookings(0)] && !loading
      ensures user.Some? && reply.Resolved? ==> data == Some(reply.value) && toasts == old(toasts)
      ensures user.Some? && reply.Rejected? ==> data == old(data) && toasts == old(toasts) + [LOAD_FAILED]
    {
      if user.None? {
        return;
      }
      requests := requests + [Api.GetUserBookings(0)];
      if reply.Resolved? {
        data := Some(reply.value);
      } else {
        toasts := toasts + [LOAD_FAILED];
      }
      loading := false;
    }
  }

  /** Without a signed-in user the dashboard never leaves its loading state. */
  method NoUserKeepsLoading(reply: Outcome<PaginatedResponse<Booking>>) returns (d: Dashboard)
    ensures d.loading && d.requests == []
  {
    d := new Dashboard();
    d.FetchRecentBookings(None, reply);
  }
}
