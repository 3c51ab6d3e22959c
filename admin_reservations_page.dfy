/**
 * The admin reservations page: one page of reservations from the server,
 * narrowed by a status filter and a search box, with status changes and
 * previous/next paging. The filters are pure; the page state is a class.
 */
module AdminReservationsFilter {
  import opened Wrappers
  import opened Text
  import opened ClientTypes
  import opened Filtering

  /** The status filter: "all" passes every row, any other value exactly the rows with that status. */
  predicate StatusPasses(statusFilter: string, b: Booking) {
    statusFilter == "all" || b.status == statusFilter
  }

  /**
   * The search box: a query that is blank after trimming passes every row;
   * otherwise the lowercased, untrimmed query must occur in the lowercased
   * room name or reservation id.
   */
  predicate SearchPasses(query: string, b: Booking) {
    Trim(query) == ""
      || Includes(ToLower(b.roomName), ToLower(query))
      || Includes(ToLower(b.id), ToLower(query))
  }

  /** The query is lowercased before the search, so it passes the same rows as its lower-case form. */
  lemma SearchIgnoresQueryCase(query: string, b: Booking)
    ensures SearchPasses(ToLower(query), b) == SearchPasses(query, b)
  {
    ToLowerIdempotent(query);
    TrimEmptyIffAllSpace(query);
    TrimEmptyIffAllSpace(ToLower(query));
  }

  /** The rows the page shows: the status filter first, then the search when the query is not blank. */
  function FilterReservations(content: seq<Booking>, statusFilter: string, query: string): seq<Booking> {
    var byStatus := if statusFilter != "all" then Filter(content, (b: Booking) => StatusPasses(statusFilter, b)) else content;
    if Trim(query) != "" then Filter(byStatus, (b: Booking) => SearchPasses(query, b)) else byStatus
  }

  /** The shown rows are exactly the rows of the page's content that pass both filters. */
  lemma FilterReservationsMembers(content: seq<Booking>, statusFilter: string, query: string, b: Booking)
    ensures b in FilterReservations(content, statusFilter, query) <==>
      b in content && StatusPasses(statusFilter, b) && SearchPasses(query, b)
  {
  }

  /** The shown rows keep the order they have on the page. */
  lemma FilterReservationsKeepsOrder(content: seq<Booking>, statusFilter: string, query: string)
    ensures SubsequenceOf(FilterReservations(content, statusFilter, query), content)
  {
    var byStatus := if statusFilter != "all" then Filter(content, (b: Booking) => StatusPasses(statusFilter, b)) else content;
    SubsequenceReflexive(content);
    SubsequenceReflexive(byStatus);
    SubsequenceTransitive(FilterReservations(content, statusFilter, query), byStatus, content);
  }

  /** With the filter at "all" and an empty search box the page shows its whole content. */
  lemma NoFilterShowsAll(content: seq<Booking>, blank: string)
    requires AllSpace(blank)
    ensures FilterReservations(content, "all", blank) == content
  {
    TrimEmptyIffAllSpace(blank);
  }

  /** The rows on screen for the given data and filters: none before any data arrives. */
  function Shown(data: Option<PaginatedResponse<Booking>>, statusFilter: string, query: string): seq<Booking> {
    if data.Some? then FilterReservations(data.value.content, statusFilter, query) else []
  }
}

module AdminReservationsPage {
  import opened Wrappers
  import opened ClientTypes
  import opened AdminReservationsFilter
  import Api

  const LOAD_FAILED := Toast("Error", "Failed to load reservations. Please try again.", true)
  const UPDATE_FAILED := Toast("Error", "Failed to update reservation status. Please try again.", true)

  function StatusUpdated(newStatus: string): Toast {
    Toast("Status updated", "Reservation status has been updated to " + newStatus + ".", false)
  }

  /**
   * The calls `handleStatusChange` makes: the status update, then, only when
   * it succeeds, the refetch of the current page.
   */
  function StatusChangeCalls(reservationId: string, newStatus: string, update: Outcome<()>, currentPage: int): (r: seq<Api.Call>)
    ensures |r| == if update.Rejected? then 1 else 2
    ensures r[0] == Api.UpdateReservationStatus(reservationId, newStatus)
    ensures |r| == 2 ==> r[1] == Api.GetAllReservations(Some(currentPage))
  {
    if update.Rejected? then [Api.UpdateReservationStatus(reservationId, newStatus)]
    else [Api.UpdateReservationStatus(reservationId, newStatus), Api.GetAllReservations(Some(currentPage))]
  }

  /**
   * The page's state. The filtering effect runs whenever the data, the query or
   * the status filter changes, so the shown rows always follow from them.
   */
  class ReservationsPage {
    var data: Option<PaginatedResponse<Booking>>
    var filtered: seq<Booking>
    var searchQuery: string
    var statusFilter: string
    var loading: bool
    var currentPage: int
    var toasts: seq<Toast>
    /** The API calls the page has made, in order. */
    var requests: seq<Api.Call>

    /** The shown rows are the filtered content of the current data, and nothing before data arrives. */
    predicate Valid()
      reads this`filtered, this`data, this`statusFilter, this`searchQuery
    {
      filtered == Shown(data, statusFilter, searchQuery)
    }

    /** The page mounts on page 0, loading, with no filters. */
    constructor()
      ensures Valid()
      ensures data.None? && filtered == [] && searchQuery == "" && statusFilter == "all"
      ensures loading && currentPage == 0 && toasts == [] && requests == []
    {
      data := None;
      filtered := [];
      searchQuery := "";
      statusFilter := "all";
      loading := true;
      currentPage := 0;
      toasts := [];
      requests := [];
    }

    /** The filtering effect. */
    method ApplyFilters()
      modifies this`filtered
      requires data.None? ==> filtered == []
      ensures Valid()
    {
      if data.Some? {
        filtered := FilterReservations(data.value.content, statusFilter, searchQuery);
      }
    }

    /**
     * The fetch effect, run on mount and after every page change: requests the
     * current page; success replaces the data, failure keeps it and shows an
     * error; either way loading ends.
     */
    method FetchReservations(reply: Outcome<PaginatedResponse<Booking>>)
      modifies this`requests, this`toasts, this`data, this`filtered, this`loading
      requires Valid()
      ensures Valid()
      ensures requests == old(requests) + [Api.GetAllReservations(Some(currentPage))]
      ensures reply.Resolved? ==> data == Some(reply.value) && toasts == old(toasts)
      ensures reply.Rejected? ==> data == old(data) && toasts == old(toasts) + [LOAD_FAILED]
      ensures !loading
      ensures currentPage == old(currentPage) && searchQuery == old(searchQuery) && statusFilter == old(statusFilter)
    {
      requests := requests + [Api.GetAllReservations(Some(currentPage))];
      if reply.Resolved? {
        Receive(reply.value);
      } else {
        toasts := toasts + [LOAD_FAILED];
      }
      loading := false;
    }

    /** Typing in the search box; the filtering effect follows. */
    method SetSearchQuery(query: string)
      modifies this`searchQuery, this`filtered
      requires Valid()
      ensures Valid()
      ensures searchQuery == query
    {
      searchQuery := query;
      ApplyFilters();
    }

    /** Choosing a status in the filter; the filtering effect follows. */
    method SetStatusFilter(status: string)
      modifies this`statusFilter, this`filtered
      requires Valid()
      ensures Valid()
      ensures statusFilter == status
    {
      statusFilter := status;
      ApplyFilters();
    }

    /**
     * `handleStatusChange`: sends the update, and only when it succeeds
     * refetches the same page and reports the new status; any failure keeps
     * the data and shows an error.
     */
    method HandleStatusChange(
      reservationId: string,
      newStatus: string,
      update: Outcome<()>,
      refetch: Outcome<PaginatedResponse<Booking>>)
      modifies this`requests, this`toasts, this`data, this`filtered
      requires Valid()
      ensures Valid()
      ensures requests == old(requests) + StatusChangeCalls(reservationId, newStatus, update, currentPage)
      ensures update.Resolved? && refetch.Resolved? ==>
        data == Some(refetch.value) && toasts == old(toasts) + [StatusUpdated(newStatus)]
      ensures update.Rejected? || refetch.Rejected? ==>
        data == old(data) && toasts == old(toasts) + [UPDATE_FAILED]
      ensures currentPage == old(currentPage) && searchQuery == old(searchQuery) && statusFilter == old(statusFilter)
      ensures loading == old(loading)
    {
      Record(StatusChangeCalls(reservationId, newStatus, update, currentPage));
      if update.Rejected? {
        UpdateFailed();
      } else {
        Refetched(newStatus, refetch);
      }
    }

    /** The refetch after a successful update: new data and the new status reported, or an error toast. */
    method Refetched(newStatus: string, refetch: Outcome<PaginatedResponse<Booking>>)
      modifies this`toasts, this`data, this`filtered
      requires Valid()
      ensures Valid()
      ensures refetch.Resolved? ==> data == Some(refetch.value) && toasts == old(toasts) + [StatusUpdated(newStatus)]
      ensures refetch.Rejected? ==> data == old(data) && toasts == old(toasts) + [UPDATE_FAILED]
      ensures requests == old(requests) && currentPage == old(currentPage)
    {
      if refetch.Rejected? {
        UpdateFailed();
      } else {
        Receive(refetch.value);
        toasts := toasts + [StatusUpdated(newStatus)];
      }
    }

    /** The calls a handler makes, appended in order. */
    method Record(calls: seq<Api.Call>)
      modifies this`requests
      ensures requests == old(requests) + calls
    {
      requests := requests + calls;
    }

    /** The error toast of a failed status change; nothing else changes. */
    method UpdateFailed()
      modifies this`toasts
      ensures toasts == old(toasts) + [UPDATE_FAILED]
    {
      toasts := toasts + [UPDATE_FAILED];
    }

    /** `setReservationsData(data)`, followed by the filtering effect. */
    method Receive(page: PaginatedResponse<Booking>)
      modifies this`data, this`filtered
      ensures Valid() && data == Some(page)
      ensures requests == old(requests) && toasts == old(toasts) && currentPage == old(currentPage)
    {
      data := Some(page);
      filtered := FilterReservations(page.content, statusFilter, searchQuery);
    }

    /** Moves back one page unless the data says this is the first page; `moved` tells whether the fetch effect runs. */
    method HandlePreviousPage() returns (moved: bool)
      modifies this`currentPage
      ensures moved <==> data.Some? && !data.value.first
      ensures currentPage == if moved then old(currentPage) - 1 else old(currentPage)
    {
      moved := data.Some? && !data.value.first;
      if moved {
        currentPage := currentPage - 1;
      }
    }

    /** Moves on one page unless the data says this is the last page. */
    method HandleNextPage() returns (moved: bool)
      modifies this`currentPage
      ensures moved <==> data.Some? && !data.value.last
      ensures currentPage == if moved then old(currentPage) + 1 else old(currentPage)
    {
      moved := data.Some? && !data.value.last;
      if moved {
        currentPage := currentPage + 1;
      }
    }
  }
}
