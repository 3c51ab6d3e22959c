/**
 * The admin rooms page: the room list from the server, a search box over
 * room name and description, and deletion after a confirmation.
 *
 * The page reads a `description` that the server's room records never carry;
 * a room without one makes the search callback throw a TypeError as soon as
 * its name does not match, which the model keeps as an explicit outcome.
 */
module AdminRoomsFilter {
  import opened Wrappers
  import opened Text
  import opened Filtering

  /** A room row as the page reads it; `description` is absent in what the server sends. */
  datatype RoomRow = RoomRow(id: string, name: string, description: Option<string>)

  /**
   * The search callback on one room: true when the lowercased name contains
   * the lowercased query, else the description's verdict; `None` when the
   * description has to be read and is absent (the TypeError).
   */
  function RoomMatches(query: string, room: RoomRow): Option<bool> {
    if Includes(ToLower(room.name), ToLower(query)) then Some(true)
    else if room.description.None? then None
    else Some(Includes(ToLower(room.description.value), ToLower(query)))
  }

  /** The query is lowercased before the search, so it decides like its lower-case form. */
  lemma RoomMatchIgnoresQueryCase(query: string, room: RoomRow)
    ensures RoomMatches(ToLower(query), room) == RoomMatches(query, room)
  {
    ToLowerIdempotent(query);
  }

  /** `rooms.filter(callback)`: the rooms the callback accepts, or `None` once a call throws. */
  function SearchRooms(rooms: seq<RoomRow>, query: string): Option<seq<RoomRow>> {
    if rooms == [] then Some([])
    else match RoomMatches(query, rooms[0])
      case None => None
      case Some(keep) =>
        match SearchRooms(rooms[1..], query)
        case None => None
        case Some(rest) => Some(if keep then [rooms[0]] + rest else rest)
  }

  /** The filtering effect: a blank query shows every room, any other runs the search. */
  function FilterRooms(rooms: seq<RoomRow>, searchQuery: string): Option<seq<RoomRow>> {
    if Trim(searchQuery) == "" then Some(rooms) else SearchRooms(rooms, searchQuery)
  }

  /** A query of white space only shows all rooms. */
  lemma BlankQueryShowsAll(rooms: seq<RoomRow>, query: string)
    requires AllSpace(query)
    ensures FilterRooms(rooms, query) == Some(rooms)
  {
    TrimEmptyIffAllSpace(query);
  }

  /**
   * A search that completes shows, in their original order, exactly the rooms
   * whose name or description contains the query.
   */
  lemma {:induction false} SearchRoomsResult(rooms: seq<RoomRow>, query: string)
    requires SearchRooms(rooms, query).Some?
    ensures SubsequenceOf(SearchRooms(rooms, query).value, rooms)
    ensures forall room :: room in SearchRooms(rooms, query).value <==>
      room in rooms && RoomMatches(query, room) == Some(true)
  {
    if rooms != [] {
      SearchRoomsResult(rooms[1..], query);
      var rest := SearchRooms(rooms[1..], query).value;
      if RoomMatches(query, rooms[0]) == Some(false) {
        assert SubsequenceOf(rest, rooms);
      }
    }
  }

  /** The search throws exactly when some room's name misses the query and the room has no description. */
  lemma {:induction false} SearchRoomsThrows(rooms: seq<RoomRow>, query: string)
    ensures SearchRooms(rooms, query).None? <==>
      exists k :: 0 <= k < |rooms| && RoomMatches(query, rooms[k]).None?
  {
    if rooms != [] {
      SearchRoomsThrows(rooms[1..], query);
      if SearchRooms(rooms[1..], query).None? {
        var k :| 0 <= k < |rooms[1..]| && RoomMatches(query, rooms[1..][k]).None?;
        assert RoomMatches(query, rooms[k + 1]).None?;
      }
      if exists k :: 0 <= k < |rooms| && RoomMatches(query, rooms[k]).None? {
        var k :| 0 <= k < |rooms| && RoomMatches(query, rooms[k]).None?;
        if k > 0 {
          assert RoomMatches(query, rooms[1..][k - 1]).None?;
        }
      }
    }
  }

  /** What a successful delete leaves: every room except those with that id, in order. */
  function WithoutRoom(rooms: seq<RoomRow>, roomId: string): (r: seq<RoomRow>)
    ensures SubsequenceOf(r, rooms)
    ensures forall room :: room in r <==> room in rooms && room.id != roomId
  {
    Filter(rooms, (room: RoomRow) => room.id != roomId)
  }
}

module AdminRoomsPage {
  import opened Wrappers
  import opened ClientTypes
  import opened AdminRoomsFilter
  import Api

  const LOAD_FAILED := Toast("Error", "Failed to load rooms. Please try again.", true)
  const DELETED := Toast("Room deleted", "The room has been deleted successfully.", false)
  const DELETE_FAILED := Toast("Error", "Failed to delete room. Please try again.", true)

  class RoomsPage {
    var rooms: seq<RoomRow>
    var filtered: seq<RoomRow>
    var searchQuery: string
    var loading: bool
    /** The filtering effect has thrown and the page no longer renders. */
    var crashed: bool
    var toasts: seq<Toast>
    var requests: seq<Api.Call>

    /** Until the page crashes, the shown rooms follow from the rooms and the query. */
    predicate Valid()
      reads this
    {
      !crashed ==> FilterRooms(rooms, searchQuery) == Some(filtered)
    }

    constructor()
      ensures Valid()
      ensures rooms == [] && filtered == [] && searchQuery == "" && loading && !crashed
      ensures toasts == [] && requests == []
    {
      rooms := [];
      filtered := [];
      searchQuery := "";
      loading := true;
      crashed := false;
      toasts := [];
      requests := [];
      assert SearchRooms([], "") == Some([]);
    }

    /** The filtering effect, run whenever the rooms or the query change. */
    method ApplyFilters()
      modifies this`filtered, this`crashed
      ensures Valid()
      ensures crashed <==> old(crashed) || FilterRooms(rooms, searchQuery).None?
      ensures FilterRooms(rooms, searchQuery).None? ==> filtered == old(filtered)
    {
      var shown := FilterRooms(rooms, searchQuery);
      crashed := crashed || shown.None?;
      if shown.Some? {
        filtered := shown.value;
      }
    }

    /** The mount effect: one request for all rooms; failure keeps the empty list and shows an error. */
    method FetchRooms(reply: Outcome<seq<RoomRow>>)
      modifies this`rooms, this`filtered, this`crashed, this`loading, this`toasts, this`requests
      ensures Valid()
      ensures requests == old(requests) + [Api.GetAllRooms]
      ensures reply.Resolved? ==> rooms == reply.value && toasts == old(toasts)
      ensures reply.Rejected? ==> rooms == old(rooms) && toasts == old(toasts) + [LOAD_FAILED]
      ensures crashed <==> old(crashed) || FilterRooms(rooms, searchQuery).None?
      ensures !loading
    {
      requests := requests + [Api.GetAllRooms];
      if reply.Resolved? {
        rooms := reply.value;
        filtered := reply.value;
      } else {
        toasts := toasts + [LOAD_FAILED];
      }
      ApplyFilters();
      loading := false;
    }

    /** Typing in the search box; the filtering effect follows. */
    method SetSearchQuery(query: string)
      modifies this`searchQuery, this`filtered, this`crashed
      ensures Valid()
      ensures searchQuery == query
      ensures crashed <==> old(crashed) || FilterRooms(rooms, query).None?
    {
      searchQuery := query;
      ApplyFilters();
    }

    /**
     * `handleDeleteRoom`: nothing happens unless the confirmation returns true;
     * a successful delete drops exactly the rooms with that id; a failed one
     * keeps the list and shows an error.
     */
    method HandleDeleteRoom(roomId: string, confirmed: bool, outcome: Outcome<()>)
      modifies this`rooms, this`filtered, this`crashed, this`toasts, this`requests
      requires Valid()
      ensures Valid()
      ensures !confirmed ==> rooms == old(rooms) && toasts == old(toasts) && requests == old(requests)
      ensures confirmed ==> requests == old(requests) + [Api.DeleteRoom(roomId)]
      ensures confirmed && outcome.Resolved? ==>
        rooms == WithoutRoom(old(rooms), roomId) && toasts == old(toasts) + [DELETED]
      ensures confirmed && outcome.Rejected? ==>
        rooms == old(rooms) && toasts == old(toasts) + [DELETE_FAILED]
      ensures crashed <==> old(crashed) || FilterRooms(rooms, searchQuery).None?
      ensures !(confirmed && outcome.Resolved?) ==> filtered == old(filtered) && crashed == old(crashed)
    {
      if !confirmed {
        return;
      }
      requests := requests + [Api.DeleteRoom(roomId)];
      if outcome.Resolved? {
        rooms := WithoutRoom(rooms, roomId);
        ApplyFilters();
        toasts := toasts + [DELETED];
      } else {
        toasts := toasts + [DELETE_FAILED];
      }
    }
  }
}
