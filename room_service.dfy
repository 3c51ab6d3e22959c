/** `RoomServiceImpl`: the customer's catalogue of available rooms, six to a page. */
module RoomService {
  import opened Wrappers
  import opened Entities
  import opened Repositories
  import Filtering
  import Paging

  const PAGE_SIZE: nat := 6

  datatype RoomsResponseDto = RoomsResponseDto(roomDtoList: seq<RoomDto>, totalPages: int, pageNumber: int)

  /** `findByAvailable(true)`: the stored rooms that are available, in storage order. */
  function AvailableRooms(rooms: Table<Room>): (r: seq<(int, Room)>)
    requires WellFormed(rooms)
    ensures forall k :: 0 <= k < |r| ==> r[k].0 in rooms.rows && r[k].1 == rooms.rows[r[k].0] && r[k].1.available
    ensures forall id :: id in rooms.rows && rooms.rows[id].available ==> (id, rooms.rows[id]) in r
  {
    var r := Filtering.Filter(Rows(rooms), (e: (int, Room)) => e.1.available);
    assert forall k :: 0 <= k < |r| ==> r[k] in Rows(rooms) && r[k].1.available by {
      forall k | 0 <= k < |r| ensures r[k] in Rows(rooms) && r[k].1.available {
        assert r[k] in r;
      }
    }
    r
  }

  /**
   * `getAvailableRooms(pageNumber)`: page `pageNumber` of the available rooms,
   * projected through `getRoomDto` in order; the page count is over the
   * available rooms only. A negative page makes `PageRequest.of` throw.
   */
  function GetAvailableRooms(rooms: Table<Room>, pageNumber: int): (r: Option<RoomsResponseDto>)
    requires WellFormed(rooms)
    ensures r.None? <==> pageNumber < 0
    ensures r.Some? ==>
      && r.value.pageNumber == pageNumber
      && r.value.totalPages == Paging.TotalPages(|AvailableRooms(rooms)|, PAGE_SIZE)
      && |r.value.roomDtoList| <= PAGE_SIZE
    ensures r.Some? ==> forall i :: 0 <= i < |r.value.roomDtoList| ==>
      && pageNumber * PAGE_SIZE + i < |AvailableRooms(rooms)|
      && var e := AvailableRooms(rooms)[pageNumber * PAGE_SIZE + i];
         r.value.roomDtoList[i] == GetRoomDto(e.0, e.1)
  {
    if pageNumber < 0 then None
    else
      var available := AvailableRooms(rooms);
      var page := Paging.PageOf(available, pageNumber, PAGE_SIZE);
      Some(RoomsResponseDto(
        seq(|page|, i requires 0 <= i < |page| => GetRoomDto(page[i].0, page[i].1)),
        Paging.TotalPages(|available|, PAGE_SIZE),
        pageNumber))
  }

  /** No page ever lists a room that is not available. */
  lemma OnlyAvailableListed(rooms: Table<Room>, pageNumber: int, i: nat)
    requires WellFormed(rooms)
    requires var r := GetAvailableRooms(rooms, pageNumber); r.Some? && i < |r.value.roomDtoList|
    ensures var d := GetAvailableRooms(rooms, pageNumber).value.roomDtoList[i];
      d.available && d.id in rooms.rows && rooms.rows[d.id] == RoomOf(d)
  {
    var e := AvailableRooms(rooms)[pageNumber * PAGE_SIZE + i];
    assert GetAvailableRooms(rooms, pageNumber).value.roomDtoList[i] == GetRoomDto(e.0, e.1);
  }

  /** Every available room is listed: the `k`-th available lies at place `k % 6` of page `k / 6`. */
  lemma {:induction false} EveryAvailableRoomListed(rooms: Table<Room>, k: nat)
    requires WellFormed(rooms) && k < |AvailableRooms(rooms)|
    ensures var r := GetAvailableRooms(rooms, k / PAGE_SIZE);
      && r.Some?
      && k % PAGE_SIZE < |r.value.roomDtoList|
      && var e := AvailableRooms(rooms)[k];
         r.value.roomDtoList[k % PAGE_SIZE] == GetRoomDto(e.0, e.1)
  {
    Paging.RowOnItsPage(AvailableRooms(rooms), k, PAGE_SIZE);
    assert (k / PAGE_SIZE) * PAGE_SIZE + k % PAGE_SIZE == k;
  }
}
