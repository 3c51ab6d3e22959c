/**
 * `ReservationServiceImp`: the administrator's paged list of every
 * reservation and the approve/reject decision, which also takes the room
 * off the market.
 */
module ReservationService {
  import opened Wrappers
  import opened Entities
  import opened Repositories
  import Paging

  const SEARCH_RESULT_PER_PAGE: nat := 4

  datatype ReservationResponseDto = ReservationResponseDto(
    reservationDtoList: seq<ReservationDto>,
    totalPages: int,
    pageNumber: int)

  /** Every entry's room and user are stored. */
  predicate Resolvable(users: Table<User>, rooms: Table<Room>, entries: seq<(int, Reservation)>) {
    forall k :: 0 <= k < |entries| ==> entries[k].1.userId in users.rows && entries[k].1.roomId in rooms.rows
  }

  /** `getReservationDto` of a stored reservation, with its linked user and room. */
  function LinkedDto(users: Table<User>, rooms: Table<Room>, entry: (int, Reservation)): ReservationDto
    requires entry.1.userId in users.rows && entry.1.roomId in rooms.rows
  {
    GetReservationDto(entry.0, entry.1, users.rows[entry.1.userId], rooms.rows[entry.1.roomId])
  }

  /**
   * A query result of reservations read through `PageRequest.of(pageNumber, 4)`:
   * a negative page makes `PageRequest.of` throw (`None`); otherwise the page's
   * rows are projected in order, and the page number and page count are echoed.
   */
  function ReservationPage(users: Table<User>, rooms: Table<Room>, entries: seq<(int, Reservation)>, pageNumber: int)
    : (r: Option<ReservationResponseDto>)
    requires Resolvable(users, rooms, entries)
    ensures r.None? <==> pageNumber < 0
    ensures r.Some? ==>
      && r.value.pageNumber == pageNumber
      && r.value.totalPages == Paging.TotalPages(|entries|, SEARCH_RESULT_PER_PAGE)
      && |r.value.reservationDtoList| == |Paging.PageOf(entries, pageNumber, SEARCH_RESULT_PER_PAGE)|
      && |r.value.reservationDtoList| <= SEARCH_RESULT_PER_PAGE
    ensures r.Some? ==> forall i :: 0 <= i < |r.value.reservationDtoList| ==>
      && pageNumber * SEARCH_RESULT_PER_PAGE + i < |entries|
      && r.value.reservationDtoList[i] == LinkedDto(users, rooms, entries[pageNumber * SEARCH_RESULT_PER_PAGE + i])
  {
    if pageNumber < 0 then None
    else
      var page := Paging.PageOf(entries, pageNumber, SEARCH_RESULT_PER_PAGE);
      Some(ReservationResponseDto(
        seq(|page|, i requires 0 <= i < |page| => LinkedDto(users, rooms, page[i])),
        Paging.TotalPages(|entries|, SEARCH_RESULT_PER_PAGE),
        pageNumber))
  }

  /** The stored rows of a consistent database all resolve. */
  lemma StoredRowsResolve(db: Database)
    requires db.Valid()
    ensures Resolvable(db.users, db.rooms, Rows(db.reservations))
  {
  }

  /** `getAllReservations(pageNumber)`: page `pageNumber` of every reservation, in storage order. */
  function GetAllReservations(db: Database, pageNumber: int): (r: Option<ReservationResponseDto>)
    reads db
    requires db.Valid()
    ensures r.None? <==> pageNumber < 0
    ensures r.Some? ==> r.value.pageNumber == pageNumber
    ensures r.Some? ==> r.value.totalPages == Paging.TotalPages(|db.reservations.order|, SEARCH_RESULT_PER_PAGE)
  {
    StoredRowsResolve(db);
    ReservationPage(db.users, db.rooms, Rows(db.reservations), pageNumber)
  }

  /** Every stored reservation is listed: the `k`-th lies at place `k % 4` of page `k / 4`. */
  lemma {:induction false} EveryReservationListed(db: Database, k: nat)
    requires db.Valid() && k < |db.reservations.order|
    ensures var r := GetAllReservations(db, k / SEARCH_RESULT_PER_PAGE);
      && r.Some?
      && k % SEARCH_RESULT_PER_PAGE < |r.value.reservationDtoList|
      && var id := db.reservations.order[k];
         r.value.reservationDtoList[k % SEARCH_RESULT_PER_PAGE] == LinkedDto(db.users, db.rooms, (id, db.reservations.rows[id]))
  {
    var entries := Rows(db.reservations);
    Paging.RowOnItsPage(entries, k, SEARCH_RESULT_PER_PAGE);
    assert (k / SEARCH_RESULT_PER_PAGE) * SEARCH_RESULT_PER_PAGE + k % SEARCH_RESULT_PER_PAGE == k;
  }

  /** The status written for the requested `status`: exactly "Approve" approves, anything else rejects. */
  function StatusFor(status: string): (r: ReservationStatus)
    ensures r == APPROVED <==> status == "Approve"
    ensures r == REJECTED <==> status != "Approve"
  {
    if status == "Approve" then APPROVED else REJECTED
  }

  /** The comparison is exact: neither the enum's name nor another case approves. */
  lemma ApprovalIsExact()
    ensures StatusFor("APPROVED") == REJECTED
    ensures StatusFor("approve") == REJECTED
    ensures StatusFor("Approve") == APPROVED
  {
    assert "APPROVED" != "Approve" by { assert "APPROVED"[1] != "Approve"[1]; }
    assert "approve" != "Approve" by { assert "approve"[0] != "Approve"[0]; }
  }

  /**
   * `changeReservationStatus(id, status)`: a known id gets the status and its
   * room becomes unavailable whichever status it got; an unknown id changes
   * nothing and reports false.
   */
  method ChangeReservationStatus(db: Database, id: int, status: string) returns (changed: bool)
    requires db.Valid()
    modifies db`reservations, db`rooms
    ensures db.Valid()
    ensures changed <==> id in old(db.reservations.rows)
    ensures !changed ==> db.reservations == old(db.reservations) && db.rooms == old(db.rooms)
    ensures changed ==>
      var r := old(db.reservations.rows[id]);
      && db.reservations.order == old(db.reservations.order)
      && db.reservations.nextId == old(db.reservations.nextId)
      && db.reservations.rows == old(db.reservations.rows)[id := r.(reservationStatus := StatusFor(status))]
      && db.rooms.order == old(db.rooms.order)
      && db.rooms.nextId == old(db.rooms.nextId)
      && db.rooms.rows == old(db.rooms.rows)[r.roomId := old(db.rooms.rows[r.roomId]).(available := false)]
  {
    var found := FindById(db.reservations, id);
    if found.None? {
      return false;
    }
    var existing := found.value;
    var updated := existing.(reservationStatus := StatusFor(status));
    db.reservations := Update(db.reservations, id, updated);
    var room := db.rooms.rows[existing.roomId];
    db.rooms := Update(db.rooms, existing.roomId, room.(available := false));
    return true;
  }
}
