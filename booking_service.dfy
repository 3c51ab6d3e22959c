/**
 * `BookingServiceImpl`: a customer's booking request becomes a PENDING
 * reservation priced by the night, and a customer's own reservations are
 * listed four to a page.
 */
module BookingService {
  import opened Wrappers
  import opened Entities
  import opened Repositories
  import Filtering
  import Paging
  import ReservationService

  const SEARCH_RESULT_PER_PAGE: nat := 4

  const LONG_MIN: int := -0x8000_0000_0000_0000
  const LONG_MAX: int := 0x7FFF_FFFF_FFFF_FFFF

  /** The `ReservationDto` fields `postReservation` reads. */
  datatype BookingRequest = BookingRequest(userId: int, roomId: int, checkInDate: int, checkOutDate: int)

  /** Java `long` arithmetic: the result reduced into the 64-bit two's-complement range. */
  function WrapLong(x: int): (r: int)
    ensures LONG_MIN <= r <= LONG_MAX
    ensures (r - x) % 0x1_0000_0000_0000_0000 == 0
    ensures LONG_MIN <= x <= LONG_MAX ==> r == x
  {
    (x - LONG_MIN) % 0x1_0000_0000_0000_0000 + LONG_MIN
  }

  /** The price of a stay: nightly price times `ChronoUnit.DAYS.between(checkIn, checkOut)`, as a `long`. */
  function StayPrice(nightly: int, checkIn: int, checkOut: int): int {
    WrapLong(nightly * (checkOut - checkIn))
  }

  /** Without overflow the price is the nightly price times the nights, and a stay that does not move forward costs nothing or less. */
  lemma StayPriceMeaning(nightly: int, checkIn: int, checkOut: int)
    requires LONG_MIN <= nightly * (checkOut - checkIn) <= LONG_MAX
    ensures StayPrice(nightly, checkIn, checkOut) == nightly * (checkOut - checkIn)
    ensures nightly >= 0 && checkOut <= checkIn ==> StayPrice(nightly, checkIn, checkOut) <= 0
  {
    if nightly >= 0 && checkOut <= checkIn {
      assert nightly * (checkIn - checkOut) >= 0;
    }
  }

  /** The row `postReservation` saves for `request` when the room costs `nightly`. */
  function NewReservation(request: BookingRequest, nightly: int): (r: Reservation)
    ensures r.reservationStatus == PENDING
    ensures r.userId == request.userId && r.roomId == request.roomId
    ensures r.checkInDate == request.checkInDate && r.checkOutDate == request.checkOutDate
    ensures r.price == StayPrice(nightly, request.checkInDate, request.checkOutDate)
  {
    Reservation(request.checkInDate, request.checkOutDate,
                StayPrice(nightly, request.checkInDate, request.checkOutDate),
                PENDING, request.roomId, request.userId)
  }

  /**
   * `postReservation(request)`: when both the user and the room exist, exactly
   * one reservation is added, last, and true is returned; otherwise nothing is
   * saved. The dates are not compared with each other.
   */
  method PostReservation(db: Database, request: BookingRequest) returns (saved: bool)
    requires db.Valid()
    modifies db`reservations
    ensures db.Valid()
    ensures saved <==> request.userId in db.users.rows && request.roomId in db.rooms.rows
    ensures !saved ==> db.reservations == old(db.reservations)
    ensures saved ==>
      db.reservations == Insert(old(db.reservations), NewReservation(request, db.rooms.rows[request.roomId].price))
  {
    var user := FindById(db.users, request.userId);
    var room := FindById(db.rooms, request.roomId);
    if room.Some? && user.Some? {
      db.reservations := Insert(db.reservations, NewReservation(request, room.value.price));
      return true;
    }
    return false;
  }

  /** A booking whose check-out is not after its check-in is still saved, at a price of zero or less. */
  lemma BackwardStayIsSaved(request: BookingRequest, nightly: int)
    requires 0 <= nightly <= 0x7FFF_FFFF_FFFF
    requires request.checkInDate - 0x1_0000 <= request.checkOutDate <= request.checkInDate
    ensures NewReservation(request, nightly).price <= 0
  {
    var back := request.checkInDate - request.checkOutDate;
    MulBound(nightly, back, 0x7FFF_FFFF_FFFF, 0x1_0000);
    assert nightly * (request.checkOutDate - request.checkInDate) == -(nightly * back);
    StayPriceMeaning(nightly, request.checkInDate, request.checkOutDate);
  }

  lemma MulBound(a: int, b: int, x: int, y: int)
    requires 0 <= a <= x && 0 <= b <= y
    ensures 0 <= a * b <= x * y
  {
    assert a * b <= x * b;
    assert x * b <= x * y;
  }

  /** `findAllByUserId`: the stored reservations of one user, in storage order. */
  function OfUser(db: Database, userId: int): (r: seq<(int, Reservation)>)
    reads db
    requires db.Valid()
    ensures ReservationService.Resolvable(db.users, db.rooms, r)
    ensures forall k :: 0 <= k < |r| ==> r[k] in Rows(db.reservations)
    ensures forall k :: 0 <= k < |r| ==> r[k].1.userId == userId
    ensures forall id :: id in db.reservations.rows && db.reservations.rows[id].userId == userId ==>
      (id, db.reservations.rows[id]) in r
  {
    var r := Filtering.Filter(Rows(db.reservations), (e: (int, Reservation)) => e.1.userId == userId);
    assert forall k :: 0 <= k < |r| ==> r[k] in Rows(db.reservations) && r[k].1.userId == userId by {
      forall k | 0 <= k < |r| ensures r[k] in Rows(db.reservations) && r[k].1.userId == userId {
        assert r[k] in r;
      }
    }
    r
  }

  /** `getAllReservationByUserId(userId, pageNumber)`: page `pageNumber` of that user's reservations. */
  function GetAllReservationByUserId(db: Database, userId: int, pageNumber: int)
    : (r: Option<ReservationService.ReservationResponseDto>)
    reads db
    requires db.Valid()
    ensures r.None? <==> pageNumber < 0
    ensures r.Some? ==> r.value.pageNumber == pageNumber
    ensures r.Some? ==> r.value.totalPages == Paging.TotalPages(|OfUser(db, userId)|, SEARCH_RESULT_PER_PAGE)
    ensures r.Some? ==> |r.value.reservationDtoList| <= SEARCH_RESULT_PER_PAGE
    ensures r.Some? ==> forall i :: 0 <= i < |r.value.reservationDtoList| ==>
      r.value.reservationDtoList[i].userId == userId
    ensures r.Some? ==> forall i :: 0 <= i < |r.value.reservationDtoList| ==>
      && pageNumber * SEARCH_RESULT_PER_PAGE + i < |OfUser(db, userId)|
      && r.value.reservationDtoList[i] == ReservationService.LinkedDto(db.users, db.rooms, OfUser(db, userId)[pageNumber * SEARCH_RESULT_PER_PAGE + i])
  {
    ReservationService.ReservationPage(db.users, db.rooms, OfUser(db, userId), pageNumber)
  }

  /** Every reservation of the user is listed: the `k`-th of theirs lies at place `k % 4` of page `k / 4`. */
  lemma {:induction false} EveryOwnReservationListed(db: Database, userId: int, k: nat)
    requires db.Valid() && k < |OfUser(db, userId)|
    ensures var r := GetAllReservationByUserId(db, userId, k / SEARCH_RESULT_PER_PAGE);
      && r.Some?
      && k % SEARCH_RESULT_PER_PAGE < |r.value.reservationDtoList|
      && r.value.reservationDtoList[k % SEARCH_RESULT_PER_PAGE] == ReservationService.LinkedDto(db.users, db.rooms, OfUser(db, userId)[k])
  {
    var entries := OfUser(db, userId);
    Paging.RowOnItsPage(entries, k, SEARCH_RESULT_PER_PAGE);
    assert (k / SEARCH_RESULT_PER_PAGE) * SEARCH_RESULT_PER_PAGE + k % SEARCH_RESULT_PER_PAGE == k;
  }
}
