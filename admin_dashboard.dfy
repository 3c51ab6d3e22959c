/**
 * The admin dashboard: revenue, confirmed bookings, occupied rooms and active
 * guests over all reservations, their change against a mocked previous
 * period, and the first five reservations and rooms with an occupancy badge.
 * Instants are integers on one time line; ratios are exact reals.
 */
module AdminDashboard {
  import opened Wrappers
  import opened ClientTypes
  import opened Filtering
  import opened BookingStats
  import Api

  /** `calculatePercentageChange`: 100 when there is no previous value, else the relative change in percent. */
  function PercentageChange(current: real, previous: real): (r: real)
    ensures previous == 0.0 ==> r == 100.0
    ensures previous != 0.0 ==> r * previous == (current - previous) * 100.0
  {
    if previous == 0.0 then 100.0 else ((current - previous) / previous) * 100.0
  }

  /**
   * With the previous period mocked as a fixed share of the current one, the
   * change does not depend on the data: 25% for revenue (previous = 0.8 of
   * current) and 100 when the current value is zero.
   */
  lemma MockedRevenueChange(current: real)
    ensures current != 0.0 ==> PercentageChange(current, current * 0.8) == 25.0
    ensures current == 0.0 ==> PercentageChange(current, current * 0.8) == 100.0
  {
    if current != 0.0 {
      var r := PercentageChange(current, current * 0.8);
      assert r * (current * 0.8) == (current * 0.2) * 100.0;
      assert (r * 0.8 - 20.0) * current == 0.0;
    }
  }

  /** A reservation that occupies its room: approved, checked in by now and not yet checked out. */
  predicate Occupies(b: Booking, now: int) {
    b.status == "APPROVED" && b.checkIn <= now && b.checkOut >= now
  }

  /** `totalRevenue`: every reservation's price, whatever its status. */
  function TotalRevenue(reservations: seq<Booking>): int {
    TotalPrice(reservations)
  }

  /** `confirmedBookings`: the reservations with status "APPROVED". */
  function ConfirmedBookings(reservations: seq<Booking>): nat {
    |WithStatus(reservations, "APPROVED")|
  }

  /** The reservations counted as occupying a room now. */
  function Occupying(reservations: seq<Booking>, now: int): (r: seq<Booking>)
    ensures forall b :: b in r <==> b in reservations && Occupies(b, now)
  {
    Filter(reservations, (b: Booking) => Occupies(b, now))
  }

  /** `occupiedRooms`: how many reservations occupy a room now. */
  function OccupiedRooms(reservations: seq<Booking>, now: int): nat {
    |Occupying(reservations, now)|
  }

  /** `activeGuests`: the guests of exactly the reservations `OccupiedRooms` counts. */
  function ActiveGuests(reservations: seq<Booking>, now: int): int {
    TotalGuests(Occupying(reservations, now))
  }

  /** Occupying a room needs an approved reservation, so occupied rooms never exceed confirmed bookings. */
  lemma OccupiedAtMostConfirmed(reservations: seq<Booking>, now: int)
    ensures OccupiedRooms(reservations, now) <= ConfirmedBookings(reservations)
  {
    StricterFilterKeepsFewer(reservations, (b: Booking) => Occupies(b, now), (b: Booking) => b.status == "APPROVED");
  }

  /** When every reservation is for at least one guest, active guests are at least the occupied rooms. */
  lemma GuestsAtLeastOccupied(reservations: seq<Booking>, now: int)
    requires forall b :: b in reservations ==> b.guests >= 1
    ensures ActiveGuests(reservations, now) >= OccupiedRooms(reservations, now)
  {
    GuestsAtLeastBookings(Occupying(reservations, now));
  }

  /** `reservations.some(...)` for one room: some reservation for it occupies it now. */
  function AnyOccupies(reservations: seq<Booking>, roomId: string, now: int): bool {
    if reservations == [] then false
    else
      (reservations[0].roomId == roomId && Occupies(reservations[0], now))
      || AnyOccupies(reservations[1..], roomId, now)
  }

  /** A room shows as occupied exactly when some approved reservation for it spans now. */
  lemma {:induction false} OccupiedBadge(reservations: seq<Booking>, roomId: string, now: int)
    ensures AnyOccupies(reservations, roomId, now) <==>
      exists k :: 0 <= k < |reservations| && reservations[k].roomId == roomId && Occupies(reservations[k], now)
  {
    if reservations != [] {
      OccupiedBadge(reservations[1..], roomId, now);
      if AnyOccupies(reservations[1..], roomId, now) {
        var k :| 0 <= k < |reservations[1..]| && reservations[1..][k].roomId == roomId && Occupies(reservations[1..][k], now);
        assert reservations[k + 1] == reservations[1..][k];
      }
      if exists k :: 0 <= k < |reservations| && reservations[k].roomId == roomId && Occupies(reservations[k], now) {
        var k :| 0 <= k < |reservations| && reservations[k].roomId == roomId && Occupies(reservations[k], now);
        if k > 0 {
          assert reservations[1..][k - 1] == reservations[k];
        }
      }
    }
  }

  /** The two lists on the page, recent reservations and rooms, show at most their first five entries, in order. */
  function FirstFive<T>(entries: seq<T>): (r: seq<T>)
    ensures |r| <= 5 && |r| <= |entries| && r == entries[..|r|]
    ensures |entries| >= 5 ==> |r| == 5
  {
    Take(entries, 5)
  }

  const LOAD_FAILED := Toast("Error", "Failed to load dashboard data. Please try again.", true)

  class Dashboard {
    var reservations: seq<Booking>
    var rooms: seq<Room>
    var loading: bool
    var toasts: seq<Toast>
    var requests: seq<Api.Call>

    constructor()
      ensures reservations == [] && rooms == [] && loading && toasts == [] && requests == []
    {
      reservations := [];
      rooms := [];
      loading := true;
      toasts := [];
      requests := [];
    }

    /**
     * The mount effect: both listings are requested together (the reservations
     * one without a page index); the lists are set only when both succeed, and
     * any failure shows an error instead.
     */
    method FetchDashboardData(reservationsReply: Outcome<seq<Booking>>, roomsReply: Outcome<seq<Room>>)
      modifies this
      ensures requests == old(requests) + [Api.GetAllReservations(None), Api.GetAllRooms]
      ensures reservationsReply.Resolved? && roomsReply.Resolved? ==>
        reservations == reservationsReply.value && rooms == roomsReply.value && toasts == old(toasts)
      ensures reservationsReply.Rejected? || roomsReply.Rejected? ==>
        reservations == old(reservations) && rooms == old(rooms) && toasts == old(toasts) + [LOAD_FAILED]
      ensures !loading
    {
      requests := requests + [Api.GetAllReservations(None), Api.GetAllRooms];
      if reservationsReply.Resolved? && roomsReply.Resolved? {
        reservations := reservationsReply.value;
        rooms := roomsReply.value;
      } else {
        toasts := toasts + [LOAD_FAILED];
      }
      loading := false;
    }
  }
}
