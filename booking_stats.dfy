/**
 * The booking figures the two dashboards compute with `reduce` and `filter`:
 * a running total of prices or guests and the rows with a given status.
 */
module BookingStats {
  import opened ClientTypes
  import opened Filtering

  /** `bookings.reduce((sum, b) => sum + b.totalPrice, 0)`, added from the left. */
  function TotalPrice(bookings: seq<Booking>): int {
    if bookings == [] then 0 else TotalPrice(bookings[..|bookings| - 1]) + bookings[|bookings| - 1].totalPrice
  }

  /** `bookings.reduce((sum, b) => sum + b.guests, 0)`. */
  function TotalGuests(bookings: seq<Booking>): int {
    if bookings == [] then 0 else TotalGuests(bookings[..|bookings| - 1]) + bookings[|bookings| - 1].guests
  }

  /** The running total of a concatenation is the sum of the totals. */
  lemma {:induction false} TotalPriceAppend(a: seq<Booking>, b: seq<Booking>)
    ensures TotalPrice(a + b) == TotalPrice(a) + TotalPrice(b)
    decreases |b|
  {
    if b == [] {
      assert a + b == a;
    } else {
      assert (a + b)[..|a + b| - 1] == a + b[..|b| - 1];
      assert (a + b)[|a + b| - 1] == b[|b| - 1];
      TotalPriceAppend(a, b[..|b| - 1]);
    }
  }

  /** A guest total over bookings of at least one guest each is at least the number of bookings. */
  lemma {:induction false} GuestsAtLeastBookings(bookings: seq<Booking>)
    requires forall i :: 0 <= i < |bookings| ==> bookings[i].guests >= 1
    ensures TotalGuests(bookings) >= |bookings|
  {
    if bookings != [] {
      GuestsAtLeastBookings(bookings[..|bookings| - 1]);
    }
  }

  /** The rows whose status is exactly `status`. */
  function WithStatus(bookings: seq<Booking>, status: string): (r: seq<Booking>)
    ensures forall b :: b in r <==> b in bookings && b.status == status
    ensures SubsequenceOf(r, bookings)
  {
    Filter(bookings, (b: Booking) => b.status == status)
  }

  /** Rows of two different statuses together are at most all rows. */
  lemma TwoStatusesFit(bookings: seq<Booking>, s1: string, s2: string)
    requires s1 != s2
    ensures |WithStatus(bookings, s1)| + |WithStatus(bookings, s2)| <= |bookings|
  {
    DisjointFiltersFit(bookings, (b: Booking) => b.status == s1, (b: Booking) => b.status == s2);
  }
}
