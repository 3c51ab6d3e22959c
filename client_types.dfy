/**
 * The values the Next.js client (hotel-web) works with: its `User`, the booking
 * and room rows of the admin and customer pages, the page envelope the pages
 * read, the outcome of one awaited call, and a toast notification.
 * Dates are whole day numbers and money and guest counts are integers.
 */
module ClientTypes {

  /** `User` of hotel-web/lib/types.ts. The role is whatever text the server or the storage supplied. */
  datatype User = User(id: string, name: string, email: string, role: string)

  /** The outcome of one awaited call: resolved with a value, or rejected with an error carrying a message. */
  datatype Outcome<T> = Resolved(value: T) | Rejected(message: string)

  /** The reply body of the server's login endpoint (`jwt`, `userId`, `userRole`). */
  datatype LoginReply = LoginReply(jwt: string, userId: string, userRole: string)

  /** A toast shown by a page. */
  datatype Toast = Toast(title: string, description: string, destructive: bool)

  /** A booking row as the admin and customer pages read it (`BookingWithRoom`). */
  datatype Booking = Booking(
    id: string,
    roomId: string,
    roomName: string,
    checkIn: int,
    checkOut: int,
    guests: int,
    totalPrice: int,
    status: string)

  /** `Room` of hotel-web/lib/types.ts. */
  datatype Room = Room(id: string, name: string, roomType: string, price: int, available: bool)

  /** `PaginatedResponse<T>` as the pages read it. */
  datatype PaginatedResponse<T> = PaginatedResponse(
    content: seq<T>,
    totalPages: int,
    totalElements: int,
    number: int,
    first: bool,
    last: bool)
}
