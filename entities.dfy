/**
 * The server's JPA entities and the DTO projections they offer, as values.
 * A row's `id` is its key in the repository table that holds it, so the
 * projections take it as an argument; a reservation refers to its room and
 * its user by their ids. Dates are day numbers.
 */
module Entities {

  datatype UserRole = CUSTOMER | ADMIN

  datatype ReservationStatus = PENDING | APPROVED | REJECTED

  /** A `users` row; `password` holds the encoder's output. */
  datatype User = User(email: string, name: string, password: string, userRole: UserRole)

  /** A `rooms` row. */
  datatype Room = Room(name: string, roomType: string, price: int, available: bool)

  /** A `reservations` row, linked to one room and one user. */
  datatype Reservation = Reservation(
    checkInDate: int,
    checkOutDate: int,
    price: int,
    reservationStatus: ReservationStatus,
    roomId: int,
    userId: int)

  datatype RoomDto = RoomDto(id: int, name: string, roomType: string, price: int, available: bool)

  datatype ReservationDto = ReservationDto(
    id: int,
    price: int,
    checkInDate: int,
    checkOutDate: int,
    reservationStatus: ReservationStatus,
    userId: int,
    userName: string,
    roomId: int,
    roomName: string,
    roomType: string)

  datatype UserDto = UserDto(id: int, email: string, name: string, userRole: UserRole)

  /** The room a DTO describes, read back from the DTO alone. */
  function RoomOf(d: RoomDto): Room {
    Room(d.name, d.roomType, d.price, d.available)
  }

  /** The reservation row a DTO describes, read back from the DTO alone. */
  function ReservationOf(d: ReservationDto): Reservation {
    Reservation(d.checkInDate, d.checkOutDate, d.price, d.reservationStatus, d.roomId, d.userId)
  }

  /** `Room.getRoomDto`: the DTO carries the row's id and every field of the room. */
  function GetRoomDto(id: int, room: Room): (d: RoomDto)
    ensures d.id == id && RoomOf(d) == room
  {
    RoomDto(id, room.name, room.roomType, room.price, room.available)
  }

  /**
   * `Reservation.getReservationDto`: the DTO carries every field of the row,
   * plus the name of the linked user and the name and type of the linked room.
   */
  function GetReservationDto(id: int, r: Reservation, user: User, room: Room): (d: ReservationDto)
    ensures d.id == id && ReservationOf(d) == r
    ensures d.userName == user.name
    ensures d.roomName == room.name && d.roomType == room.roomType
  {
    ReservationDto(id, r.price, r.checkInDate, r.checkOutDate, r.reservationStatus,
                   r.userId, user.name, r.roomId, room.name, room.roomType)
  }

  /** `User.getUserDto`: id, email, name and role; the password never leaves the row. */
  function GetUserDto(id: int, user: User): (d: UserDto)
    ensures d.id == id && d.email == user.email && d.name == user.name && d.userRole == user.userRole
  {
    UserDto(id, user.email, user.name, user.userRole)
  }

  /** Two rooms project to the same DTO only when they are the same row. */
  lemma RoomDtoInjective(i: int, a: Room, j: int, b: Room)
    requires GetRoomDto(i, a) == GetRoomDto(j, b)
    ensures i == j && a == b
  {
    assert RoomOf(GetRoomDto(i, a)) == RoomOf(GetRoomDto(j, b));
  }

  /** The reservation projection loses nothing of the row itself, whatever the links. */
  lemma ReservationDtoInjective(i: int, a: Reservation, j: int, b: Reservation, u: User, v: User, s: Room, t: Room)
    requires GetReservationDto(i, a, u, s) == GetReservationDto(j, b, v, t)
    ensures i == j && a == b
  {
    assert ReservationOf(GetReservationDto(i, a, u, s)) == ReservationOf(GetReservationDto(j, b, v, t));
  }
}
