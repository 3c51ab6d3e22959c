/** `controller/customer/RoomController`: the customer's room catalogue and room lookup. */
module RoomController {
  import opened Wrappers
  import opened Entities
  import opened Repositories
  import opened Http
  import RoomService

  const PAGE_INDEX_NEGATIVE := "Page index must not be less than zero"
  const SOMETHING_WENT_WRONG := "Something went Wrong!"

  /**
   * `getAvailableRooms(pageNumber)`: 200 with the service's page; a negative
   * page lets the page request's exception out.
   */
  function GetAvailableRooms(rooms: Table<Room>, pageNumber: int): (r: Handled<RoomService.RoomsResponseDto>)
    requires WellFormed(rooms)
    ensures pageNumber >= 0 ==> r == Respond(Response(OK, Json(RoomService.GetAvailableRooms(rooms, pageNumber).value)))
    ensures pageNumber < 0 ==> r.Propagate?
  {
    match RoomService.GetAvailableRooms(rooms, pageNumber)
    case Some(page) => Respond(Response(OK, Json(page)))
    case None => Propagate(OtherException(PAGE_INDEX_NEGATIVE))
  }

  /**
   * `getRoomById` as both controllers map it: 200 with the room, 404 with the
   * message of an `EntityNotFoundException`, 500 "Something went Wrong!" for
   * any other exception. Every outcome gets an answer.
   */
  function GetRoomById(outcome: Outcome<RoomDto>): (r: Response<RoomDto>)
    ensures r.status == OK <==> outcome.Returned?
    ensures r.status == NOT_FOUND <==> outcome.Threw? && outcome.exception.EntityNotFoundException?
    ensures r.status == INTERNAL_SERVER_ERROR <==> outcome.Threw? && !outcome.exception.EntityNotFoundException?
    ensures outcome.Returned? ==> r.body == Json(outcome.value)
    ensures outcome.Threw? && outcome.exception.EntityNotFoundException? ==> r.body == Text(outcome.exception.message)
    ensures outcome.Threw? && !outcome.exception.EntityNotFoundException? ==> r.body == Text(SOMETHING_WENT_WRONG)
  {
    match outcome
    case Returned(room) => Response(OK, Json(room))
    case Threw(EntityNotFoundException(message)) => Response(NOT_FOUND, Text(message))
    case Threw(_) => Response(INTERNAL_SERVER_ERROR, Text(SOMETHING_WENT_WRONG))
  }
}
