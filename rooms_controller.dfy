/**
 * `controller/admin/RoomsController`: the administrator's room endpoints.
 * The room service behind them is abstract; each endpoint is a function of
 * the caller's authorities and of what the service reported.
 */
module RoomsController {
  import opened Entities
  import opened Http
  import RoomController

  /** `hasAnyAuthority('ADMIN')` on the class: every endpoint first checks the caller. */
  predicate Admitted(authorities: set<string>) {
    "ADMIN" in authorities
  }

  /** `postRoom`: 200 on success, 400 on failure, both without a body. */
  function PostRoom(authorities: set<string>, success: bool): (r: Handled<RoomDto>)
    ensures !Admitted(authorities) <==> r == Propagate(AccessDeniedException)
    ensures Admitted(authorities) ==> r == Respond(Response(if success then OK else BAD_REQUEST, Empty))
  {
    if !Admitted(authorities) then Propagate(AccessDeniedException)
    else if success then Respond(Response(OK, Empty))
    else Respond(Response(BAD_REQUEST, Empty))
  }

  /** `getAllRooms(pageNumber)`: 200 with whatever page the service produced. */
  function GetAllRooms<P>(authorities: set<string>, page: P): (r: Handled<P>)
    ensures !Admitted(authorities) <==> r == Propagate(AccessDeniedException)
    ensures Admitted(authorities) ==> r == Respond(Response(OK, Json(page)))
  {
    if !Admitted(authorities) then Propagate(AccessDeniedException)
    else Respond(Response(OK, Json(page)))
  }

  /** `getRoomById`: the customer controller's mapping behind the ADMIN check. */
  function GetRoomById(authorities: set<string>, outcome: Outcome<RoomDto>): (r: Handled<RoomDto>)
    ensures !Admitted(authorities) <==> r == Propagate(AccessDeniedException)
    ensures Admitted(authorities) ==> r.Respond? && r.response == RoomController.GetRoomById(outcome)
  {
    if !Admitted(authorities) then Propagate(AccessDeniedException)
    else Respond(RoomController.GetRoomById(outcome))
  }

  /** `updateRoom`: 200 on success, 404 on failure, both without a body. */
  function UpdateRoom(authorities: set<string>, success: bool): (r: Handled<RoomDto>)
    ensures !Admitted(authorities) <==> r == Propagate(AccessDeniedException)
    ensures Admitted(authorities) ==> r == Respond(Response(if success then OK else NOT_FOUND, Empty))
  {
    if !Admitted(authorities) then Propagate(AccessDeniedException)
    else if success then Respond(Response(OK, Empty))
    else Respond(Response(NOT_FOUND, Empty))
  }

  /**
   * `deleteRoom`: 200 with a null body when the service returns, 404 on
   * `EntityNotFoundException`; any other exception is not caught.
   */
  function DeleteRoom(authorities: set<string>, outcome: Outcome<()>): (r: Handled<RoomDto>)
    ensures !Admitted(authorities) ==> r == Propagate(AccessDeniedException)
    ensures Admitted(authorities) && outcome.Returned? ==> r == Respond(Response(OK, Empty))
    ensures Admitted(authorities) && outcome.Threw? && outcome.exception.EntityNotFoundException? ==>
      r == Respond(Response(NOT_FOUND, Empty))
    ensures Admitted(authorities) && outcome.Threw? && !outcome.exception.EntityNotFoundException? ==>
      r == Propagate(outcome.exception)
  {
    if !Admitted(authorities) then Propagate(AccessDeniedException)
    else match outcome
      case Returned(_) => Respond(Response(OK, Empty))
      case Threw(EntityNotFoundException(_)) => Respond(Response(NOT_FOUND, Empty))
      case Threw(e) => Propagate(e)
  }

  /** Without the ADMIN authority no endpoint reaches the service's answer. */
  lemma NonAdminRefusedEverywhere<P>(authorities: set<string>, success: bool, page: P, found: Outcome<RoomDto>, deleted: Outcome<()>)
    requires !Admitted(authorities)
    ensures PostRoom(authorities, success) == UpdateRoom(authorities, success) == Propagate(AccessDeniedException)
    ensures GetAllRooms(authorities, page) == Propagate(AccessDeniedException)
    ensures GetRoomById(authorities, found) == DeleteRoom(authorities, deleted) == Propagate(AccessDeniedException)
  {
  }

  /** An administrator and a customer get the same answer from `getRoomById`, whatever the service did. */
  lemma LookupMatchesCustomerController(authorities: set<string>, outcome: Outcome<RoomDto>)
    requires Admitted(authorities)
    ensures GetRoomById(authorities, outcome) == Respond(RoomController.GetRoomById(outcome))
  {
  }
}
