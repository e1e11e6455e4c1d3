/**
 * The signaling server's HTTP endpoints: each delegates to the room table
 * and turns a storage error into an HTTP status with a JSON error body.
 */
module SignalingHandlers {
  import opened Wrappers
  import opened SignalingModels
  import opened SignalingStorage

  /** An endpoint's failure: the storage error it wraps. */
  datatype AppError = AppError(inner: StorageError)

  /** The response an error becomes: the status and the body's `error` and `details` fields. */
  datatype ErrorResponse = ErrorResponse(status: nat, error: string, details: string)

  const StatusNoContent: nat := 204

  /** `s` starts with `prefix`. */
  predicate StartsWith(s: string, prefix: string)
  {
    |prefix| <= |s| && s[..|prefix|] == prefix
  }

  /** Two storage errors of the same kind, whatever reason a token failure carries. */
  predicate SameKind(a: StorageError, b: StorageError)
  {
    (a.TokenGenerationFailed? && b.TokenGenerationFailed?) || a == b
  }

  function IntoResponse(e: AppError): (r: ErrorResponse)
    ensures r.details == ErrorText(e.inner)
  {
    var (status, message) := match e.inner
      case RoomNotFound => (404, "Room not found")
      case RoomFull => (409, "Room is full")
      case Unauthorized => (403, "Unauthorized")
      case TokenGenerationFailed(_) => (500, "Token generation failed");
    ErrorResponse(status, message, ErrorText(e.inner))
  }

  /**
   * A missing room is 404, a full room 409, a refused delete 403 and a token
   * failure 500; distinct kinds of error get distinct statuses, and the
   * `error` field is always the head of the `details` text.
   */
  lemma ResponseStatuses(e: AppError, f: AppError)
    ensures e.inner == RoomNotFound ==> IntoResponse(e) == ErrorResponse(404, "Room not found", "Room not found")
    ensures e.inner == RoomFull ==> IntoResponse(e) == ErrorResponse(409, "Room is full", "Room is full")
    ensures e.inner == Unauthorized ==> IntoResponse(e) == ErrorResponse(403, "Unauthorized", "Unauthorized")
    ensures e.inner.TokenGenerationFailed? ==>
              IntoResponse(e).status == 500 && IntoResponse(e).error == "Token generation failed"
    ensures IntoResponse(e).status == IntoResponse(f).status <==> SameKind(e.inner, f.inner)
    ensures StartsWith(IntoResponse(e).details, IntoResponse(e).error)
  {
    match e.inner
    case TokenGenerationFailed(m) =>
      assert IntoResponse(e).details == "Token generation failed" + ": " + m;
    case _ =>
  }

  datatype CreateRoomRequest = CreateRoomRequest(name: string, createdBy: string, maxParticipants: Option<nat>)
  datatype CreateRoomResponse = CreateRoomResponse(roomId: string, createdAt: Timestamp)
  datatype JoinRoomRequest = JoinRoomRequest(participantName: string)
  datatype JoinRoomResponse = JoinRoomResponse(token: string, participantId: string, iceServers: seq<IceServer>)

  /** Creates a room with the requested capacity (ten when the request names none). */
  method CreateRoomHandler(storage: RoomStorage, request: CreateRoomRequest, id: string, now: Timestamp)
    returns (response: CreateRoomResponse)
    requires storage.Valid()
    modifies storage
    ensures storage.Valid()
    ensures response == CreateRoomResponse(id, now)
    ensures storage.rooms == old(storage.rooms)[id := NewRoom(id, request.name, request.createdBy,
                                                              RequestedCapacity(request.maxParticipants), now)]
  {
    var room := storage.CreateRoom(id, request.name, request.createdBy, RequestedCapacity(request.maxParticipants), now);
    response := CreateRoomResponse(room.id, room.createdAt);
  }

  /** The public view of a room. */
  method GetRoomHandler(storage: RoomStorage, roomId: string) returns (r: Result<RoomInfo, AppError>)
    requires storage.Valid()
    ensures roomId !in storage.rooms ==> r == Err(AppError(RoomNotFound))
    ensures roomId in storage.rooms ==> r == Ok(storage.rooms[roomId].ToPublicInfo())
    ensures r.Ok? ==> r.value.participantCount <= r.value.maxParticipants
  {
    var room := storage.GetRoom(roomId);
    if room.Err? {
      return Err(AppError(room.error));
    }
    r := Ok(room.value.ToPublicInfo());
  }

  /** The join response once both the join and the following lookup of the room are known. */
  function JoinOutcome(joined: Result<(Participant, string), StorageError>, room: Result<Room, StorageError>)
    : Result<JoinRoomResponse, AppError>
  {
    match joined
    case Err(e) => Err(AppError(e))
    case Ok((p, token)) =>
      match room
      case Err(e) => Err(AppError(e))
      case Ok(rm) => Ok(JoinRoomResponse(token, p.id, rm.iceServers))
  }

  /**
   * Joins a room over HTTP, always as a non-host participant, and answers
   * with the token, the new participant's id and the room's ICE servers.
   */
  method JoinRoomHandler(storage: RoomStorage, roomId: string, request: JoinRoomRequest,
                         participantId: string, now: Timestamp, token: Result<string, string>)
    returns (r: Result<JoinRoomResponse, AppError>)
    requires storage.Valid()
    modifies storage
    ensures storage.Valid()
    ensures roomId !in old(storage.rooms) ==> r == Err(AppError(RoomNotFound))
    ensures roomId in old(storage.rooms) && !old(storage.rooms)[roomId].CanJoin() ==> r == Err(AppError(RoomFull))
    ensures roomId in old(storage.rooms) && old(storage.rooms)[roomId].CanJoin() ==>
              && roomId in storage.rooms && participantId in storage.rooms[roomId].participants
              && !storage.rooms[roomId].participants[participantId].isHost
              && (token.Err? ==> r == Err(AppError(TokenGenerationFailed(token.error))))
              && (token.Ok? ==> r == Ok(JoinRoomResponse(token.value, participantId, old(storage.rooms)[roomId].iceServers)))
  {
    var joined := storage.JoinRoom(roomId, request.participantName, false, participantId, now, token);
    var room := storage.GetRoom(roomId);
    r := JoinOutcome(joined, room);
  }

  /** Deletes a room on behalf of `requesterId`, answering 204 No Content. */
  method DeleteRoomHandler(storage: RoomStorage, roomId: string, requesterId: string)
    returns (r: Result<nat, AppError>)
    requires storage.Valid()
    modifies storage
    ensures storage.Valid()
    ensures roomId !in old(storage.rooms) ==> r == Err(AppError(RoomNotFound)) && storage.rooms == old(storage.rooms)
    ensures roomId in old(storage.rooms) && old(storage.rooms)[roomId].createdBy != requesterId ==>
              r == Err(AppError(Unauthorized)) && storage.rooms == old(storage.rooms)
    ensures roomId in old(storage.rooms) && old(storage.rooms)[roomId].createdBy == requesterId ==>
              r == Ok(StatusNoContent) && storage.rooms == old(storage.rooms) - {roomId}
  {
    var deleted := storage.DeleteRoom(roomId, requesterId);
    if deleted.Err? {
      return Err(AppError(deleted.error));
    }
    r := Ok(StatusNoContent);
  }
}
