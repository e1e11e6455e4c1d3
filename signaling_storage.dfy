/**
 * The signaling server's room table: rooms are created, looked up, deleted by
 * their creator, and joined while they have room, each join handing back an
 * access token.
 */
module SignalingStorage {
  import opened Wrappers
  import opened SignalingModels

  datatype StorageError = RoomNotFound | RoomFull | Unauthorized | TokenGenerationFailed(reason: string)

  /** The display text of a storage error. */
  function ErrorText(e: StorageError): string
  {
    match e
    case RoomNotFound => "Room not found"
    case RoomFull => "Room is full"
    case Unauthorized => "Unauthorized"
    case TokenGenerationFailed(m) => "Token generation failed: " + m
  }

  class RoomStorage {
    var rooms: map<string, Room>

    /** Every room is stored under its own id and is well formed. */
    ghost predicate Valid()
      reads this
    {
      forall id :: id in rooms ==> rooms[id].id == id && rooms[id].WellFormed()
    }

    constructor ()
      ensures Valid() && rooms == map[]
    {
      rooms := map[];
    }

    /**
     * Creates a room and stores it under its id; `id` and `now` are the
     * identifier and the instant the server generates for it.
     */
    method CreateRoom(id: string, name: string, createdBy: string, maxParticipants: nat, now: Timestamp)
      returns (room: Room)
      requires Valid()
      modifies this
      ensures Valid()
      ensures room == NewRoom(id, name, createdBy, maxParticipants, now)
      ensures rooms == old(rooms)[id := room]
    {
      room := NewRoom(id, name, createdBy, maxParticipants, now);
      rooms := rooms[room.id := room];
    }

    /** A copy of the room with the given id. */
    method GetRoom(roomId: string) returns (r: Result<Room, StorageError>)
      requires Valid()
      ensures roomId in rooms <==> r.Ok?
      ensures r.Ok? ==> r.value == rooms[roomId] && r.value.id == roomId && r.value.WellFormed()
      ensures r.Err? ==> r.error == RoomNotFound
    {
      if roomId !in rooms {
        return Err(RoomNotFound);
      }
      return Ok(rooms[roomId]);
    }

    /** Deletes a room on behalf of `requesterId`; only its creator may. */
    method DeleteRoom(roomId: string, requesterId: string) returns (r: Result<(), StorageError>)
      requires Valid()
      modifies this
      ensures Valid()
      ensures roomId !in old(rooms) ==> r == Err(RoomNotFound) && rooms == old(rooms)
      ensures roomId in old(rooms) && old(rooms)[roomId].createdBy != requesterId ==>
                r == Err(Unauthorized) && rooms == old(rooms)
      ensures roomId in old(rooms) && old(rooms)[roomId].createdBy == requesterId ==>
                r == Ok(()) && rooms == old(rooms) - {roomId}
    {
      if roomId !in rooms {
        return Err(RoomNotFound);
      }
      if rooms[roomId].createdBy != requesterId {
        return Err(Unauthorized);
      }
      rooms := rooms - {roomId};
      r := Ok(());
    }

    /**
     * Joins a room while it has room. `participantId` and `now` are the
     * identifier and the instant the server generates for the participant;
     * `token` is the outcome of signing the access token. The participant is
     * admitted before the token is signed, so a signing failure leaves them in
     * the room.
     */
    method JoinRoom(roomId: string, participantName: string, isHost: bool, participantId: string, now: Timestamp,
                    token: Result<string, string>)
      returns (r: Result<(Participant, string), StorageError>)
      requires Valid()
      modifies this
      ensures Valid()
      ensures roomId !in old(rooms) ==> r == Err(RoomNotFound) && rooms == old(rooms)
      ensures roomId in old(rooms) && !old(rooms)[roomId].CanJoin() ==> r == Err(RoomFull) && rooms == old(rooms)
      ensures roomId in old(rooms) && old(rooms)[roomId].CanJoin() ==>
                var p := Participant(participantId, participantName, now, isHost);
                && rooms == old(rooms)[roomId := old(rooms)[roomId].(participants := old(rooms)[roomId].participants[participantId := p])]
                && (participantId !in old(rooms)[roomId].participants ==>
                      |rooms[roomId].participants| == |old(rooms)[roomId].participants| + 1)
                && (token.Err? ==> r == Err(TokenGenerationFailed(token.error)))
                && (token.Ok? ==> r == Ok((p, token.value)))
    {
      if roomId !in rooms {
        return Err(RoomNotFound);
      }
      var room := rooms[roomId];
      if !room.CanJoin() {
        return Err(RoomFull);
      }
      var participant := Participant(participantId, participantName, now, isHost);
      AddParticipantRespectsCapacity(room, participant);
      var (updated, _) := room.AddParticipant(participant);
      rooms := rooms[roomId := updated];
      if token.Err? {
        return Err(TokenGenerationFailed(token.error));
      }
      r := Ok((participant, token.value));
    }
  }
}
