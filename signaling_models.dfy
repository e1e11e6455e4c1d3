/**
 * The signaling server's rooms: a room holds its participants, keyed by id and
 * bounded by the room's capacity, and the ICE servers handed to clients.
 */
module SignalingModels {
  import opened Wrappers

  /** An instant, in nanoseconds since the Unix epoch. */
  type Timestamp = int

  datatype Participant = Participant(id: string, name: string, joinedAt: Timestamp, isHost: bool)

  datatype IceServer = IceServer(urls: seq<string>, username: Option<string>, credential: Option<string>)

  /** The public STUN servers every room starts with. */
  function DefaultIceServers(): (s: seq<IceServer>)
    ensures |s| == 2
    ensures s[0].urls == ["stun:stun.l.google.com:19302"] && s[1].urls == ["stun:stun1.l.google.com:19302"]
    ensures forall i :: 0 <= i < |s| ==> s[i].username.None? && s[i].credential.None?
  {
    [IceServer(["stun:stun.l.google.com:19302"], None, None),
     IceServer(["stun:stun1.l.google.com:19302"], None, None)]
  }

  /** The capacity of a room whose creation request names none. */
  const DefaultMaxParticipants: nat := 10

  datatype RoomInfo = RoomInfo(id: string, name: string, createdAt: Timestamp, participantCount: nat, maxParticipants: nat)

  datatype Room = Room(
    id: string,
    name: string,
    createdAt: Timestamp,
    createdBy: string,
    participants: map<string, Participant>,
    maxParticipants: nat,
    iceServers: seq<IceServer>)
  {
    /** A room admits another participant while it is below capacity. */
    predicate CanJoin()
    {
      |participants| < maxParticipants
    }

    /** The room holds no more participants than it admits, each under its own id. */
    predicate WellFormed()
    {
      && |participants| <= maxParticipants
      && (forall k :: k in participants ==> participants[k].id == k)
    }

    /**
     * Admits `p` under its id when the room can take one more; the flag says
     * whether it did. A full room is returned unchanged.
     */
    function AddParticipant(p: Participant): (Room, bool)
    {
      if !CanJoin() then (this, false)
      else (this.(participants := participants[p.id := p]), true)
    }

    /** What anyone may see of the room. */
    function ToPublicInfo(): RoomInfo
    {
      RoomInfo(id, name, createdAt, |participants|, maxParticipants)
    }
  }

  /**
   * A new room: `id` and `createdAt` are the identifier and the instant the
   * server generates for it.
   */
  function NewRoom(id: string, name: string, createdBy: string, maxParticipants: nat, createdAt: Timestamp): (r: Room)
    ensures r.WellFormed() && r.participants == map[]
    ensures r.id == id && r.name == name && r.createdBy == createdBy
    ensures r.maxParticipants == maxParticipants && r.createdAt == createdAt
    ensures r.iceServers == DefaultIceServers()
  {
    Room(id, name, createdAt, createdBy, map[], maxParticipants, DefaultIceServers())
  }

  /** The capacity a creation request asks for, or the default when it names none. */
  function RequestedCapacity(maxParticipants: Option<nat>): (n: nat)
    ensures maxParticipants.None? ==> n == 10
    ensures maxParticipants.Some? ==> n == maxParticipants.value
  {
    if maxParticipants.Some? then maxParticipants.value else DefaultMaxParticipants
  }

  lemma MapUpdateSize<K, V>(m: map<K, V>, k: K, v: V)
    ensures |m[k := v]| == if k in m then |m| else |m| + 1
  {
    if k in m {
      assert m[k := v].Keys == m.Keys;
    } else {
      assert m[k := v].Keys == m.Keys + {k};
    }
  }

  /**
   * Admission succeeds exactly when the room can take one more. A full room
   * is left as it is; otherwise the participant is stored under its own id,
   * nothing else changes, and a room that was within capacity stays so.
   */
  lemma AddParticipantRespectsCapacity(room: Room, p: Participant)
    ensures var (r, added) := room.AddParticipant(p);
            && (added <==> room.CanJoin())
            && (!added ==> r == room)
            && (added ==> r.participants == room.participants[p.id := p]
                          && r == room.(participants := r.participants))
            && (added && p.id !in room.participants ==> |r.participants| == |room.participants| + 1)
            && (room.WellFormed() ==> r.WellFormed())
  {
    MapUpdateSize(room.participants, p.id, p);
  }

  /** The public view counts the participants and never shows more than the capacity of a well-formed room. */
  lemma PublicInfoCountsParticipants(room: Room)
    ensures room.ToPublicInfo().participantCount == |room.participants|
    ensures room.ToPublicInfo().id == room.id && room.ToPublicInfo().maxParticipants == room.maxParticipants
    ensures room.WellFormed() ==> room.ToPublicInfo().participantCount <= room.ToPublicInfo().maxParticipants
    ensures room.ToPublicInfo().participantCount < room.ToPublicInfo().maxParticipants <==> room.CanJoin()
  {
  }
}
