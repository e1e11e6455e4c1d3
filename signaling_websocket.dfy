/**
 * The signaling server's WebSocket relay: a map from room to participant to
 * the connection's outgoing channel, fan-out of a message to the rest of a
 * room, direct delivery to one participant, and the lifecycle of one
 * connection (register, announce, relay, unregister, announce, tidy up).
 * Every message handed to a channel is appended to the map's delivery log.
 */
module SignalingWebsocket {
  import opened Wrappers
  import opened SignalingModels
  import opened SignalingStorage

  // ---------------------------------------------------------------------------
  // Messages
  // ---------------------------------------------------------------------------

  datatype MessageType = Join | Leave | Offer | Answer | Ice

  /** The lowercase name a message type has on the wire. */
  function TypeName(t: MessageType): string
  {
    match t
    case Join => "join"
    case Leave => "leave"
    case Offer => "offer"
    case Answer => "answer"
    case Ice => "ice"
  }

  /** Reads a message type from its wire name. */
  function ParseType(s: string): Option<MessageType>
  {
    if s == "join" then Some(Join)
    else if s == "leave" then Some(Leave)
    else if s == "offer" then Some(Offer)
    else if s == "answer" then Some(Answer)
    else if s == "ice" then Some(Ice)
    else None
  }

  /** Parsing is the exact inverse of naming: every name reads back, and only names read at all. */
  lemma TypeNameRoundTrip(t: MessageType, s: string)
    ensures ParseType(TypeName(t)) == Some(t)
    ensures ParseType(s) == Some(t) <==> s == TypeName(t)
  {
  }

  /** The payload of a message: what the server itself announces, or a client's JSON value. */
  datatype MessageData = JoinData(participantId: string, participantName: string) | LeaveData(participantId: string) | ClientData(json: string)

  datatype WsMessage = WsMessage(msgType: MessageType, from: string, to: string, data: MessageData)

  /** What the server puts on a channel: a message it serialises itself, or a client's text passed on verbatim. */
  datatype Payload = Announce(msg: WsMessage) | Relay(text: string)

  /** The identity of a connection's outgoing channel. */
  type ConnId = nat

  /** One message handed to the channel of `peer` in `room`. */
  datatype Delivery = Delivery(room: string, peer: string, conn: ConnId, payload: Payload)

  /** What a verified access token says about the connection. */
  datatype Claims = Claims(roomId: string, participantId: string, participantName: string)

  /** What the socket yields: a text frame (with the outcome of parsing it), any other frame, or a read error. */
  datatype Frame = TextFrame(text: string, parsed: Option<WsMessage>) | OtherFrame | ErrorFrame

  function JoinMessage(c: Claims): WsMessage
  {
    WsMessage(Join, c.participantId, "all", JoinData(c.participantId, c.participantName))
  }

  function LeaveMessage(participantId: string): WsMessage
  {
    WsMessage(Leave, participantId, "all", LeaveData(participantId))
  }

  // ---------------------------------------------------------------------------
  // The peer map as a value
  // ---------------------------------------------------------------------------

  type Rooms = map<string, map<string, ConnId>>

  /** The map never keeps a room with nobody in it. */
  ghost predicate NoEmptyRoom(rooms: Rooms)
  {
    forall r :: r in rooms ==> rooms[r] != map[]
  }

  /** Adds a participant's channel to a room, creating the room's entry if needed. */
  function Registered(rooms: Rooms, room: string, participantId: string, conn: ConnId): Rooms
  {
    rooms[room := (if room in rooms then rooms[room] else map[])[participantId := conn]]
  }

  /** Removes a participant from a room, and the room itself once it is empty. */
  function Unregistered(rooms: Rooms, room: string, participantId: string): Rooms
  {
    if room !in rooms then rooms
    else
      var rest := rooms[room] - {participantId};
      if rest == map[] then rooms - {room} else rooms[room := rest]
  }

  /** The participants a broadcast in `room` reaches: everyone there but `exclude`. */
  function Recipients(rooms: Rooms, room: string, exclude: string): set<string>
  {
    if room in rooms then rooms[room].Keys - {exclude} else {}
  }

  /** The participants a client message reaches: the room but its sender for "all", else the one it names, if present. */
  function Targets(rooms: Rooms, room: string, m: WsMessage): set<string>
  {
    if m.to == "all" then Recipients(rooms, room, m.from)
    else if room in rooms && m.to in rooms[room] then {m.to}
    else {}
  }

  /**
   * Registering puts the participant's channel in the room and touches no
   * other room or participant; the map keeps no empty room.
   */
  lemma RegisteredPlacesPeer(rooms: Rooms, room: string, participantId: string, conn: ConnId)
    requires NoEmptyRoom(rooms)
    ensures var after := Registered(rooms, room, participantId, conn);
            && NoEmptyRoom(after)
            && room in after && participantId in after[room] && after[room][participantId] == conn
            && (forall r :: r in rooms && r != room ==> r in after && after[r] == rooms[r])
            && (forall p :: room in rooms && p in rooms[room] && p != participantId ==>
                  p in after[room] && after[room][p] == rooms[room][p])
  {
  }

  /**
   * Unregistering removes the participant, drops the room once nobody is
   * left, leaves every other entry alone, and keeps no empty room.
   */
  lemma UnregisteredRemovesPeer(rooms: Rooms, room: string, participantId: string)
    requires NoEmptyRoom(rooms)
    ensures var after := Unregistered(rooms, room, participantId);
            && NoEmptyRoom(after)
            && (room in after ==> participantId !in after[room])
            && (room in rooms && rooms[room].Keys <= {participantId} ==> room !in after)
            && (forall r :: r in rooms && r != room ==> r in after && after[r] == rooms[r])
            && (forall p :: room in rooms && p in rooms[room] && p != participantId ==>
                  room in after && p in after[room] && after[room][p] == rooms[room][p])
  {
    if room in rooms {
      var rest := rooms[room] - {participantId};
      if rooms[room].Keys <= {participantId} {
        assert rest.Keys == {};
      }
      assert forall p :: p in rooms[room] && p != participantId ==> p in rest;
    }
  }

  /** A connection that was not registered leaves the map exactly as it found it. */
  lemma {:induction false} UnregisterUndoesRegister(rooms: Rooms, room: string, participantId: string, conn: ConnId)
    requires NoEmptyRoom(rooms)
    requires room in rooms ==> participantId !in rooms[room]
    ensures Unregistered(Registered(rooms, room, participantId, conn), room, participantId) == rooms
  {
    var after := Registered(rooms, room, participantId, conn);
    var rest := after[room] - {participantId};
    if room in rooms {
      assert rest == rooms[room];
      assert rest != map[];
      assert after[room := rest] == rooms;
    } else {
      assert rest.Keys == {};
      assert rest == map[];
      assert after - {room} == rooms;
    }
  }

  /**
   * `added` is one delivery of `payload` to each participant of `room` other
   * than `exclude`, on that participant's own channel, and nothing else.
   */
  ghost predicate FanOut(added: seq<Delivery>, rooms: Rooms, room: string, exclude: string, payload: Payload)
  {
    && |added| == |Recipients(rooms, room, exclude)|
    && (forall i :: 0 <= i < |added| ==>
          && room in rooms && added[i].peer in Recipients(rooms, room, exclude)
          && added[i] == Delivery(room, added[i].peer, rooms[room][added[i].peer], payload))
    && (forall p :: p in Recipients(rooms, room, exclude) ==> Delivery(room, p, rooms[room][p], payload) in added)
    && (forall i, j :: 0 <= i < j < |added| ==> added[i].peer != added[j].peer)
  }

  // ---------------------------------------------------------------------------
  // The shared peer map
  // ---------------------------------------------------------------------------

  /**
   * The keys of a map in the order the map happens to be iterated: each key
   * once, in an order the model leaves open.
   */
  method IterationOrder(keys: set<string>) returns (order: seq<string>)
    ensures |order| == |keys|
    ensures forall i :: 0 <= i < |order| ==> order[i] in keys
    ensures forall k :: k in keys ==> k in order
    ensures forall i, j :: 0 <= i < j < |order| ==> order[i] != order[j]
  {
    var todo := keys;
    order := [];
    while todo != {}
      invariant todo <= keys
      invariant |order| + |todo| == |keys|
      invariant forall i :: 0 <= i < |order| ==> order[i] in keys && order[i] !in todo
      invariant forall k :: k in keys && k !in todo ==> k in order
      invariant forall i, j :: 0 <= i < j < |order| ==> order[i] != order[j]
    {
      var k :| k in todo;
      order := order + [k];
      todo := todo - {k};
    }
  }

  /**
   * One delivery of `payload` to each of a room's `peers` but `exclude`, in
   * the order the room's map happens to be iterated.
   */
  method RoomDeliveries(room: string, peers: map<string, ConnId>, exclude: string, payload: Payload)
    returns (added: seq<Delivery>)
    ensures |added| == |peers.Keys - {exclude}|
    ensures forall i :: 0 <= i < |added| ==>
              && added[i].peer in peers && added[i].peer != exclude
              && added[i] == Delivery(room, added[i].peer, peers[added[i].peer], payload)
    ensures forall p :: p in peers && p != exclude ==> Delivery(room, p, peers[p], payload) in added
    ensures forall i, j :: 0 <= i < j < |added| ==> added[i].peer != added[j].peer
  {
    var order := IterationOrder(peers.Keys - {exclude});
    added := seq(|order|, i requires 0 <= i < |order| => Delivery(room, order[i], peers[order[i]], payload));
    forall p | p in peers && p != exclude
      ensures Delivery(room, p, peers[p], payload) in added
    {
      assert p in peers.Keys - {exclude};
      assert p in order;
      var i :| 0 <= i < |order| && order[i] == p;
      assert added[i] == Delivery(room, p, peers[p], payload);
    }
  }

  class PeerMap {
    var rooms: Rooms
    /** Every message handed to a channel, in the order it was sent. */
    var sent: seq<Delivery>

    ghost predicate Valid()
      reads this
    {
      NoEmptyRoom(rooms)
    }

    constructor ()
      ensures Valid() && rooms == map[] && sent == []
    {
      rooms := map[];
      sent := [];
    }

    method Register(room: string, participantId: string, conn: ConnId)
      requires Valid()
      modifies this`rooms
      ensures Valid()
      ensures rooms == Registered(old(rooms), room, participantId, conn)
    {
      var peers: map<string, ConnId> := if room in rooms then rooms[room] else map[];
      assert participantId in peers[participantId := conn];
      rooms := rooms[room := peers[participantId := conn]];
    }

    method Unregister(room: string, participantId: string)
      requires Valid()
      modifies this`rooms
      ensures Valid()
      ensures rooms == Unregistered(old(rooms), room, participantId)
    {
      if room in rooms {
        var peers := rooms[room] - {participantId};
        if peers == map[] {
          rooms := rooms - {room};
        } else {
          rooms := rooms[room := peers];
        }
      }
    }

    /** Hands `payload` to every participant of `room` except `exclude`; an unknown room reaches nobody. */
    method Broadcast(room: string, exclude: string, payload: Payload)
      modifies this`sent
      ensures |sent| >= |old(sent)| && sent[..|old(sent)|] == old(sent)
      ensures FanOut(sent[|old(sent)|..], rooms, room, exclude, payload)
    {
      if room !in rooms {
        assert sent[|old(sent)|..] == [];
        return;
      }
      var added := RoomDeliveries(room, rooms[room], exclude, payload);
      sent := sent + added;
      assert sent[|old(sent)|..] == added;
    }

    /** Hands `payload` to one participant of `room`, if that participant is there. */
    method SendTo(room: string, participantId: string, payload: Payload)
      modifies this`sent
      ensures sent == old(sent) + (if room in rooms && participantId in rooms[room]
                                   then [Delivery(room, participantId, rooms[room][participantId], payload)] else [])
    {
      if room in rooms && participantId in rooms[room] {
        sent := sent + [Delivery(room, participantId, rooms[room][participantId], payload)];
      }
    }

    /**
     * Passes a client's text on as it came: to the rest of the room when it is
     * addressed to "all" (the sender named in the message excluded), otherwise
     * to the one participant it names.
     */
    method Route(room: string, m: WsMessage, text: string)
      modifies this`sent
      ensures |sent| >= |old(sent)| && sent[..|old(sent)|] == old(sent)
      ensures m.to == "all" ==> FanOut(sent[|old(sent)|..], rooms, room, m.from, Relay(text))
      ensures m.to != "all" ==>
                sent[|old(sent)|..] == (if room in rooms && m.to in rooms[room]
                                        then [Delivery(room, m.to, rooms[room][m.to], Relay(text))] else [])
      ensures Routed(sent[|old(sent)|..], rooms, room, m, text)
    {
      if m.to == "all" {
        Broadcast(room, m.from, Relay(text));
      } else {
        SendTo(room, m.to, Relay(text));
      }
    }
  }

  /** No read error among the first `n` frames: the socket was still being read at frame `n`. */
  predicate ReadUpTo(frames: seq<Frame>, n: nat)
  {
    forall k :: 0 <= k < n && k < |frames| ==> !frames[k].ErrorFrame?
  }

  /** A frame the relay passes on: a text frame that parsed as a message. */
  predicate Relayable(f: Frame)
  {
    f.TextFrame? && f.parsed.Some?
  }

  /** What three successive extensions of a log add, in order, is what they add together. */
  lemma ThreeParts(s0: seq<Delivery>, s1: seq<Delivery>, s2: seq<Delivery>, s3: seq<Delivery>)
    requires Extends(s1, s0) && Extends(s2, s1) && Extends(s3, s2)
    ensures Extends(s3, s0)
    ensures s3[|s0|..] == s1[|s0|..] + s2[|s1|..] + s3[|s2|..]
  {
    assert s3[|s0|..|s1|] == s1[|s0|..] by {
      assert s3[..|s2|] == s2;
    }
    assert s3[|s1|..|s2|] == s2[|s1|..];
    assert s3[|s0|..] == s3[|s0|..|s1|] + s3[|s1|..|s2|] + s3[|s2|..];
  }

  /** `s` is `prefix` followed by more deliveries. */
  ghost predicate Extends(s: seq<Delivery>, prefix: seq<Delivery>)
  {
    |prefix| <= |s| && s[..|prefix|] == prefix
  }

  /** `d` stays in `room`, goes to a participant registered there on its own channel, and is a relay if it reaches `owner`. */
  ghost predicate SoundDelivery(d: Delivery, rooms: Rooms, room: string, owner: string)
  {
    && d.room == room && room in rooms && d.peer in rooms[room]
    && d.conn == rooms[room][d.peer]
    && (d.peer == owner ==> d.payload.Relay?)
  }

  /** Every delivery stays in `room`, goes to a participant registered there on its own channel, and only a relay reaches `owner`. */
  ghost predicate SoundDeliveries(added: seq<Delivery>, rooms: Rooms, room: string, owner: string)
  {
    forall i :: 0 <= i < |added| ==> SoundDelivery(added[i], rooms, room, owner)
  }

  /** Everyone in `room` but `owner` was handed the announcement `msg`. */
  ghost predicate Announced(added: seq<Delivery>, rooms: Rooms, room: string, owner: string, msg: WsMessage)
  {
    forall p :: p in Recipients(rooms, room, owner) ==> Delivery(room, p, rooms[room][p], Announce(msg)) in added
  }

  /** Each of the first `n` frames read before any error that parsed reached every participant it targets. */
  ghost predicate RelayedUpTo(added: seq<Delivery>, rooms: Rooms, room: string, frames: seq<Frame>, n: nat)
  {
    forall j, p :: 0 <= j < n && j < |frames| && ReadUpTo(frames, j) && Relayable(frames[j])
                   && p in Targets(rooms, room, frames[j].parsed.value) ==>
      Delivery(room, p, rooms[room][p], Relay(frames[j].text)) in added
  }

  /**
   * `added` is what relaying the text of `m` produced: a delivery to each
   * participant the message targets, on that participant's own channel, and
   * nothing to anyone else.
   */
  ghost predicate Routed(added: seq<Delivery>, rooms: Rooms, room: string, m: WsMessage, text: string)
  {
    && (forall p :: p in Targets(rooms, room, m) ==> Delivery(room, p, rooms[room][p], Relay(text)) in added)
    && (forall i :: 0 <= i < |added| ==>
          && room in rooms && added[i].peer in Targets(rooms, room, m)
          && added[i] == Delivery(room, added[i].peer, rooms[room][added[i].peer], Relay(text)))
  }

  /** `d` is a relay within `room`, to a participant registered there, on its own channel. */
  ghost predicate RelayDelivery(d: Delivery, rooms: Rooms, room: string)
  {
    && d.room == room && room in rooms && d.peer in rooms[room]
    && d.conn == rooms[room][d.peer] && d.payload.Relay?
  }

  /** Every delivery is a relay within `room`, to a participant registered there, on its own channel. */
  ghost predicate RelaysOnly(added: seq<Delivery>, rooms: Rooms, room: string)
  {
    forall i :: 0 <= i < |added| ==> RelayDelivery(added[i], rooms, room)
  }

  /** Relaying one more frame keeps every delivery a relay within the room and extends what has reached its targets. */
  lemma RelayStep(a: seq<Delivery>, b: seq<Delivery>, rooms: Rooms, room: string, frames: seq<Frame>, i: nat)
    requires i < |frames| && Relayable(frames[i])
    requires RelaysOnly(a, rooms, room) && RelayedUpTo(a, rooms, room, frames, i)
    requires Routed(b, rooms, room, frames[i].parsed.value, frames[i].text)
    ensures RelaysOnly(a + b, rooms, room) && RelayedUpTo(a + b, rooms, room, frames, i + 1)
  {
    forall k | 0 <= k < |a + b|
      ensures RelayDelivery((a + b)[k], rooms, room)
    {
      if k < |a| {
        assert (a + b)[k] == a[k];
      } else {
        assert (a + b)[k] == b[k - |a|];
      }
    }
  }

  /** Once a read fails, no later frame is relayed: what was relayed before it is everything. */
  lemma ErrorEndsRelay(added: seq<Delivery>, rooms: Rooms, room: string, frames: seq<Frame>, i: nat)
    requires i < |frames| && frames[i].ErrorFrame?
    requires RelayedUpTo(added, rooms, room, frames, i)
    ensures RelayedUpTo(added, rooms, room, frames, |frames|)
  {
    assert forall j :: i < j ==> !ReadUpTo(frames, j);
  }

  /**
   * Reads the socket until it ends or errors, passing every text frame that
   * parses on through the map; a frame that does not parse, and any frame
   * that is not text, is skipped.
   */
  method RelayFrames(peers: PeerMap, room: string, frames: seq<Frame>)
    modifies peers`sent
    ensures Extends(peers.sent, old(peers.sent))
    ensures RelaysOnly(peers.sent[|old(peers.sent)|..], peers.rooms, room)
    ensures RelayedUpTo(peers.sent[|old(peers.sent)|..], peers.rooms, room, frames, |frames|)
  {
    var i := 0;
    ghost var relayed: seq<Delivery> := [];
    while i < |frames|
      invariant 0 <= i <= |frames| && ReadUpTo(frames, i)
      invariant peers.sent == old(peers.sent) + relayed
      invariant RelaysOnly(relayed, peers.rooms, room)
      invariant RelayedUpTo(relayed, peers.rooms, room, frames, i)
    {
      if frames[i].ErrorFrame? {
        ErrorEndsRelay(relayed, peers.rooms, room, frames, i);
        break;
      }
      relayed := RelayFrame(peers, room, frames, i, old(peers.sent), relayed);
      i := i + 1;
    }
    assert peers.sent[|old(peers.sent)|..] == relayed;
  }

  /** Relays frame `i`, read before any error, if it parsed; extends the relayed log accordingly. */
  method RelayFrame(peers: PeerMap, room: string, frames: seq<Frame>, i: nat,
                    ghost log0: seq<Delivery>, ghost relayed: seq<Delivery>)
    returns (ghost relayed': seq<Delivery>)
    requires i < |frames| && !frames[i].ErrorFrame?
    requires peers.sent == log0 + relayed
    requires RelaysOnly(relayed, peers.rooms, room) && RelayedUpTo(relayed, peers.rooms, room, frames, i)
    modifies peers`sent
    ensures peers.sent == log0 + relayed'
    ensures RelaysOnly(relayed', peers.rooms, room) && RelayedUpTo(relayed', peers.rooms, room, frames, i + 1)
  {
    relayed' := relayed;
    if Relayable(frames[i]) {
      ghost var before := peers.sent;
      peers.Route(room, frames[i].parsed.value, frames[i].text);
      ghost var b := peers.sent[|before|..];
      ExtendsSplit(peers.sent, before);
      RelayStep(relayed, b, peers.rooms, room, frames, i);
      relayed' := relayed + b;
      AppendAssoc(log0, relayed, b);
    }
  }

  lemma AppendAssoc(a: seq<Delivery>, b: seq<Delivery>, c: seq<Delivery>)
    ensures a + b + c == a + (b + c)
  {
  }

  /** A log that extends `prefix` is `prefix` followed by its tail. */
  lemma ExtendsSplit(s: seq<Delivery>, prefix: seq<Delivery>)
    requires Extends(s, prefix)
    ensures s == prefix + s[|prefix|..]
  {
    assert s == s[..|prefix|] + s[|prefix|..];
  }

  lemma FanOutIsSound(added: seq<Delivery>, rooms: Rooms, room: string, owner: string, msg: WsMessage)
    requires FanOut(added, rooms, room, owner, Announce(msg))
    ensures SoundDeliveries(added, rooms, room, owner) && Announced(added, rooms, room, owner, msg)
  {
  }

  /**
   * The leave announcement, sent once the owner is unregistered, reaches only
   * participants that were registered while the owner was there.
   */
  lemma LeaveIsSound(added: seq<Delivery>, during: Rooms, room: string, owner: string, msg: WsMessage)
    requires NoEmptyRoom(during)
    requires FanOut(added, Unregistered(during, room, owner), room, owner, Announce(msg))
    ensures SoundDeliveries(added, during, room, owner)
    ensures Announced(added, Unregistered(during, room, owner), room, owner, msg)
  {
    UnregisteredRemovesPeer(during, room, owner);
  }

  lemma RelaysAreSound(added: seq<Delivery>, rooms: Rooms, room: string, owner: string)
    requires RelaysOnly(added, rooms, room)
    ensures SoundDeliveries(added, rooms, room, owner)
  {
  }

  lemma SoundConcat(a: seq<Delivery>, b: seq<Delivery>, rooms: Rooms, room: string, owner: string)
    requires SoundDeliveries(a, rooms, room, owner) && SoundDeliveries(b, rooms, room, owner)
    ensures SoundDeliveries(a + b, rooms, room, owner)
  {
    forall k | 0 <= k < |a + b|
      ensures SoundDelivery((a + b)[k], rooms, room, owner)
    {
      if k < |a| {
        assert (a + b)[k] == a[k];
      } else {
        assert (a + b)[k] == b[k - |a|];
      }
    }
  }

  /** Announcements and relays that reached their targets stay delivered in any longer log. */
  lemma DeliveredWithin(x: seq<Delivery>, y: seq<Delivery>, rooms: Rooms, room: string, owner: string,
                        msg: WsMessage, frames: seq<Frame>)
    requires forall d :: d in x ==> d in y
    ensures Announced(x, rooms, room, owner, msg) ==> Announced(y, rooms, room, owner, msg)
    ensures RelayedUpTo(x, rooms, room, frames, |frames|) ==> RelayedUpTo(y, rooms, room, frames, |frames|)
  {
  }

  /** The join announcement, the relays and the leave announcement together. */
  lemma ConnectionLog(join: seq<Delivery>, relayed: seq<Delivery>, leave: seq<Delivery>,
                      during: Rooms, room: string, claims: Claims, frames: seq<Frame>)
    requires room == claims.roomId && NoEmptyRoom(during)
    requires FanOut(join, during, room, claims.participantId, Announce(JoinMessage(claims)))
    requires RelaysOnly(relayed, during, room) && RelayedUpTo(relayed, during, room, frames, |frames|)
    requires FanOut(leave, Unregistered(during, room, claims.participantId), room, claims.participantId,
                    Announce(LeaveMessage(claims.participantId)))
    ensures var added := join + relayed + leave;
            && SoundDeliveries(added, during, room, claims.participantId)
            && Announced(added, during, room, claims.participantId, JoinMessage(claims))
            && RelayedUpTo(added, during, room, frames, |frames|)
            && Announced(added, Unregistered(during, room, claims.participantId), room, claims.participantId,
                         LeaveMessage(claims.participantId))
  {
    var me := claims.participantId;
    var added := join + relayed + leave;
    FanOutIsSound(join, during, room, me, JoinMessage(claims));
    RelaysAreSound(relayed, during, room, me);
    LeaveIsSound(leave, during, room, me, LeaveMessage(me));
    SoundConcat(join, relayed, during, room, me);
    SoundConcat(join + relayed, leave, during, room, me);
    DeliveredWithin(join, added, during, room, me, JoinMessage(claims), frames);
    DeliveredWithin(relayed, added, during, room, me, JoinMessage(claims), frames);
    DeliveredWithin(leave, added, Unregistered(during, room, me), room, me, LeaveMessage(me), frames);
  }

  /**
   * One connection, from upgrade to close: registers the participant's
   * channel `conn` in the shared map, announces the join to the rest of the
   * room, relays every parsed text frame until the socket ends or errors,
   * then unregisters, announces the leave, and asks the room table to delete
   * the room on the participant's behalf (which succeeds only for its creator).
   */
  method HandleSocket(peers: PeerMap, storage: RoomStorage, claims: Claims, conn: ConnId, frames: seq<Frame>)
    requires peers.Valid() && storage.Valid()
    modifies peers, storage
    ensures peers.Valid() && storage.Valid()
    ensures Extends(peers.sent, old(peers.sent))
    ensures peers.rooms == Unregistered(Registered(old(peers.rooms), claims.roomId, claims.participantId, conn),
                                        claims.roomId, claims.participantId)
    ensures var during := Registered(old(peers.rooms), claims.roomId, claims.participantId, conn);
            var added := peers.sent[|old(peers.sent)|..];
            && SoundDeliveries(added, during, claims.roomId, claims.participantId)
            && Announced(added, during, claims.roomId, claims.participantId, JoinMessage(claims))
            && RelayedUpTo(added, during, claims.roomId, frames, |frames|)
            && Announced(added, peers.rooms, claims.roomId, claims.participantId, LeaveMessage(claims.participantId))
    ensures claims.roomId in old(storage.rooms) && old(storage.rooms)[claims.roomId].createdBy == claims.participantId ==>
              storage.rooms == old(storage.rooms) - {claims.roomId}
    ensures !(claims.roomId in old(storage.rooms) && old(storage.rooms)[claims.roomId].createdBy == claims.participantId) ==>
              storage.rooms == old(storage.rooms)
  {
    var room := claims.roomId;
    var me := claims.participantId;
    ghost var s0 := peers.sent;

    peers.Register(room, me, conn);
    ghost var during := peers.rooms;
    peers.Broadcast(room, me, Announce(JoinMessage(claims)));
    ghost var s1 := peers.sent;

    RelayFrames(peers, room, frames);
    ghost var s2 := peers.sent;

    peers.Unregister(room, me);
    peers.Broadcast(room, me, Announce(LeaveMessage(me)));
    ghost var s3 := peers.sent;

    ConnectionLog(s1[|s0|..], s2[|s1|..], s3[|s2|..], during, room, claims, frames);
    ThreeParts(s0, s1, s2, s3);

    var _ := storage.DeleteRoom(room, me);
  }

  /**
   * The connection handler as it is written: the peer map it registers in
   * and broadcasts through is created afresh for every connection, so it
   * only ever holds the connection's own participant.
   */
  method HandleSocketAsWritten(storage: RoomStorage, claims: Claims, conn: ConnId, frames: seq<Frame>)
    returns (sent: seq<Delivery>)
    requires storage.Valid()
    modifies storage
    ensures storage.Valid()
    ensures forall i :: 0 <= i < |sent| ==> sent[i].peer == claims.participantId && sent[i].payload.Relay?
  {
    var peers := new PeerMap();
    HandleSocket(peers, storage, claims, conn, frames);
    sent := peers.sent;
  }

  /**
   * Two participants of one room, each on its own connection, as written:
   * the offer participant "a" addresses to "b" reaches nobody, and neither
   * connection delivers anything to the other participant.
   */
  method IsolatedConnectionsNeverMeet() returns (sentByA: seq<Delivery>, sentByB: seq<Delivery>)
    ensures forall i :: 0 <= i < |sentByA| ==> sentByA[i].peer != "b"
    ensures forall i :: 0 <= i < |sentByB| ==> sentByB[i].peer != "a"
  {
    var storage := new RoomStorage();
    var offer := WsMessage(Offer, "a", "b", ClientData("{\"sdp\":\"...\"}"));
    sentByB := HandleSocketAsWritten(storage, Claims("r", "b", "Bob"), 2, []);
    sentByA := HandleSocketAsWritten(storage, Claims("r", "a", "Alice"), 1, [TextFrame("offer", Some(offer))]);
  }

  /**
   * The same exchange through one shared peer map: with "b" connected, the
   * join of "a" is announced to "b" and the offer of "a" reaches "b" on its
   * own channel.
   */
  method SharedMapDeliversOffer() returns (sent: seq<Delivery>)
    ensures Delivery("r", "b", 2, Announce(JoinMessage(Claims("r", "a", "Alice")))) in sent
    ensures Delivery("r", "b", 2, Relay("offer")) in sent
  {
    var storage := new RoomStorage();
    var peers := new PeerMap();
    peers.Register("r", "b", 2);
    var offer := WsMessage(Offer, "a", "b", ClientData("{\"sdp\":\"...\"}"));
    var frames := [TextFrame("offer", Some(offer))];
    assert ReadUpTo(frames, 0) && Relayable(frames[0]);
    HandleSocket(peers, storage, Claims("r", "a", "Alice"), 1, frames);
    sent := peers.sent;
  }
}
