/**
 * The signalling relay (server.js): the handlers registered on every
 * Socket.IO connection, as atomic transitions over the adapter's room map.
 *
 * Socket.IO keeps, for every room name, the set of connections in it, and
 * drops a room once it is empty. Every connection is in the room named by its
 * own id from the moment it connects. `socket.to(R).emit(...)` reaches every
 * member of room R except the members of the room named by the sender's id
 * (Socket.IO 4 excludes that room, not only the sending socket), so the
 * sender and anyone who joined a room named after it are left out;
 * `socket.emit(...)` reaches the sender only. Each handler's output is the list of its `emit` calls in order, each
 * with the set of connections it reaches.
 */
module SignalRelay {

  type ConnId = string
  type RoomId = string

  /** What `socket.data` holds after a join. */
  datatype Session = Session(roomId: RoomId, userId: string, mode: string)

  /** The events the relay emits, with their arguments. */
  datatype Event =
    | UserJoined(userId: string, mode: string)
    | RoomJoined(roomId: RoomId, count: nat)
    | Offer(offer: string, fromId: ConnId)
    | Answer(answer: string, fromId: ConnId)
    | IceCandidate(candidate: string, fromId: ConnId)
    | UserLeft(userId: string)

  /** One `emit` call: the connections it reaches and the event. */
  datatype Emission = Emission(to: set<ConnId>, event: Event)

  /** The three point-to-point signalling messages. */
  datatype SignalKind = OfferSignal | AnswerSignal | IceSignal

  /** Connected sockets, the adapter's room map and each socket's `data`. */
  datatype Relay = Relay(live: set<ConnId>, rooms: map<RoomId, set<ConnId>>, data: map<ConnId, Session>)

  /** A handler's new state and the emissions it made. */
  datatype Step = Step(state: Relay, out: seq<Emission>)

  /** Members of a room in a room map; a room that does not exist has none. */
  function MembersIn(rooms: map<RoomId, set<ConnId>>, r: RoomId): set<ConnId>
  {
    if r in rooms then rooms[r] else {}
  }

  /** Members of a room (`io.sockets.adapter.rooms.get(r)`). */
  function Members(s: Relay, r: RoomId): set<ConnId>
  {
    MembersIn(s.rooms, r)
  }

  /** The rooms a connection is in (`socket.rooms`). */
  function RoomsOf(s: Relay, c: ConnId): set<RoomId>
  {
    set r | r in s.rooms && c in Members(s, r)
  }

  /** The adapter never keeps an empty room. */
  ghost predicate NoEmptyRooms(rooms: map<RoomId, set<ConnId>>)
  {
    forall r :: r in rooms ==> rooms[r] != {}
  }

  /**
   * The relay's invariant: every connected socket is in its own room, rooms
   * are non-empty and hold connected sockets only, a socket is in a room
   * other than its own only if its last join named that room, and it is in
   * the room its last join named.
   */
  ghost predicate Valid(s: Relay)
  {
    && NoEmptyRooms(s.rooms)
    && (forall c :: c in s.live ==> c in Members(s, c))
    && (forall r, x :: x in Members(s, r) ==> x in s.live && (x == r || (x in s.data && s.data[x].roomId == r)))
    && (forall x :: x in s.data ==> x in s.live && x in Members(s, s.data[x].roomId))
  }

  /** Nobody connected yet. */
  function Empty(): (s: Relay)
    ensures Valid(s) && s.live == {}
  {
    Relay({}, map[], map[])
  }

  /** Leaves every room except c's own, dropping rooms that become empty. */
  function LeaveNamedRooms(rooms: map<RoomId, set<ConnId>>, c: ConnId): (rooms': map<RoomId, set<ConnId>>)
    requires NoEmptyRooms(rooms)
    ensures NoEmptyRooms(rooms')
    ensures forall r :: MembersIn(rooms', r) == if r == c then MembersIn(rooms, r) else MembersIn(rooms, r) - {c}
  {
    map r | r in rooms && (r == c || rooms[r] - {c} != {}) :: if r == c then rooms[r] else rooms[r] - {c}
  }

  /** Leaves every room, dropping rooms that become empty. */
  function LeaveAllRooms(rooms: map<RoomId, set<ConnId>>, c: ConnId): (rooms': map<RoomId, set<ConnId>>)
    ensures NoEmptyRooms(rooms')
    ensures forall r :: MembersIn(rooms', r) == MembersIn(rooms, r) - {c}
  {
    map r | r in rooms && rooms[r] - {c} != {} :: rooms[r] - {c}
  }

  /** Adds c to room r, creating the room if needed. */
  function AddMember(rooms: map<RoomId, set<ConnId>>, r: RoomId, c: ConnId): (rooms': map<RoomId, set<ConnId>>)
    requires NoEmptyRooms(rooms)
    ensures NoEmptyRooms(rooms')
    ensures MembersIn(rooms', r) == MembersIn(rooms, r) + {c}
    ensures forall q :: q != r ==> MembersIn(rooms', q) == MembersIn(rooms, q)
  {
    rooms[r := MembersIn(rooms, r) + {c}]
  }

  /** The room map after `join-room`: out of every room but c's own, then into roomId. */
  function JoinRooms(rooms: map<RoomId, set<ConnId>>, c: ConnId, roomId: RoomId): (rooms': map<RoomId, set<ConnId>>)
    requires NoEmptyRooms(rooms)
    ensures NoEmptyRooms(rooms')
    ensures forall r :: MembersIn(rooms', r) == if r == roomId then MembersIn(rooms, r) + {c}
                                                else if r == c then MembersIn(rooms, r) else MembersIn(rooms, r) - {c}
  {
    var left := LeaveNamedRooms(rooms, c);
    var joined := AddMember(left, roomId, c);
    assert MembersIn(left, roomId) + {c} == MembersIn(rooms, roomId) + {c};
    joined
  }

  /** Valid follows from the memberships and sessions after a connect, whatever the map looks like. */
  lemma ValidAfterConnect(s: Relay, c: ConnId, s': Relay)
    requires Valid(s) && c !in s.live
    requires NoEmptyRooms(s'.rooms) && s'.live == s.live + {c} && s'.data == s.data
    requires forall r :: Members(s', r) == if r == c then Members(s, r) + {c} else Members(s, r)
    ensures Valid(s')
  {
  }

  /** Valid follows from the memberships and sessions after a join. */
  lemma ValidAfterJoin(s: Relay, c: ConnId, roomId: RoomId, s': Relay)
    requires Valid(s) && c in s.live
    requires NoEmptyRooms(s'.rooms) && s'.live == s.live
    requires s'.data.Keys == s.data.Keys + {c} && s'.data[c].roomId == roomId
    requires forall x :: x in s.data && x != c ==> s'.data[x] == s.data[x]
    requires forall r :: Members(s', r) == if r == roomId then Members(s, r) + {c}
                                           else if r == c then Members(s, r) else Members(s, r) - {c}
    ensures Valid(s')
    ensures Members(s', c) == Members(s, c)
  {
    assert c in Members(s, c);
    forall x | x in s'.live ensures x in Members(s', x) {
      assert x in Members(s, x);
    }
    forall r, x | x in Members(s', r) ensures x in s'.live && (x == r || (x in s'.data && s'.data[x].roomId == r)) {
      if x != c {
        assert x in Members(s, r);
        MemberIsOwnerOrJoiner(s, r, x);
      }
    }
    forall x | x in s'.data ensures x in s'.live && x in Members(s', s'.data[x].roomId) {
      if x != c {
        assert s'.data[x] == s.data[x];
        assert x in Members(s, s.data[x].roomId);
      }
    }
  }

  /** Valid follows from the memberships and sessions after a disconnect. */
  lemma ValidAfterDisconnect(s: Relay, c: ConnId, s': Relay)
    requires Valid(s) && c in s.live
    requires NoEmptyRooms(s'.rooms) && s'.live == s.live - {c} && s'.data == s.data - {c}
    requires forall r :: Members(s', r) == Members(s, r) - {c}
    ensures Valid(s')
  {
  }

  /** A new connection: Socket.IO puts it in the room named by its id. */
  function Connect(s: Relay, c: ConnId): (s': Relay)
    requires Valid(s) && c !in s.live
    ensures Valid(s')
    ensures s'.live == s.live + {c} && s'.data == s.data
    ensures Members(s', c) == Members(s, c) + {c}
    ensures forall r :: r != c ==> Members(s', r) == Members(s, r)
  {
    var s' := Relay(s.live + {c}, AddMember(s.rooms, c, c), s.data);
    ValidAfterConnect(s, c, s');
    s'
  }

  /**
   * The state change of the `join-room` handler: leave every room but the
   * own one, join roomId, overwrite `socket.data`.
   */
  function JoinState(s: Relay, c: ConnId, roomId: RoomId, userId: string, mode: string): (s': Relay)
    requires Valid(s) && c in s.live
    ensures Valid(s')
    ensures s'.live == s.live
    ensures forall r :: Members(s', r) == if r == roomId then Members(s, r) + {c}
                                         else if r == c then Members(s, r) else Members(s, r) - {c}
    ensures Members(s', c) == Members(s, c)
    ensures s'.data.Keys == s.data.Keys + {c}
    ensures s'.data[c] == Session(roomId, userId, mode)
    ensures forall x :: x in s.data && x != c ==> s'.data[x] == s.data[x]
  {
    var s' := Relay(s.live, JoinRooms(s.rooms, c, roomId), s.data[c := Session(roomId, userId, mode)]);
    ValidAfterJoin(s, c, roomId, s');
    s'
  }

  /**
   * The recipients of `socket.to(r)` sent by c: the members of r outside the
   * room named by c's id.
   */
  function OthersIn(s: Relay, r: RoomId, c: ConnId): set<ConnId>
  {
    Members(s, r) - Members(s, c)
  }

  /**
   * The `join-room` handler: the state change above, then `user-joined` to
   * the other members of the room and `room-joined` with the room's size to
   * the joiner.
   */
  function JoinRoom(s: Relay, c: ConnId, roomId: RoomId, userId: string, mode: string): (step: Step)
    requires Valid(s) && c in s.live
    ensures step.state == JoinState(s, c, roomId, userId, mode)
    ensures Members(step.state, roomId) == Members(s, roomId) + {c}
    ensures |step.out| == 2
    ensures step.out[0] == Emission((Members(s, roomId) + {c}) - Members(s, c), UserJoined(userId, mode))
    ensures c !in step.out[0].to
    ensures step.out[1] == Emission({c}, RoomJoined(roomId, |Members(step.state, roomId)|))
  {
    var s' := JoinState(s, c, roomId, userId, mode);
    var userCount := |Members(s', roomId)|;
    assert c in Members(s, c);
    Step(s', [Emission(OthersIn(s', roomId, c), UserJoined(userId, mode)),
              Emission({c}, RoomJoined(roomId, userCount))])
  }

  /** The event a signalling message is relayed as, tagged with the sender's id. */
  function SignalEvent(kind: SignalKind, payload: string, fromId: ConnId): (e: Event)
    ensures e in {Offer(payload, fromId), Answer(payload, fromId), IceCandidate(payload, fromId)}
  {
    match kind
    case OfferSignal => Offer(payload, fromId)
    case AnswerSignal => Answer(payload, fromId)
    case IceSignal => IceCandidate(payload, fromId)
  }

  /**
   * The `offer`, `answer` and `ice-candidate` handlers: `socket.to(targetId)`
   * re-emits the payload with the sender's id; the state does not change.
   */
  function Signal(s: Relay, c: ConnId, kind: SignalKind, payload: string, targetId: ConnId): (step: Step)
    ensures step.state == s
    ensures |step.out| == 1
    ensures forall x :: x in step.out[0].to <==> x in Members(s, targetId) && x !in Members(s, c)
    ensures step.out[0].event in {Offer(payload, c), Answer(payload, c), IceCandidate(payload, c)}
    ensures kind == OfferSignal <==> step.out[0].event.Offer?
    ensures kind == AnswerSignal <==> step.out[0].event.Answer?
    ensures kind == IceSignal <==> step.out[0].event.IceCandidate?
  {
    Step(s, [Emission(OthersIn(s, targetId, c), SignalEvent(kind, payload, c))])
  }

  /**
   * The `disconnect` handler, together with Socket.IO's own cleanup: the
   * connection leaves every room and, if its stored room id is a non-empty
   * string, `user-left` goes to the rest of that room, except those who
   * joined a room named after the leaving connection.
   */
  function Disconnect(s: Relay, c: ConnId): (step: Step)
    requires Valid(s) && c in s.live
    ensures Valid(step.state)
    ensures step.state.live == s.live - {c}
    ensures step.state.data == s.data - {c}
    ensures RoomsOf(step.state, c) == {}
    ensures forall r :: Members(step.state, r) == Members(s, r) - {c}
    ensures c !in s.data || s.data[c].roomId == "" ==> step.out == []
    ensures c in s.data && s.data[c].roomId != "" ==>
              step.out == [Emission(Members(s, s.data[c].roomId) - Members(s, c), UserLeft(s.data[c].userId))]
  {
    var s' := Relay(s.live - {c}, LeaveAllRooms(s.rooms, c), s.data - {c});
    ValidAfterDisconnect(s, c, s');
    if c in s.data && s.data[c].roomId != "" then
      var roomId := s.data[c].roomId;
      assert OthersIn(s', roomId, c) == Members(s, roomId) - Members(s, c);
      Step(s', [Emission(OthersIn(s', roomId, c), UserLeft(s.data[c].userId))])
    else
      Step(s', [])
  }

  /** The events connection x receives from a handler's emissions, in order. */
  function Inbox(out: seq<Emission>, x: ConnId): (es: seq<Event>)
    ensures |es| <= |out|
  {
    if out == [] then []
    else (if x in out[0].to then [out[0].event] else []) + Inbox(out[1..], x)
  }

  lemma InboxOne(e: Emission, x: ConnId)
    ensures Inbox([e], x) == if x in e.to then [e.event] else []
  {
    assert [e][1..] == [];
  }

  lemma InboxTwo(e1: Emission, e2: Emission, x: ConnId)
    ensures Inbox([e1, e2], x) == (if x in e1.to then [e1.event] else []) + (if x in e2.to then [e2.event] else [])
  {
    assert [e1, e2][1..] == [e2];
    InboxOne(e2, x);
  }

  lemma MemberIsOwnerOrJoiner(s: Relay, r: RoomId, x: ConnId)
    requires Valid(s) && x in Members(s, r)
    ensures x in s.live && (x == r || (x in s.data && s.data[x].roomId == r))
  {
  }

  /** A connection is in at most one room besides its own: the one its session names. */
  lemma AtMostOneNamedRoom(s: Relay, c: ConnId)
    requires Valid(s) && c in s.live
    ensures c !in s.data ==> RoomsOf(s, c) == {c}
    ensures c in s.data ==> RoomsOf(s, c) == {c, s.data[c].roomId}
  {
    var expected := if c in s.data then {c, s.data[c].roomId} else {c};
    forall r ensures r in RoomsOf(s, c) <==> r in expected {
      if r in expected {
        assert c in Members(s, r);
      }
    }
  }

  /** After `join-room` the joiner is in exactly its own room and the requested one. */
  lemma JoinLandsInOneRoom(s: Relay, c: ConnId, roomId: RoomId, userId: string, mode: string)
    requires Valid(s) && c in s.live
    ensures RoomsOf(JoinRoom(s, c, roomId, userId, mode).state, c) == {c, roomId}
  {
    AtMostOneNamedRoom(JoinRoom(s, c, roomId, userId, mode).state, c);
  }

  /** The room map agrees with the sessions: a room holds its owner and everyone whose last join named it. */
  lemma MembersFromSessions(s: Relay, r: RoomId)
    requires Valid(s)
    ensures Members(s, r) == set x | x in s.live && (x == r || (x in s.data && s.data[x].roomId == r))
  {
  }

  /**
   * After a join, the joiner hears only `room-joined` with a count that
   * includes it; every other member of the new room hears `user-joined`
   * unless its last join named a room called like the joiner's id; no one
   * else, in particular no one left behind in the old room, hears anything.
   */
  lemma JoinDeliveries(s: Relay, c: ConnId, roomId: RoomId, userId: string, mode: string, x: ConnId)
    requires Valid(s) && c in s.live
    ensures var step := JoinRoom(s, c, roomId, userId, mode);
      var sharesId := x in s.data && s.data[x].roomId == c;
      && (x == c ==> Inbox(step.out, x) == [RoomJoined(roomId, |Members(step.state, roomId)|)])
      && (x != c && x in Members(step.state, roomId) && !sharesId ==> Inbox(step.out, x) == [UserJoined(userId, mode)])
      && (x != c && (x !in Members(step.state, roomId) || sharesId) ==> Inbox(step.out, x) == [])
  {
    var step := JoinRoom(s, c, roomId, userId, mode);
    assert step.out == [step.out[0], step.out[1]];
    InboxTwo(step.out[0], step.out[1], x);
    if x != c && x in Members(s, c) {
      MemberIsOwnerOrJoiner(s, c, x);
    }
  }

  /** The count sent back is the number of connections whose last join named the room, joiner included. */
  lemma JoinCountMatchesSessions(s: Relay, c: ConnId, roomId: RoomId, userId: string, mode: string)
    requires Valid(s) && c in s.live
    ensures var step := JoinRoom(s, c, roomId, userId, mode);
      && step.out[1].event.count >= 1
      && step.out[1].event.count
         == |set x | x in step.state.live && (x == roomId || (x in step.state.data && step.state.data[x].roomId == roomId))|
  {
    var step := JoinRoom(s, c, roomId, userId, mode);
    MembersFromSessions(step.state, roomId);
  }

  /**
   * A disconnect of a joined connection sends one `user-left` to each
   * remaining member of its last room whose own last join did not name a
   * room called like the leaving connection, and nothing to anyone else.
   * When the two rooms share only the leaver, the recipients are the room
   * less one, so the last one leaving reaches nobody.
   */
  lemma DisconnectDeliveries(s: Relay, c: ConnId, x: ConnId)
    requires Valid(s) && c in s.live && c in s.data && s.data[c].roomId != ""
    ensures var step := Disconnect(s, c);
      var sharesId := x in s.data && s.data[x].roomId == c;
      && (x in Members(s, s.data[c].roomId) && x != c && !sharesId ==> Inbox(step.out, x) == [UserLeft(s.data[c].userId)])
      && (x !in Members(s, s.data[c].roomId) || x == c || sharesId ==> Inbox(step.out, x) == [])
      && (Members(s, s.data[c].roomId) * Members(s, c) == {c} ==> |step.out[0].to| == |Members(s, s.data[c].roomId)| - 1)
  {
    var step := Disconnect(s, c);
    InboxOne(step.out[0], x);
    assert c in Members(s, s.data[c].roomId);
    if x != c && x in Members(s, c) {
      MemberIsOwnerOrJoiner(s, c, x);
    }
    if Members(s, s.data[c].roomId) * Members(s, c) == {c} {
      assert step.out[0].to == Members(s, s.data[c].roomId) - {c};
    }
  }

  /**
   * While nobody has joined a room named after the target's id, a signalling
   * message reaches exactly the target, and nobody when the target is gone,
   * is the sender itself, or last joined a room named after the sender.
   */
  lemma SignalReachesOnlyTarget(s: Relay, c: ConnId, kind: SignalKind, payload: string, targetId: ConnId, x: ConnId)
    requires Valid(s) && c in s.live
    requires forall y :: y in s.data && y != targetId ==> s.data[y].roomId != targetId
    ensures var step := Signal(s, c, kind, payload, targetId);
      Inbox(step.out, x) ==
        if x == targetId && x in s.live && x != c && !(x in s.data && s.data[x].roomId == c)
        then [SignalEvent(kind, payload, c)] else []
  {
    var step := Signal(s, c, kind, payload, targetId);
    assert step.out == [step.out[0]];
    InboxOne(step.out[0], x);
    assert c in Members(s, c);
    if x == targetId && x in s.live {
      assert x in Members(s, x);
    }
    if x in Members(s, targetId) {
      MemberIsOwnerOrJoiner(s, targetId, x);
    }
    if x in Members(s, c) {
      MemberIsOwnerOrJoiner(s, c, x);
    }
  }

  /**
   * Rooms and connection ids share one name space: a connection that joined
   * a room named after another connection's id receives that connection's
   * signalling messages too, unless the room is named after the sender.
   */
  lemma SignalReachesRoomSharers(s: Relay, c: ConnId, kind: SignalKind, payload: string, targetId: ConnId, x: ConnId)
    requires Valid(s) && x in s.data && s.data[x].roomId == targetId && x != c
    ensures Inbox(Signal(s, c, kind, payload, targetId).out, x) == if targetId == c then [] else [SignalEvent(kind, payload, c)]
  {
    var step := Signal(s, c, kind, payload, targetId);
    assert step.out == [step.out[0]];
    InboxOne(step.out[0], x);
    if x in Members(s, c) {
      MemberIsOwnerOrJoiner(s, c, x);
    }
  }
}
