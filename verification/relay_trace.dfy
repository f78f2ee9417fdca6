/**
 * Runs of the relay: Node's event loop hands the relay one socket event at a
 * time, so any interleaving of clients is a sequence of the handlers in
 * SignalRelay, each applied atomically.
 */
module RelayTrace {
  import opened SignalRelay

  /** One socket event as the server sees it. */
  datatype Input =
    | Open(c: ConnId)
    | Join(c: ConnId, roomId: RoomId, userId: string, mode: string)
    | Send(c: ConnId, kind: SignalKind, payload: string, targetId: ConnId)
    | Close(c: ConnId)

  /**
   * Applies one event. Handlers exist only on connected sockets, so events of
   * unknown connections change nothing; the transport never reuses the id of
   * a connected socket, so a repeated Open changes nothing either.
   */
  function Apply(s: Relay, e: Input): (step: Step)
    requires Valid(s)
    ensures Valid(step.state)
  {
    match e
    case Open(c) => if c in s.live then Step(s, []) else Step(Connect(s, c), [])
    case Join(c, roomId, userId, mode) => if c in s.live then JoinRoom(s, c, roomId, userId, mode) else Step(s, [])
    case Send(c, kind, payload, targetId) => if c in s.live then Signal(s, c, kind, payload, targetId) else Step(s, [])
    case Close(c) => if c in s.live then Disconnect(s, c) else Step(s, [])
  }

  /** The final state of a run and all its emissions in order; every reachable state is Valid. */
  function Run(s: Relay, es: seq<Input>): (step: Step)
    requires Valid(s)
    ensures Valid(step.state)
    decreases |es|
  {
    if es == [] then Step(s, [])
    else
      var first := Apply(s, es[0]);
      var rest := Run(first.state, es[1..]);
      Step(rest.state, first.out + rest.out)
  }

  /** After any run from the empty relay, a connection is in its own room and at most one other. */
  lemma RunKeepsOneNamedRoom(es: seq<Input>, c: ConnId)
    requires c in Run(Empty(), es).state.live
    ensures var s := Run(Empty(), es).state;
      RoomsOf(s, c) == if c in s.data then {c, s.data[c].roomId} else {c}
  {
    AtMostOneNamedRoom(Run(Empty(), es).state, c);
  }

  /** Inbox distributes over concatenated emissions. */
  lemma {:induction false} InboxAppend(a: seq<Emission>, b: seq<Emission>, x: ConnId)
    ensures Inbox(a + b, x) == Inbox(a, x) + Inbox(b, x)
  {
    if a != [] {
      assert (a + b)[1..] == a[1..] + b;
      InboxAppend(a[1..], b, x);
    } else {
      assert a + b == b;
    }
  }

  /** What connection x receives from each event of a run, step by step, in order. */
  function StepInboxes(s: Relay, es: seq<Input>, x: ConnId): seq<seq<Event>>
    requires Valid(s)
    decreases |es|
  {
    if es == [] then []
    else
      var first := Apply(s, es[0]);
      [Inbox(first.out, x)] + StepInboxes(first.state, es[1..], x)
  }

  function Concat(ss: seq<seq<Event>>): seq<Event>
  {
    if ss == [] then [] else ss[0] + Concat(ss[1..])
  }

  /** What a connection receives over a run is what it receives from each event, in the order of the events. */
  lemma {:induction false} RunInboxIsPerStep(s: Relay, es: seq<Input>, x: ConnId)
    requires Valid(s)
    ensures Inbox(Run(s, es).out, x) == Concat(StepInboxes(s, es, x))
    ensures |StepInboxes(s, es, x)| == |es|
    decreases |es|
  {
    if es != [] {
      var first := Apply(s, es[0]);
      var rest := Run(first.state, es[1..]);
      var steps := StepInboxes(first.state, es[1..], x);
      RunInboxIsPerStep(first.state, es[1..], x);
      InboxAppend(first.out, rest.out, x);
      assert ([Inbox(first.out, x)] + steps)[1..] == steps;
    }
  }

  /**
   * A publisher and a viewer meet in one room: the viewer's join is announced
   * to the publisher, the publisher's offer reaches the viewer tagged with the
   * publisher's id, and the publisher's departure reaches the viewer once.
   */
  lemma PublisherViewerScenario()
    ensures var s2 := Connect(Connect(Empty(), "a"), "b");
      var j1 := JoinRoom(s2, "a", "R1", "alice", "broadcaster");
      var j2 := JoinRoom(j1.state, "b", "R1", "bob", "viewer");
      var o := Signal(j2.state, "a", OfferSignal, "sdp", "b");
      var d := Disconnect(o.state, "a");
      && Inbox(j1.out, "a") == [RoomJoined("R1", 1)]
      && Inbox(j2.out, "a") == [UserJoined("bob", "viewer")]
      && Inbox(j2.out, "b") == [RoomJoined("R1", 2)]
      && Inbox(o.out, "b") == [Offer("sdp", "a")] && Inbox(o.out, "a") == []
      && Inbox(d.out, "b") == [UserLeft("alice")]
      && Members(d.state, "R1") == {"b"}
  {
    var s2 := Connect(Connect(Empty(), "a"), "b");
    assert s2.live == {"a", "b"} && s2.data == map[] && Members(s2, "R1") == {};
    var j1 := JoinRoom(s2, "a", "R1", "alice", "broadcaster");
    ScenarioFirstJoin(s2, "a", "b", "R1", "alice", "broadcaster");
    var j2 := JoinRoom(j1.state, "b", "R1", "bob", "viewer");
    ScenarioSecondJoin(j1.state, "a", "b", "R1", "bob", "viewer");
    assert j2.state.live == {"a", "b"} && j2.state.data.Keys == {"a", "b"};
    assert Members(j2.state, "R1") == {"a", "b"};
    assert j2.state.data["a"] == Session("R1", "alice", "broadcaster");
    var o := Signal(j2.state, "a", OfferSignal, "sdp", "b");
    ScenarioOffer(j2.state, "a", "b", "R1", "sdp");
    ScenarioLeave(o.state, "a", "b", "R1", "alice", "broadcaster");
  }

  lemma ScenarioFirstJoin(s: Relay, a: ConnId, b: ConnId, room: RoomId, user: string, mode: string)
    requires Valid(s) && a != b && s.live == {a, b} && s.data == map[] && Members(s, room) == {}
    ensures var j := JoinRoom(s, a, room, user, mode);
      && Inbox(j.out, a) == [RoomJoined(room, 1)]
      && j.state.live == {a, b} && j.state.data.Keys == {a} && Members(j.state, room) == {a}
  {
    JoinDeliveries(s, a, room, user, mode, a);
  }

  lemma ScenarioSecondJoin(s: Relay, a: ConnId, b: ConnId, room: RoomId, user: string, mode: string)
    requires Valid(s) && a != b && room != a && room != b
    requires s.live == {a, b} && s.data.Keys == {a} && Members(s, room) == {a}
    ensures var j := JoinRoom(s, b, room, user, mode);
      && Inbox(j.out, a) == [UserJoined(user, mode)]
      && Inbox(j.out, b) == [RoomJoined(room, 2)]
  {
    var j := JoinRoom(s, b, room, user, mode);
    assert |Members(j.state, room)| == 2;
    MemberIsOwnerOrJoiner(s, room, a);
    JoinDeliveries(s, b, room, user, mode, a);
    JoinDeliveries(s, b, room, user, mode, b);
  }

  lemma ScenarioOffer(s: Relay, a: ConnId, b: ConnId, room: RoomId, payload: string)
    requires Valid(s) && a != b && a != room && b != room && s.live == {a, b} && s.data.Keys == {a, b}
    requires s.data[a].roomId == room && s.data[b].roomId == room
    ensures var o := Signal(s, a, OfferSignal, payload, b);
      Inbox(o.out, b) == [Offer(payload, a)] && Inbox(o.out, a) == [] && o.state == s
  {
    SignalReachesOnlyTarget(s, a, OfferSignal, payload, b, a);
    SignalReachesOnlyTarget(s, a, OfferSignal, payload, b, b);
  }

  lemma ScenarioLeave(s: Relay, a: ConnId, b: ConnId, room: RoomId, user: string, mode: string)
    requires Valid(s) && a != b && room != a && room != b
    requires s.live == {a, b} && Members(s, room) == {a, b} && room != ""
    requires a in s.data && s.data[a] == Session(room, user, mode)
    ensures var d := Disconnect(s, a);
      Inbox(d.out, b) == [UserLeft(user)] && Members(d.state, room) == {b}
  {
    MemberIsOwnerOrJoiner(s, room, b);
    DisconnectDeliveries(s, a, b);
  }
}
