/**
 * The client's peer-connection bookkeeping (script.js): the `peerConnections`
 * map from a remote connection id to the RTCPeerConnection opened for it,
 * kept by handleBroadcasterJoined, handleOffer, handleAnswer,
 * handleIceCandidate, startSharing and stopSharing, and the guard of
 * updateStats.
 *
 * A peer connection is an opaque token; a new one is the next unused number,
 * standing for the fresh object `new RTCPeerConnection(...)` creates.
 */
module ClientSession {
  import opened Wrappers
  import Quality

  type PeerId = string
  type Token = nat

  const VIEWER: string := "viewer"
  const BROADCASTER: string := "broadcaster"

  /**
   * The client state these handlers touch. `stream` and `localStream` record
   * whether the fields of the same names hold a media stream.
   */
  datatype Client = Client(
    mode: string,
    stream: bool,
    localStream: bool,
    showStats: bool,
    peers: map<PeerId, Token>,
    nextToken: nat)

  /** Every entry holds its own peer connection, and all of them were created already. */
  ghost predicate Valid(c: Client)
  {
    && (forall k :: k in c.peers ==> c.peers[k] < c.nextToken)
    && (forall k1, k2 :: k1 in c.peers && k2 in c.peers && k1 != k2 ==> c.peers[k1] != c.peers[k2])
  }

  /** The constructor: no stream, no peers. */
  function Init(mode: string, showStats: bool): (c: Client)
    ensures Valid(c) && c.peers == map[] && !c.stream && !c.localStream
    ensures c.mode == mode && c.showStats == showStats
  {
    Client(mode, false, false, showStats, map[], 0)
  }

  /** Stores a fresh peer connection under key k. */
  function AddPeer(c: Client, k: PeerId): (c': Client)
    requires Valid(c) && k !in c.peers
    ensures Valid(c')
    ensures c'.peers.Keys == c.peers.Keys + {k} && |c'.peers| == |c.peers| + 1
    ensures forall j :: j in c.peers ==> c'.peers[j] == c.peers[j]
    ensures c'.peers[k] !in c.peers.Values
    ensures c'.mode == c.mode && c'.stream == c.stream && c'.localStream == c.localStream && c'.showStats == c.showStats
  {
    c.(peers := c.peers[k := c.nextToken], nextToken := c.nextToken + 1)
  }

  /** A viewer opens one peer connection per broadcaster and never a second one. */
  function HandleBroadcasterJoined(c: Client, broadcasterId: PeerId): (c': Client)
    requires Valid(c)
    ensures Valid(c')
    ensures c.mode != VIEWER ==> c' == c
    ensures broadcasterId in c.peers ==> c' == c
    ensures c.mode == VIEWER && broadcasterId !in c.peers ==>
              c'.peers.Keys == c.peers.Keys + {broadcasterId} && |c'.peers| == |c.peers| + 1
              && c'.peers[broadcasterId] !in c.peers.Values
    ensures forall j :: j in c.peers ==> j in c'.peers && c'.peers[j] == c.peers[j]
    ensures c'.(peers := c.peers, nextToken := c.nextToken) == c
  {
    if c.mode != VIEWER then c
    else if broadcasterId in c.peers then c
    else AddPeer(c, broadcasterId)
  }

  /** A sharing broadcaster answers each viewer's first offer with a new peer connection. */
  function HandleOffer(c: Client, fromId: PeerId): (c': Client)
    requires Valid(c)
    ensures Valid(c')
    ensures c.mode != BROADCASTER || !c.localStream ==> c' == c
    ensures fromId in c.peers ==> c' == c
    ensures c.mode == BROADCASTER && c.localStream && fromId !in c.peers ==>
              c'.peers.Keys == c.peers.Keys + {fromId} && |c'.peers| == |c.peers| + 1
              && c'.peers[fromId] !in c.peers.Values
    ensures forall j :: j in c.peers ==> j in c'.peers && c'.peers[j] == c.peers[j]
    ensures c'.(peers := c.peers, nextToken := c.nextToken) == c
  {
    if c.mode != BROADCASTER || !c.localStream then c
    else if fromId in c.peers then c
    else AddPeer(c, fromId)
  }

  /** The peer connection an answer is applied to, if any; the map is never changed. */
  function HandleAnswer(c: Client, fromId: PeerId): (pc: Option<Token>)
    ensures pc.Some? <==> fromId in c.peers
    ensures pc.Some? ==> pc.value == c.peers[fromId]
  {
    if fromId in c.peers then Some(c.peers[fromId]) else None
  }

  /** The peer connection a received candidate is added to, if any; the map is never changed. */
  function HandleIceCandidate(c: Client, targetId: PeerId, hasCandidate: bool): (pc: Option<Token>)
    ensures pc.Some? <==> targetId in c.peers && hasCandidate
    ensures pc.Some? ==> pc.value == c.peers[targetId]
  {
    if targetId in c.peers && hasCandidate then Some(c.peers[targetId]) else None
  }

  /**
   * startSharing: only a broadcaster asks for the screen, and only a granted
   * request stores the captured stream in `localStream`.
   */
  function StartSharing(c: Client, granted: bool): (c': Client)
    ensures c'.localStream <==> c.localStream || (c.mode == BROADCASTER && granted)
    ensures c'.(localStream := c.localStream) == c
  {
    if c.mode != BROADCASTER then c
    else if granted then c.(localStream := true)
    else c
  }

  /** stopSharing's result: the new state and the peer connections it closed. */
  datatype Stopped = Stopped(client: Client, closed: set<Token>)

  /** stopSharing: drops the local stream, closes every peer connection and empties the map. */
  function StopSharing(c: Client): (r: Stopped)
    requires Valid(c)
    ensures Valid(r.client)
    ensures r.client.peers == map[] && !r.client.localStream
    ensures r.closed == c.peers.Values
    ensures r.client.mode == c.mode && r.client.stream == c.stream && r.client.showStats == c.showStats
  {
    Stopped(c.(localStream := false, peers := map[]), c.peers.Values)
  }

  /** Every peer connection the client held is closed, each exactly once. */
  lemma StopSharingClosesEach(c: Client)
    requires Valid(c)
    ensures |StopSharing(c).closed| == |c.peers|
  {
    InjectiveImageSize(c.peers, c.peers.Keys);
    assert c.peers.Values == set k | k in c.peers.Keys :: c.peers[k];
  }

  lemma {:induction false} InjectiveImageSize(m: map<PeerId, Token>, ks: set<PeerId>)
    requires ks <= m.Keys
    requires forall k1, k2 :: k1 in m && k2 in m && k1 != k2 ==> m[k1] != m[k2]
    ensures |set k | k in ks :: m[k]| == |ks|
  {
    if ks != {} {
      var k :| k in ks;
      InjectiveImageSize(m, ks - {k});
      assert (set j | j in ks :: m[j]) == (set j | j in ks - {k} :: m[j]) + {m[k]};
    }
  }

  /** The client-side events that touch the state above. */
  datatype ClientEvent =
    | BroadcasterJoined(broadcasterId: PeerId)
    | OfferFrom(fromId: PeerId)
    | AnswerFrom(fromId: PeerId)
    | CandidateFor(targetId: PeerId, hasCandidate: bool)
    | ShareRequested(granted: bool)
    | ShareStopped
    | ModeSet(mode: string)

  function Apply(c: Client, e: ClientEvent): (c': Client)
    requires Valid(c)
    ensures Valid(c')
  {
    match e
    case BroadcasterJoined(id) => HandleBroadcasterJoined(c, id)
    case OfferFrom(id) => HandleOffer(c, id)
    case AnswerFrom(_) => c
    case CandidateFor(_, _) => c
    case ShareRequested(granted) => StartSharing(c, granted)
    case ShareStopped => StopSharing(c).client
    case ModeSet(m) => c.(mode := m)
  }

  /** The state after a sequence of events; every reachable state is Valid. */
  function Run(c: Client, es: seq<ClientEvent>): (c': Client)
    requires Valid(c)
    ensures Valid(c')
    decreases |es|
  {
    if es == [] then c else Run(Apply(c, es[0]), es[1..])
  }

  /** No handler ever stores a stream in `stream`; only `localStream` is assigned. */
  lemma {:induction false} StreamNeverAssigned(c: Client, es: seq<ClientEvent>)
    requires Valid(c)
    ensures Run(c, es).stream == c.stream
    decreases |es|
  {
    if es != [] {
      ApplyKeepsStream(c, es[0]);
      StreamNeverAssigned(Apply(c, es[0]), es[1..]);
    }
  }

  lemma ApplyKeepsStream(c: Client, e: ClientEvent)
    requires Valid(c)
    ensures Apply(c, e).stream == c.stream
  {
  }

  /** What one tick of the statistics timer shows: the counters, the tier, the bar width and the text. */
  datatype Indicator = Indicator(stats: Quality.Stats, tier: Quality.Tier, width: nat, text: string)

  /** The indicator for one sample of simulated statistics. */
  function Show(s: Quality.Stats): (ind: Indicator)
    ensures ind.stats == s && Quality.Meets(ind.tier, s.fps, s.latency)
    ensures ind.tier == Quality.Classify(s.fps, s.latency)
    ensures ind.width == 100 - 25 * Quality.Rank(ind.tier)
    ensures ind.text == Quality.Label(ind.tier)
  {
    var t := Quality.Classify(s.fps, s.latency);
    Indicator(s, t, Quality.Width(t), Quality.Label(t))
  }

  /** updateStats as written: it returns early unless `stream` is set. */
  function UpdateStatsAsWritten(c: Client, fpsPick: nat, latencyPick: nat, bitratePick: nat): (r: Option<Indicator>)
    requires fpsPick < 30 && latencyPick < 200 && bitratePick < 5000
    ensures r.Some? <==> c.stream && c.showStats
  {
    if !c.stream || !c.showStats then None
    else Some(Show(Quality.GenerateStats(fpsPick, latencyPick, bitratePick)))
  }

  /** The indicator is never updated, whatever the client did since it started. */
  lemma IndicatorNeverUpdatedAsWritten(mode: string, showStats: bool, es: seq<ClientEvent>,
                                       fpsPick: nat, latencyPick: nat, bitratePick: nat)
    requires fpsPick < 30 && latencyPick < 200 && bitratePick < 5000
    ensures UpdateStatsAsWritten(Run(Init(mode, showStats), es), fpsPick, latencyPick, bitratePick) == None
  {
    StreamNeverAssigned(Init(mode, showStats), es);
  }

  /** updateStats guarded by the stream startSharing actually stores. */
  function UpdateStats(c: Client, fpsPick: nat, latencyPick: nat, bitratePick: nat): (r: Option<Indicator>)
    requires fpsPick < 30 && latencyPick < 200 && bitratePick < 5000
    ensures r.Some? <==> c.localStream && c.showStats
    ensures r.Some? ==> r.value.tier != Quality.Poor && r.value.width >= 50
    ensures r.Some? ==> r.value.stats == Quality.GenerateStats(fpsPick, latencyPick, bitratePick)
    ensures r.Some? ==> r.value.tier == Quality.Classify(r.value.stats.fps, r.value.stats.latency)
    ensures r.Some? ==> r.value.text == Quality.Label(r.value.tier)
    ensures r.Some? ==> r.value.width == Quality.Width(r.value.tier)
  {
    if !c.localStream || !c.showStats then None
    else
      var s := Quality.GenerateStats(fpsPick, latencyPick, bitratePick);
      Quality.GeneratedStatsNeverPoor(fpsPick, latencyPick, bitratePick);
      Some(Show(s))
  }

  /**
   * Any broadcaster with statistics shown whose screen request is granted
   * sees the indicator with the corrected guard, whatever the samples; as
   * written, granting the request does not change what is shown.
   */
  lemma SharingShowsIndicator(c: Client, fpsPick: nat, latencyPick: nat, bitratePick: nat)
    requires fpsPick < 30 && latencyPick < 200 && bitratePick < 5000
    requires c.mode == BROADCASTER && c.showStats
    ensures UpdateStats(StartSharing(c, true), fpsPick, latencyPick, bitratePick).Some?
    ensures UpdateStatsAsWritten(StartSharing(c, true), fpsPick, latencyPick, bitratePick)
            == UpdateStatsAsWritten(c, fpsPick, latencyPick, bitratePick)
  {
  }
}
