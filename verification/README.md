# Screen-share signalling relay and client bookkeeping, in Dafny

This project models the two pieces of the screen-sharing application that carry real logic.

The first is the Socket.IO signalling relay in `server.js`. It tracks which connections sit in which rooms. On `join-room` it moves a connection into one shared room and announces it. It relays `offer`, `answer` and `ice-candidate` messages to a target connection. When a connection goes away it announces `user-left`.

The second is the browser client's pure helpers in `script.js`:
- the room-code sanitiser and validator behind "join by code";
- the room-code generator;
- the quality-tier classifier of the statistics panel;
- the icon lookup for notifications;
- the bookkeeping of the `peerConnections` map, one WebRTC peer connection per remote connection id.

Modules:
- `SignalRelay` (`signal_relay.dfy`) models the relay's state. That state is the set of connected sockets, the adapter's room map (room name to non-empty set of connection ids) and each socket's `data`. Each handler is a pure transition that returns the new state and the handler's `emit` calls in order. An `emit` is written as the set of connections it reaches plus the event. `socket.to(R)` reaches every member of room `R` except the members of the room named by the sender's id. Socket.IO 4 excludes that whole room, which holds the sender and anyone who joined a room named after it. `Valid` is the membership invariant: every connection is in its own room, and in at most one other room, namely the one its last join named.
- `RelayTrace` (`relay_trace.dfy`) models runs of socket events, handled one at a time as Node's event loop does. It shows that every reachable state is `Valid`, and it walks through a publisher/viewer scenario.
- `RoomCode` (`room_code.dfy`): `trim`, ASCII `toUpperCase`, the `[^A-Z0-9-]` filter, the two rejections and `generateRoomId`.
- `Quality` (`quality.dfy`): the simulated statistics and the four-tier classifier.
- `ClientSession` (`client_session.dfy`): the client's `peerConnections` handling, start and stop of sharing, and the guard of `updateStats`.
- `Notifications` (`notifications.dfy`): `getNotificationIcon`.
- `Wrappers` (`wrappers.dfy`): `Option` and `Result`.

The model follows the code as written, including these points:
- `user-joined` carries only the user id and the mode, not the joiner's connection id (server.js:49).
- The relay reads signalling messages as positional `(payload, targetId)` arguments (server.js:55-67). The client sends a single object instead. The model does not reconcile the two.
- The server has no handler for `request-broadcasters`, `broadcast-started` or `chat-message`, so there is no broadcaster discovery and no chat relay.
- `disconnect` tests the stored room id for JavaScript truthiness. A connection that joined the room named `""` therefore leaves silently.
- `handleIceCandidate` looks up the peer connection under the message's `targetId` (script.js:763-764), which is the receiver's own id, not the sender's. `HandleIceCandidate` models that lookup as written.
- Room names and connection ids share one name space. `socket.to(targetId)` reaches every member of the room named `targetId`, not only the connection with that id. `SignalReachesRoomSharers` shows this case. `SignalReachesOnlyTarget` shows delivery to the target alone when nobody has joined a room named after the target.
- The same name space works the other way for the sender. Socket.IO 4's `socket.to` leaves out the whole room named by the sender's id. A connection that joined a room named after the sender therefore misses the sender's `user-joined`, `user-left` and signalling messages.

## Model

| member | source | states |
|---|---|---|
| SignalRelay.Connect | server.js:24-25 | a new connection is in the room named by its own id; no other room changes; the invariant holds |
| SignalRelay.JoinRooms | server.js:29-37 | the room map after a join: the joiner left every room but its own, entered the requested one, and no other membership changed |
| SignalRelay.JoinState | server.js:29-40 | join keeps the invariant; the new room gains the joiner; every other room except the joiner's own loses only the joiner; the session is replaced wholesale by (roomId, userId, mode) and no other session changes |
| SignalRelay.JoinRoom | server.js:27-53 | the handler's state is the join above, in which the requested room holds its old members plus the joiner; `user-joined` goes to the new room's members outside the room named by the joiner's id, never to the joiner; `room-joined` goes to the joiner with the new room's size |
| SignalRelay.JoinLandsInOneRoom | server.js:29-37 | after a join the joiner is in exactly two rooms: its own and the requested one |
| SignalRelay.JoinDeliveries | server.js:49-52 | the joiner receives only `room-joined`; every other member of the new room receives only `user-joined`, unless its last join named a room called like the joiner's id; everyone else, including members of the room it left, receives nothing |
| SignalRelay.JoinCountMatchesSessions | server.js:43-52 | the count sent back is at least 1 and equals the number of connections whose last join named the room, plus the room's owner connection |
| SignalRelay.Signal | server.js:55-67 | a relayed message leaves the state unchanged and goes to the members of room `targetId` outside the room named by the sender's id, as the same kind of message carrying the payload unchanged, tagged with the sender's id |
| SignalRelay.SignalReachesOnlyTarget | server.js:55-67 | if no other connection joined a room named after the target, the message reaches exactly the target; it reaches nobody when the target is gone, is the sender, or last joined a room named after the sender |
| SignalRelay.SignalReachesRoomSharers | server.js:55-67 | a connection whose last join named a room called like the target id also receives the target's messages, except when that room is named after the sender |
| SignalRelay.Disconnect | server.js:69-78 | disconnect keeps the invariant; the connection leaves every room and its session is dropped; no other membership changes; nothing is emitted unless a non-empty room id was stored; otherwise one `user-left` with the stored user id goes to that room's members outside the room named by the leaver's id |
| SignalRelay.DisconnectDeliveries | server.js:69-76 | each remaining member of the last joined room receives exactly one `user-left`, unless its last join named a room called like the leaver; nobody else receives anything; when the two rooms share only the leaver, the recipient count is the room size minus one, so the last member leaving reaches nobody |
| SignalRelay.AtMostOneNamedRoom | server.js:29-40 | under the invariant a connection is in its own room and, if it joined, in the room its session names and no other |
| SignalRelay.MembersFromSessions | server.js:29-40 | under the invariant a room holds exactly its owner connection and the connections whose last join named it |
| SignalRelay.LeaveAllRooms | server.js:69-78 | removing a connection from all rooms takes it out of every member set and keeps no empty room |
| RelayTrace.Run | server.js:24-79 | every state reachable by a sequence of connect, join, signal and disconnect events satisfies the invariant |
| RelayTrace.RunKeepsOneNamedRoom | server.js:27-40 | in every reachable state a connected socket is in its own room plus at most its last joined room |
| RelayTrace.InboxAppend | server.js:49-75 | what a connection receives over two consecutive runs of handlers is what it receives in the first followed by the second |
| RelayTrace.RunInboxIsPerStep | server.js:24-79 | what a connection receives over a run is what it receives from each event's handler, one entry per event, concatenated in the order of the events |
| RelayTrace.PublisherViewerScenario | server.js:24-79 | with two connections in room R1, the publisher is told the viewer joined; the viewer gets the count 2; the publisher's offer reaches the viewer alone, tagged with the publisher's id; when the publisher leaves, the viewer gets one `user-left` and R1 holds only the viewer |
| RelayTrace.ScenarioSecondJoin | server.js:43-52 | when a viewer joins a room that holds one publisher and is named after neither of them, the publisher hears `user-joined` and the viewer receives the count 2 |
| RoomCode.Trim | script.js:142 | the trimmed code is empty exactly when the input is all white space, and otherwise starts and ends with a non-space character |
| RoomCode.TrimStripsPadding | script.js:142 | trimming white-space padding around a word yields the word |
| RoomCode.Upper | script.js:142 | upper-casing keeps the length and maps each character by ASCII upper-casing |
| RoomCode.KeepCodeChars | script.js:151 | the filtered code holds only A-Z, 0-9 and '-', and a code made only of those is unchanged |
| RoomCode.KeepCodeCharsCounts | script.js:151 | the filter keeps every A-Z, 0-9 and '-' as often as it occurs and drops every other character |
| RoomCode.KeepCodeCharsAppend | script.js:151 | the filter distributes over concatenation, so order is kept |
| RoomCode.CleanCodeIgnoresTrim | script.js:142-151 | the cleaned code equals the upper-cased, filtered input; trimming only matters for the emptiness check |
| RoomCode.CleanCodeIdempotent | script.js:142-151 | cleaning a cleaned code changes nothing |
| RoomCode.ValidateRoomCode | script.js:142-157 | an all-white-space input is rejected as missing; a code with fewer than 3 characters after cleaning is rejected as invalid; otherwise the cleaned code is accepted |
| RoomCode.JoinRoomByCode | script.js:138-159 | on rejection the current room id is untouched; on acceptance it becomes the cleaned code |
| RoomCode.GenerateRoomId | script.js:56-63 | a generated code has 7 characters: three of A-Z without I and O, then '-', then three of 2-9 |
| RoomCode.GeneratedCodeIsAccepted | script.js:56-63 | every generated code passes joinRoomByCode's checks unchanged |
| RoomCode.GenerateRoomIdInjective | script.js:56-63 | distinct random picks give distinct codes |
| Quality.Classify | script.js:1116-1130 | the tier is the first match of (fps > 25, latency < 100), (fps > 20, latency < 200), (fps > 15, latency < 300), else the lowest tier |
| Quality.ClassifyIsBestMet | script.js:1117-1129 | the chosen tier is the best one whose thresholds the sample meets |
| Quality.ClassifyMonotone | script.js:1117-1129 | a higher frame rate and lower latency never give a worse tier |
| Quality.Width | script.js:1118-1127 | the bar width is 100, 75, 50 and 25 percent from the best tier to the worst: a quarter less per rank |
| Quality.Label | script.js:1119-1128 | every indicator text starts with "Kalite: " |
| Quality.IndicatorIdentifiesTier | script.js:1118-1128 | two different tiers never show the same bar width or the same text |
| Quality.GenerateStats | script.js:1100-1102 | simulated fps is in [20, 49], latency in [50, 249] ms and bitrate in [2000, 6999] |
| Quality.GeneratedStatsNeverPoor | script.js:1100-1129 | simulated statistics never reach the lowest tier |
| Notifications.NotificationIcon | script.js:1180-1188 | success, error and warning each get their own icon, and every other kind the program passes gets the info icon |
| ClientSession.Init | script.js:3-45 | a new client has the given mode and statistics setting and holds no stream and no peer connection |
| ClientSession.AddPeer | script.js:621-628 | storing a new peer connection adds exactly one entry, with a connection no other entry holds |
| ClientSession.HandleBroadcasterJoined | script.js:611-628 | nothing happens unless the client is a viewer or if an entry exists for the broadcaster; otherwise exactly one entry keyed by the broadcaster id is added; existing entries are kept; mode, streams and the statistics setting never change |
| ClientSession.HandleOffer | script.js:681-702 | an offer is ignored unless the client is a broadcaster with a local stream, and ignored if an entry exists for the sender; otherwise exactly one entry keyed by the sender id is added; mode, streams and the statistics setting never change |
| ClientSession.HandleAnswer | script.js:748-759 | an answer is applied to the sender's peer connection exactly when one exists |
| ClientSession.HandleIceCandidate | script.js:762-772 | a candidate is added to the named peer connection exactly when that connection exists and the candidate is present |
| ClientSession.StartSharing | script.js:774-795 | only a broadcaster whose screen request was granted gets a local stream; nothing else changes |
| ClientSession.StopSharing | script.js:838-845 | stopping drops the local stream, closes exactly the peer connections the map held, and empties the map |
| ClientSession.StopSharingClosesEach | script.js:844-845 | as many peer connections are closed as the map had entries |
| ClientSession.Run | script.js:611-845 | every client state reachable through these handlers keeps one distinct peer connection per entry |
| ClientSession.StreamNeverAssigned | script.js:4 | no handler changes the `stream` field |
| ClientSession.UpdateStatsAsWritten | script.js:1096-1097 | the indicator is updated exactly when `stream` is set and statistics are shown |
| ClientSession.Show | script.js:1116-1129 | the indicator shows the sample, the tier the classifier picks (whose thresholds the sample therefore meets), the width for that tier and its text |
| ClientSession.IndicatorNeverUpdatedAsWritten | script.js:1096-1097 | as written, the indicator is never updated in any reachable client state |
| ClientSession.UpdateStats | script.js:1096-1129 | with the guard on the captured stream, the indicator is updated exactly while sharing with statistics shown; it then shows the simulated sample, the tier the classifier picks, that tier's text and that tier's bar width, never the lowest tier |
| ClientSession.SharingShowsIndicator | script.js:785-1097 | for any broadcaster with statistics shown and any sample, a granted screen request makes the corrected indicator appear; as written, the request does not change what is shown |

## Findings

| source | as written | input that shows it | evidently intended | confidence | as-written member | corrected member |
|---|---|---|---|---|---|---|
| script.js:1097 | `updateStats` returns early unless `this.stream` is set, but `this.stream` is only ever assigned `null` (script.js:4). `startSharing` stores the captured screen in `this.localStream` instead (script.js:785). | A broadcaster with statistics shown starts sharing and the request is granted. The quality indicator and counters are still never updated. | Guard on the stream that sharing actually captures (`localStream`). | high (not executed) | ClientSession.IndicatorNeverUpdatedAsWritten | ClientSession.UpdateStats |

`toggleAudio` and `toggleVideo` (script.js:861, 875) have the same guard. They are outside this model.

## Left out

- Express, HTTP serving, CORS, the port and Socket.IO's transport and reconnection options (server.js:1-18, 81-84; script.js:397-402) are library plumbing. Only the adapter's room map is modelled.
- Console logging is not modelled. This includes the remaining-user count on server.js:73, which is only logged and depends on when Socket.IO removes the socket from its rooms.
- The client events that the server does not handle (`request-broadcasters`, `broadcast-started`, `chat-message`) are not modelled.
- Payloads, user ids, modes and room ids are modelled as strings. JavaScript lets a client pass any value, including `undefined`. This hides cases in the relay. A falsy non-string room id such as `null`, `0` or `false`, which is what a join with a missing room id sends, still puts the socket in a room and announces it (server.js:37, 49), but on disconnect the `if (roomId)` test (server.js:71) sends no `user-left`, so `SignalRelay.DisconnectDeliveries` holds only for string room ids. Socket.IO's `socket.join` also accepts an array, so a client that sends an array as `roomId` would end up in several rooms, and `rooms.get` of that array is `undefined`, making the count sent back 0 (server.js:37, 43-44). The invariant that a connection is in at most one room besides its own, and the count of at least 1 in `SignalRelay.JoinCountMatchesSessions`, rely on room ids being strings.
- RTCPeerConnection, SDP, ICE and every `await` are left out. A peer connection is an opaque token. After the bookkeeping, `handleBroadcasterJoined` and `handleOffer` emit an offer or answer asynchronously and may fail; this part is not modelled. The tracks `startSharing` adds to existing peer connections are not modelled either.
- `Math.random` is replaced by the floored picks, which are passed in as arguments in their ranges.
- RoomCode.Upper: maps only ASCII a-z. Full Unicode upper-casing differs where a non-ASCII letter upper-cases to ASCII (for example dotless `ı` to `I`, or `ſ` to `S`). JavaScript would keep such a letter in the cleaned code; the model drops it.
- The client's `peerConnections` map is a plain JavaScript object. Keys that name inherited `Object.prototype` properties such as `constructor` behave differently there. Socket.IO connection ids never take those names, and the model treats the map as an ordinary map.
- Notifications.NotificationIcon: `getNotificationIcon` also looks the kind up in a plain object (script.js:1181-1187). A kind such as `constructor` or `toString` would return an inherited function instead of `info-circle`. Every `showNotification` call passes a literal kind, so this cannot happen in the program, and the model gives the info icon for every other string.
- The relay assumes Socket.IO 4, where `socket.to` excludes the room named by the sender's id. The source does not pin the version, but `socket.data` exists only in version 4. Socket.IO 3 would exclude only the sending socket.
- Everything else is left out because it involves DOM, rendering, the notification timers, settings in localStorage, the WebAudio sounds, or the bitrate text formatting with `toFixed`.
- The missing `room-code-input` element (script.js:140) and the URL and history updates after a successful join are DOM concerns.
