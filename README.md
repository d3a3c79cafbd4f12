# Signaling for a two-peer WebRTC chat, modelled in Dafny

This project models the signaling core of a WebRTC video-chat application. Two
browser peers use it to swap session descriptions (offer and answer) and ICE
candidates before they talk directly. It covers three pieces:

- **The browser's signaling dispatcher** (`client_signaling.dfy`, module
  `ClientSignaling`). This is the `onmessage` handler of the signaling WebSocket
  and the handlers a new `RTCPeerConnection` gets. `Client` is the page's state:
  - the peer connection (`None` when there is none), with its local and remote
    descriptions, the remote candidates added to it, and whether it waits for a
    data channel;
  - the `isInitiator` flag, the status text, and the chat-input-disabled flag;
  - the chat channel, and the outbox of signaling messages sent.

  Each handler is a function on `Client`. The class `SignalingClient` keeps the
  same state in fields and updates them in place. Each of its methods is proved
  to leave the state its function gives. The browser calls are asynchronous and
  each can fail: createOffer, createAnswer, setLocalDescription,
  setRemoteDescription and addIceCandidate. `Outcomes` is a parameter that says
  how each call ends. Descriptions and candidates are opaque values.
- **The global broadcast relay** (`broadcast_relay.dfy`, module `BroadcastRelay`).
  This is the Python `websockets` server. One module-level `clients` set is shared
  by every connection. The handler adds its socket and forwards every message it
  reads, unchanged, to every other client. It removes its socket in `finally`.
  Python's set iteration order is unspecified, so the fan-out loop picks the next
  recipient arbitrarily. A recipient whose `send` raises `ConnectionClosed` ends
  the fan-out at that point. The exception also ends the sender's own handler, so
  the sender is removed, even though it was another client's connection that
  closed.
- **The room-scoped relay** (`room_relay.dfy`, module `RoomRelay`). This is the
  socket.io function. A connecting socket joins the rooms its handshake `room`
  parameter names. Usually that is one room. A repeated parameter
  (`?room=a&room=b`) parses to an array, and the socket joins every room in it. If
  the query has no `room`, the socket joins the room `undefined`, which all such
  sockets share. A socket's rooms are fixed for the connection's lifetime. A
  `signal` event goes, once and with its name and data unchanged, to every other
  socket that shares one of the sender's rooms. One modelling assumption:
  `socket.to(rooms)` leaves out the sender and reaches each target once, as
  socket.io documents. The HTTP handler always answers 200 with
  `Socket.IO ready`.

The code has no room capacity limit, and the server does not assign roles. The
client does not buffer early candidates: a candidate is added at once
(frontend/js/app.js:72). There is no reconnect backoff and no queue of pending chat
messages. The model has none of these either.

## Model

| member | source | states |
|---|---|---|
| ClientSignaling.MessageStep | frontend/js/app.js:3-86 | Handling one inbound message never touches the chat, never creates or drops the peer connection, and sends at most one message. A sent offer happens only on `ready` with the initiator flag and equals the new local description. A sent answer happens only on `offer`; it equals the new local description, and the received offer is the remote description. Only `ready` changes `isInitiator`. |
| ClientSignaling.ReadySetsRole | frontend/js/app.js:9-26 | `ready` sets `isInitiator` to the message's flag. The status is 'Failed to create offer. Please refresh.' exactly when the flag is set, a connection exists, and createOffer or setLocalDescription fails. Otherwise it is 'Waiting for peer to join...' for an initiator and 'Joining existing room...' for a responder. |
| ClientSignaling.ReadySendsOffer | frontend/js/app.js:9-27 | After `ready`, an offer is sent iff the flag is set, a connection exists, and createOffer and setLocalDescription both succeed. Gives the whole resulting state in each case. When the offer is sent, the only changes are the role, the status 'Waiting for peer to join...', the local description set to the offer, and the one offer sent. When it fails, only the role and the status 'Failed to create offer. Please refresh.' change. Without the flag or without a connection, only the role and the role's status text change. |
| ClientSignaling.WithoutConnectionIgnored | frontend/js/app.js:30-70 | With no peer connection, an `offer`, `answer` or `candidate` leaves the whole state unchanged and sends nothing. |
| ClientSignaling.OfferAnswered | frontend/js/app.js:36-48 | Gives the whole resulting state for each outcome, with a connection. A rejected offer changes only the status, to 'Failed to create answer. Please refresh.'. An accepted offer becomes the remote description. If the answer is then created and set, exactly one answer is sent, equal to the new local description, and nothing else changes. If not, no answer is sent, the local description is unchanged, and the status is set to the failure text. |
| ClientSignaling.AnswerApplied | frontend/js/app.js:51-64 | `answer` never sends anything. It only sets the remote description, or on failure only sets the status to 'Failed to complete connection. Please refresh.' |
| ClientSignaling.CandidateAdded | frontend/js/app.js:66-77 | `candidate` never sends anything and never changes the status. On success the only change is the candidate appended to the connection at once (no buffering). On failure the state is unchanged. |
| ClientSignaling.UnknownAndUnparsable | frontend/js/app.js:79-85 | An unknown message type changes nothing. Data that fails to parse only sets the status to 'Error in connection. Please refresh the page.' |
| ClientSignaling.IceCandidateStep | frontend/js/app.js:102-110 | A gathered candidate is sent iff it is non-null and the signaling socket is open. Then it is appended unchanged, and nothing else changes. |
| ClientSignaling.IceConnectionStateStep | frontend/js/app.js:112-125 | An ICE state change changes at most the status. |
| ClientSignaling.IceStateTable | frontend/js/app.js:112-125 | `checking`, `connected` and `failed` show 'Connecting to peer...', 'Connected to peer' and 'Connection failed. Please refresh the page.'. Every other ICE state changes nothing. |
| ClientSignaling.ConnectionStateStep | frontend/js/app.js:127-142 | A connection state change changes at most the status and the chat-disabled flag, and it can only disable the chat. |
| ClientSignaling.ConnectionStateTable | frontend/js/app.js:127-142 | `connected` only sets the status. `disconnected` and `failed` set their status texts and disable the chat. Every other state changes nothing. |
| ClientSignaling.CreatePeerConnectionStep | frontend/js/app.js:90-165 | A new connection has no descriptions and no candidates. The chat channel becomes an ordered channel labelled "chat" iff the connection is built for an initiator, and is unchanged otherwise. The responder's connection waits for `ondatachannel`. When construction fails there is no connection and the status is 'Failed to create connection. Please check your browser compatibility.'. On success the status is unchanged. The outbox and the role never change. |
| ClientSignaling.DataChannelStep | frontend/js/app.js:150-156 | On a connection set up as responder, the channel the remote peer opens always becomes the chat channel. Otherwise nothing changes. Nothing but the chat channel ever changes. |
| ClientSignaling.ReplayNeverSendsCandidates | frontend/js/app.js:3-86 | Over any sequence of inbound messages, the outbox only grows, and nothing the dispatcher sends is a candidate. |
| ClientSignaling.ReplayWithoutConnectionIsSilent | frontend/js/app.js:30-70 | Without a peer connection, no sequence of inbound messages sends anything or creates a connection. |
| ClientSignaling.OffersNeedInitiatorReady | frontend/js/app.js:9-28 | A sequence with no initiator `ready` sends no offer. |
| ClientSignaling.AnswersNeedOffer | frontend/js/app.js:30-49 | A sequence with no `offer` sends no answer. |
| ClientSignaling.SignalingClient.OnMessage | frontend/js/app.js:3-86 | The in-place `onmessage` handler leaves exactly the state `MessageStep` gives. |
| ClientSignaling.SignalingClient.OnIceCandidate | frontend/js/app.js:102-110 | The in-place `onicecandidate` handler leaves exactly the state `IceCandidateStep` gives. |
| ClientSignaling.SignalingClient.OnIceConnectionStateChange | frontend/js/app.js:112-125 | The in-place `oniceconnectionstatechange` handler leaves exactly the state `IceConnectionStateStep` gives. |
| ClientSignaling.SignalingClient.OnConnectionStateChange | frontend/js/app.js:127-142 | The in-place `onconnectionstatechange` handler leaves exactly the state `ConnectionStateStep` gives. |
| ClientSignaling.SignalingClient.CreatePeerConnection | frontend/js/app.js:90-165 | `createPeerConnection` returns the new connection, or None on failure. The result is stored as the client's connection, and the state is what `CreatePeerConnectionStep` gives. |
| ClientSignaling.SignalingClient.OnDataChannel | frontend/js/app.js:152-156 | The in-place `ondatachannel` handler leaves exactly the state `DataChannelStep` gives. |
| BroadcastRelay.CompletedFanOuts | backend/signaling_server.py:9-17 | The number of fan-outs that complete is the index of the first message whose fan-out meets a closed recipient, or all messages when none does. |
| BroadcastRelay.Relay.constructor | backend/signaling_server.py:4 | `clients` starts empty. |
| BroadcastRelay.Relay.Connect | backend/signaling_server.py:7 | Connecting adds exactly the new socket to `clients`. |
| BroadcastRelay.Relay.Disconnect | backend/signaling_server.py:16-17 | Removal takes exactly that socket out of `clients`. |
| BroadcastRelay.Relay.Forward | backend/signaling_server.py:11-13 | With no closed recipient, every other member of the one global set receives the unchanged message exactly once. The sender and non-members receive nothing. A `ConnectionClosed` (aborted iff some other client is closed) leaves each other client with the message once or not at all, and never delivers to a closed one. |
| BroadcastRelay.Relay.Handler | backend/signaling_server.py:6-17 | A connection's messages are forwarded in arrival order, each fan-out before the next read. Every other client receives the prefix of completed fan-outs, plus the aborted one's message at most. The sender receives nothing. When the loop ends, normally or by `ConnectionClosed`, only the sender is removed from `clients`. |
| RoomRelay.RoomsFromQuery | netlify/functions/websocket.js:12-13 | Without a `room` parameter the socket joins exactly the room `undefined`. Otherwise it joins exactly the named rooms, every value of a repeated parameter included, and never `undefined`. It always joins at least one room. |
| RoomRelay.SingleRoomQuery | netlify/functions/websocket.js:12-13 | A handshake with at most one `room` value joins exactly one room: that name, or `undefined`. |
| RoomRelay.Deliver | netlify/functions/websocket.js:15-17 | One `signal` keeps every socket's inbox, except that a socket other than the sender that shares one of its rooms may gain the one emission ('signal', data). |
| RoomRelay.DeliverExactlyToRoomPeers | netlify/functions/websocket.js:16 | A `signal` reaches exactly the other sockets that share a room with the sender, once each, with event name and data unchanged. The sender and the sockets in none of its rooms receive nothing. |
| RoomRelay.ReceivesRoomSignalsInOrder | netlify/functions/websocket.js:15-17 | Over any sequence of signals, every socket receives exactly the signals of the other sockets it shares a room with, in sending order. |
| RoomRelay.DeliverAll | netlify/functions/websocket.js:15-17 | Handling any sequence of signals keeps the set of sockets that have inboxes. |
| RoomRelay.RoomsAreIsolated | netlify/functions/websocket.js:16 | A socket's inbox is unchanged by any sequence of signals sent only by sockets that share none of its rooms. |
| RoomRelay.RoomServer.constructor | netlify/functions/websocket.js:4-9 | A new server has no sockets and no rooms. |
| RoomRelay.RoomServer.OnConnection | netlify/functions/websocket.js:11-13 | A connecting socket joins the rooms `RoomsFromQuery` gives for its handshake: every value of the `room` parameter, or `undefined` when it is absent. It starts with an empty inbox. The rooms of the sockets already connected do not change. |
| RoomRelay.RoomServer.OnSignal | netlify/functions/websocket.js:15-17 | A `signal` updates the inboxes as `Deliver` says and changes no socket's room. |
| RoomRelay.Handler | netlify/functions/websocket.js:3-24 | Every invocation sets up a fresh empty server and returns status 200 with body 'Socket.IO ready'. |

## Left out

- The internals of `RTCPeerConnection`, `RTCSessionDescription`, `RTCIceCandidate` and WebSocket are foreign browser APIs. Descriptions and candidates are opaque values. Call outcomes and the socket's open state are parameters.
- The `ontrack` handler and the `remoteVideo` element (frontend/js/app.js:95-100) are DOM effects, and logging is UI; neither is modelled.
- The bodies of `updateConnectionStatus` and `setupChatChannel` are not part of this model, because the source elides them. Showing a status is modelled as setting the `status` field; `setupChatChannel` has no effect here.
- The initial values of the page's globals are elided in the source. `SignalingClient`'s constructor picks no connection, not initiator, an empty status, chat enabled and nothing sent.
- The assignment of `createPeerConnection()`'s result to `peerConnection` is elided in the source. `SignalingClient.CreatePeerConnection` stores it, because that is the dispatcher's only source of a connection.
- Only a failed parse and the JSON value `null` (whose `.type` read throws) are the `Unparsable` frame. Every other value without one of the four known types, such as `{}`, an array, a number or a string, reaches `default:` and is `Other`. A `ready` flag that is not a boolean is not modelled.
- A failing `createDataChannel` is folded into the single construction outcome of `CreatePeerConnection`.
- asyncio scheduling, interleaving between handlers, and another handler changing `clients` during iteration are concurrency and are not modelled. Each fan-out sees `clients` fixed.
- The browser's `onmessage` handler is `async` (frontend/js/app.js:3); a second message can start while an earlier one waits at an `await`. This interleaving is concurrency and is not modelled: `MessageStep` and `Replay` handle each message to completion before the next one.
- Server startup (backend/signaling_server.py:20-22) is I/O and is not modelled.
- The socket.io `Server` options and CORS (netlify/functions/websocket.js:4-9) are library setup and are not modelled. So is the fact that the server is never attached to a listener.
- socket.io's removal of a socket from its rooms on disconnect is library behaviour with no handler in the source. So is each socket's private room named by its id.
- Room capacity limits, initiator election by the server, early-candidate buffering, reconnect backoff and a pending chat queue do not appear in this code, so they are not modelled.
