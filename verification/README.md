# Local-network game sessions, as a state machine

This project models the core of a small Swift library for local-network
game sessions. Devices discover each other, one of them hosts, the others
are invited in, and two layers of messages share one byte channel:
session-control messages (`PeerMessage`) and application messages for a
pluggable game worker (`GameMessage`).

Two layers are modelled as pure step functions.

- **Connection core** (`ConnectionManager`, modules `ConnectionCore`,
  `ConnectionEvents`, `ConnectionProperties`). Its state is a registry
  `map<Handle, Peer>` and the `isHosting` flag. Each transport callback
  (peer found, peer lost, state changed, data received, invitation
  received), each answer to an invitation (confirm or cancel) and each
  caller intent (`browseSessions`, `hostSession`, `invite`, `leaveSession`,
  the `send` variants) is a function. It returns a `Step`: the new state,
  the events emitted on the output stream in order, the commands issued
  to the transport, and the transport error a throwing `send` hands back.
  `Apply` dispatches one `Event` and `Run` folds a sequence of them.
- **Session orchestrator** (`GameService`, modules `GameService`,
  `GameProperties`). Its state is `hasStartedGame` and the optional active
  worker. `OnOutput` is the event sink installed by `init`. `StartGame`
  and `SendGameMessage` are the orchestrator's own operations. `Deliver`
  runs one core event and then the sink over what the core emitted; the
  delegations are the intent events passed to it.
- **Peer identity** (`Peer`, module `Peers`). A peer is an id, a display
  name and a state; `Equals` compares ids only.

The environment enters as parameters:

- the JSON encoder and decoder are a `Codec` record of partial functions.
  Round-trip and layer-separation facts about it (`PeerMessagesRoundTrip`,
  `GameMessagesRoundTrip`, `PeersRoundTrip`, `LayersDisjoint`) appear only
  as preconditions of the lemmas that need them;
- the transport is a `Transport` record. It holds the set of handles it
  reports as connected and an abstract outcome for a reliable send;
- the worker builder is a `Builder` function that returns a worker
  instance or a `BuildError`. The model records each worker's kind, its
  init data and the payloads passed to its `dataReceived`.

Behaviour of the code worth knowing, which the model follows:

- `send(data:to:)` picks any registry entry whose peer has the same id,
  whatever that entry's state. It does not require a connected handle.
- A worker build failure triggered by an inbound `startedGame` is
  swallowed (`try?`). The game stays marked as started, the previous
  worker is kept, and nothing is emitted. It does not propagate.
- `hostsChanged` is emitted only by the found-peer and lost-peer
  callbacks. Confirming an invitation and `leaveSession` change the
  registry without announcing it (`ConfirmIsNotAnnounced`).
- The application message cases are `startedGame` and
  `workerDataReceived`, as the code names them.
- The name `joinedSession` suggests that the local device joined. The
  code emits it whenever any registry entry connects
  (ConnectionManager.swift:182-191). On a host,
  that includes a guest installed by a confirmed invitation
  (`ConfirmedGuestConnectAnnouncesJoin`).
- The code does not keep an invariant that every in-session entry is
  connected at the transport. Only `connectedPeers` intersects the two,
  and that is what is proved.

## Model

| member | source | states |
|---|---|---|
| Peers.WithState | Sources/Models/Peer.swift:12-14 | Setting a peer's state keeps its id and display name. The result is still equal to the original peer. |
| Peers.InitStoresArguments | Sources/Models/Peer.swift:16-20 | The initializer stores exactly the given id, display name and state. |
| Peers.StateCases | Sources/Models/Peer.swift:6-10 | A peer state is one of `discovered`, `inSession` or `undiscovered`. |
| Peers.EqualsIffSameId | Sources/Models/Peer.swift:26-28 | Changing the display name or the state of either peer never changes whether the two are equal. Two peers are equal exactly when they coincide once name and state are blanked out. |
| Peers.EqualsIsEquivalence | Sources/Models/Peer.swift:26-28 | Peer equality is reflexive, symmetric and transitive. |
| Peers.StateChangeKeepsEquality | Sources/Models/Peer.swift:26-28 | Changing a peer's state never changes which peers it equals, on either side of `==`. |
| ConnectionCore.InSessionHandles | Sources/ConnectionManager.swift:48-53 | A handle is returned exactly when it is in the registry and its peer is `inSession`. |
| ConnectionCore.ConnectedPeers | Sources/ConnectionManager.swift:54-60 | Every reported peer is in the session and held at a handle the transport reports connected. Every in-session entry at a connected handle is reported. |
| ConnectionCore.Broadcast | Sources/ConnectionManager.swift:141-151 | `send(data:)` issues no command exactly when no entry is in the session. Otherwise it sends one command carrying the data, whose targets are exactly the in-session handles, and hands back the transport's error. The registry is unchanged. |
| ConnectionCore.SendPeerMessage | Sources/ConnectionManager.swift:163-169 | Sending a control message that encodes issues a broadcast of its encoding to the in-session handles, exactly when there are some. It hands back the transport's error for that send, and no error when nothing is sent. An encoding failure does nothing. |
| ConnectionCore.SendToPeer | Sources/ConnectionManager.swift:153-161 | `send(data:to:)` targets exactly one registry handle whose peer has the same id as the argument, in any state. It is a no-op exactly when no entry matches. |
| ConnectionCore.BrowseSessions | Sources/ConnectionManager.swift:96-98 | Browsing only starts the transport's browser. |
| ConnectionCore.Farewell | Sources/ConnectionManager.swift:117-122 | The farewell is `sessionEnded` exactly when hosting, and `refreshPeers` otherwise. |
| ConnectionCore.LeaveSession | Sources/ConnectionManager.swift:116-131 | Leaving ends with an empty registry and no hosting. The farewell goes to the in-session handles exactly when there are some and it encodes. Its transport error is dropped. Advertising, then browsing, is stopped last. |
| ConnectionCore.HostSession | Sources/ConnectionManager.swift:100-106 | Hosting performs the leave, then ends with an empty registry and hosting set, and starts advertising. |
| ConnectionCore.Invite | Sources/ConnectionManager.swift:108-114 | Inviting sends at most one command: one invitation carrying the local peer's encoding and the 120-second timeout. It does nothing when the local peer does not encode. |
| ConnectionCore.Classify | Sources/ConnectionManager.swift:172-176 | Inbound bytes become `messageReceived(m)` exactly when they decode as control message `m`. Otherwise they become `dataReceived` carrying the identical bytes. |
| ConnectionCore.ReceiveData | Sources/ConnectionManager.swift:171-177 | Receiving data emits exactly one classified event. It changes no state and issues no command. |
| ConnectionCore.ChangeState | Sources/ConnectionManager.swift:179-199 | A known handle that becomes connected turns `inSession`, and no other entry changes. The step emits `messageReceived(joinedSession)` and issues at most one command, a `refreshPeers` broadcast to a target set that includes that handle. Its transport error is dropped. An unknown handle, or a `connecting`/`notConnected` report, changes nothing. The registry's key set never changes. |
| ConnectionCore.ReceiveInvitation | Sources/ConnectionManager.swift:223-243 | An invitation emits only `inviteReceived`, carrying the inviter's handle, device name and context. Nothing else changes. |
| ConnectionCore.ConfirmInvitation | Sources/ConnectionManager.swift:231-238 | Confirming accepts the connection. A context that decodes is installed at the inviter's handle as `inSession`, and no other entry changes. A missing or undecodable context leaves the registry as it was. Nothing is emitted. |
| ConnectionCore.CancelInvitation | Sources/ConnectionManager.swift:239-241 | Cancelling declines the connection and never touches the registry. |
| ConnectionCore.FoundPeer | Sources/ConnectionManager.swift:245-259 | A handle already in the registry changes nothing. A new handle is added, as `discovered`, exactly when its payload decodes; existing entries keep their values. `hostsChanged` is emitted exactly when the registry changed, and it carries the registry's key set. |
| ConnectionCore.LostPeer | Sources/ConnectionManager.swift:265-271 | Losing a handle removes it and leaves the other entries untouched. `hostsChanged` with the remaining keys is emitted exactly when the handle was present. |
| ConnectionEvents.Apply | Sources/ConnectionManager.swift:96-271 | Over any single step, the registry gains at most the discovered or confirmed handle. The session gains at most the connected or confirmed handle. Only discovery emits `hostsChanged`, and intents emit no events. |
| ConnectionEvents.Run | Sources/ConnectionManager.swift:96-271 | Over any run of events, registry handles come only from discovery or confirmation. In-session handles come only from connection or confirmation. |
| ConnectionProperties.DiscoveryStepMirrors | Sources/ConnectionManager.swift:245-271 | After a found-peer or lost-peer step, the announced hosts are the registry's key set. If nothing was announced, the state is unchanged. |
| ConnectionProperties.DiscoveryRunMirrors | Sources/ConnectionManager.swift:245-271 | After any sequence of discovery events, the last `hostsChanged` carries exactly the registry's handles. If none was emitted, the registry is as it was. |
| ConnectionProperties.LeaveSessionIdempotent | Sources/ConnectionManager.swift:116-131 | Leaving twice ends in the same state as leaving once. The second leave only stops advertising and browsing. |
| ConnectionProperties.HostSessionForgetsPast | Sources/ConnectionManager.swift:100-106 | Hosting from any state ends in the same state: an empty registry, hosting. |
| ConnectionProperties.ConnectedPeersEmptyAfterLeave | Sources/ConnectionManager.swift:116-131 | After leaving, no peer is reported connected, whatever the transport still holds. |
| ConnectionProperties.BroadcastCoversConnectedPeers | Sources/ConnectionManager.swift:48-60 | Every handle of a reported connected peer is in the session. When some peer is connected, a broadcast is issued and reaches all of them. |
| ConnectionProperties.ConnectedPeersMonotone | Sources/ConnectionManager.swift:54-60 | Fewer connected handles at the transport never report more connected peers. |
| ConnectionProperties.ClassifyEncodedControl | Sources/ConnectionManager.swift:171-177 | When the codec round-trips control messages, an encoded control message is classified as that message. |
| ConnectionProperties.ClassifyEncodedGame | Sources/ConnectionManager.swift:171-177 | When application encodings never parse as control messages, an encoded application message is passed on unchanged as `dataReceived`. |
| ConnectionProperties.ConfirmIsNotAnnounced | Sources/ConnectionManager.swift:231-238 | Confirming a new inviter with a decodable context adds its handle but emits no `hostsChanged`. |
| ConnectionProperties.ConfirmedGuestConnectAnnouncesJoin | Sources/ConnectionManager.swift:179-191 | On the host, a guest installed by a confirmed invitation that then connects makes the host's own stream emit `messageReceived(joinedSession)`. |
| ConnectionProperties.DiscoveryScenario | Sources/ConnectionManager.swift:245-259 | From an empty registry, finding a host whose advertised payload decodes registers just that host, as `discovered`, and announces just its handle. |
| ConnectionProperties.InviteAcceptScenario | Sources/ConnectionManager.swift:229-238 | The guest's invitation carries its own encoding. Once the host confirms, the guest is installed, `inSession`, at the inviting handle, and the connection is accepted. |
| ConnectionProperties.JoinScenario | Sources/ConnectionManager.swift:179-191 | A discovered host that connects enters the session and receives a refresh, and `joinedSession` is emitted locally. |
| GameService.InitializeWorker | Sources/GameService.swift:79-90 | The builder is asked for the given kind and data. On success the new worker is the active one, recording that kind and data. On failure the builder's error is returned. |
| GameService.StartGame | Sources/GameService.swift:120-124 | After `startGame(d)` the game counts as started whatever happens. On success the active worker is a host worker built from `d`. On failure the builder's error is thrown and the previous worker is kept. |
| GameService.Forward | Sources/GameService.swift:65-66 | Worker data reaches the active worker exactly once, appended to what it has received, and the worker keeps its identity. With no worker the data is dropped. |
| GameService.OnOutput | Sources/GameService.swift:54-74 | The sink republishes `hostsChanged`, `inviteReceived` and `messageReceived` one-to-one with the same payload, without touching state. `dataReceived` never yields a game event. Undecodable bytes change nothing. `startedGame(d)` starts the game and installs a participant worker built from `d`, keeping the old one on failure. `workerDataReceived` is forwarded to the worker. |
| GameService.ConsumeAll | Sources/GameService.swift:47-76 | Over a stream of core events, a started game stays started. The republished events depend only on the core events, never on the game state. |
| GameService.Deliver | Sources/GameService.swift:92-110 | The delegations reach the core unchanged and leave `hasStartedGame` and the worker as they were. The core's commands and thrown error are handed back as they are, so `send(message: PeerMessage)` rethrows the core's error. For every event, the orchestrator republishes exactly the core's non-data events. |
| GameService.SendGameMessage | Sources/GameService.swift:112-118 | Sending an application message broadcasts its encoding through the core and returns the core's error. An encoding failure does nothing. |
| GameProperties.UndecodableDataIgnored | Sources/GameService.swift:55-58 | Bytes that are not an application message change no state and yield no game event. |
| GameProperties.StartedGameFailureSwallowed | Sources/GameService.swift:61-64 | An inbound `startedGame` whose worker cannot be built marks the game started and keeps the previous worker. Nothing is reported. |
| GameProperties.WorkerDataWithoutWorkerDropped | Sources/GameService.swift:65-66 | Worker data with no active worker is dropped without a trace. |
| GameProperties.WorkerRoutingScenario | Sources/GameService.swift:65-66 | From the wire to the worker: encoded worker data reaches the active worker exactly once. Nothing is republished and neither the registry nor `hasStartedGame` changes. |
| GameProperties.SentWorkerDataReachesWorker | Sources/GameService.swift:112-118 | The bytes `send(message: GameMessage)` broadcasts for worker data, once delivered to another device's core, reach that device's active worker exactly once. Nothing is republished. |
| GameProperties.GameStartScenario | Sources/GameService.swift:61-64 | The host's `startGame(seed)` builds a host worker from the seed. A participant receiving `startedGame(seed)` over the wire builds a participant worker from the same seed. |
| GameProperties.ControlMessageRepublished | Sources/GameService.swift:72-73 | An encoded control message from a peer reaches the orchestrator's subscribers as `peerMessageReceived` with the same message. No state changes. |
| GameProperties.LeaveKeepsGame | Sources/GameService.swift:104-106 | `leaveSession` empties the registry and clears hosting. It does not reset `hasStartedGame` or the worker. |
| GameProperties.HostsChangeRepublished | Sources/GameService.swift:68-69 | Discovery events reach the orchestrator's subscribers one-to-one as `hostsChanged` with the same hosts. The game state is untouched. |

## Left out

- The transport objects (session, browser, advertiser), their lazy construction, and the `fatalError` when the local peer does not encode for advertising. The advertiser is first built by whichever call touches it first. `leaveSession` stops advertising, and `hostSession` calls `leaveSession`, so the source crashes on the first leave or host when `currentPeer` does not encode. `LeaveSession` and `HostSession` return normally in that case. They are replaced by emitted `Command`s and the `Transport` record. `StartAdvertising` carries no discovery payload.
- The stream and resource delegate callbacks: they have empty bodies.
- The `@unknown default` branch of the connection-state switch, which only prints. `SessionState` is closed.
- The JSON encoder and decoder. They are the abstract `Codec`, and no concrete encoding is modelled.
- The discovery info is `[String: String]`, with the peer's JSON as a UTF-8 string. It is modelled as `map<string, Bytes>` holding those bytes directly.
- Threading: the Combine subjects, `receive(on: RunLoop.main)` and `@Published`. Events are an ordered list. `Deliver` runs the sink right after the core step. The source queues the sink's reaction on the main run loop. The sink reads no registry state, so its reactions keep their order among themselves. They are not ordered against `startGame`, which writes the same `hasStartedGame` and worker fields. A `startGame` may run before a queued reaction to an inbound `startedGame`, and then that participant worker replaces the host worker. The model does not cover that interleaving.
- Concurrency in the core. Transport callbacks (peer found, peer lost, invitation confirmed) and caller intents such as `leaveSession` write `peers` on whatever thread calls them, with no lock or queue; only the orchestrator hops to the main run loop. Each step here is atomic and `Run` applies events one at a time, so `ConnectionEvents.Run` and `ConnectionProperties.DiscoveryRunMirrors` hold only when steps never overlap and the listed events are the only writers.
- Worker internals and the builder's `connectionManager` argument. A worker is the instance the builder returns plus the record of what it was given.
- The invitation timeout is enforced by the transport. The model only records the 120 seconds in the `InvitePeer` command.
- `ConnectionCore.SendToPeer` is a method, because the source takes the first match in an unspecified dictionary order. It is therefore not one of the `Event`s that `Apply` and `Run` fold.
- `hostsChanged` and `connectedPeers` are arrays in the source and sets here. Their order is unspecified there, and two registry entries with identical peers count once in `ConnectedPeers`.
- `GameService.connectedPeers` forwards to the core. It is `ConnectionCore.ConnectedPeers` applied to the service's core state.
- The invitation's confirm and cancel closures are the events `InvitationConfirmed` and `InvitationCancelled`. Like the closures, they may be applied at any time and any number of times. Unlike the closures, they accept any `Invitation` value, not only one that `InvitationArrived` emitted. The invariants proved over `Run` hold for all such values.
- `serviceName`, `currentPeerID` and the initializer's wiring are transport configuration.
- Outside writers of the state. The source's `isHosting` and `peers` are public variables, and `Peer` is a class. `connectedPeers` hands out live references whose `state` a caller can set, which changes the broadcast targets. The model keeps the registry and the peers as plain values, changed only by the listed events. Writes by such outside callers are not events here.
