/** The connection core: a peer registry keyed by transport handle, the
    hosting flag, and one step function per transport callback and per
    caller intent. Each step returns the new state, the events emitted on
    the output stream (in order) and the commands issued to the transport. */
module ConnectionCore {
  import opened Wrappers
  import opened Peers
  import opened Messages

  /** A transport-level peer handle; `displayName` is the device name the
      transport reports for it. */
  datatype Handle = Handle(displayName: string, uid: nat)

  /** An inbound connection request. Instead of the two callbacks of the
      library, the caller answers it with an `InvitationConfirmed` or
      `InvitationCancelled` event carrying this value back. */
  datatype Invitation = Invitation(deviceName: string, inviter: Handle, context: Option<Bytes>)

  datatype ConnectionOutput =
    | DataReceived(data: Bytes)
    | HostsChanged(hosts: set<Handle>)
    | InviteReceived(invite: Invitation)
    | MessageReceived(message: PeerMessage)

  /** The connection states the transport reports for a handle. */
  datatype SessionState = Connecting | Connected | NotConnected

  datatype TransportError = TransportError(reason: string)

  /** What the core may observe of the transport: the handles it currently
      holds a live connection to, and the outcome of a reliable send. */
  datatype Transport = Transport(
    connected: set<Handle>,
    deliver: (Bytes, set<Handle>) -> Option<TransportError>
  )

  /** Calls the core makes on the transport. */
  datatype Command =
    | StartBrowsing
    | StopBrowsing
    | StartAdvertising
    | StopAdvertising
    | InvitePeer(invitee: Handle, context: Bytes, timeout: nat)
    | Send(data: Bytes, targets: set<Handle>)
    | RespondToInvitation(inviter: Handle, accept: bool)

  /** The fixed surroundings of one core: the local peer, the codec and
      the transport. */
  datatype Env = Env(currentPeer: Peer, codec: Codec, transport: Transport)

  datatype CoreState = CoreState(peers: map<Handle, Peer>, isHosting: bool)

  /** The effect of one step; `thrown` is the error a throwing operation
      hands back to its caller. */
  datatype Step = Step(
    state: CoreState,
    outputs: seq<ConnectionOutput>,
    commands: seq<Command>,
    thrown: Option<TransportError>
  )

  /** The key under which a host advertises its serialized `Peer`. */
  const DiscoveryInfoKey: string := "peer"

  /** Seconds an outgoing invitation stays valid. */
  const InvitationTimeout: nat := 120

  /** A step that changes nothing, emits nothing and calls nothing. */
  function Quiet(s: CoreState): Step {
    Step(s, [], [], None)
  }

  /** `try?` around a throwing call: the error is dropped, the effects stay. */
  function Swallow(r: Step): Step {
    r.(thrown := None)
  }

  /** The handles of the registry entries whose peer is in the session
      (the keys of `inSessionPeers`). */
  function InSessionHandles(peers: map<Handle, Peer>): (hs: set<Handle>)
    ensures forall h :: h in hs <==> h in peers && peers[h].state == InSession
  {
    set h | h in peers && peers[h].state == InSession
  }

  /** `connectedPeers`: in-session registry entries whose handle the
      transport still reports as connected. */
  function ConnectedPeers(s: CoreState, t: Transport): (ps: set<Peer>)
    ensures forall p :: p in ps ==> p.state == InSession
    ensures forall p :: p in ps ==> exists h :: h in t.connected && h in s.peers && s.peers[h] == p
    ensures forall h :: h in s.peers && h in t.connected && s.peers[h].state == InSession ==> s.peers[h] in ps
  {
    set h | h in InSessionHandles(s.peers) && h in t.connected :: s.peers[h]
  }

  /** The transport's reliable send to a set of handles. */
  function Transmit(env: Env, s: CoreState, data: Bytes, targets: set<Handle>): Step {
    Step(s, [], [Send(data, targets)], env.transport.deliver(data, targets))
  }

  /** `send(data:)`: broadcast to the in-session entries, a no-op when
      there are none. */
  function Broadcast(env: Env, s: CoreState, data: Bytes): (r: Step)
    ensures r.state == s && r.outputs == [] && |r.commands| <= 1
    ensures r.commands == [] <==> forall h :: h in s.peers ==> s.peers[h].state != InSession
    ensures r.commands == [] ==> r.thrown == None
    ensures forall c :: c in r.commands ==>
      && c.Send? && c.data == data
      && (forall h :: h in c.targets <==> h in s.peers && s.peers[h].state == InSession)
      && r.thrown == env.transport.deliver(data, c.targets)
  {
    var targets := InSessionHandles(s.peers);
    if targets == {} then
      Quiet(s)
    else
      Transmit(env, s, data, targets)
  }

  /** `send(message:)` and `sendData(from:)`: encode, then broadcast; an
      encoding failure is a silent no-op. */
  function SendPeerMessage(env: Env, s: CoreState, m: PeerMessage): (r: Step)
    ensures r.state == s && r.outputs == [] && |r.commands| <= 1
    ensures env.codec.encodePeerMessage(m).None? ==> r == Quiet(s)
    ensures env.codec.encodePeerMessage(m).Some? ==> (r.commands == [] <==> InSessionHandles(s.peers) == {})
    ensures r.commands == [] ==> r.thrown == None
    ensures forall c :: c in r.commands ==>
      && c.Send? && Some(c.data) == env.codec.encodePeerMessage(m) && c.targets == InSessionHandles(s.peers)
      && r.thrown == env.transport.deliver(c.data, c.targets)
  {
    match env.codec.encodePeerMessage(m)
    case None => Quiet(s)
    case Some(b) => Broadcast(env, s, b)
  }

  /** `send(data:to:)`: the first registry entry whose peer equals `peer`
      (by id, whatever its state) is the only target. The dictionary's
      iteration order is unspecified, so any matching entry may be chosen. */
  method SendToPeer(env: Env, s: CoreState, data: Bytes, peer: Peer) returns (r: Step)
    ensures r.state == s && r.outputs == [] && |r.commands| <= 1
    ensures r.commands == [] <==> forall h :: h in s.peers ==> !Equals(s.peers[h], peer)
    ensures r.commands == [] ==> r.thrown == None
    ensures forall c :: c in r.commands ==>
      && c.Send? && c.data == data
      && (exists h :: h in s.peers && Equals(s.peers[h], peer) && c.targets == {h})
      && r.thrown == env.transport.deliver(data, c.targets)
  {
    if h :| h in s.peers && Equals(s.peers[h], peer) {
      r := Transmit(env, s, data, {h});
    } else {
      r := Quiet(s);
    }
  }

  function BrowseSessions(s: CoreState): (r: Step)
    ensures r.state == s && r.outputs == [] && r.thrown == None
    ensures r.commands == [StartBrowsing]
  {
    Step(s, [], [StartBrowsing], None)
  }

  /** The control message `leaveSession` sends before tearing down. */
  function Farewell(isHosting: bool): (m: PeerMessage)
    ensures m == SessionEnded <==> isHosting
    ensures m == RefreshPeers <==> !isHosting
  {
    if isHosting then SessionEnded else RefreshPeers
  }

  /** `leaveSession`: best-effort farewell to the in-session peers, then an
      empty registry, no hosting, and advertising and browsing stopped. */
  function LeaveSession(env: Env, s: CoreState): (r: Step)
    ensures r.state.peers == map[] && !r.state.isHosting
    ensures r.outputs == [] && r.thrown == None
    ensures 2 <= |r.commands| <= 3
    ensures r.commands[|r.commands| - 2..] == [StopAdvertising, StopBrowsing]
    ensures |r.commands| == 3 <==>
      InSessionHandles(s.peers) != {} && env.codec.encodePeerMessage(Farewell(s.isHosting)).Some?
    ensures |r.commands| == 3 ==>
      r.commands[0] == Send(env.codec.encodePeerMessage(Farewell(s.isHosting)).value, InSessionHandles(s.peers))
  {
    var notice := Swallow(SendPeerMessage(env, s, Farewell(s.isHosting)));
    Step(CoreState(map[], false), [], notice.commands + [StopAdvertising, StopBrowsing], None)
  }

  /** `hostSession`: leave whatever session there was, then host and
      advertise. */
  function HostSession(env: Env, s: CoreState): (r: Step)
    ensures r.state.peers == map[] && r.state.isHosting
    ensures r.outputs == [] && r.thrown == None
    ensures r.commands == LeaveSession(env, s).commands + [StartAdvertising]
  {
    var left := LeaveSession(env, s);
    Step(left.state.(isHosting := true), [], left.commands + [StartAdvertising], None)
  }

  /** `invite(peer:)`: ask the transport to invite `h`, with the local
      peer's encoding as context; nothing happens if it does not encode. */
  function Invite(env: Env, s: CoreState, h: Handle): (r: Step)
    ensures r.state == s && r.outputs == [] && r.thrown == None
    ensures |r.commands| <= 1
    ensures r.commands == [] <==> env.codec.encodePeer(env.currentPeer).None?
    ensures forall c :: c in r.commands ==>
      c == InvitePeer(h, env.codec.encodePeer(env.currentPeer).value, InvitationTimeout)
  {
    match env.codec.encodePeer(env.currentPeer)
    case None => Quiet(s)
    case Some(b) => Step(s, [], [InvitePeer(h, b, InvitationTimeout)], None)
  }

  /** The two-stage classifier for inbound bytes: a control message if
      they decode as one, opaque bytes otherwise. */
  function Classify(codec: Codec, data: Bytes): (o: ConnectionOutput)
    ensures o.MessageReceived? || o.DataReceived?
    ensures o.MessageReceived? <==> codec.decodePeerMessage(data).Some?
    ensures o.MessageReceived? ==> codec.decodePeerMessage(data) == Some(o.message)
    ensures o.DataReceived? ==> o.data == data
  {
    match codec.decodePeerMessage(data)
    case Some(m) => MessageReceived(m)
    case None => DataReceived(data)
  }

  /** `session(_:didReceive:fromPeer:)`: exactly one event, classified;
      the sender is ignored and the registry untouched. */
  function ReceiveData(env: Env, s: CoreState, sender: Handle, data: Bytes): (r: Step)
    ensures r.state == s && r.commands == [] && r.thrown == None
    ensures r.outputs == [Classify(env.codec, data)]
  {
    Step(s, [Classify(env.codec, data)], [], None)
  }

  /** `session(_:peer:didChange:)`: a known handle that becomes connected
      joins the session, a refresh is broadcast and the local joining is
      announced; everything else is ignored. */
  function ChangeState(env: Env, s: CoreState, h: Handle, to: SessionState): (r: Step)
    ensures r.state.isHosting == s.isHosting && r.state.peers.Keys == s.peers.Keys
    ensures r.thrown == None && |r.commands| <= 1
    ensures to != Connected || h !in s.peers ==> r == Quiet(s)
    ensures to == Connected && h in s.peers ==>
      && r.state.peers[h] == WithState(s.peers[h], InSession)
      && (forall k :: k in s.peers && k != h ==> r.state.peers[k] == s.peers[k])
      && r.outputs == [MessageReceived(JoinedSession)]
      && (r.commands == [] <==> env.codec.encodePeerMessage(RefreshPeers).None?)
      && (forall c :: c in r.commands ==>
            c.Send? && Some(c.data) == env.codec.encodePeerMessage(RefreshPeers)
            && c.targets == InSessionHandles(r.state.peers) && h in c.targets)
  {
    if to == Connected && h in s.peers then
      var joined := s.(peers := s.peers[h := WithState(s.peers[h], InSession)]);
      var refresh := Swallow(SendPeerMessage(env, joined, RefreshPeers));
      Step(joined, [MessageReceived(JoinedSession)], refresh.commands, None)
    else
      Quiet(s)
  }

  /** `advertiser(_:didReceiveInvitationFromPeer:withContext:)`: surface
      the invitation, nothing else. */
  function ReceiveInvitation(s: CoreState, h: Handle, context: Option<Bytes>): (r: Step)
    ensures r.state == s && r.commands == [] && r.thrown == None
    ensures |r.outputs| == 1 && r.outputs[0].InviteReceived?
    ensures r.outputs[0].invite.inviter == h && r.outputs[0].invite.deviceName == h.displayName
    ensures r.outputs[0].invite.context == context
  {
    Step(s, [InviteReceived(Invitation(h.displayName, h, context))], [], None)
  }

  /** The peer an invitation's context decodes to, if any. */
  function DecodeContext(codec: Codec, context: Option<Bytes>): Option<Peer> {
    match context
    case None => None
    case Some(b) => codec.decodePeer(b)
  }

  /** The confirm action: accept the connection, then install the decoded
      context peer at the inviter's handle, in the session. */
  function ConfirmInvitation(env: Env, s: CoreState, inv: Invitation): (r: Step)
    ensures r.outputs == [] && r.thrown == None
    ensures r.commands == [RespondToInvitation(inv.inviter, true)]
    ensures r.state.isHosting == s.isHosting
    ensures forall k :: k != inv.inviter ==> (k in r.state.peers <==> k in s.peers)
    ensures forall k :: k != inv.inviter && k in s.peers ==> r.state.peers[k] == s.peers[k]
    ensures DecodeContext(env.codec, inv.context).None? ==> r.state == s
    ensures DecodeContext(env.codec, inv.context).Some? ==>
      && inv.inviter in r.state.peers
      && r.state.peers[inv.inviter] == WithState(DecodeContext(env.codec, inv.context).value, InSession)
  {
    var accepted := [RespondToInvitation(inv.inviter, true)];
    match DecodeContext(env.codec, inv.context)
    case None => Step(s, [], accepted, None)
    case Some(p) =>
      Step(s.(peers := s.peers[inv.inviter := WithState(p, InSession)]), [], accepted, None)
  }

  /** The cancel action: decline the connection; the registry is untouched. */
  function CancelInvitation(s: CoreState, inv: Invitation): (r: Step)
    ensures r.state == s && r.outputs == [] && r.thrown == None
    ensures r.commands == [RespondToInvitation(inv.inviter, false)]
  {
    Step(s, [], [RespondToInvitation(inv.inviter, false)], None)
  }

  /** The peer a discovery payload advertises, if it carries one that decodes. */
  function DecodeDiscoveryInfo(codec: Codec, info: Option<map<string, Bytes>>): Option<Peer> {
    match info
    case None => None
    case Some(m) => if DiscoveryInfoKey in m then codec.decodePeer(m[DiscoveryInfoKey]) else None
  }

  /** `browser(_:foundPeer:withDiscoveryInfo:)`: a new handle whose payload
      decodes is registered as discovered and the hosts are republished. */
  function FoundPeer(env: Env, s: CoreState, h: Handle, info: Option<map<string, Bytes>>): (r: Step)
    ensures r.commands == [] && r.thrown == None && r.state.isHosting == s.isHosting
    ensures h in s.peers ==> r == Quiet(s)
    ensures forall k :: k in s.peers ==> k in r.state.peers && r.state.peers[k] == s.peers[k]
    ensures r.state.peers.Keys <= s.peers.Keys + {h}
    ensures h in r.state.peers - s.peers.Keys <==>
      h !in s.peers && DecodeDiscoveryInfo(env.codec, info).Some?
    ensures h in r.state.peers - s.peers.Keys ==>
      r.state.peers[h] == WithState(DecodeDiscoveryInfo(env.codec, info).value, Discovered)
    ensures r.outputs != [] <==> r.state.peers != s.peers
    ensures r.outputs != [] ==> r.outputs == [HostsChanged(r.state.peers.Keys)]
  {
    if h in s.peers then
      Quiet(s)
    else
      match DecodeDiscoveryInfo(env.codec, info)
      case None => Quiet(s)
      case Some(p) =>
        var peers := s.peers[h := WithState(p, Discovered)];
        assert h in peers.Keys - s.peers.Keys;
        Step(s.(peers := peers), [HostsChanged(peers.Keys)], [], None)
  }

  /** `browser(_:lostPeer:)`: the handle is dropped; the hosts are
      republished only if it was known. */
  function LostPeer(s: CoreState, h: Handle): (r: Step)
    ensures r.commands == [] && r.thrown == None && r.state.isHosting == s.isHosting
    ensures r.state.peers.Keys == s.peers.Keys - {h}
    ensures forall k :: k in r.state.peers ==> r.state.peers[k] == s.peers[k]
    ensures h !in s.peers ==> r == Quiet(s)
    ensures r.outputs != [] <==> h in s.peers
    ensures r.outputs != [] ==> r.outputs == [HostsChanged(r.state.peers.Keys)]
  {
    if h in s.peers then
      var peers := s.peers - {h};
      Step(s.(peers := peers), [HostsChanged(peers.Keys)], [], None)
    else
      Quiet(s)
  }
}
