/** Properties of the connection core that relate several steps or
    connect a step with the codec. */
module ConnectionProperties {
  import opened Wrappers
  import opened Peers
  import opened Messages
  import opened ConnectionCore
  import opened ConnectionEvents

  /** The hosts carried by the most recent `hostsChanged` in a stream. */
  function LastHosts(outs: seq<ConnectionOutput>): Option<set<Handle>>
    decreases |outs|
  {
    if outs == [] then None
    else if outs[|outs| - 1].HostsChanged? then Some(outs[|outs| - 1].hosts)
    else LastHosts(outs[..|outs| - 1])
  }

  lemma {:induction false} LastHostsAppend(a: seq<ConnectionOutput>, b: seq<ConnectionOutput>)
    ensures LastHosts(a + b) == if LastHosts(b).Some? then LastHosts(b) else LastHosts(a)
    decreases |b|
  {
    if b != [] {
      assert (a + b)[..|a + b| - 1] == a + b[..|b| - 1];
      LastHostsAppend(a, b[..|b| - 1]);
    } else {
      assert a + b == a;
    }
  }

  /** A found or lost peer announces exactly the registry it leaves behind. */
  lemma DiscoveryStepMirrors(env: Env, s: CoreState, e: Event)
    requires IsDiscovery(e)
    ensures var r := Apply(env, s, e);
      match LastHosts(r.outputs)
      case Some(hs) => hs == r.state.peers.Keys
      case None => r.state == s
  {
  }

  /** After any sequence of discovery events, the last `hostsChanged`
      carries exactly the registry's handles; if none was emitted, the
      registry is as it was. */
  lemma {:induction false} DiscoveryRunMirrors(env: Env, s: CoreState, es: seq<Event>)
    requires forall i :: 0 <= i < |es| ==> IsDiscovery(es[i])
    ensures var t := Run(env, s, es);
      match LastHosts(t.outputs)
      case Some(hs) => hs == t.state.peers.Keys
      case None => t.state.peers == s.peers
    decreases |es|
  {
    if es != [] {
      var r := Apply(env, s, es[0]);
      var rest := Run(env, r.state, es[1..]);
      DiscoveryStepMirrors(env, s, es[0]);
      DiscoveryRunMirrors(env, r.state, es[1..]);
      LastHostsAppend(r.outputs, rest.outputs);
    }
  }

  /** Leaving twice ends where leaving once does, and the second leave has
      nobody left to notify. */
  lemma LeaveSessionIdempotent(env: Env, s: CoreState)
    ensures LeaveSession(env, LeaveSession(env, s).state).state == LeaveSession(env, s).state
    ensures LeaveSession(env, LeaveSession(env, s).state).commands == [StopAdvertising, StopBrowsing]
  {
  }

  /** Hosting from any state is hosting from a fresh, empty state. */
  lemma HostSessionForgetsPast(env: Env, s: CoreState, s': CoreState)
    ensures HostSession(env, s).state == HostSession(env, s').state
    ensures HostSession(env, s).state == CoreState(map[], true)
  {
  }

  /** Nobody is reported connected after leaving, whatever the transport
      still holds. */
  lemma ConnectedPeersEmptyAfterLeave(env: Env, s: CoreState, t: Transport)
    ensures ConnectedPeers(LeaveSession(env, s).state, t) == {}
  {
  }

  /** `connectedPeers` only reports in-session entries, and a broadcast
      reaches every one of them. */
  lemma BroadcastCoversConnectedPeers(env: Env, s: CoreState, data: Bytes)
    ensures forall h :: h in s.peers && s.peers[h] in ConnectedPeers(s, env.transport) ==>
      h in InSessionHandles(s.peers)
    ensures ConnectedPeers(s, env.transport) != {} ==>
      |Broadcast(env, s, data).commands| == 1
      && forall h :: h in s.peers && s.peers[h] in ConnectedPeers(s, env.transport) ==>
        h in Broadcast(env, s, data).commands[0].targets
  {
  }

  /** Narrowing what the transport reports connected can only shrink
      `connectedPeers`. */
  lemma ConnectedPeersMonotone(s: CoreState, t: Transport, t': Transport)
    requires t.connected <= t'.connected
    ensures ConnectedPeers(s, t) <= ConnectedPeers(s, t')
  {
  }

  /** A control message that went through the encoder is classified as
      that message on arrival. */
  lemma ClassifyEncodedControl(c: Codec, m: PeerMessage)
    requires PeerMessagesRoundTrip(c)
    requires c.encodePeerMessage(m).Some?
    ensures Classify(c, c.encodePeerMessage(m).value) == MessageReceived(m)
  {
  }

  /** An encoded application message is passed on as opaque bytes,
      unchanged. */
  lemma ClassifyEncodedGame(c: Codec, m: GameMessage)
    requires LayersDisjoint(c)
    requires c.encodeGameMessage(m).Some?
    ensures Classify(c, c.encodeGameMessage(m).value) == DataReceived(c.encodeGameMessage(m).value)
  {
  }

  /** A confirmed invitation may change the registry without announcing
      the hosts: `hostsChanged` mirrors the registry only across discovery. */
  lemma ConfirmIsNotAnnounced(env: Env, s: CoreState, inv: Invitation)
    requires inv.inviter !in s.peers
    requires DecodeContext(env.codec, inv.context).Some?
    ensures var r := ConfirmInvitation(env, s, inv);
      r.state.peers.Keys == s.peers.Keys + {inv.inviter} && r.outputs == []
  {
  }

  /** On the host, a guest installed by confirming its invitation that
      then connects makes the host's own stream announce `joinedSession`,
      although it is the guest, not the host, that joined. */
  lemma ConfirmedGuestConnectAnnouncesJoin(env: Env, s: CoreState, inv: Invitation)
    requires DecodeContext(env.codec, inv.context).Some?
    ensures ChangeState(env, ConfirmInvitation(env, s, inv).state, inv.inviter, Connected).outputs
      == [MessageReceived(JoinedSession)]
  {
  }

  /** Discovery: a browsing peer finds a host whose payload decodes; the
      registry, empty before, holds just that host as discovered and
      `hostsChanged` announces it. */
  lemma DiscoveryScenario(env: Env, h: Handle, b: Bytes, host: Peer)
    requires env.codec.decodePeer(b) == Some(host)
    ensures var r := FoundPeer(env, CoreState(map[], false), h, Some(map[DiscoveryInfoKey := b]));
      && r.state.peers == map[h := Peer(host.id, host.displayName, Discovered)]
      && r.outputs == [HostsChanged({h})]
  {
    var r := FoundPeer(env, CoreState(map[], false), h, Some(map[DiscoveryInfoKey := b]));
    assert r.state.peers.Keys == {h};
  }

  /** Invitation: the inviter's context is its own encoding; confirming on
      the host installs the inviter, in the session, at the handle the
      invitation came from. */
  lemma InviteAcceptScenario(guest: Env, host: Env, hostState: CoreState, guestHandle: Handle, hostHandle: Handle)
    requires guest.codec == host.codec && PeersRoundTrip(guest.codec)
    requires guest.codec.encodePeer(guest.currentPeer).Some?
    ensures var sent := Invite(guest, CoreState(map[], false), hostHandle);
      && |sent.commands| == 1
      && var arrived := ReceiveInvitation(hostState, guestHandle, Some(sent.commands[0].context));
      && var inv := arrived.outputs[0].invite;
      && var r := ConfirmInvitation(host, arrived.state, inv);
      && r.commands == [RespondToInvitation(guestHandle, true)]
      && r.state.peers[guestHandle] == WithState(guest.currentPeer, InSession)
  {
  }

  /** Join completion: the transport reports the discovered host connected;
      it enters the session, a refresh goes to it, and the local stream
      announces that this device joined. */
  lemma JoinScenario(env: Env, s: CoreState, h: Handle)
    requires h in s.peers && s.peers[h].state == Discovered
    requires env.codec.encodePeerMessage(RefreshPeers).Some?
    ensures var r := ChangeState(env, s, h, Connected);
      && r.state.peers[h].state == InSession
      && r.outputs == [MessageReceived(JoinedSession)]
      && |r.commands| == 1 && r.commands[0].Send? && h in r.commands[0].targets
  {
  }
}
