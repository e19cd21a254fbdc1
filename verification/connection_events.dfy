/** Every input the connection core reacts to, as one event type, with
    a dispatcher and the fold of a sequence of events. */
module ConnectionEvents {
  import opened Wrappers
  import opened Messages
  import opened ConnectionCore

  /** Transport callbacks, the two answers to an invitation, and the
      caller's intents. (`send(data:to:)` chooses among matching entries
      and is the method `ConnectionCore.SendToPeer`.) */
  datatype Event =
    | PeerFound(handle: Handle, info: Option<map<string, Bytes>>)
    | PeerLost(handle: Handle)
    | PeerStateChanged(handle: Handle, to: SessionState)
    | DataArrived(sender: Handle, data: Bytes)
    | InvitationArrived(inviter: Handle, context: Option<Bytes>)
    | InvitationConfirmed(invite: Invitation)
    | InvitationCancelled(invite: Invitation)
    | BrowseRequested
    | HostRequested
    | InviteRequested(invitee: Handle)
    | LeaveRequested
    | BroadcastRequested(data: Bytes)
    | MessageRequested(message: PeerMessage)

  /** Intents are the caller's requests, as opposed to transport callbacks. */
  predicate IsIntent(e: Event) {
    e.BrowseRequested? || e.HostRequested? || e.InviteRequested? || e.LeaveRequested?
    || e.BroadcastRequested? || e.MessageRequested?
  }

  predicate IsDiscovery(e: Event) {
    e.PeerFound? || e.PeerLost?
  }

  /** The handle an event may add to the registry. */
  function Admitted(e: Event): set<Handle> {
    match e
    case PeerFound(h, _) => {h}
    case InvitationConfirmed(inv) => {inv.inviter}
    case _ => {}
  }

  /** The handle an event may bring into the session. */
  function Promoted(e: Event): set<Handle> {
    match e
    case PeerStateChanged(h, Connected) => {h}
    case InvitationConfirmed(inv) => {inv.inviter}
    case _ => {}
  }

  /** One step of the core. Only discovery and a confirmed invitation add
      handles; only a connection or a confirmed invitation puts a handle
      in the session; only discovery announces the hosts; intents emit
      nothing on the output stream. */
  function Apply(env: Env, s: CoreState, e: Event): (r: Step)
    ensures r.state.peers.Keys <= s.peers.Keys + Admitted(e)
    ensures InSessionHandles(r.state.peers) <= InSessionHandles(s.peers) + Promoted(e)
    ensures forall o :: o in r.outputs && o.HostsChanged? ==> IsDiscovery(e)
    ensures IsIntent(e) ==> r.outputs == []
  {
    match e
    case PeerFound(h, info) => FoundPeer(env, s, h, info)
    case PeerLost(h) => LostPeer(s, h)
    case PeerStateChanged(h, to) => ChangeState(env, s, h, to)
    case DataArrived(h, data) => ReceiveData(env, s, h, data)
    case InvitationArrived(h, context) => ReceiveInvitation(s, h, context)
    case InvitationConfirmed(inv) => ConfirmInvitation(env, s, inv)
    case InvitationCancelled(inv) => CancelInvitation(s, inv)
    case BrowseRequested => BrowseSessions(s)
    case HostRequested => HostSession(env, s)
    case InviteRequested(h) => Invite(env, s, h)
    case LeaveRequested => LeaveSession(env, s)
    case BroadcastRequested(data) => Broadcast(env, s, data)
    case MessageRequested(m) => SendPeerMessage(env, s, m)
  }

  /** The accumulated effect of a sequence of steps. */
  datatype Trace = Trace(state: CoreState, outputs: seq<ConnectionOutput>, commands: seq<Command>)

  function PromotedBy(es: seq<Event>): set<Handle> {
    if es == [] then {} else Promoted(es[0]) + PromotedBy(es[1..])
  }

  function AdmittedBy(es: seq<Event>): set<Handle> {
    if es == [] then {} else Admitted(es[0]) + AdmittedBy(es[1..])
  }

  /** Feed the events to the core one at a time, in order. Over any run,
      the registry only gains handles that were discovered or confirmed,
      and the session only gains handles that connected or were confirmed. */
  function Run(env: Env, s: CoreState, es: seq<Event>): (t: Trace)
    ensures t.state.peers.Keys <= s.peers.Keys + AdmittedBy(es)
    ensures InSessionHandles(t.state.peers) <= InSessionHandles(s.peers) + PromotedBy(es)
    decreases |es|
  {
    if es == [] then
      Trace(s, [], [])
    else
      var r := Apply(env, s, es[0]);
      var rest := Run(env, r.state, es[1..]);
      Trace(rest.state, r.outputs + rest.outputs, r.commands + rest.commands)
  }
}
