/** Properties of the orchestrator, and end-to-end runs through the
    connection core and the orchestrator together. */
module GameProperties {
  import opened Wrappers
  import opened Messages
  import opened GameService
  import Core = ConnectionCore
  import Events = ConnectionEvents
  import CoreProps = ConnectionProperties

  /** Bytes that are not an application message change nothing and are
      not republished. */
  lemma UndecodableDataIgnored(b: Builder, codec: Codec, g: GameState, data: Bytes)
    requires codec.decodeGameMessage(data).None?
    ensures OnOutput(b, codec, g, Core.DataReceived(data)) == Reaction(g, [])
  {
  }

  /** A `startedGame` whose worker cannot be built still marks the game
      started, keeps the previous worker and reports nothing. */
  lemma StartedGameFailureSwallowed(b: Builder, codec: Codec, g: GameState, data: Bytes)
    requires codec.decodeGameMessage(data).Some? && codec.decodeGameMessage(data).value.StartedGame?
    requires b.build(Participant, codec.decodeGameMessage(data).value.initData).Err?
    ensures OnOutput(b, codec, g, Core.DataReceived(data)) == Reaction(g.(hasStartedGame := true), [])
  {
  }

  /** Worker data that arrives before any worker exists is dropped. */
  lemma WorkerDataWithoutWorkerDropped(b: Builder, codec: Codec, g: GameState, data: Bytes)
    requires g.worker.None?
    requires codec.decodeGameMessage(data).Some? && codec.decodeGameMessage(data).value.WorkerDataReceived?
    ensures OnOutput(b, codec, g, Core.DataReceived(data)) == Reaction(g, [])
  {
  }

  /** The sink over a one-event stream is the sink on that event. */
  lemma ConsumeOne(b: Builder, codec: Codec, g: GameState, o: Core.ConnectionOutput)
    ensures ConsumeAll(b, codec, g, [o]) == OnOutput(b, codec, g, o)
  {
  }

  /** Worker routing: application bytes carrying worker data reach the
      active worker exactly once, nothing is republished and the registry
      is untouched. */
  lemma WorkerRoutingScenario(env: ServiceEnv, svc: Service, sender: Core.Handle, payload: Bytes)
    requires Faithful(env.core.codec)
    requires env.core.codec.encodeGameMessage(WorkerDataReceived(payload)).Some?
    requires svc.game.worker.Some?
    ensures var data := env.core.codec.encodeGameMessage(WorkerDataReceived(payload)).value;
      var r := Deliver(env, svc, Events.DataArrived(sender, data));
      && r.outputs == []
      && r.service.core == svc.core
      && r.service.game.hasStartedGame == svc.game.hasStartedGame
      && r.service.game.worker.Some?
      && r.service.game.worker.value.instance == svc.game.worker.value.instance
      && r.service.game.worker.value.received == svc.game.worker.value.received + [payload]
  {
    var data := env.core.codec.encodeGameMessage(WorkerDataReceived(payload)).value;
    CoreProps.ClassifyEncodedGame(env.core.codec, WorkerDataReceived(payload));
    var step := Events.Apply(env.core, svc.core, Events.DataArrived(sender, data));
    assert step.outputs == [Core.DataReceived(data)];
    ConsumeOne(env.builder, env.core.codec, svc.game, Core.DataReceived(data));
  }

  /** What `send(message: GameMessage)` puts on the wire, once it reaches
      another device's core, is routed to that device's active worker. */
  lemma SentWorkerDataReachesWorker(sender: ServiceEnv, svc: Service, receiver: ServiceEnv, other: Service,
                                    from: Core.Handle, payload: Bytes)
    requires sender.core.codec == receiver.core.codec && Faithful(receiver.core.codec)
    requires other.game.worker.Some?
    ensures var sent := SendGameMessage(sender, svc, WorkerDataReceived(payload));
      forall c :: c in sent.commands ==>
        var r := Deliver(receiver, other, Events.DataArrived(from, c.data));
        && r.outputs == []
        && r.service.game.worker.Some?
        && r.service.game.worker.value.received == other.game.worker.value.received + [payload]
  {
    var sent := SendGameMessage(sender, svc, WorkerDataReceived(payload));
    if sent.commands != [] {
      WorkerRoutingScenario(receiver, other, from, payload);
    }
  }

  /** Game start: the host builds a host worker from the seed; a
      participant receiving the host's `startedGame` with the same seed
      builds a participant worker from it. */
  lemma GameStartScenario(host: Builder, hostGame: GameState, env: ServiceEnv, guest: Service,
                          sender: Core.Handle, seed: Option<Bytes>)
    requires host.build(Host, seed).Ok?
    requires env.builder.build(Participant, seed).Ok?
    requires Faithful(env.core.codec)
    requires env.core.codec.encodeGameMessage(StartedGame(seed)).Some?
    ensures var h := StartGame(host, hostGame, seed);
      && h.thrown.None? && h.game.hasStartedGame
      && h.game.worker.Some? && h.game.worker.value.kind == Host && h.game.worker.value.initData == seed
    ensures var data := env.core.codec.encodeGameMessage(StartedGame(seed)).value;
      var r := Deliver(env, guest, Events.DataArrived(sender, data));
      && r.outputs == []
      && r.service.game.hasStartedGame
      && r.service.game.worker.Some?
      && r.service.game.worker.value.kind == Participant
      && r.service.game.worker.value.initData == seed
      && r.service.game.worker.value.received == []
  {
    var data := env.core.codec.encodeGameMessage(StartedGame(seed)).value;
    CoreProps.ClassifyEncodedGame(env.core.codec, StartedGame(seed));
    var step := Events.Apply(env.core, guest.core, Events.DataArrived(sender, data));
    assert step.outputs == [Core.DataReceived(data)];
    ConsumeOne(env.builder, env.core.codec, guest.game, Core.DataReceived(data));
  }

  /** A control message from a peer reaches the orchestrator's subscribers
      unchanged and touches no game state. */
  lemma ControlMessageRepublished(env: ServiceEnv, svc: Service, sender: Core.Handle, m: PeerMessage)
    requires PeerMessagesRoundTrip(env.core.codec)
    requires env.core.codec.encodePeerMessage(m).Some?
    ensures var r := Deliver(env, svc, Events.DataArrived(sender, env.core.codec.encodePeerMessage(m).value));
      r.outputs == [PeerMessageReceived(m)] && r.service == svc
  {
    var data := env.core.codec.encodePeerMessage(m).value;
    CoreProps.ClassifyEncodedControl(env.core.codec, m);
    ConsumeOne(env.builder, env.core.codec, svc.game, Core.MessageReceived(m));
  }

  /** `leaveSession` empties the registry but neither stops the game nor
      drops the worker. */
  lemma LeaveKeepsGame(env: ServiceEnv, svc: Service)
    ensures var r := Deliver(env, svc, Events.LeaveRequested);
      r.service.game == svc.game && r.service.core.peers == map[] && !r.service.core.isHosting
  {
  }

  /** Discovery events are republished one-to-one and leave the game alone. */
  lemma HostsChangeRepublished(env: ServiceEnv, svc: Service, e: Events.Event)
    requires Events.IsDiscovery(e)
    ensures var step := Events.Apply(env.core, svc.core, e);
      var r := Deliver(env, svc, e);
      && r.service.game == svc.game
      && |r.outputs| == |step.outputs|
      && forall i :: 0 <= i < |r.outputs| ==> r.outputs[i] == HostsChanged(step.outputs[i].hosts)
  {
    var step := Events.Apply(env.core, svc.core, e);
    if step.outputs != [] {
      assert step.outputs == [Core.HostsChanged(step.state.peers.Keys)];
      ConsumeOne(env.builder, env.core.codec, svc.game, step.outputs[0]);
    }
  }
}
