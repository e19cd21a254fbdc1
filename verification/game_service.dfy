/** The session orchestrator: it owns `hasStartedGame` and the active game
    worker, reacts to the connection core's events, and forwards the
    caller's intents to the core. */
module GameService {
  import opened Wrappers
  import opened Messages
  import Core = ConnectionCore
  import Events = ConnectionEvents

  datatype WorkerKind = Host | Participant

  datatype BuildError = BuildError(reason: string)

  /** The worker builder: builds a worker of a kind from optional init
      data, or throws. A built worker is known by the instance number the
      builder hands back. */
  datatype Builder = Builder(build: (WorkerKind, Option<Bytes>) -> Result<nat, BuildError>)

  /** The active worker as the orchestrator sees it: the instance the
      builder returned, the kind and data it was built from, and the
      payloads passed to its `dataReceived`, in order. */
  datatype Worker = Worker(instance: nat, kind: WorkerKind, initData: Option<Bytes>, received: seq<Bytes>)

  datatype GameState = GameState(hasStartedGame: bool, worker: Option<Worker>)

  /** The narrower event set republished to the orchestrator's subscribers. */
  datatype GameOutput =
    | HostsChanged(hosts: set<Core.Handle>)
    | InviteReceived(invite: Core.Invitation)
    | PeerMessageReceived(message: PeerMessage)

  datatype Reaction = Reaction(game: GameState, outputs: seq<GameOutput>)

  /** `startGame` hands back the builder's error, if any. */
  datatype Started = Started(game: GameState, thrown: Option<BuildError>)

  /** `initializeWorker`: build a worker and make it the active one; on a
      builder error the state is left as it was. */
  function InitializeWorker(b: Builder, g: GameState, kind: WorkerKind, data: Option<Bytes>): (r: Result<GameState, BuildError>)
    ensures r.Ok? <==> b.build(kind, data).Ok?
    ensures r.Ok? ==>
      && r.value.hasStartedGame == g.hasStartedGame
      && r.value.worker == Some(Worker(b.build(kind, data).value, kind, data, []))
    ensures r.Err? ==> r.error == b.build(kind, data).error
  {
    match b.build(kind, data)
    case Ok(instance) => Ok(g.(worker := Some(Worker(instance, kind, data, []))))
    case Err(e) => Err(e)
  }

  /** `startGame(withData:)`: the game counts as started before the host
      worker is built; a builder error is thrown to the caller and the
      previous worker stays. */
  function StartGame(b: Builder, g: GameState, data: Option<Bytes>): (r: Started)
    ensures r.game.hasStartedGame
    ensures r.thrown.None? <==> b.build(Host, data).Ok?
    ensures r.thrown.None? ==> r.game.worker == Some(Worker(b.build(Host, data).value, Host, data, []))
    ensures r.thrown.Some? ==> r.game.worker == g.worker && r.thrown == Some(b.build(Host, data).error)
  {
    var started := g.(hasStartedGame := true);
    match InitializeWorker(b, started, Host, data)
    case Ok(g') => Started(g', None)
    case Err(e) => Started(started, Some(e))
  }

  /** Hand a payload to the active worker, if there is one. */
  function Forward(g: GameState, payload: Bytes): (r: GameState)
    ensures r.hasStartedGame == g.hasStartedGame
    ensures g.worker.None? ==> r == g
    ensures g.worker.Some? ==>
      && r.worker.Some?
      && r.worker.value.instance == g.worker.value.instance
      && r.worker.value.kind == g.worker.value.kind
      && r.worker.value.initData == g.worker.value.initData
      && r.worker.value.received == g.worker.value.received + [payload]
  {
    match g.worker
    case None => g
    case Some(w) => g.(worker := Some(w.(received := w.received + [payload])))
  }

  /** What the sink republishes for one core event. */
  function Republish(o: Core.ConnectionOutput): seq<GameOutput> {
    match o
    case DataReceived(_) => []
    case HostsChanged(hs) => [HostsChanged(hs)]
    case InviteReceived(inv) => [InviteReceived(inv)]
    case MessageReceived(m) => [PeerMessageReceived(m)]
  }

  /** The event sink installed by `init`. Application bytes are decoded:
      `startedGame` starts the game and builds a participant worker (a
      builder error is swallowed), `workerDataReceived` goes to the active
      worker, anything undecodable is dropped, and none of it is
      republished. The other three events are republished unchanged and
      leave the state alone. */
  function OnOutput(b: Builder, codec: Codec, g: GameState, o: Core.ConnectionOutput): (r: Reaction)
    ensures r.outputs == Republish(o)
    ensures !o.DataReceived? ==> r.game == g
    ensures o.DataReceived? ==>
      match codec.decodeGameMessage(o.data)
      case None => r.game == g
      case Some(StartedGame(d)) =>
        && r.game.hasStartedGame
        && (b.build(Participant, d).Ok? ==>
              r.game.worker == Some(Worker(b.build(Participant, d).value, Participant, d, [])))
        && (b.build(Participant, d).Err? ==> r.game.worker == g.worker)
      case Some(WorkerDataReceived(payload)) => r.game == Forward(g, payload)
  {
    match o
    case DataReceived(data) =>
      (match codec.decodeGameMessage(data)
       case None => Reaction(g, [])
       case Some(StartedGame(d)) =>
         var started := g.(hasStartedGame := true);
         (match InitializeWorker(b, started, Participant, d)
          case Ok(g') => Reaction(g', [])
          case Err(_) => Reaction(started, []))
       case Some(WorkerDataReceived(payload)) => Reaction(Forward(g, payload), []))
    case HostsChanged(hs) => Reaction(g, [HostsChanged(hs)])
    case InviteReceived(inv) => Reaction(g, [InviteReceived(inv)])
    case MessageReceived(m) => Reaction(g, [PeerMessageReceived(m)])
  }

  function Republished(outs: seq<Core.ConnectionOutput>): seq<GameOutput> {
    if outs == [] then [] else Republish(outs[0]) + Republished(outs[1..])
  }

  /** The sink over a stream of core events, one at a time, in order. Once
      started, a game stays started; what is republished depends on the
      events alone, never on the game state. */
  function ConsumeAll(b: Builder, codec: Codec, g: GameState, outs: seq<Core.ConnectionOutput>): (r: Reaction)
    ensures g.hasStartedGame ==> r.game.hasStartedGame
    ensures r.outputs == Republished(outs)
    decreases |outs|
  {
    if outs == [] then
      Reaction(g, [])
    else
      var first := OnOutput(b, codec, g, outs[0]);
      var rest := ConsumeAll(b, codec, first.game, outs[1..]);
      Reaction(rest.game, first.outputs + rest.outputs)
  }

  /** The orchestrator with the core it wraps. */
  datatype Service = Service(core: Core.CoreState, game: GameState)

  datatype ServiceEnv = ServiceEnv(core: Core.Env, builder: Builder)

  datatype ServiceStep = ServiceStep(
    service: Service,
    outputs: seq<GameOutput>,
    commands: seq<Core.Command>,
    thrown: Option<Core.TransportError>
  )

  /** One core event followed by the sink's reaction to what the core
      emitted. The delegations (`browseSessions`, `hostSession`, `invite`,
      `leaveSession`, `send(message: PeerMessage)`) are the intent events:
      they reach the core and leave `hasStartedGame` and the worker as
      they were. */
  function Deliver(env: ServiceEnv, svc: Service, e: Events.Event): (r: ServiceStep)
    ensures r.service.core == Events.Apply(env.core, svc.core, e).state
    ensures r.commands == Events.Apply(env.core, svc.core, e).commands
    ensures r.thrown == Events.Apply(env.core, svc.core, e).thrown
    ensures r.outputs == Republished(Events.Apply(env.core, svc.core, e).outputs)
    ensures svc.game.hasStartedGame ==> r.service.game.hasStartedGame
    ensures Events.IsIntent(e) ==> r.service.game == svc.game && r.outputs == []
  {
    var step := Events.Apply(env.core, svc.core, e);
    var reaction := ConsumeAll(env.builder, env.core.codec, svc.game, step.outputs);
    ServiceStep(Service(step.state, reaction.game), reaction.outputs, step.commands, step.thrown)
  }

  /** `send(message: GameMessage)`: encode and broadcast through the core;
      an encoding failure is a silent no-op. */
  function SendGameMessage(env: ServiceEnv, svc: Service, m: GameMessage): (r: ServiceStep)
    ensures r.service == svc && r.outputs == []
    ensures env.core.codec.encodeGameMessage(m).None? ==> r.commands == [] && r.thrown == None
    ensures env.core.codec.encodeGameMessage(m).Some? ==>
      var sent := Core.Broadcast(env.core, svc.core, env.core.codec.encodeGameMessage(m).value);
      r.commands == sent.commands && r.thrown == sent.thrown
  {
    match env.core.codec.encodeGameMessage(m)
    case None => ServiceStep(svc, [], [], None)
    case Some(data) =>
      var sent := Core.Broadcast(env.core, svc.core, data);
      ServiceStep(svc, [], sent.commands, sent.thrown)
  }
}
