/**
 The publisher of the status feed (internal/feed/server.go) as atomic steps. Every critical section
 of the mutex is one step, and so is everything done outside it that others can see: a send or a
 close on a client's queue, a turn of the accept, read, write or sampling loop. A goroutine is the
 list of steps it still has to take; any goroutine may take the next step.
 */
module Feed {
  import opened Prelude
  import opened Names
  import Proof

  const MAX_CLIENTS := 32
  const MAX_WATCH := 64
  const SEND_QUEUE := 16

  /** Milliseconds; zero is Go's zero time, which no clock reads. */
  type Time = int

  const REFRESH_FLOOR: Time := 2_000
  const PING_FLOOR: Time := 2_000
  const CHALLENGE_FLOOR: Time := 1_000

  /** The names a view has rows for; `taken` tells one view from another. */
  datatype View = View(names: set<Name>, taken: int)

  datatype Message =
    | HelloMsg
    | StateMsg(view: View)
    | SampleMsg(tunnel: Name, reading: int)
    | PingMsg(round: int)
    | AuthMsg(nonce: string, signature: string)
    | ByeMsg

  datatype ClientMessage =
    | WatchMsg(tunnel: Name)
    | UnwatchMsg(tunnel: Name)
    | ChallengeMsg(nonce: string)
    | RefreshMsg
    | PingRequest(tunnel: Name)
    | Unknown

  datatype Request = Refresh | Ping(tunnel: Name)

  /**
   One connection. `queue` is the channel its writer drains and `hand` what the writer has taken and
   not yet written; `queued`, `written` and `signed` are the history of each.
   */
  datatype Client = Client(
    queue: seq<Message>,
    closed: bool,
    hand: Option<Message>,
    connected: bool,
    watch: set<Name>,
    lastChallenge: Time,
    queued: seq<Message>,
    written: seq<Message>,
    signed: seq<Time>)

  const NEW_CLIENT: Client := Client([], false, None, true, {}, 0, [], [], [])

  /** What never changes: the key, the identity that is signed, and the floor that is asked for, if any. */
  datatype Setup = Setup(lib: Proof.Library, feedKey: string, version: Bytes, path: Bytes, challengeFloor: Time,
      canSample: bool)

  /** The gap kept between two signatures for one client. */
  function ChallengeFloor(setup: Setup): (floor: Time)
    ensures floor > 0
  {
    if setup.challengeFloor > 0 then setup.challengeFloor else CHALLENGE_FLOOR
  }

  /**
   The server's fields. A client is named by its place in `all`, and `clients` are those registered.
   A sampling loop is named by its number; `stopped` are those whose stop channel is closed.
   `panicked` records what the runtime would have died of.
   */
  datatype Server = Server(
    cancelled: bool,
    closing: bool,
    unbound: bool,
    all: seq<Client>,
    clients: set<nat>,
    view: Option<View>,
    sampling: Option<nat>,
    loops: nat,
    stopped: set<nat>,
    requests: seq<Request>,
    lastRefresh: Time,
    lastPing: Time,
    refreshes: seq<Time>,
    pings: seq<Time>,
    panicked: bool)

  const NEW_SERVER: Server := Server(false, false, false, [], {}, None, None, 0, {}, [], 0, 0, [], [], false)

  /** One atomic step a goroutine has still to take. */
  datatype Task =
    | Accept
    | CheckFull
    | Register
    | SendTo(c: nat, message: Message)
    | Drop(c: nat)
    | CloseQueue(c: nat)
    | CloseConn(c: nat)
    | Retick
    | Read(c: nat)
    | Handle(c: nat, line: ClientMessage)
    | AllowChallenge(c: nat, nonce: string)
    | Ask(request: Request)
    | Deliver(request: Request)
    | Take(c: nat)
    | Write(c: nat)
    | Publish(view: View)
    | PublishPings(round: int)
    | SampleLoop(h: nat)
    | SampleOnce
    | Shutdown
    | SayBye(c: nat)
    | StopSampling
    | Unbind

  /** One tunnel read in a round of samples, and its watchers in the order they are sent to. */
  datatype Reading = Reading(tunnel: Name, reading: int, watchers: seq<nat>)

  /** What the world decides in a step: the branch taken, the clock, an iteration order, a line, a round of samples. */
  datatype Oracle = Oracle(go: bool, now: Time, order: seq<nat>, line: Option<ClientMessage>, round: seq<Reading>)

  // ---------------------------------------------------------------- reading and changing one client

  function At(s: Server, c: nat): Client {
    if c < |s.all| then s.all[c] else NEW_CLIENT
  }

  function Put(s: Server, c: nat, client: Client): Server {
    if c < |s.all| then s.(all := s.all[c := client]) else s
  }

  /** A send on a client's queue, where the runtime panics if it was closed. */
  function Queued(s: Server, c: nat, message: Message): Server {
    var client := At(s, c);
    if client.closed then s.(panicked := true)
    else Put(s, c, client.(queue := client.queue + [message], queued := client.queued + [message]))
  }

  function HasRoom(s: Server, c: nat): bool {
    |At(s, c).queue| < SEND_QUEUE
  }

  /** Whether anybody registered is watching anything. */
  predicate Watched(s: Server) {
    exists c :: c in s.clients && At(s, c).watch != {}
  }

  function WatchersOf(s: Server, tunnel: Name): set<nat> {
    set c | c in s.clients && tunnel in At(s, c).watch
  }

  /** Whether a name may be acted on: any while no view is known, then only those it shows. */
  predicate Acceptable(s: Server, tunnel: Name) {
    s.view.Some? ==> tunnel in s.view.value.names
  }

  predicate TooSoon(last: Time, now: Time, floor: Time) {
    last != 0 && now - last < floor
  }

  // ---------------------------------------------------------------- the steps

  function SendsTo(order: seq<nat>, message: Message): seq<Task> {
    seq(|order|, i requires 0 <= i < |order| => SendTo(order[i], message))
  }

  function Byes(order: seq<nat>): seq<Task> {
    seq(|order|, i requires 0 <= i < |order| => SayBye(order[i]))
  }

  function SendsOf(round: seq<Reading>): seq<Task> {
    if round == [] then []
    else SendsTo(round[0].watchers, SampleMsg(round[0].tunnel, round[0].reading)) + SendsOf(round[1..])
  }

  /** What a step leaves: the server, what this goroutine does next, and the goroutines it started. */
  datatype Effect = Effect(server: Server, next: seq<Task>, started: seq<seq<Task>>)

  function Only(s: Server): Effect {
    Effect(s, [], [])
  }

  function Then(s: Server, next: seq<Task>): Effect {
    Effect(s, next, [])
  }

  function Registered(s: Server): Effect {
    if s.closing || s.unbound then Then(s, [Accept])
    else
      var c := |s.all|;
      var greeting := [SendTo(c, HelloMsg)] + if s.view.Some? then [SendTo(c, StateMsg(s.view.value))] else [];
      Effect(s.(all := s.all + [NEW_CLIENT], clients := s.clients + {c}), greeting + [Accept], [[Take(c)], [Read(c)]])
  }

  function Sent(s: Server, c: nat, message: Message): Effect {
    if c !in s.clients then Only(s)
    else if HasRoom(s, c) || At(s, c).closed then Only(Queued(s, c, message))
    else Then(s, [Drop(c)])
  }

  function Dropped(s: Server, c: nat): Effect {
    if c !in s.clients then Only(s)
    else Then(s.(clients := s.clients - {c}), [CloseQueue(c), CloseConn(c), Retick])
  }

  function QueueClosed(s: Server, c: nat): Server {
    if At(s, c).closed then s.(panicked := true) else Put(s, c, At(s, c).(closed := true))
  }

  function SaidBye(s: Server, c: nat): Effect {
    Then(if HasRoom(s, c) || At(s, c).closed then Queued(s, c, ByeMsg) else s, [CloseQueue(c)])
  }

  function Stopped(s: Server): Server {
    match s.sampling
    case None => s
    case Some(h) =>
      s.(sampling := None, stopped := s.stopped + {h}, panicked := s.panicked || h in s.stopped)
  }

  function Reticked(s: Server): Effect {
    if Watched(s) && s.sampling == None then
      Effect(s.(sampling := Some(s.loops), loops := s.loops + 1), [], [[SampleLoop(s.loops)]])
    else Only(if Watched(s) then s else Stopped(s))
  }

  /** The critical section of a watch: taken on trust only while no view is known, and bounded. */
  function WatchAdded(s: Server, c: nat, tunnel: Name): Effect {
    if tunnel == "" || !Acceptable(s, tunnel) || |At(s, c).watch| >= MAX_WATCH then Only(s)
    else Then(Put(s, c, At(s, c).(watch := At(s, c).watch + {tunnel})), [Retick])
  }

  function LineHandled(setup: Setup, s: Server, c: nat, line: ClientMessage): Effect {
    match line
    case WatchMsg(tunnel) => WatchAdded(s, c, tunnel)
    case UnwatchMsg(tunnel) => Then(Put(s, c, At(s, c).(watch := At(s, c).watch - {tunnel})), [Retick])
    case ChallengeMsg(nonce) =>
      if setup.feedKey == "" || Proof.Nonce(setup.lib, nonce) == None then Only(s)
        else Then(s, [AllowChallenge(c, nonce)])
    case RefreshMsg => Then(s, [Ask(Refresh)])
    case PingRequest(tunnel) =>
      if tunnel != "" && !Acceptable(s, tunnel) then Only(s) else Then(s, [Ask(Ping(tunnel))])
    case Unknown => Only(s)
  }

  function ChallengeAllowed(setup: Setup, s: Server, c: nat, nonce: string, now: Time): Effect {
    var client := At(s, c);
    if TooSoon(client.lastChallenge, now, ChallengeFloor(setup)) then Only(s)
    else
      var stamped := Put(s, c, client.(lastChallenge := now, signed := client.signed + [now]));
      match Proof.Answer(setup.lib, setup.feedKey, setup.version, setup.path, nonce)
      case None => Only(stamped)
      case Some(signature) => Then(stamped, [SendTo(c, AuthMsg(nonce, signature))])
  }

  function Asked(s: Server, request: Request, now: Time): Effect {
    match request
    case Refresh =>
      if TooSoon(s.lastRefresh, now, REFRESH_FLOOR) then Only(s)
      else Then(s.(lastRefresh := now, refreshes := s.refreshes + [now]), [Deliver(request)])
    case Ping(_) =>
      if TooSoon(s.lastPing, now, PING_FLOOR) then Only(s)
      else Then(s.(lastPing := now, pings := s.pings + [now]), [Deliver(request)])
  }

  function Taken(s: Server, c: nat): Effect {
    var client := At(s, c);
    if client.queue == [] then Only(Put(s, c, client.(connected := false)))
    else Then(Put(s, c, client.(queue := client.queue[1..], hand := Some(client.queue[0]))), [Write(c)])
  }

  function Written(s: Server, c: nat, go: bool): Effect {
    var client := At(s, c);
    if go && client.hand.Some? then
      Then(Put(s, c, client.(hand := None, written := client.written + [client.hand.value])), [Take(c)])
    else Only(Put(s, c, client.(connected := false)))
  }

  function ShutDown(s: Server, order: seq<nat>): Effect {
    Then(s.(closing := true, clients := {}), Byes(order) + [StopSampling, Unbind])
  }

  function EffectOf(setup: Setup, s: Server, task: Task, o: Oracle): Effect {
    match task
    case Accept =>
      // A connection to serve, or an accept that failed and ends the loop.
      if o.go then Then(s, [CheckFull]) else Only(s.(cancelled := true))
    case CheckFull => Then(s, [if |s.clients| >= MAX_CLIENTS then Accept else Register])
    case Register => Registered(s)
    case SendTo(c, message) => Sent(s, c, message)
    case Drop(c) => Dropped(s, c)
    case CloseQueue(c) => Only(QueueClosed(s, c))
    case CloseConn(c) => Only(Put(s, c, At(s, c).(connected := false)))
    case Retick => Reticked(s)
    case Read(c) => Then(s, if o.line.Some? then [Handle(c, o.line.value), Read(c)] else [Drop(c)])
    case Handle(c, line) => LineHandled(setup, s, c, line)
    case AllowChallenge(c, nonce) => ChallengeAllowed(setup, s, c, nonce, o.now)
    case Ask(request) => Asked(s, request, o.now)
    case Deliver(request) => Only(if s.requests == [] then s.(requests := [request]) else s)
    case Take(c) => Taken(s, c)
    case Write(c) => Written(s, c, o.go)
    case Publish(view) => Then(s.(view := Some(view)), SendsTo(o.order, StateMsg(view)))
    case PublishPings(round) => Then(s, SendsTo(o.order, PingMsg(round)))
    case SampleLoop(h) => if o.go then Then(s, [SampleOnce, SampleLoop(h)]) else Only(s)
    case SampleOnce => Then(s, if setup.canSample then SendsOf(o.round) else [])
    case Shutdown => ShutDown(s, o.order)
    case SayBye(c) => SaidBye(s, c)
    case StopSampling => Only(Stopped(s))
    case Unbind => Only(s.(unbound := true))
  }

  /** A round of samples reads watched names the view shows, each once, and sends to all its watchers. */
  ghost predicate IsRound(s: Server, round: seq<Reading>) {
    && (forall i, j :: 0 <= i < j < |round| ==> round[i].tunnel != round[j].tunnel)
    && forall i :: 0 <= i < |round| ==>
      && s.view.Some? && round[i].tunnel in s.view.value.names
      && WatchersOf(s, round[i].tunnel) != {}
      && Enumerates(round[i].watchers, WatchersOf(s, round[i].tunnel))
  }

  /** Whether a step can be taken now, and with these decisions of the world. */
  ghost predicate CanStep(s: Server, task: Task, o: Oracle) {
    match task
    case AllowChallenge(_, _) => o.now != 0
    case Ask(_) => o.now != 0
    case Take(c) => At(s, c).queue != [] || At(s, c).closed
    case Write(c) => o.go ==> At(s, c).connected
    case Publish(_) => Enumerates(o.order, s.clients)
    case PublishPings(_) => Enumerates(o.order, s.clients)
    case SampleLoop(h) => o.go || h in s.stopped
    case SampleOnce => IsRound(s, o.round)
    case Shutdown => s.cancelled && Enumerates(o.order, s.clients)
    case _ => true
  }

  // ---------------------------------------------------------------- the whole system

  datatype System = System(server: Server, threads: seq<seq<Task>>)

  const START: System := System(NEW_SERVER, [[Accept], [Shutdown]])

  /** A goroutine steps, or somebody outside acts. */
  datatype Event =
    | Step(t: nat, o: Oracle)
    | PublishCalled(view: View)
    | PublishPingsCalled(round: int)
    | Cancelled
    | RequestTaken

  ghost predicate Enabled(y: System, e: Event) {
    match e
    case Step(t, o) => t < |y.threads| && y.threads[t] != [] && CanStep(y.server, y.threads[t][0], o)
    case RequestTaken => y.server.requests != []
    case _ => true
  }

  ghost function Next(setup: Setup, y: System, e: Event): System
    requires Enabled(y, e)
  {
    match e
    case Step(t, o) =>
      var effect := EffectOf(setup, y.server, y.threads[t][0], o);
      System(effect.server, y.threads[t := effect.next + y.threads[t][1..]] + effect.started)
    case PublishCalled(view) => y.(threads := y.threads + [[Publish(view)]])
    case PublishPingsCalled(round) => y.(threads := y.threads + [[PublishPings(round)]])
    case Cancelled => y.(server := y.server.(cancelled := true))
    case RequestTaken => y.(server := y.server.(requests := y.server.requests[1..]))
  }

  /** Every system a run passes through. */
  ghost predicate IsRun(setup: Setup, systems: seq<System>, events: seq<Event>) {
    && |systems| == |events| + 1
    && systems[0] == START
    && forall i :: 0 <= i < |events| ==>
      Enabled(systems[i], events[i]) && systems[i + 1] == Next(setup, systems[i], events[i])
  }
}
