/**
 The supervisor around the link machine (macos FeedSupervisor.swift). It runs on one actor, so each
 dispatch is one atomic step; what interleaves is the order in which its reader tasks and timers
 resume and a person acts.
 */
module Supervisor {
  import opened Prelude
  import opened Names
  import opened Diffs
  import opened Reconnect
  import opened Link
  import Framing = LineFraming

  /** What is fixed for a run: the link's configuration, the framer's limit and the line decoder. */
  datatype Setup = Setup(link: Config, limit: int, decode: Bytes -> Option<Message>)

  /** A reader task waits for its connection, then for that connection's next chunk. */
  datatype Reader = Dialling | Reading(framer: Framing.Framer)

  datatype Timer = RetryTimer(delay: Duration) | ProofTimer(entry: nat, delay: Duration)

  /**
   What the runtime holds for the supervisor: the reader tasks that have not ended, which tasks were
   cancelled, the timers that have neither fired nor been cancelled, and every connection ever
   fetched or closed. A connection is named by the generation it was fetched under.
   */
  datatype Tasks = Tasks(
    readers: map<nat, Reader>,
    cancelled: set<nat>,
    timers: map<nat, Timer>,
    nextTimer: nat,
    fetched: set<nat>,
    closed: set<nat>)

  /**
   What was heard on the connection of the current generation, said on it and shown from it,
   whether a held view was carried into proving, and every diff ever published.
   */
  datatype Log = Log(
    heard: seq<Message>,
    said: seq<Command>,
    shown: seq<Snapshot>,
    carried: bool,
    diffs: seq<Diff>)

  /** The supervisor's fields, the key store, the runtime's tasks and the log of the run. */
  datatype World = World(
    machine: Machine,
    store: Option<string>,
    generation: nat,
    connection: Option<nat>,
    reader: Option<nat>,
    retry: Option<nat>,
    proof: Option<nat>,
    tasks: Tasks,
    log: Log)

  const NO_TASKS: Tasks := Tasks(map[], {}, map[], 0, {}, {})
  const NOTHING_LOGGED: Log := Log([], [], [], false, [])

  function Asleep(store: Option<string>): World {
    World(Link.Fresh(store), store, 0, None, None, None, None, NO_TASKS, NOTHING_LOGGED)
  }

  function One(task: Option<nat>): set<nat> {
    match task
    case None => {}
    case Some(t) => {t}
  }

  // ---------------------------------------------------------------- actions

  function Disarmed(tasks: Tasks, timer: Option<nat>): Tasks {
    tasks.(timers := tasks.timers - One(timer))
  }

  /** One timer replaced by a new one. */
  function Armed(tasks: Tasks, previous: Option<nat>, timer: Timer): Tasks {
    tasks.(timers := (tasks.timers - One(previous))[tasks.nextTimer := timer], nextTimer := tasks.nextTimer + 1)
  }

  /** The connection held is closed and the task reading it cancelled. */
  function LetGo(tasks: Tasks, connection: Option<nat>, reader: Option<nat>): Tasks {
    tasks.(closed := tasks.closed + One(connection), cancelled := tasks.cancelled + One(reader))
  }

  /** A new task, fetching a connection under its own number. */
  function Spawned(tasks: Tasks, mine: nat): Tasks {
    tasks.(readers := tasks.readers[mine := Dialling])
  }

  function ForNewConnection(log: Log): Log {
    log.(heard := [], said := [], shown := [])
  }

  function Opening(w: World): World {
    var mine := w.generation + 1;
    w.(connection := None, reader := Some(mine), generation := mine,
       tasks := Spawned(LetGo(w.tasks, w.connection, w.reader), mine), log := ForNewConnection(w.log))
  }

  function Closing(w: World): World {
    w.(generation := w.generation + 1, connection := None, reader := None,
       tasks := LetGo(w.tasks, w.connection, w.reader))
  }

  function Performed(w: World, action: Action): World {
    match action
    case Connect => Opening(w)
    case CloseConnection => Closing(w)
    case ScheduleRetry(delay) =>
      w.(tasks := Armed(w.tasks, w.retry, RetryTimer(delay)), retry := Some(w.tasks.nextTimer))
    case CancelRetry => w.(tasks := Disarmed(w.tasks, w.retry), retry := None)
    case Send(command) => if w.connection == None then w else w.(log := w.log.(said := w.log.said + [command]))
    case Publish(view, diff) => w.(log := w.log.(shown := w.log.shown + [view], diffs := w.log.diffs + [diff]))
    case PublishSample(sample) => w
    case ScheduleAuthTimeout(delay) =>
      w.(tasks := Armed(w.tasks, w.proof, ProofTimer(w.generation, delay)), proof := Some(w.tasks.nextTimer))
    case CancelAuthTimeout => w.(tasks := Disarmed(w.tasks, w.proof), proof := None)
    case Pin(key) => w.(store := Some(key))
  }

  function PerformedAll(w: World, actions: seq<Action>): World
    decreases |actions|
  {
    if actions == [] then w else PerformedAll(Performed(w, actions[0]), actions[1..])
  }

  /** What the log says of an event that takes the machine from one state to another. */
  ghost function Noted(log: Log, from: Machine, to: Machine, e: Event): Log {
    log.(heard := if e.Received? then log.heard + [e.message] else log.heard,
         carried := if from.state == Connecting && to.state == Proving then from.pending.Some? else log.carried)
  }

  /** The machine has moved; its actions are still to be performed. */
  ghost function Moved(w: World, m: Machine, e: Event): World {
    w.(machine := m, log := Noted(w.log, w.machine, m, e))
  }

  ghost function Dispatched(cfg: Config, w: World, e: Event, nonce: Bytes): World {
    var (m, actions) := Handled(cfg, w.machine, e, nonce);
    PerformedAll(Moved(w, m, e), actions)
  }

  /** The messages of one chunk, one after the other, with no check in between. */
  ghost function DispatchedAll(cfg: Config, w: World, messages: seq<Message>, nonce: Bytes): World
    decreases |messages|
  {
    if messages == [] then w
    else DispatchedAll(cfg, Dispatched(cfg, w, Received(messages[0]), nonce), messages[1..], nonce)
  }

  function Decoded(decode: Bytes -> Option<Message>, lines: seq<Bytes>): seq<Message>
    decreases |lines|
  {
    if lines == [] then []
    else (match decode(lines[0]) case None => [] case Some(message) => [message]) + Decoded(decode, lines[1..])
  }

  // ---------------------------------------------------------------- steps

  datatype Outcome =
    | Arrived
    | CouldNotConnect(code: int)
    | FoundNotRoot(uid: Option<nat>, found: Found)
    | OtherError
    | CancelledError

  datatype StreamEnd = Clean | Broken | StreamCancelled

  /** What can happen next. */
  datatype Step =
    | UserActs(e: Event)
    | KeyForgotten
    | TimerFires(t: nat)
    | DialReturns(g: nat, outcome: Outcome)
    | ChunkArrives(g: nat, chunk: Bytes)
    | StreamEnds(g: nat, how: StreamEnd)

  predicate IsUserEvent(e: Event) {
    e.Start? || e.Stop? || e.UserAskedToRetry? || e.SystemDidWake? || e.MenuWillOpen?
    || e.WatchTunnel? || e.WatchNothing? || e.AskForPing?
  }

  /** A cancellation error only ever reaches a task that was cancelled. */
  predicate Enabled(w: World, step: Step) {
    var t := w.tasks;
    match step
    case UserActs(e) => IsUserEvent(e)
    case KeyForgotten => true
    case TimerFires(timer) => timer in t.timers
    case DialReturns(g, outcome) =>
      g in t.readers && t.readers[g] == Dialling && (outcome == CancelledError ==> g in t.cancelled)
    case ChunkArrives(g, _) => g in t.readers && t.readers[g].Reading?
    case StreamEnds(g, how) =>
      g in t.readers && t.readers[g].Reading? && (how == StreamCancelled ==> g in t.cancelled)
  }

  /** A reader task is over. */
  function Ends(w: World, g: nat): World {
    w.(tasks := w.tasks.(readers := w.tasks.readers - {g}))
  }

  /** A connection arrived for a task that is not wanted any more, and is closed at once. */
  function Discarded(w: World, g: nat): World {
    w.(tasks := w.tasks.(fetched := w.tasks.fetched + {g}, closed := w.tasks.closed + {g}))
  }

  function Served(w: World, g: nat): World {
    w.(connection := Some(g),
       tasks := w.tasks.(fetched := w.tasks.fetched + {g}, readers := w.tasks.readers[g := Reading(Framing.FRESH)]))
  }

  function DialEvent(outcome: Outcome): Event {
    match outcome
    case CouldNotConnect(code) => ConnectFailed(code)
    case FoundNotRoot(uid, found) => PublisherNotRoot(uid, found)
    case _ => StreamFailed
  }

  ghost function DialReturned(cfg: Config, w: World, g: nat, outcome: Outcome, nonce: Bytes): World {
    if outcome == CancelledError then Ends(w, g)
    else if g != w.generation then Ends(if outcome == Arrived then Discarded(w, g) else w, g)
    else if outcome == Arrived then Served(w, g)
    else Ends(Dispatched(cfg, w, DialEvent(outcome), nonce), g)
  }

  function Framed(w: World, g: nat, framer: Framing.Framer): World {
    w.(tasks := w.tasks.(readers := w.tasks.readers[g := Reading(framer)]))
  }

  ghost function ChunkArrived(setup: Setup, w: World, g: nat, chunk: Bytes, nonce: Bytes): World
    requires g in w.tasks.readers && w.tasks.readers[g].Reading?
  {
    if g != w.generation then Ends(w, g)
    else
      var (framer, lines) := Framing.Pushed(w.tasks.readers[g].framer, setup.limit, chunk);
      DispatchedAll(setup.link, Framed(w, g, framer), Decoded(setup.decode, lines), nonce)
  }

  ghost function StreamEnded(cfg: Config, w: World, g: nat, how: StreamEnd, nonce: Bytes): World {
    if how == StreamCancelled || g != w.generation then Ends(w, g)
    else Ends(Dispatched(cfg, w, if how == Clean then EndOfStream else StreamFailed, nonce), g)
  }

  function TimerGone(w: World, t: nat): World {
    w.(tasks := w.tasks.(timers := w.tasks.timers - {t}))
  }

  ghost function TimerFired(cfg: Config, w: World, t: nat, nonce: Bytes): World
    requires t in w.tasks.timers
  {
    Dispatched(cfg, TimerGone(w, t), if w.tasks.timers[t].RetryTimer? then RetryTimerFired else AuthTimedOut, nonce)
  }

  /** Forgotten in the store before the machine. */
  function Forgotten(w: World): World {
    w.(store := None, machine := w.machine.(pinnedKey := None))
  }

  ghost function Next(setup: Setup, w: World, step: Step, nonce: Bytes): World
    requires Enabled(w, step)
  {
    match step
    case UserActs(e) => Dispatched(setup.link, w, e, nonce)
    case KeyForgotten => Dispatched(setup.link, Forgotten(w), UserAskedToRetry, nonce)
    case TimerFires(t) => TimerFired(setup.link, w, t, nonce)
    case DialReturns(g, outcome) => DialReturned(setup.link, w, g, outcome, nonce)
    case ChunkArrives(g, chunk) => ChunkArrived(setup, w, g, chunk, nonce)
    case StreamEnds(g, how) => StreamEnded(setup.link, w, g, how, nonce)
  }

  // ---------------------------------------------------------------- the supervisor itself

  class FeedSupervisor {
    const setup: Setup
    const machine: LinkMachine
    var store: Option<string>
    var generation: nat
    var connection: Option<nat>
    var reader: Option<nat>
    var retry: Option<nat>
    var proof: Option<nat>
    var tasks: Tasks
    ghost var log: Log

    constructor (setup: Setup, store: Option<string>)
      ensures this.setup == setup && fresh(machine) && machine.cfg == setup.link && State() == Asleep(store)
    {
      this.setup, this.store := setup, store;
      machine := new LinkMachine(setup.link, store);
      generation, connection, reader, retry, proof := 0, None, None, None, None;
      tasks, log := NO_TASKS, NOTHING_LOGGED;
    }

    ghost function State(): World
      reads this, machine
    {
      World(machine.Fields(), store, generation, connection, reader, retry, proof, tasks, log)
    }

    method OpenConnection()
      modifies this
      ensures State() == Opening(old(State()))
    {
      tasks := LetGo(tasks, connection, reader);
      connection := None;
      generation := generation + 1;
      var mine := generation;
      tasks := Spawned(tasks, mine);
      reader := Some(mine);
      log := ForNewConnection(log);
    }

    method ScheduleRetryAfter(delay: Duration)
      modifies this
      ensures State() == Performed(old(State()), ScheduleRetry(delay))
    {
      var timer := tasks.nextTimer;
      tasks := Armed(tasks, retry, RetryTimer(delay));
      retry := Some(timer);
    }

    method Perform(action: Action)
      modifies this
      ensures State() == Performed(old(State()), action)
    {
      match action {
        case Connect => OpenConnection();
        case CloseConnection =>
          generation := generation + 1;
          tasks := LetGo(tasks, connection, reader);
          connection := None;
          reader := None;
        case ScheduleRetry(delay) => ScheduleRetryAfter(delay);
        case CancelRetry =>
          tasks := Disarmed(tasks, retry);
          retry := None;
        case Send(command) =>
          if connection.Some? {
            log := log.(said := log.said + [command]);
          }
        case Publish(view, diff) =>
          log := log.(shown := log.shown + [view], diffs := log.diffs + [diff]);
        case PublishSample(_) =>
        case ScheduleAuthTimeout(delay) =>
          var timer := tasks.nextTimer;
          tasks := Armed(tasks, proof, ProofTimer(generation, delay));
          proof := Some(timer);
        case CancelAuthTimeout =>
          tasks := Disarmed(tasks, proof);
          proof := None;
        case Pin(key) => store := Some(key);
      }
    }

    method Dispatch(e: Event, nonce: Bytes)
      modifies this, machine
      ensures State() == Dispatched(machine.cfg, old(State()), e, nonce)
    {
      ghost var before := machine.Fields();
      var actions := machine.Handle(e, nonce);
      log := Noted(log, before, machine.Fields(), e);
      ghost var done := State();
      for i := 0 to |actions|
        invariant PerformedAll(State(), actions[i..]) == PerformedAll(done, actions)
      {
        assert actions[i..][1..] == actions[i + 1..];
        Perform(actions[i]);
      }
    }

    method ForgetPinnedKey(nonce: Bytes)
      modifies this, machine
      ensures State() == Dispatched(machine.cfg, Forgotten(old(State())), UserAskedToRetry, nonce)
    {
      store := None;
      machine.ForgetPinnedKey();
      Dispatch(UserAskedToRetry, nonce);
    }

    /** A reader task resumes from asking for a connection. */
    method ReturnFromDial(g: nat, outcome: Outcome, nonce: Bytes)
      modifies this, machine
      ensures State() == DialReturned(machine.cfg, old(State()), g, outcome, nonce)
    {
      if outcome.CancelledError? {
        Finish(g);
        return;
      }
      if g != generation {
        if outcome.Arrived? {
          tasks := tasks.(fetched := tasks.fetched + {g}, closed := tasks.closed + {g});
        }
        Finish(g);
        return;
      }
      match outcome {
        case Arrived =>
          connection := Some(g);
          tasks := tasks.(fetched := tasks.fetched + {g}, readers := tasks.readers[g := Reading(Framing.FRESH)]);
        case CouldNotConnect(code) =>
          Dispatch(ConnectFailed(code), nonce);
          Finish(g);
        case FoundNotRoot(uid, found) =>
          Dispatch(PublisherNotRoot(uid, found), nonce);
          Finish(g);
        case OtherError =>
          Dispatch(StreamFailed, nonce);
          Finish(g);
      }
    }

    /** A reader task's stream is over, one way or another. */
    method EndStream(g: nat, how: StreamEnd, nonce: Bytes)
      modifies this, machine
      ensures State() == StreamEnded(machine.cfg, old(State()), g, how, nonce)
    {
      if how != StreamCancelled && g == generation {
        Dispatch(if how == Clean then EndOfStream else StreamFailed, nonce);
      }
      Finish(g);
    }

    method Finish(g: nat)
      modifies this
      ensures State() == Ends(old(State()), g)
    {
      tasks := tasks.(readers := tasks.readers - {g});
    }

    /** A reader task resumes with one more chunk; its framer is its own and dies with it. */
    method ReadChunk(g: nat, framer: Framing.LineFramer, chunk: Bytes, nonce: Bytes)
      requires g in tasks.readers && tasks.readers[g] == Reading(framer.State())
      requires machine.cfg == setup.link && framer.limit == setup.limit
      modifies this, machine, framer
      ensures State() == ChunkArrived(setup, old(State()), g, chunk, nonce)
    {
      if g != generation {
        tasks := tasks.(readers := tasks.readers - {g});
        return;
      }
      var lines := framer.Push(chunk);
      tasks := tasks.(readers := tasks.readers[g := Reading(Framing.Framer(framer.buffer, framer.resyncing))]);
      DispatchLines(lines, nonce);
    }

    method DispatchLines(lines: seq<Bytes>, nonce: Bytes)
      modifies this, machine
      ensures State() == DispatchedAll(machine.cfg, old(State()), Decoded(setup.decode, lines), nonce)
    {
      for i := 0 to |lines|
        invariant DispatchedAll(machine.cfg, State(), Decoded(setup.decode, lines[i..]), nonce)
               == DispatchedAll(machine.cfg, old(State()), Decoded(setup.decode, lines), nonce)
      {
        var message := setup.decode(lines[i]);
        DecodedHead(setup.decode, lines, i);
        if message.Some? {
          Dispatch(Received(message.value), nonce);
        }
      }
    }
  }

  lemma DecodedHead(decode: Bytes -> Option<Message>, lines: seq<Bytes>, i: nat)
    requires i < |lines|
    ensures var rest := Decoded(decode, lines[i + 1..]);
      var all := Decoded(decode, lines[i..]);
      match decode(lines[i])
      case None => all == rest
      case Some(message) => all != [] && all[0] == message && all[1..] == rest
  {
    assert lines[i..][1..] == lines[i + 1..];
  }
}
