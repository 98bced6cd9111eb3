/** The connection's state machine (macos Link/LinkMachine.swift): events in, actions out. */
module Link {
  import opened Prelude
  import opened Names
  import opened Diffs
  import opened Reconnect
  import Proof

  datatype Sample = Sample(tunnel: Name, at: real, rx: int, tx: int)

  datatype Ping = Ping(tunnel: Name, rtt: Option<real>, error: Option<string>)

  /** Everything the publisher can say. */
  datatype Message =
    | Hello(schema: int, version: Bytes, publicKey: Option<string>)
    | Auth(nonce: string, signature: string)
    | State(view: Snapshot)
    | Sampled(sample: Sample)
    | Pings(round: seq<Ping>)
    | Bye

  datatype Command =
    | Refresh
    | Watch(tunnel: Name)
    | Unwatch(tunnel: Name)
    | AskPing(target: Option<Name>)
    | Challenge(nonce: Bytes)

  datatype Event =
    | Start
    | Stop
    | ConnectFailed(code: int)
    | PublisherNotRoot(uid: Option<nat>, found: Found)
    | Received(message: Message)
    | EndOfStream
    | StreamFailed
    | RetryTimerFired
    | UserAskedToRetry
    | SystemDidWake
    | MenuWillOpen
    | WatchTunnel(tunnel: Name)
    | WatchNothing
    | AskForPing(target: Option<Name>)
    | AuthTimedOut

  datatype Action =
    | Connect
    | CloseConnection
    | ScheduleRetry(delay: Duration)
    | CancelRetry
    | Send(command: Command)
    | Publish(view: Snapshot, diff: Diff)
    | PublishSample(sample: Sample)
    | ScheduleAuthTimeout(delay: Duration)
    | CancelAuthTimeout
    | Pin(key: string)

  datatype LinkState =
    | Idle
    | Connecting
    | Proving
    | Live(sawState: bool)
    | Retrying(because: Disconnection)
    | Blocked(theirSchema: int)
    | Unproven(pinned: Option<string>, offered: Option<string>)

  /** The socket this client dialled, and the libraries it calls. */
  datatype Config = Config(lib: Proof.Library, socketPath: Bytes)

  /** The machine's fields. */
  datatype Machine = Machine(
    state: LinkState,
    snapshot: Option<Snapshot>,
    publisherVersion: Option<Bytes>,
    publisherKey: Option<string>,
    attempt: nat,
    watching: set<Name>,
    pings: map<Name, Ping>,
    pinnedKey: Option<string>,
    challenge: Option<Bytes>,
    pending: Option<Snapshot>)

  const PROOF_DEADLINE: Duration := 2_000

  const ENOENT := 2
  const EPERM := 1
  const EACCES := 13
  const ECONNREFUSED := 61

  function ReasonFor(code: int): Disconnection {
    if code == ENOENT then NotRunning
    else if code == ECONNREFUSED then Refused
    else if code == EACCES || code == EPERM then NotPermitted
    else Failed(code)
  }

  function Fresh(pinnedKey: Option<string>): Machine {
    Machine(Idle, None, None, None, 0, {}, map[], pinnedKey, None, None)
  }

  function Watches(names: seq<Name>): seq<Action> {
    seq(|names|, i requires 0 <= i < |names| => Send(Watch(names[i])))
  }

  function Unwatches(names: seq<Name>): seq<Action> {
    seq(|names|, i requires 0 <= i < |names| => Send(Unwatch(names[i])))
  }

  function Merged(pings: map<Name, Ping>, round: seq<Ping>): map<Name, Ping> {
    if round == [] then pings
    else Merged(pings, round[..|round| - 1])[round[|round| - 1].tunnel := round[|round| - 1]]
  }

  // ---------------------------------------------------------------- the transition function

  ghost function Retried(m: Machine, reason: Disconnection): (Machine, seq<Action>) {
    (m.(state := Retrying(reason)), [ScheduleRetry(Delay(reason, m.attempt))])
  }

  /** Whether an answer proves the publisher: under the pinned key where there is one, else the one offered. */
  predicate Proves(
      cfg: Config, challenge: Option<Bytes>, offered: Option<string>, pinned: Option<string>,
      version: Option<Bytes>, answered: string, signature: string)
  {
    && challenge.Some? && offered.Some?
    && cfg.lib.swiftDecode(answered) == challenge
    && Proof.Holds(cfg.lib, if pinned.Some? then pinned.value else offered.value, signature, challenge.value,
         Proof.SCHEMA, if version.Some? then version.value else [], cfg.socketPath)
  }

  ghost function Shown(m: Machine, view: Snapshot): (Machine, seq<Action>) {
    (m.(snapshot := Some(view), state := Live(true), pings := map n | n in m.pings && n in NamesOf(view) :: m.pings[n]),
     [Publish(view, DiffOf(m.snapshot, view))])
  }

  /** The machine once the publisher has proved itself: trust on first use where nothing was pinned. */
  ghost function Trusted(m: Machine, offered: string): Machine {
    m.(pinnedKey := if m.pinnedKey == None then Some(offered) else m.pinnedKey, challenge := None, state := Live(false))
  }

  ghost function Welcome(m: Machine, offered: string): seq<Action> {
    [CancelAuthTimeout] + (if m.pinnedKey == None then [Pin(offered)] else []) + Watches(Sorted(m.watching))
  }

  ghost function Settled(cfg: Config, m: Machine, answered: string, signature: string): (Machine, seq<Action>) {
    if !Proves(cfg, m.challenge, m.publisherKey, m.pinnedKey, m.publisherVersion, answered, signature) then
      (m.(state := Unproven(m.pinnedKey, m.publisherKey)), [CloseConnection, CancelAuthTimeout])
    else
      var offered := m.publisherKey.value;
      match m.pending
      case None => (Trusted(m, offered), Welcome(m, offered))
      case Some(view) =>
        var (shown, published) := Shown(Trusted(m, offered).(pending := None), view);
        (shown, Welcome(m, offered) + published)
  }

  ghost function Greeted(m: Machine, schema: int, version: Bytes, key: Option<string>, nonce: Bytes): (Machine,
      seq<Action>) {
    var told := m.(publisherVersion := Some(version), publisherKey := key);
    if schema != Proof.SCHEMA then
      (told.(state := Blocked(schema)), [CloseConnection])
    else if key == None then
      (told.(state := Unproven(m.pinnedKey, None)), [CloseConnection])
    else
      (told.(attempt := 0, state := Proving, challenge := Some(nonce)),
       [Send(Challenge(nonce)), ScheduleAuthTimeout(PROOF_DEADLINE)])
  }

  /** A message from the publisher; `nonce` is what the nonce source gives when it is asked. */
  ghost function Heard(cfg: Config, m: Machine, message: Message, nonce: Bytes): (Machine, seq<Action>) {
    match m.state
    case Connecting =>
      if message.Hello? then Greeted(m, message.schema, message.version, message.publicKey, nonce) else (m, [])
    case Proving =>
      (match message
       case Auth(answered, signature) => Settled(cfg, m, answered, signature)
       case State(view) => (m.(pending := Some(view)), [])
       case _ => (m, []))
    case Live(_) =>
      (match message
       case State(view) => Shown(m, view)
       case Pings(round) => (m.(pings := Merged(m.pings, round)), [])
       case Bye =>
         var (gone, scheduled) := Retried(m, Goodbye);
         (gone, [CloseConnection] + scheduled)
       case Sampled(sample) => (m, if sample.tunnel in m.watching then [PublishSample(sample)] else [])
       case _ => (m, []))
    case _ => (m, [])
  }

  /** Asking to connect now, by a person or by something that suggests it is worth trying. */
  ghost function TriedAgain(m: Machine, e: Event): (Machine, seq<Action>) {
    if m.state.Retrying? then
      (m.(attempt := m.attempt + 1, state := Connecting), [CancelRetry, Connect])
    else if (m.state.Blocked? || m.state.Unproven?) && e == UserAskedToRetry then
      (m.(attempt := 0, state := Connecting), [Connect])
    else if m.state.Live? && e == MenuWillOpen then
      (m, [Send(Refresh)])
    else (m, [])
  }

  ghost function Ended(m: Machine): (Machine, seq<Action>) {
    match m.state
    case Connecting | Proving => Retried(m, Rejected)
    case Live(_) => Retried(m, Lost)
    case _ => (m, [])
  }

  /** The machine after an event, and what it asks the world to do. */
  ghost function Handled(cfg: Config, m: Machine, e: Event, nonce: Bytes): (Machine, seq<Action>) {
    match e
    case Stop => (m.(state := Idle), [CancelRetry, CloseConnection])
    case Start => if m.state == Idle then (m.(state := Connecting), [Connect]) else (m, [])
    case ConnectFailed(code) => if m.state == Connecting then Retried(m, ReasonFor(code)) else (m, [])
    case PublisherNotRoot(uid, found) => if m.state == Connecting then Retried(m, NotRoot(uid, found)) else (m, [])
    case Received(message) => Heard(cfg, m, message, nonce)
    case EndOfStream | StreamFailed => Ended(m)
    case AuthTimedOut =>
      if m.state == Proving then (m.(state := Unproven(m.pinnedKey, m.publisherKey)), [CloseConnection]) else (m, [])
    case AskForPing(target) => (m, if m.state.Live? then [Send(AskPing(target))] else [])
    case WatchTunnel(tunnel) =>
      if tunnel in m.watching then (m, [])
      else (m.(watching := m.watching + {tunnel}), if m.state.Live? then [Send(Watch(tunnel))] else [])
    case WatchNothing =>
      (m.(watching := {}), if m.state.Live? then Unwatches(Sorted(m.watching)) else [])
    case RetryTimerFired | UserAskedToRetry | SystemDidWake | MenuWillOpen => TriedAgain(m, e)
  }

  // ---------------------------------------------------------------- the machine itself

  class LinkMachine {
    const cfg: Config
    var state: LinkState
    var snapshot: Option<Snapshot>
    var publisherVersion: Option<Bytes>
    var publisherKey: Option<string>
    var attempt: nat
    var watching: set<Name>
    var pings: map<Name, Ping>
    var pinnedKey: Option<string>
    var challenge: Option<Bytes>
    var pending: Option<Snapshot>

    constructor (cfg: Config, pinnedKey: Option<string>)
      ensures this.cfg == cfg && Fields() == Fresh(pinnedKey)
    {
      this.cfg := cfg;
      state, snapshot, publisherVersion, publisherKey := Idle, None, None, None;
      attempt, watching, pings := 0, {}, map[];
      this.pinnedKey, challenge, pending := pinnedKey, None, None;
    }

    ghost function Fields(): Machine
      reads this
    {
      Machine(state, snapshot, publisherVersion, publisherKey, attempt, watching, pings, pinnedKey, challenge, pending)
    }

    method ForgetPinnedKey()
      modifies this
      ensures Fields() == old(Fields()).(pinnedKey := None)
    {
      pinnedKey := None;
    }

    method Retry(reason: Disconnection) returns (actions: seq<Action>)
      modifies this
      ensures var (m, asked) := Retried(old(Fields()), reason); Fields() == m && actions == asked
    {
      state := Retrying(reason);
      actions := [ScheduleRetry(Delay(reason, attempt))];
    }

    method Settle(answered: string, signature: string, nonce: Bytes) returns (actions: seq<Action>)
      requires state == Proving
      modifies this
      ensures var (m, asked) := Settled(cfg, old(Fields()), answered, signature); Fields() == m && actions == asked
      decreases 1
    {
      if !Proves(cfg, challenge, publisherKey, pinnedKey, publisherVersion, answered, signature) {
        state := Unproven(pinnedKey, publisherKey);
        return [CloseConnection, CancelAuthTimeout];
      }
      actions := Trust(publisherKey.value);
      if pending.Some? {
        var view := pending.value;
        pending := None;
        assert Handled(cfg, Fields(), Received(State(view)), nonce) == Shown(Fields(), view);
        var more := Handle(Received(State(view)), nonce);
        actions := actions + more;
      }
    }

    method Trust(offered: string) returns (actions: seq<Action>)
      modifies this
      ensures Fields() == Trusted(old(Fields()), offered) && actions == Welcome(old(Fields()), offered)
    {
      actions := [CancelAuthTimeout];
      if pinnedKey == None {
        pinnedKey := Some(offered);
        actions := actions + [Pin(offered)];
      }
      challenge := None;
      state := Live(false);
      var names := Sort(watching);
      actions := actions + Watches(names);
      assert [CancelAuthTimeout] + [] == [CancelAuthTimeout];
    }

    method Handle(e: Event, nonce: Bytes) returns (actions: seq<Action>)
      modifies this
      ensures var (m, asked) := Handled(cfg, old(Fields()), e, nonce); Fields() == m && actions == asked
      decreases if e.Received? && e.message.Auth? then 2 else 0
    {
      actions := [];
      match e {
        case Stop =>
          state := Idle;
          actions := [CancelRetry, CloseConnection];
        case Start =>
          if state == Idle {
            state := Connecting;
            actions := [Connect];
          }
        case ConnectFailed(code) =>
          if state == Connecting {
            actions := Retry(ReasonFor(code));
          }
        case PublisherNotRoot(uid, found) =>
          if state == Connecting {
            actions := Retry(NotRoot(uid, found));
          }
        case Received(message) =>
          if message.Auth? {
            if state == Proving {
              actions := Settle(message.nonce, message.signature, nonce);
            }
          } else {
            actions := HandleMessage(message, nonce);
          }
        case EndOfStream | StreamFailed =>
          if state == Connecting || state == Proving {
            actions := Retry(Rejected);
          } else if state.Live? {
            actions := Retry(Lost);
          }
        case AuthTimedOut =>
          if state == Proving {
            state := Unproven(pinnedKey, publisherKey);
            actions := [CloseConnection];
          }
        case AskForPing(target) =>
          if state.Live? {
            actions := [Send(AskPing(target))];
          }
        case WatchTunnel(tunnel) =>
          if tunnel !in watching {
            watching := watching + {tunnel};
            if state.Live? {
              actions := [Send(Watch(tunnel))];
            }
          }
        case WatchNothing =>
          var released := Sort(watching);
          assert watching == {} ==> Unwatches(Sorted(watching)) == [];
          if watching != {} {
            watching := {};
            if state.Live? {
              actions := Unwatches(released);
            }
          }
        case RetryTimerFired | UserAskedToRetry | SystemDidWake | MenuWillOpen =>
          actions := TryAgain(e);
      }
    }

    method TryAgain(e: Event) returns (actions: seq<Action>)
      modifies this
      ensures var (m, asked) := TriedAgain(old(Fields()), e); Fields() == m && actions == asked
    {
      actions := [];
      if state.Retrying? {
        attempt := attempt + 1;
        state := Connecting;
        actions := [CancelRetry, Connect];
      } else if (state.Blocked? || state.Unproven?) && e == UserAskedToRetry {
        attempt := 0;
        state := Connecting;
        actions := [Connect];
      } else if state.Live? && e == MenuWillOpen {
        actions := [Send(Refresh)];
      }
    }

    method Greet(schema: int, version: Bytes, key: Option<string>, nonce: Bytes) returns (actions: seq<Action>)
      modifies this
      ensures var (m, asked) := Greeted(old(Fields()), schema, version, key, nonce); Fields() == m && actions == asked
    {
      publisherVersion := Some(version);
      publisherKey := key;
      if schema != Proof.SCHEMA {
        state := Blocked(schema);
        return [CloseConnection];
      }
      if key == None {
        state := Unproven(pinnedKey, None);
        return [CloseConnection];
      }
      attempt := 0;
      state := Proving;
      challenge := Some(nonce);
      actions := [Send(Challenge(nonce)), ScheduleAuthTimeout(PROOF_DEADLINE)];
    }

    /** A round covering one tunnel must not blank out the others. */
    method Merge(round: seq<Ping>)
      modifies this
      ensures Fields() == old(Fields()).(pings := Merged(old(pings), round))
    {
      for i := 0 to |round|
        invariant Fields() == old(Fields()).(pings := Merged(old(pings), round[..i]))
      {
        assert round[..i + 1][..i] == round[..i];
        pings := pings[round[i].tunnel := round[i]];
      }
      assert round[..|round|] == round;
    }

    /** The messages other than an answer to the challenge. */
    method HandleMessage(message: Message, nonce: Bytes) returns (actions: seq<Action>)
      requires !message.Auth?
      modifies this
      ensures var (m, asked) := Heard(cfg, old(Fields()), message, nonce); Fields() == m && actions == asked
      decreases 0, 0
    {
      actions := [];
      match (state, message) {
        case (Connecting, Hello(schema, version, key)) =>
          actions := Greet(schema, version, key, nonce);
        case (Proving, State(view)) =>
          pending := Some(view);
        case (Live(_), State(view)) =>
          var diff := Between(snapshot, view);
          DiffIsUnique(snapshot, view, diff, DiffOf(snapshot, view));
          snapshot := Some(view);
          state := Live(true);
          pings := map n | n in pings && n in NamesOf(view) :: pings[n];
          actions := [Publish(view, diff)];
        case (Live(_), Pings(round)) =>
          Merge(round);
        case (Live(_), Bye) =>
          var scheduled := Retry(Goodbye);
          actions := [CloseConnection] + scheduled;
        case (Live(_), Sampled(sample)) =>
          if sample.tunnel in watching {
            actions := [PublishSample(sample)];
          }
        case _ =>
      }
    }
  }
}
