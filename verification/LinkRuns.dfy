/** Runs of the supervisor in which what its comments promise does not happen. */
module LinkRuns {
  import opened Prelude
  import opened Names
  import opened Diffs
  import opened Reconnect
  import opened Link
  import opened Supervisor
  import opened LinkSafety
  import Framing = LineFraming
  import Proof

  // ---------------------------------------------------------------- building a run

  /** A run that has come to a world. */
  datatype Run = Run(worlds: seq<World>, steps: seq<Taken>)

  function Last(run: Run): World
    requires run.worlds != []
  {
    run.worlds[|run.worlds| - 1]
  }

  ghost predicate Goes(setup: Setup, store: Option<string>, run: Run) {
    IsRun(setup, store, run.worlds, run.steps)
  }

  lemma Begins(setup: Setup, store: Option<string>) returns (run: Run)
    ensures Goes(setup, store, run) && Last(run) == Asleep(store)
  {
    run := Run([Asleep(store)], []);
  }

  lemma GoesOn(setup: Setup, store: Option<string>, run: Run, step: Step, nonce: Bytes) returns (longer: Run)
    requires Goes(setup, store, run) && Enabled(Last(run), step)
    ensures Goes(setup, store, longer) && Last(longer) == Next(setup, Last(run), step, nonce)
    ensures run.worlds <= longer.worlds && run.steps <= longer.steps
  {
    longer := Run(run.worlds + [Next(setup, Last(run), step, nonce)], run.steps + [Taken(step, nonce)]);
  }

  // ---------------------------------------------------------------- where a run has come to

  /** The link waits for the connection of this generation, with this machine. */
  predicate DialledBy(w: World, m: Machine, g: nat) {
    && w.machine == m && w.generation == g && g in w.tasks.readers && w.tasks.readers[g] == Dialling
    && w.log.heard == [] && w.log.shown == []
  }

  /** It reads from the connection of this generation, having heard these messages and shown nothing. */
  predicate ReadBy(w: World, m: Machine, g: nat, heard: seq<Message>) {
    && w.machine == m && w.generation == g && w.connection == Some(g)
    && g in w.tasks.readers && w.tasks.readers[g] == Reading(Framing.FRESH)
    && w.log.heard == heard && w.log.shown == []
  }

  predicate WaitingToRetry(w: World, m: Machine) {
    w.machine == m && w.retry.Some? && w.retry.value in w.tasks.timers && w.tasks.timers[w.retry.value].RetryTimer?
  }

  lemma Starts(setup: Setup, nonce: Bytes)
    ensures Enabled(Asleep(None), UserActs(Start))
    ensures DialledBy(Next(setup, Asleep(None), UserActs(Start), nonce), Fresh(None).(state := Connecting), 1)
  {
    var m := Fresh(None).(state := Connecting);
    PerformedOne(Moved(Asleep(None), m, Start), Connect);
  }

  lemma Arrives(setup: Setup, w: World, m: Machine, g: nat, nonce: Bytes)
    requires DialledBy(w, m, g)
    ensures Enabled(w, DialReturns(g, Arrived))
    ensures ReadBy(Next(setup, w, DialReturns(g, Arrived), nonce), m, g, [])
  {
  }

  /** A dial that fails leaves the link waiting to retry. */
  lemma FailsToDial(setup: Setup, w: World, m: Machine, g: nat, code: int, nonce: Bytes)
    requires DialledBy(w, m, g) && m.state == Connecting
    ensures Enabled(w, DialReturns(g, CouldNotConnect(code)))
    ensures WaitingToRetry(Next(setup, w, DialReturns(g, CouldNotConnect(code)), nonce),
      m.(state := Retrying(ReasonFor(code))))
  {
    var e := ConnectFailed(code);
    PerformedOne(Moved(w, m.(state := Retrying(ReasonFor(code))), e), ScheduleRetry(Delay(ReasonFor(code), m.attempt)));
  }

  lemma Retries(setup: Setup, w: World, m: Machine, nonce: Bytes) returns (step: Step)
    requires WaitingToRetry(w, m) && m.state.Retrying?
    ensures Enabled(w, step)
    ensures DialledBy(Next(setup, w, step, nonce), m.(attempt := m.attempt + 1, state := Connecting), w.generation + 1)
  {
    step := TimerFires(w.retry.value);
    var after := m.(attempt := m.attempt + 1, state := Connecting);
    PerformedTwo(Moved(TimerGone(w, w.retry.value), after, RetryTimerFired), CancelRetry, Connect);
  }

  /** Saying things and arming timers leaves the connection and its reader alone. */
  predicate KeepsReading(a: Action) {
    a.Send? || a.ScheduleAuthTimeout? || a.CancelAuthTimeout? || a.Pin?
  }

  lemma {:induction false} KeptReading(w: World, actions: seq<Action>)
    requires forall a :: a in actions ==> KeepsReading(a)
    ensures var v := PerformedAll(w, actions);
      && v.machine == w.machine && v.generation == w.generation && v.connection == w.connection
      && v.tasks.readers == w.tasks.readers && v.log.heard == w.log.heard && v.log.shown == w.log.shown
    decreases |actions|
  {
    if actions != [] {
      assert KeepsReading(actions[0]);
      KeptReading(Performed(w, actions[0]), actions[1..]);
    }
  }

  /** A line of its own chunk is framed whole, with nothing left over. */
  lemma OneLine(limit: int, line: Bytes)
    requires line != [] && Framing.NEWLINE !in line && limit >= 0
    ensures Framing.Pushed(Framing.FRESH, limit, line + [Framing.NEWLINE]) == (Framing.FRESH, [line])
  {
    var all := line + [Framing.NEWLINE];
    assert Framing.Joined([line], []) == all;
    Framing.SplitIsUnique([line], []);
    assert [] + all == all;
    assert Framing.NonEmpty([]) == [];
    assert Framing.NonEmpty([line]) == [line];
  }

  lemma OneMessage(setup: Setup, w: World, line: Bytes, message: Message, nonce: Bytes)
    requires setup.decode(line) == Some(message)
    ensures Decoded(setup.decode, [line]) == [message]
    ensures DispatchedAll(setup.link, w, [message], nonce) == Dispatched(setup.link, w, Received(message), nonce)
  {
    assert [line][1..] == [];
    assert [message][1..] == [];
  }

  /** A line that can be framed and decodes to a message. */
  predicate Says(setup: Setup, line: Bytes, message: Message) {
    line != [] && Framing.NEWLINE !in line && setup.decode(line) == Some(message)
  }

  function Line(line: Bytes): Bytes {
    line + [Framing.NEWLINE]
  }

  /** A message arrives on a chunk of its own. */
  lemma Dispatches(setup: Setup, w: World, m: Machine, g: nat, heard: seq<Message>, line: Bytes, message: Message,
      nonce: Bytes)
    requires ReadBy(w, m, g, heard) && Says(setup, line, message) && setup.limit >= 0
    ensures Enabled(w, ChunkArrives(g, Line(line)))
    ensures Next(setup, w, ChunkArrives(g, Line(line)), nonce)
         == Dispatched(setup.link, Framed(w, g, Framing.FRESH), Received(message), nonce)
  {
    OneLine(setup.limit, line);
    OneMessage(setup, Framed(w, g, Framing.FRESH), line, message, nonce);
  }

  lemma Hears(setup: Setup, w: World, m: Machine, g: nat, heard: seq<Message>, line: Bytes, message: Message,
      nonce: Bytes)
    requires ReadBy(w, m, g, heard) && Says(setup, line, message) && setup.limit >= 0
    requires forall a :: a in Handled(setup.link, m, Received(message), nonce).1 ==> KeepsReading(a)
    ensures Enabled(w, ChunkArrives(g, Line(line)))
    ensures ReadBy(Next(setup, w, ChunkArrives(g, Line(line)), nonce),
              Handled(setup.link, m, Received(message), nonce).0, g, heard + [message])
  {
    Dispatches(setup, w, m, g, heard, line, message, nonce);
    var (after, actions) := Handled(setup.link, m, Received(message), nonce);
    KeptReading(Moved(Framed(w, g, Framing.FRESH), after, Received(message)), actions);
  }

  // ---------------------------------------------------------------- a view from another connection

  function Proving1(version: Bytes, key: string, nonce: Bytes): Machine {
    Fresh(None).(state := Proving, publisherVersion := Some(version), publisherKey := Some(key),
      challenge := Some(nonce))
  }

  /** Greeted once, told a view, and dropped while proving. */
  lemma LosesItWhileProving(setup: Setup, view: Snapshot, version: Bytes, key: string, nonce: Bytes, hello: Bytes,
      state: Bytes)
      returns (run: Run)
    requires setup.limit >= 0 && Says(setup, hello, Hello(Proof.SCHEMA, version, Some(key)))
      && Says(setup, state, State(view))
    ensures Goes(setup, None, run)
    ensures WaitingToRetry(Last(run),
      Proving1(version, key, nonce).(pending := Some(view), state := Retrying(Rejected)))
  {
    var m := Fresh(None).(state := Connecting);
    var greeting := Hello(Proof.SCHEMA, version, Some(key));
    run := Begins(setup, None);
    Starts(setup, nonce);
    run := GoesOn(setup, None, run, UserActs(Start), nonce);
    Arrives(setup, Last(run), m, 1, nonce);
    run := GoesOn(setup, None, run, DialReturns(1, Arrived), nonce);
    Hears(setup, Last(run), m, 1, [], hello, greeting, nonce);
    run := GoesOn(setup, None, run, ChunkArrives(1, Line(hello)), nonce);
    m := Proving1(version, key, nonce);
    Hears(setup, Last(run), m, 1, [] + [greeting], state, State(view), nonce);
    run := GoesOn(setup, None, run, ChunkArrives(1, Line(state)), nonce);
    m := m.(pending := Some(view));
    EndsWhileProving(setup, Last(run), m, 1, [] + [greeting] + [State(view)], nonce);
    run := GoesOn(setup, None, run, StreamEnds(1, Clean), nonce);
  }

  lemma EndsWhileProving(setup: Setup, w: World, m: Machine, g: nat, heard: seq<Message>, nonce: Bytes)
    requires ReadBy(w, m, g, heard) && m.state == Proving
    ensures Enabled(w, StreamEnds(g, Clean))
    ensures WaitingToRetry(Next(setup, w, StreamEnds(g, Clean), nonce), m.(state := Retrying(Rejected)))
  {
    PerformedOne(Moved(w, m.(state := Retrying(Rejected)), EndOfStream), ScheduleRetry(Delay(Rejected, m.attempt)));
  }

  /** What trusting with a view held asks for: nothing that touches the connection, and then showing the view. */
  lemma TrustingShowsWhatWasHeld(setup: Setup, w: World, m: Machine, g: nat, heard: seq<Message>, line: Bytes,
      answered: string, signature: string, view: Snapshot, nonce: Bytes)
    requires ReadBy(w, m, g, heard) && Says(setup, line, Auth(answered, signature)) && setup.limit >= 0
    requires m.state == Proving && m.pending == Some(view)
    requires Proves(setup.link, m.challenge, m.publisherKey, m.pinnedKey, m.publisherVersion, answered, signature)
    ensures Enabled(w, ChunkArrives(g, Line(line)))
    ensures var v := Next(setup, w, ChunkArrives(g, Line(line)), nonce);
      v.machine.state.Live? && v.log.heard == heard + [Auth(answered, signature)] && v.log.shown == [view]
  {
    var message := Auth(answered, signature);
    Dispatches(setup, w, m, g, heard, line, message, nonce);
    var offered := m.publisherKey.value;
    var (after, actions) := Handled(setup.link, m, Received(message), nonce);
    var trusted := Trusted(m, offered).(pending := None);
    var published := Shown(trusted, view).1;
    var start := Moved(Framed(w, g, Framing.FRESH), after, Received(message));
    assert actions == Welcome(m, offered) + published;
    KeptReading(start, Welcome(m, offered));
    PerformedConcat(start, Welcome(m, offered), published);
    PerformedOne(PerformedAll(start, Welcome(m, offered)), published[0]);
    assert published == [published[0]];
    assert [] + [view] == [view];
  }

  /** The machine greeted again, with what it held from before. */
  function Proving2(view: Snapshot, version: Bytes, key: string, nonce: Bytes): Machine {
    Proving1(version, key, nonce).(pending := Some(view))
  }

  /** The next connection arrives and greets. */
  lemma GreetedAgain(setup: Setup, before: Run, view: Snapshot, version: Bytes, key: string, first: Bytes,
      second: Bytes, hello: Bytes) returns (run: Run, g: nat)
    requires setup.limit >= 0 && Says(setup, hello, Hello(Proof.SCHEMA, version, Some(key)))
    requires Goes(setup, None, before)
    requires WaitingToRetry(Last(before), Proving2(view, version, key, first).(state := Retrying(Rejected)))
    ensures Goes(setup, None, run)
    ensures ReadBy(Last(run), Proving2(view, version, key, second), g, [Hello(Proof.SCHEMA, version, Some(key))])
  {
    var greeting := Hello(Proof.SCHEMA, version, Some(key));
    var m := Proving2(view, version, key, first).(state := Retrying(Rejected));
    var step := Retries(setup, Last(before), m, second);
    g := Last(before).generation + 1;
    run := GoesOn(setup, None, before, step, second);
    m := m.(attempt := 1, state := Connecting);
    Arrives(setup, Last(run), m, g, second);
    run := GoesOn(setup, None, run, DialReturns(g, Arrived), second);
    Hears(setup, Last(run), m, g, [], hello, greeting, second);
    run := GoesOn(setup, None, run, ChunkArrives(g, Line(hello)), second);
    assert [] + [greeting] == [greeting];
  }

  /**
   A run in which a view held when one connection was lost while proving is shown by the next one, which
   never sent it: the answer to the second question is all the second connection needs.
   */
  lemma AHeldViewCanOutliveItsConnection(setup: Setup, view: Snapshot, version: Bytes, key: string, first: Bytes,
      second: Bytes, hello: Bytes, state: Bytes, auth: Bytes, answered: string, signature: string) returns (run: Run)
    requires setup.limit >= 0 && Says(setup, hello, Hello(Proof.SCHEMA, version, Some(key)))
    requires Says(setup, state, State(view)) && Says(setup, auth, Auth(answered, signature))
    requires Proves(setup.link, Some(second), Some(key), None, Some(version), answered, signature)
    ensures Goes(setup, None, run)
    ensures Last(run).machine.state.Live?
    ensures view in Last(run).log.shown && State(view) !in Last(run).log.heard
  {
    var g: nat;
    run := LosesItWhileProving(setup, view, version, key, first, hello, state);
    run, g := GreetedAgain(setup, run, view, version, key, first, second, hello);
    TrustingShowsWhatWasHeld(setup, Last(run), Proving2(view, version, key, second), g,
      [Hello(Proof.SCHEMA, version, Some(key))], auth, answered, signature, view, second);
    run := GoesOn(setup, None, run, ChunkArrives(g, Line(auth)), second);
  }

  // ---------------------------------------------------------------- attempts

  /** A hello of another schema is refused, and only a person moves the link on. */
  lemma IsBlocked(setup: Setup, w: World, m: Machine, g: nat, line: Bytes, schema: int, version: Bytes,
      key: Option<string>, nonce: Bytes)
    requires ReadBy(w, m, g, []) && m.state == Connecting && setup.limit >= 0
    requires Says(setup, line, Hello(schema, version, key)) && schema != Proof.SCHEMA
    ensures Enabled(w, ChunkArrives(g, Line(line)))
    ensures Next(setup, w, ChunkArrives(g, Line(line)), nonce).machine
         == m.(state := Blocked(schema), publisherVersion := Some(version), publisherKey := key)
  {
    var message := Hello(schema, version, key);
    Dispatches(setup, w, m, g, [], line, message, nonce);
    var after := m.(state := Blocked(schema), publisherVersion := Some(version), publisherKey := key);
    PerformedOne(Moved(Framed(w, g, Framing.FRESH), after, Received(message)), CloseConnection);
  }

  lemma RetriedByHand(setup: Setup, w: World, nonce: Bytes)
    requires w.machine.state.Blocked?
    ensures Enabled(w, UserActs(UserAskedToRetry))
    ensures Next(setup, w, UserActs(UserAskedToRetry), nonce).machine == w.machine.(attempt := 0, state := Connecting)
  {
    PerformedOne(Moved(w, w.machine.(attempt := 0, state := Connecting), UserAskedToRetry), Connect);
  }

  /** A dial fails, and the next one is answered by a publisher of another schema. */
  lemma BlockedOnTheSecondAttempt(setup: Setup, code: int, line: Bytes, schema: int, version: Bytes,
      key: Option<string>, nonce: Bytes)
      returns (run: Run)
    requires setup.limit >= 0 && schema != Proof.SCHEMA && Says(setup, line, Hello(schema, version, key))
    ensures Goes(setup, None, run)
    ensures Last(run).machine.state.Blocked? && Last(run).machine.attempt == 1 && Last(run).machine.challenge == None
  {
    var m := Fresh(None).(state := Connecting);
    run := Begins(setup, None);
    Starts(setup, nonce);
    run := GoesOn(setup, None, run, UserActs(Start), nonce);
    FailsToDial(setup, Last(run), m, 1, code, nonce);
    run := GoesOn(setup, None, run, DialReturns(1, CouldNotConnect(code)), nonce);
    m := m.(state := Retrying(ReasonFor(code)));
    var step := Retries(setup, Last(run), m, nonce);
    var g := Last(run).generation + 1;
    run := GoesOn(setup, None, run, step, nonce);
    m := m.(attempt := 1, state := Connecting);
    Arrives(setup, Last(run), m, g, nonce);
    run := GoesOn(setup, None, run, DialReturns(g, Arrived), nonce);
    IsBlocked(setup, Last(run), m, g, line, schema, version, key, nonce);
    run := GoesOn(setup, None, run, ChunkArrives(g, Line(line)), nonce);
  }

  /**
   A run, and one step more of it, in which the attempts counted start again without any greeting having
   been accepted: the person retries a link that was blocked on its second attempt.
   */
  lemma AttemptsStartAgainUngreeted(setup: Setup, code: int, line: Bytes, schema: int, version: Bytes,
      key: Option<string>, nonce: Bytes)
      returns (blocked: Run, retried: Run)
    requires setup.limit >= 0 && schema != Proof.SCHEMA && Says(setup, line, Hello(schema, version, key))
    ensures Goes(setup, None, blocked) && Goes(setup, None, retried)
    ensures blocked.worlds <= retried.worlds && blocked.steps <= retried.steps
    ensures Last(blocked).machine.attempt == 1 && Last(retried).machine.attempt == 0
      && Last(retried).machine.challenge == None
  {
    blocked := BlockedOnTheSecondAttempt(setup, code, line, schema, version, key, nonce);
    RetriedByHand(setup, Last(blocked), nonce);
    retried := GoesOn(setup, None, blocked, UserActs(UserAskedToRetry), nonce);
  }
}
