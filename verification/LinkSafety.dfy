/** What every step of the supervisor and its machine keeps, over every run. */
module LinkSafety {
  import opened Prelude
  import opened Names
  import opened Diffs
  import opened Reconnect
  import opened Link
  import opened Supervisor
  import Framing = LineFraming
  import Proof

  // ---------------------------------------------------------------- invariants

  /** A connection is being fetched, asked to prove itself, or trusted. */
  predicate Running(m: Machine) {
    m.state.Connecting? || m.state.Proving? || m.state.Live?
  }

  predicate RetryArmed(w: World) {
    w.retry.Some? && w.retry.value in w.tasks.timers && w.tasks.timers[w.retry.value].RetryTimer?
  }

  /** The proof timer armed at this entry to proving. */
  predicate ProofArmed(w: World) {
    && w.proof.Some? && w.proof.value in w.tasks.timers
    && w.tasks.timers[w.proof.value] == ProofTimer(w.generation, PROOF_DEADLINE)
  }

  /** Timers, apart from whether a retry is armed when one is due. */
  ghost predicate TimersKnown(w: World) {
    var t := w.tasks;
    && (forall id :: id in t.timers ==> id < t.nextTimer)
    && (w.retry.Some? ==> w.retry.value < t.nextTimer && w.retry != w.proof)
    && (w.proof.Some? ==> w.proof.value < t.nextTimer)
    && (forall id :: id in t.timers && t.timers[id].RetryTimer? ==>
      w.retry == Some(id) && 250 <= t.timers[id].delay <= CEILING)
    && (forall id :: id in t.timers && t.timers[id].ProofTimer? ==> w.proof == Some(id))
    && (RetryArmed(w) ==> w.machine.state.Retrying?)
  }

  ghost predicate TimersOk(w: World) {
    && TimersKnown(w)
    && (w.machine.state.Retrying? ==> RetryArmed(w))
    && (w.machine.state.Proving? ==> ProofArmed(w))
  }

  /** Reader tasks: those of other generations are cancelled. */
  ghost predicate ReadersKnown(w: World) {
    var t := w.tasks;
    && (forall g :: g in t.readers ==> g <= w.generation)
    && (forall g :: g in t.cancelled ==> g < w.generation)
    && (w.reader.Some? ==> w.reader.value <= w.generation)
    && (w.generation in t.readers ==> w.reader == Some(w.generation))
    && (forall g :: g in t.readers && g != w.generation ==> g in t.cancelled)
  }

  /** The task of this generation reads a connection. */
  predicate Listening(w: World) {
    w.generation in w.tasks.readers && w.tasks.readers[w.generation].Reading?
  }

  /** The task of this generation is there exactly while the link runs, and reads once it has been greeted. */
  ghost predicate ReadersOk(w: World) {
    && ReadersKnown(w)
    && (w.generation in w.tasks.readers <==> Running(w.machine))
    && (w.machine.state.Proving? || w.machine.state.Live? ==> Listening(w))
  }

  /** Every connection ever fetched is the current one or has been closed. */
  ghost predicate ConnectionsOk(w: World) {
    var t := w.tasks;
    && (forall c :: c in t.fetched ==> c <= w.generation)
    && t.closed <= t.fetched
    && (forall c :: c in t.fetched ==> c in t.closed || w.connection == Some(c))
    && (w.connection.Some? ==>
      w.connection.value == w.generation && w.generation in t.fetched && w.generation !in t.closed)
    && (w.generation in t.readers ==> (t.readers[w.generation].Reading? <==> w.connection == Some(w.generation)))
    && (forall g :: g in t.readers && t.readers[g] == Dialling ==> g !in t.fetched)
  }

  /** The names that watching and releasing, in this order, leaves watched. */
  function Replayed(said: seq<Command>): set<Name> {
    if said == [] then {}
    else
      var before := Replayed(said[..|said| - 1]);
      match said[|said| - 1]
      case Watch(n) => before + {n}
      case Unwatch(n) => before - {n}
      case _ => before
  }

  /** A hello of this schema, with a key, has been heard and is what the machine remembers. */
  ghost predicate Announced(m: Machine, heard: seq<Message>) {
    && m.publisherVersion.Some? && m.publisherKey.Some?
    && Hello(Proof.SCHEMA, m.publisherVersion.value, m.publisherKey) in heard
  }

  /** An answer, heard after such a hello, that decodes to the nonce asked here and verifies under the given key. */
  ghost predicate Answered(cfg: Config, m: Machine, heard: seq<Message>, said: seq<Command>, key: string, at: nat)
    requires m.publisherVersion.Some?
  {
    && said != [] && said[0].Challenge?
    && at < |heard| && heard[at].Auth?
    && Announced(m, heard[..at])
    && cfg.lib.swiftDecode(heard[at].nonce) == Some(said[0].nonce)
    && Proof.Holds(cfg.lib, key, heard[at].signature, said[0].nonce, Proof.SCHEMA, m.publisherVersion.value,
      cfg.socketPath)
  }

  /** The key the link was proved under is the one pinned, unless a person had it forgotten since. */
  ghost predicate ProvedUnder(cfg: Config, w: World, key: string, at: nat)
    requires w.machine.publisherVersion.Some?
  {
    && Answered(cfg, w.machine, w.log.heard, w.log.said, key, at)
    && (w.machine.pinnedKey == None || w.machine.pinnedKey == Some(key))
  }

  /** What was said and heard on this connection when the link is in each state. */
  ghost predicate HandshakeOk(cfg: Config, w: World) {
    var m, log := w.machine, w.log;
    && (m.state.Connecting? ==> log.said == [])
    && (m.state.Proving? ==> Announced(m, log.heard) && m.challenge.Some? && log.said == [Challenge(m.challenge.value)])
    && (m.state.Live? ==>
          && Announced(m, log.heard)
          && Replayed(log.said) == m.watching
          && exists key, at :: ProvedUnder(cfg, w, key, at))
  }

  /** The names a run of diffs leaves on show. */
  ghost function Accumulated(diffs: seq<Diff>): set<Name> {
    if diffs == [] then {}
    else
      var last := diffs[|diffs| - 1];
      Accumulated(diffs[..|diffs| - 1]) - Elements(last.disappeared) + Elements(last.appeared)
  }

  /** Every view shown from this connection arrived on it, unless one was carried into proving. */
  ghost predicate ViewsArrivedHere(w: World) {
    var m, log := w.machine, w.log;
    && (m.state.Connecting? ==> log.shown == [])
    && (m.state.Proving? ==> log.shown == [])
    && (m.state.Proving? && !log.carried && m.pending.Some? ==> State(m.pending.value) in log.heard)
    && (m.state.Live? && !log.carried ==> forall view :: view in log.shown ==> State(view) in log.heard)
  }

  /** The key store agrees with the machine, and the diffs published with the view it holds. */
  ghost predicate Agreeing(w: World) {
    && w.store == w.machine.pinnedKey
    && Accumulated(w.log.diffs) == ShownNames(w.machine.snapshot)
  }

  ghost predicate RecordsOk(cfg: Config, w: World) {
    HandshakeOk(cfg, w) && ViewsArrivedHere(w) && Agreeing(w)
  }

  ghost predicate TasksOk(w: World) {
    TimersOk(w) && ReadersOk(w) && ConnectionsOk(w)
  }

  ghost predicate Inv(cfg: Config, w: World) {
    TasksOk(w) && RecordsOk(cfg, w)
  }

  // ---------------------------------------------------------------- performing actions

  lemma PerformedOne(w: World, a: Action)
    ensures PerformedAll(w, [a]) == Performed(w, a)
  {
    assert [a][1..] == [];
  }

  lemma PerformedTwo(w: World, a: Action, b: Action)
    ensures PerformedAll(w, [a, b]) == Performed(Performed(w, a), b)
  {
    assert [a, b][1..] == [b];
    PerformedOne(Performed(w, a), b);
  }

  lemma {:induction false} PerformedConcat(w: World, a: seq<Action>, b: seq<Action>)
    ensures PerformedAll(w, a + b) == PerformedAll(PerformedAll(w, a), b)
    decreases |a|
  {
    if a == [] {
      assert a + b == b;
    } else {
      assert (a + b)[1..] == a[1..] + b;
      PerformedConcat(Performed(w, a[0]), a[1..], b);
    }
  }

  function Said(w: World, commands: seq<Command>): World {
    w.(log := w.log.(said := w.log.said + commands))
  }

  function Sends(commands: seq<Command>): seq<Action> {
    seq(|commands|, i requires 0 <= i < |commands| => Send(commands[i]))
  }

  lemma {:induction false} PerformedSends(w: World, commands: seq<Command>)
    requires w.connection.Some?
    ensures PerformedAll(w, Sends(commands)) == Said(w, commands)
    decreases |commands|
  {
    if commands == [] {
      assert w.log.said + commands == w.log.said;
    } else {
      var rest := commands[1..];
      assert Sends(commands)[1..] == Sends(rest);
      PerformedSends(Said(w, [commands[0]]), rest);
      assert w.log.said + [commands[0]] + rest == w.log.said + commands;
    }
  }

  function WatchesOf(names: seq<Name>): seq<Command> {
    seq(|names|, i requires 0 <= i < |names| => Watch(names[i]))
  }

  function UnwatchesOf(names: seq<Name>): seq<Command> {
    seq(|names|, i requires 0 <= i < |names| => Unwatch(names[i]))
  }

  lemma {:induction false} ReplayWatches(said: seq<Command>, names: seq<Name>)
    ensures Replayed(said + WatchesOf(names)) == Replayed(said) + Elements(names)
  {
    var n := |names|;
    if n == 0 {
      assert said + WatchesOf(names) == said;
    } else {
      var before := names[..n - 1];
      ReplayWatches(said, before);
      assert Elements(names) == Elements(before) + {names[n - 1]};
      assert (said + WatchesOf(names))[..|said| + n - 1] == said + WatchesOf(before);
    }
  }

  lemma {:induction false} ReplayUnwatches(said: seq<Command>, names: seq<Name>)
    ensures Replayed(said + UnwatchesOf(names)) == Replayed(said) - Elements(names)
  {
    var n := |names|;
    if n == 0 {
      assert said + UnwatchesOf(names) == said;
    } else {
      var before := names[..n - 1];
      ReplayUnwatches(said, before);
      assert Elements(names) == Elements(before) + {names[n - 1]};
      assert (said + UnwatchesOf(names))[..|said| + n - 1] == said + UnwatchesOf(before);
    }
  }

  // ---------------------------------------------------------------- what each kind of transition keeps

  /** Fetching a connection, once nothing runs and no retry is armed. */
  lemma OpeningKeeps(cfg: Config, w: World)
    requires w.machine.state == Connecting
    requires TimersKnown(w) && ReadersKnown(w) && w.generation !in w.tasks.readers && ConnectionsOk(w) && Agreeing(w)
    ensures Inv(cfg, Opening(w))
  {
    var w' := Opening(w);
    assert TimersOk(w');
    assert ReadersOk(w');
    assert ConnectionsOk(w');
  }

  /** Dropping the connection for good. */
  lemma ClosingKeeps(cfg: Config, w: World)
    requires !Running(w.machine) && !w.machine.state.Retrying?
    requires TimersKnown(w) && ReadersKnown(w) && ConnectionsOk(w) && Agreeing(w)
    ensures Inv(cfg, Closing(w))
  {
    var w' := Closing(w);
    assert TimersOk(w');
    assert ReadersOk(w');
    assert ConnectionsOk(w');
  }

  lemma CancelRetryKeeps(w: World)
    requires TimersKnown(w.(machine := w.machine.(state := Retrying(Lost))))
    ensures var w' := Performed(w, CancelRetry); TimersKnown(w') && !RetryArmed(w')
    ensures var w' := Performed(w, CancelRetry);
      w'.generation == w.generation && w'.proof == w.proof
        && (w.tasks.timers.Keys - One(w.retry)) == w'.tasks.timers.Keys
  {
  }

  lemma ScheduleRetryArms(w: World, delay: Duration)
    requires w.machine.state.Retrying? && TimersKnown(w) && 250 <= delay <= CEILING
    ensures TimersOk(Performed(w, ScheduleRetry(delay)))
  {
  }

  /** A reader that stopped by itself, with a retry scheduled. */
  lemma RetryKeeps(cfg: Config, w: World, delay: Duration)
    requires w.machine.state.Retrying? && TimersKnown(w) && 250 <= delay <= CEILING
    requires ReadersKnown(w) && ConnectionsOk(w) && Agreeing(w)
    ensures Inv(cfg, Ends(Performed(w, ScheduleRetry(delay)), w.generation))
  {
    ScheduleRetryArms(w, delay);
    var w' := Ends(Performed(w, ScheduleRetry(delay)), w.generation);
    assert ReadersOk(w');
    assert ConnectionsOk(w');
  }

  // ---------------------------------------------------------------- events that leave the link where it is

  lemma HeardMore(cfg: Config, m: Machine, heard: seq<Message>, more: Message, said: seq<Command>, key: string, at: nat)
    requires m.publisherVersion.Some? && Answered(cfg, m, heard, said, key, at)
    ensures Answered(cfg, m, heard + [more], said, key, at)
  {
    assert (heard + [more])[..at] == heard[..at];
  }

  /** What a machine that neither connects, proves, shows, pins nor watches anew leaves alone. */
  predicate SameLink(w: World, m: Machine, e: Event) {
    var was := w.machine;
    && m.state == was.state
    && m.pinnedKey == was.pinnedKey && m.snapshot == was.snapshot && m.challenge == was.challenge
    && m.publisherVersion == was.publisherVersion && m.publisherKey == was.publisherKey
    && (was.state.Live? ==> m.watching == was.watching)
    && (was.state.Proving? ==> m.pending == was.pending || (m.pending.Some? && e == Received(State(m.pending.value))))
  }

  /** Tasks are judged by the supervisor's own fields and by which state the link is in. */
  lemma SameTasks(w: World, w': World)
    requires TasksOk(w)
    requires w' == w.(machine := w'.machine, store := w'.store, log := w'.log)
    requires w'.machine.state == w.machine.state || (w'.machine.state.Live? && w.machine.state.Live?)
    ensures TasksOk(w') && (Listening(w) ==> Listening(w'))
  {
  }

  /** The records do not depend on the tasks. */
  lemma SameRecords(cfg: Config, w: World, tasks: Tasks)
    requires RecordsOk(cfg, w)
    ensures RecordsOk(cfg, w.(tasks := tasks))
  {
    var w' := w.(tasks := tasks);
    if w.machine.state.Live? {
      var key, at :| ProvedUnder(cfg, w, key, at);
      assert ProvedUnder(cfg, w', key, at);
    }
    assert ViewsArrivedHere(w');
  }

  lemma StayingKeepsHandshake(cfg: Config, w: World, m: Machine, e: Event)
    requires HandshakeOk(cfg, w) && SameLink(w, m, e)
    ensures HandshakeOk(cfg, Moved(w, m, e))
  {
    var w' := Moved(w, m, e);
    if m.state.Live? {
      var key, at :| ProvedUnder(cfg, w, key, at);
      if e.Received? {
        HeardMore(cfg, w.machine, w.log.heard, e.message, w.log.said, key, at);
      }
      assert ProvedUnder(cfg, w', key, at);
    }
  }

  lemma StayingKeeps(cfg: Config, w: World, m: Machine, e: Event)
    requires Inv(cfg, w) && SameLink(w, m, e)
    ensures Inv(cfg, Moved(w, m, e))
    ensures Listening(w) ==> Listening(Moved(w, m, e))
  {
    SameTasks(w, Moved(w, m, e));
    StayingKeepsHandshake(cfg, w, m, e);
    assert ViewsArrivedHere(Moved(w, m, e));
  }

  /** Commands sent while live, when the watches among them are what the machine now watches. */
  lemma SayingKeeps(cfg: Config, w: World, watching: set<Name>, commands: seq<Command>)
    requires Inv(cfg, w) && w.machine.state.Live?
    requires Replayed(w.log.said + commands) == watching
    ensures Inv(cfg, Said(w.(machine := w.machine.(watching := watching)), commands))
  {
    var w' := Said(w.(machine := w.machine.(watching := watching)), commands);
    SameTasks(w, w');
    var key, at :| ProvedUnder(cfg, w, key, at);
    assert ProvedUnder(cfg, w', key, at);
    assert ViewsArrivedHere(w');
  }

  /** A view shown: it becomes the snapshot, and its diff is published. */
  lemma ShowingKeeps(cfg: Config, w: World, view: Snapshot, published: Action)
    requires Inv(cfg, w) && w.machine.state.Live?
    requires State(view) in w.log.heard || w.log.carried
    requires published == Publish(view, DiffOf(w.machine.snapshot, view))
    ensures Inv(cfg, Performed(w.(machine := Shown(w.machine, view).0), published))
  {
    var w' := Performed(w.(machine := Shown(w.machine, view).0), published);
    SameTasks(w, w');
    ShowingAgrees(w, view);
    var key, at :| ProvedUnder(cfg, w, key, at);
    assert ProvedUnder(cfg, w', key, at);
    assert ViewsArrivedHere(w');
  }

  lemma ShowingAgrees(w: World, view: Snapshot)
    requires Agreeing(w)
    ensures Accumulated(w.log.diffs + [DiffOf(w.machine.snapshot, view)]) == NamesOf(view)
  {
    var diff := DiffOf(w.machine.snapshot, view);
    DiffTransforms(w.machine.snapshot, view, diff);
    assert (w.log.diffs + [diff])[..|w.log.diffs|] == w.log.diffs;
  }

  /** Performing actions neither reads nor changes the machine. */
  lemma {:induction false} MachineLeftAlone(w: World, m: Machine, actions: seq<Action>)
    ensures PerformedAll(w.(machine := m), actions) == PerformedAll(w, actions).(machine := m)
    decreases |actions|
  {
    if actions != [] {
      MachineLeftAlone(Performed(w, actions[0]), m, actions[1..]);
    }
  }

  // ---------------------------------------------------------------- messages

  /** A refused hello drops the connection for good. */
  lemma RefusedHelloKeeps(cfg: Config, w: World, hello: Message, nonce: Bytes)
    requires Inv(cfg, w) && w.machine.state == Connecting && hello.Hello?
    requires hello.schema != Proof.SCHEMA || hello.publicKey == None
    ensures var w' := Dispatched(cfg, w, Received(hello), nonce); Inv(cfg, w') && !Running(w'.machine)
  {
    var (m, actions) := Greeted(w.machine, hello.schema, hello.version, hello.publicKey, nonce);
    var moved := Moved(w, m, Received(hello));
    PerformedOne(moved, CloseConnection);
    ClosingKeeps(cfg, moved);
  }

  /** An accepted hello asks for proof, with a deadline. */
  lemma AcceptedHelloKeeps(cfg: Config, w: World, hello: Message, nonce: Bytes)
    requires Inv(cfg, w) && w.machine.state == Connecting && Listening(w) && hello.Hello?
    requires hello.schema == Proof.SCHEMA && hello.publicKey.Some?
    ensures var w' := Dispatched(cfg, w, Received(hello), nonce); Inv(cfg, w') && Listening(w')
  {
    var (m, actions) := Greeted(w.machine, hello.schema, hello.version, hello.publicKey, nonce);
    var moved := Moved(w, m, Received(hello));
    PerformedTwo(moved, Send(Challenge(nonce)), ScheduleAuthTimeout(PROOF_DEADLINE));
    ProofAsked(cfg, w, moved, nonce);
  }

  lemma ProofAsked(cfg: Config, w: World, moved: World, nonce: Bytes)
    requires Inv(cfg, w) && w.machine.state == Connecting && Listening(w)
    requires moved == w.(machine := moved.machine, log := moved.log)
    requires moved.machine.state == Proving && moved.machine.challenge == Some(nonce)
    requires moved.machine.snapshot == w.machine.snapshot && moved.machine.pinnedKey == w.machine.pinnedKey
    requires Announced(moved.machine, moved.log.heard)
    requires moved.log.said == w.log.said && moved.log.shown == w.log.shown && moved.log.diffs == w.log.diffs
    requires moved.log.carried == moved.machine.pending.Some?
    ensures var w' := Performed(Performed(moved, Send(Challenge(nonce))), ScheduleAuthTimeout(PROOF_DEADLINE));
      Inv(cfg, w') && Listening(w')
  {
    var w' := Performed(Performed(moved, Send(Challenge(nonce))), ScheduleAuthTimeout(PROOF_DEADLINE));
    assert TimersOk(w');
    assert ReadersOk(w');
    assert ConnectionsOk(w');
  }

  /** A proof that does not hold drops the connection and waits for a person. */
  lemma UnprovenKeeps(cfg: Config, w: World, m: Machine, e: Event)
    requires Inv(cfg, w) && w.machine.state == Proving
    requires m == w.machine.(state := Unproven(w.machine.pinnedKey, w.machine.publisherKey))
    ensures Inv(cfg, PerformedAll(Moved(w, m, e), [CloseConnection, CancelAuthTimeout]))
    ensures Inv(cfg, PerformedAll(Moved(w, m, e), [CloseConnection]))
  {
    var moved := Moved(w, m, e);
    PerformedOne(moved, CloseConnection);
    PerformedTwo(moved, CloseConnection, CancelAuthTimeout);
    ClosingKeeps(cfg, moved);
    DeadlineDropped(cfg, Closing(moved));
  }

  lemma DeadlineDropped(cfg: Config, w: World)
    requires Inv(cfg, w) && !w.machine.state.Proving? && !w.machine.state.Live?
    ensures Inv(cfg, Performed(w, CancelAuthTimeout))
  {
    assert TimersOk(Performed(w, CancelAuthTimeout));
  }

  function PinOf(m: Machine, offered: string): seq<Action> {
    if m.pinnedKey == None then [Pin(offered)] else []
  }

  /** What welcoming a proved publisher does to the world, apart from the machine. */
  ghost function Welcomed(w: World, m: Machine, offered: string): World {
    w.(store := if m.pinnedKey == None then Some(offered) else w.store,
       proof := None, tasks := Disarmed(w.tasks, w.proof),
       log := w.log.(said := w.log.said + WatchesOf(Sorted(m.watching))))
  }

  lemma WelcomePerformed(w: World, m: Machine, offered: string)
    requires w.connection.Some?
    ensures PerformedAll(w, Welcome(m, offered)) == Welcomed(w, m, offered)
  {
    var greeting := [CancelAuthTimeout] + PinOf(m, offered);
    var watches := Watches(Sorted(m.watching));
    assert Welcome(m, offered) == greeting + watches;
    PerformedConcat(w, greeting, watches);
    if m.pinnedKey == None {
      assert greeting == [CancelAuthTimeout, Pin(offered)];
      PerformedTwo(w, CancelAuthTimeout, Pin(offered));
    } else {
      assert greeting == [CancelAuthTimeout];
      PerformedOne(w, CancelAuthTimeout);
    }
    assert watches == Sends(WatchesOf(Sorted(m.watching)));
    PerformedSends(PerformedAll(w, greeting), WatchesOf(Sorted(m.watching)));
  }

  /** The world once the publisher has proved itself, before any held view is shown. */
  ghost function Proved(w: World, e: Event, offered: string): World {
    Welcomed(w, w.machine, offered).(
      machine := Trusted(w.machine, offered),
      log := w.log.(heard := if e.Received? then w.log.heard + [e.message] else w.log.heard,
                    said := w.log.said + WatchesOf(Sorted(w.machine.watching))))
  }

  lemma ProvedTasks(w: World, e: Event, offered: string)
    requires TasksOk(w) && w.machine.state == Proving
    ensures TasksOk(Proved(w, e, offered)) && Listening(Proved(w, e, offered))
  {
  }

  lemma AnsweredNow(cfg: Config, m: Machine, heard: seq<Message>, said: seq<Command>, more: seq<Command>,
      key: string, answered: string, signature: string)
    requires Announced(m, heard) && said != [] && said[0].Challenge?
    requires cfg.lib.swiftDecode(answered) == Some(said[0].nonce)
    requires Proof.Holds(cfg.lib, key, signature, said[0].nonce, Proof.SCHEMA, m.publisherVersion.value, cfg.socketPath)
    ensures Answered(cfg, m, heard + [Auth(answered, signature)], said + more, key, |heard|)
  {
    assert (heard + [Auth(answered, signature)])[..|heard|] == heard;
  }

  lemma ProvedHandshake(cfg: Config, w: World, answered: string, signature: string)
    requires HandshakeOk(cfg, w) && w.machine.state == Proving
    requires Proves(cfg, w.machine.challenge, w.machine.publisherKey, w.machine.pinnedKey, w.machine.publisherVersion,
      answered, signature)
    ensures HandshakeOk(cfg, Proved(w, Received(Auth(answered, signature)), w.machine.publisherKey.value))
  {
    var m, offered := w.machine, w.machine.publisherKey.value;
    var w', more := Proved(w, Received(Auth(answered, signature)), offered), WatchesOf(Sorted(m.watching));
    var key := if m.pinnedKey.Some? then m.pinnedKey.value else offered;
    AnsweredNow(cfg, m, w.log.heard, w.log.said, more, key, answered, signature);
    assert w.log.said[..0] == [];
    ReplayWatches(w.log.said, Sorted(m.watching));
    assert ProvedUnder(cfg, w', key, |w.log.heard|);
  }

  lemma ProvedKeeps(cfg: Config, w: World, answered: string, signature: string)
    requires Inv(cfg, w) && w.machine.state == Proving
    requires Proves(cfg, w.machine.challenge, w.machine.publisherKey, w.machine.pinnedKey, w.machine.publisherVersion,
      answered, signature)
    ensures Inv(cfg, Proved(w, Received(Auth(answered, signature)), w.machine.publisherKey.value))
  {
    var e, offered := Received(Auth(answered, signature)), w.machine.publisherKey.value;
    ProvedTasks(w, e, offered);
    ProvedHandshake(cfg, w, answered, signature);
    var w' := Proved(w, e, offered);
    assert ViewsArrivedHere(w') && Agreeing(w');
  }

  /** A view that was held while proving is shown once the publisher is trusted. */
  lemma HeldViewShown(cfg: Config, proved: World, view: Snapshot)
    requires Inv(cfg, proved) && Listening(proved) && proved.machine.state.Live?
    requires State(view) in proved.log.heard || proved.log.carried
    ensures var (m', published) := Shown(proved.machine.(pending := None), view);
      var w' := PerformedAll(proved.(machine := m'), published);
      Inv(cfg, w') && Listening(w')
  {
    var unheld := proved.(machine := proved.machine.(pending := None));
    StayingKeeps(cfg, proved, unheld.machine, Stop);
    assert Moved(proved, unheld.machine, Stop) == unheld;
    var (m', published) := Shown(unheld.machine, view);
    PerformedOne(proved.(machine := m'), published[0]);
    ShowingKeeps(cfg, unheld, view, published[0]);
    SameTasks(unheld, Performed(unheld.(machine := m'), published[0]));
  }

  lemma WelcomeGivesProved(w: World, m': Machine, e: Event, offered: string)
    requires w.connection.Some? && w.machine.state == Proving && e.Received?
    ensures PerformedAll(Moved(w, m', e), Welcome(w.machine, offered)) == Proved(w, e, offered).(machine := m')
  {
    WelcomePerformed(Moved(w, m', e), w.machine, offered);
  }

  /** A publisher that has proved itself is trusted, and shown for what was held. */
  lemma TrustingKeeps(cfg: Config, w: World, answered: string, signature: string)
    requires Inv(cfg, w) && w.machine.state == Proving
    requires Proves(cfg, w.machine.challenge, w.machine.publisherKey, w.machine.pinnedKey, w.machine.publisherVersion,
      answered, signature)
    ensures var (m', actions) := Settled(cfg, w.machine, answered, signature);
      var w' := PerformedAll(Moved(w, m', Received(Auth(answered, signature))), actions);
      Inv(cfg, w') && Listening(w')
  {
    var e, offered := Received(Auth(answered, signature)), w.machine.publisherKey.value;
    var (m', actions) := Settled(cfg, w.machine, answered, signature);
    var proved := Proved(w, e, offered);
    ProvedKeeps(cfg, w, answered, signature);
    ProvedTasks(w, e, offered);
    WelcomeGivesProved(w, m', e, offered);
    if w.machine.pending.Some? {
      var view := w.machine.pending.value;
      var published := Shown(Trusted(w.machine, offered).(pending := None), view).1;
      PerformedConcat(Moved(w, m', e), Welcome(w.machine, offered), published);
      HeldViewShown(cfg, proved, view);
    }
  }

  /** Whatever answers the challenge: trusted, or dropped. */
  lemma SettlingKeeps(cfg: Config, w: World, answered: string, signature: string, nonce: Bytes)
    requires Inv(cfg, w) && w.machine.state == Proving
    ensures var w' := Dispatched(cfg, w, Received(Auth(answered, signature)), nonce);
      Inv(cfg, w') && (Running(w'.machine) ==> Listening(w'))
  {
    var m, e := w.machine, Received(Auth(answered, signature));
    var (m', actions) := Settled(cfg, m, answered, signature);
    assert Handled(cfg, m, e, nonce) == (m', actions);
    if Proves(cfg, m.challenge, m.publisherKey, m.pinnedKey, m.publisherVersion, answered, signature) {
      TrustingKeeps(cfg, w, answered, signature);
    } else {
      UnprovenKeeps(cfg, w, m', e);
    }
  }

  /** A goodbye drops the connection and schedules a retry. */
  lemma GoodbyeKeeps(cfg: Config, w: World, m: Machine, e: Event, delay: Duration)
    requires Inv(cfg, w) && w.machine.state.Live?
    requires m == w.machine.(state := Retrying(Goodbye)) && 250 <= delay <= CEILING
    ensures var w' := PerformedAll(Moved(w, m, e), [CloseConnection, ScheduleRetry(delay)]);
      Inv(cfg, w') && w'.machine == m
  {
    var moved := Moved(w, m, e);
    PerformedTwo(moved, CloseConnection, ScheduleRetry(delay));
    var resting := moved.(machine := m.(state := Idle));
    assert TimersKnown(resting);
    ClosingKeeps(cfg, resting);
    ScheduleRetryArms(Closing(moved), delay);
    assert Inv(cfg, Performed(Closing(moved), ScheduleRetry(delay)));
  }

  lemma LiveViewKeeps(cfg: Config, w: World, view: Snapshot, nonce: Bytes)
    requires Inv(cfg, w) && w.machine.state.Live?
    ensures var w' := Dispatched(cfg, w, Received(State(view)), nonce); Inv(cfg, w') && Listening(w')
  {
    var m, e := w.machine, Received(State(view));
    var (m', published) := Shown(m, view);
    var told := Moved(w, m, e);
    StayingKeeps(cfg, w, m, e);
    assert Moved(w, m', e) == told.(machine := m');
    ViewShown(cfg, told, view);
    assert Handled(cfg, m, e, nonce) == (m', published);
  }

  lemma ViewShown(cfg: Config, told: World, view: Snapshot)
    requires Inv(cfg, told) && told.machine.state.Live? && State(view) in told.log.heard
    ensures var (m', published) := Shown(told.machine, view);
      var w' := PerformedAll(told.(machine := m'), published);
      Inv(cfg, w') && Listening(w')
  {
    var (m', published) := Shown(told.machine, view);
    PerformedOne(told.(machine := m'), published[0]);
    ShowingKeeps(cfg, told, view, published[0]);
    SameTasks(told, Performed(told.(machine := m'), published[0]));
  }

  lemma LiveMessageKeeps(cfg: Config, w: World, message: Message, nonce: Bytes)
    requires Inv(cfg, w) && w.machine.state.Live?
    ensures var w' := Dispatched(cfg, w, Received(message), nonce);
      Inv(cfg, w') && (Running(w'.machine) ==> Listening(w'))
  {
    var m, e := w.machine, Received(message);
    var (m', actions) := Heard(cfg, m, message, nonce);
    if message.State? {
      LiveViewKeeps(cfg, w, message.view, nonce);
    } else if message.Bye? {
      DelayIsBoundedAndClimbs(Goodbye, m.attempt, m.attempt);
      assert actions == [CloseConnection, ScheduleRetry(Delay(Goodbye, m.attempt))];
      GoodbyeKeeps(cfg, w, m', e, Delay(Goodbye, m.attempt));
    } else {
      StayingKeeps(cfg, w, m', e);
      if message.Sampled? {
        PerformedOne(Moved(w, m', e), PublishSample(message.sample));
      }
    }
  }

  /** Every message keeps the invariant, and the reader stays for as long as the link runs. */
  lemma MessageKeeps(cfg: Config, w: World, message: Message, nonce: Bytes)
    requires Inv(cfg, w) && (Running(w.machine) ==> Listening(w))
    ensures var w' := Dispatched(cfg, w, Received(message), nonce);
      Inv(cfg, w') && (Running(w'.machine) ==> Listening(w'))
  {
    var m, e := w.machine, Received(message);
    var (m', actions) := Heard(cfg, m, message, nonce);
    if m.state.Live? {
      LiveMessageKeeps(cfg, w, message, nonce);
    } else if m.state.Proving? && message.Auth? {
      SettlingKeeps(cfg, w, message.nonce, message.signature, nonce);
    } else if m.state.Connecting? && message.Hello? {
      if message.schema == Proof.SCHEMA && message.publicKey.Some? {
        AcceptedHelloKeeps(cfg, w, message, nonce);
      } else {
        RefusedHelloKeeps(cfg, w, message, nonce);
      }
    } else {
      assert actions == [];
      StayingKeeps(cfg, w, m', e);
    }
  }

  lemma {:induction false} MessagesKeep(cfg: Config, w: World, messages: seq<Message>, nonce: Bytes)
    requires Inv(cfg, w) && (Running(w.machine) ==> Listening(w))
    ensures Inv(cfg, DispatchedAll(cfg, w, messages, nonce))
    decreases |messages|
  {
    if messages != [] {
      MessageKeeps(cfg, w, messages[0], nonce);
      MessagesKeep(cfg, Dispatched(cfg, w, Received(messages[0]), nonce), messages[1..], nonce);
    }
  }

  // ---------------------------------------------------------------- everything else that can happen

  /** A link that stopped running by itself schedules a retry, and its reader is over. */
  lemma FailingKeeps(cfg: Config, w: World, e: Event, reason: Disconnection, nonce: Bytes)
    requires Inv(cfg, w) && Running(w.machine) && !e.Received?
    requires Handled(cfg, w.machine, e, nonce) == Retried(w.machine, reason)
    ensures Inv(cfg, Ends(Dispatched(cfg, w, e, nonce), w.generation))
  {
    var (m, actions) := Retried(w.machine, reason);
    var moved := Moved(w, m, e);
    DelayIsBoundedAndClimbs(reason, m.attempt, m.attempt);
    PerformedOne(moved, actions[0]);
    RetryKeeps(cfg, moved, Delay(reason, w.machine.attempt));
  }

  lemma StoppingKeeps(cfg: Config, w: World, nonce: Bytes)
    requires Inv(cfg, w)
    ensures Inv(cfg, Dispatched(cfg, w, Stop, nonce))
  {
    var moved := Moved(w, w.machine.(state := Idle), Stop);
    PerformedTwo(moved, CancelRetry, CloseConnection);
    CancelRetryKeeps(moved);
    ClosingKeeps(cfg, Performed(moved, CancelRetry));
  }

  /** Connecting from a state where nothing runs, whether or not the retry that was armed is still there. */
  lemma ConnectingKeeps(cfg: Config, w: World, e: Event, nonce: Bytes, m: Machine)
    requires TimersKnown(w) && ReadersOk(w) && ConnectionsOk(w) && Agreeing(w) && !Running(w.machine) && !e.Received?
    requires m == w.machine.(attempt := m.attempt, state := Connecting)
    requires Handled(cfg, w.machine, e, nonce)
          == (m, if w.machine.state.Retrying? then [CancelRetry, Connect] else [Connect])
    ensures Inv(cfg, Dispatched(cfg, w, e, nonce))
  {
    var moved := Moved(w, m, e);
    if w.machine.state.Retrying? {
      PerformedTwo(moved, CancelRetry, Connect);
      assert TimersKnown(moved.(machine := m.(state := Retrying(Lost))));
      CancelRetryKeeps(moved);
      OpeningKeeps(cfg, Performed(moved, CancelRetry));
    } else {
      PerformedOne(moved, Connect);
      OpeningKeeps(cfg, moved);
    }
  }

  lemma NothingHappens(cfg: Config, w: World, e: Event, nonce: Bytes)
    requires Handled(cfg, w.machine, e, nonce) == (w.machine, []) && !e.Received?
    ensures Dispatched(cfg, w, e, nonce) == w
  {
  }

  lemma TryingKeeps(cfg: Config, w: World, e: Event, nonce: Bytes)
    requires Inv(cfg, w)
    requires e.Start? || e.UserAskedToRetry? || e.SystemDidWake? || e.MenuWillOpen?
    ensures Inv(cfg, Dispatched(cfg, w, e, nonce))
  {
    var (m, actions) := Handled(cfg, w.machine, e, nonce);
    if m.state == Connecting && w.machine.state != Connecting {
      ConnectingKeeps(cfg, w, e, nonce, m);
    } else if actions == [] {
      NothingHappens(cfg, w, e, nonce);
    } else {
      AskingKeeps(cfg, w, e, nonce, Refresh);
    }
  }

  /** A command that watches nothing changes nothing but what was said. */
  lemma AskingKeeps(cfg: Config, w: World, e: Event, nonce: Bytes, command: Command)
    requires Inv(cfg, w) && w.machine.state.Live? && !e.Received? && !command.Watch? && !command.Unwatch?
    requires Handled(cfg, w.machine, e, nonce) == (w.machine, [Send(command)])
    ensures Inv(cfg, Dispatched(cfg, w, e, nonce))
  {
    PerformedOne(Moved(w, w.machine, e), Send(command));
    assert (w.log.said + [command])[..|w.log.said|] == w.log.said;
    SayingKeeps(cfg, w, w.machine.watching, [command]);
  }

  lemma WatchingKeeps(cfg: Config, w: World, tunnel: Name, nonce: Bytes)
    requires Inv(cfg, w)
    ensures Inv(cfg, Dispatched(cfg, w, WatchTunnel(tunnel), nonce))
  {
    var e := WatchTunnel(tunnel);
    var (m, actions) := Handled(cfg, w.machine, e, nonce);
    if w.machine.state.Live? && tunnel !in w.machine.watching {
      PerformedOne(Moved(w, m, e), Send(Watch(tunnel)));
      ReplayWatches(w.log.said, [tunnel]);
      assert WatchesOf([tunnel]) == [Watch(tunnel)];
      SayingKeeps(cfg, w, m.watching, [Watch(tunnel)]);
    } else {
      StayingKeeps(cfg, w, m, e);
    }
  }

  lemma ReleasingKeeps(cfg: Config, w: World, nonce: Bytes)
    requires Inv(cfg, w)
    ensures Inv(cfg, Dispatched(cfg, w, WatchNothing, nonce))
  {
    var (m, actions) := Handled(cfg, w.machine, WatchNothing, nonce);
    if w.machine.state.Live? {
      var released := UnwatchesOf(Sorted(w.machine.watching));
      assert actions == Sends(released);
      PerformedSends(Moved(w, m, WatchNothing), released);
      ReplayUnwatches(w.log.said, Sorted(w.machine.watching));
      SayingKeeps(cfg, w, {}, released);
    } else {
      StayingKeeps(cfg, w, m, WatchNothing);
    }
  }

  lemma UserActionKeeps(cfg: Config, w: World, e: Event, nonce: Bytes)
    requires Inv(cfg, w) && IsUserEvent(e)
    ensures Inv(cfg, Dispatched(cfg, w, e, nonce))
  {
    match e {
      case Stop => StoppingKeeps(cfg, w, nonce);
      case WatchTunnel(tunnel) => WatchingKeeps(cfg, w, tunnel, nonce);
      case WatchNothing => ReleasingKeeps(cfg, w, nonce);
      case AskForPing(target) =>
        if w.machine.state.Live? {
          AskingKeeps(cfg, w, e, nonce, AskPing(target));
        } else {
          NothingHappens(cfg, w, e, nonce);
        }
      case _ => TryingKeeps(cfg, w, e, nonce);
    }
  }

  /** Forgetting the key empties the store and the machine together, and disturbs nothing else. */
  lemma ForgettingKeeps(cfg: Config, w: World)
    requires Inv(cfg, w)
    ensures Inv(cfg, Forgotten(w))
  {
    var w' := Forgotten(w);
    SameTasks(w, w');
    if w.machine.state.Live? {
      var key, at :| ProvedUnder(cfg, w, key, at);
      assert ProvedUnder(cfg, w', key, at);
    }
    assert ViewsArrivedHere(w');
  }

  lemma RetryTimerKeeps(cfg: Config, w: World, t: nat, nonce: Bytes)
    requires Inv(cfg, w) && t in w.tasks.timers && w.tasks.timers[t].RetryTimer?
    ensures Inv(cfg, TimerFired(cfg, w, t, nonce))
    ensures TimerFired(cfg, w, t, nonce).machine.state == Connecting
  {
    var gone := TimerGone(w, t);
    assert TimersKnown(gone);
    var m := w.machine.(attempt := w.machine.attempt + 1, state := Connecting);
    ConnectingKeeps(cfg, gone, RetryTimerFired, nonce, m);
    PerformedTwo(Moved(gone, m, RetryTimerFired), CancelRetry, Connect);
  }

  lemma ProofTimerKeeps(cfg: Config, w: World, t: nat, nonce: Bytes)
    requires Inv(cfg, w) && t in w.tasks.timers && w.tasks.timers[t].ProofTimer?
    ensures Inv(cfg, TimerFired(cfg, w, t, nonce))
  {
    var gone := TimerGone(w, t);
    if w.machine.state.Proving? {
      var m := w.machine.(state := Unproven(w.machine.pinnedKey, w.machine.publisherKey));
      PerformedOne(Moved(gone, m, AuthTimedOut), CloseConnection);
      ClosingKeeps(cfg, Moved(gone, m, AuthTimedOut));
    } else {
      NothingHappens(cfg, gone, AuthTimedOut, nonce);
      SameRecords(cfg, w, gone.tasks);
      assert TimersOk(gone);
    }
  }

  /** A task of another generation ends without the machine hearing of it. */
  lemma StaleEndKeeps(cfg: Config, w: World, g: nat)
    requires Inv(cfg, w) && g != w.generation
    ensures Inv(cfg, Ends(w, g))
  {
    var w' := Ends(w, g);
    SameRecords(cfg, w, w'.tasks);
    assert TimersOk(w') && ReadersOk(w') && ConnectionsOk(w');
  }

  /** A connection that arrives too late is closed by the task that fetched it. */
  lemma DiscardKeeps(cfg: Config, w: World, g: nat)
    requires Inv(cfg, w) && g != w.generation && g in w.tasks.readers && w.tasks.readers[g] == Dialling
    ensures Inv(cfg, Ends(Discarded(w, g), g))
  {
    var w' := Ends(Discarded(w, g), g);
    SameRecords(cfg, w, w'.tasks);
    assert TimersOk(w') && ReadersOk(w') && ConnectionsOk(w');
  }

  lemma DialKeeps(cfg: Config, w: World, g: nat, outcome: Outcome, nonce: Bytes)
    requires Inv(cfg, w) && Enabled(w, DialReturns(g, outcome))
    ensures Inv(cfg, DialReturned(cfg, w, g, outcome, nonce))
  {
    if outcome == CancelledError || (g != w.generation && outcome != Arrived) {
      StaleEndKeeps(cfg, w, g);
    } else if g != w.generation {
      DiscardKeeps(cfg, w, g);
    } else if outcome == Arrived {
      ServingKeeps(cfg, w);
    } else {
      var e := DialEvent(outcome);
      var reason := match outcome
        case CouldNotConnect(code) => ReasonFor(code)
        case FoundNotRoot(uid, found) => NotRoot(uid, found)
        case _ => Rejected;
      FailingKeeps(cfg, w, e, reason, nonce);
      assert w.machine.state == Connecting;
    }
  }

  lemma ServingKeeps(cfg: Config, w: World)
    requires Inv(cfg, w) && w.generation in w.tasks.readers && w.tasks.readers[w.generation] == Dialling
    ensures Inv(cfg, Served(w, w.generation))
  {
    var w' := Served(w, w.generation);
    assert TimersOk(w');
    assert ReadersOk(w');
    assert ConnectionsOk(w');
  }

  lemma ChunkKeeps(setup: Setup, w: World, g: nat, chunk: Bytes, nonce: Bytes)
    requires Inv(setup.link, w) && Enabled(w, ChunkArrives(g, chunk))
    ensures Inv(setup.link, ChunkArrived(setup, w, g, chunk, nonce))
  {
    if g != w.generation {
      StaleEndKeeps(setup.link, w, g);
    } else {
      var (framer, lines) := Framing.Pushed(w.tasks.readers[g].framer, setup.limit, chunk);
      var framed := Framed(w, g, framer);
      SameRecords(setup.link, w, framed.tasks);
      assert TimersOk(framed);
      assert ReadersOk(framed);
      assert ConnectionsOk(framed);
      MessagesKeep(setup.link, framed, Decoded(setup.decode, lines), nonce);
    }
  }

  lemma StreamEndKeeps(cfg: Config, w: World, g: nat, how: StreamEnd, nonce: Bytes)
    requires Inv(cfg, w) && Enabled(w, StreamEnds(g, how))
    ensures Inv(cfg, StreamEnded(cfg, w, g, how, nonce))
  {
    if how == StreamCancelled || g != w.generation {
      StaleEndKeeps(cfg, w, g);
    } else {
      FailingKeeps(cfg, w, if how == Clean then EndOfStream else StreamFailed,
                   if w.machine.state.Live? then Lost else Rejected, nonce);
    }
  }

  /** Every step keeps the invariant. */
  lemma StepKeeps(setup: Setup, w: World, step: Step, nonce: Bytes)
    requires Inv(setup.link, w) && Enabled(w, step)
    ensures Inv(setup.link, Next(setup, w, step, nonce))
  {
    var cfg := setup.link;
    match step {
      case UserActs(e) => UserActionKeeps(cfg, w, e, nonce);
      case KeyForgotten =>
        ForgettingKeeps(cfg, w);
        TryingKeeps(cfg, Forgotten(w), UserAskedToRetry, nonce);
      case TimerFires(t) =>
        if w.tasks.timers[t].RetryTimer? {
          RetryTimerKeeps(cfg, w, t, nonce);
        } else {
          ProofTimerKeeps(cfg, w, t, nonce);
        }
      case DialReturns(g, outcome) => DialKeeps(cfg, w, g, outcome, nonce);
      case ChunkArrives(g, chunk) => ChunkKeeps(setup, w, g, chunk, nonce);
      case StreamEnds(g, how) => StreamEndKeeps(cfg, w, g, how, nonce);
    }
  }

  // ---------------------------------------------------------------- runs

  /** One step of a run, with the nonce the source would give if asked during it. */
  datatype Taken = Taken(step: Step, nonce: Bytes)

  /** A run from a supervisor just made over a key store, through every world it passes. */
  ghost predicate IsRun(setup: Setup, store: Option<string>, worlds: seq<World>, steps: seq<Taken>) {
    && |worlds| == |steps| + 1
    && worlds[0] == Asleep(store)
    && forall i :: 0 <= i < |steps| ==>
      Enabled(worlds[i], steps[i].step) && worlds[i + 1] == Next(setup, worlds[i], steps[i].step, steps[i].nonce)
  }

  lemma {:induction false} EveryWorldIsSound(setup: Setup, store: Option<string>, worlds: seq<World>,
      steps: seq<Taken>, i: nat)
    requires IsRun(setup, store, worlds, steps) && i < |worlds|
    ensures Inv(setup.link, worlds[i])
  {
    if i > 0 {
      EveryWorldIsSound(setup, store, worlds, steps, i - 1);
      var before := i - 1;
      assert Enabled(worlds[before], steps[before].step);
      StepKeeps(setup, worlds[before], steps[before].step, steps[before].nonce);
    }
  }
}
