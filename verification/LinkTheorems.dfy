/** What a person can rely on about the link, drawn from the invariants of every run. */
module LinkTheorems {
  import opened Prelude
  import opened Names
  import opened Diffs
  import opened Reconnect
  import opened Link
  import opened Supervisor
  import opened LinkSafety
  import Framing = LineFraming
  import Proof

  // ---------------------------------------------------------------- nothing gets stuck

  /** Nothing but a person moves the link on from here. */
  predicate WaitsForAPerson(m: Machine) {
    m.state.Idle? || m.state.Blocked? || m.state.Unproven?
  }

  predicate ByItself(step: Step) {
    !step.UserActs? && !step.KeyForgotten?
  }

  /**
   In every run a retry timer, due between 250 ms and 30 s, is armed exactly while retrying, and only one;
   while proving, the deadline armed at this entry is there, and is the only timer of any kind.
   */
  lemma TimersMatchTheState(setup: Setup, store: Option<string>, worlds: seq<World>, steps: seq<Taken>, i: nat)
    requires IsRun(setup, store, worlds, steps) && i < |worlds|
    ensures var w := worlds[i];
      && (w.machine.state.Retrying? <==> exists t :: t in w.tasks.timers && w.tasks.timers[t].RetryTimer?)
      && (forall t :: t in w.tasks.timers && w.tasks.timers[t].RetryTimer? ==>
            w.retry == Some(t) && 250 <= w.tasks.timers[t].delay <= CEILING)
      && (w.machine.state.Proving? ==>
            && w.proof.Some? && w.proof.value in w.tasks.timers
            && forall t :: t in w.tasks.timers ==>
                 w.proof == Some(t) && w.tasks.timers[t] == ProofTimer(w.generation, PROOF_DEADLINE))
  {
    EveryWorldIsSound(setup, store, worlds, steps, i);
  }

  /** What happens next without anybody's help in each state that is not waiting for a person. */
  function NextByItself(w: World): Step {
    if w.machine.state.Retrying? && w.retry.Some? then TimerFires(w.retry.value)
    else if w.machine.state.Proving? && w.proof.Some? then TimerFires(w.proof.value)
    else if Listening(w) then StreamEnds(w.generation, Broken)
    else DialReturns(w.generation, OtherError)
  }

  /**
   At every point of a run, outside idle, blocked and unproven there is always something of the program's
   own left to happen that moves the link; in those three, nothing of its own ever does.
   */
  lemma OnlyThreeStatesWait(setup: Setup, store: Option<string>, worlds: seq<World>, steps: seq<Taken>, i: nat,
      step: Step, nonce: Bytes)
    requires IsRun(setup, store, worlds, steps) && i < |worlds|
    ensures var w := worlds[i]; !WaitsForAPerson(w.machine) ==>
      && ByItself(NextByItself(w)) && Enabled(w, NextByItself(w))
      && Next(setup, w, NextByItself(w), nonce).machine.state != w.machine.state
    ensures var w := worlds[i]; WaitsForAPerson(w.machine) && ByItself(step) && Enabled(w, step) ==>
      Next(setup, w, step, nonce).machine == w.machine && Next(setup, w, step, nonce).log == w.log
  {
    EveryWorldIsSound(setup, store, worlds, steps, i);
    if !WaitsForAPerson(worlds[i].machine) {
      MovesByItself(setup, worlds[i], nonce);
    } else if ByItself(step) && Enabled(worlds[i], step) {
      WaitingIgnoresTheRest(setup, worlds[i], step, nonce);
    }
  }

  lemma MovesByItself(setup: Setup, w: World, nonce: Bytes)
    requires Inv(setup.link, w) && !WaitsForAPerson(w.machine)
    ensures ByItself(NextByItself(w)) && Enabled(w, NextByItself(w))
    ensures Next(setup, w, NextByItself(w), nonce).machine.state != w.machine.state
  {
    var cfg := setup.link;
    if w.machine.state.Retrying? {
      RetryTimerKeeps(cfg, w, w.retry.value, nonce);
    } else if w.machine.state.Proving? {
      var gone := TimerGone(w, w.proof.value);
      var m := w.machine.(state := Unproven(w.machine.pinnedKey, w.machine.publisherKey));
      PerformedOne(Moved(gone, m, AuthTimedOut), CloseConnection);
    } else {
      var (m, actions) := Handled(cfg, w.machine, StreamFailed, nonce);
      PerformedOne(Moved(w, m, StreamFailed), actions[0]);
    }
  }

  lemma WaitingIgnoresTheRest(setup: Setup, w: World, step: Step, nonce: Bytes)
    requires Inv(setup.link, w) && WaitsForAPerson(w.machine) && ByItself(step) && Enabled(w, step)
    ensures Next(setup, w, step, nonce).machine == w.machine && Next(setup, w, step, nonce).log == w.log
  {
    if step.TimerFires? {
      NothingHappens(setup.link, TimerGone(w, step.t), AuthTimedOut, nonce);
    }
  }

  // ---------------------------------------------------------------- stale connections

  /**
   Whatever arrives for a connection of another generation changes neither the machine nor what is said,
   shown or armed.
   */
  lemma StaleConnectionsAreUnheard(setup: Setup, w: World, step: Step, nonce: Bytes)
    requires Enabled(w, step)
    requires (step.DialReturns? || step.ChunkArrives? || step.StreamEnds?) && step.g != w.generation
    ensures var w' := Next(setup, w, step, nonce);
      && w' == w.(tasks := w'.tasks)
      && w'.tasks
        == w.tasks.(readers := w.tasks.readers - {step.g}, fetched := w'.tasks.fetched, closed := w'.tasks.closed)
      && w'.tasks.fetched - w'.tasks.closed <= w.tasks.fetched - w.tasks.closed
  {
  }

  lemma {:induction false} GenerationHolds(w: World, actions: seq<Action>)
    requires Connect !in actions && CloseConnection !in actions
    ensures PerformedAll(w, actions).generation == w.generation
    decreases |actions|
  {
    if actions != [] {
      GenerationHolds(Performed(w, actions[0]), actions[1..]);
    }
  }

  /** A message opens no connection, and one that closes the connection leaves the link deaf. */
  lemma MessagesOnlyClose(cfg: Config, m: Machine, message: Message, nonce: Bytes)
    ensures var (m', actions) := Handled(cfg, m, Received(message), nonce);
      && Connect !in actions
      && (CloseConnection in actions ==> !Running(m'))
      && (!Running(m) ==> m' == m && actions == [])
  {
  }

  /**
   The lines of one chunk are dispatched without looking at the generation again. That is sound:
   after any number of them the generation is still the reader's, or the link is deaf and the next
   line changes nothing and asks for nothing.
   */
  lemma {:induction false} MidChunkLinesAreSafe(cfg: Config, w: World, messages: seq<Message>, nonce: Bytes, k: nat)
    requires k < |messages|
    ensures var s := DispatchedAll(cfg, w, messages[..k], nonce);
      s.generation == w.generation || Handled(cfg, s.machine, Received(messages[k]), nonce) == (s.machine, [])
    decreases |messages|
  {
    if k > 0 {
      var (m, actions) := Handled(cfg, w.machine, Received(messages[0]), nonce);
      var next := Dispatched(cfg, w, Received(messages[0]), nonce);
      MessagesOnlyClose(cfg, w.machine, messages[0], nonce);
      assert messages[..k][0] == messages[0] && messages[..k][1..] == messages[1..][..k - 1];
      if CloseConnection in actions {
        MachineLeftAlone(Moved(w, m, Received(messages[0])), m, actions);
        DeafStaysDeaf(cfg, next, messages[1..][..k - 1], nonce);
        MessagesOnlyClose(cfg, m, messages[k], nonce);
      } else {
        GenerationHolds(Moved(w, m, Received(messages[0])), actions);
        MidChunkLinesAreSafe(cfg, next, messages[1..], nonce, k - 1);
      }
    }
  }

  lemma {:induction false} DeafStaysDeaf(cfg: Config, w: World, messages: seq<Message>, nonce: Bytes)
    requires !Running(w.machine)
    ensures DispatchedAll(cfg, w, messages, nonce).machine == w.machine
    decreases |messages|
  {
    if messages != [] {
      MessagesOnlyClose(cfg, w.machine, messages[0], nonce);
      DeafStaysDeaf(cfg, Dispatched(cfg, w, Received(messages[0]), nonce), messages[1..], nonce);
    }
  }

  // ---------------------------------------------------------------- proof before publication

  predicate NeedsTrust(a: Action) {
    a.Publish? || a.PublishSample? || (a.Send? && !a.command.Challenge?)
  }

  /** Views and samples are published, and everything but the challenge is sent, only by a link that is live. */
  lemma OnlyLiveLinksPublish(cfg: Config, m: Machine, e: Event, nonce: Bytes)
    ensures var (m', actions) := Handled(cfg, m, e, nonce);
      forall a :: a in actions && NeedsTrust(a) ==> m'.state.Live?
  {
  }

  /** The key an answer must verify under: the pinned one, or with none pinned the one offered. */
  function KeyInForce(m: Machine): Option<string> {
    if m.pinnedKey.Some? then m.pinnedKey else m.publisherKey
  }

  /** What the machine takes the publisher to have signed. */
  function Believed(cfg: Config, m: Machine, asked: Bytes): Bytes {
    var version := if m.publisherVersion.Some? then m.publisherVersion.value else [];
    Proof.Message(Proof.SCHEMA, version, cfg.socketPath, asked)
  }

  /** An answer to the question asked here whose signature verifies, under the key in force, over that message. */
  ghost predicate Convincing(cfg: Config, m: Machine, answered: string, signature: string) {
    && m.challenge.Some? && m.publisherKey.Some?
    && cfg.lib.swiftDecode(answered) == m.challenge
    && Proof.SignedUnder(cfg.lib, KeyInForce(m).value, signature, Believed(cfg, m, m.challenge.value))
  }

  lemma ProvesExactlyWhenConvincing(cfg: Config, m: Machine, answered: string, signature: string)
    ensures Proves(cfg, m.challenge, m.publisherKey, m.pinnedKey, m.publisherVersion, answered, signature)
       <==> Convincing(cfg, m, answered, signature)
  {
    if m.challenge.Some? && m.publisherKey.Some? {
      Proof.HoldsExactlyWhenSigned(cfg.lib, KeyInForce(m).value, signature, m.challenge.value, Proof.SCHEMA,
        if m.publisherVersion.Some? then m.publisherVersion.value else [], cfg.socketPath);
    }
  }

  /** The one way in: an answer, while proving, that convinces. */
  lemma OnlyProofOpensTheLink(cfg: Config, m: Machine, e: Event, nonce: Bytes)
    ensures var (m', _) := Handled(cfg, m, e, nonce);
      !m.state.Live? && m'.state.Live? <==>
        && m.state == Proving && e.Received? && e.message.Auth?
        && Convincing(cfg, m, e.message.nonce, e.message.signature)
  {
    if e.Received? && e.message.Auth? {
      ProvesExactlyWhenConvincing(cfg, m, e.message.nonce, e.message.signature);
    }
  }

  /** Any other answer closes the connection: nothing is pinned, shown or sent, and only a person tries again. */
  lemma AnyOtherAnswerIsRefused(cfg: Config, m: Machine, answered: string, signature: string, nonce: Bytes)
    requires m.state == Proving && !Convincing(cfg, m, answered, signature)
    ensures Handled(cfg, m, Received(Auth(answered, signature)), nonce)
         == (m.(state := Unproven(m.pinnedKey, m.publisherKey)), [CloseConnection, CancelAuthTimeout])
  {
    ProvesExactlyWhenConvincing(cfg, m, answered, signature);
  }

  /** On this connection: a hello at i, then at j an answer to the question asked here that verifies under a key. */
  ghost predicate Vouched(cfg: Config, log: Log, key: string, i: nat, j: nat) {
    && i < j < |log.heard|
    && log.heard[i].Hello? && log.heard[i].schema == Proof.SCHEMA && log.heard[i].publicKey.Some?
    && log.said != [] && log.said[0].Challenge?
    && log.heard[j].Auth? && cfg.lib.swiftDecode(log.heard[j].nonce) == Some(log.said[0].nonce)
    && Proof.SignedUnder(cfg.lib, key, log.heard[j].signature,
         Proof.Message(Proof.SCHEMA, log.heard[i].version, cfg.socketPath, log.said[0].nonce))
  }

  lemma LiveIsVouchedFor(cfg: Config, w: World)
    requires Inv(cfg, w) && w.machine.state.Live?
    ensures exists key, i: nat, j: nat ::
      Vouched(cfg, w.log, key, i, j) && (w.machine.pinnedKey == None || w.machine.pinnedKey == Some(key))
  {
    var key, at: nat :| ProvedUnder(cfg, w, key, at);
    var version, offered := w.machine.publisherVersion.value, w.machine.publisherKey.value;
    var i: nat :| i < at && w.log.heard[..at][i] == Hello(Proof.SCHEMA, version, Some(offered));
    assert w.log.heard[i] == w.log.heard[..at][i];
    Proof.HoldsExactlyWhenSigned(cfg.lib, key, w.log.heard[at].signature, w.log.said[0].nonce, Proof.SCHEMA, version,
      cfg.socketPath);
    assert Vouched(cfg, w.log, key, i, at);
  }

  /**
   In every run a link is live only after it heard, on this connection, a hello of this schema with a key,
   and then an answer to this connection's own question.
   */
  lemma LiveMeansProved(setup: Setup, store: Option<string>, worlds: seq<World>, steps: seq<Taken>, k: nat)
    requires IsRun(setup, store, worlds, steps) && k < |worlds| && worlds[k].machine.state.Live?
    ensures var w := worlds[k]; exists key, i: nat, j: nat ::
      Vouched(setup.link, w.log, key, i, j) && (w.machine.pinnedKey == None || w.machine.pinnedKey == Some(key))
  {
    EveryWorldIsSound(setup, store, worlds, steps, k);
    LiveIsVouchedFor(setup.link, worlds[k]);
  }

  // ---------------------------------------------------------------- the pinned key

  /** Pin(k) is asked for exactly when nothing was pinned and now k is; a pinned key is never replaced by an event. */
  lemma PinningIsTrustOnFirstUse(cfg: Config, m: Machine, e: Event, nonce: Bytes)
    ensures var (m', actions) := Handled(cfg, m, e, nonce);
      && (forall k :: Pin(k) in actions <==> m.pinnedKey == None && m'.pinnedKey == Some(k))
      && (m.pinnedKey.Some? ==> m'.pinnedKey == m.pinnedKey)
      && (m'.pinnedKey != m.pinnedKey ==> m'.state.Live? && m'.pinnedKey == m.publisherKey)
  {
    var (m', actions) := Handled(cfg, m, e, nonce);
    if m.state == Proving && e.Received? && e.message.Auth? && m'.state.Live? {
      var offered := m.publisherKey.value;
      if m.pinnedKey == None {
        assert actions[1] == Pin(offered);
      }
    }
  }

  lemma {:induction false} DispatchKeepsPin(cfg: Config, w: World, messages: seq<Message>, nonce: Bytes)
    requires w.machine.pinnedKey.Some?
    ensures DispatchedAll(cfg, w, messages, nonce).machine.pinnedKey == w.machine.pinnedKey
    decreases |messages|
  {
    if messages != [] {
      EventKeepsPin(cfg, w, Received(messages[0]), nonce);
      DispatchKeepsPin(cfg, Dispatched(cfg, w, Received(messages[0]), nonce), messages[1..], nonce);
    }
  }

  lemma EventKeepsPin(cfg: Config, w: World, e: Event, nonce: Bytes)
    requires w.machine.pinnedKey.Some?
    ensures Dispatched(cfg, w, e, nonce).machine.pinnedKey == w.machine.pinnedKey
  {
    var (m, actions) := Handled(cfg, w.machine, e, nonce);
    PinningIsTrustOnFirstUse(cfg, w.machine, e, nonce);
    MachineLeftAlone(Moved(w, m, e), m, actions);
  }

  /** Once a key is pinned, only a person forgetting it changes it. */
  lemma PinnedKeyOutlivesEveryStep(setup: Setup, w: World, step: Step, nonce: Bytes)
    requires Enabled(w, step) && w.machine.pinnedKey.Some? && step != KeyForgotten
    ensures Next(setup, w, step, nonce).machine.pinnedKey == w.machine.pinnedKey
  {
    var cfg := setup.link;
    match step {
      case UserActs(e) => EventKeepsPin(cfg, w, e, nonce);
      case TimerFires(t) =>
        var fired := if w.tasks.timers[t].RetryTimer? then RetryTimerFired else AuthTimedOut;
        EventKeepsPin(cfg, TimerGone(w, t), fired, nonce);
      case DialReturns(g, outcome) => EventKeepsPin(cfg, w, DialEvent(outcome), nonce);
      case ChunkArrives(g, chunk) =>
        if g == w.generation {
          var (framer, lines) := Framing.Pushed(w.tasks.readers[g].framer, setup.limit, chunk);
          DispatchKeepsPin(cfg, Framed(w, g, framer), Decoded(setup.decode, lines), nonce);
        }
      case StreamEnds(g, how) => EventKeepsPin(cfg, w, if how == Clean then EndOfStream else StreamFailed, nonce);
    }
  }

  // ---------------------------------------------------------------- what a run shows

  /**
   In every run, at every point: what the diffs published so far add up to is what the machine last
   showed, the key store agrees with the machine, every connection ever fetched but the one held is
   closed, and while live the watches sent on this connection are those the window wants.
   */
  lemma EveryRun(setup: Setup, store: Option<string>, worlds: seq<World>, steps: seq<Taken>, i: nat)
    requires IsRun(setup, store, worlds, steps) && i < |worlds|
    ensures var w := worlds[i];
      && Accumulated(w.log.diffs) == ShownNames(w.machine.snapshot)
      && w.store == w.machine.pinnedKey
      && (w.tasks.fetched - w.tasks.closed == One(w.connection))
      && (w.machine.state.Live? ==> Replayed(w.log.said) == w.machine.watching)
      && (w.machine.state.Live? && !w.log.carried ==> forall view :: view in w.log.shown ==> State(view) in w.log.heard)
  {
    EveryWorldIsSound(setup, store, worlds, steps, i);
  }

  /** Showing a view keeps no measurement of a tunnel that is not in it. */
  lemma PingsLeaveWithTheirTunnels(m: Machine, view: Snapshot)
    ensures Shown(m, view).0.pings.Keys <= NamesOf(view)
    ensures forall n :: n in m.pings && n in NamesOf(view) ==>
      n in Shown(m, view).0.pings && Shown(m, view).0.pings[n] == m.pings[n]
  {
  }

  /** The last measurement of a round about a tunnel. */
  ghost predicate LastAbout(round: seq<Ping>, name: Name, k: nat) {
    k < |round| && round[k].tunnel == name && forall l :: k < l < |round| ==> round[l].tunnel != name
  }

  /** A round replaces the measurement of each tunnel it names by the last it has of it, and keeps the others. */
  lemma {:induction false} RoundsReplaceWhatTheyName(pings: map<Name, Ping>, round: seq<Ping>, name: Name)
    ensures var merged := Merged(pings, round);
      && (forall k: nat :: LastAbout(round, name, k) ==> name in merged && merged[name] == round[k])
      && ((forall k :: 0 <= k < |round| ==> round[k].tunnel != name) ==>
            (name in merged <==> name in pings) && (name in merged ==> merged[name] == pings[name]))
  {
    if round != [] {
      var n := |round| - 1;
      RoundsReplaceWhatTheyName(pings, round[..n], name);
      forall k: nat | LastAbout(round, name, k) && k < n
        ensures LastAbout(round[..n], name, k)
      {
        assert forall l :: k < l < n ==> round[..n][l] == round[l];
      }
    }
  }

  // ---------------------------------------------------------------- a claim the code does not keep: held views

  /** The machine after several messages. */
  ghost function HeardAll(cfg: Config, m: Machine, messages: seq<Message>, nonce: Bytes): Machine {
    if messages == [] then m
    else Heard(cfg, HeardAll(cfg, m, messages[..|messages| - 1], nonce), messages[|messages| - 1], nonce).0
  }

  function LastView(messages: seq<Message>): Option<Snapshot> {
    if messages == [] then None
    else if messages[|messages| - 1].State? then Some(messages[|messages| - 1].view)
    else LastView(messages[..|messages| - 1])
  }

  lemma {:induction false} HeldWhileProving(cfg: Config, m: Machine, messages: seq<Message>, nonce: Bytes)
    requires m.state == Proving && forall message :: message in messages ==> !message.Auth?
    ensures HeardAll(cfg, m, messages, nonce)
         == m.(pending := if LastView(messages).Some? then LastView(messages) else m.pending)
  {
    if messages != [] {
      var before := messages[..|messages| - 1];
      assert forall message :: message in before ==> message in messages;
      HeldWhileProving(cfg, m, before, nonce);
    }
  }

  lemma {:induction false} LastViewArrived(messages: seq<Message>, view: Snapshot)
    ensures LastView(messages) == Some(view) ==> State(view) in messages
    ensures State(view) in messages ==> LastView(messages).Some?
  {
    if messages != [] {
      var before := messages[..|messages| - 1];
      assert forall message :: message in messages <==> message in before || message == messages[|messages| - 1];
      LastViewArrived(before, view);
    }
  }

  /**
   The first view a connection shows on being trusted arrived on it if and only if, when proving
   began, nothing was held from before, or a view came in before the answer (which replaces what
   was held).
   */
  lemma FirstViewIsItsOwn(cfg: Config, m: Machine, messages: seq<Message>, answered: string, signature: string,
      nonce: Bytes)
    requires m.state == Proving && forall message :: message in messages ==> !message.Auth?
    requires Proves(cfg, m.challenge, m.publisherKey, m.pinnedKey, m.publisherVersion, answered, signature)
    ensures var before := HeardAll(cfg, m, messages, nonce);
      var (_, actions) := Heard(cfg, before, Auth(answered, signature), nonce);
      (forall view, diff :: Publish(view, diff) in actions ==> State(view) in messages)
      <==> m.pending == None || LastView(messages).Some?
  {
    HeldWhileProving(cfg, m, messages, nonce);
    var before := HeardAll(cfg, m, messages, nonce);
    var (after, actions) := Heard(cfg, before, Auth(answered, signature), nonce);
    var greeting := Welcome(before, m.publisherKey.value);
    assert forall a :: a in greeting ==> !a.Publish?;
    match before.pending {
      case None =>
        assert actions == greeting;
      case Some(view) =>
        var published := Shown(Trusted(before, m.publisherKey.value).(pending := None), view).1;
        assert actions == greeting + published;
        assert actions[|greeting|] == published[0];
        LastViewArrived(messages, view);
    }
  }

  // ---------------------------------------------------------------- a claim the code does not keep: attempts

  predicate AcceptsHello(m: Machine, e: Event) {
    m.state == Connecting && e.Received? && e.message.Hello?
      && e.message.schema == Proof.SCHEMA && e.message.publicKey.Some?
  }

  predicate RetriedByHand(m: Machine, e: Event) {
    (m.state.Blocked? || m.state.Unproven?) && e == UserAskedToRetry
  }

  /** Attempts go down exactly on an accepted hello, and on a person retrying a link that was blocked or unproven. */
  lemma AttemptsAreResetInTwoPlaces(cfg: Config, m: Machine, e: Event, nonce: Bytes)
    ensures var (m', _) := Handled(cfg, m, e, nonce);
      m'.attempt < m.attempt <==> m.attempt > 0 && (AcceptsHello(m, e) || RetriedByHand(m, e))
  {
  }
}
