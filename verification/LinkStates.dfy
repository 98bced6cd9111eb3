/** When the machine enters each state, asks for each action and changes each field: then and at no other time. */
module LinkStates {
  import opened Prelude
  import opened Names
  import opened Diffs
  import opened Reconnect
  import opened Link
  import opened LinkTheorems
  import Proof

  // ---------------------------------------------------------------- states

  /** What suggests that it is worth trying again. */
  predicate Nudges(e: Event) {
    e == RetryTimerFired || e == UserAskedToRetry || e == SystemDidWake || e == MenuWillOpen
  }

  predicate TriesToConnect(m: Machine, e: Event) {
    (m.state.Idle? && e == Start) || (m.state.Retrying? && Nudges(e)) || RetriedByHand(m, e)
  }

  predicate HearsHello(m: Machine, e: Event) {
    m.state.Connecting? && e.Received? && e.message.Hello?
  }

  /** A hello of another schema. */
  predicate IsAlien(m: Machine, e: Event) {
    HearsHello(m, e) && e.message.schema != Proof.SCHEMA
  }

  /** No proof: a hello without a key, no answer in time, or one that does not convince. */
  ghost predicate GoesUnproven(cfg: Config, m: Machine, e: Event) {
    || (HearsHello(m, e) && e.message.schema == Proof.SCHEMA && e.message.publicKey == None)
    || (m.state.Proving? && e == AuthTimedOut)
    || (m.state.Proving? && e.Received? && e.message.Auth? && !Convincing(cfg, m, e.message.nonce, e.message.signature))
  }

  ghost predicate GoesLive(cfg: Config, m: Machine, e: Event) {
    m.state.Proving? && e.Received? && e.message.Auth? && Convincing(cfg, m, e.message.nonce, e.message.signature)
  }

  /** A connection ends, and this is why. */
  predicate EndsFor(m: Machine, e: Event, reason: Disconnection) {
    || (m.state.Connecting? && e.ConnectFailed? && reason == ReasonFor(e.code))
    || (m.state.Connecting? && e.PublisherNotRoot? && reason == NotRoot(e.uid, e.found))
    || ((m.state.Connecting? || m.state.Proving?) && (e == EndOfStream || e == StreamFailed) && reason == Rejected)
    || (m.state.Live? && (e == EndOfStream || e == StreamFailed) && reason == Lost)
    || (m.state.Live? && e == Received(Bye) && reason == Goodbye)
  }

  /** The errors of connect(2) by their numbers on this system, ENOENT, ECONNREFUSED, EACCES and EPERM. */
  lemma ReasonsByTheirNumber(code: int)
    ensures ReasonFor(2) == NotRunning && ReasonFor(61) == Refused
    ensures ReasonFor(13) == NotPermitted && ReasonFor(1) == NotPermitted
    ensures code !in {1, 2, 13, 61} ==> ReasonFor(code) == Failed(code)
  {
  }

  predicate ShowsView(m: Machine, e: Event) {
    m.state.Live? && e.Received? && e.message.State?
  }

  /** The machine went from one state to another exactly as it should. */
  ghost predicate EntersRightly(cfg: Config, m: Machine, e: Event, m': Machine, reason: Disconnection) {
    && (m'.state.Idle? <==> e == Stop || (m.state.Idle? && e != Start))
    && (m'.state.Connecting? && !m.state.Connecting? <==> TriesToConnect(m, e))
    && (m'.state.Proving? && !m.state.Proving? <==> AcceptsHello(m, e))
    && (m'.state.Live? && !m.state.Live? <==> GoesLive(cfg, m, e))
    && (m'.state.Blocked? && !m.state.Blocked? <==> IsAlien(m, e))
    && (m'.state.Unproven? && !m.state.Unproven? <==> GoesUnproven(cfg, m, e))
    && (m'.state == Retrying(reason) && !m.state.Retrying? <==> EndsFor(m, e, reason))
  }

  lemma MessagesEnterRightly(cfg: Config, m: Machine, message: Message, nonce: Bytes, reason: Disconnection)
    ensures EntersRightly(cfg, m, Received(message), Handled(cfg, m, Received(message), nonce).0, reason)
  {
    if message.Auth? {
      ProvesExactlyWhenConvincing(cfg, m, message.nonce, message.signature);
    }
  }

  /** Told by the connection that it is over. */
  predicate TellsOfTheEnd(e: Event) {
    e.ConnectFailed? || e.PublisherNotRoot? || e == EndOfStream || e == StreamFailed
  }

  lemma EndingsEnterRightly(cfg: Config, m: Machine, e: Event, nonce: Bytes, reason: Disconnection)
    requires TellsOfTheEnd(e)
    ensures EntersRightly(cfg, m, e, Handled(cfg, m, e, nonce).0, reason)
  {
  }

  lemma NudgesEnterRightly(cfg: Config, m: Machine, e: Event, nonce: Bytes, reason: Disconnection)
    requires Nudges(e)
    ensures EntersRightly(cfg, m, e, Handled(cfg, m, e, nonce).0, reason)
  {
  }

  lemma OtherEventsEnterRightly(cfg: Config, m: Machine, e: Event, nonce: Bytes, reason: Disconnection)
    requires !e.Received? && !TellsOfTheEnd(e) && !Nudges(e)
    ensures EntersRightly(cfg, m, e, Handled(cfg, m, e, nonce).0, reason)
  {
  }

  /** Whatever happens in whatever state: each state is entered exactly when it should be. */
  lemma EveryStateIsEnteredExactlyWhen(cfg: Config, m: Machine, e: Event, nonce: Bytes, reason: Disconnection)
    ensures EntersRightly(cfg, m, e, Handled(cfg, m, e, nonce).0, reason)
  {
    if e.Received? {
      MessagesEnterRightly(cfg, m, e.message, nonce, reason);
    } else if TellsOfTheEnd(e) {
      EndingsEnterRightly(cfg, m, e, nonce, reason);
    } else if Nudges(e) {
      NudgesEnterRightly(cfg, m, e, nonce, reason);
    } else {
      OtherEventsEnterRightly(cfg, m, e, nonce, reason);
    }
  }

  /** What a state records when it is entered, and that it stays what it is otherwise. */
  lemma StatesRecordTheirCause(cfg: Config, m: Machine, e: Event, nonce: Bytes)
    ensures var (m', _) := Handled(cfg, m, e, nonce);
      && (IsAlien(m, e) ==> m'.state == Blocked(e.message.schema))
      && (GoesUnproven(cfg, m, e) ==> m'.state == Unproven(m.pinnedKey, m'.publisherKey))
      && (GoesLive(cfg, m, e) ==> m'.state == Live(m.pending.Some?))
      && (ShowsView(m, e) ==> m'.state == Live(true))
      && (e != Stop && !TriesToConnect(m, e) && !AcceptsHello(m, e) && !GoesLive(cfg, m, e) && !IsAlien(m, e)
          && !GoesUnproven(cfg, m, e) && !ShowsView(m, e) && (forall reason :: !EndsFor(m, e, reason)) ==>
            m'.state == m.state)
  {
    if e.Received? && e.message.Auth? {
      ProvesExactlyWhenConvincing(cfg, m, e.message.nonce, e.message.signature);
    }
    if e.ConnectFailed? {
      assert m.state.Connecting? ==> EndsFor(m, e, ReasonFor(e.code));
    } else if e.PublisherNotRoot? {
      assert m.state.Connecting? ==> EndsFor(m, e, NotRoot(e.uid, e.found));
    } else {
      assert m.state.Live? && e == Received(Bye) ==> EndsFor(m, e, Goodbye);
      assert m.state.Live? && (e == EndOfStream || e == StreamFailed) ==> EndsFor(m, e, Lost);
      assert (m.state.Connecting? || m.state.Proving?) && (e == EndOfStream || e == StreamFailed) ==>
        EndsFor(m, e, Rejected);
    }
  }

  // ---------------------------------------------------------------- actions

  /** When each action is asked for. */
  ghost predicate Asks(cfg: Config, m: Machine, e: Event, nonce: Bytes, a: Action) {
    match a
    case Connect => TriesToConnect(m, e)
    case CloseConnection => e == Stop || IsAlien(m, e) || GoesUnproven(cfg, m, e) || EndsFor(m, e, Goodbye)
    case ScheduleRetry(delay) => exists reason :: EndsFor(m, e, reason) && delay == Delay(reason, m.attempt)
    case CancelRetry => e == Stop || (m.state.Retrying? && Nudges(e))
    case ScheduleAuthTimeout(delay) => AcceptsHello(m, e) && delay == PROOF_DEADLINE
    case CancelAuthTimeout => m.state.Proving? && e.Received? && e.message.Auth?
    case Pin(key) => GoesLive(cfg, m, e) && m.pinnedKey == None && m.publisherKey == Some(key)
    case Publish(view, diff) =>
      && diff == DiffOf(m.snapshot, view)
      && ((m.state.Live? && e == Received(State(view))) || (GoesLive(cfg, m, e) && m.pending == Some(view)))
    case PublishSample(sample) => m.state.Live? && e == Received(Sampled(sample)) && sample.tunnel in m.watching
    case Send(command) => Says(cfg, m, e, nonce, command)
  }

  /** When each thing is said to the publisher. */
  ghost predicate Says(cfg: Config, m: Machine, e: Event, nonce: Bytes, command: Command) {
    match command
    case Challenge(asked) => AcceptsHello(m, e) && asked == nonce
    case Watch(n) =>
      if m.state.Live? then e == WatchTunnel(n) && n !in m.watching else GoesLive(cfg, m, e) && n in m.watching
    case Unwatch(n) => m.state.Live? && e == WatchNothing && n in m.watching
    case AskPing(target) => m.state.Live? && e == AskForPing(target)
    case Refresh => m.state.Live? && e == MenuWillOpen
  }

  lemma WatchesAreThose(names: set<Name>, a: Action)
    ensures a in Watches(Sorted(names)) <==> a.Send? && a.command.Watch? && a.command.tunnel in names
    ensures a in Unwatches(Sorted(names)) <==> a.Send? && a.command.Unwatch? && a.command.tunnel in names
  {
    var sorted := Sorted(names);
    if a.Send? && (a.command.Watch? || a.command.Unwatch?) && a.command.tunnel in names {
      assert a.command.tunnel in Elements(sorted);
      var i :| 0 <= i < |sorted| && sorted[i] == a.command.tunnel;
      assert a.command.Watch? ==> Watches(sorted)[i] == a;
      assert a.command.Unwatch? ==> Unwatches(sorted)[i] == a;
    }
    assert forall n :: n in sorted ==> n in Elements(sorted);
  }

  /** What an answer to the challenge makes the machine ask for. */
  lemma AnswersAsk(cfg: Config, m: Machine, answered: string, signature: string, nonce: Bytes, a: Action)
    requires m.state == Proving
    ensures a in Handled(cfg, m, Received(Auth(answered, signature)), nonce).1 <==>
      if !Convincing(cfg, m, answered, signature) then a == CloseConnection || a == CancelAuthTimeout
      else
        || a == CancelAuthTimeout || (m.pinnedKey == None && a == Pin(m.publisherKey.value))
        || a in Watches(Sorted(m.watching))
        || (m.pending.Some? && a == Publish(m.pending.value, DiffOf(m.snapshot, m.pending.value)))
  {
    ProvesExactlyWhenConvincing(cfg, m, answered, signature);
  }

  lemma AnswersAskThose(cfg: Config, m: Machine, answered: string, signature: string, nonce: Bytes, a: Action)
    requires m.state == Proving
    ensures var e := Received(Auth(answered, signature));
      a in Handled(cfg, m, e, nonce).1 <==> Asks(cfg, m, e, nonce, a)
  {
    AnswersAsk(cfg, m, answered, signature, nonce, a);
    WatchesAreThose(m.watching, a);
  }

  lemma MessagesAskThose(cfg: Config, m: Machine, message: Message, nonce: Bytes, a: Action)
    requires !(m.state == Proving && message.Auth?)
    ensures a in Handled(cfg, m, Received(message), nonce).1 <==> Asks(cfg, m, Received(message), nonce, a)
  {
    if m.state.Live? && message.Bye? {
      assert EndsFor(m, Received(message), Goodbye);
    }
  }

  lemma EndingsAskThose(cfg: Config, m: Machine, e: Event, nonce: Bytes, a: Action)
    requires TellsOfTheEnd(e)
    ensures a in Handled(cfg, m, e, nonce).1 <==> Asks(cfg, m, e, nonce, a)
  {
    if e.ConnectFailed? {
      assert m.state.Connecting? ==> EndsFor(m, e, ReasonFor(e.code));
    } else if e.PublisherNotRoot? {
      assert m.state.Connecting? ==> EndsFor(m, e, NotRoot(e.uid, e.found));
    } else {
      assert m.state.Live? ==> EndsFor(m, e, Lost);
      assert m.state.Connecting? || m.state.Proving? ==> EndsFor(m, e, Rejected);
    }
  }

  lemma NudgesLeadTo(cfg: Config, m: Machine, e: Event, nonce: Bytes, a: Action)
    requires Nudges(e)
    ensures a in Handled(cfg, m, e, nonce).1 <==>
      || (a == CancelRetry && m.state.Retrying?)
      || (a == Connect && (m.state.Retrying? || RetriedByHand(m, e)))
      || (a == Send(Refresh) && m.state.Live? && e == MenuWillOpen)
  {
  }

  lemma NudgesAsk(cfg: Config, m: Machine, e: Event, nonce: Bytes, a: Action)
    requires Nudges(e)
    ensures Asks(cfg, m, e, nonce, a) <==>
      || (a == CancelRetry && m.state.Retrying?)
      || (a == Connect && (m.state.Retrying? || RetriedByHand(m, e)))
      || (a == Send(Refresh) && m.state.Live? && e == MenuWillOpen)
  {
  }

  lemma OtherEventsAskThose(cfg: Config, m: Machine, e: Event, nonce: Bytes, a: Action)
    requires !e.Received? && !TellsOfTheEnd(e) && !Nudges(e) && e != WatchNothing
    ensures a in Handled(cfg, m, e, nonce).1 <==> Asks(cfg, m, e, nonce, a)
  {
  }

  lemma LettingGoAsksThose(cfg: Config, m: Machine, nonce: Bytes, a: Action)
    ensures a in Handled(cfg, m, WatchNothing, nonce).1 <==> Asks(cfg, m, WatchNothing, nonce, a)
  {
    WatchesAreThose(m.watching, a);
  }

  /** Whatever the machine is asked about, in whatever state: an action is asked for exactly when it should be. */
  lemma EveryActionIsAskedExactlyWhen(cfg: Config, m: Machine, e: Event, nonce: Bytes, a: Action)
    ensures a in Handled(cfg, m, e, nonce).1 <==> Asks(cfg, m, e, nonce, a)
  {
    if e.Received? && e.message.Auth? && m.state == Proving {
      AnswersAskThose(cfg, m, e.message.nonce, e.message.signature, nonce, a);
    } else if e.Received? {
      MessagesAskThose(cfg, m, e.message, nonce, a);
    } else if TellsOfTheEnd(e) {
      EndingsAskThose(cfg, m, e, nonce, a);
    } else if Nudges(e) {
      NudgesLeadTo(cfg, m, e, nonce, a);
      NudgesAsk(cfg, m, e, nonce, a);
    } else if e == WatchNothing {
      LettingGoAsksThose(cfg, m, nonce, a);
    } else {
      OtherEventsAskThose(cfg, m, e, nonce, a);
    }
  }

  /** The view held to be the current one is the last published. */
  lemma TheViewIsWhatIsPublished(cfg: Config, m: Machine, e: Event, nonce: Bytes, view: Snapshot)
    ensures var (m', actions) := Handled(cfg, m, e, nonce);
      && ((exists diff :: Publish(view, diff) in actions) ==> m'.snapshot == Some(view))
      && ((forall v, diff :: Publish(v, diff) !in actions) ==> m'.snapshot == m.snapshot)
  {
    if e.Received? && e.message.Auth? && m.state == Proving && m.pending.Some? {
      AnswersAsk(cfg, m, e.message.nonce, e.message.signature, nonce,
        Publish(m.pending.value, DiffOf(m.snapshot, m.pending.value)));
    }
    if exists diff :: Publish(view, diff) in Handled(cfg, m, e, nonce).1 {
      var diff :| Publish(view, diff) in Handled(cfg, m, e, nonce).1;
      EveryActionIsAskedExactlyWhen(cfg, m, e, nonce, Publish(view, diff));
    }
  }

  // ---------------------------------------------------------------- fields

  /** What is watched is what was asked for and not let go of, whatever state the link is in. */
  lemma WatchingIsWhatWasAsked(cfg: Config, m: Machine, e: Event, nonce: Bytes, n: Name)
    ensures n in Handled(cfg, m, e, nonce).0.watching <==>
      e == WatchTunnel(n) || (n in m.watching && e != WatchNothing)
  {
  }

  /** What is remembered of the publisher, of the question asked and of a view held till it is answered. */
  lemma HandshakeFieldsChangeExactlyWhen(cfg: Config, m: Machine, e: Event, nonce: Bytes)
    ensures var (m', _) := Handled(cfg, m, e, nonce);
      && m'.publisherVersion == (if HearsHello(m, e) then Some(e.message.version) else m.publisherVersion)
      && m'.publisherKey == (if HearsHello(m, e) then e.message.publicKey else m.publisherKey)
      && m'.pinnedKey == (if GoesLive(cfg, m, e) && m.pinnedKey == None then m.publisherKey else m.pinnedKey)
      && m'.challenge
         == (if AcceptsHello(m, e) then Some(nonce) else if GoesLive(cfg, m, e) then None else m.challenge)
      && m'.pending
         == (if m.state.Proving? && e.Received? && e.message.State? then Some(e.message.view)
             else if GoesLive(cfg, m, e) then None else m.pending)
  {
    if e.Received? && e.message.Auth? {
      ProvesExactlyWhenConvincing(cfg, m, e.message.nonce, e.message.signature);
    }
  }

  /** Measurements leave with their tunnels when a view is shown, and otherwise only a round changes them. */
  lemma OnlyRoundsAndViewsChangePings(cfg: Config, m: Machine, e: Event, nonce: Bytes, name: Name)
    requires !(m.state.Live? && e.Received? && e.message.Pings?)
    ensures var (m', _) := Handled(cfg, m, e, nonce);
      var shown := if ShowsView(m, e) then Some(e.message.view) else if GoesLive(cfg, m, e) then m.pending else None;
      && (name in m'.pings <==> name in m.pings && (shown.Some? ==> name in NamesOf(shown.value)))
      && (name in m'.pings ==> m'.pings[name] == m.pings[name])
  {
    if e.Received? && e.message.Auth? {
      ProvesExactlyWhenConvincing(cfg, m, e.message.nonce, e.message.signature);
    }
  }

  /** Each try counts, until a hello is accepted or a person tries a refused link again. */
  lemma AttemptsCountTries(cfg: Config, m: Machine, e: Event, nonce: Bytes)
    ensures Handled(cfg, m, e, nonce).0.attempt
         == if AcceptsHello(m, e) || RetriedByHand(m, e) then 0
            else if m.state.Retrying? && Nudges(e) then m.attempt + 1 else m.attempt
  {
  }

  /** A round of pings heard while live replaces what it names; at any other time it is lost. */
  lemma PingsAreKeptWhileLive(cfg: Config, m: Machine, round: seq<Ping>, nonce: Bytes, name: Name, k: nat)
    ensures var m' := Handled(cfg, m, Received(Pings(round)), nonce).0;
      && (m.state.Live? && LastAbout(round, name, k) ==> name in m'.pings && m'.pings[name] == round[k])
      && (!m.state.Live? || (forall l :: 0 <= l < |round| ==> round[l].tunnel != name) ==>
            (name in m'.pings <==> name in m.pings) && (name in m'.pings ==> m'.pings[name] == m.pings[name]))
  {
    RoundsReplaceWhatTheyName(m.pings, round, name);
  }
}
