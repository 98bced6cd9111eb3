/** The stream a connection carries and what the machine hears of it, over every run. */
module LinkStream {
  import opened Prelude
  import opened Names
  import opened Diffs
  import opened Reconnect
  import opened Link
  import opened Supervisor
  import opened LinkSafety
  import opened LinkTheorems
  import Framing = LineFraming

  // ---------------------------------------------------------------- what arrived on a connection

  /** The chunks that have arrived on the connection of a generation, in order. */
  function ChunksOf(steps: seq<Taken>, i: nat, g: nat): seq<Bytes> {
    if i == 0 || i > |steps| then [] else ChunksOf(steps, i - 1, g) + ChunkOf(steps[i - 1].step, g)
  }

  /** What has arrived for each generation. */
  function ArrivedBy(steps: seq<Taken>, i: nat): nat -> seq<Bytes> {
    (g: nat) => ChunksOf(steps, i, g)
  }

  function ChunkOf(step: Step, g: nat): seq<Bytes> {
    if step.ChunkArrives? && step.g == g then [step.chunk] else []
  }

  lemma {:induction false} DecodedInTwo(decode: Bytes -> Option<Message>, a: seq<Bytes>, b: seq<Bytes>)
    ensures Decoded(decode, a + b) == Decoded(decode, a) + Decoded(decode, b)
  {
    if a == [] {
      assert a + b == b;
    } else {
      assert (a + b)[0] == a[0] && (a + b)[1..] == a[1..] + b;
      DecodedInTwo(decode, a[1..], b);
    }
  }

  // ---------------------------------------------------------------- what actions do to a stream

  ghost predicate KeysKnown(w: World) {
    forall g :: g in w.tasks.readers ==> g <= w.generation
  }

  predicate Dials(w: World, g: nat) {
    g in w.tasks.readers && w.tasks.readers[g] == Dialling
  }

  /** A generation that has just begun: nobody reads for it, or its task is dialling and nothing has been heard. */
  predicate Begins(w: World) {
    w.generation !in w.tasks.readers || (Dials(w, w.generation) && w.log.heard == [])
  }

  /** The generation goes on with the same readers and nothing more heard, or another has begun. */
  ghost predicate Onward(w: World, v: World) {
    && v.generation >= w.generation
    && (v.generation == w.generation ==> v.tasks.readers == w.tasks.readers && v.log.heard == w.log.heard)
    && (v.generation > w.generation ==> Begins(v))
    && (forall g: nat :: Dials(v, g) ==> g > w.generation || Dials(w, g))
  }

  lemma {:induction false} ActionsGoOnward(w: World, actions: seq<Action>)
    requires KeysKnown(w)
    ensures KeysKnown(PerformedAll(w, actions)) && Onward(w, PerformedAll(w, actions))
    decreases |actions|
  {
    if actions != [] {
      var u := Performed(w, actions[0]);
      assert KeysKnown(u) && Onward(w, u);
      ActionsGoOnward(u, actions[1..]);
    }
  }

  lemma EventGoesOnward(cfg: Config, w: World, e: Event, nonce: Bytes)
    requires KeysKnown(w) && !e.Received?
    ensures Onward(w, Dispatched(cfg, w, e, nonce))
  {
    var (m, actions) := Handled(cfg, w.machine, e, nonce);
    ActionsGoOnward(Moved(w, m, e), actions);
  }

  /** Without a new connection the readers stay as they are. */
  lemma {:induction false} ReadersStay(w: World, actions: seq<Action>)
    requires Connect !in actions
    ensures var v := PerformedAll(w, actions);
      v.tasks.readers == w.tasks.readers && v.log.heard == w.log.heard && v.generation >= w.generation
    decreases |actions|
  {
    if actions != [] {
      ReadersStay(Performed(w, actions[0]), actions[1..]);
    }
  }

  lemma OneThenTheRest(heard: seq<Message>, messages: seq<Message>)
    requires messages != []
    ensures heard + [messages[0]] + messages[1..] == heard + messages
  {
  }

  lemma OneMessageIsHeard(cfg: Config, w: World, message: Message, nonce: Bytes)
    ensures var v := Dispatched(cfg, w, Received(message), nonce);
      && v.tasks.readers == w.tasks.readers && v.log.heard == w.log.heard + [message] && v.generation >= w.generation
      && v.machine == Handled(cfg, w.machine, Received(message), nonce).0
  {
    var (m, actions) := Handled(cfg, w.machine, Received(message), nonce);
    MessagesOnlyClose(cfg, w.machine, message, nonce);
    ReadersStay(Moved(w, m, Received(message)), actions);
    MachineLeftAlone(Moved(w, m, Received(message)), m, actions);
  }

  /** Messages are heard one after the other, whether or not one of them closes the connection. */
  lemma {:induction false} MessagesAreHeard(cfg: Config, w: World, messages: seq<Message>, nonce: Bytes)
    ensures var v := DispatchedAll(cfg, w, messages, nonce);
      v.tasks.readers == w.tasks.readers && v.log.heard == w.log.heard + messages && v.generation >= w.generation
    decreases |messages|
  {
    if messages != [] {
      var next := Dispatched(cfg, w, Received(messages[0]), nonce);
      OneMessageIsHeard(cfg, w, messages[0], nonce);
      MessagesAreHeard(cfg, next, messages[1..], nonce);
      OneThenTheRest(w.log.heard, messages);
    }
  }

  // ---------------------------------------------------------------- every run

  /** No chunk has arrived for a generation to come, nor for one still dialling. */
  ghost predicate NothingEarly(w: World, arrived: nat -> seq<Bytes>) {
    forall g: nat :: g > w.generation || Dials(w, g) ==> arrived(g) == []
  }

  /** The framer of the current connection has read its chunks, and what it made of them has been heard. */
  ghost predicate InTune(setup: Setup, w: World, chunks: seq<Bytes>) {
    && (Dials(w, w.generation) ==> w.log.heard == [])
    && (Listening(w) ==>
          && w.tasks.readers[w.generation].framer == Framing.PushedAll(setup.limit, chunks).0
          && w.log.heard == Decoded(setup.decode, Framing.PushedAll(setup.limit, chunks).1))
  }

  ghost predicate StreamOk(setup: Setup, w: World, arrived: nat -> seq<Bytes>) {
    NothingEarly(w, arrived) && InTune(setup, w, arrived(w.generation))
  }

  lemma OnwardStaysOk(setup: Setup, w: World, v: World, arrived: nat -> seq<Bytes>)
    requires StreamOk(setup, w, arrived) && Onward(w, v)
    ensures StreamOk(setup, v, arrived)
  {
  }

  lemma EndingStaysOk(setup: Setup, w: World, g: nat, arrived: nat -> seq<Bytes>)
    requires StreamOk(setup, w, arrived)
    ensures StreamOk(setup, Ends(w, g), arrived)
  {
    assert forall h: nat :: Dials(Ends(w, g), h) ==> Dials(w, h);
  }

  lemma ServingStaysOk(setup: Setup, w: World, arrived: nat -> seq<Bytes>)
    requires StreamOk(setup, w, arrived) && Dials(w, w.generation)
    ensures StreamOk(setup, Served(w, w.generation), arrived)
  {
    assert forall h: nat :: Dials(Served(w, w.generation), h) ==> Dials(w, h);
    assert arrived(w.generation) == [];
  }

  lemma DialStaysOk(setup: Setup, w: World, g: nat, outcome: Outcome, nonce: Bytes, arrived: nat -> seq<Bytes>)
    requires StreamOk(setup, w, arrived) && KeysKnown(w) && Dials(w, g)
    ensures StreamOk(setup, DialReturned(setup.link, w, g, outcome, nonce), arrived)
  {
    if outcome == Arrived && g == w.generation {
      ServingStaysOk(setup, w, arrived);
    } else {
      var v := if outcome == CancelledError then w
        else if g != w.generation then (if outcome == Arrived then Discarded(w, g) else w)
        else Dispatched(setup.link, w, DialEvent(outcome), nonce);
      EventGoesOnward(setup.link, w, DialEvent(outcome), nonce);
      OnwardStaysOk(setup, w, v, arrived);
      EndingStaysOk(setup, v, g, arrived);
    }
  }

  lemma ChunkStaysInTune(setup: Setup, w: World, chunk: Bytes, nonce: Bytes, before: seq<Bytes>)
    requires KeysKnown(w) && Listening(w) && InTune(setup, w, before)
    ensures var v := ChunkArrived(setup, w, w.generation, chunk, nonce);
      && v.generation >= w.generation
      && (forall g: nat :: Dials(v, g) ==> Dials(w, g))
      && (v.generation == w.generation ==> InTune(setup, v, before + [chunk]))
      && (v.generation > w.generation ==> v.generation !in v.tasks.readers)
  {
    var (framer, lines) := Framing.Pushed(w.tasks.readers[w.generation].framer, setup.limit, chunk);
    var framed := Framed(w, w.generation, framer);
    MessagesAreHeard(setup.link, framed, Decoded(setup.decode, lines), nonce);
    assert (before + [chunk])[..|before|] == before;
    DecodedInTwo(setup.decode, Framing.PushedAll(setup.limit, before).1, lines);
  }

  lemma ChunkStaysOk(setup: Setup, w: World, g: nat, chunk: Bytes, nonce: Bytes, arrived: nat -> seq<Bytes>,
      later: nat -> seq<Bytes>)
    requires StreamOk(setup, w, arrived) && KeysKnown(w) && g in w.tasks.readers && w.tasks.readers[g].Reading?
    requires forall h: nat :: later(h) == arrived(h) + if h == g then [chunk] else []
    ensures StreamOk(setup, ChunkArrived(setup, w, g, chunk, nonce), later)
  {
    var v := ChunkArrived(setup, w, g, chunk, nonce);
    if g == w.generation {
      ChunkStaysInTune(setup, w, chunk, nonce, arrived(g));
    } else {
      assert forall h: nat :: Dials(v, h) ==> Dials(w, h);
      assert later(w.generation) == arrived(w.generation);
    }
    assert forall h: nat :: h != g && arrived(h) == [] ==> later(h) == [];
  }

  lemma NextStaysOk(setup: Setup, w: World, step: Step, nonce: Bytes, arrived: nat -> seq<Bytes>)
    requires StreamOk(setup, w, arrived) && KeysKnown(w) && Enabled(w, step) && !step.ChunkArrives?
    ensures StreamOk(setup, Next(setup, w, step, nonce), arrived)
  {
    var cfg := setup.link;
    match step
    case UserActs(e) =>
      EventGoesOnward(cfg, w, e, nonce);
      OnwardStaysOk(setup, w, Next(setup, w, step, nonce), arrived);
    case KeyForgotten =>
      EventGoesOnward(cfg, Forgotten(w), UserAskedToRetry, nonce);
      OnwardStaysOk(setup, w, Next(setup, w, step, nonce), arrived);
    case TimerFires(t) =>
      var e := if w.tasks.timers[t].RetryTimer? then RetryTimerFired else AuthTimedOut;
      EventGoesOnward(cfg, TimerGone(w, t), e, nonce);
      OnwardStaysOk(setup, w, Next(setup, w, step, nonce), arrived);
    case DialReturns(g, outcome) => DialStaysOk(setup, w, g, outcome, nonce, arrived);
    case StreamEnds(g, how) =>
      var e := if how == Clean then EndOfStream else StreamFailed;
      var v := if how == StreamCancelled || g != w.generation then w else Dispatched(cfg, w, e, nonce);
      EventGoesOnward(cfg, w, e, nonce);
      OnwardStaysOk(setup, w, v, arrived);
      EndingStaysOk(setup, v, g, arrived);
  }

  lemma NothingMoreArrives(setup: Setup, w: World, arrived: nat -> seq<Bytes>, later: nat -> seq<Bytes>)
    requires StreamOk(setup, w, arrived) && forall g: nat :: later(g) == arrived(g)
    ensures StreamOk(setup, w, later)
  {
    assert later(w.generation) == arrived(w.generation);
  }

  lemma ArrivesNext(steps: seq<Taken>, i: nat)
    requires i < |steps|
    ensures forall g: nat :: ArrivedBy(steps, i + 1)(g) == ArrivedBy(steps, i)(g) + ChunkOf(steps[i].step, g)
  {
  }

  lemma {:induction false} EveryStreamIsOk(setup: Setup, store: Option<string>, worlds: seq<World>, steps: seq<Taken>,
      i: nat)
    requires IsRun(setup, store, worlds, steps) && i < |worlds|
    ensures StreamOk(setup, worlds[i], ArrivedBy(steps, i))
  {
    if i > 0 {
      EveryStreamIsOk(setup, store, worlds, steps, i - 1);
      EveryWorldIsSound(setup, store, worlds, steps, i - 1);
      ArrivesNext(steps, i - 1);
      StepStaysOk(setup, worlds[i - 1], steps[i - 1], ArrivedBy(steps, i - 1), ArrivedBy(steps, i));
    }
  }

  lemma StepStaysOk(setup: Setup, w: World, taken: Taken, arrived: nat -> seq<Bytes>, later: nat -> seq<Bytes>)
    requires StreamOk(setup, w, arrived) && KeysKnown(w) && Enabled(w, taken.step)
    requires forall g: nat :: later(g) == arrived(g) + ChunkOf(taken.step, g)
    ensures StreamOk(setup, Next(setup, w, taken.step, taken.nonce), later)
  {
    if taken.step.ChunkArrives? {
      ChunkStaysOk(setup, w, taken.step.g, taken.step.chunk, taken.nonce, arrived, later);
    } else {
      NextStaysOk(setup, w, taken.step, taken.nonce, arrived);
      NothingMoreArrives(setup, Next(setup, w, taken.step, taken.nonce), arrived, later);
    }
  }

  /**
   In every run, while a connection is being read, the messages heard on it are exactly those its lines
   decode to, in order: the lines that the framer makes of all the chunks that have arrived on it.
   */
  lemma HeardIsWhatArrived(setup: Setup, store: Option<string>, worlds: seq<World>, steps: seq<Taken>, i: nat)
    requires IsRun(setup, store, worlds, steps) && i < |worlds| && Listening(worlds[i])
    ensures worlds[i].log.heard
         == Decoded(setup.decode, Framing.PushedAll(setup.limit, ChunksOf(steps, i, worlds[i].generation)).1)
  {
    EveryStreamIsOk(setup, store, worlds, steps, i);
  }

  /** So how the stream was cut makes no difference where no line of it is over the limit. */
  lemma HeardHangsOnNoCuts(setup: Setup, store: Option<string>, worlds: seq<World>, steps: seq<Taken>, i: nat)
    requires IsRun(setup, store, worlds, steps) && i < |worlds| && Listening(worlds[i])
    requires var stream := Framing.Concat(ChunksOf(steps, i, worlds[i].generation));
      forall line :: line in Framing.Complete(stream) ==> |line| <= setup.limit
    ensures var stream := Framing.Concat(ChunksOf(steps, i, worlds[i].generation));
      worlds[i].log.heard == Decoded(setup.decode, Framing.NonEmpty(Framing.Complete(stream)))
  {
    HeardIsWhatArrived(setup, store, worlds, steps, i);
    Framing.ChunkingDoesNotMatter(setup.limit, ChunksOf(steps, i, worlds[i].generation));
  }

  // ---------------------------------------------------------------- the view on show

  /** What was heard after the first hello; views that come before it are not looked at. */
  function SinceHello(heard: seq<Message>): seq<Message> {
    if heard == [] then [] else if heard[0].Hello? then heard[1..] else SinceHello(heard[1..])
  }

  predicate HasHello(heard: seq<Message>) {
    exists k :: 0 <= k < |heard| && heard[k].Hello?
  }

  lemma {:induction false} OneMoreSinceHello(heard: seq<Message>, message: Message)
    ensures HasHello(heard + [message]) <==> HasHello(heard) || message.Hello?
    ensures SinceHello(heard + [message]) == if HasHello(heard) then SinceHello(heard) + [message] else []
  {
    var more := heard + [message];
    if heard != [] {
      assert more[0] == heard[0] && more[1..] == heard[1..] + [message];
      OneMoreSinceHello(heard[1..], message);
      assert HasHello(heard) <==> heard[0].Hello? || HasHello(heard[1..]) by {
        assert forall k :: 1 <= k < |heard| ==> heard[k] == heard[1..][k - 1];
      }
      assert HasHello(more) <==> more[0].Hello? || HasHello(more[1..]) by {
        assert forall k :: 1 <= k < |more| ==> more[k] == more[1..][k - 1];
      }
    } else {
      assert more[0] == message && more[1..] == [];
    }
  }

  /** What the machine holds, or shows, is the last view there was, and it heard hello before either. */
  predicate Follows(m: Machine, greeted: bool, last: Option<Snapshot>) {
    && (m.state.Connecting? ==> !greeted)
    && (m.state.Proving? ==> greeted && (last.Some? ==> m.pending == last))
    && (m.state.Live? ==> greeted && (last.Some? ==> m.snapshot == last))
  }

  predicate UpToDate(m: Machine, heard: seq<Message>) {
    Follows(m, HasHello(heard), LastView(SinceHello(heard)))
  }

  lemma MessageIsFollowed(cfg: Config, m: Machine, message: Message, nonce: Bytes, greeted: bool,
      last: Option<Snapshot>)
    requires Follows(m, greeted, last)
    ensures Follows(Handled(cfg, m, Received(message), nonce).0, greeted || message.Hello?,
              if !greeted then None else if message.State? then Some(message.view) else last)
  {
  }

  lemma LastViewOfOneMore(messages: seq<Message>, message: Message)
    ensures LastView(messages + [message]) == if message.State? then Some(message.view) else LastView(messages)
  {
    assert (messages + [message])[..|messages|] == messages;
  }

  lemma MessageKeepsUpToDate(cfg: Config, m: Machine, heard: seq<Message>, message: Message, nonce: Bytes)
    requires UpToDate(m, heard)
    ensures UpToDate(Handled(cfg, m, Received(message), nonce).0, heard + [message])
  {
    OneMoreSinceHello(heard, message);
    LastViewOfOneMore(SinceHello(heard), message);
    MessageIsFollowed(cfg, m, message, nonce, HasHello(heard), LastView(SinceHello(heard)));
  }

  lemma {:induction false} MessagesKeepUpToDate(cfg: Config, w: World, messages: seq<Message>, nonce: Bytes)
    requires UpToDate(w.machine, w.log.heard)
    ensures var v := DispatchedAll(cfg, w, messages, nonce); UpToDate(v.machine, v.log.heard)
    decreases |messages|
  {
    if messages != [] {
      OneMessageIsHeard(cfg, w, messages[0], nonce);
      MessageKeepsUpToDate(cfg, w.machine, w.log.heard, messages[0], nonce);
      MessagesKeepUpToDate(cfg, Dispatched(cfg, w, Received(messages[0]), nonce), messages[1..], nonce);
    }
  }

  /** Connecting anew forgets what was heard; any other event that is no message leaves it. */
  lemma EventsHearNothing(cfg: Config, w: World, e: Event, nonce: Bytes)
    requires !e.Received?
    ensures var v := Dispatched(cfg, w, e, nonce);
      && v.machine == Handled(cfg, w.machine, e, nonce).0
      && v.log.heard == if v.machine.state.Connecting? && !w.machine.state.Connecting? then [] else w.log.heard
  {
    var (m, actions) := Handled(cfg, w.machine, e, nonce);
    var moved := Moved(w, m, e);
    MachineLeftAlone(moved, m, actions);
    if m.state.Connecting? && !w.machine.state.Connecting? {
      PerformedOne(moved, Connect);
      PerformedTwo(moved, CancelRetry, Connect);
      assert actions == [Connect] || actions == [CancelRetry, Connect];
    } else {
      NoConnecting(cfg, w.machine, e, nonce);
      ReadersStay(moved, actions);
    }
  }

  lemma NoConnecting(cfg: Config, m: Machine, e: Event, nonce: Bytes)
    requires !e.Received?
    ensures var (m', actions) := Handled(cfg, m, e, nonce);
      Connect in actions ==> m'.state.Connecting? && !m.state.Connecting?
  {
  }

  lemma EventKeepsUpToDate(cfg: Config, w: World, e: Event, nonce: Bytes)
    requires UpToDate(w.machine, w.log.heard) && !e.Received?
    ensures var v := Dispatched(cfg, w, e, nonce); UpToDate(v.machine, v.log.heard)
  {
    EventsHearNothing(cfg, w, e, nonce);
  }

  lemma StepKeepsUpToDate(setup: Setup, w: World, step: Step, nonce: Bytes)
    requires UpToDate(w.machine, w.log.heard) && Enabled(w, step)
    ensures var v := Next(setup, w, step, nonce); UpToDate(v.machine, v.log.heard)
  {
    var cfg := setup.link;
    match step
    case UserActs(e) => EventKeepsUpToDate(cfg, w, e, nonce);
    case KeyForgotten => EventKeepsUpToDate(cfg, Forgotten(w), UserAskedToRetry, nonce);
    case TimerFires(t) =>
      var e := if w.tasks.timers[t].RetryTimer? then RetryTimerFired else AuthTimedOut;
      EventKeepsUpToDate(cfg, TimerGone(w, t), e, nonce);
    case DialReturns(g, outcome) => EventKeepsUpToDate(cfg, w, DialEvent(outcome), nonce);
    case ChunkArrives(g, chunk) =>
      if g == w.generation {
        var (framer, lines) := Framing.Pushed(w.tasks.readers[g].framer, setup.limit, chunk);
        MessagesKeepUpToDate(cfg, Framed(w, g, framer), Decoded(setup.decode, lines), nonce);
      }
    case StreamEnds(g, how) => EventKeepsUpToDate(cfg, w, if how == Clean then EndOfStream else StreamFailed, nonce);
  }

  lemma {:induction false} EveryWorldIsUpToDate(setup: Setup, store: Option<string>, worlds: seq<World>,
      steps: seq<Taken>, i: nat)
    requires IsRun(setup, store, worlds, steps) && i < |worlds|
    ensures UpToDate(worlds[i].machine, worlds[i].log.heard)
  {
    if i > 0 {
      EveryWorldIsUpToDate(setup, store, worlds, steps, i - 1);
      StepKeepsUpToDate(setup, worlds[i - 1], steps[i - 1].step, steps[i - 1].nonce);
    }
  }

  /** In every run a live link shows the last view heard since the hello, as soon as there is one. */
  lemma LiveShowsTheLatestView(setup: Setup, store: Option<string>, worlds: seq<World>, steps: seq<Taken>, i: nat)
    requires IsRun(setup, store, worlds, steps) && i < |worlds| && worlds[i].machine.state.Live?
    requires LastView(SinceHello(worlds[i].log.heard)).Some?
    ensures worlds[i].machine.snapshot == LastView(SinceHello(worlds[i].log.heard))
  {
    EveryWorldIsUpToDate(setup, store, worlds, steps, i);
  }

  // ---------------------------------------------------------------- what becomes of a connection that ends

  /** Why a dial that brought no connection is tried again. */
  function FailedFor(outcome: Outcome): Disconnection {
    match outcome
    case CouldNotConnect(code) => ReasonFor(code)
    case FoundNotRoot(uid, found) => NotRoot(uid, found)
    case _ => Rejected
  }

  predicate DialLeadsOn(w: World, v: World, g: nat, outcome: Outcome) {
    g == w.generation && outcome != Arrived && outcome != CancelledError ==>
      v.machine.state == Retrying(FailedFor(outcome))
  }

  predicate EndLeadsOn(w: World, v: World, g: nat, how: StreamEnd) {
    g == w.generation && how != StreamCancelled ==>
      v.machine.state == Retrying(if w.machine.state.Live? then Lost else Rejected)
  }

  predicate TimerLeadsOn(w: World, v: World, timer: Timer) {
    if timer.RetryTimer? then v.machine == w.machine.(state := Connecting, attempt := w.machine.attempt + 1)
    else w.machine.state.Proving? ==> v.machine.state == Unproven(w.machine.pinnedKey, w.machine.publisherKey)
  }

  /** A step that nobody asked for leads where it should. */
  predicate LeadsOn(w: World, v: World, step: Step)
    requires Enabled(w, step)
  {
    match step
    case DialReturns(g, outcome) => DialLeadsOn(w, v, g, outcome)
    case StreamEnds(g, how) => EndLeadsOn(w, v, g, how)
    case TimerFires(t) => TimerLeadsOn(w, v, w.tasks.timers[t])
    case KeyForgotten => v.store == None && v.machine.pinnedKey == None && !v.machine.state.Unproven?
    case _ => true
  }

  /**
   At every point of a run: a dial of the current generation that brings no connection is tried again for
   the reason it failed, a stream of it that ends for having been lost or refused, a retry that is due is
   a new attempt, and a deadline that passes while proving leaves the link unproven; forgetting the key
   forgets it in the store too, and tries again.
   */
  lemma EndingsLeadWhereTheyShould(setup: Setup, store: Option<string>, worlds: seq<World>, steps: seq<Taken>, i: nat)
    requires IsRun(setup, store, worlds, steps) && i < |steps|
    ensures LeadsOn(worlds[i], worlds[i + 1], steps[i].step)
  {
    EveryWorldIsSound(setup, store, worlds, steps, i);
    StepLeadsOn(setup, worlds[i], steps[i].step, steps[i].nonce);
  }

  lemma StepLeadsOn(setup: Setup, w: World, step: Step, nonce: Bytes)
    requires LinkSafety.Inv(setup.link, w) && Enabled(w, step)
    ensures LeadsOn(w, Next(setup, w, step, nonce), step)
  {
    var cfg := setup.link;
    match step
    case DialReturns(g, outcome) => EventsHearNothing(cfg, w, DialEvent(outcome), nonce);
    case StreamEnds(g, how) => EventsHearNothing(cfg, w, if how == Clean then EndOfStream else StreamFailed, nonce);
    case TimerFires(t) => TimerStepLeadsOn(cfg, w, t, nonce);
    case KeyForgotten => ForgettingLeadsOn(cfg, w, nonce);
    case _ =>
  }

  lemma TimerStepLeadsOn(cfg: Config, w: World, t: nat, nonce: Bytes)
    requires LinkSafety.Inv(cfg, w) && t in w.tasks.timers
    ensures TimerLeadsOn(w, TimerFired(cfg, w, t, nonce), w.tasks.timers[t])
  {
    var e := if w.tasks.timers[t].RetryTimer? then RetryTimerFired else AuthTimedOut;
    EventsHearNothing(cfg, TimerGone(w, t), e, nonce);
  }

  lemma ForgettingLeadsOn(cfg: Config, w: World, nonce: Bytes)
    ensures var v := Dispatched(cfg, Forgotten(w), UserAskedToRetry, nonce);
      v.store == None && v.machine.pinnedKey == None && !v.machine.state.Unproven?
  {
    var (m, actions) := Handled(cfg, Forgotten(w).machine, UserAskedToRetry, nonce);
    EventsHearNothing(cfg, Forgotten(w), UserAskedToRetry, nonce);
    StoreLeftAlone(Moved(Forgotten(w), m, UserAskedToRetry), actions);
  }

  lemma {:induction false} StoreLeftAlone(w: World, actions: seq<Action>)
    requires forall key :: Pin(key) !in actions
    ensures PerformedAll(w, actions).store == w.store
    decreases |actions|
  {
    if actions != [] {
      StoreLeftAlone(Performed(w, actions[0]), actions[1..]);
    }
  }
}
