/** The two ends of the feed joined: what a client says, handled by the publisher it talks to. */
module Handshake {
  import opened Prelude
  import opened Names
  import Proof
  import L = Link
  import F = Feed
  import S = LinkSafety
  import T = LinkTheorems
  import W = Supervisor
  import FeedSteps
  import FS = FeedSafety
  import FO = FeedOrder
  import FP = FeedProgress

  /** What the publisher reads when a client says something. */
  function Line(lib: Proof.Library, command: L.Command): F.ClientMessage {
    match command
    case Refresh => F.RefreshMsg
    case Watch(tunnel) => F.WatchMsg(tunnel)
    case Unwatch(tunnel) => F.UnwatchMsg(tunnel)
    case AskPing(target) => F.PingRequest(if target.Some? then target.value else "")
    case Challenge(nonce) => F.ChallengeMsg(lib.encode(nonce))
  }

  /** What a client hears when it is greeted. */
  function Greeting(setup: F.Setup): L.Message {
    L.Hello(Proof.SCHEMA, setup.version, Proof.PublicKey(setup.lib, setup.feedKey))
  }

  /** A publisher with a key, on the path this client dials, speaking through the same libraries. */
  ghost predicate Honest(cfg: L.Config, setup: F.Setup) {
    && Proof.Lawful(cfg.lib) && setup.lib == cfg.lib
    && setup.path == cfg.socketPath
    && Proof.PublicKey(setup.lib, setup.feedKey).Some?
  }

  // ---------------------------------------------------------------- being proved to

  /** The answer an honest publisher gives, whatever else it is doing, to a client it has not answered yet. */
  lemma HonestPublisherAnswers(cfg: L.Config, setup: F.Setup, s: F.Server, c: nat, nonce: Bytes,
      now: F.Time) returns (signature: string)
    requires Honest(cfg, setup) && |nonce| == Proof.NONCE_LEN && now != 0
    requires F.At(s, c).lastChallenge == 0
    ensures var encoded := setup.lib.encode(nonce);
      && F.LineHandled(setup, s, c, Line(setup.lib, L.Challenge(nonce))) == F.Then(s, [F.AllowChallenge(c, encoded)])
      && F.ChallengeAllowed(setup, s, c, encoded, now).next == [F.SendTo(c, F.AuthMsg(encoded, signature))]
      && Proof.Holds(cfg.lib, Proof.PublicKey(setup.lib, setup.feedKey).value, signature, nonce, Proof.SCHEMA,
        setup.version, cfg.socketPath)
  {
    var lib := setup.lib;
    assert lib.goDecode(lib.encode(nonce)) == Some(nonce);
    Proof.HonestAnswerHolds(lib, setup.feedKey, setup.version, setup.path, nonce);
    signature := Proof.Answer(lib, setup.feedKey, setup.version, setup.path, lib.encode(nonce)).value;
  }

  /** Whether a signature verifies under the key a client has pinned, where it has pinned one. */
  ghost predicate Convinces(cfg: L.Config, setup: F.Setup, pinned: Option<string>, signature: string, nonce: Bytes) {
    pinned.Some? ==>
      Proof.SignedUnder(cfg.lib, pinned.value, signature,
        Proof.Message(Proof.SCHEMA, setup.version, cfg.socketPath, nonce))
  }

  /**
   A client that dials an honest publisher, is greeted, asks, hears any views meanwhile and then the
   answer, trusts it exactly when the answer holds under the key it has pinned; so always when nothing
   is pinned or the publisher's own key is.
   */
  lemma HonestPublisherIsAccepted(
      cfg: L.Config, setup: F.Setup, s: F.Server, c: nat, m: L.Machine, meanwhile: seq<L.Message>, nonce: Bytes,
      now: F.Time)
      returns (signature: string)
    requires Honest(cfg, setup) && |nonce| == Proof.NONCE_LEN && now != 0
    requires m.state == L.Connecting && F.At(s, c).lastChallenge == 0
    requires forall message :: message in meanwhile ==> !message.Auth?
    ensures var (greeted, asked) := L.Handled(cfg, m, L.Received(Greeting(setup)), nonce);
      asked[0] == L.Send(L.Challenge(nonce))
    ensures F.ChallengeAllowed(setup, s, c, setup.lib.encode(nonce), now).next
         == [F.SendTo(c, F.AuthMsg(setup.lib.encode(nonce), signature))]
    ensures var greeted := L.Handled(cfg, m, L.Received(Greeting(setup)), nonce).0;
      var proving := T.HeardAll(cfg, greeted, meanwhile, nonce);
      var settled := L.Handled(cfg, proving, L.Received(L.Auth(setup.lib.encode(nonce), signature)), nonce).0;
      && (settled.state.Live? <==> Convinces(cfg, setup, m.pinnedKey, signature, nonce))
      && (m.pinnedKey == None || m.pinnedKey == Proof.PublicKey(setup.lib, setup.feedKey) ==> settled.state.Live?)
      && (settled.state.Live? && m.pinnedKey == None ==> settled.pinnedKey == Proof.PublicKey(setup.lib, setup.feedKey))
  {
    signature := HonestPublisherAnswers(cfg, setup, s, c, nonce, now);
    var greeted := L.Handled(cfg, m, L.Received(Greeting(setup)), nonce).0;
    T.HeldWhileProving(cfg, greeted, meanwhile, nonce);
    var proving := T.HeardAll(cfg, greeted, meanwhile, nonce);
    T.OnlyProofOpensTheLink(cfg, proving, L.Received(L.Auth(setup.lib.encode(nonce), signature)), nonce);
    Proof.HoldsExactlyWhenSigned(cfg.lib, Proof.PublicKey(setup.lib, setup.feedKey).value, signature, nonce,
      Proof.SCHEMA, setup.version, cfg.socketPath);
    assert cfg.lib.swiftDecode(cfg.lib.encode(nonce)) == Some(nonce);
  }

  /**
   While proving, an answer made by the publisher whose key is in force opens the link if and only if it
   was made on the path dialled, by the version announced and for the nonce asked, and says so; made
   anywhere or at any time else, and relayed or replayed by whoever is at the other end, it closes the
   connection and leaves the link unproven.
   */
  lemma RelayedAnswersAreRefused(cfg: L.Config, m: L.Machine, seed: string, version: Bytes, path: Bytes,
      encoded: string, answered: string, nonce: Bytes)
    requires Proof.Lawful(cfg.lib) && Proof.Binding(cfg.lib)
    requires m.state == L.Proving && m.challenge.Some? && m.publisherKey.Some? && m.publisherVersion.Some?
    requires Proof.Answer(cfg.lib, seed, version, path, encoded).Some?
    requires T.KeyInForce(m) == Proof.PublicKey(cfg.lib, seed)
    requires Proof.SEPARATOR !in version && Proof.SEPARATOR !in path
    requires Proof.SEPARATOR !in m.publisherVersion.value && Proof.SEPARATOR !in cfg.socketPath
    ensures var signature := Proof.Answer(cfg.lib, seed, version, path, encoded).value;
      var (settled, actions) := L.Handled(cfg, m, L.Received(L.Auth(answered, signature)), nonce);
      && (settled.state.Live? <==>
            && path == cfg.socketPath && version == m.publisherVersion.value
            && Proof.Nonce(cfg.lib, encoded) == m.challenge && cfg.lib.swiftDecode(answered) == m.challenge)
      && (!settled.state.Live? ==>
            && settled == m.(state := L.Unproven(m.pinnedKey, m.publisherKey))
            && actions == [L.CloseConnection, L.CancelAuthTimeout])
  {
    var signature := Proof.Answer(cfg.lib, seed, version, path, encoded).value;
    Proof.AnswersHoldExactlyWhereMade(cfg.lib, seed, version, path, encoded, m.publisherVersion.value, cfg.socketPath,
      m.challenge.value);
    Proof.HoldsExactlyWhenSigned(cfg.lib, T.KeyInForce(m).value, signature, m.challenge.value, Proof.SCHEMA,
      m.publisherVersion.value, cfg.socketPath);
    T.OnlyProofOpensTheLink(cfg, m, L.Received(L.Auth(answered, signature)), nonce);
    if !T.Convincing(cfg, m, answered, signature) {
      T.AnyOtherAnswerIsRefused(cfg, m, answered, signature, nonce);
    }
  }

  // ---------------------------------------------------------------- what is watched, at both ends

  /** A line the publisher handled for a client, and the view it knew then. */
  datatype HandledLine = HandledLine(line: F.ClientMessage, view: Option<F.View>)

  /** What handling a line leaves of the names a client watches. */
  function WatchStep(held: set<Name>, handled: HandledLine): set<Name> {
    match handled.line
    case WatchMsg(tunnel) =>
      if tunnel != "" && (handled.view.Some? ==> tunnel in handled.view.value.names) && |held| < F.MAX_WATCH
      then held + {tunnel}
      else held
    case UnwatchMsg(tunnel) => held - {tunnel}
    case _ => held
  }

  function WatchedAfter(handled: seq<HandledLine>): set<Name> {
    if handled == [] then {} else WatchStep(WatchedAfter(handled[..|handled| - 1]), handled[|handled| - 1])
  }

  lemma LineWatches(setup: F.Setup, s: F.Server, c: nat, line: F.ClientMessage)
    requires c < |s.all|
    ensures F.At(F.LineHandled(setup, s, c, line).server, c).watch
      == WatchStep(F.At(s, c).watch, HandledLine(line, s.view))
  {
  }

  /** The line a step of a run handles for a client, if it does. */
  ghost function HandledNow(y: F.System, e: F.Event, c: nat): Option<HandledLine> {
    if e.Step? && e.t < |y.threads| && y.threads[e.t] != [] then
      var task := y.threads[e.t][0];
      if task.Handle? && task.c == c then Some(HandledLine(task.line, y.server.view)) else None
    else None
  }

  /** The lines handled at some points, in order. */
  function Collected(parts: seq<Option<HandledLine>>, i: nat): seq<HandledLine>
    requires i <= |parts|
  {
    if i == 0 then []
    else Collected(parts, i - 1) + if parts[i - 1].Some? then [parts[i - 1].value] else []
  }

  ghost function HandledAt(systems: seq<F.System>, events: seq<F.Event>, c: nat): seq<Option<HandledLine>>
    requires |systems| == |events| + 1
  {
    seq(|events|, k requires 0 <= k < |events| => HandledNow(systems[k], events[k], c))
  }

  /** Every line a run has handled for a client. */
  ghost function HandledBy(systems: seq<F.System>, events: seq<F.Event>, i: nat, c: nat): seq<HandledLine>
    requires i < |systems| == |events| + 1
  {
    Collected(HandledAt(systems, events, c), i)
  }

  lemma OthersWatchNothing(setup: F.Setup, s: F.Server, p: multiset<F.Task>, task: F.Task, o: F.Oracle, c: nat)
    requires FS.QueuesOk(s, p) && task in p && !(task.Handle? && task.c == c)
    ensures F.At(F.EffectOf(setup, s, task, o).server, c).watch == F.At(s, c).watch
  {
    if FeedSteps.OfClient(task) {
      assert task.SayBye? ==> FS.Owed(s, task.c) == 1;
      FeedSteps.ClientStepsOnlyClient(setup, s, task, o);
    } else if FeedSteps.OfNobody(task) {
      FeedSteps.NobodyChanges(setup, s, task, o);
    }
  }

  function StepIf(held: set<Name>, handled: Option<HandledLine>): set<Name> {
    if handled.Some? then WatchStep(held, handled.value) else held
  }

  lemma NextWatches(setup: F.Setup, y: F.System, e: F.Event, c: nat)
    requires FS.Sound(setup, y) && F.Enabled(y, e) && (HandledNow(y, e, c).Some? ==> c < |y.server.all|)
    ensures F.At(F.Next(setup, y, e).server, c).watch == StepIf(F.At(y.server, c).watch, HandledNow(y, e, c))
  {
    if e.Step? {
      var task := y.threads[e.t][0];
      FeedSteps.StepIsPending(y.threads, e.t);
      if task.Handle? && task.c == c {
        LineWatches(setup, y.server, c, task.line);
      } else {
        OthersWatchNothing(setup, y.server, FeedSteps.Pending(y.threads), task, e.o, c);
      }
    }
  }

  lemma OneMoreHandled(parts: seq<Option<HandledLine>>, i: nat)
    requires 0 < i <= |parts|
    ensures WatchedAfter(Collected(parts, i)) == StepIf(WatchedAfter(Collected(parts, i - 1)), parts[i - 1])
  {
    var before := Collected(parts, i - 1);
    if parts[i - 1].Some? {
      assert (before + [parts[i - 1].value])[..|before|] == before;
    } else {
      assert Collected(parts, i) == before;
    }
  }

  /** Lines are handled for clients there have been. */
  lemma HandledIsKnown(setup: F.Setup, systems: seq<F.System>, events: seq<F.Event>, k: nat, c: nat)
    requires F.IsRun(setup, systems, events) && k < |events| && HandledNow(systems[k], events[k], c).Some?
    ensures c < |systems[k].server.all|
  {
    FO.NobodyIsServedEarly(setup, systems, events, k);
    FeedSteps.StepIsPending(systems[k].threads, events[k].t);
  }

  lemma RunWatches(setup: F.Setup, systems: seq<F.System>, events: seq<F.Event>, k: nat, c: nat)
    requires F.IsRun(setup, systems, events) && k < |events|
    ensures F.At(systems[k + 1].server, c).watch
         == StepIf(F.At(systems[k].server, c).watch, HandledNow(systems[k], events[k], c))
  {
    if HandledNow(systems[k], events[k], c).Some? {
      HandledIsKnown(setup, systems, events, k, c);
    }
    FS.EverySystemIsSound(setup, systems, events, k);
    FP.RunGoesOn(setup, systems, events, k);
    NextWatches(setup, systems[k], events[k], c);
  }

  /** In every run a client watches exactly what handling its lines, one after the other, leaves. */
  lemma {:induction false} WatchedIsWhatWasHandled(setup: F.Setup, systems: seq<F.System>, events: seq<F.Event>,
      i: nat, c: nat)
    requires F.IsRun(setup, systems, events) && i < |systems|
    ensures F.At(systems[i].server, c).watch == WatchedAfter(HandledBy(systems, events, i, c))
  {
    if i > 0 {
      WatchedIsWhatWasHandled(setup, systems, events, i - 1, c);
      RunWatches(setup, systems, events, i - 1, c);
      OneMoreHandled(HandledAt(systems, events, c), i);
    }
  }

  // ---------------------------------------------------------------- the two sets compared

  /** Whether these are the lines of what was said, handled in order under some views. */
  predicate AreLinesOf(lib: Proof.Library, handled: seq<HandledLine>, said: seq<L.Command>) {
    |handled| == |said| && forall k :: 0 <= k < |said| ==> handled[k].line == Line(lib, said[k])
  }

  /** What saying one thing makes of the names watched. */
  function SayStep(held: set<Name>, command: L.Command): set<Name> {
    match command
    case Watch(tunnel) => held + {tunnel}
    case Unwatch(tunnel) => held - {tunnel}
    case _ => held
  }

  lemma SaidOneMore(said: seq<L.Command>, i: nat)
    requires i < |said|
    ensures S.Replayed(said[..i + 1]) == SayStep(S.Replayed(said[..i]), said[i])
  {
    assert said[..i + 1][..i] == said[..i];
  }

  lemma HandledOneMore(handled: seq<HandledLine>, i: nat)
    requires i < |handled|
    ensures WatchedAfter(handled[..i + 1]) == WatchStep(WatchedAfter(handled[..i]), handled[i])
  {
    assert handled[..i + 1][..i] == handled[..i];
  }

  /** Whether the publisher can take one thing said: a new name must be one it shows, and there must be room. */
  predicate CanTake(held: set<Name>, command: L.Command, view: Option<F.View>) {
    command.Watch? && command.tunnel !in held ==>
      && command.tunnel != ""
      && (view.Some? ==> command.tunnel in view.value.names)
      && |held| < F.MAX_WATCH
  }

  lemma OneLineAgrees(lib: Proof.Library, held: set<Name>, command: L.Command, view: Option<F.View>)
    ensures WatchStep(held, HandledLine(Line(lib, command), view)) == SayStep(held, command)
       <==> CanTake(held, command, view)
  {
    if command.Watch? {
      assert command.tunnel in SayStep(held, command);
      assert command.tunnel in held ==> held + {command.tunnel} == held;
    }
  }

  ghost predicate Fits(said: seq<L.Command>, handled: seq<HandledLine>, i: nat)
    requires |said| == |handled| && i < |said|
  {
    CanTake(S.Replayed(said[..i]), said[i], handled[i].view)
  }

  /** One line: from the same set, the two ends go on to the same set exactly when the line fits. */
  lemma LineKeepsAgreement(lib: Proof.Library, said: seq<L.Command>, handled: seq<HandledLine>, i: nat)
    requires AreLinesOf(lib, handled, said) && i < |said|
    requires WatchedAfter(handled[..i]) == S.Replayed(said[..i])
    ensures WatchedAfter(handled[..i + 1]) == S.Replayed(said[..i + 1]) <==> Fits(said, handled, i)
  {
    SaidOneMore(said, i);
    HandledOneMore(handled, i);
    OneLineAgrees(lib, S.Replayed(said[..i]), said[i], handled[i].view);
    assert handled[i] == HandledLine(Line(lib, said[i]), handled[i].view);
  }

  lemma {:induction false} AgreeingWhileItFits(lib: Proof.Library, said: seq<L.Command>, handled: seq<HandledLine>,
      i: nat)
    requires AreLinesOf(lib, handled, said) && i <= |said|
    requires forall k: nat :: k < i ==> Fits(said, handled, k)
    ensures WatchedAfter(handled[..i]) == S.Replayed(said[..i])
  {
    if i > 0 {
      AgreeingWhileItFits(lib, said, handled, i - 1);
      LineKeepsAgreement(lib, said, handled, i - 1);
    }
  }

  /**
   Handled in order, what a client says leaves the publisher's set for it, line after line, what replaying
   those lines gives, exactly when every name it newly watches is one the publisher can take: not empty,
   in the view of the moment where there is one, and with at most 64 names held.
   */
  lemma BothEndsAgreeExactlyWhenLinesFit(lib: Proof.Library, said: seq<L.Command>, handled: seq<HandledLine>)
    requires AreLinesOf(lib, handled, said)
    ensures (forall i: nat :: i <= |said| ==> WatchedAfter(handled[..i]) == S.Replayed(said[..i]))
       <==> (forall i: nat :: i < |said| ==> Fits(said, handled, i))
  {
    if forall i: nat :: i < |said| ==> Fits(said, handled, i) {
      forall i: nat | i <= |said|
        ensures WatchedAfter(handled[..i]) == S.Replayed(said[..i])
      {
        AgreeingWhileItFits(lib, said, handled, i);
      }
    }
    if forall i: nat :: i <= |said| ==> WatchedAfter(handled[..i]) == S.Replayed(said[..i]) {
      forall i: nat | i < |said|
        ensures Fits(said, handled, i)
      {
        LineKeepsAgreement(lib, said, handled, i);
      }
    }
  }

  /**
   The two programs together: at a point of a run of the supervisor where the link is live, and a point
   of a run of the publisher where it has handled for a client exactly the lines said on this connection,
   the client is watching there what the machine is watching here, whenever those lines fit.
   */
  lemma LiveWatchesReachThePublisher(
      linkSetup: W.Setup, store: Option<string>, worlds: seq<W.World>, steps: seq<S.Taken>, j: nat,
      setup: F.Setup, systems: seq<F.System>, events: seq<F.Event>, i: nat, c: nat)
    requires S.IsRun(linkSetup, store, worlds, steps) && j < |worlds| && worlds[j].machine.state.Live?
    requires F.IsRun(setup, systems, events) && i < |systems|
    requires AreLinesOf(setup.lib, HandledBy(systems, events, i, c), worlds[j].log.said)
    requires forall k: nat :: k < |worlds[j].log.said| ==> Fits(worlds[j].log.said, HandledBy(systems, events, i, c), k)
    ensures F.At(systems[i].server, c).watch == worlds[j].machine.watching
  {
    var said, handled := worlds[j].log.said, HandledBy(systems, events, i, c);
    S.EveryWorldIsSound(linkSetup, store, worlds, steps, j);
    WatchedIsWhatWasHandled(setup, systems, events, i, c);
    AgreeingWhileItFits(setup.lib, said, handled, |said|);
    assert said[..|said|] == said && handled[..|said|] == handled;
  }
}
