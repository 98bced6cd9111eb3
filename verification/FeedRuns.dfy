/** Runs of the publisher in which what its comments promise does not happen. */
module FeedRuns {
  import opened Prelude
  import opened Names
  import opened Feed
  import opened FeedSteps
  import opened FeedOrder

  const DECIDED: Oracle := Oracle(true, 1, [], None, [])
  const TO_THE_CLIENT: Oracle := Oracle(true, 1, [0], None, [])

  // ---------------------------------------------------------------- building a run

  ghost predicate Follows(setup: Setup, y: System, e: Event, z: System) {
    Enabled(y, e) && Next(setup, y, e) == z
  }

  /** A run goes on by one event. */
  lemma Extended(setup: Setup, systems: seq<System>, events: seq<Event>, e: Event, z: System)
      returns (more: seq<System>, longer: seq<Event>)
    requires IsRun(setup, systems, events) && Follows(setup, systems[|events|], e, z)
    ensures IsRun(setup, more, longer) && more[|longer|] == z
    ensures |longer| == |events| + 1 && systems <= more && longer == events + [e]
  {
    more, longer := systems + [z], events + [e];
  }

  /**
   A publisher with its accept loop, the goroutines there were before its one client came, that client's
   writer and reader, and the goroutines started since.
   */
  function Serving(s: Server, accept: seq<Task>, before: seq<seq<Task>>, writer: seq<Task>,
      since: seq<seq<Task>>): System {
    System(s, [accept, [Shutdown]] + before + [writer, [Read(0)]] + since)
  }

  /** Somebody calls from outside, in a goroutine of its own. */
  lemma Called(setup: Setup, y: System, e: Event, task: Task, z: System)
    requires (e.PublishCalled? && task == Publish(e.view)) || (e.PublishPingsCalled? && task == PublishPings(e.round))
    requires z == System(y.server, y.threads + [[task]])
    ensures Follows(setup, y, e, z)
  {
  }

  /** A goroutine takes a step that starts no other. */
  lemma Stepped(setup: Setup, y: System, t: nat, o: Oracle, e: Effect, z: System)
    requires t < |y.threads| && y.threads[t] != [] && CanStep(y.server, y.threads[t][0], o)
    requires EffectOf(setup, y.server, y.threads[t][0], o) == e && e.started == []
    requires z.server == e.server && |z.threads| == |y.threads|
    requires z.threads[t] == e.next + y.threads[t][1..]
    requires forall q :: 0 <= q < |y.threads| && q != t ==> z.threads[q] == y.threads[q]
    ensures Follows(setup, y, Step(t, o), z)
  {
    assert z.threads == y.threads[t := e.next + y.threads[t][1..]] + [];
  }

  lemma CallerSteps(setup: Setup, s: Server, a: seq<Task>, before: seq<seq<Task>>, w: seq<Task>, since: seq<seq<Task>>,
      t: nat, o: Oracle, e: Effect)
    requires t < |since| && |since[t]| == 1 && CanStep(s, since[t][0], o)
    requires EffectOf(setup, s, since[t][0], o) == e && e.started == []
    ensures Follows(setup, Serving(s, a, before, w, since), Step(4 + |before| + t, o),
              Serving(e.server, a, before, w, since[t := e.next]))
  {
    assert e.next + since[t][1..] == e.next;
    Stepped(setup, Serving(s, a, before, w, since), 4 + |before| + t, o, e,
      Serving(e.server, a, before, w, since[t := e.next]));
  }

  lemma AcceptSteps(setup: Setup, s: Server, a: seq<Task>, before: seq<seq<Task>>, w: seq<Task>, since: seq<seq<Task>>,
      o: Oracle, e: Effect)
    requires a != [] && CanStep(s, a[0], o) && EffectOf(setup, s, a[0], o) == e && e.started == []
    ensures Follows(setup, Serving(s, a, before, w, since), Step(0, o),
              Serving(e.server, e.next + a[1..], before, w, since))
  {
    Stepped(setup, Serving(s, a, before, w, since), 0, o, e, Serving(e.server, e.next + a[1..], before, w, since));
  }

  lemma WriterSteps(setup: Setup, s: Server, a: seq<Task>, before: seq<seq<Task>>, w: seq<Task>, since: seq<seq<Task>>,
      o: Oracle, e: Effect)
    requires |w| == 1 && CanStep(s, w[0], o) && EffectOf(setup, s, w[0], o) == e && e.started == []
    ensures Follows(setup, Serving(s, a, before, w, since), Step(2 + |before|, o),
              Serving(e.server, a, before, e.next, since))
  {
    assert e.next + w[1..] == e.next;
    Stepped(setup, Serving(s, a, before, w, since), 2 + |before|, o, e, Serving(e.server, a, before, e.next, since));
  }

  // ---------------------------------------------------------------- one client, registered

  /** The server with one client, that these messages were queued for. */
  function Holding(view: Option<View>, queue: seq<Message>): Server {
    NEW_SERVER.(view := view, all := [NEW_CLIENT.(queue := queue, queued := queue)], clients := {0})
  }

  /** What is left of greeting a client that was registered while this view was current. */
  function GreetingOf(view: Option<View>): seq<Task> {
    [SendTo(0, HelloMsg)] + (if view.Some? then [SendTo(0, StateMsg(view.value))] else []) + [Accept]
  }

  lemma JoinedQueue(view: Option<View>, queue: seq<Message>, message: Message)
    requires |queue| < SEND_QUEUE
    ensures Sent(Holding(view, queue), 0, message) == Effect(Holding(view, queue + [message]), [], [])
  {
    var s, t := Holding(view, queue), Holding(view, queue + [message]);
    assert s.all[0 := t.all[0]] == t.all;
  }

  lemma PublishedToClient(setup: Setup, was: Option<View>, queue: seq<Message>, view: View)
    ensures CanStep(Holding(was, queue), Publish(view), TO_THE_CLIENT)
    ensures EffectOf(setup, Holding(was, queue), Publish(view), TO_THE_CLIENT)
         == Effect(Holding(Some(view), queue), [SendTo(0, StateMsg(view))], [])
  {
    assert Elements<nat>([0]) == {0};
    assert SendsTo([0], StateMsg(view)) == [SendTo(0, StateMsg(view))];
  }

  lemma PingedClient(setup: Setup, s: Server, round: int)
    requires s.clients == {0}
    ensures CanStep(s, PublishPings(round), TO_THE_CLIENT)
    ensures EffectOf(setup, s, PublishPings(round), TO_THE_CLIENT) == Effect(s, [SendTo(0, PingMsg(round))], [])
  {
    assert Elements<nat>([0]) == {0};
    assert SendsTo([0], PingMsg(round)) == [SendTo(0, PingMsg(round))];
  }

  /** A publisher nobody has connected to yet, with a view that was published or none. */
  lemma Opens(setup: Setup, view: Option<View>)
    returns (systems: seq<System>, events: seq<Event>, before: seq<seq<Task>>)
    ensures IsRun(setup, systems, events) && before == if view.Some? then [[]] else []
    ensures systems[|events|] == System(NEW_SERVER.(view := view), [[Accept], [Shutdown]] + before)
  {
    systems, events, before := [START], [], [];
    assert START.threads == [[Accept], [Shutdown]] + before;
    if view.Some? {
      var published := System(NEW_SERVER, [[Accept], [Shutdown], [Publish(view.value)]]);
      assert START.threads + [[Publish(view.value)]] == published.threads;
      Called(setup, START, PublishCalled(view.value), Publish(view.value), published);
      systems, events := Extended(setup, systems, events, PublishCalled(view.value), published);
      before := [[]];
      var e := Effect(NEW_SERVER.(view := view), [], []);
      assert Elements<nat>([]) == {};
      assert SendsTo([], StateMsg(view.value)) == [];
      var heard := System(e.server, [[Accept], [Shutdown]] + before);
      assert e.next + published.threads[2][1..] == [];
      Stepped(setup, published, 2, DECIDED, e, heard);
      systems, events := Extended(setup, systems, events, Step(2, DECIDED), heard);
    }
  }

  /** A client is accepted and registered. */
  lemma RegistersOne(setup: Setup, view: Option<View>)
    returns (systems: seq<System>, events: seq<Event>, before: seq<seq<Task>>)
    ensures IsRun(setup, systems, events) && before == if view.Some? then [[]] else []
    ensures systems[|events|] == Serving(Holding(view, []), GreetingOf(view), before, [Take(0)], [])
  {
    systems, events, before := Opens(setup, view);
    var s := NEW_SERVER.(view := view);
    var others := [[Shutdown]] + before;
    assert [[Accept], [Shutdown]] + before == [[Accept]] + others;
    var a, b := System(s, [[CheckFull]] + others), System(s, [[Register]] + others);
    assert [CheckFull] + [Accept][1..] == [CheckFull] && [Register] + [CheckFull][1..] == [Register];
    Stepped(setup, systems[|events|], 0, DECIDED, Effect(s, [CheckFull], []), a);
    systems, events := Extended(setup, systems, events, Step(0, DECIDED), a);
    Stepped(setup, a, 0, DECIDED, Effect(s, [Register], []), b);
    systems, events := Extended(setup, systems, events, Step(0, DECIDED), b);
    RegisterStep(setup, view, before);
    systems, events := Extended(setup, systems, events, Step(0, DECIDED),
      Serving(Holding(view, []), GreetingOf(view), before, [Take(0)], []));
  }

  lemma RegisterStep(setup: Setup, view: Option<View>, before: seq<seq<Task>>)
    ensures Follows(setup, System(NEW_SERVER.(view := view), [[Register]] + ([[Shutdown]] + before)), Step(0, DECIDED),
              Serving(Holding(view, []), GreetingOf(view), before, [Take(0)], []))
  {
    var s := NEW_SERVER.(view := view);
    var b := System(s, [[Register]] + ([[Shutdown]] + before));
    var e := Effect(Holding(view, []), GreetingOf(view), [[Take(0)], [Read(0)]]);
    assert e.server.all == [NEW_CLIENT];
    assert e == Registered(s);
    assert e.next + b.threads[0][1..] == GreetingOf(view);
    assert b.threads[0 := e.next + b.threads[0][1..]] + e.started
      == Serving(e.server, GreetingOf(view), before, [Take(0)], []).threads;
  }

  // ---------------------------------------------------------------- an older view last

  /**
   A run in which a client is told a newer view, then greeted, and then told an older one as the last
   it hears: the view it is greeted with was captured when it was registered.
   */
  lemma NewerViewThenHelloThenOlder(setup: Setup, older: View, newer: View)
    returns (systems: seq<System>, events: seq<Event>)
    ensures IsRun(setup, systems, events)
    ensures systems[|events|].server.view == Some(newer)
    ensures At(systems[|events|].server, 0).queued == [StateMsg(newer), HelloMsg, StateMsg(older)]
  {
    var before: seq<seq<Task>>;
    var hello, state := SendTo(0, HelloMsg), SendTo(0, StateMsg(older));
    systems, events, before := RegistersOne(setup, Some(older));
    var w, a := [Take(0)], GreetingOf(Some(older));
    assert a == [hello, state, Accept];
    systems, events := CallsPublish(setup, systems, events, Some(older), [], a, before, w, [], newer);
    systems, events := SendsView(setup, systems, events, Some(older), [], a, before, w, [[Publish(newer)]], 0, newer);
    systems, events :=
      Sends(setup, systems, events, Some(newer), [], a, before, w, [[SendTo(0, StateMsg(newer))]], 0, StateMsg(newer));
    assert [] + [StateMsg(newer)] == [StateMsg(newer)];
    var since := [[SendTo(0, StateMsg(newer))]][0 := []];
    assert a == [hello] + [state, Accept];
    systems, events :=
      Greets(setup, systems, events, Some(newer), [StateMsg(newer)], HelloMsg, [state, Accept], before, w, since);
    assert [StateMsg(newer)] + [HelloMsg] == [StateMsg(newer), HelloMsg];
    assert [state, Accept] == [state] + [Accept];
    systems, events :=
      Greets(setup, systems, events, Some(newer), [StateMsg(newer), HelloMsg], StateMsg(older), [Accept],
      before, w, since);
  }

  /** The accept loop sends the next message of a greeting. */
  lemma Greets(setup: Setup, systems: seq<System>, events: seq<Event>, view: Option<View>, queue: seq<Message>,
      message: Message, rest: seq<Task>, before: seq<seq<Task>>, w: seq<Task>, since: seq<seq<Task>>)
      returns (more: seq<System>, longer: seq<Event>)
    requires IsRun(setup, systems, events) && |queue| < SEND_QUEUE
    requires systems[|events|] == Serving(Holding(view, queue), [SendTo(0, message)] + rest, before, w, since)
    ensures IsRun(setup, more, longer)
    ensures more[|longer|] == Serving(Holding(view, queue + [message]), rest, before, w, since)
  {
    JoinedQueue(view, queue, message);
    var a := [SendTo(0, message)] + rest;
    assert [] + a[1..] == rest;
    AcceptSteps(setup, Holding(view, queue), a, before, w, since, DECIDED,
      Effect(Holding(view, queue + [message]), [], []));
    more, longer := Extended(setup, systems, events, Step(0, DECIDED),
      Serving(Holding(view, queue + [message]), rest, before, w, since));
  }

  lemma CallsPublish(setup: Setup, systems: seq<System>, events: seq<Event>, was: Option<View>, queue: seq<Message>,
      a: seq<Task>, before: seq<seq<Task>>, w: seq<Task>, since: seq<seq<Task>>, view: View)
      returns (more: seq<System>, longer: seq<Event>)
    requires IsRun(setup, systems, events) && systems[|events|] == Serving(Holding(was, queue), a, before, w, since)
    ensures IsRun(setup, more, longer)
    ensures more[|longer|] == Serving(Holding(was, queue), a, before, w, since + [[Publish(view)]])
  {
    var z := Serving(Holding(was, queue), a, before, w, since + [[Publish(view)]]);
    assert systems[|events|].threads + [[Publish(view)]] == z.threads;
    Called(setup, systems[|events|], PublishCalled(view), Publish(view), z);
    more, longer := Extended(setup, systems, events, PublishCalled(view), z);
  }

  lemma SendsView(setup: Setup, systems: seq<System>, events: seq<Event>, was: Option<View>, queue: seq<Message>,
      a: seq<Task>, before: seq<seq<Task>>, w: seq<Task>, since: seq<seq<Task>>, t: nat, view: View)
      returns (more: seq<System>, longer: seq<Event>)
    requires IsRun(setup, systems, events) && systems[|events|] == Serving(Holding(was, queue), a, before, w, since)
    requires t < |since| && since[t] == [Publish(view)]
    ensures IsRun(setup, more, longer)
    ensures more[|longer|] == Serving(Holding(Some(view), queue), a, before, w, since[t := [SendTo(0, StateMsg(view))]])
  {
    PublishedToClient(setup, was, queue, view);
    CallerSteps(setup, Holding(was, queue), a, before, w, since, t, TO_THE_CLIENT,
      Effect(Holding(Some(view), queue), [SendTo(0, StateMsg(view))], []));
    more, longer := Extended(setup, systems, events, Step(4 + |before| + t, TO_THE_CLIENT),
      Serving(Holding(Some(view), queue), a, before, w, since[t := [SendTo(0, StateMsg(view))]]));
  }

  lemma Sends(setup: Setup, systems: seq<System>, events: seq<Event>, view: Option<View>, queue: seq<Message>,
      a: seq<Task>, before: seq<seq<Task>>, w: seq<Task>, since: seq<seq<Task>>, t: nat, message: Message)
      returns (more: seq<System>, longer: seq<Event>)
    requires IsRun(setup, systems, events) && systems[|events|] == Serving(Holding(view, queue), a, before, w, since)
    requires t < |since| && since[t] == [SendTo(0, message)] && |queue| < SEND_QUEUE
    ensures IsRun(setup, more, longer)
    ensures more[|longer|] == Serving(Holding(view, queue + [message]), a, before, w, since[t := []])
  {
    JoinedQueue(view, queue, message);
    CallerSteps(setup, Holding(view, queue), a, before, w, since, t, DECIDED,
      Effect(Holding(view, queue + [message]), [], []));
    more, longer := Extended(setup, systems, events, Step(4 + |before| + t, DECIDED),
      Serving(Holding(view, queue + [message]), a, before, w, since[t := []]));
  }

  /**
   A run in which two publications overlap and the older view is queued for a client after the newer
   one, which is the view the server remembers. Nothing more is on its way.
   */
  lemma OverlappingPublications(setup: Setup, older: View, newer: View)
    returns (systems: seq<System>, events: seq<Event>)
    ensures IsRun(setup, systems, events)
    ensures systems[|events|].server.view == Some(newer) && 0 in systems[|events|].server.clients
    ensures At(systems[|events|].server, 0).queued == [HelloMsg, StateMsg(newer), StateMsg(older)]
    ensures NoView(Pending(systems[|events|].threads), 0) && Drop(0) !in Pending(systems[|events|].threads)
  {
    var before: seq<seq<Task>>;
    systems, events, before := RegistersOne(setup, None);
    var w, a := [Take(0)], GreetingOf(None);
    assert a == [SendTo(0, HelloMsg), Accept];
    assert a == [SendTo(0, HelloMsg)] + [Accept];
    systems, events := Greets(setup, systems, events, None, [], HelloMsg, [Accept], before, w, []);
    assert [] + [HelloMsg] == [HelloMsg];
    a := [Accept];
    systems, events := CallsPublish(setup, systems, events, None, [HelloMsg], a, before, w, [], older);
    systems, events := CallsPublish(setup, systems, events, None, [HelloMsg], a, before, w, [[Publish(older)]], newer);
    assert [[Publish(older)]] + [[Publish(newer)]] == [[Publish(older)], [Publish(newer)]];
    var first, second := [SendTo(0, StateMsg(older))], [SendTo(0, StateMsg(newer))];
    systems, events :=
      SendsView(setup, systems, events, None, [HelloMsg], a, before, w, [[Publish(older)], [Publish(newer)]], 0, older);
    systems, events :=
      SendsView(setup, systems, events, Some(older), [HelloMsg], a, before, w, [first, [Publish(newer)]], 1, newer);
    systems, events :=
      Sends(setup, systems, events, Some(newer), [HelloMsg], a, before, w, [first, second], 1, StateMsg(newer));
    assert [HelloMsg] + [StateMsg(newer)] == [HelloMsg, StateMsg(newer)];
    systems, events := Sends(setup, systems, events, Some(newer), [HelloMsg, StateMsg(newer)], a, before, w,
      [first, []], 0, StateMsg(older));
    assert systems[|events|].threads == [[Accept], [Shutdown], [Take(0)], [Read(0)], [], []];
    NothingOnItsWay(systems[|events|].threads);
  }

  /** Goroutines that have nothing to send to a client or to drop it. */
  lemma {:induction false} NothingOnItsWay(threads: seq<seq<Task>>)
    requires forall t, k :: 0 <= t < |threads| && 0 <= k < |threads[t]| ==>
      !threads[t][k].SendTo? && !threads[t][k].Drop?
    ensures forall task :: task in Pending(threads) ==> !task.SendTo? && !task.Drop?
  {
    if threads != [] {
      NothingOnItsWay(threads[..|threads| - 1]);
    }
  }

  // ---------------------------------------------------------------- a message missed and the next one told

  lemma CallsPing(setup: Setup, systems: seq<System>, events: seq<Event>, s: Server, a: seq<Task>, w: seq<Task>,
      since: seq<seq<Task>>, round: int) returns (more: seq<System>, longer: seq<Event>)
    requires IsRun(setup, systems, events) && systems[|events|] == Serving(s, a, [], w, since) && s.clients == {0}
    ensures IsRun(setup, more, longer) && systems <= more && events <= longer
    ensures more[|longer|] == Serving(s, a, [], w, since + [[SendTo(0, PingMsg(round))]])
  {
    var called := Serving(s, a, [], w, since + [[PublishPings(round)]]);
    assert systems[|events|].threads + [[PublishPings(round)]] == called.threads;
    Called(setup, systems[|events|], PublishPingsCalled(round), PublishPings(round), called);
    more, longer := Extended(setup, systems, events, PublishPingsCalled(round), called);
    PingedClient(setup, s, round);
    var t := |since|;
    CallerSteps(setup, s, a, [], w, since + [[PublishPings(round)]], t, TO_THE_CLIENT,
      Effect(s, [SendTo(0, PingMsg(round))], []));
    assert (since + [[PublishPings(round)]])[t := [SendTo(0, PingMsg(round))]] == since + [[SendTo(0, PingMsg(round))]];
    more, longer := Extended(setup, more, longer, Step(4 + t, TO_THE_CLIENT),
      Serving(s, a, [], w, since + [[SendTo(0, PingMsg(round))]]));
  }

  /** A ping sent to the client by the goroutine started last, whatever that leads to. */
  lemma LastSends(setup: Setup, systems: seq<System>, events: seq<Event>, s: Server, a: seq<Task>, w: seq<Task>,
      since: seq<seq<Task>>, message: Message, e: Effect) returns (more: seq<System>, longer: seq<Event>)
    requires IsRun(setup, systems, events)
    requires systems[|events|] == Serving(s, a, [], w, since + [[SendTo(0, message)]])
    requires Sent(s, 0, message) == e && e.started == []
    ensures IsRun(setup, more, longer) && systems <= more && events <= longer && |longer| == |events| + 1
    ensures longer[|events|] == Step(4 + |since|, DECIDED)
    ensures more[|longer|] == Serving(e.server, a, [], w, since + [e.next])
  {
    var t := |since|;
    CallerSteps(setup, s, a, [], w, since + [[SendTo(0, message)]], t, DECIDED, e);
    assert (since + [[SendTo(0, message)]])[t := e.next] == since + [e.next];
    more, longer :=
      Extended(setup, systems, events, Step(4 + t, DECIDED), Serving(e.server, a, [], w, since + [e.next]));
  }

  /** A client that is sent `n` pings and takes none of them. */
  lemma {:induction false} FallsBehind(setup: Setup, n: nat)
      returns (systems: seq<System>, events: seq<Event>, queue: seq<Message>, since: seq<seq<Task>>)
    requires n <= SEND_QUEUE
    ensures IsRun(setup, systems, events) && |queue| == n
    ensures forall k :: 0 <= k < n ==> queue[k] == PingMsg(k)
    ensures systems[|events|] == Serving(Holding(None, queue), GreetingOf(None), [], [Take(0)], since)
  {
    if n == 0 {
      var before: seq<seq<Task>>;
      systems, events, before := RegistersOne(setup, None);
      queue, since := [], [];
    } else {
      systems, events, queue, since := FallsBehind(setup, n - 1);
      var s, a, w := Holding(None, queue), GreetingOf(None), [Take(0)];
      systems, events := CallsPing(setup, systems, events, s, a, w, since, n - 1);
      JoinedQueue(None, queue, PingMsg(n - 1));
      systems, events := LastSends(setup, systems, events, s, a, w, since, PingMsg(n - 1),
        Effect(Holding(None, queue + [PingMsg(n - 1)]), [], []));
      queue, since := queue + [PingMsg(n - 1)], since + [[]];
    }
  }

  /** Its writer has taken the first message and holds it. */
  function Draining(queue: seq<Message>, queued: seq<Message>): Server
    requires queued != []
  {
    NEW_SERVER.(all := [NEW_CLIENT.(queue := queue, hand := Some(queued[0]), queued := queued)], clients := {0})
  }

  lemma TakesOne(setup: Setup, queue: seq<Message>)
    requires queue != []
    ensures CanStep(Holding(None, queue), Take(0), DECIDED)
    ensures EffectOf(setup, Holding(None, queue), Take(0), DECIDED)
      == Effect(Draining(queue[1..], queue), [Write(0)], [])
  {
    var s, t := Holding(None, queue), Draining(queue[1..], queue);
    assert s.all[0 := t.all[0]] == t.all;
  }

  lemma JoinsDraining(queue: seq<Message>, queued: seq<Message>, message: Message)
    requires queued != [] && |queue| < SEND_QUEUE
    ensures Sent(Draining(queue, queued), 0, message) == Effect(Draining(queue + [message], queued + [message]), [], [])
  {
    var s, t := Draining(queue, queued), Draining(queue + [message], queued + [message]);
    assert s.all[0 := t.all[0]] == t.all;
  }

  /**
   A run in which a message meant for a client is skipped, its writer then makes room, and the next
   message joins the queue before the client is dropped: what the peer will read has a gap.
   */
  lemma ASkippedMessageLeavesAGap(setup: Setup) returns (systems: seq<System>, events: seq<Event>, k: nat, l: nat)
    ensures IsRun(setup, systems, events) && k < l < |events|
    ensures MeantNow(systems[k], events[k], 0) == [PingMsg(16)] && Skips(systems[k], events[k], 0)
    ensures MeantNow(systems[l], events[l], 0) == [PingMsg(17)] && Joins(systems[l], events[l], 0)
    ensures PingMsg(17) in At(systems[|events|].server, 0).queued
      && PingMsg(16) !in At(systems[|events|].server, 0).queued
  {
    var queue: seq<Message>, since: seq<seq<Task>>;
    systems, events, queue, since := FallsBehind(setup, SEND_QUEUE);
    var s, a, w := Holding(None, queue), GreetingOf(None), [Take(0)];
    systems, events := CallsPing(setup, systems, events, s, a, w, since, 16);
    k := |events|;
    systems, events := LastSends(setup, systems, events, s, a, w, since, PingMsg(16), Effect(s, [Drop(0)], []));
    assert systems[k] == Serving(s, a, [], w, since + [[SendTo(0, PingMsg(16))]]);
    since := since + [[Drop(0)]];
    TakesOne(setup, queue);
    var t := Draining(queue[1..], queue);
    WriterSteps(setup, s, a, [], w, since, DECIDED, Effect(t, [Write(0)], []));
    systems, events := Extended(setup, systems, events, Step(2, DECIDED), Serving(t, a, [], [Write(0)], since));
    systems, events := CallsPing(setup, systems, events, t, a, [Write(0)], since, 17);
    l := |events|;
    JoinsDraining(queue[1..], queue, PingMsg(17));
    systems, events := LastSends(setup, systems, events, t, a, [Write(0)], since, PingMsg(17),
      Effect(Draining(queue[1..] + [PingMsg(17)], queue + [PingMsg(17)]), [], []));
  }
}
