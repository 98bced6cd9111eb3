/** In what order a client is told things, and what it misses, in every interleaving. */
module FeedOrder {
  import opened Prelude
  import opened Names
  import opened Feed
  import opened FeedSteps
  import opened FeedSafety
  import opened FeedTheorems
  import opened FeedDelivery

  // ---------------------------------------------------------------- only clients there have been

  /** The steps that are about one client. */
  predicate OfOne(task: Task) {
    || task.SendTo? || task.Drop? || task.CloseQueue? || task.CloseConn? || task.Read? || task.Handle?
    || task.AllowChallenge? || task.Take? || task.Write? || task.SayBye?
  }

  /** Every step due that is about a client is about one that has been registered. */
  ghost predicate Known(p: multiset<Task>, n: nat) {
    forall task :: task in p && OfOne(task) ==> task.c < n
  }

  ghost predicate AllKnown(tasks: seq<Task>, n: nat) {
    forall task :: task in tasks && OfOne(task) ==> task.c < n
  }

  ghost predicate BringsKnown(e: Effect) {
    && AllKnown(e.next, |e.server.all|)
    && forall thread :: thread in e.started ==> AllKnown(thread, |e.server.all|)
  }

  lemma {:induction false} PendingIsKnown(threads: seq<seq<Task>>, n: nat)
    requires forall thread :: thread in threads ==> AllKnown(thread, n)
    ensures Known(Pending(threads), n)
  {
    if threads != [] {
      var last := |threads| - 1;
      PendingIsKnown(threads[..last], n);
      assert threads[last] in threads;
    }
  }

  lemma SendsAreKnown(order: seq<nat>, message: Message, n: nat)
    requires forall c :: c in order ==> c < n
    ensures AllKnown(SendsTo(order, message), n) && AllKnown(Byes(order), n)
  {
    forall task | task in SendsTo(order, message) || task in Byes(order)
      ensures task.c in order
    {
    }
  }

  lemma {:induction false} RoundsAreKnown(round: seq<Reading>, n: nat)
    requires forall i :: 0 <= i < |round| ==> forall c :: c in round[i].watchers ==> c < n
    ensures AllKnown(SendsOf(round), n)
  {
    if round != [] {
      RoundsAreKnown(round[1..], n);
      SendsAreKnown(round[0].watchers, SampleMsg(round[0].tunnel, round[0].reading), n);
    }
  }

  lemma OrderIsKnown(order: seq<nat>, clients: set<nat>, n: nat)
    requires Enumerates(order, clients) && forall c :: c in clients ==> c < n
    ensures forall c :: c in order ==> c < n
  {
    assert forall c :: c in order ==> c in Elements(order);
  }

  lemma FanOutsAreKnown(setup: Setup, s: Server, task: Task, o: Oracle)
    requires OpenQueues(s) && CanStep(s, task, o)
    requires task.Publish? || task.PublishPings? || task.SampleOnce? || task.Shutdown?
    ensures BringsKnown(EffectOf(setup, s, task, o))
  {
    if task.SampleOnce? {
      forall i | 0 <= i < |o.round|
        ensures forall c :: c in o.round[i].watchers ==> c < |s.all|
      {
        OrderIsKnown(o.round[i].watchers, WatchersOf(s, o.round[i].tunnel), |s.all|);
      }
      RoundsAreKnown(o.round, |s.all|);
    } else {
      OrderIsKnown(o.order, s.clients, |s.all|);
      var message :=
        if task.Publish? then StateMsg(task.view) else if task.PublishPings? then PingMsg(task.round) else ByeMsg;
      SendsAreKnown(o.order, message, |s.all|);
    }
  }

  lemma ClientStepsAreKnown(setup: Setup, s: Server, task: Task, o: Oracle)
    requires OpenQueues(s) && OfOne(task) && task.c < |s.all|
    requires task.SayBye? ==> !At(s, task.c).closed
    ensures BringsKnown(EffectOf(setup, s, task, o))
  {
    if OfClient(task) {
      ClientStepsOnlyClient(setup, s, task, o);
    }
  }

  lemma OtherStepsAreKnown(setup: Setup, s: Server, task: Task, o: Oracle)
    requires !OfOne(task) && !task.Publish? && !task.PublishPings? && !task.SampleOnce? && !task.Shutdown?
    ensures BringsKnown(EffectOf(setup, s, task, o))
  {
  }

  lemma NobodyIsForgotten(setup: Setup, s: Server, task: Task, o: Oracle)
    requires OpenQueues(s) && (task.SayBye? ==> !At(s, task.c).closed)
    ensures |s.all| <= |EffectOf(setup, s, task, o).server.all|
  {
    if OfClient(task) {
      ClientStepsOnlyClient(setup, s, task, o);
    } else if OfNobody(task) {
      NobodyChanges(setup, s, task, o);
    }
  }

  lemma StepStaysKnown(setup: Setup, s: Server, p: multiset<Task>, task: Task, o: Oracle)
    requires QueuesOk(s, p) && Known(p, |s.all|) && task in p && CanStep(s, task, o)
    ensures var e := EffectOf(setup, s, task, o); Known(After(p, task, e), |e.server.all|)
  {
    var e := EffectOf(setup, s, task, o);
    assert task.SayBye? ==> Owed(s, task.c) == 1;
    NobodyIsForgotten(setup, s, task, o);
    if OfOne(task) {
      ClientStepsAreKnown(setup, s, task, o);
    } else if task.Publish? || task.PublishPings? || task.SampleOnce? || task.Shutdown? {
      FanOutsAreKnown(setup, s, task, o);
    } else {
      OtherStepsAreKnown(setup, s, task, o);
    }
    KnownAfter(p, |s.all|, task, e);
  }

  lemma KnownAfter(p: multiset<Task>, n: nat, task: Task, e: Effect)
    requires Known(p, n) && BringsKnown(e) && n <= |e.server.all|
    ensures Known(After(p, task, e), |e.server.all|)
  {
    PendingIsKnown(e.started, |e.server.all|);
    forall x | x in After(p, task, e) && OfOne(x)
      ensures x.c < |e.server.all|
    {
      if x !in p && x !in Pending(e.started) {
        assert x in multiset(e.next);
        assert x in e.next;
      }
    }
  }

  /** Calling from outside brings steps about nobody. */
  lemma CallStaysKnown(threads: seq<seq<Task>>, task: Task, n: nat)
    requires Known(Pending(threads), n) && (task.Publish? || task.PublishPings?)
    ensures Known(Pending(threads + [[task]]), n)
  {
    PendingAfterAppend(threads, [[task]]);
    PendingOfOne([task]);
    assert multiset([task]) == multiset{task};
  }

  lemma NextStaysKnown(setup: Setup, y: System, e: Event)
    requires Sound(setup, y) && Known(Pending(y.threads), |y.server.all|) && Enabled(y, e)
    ensures Known(Pending(Next(setup, y, e).threads), |Next(setup, y, e).server.all|)
  {
    match e
    case Step(t, o) =>
      var task := y.threads[t][0];
      PendingAfterStep(y.threads, t, EffectOf(setup, y.server, task, o));
      StepStaysKnown(setup, y.server, Pending(y.threads), task, o);
    case PublishCalled(view) => CallStaysKnown(y.threads, Publish(view), |y.server.all|);
    case PublishPingsCalled(round) => CallStaysKnown(y.threads, PublishPings(round), |y.server.all|);
    case _ =>
  }

  /** In every system a run reaches, no step is due for a client that is still to come. */
  lemma {:induction false} NobodyIsServedEarly(setup: Setup, systems: seq<System>, events: seq<Event>, i: nat)
    requires IsRun(setup, systems, events) && i < |systems|
    ensures Known(Pending(systems[i].threads), |systems[i].server.all|)
  {
    if i == 0 {
      PendingOfTwo([Accept], [Shutdown]);
      assert Pending(START.threads) == multiset{Accept, Shutdown};
    } else {
      NobodyIsServedEarly(setup, systems, events, i - 1);
      EverySystemIsSound(setup, systems, events, i - 1);
      NextStaysKnown(setup, systems[i - 1], events[i - 1]);
    }
  }

  // ---------------------------------------------------------------- the last view a client is told

  /** The last view among some messages. */
  function LastView(messages: seq<Message>): Option<View> {
    if messages == [] then None
    else
      var last := messages[|messages| - 1];
      if last.StateMsg? then Some(last.view) else LastView(messages[..|messages| - 1])
  }

  lemma LastViewAppended(messages: seq<Message>, message: Message)
    ensures LastView(messages + [message]) == if message.StateMsg? then Some(message.view) else LastView(messages)
  {
    assert (messages + [message])[..|messages|] == messages;
  }

  /** No view is on its way to a client. */
  ghost predicate NoView(p: multiset<Task>, c: nat) {
    forall view :: SendTo(c, StateMsg(view)) !in p
  }

  /** One view is on its way to a client, once, and no other is. */
  ghost predicate OneView(p: multiset<Task>, c: nat, view: View) {
    && p[SendTo(c, StateMsg(view))] == 1
    && forall other :: other != view ==> SendTo(c, StateMsg(other)) !in p
  }

  /** The client is about to be dropped, or it has been told the server's view last, or that is on its way. */
  ghost predicate Current(s: Server, p: multiset<Task>, c: nat) {
    || Drop(c) in p
    || (NoView(p, c) && LastView(At(s, c).queued) == s.view)
    || (s.view.Some? && OneView(p, c, s.view.value))
  }

  ghost predicate ViewOk(s: Server, p: multiset<Task>, c: nat) {
    c in s.clients ==> Current(s, p, c)
  }

  /** Views are sent by publishing and by registering alone. */
  lemma OnlyPublishingShows(setup: Setup, s: Server, task: Task, o: Oracle, c: nat, view: View)
    requires !task.Publish? && !task.Register?
    ensures SendTo(c, StateMsg(view)) !in Added(EffectOf(setup, s, task, o))
  {
    SendsInNext(setup, s, task, o, SendTo(c, StateMsg(view)));
    if task.SampleOnce? {
      if SendTo(c, StateMsg(view)) in SendsOf(o.round) {
        RoundsSendToWatchers(o.round, SendTo(c, StateMsg(view)));
      }
    } else {
      NotShown(setup, s, task, o, c, view);
    }
  }

  lemma NotShown(setup: Setup, s: Server, task: Task, o: Oracle, c: nat, view: View)
    requires !task.Publish? && !task.Register? && !task.SampleOnce?
    ensures SendTo(c, StateMsg(view)) !in EffectOf(setup, s, task, o).next
  {
  }

  /** Nothing about the client's messages, the view or the views on their way is different. */
  lemma CurrentFramed(s: Server, p: multiset<Task>, task: Task, e: Effect, c: nat)
    requires Current(s, p, c) && task in p && task != Drop(c)
    requires !(task.SendTo? && task.c == c && task.message.StateMsg?)
    requires forall view :: SendTo(c, StateMsg(view)) !in Added(e)
    requires e.server.view == s.view && LastView(At(e.server, c).queued) == LastView(At(s, c).queued)
    ensures Current(e.server, After(p, task, e), c)
  {
    var after := After(p, task, e);
    assert Drop(c) in p ==> Drop(c) in after;
    assert forall view :: after[SendTo(c, StateMsg(view))] == p[SendTo(c, StateMsg(view))];
  }

  /** A view sent to a client that is current is the server's; sent, it is the last one told. */
  lemma ShowingStaysCurrent(s: Server, p: multiset<Task>, c: nat, view: View)
    requires OpenQueues(s) && Current(s, p, c) && c in s.clients && SendTo(c, StateMsg(view)) in p
    ensures var e := Sent(s, c, StateMsg(view)); Current(e.server, After(p, SendTo(c, StateMsg(view)), e), c)
  {
    var message := StateMsg(view);
    var e := Sent(s, c, message);
    var after := After(p, SendTo(c, message), e);
    if |At(s, c).queue| >= SEND_QUEUE {
      assert Drop(c) in multiset(e.next);
    } else {
      assert Added(e) == multiset{};
      LastViewAppended(At(s, c).queued, message);
      assert At(e.server, c).queued == At(s, c).queued + [message];
      if Drop(c) in p {
        assert Drop(c) in after;
      }
    }
  }

  /** Publishing while no view is on its way to a client puts exactly that one on its way. */
  lemma PublishingStaysCurrent(setup: Setup, s: Server, p: multiset<Task>, view: View, o: Oracle, c: nat)
    requires Publish(view) in p && CanStep(s, Publish(view), o) && c in s.clients && NoView(p, c)
    ensures var e := EffectOf(setup, s, Publish(view), o); Current(e.server, After(p, Publish(view), e), c)
  {
    var e := EffectOf(setup, s, Publish(view), o);
    SentOnceEach(o.order, StateMsg(view), c);
    assert c in o.order <==> c in Elements(o.order);
    assert forall other :: other != view ==> SendTo(c, StateMsg(other)) !in multiset(e.next);
    assert Pending(e.started) == multiset{};
  }

  lemma {:induction false} SentOnceEach(order: seq<nat>, message: Message, c: nat)
    requires Distinct(order)
    ensures multiset(SendsTo(order, message))[SendTo(c, message)] == if c in order then 1 else 0
    ensures forall task :: task in SendsTo(order, message) ==> task.SendTo? && task.message == message
  {
    if order != [] {
      var n := |order| - 1;
      SentOnceEach(order[..n], message, c);
      assert SendsTo(order, message) == SendsTo(order[..n], message) + [SendTo(order[n], message)];
      assert order == order[..n] + [order[n]];
    }
  }

  lemma RegisteredIsNew(s: Server)
    requires !s.closing && !s.unbound
    ensures At(Registered(s).server, |s.all|) == NEW_CLIENT && Registered(s).server.view == s.view
  {
  }

  /** What a client that is registered is greeted with is the view of that moment. */
  lemma GreetedCurrent(s: Server, p: multiset<Task>)
    requires Register in p && Known(p, |s.all|) && !s.closing && !s.unbound
    ensures Current(Registered(s).server, After(p, Register, Registered(s)), |s.all|)
  {
    var c, after := |s.all|, After(p, Register, Registered(s));
    RegisteredIsNew(s);
    forall view
      ensures after[SendTo(c, StateMsg(view))] == if s.view == Some(view) then 1 else 0
    {
      assert SendTo(c, StateMsg(view)) !in p;
      GreetingShows(s, view);
    }
  }

  lemma GreetingShows(s: Server, view: View)
    requires !s.closing && !s.unbound
    ensures Added(Registered(s))[SendTo(|s.all|, StateMsg(view))] == if s.view == Some(view) then 1 else 0
  {
    var c, e := |s.all|, Registered(s);
    PendingOfTwo([Take(c)], [Read(c)]);
    assert Pending(e.started)[SendTo(c, StateMsg(view))] == 0;
  }

  lemma RegisterKeepsView(s: Server, p: multiset<Task>, c: nat)
    requires ViewOk(s, p, c) && QueuesOk(s, p) && Known(p, |s.all|) && Register in p
    ensures ViewOk(Registered(s).server, After(p, Register, Registered(s)), c)
  {
    var e := Registered(s);
    if c in s.clients {
      RegisterShowsOthersNothing(s, c);
      CurrentFramed(s, p, Register, e, c);
    } else if !s.closing && !s.unbound && c == |s.all| {
      GreetedCurrent(s, p);
    }
  }

  lemma RegisterShowsOthersNothing(s: Server, c: nat)
    requires OpenQueues(s) && c in s.clients
    ensures forall view :: SendTo(c, StateMsg(view)) !in Added(Registered(s))
    ensures At(Registered(s).server, c) == At(s, c) && Registered(s).server.view == s.view
  {
    PendingOfTwo([Take(|s.all|)], [Read(|s.all|)]);
  }

  lemma PublishKeepsView(setup: Setup, s: Server, p: multiset<Task>, view: View, o: Oracle, c: nat)
    requires ViewOk(s, p, c) && Publish(view) in p && CanStep(s, Publish(view), o) && NoView(p, c)
    ensures var e := EffectOf(setup, s, Publish(view), o); ViewOk(e.server, After(p, Publish(view), e), c)
  {
    if c in s.clients {
      PublishingStaysCurrent(setup, s, p, view, o, c);
    }
  }

  lemma SendKeepsView(setup: Setup, s: Server, p: multiset<Task>, d: nat, message: Message, c: nat)
    requires ViewOk(s, p, c) && QueuesOk(s, p) && SendTo(d, message) in p
    ensures ViewOk(Sent(s, d, message).server, After(p, SendTo(d, message), Sent(s, d, message)), c)
  {
    if c in s.clients {
      if d == c && message.StateMsg? {
        ShowingStaysCurrent(s, p, c, message.view);
      } else {
        SendShowsNothing(s, d, message, c);
        CurrentFramed(s, p, SendTo(d, message), Sent(s, d, message), c);
      }
    }
  }

  lemma SendShowsNothing(s: Server, d: nat, message: Message, c: nat)
    requires OpenQueues(s) && c in s.clients && !(d == c && message.StateMsg?)
    ensures forall view :: SendTo(c, StateMsg(view)) !in Added(Sent(s, d, message))
    ensures Sent(s, d, message).server.view == s.view
    ensures LastView(At(Sent(s, d, message).server, c).queued) == LastView(At(s, c).queued)
  {
    if d in s.clients && HasRoom(s, d) {
      var client := At(s, d);
      LastViewAppended(client.queued, message);
      PutOnlyClient(s, d, client.(queue := client.queue + [message], queued := client.queued + [message]));
    }
  }

  /** The steps that neither send, publish nor register keep the view and what is queued for a registered client. */
  lemma OthersKeepView(setup: Setup, s: Server, p: multiset<Task>, task: Task, o: Oracle, c: nat)
    requires ViewOk(s, p, c) && QueuesOk(s, p) && task in p
    requires !task.SendTo? && !task.Publish? && !task.Register?
    ensures var e := EffectOf(setup, s, task, o); ViewOk(e.server, After(p, task, e), c)
  {
    var e := EffectOf(setup, s, task, o);
    if c in e.server.clients {
      OthersShowNothing(setup, s, p, task, o, c);
      forall view
        ensures SendTo(c, StateMsg(view)) !in Added(e)
      {
        OnlyPublishingShows(setup, s, task, o, c, view);
      }
      CurrentFramed(s, p, task, e, c);
    }
  }

  lemma OthersShowNothing(setup: Setup, s: Server, p: multiset<Task>, task: Task, o: Oracle, c: nat)
    requires QueuesOk(s, p) && task in p && !task.SendTo? && !task.Publish? && !task.Register?
    requires c in EffectOf(setup, s, task, o).server.clients
    ensures var e := EffectOf(setup, s, task, o);
      && c in s.clients && task != Drop(c) && e.server.view == s.view && At(e.server, c).queued == At(s, c).queued
  {
    if task.SayBye? {
      assert Owed(s, task.c) == 1;
      ByeOnlyClient(s, task.c);
    } else {
      OthersQueueNothing(setup, s, task, o);
    }
    if OfClient(task) {
      ClientStepsOnlyClient(setup, s, task, o);
    } else {
      ViewStays(setup, s, task, o);
      if OfNobody(task) {
        NobodyChanges(setup, s, task, o);
      }
    }
  }

  lemma ViewStays(setup: Setup, s: Server, task: Task, o: Oracle)
    requires !task.Publish? && !OfClient(task)
    ensures EffectOf(setup, s, task, o).server.view == s.view
  {
  }

  lemma StepKeepsView(setup: Setup, s: Server, p: multiset<Task>, task: Task, o: Oracle, c: nat)
    requires ViewOk(s, p, c) && QueuesOk(s, p) && Known(p, |s.all|) && task in p && CanStep(s, task, o)
    requires task.Publish? ==> NoView(p, c)
    ensures var e := EffectOf(setup, s, task, o); ViewOk(e.server, After(p, task, e), c)
  {
    match task
    case Register => RegisterKeepsView(s, p, c);
    case Publish(view) => PublishKeepsView(setup, s, p, view, o, c);
    case SendTo(d, message) => SendKeepsView(setup, s, p, d, message, c);
    case _ => OthersKeepView(setup, s, p, task, o, c);
  }

  /** A goroutine takes this step of its list. */
  ghost predicate Takes(y: System, e: Event, task: Task) {
    e.Step? && e.t < |y.threads| && y.threads[e.t] != [] && y.threads[e.t][0] == task
  }

  /** A view is published, its critical section being taken. */
  ghost predicate Publishing(y: System, e: Event) {
    exists view :: Takes(y, e, Publish(view))
  }

  /** Up to a point of a run, views were only published when none was on its way to a client. */
  ghost predicate OneAtATime(systems: seq<System>, events: seq<Event>, i: nat, c: nat)
    requires i < |systems| == |events| + 1
  {
    forall k :: 0 <= k < i && Publishing(systems[k], events[k]) ==> NoView(Pending(systems[k].threads), c)
  }

  lemma CallKeepsView(y: System, task: Task, c: nat)
    requires ViewOk(y.server, Pending(y.threads), c) && (task.Publish? || task.PublishPings?)
    ensures ViewOk(y.server, Pending(y.threads + [[task]]), c)
  {
    PendingAfterAppend(y.threads, [[task]]);
    PendingOfOne([task]);
    assert multiset([task]) == multiset{task};
  }

  lemma NextKeepsView(setup: Setup, y: System, e: Event, c: nat)
    requires Sound(setup, y) && Known(Pending(y.threads), |y.server.all|) && Enabled(y, e)
    requires ViewOk(y.server, Pending(y.threads), c)
    requires Publishing(y, e) ==> NoView(Pending(y.threads), c)
    ensures ViewOk(Next(setup, y, e).server, Pending(Next(setup, y, e).threads), c)
  {
    match e
    case Step(t, o) =>
      var task := y.threads[t][0];
      PendingAfterStep(y.threads, t, EffectOf(setup, y.server, task, o));
      assert task.Publish? ==> Takes(y, e, Publish(task.view));
      StepKeepsView(setup, y.server, Pending(y.threads), task, o, c);
    case PublishCalled(view) => CallKeepsView(y, Publish(view), c);
    case PublishPingsCalled(round) => CallKeepsView(y, PublishPings(round), c);
    case _ =>
  }

  lemma {:induction false} EveryClientIsCurrent(setup: Setup, systems: seq<System>, events: seq<Event>, i: nat, c: nat)
    requires IsRun(setup, systems, events) && i < |systems| && OneAtATime(systems, events, i, c)
    ensures ViewOk(systems[i].server, Pending(systems[i].threads), c)
  {
    if i > 0 {
      EveryClientIsCurrent(setup, systems, events, i - 1, c);
      EverySystemIsSound(setup, systems, events, i - 1);
      NobodyIsServedEarly(setup, systems, events, i - 1);
      NextKeepsView(setup, systems[i - 1], events[i - 1], c);
    }
  }

  /**
   When views are published one at a time, that is, never while one is on its way to the client, a
   registered client to whom none is on its way was told the server's view last, and none if there is
   none, unless it is about to be dropped.
   */
  lemma LastToldIsTheView(setup: Setup, systems: seq<System>, events: seq<Event>, i: nat, c: nat)
    requires IsRun(setup, systems, events) && i < |systems| && OneAtATime(systems, events, i, c)
    requires c in systems[i].server.clients && NoView(Pending(systems[i].threads), c)
    ensures Drop(c) in Pending(systems[i].threads)
      || LastView(At(systems[i].server, c).queued) == systems[i].server.view
  {
    EveryClientIsCurrent(setup, systems, events, i, c);
  }

  // ---------------------------------------------------------------- what a client misses

  /** The message a step means for a registered client, if it is one. */
  ghost function MeantNow(y: System, e: Event, c: nat): seq<Message> {
    if e.Step? && e.t < |y.threads| && y.threads[e.t] != [] && c in y.server.clients then
      var task := y.threads[e.t][0];
      if task.SendTo? && task.c == c then [task.message] else []
    else []
  }

  /** A message meant for a registered client finds its queue full. */
  ghost predicate Skips(y: System, e: Event, c: nat) {
    MeantNow(y, e, c) != [] && |At(y.server, c).queue| >= SEND_QUEUE
  }

  /** A message meant for a registered client finds room. */
  ghost predicate Joins(y: System, e: Event, c: nat) {
    MeantNow(y, e, c) != [] && |At(y.server, c).queue| < SEND_QUEUE
  }

  // Messages a step at a time, and those of them that were kept.

  function Collected(parts: seq<seq<Message>>, i: nat): seq<Message>
    requires i <= |parts|
  {
    if i == 0 then [] else Collected(parts, i - 1) + parts[i - 1]
  }

  function Kept(parts: seq<seq<Message>>, keep: seq<bool>, i: nat): seq<Message>
    requires i <= |parts| == |keep|
  {
    if i == 0 then [] else Kept(parts, keep, i - 1) + if keep[i - 1] then parts[i - 1] else []
  }

  predicate Lost(parts: seq<seq<Message>>, keep: seq<bool>, k: nat)
    requires k < |parts| == |keep|
  {
    parts[k] != [] && !keep[k]
  }

  lemma {:induction false} KeptIsAllWhenNothingIsLost(parts: seq<seq<Message>>, keep: seq<bool>, i: nat)
    requires i <= |parts| == |keep|
    ensures |Kept(parts, keep, i)| <= |Collected(parts, i)|
    ensures Kept(parts, keep, i) == Collected(parts, i) <==> forall k: nat :: k < i ==> !Lost(parts, keep, k)
  {
    if i > 0 {
      KeptIsAllWhenNothingIsLost(parts, keep, i - 1);
      if Lost(parts, keep, i - 1) {
        assert |Kept(parts, keep, i)| < |Collected(parts, i)|;
      } else if exists k: nat :: k < i - 1 && Lost(parts, keep, k) {
        assert |Kept(parts, keep, i)| == |Collected(parts, i)| ==>
          Kept(parts, keep, i - 1) == Kept(parts, keep, i)[..|Kept(parts, keep, i - 1)|];
        assert |Collected(parts, i)| == |Kept(parts, keep, i)| ==>
          Collected(parts, i - 1) == Collected(parts, i)[..|Collected(parts, i - 1)|];
      }
    }
  }

  lemma {:induction false} KeptIsAPrefixWithoutAGap(parts: seq<seq<Message>>, keep: seq<bool>, i: nat)
    requires i <= |parts| == |keep|
    requires forall k: nat, l: nat :: k < l < i && Lost(parts, keep, k) ==> parts[l] == [] || !keep[l]
    ensures Kept(parts, keep, i) <= Collected(parts, i)
  {
    if i > 0 {
      KeptIsAPrefixWithoutAGap(parts, keep, i - 1);
      KeptIsAllWhenNothingIsLost(parts, keep, i - 1);
    }
  }

  lemma {:induction false} KeptAddsUp(told: seq<seq<Message>>, parts: seq<seq<Message>>, keep: seq<bool>, i: nat)
    requires i < |told| == |parts| + 1 && |keep| == |parts| && told[0] == []
    requires forall k: nat :: 0 < k < |told| ==> Grows(told, parts, keep, k)
    ensures told[i] == Kept(parts, keep, i)
  {
    if i > 0 {
      KeptAddsUp(told, parts, keep, i - 1);
      assert Grows(told, parts, keep, i);
    }
  }

  /** What a client was told, its goodbye left out. */
  function WithoutBye(messages: seq<Message>): seq<Message> {
    if messages == [] then []
    else
      var n := |messages| - 1;
      WithoutBye(messages[..n]) + if messages[n] == ByeMsg then [] else [messages[n]]
  }

  lemma WithoutByeAppended(messages: seq<Message>, message: Message)
    ensures WithoutBye(messages + [message]) == WithoutBye(messages) + if message == ByeMsg then [] else [message]
  {
    assert (messages + [message])[..|messages|] == messages;
  }

  lemma SendTells(s: Server, p: multiset<Task>, d: nat, message: Message, c: nat)
    requires OpenQueues(s) && message != ByeMsg
    ensures WithoutBye(At(Sent(s, d, message).server, c).queued)
         == WithoutBye(At(s, c).queued) + if c == d && c in s.clients && HasRoom(s, c) then [message] else []
  {
    if d in s.clients && HasRoom(s, d) {
      WithoutByeAppended(At(s, d).queued, message);
    }
  }

  lemma ByeTellsNothing(s: Server, d: nat, c: nat)
    requires !At(s, d).closed
    ensures WithoutBye(At(SaidBye(s, d).server, c).queued) == WithoutBye(At(s, c).queued)
  {
    var client := At(s, d);
    WithoutByeAppended(client.queued, ByeMsg);
    PutOnlyClient(s, d, client.(queue := client.queue + [ByeMsg], queued := client.queued + [ByeMsg]));
  }

  lemma OthersTellNothing(setup: Setup, s: Server, p: multiset<Task>, task: Task, o: Oracle, c: nat)
    requires QueuesOk(s, p) && task in p && !task.SendTo?
    ensures WithoutBye(At(EffectOf(setup, s, task, o).server, c).queued) == WithoutBye(At(s, c).queued)
  {
    match task
    case SayBye(d) => assert Owed(s, d) == 1; ByeTellsNothing(s, d, c);
    case _ => OthersQueueNothing(setup, s, task, o);
  }

  lemma NoByeIsSent(s: Server, p: multiset<Task>, d: nat, message: Message)
    requires ByesOk(s, p) && SendTo(d, message) in p
    ensures message != ByeMsg
  {
  }

  /** What a client is told grows by the message meant for it that finds room. */
  lemma StepTellsWhatJoins(setup: Setup, s: Server, p: multiset<Task>, task: Task, o: Oracle, c: nat)
    requires QueuesOk(s, p) && ByesOk(s, p) && task in p
    ensures WithoutBye(At(EffectOf(setup, s, task, o).server, c).queued) == WithoutBye(At(s, c).queued)
      + if task.SendTo? && task.c == c && c in s.clients && HasRoom(s, c) then [task.message] else []
  {
    if task.SendTo? {
      NoByeIsSent(s, p, task.c, task.message);
      SendTells(s, p, task.c, task.message, c);
    } else {
      OthersTellNothing(setup, s, p, task, o, c);
    }
  }

  /** What a client has been told, its goodbye left out. */
  ghost function ToldBy(y: System, c: nat): seq<Message> {
    WithoutBye(At(y.server, c).queued)
  }

  /** What each step of a run meant for a registered client. */
  ghost function MeantAt(systems: seq<System>, events: seq<Event>, c: nat): seq<seq<Message>>
    requires |systems| == |events| + 1
  {
    seq(|events|, k requires 0 <= k < |events| => MeantNow(systems[k], events[k], c))
  }

  /** Whether its queue had room then. */
  function RoomAt(systems: seq<System>, events: seq<Event>, c: nat): seq<bool>
    requires |systems| == |events| + 1
  {
    seq(|events|, k requires 0 <= k < |events| => HasRoom(systems[k].server, c))
  }

  /** Every message meant for a client while it was registered. */
  ghost function Meant(systems: seq<System>, events: seq<Event>, i: nat, c: nat): seq<Message>
    requires i < |systems| == |events| + 1
  {
    Collected(MeantAt(systems, events, c), i)
  }

  lemma NextTellsWhatJoins(setup: Setup, y: System, e: Event, c: nat)
    requires Sound(setup, y) && Enabled(y, e)
    ensures ToldBy(Next(setup, y, e), c) == ToldBy(y, c) + if HasRoom(y.server, c) then MeantNow(y, e, c) else []
  {
    if e.Step? {
      StepIsPending(y.threads, e.t);
      StepTellsWhatJoins(setup, y.server, Pending(y.threads), y.threads[e.t][0], e.o, c);
    }
  }

  /** What a client has been told at each point of a run. */
  ghost function ToldThroughout(systems: seq<System>, c: nat): seq<seq<Message>> {
    seq(|systems|, k requires 0 <= k < |systems| => ToldBy(systems[k], c))
  }

  /** Each telling is the one before with what was meant in between, if there was room. */
  ghost predicate Grows(told: seq<seq<Message>>, parts: seq<seq<Message>>, keep: seq<bool>, k: nat)
    requires 0 < k < |told| == |parts| + 1 && |keep| == |parts|
  {
    told[k] == told[k - 1] + if keep[k - 1] then parts[k - 1] else []
  }

  lemma RunTellsWhatJoins(setup: Setup, systems: seq<System>, events: seq<Event>, k: nat, c: nat)
    requires IsRun(setup, systems, events) && 0 < k < |systems|
    ensures Grows(ToldThroughout(systems, c), MeantAt(systems, events, c), RoomAt(systems, events, c), k)
  {
    EverySystemIsSound(setup, systems, events, k - 1);
    assert systems[k] == Next(setup, systems[k - 1], events[k - 1]);
    NextTellsWhatJoins(setup, systems[k - 1], events[k - 1], c);
  }

  lemma RunGrows(setup: Setup, systems: seq<System>, events: seq<Event>, c: nat)
    requires IsRun(setup, systems, events)
    ensures ToldThroughout(systems, c)[0] == []
    ensures forall k: nat :: 0 < k < |systems| ==>
      Grows(ToldThroughout(systems, c), MeantAt(systems, events, c), RoomAt(systems, events, c), k)
  {
    forall k: nat | 0 < k < |systems|
      ensures Grows(ToldThroughout(systems, c), MeantAt(systems, events, c), RoomAt(systems, events, c), k)
    {
      RunTellsWhatJoins(setup, systems, events, k, c);
    }
  }

  lemma ToldIsWhatJoined(setup: Setup, systems: seq<System>, events: seq<Event>, i: nat, c: nat)
    requires IsRun(setup, systems, events) && i < |systems|
    ensures ToldBy(systems[i], c) == Kept(MeantAt(systems, events, c), RoomAt(systems, events, c), i)
  {
    RunGrows(setup, systems, events, c);
    KeptAddsUp(ToldThroughout(systems, c), MeantAt(systems, events, c), RoomAt(systems, events, c), i);
  }

  /** A client was told everything meant for it if and only if its queue was never full when something was. */
  lemma NothingMissedExactlyWhenNeverFull(setup: Setup, systems: seq<System>, events: seq<Event>, i: nat, c: nat)
    requires IsRun(setup, systems, events) && i < |systems|
    ensures ToldBy(systems[i], c) == Meant(systems, events, i, c)
       <==> forall k :: 0 <= k < i ==> !Skips(systems[k], events[k], c)
  {
    var parts, keep := MeantAt(systems, events, c), RoomAt(systems, events, c);
    ToldIsWhatJoined(setup, systems, events, i, c);
    KeptIsAllWhenNothingIsLost(parts, keep, i);
    assert forall k: nat :: k < i ==> (Lost(parts, keep, k) <==> Skips(systems[k], events[k], c));
  }

  /** Nothing joins a client's queue once something was skipped. */
  ghost predicate NoGap(systems: seq<System>, events: seq<Event>, i: nat, c: nat)
    requires i < |systems| == |events| + 1
  {
    forall k, l :: 0 <= k < l < i && Skips(systems[k], events[k], c) ==> !Joins(systems[l], events[l], c)
  }

  /** With no gap, what a client was told is the beginning of what was meant for it: only the end can be missing. */
  lemma WithoutAGapOnlyTheEndIsMissing(setup: Setup, systems: seq<System>, events: seq<Event>, i: nat, c: nat)
    requires IsRun(setup, systems, events) && i < |systems| && NoGap(systems, events, i, c)
    ensures ToldBy(systems[i], c) <= Meant(systems, events, i, c)
  {
    var parts, keep := MeantAt(systems, events, c), RoomAt(systems, events, c);
    ToldIsWhatJoined(setup, systems, events, i, c);
    forall k: nat, l: nat | k < l < i && Lost(parts, keep, k)
      ensures parts[l] == [] || !keep[l]
    {
      assert Skips(systems[k], events[k], c);
      assert !Joins(systems[l], events[l], c);
    }
    KeptIsAPrefixWithoutAGap(parts, keep, i);
  }

  // ---------------------------------------------------------------- a client that missed something

  /** A client that has been registered is gone, or is about to be dropped. */
  ghost predicate Leaving(s: Server, p: multiset<Task>, c: nat) {
    c < |s.all| && (c in s.clients ==> Drop(c) in p)
  }

  /** Nobody is registered twice, and only its drop or the shutdown removes a client. */
  lemma NobodyComesBack(setup: Setup, s: Server, p: multiset<Task>, task: Task, o: Oracle, c: nat)
    requires QueuesOk(s, p) && task in p && c < |s.all|
    ensures c < |EffectOf(setup, s, task, o).server.all|
    ensures c in EffectOf(setup, s, task, o).server.clients ==> c in s.clients && task != Drop(c)
  {
    assert task.SayBye? ==> Owed(s, task.c) == 1;
    NobodyIsForgotten(setup, s, task, o);
    if OfClient(task) {
      ClientStepsOnlyClient(setup, s, task, o);
    } else if OfNobody(task) {
      NobodyChanges(setup, s, task, o);
    }
  }

  lemma StepKeepsLeaving(setup: Setup, s: Server, p: multiset<Task>, task: Task, o: Oracle, c: nat)
    requires QueuesOk(s, p) && task in p && Leaving(s, p, c)
    ensures var e := EffectOf(setup, s, task, o); Leaving(e.server, After(p, task, e), c)
  {
    NobodyComesBack(setup, s, p, task, o, c);
  }

  lemma NextKeepsLeaving(setup: Setup, y: System, e: Event, c: nat)
    requires Sound(setup, y) && Enabled(y, e) && Leaving(y.server, Pending(y.threads), c)
    ensures Leaving(Next(setup, y, e).server, Pending(Next(setup, y, e).threads), c)
  {
    match e
    case Step(t, o) =>
      var task := y.threads[t][0];
      PendingAfterStep(y.threads, t, EffectOf(setup, y.server, task, o));
      StepKeepsLeaving(setup, y.server, Pending(y.threads), task, o, c);
    case PublishCalled(view) => PendingAfterAppend(y.threads, [[Publish(view)]]);
    case PublishPingsCalled(round) => PendingAfterAppend(y.threads, [[PublishPings(round)]]);
    case _ =>
  }

  lemma SkippingLeaves(setup: Setup, y: System, e: Event, c: nat)
    requires Sound(setup, y) && Enabled(y, e) && Skips(y, e, c)
    ensures Leaving(Next(setup, y, e).server, Pending(Next(setup, y, e).threads), c)
  {
    NextJoinsOrDrops(setup, y, e.t, e.o, c, y.threads[e.t][0].message);
    StepIsPending(y.threads, e.t);
    NobodyComesBack(setup, y.server, Pending(y.threads), y.threads[e.t][0], e.o, c);
  }

  /** A client that missed a message is, from then on, not registered or about to be dropped. */
  lemma {:induction false} SkippedMeansLeaving(setup: Setup, systems: seq<System>, events: seq<Event>, k: nat, j: nat,
      c: nat)
    requires IsRun(setup, systems, events) && k < j < |systems| && Skips(systems[k], events[k], c)
    ensures Leaving(systems[j].server, Pending(systems[j].threads), c)
  {
    EverySystemIsSound(setup, systems, events, j - 1);
    if k + 1 == j {
      SkippingLeaves(setup, systems[k], events[k], c);
    } else {
      SkippedMeansLeaving(setup, systems, events, k, j - 1, c);
      NextKeepsLeaving(setup, systems[j - 1], events[j - 1], c);
    }
  }

  lemma NextKeepsGone(setup: Setup, y: System, e: Event, c: nat)
    requires Sound(setup, y) && Enabled(y, e) && c < |y.server.all|
    ensures c < |Next(setup, y, e).server.all|
    ensures c !in y.server.clients ==> c !in Next(setup, y, e).server.clients
  {
    if e.Step? {
      StepIsPending(y.threads, e.t);
      NobodyComesBack(setup, y.server, Pending(y.threads), y.threads[e.t][0], e.o, c);
    }
  }

  /** A client that is gone stays gone. */
  lemma {:induction false} GoneIsForever(setup: Setup, systems: seq<System>, events: seq<Event>, i: nat, j: nat, c: nat)
    requires IsRun(setup, systems, events) && i <= j < |systems|
    requires c < |systems[i].server.all| && c !in systems[i].server.clients
    ensures c < |systems[j].server.all| && c !in systems[j].server.clients
  {
    if i < j {
      GoneIsForever(setup, systems, events, i, j - 1, c);
      EverySystemIsSound(setup, systems, events, j - 1);
      NextKeepsGone(setup, systems[j - 1], events[j - 1], c);
    }
  }

  /** Only its writer makes a client's queue shorter. */
  lemma OnlyTakingMakesRoom(setup: Setup, s: Server, p: multiset<Task>, task: Task, o: Oracle, c: nat)
    requires QueuesOk(s, p) && task in p && c < |s.all| && task != Take(c)
    ensures |At(s, c).queue| <= |At(EffectOf(setup, s, task, o).server, c).queue|
  {
    match task
    case SendTo(d, message) => SendMakesNoRoom(s, d, message, c);
    case SayBye(d) => assert Owed(s, d) == 1; ByeMakesNoRoom(s, d, c);
    case Take(d) => TakenOnlyClient(s, d);
    case Write(d) => WriteMakesNoRoom(s, d, o.go, c);
    case _ => OthersMakeNoRoom(setup, s, task, o, c);
  }

  lemma OthersMakeNoRoom(setup: Setup, s: Server, task: Task, o: Oracle, c: nat)
    requires c < |s.all| && !task.SendTo? && !task.SayBye? && !task.Take? && !task.Write?
    ensures |At(s, c).queue| <= |At(EffectOf(setup, s, task, o).server, c).queue|
  {
    match task
    case CloseQueue(d) => ClosedOnlyClient(s, d);
    case CloseConn(d) => HungUpOnlyClient(s, d);
    case Handle(d, line) => LinesOnlyClient(setup, s, d, line);
    case AllowChallenge(d, nonce) => ChallengesOnlyClient(setup, s, d, nonce, o.now);
    case _ =>
      if OfNobody(task) {
        NobodyChanges(setup, s, task, o);
      }
  }

  lemma SendMakesNoRoom(s: Server, d: nat, message: Message, c: nat)
    requires OpenQueues(s) && c < |s.all|
    ensures |At(s, c).queue| <= |At(Sent(s, d, message).server, c).queue|
  {
  }

  lemma ByeMakesNoRoom(s: Server, d: nat, c: nat)
    requires !At(s, d).closed && c < |s.all|
    ensures |At(s, c).queue| <= |At(SaidBye(s, d).server, c).queue|
  {
  }

  lemma WriteMakesNoRoom(s: Server, d: nat, go: bool, c: nat)
    requires c < |s.all|
    ensures |At(s, c).queue| == |At(Written(s, d, go).server, c).queue|
  {
  }

  lemma NextMakesNoRoom(setup: Setup, y: System, e: Event, c: nat)
    requires Sound(setup, y) && Enabled(y, e) && c < |y.server.all| && !Takes(y, e, Take(c))
    ensures |At(y.server, c).queue| <= |At(Next(setup, y, e).server, c).queue|
    ensures c < |Next(setup, y, e).server.all|
  {
    if e.Step? {
      StepIsPending(y.threads, e.t);
      OnlyTakingMakesRoom(setup, y.server, Pending(y.threads), y.threads[e.t][0], e.o, c);
      NobodyComesBack(setup, y.server, Pending(y.threads), y.threads[e.t][0], e.o, c);
    }
  }

  lemma {:induction false} FullUntilTaken(setup: Setup, systems: seq<System>, events: seq<Event>, k: nat, l: nat,
      c: nat)
    requires IsRun(setup, systems, events) && k <= l < |systems|
    requires c < |systems[k].server.all| && |At(systems[k].server, c).queue| >= SEND_QUEUE
    requires forall j :: k <= j < l ==> !Takes(systems[j], events[j], Take(c))
    ensures c < |systems[l].server.all| && |At(systems[l].server, c).queue| >= SEND_QUEUE
  {
    if k < l {
      FullUntilTaken(setup, systems, events, k, l - 1, c);
      EverySystemIsSound(setup, systems, events, l - 1);
      NextMakesNoRoom(setup, systems[l - 1], events[l - 1], c);
    }
  }

  /** A gap needs the client's writer to make room between the message that is skipped and the one that joins. */
  lemma AGapNeedsATake(setup: Setup, systems: seq<System>, events: seq<Event>, k: nat, l: nat, c: nat)
    requires IsRun(setup, systems, events) && k < l < |events|
    requires Skips(systems[k], events[k], c) && Joins(systems[l], events[l], c)
    ensures exists j :: k < j < l && Takes(systems[j], events[j], Take(c))
  {
    EverySystemIsSound(setup, systems, events, k);
    if forall j :: k < j < l ==> !Takes(systems[j], events[j], Take(c)) {
      assert !Takes(systems[k], events[k], Take(c));
      FullUntilTaken(setup, systems, events, k, l, c);
    }
  }
}
