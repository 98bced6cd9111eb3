/** What the publisher promises, of every system any interleaving of its goroutines reaches. */
module FeedTheorems {
  import opened Prelude
  import opened Names
  import opened Feed
  import opened FeedSteps
  import opened FeedSafety

  // ---------------------------------------------------------------- queues and loops

  /**
   Nothing is ever sent on a closed queue, and no queue or stop channel is closed twice. A registered
   client's queue is open and nobody is about to close it; once the client is removed, exactly one step
   of one goroutine is due to close it, until it is closed.
   */
  lemma QueuesAreClosedOnceByWhoRemoved(setup: Setup, systems: seq<System>, events: seq<Event>, i: nat, c: nat)
    requires IsRun(setup, systems, events) && i < |systems|
    ensures var s, p := systems[i].server, Pending(systems[i].threads);
      && !s.panicked
      && (c in s.clients ==> c < |s.all| && !s.all[c].closed && p[CloseQueue(c)] + p[SayBye(c)] == 0)
      && (c < |s.all| && c !in s.clients && !s.all[c].closed ==> p[CloseQueue(c)] + p[SayBye(c)] == 1)
      && (c < |s.all| && s.all[c].closed ==> p[CloseQueue(c)] + p[SayBye(c)] == 0)
  {
    EverySystemIsSound(setup, systems, events, i);
  }

  /**
   The sampling handle names the only loop whose stop channel is open, and exactly one goroutine runs
   that loop; without a handle every loop there is has been told to stop.
   */
  lemma OneLoopWhileSampling(setup: Setup, systems: seq<System>, events: seq<Event>, i: nat, h: nat)
    requires IsRun(setup, systems, events) && i < |systems|
    ensures var s, p := systems[i].server, Pending(systems[i].threads);
      && (s.sampling == Some(h) <==> p[SampleLoop(h)] > 0 && h !in s.stopped)
      && p[SampleLoop(h)] <= 1
  {
    EverySystemIsSound(setup, systems, events, i);
  }

  /** With no retick or stop due, sampling runs exactly while some registered client watches something. */
  lemma SamplingFollowsWatching(setup: Setup, systems: seq<System>, events: seq<Event>, i: nat)
    requires IsRun(setup, systems, events) && i < |systems|
    requires Pending(systems[i].threads)[Retick] == 0 && Pending(systems[i].threads)[StopSampling] == 0
    ensures systems[i].server.sampling.Some? <==> Watched(systems[i].server)
  {
    EverySystemIsSound(setup, systems, events, i);
  }

  // ---------------------------------------------------------------- bounds

  /**
   Although whether there is room is asked in one critical section and the client registered in
   another, there are never more than 32; nor does a client watch more than 64 names or fall more than
   16 messages behind, nor do requests pile up.
   */
  lemma NothingGrowsWithoutBound(setup: Setup, systems: seq<System>, events: seq<Event>, i: nat, c: nat)
    requires IsRun(setup, systems, events) && i < |systems|
    ensures |systems[i].server.clients| <= MAX_CLIENTS
    ensures |At(systems[i].server, c).watch| <= MAX_WATCH
    ensures |At(systems[i].server, c).queue| <= SEND_QUEUE
    ensures |systems[i].server.requests| <= 1
  {
    EverySystemIsSound(setup, systems, events, i);
  }

  /** What a peer is written is a prefix of what was queued for it, and a goodbye is queued once, last. */
  lemma PeersReadWhatWasQueued(setup: Setup, systems: seq<System>, events: seq<Event>, i: nat, c: nat)
    requires IsRun(setup, systems, events) && i < |systems| && c < |systems[i].server.all|
    ensures var client := systems[i].server.all[c];
      && client.written <= client.queued
      && (ByeMsg in client.queued ==>
        multiset(client.queued)[ByeMsg] == 1 && client.queued[|client.queued| - 1] == ByeMsg)
  {
    EverySystemIsSound(setup, systems, events, i);
    var queued := systems[i].server.all[c].queued;
    if ByeMsg in queued {
      var n := |queued| - 1;
      assert queued == queued[..n] + [queued[n]];
      assert ByeMsg !in queued[..n];
    }
  }

  // ---------------------------------------------------------------- shutting down

  /** Once closing, a server stays so, with the clients and loops it had and nobody registered. */
  ghost predicate StaysClosing(s: Server, t: Server) {
    t.closing && t.loops == s.loops && |t.all| == |s.all| && t.clients == {}
  }

  lemma StepStaysClosing(setup: Setup, s: Server, p: multiset<Task>, task: Task, o: Oracle)
    requires Inv(setup, s, p) && s.closing && task in p
    ensures StaysClosing(s, EffectOf(setup, s, task, o).server)
  {
    match task
    case Retick => assert !Watched(s);
    case Register =>
    case Drop(_) =>
    case CloseQueue(c) => ClosedOnlyClient(s, c);
    case SayBye(c) => assert Owed(s, c) == 1; ByeOnlyClient(s, c);
    case Shutdown =>
    case StopSampling =>
    case Unbind =>
    case _ => OthersQuietly(setup, s, task, o);
  }

  lemma NextStaysClosing(setup: Setup, y: System, e: Event)
    requires Sound(setup, y) && Enabled(y, e) && y.server.closing
    ensures StaysClosing(y.server, Next(setup, y, e).server)
  {
    if e.Step? {
      StepIsPending(y.threads, e.t);
      StepStaysClosing(setup, y.server, Pending(y.threads), y.threads[e.t][0], e.o);
    }
  }

  lemma ClosedStaysQuiet(setup: Setup, y: System)
    requires Sound(setup, y) && y.server.closing
    ensures y.server.clients == {}
    ensures Pending(y.threads)[StopSampling] == 0 ==> y.server.sampling == None
  {
  }

  /**
   From the moment the server is closing, nobody is registered, nobody joins, and no sampling loop
   starts; and once shutting down has stopped sampling, it stays stopped.
   */
  lemma {:induction false} ClosingIsForever(setup: Setup, systems: seq<System>, events: seq<Event>, i: nat, j: nat)
    requires IsRun(setup, systems, events) && i <= j < |systems| && systems[i].server.closing
    ensures StaysClosing(systems[i].server, systems[j].server)
    ensures Pending(systems[j].threads)[StopSampling] == 0 ==> systems[j].server.sampling == None
  {
    if i < j {
      ClosingIsForever(setup, systems, events, i, j - 1);
      EverySystemIsSound(setup, systems, events, j - 1);
      NextStaysClosing(setup, systems[j - 1], events[j - 1]);
      assert systems[j] == Next(setup, systems[j - 1], events[j - 1]);
    }
    EverySystemIsSound(setup, systems, events, j);
    ClosedStaysQuiet(setup, systems[j]);
  }

  // ---------------------------------------------------------------- floors

  lemma {:induction false} SpacedApart(stamps: seq<Time>, floor: Time, a: nat, b: nat)
    requires Spaced(stamps, floor) && a <= b < |stamps|
    ensures stamps[b] - stamps[a] >= (b - a) * floor
  {
    if a < b {
      SpacedApart(stamps, floor, a, b - 1);
    }
  }

  lemma NegativeFactor(a: int, b: int)
    requires b > 0 && a * b < 0
    ensures a < 0
  {
  }

  lemma TimesFits(n: nat, floor: Time, span: Time)
    requires floor > 0 && n * floor <= span
    ensures n <= span / floor
  {
    var q := span / floor;
    assert span == q * floor + span % floor;
    assert (n - (q + 1)) * floor == n * floor - (q * floor + floor);
    NegativeFactor(n - (q + 1), floor);
  }

  /** However many readings in a row were accepted, their span has room for that many floors, less one. */
  ghost predicate AtMostPerWindow(stamps: seq<Time>, floor: Time)
    requires floor > 0
  {
    forall a, b :: 0 <= a <= b < |stamps| ==> b - a + 1 <= (stamps[b] - stamps[a]) / floor + 1
  }

  lemma SpacedIsBounded(stamps: seq<Time>, floor: Time)
    requires Spaced(stamps, floor) && floor > 0
    ensures AtMostPerWindow(stamps, floor)
  {
    forall a, b | 0 <= a <= b < |stamps|
      ensures b - a + 1 <= (stamps[b] - stamps[a]) / floor + 1
    {
      SpacedApart(stamps, floor, a, b);
      TimesFits(b - a, floor, stamps[b] - stamps[a]);
    }
  }

  /**
   Whatever the clock reads, backwards included, a window of any length holds at most as many accepted
   refreshes as floors fit in it and one; likewise pings, and likewise signatures for each client.
   */
  lemma FloorsHoldForAnyClock(setup: Setup, systems: seq<System>, events: seq<Event>, i: nat, c: nat)
    requires IsRun(setup, systems, events) && i < |systems|
    ensures AtMostPerWindow(systems[i].server.refreshes, REFRESH_FLOOR)
    ensures AtMostPerWindow(systems[i].server.pings, PING_FLOOR)
    ensures AtMostPerWindow(At(systems[i].server, c).signed, ChallengeFloor(setup))
  {
    EverySystemIsSound(setup, systems, events, i);
    SpacedIsBounded(systems[i].server.refreshes, REFRESH_FLOOR);
    SpacedIsBounded(systems[i].server.pings, PING_FLOOR);
    SpacedIsBounded(At(systems[i].server, c).signed, ChallengeFloor(setup));
  }

  /** A client's allowance changes only when that client itself is granted a signature. */
  lemma AllowanceIsPrivate(setup: Setup, systems: seq<System>, events: seq<Event>, i: nat, c: nat)
    requires IsRun(setup, systems, events) && i < |events| && c < |systems[i].server.all|
    requires At(systems[i + 1].server, c).lastChallenge != At(systems[i].server, c).lastChallenge
    ensures events[i].Step?
    ensures var task := systems[i].threads[events[i].t][0]; task.AllowChallenge? && task.c == c
    ensures !TooSoon(At(systems[i].server, c).lastChallenge, events[i].o.now, ChallengeFloor(setup))
  {
    var y := systems[i];
    assert systems[i + 1] == Next(setup, y, events[i]);
    EverySystemIsSound(setup, systems, events, i);
    if events[i].Step? {
      StepIsPending(y.threads, events[i].t);
      AllowanceOfStep(setup, y.server, Pending(y.threads), y.threads[events[i].t][0], events[i].o, c);
    }
  }

  lemma AllowanceOfStep(setup: Setup, s: Server, p: multiset<Task>, task: Task, o: Oracle, c: nat)
    requires Inv(setup, s, p) && task in p && c < |s.all|
    requires At(EffectOf(setup, s, task, o).server, c).lastChallenge != At(s, c).lastChallenge
    ensures task.AllowChallenge? && task.c == c
    ensures !TooSoon(At(s, c).lastChallenge, o.now, ChallengeFloor(setup))
  {
    if OfClient(task) {
      if task.SayBye? {
        assert Owed(s, task.c) == 1;
      }
      ClientStepsOnlyClient(setup, s, task, o);
    } else if OfNobody(task) {
      NobodyChanges(setup, s, task, o);
    }
  }

  // ---------------------------------------------------------------- what a client is told first

  /** The greeting of a client is due or queued, once. */
  ghost predicate HelloOk(s: Server, p: multiset<Task>) {
    forall c: nat :: p[SendTo(c, HelloMsg)] + Hellos(s, c) <= if c < |s.all| then 1 else 0
  }

  /** What was queued for a client before is what was queued for it first. */
  ghost predicate QueuedGrows(s: Server, t: Server) {
    |s.all| <= |t.all| && forall c: nat :: c < |s.all| ==> s.all[c].queued <= t.all[c].queued
  }

  function Lengthened(s: Server, d: nat, c: nat, message: Message): seq<Message>
    requires d < |s.all|
  {
    s.all[d].queued + if d == c then [message] else []
  }

  lemma QueuedGrowsBy(s: Server, c: nat, message: Message)
    requires !At(s, c).closed
    ensures QueuedGrows(s, Queued(s, c, message))
    ensures forall d: nat :: d < |s.all| ==> Queued(s, c, message).all[d].queued == Lengthened(s, d, c, message)
  {
  }

  lemma OneClientQueuesNothing(s: Server, t: Server, c: nat)
    requires OnlyClient(s, t, c) && At(t, c).queued == At(s, c).queued
    ensures QueuesNothing(s, t)
  {
  }

  lemma StructureQueuesNothing(setup: Setup, s: Server, task: Task, o: Oracle)
    requires task.Register? || task.Drop? || task.Shutdown?
    ensures QueuesNothing(s, EffectOf(setup, s, task, o).server)
  {
  }

  /** The steps that queue nothing leave every client's history as it was. */
  ghost predicate QueuesNothing(s: Server, t: Server) {
    |s.all| <= |t.all| && forall c: nat :: At(t, c).queued == At(s, c).queued
  }

  lemma OthersQueueNothing(setup: Setup, s: Server, task: Task, o: Oracle)
    requires OpenQueues(s) && !task.SendTo? && !task.SayBye?
    ensures QueuesNothing(s, EffectOf(setup, s, task, o).server)
  {
    if OfClient(task) {
      ClientStepsOnlyClient(setup, s, task, o);
      QuietClientsQueueNothing(setup, s, task, o);
      OneClientQueuesNothing(s, EffectOf(setup, s, task, o).server, task.c);
    } else if OfNobody(task) {
      NobodyChanges(setup, s, task, o);
    } else {
      StructureQueuesNothing(setup, s, task, o);
    }
  }

  lemma SendGrowsQueued(s: Server, c: nat, message: Message)
    requires OpenQueues(s)
    ensures QueuedGrows(s, Sent(s, c, message).server)
  {
    if c in s.clients {
      QueuedGrowsBy(s, c, message);
    }
  }

  lemma StepGrowsQueued(setup: Setup, s: Server, p: multiset<Task>, task: Task, o: Oracle)
    requires QueuesOk(s, p) && task in p
    ensures QueuedGrows(s, EffectOf(setup, s, task, o).server)
  {
    match task
    case SendTo(c, message) => SendGrowsQueued(s, c, message);
    case SayBye(c) => assert Owed(s, c) == 1; QueuedGrowsBy(s, c, ByeMsg);
    case _ =>
      OthersQueueNothing(setup, s, task, o);
      NothingIsGrowth(s, EffectOf(setup, s, task, o).server);
  }

  lemma NothingIsGrowth(s: Server, t: Server)
    requires QueuesNothing(s, t)
    ensures QueuedGrows(s, t)
  {
    forall c: nat | c < |s.all|
      ensures s.all[c].queued <= t.all[c].queued
    {
      assert At(t, c).queued == At(s, c).queued;
    }
  }

  ghost function Hellos(s: Server, c: nat): nat {
    multiset(At(s, c).queued)[HelloMsg]
  }

  lemma HelloFramed(s: Server, p: multiset<Task>, task: Task, e: Effect)
    requires HelloOk(s, p) && task in p && Brings(task, e) && !task.Register?
    requires |e.server.all| >= |s.all|
    requires forall c: nat :: Hellos(e.server, c) <= Hellos(s, c) + if task == SendTo(c, HelloMsg) then 1 else 0
    ensures HelloOk(e.server, After(p, task, e))
  {
    forall c: nat
      ensures After(p, task, e)[SendTo(c, HelloMsg)]
           == p[SendTo(c, HelloMsg)] - if task == SendTo(c, HelloMsg) then 1 else 0
    {
      CountKept(p, task, e, SendTo(c, HelloMsg));
    }
  }

  lemma RegisterGreetsOnce(s: Server, c: nat)
    ensures Added(Registered(s))[SendTo(c, HelloMsg)] == if !s.closing && !s.unbound && c == |s.all| then 1 else 0
  {
    var e := Registered(s);
    PendingOfTwo([Take(|s.all|)], [Read(|s.all|)]);
    assert Pending(e.started)[SendTo(c, HelloMsg)] == 0;
  }

  lemma RegisterQueuesNothing(s: Server)
    ensures forall c: nat :: At(Registered(s).server, c).queued == At(s, c).queued
    ensures |Registered(s).server.all| == |s.all| + if s.closing || s.unbound then 0 else 1
  {
  }

  lemma RegisterKeepsHello(s: Server, p: multiset<Task>)
    requires HelloOk(s, p) && Register in p
    ensures HelloOk(Registered(s).server, After(p, Register, Registered(s)))
  {
    forall c: nat
      ensures After(p, Register, Registered(s))[SendTo(c, HelloMsg)]
           == p[SendTo(c, HelloMsg)] + if !s.closing && !s.unbound && c == |s.all| then 1 else 0
    {
      RegisterGreetsOnce(s, c);
    }
    RegisterQueuesNothing(s);
  }

  lemma SendKeepsHello(setup: Setup, s: Server, p: multiset<Task>, c: nat, message: Message, o: Oracle)
    requires HelloOk(s, p) && QueuesOk(s, p) && SendTo(c, message) in p
    ensures HelloOk(Sent(s, c, message).server, After(p, SendTo(c, message), Sent(s, c, message)))
  {
    StepsBring(setup, s, SendTo(c, message), o);
    if c in s.clients {
      QueuedGrowsBy(s, c, message);
    }
    HelloFramed(s, p, SendTo(c, message), Sent(s, c, message));
  }

  lemma ByeKeepsHello(setup: Setup, s: Server, p: multiset<Task>, c: nat, o: Oracle)
    requires HelloOk(s, p) && QueuesOk(s, p) && SayBye(c) in p
    ensures HelloOk(SaidBye(s, c).server, After(p, SayBye(c), SaidBye(s, c)))
  {
    assert Owed(s, c) == 1;
    QueuedGrowsBy(s, c, ByeMsg);
    StepsBring(setup, s, SayBye(c), o);
    HelloFramed(s, p, SayBye(c), SaidBye(s, c));
  }

  lemma StepKeepsHello(setup: Setup, s: Server, p: multiset<Task>, task: Task, o: Oracle)
    requires HelloOk(s, p) && QueuesOk(s, p) && task in p
    ensures var e := EffectOf(setup, s, task, o); HelloOk(e.server, After(p, task, e))
  {
    match task
    case Register => RegisterKeepsHello(s, p);
    case SendTo(c, message) => SendKeepsHello(setup, s, p, c, message, o);
    case SayBye(c) => ByeKeepsHello(setup, s, p, c, o);
    case _ =>
      OthersQueueNothing(setup, s, task, o);
      StepsBring(setup, s, task, o);
      HelloFramed(s, p, task, EffectOf(setup, s, task, o));
  }

  lemma NextKeepsHello(setup: Setup, y: System, e: Event)
    requires Sound(setup, y) && HelloOk(y.server, Pending(y.threads)) && Enabled(y, e)
    ensures HelloOk(Next(setup, y, e).server, Pending(Next(setup, y, e).threads))
  {
    match e
    case Step(t, o) =>
      var task := y.threads[t][0];
      PendingAfterStep(y.threads, t, EffectOf(setup, y.server, task, o));
      StepKeepsHello(setup, y.server, Pending(y.threads), task, o);
    case PublishCalled(view) => CallKeepsHello(y, Publish(view));
    case PublishPingsCalled(round) => CallKeepsHello(y, PublishPings(round));
    case _ =>
  }

  lemma CallKeepsHello(y: System, task: Task)
    requires HelloOk(y.server, Pending(y.threads)) && (task.Publish? || task.PublishPings?)
    ensures HelloOk(y.server, Pending(y.threads + [[task]]))
  {
    PendingAfterAppend(y.threads, [[task]]);
    PendingOfOne([task]);
    assert multiset([task]) == multiset{task};
  }

  /** In every system a run reaches, each client's greeting is queued or due at most once. */
  lemma {:induction false} GreetedOnce(setup: Setup, systems: seq<System>, events: seq<Event>, i: nat)
    requires IsRun(setup, systems, events) && i < |systems|
    ensures HelloOk(systems[i].server, Pending(systems[i].threads))
  {
    if i == 0 {
      PendingOfTwo([Accept], [Shutdown]);
      assert Pending(START.threads) == multiset{Accept, Shutdown};
    } else {
      GreetedOnce(setup, systems, events, i - 1);
      EverySystemIsSound(setup, systems, events, i - 1);
      NextKeepsHello(setup, systems[i - 1], events[i - 1]);
    }
  }

  lemma NextGrowsQueued(setup: Setup, y: System, e: Event)
    requires Sound(setup, y) && Enabled(y, e)
    ensures QueuedGrows(y.server, Next(setup, y, e).server)
  {
    if e.Step? {
      StepIsPending(y.threads, e.t);
      StepGrowsQueued(setup, y.server, Pending(y.threads), y.threads[e.t][0], e.o);
    }
  }

  lemma RunStepGrows(setup: Setup, systems: seq<System>, events: seq<Event>, i: nat)
    requires IsRun(setup, systems, events) && i < |events|
    ensures QueuedGrows(systems[i].server, systems[i + 1].server)
  {
    EverySystemIsSound(setup, systems, events, i);
    NextGrowsQueued(setup, systems[i], events[i]);
  }

  ghost predicate Growing(servers: seq<Server>) {
    forall k :: 0 < k < |servers| ==> QueuedGrows(servers[k - 1], servers[k])
  }

  lemma {:induction false} GrowthAddsUp(servers: seq<Server>, i: nat, j: nat)
    requires Growing(servers) && i <= j < |servers|
    ensures QueuedGrows(servers[i], servers[j])
  {
    if i < j {
      GrowthAddsUp(servers, i, j - 1);
      GrowthAdds(servers[i], servers[j - 1], servers[j]);
    }
  }

  /** What was queued for a client stays the beginning of what is queued for it. */
  lemma HistoryOnlyGrows(setup: Setup, systems: seq<System>, events: seq<Event>, i: nat, j: nat)
    requires IsRun(setup, systems, events) && i <= j < |systems|
    ensures QueuedGrows(systems[i].server, systems[j].server)
  {
    var servers := seq(|systems|, k requires 0 <= k < |systems| => systems[k].server);
    forall k | 0 < k < |servers|
      ensures QueuedGrows(servers[k - 1], servers[k])
    {
      RunStepGrows(setup, systems, events, k - 1);
    }
    GrowthAddsUp(servers, i, j);
  }

  lemma GrowthAdds(a: Server, b: Server, c: Server)
    requires QueuedGrows(a, b) && QueuedGrows(b, c)
    ensures QueuedGrows(a, c)
  {
  }

  /**
   A client's first message is its greeting exactly when nothing was queued for it at the moment its
   greeting was: the greeting is sent outside the critical section that registers the client, so a
   publication, an answer or a sample can slip in before it.
   */
  lemma GreetedFirstExactlyWhenNothingSlipsIn(setup: Setup, systems: seq<System>, events: seq<Event>, k: nat, j: nat,
      c: nat)
    requires IsRun(setup, systems, events) && k < j < |systems|
    requires events[k].Step? && systems[k].threads[events[k].t][0] == SendTo(c, HelloMsg)
    requires At(systems[k + 1].server, c).queued != At(systems[k].server, c).queued
    ensures |At(systems[j].server, c).queued| > 0
    ensures At(systems[j].server, c).queued[0] == HelloMsg <==> At(systems[k].server, c).queued == []
  {
    var y := systems[k];
    StepIsPending(y.threads, events[k].t);
    EverySystemIsSound(setup, systems, events, k);
    GreetedOnce(setup, systems, events, k);
    HistoryOnlyGrows(setup, systems, events, k + 1, j);
    assert systems[k + 1] == Next(setup, y, events[k]);
    HelloJoins(y.server, Pending(y.threads), c);
  }

  lemma HelloJoins(s: Server, p: multiset<Task>, c: nat)
    requires QueuesOk(s, p) && HelloOk(s, p) && SendTo(c, HelloMsg) in p
    requires At(Sent(s, c, HelloMsg).server, c).queued != At(s, c).queued
    ensures c < |s.all| && At(Sent(s, c, HelloMsg).server, c).queued == At(s, c).queued + [HelloMsg]
    ensures HelloMsg !in At(s, c).queued
  {
  }
}
