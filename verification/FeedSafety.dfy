/** What every interleaving of the publisher's goroutines keeps. */
module FeedSafety {
  import opened Prelude
  import opened Names
  import opened Feed
  import opened FeedSteps

  // ---------------------------------------------------------------- invariants

  /** A client that was removed and whose queue is not closed yet. */
  ghost function Owed(s: Server, c: nat): nat {
    if c < |s.all| && c !in s.clients && !s.all[c].closed then 1 else 0
  }

  /**
   A registered client's queue is open; a removed client's open queue is due to be closed by exactly
   one step of one goroutine; nothing else is ever due to close a queue or to say goodbye on it.
   */
  ghost predicate QueuesOk(s: Server, p: multiset<Task>) {
    && (forall c :: c in s.clients ==> c < |s.all| && !s.all[c].closed)
    && (forall c: nat :: p[CloseQueue(c)] + p[SayBye(c)] == Owed(s, c))
    && !s.panicked
  }

  /** There is one accept loop, and room for the client it is about to register. */
  ghost predicate AcceptOk(s: Server, p: multiset<Task>) {
    && p[Accept] + p[CheckFull] + p[Register] <= 1
    && |s.clients| + p[Register] <= MAX_CLIENTS
  }

  /** The loop whose handle is set is the one whose stop channel is open, and it is there exactly once. */
  ghost predicate LoopsOk(s: Server, p: multiset<Task>) {
    && (s.sampling.Some? ==> s.sampling.value < s.loops)
    && (forall h :: h in s.stopped ==> h < s.loops)
    && (forall h: nat :: h < s.loops ==> (h in s.stopped <==> s.sampling != Some(h)))
    && (forall h: nat :: p[SampleLoop(h)] <= if h < s.loops then 1 else 0)
    && (forall h: nat :: s.sampling == Some(h) ==> p[SampleLoop(h)] == 1)
  }

  /** With no retick due, sampling runs exactly while somebody watches something. */
  ghost predicate TickOk(s: Server, p: multiset<Task>) {
    p[Retick] == 0 && p[StopSampling] == 0 ==> (s.sampling.Some? <==> Watched(s))
  }

  /** Shutting down happens once; from then on nobody is registered, and after it nothing samples. */
  ghost predicate ShutdownOk(s: Server, p: multiset<Task>) {
    && p[Shutdown] == (if s.closing then 0 else 1)
    && p[StopSampling] <= (if s.closing then 1 else 0)
    && (p[Unbind] > 0 || s.unbound ==> s.closing)
    && (s.closing ==> s.clients == {})
    && (s.closing && p[StopSampling] == 0 ==> s.sampling == None)
  }

  /** What has been queued and not written yet. */
  function InTransit(client: Client): seq<Message> {
    (if client.hand.Some? then [client.hand.value] else []) + client.queue
  }

  ghost predicate ByeIsLast(queued: seq<Message>) {
    forall i :: 0 <= i < |queued| && queued[i] == ByeMsg ==> i == |queued| - 1
  }

  ghost predicate ClientOk(client: Client) {
    && |client.queue| <= SEND_QUEUE
    && |client.watch| <= MAX_WATCH
    && client.queued == client.written + InTransit(client)
    && ByeIsLast(client.queued)
  }

  ghost predicate ClientsOk(s: Server) {
    forall c :: 0 <= c < |s.all| ==> ClientOk(s.all[c])
  }

  /** One writer to a client, with a message in hand exactly when it is about to write. */
  ghost predicate HandsOk(s: Server, p: multiset<Task>) {
    && (forall c: nat :: p[Take(c)] + p[Write(c)] <= if c < |s.all| then 1 else 0)
    && (forall c: nat :: p[Take(c)] > 0 ==> At(s, c).hand == None)
    && (forall c: nat :: p[Write(c)] > 0 ==> At(s, c).hand.Some?)
  }

  /** A goodbye is only ever queued by shutting down, on a client that is gone, and then no other is due. */
  ghost predicate ByesOk(s: Server, p: multiset<Task>) {
    && (forall c: nat :: p[SendTo(c, ByeMsg)] == 0)
    && (forall c: nat :: c < |s.all| && ByeMsg in s.all[c].queued ==> c !in s.clients && p[SayBye(c)] == 0)
  }

  /** Accepted readings, each at least the floor after the one before. */
  ghost predicate Spaced(stamps: seq<Time>, floor: Time) {
    && (forall i :: 0 <= i < |stamps| ==> stamps[i] != 0)
    && forall i :: 0 < i < |stamps| ==> stamps[i] - stamps[i - 1] >= floor
  }

  ghost predicate Stamped(stamps: seq<Time>, last: Time, floor: Time) {
    Spaced(stamps, floor) && last == if stamps == [] then 0 else stamps[|stamps| - 1]
  }

  ghost predicate FloorsOk(setup: Setup, s: Server) {
    && Stamped(s.refreshes, s.lastRefresh, REFRESH_FLOOR)
    && Stamped(s.pings, s.lastPing, PING_FLOOR)
    && (forall c :: 0 <= c < |s.all| ==> Stamped(s.all[c].signed, s.all[c].lastChallenge, ChallengeFloor(setup)))
    && |s.requests| <= 1
  }

  ghost predicate Inv(setup: Setup, s: Server, p: multiset<Task>) {
    && QueuesOk(s, p)
    && AcceptOk(s, p)
    && LoopsOk(s, p)
    && TickOk(s, p)
    && ShutdownOk(s, p)
    && ClientsOk(s)
    && HandsOk(s, p)
    && ByesOk(s, p)
    && FloorsOk(setup, s)
  }

  // ---------------------------------------------------------------- queues

  ghost predicate SameQueues(s: Server, t: Server) {
    && |t.all| == |s.all|
    && t.clients == s.clients
    && t.panicked == s.panicked
    && forall c :: 0 <= c < |s.all| ==> t.all[c].closed == s.all[c].closed
  }

  lemma QueuesFramed(s: Server, p: multiset<Task>, task: Task, e: Effect)
    requires QueuesOk(s, p) && task in p && Brings(task, e)
    requires !Closes(task) && !task.Drop? && !task.Shutdown?
    requires SameQueues(s, e.server)
    ensures QueuesOk(e.server, After(p, task, e))
  {
    forall c: nat
      ensures After(p, task, e)[CloseQueue(c)] == p[CloseQueue(c)]
      ensures After(p, task, e)[SayBye(c)] == p[SayBye(c)]
    {
      CountKept(p, task, e, CloseQueue(c));
      CountKept(p, task, e, SayBye(c));
    }
    forall c: nat
      ensures Owed(e.server, c) == Owed(s, c)
    {
    }
  }

  lemma NobodyNewIsOwed(s: Server)
    requires OpenQueues(s)
    ensures OpenQueues(Registered(s).server)
    ensures forall c: nat :: Owed(Registered(s).server, c) == Owed(s, c)
  {
  }

  lemma RegisterKeepsQueues(s: Server, p: multiset<Task>)
    requires QueuesOk(s, p) && Register in p
    ensures var e := Registered(s); QueuesOk(e.server, After(p, Register, e))
  {
    var e := Registered(s);
    RegisteredBrings(s);
    forall c: nat
      ensures After(p, Register, e)[CloseQueue(c)] == p[CloseQueue(c)]
      ensures After(p, Register, e)[SayBye(c)] == p[SayBye(c)]
    {
      CountKept(p, Register, e, CloseQueue(c));
      CountKept(p, Register, e, SayBye(c));
    }
    NobodyNewIsOwed(s);
  }

  /** Removing a client takes on the one close its queue is owed. */
  lemma DropOwes(s: Server, d: nat, c: nat)
    ensures Added(Dropped(s, d))[SayBye(c)] == 0
    ensures Added(Dropped(s, d))[CloseQueue(c)] == if d in s.clients && c == d then 1 else 0
  {
    if d in s.clients {
      assert Added(Dropped(s, d)) == multiset{CloseQueue(d), CloseConn(d), Retick};
    } else {
      assert Added(Dropped(s, d)) == multiset{};
    }
  }

  lemma DropKeepsQueues(s: Server, p: multiset<Task>, d: nat)
    requires QueuesOk(s, p) && Drop(d) in p
    ensures var e := Dropped(s, d); QueuesOk(e.server, After(p, Drop(d), e))
  {
    var e := Dropped(s, d);
    forall c: nat
      ensures After(p, Drop(d), e)[SayBye(c)] == p[SayBye(c)]
      ensures After(p, Drop(d), e)[CloseQueue(c)] == p[CloseQueue(c)] + if d in s.clients && c == d then 1 else 0
    {
      DropOwes(s, d, c);
    }
    DroppedIsOwed(s, d);
  }

  lemma DroppedIsOwed(s: Server, d: nat)
    requires OpenQueues(s)
    ensures OpenQueues(Dropped(s, d).server)
    ensures forall c: nat :: Owed(Dropped(s, d).server, c) == Owed(s, c) + if d in s.clients && c == d then 1 else 0
  {
  }

  lemma CloseKeepsQueues(s: Server, p: multiset<Task>, d: nat)
    requires QueuesOk(s, p) && CloseQueue(d) in p
    ensures var e := Only(QueueClosed(s, d)); QueuesOk(e.server, After(p, CloseQueue(d), e))
  {
    var e := Only(QueueClosed(s, d));
    assert Added(e) == multiset{};
    assert Owed(s, d) == 1;
  }

  lemma ByeKeepsQueues(s: Server, p: multiset<Task>, d: nat)
    requires QueuesOk(s, p) && SayBye(d) in p
    ensures var e := SaidBye(s, d); QueuesOk(e.server, After(p, SayBye(d), e))
  {
    var e := SaidBye(s, d);
    assert Added(e) == multiset{CloseQueue(d)};
    assert Owed(s, d) == 1;
  }

  lemma ShutdownKeepsQueues(s: Server, p: multiset<Task>, order: seq<nat>)
    requires QueuesOk(s, p) && Shutdown in p && Enumerates(order, s.clients)
    ensures var e := ShutDown(s, order); QueuesOk(e.server, After(p, Shutdown, e))
  {
    var e := ShutDown(s, order);
    forall c: nat
      ensures After(p, Shutdown, e)[CloseQueue(c)] + After(p, Shutdown, e)[SayBye(c)] == Owed(e.server, c)
    {
      ByesOnce(order, c);
      assert multiset(e.next) == multiset(Byes(order)) + multiset{StopSampling, Unbind};
      assert c in order <==> c in Elements(order);
    }
  }

  lemma SamplingKeepsQueues(setup: Setup, s: Server, p: multiset<Task>, task: Task, o: Oracle)
    requires QueuesOk(s, p) && LoopsOk(s, p) && task in p
    requires task.Retick? || task.StopSampling? || task.Unbind?
    ensures var e := EffectOf(setup, s, task, o); QueuesOk(e.server, After(p, task, e))
  {
    StepsBring(setup, s, task, o);
    QueuesFramed(s, p, task, EffectOf(setup, s, task, o));
  }

  lemma OthersKeepQueues(setup: Setup, s: Server, p: multiset<Task>, task: Task, o: Oracle)
    requires QueuesOk(s, p) && task in p && !Structural(task)
    ensures var e := EffectOf(setup, s, task, o); QueuesOk(e.server, After(p, task, e))
  {
    OthersQuietly(setup, s, task, o);
    StepsBring(setup, s, task, o);
    QueuesFramed(s, p, task, EffectOf(setup, s, task, o));
  }

  lemma StepKeepsQueues(setup: Setup, s: Server, p: multiset<Task>, task: Task, o: Oracle)
    requires QueuesOk(s, p) && LoopsOk(s, p) && task in p && CanStep(s, task, o)
    ensures var e := EffectOf(setup, s, task, o); QueuesOk(e.server, After(p, task, e))
  {
    match task
    case Register => RegisterKeepsQueues(s, p);
    case Drop(c) => DropKeepsQueues(s, p, c);
    case CloseQueue(c) => CloseKeepsQueues(s, p, c);
    case SayBye(c) => ByeKeepsQueues(s, p, c);
    case Shutdown => ShutdownKeepsQueues(s, p, o.order);
    case Retick => SamplingKeepsQueues(setup, s, p, task, o);
    case StopSampling => SamplingKeepsQueues(setup, s, p, task, o);
    case Unbind => SamplingKeepsQueues(setup, s, p, task, o);
    case _ => OthersKeepQueues(setup, s, p, task, o);
  }

  // ---------------------------------------------------------------- the accept loop

  lemma AcceptFramed(s: Server, p: multiset<Task>, task: Task, e: Effect)
    requires AcceptOk(s, p) && task in p && Brings(task, e)
    requires !Accepts(task)
    requires |e.server.clients| <= |s.clients|
    ensures AcceptOk(e.server, After(p, task, e))
  {
    CountKept(p, task, e, Accept);
    CountKept(p, task, e, CheckFull);
    CountKept(p, task, e, Register);
  }

  lemma AcceptLoopKeepsAccept(setup: Setup, s: Server, p: multiset<Task>, task: Task, o: Oracle)
    requires AcceptOk(s, p) && task in p && (task.Accept? || task.CheckFull?)
    ensures var e := EffectOf(setup, s, task, o); AcceptOk(e.server, After(p, task, e))
  {
    var e := EffectOf(setup, s, task, o);
    assert Pending(e.started) == multiset{};
  }

  lemma RegisterAccepts(s: Server)
    ensures var more := Added(Registered(s)); more[Accept] == 1 && more[CheckFull] == 0 && more[Register] == 0
  {
    var e := Registered(s);
    PendingOfTwo([Take(|s.all|)], [Read(|s.all|)]);
    if s.closing || s.unbound {
      assert Added(e) == multiset{Accept};
    } else {
      assert multiset(e.next)[Accept] == 1 && multiset(e.next)[CheckFull] == 0 && multiset(e.next)[Register] == 0;
    }
  }

  lemma RegisterKeepsAccept(s: Server, p: multiset<Task>)
    requires AcceptOk(s, p) && OpenQueues(s) && Register in p
    ensures var e := Registered(s); AcceptOk(e.server, After(p, Register, e))
  {
    RegisterAccepts(s);
    assert |s.all| !in s.clients;
  }

  lemma RemovingIsFewer(s: Server, c: nat)
    ensures |(s.clients - {c})| <= |s.clients|
  {
    if c in s.clients {
      assert s.clients == (s.clients - {c}) + {c};
    } else {
      assert s.clients == s.clients - {c};
    }
  }

  lemma StructuralRemoves(setup: Setup, s: Server, task: Task, o: Oracle)
    requires Structural(task) && !task.Register?
    ensures |EffectOf(setup, s, task, o).server.clients| <= |s.clients|
  {
    match task
    case Drop(c) => RemovingIsFewer(s, c);
    case _ =>
  }

  lemma StepKeepsAccept(setup: Setup, s: Server, p: multiset<Task>, task: Task, o: Oracle)
    requires AcceptOk(s, p) && OpenQueues(s) && task in p
    ensures var e := EffectOf(setup, s, task, o); AcceptOk(e.server, After(p, task, e))
  {
    if task.Register? {
      RegisterKeepsAccept(s, p);
    } else if Accepts(task) {
      AcceptLoopKeepsAccept(setup, s, p, task, o);
    } else {
      if Structural(task) {
        StructuralRemoves(setup, s, task, o);
      } else {
        OthersQuietly(setup, s, task, o);
      }
      StepsBring(setup, s, task, o);
      AcceptFramed(s, p, task, EffectOf(setup, s, task, o));
    }
  }

  // ---------------------------------------------------------------- sampling loops

  lemma LoopsFramed(s: Server, p: multiset<Task>, task: Task, e: Effect)
    requires LoopsOk(s, p) && task in p && Brings(task, e)
    requires !task.SampleLoop? && !task.Retick?
    requires e.server.sampling == s.sampling && e.server.loops == s.loops && e.server.stopped == s.stopped
    ensures LoopsOk(e.server, After(p, task, e))
  {
    forall h: nat
      ensures After(p, task, e)[SampleLoop(h)] == p[SampleLoop(h)]
    {
      CountKept(p, task, e, SampleLoop(h));
    }
  }

  lemma SampleLoopKeepsLoops(setup: Setup, s: Server, p: multiset<Task>, l: nat, o: Oracle)
    requires LoopsOk(s, p) && SampleLoop(l) in p && CanStep(s, SampleLoop(l), o)
    ensures var e := EffectOf(setup, s, SampleLoop(l), o); LoopsOk(e.server, After(p, SampleLoop(l), e))
  {
    var e := EffectOf(setup, s, SampleLoop(l), o);
    if o.go {
      assert Added(e) == multiset{SampleOnce, SampleLoop(l)};
    } else {
      assert Added(e) == multiset{};
    }
  }

  lemma StoppingKeepsLoops(s: Server, p: multiset<Task>, task: Task)
    requires LoopsOk(s, p) && task in p && !task.SampleLoop?
    ensures LoopsOk(Stopped(s), After(p, task, Only(Stopped(s))))
  {
    assert Added(Only(Stopped(s))) == multiset{};
  }

  lemma RetickKeepsLoops(s: Server, p: multiset<Task>)
    requires LoopsOk(s, p) && Retick in p
    ensures var e := Reticked(s); LoopsOk(e.server, After(p, Retick, e))
  {
    var e := Reticked(s);
    if Watched(s) && s.sampling == None {
      PendingOfOne([SampleLoop(s.loops)]);
      assert Added(e) == multiset{SampleLoop(s.loops)};
    } else if Watched(s) {
      assert Added(e) == multiset{};
    } else {
      StoppingKeepsLoops(s, p, Retick);
    }
  }

  lemma StructuralKeepsLoops(setup: Setup, s: Server, task: Task, o: Oracle)
    requires Structural(task) && !task.Retick? && !task.StopSampling?
    ensures var t := EffectOf(setup, s, task, o).server;
      t.sampling == s.sampling && t.loops == s.loops && t.stopped == s.stopped
  {
  }

  lemma OthersKeepLoops(setup: Setup, s: Server, p: multiset<Task>, task: Task, o: Oracle)
    requires LoopsOk(s, p) && OpenQueues(s) && task in p
    requires !task.SampleLoop? && !task.Retick? && !task.StopSampling?
    ensures var e := EffectOf(setup, s, task, o); LoopsOk(e.server, After(p, task, e))
  {
    if Structural(task) {
      StructuralKeepsLoops(setup, s, task, o);
    } else {
      OthersQuietly(setup, s, task, o);
    }
    StepsBring(setup, s, task, o);
    LoopsFramed(s, p, task, EffectOf(setup, s, task, o));
  }

  lemma StepKeepsLoops(setup: Setup, s: Server, p: multiset<Task>, task: Task, o: Oracle)
    requires LoopsOk(s, p) && OpenQueues(s) && task in p && CanStep(s, task, o)
    ensures var e := EffectOf(setup, s, task, o); LoopsOk(e.server, After(p, task, e))
  {
    match task
    case SampleLoop(h) => SampleLoopKeepsLoops(setup, s, p, h, o);
    case Retick => RetickKeepsLoops(s, p);
    case StopSampling => StoppingKeepsLoops(s, p, StopSampling);
    case _ => OthersKeepLoops(setup, s, p, task, o);
  }

  // ---------------------------------------------------------------- sampling while somebody watches

  ghost predicate SameWatches(s: Server, t: Server) {
    && t.clients == s.clients
    && forall c :: c in s.clients ==> At(t, c).watch == At(s, c).watch
  }

  lemma WatchedFramed(s: Server, t: Server)
    requires SameWatches(s, t)
    ensures Watched(t) <==> Watched(s)
  {
    if Watched(s) {
      var c :| c in s.clients && At(s, c).watch != {};
      assert c in t.clients && At(t, c).watch != {};
    }
    if Watched(t) {
      var c :| c in t.clients && At(t, c).watch != {};
      assert c in s.clients && At(s, c).watch != {};
    }
  }

  lemma TickFramed(s: Server, p: multiset<Task>, task: Task, e: Effect)
    requires TickOk(s, p) && task in p && !task.Retick? && !task.StopSampling?
    requires e.server.sampling == s.sampling && SameWatches(s, e.server)
    ensures TickOk(e.server, After(p, task, e))
  {
    WatchedFramed(s, e.server);
    assert After(p, task, e)[Retick] >= p[Retick];
    assert After(p, task, e)[StopSampling] >= p[StopSampling];
  }

  /** A retick or a stop that is due promises nothing yet. */
  lemma TickIsDue(p: multiset<Task>, task: Task, e: Effect, due: Task)
    requires due == Retick || due == StopSampling
    requires due in e.next
    ensures TickOk(e.server, After(p, task, e))
  {
    assert due in multiset(e.next);
  }

  lemma RegisterKeepsWatches(s: Server)
    requires OpenQueues(s)
    ensures Watched(Registered(s).server) <==> Watched(s)
    ensures Registered(s).server.sampling == s.sampling
  {
    var t := Registered(s).server;
    if Watched(s) {
      var c :| c in s.clients && At(s, c).watch != {};
      assert c in t.clients && At(t, c).watch != {};
    }
    if Watched(t) {
      var c :| c in t.clients && At(t, c).watch != {};
      assert c in s.clients && At(s, c).watch != {};
    }
  }

  lemma RegisterKeepsTick(s: Server, p: multiset<Task>)
    requires TickOk(s, p) && OpenQueues(s) && Register in p
    ensures var e := Registered(s); TickOk(e.server, After(p, Register, e))
  {
    var e := Registered(s);
    RegisterKeepsWatches(s);
    assert After(p, Register, e)[Retick] >= p[Retick];
    assert After(p, Register, e)[StopSampling] >= p[StopSampling];
  }

  /** A retick leaves the handle set exactly when somebody watches something. */
  lemma RetickSettles(s: Server)
    ensures Reticked(s).server.sampling.Some? <==> Watched(Reticked(s).server)
    ensures SameWatches(s, Reticked(s).server)
  {
    WatchedFramed(s, Reticked(s).server);
  }

  lemma StopKeepsTick(s: Server, p: multiset<Task>, e: Effect)
    requires ShutdownOk(s, p) && StopSampling in p && e == Only(Stopped(s))
    ensures TickOk(e.server, After(p, StopSampling, e))
  {
    assert !Watched(s);
    WatchedFramed(s, e.server);
  }

  lemma HandleKeepsTick(setup: Setup, s: Server, p: multiset<Task>, c: nat, line: ClientMessage)
    requires TickOk(s, p) && Handle(c, line) in p
    ensures var e := LineHandled(setup, s, c, line); TickOk(e.server, After(p, Handle(c, line), e))
  {
    var e := LineHandled(setup, s, c, line);
    if Retick in e.next {
      TickIsDue(p, Handle(c, line), e, Retick);
    } else {
      assert e.server == s;
      TickFramed(s, p, Handle(c, line), e);
    }
  }

  lemma OneClientKeepsWatches(s: Server, t: Server, c: nat)
    requires OnlyClient(s, t, c) && At(t, c).watch == At(s, c).watch
    ensures SameWatches(s, t)
  {
  }

  lemma NobodyKeepsSampling(setup: Setup, s: Server, task: Task, o: Oracle)
    requires OfNobody(task) && !task.Retick? && !task.StopSampling?
    ensures EffectOf(setup, s, task, o).server.sampling == s.sampling
  {
  }

  lemma OthersKeepTick(setup: Setup, s: Server, p: multiset<Task>, task: Task, o: Oracle)
    requires TickOk(s, p) && QueuesOk(s, p) && task in p
    requires !task.Retick? && !task.StopSampling? && !task.Register? && !task.Drop? && !task.Shutdown? && !task.Handle?
    ensures var e := EffectOf(setup, s, task, o); TickOk(e.server, After(p, task, e))
  {
    if OfClient(task) {
      if task.SayBye? {
        assert Owed(s, task.c) == 1;
      }
      ClientStepsOnlyClient(setup, s, task, o);
      OneClientKeepsWatches(s, EffectOf(setup, s, task, o).server, task.c);
    } else {
      NobodyChanges(setup, s, task, o);
      NobodyKeepsSampling(setup, s, task, o);
    }
    TickFramed(s, p, task, EffectOf(setup, s, task, o));
  }

  lemma StepKeepsTick(setup: Setup, s: Server, p: multiset<Task>, task: Task, o: Oracle)
    requires TickOk(s, p) && QueuesOk(s, p) && ShutdownOk(s, p) && task in p
    ensures var e := EffectOf(setup, s, task, o); TickOk(e.server, After(p, task, e))
  {
    match task
    case Retick => RetickSettles(s);
    case StopSampling => StopKeepsTick(s, p, EffectOf(setup, s, task, o));
    case Register => RegisterKeepsTick(s, p);
    case Drop(c) =>
      if c in s.clients {
        TickIsDue(p, task, Dropped(s, c), Retick);
      } else {
        TickFramed(s, p, task, Dropped(s, c));
      }
    case Shutdown => TickIsDue(p, task, ShutDown(s, o.order), StopSampling);
    case Handle(c, line) => HandleKeepsTick(setup, s, p, c, line);
    case _ => OthersKeepTick(setup, s, p, task, o);
  }

  // ---------------------------------------------------------------- shutting down

  ghost predicate SameEnd(s: Server, t: Server) {
    && t.closing == s.closing && t.unbound == s.unbound
    && (s.closing ==> t.clients == s.clients && t.sampling == s.sampling)
  }

  lemma ShutdownFramed(s: Server, p: multiset<Task>, task: Task, e: Effect)
    requires ShutdownOk(s, p) && task in p && Brings(task, e)
    requires !task.Shutdown? && !Stops(task)
    requires SameEnd(s, e.server)
    ensures ShutdownOk(e.server, After(p, task, e))
  {
    CountKept(p, task, e, Shutdown);
    CountKept(p, task, e, StopSampling);
    CountKept(p, task, e, Unbind);
  }

  lemma ShutdownKeepsShutdown(s: Server, p: multiset<Task>, order: seq<nat>)
    requires ShutdownOk(s, p) && Shutdown in p && Distinct(order)
    ensures var e := ShutDown(s, order); ShutdownOk(e.server, After(p, Shutdown, e))
  {
    var e := ShutDown(s, order);
    ByesOnce(order, 0);
    assert multiset(e.next) == multiset(Byes(order)) + multiset{StopSampling, Unbind};
    assert multiset(Byes(order))[Shutdown] == 0 && multiset(Byes(order))[StopSampling] == 0;
    assert Pending(e.started) == multiset{};
  }

  lemma StopsKeepShutdown(setup: Setup, s: Server, p: multiset<Task>, task: Task, o: Oracle)
    requires ShutdownOk(s, p) && task in p && Stops(task)
    ensures var e := EffectOf(setup, s, task, o); ShutdownOk(e.server, After(p, task, e))
  {
    assert Added(EffectOf(setup, s, task, o)) == multiset{};
  }

  lemma RetickKeepsShutdown(s: Server, p: multiset<Task>)
    requires ShutdownOk(s, p) && Retick in p
    ensures var e := Reticked(s); ShutdownOk(e.server, After(p, Retick, e))
  {
    var e := Reticked(s);
    ReticksBring(s);
    CountKept(p, Retick, e, Shutdown);
    CountKept(p, Retick, e, StopSampling);
    CountKept(p, Retick, e, Unbind);
    if s.closing {
      assert !Watched(s);
    }
  }

  lemma StructuralKeepsEnd(setup: Setup, s: Server, p: multiset<Task>, task: Task, o: Oracle)
    requires ShutdownOk(s, p)
    requires task.Register? || task.Drop? || task.CloseQueue? || task.SayBye?
    ensures SameEnd(s, EffectOf(setup, s, task, o).server)
  {
  }

  lemma OthersKeepShutdown(setup: Setup, s: Server, p: multiset<Task>, task: Task, o: Oracle)
    requires ShutdownOk(s, p) && OpenQueues(s) && task in p
    requires !task.Shutdown? && !Stops(task) && !task.Retick?
    ensures var e := EffectOf(setup, s, task, o); ShutdownOk(e.server, After(p, task, e))
  {
    if Structural(task) {
      StructuralKeepsEnd(setup, s, p, task, o);
    } else {
      OthersQuietly(setup, s, task, o);
    }
    StepsBring(setup, s, task, o);
    ShutdownFramed(s, p, task, EffectOf(setup, s, task, o));
  }

  lemma StepKeepsShutdown(setup: Setup, s: Server, p: multiset<Task>, task: Task, o: Oracle)
    requires ShutdownOk(s, p) && OpenQueues(s) && task in p && CanStep(s, task, o)
    ensures var e := EffectOf(setup, s, task, o); ShutdownOk(e.server, After(p, task, e))
  {
    match task
    case Shutdown => ShutdownKeepsShutdown(s, p, o.order);
    case StopSampling => StopsKeepShutdown(setup, s, p, task, o);
    case Unbind => StopsKeepShutdown(setup, s, p, task, o);
    case Retick => RetickKeepsShutdown(s, p);
    case _ => OthersKeepShutdown(setup, s, p, task, o);
  }

  // ---------------------------------------------------------------- floors

  ghost predicate SignedOk(setup: Setup, client: Client) {
    Stamped(client.signed, client.lastChallenge, ChallengeFloor(setup))
  }

  lemma StampIsSpaced(stamps: seq<Time>, last: Time, floor: Time, now: Time)
    requires Stamped(stamps, last, floor) && now != 0 && !TooSoon(last, now, floor)
    ensures Stamped(stamps + [now], now, floor)
  {
  }

  lemma OneClientKeepsFloors(setup: Setup, s: Server, t: Server, c: nat)
    requires FloorsOk(setup, s) && OnlyClient(s, t, c)
    requires c < |s.all| ==> SignedOk(setup, At(t, c))
    ensures FloorsOk(setup, t)
  {
  }

  lemma ChallengeKeepsFloors(setup: Setup, s: Server, c: nat, nonce: string, now: Time)
    requires FloorsOk(setup, s) && now != 0
    ensures FloorsOk(setup, ChallengeAllowed(setup, s, c, nonce, now).server)
  {
    var client := At(s, c);
    if !TooSoon(client.lastChallenge, now, ChallengeFloor(setup)) {
      var stamped := client.(lastChallenge := now, signed := client.signed + [now]);
      PutOnlyClient(s, c, stamped);
      if c < |s.all| {
        StampIsSpaced(client.signed, client.lastChallenge, ChallengeFloor(setup), now);
      }
      OneClientKeepsFloors(setup, s, Put(s, c, stamped), c);
    }
  }

  lemma AskKeepsFloors(setup: Setup, s: Server, request: Request, now: Time)
    requires FloorsOk(setup, s) && now != 0
    ensures FloorsOk(setup, Asked(s, request, now).server)
  {
    if request.Refresh? {
      if !TooSoon(s.lastRefresh, now, REFRESH_FLOOR) {
        StampIsSpaced(s.refreshes, s.lastRefresh, REFRESH_FLOOR, now);
      }
    } else {
      if !TooSoon(s.lastPing, now, PING_FLOOR) {
        StampIsSpaced(s.pings, s.lastPing, PING_FLOOR, now);
      }
    }
  }

  lemma RegisterKeepsFloors(setup: Setup, s: Server)
    requires FloorsOk(setup, s)
    ensures FloorsOk(setup, Registered(s).server)
  {
  }

  lemma StepKeepsFloors(setup: Setup, s: Server, p: multiset<Task>, task: Task, o: Oracle)
    requires FloorsOk(setup, s) && QueuesOk(s, p) && task in p && CanStep(s, task, o)
    ensures FloorsOk(setup, EffectOf(setup, s, task, o).server)
  {
    match task
    case AllowChallenge(c, nonce) => ChallengeKeepsFloors(setup, s, c, nonce, o.now);
    case Ask(request) => AskKeepsFloors(setup, s, request, o.now);
    case Register => RegisterKeepsFloors(setup, s);
    case Deliver(_) =>
    case _ => OthersKeepFloors(setup, s, p, task, o);
  }

  lemma OthersKeepFloors(setup: Setup, s: Server, p: multiset<Task>, task: Task, o: Oracle)
    requires FloorsOk(setup, s) && QueuesOk(s, p) && task in p
    requires !task.AllowChallenge? && !task.Ask? && !task.Register? && !task.Deliver?
    ensures FloorsOk(setup, EffectOf(setup, s, task, o).server)
  {
    if OfClient(task) {
      if task.SayBye? {
        assert Owed(s, task.c) == 1;
      }
      ClientStepsOnlyClient(setup, s, task, o);
      OneClientKeepsFloors(setup, s, EffectOf(setup, s, task, o).server, task.c);
    } else {
      OthersKeepClocks(setup, s, task, o);
      if OfNobody(task) {
        NobodyChanges(setup, s, task, o);
      }
    }
  }

  // ---------------------------------------------------------------- what is queued and watched

  lemma OneClientKeepsClients(s: Server, t: Server, c: nat)
    requires ClientsOk(s) && OnlyClient(s, t, c)
    requires c < |s.all| ==> ClientOk(At(t, c))
    ensures ClientsOk(t)
  {
  }

  lemma QueuedIsOk(client: Client, message: Message)
    requires ClientOk(client) && |client.queue| < SEND_QUEUE && ByeMsg !in client.queued
    ensures ClientOk(client.(queue := client.queue + [message], queued := client.queued + [message]))
  {
    var after := client.(queue := client.queue + [message], queued := client.queued + [message]);
    assert client.written + InTransit(after) == client.written + InTransit(client) + [message];
  }

  lemma TakenIsOk(client: Client)
    requires ClientOk(client) && client.hand == None && client.queue != []
    ensures ClientOk(client.(queue := client.queue[1..], hand := Some(client.queue[0])))
  {
    assert [client.queue[0]] + client.queue[1..] == client.queue;
  }

  lemma WrittenIsOk(client: Client)
    requires ClientOk(client) && client.hand.Some?
    ensures ClientOk(client.(hand := None, written := client.written + [client.hand.value]))
  {
    assert client.written + ([client.hand.value] + client.queue) == client.written + [client.hand.value] + client.queue;
  }

  lemma WatchIsOk(client: Client, tunnel: Name)
    requires ClientOk(client)
    ensures |client.watch| < MAX_WATCH ==> ClientOk(client.(watch := client.watch + {tunnel}))
    ensures ClientOk(client.(watch := client.watch - {tunnel}))
  {
    var fewer := client.watch - {tunnel};
    if tunnel in client.watch {
      assert client.watch == fewer + {tunnel};
    } else {
      assert client.watch == fewer;
    }
  }

  lemma SendKeepsClients(s: Server, p: multiset<Task>, c: nat, message: Message)
    requires ClientsOk(s) && ByesOk(s, p) && OpenQueues(s)
    ensures ClientsOk(Sent(s, c, message).server)
  {
    if c in s.clients && HasRoom(s, c) {
      var client := At(s, c);
      var after := client.(queue := client.queue + [message], queued := client.queued + [message]);
      QueuedIsOk(client, message);
      PutOnlyClient(s, c, after);
      OneClientKeepsClients(s, Put(s, c, after), c);
    }
  }

  lemma ByeKeepsClients(s: Server, p: multiset<Task>, c: nat)
    requires ClientsOk(s) && ByesOk(s, p) && QueuesOk(s, p) && SayBye(c) in p
    ensures ClientsOk(SaidBye(s, c).server)
  {
    assert Owed(s, c) == 1;
    if HasRoom(s, c) {
      var client := At(s, c);
      var after := client.(queue := client.queue + [ByeMsg], queued := client.queued + [ByeMsg]);
      QueuedIsOk(client, ByeMsg);
      PutOnlyClient(s, c, after);
      OneClientKeepsClients(s, Put(s, c, after), c);
    }
  }

  lemma TakeKeepsClients(s: Server, p: multiset<Task>, c: nat)
    requires ClientsOk(s) && HandsOk(s, p) && Take(c) in p
    ensures ClientsOk(Taken(s, c).server)
  {
    TakenOnlyClient(s, c);
    if At(s, c).queue != [] {
      TakenIsOk(At(s, c));
    }
    OneClientKeepsClients(s, Taken(s, c).server, c);
  }

  lemma WriteKeepsClients(s: Server, p: multiset<Task>, c: nat, go: bool)
    requires ClientsOk(s) && HandsOk(s, p) && Write(c) in p
    ensures ClientsOk(Written(s, c, go).server)
  {
    WrittenOnlyClient(s, c, go);
    WrittenIsOk(At(s, c));
    OneClientKeepsClients(s, Written(s, c, go).server, c);
  }

  lemma HandleKeepsClient(setup: Setup, s: Server, c: nat, line: ClientMessage)
    requires ClientsOk(s) && c < |s.all|
    ensures ClientOk(At(LineHandled(setup, s, c, line).server, c))
  {
    if line.WatchMsg? || line.UnwatchMsg? {
      WatchIsOk(s.all[c], line.tunnel);
    }
  }

  lemma HandleKeepsClients(setup: Setup, s: Server, c: nat, line: ClientMessage)
    requires ClientsOk(s)
    ensures ClientsOk(LineHandled(setup, s, c, line).server)
  {
    LinesOnlyClient(setup, s, c, line);
    if c < |s.all| {
      HandleKeepsClient(setup, s, c, line);
    }
    OneClientKeepsClients(s, LineHandled(setup, s, c, line).server, c);
  }

  lemma StampingKeepsClients(setup: Setup, s: Server, task: Task, o: Oracle)
    requires ClientsOk(s)
    requires task.CloseQueue? || task.CloseConn? || task.AllowChallenge?
    ensures ClientsOk(EffectOf(setup, s, task, o).server)
  {
    match task
    case CloseQueue(c) => ClosedOnlyClient(s, c); OneClientKeepsClients(s, QueueClosed(s, c), c);
    case CloseConn(c) => HungUpOnlyClient(s, c); OneClientKeepsClients(s, Put(s, c, At(s, c).(connected := false)), c);
    case AllowChallenge(c, nonce) =>
      ChallengesOnlyClient(setup, s, c, nonce, o.now);
      OneClientKeepsClients(s, ChallengeAllowed(setup, s, c, nonce, o.now).server, c);
  }

  lemma StepKeepsClients(setup: Setup, s: Server, p: multiset<Task>, task: Task, o: Oracle)
    requires ClientsOk(s) && HandsOk(s, p) && ByesOk(s, p) && QueuesOk(s, p) && task in p
    ensures ClientsOk(EffectOf(setup, s, task, o).server)
  {
    match task
    case SendTo(c, message) => SendKeepsClients(s, p, c, message);
    case SayBye(c) => ByeKeepsClients(s, p, c);
    case Take(c) => TakeKeepsClients(s, p, c);
    case Write(c) => WriteKeepsClients(s, p, c, o.go);
    case Handle(c, line) => HandleKeepsClients(setup, s, c, line);
    case _ => OthersKeepClients(setup, s, task, o);
  }

  lemma OthersKeepClients(setup: Setup, s: Server, task: Task, o: Oracle)
    requires ClientsOk(s)
    requires !task.SendTo? && !task.SayBye? && !task.Take? && !task.Write? && !task.Handle?
    ensures ClientsOk(EffectOf(setup, s, task, o).server)
  {
    if OfClient(task) {
      StampingKeepsClients(setup, s, task, o);
    } else if OfNobody(task) {
      NobodyChanges(setup, s, task, o);
    }
  }

  // ---------------------------------------------------------------- writers

  ghost predicate SameHands(s: Server, t: Server) {
    |s.all| <= |t.all| && forall c: nat :: c < |s.all| ==> t.all[c].hand == s.all[c].hand
  }

  lemma HandsFramed(s: Server, p: multiset<Task>, task: Task, e: Effect)
    requires HandsOk(s, p) && task in p && Brings(task, e)
    requires !Writes(task) && !task.Register?
    requires SameHands(s, e.server)
    ensures HandsOk(e.server, After(p, task, e))
  {
    forall c: nat
      ensures After(p, task, e)[Take(c)] == p[Take(c)] && After(p, task, e)[Write(c)] == p[Write(c)]
    {
      CountKept(p, task, e, Take(c));
      CountKept(p, task, e, Write(c));
    }
  }

  lemma RegisterAddsWriter(s: Server, c: nat)
    ensures Added(Registered(s))[Take(c)] == if !s.closing && !s.unbound && c == |s.all| then 1 else 0
    ensures Added(Registered(s))[Write(c)] == 0
  {
    var e := Registered(s);
    PendingOfTwo([Take(|s.all|)], [Read(|s.all|)]);
    assert multiset(e.next)[Take(c)] == 0 && multiset(e.next)[Write(c)] == 0;
  }

  lemma RegisterTakesNothing(s: Server)
    ensures |Registered(s).server.all| == |s.all| + if s.closing || s.unbound then 0 else 1
    ensures forall c: nat :: At(Registered(s).server, c).hand == At(s, c).hand
  {
  }

  lemma RegisterKeepsHands(s: Server, p: multiset<Task>)
    requires HandsOk(s, p) && Register in p
    ensures HandsOk(Registered(s).server, After(p, Register, Registered(s)))
  {
    var after := After(p, Register, Registered(s));
    RegisterTakesNothing(s);
    forall c: nat
      ensures after[Take(c)] == p[Take(c)] + if !s.closing && !s.unbound && c == |s.all| then 1 else 0
      ensures after[Write(c)] == p[Write(c)]
    {
      RegisterAddsWriter(s, c);
    }
  }

  lemma WriterCounts(p: multiset<Task>, task: Task, more: multiset<Task>, c: nat, d: nat)
    requires p[Take(c)] + p[Write(c)] <= 1 && task in p && (task == Take(c) || task == Write(c))
    requires more == multiset{} || more == multiset{Take(c)} || more == multiset{Write(c)}
    ensures (p - multiset{task} + more)[Take(d)] == if d == c then more[Take(c)] else p[Take(d)]
    ensures (p - multiset{task} + more)[Write(d)] == if d == c then more[Write(c)] else p[Write(d)]
  {
  }

  /** The writer of `c` moves on: it stops, is about to write what it holds, or is about to take. */
  lemma WriterMovesOn(s: Server, p: multiset<Task>, task: Task, e: Effect, c: nat)
    requires HandsOk(s, p) && task in p && (task == Take(c) || task == Write(c))
    requires |e.server.all| == |s.all|
    requires forall d: nat :: d != c ==> At(e.server, d) == At(s, d)
    requires Added(e) == multiset{} || Added(e) == multiset{Take(c)} || Added(e) == multiset{Write(c)}
    requires Added(e)[Take(c)] > 0 ==> At(e.server, c).hand == None
    requires Added(e)[Write(c)] > 0 ==> At(e.server, c).hand.Some?
    ensures HandsOk(e.server, After(p, task, e))
  {
    var after, more := After(p, task, e), Added(e);
    forall d: nat
      ensures after[Take(d)] == if d == c then more[Take(c)] else p[Take(d)]
      ensures after[Write(d)] == if d == c then more[Write(c)] else p[Write(d)]
    {
      WriterCounts(p, task, more, c, d);
    }
  }

  lemma TakeKeepsHands(s: Server, p: multiset<Task>, c: nat)
    requires HandsOk(s, p) && Take(c) in p
    ensures HandsOk(Taken(s, c).server, After(p, Take(c), Taken(s, c)))
  {
    var e := Taken(s, c);
    TakenOnlyClient(s, c);
    assert Added(e) == if At(s, c).queue == [] then multiset{} else multiset{Write(c)};
    WriterMovesOn(s, p, Take(c), e, c);
  }

  lemma WriteKeepsHands(s: Server, p: multiset<Task>, c: nat, go: bool)
    requires HandsOk(s, p) && Write(c) in p
    ensures HandsOk(Written(s, c, go).server, After(p, Write(c), Written(s, c, go)))
  {
    var e := Written(s, c, go);
    WrittenOnlyClient(s, c, go);
    assert Added(e) == if go then multiset{Take(c)} else multiset{};
    WriterMovesOn(s, p, Write(c), e, c);
  }

  lemma OthersKeepHands(setup: Setup, s: Server, p: multiset<Task>, task: Task, o: Oracle)
    requires QueuesOk(s, p) && task in p
    requires !Writes(task) && !task.Register?
    ensures SameHands(s, EffectOf(setup, s, task, o).server)
  {
    if OfClient(task) {
      if task.SayBye? {
        assert Owed(s, task.c) == 1;
      }
      ClientStepsOnlyClient(setup, s, task, o);
      QueueingKeepsHand(setup, s, task, o);
    } else if OfNobody(task) {
      NobodyChanges(setup, s, task, o);
    }
  }

  lemma QueueingKeepsHand(setup: Setup, s: Server, task: Task, o: Oracle)
    requires OpenQueues(s) && OfClient(task) && !Writes(task)
    requires task.SayBye? ==> !At(s, task.c).closed
    ensures At(EffectOf(setup, s, task, o).server, task.c).hand == At(s, task.c).hand
  {
    match task
    case SendTo(c, message) => SentOnlyClient(s, c, message);
    case CloseQueue(c) => ClosedOnlyClient(s, c);
    case SayBye(c) => ByeOnlyClient(s, c);
    case CloseConn(c) => HungUpOnlyClient(s, c);
    case Handle(c, line) => LinesOnlyClient(setup, s, c, line);
    case AllowChallenge(c, nonce) => ChallengesOnlyClient(setup, s, c, nonce, o.now);
  }

  lemma StepKeepsHands(setup: Setup, s: Server, p: multiset<Task>, task: Task, o: Oracle)
    requires HandsOk(s, p) && QueuesOk(s, p) && task in p
    ensures var e := EffectOf(setup, s, task, o); HandsOk(e.server, After(p, task, e))
  {
    match task
    case Register => RegisterKeepsHands(s, p);
    case Take(c) => TakeKeepsHands(s, p, c);
    case Write(c) => WriteKeepsHands(s, p, c, o.go);
    case _ =>
      OthersKeepHands(setup, s, p, task, o);
      StepsBring(setup, s, task, o);
      HandsFramed(s, p, task, EffectOf(setup, s, task, o));
  }

  // ---------------------------------------------------------------- goodbyes

  /** Nobody is said goodbye to, and nobody is registered again. */
  ghost predicate NoNewBye(s: Server, t: Server) {
    && |s.all| <= |t.all|
    && (forall c: nat :: c < |s.all| && ByeMsg in t.all[c].queued ==> ByeMsg in s.all[c].queued)
    && (forall c: nat :: |s.all| <= c < |t.all| ==> ByeMsg !in t.all[c].queued)
    && (forall c: nat :: c < |s.all| && c in t.clients ==> c in s.clients)
  }

  lemma ByesFramed(s: Server, p: multiset<Task>, task: Task, e: Effect)
    requires ByesOk(s, p) && task in p && Brings(task, e) && !task.Shutdown?
    requires NoNewBye(s, e.server)
    ensures ByesOk(e.server, After(p, task, e))
  {
    forall c: nat
      ensures After(p, task, e)[SendTo(c, ByeMsg)] == 0
      ensures After(p, task, e)[SayBye(c)] <= p[SayBye(c)]
    {
      CountKept(p, task, e, SendTo(c, ByeMsg));
      CountKept(p, task, e, SayBye(c));
    }
  }

  lemma ShutdownKeepsByes(s: Server, p: multiset<Task>, order: seq<nat>)
    requires ByesOk(s, p) && Shutdown in p && Enumerates(order, s.clients)
    ensures ByesOk(ShutDown(s, order).server, After(p, Shutdown, ShutDown(s, order)))
  {
    var e := ShutDown(s, order);
    forall c: nat
      ensures Added(e)[SayBye(c)] == if c in s.clients then 1 else 0
      ensures Added(e)[SendTo(c, ByeMsg)] == 0
    {
      ByesOnce(order, c);
      assert multiset(e.next) == multiset(Byes(order)) + multiset{StopSampling, Unbind};
      assert c in order <==> c in Elements(order);
    }
  }

  lemma SayByeKeepsByes(s: Server, p: multiset<Task>, c: nat)
    requires ByesOk(s, p) && QueuesOk(s, p) && SayBye(c) in p
    ensures ByesOk(SaidBye(s, c).server, After(p, SayBye(c), SaidBye(s, c)))
  {
    var e := SaidBye(s, c);
    assert Owed(s, c) == 1;
    ByeOnlyClient(s, c);
    assert Added(e) == multiset{CloseQueue(c)};
  }

  lemma SendKeepsByes(s: Server, p: multiset<Task>, c: nat, message: Message)
    requires ByesOk(s, p) && OpenQueues(s) && SendTo(c, message) in p
    ensures NoNewBye(s, Sent(s, c, message).server)
  {
    SentOnlyClient(s, c, message);
    assert message != ByeMsg;
  }

  lemma OthersSayNoBye(setup: Setup, s: Server, task: Task, o: Oracle)
    requires OpenQueues(s) && !task.SendTo? && !task.SayBye? && !task.Shutdown?
    ensures NoNewBye(s, EffectOf(setup, s, task, o).server)
  {
    if OfClient(task) {
      ClientStepsOnlyClient(setup, s, task, o);
      QuietClientsQueueNothing(setup, s, task, o);
    } else if OfNobody(task) {
      NobodyChanges(setup, s, task, o);
    }
  }

  lemma QuietClientsQueueNothing(setup: Setup, s: Server, task: Task, o: Oracle)
    requires OfClient(task) && !task.SendTo? && !task.SayBye?
    ensures At(EffectOf(setup, s, task, o).server, task.c).queued == At(s, task.c).queued
  {
    match task
    case Take(c) => TakenOnlyClient(s, c);
    case Write(c) => WrittenOnlyClient(s, c, o.go);
    case CloseQueue(c) => ClosedOnlyClient(s, c);
    case CloseConn(c) => HungUpOnlyClient(s, c);
    case Handle(c, line) => LinesOnlyClient(setup, s, c, line);
    case AllowChallenge(c, nonce) => ChallengesOnlyClient(setup, s, c, nonce, o.now);
  }

  lemma SendKeepsByesOk(setup: Setup, s: Server, p: multiset<Task>, c: nat, message: Message, o: Oracle)
    requires ByesOk(s, p) && OpenQueues(s) && SendTo(c, message) in p
    ensures ByesOk(Sent(s, c, message).server, After(p, SendTo(c, message), Sent(s, c, message)))
  {
    SendKeepsByes(s, p, c, message);
    StepsBring(setup, s, SendTo(c, message), o);
    ByesFramed(s, p, SendTo(c, message), Sent(s, c, message));
  }

  lemma StepKeepsByes(setup: Setup, s: Server, p: multiset<Task>, task: Task, o: Oracle)
    requires ByesOk(s, p) && QueuesOk(s, p) && task in p && CanStep(s, task, o)
    ensures var e := EffectOf(setup, s, task, o); ByesOk(e.server, After(p, task, e))
  {
    match task
    case Shutdown => ShutdownKeepsByes(s, p, o.order);
    case SayBye(c) => SayByeKeepsByes(s, p, c);
    case SendTo(c, message) => SendKeepsByesOk(setup, s, p, c, message, o);
    case _ =>
      OthersSayNoBye(setup, s, task, o);
      StepsBring(setup, s, task, o);
      ByesFramed(s, p, task, EffectOf(setup, s, task, o));
  }

  // ---------------------------------------------------------------- the whole invariant

  lemma StepKeeps(setup: Setup, s: Server, p: multiset<Task>, task: Task, o: Oracle)
    requires Inv(setup, s, p) && task in p && CanStep(s, task, o)
    ensures var e := EffectOf(setup, s, task, o); Inv(setup, e.server, After(p, task, e))
  {
    StepKeepsQueues(setup, s, p, task, o);
    StepKeepsAccept(setup, s, p, task, o);
    StepKeepsLoops(setup, s, p, task, o);
    StepKeepsTick(setup, s, p, task, o);
    StepKeepsShutdown(setup, s, p, task, o);
    StepKeepsClients(setup, s, p, task, o);
    StepKeepsHands(setup, s, p, task, o);
    StepKeepsByes(setup, s, p, task, o);
    StepKeepsFloors(setup, s, p, task, o);
  }

  /** One more goroutine that starts with a fan-out changes no count the invariant reads. */
  lemma CallsKeep(setup: Setup, s: Server, p: multiset<Task>, task: Task)
    requires Inv(setup, s, p) && (task.Publish? || task.PublishPings?)
    ensures Inv(setup, s, p + multiset{task})
  {
  }

  lemma CancelKeeps(setup: Setup, s: Server, p: multiset<Task>)
    requires Inv(setup, s, p)
    ensures Inv(setup, s.(cancelled := true), p)
  {
    WatchedFramed(s, s.(cancelled := true));
  }

  lemma TakingRequestKeeps(setup: Setup, s: Server, p: multiset<Task>)
    requires Inv(setup, s, p) && s.requests != []
    ensures Inv(setup, s.(requests := s.requests[1..]), p)
  {
    WatchedFramed(s, s.(requests := s.requests[1..]));
  }

  lemma StartHolds(setup: Setup)
    ensures Inv(setup, START.server, Pending(START.threads))
  {
    PendingOfTwo([Accept], [Shutdown]);
    assert Pending(START.threads) == multiset{Accept, Shutdown};
  }

  ghost predicate Sound(setup: Setup, y: System) {
    Inv(setup, y.server, Pending(y.threads))
  }

  lemma NextIsSound(setup: Setup, y: System, e: Event)
    requires Sound(setup, y) && Enabled(y, e)
    ensures Sound(setup, Next(setup, y, e))
  {
    match e
    case Step(t, o) =>
      var task := y.threads[t][0];
      PendingAfterStep(y.threads, t, EffectOf(setup, y.server, task, o));
      StepKeeps(setup, y.server, Pending(y.threads), task, o);
    case PublishCalled(view) => CallIsSound(setup, y, Publish(view));
    case PublishPingsCalled(round) => CallIsSound(setup, y, PublishPings(round));
    case Cancelled => CancelKeeps(setup, y.server, Pending(y.threads));
    case RequestTaken => TakingRequestKeeps(setup, y.server, Pending(y.threads));
  }

  lemma CallIsSound(setup: Setup, y: System, task: Task)
    requires Sound(setup, y) && (task.Publish? || task.PublishPings?)
    ensures Sound(setup, y.(threads := y.threads + [[task]]))
  {
    PendingAfterAppend(y.threads, [[task]]);
    PendingOfOne([task]);
    assert multiset([task]) == multiset{task};
    CallsKeep(setup, y.server, Pending(y.threads), task);
  }

  /** Every system any interleaving reaches satisfies the invariant. */
  lemma {:induction false} EverySystemIsSound(setup: Setup, systems: seq<System>, events: seq<Event>, i: nat)
    requires IsRun(setup, systems, events) && i < |systems|
    ensures Sound(setup, systems[i])
  {
    if i == 0 {
      StartHolds(setup);
    } else {
      EverySystemIsSound(setup, systems, events, i - 1);
      NextIsSound(setup, systems[i - 1], events[i - 1]);
    }
  }
}
