/** Who the publisher tells what, and what it lets go of, in every interleaving. */
module FeedDelivery {
  import opened Prelude
  import opened Names
  import opened Feed
  import opened FeedSteps
  import opened FeedSafety
  import opened FeedTheorems
  import Proof

  // ---------------------------------------------------------------- who closes a queue

  ghost function Due(p: multiset<Task>, c: nat): nat {
    p[CloseQueue(c)] + p[SayBye(c)]
  }

  ghost function Owes(e: Effect, c: nat): nat {
    Due(Added(e), c)
  }

  lemma DueAfter(p: multiset<Task>, task: Task, e: Effect, c: nat)
    requires task in p
    ensures Due(After(p, task, e), c)
         == Due(p, c) + Owes(e, c) - if task == CloseQueue(c) || task == SayBye(c) then 1 else 0
  {
  }

  lemma ShutdownOwes(s: Server, order: seq<nat>, c: nat)
    requires Enumerates(order, s.clients)
    ensures Owes(ShutDown(s, order), c) == if c in s.clients then 1 else 0
  {
    var e := ShutDown(s, order);
    ByesOnce(order, c);
    assert multiset(e.next) == multiset(Byes(order)) + multiset{StopSampling, Unbind};
    assert c in order <==> c in Elements(order);
  }

  lemma NothingOwed(task: Task, e: Effect, c: nat)
    requires Brings(task, e) && !task.Drop? && !task.SayBye? && !task.Shutdown?
    ensures Owes(e, c) == 0
  {
    PendingIsPlain(task, e.started);
    assert CloseQueue(c) !in e.next && SayBye(c) !in e.next;
  }

  lemma ByeOwes(s: Server, d: nat, c: nat)
    ensures Owes(SaidBye(s, d), c) == if c == d then 1 else 0
  {
    assert Added(SaidBye(s, d)) == multiset{CloseQueue(d)};
  }

  lemma StepOwesByRemoving(setup: Setup, s: Server, p: multiset<Task>, task: Task, o: Oracle, c: nat)
    requires task in p && CanStep(s, task, o)
    ensures Due(After(p, task, EffectOf(setup, s, task, o)), c) > Due(p, c) ==>
      c in s.clients && (task == Drop(c) || task == Shutdown)
  {
    DueAfter(p, task, EffectOf(setup, s, task, o), c);
    match task
    case Drop(d) => DropOwes(s, d, c);
    case SayBye(d) => ByeOwes(s, d, c);
    case Shutdown => ShutdownOwes(s, o.order, c);
    case _ =>
      StepsBring(setup, s, task, o);
      NothingOwed(task, EffectOf(setup, s, task, o), c);
  }

  /** Closing a queue becomes due only in the step that takes its client out of the set. */
  lemma ClosesAreOwedByRemoving(setup: Setup, systems: seq<System>, events: seq<Event>, i: nat, c: nat)
    requires IsRun(setup, systems, events) && i < |events|
    requires Due(Pending(systems[i + 1].threads), c) > Due(Pending(systems[i].threads), c)
    ensures c in systems[i].server.clients && c !in systems[i + 1].server.clients
    ensures events[i].Step?
      && (systems[i].threads[events[i].t][0] == Drop(c) || systems[i].threads[events[i].t][0] == Shutdown)
  {
    var y, e := systems[i], events[i];
    assert systems[i + 1] == Next(setup, y, e);
    match e
    case Step(t, o) =>
      var task := y.threads[t][0];
      PendingAfterStep(y.threads, t, EffectOf(setup, y.server, task, o));
      StepOwesByRemoving(setup, y.server, Pending(y.threads), task, o, c);
    case PublishCalled(view) => CallOwesNothing(y.threads, Publish(view), c);
    case PublishPingsCalled(round) => CallOwesNothing(y.threads, PublishPings(round), c);
    case _ =>
  }

  lemma CallOwesNothing(threads: seq<seq<Task>>, task: Task, c: nat)
    requires task.Publish? || task.PublishPings?
    ensures Due(Pending(threads + [[task]]), c) == Due(Pending(threads), c)
  {
    PendingAfterAppend(threads, [[task]]);
    PendingOfOne([task]);
    assert multiset([task]) == multiset{task};
  }

  // ---------------------------------------------------------------- nothing leaks

  /** A connection that is not closed has a writer, which closes it when it ends. */
  ghost predicate WritersAlive(s: Server, p: multiset<Task>) {
    forall c: nat :: c < |s.all| && s.all[c].connected ==> p[Take(c)] + p[Write(c)] > 0
  }

  ghost predicate NoneReconnects(s: Server, t: Server) {
    && |t.all| == |s.all|
    && forall c: nat :: c < |s.all| && t.all[c].connected ==> s.all[c].connected
  }

  lemma WritersFramed(s: Server, p: multiset<Task>, task: Task, e: Effect)
    requires WritersAlive(s, p) && task in p && Brings(task, e) && !Writes(task) && !task.Register?
    requires NoneReconnects(s, e.server)
    ensures WritersAlive(e.server, After(p, task, e))
  {
    forall c: nat
      ensures After(p, task, e)[Take(c)] == p[Take(c)] && After(p, task, e)[Write(c)] == p[Write(c)]
    {
      CountKept(p, task, e, Take(c));
      CountKept(p, task, e, Write(c));
    }
  }

  lemma PutReconnectsNone(s: Server, c: nat, client: Client)
    requires client.connected ==> At(s, c).connected
    ensures NoneReconnects(s, Put(s, c, client))
  {
  }

  lemma SendReconnectsNone(s: Server, c: nat, message: Message)
    requires OpenQueues(s)
    ensures NoneReconnects(s, Sent(s, c, message).server)
  {
    if c in s.clients && HasRoom(s, c) {
      var client := At(s, c);
      PutReconnectsNone(s, c, client.(queue := client.queue + [message], queued := client.queued + [message]));
    }
  }

  lemma ByeReconnectsNone(s: Server, c: nat)
    ensures NoneReconnects(s, SaidBye(s, c).server)
  {
    var client := At(s, c);
    PutReconnectsNone(s, c, client.(queue := client.queue + [ByeMsg], queued := client.queued + [ByeMsg]));
  }

  lemma LineReconnectsNone(setup: Setup, s: Server, c: nat, line: ClientMessage)
    ensures NoneReconnects(s, LineHandled(setup, s, c, line).server)
  {
    if line.WatchMsg? || line.UnwatchMsg? {
      PutReconnectsNone(s, c, At(s, c).(watch := At(s, c).watch + {line.tunnel}));
      PutReconnectsNone(s, c, At(s, c).(watch := At(s, c).watch - {line.tunnel}));
    }
  }

  lemma ChallengeReconnectsNone(setup: Setup, s: Server, c: nat, nonce: string, now: Time)
    ensures NoneReconnects(s, ChallengeAllowed(setup, s, c, nonce, now).server)
  {
    var client := At(s, c);
    PutReconnectsNone(s, c, client.(lastChallenge := now, signed := client.signed + [now]));
  }

  lemma OthersReconnectNone(setup: Setup, s: Server, task: Task, o: Oracle)
    requires OpenQueues(s) && !Writes(task) && !task.Register?
    ensures NoneReconnects(s, EffectOf(setup, s, task, o).server)
  {
    match task
    case SendTo(c, message) => SendReconnectsNone(s, c, message);
    case SayBye(c) => ByeReconnectsNone(s, c);
    case Handle(c, line) => LineReconnectsNone(setup, s, c, line);
    case AllowChallenge(c, nonce) => ChallengeReconnectsNone(setup, s, c, nonce, o.now);
    case CloseQueue(c) => PutReconnectsNone(s, c, At(s, c).(closed := true));
    case CloseConn(c) => PutReconnectsNone(s, c, At(s, c).(connected := false));
    case _ => RestReconnectsNone(setup, s, task, o);
  }

  lemma RestReconnectsNone(setup: Setup, s: Server, task: Task, o: Oracle)
    requires OfNobody(task) || task.Drop? || task.Shutdown?
    ensures NoneReconnects(s, EffectOf(setup, s, task, o).server)
  {
    if OfNobody(task) {
      NobodyChanges(setup, s, task, o);
    }
  }

  lemma RegisterKeepsWriters(s: Server, p: multiset<Task>)
    requires WritersAlive(s, p) && Register in p
    ensures WritersAlive(Registered(s).server, After(p, Register, Registered(s)))
  {
    forall c: nat
      ensures After(p, Register, Registered(s))[Take(c)]
           == p[Take(c)] + if !s.closing && !s.unbound && c == |s.all| then 1 else 0
      ensures After(p, Register, Registered(s))[Write(c)] == p[Write(c)]
    {
      RegisterAddsWriter(s, c);
    }
  }

  /** A writer either goes on, or ends having closed its connection. */
  lemma WriterKeepsWriters(s: Server, p: multiset<Task>, task: Task, e: Effect, c: nat)
    requires WritersAlive(s, p) && task in p && (task == Take(c) || task == Write(c))
    requires |e.server.all| == |s.all| && forall d: nat :: d != c ==> At(e.server, d) == At(s, d)
    requires At(e.server, c).connected && c < |s.all| ==> Take(c) in e.next || Write(c) in e.next
    ensures WritersAlive(e.server, After(p, task, e))
  {
    assert Take(c) in e.next ==> Take(c) in multiset(e.next);
    assert Write(c) in e.next ==> Write(c) in multiset(e.next);
    forall d: nat | d < |s.all| && e.server.all[d].connected
      ensures After(p, task, e)[Take(d)] + After(p, task, e)[Write(d)] > 0
    {
      assert d != c ==> At(e.server, d) == At(s, d);
    }
  }

  lemma TakeKeepsWriters(s: Server, p: multiset<Task>, c: nat)
    requires WritersAlive(s, p) && Take(c) in p
    ensures WritersAlive(Taken(s, c).server, After(p, Take(c), Taken(s, c)))
  {
    TakenOnlyClient(s, c);
    WriterKeepsWriters(s, p, Take(c), Taken(s, c), c);
  }

  lemma WriteKeepsWriters(s: Server, p: multiset<Task>, c: nat, go: bool)
    requires WritersAlive(s, p) && Write(c) in p
    ensures WritersAlive(Written(s, c, go).server, After(p, Write(c), Written(s, c, go)))
  {
    WrittenOnlyClient(s, c, go);
    WriterKeepsWriters(s, p, Write(c), Written(s, c, go), c);
  }

  lemma StepKeepsWriters(setup: Setup, s: Server, p: multiset<Task>, task: Task, o: Oracle)
    requires WritersAlive(s, p) && OpenQueues(s) && task in p
    ensures var e := EffectOf(setup, s, task, o); WritersAlive(e.server, After(p, task, e))
  {
    match task
    case Register => RegisterKeepsWriters(s, p);
    case Take(c) => TakeKeepsWriters(s, p, c);
    case Write(c) => WriteKeepsWriters(s, p, c, o.go);
    case _ => OthersKeepWriters(setup, s, p, task, o);
  }

  lemma OthersKeepWriters(setup: Setup, s: Server, p: multiset<Task>, task: Task, o: Oracle)
    requires WritersAlive(s, p) && OpenQueues(s) && task in p && !Writes(task) && !task.Register?
    ensures var e := EffectOf(setup, s, task, o); WritersAlive(e.server, After(p, task, e))
  {
    OthersReconnectNone(setup, s, task, o);
    StepsBring(setup, s, task, o);
    WritersFramed(s, p, task, EffectOf(setup, s, task, o));
  }

  lemma NextKeepsWriters(setup: Setup, y: System, e: Event)
    requires Sound(setup, y) && WritersAlive(y.server, Pending(y.threads)) && Enabled(y, e)
    ensures WritersAlive(Next(setup, y, e).server, Pending(Next(setup, y, e).threads))
  {
    match e
    case Step(t, o) =>
      var task := y.threads[t][0];
      PendingAfterStep(y.threads, t, EffectOf(setup, y.server, task, o));
      StepKeepsWriters(setup, y.server, Pending(y.threads), task, o);
    case PublishCalled(view) => PendingAfterAppend(y.threads, [[Publish(view)]]);
    case PublishPingsCalled(round) => PendingAfterAppend(y.threads, [[PublishPings(round)]]);
    case _ =>
  }

  lemma {:induction false} EveryConnectionHasAWriter(setup: Setup, systems: seq<System>, events: seq<Event>, i: nat)
    requires IsRun(setup, systems, events) && i < |systems|
    ensures WritersAlive(systems[i].server, Pending(systems[i].threads))
  {
    if i > 0 {
      EveryConnectionHasAWriter(setup, systems, events, i - 1);
      EverySystemIsSound(setup, systems, events, i - 1);
      NextKeepsWriters(setup, systems[i - 1], events[i - 1]);
    }
  }

  /** A registered client has a reader, or is about to be dropped. */
  ghost predicate ReadersAlive(s: Server, p: multiset<Task>) {
    forall c :: c in s.clients ==> p[Read(c)] + p[Drop(c)] > 0
  }

  lemma NobodyJoins(setup: Setup, s: Server, p: multiset<Task>, task: Task, o: Oracle)
    requires QueuesOk(s, p) && task in p && !task.Register?
    ensures EffectOf(setup, s, task, o).server.clients <= s.clients
    ensures task.Drop? ==> task.c !in EffectOf(setup, s, task, o).server.clients
  {
    assert task.SayBye? ==> Owed(s, task.c) == 1;
    if OfClient(task) {
      ClientStepsOnlyClient(setup, s, task, o);
    } else if OfNobody(task) {
      NobodyChanges(setup, s, task, o);
    }
  }

  /** A reader that takes a line goes on; one that has come to its end drops its client. */
  lemma ReadingKeepsReaders(setup: Setup, s: Server, p: multiset<Task>, c: nat, o: Oracle)
    requires ReadersAlive(s, p) && Read(c) in p
    ensures var e := EffectOf(setup, s, Read(c), o); ReadersAlive(e.server, After(p, Read(c), e))
  {
    var e := EffectOf(setup, s, Read(c), o);
    assert if o.line.Some? then e.next[1] == Read(c) else e.next[0] == Drop(c);
    assert Read(c) in multiset(e.next) || Drop(c) in multiset(e.next);
  }

  lemma RegisterKeepsReaders(s: Server, p: multiset<Task>)
    requires ReadersAlive(s, p) && Register in p
    ensures ReadersAlive(Registered(s).server, After(p, Register, Registered(s)))
  {
    if !s.closing && !s.unbound {
      RegisteringReads(s);
    }
    AddingKeepsReaders(s, p, Register, Registered(s), |s.all|);
  }

  lemma RegisteringReads(s: Server)
    requires !s.closing && !s.unbound
    ensures Read(|s.all|) in Added(Registered(s))
  {
    PendingOfTwo([Take(|s.all|)], [Read(|s.all|)]);
    assert Read(|s.all|) in multiset([Read(|s.all|)]);
  }

  lemma AddingKeepsReaders(s: Server, p: multiset<Task>, task: Task, e: Effect, c: nat)
    requires ReadersAlive(s, p) && task in p && !task.Read? && !task.Drop?
    requires e.server.clients <= s.clients + {c}
    requires c in e.server.clients ==> c in s.clients || Read(c) in Added(e)
    ensures ReadersAlive(e.server, After(p, task, e))
  {
  }

  lemma StepKeepsReaders(setup: Setup, s: Server, p: multiset<Task>, task: Task, o: Oracle)
    requires ReadersAlive(s, p) && QueuesOk(s, p) && task in p
    ensures var e := EffectOf(setup, s, task, o); ReadersAlive(e.server, After(p, task, e))
  {
    match task
    case Register => RegisterKeepsReaders(s, p);
    case Read(c) => ReadingKeepsReaders(setup, s, p, c, o);
    case _ =>
      NobodyJoins(setup, s, p, task, o);
      ReadersFramed(s, p, task, EffectOf(setup, s, task, o));
  }

  lemma ReadersFramed(s: Server, p: multiset<Task>, task: Task, e: Effect)
    requires ReadersAlive(s, p) && task in p && e.server.clients <= s.clients
    requires !task.Read? && (task.Drop? ==> task.c !in e.server.clients)
    ensures ReadersAlive(e.server, After(p, task, e))
  {
  }

  lemma NextKeepsReaders(setup: Setup, y: System, e: Event)
    requires Sound(setup, y) && ReadersAlive(y.server, Pending(y.threads)) && Enabled(y, e)
    ensures ReadersAlive(Next(setup, y, e).server, Pending(Next(setup, y, e).threads))
  {
    match e
    case Step(t, o) =>
      var task := y.threads[t][0];
      PendingAfterStep(y.threads, t, EffectOf(setup, y.server, task, o));
      StepKeepsReaders(setup, y.server, Pending(y.threads), task, o);
    case PublishCalled(view) => PendingAfterAppend(y.threads, [[Publish(view)]]);
    case PublishPingsCalled(round) => PendingAfterAppend(y.threads, [[PublishPings(round)]]);
    case _ =>
  }

  /** In every run a registered client is being read, or is about to be dropped: its reader, ending, drops it. */
  lemma {:induction false} EveryClientIsReadOrLeaves(setup: Setup, systems: seq<System>, events: seq<Event>, i: nat)
    requires IsRun(setup, systems, events) && i < |systems|
    ensures ReadersAlive(systems[i].server, Pending(systems[i].threads))
  {
    if i > 0 {
      EveryClientIsReadOrLeaves(setup, systems, events, i - 1);
      EverySystemIsSound(setup, systems, events, i - 1);
      NextKeepsReaders(setup, systems[i - 1], events[i - 1]);
    }
  }

  /**
   Nothing is left to do for a client but wait: nobody is to drop it or to close its queue, and its writer
   waits on an open, empty one.
   */
  ghost predicate NothingDueFor(s: Server, p: multiset<Task>, c: nat) {
    && Drop(c) !in p && CloseQueue(c) !in p && SayBye(c) !in p && Write(c) !in p
    && (Take(c) in p ==> At(s, c).queue == [] && !At(s, c).closed)
  }

  /**
   Whatever goes on for others, a client that nobody reads any more and for whom nothing is left to do but
   wait has been let go of: it is not registered, and its queue and its connection are closed.
   */
  lemma NothingLeaks(setup: Setup, systems: seq<System>, events: seq<Event>, i: nat, c: nat)
    requires IsRun(setup, systems, events) && i < |systems| && c < |systems[i].server.all|
    requires NothingDueFor(systems[i].server, Pending(systems[i].threads), c)
    requires Read(c) !in Pending(systems[i].threads) || c !in systems[i].server.clients
    ensures c !in systems[i].server.clients
    ensures systems[i].server.all[c].closed && !systems[i].server.all[c].connected
  {
    EveryClientIsReadOrLeaves(setup, systems, events, i);
    EverySystemIsSound(setup, systems, events, i);
    EveryConnectionHasAWriter(setup, systems, events, i);
    LetGoOf(systems[i].server, Pending(systems[i].threads), c);
  }

  lemma LetGoOf(s: Server, p: multiset<Task>, c: nat)
    requires ReadersAlive(s, p) && QueuesOk(s, p) && WritersAlive(s, p) && NothingDueFor(s, p, c) && c < |s.all|
    requires Read(c) !in p || c !in s.clients
    ensures c !in s.clients && s.all[c].closed && !s.all[c].connected
  {
    assert p[CloseQueue(c)] + p[SayBye(c)] == 0;
    assert Owed(s, c) == 0;
  }

  // ---------------------------------------------------------------- nothing is skipped

  /** From one state of a client to the next, a message joined it, or found its queue full and is to drop it. */
  ghost predicate JoinedOrDropped(before: Client, after: Client, message: Message, dropping: bool) {
    if |before.queue| < SEND_QUEUE then
      after.queued == before.queued + [message] && after.queue == before.queue + [message]
    else after == before && dropping
  }

  lemma SendJoinsOrDrops(s: Server, c: nat, message: Message)
    requires OpenQueues(s) && c in s.clients
    ensures JoinedOrDropped(At(s, c), At(Sent(s, c, message).server, c), message, Drop(c) in Added(Sent(s, c, message)))
  {
    if |At(s, c).queue| >= SEND_QUEUE {
      assert Drop(c) in multiset(Sent(s, c, message).next);
    }
  }

  lemma NextJoinsOrDrops(setup: Setup, y: System, t: nat, o: Oracle, c: nat, message: Message)
    requires Sound(setup, y) && Enabled(y, Step(t, o))
    requires y.threads[t][0] == SendTo(c, message) && c in y.server.clients
    ensures var z := Next(setup, y, Step(t, o));
      JoinedOrDropped(At(y.server, c), At(z.server, c), message, Drop(c) in Pending(z.threads))
  {
    PendingAfterStep(y.threads, t, Sent(y.server, c, message));
    SendJoinsOrDrops(y.server, c, message);
  }

  // ---------------------------------------------------------------- only what was asked for

  /** A message is queued for a client or on its way to it. */
  ghost predicate Told(s: Server, p: multiset<Task>, c: nat, message: Message) {
    message in At(s, c).queued || SendTo(c, message) in p
  }

  /** A client is told nothing but what a step sends it there and then. */
  lemma StepTells(setup: Setup, s: Server, p: multiset<Task>, task: Task, o: Oracle, c: nat, message: Message)
    requires QueuesOk(s, p) && task in p && message != ByeMsg
    ensures Told(EffectOf(setup, s, task, o).server, After(p, task, EffectOf(setup, s, task, o)), c, message) ==>
      Told(s, p, c, message) || SendTo(c, message) in Added(EffectOf(setup, s, task, o))
  {
    if message in At(EffectOf(setup, s, task, o).server, c).queued {
      StepQueues(setup, s, p, task, o, c, message);
    }
  }

  /** A message joins a client's queue only by being sent to it. */
  lemma StepQueues(setup: Setup, s: Server, p: multiset<Task>, task: Task, o: Oracle, c: nat, message: Message)
    requires QueuesOk(s, p) && task in p && message != ByeMsg
    requires message in At(EffectOf(setup, s, task, o).server, c).queued
    ensures message in At(s, c).queued || task == SendTo(c, message)
  {
    match task
    case SendTo(d, said) => SendQueues(s, d, said, c, message);
    case SayBye(d) => assert Owed(s, d) == 1; QueuedGrowsBy(s, d, ByeMsg);
    case _ => OthersQueueNothing(setup, s, task, o);
  }

  lemma SendQueues(s: Server, d: nat, said: Message, c: nat, message: Message)
    requires OpenQueues(s) && message in At(Sent(s, d, said).server, c).queued
    ensures message in At(s, c).queued || (c == d && message == said)
  {
    if d in s.clients {
      QueuedGrowsBy(s, d, said);
    }
  }

  lemma {:induction false} RoundsSendToWatchers(round: seq<Reading>, task: Task)
    requires task in SendsOf(round)
    ensures exists i ::
      && 0 <= i < |round| && task.SendTo? && task.c in round[i].watchers
      && task.message == SampleMsg(round[i].tunnel, round[i].reading)
  {
    var first := SendsTo(round[0].watchers, SampleMsg(round[0].tunnel, round[0].reading));
    if task in first {
      var k :| 0 <= k < |first| && first[k] == task;
      assert task.c == round[0].watchers[k];
    } else {
      RoundsSendToWatchers(round[1..], task);
      var i :| 0 <= i < |round[1..]| && task.c in round[1..][i].watchers
        && task.message == SampleMsg(round[1..][i].tunnel, round[1..][i].reading);
      assert round[i + 1] == round[1..][i];
    }
  }

  /** A sample is sent by sampling alone, to a client watching its tunnel at that moment. */
  lemma SamplesAreSentToWatchers(setup: Setup, s: Server, task: Task, o: Oracle, c: nat, tunnel: Name, reading: int)
    requires CanStep(s, task, o)
    requires SendTo(c, SampleMsg(tunnel, reading)) in Added(EffectOf(setup, s, task, o))
    ensures tunnel in At(s, c).watch
  {
    var e, sent := EffectOf(setup, s, task, o), SendTo(c, SampleMsg(tunnel, reading));
    SendsInNext(setup, s, task, o, sent);
    OnlySamplingSamples(setup, s, task, o, c, tunnel, reading);
    RoundsSendToWatchers(o.round, sent);
    var i :| 0 <= i < |o.round| && c in o.round[i].watchers && o.round[i].tunnel == tunnel;
    assert c in Elements(o.round[i].watchers);
  }

  lemma SendsInNext(setup: Setup, s: Server, task: Task, o: Oracle, sent: Task)
    requires sent.SendTo?
    ensures sent in Added(EffectOf(setup, s, task, o)) ==> sent in EffectOf(setup, s, task, o).next
  {
    var e := EffectOf(setup, s, task, o);
    if task.Register? {
      PendingOfTwo([Take(|s.all|)], [Read(|s.all|)]);
    } else if task.Retick? {
      PendingOfOne([SampleLoop(s.loops)]);
    } else {
      NothingStarted(setup, s, task, o);
    }
    assert sent in multiset(e.next) <==> sent in e.next;
  }

  lemma NothingStarted(setup: Setup, s: Server, task: Task, o: Oracle)
    requires !task.Register? && !task.Retick?
    ensures EffectOf(setup, s, task, o).started == []
  {
  }

  lemma OnlySamplingSamples(setup: Setup, s: Server, task: Task, o: Oracle, c: nat, tunnel: Name, reading: int)
    requires SendTo(c, SampleMsg(tunnel, reading)) in EffectOf(setup, s, task, o).next
    ensures task.SampleOnce? && SendTo(c, SampleMsg(tunnel, reading)) in SendsOf(o.round)
  {
  }

  /** What was not so at first and is so now became so at some point. */
  lemma {:induction false} BecameSo(now: seq<bool>, at: seq<bool>, j: nat)
    requires |now| == |at| && j < |now| && !now[0] && now[j]
    requires forall k :: 0 < k < |now| && now[k] && !now[k - 1] ==> at[k - 1]
    ensures exists k :: 0 <= k < j && at[k]
  {
    if !now[j - 1] {
      assert at[j - 1];
    } else {
      BecameSo(now, at, j - 1);
    }
  }

  /** At which points of a run a client has been told something. */
  ghost function ToldAt(systems: seq<System>, c: nat, message: Message): seq<bool> {
    seq(|systems|, k requires 0 <= k < |systems| => Told(systems[k].server, Pending(systems[k].threads), c, message))
  }

  function WatchedAt(systems: seq<System>, c: nat, tunnel: Name): seq<bool> {
    seq(|systems|, k requires 0 <= k < |systems| => tunnel in At(systems[k].server, c).watch)
  }

  lemma NobodyToldAtStart(c: nat, message: Message)
    ensures !Told(START.server, Pending(START.threads), c, message)
  {
    PendingOfTwo([Accept], [Shutdown]);
    assert Pending(START.threads) == multiset{Accept, Shutdown};
  }

  ghost predicate NewlyTold(setup: Setup, y: System, e: Event, c: nat, message: Message)
    requires Enabled(y, e)
  {
    && !Told(y.server, Pending(y.threads), c, message)
    && Told(Next(setup, y, e).server, Pending(Next(setup, y, e).threads), c, message)
  }

  lemma NewSampleIsWatched(setup: Setup, y: System, e: Event, c: nat, tunnel: Name, reading: int)
    requires Sound(setup, y) && Enabled(y, e)
    ensures NewlyTold(setup, y, e, c, SampleMsg(tunnel, reading)) ==> tunnel in At(y.server, c).watch
  {
    NextTells(setup, y, e, c, SampleMsg(tunnel, reading));
    if NewlyTold(setup, y, e, c, SampleMsg(tunnel, reading)) {
      SamplesAreSentToWatchers(setup, y.server, y.threads[e.t][0], e.o, c, tunnel, reading);
    }
  }

  lemma SampleJoinsWatched(setup: Setup, systems: seq<System>, events: seq<Event>, k: nat, c: nat, tunnel: Name,
      reading: int)
    requires IsRun(setup, systems, events) && 0 < k < |systems|
    ensures var told := ToldAt(systems, c, SampleMsg(tunnel, reading));
      told[k] && !told[k - 1] ==> WatchedAt(systems, c, tunnel)[k - 1]
  {
    EverySystemIsSound(setup, systems, events, k - 1);
    NewSampleIsWatched(setup, systems[k - 1], events[k - 1], c, tunnel, reading);
  }

  /** No client is ever told a reading of a tunnel that it was not watching at some moment before. */
  lemma SamplesGoOnlyToWatchers(setup: Setup, systems: seq<System>, events: seq<Event>, j: nat, c: nat, tunnel: Name,
      reading: int)
    requires IsRun(setup, systems, events) && j < |systems|
    requires ToldAt(systems, c, SampleMsg(tunnel, reading))[j]
    ensures exists i :: 0 <= i < j && WatchedAt(systems, c, tunnel)[i]
  {
    var told, watched := ToldAt(systems, c, SampleMsg(tunnel, reading)), WatchedAt(systems, c, tunnel);
    NobodyToldAtStart(c, SampleMsg(tunnel, reading));
    forall k | 0 < k < |told| && told[k] && !told[k - 1]
      ensures watched[k - 1]
    {
      SampleJoinsWatched(setup, systems, events, k, c, tunnel, reading);
    }
    BecameSo(told, watched, j);
  }

  /** What a client is newly told, a goroutine's step sends. */
  lemma NextTells(setup: Setup, y: System, e: Event, c: nat, message: Message)
    requires Sound(setup, y) && Enabled(y, e) && message != ByeMsg
    ensures NewlyTold(setup, y, e, c, message) ==>
      e.Step? && SendTo(c, message) in Added(EffectOf(setup, y.server, y.threads[e.t][0], e.o))
  {
    match e
    case Step(t, o) =>
      var task := y.threads[t][0];
      PendingAfterStep(y.threads, t, EffectOf(setup, y.server, task, o));
      StepTells(setup, y.server, Pending(y.threads), task, o, c, message);
    case PublishCalled(view) => CallTellsNobody(y.threads, Publish(view), c, message);
    case PublishPingsCalled(round) => CallTellsNobody(y.threads, PublishPings(round), c, message);
    case _ =>
  }

  lemma CallTellsNobody(threads: seq<seq<Task>>, task: Task, c: nat, message: Message)
    requires task.Publish? || task.PublishPings?
    ensures SendTo(c, message) in Pending(threads + [[task]]) <==> SendTo(c, message) in Pending(threads)
  {
    PendingAfterAppend(threads, [[task]]);
    PendingOfOne([task]);
    assert multiset([task]) == multiset{task};
  }

  lemma NewAnswerIsTrue(setup: Setup, y: System, e: Event, c: nat, nonce: string, signature: string)
    requires Sound(setup, y) && Enabled(y, e)
    ensures NewlyTold(setup, y, e, c, AuthMsg(nonce, signature)) ==>
      Proof.Answer(setup.lib, setup.feedKey, setup.version, setup.path, nonce) == Some(signature)
  {
    NextTells(setup, y, e, c, AuthMsg(nonce, signature));
    if NewlyTold(setup, y, e, c, AuthMsg(nonce, signature)) {
      SendsInNext(setup, y.server, y.threads[e.t][0], e.o, SendTo(c, AuthMsg(nonce, signature)));
      OnlyChallengesAnswer(setup, y.server, y.threads[e.t][0], e.o, c, nonce, signature);
    }
  }

  lemma AnswerJoinsTrue(setup: Setup, systems: seq<System>, events: seq<Event>, k: nat, c: nat, nonce: string,
      signature: string)
    requires IsRun(setup, systems, events) && 0 < k < |systems|
    ensures var told := ToldAt(systems, c, AuthMsg(nonce, signature));
      told[k] && !told[k - 1] ==>
        Proof.Answer(setup.lib, setup.feedKey, setup.version, setup.path, nonce) == Some(signature)
  {
    EverySystemIsSound(setup, systems, events, k - 1);
    NewAnswerIsTrue(setup, systems[k - 1], events[k - 1], c, nonce, signature);
  }

  /** Every answer a client is ever told is the signature of the nonce beside it, under the publisher's key. */
  lemma EveryAnswerIsTrue(setup: Setup, systems: seq<System>, events: seq<Event>, j: nat, c: nat, nonce: string,
      signature: string)
    requires IsRun(setup, systems, events) && j < |systems|
    requires ToldAt(systems, c, AuthMsg(nonce, signature))[j]
    ensures Proof.Answer(setup.lib, setup.feedKey, setup.version, setup.path, nonce) == Some(signature)
  {
    var told := ToldAt(systems, c, AuthMsg(nonce, signature));
    var holds := Proof.Answer(setup.lib, setup.feedKey, setup.version, setup.path, nonce) == Some(signature);
    NobodyToldAtStart(c, AuthMsg(nonce, signature));
    forall k | 0 < k < |told| && told[k] && !told[k - 1]
      ensures holds
    {
      AnswerJoinsTrue(setup, systems, events, k, c, nonce, signature);
    }
    BecameSo(told, seq(|told|, _ => holds), j);
  }

  lemma OnlyChallengesAnswer(setup: Setup, s: Server, task: Task, o: Oracle, c: nat, nonce: string, signature: string)
    requires SendTo(c, AuthMsg(nonce, signature)) in EffectOf(setup, s, task, o).next
    ensures task == AllowChallenge(c, nonce)
      && Proof.Answer(setup.lib, setup.feedKey, setup.version, setup.path, nonce) == Some(signature)
  {
    if task.SampleOnce? {
      if SendTo(c, AuthMsg(nonce, signature)) in SendsOf(o.round) {
        RoundsSendToWatchers(o.round, SendTo(c, AuthMsg(nonce, signature)));
      }
    }
  }
}
