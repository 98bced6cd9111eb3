/** What each step of the publisher can change, and which steps it can lead to. */
module FeedSteps {
  import opened Prelude
  import opened Names
  import opened Feed

  // ---------------------------------------------------------------- steps still to be taken

  /** Every step any goroutine has still to take, with how many times it is due. */
  ghost function Pending(threads: seq<seq<Task>>): multiset<Task> {
    if threads == [] then multiset{}
    else Pending(threads[..|threads| - 1]) + multiset(threads[|threads| - 1])
  }

  lemma SwapSides<T>(a: multiset<T>, b: multiset<T>, c: multiset<T>, d: multiset<T>, e: multiset<T>)
    requires a + b == c + d
    ensures a + e + b == c + e + d
  {
    forall x
      ensures (a + e + b)[x] == (c + e + d)[x]
    {
      assert (a + b)[x] == (c + d)[x];
    }
  }

  /** Replacing one goroutine's steps replaces them in the count. */
  lemma {:induction false} PendingAfterUpdate(threads: seq<seq<Task>>, t: nat, thread: seq<Task>)
    requires t < |threads|
    ensures Pending(threads[t := thread]) + multiset(threads[t]) == Pending(threads) + multiset(thread)
  {
    var n := |threads| - 1;
    var updated := threads[t := thread];
    assert Pending(updated) == Pending(updated[..n]) + multiset(updated[n]);
    if t < n {
      PendingAfterUpdate(threads[..n], t, thread);
      assert updated[..n] == threads[..n][t := thread];
      SwapSides(Pending(updated[..n]), multiset(threads[t]), Pending(threads[..n]), multiset(thread),
        multiset(threads[n]));
    } else {
      assert updated[..n] == threads[..n];
      assert updated[n] == thread;
    }
  }

  lemma {:induction false} PendingAfterAppend(threads: seq<seq<Task>>, more: seq<seq<Task>>)
    ensures Pending(threads + more) == Pending(threads) + Pending(more)
  {
    var both := threads + more;
    if more == [] {
      assert both == threads;
    } else {
      var n := |more| - 1;
      PendingAfterAppend(threads, more[..n]);
      assert both[..|both| - 1] == threads + more[..n];
      assert both[|both| - 1] == more[n];
    }
  }

  ghost function Added(effect: Effect): multiset<Task> {
    multiset(effect.next) + Pending(effect.started)
  }

  lemma CountOfThread(next: seq<Task>, thread: seq<Task>)
    requires thread != []
    ensures multiset(next + thread[1..]) + multiset{thread[0]} == multiset(next) + multiset(thread)
  {
    assert thread == [thread[0]] + thread[1..];
  }

  lemma {:induction false} StepIsPending(threads: seq<seq<Task>>, t: nat)
    requires t < |threads| && threads[t] != []
    ensures threads[t][0] in Pending(threads)
  {
    var n := |threads| - 1;
    if t < n {
      StepIsPending(threads[..n], t);
    } else {
      assert threads[n][0] in multiset(threads[n]);
    }
  }

  lemma TakeAway<T>(before: multiset<T>, after: multiset<T>, one: multiset<T>, more: multiset<T>)
    requires one <= before
    requires after + one == before + more
    ensures after == before - one + more
  {
    forall x
      ensures after[x] == (before - one + more)[x]
    {
      assert (after + one)[x] == (before + more)[x];
    }
  }

  /** One entry goes away, `more` and `started` come in, and what else the goroutine had to do stays. */
  lemma Exchange<T>(before: multiset<T>, was: multiset<T>, after: multiset<T>, now: multiset<T>, one: multiset<T>,
      more: multiset<T>)
    requires after + was == before + now
    requires now + one == more + was
    ensures after + one == before + more
  {
    forall x
      ensures (after + one)[x] == (before + more)[x]
    {
      assert (after + was)[x] == (before + now)[x];
      assert (now + one)[x] == (more + was)[x];
    }
  }

  /** A step takes its own entry away and adds what it leads to. */
  lemma PendingAfterStep(threads: seq<seq<Task>>, t: nat, effect: Effect)
    requires t < |threads| && threads[t] != []
    ensures threads[t][0] in Pending(threads)
    ensures Pending(threads[t := effect.next + threads[t][1..]] + effect.started)
         == Pending(threads) - multiset{threads[t][0]} + Added(effect)
  {
    var head := threads[t][0];
    var thread := effect.next + threads[t][1..];
    StepIsPending(threads, t);
    PendingAfterUpdate(threads, t, thread);
    CountOfThread(effect.next, threads[t]);
    PendingAfterAppend(threads[t := thread], effect.started);
    var before, after := Pending(threads), Pending(threads[t := thread]);
    Exchange(before, multiset(threads[t]), after, multiset(thread), multiset{head}, multiset(effect.next));
    TakeAway(before, after, multiset{head}, multiset(effect.next));
    var left := before - multiset{head};
    assert left + multiset(effect.next) + Pending(effect.started) == left + Added(effect);
  }

  lemma PendingOfOne(a: seq<Task>)
    ensures Pending([a]) == multiset(a)
  {
    assert [a][..0] == [];
  }

  lemma PendingOfTwo(a: seq<Task>, b: seq<Task>)
    ensures Pending([a, b]) == multiset(a) + multiset(b)
  {
    assert [a, b][..1] == [a];
    PendingOfOne(a);
  }

  // ---------------------------------------------------------------- what steps add

  /** Everything due once a step has been taken. */
  ghost function After(p: multiset<Task>, task: Task, e: Effect): multiset<Task> {
    p - multiset{task} + Added(e)
  }

  predicate Closes(task: Task) {
    task.CloseQueue? || task.SayBye?
  }

  predicate Accepts(task: Task) {
    task.Accept? || task.CheckFull? || task.Register?
  }

  predicate Writes(task: Task) {
    task.Take? || task.Write?
  }

  predicate Stops(task: Task) {
    task.StopSampling? || task.Unbind?
  }

  /** A step that brings nothing the invariants count, save what its own kind brings. */
  ghost predicate Plain(from: Task, task: Task) {
    && !task.Shutdown?
    && (task.CloseQueue? ==> from.Drop? || from.SayBye?)
    && (task.SayBye? ==> from.Shutdown?)
    && (Accepts(task) ==> Accepts(from))
    && (Writes(task) ==> Writes(from) || from.Register?)
    && (task.SampleLoop? ==> from.Retick? || from == task)
    && (Stops(task) ==> from.Shutdown?)
    && (task.SendTo? ==> task.message != ByeMsg && (task.message == HelloMsg ==> from.Register?))
  }

  ghost predicate AllPlain(from: Task, tasks: seq<Task>) {
    forall task :: task in tasks ==> Plain(from, task)
  }

  ghost predicate Brings(from: Task, e: Effect) {
    && AllPlain(from, e.next)
    && forall thread :: thread in e.started ==> AllPlain(from, thread)
  }

  lemma SendsArePlain(from: Task, order: seq<nat>, message: Message)
    requires message != ByeMsg && message != HelloMsg
    ensures AllPlain(from, SendsTo(order, message))
  {
  }

  lemma {:induction false} RoundsArePlain(from: Task, round: seq<Reading>)
    ensures AllPlain(from, SendsOf(round))
  {
    if round != [] {
      RoundsArePlain(from, round[1..]);
      SendsArePlain(from, round[0].watchers, SampleMsg(round[0].tunnel, round[0].reading));
    }
  }

  lemma RegisteredBrings(s: Server)
    ensures Brings(Register, Registered(s))
  {
  }

  lemma ReticksBring(s: Server)
    ensures Brings(Retick, Reticked(s))
  {
  }

  lemma LinesBring(setup: Setup, s: Server, c: nat, line: ClientMessage)
    ensures Brings(Handle(c, line), LineHandled(setup, s, c, line))
  {
  }

  lemma ClientsBring(setup: Setup, s: Server, from: Task, o: Oracle)
    requires from.SendTo? || from.Drop? || from.CloseQueue? || from.CloseConn?
      || from.SayBye? || from.Take? || from.Write?
    ensures Brings(from, EffectOf(setup, s, from, o))
  {
  }

  lemma ReadersBring(setup: Setup, s: Server, from: Task, o: Oracle)
    requires from.Read? || from.AllowChallenge? || from.Ask? || from.Deliver?
    ensures Brings(from, EffectOf(setup, s, from, o))
  {
  }

  lemma FanOutsBring(setup: Setup, s: Server, from: Task, o: Oracle)
    requires from.SampleOnce? || from.Publish? || from.PublishPings?
    ensures Brings(from, EffectOf(setup, s, from, o))
  {
    RoundsArePlain(from, o.round);
  }

  lemma LoopsBring(setup: Setup, s: Server, from: Task, o: Oracle)
    requires from.Accept? || from.CheckFull? || from.SampleLoop? || from.Shutdown? || from.StopSampling? || from.Unbind?
    ensures Brings(from, EffectOf(setup, s, from, o))
  {
  }

  /** Where each kind of step can come from. */
  lemma StepsBring(setup: Setup, s: Server, from: Task, o: Oracle)
    ensures Brings(from, EffectOf(setup, s, from, o))
  {
    match from
    case Register => RegisteredBrings(s);
    case Retick => ReticksBring(s);
    case Handle(c, line) => LinesBring(setup, s, c, line);
    case SampleOnce => FanOutsBring(setup, s, from, o);
    case Publish(_) => FanOutsBring(setup, s, from, o);
    case PublishPings(_) => FanOutsBring(setup, s, from, o);
    case _ =>
      if from.Read? || from.AllowChallenge? || from.Ask? || from.Deliver? {
        ReadersBring(setup, s, from, o);
      } else if from.Accept? || from.CheckFull? || from.SampleLoop?
        || from.Shutdown? || from.StopSampling? || from.Unbind? {
        LoopsBring(setup, s, from, o);
      } else {
        ClientsBring(setup, s, from, o);
      }
  }

  lemma {:induction false} PendingIsPlain(from: Task, threads: seq<seq<Task>>)
    requires forall thread :: thread in threads ==> AllPlain(from, thread)
    ensures forall task :: task in Pending(threads) ==> Plain(from, task)
  {
    if threads != [] {
      var n := |threads| - 1;
      PendingIsPlain(from, threads[..n]);
      assert threads[n] in threads;
    }
  }

  /** A step whose kind brings no `task` leaves the count of every other `task` alone. */
  lemma CountKept(p: multiset<Task>, from: Task, e: Effect, task: Task)
    requires from in p && Brings(from, e)
    requires !Plain(from, task)
    ensures After(p, from, e)[task] == p[task] - if from == task then 1 else 0
  {
    PendingIsPlain(from, e.started);
    assert task !in multiset(e.next);
  }

  lemma {:induction false} ByesOnce(order: seq<nat>, c: nat)
    requires Distinct(order)
    ensures multiset(Byes(order))[SayBye(c)] == if c in order then 1 else 0
    ensures forall task :: task in Byes(order) ==> task.SayBye?
  {
    if order != [] {
      var n := |order| - 1;
      ByesOnce(order[..n], c);
      assert Byes(order) == Byes(order[..n]) + [SayBye(order[n])];
      assert order == order[..n] + [order[n]];
    }
  }

  // ---------------------------------------------------------------- steps that change little

  /** Nothing about registration, queues being closed, sampling or shutting down is different. */
  ghost predicate Quietly(s: Server, t: Server) {
    && |t.all| == |s.all| && t.clients == s.clients
    && t.closing == s.closing && t.unbound == s.unbound
    && t.sampling == s.sampling && t.loops == s.loops && t.stopped == s.stopped
    && t.panicked == s.panicked
    && forall c :: 0 <= c < |s.all| ==> t.all[c].closed == s.all[c].closed
  }

  /** The steps that change who is registered, a queue being closed, sampling or shutting down. */
  predicate Structural(task: Task) {
    || task.Register? || task.Drop? || task.CloseQueue? || task.SayBye? || task.Shutdown?
    || task.Retick? || task.StopSampling? || task.Unbind?
  }

  ghost predicate OpenQueues(s: Server) {
    forall c :: c in s.clients ==> c < |s.all| && !s.all[c].closed
  }

  lemma PutQuietly(s: Server, c: nat, client: Client)
    requires client.closed == At(s, c).closed
    ensures Quietly(s, Put(s, c, client))
  {
  }

  lemma SentQuietly(s: Server, c: nat, message: Message)
    requires OpenQueues(s)
    ensures Quietly(s, Sent(s, c, message).server)
  {
    if c in s.clients && HasRoom(s, c) {
      var client := s.all[c];
      PutQuietly(s, c, client.(queue := client.queue + [message], queued := client.queued + [message]));
    }
  }

  lemma LinesQuietly(setup: Setup, s: Server, c: nat, line: ClientMessage)
    ensures Quietly(s, LineHandled(setup, s, c, line).server)
  {
    match line
    case WatchMsg(tunnel) => PutQuietly(s, c, At(s, c).(watch := At(s, c).watch + {tunnel}));
    case UnwatchMsg(tunnel) => PutQuietly(s, c, At(s, c).(watch := At(s, c).watch - {tunnel}));
    case _ =>
  }

  lemma TakenQuietly(s: Server, c: nat)
    ensures Quietly(s, Taken(s, c).server)
  {
    var client := At(s, c);
    if client.queue == [] {
      PutQuietly(s, c, client.(connected := false));
    } else {
      PutQuietly(s, c, client.(queue := client.queue[1..], hand := Some(client.queue[0])));
    }
  }

  lemma WrittenQuietly(s: Server, c: nat, go: bool)
    ensures Quietly(s, Written(s, c, go).server)
  {
    var client := At(s, c);
    PutQuietly(s, c, client.(connected := false));
    if client.hand.Some? {
      PutQuietly(s, c, client.(hand := None, written := client.written + [client.hand.value]));
    }
  }

  lemma ChallengesQuietly(setup: Setup, s: Server, c: nat, nonce: string, now: Time)
    ensures Quietly(s, ChallengeAllowed(setup, s, c, nonce, now).server)
  {
    var client := At(s, c);
    PutQuietly(s, c, client.(lastChallenge := now, signed := client.signed + [now]));
  }

  lemma AskedQuietly(s: Server, request: Request, now: Time)
    ensures Quietly(s, Asked(s, request, now).server)
  {
  }

  lemma LoopsQuietly(setup: Setup, s: Server, task: Task, o: Oracle)
    requires task.Accept? || task.CheckFull? || task.CloseConn? || task.Publish?
      || task.PublishPings? || task.SampleLoop?
          || task.SampleOnce? || task.Deliver? || task.Read?
    ensures Quietly(s, EffectOf(setup, s, task, o).server)
  {
  }

  lemma OthersQuietly(setup: Setup, s: Server, task: Task, o: Oracle)
    requires OpenQueues(s) && !Structural(task)
    ensures Quietly(s, EffectOf(setup, s, task, o).server)
  {
    match task
    case SendTo(c, message) => SentQuietly(s, c, message);
    case Handle(c, line) => LinesQuietly(setup, s, c, line);
    case Take(c) => TakenQuietly(s, c);
    case Write(c) => WrittenQuietly(s, c, o.go);
    case AllowChallenge(c, nonce) => ChallengesQuietly(setup, s, c, nonce, o.now);
    case Ask(request) => AskedQuietly(s, request, o.now);
    case _ => LoopsQuietly(setup, s, task, o);
  }

  // ---------------------------------------------------------------- steps on one client

  /** The steps that change one client and nothing else the invariants below read. */
  predicate OfClient(task: Task) {
    || task.SendTo? || task.Take? || task.Write? || task.CloseQueue? || task.SayBye? || task.CloseConn?
    || task.Handle? || task.AllowChallenge?
  }

  /** Only client `c` is different. */
  ghost predicate OnlyClient(s: Server, t: Server, c: nat) {
    && t.all == Put(s, c, At(t, c)).all && t.clients == s.clients
    && t.view == s.view && t.sampling == s.sampling && t.closing == s.closing && t.unbound == s.unbound
    && t.refreshes == s.refreshes && t.lastRefresh == s.lastRefresh
    && t.pings == s.pings && t.lastPing == s.lastPing && t.requests == s.requests
  }

  predicate SameStamps(a: Client, b: Client) {
    a.signed == b.signed && a.lastChallenge == b.lastChallenge
  }

  /** What was queued, written and taken is the same. */
  predicate SameTraffic(a: Client, b: Client) {
    a.queue == b.queue && a.hand == b.hand && a.queued == b.queued && a.written == b.written
  }

  /** Neither its stamps nor what it watches is different. */
  predicate Calmly(a: Client, b: Client) {
    SameStamps(a, b) && a.watch == b.watch
  }

  lemma PutOnlyClient(s: Server, c: nat, client: Client)
    ensures OnlyClient(s, Put(s, c, client), c)
    ensures At(Put(s, c, client), c) == if c < |s.all| then client else At(s, c)
  {
  }

  lemma SentOnlyClient(s: Server, c: nat, message: Message)
    requires OpenQueues(s)
    ensures OnlyClient(s, Sent(s, c, message).server, c)
    ensures Calmly(At(s, c), At(Sent(s, c, message).server, c))
    ensures At(Sent(s, c, message).server, c).hand == At(s, c).hand
  {
    if c in s.clients && HasRoom(s, c) {
      var client := At(s, c);
      PutOnlyClient(s, c, client.(queue := client.queue + [message], queued := client.queued + [message]));
    }
  }

  lemma TakenOnlyClient(s: Server, c: nat)
    ensures OnlyClient(s, Taken(s, c).server, c)
    ensures Calmly(At(s, c), At(Taken(s, c).server, c))
    ensures At(Taken(s, c).server, c).queued == At(s, c).queued
  {
    var client := At(s, c);
    if client.queue == [] {
      PutOnlyClient(s, c, client.(connected := false));
    } else {
      PutOnlyClient(s, c, client.(queue := client.queue[1..], hand := Some(client.queue[0])));
    }
  }

  lemma WrittenOnlyClient(s: Server, c: nat, go: bool)
    ensures OnlyClient(s, Written(s, c, go).server, c)
    ensures Calmly(At(s, c), At(Written(s, c, go).server, c))
    ensures At(Written(s, c, go).server, c).queued == At(s, c).queued
  {
    var client := At(s, c);
    PutOnlyClient(s, c, client.(connected := false));
    if client.hand.Some? {
      PutOnlyClient(s, c, client.(hand := None, written := client.written + [client.hand.value]));
    }
  }

  lemma ClosedOnlyClient(s: Server, c: nat)
    ensures OnlyClient(s, QueueClosed(s, c), c)
    ensures Calmly(At(s, c), At(QueueClosed(s, c), c)) && SameTraffic(At(s, c), At(QueueClosed(s, c), c))
  {
    PutOnlyClient(s, c, At(s, c).(closed := true));
  }

  lemma ByeOnlyClient(s: Server, c: nat)
    requires !At(s, c).closed
    ensures OnlyClient(s, SaidBye(s, c).server, c)
    ensures Calmly(At(s, c), At(SaidBye(s, c).server, c))
    ensures At(SaidBye(s, c).server, c).hand == At(s, c).hand
  {
    var client := At(s, c);
    PutOnlyClient(s, c, client.(queue := client.queue + [ByeMsg], queued := client.queued + [ByeMsg]));
  }

  lemma HungUpOnlyClient(s: Server, c: nat)
    ensures var t := Put(s, c, At(s, c).(connected := false));
      OnlyClient(s, t, c) && Calmly(At(s, c), At(t, c)) && SameTraffic(At(s, c), At(t, c))
  {
  }

  lemma LinesOnlyClient(setup: Setup, s: Server, c: nat, line: ClientMessage)
    ensures OnlyClient(s, LineHandled(setup, s, c, line).server, c)
    ensures SameStamps(At(s, c), At(LineHandled(setup, s, c, line).server, c))
    ensures SameTraffic(At(s, c), At(LineHandled(setup, s, c, line).server, c))
  {
    match line
    case WatchMsg(tunnel) => PutOnlyClient(s, c, At(s, c).(watch := At(s, c).watch + {tunnel}));
    case UnwatchMsg(tunnel) => PutOnlyClient(s, c, At(s, c).(watch := At(s, c).watch - {tunnel}));
    case _ =>
  }

  lemma ChallengesOnlyClient(setup: Setup, s: Server, c: nat, nonce: string, now: Time)
    ensures OnlyClient(s, ChallengeAllowed(setup, s, c, nonce, now).server, c)
    ensures At(ChallengeAllowed(setup, s, c, nonce, now).server, c).watch == At(s, c).watch
    ensures SameTraffic(At(s, c), At(ChallengeAllowed(setup, s, c, nonce, now).server, c))
  {
    var client := At(s, c);
    PutOnlyClient(s, c, client.(lastChallenge := now, signed := client.signed + [now]));
  }

  lemma ClientStepsOnlyClient(setup: Setup, s: Server, task: Task, o: Oracle)
    requires OpenQueues(s) && OfClient(task)
    requires task.SayBye? ==> !At(s, task.c).closed
    ensures OnlyClient(s, EffectOf(setup, s, task, o).server, task.c)
    ensures !task.Handle? ==> At(EffectOf(setup, s, task, o).server, task.c).watch == At(s, task.c).watch
    ensures !task.AllowChallenge? ==> SameStamps(At(s, task.c), At(EffectOf(setup, s, task, o).server, task.c))
  {
    match task
    case SendTo(c, message) => SentOnlyClient(s, c, message);
    case Take(c) => TakenOnlyClient(s, c);
    case Write(c) => WrittenOnlyClient(s, c, o.go);
    case CloseQueue(c) => ClosedOnlyClient(s, c);
    case SayBye(c) => ByeOnlyClient(s, c);
    case CloseConn(c) => HungUpOnlyClient(s, c);
    case Handle(c, line) => LinesOnlyClient(setup, s, c, line);
    case AllowChallenge(c, nonce) => ChallengesOnlyClient(setup, s, c, nonce, o.now);
  }

  /** The steps that change no client and remove none. */
  predicate OfNobody(task: Task) {
    || task.Accept? || task.CheckFull? || task.Retick? || task.Read? || task.Ask? || task.Deliver? || task.Publish?
    || task.PublishPings? || task.SampleLoop? || task.SampleOnce? || task.StopSampling? || task.Unbind?
  }

  lemma NobodyChanges(setup: Setup, s: Server, task: Task, o: Oracle)
    requires OfNobody(task)
    ensures var t := EffectOf(setup, s, task, o).server; t.all == s.all && t.clients == s.clients
  {
  }

  ghost predicate SameClocks(s: Server, t: Server) {
    && t.refreshes == s.refreshes && t.lastRefresh == s.lastRefresh
    && t.pings == s.pings && t.lastPing == s.lastPing && t.requests == s.requests
  }

  lemma OthersKeepClocks(setup: Setup, s: Server, task: Task, o: Oracle)
    requires !OfClient(task) && !task.Ask? && !task.Deliver?
    ensures SameClocks(s, EffectOf(setup, s, task, o).server)
  {
  }
}
