/** What is due gets done: what each step must lead to, followed to its end over every run. */
module FeedProgress {
  import opened Prelude
  import opened Names
  import opened Feed
  import opened FeedSteps
  import opened FeedSafety
  import opened FeedTheorems
  import opened FeedDelivery
  import opened FeedOrder

  // ---------------------------------------------------------------- due until taken

  /** Some step of a stretch of a run takes this entry. */
  ghost predicate TakenBetween(systems: seq<System>, events: seq<Event>, k: nat, j: nat, task: Task)
    requires j < |systems| == |events| + 1
  {
    exists l :: k <= l < j && Takes(systems[l], events[l], task)
  }

  lemma NextLeavesDue(setup: Setup, y: System, e: Event, task: Task)
    requires Enabled(y, e) && task in Pending(y.threads) && !Takes(y, e, task)
    ensures task in Pending(Next(setup, y, e).threads)
  {
    match e
    case Step(t, o) => PendingAfterStep(y.threads, t, EffectOf(setup, y.server, y.threads[t][0], o));
    case PublishCalled(view) => PendingAfterAppend(y.threads, [[Publish(view)]]);
    case PublishPingsCalled(round) => PendingAfterAppend(y.threads, [[PublishPings(round)]]);
    case _ =>
  }

  /** Whatever is due stays due until a goroutine takes it. */
  lemma {:induction false} DueUntilTaken(setup: Setup, systems: seq<System>, events: seq<Event>, k: nat, j: nat,
      task: Task)
    requires IsRun(setup, systems, events) && k <= j < |systems| && task in Pending(systems[k].threads)
    ensures task in Pending(systems[j].threads) || TakenBetween(systems, events, k, j, task)
  {
    if k < j {
      DueUntilTaken(setup, systems, events, k, j - 1, task);
      if TakenBetween(systems, events, k, j - 1, task) {
        var l :| k <= l < j - 1 && Takes(systems[l], events[l], task);
      } else if !Takes(systems[j - 1], events[j - 1], task) {
        NextLeavesDue(setup, systems[j - 1], events[j - 1], task);
      }
    }
  }

  /** The effect of the step a goroutine takes. */
  ghost function EffectNow(setup: Setup, y: System, e: Event): Effect
    requires e.Step? && e.t < |y.threads| && y.threads[e.t] != []
  {
    EffectOf(setup, y.server, y.threads[e.t][0], e.o)
  }

  lemma NextBringsDue(setup: Setup, y: System, e: Event, task: Task)
    requires Enabled(y, e) && e.Step? && task in EffectNow(setup, y, e).next
    ensures task in Pending(Next(setup, y, e).threads)
  {
    PendingAfterStep(y.threads, e.t, EffectNow(setup, y, e));
    assert task in multiset(EffectNow(setup, y, e).next);
  }

  /** What a step leads to is due from then on until it is taken. */
  lemma LedToUntilTaken(setup: Setup, systems: seq<System>, events: seq<Event>, k: nat, j: nat, from: Task, task: Task)
    requires IsRun(setup, systems, events) && k < j < |systems| && Takes(systems[k], events[k], from)
    requires task in EffectOf(setup, systems[k].server, from, events[k].o).next
    ensures task in Pending(systems[j].threads) || TakenBetween(systems, events, k + 1, j, task)
  {
    RunGoesOn(setup, systems, events, k);
    NextBringsDue(setup, systems[k], events[k], task);
    DueUntilTaken(setup, systems, events, k + 1, j, task);
  }

  lemma RunGoesOn(setup: Setup, systems: seq<System>, events: seq<Event>, k: nat)
    requires IsRun(setup, systems, events) && k < |events|
    ensures Enabled(systems[k], events[k]) && systems[k + 1] == Next(setup, systems[k], events[k])
  {
  }

  // ---------------------------------------------------------------- what is sent out is sent to everybody

  lemma {:induction false} RoundSendsTo(round: seq<Reading>, i: nat, c: nat)
    requires i < |round| && c in round[i].watchers
    ensures SendTo(c, SampleMsg(round[i].tunnel, round[i].reading)) in SendsOf(round)
  {
    var n: nat :| n < |round[i].watchers| && round[i].watchers[n] == c;
    if i == 0 {
      var message := SampleMsg(round[0].tunnel, round[0].reading);
      assert SendsTo(round[0].watchers, message)[n] == SendTo(c, message);
    } else {
      RoundSendsTo(round[1..], i - 1, c);
    }
  }

  /** What a step has to say to a client: a view or a round published, or a reading of a tunnel it watches. */
  ghost predicate Announces(s: Server, task: Task, o: Oracle, c: nat, message: Message) {
    match task
    case Publish(view) => c in s.clients && message == StateMsg(view)
    case PublishPings(round) => c in s.clients && message == PingMsg(round)
    case SampleOnce =>
      exists i :: 0 <= i < |o.round| && c in WatchersOf(s, o.round[i].tunnel)
        && message == SampleMsg(o.round[i].tunnel, o.round[i].reading)
    case _ => false
  }

  lemma ListedIsSent(order: seq<nat>, clients: set<nat>, message: Message, c: nat)
    requires Enumerates(order, clients) && c in clients
    ensures c in order && SendTo(c, message) in SendsTo(order, message)
  {
    assert c in Elements(order);
    var n: nat :| n < |order| && order[n] == c;
    assert SendsTo(order, message)[n] == SendTo(c, message);
  }

  lemma AnnouncedIsSent(setup: Setup, s: Server, task: Task, o: Oracle, c: nat, message: Message)
    requires CanStep(s, task, o) && setup.canSample && Announces(s, task, o, c, message)
    ensures SendTo(c, message) in EffectOf(setup, s, task, o).next
  {
    if task.SampleOnce? {
      var i: nat :| i < |o.round| && c in WatchersOf(s, o.round[i].tunnel)
        && message == SampleMsg(o.round[i].tunnel, o.round[i].reading);
      ListedIsSent(o.round[i].watchers, WatchersOf(s, o.round[i].tunnel), message, c);
      RoundSendsTo(o.round, i, c);
    } else {
      ListedIsSent(o.order, s.clients, message, c);
    }
  }

  /**
   In every run every view and round of pings published goes to each client registered then, and every
   reading to each that watches its tunnel then: sending it is due until it is done.
   */
  lemma WhatIsAnnouncedIsSent(setup: Setup, systems: seq<System>, events: seq<Event>, k: nat, j: nat, task: Task,
      c: nat, message: Message)
    requires IsRun(setup, systems, events) && k < j < |systems| && setup.canSample && Takes(systems[k], events[k], task)
    requires Announces(systems[k].server, task, events[k].o, c, message)
    ensures SendTo(c, message) in Pending(systems[j].threads)
      || TakenBetween(systems, events, k + 1, j, SendTo(c, message))
  {
    RunGoesOn(setup, systems, events, k);
    AnnouncedIsSent(setup, systems[k].server, task, events[k].o, c, message);
    LedToUntilTaken(setup, systems, events, k, j, task, SendTo(c, message));
  }

  // ---------------------------------------------------------------- requests are passed on

  /** What a line asks of whoever runs the publisher, where it may. */
  function Wanted(s: Server, line: ClientMessage): Option<Request> {
    match line
    case RefreshMsg => Some(Refresh)
    case PingRequest(tunnel) => if tunnel == "" || Acceptable(s, tunnel) then Some(Ping(tunnel)) else None
    case _ => None
  }

  /** Whether enough time has gone by since the last request of this kind. */
  predicate PastItsFloor(s: Server, request: Request, now: Time) {
    var last := if request.Refresh? then s.lastRefresh else s.lastPing;
    last == 0 || now - last >= if request.Refresh? then REFRESH_FLOOR else PING_FLOOR
  }

  /** A request is left for the owner, unless one is waiting already. */
  ghost predicate LeavesIt(y: System, e: Event, z: System, request: Request) {
    && Takes(y, e, Deliver(request))
    && z.server.requests == if y.server.requests == [] then [request] else y.server.requests
  }

  /** From the step that passes a request on: leaving it for the owner is due, or has been done. */
  ghost predicate Reaches(systems: seq<System>, events: seq<Event>, l: nat, j: nat, request: Request)
    requires j < |systems| == |events| + 1
  {
    || Deliver(request) in Pending(systems[j].threads)
    || exists m :: l < m < j && LeavesIt(systems[m], events[m], systems[m + 1], request)
  }

  /** A request is asked, and if it is past its floor reaches the owner. */
  ghost predicate IsAsked(systems: seq<System>, events: seq<Event>, l: nat, j: nat, request: Request)
    requires l < j < |systems| == |events| + 1
  {
    && Takes(systems[l], events[l], Ask(request))
    && (PastItsFloor(systems[l].server, request, events[l].o.now) ==> Reaches(systems, events, l, j, request))
  }

  /** A request asked past its floor reaches the owner's side, where one at most waits. */
  lemma AskedIsPassedOn(setup: Setup, systems: seq<System>, events: seq<Event>, l: nat, j: nat, request: Request)
    requires IsRun(setup, systems, events) && l < j < |systems| && Takes(systems[l], events[l], Ask(request))
    requires PastItsFloor(systems[l].server, request, events[l].o.now)
    ensures Reaches(systems, events, l, j, request)
  {
    LedToUntilTaken(setup, systems, events, l, j, Ask(request), Deliver(request));
    if TakenBetween(systems, events, l + 1, j, Deliver(request)) {
      var m: nat :| l + 1 <= m < j && Takes(systems[m], events[m], Deliver(request));
      RunGoesOn(setup, systems, events, m);
    }
  }

  /**
   In every run a line that asks for a refresh, or for a ping of every tunnel or of one that is shown, is
   passed on: asking is due until it is done, and when it is done past its floor the request reaches the
   owner's side.
   */
  lemma RequestsArePassedOn(setup: Setup, systems: seq<System>, events: seq<Event>, k: nat, j: nat, c: nat,
      line: ClientMessage, request: Request)
    requires IsRun(setup, systems, events) && k < j < |systems| && Takes(systems[k], events[k], Handle(c, line))
    requires Wanted(systems[k].server, line) == Some(request)
    ensures Ask(request) in Pending(systems[j].threads)
      || exists l :: k < l < j && IsAsked(systems, events, l, j, request)
  {
    LedToUntilTaken(setup, systems, events, k, j, Handle(c, line), Ask(request));
    if TakenBetween(systems, events, k + 1, j, Ask(request)) {
      var l: nat :| k + 1 <= l < j && Takes(systems[l], events[l], Ask(request));
      if PastItsFloor(systems[l].server, request, events[l].o.now) {
        AskedIsPassedOn(setup, systems, events, l, j, request);
      }
      assert IsAsked(systems, events, l, j, request);
    }
  }

  // ---------------------------------------------------------------- goodbyes

  lemma QueuedStays(setup: Setup, systems: seq<System>, events: seq<Event>, i: nat, j: nat, c: nat,
      message: Message)
    requires IsRun(setup, systems, events) && i <= j < |systems| && message in At(systems[i].server, c).queued
    ensures message in At(systems[j].server, c).queued
  {
    HistoryOnlyGrows(setup, systems, events, i, j);
  }

  lemma ByeIsQueued(setup: Setup, y: System, e: Event, c: nat)
    requires Sound(setup, y) && Enabled(y, e) && Takes(y, e, SayBye(c)) && HasRoom(y.server, c)
    ensures ByeMsg in At(Next(setup, y, e).server, c).queued
  {
    StepIsPending(y.threads, e.t);
    assert Owed(y.server, c) == 1;
  }

  /**
   In every run everybody registered when the publisher shuts down is told bye, unless too far behind:
   saying it is due until it is done, and it joins the queue of whoever has room.
   */
  lemma EverybodyPresentIsToldBye(setup: Setup, systems: seq<System>, events: seq<Event>, k: nat, j: nat, c: nat)
    requires IsRun(setup, systems, events) && k < j < |systems| && Takes(systems[k], events[k], Shutdown)
    requires c in systems[k].server.clients
    ensures SayBye(c) in Pending(systems[j].threads) || ByeMsg in At(systems[j].server, c).queued
      || exists l :: k < l < j && Takes(systems[l], events[l], SayBye(c)) && !HasRoom(systems[l].server, c)
  {
    RunGoesOn(setup, systems, events, k);
    ListedGetsBye(events[k].o.order, systems[k].server.clients, c);
    LedToUntilTaken(setup, systems, events, k, j, Shutdown, SayBye(c));
    if TakenBetween(systems, events, k + 1, j, SayBye(c)) {
      var l: nat :| k + 1 <= l < j && Takes(systems[l], events[l], SayBye(c));
      if HasRoom(systems[l].server, c) {
        EverySystemIsSound(setup, systems, events, l);
        RunGoesOn(setup, systems, events, l);
        ByeIsQueued(setup, systems[l], events[l], c);
        QueuedStays(setup, systems, events, l + 1, j, c, ByeMsg);
      }
    }
  }

  lemma ListedGetsBye(order: seq<nat>, clients: set<nat>, c: nat)
    requires Enumerates(order, clients) && c in clients
    ensures SayBye(c) in Byes(order)
  {
    assert c in Elements(order);
    var n: nat :| n < |order| && order[n] == c;
    assert Byes(order)[n] == SayBye(c);
  }

  // ---------------------------------------------------------------- challenges are answered

  /** In every run a tick of the sampling loop leads to a round of samples. */
  lemma EveryTickSamples(setup: Setup, systems: seq<System>, events: seq<Event>, k: nat, j: nat, h: nat)
    requires IsRun(setup, systems, events) && k < j < |systems| && Takes(systems[k], events[k], SampleLoop(h))
    requires events[k].o.go
    ensures SampleOnce in Pending(systems[j].threads) || TakenBetween(systems, events, k + 1, j, SampleOnce)
  {
    LedToUntilTaken(setup, systems, events, k, j, SampleLoop(h), SampleOnce);
  }

  predicate MayBeSigned(setup: Setup, s: Server, c: nat, now: Time) {
    var last := At(s, c).lastChallenge;
    last == 0 || now - last >= ChallengeFloor(setup)
  }

  /** A signature is allowed, and if it is past the floor the answer is on its way to the client or has been sent. */
  ghost predicate IsSigned(setup: Setup, systems: seq<System>, events: seq<Event>, l: nat, j: nat, c: nat,
      encoded: string, signature: string)
    requires l < j < |systems| == |events| + 1
  {
    var answer := SendTo(c, AuthMsg(encoded, signature));
    && Takes(systems[l], events[l], AllowChallenge(c, encoded))
    && (MayBeSigned(setup, systems[l].server, c, events[l].o.now) ==>
          answer in Pending(systems[j].threads) || TakenBetween(systems, events, l + 1, j, answer))
  }

  /**
   In every run a well-formed challenge to a publisher that has a key is answered: allowing it is due until
   it is done, and when it is done past the client's floor, sending the answer is.
   */
  lemma ChallengesAreAnswered(setup: Setup, systems: seq<System>, events: seq<Event>, k: nat, j: nat, c: nat,
      encoded: string, signature: string)
    requires IsRun(setup, systems, events) && k < j < |systems|
    requires Takes(systems[k], events[k], Handle(c, ChallengeMsg(encoded)))
    requires Proof.Answer(setup.lib, setup.feedKey, setup.version, setup.path, encoded) == Some(signature)
    ensures AllowChallenge(c, encoded) in Pending(systems[j].threads)
      || exists l: nat :: k < l < j && IsSigned(setup, systems, events, l, j, c, encoded, signature)
  {
    LedToUntilTaken(setup, systems, events, k, j, Handle(c, ChallengeMsg(encoded)), AllowChallenge(c, encoded));
    if TakenBetween(systems, events, k + 1, j, AllowChallenge(c, encoded)) {
      var l: nat :| k + 1 <= l < j && Takes(systems[l], events[l], AllowChallenge(c, encoded));
      if MayBeSigned(setup, systems[l].server, c, events[l].o.now) {
        var answer := SendTo(c, AuthMsg(encoded, signature));
        LedToUntilTaken(setup, systems, events, l, j, AllowChallenge(c, encoded), answer);
      }
      assert IsSigned(setup, systems, events, l, j, c, encoded, signature);
    }
  }

  // ---------------------------------------------------------------- the door, while it is open and when it closes

  /** What is cancelled or unbound stays so, and only shutting down closes. */
  ghost predicate FlagsStay(s: Server, t: Server) {
    && (s.cancelled ==> t.cancelled) && (s.unbound ==> t.unbound) && (s.closing ==> t.closing)
  }

  lemma LinesKeepFlags(setup: Setup, s: Server, task: Task, o: Oracle)
    requires task.Handle? || task.AllowChallenge?
    ensures FlagsStay(s, EffectOf(setup, s, task, o).server)
    ensures EffectOf(setup, s, task, o).server.closing == s.closing
  {
  }

  lemma TrafficKeepsFlags(setup: Setup, s: Server, task: Task, o: Oracle)
    requires task.SendTo? || task.Take? || task.Write? || task.CloseQueue? || task.SayBye? || task.CloseConn?
    ensures FlagsStay(s, EffectOf(setup, s, task, o).server)
    ensures EffectOf(setup, s, task, o).server.closing == s.closing
  {
  }

  lemma OtherStepsKeepFlags(setup: Setup, s: Server, task: Task, o: Oracle)
    requires !OfClient(task)
    ensures FlagsStay(s, EffectOf(setup, s, task, o).server)
    ensures !task.Shutdown? ==> EffectOf(setup, s, task, o).server.closing == s.closing
  {
  }

  /** While the publisher is not cancelled its accept loop goes on; once it is closing it is unbound, or about to be. */
  ghost predicate DoorOk(s: Server, p: multiset<Task>) {
    && (!s.cancelled ==> p[Accept] + p[CheckFull] + p[Register] > 0)
    && (s.closing ==> s.unbound || Unbind in p)
  }

  lemma StepKeepsDoor(setup: Setup, s: Server, p: multiset<Task>, task: Task, o: Oracle)
    requires DoorOk(s, p) && task in p
    ensures var e := EffectOf(setup, s, task, o); DoorOk(e.server, After(p, task, e))
  {
    var e := EffectOf(setup, s, task, o);
    if task.Handle? || task.AllowChallenge? {
      LinesKeepFlags(setup, s, task, o);
    } else if OfClient(task) {
      TrafficKeepsFlags(setup, s, task, o);
    } else {
      OtherStepsKeepFlags(setup, s, task, o);
    }
    DoorStaysOk(s, p, task, e);
  }

  lemma DoorStaysOk(s: Server, p: multiset<Task>, task: Task, e: Effect)
    requires DoorOk(s, p) && task in p && FlagsStay(s, e.server)
    requires Accepts(task) ==> e.server.cancelled || Accept in e.next || CheckFull in e.next || Register in e.next
    requires task.Unbind? ==> e.server.unbound
    requires e.server.closing ==> s.closing || Unbind in e.next
    ensures DoorOk(e.server, After(p, task, e))
  {
    assert forall x :: x in e.next ==> x in multiset(e.next);
  }

  lemma NextKeepsDoor(setup: Setup, y: System, e: Event)
    requires Enabled(y, e) && DoorOk(y.server, Pending(y.threads))
    ensures DoorOk(Next(setup, y, e).server, Pending(Next(setup, y, e).threads))
  {
    match e
    case Step(t, o) =>
      var task := y.threads[t][0];
      PendingAfterStep(y.threads, t, EffectOf(setup, y.server, task, o));
      StepKeepsDoor(setup, y.server, Pending(y.threads), task, o);
    case PublishCalled(view) => PendingAfterAppend(y.threads, [[Publish(view)]]);
    case PublishPingsCalled(round) => PendingAfterAppend(y.threads, [[PublishPings(round)]]);
    case _ =>
  }

  /** In every run the door is open until the publisher is cancelled, and shut once it has closed. */
  lemma {:induction false} TheDoorIsOpenUntilCancelled(setup: Setup, systems: seq<System>, events: seq<Event>, i: nat)
    requires IsRun(setup, systems, events) && i < |systems|
    ensures DoorOk(systems[i].server, Pending(systems[i].threads))
  {
    if i == 0 {
      PendingOfTwo([Accept], [Shutdown]);
      assert Pending(START.threads) == multiset{Accept, Shutdown};
    } else {
      TheDoorIsOpenUntilCancelled(setup, systems, events, i - 1);
      RunGoesOn(setup, systems, events, i - 1);
      NextKeepsDoor(setup, systems[i - 1], events[i - 1]);
    }
  }

  // ---------------------------------------------------------------- everybody is greeted

  /** A registered client has been greeted, or is about to be, or to be dropped. */
  ghost predicate GreetOk(s: Server, p: multiset<Task>, c: nat) {
    c in s.clients ==> HelloMsg in At(s, c).queued || SendTo(c, HelloMsg) in p || Drop(c) in p
  }

  lemma RegisterKeepsGreet(s: Server, p: multiset<Task>, c: nat)
    requires QueuesOk(s, p) && GreetOk(s, p, c) && Register in p
    ensures GreetOk(Registered(s).server, After(p, Register, Registered(s)), c)
  {
    var e := Registered(s);
    if c in s.clients {
      RegisterShowsOthersNothing(s, c);
    } else if !s.closing && !s.unbound && c == |s.all| {
      GreetingComesFirst(s);
    }
  }

  lemma GreetingComesFirst(s: Server)
    requires !s.closing && !s.unbound
    ensures SendTo(|s.all|, HelloMsg) in Added(Registered(s))
  {
    assert Registered(s).next[0] == SendTo(|s.all|, HelloMsg);
    assert SendTo(|s.all|, HelloMsg) in multiset(Registered(s).next);
  }

  lemma GreetingKeepsGreet(s: Server, p: multiset<Task>, c: nat)
    requires QueuesOk(s, p) && SendTo(c, HelloMsg) in p
    ensures GreetOk(Sent(s, c, HelloMsg).server, After(p, SendTo(c, HelloMsg), Sent(s, c, HelloMsg)), c)
  {
    var e := Sent(s, c, HelloMsg);
    if c in s.clients && !HasRoom(s, c) {
      assert Drop(c) in multiset(e.next);
    }
  }

  lemma StepKeepsGreet(setup: Setup, s: Server, p: multiset<Task>, task: Task, o: Oracle, c: nat)
    requires QueuesOk(s, p) && GreetOk(s, p, c) && task in p
    ensures var e := EffectOf(setup, s, task, o); GreetOk(e.server, After(p, task, e), c)
  {
    if task.Register? {
      RegisterKeepsGreet(s, p, c);
    } else if task == SendTo(c, HelloMsg) {
      GreetingKeepsGreet(s, p, c);
    } else {
      NobodyJoins(setup, s, p, task, o);
      StepGrowsQueued(setup, s, p, task, o);
    }
  }

  lemma NextKeepsGreet(setup: Setup, y: System, e: Event, c: nat)
    requires Sound(setup, y) && Enabled(y, e) && GreetOk(y.server, Pending(y.threads), c)
    ensures GreetOk(Next(setup, y, e).server, Pending(Next(setup, y, e).threads), c)
  {
    match e
    case Step(t, o) =>
      var task := y.threads[t][0];
      PendingAfterStep(y.threads, t, EffectOf(setup, y.server, task, o));
      StepKeepsGreet(setup, y.server, Pending(y.threads), task, o, c);
    case PublishCalled(view) => PendingAfterAppend(y.threads, [[Publish(view)]]);
    case PublishPingsCalled(round) => PendingAfterAppend(y.threads, [[PublishPings(round)]]);
    case _ =>
  }

  /** In every run each registered client has been told hello, or is about to be, or to be dropped. */
  lemma {:induction false} EverybodyIsGreeted(setup: Setup, systems: seq<System>, events: seq<Event>, i: nat, c: nat)
    requires IsRun(setup, systems, events) && i < |systems|
    ensures GreetOk(systems[i].server, Pending(systems[i].threads), c)
  {
    if i > 0 {
      EverybodyIsGreeted(setup, systems, events, i - 1, c);
      EverySystemIsSound(setup, systems, events, i - 1);
      NextKeepsGreet(setup, systems[i - 1], events[i - 1], c);
    }
  }

  // ---------------------------------------------------------------- whoever is dropped is hung up on

  ghost predicate HangingUp(s: Server, p: multiset<Task>, c: nat) {
    c < |s.all| && (At(s, c).connected ==> CloseConn(c) in p)
  }

  lemma StaysHungUp(setup: Setup, s: Server, p: multiset<Task>, task: Task, o: Oracle, c: nat)
    requires QueuesOk(s, p) && task in p && c < |s.all|
    ensures c < |EffectOf(setup, s, task, o).server.all|
    ensures At(EffectOf(setup, s, task, o).server, c).connected ==> At(s, c).connected && task != CloseConn(c)
  {
    match task
    case Register => RegisteringReconnectsNone(s, c);
    case Take(d) => TakingReconnectsNone(s, d, c);
    case Write(d) => WritingReconnectsNone(s, d, o.go, c);
    case _ => OthersReconnectNone(setup, s, task, o);
  }

  lemma TakingReconnectsNone(s: Server, d: nat, c: nat)
    requires c < |s.all|
    ensures c < |Taken(s, d).server.all| && (At(Taken(s, d).server, c).connected ==> At(s, c).connected)
  {
    TakenOnlyClient(s, d);
  }

  lemma WritingReconnectsNone(s: Server, d: nat, go: bool, c: nat)
    requires c < |s.all|
    ensures c < |Written(s, d, go).server.all| && (At(Written(s, d, go).server, c).connected ==> At(s, c).connected)
  {
    WrittenOnlyClient(s, d, go);
  }

  lemma RegisteringReconnectsNone(s: Server, c: nat)
    requires c < |s.all|
    ensures c < |Registered(s).server.all| && At(Registered(s).server, c) == At(s, c)
  {
  }

  lemma NextStaysHungUp(setup: Setup, y: System, e: Event, c: nat)
    requires Sound(setup, y) && Enabled(y, e) && HangingUp(y.server, Pending(y.threads), c)
    ensures HangingUp(Next(setup, y, e).server, Pending(Next(setup, y, e).threads), c)
  {
    match e
    case Step(t, o) =>
      var task := y.threads[t][0];
      PendingAfterStep(y.threads, t, EffectOf(setup, y.server, task, o));
      StaysHungUp(setup, y.server, Pending(y.threads), task, o, c);
    case PublishCalled(view) => PendingAfterAppend(y.threads, [[Publish(view)]]);
    case PublishPingsCalled(round) => PendingAfterAppend(y.threads, [[PublishPings(round)]]);
    case _ =>
  }

  lemma DroppingHangsUp(setup: Setup, y: System, e: Event, c: nat)
    requires Sound(setup, y) && Enabled(y, e) && Takes(y, e, Drop(c)) && c in y.server.clients
    ensures HangingUp(Next(setup, y, e).server, Pending(Next(setup, y, e).threads), c)
  {
    assert EffectNow(setup, y, e).next[1] == CloseConn(c);
    NextBringsDue(setup, y, e, CloseConn(c));
  }

  lemma {:induction false} HungUpFromThenOn(setup: Setup, systems: seq<System>, events: seq<Event>, k: nat, j: nat,
      c: nat)
    requires IsRun(setup, systems, events) && k <= j < |systems|
    requires HangingUp(systems[k].server, Pending(systems[k].threads), c)
    ensures HangingUp(systems[j].server, Pending(systems[j].threads), c)
  {
    if k < j {
      HungUpFromThenOn(setup, systems, events, k, j - 1, c);
      EverySystemIsSound(setup, systems, events, j - 1);
      NextStaysHungUp(setup, systems[j - 1], events[j - 1], c);
    }
  }

  /** In every run a client that is dropped has its connection closed at once, whatever its writer is doing. */
  lemma WhoIsDroppedIsHungUpOn(setup: Setup, systems: seq<System>, events: seq<Event>, k: nat, j: nat, c: nat)
    requires IsRun(setup, systems, events) && k < j < |systems|
    requires Takes(systems[k], events[k], Drop(c)) && c in systems[k].server.clients
    ensures HangingUp(systems[j].server, Pending(systems[j].threads), c)
  {
    EverySystemIsSound(setup, systems, events, k);
    RunGoesOn(setup, systems, events, k);
    DroppingHangsUp(setup, systems[k], events[k], c);
    HungUpFromThenOn(setup, systems, events, k + 1, j, c);
  }
}
