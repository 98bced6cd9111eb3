/** What a client of the publisher is told first, in every interleaving. */
module FeedGreeting {
  import opened Prelude
  import opened Names
  import opened Feed
  import opened FeedSteps
  import opened FeedSafety
  import opened FeedTheorems
  import opened FeedDelivery
  import opened FeedOrder

  // ---------------------------------------------------------------- what a client is told first

  /** The step that registers a client. */
  ghost predicate Registers(y: System, e: Event, c: nat) {
    Takes(y, e, Register) && c == |y.server.all| && !y.server.closing && !y.server.unbound
  }

  /** Nothing was told at one point: nothing is at a later one exactly when nothing joined in between. */
  lemma {:induction false} NothingToldUntilSomethingJoins(told: seq<seq<Message>>, parts: seq<seq<Message>>,
      keep: seq<bool>, a: nat, b: nat)
    requires a <= b < |told| == |parts| + 1 && |keep| == |parts| && told[a] == []
    requires forall k: nat :: 0 < k < |told| ==> Grows(told, parts, keep, k)
    ensures told[b] == [] <==> forall l :: a <= l < b ==> parts[l] == [] || !keep[l]
  {
    if a < b {
      NothingToldUntilSomethingJoins(told, parts, keep, a, b - 1);
      assert Grows(told, parts, keep, b);
    }
  }

  lemma {:induction false} WithoutByeIsAll(messages: seq<Message>)
    requires ByeMsg !in messages
    ensures WithoutBye(messages) == messages
  {
    if messages != [] {
      WithoutByeIsAll(messages[..|messages| - 1]);
    }
  }

  lemma RegisteredIsToldNothing(setup: Setup, y: System, e: Event, c: nat)
    requires Enabled(y, e) && Registers(y, e, c)
    ensures ToldBy(Next(setup, y, e), c) == []
  {
    RegisteredIsNew(y.server);
  }

  lemma NothingQueuedUntilSomethingJoins(setup: Setup, systems: seq<System>, events: seq<Event>, r: nat, k: nat, c: nat)
    requires IsRun(setup, systems, events) && r < k < |systems|
    requires Registers(systems[r], events[r], c) && c in systems[k].server.clients
    ensures At(systems[k].server, c).queued == [] <==> forall l :: r < l < k ==> !Joins(systems[l], events[l], c)
  {
    var told, parts, keep := ToldThroughout(systems, c), MeantAt(systems, events, c), RoomAt(systems, events, c);
    RunGrows(setup, systems, events, c);
    RegisteredIsToldNothing(setup, systems[r], events[r], c);
    assert told[r + 1] == [];
    NothingToldUntilSomethingJoins(told, parts, keep, r + 1, k);
    RegisteredIsToldAll(setup, systems, events, k, c);
    assert forall l: nat :: l < |events| ==> (Joins(systems[l], events[l], c) <==> parts[l] != [] && keep[l]);
  }

  lemma RegisteredIsToldAll(setup: Setup, systems: seq<System>, events: seq<Event>, k: nat, c: nat)
    requires IsRun(setup, systems, events) && k < |systems| && c in systems[k].server.clients
    ensures ToldBy(systems[k], c) == At(systems[k].server, c).queued
  {
    EverySystemIsSound(setup, systems, events, k);
    WithoutByeIsAll(At(systems[k].server, c).queued);
  }

  /**
   The first thing a client is told is its greeting if and only if, from the step that registered it to
   the one that greets it, no message sent by another goroutine joins its queue.
   */
  lemma GreetedFirstExactlyWhenNothingJoinsBefore(setup: Setup, systems: seq<System>, events: seq<Event>, r: nat,
      k: nat, j: nat, c: nat)
    requires IsRun(setup, systems, events) && r < k < j < |systems|
    requires Registers(systems[r], events[r], c)
    requires Takes(systems[k], events[k], SendTo(c, HelloMsg)) && Joins(systems[k], events[k], c)
    ensures |At(systems[j].server, c).queued| > 0
    ensures At(systems[j].server, c).queued[0] == HelloMsg
       <==> forall l :: r < l < k ==> !Joins(systems[l], events[l], c)
  {
    NothingQueuedUntilSomethingJoins(setup, systems, events, r, k, c);
    HelloIsQueued(setup, systems, events, k, c);
    GreetedFirstExactlyWhenNothingSlipsIn(setup, systems, events, k, j, c);
  }

  lemma HelloIsQueued(setup: Setup, systems: seq<System>, events: seq<Event>, k: nat, c: nat)
    requires IsRun(setup, systems, events) && k < |events|
    requires Takes(systems[k], events[k], SendTo(c, HelloMsg)) && Joins(systems[k], events[k], c)
    ensures At(systems[k + 1].server, c).queued != At(systems[k].server, c).queued
  {
    EverySystemIsSound(setup, systems, events, k);
    NextJoinsOrDrops(setup, systems[k], events[k].t, events[k].o, c, HelloMsg);
  }

  // ---------------------------------------------------------------- who can slip in

  /** A step that can lead to something being sent to a client that is registered already. */
  ghost predicate Disturbs(y: System, e: Event, c: nat) {
    e.Step? && e.t < |y.threads| && y.threads[e.t] != [] && DisturbingStep(y.threads[e.t][0], c)
  }

  predicate DisturbingStep(task: Task, c: nat) {
    task.Publish? || task.PublishPings? || task.SampleOnce? || (task.AllowChallenge? && task.c == c)
  }

  predicate Silent(tasks: seq<Task>, c: nat) {
    forall k :: 0 <= k < |tasks| ==> !(tasks[k].SendTo? && tasks[k].c == c)
  }

  /** One goroutine is about to greet a client, and no other has anything to send it. */
  ghost predicate AboutToBeGreeted(y: System, t: nat, c: nat) {
    && t < |y.threads| && y.threads[t] != [] && y.threads[t][0] == SendTo(c, HelloMsg)
    && c < |y.server.all|
    && forall q :: 0 <= q < |y.threads| && q != t ==> Silent(y.threads[q], c)
  }

  lemma OthersSendNothing(setup: Setup, s: Server, task: Task, o: Oracle, c: nat)
    requires c < |s.all| && !DisturbingStep(task, c)
    ensures Silent(EffectOf(setup, s, task, o).next, c)
    ensures forall thread :: thread in EffectOf(setup, s, task, o).started ==> Silent(thread, c)
  {
  }

  lemma RegisteringGreets(setup: Setup, y: System, e: Event, c: nat)
    requires Sound(setup, y) && Known(Pending(y.threads), |y.server.all|) && Enabled(y, e) && Registers(y, e, c)
    ensures AboutToBeGreeted(Next(setup, y, e), e.t, c)
  {
    forall q | 0 <= q < |y.threads|
      ensures Silent(y.threads[q], c)
    {
      forall k | 0 <= k < |y.threads[q]|
        ensures !(y.threads[q][k].SendTo? && y.threads[q][k].c == c)
      {
        ListedIsPending(y.threads, q, k);
      }
    }
    RegisteredThreads(y, e.t, c);
  }

  lemma {:induction false} ListedIsPending(threads: seq<seq<Task>>, t: nat, k: nat)
    requires t < |threads| && k < |threads[t]|
    ensures threads[t][k] in Pending(threads)
  {
    var n := |threads| - 1;
    if t < n {
      ListedIsPending(threads[..n], t, k);
    } else {
      assert threads[n][k] in multiset(threads[n]);
    }
  }

  lemma RegisteredThreads(y: System, t: nat, c: nat)
    requires t < |y.threads| && y.threads[t] != [] && c == |y.server.all| && !y.server.closing && !y.server.unbound
    requires forall q :: 0 <= q < |y.threads| ==> Silent(y.threads[q], c)
    ensures var e := Registered(y.server);
      AboutToBeGreeted(System(e.server, y.threads[t := e.next + y.threads[t][1..]] + e.started), t, c)
  {
  }

  lemma NextIsStillAboutToGreet(setup: Setup, y: System, e: Event, t: nat, c: nat)
    requires Sound(setup, y) && Enabled(y, e) && AboutToBeGreeted(y, t, c)
    requires !Disturbs(y, e, c) && !Takes(y, e, SendTo(c, HelloMsg))
    ensures AboutToBeGreeted(Next(setup, y, e), t, c)
  {
    if e.Step? {
      var task := y.threads[e.t][0];
      OthersSendNothing(setup, y.server, task, e.o, c);
      StepIsPending(y.threads, e.t);
      NobodyComesBack(setup, y.server, Pending(y.threads), task, e.o, c);
      ThreadsStaySilent(y, e.t, EffectOf(setup, y.server, task, e.o), t, c);
    }
  }

  lemma ThreadsStaySilent(y: System, q: nat, e: Effect, t: nat, c: nat)
    requires AboutToBeGreeted(y, t, c) && q < |y.threads| && y.threads[q] != [] && q != t
    requires Silent(e.next, c) && (forall thread :: thread in e.started ==> Silent(thread, c)) && c < |e.server.all|
    ensures AboutToBeGreeted(System(e.server, y.threads[q := e.next + y.threads[q][1..]] + e.started), t, c)
  {
  }

  lemma NobodyElseSends(y: System, e: Event, t: nat, c: nat)
    requires AboutToBeGreeted(y, t, c) && !Takes(y, e, SendTo(c, HelloMsg))
    ensures !Joins(y, e, c)
  {
  }

  lemma {:induction false} StillAboutToGreet(setup: Setup, systems: seq<System>, events: seq<Event>, r: nat, l: nat,
      c: nat)
    requires IsRun(setup, systems, events) && r < l < |systems| && Registers(systems[r], events[r], c)
    requires forall m :: r < m < l ==>
      !Disturbs(systems[m], events[m], c) && !Takes(systems[m], events[m], SendTo(c, HelloMsg))
    ensures AboutToBeGreeted(systems[l], events[r].t, c)
  {
    if r + 1 == l {
      RegisteredIsAboutToBeGreeted(setup, systems, events, r, c);
    } else {
      StillAboutToGreet(setup, systems, events, r, l - 1, c);
      EverySystemIsSound(setup, systems, events, l - 1);
      NextIsStillAboutToGreet(setup, systems[l - 1], events[l - 1], events[r].t, c);
    }
  }

  lemma RegisteredIsAboutToBeGreeted(setup: Setup, systems: seq<System>, events: seq<Event>, r: nat, c: nat)
    requires IsRun(setup, systems, events) && r < |events| && Registers(systems[r], events[r], c)
    ensures AboutToBeGreeted(systems[r + 1], events[r].t, c)
  {
    EverySystemIsSound(setup, systems, events, r);
    NobodyIsServedEarly(setup, systems, events, r);
    RegisteringGreets(setup, systems[r], events[r], c);
  }

  function DueHellos(p: multiset<Task>, c: nat): nat {
    p[SendTo(c, HelloMsg)]
  }

  lemma StepBringsNoGreeting(setup: Setup, s: Server, p: multiset<Task>, task: Task, o: Oracle, c: nat)
    requires task in p && c < |s.all|
    ensures DueHellos(After(p, task, EffectOf(setup, s, task, o)), c)
         == DueHellos(p, c) - if task == SendTo(c, HelloMsg) then 1 else 0
  {
    if task.Register? {
      RegisterGreetsOnce(s, c);
    } else {
      StepsBring(setup, s, task, o);
      CountKept(p, task, EffectOf(setup, s, task, o), SendTo(c, HelloMsg));
    }
  }

  /** A client that is registered is never greeted by anybody else. */
  lemma NextBringsNoGreeting(setup: Setup, y: System, e: Event, c: nat)
    requires Sound(setup, y) && Enabled(y, e) && c < |y.server.all|
    ensures DueHellos(Pending(Next(setup, y, e).threads), c)
         == DueHellos(Pending(y.threads), c) - if Takes(y, e, SendTo(c, HelloMsg)) then 1 else 0
  {
    match e
    case Step(t, o) =>
      var task := y.threads[t][0];
      PendingAfterStep(y.threads, t, EffectOf(setup, y.server, task, o));
      StepBringsNoGreeting(setup, y.server, Pending(y.threads), task, o, c);
    case PublishCalled(view) => CallBringsNoGreeting(y.threads, Publish(view), c);
    case PublishPingsCalled(round) => CallBringsNoGreeting(y.threads, PublishPings(round), c);
    case _ =>
  }

  lemma CallBringsNoGreeting(threads: seq<seq<Task>>, task: Task, c: nat)
    requires task.Publish? || task.PublishPings?
    ensures DueHellos(Pending(threads + [[task]]), c) == DueHellos(Pending(threads), c)
  {
    PendingAfterAppend(threads, [[task]]);
    PendingOfOne([task]);
    assert multiset([task]) == multiset{task};
  }

  lemma {:induction false} GreetedIsNotDueAgain(setup: Setup, systems: seq<System>, events: seq<Event>, l: nat, k: nat,
      c: nat)
    requires IsRun(setup, systems, events) && l < k < |systems|
    requires Takes(systems[l], events[l], SendTo(c, HelloMsg))
    ensures c < |systems[k].server.all| && DueHellos(Pending(systems[k].threads), c) == 0
  {
    if l + 1 == k {
      GreetingIsTaken(setup, systems, events, l, c);
    } else {
      GreetedIsNotDueAgain(setup, systems, events, l, k - 1, c);
      EverySystemIsSound(setup, systems, events, k - 1);
      NextBringsNoGreeting(setup, systems[k - 1], events[k - 1], c);
      NextKeepsGone(setup, systems[k - 1], events[k - 1], c);
    }
  }

  lemma GreetingIsTaken(setup: Setup, systems: seq<System>, events: seq<Event>, l: nat, c: nat)
    requires IsRun(setup, systems, events) && l < |events|
    requires Takes(systems[l], events[l], SendTo(c, HelloMsg))
    ensures c < |systems[l + 1].server.all| && DueHellos(Pending(systems[l + 1].threads), c) == 0
  {
    var y, e := systems[l], events[l];
    EverySystemIsSound(setup, systems, events, l);
    GreetedOnce(setup, systems, events, l);
    NobodyIsServedEarly(setup, systems, events, l);
    StepIsPending(y.threads, e.t);
    NextBringsNoGreeting(setup, y, e, c);
    NextKeepsGone(setup, y, e, c);
  }

  lemma GreetedAtOneStep(setup: Setup, systems: seq<System>, events: seq<Event>, l: nat, k: nat, c: nat)
    requires IsRun(setup, systems, events) && l < k < |events|
    requires Takes(systems[k], events[k], SendTo(c, HelloMsg))
    ensures !Takes(systems[l], events[l], SendTo(c, HelloMsg))
  {
    StepIsPending(systems[k].threads, events[k].t);
    if Takes(systems[l], events[l], SendTo(c, HelloMsg)) {
      GreetedIsNotDueAgain(setup, systems, events, l, k, c);
    }
  }

  /** Whether anything that could send to a client is done while it waits for its greeting. */
  ghost predicate Undisturbed(systems: seq<System>, events: seq<Event>, r: nat, k: nat, c: nat)
    requires k < |systems| == |events| + 1
  {
    forall m :: r < m < k ==> !Disturbs(systems[m], events[m], c)
  }

  /**
   A client is greeted first whenever, between the step that registers it and the one that greets it,
   nothing is published, no round of samples is taken and none of its own challenges is granted.
   */
  lemma UndisturbedIsGreetedFirst(setup: Setup, systems: seq<System>, events: seq<Event>, r: nat, k: nat, j: nat,
      c: nat)
    requires IsRun(setup, systems, events) && r < k < j < |systems|
    requires Registers(systems[r], events[r], c) && Undisturbed(systems, events, r, k, c)
    requires Takes(systems[k], events[k], SendTo(c, HelloMsg)) && Joins(systems[k], events[k], c)
    ensures |At(systems[j].server, c).queued| > 0 && At(systems[j].server, c).queued[0] == HelloMsg
  {
    forall m | r < m < k
      ensures !Takes(systems[m], events[m], SendTo(c, HelloMsg))
    {
      GreetedAtOneStep(setup, systems, events, m, k, c);
    }
    forall l | r < l < k
      ensures !Joins(systems[l], events[l], c)
    {
      StillAboutToGreet(setup, systems, events, r, l, c);
      NobodyElseSends(systems[l], events[l], events[r].t, c);
    }
    GreetedFirstExactlyWhenNothingJoinsBefore(setup, systems, events, r, k, j, c);
  }
}
