/** Nothing is done without a cause: for each step there can be, what alone can make it due. */
module FeedCauses {
  import opened Prelude
  import opened Names
  import opened Feed
  import opened FeedSteps
  import opened FeedSafety
  import opened FeedDelivery
  import opened FeedProgress

  // ---------------------------------------------------------------- causes

  /** Why a client is sent something: it is announced, or it is greeted, or it asked. */
  ghost predicate SendHasACause(setup: Setup, s: Server, from: Task, o: Oracle, c: nat, message: Message) {
    match from
    case Register => c == |s.all| && (message == HelloMsg || (s.view.Some? && message == StateMsg(s.view.value)))
    case AllowChallenge(d, encoded) =>
      && d == c && message.AuthMsg? && message.nonce == encoded && MayBeSigned(setup, s, c, o.now)
      && Proof.Answer(setup.lib, setup.feedKey, setup.version, setup.path, encoded) == Some(message.signature)
    case _ => Announces(s, from, o, c, message)
  }

  /** Why a line leads to a step of its own. */
  ghost predicate LineHasACause(setup: Setup, s: Server, from: Task, task: Task) {
    && from.Handle?
    && match task
       case Ask(request) => Wanted(s, from.line) == Some(request)
       case AllowChallenge(c, encoded) =>
         && from.c == c && from.line == ChallengeMsg(encoded)
         && setup.feedKey != "" && Proof.Nonce(setup.lib, encoded).Some?
       case _ => task == Retick && (from.line.WatchMsg? || from.line.UnwatchMsg?)
  }

  /** Why a step is due that was not before. */
  ghost predicate HasACause(setup: Setup, s: Server, from: Task, o: Oracle, task: Task) {
    match task
    case Accept => from == CheckFull || from == Register
    case CheckFull => from == Accept && o.go
    case Register => from == CheckFull && |s.clients| < MAX_CLIENTS
    case SendTo(c, message) => SendHasACause(setup, s, from, o, c, message)
    case Drop(c) =>
      (from == Read(c) && o.line == None) || (from.SendTo? && from.c == c && c in s.clients && !HasRoom(s, c))
    case CloseQueue(c) => (from == Drop(c) && c in s.clients) || from == SayBye(c)
    case CloseConn(c) => from == Drop(c) && c in s.clients
    case Retick => (from.Drop? && from.c in s.clients) || LineHasACause(setup, s, from, task)
    case Read(c) => (from == Read(c) && o.line.Some?) || (from == Register && c == |s.all|)
    case Handle(c, line) => from == Read(c) && o.line == Some(line)
    case AllowChallenge(_, _) => LineHasACause(setup, s, from, task)
    case Ask(_) => LineHasACause(setup, s, from, task)
    case Deliver(request) => from == Ask(request) && PastItsFloor(s, request, o.now)
    case Take(c) => (from == Write(c) && o.go) || (from == Register && c == |s.all|)
    case Write(c) => from == Take(c) && At(s, c).queue != []
    case SampleLoop(h) => (from == task && o.go) || (from == Retick && Watched(s) && s.sampling == None && h == s.loops)
    case SampleOnce => from.SampleLoop? && o.go
    case SayBye(c) => from == Shutdown && c in s.clients
    case StopSampling => from == Shutdown
    case Unbind => from == Shutdown
    case _ => false
  }

  ghost predicate AllCaused(setup: Setup, s: Server, from: Task, o: Oracle, tasks: seq<Task>) {
    forall task :: task in tasks ==> HasACause(setup, s, from, o, task)
  }

  ghost predicate BringsCaused(setup: Setup, s: Server, from: Task, o: Oracle) {
    var e := EffectOf(setup, s, from, o);
    && AllCaused(setup, s, from, o, e.next)
    && forall thread :: thread in e.started ==> AllCaused(setup, s, from, o, thread)
  }

  lemma SentToListed(order: seq<nat>, clients: set<nat>, message: Message)
    requires Enumerates(order, clients)
    ensures forall task :: task in SendsTo(order, message) ==>
      task.SendTo? && task.c in clients && task.message == message
    ensures forall task :: task in Byes(order) ==> task.SayBye? && task.c in clients
  {
    assert forall c :: c in order ==> c in Elements(order);
  }

  lemma FanOutsAreCaused(setup: Setup, s: Server, from: Task, o: Oracle)
    requires CanStep(s, from, o) && (from.Publish? || from.PublishPings? || from.Shutdown?)
    ensures BringsCaused(setup, s, from, o)
  {
    SentToListed(o.order, s.clients,
      if from.Publish? then StateMsg(from.view) else if from.PublishPings? then PingMsg(from.round) else ByeMsg);
  }

  lemma SamplesAreCaused(setup: Setup, s: Server, o: Oracle)
    requires CanStep(s, SampleOnce, o)
    ensures BringsCaused(setup, s, SampleOnce, o)
  {
    forall task | task in SendsOf(o.round)
      ensures HasACause(setup, s, SampleOnce, o, task)
    {
      RoundsSendToWatchers(o.round, task);
      var i :| 0 <= i < |o.round| && task.SendTo? && task.c in o.round[i].watchers
        && task.message == SampleMsg(o.round[i].tunnel, o.round[i].reading);
      assert task.c in Elements(o.round[i].watchers);
    }
  }

  lemma LinesAreCaused(setup: Setup, s: Server, from: Task, o: Oracle)
    requires from.Handle? || from.AllowChallenge? || from.Ask?
    ensures BringsCaused(setup, s, from, o)
  {
  }

  lemma ClientsAreCaused(setup: Setup, s: Server, from: Task, o: Oracle)
    requires OpenQueues(s)
    requires from.SendTo? || from.Drop? || from.CloseQueue? || from.CloseConn? || from.SayBye? || from.Take?
    ensures BringsCaused(setup, s, from, o)
  {
  }

  lemma StartsAreCaused(setup: Setup, s: Server, from: Task, o: Oracle)
    requires from.Register? || from.Retick?
    ensures BringsCaused(setup, s, from, o)
  {
  }

  lemma LoopsAreCaused(setup: Setup, s: Server, from: Task, o: Oracle)
    requires from.Accept? || from.CheckFull? || from.Read? || from.Write?
    ensures BringsCaused(setup, s, from, o)
  {
  }

  lemma RestIsCaused(setup: Setup, s: Server, from: Task, o: Oracle)
    requires from.SampleLoop? || from.Deliver? || from.StopSampling? || from.Unbind?
    ensures BringsCaused(setup, s, from, o)
  {
  }

  lemma StepsAreCaused(setup: Setup, s: Server, from: Task, o: Oracle)
    requires OpenQueues(s) && CanStep(s, from, o)
    ensures BringsCaused(setup, s, from, o)
  {
    if from.Publish? || from.PublishPings? || from.Shutdown? {
      FanOutsAreCaused(setup, s, from, o);
    } else if from.SampleOnce? {
      SamplesAreCaused(setup, s, o);
    } else if from.Handle? || from.AllowChallenge? || from.Ask? {
      LinesAreCaused(setup, s, from, o);
    } else if from.Register? || from.Retick? {
      StartsAreCaused(setup, s, from, o);
    } else if from.Accept? || from.CheckFull? || from.Read? || from.Write? {
      LoopsAreCaused(setup, s, from, o);
    } else if from.SampleLoop? || from.Deliver? || from.StopSampling? || from.Unbind? {
      RestIsCaused(setup, s, from, o);
    } else {
      ClientsAreCaused(setup, s, from, o);
    }
  }

  lemma {:induction false} InSomeThread(threads: seq<seq<Task>>, task: Task)
    requires task in Pending(threads)
    ensures exists thread :: thread in threads && task in thread
  {
    var n := |threads| - 1;
    if task in multiset(threads[n]) {
      assert threads[n] in threads && task in threads[n];
    } else {
      InSomeThread(threads[..n], task);
      var thread :| thread in threads[..n] && task in thread;
      assert thread in threads;
    }
  }

  /** What an event makes due, and why. */
  ghost predicate Causes(setup: Setup, y: System, e: Event, task: Task) {
    match e
    case Step(t, o) => t < |y.threads| && y.threads[t] != [] && HasACause(setup, y.server, y.threads[t][0], o, task)
    case PublishCalled(view) => task == Publish(view)
    case PublishPingsCalled(round) => task == PublishPings(round)
    case _ => false
  }

  lemma NewlyDueIsCaused(setup: Setup, y: System, e: Event, task: Task)
    requires Sound(setup, y) && Enabled(y, e) && task in Pending(Next(setup, y, e).threads)
    ensures task in Pending(y.threads) || Causes(setup, y, e, task)
  {
    match e
    case Step(t, o) =>
      var from := y.threads[t][0];
      var effect := EffectOf(setup, y.server, from, o);
      PendingAfterStep(y.threads, t, effect);
      StepsAreCaused(setup, y.server, from, o);
      if task in multiset(effect.next) {
        assert task in effect.next;
      } else if task in Pending(effect.started) {
        InSomeThread(effect.started, task);
      }
    case PublishCalled(view) => CalledIsDue(y.threads, Publish(view));
    case PublishPingsCalled(round) => CalledIsDue(y.threads, PublishPings(round));
    case _ =>
  }

  lemma CalledIsDue(threads: seq<seq<Task>>, task: Task)
    ensures Pending(threads + [[task]]) == Pending(threads) + multiset{task}
  {
    PendingAfterAppend(threads, [[task]]);
    PendingOfOne([task]);
    assert multiset([task]) == multiset{task};
  }

  /**
   In every run nothing is due without a cause: but for accepting and shutting down, which are there from
   the start, some event before made it due for the one reason there is for it.
   */
  lemma {:induction false} EverythingDueHasACause(setup: Setup, systems: seq<System>, events: seq<Event>, j: nat,
      task: Task)
    requires IsRun(setup, systems, events) && j < |systems| && task in Pending(systems[j].threads)
    ensures task == Accept || task == Shutdown || exists k: nat :: k < j && Causes(setup, systems[k], events[k], task)
  {
    if j == 0 {
      PendingOfTwo([Accept], [Shutdown]);
      assert Pending(START.threads) == multiset{Accept, Shutdown};
    } else {
      EverySystemIsSound(setup, systems, events, j - 1);
      RunGoesOn(setup, systems, events, j - 1);
      NewlyDueIsCaused(setup, systems[j - 1], events[j - 1], task);
      if task in Pending(systems[j - 1].threads) {
        EverythingDueHasACause(setup, systems, events, j - 1, task);
      }
    }
  }
}
