/**
 The publisher's fields and the critical sections of its mutex, changed in place. Each method is what
 runs between one Lock and its Unlock, and leaves exactly the fields its atomic step leaves.
 */
module FeedServers {
  import opened Prelude
  import opened Names
  import opened Feed

  /** The readings of a round are split among the clients that watch each tunnel. */
  ghost predicate Groups(watchers: map<Name, set<nat>>, s: Server, done: set<nat>) {
    && (forall name :: name in watchers <==> exists c :: c in done && name in At(s, c).watch)
    && (forall name :: name in watchers ==> watchers[name] == (set c | c in done && name in At(s, c).watch))
  }

  /** Client `c` joins the watchers of each of the names. */
  function Joined(watchers: map<Name, set<nat>>, names: set<Name>, c: nat): map<Name, set<nat>> {
    map name | name in watchers.Keys + names ::
      (if name in watchers then watchers[name] else {}) + if name in names then {c} else {}
  }

  lemma OneMoreWatcher(watchers: map<Name, set<nat>>, s: Server, done: set<nat>, c: nat, names: set<Name>)
    requires Groups(watchers, s, done) && c !in done && names == At(s, c).watch
    ensures Groups(Joined(watchers, names, c), s, done + {c})
  {
    var after := Joined(watchers, names, c);
    forall name
      ensures name in after <==> exists d :: d in done + {c} && name in At(s, d).watch
      ensures name in after ==> after[name] == (set d | d in done + {c} && name in At(s, d).watch)
    {
      var before := set d | d in done && name in At(s, d).watch;
      var now := set d | d in done + {c} && name in At(s, d).watch;
      assert now == before + if name in names then {c} else {};
      if name !in watchers {
        assert before == {};
      }
    }
  }

  lemma AddedElement(order: seq<nat>, c: nat)
    ensures Elements(order + [c]) == Elements(order) + {c}
  {
  }

  /** There is always a client more. */
  lemma {:induction false} SomebodyElse(clients: set<nat>) returns (c: nat)
    ensures c !in clients && |clients + {c}| == |clients| + 1
    ensures forall d :: d in clients ==> d < c
  {
    if clients == {} {
      c := 0;
    } else {
      var d :| d in clients;
      var rest := SomebodyElse(clients - {d});
      c := Max(d + 1, rest);
    }
  }

  class FeedServer {
    var cancelled: bool
    var closing: bool
    var unbound: bool
    var all: seq<Client>
    var clients: set<nat>
    var view: Option<View>
    var sampling: Option<nat>
    var loops: nat
    var stopped: set<nat>
    var requests: seq<Request>
    var lastRefresh: Time
    var lastPing: Time
    var refreshes: seq<Time>
    var pings: seq<Time>
    var panicked: bool

    constructor ()
      ensures Fields() == NEW_SERVER
    {
      cancelled, closing, unbound, all, clients, view := false, false, false, [], {}, None;
      sampling, loops, stopped, requests, lastRefresh, lastPing := None, 0, {}, [], 0, 0;
      refreshes, pings, panicked := [], [], false;
    }

    function Fields(): Server
      reads this
    {
      Server(cancelled, closing, unbound, all, clients, view, sampling, loops, stopped, requests,
             lastRefresh, lastPing, refreshes, pings, panicked)
    }

    /** The clients of the moment, in the order the map happens to yield them. */
    method Snapshot() returns (order: seq<nat>)
      ensures Enumerates(order, clients)
    {
      order := [];
      var rest := clients;
      while rest != {}
        invariant rest <= clients
        invariant Enumerates(order, clients - rest)
        decreases |rest|
      {
        var c :| c in rest;
        assert c !in Elements(order);
        AddedElement(order, c);
        assert clients - (rest - {c}) == (clients - rest) + {c};
        order, rest := order + [c], rest - {c};
      }
      assert clients - rest == clients;
    }

    /** Whether one more client would be one too many, which is when a connection is turned away. */
    method Full() returns (full: bool)
      ensures full <==> exists c: nat :: |clients + {c}| > MAX_CLIENTS
      ensures forall setup: Setup, o: Oracle ::
        EffectOf(setup, Fields(), CheckFull, o).next == [if full then Accept else Register]
    {
      full := |clients| >= MAX_CLIENTS;
      assert full ==> exists c: nat :: |clients + {c}| > MAX_CLIENTS by {
        var c := SomebodyElse(clients);
      }
      forall c: nat
        ensures |clients + {c}| <= |clients| + 1
      {
        if c in clients {
          assert clients + {c} == clients;
        }
      }
    }

    /** Remembers a connection, unless the server is on its way out. */
    method Join() returns (joined: Option<nat>, greeting: seq<Task>)
      modifies this
      ensures Fields() == Registered(old(Fields())).server
      ensures joined == if old(closing || unbound) then None else Some(old(|all|))
      ensures greeting + [Accept] == Registered(old(Fields())).next
    {
      joined, greeting := None, [];
      if !closing && !unbound {
        var c := |all|;
        all, clients, joined := all + [NEW_CLIENT], clients + {c}, Some(c);
        greeting := [SendTo(c, HelloMsg)];
        if view.Some? {
          greeting := greeting + [SendTo(c, StateMsg(view.value))];
        }
      }
    }

    /** Remembers a view, and says whom to send it to. */
    method Remember(v: View) returns (order: seq<nat>)
      modifies this
      ensures Fields() == old(Fields()).(view := Some(v))
      ensures Enumerates(order, clients)
    {
      view := Some(v);
      order := Snapshot();
    }

    /** Queues a message if there is room; a full queue is for the caller to drop. */
    method Send(c: nat, message: Message) returns (overflowed: bool)
      requires c in clients ==> c < |all| && !all[c].closed
      modifies this
      ensures Fields() == Sent(old(Fields()), c, message).server
      ensures overflowed <==> Drop(c) in Sent(old(Fields()), c, message).next
    {
      overflowed := false;
      if c in clients {
        var client := all[c];
        if |client.queue| < SEND_QUEUE {
          all := all[c := client.(queue := client.queue + [message], queued := client.queued + [message])];
        } else {
          overflowed := true;
        }
      }
    }

    /** Forgets a client; whoever gets true closes its queue. */
    method Forget(c: nat) returns (live: bool)
      modifies this
      ensures Fields() == Dropped(old(Fields()), c).server
      ensures live <==> Dropped(old(Fields()), c).next != []
    {
      live := c in clients;
      clients := clients - {c};
      assert !live ==> clients == old(clients);
    }

    /** Takes a name on trust only while no view is known. */
    method Watch(c: nat, tunnel: Name) returns (changed: bool)
      modifies this
      ensures Fields() == WatchAdded(old(Fields()), c, tunnel).server
      ensures changed <==> Retick in WatchAdded(old(Fields()), c, tunnel).next
    {
      changed := false;
      if tunnel == "" {
        return;
      }
      if view.Some? && tunnel !in view.value.names {
        return;
      }
      if c < |all| {
        if |all[c].watch| >= MAX_WATCH {
          return;
        }
        all := all[c := all[c].(watch := all[c].watch + {tunnel})];
      }
      changed := true;
    }

    method Unwatch(setup: Setup, c: nat, tunnel: Name)
      modifies this
      ensures Fields() == LineHandled(setup, old(Fields()), c, UnwatchMsg(tunnel)).server
    {
      if c < |all| {
        all := all[c := all[c].(watch := all[c].watch - {tunnel})];
      }
    }

    /** Whether this client was last signed something long enough ago, which from now on counts. */
    method AllowChallenge(setup: Setup, c: nat, nonce: string, now: Time) returns (allowed: bool)
      modifies this
      ensures Fields() == ChallengeAllowed(setup, old(Fields()), c, nonce, now).server
      ensures allowed <==> !TooSoon(old(At(Fields(), c)).lastChallenge, now, ChallengeFloor(setup))
    {
      allowed := true;
      if c < |all| {
        var last := all[c].lastChallenge;
        if last != 0 && now - last < ChallengeFloor(setup) {
          return false;
        }
        all := all[c := all[c].(lastChallenge := now, signed := all[c].signed + [now])];
      }
    }

    /** The floor is per verb, and so is the stamp it moves. */
    method Ask(request: Request, now: Time) returns (passed: bool)
      modifies this
      ensures Fields() == Asked(old(Fields()), request, now).server
      ensures passed <==> Deliver(request) in Asked(old(Fields()), request, now).next
    {
      var last, floor := lastRefresh, REFRESH_FLOOR;
      if request.Ping? {
        last, floor := lastPing, PING_FLOOR;
      }
      passed := last == 0 || now - last >= floor;
      if passed {
        if request.Ping? {
          lastPing, pings := now, pings + [now];
        } else {
          lastRefresh, refreshes := now, refreshes + [now];
        }
      }
    }

    /** Whether anybody is watching anything. */
    method AnyWatched() returns (watched: bool)
      ensures watched <==> Watched(Fields())
    {
      watched := false;
      var rest := clients;
      while rest != {}
        invariant rest <= clients
        invariant !watched
        invariant forall c :: c in clients - rest ==> At(Fields(), c).watch == {}
        decreases |rest|
      {
        var c :| c in rest;
        if c < |all| && all[c].watch != {} {
          assert At(Fields(), c).watch != {};
          return true;
        }
        rest := rest - {c};
      }
    }

    /** Starts the loop when the first tunnel is watched and stops it when the last is released. */
    method Tick() returns (started: bool)
      modifies this
      ensures Fields() == Reticked(old(Fields())).server
      ensures started <==> Reticked(old(Fields())).started != []
    {
      var watched := AnyWatched();
      started := watched && sampling == None;
      if started {
        sampling, loops := Some(loops), loops + 1;
      } else if !watched && sampling.Some? {
        StopLoop();
      }
    }

    /** Closes the stop channel, and forgets it. */
    method StopLoop()
      modifies this
      ensures Fields() == Stopped(old(Fields()))
    {
      match sampling
      case None =>
      case Some(h) =>
        panicked := panicked || h in stopped;
        sampling, stopped := None, stopped + {h};
    }

    /** Which clients watch each name, for one round of samples. */
    method Watchers() returns (watchers: map<Name, set<nat>>)
      ensures forall name :: name in watchers <==> WatchersOf(Fields(), name) != {}
      ensures forall name :: name in watchers ==> watchers[name] == WatchersOf(Fields(), name)
    {
      watchers := map[];
      var rest := clients;
      ghost var s := Fields();
      while rest != {}
        invariant rest <= clients
        invariant Groups(watchers, s, clients - rest)
        decreases |rest|
      {
        var c :| c in rest;
        ghost var done := clients - rest;
        var names: set<Name> := if c < |all| then all[c].watch else {};
        OneMoreWatcher(watchers, s, done, c, names);
        watchers := Joined(watchers, names, c);
        rest := rest - {c};
        assert clients - rest == done + {c};
      }
      assert clients - rest == clients;
    }

    /** Marks the server as closing, and takes everybody off it. */
    method BeginShutdown() returns (order: seq<nat>)
      modifies this
      ensures Enumerates(order, old(clients))
      ensures Fields() == ShutDown(old(Fields()), order).server
    {
      closing := true;
      order := Snapshot();
      clients := {};
    }
  }
}
