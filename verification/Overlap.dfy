/** When a second batch is kept off a tunnel that another is working on (internal/tui/update.go). */
module Overlap {
  import opened Prelude
  import opened Names
  import opened Batches
  import opened Interface

  // ---------------------------------------------------------------- two runs on one tunnel

  /** A step that has still to run wg-quick to its end: not launched yet, launched, or running. */
  predicate ToRun(b: Batch, i: nat) {
    && i < |b.plan|
    && if i < |b.workers| then b.workers[i] == Fresh || b.workers[i] == Working else b.launcher == Launching
  }

  ghost predicate ToRunOn(running: seq<Running>, tunnel: Name) {
    exists r: nat, i: nat :: r < |running| && ToRun(running[r].batch, i) && running[r].batch.plan[i].tunnel == tunnel
  }

  predicate SameTunnelToRun(b: Batch, i: nat, c: Batch, j: nat) {
    ToRun(b, i) && ToRun(c, j) && b.plan[i].tunnel == c.plan[j].tunnel
  }

  /** No two steps that have still to run are on the same tunnel. */
  ghost predicate Apart(running: seq<Running>) {
    forall r: nat, i: nat, q: nat, j: nat ::
      r < |running| && q < |running| && SameTunnelToRun(running[r].batch, i, running[q].batch, j) ==> r == q && i == j
  }

  /** Whatever was asked for and still has to run is in flight. */
  ghost predicate Noted(w: World, steps: seq<Step>) {
    forall k :: 0 <= k < |steps| && ToRunOn(w.running, steps[k].tunnel) ==> steps[k].tunnel in w.ui.inFlight
  }

  ghost predicate DistinctTunnels(steps: seq<Step>) {
    forall i, j :: 0 <= i < j < |steps| ==> steps[i].tunnel != steps[j].tunnel
  }

  lemma {:induction false} IdleIsTheRest(ui: Ui, steps: seq<Step>)
    ensures forall step :: step in IdleOf(ui, steps) <==> step in steps && step.tunnel !in ui.inFlight
    ensures DistinctTunnels(steps) ==> DistinctTunnels(IdleOf(ui, steps))
  {
    if steps != [] {
      var n := |steps| - 1;
      IdleIsTheRest(ui, steps[..n]);
      assert steps == steps[..n] + [steps[n]];
      assert forall step :: step in steps[..n] ==> step.tunnel != steps[n].tunnel || !DistinctTunnels(steps);
    }
  }

  /** Starting the idle steps keeps steps apart when none of them is on a tunnel that has a step to run. */
  lemma NewStepsKeepApart(w: World, idle: seq<Step>)
    requires Apart(w.running) && DistinctTunnels(idle)
    requires forall k :: 0 <= k < |idle| ==> !ToRunOn(w.running, idle[k].tunnel)
    ensures Apart(w.running + [Running(Begun(idle), Listening, [])])
  {
  }

  lemma OldStepMeetsNew(w: World, idle: seq<Step>, k: nat)
    requires k < |idle| && ToRunOn(w.running, idle[k].tunnel)
    ensures !Apart(w.running + [Running(Begun(idle), Listening, [])])
  {
    var after := w.running + [Running(Begun(idle), Listening, [])];
    var r: nat, i: nat :|
      r < |w.running| && ToRun(w.running[r].batch, i) && w.running[r].batch.plan[i].tunnel == idle[k].tunnel;
    assert SameTunnelToRun(after[r].batch, i, after[|w.running|].batch, k);
  }

  /**
   Seen from the batches: leaving out the tunnels in flight is enough exactly when no other step asked for
   meets one to run.
   */
  lemma ApartExactlyWhenNoted(w: World, steps: seq<Step>)
    requires Apart(w.running) && DistinctTunnels(steps)
    ensures Apart(Acted(w, steps).running) <==> Noted(w, steps)
  {
    var idle := IdleOf(w.ui, steps);
    IdleIsTheRest(w.ui, steps);
    if Noted(w, steps) {
      forall k | 0 <= k < |idle|
        ensures !ToRunOn(w.running, idle[k].tunnel)
      {
        assert idle[k] in steps;
      }
      NewStepsKeepApart(w, idle);
    } else {
      var k :| 0 <= k < |steps| && ToRunOn(w.running, steps[k].tunnel) && steps[k].tunnel !in w.ui.inFlight;
      assert steps[k] in idle;
      var j: nat :| j < |idle| && idle[j] == steps[k];
      OldStepMeetsNew(w, idle, j);
    }
  }

  // ---------------------------------------------------------------- what the interface has been told

  /** A step of a batch not drained yet whose two reports have not both been shown. */
  predicate Unreported(r: Running, i: nat, tunnel: Name) {
    r.listener != Drained && i < |r.batch.plan| && r.batch.plan[i].tunnel == tunnel && |SaidBy(r.shown, i)| < 2
  }

  ghost predicate UnreportedOn(running: seq<Running>, tunnel: Name) {
    exists r: nat, i: nat :: r < |running| && Unreported(running[r], i, tunnel)
  }

  /** Of every tunnel asked for that is not in flight, every step has been shown to end. */
  ghost predicate AllReported(w: World, steps: seq<Step>) {
    forall k :: 0 <= k < |steps| && steps[k].tunnel !in w.ui.inFlight ==> !UnreportedOn(w.running, steps[k].tunnel)
  }

  /** What was shown is the beginning of what was sent. */
  lemma ShownIsSentFirst(r: Running, i: nat)
    requires RunningOk(r)
    ensures |r.shown| <= |r.batch.sent| && r.batch.sent[..|r.shown|] == r.shown
    ensures SaidBy(r.shown, i) <= SaidBy(r.batch.sent, i)
  {
    assert r.batch.sent[..r.batch.taken][..|r.shown|] == r.shown;
    EarlierSaidLess(r.batch.sent, |r.shown|, i);
  }

  /** A step that has still to run has not been reported. */
  lemma ToRunIsUnreported(r: Running, i: nat)
    requires RunningOk(r) && ToRun(r.batch, i)
    ensures Unreported(r, i, r.batch.plan[i].tunnel)
  {
    ShownIsSentFirst(r, i);
  }

  lemma ReportedIsNoted(w: World, steps: seq<Step>)
    requires Inv(w) && AllReported(w, steps)
    ensures Noted(w, steps)
  {
    forall k | 0 <= k < |steps| && ToRunOn(w.running, steps[k].tunnel)
      ensures steps[k].tunnel in w.ui.inFlight
    {
      var r: nat, i: nat :|
        r < |w.running| && ToRun(w.running[r].batch, i) && w.running[r].batch.plan[i].tunnel == steps[k].tunnel;
      ToRunIsUnreported(w.running[r], i);
    }
  }

  /** A request all of whose tunnels are in flight or reported starts nothing on a tunnel that has a step to run. */
  lemma ReportedKeepsApart(w: World, steps: seq<Step>)
    requires Inv(w) && Apart(w.running) && DistinctTunnels(steps) && AllReported(w, steps)
    ensures Apart(Acted(w, steps).running)
  {
    ReportedIsNoted(w, steps);
    ApartExactlyWhenNoted(w, steps);
  }

  /** With no batch counted there is nothing to wait for. */
  lemma QuietIsReported(w: World, steps: seq<Step>)
    requires Inv(w) && w.ui.batches == 0
    ensures AllReported(w, steps)
  {
    forall k | 0 <= k < |steps|
      ensures !UnreportedOn(w.running, steps[k].tunnel)
    {
      if UnreportedOn(w.running, steps[k].tunnel) {
        var r: nat, i: nat :| r < |w.running| && Unreported(w.running[r], i, steps[k].tunnel);
        UndrainedCounts(w.running, r);
      }
    }
  }

  /** A request made while no batch is counted never meets another. */
  lemma QuietKeepsApart(w: World, steps: seq<Step>)
    requires Inv(w) && Apart(w.running) && DistinctTunnels(steps) && w.ui.batches == 0
    ensures Apart(Acted(w, steps).running)
  {
    QuietIsReported(w, steps);
    ReportedKeepsApart(w, steps);
  }

  // ---------------------------------------------------------------- nothing less will do

  /** Two worlds the interface cannot tell apart: same fields, same plans, same reports shown, same batches drained. */
  ghost predicate SeenAlike(w: World, v: World) {
    && v.ui == w.ui && |v.running| == |w.running|
    && forall r :: 0 <= r < |w.running| ==> Alike(w.running[r], v.running[r])
  }

  predicate Alike(a: Running, b: Running) {
    b.batch.plan == a.batch.plan && b.shown == a.shown && (b.listener == Drained <==> a.listener == Drained)
  }

  ghost predicate DistinctPlans(w: World) {
    forall r :: 0 <= r < |w.running| ==> DistinctTunnels(w.running[r].batch.plan)
  }

  /** Left alone, a batch runs to its end, saying more and nothing else. */
  lemma {:induction false} RunsToItsEnd(b: Batch) returns (end: Batch)
    requires Ok(b)
    ensures Ok(end) && end.launcher == Over && end.plan == b.plan && end.taken == b.taken
    ensures b.sent <= end.sent && |b.workers| <= |end.workers|
    ensures b.launcher == Over ==> end == b
    decreases Remaining(b)
  {
    if b.launcher == Over {
      end := b;
    } else {
      var m := NeverStuck(b);
      MoveKeeps(b, m);
      MovesCountDown(b, m);
      end := RunsToItsEnd(Moved(b, m));
    }
  }

  lemma EndedAlike(r: Running) returns (ended: Running)
    requires RunningOk(r)
    ensures RunningOk(ended) && Alike(r, ended) && |r.batch.workers| <= |ended.batch.workers|
    ensures forall i: nat :: !ToRun(ended.batch, i)
  {
    var end := RunsToItsEnd(r.batch);
    ended := r.(batch := end);
    assert end.sent[..end.taken] == r.batch.sent[..r.batch.taken];
  }

  /** Where a worker can still be, having said so much. */
  function StageAfter(said: nat): Worker {
    if said == 0 then Fresh else if said == 1 then Working else Done
  }

  function StagesAfter(shown: seq<Report>, n: nat): seq<Worker> {
    seq(n, i requires 0 <= i < n => StageAfter(|SaidBy(shown, i)|))
  }

  /** A batch that has done no more than what was shown of it. */
  function Rewound(r: Running): Running {
    var b := r.batch;
    Running(Batch(b.plan, Launching, b.cancelled, StagesAfter(r.shown, |b.workers|), r.shown, |r.shown|), Listening,
      r.shown)
  }

  lemma {:induction false} StagesAddUp(shown: seq<Report>, n: nat)
    requires forall k :: 0 <= k < |shown| ==> shown[k].step < n
    requires forall i: nat :: |SaidBy(shown, i)| <= 2
    ensures SpokenBy(StagesAfter(shown, n)) == |shown|
  {
    if shown == [] {
      NoneSpoke(n);
    } else {
      var k := |shown| - 1;
      var before, last := shown[..k], shown[k];
      assert shown == before + [last];
      forall i: nat
        ensures |SaidBy(before, i)| <= |SaidBy(shown, i)|
        ensures SaidBy(shown, i) == if last.step == i then SaidBy(before, i) + [last.phase] else SaidBy(before, i)
      {
        SaidOnce(before, last, i);
      }
      StagesAddUp(before, n);
      var stages := StagesAfter(before, n);
      var next := StageAfter(|SaidBy(shown, last.step)|);
      SpokenAfter(stages, last.step, next);
      assert StagesAfter(shown, n) == stages[last.step := next];
    }
  }

  lemma {:induction false} NoneSpoke(n: nat)
    ensures SpokenBy(StagesAfter([], n)) == 0
  {
    if n > 0 {
      NoneSpoke(n - 1);
      assert StagesAfter([], n)[..n - 1] == StagesAfter([], n - 1);
    }
  }

  lemma SaysItsStage(r: Running, i: nat)
    requires RunningOk(r)
    ensures |SaidBy(r.shown, i)| <= 2
    ensures i < |r.batch.workers| ==> SaysSo(StageAfter(|SaidBy(r.shown, i)|), SaidBy(r.shown, i))
    ensures i >= |r.batch.workers| ==> SaidBy(r.shown, i) == []
  {
    ShownIsSentFirst(r, i);
  }

  lemma ShownIsNamed(r: Running)
    requires RunningOk(r)
    ensures Named(Rewound(r).batch)
    ensures forall k :: 0 <= k < |r.shown| ==> r.shown[k].step < |r.batch.workers|
  {
    ShownIsSentFirst(r, 0);
    assert forall k :: 0 <= k < |r.shown| ==> r.shown[k] == r.batch.sent[k];
  }

  lemma RewoundIsOk(r: Running)
    requires RunningOk(r)
    ensures Ok(Rewound(r).batch)
  {
    ShownIsNamed(r);
    forall i: nat
      ensures |SaidBy(r.shown, i)| <= 2
      ensures i < |r.batch.workers| ==> SaysSo(StageAfter(|SaidBy(r.shown, i)|), SaidBy(r.shown, i))
      ensures i >= |r.batch.workers| ==> SaidBy(r.shown, i) == []
    {
      SaysItsStage(r, i);
    }
    StagesAddUp(r.shown, |r.batch.workers|);
  }

  lemma RewoundAlike(r: Running)
    requires RunningOk(r) && r.listener != Drained
    ensures RunningOk(Rewound(r)) && Alike(r, Rewound(r)) && |Rewound(r).batch.workers| == |r.batch.workers|
    ensures forall i: nat :: i < |r.batch.plan| ==> (ToRun(Rewound(r).batch, i) <==> |SaidBy(r.shown, i)| < 2)
  {
    RewoundIsOk(r);
    forall i: nat
      ensures i >= |r.batch.workers| ==> SaidBy(r.shown, i) == []
    {
      SaysItsStage(r, i);
    }
    assert Rewound(r).batch.sent[..Rewound(r).batch.taken] == r.shown + [];
  }

  lemma {:induction false} UndrainedAlike(a: seq<Running>, b: seq<Running>)
    requires |a| == |b| && forall r :: 0 <= r < |a| ==> Alike(a[r], b[r])
    ensures Undrained(a) == Undrained(b)
  {
    if a != [] {
      UndrainedAlike(a[..|a| - 1], b[..|b| - 1]);
    }
  }

  lemma AlikeKeepsInv(w: World, v: World)
    requires Inv(w) && SeenAlike(w, v)
    requires forall r :: 0 <= r < |v.running| ==>
      RunningOk(v.running[r]) && |w.running[r].batch.workers| <= |v.running[r].batch.workers|
    ensures Inv(v)
  {
    UndrainedAlike(w.running, v.running);
    forall tunnel | tunnel in v.ui.inFlight
      ensures ShownByOne(v.running, tunnel)
    {
      StillShown(w.running, v.running, tunnel);
    }
  }

  lemma {:induction false} AllEnded(running: seq<Running>) returns (ended: seq<Running>)
    requires forall r :: 0 <= r < |running| ==> RunningOk(running[r])
    ensures |ended| == |running|
    ensures forall r :: 0 <= r < |ended| ==>
      RunningOk(ended[r]) && Alike(running[r], ended[r]) && |running[r].batch.workers| <= |ended[r].batch.workers|
    ensures forall r, i: nat :: 0 <= r < |ended| ==> !ToRun(ended[r].batch, i)
  {
    if running == [] {
      ended := [];
    } else {
      var n := |running| - 1;
      var rest := AllEnded(running[..n]);
      var last := EndedAlike(running[n]);
      ended := rest + [last];
    }
  }

  /** For all the interface knows, a step it has not been told the end of may still have to run, and no other. */
  lemma OneMayStillRun(w: World, r: nat, i: nat, tunnel: Name) returns (v: World)
    requires Inv(w) && DistinctPlans(w) && r < |w.running| && Unreported(w.running[r], i, tunnel)
    ensures SeenAlike(w, v) && Inv(v) && Apart(v.running) && ToRunOn(v.running, tunnel)
  {
    var ended := AllEnded(w.running);
    RewoundAlike(w.running[r]);
    var rewound := Rewound(w.running[r]);
    v := World(w.ui, ended[r := rewound]);
    AlikeKeepsInv(w, v);
    assert ToRun(v.running[r].batch, i) && v.running[r].batch.plan[i].tunnel == tunnel;
    forall q: nat, j: nat, p: nat, k: nat
      | q < |v.running| && p < |v.running| && SameTunnelToRun(v.running[q].batch, j, v.running[p].batch, k)
      ensures q == p && j == k
    {
      assert q == r && p == r;
    }
  }

  lemma UnreportedAlike(w: World, v: World, tunnel: Name)
    requires SeenAlike(w, v) && UnreportedOn(v.running, tunnel)
    ensures UnreportedOn(w.running, tunnel)
  {
    var r: nat, i: nat :| r < |v.running| && Unreported(v.running[r], i, tunnel);
    assert Alike(w.running[r], v.running[r]);
    assert Unreported(w.running[r], i, tunnel);
  }

  lemma AlikeReported(w: World, v: World, steps: seq<Step>)
    requires SeenAlike(w, v) && AllReported(w, steps)
    ensures AllReported(v, steps)
  {
    forall k | 0 <= k < |steps| && UnreportedOn(v.running, steps[k].tunnel)
      ensures UnreportedOn(w.running, steps[k].tunnel)
    {
      UnreportedAlike(w, v, steps[k].tunnel);
    }
  }

  /** Whatever the batches are really doing, a request keeps them apart. */
  ghost predicate Safe(w: World, steps: seq<Step>) {
    forall v :: SeenAlike(w, v) && Inv(v) && Apart(v.running) ==> Apart(Acted(v, steps).running)
  }

  lemma NextKeepsPlans(w: World, e: Event)
    requires DistinctPlans(w) && Enabled(w, e) && (e.Act? ==> DistinctTunnels(e.steps))
    ensures DistinctPlans(Next(w, e))
  {
    match e
    case Work(r, m) => MovedKeepsPlan(w.running[r].batch, m);
    case Act(steps) => IdleIsTheRest(w.ui, steps);
    case _ =>
  }

  /** Every request of a run so far was for distinct tunnels. */
  ghost predicate AskedDistinctly(events: seq<Event>, i: nat)
    requires i <= |events|
  {
    forall k :: 0 <= k < i && events[k].Act? ==> DistinctTunnels(events[k].steps)
  }

  lemma {:induction false} EveryPlanIsDistinct(worlds: seq<World>, events: seq<Event>, i: nat)
    requires Interface.IsRun(worlds, events) && i < |worlds| && AskedDistinctly(events, i)
    ensures DistinctPlans(worlds[i])
  {
    if i > 0 {
      EveryPlanIsDistinct(worlds, events, i - 1);
      NextKeepsPlans(worlds[i - 1], events[i - 1]);
    }
  }

  /**
   From what the interface has been told, a request for distinct tunnels is sure to keep off the tunnels
   other batches have to work on if and only if each of its tunnels is in flight or has had every step
   of every batch not drained yet shown to end.
   */
  lemma SafeIsReported(w: World, steps: seq<Step>)
    requires Inv(w) && DistinctPlans(w) && DistinctTunnels(steps)
    ensures Safe(w, steps) <==> AllReported(w, steps)
  {
    if AllReported(w, steps) {
      forall v | SeenAlike(w, v) && Inv(v) && Apart(v.running)
        ensures Apart(Acted(v, steps).running)
      {
        AlikeReported(w, v, steps);
        ReportedKeepsApart(v, steps);
      }
    } else {
      var k :| 0 <= k < |steps| && steps[k].tunnel !in w.ui.inFlight && UnreportedOn(w.running, steps[k].tunnel);
      var r: nat, i: nat :| r < |w.running| && Unreported(w.running[r], i, steps[k].tunnel);
      var v := OneMayStillRun(w, r, i, steps[k].tunnel);
      ApartExactlyWhenNoted(v, steps);
    }
  }


  /** So at every point of a run whose requests were for distinct tunnels. */
  lemma SafeExactlyWhenReported(worlds: seq<World>, events: seq<Event>, i: nat, steps: seq<Step>)
    requires Interface.IsRun(worlds, events) && i < |worlds| && AskedDistinctly(events, i) && DistinctTunnels(steps)
    ensures Safe(worlds[i], steps) <==> AllReported(worlds[i], steps)
  {
    EveryWorldKeeps(worlds, events, i);
    EveryPlanIsDistinct(worlds, events, i);
    SafeIsReported(worlds[i], steps);
  }

  // ---------------------------------------------------------------- runs that keep to it

  predicate SameUnreported(a: Running, i: nat, b: Running, j: nat) {
    i < |a.batch.plan| && Unreported(a, i, a.batch.plan[i].tunnel) && Unreported(b, j, a.batch.plan[i].tunnel)
  }

  /** No two steps on one tunnel are both still to be reported. */
  ghost predicate Clear(running: seq<Running>) {
    forall r: nat, i: nat, q: nat, j: nat ::
      r < |running| && q < |running| && SameUnreported(running[r], i, running[q], j) ==> r == q && i == j
  }

  lemma ClearIsApart(running: seq<Running>)
    requires Clear(running) && forall r :: 0 <= r < |running| ==> RunningOk(running[r])
    ensures Apart(running)
  {
    forall r: nat, i: nat, q: nat, j: nat
      | r < |running| && q < |running| && SameTunnelToRun(running[r].batch, i, running[q].batch, j)
      ensures r == q && i == j
    {
      ToRunIsUnreported(running[r], i);
      ToRunIsUnreported(running[q], j);
      assert SameUnreported(running[r], i, running[q], j);
    }
  }

  lemma OneRunningStaysClear(running: seq<Running>, r: nat, next: Running)
    requires Clear(running) && r < |running| && next.batch.plan == running[r].batch.plan
    requires forall i: nat, tunnel :: Unreported(next, i, tunnel) ==> Unreported(running[r], i, tunnel)
    ensures Clear(running[r := next])
  {
    var after := running[r := next];
    forall q: nat, i: nat, p: nat, j: nat
      | q < |after| && p < |after| && SameUnreported(after[q], i, after[p], j)
      ensures q == p && i == j
    {
      assert SameUnreported(running[q], i, running[p], j);
    }
  }

  lemma MovingReportsNothing(r: Running, m: Move, i: nat, tunnel: Name)
    requires CanMove(r.batch, m)
    ensures Unreported(r.(batch := Moved(r.batch, m)), i, tunnel) <==> Unreported(r, i, tunnel)
  {
  }

  lemma ShowingReports(r: Running, i: nat, tunnel: Name)
    requires r.listener.Holding?
    ensures Unreported(ReportShown(r), i, tunnel) ==> Unreported(r, i, tunnel)
  {
    SaidOnce(r.shown, r.listener.report, i);
  }

  lemma OthersStayClear(w: World, e: Event)
    requires Clear(w.running) && Enabled(w, e) && !e.Act?
    ensures Clear(Next(w, e).running)
  {
    match e
    case Work(r, m) =>
      var next := w.running[r].(batch := Moved(w.running[r].batch, m));
      forall i: nat, tunnel | Unreported(next, i, tunnel)
        ensures Unreported(w.running[r], i, tunnel)
      {
        MovingReportsNothing(w.running[r], m, i, tunnel);
      }
      MovedKeepsPlan(w.running[r].batch, m);
      OneRunningStaysClear(w.running, r, next);
    case Listen(r) => OneRunningStaysClear(w.running, r, Heard(w.running[r]));
    case Deliver(r) => DeliveringStaysClear(w, r);
    case _ =>
  }

  lemma DeliveringStaysClear(w: World, r: nat)
    requires Clear(w.running) && Enabled(w, Deliver(r))
    ensures Clear(Next(w, Deliver(r)).running)
  {
    if w.running[r].listener.Holding? {
      forall i: nat, tunnel | Unreported(ReportShown(w.running[r]), i, tunnel)
        ensures Unreported(w.running[r], i, tunnel)
      {
        ShowingReports(w.running[r], i, tunnel);
      }
      OneRunningStaysClear(w.running, r, ReportShown(w.running[r]));
    } else {
      OneRunningStaysClear(w.running, r, w.running[r].(listener := Drained));
    }
  }

  lemma ActingStaysClear(w: World, steps: seq<Step>)
    requires Clear(w.running) && DistinctTunnels(steps) && AllReported(w, steps)
    ensures Clear(Acted(w, steps).running)
  {
    var idle := IdleOf(w.ui, steps);
    IdleIsTheRest(w.ui, steps);
    forall k | 0 <= k < |idle|
      ensures !UnreportedOn(w.running, idle[k].tunnel)
    {
      assert idle[k] in steps;
    }
    AppendingStaysClear(w.running, idle);
  }

  lemma AppendingStaysClear(running: seq<Running>, idle: seq<Step>)
    requires Clear(running) && DistinctTunnels(idle)
    requires forall k :: 0 <= k < |idle| ==> !UnreportedOn(running, idle[k].tunnel)
    ensures Clear(running + [Running(Begun(idle), Listening, [])])
  {
    var after := running + [Running(Begun(idle), Listening, [])];
    forall q: nat, i: nat, p: nat, j: nat
      | q < |after| && p < |after| && SameUnreported(after[q], i, after[p], j)
      ensures q == p && i == j
    {
      if q < |running| && p < |running| {
        assert SameUnreported(running[q], i, running[p], j);
      }
    }
  }

  /** Every request of a run so far was for distinct tunnels, each in flight or with all its steps shown to end. */
  ghost predicate AskedWhenReported(worlds: seq<World>, events: seq<Event>, i: nat)
    requires i < |worlds| == |events| + 1
  {
    forall k :: 0 <= k < i && events[k].Act? ==>
      DistinctTunnels(events[k].steps) && AllReported(worlds[k], events[k].steps)
  }

  lemma {:induction false} EveryWorldIsClear(worlds: seq<World>, events: seq<Event>, i: nat)
    requires Interface.IsRun(worlds, events) && i < |worlds| && AskedWhenReported(worlds, events, i)
    ensures Clear(worlds[i].running)
  {
    if i > 0 {
      EveryWorldIsClear(worlds, events, i - 1);
      var w, e := worlds[i - 1], events[i - 1];
      if e.Act? {
        ActingStaysClear(w, e.steps);
      } else {
        OthersStayClear(w, e);
      }
    }
  }

  /** In such a run no tunnel ever has two steps that have still to run. */
  lemma NeverTwoOnOneTunnel(worlds: seq<World>, events: seq<Event>, i: nat)
    requires Interface.IsRun(worlds, events) && i < |worlds| && AskedWhenReported(worlds, events, i)
    ensures Apart(worlds[i].running)
  {
    EveryWorldKeeps(worlds, events, i);
    EveryWorldIsClear(worlds, events, i);
    ClearIsApart(worlds[i].running);
  }

  // ---------------------------------------------------------------- what is in flight, exactly

  /** Whatever was shown to start and not shown to end is in flight. */
  ghost predicate FlightsFull(w: World) {
    forall r: nat, i: nat, tunnel :: r < |w.running| && Shows(w.running[r], i, tunnel) ==> tunnel in w.ui.inFlight
  }

  lemma OneRunningStaysFull(w: World, r: nat, next: Running)
    requires FlightsFull(w) && r < |w.running|
    requires forall i: nat, tunnel :: Shows(next, i, tunnel) ==> Shows(w.running[r], i, tunnel)
    ensures FlightsFull(w.(running := w.running[r := next]))
  {
  }

  lemma MovingShowsNothing(r: Running, m: Move, i: nat, tunnel: Name)
    requires RunningOk(r) && CanMove(r.batch, m) && Shows(r.(batch := Moved(r.batch, m)), i, tunnel)
    ensures Shows(r, i, tunnel)
  {
    SaysItsStage(r, i);
    MovedKeepsPlan(r.batch, m);
  }

  lemma ShowsIsUnreported(r: Running, i: nat, tunnel: Name)
    requires RunningOk(r) && Shows(r, i, tunnel)
    ensures Unreported(r, i, tunnel)
  {
    if r.listener == Drained {
      DrainedShowsNothing(r, i, tunnel);
    }
  }

  /** A report takes its tunnel out of flight only when its own step was the last one shown on it. */
  lemma DeliveringStaysFull(w: World, r: nat)
    requires Inv(w) && Clear(w.running) && FlightsFull(w) && r < |w.running| && w.running[r].listener.Holding?
    ensures FlightsFull(Next(w, Deliver(r)))
  {
    var report, after := w.running[r].listener.report, Next(w, Deliver(r));
    NextReport(w.running[r]);
    forall q: nat, i: nat, tunnel | q < |after.running| && Shows(after.running[q], i, tunnel)
      ensures tunnel in after.ui.inFlight
    {
      SaidOnce(w.running[r].shown, report, i);
      if q != r || i != report.step {
        assert Shows(w.running[q], i, tunnel);
        if report.phase != Started && tunnel == report.tunnel {
          StepsOnOneTunnel(w, r, q, i);
        }
      }
    }
  }

  lemma StepsOnOneTunnel(w: World, r: nat, q: nat, i: nat)
    requires Inv(w) && Clear(w.running) && r < |w.running| && w.running[r].listener.Holding? && q < |w.running|
    requires w.running[r].listener.report.phase != Started
    requires Shows(w.running[q], i, w.running[r].listener.report.tunnel)
    ensures q == r && i == w.running[r].listener.report.step
  {
    var report := w.running[r].listener.report;
    NextReport(w.running[r]);
    ShowsIsUnreported(w.running[q], i, report.tunnel);
    assert Unreported(w.running[r], report.step, report.tunnel);
    assert SameUnreported(w.running[r], report.step, w.running[q], i);
  }

  lemma NextStaysFull(w: World, e: Event)
    requires Inv(w) && Clear(w.running) && FlightsFull(w) && Enabled(w, e)
    ensures FlightsFull(Next(w, e))
  {
    match e
    case Work(r, m) =>
      var next := w.running[r].(batch := Moved(w.running[r].batch, m));
      forall i: nat, tunnel | Shows(next, i, tunnel)
        ensures Shows(w.running[r], i, tunnel)
      {
        MovingShowsNothing(w.running[r], m, i, tunnel);
      }
      OneRunningStaysFull(w, r, next);
    case Listen(r) => OneRunningStaysFull(w, r, Heard(w.running[r]));
    case Deliver(r) =>
      if w.running[r].listener.Holding? {
        DeliveringStaysFull(w, r);
      } else {
        OneRunningStaysFull(w, r, w.running[r].(listener := Drained));
      }
    case Act(steps) => ActingStaysFull(w, steps);
    case _ =>
  }

  lemma ActingStaysFull(w: World, steps: seq<Step>)
    requires FlightsFull(w)
    ensures FlightsFull(Acted(w, steps))
  {
  }

  lemma {:induction false} EveryWorldIsFull(worlds: seq<World>, events: seq<Event>, i: nat)
    requires Interface.IsRun(worlds, events) && i < |worlds| && AskedWhenReported(worlds, events, i)
    ensures FlightsFull(worlds[i])
  {
    if i > 0 {
      EveryWorldIsFull(worlds, events, i - 1);
      EveryWorldKeeps(worlds, events, i - 1);
      EveryWorldIsClear(worlds, events, i - 1);
      NextStaysFull(worlds[i - 1], events[i - 1]);
    }
  }

  /** In such a run a tunnel is in flight exactly while a step on it has been shown to start and not to end. */
  lemma FlightsAreExact(worlds: seq<World>, events: seq<Event>, i: nat, tunnel: Name)
    requires Interface.IsRun(worlds, events) && i < |worlds| && AskedWhenReported(worlds, events, i)
    ensures tunnel in worlds[i].ui.inFlight <==> ShownByOne(worlds[i].running, tunnel)
  {
    EveryWorldKeeps(worlds, events, i);
    EveryWorldIsFull(worlds, events, i);
  }

  // ---------------------------------------------------------------- runs that do not

  /** A batch of one step, whose worker is running or about to be launched. */
  function OneStep(step: Step, working: bool): Running {
    var report := Report(0, Started, step.tunnel, step.action);
    Running(Batch([step], Launching, false, if working then [Working] else [], if working then [report] else [], 0),
      Listening, [])
  }

  lemma GoesOn(worlds: seq<World>, events: seq<Event>, e: Event, next: World) returns (more: seq<World>,
      longer: seq<Event>)
    requires Interface.IsRun(worlds, events) && Enabled(worlds[|events|], e) && Next(worlds[|events|], e) == next
    ensures Interface.IsRun(more, longer) && more[|longer|] == next
  {
    more, longer := worlds + [next], events + [e];
  }

  /** The key is pressed, the step launched and its worker said to have started, with nothing read. */
  lemma OneMoreWorks(worlds: seq<World>, events: seq<Event>, step: Step) returns (more: seq<World>, longer: seq<Event>)
    requires Interface.IsRun(worlds, events) && worlds[|events|].ui.inFlight == map[]
    ensures Interface.IsRun(more, longer)
    ensures var w := worlds[|events|];
      more[|longer|] == World(w.ui.(batches := w.ui.batches + 1), w.running + [OneStep(step, true)])
  {
    var w := worlds[|events|];
    var r, ui := |w.running|, w.ui.(batches := w.ui.batches + 1);
    var idle, busy := OneStep(step, false), OneStep(step, true);
    var launched := idle.(batch := idle.batch.(workers := [Fresh]));
    assert [step][..0] == [];
    assert IdleOf(w.ui, [step]) == [step];
    more, longer := GoesOn(worlds, events, Act([step]), World(ui, w.running + [idle]));
    assert Moved(idle.batch, Launch) == launched.batch;
    assert (w.running + [idle])[r := launched] == w.running + [launched];
    more, longer := GoesOn(more, longer, Work(r, Launch), World(ui, w.running + [launched]));
    assert [Fresh][0 := Working] == [Working];
    assert Moved(launched.batch, SayStarted(0)) == busy.batch;
    assert (w.running + [launched])[r := busy] == w.running + [busy];
    more, longer := GoesOn(more, longer, Work(r, SayStarted(0)), World(ui, w.running + [busy]));
  }

  /** Asked for twice before the first report is read, one tunnel has two workers running on it. */
  lemma TwoRunsOnOneTunnel(step: Step) returns (worlds: seq<World>, events: seq<Event>)
    ensures Interface.IsRun(worlds, events)
    ensures worlds[|events|].running == [OneStep(step, true), OneStep(step, true)]
    ensures OneStep(step, true).batch.workers == [Working] && OneStep(step, true).batch.plan == [step]
  {
    worlds, events := OneMoreWorks([QUIET], [], step);
    worlds, events := OneMoreWorks(worlds, events, step);
  }

  /** A batch of one step that ran to its end, of which the interface was told the first `shown` reports. */
  function OneDone(step: Step, shown: nat): Running
    requires shown <= 2
  {
    var sent := [Report(0, Started, step.tunnel, step.action), Report(0, Finished(true), step.tunnel, step.action)];
    Running(Batch([step], Launching, false, [Done], sent, shown), Listening, sent[..shown])
  }

  /** A batch of one step that is running, and was shown to start. */
  function OneShown(step: Step): Running {
    var sent := [Report(0, Started, step.tunnel, step.action)];
    Running(Batch([step], Launching, false, [Working], sent, 1), Listening, sent)
  }

  /** The step that is running ends and its worker says so, unread. */
  lemma Finishes(worlds: seq<World>, events: seq<Event>, step: Step) returns (more: seq<World>, longer: seq<Event>)
    requires Interface.IsRun(worlds, events) && worlds[|events|].running == [OneStep(step, true)]
    ensures Interface.IsRun(more, longer)
    ensures more[|longer|] == World(worlds[|events|].ui, [OneDone(step, 0)])
  {
    var ui, busy, done := worlds[|events|].ui, OneStep(step, true), OneDone(step, 0);
    var ending := busy.(batch := busy.batch.(workers := [Reporting(true)]));
    assert [Working][0 := Reporting(true)] == [Reporting(true)] && [Reporting(true)][0 := Done] == [Done];
    assert [busy][0 := ending] == [ending] && [ending][0 := done] == [done];
    more, longer := GoesOn(worlds, events, Work(0, Ends(0, true)), World(ui, [ending]));
    assert Moved(ending.batch, SayFinished(0)) == done.batch;
    assert done.shown == [];
    more, longer := GoesOn(more, longer, Work(0, SayFinished(0)), World(ui, [done]));
  }

  /** The interface reads the next report of one of two batches. */
  lemma ReadsOne(worlds: seq<World>, events: seq<Event>, r: nat, next: Running)
    returns (more: seq<World>, longer: seq<Event>)
    requires Interface.IsRun(worlds, events) && r < |worlds[|events|].running|
      && worlds[|events|].running[r].listener == Listening
    requires worlds[|events|].running[r].batch.taken < |worlds[|events|].running[r].batch.sent|
    requires next == ReportShown(Heard(worlds[|events|].running[r]))
    ensures Interface.IsRun(more, longer)
    ensures var w := worlds[|events|];
      more[|longer|] == World(OnEvent(w.ui, Heard(w.running[r]).listener.report), w.running[r := next])
  {
    var w := worlds[|events|];
    var heard := Heard(w.running[r]);
    more, longer := GoesOn(worlds, events, Listen(r), World(w.ui, w.running[r := heard]));
    assert w.running[r := heard][r := next] == w.running[r := next];
    more, longer := GoesOn(more, longer, Deliver(r), World(OnEvent(w.ui, heard.listener.report), w.running[r := next]));
  }

  /**
   Reports that are read late hide a running step: a batch ends unread, its tunnel is asked for again and
   shown to start, and then the end of the first batch is read and takes the tunnel out of flight. Asked
   for a third time, the tunnel has two workers to run.
   */
  lemma LateReportsHideARunningStep(step: Step) returns (worlds: seq<World>, events: seq<Event>)
    ensures Interface.IsRun(worlds, events)
    ensures worlds[|events|].running == [OneDone(step, 2), OneShown(step)] && worlds[|events|].ui.inFlight == map[]
    ensures Apart(worlds[|events|].running) && ShownByOne(worlds[|events|].running, step.tunnel)
    ensures !Apart(Acted(worlds[|events|], [step]).running) && !AllReported(worlds[|events|], [step])
  {
    worlds, events := OneMoreWorks([QUIET], [], step);
    worlds, events := Finishes(worlds, events, step);
    worlds, events := OneMoreWorks(worlds, events, step);
    assert [OneDone(step, 0)] + [OneStep(step, true)] == [OneDone(step, 0), OneStep(step, true)];
    ReadsStarted(step);
    worlds, events := ReadsOne(worlds, events, 1, OneShown(step));
    assert [OneDone(step, 0), OneStep(step, true)][1 := OneShown(step)] == [OneDone(step, 0), OneShown(step)];
    worlds, events := ReadsOne(worlds, events, 0, OneDone(step, 1));
    assert [OneDone(step, 0), OneShown(step)][0 := OneDone(step, 1)] == [OneDone(step, 1), OneShown(step)];
    worlds, events := ReadsOne(worlds, events, 0, OneDone(step, 2));
    assert [OneDone(step, 1), OneShown(step)][0 := OneDone(step, 2)] == [OneDone(step, 2), OneShown(step)];
    HiddenStep(worlds[|events|], step);
  }

  lemma ReadsStarted(step: Step)
    ensures ReportShown(Heard(OneStep(step, true))) == OneShown(step)
    ensures ReportShown(Heard(OneDone(step, 0))) == OneDone(step, 1)
    ensures ReportShown(Heard(OneDone(step, 1))) == OneDone(step, 2)
  {
    var sent := OneDone(step, 0).batch.sent;
    assert sent[..0] + [sent[0]] == sent[..1] && sent[..1] + [sent[1]] == sent[..2];
  }

  lemma HiddenStep(w: World, step: Step)
    requires w.running == [OneDone(step, 2), OneShown(step)] && w.ui.inFlight == map[]
    ensures Apart(w.running) && ShownByOne(w.running, step.tunnel)
    ensures !Apart(Acted(w, [step]).running) && !AllReported(w, [step])
  {
    SaidOnce([], OneShown(step).shown[0], 0);
    assert [] + [OneShown(step).shown[0]] == OneShown(step).shown;
    assert Shows(w.running[1], 0, step.tunnel);
    assert Unreported(w.running[1], 0, step.tunnel);
    assert ToRun(w.running[1].batch, 0);
    assert [step][0].tunnel == step.tunnel;
    ApartExactlyWhenNoted(w, [step]);
  }
}
