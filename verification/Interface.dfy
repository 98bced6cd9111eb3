/** The interface's bookkeeping of the batches it started (internal/tui/update.go and model.go). */
module Interface {
  import opened Prelude
  import opened Names
  import opened Batches

  /** The fields of the model that batches touch. */
  datatype Ui = Ui(batches: nat, inFlight: map<Name, Action>, selected: set<Name>, refreshing: bool)

  /** One batch's command: waiting on its channel, with a message for the interface, or gone. */
  datatype Listener = Listening | Holding(report: Report) | HoldingDone | Drained

  /** A batch the interface started, and `shown`, the reports it has handled from it. */
  datatype Running = Running(batch: Batch, listener: Listener, shown: seq<Report>)

  datatype World = World(ui: Ui, running: seq<Running>)

  const QUIET: World := World(Ui(0, map[], {}, false), [])

  // ---------------------------------------------------------------- plain bookkeeping

  /** A copy of the map with one key set. */
  method WithKey(m: map<Name, Action>, k: Name, v: Action) returns (out: map<Name, Action>)
    ensures out == m[k := v]
  {
    out := map[];
    var rest := m.Keys;
    while rest != {}
      invariant rest <= m.Keys
      invariant out == map key | key in m && key !in rest :: m[key]
      decreases |rest|
    {
      var key :| key in rest;
      rest := rest - {key};
      out := out[key := m[key]];
    }
    assert out == m;
    out := out[k := v];
  }

  /** A copy of the map without one key. */
  method WithoutKey(m: map<Name, Action>, k: Name) returns (out: map<Name, Action>)
    ensures out == m - {k}
  {
    out := map[];
    var rest := m.Keys;
    while rest != {}
      invariant rest <= m.Keys
      invariant out == map key | key in m && key !in rest && key != k :: m[key]
      decreases |rest|
    {
      var key :| key in rest;
      rest := rest - {key};
      if key != k {
        out := out[key := m[key]];
      }
    }
  }

  /** The steps whose tunnel is not being worked on, as far as the interface knows. */
  function IdleOf(ui: Ui, steps: seq<Step>): seq<Step> {
    if steps == [] then []
    else
      var n := |steps| - 1;
      IdleOf(ui, steps[..n]) + if steps[n].tunnel in ui.inFlight then [] else [steps[n]]
  }

  /** The steps that are left keep their order. */
  lemma {:induction false} IdleKeepsTheOrder(ui: Ui, a: seq<Step>, b: seq<Step>)
    ensures IdleOf(ui, a + b) == IdleOf(ui, a) + IdleOf(ui, b)
  {
    if b == [] {
      assert a + b == a;
    } else {
      var n := |b| - 1;
      assert (a + b)[..|a| + n] == a + b[..n];
      IdleKeepsTheOrder(ui, a, b[..n]);
    }
  }

  method Idle(ui: Ui, steps: seq<Step>) returns (out: seq<Step>)
    ensures out == IdleOf(ui, steps)
  {
    out := [];
    for i := 0 to |steps|
      invariant out == IdleOf(ui, steps[..i])
    {
      assert steps[..i + 1][..i] == steps[..i];
      if steps[i].tunnel !in ui.inFlight {
        out := out + [steps[i]];
      }
    }
    assert steps[..|steps|] == steps;
  }

  /** What a report does to the fields. */
  function OnEvent(ui: Ui, report: Report): Ui {
    if report.phase.Started? then ui.(inFlight := ui.inFlight[report.tunnel := report.action])
    else ui.(inFlight := ui.inFlight - {report.tunnel})
  }

  /** What a drained channel does: the last batch to end unchecks the rows and refreshes. */
  function OnBatchDone(ui: Ui): Ui {
    var left := Max(0, ui.batches - 1);
    if left > 0 then ui.(batches := left) else ui.(batches := 0, selected := {}, refreshing := true)
  }

  /** The fields after a report; the copy that was current before it is left as it was. */
  method HandleEvent(ui: Ui, report: Report) returns (after: Ui)
    ensures after == OnEvent(ui, report)
  {
    after := ui;
    match report.phase {
      case Started =>
        var inFlight := WithKey(after.inFlight, report.tunnel, report.action);
        after := after.(inFlight := inFlight);
      case Finished(_) =>
        var inFlight := WithoutKey(after.inFlight, report.tunnel);
        after := after.(inFlight := inFlight);
    }
  }

  /** The refresh waits for the last batch, and is not asked for twice. */
  method HandleBatchDone(ui: Ui) returns (after: Ui, refresh: bool)
    ensures after == OnBatchDone(ui)
    ensures refresh <==> ui.batches <= 1 && !ui.refreshing
  {
    after, refresh := ui.(batches := Max(0, ui.batches - 1)), false;
    if after.batches > 0 {
      return;
    }
    after := after.(selected := {});
    if after.refreshing {
      return;
    }
    after, refresh := after.(refreshing := true), true;
  }

  // ---------------------------------------------------------------- the interface with its batches

  /** What happens next: a goroutine of a batch, a command, a message for the interface, or a key. */
  datatype Event =
    | Work(r: nat, m: Move)
    | Listen(r: nat)
    | Deliver(r: nat)
    | Act(steps: seq<Step>)
    | ViewArrived
    | Check(tunnel: Name)

  predicate Enabled(w: World, e: Event) {
    match e
    case Work(r, m) => r < |w.running| && CanMove(w.running[r].batch, m)
    case Listen(r) =>
      && r < |w.running| && w.running[r].listener == Listening
      && (w.running[r].batch.taken < |w.running[r].batch.sent| || w.running[r].batch.launcher == Over)
    case Deliver(r) => r < |w.running| && (w.running[r].listener.Holding? || w.running[r].listener.HoldingDone?)
    case _ => true
  }

  function Heard(r: Running): Running
    requires r.listener == Listening
  {
    if r.batch.taken < |r.batch.sent| then
      r.(listener := Holding(r.batch.sent[r.batch.taken]), batch := Received(r.batch))
    else r.(listener := HoldingDone)
  }

  function Acted(w: World, steps: seq<Step>): World {
    var idle := IdleOf(w.ui, steps);
    if idle == [] then w
    else World(w.ui.(batches := w.ui.batches + 1), w.running + [Running(Begun(idle), Listening, [])])
  }

  function Next(w: World, e: Event): World
    requires Enabled(w, e)
  {
    match e
    case Work(r, m) => w.(running := w.running[r := w.running[r].(batch := Moved(w.running[r].batch, m))])
    case Listen(r) => w.(running := w.running[r := Heard(w.running[r])])
    case Deliver(r) =>
      var running := w.running[r];
      if running.listener.Holding? then
        var report := running.listener.report;
        World(OnEvent(w.ui, report), w.running[r := running.(listener := Listening, shown := running.shown + [report])])
      else World(OnBatchDone(w.ui), w.running[r := running.(listener := Drained)])
    case Act(steps) => Acted(w, steps)
    case ViewArrived => w.(ui := w.ui.(refreshing := false))
    case Check(tunnel) =>
      var selected := w.ui.selected;
      w.(ui := w.ui.(selected := if tunnel in selected then selected - {tunnel} else selected + {tunnel}))
  }

  // ---------------------------------------------------------------- what stays true

  function Undrained(running: seq<Running>): nat {
    if running == [] then 0
    else Undrained(running[..|running| - 1]) + if running[|running| - 1].listener == Drained then 0 else 1
  }

  lemma {:induction false} UndrainedAfter(running: seq<Running>, r: nat, next: Running)
    requires r < |running|
    ensures Undrained(running[r := next])
         == Undrained(running) - (if running[r].listener == Drained then 0 else 1)
          + if next.listener == Drained then 0 else 1
  {
    var n := |running| - 1;
    if r < n {
      UndrainedAfter(running[..n], r, next);
      assert running[r := next][..n] == running[..n][r := next];
    } else {
      assert running[r := next][..n] == running[..n];
    }
  }

  lemma {:induction false} UndrainedCounts(running: seq<Running>, r: nat)
    requires r < |running| && running[r].listener != Drained
    ensures Undrained(running) > 0
  {
    var n := |running| - 1;
    if r < n {
      UndrainedCounts(running[..n], r);
    }
  }

  function Held(listener: Listener): seq<Report> {
    if listener.Holding? then [listener.report] else []
  }

  /** What was received is what was shown and what is held; a drained batch is over and all shown. */
  ghost predicate RunningOk(r: Running) {
    && Ok(r.batch)
    && r.batch.sent[..r.batch.taken] == r.shown + Held(r.listener)
    && (r.listener == HoldingDone || r.listener == Drained ==>
      r.batch.launcher == Over && r.batch.taken == |r.batch.sent|)
  }

  /** A step whose start has been shown and whose end has not. */
  predicate Shows(r: Running, i: nat, tunnel: Name) {
    i < |r.batch.workers| && StepOf(r.batch, i).tunnel == tunnel && |SaidBy(r.shown, i)| == 1
  }

  ghost predicate ShownByOne(running: seq<Running>, tunnel: Name) {
    exists r: nat, i: nat :: r < |running| && Shows(running[r], i, tunnel)
  }

  ghost predicate InFlightOk(w: World) {
    forall tunnel :: tunnel in w.ui.inFlight ==> ShownByOne(w.running, tunnel)
  }

  lemma StillShown(before: seq<Running>, after: seq<Running>, tunnel: Name)
    requires ShownByOne(before, tunnel) && |before| <= |after|
    requires forall r: nat, i: nat :: r < |before| && Shows(before[r], i, tunnel) ==> Shows(after[r], i, tunnel)
    ensures ShownByOne(after, tunnel)
  {
    var r: nat, i: nat :| r < |before| && Shows(before[r], i, tunnel);
    assert Shows(after[r], i, tunnel);
  }

  ghost predicate Inv(w: World) {
    && (forall r :: 0 <= r < |w.running| ==> RunningOk(w.running[r]))
    && w.ui.batches == Undrained(w.running)
    && InFlightOk(w)
  }

  lemma {:induction false} EarlierSaidLess(sent: seq<Report>, n: nat, i: nat)
    requires n <= |sent|
    ensures SaidBy(sent[..n], i) <= SaidBy(sent, i)
  {
    if n < |sent| {
      EarlierSaidLess(sent[..|sent| - 1], n, i);
      assert sent[..|sent| - 1][..n] == sent[..n];
    } else {
      assert sent[..n] == sent;
    }
  }

  /** The next report to show is its worker's first exactly when it says it started. */
  lemma NextReport(r: Running)
    requires RunningOk(r) && r.listener.Holding?
    ensures var report := r.listener.report;
      && report.step < |r.batch.workers| && report.tunnel == StepOf(r.batch, report.step).tunnel
      && SaidBy(r.shown, report.step) == (if report.phase == Started then [] else [Started])
  {
    var b, report := r.batch, r.listener.report;
    var k := |r.shown|;
    assert b.sent[..b.taken][k] == report;
    assert b.sent[..k + 1] == r.shown + [report];
    SaidOnce(r.shown, report, report.step);
    EarlierSaidLess(b.sent, k + 1, report.step);
    var early, said := SaidBy(r.shown, report.step) + [report.phase], SaidBy(b.sent, report.step);
    assert |early| <= |said| <= 2;
    assert early[0] == said[0];
    assert |early| == 2 ==> early[1] == said[1];
  }

  lemma OverSaysNothing(b: Batch, m: Move)
    requires Ok(b) && b.launcher == Over && CanMove(b, m)
    ensures Moved(b, m).sent == b.sent && Moved(b, m).launcher == Over
  {
  }

  lemma MovedStaysOk(r: Running, m: Move)
    requires RunningOk(r) && CanMove(r.batch, m)
    ensures RunningOk(r.(batch := Moved(r.batch, m)))
    ensures forall i: nat, tunnel :: Shows(r, i, tunnel) ==> Shows(r.(batch := Moved(r.batch, m)), i, tunnel)
  {
    MoveKeeps(r.batch, m);
    var after := Moved(r.batch, m);
    assert after.sent[..|r.batch.sent|] == r.batch.sent;
    assert after.sent[..after.taken] == r.batch.sent[..r.batch.taken];
    if r.batch.launcher == Over {
      OverSaysNothing(r.batch, m);
    }
  }

  lemma HeardStaysOk(r: Running)
    requires RunningOk(r) && r.listener == Listening && (r.batch.taken < |r.batch.sent| || r.batch.launcher == Over)
    ensures RunningOk(Heard(r)) && Heard(r).listener != Drained
    ensures forall i: nat, tunnel :: Shows(r, i, tunnel) ==> Shows(Heard(r), i, tunnel)
  {
    var b := r.batch;
    if b.taken < |b.sent| {
      assert b.sent[..b.taken + 1] == b.sent[..b.taken] + [b.sent[b.taken]];
    }
  }

  /** One batch changes to something that still shows what it showed, and nothing else does. */
  lemma OneRunningKeeps(w: World, r: nat, next: Running)
    requires Inv(w) && r < |w.running| && RunningOk(next)
    requires next.listener == Drained <==> w.running[r].listener == Drained
    requires forall i: nat, tunnel :: Shows(w.running[r], i, tunnel) ==> Shows(next, i, tunnel)
    ensures Inv(w.(running := w.running[r := next]))
  {
    UndrainedAfter(w.running, r, next);
    var after := w.(running := w.running[r := next]);
    forall tunnel | tunnel in w.ui.inFlight
      ensures ShownByOne(after.running, tunnel)
    {
      StillShown(w.running, after.running, tunnel);
    }
  }

  function ReportShown(r: Running): Running
    requires r.listener.Holding?
  {
    r.(listener := Listening, shown := r.shown + [r.listener.report])
  }

  /** Showing a report ends at most the showing of its own step. */
  lemma ShownStaysOk(r: Running, i: nat, tunnel: Name)
    requires RunningOk(r) && r.listener.Holding?
    ensures RunningOk(ReportShown(r))
    ensures var report := r.listener.report;
      && (Shows(r, i, tunnel) && (report.phase == Started || tunnel != report.tunnel) ==>
        Shows(ReportShown(r), i, tunnel))
      && (report.phase == Started ==> Shows(ReportShown(r), report.step, report.tunnel))
  {
    var report := r.listener.report;
    NextReport(r);
    SaidOnce(r.shown, report, i);
    SaidOnce(r.shown, report, report.step);
    assert ReportShown(r).shown + [] == r.shown + [report];
  }

  lemma DeliveringKeepsFlights(w: World, r: nat)
    requires Inv(w) && r < |w.running| && w.running[r].listener.Holding?
    ensures InFlightOk(Next(w, Deliver(r)))
  {
    var report, after := w.running[r].listener.report, Next(w, Deliver(r));
    forall tunnel | tunnel in after.ui.inFlight
      ensures ShownByOne(after.running, tunnel)
    {
      if report.phase == Started && tunnel == report.tunnel {
        ShownStaysOk(w.running[r], report.step, tunnel);
        assert Shows(after.running[r], report.step, tunnel);
      } else {
        OthersStayShown(w, r, tunnel);
      }
    }
  }

  lemma OthersStayShown(w: World, r: nat, tunnel: Name)
    requires Inv(w) && r < |w.running| && w.running[r].listener.Holding? && tunnel in w.ui.inFlight
    requires w.running[r].listener.report.phase == Started || tunnel != w.running[r].listener.report.tunnel
    ensures ShownByOne(w.running[r := ReportShown(w.running[r])], tunnel)
  {
    var after := w.running[r := ReportShown(w.running[r])];
    forall q: nat, i: nat | q < |w.running| && Shows(w.running[q], i, tunnel)
      ensures Shows(after[q], i, tunnel)
    {
      ShownStaysOk(w.running[r], i, tunnel);
    }
    StillShown(w.running, after, tunnel);
  }

  lemma DeliveringKeeps(w: World, r: nat)
    requires Inv(w) && r < |w.running| && w.running[r].listener.Holding?
    ensures Inv(Next(w, Deliver(r)))
  {
    DeliveringKeepsFlights(w, r);
    ShownStaysOk(w.running[r], 0, "");
    UndrainedAfter(w.running, r, ReportShown(w.running[r]));
  }

  /** A drained batch shows nothing: every worker it launched has been shown to end. */
  lemma DrainedShowsNothing(r: Running, i: nat, tunnel: Name)
    requires RunningOk(r) && (r.listener == HoldingDone || r.listener == Drained)
    ensures !Shows(r, i, tunnel)
  {
    assert r.batch.sent[..r.batch.taken] == r.batch.sent;
    assert r.shown == r.batch.sent;
  }

  lemma DrainingKeeps(w: World, r: nat)
    requires Inv(w) && r < |w.running| && w.running[r].listener == HoldingDone
    ensures Inv(Next(w, Deliver(r)))
  {
    var drained := w.running[r].(listener := Drained);
    UndrainedCounts(w.running, r);
    UndrainedAfter(w.running, r, drained);
    var after := Next(w, Deliver(r));
    forall tunnel | tunnel in after.ui.inFlight
      ensures ShownByOne(after.running, tunnel)
    {
      StillShown(w.running, after.running, tunnel);
    }
  }

  lemma ActingKeeps(w: World, steps: seq<Step>)
    requires Inv(w)
    ensures Inv(Acted(w, steps))
  {
    var idle, after := IdleOf(w.ui, steps), Acted(w, steps);
    if idle != [] {
      BegunIsOk(idle);
      assert after.running[..|w.running|] == w.running;
      forall tunnel | tunnel in after.ui.inFlight
        ensures ShownByOne(after.running, tunnel)
      {
        StillShown(w.running, after.running, tunnel);
      }
    }
  }

  lemma NextKeeps(w: World, e: Event)
    requires Inv(w) && Enabled(w, e)
    ensures Inv(Next(w, e))
  {
    match e
    case Work(r, m) =>
      MovedStaysOk(w.running[r], m);
      OneRunningKeeps(w, r, w.running[r].(batch := Moved(w.running[r].batch, m)));
    case Listen(r) =>
      HeardStaysOk(w.running[r]);
      OneRunningKeeps(w, r, Heard(w.running[r]));
    case Deliver(r) =>
      if w.running[r].listener.Holding? {
        DeliveringKeeps(w, r);
      } else {
        DrainingKeeps(w, r);
      }
    case Act(steps) => ActingKeeps(w, steps);
    case ViewArrived =>
    case Check(_) =>
  }

  /** Every world a run passes through. */
  ghost predicate IsRun(worlds: seq<World>, events: seq<Event>) {
    && |worlds| == |events| + 1 && worlds[0] == QUIET
    && forall i :: 0 <= i < |events| ==> Enabled(worlds[i], events[i]) && worlds[i + 1] == Next(worlds[i], events[i])
  }

  lemma {:induction false} EveryWorldKeeps(worlds: seq<World>, events: seq<Event>, i: nat)
    requires IsRun(worlds, events) && i < |worlds|
    ensures Inv(worlds[i])
  {
    if i > 0 {
      EveryWorldKeeps(worlds, events, i - 1);
      NextKeeps(worlds[i - 1], events[i - 1]);
    }
  }

  /**
   In every run the message that drains the last channel unchecks the rows and asks for a refresh, and no
   other message does either.
   */
  lemma TheLastBatchRefreshes(worlds: seq<World>, events: seq<Event>, i: nat)
    requires IsRun(worlds, events) && i < |events| && events[i].Deliver?
    ensures var w, v := worlds[i], worlds[i + 1];
      if w.running[events[i].r].listener == HoldingDone && Undrained(v.running) == 0
      then v.ui.selected == {} && v.ui.refreshing
      else v.ui.selected == w.ui.selected && v.ui.refreshing == w.ui.refreshing
  {
    EveryWorldKeeps(worlds, events, i);
    EveryWorldKeeps(worlds, events, i + 1);
  }

  /** A tunnel shown as being worked on is shown with what is being done to it. */
  ghost predicate FlightsNamed(w: World) {
    forall tunnel :: tunnel in w.ui.inFlight ==> DoneByOne(w.running, tunnel, w.ui.inFlight[tunnel])
  }

  predicate Does(r: Running, i: nat, tunnel: Name, action: Action) {
    Shows(r, i, tunnel) && StepOf(r.batch, i).action == action
  }

  ghost predicate DoneByOne(running: seq<Running>, tunnel: Name, action: Action) {
    exists r: nat, i: nat :: r < |running| && Does(running[r], i, tunnel, action)
  }

  lemma StillDone(before: seq<Running>, after: seq<Running>, tunnel: Name, action: Action)
    requires DoneByOne(before, tunnel, action) && |before| <= |after|
    requires forall r: nat, i: nat :: r < |before| && Does(before[r], i, tunnel, action) ==>
      Does(after[r], i, tunnel, action)
    ensures DoneByOne(after, tunnel, action)
  {
    var r: nat, i: nat :| r < |before| && Does(before[r], i, tunnel, action);
    assert Does(after[r], i, tunnel, action);
  }

  lemma DeliveringStaysNamed(w: World, r: nat)
    requires Inv(w) && FlightsNamed(w) && r < |w.running| && w.running[r].listener.Holding?
    ensures FlightsNamed(Next(w, Deliver(r)))
  {
    var report, after := w.running[r].listener.report, Next(w, Deliver(r));
    NextReport(w.running[r]);
    forall tunnel | tunnel in after.ui.inFlight
      ensures DoneByOne(after.running, tunnel, after.ui.inFlight[tunnel])
    {
      if report.phase == Started && tunnel == report.tunnel {
        ShownStaysOk(w.running[r], report.step, tunnel);
        ReportsNameTheirAction(w.running[r]);
        assert Does(after.running[r], report.step, tunnel, report.action);
      } else {
        forall q: nat, i: nat | q < |w.running| && Does(w.running[q], i, tunnel, w.ui.inFlight[tunnel])
          ensures Does(after.running[q], i, tunnel, w.ui.inFlight[tunnel])
        {
          ShownStaysOk(w.running[r], i, tunnel);
        }
        StillDone(w.running, after.running, tunnel, w.ui.inFlight[tunnel]);
      }
    }
  }

  lemma ReportsNameTheirAction(r: Running)
    requires RunningOk(r) && r.listener.Holding?
    ensures r.listener.report.action == StepOf(r.batch, r.listener.report.step).action
  {
    assert r.batch.sent[..r.batch.taken][|r.shown|] == r.listener.report;
  }

  lemma OneRunningStaysNamed(w: World, r: nat, next: Running)
    requires FlightsNamed(w) && r < |w.running| && next.batch.plan == w.running[r].batch.plan
    requires forall i: nat, tunnel :: Shows(w.running[r], i, tunnel) ==> Shows(next, i, tunnel)
    ensures FlightsNamed(w.(running := w.running[r := next]))
  {
    var after := w.(running := w.running[r := next]);
    forall tunnel | tunnel in w.ui.inFlight
      ensures DoneByOne(after.running, tunnel, w.ui.inFlight[tunnel])
    {
      StillDone(w.running, after.running, tunnel, w.ui.inFlight[tunnel]);
    }
  }

  lemma OthersStayNamed(w: World, e: Event)
    requires Inv(w) && FlightsNamed(w) && Enabled(w, e)
    requires e.Deliver? ==> w.running[e.r].listener == HoldingDone
    ensures FlightsNamed(Next(w, e))
  {
    match e
    case Work(r, m) =>
      MovedStaysOk(w.running[r], m);
      MovedKeepsPlan(w.running[r].batch, m);
      OneRunningStaysNamed(w, r, w.running[r].(batch := Moved(w.running[r].batch, m)));
    case Listen(r) =>
      HeardStaysOk(w.running[r]);
      OneRunningStaysNamed(w, r, Heard(w.running[r]));
    case Deliver(r) => OneRunningStaysNamed(w, r, w.running[r].(listener := Drained));
    case Act(steps) => ActingStaysNamed(w, steps);
    case _ =>
  }

  lemma ActingStaysNamed(w: World, steps: seq<Step>)
    requires FlightsNamed(w)
    ensures FlightsNamed(Acted(w, steps))
  {
    var after := Acted(w, steps);
    forall tunnel | tunnel in w.ui.inFlight
      ensures DoneByOne(after.running, tunnel, w.ui.inFlight[tunnel])
    {
      StillDone(w.running, after.running, tunnel, w.ui.inFlight[tunnel]);
    }
  }

  /** In every run a tunnel shown as being worked on is shown with the action of a step shown to have started. */
  lemma {:induction false} FlightsNameTheirAction(worlds: seq<World>, events: seq<Event>, i: nat)
    requires IsRun(worlds, events) && i < |worlds|
    ensures FlightsNamed(worlds[i])
  {
    if i > 0 {
      FlightsNameTheirAction(worlds, events, i - 1);
      EveryWorldKeeps(worlds, events, i - 1);
      var w, e := worlds[i - 1], events[i - 1];
      if e.Deliver? && w.running[e.r].listener.Holding? {
        DeliveringStaysNamed(w, e.r);
      } else {
        OthersStayNamed(w, e);
      }
    }
  }

  /**
   In every run, the interface counts exactly the batches whose channel it has not drained, and a tunnel
   it shows as being worked on is one whose step it has been told started and not told ended; so when it
   counts no batch, nothing is shown as being worked on.
   */
  lemma CountsAgree(worlds: seq<World>, events: seq<Event>, i: nat)
    requires IsRun(worlds, events) && i < |worlds|
    ensures worlds[i].ui.batches == Undrained(worlds[i].running)
    ensures forall tunnel :: tunnel in worlds[i].ui.inFlight ==>
      exists r: nat, k: nat ::
        r < |worlds[i].running| && worlds[i].running[r].listener != Drained && Shows(worlds[i].running[r], k, tunnel)
    ensures worlds[i].ui.batches == 0 ==> worlds[i].ui.inFlight == map[]
  {
    var w := worlds[i];
    EveryWorldKeeps(worlds, events, i);
    forall tunnel | tunnel in w.ui.inFlight
      ensures w.ui.batches > 0
      ensures exists r: nat, k: nat ::
        r < |w.running| && w.running[r].listener != Drained && Shows(w.running[r], k, tunnel)
    {
      var r: nat, k: nat :| r < |w.running| && Shows(w.running[r], k, tunnel);
      if w.running[r].listener == Drained {
        DrainedShowsNothing(w.running[r], k, tunnel);
      }
      UndrainedCounts(w.running, r);
    }
    if w.ui.batches == 0 {
      assert w.ui.inFlight.Keys == {};
    }
  }
}
