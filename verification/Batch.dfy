/**
 A batch of wg-quick runs (internal/app/batch.go): one goroutine launches a worker a step, each worker
 reports twice on a buffered channel, and the channel closes when the last has reported.
 */
module Batches {
  import opened Prelude
  import opened Names

  datatype Action = Up | Down

  datatype Step = Step(tunnel: Name, action: Action)

  datatype Phase = Started | Finished(ok: bool)

  /** What a worker reports; `step` says which worker, which the channel itself does not carry. */
  datatype Report = Report(step: nat, phase: Phase, tunnel: Name, action: Action)

  /** A worker: about to say it started, running wg-quick, about to say how it went, gone. */
  datatype Worker = Fresh | Working | Reporting(ok: bool) | Done

  /** The launching goroutine: in its loop, waiting for the workers, or gone, the channel closed. */
  datatype Launcher = Launching | Waiting | Over

  /** `sent` is everything ever sent on the channel and `taken` how much of it has been received. */
  datatype Batch = Batch(plan: seq<Step>, launcher: Launcher, cancelled: bool, workers: seq<Worker>, sent: seq<Report>,
      taken: nat)

  function Begun(plan: seq<Step>): Batch {
    Batch(plan, Launching, false, [], [], 0)
  }

  /** What the goroutines of a batch can do, and the cancellation of its context. */
  datatype Move =
    | Cancel
    | Launch
    | GiveUp
    | LoopEnds
    | SayStarted(i: nat)
    | Ends(i: nat, ok: bool)
    | SayFinished(i: nat)
    | Close

  /** Whether a send would go through at once. */
  predicate HasRoom(b: Batch) {
    |b.sent| - b.taken < 2 * |b.plan|
  }

  predicate At(b: Batch, i: nat, worker: Worker) {
    i < |b.workers| && b.workers[i] == worker
  }

  predicate AllDone(b: Batch) {
    forall i :: 0 <= i < |b.workers| ==> b.workers[i] == Done
  }

  predicate CanMove(b: Batch, m: Move) {
    match m
    case Cancel => true
    case Launch => b.launcher == Launching && |b.workers| < |b.plan|
    case GiveUp => b.launcher == Launching && b.cancelled && 0 < |b.workers| < |b.plan|
    case LoopEnds => b.launcher == Launching && |b.workers| == |b.plan|
    case SayStarted(i) => At(b, i, Fresh) && HasRoom(b)
    case Ends(i, _) => At(b, i, Working)
    case SayFinished(i) => i < |b.workers| && b.workers[i].Reporting? && HasRoom(b)
    case Close => b.launcher == Waiting && AllDone(b)
  }

  /** The step a worker was launched for; there is always one. */
  function StepOf(b: Batch, i: nat): Step {
    if i < |b.plan| then b.plan[i] else Step("", Up)
  }

  function Reported(b: Batch, i: nat, phase: Phase, next: Worker): Batch
    requires i < |b.workers|
  {
    var step := StepOf(b, i);
    b.(workers := b.workers[i := next], sent := b.sent + [Report(i, phase, step.tunnel, step.action)])
  }

  function Moved(b: Batch, m: Move): Batch
    requires CanMove(b, m)
  {
    match m
    case Cancel => b.(cancelled := true)
    case Launch => b.(workers := b.workers + [Fresh])
    case GiveUp => b.(launcher := Waiting)
    case LoopEnds => b.(launcher := Waiting)
    case SayStarted(i) => Reported(b, i, Started, Working)
    case Ends(i, ok) => b.(workers := b.workers[i := Reporting(ok)])
    case SayFinished(i) => Reported(b, i, Finished(b.workers[i].ok), Done)
    case Close => b.(launcher := Over)
  }

  lemma MovedKeepsPlan(b: Batch, m: Move)
    requires CanMove(b, m)
    ensures Moved(b, m).plan == b.plan
  {
  }

  // ---------------------------------------------------------------- what has been said

  /** What worker `i` said, in order. */
  function SaidBy(sent: seq<Report>, i: nat): seq<Phase> {
    if sent == [] then []
    else
      var before := SaidBy(sent[..|sent| - 1], i);
      if sent[|sent| - 1].step == i then before + [sent[|sent| - 1].phase] else before
  }

  lemma SaidOnce(sent: seq<Report>, report: Report, i: nat)
    ensures SaidBy(sent + [report], i) == if report.step == i then SaidBy(sent, i) + [report.phase] else SaidBy(sent, i)
  {
    assert (sent + [report])[..|sent|] == sent;
  }

  /** Whether what a worker said is what it should have said by now. */
  predicate SaysSo(worker: Worker, said: seq<Phase>) {
    match worker
    case Fresh => said == []
    case Working => said == [Started]
    case Reporting(_) => said == [Started]
    case Done => |said| == 2 && said[0] == Started && said[1].Finished?
  }

  function Spoken(worker: Worker): nat {
    match worker
    case Fresh => 0
    case Done => 2
    case _ => 1
  }

  function SpokenBy(workers: seq<Worker>): nat {
    if workers == [] then 0 else SpokenBy(workers[..|workers| - 1]) + Spoken(workers[|workers| - 1])
  }

  lemma {:induction false} SpokenAfter(workers: seq<Worker>, i: nat, next: Worker)
    requires i < |workers|
    ensures SpokenBy(workers[i := next]) == SpokenBy(workers) - Spoken(workers[i]) + Spoken(next)
  {
    var n := |workers| - 1;
    if i < n {
      SpokenAfter(workers[..n], i, next);
      assert workers[i := next][..n] == workers[..n][i := next];
    } else {
      assert workers[i := next][..n] == workers[..n];
    }
  }

  /** A worker with something left to say leaves room for it, whatever the others said. */
  lemma {:induction false} SpokenAtMost(workers: seq<Worker>, i: nat)
    ensures SpokenBy(workers) <= 2 * |workers|
    ensures i < |workers| && workers[i] != Done ==> SpokenBy(workers) < 2 * |workers|
  {
    if workers != [] {
      var n := |workers| - 1;
      SpokenAtMost(workers[..n], i);
    }
  }

  // ---------------------------------------------------------------- the invariant

  /** Every report names its worker's step. */
  predicate Named(b: Batch) {
    forall k :: 0 <= k < |b.sent| ==>
      var report := b.sent[k];
      report.step < |b.workers| && report.tunnel == StepOf(b, report.step).tunnel
        && report.action == StepOf(b, report.step).action
  }

  ghost predicate Ok(b: Batch) {
    && |b.workers| <= |b.plan| && b.taken <= |b.sent|
    && (b.launcher != Launching && !b.cancelled ==> |b.workers| == |b.plan|)
    && (b.launcher != Launching && b.plan != [] ==> b.workers != [])
    && (b.launcher == Over ==> AllDone(b))
    && |b.sent| == SpokenBy(b.workers)
    && Named(b)
    && (forall i: nat :: i < |b.workers| ==> SaysSo(b.workers[i], SaidBy(b.sent, i)))
    && (forall i: nat :: i >= |b.workers| ==> SaidBy(b.sent, i) == [])
  }

  lemma BegunIsOk(plan: seq<Step>)
    ensures Ok(Begun(plan))
  {
  }

  lemma ReportIsNamed(b: Batch, i: nat, phase: Phase, next: Worker)
    requires Named(b) && i < |b.workers|
    ensures Named(Reported(b, i, phase, next))
  {
  }

  lemma ReportKeeps(b: Batch, i: nat, phase: Phase, next: Worker)
    requires Ok(b) && i < |b.workers| && b.launcher != Over
    requires Spoken(next) == Spoken(b.workers[i]) + 1
    requires SaysSo(next, SaidBy(b.sent, i) + [phase])
    ensures Ok(Reported(b, i, phase, next))
  {
    var after := Reported(b, i, phase, next);
    SpokenAfter(b.workers, i, next);
    ReportIsNamed(b, i, phase, next);
    forall j: nat
      ensures SaidBy(after.sent, j) == if j == i then SaidBy(b.sent, i) + [phase] else SaidBy(b.sent, j)
    {
      SaidOnce(b.sent, after.sent[|b.sent|], j);
    }
  }

  lemma MoveKeeps(b: Batch, m: Move)
    requires Ok(b) && CanMove(b, m)
    ensures Ok(Moved(b, m))
  {
    match m
    case Launch => assert (b.workers + [Fresh])[..|b.workers|] == b.workers;
    case SayStarted(i) => ReportKeeps(b, i, Started, Working);
    case SayFinished(i) => ReportKeeps(b, i, Finished(b.workers[i].ok), Done);
    case Ends(i, ok) => SpokenAfter(b.workers, i, Reporting(ok));
    case _ =>
  }

  /** Receiving is the reader's business alone. */
  function Received(b: Batch): Batch {
    b.(taken := b.taken + 1)
  }

  // ---------------------------------------------------------------- every schedule

  /** Every batch some schedule passes through; a reader receives whenever it likes, or never. */
  ghost predicate IsRun(plan: seq<Step>, batches: seq<Batch>, moves: seq<Option<Move>>) {
    && |batches| == |moves| + 1 && batches[0] == Begun(plan)
    && forall i :: 0 <= i < |moves| ==> Follows(batches[i], moves[i], batches[i + 1])
  }

  ghost predicate Follows(b: Batch, m: Option<Move>, next: Batch) {
    match m
    case Some(move) => CanMove(b, move) && next == Moved(b, move)
    case None => b.taken < |b.sent| && next == Received(b)
  }

  lemma {:induction false} EveryBatchIsOk(plan: seq<Step>, batches: seq<Batch>, moves: seq<Option<Move>>, i: nat)
    requires IsRun(plan, batches, moves) && i < |batches|
    ensures Ok(batches[i]) && batches[i].plan == plan
  {
    if i == 0 {
      BegunIsOk(plan);
    } else {
      EveryBatchIsOk(plan, batches, moves, i - 1);
      assert Follows(batches[i - 1], moves[i - 1], batches[i]);
      if moves[i - 1].Some? {
        MoveKeeps(batches[i - 1], moves[i - 1].value);
      }
    }
  }

  /** No send ever blocks, whether or not anybody reads: the channel has room for all there is to say. */
  lemma NoSendBlocks(plan: seq<Step>, batches: seq<Batch>, moves: seq<Option<Move>>, i: nat, w: nat)
    requires IsRun(plan, batches, moves) && i < |batches| && w < |batches[i].workers|
    requires batches[i].workers[w] == Fresh || batches[i].workers[w].Reporting?
    ensures HasRoom(batches[i])
  {
    EveryBatchIsOk(plan, batches, moves, i);
    SpokenAtMost(batches[i].workers, w);
  }

  /**
   When the channel closes, a prefix of the plan was launched, all of it unless the context was
   cancelled; each launched step said that it started and then how it finished, each other said
   nothing, and nothing else was ever sent.
   */
  lemma ClosedMeansReported(plan: seq<Step>, batches: seq<Batch>, moves: seq<Option<Move>>, i: nat, w: nat)
    requires IsRun(plan, batches, moves) && i < |batches| && batches[i].launcher == Over
    ensures var b := batches[i];
      && |b.workers| <= |plan| && (!b.cancelled ==> |b.workers| == |plan|)
      && (plan != [] ==> b.workers != [])
      && |b.sent| == 2 * |b.workers|
      && (if w < |b.workers| then SaysSo(Done, SaidBy(b.sent, w)) else SaidBy(b.sent, w) == [])
  {
    EveryBatchIsOk(plan, batches, moves, i);
    DoneSpeakTwice(batches[i].workers);
  }

  // ---------------------------------------------------------------- reports are true

  /** How the runs of worker `w` ended in the first moves of a schedule. */
  function EndingsOf(moves: seq<Option<Move>>, i: nat, w: nat): seq<bool>
    requires i <= |moves|
  {
    if i == 0 then []
    else
      var before := EndingsOf(moves, i - 1, w);
      match moves[i - 1]
      case Some(Ends(v, ok)) => if v == w then before + [ok] else before
      case _ => before
  }

  /** What a worker has come to agrees with how its run ended, if it has, and with what it said of it. */
  predicate Truthful(worker: Option<Worker>, said: seq<Phase>, endings: seq<bool>) {
    match worker
    case Some(Reporting(ok)) => endings == [ok]
    case Some(Done) => |said| == 2 && said[1].Finished? && endings == [said[1].ok]
    case _ => endings == []
  }

  function WorkerOf(b: Batch, w: nat): Option<Worker> {
    if w < |b.workers| then Some(b.workers[w]) else None
  }

  lemma MoveStaysTruthful(b: Batch, m: Move, w: nat, endings: seq<bool>)
    requires Ok(b) && CanMove(b, m) && Truthful(WorkerOf(b, w), SaidBy(b.sent, w), endings)
    ensures Truthful(WorkerOf(Moved(b, m), w), SaidBy(Moved(b, m).sent, w),
      endings + if m.Ends? && m.i == w then [m.ok] else [])
  {
    var after := Moved(b, m);
    if m.SayStarted? || m.SayFinished? {
      SaidOnce(b.sent, after.sent[|b.sent|], w);
    }
  }

  /**
   In every schedule a worker's step runs once at most, and what the worker says of it is how that run
   ended.
   */
  lemma ReportsAreTrue(plan: seq<Step>, batches: seq<Batch>, moves: seq<Option<Move>>, i: nat, w: nat)
    requires IsRun(plan, batches, moves) && i < |batches|
    ensures |EndingsOf(moves, i, w)| <= 1
    ensures forall ok :: Finished(ok) in SaidBy(batches[i].sent, w) ==> EndingsOf(moves, i, w) == [ok]
  {
    WorkersStayTruthful(plan, batches, moves, i, w);
    EveryBatchIsOk(plan, batches, moves, i);
    SaidInTurn(batches[i], w);
  }

  lemma SaidInTurn(b: Batch, w: nat)
    requires Ok(b)
    ensures forall ok :: Finished(ok) in SaidBy(b.sent, w) ==>
      w < |b.workers| && b.workers[w] == Done && SaidBy(b.sent, w)[1] == Finished(ok)
  {
    assert w < |b.workers| ==> SaysSo(b.workers[w], SaidBy(b.sent, w));
  }

  lemma {:induction false} WorkersStayTruthful(plan: seq<Step>, batches: seq<Batch>, moves: seq<Option<Move>>, i: nat,
      w: nat)
    requires IsRun(plan, batches, moves) && i < |batches|
    ensures Truthful(WorkerOf(batches[i], w), SaidBy(batches[i].sent, w), EndingsOf(moves, i, w))
  {
    if i > 0 {
      WorkersStayTruthful(plan, batches, moves, i - 1, w);
      EveryBatchIsOk(plan, batches, moves, i - 1);
      assert Follows(batches[i - 1], moves[i - 1], batches[i]);
      if moves[i - 1].Some? {
        MoveStaysTruthful(batches[i - 1], moves[i - 1].value, w, EndingsOf(moves, i - 1, w));
      }
    }
  }

  lemma {:induction false} DoneSpeakTwice(workers: seq<Worker>)
    requires forall i :: 0 <= i < |workers| ==> workers[i] == Done
    ensures SpokenBy(workers) == 2 * |workers|
  {
    if workers != [] {
      DoneSpeakTwice(workers[..|workers| - 1]);
    }
  }

  // ---------------------------------------------------------------- a batch always ends

  function Left(worker: Worker): nat {
    match worker
    case Fresh => 3
    case Working => 2
    case Reporting(_) => 1
    case Done => 0
  }

  function LeftOf(workers: seq<Worker>): nat {
    if workers == [] then 0 else LeftOf(workers[..|workers| - 1]) + Left(workers[|workers| - 1])
  }

  lemma {:induction false} LeftAfter(workers: seq<Worker>, i: nat, next: Worker)
    requires i < |workers|
    ensures LeftOf(workers[i := next]) == LeftOf(workers) - Left(workers[i]) + Left(next)
  {
    var n := |workers| - 1;
    if i < n {
      LeftAfter(workers[..n], i, next);
      assert workers[i := next][..n] == workers[..n][i := next];
    } else {
      assert workers[i := next][..n] == workers[..n];
    }
  }

  /** How many moves a batch has left at most. */
  function Remaining(b: Batch): int {
    LeftOf(b.workers) + match b.launcher
      case Launching => 4 * (|b.plan| - |b.workers|) + 2
      case Waiting => 1
      case Over => 0
  }

  /** Every move but a cancellation brings a batch nearer its end. */
  lemma MovesCountDown(b: Batch, m: Move)
    requires Ok(b) && CanMove(b, m)
    ensures 0 <= Remaining(Moved(b, m)) <= Remaining(b)
    ensures m != Cancel ==> Remaining(Moved(b, m)) < Remaining(b)
  {
    match m
    case Launch => assert (b.workers + [Fresh])[..|b.workers|] == b.workers;
    case SayStarted(i) => LeftAfter(b.workers, i, Working);
    case SayFinished(i) => LeftAfter(b.workers, i, Done);
    case Ends(i, ok) => LeftAfter(b.workers, i, Reporting(ok));
    case _ =>
  }

  /** Until its channel is closed a batch can always move, with nobody reading. */
  lemma NeverStuck(b: Batch) returns (m: Move)
    requires Ok(b) && b.launcher != Over
    ensures m != Cancel && CanMove(b, m)
  {
    if b.launcher == Launching {
      m := if |b.workers| < |b.plan| then Launch else LoopEnds;
    } else if AllDone(b) {
      m := Close;
    } else {
      var i: nat :| i < |b.workers| && b.workers[i] != Done;
      SpokenAtMost(b.workers, i);
      m := match b.workers[i]
        case Fresh => SayStarted(i)
        case Working => Ends(i, true)
        case Reporting(_) => SayFinished(i)
        case Done => Close;
    }
  }
}
