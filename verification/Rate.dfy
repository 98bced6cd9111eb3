/**
 Rates from cumulative counters: internal/rate/rate.go for the terminal and its twin
 RateSeries.swift for the menu bar. Instants are seconds and rates are real numbers.
 */
module Rates {
  import opened Prelude

  datatype Reading = Reading(at: real, rx: int, tx: int)

  /** One measured pair of rates, in bytes per second. */
  datatype Point = Point(down: real, up: real)

  function PerSecond(delta: int, elapsed: real): (rate: real)
    requires elapsed > 0.0
    ensures rate >= 0.0
  {
    if delta < 0 then 0.0 else delta as real / elapsed
  }

  /** What two readings in a row measure: nothing unless the clock moved forward. */
  function Measured(previous: Reading, next: Reading): seq<Point> {
    var elapsed := next.at - previous.at;
    if elapsed <= 0.0 then []
    else [Point(PerSecond(next.rx - previous.rx, elapsed), PerSecond(next.tx - previous.tx, elapsed))]
  }

  /**
   Two readings measure something exactly when the clock moved forward; then each rate, times the time
   between them, is the growth of its counter, and nothing for a counter that went back.
   */
  lemma MeasuresTheGrowth(previous: Reading, next: Reading)
    ensures Measured(previous, next) != [] <==> next.at > previous.at
    ensures next.at > previous.at ==>
      && |Measured(previous, next)| == 1
      && Measured(previous, next)[0].down * (next.at - previous.at) == Max(next.rx - previous.rx, 0) as real
      && Measured(previous, next)[0].up * (next.at - previous.at) == Max(next.tx - previous.tx, 0) as real
  {
    if next.at > previous.at {
      TimesElapsed(next.rx - previous.rx, next.at - previous.at);
      TimesElapsed(next.tx - previous.tx, next.at - previous.at);
    }
  }

  lemma TimesElapsed(delta: int, elapsed: real)
    requires elapsed > 0.0
    ensures PerSecond(delta, elapsed) * elapsed == Max(delta, 0) as real
  {
  }

  /** Every rate the first n readings measure, with no bound on how many are kept. */
  function History(readings: seq<Reading>, n: nat): seq<Point>
    requires n <= |readings|
  {
    if n < 2 then [] else History(readings, n - 1) + Measured(readings[n - 2], readings[n - 1])
  }

  /** What a series holds: its points and the reading the next one is compared with. */
  datatype Holding = Holding(points: seq<Point>, last: Option<Reading>)

  function Added(held: Holding, limit: int, r: Reading): Holding {
    match held.last
    case None => Holding(held.points, Some(r))
    case Some(previous) =>
      var measured := Measured(previous, r);
      Holding(if measured == [] then held.points else LastOf(held.points + measured, limit), Some(r))
  }

  /** A series of the given limit after the first n readings. */
  function AddedAll(limit: int, readings: seq<Reading>, n: nat): Holding
    requires n <= |readings|
  {
    if n == 0 then Holding([], None)
    else Added(AddedAll(limit, readings, n - 1), limit, readings[n - 1])
  }

  /** The terminal's history. */
  class Series {
    var points: seq<Point>
    const limit: int
    var last: Reading
    var haveLast: bool

    constructor (limit: int)
      ensures Valid() && this.limit == limit && Held() == Holding([], None)
    {
      this.limit := limit;
      points := [];
      last := Reading(0.0, 0, 0);
      haveLast := false;
    }

    /** Nothing is kept beyond the limit. */
    ghost predicate Valid()
      reads this
    {
      |points| <= Max(limit, 0)
    }

    ghost function Held(): Holding
      reads this
    {
      Holding(points, if haveLast then Some(last) else None)
    }

    method Add(at: real, rx: int, tx: int)
      requires Valid()
      modifies this
      ensures Held() == Added(old(Held()), limit, Reading(at, rx, tx))
      ensures Valid()
    {
      var previous, had := last, haveLast;
      last, haveLast := Reading(at, rx, tx), true;
      if !had {
        return;
      }
      var elapsed := at - previous.at;
      if elapsed <= 0.0 {
        return;
      }
      Push(Point(PerSecond(rx - previous.rx, elapsed), PerSecond(tx - previous.tx, elapsed)));
    }

    method Push(p: Point)
      requires Valid()
      modifies this`points
      ensures points == LastOf(old(points) + [p], limit)
    {
      if limit <= 0 {
        return;
      }
      points := points + [p];
      if |points| > limit {
        points := points[|points| - limit..];
      }
    }

    /** The highest rate in each direction, zero when there is none. */
    method Peak() returns (down: real, up: real)
      ensures IsPeak(down, DownOf(points))
      ensures IsPeak(up, UpOf(points))
    {
      down, up := 0.0, 0.0;
      for i := 0 to |points|
        invariant down >= 0.0 && up >= 0.0
        invariant forall j :: 0 <= j < i ==> points[j].down <= down && points[j].up <= up
        invariant down == 0.0 || exists j :: 0 <= j < i && points[j].down == down
        invariant up == 0.0 || exists j :: 0 <= j < i && points[j].up == up
      {
        var p := points[i];
        down := if down < p.down then p.down else down;
        up := if up < p.up then p.up else up;
      }
      assert forall j :: 0 <= j < |points| ==> DownOf(points)[j] == points[j].down && UpOf(points)[j] == points[j].up;
    }
  }

  function DownOf(points: seq<Point>): seq<real> {
    seq(|points|, i requires 0 <= i < |points| => points[i].down)
  }

  function UpOf(points: seq<Point>): seq<real> {
    seq(|points|, i requires 0 <= i < |points| => points[i].up)
  }

  /** The least bound of the values and of zero. */
  ghost predicate IsPeak(peak: real, values: seq<real>) {
    && peak >= 0.0
    && (forall i :: 0 <= i < |values| ==> values[i] <= peak)
    && (peak == 0.0 || exists i :: 0 <= i < |values| && values[i] == peak)
  }

  /** The menu bar's history. */
  class RateSeries {
    const limit: int
    var history: seq<Point>
    var last: Option<Reading>

    constructor (limit: int)
      ensures Valid() && this.limit == limit && Held() == Holding([], None)
    {
      this.limit := limit;
      history := [];
      last := None;
    }

    /** Nothing is kept beyond the limit. */
    ghost predicate Valid()
      reads this
    {
      |history| <= Max(limit, 0)
    }

    ghost function Held(): Holding
      reads this
    {
      Holding(history, last)
    }

    method Add(instant: real, rx: int, tx: int)
      requires Valid()
      modifies this
      ensures Held() == Added(old(Held()), limit, Reading(instant, rx, tx))
      ensures Valid()
    {
      var previous := last;
      last := Some(Reading(instant, rx, tx));
      if previous == None {
        return;
      }
      var elapsed := instant - previous.value.at;
      if !(elapsed > 0.0) {
        return;
      }
      Push(Point(PerSecond(rx - previous.value.rx, elapsed), PerSecond(tx - previous.value.tx, elapsed)));
    }

    /** Forgets the last reading too, so one tunnel's counters are never compared with another's. */
    method Clear()
      modifies this
      ensures Valid() && Held() == Holding([], None)
    {
      history := [];
      last := None;
    }

    method Push(rate: Point)
      requires Valid()
      modifies this`history
      ensures history == LastOf(old(history) + [rate], limit)
    {
      if !(limit > 0) {
        return;
      }
      history := history + [rate];
      if |history| > limit {
        history := history[|history| - limit..];
      }
    }
  }

  lemma KeepsOneMore(last: Option<Reading>, limit: int, r: Reading, history: seq<Point>)
    requires last.Some?
    ensures Added(Holding(LastOf(history, limit), last), limit, r)
         == Holding(LastOf(history + Measured(last.value, r), limit), Some(r))
  {
    var measured := Measured(last.value, r);
    if measured == [] {
      assert history + measured == history;
    } else {
      LastOfAppend(history, measured[0], limit);
    }
  }

  /** For any readings, the kept points are the most recent ones of the unbounded history. */
  lemma {:induction false} KeepsTheMostRecent(limit: int, readings: seq<Reading>, n: nat)
    requires n <= |readings|
    ensures AddedAll(limit, readings, n)
         == Holding(LastOf(History(readings, n), limit), if n == 0 then None else Some(readings[n - 1]))
  {
    if n > 1 {
      KeepsTheMostRecent(limit, readings, n - 1);
      KeepsOneMore(Some(readings[n - 2]), limit, readings[n - 1], History(readings, n - 1));
    }
  }

  lemma {:induction false} RatesAreNeverNegative(readings: seq<Reading>, n: nat)
    requires n <= |readings|
    ensures forall p :: p in History(readings, n) ==> p.down >= 0.0 && p.up >= 0.0
  {
    if n >= 2 {
      RatesAreNeverNegative(readings, n - 1);
    }
  }

  /** Readings taken one after the other from counters that were never reset. */
  ghost predicate Steady(readings: seq<Reading>) {
    forall i :: 0 < i < |readings| ==> Later(readings[i - 1], readings[i])
  }

  predicate Later(previous: Reading, next: Reading) {
    previous.at < next.at && previous.rx <= next.rx && previous.tx <= next.tx
  }

  /** What the i-th point of a history stands for in bytes: its rates times the time between two readings. */
  function Moved(p: Point, previous: Reading, next: Reading): Point {
    Point(p.down * (next.at - previous.at), p.up * (next.at - previous.at))
  }

  /** The bytes the first n points stand for together. */
  function Transferred(readings: seq<Reading>, points: seq<Point>, n: nat): Point
    requires n <= |points| && |points| < |readings|
  {
    if n == 0 then Point(0.0, 0.0)
    else
      var before := Transferred(readings, points, n - 1);
      var here := Moved(points[n - 1], readings[n - 1], readings[n]);
      Point(before.down + here.down, before.up + here.up)
  }

  lemma RateTimesElapsed(delta: int, elapsed: real)
    requires delta >= 0 && elapsed > 0.0
    ensures PerSecond(delta, elapsed) * elapsed == delta as real
  {
  }

  lemma StepMoves(previous: Reading, next: Reading)
    requires Later(previous, next)
    ensures |Measured(previous, next)| == 1
    ensures Moved(Measured(previous, next)[0], previous, next)
         == Point((next.rx - previous.rx) as real, (next.tx - previous.tx) as real)
  {
    RateTimesElapsed(next.rx - previous.rx, next.at - previous.at);
    RateTimesElapsed(next.tx - previous.tx, next.at - previous.at);
  }

  lemma {:induction false} EveryStepMeasures(readings: seq<Reading>, n: nat)
    requires 0 < n <= |readings| && Steady(readings)
    ensures |History(readings, n)| == n - 1
    ensures forall i :: 0 <= i < n - 1 ==> Measured(readings[i], readings[i + 1]) == [History(readings, n)[i]]
  {
    if n >= 2 {
      EveryStepMeasures(readings, n - 1);
      assert Later(readings[n - 2], readings[n - 1]);
      StepMoves(readings[n - 2], readings[n - 1]);
    }
  }

  lemma {:induction false} StepsAddUp(readings: seq<Reading>, points: seq<Point>, n: nat)
    requires n <= |points| && |points| < |readings| && Steady(readings)
    requires forall i :: 0 <= i < |points| ==> Measured(readings[i], readings[i + 1]) == [points[i]]
    ensures Transferred(readings, points, n)
         == Point((readings[n].rx - readings[0].rx) as real, (readings[n].tx - readings[0].tx) as real)
  {
    if n > 0 {
      StepsAddUp(readings, points, n - 1);
      assert Later(readings[n - 1], readings[n - 1 + 1]);
      StepMoves(readings[n - 1], readings[n]);
      assert Measured(readings[n - 1], readings[n - 1 + 1]) == [points[n - 1]];
    }
  }

  /** No byte is lost or invented: over steady readings the rates add up to what the counters gained. */
  lemma RatesAddUp(readings: seq<Reading>)
    requires readings != [] && Steady(readings)
    ensures var n := |readings| - 1;
      var history := History(readings, |readings|);
      && |history| == n
      && Transferred(readings, history, n)
           == Point((readings[n].rx - readings[0].rx) as real, (readings[n].tx - readings[0].tx) as real)
  {
    EveryStepMeasures(readings, |readings|);
    StepsAddUp(readings, History(readings, |readings|), |readings| - 1);
  }
}
