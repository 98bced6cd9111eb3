/** The table of tunnels and what is planned from it (internal/app/app.go, batch.go, tui/model.go). */
module Table {
  import opened Prelude
  import opened Names
  import opened Profile
  import Batches

  datatype Health = Down | Up | Stale

  /** A tunnel as its configuration and the live state have it. */
  datatype Tunnel = Tunnel(name: Name, checkIP: string, health: Health)

  datatype Row = Row(tunnel: Tunnel, group: string)

  type Rows = seq<Row>

  function Rank(group: string): int {
    if group == NEEDED then 0 else if group == EXTRA then 1 else 2
  }

  // ---------------------------------------------------------------- the rows and their order

  /** Needed before extra before the rest, and by name within each. */
  predicate NotAfter(a: Row, b: Row) {
    Rank(a.group) < Rank(b.group) || (Rank(a.group) == Rank(b.group) && AtMost(a.tunnel.name, b.tunnel.name))
  }

  ghost predicate Ordered(rows: Rows) {
    forall i, j :: 0 <= i < j < |rows| ==> NotAfter(rows[i], rows[j])
  }

  ghost predicate DistinctRows(rows: Rows) {
    forall i, j :: 0 <= i < j < |rows| ==> rows[i].tunnel.name != rows[j].tunnel.name
  }

  /** The row of one tunnel, the map of groups walked in an order of its own. */
  function RowOf(c: Config, order: seq<string>, tunnel: Tunnel, context: string): Row {
    Row(tunnel, GroupIn(c, order, tunnel.name, context))
  }

  function RowsOf(c: Config, orders: seq<seq<string>>, tunnels: seq<Tunnel>, context: string): Rows
    requires |orders| == |tunnels|
  {
    seq(|tunnels|, i requires 0 <= i < |tunnels| => RowOf(c, orders[i], tunnels[i], context))
  }

  /** Puts a row before the first one that comes after it: equals keep their order. */
  function Placed(rows: Rows, row: Row): Rows {
    if rows == [] then [row]
    else
      var n := |rows| - 1;
      if NotAfter(rows[n], row) then rows + [row] else Placed(rows[..n], row) + [rows[n]]
  }

  function SortedRows(rows: Rows): Rows {
    if rows == [] then [] else Placed(SortedRows(rows[..|rows| - 1]), rows[|rows| - 1])
  }

  lemma NotAfterIsTotal(a: Row, b: Row)
    ensures NotAfter(a, b) || NotAfter(b, a)
    ensures NotAfter(a, b) && NotAfter(b, a) ==> a.tunnel.name == b.tunnel.name
  {
    AtMostIsTotal(a.tunnel.name, b.tunnel.name);
  }

  lemma NotAfterIsTransitive(a: Row, b: Row, c: Row)
    requires NotAfter(a, b) && NotAfter(b, c)
    ensures NotAfter(a, c)
  {
    if AtMost(a.tunnel.name, b.tunnel.name) && AtMost(b.tunnel.name, c.tunnel.name) {
      AtMostIsTransitive(a.tunnel.name, b.tunnel.name, c.tunnel.name);
    }
  }

  lemma {:induction false} PlacedKeepsOrder(rows: Rows, row: Row)
    requires Ordered(rows)
    ensures Ordered(Placed(rows, row)) && multiset(Placed(rows, row)) == multiset(rows) + multiset{row}
  {
    if rows != [] {
      var n := |rows| - 1;
      var last := rows[n];
      assert rows == rows[..n] + [last];
      NotAfterIsTotal(last, row);
      if NotAfter(last, row) {
        forall i | 0 <= i < n
          ensures NotAfter(rows[i], row)
        {
          NotAfterIsTransitive(rows[i], last, row);
        }
      } else {
        PlacedKeepsOrder(rows[..n], row);
        var placed := Placed(rows[..n], row);
        forall i | 0 <= i < |placed|
          ensures NotAfter(placed[i], last)
        {
          assert placed[i] in multiset(placed);
          assert placed[i] == row || placed[i] in rows[..n];
        }
      }
    }
  }

  lemma {:induction false} SortingSorts(rows: Rows)
    ensures Ordered(SortedRows(rows)) && multiset(SortedRows(rows)) == multiset(rows)
  {
    if rows != [] {
      var n := |rows| - 1;
      SortingSorts(rows[..n]);
      PlacedKeepsOrder(SortedRows(rows[..n]), rows[n]);
      assert rows == rows[..n] + [rows[n]];
    }
  }

  /**
   The table: a row a tunnel, with its group in the context of the moment, in order. `orders` are those in
   which the map of groups happens to be walked, once for each tunnel.
   */
  method View(c: Config, orders: seq<seq<string>>, tunnels: seq<Tunnel>, context: string) returns (rows: Rows)
    requires |orders| == |tunnels|
    ensures rows == SortedRows(RowsOf(c, orders, tunnels, context))
    ensures Ordered(rows) && multiset(rows) == multiset(RowsOf(c, orders, tunnels, context))
  {
    var unsorted: Rows := [];
    for i := 0 to |tunnels|
      invariant unsorted == RowsOf(c, orders, tunnels, context)[..i]
    {
      var group := GroupOf(c, orders[i], tunnels[i].name, context);
      unsorted := unsorted + [Row(tunnels[i], group)];
    }
    assert unsorted == RowsOf(c, orders, tunnels, context);
    rows := [];
    for i := 0 to |unsorted|
      invariant rows == SortedRows(unsorted[..i])
    {
      assert unsorted[..i + 1][..i] == unsorted[..i];
      rows := Placed(rows, unsorted[i]);
    }
    assert unsorted[..|unsorted|] == unsorted;
    SortingSorts(unsorted);
  }

  /** Whatever is always on is at the top, what is extra comes next, and names ascend within each. */
  lemma NeededComeFirst(rows: Rows, i: nat, j: nat)
    requires Ordered(rows) && i < j < |rows|
    ensures rows[j].group == NEEDED ==> rows[i].group == NEEDED
    ensures rows[j].group == EXTRA ==> rows[i].group == NEEDED || rows[i].group == EXTRA
    ensures rows[i].group == rows[j].group ==> AtMost(rows[i].tunnel.name, rows[j].tunnel.name)
  {
    assert NotAfter(rows[i], rows[j]);
  }

  // ---------------------------------------------------------------- plans

  function RowNamed(rows: Rows, name: Name): Option<Row> {
    if rows == [] then None
    else if rows[0].tunnel.name == name then Some(rows[0])
    else RowNamed(rows[1..], name)
  }

  method Find(rows: Rows, name: Name) returns (row: Option<Row>)
    ensures row == RowNamed(rows, name)
  {
    for i := 0 to |rows|
      invariant RowNamed(rows, name) == RowNamed(rows[i..], name)
    {
      assert rows[i..][1..] == rows[i + 1..];
      if rows[i].tunnel.name == name {
        return Some(rows[i]);
      }
    }
    return None;
  }

  /** What a key or a verb wants of a tunnel in some health, if anything. */
  datatype Wish = BringUp | TakeDown | Toggle

  function Wanted(wish: Wish, health: Health): Option<Batches.Action> {
    match wish
    case BringUp => if health == Down then Some(Batches.Up) else None
    case TakeDown => if health != Down then Some(Batches.Down) else None
    case Toggle => Some(if health == Down then Batches.Up else Batches.Down)
  }

  function PlanOf(rows: Rows, names: seq<Name>, wish: Wish): seq<Batches.Step> {
    if names == [] then []
    else
      var n := |names| - 1;
      PlanOf(rows, names[..n], wish) + StepFor(rows, names[n], wish)
  }

  function StepFor(rows: Rows, name: Name, wish: Wish): seq<Batches.Step> {
    match RowNamed(rows, name)
    case None => []
    case Some(row) =>
      match Wanted(wish, row.tunnel.health)
      case None => []
      case Some(action) => [Batches.Step(name, action)]
  }

  method Plan(rows: Rows, names: seq<Name>, wish: Wish) returns (steps: seq<Batches.Step>)
    ensures steps == PlanOf(rows, names, wish)
  {
    steps := [];
    for i := 0 to |names|
      invariant steps == PlanOf(rows, names[..i], wish)
    {
      assert names[..i + 1][..i] == names[..i];
      FoundIsNamed(rows, names[i]);
      var row := Find(rows, names[i]);
      if row.Some? {
        var action := Wanted(wish, row.value.tunnel.health);
        if action.Some? {
          steps := steps + [Batches.Step(row.value.tunnel.name, action.value)];
        }
      }
    }
    assert names[..|names|] == names;
  }

  /** Of several rows with a name, the first is found. */
  lemma {:induction false} TheFirstIsFound(rows: Rows, i: nat)
    requires i < |rows| && forall j :: 0 <= j < i ==> rows[j].tunnel.name != rows[i].tunnel.name
    ensures RowNamed(rows, rows[i].tunnel.name) == Some(rows[i])
  {
    if i > 0 {
      assert rows[1..][i - 1] == rows[i];
      TheFirstIsFound(rows[1..], i - 1);
    }
  }

  lemma InThree<T>(a: seq<T>, b: seq<T>, c: seq<T>)
    ensures a + b + c == a + (b + c)
  {
  }

  /** Plans come in the order the names are given. */
  lemma {:induction false} PlansKeepTheOrder(rows: Rows, a: seq<Name>, b: seq<Name>, wish: Wish)
    ensures PlanOf(rows, a + b, wish) == PlanOf(rows, a, wish) + PlanOf(rows, b, wish)
  {
    if b == [] {
      assert a + b == a;
    } else {
      var n := |b| - 1;
      assert (a + b)[..|a| + n] == a + b[..n];
      PlansKeepTheOrder(rows, a, b[..n], wish);
      InThree(PlanOf(rows, a, wish), PlanOf(rows, b[..n], wish), StepFor(rows, b[n], wish));
    }
  }

  /** So do the names with no row. */
  lemma {:induction false} UnknownKeepTheOrder(rows: Rows, a: seq<Name>, b: seq<Name>)
    ensures UnknownOf(rows, a + b) == UnknownOf(rows, a) + UnknownOf(rows, b)
  {
    if b == [] {
      assert a + b == a;
    } else {
      var n := |b| - 1;
      assert (a + b)[..|a| + n] == a + b[..n];
      UnknownKeepTheOrder(rows, a, b[..n]);
    }
  }

  lemma {:induction false} FoundIsNamed(rows: Rows, name: Name)
    ensures RowNamed(rows, name).Some? ==> RowNamed(rows, name).value.tunnel.name == name
  {
    if rows != [] {
      FoundIsNamed(rows[1..], name);
    }
  }

  lemma {:induction false} RowIsNamed(rows: Rows, name: Name)
    ensures RowNamed(rows, name).Some? <==> exists row :: row in rows && row.tunnel.name == name
    ensures RowNamed(rows, name).Some? ==>
      RowNamed(rows, name).value in rows && RowNamed(rows, name).value.tunnel.name == name
  {
    if rows != [] {
      RowIsNamed(rows[1..], name);
      assert rows == [rows[0]] + rows[1..];
    }
  }

  /** Names the table has never heard of, in the order given. */
  function UnknownOf(rows: Rows, names: seq<Name>): seq<Name> {
    if names == [] then []
    else
      var n := |names| - 1;
      UnknownOf(rows, names[..n]) + if RowNamed(rows, names[n]) == None then [names[n]] else []
  }

  method Unknown(rows: Rows, names: seq<Name>) returns (out: seq<Name>)
    ensures out == UnknownOf(rows, names)
  {
    out := [];
    for i := 0 to |names|
      invariant out == UnknownOf(rows, names[..i])
    {
      assert names[..i + 1][..i] == names[..i];
      var row := Find(rows, names[i]);
      if row == None {
        out := out + [names[i]];
      }
    }
    assert names[..|names|] == names;
  }

  lemma {:induction false} UnknownAreThose(rows: Rows, names: seq<Name>)
    ensures forall n :: n in UnknownOf(rows, names) <==> n in names && RowNamed(rows, n) == None
  {
    if names != [] {
      var n := |names| - 1;
      UnknownAreThose(rows, names[..n]);
      assert names == names[..n] + [names[n]];
    }
  }

  /** A plan has a step for exactly the names that have a row wanting one, and one each. */
  lemma {:induction false} PlanIsThose(rows: Rows, names: seq<Name>, wish: Wish)
    ensures forall step :: step in PlanOf(rows, names, wish) <==>
      step.tunnel in names && RowNamed(rows, step.tunnel).Some?
        && Wanted(wish, RowNamed(rows, step.tunnel).value.tunnel.health) == Some(step.action)
    ensures Distinct(names) ==> forall i, j :: 0 <= i < j < |PlanOf(rows, names, wish)| ==>
      PlanOf(rows, names, wish)[i].tunnel != PlanOf(rows, names, wish)[j].tunnel
  {
    if names != [] {
      var n := |names| - 1;
      PlanIsThose(rows, names[..n], wish);
      assert names == names[..n] + [names[n]];
    }
  }

  /** What a tunnel has come to once the steps of a plan about it have done what they are for. */
  ghost predicate EndsDown(steps: seq<Batches.Step>, row: Row) {
    || Batches.Step(row.tunnel.name, Batches.Down) in steps
    || (row.tunnel.health == Down && Batches.Step(row.tunnel.name, Batches.Up) !in steps)
  }

  ghost predicate HasStep(steps: seq<Batches.Step>, name: Name) {
    exists action :: Batches.Step(name, action) in steps
  }

  /**
   Bringing tunnels up leaves none of those named down, and taking them down leaves every one down; both
   leave out what is that way already. Toggling leaves each the opposite of what it was.
   */
  lemma PlansReachTheirEnd(rows: Rows, names: seq<Name>, row: Row)
    requires row.tunnel.name in names && RowNamed(rows, row.tunnel.name) == Some(row)
    ensures var up, down := PlanOf(rows, names, BringUp), PlanOf(rows, names, TakeDown);
      var toggle := PlanOf(rows, names, Toggle);
      && !EndsDown(up, row) && (HasStep(up, row.tunnel.name) <==> row.tunnel.health == Down)
      && EndsDown(down, row) && (HasStep(down, row.tunnel.name) <==> row.tunnel.health != Down)
      && (EndsDown(toggle, row) <==> row.tunnel.health != Down)
  {
    PlanIsThose(rows, names, BringUp);
    PlanIsThose(rows, names, TakeDown);
    PlanIsThose(rows, names, Toggle);
    var name := row.tunnel.name;
    assert Batches.Step(name, Batches.Up) in PlanOf(rows, names, BringUp) <==> row.tunnel.health == Down;
    assert Batches.Step(name, Batches.Down) in PlanOf(rows, names, TakeDown) <==> row.tunnel.health != Down;
  }

  // ---------------------------------------------------------------- starting a group

  datatype Outcome = Refused(unknown: Name) | Planned(steps: seq<Batches.Step>)

  /** Starts every tunnel of a group that is down; a member the table does not know refuses it all. */
  method UpGroup(c: Config, orders: seq<seq<string>>, again: seq<seq<string>>, tunnels: seq<Tunnel>,
      group: string, context: string) returns (rows: Rows, outcome: Outcome)
    requires |orders| == |tunnels| && |again| == |c.overrides|
    ensures rows == SortedRows(RowsOf(c, orders, tunnels, context))
    ensures outcome == UpGroupOf(rows, MembersOf(c, group, context))
  {
    rows := View(c, orders, tunnels, context);
    var names := Members(c, again, group, context);
    var unknown := Unknown(rows, names);
    if |unknown| > 0 {
      return rows, Refused(unknown[0]);
    }
    var steps := Plan(rows, names, BringUp);
    return rows, Planned(steps);
  }

  function UpGroupOf(rows: Rows, names: seq<Name>): Outcome {
    var unknown := UnknownOf(rows, names);
    if unknown != [] then Refused(unknown[0]) else Planned(PlanOf(rows, names, BringUp))
  }

  /** The orders are those of walks of the map of groups, one for each tunnel. */
  ghost predicate Walks(c: Config, orders: seq<seq<string>>, tunnels: seq<Tunnel>) {
    |orders| == |tunnels| && forall i :: 0 <= i < |orders| ==> Enumerates(orders[i], c.groups.Keys)
  }

  ghost predicate DistinctTunnels(tunnels: seq<Tunnel>) {
    forall i, j :: 0 <= i < j < |tunnels| ==> tunnels[i].name != tunnels[j].name
  }

  /** The table has one row for each tunnel, under the group GroupOf gave it, and no other. */
  lemma TableShowsGroups(c: Config, orders: seq<seq<string>>, tunnels: seq<Tunnel>, context: string)
    requires |orders| == |tunnels| && DistinctTunnels(tunnels)
    ensures var rows := SortedRows(RowsOf(c, orders, tunnels, context));
      && DistinctRows(rows) && |rows| == |tunnels|
      && forall row :: row in rows <==> exists i: nat :: IsRowOf(c, orders, tunnels, context, row, i)
  {
    var unsorted := RowsOf(c, orders, tunnels, context);
    RowsAreDistinct(c, orders, tunnels, context);
    SortingKeepsDistinct(unsorted);
    SortingKeepsLength(unsorted);
    forall row
      ensures row in unsorted <==> exists i: nat :: IsRowOf(c, orders, tunnels, context, row, i)
    {
      RowsAreThose(c, orders, tunnels, context, row);
    }
  }

  /** The row is the one of the tunnel number `i`. */
  ghost predicate IsRowOf(c: Config, orders: seq<seq<string>>, tunnels: seq<Tunnel>, context: string, row: Row, i: nat)
    requires |orders| == |tunnels|
  {
    i < |tunnels| && row == RowOf(c, orders[i], tunnels[i], context)
  }

  lemma RowsAreThose(c: Config, orders: seq<seq<string>>, tunnels: seq<Tunnel>, context: string, row: Row)
    requires |orders| == |tunnels|
    ensures row in RowsOf(c, orders, tunnels, context)
       <==> exists i: nat :: IsRowOf(c, orders, tunnels, context, row, i)
  {
    var unsorted := RowsOf(c, orders, tunnels, context);
    if row in unsorted {
      var i :| 0 <= i < |unsorted| && unsorted[i] == row;
      assert IsRowOf(c, orders, tunnels, context, row, i);
    }
    if exists i: nat :: IsRowOf(c, orders, tunnels, context, row, i) {
      var i: nat :| IsRowOf(c, orders, tunnels, context, row, i);
      assert unsorted[i] == row;
    }
  }

  lemma RowsAreDistinct(c: Config, orders: seq<seq<string>>, tunnels: seq<Tunnel>, context: string)
    requires |orders| == |tunnels| && DistinctTunnels(tunnels)
    ensures DistinctRows(RowsOf(c, orders, tunnels, context))
  {
  }

  lemma SortingKeepsLength(rows: Rows)
    ensures |SortedRows(rows)| == |rows|
  {
    SortingSorts(rows);
    assert |multiset(SortedRows(rows))| == |multiset(rows)|;
  }

  /**
   Walks of the map in whatever orders show a tunnel under the same group, the one any other walk gives,
   where an override is about it or one group lists it at most.
   */
  lemma TableHangsOnNoOrder(c: Config, orders: seq<seq<string>>, tunnels: seq<Tunnel>, context: string, row: Row,
      order: seq<string>)
    requires Walks(c, orders, tunnels) && DistinctTunnels(tunnels)
    requires row in SortedRows(RowsOf(c, orders, tunnels, context)) && Enumerates(order, c.groups.Keys)
    requires OverrideOf(c.overrides, row.tunnel.name).Some? || InOneGroupAtMost(c, row.tunnel.name)
    ensures row == RowOf(c, order, row.tunnel, context)
  {
    TableShowsGroups(c, orders, tunnels, context);
    var i: nat :| IsRowOf(c, orders, tunnels, context, row, i);
    OneGroupNoOrder(c, row.tunnel.name, context, orders[i], order);
  }

  lemma {:induction false} PlacedKeepsDistinct(rows: Rows, row: Row)
    requires DistinctRows(rows) && forall other :: other in rows ==> other.tunnel.name != row.tunnel.name
    ensures DistinctRows(Placed(rows, row))
    ensures forall other :: other in Placed(rows, row) <==> other in rows || other == row
  {
    if rows != [] {
      var n := |rows| - 1;
      assert rows == rows[..n] + [rows[n]];
      PlacedKeepsDistinct(rows[..n], row);
      var placed := Placed(rows[..n], row);
      forall i | 0 <= i < |placed|
        ensures placed[i].tunnel.name != rows[n].tunnel.name
      {
        assert placed[i] in placed;
      }
    }
  }

  lemma {:induction false} SortingKeepsDistinct(rows: Rows)
    requires DistinctRows(rows)
    ensures DistinctRows(SortedRows(rows))
    ensures forall row :: row in SortedRows(rows) <==> row in rows
  {
    if rows != [] {
      var n := |rows| - 1;
      assert rows == rows[..n] + [rows[n]];
      SortingKeepsDistinct(rows[..n]);
      PlacedKeepsDistinct(SortedRows(rows[..n]), rows[n]);
    }
  }

  /**
   For every context and every group with a name, other than "all": starting the group is refused exactly
   when some tunnel GroupOf puts in it has no row, and otherwise plans exactly one step, up, for each
   tunnel that is down among those the table shows under that group, and no other step.
   */
  lemma UpGroupStartsWhatTheTableShows(c: Config, orders: seq<seq<string>>, tunnels: seq<Tunnel>, group: string,
      context: string)
    requires WellFormed(c) && Walks(c, orders, tunnels) && DistinctTunnels(tunnels) && group != ALL && group != ""
    ensures var rows := SortedRows(RowsOf(c, orders, tunnels, context));
      var outcome := UpGroupOf(rows, MembersOf(c, group, context));
      && (outcome.Refused?
         <==> exists n :: n in MembersOf(c, group, context) && forall row :: row in rows ==> row.tunnel.name != n)
      && (outcome.Planned? ==>
            && StepsApart(outcome.steps)
            && forall step ::
              step in outcome.steps <==> step.action == Batches.Up && DownUnder(rows, group, step.tunnel))
  {
    var rows, names := SortedRows(RowsOf(c, orders, tunnels, context)), MembersOf(c, group, context);
    var order := Enumeration(c.groups.Keys);
    MembersAreWhatGroupOfPutsThere(c, order, group, context);
    RefusedExactly(rows, names);
    PlannedExactly(rows, names);
    forall n
      ensures DownUnder(rows, group, n) <==> n in names && DownNamed(rows, n)
    {
      DownUnderIsDownAndMember(c, orders, tunnels, group, context, n);
    }
  }

  lemma PlannedExactly(rows: Rows, names: seq<Name>)
    requires Distinct(names)
    ensures StepsApart(PlanOf(rows, names, BringUp))
    ensures forall step :: step in PlanOf(rows, names, BringUp) <==>
      step.action == Batches.Up && step.tunnel in names && DownNamed(rows, step.tunnel)
  {
    PlanIsThose(rows, names, BringUp);
  }

  ghost predicate DownNamed(rows: Rows, name: Name) {
    RowNamed(rows, name).Some? && RowNamed(rows, name).value.tunnel.health == Down
  }

  lemma DownUnderIsDownAndMember(c: Config, orders: seq<seq<string>>, tunnels: seq<Tunnel>, group: string,
      context: string, name: Name)
    requires WellFormed(c) && Walks(c, orders, tunnels) && DistinctTunnels(tunnels) && group != ALL && group != ""
    ensures var rows := SortedRows(RowsOf(c, orders, tunnels, context));
      DownUnder(rows, group, name) <==> name in MembersOf(c, group, context) && DownNamed(rows, name)
  {
    var rows := SortedRows(RowsOf(c, orders, tunnels, context));
    TableShowsGroups(c, orders, tunnels, context);
    RowIsNamed(rows, name);
    forall row | row in rows && row.tunnel.name == name
      ensures RowNamed(rows, name) == Some(row) && (row.group == group <==> name in MembersOf(c, group, context))
    {
      OnlyRowNamed(rows, row);
      var i: nat :| IsRowOf(c, orders, tunnels, context, row, i);
      MembersAreWhatGroupOfPutsThere(c, orders[i], group, context);
    }
  }

  lemma RefusedExactly(rows: Rows, names: seq<Name>)
    ensures UpGroupOf(rows, names).Refused?
       <==> exists n :: n in names && forall row :: row in rows ==> row.tunnel.name != n
  {
    UnknownAreThose(rows, names);
    forall n
      ensures RowNamed(rows, n) == None <==> forall row :: row in rows ==> row.tunnel.name != n
    {
      RowIsNamed(rows, n);
    }
    if UnknownOf(rows, names) != [] {
      assert UnknownOf(rows, names)[0] in UnknownOf(rows, names);
    }
  }

  ghost predicate StepsApart(steps: seq<Batches.Step>) {
    forall i, j :: 0 <= i < j < |steps| ==> steps[i].tunnel != steps[j].tunnel
  }

  /** A tunnel that is down, in a row shown under a group. */
  ghost predicate DownUnder(rows: Rows, group: string, name: Name) {
    exists row :: row in rows && row.tunnel.name == name && row.group == group && row.tunnel.health == Down
  }

  lemma {:induction false} OnlyRowNamed(rows: Rows, row: Row)
    requires DistinctRows(rows) && row in rows
    ensures RowNamed(rows, row.tunnel.name) == Some(row)
  {
    if rows[0] != row {
      assert row in rows[1..];
      OnlyRowNamed(rows[1..], row);
    }
  }

  // ---------------------------------------------------------------- what a ping probes

  /** The check addresses of the live tunnels, in the order of the table. */
  function CheckIPsOf(rows: Rows): seq<string> {
    if rows == [] then []
    else
      var n := |rows| - 1;
      CheckIPsOf(rows[..n])
        + if rows[n].tunnel.health != Down && rows[n].tunnel.checkIP != "" then [rows[n].tunnel.checkIP] else []
  }

  method CheckIPs(rows: Rows) returns (out: seq<string>)
    ensures out == CheckIPsOf(rows)
  {
    out := [];
    for i := 0 to |rows|
      invariant out == CheckIPsOf(rows[..i])
    {
      assert rows[..i + 1][..i] == rows[..i];
      if rows[i].tunnel.health != Down && rows[i].tunnel.checkIP != "" {
        out := out + [rows[i].tunnel.checkIP];
      }
    }
    assert rows[..|rows|] == rows;
  }

  /** The addresses come in the order of the rows. */
  lemma {:induction false} CheckIPsKeepTheOrder(a: Rows, b: Rows)
    ensures CheckIPsOf(a + b) == CheckIPsOf(a) + CheckIPsOf(b)
  {
    if b == [] {
      assert a + b == a;
    } else {
      var n := |b| - 1;
      assert (a + b)[..|a| + n] == a + b[..n];
      CheckIPsKeepTheOrder(a, b[..n]);
    }
  }

  /** The addresses a ping covers; an empty name asks for every one the table offers. */
  function PingTargets(rows: Rows, tunnel: Name): seq<string> {
    var hosts := CheckIPsOf(rows);
    if tunnel == "" then hosts
    else match RowNamed(rows, tunnel)
      case None => []
      case Some(row) => if row.tunnel.checkIP in hosts then [row.tunnel.checkIP] else []
  }

  predicate LiveAt(row: Row, address: string) {
    row.tunnel.health != Down && row.tunnel.checkIP == address && address != ""
  }

  lemma {:induction false} CheckIPsAreLive(rows: Rows)
    ensures forall ip :: ip in CheckIPsOf(rows) <==> exists row :: row in rows && LiveAt(row, ip)
  {
    if rows != [] {
      var n := |rows| - 1;
      CheckIPsAreLive(rows[..n]);
      assert rows == rows[..n] + [rows[n]];
      forall ip
        ensures ip in CheckIPsOf(rows) <==> exists row :: row in rows && LiveAt(row, ip)
      {
        assert ip in CheckIPsOf(rows) <==> ip in CheckIPsOf(rows[..n]) || LiveAt(rows[n], ip);
      }
    }
  }

  /**
   A named ping covers its tunnel's address exactly when some live tunnel has that address: so a tunnel
   that is down is probed when a live one shares its address. Whatever is covered is a live tunnel's.
   */
  lemma NamedPingCoversLiveAddresses(rows: Rows, tunnel: Name, row: Row)
    requires tunnel != "" && RowNamed(rows, tunnel) == Some(row)
    ensures PingTargets(rows, tunnel) == [row.tunnel.checkIP]
       <==> exists other :: other in rows && LiveAt(other, row.tunnel.checkIP)
    ensures forall ip :: ip in PingTargets(rows, tunnel) ==> exists other :: other in rows && LiveAt(other, ip)
  {
    CheckIPsAreLive(rows);
  }

  /** A tunnel that is down and yet probed. */
  lemma DownAndProbed(a: Name, b: Name, address: string)
    requires a != "" && a != b && address != ""
    ensures var rows := [Row(Tunnel(a, address, Down), ""), Row(Tunnel(b, address, Up), "")];
      PingTargets(rows, a) == [address]
  {
    var down, live := Row(Tunnel(a, address, Down), ""), Row(Tunnel(b, address, Up), "");
    var rows := [down, live];
    assert RowNamed(rows, a) == Some(down);
    NamedPingCoversLiveAddresses(rows, a, down);
    assert live in rows && LiveAt(live, address);
  }
}
