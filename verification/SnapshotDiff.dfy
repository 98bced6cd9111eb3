/** What changed between two views (macos Link/SnapshotDiff.swift). */
module Diffs {
  import opened Prelude
  import opened Names

  datatype Health = Up | Stale | Down | Unknown(wire: string)

  /** One tunnel of a view, with the fields a diff looks at. */
  datatype Tunnel = Tunnel(name: Name, health: Health)

  datatype AnySnapshot = Snapshot(context: string, taken: int, tunnels: seq<Tunnel>)

  ghost predicate DistinctNames(tunnels: seq<Tunnel>) {
    forall i, j :: 0 <= i < j < |tunnels| ==> tunnels[i].name != tunnels[j].name
  }

  /** A view whose tunnels have distinct names. */
  type Snapshot = s: AnySnapshot | DistinctNames(s.tunnels) witness AnySnapshot.Snapshot("", 0, [])

  function NamesOf(view: AnySnapshot): set<Name> {
    set i | 0 <= i < |view.tunnels| :: view.tunnels[i].name
  }

  /** The names of a view as its tunnels come, one that two tunnels have twice. */
  function NamesInTurn(view: AnySnapshot): seq<Name> {
    seq(|view.tunnels|, i requires 0 <= i < |view.tunnels| => view.tunnels[i].name)
  }

  lemma NamesInTurnAre(view: AnySnapshot)
    ensures forall n :: n in NamesInTurn(view) <==> n in NamesOf(view)
    ensures Distinct(NamesInTurn(view)) <==> DistinctNames(view.tunnels)
  {
    var names := NamesInTurn(view);
    forall i | 0 <= i < |view.tunnels|
      ensures names[i] == view.tunnels[i].name && view.tunnels[i].name in names
    {
      assert names[i] in names;
    }
    if Distinct(names) {
      forall i, j | 0 <= i < j < |view.tunnels|
        ensures view.tunnels[i].name != view.tunnels[j].name
      {
        assert names[i] != names[j];
      }
    }
  }

  ghost function ShownNames(view: Option<AnySnapshot>): set<Name> {
    match view
    case None => {}
    case Some(v) => NamesOf(v)
  }

  ghost predicate HasHealth(view: AnySnapshot, name: Name, health: Health) {
    Tunnel(name, health) in view.tunnels
  }

  datatype HealthChange = HealthChange(tunnel: Name, from: Health, to: Health)

  datatype Diff = Diff(appeared: seq<Name>, disappeared: seq<Name>, healthChanges: seq<HealthChange>)

  /** Comparing two views builds a dictionary from each, which traps on a name that is there twice. */
  ghost predicate Comparable(previous: Option<AnySnapshot>, current: AnySnapshot) {
    previous.Some? ==> DistinctNames(previous.value.tunnels) && DistinctNames(current.tunnels)
  }

  function TunnelsOf(changes: seq<HealthChange>): seq<Name> {
    seq(|changes|, i requires 0 <= i < |changes| => changes[i].tunnel)
  }

  /** The names both views show whose health is not the same in the two. */
  ghost function Changed(before: Snapshot, after: Snapshot): set<Name> {
    set t | t in after.tunnels && t.name in NamesOf(before) && !HasHealth(before, t.name, t.health) :: t.name
  }

  /**
   What a diff must say. The first view shows everything as new, in name order, and changes nothing;
   later ones report names gained, names lost and health changed, each list in name order without repeats.
   */
  ghost predicate IsDiff(previous: Option<AnySnapshot>, current: AnySnapshot, diff: Diff)
    requires Comparable(previous, current)
  {
    && (previous == None ==>
          && InOrder(diff.appeared) && multiset(diff.appeared) == multiset(NamesInTurn(current))
          && diff.disappeared == [] && diff.healthChanges == [])
    && (previous.Some? ==>
          && diff.appeared == Sorted(NamesOf(current) - NamesOf(previous.value))
          && diff.disappeared == Sorted(NamesOf(previous.value) - NamesOf(current))
          && TunnelsOf(diff.healthChanges) == Sorted(Changed(previous.value, current))
          && forall c :: c in diff.healthChanges ==>
            HasHealth(previous.value, c.tunnel, c.from) && HasHealth(current, c.tunnel, c.to))
  }

  /** There is exactly one such diff. */
  lemma DiffIsUnique(previous: Option<AnySnapshot>, current: AnySnapshot, d1: Diff, d2: Diff)
    requires Comparable(previous, current)
    requires IsDiff(previous, current, d1) && IsDiff(previous, current, d2)
    ensures d1 == d2
  {
    var c1, c2 := d1.healthChanges, d2.healthChanges;
    if previous == None {
      InOrderIsUnique(d1.appeared, d2.appeared);
    } else {
      assert |TunnelsOf(c1)| == |c1| && |TunnelsOf(c2)| == |c2|;
      forall i | 0 <= i < |c1|
        ensures c1[i] == c2[i]
      {
        assert TunnelsOf(c1)[i] == c1[i].tunnel && TunnelsOf(c2)[i] == c2[i].tunnel;
        assert c1[i] in c1 && c2[i] in c2;
        HealthIsUnique(previous.value, c1[i].tunnel, c1[i].from, c2[i].from);
        HealthIsUnique(current, c1[i].tunnel, c1[i].to, c2[i].to);
      }
    }
  }

  lemma HealthIsUnique(view: Snapshot, name: Name, h1: Health, h2: Health)
    requires HasHealth(view, name, h1) && HasHealth(view, name, h2)
    ensures h1 == h2
  {
    var i :| 0 <= i < |view.tunnels| && view.tunnels[i] == Tunnel(name, h1);
    var j :| 0 <= j < |view.tunnels| && view.tunnels[j] == Tunnel(name, h2);
    assert i == j;
  }

  /** The dictionary from name to health. */
  method HealthByName(view: Snapshot) returns (health: map<Name, Health>)
    ensures health.Keys == NamesOf(view)
    ensures forall name :: name in health ==> HasHealth(view, name, health[name])
  {
    health := map[];
    for i := 0 to |view.tunnels|
      invariant health.Keys == set k | 0 <= k < i :: view.tunnels[k].name
      invariant forall name :: name in health ==> HasHealth(view, name, health[name])
    {
      var t := view.tunnels[i];
      assert t in view.tunnels;
      health := health[t.name := t.health];
    }
  }

  function ChangedIn(before: map<Name, Health>, after: map<Name, Health>): set<Name> {
    set n | n in after.Keys && n in before && before[n] != after[n]
  }

  function ChangeList(names: seq<Name>, before: map<Name, Health>, after: map<Name,
      Health>): (changes: seq<HealthChange>)
    requires forall n :: n in names ==> n in before && n in after
    ensures |changes| == |names|
  {
    seq(|names|, i requires 0 <= i < |names| => HealthChange(names[i], before[names[i]], after[names[i]]))
  }

  method CollectChanges(before: map<Name, Health>, after: map<Name, Health>) returns (changed: set<Name>)
    ensures changed == ChangedIn(before, after)
  {
    changed := {};
    var remaining := after.Keys;
    while remaining != {}
      invariant remaining <= after.Keys
      invariant changed == set n | n in after.Keys - remaining && n in before && before[n] != after[n]
      decreases remaining
    {
      var name :| name in remaining;
      if name in before && before[name] != after[name] {
        changed := changed + {name};
      }
      remaining := remaining - {name};
    }
  }

  method Between(previous: Option<AnySnapshot>, current: AnySnapshot) returns (diff: Diff)
    requires Comparable(previous, current)
    ensures IsDiff(previous, current, diff)
  {
    if previous == None {
      var all := SortAll(NamesInTurn(current));
      return Diff(all, [], []);
    }
    var before := HealthByName(previous.value);
    var after := HealthByName(current);
    var changed := CollectChanges(before, after);
    var names := Sort(changed);
    ChangedByHealth(previous.value, current, before, after);
    NamesListed(names, changed);
    var appeared := Sort(after.Keys - before.Keys);
    var disappeared := Sort(before.Keys - after.Keys);
    diff := Diff(appeared, disappeared, ChangeList(names, before, after));
    ChangesAreRight(previous.value, current, before, after, names);
  }

  lemma NamesListed(names: seq<Name>, listed: set<Name>)
    requires names == Sorted(listed)
    ensures forall n :: n in names <==> n in listed
  {
    assert forall n :: n in names <==> n in Elements(names);
  }

  lemma ChangesAreRight(previous: Snapshot, current: Snapshot, before: map<Name, Health>, after: map<Name, Health>,
      names: seq<Name>)
    requires forall n :: n in before ==> HasHealth(previous, n, before[n])
    requires forall n :: n in after ==> HasHealth(current, n, after[n])
    requires forall n :: n in names ==> n in before && n in after
    ensures var changes := ChangeList(names, before, after);
      && TunnelsOf(changes) == names
      && forall c :: c in changes ==> HasHealth(previous, c.tunnel, c.from) && HasHealth(current, c.tunnel, c.to)
  {
  }

  lemma ChangedByHealth(previous: Snapshot, current: Snapshot, before: map<Name, Health>, after: map<Name, Health>)
    requires before.Keys == NamesOf(previous) && forall n :: n in before ==> HasHealth(previous, n, before[n])
    requires after.Keys == NamesOf(current) && forall n :: n in after ==> HasHealth(current, n, after[n])
    ensures ChangedIn(before, after) == Changed(previous, current)
  {
    var changed := ChangedIn(before, after);
    forall n | n in after && n in before
      ensures n in changed <==> n in Changed(previous, current)
    {
      if n in changed {
        if HasHealth(previous, n, after[n]) {
          HealthIsUnique(previous, n, before[n], after[n]);
        }
        assert Tunnel(n, after[n]) in current.tunnels;
      }
      if n in Changed(previous, current) {
        var t :| t in current.tunnels && t.name == n && !HasHealth(previous, n, t.health);
        HealthIsUnique(current, n, t.health, after[n]);
      }
    }
    forall n | n in Changed(previous, current)
      ensures n in after && n in before
    {
      var t :| t in current.tunnels && t.name == n && n in NamesOf(previous);
    }
  }

  ghost function DiffOf(previous: Option<Snapshot>, current: Snapshot): (diff: Diff)
    ensures IsDiff(previous, current, diff)
  {
    DiffExists(previous, current);
    var diff :| IsDiff(previous, current, diff); diff
  }

  ghost function HealthIn(view: Snapshot, name: Name): (h: Health)
    requires name in NamesOf(view)
    ensures HasHealth(view, name, h)
  {
    var i :| 0 <= i < |view.tunnels| && view.tunnels[i].name == name;
    assert view.tunnels[i] == Tunnel(name, view.tunnels[i].health);
    view.tunnels[i].health
  }

  lemma DiffExists(previous: Option<Snapshot>, current: Snapshot)
    ensures exists diff :: IsDiff(previous, current, diff)
  {
    var changes: seq<HealthChange> := [];
    if previous.Some? {
      var names := Sorted(Changed(previous.value, current));
      NamesListed(names, Changed(previous.value, current));
      assert forall i :: 0 <= i < |names| ==> names[i] in names;
      changes := seq(|names|, i requires 0 <= i < |names| =>
        HealthChange(names[i], HealthIn(previous.value, names[i]), HealthIn(current, names[i])));
      assert TunnelsOf(changes) == names;
    }
    var before := ShownNames(previous);
    assert IsDiff(previous, current,
      Diff(Sorted(NamesOf(current) - before), Sorted(before - NamesOf(current)), changes)) by {
      if previous == None {
        SortedIsInOrder(current);
        AscendingIsUnique([], Sorted({} - NamesOf(current)));
        assert NamesOf(current) - {} == NamesOf(current);
      }
    }
  }

  /** Where no name is there twice, its names in order are those of the set. */
  lemma SortedIsInOrder(view: Snapshot)
    ensures InOrder(Sorted(NamesOf(view))) && multiset(Sorted(NamesOf(view))) == multiset(NamesInTurn(view))
  {
    var sorted, names := Sorted(NamesOf(view)), NamesInTurn(view);
    NamesInTurnAre(view);
    OnceEach(sorted);
    OnceEach(names);
    forall n
      ensures multiset(sorted)[n] == multiset(names)[n]
    {
      assert n in sorted <==> n in Elements(sorted);
    }
  }

  lemma {:induction false} OnceEach(names: seq<Name>)
    requires Distinct(names)
    ensures forall n :: multiset(names)[n] == if n in names then 1 else 0
  {
    if names != [] {
      OnceEach(names[1..]);
      assert names == [names[0]] + names[1..];
    }
  }

  /** Applying one diff to the names shown before gives the names shown after. */
  lemma DiffTransforms(previous: Option<AnySnapshot>, current: AnySnapshot, diff: Diff)
    requires Comparable(previous, current) && IsDiff(previous, current, diff)
    ensures ShownNames(previous) - Elements(diff.disappeared) + Elements(diff.appeared) == NamesOf(current)
    ensures InOrder(diff.appeared) && Ascending(diff.disappeared) && Ascending(TunnelsOf(diff.healthChanges))
    ensures Ascending(diff.appeared) <==> previous.Some? || DistinctNames(current.tunnels)
  {
    if previous == None {
      FirstDiffLists(current, diff);
    }
  }

  lemma FirstDiffLists(current: AnySnapshot, diff: Diff)
    requires IsDiff(None, current, diff)
    ensures Elements(diff.appeared) == NamesOf(current)
    ensures Ascending(diff.appeared) <==> DistinctNames(current.tunnels)
  {
    var names := NamesInTurn(current);
    NamesInTurnAre(current);
    forall n
      ensures n in diff.appeared <==> n in NamesOf(current)
    {
      assert n in diff.appeared <==> n in multiset(diff.appeared);
      assert n in names <==> n in multiset(names);
    }
    DistinctByCount(diff.appeared);
    DistinctByCount(names);
    assert Distinct(diff.appeared) <==> Ascending(diff.appeared);
  }

  lemma DistinctByCount(names: seq<Name>)
    ensures Distinct(names) <==> forall n :: multiset(names)[n] <= 1
  {
    if Distinct(names) {
      OnceEach(names);
    }
    forall i, j | 0 <= i < j < |names| && names[i] == names[j]
      ensures multiset(names)[names[i]] > 1
    {
      assert names == names[..j] + [names[j]] + names[j + 1..];
      assert names[..j][i] in multiset(names[..j]);
    }
  }
}
