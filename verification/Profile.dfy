/** Which group a tunnel belongs to in a network context (internal/profile/profile.go). */
module Profile {
  import opened Prelude
  import opened Names

  const ALL := "all"
  const NEEDED := "needed"
  const EXTRA := "extra"
  const DEFAULT_CONTEXT := "default"

  datatype Override = Override(tunnel: Name, groupWhen: map<string, string>)

  datatype Config = Config(groups: map<string, seq<Name>>, overrides: seq<Override>)

  // ---------------------------------------------------------------- what the configuration says

  /** The group an override gives in a context: its own rule, else its default one, else none. */
  function Moved(o: Override, context: string): string {
    if context in o.groupWhen then o.groupWhen[context]
    else if DEFAULT_CONTEXT in o.groupWhen then o.groupWhen[DEFAULT_CONTEXT]
    else ""
  }

  /** The first override about a tunnel is the one that counts. */
  function OverrideOf(overrides: seq<Override>, tunnel: Name): Option<Override> {
    if overrides == [] then None
    else
      var earlier := OverrideOf(overrides[..|overrides| - 1], tunnel);
      if earlier.Some? then earlier
      else if overrides[|overrides| - 1].tunnel == tunnel then Some(overrides[|overrides| - 1])
      else None
  }

  function Listed(c: Config, group: string): seq<Name> {
    if group in c.groups then c.groups[group] else []
  }

  /** The first group, in the order the map yields them, that lists a tunnel; "all" is passed over. */
  function ListedUnder(c: Config, order: seq<string>, tunnel: Name): string {
    if order == [] then ""
    else
      var group := order[0];
      if group != ALL && tunnel in Listed(c, group) then group else ListedUnder(c, order[1..], tunnel)
  }

  function GroupIn(c: Config, order: seq<string>, tunnel: Name, context: string): string {
    var o := OverrideOf(c.overrides, tunnel);
    if o.Some? then Moved(o.value, context) else ListedUnder(c, order, tunnel)
  }

  // ---------------------------------------------------------------- as the program computes it

  /** `order` is the order in which the map of groups happens to be walked. */
  method GroupOf(c: Config, order: seq<string>, tunnel: Name, context: string) returns (group: string)
    ensures group == GroupIn(c, order, tunnel, context)
  {
    for i := 0 to |c.overrides|
      invariant OverrideOf(c.overrides[..i], tunnel) == None
    {
      var o := c.overrides[i];
      assert c.overrides[..i + 1][..i] == c.overrides[..i];
      if o.tunnel == tunnel {
        assert OverrideOf(c.overrides[..i + 1], tunnel) == Some(o);
        FirstOverrideStays(c.overrides, i + 1, tunnel);
        if context in o.groupWhen {
          return o.groupWhen[context];
        }
        return if DEFAULT_CONTEXT in o.groupWhen then o.groupWhen[DEFAULT_CONTEXT] else "";
      }
    }
    assert c.overrides[..|c.overrides|] == c.overrides;
    for i := 0 to |order|
      invariant ListedUnder(c, order, tunnel) == ListedUnder(c, order[i..], tunnel)
    {
      assert order[i..][1..] == order[i + 1..];
      if order[i] == ALL {
        continue;
      }
      var members := Listed(c, order[i]);
      for j := 0 to |members|
        invariant tunnel !in members[..j]
      {
        if members[j] == tunnel {
          return order[i];
        }
      }
    }
    return "";
  }

  lemma {:induction false} FirstOverrideStays(overrides: seq<Override>, n: nat, tunnel: Name)
    requires n <= |overrides| && OverrideOf(overrides[..n], tunnel).Some?
    ensures OverrideOf(overrides, tunnel) == OverrideOf(overrides[..n], tunnel)
  {
    if n < |overrides| {
      var shorter := overrides[..|overrides| - 1];
      assert shorter[..n] == overrides[..n];
      FirstOverrideStays(shorter, n, tunnel);
    } else {
      assert overrides[..n] == overrides;
    }
  }

  function Overridden(overrides: seq<Override>): set<Name> {
    set o | o in overrides :: o.tunnel
  }

  function Unmoved(names: seq<Name>, overridden: set<Name>): seq<Name> {
    if names == [] then []
    else
      var n := |names| - 1;
      Unmoved(names[..n], overridden) + if names[n] in overridden then [] else [names[n]]
  }

  function MovedIn(c: Config, overrides: seq<Override>, group: string, context: string): seq<Name> {
    if overrides == [] then []
    else
      var n := |overrides| - 1;
      MovedIn(c, overrides[..n], group, context)
        + if GroupIn(c, [], overrides[n].tunnel, context) == group then [overrides[n].tunnel] else []
  }

  /** The tunnels of a group in a context, in declaration order, those moved in by an override last. */
  function MembersOf(c: Config, group: string, context: string): seq<Name> {
    if group == ALL then Listed(c, ALL)
    else Unmoved(Listed(c, group), Overridden(c.overrides)) + MovedIn(c, c.overrides, group, context)
  }

  /** Members keep the order in which the group lists them, and those moved in that of their overrides. */
  lemma {:induction false} MembersKeepTheOrder(a: seq<Name>, b: seq<Name>, overridden: set<Name>)
    ensures Unmoved(a + b, overridden) == Unmoved(a, overridden) + Unmoved(b, overridden)
  {
    if b == [] {
      assert a + b == a;
    } else {
      var n := |b| - 1;
      assert (a + b)[..|a| + n] == a + b[..n];
      MembersKeepTheOrder(a, b[..n], overridden);
    }
  }

  lemma {:induction false} MovedInKeepTheOrder(c: Config, a: seq<Override>, b: seq<Override>, group: string,
      context: string)
    ensures MovedIn(c, a + b, group, context) == MovedIn(c, a, group, context) + MovedIn(c, b, group, context)
  {
    if b == [] {
      assert a + b == a;
    } else {
      var n := |b| - 1;
      assert (a + b)[..|a| + n] == a + b[..n];
      MovedInKeepTheOrder(c, a, b[..n], group, context);
    }
  }

  /** Each override's group is looked up afresh, and the map walked in an order of its own each time. */
  method Members(c: Config, orders: seq<seq<string>>, group: string, context: string) returns (out: seq<Name>)
    requires |orders| == |c.overrides|
    ensures out == MembersOf(c, group, context)
  {
    if group == ALL {
      return Listed(c, ALL);
    }
    var overridden: set<Name> := {};
    for i := 0 to |c.overrides|
      invariant overridden == Overridden(c.overrides[..i])
    {
      OneMoreOverridden(c.overrides, i);
      overridden := overridden + {c.overrides[i].tunnel};
    }
    assert c.overrides[..|c.overrides|] == c.overrides;
    out := [];
    var listed := Listed(c, group);
    for i := 0 to |listed|
      invariant out == Unmoved(listed[..i], overridden)
    {
      assert listed[..i + 1][..i] == listed[..i];
      if listed[i] !in overridden {
        out := out + [listed[i]];
      }
    }
    assert listed[..|listed|] == listed;
    ghost var stayed := out;
    for i := 0 to |c.overrides|
      invariant out == stayed + MovedIn(c, c.overrides[..i], group, context)
    {
      OneMoreMovedIn(c, i, group, context);
      OverriddenAnyway(c, orders[i], c.overrides[i], context);
      var there := GroupOf(c, orders[i], c.overrides[i].tunnel, context);
      if there == group {
        out := out + [c.overrides[i].tunnel];
      }
    }
  }

  lemma OneMoreOverridden(overrides: seq<Override>, i: nat)
    requires i < |overrides|
    ensures Overridden(overrides[..i + 1]) == Overridden(overrides[..i]) + {overrides[i].tunnel}
  {
    assert overrides[..i + 1] == overrides[..i] + [overrides[i]];
  }

  lemma OneMoreMovedIn(c: Config, i: nat, group: string, context: string)
    requires i < |c.overrides|
    ensures MovedIn(c, c.overrides[..i + 1], group, context)
         == MovedIn(c, c.overrides[..i], group, context)
          + if GroupIn(c, [], c.overrides[i].tunnel, context) == group then [c.overrides[i].tunnel] else []
  {
    assert c.overrides[..i + 1][..i] == c.overrides[..i];
  }

  /** A tunnel an override is about is where its first override puts it, whatever the groups list. */
  lemma OverriddenAnyway(c: Config, order: seq<string>, o: Override, context: string)
    requires o in c.overrides
    ensures GroupIn(c, order, o.tunnel, context) == GroupIn(c, [], o.tunnel, context)
  {
    SomeOverride(c.overrides, o.tunnel);
    assert o.tunnel in Overridden(c.overrides);
  }

  lemma {:induction false} SomeOverride(overrides: seq<Override>, tunnel: Name)
    ensures OverrideOf(overrides, tunnel).Some? <==> tunnel in Overridden(overrides)
    ensures OverrideOf(overrides, tunnel).Some? ==>
      OverrideOf(overrides, tunnel).value in overrides && OverrideOf(overrides, tunnel).value.tunnel == tunnel
  {
    if overrides != [] {
      var n := |overrides| - 1;
      SomeOverride(overrides[..n], tunnel);
      assert overrides == overrides[..n] + [overrides[n]];
      assert Overridden(overrides) == Overridden(overrides[..n]) + {overrides[n].tunnel};
    }
  }

  // ---------------------------------------------------------------- where the map's order matters

  ghost predicate ListedIn(c: Config, group: string, tunnel: Name) {
    group != ALL && group in c.groups && tunnel in c.groups[group]
  }

  ghost predicate InOneGroupAtMost(c: Config, tunnel: Name) {
    forall g, h :: ListedIn(c, g, tunnel) && ListedIn(c, h, tunnel) ==> g == h
  }

  lemma {:induction false} ListedUnderFinds(c: Config, order: seq<string>, tunnel: Name)
    ensures var group := ListedUnder(c, order, tunnel);
      if exists g :: g in order && ListedIn(c, g, tunnel) then group in order && ListedIn(c, group, tunnel)
      else group == ""
  {
    if order != [] {
      ListedUnderFinds(c, order[1..], tunnel);
      assert forall g :: g in order <==> g == order[0] || g in order[1..];
    }
  }

  lemma GroupsInOrder(c: Config, order: seq<string>, group: string)
    requires Enumerates(order, c.groups.Keys)
    ensures group in order <==> group in c.groups
  {
    assert group in order <==> group in Elements(order);
  }

  /** The group does not depend on the order of the map for a tunnel that one group lists at most. */
  lemma OneGroupNoOrder(c: Config, tunnel: Name, context: string, a: seq<string>, b: seq<string>)
    requires Enumerates(a, c.groups.Keys) && Enumerates(b, c.groups.Keys)
    requires OverrideOf(c.overrides, tunnel).Some? || InOneGroupAtMost(c, tunnel)
    ensures GroupIn(c, a, tunnel, context) == GroupIn(c, b, tunnel, context)
  {
    ListedUnderFinds(c, a, tunnel);
    ListedUnderFinds(c, b, tunnel);
    assert Elements(a) == Elements(b);
    forall g: string
      ensures g in a <==> g in b
    {
      GroupsInOrder(c, a, g);
      GroupsInOrder(c, b, g);
    }
  }

  /** An order in which a given group comes first. */
  lemma SomeOrderStartsWith(c: Config, first: string) returns (order: seq<string>)
    requires first in c.groups
    ensures Enumerates(order, c.groups.Keys) && order != [] && order[0] == first
  {
    var rest := Enumeration(c.groups.Keys - {first});
    order := [first] + rest;
    assert forall i :: 0 <= i < |rest| ==> rest[i] in Elements(rest);
    assert Elements(order) == {first} + Elements(rest);
  }

  lemma {:induction false} Enumeration(names: set<string>) returns (order: seq<string>)
    ensures Enumerates(order, names)
  {
    if names == {} {
      order := [];
    } else {
      var n :| n in names;
      var rest := Enumeration(names - {n});
      assert forall i :: 0 <= i < |rest| ==> rest[i] in Elements(rest);
      order := [n] + rest;
      assert Elements(order) == {n} + Elements(rest);
    }
  }

  /**
   The groups of a configuration give every tunnel one group exactly when each not overridden is listed once
   at most.
   */
  lemma OrderMattersExactlyWhenListedTwice(c: Config, tunnel: Name, context: string)
    ensures (forall a, b :: Enumerates(a, c.groups.Keys) && Enumerates(b, c.groups.Keys) ==>
               GroupIn(c, a, tunnel, context) == GroupIn(c, b, tunnel, context))
       <==> OverrideOf(c.overrides, tunnel).Some? || InOneGroupAtMost(c, tunnel)
  {
    if OverrideOf(c.overrides, tunnel).Some? || InOneGroupAtMost(c, tunnel) {
      forall a, b | Enumerates(a, c.groups.Keys) && Enumerates(b, c.groups.Keys)
        ensures GroupIn(c, a, tunnel, context) == GroupIn(c, b, tunnel, context)
      {
        OneGroupNoOrder(c, tunnel, context, a, b);
      }
    } else {
      var g, h :| ListedIn(c, g, tunnel) && ListedIn(c, h, tunnel) && g != h;
      var a := SomeOrderStartsWith(c, g);
      var b := SomeOrderStartsWith(c, h);
      assert GroupIn(c, a, tunnel, context) == g && GroupIn(c, b, tunnel, context) == h;
    }
  }

  /** A tunnel two groups list is put under whichever of them the map yields first. */
  lemma AGroupCanHangOnTheOrder(tunnel: Name, context: string)
    ensures var c := Config(map["home" := [tunnel], "work" := [tunnel]], []);
      && Enumerates(["home", "work"], c.groups.Keys) && Enumerates(["work", "home"], c.groups.Keys)
      && GroupIn(c, ["home", "work"], tunnel, context) == "home"
      && GroupIn(c, ["work", "home"], tunnel, context) == "work"
  {
    var c := Config(map["home" := [tunnel], "work" := [tunnel]], []);
    assert "home"[0] != "work"[0];
    assert Elements(["home", "work"]) == {"home", "work"} == Elements(["work", "home"]);
    assert c.groups.Keys == {"home", "work"};
    assert "home"[0] != ALL[0] && "work"[0] != ALL[0];
  }

  /**
   A tunnel with an override is where the override's rule for the context puts it; where that has none,
   where its default rule does; and with neither it is nowhere, whatever the groups list.
   */
  lemma OwnRuleBeforeDefault(c: Config, order: seq<string>, tunnel: Name, context: string, i: nat)
    requires i < |c.overrides| && c.overrides[i].tunnel == tunnel
    requires forall j :: 0 <= j < i ==> c.overrides[j].tunnel != tunnel
    ensures var rules, group := c.overrides[i].groupWhen, GroupIn(c, order, tunnel, context);
      && (context in rules ==> group == rules[context])
      && (context !in rules && DEFAULT_CONTEXT in rules ==> group == rules[DEFAULT_CONTEXT])
      && (context !in rules && DEFAULT_CONTEXT !in rules ==> group == "")
  {
    NoOverrideBefore(c.overrides, i, tunnel);
    assert c.overrides[..i + 1][..i] == c.overrides[..i];
    FirstOverrideStays(c.overrides, i + 1, tunnel);
  }

  lemma {:induction false} NoOverrideBefore(overrides: seq<Override>, i: nat, tunnel: Name)
    requires i <= |overrides| && forall j :: 0 <= j < i ==> overrides[j].tunnel != tunnel
    ensures OverrideOf(overrides[..i], tunnel) == None
  {
    if i > 0 {
      NoOverrideBefore(overrides, i - 1, tunnel);
      assert overrides[..i][..i - 1] == overrides[..i - 1];
    }
  }

  // ---------------------------------------------------------------- the reserved group

  /** GroupOf answers "all" exactly when the first override about the tunnel says so: the groups never do. */
  lemma AllComesFromAnOverride(c: Config, order: seq<string>, tunnel: Name, context: string)
    ensures GroupIn(c, order, tunnel, context) == ALL <==>
      OverrideOf(c.overrides, tunnel).Some? && Moved(OverrideOf(c.overrides, tunnel).value, context) == ALL
  {
    ListedUnderFinds(c, order, tunnel);
  }

  /** The reserved group is not never returned: an override can name it. */
  lemma AllCanBeReturned(context: string)
    ensures GroupIn(Config(map[], [Override("wg0", map[DEFAULT_CONTEXT := ALL])]), [], "wg0", context) == ALL
  {
    var o := Override("wg0", map[DEFAULT_CONTEXT := ALL]);
    assert [o][..0] == [];
    assert OverrideOf([o], "wg0") == Some(o);
  }

  // ---------------------------------------------------------------- members are what GroupOf puts there

  /** Each tunnel is listed once, in one group besides "all", and has one override at most. */
  ghost predicate WellFormed(c: Config) {
    && (forall g :: g in c.groups && g != ALL ==> Distinct(c.groups[g]))
    && (forall tunnel :: InOneGroupAtMost(c, tunnel))
    && DistinctOverrides(c.overrides)
  }

  lemma {:induction false} UnmovedAreThose(names: seq<Name>, overridden: set<Name>)
    ensures forall n :: n in Unmoved(names, overridden) <==> n in names && n !in overridden
    ensures Distinct(names) ==> Distinct(Unmoved(names, overridden))
  {
    if names != [] {
      var n := |names| - 1;
      UnmovedAreThose(names[..n], overridden);
      assert names == names[..n] + [names[n]];
    }
  }

  lemma {:induction false} MovedInAreThose(c: Config, overrides: seq<Override>, group: string, context: string)
    ensures forall n ::
      n in MovedIn(c, overrides, group, context) <==> n in Overridden(overrides) && GroupIn(c, [], n, context) == group
  {
    if overrides != [] {
      var n := |overrides| - 1;
      MovedInAreThose(c, overrides[..n], group, context);
      assert overrides == overrides[..n] + [overrides[n]];
      assert Overridden(overrides) == Overridden(overrides[..n]) + {overrides[n].tunnel};
    }
  }

  ghost predicate DistinctOverrides(overrides: seq<Override>) {
    forall i, j :: 0 <= i < j < |overrides| ==> overrides[i].tunnel != overrides[j].tunnel
  }

  lemma {:induction false} MovedInOnce(c: Config, overrides: seq<Override>, group: string, context: string)
    requires DistinctOverrides(overrides)
    ensures Distinct(MovedIn(c, overrides, group, context))
  {
    if overrides != [] {
      var n := |overrides| - 1;
      MovedInOnce(c, overrides[..n], group, context);
      MovedInAreThose(c, overrides[..n], group, context);
      assert overrides[n].tunnel !in Overridden(overrides[..n]);
    }
  }

  /**
   For every context and every group with a name, other than the reserved one, the members are exactly
   the tunnels GroupOf puts in the group, each once.
   */
  lemma MembersAreWhatGroupOfPutsThere(c: Config, order: seq<string>, group: string, context: string)
    requires WellFormed(c) && Enumerates(order, c.groups.Keys) && group != ALL && group != ""
    ensures Distinct(MembersOf(c, group, context))
    ensures forall tunnel :: tunnel in MembersOf(c, group, context) <==> GroupIn(c, order, tunnel, context) == group
  {
    var overridden := Overridden(c.overrides);
    UnmovedAreThose(Listed(c, group), overridden);
    MovedInAreThose(c, c.overrides, group, context);
    MovedInOnce(c, c.overrides, group, context);
    var stayed, moved := Unmoved(Listed(c, group), overridden), MovedIn(c, c.overrides, group, context);
    DistinctApart(stayed, moved);
    forall tunnel
      ensures tunnel in stayed + moved <==> GroupIn(c, order, tunnel, context) == group
    {
      SomeOverride(c.overrides, tunnel);
      ListedUnderExactly(c, order, group, tunnel);
    }
  }

  lemma DistinctApart(a: seq<Name>, b: seq<Name>)
    requires Distinct(a) && Distinct(b) && forall n :: n in a ==> n !in b
    ensures Distinct(a + b)
  {
    forall i, j | 0 <= i < j < |a + b|
      ensures (a + b)[i] != (a + b)[j]
    {
      assert i < |a| ==> (a + b)[i] in a;
      assert j >= |a| ==> (a + b)[j] in b;
    }
  }

  lemma ListedUnderExactly(c: Config, order: seq<string>, group: string, tunnel: Name)
    requires InOneGroupAtMost(c, tunnel) && Enumerates(order, c.groups.Keys) && group != ""
    ensures ListedUnder(c, order, tunnel) == group <==> ListedIn(c, group, tunnel)
  {
    ListedUnderFinds(c, order, tunnel);
    GroupsInOrder(c, order, group);
    if ListedIn(c, group, tunnel) {
      assert group in order && ListedIn(c, group, tunnel);
    }
  }
}
