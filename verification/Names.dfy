/** Tunnel names, and the one order everything is reported in. */
module Names {
  import opened Prelude

  type Name = string

  /** Character by character, a shorter name before the names it begins. */
  predicate AtMost(a: Name, b: Name) {
    a == [] || (b != [] && (a[0] < b[0] || (a[0] == b[0] && AtMost(a[1..], b[1..]))))
  }

  lemma {:induction false} AtMostIsTotal(a: Name, b: Name)
    ensures AtMost(a, b) || AtMost(b, a)
    ensures AtMost(a, b) && AtMost(b, a) ==> a == b
  {
    if a != [] && b != [] && a[0] == b[0] {
      AtMostIsTotal(a[1..], b[1..]);
      assert a == [a[0]] + a[1..] && b == [b[0]] + b[1..];
    }
  }

  /** Up to the first character where two names differ they are the same, and there the lower comes first. */
  lemma {:induction false} FirstDifferenceDecides(a: Name, b: Name, k: nat)
    requires k <= |a| && k <= |b| && a[..k] == b[..k] && (k < |a| && k < |b| ==> a[k] != b[k])
    ensures k == |a| ==> AtMost(a, b)
    ensures k < |a| ==> (AtMost(a, b) <==> k < |b| && a[k] < b[k])
  {
    if k > 0 {
      assert a[0] == a[..k][0] == b[0];
      assert a[1..][..k - 1] == a[..k][1..] == b[1..][..k - 1];
      FirstDifferenceDecides(a[1..], b[1..], k - 1);
    }
  }

  lemma {:induction false} AtMostIsTransitive(a: Name, b: Name, c: Name)
    requires AtMost(a, b) && AtMost(b, c)
    ensures AtMost(a, c)
  {
    if a != [] && a[0] == b[0] && b[0] == c[0] {
      AtMostIsTransitive(a[1..], b[1..], c[1..]);
    }
  }

  ghost predicate IsLeast(m: Name, names: set<Name>) {
    m in names && forall n :: n in names ==> AtMost(m, n)
  }

  lemma {:induction false} LeastExists(names: set<Name>)
    requires names != {}
    ensures exists m :: IsLeast(m, names)
  {
    var n :| n in names;
    AtMostIsTotal(n, n);
    if names == {n} {
      assert IsLeast(n, names);
    } else {
      LeastExists(names - {n});
      var rest :| IsLeast(rest, names - {n});
      AtMostIsTotal(n, rest);
      var m := if AtMost(n, rest) then n else rest;
      forall x | x in names
        ensures AtMost(m, x)
      {
        if x != n && m == n {
          AtMostIsTransitive(n, rest, x);
        }
      }
      assert IsLeast(m, names);
    }
  }

  /** Strictly ascending, so also without repeats. */
  ghost predicate Ascending(names: seq<Name>) {
    forall i, j :: 0 <= i < j < |names| ==> names[i] != names[j] && AtMost(names[i], names[j])
  }

  /** The names of a set in order. */
  ghost function Sorted(names: set<Name>): (r: seq<Name>)
    ensures Ascending(r) && Elements(r) == names
  {
    if names == {} then []
    else
      var m := LeastOf(names);
      var rest := Sorted(names - {m});
      SortedHead(m, rest, names);
      [m] + rest
  }

  ghost function LeastOf(names: set<Name>): (m: Name)
    requires names != {}
    ensures IsLeast(m, names)
  {
    LeastExists(names);
    var m :| IsLeast(m, names); m
  }

  lemma SortedHead(m: Name, rest: seq<Name>, names: set<Name>)
    requires IsLeast(m, names) && Ascending(rest) && Elements(rest) == names - {m}
    ensures Ascending([m] + rest) && Elements([m] + rest) == names
  {
    assert forall i :: 0 <= i < |rest| ==> rest[i] in Elements(rest);
    assert Elements([m] + rest) == {m} + Elements(rest);
  }

  /** There is only one ascending list of a set's names. */
  lemma {:induction false} AscendingIsUnique(a: seq<Name>, b: seq<Name>)
    requires Ascending(a) && Ascending(b) && Elements(a) == Elements(b)
    ensures a == b
  {
    assert a != [] ==> a[0] in Elements(a);
    assert b != [] ==> b[0] in Elements(b);
    if a != [] {
      AtMostIsTotal(a[0], b[0]);
      assert a[0] == b[0];
      assert forall x :: x in Elements(a[1..]) <==> x in Elements(a) && x != a[0];
      assert forall x :: x in Elements(b[1..]) <==> x in Elements(b) && x != b[0];
      AscendingIsUnique(a[1..], b[1..]);
    }
  }

  // ---------------------------------------------------------------- sorting as the programs do it

  function Insert(names: seq<Name>, n: Name): seq<Name> {
    if names == [] then [n]
    else if AtMost(n, names[0]) then [n] + names
    else [names[0]] + Insert(names[1..], n)
  }

  lemma {:induction false} InsertKeepsOrder(names: seq<Name>, n: Name)
    requires Ascending(names) && n !in names
    ensures Ascending(Insert(names, n)) && Elements(Insert(names, n)) == Elements(names) + {n}
  {
    if names != [] {
      var first, rest := names[0], names[1..];
      assert Elements(names) == {first} + Elements(rest);
      AtMostIsTotal(n, first);
      if AtMost(n, first) {
        forall i | 0 <= i < |names|
          ensures AtMost(n, names[i])
        {
          if i > 0 {
            AtMostIsTransitive(n, first, names[i]);
          }
        }
      } else {
        InsertKeepsOrder(rest, n);
        var inserted := Insert(rest, n);
        forall i | 0 <= i < |inserted|
          ensures first != inserted[i] && AtMost(first, inserted[i])
        {
          assert inserted[i] in Elements(inserted);
          if inserted[i] != n {
            var j :| 0 <= j < |rest| && rest[j] == inserted[i];
            assert rest[j] == names[j + 1];
          }
        }
        assert Elements([first] + inserted) == {first} + Elements(inserted);
      }
    }
  }

  method Sort(names: set<Name>) returns (sorted: seq<Name>)
    ensures sorted == Sorted(names)
  {
    sorted := [];
    var remaining := names;
    while remaining != {}
      invariant remaining <= names
      invariant Ascending(sorted) && Elements(sorted) == names - remaining
      decreases remaining
    {
      var n :| n in remaining;
      assert n !in sorted;
      InsertKeepsOrder(sorted, n);
      sorted := Insert(sorted, n);
      remaining := remaining - {n};
    }
    AscendingIsUnique(sorted, Sorted(names));
  }

  // ---------------------------------------------------------------- lists that may repeat a name

  /** Ascending, a name that is there twice next to itself. */
  ghost predicate InOrder(names: seq<Name>) {
    forall i, j :: 0 <= i < j < |names| ==> AtMost(names[i], names[j])
  }

  lemma {:induction false} InsertAddsOne(names: seq<Name>, n: Name)
    ensures multiset(Insert(names, n)) == multiset(names) + multiset{n}
  {
    if names != [] && !AtMost(n, names[0]) {
      InsertAddsOne(names[1..], n);
      HeadAndTail(names);
    }
  }

  lemma HeadAndTail(names: seq<Name>)
    requires names != []
    ensures multiset(names) == multiset{names[0]} + multiset(names[1..])
  {
    assert names == [names[0]] + names[1..];
  }

  lemma {:induction false} InsertStaysInOrder(names: seq<Name>, n: Name)
    requires InOrder(names)
    ensures InOrder(Insert(names, n))
  {
    if names != [] {
      var first, rest := names[0], names[1..];
      AtMostIsTotal(n, first);
      if AtMost(n, first) {
        forall i | 0 < i < |names|
          ensures AtMost(n, names[i])
        {
          AtMostIsTransitive(n, first, names[i]);
        }
      } else {
        InsertStaysInOrder(rest, n);
        InsertAddsOne(rest, n);
        var inserted := Insert(rest, n);
        forall i | 0 <= i < |inserted|
          ensures AtMost(first, inserted[i])
        {
          assert inserted[i] in multiset(inserted);
          assert inserted[i] == n || inserted[i] in rest;
        }
      }
    }
  }

  lemma LeastComesFirst(names: seq<Name>, n: Name)
    requires InOrder(names) && n in multiset(names)
    ensures names != [] && AtMost(names[0], n)
  {
    assert n in names;
    AtMostIsTotal(n, n);
  }

  /** There is only one way to put some names in order. */
  lemma {:induction false} InOrderIsUnique(a: seq<Name>, b: seq<Name>)
    requires InOrder(a) && InOrder(b) && multiset(a) == multiset(b)
    ensures a == b
  {
    if a == [] {
      assert |multiset(b)| == 0;
    } else {
      LeastComesFirst(b, a[0]);
      LeastComesFirst(a, b[0]);
      AtMostIsTotal(a[0], b[0]);
      HeadAndTail(a);
      HeadAndTail(b);
      assert multiset(a[1..]) == multiset(a) - multiset{a[0]};
      InOrderIsUnique(a[1..], b[1..]);
    }
  }

  method SortAll(names: seq<Name>) returns (sorted: seq<Name>)
    ensures InOrder(sorted) && multiset(sorted) == multiset(names)
  {
    sorted := [];
    for i := 0 to |names|
      invariant InOrder(sorted) && multiset(sorted) == multiset(names[..i])
    {
      assert names[..i + 1] == names[..i] + [names[i]];
      InsertStaysInOrder(sorted, names[i]);
      InsertAddsOne(sorted, names[i]);
      sorted := Insert(sorted, names[i]);
    }
    assert names[..|names|] == names;
  }
}
