/** The pager's order: what waits on the person first, then newest, then by id. */
module PagerOrder {
  type Id = string

  datatype Notice = Notice(id: Id, group: string, at: int)

  function Rank(group: string): nat {
    match group
    case "ask" => 0
    case "time" => 1
    case "people" => 2
    case "good" => 4
    case _ => 3
  }

  /** Strings as the language compares them: by their first difference, a prefix before what it starts. */
  predicate TextLess(a: string, b: string) {
    if b == "" then false
    else if a == "" then true
    else a[0] < b[0] || (a[0] == b[0] && TextLess(a[1..], b[1..]))
  }

  /** Whether the comparator puts x strictly before y. */
  predicate Precedes(x: Notice, y: Notice) {
    || Rank(x.group) < Rank(y.group)
    || (Rank(x.group) == Rank(y.group) && (x.at > y.at || (x.at == y.at && TextLess(x.id, y.id))))
  }

  function Insert(x: Notice, s: seq<Notice>): seq<Notice> {
    if s == [] then [x] else if Precedes(s[0], x) then [s[0]] + Insert(x, s[1..]) else [x] + s
  }

  /** The sort, keeping the order of what compares equal. */
  function Sorted(items: seq<Notice>): seq<Notice> {
    if items == [] then [] else Insert(items[0], Sorted(items[1..]))
  }

  function IdsOf(items: seq<Notice>): (ids: seq<Id>)
    ensures |ids| == |items| && forall k | 0 <= k < |items| :: ids[k] == items[k].id
  {
    seq(|items|, k requires 0 <= k < |items| => items[k].id)
  }

  function Order(items: seq<Notice>): seq<Id> { IdsOf(Sorted(items)) }

  // ---- the comparator is a total order on distinct ids -----------------------------------------------------------

  lemma {:induction false} TextIrreflexive(a: string)
    ensures !TextLess(a, a)
  {
    if a != "" { TextIrreflexive(a[1..]); }
  }

  lemma {:induction false} TextTotal(a: string, b: string)
    ensures a == b || TextLess(a, b) || TextLess(b, a)
    ensures !(TextLess(a, b) && TextLess(b, a))
  {
    if a != "" && b != "" {
      TextTotal(a[1..], b[1..]);
      if a[0] == b[0] && a[1..] == b[1..] { assert a == [a[0]] + a[1..] && b == [b[0]] + b[1..]; }
    }
  }

  lemma {:induction false} TextTransitive(a: string, b: string, c: string)
    requires TextLess(a, b) && TextLess(b, c)
    ensures TextLess(a, c)
  {
    if a != "" && a[0] == b[0] && b[0] == c[0] { TextTransitive(a[1..], b[1..], c[1..]); }
  }

  lemma Total(x: Notice, y: Notice)
    ensures x.id != y.id ==> Precedes(x, y) || Precedes(y, x)
    ensures !(Precedes(x, y) && Precedes(y, x))
  {
    TextTotal(x.id, y.id);
  }

  lemma Transitive(x: Notice, y: Notice, z: Notice)
    requires Precedes(x, y) && Precedes(y, z)
    ensures Precedes(x, z)
  {
    if x.at == y.at == z.at && Rank(x.group) == Rank(y.group) == Rank(z.group) { TextTransitive(x.id, y.id, z.id); }
  }

  // ---- the sort --------------------------------------------------------------------------------------------------

  ghost predicate Ascending(s: seq<Notice>) {
    forall i, j | 0 <= i < j < |s| :: !Precedes(s[j], s[i])
  }

  ghost predicate DistinctIds(s: seq<Notice>) {
    forall i, j | 0 <= i < j < |s| :: s[i].id != s[j].id
  }

  lemma NotAfter(x: Notice, y: Notice, z: Notice)
    requires !Precedes(y, x) && !Precedes(z, y)
    ensures !Precedes(z, x)
  {
    if Precedes(z, x) {
      if y.id != x.id { Total(x, y); } else { TextIrreflexive(x.id); }
      if z.id != y.id { Total(y, z); } else { TextIrreflexive(y.id); }
      if Precedes(x, y) { Transitive(z, x, y); }
      if Precedes(y, z) { Transitive(y, z, x); }
    }
  }

  lemma {:induction false} InsertHas(x: Notice, s: seq<Notice>)
    ensures multiset(Insert(x, s)) == multiset(s) + multiset{x}
  {
    if s != [] {
      assert s == [s[0]] + s[1..];
      if Precedes(s[0], x) { InsertHas(x, s[1..]); }
    }
  }

  /** What is put first, after nothing that follows, leaves an ascending sequence ascending. */
  lemma AscendingFrom(x: Notice, s: seq<Notice>)
    requires Ascending(s) && forall y | y in s :: !Precedes(y, x)
    ensures Ascending([x] + s)
  {
  }

  lemma {:induction false} InsertFacts(x: Notice, s: seq<Notice>)
    requires Ascending(s)
    ensures Ascending(Insert(x, s)) && multiset(Insert(x, s)) == multiset(s) + multiset{x}
  {
    InsertHas(x, s);
    if s != [] {
      if Precedes(s[0], x) {
        InsertFacts(x, s[1..]);
        var r := Insert(x, s[1..]);
        forall y | y in r ensures !Precedes(y, s[0]) {
          assert y in multiset(r);
          if y == x { Total(x, s[0]); } else { assert y in s[1..]; }
        }
        AscendingFrom(s[0], r);
      } else {
        forall y | y in s ensures !Precedes(y, x) {
          var k :| 0 <= k < |s| && s[k] == y;
          if k > 0 { NotAfter(x, s[0], y); }
        }
        AscendingFrom(x, s);
      }
    }
  }

  /** The order is a permutation of what came in, sorted by group, then newest, then id. */
  lemma {:induction false} SortedFacts(items: seq<Notice>)
    ensures Ascending(Sorted(items)) && multiset(Sorted(items)) == multiset(items)
  {
    if items != [] {
      assert items == [items[0]] + items[1..];
      SortedFacts(items[1..]);
      InsertFacts(items[0], Sorted(items[1..]));
    }
  }

  lemma SameFirst(a: seq<Notice>, b: seq<Notice>)
    requires a != [] && b != [] && a[0] in b && b[0] in a && Ascending(a) && Ascending(b)
    requires a[0].id == b[0].id ==> a[0] == b[0]
    ensures a[0] == b[0]
  {
    var i :| 0 <= i < |b| && b[i] == a[0];
    var j :| 0 <= j < |a| && a[j] == b[0];
    Total(a[0], b[0]);
  }

  /** No two notices share an id. */
  ghost predicate OneEach(s: multiset<Notice>) {
    forall x, y | x in s && y in s :: x.id == y.id ==> x == y
  }

  lemma HeadOut(a: seq<Notice>)
    requires a != []
    ensures multiset(a[1..]) == multiset(a) - multiset{a[0]} && a[0] in multiset(a)
    ensures Ascending(a) ==> Ascending(a[1..])
  {
    assert a == [a[0]] + a[1..];
  }

  lemma FewerEach(s: multiset<Notice>, x: Notice)
    requires OneEach(s)
    ensures OneEach(s - multiset{x})
  {
  }

  lemma SameHead(a: seq<Notice>, b: seq<Notice>)
    requires a != [] && multiset(a) == multiset(b) && Ascending(a) && Ascending(b) && OneEach(multiset(a))
    ensures b != [] && a[0] == b[0]
  {
    HeadOut(a);
    assert a[0] in multiset(b);
    HeadOut(b);
    assert b[0] in multiset(a);
    SameFirst(a, b);
  }

  lemma {:induction false} OneSorting(a: seq<Notice>, b: seq<Notice>)
    requires multiset(a) == multiset(b) && Ascending(a) && Ascending(b) && OneEach(multiset(a))
    ensures a == b
    decreases |a|
  {
    if a == [] {
      assert |multiset(b)| == 0;
    } else {
      SameHead(a, b);
      HeadOut(a);
      HeadOut(b);
      FewerEach(multiset(a), a[0]);
      OneSorting(a[1..], b[1..]);
      assert a == [a[0]] + a[1..] && b == [a[0]] + b[1..];
    }
  }

  /** For distinct ids the order does not depend on the order they came in. */
  lemma OrderIsCanonical(a: seq<Notice>, b: seq<Notice>)
    requires multiset(a) == multiset(b) && DistinctIds(a)
    ensures Order(a) == Order(b)
  {
    SortedFacts(a);
    SortedFacts(b);
    forall x, y | x in multiset(a) && y in multiset(a) && x.id == y.id ensures x == y {
      var i :| 0 <= i < |a| && a[i] == x;
      var j :| 0 <= j < |a| && a[j] == y;
    }
    OneSorting(Sorted(a), Sorted(b));
  }

  // ---- what comes before what ------------------------------------------------------------------------------------

  /** They are alike up to `k`, where `a` ends or has the smaller character. */
  predicate DiffersAt(a: string, b: string, k: nat) {
    && k <= |a| && k < |b| && a[..k] == b[..k] && (k < |a| ==> a[k] < b[k])
  }

  lemma {:induction false} TextLessIff(a: string, b: string)
    ensures TextLess(a, b) <==> exists k: nat :: DiffersAt(a, b, k)
  {
    if b != "" && a != "" {
      TextLessIff(a[1..], b[1..]);
      if a[0] == b[0] && TextLess(a[1..], b[1..]) {
        var k: nat :| DiffersAt(a[1..], b[1..], k);
        assert a[..k + 1] == [a[0]] + a[1..][..k] && b[..k + 1] == [b[0]] + b[1..][..k];
        assert DiffersAt(a, b, k + 1);
      }
      if a[0] < b[0] { assert DiffersAt(a, b, 0); }
      if k: nat :| DiffersAt(a, b, k) {
        if k > 0 {
          assert a[0] == a[..k][0] == b[..k][0] == b[0];
          assert a[1..][..k - 1] == a[..k][1..] && b[1..][..k - 1] == b[..k][1..];
          assert DiffersAt(a[1..], b[1..], k - 1);
        }
      }
    } else if b != "" {
      assert DiffersAt(a, b, 0);
    }
  }

  predicate Other(group: string) { group !in {"ask", "time", "people", "good"} }

  /**
   * Of any two in the pager's order: asks stand first, then what is due, then people, and good news last, with all
   * else before it; of one kind the newer stands first, and of one time the one whose id is first as text.
   */
  lemma WhatComesFirst(items: seq<Notice>, i: nat, j: nat)
    requires i < j < |Sorted(items)|
    ensures |Order(items)| == |Sorted(items)| && Order(items)[i] == Sorted(items)[i].id
    ensures var x, y := Sorted(items)[i], Sorted(items)[j];
      && x in items && y in items
      && (y.group == "ask" ==> x.group == "ask")
      && (y.group == "time" ==> x.group in {"ask", "time"})
      && (y.group == "people" ==> x.group in {"ask", "time", "people"})
      && (x.group == "good" ==> y.group == "good")
      && (x.group == y.group || (Other(x.group) && Other(y.group)) ==>
            x.at >= y.at && (x.at == y.at ==> x.id == y.id || exists k: nat :: DiffersAt(x.id, y.id, k)))
  {
    SortedFacts(items);
    var x, y := Sorted(items)[i], Sorted(items)[j];
    assert x in multiset(Sorted(items)) && y in multiset(Sorted(items));
    assert !Precedes(y, x);
    TextTotal(x.id, y.id);
    TextLessIff(x.id, y.id);
  }
}
