/** Some of a list, in its order. */
module Sublists {
  predicate InOrder<T(==)>(some: seq<T>, all: seq<T>)
    decreases |all|
  {
    some == [] || (all != [] && if some[0] == all[0] then InOrder(some[1..], all[1..]) else InOrder(some, all[1..]))
  }

  lemma {:induction false} SkippingOne<T>(some: seq<T>, all: seq<T>)
    requires all != [] && InOrder(some, all[1..])
    ensures InOrder(some, all)
    decreases |all|, 0
  {
    if some != [] && some[0] == all[0] { SkippingFirst(some, all[1..]); }
  }

  lemma {:induction false} SkippingFirst<T>(some: seq<T>, all: seq<T>)
    requires some != [] && InOrder(some, all)
    ensures InOrder(some[1..], all)
    decreases |all|, 1
  {
    if some[0] == all[0] {
      SkippingOne(some[1..], all);
    } else {
      SkippingFirst(some, all[1..]);
      SkippingOne(some[1..], all);
    }
  }
}
