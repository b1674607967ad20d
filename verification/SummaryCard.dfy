/** The card for several notifications at once: who sent them, how many each, and the wash of their kinds. */
module SummaryCard {
  import opened Options

  datatype Family = Needs | Talk | Plain | Good

  datatype Notice = Notice(id: string, sender: string, family: Family)

  const LINEUP_MAX := 6

  // ---- who sent them ---------------------------------------------------------------------------------------------

  /** Notices are one face's when they have one key: the sender's, or their own when the sender has none. */
  function Key(n: Notice): string { if n.sender != "" then n.sender else "id:" + n.id }

  datatype Group = Group(key: string, items: seq<Notice>)

  function Sizes(gs: seq<Group>): nat {
    if gs == [] then 0 else Sizes(gs[..|gs| - 1]) + |gs[|gs| - 1].items|
  }

  function Of(key: string, list: seq<Notice>): seq<Notice> {
    if list == [] then []
    else
      var front, last := list[..|list| - 1], list[|list| - 1];
      if Key(last) == key then Of(key, front) + [last] else Of(key, front)
  }

  /** The keys there are, each where it first comes up. */
  function Senders(list: seq<Notice>): seq<string> {
    if list == [] then []
    else
      var before, key := Senders(list[..|list| - 1]), Key(list[|list| - 1]);
      if key in before then before else before + [key]
  }

  function KeysOf(gs: seq<Group>): (keys: seq<string>)
    ensures |keys| == |gs| && forall k | 0 <= k < |gs| :: keys[k] == gs[k].key
  {
    seq(|gs|, k requires 0 <= k < |gs| => gs[k].key)
  }

  /** The groups are the notices by key: every one in its own, in order, none twice and none empty, first come first. */
  ghost predicate Grouped(gs: seq<Group>, list: seq<Notice>) {
    InOrder(gs, list) && KeysApart(gs) && Covers(gs, list) && Sizes(gs) == |list| && KeysOf(gs) == Senders(list)
  }

  /**
   * Two notices have one face exactly when they have the same sender; without senders, exactly when they are one. (A
   * sender written like another notice's own key would share its face.)
   */
  lemma OneFaceIff(a: Notice, b: Notice)
    ensures Key(a) == Key(b) <==>
      if a.sender != "" && b.sender != "" then a.sender == b.sender
      else if a.sender == "" && b.sender == "" then a.id == b.id
      else if a.sender == "" then b.sender == "id:" + a.id
      else a.sender == "id:" + b.id
  {
    if a.sender == "" && b.sender == "" && Key(a) == Key(b) {
      assert a.id == Key(a)[3..] && b.id == Key(b)[3..];
    }
  }

  lemma OfOnto(key: string, list: seq<Notice>, n: Notice)
    ensures Of(key, list + [n]) == if Key(n) == key then Of(key, list) + [n] else Of(key, list)
  {
    assert (list + [n])[..|list|] == list;
  }

  lemma {:induction false} OfNone(key: string, list: seq<Notice>)
    requires forall n | n in list :: Key(n) != key
    ensures Of(key, list) == []
    decreases |list|
  {
    if list != [] { OfNone(key, list[..|list| - 1]); }
  }

  lemma {:induction false} SizesSplit(gs: seq<Group>, k: nat)
    requires k <= |gs|
    ensures Sizes(gs) == Sizes(gs[..k]) + Sizes(gs[k..])
    decreases |gs|
  {
    if k == |gs| {
      assert gs[..k] == gs;
    } else {
      var front := gs[..|gs| - 1];
      SizesSplit(front, k);
      assert front[..k] == gs[..k] && gs[k..][..|gs| - k - 1] == front[k..];
    }
  }

  lemma {:induction false} OneMore(gs: seq<Group>, i: nat, n: Notice)
    requires i < |gs|
    ensures Sizes(gs[i := Group(gs[i].key, gs[i].items + [n])]) == Sizes(gs) + 1
    decreases |gs|
  {
    var hs := gs[i := Group(gs[i].key, gs[i].items + [n])];
    if i == |gs| - 1 {
      assert hs[..i] == gs[..i];
    } else {
      OneMore(gs[..|gs| - 1], i, n);
      assert hs[..|gs| - 1] == gs[..|gs| - 1][i := Group(gs[i].key, gs[i].items + [n])];
    }
  }

  /** One more notice: added to its sender's group `i`, or a group of its own at the end. */
  function Put(gs: seq<Group>, n: Notice, i: Option<nat>): seq<Group>
    requires i.Some? ==> i.value < |gs|
  {
    if i.Some? then gs[i.value := Group(gs[i.value].key, gs[i.value].items + [n])] else gs + [Group(Key(n), [n])]
  }

  predicate Fits(gs: seq<Group>, n: Notice, i: Option<nat>) {
    if i.Some? then i.value < |gs| && gs[i.value].key == Key(n) else forall k | 0 <= k < |gs| :: gs[k].key != Key(n)
  }

  ghost predicate InOrder(gs: seq<Group>, list: seq<Notice>) {
    forall i | 0 <= i < |gs| :: gs[i].items == Of(gs[i].key, list) && gs[i].items != []
  }

  ghost predicate Covers(gs: seq<Group>, list: seq<Notice>) {
    forall n | n in list :: HasKey(gs, Key(n))
  }

  predicate HasKey(gs: seq<Group>, key: string) { exists i | 0 <= i < |gs| :: gs[i].key == key }

  predicate KeysApart(gs: seq<Group>) { forall i, j | 0 <= i < j < |gs| :: gs[i].key != gs[j].key }

  lemma PutInOrder(gs: seq<Group>, list: seq<Notice>, n: Notice, i: Option<nat>)
    requires InOrder(gs, list) && KeysApart(gs) && Covers(gs, list) && Fits(gs, n, i)
    ensures InOrder(Put(gs, n, i), list + [n])
  {
    var hs := Put(gs, n, i);
    forall k | 0 <= k < |hs| ensures hs[k].items == Of(hs[k].key, list + [n]) && hs[k].items != [] {
      OfOnto(hs[k].key, list, n);
      if k == |gs| {
        forall m | m in list ensures Key(m) != Key(n) { assert HasKey(gs, Key(m)); }
        OfNone(Key(n), list);
      }
    }
  }

  lemma PutCovers(gs: seq<Group>, list: seq<Notice>, n: Notice, i: Option<nat>)
    requires Covers(gs, list) && Fits(gs, n, i)
    ensures Covers(Put(gs, n, i), list + [n])
  {
    var hs := Put(gs, n, i);
    forall m | m in list + [n] ensures HasKey(hs, Key(m)) {
      if m in list {
        assert HasKey(gs, Key(m));
        var k :| 0 <= k < |gs| && gs[k].key == Key(m);
        assert hs[k].key == Key(m);
      } else {
        assert hs[if i.Some? then i.value else |gs|].key == Key(m);
      }
    }
  }

  lemma PutSenders(gs: seq<Group>, list: seq<Notice>, n: Notice, i: Option<nat>)
    requires KeysOf(gs) == Senders(list) && Fits(gs, n, i)
    ensures KeysOf(Put(gs, n, i)) == Senders(list + [n])
  {
    assert (list + [n])[..|list|] == list;
    if i.Some? { assert KeysOf(gs)[i.value] == Key(n); }
  }

  lemma PutKeeps(gs: seq<Group>, list: seq<Notice>, n: Notice, i: Option<nat>)
    requires Grouped(gs, list) && Fits(gs, n, i)
    ensures Grouped(Put(gs, n, i), list + [n])
  {
    PutInOrder(gs, list, n, i);
    PutCovers(gs, list, n, i);
    PutSenders(gs, list, n, i);
    if i.Some? { OneMore(gs, i.value, n); } else { assert Put(gs, n, i)[..|gs|] == gs; }
  }

  /** Where each key's group is. */
  predicate Indexes(keyed: map<string, nat>, gs: seq<Group>) {
    && (forall k | k in keyed :: keyed[k] < |gs| && gs[keyed[k]].key == k)
    && (forall j | 0 <= j < |gs| :: gs[j].key in keyed)
  }

  lemma IndexesKeep(keyed: map<string, nat>, gs: seq<Group>, n: Notice)
    requires Indexes(keyed, gs)
    ensures Key(n) in keyed ==> Fits(gs, n, Some(keyed[Key(n)])) && Indexes(keyed, Put(gs, n, Some(keyed[Key(n)])))
    ensures Key(n) !in keyed ==> Fits(gs, n, None) && Indexes(keyed[Key(n) := |gs|], Put(gs, n, None))
  {
  }

  method GroupBySender(list: seq<Notice>) returns (groups: seq<Group>)
    ensures Grouped(groups, list)
  {
    groups := [];
    var keyed: map<string, nat> := map[];
    for i := 0 to |list|
      invariant Grouped(groups, list[..i])
      invariant Indexes(keyed, groups)
    {
      var x := list[i];
      assert list[..i + 1] == list[..i] + [x];
      IndexesKeep(keyed, groups, x);
      if Key(x) !in keyed {
        PutKeeps(groups, list[..i], x, None);
        keyed := keyed[Key(x) := |groups|];
        groups := groups + [Group(Key(x), [x])];
      } else {
        var at := keyed[Key(x)];
        PutKeeps(groups, list[..i], x, Some(at));
        groups := groups[at := Group(groups[at].key, groups[at].items + [x])];
      }
    }
    assert list[..|list|] == list;
  }

  /** What is drawn: the number by each face (one update has none written, and stands for one), and the +N, if any. */
  datatype Lineup = Lineup(total: nat, faces: seq<nat>, more: Option<nat>)

  function Sum(ns: seq<nat>): nat { if ns == [] then 0 else Sum(ns[..|ns| - 1]) + ns[|ns| - 1] }

  lemma {:induction false} FacesSum(gs: seq<Group>, faces: seq<nat>)
    requires |faces| == |gs| && forall k | 0 <= k < |gs| :: faces[k] == |gs[k].items|
    ensures Sum(faces) == Sizes(gs)
    decreases |gs|
  {
    if gs != [] { FacesSum(gs[..|gs| - 1], faces[..|gs| - 1]); }
  }

  /** The faces are the first groups', six at most and fewer only when there are no more. */
  ghost predicate ShownFrom(gs: seq<Group>, list: seq<Notice>, faces: seq<nat>) {
    && Grouped(gs, list) && |faces| <= |gs| && (|faces| < |gs| ==> |faces| == 6)
    && forall k | 0 <= k < |faces| :: faces[k] == |gs[k].items|
  }

  /**
   * The card counts every notification once: the faces' numbers and the +N are the total, which is all there are unread
   * when that is more than were sent along. Nobody is shown twice, at most six are shown, and +N is there only when it
   * is needed.
   */
  method Summary(list: seq<Notice>, unread: Option<nat>) returns (r: Lineup)
    ensures r.total == if unread.Some? && unread.value > |list| then unread.value else |list|
    ensures Sum(r.faces) + (if r.more.Some? then r.more.value else 0) == r.total
    ensures |r.faces| <= 6 && (forall k | 0 <= k < |r.faces| :: r.faces[k] > 0)
    ensures r.more.Some? ==> r.more.value > 0
    ensures r.more.None? ==> r.total == |list|
    ensures exists gs: seq<Group> :: ShownFrom(gs, list, r.faces)
  {
    var unreadTotal := if unread.Some? then unread.value else 0;
    var total := if unreadTotal > |list| then unreadTotal else |list|;
    var beyond := total - |list|;
    var groups := GroupBySender(list);
    var k := if |groups| > LINEUP_MAX then LINEUP_MAX else |groups|;
    var shown, hidden := groups[..k], groups[k..];
    SizesSplit(groups, k);
    var faces: seq<nat> := seq(|shown|, i requires 0 <= i < |shown| => |shown[i].items|);
    FacesSum(shown, faces);
    var more := None;
    if |hidden| > 0 || beyond > 0 {
      if |hidden| > 0 { NoneEmpty(hidden); }
      more := Some(Sizes(hidden) + beyond);
    }
    r := Lineup(total, faces, more);
    assert ShownFrom(groups, list, faces);
  }

  lemma {:induction false} NoneEmpty(gs: seq<Group>)
    requires gs != [] && forall k | 0 <= k < |gs| :: gs[k].items != []
    ensures Sizes(gs) > 0
  {
  }

  // ---- the wash of their kinds -----------------------------------------------------------------------------------

  /** One kind's colour holds from `a` to `b`, in tenths of a per cent: the stops have one decimal. */
  datatype Hold = Hold(family: Family, a: nat, b: nat)

  datatype Part = Part(family: Family, n: nat)

  /**
   * A place on the wash is a number of parts of a per cent so small that shares, and 18 hundredths of them, are whole.
   */
  const WHOLE := 10000

  /** How many times `d` goes into `x`. */
  function Times(x: nat, d: nat): (q: nat)
    requires d > 0
    ensures q * d <= x < q * d + d
  {
    if x < d then 0 else 1 + Times(x - d, d)
  }

  /** The place `x` of `t` times `WHOLE`, rounded to one decimal, halves up. */
  function Rounded(x: nat, t: nat): nat
    requires t > 0
  {
    Times(x + 5 * t, 10 * t)
  }

  /** It is the nearest place of one decimal. */
  lemma RoundedIsNearest(x: nat, t: nat)
    requires t > 0
    ensures Rounded(x, t) * (10 * t) - 5 * t <= x < Rounded(x, t) * (10 * t) + 5 * t
  {
    assert Times(x + 5 * t, 10 * t) * (10 * t) <= x + 5 * t;
  }

  lemma {:induction false} TimesKeepsOrder(x: nat, y: nat, d: nat)
    requires x <= y && d > 0
    ensures Times(x, d) <= Times(y, d)
  {
    if x >= d { TimesKeepsOrder(x - d, y - d, d); }
  }

  lemma {:induction false} TimesOf(q: nat, r: nat, d: nat)
    requires r < d
    ensures Times(q * d + r, d) == q
  {
    if q > 0 {
      assert q * d + r - d == (q - 1) * d + r;
      TimesOf(q - 1, r, d);
    }
  }

  lemma RoundedKeepsOrder(x: nat, y: nat, t: nat)
    requires x <= y && t > 0
    ensures Rounded(x, t) <= Rounded(y, t)
  {
    TimesKeepsOrder(x + 5 * t, y + 5 * t, 10 * t);
  }

  lemma RoundedEnds(t: nat)
    requires t > 0
    ensures Rounded(0, t) == 0 && Rounded(WHOLE * t, t) == 1000
  {
    TimesOf(0, 5 * t, 10 * t);
    TimesOf(1000, 5 * t, 10 * t);
  }

  function Total(parts: seq<Part>): nat {
    if parts == [] then 0 else Total(parts[..|parts| - 1]) + parts[|parts| - 1].n
  }

  predicate AnyWait(parts: seq<Part>) { Total(parts) > 0 }

  lemma {:induction false} TotalGrows(parts: seq<Part>, k: nat)
    requires k <= |parts|
    ensures Total(parts[..k]) <= Total(parts)
    decreases |parts|
  {
    if k < |parts| {
      TotalGrows(parts[..|parts| - 1], k);
      assert parts[..|parts| - 1][..k] == parts[..k];
    } else {
      assert parts[..k] == parts;
    }
  }

  /** Where the part after the first `k` begins: exactly their share of the whole. */
  function From(parts: seq<Part>, k: nat): nat
    requires k <= |parts|
  {
    WHOLE * Total(parts[..k])
  }

  lemma FromGrows(parts: seq<Part>, k: nat)
    requires k < |parts|
    ensures From(parts, k + 1) == From(parts, k) + WHOLE * parts[k].n <= WHOLE * Total(parts)
  {
    assert parts[..k + 1][..k] == parts[..k];
    TotalGrows(parts, k + 1);
  }

  lemma FromEnds(parts: seq<Part>)
    ensures From(parts, 0) == 0 && From(parts, |parts|) == WHOLE * Total(parts)
  {
    assert parts[..|parts|] == parts && parts[..0] == [];
  }

  /** From 0 to 100 per cent without a step back, each kind once and in order. */
  ghost predicate Flows(holds: seq<Hold>, parts: seq<Part>) {
    && |holds| == |parts|
    && (forall i | 0 <= i < |holds| :: holds[i].family == parts[i].family && holds[i].a <= holds[i].b <= 1000)
    && (forall i | 0 < i < |holds| :: holds[i - 1].b <= holds[i].a)
    && (holds != [] ==> holds[0].a == 0 && holds[|holds| - 1].b == 1000)
  }

  /** The soft edge between kinds: 18 hundredths of the part, 6 per cent at most. */
  function Pad(from: nat, to: nat, t: nat): (pad: nat)
    requires from <= to
    ensures from + pad <= to - pad
  {
    var share := (to - from) * 18 / 100;
    if share < 6 * (WHOLE / 100) * t then share else 6 * (WHOLE / 100) * t
  }

  /** What a part from `from` to `to` holds: its middle, softened where it has a neighbour and to the end where none. */
  function PartHold(family: Family, from: nat, to: nat, t: nat, first: bool, last: bool): Hold
    requires t > 0 && from <= to
  {
    Hold(family, if first then 0 else Rounded(from + Pad(from, to, t), t),
         if last then 1000 else Rounded(to - Pad(from, to, t), t))
  }

  /** It holds that, and within its share. */
  ghost predicate HoldsPart(h: Hold, from: nat, to: nat, t: nat, first: bool, last: bool)
    requires t > 0 && from <= to
  {
    h == PartHold(h.family, from, to, t, first, last) && Rounded(from, t) <= h.a <= h.b <= Rounded(to, t) <= 1000
  }

  ghost predicate HoldsAt(h: Hold, parts: seq<Part>, i: nat)
    requires i < |parts| && AnyWait(parts)
  {
    && h.family == parts[i].family && From(parts, i) <= From(parts, i + 1)
    && HoldsPart(h, From(parts, i), From(parts, i + 1), Total(parts), i == 0, i == |parts| - 1)
  }

  lemma PadIs(from: nat, to: nat, t: nat)
    requires from <= to
    ensures 100 * Pad(from, to, t) <= 18 * (to - from) && Pad(from, to, t) <= 600 * t
    ensures Pad(from, to, t) == 600 * t || 18 * (to - from) < 100 * Pad(from, to, t) + 100
  {
    var share := (to - from) * 18;
    assert 100 * (share / 100) <= share < 100 * (share / 100) + 100;
  }

  lemma Softened(from: nat, to: nat, t: nat)
    requires t > 0 && from <= to <= WHOLE * t
    ensures var pad := Pad(from, to, t);
      Rounded(from, t) <= Rounded(from + pad, t) <= Rounded(to - pad, t) <= Rounded(to, t) <= 1000
  {
    var pad := Pad(from, to, t);
    RoundedKeepsOrder(from, from + pad, t);
    RoundedKeepsOrder(from + pad, to - pad, t);
    RoundedKeepsOrder(to - pad, to, t);
    RoundedKeepsOrder(to, WHOLE * t, t);
    RoundedEnds(t);
  }

  lemma HoldFits(family: Family, from: nat, to: nat, t: nat, first: bool, last: bool)
    requires t > 0 && from <= to <= WHOLE * t && (first ==> from == 0) && (last ==> to == WHOLE * t)
    ensures HoldsPart(PartHold(family, from, to, t, first, last), from, to, t, first, last)
  {
    Softened(from, to, t);
    RoundedEnds(t);
  }

  /** Kinds that each hold their own part follow one another. */
  lemma PartsFlow(holds: seq<Hold>, parts: seq<Part>)
    requires AnyWait(parts) && |holds| == |parts| && forall i | 0 <= i < |parts| :: HoldsAt(holds[i], parts, i)
    ensures Flows(holds, parts)
  {
    forall i | 0 < i < |holds| ensures holds[i - 1].b <= holds[i].a {
      assert HoldsAt(holds[i - 1], parts, i - 1) && HoldsAt(holds[i], parts, i);
    }
    forall i | 0 <= i < |holds|
      ensures holds[i].family == parts[i].family && holds[i].a <= holds[i].b <= 1000
    {
      assert HoldsAt(holds[i], parts, i);
    }
    if holds != [] { assert HoldsAt(holds[0], parts, 0) && HoldsAt(holds[|holds| - 1], parts, |holds| - 1); }
  }

  lemma HoldsNext(parts: seq<Part>, i: nat)
    requires i < |parts| && AnyWait(parts)
    ensures From(parts, i) <= From(parts, i + 1)
    ensures From(parts, i + 1) == if i == |parts| - 1 then WHOLE * Total(parts) else From(parts, i) + WHOLE * parts[i].n
    ensures HoldsAt(PartHold(parts[i].family, From(parts, i), From(parts, i + 1), Total(parts), i == 0,
      i == |parts| - 1),
                    parts, i)
  {
    FromEnds(parts);
    FromGrows(parts, i);
    HoldFits(parts[i].family, From(parts, i), From(parts, i + 1), Total(parts), i == 0, i == |parts| - 1);
  }

  /**
   * The colours' places, from 0 to 100 without a step back, rounding and all: each kind holds the middle of its share,
   * softened by up to 6 per cent at an edge it has with another.
   */
  method Mix(parts: seq<Part>) returns (holds: seq<Hold>)
    requires AnyWait(parts)
    ensures |holds| == |parts|
    ensures forall i | 0 <= i < |parts| :: HoldsAt(holds[i], parts, i)
    ensures Flows(holds, parts)
  {
    var total := Total(parts);
    FromEnds(parts);
    var at := 0;
    holds := [];
    for i := 0 to |parts|
      invariant |holds| == i && at == From(parts, i)
      invariant forall k | 0 <= k < i :: HoldsAt(holds[k], parts, k)
    {
      HoldsNext(parts, i);
      var from := at;
      var to := if i == |parts| - 1 then WHOLE * total else at + WHOLE * parts[i].n;
      at := to;
      var pad := Pad(from, to, total);
      var a := if i == 0 then 0 else Rounded(from + pad, total);
      var b := if i == |parts| - 1 then 1000 else Rounded(to - pad, total);
      holds := holds + [Hold(parts[i].family, a, b)];
    }
    PartsFlow(holds, parts);
  }

  /** How many there are of each kind; anything but a number above none counts as none. */
  datatype Counts = Counts(needs: int, talk: int, plain: int, good: int)

  function CountOf(c: Counts, f: Family): int {
    match f
    case Needs => c.needs
    case Talk => c.talk
    case Plain => c.plain
    case Good => c.good
  }

  const FAMILY_ORDER := [Needs, Talk, Plain, Good]

  /** The kinds there are any of, in the order they are drawn. */
  function Waiting(families: seq<Family>, c: Counts): (r: seq<Part>)
    ensures forall i | 0 <= i < |r| :: r[i].n > 0 && r[i].n == CountOf(c, r[i].family) && r[i].family in families
    ensures forall f | f in families && CountOf(c, f) > 0 :: Part(f, CountOf(c, f)) in r
  {
    if families == [] then []
    else
      var rest := Waiting(families[1..], c);
      if CountOf(c, families[0]) > 0 then [Part(families[0], CountOf(c, families[0]))] + rest else rest
  }

  /** The wash for any counts: every kind waiting and no other, or the plain one alone when nothing waits. */
  method Wash(c: Counts) returns (holds: seq<Hold>)
    ensures var parts := Waiting(FAMILY_ORDER, c);
      if parts == [] then holds == [Hold(Plain, 0, 1000)] else Flows(holds, parts)
  {
    var parts := Waiting(FAMILY_ORDER, c);
    if !AnyWait(parts) { return [Hold(Plain, 0, 1000)]; }
    holds := Mix(parts);
  }
}
