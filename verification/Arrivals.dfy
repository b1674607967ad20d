/** What arrives in the notch: one decision a poll, and what each run of polls delivers. Times are milliseconds. */
module Arrivals {
  import opened Options
  import opened Sublists

  type Id = string

  datatype Item = Item(id: Id, at: Option<int>)

  datatype Queue = Queue(known: map<Id, int>, held: set<Id>, shown: set<Id>, newest: Option<int>)

  datatype Input = Input(list: seq<Item>, now: int, cardOpen: bool, pagerOpen: bool, quiet: bool, away: bool)

  datatype Action = PagerInsert | Bar | Hold | Summary | Single | Nothing

  datatype Decision = Decision(action: Action, ids: seq<Id>, arrived: seq<Id>, queue: Queue)

  const INITIAL := Queue(map[], {}, {}, None)
  const SKEW_MS := 30_000

  // ---- the decision, as a function -------------------------------------------------------------------------------

  function Ids(list: seq<Item>): (ids: seq<Id>)
    ensures |ids| == |list| && forall k | 0 <= k < |list| :: ids[k] == list[k].id
  {
    seq(|list|, k requires 0 <= k < |list| => list[k].id)
  }

  function IdSet(list: seq<Item>): set<Id> {
    set x | x in list :: x.id
  }

  /** Newer than anything seen before, give or take the skew (or without a time, or the first poll). */
  predicate Arrives(x: Item, before: Option<int>) {
    before.None? || x.at.None? || x.at.value > before.value - SKEW_MS
  }

  function FreshOf(known: set<Id>, before: Option<int>, list: seq<Item>): seq<Id>
    decreases |list|
  {
    if list == [] then []
    else if list[0].id in known then FreshOf(known, before, list[1..])
    else (if Arrives(list[0], before) then [list[0].id] else []) + FreshOf(known + {list[0].id}, before, list[1..])
  }

  function Later(newest: Option<int>, at: Option<int>): Option<int> {
    if at.Some? && (newest.None? || at.value > newest.value) then at else newest
  }

  function NewestOf(before: Option<int>, list: seq<Item>): Option<int>
    decreases |list|
  {
    if list == [] then before else NewestOf(Later(before, list[0].at), list[1..])
  }

  function KnownAfter(known: map<Id, int>, list: seq<Item>, now: int): map<Id, int> {
    map id | id in IdSet(list) :: if id in known then known[id] else now
  }

  function Select(ids: seq<Id>, wanted: set<Id>): seq<Id> {
    if ids == [] then [] else (if ids[0] in wanted then [ids[0]] else []) + Select(ids[1..], wanted)
  }

  function ToSet(ids: seq<Id>): set<Id> { set id | id in ids }

  function Decide(q: Queue, input: Input): Decision {
    var here := IdSet(input.list);
    var arrived := FreshOf(q.known.Keys, q.newest, input.list);
    var known, held, shown := KnownAfter(q.known, input.list, input.now), q.held * here, q.shown * here;
    var newest := NewestOf(q.newest, input.list);
    if input.pagerOpen then Decision(PagerInsert, arrived, arrived, Queue(known, held, shown + ToSet(arrived), newest))
    else if input.cardOpen then Decision(Bar, arrived, arrived, Queue(known, held, shown + ToSet(arrived), newest))
    else if input.quiet || input.away then
      Decision(Hold, arrived, arrived, Queue(known, held + ToSet(arrived), shown, newest))
    else
      var due := Select(Ids(input.list), held + ToSet(arrived) - shown);
      Decision(if |due| >= 2 then Summary else if |due| == 1 then Single else Nothing, due, arrived,
               Queue(known, {}, shown + ToSet(due), newest))
  }

  function MarkedShown(q: Queue, id: Id, now: int): Queue {
    if id == "" then q
    else
      q.(known := if id in q.known then q.known else q.known[id := now], shown := q.shown + {id}, held := q.held - {id})
  }

  // ---- the same, as the code steps through it --------------------------------------------------------------------

  lemma IdSetCons(list: seq<Item>)
    requires list != []
    ensures IdSet(list) == {list[0].id} + IdSet(list[1..])
  {
    assert list == [list[0]] + list[1..];
  }

  lemma {:induction false} FreshSnoc(known: set<Id>, before: Option<int>, list: seq<Item>, x: Item)
    ensures FreshOf(known, before, list + [x]) == FreshOf(known, before, list)
            + if x.id in known + IdSet(list) || !Arrives(x, before) then [] else [x.id]
    decreases |list|
  {
    if list == [] {
      assert list + [x] == [x];
    } else {
      var rest := list[1..];
      assert (list + [x])[1..] == rest + [x];
      IdSetCons(list);
      if list[0].id in known {
        FreshSnoc(known, before, rest, x);
      } else {
        FreshSnoc(known + {list[0].id}, before, rest, x);
      }
      assert known + {list[0].id} + IdSet(rest) == known + IdSet(list);
    }
  }

  lemma {:induction false} NewestSnoc(before: Option<int>, list: seq<Item>, x: Item)
    ensures NewestOf(before, list + [x]) == Later(NewestOf(before, list), x.at)
    decreases |list|
  {
    if list == [] {
      assert list + [x] == [x];
    } else {
      assert (list + [x])[1..] == list[1..] + [x];
      NewestSnoc(Later(before, list[0].at), list[1..], x);
    }
  }

  lemma IdSetSnoc(list: seq<Item>, x: Item)
    ensures IdSet(list + [x]) == IdSet(list) + {x.id}
  {
    forall y | y in list ensures y in list + [x] { }
  }

  lemma OneMoreScanned(q: Queue, list: seq<Item>, k: nat)
    requires k < |list|
    ensures var before, x := list[..k], list[k];
      && FreshOf(q.known.Keys, q.newest, list[..k + 1]) == FreshOf(q.known.Keys, q.newest, before)
         + (if x.id in q.known.Keys + IdSet(before) || !Arrives(x, q.newest) then [] else [x.id])
      && NewestOf(q.newest, list[..k + 1]) == Later(NewestOf(q.newest, before), x.at)
      && IdSet(list[..k + 1]) == IdSet(before) + {x.id}
  {
    assert list[..k + 1] == list[..k] + [list[k]];
    FreshSnoc(q.known.Keys, q.newest, list[..k], list[k]);
    NewestSnoc(q.newest, list[..k], list[k]);
    IdSetSnoc(list[..k], list[k]);
  }

  /** The loop over what is listed: what arrived, the newest time, and everything known so far. */
  method Scan(q: Queue, list: seq<Item>, now: int) returns (arrived: seq<Id>, newest: Option<int>, known: map<Id, int>)
    ensures arrived == FreshOf(q.known.Keys, q.newest, list) && newest == NewestOf(q.newest, list)
    ensures known.Keys == q.known.Keys + IdSet(list)
    ensures forall id | id in known :: known[id] == if id in q.known then q.known[id] else now
  {
    arrived, newest, known := [], q.newest, q.known;
    for k := 0 to |list|
      invariant arrived == FreshOf(q.known.Keys, q.newest, list[..k])
      invariant newest == NewestOf(q.newest, list[..k])
      invariant known.Keys == q.known.Keys + IdSet(list[..k])
      invariant forall id | id in known :: known[id] == if id in q.known then q.known[id] else now
    {
      var x := list[k];
      OneMoreScanned(q, list, k);
      newest := Later(newest, x.at);
      if x.id !in known {
        known := known[x.id := now];
        if Arrives(x, q.newest) { arrived := arrived + [x.id]; }
      }
    }
    assert list[..|list|] == list;
  }

  class Notch {
    var nq: Queue

    constructor ()
      ensures nq == INITIAL
    {
      nq := INITIAL;
    }

    method MarkShown(id: Id, now: int)
      modifies this
      ensures nq == MarkedShown(old(nq), id, now)
      ensures if id == "" then nq == old(nq)
              else nq.shown == old(nq).shown + {id} && nq.held == old(nq).held - {id} && id in nq.known
    {
      if id == "" { return; }
      var known := nq.known;
      if id !in known { known := known[id := now]; }
      nq := nq.(known := known, shown := nq.shown + {id}, held := nq.held - {id});
    }

    method Arrive(input: Input) returns (d: Decision)
      modifies this
      ensures d == Decide(old(nq), input) && nq == d.queue
    {
      var arrived, newest, known := Scan(nq, input.list, input.now);
      var here := IdSet(input.list);
      known := map id | id in known && id in here :: known[id];
      assert known == KnownAfter(nq.known, input.list, input.now);
      var held, shown := nq.held * here, nq.shown * here;
      if input.pagerOpen || input.cardOpen {
        shown := shown + ToSet(arrived);
        var effect := if input.pagerOpen then PagerInsert else Bar;
        d := Decision(effect, arrived, arrived, Queue(known, held, shown, newest));
      } else if input.quiet || input.away {
        held := held + ToSet(arrived);
        d := Decision(Hold, arrived, arrived, Queue(known, held, shown, newest));
      } else {
        var due := Select(Ids(input.list), held + ToSet(arrived) - shown);
        d := Decision(if |due| >= 2 then Summary else if |due| == 1 then Single else Nothing, due, arrived,
                      Queue(known, {}, shown + ToSet(due), newest));
      }
      nq := d.queue;
    }
  }

  // ---- one decision ----------------------------------------------------------------------------------------------

  ghost predicate NoRepeat(ids: seq<Id>) {
    forall i, j | 0 <= i < j < |ids| :: ids[i] != ids[j]
  }

  lemma {:induction false} FreshOnce(known: set<Id>, before: Option<int>, list: seq<Item>)
    ensures NoRepeat(FreshOf(known, before, list))
    ensures forall id | id in FreshOf(known, before, list) :: id in IdSet(list) && id !in known
    decreases |list|
  {
    if list != [] {
      assert list == [list[0]] + list[1..];
      FreshOnce(if list[0].id in known then known else known + {list[0].id}, before, list[1..]);
    }
  }

  lemma {:induction false} FreshExactly(known: set<Id>, before: Option<int>, list: seq<Item>, x: Item)
    requires NoRepeat(Ids(list)) && x in list
    ensures x.id in FreshOf(known, before, list) <==> x.id !in known && Arrives(x, before)
    decreases |list|
  {
    var first, rest := list[0], list[1..];
    var k :| 0 <= k < |list| && list[k] == x;
    assert forall i | 0 <= i < |rest| :: Ids(list)[i + 1] == Ids(rest)[i];
    var known' := if first.id in known then known else known + {first.id};
    if k == 0 {
      FreshOnce(known', before, rest);
      forall y | y in rest ensures y.id != x.id {
        var i :| 0 <= i < |rest| && rest[i] == y;
        assert Ids(list)[0] != Ids(list)[i + 1];
      }
    } else {
      assert rest[k - 1] == x && Ids(list)[0] != Ids(list)[k];
      FreshExactly(known', before, rest, x);
    }
  }

  lemma {:induction false} SelectFacts(ids: seq<Id>, wanted: set<Id>)
    ensures forall id :: id in Select(ids, wanted) <==> id in ids && id in wanted
    ensures NoRepeat(ids) ==> NoRepeat(Select(ids, wanted))
  {
    if ids != [] {
      SelectFacts(ids[1..], wanted);
      assert ids == [ids[0]] + ids[1..];
    }
  }

  lemma NewestGrows(before: Option<int>, list: seq<Item>)
    ensures before.Some? ==> NewestOf(before, list).Some? && NewestOf(before, list).value >= before.value
    ensures NewestOf(before, list) == before || exists x :: x in list && x.at == NewestOf(before, list)
    ensures forall x | x in list && x.at.Some? ::
      NewestOf(before, list).Some? && NewestOf(before, list).value >= x.at.value
    decreases |list|
  {
    if list != [] {
      NewestGrows(Later(before, list[0].at), list[1..]);
      assert list == [list[0]] + list[1..];
    }
  }

  /** What the state keeps to between decisions: what is held or shown is known, and nothing is both. */
  ghost predicate Tidy(q: Queue) {
    q.held <= q.known.Keys && q.shown <= q.known.Keys && q.held !! q.shown
  }

  /**
   * After a poll exactly what is listed is known; held and shown stay apart within it; the newest time never goes back.
   */
  lemma DecisionIsTidy(q: Queue, input: Input)
    requires Tidy(q)
    ensures Tidy(Decide(q, input).queue)
    ensures Decide(q, input).queue.known.Keys == IdSet(input.list)
    ensures q.newest.Some? ==>
      Decide(q, input).queue.newest.Some? && Decide(q, input).queue.newest.value >= q.newest.value
    ensures !input.pagerOpen && !input.cardOpen && !input.quiet && !input.away ==> Decide(q, input).queue.held == {}
    ensures forall id | id in IdSet(input.list) && id !in q.known :: Decide(q, input).queue.known[id] == input.now
  {
    FreshOnce(q.known.Keys, q.newest, input.list);
    NewestGrows(q.newest, input.list);
    SelectFacts(Ids(input.list),
      q.held * IdSet(input.list) + ToSet(FreshOf(q.known.Keys, q.newest, input.list)) - q.shown * IdSet(input.list));
  }

  // ---- what a poll opens -----------------------------------------------------------------------------------------

  lemma {:induction false} SelectedInOrder(ids: seq<Id>, wanted: set<Id>)
    ensures InOrder(Select(ids, wanted), ids)
  {
    if ids != [] {
      SelectedInOrder(ids[1..], wanted);
      if ids[0] in wanted {
        assert Select(ids, wanted)[1..] == Select(ids[1..], wanted);
      } else {
        assert Select(ids, wanted) == Select(ids[1..], wanted);
        SkippingOne(Select(ids, wanted), ids);
      }
    }
  }

  lemma {:induction false} FreshInOrder(known: set<Id>, before: Option<int>, list: seq<Item>)
    ensures InOrder(FreshOf(known, before, list), Ids(list))
    decreases |list|
  {
    if list != [] {
      var rest := list[1..];
      assert Ids(list)[1..] == Ids(rest) && Ids(list)[0] == list[0].id;
      var known' := if list[0].id in known then known else known + {list[0].id};
      FreshInOrder(known', before, rest);
      if list[0].id in known || !Arrives(list[0], before) {
        assert FreshOf(known, before, list) == FreshOf(known', before, rest);
        SkippingOne(FreshOf(known, before, list), Ids(list));
      } else {
        assert FreshOf(known, before, list)[1..] == FreshOf(known', before, rest);
      }
    }
  }

  /**
   * Listed for the first time, without a time, or less than 30 s behind the newest seen before this poll, if any was.
   */
  predicate IsNew(q: Queue, x: Item) {
    x.id !in q.known && (q.newest.None? || x.at.None? || x.at.value > q.newest.value - 30_000)
  }

  /** What waits for a card of its own or the summary: held back or new, and not shown. */
  function Due(q: Queue, list: seq<Item>): set<Id> {
    set x | x in list && (x.id in q.held || IsNew(q, x)) && x.id !in q.shown :: x.id
  }

  lemma FewerRepeat(ids: seq<Id>)
    requires NoRepeat(ids) && ids != []
    ensures NoRepeat(ids[1..]) && ids[0] !in ToSet(ids[1..]) && ToSet(ids) == {ids[0]} + ToSet(ids[1..])
  {
    var rest := ids[1..];
    assert ids == [ids[0]] + rest;
    forall i | 0 <= i < |rest| ensures rest[i] == ids[i + 1] != ids[0] {}
  }

  lemma {:induction false} SizeOf(ids: seq<Id>)
    requires NoRepeat(ids)
    ensures |ToSet(ids)| == |ids|
  {
    if ids != [] {
      FewerRepeat(ids);
      SizeOf(ids[1..]);
    }
  }

  lemma ArrivedAre(q: Queue, list: seq<Item>)
    requires NoRepeat(Ids(list))
    ensures ToSet(FreshOf(q.known.Keys, q.newest, list)) == set x | x in list && IsNew(q, x) :: x.id
  {
    var news := FreshOf(q.known.Keys, q.newest, list);
    FreshOnce(q.known.Keys, q.newest, list);
    forall x | x in list ensures x.id in news <==> IsNew(q, x) { FreshExactly(q.known.Keys, q.newest, list, x); }
    forall id | id in news ensures id in IdSet(list) {}
  }

  lemma DueAre(q: Queue, list: seq<Item>)
    requires NoRepeat(Ids(list))
    ensures var here := IdSet(list);
      ToSet(Select(Ids(list), q.held * here + ToSet(FreshOf(q.known.Keys, q.newest, list)) - q.shown * here))
        == Due(q, list)
  {
    var here := IdSet(list);
    var wanted := q.held * here + ToSet(FreshOf(q.known.Keys, q.newest, list)) - q.shown * here;
    SelectFacts(Ids(list), wanted);
    ArrivedAre(q, list);
    forall id | id in here ensures id in Ids(list) {
      var x :| x in list && x.id == id;
      var k :| 0 <= k < |list| && list[k] == x;
      assert Ids(list)[k] == id;
    }
    forall id | id in wanted ensures id in Due(q, list) {}
    forall id | id in Due(q, list) ensures id in wanted {}
  }

  /**
   * What a poll does. What is new joins the pager when it is open, else only the bar when a card is, else waits in
   * quiet hours or while the person is away. Otherwise all that is due opens: two or more the summary, one its card,
   * none nothing. Each comes once, in the list's order.
   */
  lemma WhatAPollDoes(q: Queue, input: Input)
    requires NoRepeat(Ids(input.list))
    ensures var d, due := Decide(q, input), Due(q, input.list);
      && (d.action == PagerInsert <==> input.pagerOpen)
      && (d.action == Bar <==> !input.pagerOpen && input.cardOpen)
      && (d.action == Hold <==> !input.pagerOpen && !input.cardOpen && (input.quiet || input.away))
      && (!input.pagerOpen && !input.cardOpen && !input.quiet && !input.away ==>
            && (d.action == Summary <==> |due| >= 2) && (d.action == Single <==> |due| == 1) && ToSet(d.ids) == due)
      && (input.pagerOpen || input.cardOpen || input.quiet || input.away ==>
            ToSet(d.ids) == set x | x in input.list && IsNew(q, x) :: x.id)
      && NoRepeat(d.ids) && InOrder(d.ids, Ids(input.list))
      && ToSet(d.arrived) == set x | x in input.list && IsNew(q, x) :: x.id
  {
    var here := IdSet(input.list);
    var wanted := q.held * here + ToSet(FreshOf(q.known.Keys, q.newest, input.list)) - q.shown * here;
    FreshOnce(q.known.Keys, q.newest, input.list);
    FreshInOrder(q.known.Keys, q.newest, input.list);
    ArrivedAre(q, input.list);
    DueAre(q, input.list);
    SelectedInOrder(Ids(input.list), wanted);
    SelectFacts(Ids(input.list), wanted);
    SizeOf(Select(Ids(input.list), wanted));
  }

  // ---- runs ------------------------------------------------------------------------------------------------------

  /** `ShowDirect`: a card opened from the day card, which adds to `shown` alone. */
  datatype Event = Poll(input: Input) | Show(id: Id, now: int) | ShowDirect(id: Id)

  function After(q: Queue, e: Event): Queue {
    match e
    case Poll(input) => Decide(q, input).queue
    case Show(id, now) => MarkedShown(q, id, now)
    case ShowDirect(id) => q.(shown := q.shown + {id})
  }

  /** What a step puts in front of the person: a card, the summary, the bar's count or the pager. */
  function Delivered(q: Queue, e: Event): seq<Id> {
    if e.Poll? && Decide(q, e.input).action !in {Hold, Nothing} then Decide(q, e.input).ids else []
  }

  ghost predicate IsRun(qs: seq<Queue>, es: seq<Event>) {
    && |qs| == |es| + 1 && qs[0] == INITIAL
    && (forall k | 0 <= k < |es| :: qs[k + 1] == After(qs[k], es[k]))
    && (forall k | 0 <= k < |es| && es[k].Poll? :: NoRepeat(Ids(es[k].input.list)))
  }

  /** Listed by every poll from step i up to and including step j. */
  ghost predicate Stays(es: seq<Event>, i: nat, j: nat, id: Id)
    requires j < |es|
  {
    forall k | i <= k <= j && es[k].Poll? :: id in IdSet(es[k].input.list)
  }

  predicate Free(e: Event) {
    e.Poll? && !e.input.pagerOpen && !e.input.cardOpen && !e.input.quiet && !e.input.away
  }

  lemma {:induction false} HeldIsKnown(qs: seq<Queue>, es: seq<Event>, n: nat)
    requires IsRun(qs, es) && n < |qs|
    ensures qs[n].held <= qs[n].known.Keys
  {
    if n > 0 {
      HeldIsKnown(qs, es, n - 1);
      if es[n - 1].Poll? { FreshOnce(qs[n - 1].known.Keys, qs[n - 1].newest, es[n - 1].input.list); }
    }
  }

  lemma {:induction false} TidyAlways(qs: seq<Queue>, es: seq<Event>, n: nat)
    requires IsRun(qs, es) && n < |qs| && forall k | 0 <= k < n :: !es[k].ShowDirect?
    ensures Tidy(qs[n])
    ensures n > 0 && es[n - 1].Poll? ==> qs[n].known.Keys == IdSet(es[n - 1].input.list)
  {
    if n > 0 {
      TidyAlways(qs, es, n - 1);
      if es[n - 1].Poll? { DecisionIsTidy(qs[n - 1], es[n - 1].input); }
    }
  }

  function Through(q: Queue, es: seq<Event>): Queue
    decreases |es|
  {
    if es == [] then q else After(Through(q, es[..|es| - 1]), es[|es| - 1])
  }

  ghost predicate NoneDirect(es: seq<Event>) { forall e: Event | e in es :: !e.ShowDirect? }

  /** Whatever is polled and marked shown from here on, nothing is ever both held back and shown. */
  ghost predicate StayApart(q: Queue) {
    forall es | NoneDirect(es) :: Through(q, es).held !! Through(q, es).shown
  }

  lemma {:induction false} TidyThrough(q: Queue, es: seq<Event>)
    requires Tidy(q) && NoneDirect(es)
    ensures Tidy(Through(q, es))
    decreases |es|
  {
    if es != [] {
      var last := es[|es| - 1];
      TidyThrough(q, es[..|es| - 1]);
      if last.Poll? { DecisionIsTidy(Through(q, es[..|es| - 1]), last.input); }
    }
  }

  /** During quiet hours what arrives is held back, also when it was shown before it was known. */
  lemma HeldThoughShown(q: Queue, id: Id)
    requires id !in q.known && id in q.shown
    ensures !StayApart(q)
  {
    var list := [Item(id, None)];
    var e := Poll(Input(list, 0, false, false, true, false));
    var arrived := FreshOf(q.known.Keys, q.newest, list);
    assert list[0] == Item(id, None) && list[0] in list && list[1..] == [];
    assert arrived == [id] + FreshOf(q.known.Keys + {id}, q.newest, list[1..]);
    assert id in IdSet(list) && id in ToSet(arrived);
    var es := [e];
    assert NoneDirect(es);
    assert es[..0] == [] && Through(q, es) == After(Through(q, []), e) == After(q, e);
    assert id in Through(q, es).held && id in Through(q, es).shown;
  }

  /**
   * A card opened without `markShown` leaves held and shown apart, through all that follows, exactly when its
   * notification was known to the queue and not held: one that is held is both at once, and one not known yet is held
   * by the next poll in quiet hours.
   */
  lemma DirectlyShownIff(q: Queue, id: Id)
    requires Tidy(q)
    ensures StayApart(After(q, ShowDirect(id))) <==> id in q.known && id !in q.held
  {
    var t := After(q, ShowDirect(id));
    if id in q.known && id !in q.held {
      forall es | NoneDirect(es) ensures Through(t, es).held !! Through(t, es).shown {
        TidyThrough(t, es);
      }
    } else if id in q.held {
      var none: seq<Event> := [];
      assert NoneDirect(none) && Through(t, none) == t && id in t.held && id in t.shown;
    } else {
      HeldThoughShown(t, id);
    }
  }

  lemma DeliveredFacts(q: Queue, e: Event, id: Id)
    requires e.Poll? && NoRepeat(Ids(e.input.list))
    ensures NoRepeat(Delivered(q, e))
    ensures id in Delivered(q, e) ==> id in IdSet(e.input.list) && id in After(q, e).known && id in After(q, e).shown
    ensures id in Delivered(q, e) && id in q.known ==> id in q.held && id !in q.shown
    ensures id in FreshOf(q.known.Keys, q.newest, e.input.list) && id !in q.shown ==>
      id in Delivered(q, e) || id in After(q, e).held
    ensures id in q.held && id in IdSet(e.input.list) && id !in q.shown ==>
      id in Delivered(q, e) || id in After(q, e).held - After(q, e).shown
    ensures Free(e) && id in IdSet(e.input.list) && id in q.held && id !in q.shown ==> id in Delivered(q, e)
    ensures id in q.known && id !in q.held ==> id !in Delivered(q, e) && id !in After(q, e).held
    ensures id in IdSet(e.input.list) ==> id in After(q, e).known
    ensures id !in q.held && id !in FreshOf(q.known.Keys, q.newest, e.input.list) ==>
      id !in Delivered(q, e) && id !in After(q, e).held
  {
    FreshOnce(q.known.Keys, q.newest, e.input.list);
    var here := IdSet(e.input.list);
    var wanted := q.held * here + ToSet(FreshOf(q.known.Keys, q.newest, e.input.list)) - q.shown * here;
    SelectFacts(Ids(e.input.list), wanted);
    forall id | id in here ensures id in Ids(e.input.list) {
      var x :| x in e.input.list && x.id == id;
      var k :| 0 <= k < |e.input.list| && e.input.list[k] == x;
      assert Ids(e.input.list)[k] == id;
    }
    forall id | id in Ids(e.input.list) ensures id in here {
      var k :| 0 <= k < |e.input.list| && Ids(e.input.list)[k] == id;
      assert e.input.list[k] in e.input.list;
    }
  }

  /**
   * Once known and shown, or known and not held, an id stays that way for as long as it is listed; so does when it was
   * first seen.
   */
  lemma {:induction false} SettledStays(qs: seq<Queue>, es: seq<Event>, i: nat, j: nat, id: Id)
    requires IsRun(qs, es) && i <= j <= |es| && (j > i ==> Stays(es, i, j - 1, id))
    requires id in qs[i].known && (id in qs[i].shown || id !in qs[i].held)
    ensures id in qs[j].known && (id in qs[j].shown || id !in qs[j].held)
    ensures qs[j].known[id] == qs[i].known[id]
    decreases j
  {
    if i < j {
      SettledStays(qs, es, i, j - 1, id);
      var q, e := qs[j - 1], es[j - 1];
      if e.Poll? {
        assert id in IdSet(e.input.list);
        DeliveredFacts(q, e, id);
        FreshOnce(q.known.Keys, q.newest, e.input.list);
      }
    }
  }

  /** Never twice in one unbroken stay in the list, and once at most in one poll. */
  lemma NeverTwice(qs: seq<Queue>, es: seq<Event>, i: nat, j: nat, id: Id)
    requires IsRun(qs, es) && i < j < |es| && Stays(es, i, j, id)
    requires id in Delivered(qs[i], es[i])
    ensures id !in Delivered(qs[j], es[j])
    ensures NoRepeat(Delivered(qs[i], es[i]))
  {
    DeliveredFacts(qs[i], es[i], id);
    SettledStays(qs, es, i + 1, j, id);
    if es[j].Poll? { DeliveredFacts(qs[j], es[j], id); }
  }

  /** What was marked shown never opens on its own while it is listed, whether any poll had listed it before. */
  lemma ShownNeverOpens(qs: seq<Queue>, es: seq<Event>, i: nat, j: nat, id: Id)
    requires IsRun(qs, es) && i < j < |es| && Stays(es, i, j, id)
    requires es[i].Show? && es[i].id == id != ""
    ensures id !in Delivered(qs[j], es[j])
    ensures id in qs[i + 1].shown && qs[i + 1].shown - {id} == qs[i].shown - {id}
    ensures qs[i + 1].held == qs[i].held - {id}
  {
    SettledStays(qs, es, i + 1, j, id);
    if es[j].Poll? { DeliveredFacts(qs[j], es[j], id); }
  }

  /** What arrived is delivered by the first poll that finds nothing open, no quiet hours and the person there, if it is
      still listed and the person did not open it meanwhile. */
  lemma DeliveredByAFreePoll(qs: seq<Queue>, es: seq<Event>, i: nat, j: nat, id: Id) returns (k: nat)
    requires IsRun(qs, es) && i <= j < |es| && Stays(es, i, j, id)
    requires es[i].Poll? && id in FreshOf(qs[i].known.Keys, qs[i].newest, es[i].input.list) && id !in qs[i].shown
    requires forall m | i <= m <= j && !es[m].Poll? :: es[m].id != id
    requires Free(es[j])
    ensures i <= k <= j && id in Delivered(qs[k], es[k])
    ensures forall m | i <= m <= j && id in Delivered(qs[m], es[m]) :: m == k
  {
    k := FindDelivery(qs, es, i, j, id);
    forall m | i <= m <= j && id in Delivered(qs[m], es[m]) ensures m == k {
      if m < k { NeverTwice(qs, es, m, k, id); }
      if k < m { NeverTwice(qs, es, k, m, id); }
    }
  }

  lemma FindDelivery(qs: seq<Queue>, es: seq<Event>, i: nat, j: nat, id: Id) returns (k: nat)
    requires IsRun(qs, es) && i <= j < |es| && Stays(es, i, j, id)
    requires es[i].Poll? && id in FreshOf(qs[i].known.Keys, qs[i].newest, es[i].input.list) && id !in qs[i].shown
    requires forall m | i <= m <= j && !es[m].Poll? :: es[m].id != id
    requires Free(es[j])
    ensures i <= k <= j && id in Delivered(qs[k], es[k])
  {
    DeliveredFacts(qs[i], es[i], id);
    FreshOnce(qs[i].known.Keys, qs[i].newest, es[i].input.list);
    k := i;
    if id in Delivered(qs[i], es[i]) { return; }
    k := i + 1;
    assert id in qs[i + 1].held - qs[i + 1].shown;
    while true
      invariant i < k <= j && id in qs[k].held - qs[k].shown
      decreases j - k
    {
      if es[k].Poll? {
        assert id in IdSet(es[k].input.list);
        DeliveredFacts(qs[k], es[k], id);
        if id in Delivered(qs[k], es[k]) { return; }
      }
      k := k + 1;
    }
  }

  lemma OldOneOnlyKnown(q: Queue, e: Event, x: Item)
    requires e.Poll? && NoRepeat(Ids(e.input.list)) && x in e.input.list
    requires x.id !in q.known && x.id !in q.held && !Arrives(x, q.newest)
    ensures x.id !in Delivered(q, e) && x.id in After(q, e).known && x.id !in After(q, e).held
  {
    FreshExactly(q.known.Keys, q.newest, e.input.list, x);
    DeliveredFacts(q, e, x.id);
  }

  /**
   * After the first poll, what is first listed 30 s or more behind the newest seen never opens on its own while listed.
   */
  lemma OldOnesNeverOpen(qs: seq<Queue>, es: seq<Event>, i: nat, j: nat, x: Item)
    requires IsRun(qs, es) && i <= j < |es| && Stays(es, i, j, x.id)
    requires es[i].Poll? && x in es[i].input.list && x.id !in qs[i].known
    requires qs[i].newest.Some? && x.at.Some? && x.at.value <= qs[i].newest.value - SKEW_MS
    ensures x.id !in Delivered(qs[j], es[j])
  {
    HeldIsKnown(qs, es, i);
    OldOneOnlyKnown(qs[i], es[i], x);
    if i < j {
      SettledStays(qs, es, i + 1, j, x.id);
      if es[j].Poll? { DeliveredFacts(qs[j], es[j], x.id); }
    }
  }
}
