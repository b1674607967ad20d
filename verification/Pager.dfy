/** The pager over the unread notifications, walked while its list changes under it. */
module Pager {
  import opened Options
  import opened Sublists

  type Id = string

  datatype Pages = Pages(ids: seq<Id>, index: nat, seen: set<Id>)

  datatype Turn = Finished | Showing(pages: Pages)

  function Unique(ids: seq<Id>, skip: set<Id>): seq<Id>
    decreases |ids|
  {
    if ids == [] then []
    else if ids[0] in skip then Unique(ids[1..], skip)
    else [ids[0]] + Unique(ids[1..], skip + {ids[0]})
  }

  function IndexOf(ids: seq<Id>, id: Id): Option<nat> {
    if ids == [] then None
    else if ids[0] == id then Some(0)
    else match IndexOf(ids[1..], id) case None => None case Some(k) => Some(k + 1)
  }

  function Start(ids: seq<Id>, place: Option<Id>, seen: set<Id>): Pages {
    var list := Unique(ids, {});
    var at := if place.Some? && place.value != "" then IndexOf(list, place.value) else None;
    var index := if at.Some? then at.value else 0;
    var keep := set id | id in list && id in seen;
    Pages(list, index, if index < |list| then keep + {list[index]} else keep)
  }

  function Inserted(p: Pages, newIds: seq<Id>): Pages
    requires p.index < |p.ids|
  {
    p.(ids := p.ids[..p.index + 1] + Unique(newIds, set id | id in p.ids) + p.ids[p.index + 1..])
  }

  function Stepped(p: Pages, forward: bool): Turn {
    var next := p.index + if forward then 1 else -1;
    if next >= |p.ids| then Finished
    else if next < 0 then Showing(p)
    else Showing(p.(index := next, seen := p.seen + {p.ids[next]}))
  }

  function Without(ids: seq<Id>, id: Id): seq<Id> {
    if ids == [] then [] else (if ids[0] == id then [] else [ids[0]]) + Without(ids[1..], id)
  }

  function Min(a: int, b: int): int { if a <= b then a else b }

  function Removed(p: Pages, id: Id): Turn
    requires p.index < |p.ids| && NoRepeat(p.ids)
  {
    match IndexOf(p.ids, id)
    case None => Showing(p)
    case Some(at) =>
      var ids := Without(p.ids, id);
      IndexFacts(p.ids, id);
      WithoutFacts(p.ids, at);
      if ids == [] then Finished
      else
        var index := if at < p.index then p.index - 1 else Min(p.index, |ids| - 1);
        Showing(Pages(ids, index, p.seen - {id} + {ids[index]}))
  }

  // ---- sequences of ids ------------------------------------------------------------------------------------------

  ghost predicate NoRepeat(ids: seq<Id>) {
    forall i, j | 0 <= i < j < |ids| :: ids[i] != ids[j]
  }

  lemma {:induction false} UniqueFacts(ids: seq<Id>, skip: set<Id>)
    ensures NoRepeat(Unique(ids, skip))
    ensures forall id :: id in Unique(ids, skip) <==> id in ids && id !in skip
    decreases |ids|
  {
    if ids != [] {
      assert ids == [ids[0]] + ids[1..];
      UniqueFacts(ids[1..], skip);
      UniqueFacts(ids[1..], skip + {ids[0]});
    }
  }

  lemma {:induction false} UniqueInOrder(ids: seq<Id>, skip: set<Id>)
    ensures InOrder(Unique(ids, skip), ids)
    decreases |ids|
  {
    if ids != [] {
      if ids[0] in skip {
        UniqueInOrder(ids[1..], skip);
        SkippingOne(Unique(ids, skip), ids);
      } else {
        UniqueInOrder(ids[1..], skip + {ids[0]});
        assert Unique(ids, skip)[1..] == Unique(ids[1..], skip + {ids[0]});
      }
    }
  }

  lemma {:induction false} IndexFacts(ids: seq<Id>, id: Id)
    ensures IndexOf(ids, id).Some? <==> id in ids
    ensures IndexOf(ids, id).Some? ==> IndexOf(ids, id).value < |ids| && ids[IndexOf(ids, id).value] == id
  {
    if ids != [] {
      assert ids == [ids[0]] + ids[1..];
      IndexFacts(ids[1..], id);
    }
  }

  lemma {:induction false} WithoutFacts(ids: seq<Id>, at: nat)
    requires NoRepeat(ids) && at < |ids|
    ensures Without(ids, ids[at]) == ids[..at] + ids[at + 1..]
  {
    assert ids == [ids[0]] + ids[1..];
    if at == 0 {
      NothingOut(ids[1..], ids[0]);
    } else {
      assert ids[1..][at - 1] == ids[at];
      WithoutFacts(ids[1..], at - 1);
      assert ids[0] != ids[at];
      assert ids[..at] == [ids[0]] + ids[1..][..at - 1];
      assert ids[at + 1..] == ids[1..][at..];
    }
  }

  lemma {:induction false} NothingOut(ids: seq<Id>, id: Id)
    requires id !in ids
    ensures Without(ids, id) == ids
  {
    if ids != [] { NothingOut(ids[1..], id); }
  }

  // ---- the walk --------------------------------------------------------------------------------------------------

  /** Forward says whether the card is still in the inbox. */
  datatype Move = Forward(inbox: bool) | Back | Arrive(ids: seq<Id>) | Leave(id: Id)

  /**
   * `asks`: which ids are asks, by their type, among those listed and those still to come. `read`: notices marked read
   * by paging past them; `kept`: asks paged past; `gone`: what was no longer unread.
   */
  datatype Walk = Walk(turn: Turn, asks: set<Id>, read: set<Id>, kept: set<Id>, gone: set<Id>)

  function Moved(w: Walk, m: Move): Walk
    requires w.turn.Showing? && w.turn.pages.index < |w.turn.pages.ids| && NoRepeat(w.turn.pages.ids)
  {
    var p := w.turn.pages;
    match m
    case Forward(inbox) =>
      var id := p.ids[p.index];
      var w' :=
        if !inbox then w.(gone := w.gone + {id})
        else if id in w.asks then w.(kept := w.kept + {id})
        else w.(read := w.read + {id});
      w'.(turn := Stepped(p, true))
    case Back => w.(turn := Stepped(p, false))
    case Arrive(ids) => w.(turn := Showing(Inserted(p, ids)))
    case Leave(id) => w.(turn := Removed(p, id))
  }

  ghost predicate Well(p: Pages) {
    && NoRepeat(p.ids) && p.index < |p.ids| && p.ids[p.index] in p.seen
    && (forall id | id in p.seen :: id in p.ids)
  }

  /**
   * Every card up to the current one was seen and every card before it dealt with, but for those skipped at the start.
   */
  ghost predicate Behind(w: Walk, skipped: set<Id>) {
    w.turn.Showing? ==>
      && Well(w.turn.pages)
      && (forall k | 0 <= k <= w.turn.pages.index :: w.turn.pages.ids[k] in w.turn.pages.seen + skipped)
      && (forall k | 0 <= k < w.turn.pages.index :: w.turn.pages.ids[k] in w.read + w.kept + w.gone + skipped)
  }

  /** What finishing by stepping past the last card means. */
  ghost predicate SawAll(p: Pages, w: Walk, skipped: set<Id>) {
    && (forall id | id in p.ids :: id in p.seen + skipped)
    && (forall id | id in p.ids :: id in w.read + w.kept + w.gone + skipped)
  }

  lemma StartIsBehind(ids: seq<Id>, place: Option<Id>, seen: set<Id>, asks: set<Id>)
    requires ids != []
    ensures var p := Start(ids, place, seen);
            && p.index < |p.ids|
            && Behind(Walk(Showing(p), asks, {}, {}, {}), set k | 0 <= k < p.index :: p.ids[k])
            && (place.None? ==> p.index == 0)
  {
    UniqueFacts(ids, {});
    var list := Unique(ids, {});
    assert ids[0] in list;
    if place.Some? { IndexFacts(list, place.value); }
  }

  lemma SplicedFacts(a: seq<Id>, add: seq<Id>, b: seq<Id>)
    requires NoRepeat(a + b) && NoRepeat(add) && forall id | id in add :: id !in a + b
    ensures NoRepeat(a + add + b)
  {
    var all := a + add + b;
    forall i, j | 0 <= i < j < |all| ensures all[i] != all[j] {
      if |a| <= i < |a| + |add| {
        assert all[i] in add;
        if j >= |a| + |add| { assert all[j] == (a + b)[j - |add|]; }
      } else if |a| <= j < |a| + |add| {
        assert all[j] in add && all[i] == (a + b)[i];
      } else {
        assert all[i] == (a + b)[if i < |a| then i else i - |add|];
        assert all[j] == (a + b)[if j < |a| then j else j - |add|];
      }
    }
  }

  lemma ArrivingKeepsTheCard(p: Pages, ids: seq<Id>)
    requires Well(p)
    ensures Well(Inserted(p, ids)) && Inserted(p, ids).ids[..p.index + 1] == p.ids[..p.index + 1]
    ensures forall id :: id in Inserted(p, ids).ids <==> id in p.ids || id in ids
  {
    var have := set id | id in p.ids;
    UniqueFacts(ids, have);
    var a, add, b := p.ids[..p.index + 1], Unique(ids, have), p.ids[p.index + 1..];
    assert p.ids == a + b;
    forall id | id in add ensures id !in a + b { assert id !in have; }
    SplicedFacts(a, add, b);
  }

  /** New ids come right behind the current card, once each and in their order, and all else stays as it is. */
  lemma NewOnesComeNext(p: Pages, ids: seq<Id>) returns (add: seq<Id>)
    requires Well(p)
    ensures Inserted(p, ids) == p.(ids := p.ids[..p.index + 1] + add + p.ids[p.index + 1..])
    ensures NoRepeat(add) && InOrder(add, ids) && forall id :: id in add <==> id in ids && id !in p.ids
  {
    add := Unique(ids, set id | id in p.ids);
    UniqueFacts(ids, set id | id in p.ids);
    UniqueInOrder(ids, set id | id in p.ids);
  }

  /**
   * The walk begins with each id once and in order, at the place kept from before when it is among them, else at the
   * first; what was seen before still is, and so is the card begun with.
   */
  lemma StartsAtItsPlace(ids: seq<Id>, place: Option<Id>, seen: set<Id>)
    requires ids != []
    ensures var p := Start(ids, place, seen);
      && NoRepeat(p.ids) && InOrder(p.ids, ids) && (forall id :: id in p.ids <==> id in ids)
      && p.index < |p.ids|
      && (if place.Some? && place.value != "" && place.value in ids then p.ids[p.index] == place.value
          else p.index == 0)
      && (forall id :: id in p.seen <==> id in p.ids && (id in seen || id == p.ids[p.index]))
  {
    UniqueFacts(ids, {});
    UniqueInOrder(ids, {});
    assert ids[0] in Unique(ids, {});
    if place.Some? { IndexFacts(Unique(ids, {}), place.value); }
  }

  /**
   * A step forward from the last card ends the walk and a step back from the first one stays; any other goes to the
   * neighbour, which was then seen, and a step the other way comes back.
   */
  lemma StepsAreUndone(p: Pages, forward: bool)
    requires Well(p)
    ensures Stepped(p, forward).Finished? <==> forward && p.index == |p.ids| - 1
    ensures !forward && p.index == 0 ==> Stepped(p, forward) == Showing(p)
    ensures (if forward then p.index < |p.ids| - 1 else p.index > 0) ==>
      var t := Stepped(p, forward);
      && t.Showing? && Well(t.pages) && t.pages.ids == p.ids
      && t.pages.index == (if forward then p.index + 1 else p.index - 1)
      && t.pages.seen == p.seen + {p.ids[t.pages.index]}
      && Stepped(t.pages, !forward) == Showing(p.(seen := t.pages.seen))
  {
    if forward && p.index < |p.ids| - 1 {
      assert p.seen + {p.ids[p.index + 1]} + {p.ids[p.index]} == p.seen + {p.ids[p.index + 1]};
    }
    if !forward && p.index > 0 {
      assert p.seen + {p.ids[p.index - 1]} + {p.ids[p.index]} == p.seen + {p.ids[p.index - 1]};
    }
  }

  lemma OutOnly(ids: seq<Id>, at: nat)
    requires NoRepeat(ids) && at < |ids|
    ensures forall id :: id in ids[..at] + ids[at + 1..] <==> id in ids && id != ids[at]
  {
    forall id | id in ids && id != ids[at] ensures id in ids[..at] + ids[at + 1..] {
      var k :| 0 <= k < |ids| && ids[k] == id;
      if k < at { assert ids[..at][k] == id; } else { assert ids[at + 1..][k - at - 1] == id; }
    }
  }

  lemma LeavingKeepsTheCard(p: Pages, at: nat)
    requires Well(p) && at < |p.ids| && |p.ids| > 1
    ensures var t := Removed(p, p.ids[at]);
            && t.Showing? && Well(t.pages) && t.pages.ids == p.ids[..at] + p.ids[at + 1..]
            && (at != p.index ==> t.pages.ids[t.pages.index] == p.ids[p.index])
            && (at == p.index ==> t.pages.ids[t.pages.index] == p.ids[if at + 1 < |p.ids| then at + 1 else at - 1])
            && t.pages.index <= p.index && (at < p.index ==> t.pages.index == p.index - 1)
            && t.pages.seen == p.seen - {p.ids[at]} + {t.pages.ids[t.pages.index]}
  {
    RemovedIs(p, at);
    WellWithout(p, at);
  }

  /** What is not in the pager takes nothing out, and the last one out ends the walk. */
  lemma NothingElseLeaves(p: Pages, id: Id)
    requires Well(p)
    ensures id !in p.ids ==> Removed(p, id) == Showing(p)
    ensures Removed(p, id).Finished? <==> p.ids == [id]
  {
    IndexFacts(p.ids, id);
    if id in p.ids { WithoutFacts(p.ids, IndexOf(p.ids, id).value); }
  }

  lemma WellWithout(p: Pages, at: nat)
    requires Well(p) && at < |p.ids| && |p.ids| > 1
    ensures var ids := p.ids[..at] + p.ids[at + 1..];
            var index := if at < p.index then p.index - 1 else Min(p.index, |ids| - 1);
            Well(Pages(ids, index, p.seen - {p.ids[at]} + {ids[index]}))
  {
    var ids := p.ids[..at] + p.ids[at + 1..];
    OutOnly(p.ids, at);
    assert NoRepeat(ids) by { assert forall k | 0 <= k < |ids| :: ids[k] == p.ids[if k < at then k else k + 1]; }
  }

  lemma RemovedIs(p: Pages, at: nat)
    requires p.index < |p.ids| && NoRepeat(p.ids) && at < |p.ids| && |p.ids| > 1
    ensures var ids := p.ids[..at] + p.ids[at + 1..];
            var index := if at < p.index then p.index - 1 else Min(p.index, |ids| - 1);
            Removed(p, p.ids[at]) == Showing(Pages(ids, index, p.seen - {p.ids[at]} + {ids[index]}))
  {
    IndexFacts(p.ids, p.ids[at]);
    WithoutFacts(p.ids, at);
  }

  lemma AfterArriving(w: Walk, ids: seq<Id>, skipped: set<Id>)
    requires w.turn.Showing? && Behind(w, skipped)
    ensures Moved(w, Arrive(ids)).turn.Showing? && Behind(Moved(w, Arrive(ids)), skipped)
  {
    var p := w.turn.pages;
    ArrivingKeepsTheCard(p, ids);
    var q := Inserted(p, ids);
    forall k | 0 <= k <= q.index ensures q.ids[k] == p.ids[k] {
      assert q.ids[k] == q.ids[..p.index + 1][k];
    }
  }

  lemma AfterLeaving(w: Walk, id: Id, skipped: set<Id>)
    requires w.turn.Showing? && Behind(w, skipped)
    ensures Behind(Moved(w, Leave(id)), skipped)
    ensures Moved(w, Leave(id)).turn.Finished? ==> w.turn.pages.ids == [id]
  {
    var p := w.turn.pages;
    IndexFacts(p.ids, id);
    if IndexOf(p.ids, id).Some? {
      var at := IndexOf(p.ids, id).value;
      WithoutFacts(p.ids, at);
      if |p.ids| > 1 { BehindWithout(w, at, skipped); }
    }
  }

  lemma BehindWithout(w: Walk, at: nat, skipped: set<Id>)
    requires w.turn.Showing? && Behind(w, skipped) && at < |w.turn.pages.ids| && |w.turn.pages.ids| > 1
    ensures Removed(w.turn.pages, w.turn.pages.ids[at]).Showing?
    ensures Behind(w.(turn := Removed(w.turn.pages, w.turn.pages.ids[at])), skipped)
  {
    var p := w.turn.pages;
    LeavingKeepsTheCard(p, at);
    var q := Removed(p, p.ids[at]).pages;
    forall k | 0 <= k <= q.index
      ensures q.ids[k] in q.seen + skipped && (k < q.index ==> q.ids[k] in w.read + w.kept + w.gone + skipped)
    {
      var j := if k < at then k else k + 1;
      assert q.ids[k] == p.ids[j];
      if k < q.index { assert j < p.index; }
    }
  }

  lemma AfterStepping(w: Walk, m: Move, skipped: set<Id>)
    requires w.turn.Showing? && Behind(w, skipped) && (m.Forward? || m.Back?)
    ensures Behind(Moved(w, m), skipped)
    ensures m.Forward? && Moved(w, m).turn.Finished? ==> SawAll(w.turn.pages, Moved(w, m), skipped)
    ensures m.Back? ==> Moved(w, m).turn.Showing?
  {
  }

  lemma OneMove(w: Walk, m: Move, skipped: set<Id>)
    requires w.turn.Showing? && Behind(w, skipped)
    ensures Behind(Moved(w, m), skipped)
    ensures m.Forward? && Moved(w, m).turn.Finished? ==> SawAll(w.turn.pages, Moved(w, m), skipped)
    ensures m.Back? || m.Arrive? ==> Moved(w, m).turn.Showing?
    ensures m.Leave? && Moved(w, m).turn.Finished? ==> w.turn.pages.ids == [m.id]
  {
    match m {
      case Arrive(ids) => AfterArriving(w, ids, skipped);
      case Leave(id) => AfterLeaving(w, id, skipped);
      case _ => AfterStepping(w, m, skipped);
    }
  }

  /**
   * A step goes to the neighbour, if there is one; what arrives or leaves keeps the card shown, if it is still there.
   */
  ghost predicate GoesTo(p: Pages, m: Move, q: Pages)
    requires p.index < |p.ids| && q.index < |q.ids|
  {
    match m
    case Forward(_) => q.ids == p.ids && q.index == p.index + 1
    case Back => q.ids == p.ids && q.index == (if p.index > 0 then p.index - 1 else 0)
    case Arrive(ids) =>
      q.ids[q.index] == p.ids[p.index] && q.index == p.index && forall id :: id in q.ids <==> id in p.ids || id in ids
    case Leave(id) => id !in q.ids && (id != p.ids[p.index] ==> q.ids[q.index] == p.ids[p.index])
  }

  lemma LeavesOthers(p: Pages, id: Id)
    requires Well(p)
    ensures Removed(p, id).Showing? ==> Well(Removed(p, id).pages) && GoesTo(p, Leave(id), Removed(p, id).pages)
  {
    IndexFacts(p.ids, id);
    if id in p.ids {
      var at := IndexOf(p.ids, id).value;
      if |p.ids| > 1 {
        LeavingKeepsTheCard(p, at);
        OutOnly(p.ids, at);
      } else {
        WithoutFacts(p.ids, at);
      }
    }
  }

  /** Where a move leads. */
  lemma EachMoveLeads(w: Walk, m: Move, skipped: set<Id>)
    requires w.turn.Showing? && Behind(w, skipped)
    ensures m.Forward? ==> (Moved(w, m).turn.Finished? <==> w.turn.pages.index == |w.turn.pages.ids| - 1)
    ensures Moved(w, m).turn.Showing? ==> Well(Moved(w, m).turn.pages)
    ensures Moved(w, m).turn.Showing? ==> GoesTo(w.turn.pages, m, Moved(w, m).turn.pages)
  {
    var p := w.turn.pages;
    match m {
      case Arrive(ids) =>
        ArrivingKeepsTheCard(p, ids);
        assert Inserted(p, ids).ids[p.index] == Inserted(p, ids).ids[..p.index + 1][p.index];
      case Leave(id) => LeavesOthers(p, id);
      case _ =>
    }
  }

  ghost predicate IsWalk(ws: seq<Walk>, ms: seq<Move>) {
    && |ws| == |ms| + 1
    && (forall k | 0 <= k < |ms| ::
          && ws[k].turn.Showing? && ws[k].turn.pages.index < |ws[k].turn.pages.ids| && NoRepeat(ws[k].turn.pages.ids)
          && ws[k + 1] == Moved(ws[k], ms[k]))
  }

  lemma {:induction false} BehindAlways(ws: seq<Walk>, ms: seq<Move>, skipped: set<Id>, n: nat)
    requires IsWalk(ws, ms) && Behind(ws[0], skipped) && n < |ws|
    ensures Behind(ws[n], skipped)
  {
    if n > 0 {
      BehindAlways(ws, ms, skipped, n - 1);
      OneMove(ws[n - 1], ms[n - 1], skipped);
    }
  }

  /** A walk that steps past the last card has shown every card then in the pager, and read every notice among them that
      was unread and is not an ask: all of them when it began at the first card, else all but those before its place. */
  lemma FinishingSawAll(ids: seq<Id>, place: Option<Id>, seen: set<Id>, ws: seq<Walk>, ms: seq<Move>)
    requires ids != [] && IsWalk(ws, ms) && ms != []
      && ws[0] == Walk(Showing(Start(ids, place, seen)), ws[0].asks, {}, {}, {})
    requires ms[|ms| - 1].Forward? && ws[|ms|].turn.Finished?
    ensures var p0, p := Start(ids, place, seen), ws[|ms| - 1].turn.pages;
            SawAll(p, ws[|ms|], set k | 0 <= k < p0.index :: p0.ids[k])
    ensures place.None? ==> SawAll(ws[|ms| - 1].turn.pages, ws[|ms|], {})
  {
    StartIsBehind(ids, place, seen, ws[0].asks);
    var p0 := Start(ids, place, seen);
    var skipped := set k | 0 <= k < p0.index :: p0.ids[k];
    BehindAlways(ws, ms, skipped, |ms| - 1);
    OneMove(ws[|ms| - 1], ms[|ms| - 1], skipped);
    if place.None? { assert skipped == {}; }
  }

  /** The card the walk stands on, passed while it was unread. */
  ghost predicate Passed(w: Walk, m: Move, id: Id) {
    && m == Forward(true) && w.turn.Showing? && w.turn.pages.index < |w.turn.pages.ids|
    && w.turn.pages.ids[w.turn.pages.index] == id
  }

  ghost predicate PassedBefore(ws: seq<Walk>, ms: seq<Move>, n: nat, id: Id)
    requires n <= |ms| <= |ws|
  {
    exists k :: 0 <= k < n && Passed(ws[k], ms[k], id)
  }

  /**
   * However the list changes under the walk, what is read and what is kept unread are exactly what was stepped forward
   * past while it was unread, the asks kept and the others read: no ask is ever read.
   */
  lemma {:induction false} OnlyNoticesRead(ws: seq<Walk>, ms: seq<Move>, n: nat)
    requires IsWalk(ws, ms) && n < |ws| && ws[0].read == ws[0].kept == {}
    ensures ws[n].asks == ws[0].asks && ws[n].read !! ws[0].asks && ws[n].kept <= ws[0].asks
    ensures forall id :: id in ws[n].read + ws[n].kept <==> PassedBefore(ws, ms, n, id)
  {
    if n > 0 {
      OnlyNoticesRead(ws, ms, n - 1);
      forall id
        ensures PassedBefore(ws, ms, n, id) <==> PassedBefore(ws, ms, n - 1, id) || Passed(ws[n - 1], ms[n - 1], id)
      {
        if Passed(ws[n - 1], ms[n - 1], id) { assert PassedBefore(ws, ms, n, id); }
      }
      forall id ensures id in ws[n].read + ws[n].kept <==>
                        id in ws[n - 1].read + ws[n - 1].kept || Passed(ws[n - 1], ms[n - 1], id)
      {
        assert ws[n] == Moved(ws[n - 1], ms[n - 1]);
      }
    }
  }

  // ---- as the notch keeps it -------------------------------------------------------------------------------------

  class Desk {
    var pager: Option<Pages>
    var readHere: set<Id>
    var inbox: set<Id>

    /** One step either way, with its mark on the card left behind. */
    method Go(forward: bool, asks: set<Id>) returns (finished: bool)
      requires pager.Some? && Well(pager.value)
      modifies this
      ensures var p := old(pager.value);
              var id := p.ids[p.index];
              var marks := forward && id in old(inbox) && id !in asks;
              && readHere == old(readHere) + (if marks then {id} else {})
              && inbox == old(inbox) - (if marks then {id} else {})
              && finished == Stepped(p, forward).Finished?
              && pager == (if finished then None else Some(Stepped(p, forward).pages))
      ensures pager.Some? ==> Well(pager.value)
    {
      var p := pager.value;
      if forward {
        var id := p.ids[p.index];
        if id in inbox && id !in asks { readHere, inbox := readHere + {id}, inbox - {id}; }
      }
      var next := Stepped(p, forward);
      finished := next.Finished?;
      pager := if next.Finished? then None else Some(next.pages);
    }

    /** Takes out, one by one, what the poll no longer lists, unless it was read here or is on show. */
    method Prune(present: set<Id>)
      requires pager.Some? && Well(pager.value)
      modifies this`pager
      ensures pager.Some? && Well(pager.value)
      ensures pager.value.ids[pager.value.index] == old(pager.value).ids[old(pager.value).index]
      ensures forall id :: id in pager.value.ids <==>
                id in old(pager.value).ids
                && (id in present || id in readHere || id == old(pager.value).ids[old(pager.value).index])
    {
      var p0 := pager.value;
      var current, p := p0.ids[p0.index], p0;
      for k := 0 to |p0.ids|
        invariant Well(p) && p.ids[p.index] == current
        invariant forall id :: id in p.ids <==>
                    id in p0.ids && (id !in p0.ids[..k] || id in present || id in readHere || id == current)
      {
        var id := p0.ids[k];
        assert p0.ids[..k + 1] == p0.ids[..k] + [id];
        if id != current && id !in present && id !in readHere {
          IndexFacts(p.ids, id);
          var at := IndexOf(p.ids, id).value;
          WithoutFacts(p.ids, at);
          assert at != p.index;
          LeavingKeepsTheCard(p, at);
          ghost var q := p;
          p := Removed(p, id).pages;
          OutOnly(q.ids, at);
        }
      }
      pager := Some(p);
    }
  }
}
