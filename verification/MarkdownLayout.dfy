/** How the lines of a reply come together in blocks, and where one block ends and the next begins. */
module MarkdownLayout {
  import opened Options
  import opened Characters
  import opened Html
  import opened MarkdownInline
  import opened MarkdownBlocks

  // ---- where a block begins and ends -----------------------------------------------------------------------------

  predicate WellMade(b: Block) {
    match b
    case Para(es) => es != []
    case Heading(_) => true
    case Listing(_, _, items) => items != [] && (forall k | 0 <= k < |items| :: items[k] != [])
  }

  function FirstOf(es: seq<Entry>): nat { if es == [] then 0 else es[0].at }

  function LastOf(es: seq<Entry>): nat { if es == [] then 0 else es[|es| - 1].at }

  function FirstAt(b: Block): nat {
    match b
    case Para(es) => FirstOf(es)
    case Heading(e) => e.at
    case Listing(_, _, items) => if items == [] then 0 else FirstOf(items[0])
  }

  function LastAt(b: Block): nat {
    match b
    case Para(es) => LastOf(es)
    case Heading(e) => e.at
    case Listing(_, _, items) => if items == [] then 0 else LastOf(items[|items| - 1])
  }

  predicate Blank(lines: seq<string>, m: nat) { m < |lines| && Trim(Untab(lines[m])) == "" }

  predicate Rules(lines: seq<string>, m: nat) { m < |lines| && !Blank(lines, m) && IsRule(Untab(lines[m])) }

  predicate BlankBetween(lines: seq<string>, i: nat, j: nat) { forall m | i < m < j :: Blank(lines, m) }

  predicate RuleBetween(lines: seq<string>, i: nat, j: nat) { exists m | i < m < j :: Rules(lines, m) }

  predicate Adjacent(es: seq<Entry>) { forall k | 0 < k < |es| :: es[k].at == es[k - 1].at + 1 }

  /**
   * A paragraph is lines that follow each other. So is each item of a list, and between two items of one list there are
   * only blank lines.
   */
  predicate Together(b: Block, lines: seq<string>) {
    && WellMade(b)
    && match b
       case Para(es) => Adjacent(es)
       case Heading(_) => true
       case Listing(_, _, items) =>
         && (forall k | 0 <= k < |items| :: Adjacent(items[k]))
         && (forall k | 0 < k < |items| ::
               LastOf(items[k - 1]) < FirstOf(items[k]) && BlankBetween(lines, LastOf(items[k - 1]), FirstOf(items[k])))
  }

  /**
   * Two paragraphs have a line between them, blank or a rule, and so do a list and text after it; two lists are of
   * different kinds or have a rule between them.
   */
  predicate Apart(a: Block, b: Block, lines: seq<string>) {
    && LastAt(a) < FirstAt(b)
    && (a.Para? && b.Para? ==> LastAt(a) + 1 < FirstAt(b))
    && (a.Listing? && !b.Listing? ==> LastAt(a) + 1 < FirstAt(b))
    && (a.Listing? && b.Listing? ==> a.ordered != b.ordered || RuleBetween(lines, LastAt(a), FirstAt(b)))
  }

  /** The block a build is still making. */
  function Making(b: Build): seq<Block> {
    if b.para != [] then [Para(b.para)] else if b.list.Some? then [b.list.value] else []
  }

  predicate AllTogether(bs: seq<Block>, lines: seq<string>) { forall k | 0 <= k < |bs| :: Together(bs[k], lines) }

  predicate AllApart(bs: seq<Block>, lines: seq<string>) {
    forall k | 0 < k < |bs| :: Apart(bs[k - 1], bs[k], lines)
  }

  /** A block that was ended when `n` lines were read: by what ends it, which stands after it. */
  predicate Ended(last: Block, lines: seq<string>, n: nat) {
    && LastAt(last) < n
    && (last.Para? ==> LastAt(last) + 1 < n)
    && (last.Listing? ==> LastAt(last) + 1 < n && RuleBetween(lines, LastAt(last), n))
  }

  /** The blocks of the first `n` lines, the one still being made among them. */
  ghost predicate LaidOut(b: Build, lines: seq<string>, n: nat) {
    var all := b.out + Making(b);
    && n <= |lines| && (b.gap <==> n > 0 && Blank(lines, n - 1))
    && AllTogether(all, lines) && AllApart(all, lines)
    && (b.para != [] ==> LastOf(b.para) + 1 == n)
    && (b.list.Some? && b.para == [] ==>
          && b.list.value.Listing? && LastAt(b.list.value) < n && BlankBetween(lines, LastAt(b.list.value), n)
          && (b.gap ==> LastAt(b.list.value) + 1 < n))
    && (Making(b) == [] && b.out != [] ==> Ended(b.out[|b.out| - 1], lines, n))
  }

  // ---- one line more ---------------------------------------------------------------------------------------------

  /** What is made is replaced, by something that begins where it did. */
  lemma Replaced(all: seq<Block>, last: Block, lines: seq<string>)
    requires all != [] && AllTogether(all, lines) && AllApart(all, lines) && Together(last, lines)
    requires var was := all[|all| - 1];
      FirstAt(last) == FirstAt(was) && last.Para? == was.Para? && last.Listing? == was.Listing?
      && (was.Listing? ==> last.ordered == was.ordered)
    ensures AllTogether(all[..|all| - 1] + [last], lines) && AllApart(all[..|all| - 1] + [last], lines)
  {
    var front, new_ := all[..|all| - 1], all[..|all| - 1] + [last];
    forall k | 0 <= k < |new_| ensures Together(new_[k], lines) { assert k < |front| ==> new_[k] == all[k]; }
    forall k | 0 < k < |new_| ensures Apart(new_[k - 1], new_[k], lines) {
      assert Apart(all[k - 1], all[k], lines) && new_[k - 1] == all[k - 1];
    }
  }

  lemma Added(all: seq<Block>, last: Block, lines: seq<string>)
    requires AllTogether(all, lines) && AllApart(all, lines) && Together(last, lines)
    requires all != [] ==> Apart(all[|all| - 1], last, lines)
    ensures AllTogether(all + [last], lines) && AllApart(all + [last], lines)
  {
    var new_ := all + [last];
    forall k | 0 <= k < |new_| ensures Together(new_[k], lines) { assert k < |all| ==> new_[k] == all[k]; }
    forall k | 0 < k < |new_| ensures Apart(new_[k - 1], new_[k], lines) {
      assert k < |all| ==> Apart(all[k - 1], all[k], lines);
    }
  }

  // Each way a line goes, from a build laid out for the lines before it.

  lemma ListCarriesOn(list: Block, lines: seq<string>, n: nat, e: Entry)
    requires Together(list, lines) && list.Listing? && e.at == n == LastAt(list) + 1
    ensures Together(CarryOn(list, e), lines) && LastAt(CarryOn(list, e)) == n
    ensures FirstAt(CarryOn(list, e)) == FirstAt(list) && CarryOn(list, e).ordered == list.ordered
  {
    var last := |list.items| - 1;
    var more := CarryOn(list, e);
    assert forall k | 0 <= k < last :: more.items[k] == list.items[k];
    assert more.items[last] == list.items[last] + [e];
    assert Adjacent(list.items[last]);
  }

  lemma ListGrows(list: Block, lines: seq<string>, n: nat, item: Item)
    requires Together(list, lines) && list.Listing? && LastAt(list) < n && BlankBetween(lines, LastAt(list), n)
    ensures Together(MoreList(list, n, item), lines) && LastAt(MoreList(list, n, item)) == n
    ensures FirstAt(MoreList(list, n, item)) == FirstAt(list) && MoreList(list, n, item).ordered == list.ordered
  {
    var more := MoreList(list, n, item);
    assert forall k | 0 <= k < |list.items| :: more.items[k] == list.items[k];
    assert more.items[|list.items|] == [Entry(n, item.text)];
  }

  lemma NoneMade(b: Build, lines: seq<string>, n: nat)
    requires LaidOut(b, lines, n) && Making(b) == []
    ensures AllTogether(b.out, lines) && AllApart(b.out, lines)
  {
    assert b.out + Making(b) == b.out;
  }

  lemma CarriedOn(b: Build, lines: seq<string>, n: nat, text: string)
    requires LaidOut(b, lines, n) && Shaped(b) && n < |lines| && !Blank(lines, n) && b.list.Some? && !b.gap
    ensures LaidOut(b.(gap := false, list := Some(CarryOn(b.list.value, Entry(n, text)))), lines, n + 1)
  {
    var list := b.list.value;
    var all := b.out + Making(b);
    assert all[|b.out|] == list && all[..|b.out|] == b.out;
    assert !Blank(lines, n - 1);
    ListCarriesOn(list, lines, n, Entry(n, text));
    Replaced(all, CarryOn(list, Entry(n, text)), lines);
  }

  lemma SameListGoesOn(b: Build, lines: seq<string>, n: nat, item: Item)
    requires LaidOut(b, lines, n) && Shaped(b) && n < |lines| && !Blank(lines, n)
    requires b.para == [] && b.list.Some? && b.list.value.ordered == item.ordered
    ensures LaidOut(b.(gap := false, list := Some(MoreList(b.list.value, n, item))), lines, n + 1)
  {
    var list := b.list.value;
    var all := b.out + Making(b);
    assert all[|b.out|] == list && all[..|b.out|] == b.out;
    ListGrows(list, lines, n, item);
    Replaced(all, MoreList(list, n, item), lines);
  }

  /** What stands last, ended or about to be, lets `next` begin at `n`. */
  lemma NextIsApart(b: Build, lines: seq<string>, n: nat, next: Block)
    requires LaidOut(b, lines, n) && Shaped(b) && FirstAt(next) == n
    requires b.para != [] ==> !next.Para?
    requires b.list.Some? ==> if next.Listing? then next.ordered != b.list.value.ordered else b.gap
    ensures var all := b.out + Making(b); all != [] ==> Apart(all[|all| - 1], next, lines)
  {
  }

  /** The block in the making is ended and another begun. */
  lemma NextBegins(b: Build, lines: seq<string>, n: nat, next: Block)
    requires LaidOut(b, lines, n) && Shaped(b) && FirstAt(next) == n && Together(next, lines)
    requires b.para != [] ==> !next.Para?
    requires b.list.Some? ==> if next.Listing? then next.ordered != b.list.value.ordered else b.gap
    ensures var all := b.out + Making(b) + [next]; AllTogether(all, lines) && AllApart(all, lines)
    ensures EndList(EndPara(b)).out == b.out + Making(b)
  {
    NextIsApart(b, lines, n, next);
    Added(b.out + Making(b), next, lines);
  }

  lemma ItemGoes(b: Build, lines: seq<string>, n: nat, item: Item)
    requires LaidOut(b, lines, n) && Shaped(b) && n < |lines| && !Blank(lines, n)
    ensures LaidOut(AddItem(b.(gap := false), n, item), lines, n + 1)
  {
    if b.para == [] && b.list.Some? && b.list.value.ordered == item.ordered {
      SameListGoesOn(b, lines, n, item);
    } else {
      NextBegins(b, lines, n, Listing(item.ordered, item.start, [[Entry(n, item.text)]]));
    }
  }

  lemma ParagraphGoesOn(b: Build, lines: seq<string>, n: nat, e: Entry)
    requires LaidOut(b, lines, n) && Shaped(b) && n < |lines| && !Blank(lines, n) && b.para != [] && e.at == n
    ensures LaidOut(b.(gap := false, para := b.para + [e]), lines, n + 1)
  {
    var all := b.out + Making(b);
    assert all[|b.out|] == Para(b.para) && all[..|b.out|] == b.out;
    assert Adjacent(b.para + [e]) by { assert Together(Para(b.para), lines); }
    Replaced(all, Para(b.para + [e]), lines);
  }

  lemma PlainGoes(b: Build, lines: seq<string>, n: nat)
    requires LaidOut(b, lines, n) && Shaped(b) && n < |lines| && !Blank(lines, n) && (b.list.Some? ==> b.gap)
    ensures LaidOut(PlainLine(b.(gap := false), n, Untab(lines[n])), lines, n + 1)
  {
    var line := Untab(lines[n]);
    match HeadingOf(line) {
      case Some(text) => NextBegins(b, lines, n, Heading(Entry(n, text)));
      case None =>
        var e := Entry(n, ParaText(line));
        if b.para != [] { ParagraphGoesOn(b, lines, n, e); } else { NextBegins(b, lines, n, Para([e])); }
    }
  }

  lemma BlankGoes(b: Build, lines: seq<string>, n: nat)
    requires LaidOut(b, lines, n) && Shaped(b) && Blank(lines, n)
    ensures LaidOut(EndPara(b).(gap := true), lines, n + 1)
  {
    assert b.out + Making(b) == EndPara(b).out + Making(EndPara(b));
  }

  lemma RuleGoes(b: Build, lines: seq<string>, n: nat)
    requires LaidOut(b, lines, n) && Shaped(b) && Rules(lines, n)
    ensures LaidOut(EndList(EndPara(b.(gap := false))), lines, n + 1)
  {
    assert b.out + Making(b) == EndList(EndPara(b)).out;
  }

  lemma LineGoes(b: Build, lines: seq<string>, n: nat)
    requires LaidOut(b, lines, n) && Shaped(b) && n < |lines|
    ensures LaidOut(Line(b, n, lines[n]), lines, n + 1)
  {
    var line := Untab(lines[n]);
    if Blank(lines, n) { BlankGoes(b, lines, n); }
    else if Rules(lines, n) { RuleGoes(b, lines, n); }
    else if ItemOf(line).Some? { ItemGoes(b, lines, n, ItemOf(line).value); }
    else if b.list.Some? && !b.gap { CarriedOn(b, lines, n, Trim(line)); }
    else { PlainGoes(b, lines, n); }
  }

  lemma NothingIsLaidOut(lines: seq<string>)
    ensures LaidOut(EMPTY, lines, 0)
  {
  }

  lemma OneLineBuilt(lines: seq<string>, n: nat)
    requires 0 < n <= |lines|
    ensures BuildOf(lines[..n]) == Line(BuildOf(lines[..n - 1]), n - 1, lines[n - 1])
  {
    assert lines[..n][..n - 1] == lines[..n - 1];
  }

  lemma {:induction false} BuildIsLaidOut(lines: seq<string>, n: nat)
    requires n <= |lines|
    ensures LaidOut(BuildOf(lines[..n]), lines, n)
  {
    if n == 0 {
      NothingIsLaidOut(lines);
    } else {
      BuildIsLaidOut(lines, n - 1);
      LineGoes(BuildOf(lines[..n - 1]), lines, n - 1);
      OneLineBuilt(lines, n);
    }
  }

  /** The lines of each block belong together, and the blocks are apart. */
  lemma BlocksAreLaidOut(lines: seq<string>)
    ensures AllTogether(Blocks(lines), lines) && AllApart(Blocks(lines), lines)
  {
    BuildIsLaidOut(lines, |lines|);
    assert lines[..|lines|] == lines;
    var b := BuildOf(lines);
    assert b.out + Making(b) == EndList(EndPara(b)).out;
  }
}
