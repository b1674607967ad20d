/** A whole reply: its lines gathered into paragraphs, labels and lists, and drawn. */
module MarkdownBlocks {
  import opened Options
  import opened Characters
  import opened Html
  import opened MarkdownInline
  import opened MarkdownProperties

  const LINES_MAX := 400

  // ---- one line --------------------------------------------------------------------------------------------------

  /** The lines of a text, whichever way they end. */
  function Split(s: string): (lines: seq<string>)
    ensures lines != []
    decreases |s|
  {
    if s == "" then [""]
    else if s[0] == '\n' then [""] + Split(s[1..])
    else if s[0] == '\r' then [""] + Split(if |s| > 1 && s[1] == '\n' then s[2..] else s[1..])
    else
      var rest := Split(s[1..]);
      [[s[0]] + rest[0]] + rest[1..]
  }

  function FirstLines(text: string): seq<string> {
    var lines := Split(text);
    if |lines| > LINES_MAX then lines[..LINES_MAX] else lines
  }

  function Untab(s: string): string {
    if s == "" then "" else (if s[0] == '\t' then "    " else [s[0]]) + Untab(s[1..])
  }

  /** Where a run of characters from `set` that starts at `i` ends. */
  function RunEnd(s: string, i: nat, set_: string): (j: nat)
    requires i <= |s|
    ensures i <= j <= |s|
    decreases |s| - i
  {
    if i < |s| && s[i] in set_ then RunEnd(s, i + 1, set_) else i
  }

  function StripEnd(s: string, set_: string): string {
    if s != "" && s[|s| - 1] in set_ then StripEnd(s[..|s| - 1], set_) else s
  }

  /** What a dot in a pattern matches: anything but an end of line. */
  predicate Dots(s: string) {
    forall k | 0 <= k < |s| :: s[k] !in "\n\r\U{2028}\U{2029}"
  }

  function Count(s: string, c: char): nat {
    if s == "" then 0 else (if s[0] == c then 1 else 0) + Count(s[1..], c)
  }

  predicate IsRule(line: string) {
    var j := RunEnd(line, 0, " ");
    && j <= 3 && j < |line| && line[j] in "-*_"
    && RunEnd(line, j, [line[j], ' ', '\t']) == |line|
    && Count(line[j..], line[j]) >= 3
  }

  function Number(digits: string): nat {
    if digits == "" then 0
    else
      var last := digits[|digits| - 1];
      10 * Number(digits[..|digits| - 1]) + (if '0' <= last <= '9' then (last as int) - ('0' as int) else 0)
  }

  datatype Item = Item(ordered: bool, start: nat, text: string)

  /** A list item: its marker, whether it is numbered, and its words. */
  function ItemOf(line: string): Option<Item> {
    var j := RunEnd(line, 0, " ");
    if j > 12 || j == |line| then None else
    var d := RunEnd(line, j, "0123456789");
    var bullet := line[j] in "-*+\U{2022}";
    if !bullet && !(1 <= d - j <= 3 && d < |line| && line[d] in ".)") then None else
    var m := if bullet then j + 1 else d + 1;
    var b := RunEnd(line, m, " \t");
    if b == m || (b == |line| && b < m + 2) || !Dots(line[b..]) then None
    else Some(Item(!bullet, if bullet || Number(line[j..d]) < 1 then 1 else Number(line[j..d]), Trim(line[b..])))
  }

  function HeadingOf(line: string): Option<string> {
    var j := RunEnd(line, 0, " ");
    var h := RunEnd(line, j, "#");
    if j > 3 || !(1 <= h - j <= 6) then None else
    var b := RunEnd(line, h, " \t");
    var text := StripEnd(line[b..], " \t#");
    if b == h || !Dots(text) then None else Some(text)
  }

  /** A line that is only bold, with or without a colon after it. */
  predicate IsLabel(line: string) {
    |line| > 4 && line[0] in "*_" && line[1] == line[0] &&
    var q := IndexOf(line, line[0], 2, 2);
    q.Some? && q.value > 2 && q.value + 2 <= |line| && Dots(line[2..q.value]) && line[q.value + 2..] in ["", ":"]
  }

  /** A paragraph's line: trimmed, a quote mark and one space before it gone. */
  function ParaText(line: string): string {
    var t := Trim(line);
    if t != "" && t[0] == '>' then (if |t| > 1 && t[1] == ' ' then t[2..] else t[1..]) else t
  }

  predicate Kept(raw: string) { Trim(Untab(raw)) != "" && !IsRule(Untab(raw)) }

  // ---- the blocks ------------------------------------------------------------------------------------------------

  /** A line's words, with which line of the reply they are. */
  datatype Entry = Entry(at: nat, text: string)

  datatype Block =
    | Para(lines: seq<Entry>)
    | Heading(line: Entry)
    | Listing(ordered: bool, start: nat, items: seq<seq<Entry>>)

  datatype Build = Build(out: seq<Block>, para: seq<Entry>, list: Option<Block>, gap: bool)

  const EMPTY := Build([], [], None, false)

  function EndPara(b: Build): Build {
    if b.para == [] then b else b.(out := b.out + [Para(b.para)], para := [])
  }

  function EndList(b: Build): Build {
    if b.list.None? then b else b.(out := b.out + [b.list.value], list := None)
  }

  predicate Shaped(b: Build) {
    && (b.list.Some? ==> b.list.value.Listing? && b.list.value.items != [])
    && (b.para == [] || b.list.None?)
  }

  function NewList(b: Build, n: nat, item: Item): Build {
    EndList(b).(list := Some(Listing(item.ordered, item.start, [[Entry(n, item.text)]])))
  }

  function MoreList(list: Block, n: nat, item: Item): Block
    requires list.Listing?
  {
    list.(items := list.items + [[Entry(n, item.text)]])
  }

  function AddItem(b: Build, n: nat, item: Item): (b': Build)
    requires Shaped(b)
    ensures Shaped(b')
  {
    var c := EndPara(b);
    if c.list.Some? && c.list.value.ordered == item.ordered then c.(list := Some(MoreList(c.list.value, n, item)))
    else NewList(c, n, item)
  }

  function CarryOn(list: Block, e: Entry): Block
    requires list.Listing? && list.items != []
  {
    var last := |list.items| - 1;
    list.(items := list.items[..last] + [list.items[last] + [e]])
  }

  /** A line that is no item and carries none on: a heading becomes a label, anything else joins the paragraph. */
  function PlainLine(b: Build, n: nat, line: string): (b': Build)
    requires Shaped(b)
    ensures Shaped(b')
  {
    var c := EndList(b);
    match HeadingOf(line)
    case Some(text) => EndPara(c).(out := EndPara(c).out + [Heading(Entry(n, text))])
    case None => c.(para := c.para + [Entry(n, ParaText(line))])
  }

  /** One line more. */
  function Line(b: Build, n: nat, raw: string): (b': Build)
    requires Shaped(b)
    ensures Shaped(b')
  {
    var line, c := Untab(raw), b.(gap := false);
    if Trim(line) == "" then EndPara(b).(gap := true)
    else if IsRule(line) then EndList(EndPara(c))
    else if ItemOf(line).Some? then AddItem(c, n, ItemOf(line).value)
    else if b.list.Some? && !b.gap then c.(list := Some(CarryOn(b.list.value, Entry(n, Trim(line)))))
    else PlainLine(c, n, line)
  }

  function BuildOf(lines: seq<string>): (b: Build)
    ensures Shaped(b)
  {
    if lines == [] then EMPTY else Line(BuildOf(lines[..|lines| - 1]), |lines| - 1, lines[|lines| - 1])
  }

  function Blocks(lines: seq<string>): seq<Block> { EndList(EndPara(BuildOf(lines))).out }

  // ---- every line in one place -----------------------------------------------------------------------------------

  function ItemEntries(items: seq<seq<Entry>>): seq<Entry> {
    if items == [] then [] else items[0] + ItemEntries(items[1..])
  }

  function BlockEntries(b: Block): seq<Entry> {
    match b
    case Para(lines) => lines
    case Heading(line) => [line]
    case Listing(_, _, items) => ItemEntries(items)
  }

  /** What the blocks hold, in the order it is drawn. */
  function AllEntries(bs: seq<Block>): seq<Entry> {
    if bs == [] then [] else BlockEntries(bs[0]) + AllEntries(bs[1..])
  }

  function BuildEntries(b: Build): seq<Entry> {
    AllEntries(b.out) + (if b.list.Some? then BlockEntries(b.list.value) else []) + b.para
  }

  /** The words of a kept line: an item's, those carrying an item on, a heading's, or a paragraph's. */
  function WordsOf(raw: string, carriesOn: bool): string {
    var line := Untab(raw);
    if ItemOf(line).Some? then ItemOf(line).value.text
    else if carriesOn then Trim(line)
    else if HeadingOf(line).Some? then HeadingOf(line).value
    else ParaText(line)
  }

  predicate CarriesOn(b: Build) { b.list.Some? && !b.gap }

  /** The last line's own words, if it is kept. */
  function LastEntry(lines: seq<string>): seq<Entry>
    requires lines != []
  {
    var n := |lines| - 1;
    if Kept(lines[n]) then [Entry(n, WordsOf(lines[n], CarriesOn(BuildOf(lines[..n]))))] else []
  }

  /** Every kept line's own words, in input order. */
  function KeptEntries(lines: seq<string>): seq<Entry> {
    if lines == [] then [] else KeptEntries(lines[..|lines| - 1]) + LastEntry(lines)
  }

  lemma {:induction false} ItemEntriesAppend(a: seq<seq<Entry>>, b: seq<seq<Entry>>)
    ensures ItemEntries(a + b) == ItemEntries(a) + ItemEntries(b)
  {
    if a == [] { assert a + b == b; } else { assert (a + b)[1..] == a[1..] + b; ItemEntriesAppend(a[1..], b); }
  }

  lemma {:induction false} AllEntriesAppend(a: seq<Block>, b: seq<Block>)
    ensures AllEntries(a + b) == AllEntries(a) + AllEntries(b)
  {
    if a == [] { assert a + b == b; } else { assert (a + b)[1..] == a[1..] + b; AllEntriesAppend(a[1..], b); }
  }

  lemma OneBlock(bs: seq<Block>, b: Block)
    ensures AllEntries(bs + [b]) == AllEntries(bs) + BlockEntries(b)
  {
    AllEntriesAppend(bs, [b]);
    assert [b][1..] == [];
  }

  lemma OneItem(items: seq<seq<Entry>>, item: seq<Entry>)
    ensures ItemEntries(items + [item]) == ItemEntries(items) + item
  {
    ItemEntriesAppend(items, [item]);
    assert [item][1..] == [];
  }

  lemma EndingKeepsEntries(b: Build)
    requires Shaped(b)
    ensures BuildEntries(EndPara(b)) == BuildEntries(b) && BuildEntries(EndList(b)) == BuildEntries(b)
    ensures BuildEntries(EndList(EndPara(b))) == AllEntries(EndList(EndPara(b)).out) == BuildEntries(b)
  {
    if b.para != [] { OneBlock(b.out, Para(b.para)); }
    if b.list.Some? { OneBlock(b.out, b.list.value); }
  }

  lemma CarriedOn(list: Block, e: Entry)
    requires list.Listing? && list.items != []
    ensures BlockEntries(CarryOn(list, e)) == BlockEntries(list) + [e]
  {
    var last := |list.items| - 1;
    assert list.items == list.items[..last] + [list.items[last]];
    OneItem(list.items[..last], list.items[last]);
    OneItem(list.items[..last], list.items[last] + [e]);
  }

  lemma ListMade(b: Build, n: nat, item: Item)
    requires Shaped(b) && b.para == []
    ensures BuildEntries(NewList(b, n, item)) == BuildEntries(b) + [Entry(n, item.text)]
  {
    EndingKeepsEntries(b);
    OneItem([], [Entry(n, item.text)]);
    assert [] + [[Entry(n, item.text)]] == [[Entry(n, item.text)]];
  }

  lemma ItemAdded(b: Build, n: nat, item: Item)
    requires Shaped(b)
    ensures BuildEntries(AddItem(b, n, item)) == BuildEntries(b) + [Entry(n, item.text)]
  {
    var c := EndPara(b);
    EndingKeepsEntries(b);
    if c.list.Some? && c.list.value.ordered == item.ordered {
      OneItem(c.list.value.items, [Entry(n, item.text)]);
    } else {
      ListMade(c, n, item);
    }
  }

  lemma HeadingAdded(b: Build, e: Entry)
    requires Shaped(b) && b.list.None?
    ensures BuildEntries(EndPara(b).(out := EndPara(b).out + [Heading(e)])) == BuildEntries(b) + [e]
  {
    EndingKeepsEntries(b);
    OneBlock(EndPara(b).out, Heading(e));
  }

  lemma PlainLineAdded(b: Build, n: nat, line: string)
    requires Shaped(b)
    ensures var text := if HeadingOf(line).Some? then HeadingOf(line).value else ParaText(line);
      BuildEntries(PlainLine(b, n, line)) == BuildEntries(b) + [Entry(n, text)]
  {
    var c := EndList(b);
    EndingKeepsEntries(b);
    match HeadingOf(line) {
      case Some(text) => HeadingAdded(c, Entry(n, text));
      case None => assert c.list.None?;
    }
  }

  lemma LineAdded(b: Build, n: nat, raw: string)
    requires Shaped(b)
    ensures BuildEntries(Line(b, n, raw)) ==
      BuildEntries(b) + if Kept(raw) then [Entry(n, WordsOf(raw, CarriesOn(b)))] else []
  {
    var line, c := Untab(raw), b.(gap := false);
    assert BuildEntries(c) == BuildEntries(b);
    if Trim(line) == "" {
      EndingKeepsEntries(b);
      assert BuildEntries(EndPara(b).(gap := true)) == BuildEntries(EndPara(b));
    } else if IsRule(line) {
      EndingKeepsEntries(c);
    } else if ItemOf(line).Some? {
      ItemAdded(c, n, ItemOf(line).value);
    } else if b.list.Some? && !b.gap {
      CarriedOn(b.list.value, Entry(n, Trim(line)));
    } else {
      PlainLineAdded(c, n, line);
    }
  }

  /**
   * Every line of the first 400 that is neither blank nor a rule stands in exactly one block, once, in the order it
   * came and with its own words.
   */
  lemma {:induction false} EveryLineOnce(lines: seq<string>)
    ensures AllEntries(Blocks(lines)) == BuildEntries(BuildOf(lines)) == KeptEntries(lines)
  {
    EndingKeepsEntries(BuildOf(lines));
    if lines != [] {
      EveryLineOnce(lines[..|lines| - 1]);
      LineAdded(BuildOf(lines[..|lines| - 1]), |lines| - 1, lines[|lines| - 1]);
    }
  }

  lemma {:induction false} OnlyKeptEntries(lines: seq<string>)
    ensures forall e | e in KeptEntries(lines) :: e.at < |lines| && Kept(lines[e.at])
  {
    if lines != [] {
      OnlyKeptEntries(lines[..|lines| - 1]);
      var last := LastEntry(lines);
      assert forall e | e in last :: e.at == |lines| - 1 && Kept(lines[e.at]);
      assert forall e | e in KeptEntries(lines) :: e in KeptEntries(lines[..|lines| - 1]) || e in last;
    }
  }

  lemma {:induction false} AllKeptEntries(lines: seq<string>, n: nat) returns (e: Entry)
    requires n < |lines| && Kept(lines[n])
    ensures e in KeptEntries(lines) && e.at == n
  {
    if n < |lines| - 1 {
      e := AllKeptEntries(lines[..|lines| - 1], n);
    } else {
      e := LastEntry(lines)[0];
      assert e in LastEntry(lines);
    }
  }

  /** Which lines those are: every one that is neither blank nor a rule. */
  lemma KeptEntriesFacts(lines: seq<string>)
    ensures forall e | e in KeptEntries(lines) :: e.at < |lines| && Kept(lines[e.at])
    ensures forall n | 0 <= n < |lines| && Kept(lines[n]) :: exists e :: e in KeptEntries(lines) && e.at == n
  {
    OnlyKeptEntries(lines);
    forall n | 0 <= n < |lines| && Kept(lines[n])
      ensures exists e :: e in KeptEntries(lines) && e.at == n
    {
      var e := AllKeptEntries(lines, n);
    }
  }

  /** Each once, and in order. */
  lemma {:induction false} KeptEntriesAscend(lines: seq<string>)
    ensures forall i, j | 0 <= i < j < |KeptEntries(lines)| :: KeptEntries(lines)[i].at < KeptEntries(lines)[j].at
  {
    if lines != [] {
      var before := KeptEntries(lines[..|lines| - 1]);
      KeptEntriesAscend(lines[..|lines| - 1]);
      OnlyKeptEntries(lines[..|lines| - 1]);
      assert forall k | 0 <= k < |before| :: before[k] in before && before[k].at < |lines| - 1;
    }
  }

  // ---- drawing ---------------------------------------------------------------------------------------------------

  function LineHtml(text: string, r: Rules): string { ToHtml(Parse(text, 0, false, r)) }

  function Joined(lines: seq<Entry>, r: Rules): string {
    if lines == [] then ""
    else if |lines| == 1 then LineHtml(lines[0].text, r)
    else LineHtml(lines[0].text, r) + "<br>" + Joined(lines[1..], r)
  }

  function ItemsHtml(items: seq<seq<Entry>>, r: Rules): string {
    if items == [] then "" else Element("li", Joined(items[0], r)) + ItemsHtml(items[1..], r)
  }

  function Decimal(n: nat): string {
    (if n < 10 then "" else Decimal(n / 10)) + [(n % 10 + '0' as int) as char]
  }

  function Labelled(inside: string): string { "<" + "p class=\"label\"" + ">" + inside + "</" + "p" + ">" }

  function ListTag(start: nat): string { if start != 1 then "ol start=\"" + Decimal(start) + "\"" else "ol" }

  function ListHtml(ordered: bool, start: nat, inside: string): string {
    if !ordered then Element("ul", inside) else "<" + ListTag(start) + ">" + inside + "</" + "ol" + ">"
  }

  function BlockHtml(b: Block, r: Rules): string {
    match b
    case Para(lines) =>
      if |lines| == 1 && IsLabel(lines[0].text) then Labelled(Joined(lines, r)) else Element("p", Joined(lines, r))
    case Heading(line) => Labelled(LineHtml(line.text, r))
    case Listing(ordered, start, items) => ListHtml(ordered, start, ItemsHtml(items, r))
  }

  function ReplyHtml(bs: seq<Block>, r: Rules): string {
    if bs == [] then "" else BlockHtml(bs[0], r) + ReplyHtml(bs[1..], r)
  }

  // ---- the whole reply is balanced --------------------------------------------------------------------------------

  lemma BreakIsWhole(stack: seq<string>)
    ensures Whole("<br>", stack)
  {
    forall more ensures Nested("<br>" + more, stack) == Nested(more, stack) {
      assert "<br>" == ['<'] + "br" + ['>'];
      NestedTag("br", more, stack);
    }
  }

  lemma {:induction false} JoinedIsNested(lines: seq<Entry>, r: Rules, stack: seq<string>)
    requires "button" !in stack
    ensures Whole(Joined(lines, r), stack)
  {
    if lines == [] {
      TextIsWhole("", stack);
    } else {
      var first := LineHtml(lines[0].text, r);
      LineIsNested(lines[0].text, r, stack);
      if |lines| > 1 {
        BreakIsWhole(stack);
        JoinedIsNested(lines[1..], r, stack);
        WholeAppend(first, "<br>", stack);
        WholeAppend(first + "<br>", Joined(lines[1..], r), stack);
      }
    }
  }

  lemma {:induction false} ItemsAreNested(items: seq<seq<Entry>>, r: Rules, stack: seq<string>)
    requires "button" !in stack
    ensures Whole(ItemsHtml(items, r), stack)
  {
    if items == [] {
      TextIsWhole("", stack);
    } else {
      JoinedIsNested(items[0], r, ["li"] + stack);
      PlainTag("li", stack);
      WholeElement("li", "li", Joined(items[0], r), stack);
      ItemsAreNested(items[1..], r, stack);
      WholeAppend(Element("li", Joined(items[0], r)), ItemsHtml(items[1..], r), stack);
    }
  }

  lemma {:induction false} DecimalIsDigits(n: nat)
    ensures Digits(Decimal(n))
  {
    if n >= 10 { DecimalIsDigits(n / 10); }
  }

  lemma StartTag(start: nat, stack: seq<string>)
    ensures Opens("ol start=\"" + Decimal(start) + "\"", "ol", stack)
  {
    var digits := Decimal(start);
    var tag := "ol start=\"" + digits + "\"";
    DecimalIsDigits(start);
    assert tag[10..|tag| - 1] == digits;
    FindIn("ol", ' ', "start=\"" + digits + "\"");
    assert tag == "ol" + [' '] + ("start=\"" + digits + "\"");
    assert tag[..2] == "ol" && tag[0] == 'o';
    assert '>' !in digits;
  }

  lemma LabelTag(stack: seq<string>)
    ensures Opens("p class=\"label\"", "p", stack)
  {
    var tag := "p class=\"label\"";
    FindIn("p", ' ', "class=\"label\"");
    assert tag == "p" + [' '] + "class=\"label\"";
    assert tag[..1] == "p" && '>' !in tag;
  }

  lemma BlockIsNested(b: Block, r: Rules)
    ensures Whole(BlockHtml(b, r), [])
  {
    match b {
      case Para(lines) =>
        JoinedIsNested(lines, r, ["p"] + []);
        ParagraphIsNested(Joined(lines, r));
      case Heading(line) =>
        LineIsNested(line.text, r, ["p"] + []);
        ParagraphIsNested(LineHtml(line.text, r));
      case Listing(ordered, start, items) => ListIsNested(ordered, start, items, r);
    }
  }

  lemma ParagraphIsNested(inside: string)
    requires Whole(inside, ["p"] + [])
    ensures Whole(Labelled(inside), []) && Whole(Element("p", inside), [])
  {
    LabelTag([]);
    WholeElement("p class=\"label\"", "p", inside, []);
    PlainTag("p", []);
    WholeElement("p", "p", inside, []);
  }

  lemma ListIsNested(ordered: bool, start: nat, items: seq<seq<Entry>>, r: Rules)
    ensures Whole(BlockHtml(Listing(ordered, start, items), r), [])
  {
    var inside := ItemsHtml(items, r);
    if !ordered {
      ItemsAreNested(items, r, ["ul"] + []);
      PlainTag("ul", []);
      WholeElement("ul", "ul", inside, []);
    } else {
      ItemsAreNested(items, r, ["ol"] + []);
      if start != 1 {
        StartTag(start, []);
        WholeElement("ol start=\"" + Decimal(start) + "\"", "ol", inside, []);
      } else {
        PlainTag("ol", []);
        WholeElement("ol", "ol", inside, []);
      }
    }
  }

  /** Whatever a reply says, what is drawn is balanced and made of the notch's own tags only. */
  lemma {:induction false} ReplyIsNested(bs: seq<Block>, r: Rules)
    ensures Nested(ReplyHtml(bs, r), []) && Whole(ReplyHtml(bs, r), [])
  {
    if bs == [] {
      TextIsWhole("", []);
    } else {
      BlockIsNested(bs[0], r);
      ReplyIsNested(bs[1..], r);
      WholeAppend(BlockHtml(bs[0], r), ReplyHtml(bs[1..], r), []);
    }
    assert ReplyHtml(bs, r) + "" == ReplyHtml(bs, r);
    assert Nested(ReplyHtml(bs, r) + "", []) == Nested("", []);
  }

  // ---- the reply as the code draws it ------------------------------------------------------------------------------

  lemma {:induction false} ReplyAppend(bs: seq<Block>, b: Block, r: Rules)
    ensures ReplyHtml(bs + [b], r) == ReplyHtml(bs, r) + BlockHtml(b, r)
  {
    if bs == [] {
      assert bs + [b] == [b] && [b][1..] == [];
    } else {
      assert (bs + [b])[1..] == bs[1..] + [b];
      ReplyAppend(bs[1..], b, r);
    }
  }

  method DrawJoined(lines: seq<Entry>, r: Rules) returns (html: string)
    ensures html == Joined(lines, r)
  {
    html := "";
    for k := |lines| downto 0
      invariant html == Joined(lines[k..], r)
    {
      var line := MdInline(lines[k].text, 0, false, r);
      assert lines[k..][1..] == lines[k + 1..];
      html := if k + 1 == |lines| then line else line + "<br>" + html;
    }
  }

  method DrawBlock(b: Block, r: Rules) returns (html: string)
    ensures html == BlockHtml(b, r)
  {
    match b {
      case Para(lines) =>
        var inside := DrawJoined(lines, r);
        html := if |lines| == 1 && IsLabel(lines[0].text) then Labelled(inside) else Element("p", inside);
      case Heading(line) =>
        var inside := MdInline(line.text, 0, false, r);
        html := Labelled(inside);
      case Listing(ordered, start, items) =>
        var inside := "";
        for k := |items| downto 0
          invariant inside == ItemsHtml(items[k..], r)
        {
          var item := DrawJoined(items[k], r);
          assert items[k..][1..] == items[k + 1..];
          inside := Element("li", item) + inside;
        }
        assert items[0..] == items;
        html := ListHtml(ordered, start, inside);
    }
  }

  /** Draws and ends the paragraph, if there is one. */
  method CloseParagraph(out: string, b: Build, r: Rules) returns (html: string)
    requires out == ReplyHtml(b.out, r)
    ensures html == ReplyHtml(EndPara(b).out, r)
  {
    if b.para == [] { return out; }
    var p := DrawBlock(Para(b.para), r);
    ReplyAppend(b.out, Para(b.para), r);
    html := out + p;
  }

  method CloseList(out: string, b: Build, r: Rules) returns (html: string)
    requires out == ReplyHtml(b.out, r)
    ensures html == ReplyHtml(EndList(b).out, r)
  {
    if b.list.None? { return out; }
    var l := DrawBlock(b.list.value, r);
    ReplyAppend(b.out, b.list.value, r);
    html := out + l;
  }

  /** One line of the reply: what it ends is drawn at once, what it begins is kept open. */
  method TakeLine(out: string, b: Build, n: nat, raw: string, r: Rules) returns (html: string)
    requires Shaped(b) && out == ReplyHtml(b.out, r)
    ensures html == ReplyHtml(Line(b, n, raw).out, r)
  {
    var line, c := Untab(raw), b.(gap := false);
    if Trim(line) == "" {
      html := CloseParagraph(out, b, r);
    } else if IsRule(line) {
      html := CloseParagraph(out, c, r);
      html := CloseList(html, EndPara(c), r);
    } else if ItemOf(line).Some? {
      var item, p := ItemOf(line).value, EndPara(c);
      html := CloseParagraph(out, c, r);
      if p.list.None? || p.list.value.ordered != item.ordered { html := CloseList(html, p, r); }
    } else if b.list.Some? && !b.gap {
      html := out;
    } else {
      html := CloseList(out, c, r);
      var h := HeadingOf(line);
      if h.Some? {
        var d := EndPara(EndList(c));
        html := CloseParagraph(html, EndList(c), r);
        var drawn := DrawBlock(Heading(Entry(n, h.value)), r);
        ReplyAppend(d.out, Heading(Entry(n, h.value)), r);
        html := html + drawn;
      }
    }
  }

  /** The drawing line by line is the drawing of the blocks the reply is made of. */
  method Md(text: string, r: Rules) returns (html: string)
    ensures html == ReplyHtml(Blocks(FirstLines(text)), r)
    ensures Nested(html, [])
  {
    var lines, b := FirstLines(text), EMPTY;
    html := "";
    for n := 0 to |lines|
      invariant b == BuildOf(lines[..n]) && html == ReplyHtml(b.out, r)
    {
      assert lines[..n + 1][..n] == lines[..n];
      html := TakeLine(html, b, n, lines[n], r);
      b := Line(b, n, lines[n]);
    }
    assert lines[..|lines|] == lines;
    html := CloseParagraph(html, b, r);
    html := CloseList(html, EndPara(b), r);
    ReplyIsNested(Blocks(lines), r);
  }
}
