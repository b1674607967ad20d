/** What a person reads of a reply, from the characters it is drawn with. */
module MarkdownReading {
  import opened Options
  import opened Characters
  import opened Html
  import opened MarkdownInline
  import opened MarkdownProperties
  import opened MarkdownBlocks

  // ---- the characters read back ----------------------------------------------------------------------------------

  /** The markup without its tags. */
  function Untagged(s: string): string
    decreases |s|
  {
    if s == "" then ""
    else if s[0] != '<' then [s[0]] + Untagged(s[1..])
    else
      var k := Find(s, '>');
      if k < |s| then Untagged(s[k + 1..]) else ""
  }

  /** What the markup is read as: its tags gone, its characters decoded. */
  function Read(s: string): string { Unesc(Untagged(s)) }

  /** The markup shows these words, whatever follows it. */
  ghost predicate Shows(html: string, words: string) {
    forall more :: Untagged(html + more) == Esc(words) + Untagged(more)
  }

  lemma ShowsNothing()
    ensures Shows("", "")
  {
    forall more ensures Untagged("" + more) == Esc("") + Untagged(more) { assert "" + more == more; }
  }

  lemma Joins(a: string, b: string, c: string)
    ensures a + b + c == a + (b + c)
  {
  }

  lemma ShowsBoth(a: string, b: string, v: string, w: string)
    requires Shows(a, v) && Shows(b, w)
    ensures Shows(a + b, v + w)
  {
    EscAppend(v, w);
    forall more ensures Untagged(a + b + more) == Esc(v + w) + Untagged(more) {
      Joins(a, b, more);
      Joins(Esc(v), Esc(w), Untagged(more));
    }
  }

  lemma TagShowsNothing(tag: string)
    requires '>' !in tag
    ensures Shows(['<'] + tag + ['>'], "")
  {
    forall more ensures Untagged(['<'] + tag + ['>'] + more) == Esc("") + Untagged(more) {
      var s := ['<'] + tag + ['>'] + more;
      FindIn(['<'] + tag, '>', more);
      assert s == ['<'] + tag + ['>'] + more && s[|tag| + 2..] == more;
    }
  }

  lemma BetweenTags(open: string, inside: string, close: string, words: string)
    requires Shows(open, "") && Shows(inside, words) && Shows(close, "")
    ensures Shows(open + inside + close, words)
  {
    ShowsBoth(open, inside, "", words);
    ShowsBoth(open + inside, close, "" + words, "");
    assert "" + words + "" == words;
  }

  lemma Regrouped(tag: string, inside: string, name: string)
    ensures "<" + tag + ">" + inside + "</" + name + ">" ==
      (['<'] + tag + ['>']) + inside + (['<'] + (['/'] + name) + ['>'])
  {
  }

  lemma ElementShows(tag: string, name: string, inside: string, words: string)
    requires '>' !in tag && '>' !in name && Shows(inside, words)
    ensures Shows("<" + tag + ">" + inside + "</" + name + ">", words)
  {
    TagShowsNothing(tag);
    TagShowsNothing(['/'] + name);
    Regrouped(tag, inside, name);
    BetweenTags(['<'] + tag + ['>'], inside, ['<'] + (['/'] + name) + ['>'], words);
  }

  lemma {:induction false} PlainShows(t: string, more: string)
    requires NoAngles(t)
    ensures Untagged(t + more) == t + Untagged(more)
  {
    if t == "" {
      assert t + more == more;
    } else {
      assert (t + more)[0] == t[0] && (t + more)[1..] == t[1..] + more;
      PlainShows(t[1..], more);
    }
  }

  lemma TextShows(t: string)
    ensures Shows(Esc(t), t)
  {
    EscIsInert(t);
    forall more ensures Untagged(Esc(t) + more) == Esc(t) + Untagged(more) { PlainShows(Esc(t), more); }
  }

  lemma ReadsAs(html: string, words: string)
    requires Shows(html, words)
    ensures Read(html) == words
  {
    assert html + "" == html && Untagged(html + "") == Esc(words) + Untagged("");
    assert Esc(words) + "" == Esc(words);
    UnescEsc(words);
  }

  // ---- a line ----------------------------------------------------------------------------------------------------

  lemma {:induction false} TreeShows(nodes: seq<Node>)
    ensures Shows(ToHtml(nodes), Visible(nodes))
    decreases nodes, 0
  {
    if nodes == [] {
      ShowsNothing();
    } else {
      NodeShows(nodes[0]);
      TreeShows(nodes[1..]);
      ShowsBoth(NodeHtml(nodes[0]), ToHtml(nodes[1..]), VisibleNode(nodes[0]), Visible(nodes[1..]));
    }
  }

  lemma SlipShows()
    ensures Shows(SLIP, SLIP)
  {
    SlipIsPlain();
    TextShows(SLIP);
  }

  lemma {:induction false} NodeShows(n: Node)
    ensures Shows(NodeHtml(n), VisibleNode(n))
    decreases n, 1
  {
    match n {
      case Text(t) => TextShows(t);
      case Slip => SlipShows();
      case Code(t) =>
        TextShows(t);
        ElementShows("code", "code", Esc(t), t);
      case Link(href, words) =>
        TreeShows(words);
        LinkTagIsWhole(href);
        ElementShows(LinkTag(href), "button", ToHtml(words), Visible(words));
      case Strong(inner) =>
        TreeShows(inner);
        ElementShows("strong", "strong", ToHtml(inner), Visible(inner));
      case Em(inner) =>
        TreeShows(inner);
        ElementShows("em", "em", ToHtml(inner), Visible(inner));
    }
  }

  /** What is read of one line of the reply. */
  function ShownOf(e: Entry, r: Rules): string { Visible(Parse(e.text, 0, false, r)) }

  /** What is read of these lines, one after the other. */
  function Shown(es: seq<Entry>, r: Rules): string {
    if es == [] then "" else ShownOf(es[0], r) + Shown(es[1..], r)
  }

  lemma OneShown(e: Entry, r: Rules)
    ensures Shown([e], r) == ShownOf(e, r)
  {
    assert [e][1..] == [] && ShownOf(e, r) + "" == ShownOf(e, r);
  }

  lemma {:induction false} ShownAppend(a: seq<Entry>, b: seq<Entry>, r: Rules)
    ensures Shown(a + b, r) == Shown(a, r) + Shown(b, r)
  {
    if a == [] {
      assert a + b == b;
    } else {
      assert (a + b)[1..] == a[1..] + b;
      ShownAppend(a[1..], b, r);
    }
  }

  // ---- the whole reply -------------------------------------------------------------------------------------------

  lemma BreakBetween(a: string, b: string, v: string, w: string)
    requires Shows(a, v) && Shows(b, w)
    ensures Shows(a + "<br>" + b, v + w)
  {
    assert "<br>" == ['<'] + "br" + ['>'];
    TagShowsNothing("br");
    ShowsBoth(a, "<br>", v, "");
    assert v + "" == v;
    ShowsBoth(a + "<br>", b, v, w);
  }

  lemma {:induction false} JoinedShows(lines: seq<Entry>, r: Rules)
    ensures Shows(Joined(lines, r), Shown(lines, r))
  {
    if lines == [] {
      ShowsNothing();
    } else {
      TreeShows(Parse(lines[0].text, 0, false, r));
      if |lines| == 1 {
        assert lines == [lines[0]];
        OneShown(lines[0], r);
      } else {
        JoinedShows(lines[1..], r);
        BreakBetween(LineHtml(lines[0].text, r), Joined(lines[1..], r), ShownOf(lines[0], r), Shown(lines[1..], r));
      }
    }
  }

  lemma {:induction false} ItemsShow(items: seq<seq<Entry>>, r: Rules)
    ensures Shows(ItemsHtml(items, r), Shown(ItemEntries(items), r))
  {
    if items == [] {
      ShowsNothing();
    } else {
      JoinedShows(items[0], r);
      ElementShows("li", "li", Joined(items[0], r), Shown(items[0], r));
      ItemsShow(items[1..], r);
      ShowsBoth(Element("li", Joined(items[0], r)), ItemsHtml(items[1..], r), Shown(items[0], r),
        Shown(ItemEntries(items[1..]), r));
      ShownAppend(items[0], ItemEntries(items[1..]), r);
    }
  }

  lemma ParagraphShows(inside: string, words: string)
    requires Shows(inside, words)
    ensures Shows(Labelled(inside), words) && Shows(Element("p", inside), words)
  {
    ElementShows("p class=\"label\"", "p", inside, words);
    ElementShows("p", "p", inside, words);
  }

  lemma ListShows(ordered: bool, start: nat, inside: string, words: string)
    requires Shows(inside, words)
    ensures Shows(ListHtml(ordered, start, inside), words)
  {
    if ordered {
      DecimalIsDigits(start);
      ElementShows(ListTag(start), "ol", inside, words);
    } else {
      ElementShows("ul", "ul", inside, words);
    }
  }

  lemma BlockShows(b: Block, r: Rules)
    ensures Shows(BlockHtml(b, r), Shown(BlockEntries(b), r))
  {
    match b {
      case Para(lines) =>
        JoinedShows(lines, r);
        ParagraphShows(Joined(lines, r), Shown(lines, r));
      case Heading(line) =>
        TreeShows(Parse(line.text, 0, false, r));
        ParagraphShows(LineHtml(line.text, r), ShownOf(line, r));
        assert [line][1..] == [] && ShownOf(line, r) + "" == ShownOf(line, r);
      case Listing(ordered, start, items) =>
        ItemsShow(items, r);
        ListShows(ordered, start, ItemsHtml(items, r), Shown(ItemEntries(items), r));
    }
  }

  lemma {:induction false} BlocksShow(bs: seq<Block>, r: Rules)
    ensures Shows(ReplyHtml(bs, r), Shown(AllEntries(bs), r))
  {
    if bs == [] {
      ShowsNothing();
    } else {
      BlockShows(bs[0], r);
      BlocksShow(bs[1..], r);
      ShowsBoth(BlockHtml(bs[0], r), ReplyHtml(bs[1..], r), Shown(BlockEntries(bs[0]), r),
        Shown(AllEntries(bs[1..]), r));
      ShownAppend(BlockEntries(bs[0]), AllEntries(bs[1..]), r);
    }
  }

  /**
   * A reply's drawn characters, read as a browser reads them, are the words of its kept lines one after the other:
   * every line that is neither blank nor a rule is shown once, in its place, and no line is shown that is not there.
   */
  lemma ReplyReadsAsItsLines(lines: seq<string>, r: Rules)
    ensures Read(ReplyHtml(Blocks(lines), r)) == Shown(KeptEntries(lines), r)
  {
    EveryLineOnce(lines);
    BlocksShow(Blocks(lines), r);
    ReadsAs(ReplyHtml(Blocks(lines), r), Shown(KeptEntries(lines), r));
  }

  // ---- each line shows only its own ------------------------------------------------------------------------------

  lemma PartWithin(s: string, from: nat, to: nat)
    requires from <= to <= |s|
    ensures Within(s[from..to], s)
  {
    WithinSelf(s[from..to]);
    Inside(s[from..to], s, from, to, 0, |s|);
    assert s[0..|s|] == s;
  }

  lemma {:induction false} TrimIsPart(s: string) returns (from: nat, to: nat)
    ensures from <= to <= |s| && Trim(s) == s[from..to]
    decreases |s|
  {
    if s != "" && Space(s[0]) {
      from, to := TrimIsPart(s[1..]);
      from, to := from + 1, to + 1;
    } else {
      from := 0;
      to := EndPart(s);
      assert s[..to] == s[0..to];
    }
  }

  lemma {:induction false} EndPart(s: string) returns (to: nat)
    ensures to <= |s| && TrimEnd(s) == s[..to]
    decreases |s|
  {
    if s != "" && Space(s[|s| - 1]) {
      to := EndPart(s[..|s| - 1]);
      assert s[..|s| - 1][..to] == s[..to];
    } else {
      to := |s|;
    }
  }

  lemma {:induction false} StrippedPart(s: string, set_: string) returns (to: nat)
    ensures to <= |s| && StripEnd(s, set_) == s[..to]
    decreases |s|
  {
    if s != "" && s[|s| - 1] in set_ {
      to := StrippedPart(s[..|s| - 1], set_);
      assert s[..|s| - 1][..to] == s[..to];
    } else {
      to := |s|;
    }
  }

  lemma ItemIsPart(line: string) returns (from: nat, to: nat)
    requires ItemOf(line).Some?
    ensures from <= to <= |line| && ItemOf(line).value.text == line[from..to]
  {
    var j := RunEnd(line, 0, " ");
    var m := if line[j] in "-*+\U{2022}" then j + 1 else RunEnd(line, j, "0123456789") + 1;
    var b := RunEnd(line, m, " \t");
    from, to := TrimIsPart(line[b..]);
    assert line[b..][from..to] == line[b + from..b + to];
    from, to := b + from, b + to;
  }

  lemma HeadingIsPart(line: string) returns (from: nat, to: nat)
    requires HeadingOf(line).Some?
    ensures from <= to <= |line| && HeadingOf(line).value == line[from..to]
  {
    from := RunEnd(line, RunEnd(line, RunEnd(line, 0, " "), "#"), " \t");
    to := StrippedPart(line[from..], " \t#");
    assert line[from..][..to] == line[from..from + to];
    to := from + to;
  }

  lemma ParaIsPart(line: string) returns (from: nat, to: nat)
    ensures from <= to <= |line| && ParaText(line) == line[from..to]
  {
    from, to := TrimIsPart(line);
    var t := Trim(line);
    if t != "" && t[0] == '>' {
      var skip := if |t| > 1 && t[1] == ' ' then 2 else 1;
      assert t[skip..] == line[from + skip..to];
      from := from + skip;
    }
  }

  /** A line's words are a part of it, its tabs made spaces. */
  lemma WordsAreAPart(raw: string, carriesOn: bool) returns (from: nat, to: nat)
    ensures from <= to <= |Untab(raw)| && WordsOf(raw, carriesOn) == Untab(raw)[from..to]
  {
    var line := Untab(raw);
    if ItemOf(line).Some? { from, to := ItemIsPart(line); }
    else if carriesOn { from, to := TrimIsPart(line); }
    else if HeadingOf(line).Some? { from, to := HeadingIsPart(line); }
    else { from, to := ParaIsPart(line); }
  }

  ghost predicate NoneSlips(es: seq<Entry>, r: Rules) { forall e | e in es :: !Slips(e, r) }

  predicate Slips(e: Entry, r: Rules) { !NoSlip(Parse(e.text, 0, false, r)) }

  lemma {:induction false} WithinThrough(a: string, b: string, c: string)
    requires Within(a, b) && Within(b, c)
    ensures Within(a, c)
    decreases |c|
  {
    if a != "" {
      if b[0] != c[0] {
        WithinThrough(a, b, c[1..]);
        WithinLonger(a, [c[0]], c[1..]);
        assert [c[0]] + c[1..] == c;
      }
      else if a[0] != b[0] { WithinThrough(a, b[1..], c[1..]); }
      else { WithinThrough(a[1..], b[1..], c[1..]); }
    }
  }

  lemma EntryShowsOnlyItsOwn(e: Entry, line: string, r: Rules)
    requires Within(e.text, line) && !Slips(e, r)
    ensures Within(ShownOf(e, r), line)
  {
    ShowsOnlyItsOwn(e.text, 0, false, r);
    WithinThrough(ShownOf(e, r), e.text, line);
  }

  /** The kept lines one after the other, tabs made spaces. */
  function Originals(lines: seq<string>): string {
    if lines == [] then ""
    else Originals(lines[..|lines| - 1]) + if Kept(lines[|lines| - 1]) then Untab(lines[|lines| - 1]) else ""
  }

  lemma LastShowsOnlyItsOwn(lines: seq<string>, r: Rules)
    requires lines != [] && Kept(lines[|lines| - 1]) && !Slips(LastEntry(lines)[0], r)
    ensures Within(Shown(LastEntry(lines), r), Untab(lines[|lines| - 1]))
  {
    var n := |lines| - 1;
    var e := LastEntry(lines)[0];
    var from, to := WordsAreAPart(lines[n], CarriesOn(BuildOf(lines[..n])));
    PartWithin(Untab(lines[n]), from, to);
    EntryShowsOnlyItsOwn(e, Untab(lines[n]), r);
    OneShown(e, r);
  }

  lemma {:induction false} LinesShowOnlyTheirOwn(lines: seq<string>, r: Rules)
    requires NoneSlips(KeptEntries(lines), r)
    ensures Within(Shown(KeptEntries(lines), r), Originals(lines))
  {
    if lines != [] {
      var front := lines[..|lines| - 1];
      var last := LastEntry(lines);
      assert NoneSlips(KeptEntries(front), r) && NoneSlips(last, r) by {
        assert KeptEntries(lines) == KeptEntries(front) + last;
      }
      LinesShowOnlyTheirOwn(front, r);
      ShownAppend(KeptEntries(front), last, r);
      if last == [] {
        assert Shown(KeptEntries(front), r) + "" == Shown(KeptEntries(front), r)
          && Originals(front) + "" == Originals(front);
      } else {
        assert last[0] in last;
        LastShowsOnlyItsOwn(lines, r);
        WithinAppend(Shown(KeptEntries(front), r), Originals(front), Shown(last, r), Untab(lines[|lines| - 1]));
      }
    }
  }

  /**
   * What is read of a whole reply is its kept lines' own characters in their order, unless a backslash slips in one of
   * them.
   */
  lemma ReplyShowsOnlyItsOwn(lines: seq<string>, r: Rules)
    requires NoneSlips(KeptEntries(lines), r)
    ensures Within(Read(ReplyHtml(Blocks(lines), r)), Originals(lines))
  {
    ReplyReadsAsItsLines(lines, r);
    LinesShowOnlyTheirOwn(lines, r);
  }
}
