/** What kind each line of a reply is, told from its characters, and that every line ends in a block of its own kind. */
module MarkdownKinds {
  import opened Options
  import opened Characters
  import opened Html
  import opened MarkdownInline
  import opened MarkdownMarks
  import opened MarkdownProperties
  import opened MarkdownBlocks

  // ---- runs of characters ----------------------------------------------------------------------------------------

  lemma {:induction false} RunEndIs(s: string, i: nat, set_: string)
    requires i <= |s|
    ensures var j := RunEnd(s, i, set_);
      (forall k | i <= k < j :: s[k] in set_) && (j < |s| ==> s[j] !in set_)
    decreases |s| - i
  {
    if i < |s| && s[i] in set_ { RunEndIs(s, i + 1, set_); }
  }

  predicate AllIn(s: string, i: nat, j: nat, set_: string)
    requires i <= j <= |s|
  {
    forall k | i <= k < j :: s[k] in set_
  }

  lemma {:induction false} RunsPast(s: string, i: nat, j: nat, set_: string)
    requires i <= j <= |s| && AllIn(s, i, j, set_)
    ensures RunEnd(s, i, set_) >= j
    decreases j - i
  {
    if i < j { RunsPast(s, i + 1, j, set_); }
  }

  lemma {:induction false} RunsTo(s: string, i: nat, j: nat, set_: string)
    requires i <= j <= |s| && AllIn(s, i, j, set_) && (j < |s| ==> s[j] !in set_)
    ensures RunEnd(s, i, set_) == j
    decreases j - i
  {
    if i < j { RunsTo(s, i + 1, j, set_); }
  }

  // ---- items -----------------------------------------------------------------------------------------------------

  predicate BulletTo(line: string, a: nat, m: nat) {
    m == a + 1 <= |line| && line[a] in "-*+\U{2022}"
  }

  predicate NumberTo(line: string, a: nat, m: nat) {
    2 <= m - a <= 4 && m <= |line| && AllIn(line, a, m - 1, "0123456789") && line[m - 1] in ".)"
  }

  /** Up to 12 spaces, a marker up to `m`, blanks up to `g`, and at least one character more. */
  predicate ReadsAsItem(line: string, a: nat, m: nat, g: nat, ordered: bool) {
    && a <= 12 && a < m < g < |line| && AllIn(line, 0, a, " ")
    && (if ordered then NumberTo(line, a, m) else BulletTo(line, a, m))
    && AllIn(line, m, g, " \t") && Dots(line[g..])
  }

  /** Where the marker ends. */
  function MarkerEnd(line: string, a: nat): nat
    requires a < |line|
  {
    if line[a] in "-*+\U{2022}" then a + 1 else RunEnd(line, a, "0123456789") + 1
  }

  lemma MarkerIsRead(line: string, a: nat)
    requires ItemOf(line).Some? && a == RunEnd(line, 0, " ")
    ensures a < |line| && a <= 12 && a < MarkerEnd(line, a) <= |line|
    ensures if ItemOf(line).value.ordered then NumberTo(line, a, MarkerEnd(line, a))
      else BulletTo(line, a, MarkerEnd(line, a))
  {
    RunEndIs(line, a, "0123456789");
  }

  lemma ItemIsRead(line: string) returns (a: nat, m: nat, g: nat)
    requires ItemOf(line).Some?
    ensures ReadsAsItem(line, a, m, g, ItemOf(line).value.ordered)
  {
    a := RunEnd(line, 0, " ");
    RunEndIs(line, 0, " ");
    MarkerIsRead(line, a);
    m := MarkerEnd(line, a);
    var b := RunEnd(line, m, " \t");
    RunEndIs(line, m, " \t");
    g := if b == |line| then b - 1 else b;
    BlanksAreRead(line, a, m, g, b);
  }

  lemma BlanksAreRead(line: string, a: nat, m: nat, g: nat, b: nat)
    requires ItemOf(line).Some? && a == RunEnd(line, 0, " ") < |line| && m == MarkerEnd(line, a) <= |line|
    requires b == RunEnd(line, m, " \t") && AllIn(line, m, b, " \t") && g == if b == |line| then b - 1 else b
    ensures m < g < |line| && AllIn(line, m, g, " \t") && Dots(line[g..])
  {
  }

  lemma NotADigit(c: char)
    requires c in "-*+\U{2022}" || c in ".)"
    ensures c !in "0123456789" && c != ' '
  {
  }

  /** The places a line that reads as an item is taken apart at. */
  lemma ItemRuns(line: string, a: nat, m: nat, g: nat, ordered: bool)
    requires ReadsAsItem(line, a, m, g, ordered)
    ensures RunEnd(line, 0, " ") == a && RunEnd(line, a, "0123456789") == if ordered then m - 1 else a
    ensures line[a] in "-*+\U{2022}" <==> !ordered
  {
    if ordered {
      assert line[a] in "0123456789";
      NotADigit(line[m - 1]);
      RunsTo(line, a, m - 1, "0123456789");
    } else {
      NotADigit(line[a]);
      RunsTo(line, a, a, "0123456789");
    }
    RunsTo(line, 0, a, " ");
  }

  lemma BlanksRun(line: string, m: nat, g: nat) returns (b: nat)
    requires m < g < |line| && AllIn(line, m, g, " \t") && Dots(line[g..])
    ensures b == RunEnd(line, m, " \t") && m + 1 <= b && (b == |line| ==> b >= m + 2) && Dots(line[b..])
    ensures Trim(line[b..]) == Trim(line[g..])
  {
    b := RunEnd(line, m, " \t");
    RunsPast(line, m, g, " \t");
    RunEndIs(line, m, " \t");
    assert line[b..] == line[g..][b - g..];
    TrimSkips(line, g, b);
  }

  lemma ReadIsItem(line: string, a: nat, m: nat, g: nat, ordered: bool)
    requires ReadsAsItem(line, a, m, g, ordered)
    ensures ItemOf(line).Some? && ItemOf(line).value.ordered == ordered
    ensures ordered ==> ItemOf(line).value.start == if Number(line[a..m - 1]) < 1 then 1 else Number(line[a..m - 1])
    ensures !ordered ==> ItemOf(line).value.start == 1
    ensures ItemOf(line).value.text == Trim(line[g..])
  {
    ItemRuns(line, a, m, g, ordered);
    var b := BlanksRun(line, m, g);
  }

  lemma {:induction false} TrimSkips(line: string, g: nat, b: nat)
    requires g <= b <= |line| && AllIn(line, g, b, " \t")
    ensures Trim(line[g..]) == Trim(line[b..])
    decreases b - g
  {
    if g < b {
      assert line[g..][0] == line[g] && line[g..][1..] == line[g + 1..];
      TrimSkips(line, g + 1, b);
    }
  }

  /** A line is an item of a list exactly when it reads as one, and numbered exactly when its marker is a number. */
  lemma ItemIff(line: string)
    ensures ItemOf(line).Some? <==> exists a, m, g, ordered :: ReadsAsItem(line, a, m, g, ordered)
  {
    if ItemOf(line).Some? { var a, m, g := ItemIsRead(line); }
    if a, m, g, ordered :| ReadsAsItem(line, a, m, g, ordered) { ReadIsItem(line, a, m, g, ordered); }
  }

  predicate Digit(c: char) { '0' <= c <= '9' }

  function Value(c: char): nat
    requires Digit(c)
  {
    (c as int) - ('0' as int)
  }

  lemma OneDigitMore(front: string, z: char)
    requires Digit(z)
    ensures Number(front + [z]) == 10 * Number(front) + Value(z)
  {
    assert (front + [z])[..|front|] == front;
  }

  /** A marker of up to three digits is read as the number it is. */
  lemma NumberIs(x: char, y: char, z: char)
    requires Digit(x) && Digit(y) && Digit(z)
    ensures Number([z]) == Value(z)
    ensures Number([y, z]) == 10 * Value(y) + Value(z)
    ensures Number([x, y, z]) == 100 * Value(x) + 10 * Value(y) + Value(z)
  {
    OneDigitMore("", z);
    OneDigitMore("", y);
    OneDigitMore("", x);
    OneDigitMore([y], z);
    OneDigitMore([x], y);
    OneDigitMore([x, y], z);
    assert [] + [z] == [z] && [] + [y] == [y] && [] + [x] == [x];
    assert [y] + [z] == [y, z] && [x] + [y] == [x, y] && [x, y] + [z] == [x, y, z];
  }

  // ---- headings --------------------------------------------------------------------------------------------------

  /** Up to 3 spaces, 1 to 6 number signs up to `h`, and a blank after them. */
  predicate ReadsAsHeading(line: string, a: nat, h: nat) {
    && a <= 3 && 1 <= h - a <= 6 && h < |line| && AllIn(line, 0, a, " ") && AllIn(line, a, h, "#")
    && line[h] in " \t" && Dots(StripEnd(line[RunEnd(line, h, " \t")..], " \t#"))
  }

  lemma HeadingIff(line: string)
    ensures HeadingOf(line).Some? <==> exists a, h :: ReadsAsHeading(line, a, h)
  {
    var j := RunEnd(line, 0, " ");
    var e := RunEnd(line, j, "#");
    RunEndIs(line, 0, " ");
    RunEndIs(line, j, "#");
    RunEndIs(line, e, " \t");
    if HeadingOf(line).Some? { assert ReadsAsHeading(line, j, e); }
    if a, h :| ReadsAsHeading(line, a, h) {
      RunsTo(line, 0, a, " ");
      RunsTo(line, a, h, "#");
    }
  }

  /** What is left without its end, which is all in the set; what is left does not end in it. */
  lemma {:induction false} StripEndIs(s: string, set_: string)
    ensures var t := StripEnd(s, set_);
      && t <= s && AllIn(s, |t|, |s|, set_) && (t != "" ==> t[|t| - 1] !in set_)
  {
    if s != "" && s[|s| - 1] in set_ {
      StripEndIs(s[..|s| - 1], set_);
      var t := StripEnd(s, set_);
      forall k | |t| <= k < |s| ensures s[k] in set_ {
        if k < |s| - 1 { assert s[..|s| - 1][k] in set_; }
      }
    }
  }

  /** A heading's words: what stands after its blanks, less the blanks and number signs it ends with. */
  lemma HeadingWords(line: string, a: nat, h: nat)
    requires ReadsAsHeading(line, a, h)
    ensures HeadingOf(line).Some?
    ensures var b, text := RunEnd(line, h, " \t"), HeadingOf(line).value;
      && AllIn(line, h, b, " \t") && (b < |line| ==> line[b] !in " \t")
      && text <= line[b..] && AllIn(line[b..], |text|, |line| - b, " \t#")
      && (text != "" ==> text[|text| - 1] !in " \t#")
  {
    RunsTo(line, 0, a, " ");
    RunsTo(line, a, h, "#");
    RunEndIs(line, h, " \t");
    StripEndIs(line[RunEnd(line, h, " \t")..], " \t#");
  }

  // ---- rules -----------------------------------------------------------------------------------------------------

  lemma {:induction false} CountsAfter(s: string, c: char, k: nat)
    requires k < |s| && s[k] == c
    ensures Count(s, c) >= 1 + Count(s[k + 1..], c)
    decreases |s|
  {
    if k > 0 {
      CountsAfter(s[1..], c, k - 1);
      assert s[1..][k..] == s[k + 1..];
    }
  }

  lemma {:induction false} FirstOf(s: string, c: char) returns (k: nat)
    requires Count(s, c) > 0
    ensures k < |s| && s[k] == c && Count(s[k + 1..], c) == Count(s, c) - 1
  {
    if s[0] == c {
      k := 0;
    } else {
      k := FirstOf(s[1..], c);
      assert s[1..][k + 1..] == s[k + 2..];
      k := k + 1;
    }
  }

  /** One of `-`, `*` and `_` after up to 3 spaces, twice more after it, and nothing else but blanks. */
  predicate ReadsAsRule(line: string, a: nat, i: nat, j: nat) {
    && a <= 3 && a < i < j < |line| && AllIn(line, 0, a, " ") && line[a] in "-*_"
    && line[a] == line[i] == line[j] && AllIn(line, a, |line|, [line[a], ' ', '\t'])
  }

  lemma RuleIsRead(line: string) returns (a: nat, i: nat, j: nat)
    requires IsRule(line)
    ensures ReadsAsRule(line, a, i, j)
  {
    a := RunEnd(line, 0, " ");
    var c := line[a];
    RunEndIs(line, 0, " ");
    RunEndIs(line, a, [c, ' ', '\t']);
    assert line[a..][0] == c && line[a..][1..] == line[a + 1..];
    i := FirstOf(line[a + 1..], c);
    i := i + a + 1;
    assert line[a + 1..][i - a..] == line[i + 1..];
    j := FirstOf(line[i + 1..], c);
    j := j + i + 1;
  }

  lemma ThreeOf(line: string, c: char, a: nat, i: nat, j: nat)
    requires a < i < j < |line| && line[a] == line[i] == line[j] == c
    ensures Count(line[a..], c) >= 3
  {
    var first, second, third := line[a..], line[a + 1..], line[i + 1..];
    assert first[1..] == second && second[i - a - 1] == c && second[i - a..] == third && third[j - i - 1] == c;
    CountsAfter(first, c, 0);
    CountsAfter(second, c, i - a - 1);
    CountsAfter(third, c, j - i - 1);
  }

  lemma ReadIsRule(line: string, a: nat, i: nat, j: nat)
    requires ReadsAsRule(line, a, i, j)
    ensures IsRule(line)
  {
    RunsTo(line, 0, a, " ");
    RunsTo(line, a, |line|, [line[a], ' ', '\t']);
    ThreeOf(line, line[a], a, i, j);
  }

  lemma RuleIff(line: string)
    ensures IsRule(line) <==> exists a, i, j :: ReadsAsRule(line, a, i, j)
  {
    if IsRule(line) { var a, i, j := RuleIsRead(line); }
    if a, i, j :| ReadsAsRule(line, a, i, j) { ReadIsRule(line, a, i, j); }
  }

  // ---- each block's lines are of its kind ------------------------------------------------------------------------

  /** An entry begins an item of a list. */
  predicate BeginsItem(e: Entry, lines: seq<string>, ordered: bool) {
    e.at < |lines| && ItemOf(Untab(lines[e.at])).Some? && ItemOf(Untab(lines[e.at])).value.ordered == ordered
    && ItemOf(Untab(lines[e.at])).value.text == e.text
  }

  predicate NoItem(e: Entry, lines: seq<string>) { e.at < |lines| && ItemOf(Untab(lines[e.at])).None? }

  ghost predicate ItemOk(es: seq<Entry>, lines: seq<string>, ordered: bool) {
    && es != [] && BeginsItem(es[0], lines, ordered)
    && forall k | 0 < k < |es| :: NoItem(es[k], lines)
  }

  predicate Paragraphs(e: Entry, lines: seq<string>) {
    NoItem(e, lines) && HeadingOf(Untab(lines[e.at])).None? && e.text == ParaText(Untab(lines[e.at]))
  }

  /**
   * A list's items begin with lines that are items, numbered or not as the list is, and go on with lines that are none;
   * its number is the first item's. A label is a heading line, and a paragraph's lines are neither.
   */
  ghost predicate OfItsKind(b: Block, lines: seq<string>) {
    match b
    case Para(es) => es != [] && forall e | e in es :: Paragraphs(e, lines)
    case Heading(e) => NoItem(e, lines) && HeadingOf(Untab(lines[e.at])) == Some(e.text)
    case Listing(ordered, start, items) =>
      && items != [] && (forall k | 0 <= k < |items| :: ItemOk(items[k], lines, ordered))
      && start == ItemOf(Untab(lines[items[0][0].at])).value.start
  }

  ghost predicate KindsOk(b: Build, lines: seq<string>) {
    && (forall k | 0 <= k < |b.out| :: OfItsKind(b.out[k], lines))
    && (b.para != [] ==> OfItsKind(Para(b.para), lines))
    && (b.list.Some? ==> b.list.value.Listing? && OfItsKind(b.list.value, lines))
  }

  lemma MoreLines(b: Block, lines: seq<string>, more: seq<string>)
    requires OfItsKind(b, lines) && lines <= more
    ensures OfItsKind(b, more)
  {
    if b.Listing? {
      assert ItemOk(b.items[0], lines, b.ordered);
      forall k | 0 <= k < |b.items| ensures ItemOk(b.items[k], more, b.ordered) {
        assert ItemOk(b.items[k], lines, b.ordered);
        forall i | 0 < i < |b.items[k]| ensures NoItem(b.items[k][i], more) { assert NoItem(b.items[k][i], lines); }
      }
    }
  }

  lemma KindsInMore(b: Build, lines: seq<string>, more: seq<string>)
    requires KindsOk(b, lines) && lines <= more
    ensures KindsOk(b, more)
  {
    forall k | 0 <= k < |b.out| ensures OfItsKind(b.out[k], more) { MoreLines(b.out[k], lines, more); }
    if b.para != [] { MoreLines(Para(b.para), lines, more); }
    if b.list.Some? { MoreLines(b.list.value, lines, more); }
  }

  lemma EndingKeepsKinds(b: Build, lines: seq<string>)
    requires KindsOk(b, lines)
    ensures KindsOk(EndPara(b), lines) && KindsOk(EndList(b), lines)
  {
  }

  lemma ItemKinds(b: Build, lines: seq<string>, n: nat, item: Item)
    requires KindsOk(b, lines) && Shaped(b) && n < |lines| && ItemOf(Untab(lines[n])) == Some(item)
    ensures KindsOk(AddItem(b, n, item), lines)
  {
    var c := EndPara(b);
    var e := Entry(n, item.text);
    EndingKeepsKinds(b, lines);
    EndingKeepsKinds(c, lines);
    assert ItemOk([e], lines, item.ordered);
    if c.list.Some? && c.list.value.ordered == item.ordered {
      var more := MoreList(c.list.value, n, item);
      forall k | 0 <= k < |more.items| ensures ItemOk(more.items[k], lines, item.ordered) {
        if k < |c.list.value.items| { assert ItemOk(c.list.value.items[k], lines, item.ordered); }
      }
    } else {
      assert OfItsKind(Listing(item.ordered, item.start, [[e]]), lines);
    }
  }

  lemma CarryKinds(list: Block, lines: seq<string>, e: Entry)
    requires list.Listing? && OfItsKind(list, lines) && NoItem(e, lines)
    ensures OfItsKind(CarryOn(list, e), lines)
  {
    var more := CarryOn(list, e);
    forall k | 0 <= k < |more.items| ensures ItemOk(more.items[k], lines, list.ordered) {
      assert ItemOk(list.items[k], lines, list.ordered);
    }
  }

  lemma PlainKinds(b: Build, lines: seq<string>, n: nat)
    requires KindsOk(b, lines) && Shaped(b) && n < |lines| && ItemOf(Untab(lines[n])).None?
    ensures KindsOk(PlainLine(b, n, Untab(lines[n])), lines)
  {
    var c := EndList(b);
    EndingKeepsKinds(b, lines);
    EndingKeepsKinds(c, lines);
    if HeadingOf(Untab(lines[n])).None? {
      var para := c.para + [Entry(n, ParaText(Untab(lines[n])))];
      forall e | e in para ensures Paragraphs(e, lines) { }
    }
  }

  lemma LineKinds(b: Build, lines: seq<string>, n: nat)
    requires KindsOk(b, lines) && Shaped(b) && n < |lines|
    ensures KindsOk(Line(b, n, lines[n]), lines)
  {
    var line, c := Untab(lines[n]), b.(gap := false);
    EndingKeepsKinds(b, lines);
    EndingKeepsKinds(c, lines);
    EndingKeepsKinds(EndPara(c), lines);
    if Trim(line) == "" || IsRule(line) {
    } else if ItemOf(line).Some? {
      ItemKinds(c, lines, n, ItemOf(line).value);
    } else if b.list.Some? && !b.gap {
      CarryKinds(b.list.value, lines, Entry(n, Trim(line)));
    } else {
      PlainKinds(c, lines, n);
    }
  }

  lemma {:induction false} BuildKinds(lines: seq<string>)
    ensures KindsOk(BuildOf(lines), lines)
  {
    if lines != [] {
      var front := lines[..|lines| - 1];
      BuildKinds(front);
      KindsInMore(BuildOf(front), front, lines);
      LineKinds(BuildOf(front), lines, |lines| - 1);
    }
  }

  /** Every line of a reply stands in a block of its own kind. */
  lemma EachInItsKind(lines: seq<string>)
    ensures forall k | 0 <= k < |Blocks(lines)| :: OfItsKind(Blocks(lines)[k], lines)
  {
    BuildKinds(lines);
    EndingKeepsKinds(BuildOf(lines), lines);
    EndingKeepsKinds(EndPara(BuildOf(lines)), lines);
  }
}
