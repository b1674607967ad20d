/** The characters a reply is split into lines by, and those its blocks are drawn with. */
module MarkdownDrawn {
  import opened Options
  import opened Characters
  import opened Html
  import opened MarkdownInline
  import opened MarkdownMarks
  import opened MarkdownBlocks

  // ---- lines -----------------------------------------------------------------------------------------------------

  /** The text with each end of line made a single newline. */
  function Newlines(s: string): string
    decreases |s|
  {
    if s == "" then ""
    else if s[0] == '\r' then "\n" + Newlines(if |s| > 1 && s[1] == '\n' then s[2..] else s[1..])
    else [s[0]] + Newlines(s[1..])
  }

  function Together(lines: seq<string>): string {
    if lines == [] then "" else if |lines| == 1 then lines[0] else lines[0] + "\n" + Together(lines[1..])
  }

  /** The lines, put together again with newlines, are the text; none holds an end of line. */
  lemma {:induction false} SplitPutsTogether(s: string)
    ensures Together(Split(s)) == Newlines(s)
    ensures forall l | l in Split(s) :: '\n' !in l && '\r' !in l
    decreases |s|
  {
    if s != "" {
      if s[0] == '\n' || s[0] == '\r' {
        var t := if s[0] == '\r' && |s| > 1 && s[1] == '\n' then s[2..] else s[1..];
        SplitPutsTogether(t);
        assert Split(s) == [""] + Split(t);
        OneLineMore(Split(t));
      } else {
        SplitPutsTogether(s[1..]);
        OneCharacterMore(s[0], Split(s[1..]));
      }
    }
  }

  lemma OneLineMore(lines: seq<string>)
    requires lines != []
    ensures Together([""] + lines) == "\n" + Together(lines)
  {
    assert ([""] + lines)[1..] == lines && "" + "\n" == "\n";
  }

  lemma OneCharacterMore(c: char, lines: seq<string>)
    requires lines != []
    ensures Together([[c] + lines[0]] + lines[1..]) == [c] + Together(lines)
  {
    var more := [[c] + lines[0]] + lines[1..];
    assert more[1..] == lines[1..];
    if |lines| > 1 {
      assert [c] + lines[0] + "\n" + Together(lines[1..]) == [c] + (lines[0] + "\n" + Together(lines[1..]));
    }
  }

  /** Only the first 400 lines are drawn. */
  lemma FirstLinesAre(text: string)
    ensures FirstLines(text) <= Split(text)
    ensures |FirstLines(text)| == if |Split(text)| > 400 then 400 else |Split(text)|
  {
  }

  lemma {:induction false} UntabAppends(a: string, b: string)
    ensures Untab(a + b) == Untab(a) + Untab(b)
  {
    if a == "" {
      assert a + b == b;
    } else {
      assert (a + b)[0] == a[0] && (a + b)[1..] == a[1..] + b;
      UntabAppends(a[1..], b);
    }
  }

  /** A tab is four spaces, and everything else is itself. */
  lemma UntabIs(c: char)
    ensures Untab([c]) == if c == '\t' then "    " else [c]
  {
    assert [c][1..] == "";
  }

  /** The line's own ends cut off: they are blank, and what is left is not at either end. */
  lemma {:induction false} TrimStartIs(s: string) returns (from: nat)
    ensures from <= |s| && TrimStart(s) == s[from..] && (forall k | 0 <= k < from :: Space(s[k]))
    ensures from < |s| ==> !Space(s[from])
  {
    from := 0;
    if s != "" && Space(s[0]) {
      from := TrimStartIs(s[1..]);
      from := from + 1;
    }
  }

  lemma {:induction false} TrimEndIs(s: string) returns (to: nat)
    ensures to <= |s| && TrimEnd(s) == s[..to] && (forall k | to <= k < |s| :: Space(s[k]))
    ensures to > 0 ==> !Space(s[to - 1])
  {
    to := |s|;
    if s != "" && Space(s[|s| - 1]) {
      to := TrimEndIs(s[..|s| - 1]);
      assert s[..|s| - 1][..to] == s[..to];
    }
  }

  lemma TrimIs(s: string) returns (from: nat, to: nat)
    ensures from <= to <= |s| && Trim(s) == s[from..to]
    ensures (forall k | 0 <= k < from :: Space(s[k])) && (forall k | to <= k < |s| :: Space(s[k]))
    ensures from < to ==> !Space(s[from]) && !Space(s[to - 1])
  {
    from := TrimStartIs(s);
    var n := TrimEndIs(s[from..]);
    to := from + n;
    assert s[from..][..n] == s[from..to];
    forall k | to <= k < |s| ensures Space(s[k]) { assert s[k] == s[from..][k - from]; }
  }

  /** A paragraph's line loses its blank ends and one quote mark, with the one space after that. */
  lemma ParaTextIs(line: string)
    ensures var t := Trim(line);
      ParaText(line) == if "> " <= t then t[2..] else if ">" <= t then t[1..] else t
  {
  }

  // ---- labels ----------------------------------------------------------------------------------------------------

  /** A doubled mark, words in which it does not stand, the mark again, and perhaps a colon. */
  predicate ReadsAsLabel(line: string, c: char, words: string) {
    && c in "*_" && words != "" && Dots(words)
    && (line == [c, c] + words + [c, c] || line == [c, c] + words + [c, c, ':'])
    && forall k | 0 <= k < |words| :: !((words + [c, c])[k] == c && (words + [c, c])[k + 1] == c)
  }

  lemma LabelIsRead(line: string)
    requires IsLabel(line)
    ensures ReadsAsLabel(line, line[0], line[2..IndexOf(line, line[0], 2, 2).value])
  {
    var c, q := line[0], IndexOf(line, line[0], 2, 2).value;
    var words := line[2..q];
    forall k | 0 <= k < |words| ensures !((words + [c, c])[k] == c && (words + [c, c])[k + 1] == c) {
      assert !MarkAt(line, c, 2, k + 2);
      assert (words + [c, c])[k] == line[k + 2] && (words + [c, c])[k + 1] == line[k + 3];
    }
    assert line == [c, c] + words + line[q..] && line[q..] == [c, c] + line[q + 2..];
    if line[q + 2..] == "" {
      assert line == [c, c] + words + [c, c];
    } else {
      assert line == [c, c] + words + [c, c, ':'];
    }
  }

  lemma ReadIsLabel(line: string, c: char, words: string)
    requires ReadsAsLabel(line, c, words)
    ensures IsLabel(line)
  {
    var q := |words| + 2;
    assert line[2..q] == words && line[q] == line[q + 1] == c;
    forall k | 2 <= k < q ensures !MarkAt(line, c, 2, k) {
      assert line[k] == (words + [c, c])[k - 2] && line[k + 1] == (words + [c, c])[k - 1];
    }
    assert MarkAt(line, c, 2, q);
    assert IndexOf(line, c, 2, 2) == Some(q);
    if line == [c, c] + words + [c, c] { assert line[q + 2..] == ""; } else { assert line[q + 2..] == ":"; }
  }

  lemma LabelIff(line: string)
    ensures IsLabel(line) <==> exists c, words :: ReadsAsLabel(line, c, words)
  {
    if IsLabel(line) { LabelIsRead(line); }
    if c, words :| ReadsAsLabel(line, c, words) { ReadIsLabel(line, c, words); }
  }

  // ---- blocks ----------------------------------------------------------------------------------------------------

  lemma BulletsAreDrawn(start: nat, items: seq<seq<Entry>>, r: Rules)
    ensures BlockHtml(Listing(false, start, items), r) == "<ul>" + ItemsHtml(items, r) + "</ul>"
  {
    ElementIs("ul", ItemsHtml(items, r), "<ul>", "</ul>");
  }

  lemma NumbersAreDrawn(start: nat, items: seq<seq<Entry>>, r: Rules)
    ensures BlockHtml(Listing(true, start, items), r) ==
      (if start == 1 then "<ol>" else "<ol start=\"" + Decimal(start) + "\">") + ItemsHtml(items, r) + "</ol>"
  {
    var inside := ItemsHtml(items, r);
    ListIs(start, inside);
  }

  lemma ListIs(start: nat, inside: string)
    ensures ListHtml(true, start, inside) ==
      (if start == 1 then "<ol>" else "<ol start=\"" + Decimal(start) + "\">") + inside + "</ol>"
  {
    var open := if start == 1 then "<ol>" else "<ol start=\"" + Decimal(start) + "\">";
    assert "<" + ListTag(start) + ">" == open by {
      if start != 1 {
        assert "<" + ("ol start=\"" + Decimal(start) + "\"") + ">" == "<ol start=\"" + Decimal(start) + "\">";
      }
    }
    assert open + inside + "</" + "ol" + ">" == open + inside + "</ol>";
  }

  lemma ItemsAreDrawn(item: seq<Entry>, rest: seq<seq<Entry>>, r: Rules)
    ensures ItemsHtml([], r) == ""
    ensures ItemsHtml([item] + rest, r) == "<li>" + Joined(item, r) + "</li>" + ItemsHtml(rest, r)
  {
    assert ([item] + rest)[1..] == rest;
    ElementIs("li", Joined(item, r), "<li>", "</li>");
  }

  /** The lines of a paragraph or an item stand on lines of their own. */
  lemma LinesAreDrawn(a: Entry, b: Entry, rest: seq<Entry>, r: Rules)
    ensures Joined([a], r) == LineHtml(a.text, r)
    ensures Joined([a, b] + rest, r) == LineHtml(a.text, r) + "<br>" + Joined([b] + rest, r)
  {
    assert ([a, b] + rest)[1..] == [b] + rest;
  }

  lemma LabelledIs(inside: string)
    ensures Labelled(inside) == "<p class=\"label\">" + inside + "</p>"
  {
    assert "<" + "p class=\"label\"" + ">" == "<p class=\"label\">";
    assert "<p class=\"label\">" + inside + "</" + "p" + ">" == "<p class=\"label\">" + inside + "</p>";
  }

  /** A heading is a label, and so is a paragraph of one line that is only bold; any other is plain. */
  lemma TextIsDrawn(e: Entry, es: seq<Entry>, r: Rules)
    requires es != []
    ensures BlockHtml(Heading(e), r) == "<p class=\"label\">" + LineHtml(e.text, r) + "</p>"
    ensures BlockHtml(Para(es), r) ==
      (if |es| == 1 && IsLabel(es[0].text) then "<p class=\"label\">" else "<p>") + Joined(es, r) + "</p>"
  {
    LabelledIs(LineHtml(e.text, r));
    LabelledIs(Joined(es, r));
    ElementIs("p", Joined(es, r), "<p>", "</p>");
  }

  /** A list's number reads back as the number. */
  lemma {:induction false} DecimalReadsBack(n: nat)
    ensures Number(Decimal(n)) == n
  {
    var d := (n % 10 + '0' as int) as char;
    if n >= 10 { DecimalReadsBack(n / 10); }
    var front := if n < 10 then "" else Decimal(n / 10);
    assert Decimal(n) == front + [d] && (front + [d])[..|front|] == front;
  }
}
