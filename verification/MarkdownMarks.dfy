/** What each mark of a line is drawn as, told from the characters alone. */
module MarkdownMarks {
  import opened Options
  import opened Characters
  import opened Html
  import opened MarkdownInline

  // ---- the characters of an element ------------------------------------------------------------------------------

  lemma ElementIs(tag: string, inside: string, open: string, close: string)
    requires open == "<" + tag + ">" && close == "</" + tag + ">"
    ensures Element(tag, inside) == open + inside + close
  {
    assert open + inside + ("</" + tag + ">") == open + inside + "</" + tag + ">";
  }

  lemma StrongIs(inner: seq<Node>)
    ensures ToHtml([Strong(inner)]) == "<strong>" + ToHtml(inner) + "</strong>"
  {
    OneNode(Strong(inner));
    ElementIs("strong", ToHtml(inner), "<strong>", "</strong>");
  }

  lemma EmIs(inner: seq<Node>)
    ensures ToHtml([Em(inner)]) == "<em>" + ToHtml(inner) + "</em>"
  {
    OneNode(Em(inner));
    ElementIs("em", ToHtml(inner), "<em>", "</em>");
  }

  lemma CodeIs(text: string)
    ensures ToHtml([Code(text)]) == "<code>" + Esc(text) + "</code>"
  {
    OneNode(Code(text));
    ElementIs("code", Esc(text), "<code>", "</code>");
  }

  const LINK_OPENS := "<button " + "type=\"button\" class=\"link\" " + "data-act=\"open-href\" " + "data-href=\""

  lemma LinkTagIs(address: string)
    ensures "<" + ("button" + [' '] + (TYPE_AND_CLASS + ACTION + ADDRESS + address + ['"'])) + ">"
         == LINK_OPENS + address + "\">"
  {
    assert "<" + "button" + [' '] == "<button ";
  }

  lemma LinkIs(href: string, words: seq<Node>)
    ensures ToHtml([Link(href, words)]) == LINK_OPENS + Esc(href) + "\">" + ToHtml(words) + "</button>"
  {
    var tag, inside := LinkTag(href), ToHtml(words);
    OneNode(Link(href, words));
    LinkTagIs(Esc(href));
    assert "<" + tag + ">" + inside + "</" + "button" + ">" == "<" + tag + ">" + inside + "</button>";
  }

  // ---- any line, one piece at a time -----------------------------------------------------------------------------

  /** A mark that is taken makes its words strong exactly when it stands twice, and emphasises them when once. */
  lemma MarksAreDrawn(s: string, i: nat, depth: nat, inLink: bool, r: Rules)
    requires i < |s| && depth <= MAX_DEPTH && PieceAt(s, i, inLink, r).MarkedTo?
    ensures var p := PieceAt(s, i, inLink, r);
      && s[i] in "*_" && p.width == (if s[i + 1] == s[i] then 2 else 1)
      && var inner := Parse(s[i + p.width..p.close], depth + 1, inLink, r);
         PieceNodes(s, i, p, depth, inLink, r) == if s[i + 1] == s[i] then [Strong(inner)] else [Em(inner)]
  {
  }

  /** A code span holds what stands between its ticks, marks and all. */
  lemma CodeIsDrawn(s: string, i: nat, depth: nat, inLink: bool, r: Rules)
    requires i < |s| && depth <= MAX_DEPTH && PieceAt(s, i, inLink, r).CodeTo?
    ensures var p := PieceAt(s, i, inLink, r);
      && s[i] == s[p.close] == '`' && (forall k | i < k < p.close :: s[k] != '`')
      && PieceNodes(s, i, p, depth, inLink, r) == [Code(s[i + 1..p.close])]
  {
  }

  /** A link carries its address when that may be opened, and is only its words when not. */
  lemma LinkIsDrawn(s: string, i: nat, p: Piece, depth: nat, r: Rules)
    requires Fits(s, i, p) && depth <= MAX_DEPTH && p.LinkTo?
    ensures var words := Parse(s[i + 1..i + p.words], depth + 1, true, r);
      var href := r.href(s[i + p.words + 2..i + p.address]);
      PieceNodes(s, i, p, depth, false, r) == if href.Some? then [Link(href.value, words)] else words
  {
  }

  // ---- whole lines -----------------------------------------------------------------------------------------------

  /** Words that hold no mark. */
  predicate Unmarked(t: string) {
    forall k | 0 <= k < |t| :: t[k] !in "*_`[\\"
  }

  lemma {:induction false} UnmarkedIsText(s: string, i: nat, depth: nat, inLink: bool, r: Rules)
    requires i <= |s| && depth <= MAX_DEPTH && forall k | i <= k < |s| :: s[k] !in "*_`[\\"
    ensures ToHtml(Scan(s, i, depth, inLink, r)) == Esc(s[i..])
    decreases |s| - i
  {
    if i < |s| {
      assert s[i] == s[i..][0] && s[i..][1..] == s[i + 1..] && s[i..i + 1] == [s[i]];
      UnmarkedIsText(s, i + 1, depth, inLink, r);
      assert PieceAt(s, i, inLink, r) == Plain(1);
      ToHtmlAppend([Text([s[i]])], Scan(s, i + 1, depth, inLink, r));
      OneNode(Text([s[i]]));
      assert Esc([s[i]]) == EscChar(s[i]) by { assert [s[i]][1..] == "" && EscChar(s[i]) + "" == EscChar(s[i]); }
    }
  }

  /** A line without a mark is drawn as its escaped text. */
  lemma WordsAreText(t: string, depth: nat, inLink: bool, r: Rules)
    requires Unmarked(t)
    ensures ToHtml(Parse(t, depth, inLink, r)) == Esc(t)
  {
    assert t[0..] == t;
    if depth > MAX_DEPTH { OneNode(Text(t)); } else { UnmarkedIsText(t, 0, depth, inLink, r); }
  }

  function Repeat(c: char, n: nat): string { seq(n, k requires 0 <= k < n => c) }

  /** Words that a mark may stand around: none, or a space, at either end. */
  predicate MayBeMarked(t: string) {
    t != "" && Unmarked(t) && !Space(t[0]) && !Space(t[|t| - 1])
  }

  lemma TheMarkIsTaken(t: string, c: char, width: nat, inLink: bool, r: Rules)
    requires MayBeMarked(t) && c in "*_" && 1 <= width <= 2
    ensures var s := Repeat(c, width) + t + Repeat(c, width);
      PieceAt(s, 0, inLink, r) == MarkedTo(width, width + |t|) && s[width..width + |t|] == t
  {
    var s := Repeat(c, width) + t + Repeat(c, width);
    var close := width + |t|;
    assert s[0] == c && s[width] == t[0] && s[close - 1] == t[|t| - 1];
    assert forall k | width <= k < close :: s[k] == t[k - width] != c;
    assert Width(s, 0) == width && OpensAt(s, 0, r);
    assert Closes(s, c, width, close);
    forall k | width <= k < close ensures !MarkAt(s, c, width, k) { assert s[k] != c; }
    assert FirstClose(s, c, width, width) == Some(close);
  }

  /** Words between two doubled marks are drawn strong, between two single ones emphasised; either mark will do. */
  lemma BoldAndItalic(t: string, c: char, r: Rules)
    requires MayBeMarked(t) && c in "*_"
    ensures ToHtml(Parse([c, c] + t + [c, c], 0, false, r)) == "<strong>" + Esc(t) + "</strong>"
    ensures ToHtml(Parse([c] + t + [c], 0, false, r)) == "<em>" + Esc(t) + "</em>"
  {
    assert Repeat(c, 1) == [c] && Repeat(c, 2) == [c, c];
    OnePieceLine([c, c] + t + [c, c], t, c, 2, r);
    OnePieceLine([c] + t + [c], t, c, 1, r);
  }

  lemma OnePieceLine(s: string, t: string, c: char, width: nat, r: Rules)
    requires MayBeMarked(t) && c in "*_" && 1 <= width <= 2 && s == Repeat(c, width) + t + Repeat(c, width)
    ensures ToHtml(Parse(s, 0, false, r)) ==
      if width == 2 then "<strong>" + Esc(t) + "</strong>" else "<em>" + Esc(t) + "</em>"
  {
    var inner := Parse(t, 1, false, r);
    AlonePiece(s, t, c, width, r);
    WordsAreText(t, 1, false, r);
    if width == 2 { StrongIs(inner); } else { EmIs(inner); }
  }

  lemma AlonePiece(s: string, t: string, c: char, width: nat, r: Rules)
    requires MayBeMarked(t) && c in "*_" && 1 <= width <= 2 && s == Repeat(c, width) + t + Repeat(c, width)
    ensures var inner := Parse(t, 1, false, r);
      Parse(s, 0, false, r) == if width == 2 then [Strong(inner)] else [Em(inner)]
  {
    TheMarkIsTaken(t, c, width, false, r);
    var p := PieceAt(s, 0, false, r);
    assert s[1] == s[0] <==> width == 2;
    MarksAreDrawn(s, 0, 0, false, r);
    assert PieceEnd(s, 0, p) == |s| && Scan(s, |s|, 0, false, r) == [];
    assert Scan(s, 0, 0, false, r) == PieceNodes(s, 0, p, 0, false, r) + Scan(s, |s|, 0, false, r);
  }

  lemma CodeLine(t: string, r: Rules)
    requires t != "" && '`' !in t
    ensures ToHtml(Parse(['`'] + t + ['`'], 0, false, r)) == "<code>" + Esc(t) + "</code>"
  {
    var s := ['`'] + t + ['`'];
    var close := |t| + 1;
    assert s[close] == '`' && s[1..close] == t && forall k | 1 <= k < close :: s[k] == t[k - 1];
    assert Until(s, 1, Tick) == close;
    assert PieceAt(s, 0, false, r) == CodeTo(close);
    assert Scan(s, |s|, 0, false, r) == [] && Scan(s, 0, 0, false, r) == [Code(t)] + [];
    CodeIs(t);
  }

  lemma TheLinkIsTaken(words: string, address: string)
    requires 1 <= |words| <= 300 && ']' !in words && '\n' !in words
    requires 1 <= |address| <= 2000 && forall k | 0 <= k < |address| :: address[k] != ')' && !Space(address[k])
    ensures var s := ['['] + words + [']', '('] + address + [')'];
      LinkAt(s, 0) == Some(LinkTo(|words| + 1, |words| + 3 + |address|, |s|))
  {
    var s := ['['] + words + [']', '('] + address + [')'];
    var a, b := |words| + 1, |words| + 3 + |address|;
    assert s[a] == ']' && s[a + 1] == '(' && s[b] == ')' && b + 1 == |s| && s[0..|s|] == s;
    assert forall k | 1 <= k < a :: s[k] == words[k - 1];
    assert forall k | a + 2 <= k < b :: s[k] == address[k - a - 2];
    assert Until(s, 1, WordsEnd) == a && Until(s, a + 2, AddressEnd) == b;
  }

  predicate IsLink(s: string, words: string, address: string) {
    && s == ['['] + words + [']', '('] + address + [')']
    && 1 <= |words| <= 300 && ']' !in words && '\n' !in words
    && 1 <= |address| <= 2000 && forall k | 0 <= k < |address| :: address[k] != ')' && !Space(address[k])
  }

  lemma AloneLink(s: string, words: string, address: string, r: Rules)
    requires IsLink(s, words, address)
    ensures var inner := Parse(words, 1, true, r);
      Parse(s, 0, false, r) == match r.href(address) case Some(h) => [Link(h, inner)] case None => inner
  {
    var p := LinkTo(|words| + 1, |words| + 3 + |address|, |s|);
    TheLinkIsTaken(words, address);
    assert s[0] == '[' && PieceAt(s, 0, false, r) == p;
    assert s[1..p.words] == words && s[p.words + 2..p.address] == address;
    LinkIsDrawn(s, 0, p, 0, r);
    assert Scan(s, |s|, 0, false, r) == [];
    assert Scan(s, 0, 0, false, r) == PieceNodes(s, 0, p, 0, false, r) + Scan(s, |s|, 0, false, r);
  }

  /** A link to an address that may be opened is a button around its words, with the address in it, escaped. */
  lemma LinkLine(s: string, words: string, address: string, r: Rules)
    requires IsLink(s, words, address) && Unmarked(words)
    ensures ToHtml(Parse(s, 0, false, r)) ==
      match r.href(address)
      case Some(h) => LINK_OPENS + Esc(h) + "\">" + Esc(words) + "</button>"
      case None => Esc(words)
  {
    var inner := Parse(words, 1, true, r);
    AloneLink(s, words, address, r);
    WordsAreText(words, 1, true, r);
    if r.href(address).Some? { LinkIs(r.href(address).value, inner); }
  }

  /** An escaped mark is drawn as itself. */
  lemma EscapedIsItself(c: char, r: Rules)
    requires c in "\\`*_{}[]()#+-.!|~>"
    ensures ToHtml(Parse(['\\', c], 0, false, r)) == Esc([c])
  {
    var s := ['\\', c];
    assert PieceAt(s, 0, false, r) == Escaped;
    assert Scan(s, 2, 0, false, r) == [] && Scan(s, 0, 0, false, r) == [Text([c])] + [];
    OneNode(Text([c]));
  }
}
