/** One line of a reply: the scan for bold, italic, code and links, without and with its memo of failed searches. */
module MarkdownInline {
  import opened Options
  import opened Characters
  import opened Html

  /** What the scan asks of its surroundings: letters and digits, and which addresses may be opened. */
  datatype Rules = Rules(word: char -> bool, href: string -> Option<string>)

  const ESCAPABLE := "\\`*_{}[]()#+-.!|~>"
  const MAX_DEPTH := 4
  const LINK_WINDOW := 2400
  const LINK_WORDS_MAX := 300
  const LINK_ADDRESS_MAX := 2000

  datatype Stop = Tick | Quote | WordsEnd | AddressEnd | NonSpace

  predicate Stops(stop: Stop, c: char) {
    match stop
    case Tick => c == '`'
    case Quote => c == '"'
    case WordsEnd => c == ']' || c == '\n'
    case AddressEnd => c == ')' || Space(c)
    case NonSpace => !Space(c)
  }

  /** The first place at or after `i` where the character stops the run, or the end. */
  function Until(s: string, i: nat, stop: Stop): (j: nat)
    requires i <= |s|
    ensures i <= j <= |s| && (j < |s| ==> Stops(stop, s[j])) && forall k | i <= k < j :: !Stops(stop, s[k])
    decreases |s| - i
  {
    if i == |s| || Stops(stop, s[i]) then i else Until(s, i + 1, stop)
  }

  // ---- what starts at one place ----------------------------------------------------------------------------------

  datatype Piece =
    | Escaped
    | LoneBackslash
    | CodeTo(close: nat)
    | LinkTo(words: nat, address: nat, end: nat)  // offsets: ']' after the words, the address's end, the end
    | MarkedTo(width: nat, close: nat)
    | Plain(width: nat)

  function LinkIn(w: string): (p: Option<Piece>)
    ensures p.Some? ==> p.value.LinkTo? && 2 <= p.value.words
    ensures p.Some? ==> p.value.words + 2 < p.value.address < p.value.end <= |w|
    ensures p.Some? ==> w[p.value.words] == ']' && w[p.value.words + 1] == '(' && w[p.value.end - 1] == ')'
  {
    if |w| == 0 then None else
    var a := Until(w, 1, WordsEnd);
    if a == |w| || w[a] != ']' || !(1 <= a - 1 <= LINK_WORDS_MAX) || a + 1 == |w| || w[a + 1] != '(' then None else
    var b := Until(w, a + 2, AddressEnd);
    if b == |w| || !(1 <= b - (a + 2) <= LINK_ADDRESS_MAX) then None
    else if w[b] == ')' then Some(LinkTo(a, b, b + 1))
    else
      var e := Until(w, b, NonSpace);
      if e == |w| || w[e] != '"' then None else
      var f := Until(w, e + 1, Quote);
      if f + 1 >= |w| || w[f + 1] != ')' then None else Some(LinkTo(a, b, f + 2))
  }

  /** A mark of `width` characters stands at `p`. */
  predicate MarkAt(s: string, c: char, width: nat, p: nat) {
    p + width <= |s| && forall k | p <= k < p + width :: s[k] == c
  }

  /** The mark at `p` can close: not after a space or a backslash, and a single one is not half of a double. */
  predicate Closes(s: string, c: char, width: nat, p: nat) {
    && 1 <= p && MarkAt(s, c, width, p)
    && !Space(s[p - 1]) && s[p - 1] != '\\'
    && !(width == 1 && p + 1 < |s| && s[p + 1] == c)
  }

  function FirstClose(s: string, c: char, width: nat, from: nat): (p: Option<nat>)
    ensures p.Some? ==> from <= p.value && Closes(s, c, width, p.value)
    ensures p.Some? ==> forall k | from <= k < p.value :: !Closes(s, c, width, k)
    ensures p.None? ==> forall k | from <= k <= |s| :: !Closes(s, c, width, k)
    decreases |s| - from
  {
    if from > |s| then None
    else if Closes(s, c, width, from) then Some(from)
    else FirstClose(s, c, width, from + 1)
  }

  function Width(s: string, i: nat): nat
    requires i < |s|
  {
    if i + 1 < |s| && s[i + 1] == s[i] then 2 else 1
  }

  /** A mark opens before a non-space, and an underscore not inside a word. */
  predicate OpensAt(s: string, i: nat, r: Rules)
    requires i < |s|
  {
    var next := i + Width(s, i);
    next < |s| && !Space(s[next]) && !(s[i] == '_' && i > 0 && r.word(s[i - 1]))
  }

  /** The piece lies within the line. */
  predicate Fits(s: string, i: nat, p: Piece) {
    i < |s| &&
    match p
    case Escaped => i + 1 < |s|
    case LoneBackslash => i + 1 == |s|
    case CodeTo(close) => i + 1 < close < |s|
    case LinkTo(words, address, end) => 2 <= words && words + 2 < address < end <= |s| - i
    case MarkedTo(width, close) => 1 <= width && i + width < close && close + width <= |s|
    case Plain(width) => 1 <= width && i + width <= |s|
  }

  /** What the characters around a piece say of it. */
  predicate Grounded(s: string, i: nat, p: Piece, inLink: bool)
    requires Fits(s, i, p)
  {
    match p
    case Escaped => s[i] == '\\' && s[i + 1] in ESCAPABLE
    case LoneBackslash => s[i] == '\\'
    case CodeTo(close) => s[close] == '`'
    case LinkTo(words, _, end) => !inLink && s[i + words] == ']' && s[i + words + 1] == '(' && s[i + end - 1] == ')'
    case MarkedTo(width, close) => s[close + width - 1] in "*_" && s[close - 1] != '\\'
    case Plain(width) =>
      && (s[i] == '\\' ==> width == 1 && i + 1 < |s| && s[i + 1] !in ESCAPABLE)
      && (width > 1 ==> width == 2 && s[i + 1] in "*_")
  }

  function LinkAt(s: string, i: nat): (p: Option<Piece>)
    requires i < |s|
    ensures p.Some? ==> p.value.LinkTo? && 2 <= p.value.words
    ensures p.Some? ==> p.value.words + 2 < p.value.address < p.value.end <= |s| - i
    ensures p.Some? ==> s[i + p.value.end - 1] == ')' && s[i + p.value.words] == ']' && s[i + p.value.words + 1] == '('
  {
    LinkIn(s[i..if i + LINK_WINDOW <= |s| then i + LINK_WINDOW else |s|])
  }

  function MarkPiece(s: string, i: nat, r: Rules): (p: Piece)
    requires i < |s|
    ensures p.Plain? || p.MarkedTo?
    ensures p.width == Width(s, i)
    ensures p.MarkedTo? ==> i + p.width < p.close && Closes(s, s[i], p.width, p.close)
  {
    var d := Width(s, i);
    if !OpensAt(s, i, r) then Plain(d)
    else match FirstClose(s, s[i], d, i + d)
      case Some(close) => if close > i + d then MarkedTo(d, close) else Plain(d)
      case None => Plain(d)
  }

  predicate EscapesAt(s: string, i: nat)
    requires i < |s|
  {
    s[i] == '\\' && i + 1 < |s| && s[i + 1] in ESCAPABLE
  }

  predicate CodeAt(s: string, i: nat)
    requires i < |s|
  {
    s[i] == '`' && i + 1 < Until(s, i + 1, Tick) < |s|
  }

  function PieceAt(s: string, i: nat, inLink: bool, r: Rules): (p: Piece)
    requires i < |s|
    ensures Fits(s, i, p) && Grounded(s, i, p, inLink)
  {
    if s[i] == '\\' && i + 1 == |s| then LoneBackslash
    else if EscapesAt(s, i) then Escaped
    else if CodeAt(s, i) then CodeTo(Until(s, i + 1, Tick))
    else if s[i] == '[' && !inLink && LinkAt(s, i).Some? then LinkAt(s, i).value
    else if s[i] == '*' || s[i] == '_' then MarkPiece(s, i, r)
    else Plain(1)
  }

  function PieceEnd(s: string, i: nat, p: Piece): (j: nat)
    ensures Fits(s, i, p) ==> i < j <= |s|
  {
    match p
    case Escaped => i + 2
    case LoneBackslash => i + 1
    case CodeTo(close) => close + 1
    case LinkTo(_, _, end) => i + end
    case MarkedTo(width, close) => close + width
    case Plain(width) => i + width
  }

  // ---- the line as a tree ----------------------------------------------------------------------------------------

  function Parse(s: string, depth: nat, inLink: bool, r: Rules): seq<Node>
    decreases MAX_DEPTH + 1 - depth, |s| + 1
  {
    if depth > MAX_DEPTH then [Text(s)] else Scan(s, 0, depth, inLink, r)
  }

  function Scan(s: string, i: nat, depth: nat, inLink: bool, r: Rules): seq<Node>
    requires i <= |s| && depth <= MAX_DEPTH
    decreases MAX_DEPTH + 1 - depth, |s| - i
  {
    if i == |s| then []
    else
      var p := PieceAt(s, i, inLink, r);
      PieceNodes(s, i, p, depth, inLink, r) + Scan(s, PieceEnd(s, i, p), depth, inLink, r)
  }

  /** A link to an address that will do, or only its words. */
  function LinkNodes(href: Option<string>, words: seq<Node>): seq<Node> {
    match href case Some(h) => [Link(h, words)] case None => words
  }

  function MarkNodes(width: nat, inner: seq<Node>): seq<Node> { [if width == 2 then Strong(inner) else Em(inner)] }

  function PieceNodes(s: string, i: nat, p: Piece, depth: nat, inLink: bool, r: Rules): seq<Node>
    requires Fits(s, i, p) && depth <= MAX_DEPTH
    decreases MAX_DEPTH + 1 - depth, 0
  {
    match p
    case Escaped => [Text([s[i + 1]])]
    case LoneBackslash => [Slip]
    case CodeTo(close) => [Code(s[i + 1..close])]
    case LinkTo(words, address, _) =>
      LinkNodes(r.href(s[i + words + 2..i + address]), Parse(s[i + 1..i + words], depth + 1, true, r))
    case MarkedTo(width, close) => MarkNodes(width, Parse(s[i + width..close], depth + 1, inLink, r))
    case Plain(width) => [Text(s[i..i + width])]
  }

  // ---- the scan as the code runs it ------------------------------------------------------------------------------

  /** The first place at or after `from` where the mark stands, as indexOf finds it. */
  function IndexOf(s: string, c: char, width: nat, from: nat): (p: Option<nat>)
    ensures p.Some? ==> from <= p.value && MarkAt(s, c, width, p.value)
    ensures p.Some? ==> forall k | from <= k < p.value :: !MarkAt(s, c, width, k)
    ensures p.None? ==> forall k | from <= k <= |s| :: !MarkAt(s, c, width, k)
    decreases |s| - from
  {
    if from > |s| then None else if MarkAt(s, c, width, from) then Some(from) else IndexOf(s, c, width, from + 1)
  }

  method FindClose(s: string, c: char, width: nat, from: nat) returns (close: Option<nat>)
    requires 1 <= from && 1 <= width <= 2
    ensures close == FirstClose(s, c, width, from)
  {
    close := IndexOf(s, c, width, from);
    while close.Some? && !Closes(s, c, width, close.value)
      invariant close.Some? ==> from <= close.value <= |s|
      invariant close.Some? ==> forall k | from <= k < close.value :: !Closes(s, c, width, k)
      invariant close.None? ==> forall k | from <= k <= |s| :: !Closes(s, c, width, k)
      decreases close.Some?, if close.Some? then |s| - close.value else 0
    {
      close := IndexOf(s, c, width, close.value + 1);
    }
    if close.Some? { assert Closes(s, c, width, close.value); }
  }

  datatype Mark = Mark(c: char, width: nat)

  /** Every mark the memo holds was found to have no closer from there on. */
  ghost predicate MemoHolds(s: string, none: map<Mark, nat>, i: nat) {
    forall d | d in none :: none[d] <= i && forall k | none[d] + d.width <= k <= |s| :: !Closes(s, d.c, d.width, k)
  }

  /** The closer of the mark at `i`, if it makes one with it; a search in vain is remembered, and not made again. */
  method Search(s: string, i: nat, none: map<Mark, nat>, r: Rules) returns (close: Option<nat>, memo: map<Mark, nat>)
    requires i < |s| && MemoHolds(s, none, i)
    ensures MemoHolds(s, memo, i)
    ensures MarkPiece(s, i, r) == if close.Some? then MarkedTo(Width(s, i), close.value) else Plain(Width(s, i))
  {
    var d := Width(s, i);
    var mark := Mark(s[i], d);
    close, memo := None, none;
    if OpensAt(s, i, r) && !(mark in none && none[mark] <= i) {
      close := FindClose(s, s[i], d, i + d);
      if close.None? { memo := none[mark := i]; }
      if close.Some? && close.value <= i + d { close := None; }
    }
  }

  lemma OneNode(n: Node)
    ensures ToHtml([n]) == NodeHtml(n)
  {
    assert [n][1..] == [];
  }

  lemma SlipIsPlain()
    ensures Esc(SLIP) == SLIP
  {
    EscAppend("unde", "fined");
    assert Esc("unde") == "unde" && Esc("fined") == "fined";
  }

  /** What a piece that is text adds to the buffer. */
  function PieceText(s: string, i: nat, p: Piece): string
    requires Fits(s, i, p)
  {
    match p
    case Escaped => [s[i + 1]]
    case LoneBackslash => SLIP
    case Plain(width) => s[i..i + width]
    case _ => ""
  }

  /** A link with an address that may be opened; its words alone without one. */
  function LinkHtml(href: Option<string>, words: string): string {
    match href
    case Some(h) => "<" + LinkTag(h) + ">" + words + "</" + "button" + ">"
    case None => words
  }

  function MarkedHtml(width: nat, inner: string): string { Element(if width == 2 then "strong" else "em", inner) }

  /** What a piece that is markup adds to the output. */
  function PieceHtml(s: string, i: nat, p: Piece, depth: nat, inLink: bool, r: Rules): string
    requires Fits(s, i, p) && depth <= MAX_DEPTH
  {
    match p
    case CodeTo(close) => Element("code", Esc(s[i + 1..close]))
    case LinkTo(words, address, _) =>
      LinkHtml(r.href(s[i + words + 2..i + address]), ToHtml(Parse(s[i + 1..i + words], depth + 1, true, r)))
    case MarkedTo(width, close) =>
      MarkedHtml(width, ToHtml(Parse(s[i + width..close], depth + 1, inLink, r)))
    case _ => ""
  }

  lemma TextDrawn(s: string, i: nat, p: Piece, depth: nat, inLink: bool, r: Rules)
    requires Fits(s, i, p) && depth <= MAX_DEPTH
    requires p.Escaped? || p.LoneBackslash? || p.Plain?
    ensures ToHtml(PieceNodes(s, i, p, depth, inLink, r)) == Esc(PieceText(s, i, p))
  {
    SlipIsPlain();
    OneNode(PieceNodes(s, i, p, depth, inLink, r)[0]);
  }

  lemma MarkupDrawn(s: string, i: nat, p: Piece, depth: nat, inLink: bool, r: Rules)
    requires Fits(s, i, p) && depth <= MAX_DEPTH
    requires p.CodeTo? || p.LinkTo? || p.MarkedTo?
    ensures ToHtml(PieceNodes(s, i, p, depth, inLink, r)) == PieceHtml(s, i, p, depth, inLink, r)
  {
    var nodes := PieceNodes(s, i, p, depth, inLink, r);
    if |nodes| == 1 { OneNode(nodes[0]); }
  }

  /** What is out and buffered, and the rest of the line, make the whole line. */
  ghost predicate Sofar(out: string, buf: string, s: string, i: nat, depth: nat, inLink: bool, r: Rules)
    requires i <= |s| && depth <= MAX_DEPTH
  {
    out + Esc(buf) + ToHtml(Scan(s, i, depth, inLink, r)) == ToHtml(Scan(s, 0, depth, inLink, r))
  }

  lemma OnePiece(s: string, i: nat, depth: nat, inLink: bool, r: Rules)
    requires i < |s| && depth <= MAX_DEPTH
    ensures var p := PieceAt(s, i, inLink, r);
            ToHtml(Scan(s, i, depth, inLink, r))
            == ToHtml(PieceNodes(s, i, p, depth, inLink, r)) + ToHtml(Scan(s, PieceEnd(s, i, p), depth, inLink, r))
  {
    var p := PieceAt(s, i, inLink, r);
    ToHtmlAppend(PieceNodes(s, i, p, depth, inLink, r), Scan(s, PieceEnd(s, i, p), depth, inLink, r));
  }

  lemma Buffered(out: string, buf: string, s: string, i: nat, depth: nat, inLink: bool, r: Rules)
    requires i < |s| && depth <= MAX_DEPTH && Sofar(out, buf, s, i, depth, inLink, r)
    requires var p := PieceAt(s, i, inLink, r); p.Escaped? || p.LoneBackslash? || p.Plain?
    ensures var p := PieceAt(s, i, inLink, r);
            Sofar(out, buf + PieceText(s, i, p), s, PieceEnd(s, i, p), depth, inLink, r)
  {
    var p := PieceAt(s, i, inLink, r);
    OnePiece(s, i, depth, inLink, r);
    TextDrawn(s, i, p, depth, inLink, r);
    EscAppend(buf, PieceText(s, i, p));
    Regroup(out, Esc(buf), Esc(PieceText(s, i, p)), ToHtml(Scan(s, PieceEnd(s, i, p), depth, inLink, r)));
  }

  lemma Flushed(out: string, buf: string, s: string, i: nat, depth: nat, inLink: bool, r: Rules)
    requires i < |s| && depth <= MAX_DEPTH && Sofar(out, buf, s, i, depth, inLink, r)
    requires var p := PieceAt(s, i, inLink, r); p.CodeTo? || p.LinkTo? || p.MarkedTo?
    ensures var p := PieceAt(s, i, inLink, r);
            Sofar(out + Esc(buf) + PieceHtml(s, i, p, depth, inLink, r), "", s, PieceEnd(s, i, p), depth, inLink, r)
  {
    var p := PieceAt(s, i, inLink, r);
    OnePiece(s, i, depth, inLink, r);
    MarkupDrawn(s, i, p, depth, inLink, r);
    Regroup(out + Esc(buf), PieceHtml(s, i, p, depth, inLink, r), "",
      ToHtml(Scan(s, PieceEnd(s, i, p), depth, inLink, r)));
  }

  lemma Regroup(a: string, b: string, c: string, d: string)
    ensures a + b + (c + d) == a + (b + c) + d
    ensures a + (b + d) == a + b + [] + d
  {
  }

  /** What starts at `i`, as the scan finds it with its memo. */
  method Take(s: string, i: nat, inLink: bool, none: map<Mark, nat>, r: Rules) returns (p: Piece, memo: map<Mark, nat>)
    requires i < |s| && MemoHolds(s, none, i)
    ensures p == PieceAt(s, i, inLink, r) && MemoHolds(s, memo, i)
  {
    memo := none;
    if s[i] == '\\' && i + 1 == |s| { return LoneBackslash, none; }
    if EscapesAt(s, i) { return Escaped, none; }
    if CodeAt(s, i) { return CodeTo(Until(s, i + 1, Tick)), none; }
    if s[i] == '[' && !inLink {
      var m := LinkAt(s, i);
      if m.Some? { return m.value, none; }
    }
    if s[i] == '*' || s[i] == '_' {
      var close;
      close, memo := Search(s, i, none, r);
      p := if close.Some? then MarkedTo(Width(s, i), close.value) else Plain(Width(s, i));
    } else {
      p := Plain(1);
    }
  }

  method DrawMarkup(s: string, i: nat, p: Piece, depth: nat, inLink: bool, r: Rules) returns (out: string)
    requires Fits(s, i, p) && depth <= MAX_DEPTH
    requires p.CodeTo? || p.LinkTo? || p.MarkedTo?
    ensures out == PieceHtml(s, i, p, depth, inLink, r)
    decreases MAX_DEPTH + 1 - depth, 1
  {
    if p.CodeTo? {
      return Element("code", Esc(s[i + 1..p.close]));
    }
    if p.LinkTo? {
      out := DrawLink(s[i + 1..i + p.words], s[i + p.words + 2..i + p.address], depth, r);
    } else {
      out := DrawMarked(s[i + p.width..p.close], p.width, depth, inLink, r);
    }
  }

  method DrawLink(words: string, address: string, depth: nat, r: Rules) returns (out: string)
    requires depth <= MAX_DEPTH
    ensures out == LinkHtml(r.href(address), ToHtml(Parse(words, depth + 1, true, r)))
    decreases MAX_DEPTH + 1 - depth, 0
  {
    var inner := MdInline(words, depth + 1, true, r);
    out := LinkHtml(r.href(address), inner);
  }

  method DrawMarked(text: string, width: nat, depth: nat, inLink: bool, r: Rules) returns (out: string)
    requires depth <= MAX_DEPTH
    ensures out == MarkedHtml(width, ToHtml(Parse(text, depth + 1, inLink, r)))
    decreases MAX_DEPTH + 1 - depth, 0
  {
    var inner := MdInline(text, depth + 1, inLink, r);
    out := MarkedHtml(width, inner);
  }

  /** The scan with its memo draws every line as the scan without one does. */
  method MdInline(s: string, depth: nat, inLink: bool, r: Rules) returns (out: string)
    ensures out == ToHtml(Parse(s, depth, inLink, r))
    decreases MAX_DEPTH + 1 - depth, 2
  {
    if depth > MAX_DEPTH {
      OneNode(Text(s));
      return Esc(s);
    }
    var buf: string, i: nat, none: map<Mark, nat> := "", 0, map[];
    out := "";
    while i < |s|
      invariant i <= |s| && MemoHolds(s, none, i)
      invariant Sofar(out, buf, s, i, depth, inLink, r)
      decreases |s| - i
    {
      var p;
      p, none := Take(s, i, inLink, none, r);
      if p.Escaped? || p.LoneBackslash? || p.Plain? {
        Buffered(out, buf, s, i, depth, inLink, r);
        buf := buf + PieceText(s, i, p);
      } else {
        Flushed(out, buf, s, i, depth, inLink, r);
        var markup := DrawMarkup(s, i, p, depth, inLink, r);
        out, buf := out + Esc(buf) + markup, "";
      }
      i := PieceEnd(s, i, p);
    }
    out := out + Esc(buf);
  }
}
