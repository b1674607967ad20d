/** What a drawn line keeps to: links apart, well nested, nothing but its own characters in their order. */
module MarkdownProperties {
  import opened Options
  import opened Html
  import opened MarkdownInline

  // ---- nesting ---------------------------------------------------------------------------------------------------

  lemma LinksApartAppend(a: seq<Node>, b: seq<Node>, inLink: bool)
    requires LinksApart(a, inLink) && LinksApart(b, inLink)
    ensures LinksApart(a + b, inLink)
  {
  }

  lemma {:induction false} LinksApartLoosely(nodes: seq<Node>)
    requires LinksApart(nodes, true)
    ensures LinksApart(nodes, false)
  {
    forall k | 0 <= k < |nodes|
      ensures match nodes[k]
        case Link(_, words) => LinksApart(words, true)
        case Strong(inner) => LinksApart(inner, false)
        case Em(inner) => LinksApart(inner, false)
        case _ => true
    {
      match nodes[k] {
        case Strong(inner) => LinksApartLoosely(inner);
        case Em(inner) => LinksApartLoosely(inner);
        case _ =>
      }
    }
  }

  lemma {:induction false} ParseLinksApart(s: string, depth: nat, inLink: bool, r: Rules)
    ensures LinksApart(Parse(s, depth, inLink, r), inLink)
    decreases MAX_DEPTH + 1 - depth, |s| + 1
  {
    if depth <= MAX_DEPTH { ScanLinksApart(s, 0, depth, inLink, r); }
  }

  lemma {:induction false} ScanLinksApart(s: string, i: nat, depth: nat, inLink: bool, r: Rules)
    requires i <= |s| && depth <= MAX_DEPTH
    ensures LinksApart(Scan(s, i, depth, inLink, r), inLink)
    decreases MAX_DEPTH + 1 - depth, |s| - i, 1
  {
    if i < |s| {
      var p := PieceAt(s, i, inLink, r);
      var j := PieceEnd(s, i, p);
      PieceLinksApart(s, i, p, depth, inLink, r);
      ScanLinksApart(s, j, depth, inLink, r);
      LinksApartAppend(PieceNodes(s, i, p, depth, inLink, r), Scan(s, j, depth, inLink, r), inLink);
    }
  }

  lemma {:induction false} PieceLinksApart(s: string, i: nat, p: Piece, depth: nat, inLink: bool, r: Rules)
    requires Fits(s, i, p) && Grounded(s, i, p, inLink) && depth <= MAX_DEPTH
    ensures LinksApart(PieceNodes(s, i, p, depth, inLink, r), inLink)
    decreases MAX_DEPTH + 1 - depth, |s| - i, 0
  {
    if p.LinkTo? {
      ParseLinksApart(s[i + 1..i + p.words], depth + 1, true, r);
      LinkNodesApart(r.href(s[i + p.words + 2..i + p.address]), Parse(s[i + 1..i + p.words], depth + 1, true, r));
    } else if p.MarkedTo? {
      ParseLinksApart(s[i + p.width..p.close], depth + 1, inLink, r);
      MarkNodesApart(p.width, Parse(s[i + p.width..p.close], depth + 1, inLink, r), inLink);
    } else {
      TextLinksApart(s, i, p, depth, inLink, r);
    }
  }

  lemma TextLinksApart(s: string, i: nat, p: Piece, depth: nat, inLink: bool, r: Rules)
    requires Fits(s, i, p) && depth <= MAX_DEPTH && !p.LinkTo? && !p.MarkedTo?
    ensures LinksApart(PieceNodes(s, i, p, depth, inLink, r), inLink)
  {
  }

  lemma LinkNodesApart(href: Option<string>, words: seq<Node>)
    requires LinksApart(words, true)
    ensures LinksApart(LinkNodes(href, words), false)
  {
    LinksApartLoosely(words);
  }

  lemma MarkNodesApart(width: nat, inner: seq<Node>, inLink: bool)
    requires LinksApart(inner, inLink)
    ensures LinksApart(MarkNodes(width, inner), inLink)
  {
  }

  /** Whatever a line says, what it is drawn as is balanced, in its own tags only, with no link inside a link. */
  lemma LineIsNested(s: string, r: Rules, stack: seq<string>)
    requires "button" !in stack
    ensures Whole(ToHtml(Parse(s, 0, false, r)), stack)
  {
    ParseLinksApart(s, 0, false, r);
    InsideIsNested(Parse(s, 0, false, r), stack);
  }

  // ---- the words -------------------------------------------------------------------------------------------------

  /** What the person reads, marks and tags gone. */
  function Visible(nodes: seq<Node>): string {
    if nodes == [] then "" else VisibleNode(nodes[0]) + Visible(nodes[1..])
  }

  function VisibleNode(n: Node): string {
    match n
    case Text(t) => t
    case Slip => SLIP
    case Code(t) => t
    case Link(_, words) => Visible(words)
    case Strong(inner) => Visible(inner)
    case Em(inner) => Visible(inner)
  }

  predicate NoSlip(nodes: seq<Node>) {
    nodes == [] || (Clean(nodes[0]) && NoSlip(nodes[1..]))
  }

  predicate Clean(n: Node) {
    match n
    case Slip => false
    case Link(_, words) => NoSlip(words)
    case Strong(inner) => NoSlip(inner)
    case Em(inner) => NoSlip(inner)
    case _ => true
  }

  /** `a` can be had from `b` by leaving characters out. */
  predicate Within(a: string, b: string) {
    if a == "" then true
    else if b == "" then false
    else if a[0] == b[0] then Within(a[1..], b[1..]) else Within(a, b[1..])
  }

  lemma {:induction false} WithinLonger(a: string, front: string, b: string)
    requires Within(a, b)
    ensures Within(a, front + b)
    decreases |front|, |b|
  {
    if front == "" {
      assert front + b == b;
    } else if a != "" {
      assert (front + b)[1..] == front[1..] + b;
      WithinLonger(a, front[1..], b);
      if a[0] == front[0] { DropFirst(a, front[1..] + b); }
    }
  }

  lemma {:induction false} DropFirst(a: string, b: string)
    requires a != "" && Within(a, b)
    ensures Within(a[1..], b)
    decreases |b|
  {
    if a[0] == b[0] {
      if a[1..] != "" {
        if a[1..][0] == b[0] { DropFirst(a[1..], b[1..]); }
      }
    } else {
      DropFirst(a, b[1..]);
      if a[1..] != "" && a[1..][0] == b[0] { DropFirst(a[1..], b[1..]); }
    }
  }

  lemma {:induction false} WithinAppend(a: string, b: string, c: string, d: string)
    requires Within(a, b) && Within(c, d)
    ensures Within(a + c, b + d)
    decreases |b|
  {
    if a == "" {
      assert a + c == c;
      WithinLonger(c, b, d);
    } else {
      assert (a + c)[0] == a[0] && (b + d)[0] == b[0] && (a + c)[1..] == a[1..] + c && (b + d)[1..] == b[1..] + d;
      if a[0] == b[0] { WithinAppend(a[1..], b[1..], c, d); } else { WithinAppend(a, b[1..], c, d); }
    }
  }

  lemma {:induction false} WithinSelf(a: string)
    ensures Within(a, a)
  {
    if a != "" { WithinSelf(a[1..]); }
  }

  lemma {:induction false} VisibleAppend(a: seq<Node>, b: seq<Node>)
    ensures Visible(a + b) == Visible(a) + Visible(b)
    ensures NoSlip(a + b) <==> NoSlip(a) && NoSlip(b)
  {
    if a == [] {
      assert a + b == b;
    } else {
      assert (a + b)[1..] == a[1..] + b;
      VisibleAppend(a[1..], b);
    }
  }

  /** A part of a longer text is within it. */
  lemma Inside(a: string, s: string, from: nat, to: nat, start: nat, end: nat)
    requires start <= from <= to <= end <= |s| && Within(a, s[from..to])
    ensures Within(a, s[start..end])
  {
    WithinLonger(a, s[start..from], s[from..to]);
    WithinAppend(a, s[start..to], "", s[to..end]) by { assert s[start..from] + s[from..to] == s[start..to]; }
    assert a + "" == a && s[start..to] + s[to..end] == s[start..end];
  }

  lemma OneVisible(n: Node)
    ensures Visible([n]) == VisibleNode(n) && (NoSlip([n]) <==> Clean(n))
  {
    assert [n][1..] == [] && [n][0] == n;
  }

  /** Apart from a lone backslash at an end, a line shows its own characters only, in their order. */
  lemma {:induction false} ShowsOnlyItsOwn(s: string, depth: nat, inLink: bool, r: Rules)
    requires NoSlip(Parse(s, depth, inLink, r))
    ensures Within(Visible(Parse(s, depth, inLink, r)), s)
    decreases MAX_DEPTH + 1 - depth, |s| + 1
  {
    if depth > MAX_DEPTH {
      OneVisible(Text(s));
      WithinSelf(s);
    } else {
      ScanShowsOnlyItsOwn(s, 0, depth, inLink, r);
      assert s[0..] == s;
    }
  }

  lemma {:induction false} ScanShowsOnlyItsOwn(s: string, i: nat, depth: nat, inLink: bool, r: Rules)
    requires i <= |s| && depth <= MAX_DEPTH && NoSlip(Scan(s, i, depth, inLink, r))
    ensures Within(Visible(Scan(s, i, depth, inLink, r)), s[i..])
    decreases MAX_DEPTH + 1 - depth, |s| - i, 1
  {
    if i < |s| {
      var p := PieceAt(s, i, inLink, r);
      var j := PieceEnd(s, i, p);
      var nodes, rest := PieceNodes(s, i, p, depth, inLink, r), Scan(s, j, depth, inLink, r);
      VisibleAppend(nodes, rest);
      PieceShowsOnlyItsOwn(s, i, p, depth, inLink, r);
      ScanShowsOnlyItsOwn(s, j, depth, inLink, r);
      WithinAppend(Visible(nodes), s[i..j], Visible(rest), s[j..]);
      assert s[i..j] + s[j..] == s[i..];
    }
  }

  lemma {:induction false} PieceShowsOnlyItsOwn(s: string, i: nat, p: Piece, depth: nat, inLink: bool, r: Rules)
    requires Fits(s, i, p) && depth <= MAX_DEPTH && NoSlip(PieceNodes(s, i, p, depth, inLink, r))
    ensures Within(Visible(PieceNodes(s, i, p, depth, inLink, r)), s[i..PieceEnd(s, i, p)])
    decreases MAX_DEPTH + 1 - depth, |s| - i, 0
  {
    if p.LinkTo? {
      var to := i + p.words;
      InnerShows(s, i, p, depth, inLink, r);
      ShowsOnlyItsOwn(s[i + 1..to], depth + 1, true, r);
      Inside(Visible(Parse(s[i + 1..to], depth + 1, true, r)), s, i + 1, to, i, PieceEnd(s, i, p));
    } else if p.MarkedTo? {
      var from, to := i + p.width, p.close;
      InnerShows(s, i, p, depth, inLink, r);
      ShowsOnlyItsOwn(s[from..to], depth + 1, inLink, r);
      Inside(Visible(Parse(s[from..to], depth + 1, inLink, r)), s, from, to, i, PieceEnd(s, i, p));
    } else {
      TextIsItsOwn(s, i, p, depth, inLink, r);
    }
  }

  lemma LinkNodesShow(href: Option<string>, words: seq<Node>)
    ensures (NoSlip(LinkNodes(href, words)) <==> NoSlip(words)) && Visible(LinkNodes(href, words)) == Visible(words)
  {
    if href.Some? { OneVisible(Link(href.value, words)); }
  }

  lemma MarkNodesShow(width: nat, inner: seq<Node>)
    ensures (NoSlip(MarkNodes(width, inner)) <==> NoSlip(inner)) && Visible(MarkNodes(width, inner)) == Visible(inner)
  {
    OneVisible(MarkNodes(width, inner)[0]);
  }

  /** What stands inside a link or a mark. */
  function InnerOf(s: string, i: nat, p: Piece, depth: nat, inLink: bool, r: Rules): seq<Node>
    requires Fits(s, i, p) && depth <= MAX_DEPTH && (p.LinkTo? || p.MarkedTo?)
  {
    if p.LinkTo? then Parse(s[i + 1..i + p.words], depth + 1, true, r)
    else Parse(s[i + p.width..p.close], depth + 1, inLink, r)
  }

  lemma InnerShows(s: string, i: nat, p: Piece, depth: nat, inLink: bool, r: Rules)
    requires Fits(s, i, p) && depth <= MAX_DEPTH && (p.LinkTo? || p.MarkedTo?)
    ensures var inner, nodes := InnerOf(s, i, p, depth, inLink, r), PieceNodes(s, i, p, depth, inLink, r);
            (NoSlip(nodes) <==> NoSlip(inner)) && Visible(nodes) == Visible(inner)
  {
    var inner := InnerOf(s, i, p, depth, inLink, r);
    if p.LinkTo? {
      LinkNodesShow(r.href(s[i + p.words + 2..i + p.address]), inner);
    } else {
      MarkNodesShow(p.width, inner);
    }
  }

  lemma TextIsItsOwn(s: string, i: nat, p: Piece, depth: nat, inLink: bool, r: Rules)
    requires Fits(s, i, p) && depth <= MAX_DEPTH && !p.LinkTo? && !p.MarkedTo?
    requires NoSlip(PieceNodes(s, i, p, depth, inLink, r))
    ensures Within(Visible(PieceNodes(s, i, p, depth, inLink, r)), s[i..PieceEnd(s, i, p)])
  {
    OneVisible(PieceNodes(s, i, p, depth, inLink, r)[0]);
    if p.Escaped? {
      assert s[i + 1..i + 2] == [s[i + 1]];
      WithinSelf([s[i + 1]]);
      Inside([s[i + 1]], s, i + 1, i + 2, i, i + 2);
    } else if p.CodeTo? {
      WithinSelf(s[i + 1..p.close]);
      Inside(s[i + 1..p.close], s, i + 1, p.close, i, p.close + 1);
    } else if p.Plain? {
      WithinSelf(s[i..i + p.width]);
    }
  }

  // ---- the lone backslash ----------------------------------------------------------------------------------------

  /** How many backslashes the text ends in. */
  function Trailing(s: string): (n: nat)
    ensures n <= |s| && (forall k | |s| - n <= k < |s| :: s[k] == '\\') && (n < |s| ==> s[|s| - n - 1] != '\\')
  {
    if s == "" || s[|s| - 1] != '\\' then 0 else 1 + Trailing(s[..|s| - 1])
  }

  /** Outside the backslashes it ends in, or an even way into them. */
  predicate InStep(s: string, i: nat) {
    var start := |s| - Trailing(s);
    i <= start || (i - start) % 2 == 0
  }

  lemma StaysInStep(s: string, i: nat, p: Piece, inLink: bool)
    requires Fits(s, i, p) && Grounded(s, i, p, inLink) && InStep(s, i)
    ensures if p.LoneBackslash? then Trailing(s) % 2 == 1 else InStep(s, PieceEnd(s, i, p))
  {
    var start, j := |s| - Trailing(s), PieceEnd(s, i, p);
    if i < start {
      if i + 1 == start { assert s[start - 1] != '\\'; }
    } else {
      assert s[i] == '\\' && s[j - 1] == '\\';
      if i + 1 < |s| { assert s[i + 1] == '\\' && '\\' in ESCAPABLE; }
    }
  }

  /**
   * No link a line is drawn with has words that end in an odd run of backslashes, unless they are drawn as they stand.
   */
  predicate LinksEndClean(s: string, depth: nat, inLink: bool, r: Rules)
    decreases MAX_DEPTH + 1 - depth, 2
  {
    depth > MAX_DEPTH || RestEndsClean(s, 0, depth, inLink, r)
  }

  predicate RestEndsClean(s: string, i: nat, depth: nat, inLink: bool, r: Rules)
    requires i <= |s| && depth <= MAX_DEPTH
    decreases MAX_DEPTH + 1 - depth, 1, |s| - i
  {
    if i == |s| then true
    else
      var p := PieceAt(s, i, inLink, r);
      PieceEndsClean(s, i, p, depth, inLink, r) && RestEndsClean(s, PieceEnd(s, i, p), depth, inLink, r)
  }

  predicate PieceEndsClean(s: string, i: nat, p: Piece, depth: nat, inLink: bool, r: Rules)
    requires Fits(s, i, p) && depth <= MAX_DEPTH
    decreases MAX_DEPTH + 1 - depth, 0
  {
    match p
    case LinkTo(words, _, _) => depth == MAX_DEPTH || Trailing(s[i + 1..i + words]) % 2 == 0
    case MarkedTo(width, close) => LinksEndClean(s[i + width..close], depth + 1, inLink, r)
    case _ => true
  }

  lemma {:induction false} NoLinkInALink(s: string, depth: nat, r: Rules)
    ensures LinksEndClean(s, depth, true, r)
    decreases MAX_DEPTH + 1 - depth, 2
  {
    if depth <= MAX_DEPTH { NoLinkInTheRest(s, 0, depth, r); }
  }

  lemma {:induction false} NoLinkInTheRest(s: string, i: nat, depth: nat, r: Rules)
    requires i <= |s| && depth <= MAX_DEPTH
    ensures RestEndsClean(s, i, depth, true, r)
    decreases MAX_DEPTH + 1 - depth, 1, |s| - i
  {
    if i < |s| {
      var p := PieceAt(s, i, true, r);
      if p.MarkedTo? { NoLinkInALink(s[i + p.width..p.close], depth + 1, r); }
      NoLinkInTheRest(s, PieceEnd(s, i, p), depth, r);
    }
  }

  /**
   * Any line gets the word in place of a character exactly when it ends in an odd run of backslashes, or the words of a
   * link it is drawn with do.
   */
  lemma {:induction false} SlipsIff(s: string, depth: nat, inLink: bool, r: Rules)
    requires depth <= MAX_DEPTH
    ensures NoSlip(Parse(s, depth, inLink, r)) <==> Trailing(s) % 2 == 0 && LinksEndClean(s, depth, inLink, r)
    decreases MAX_DEPTH + 1 - depth, 3
  {
    RestSlipsIff(s, 0, depth, inLink, r);
  }

  lemma {:induction false} RestSlipsIff(s: string, i: nat, depth: nat, inLink: bool, r: Rules)
    requires i <= |s| && depth <= MAX_DEPTH && InStep(s, i)
    ensures NoSlip(Scan(s, i, depth, inLink, r)) <==> Trailing(s) % 2 == 0 && RestEndsClean(s, i, depth, inLink, r)
    decreases MAX_DEPTH + 1 - depth, 2, |s| - i
  {
    if i < |s| {
      var p := PieceAt(s, i, inLink, r);
      var j := PieceEnd(s, i, p);
      StaysInStep(s, i, p, inLink);
      VisibleAppend(PieceNodes(s, i, p, depth, inLink, r), Scan(s, j, depth, inLink, r));
      PieceSlipsIff(s, i, p, depth, inLink, r);
      if !p.LoneBackslash? { RestSlipsIff(s, j, depth, inLink, r); }
    }
  }

  lemma {:induction false} PieceSlipsIff(s: string, i: nat, p: Piece, depth: nat, inLink: bool, r: Rules)
    requires Fits(s, i, p) && Grounded(s, i, p, inLink) && depth <= MAX_DEPTH
    ensures NoSlip(PieceNodes(s, i, p, depth, inLink, r)) <==>
      !p.LoneBackslash? && PieceEndsClean(s, i, p, depth, inLink, r)
    decreases MAX_DEPTH + 1 - depth, 1
  {
    if p.LinkTo? || p.MarkedTo? {
      InnerShows(s, i, p, depth, inLink, r);
      InnerSlipsIff(s, i, p, depth, inLink, r);
    } else {
      TextSlipsIff(s, i, p, depth, inLink, r);
    }
  }

  lemma TextSlipsIff(s: string, i: nat, p: Piece, depth: nat, inLink: bool, r: Rules)
    requires Fits(s, i, p) && depth <= MAX_DEPTH && !p.LinkTo? && !p.MarkedTo?
    ensures NoSlip(PieceNodes(s, i, p, depth, inLink, r)) <==> !p.LoneBackslash?
  {
    OneVisible(PieceNodes(s, i, p, depth, inLink, r)[0]);
  }

  lemma {:induction false} InnerSlipsIff(s: string, i: nat, p: Piece, depth: nat, inLink: bool, r: Rules)
    requires Fits(s, i, p) && Grounded(s, i, p, inLink) && depth <= MAX_DEPTH
    requires p.LinkTo? || p.MarkedTo?
    ensures NoSlip(InnerOf(s, i, p, depth, inLink, r)) <==> PieceEndsClean(s, i, p, depth, inLink, r)
    decreases MAX_DEPTH + 1 - depth, 0
  {
    if p.LinkTo? {
      WordsSlipIff(s[i + 1..i + p.words], depth + 1, r);
    } else {
      MarkedSlipsIff(s[i + p.width..p.close], depth + 1, inLink, r);
    }
  }

  lemma {:induction false} WordsSlipIff(words: string, depth: nat, r: Rules)
    requires 1 <= depth <= MAX_DEPTH + 1
    ensures NoSlip(Parse(words, depth, true, r)) <==> depth == MAX_DEPTH + 1 || Trailing(words) % 2 == 0
    decreases MAX_DEPTH + 1 - depth, 4
  {
    if depth <= MAX_DEPTH {
      NoLinkInALink(words, depth, r);
      SlipsIff(words, depth, true, r);
    } else {
      OneVisible(Text(words));
    }
  }

  lemma {:induction false} MarkedSlipsIff(inner: string, depth: nat, inLink: bool, r: Rules)
    requires 1 <= depth <= MAX_DEPTH + 1 && inner != "" && inner[|inner| - 1] != '\\'
    ensures NoSlip(Parse(inner, depth, inLink, r)) <==> LinksEndClean(inner, depth, inLink, r)
    decreases MAX_DEPTH + 1 - depth, 4
  {
    assert Trailing(inner) == 0;
    if depth <= MAX_DEPTH { SlipsIff(inner, depth, inLink, r); } else { OneVisible(Text(inner)); }
  }

  /** The shortest such line: one backslash is drawn as a word nobody wrote. */
  lemma LoneBackslashIsAWord(r: Rules)
    ensures ToHtml(Parse("\\", 0, false, r)) == "undefined"
  {
    var s := "\\";
    assert PieceAt(s, 0, false, r) == LoneBackslash;
    assert Scan(s, 1, 0, false, r) == [];
    assert Parse(s, 0, false, r) == [Slip];
    OneNode(Slip);
  }
}
