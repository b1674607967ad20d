/** The markup a reply is drawn with: the tree, its text, and what it takes for that text to be well nested. */
module Html {
  import opened Options

  // ---- escaped text ----------------------------------------------------------------------------------------------

  function EscChar(c: char): string {
    match c
    case '&' => "&amp;"
    case '<' => "&lt;"
    case '>' => "&gt;"
    case '"' => "&quot;"
    case '\'' => "&#39;"
    case _ => [c]
  }

  function Esc(s: string): string {
    if s == "" then "" else EscChar(s[0]) + Esc(s[1..])
  }

  /** What a browser reads back from escaped text. */
  function Unesc(s: string): string {
    if s == "" then ""
    else if "&amp;" <= s then "&" + Unesc(s[5..])
    else if "&lt;" <= s then "<" + Unesc(s[4..])
    else if "&gt;" <= s then ">" + Unesc(s[4..])
    else if "&quot;" <= s then "\"" + Unesc(s[6..])
    else if "&#39;" <= s then "'" + Unesc(s[5..])
    else [s[0]] + Unesc(s[1..])
  }

  lemma UnescOne(c: char, rest: string)
    ensures Unesc(EscChar(c) + rest) == [c] + Unesc(rest)
  {
    var e := EscChar(c);
    assert (e + rest)[|e|..] == rest;
    match c {
      case '&' => assert e <= e + rest;
      case '<' => assert e <= e + rest; assert (e + rest)[1] == 'l';
      case '>' => assert e <= e + rest; assert (e + rest)[1] == 'g';
      case '"' => assert e <= e + rest; assert (e + rest)[1] == 'q';
      case '\'' => assert e <= e + rest; assert (e + rest)[1] == '#';
      case _ => assert (e + rest)[0] == c;
    }
  }

  /** Escaped text reads back as the text, for every string. */
  lemma {:induction false} UnescEsc(s: string)
    ensures Unesc(Esc(s)) == s
  {
    if s != "" {
      UnescOne(s[0], Esc(s[1..]));
      UnescEsc(s[1..]);
      assert s == [s[0]] + s[1..];
    }
  }

  lemma {:induction false} EscAppend(a: string, b: string)
    ensures Esc(a + b) == Esc(a) + Esc(b)
  {
    if a == "" {
      assert a + b == b;
    } else {
      assert (a + b)[1..] == a[1..] + b;
      EscAppend(a[1..], b);
    }
  }

  predicate Inert(s: string) {
    NoAngles(s) && '"' !in s
  }

  predicate NoAngles(s: string) {
    '<' !in s && '>' !in s
  }

  lemma {:induction false} EscIsInert(s: string)
    ensures Inert(Esc(s))
  {
    if s != "" {
      EscIsInert(s[1..]);
      var e := EscChar(s[0]);
      assert '<' !in e && '>' !in e && '"' !in e;
    }
  }

  // ---- the tree --------------------------------------------------------------------------------------------------

  /** `Slip` is what a line that ends in a lone backslash gets in its place. */
  datatype Node =
    | Text(text: string)
    | Slip
    | Code(text: string)
    | Link(href: string, words: seq<Node>)
    | Strong(inner: seq<Node>)
    | Em(inner: seq<Node>)

  const SLIP := "undefined"
  const TYPE_AND_CLASS := "type=\"button\" class=\"link\" "
  const ACTION := "data-act=\"open-href\" "
  const ADDRESS := "data-href=\""

  /** The tag that opens a link: a button that carries the escaped address. */
  function LinkTag(href: string): string {
    "button" + [' '] + (TYPE_AND_CLASS + ACTION + ADDRESS + Esc(href) + ['"'])
  }

  function NodeHtml(n: Node): string {
    match n
    case Text(t) => Esc(t)
    case Slip => SLIP
    case Code(t) => Element("code", Esc(t))
    case Link(href, words) => "<" + LinkTag(href) + ">" + ToHtml(words) + "</" + "button" + ">"
    case Strong(inner) => Element("strong", ToHtml(inner))
    case Em(inner) => Element("em", ToHtml(inner))
  }

  function ToHtml(nodes: seq<Node>): string {
    if nodes == [] then "" else NodeHtml(nodes[0]) + ToHtml(nodes[1..])
  }

  function Element(tag: string, inside: string): string {
    "<" + tag + ">" + inside + "</" + tag + ">"
  }

  lemma {:induction false} ToHtmlAppend(a: seq<Node>, b: seq<Node>)
    ensures ToHtml(a + b) == ToHtml(a) + ToHtml(b)
  {
    if a == [] {
      assert a + b == b;
    } else {
      assert (a + b)[1..] == a[1..] + b;
      ToHtmlAppend(a[1..], b);
    }
  }

  /** No link anywhere when `inLink`, and never one inside another. */
  predicate LinksApart(nodes: seq<Node>, inLink: bool) {
    forall k | 0 <= k < |nodes| ::
      match nodes[k]
      case Link(_, words) => !inLink && LinksApart(words, true)
      case Strong(inner) => LinksApart(inner, inLink)
      case Em(inner) => LinksApart(inner, inLink)
      case _ => true
  }

  // ---- reading the text back -------------------------------------------------------------------------------------

  function Find(s: string, c: char): (k: nat)
    ensures k <= |s| && (forall i | 0 <= i < k :: s[i] != c) && (k < |s| ==> s[k] == c)
  {
    if s == "" then 0 else if s[0] == c then 0 else 1 + Find(s[1..], c)
  }

  function Name(tag: string): string { tag[..Find(tag, ' ')] }

  predicate Digits(s: string) {
    s != "" && forall k | 0 <= k < |s| :: '0' <= s[k] <= '9'
  }

  /** The tags a reply is made of; an address only as an escaped attribute. */
  ghost predicate OwnTag(tag: string) {
    || tag in ["code", "strong", "em", "p", "p class=\"label\"", "ul", "ol", "li"]
    || ("ol start=\"" <= tag && |tag| > 10 && tag[|tag| - 1] == '"' && Digits(tag[10..|tag| - 1]))
    || (exists href :: tag == LinkTag(href))
  }

  /** The open elements after one tag, innermost first; none when the tag may not stand there. */
  ghost function AfterTag(tag: string, stack: seq<string>): Option<seq<string>> {
    if tag == "br" then Some(stack)
    else if tag != "" && tag[0] == '/' then
      if stack != [] && stack[0] == tag[1..] then Some(stack[1..]) else None
    else if OwnTag(tag) && (Name(tag) == "button" ==> "button" !in stack) then Some([Name(tag)] + stack)
    else None
  }

  /**
   * Whether the text is balanced with `stack` open: own tags only, each closed by its own name, no button in a button.
   */
  ghost predicate Nested(s: string, stack: seq<string>)
    decreases |s|
  {
    if s == "" then stack == []
    else if s[0] == '>' then false
    else if s[0] != '<' then Nested(s[1..], stack)
    else
      var k := Find(s, '>');
      if k >= |s| then false
      else match AfterTag(s[1..k], stack)
        case None => false
        case Some(inner) => Nested(s[k + 1..], inner)
  }

  lemma {:induction false} NestedText(t: string, rest: string, stack: seq<string>)
    requires NoAngles(t)
    ensures Nested(t + rest, stack) == Nested(rest, stack)
  {
    if t == "" {
      assert t + rest == rest;
    } else {
      assert (t + rest)[1..] == t[1..] + rest && (t + rest)[0] == t[0];
      NestedText(t[1..], rest, stack);
    }
  }

  lemma FindIn(a: string, c: char, b: string)
    requires c !in a
    ensures Find(a + [c] + b, c) == |a|
  {
    assert (a + [c] + b)[|a|] == c;
    assert forall k | 0 <= k < |a| :: (a + [c] + b)[k] == a[k];
  }

  lemma NestedTag(tag: string, rest: string, stack: seq<string>)
    requires '>' !in tag
    ensures Nested(['<'] + tag + ['>'] + rest, stack) ==
              (AfterTag(tag, stack).Some? && Nested(rest, AfterTag(tag, stack).value))
  {
    var s := ['<'] + tag + ['>'] + rest;
    FindIn(['<'] + tag, '>', rest);
    assert s[1..|tag| + 1] == tag && s[|tag| + 2..] == rest;
  }

  /** A tag that opens the element `name` where it may stand. */
  ghost predicate Opens(tag: string, name: string, stack: seq<string>) {
    && AfterTag(tag, stack) == Some([name] + stack)
    && name != "" && '>' !in tag && '>' !in name
  }

  /** Text that leaves the open elements as they were, whatever follows it. */
  ghost predicate Whole(inside: string, stack: seq<string>) {
    forall more :: Nested(inside + more, stack) == Nested(more, stack)
  }

  lemma WholeAppend(a: string, b: string, stack: seq<string>)
    requires Whole(a, stack) && Whole(b, stack)
    ensures Whole(a + b, stack)
  {
    forall more ensures Nested(a + b + more, stack) == Nested(more, stack) {
      assert a + b + more == a + (b + more);
    }
  }

  lemma WholeElement(tag: string, name: string, inside: string, stack: seq<string>)
    requires Opens(tag, name, stack) && Whole(inside, [name] + stack)
    ensures Whole("<" + tag + ">" + inside + "</" + name + ">", stack)
  {
    forall more ensures Nested("<" + tag + ">" + inside + "</" + name + ">" + more, stack) == Nested(more, stack) {
      NestedElement(tag, name, inside, more, stack);
    }
  }

  /** A whole element: its opening tag, what is inside, its closing tag. */
  lemma NestedElement(tag: string, name: string, inside: string, rest: string, stack: seq<string>)
    requires Opens(tag, name, stack)
    requires Whole(inside, [name] + stack)
    ensures Nested("<" + tag + ">" + inside + "</" + name + ">" + rest, stack) == Nested(rest, stack)
  {
    var close := ['<'] + (['/'] + name) + ['>'] + rest;
    assert "<" + tag + ">" + inside + "</" + name + ">" + rest == ['<'] + tag + ['>'] + (inside + close);
    NestedTag(tag, inside + close, stack);
    assert Nested(inside + close, [name] + stack) == Nested(close, [name] + stack);
    CloseTag(name, stack);
    NestedTag(['/'] + name, rest, [name] + stack);
  }

  lemma CloseTag(name: string, stack: seq<string>)
    requires name != ""
    ensures AfterTag(['/'] + name, [name] + stack) == Some(stack)
  {
    assert ([name] + stack)[1..] == stack && (['/'] + name)[1..] == name && (['/'] + name)[0] == '/';
  }

  lemma PlainTag(tag: string, stack: seq<string>)
    requires tag in ["code", "strong", "em", "p", "ul", "ol", "li"]
    ensures Opens(tag, tag, stack)
  {
    assert ' ' !in tag && '>' !in tag && tag[0] != '/';
    assert Find(tag, ' ') == |tag|;
    assert tag[..|tag|] == tag;
  }

  lemma LinkTagIsWhole(href: string)
    ensures '>' !in LinkTag(href) && LinkTag(href)[0] == 'b'
  {
    EscIsInert(href);
    assert '>' !in TYPE_AND_CLASS && '>' !in ACTION && '>' !in ADDRESS && '>' !in "button";
  }

  lemma LinkTagOpens(href: string, stack: seq<string>)
    requires "button" !in stack
    ensures Opens(LinkTag(href), "button", stack)
  {
    var tag, more := LinkTag(href), TYPE_AND_CLASS + ACTION + ADDRESS + Esc(href) + ['"'];
    LinkTagIsWhole(href);
    FindIn("button", ' ', more);
    assert tag == "button" + [' '] + more;
    assert tag[..6] == "button";
  }

  /** The tree's text is balanced wherever it stands, as long as no link stands inside one. */
  lemma {:induction false} TreeIsNested(nodes: seq<Node>, rest: string, stack: seq<string>)
    requires LinksApart(nodes, "button" in stack)
    ensures Nested(ToHtml(nodes) + rest, stack) == Nested(rest, stack)
    decreases nodes, 0
  {
    if nodes == [] {
      assert ToHtml(nodes) + rest == rest;
    } else {
      var more := ToHtml(nodes[1..]) + rest;
      assert ToHtml(nodes) + rest == NodeHtml(nodes[0]) + more;
      TreeIsNested(nodes[1..], rest, stack);
      NodeIsNested(nodes[0], more, stack);
    }
  }

  lemma {:induction false} InsideIsNested(nodes: seq<Node>, stack: seq<string>)
    requires LinksApart(nodes, "button" in stack)
    ensures Whole(ToHtml(nodes), stack)
    decreases nodes, 1
  {
    forall more ensures Nested(ToHtml(nodes) + more, stack) == Nested(more, stack) {
      TreeIsNested(nodes, more, stack);
    }
  }

  lemma TextIsWhole(t: string, stack: seq<string>)
    requires NoAngles(t)
    ensures Whole(t, stack)
  {
    forall more ensures Nested(t + more, stack) == Nested(more, stack) { NestedText(t, more, stack); }
  }

  lemma CodeIsNested(t: string, rest: string, stack: seq<string>)
    ensures Nested(Element("code", Esc(t)) + rest, stack) == Nested(rest, stack)
  {
    EscIsInert(t);
    TextIsWhole(Esc(t), ["code"] + stack);
    PlainTag("code", stack);
    NestedElement("code", "code", Esc(t), rest, stack);
  }

  lemma {:induction false} NodeIsNested(n: Node, rest: string, stack: seq<string>)
    requires LinksApart([n], "button" in stack)
    ensures Nested(NodeHtml(n) + rest, stack) == Nested(rest, stack)
    decreases n, 2
  {
    assert [n][0] == n;
    match n {
      case Text(t) => EscIsInert(t); NestedText(Esc(t), rest, stack);
      case Slip => NestedText(SLIP, rest, stack);
      case Code(t) => CodeIsNested(t, rest, stack);
      case Link(href, words) =>
        InsideIsNested(words, ["button"] + stack);
        LinkTagOpens(href, stack);
        NestedElement(LinkTag(href), "button", ToHtml(words), rest, stack);
      case Strong(inner) =>
        InsideIsNested(inner, ["strong"] + stack);
        PlainTag("strong", stack);
        NestedElement("strong", "strong", ToHtml(inner), rest, stack);
      case Em(inner) =>
        InsideIsNested(inner, ["em"] + stack);
        PlainTag("em", stack);
        NestedElement("em", "em", ToHtml(inner), rest, stack);
    }
  }
}
