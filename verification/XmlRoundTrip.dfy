/**
  What the library prints, a reader reads back: the same tags, contents and children, whatever the
  indentation (lib/src/xml.cc).
*/
module XmlRoundTrip {
  import opened Wrappers
  import opened Xml
  import opened XmlReader

  predicate IsName(tag: string) {
    tag != "" && IsNameStart(tag[0]) && forall c <- tag :: IsNameChar(c)
  }

  /** Contents that mean themselves: no markup, nothing a reader replaces, and not white space only. */
  predicate IsContent(content: string) {
    && '<' !in content && '\0' !in content && Literal(content)
    && (content == "" || !AllSpace(content))
  }

  /** Names and contents as above, and content on leaves only. */
  predicate Printable(n: Node) {
    && IsName(n.tag) && IsContent(n.content)
    && (n.children != [] ==> n.content == "")
    && forall c <- n.children :: Printable(c)
  }

  /** The node as a reader can know it: without the indentation flags. */
  function Plain(n: Node): Node
    decreases n
  {
    Node(n.tag, n.content, PlainAll(n.children), false)
  }

  function PlainAll(children: seq<Node>): seq<Node>
    decreases children
  {
    if children == [] then [] else [Plain(children[0])] + PlainAll(children[1..])
  }

  /** The document a printed node stands for. */
  function ItemOf(n: Node): Item
    decreases n
  {
    Element(n.tag, if n.children != [] then ItemsOf(n.children) else if n.content == "" then [] else [Text(n.content)])
  }

  function ItemsOf(children: seq<Node>): seq<Item>
    decreases children
  {
    if children == [] then [] else [ItemOf(children[0])] + ItemsOf(children[1..])
  }

  // ----- scanning -----

  lemma {:induction false} NameEnds(name: string, after: string)
    requires forall c <- name :: IsNameChar(c)
    requires after != "" && !IsNameChar(after[0])
    ensures NameLength(name + after) == |name|
  {
    if name == "" {
      assert name + after == after;
    } else {
      assert (name + after)[1..] == name[1..] + after;
      NameEnds(name[1..], after);
    }
  }

  lemma {:induction false} TextEnds(text: string, after: string)
    requires '<' !in text && '\0' !in text && after != "" && after[0] == '<'
    ensures TextLength(text + after) == |text|
  {
    if text == "" {
      assert text + after == after;
    } else {
      assert (text + after)[1..] == text[1..] + after;
      TextEnds(text[1..], after);
    }
  }

  lemma {:induction false} SpaceSkipped(space: string, after: string)
    requires AllSpace(space) && after != "" && !IsSpace(after[0])
    ensures SkipSpace(space + after) == after
  {
    if space == "" {
      assert space + after == after;
    } else {
      assert (space + after)[1..] == space[1..] + after;
      SpaceSkipped(space[1..], after);
    }
  }

  // ----- character data -----

  /** Character data is read as it was written if and only if it is literal. */
  lemma {:induction false} DecodedIffLiteral(raw: string)
    ensures Decoded(raw) == raw <==> Literal(raw)
    decreases |raw|
  {
    hide ReferenceAt;
    if raw != "" && raw[0] != '\r' {
      match ReferenceAt(raw)
      case Some(r) =>
        assert |Decoded(raw)| < |raw|;
      case None =>
        DecodedIffLiteral(raw[1..]);
        assert raw == [raw[0]] + raw[1..];
        assert Decoded(raw) == raw ==> Decoded(raw)[1..] == raw[1..];
    } else if raw != "" {
      assert Decoded(raw)[0] == '\n';
    }
  }

  lemma {:induction false} NoSpecialsIsLiteral(raw: string)
    requires '&' !in raw && '\r' !in raw
    ensures Literal(raw)
  {
    if raw != "" {
      assert raw[0] in raw;
      NoSpecialsIsLiteral(raw[1..]);
    }
  }

  // ----- elements -----

  function Open(tag: string): string {
    "<" + tag + ">"
  }

  function Close(tag: string): string {
    "</" + tag + ">"
  }

  lemma ReadEmpty(tag: string, rest: string)
    requires IsName(tag)
    ensures ReadElement("<" + tag + "/>" + rest) == Some((Element(tag, []), rest))
  {
    var s := "<" + tag + "/>" + rest;
    assert s[1..] == tag + ("/>" + rest);
    NameEnds(tag, "/>" + rest);
    assert s[1..][..|tag|] == tag && s[1..][|tag|..] == "/>" + rest;
    assert ("/>" + rest)[2..] == rest;
  }

  lemma ReadOpened(tag: string, body: string, items: seq<Item>, rest: string)
    requires IsName(tag) && ReadItems(body, tag) == Some((items, rest))
    ensures ReadElement(Open(tag) + body) == Some((Element(tag, items), rest))
  {
    hide ReadItems;
    var s := Open(tag) + body;
    assert s[1..] == tag + (">" + body);
    NameEnds(tag, ">" + body);
    assert s[1..][..|tag|] == tag && s[1..][|tag|..] == ">" + body;
    assert (">" + body)[1..] == body;
  }

  lemma ReadEnd(text: string, tag: string, rest: string)
    requires '<' !in text && '\0' !in text
    ensures ReadItems(text + Close(tag) + rest, tag)
         == Some((if AllSpace(text) then [] else [Text(Decoded(text))], rest))
  {
    hide ReadElement, Decoded;
    var after := Close(tag) + rest;
    assert text + Close(tag) + rest == text + after;
    TextEnds(text, after);
    assert (text + after)[..|text|] == text && (text + after)[|text|..] == after;
    assert after[|Close(tag)|..] == rest;
  }

  /** White space, a child element, and whatever comes after it. */
  lemma ReadChild(space: string, child: string, element: Item, more: string, items: seq<Item>, tag: string,
                  rest: string)
    requires AllSpace(space) && child != "" && child[0] == '<' && !(Close(tag) <= child)
    requires ReadElement(child) == Some((element, more)) && ReadItems(more, tag) == Some((items, rest))
    ensures ReadItems(space + child, tag) == Some(([element] + items, rest))
  {
    hide ReadElement, Decoded;
    assert '<' !in space && '\0' !in space;
    TextEnds(space, child);
    assert (space + child)[..|space|] == space && (space + child)[|space|..] == child;
    assert [] + [element] + items == [element] + items;
  }

  lemma IndentIsSpace(level: nat)
    ensures AllSpace(Indent(level)) && AllSpace("\n" + Indent(level))
  {
  }

  // ----- the text of a node, read back -----

  lemma EmptyText(n: Node, l: nat, rest: string)
    requires n.children == [] && n.content == ""
    ensures PrintAt(n, l) + rest == "<" + n.tag + "/>" + ("\n" + rest)
  {
  }

  lemma LeafText(n: Node, l: nat, rest: string)
    requires n.children == [] && n.content != ""
    ensures PrintAt(n, l) + rest == Open(n.tag) + (n.content + Close(n.tag) + ("\n" + rest))
  {
  }

  lemma ParentText(n: Node, l: nat, rest: string)
    requires n.children != [] && n.content == ""
    ensures PrintAt(n, l) + rest
         == Open(n.tag) + ("\n" + PrintAll(n.children, l + 1) + Indent(l) + Close(n.tag) + ("\n" + rest))
  {
    hide Indent;
  }

  lemma ChildrenText(space: string, children: seq<Node>, level: nat, l: nat, last: string)
    requires children != [] && children[0].tag != "" && l == if children[0].resetIndentation then 0 else level
    ensures space + PrintAll(children, level) + last
         == space + Indent(l) + (PrintAt(children[0], l) + (PrintAll(children[1..], level) + last))
  {
    hide Indent, PrintAt;
    assert PrintAll(children, level) == Indent(l) + PrintAt(children[0], l) + PrintAll(children[1..], level);
  }

  lemma StartsWithTag(n: Node, l: nat, tag: string)
    requires IsName(n.tag)
    ensures PrintAt(n, l) != "" && PrintAt(n, l)[0] == '<' && |PrintAt(n, l)| >= 2 && PrintAt(n, l)[1] != '/'
  {
    assert PrintAt(n, l)[1] == n.tag[0];
  }

  lemma {:induction false} ReadBack(n: Node, l: nat, rest: string)
    requires Printable(n)
    ensures ReadElement(PrintAt(n, l) + rest) == Some((ItemOf(n), "\n" + rest))
    decreases n, 1
  {
    hide ReadElement, ReadItems;
    if n.children != [] {
      ReadBackParent(n, l, rest);
    } else if n.content == "" {
      ReadEmpty(n.tag, "\n" + rest);
      EmptyText(n, l, rest);
    } else {
      hide Decoded, Literal;
      DecodedIffLiteral(n.content);
      ReadEnd(n.content, n.tag, "\n" + rest);
      ReadOpened(n.tag, n.content + Close(n.tag) + ("\n" + rest), [Text(n.content)], "\n" + rest);
      LeafText(n, l, rest);
    }
  }

  lemma {:induction false} ReadBackParent(n: Node, l: nat, rest: string)
    requires Printable(n) && n.children != []
    ensures ReadElement(PrintAt(n, l) + rest) == Some((ItemOf(n), "\n" + rest))
    decreases n, 0
  {
    hide ReadElement, ReadItems, PrintAt, PrintAll, Open, Close;
    IndentIsSpace(l);
    ReadBackAll("\n", n.children, l + 1, Indent(l), n.tag, "\n" + rest);
    var body := "\n" + PrintAll(n.children, l + 1) + Indent(l) + Close(n.tag) + ("\n" + rest);
    ReadOpened(n.tag, body, ItemsOf(n.children), "\n" + rest);
    ParentText(n, l, rest);
  }

  lemma {:induction false} ReadBackAll(space: string, children: seq<Node>, level: nat, last: string, tag: string,
                                       rest: string)
    requires AllSpace(space) && AllSpace(last) && forall c <- children :: Printable(c)
    ensures ReadItems(space + PrintAll(children, level) + last + Close(tag) + rest, tag)
         == Some((ItemsOf(children), rest))
    decreases children
  {
    if children == [] {
      ReadBackNone(space, level, last, tag, rest);
    } else {
      hide ReadElement, ReadItems, PrintAt, PrintAll, Indent, Open, Close;
      var n, l := children[0], if children[0].resetIndentation then 0 else level;
      assert Printable(n);
      ReadBack(n, l, PrintAll(children[1..], level) + last + Close(tag) + rest);
      ReadBackAll("\n", children[1..], level, last, tag, rest);
      ReadBackFirst(space, children, level, l, last, tag, rest);
    }
  }

  lemma ReadBackNone(space: string, level: nat, last: string, tag: string, rest: string)
    requires AllSpace(space) && AllSpace(last)
    ensures ReadItems(space + PrintAll([], level) + last + Close(tag) + rest, tag) == Some(([], rest))
  {
    hide ReadItems;
    assert AllSpace(space + last) && '<' !in space + last && '\0' !in space + last;
    ReadEnd(space + last, tag, rest);
    assert space + PrintAll([], level) + last == space + last;
  }

  lemma ReadBackFirst(space: string, children: seq<Node>, level: nat, l: nat, last: string, tag: string, rest: string)
    requires AllSpace(space) && children != [] && IsName(children[0].tag)
    requires l == if children[0].resetIndentation then 0 else level
    requires ReadElement(PrintAt(children[0], l) + (PrintAll(children[1..], level) + last + Close(tag) + rest))
          == Some((ItemOf(children[0]), "\n" + (PrintAll(children[1..], level) + last + Close(tag) + rest)))
    requires ReadItems("\n" + PrintAll(children[1..], level) + last + Close(tag) + rest, tag)
          == Some((ItemsOf(children[1..]), rest))
    ensures ReadItems(space + PrintAll(children, level) + last + Close(tag) + rest, tag)
         == Some((ItemsOf(children), rest))
  {
    hide ReadElement, ReadItems, PrintAt, PrintAll, Indent, ItemOf;
    var n := children[0];
    var tail := PrintAll(children[1..], level) + last + Close(tag) + rest;
    assert "\n" + tail == "\n" + PrintAll(children[1..], level) + last + Close(tag) + rest;
    IndentIsSpace(l);
    StartsWithTag(n, l, tag);
    assert Close(tag)[1] == '/';
    ReadChild(space + Indent(l), PrintAt(n, l) + tail, ItemOf(n), "\n" + tail, ItemsOf(children[1..]), tag, rest);
    ChildrenText(space, children, level, l, last + Close(tag) + rest);
    assert space + PrintAll(children, level) + last + Close(tag) + rest
        == space + PrintAll(children, level) + (last + Close(tag) + rest);
    assert PrintAll(children[1..], level) + (last + Close(tag) + rest) == tail;
  }

  // ----- and converted into nodes -----

  lemma LeafConverts(content: string)
    ensures Texts([Text(content)], "") == content && Elements([Text(content)]) == []
  {
    assert [Text(content)][1..] == [];
    assert Texts([], content) == content && Elements([]) == [];
  }

  lemma {:induction false} ConvertBack(n: Node)
    requires Printable(n)
    ensures ToNode(ItemOf(n)) == Plain(n)
    decreases n, 1
  {
    if n.children != [] {
      ConvertBackAll(n.children);
    } else if n.content != "" {
      LeafConverts(n.content);
    }
  }

  lemma {:induction false} ConvertBackAll(children: seq<Node>)
    requires forall c <- children :: Printable(c)
    ensures Elements(ItemsOf(children)) == PlainAll(children) && Texts(ItemsOf(children), "") == ""
    decreases children
  {
    if children != [] {
      assert Printable(children[0]);
      ConvertBack(children[0]);
      ConvertBackAll(children[1..]);
      assert ItemsOf(children)[1..] == ItemsOf(children[1..]);
    }
  }

  /**
    Print and read undo each other: for every printable tree, at every indentation and wherever the
    indentation is reset, reading the printed text and converting it gives back the tags, the contents
    and the children.
  */
  lemma PrintReadRoundTrip(n: Node, level: nat)
    requires Printable(n)
    ensures ReadDocument(Print(n, level)) == Some(ItemOf(n)) && ToNode(ItemOf(n)) == Plain(n)
  {
    hide ReadElement, PrintAt, ItemOf;
    var l := if n.resetIndentation then 0 else level;
    ReadBack(n, l, "");
    StartsWithTag(n, l, "");
    assert PrintAt(n, l) + "" == PrintAt(n, l) && "\n" + "" == "\n";
    IndentIsSpace(l);
    SpaceSkipped(Indent(l), PrintAt(n, l));
    ConvertBack(n);
  }

  /** So different trees are printed differently, up to the indentation flags. */
  lemma PrintIsInjective(a: Node, b: Node, level: nat)
    requires Printable(a) && Printable(b) && Print(a, level) == Print(b, level)
    ensures Plain(a) == Plain(b)
  {
    PrintReadRoundTrip(a, level);
    PrintReadRoundTrip(b, level);
  }

  // ----- contents that do not survive -----

  predicate HasMarkup(content: string) {
    '<' in content || '\0' in content
  }

  /** `print` escapes nothing, so markup in the content ends it. */
  lemma {:induction false} FirstMarkup(content: string, after: string)
    requires HasMarkup(content)
    ensures TextLength(content + after) < |content|
  {
    if content[0] != '<' && content[0] != '\0' {
      assert (content + after)[1..] == content[1..] + after;
      FirstMarkup(content[1..], after);
    }
  }

  lemma {:induction false} ElementsOfItems(items: seq<Item>, i: nat)
    requires i < |items| && items[i].Element?
    ensures Elements(items) != []
  {
    if i > 0 {
      ElementsOfItems(items[1..], i - 1);
    }
  }

  /** Reading content that holds markup gives other content, or child elements. */
  lemma MarkupIsLost(content: string, tag: string, after: string, items: seq<Item>, rest: string)
    requires HasMarkup(content) && ReadItems(content + after, tag) == Some((items, rest))
    ensures !(Elements(items) == [] && Texts(items, "") == content)
  {
    hide ReadElement, Decoded;
    FirstMarkup(content, after);
    var s := content + after;
    var t := TextLength(s);
    var texts := if AllSpace(s[..t]) then [] else [Text(Decoded(s[..t]))];
    if items == texts {
      LeafConverts(Decoded(s[..t]));
      assert |Decoded(s[..t])| < |content|;
    } else {
      assert items[|texts|].Element? by {
        var (element, more) := ReadElement(s[t..]).value;
        ReadElementIsElement(s[t..]);
        assert items[|texts|] == element;
      }
      ElementsOfItems(items, |texts|);
    }
  }

  lemma ReadElementIsElement(s: string)
    ensures ReadElement(s).Some? ==> ReadElement(s).value.0.Element?
  {
  }

  /** Whether a reader gets this leaf back. */
  ghost predicate Survives(leaf: Node, level: nat) {
    var document := ReadDocument(Print(leaf, level));
    document.Some? && document.value.Element? && ToNode(document.value) == leaf
  }

  /**
    For every content: a leaf's content survives printing and reading if and only if it holds no markup,
    no carriage return and no reference, and is empty or not made of white space only.
  */
  lemma ContentSurvivesIff(tag: string, content: string, level: nat)
    requires IsName(tag)
    ensures Survives(Node(tag, content, [], false), level) <==> IsContent(content)
  {
    var leaf := Node(tag, content, [], false);
    hide ReadItems, ReadElement, Decoded, Literal, Print;
    if IsContent(content) {
      PrintReadRoundTrip(leaf, level);
      assert PlainAll([]) == [];
    } else {
      NoLiteral();
      LeafDocument(tag, content, level);
      if HasMarkup(content) {
        var after := Close(tag) + "\n";
        var r := ReadItems(content + after, tag);
        if r.Some? {
          MarkupIsLost(content, tag, after, r.value.0, r.value.1);
        }
      } else {
        ReadEnd(content, tag, "\n");
        DecodedIffLiteral(content);
        LeafConverts(Decoded(content));
        assert Texts([], "") == "";
      }
    }
  }

  lemma NoLiteral()
    ensures Literal("")
  {
  }

  /** The document of a printed leaf is what its content and end tag are read as. */
  lemma LeafDocument(tag: string, content: string, level: nat)
    requires IsName(tag) && content != ""
    ensures var r := ReadItems(content + (Close(tag) + "\n"), tag);
            var document := ReadDocument(Print(Node(tag, content, [], false), level));
            && content + (Close(tag) + "\n") == content + Close(tag) + "\n"
            && (document.Some? ==> r.Some? && document.value == Element(tag, r.value.0))
  {
    hide ReadItems;
    var body := content + (Close(tag) + "\n");
    var leaf := Node(tag, content, [], false);
    assert PrintAt(leaf, level) == Open(tag) + body;
    IndentIsSpace(level);
    SpaceSkipped(Indent(level), PrintAt(leaf, level));
    ReadOpenedOnly(tag, body);
  }

  lemma ReadOpenedOnly(tag: string, body: string)
    requires IsName(tag)
    ensures ReadElement(Open(tag) + body).Some? ==>
      ReadItems(body, tag).Some? && ReadElement(Open(tag) + body).value.0 == Element(tag, ReadItems(body, tag).value.0)
  {
    hide ReadItems;
    var s := Open(tag) + body;
    assert s[1..] == tag + (">" + body);
    NameEnds(tag, ">" + body);
    assert s[1..][..|tag|] == tag && s[1..][|tag|..] == ">" + body;
    assert (">" + body)[1..] == body;
  }
}
