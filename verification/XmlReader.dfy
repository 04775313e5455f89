/**
  A reader for the XML subset that requests are printed in (character data, element start and end tags
  and empty-element tags, sections 2.4 and 3.1 of XML 1.0), and the conversion of what it read into nodes
  (`parse_node` in lib/src/xml.cc).

  It drops character data that is white space only. In other character data it normalizes line ends and
  replaces references (sections 2.11, 4.1 and 4.6); what looks like a reference but is none is kept. The
  characters stand for bytes.
*/
module XmlReader {
  import opened Wrappers
  import opened Xml

  datatype Item = Text(text: string) | Element(name: string, items: seq<Item>)

  predicate IsNameStart(c: char) {
    'a' <= c <= 'z' || 'A' <= c <= 'Z' || c == '_' || c == ':'
  }

  predicate IsNameChar(c: char) {
    IsNameStart(c) || '0' <= c <= '9' || c == '-' || c == '.'
  }

  predicate IsSpace(c: char) {
    c == ' ' || c == '\n' || c == '\t' || c == '\r'
  }

  predicate AllSpace(s: string) {
    forall c <- s :: IsSpace(c)
  }

  function NameLength(s: string): (k: nat)
    ensures k <= |s|
  {
    if s != "" && IsNameChar(s[0]) then 1 + NameLength(s[1..]) else 0
  }

  /** Character data ends at markup, or where the text itself ends, at a zero byte. */
  function TextLength(s: string): (k: nat)
    ensures k <= |s|
  {
    if s != "" && s[0] != '<' && s[0] != '\0' then 1 + TextLength(s[1..]) else 0
  }

  function SkipSpace(s: string): (r: string)
    ensures |r| <= |s|
  {
    if s != "" && IsSpace(s[0]) then SkipSpace(s[1..]) else s
  }

  // ----- character data -----

  predicate IsDigitOf(c: char, base: int) {
    '0' <= c <= '9' || (base == 16 && ('a' <= c <= 'f' || 'A' <= c <= 'F'))
  }

  function ValueOf(c: char): int {
    if c <= '9' then c as int - '0' as int
    else if c <= 'F' then c as int - 'A' as int + 10
    else c as int - 'a' as int + 10
  }

  function NumberLength(s: string, base: int): (k: nat)
    ensures k <= |s| && forall i :: 0 <= i < k ==> IsDigitOf(s[i], base)
  {
    if s != "" && IsDigitOf(s[0], base) then 1 + NumberLength(s[1..], base) else 0
  }

  function NumberOf(digits: string, base: int): int {
    if digits == "" then 0 else base * NumberOf(digits[..|digits| - 1], base) + ValueOf(digits[|digits| - 1])
  }

  /** The bytes of a character in UTF-8. */
  function Utf8(code: int): (bytes: string)
    requires 0 <= code
    ensures 1 <= |bytes| <= 4 && (code < 0x80 ==> |bytes| == 1)
  {
    if code < 0x80 then [code as char]
    else if code < 0x800 then [(0xC0 + code / 0x40) as char, Continuation(code)]
    else if code < 0x10000 then [(0xE0 + code / 0x1000) as char, Continuation(code / 0x40), Continuation(code)]
    else
      [(0xF0 + code / 0x40000 % 0x10) as char, Continuation(code / 0x1000), Continuation(code / 0x40),
       Continuation(code)]
  }

  function Continuation(code: int): char {
    (0x80 + code % 0x40) as char
  }

  datatype Reference = Reference(replacement: string, length: nat)

  /** A number between a prefix and a semicolon; it is kept in 32 bits. */
  function NumericReference(s: string, prefix: nat, base: int): (r: Option<Reference>)
    requires 2 <= prefix <= |s| && (base == 10 || (base == 16 && prefix == 3))
    ensures r.Some? ==> 0 < |r.value.replacement| < r.value.length <= |s|
  {
    var k := NumberLength(s[prefix..], base);
    var digits := s[prefix..][..k];
    if k == 0 || prefix + k == |s| || s[prefix + k] != ';' then None
    else
      var code := NumberOf(digits, base) % 0x1_0000_0000;
      assert k == 1 && base == 10 ==> NumberOf(digits, base) == ValueOf(digits[0]) by {
        if k == 1 { assert digits[..0] == ""; }
      }
      Some(Reference(Utf8(code), prefix + k + 1))
  }

  /** The reference that the text begins with, if it begins with one. */
  function ReferenceAt(s: string): (r: Option<Reference>)
    ensures r.Some? ==> 0 < |r.value.replacement| < r.value.length <= |s|
  {
    if "&lt;" <= s then Some(Reference("<", 4))
    else if "&gt;" <= s then Some(Reference(">", 4))
    else if "&amp;" <= s then Some(Reference("&", 5))
    else if "&quot;" <= s then Some(Reference("\"", 6))
    else if "&apos;" <= s then Some(Reference("'", 6))
    else if "&#x" <= s then NumericReference(s, 3, 16)
    else if "&#" <= s then NumericReference(s, 2, 10)
    else None
  }

  /** Character data as an application gets it. */
  function Decoded(raw: string): (text: string)
    ensures |text| <= |raw|
    decreases |raw|
  {
    if raw == "" then ""
    else if raw[0] == '\r' then
      "\n" + Decoded(if |raw| > 1 && raw[1] == '\n' then raw[2..] else raw[1..])
    else
      match ReferenceAt(raw)
      case Some(r) => r.replacement + Decoded(raw[r.length..])
      case None => [raw[0]] + Decoded(raw[1..])
  }

  /** No carriage return, and no place where a reference begins. */
  predicate Literal(raw: string) {
    raw == "" || (raw[0] != '\r' && ReferenceAt(raw).None? && Literal(raw[1..]))
  }

  // ----- reading -----

  function ReadElement(s: string): (r: Option<(Item, string)>)
    ensures r.Some? ==> |r.value.1| < |s|
    decreases |s|, 0
  {
    if s == "" || s[0] != '<' then None
    else
      var k := NameLength(s[1..]);
      var name, after := s[1..][..k], s[1..][k..];
      if k == 0 || !IsNameStart(name[0]) then None
      else if "/>" <= after then Some((Element(name, []), after[2..]))
      else if ">" <= after then
        match ReadItems(after[1..], name)
        case Some((items, rest)) => Some((Element(name, items), rest))
        case None => None
      else None
  }

  /** The items up to the end tag of the element, and what follows that tag. */
  function ReadItems(s: string, name: string): (r: Option<(seq<Item>, string)>)
    ensures r.Some? ==> |r.value.1| <= |s|
    decreases |s|, 1
  {
    var t := TextLength(s);
    var after := s[t..];
    var texts := if AllSpace(s[..t]) then [] else [Text(Decoded(s[..t]))];
    var end := "</" + name + ">";
    if end <= after then Some((texts, after[|end|..]))
    else
      match ReadElement(after)
      case None => None
      case Some((element, rest)) =>
        match ReadItems(rest, name)
        case None => None
        case Some((items, rest')) => Some((texts + [element] + items, rest'))
  }

  /** A document: one element, with white space around it. */
  function ReadDocument(s: string): Option<Item> {
    match ReadElement(SkipSpace(s))
    case Some((element, rest)) => if AllSpace(rest) then Some(element) else None
    case None => None
  }

  // ----- parse_node -----

  function Texts(items: seq<Item>, content: string): string {
    if items == [] then content
    else Texts(items[1..], if items[0].Text? then items[0].text else content)
  }

  function Elements(items: seq<Item>): seq<Node>
    decreases items
  {
    if items == [] then []
    else (if items[0].Element? then [ToNode(items[0])] else []) + Elements(items[1..])
  }

  /** Child elements become children in order; the content is the last piece of character data. */
  function ToNode(item: Item): Node
    requires item.Element?
    decreases item
  {
    Node(item.name, Texts(item.items, ""), Elements(item.items), false)
  }

  /** The loop of `parse_node`: it appends to the node it is given and overwrites its content. */
  method ParseNode(item: Item, into: Node) returns (node: Node)
    requires item.Element?
    ensures node == into.(content := Texts(item.items, into.content), children := into.children + Elements(item.items))
    decreases item
  {
    node := into;
    var items := item.items;
    for i := 0 to |items|
      invariant node == into.(content := node.content, children := node.children)
      invariant Texts(items[i..], node.content) == Texts(items, into.content)
      invariant node.children + Elements(items[i..]) == into.children + Elements(items)
    {
      assert items[i..][0] == items[i] && items[i..][1..] == items[i + 1..];
      ghost var before := node.children;
      if items[i].Element? {
        assert items[i] in items;
        var child := ParseNode(items[i], NewNode(items[i].name));
        assert child == ToNode(items[i]);
        node := node.(children := node.children + [child]);
        assert node.children + Elements(items[i + 1..]) == before + ([child] + Elements(items[i + 1..]));
      } else {
        node := node.(content := items[i].text);
        assert before + Elements(items[i..]) == before + Elements(items[i + 1..]);
      }
    }
  }

  // ----- what a node gets from its items -----

  /** The content is the last piece of character data, or the one from before if there is none. */
  lemma {:induction false} LastTextCounts(items: seq<Item>, last: Item, content: string)
    ensures Texts([], content) == content
    ensures Texts(items + [last], content) == if last.Text? then last.text else Texts(items, content)
  {
    if items == [] {
      assert items + [last] == [last] && [last][1..] == [];
    } else {
      assert (items + [last])[1..] == items[1..] + [last];
      LastTextCounts(items[1..], last, if items[0].Text? then items[0].text else content);
    }
  }

  /** The children are the elements, in order. */
  lemma {:induction false} ElementsConcat(a: seq<Item>, b: seq<Item>)
    ensures Elements(a + b) == Elements(a) + Elements(b)
  {
    hide ToNode;
    if a == [] {
      assert a + b == b;
    } else {
      var first := if a[0].Element? then [ToNode(a[0])] else [];
      assert (a + b)[1..] == a[1..] + b;
      ElementsConcat(a[1..], b);
      assert Elements(a) == first + Elements(a[1..]);
      assert Elements(a + b) == first + Elements(a[1..] + b);
    }
  }

  lemma OneElement(item: Item)
    ensures Elements([item])
         == if item.Text? then [] else [Node(item.name, Texts(item.items, ""), Elements(item.items), false)]
  {
    assert [item][1..] == [];
  }

  /** What the five entities and the line ends are read as. */
  lemma Replacements(rest: string)
    ensures Decoded("&lt;" + rest) == "<" + Decoded(rest) && Decoded("&gt;" + rest) == ">" + Decoded(rest)
    ensures Decoded("&amp;" + rest) == "&" + Decoded(rest)
    ensures Decoded("&quot;" + rest) == "\"" + Decoded(rest) && Decoded("&apos;" + rest) == "'" + Decoded(rest)
    ensures Decoded("\r\n" + rest) == "\n" + Decoded(rest)
    ensures rest == "" || rest[0] != '\n' ==> Decoded("\r" + rest) == "\n" + Decoded(rest)
  {
    Replaced("&lt;", "<", rest);
    Replaced("&gt;", ">", rest);
    Replaced("&amp;", "&", rest);
    Replaced("&quot;", "\"", rest);
    Replaced("&apos;", "'", rest);
    assert ("\r\n" + rest)[2..] == rest && ("\r" + rest)[1..] == rest;
    hide ReferenceAt;
  }

  lemma Replaced(reference: string, meaning: string, rest: string)
    requires (reference, meaning) in {("&lt;", "<"), ("&gt;", ">"), ("&amp;", "&"), ("&quot;", "\""), ("&apos;", "'")}
    ensures Decoded(reference + rest) == meaning + Decoded(rest)
  {
    var s := reference + rest;
    assert s[1] == reference[1] && s[2] == reference[2];
    assert ReferenceAt(s) == Some(Reference(meaning, |reference|));
    assert s[|reference|..] == rest;
  }
}
