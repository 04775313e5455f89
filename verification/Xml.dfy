/**
  The request tree and its text (lib/src/xml.h, lib/src/xml.cc). Nodes are values here: an access like
  `node[tag] = content` becomes a function from the node to the changed node.
*/
module Xml {

  datatype Node = Node(tag: string, content: string, children: seq<Node>, resetIndentation: bool)

  function NewNode(tag: string): Node {
    Node(tag, "", [], false)
  }

  // ----- children by tag -----

  /** The position of the first child with this tag, or the number of children. */
  function FindChild(children: seq<Node>, tag: string): (i: nat)
    ensures i <= |children|
    ensures forall j :: 0 <= j < i ==> children[j].tag != tag
    ensures i < |children| ==> children[i].tag == tag
  {
    if children == [] || children[0].tag == tag then 0 else 1 + FindChild(children[1..], tag)
  }

  /** `n[tag]`, with `value` put in place of the child that is found or created. */
  function WithChild(n: Node, tag: string, value: Node): Node {
    var i := FindChild(n.children, tag);
    n.(children := if i < |n.children| then n.children[i := value] else n.children + [value])
  }

  /** `n[tag]` as it is read: the child that is found, or a new one. */
  function At(n: Node, tag: string): Node {
    var i := FindChild(n.children, tag);
    if i < |n.children| then n.children[i] else NewNode(tag)
  }

  /** `n[tag] = content` */
  function Set(n: Node, tag: string, content: string): Node {
    WithChild(n, tag, At(n, tag).(content := content))
  }

  /** `n.add_child(tag) = content` */
  function AddChild(n: Node, tag: string, content: string): Node {
    n.(children := n.children + [Node(tag, content, [], false)])
  }

  function RemoveTag(children: seq<Node>, tag: string): seq<Node> {
    if children == [] then []
    else (if children[0].tag == tag then [] else [children[0]]) + RemoveTag(children[1..], tag)
  }

  /** A child goes if it has the tag, and the others stay in their order. */
  lemma RemoveOneChild(child: Node, tag: string)
    ensures RemoveTag([child], tag) == if child.tag == tag then [] else [child]
  {
    assert [child][1..] == [];
  }

  lemma {:induction false} RemoveConcat(a: seq<Node>, b: seq<Node>, tag: string)
    ensures RemoveTag(a + b, tag) == RemoveTag(a, tag) + RemoveTag(b, tag)
  {
    if a == [] {
      assert a + b == b;
    } else {
      assert (a + b)[1..] == a[1..] + b;
      RemoveConcat(a[1..], b, tag);
    }
  }

  function RemoveChilds(n: Node, tag: string): Node {
    n.(children := RemoveTag(n.children, tag))
  }

  /** A node that is edited in place; its children are values. */
  class EditableNode {
    const tag: string
    var content: string
    var children: seq<Node>
    var resetIndentation: bool

    constructor (n: Node)
      ensures Value() == n
    {
      tag, content, children, resetIndentation := n.tag, n.content, n.children, n.resetIndentation;
    }

    function Value(): Node
      reads this
    {
      Node(tag, content, children, resetIndentation)
    }

    /** `(*this)[tag]`: the position of the child that is found, or else created. */
    method Index(tag: string) returns (i: nat)
      modifies this`children
      ensures i < |children| && children[i] == At(old(Value()), tag)
      ensures Value() == WithChild(old(Value()), tag, At(old(Value()), tag))
      ensures forall value :: WithChild(old(Value()), tag, value) == old(Value()).(children := children[i := value])
      ensures children[i].tag == tag && forall j :: 0 <= j < i ==> children[j].tag != tag
      ensures children == old(children)
           || (i == |old(children)| && children == old(children) + [Node(tag, "", [], false)])
    {
      i := FindChild(children, tag);
      if i == |children| {
        children := children + [NewNode(tag)];
      }
    }

    /** `(*this)[tag] = content` */
    method SetChild(tag: string, content: string)
      modifies this`children
      ensures Value() == Set(old(Value()), tag, content)
      ensures var i, before := FindChild(old(children), tag), old(children);
              children == if i < |before| then before[i := before[i].(content := content)]
                          else before + [Node(tag, content, [], false)]
    {
      var i := Index(tag);
      children := children[i := children[i].(content := content)];
    }

    method AddChildWith(tag: string, content: string)
      modifies this`children
      ensures Value() == AddChild(old(Value()), tag, content)
      ensures children == old(children) + [Node(tag, content, [], false)]
    {
      children := children + [Node(tag, content, [], false)];
    }

    method RemoveAll(tag: string)
      modifies this`children
      ensures Value() == RemoveChilds(old(Value()), tag)
    {
      var kept: seq<Node> := [];
      for i := 0 to |children|
        invariant children == old(children)
        invariant kept + RemoveTag(children[i..], tag) == RemoveTag(children, tag)
      {
        assert children[i..][1..] == children[i + 1..];
        ghost var rest := RemoveTag(children[i + 1..], tag);
        if children[i].tag != tag {
          assert kept + ([children[i]] + rest) == kept + [children[i]] + rest;
          kept := kept + [children[i]];
        } else {
          assert RemoveTag(children[i..], tag) == rest;
        }
      }
      children := kept;
    }
  }

  // ----- print -----

  function Indent(level: nat): string {
    seq(2 * level, i => ' ')
  }

  function Print(n: Node, level: nat): string
    decreases n, 1
  {
    if n.tag == "" then ""
    else
      var l := if n.resetIndentation then 0 else level;
      Indent(l) + PrintAt(n, l)
  }

  /** The node without its leading indentation. */
  function PrintAt(n: Node, l: nat): string
    decreases n, 0
  {
    if n.children != [] then
      "<" + n.tag + ">" + n.content + "\n" + PrintAll(n.children, l + 1) + Indent(l) + "</" + n.tag + ">\n"
    else if n.content == "" then
      "<" + n.tag + "/>\n"
    else
      "<" + n.tag + ">" + n.content + "</" + n.tag + ">\n"
  }

  function PrintAll(children: seq<Node>, level: nat): string
    decreases children
  {
    if children == [] then "" else Print(children[0], level) + PrintAll(children[1..], level)
  }

  // ----- an example -----

  lemma PrintedParent(n: Node, level: nat)
    requires n.children != [] && n.tag != ""
    ensures var l := if n.resetIndentation then 0 else level;
            Print(n, level) == (Indent(l) + ("<" + n.tag + ">" + n.content + "\n")) + PrintAll(n.children, l + 1)
                               + (Indent(l) + ("</" + n.tag + ">\n"))
  {
    var l := if n.resetIndentation then 0 else level;
    var head, tail := "<" + n.tag + ">" + n.content + "\n", "</" + n.tag + ">\n";
    assert PrintAt(n, l) == head + PrintAll(n.children, l + 1) + (Indent(l) + tail);
  }

  lemma PrintedLeaf(n: Node, level: nat)
    requires n.children == [] && n.tag != ""
    ensures var l := if n.resetIndentation then 0 else level;
            Print(n, level) == Indent(l) + if n.content == "" then "<" + n.tag + "/>\n"
                                           else "<" + n.tag + ">" + n.content + "</" + n.tag + ">\n"
  {
  }

  lemma PrintedThree(a: Node, b: Node, c: Node, level: nat)
    ensures PrintAll([a, b, c], level) == Print(a, level) + Print(b, level) + Print(c, level)
  {
    hide Print;
    assert [c][1..] == [] && [b, c][1..] == [c] && [a, b, c][1..] == [b, c];
    assert PrintAll([], level) == "";
    assert PrintAll([c], level) == Print(c, level) + "" == Print(c, level);
    assert PrintAll([b, c], level) == Print(b, level) + Print(c, level);
  }

  lemma PrintedOne(a: Node, level: nat)
    ensures PrintAll([a], level) == Print(a, level)
  {
    assert [a][1..] == [] && PrintAll([], level) == "";
  }

  lemma Indents()
    ensures Indent(0) == "" && Indent(1) == "  " && Indent(2) == "    "
  {
  }

  /** The text of a tree with every case of the printer in it, line by line. */
  lemma PrintedExample()
    ensures var inner := Node("d", "", [Node("e", "1", [], false)], true);
            Print(Node("a", "note", [Node("b", "x", [], false), Node("c", "", [], false), inner], false), 1)
            == "  <a>note\n" + ("    <b>x</b>\n" + "    <c/>\n" + ("<d>\n" + "  <e>1</e>\n" + "</d>\n")) + "  </a>\n"
  {
    hide Print, PrintAll, Indent;
    var b, c, e := Node("b", "x", [], false), Node("c", "", [], false), Node("e", "1", [], false);
    var d := Node("d", "", [e], true);
    Indents();
    PrintedLeaf(b, 2);
    PrintedLeaf(c, 2);
    PrintedLeaf(e, 1);
    PrintedOne(e, 1);
    PrintedParent(d, 2);
    PrintedThree(b, c, d, 2);
    PrintedParent(Node("a", "note", [b, c, d], false), 1);
    assert Print(b, 2) == "    <b>x</b>\n" && Print(c, 2) == "    <c/>\n" && Print(e, 1) == "  <e>1</e>\n";
    assert "" + ("<" + "d" + ">" + "" + "\n") == "<d>\n" && "" + ("</" + "d" + ">\n") == "</d>\n";
    assert "  " + ("<" + "a" + ">" + "note" + "\n") == "  <a>note\n" && "  " + ("</" + "a" + ">\n") == "  </a>\n";
  }
}
