/** The DOM locator: `findElementsWithDataKey` and `getDataValue` over a parsed
    HTML tree. The parser's FirstChild/NextSibling chain is a `children` sequence. */
module Dom {

  /** The node types of the HTML parser. */
  datatype NodeType = ErrorNode | TextNode | DocumentNode | ElementNode | CommentNode | DoctypeNode | RawNode

  datatype Attribute = Attribute(key: string, val: string)

  /** A parsed node: for an element, `data` is its tag name; for text and comments, its text. */
  datatype Node = Node(kind: NodeType, data: string, attrs: seq<Attribute>, children: seq<Node>)

  /** Number of attributes of `attrs` whose key is `key`. */
  function KeyCount(attrs: seq<Attribute>, key: string): nat
  {
    if attrs == [] then 0
    else KeyCount(attrs[..|attrs| - 1], key) + (if attrs[|attrs| - 1].key == key then 1 else 0)
  }

  /** `k` copies of `n`. */
  function Repeat(n: Node, k: nat): seq<Node>
  {
    seq(k, _ => n)
  }

  /** What node `n` contributes by itself: if it is an element, one copy of it per
      attribute whose key is `key`. */
  function SelfMatches(n: Node, key: string): seq<Node>
  {
    if n.kind == ElementNode then Repeat(n, KeyCount(n.attrs, key)) else []
  }

  /** The result of `findElementsWithDataKey(n, key)`: the node's own matches,
      then those of each child subtree, left to right. */
  function Find(n: Node, key: string): seq<Node>
    decreases n, |n.children| + 1
  {
    SelfMatches(n, key) + FindFrom(n, key, 0)
  }

  /** The matches in the subtrees of the children of `n` from index `i` on. */
  function FindFrom(n: Node, key: string, i: nat): seq<Node>
    requires i <= |n.children|
    decreases n, |n.children| - i
  {
    if i == |n.children| then []
    else Find(n.children[i], key) + FindFrom(n, key, i + 1)
  }

  /** `findElementsWithDataKey`: appends the node once per matching attribute,
      then appends the results of the children in sibling order. */
  method FindElementsWithDataKey(n: Node, key: string) returns (results: seq<Node>)
    ensures results == Find(n, key)
    decreases n
  {
    results := [];
    if n.kind == ElementNode {
      for i := 0 to |n.attrs|
        invariant results == Repeat(n, KeyCount(n.attrs[..i], key))
      {
        assert n.attrs[..i + 1][..i] == n.attrs[..i];
        if n.attrs[i].key == key {
          results := results + [n];
        }
      }
      assert n.attrs[..|n.attrs|] == n.attrs;
    }
    assert results == SelfMatches(n, key);
    var c := 0;
    while c < |n.children|
      invariant c <= |n.children|
      invariant results + FindFrom(n, key, c) == Find(n, key)
    {
      var sub := FindElementsWithDataKey(n.children[c], key);
      results := results + sub;
      c := c + 1;
    }
  }

  /** `attrs[i]` is the first attribute whose key is `key`. */
  predicate FirstKeyAt(attrs: seq<Attribute>, key: string, i: int)
  {
    0 <= i < |attrs| && attrs[i].key == key && forall j :: 0 <= j < i ==> attrs[j].key != key
  }

  /** The value of the first attribute of `attrs` whose key is `key`, or "" when
      there is none; specifies `GetDataValue`. */
  function DataValue(attrs: seq<Attribute>, key: string): (r: string)
    ensures (forall i :: 0 <= i < |attrs| ==> attrs[i].key != key) ==> r == ""
    ensures forall i :: FirstKeyAt(attrs, key, i) ==> r == attrs[i].val
  {
    if attrs == [] then ""
    else if attrs[0].key == key then attrs[0].val
    else DataValue(attrs[1..], key)
  }

  /** `getDataValue`: scans the attributes and returns at the first match. */
  method GetDataValue(n: Node, key: string) returns (v: string)
    ensures v == DataValue(n.attrs, key)
  {
    for i := 0 to |n.attrs|
      invariant DataValue(n.attrs[i..], key) == DataValue(n.attrs, key)
    {
      assert n.attrs[i..][1..] == n.attrs[i + 1..];
      if n.attrs[i].key == key {
        return n.attrs[i].val;
      }
    }
    return "";
  }

  /** Reference enumeration: every node of the tree in pre-order, a node before
      its descendants and siblings left to right. */
  function Preorder(n: Node): (r: seq<Node>)
    ensures |r| > 0 && r[0] == n
    decreases n, |n.children| + 1
  {
    [n] + PreorderFrom(n, 0)
  }

  function PreorderFrom(n: Node, i: nat): seq<Node>
    requires i <= |n.children|
    decreases n, |n.children| - i
  {
    if i == |n.children| then []
    else Preorder(n.children[i]) + PreorderFrom(n, i + 1)
  }

  /** Concatenation of the own matches of each node of `ms`. */
  function Expand(ms: seq<Node>, key: string): seq<Node>
  {
    if ms == [] then [] else SelfMatches(ms[0], key) + Expand(ms[1..], key)
  }

  lemma {:induction false} ExpandAppend(a: seq<Node>, b: seq<Node>, key: string)
    ensures Expand(a + b, key) == Expand(a, key) + Expand(b, key)
  {
    if a == [] {
      assert a + b == b;
    } else {
      assert (a + b)[1..] == a[1..] + b;
      ExpandAppend(a[1..], b, key);
    }
  }

  /** The locator yields exactly the own matches of the nodes in pre-order. */
  lemma {:induction false} FindIsPreorderFilter(n: Node, key: string)
    ensures Find(n, key) == Expand(Preorder(n), key)
    decreases n, |n.children| + 1
  {
    FindFromIsPreorderFilter(n, key, 0);
    ExpandAppend([n], PreorderFrom(n, 0), key);
    assert Expand([n], key) == SelfMatches(n, key);
  }

  lemma {:induction false} FindFromIsPreorderFilter(n: Node, key: string, i: nat)
    requires i <= |n.children|
    ensures FindFrom(n, key, i) == Expand(PreorderFrom(n, i), key)
    decreases n, |n.children| - i
  {
    if i < |n.children| {
      FindIsPreorderFilter(n.children[i], key);
      FindFromIsPreorderFilter(n, key, i + 1);
      ExpandAppend(Preorder(n.children[i]), PreorderFrom(n, i + 1), key);
    }
  }

  /** A node matches when it is an element carrying an attribute named `key`. */
  predicate Matches(m: Node, key: string)
  {
    m.kind == ElementNode && exists i :: 0 <= i < |m.attrs| && m.attrs[i].key == key
  }

  lemma {:induction false} KeyCountPositive(attrs: seq<Attribute>, key: string)
    ensures KeyCount(attrs, key) > 0 <==> exists i :: 0 <= i < |attrs| && attrs[i].key == key
  {
    if attrs != [] {
      var init := attrs[..|attrs| - 1];
      KeyCountPositive(init, key);
      if exists i :: 0 <= i < |init| && init[i].key == key {
        var i :| 0 <= i < |init| && init[i].key == key;
        assert attrs[i].key == key;
      }
    }
  }

  /** Every node of the result is a matching element. */
  lemma {:induction false} ExpandOnlyMatches(ms: seq<Node>, key: string)
    ensures forall i :: 0 <= i < |Expand(ms, key)| ==> Matches(Expand(ms, key)[i], key)
  {
    if ms != [] {
      ExpandOnlyMatches(ms[1..], key);
      KeyCountPositive(ms[0].attrs, key);
    }
  }

  /** The result is empty exactly when no node of `ms` matches. */
  lemma {:induction false} ExpandEmpty(ms: seq<Node>, key: string)
    ensures Expand(ms, key) == [] <==> forall i :: 0 <= i < |ms| ==> !Matches(ms[i], key)
  {
    if ms != [] {
      ExpandEmpty(ms[1..], key);
      KeyCountPositive(ms[0].attrs, key);
      assert forall i :: 1 <= i < |ms| ==> ms[i] == ms[1..][i - 1];
    }
  }

  /** `ms[j]` is the first node of `ms` that matches. */
  predicate FirstMatchAt(ms: seq<Node>, key: string, j: int)
  {
    0 <= j < |ms| && Matches(ms[j], key) && forall l :: 0 <= l < j ==> !Matches(ms[l], key)
  }

  /** The first node of the result is the first matching node of `ms`. */
  lemma {:induction false} ExpandFirst(ms: seq<Node>, key: string)
    requires Expand(ms, key) != []
    ensures exists j :: FirstMatchAt(ms, key, j) && Expand(ms, key)[0] == ms[j]
  {
    KeyCountPositive(ms[0].attrs, key);
    if Matches(ms[0], key) {
      assert FirstMatchAt(ms, key, 0);
    } else {
      var rest := ms[1..];
      assert Expand(ms, key) == Expand(rest, key);
      ExpandFirst(rest, key);
      var j :| FirstMatchAt(rest, key, j) && Expand(rest, key)[0] == rest[j];
      assert forall l :: 1 <= l < j + 1 ==> ms[l] == rest[l - 1];
      assert FirstMatchAt(ms, key, j + 1);
    }
  }

  /** Only matching elements appear in the result, each node of the tree contributes
      one copy per matching attribute in pre-order, and the result is empty exactly
      when no node of the tree matches. */
  lemma FindSpec(n: Node, key: string)
    ensures Find(n, key) == Expand(Preorder(n), key)
    ensures forall i :: 0 <= i < |Find(n, key)| ==> Matches(Find(n, key)[i], key)
    ensures Find(n, key) == [] <==> forall m :: m in Preorder(n) ==> !Matches(m, key)
  {
    FindIsPreorderFilter(n, key);
    ExpandOnlyMatches(Preorder(n), key);
    ExpandEmpty(Preorder(n), key);
  }

  /** When something matches, the first node of the result is the first matching
      node of the tree in pre-order. */
  lemma FindFirstInPreorder(n: Node, key: string)
    requires Find(n, key) != []
    ensures exists j :: FirstMatchAt(Preorder(n), key, j) && Find(n, key)[0] == Preorder(n)[j]
  {
    FindIsPreorderFilter(n, key);
    ExpandFirst(Preorder(n), key);
  }

  /** A matching node comes first in its own result, once per matching attribute. */
  lemma FindStartsWithSelf(n: Node, key: string)
    ensures Find(n, key)[..|SelfMatches(n, key)|] == SelfMatches(n, key)
    ensures n.kind == ElementNode ==> |SelfMatches(n, key)| == KeyCount(n.attrs, key)
    ensures Matches(n, key) ==> |Find(n, key)| > 0 && Find(n, key)[0] == n
  {
    KeyCountPositive(n.attrs, key);
  }
}
