/** Link selection on the storefront listing: the scan in `downloadAlbums` that
    picks, for every `data-item-id` element, the path of its first usable anchor. */
module Storefront {
  import opened Common
  import opened Dom

  const ItemKey: string := "data-item-id"
  const HrefKey: string := "href"
  const AlbumPrefix: string := "/album"

  /** A child the scan looks at: any node that is not a text node and whose data
      is `a` (for an element, its tag name). */
  predicate IsAnchor(c: Node)
  {
    c.kind != TextNode && c.data == "a"
  }

  /** The anchor `cs[i]` gives a non-empty path through its first `href`. */
  predicate LinkAt(cs: seq<Node>, i: int)
  {
    0 <= i < |cs| && IsAnchor(cs[i]) && DataValue(cs[i].attrs, HrefKey) != ""
  }

  /** The path the scan of the children `cs` selects: the value of the first `href`
      of the first anchor whose first `href` is non-empty; "" when there is none.
      (An anchor whose first `href` is empty does not stop the scan.) */
  function SelectedHref(cs: seq<Node>): (r: string)
    ensures r == "" <==> forall i :: 0 <= i < |cs| ==> !LinkAt(cs, i)
    ensures r != "" ==> exists i :: LinkAt(cs, i) && r == DataValue(cs[i].attrs, HrefKey) &&
                                    forall j :: 0 <= j < i ==> !LinkAt(cs, j)
  {
    if cs == [] then ""
    else if LinkAt(cs, 0) then DataValue(cs[0].attrs, HrefKey)
    else
      var r := SelectedHref(cs[1..]);
      assert forall i :: 1 <= i < |cs| ==> (LinkAt(cs, i) <==> LinkAt(cs[1..], i - 1));
      if r != "" then
        var k :| LinkAt(cs[1..], k) && r == DataValue(cs[1..][k].attrs, HrefKey) &&
                 forall j :: 0 <= j < k ==> !LinkAt(cs[1..], j);
        assert LinkAt(cs, k + 1);
        r
      else r
  }

  /** The inner scan of `downloadAlbums` for one element: the path is reset, the
      children are visited in order, text nodes and non-`a` nodes are skipped, the
      first `href` of an anchor is taken, and the scan stops at the first non-empty
      path. */
  method FirstAnchorHref(el: Node) returns (path: string)
    ensures path == SelectedHref(el.children)
  {
    path := "";
    var c := 0;
    while c < |el.children|
      invariant c <= |el.children|
      invariant path == ""
      invariant SelectedHref(el.children[c..]) == SelectedHref(el.children)
    {
      var ch := el.children[c];
      assert el.children[c..][1..] == el.children[c + 1..];
      if ch.kind == TextNode || ch.data != "a" {
        c := c + 1;
        continue;
      }
      var k := 0;
      while k < |ch.attrs|
        invariant k <= |ch.attrs|
        invariant path == ""
        invariant DataValue(ch.attrs[k..], HrefKey) == DataValue(ch.attrs, HrefKey)
      {
        assert ch.attrs[k..][1..] == ch.attrs[k + 1..];
        if ch.attrs[k].key == HrefKey {
          path := ch.attrs[k].val;
          break;
        }
        k := k + 1;
      }
      assert path == DataValue(ch.attrs, HrefKey);
      if path != "" {
        break;
      }
      c := c + 1;
    }
  }

  /** The path the scan selects for every element of `els`, in order. */
  function SelectedPaths(els: seq<Node>): seq<string>
  {
    seq(|els|, i requires 0 <= i < |els| => SelectedHref(els[i].children))
  }

  /** The paths of `ps` that start with `/album`, in order. */
  function KeepAlbums(ps: seq<string>): seq<string>
  {
    if ps == [] then []
    else if HasPrefix(ps[|ps| - 1], AlbumPrefix) then KeepAlbums(ps[..|ps| - 1]) + [ps[|ps| - 1]]
    else KeepAlbums(ps[..|ps| - 1])
  }

  /** Exactly the paths that start with `/album` are kept. */
  lemma {:induction false} KeepAlbumsSpec(ps: seq<string>)
    ensures |KeepAlbums(ps)| <= |ps|
    ensures forall p :: p in KeepAlbums(ps) <==> p in ps && HasPrefix(p, AlbumPrefix)
  {
    if ps != [] {
      var init := ps[..|ps| - 1];
      KeepAlbumsSpec(init);
      assert ps == init + [ps[|ps| - 1]];
    }
  }

  /** Filtering distributes over concatenation: the kept paths of a listing are
      the kept paths of its parts, in the same order, so the order of the listing
      is kept and a path listed twice is kept twice. */
  lemma {:induction false} KeepAlbumsAppend(a: seq<string>, b: seq<string>)
    ensures KeepAlbums(a + b) == KeepAlbums(a) + KeepAlbums(b)
  {
    if b == [] {
      assert a + b == a;
    } else {
      var b' := b[..|b| - 1];
      assert (a + b)[..|a + b| - 1] == a + b';
      assert (a + b)[|a + b| - 1] == b[|b| - 1];
      KeepAlbumsAppend(a, b');
    }
  }

  /** A single path is kept exactly when it starts with `/album`. */
  lemma KeepAlbumsSingle(p: string)
    ensures KeepAlbums([p]) == if HasPrefix(p, AlbumPrefix) then [p] else []
  {
    assert [p][..0] == [];
  }

  /** The paths of the `data-item-id` elements `els` that are downloaded, in order. */
  function AlbumPaths(els: seq<Node>): seq<string>
  {
    KeepAlbums(SelectedPaths(els))
  }

  /** The listing's album paths: those selected from the `data-item-id` elements
      of the page, in document order. */
  function ListingPaths(doc: Node): seq<string>
  {
    AlbumPaths(Find(doc, ItemKey))
  }

  /** An element without a usable anchor selects nothing, and so contributes no
      album. */
  lemma NoLinkNoAlbum(el: Node)
    requires forall i :: 0 <= i < |el.children| ==> !LinkAt(el.children, i)
    ensures SelectedHref(el.children) == ""
    ensures AlbumPaths([el]) == []
  {
    assert SelectedPaths([el]) == [""];
    assert !HasPrefix("", AlbumPrefix);
    assert [""][..0] == [];
  }
}
