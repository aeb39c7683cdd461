/**
 * The link walk of ParseHTML (internal/crawl/crawl.go): a recursive closure that appends to a shared
 * list and stops descending once the list is full, followed by unique.
 */
module LinkWalk {
  import opened Basics

  /** What one element contributes: the URL its first href resolves to, and the text of a title. */
  datatype Item = Item(link: Option<string>, title: Option<string>)

  datatype Node = Node(item: Item, children: seq<Node>)

  // ---- what the walk is meant to compute

  /** The elements of a forest in document order. */
  function Preorder(nodes: seq<Node>): seq<Item>
    decreases nodes
  {
    if nodes == [] then [] else [nodes[0].item] + Preorder(nodes[0].children) + Preorder(nodes[1..])
  }

  function LinkOf(item: Item): seq<string> {
    if item.link.Some? then [item.link.value] else []
  }

  function Links(items: seq<Item>): seq<string> {
    if items == [] then [] else LinkOf(items[0]) + Links(items[1..])
  }

  /** The title in force after reading the items, starting from title. */
  function TitleAfter(title: string, items: seq<Item>): string
    decreases items
  {
    if items == [] then title
    else TitleAfter(if items[0].title.Some? then items[0].title.value else title, items[1..])
  }

  /** It is the last title among the items, or the one before them if they have none. */
  lemma {:induction false} TitleExact(title: string, items: seq<Item>, r: string)
    ensures r == TitleAfter(title, items) <==>
            || ((forall k :: 0 <= k < |items| ==> items[k].title.None?) && r == title)
            || (exists k :: 0 <= k < |items| && items[k].title == Some(r)
                  && forall m :: k < m < |items| ==> items[m].title.None?)
    decreases items
  {
    if items == [] {
    } else {
      var next := if items[0].title.Some? then items[0].title.value else title;
      TitleExact(next, items[1..], r);
      assert items == [items[0]] + items[1..];
      if r == TitleAfter(title, items) {
        if k :| 0 <= k < |items[1..]| && items[1..][k].title == Some(r)
                && forall m :: k < m < |items[1..]| ==> items[1..][m].title.None? {
          assert items[k + 1].title == Some(r);
          assert forall m :: k + 1 < m < |items| ==> items[m] == items[1..][m - 1];
        } else {
          assert forall m :: 1 <= m < |items| ==> items[m] == items[1..][m - 1];
        }
      }
      if k :| 0 <= k < |items| && items[k].title == Some(r) && forall m :: k < m < |items| ==> items[m].title.None? {
        if k > 0 {
          assert items[1..][k - 1].title == Some(r);
        }
      }
    }
  }

  /** The shortest prefix that holds max links, or everything. */
  function Cut(items: seq<Item>, max: nat): seq<Item> {
    if max == 0 || items == [] then []
    else [items[0]] + Cut(items[1..], if items[0].link.Some? then max - 1 else max)
  }

  lemma {:induction false} CutLinks(items: seq<Item>, max: nat)
    ensures Links(Cut(items, max)) == if |Links(items)| <= max then Links(items) else Links(items)[..max]
  {
    if max > 0 && items != [] {
      CutLinks(items[1..], if items[0].link.Some? then max - 1 else max);
      assert ([items[0]] + Cut(items[1..], if items[0].link.Some? then max - 1 else max))[1..]
          == Cut(items[1..], if items[0].link.Some? then max - 1 else max);
    }
  }

  lemma {:induction false} LinksAppend(a: seq<Item>, b: seq<Item>)
    ensures Links(a + b) == Links(a) + Links(b)
  {
    if a == [] {
      assert a + b == b;
    } else {
      assert (a + b)[1..] == a[1..] + b;
      LinksAppend(a[1..], b);
    }
  }

  lemma {:induction false} TitleAppend(title: string, a: seq<Item>, b: seq<Item>)
    ensures TitleAfter(title, a + b) == TitleAfter(TitleAfter(title, a), b)
    decreases a
  {
    if a == [] {
      assert a + b == b;
    } else {
      assert (a + b)[1..] == a[1..] + b;
      TitleAppend(if a[0].title.Some? then a[0].title.value else title, a[1..], b);
    }
  }

  /** Cutting a concatenation: the second part is read only if the first leaves room. */
  lemma {:induction false} CutAppend(a: seq<Item>, b: seq<Item>, max: nat)
    ensures |Links(Cut(a, max))| <= max
    ensures Cut(a + b, max) == Cut(a, max) + Cut(b, max - |Links(Cut(a, max))|)
  {
    if a == [] {
      assert a + b == b;
    } else if max > 0 {
      var rest := if a[0].link.Some? then max - 1 else max;
      assert (a + b)[1..] == a[1..] + b;
      CutAppend(a[1..], b, rest);
      assert Cut(a, max)[1..] == Cut(a[1..], rest);
    }
  }

  // ---- the walk

  class Walker {
    var title: string
    var links: seq<string>
    const max: nat

    constructor (max: nat)
      ensures title == "" && links == [] && this.max == max
    {
      this.max := max;
      title, links := "", [];
    }

    /** Called only while there is room, as for every node below the document node. */
    method Walk(n: Node)
      requires |links| < max
      modifies this
      decreases n
      ensures var read := Cut(Preorder([n]), max - old(|links|));
              links == old(links) + Links(read) && title == TitleAfter(old(title), read)
    {
      ghost var room := max - |links|;
      if n.item.title.Some? {
        title := n.item.title.value;
      }
      if n.item.link.Some? {
        links := links + [n.item.link.value];
      }
      ghost var own := if n.item.link.Some? then room - 1 else room;
      assert links == old(links) + LinkOf(n.item);
      WalkChildren(n.children);
      assert Preorder([n]) == [n.item] + Preorder(n.children) by {
        assert [n][1..] == [];
      }
      assert ([n.item] + Preorder(n.children))[1..] == Preorder(n.children);
      ghost var read := Cut(Preorder(n.children), own);
      assert ([n.item] + read)[1..] == read;
    }

    /** The loop over FirstChild and NextSibling. */
    method WalkChildren(children: seq<Node>)
      requires |links| <= max
      modifies this
      decreases children
      ensures var read := Cut(Preorder(children), max - old(|links|));
              links == old(links) + Links(read) && title == TitleAfter(old(title), read)
      ensures |links| <= max
    {
      var k := 0;
      ghost var room := max - |links|;
      while k < |children| && |links| < max
        invariant 0 <= k <= |children| && old(|links|) <= |links| <= max
        invariant var read := Cut(Preorder(children[..k]), room);
                  links == old(links) + Links(read) && title == TitleAfter(old(title), read)
      {
        OneMoreChild(children, k, room, old(title));
        Walk(children[k]);
        k := k + 1;
      }
      Stopped(children, k, room);
    }
  }

  /** Reading one more child after the first k. */
  lemma OneMoreChild(children: seq<Node>, k: nat, room: nat, title: string)
    requires k < |children|
    ensures var before := Cut(Preorder(children[..k]), room);
            |Links(before)| <= room &&
            var here := Cut(Preorder([children[k]]), room - |Links(before)|);
            var all := Cut(Preorder(children[..k + 1]), room);
            && Links(all) == Links(before) + Links(here)
            && TitleAfter(title, all) == TitleAfter(TitleAfter(title, before), here)
            && |Links(all)| <= room
  {
    var before := Cut(Preorder(children[..k]), room);
    CutAppend(Preorder(children[..k]), Preorder([children[k]]), room);
    var here := Cut(Preorder([children[k]]), room - |Links(before)|);
    PreorderAppend(children[..k], [children[k]]);
    assert children[..k + 1] == children[..k] + [children[k]];
    LinksAppend(before, here);
    TitleAppend(title, before, here);
    CutBounded(Preorder(children[..k + 1]), room);
  }

  /** Once all children are read, or the list is full, the rest adds nothing. */
  lemma Stopped(children: seq<Node>, k: nat, room: nat)
    requires k <= |children|
    requires k == |children| || |Links(Cut(Preorder(children[..k]), room))| == room
    ensures Cut(Preorder(children), room) == Cut(Preorder(children[..k]), room)
  {
    PreorderAppend(children[..k], children[k..]);
    assert children == children[..k] + children[k..];
    CutAppend(Preorder(children[..k]), Preorder(children[k..]), room);
  }

  lemma CutBounded(items: seq<Item>, max: nat)
    ensures |Links(Cut(items, max))| <= max
  {
    CutAppend(items, [], max);
  }

  lemma {:induction false} PreorderAppend(a: seq<Node>, b: seq<Node>)
    ensures Preorder(a + b) == Preorder(a) + Preorder(b)
    decreases |a|
  {
    if a == [] {
      assert a + b == b;
    } else {
      assert (a + b)[1..] == a[1..] + b;
      PreorderAppend(a[1..], b);
    }
  }

  // ---- unique

  /** First occurrences, in order. */
  function Firsts(s: seq<string>): seq<string> {
    if s == [] then []
    else
      var init, last := s[..|s| - 1], s[|s| - 1];
      if last in init then Firsts(init) else Firsts(init) + [last]
  }

  method Unique(input: seq<string>) returns (out: seq<string>)
    ensures out == Firsts(input)
  {
    var seen: set<string> := {};
    out := [];
    var i := 0;
    while i < |input|
      invariant 0 <= i <= |input|
      invariant seen == set v | v in input[..i]
      invariant out == Firsts(input[..i])
    {
      var v := input[i];
      assert input[..i + 1][..i] == input[..i];
      assert forall u :: u in input[..i + 1] <==> u in input[..i] || u == v;
      if v !in seen {
        seen := seen + {v};
        out := out + [v];
      }
      i := i + 1;
    }
    assert input[..i] == input;
  }

  /** Firsts keeps exactly the values, each once, ordered by first occurrence. */
  lemma {:induction false} FirstsMeaning(s: seq<string>)
    ensures forall v :: v in Firsts(s) <==> v in s
    ensures forall i, j :: 0 <= i < j < |Firsts(s)| ==> Firsts(s)[i] != Firsts(s)[j]
    ensures forall i, j :: 0 <= i < j < |Firsts(s)| ==> FirstIndex(s, Firsts(s)[i]) < FirstIndex(s, Firsts(s)[j])
  {
    if s == [] {
    } else {
      var init, last := s[..|s| - 1], s[|s| - 1];
      FirstsMeaning(init);
      assert s == init + [last];
      forall v | v in init ensures FirstIndex(s, v) == FirstIndex(init, v) < |init| {
        FirstIndexPrefix(init, [last], v);
      }
      if last !in init {
        FirstIndexNew(init, last);
      }
    }
  }

  function FirstIndex(s: seq<string>, v: string): nat {
    if s == [] || s[0] == v then 0 else 1 + FirstIndex(s[1..], v)
  }

  lemma {:induction false} FirstIndexPrefix(a: seq<string>, b: seq<string>, v: string)
    requires v in a
    ensures FirstIndex(a + b, v) == FirstIndex(a, v) < |a|
  {
    assert (a + b)[0] == a[0];
    if a[0] != v {
      assert (a + b)[1..] == a[1..] + b;
      FirstIndexPrefix(a[1..], b, v);
    }
  }

  lemma {:induction false} FirstIndexNew(a: seq<string>, v: string)
    requires v !in a
    ensures FirstIndex(a + [v], v) == |a|
  {
    if a == [] {
    } else {
      assert (a + [v])[1..] == a[1..] + [v];
      FirstIndexNew(a[1..], v);
    }
  }

  // ---- ParseHTML

  /** The document node itself has neither href nor title; its children are walked. */
  method ParseHTML(document: seq<Node>, max: nat) returns (title: string, links: seq<string>)
    ensures links == Firsts(FirstLinks(Preorder(document), max))
    ensures title == TitleAfter("", Cut(Preorder(document), max))
    ensures |links| <= max
    ensures forall i, j :: 0 <= i < j < |links| ==> links[i] != links[j]
  {
    var walker := new Walker(max);
    walker.WalkChildren(document);
    assert walker.links == Links(Cut(Preorder(document), max));
    CutLinks(Preorder(document), max);
    title := walker.title;
    links := Unique(walker.links);
    FirstsMeaning(walker.links);
    FirstsShorter(walker.links);
  }

  /** The first max links of a document, in document order. */
  function FirstLinks(items: seq<Item>, max: nat): seq<string> {
    if |Links(items)| <= max then Links(items) else Links(items)[..max]
  }

  lemma {:induction false} FirstsShorter(s: seq<string>)
    ensures |Firsts(s)| <= |s|
  {
    if s == [] {
    } else {
      FirstsShorter(s[..|s| - 1]);
    }
  }
}
