/** How the tree of elements is rebuilt, after loading, from the flat indices of their children. */
module ElementTree {
  import opened Arithmetic
  import opened Wrappers
  import opened DatacenterFormat

  const MODULUS := 0x1_0000

  /** An element that was loaded; its last three fields are filled in afterwards. */
  class Node {
    const data: Element
    var parent: Node?
    var cachedChildren: seq<Node>
    var cachedAttributes: seq<Indices>

    constructor (data: Element)
      ensures this.data == data && FieldsOf(this) == Fields(null, [], [])
    {
      this.data, parent, cachedChildren, cachedAttributes := data, null, [], [];
    }
  }

  datatype Fields = Fields(parent: Node?, children: seq<Node>, attributes: seq<Indices>)

  function FieldsOf(n: Node): Fields
    reads n
  {
    Fields(n.parent, n.cachedChildren, n.cachedAttributes)
  }

  /** The shape that the indices encode. An element that several others declare as their child occurs
      several times. */
  datatype Tree = Tree(at: Node, kids: seq<Tree>)

  /** The location that is `i` behind another; the position is cut to 16 bits. */
  function Behind(start: Indices, i: nat): Indices {
    Indices(start.first, (start.second + i) % MODULUS)
  }

  function Slice(start: Indices, n: nat): seq<Indices> {
    seq(n, i requires 0 <= i => Behind(start, i))
  }

  function Attributes(n: Node): seq<Indices> {
    Slice(n.data.attributeIndices, n.data.attributesCount)
  }

  /** The elements in the order in which they are visited, each with the parent that it gets. */
  function Visits(t: Tree, p: Node?): seq<(Node, Node?)>
    decreases t, 1
  {
    [(t.at, p)] + KidVisits(t.kids, t.at)
  }

  function KidVisits(ts: seq<Tree>, p: Node): seq<(Node, Node?)>
    decreases ts, 0
  {
    if ts == [] then [] else KidVisits(ts[..|ts| - 1], p) + Visits(ts[|ts| - 1], p)
  }

  function Elements(visits: seq<(Node, Node?)>): seq<Node> {
    seq(|visits|, i requires 0 <= i < |visits| => visits[i].0)
  }

  function Preorder(t: Tree): seq<Node> {
    Elements(Visits(t, null))
  }

  ghost function Nodes(t: Tree): set<Node>
    decreases t, 1
  {
    {t.at} + NodesOf(t.kids)
  }

  ghost function NodesOf(ts: seq<Tree>): set<Node>
    decreases ts, 0
  {
    if ts == [] then {} else NodesOf(ts[..|ts| - 1]) + Nodes(ts[|ts| - 1])
  }

  function Ref(n: Node?): set<Node> {
    if n == null then {} else {n}
  }

  function Size(t: Tree): nat
    decreases t, 1
  {
    1 + Sizes(t.kids)
  }

  function Sizes(ts: seq<Tree>): nat
    decreases ts, 0
  {
    if ts == [] then 0 else Sizes(ts[..|ts| - 1]) + Size(ts[|ts| - 1])
  }

  // ---- nodes and visits of a tree

  lemma {:induction false} KidWith(ts: seq<Tree>, n: Node) returns (i: nat)
    requires n in NodesOf(ts)
    ensures i < |ts| && n in Nodes(ts[i])
  {
    hide Nodes;
    if n in Nodes(ts[|ts| - 1]) {
      i := |ts| - 1;
    } else {
      i := KidWith(ts[..|ts| - 1], n);
    }
  }

  lemma {:induction false} KidInside(ts: seq<Tree>, i: nat)
    requires i < |ts|
    ensures Nodes(ts[i]) <= NodesOf(ts) && Size(ts[i]) <= Sizes(ts)
  {
    hide Nodes, Size;
    if i < |ts| - 1 {
      KidInside(ts[..|ts| - 1], i);
    }
  }

  lemma OneMoreKid(ts: seq<Tree>, i: nat, p: Node)
    requires i < |ts|
    ensures KidVisits(ts[..i + 1], p) == KidVisits(ts[..i], p) + Visits(ts[i], p)
    ensures NodesOf(ts[..i + 1]) == NodesOf(ts[..i]) + Nodes(ts[i])
  {
    hide Visits, Nodes;
    assert ts[..i + 1][..i] == ts[..i];
  }

  lemma ElementsConcat(a: seq<(Node, Node?)>, b: seq<(Node, Node?)>)
    ensures Elements(a + b) == Elements(a) + Elements(b)
  {
  }

  /** The elements that are visited are those of the tree, whatever the parent. */
  lemma {:induction false} VisitsMeetNodes(t: Tree, p: Node?, n: Node)
    ensures n in Elements(Visits(t, p)) <==> n in Nodes(t)
    ensures Elements(Visits(t, p)) == Preorder(t)
    decreases t, 1
  {
    hide KidVisits, NodesOf;
    ElementsConcat([(t.at, p)], KidVisits(t.kids, t.at));
    ElementsConcat([(t.at, null)], KidVisits(t.kids, t.at));
    KidVisitsMeetNodes(t.kids, t.at, n);
    OneElement(t.at, p);
    OneElement(t.at, null);
  }

  lemma {:induction false} KidVisitsMeetNodes(ts: seq<Tree>, p: Node, n: Node)
    ensures n in Elements(KidVisits(ts, p)) <==> n in NodesOf(ts)
    decreases ts, 0
  {
    hide Visits, Nodes, Elements;
    if ts == [] {
      NoVisits();
    } else {
      var front, last := ts[..|ts| - 1], ts[|ts| - 1];
      KidVisitsMeetNodes(front, p, n);
      VisitsMeetNodes(last, p, n);
      ElementsConcat(KidVisits(front, p), Visits(last, p));
    }
  }

  lemma OneElement(n: Node, p: Node?)
    ensures Elements([(n, p)]) == [n]
  {
  }

  lemma NoVisits()
    ensures Elements([]) == []
  {
  }

  /** The loaded arrays; `attributes` has the number of attributes in each block. */
  class Loader {
    const elements: seq<seq<Node>>
    const attributes: seq<nat>

    constructor (elements: seq<seq<Node>>, attributes: seq<nat>)
      ensures this.elements == elements && this.attributes == attributes
    {
      this.elements, this.attributes := elements, attributes;
    }

    /** What the assertions of `GetElement` and `GetAttribute` demand. */
    predicate HasElement(i: Indices) {
      i.first != INVALID_INDEX && i.second != INVALID_INDEX && i.first < |elements| && i.second < |elements[i.first]|
    }

    predicate HasAttribute(i: Indices) {
      i.first != INVALID_INDEX && i.second != INVALID_INDEX && i.first < |attributes| && i.second < attributes[i.first]
    }

    function GetElement(i: Indices): Node
      requires HasElement(i)
    {
      elements[i.first][i.second]
    }

    ghost predicate HasKids(n: Node) {
      forall i :: 0 <= i < n.data.childrenCount ==> HasElement(Behind(n.data.childrenIndices, i))
    }

    ghost predicate HasAttributes(n: Node) {
      forall i :: 0 <= i < n.data.attributesCount ==> HasAttribute(Behind(n.data.attributeIndices, i))
    }

    /** The children that the flat indices of an element declare. */
    ghost function Children(n: Node): (r: seq<Node>)
      ensures HasKids(n) ==> |r| == n.data.childrenCount
    {
      if HasKids(n) then seq(n.data.childrenCount, i requires 0 <= i < n.data.childrenCount => GetElement(Behind(n.data.childrenIndices, i))) else []
    }

    // ---- which elements and attributes these are

    /** The positions that the indices of an element declare, in numbers: from `start.second` on, in block
        `start.first`, of which `sizes` are the sizes. */
    ghost predicate InRange(start: Indices, count: nat, sizes: seq<nat>) {
      count > 0 ==> start.first != 0xFFFF && start.first < |sizes| && start.second + count <= sizes[start.first] && start.second + count <= 0xFFFF
    }

    ghost function ElementSizes(): seq<nat> {
      seq(|elements|, b requires 0 <= b < |elements| => |elements[b]|)
    }

    lemma LastIsInvalid(start: Indices, i: nat)
      requires start.second + i == 0xFFFF
      ensures !HasElement(Behind(start, i)) && !HasAttribute(Behind(start, i))
    {
    }

    /** The cut to 16 bits never matters: an element's indices lead to children if and only if they do without
        it, as the position before the one where the cut begins to matter is the invalid one. */
    lemma KidsInRangeIff(n: Node)
      ensures HasKids(n) <==> InRange(n.data.childrenIndices, n.data.childrenCount, ElementSizes())
    {
      var start, count := n.data.childrenIndices, n.data.childrenCount;
      if start.second + count > 0xFFFF && count > 0 {
        LastIsInvalid(start, 0xFFFF - start.second);
      } else if HasKids(n) && count > 0 {
        assert HasElement(Behind(start, 0)) && HasElement(Behind(start, count - 1));
      }
    }

    lemma AttributesInRangeIff(n: Node)
      ensures HasAttributes(n) <==> InRange(n.data.attributeIndices, n.data.attributesCount, attributes)
    {
      var start, count := n.data.attributeIndices, n.data.attributesCount;
      if start.second + count > 0xFFFF && count > 0 {
        LastIsInvalid(start, 0xFFFF - start.second);
      } else if HasAttributes(n) && count > 0 {
        assert HasAttribute(Behind(start, 0)) && HasAttribute(Behind(start, count - 1));
      }
    }

    /** The declared children are consecutive elements of one block. */
    ghost predicate AreTheChildren(n: Node, children: seq<Node>) {
      var first, second, count := n.data.childrenIndices.first, n.data.childrenIndices.second, n.data.childrenCount;
      && |children| == count
      && (count > 0 ==> first < |elements| && second + count <= |elements[first]| && children == elements[first][second..second + count])
    }

    ghost predicate AreTheAttributes(n: Node, attributes: seq<Indices>) {
      && |attributes| == n.data.attributesCount
      && forall i :: 0 <= i < |attributes| ==>
           attributes[i].first == n.data.attributeIndices.first && attributes[i].second == n.data.attributeIndices.second + i
    }

    lemma ChildrenAreASlice(n: Node)
      requires HasKids(n)
      ensures AreTheChildren(n, Children(n))
    {
      KidsInRangeIff(n);
    }

    lemma AttributesAreASlice(n: Node)
      requires HasAttributes(n)
      ensures AreTheAttributes(n, Attributes(n))
    {
      AttributesInRangeIff(n);
    }

    /** The flat indices encode the tree `t`: from `t.at` on the recursion is finite. */
    ghost predicate Encodes(t: Tree) {
      && HasAttributes(t.at) && HasKids(t.at) && |t.kids| == t.at.data.childrenCount
      && forall i :: 0 <= i < |t.kids| ==> t.kids[i].at == Children(t.at)[i] && Encodes(t.kids[i])
    }

    lemma KidEncoded(t: Tree, i: nat)
      requires Encodes(t) && i < |t.kids|
      ensures Encodes(t.kids[i]) && t.kids[i].at == Children(t.at)[i] && |Children(t.at)| == |t.kids|
      ensures HasElement(Behind(t.at.data.childrenIndices, i)) && GetElement(Behind(t.at.data.childrenIndices, i)) == t.kids[i].at
    {
    }

    lemma {:induction false} SubtreeAt(t: Tree, n: Node) returns (u: Tree)
      requires Encodes(t) && n in Nodes(t)
      ensures u.at == n && Encodes(u) && Size(u) <= Size(t) && Nodes(u) <= Nodes(t)
      ensures n in NodesOf(t.kids) ==> Size(u) < Size(t) && Nodes(u) <= NodesOf(t.kids)
      decreases t
    {
      hide NodesOf;
      if n in NodesOf(t.kids) {
        var i := KidWith(t.kids, n);
        KidInside(t.kids, i);
        KidEncoded(t, i);
        u := SubtreeAt(t.kids[i], n);
      } else {
        u := t;
      }
    }

    /** An element's indices say what is below it. */
    lemma {:induction false} SameRoot(a: Tree, b: Tree)
      requires Encodes(a) && Encodes(b) && a.at == b.at
      ensures a == b
      decreases a
    {
      forall i | 0 <= i < |a.kids| ensures a.kids[i] == b.kids[i] {
        KidEncoded(a, i);
        KidEncoded(b, i);
        SameRoot(a.kids[i], b.kids[i]);
      }
      assert a.kids == b.kids;
    }

    /** No element of a finite tree is below itself. */
    lemma NotBelowItself(t: Tree)
      requires Encodes(t)
      ensures t.at !in NodesOf(t.kids)
    {
      if t.at in NodesOf(t.kids) {
        var u := SubtreeAt(t, t.at);
        SameRoot(t, u);
      }
    }

    // ---- when the recursion is finite

    /** From each element of a path the next one is a child that it declares. */
    ghost predicate IsPath(p: seq<Node>) {
      |p| > 0 && forall i :: 0 <= i < |p| - 1 ==> p[i + 1] in Children(p[i])
    }

    /** The path from `root` that takes the children with these numbers; numbers that are too large are skipped. */
    ghost function Path(root: Node, numbers: seq<nat>): (p: seq<Node>)
      ensures IsPath(p) && p[0] == root && |p| <= |numbers| + 1
    {
      if numbers == [] then [root]
      else
        var p, k := Path(root, numbers[..|numbers| - 1]), numbers[|numbers| - 1];
        var kids := Children(p[|p| - 1]);
        if k < |kids| then p + [kids[k]] else p
    }

    /** Every element that can be reached has its indices in range, and none reaches itself. */
    ghost predicate WellIndexed(root: Node) {
      forall numbers: seq<nat> :: PathOk(Path(root, numbers))
    }

    ghost predicate PathOk(p: seq<Node>)
      requires |p| > 0
    {
      HasKids(p[|p| - 1]) && HasAttributes(p[|p| - 1]) && NoDup(p)
    }

    /** The indices encode a finite tree, on which the recursion ends, if and only if they are in range and no
        element reaches itself. */
    lemma {:induction false} EncodesTreeIff(root: Node)
      ensures (exists t: Tree :: t.at == root && Encodes(t)) <==> WellIndexed(root)
    {
      hide Encodes, HasKids, HasAttributes, NoDup;
      if t: Tree :| t.at == root && Encodes(t) {
        forall numbers: seq<nat> ensures PathOk(Path(root, numbers)) {
          PathInTree(t, Path(root, numbers));
        }
      }
      if WellIndexed(root) {
        var t := TreeAlong(root, []);
      }
    }

    lemma {:induction false} PathInTree(t: Tree, p: seq<Node>)
      requires Encodes(t) && IsPath(p) && p[0] == t.at
      ensures HasKids(p[|p| - 1]) && HasAttributes(p[|p| - 1]) && NoDup(p) && forall n :: n in p ==> n in Nodes(t)
      decreases t
    {
      hide NodesOf, HasKids, HasAttributes, Children;
      if |p| > 1 {
        var rest := p[1..];
        assert p[1] in Children(p[0]);
        var i :| 0 <= i < |Children(t.at)| && Children(t.at)[i] == p[1];
        KidsOf(t);
        KidEncoded(t, i);
        KidInside(t.kids, i);
        forall k | 0 <= k < |rest| - 1 ensures rest[k + 1] in Children(rest[k]) {
          assert p[(k + 1) + 1] in Children(p[k + 1]);
        }
        PathInTree(t.kids[i], rest);
        NotBelowItself(t);
        assert p == [p[0]] + rest;
        NoDupConcat([p[0]], rest);
      }
    }

    /** The elements of all blocks. */
    ghost function Universe(): (r: set<Node>)
      ensures forall i: Indices :: HasElement(i) ==> GetElement(i) in r
    {
      var r := set n | n in Flat(elements);
      assert forall i: Indices :: HasElement(i) ==> GetElement(i) in r by {
        forall i: Indices | HasElement(i) ensures GetElement(i) in r {
          InFlat(elements, i.first, i.second);
        }
      }
      r
    }

    lemma ChildIsElement(n: Node, m: Node)
      requires m in Children(n)
      ensures m in Universe()
    {
      var i :| 0 <= i < |Children(n)| && Children(n)[i] == m;
      assert HasElement(Behind(n.data.childrenIndices, i));
    }

    /** A path without repetition is not longer than there are elements, and its start. */
    lemma PathIsShort(p: seq<Node>)
      requires IsPath(p) && NoDup(p)
      ensures |p| <= |Universe()| + 1
    {
      hide Universe, Children;
      var ns := set n | n in p;
      SizeOfPath(p);
      forall n | n in p ensures n in Universe() + {p[0]} {
        var i :| 0 <= i < |p| && p[i] == n;
        if i > 0 {
          assert p[i] in Children(p[i - 1]);
          ChildIsElement(p[i - 1], p[i]);
        }
      }
      SubsetIsSmaller(ns, Universe() + {p[0]});
    }

    /** The element at the end of a path. */
    ghost function End(root: Node, numbers: seq<nat>): Node {
      var p := Path(root, numbers);
      p[|p| - 1]
    }

    lemma LongerPath(root: Node, numbers: seq<nat>, k: nat)
      requires k < |Children(End(root, numbers))|
      ensures Path(root, numbers + [k]) == Path(root, numbers) + [Children(End(root, numbers))[k]]
      ensures End(root, numbers + [k]) == Children(End(root, numbers))[k]
    {
      hide Children;
      assert (numbers + [k])[..|numbers|] == numbers;
    }

    /** How many elements a path can still get. */
    ghost function Rest(root: Node, numbers: seq<nat>): int {
      |Universe()| + 1 - |Path(root, numbers)|
    }

    lemma RestIsLeft(root: Node, numbers: seq<nat>)
      requires WellIndexed(root)
      ensures Rest(root, numbers) >= 0 && HasKids(End(root, numbers)) && HasAttributes(End(root, numbers))
    {
      hide Path, Universe;
      assert PathOk(Path(root, numbers));
      PathIsShort(Path(root, numbers));
    }

    /** The tree below the end of a path. */
    lemma {:induction false} TreeAlong(root: Node, numbers: seq<nat>) returns (t: Tree)
      requires WellIndexed(root) && Rest(root, numbers) >= 0
      ensures t.at == End(root, numbers) && Encodes(t)
      decreases Rest(root, numbers), |Children(End(root, numbers))| + 1
    {
      hide Universe, Path, Rest, HasAttributes;
      RestIsLeft(root, numbers);
      var kids := KidsAlong(root, numbers, |Children(End(root, numbers))|);
      t := Tree(End(root, numbers), kids);
    }

    lemma {:induction false} KidsAlong(root: Node, numbers: seq<nat>, k: nat) returns (ts: seq<Tree>)
      requires WellIndexed(root) && Rest(root, numbers) >= 0 && k <= |Children(End(root, numbers))|
      ensures |ts| == k && forall i :: 0 <= i < k ==> ts[i].at == Children(End(root, numbers))[i] && Encodes(ts[i])
      decreases Rest(root, numbers), k
    {
      hide Universe, Path, End, Children, Encodes, WellIndexed;
      ts := [];
      if k > 0 {
        LongerPath(root, numbers, k - 1);
        RestIsLeft(root, numbers + [k - 1]);
        ts := KidsAlong(root, numbers, k - 1);
        var t := TreeAlong(root, numbers + [k - 1]);
        ts := ts + [t];
      }
    }

    // ---- what the visits leave behind

    /** The fields of element `n` after some visits: each visit sets the parent and appends the declared
        children and attributes. */
    ghost function After(f: Fields, visits: seq<(Node, Node?)>, n: Node): Fields {
      if visits == [] then f
      else
        var before, last := After(f, visits[..|visits| - 1], n), visits[|visits| - 1];
        if last.0 == n then Fields(last.1, before.children + Children(n), before.attributes + Attributes(n)) else before
    }

    lemma {:induction false} AfterConcat(f: Fields, a: seq<(Node, Node?)>, b: seq<(Node, Node?)>, n: Node)
      ensures After(f, a + b, n) == After(After(f, a, n), b, n)
    {
      if b == [] {
        assert a + b == a;
      } else {
        assert (a + b)[..|a + b| - 1] == a + b[..|b| - 1];
        AfterConcat(f, a, b[..|b| - 1], n);
      }
    }

    lemma {:induction false} NotVisited(f: Fields, visits: seq<(Node, Node?)>, n: Node)
      requires n !in Elements(visits)
      ensures After(f, visits, n) == f
    {
      if visits != [] {
        var front, last := visits[..|visits| - 1], visits[|visits| - 1];
        assert visits == front + [last];
        ElementsConcat(front, [last]);
        OneElement(last.0, last.1);
        NotVisited(f, front, n);
      }
    }

    lemma OneVisit(f: Fields, n: Node, p: Node?, visits: seq<(Node, Node?)>)
      requires n !in Elements(visits)
      ensures After(f, [(n, p)] + visits, n) == Fields(p, f.children + Children(n), f.attributes + Attributes(n))
    {
      assert [(n, p)][..0] == [];
      AfterConcat(f, [(n, p)], visits, n);
      NotVisited(After(f, [(n, p)], n), visits, n);
    }

    // ---- the recursion

    /** The loop that caches the attributes. */
    method CacheAttributes(e: Node)
      requires HasAttributes(e)
      modifies e`cachedAttributes
      ensures e.cachedAttributes == old(e.cachedAttributes) + Attributes(e) && AreTheAttributes(e, Attributes(e))
    {
      AttributesAreASlice(e);
      for i := 0 to e.data.attributesCount
        invariant e.cachedAttributes == old(e.cachedAttributes) + Slice(e.data.attributeIndices, i)
      {
        e.cachedAttributes := e.cachedAttributes + [Behind(e.data.attributeIndices, i)];
      }
    }

    /** `PostLoadProcessing_Elements_Recursive`, on indices that encode the finite tree `t`: it ends, visits the
        elements in preorder, and leaves behind what the visits do. */
    method Rebuild(e: Node, p: Node?, ghost t: Tree, ghost nodes: set<Node>) returns (ghost visits: seq<(Node, Node?)>)
      requires Encodes(t) && t.at == e && nodes == Nodes(t) && (p != null ==> p !in nodes)
      modifies nodes, Ref(p)`cachedChildren
      ensures visits == Visits(t, p)
      ensures forall n :: n in nodes ==> FieldsOf(n) == After(old(FieldsOf(n)), visits, n)
      ensures p != null ==> p.cachedChildren == old(p.cachedChildren) + [e]
      ensures e.parent == p && AreTheChildren(e, Children(e)) && AreTheAttributes(e, Attributes(e))
      ensures e.cachedChildren == old(e.cachedChildren) + Children(e) && e.cachedAttributes == old(e.cachedAttributes) + Attributes(e)
      decreases t, 1
    {
      hide NodesOf, KidVisits, After, Children, AreTheChildren, AreTheAttributes;
      NotBelowItself(t);
      e.parent := p;
      if p != null {
        p.cachedChildren := p.cachedChildren + [e];
      }
      CacheAttributes(e);
      ghost var kidVisits := RebuildChildren(e, t, NodesOf(t.kids));
      visits := [(e, p)] + kidVisits;
      RootVisit(t, p, old(FieldsOf(e)));
      forall n | n in nodes && n != e ensures FieldsOf(n) == After(old(FieldsOf(n)), visits, n) {
        KidVisit(t, p, old(FieldsOf(n)), n);
      }
    }

    lemma RootVisit(t: Tree, p: Node?, f: Fields)
      requires t.at !in NodesOf(t.kids)
      ensures After(f, Visits(t, p), t.at) == Fields(p, f.children + Children(t.at), f.attributes + Attributes(t.at))
    {
      KidVisitsMeetNodes(t.kids, t.at, t.at);
      OneVisit(f, t.at, p, KidVisits(t.kids, t.at));
    }

    lemma KidVisit(t: Tree, p: Node?, f: Fields, n: Node)
      requires n != t.at
      ensures After(f, Visits(t, p), n) == After(f, KidVisits(t.kids, t.at), n)
    {
      AfterConcat(f, [(t.at, p)], KidVisits(t.kids, t.at), n);
      NotVisited(f, [(t.at, p)], n);
    }

    /** ... the loop over the children. */
    method RebuildChildren(e: Node, ghost t: Tree, ghost nodes: set<Node>) returns (ghost visits: seq<(Node, Node?)>)
      requires Encodes(t) && t.at == e && nodes == NodesOf(t.kids) && e !in nodes
      modifies nodes, e`cachedChildren
      ensures visits == KidVisits(t.kids, e) && e.cachedChildren == old(e.cachedChildren) + Children(e)
      ensures AreTheChildren(e, Children(e))
      ensures forall n :: n in nodes ==> FieldsOf(n) == After(old(FieldsOf(n)), visits, n)
      decreases t, 0
    {
      hide Nodes, NodesOf, Visits, KidVisits, After, Encodes, Children, HasKids, AreTheChildren;
      visits := [];
      NoKids(t, e);
      forall n | n in nodes ensures After(FieldsOf(n), [], n) == FieldsOf(n) {
        NoVisit(FieldsOf(n), n);
      }
      for i := 0 to e.data.childrenCount
        invariant visits == KidVisits(t.kids[..i], e) && e.cachedChildren == old(e.cachedChildren) + Children(e)[..i]
        invariant forall n :: n in nodes ==> FieldsOf(n) == After(old(FieldsOf(n)), visits, n)
      {
        KidEncoded(t, i);
        KidInside(t.kids, i);
        var child := GetElement(Behind(e.data.childrenIndices, i));
        ghost var more := Rebuild(child, e, t.kids[i], Nodes(t.kids[i]));
        OneMoreKid(t.kids, i, e);
        forall n | n in nodes ensures FieldsOf(n) == After(old(FieldsOf(n)), visits + more, n) {
          NextVisits(old(FieldsOf(n)), visits, t.kids[i], e, n);
        }
        visits := visits + more;
      }
      assert t.kids[..|t.kids|] == t.kids && Children(e)[..|Children(e)|] == Children(e);
    }

    lemma NoKids(t: Tree, e: Node)
      requires Encodes(t) && t.at == e
      ensures KidVisits(t.kids[..0], e) == [] && |t.kids| == e.data.childrenCount == |Children(e)| && AreTheChildren(e, Children(e))
    {
      ChildrenAreASlice(e);
    }

    lemma NoVisit(f: Fields, n: Node)
      ensures After(f, [], n) == f
    {
    }

    lemma NextVisits(f: Fields, visits: seq<(Node, Node?)>, kid: Tree, p: Node, n: Node)
      ensures After(f, visits + Visits(kid, p), n) ==
              if n in Nodes(kid) then After(After(f, visits, n), Visits(kid, p), n) else After(f, visits, n)
    {
      AfterConcat(f, visits, Visits(kid, p), n);
      VisitsMeetNodes(kid, p, n);
      if n !in Nodes(kid) {
        NotVisited(After(f, visits, n), Visits(kid, p), n);
      }
    }

    // ---- what a visit tells

    ghost predicate VisitOk(t: Tree, p: Node?, v: (Node, Node?)) {
      v == (t.at, p) || (v.1 != null && v.1 in Nodes(t) && v.0 in Children(v.1))
    }

    lemma {:induction false} VisitsAreOfChildren(t: Tree, p: Node?)
      requires Encodes(t)
      ensures forall v :: v in Visits(t, p) ==> VisitOk(t, p, v)
      decreases t
    {
      hide Children;
      forall v | v in KidVisits(t.kids, t.at) ensures VisitOk(t, p, v) {
        var i := KidVisitAt(t.kids, t.at, v);
        KidEncoded(t, i);
        KidInside(t.kids, i);
        VisitsAreOfChildren(t.kids[i], t.at);
        assert VisitOk(t.kids[i], t.at, v);
      }
    }

    /** Every declared child is visited from the element that declares it. */
    lemma {:induction false} ChildrenAreVisited(t: Tree, p: Node?, n: Node, m: Node)
      requires Encodes(t) && n in Nodes(t) && m in Children(n)
      ensures (m, n) in Visits(t, p) && m in Nodes(t)
      decreases t
    {
      hide NodesOf, KidVisits, Children;
      if n == t.at {
        var i :| 0 <= i < |Children(n)| && Children(n)[i] == m;
        KidsOf(t);
        KidEncoded(t, i);
        KidInside(t.kids, i);
        assert (m, n) in Visits(t.kids[i], n);
        KidVisitIn(t.kids, t.at, i, (m, n));
      } else {
        var i := KidWith(t.kids, n);
        KidEncoded(t, i);
        KidInside(t.kids, i);
        ChildrenAreVisited(t.kids[i], t.at, n, m);
        KidVisitIn(t.kids, t.at, i, (m, n));
      }
    }

    lemma KidsOf(t: Tree)
      requires Encodes(t)
      ensures |Children(t.at)| == |t.kids|
    {
    }

    // ---- one visit, or several

    /** An element that is visited `k` times has its children and attributes `k` times. */
    lemma {:induction false} CachesGrowWithVisits(f: Fields, visits: seq<(Node, Node?)>, n: Node)
      ensures After(f, visits, n).children == f.children + Repeat(Children(n), multiset(Elements(visits))[n])
      ensures After(f, visits, n).attributes == f.attributes + Repeat(Attributes(n), multiset(Elements(visits))[n])
    {
      hide Children, Attributes, After, Elements;
      if visits == [] {
        NoVisits();
        NoVisit(f, n);
      } else {
        var front, last := visits[..|visits| - 1], visits[|visits| - 1];
        assert visits == front + [last];
        ElementsConcat(front, [last]);
        OneElement(last.0, last.1);
        assert multiset(Elements(visits)) == multiset(Elements(front)) + multiset{last.0};
        CachesGrowWithVisits(f, front, n);
        LastVisit(f, front, last, n);
      }
    }

    lemma LastVisit(f: Fields, front: seq<(Node, Node?)>, last: (Node, Node?), n: Node)
      ensures After(f, front + [last], n) ==
              var before := After(f, front, n);
              if last.0 == n then Fields(last.1, before.children + Children(n), before.attributes + Attributes(n)) else before
    {
      assert (front + [last])[..|front|] == front;
    }

    /** Its parent is that of its last visit. */
    lemma {:induction false} ParentIsLast(f: Fields, visits: seq<(Node, Node?)>, n: Node)
      requires n in Elements(visits)
      ensures (n, After(f, visits, n).parent) in visits
    {
      var front, last := visits[..|visits| - 1], visits[|visits| - 1];
      if last.0 != n {
        assert visits == front + [last];
        ElementsConcat(front, [last]);
        OneElement(last.0, last.1);
        ParentIsLast(f, front, n);
      }
    }

    lemma {:induction false} RepeatHas(xs: seq<Node>, k: nat, m: Node)
      ensures m in Repeat(xs, k) <==> k > 0 && m in xs
    {
      if k > 0 {
        RepeatHas(xs, k - 1, m);
      }
    }

    // ---- parents and children

    /** Different indices lead to different elements. */
    ghost predicate DistinctElements() {
      forall i: Indices, j: Indices :: HasElement(i) && HasElement(j) && GetElement(i) == GetElement(j) ==> i == j
    }

    /** Every element has what its visits leave behind, from empty fields. */
    ghost predicate Loaded(t: Tree, nodes: set<Node>)
      reads nodes
    {
      nodes == Nodes(t) && forall n :: n in nodes ==> FieldsOf(n) == After(Fields(null, [], []), Visits(t, null), n)
    }

    lemma LoadedNode(t: Tree, nodes: set<Node>, n: Node)
      requires Encodes(t) && Loaded(t, nodes) && n in nodes
      ensures (n, n.parent) in Visits(t, null) && VisitOk(t, null, (n, n.parent))
      ensures forall m :: m in n.cachedChildren <==> m in Children(n)
      ensures n.cachedChildren == Repeat(Children(n), multiset(Preorder(t))[n])
      ensures n.cachedAttributes == Repeat(Attributes(n), multiset(Preorder(t))[n])
      ensures NoDup(Preorder(t)) ==> n.cachedChildren == Children(n) && n.cachedAttributes == Attributes(n)
    {
      hide Nodes, Visits, Children, Attributes, Encodes;
      var visits := Visits(t, null);
      assert FieldsOf(n) == After(Fields(null, [], []), visits, n);
      VisitsMeetNodes(t, null, n);
      ParentIsLast(Fields(null, [], []), visits, n);
      VisitsAreOfChildren(t, null);
      CachesGrowWithVisits(Fields(null, [], []), visits, n);
      forall m ensures m in n.cachedChildren <==> m in Children(n) {
        RepeatHas(Children(n), multiset(Elements(visits))[n], m);
      }
      if NoDup(Preorder(t)) {
        OccursOnce(Elements(visits), n);
        RepeatOnce(Children(n));
        RepeatOnce(Attributes(n));
      }
    }

    /** Every declared child has the element that declares it as its parent. */
    ghost predicate Parented(t: Tree, nodes: set<Node>)
      requires Nodes(t) <= nodes
      reads nodes
    {
      forall n, m :: n in Nodes(t) && m in Children(n) && m in nodes ==> m.parent == n
    }

    lemma UnsharedIsParented(t: Tree, nodes: set<Node>)
      requires Encodes(t) && Loaded(t, nodes) && NoDup(Preorder(t))
      ensures Parented(t, nodes)
    {
      hide Nodes, Visits, Children, Encodes, After;
      forall n, m | n in Nodes(t) && m in Children(n) && m in nodes ensures m.parent == n {
        ChildrenAreVisited(t, null, n, m);
        LoadedNode(t, nodes, m);
        SameVisit(Visits(t, null), (m, n), (m, m.parent));
      }
    }

    lemma ParentInside(t: Tree, nodes: set<Node>, y: Node)
      requires Encodes(t) && Nodes(t) <= nodes && Parented(t, nodes) && y in Nodes(t) && y != t.at
      ensures y.parent != null && y.parent in Nodes(t)
    {
      hide Nodes, Visits, Children, Encodes;
      VisitsMeetNodes(t, null, y);
      var i :| 0 <= i < |Visits(t, null)| && Elements(Visits(t, null))[i] == y;
      VisitsAreOfChildren(t, null);
      assert VisitOk(t, null, Visits(t, null)[i]);
    }

    lemma KidParented(t: Tree, nodes: set<Node>, i: nat)
      requires Encodes(t) && Nodes(t) <= nodes && Parented(t, nodes) && i < |t.kids|
      ensures Nodes(t.kids[i]) <= nodes && Parented(t.kids[i], nodes) && t.kids[i].at.parent == t.at && Encodes(t.kids[i])
      ensures Nodes(t.kids[i]) <= Nodes(t)
    {
      hide NodesOf, Children;
      KidInside(t.kids, i);
      KidsOf(t);
      KidEncoded(t, i);
    }

    /** A tree that shares an element with another one, into which the parents lead from outside only at its
        root, has its own root in the other. */
    lemma {:induction false} RootsMeet(a: Tree, b: Tree, nodes: set<Node>, x: Node)
      requires Encodes(a) && Encodes(b) && Nodes(a) <= nodes && Nodes(b) <= nodes && Parented(a, nodes) && Parented(b, nodes)
      requires x in Nodes(a) && x in Nodes(b) && b.at.parent !in Nodes(a)
      ensures a.at in Nodes(b)
      decreases a
    {
      hide NodesOf, Parented;
      if x != a.at {
        var i := KidWith(a.kids, x);
        KidParented(a, nodes, i);
        RootsMeet(a.kids[i], b, nodes, x);
        ParentInside(b, nodes, a.kids[i].at);
      }
    }

    lemma KidsApart(t: Tree, nodes: set<Node>, i: nat, j: nat)
      requires Encodes(t) && Nodes(t) <= nodes && Parented(t, nodes) && DistinctElements() && i < |t.kids| && j < |t.kids| && i != j
      ensures Nodes(t.kids[i]) !! Nodes(t.kids[j])
    {
      hide Nodes, NodesOf, Parented, Encodes, DistinctElements;
      KidParented(t, nodes, i);
      KidParented(t, nodes, j);
      KidInside(t.kids, i);
      KidInside(t.kids, j);
      NotBelowItself(t);
      forall x | x in Nodes(t.kids[i]) && x in Nodes(t.kids[j]) ensures false {
        RootsMeet(t.kids[i], t.kids[j], nodes, x);
        if t.kids[i].at != t.kids[j].at {
          ParentInside(t.kids[j], nodes, t.kids[i].at);
        }
        KidRootsDiffer(t, i, j);
      }
    }

    lemma KidRootsDiffer(t: Tree, i: nat, j: nat)
      requires Encodes(t) && DistinctElements() && i < |t.kids| && j < |t.kids| && i != j
      ensures t.kids[i].at != t.kids[j].at
    {
      hide Encodes;
      KidsOf(t);
      KidEncoded(t, i);
      KidEncoded(t, j);
    }

    lemma {:induction false} ParentedIsUnshared(t: Tree, nodes: set<Node>)
      requires Encodes(t) && Nodes(t) <= nodes && Parented(t, nodes) && DistinctElements()
      ensures NoDup(Preorder(t))
      decreases t, |t.kids| + 1
    {
      hide NodesOf, KidVisits, Parented, Encodes, DistinctElements, NoDup;
      NotBelowItself(t);
      KidsUnshared(t, nodes, |t.kids|);
      assert t.kids[..|t.kids|] == t.kids;
      KidVisitsMeetNodes(t.kids, t.at, t.at);
      ElementsConcat([(t.at, null)], KidVisits(t.kids, t.at));
      OneElement(t.at, null);
      NoDupConcat([t.at], Elements(KidVisits(t.kids, t.at)));
    }

    lemma {:induction false} KidsUnshared(t: Tree, nodes: set<Node>, k: nat)
      requires Encodes(t) && Nodes(t) <= nodes && Parented(t, nodes) && DistinctElements() && k <= |t.kids|
      ensures NoDup(Elements(KidVisits(t.kids[..k], t.at)))
      decreases t, k
    {
      hide Nodes, NodesOf, Visits, Parented, Encodes, DistinctElements, NoDup;
      if k == 0 {
        NoVisits();
        NoDupNothing();
      } else {
        var before, kid := KidVisits(t.kids[..k - 1], t.at), t.kids[k - 1];
        KidsUnshared(t, nodes, k - 1);
        KidParented(t, nodes, k - 1);
        ParentedIsUnshared(kid, nodes);
        OneMoreKid(t.kids, k - 1, t.at);
        ElementsConcat(before, Visits(kid, t.at));
        VisitsMeetNodes(kid, t.at, kid.at);
        forall n | n in Elements(before) ensures n !in Elements(Visits(kid, t.at)) {
          KidVisitsMeetNodes(t.kids[..k - 1], t.at, n);
          VisitsMeetNodes(kid, t.at, n);
          var i := KidWith(t.kids[..k - 1], n);
          KidsApart(t, nodes, i, k - 1);
        }
        NoDupConcat(Elements(before), Elements(Visits(kid, t.at)));
      }
    }

    /** An element is another's parent exactly if that other has it among its children. */
    ghost predicate Inverse(nodes: set<Node>)
      reads nodes
    {
      forall m, n :: m in nodes && n in nodes ==> (m.parent == n <==> m in n.cachedChildren)
    }

    /** After loading, parents and children are inverse if and only if no element was visited twice. */
    lemma {:induction false} InverseIffUnshared(t: Tree, nodes: set<Node>)
      requires Encodes(t) && Loaded(t, nodes) && DistinctElements()
      ensures Inverse(nodes) <==> NoDup(Preorder(t))
    {
      hide Nodes, Encodes, After, Children, Preorder, NoDup, DistinctElements, VisitOk;
      forall n | n in nodes ensures forall m :: m in n.cachedChildren <==> m in Children(n) {
        LoadedNode(t, nodes, n);
      }
      if NoDup(Preorder(t)) {
        UnsharedIsParented(t, nodes);
        forall m, n | m in nodes && n in nodes && m.parent == n ensures m in n.cachedChildren {
          LoadedNode(t, nodes, m);
          ParentDeclares(t, m, n);
        }
      }
      if Inverse(nodes) {
        ParentedIsUnshared(t, nodes);
      }
    }

    lemma ParentDeclares(t: Tree, m: Node, n: Node)
      requires VisitOk(t, null, (m, n))
      ensures m in Children(n)
    {
      hide Children, Nodes;
    }

    /** `PostLoadProcessing_Elements` from the root on. */
    method PostLoadElements(ghost t: Tree, ghost nodes: set<Node>) returns (ghost visits: seq<(Node, Node?)>)
      requires HasElement(Indices(0, 0)) && t.at == GetElement(Indices(0, 0))
      requires Encodes(t) && nodes == Nodes(t) && DistinctElements()
      requires forall n :: n in nodes ==> FieldsOf(n) == Fields(null, [], [])
      modifies nodes
      ensures visits == Visits(t, null) && Loaded(t, nodes)
      ensures forall n :: n in nodes ==>
              && AreTheChildren(n, Children(n)) && n.cachedChildren == Repeat(Children(n), multiset(Preorder(t))[n])
              && AreTheAttributes(n, Attributes(n)) && n.cachedAttributes == Repeat(Attributes(n), multiset(Preorder(t))[n])
      ensures NoDup(Preorder(t)) ==> forall n :: n in nodes ==> AreTheChildren(n, n.cachedChildren) && AreTheAttributes(n, n.cachedAttributes)
      ensures Inverse(nodes) <==> NoDup(Preorder(t))
    {
      hide Nodes, Encodes, After, Children, Attributes, Preorder, NoDup, DistinctElements, Inverse, AreTheChildren, AreTheAttributes;
      visits := Rebuild(GetElement(Indices(0, 0)), null, t, nodes);
      InverseIffUnshared(t, nodes);
      forall n | n in nodes
        ensures AreTheChildren(n, Children(n)) && n.cachedChildren == Repeat(Children(n), multiset(Preorder(t))[n])
        ensures AreTheAttributes(n, Attributes(n)) && n.cachedAttributes == Repeat(Attributes(n), multiset(Preorder(t))[n])
        ensures NoDup(Preorder(t)) ==> n.cachedChildren == Children(n) && n.cachedAttributes == Attributes(n)
      {
        LoadedNode(t, nodes, n);
        var u := SubtreeAt(t, n);
        DeclaredOf(u);
      }
    }

    lemma DeclaredOf(t: Tree)
      requires Encodes(t)
      ensures AreTheChildren(t.at, Children(t.at)) && AreTheAttributes(t.at, Attributes(t.at))
    {
      hide Children, Attributes, HasKids, HasAttributes, AreTheChildren, AreTheAttributes;
      ChildrenAreASlice(t.at);
      AttributesAreASlice(t.at);
    }
  }

  // ---- sets and sequences of elements

  ghost function Flat(blocks: seq<seq<Node>>): seq<Node> {
    if blocks == [] then [] else Flat(blocks[..|blocks| - 1]) + blocks[|blocks| - 1]
  }

  lemma {:induction false} InFlat(blocks: seq<seq<Node>>, i: nat, j: nat)
    requires i < |blocks| && j < |blocks[i]|
    ensures blocks[i][j] in Flat(blocks)
  {
    if i < |blocks| - 1 {
      InFlat(blocks[..|blocks| - 1], i, j);
    }
  }

  lemma {:induction false} SizeOfPath(p: seq<Node>)
    requires NoDup(p)
    ensures |set n | n in p| == |p|
  {
    if p != [] {
      var front, last := p[..|p| - 1], p[|p| - 1];
      SizeOfPath(front);
      assert p == front + [last] && last !in front;
      assert (set n | n in p) == (set n | n in front) + {last};
    }
  }

  lemma {:induction false} SubsetIsSmaller(a: set<Node>, b: set<Node>)
    requires a <= b
    ensures |a| <= |b|
  {
    if n :| n in a {
      SubsetIsSmaller(a - {n}, b - {n});
    }
  }

  // ---- repetitions

  function Repeat<T>(xs: seq<T>, k: nat): seq<T> {
    if k == 0 then [] else Repeat(xs, k - 1) + xs
  }

  lemma {:induction false} RepeatAt<T>(xs: seq<T>, k: nat, j: nat)
    ensures |Repeat(xs, k)| == k * |xs|
    ensures j < k * |xs| ==> Repeat(xs, k)[j] == xs[j % |xs|]
  {
    if k > 0 {
      RepeatAt(xs, k - 1, j);
      MulDistributes(k - 1, 1, |xs|);
      if (k - 1) * |xs| <= j < k * |xs| {
        Remainder(j, |xs|, k - 1, j - (k - 1) * |xs|);
      }
    }
  }

  lemma RepeatOnce<T>(xs: seq<T>)
    ensures Repeat(xs, 1) == xs
  {
    assert Repeat(xs, 0) == [];
  }

  lemma NoDupNothing()
    ensures NoDup<Node>([])
  {
  }

  lemma NoDupConcat(a: seq<Node>, b: seq<Node>)
    requires NoDup(a) && NoDup(b) && forall n :: n in a ==> n !in b
    ensures NoDup(a + b)
  {
    forall i, j | 0 <= i < j < |a + b| ensures (a + b)[i] != (a + b)[j] {
      if i < |a| && j >= |a| {
        assert a[i] in a && b[j - |a|] in b;
      }
    }
  }

  lemma {:induction false} OccursOnce(xs: seq<Node>, n: Node)
    requires NoDup(xs)
    ensures multiset(xs)[n] == if n in xs then 1 else 0
  {
    if xs != [] {
      var front, last := xs[..|xs| - 1], xs[|xs| - 1];
      assert xs == front + [last];
      OccursOnce(front, n);
      assert last !in front;
    }
  }

  /** An element that is visited once has one parent. */
  lemma SameVisit(visits: seq<(Node, Node?)>, v: (Node, Node?), w: (Node, Node?))
    requires NoDup(Elements(visits)) && v in visits && w in visits && v.0 == w.0
    ensures v == w
  {
    var i :| 0 <= i < |visits| && visits[i] == v;
    var j :| 0 <= j < |visits| && visits[j] == w;
    assert Elements(visits)[i] == Elements(visits)[j];
  }

  lemma {:induction false} KidVisitAt(ts: seq<Tree>, p: Node, v: (Node, Node?)) returns (i: nat)
    requires v in KidVisits(ts, p)
    ensures i < |ts| && v in Visits(ts[i], p)
  {
    hide Visits;
    if v in Visits(ts[|ts| - 1], p) {
      i := |ts| - 1;
    } else {
      i := KidVisitAt(ts[..|ts| - 1], p, v);
    }
  }

  lemma {:induction false} KidVisitIn(ts: seq<Tree>, p: Node, i: nat, v: (Node, Node?))
    requires i < |ts| && v in Visits(ts[i], p)
    ensures v in KidVisits(ts, p)
  {
    hide Visits;
    if i < |ts| - 1 {
      KidVisitIn(ts[..|ts| - 1], p, i, v);
    }
  }
}
