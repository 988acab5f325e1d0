/** The four ways in which the heap changes: an edge is tagged, an edge is flagged, a leaf is inserted, and a part of
    the tree is spliced out. */
module TreeUpdates {
  import opened Options
  import opened TreeShapes
  import opened TreeModel
  import opened TreeInvariant
  import opened TreeFrames

  // ---------------------------------------------------------------- frames

  predicate SameNode(nodes: seq<Rec>, now: seq<Rec>, n: Node) {
    && n < |nodes| && n < |now| && now[n].key == nodes[n].key && now[n].val == nodes[n].val
    && now[n].left.to == nodes[n].left.to && now[n].right.to == nodes[n].right.to
  }

  lemma {:induction false} ReprFrame(nodes: seq<Rec>, now: seq<Rec>, t: Tree)
    requires Repr(nodes, t) && forall n: Node :: n in Ids(t) ==> SameNode(nodes, now, n)
    ensures Repr(now, t)
  {
    LeafIds(t);
    assert SameNode(nodes, now, t.id);
    if t.Inner? {
      ReprFrame(nodes, now, t.left);
      ReprFrame(nodes, now, t.right);
    }
  }

  lemma {:induction false} ReprUnder(nodes: seq<Rec>, t: Tree, k: int, a: Node)
    requires Repr(nodes, t) && OnWay(t, k, a)
    ensures Repr(nodes, Under(t, k, a))
  {
    if t.id != a { ReprUnder(nodes, Kid(t, k), k, a); }
  }

  /** An edge of a, in k's direction, is turned to sub. */
  ghost predicate Turned(nodes: seq<Rec>, now: seq<Rec>, k: int, a: Node, to: Node) {
    && a < |nodes| <= |now| && now[a].key == nodes[a].key && now[a].val == nodes[a].val
    && var side := Side(nodes, a, k);
    && Out(now, a, side).to == Some(to) && Out(now, a, !side).to == Out(nodes, a, !side).to
    && forall n: Node :: n < |nodes| && n != a ==> SameNode(nodes, now, n)
  }

  lemma {:induction false} ReplaceRepr(nodes: seq<Rec>, now: seq<Rec>, t: Tree, k: int, a: Node, sub: Tree)
    requires Repr(nodes, t) && NoDup(t) && OnWay(t, k, a) && Turned(nodes, now, k, a, sub.id) && Repr(now, sub)
    ensures Repr(now, Replace(t, k, a, sub))
  {
    var other := if GoesLeft(k, t.key) then t.right else t.left;
    var kid := Kid(t, k);
    assert a !in Ids(other) by {
      if t.id != a { OnWayIds(kid, k, a); }
    }
    forall n | n in Ids(other) ensures SameNode(nodes, now, n) { ReprMember(nodes, other, n); }
    ReprFrame(nodes, now, other);
    if t.id != a {
      assert SameNode(nodes, now, t.id);
      ReplaceRepr(nodes, now, kid, k, a, sub);
      ReplaceRoot(kid, k, a, sub);
    }
  }

  lemma ReplaceRoot(t: Tree, k: int, a: Node, sub: Tree)
    requires OnWay(t, k, a)
    ensures Replace(t, k, a, sub).id == t.id && Replace(t, k, a, sub).key == t.key && Replace(t, k, a, sub).Inner?
  {
  }

  // ---------------------------------------------------------------- parents

  lemma {:induction false} ChildInside(nodes: seq<Rec>, t: Tree, n: Node, left: bool)
    requires Repr(nodes, t) && n in Ids(t) && NoDup(t) && IsInner(nodes, n)
    ensures var e := Out(nodes, n, left); e.to.Some? && e.to.value in Ids(t) && e.to.value != t.id
  {
    if t.Inner? {
      LeafIds(t.left);
      LeafIds(t.right);
      if n != t.id { ChildInside(nodes, if n in Ids(t.left) then t.left else t.right, n, left); }
    }
  }

  /** In the tree, a node has one parent. */
  lemma {:induction false} OneParent(nodes: seq<Rec>, t: Tree, n: Node, a: bool, m: Node, b: bool)
    requires Repr(nodes, t) && NoDup(t) && n in Ids(t) && m in Ids(t) && IsInner(nodes, n) && IsInner(nodes, m)
    requires Out(nodes, n, a).to == Out(nodes, m, b).to
    ensures n == m && a == b
  {
    if t.Inner? {
      LeafIds(t.left);
      LeafIds(t.right);
      if n != t.id { ChildInside(nodes, if n in Ids(t.left) then t.left else t.right, n, a); }
      if m != t.id { ChildInside(nodes, if m in Ids(t.left) then t.left else t.right, m, b); }
      if n != t.id && m != t.id {
        assert n in Ids(t.left) <==> m in Ids(t.left);
        OneParent(nodes, if n in Ids(t.left) then t.left else t.right, n, a, m, b);
      }
    }
  }

  /** A node of the tree that is a leaf of the heap is a leaf of the tree. */
  lemma {:induction false} LeafInTree(nodes: seq<Rec>, t: Tree, n: Node)
    requires Repr(nodes, t) && n in Ids(t) && IsLeaf(nodes, n)
    ensures Leaf(n, nodes[n].key, nodes[n].val) in Leaves(t)
  {
    if t.Inner? { LeafInTree(nodes, if n in Ids(t.left) then t.left else t.right, n); }
  }

  lemma {:induction false} LeavesLabelled(nodes: seq<Rec>, t: Tree)
    requires Repr(nodes, t)
    ensures Labelled(nodes, t)
  {
    if t.Inner? {
      LeavesLabelled(nodes, t.left);
      LeavesLabelled(nodes, t.right);
    }
  }

  // ---------------------------------------------------------------- marks

  /** Marks on one edge change, nothing else: the tree is the same. */
  lemma Remark(nodes: seq<Rec>, t: Tree, n: Node, side: bool, flag: bool, tag: bool)
    requires Repr(nodes, t) && n < |nodes| && IsInner(nodes, n)
    requires var e := Out(nodes, n, side); (Marked(e) ==> flag == e.flag) && (e.tag ==> tag)
    ensures var now := SetOut(nodes, n, side, Edge(Out(nodes, n, side).to, flag, tag));
            Repr(now, t) && Evolves(nodes, t, now, t)
  {
    var now := SetOut(nodes, n, side, Edge(Out(nodes, n, side).to, flag, tag));
    forall m | m in Ids(t) ensures SameNode(nodes, now, m) { ReprMember(nodes, t, m); }
    ReprFrame(nodes, now, t);
  }

  lemma TagHeap(nodes: seq<Rec>, n: Node, side: bool)
    requires Heap(nodes) && IsInner(nodes, n) && Out(nodes, n, !side).flag
    ensures var e := Out(nodes, n, side); Heap(SetOut(nodes, n, side, Edge(e.to, e.flag, true)))
  {
    var e := Out(nodes, n, side);
    var now := SetOut(nodes, n, side, Edge(e.to, e.flag, true));
    forall m: Node | m < |now| ensures RecOk(now, m) { assert RecOk(nodes, m); }
  }

  lemma TagKeeps(nodes: seq<Rec>, t: Tree, taken: set<Node>, n: Node, side: bool)
    requires TreeInv(nodes, t, taken) && IsInner(nodes, n) && Out(nodes, n, !side).flag
    ensures var e := Out(nodes, n, side);
            var now := SetOut(nodes, n, side, Edge(e.to, e.flag, true));
            TreeInv(now, t, taken) && Evolves(nodes, t, now, t)
  {
    hide Heap, Repr, NoDup, Ordered, TopShape, Evolves, Ids;
    var e := Out(nodes, n, side);
    var now := SetOut(nodes, n, side, Edge(e.to, e.flag, true));
    Remark(nodes, t, n, side, e.flag, true);
    TagHeap(nodes, n, side);
    forall m: Node | m < |now|
      ensures EdgeTaken(now, Ids(t), taken, m, true) && EdgeTaken(now, Ids(t), taken, m, false)
    {
      assert EdgeTaken(nodes, Ids(t), taken, m, true) && EdgeTaken(nodes, Ids(t), taken, m, false);
    }
    forall m: Node | IsInner(now, m) && m !in Ids(t) ensures BothMarked(now, m) { assert BothMarked(nodes, m); }
  }

  lemma FlagHeap(nodes: seq<Rec>, n: Node, side: bool, leaf: Node)
    requires Heap(nodes) && IsInner(nodes, n) && Out(nodes, n, side) == Edge(Some(leaf), false, false)
    requires IsLeaf(nodes, leaf) && nodes[leaf].key.Fin?
    ensures Heap(SetOut(nodes, n, side, Edge(Some(leaf), true, false)))
  {
    var now := SetOut(nodes, n, side, Edge(Some(leaf), true, false));
    forall m: Node | m < |now| ensures RecOk(now, m) { assert RecOk(nodes, m); }
  }

  lemma FlagKeeps(nodes: seq<Rec>, t: Tree, taken: set<Node>, n: Node, side: bool, leaf: Node)
    requires TreeInv(nodes, t, taken) && IsInner(nodes, n) && Out(nodes, n, side) == Edge(Some(leaf), false, false)
    requires IsLeaf(nodes, leaf) && nodes[leaf].key.Fin?
    ensures var now := SetOut(nodes, n, side, Edge(Some(leaf), true, false));
            TreeInv(now, t, taken + {leaf}) && Evolves(nodes, t, now, t)
    ensures n in Ids(t) && leaf in Ids(t) && leaf !in taken
  {
    hide Heap, Repr, NoDup, Ordered, TopShape, Evolves, Ids;
    var now := SetOut(nodes, n, side, Edge(Some(leaf), true, false));
    Remark(nodes, t, n, side, true, false);
    FlagHeap(nodes, n, side, leaf);
    assert n in Ids(t) by { assert !BothMarked(nodes, n); }
    ChildInside(nodes, t, n, side);
    assert EdgeTaken(nodes, Ids(t), taken, n, side);
    forall m: Node, b: bool | m < |now| ensures EdgeTaken(now, Ids(t), taken + {leaf}, m, b) {
      assert EdgeTaken(nodes, Ids(t), taken, m, b);
      if m in Ids(t) && Out(nodes, m, b).to == Some(leaf) {
        NotNil(nodes, m, b);
        OneParent(nodes, t, n, side, m, b);
      }
    }
    forall m: Node | IsInner(now, m) && m !in Ids(t) ensures BothMarked(now, m) { assert BothMarked(nodes, m); }
  }

  lemma NotNil(nodes: seq<Rec>, m: Node, b: bool)
    requires Heap(nodes) && m < |nodes| && Out(nodes, m, b).to.Some?
    ensures IsInner(nodes, m)
  {
    assert RecOk(nodes, m);
  }
}
