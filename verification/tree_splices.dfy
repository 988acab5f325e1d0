/** Inserting a leaf, and splicing out a tagged part, turn the heap of one search tree into the heap of another. */
module TreeSplices {
  import opened Options
  import opened TreeShapes
  import opened TreeModel
  import opened TreeInvariant
  import opened TreeFrames
  import opened TreeUpdates

  // ---------------------------------------------------------------- inserting

  function InsertedHeap(nodes: seq<Rec>, k: int, val: Value, par: Node, leaf: Node): seq<Rec>
    requires par < |nodes| && leaf < |nodes|
  {
    SetOut(nodes, par, Side(nodes, par, k), Edge(Some(|nodes| + 1), false, false))
      + [Rec(Fin(k), Some(val), NIL, NIL), NewInner(nodes, k, leaf)]
  }

  /** k's edge out of the inner node par leads to the leaf, and is not marked. */
  ghost predicate Loose(nodes: seq<Rec>, k: int, par: Node, leaf: Node) {
    IsInner(nodes, par) && IsLeaf(nodes, leaf) && Out(nodes, par, Side(nodes, par, k)) == Edge(Some(leaf), false, false)
  }

  lemma InsertHeap(nodes: seq<Rec>, k: int, val: Value, par: Node, leaf: Node)
    requires Heap(nodes) && Loose(nodes, k, par, leaf)
    ensures Heap(InsertedHeap(nodes, k, val, par, leaf)) && NodesKept(nodes, InsertedHeap(nodes, k, val, par, leaf))
  {
    var now := InsertedHeap(nodes, k, val, par, leaf);
    assert RecOk(nodes, par) && RecOk(nodes, leaf);
    forall m: Node | m < |now| ensures RecOk(now, m) {
      if m < |nodes| { assert RecOk(nodes, m); }
    }
  }

  lemma NewPartTree(nodes: seq<Rec>, k: int, val: Value, par: Node, leaf: Node)
    requires Heap(nodes) && Loose(nodes, k, par, leaf) && nodes[leaf].key != Fin(k)
    ensures var sub := NewPart(nodes, k, val, leaf);
            && Repr(InsertedHeap(nodes, k, val, par, leaf), sub) && NoDup(sub) && Ordered(sub)
            && Ids(sub) == {|nodes|, |nodes| + 1, leaf}
            && Leaves(sub) == {Leaf(|nodes|, Fin(k), Some(val)), Leaf(leaf, nodes[leaf].key, nodes[leaf].val)}
  {
    var now := InsertedHeap(nodes, k, val, par, leaf);
    assert now[|nodes|] == Rec(Fin(k), Some(val), NIL, NIL) && now[|nodes| + 1] == NewInner(nodes, k, leaf);
    assert now[leaf] == nodes[leaf];
    LessTotal(Fin(k), nodes[leaf].key);
  }

  lemma LessTotal(a: Key, b: Key)
    requires a != b
    ensures Less(a, b) <==> !Less(b, a)
  {
  }

  lemma InsertTurns(nodes: seq<Rec>, k: int, val: Value, par: Node, leaf: Node)
    requires Loose(nodes, k, par, leaf)
    ensures Turned(nodes, InsertedHeap(nodes, k, val, par, leaf), k, par, |nodes| + 1)
  {
  }

  /** Where the leaf hangs: the place below par, on k's way. */
  lemma LooseUnder(nodes: seq<Rec>, t: Tree, k: int, par: Node, leaf: Node)
    requires Repr(nodes, t) && OnWay(t, k, par) && Loose(nodes, k, par, leaf)
    ensures Under(t, k, par) == Leaf(leaf, nodes[leaf].key, nodes[leaf].val)
    ensures WayEnd(t, k) == Leaf(leaf, nodes[leaf].key, nodes[leaf].val)
    ensures leaf in Ids(t)
  {
    hide Repr, OnWay, Ids;
    WayGoesOn(nodes, t, k, par);
    ReprUnder(nodes, t, k, par);
    UnderWayEnd(t, k, par);
    LeafRepr(nodes, Under(t, k, par));
  }

  lemma LeafRepr(nodes: seq<Rec>, t: Tree)
    requires Repr(nodes, t) && IsLeaf(nodes, t.id)
    ensures t == Leaf(t.id, nodes[t.id].key, nodes[t.id].val) && WayEnd(t, 0) == t && forall k :: WayEnd(t, k) == t
  {
  }

  /** Below the two topmost nodes every way goes left, and left again at the third unless it is a leaf. */
  lemma TopReplace(t: Tree, k: int, a: Node, sub: Tree)
    requires TopShape(t) && OnWay(t, k, a) && a != ROOT
    ensures var x := t.left.left;
            if a == TOP then Under(t, k, a) == x && Replace(t, k, a, sub) == t.(left := t.left.(left := sub))
            else
              && x.Inner? && OnWay(x, k, a) && Under(t, k, a) == Under(x, k, a)
              && Replace(t, k, a, sub) == t.(left := t.left.(left := Replace(x, k, a, sub)))
              && Replace(x, k, a, sub).Inner? && Replace(x, k, a, sub).right == x.right
              && Replace(x, k, a, sub).key == x.key
  {
    var top := t.left;
    var x := top.left;
    assert Kid(t, k) == top && Kid(top, k) == x;
    assert OnWay(top, k, a);
    if a != TOP {
      assert OnWay(x, k, a);
      assert GoesLeft(k, x.key);
    }
  }

  lemma InsertTop(nodes: seq<Rec>, t: Tree, k: int, val: Value, par: Node, leaf: Node)
    requires TopShape(t) && Repr(nodes, t) && OnWay(t, k, par) && Loose(nodes, k, par, leaf)
    ensures TopShape(Replace(t, k, par, NewPart(nodes, k, val, leaf)))
  {
    hide OnWay, Replace, Under;
    LooseUnder(nodes, t, k, par, leaf);
    assert par != ROOT by { RootUnder(t, k); }
    TopReplace(t, k, par, NewPart(nodes, k, val, leaf));
  }

  lemma RootUnder(t: Tree, k: int)
    requires TopShape(t)
    ensures OnWay(t, k, ROOT) && Under(t, k, ROOT) == t.left && t.left.Inner?
  {
  }

  lemma InsertFlags(nodes: seq<Rec>, ids: set<Node>, taken: set<Node>, k: int, val: Value, par: Node, leaf: Node)
    requires FlagsTaken(nodes, ids, taken) && DeadMarked(nodes, ids) && Loose(nodes, k, par, leaf)
    ensures FlagsTaken(InsertedHeap(nodes, k, val, par, leaf), ids + {|nodes|, |nodes| + 1}, taken)
    ensures DeadMarked(InsertedHeap(nodes, k, val, par, leaf), ids + {|nodes|, |nodes| + 1})
    ensures par in ids
  {
    var now := InsertedHeap(nodes, k, val, par, leaf);
    var more := ids + {|nodes|, |nodes| + 1};
    assert EdgeTaken(nodes, ids, taken, par, true) && EdgeTaken(nodes, ids, taken, par, false);
    assert par in ids by { assert !BothMarked(nodes, par); }
    forall m: Node, b: bool | m < |now| ensures EdgeTaken(now, more, taken, m, b) {
      if m < |nodes| { assert EdgeTaken(nodes, ids, taken, m, b); }
    }
    forall m: Node | IsInner(now, m) && m !in more ensures BothMarked(now, m) { assert BothMarked(nodes, m); }
  }

  lemma InsertEvolves(nodes: seq<Rec>, t: Tree, k: int, val: Value, par: Node, leaf: Node)
    requires Heap(nodes) && Repr(nodes, t) && NoDup(t) && OnWay(t, k, par) && Loose(nodes, k, par, leaf)
    requires var u := Replace(t, k, par, NewPart(nodes, k, val, leaf)); Ids(u) == Ids(t) + {|nodes|, |nodes| + 1}
    ensures Evolves(nodes, t, InsertedHeap(nodes, k, val, par, leaf), Replace(t, k, par, NewPart(nodes, k, val, leaf)))
  {
    hide Repr, NoDup, OnWay, Replace, Under, Ids, Heap, NodesKept;
    InsertHeap(nodes, k, val, par, leaf);
    var sub := NewPart(nodes, k, val, leaf);
    var u := Replace(t, k, par, sub);
    LooseUnder(nodes, t, k, par, leaf);
    OnWayIds(t, k, par);
    forall j, n: Node | IsInner(nodes, n) && n in Ids(u) && OnWay(t, j, n) ensures OnWay(u, j, n) {
      OneId(Under(t, k, par));
      ReplaceKeepsWays(t, k, par, sub, j, n);
    }
  }

  lemma OneId(t: Tree)
    requires t.Leaf?
    ensures Ids(t) == {t.id} && Leaves(t) == {t}
  {
  }

  lemma InsertKeeps(nodes: seq<Rec>, t: Tree, taken: set<Node>, k: int, val: Value, par: Node, leaf: Node)
    requires TreeInv(nodes, t, taken) && OnWay(t, k, par) && Loose(nodes, k, par, leaf) && nodes[leaf].key != Fin(k)
    ensures var now := InsertedHeap(nodes, k, val, par, leaf);
            var u := Replace(t, k, par, NewPart(nodes, k, val, leaf));
            && TreeInv(now, u, taken) && Evolves(nodes, t, now, u)
            && !Has(t, k) && Leaves(u) == Leaves(t) + {Leaf(|nodes|, Fin(k), Some(val))}
            && Ids(u) == Ids(t) + {|nodes|, |nodes| + 1}
  {
    hide Heap, Repr, NoDup, Ordered, TopShape, Evolves, Ids, Leaves, DeadMarked, FlagsTaken, OnWay, Replace, Under,
         NewPart, Has, InsertedHeap;
    var now := InsertedHeap(nodes, k, val, par, leaf);
    var sub := NewPart(nodes, k, val, leaf);
    var u := Replace(t, k, par, sub);
    var y := Leaf(leaf, nodes[leaf].key, nodes[leaf].val);
    InsertHeap(nodes, k, val, par, leaf);
    NewPartTree(nodes, k, val, par, leaf);
    LooseUnder(nodes, t, k, par, leaf);
    OneId(y);
    IdsBelow(nodes, t);
    UnderIds(t, k, par);
    ReplaceIds(t, k, par, sub);
    ReplaceLeaves(t, k, par, sub);
    ReplaceOrdered(t, k, par, sub);
    InsertTurns(nodes, k, val, par, leaf);
    NewPartId(nodes, k, val, leaf);
    ReplaceRepr(nodes, now, t, k, par, sub);
    assert Ids(u) == Ids(t) + {|nodes|, |nodes| + 1};
    InsertFlags(nodes, Ids(t), taken, k, val, par, leaf);
    InsertTop(nodes, t, k, val, par, leaf);
    InsertEvolves(nodes, t, k, val, par, leaf);
    NotThere(t, k);
    assert Leaves(u) == Leaves(t) + {Leaf(|nodes|, Fin(k), Some(val))};
  }

  lemma NewPartId(nodes: seq<Rec>, k: int, val: Value, leaf: Node)
    requires leaf < |nodes|
    ensures NewPart(nodes, k, val, leaf).id == |nodes| + 1
  {
  }

  lemma IdsBelow(nodes: seq<Rec>, t: Tree)
    requires Repr(nodes, t)
    ensures forall n :: n in Ids(t) ==> n < |nodes|
  {
    hide Repr, Ids;
    forall n | n in Ids(t) ensures n < |nodes| { ReprMember(nodes, t, n); }
  }

  /** In search order, what is not at the end of k's way is not in the tree. */
  lemma NotThere(t: Tree, k: int)
    requires Ordered(t) && WayEnd(t, k).key != Fin(k)
    ensures !Has(t, k)
  {
    if Has(t, k) {
      var x :| x in Leaves(t) && x.key == Fin(k);
      FoundAtWayEnd(t, k, x);
    }
  }

  // ---------------------------------------------------------------- splicing out

  /** The tagged path via leads down to its last node; the side to keep there is tagged, the other one flagged. */
  ghost predicate Doomed(nodes: seq<Rec>, k: int, via: seq<Node>, side: bool) {
    && via != [] && ViaOk(nodes, k, via)
    && var par := via[|via| - 1];
    && IsInner(nodes, par) && Out(nodes, par, !side).flag && Out(nodes, par, side).tag
  }

  lemma DoomedTail(nodes: seq<Rec>, k: int, via: seq<Node>, side: bool)
    requires Doomed(nodes, k, via, side) && |via| > 1
    ensures Doomed(nodes, k, via[1..], side) && via[1..][|via| - 2] == via[|via| - 1]
    ensures TagStep(nodes, k, via[0], via[1])
  {
    hide TagStep;
    var rest := via[1..];
    forall i, j | 0 <= i && j == i + 1 && j < |rest| ensures TagStep(nodes, k, rest[i], rest[j]) {
      assert TagStep(nodes, k, via[i + 1], via[j + 1]);
    }
  }

  lemma {:induction false} DoomedWay(nodes: seq<Rec>, u: Tree, k: int, via: seq<Node>, side: bool)
    requires Heap(nodes) && Repr(nodes, u) && Doomed(nodes, k, via, side) && u.id == via[0]
    ensures OnWay(u, k, via[|via| - 1])
    decreases |via|
  {
    if |via| > 1 {
      DoomedTail(nodes, k, via, side);
      assert RecOk(nodes, u.id);
      DoomedWay(nodes, Kid(u, k), k, via[1..], side);
    }
  }

  /** A flagged edge leads to a leaf that is taken. */
  lemma FlaggedKid(nodes: seq<Rec>, ids: set<Node>, taken: set<Node>, u: Tree, left: bool)
    requires Heap(nodes) && Repr(nodes, u) && u.Inner? && FlagsTaken(nodes, ids, taken) && Out(nodes, u.id, left).flag
    ensures var x := if left then u.left else u.right; x.Leaf? && x.id in taken
  {
    assert RecOk(nodes, u.id) && EdgeTaken(nodes, ids, taken, u.id, left);
  }

  /** What a splice takes out: inner nodes marked on both sides, and leaves that are taken. What it keeps hangs below
      the last node of the path. */
  lemma {:induction false} SpliceRemoves(nodes: seq<Rec>, u: Tree, ids: set<Node>, taken: set<Node>, k: int,
                                         via: seq<Node>, side: bool)
    requires Heap(nodes) && Repr(nodes, u) && FlagsTaken(nodes, ids, taken) && Doomed(nodes, k, via, side)
    requires u.id == via[0]
    requires OnWay(u, k, via[|via| - 1])
    ensures var sub := Kept(u, k, via[|via| - 1], side);
            && Repr(nodes, sub) && Out(nodes, via[|via| - 1], side).to == Some(sub.id)
            && (sub.Inner? ==> u.id < sub.id)
            && forall n :: n in Ids(u) && n !in Ids(sub) ==>
                 n < |nodes| && (IsInner(nodes, n) ==> BothMarked(nodes, n)) && (IsLeaf(nodes, n) ==> n in taken)
    decreases |via|
  {
    var par := via[|via| - 1];
    assert u.Inner? && RecOk(nodes, u.id);
    if |via| == 1 {
      FlaggedKid(nodes, ids, taken, u, !side);
      var other := if side then u.right else u.left;
      OneId(other);
    } else {
      DoomedTail(nodes, k, via, side);
      var b := Side(nodes, u.id, k);
      assert EdgeOk(nodes, u.id, b) && Out(nodes, u.id, b).tag;
      FlaggedKid(nodes, ids, taken, u, !b);
      var other := if b then u.right else u.left;
      OneId(other);
      if u.id == par {
        DoomedBigger(nodes, k, via, side);
      }
      SpliceRemoves(nodes, Kid(u, k), ids, taken, k, via[1..], side);
    }
  }

  /** Inner nodes are younger the further down they are. */
  lemma {:induction false} DoomedBigger(nodes: seq<Rec>, k: int, via: seq<Node>, side: bool)
    requires Heap(nodes) && Doomed(nodes, k, via, side) && |via| > 1
    ensures via[0] < via[|via| - 1]
    decreases |via|
  {
    DoomedTail(nodes, k, via, side);
    assert RecOk(nodes, via[0]);
    if |via| > 2 {
      DoomedTail(nodes, k, via[1..], side);
      assert RecOk(nodes, via[1]);
      DoomedBigger(nodes, k, via[1..], side);
    }
  }

  /** The edge of anc that the splice turns is not marked, and leads to the path. */
  ghost predicate Poised(nodes: seq<Rec>, k: int, anc: Node, via: seq<Node>, side: bool, sib: Edge) {
    && via != [] && Doomed(nodes, k, via, side) && IsInner(nodes, anc)
    && Out(nodes, anc, Side(nodes, anc, k)) == Edge(Some(via[0]), false, false)
    && Out(nodes, via[|via| - 1], side) == Edge(sib.to, sib.flag, true) && !sib.tag
  }

  function SplicedHeap(nodes: seq<Rec>, k: int, anc: Node, sib: Edge): seq<Rec>
    requires anc < |nodes|
  {
    SetOut(nodes, anc, Side(nodes, anc, k), sib)
  }

  lemma SpliceHeap(nodes: seq<Rec>, k: int, anc: Node, via: seq<Node>, side: bool, sib: Edge)
    requires Heap(nodes) && Poised(nodes, k, anc, via, side, sib)
    requires sib.to.Some? && (IsInner(nodes, sib.to.value) ==> via[0] < sib.to.value)
    ensures Heap(SplicedHeap(nodes, k, anc, sib)) && NodesKept(nodes, SplicedHeap(nodes, k, anc, sib))
  {
    hide ViaOk;
    var now := SplicedHeap(nodes, k, anc, sib);
    DoomedInner(nodes, k, via, side);
    assert RecOk(nodes, anc) && RecOk(nodes, via[|via| - 1]);
    forall m: Node | m < |now| ensures RecOk(now, m) { assert RecOk(nodes, m); }
  }

  lemma DoomedInner(nodes: seq<Rec>, k: int, via: seq<Node>, side: bool)
    requires Heap(nodes) && Doomed(nodes, k, via, side)
    ensures IsInner(nodes, via[0])
  {
    if |via| > 1 {
      DoomedTail(nodes, k, via, side);
      assert RecOk(nodes, via[0]);
    }
  }

  lemma SpliceTurns(nodes: seq<Rec>, k: int, anc: Node, sib: Edge)
    requires IsInner(nodes, anc) && sib.to.Some?
    ensures Turned(nodes, SplicedHeap(nodes, k, anc, sib), k, anc, sib.to.value)
  {
  }

  lemma SpliceFlags(nodes: seq<Rec>, ids: set<Node>, rest: set<Node>, taken: set<Node>, k: int, anc: Node, par: Node,
                    side: bool, sib: Edge)
    requires FlagsTaken(nodes, ids, taken) && DeadMarked(nodes, ids) && rest <= ids && IsInner(nodes, anc)
    requires anc in rest && par in ids && par < |nodes|
    requires Out(nodes, par, side) == Edge(sib.to, sib.flag, true) && sib.to.Some?
    requires forall n :: n in ids && n !in rest ==> IsInner(nodes, n) ==> BothMarked(nodes, n)
    ensures FlagsTaken(SplicedHeap(nodes, k, anc, sib), rest, taken)
    ensures DeadMarked(SplicedHeap(nodes, k, anc, sib), rest)
  {
    var now := SplicedHeap(nodes, k, anc, sib);
    assert EdgeTaken(nodes, ids, taken, par, side);
    forall m: Node, b: bool | m < |now| ensures EdgeTaken(now, rest, taken, m, b) {
      assert EdgeTaken(nodes, ids, taken, m, b);
    }
    forall m: Node | IsInner(now, m) && m !in rest ensures BothMarked(now, m) { assert BothMarked(nodes, m); }
  }

  /** The edges between the sentinels are never flagged, so nothing of them is ever spliced out. */
  lemma TopFlags(nodes: seq<Rec>, t: Tree)
    requires Heap(nodes) && Repr(nodes, t) && TopShape(t)
    ensures IsInner(nodes, ROOT) && IsInner(nodes, TOP)
    ensures !Marked(nodes[TOP].left) && !Marked(nodes[TOP].right)
    ensures nodes[TOP].left.to.value < |nodes| && nodes[nodes[TOP].left.to.value].key == Inf(0)
    ensures var x := t.left.left;
            && x.id < |nodes|
            && (x.Leaf? ==> IsLeaf(nodes, x.id))
            && (x.Inner? ==> !nodes[x.id].right.flag && !nodes[x.id].left.tag)
  {
    var x := t.left.left;
    assert Repr(nodes, t.left) && Repr(nodes, x) && Repr(nodes, t.left.right);
    assert RecOk(nodes, TOP);
    assert EdgeOk(nodes, TOP, true) && EdgeOk(nodes, TOP, false);
    assert RecOk(nodes, x.id);
    if x.Inner? {
      assert Repr(nodes, x.right);
      assert EdgeOk(nodes, x.id, true) && EdgeOk(nodes, x.id, false);
    }
  }

  lemma SpliceTop(nodes: seq<Rec>, t: Tree, k: int, anc: Node, via: seq<Node>, side: bool)
    requires Heap(nodes) && Repr(nodes, t) && TopShape(t) && OnWay(t, k, anc) && Doomed(nodes, k, via, side)
    requires Under(t, k, anc).id == via[0] && OnWay(Under(t, k, anc), k, via[|via| - 1])
    ensures TopShape(Replace(t, k, anc, Kept(Under(t, k, anc), k, via[|via| - 1], side)))
  {
    hide OnWay, Replace, Under, Heap, Repr, ViaOk, Kept;
    TopFlags(nodes, t);
    RootUnder(t, k);
    var u := Under(t, k, anc);
    var sub := Kept(u, k, via[|via| - 1], side);
    if |via| > 1 { DoomedTail(nodes, k, via, side); }
    DoomedInner(nodes, k, via, side);
    TopSides(nodes, t, k);
    assert anc != ROOT;
    TopReplace(t, k, anc, sub);
    if anc == TOP {
      assert |via| == 1;
      KeptHere(u, k, side);
    }
  }

  lemma KeptHere(u: Tree, k: int, side: bool)
    requires OnWay(u, k, u.id)
    ensures u.Inner? && Kept(u, k, u.id, side) == if side then u.left else u.right
  {
  }

  lemma TopSides(nodes: seq<Rec>, t: Tree, k: int)
    requires Repr(nodes, t) && TopShape(t)
    ensures TOP < |nodes| && t.left.left.id < |nodes| && Side(nodes, TOP, k) && Side(nodes, t.left.left.id, k)
  {
    assert Repr(nodes, t.left) && Repr(nodes, t.left.left);
  }

  lemma SpliceEvolves(nodes: seq<Rec>, t: Tree, k: int, anc: Node, par: Node, side: bool, sib: Edge)
    requires Repr(nodes, t) && NoDup(t) && IsInner(nodes, anc) && NodesKept(nodes, SplicedHeap(nodes, k, anc, sib))
    requires OnWay(t, k, anc) && OnWay(Under(t, k, anc), k, par)
    requires var u := Under(t, k, anc); var sub := Kept(u, k, par, side);
             Ids(Replace(t, k, anc, sub)) == (Ids(t) - Ids(u)) + Ids(sub) && Ids(sub) <= Ids(u) && anc !in Ids(u) &&
               NoDup(u)
    ensures Evolves(nodes, t, SplicedHeap(nodes, k, anc, sib), Replace(t, k, anc, Kept(Under(t, k, anc), k, par, side)))
  {
    hide Repr, NoDup, OnWay, Replace, Under, Ids, NodesKept, Kept;
    var u := Under(t, k, anc);
    var sub := Kept(u, k, par, side);
    var v := Replace(t, k, anc, sub);
    UnderIds(t, k, anc);
    forall j, n: Node | IsInner(nodes, n) && n in Ids(v) && OnWay(t, j, n) ensures OnWay(v, j, n) {
      if n in Ids(u) {
        WayUnder(t, k, anc, j, n);
        KeptWays(u, k, par, side, j, n);
        ReplaceWaysInto(t, k, anc, sub, j, n);
      } else {
        ReplaceKeepsWays(t, k, anc, sub, j, n);
      }
    }
  }

  /** A splice keeps the search tree; all it takes from the leaves are taken ones. */
  lemma SpliceKeeps(nodes: seq<Rec>, t: Tree, taken: set<Node>, k: int, anc: Node, via: seq<Node>, side: bool,
                    sib: Edge)
    requires TreeInv(nodes, t, taken) && OnWay(t, k, anc) && Poised(nodes, k, anc, via, side, sib)
    ensures OnWay(Under(t, k, anc), k, via[|via| - 1])
    ensures var now := SplicedHeap(nodes, k, anc, sib);
            var v := Replace(t, k, anc, Kept(Under(t, k, anc), k, via[|via| - 1], side));
            && TreeInv(now, v, taken) && Evolves(nodes, t, now, v)
            && Leaves(v) <= Leaves(t)
            && (forall x :: x in Leaves(t) - Leaves(v) ==> x.id in taken)
            && Ids(v) == (Ids(t) - Ids(Under(t, k, anc))) + Ids(Kept(Under(t, k, anc), k, via[|via| - 1], side))
            && Ids(v) <= Ids(t)
  {
    hide Heap, Repr, NoDup, Ordered, TopShape, Evolves, Ids, Leaves, DeadMarked, FlagsTaken, OnWay, Replace, Under,
         Kept, Doomed, SplicedHeap;
    var par := via[|via| - 1];
    var u := Under(t, k, anc);
    WayGoesOn(nodes, t, k, anc);
    ReprUnder(nodes, t, k, anc);
    DoomedWay(nodes, u, k, via, side);
    UnderIds(t, k, anc);
    var sub := Kept(u, k, par, side);
    KeptParts(u, k, par, side);
    SpliceRemoves(nodes, u, Ids(t), taken, k, via, side);
    SpliceHeap(nodes, k, anc, via, side, sib) by { KeptInner(nodes, sub); }
    var now := SplicedHeap(nodes, k, anc, sib);
    var v := Replace(t, k, anc, sub);
    ReplaceIds(t, k, anc, sub);
    ReplaceLeaves(t, k, anc, sub);
    ReplaceOrdered(t, k, anc, sub);
    SpliceRepr(nodes, t, k, anc, sub, sib);
    SpliceTop(nodes, t, k, anc, via, side);
    OnWayIds(u, k, par);
    SpliceFlags(nodes, Ids(t), Ids(v), taken, k, anc, par, side, sib);
    SpliceEvolves(nodes, t, k, anc, par, side, sib);
    SplicedLeaves(nodes, t, u, sub, v, taken);
  }

  lemma KeptInner(nodes: seq<Rec>, sub: Tree)
    requires Repr(nodes, sub)
    ensures IsInner(nodes, sub.id) <==> sub.Inner?
  {
  }

  lemma SpliceRepr(nodes: seq<Rec>, t: Tree, k: int, anc: Node, sub: Tree, sib: Edge)
    requires Repr(nodes, t) && NoDup(t) && OnWay(t, k, anc) && IsInner(nodes, anc) && Repr(nodes, sub)
    requires sib.to == Some(sub.id) && anc !in Ids(sub)
    ensures Repr(SplicedHeap(nodes, k, anc, sib), Replace(t, k, anc, sub))
  {
    hide Repr, NoDup, OnWay, Replace, Ids;
    var now := SplicedHeap(nodes, k, anc, sib);
    SpliceTurns(nodes, k, anc, sib);
    forall n | n in Ids(sub) ensures SameNode(nodes, now, n) { ReprMember(nodes, sub, n); }
    ReprFrame(nodes, now, sub);
    ReplaceRepr(nodes, now, t, k, anc, sub);
  }

  lemma SplicedLeaves(nodes: seq<Rec>, t: Tree, u: Tree, sub: Tree, v: Tree, taken: set<Node>)
    requires Repr(nodes, u) && Leaves(v) == (Leaves(t) - Leaves(u)) + Leaves(sub)
    requires Leaves(sub) <= Leaves(u) <= Leaves(t) && Repr(nodes, sub)
    requires forall n :: n in Ids(u) && n !in Ids(sub) ==> n < |nodes| && (IsLeaf(nodes, n) ==> n in taken)
    ensures Leaves(v) <= Leaves(t) && forall x :: x in Leaves(t) - Leaves(v) ==> x.id in taken
  {
    hide Repr, Ids, Leaves;
    LeavesLabelled(nodes, u);
    LeafIds(u);
    forall x | x in Leaves(t) - Leaves(v) ensures x.id in taken {
      assert x in Leaves(u) && x !in Leaves(sub);
      if x.id in Ids(sub) { LeafInTree(nodes, sub, x.id); }
    }
  }

  /** To keep the side that k does not take is to drop all on the side that it takes. */
  lemma {:induction false} KeptDrops(nodes: seq<Rec>, t: Tree, k: int, p: Node)
    requires Repr(nodes, t) && NoDup(t) && OnWay(t, k, p) && p < |nodes|
    ensures Ids(Kept(t, k, p, !Side(nodes, p, k))) !! Ids(Under(t, k, p))
    ensures Ids(Under(t, k, p)) <= Ids(t)
  {
    if t.id != p { KeptDrops(nodes, Kid(t, k), k, p); }
  }

  /** A leaf that is taken goes with its parent, when k's own side is the flagged one. */
  lemma OwnLeafGoes(nodes: seq<Rec>, t: Tree, k: int, anc: Node, par: Node, leaf: Node)
    requires Repr(nodes, t) && NoDup(t) && OnWay(t, k, anc) && OnWay(Under(t, k, anc), k, par)
    requires par < |nodes| && Out(nodes, par, Side(nodes, par, k)).to == Some(leaf)
    ensures leaf in Ids(t) && leaf in Ids(Under(t, k, anc))
    ensures leaf !in (Ids(t) - Ids(Under(t, k, anc))) + Ids(Kept(Under(t, k, anc), k, par, !Side(nodes, par, k)))
  {
    hide Repr, NoDup, OnWay, Under, Kept, Ids;
    var u := Under(t, k, anc);
    UnderIds(t, k, anc);
    ReprUnder(nodes, t, k, anc);
    KeptDrops(nodes, u, k, par);
    WayGoesOn(nodes, u, k, par);
    LeafIds(Under(u, k, par));
  }
}
