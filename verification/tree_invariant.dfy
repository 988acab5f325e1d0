/** What every step of the Natarajan-Mittal tree keeps: the heap stands for a search tree, marked edges are frozen, and
    each call in progress knows enough about the part of the tree it has walked. */
module TreeInvariant {
  import opened Options
  import opened TreeShapes
  import opened TreeModel

  // ---------------------------------------------------------------- the heap

  predicate IsLeaf(nodes: seq<Rec>, n: Node) { n < |nodes| && nodes[n].left.to.None? }

  predicate IsInner(nodes: seq<Rec>, n: Node) { n < |nodes| && nodes[n].left.to.Some? }

  /** Both children exist; inner children are younger; a flagged edge leads to a leaf with an ordinary key; beside a
      tagged edge is a flagged one. */
  ghost predicate EdgeOk(nodes: seq<Rec>, n: Node, left: bool)
    requires n < |nodes|
  {
    var e := Out(nodes, n, left);
    && e.to.Some? && e.to.value < |nodes| && (IsInner(nodes, e.to.value) ==> n < e.to.value)
    && (e.flag ==> IsLeaf(nodes, e.to.value) && nodes[e.to.value].key.Fin?)
    && (e.tag ==> Out(nodes, n, !left).flag)
  }

  ghost predicate RecOk(nodes: seq<Rec>, n: Node)
    requires n < |nodes|
  {
    if IsLeaf(nodes, n) then nodes[n].left == NIL && nodes[n].right == NIL && (nodes[n].key.Fin? ==> nodes[n].val.Some?)
    else EdgeOk(nodes, n, true) && EdgeOk(nodes, n, false)
  }

  ghost predicate Heap(nodes: seq<Rec>) { forall n: Node :: n < |nodes| ==> RecOk(nodes, n) }

  /** The heap below t.id is t. */
  ghost predicate Repr(nodes: seq<Rec>, t: Tree) {
    && t.id < |nodes| && nodes[t.id].key == t.key
    && match t
       case Leaf(id, _, val) => IsLeaf(nodes, id) && nodes[id].val == val
       case Inner(id, _, l, r) =>
         nodes[id].left.to == Some(l.id) && nodes[id].right.to == Some(r.id) && Repr(nodes, l) && Repr(nodes, r)
  }

  ghost predicate BothMarked(nodes: seq<Rec>, n: Node)
    requires n < |nodes|
  {
    Marked(nodes[n].left) && Marked(nodes[n].right)
  }

  /** Inner nodes that are no longer in the tree are marked on both sides. */
  ghost predicate DeadMarked(nodes: seq<Rec>, ids: set<Node>) {
    forall n: Node :: IsInner(nodes, n) && n !in ids ==> BothMarked(nodes, n)
  }

  ghost predicate EdgeTaken(nodes: seq<Rec>, ids: set<Node>, taken: set<Node>, n: Node, left: bool)
    requires n < |nodes|
  {
    var e := Out(nodes, n, left);
    && (n in ids && e.to.Some? && e.to.value in taken ==> e.flag)
    && (e.flag ==> e.to.Some? && e.to.value in taken)
  }

  /** In the tree the flagged edges are exactly those that lead to a taken leaf. */
  ghost predicate FlagsTaken(nodes: seq<Rec>, ids: set<Node>, taken: set<Node>) {
    && (forall n: Node :: n < |nodes| ==>
         EdgeTaken(nodes, ids, taken, n, true) && EdgeTaken(nodes, ids, taken, n, false))
    && (forall n :: n in taken ==> n < |nodes|)
  }

  /** The sentinels: the root, the top node, and below it the leaf of infinite key, alone or as a right child. */
  ghost predicate TopShape(t: Tree) {
    && t.Inner? && t.id == ROOT && t.key == Inf(2) && t.right.Leaf? && t.right.key == Inf(2)
    && t.left.Inner? && t.left.id == TOP && t.left.key == Inf(1) && t.left.right.Leaf? && t.left.right.key == Inf(1)
    && var x := t.left.left;
    && x.key == Inf(0) && (x.Inner? ==> x.right.Leaf? && x.right.key == Inf(0))
  }

  ghost predicate TreeInv(nodes: seq<Rec>, t: Tree, taken: set<Node>) {
    && Heap(nodes) && Repr(nodes, t) && NoDup(t) && Ordered(t) && TopShape(t)
    && DeadMarked(nodes, Ids(t)) && FlagsTaken(nodes, Ids(t), taken)
  }

  /** The leaves of a tree of the past are still nodes of the heap, with the same key and value. */
  ghost predicate Labelled(nodes: seq<Rec>, t: Tree) {
    forall x :: x in Leaves(t) ==>
        x.Leaf? && IsLeaf(nodes, x.id) && nodes[x.id].key == x.key && nodes[x.id].val == x.val
  }

  /** A step takes leaves away or adds some, never both. */
  ghost predicate OneWay(t: Tree, u: Tree) { Leaves(u) <= Leaves(t) || Leaves(t) <= Leaves(u) }

  ghost predicate HistInv(nodes: seq<Rec>, t: Tree, hist: seq<Tree>) {
    && |hist| > 0 && hist[|hist| - 1] == t
    && (forall m :: 0 <= m < |hist| ==> Ordered(hist[m]) && Labelled(nodes, hist[m]))
    && forall m, i :: 0 <= m && i == m + 1 && i < |hist| ==> OneWay(hist[m], hist[i])
  }

  // ---------------------------------------------------------------- what the walking threads know

  /** At some instant from `from` on, k's way ended at the leaf n. */
  ghost predicate WasEnd(hist: seq<Tree>, k: int, from: nat, n: Node) {
    exists m :: from <= m < |hist| && WayEnd(hist[m], k).id == n
  }

  /** The inner node n is on k's way, if it is still in the tree; if not, k's edge out of it (frozen by now) leads on
      to such a node, or to a leaf at which k's way ended when the node was last in the tree. */
  ghost predicate Good(nodes: seq<Rec>, t: Tree, hist: seq<Tree>, k: int, from: nat, n: Node)
    decreases |nodes| - n
  {
    && IsInner(nodes, n)
    && if n in Ids(t) then OnWay(t, k, n)
       else
         var e := Out(nodes, n, Side(nodes, n, k));
         && e.to.Some?
         && if IsLeaf(nodes, e.to.value) then WasEnd(hist, k, from, e.to.value)
            else n < e.to.value && Good(nodes, t, hist, k, from, e.to.value)
  }

  ghost predicate Visited(nodes: seq<Rec>, t: Tree, hist: seq<Tree>, k: int, from: nat, n: Node) {
    if IsLeaf(nodes, n) then WasEnd(hist, k, from, n) else Good(nodes, t, hist, k, from, n)
  }

  /** From a to b, in k's direction, over a tagged edge. */
  ghost predicate TagStep(nodes: seq<Rec>, k: int, a: Node, b: Node) {
    a < |nodes| && var e := Out(nodes, a, Side(nodes, a, k)); e.to == Some(b) && e.tag
  }

  ghost predicate ViaOk(nodes: seq<Rec>, k: int, via: seq<Node>) {
    via != [] && forall i, j :: 0 <= i && j == i + 1 && j < |via| ==> TagStep(nodes, k, via[i], via[j])
  }

  ghost predicate PathOk(nodes: seq<Rec>, t: Tree, hist: seq<Tree>, call: Call, p: Path) {
    && call.since <= p.from < |hist|
    && Good(nodes, t, hist, call.key, p.from, p.anc) && Good(nodes, t, hist, call.key, p.from, p.par)
    && ViaOk(nodes, call.key, p.via) && p.via[|p.via| - 1] == p.par
    && (if p.succ.None? then p.via == [p.par] else p.via[0] == p.succ.value)
  }

  /** The seek that made p is over. */
  ghost predicate SeekOk(nodes: seq<Rec>, t: Tree, hist: seq<Tree>, call: Call, p: Path) {
    PathOk(nodes, t, hist, call, p) && IsLeaf(nodes, p.leaf) && WasEnd(hist, call.key, p.from, p.leaf)
  }

  ghost predicate OwnOk(nodes: seq<Rec>, hist: seq<Tree>, taken: set<Node>, call: Call, own: Option<Own>, from: nat) {
    own.Some? ==>
      && call.kind.Remove? && own.value.leaf in taken
      && IsLeaf(nodes, own.value.leaf) && nodes[own.value.leaf].key == Fin(call.key)
      && call.since <= own.value.at <= from && own.value.at < |hist|
      && Leaf(own.value.leaf, Fin(call.key), nodes[own.value.leaf].val) in Leaves(hist[own.value.at])
  }

  /** k's edge of the parent still leads to the leaf, and is marked. */
  ghost predicate Stuck(nodes: seq<Rec>, k: int, p: Path) {
    p.par < |nodes| && var e := Out(nodes, p.par, Side(nodes, p.par, k)); e.to == Some(p.leaf) && Marked(e)
  }

  /** The side to keep: the other one is flagged, and if it is the leaf's own side, it is tagged and not flagged. */
  ghost predicate SideOk(nodes: seq<Rec>, k: int, p: Path, side: bool) {
    && Stuck(nodes, k, p) && Out(nodes, p.par, !side).flag
    && (side == Side(nodes, p.par, k) ==> !Out(nodes, p.par, side).flag && Out(nodes, p.par, side).tag)
  }

  // ---------------------------------------------------------------- answers

  ghost predicate Has(t: Tree, k: int) { exists x :: x in Leaves(t) && x.key == Fin(k) }

  ghost predicate Holds(t: Tree, k: int, v: Option<Value>) {
    if v.Some? then exists x :: x in Leaves(t) && x.Leaf? && x.key == Fin(k) && x.val == v else !Has(t, k)
  }

  ghost predicate SomeTime(hist: seq<Tree>, since: nat, k: int, v: Option<Value>) {
    exists m :: since <= m < |hist| && Holds(hist[m], k, v)
  }

  ghost predicate HadIt(hist: seq<Tree>, since: nat, k: int) {
    exists m :: since <= m < |hist| && Has(hist[m], k)
  }

  /** At an instant of the call, between m and m + 1, the leaf was added: the key was not there before. */
  ghost predicate AddedThen(hist: seq<Tree>, k: int, x: Tree, m: nat) {
    m + 1 < |hist| && !Has(hist[m], k) && Leaves(hist[m + 1]) == Leaves(hist[m]) + {x}
  }

  /** Between m and m + 1 the leaf left the tree, and its key with it. */
  ghost predicate RemovedThen(hist: seq<Tree>, k: int, x: Tree, m: nat) {
    m + 1 < |hist| && x in Leaves(hist[m]) && x.key == Fin(k) && !Has(hist[m + 1], k)
  }

  /** The answer is true of an instant within the call. */
  ghost predicate Justified(hist: seq<Tree>, taken: set<Node>, call: Call, answer: Answer, leaf: Node) {
    match call.kind
    case Get => answer.Found? && SomeTime(hist, call.since, call.key, answer.val)
    case Insert(v) =>
      && answer.Inserted?
      && if answer.ok then exists m ::
          call.since <= m && AddedThen(hist, call.key, Leaf(leaf, Fin(call.key), Some(v)), m)
         else HadIt(hist, call.since, call.key)
    case Remove =>
      && answer.Found?
      && if answer.val.Some? then
           leaf in taken && exists m ::
               call.since <= m && RemovedThen(hist, call.key, Leaf(leaf, Fin(call.key), answer.val), m)
         else SomeTime(hist, call.since, call.key, None)
  }

  // ---------------------------------------------------------------- per thread

  ghost predicate OpInv(nodes: seq<Rec>, t: Tree, hist: seq<Tree>, taken: set<Node>, op: Op) {
    match op
    case Idle => true
    case GetTop(call) => call.kind.Get? && call.since < |hist|
    case GetFirst(call, leaf) => call.kind.Get? && call.since < |hist|
        && Visited(nodes, t, hist, call.key, call.since, leaf) && leaf < |nodes| && nodes[leaf].key == Inf(0)
    case GetWalk(call, leaf) => call.kind.Get? && call.since < |hist|
        && Visited(nodes, t, hist, call.key, call.since, leaf)
    case SeekRoot(call, own) => !call.kind.Get? && call.since < |hist| && OwnOk(nodes, hist, taken, call, own, |hist|)
    case SeekTop(call, own, from, par) =>
      && !call.kind.Get? && call.since <= from < |hist| && OwnOk(nodes, hist, taken, call, own, from) && par == TOP
    case SeekTopTag(call, own, from, par, leaf) =>
      && !call.kind.Get? && call.since <= from < |hist| && OwnOk(nodes, hist, taken, call, own, from) && par == TOP
      && Visited(nodes, t, hist, call.key, from, leaf) && leaf < |nodes| && nodes[leaf].key == Inf(0)
    case SeekFirstTag(call, own, from, par, leaf, ptag) =>
      && !call.kind.Get? && call.since <= from < |hist| && OwnOk(nodes, hist, taken, call, own, from) && par == TOP
      && !ptag
      && Visited(nodes, t, hist, call.key, from, leaf) && leaf < |nodes| && nodes[leaf].key == Inf(0)
    case SeekFirst(call, own, from, par, leaf, ptag, ctag) =>
      && !call.kind.Get? && call.since <= from < |hist| && OwnOk(nodes, hist, taken, call, own, from) && par == TOP
      && !ptag
      && Visited(nodes, t, hist, call.key, from, leaf) && leaf < |nodes| && nodes[leaf].key == Inf(0)
      && (ctag ==> nodes[leaf].left.tag)
    case SeekWalk(call, own, p, ptag) =>
      && !call.kind.Get? && OwnOk(nodes, hist, taken, call, own, p.from) && PathOk(nodes, t, hist, call, p)
      && Visited(nodes, t, hist, call.key, p.from, p.leaf) && (ptag ==> TagStep(nodes, call.key, p.par, p.leaf))
      && (own.Some? && own.value.leaf == p.leaf ==> Stuck(nodes, call.key, p))
    case InsertCas(call, p) => call.kind.Insert? && SeekOk(nodes, t, hist, call, p)
        && nodes[p.leaf].key != Fin(call.key)
    case FlagCas(call, p) => call.kind.Remove? && SeekOk(nodes, t, hist, call, p) && nodes[p.leaf].key == Fin(call.key)
    case Recheck(call, p) => !call.kind.Get? && SeekOk(nodes, t, hist, call, p)
    case Clean(call, own, p) =>
      && !call.kind.Get? && SeekOk(nodes, t, hist, call, p) && Stuck(nodes, call.key, p)
      && OwnOk(nodes, hist, taken, call, own, |hist|) && (own.Some? ==> own.value.leaf == p.leaf)
    case TagRead(call, own, p, side) =>
      && !call.kind.Get? && SeekOk(nodes, t, hist, call, p) && SideOk(nodes, call.key, p, side)
      && OwnOk(nodes, hist, taken, call, own, |hist|) && (own.Some? ==> own.value.leaf == p.leaf)
    case TagCas(call, own, p, side, seen) =>
      && !call.kind.Get? && SeekOk(nodes, t, hist, call, p) && SideOk(nodes, call.key, p, side)
      && OwnOk(nodes, hist, taken, call, own, |hist|) && (own.Some? ==> own.value.leaf == p.leaf)
    case SiblingRead(call, own, p, side) =>
      && !call.kind.Get? && SeekOk(nodes, t, hist, call, p) && SideOk(nodes, call.key, p, side)
      && OwnOk(nodes, hist, taken, call, own, |hist|) && (own.Some? ==> own.value.leaf == p.leaf)
      && Out(nodes, p.par, side).tag
    case Splice(call, own, p, side, sib) =>
      && !call.kind.Get? && SeekOk(nodes, t, hist, call, p) && SideOk(nodes, call.key, p, side)
      && OwnOk(nodes, hist, taken, call, own, |hist|) && (own.Some? ==> own.value.leaf == p.leaf)
      && Out(nodes, p.par, side) == Edge(sib.to, sib.flag, true) && !sib.tag
    case Returned(call, answer, leaf) => Justified(hist, taken, call, answer, leaf)
  }

  ghost predicate OpsInv(nodes: seq<Rec>, t: Tree, hist: seq<Tree>, taken: set<Node>, ops: seq<Op>) {
    forall i :: 0 <= i < |ops| ==> OpInv(nodes, t, hist, taken, ops[i])
  }

  /** Every node has an address, and those in the tree have one each. */
  ghost predicate AddrsApart(addrs: seq<Addr>, ids: set<Node>) {
    forall n, m :: n in ids && m in ids && n < |addrs| && m < |addrs| && addrs[n] == addrs[m] ==> n == m
  }

  ghost predicate AddrInv(nodes: seq<Rec>, addrs: seq<Addr>, t: Tree) {
    |addrs| == |nodes| && AddrsApart(addrs, Ids(t))
  }

  ghost predicate Inv(s: State) {
    && AddrInv(s.nodes, s.addrs, s.tree)
    && TreeInv(s.nodes, s.tree, s.taken) && HistInv(s.nodes, s.tree, s.hist)
    && OpsInv(s.nodes, s.tree, s.hist, s.taken, s.ops)
  }

  // ---------------------------------------------------------------- mix-ups

  /** The leaf that the thread's seek ends at in this step, if it ends. */
  function Reached(nodes: seq<Rec>, op: Op): Option<Node> {
    if op.SeekFirst? && IsLeaf(nodes, op.leaf) then Some(op.leaf)
    else if op.SeekWalk? && IsLeaf(nodes, op.p.leaf) then Some(op.p.leaf)
    else None
  }

  /** A remove in clean-up mode reaches a leaf that lies where the leaf it flagged lay, and is another one. */
  ghost predicate MixUp(s: State, l: Label)
    requires Enabled(s, l)
  {
    && l.Step? && OwnOf(s.ops[l.t]).Some? && Reached(s.nodes, s.ops[l.t]).Some?
    && var own, leaf := OwnOf(s.ops[l.t]).value.leaf, Reached(s.nodes, s.ops[l.t]).value;
    own < |s.addrs| && HasAddr(s, leaf, s.addrs[own]) && leaf != own
  }

  ghost predicate NoMixUp(s: State, ls: seq<Label>)
    requires Runnable(s, ls)
    decreases |ls|
  {
    ls == [] || (!MixUp(s, ls[0]) && NoMixUp(Apply(s, ls[0]), ls[1..]))
  }

  // ---------------------------------------------------------------- what a step leaves alone

  /** A marked edge keeps its target and its flag, and never loses its tag. */
  ghost predicate EdgeKept(e: Edge, now: Edge) {
    Marked(e) ==> now.to == e.to && now.flag == e.flag && (e.tag ==> now.tag)
  }

  ghost predicate NodeKept(r: Rec, now: Rec) {
    && now.key == r.key && now.val == r.val && (r.left.to.None? <==> now.left.to.None?)
    && EdgeKept(r.left, now.left) && EdgeKept(r.right, now.right)
  }

  ghost predicate NodesKept(nodes: seq<Rec>, now: seq<Rec>) {
    |nodes| <= |now| && forall n: Node :: n < |nodes| ==> NodeKept(nodes[n], now[n])
  }

  ghost predicate SameTargets(r: Rec, now: Rec) { now.left.to == r.left.to && now.right.to == r.right.to }

  /** The tree changes so that inner nodes stay on every way they are on until they leave the tree, never to come
      back, and nodes outside the new tree keep their children. */
  ghost predicate Evolves(nodes: seq<Rec>, t: Tree, now: seq<Rec>, u: Tree) {
    && NodesKept(nodes, now)
    && (forall n: Node :: IsInner(nodes, n) && n in Ids(u) ==> n in Ids(t))
    && (forall j, n: Node :: IsInner(nodes, n) && n in Ids(u) && OnWay(t, j, n) ==> OnWay(u, j, n))
    && (forall n: Node :: n < |nodes| && n !in Ids(u) ==> SameTargets(nodes[n], now[n]))
  }
}
