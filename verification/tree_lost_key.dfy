/** A run of the Natarajan-Mittal tree over hazard pointers, without guards, that loses a key which nobody removed.

    Thread 0 removes 10: it flags the leaf and pauses. Thread 1 helps, splices the leaf out, and thread 0's own splice
    fails. When its next seek has let go of the leaf, the memory comes back: thread 1 inserts 10 again and gets the same
    address. Thread 0 reaches the new leaf, takes it for its own and cleans up; the leaf beside it, with key 20, is
    gone.
 */
module TreeLostKey {
  import opened Options
  import opened TreeShapes
  import opened TreeModel
  import opened TreeRuns

  // ---------------------------------------------------------------- the scenes

  function E(n: Node): Edge { Edge(Some(n), false, false) }
  function L(k: int, v: Value): Rec { Rec(Fin(k), Some(v), NIL, NIL) }

  /** The sentinels with `below` under the top node. */
  function Base(below: Node): seq<Rec> {
    [Rec(Inf(2), None, E(1), E(2)), Rec(Inf(1), None, E(below), E(3)), Rec(Inf(2), None, NIL, NIL),
     Rec(Inf(1), None, NIL, NIL), Rec(Inf(0), None, NIL, NIL)]
  }

  /** Node 6 below the top node, with y to its left. */
  function Nodes(v: Value, y: Node, rest: seq<Rec>): seq<Rec> {
    Base(6) + [L(10, v), Rec(Inf(0), None, E(y), E(4))] + rest
  }

  function Whole(x: Tree): Tree {
    Inner(0, Inf(2), Inner(1, Inf(1), Inner(6, Inf(0), x, Leaf(4, Inf(0), None)), Leaf(3, Inf(1), None)),
          Leaf(2, Inf(2), None))
  }

  ghost predicate Scene(s: State, nodes: seq<Rec>, addrs: seq<Addr>, tree: Tree, taken: set<Node>, op0: Op, op1: Op) {
    && s.nodes == nodes && s.addrs == addrs && s.tree == tree && s.taken == taken && s.ops == [op0, op1]
    && !s.guarded && |s.hist| > 0
  }

  lemma WholeWay(x: Tree, k: int, sub: Tree)
    ensures OnWay(Whole(x), k, 6) && Under(Whole(x), k, 6) == x && Replace(Whole(x), k, 6, sub) == Whole(sub)
  {
    var t := Whole(x);
    var top := t.left;
    assert Kid(t, k) == top && Kid(top, k) == top.left && Kid(top.left, k) == x;
    assert OnWay(top.left, k, 6) && OnWay(top, k, 6);
    assert Under(top, k, 6) == x;
    assert Replace(top.left, k, 6, sub) == top.left.(left := sub);
    assert Replace(top, k, 6, sub) == top.(left := top.left.(left := sub));
  }

  lemma NodesAt(v: Value, y: Node, rest: seq<Rec>)
    ensures var n := Nodes(v, y, rest);
            && |n| == 7 + |rest| && n[0].left == E(1) && n[1].left == E(6) && n[5] == L(10, v)
            && n[6] == Rec(Inf(0), None, E(y), E(4)) && forall i :: 0 <= i < |rest| ==> n[7 + i] == rest[i]
  {
  }

  lemma NodesTurn(v: Value, y: Node, z: Node, rest: seq<Rec>)
    ensures |Nodes(v, y, rest)| > 6 && SetOut(Nodes(v, y, rest), 6, true, E(z)) == Nodes(v, z, rest)
  {
    NodesAt(v, y, rest);
    NodesAt(v, z, rest);
  }

  // ---------------------------------------------------------------- seeks below node 6

  /** A seek down to the node on the left of node 6. */
  lemma SeekBelowSix(s0: State, ls: seq<Label>, s: State, t: nat, call: Call, own: Option<Own>, v: Value, y: Node,
                     rest: seq<Rec>)
    returns (more: seq<Label>, r: State, from: nat)
    requires Reaches(s0, ls, s) && Ready(s, t) && s.ops[t] == SeekRoot(call, own) && s.nodes == Nodes(v, y, rest)
    requires OwnSound(s.nodes, own)
    ensures Reaches(s0, more, r) && Ready(r, t)
    ensures OnlyMoves(s, r, t, SeekWalk(call, own, Path(from, TOP, None, 6, y, [6]), false))
  {
    hide Reaches, Nodes;
    NodesAt(v, y, rest);
    var r1, r2;
    more, r1, from := SeekTopmost(s0, ls, s, t, call, own, 6);
    more, r2 := SeekTags(s0, more, r1, t, call, own, from, 6);
    more, r := SeekOnFirst(s0, more, r2, t, y);
  }

  // ---------------------------------------------------------------- two inserts

  lemma InsertTen(s0: State, v: Value) returns (ls: seq<Label>, s: State, op1: Op)
    requires Init(s0) && !s0.guarded && s0.ops == [Idle, Idle]
    ensures Reaches(s0, ls, s) && Resting(op1)
    ensures Scene(s, Nodes(v, 5, []), [0, 1, 2, 3, 4, 5, 6], Whole(Leaf(5, Fin(10), Some(v))), {}, Idle, op1)
  {
    hide Reaches;
    ReachesItself(s0);
    var call, from, r1, r2, r3, r4;
    ls, r1, call := Invokes(s0, [], s0, 1, Insert(v), 10);
    ls, r2, from := SeekTopmost(s0, ls, r1, 1, call, None, 4);
    ls, r3 := SeekTags(s0, ls, r2, 1, call, None, from, 4);
    ls, r4 := SeekEndsFirst(s0, ls, r3, 1);
    var p := Path(from, ROOT, None, TOP, 4, [TOP]);
    assert r4.ops == [Idle, InsertCas(call, p)];
    ls, s, op1 := InsertTenCas(s0, ls, r4, v, call, p);
  }

  lemma InsertTenCas(s0: State, ls: seq<Label>, r: State, v: Value, call: Call, p: Path)
    returns (more: seq<Label>, s: State, op1: Op)
    requires Reaches(s0, ls, r) && Ready(r, 1) && r.ops == [Idle, InsertCas(call, p)] && call.kind == Insert(v)
    requires call.key == 10
    requires p == Path(p.from, ROOT, None, TOP, 4, [TOP]) && r.nodes == Base(4) && r.addrs == [0, 1, 2, 3, 4]
    requires !r.guarded
    requires r.tree == FIRST_TREE && r.taken == {}
    ensures Reaches(s0, more, s) && Resting(op1)
    ensures Scene(s, Nodes(v, 5, []), [0, 1, 2, 3, 4, 5, 6], Whole(Leaf(5, Fin(10), Some(v))), {}, Idle, op1)
  {
    hide Reaches, FreeAddress, OnWay, Replace, Whole, Ids, HeldBy;
    BaseIsFree(r, call, p, 5);
    BaseIsFree(r, call, p, 6);
    more, s := Writes(s0, ls, r, 1, 5, 6);
    InsertCasDoes(r, 1, call, p, 5, 6);
    op1 := Returned(call, Inserted(true), 5);
    BaseGrows(v);
    BaseTurn(v);
  }

  lemma BaseIsFree(r: State, call: Call, p: Path, a: Addr)
    requires r.ops == [Idle, InsertCas(call, p)] && p == Path(p.from, ROOT, None, TOP, 4, [TOP])
    requires r.addrs == [0, 1, 2, 3, 4] && !r.guarded && r.tree == FIRST_TREE && a > 4
    ensures FreeAddress(r, a)
  {
    hide Ids, HeldBy;
  }

  lemma BaseGrows(v: Value)
    ensures OnWay(FIRST_TREE, 10, TOP)
    ensures Replace(FIRST_TREE, 10, TOP, NewPart(Base(4), 10, v, 4)) == Whole(Leaf(5, Fin(10), Some(v)))
  {
    var top := FIRST_TREE.left;
    assert Kid(FIRST_TREE, 10) == top && OnWay(top, 10, TOP);
    var sub := NewPart(Base(4), 10, v, 4);
    assert Replace(top, 10, TOP, sub) == top.(left := sub);
  }

  lemma BaseTurn(v: Value)
    ensures SetOut(Base(4), TOP, true, E(6)) + [L(10, v), NewInner(Base(4), 10, 4)] == Nodes(v, 5, [])
  {
  }

  /** What thread 1's insert makes of the leaf y on the left of node 6. */
  function Grown(n: nat, y: Node, j: int, k: int): Rec {
    if k < j then Rec(Fin(j), None, E(n), E(y)) else Rec(Fin(k), None, E(y), E(n))
  }

  function GrownTree(n: nat, y: Node, j: int, u: Value, k: int, val: Value): Tree {
    var x, y_ := Leaf(n, Fin(k), Some(val)), Leaf(y, Fin(j), Some(u));
    if k < j then Inner(n + 1, Fin(j), x, y_) else Inner(n + 1, Fin(k), y_, x)
  }

  ghost predicate Vacant(addrs: seq<Addr>, y: Node, op0: Op, a: Addr) {
    forall n :: n in {0, 1, 2, 3, 4, 6, y} + HeldBy(op0) && n < |addrs| ==> addrs[n] != a
  }

  lemma VacantIsFree(s: State, y: Node, j: int, u: Value, call: Call, p: Path, op0: Op, a: Addr)
    requires s.tree == Whole(Leaf(y, Fin(j), Some(u))) && s.ops == [op0, InsertCas(call, p)] && !s.guarded
    requires p == Path(p.from, TOP, None, 6, y, [6]) && Vacant(s.addrs, y, op0, a)
    ensures FreeAddress(s, a)
  {
    hide HeldBy;
    WholeIds(Leaf(y, Fin(j), Some(u)));
    forall t, n | 0 <= t < |s.ops| && n in HeldBy(s.ops[t]) ensures !HasAddr(s, n, a) {
      if t == 1 { HeldAtCas(call, p); }
    }
  }

  lemma WholeIds(x: Tree)
    requires x.Leaf?
    ensures Ids(Whole(x)) == {0, 1, 2, 3, 4, 6, x.id}
  {
    var top := Whole(x).left;
    assert Ids(top.left) == {6, x.id, 4};
    assert Ids(top) == {1, 6, x.id, 4, 3};
  }

  lemma HeldAtCas(call: Call, p: Path)
    ensures HeldBy(InsertCas(call, p)) == Held(p)
  {
  }

  lemma InsertCasBelowSix(s0: State, ls: seq<Label>, s: State, v: Value, y: Node, rest: seq<Rec>, j: int, u: Value,
                          call: Call, p: Path, op0: Op, a: Addr, b: Addr)
    returns (more: seq<Label>, r: State, op1: Op)
    requires Reaches(s0, ls, s) && call.kind.Insert? && call.key != j && p == Path(p.from, TOP, None, 6, y, [6])
    requires Scene(s, Nodes(v, y, rest), s.addrs, Whole(Leaf(y, Fin(j), Some(u))), s.taken, op0, InsertCas(call, p))
    requires 5 <= y < 7 + |rest| && Nodes(v, y, rest)[y] == L(j, u) && |s.addrs| == 7 + |rest|
    requires Vacant(s.addrs, y, op0, a) && Vacant(s.addrs, y, op0, b) && a != b
    ensures var n := 7 + |rest|;
            && Reaches(s0, more, r) && Resting(op1)
            && Scene(r, Nodes(v, n + 1, rest + [L(call.key, call.kind.val), Grown(n, y, j, call.key)]),
                     s.addrs + [a, b],
                     Whole(GrownTree(n, y, j, u, call.key, call.kind.val)), s.taken, op0, op1)
  {
    hide Reaches, FreeAddress, Vacant, OnWay, Replace, Whole, Nodes, Ids;
    var n := 7 + |rest|;
    NodesAt(v, y, rest);
    VacantIsFree(s, y, j, u, call, p, op0, a);
    VacantIsFree(s, y, j, u, call, p, op0, b);
    more, r := Writes(s0, ls, s, 1, a, b);
    InsertCasDoes(s, 1, call, p, a, b);
    op1 := Returned(call, Inserted(true), n);
    var sub := NewPart(s.nodes, call.key, call.kind.val, y);
    WholeWay(Leaf(y, Fin(j), Some(u)), call.key, sub);
    assert sub == GrownTree(n, y, j, u, call.key, call.kind.val);
    NodesTurn(v, y, n + 1, rest);
    NodesMore(v, n + 1, rest, [L(call.key, call.kind.val), Grown(n, y, j, call.key)]);
  }

  lemma NodesMore(v: Value, y: Node, rest: seq<Rec>, more: seq<Rec>)
    ensures Nodes(v, y, rest) + more == Nodes(v, y, rest + more)
  {
  }

  /** Thread 1 inserts a key beside the leaf on the left of node 6. */
  lemma InsertBelowSix(s0: State, ls: seq<Label>, s: State, v: Value, y: Node, rest: seq<Rec>, j: int, u: Value,
                       k: int, val: Value, op0: Op, op1: Op, a: Addr, b: Addr)
    returns (more: seq<Label>, r: State, end: Op)
    requires Reaches(s0, ls, s) && k != j && Resting(op1)
    requires Scene(s, Nodes(v, y, rest), s.addrs, Whole(Leaf(y, Fin(j), Some(u))), s.taken, op0, op1)
    requires 5 <= y < 7 + |rest| && Nodes(v, y, rest)[y] == L(j, u) && |s.addrs| == 7 + |rest|
    requires Vacant(s.addrs, y, op0, a) && Vacant(s.addrs, y, op0, b) && a != b
    ensures var n := 7 + |rest|;
            && Reaches(s0, more, r) && Resting(end)
            && Scene(r, Nodes(v, n + 1, rest + [L(k, val), Grown(n, y, j, k)]), s.addrs + [a, b],
                     Whole(GrownTree(n, y, j, u, k, val)), s.taken, op0, end)
  {
    hide Reaches, Vacant, Whole, Nodes, Resting;
    NodesAt(v, y, rest);
    var r1, r2, r3, call, from;
    more, r1, call := Invokes(s0, ls, s, 1, Insert(val), k);
    more, r2, from := SeekBelowSix(s0, more, r1, 1, call, None, v, y, rest);
    more, r3 := SeekEnds(s0, more, r2, 1);
    var p := Path(from, TOP, None, 6, y, [6]);
    assert r3.ops == [op0, InsertCas(call, p)];
    more, r, end := InsertCasBelowSix(s0, more, r3, v, y, rest, j, u, call, p, op0, a, b);
  }

  // ---------------------------------------------------------------- two removes of the same leaf

  /** A seek for 10 through the inner node y, on the left of node 6, to the leaf z on its left. */
  lemma SeekThrough(s0: State, ls: seq<Label>, s: State, t: nat, call: Call, own: Option<Own>, v: Value, y: Node,
                    rest: seq<Rec>, e: Edge)
    returns (more: seq<Label>, r: State, from: nat)
    requires Reaches(s0, ls, s) && Ready(s, t) && s.ops[t] == SeekRoot(call, own) && call.key == 10
    requires OwnSound(s.nodes, own)
    requires s.nodes == Nodes(v, y, rest) && LeadsTo(s.nodes, y, e)
    ensures Reaches(s0, more, r) && Ready(r, t)
    ensures OnlyMoves(s, r, t, AfterSeek(s, call, own, Path(from, 6, None, y, e.to.value, [y])))
  {
    hide Reaches, Nodes, AfterSeek;
    var r1;
    more, r1, from := SeekBelowSix(s0, ls, s, t, call, own, v, y, rest);
    more, r := SeekLast(s0, more, r1, t, call, own, from, y, e);
    SameAfterSeek(s, r1, call, own, Path(from, 6, None, y, e.to.value, [y]));
  }

  /** Node y sends 10 to the left, over the edge e, to a leaf. */
  predicate LeadsTo(nodes: seq<Rec>, y: Node, e: Edge) {
    && y < |nodes| && nodes[y].key == Fin(20) && nodes[y].left == e
    && e.to.Some? && e.to.value < |nodes| && nodes[e.to.value].left == NIL && nodes[e.to.value].right == NIL
  }

  lemma SeekLast(s0: State, ls: seq<Label>, s: State, t: nat, call: Call, own: Option<Own>, from: nat, y: Node, e: Edge)
    returns (more: seq<Label>, r: State)
    requires Reaches(s0, ls, s) && Ready(s, t)
    requires s.ops[t] == SeekWalk(call, own, Path(from, TOP, None, 6, y, [6]), false)
    requires call.key == 10 && OwnSound(s.nodes, own) && LeadsTo(s.nodes, y, e)
    ensures Reaches(s0, more, r) && Ready(r, t)
    ensures OnlyMoves(s, r, t, AfterSeek(s, call, own, Path(from, 6, None, y, e.to.value, [y])))
  {
    hide Reaches, AfterSeek;
    var r1;
    more, r1 := SeekOn(s0, ls, s, t, e);
    assert r1.ops[t].p == Path(from, 6, None, y, e.to.value, [y]);
    more, r := SeekEnds(s0, more, r1, t);
    SameAfterSeek(s, r1, call, own, r1.ops[t].p);
  }

  lemma SameAfterSeek(s: State, r: State, call: Call, own: Option<Own>, p: Path)
    requires r.nodes == s.nodes && r.addrs == s.addrs && |s.addrs| == |s.nodes| && p.leaf < |s.nodes|
    requires OwnSound(s.nodes, own)
    ensures AfterSeek(r, call, own, p) == AfterSeek(s, call, own, p)
  {
  }

  /** Leaf 7 with key 20, and node 8 with the leaves 5 and 7 below it. */
  function Rest(w: Value, left: Edge, right: Edge): seq<Rec> { [L(20, w), Rec(Fin(20), None, left, right)] }

  lemma RestAt(v: Value, y: Node, w: Value, left: Edge, right: Edge, more: seq<Rec>)
    ensures var n := Nodes(v, y, Rest(w, left, right) + more);
            && |n| == 9 + |more| && n[5] == L(10, v) && n[7] == L(20, w) && n[8] == Rec(Fin(20), None, left, right)
            && n[6] == Rec(Inf(0), None, E(y), E(4)) && forall i :: 0 <= i < |more| ==> n[9 + i] == more[i]
  {
    NodesAt(v, y, Rest(w, left, right) + more);
  }

  lemma RestMarked(v: Value, y: Node, w: Value, left: Edge, right: Edge, e: Edge)
    ensures var n := Nodes(v, y, Rest(w, left, right));
            && |n| == 9
            && SetOut(n, 8, true, e) == Nodes(v, y, Rest(w, e, right))
            && SetOut(n, 8, false, e) == Nodes(v, y, Rest(w, left, e))
  {
  }

  /** Thread 0 flags leaf 5. */
  lemma FlagsFive(s0: State, ls: seq<Label>, s: State, v: Value, w: Value, tree: Tree, addrs: seq<Addr>, op1: Op)
    returns (more: seq<Label>, r: State, call: Call, own: Own, p: Path)
    requires Reaches(s0, ls, s) && Scene(s, Nodes(v, 8, Rest(w, E(5), E(7))), addrs, tree, {}, Idle, op1)
    requires |addrs| == 9
    ensures Reaches(s0, more, r) && call.kind == Remove && call.key == 10 && own.leaf == 5
    ensures p == Path(p.from, 6, None, 8, 5, [8])
    ensures Scene(r, Nodes(v, 8, Rest(w, Edge(Some(5), true, false), E(7))), addrs, tree, {5},
                  Clean(call, Some(own), p), op1)
  {
    hide Reaches, Nodes;
    RestAt(v, 8, w, E(5), E(7), []);
    assert Rest(w, E(5), E(7)) + [] == Rest(w, E(5), E(7));
    var r1, r2, from;
    more, r1, call := Invokes(s0, ls, s, 0, Remove, 10);
    more, r2, from := SeekThrough(s0, more, r1, 0, call, None, v, 8, Rest(w, E(5), E(7)), E(5));
    p := Path(from, 6, None, 8, 5, [8]);
    assert r2.ops == [FlagCas(call, p), op1];
    own := Own(5, |r2.hist| - 1);
    more, r := Writes(s0, more, r2, 0, 0, 0);
    RestMarked(v, 8, w, E(5), E(7), Edge(Some(5), true, false));
  }

  /** A splice at node 6 past the node below it. */
  lemma WholePruned(n: Node, key: Key, x: Tree, z: Tree, left: bool)
    ensures Pruned(Whole(Inner(n, key, x, z)), 10, 6, n, left) == Whole(if left then x else z)
  {
    var u := Inner(n, key, x, z);
    WholeWay(u, 10, if left then x else z);
    assert OnWay(u, 10, n) && Kept(u, 10, n, left) == if left then x else z;
  }

  const FLAGGED: Edge := Edge(Some(5), true, false)
  const TAGGED: Edge := Edge(Some(7), false, true)

  function Pair(v: Value, w: Value): Tree { Inner(8, Fin(20), Leaf(5, Fin(10), Some(v)), Leaf(7, Fin(20), Some(w))) }

  /** Thread 1 comes by with a remove of its own, meets the flag and cleans up, up to its splice. */
  lemma MeetsFlag(s0: State, ls: seq<Label>, s: State, v: Value, w: Value, addrs: seq<Addr>, op0: Op, op1: Op)
    returns (more: seq<Label>, r: State, call: Call, p: Path)
    requires Reaches(s0, ls, s) && |addrs| == 9 && Resting(op1)
    requires Scene(s, Nodes(v, 8, Rest(w, FLAGGED, E(7))), addrs, Whole(Pair(v, w)), {5}, op0, op1)
    ensures Reaches(s0, more, r) && call.kind == Remove && call.key == 10 && p == Path(p.from, 6, None, 8, 5, [8])
    ensures Scene(r, Nodes(v, 8, Rest(w, FLAGGED, TAGGED)), addrs, Whole(Pair(v, w)), {5}, op0,
                  Splice(call, None, p, false, E(7)))
  {
    hide Reaches, Nodes, Whole, Resting;
    RestAt(v, 8, w, FLAGGED, E(7), []);
    assert Rest(w, FLAGGED, E(7)) + [] == Rest(w, FLAGGED, E(7));
    var r1, r2, r3, from;
    more, r1, call := Invokes(s0, ls, s, 1, Remove, 10);
    more, r2, from := SeekThrough(s0, more, r1, 1, call, None, v, 8, Rest(w, FLAGGED, E(7)), FLAGGED);
    p := Path(from, 6, None, 8, 5, [8]);
    assert r2.ops == [op0, FlagCas(call, p)];
    more, r3 := FlagFails(s0, more, r2, 1, call, p);
    more, r := CleansUp(s0, more, r3, 1, call, None, p, false);
    RestMarked(v, 8, w, FLAGGED, E(7), TAGGED);
  }

  lemma FlagFails(s0: State, ls: seq<Label>, s: State, t: nat, call: Call, p: Path) returns (more: seq<Label>, r: State)
    requires Reaches(s0, ls, s) && Ready(s, t) && s.ops[t] == FlagCas(call, p) && p.par < |s.nodes|
    requires p.leaf < |s.nodes|
    requires var e := Out(s.nodes, p.par, Side(s.nodes, p.par, call.key)); e.to == Some(p.leaf) && Marked(e)
    ensures Reaches(s0, more, r) && Ready(r, t) && OnlyMoves(s, r, t, Clean(call, None, p))
  {
    hide Reaches;
    var r1;
    more, r1 := Reads(s0, ls, s, t, Recheck(call, p));
    more, r := Reads(s0, more, r1, t, Clean(call, None, p));
  }

  /** It splices node 8 and the flagged leaf out, seeks once more and finds no 10. */
  lemma HelpsOut(s0: State, ls: seq<Label>, s: State, v: Value, w: Value, addrs: seq<Addr>, op0: Op, call: Call,
                 p: Path)
    returns (more: seq<Label>, r: State, op1: Op)
    requires Reaches(s0, ls, s) && |addrs| == 9 && call.kind == Remove && call.key == 10
    requires p == Path(p.from, 6, None, 8, 5, [8])
    requires Scene(s, Nodes(v, 8, Rest(w, FLAGGED, TAGGED)), addrs, Whole(Pair(v, w)), {5}, op0,
                   Splice(call, None, p, false, E(7)))
    ensures Reaches(s0, more, r) && Resting(op1)
    ensures Scene(r, Nodes(v, 7, Rest(w, FLAGGED, TAGGED)), addrs, Whole(Leaf(7, Fin(20), Some(w))), {5}, op0, op1)
  {
    hide Reaches, Nodes, Whole, Pruned;
    var rest := Rest(w, FLAGGED, TAGGED);
    RestAt(v, 8, w, FLAGGED, TAGGED, []);
    RestAt(v, 7, w, FLAGGED, TAGGED, []);
    assert rest + [] == rest;
    var r1, r2, from;
    more, r1 := Writes(s0, ls, s, 1, 0, 0);
    NodesTurn(v, 8, 7, rest);
    WholePruned(8, Fin(20), Leaf(5, Fin(10), Some(v)), Leaf(7, Fin(20), Some(w)), false);
    assert r1.ops == [op0, SeekRoot(call, None)];
    more, r2, from := SeekBelowSix(s0, more, r1, 1, call, None, v, 7, rest);
    more, r := SeekEnds(s0, more, r2, 1);
    op1 := Returned(call, Found(None), 7);
  }

  /** Thread 0 goes on with its clean-up, fails, and begins another seek, which lets go of leaf 5. */
  lemma SeeksAgain(s0: State, ls: seq<Label>, s: State, v: Value, w: Value, addrs: seq<Addr>, call: Call, own: Own,
                   p: Path, op1: Op)
    returns (more: seq<Label>, r: State, from: nat)
    requires Reaches(s0, ls, s) && |addrs| == 9 && call.key == 10 && own.leaf == 5
    requires p == Path(p.from, 6, None, 8, 5, [8])
    requires Scene(s, Nodes(v, 7, Rest(w, FLAGGED, TAGGED)), addrs, Whole(Leaf(7, Fin(20), Some(w))), {5},
                   Clean(call, Some(own), p), op1)
    ensures Reaches(s0, more, r)
    ensures Scene(r, Nodes(v, 7, Rest(w, FLAGGED, TAGGED)), addrs, Whole(Leaf(7, Fin(20), Some(w))), {5},
                  SeekTopTag(call, Some(own), from, TOP, 6), op1)
  {
    hide Reaches, Nodes, Whole;
    var rest := Rest(w, FLAGGED, TAGGED);
    RestAt(v, 7, w, FLAGGED, TAGGED, []);
    NodesAt(v, 7, rest);
    assert rest + [] == rest;
    var r1, r2;
    more, r1 := CleansUp(s0, ls, s, 0, call, Some(own), p, false);
    RestMarked(v, 7, w, FLAGGED, TAGGED, TAGGED);
    more, r2 := Reads(s0, more, r1, 0, SeekRoot(call, Some(own)));
    more, r, from := SeekTopmost(s0, more, r2, 0, call, Some(own), 6);
  }

  // ---------------------------------------------------------------- the mix-up

  /** Node 10 with the new leaf 9 and leaf 7 below it. */
  function Anew(v2: Value, left: Edge): seq<Rec> { [L(10, v2), Rec(Fin(20), None, left, E(7))] }

  function NewPair(v2: Value, w: Value): Tree { Inner(10, Fin(20), Leaf(9, Fin(10), Some(v2)),
                                                      Leaf(7, Fin(20), Some(w))) }

  /** Thread 0 reaches leaf 9, which lies where leaf 5 lay, and is about to splice node 10 out in favour of it. */
  lemma MixesUp(s0: State, ls: seq<Label>, s: State, v: Value, w: Value, v2: Value, call: Call, own: Own, from: nat,
                op1: Op)
    returns (more: seq<Label>, r: State, p: Path)
    requires Reaches(s0, ls, s) && call.kind == Remove && call.key == 10 && own.leaf == 5
    requires Scene(s, Nodes(v, 10, Rest(w, FLAGGED, TAGGED) + Anew(v2, E(9))), [0, 1, 2, 3, 4, 5, 6, 7, 8, 5, 9],
                   Whole(NewPair(v2, w)), {5}, SeekTopTag(call, Some(own), from, TOP, 6), op1)
    ensures Reaches(s0, more, r) && Ready(r, 0) && p == Path(from, 6, None, 10, 9, [10])
    ensures r.ops[0] == Splice(call, Some(own), p, true, E(9)) && r.tree == Whole(NewPair(v2, w)) && r.taken == {5}
    ensures 10 < |r.nodes| && r.nodes[6].left == E(10) && r.nodes[6].key == Inf(0)
  {
    hide Reaches, Nodes, Whole;
    RestAt(v, 10, w, FLAGGED, TAGGED, Anew(v2, E(9)));
    NodesAt(v, 10, Rest(w, FLAGGED, TAGGED) + Anew(v2, E(9)));
    assert s.nodes[9 + 0] == Anew(v2, E(9))[0] && s.nodes[9 + 1] == Anew(v2, E(9))[1];
    var r1, r2, r3;
    more, r1 := SeekTags(s0, ls, s, 0, call, Some(own), from, 6);
    more, r2 := SeekOnFirst(s0, more, r1, 0, 10);
    assert r2.ops[0] == SeekWalk(call, Some(own), Path(from, TOP, None, 6, 10, [6]), false);
    more, r3 := SeekLast(s0, more, r2, 0, call, Some(own), from, 10, E(9));
    p := Path(from, 6, None, 10, 9, [10]);
    assert s.addrs[9] == s.addrs[5];
    assert r3.ops[0] == Clean(call, Some(own), p);
    more, r := CleansUp(s0, more, r3, 0, call, Some(own), p, true);
  }

  lemma LastSplice(s: State, call: Call, own: Own, p: Path, v2: Value, w: Value)
    requires Ready(s, 0) && s.ops[0] == Splice(call, Some(own), p, true, E(9)) && call.key == 10 && own.leaf == 5
    requires p == Path(p.from, 6, None, 10, 9, [10]) && s.tree == Whole(NewPair(v2, w))
    requires 10 < |s.nodes| && s.nodes[6].left == E(10) && s.nodes[6].key == Inf(0)
    ensures Enabled(s, Step(0, 0, 0)) && Apply(s, Step(0, 0, 0)).tree == Whole(Leaf(9, Fin(10), Some(v2)))
  {
    hide Whole, Pruned, FreeAddress;
    WholePruned(10, Fin(20), Leaf(9, Fin(10), Some(v2)), Leaf(7, Fin(20), Some(w)), true);
  }

  lemma WholeLeaves(x: Tree)
    ensures Leaves(Whole(x)) == Leaves(x) + {Leaf(4, Inf(0), None), Leaf(3, Inf(1), None), Leaf(2, Inf(2), None)}
  {
    var top := Whole(x).left;
    assert Leaves(top.left) == Leaves(x) + {Leaf(4, Inf(0), None)};
    assert Leaves(top) == Leaves(x) + {Leaf(4, Inf(0), None), Leaf(3, Inf(1), None)};
  }

  /** Up to the moment at which leaf 5 is out of the tree and thread 0 holds on to it by its address alone. */
  lemma LetsGo(s0: State, v: Value, w: Value)
    returns (ls: seq<Label>, s: State, call: Call, own: Own, from: nat, op1: Op)
    requires Init(s0) && !s0.guarded && s0.ops == [Idle, Idle]
    ensures Reaches(s0, ls, s) && call.kind == Remove && call.key == 10 && own.leaf == 5 && Resting(op1)
    ensures Scene(s, Nodes(v, 7, Rest(w, FLAGGED, TAGGED)), [0, 1, 2, 3, 4, 5, 6, 7, 8],
                  Whole(Leaf(7, Fin(20), Some(w))), {5},
                  SeekTopTag(call, Some(own), from, TOP, 6), op1)
  {
    hide Reaches, Nodes, Whole, Resting;
    var r1, r2, r3, r4, r5, end, end2, p, q, helper;
    ls, r1, end := InsertTen(s0, v);
    NodesAt(v, 5, []);
    ls, r2, end2 := InsertBelowSix(s0, ls, r1, v, 5, [], 10, v, 20, w, Idle, end, 7, 8);
    assert [] + [L(20, w), Grown(7, 5, 10, 20)] == Rest(w, E(5), E(7));
    assert [0, 1, 2, 3, 4, 5, 6] + [7, 8] == [0, 1, 2, 3, 4, 5, 6, 7, 8];
    var addrs := [0, 1, 2, 3, 4, 5, 6, 7, 8];
    ls, r3, call, own, p := FlagsFive(s0, ls, r2, v, w, Whole(Pair(v, w)), addrs, end2);
    ls, r4, helper, q := MeetsFlag(s0, ls, r3, v, w, addrs, r3.ops[0], end2);
    ls, r5, op1 := HelpsOut(s0, ls, r4, v, w, addrs, r3.ops[0], helper, q);
    ls, s, from := SeeksAgain(s0, ls, r5, v, w, addrs, call, own, p, op1);
  }

  /** Over hazard pointers a run can take a leaf out of the tree that nobody has flagged: here leaf 7, with key 20, in a
      run in which only 10 is ever removed. */
  lemma HazardPointersLoseAKey(s0: State, v: Value, w: Value, v2: Value) returns (ls: seq<Label>, l: Label)
    requires Init(s0) && !s0.guarded && s0.ops == [Idle, Idle]
    ensures Runnable(s0, ls) && Enabled(Run(s0, ls), l)
    ensures var s := Run(s0, ls);
            var lost := Leaf(7, Fin(20), Some(w));
            && lost in Leaves(s.tree) && lost !in Leaves(Apply(s, l).tree) && s.taken == {5}
  {
    hide Nodes, Whole, Runnable, Run, Enabled, Apply, Resting;
    var s, r1, r2, call, own, from, op1, end, p;
    ls, s, call, own, from, op1 := LetsGo(s0, v, w);
    var rest := Rest(w, FLAGGED, TAGGED);
    RestAt(v, 7, w, FLAGGED, TAGGED, []);
    assert rest + [] == rest;
    ls, r1, end := InsertBelowSix(s0, ls, s, v, 7, rest, 20, w, 10, v2, s.ops[0], op1, 5, 9);
    assert [0, 1, 2, 3, 4, 5, 6, 7, 8] + [5, 9] == [0, 1, 2, 3, 4, 5, 6, 7, 8, 5, 9];
    ls, r2, p := MixesUp(s0, ls, r1, v, w, v2, call, own, from, end);
    l := Step(0, 0, 0);
    LastSplice(r2, call, own, p, v2, w);
    WholeLeaves(NewPair(v2, w));
    WholeLeaves(Leaf(9, Fin(10), Some(v2)));
  }
}
