/** What a thread knows about the tree outlives the steps of the others. */
module TreeFrames {
  import opened Options
  import opened TreeShapes
  import opened TreeModel
  import opened TreeInvariant

  // ---------------------------------------------------------------- reading the tree off the heap

  lemma {:induction false} ReprMember(nodes: seq<Rec>, t: Tree, n: Node)
    requires Repr(nodes, t) && n in Ids(t)
    ensures n < |nodes|
  {
    if t.Inner? && n != t.id {
      if n in Ids(t.left) { ReprMember(nodes, t.left, n); } else { ReprMember(nodes, t.right, n); }
    }
  }

  /** An inner node of the heap that is in the tree is an inner node of the tree, and conversely. */
  lemma {:induction false} OnWayInner(nodes: seq<Rec>, t: Tree, k: int, n: Node)
    requires Repr(nodes, t) && OnWay(t, k, n)
    ensures IsInner(nodes, n) && n in Ids(t)
  {
    if t.id != n { OnWayInner(nodes, Kid(t, k), k, n); }
  }

  /** From a node on k's way, k's edge leads on along the way, or to its end. */
  lemma {:induction false} WayGoesOn(nodes: seq<Rec>, t: Tree, k: int, n: Node)
    requires Repr(nodes, t) && OnWay(t, k, n)
    ensures n < |nodes|
    ensures var e := Out(nodes, n, Side(nodes, n, k));
            && e.to.Some? && e.to.value in Ids(t) && e.to.value < |nodes|
            && (if IsLeaf(nodes, e.to.value) then WayEnd(t, k).id == e.to.value else OnWay(t, k, e.to.value))
            && Under(t, k, n).id == e.to.value
  {
    LeafIds(Kid(t, k));
    if t.id != n { WayGoesOn(nodes, Kid(t, k), k, n); }
  }

  lemma WasEndLater(hist: seq<Tree>, more: seq<Tree>, k: int, from: nat, n: Node)
    requires WasEnd(hist, k, from, n)
    ensures WasEnd(hist + more, k, from, n)
  {
    var m :| from <= m < |hist| && WayEnd(hist[m], k).id == n;
    assert (hist + more)[m] == hist[m];
  }

  /** A step takes a node that a thread has visited to one that it still knows to be good. */
  lemma {:induction false} GoodLater(nodes: seq<Rec>, t: Tree, now: seq<Rec>, u: Tree, hist: seq<Tree>, k: int,
                                     from: nat, n: Node)
    requires Heap(nodes) && Repr(nodes, t) && Evolves(nodes, t, now, u)
    requires |hist| > 0 && hist[|hist| - 1] == t && from < |hist|
    requires Good(nodes, t, hist, k, from, n)
    ensures Good(now, u, hist + [u], k, from, n)
    decreases |nodes| - n
  {
    hide Evolves, WasEnd, OnWay, Repr, WayEnd, Ids;
    GoodKept(nodes, t, now, u, n);
    if n in Ids(u) {
      GoodStays(nodes, t, now, u, k, n);
    } else {
      assert RecOk(nodes, n);
      if n in Ids(t) { WayGoesOn(nodes, t, k, n); }
      var c := Out(nodes, n, Side(nodes, n, k)).to.value;
      GoodKept(nodes, t, now, u, c);
      if IsLeaf(nodes, c) {
        if n in Ids(t) { NowEnd(hist, t, k, from, c); }
        WasEndLater(hist, [u], k, from, c);
      } else {
        GoodLater(nodes, t, now, u, hist, k, from, c);
      }
    }
  }

  lemma NowEnd(hist: seq<Tree>, t: Tree, k: int, from: nat, c: Node)
    requires |hist| > 0 && hist[|hist| - 1] == t && from < |hist| && WayEnd(t, k).id == c
    ensures WasEnd(hist, k, from, c)
  {
  }

  lemma GoodKept(nodes: seq<Rec>, t: Tree, now: seq<Rec>, u: Tree, n: Node)
    requires Evolves(nodes, t, now, u)
    ensures |nodes| <= |now|
    ensures n < |nodes| ==> NodeKept(nodes[n], now[n]) && (n !in Ids(u) ==> SameTargets(nodes[n], now[n]))
    ensures n < |nodes| ==> IsLeaf(nodes, n) == IsLeaf(now, n) && IsInner(nodes, n) == IsInner(now, n)
  {
  }

  lemma GoodStays(nodes: seq<Rec>, t: Tree, now: seq<Rec>, u: Tree, k: int, n: Node)
    requires Evolves(nodes, t, now, u) && IsInner(nodes, n) && n in Ids(u)
    ensures n in Ids(t) && (OnWay(t, k, n) ==> OnWay(u, k, n))
  {
  }

  // ---------------------------------------------------------------- each piece of knowledge

  /** A step from a good state. */
  ghost predicate Moves(nodes: seq<Rec>, t: Tree, now: seq<Rec>, u: Tree, hist: seq<Tree>) {
    && Heap(nodes) && Repr(nodes, t) && Evolves(nodes, t, now, u)
    && |hist| > 0 && hist[|hist| - 1] == t
  }

  lemma VisitedLater(nodes: seq<Rec>, t: Tree, now: seq<Rec>, u: Tree, hist: seq<Tree>, k: int, from: nat, n: Node)
    requires Moves(nodes, t, now, u, hist) && from < |hist|
    requires Visited(nodes, t, hist, k, from, n)
    ensures Visited(now, u, hist + [u], k, from, n)
    ensures |nodes| <= |now| && (n < |nodes| ==> NodeKept(nodes[n], now[n]))
  {
    hide Evolves, Good, WasEnd, Repr, Heap;
    GoodKept(nodes, t, now, u, n);
    if IsLeaf(nodes, n) {
      WasEndLater(hist, [u], k, from, n);
    } else {
      GoodLater(nodes, t, now, u, hist, k, from, n);
      GoodIsInner(nodes, t, hist, k, from, n);
    }
  }

  lemma GoodIsInner(nodes: seq<Rec>, t: Tree, hist: seq<Tree>, k: int, from: nat, n: Node)
    requires Good(nodes, t, hist, k, from, n)
    ensures IsInner(nodes, n)
  {
  }

  lemma TagStepLater(nodes: seq<Rec>, now: seq<Rec>, k: int, a: Node, b: Node)
    requires NodesKept(nodes, now) && TagStep(nodes, k, a, b)
    ensures TagStep(now, k, a, b)
  {
    assert NodeKept(nodes[a], now[a]);
  }

  lemma ViaLater(nodes: seq<Rec>, now: seq<Rec>, k: int, via: seq<Node>)
    requires NodesKept(nodes, now) && ViaOk(nodes, k, via)
    ensures ViaOk(now, k, via)
  {
    hide NodesKept, TagStep;
    forall i, j | 0 <= i && j == i + 1 && j < |via| ensures TagStep(now, k, via[i], via[j]) {
      TagStepLater(nodes, now, k, via[i], via[j]);
    }
  }

  lemma PathLater(nodes: seq<Rec>, t: Tree, now: seq<Rec>, u: Tree, hist: seq<Tree>, call: Call, p: Path)
    requires Moves(nodes, t, now, u, hist) && PathOk(nodes, t, hist, call, p)
    ensures PathOk(now, u, hist + [u], call, p)
  {
    hide Good, Repr, Heap, NodesKept, ViaOk;
    assert NodesKept(nodes, now);
    hide Evolves;
    GoodLater(nodes, t, now, u, hist, call.key, p.from, p.anc);
    GoodLater(nodes, t, now, u, hist, call.key, p.from, p.par);
    ViaLater(nodes, now, call.key, p.via);
    ViaNotEmpty(nodes, call.key, p.via);
  }

  lemma ViaNotEmpty(nodes: seq<Rec>, k: int, via: seq<Node>)
    requires ViaOk(nodes, k, via)
    ensures via != []
  {
  }

  lemma SeekLater(nodes: seq<Rec>, t: Tree, now: seq<Rec>, u: Tree, hist: seq<Tree>, call: Call, p: Path)
    requires Moves(nodes, t, now, u, hist) && SeekOk(nodes, t, hist, call, p)
    ensures SeekOk(now, u, hist + [u], call, p)
    ensures NodeKept(nodes[p.leaf], now[p.leaf])
  {
    hide Evolves, WasEnd, Repr, Heap, PathOk;
    GoodKept(nodes, t, now, u, p.leaf);
    WasEndLater(hist, [u], call.key, p.from, p.leaf);
    PathLater(nodes, t, now, u, hist, call, p);
  }

  lemma OwnLater(nodes: seq<Rec>, now: seq<Rec>, hist: seq<Tree>, u: Tree, taken: set<Node>, more: set<Node>,
                 call: Call, own: Option<Own>, from: nat, to: nat)
    requires NodesKept(nodes, now) && taken <= more && from <= to
    requires OwnOk(nodes, hist, taken, call, own, from)
    ensures OwnOk(now, hist + [u], more, call, own, to)
  {
    hide Leaves;
  }

  lemma StuckLater(nodes: seq<Rec>, now: seq<Rec>, k: int, p: Path)
    requires NodesKept(nodes, now) && Stuck(nodes, k, p)
    ensures Stuck(now, k, p)
  {
    assert NodeKept(nodes[p.par], now[p.par]);
  }

  lemma SideLater(nodes: seq<Rec>, now: seq<Rec>, k: int, p: Path, side: bool)
    requires NodesKept(nodes, now) && SideOk(nodes, k, p, side)
    ensures SideOk(now, k, p, side)
    ensures Out(nodes, p.par, side).tag ==> Out(now, p.par, side) == Out(nodes, p.par, side)
  {
    assert NodeKept(nodes[p.par], now[p.par]);
  }

  lemma SomeTimeLater(hist: seq<Tree>, u: Tree, since: nat, k: int, v: Option<Value>)
    requires SomeTime(hist, since, k, v)
    ensures SomeTime(hist + [u], since, k, v)
  {
    hide Holds;
    var m :| since <= m < |hist| && Holds(hist[m], k, v);
    assert (hist + [u])[m] == hist[m];
  }

  lemma HadItLater(hist: seq<Tree>, u: Tree, since: nat, k: int)
    requires HadIt(hist, since, k)
    ensures HadIt(hist + [u], since, k)
  {
    hide Has;
    var m :| since <= m < |hist| && Has(hist[m], k);
    assert (hist + [u])[m] == hist[m];
  }

  lemma JustifiedLater(hist: seq<Tree>, u: Tree, taken: set<Node>, more: set<Node>, call: Call, answer: Answer,
                       leaf: Node)
    requires Justified(hist, taken, call, answer, leaf) && taken <= more
    ensures Justified(hist + [u], more, call, answer, leaf)
  {
    hide Has, Leaves, SomeTime, HadIt;
    match call.kind {
      case Get => SomeTimeLater(hist, u, call.since, call.key, answer.val);
      case Insert(v) =>
        if answer.ok {
          var x := Leaf(leaf, Fin(call.key), Some(v));
          var m :| call.since <= m && AddedThen(hist, call.key, x, m);
          assert (hist + [u])[m] == hist[m] && (hist + [u])[m + 1] == hist[m + 1];
          assert AddedThen(hist + [u], call.key, x, m);
        } else {
          HadItLater(hist, u, call.since, call.key);
        }
      case Remove =>
        if answer.val.Some? {
          var x := Leaf(leaf, Fin(call.key), answer.val);
          var m :| call.since <= m && RemovedThen(hist, call.key, x, m);
          assert (hist + [u])[m] == hist[m] && (hist + [u])[m + 1] == hist[m + 1];
          assert RemovedThen(hist + [u], call.key, x, m);
        } else {
          SomeTimeLater(hist, u, call.since, call.key, None);
        }
    }
  }

  // ---------------------------------------------------------------- all together

  lemma SeekingLater(nodes: seq<Rec>, t: Tree, now: seq<Rec>, u: Tree, hist: seq<Tree>, taken: set<Node>,
                     more: set<Node>, op: Op)
    requires Moves(nodes, t, now, u, hist) && taken <= more
    requires op.Idle? || op.GetTop? || op.GetFirst? || op.GetWalk? || op.SeekRoot? || op.SeekTop? ||
      op.SeekTopTag? || op.SeekFirstTag? || op.SeekFirst?
    requires OpInv(nodes, t, hist, taken, op)
    ensures OpInv(now, u, hist + [u], more, op)
  {
    hide OwnOk, Visited, Heap, Repr, NodesKept, PathOk, Good, Justified;
    assert NodesKept(nodes, now);
    hide Evolves;
    match op {
      case Idle =>
      case GetTop(_) =>
      case GetFirst(call, leaf) => VisitedLater(nodes, t, now, u, hist, call.key, call.since, leaf);
      case GetWalk(call, leaf) => VisitedLater(nodes, t, now, u, hist, call.key, call.since, leaf);
      case SeekRoot(call, own) => OwnLater(nodes, now, hist, u, taken, more, call, own, |hist|, |hist| + 1);
      case SeekTop(call, own, from, _) => OwnLater(nodes, now, hist, u, taken, more, call, own, from, from);
      case SeekTopTag(call, own, from, _, leaf) =>
        OwnLater(nodes, now, hist, u, taken, more, call, own, from, from);
        VisitedLater(nodes, t, now, u, hist, call.key, from, leaf);
      case SeekFirstTag(call, own, from, _, leaf, _) =>
        OwnLater(nodes, now, hist, u, taken, more, call, own, from, from);
        VisitedLater(nodes, t, now, u, hist, call.key, from, leaf);
      case SeekFirst(call, own, from, _, leaf, _, _) =>
        OwnLater(nodes, now, hist, u, taken, more, call, own, from, from);
        VisitedLater(nodes, t, now, u, hist, call.key, from, leaf);
    }
  }

  lemma OpLater(nodes: seq<Rec>, t: Tree, now: seq<Rec>, u: Tree, hist: seq<Tree>, taken: set<Node>, more: set<Node>,
                op: Op)
    requires Moves(nodes, t, now, u, hist) && taken <= more
    requires OpInv(nodes, t, hist, taken, op)
    ensures OpInv(now, u, hist + [u], more, op)
  {
    hide OwnOk, Visited, Heap, Repr, NodesKept, PathOk, Good, Justified, TagStep, SeekOk, Stuck, SideOk;
    assert NodesKept(nodes, now);
    hide Evolves;
    match op {
      case SeekWalk(call, own, p, ptag) =>
        OwnLater(nodes, now, hist, u, taken, more, call, own, p.from, p.from);
        PathFrom(nodes, t, hist, call, p);
        PathLater(nodes, t, now, u, hist, call, p);
        VisitedLater(nodes, t, now, u, hist, call.key, p.from, p.leaf);
        if ptag { TagStepLater(nodes, now, call.key, p.par, p.leaf); }
        if own.Some? && own.value.leaf == p.leaf { StuckLater(nodes, now, call.key, p); }
      case InsertCas(call, p) => SeekLater(nodes, t, now, u, hist, call, p);
      case FlagCas(call, p) => SeekLater(nodes, t, now, u, hist, call, p);
      case Recheck(call, p) => SeekLater(nodes, t, now, u, hist, call, p);
      case Clean(call, own, p) =>
        SeekLater(nodes, t, now, u, hist, call, p);
        StuckLater(nodes, now, call.key, p);
        OwnLater(nodes, now, hist, u, taken, more, call, own, |hist|, |hist| + 1);
      case TagRead(call, own, p, side) =>
        SeekLater(nodes, t, now, u, hist, call, p);
        SideLater(nodes, now, call.key, p, side);
        OwnLater(nodes, now, hist, u, taken, more, call, own, |hist|, |hist| + 1);
      case TagCas(call, own, p, side, _) =>
        SeekLater(nodes, t, now, u, hist, call, p);
        SideLater(nodes, now, call.key, p, side);
        OwnLater(nodes, now, hist, u, taken, more, call, own, |hist|, |hist| + 1);
      case SiblingRead(call, own, p, side) =>
        SeekLater(nodes, t, now, u, hist, call, p);
        SideLater(nodes, now, call.key, p, side);
        OwnLater(nodes, now, hist, u, taken, more, call, own, |hist|, |hist| + 1);
      case Splice(call, own, p, side, _) =>
        SeekLater(nodes, t, now, u, hist, call, p);
        SideLater(nodes, now, call.key, p, side);
        OwnLater(nodes, now, hist, u, taken, more, call, own, |hist|, |hist| + 1);
      case Returned(call, answer, leaf) => JustifiedLater(hist, u, taken, more, call, answer, leaf);
      case _ => SeekingLater(nodes, t, now, u, hist, taken, more, op);
    }
  }

  lemma PathFrom(nodes: seq<Rec>, t: Tree, hist: seq<Tree>, call: Call, p: Path)
    requires PathOk(nodes, t, hist, call, p)
    ensures call.since <= p.from < |hist|
  {
  }
}
