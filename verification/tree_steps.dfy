/** Every step of the Natarajan-Mittal tree keeps its invariant. */
module TreeSteps {
  import opened Options
  import opened TreeShapes
  import opened TreeModel
  import opened TreeInvariant
  import opened TreeFrames
  import opened TreeUpdates
  import opened TreeSplices

  // ---------------------------------------------------------------- committing a step

  lemma HistLater(nodes: seq<Rec>, t: Tree, hist: seq<Tree>, now: seq<Rec>, u: Tree)
    requires HistInv(nodes, t, hist) && NodesKept(nodes, now) && OneWay(t, u) && Ordered(u) && Labelled(now, u)
    ensures HistInv(now, u, hist + [u])
  {
    hide OneWay, Ordered, Leaves;
    var h := hist + [u];
    forall m | 0 <= m < |h| ensures Ordered(h[m]) && Labelled(now, h[m]) {
      if m < |hist| {
        assert Labelled(nodes, hist[m]);
        forall x | x in Leaves(h[m])
          ensures x.Leaf? && IsLeaf(now, x.id) && now[x.id].key == x.key && now[x.id].val == x.val
        {
          assert NodeKept(nodes[x.id], now[x.id]);
        }
      }
    }
    forall m, i | 0 <= m && i == m + 1 && i < |h| ensures OneWay(h[m], h[i]) {
      if i < |hist| { assert OneWay(hist[m], hist[i]); }
    }
  }

  lemma OpsLater(s: State, t: nat, e: Effect)
    requires TreeInv(s.nodes, s.tree, s.taken) && HistInv(s.nodes, s.tree, s.hist)
    requires OpsInv(s.nodes, s.tree, s.hist, s.taken, s.ops) && t < |s.ops|
    requires Evolves(s.nodes, s.tree, e.nodes, e.tree) && s.taken <= e.taken
    requires OpInv(e.nodes, e.tree, s.hist + [e.tree], e.taken, e.op)
    ensures OpsInv(e.nodes, e.tree, s.hist + [e.tree], e.taken, s.ops[t := e.op])
  {
    hide OpInv, Evolves, Heap, Repr, NoDup, Ordered, TopShape, DeadMarked, FlagsTaken;
    var ops := s.ops[t := e.op];
    var hist := s.hist + [e.tree];
    forall i | 0 <= i < |ops| ensures OpInv(e.nodes, e.tree, hist, e.taken, ops[i]) {
      if i != t { OpLater(s.nodes, s.tree, e.nodes, e.tree, s.hist, s.taken, e.taken, s.ops[i]); }
    }
  }

  lemma Commit(s: State, t: nat, e: Effect)
    requires Inv(s) && t < |s.ops| && AddrInv(e.nodes, e.addrs, e.tree)
    requires TreeInv(e.nodes, e.tree, e.taken) && Evolves(s.nodes, s.tree, e.nodes, e.tree)
    requires s.taken <= e.taken && OneWay(s.tree, e.tree)
    requires OpInv(e.nodes, e.tree, s.hist + [e.tree], e.taken, e.op)
    ensures Inv(After(s, t, e))
  {
    hide OpInv, Heap, Repr, NoDup, Ordered, TopShape, DeadMarked, FlagsTaken, OpsInv, HistInv, NodesKept, OneWay,
         Labelled,
         AddrInv;
    OpsLater(s, t, e);
    LeavesLabelled(e.nodes, e.tree);
    HistLater(s.nodes, s.tree, s.hist, e.nodes, e.tree);
  }

  lemma NothingChanges(nodes: seq<Rec>, t: Tree)
    ensures Evolves(nodes, t, nodes, t) && OneWay(t, t)
  {
  }

  /** A step that only reads. */
  lemma CommitQuiet(s: State, t: nat, op: Op)
    requires Inv(s) && t < |s.ops| && OpInv(s.nodes, s.tree, s.hist + [s.tree], s.taken, op)
    ensures Inv(After(s, t, Quiet(s, op)))
  {
    hide OpInv, TreeInv, OpsInv, HistInv, Evolves, OneWay, After, AddrInv;
    NothingChanges(s.nodes, s.tree);
    Commit(s, t, Quiet(s, op));
  }

  /** What a thread knows still holds when a step of its own has only read. */
  lemma StillKnown(s: State, t: nat)
    requires Inv(s) && t < |s.ops|
    ensures OpInv(s.nodes, s.tree, s.hist + [s.tree], s.taken, s.ops[t])
    ensures HistInv(s.nodes, s.tree, s.hist + [s.tree])
  {
    hide OpInv, Evolves, Heap, Repr, NoDup, Ordered, TopShape, DeadMarked, FlagsTaken, OneWay;
    NothingChanges(s.nodes, s.tree);
    OpLater(s.nodes, s.tree, s.nodes, s.tree, s.hist, s.taken, s.taken, s.ops[t]);
    NodesStay(s.nodes);
    LeavesLabelled(s.nodes, s.tree);
    HistLater(s.nodes, s.tree, s.hist, s.nodes, s.tree);
  }

  lemma NodesStay(nodes: seq<Rec>)
    ensures NodesKept(nodes, nodes)
  {
  }

  // ---------------------------------------------------------------- reading on

  /** k's edge out of a good node leads to a node that is visited rightly. */
  lemma ReadOn(nodes: seq<Rec>, t: Tree, hist: seq<Tree>, k: int, from: nat, n: Node)
    requires Heap(nodes) && Repr(nodes, t) && |hist| > 0 && hist[|hist| - 1] == t && from < |hist|
    requires Good(nodes, t, hist, k, from, n)
    ensures n < |nodes|
    ensures var e := Out(nodes, n, Side(nodes, n, k));
            e.to.Some? && e.to.value < |nodes| && Visited(nodes, t, hist, k, from, e.to.value)
  {
    hide OnWay, Repr, WayEnd, WasEnd, Ids;
    assert RecOk(nodes, n);
    if n in Ids(t) {
      WayGoesOn(nodes, t, k, n);
      var c := Out(nodes, n, Side(nodes, n, k)).to.value;
      if IsLeaf(nodes, c) { NowEnd(hist, t, k, from, c); }
    }
  }

  lemma NilIsLeaf(nodes: seq<Rec>, n: Node, left: bool)
    requires Heap(nodes) && n < |nodes|
    ensures Out(nodes, n, left).to.None? <==> IsLeaf(nodes, n)
  {
    assert RecOk(nodes, n);
  }

  lemma TopGood(nodes: seq<Rec>, t: Tree, hist: seq<Tree>, k: int, from: nat)
    requires Heap(nodes) && Repr(nodes, t) && TopShape(t)
    ensures Good(nodes, t, hist, k, from, ROOT) && Good(nodes, t, hist, k, from, TOP)
    ensures Side(nodes, TOP, k) && nodes[ROOT].left.to == Some(TOP)
  {
    TopFlags(nodes, t);
    TopSides(nodes, t, k);
    assert t.left.id in Ids(t);
    assert OnWay(t.left, k, TOP) && Kid(t, k) == t.left;
  }

  /** What the leaf at the end of k's way tells about k. */
  lemma EndTells(nodes: seq<Rec>, t: Tree, hist: seq<Tree>, k: int, from: nat, leaf: Node)
    requires Heap(nodes) && HistInv(nodes, t, hist) && WasEnd(hist, k, from, leaf) && IsLeaf(nodes, leaf)
    ensures if nodes[leaf].key == Fin(k) then nodes[leaf].val.Some? && SomeTime(hist, from, k, nodes[leaf].val)
        && HadIt(hist, from, k)
            else SomeTime(hist, from, k, None)
  {
    hide Leaves, Ordered, WayEnd;
    var m :| from <= m < |hist| && WayEnd(hist[m], k).id == leaf;
    assert Ordered(hist[m]) && Labelled(nodes, hist[m]);
    var x := WayEnd(hist[m], k);
    WayEndIsLeaf(hist[m], k);
    assert RecOk(nodes, leaf);
    if nodes[leaf].key == Fin(k) {
      assert Holds(hist[m], k, nodes[leaf].val) && Has(hist[m], k);
    } else {
      NotThere(hist[m], k);
      assert Holds(hist[m], k, None);
    }
  }

  lemma SomeTimeSooner(hist: seq<Tree>, since: nat, from: nat, k: int, v: Option<Value>)
    requires SomeTime(hist, from, k, v) && since <= from
    ensures SomeTime(hist, since, k, v)
  {
  }

  lemma HadItSooner(hist: seq<Tree>, since: nat, from: nat, k: int)
    requires HadIt(hist, from, k) && since <= from
    ensures HadIt(hist, since, k)
  {
  }

  // ---------------------------------------------------------------- get

  lemma AfterGetOk(s: State, hist: seq<Tree>, call: Call, leaf: Node)
    requires Heap(s.nodes) && HistInv(s.nodes, s.tree, hist) && call.kind.Get?
    requires IsLeaf(s.nodes, leaf) && WasEnd(hist, call.key, call.since, leaf)
    ensures OpInv(s.nodes, s.tree, hist, s.taken, AfterGet(s, call, leaf))
  {
    hide Heap, HistInv, WasEnd, SomeTime, HadIt;
    EndTells(s.nodes, s.tree, hist, call.key, call.since, leaf);
  }

  lemma StepGetInv(s: State, t: nat)
    requires Inv(s) && t < |s.ops| && Sound(s.nodes, s.ops[t])
    requires s.ops[t].GetTop? || s.ops[t].GetFirst? || s.ops[t].GetWalk?
    ensures Inv(After(s, t, StepGet(s, s.ops[t])))
  {
    hide Heap, HistInv, WasEnd, Good, After, OpsInv, Repr, TopShape, NoDup, Ordered, DeadMarked, FlagsTaken;
    StillKnown(s, t);
    var hist := s.hist + [s.tree];
    match s.ops[t] {
      case GetTop(call) =>
        TopGood(s.nodes, s.tree, hist, call.key, call.since);
        TopFlags(s.nodes, s.tree);
        ReadOn(s.nodes, s.tree, hist, call.key, call.since, TOP);
        CommitQuiet(s, t, GetFirst(call, s.nodes[TOP].left.to.value));
      case GetFirst(call, leaf) =>
        NilIsLeaf(s.nodes, leaf, true);
        if IsLeaf(s.nodes, leaf) {
          AfterGetOk(s, hist, call, leaf);
          CommitQuiet(s, t, AfterGet(s, call, leaf));
        } else {
          ReadOn(s.nodes, s.tree, hist, call.key, call.since, leaf);
          CommitQuiet(s, t, GetWalk(call, s.nodes[leaf].left.to.value));
        }
      case GetWalk(call, leaf) =>
        var side := Side(s.nodes, leaf, call.key);
        NilIsLeaf(s.nodes, leaf, side);
        if IsLeaf(s.nodes, leaf) {
          AfterGetOk(s, hist, call, leaf);
          CommitQuiet(s, t, AfterGet(s, call, leaf));
        } else {
          ReadOn(s.nodes, s.tree, hist, call.key, call.since, leaf);
          CommitQuiet(s, t, GetWalk(call, Out(s.nodes, leaf, side).to.value));
        }
    }
  }

  // ---------------------------------------------------------------- seek

  lemma StepSeekStartInv(s: State, t: nat)
    requires Inv(s) && t < |s.ops| && Sound(s.nodes, s.ops[t])
    requires s.ops[t].SeekRoot? || s.ops[t].SeekTop? || s.ops[t].SeekTopTag? || s.ops[t].SeekFirstTag?
    ensures Inv(After(s, t, StepSeekStart(s, s.ops[t])))
  {
    hide Heap, HistInv, WasEnd, Good, After, Repr, TopShape, NoDup, Ordered, DeadMarked, FlagsTaken, Leaves;
    StillKnown(s, t);
    assert OpInv(s.nodes, s.tree, s.hist, s.taken, s.ops[t]);
    hide OpsInv;
    var hist := s.hist + [s.tree];
    TopFlags(s.nodes, s.tree);
    match s.ops[t] {
      case SeekRoot(call, own) =>
        TopGood(s.nodes, s.tree, hist, call.key, 0);
        CommitQuiet(s, t, SeekTop(call, own, |s.hist|, TOP));
      case SeekTop(call, own, from, par) =>
        TopGood(s.nodes, s.tree, hist, call.key, from);
        ReadOn(s.nodes, s.tree, hist, call.key, from, TOP) by { HistNow(s.nodes, s.tree, s.hist); }
        CommitQuiet(s, t, SeekTopTag(call, own, from, par, s.nodes[par].left.to.value));
      case SeekTopTag(call, own, from, par, leaf) =>
        CommitQuiet(s, t, SeekFirstTag(call, own, from, par, leaf, s.nodes[par].left.tag));
      case SeekFirstTag(call, own, from, par, leaf, ptag) =>
        CommitQuiet(s, t, SeekFirst(call, own, from, par, leaf, ptag, s.nodes[leaf].left.tag));
    }
  }

  lemma HistNow(nodes: seq<Rec>, t: Tree, hist: seq<Tree>)
    requires HistInv(nodes, t, hist)
    ensures |hist| > 0 && hist[|hist| - 1] == t
  {
  }

  /** If the flagged leaf's key leads elsewhere at a later instant, the leaf has left the tree in between. */
  lemma {:induction false} LeftInBetween(nodes: seq<Rec>, t: Tree, hist: seq<Tree>, k: int, x: Tree, at: nat, m: nat)
    requires HistInv(nodes, t, hist) && at <= m < |hist| && x in Leaves(hist[at]) && x.key == Fin(k)
    requires WayEnd(hist[m], k) != x
    ensures exists i :: at <= i && RemovedThen(hist, k, x, i)
    decreases m - at
  {
    hide Leaves, Labelled, WayEnd, Ordered;
    assert Ordered(hist[at]) && Ordered(hist[m]);
    if at == m {
      FoundAtWayEnd(hist[at], k, x);
    } else if x in Leaves(hist[at + 1]) {
      LeftInBetween(nodes, t, hist, k, x, at + 1, m);
    } else {
      assert OneWay(hist[at], hist[at + 1]);
      OnlyOne(hist[at], hist[at + 1], k, x);
      assert RemovedThen(hist, k, x, at);
    }
  }

  lemma OnlyOne(t: Tree, u: Tree, k: int, x: Tree)
    requires Ordered(t) && x in Leaves(t) && x !in Leaves(u) && x.key == Fin(k) && Leaves(u) <= Leaves(t)
    ensures !Has(u, k)
  {
    hide Leaves, Ordered;
    if Has(u, k) {
      var y :| y in Leaves(u) && y.key == Fin(k);
      FoundAtWayEnd(t, k, x);
      FoundAtWayEnd(t, k, y);
    }
  }

  lemma OwnGone(s: State, hist: seq<Tree>, call: Call, own: Own, from: nat, leaf: Node)
    requires HistInv(s.nodes, s.tree, hist) && OwnOk(s.nodes, hist, s.taken, call, Some(own), from) && Heap(s.nodes)
    requires WasEnd(hist, call.key, from, leaf) && leaf != own.leaf
    ensures Justified(hist, s.taken, call, Found(s.nodes[own.leaf].val), own.leaf)
  {
    hide Leaves, HistInv, WayEnd, RemovedThen;
    var x := Leaf(own.leaf, Fin(call.key), s.nodes[own.leaf].val);
    var m :| from <= m < |hist| && WayEnd(hist[m], call.key).id == leaf;
    LeftInBetween(s.nodes, s.tree, hist, call.key, x, own.at, m);
    assert RecOk(s.nodes, own.leaf);
  }

  lemma AfterSeekOk(s: State, hist: seq<Tree>, call: Call, own: Option<Own>, p: Path)
    requires Heap(s.nodes) && HistInv(s.nodes, s.tree, hist) && !call.kind.Get? && |hist| == |s.hist| + 1
    requires SeekOk(s.nodes, s.tree, hist, call, p) && OwnOk(s.nodes, hist, s.taken, call, own, p.from)
    requires own.Some? && own.value.leaf == p.leaf ==> Stuck(s.nodes, call.key, p)
    requires |s.addrs| == |s.nodes|
    requires (own.Some? && HasAddr(s, p.leaf, s.addrs[own.value.leaf]) ==> p.leaf == own.value.leaf)
    ensures OpInv(s.nodes, s.tree, hist, s.taken, AfterSeek(s, call, own, p))
  {
    hide Heap, HistInv, WasEnd, Good, Leaves, ViaOk, SomeTime, HadIt;
    EndTells(s.nodes, s.tree, hist, call.key, p.from, p.leaf);
    if own.Some? {
      if own.value.leaf != p.leaf { OwnGone(s, hist, call, own.value, p.from, p.leaf); }
    } else if s.nodes[p.leaf].key == Fin(call.key) {
      HadItSooner(hist, call.since, p.from, call.key);
    } else {
      SomeTimeSooner(hist, call.since, p.from, call.key, None);
    }
  }

  /** An edge that leads to a taken leaf is marked. */
  lemma TakenMarked(nodes: seq<Rec>, t: Tree, taken: set<Node>, n: Node, side: bool)
    requires TreeInv(nodes, t, taken) && IsInner(nodes, n) && Out(nodes, n, side).to.Some?
    requires Out(nodes, n, side).to.value in taken
    ensures Marked(Out(nodes, n, side))
  {
    hide Heap, Repr, NoDup, Ordered, TopShape, Ids;
    assert EdgeTaken(nodes, Ids(t), taken, n, true) && EdgeTaken(nodes, Ids(t), taken, n, false);
    if n !in Ids(t) { assert BothMarked(nodes, n); }
  }

  lemma SeekFirstInv(s: State, t: nat, a: Addr, b: Addr)
    requires Inv(s) && Enabled(s, Step(t, a, b)) && s.ops[t].SeekFirst? && !MixUp(s, Step(t, a, b))
    ensures Inv(After(s, t, StepSeek(s, s.ops[t])))
  {
    hide Heap, HistInv, WasEnd, Good, After, OpsInv, Repr, TopShape, NoDup, Ordered, DeadMarked, FlagsTaken, Leaves;
    StillKnown(s, t);
    HistNow(s.nodes, s.tree, s.hist);
    var hist := s.hist + [s.tree];
    var call, own, from, leaf := s.ops[t].call, s.ops[t].own, s.ops[t].from, s.ops[t].leaf;
    var p := Path(from, ROOT, None, TOP, leaf, [TOP]);
    TopGood(s.nodes, s.tree, hist, call.key, from);
    NilIsLeaf(s.nodes, leaf, true);
    if IsLeaf(s.nodes, leaf) {
      AfterSeekOk(s, hist, call, own, p);
      CommitQuiet(s, t, AfterSeek(s, call, own, p));
    } else {
      ReadOn(s.nodes, s.tree, hist, call.key, from, leaf);
      var to := s.nodes[leaf].left.to.value;
      var q := Advance(p, false, to);
      if own.Some? && own.value.leaf == to { TakenMarked(s.nodes, s.tree, s.taken, leaf, true); }
      CommitQuiet(s, t, SeekWalk(call, own, q, s.ops[t].ctag));
    }
  }

  lemma ViaGrows(nodes: seq<Rec>, k: int, via: seq<Node>, n: Node)
    requires ViaOk(nodes, k, via) && TagStep(nodes, k, via[|via| - 1], n)
    ensures ViaOk(nodes, k, via + [n])
  {
    hide TagStep;
    var more := via + [n];
    forall i, j | 0 <= i && j == i + 1 && j < |more| ensures TagStep(nodes, k, more[i], more[j]) {
      if j < |via| { assert TagStep(nodes, k, via[i], via[j]); }
    }
  }

  lemma AdvanceOk(nodes: seq<Rec>, t: Tree, hist: seq<Tree>, call: Call, p: Path, ptag: bool, to: Node)
    requires PathOk(nodes, t, hist, call, p) && Good(nodes, t, hist, call.key, p.from, p.leaf)
    requires ptag ==> TagStep(nodes, call.key, p.par, p.leaf)
    ensures PathOk(nodes, t, hist, call, Advance(p, ptag, to))
  {
    hide Good, TagStep;
    if ptag { ViaGrows(nodes, call.key, p.via, p.leaf); }
  }

  lemma SeekWalkInv(s: State, t: nat, a: Addr, b: Addr)
    requires Inv(s) && Enabled(s, Step(t, a, b)) && s.ops[t].SeekWalk? && !MixUp(s, Step(t, a, b))
    ensures Inv(After(s, t, StepSeek(s, s.ops[t])))
  {
    hide Heap, HistInv, WasEnd, Good, After, OpsInv, Repr, TopShape, NoDup, Ordered, DeadMarked, FlagsTaken, Leaves,
         PathOk;
    StillKnown(s, t);
    HistNow(s.nodes, s.tree, s.hist);
    var hist := s.hist + [s.tree];
    var call, own, p, ptag := s.ops[t].call, s.ops[t].own, s.ops[t].p, s.ops[t].ptag;
    var side := Side(s.nodes, p.leaf, call.key);
    NilIsLeaf(s.nodes, p.leaf, side);
    if IsLeaf(s.nodes, p.leaf) {
      AfterSeekOk(s, hist, call, own, p);
      CommitQuiet(s, t, AfterSeek(s, call, own, p));
    } else {
      PathFrom(s.nodes, s.tree, hist, call, p);
      ReadOn(s.nodes, s.tree, hist, call.key, p.from, p.leaf);
      GoodIsInner(s.nodes, s.tree, hist, call.key, p.from, p.leaf);
      var e := Out(s.nodes, p.leaf, side);
      var q := Advance(p, ptag, e.to.value);
      AdvanceOk(s.nodes, s.tree, hist, call, p, ptag, e.to.value);
      if own.Some? && own.value.leaf == e.to.value { TakenMarked(s.nodes, s.tree, s.taken, p.leaf, side); }
      CommitQuiet(s, t, SeekWalk(call, own, q, e.tag));
    }
  }

  // ---------------------------------------------------------------- insert and remove

  /** A node with an edge that is not marked is in the tree, and so on the way of whoever came by. */
  lemma LooseOnWay(nodes: seq<Rec>, t: Tree, taken: set<Node>, hist: seq<Tree>, k: int, from: nat, n: Node, side: bool)
    requires TreeInv(nodes, t, taken) && Good(nodes, t, hist, k, from, n) && n < |nodes| && !Marked(Out(nodes, n, side))
    ensures OnWay(t, k, n) && n in Ids(t)
  {
    hide Heap, Repr, NoDup, Ordered, TopShape, FlagsTaken, OnWay, Ids, WasEnd;
    assert IsInner(nodes, n) && !BothMarked(nodes, n);
  }

  lemma InsertSucceeds(s: State, t: nat, a: Addr, b: Addr, call: Call, p: Path)
    requires Inv(s) && Enabled(s, Step(t, a, b)) && s.ops[t] == InsertCas(call, p) && call.kind.Insert?
    requires PathOk(s.nodes, s.tree, s.hist, call, p) && Loose(s.nodes, call.key, p.par, p.leaf)
    requires s.nodes[p.leaf].key != Fin(call.key) && OnWay(s.tree, call.key, p.par)
    ensures Inv(After(s, t, StepInsert(s, s.ops[t], a, b)))
  {
    hide TreeInv, HistInv, After, Leaves, OnWay, Replace, NewPart, Evolves, Has, Good, ViaOk, OpsInv, Ids, FreeAddress,
         WasEnd;
    var k, val := call.key, call.kind.val;
    InsertKeeps(s.nodes, s.tree, s.taken, k, val, p.par, p.leaf);
    var now := InsertedHeap(s.nodes, k, val, p.par, p.leaf);
    var u := Replace(s.tree, k, p.par, NewPart(s.nodes, k, val, p.leaf));
    HistNow(s.nodes, s.tree, s.hist);
    assert AddedThen(s.hist + [u], k, Leaf(|s.nodes|, Fin(k), Some(val)), |s.hist| - 1);
    TreeIdsBelow(s.nodes, s.tree, s.taken);
    InsertAddrs(s, t, a, b, u);
    Commit(s, t, Effect(now, s.addrs + [a, b], u, s.taken, Returned(call, Inserted(true), |s.nodes|)));
  }

  lemma TreeIdsBelow(nodes: seq<Rec>, t: Tree, taken: set<Node>)
    requires TreeInv(nodes, t, taken)
    ensures forall n :: n in Ids(t) ==> n < |nodes|
  {
    IdsBelow(nodes, t);
  }

  lemma StepInsertInv(s: State, t: nat, a: Addr, b: Addr)
    requires Inv(s) && Enabled(s, Step(t, a, b)) && s.ops[t].InsertCas? && s.ops[t].call.kind.Insert?
    ensures Inv(After(s, t, StepInsert(s, s.ops[t], a, b)))
  {
    hide TreeInv, HistInv, WasEnd, Good, After, OnWay, ViaOk, FreeAddress, AddrInv;
    assert OpInv(s.nodes, s.tree, s.hist, s.taken, s.ops[t]);
    hide OpsInv;
    var call, p := s.ops[t].call, s.ops[t].p;
    var side := Side(s.nodes, p.par, call.key);
    if Out(s.nodes, p.par, side) == Edge(Some(p.leaf), false, false) {
      GoodIsInner(s.nodes, s.tree, s.hist, call.key, p.from, p.par);
      LooseOnWay(s.nodes, s.tree, s.taken, s.hist, call.key, p.from, p.par, side);
      InsertSucceeds(s, t, a, b, call, p);
    } else {
      StillKnown(s, t);
      CommitQuiet(s, t, Recheck(call, p));
    }
  }

  /** The new nodes lie where no node of the tree does. */
  lemma InsertAddrs(s: State, t: nat, a: Addr, b: Addr, u: Tree)
    requires AddrInv(s.nodes, s.addrs, s.tree) && Enabled(s, Step(t, a, b)) && s.ops[t].InsertCas?
    requires Ids(u) <= Ids(s.tree) + {|s.nodes|, |s.nodes| + 1} && forall n :: n in Ids(s.tree) ==> n < |s.nodes|
    ensures AddrsApart(s.addrs + [a, b], Ids(u))
  {
    hide Ids, Sound, HeldBy, OwnOf;
    var addrs := s.addrs + [a, b];
    forall n, m | n in Ids(u) && m in Ids(u) && n < |addrs| && m < |addrs| && addrs[n] == addrs[m] ensures n == m {
      assert n in Ids(s.tree) ==> !HasAddr(s, n, a) && !HasAddr(s, n, b);
      assert m in Ids(s.tree) ==> !HasAddr(s, m, a) && !HasAddr(s, m, b);
    }
  }

  lemma FewerApart(addrs: seq<Addr>, ids: set<Node>, fewer: set<Node>)
    requires AddrsApart(addrs, ids) && fewer <= ids
    ensures AddrsApart(addrs, fewer)
  {
  }

  lemma StepFlagInv(s: State, t: nat)
    requires Inv(s) && t < |s.ops| && Sound(s.nodes, s.ops[t]) && s.ops[t].FlagCas? && |s.hist| > 0
    ensures Inv(After(s, t, StepFlag(s, s.ops[t])))
  {
    hide TreeInv, HistInv, WasEnd, Good, After, Leaves, OnWay, Evolves, PathOk, Ids;
    assert OpInv(s.nodes, s.tree, s.hist, s.taken, s.ops[t]);
    var call, p := s.ops[t].call, s.ops[t].p;
    var side := Side(s.nodes, p.par, call.key);
    if Out(s.nodes, p.par, side) == Edge(Some(p.leaf), false, false) {
      PathInner(s.nodes, s.tree, s.hist, call, p);
      FlagKeeps(s.nodes, s.tree, s.taken, p.par, side, p.leaf);
      var now := SetOut(s.nodes, p.par, side, Edge(Some(p.leaf), true, false));
      HistNow(s.nodes, s.tree, s.hist);
      LeafInside(s.nodes, s.tree, s.taken, p.leaf);
      ThenSeek(s, now, s.tree, call, p);
      var op := Clean(call, Some(Own(p.leaf, |s.hist| - 1)), p);
      assert p.par != p.leaf && now[p.leaf] == s.nodes[p.leaf];
      hide OpsInv;
      Commit(s, t, Effect(now, s.addrs, s.tree, s.taken + {p.leaf}, op)) by { NothingChanges(s.nodes, s.tree); }
    } else {
      hide OpsInv;
      StillKnown(s, t);
      CommitQuiet(s, t, Recheck(call, p));
    }
  }

  lemma PathInner(nodes: seq<Rec>, t: Tree, hist: seq<Tree>, call: Call, p: Path)
    requires PathOk(nodes, t, hist, call, p)
    ensures IsInner(nodes, p.par) && IsInner(nodes, p.anc) && call.since <= p.from < |hist|
  {
  }

  lemma LeafInside(nodes: seq<Rec>, t: Tree, taken: set<Node>, n: Node)
    requires TreeInv(nodes, t, taken) && n in Ids(t) && IsLeaf(nodes, n)
    ensures Leaf(n, nodes[n].key, nodes[n].val) in Leaves(t)
  {
    LeafInTree(nodes, t, n);
  }

  /** A step of one's own that evolves the tree leaves the seek record as good as the steps of others do. */
  lemma ThenSeek(s: State, now: seq<Rec>, u: Tree, call: Call, p: Path)
    requires TreeInv(s.nodes, s.tree, s.taken) && HistInv(s.nodes, s.tree, s.hist) && Evolves(s.nodes, s.tree, now, u)
    requires SeekOk(s.nodes, s.tree, s.hist, call, p)
    ensures SeekOk(now, u, s.hist + [u], call, p)
  {
    hide Heap, Repr, NoDup, Ordered, TopShape, FlagsTaken, DeadMarked, Evolves, PathOk, WasEnd, Labelled, OneWay;
    SeekLater(s.nodes, s.tree, now, u, s.hist, call, p);
  }

  lemma StepRecheckInv(s: State, t: nat)
    requires Inv(s) && t < |s.ops| && Sound(s.nodes, s.ops[t]) && s.ops[t].Recheck?
    ensures Inv(After(s, t, StepRecheck(s, s.ops[t])))
  {
    hide TreeInv, HistInv, WasEnd, Good, After, Leaves, OpsInv, ViaOk;
    StillKnown(s, t);
    var call, p := s.ops[t].call, s.ops[t].p;
    CommitQuiet(s, t, StepRecheck(s, s.ops[t]).op);
  }

  // ---------------------------------------------------------------- cleanup

  lemma MarkedBeside(nodes: seq<Rec>, n: Node, side: bool)
    requires Heap(nodes) && IsInner(nodes, n) && Out(nodes, n, side).tag
    ensures Out(nodes, n, !side).flag
  {
    assert RecOk(nodes, n);
    assert EdgeOk(nodes, n, side);
  }

  lemma StepCleanInv(s: State, t: nat)
    requires Inv(s) && t < |s.ops| && Sound(s.nodes, s.ops[t])
    requires s.ops[t].Clean? || s.ops[t].TagRead? || s.ops[t].SiblingRead?
    ensures Inv(After(s, t, StepClean(s, s.ops[t])))
  {
    hide Heap, HistInv, WasEnd, Good, After, Repr, TopShape, NoDup, Ordered, DeadMarked, FlagsTaken, Leaves, OpsInv,
         PathOk, OwnOk;
    StillKnown(s, t);
    var hist := s.hist + [s.tree];
    match s.ops[t] {
      case Clean(call, own, p) =>
        var side := Side(s.nodes, p.par, call.key);
        PathInner(s.nodes, s.tree, hist, call, p);
        if !Out(s.nodes, p.par, side).flag { MarkedBeside(s.nodes, p.par, side); }
        CommitQuiet(s, t, TagRead(call, own, p, if Out(s.nodes, p.par, side).flag then !side else side));
      case TagRead(call, own, p, side) =>
        CommitQuiet(s, t, TagCas(call, own, p, side, Out(s.nodes, p.par, side)));
      case SiblingRead(call, own, p, side) =>
        var e := Out(s.nodes, p.par, side);
        CommitQuiet(s, t, Splice(call, own, p, side, Edge(e.to, e.flag, false)));
    }
  }

  lemma TagSucceeds(s: State, t: nat, call: Call, own: Option<Own>, p: Path, side: bool, e: Edge)
    requires Inv(s) && t < |s.ops| && p.par < |s.nodes| && Out(s.nodes, p.par, side) == e && !call.kind.Get?
    requires SeekOk(s.nodes, s.tree, s.hist, call, p) && SideOk(s.nodes, call.key, p, side)
    requires OwnOk(s.nodes, s.hist, s.taken, call, own, |s.hist|) && (own.Some? ==> own.value.leaf == p.leaf)
    ensures var now := SetOut(s.nodes, p.par, side, Edge(e.to, e.flag, true));
            Inv(After(s, t, Effect(now, s.addrs, s.tree, s.taken, SiblingRead(call, own, p, side))))
  {
    hide TreeInv, HistInv, After, Evolves, OwnOk, OneWay, SeekOk, OpsInv, Stuck;
    SeekInner(s.nodes, s.tree, s.hist, call, p);
    TagKeeps(s.nodes, s.tree, s.taken, p.par, side);
    var now := SetOut(s.nodes, p.par, side, Edge(e.to, e.flag, true));
    ThenSeek(s, now, s.tree, call, p);
    EvolvesKept(s.nodes, s.tree, now, s.tree);
    SideLater(s.nodes, now, call.key, p, side);
    OwnLater(s.nodes, now, s.hist, s.tree, s.taken, s.taken, call, own, |s.hist|, |s.hist| + 1);
    NothingChanges(s.nodes, s.tree);
    hide NodesKept, SideOk;
    Commit(s, t, Effect(now, s.addrs, s.tree, s.taken, SiblingRead(call, own, p, side)));
  }

  lemma StepTagInv(s: State, t: nat)
    requires Inv(s) && t < |s.ops| && Sound(s.nodes, s.ops[t]) && s.ops[t].TagCas?
    ensures Inv(After(s, t, StepClean(s, s.ops[t])))
  {
    hide TreeInv, HistInv, After, OwnOk, SeekOk, SideOk, AddrInv;
    assert OpInv(s.nodes, s.tree, s.hist, s.taken, s.ops[t]);
    hide OpsInv;
    var call, own, p, side := s.ops[t].call, s.ops[t].own, s.ops[t].p, s.ops[t].side;
    var e := Out(s.nodes, p.par, side);
    if e == s.ops[t].seen {
      TagSucceeds(s, t, call, own, p, side, e);
    } else {
      StillKnown(s, t);
      CommitQuiet(s, t, TagCas(call, own, p, side, e));
    }
  }

  lemma EvolvesKept(nodes: seq<Rec>, t: Tree, now: seq<Rec>, u: Tree)
    requires Evolves(nodes, t, now, u)
    ensures NodesKept(nodes, now)
  {
  }

  lemma SeekInner(nodes: seq<Rec>, t: Tree, hist: seq<Tree>, call: Call, p: Path)
    requires SeekOk(nodes, t, hist, call, p)
    ensures IsInner(nodes, p.par) && IsInner(nodes, p.anc) && IsLeaf(nodes, p.leaf) && call.since <= p.from < |hist|
    ensures PathOk(nodes, t, hist, call, p)
  {
  }

  /** The remove that owns the leaf has spliced it out itself. */
  lemma OwnSpliced(s: State, call: Call, own: Own, p: Path, side: bool, v: Tree)
    requires TreeInv(s.nodes, s.tree, s.taken) && HistInv(s.nodes, s.tree, s.hist) && SideOk(s.nodes, call.key, p, side)
    requires OwnOk(s.nodes, s.hist, s.taken, call, Some(own), |s.hist|) && own.leaf == p.leaf
    requires OnWay(s.tree, call.key, p.anc) && OnWay(Under(s.tree, call.key, p.anc), call.key, p.par)
    requires Leaves(v) <= Leaves(s.tree) && Repr(s.nodes, s.tree)
    requires Ids(v) == (Ids(s.tree) - Ids(Under(s.tree, call.key, p.anc)))
        + Ids(Kept(Under(s.tree, call.key, p.anc), call.key, p.par, side))
    ensures Justified(s.hist + [v], s.taken, call, Found(s.nodes[own.leaf].val), own.leaf)
  {
    hide Heap, NoDup, Ordered, TopShape, DeadMarked, Ids, Leaves, OnWay, Under, Kept, Labelled, OneWay, Repr, Has;
    var k := call.key;
    var x := Leaf(own.leaf, Fin(k), s.nodes[own.leaf].val);
    UnderIds(s.tree, k, p.anc);
    OnWayIds(Under(s.tree, k, p.anc), k, p.par);
    assert EdgeTaken(s.nodes, Ids(s.tree), s.taken, p.par, true)
        && EdgeTaken(s.nodes, Ids(s.tree), s.taken, p.par, false);
    assert side != Side(s.nodes, p.par, k);
    OwnLeafGoes(s.nodes, s.tree, k, p.anc, p.par, own.leaf);
    LeafInTree(s.nodes, s.tree, own.leaf);
    LeafIds(v);
    assert x !in Leaves(v);
    OnlyOne(s.tree, v, k, x);
    assert RemovedThen(s.hist + [v], k, x, |s.hist| - 1);
    LeafHasValue(s.nodes, own.leaf);
  }

  lemma LeafHasValue(nodes: seq<Rec>, n: Node)
    requires Heap(nodes) && IsLeaf(nodes, n) && nodes[n].key.Fin?
    ensures nodes[n].val.Some?
  {
    assert RecOk(nodes, n);
  }

  lemma SpliceReady(s: State, call: Call, p: Path, side: bool, sib: Edge)
    requires TreeInv(s.nodes, s.tree, s.taken) && PathOk(s.nodes, s.tree, s.hist, call, p)
    requires SideOk(s.nodes, call.key, p, side)
    requires p.anc < |s.nodes| && Out(s.nodes, p.par, side) == Edge(sib.to, sib.flag, true) && !sib.tag
    requires Out(s.nodes, p.anc, Side(s.nodes, p.anc, call.key)) == Edge(Some(if p.succ.None? then p.par
      else p.succ.value), false, false)
    ensures OnWay(s.tree, call.key, p.anc) && Poised(s.nodes, call.key, p.anc, p.via, side, sib)
  {
    hide TreeInv, Good, OnWay;
    GoodIsInner(s.nodes, s.tree, s.hist, call.key, p.from, p.anc);
    GoodIsInner(s.nodes, s.tree, s.hist, call.key, p.from, p.par);
    LooseOnWay(s.nodes, s.tree, s.taken, s.hist, call.key, p.from, p.anc, Side(s.nodes, p.anc, call.key));
  }

  lemma StepSpliceInv(s: State, t: nat)
    requires Inv(s) && t < |s.ops| && Sound(s.nodes, s.ops[t]) && s.ops[t].Splice?
    ensures Inv(After(s, t, StepSplice(s, s.ops[t])))
  {
    hide TreeInv, HistInv, WasEnd, Good, After, Leaves, OnWay, Replace, Under, Kept, Evolves, PathOk, OwnOk, SideOk,
         Ids, Poised, Justified;
    assert OpInv(s.nodes, s.tree, s.hist, s.taken, s.ops[t]);
    hide OpsInv;
    var call, own, p, side, sib := s.ops[t].call, s.ops[t].own, s.ops[t].p, s.ops[t].side, s.ops[t].sib;
    var k := call.key;
    var expected := if p.succ.None? then p.par else p.succ.value;
    PathInner(s.nodes, s.tree, s.hist, call, p);
    if Out(s.nodes, p.anc, Side(s.nodes, p.anc, k)) == Edge(Some(expected), false, false) {
      SpliceReady(s, call, p, side, sib);
      PathEnds(s.nodes, s.tree, s.hist, call, p);
      SpliceKeeps(s.nodes, s.tree, s.taken, k, p.anc, p.via, side, sib);
      var now := SplicedHeap(s.nodes, k, p.anc, sib);
      var v := Replace(s.tree, k, p.anc, Kept(Under(s.tree, k, p.anc), k, p.par, side));
      var op := StepSplice(s, s.ops[t]).op;
      if own.Some? {
        OwnSpliced(s, call, own.value, p, side, v) by { ReprOf(s.nodes, s.tree, s.taken); }
      } else {
        assert OwnOk(now, s.hist + [v], s.taken, call, None, |s.hist| + 1)
            by { NoOwn(now, s.hist + [v], s.taken, call, |s.hist| + 1); }
      }
      FewerApart(s.addrs, Ids(s.tree), Ids(v));
      Commit(s, t, Effect(now, s.addrs, v, s.taken, op));
    } else {
      OwnLater(s.nodes, s.nodes, s.hist, s.tree, s.taken, s.taken, call, own, |s.hist|,
               |s.hist| + 1) by { NodesStay(s.nodes); }
      CommitQuiet(s, t, SeekRoot(call, own));
    }
  }

  lemma NoOwn(nodes: seq<Rec>, hist: seq<Tree>, taken: set<Node>, call: Call, from: nat)
    ensures OwnOk(nodes, hist, taken, call, None, from)
  {
  }

  lemma ReprOf(nodes: seq<Rec>, t: Tree, taken: set<Node>)
    requires TreeInv(nodes, t, taken)
    ensures Repr(nodes, t)
  {
  }

  lemma PathEnds(nodes: seq<Rec>, t: Tree, hist: seq<Tree>, call: Call, p: Path)
    requires PathOk(nodes, t, hist, call, p)
    ensures p.via != [] && p.via[|p.via| - 1] == p.par
  {
  }

  // ---------------------------------------------------------------- all steps

  lemma ActInv(s: State, t: nat, a: Addr, b: Addr)
    requires Inv(s) && Enabled(s, Step(t, a, b)) && !MixUp(s, Step(t, a, b))
    ensures Inv(After(s, t, Act(s, s.ops[t], a, b)))
  {
    var op := s.ops[t];
    assert OpInv(s.nodes, s.tree, s.hist, s.taken, op);
    hide Inv, After, OpsInv, StepGet, StepSeekStart, StepSeek, StepInsert, StepFlag, StepRecheck, StepClean, StepSplice;
    if op.GetTop? || op.GetFirst? || op.GetWalk? { StepGetInv(s, t); }
    else if op.SeekRoot? || op.SeekTop? || op.SeekTopTag? || op.SeekFirstTag? { StepSeekStartInv(s, t); }
    else if op.SeekFirst? { SeekFirstInv(s, t, a, b); }
    else if op.SeekWalk? { SeekWalkInv(s, t, a, b); }
    else if op.InsertCas? { StepInsertInv(s, t, a, b); }
    else if op.FlagCas? { StepFlagInv(s, t); }
    else if op.Recheck? { StepRecheckInv(s, t); }
    else if op.TagCas? { StepTagInv(s, t); }
    else if op.Clean? || op.TagRead? || op.SiblingRead? { StepCleanInv(s, t); }
    else { StepSpliceInv(s, t); }
  }

  lemma InvokeInv(s: State, t: nat, call: Call)
    requires Inv(s) && t < |s.ops| && call.since == |s.hist|
    ensures Inv(After(s, t, Quiet(s, Begin(call))))
  {
    hide TreeInv, HistInv, After, OpsInv;
    CommitQuiet(s, t, Begin(call));
  }

  lemma StepInv(s: State, l: Label)
    requires Inv(s) && Enabled(s, l) && !MixUp(s, l)
    ensures Inv(Apply(s, l))
  {
    hide Inv, After, Act, Begin;
    match l {
      case Invoke(t, kind, key) => InvokeInv(s, t, Call(kind, key, |s.hist|));
      case Step(t, a, b) => ActInv(s, t, a, b);
    }
  }

  lemma {:induction false} RunInv(s: State, ls: seq<Label>)
    requires Inv(s) && Runnable(s, ls) && NoMixUp(s, ls)
    ensures Inv(Run(s, ls))
    decreases |ls|
  {
    hide Inv, Apply, Enabled, MixUp;
    if ls != [] {
      StepInv(s, ls[0]);
      RunInv(Apply(s, ls[0]), ls[1..]);
    }
  }
}
