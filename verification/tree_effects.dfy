/** What a single step of the Natarajan-Mittal tree does to the heap and to the leaves. */
module TreeEffects {
  import opened Options
  import opened TreeShapes
  import opened TreeModel
  import opened TreeInvariant
  import opened TreeFrames
  import opened TreeUpdates
  import opened TreeSplices
  import opened TreeSteps

  lemma InitInv(s: State)
    requires Init(s)
    ensures Inv(s)
  {
    hide Good, WasEnd;
    InitHeap(s);
    InitTree(s);
    LeavesLabelled(s.nodes, s.tree);
  }

  lemma InitHeap(s: State)
    requires Init(s)
    ensures Heap(s.nodes)
  {
    forall n: Node | n < |s.nodes| ensures RecOk(s.nodes, n) {
      assert n == 0 || n == 1 || n == 2 || n == 3 || n == 4;
    }
  }

  lemma InitTree(s: State)
    requires Init(s)
    ensures Repr(s.nodes, s.tree) && NoDup(s.tree) && Ordered(s.tree) && TopShape(s.tree)
    ensures DeadMarked(s.nodes, Ids(s.tree)) && FlagsTaken(s.nodes, Ids(s.tree), s.taken)
  {
    var top := s.tree.left;
    assert Repr(s.nodes, top.left) && Repr(s.nodes, top.right) && Repr(s.nodes, top) && Repr(s.nodes, s.tree.right);
    assert Ids(top) == {1, 3, 4} && Ids(s.tree) == {0, 1, 2, 3, 4};
    assert Leaves(top) == {Leaf(4, Inf(0), None), Leaf(3, Inf(1), None)};
    forall n: Node, b: bool | n < |s.nodes| ensures EdgeTaken(s.nodes, Ids(s.tree), s.taken, n, b) {
      assert n == 0 || n == 1 || n == 2 || n == 3 || n == 4;
    }
  }

  // ---------------------------------------------------------------- one step

  /** What a step may do to the leaves: an insert adds one whose key was not there; a splice takes away leaves that
      were taken before; and nothing else. A leaf is taken by the one remove that flags it, while it is in the tree. */
  ghost predicate LeavesStep(s: State, l: Label)
    requires Enabled(s, l)
  {
    var r := Apply(s, l);
    && (|| Leaves(r.tree) == Leaves(s.tree)
        || (&& l.Step? && s.ops[l.t].InsertCas? && r.ops[l.t] == Returned(s.ops[l.t].call, Inserted(true), |s.nodes|)
            && s.ops[l.t].call.kind.Insert? && !Has(s.tree, s.ops[l.t].call.key)
            && Leaves(r.tree) == Leaves(s.tree) + {Leaf(|s.nodes|, Fin(s.ops[l.t].call.key),
                Some(s.ops[l.t].call.kind.val))})
        || (&& l.Step? && s.ops[l.t].Splice?
            && Leaves(r.tree) <= Leaves(s.tree) && forall x :: x in Leaves(s.tree) - Leaves(r.tree) ==>
              x.id in s.taken))
    && (|| r.taken == s.taken
        || (&& l.Step? && s.ops[l.t].FlagCas?
            && var leaf := s.ops[l.t].p.leaf;
            && r.taken == s.taken + {leaf} && leaf !in s.taken
            && r.ops[l.t] == Clean(s.ops[l.t].call, Some(Own(leaf, |s.hist| - 1)), s.ops[l.t].p)
            && exists x :: x in Leaves(s.tree) && x.id == leaf && x.key == Fin(s.ops[l.t].call.key)))
  }

  ghost predicate StepOk(s: State, l: Label)
    requires Enabled(s, l)
  {
    && NodesKept(s.nodes, Apply(s, l).nodes)
    && LeavesStep(s, l)
  }

  lemma InsertStepOk(s: State, t: nat, a: Addr, b: Addr)
    requires Inv(s) && Enabled(s, Step(t, a, b)) && s.ops[t].InsertCas?
    ensures StepOk(s, Step(t, a, b))
  {
    hide TreeInv, HistInv, WasEnd, Good, AddrInv, FreeAddress, Leaves, OnWay, Replace, NewPart, Evolves, ViaOk, Has,
         NodesKept;
    assert OpInv(s.nodes, s.tree, s.hist, s.taken, s.ops[t]);
    hide OpsInv;
    var call, p := s.ops[t].call, s.ops[t].p;
    var side := Side(s.nodes, p.par, call.key);
    NodesStay(s.nodes);
    if Out(s.nodes, p.par, side) == Edge(Some(p.leaf), false, false) {
      GoodIsInner(s.nodes, s.tree, s.hist, call.key, p.from, p.par);
      LooseOnWay(s.nodes, s.tree, s.taken, s.hist, call.key, p.from, p.par, side);
      InsertKeeps(s.nodes, s.tree, s.taken, call.key, call.kind.val, p.par, p.leaf);
      EvolvesKept(s.nodes, s.tree, InsertedHeap(s.nodes, call.key, call.kind.val, p.par, p.leaf),
                  Replace(s.tree, call.key, p.par, NewPart(s.nodes, call.key, call.kind.val, p.leaf)));
    }
  }

  lemma FlagStepOk(s: State, t: nat, a: Addr, b: Addr)
    requires Inv(s) && Enabled(s, Step(t, a, b)) && s.ops[t].FlagCas?
    ensures StepOk(s, Step(t, a, b))
  {
    hide TreeInv, HistInv, WasEnd, Good, AddrInv, FreeAddress, Leaves, OnWay, Evolves, Has, NodesKept, PathOk, Ids;
    assert OpInv(s.nodes, s.tree, s.hist, s.taken, s.ops[t]);
    hide OpsInv;
    var call, p := s.ops[t].call, s.ops[t].p;
    var side := Side(s.nodes, p.par, call.key);
    NodesStay(s.nodes);
    if Out(s.nodes, p.par, side) == Edge(Some(p.leaf), false, false) {
      PathInner(s.nodes, s.tree, s.hist, call, p);
      FlagKeeps(s.nodes, s.tree, s.taken, p.par, side, p.leaf);
      EvolvesKept(s.nodes, s.tree, SetOut(s.nodes, p.par, side, Edge(Some(p.leaf), true, false)), s.tree);
      LeafInside(s.nodes, s.tree, s.taken, p.leaf);
      var x := Leaf(p.leaf, s.nodes[p.leaf].key, s.nodes[p.leaf].val);
      assert x in Leaves(s.tree) && x.id == p.leaf && x.key == Fin(call.key);
    }
  }

  lemma TagStepOk(s: State, t: nat, a: Addr, b: Addr)
    requires Inv(s) && Enabled(s, Step(t, a, b)) && s.ops[t].TagCas?
    ensures StepOk(s, Step(t, a, b))
  {
    hide TreeInv, HistInv, WasEnd, Good, AddrInv, FreeAddress, Leaves, Evolves, Has, NodesKept, SeekOk, OwnOk;
    assert OpInv(s.nodes, s.tree, s.hist, s.taken, s.ops[t]);
    hide OpsInv;
    var call, p, side := s.ops[t].call, s.ops[t].p, s.ops[t].side;
    var e := Out(s.nodes, p.par, side);
    NodesStay(s.nodes);
    if e == s.ops[t].seen {
      SeekInner(s.nodes, s.tree, s.hist, call, p);
      TagKeeps(s.nodes, s.tree, s.taken, p.par, side);
      EvolvesKept(s.nodes, s.tree, SetOut(s.nodes, p.par, side, Edge(e.to, e.flag, true)), s.tree);
    }
  }

  lemma SpliceStepOk(s: State, t: nat, a: Addr, b: Addr)
    requires Inv(s) && Enabled(s, Step(t, a, b)) && s.ops[t].Splice?
    ensures StepOk(s, Step(t, a, b))
  {
    hide TreeInv, HistInv, WasEnd, Good, AddrInv, FreeAddress, Leaves, OnWay, Replace, Under, Kept, Evolves, PathOk,
         OwnOk, SideOk, Ids, Poised, Has, NodesKept;
    assert OpInv(s.nodes, s.tree, s.hist, s.taken, s.ops[t]);
    hide OpsInv;
    var call, p, side, sib := s.ops[t].call, s.ops[t].p, s.ops[t].side, s.ops[t].sib;
    var k := call.key;
    NodesStay(s.nodes);
    if Out(s.nodes, p.anc, Side(s.nodes, p.anc, k))
        == Edge(Some(if p.succ.None? then p.par else p.succ.value), false, false) {
      SpliceReady(s, call, p, side, sib);
      PathEnds(s.nodes, s.tree, s.hist, call, p);
      SpliceKeeps(s.nodes, s.tree, s.taken, k, p.anc, p.via, side, sib);
      EvolvesKept(s.nodes, s.tree, SplicedHeap(s.nodes, k, p.anc, sib),
                  Replace(s.tree, k, p.anc, Kept(Under(s.tree, k, p.anc), k, p.par, side)));
    }
  }

  lemma QuietStepOk(s: State, l: Label)
    requires Enabled(s, l)
    requires l.Step? ==> !s.ops[l.t].InsertCas? && !s.ops[l.t].FlagCas? && !s.ops[l.t].TagCas? && !s.ops[l.t].Splice?
    ensures StepOk(s, l)
  {
    hide Leaves, Has, NodesKept;
    NodesStay(s.nodes);
  }

  lemma StepIsOk(s: State, l: Label)
    requires Inv(s) && Enabled(s, l)
    ensures StepOk(s, l)
  {
    hide Inv, StepOk, Apply;
    if l.Step? && s.ops[l.t].InsertCas? { InsertStepOk(s, l.t, l.leafAddr, l.innerAddr); }
    else if l.Step? && s.ops[l.t].FlagCas? { FlagStepOk(s, l.t, l.leafAddr, l.innerAddr); }
    else if l.Step? && s.ops[l.t].TagCas? { TagStepOk(s, l.t, l.leafAddr, l.innerAddr); }
    else if l.Step? && s.ops[l.t].Splice? { SpliceStepOk(s, l.t, l.leafAddr, l.innerAddr); }
    else { QuietStepOk(s, l); }
  }
}
