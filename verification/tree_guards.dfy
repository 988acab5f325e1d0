/** Under guards a remove in clean-up mode never mixes leaves up: the memory of the leaf that it flagged stays until its
    guard goes, so no leaf that it can reach lies at the same address. */
module TreeGuards {
  import opened Options
  import opened TreeShapes
  import opened TreeModel
  import opened TreeInvariant
  import opened TreeFrames
  import opened TreeUpdates
  import opened TreeSplices
  import opened TreeSteps
  import opened TreeEffects

  /** No other leaf has been in the tree at the leaf's address since it was flagged. */
  ghost predicate OwnUnique(addrs: seq<Addr>, hist: seq<Tree>, own: Own) {
    && own.leaf < |addrs|
    && forall m :: own.at <= m < |hist| ==> OnlyThere(addrs, hist[m], own.leaf)
  }

  ghost predicate OnlyThere(addrs: seq<Addr>, t: Tree, leaf: Node)
    requires leaf < |addrs|
  {
    forall x :: x in Leaves(t) ==> x.id < |addrs| && (addrs[x.id] == addrs[leaf] ==> x.id == leaf)
  }

  ghost predicate OwnsUnique(s: State) {
    forall t :: 0 <= t < |s.ops| && OwnOf(s.ops[t]).Some? ==> OwnUnique(s.addrs, s.hist, OwnOf(s.ops[t]).value)
  }

  // ---------------------------------------------------------------- no mix-up

  lemma UniqueNoMixUp(s: State, l: Label)
    requires Inv(s) && OwnsUnique(s) && Enabled(s, l)
    ensures !MixUp(s, l)
  {
    hide TreeInv, Good, FreeAddress, Leaves, WayEnd, AddrInv, PathOk, Stuck, TagStep, Ordered, Labelled;
    if l.Step? && OwnOf(s.ops[l.t]).Some? && Reached(s.nodes, s.ops[l.t]).Some? {
      var op := s.ops[l.t];
      var own, leaf := OwnOf(op).value, Reached(s.nodes, op).value;
      assert OpInv(s.nodes, s.tree, s.hist, s.taken, op);
      var from := if op.SeekFirst? then op.from else op.p.from;
      var m :| from <= m < |s.hist| && WayEnd(s.hist[m], op.call.key).id == leaf;
      WayEndIsLeaf(s.hist[m], op.call.key);
      assert OnlyThere(s.addrs, s.hist[m], own.leaf);
    }
  }

  // ---------------------------------------------------------------- every step keeps it so

  /** What happens to the leaves and the addresses cannot bring the address back. */
  ghost predicate StaysAway(s: State, r: State, leaf: Node) {
    && s.addrs <= r.addrs && leaf < |s.addrs|
    && forall x :: x in Leaves(r.tree) - Leaves(s.tree) ==> x.id < |r.addrs| && r.addrs[x.id] != s.addrs[leaf]
  }

  lemma UniqueLater(s: State, r: State, own: Own)
    requires OwnUnique(s.addrs, s.hist, own) && StaysAway(s, r, own.leaf) && r.hist == s.hist + [r.tree]
    requires own.at < |s.hist| && s.hist[|s.hist| - 1] == s.tree
    ensures OwnUnique(r.addrs, r.hist, own)
  {
    hide Leaves;
    assert OnlyThere(s.addrs, s.tree, own.leaf);
    forall m | own.at <= m < |r.hist| ensures OnlyThere(r.addrs, r.hist[m], own.leaf) {
      if m < |s.hist| { assert OnlyThere(s.addrs, s.hist[m], own.leaf); }
    }
  }

  /** New leaves come only from inserts, which take free addresses. */
  lemma StepStaysAway(s: State, l: Label, leaf: Node)
    requires Inv(s) && Enabled(s, l) && leaf < |s.addrs|
    requires s.ops[l.t].InsertCas? && l.Step? ==> s.addrs[leaf] != l.leafAddr
    ensures StaysAway(s, Apply(s, l), leaf)
  {
    hide Leaves, Has, FreeAddress, TreeInv, HistInv, OpsInv, Pruned, Grafted, Sound;
    StepIsOk(s, l);
  }

  /** The edge to the leaf that a remove is about to flag. */
  predicate WillFlag(s: State, op: Op) {
    && op.FlagCas? && op.p.par < |s.nodes|
    && Out(s.nodes, op.p.par, Side(s.nodes, op.p.par, op.call.key)) == Edge(Some(op.p.leaf), false, false)
  }

  lemma OwnAfterSeek(s: State, op: Op, a: Addr, b: Addr)
    requires !Resting(op) && Sound(s.nodes, op) && |s.hist| > 0 && |s.addrs| == |s.nodes|
    requires op.SeekRoot? || op.SeekTop? || op.SeekTopTag? || op.SeekFirstTag? || op.SeekFirst? || op.SeekWalk?
    ensures var own := OwnOf(Act(s, op, a, b).op); own == None || own == OwnOf(op)
  {
  }

  lemma OwnAfterRest(s: State, op: Op, a: Addr, b: Addr)
    requires !Resting(op) && Sound(s.nodes, op) && |s.hist| > 0 && |s.addrs| == |s.nodes|
    requires !(op.SeekRoot? || op.SeekTop? || op.SeekTopTag? || op.SeekFirstTag? || op.SeekFirst? || op.SeekWalk?)
    ensures var own := OwnOf(Act(s, op, a, b).op);
            own == None || own == OwnOf(op) || (WillFlag(s, op) && own == Some(Own(op.p.leaf, |s.hist| - 1)))
  {
    hide Pruned, Grafted, NewPart;
  }

  /** The thread keeps its own leaf, forgets it, or has just flagged one. */
  lemma OwnAfter(s: State, l: Label)
    requires Enabled(s, l)
    ensures var r := Apply(s, l);
            && |r.ops| == |s.ops| && (forall u :: 0 <= u < |s.ops| && u != l.t ==> r.ops[u] == s.ops[u])
            && (OwnOf(r.ops[l.t]).Some? && OwnOf(r.ops[l.t]) != OwnOf(s.ops[l.t]) ==>
                  l.Step? && WillFlag(s, s.ops[l.t]) && OwnOf(r.ops[l.t]) == Some(Own(s.ops[l.t].p.leaf, |s.hist| - 1)))
  {
    hide FreeAddress, Act, Sound, WillFlag;
    if l.Step? {
      var op := s.ops[l.t];
      if op.SeekRoot? || op.SeekTop? || op.SeekTopTag? || op.SeekFirstTag? || op.SeekFirst? || op.SeekWalk? {
        OwnAfterSeek(s, op, l.leafAddr, l.innerAddr);
      } else {
        OwnAfterRest(s, op, l.leafAddr, l.innerAddr);
      }
    }
  }

  /** The leaf just flagged is in the tree, where addresses differ. */
  lemma FlaggedUnique(s: State, l: Label)
    requires Inv(s) && Enabled(s, l) && l.Step? && WillFlag(s, s.ops[l.t])
    ensures OwnUnique(Apply(s, l).addrs, Apply(s, l).hist, Own(s.ops[l.t].p.leaf, |s.hist| - 1))
  {
    hide TreeInv, HistInv, WasEnd, Good, Leaves, Ids, FreeAddress, PathOk;
    var call, p := s.ops[l.t].call, s.ops[l.t].p;
    assert OpInv(s.nodes, s.tree, s.hist, s.taken, s.ops[l.t]);
    hide OpsInv;
    PathInner(s.nodes, s.tree, s.hist, call, p);
    FlagKeeps(s.nodes, s.tree, s.taken, p.par, Side(s.nodes, p.par, call.key), p.leaf);
    HistNow(s.nodes, s.tree, s.hist);
    TreeIdsBelow(s.nodes, s.tree, s.taken);
    LeafIds(s.tree);
    assert OnlyThere(s.addrs, s.tree, p.leaf);
  }

  lemma GuardedStep(s: State, l: Label)
    requires Inv(s) && OwnsUnique(s) && s.guarded && Enabled(s, l)
    ensures !MixUp(s, l) && OwnsUnique(Apply(s, l)) && Apply(s, l).guarded
  {
    UniqueNoMixUp(s, l);
    hide TreeInv, OwnUnique, Sound, StaysAway, Apply, MixUp, AddrInv;
    OwnAfter(s, l);
    GuardedStays(s, l);
    var r := Apply(s, l);
    forall t | 0 <= t < |r.ops| && OwnOf(r.ops[t]).Some? ensures OwnUnique(r.addrs, r.hist, OwnOf(r.ops[t]).value) {
      if OwnOf(r.ops[t]) == OwnOf(s.ops[t]) {
        OwnStaysUnique(s, l, t);
      } else {
        FlaggedUnique(s, l);
      }
    }
  }

  lemma GuardedStays(s: State, l: Label)
    requires Enabled(s, l)
    ensures Apply(s, l).guarded == s.guarded && Apply(s, l).hist == s.hist + [Apply(s, l).tree]
  {
    hide Act, Enabled;
  }

  lemma OwnStaysUnique(s: State, l: Label, t: nat)
    requires Inv(s) && OwnsUnique(s) && s.guarded && Enabled(s, l) && t < |s.ops| && OwnOf(s.ops[t]).Some?
    ensures OwnUnique(Apply(s, l).addrs, Apply(s, l).hist, OwnOf(s.ops[t]).value)
  {
    hide TreeInv, Sound, StaysAway, Apply, Good, WasEnd, Leaves, HeldBy, Ids;
    var own := OwnOf(s.ops[t]).value;
    OwnTimes(s, t);
    StepStaysAway(s, l, own.leaf);
    GuardedStays(s, l);
    HistNow(s.nodes, s.tree, s.hist);
    UniqueLater(s, Apply(s, l), own);
  }

  lemma OwnTimes(s: State, t: nat)
    requires Inv(s) && t < |s.ops| && OwnOf(s.ops[t]).Some?
    ensures OwnOf(s.ops[t]).value.at < |s.hist| && OwnOf(s.ops[t]).value.leaf < |s.addrs|
  {
    hide TreeInv, HistInv, Good, WasEnd, Leaves, PathOk, Stuck;
    assert OpInv(s.nodes, s.tree, s.hist, s.taken, s.ops[t]);
  }

  lemma {:induction false} GuardedRun(s: State, ls: seq<Label>)
    requires Inv(s) && OwnsUnique(s) && s.guarded && Runnable(s, ls)
    ensures NoMixUp(s, ls)
    decreases |ls|
  {
    hide Inv, OwnsUnique, Apply, Enabled, MixUp;
    if ls != [] {
      GuardedStep(s, ls[0]);
      StepInv(s, ls[0]);
      GuardedRun(Apply(s, ls[0]), ls[1..]);
    }
  }

  /** Under guards no run has a mix-up. */
  lemma GuardedNeverMixesUp(s0: State, ls: seq<Label>)
    requires Init(s0) && s0.guarded && Runnable(s0, ls)
    ensures NoMixUp(s0, ls)
  {
    hide Inv, NoMixUp, Runnable;
    InitInv(s0);
    GuardedRun(s0, ls);
  }
}
