/** What every run of the Natarajan-Mittal tree keeps: every run under guards, and without guards every run without a
    mix-up. */
module TreeSafety {
  import opened Options
  import opened TreeShapes
  import opened TreeModel
  import opened TreeInvariant
  import opened TreeFrames
  import opened TreeUpdates
  import opened TreeSplices
  import opened TreeSteps
  import opened TreeEffects
  import opened TreeGuards

  /** Either every call runs under a guard, or no remove in clean-up mode has reached another leaf at the address of the
      one that it flagged. */
  ghost predicate Sheltered(s0: State, ls: seq<Label>)
    requires Runnable(s0, ls)
  {
    s0.guarded || NoMixUp(s0, ls)
  }

  lemma ShelteredInv(s0: State, ls: seq<Label>)
    requires Init(s0) && Runnable(s0, ls) && Sheltered(s0, ls)
    ensures Inv(Run(s0, ls))
  {
    hide Inv, Init, Runnable, Run, NoMixUp;
    if s0.guarded { GuardedNeverMixesUp(s0, ls); }
    InitInv(s0);
    RunInv(s0, ls);
  }

  // ---------------------------------------------------------------- the tree

  /** In every reachable state the heap below the root is a search tree in order, without sharing; a flagged edge
      leads to a leaf that some remove has taken, a tagged edge stands beside a flagged one, and an inner node that
      has left the tree is marked on both sides, so no update can ever succeed there. */
  lemma EveryRunKeepsTheTree(s0: State, ls: seq<Label>)
    requires Init(s0) && Runnable(s0, ls) && Sheltered(s0, ls)
    ensures var s := Run(s0, ls);
            && Heap(s.nodes) && Repr(s.nodes, s.tree) && NoDup(s.tree) && Ordered(s.tree)
            && DeadMarked(s.nodes, Ids(s.tree)) && FlagsTaken(s.nodes, Ids(s.tree), s.taken)
  {
    hide Apply, Run, Runnable, Sheltered, HistInv, OpsInv, AddrInv;
    ShelteredInv(s0, ls);
  }

  /** No unflagged key is ever lost: a leaf leaves the tree only at a splice, and only after a remove took it; a leaf
      enters only at an insert that found its key absent; and each leaf is taken by one remove. */
  lemma NoUnflaggedKeyIsLost(s0: State, ls: seq<Label>, l: Label)
    requires Init(s0) && Runnable(s0, ls) && Sheltered(s0, ls) && Enabled(Run(s0, ls), l)
    ensures LeavesStep(Run(s0, ls), l)
  {
    hide Inv, Apply, Enabled, Run, Runnable, Sheltered, LeavesStep;
    ShelteredInv(s0, ls);
    StepIsOk(Run(s0, ls), l);
  }

  // ---------------------------------------------------------------- marks, in all runs

  /** Keys and values never change, and a marked edge keeps its target and its flag, and never loses its tag. */
  ghost predicate EdgesKept(nodes: seq<Rec>, now: seq<Rec>) {
    |nodes| <= |now| && forall n: Node :: n < |nodes| ==> EdgesKeptAt(nodes[n], now[n])
  }

  ghost predicate EdgesKeptAt(r: Rec, now: Rec) {
    now.key == r.key && now.val == r.val && EdgeKept(r.left, now.left) && EdgeKept(r.right, now.right)
  }

  lemma TurnKeepsEdges(nodes: seq<Rec>, n: Node, side: bool, e: Edge, more: seq<Rec>)
    requires n < |nodes| && EdgeKept(Out(nodes, n, side), e)
    ensures EdgesKept(nodes, SetOut(nodes, n, side, e) + more) && EdgesKept(nodes, SetOut(nodes, n, side, e))
  {
  }

  lemma StepKeepsEdges(s: State, l: Label)
    requires Enabled(s, l)
    ensures EdgesKept(s.nodes, Apply(s, l).nodes)
  {
    hide FreeAddress, Pruned, Grafted, NewPart, NewInner, EdgesKept, SetOut, AfterSeek, AfterGet, Advance;
    EdgesStay(s.nodes);
    if l.Step? && s.ops[l.t].InsertCas? {
      var p, k := s.ops[l.t].p, s.ops[l.t].call.key;
      if s.ops[l.t].call.kind.Insert? && Out(s.nodes, p.par, Side(s.nodes, p.par, k))
          == Edge(Some(p.leaf), false, false) {
        TurnKeepsEdges(s.nodes, p.par, Side(s.nodes, p.par, k), Edge(Some(|s.nodes| + 1), false, false),
                       [Rec(Fin(k), Some(s.ops[l.t].call.kind.val), NIL, NIL), NewInner(s.nodes, k, p.leaf)]);
      }
    } else if l.Step? && s.ops[l.t].FlagCas? {
      var p, k := s.ops[l.t].p, s.ops[l.t].call.key;
      if Out(s.nodes, p.par, Side(s.nodes, p.par, k)) == Edge(Some(p.leaf), false, false) {
        TurnKeepsEdges(s.nodes, p.par, Side(s.nodes, p.par, k), Edge(Some(p.leaf), true, false), []);
      }
    } else if l.Step? && s.ops[l.t].TagCas? {
      var par, side, seen := s.ops[l.t].p.par, s.ops[l.t].side, s.ops[l.t].seen;
      if Out(s.nodes, par, side) == seen { TurnKeepsEdges(s.nodes, par, side, Edge(seen.to, seen.flag, true), []); }
    } else if l.Step? && s.ops[l.t].Splice? {
      var p, k := s.ops[l.t].p, s.ops[l.t].call.key;
      if !Marked(Out(s.nodes, p.anc, Side(s.nodes, p.anc, k))) {
        TurnKeepsEdges(s.nodes, p.anc, Side(s.nodes, p.anc, k), s.ops[l.t].sib, []);
      }
    }
  }

  lemma KeptTwice(a: seq<Rec>, b: seq<Rec>, c: seq<Rec>)
    requires EdgesKept(a, b) && EdgesKept(b, c)
    ensures EdgesKept(a, c)
  {
    forall n: Node | n < |a| ensures EdgesKeptAt(a[n], c[n]) {
      assert EdgesKeptAt(a[n], b[n]) && EdgesKeptAt(b[n], c[n]);
    }
  }

  /** Over the rest of any run at all, mix-ups included, marked edges are frozen. */
  lemma {:induction false} MarkedIsFrozen(s: State, ls: seq<Label>)
    requires Runnable(s, ls)
    ensures EdgesKept(s.nodes, Run(s, ls).nodes)
    decreases |ls|
  {
    hide Apply, Enabled, EdgesKept;
    if ls == [] {
      EdgesStay(s.nodes);
    } else {
      StepKeepsEdges(s, ls[0]);
      MarkedIsFrozen(Apply(s, ls[0]), ls[1..]);
      KeptTwice(s.nodes, Apply(s, ls[0]).nodes, Run(s, ls).nodes);
    }
  }

  lemma EdgesStay(nodes: seq<Rec>)
    ensures EdgesKept(nodes, nodes)
  {
  }

  // ---------------------------------------------------------------- progress

  /** No thread ever follows a null or dangling edge: each call in progress can take its next step, an insert with any
      two addresses that are free, and some always are. */
  lemma NoThreadIsStuck(s0: State, ls: seq<Label>, t: nat)
    requires Init(s0) && Runnable(s0, ls) && Sheltered(s0, ls) && t < |Run(s0, ls).ops|
    ensures !Resting(Run(s0, ls).ops[t]) <==> exists a, b :: Enabled(Run(s0, ls), Step(t, a, b))
  {
    hide Inv, Apply, Run, Runnable, Sheltered, Enabled;
    ShelteredInv(s0, ls);
    StepPossible(Run(s0, ls), t);
  }

  lemma VisitedBelow(nodes: seq<Rec>, t: Tree, hist: seq<Tree>, k: int, from: nat, n: Node)
    requires Visited(nodes, t, hist, k, from, n)
    ensures n < |nodes|
  {
  }

  function Highest(addrs: seq<Addr>): Addr {
    if addrs == [] then 0 else if addrs[|addrs| - 1] > Highest(addrs[..|addrs| - 1]) then addrs[|addrs| - 1]
      else Highest(addrs[..|addrs| - 1])
  }

  lemma {:induction false} HighestOf(addrs: seq<Addr>)
    ensures forall n :: 0 <= n < |addrs| ==> addrs[n] <= Highest(addrs)
  {
    if addrs != [] {
      var init := addrs[..|addrs| - 1];
      HighestOf(init);
      assert forall n :: 0 <= n < |init| ==> addrs[n] == init[n];
    }
  }

  /** An address beyond all that were ever used is free. */
  lemma BeyondIsFree(s: State, a: Addr)
    requires a > Highest(s.addrs)
    ensures FreeAddress(s, a)
  {
    hide Ids, HeldBy, OwnOf;
    HighestOf(s.addrs);
  }

  lemma StepPossible(s: State, t: nat)
    requires Inv(s) && t < |s.ops|
    ensures !Resting(s.ops[t]) <==> exists a, b :: Enabled(s, Step(t, a, b))
  {
    hide TreeInv, HistInv, OpsInv, FreeAddress;
    var a := Highest(s.addrs) + 1;
    BeyondIsFree(s, a);
    BeyondIsFree(s, a + 1);
    if !Resting(s.ops[t]) {
      SoundAlways(s, t);
      HistNow(s.nodes, s.tree, s.hist);
      assert Enabled(s, Step(t, a, a + 1));
    }
  }

  lemma SoundAlways(s: State, t: nat)
    requires Inv(s) && t < |s.ops|
    ensures Sound(s.nodes, s.ops[t])
  {
    hide Heap, Repr, TopShape, NoDup, Ordered, DeadMarked, FlagsTaken, Visited, Good, WasEnd, PathOk, Labelled, OneWay,
         Leaves, Stuck, AddrInv;
    var op := s.ops[t];
    assert OpInv(s.nodes, s.tree, s.hist, s.taken, op);
    hide OpsInv;
    TopFlags(s.nodes, s.tree);
    match op {
      case GetFirst(call, leaf) =>
      case GetWalk(call, leaf) => VisitedBelow(s.nodes, s.tree, s.hist, call.key, call.since, leaf);
      case SeekWalk(call, own, p, _) => VisitedBelow(s.nodes, s.tree, s.hist, call.key, p.from, p.leaf);
      case InsertCas(call, p) => PathInner(s.nodes, s.tree, s.hist, call, p);
      case FlagCas(call, p) => PathInner(s.nodes, s.tree, s.hist, call, p);
      case Recheck(call, p) => PathInner(s.nodes, s.tree, s.hist, call, p);
      case Clean(call, _, p) => PathInner(s.nodes, s.tree, s.hist, call, p);
      case TagRead(call, _, p, _) => PathInner(s.nodes, s.tree, s.hist, call, p);
      case TagCas(call, _, p, _, _) => PathInner(s.nodes, s.tree, s.hist, call, p);
      case SiblingRead(call, _, p, _) => PathInner(s.nodes, s.tree, s.hist, call, p);
      case Splice(call, _, p, _, _) => PathInner(s.nodes, s.tree, s.hist, call, p);
      case _ =>
    }
  }
}
