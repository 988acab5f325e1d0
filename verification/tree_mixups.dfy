/** When a remove in clean-up mode takes away what nobody flagged: exactly when it mixes its leaf up with another one
    that lies at the same address. */
module TreeMixUps {
  import opened Options
  import opened TreeShapes
  import opened TreeModel
  import opened TreeInvariant
  import opened TreeFrames
  import opened TreeUpdates
  import opened TreeSplices
  import opened TreeSteps
  import opened TreeEffects
  import opened TreeRuns

  // ---------------------------------------------------------------- what lies under the ancestor

  lemma ViaTail(nodes: seq<Rec>, k: int, via: seq<Node>)
    requires ViaOk(nodes, k, via) && |via| > 1
    ensures ViaOk(nodes, k, via[1..]) && TagStep(nodes, k, via[0], via[1])
  {
    hide TagStep;
    var rest := via[1..];
    forall i, j | 0 <= i && j == i + 1 && j < |rest| ensures TagStep(nodes, k, rest[i], rest[j]) {
      assert TagStep(nodes, k, via[i + 1], via[j + 1]);
    }
  }

  /** The tagged path is k's way from its first node to its last. */
  lemma {:induction false} ViaWay(nodes: seq<Rec>, u: Tree, k: int, via: seq<Node>)
    requires Heap(nodes) && Repr(nodes, u) && ViaOk(nodes, k, via) && u.id == via[0] && IsInner(nodes, via[|via| - 1])
    ensures OnWay(u, k, via[|via| - 1])
    decreases |via|
  {
    if |via| > 1 {
      ViaTail(nodes, k, via);
      assert RecOk(nodes, u.id);
      ViaWay(nodes, Kid(u, k), k, via[1..]);
    }
  }

  /** Beside the path there are only taken leaves, and the two sides of its last node. */
  lemma {:induction false} BesideVia(nodes: seq<Rec>, u: Tree, ids: set<Node>, taken: set<Node>, k: int,
                                     via: seq<Node>, x: Tree)
    requires Heap(nodes) && Repr(nodes, u) && FlagsTaken(nodes, ids, taken) && ViaOk(nodes, k, via) && u.id == via[0]
    requires OnWay(u, k, via[|via| - 1]) && x in Leaves(u)
    ensures var par := via[|via| - 1];
            x in Leaves(Kept(u, k, par, true)) || x in Leaves(Kept(u, k, par, false)) || x.id in taken
    decreases |via|
  {
    var par := via[|via| - 1];
    assert RecOk(nodes, u.id);
    if u.id != par {
      ViaTail(nodes, k, via);
      var b := Side(nodes, u.id, k);
      assert EdgeOk(nodes, u.id, b) && Out(nodes, u.id, b).tag;
      FlaggedKid(nodes, ids, taken, u, !b);
      var other := if b then u.right else u.left;
      OneId(other);
      if x != other { BesideVia(nodes, Kid(u, k), ids, taken, k, via[1..], x); }
    }
  }

  lemma {:induction false} SidesApart(t: Tree, k: int, p: Node)
    requires OnWay(t, k, p) && NoDup(t)
    ensures Leaves(Kept(t, k, p, true)) !! Leaves(Kept(t, k, p, false))
  {
    if t.id == p {
      LeafIds(t.left);
      LeafIds(t.right);
      forall x | x in Leaves(t.left) ensures x !in Leaves(t.right) {
        assert x.id in Ids(t.left) && x.id !in Ids(t.right);
      }
    } else {
      SidesApart(Kid(t, k), k, p);
    }
  }

  // ---------------------------------------------------------------- an undisturbed remove

  /** Nobody has touched what the seek saw, and neither edge of the parent is flagged: nothing here is being removed. */
  ghost predicate Undisturbed(nodes: seq<Rec>, k: int, p: Path) {
    && p.par < |nodes| && p.anc < |nodes| && p.leaf < |nodes| && nodes[p.leaf].right == NIL && nodes[p.leaf].left == NIL
    && Out(nodes, p.par, Side(nodes, p.par, k)) == Edge(Some(p.leaf), false, false)
    && !Out(nodes, p.par, !Side(nodes, p.par, k)).flag
    && Out(nodes, p.anc, Side(nodes, p.anc, k))
        == Edge(Some(if p.succ.None? then p.par else p.succ.value), false, false)
  }

  /** What hangs on the parent's other side. */
  ghost function OtherSide(s: State, k: int, p: Path): Tree
    requires p.par < |s.nodes| && OnWay(s.tree, k, p.anc) && OnWay(Under(s.tree, k, p.anc), k, p.par)
  {
    Kept(Under(s.tree, k, p.anc), k, p.par, !Side(s.nodes, p.par, k))
  }

  /** The parent is in the tree, below the ancestor. */
  lemma UndisturbedPlace(s: State, call: Call, p: Path)
    requires Inv(s) && PathOk(s.nodes, s.tree, s.hist, call, p) && Undisturbed(s.nodes, call.key, p)
    ensures OnWay(s.tree, call.key, p.anc) && OnWay(Under(s.tree, call.key, p.anc), call.key, p.par) && p.anc != p.par
    ensures Under(s.tree, call.key, p.anc).id == p.via[0] && p.leaf !in s.taken
    ensures Repr(s.nodes, Under(s.tree, call.key, p.anc)) && NoDup(Under(s.tree, call.key, p.anc))
  {
    var k := call.key;
    hide Heap, Repr, NoDup, Ordered, TopShape, Good, OnWay, Under, Ids, HistInv, OpsInv, DeadMarked, AddrInv, ViaOk;
    GoodIsInner(s.nodes, s.tree, s.hist, k, p.from, p.anc);
    GoodIsInner(s.nodes, s.tree, s.hist, k, p.from, p.par);
    LooseOnWay(s.nodes, s.tree, s.taken, s.hist, k, p.from, p.anc, Side(s.nodes, p.anc, k));
    LooseOnWay(s.nodes, s.tree, s.taken, s.hist, k, p.from, p.par, Side(s.nodes, p.par, k));
    assert EdgeTaken(s.nodes, Ids(s.tree), s.taken, p.par, Side(s.nodes, p.par, k));
    WayGoesOn(s.nodes, s.tree, k, p.anc);
    ReprUnder(s.nodes, s.tree, k, p.anc);
    ViaNotEmpty(s.nodes, k, p.via);
    ViaWay(s.nodes, Under(s.tree, k, p.anc), k, p.via);
    UnderIds(s.tree, k, p.anc);
    OnWayIds(Under(s.tree, k, p.anc), k, p.par);
  }

  /** The leaves that leave when the parent's own side is kept: all of the other side, and otherwise only taken ones. */
  lemma LosesOtherSide(s: State, call: Call, p: Path)
    requires Inv(s) && PathOk(s.nodes, s.tree, s.hist, call, p) && Undisturbed(s.nodes, call.key, p)
    requires OnWay(s.tree, call.key, p.anc) && OnWay(Under(s.tree, call.key, p.anc), call.key, p.par)
    ensures var v := Pruned(s.tree, call.key, p.anc, p.par, Side(s.nodes, p.par, call.key));
            var other := OtherSide(s, call.key, p);
            && Leaves(other) != {} && Leaves(other) <= Leaves(s.tree) && Leaves(other) !! Leaves(v)
            && forall x :: x in Leaves(s.tree) - Leaves(v) ==> x in Leaves(other) || x.id in s.taken
  {
    hide Heap, Repr, NoDup, Ordered, TopShape, Good, OnWay, Under, Kept, Replace, Leaves, Ids, HistInv, OpsInv,
         DeadMarked,
         AddrInv, ViaOk, FlagsTaken, WayEnd;
    var k := call.key;
    UndisturbedPlace(s, call, p);
    ViaNotEmpty(s.nodes, k, p.via);
    var u := Under(s.tree, k, p.anc);
    var side := Side(s.nodes, p.par, k);
    var sub, other := Kept(u, k, p.par, side), OtherSide(s, k, p);
    UnderIds(s.tree, k, p.anc);
    KeptParts(u, k, p.par, side);
    KeptParts(u, k, p.par, !side);
    SidesApart(u, k, p.par);
    ReplaceLeaves(s.tree, k, p.anc, sub);
    WayEndIsLeaf(other, 0);
    forall x | x in Leaves(u) ensures x in Leaves(sub) || x in Leaves(other) || x.id in s.taken {
      BesideVia(s.nodes, u, Ids(s.tree), s.taken, k, p.via, x);
    }
  }

  /** The splice of the undisturbed remove, once it has tagged the edge to its leaf. */
  lemma SplicesAway(s0: State, ls: seq<Label>, s: State, r: State, t: nat, call: Call, own: Option<Own>, p: Path)
    returns (more: seq<Label>, z: State)
    requires Undisturbed(s.nodes, call.key, p) && p.anc != p.par && OwnSound(s.nodes, own) && Ready(s, t)
    requires Reaches(s0, ls, r) && Ready(r, t)
    requires Cleaned(s, r, t, call, own, p, Side(s.nodes, p.par, call.key), Edge(Some(p.leaf), false, false))
    ensures more == ls + [Step(t, 0, 0)] && Reaches(s0, more, z) && z.taken == s.taken
    ensures z.tree == Pruned(s.tree, call.key, p.anc, p.par, Side(s.nodes, p.par, call.key))
  {
    hide Reaches, Pruned;
    var e := Edge(Some(p.leaf), false, false);
    assert r.ops[t] == Splice(call, own, p, Side(s.nodes, p.par, call.key), e);
    assert r.nodes[p.anc] == s.nodes[p.anc];
    more, z := Writes(s0, ls, r, t, 0, 0);
  }

  /** The steps that thread t takes from the end of its seek to its splice. */
  function Solo(t: nat): seq<Label> {
    [Step(t, 0, 0), Step(t, 0, 0), Step(t, 0, 0), Step(t, 0, 0), Step(t, 0, 0), Step(t, 0, 0)]
  }

  /** What becomes of the leaves when thread t goes on undisturbed from the end of its seek: if the leaf it has reached
      lies at another address than the one it flagged, it returns and the tree stays; if at the same address, it is a
      mix-up, and the remove takes away all that hangs on the parent's other side. Of the leaves that nobody flagged it
      loses exactly those there. */
  ghost predicate LosesExactlyOnMixUp(s: State, t: nat)
    requires t < |s.ops| && s.ops[t].SeekWalk? && s.ops[t].own.Some?
    requires s.ops[t].own.value.leaf < |s.addrs| && s.ops[t].p.par < |s.nodes|
  {
    var p, own, k := s.ops[t].p, s.ops[t].own.value, s.ops[t].call.key;
    && OnWay(s.tree, k, p.anc) && OnWay(Under(s.tree, k, p.anc), k, p.par) && Enabled(s, Step(t, 0, 0))
    && var other := OtherSide(s, k, p);
    && (MixUp(s, Step(t, 0, 0)) <==> HasAddr(s, p.leaf, s.addrs[own.leaf]))
    && if MixUp(s, Step(t, 0, 0)) then
         && Runnable(s, Solo(t)) && Leaves(other) != {}
         && var z := Run(s, Solo(t));
         && z.taken == s.taken && Leaves(other) <= Leaves(s.tree) - Leaves(z.tree)
         && forall x :: x in Leaves(s.tree) - Leaves(z.tree) ==> x in Leaves(other) || x.id in s.taken
       else
         && Apply(s, Step(t, 0, 0)).tree == s.tree && Apply(s, Step(t, 0, 0)).ops[t].Returned?
  }

  lemma CleanUpLoses(s: State, t: nat)
    requires Inv(s) && Ready(s, t) && s.ops[t].SeekWalk? && s.ops[t].own.Some?
    requires Undisturbed(s.nodes, s.ops[t].call.key, s.ops[t].p)
    ensures s.ops[t].own.value.leaf < |s.addrs| && s.ops[t].p.par < |s.nodes| && LosesExactlyOnMixUp(s, t)
  {
    hide Inv, PathOk, Undisturbed, Leaves, Reaches, OnWay, Under, Kept, Pruned, Good, WasEnd, Run, Runnable, Apply;
    var call, own, p := s.ops[t].call, s.ops[t].own, s.ops[t].p;
    KnowsPath(s, t);
    ParInside(s.nodes, call.key, p);
    UndisturbedPlace(s, call, p);
    MixesUp(s, t);
    if MixUp(s, Step(t, 0, 0)) {
      var z := RunsOn(s, t);
      LosesOtherSide(s, call, p);
    } else {
      Returns(s, t);
    }
  }

  lemma ParInside(nodes: seq<Rec>, k: int, p: Path)
    requires Undisturbed(nodes, k, p)
    ensures p.par < |nodes|
  {
  }

  /** In every run without a mix-up so far: a remove in clean-up mode that ends its seek where nothing is being removed,
      and is not disturbed, takes leaves away if and only if it mixes its leaf up: then all on the parent's other side,
      and of the leaves that nobody flagged no others. */
  lemma CleanUpLosesIffMixUp(s0: State, ls: seq<Label>, t: nat)
    requires Init(s0) && Runnable(s0, ls) && NoMixUp(s0, ls) && t < |Run(s0, ls).ops|
    requires var s := Run(s0, ls);
             s.ops[t].SeekWalk? && s.ops[t].own.Some? && Undisturbed(s.nodes, s.ops[t].call.key, s.ops[t].p)
    ensures var s := Run(s0, ls);
            s.ops[t].own.value.leaf < |s.addrs| && s.ops[t].p.par < |s.nodes| && LosesExactlyOnMixUp(s, t)
  {
    hide Undisturbed, LosesExactlyOnMixUp, Run, Runnable, NoMixUp, TreeInv, OpsInv;
    InitInv(s0);
    RunInv(s0, ls);
    CleanUpLoses(Run(s0, ls), t);
  }

  lemma KnowsPath(s: State, t: nat)
    requires Inv(s) && Ready(s, t) && s.ops[t].SeekWalk? && s.ops[t].own.Some?
    ensures PathOk(s.nodes, s.tree, s.hist, s.ops[t].call, s.ops[t].p)
    ensures s.ops[t].own.value.leaf < |s.nodes| && s.ops[t].own.value.leaf in s.taken
  {
    hide TreeInv, HistInv, AddrInv, Good, WasEnd, Leaves, ViaOk, Stuck, TagStep;
    assert OpInv(s.nodes, s.tree, s.hist, s.taken, s.ops[t]);
  }

  lemma MixesUp(s: State, t: nat)
    requires Ready(s, t) && s.ops[t].SeekWalk? && s.ops[t].own.Some?
    requires Undisturbed(s.nodes, s.ops[t].call.key, s.ops[t].p)
    requires s.ops[t].own.value.leaf < |s.nodes| && s.ops[t].own.value.leaf in s.taken && s.ops[t].p.leaf !in s.taken
    ensures Enabled(s, Step(t, 0, 0))
    ensures MixUp(s, Step(t, 0, 0)) <==> HasAddr(s, s.ops[t].p.leaf, s.addrs[s.ops[t].own.value.leaf])
  {
    hide FreeAddress;
  }

  lemma Returns(s: State, t: nat)
    requires Enabled(s, Step(t, 0, 0)) && s.ops[t].SeekWalk? && s.ops[t].own.Some?
    requires s.ops[t].own.value.leaf < |s.nodes|
    requires Undisturbed(s.nodes, s.ops[t].call.key, s.ops[t].p)
    requires !HasAddr(s, s.ops[t].p.leaf, s.addrs[s.ops[t].own.value.leaf])
    ensures Apply(s, Step(t, 0, 0)).tree == s.tree && Apply(s, Step(t, 0, 0)).ops[t].Returned?
  {
    hide FreeAddress;
  }

  lemma RunsOn(s: State, t: nat) returns (z: State)
    requires Ready(s, t) && s.ops[t].SeekWalk? && s.ops[t].own.Some? && s.ops[t].own.value.leaf < |s.nodes|
    requires Undisturbed(s.nodes, s.ops[t].call.key, s.ops[t].p) && s.ops[t].p.anc != s.ops[t].p.par
    requires HasAddr(s, s.ops[t].p.leaf, s.addrs[s.ops[t].own.value.leaf])
    ensures Runnable(s, Solo(t)) && z == Run(s, Solo(t)) && z.taken == s.taken
    ensures var p, k := s.ops[t].p, s.ops[t].call.key;
        z.tree == Pruned(s.tree, k, p.anc, p.par, Side(s.nodes, p.par, k))
  {
    hide Run, Runnable, Pruned;
    var call, own, p := s.ops[t].call, s.ops[t].own, s.ops[t].p;
    ReachesItself(s);
    var ls, s1 := SeekEnds(s, [], s, t);
    assert s1.ops[t] == Clean(call, own, p);
    var s5;
    ls, s5 := CleansUp(s, ls, s1, t, call, own, p, Side(s.nodes, p.par, call.key));
    CleanedSince(s, s1, s5, t, call, own, p);
    ls, z := SplicesAway(s, ls, s, s5, t, call, own, p);
    assert ls == Solo(t);
  }

  lemma CleanedSince(s: State, s1: State, s5: State, t: nat, call: Call, own: Option<Own>, p: Path)
    requires Undisturbed(s.nodes, call.key, p) && OnlyMoves(s, s1, t, Clean(call, own, p))
    requires var side := Side(s.nodes, p.par, call.key);
        Cleaned(s1, s5, t, call, own, p, side, Out(s.nodes, p.par, side))
    ensures Cleaned(s, s5, t, call, own, p, Side(s.nodes, p.par, call.key), Edge(Some(p.leaf), false, false))
  {
  }
}
