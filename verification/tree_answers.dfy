/** What the answers of the Natarajan-Mittal tree mean, told from what the threads were called with: every answer was
    true at an instant of its call, every change of the map is the work of one call, and that call says so. */
module TreeAnswers {
  import opened Options
  import opened TreeShapes
  import opened TreeModel
  import opened TreeInvariant
  import opened TreeFrames
  import opened TreeUpdates
  import opened TreeSplices
  import opened TreeSteps
  import opened TreeEffects
  import opened TreeGuards
  import opened TreeSafety

  /** The state after the first m steps. */
  ghost function At(s: State, ls: seq<Label>, m: nat): State
    requires Runnable(s, ls) && m <= |ls|
    decreases m
  {
    if m == 0 then s else At(Apply(s, ls[0]), ls[1..], m - 1)
  }

  lemma {:induction false} AtNext(s: State, ls: seq<Label>, m: nat)
    requires Runnable(s, ls) && m < |ls|
    ensures Enabled(At(s, ls, m), ls[m]) && At(s, ls, m + 1) == Apply(At(s, ls, m), ls[m])
    decreases m
  {
    hide Enabled, Apply;
    var r := Apply(s, ls[0]);
    if m == 0 {
      assert At(r, ls[1..], 0) == r;
    } else {
      AtNext(r, ls[1..], m - 1);
    }
  }

  ghost function TreeAt(s: State, ls: seq<Label>, m: nat): Tree
    requires Runnable(s, ls) && m <= |ls|
  {
    At(s, ls, m).tree
  }

  lemma {:induction false} NoMixUpAt(s: State, ls: seq<Label>, m: nat)
    requires Runnable(s, ls) && NoMixUp(s, ls) && m < |ls|
    ensures Enabled(At(s, ls, m), ls[m]) && !MixUp(At(s, ls, m), ls[m])
    decreases m
  {
    hide Enabled, Apply, MixUp;
    if m > 0 { NoMixUpAt(Apply(s, ls[0]), ls[1..], m - 1); }
  }

  lemma {:induction false} AtInv(s0: State, ls: seq<Label>, m: nat)
    requires Init(s0) && Runnable(s0, ls) && Sheltered(s0, ls) && m <= |ls|
    ensures Inv(At(s0, ls, m)) && |At(s0, ls, m).ops| == |s0.ops|
  {
    hide Inv, Init, Apply, Enabled, Runnable, NoMixUp, MixUp;
    if s0.guarded { GuardedNeverMixesUp(s0, ls); }
    if m == 0 {
      InitInv(s0);
    } else {
      hide At;
      AtInv(s0, ls, m - 1);
      AtNext(s0, ls, m - 1);
      NoMixUpAt(s0, ls, m - 1);
      StepInv(At(s0, ls, m - 1), ls[m - 1]);
      OwnAfter(At(s0, ls, m - 1), ls[m - 1]);
    }
  }

  /** The history is the run's: it lists the tree at the start and after each step. */
  lemma {:induction false} HistoryIsTrue(s0: State, ls: seq<Label>, m: nat)
    requires Init(s0) && Runnable(s0, ls) && m <= |ls|
    ensures |At(s0, ls, m).hist| == m + 1
    ensures forall h :: 0 <= h <= m ==> At(s0, ls, m).hist[h] == TreeAt(s0, ls, h)
  {
    hide Apply, Enabled, Runnable;
    if m > 0 {
      hide At, Init;
      HistoryIsTrue(s0, ls, m - 1);
      AtNext(s0, ls, m - 1);
      GuardedStays(At(s0, ls, m - 1), ls[m - 1]);
    }
  }

  // ---------------------------------------------------------------- calls

  /** Label i invokes the call that thread t is in, or has last returned from, after m steps. */
  ghost predicate InCall(ls: seq<Label>, i: nat, t: nat, kind: Kind, key: int, m: nat) {
    && i < m <= |ls| && ls[i] == Invoke(t, kind, key)
    && forall j :: i < j < m ==> !(ls[j].Invoke? && ls[j].t == t)
  }

  lemma SeekKeepsCall(s: State, op: Op, a: Addr, b: Addr)
    requires !Resting(op) && Sound(s.nodes, op) && |s.hist| > 0 && |s.addrs| == |s.nodes|
    requires op.GetTop? || op.GetFirst? || op.GetWalk? || op.SeekRoot? || op.SeekTop? || op.SeekTopTag?
             || op.SeekFirstTag? || op.SeekFirst? || op.SeekWalk?
    ensures !Act(s, op, a, b).op.Idle? && Act(s, op, a, b).op.call == op.call
  {
    hide Advance, Side;
  }

  lemma RestKeepsCall(s: State, op: Op, a: Addr, b: Addr)
    requires !Resting(op) && Sound(s.nodes, op) && |s.hist| > 0 && |s.addrs| == |s.nodes|
    requires !(op.GetTop? || op.GetFirst? || op.GetWalk? || op.SeekRoot? || op.SeekTop? || op.SeekTopTag?
             || op.SeekFirstTag? || op.SeekFirst? || op.SeekWalk?)
    ensures !Act(s, op, a, b).op.Idle? && Act(s, op, a, b).op.call == op.call
  {
    hide Pruned, Grafted, NewPart, NewInner, Side;
  }

  lemma KeepsCall(s: State, l: Label, t: nat)
    requires Enabled(s, l) && t < |s.ops| && !s.ops[t].Idle? && !(l.Invoke? && l.t == t)
    ensures |Apply(s, l).ops| == |s.ops| && !Apply(s, l).ops[t].Idle? && Apply(s, l).ops[t].call == s.ops[t].call
  {
    hide FreeAddress, Act, Sound;
    if l.t == t {
      var op := s.ops[t];
      if op.GetTop? || op.GetFirst? || op.GetWalk? || op.SeekRoot? || op.SeekTop? || op.SeekTopTag?
         || op.SeekFirstTag? || op.SeekFirst? || op.SeekWalk? {
        SeekKeepsCall(s, op, l.leafAddr, l.innerAddr);
      } else {
        RestKeepsCall(s, op, l.leafAddr, l.innerAddr);
      }
    }
  }

  lemma StartsCall(s: State, t: nat, kind: Kind, key: int)
    requires Enabled(s, Invoke(t, kind, key))
    ensures t < |s.ops| == |Apply(s, Invoke(t, kind, key)).ops|
    ensures var op := Apply(s, Invoke(t, kind, key)).ops[t]; !Resting(op) && op.call == Call(kind, key, |s.hist|)
    ensures OwnOf(Apply(s, Invoke(t, kind, key)).ops[t]) == None
  {
  }

  /** What a thread works on is what it was last called with, from the instant of the invocation on. */
  lemma {:induction false} CallIsInvoked(s0: State, ls: seq<Label>, i: nat, t: nat, kind: Kind, key: int, m: nat)
    requires Init(s0) && Runnable(s0, ls) && InCall(ls, i, t, kind, key, m)
    ensures t < |At(s0, ls, m).ops| && !At(s0, ls, m).ops[t].Idle?
    ensures At(s0, ls, m).ops[t].call == Call(kind, key, i + 1)
  {
    hide Init, Runnable, At, Apply, Enabled;
    AtNext(s0, ls, m - 1);
    if i == m - 1 {
      HistoryIsTrue(s0, ls, i);
      StartsCall(At(s0, ls, i), t, kind, key);
    } else {
      CallIsInvoked(s0, ls, i, t, kind, key, m - 1);
      KeepsCall(At(s0, ls, m - 1), ls[m - 1], t);
    }
  }

  lemma AllIdleAtFirst(s0: State, ls: seq<Label>)
    requires Init(s0) && Runnable(s0, ls)
    ensures forall t :: 0 <= t < |At(s0, ls, 0).ops| ==> At(s0, ls, 0).ops[t].Idle?
  {
    hide Runnable;
  }

  lemma StaysIdle(s: State, l: Label, t: nat)
    requires Enabled(s, l) && t < |s.ops| && s.ops[t].Idle? && !(l.Invoke? && l.t == t)
    ensures |Apply(s, l).ops| == |s.ops| && Apply(s, l).ops[t].Idle?
  {
    hide FreeAddress, Act, Sound;
  }

  /** A thread that is not idle was invoked. */
  lemma {:induction false} Invocation(s0: State, ls: seq<Label>, t: nat, m: nat) returns (i: nat)
    requires Init(s0) && Runnable(s0, ls) && m <= |ls| && t < |At(s0, ls, m).ops| && !At(s0, ls, m).ops[t].Idle?
    ensures i < m && ls[i].Invoke? && InCall(ls, i, t, ls[i].kind, ls[i].key, m)
  {
    hide Runnable, Apply, At, Init, Enabled;
    AllIdleAtFirst(s0, ls);
    if m == 0 {
      assert false;
    }
    AtNext(s0, ls, m - 1);
    OwnAfter(At(s0, ls, m - 1), ls[m - 1]);
    if ls[m - 1].Invoke? && ls[m - 1].t == t {
      i := m - 1;
    } else {
      if At(s0, ls, m - 1).ops[t].Idle? { StaysIdle(At(s0, ls, m - 1), ls[m - 1], t); }
      i := Invocation(s0, ls, t, m - 1);
    }
  }

  /** The step of its own with which a call returned. */
  lemma {:induction false} ReturnStep(s0: State, ls: seq<Label>, i: nat, t: nat, kind: Kind, key: int, m: nat)
    returns (j: nat)
    requires Init(s0) && Runnable(s0, ls) && InCall(ls, i, t, kind, key, m)
    requires t < |At(s0, ls, m).ops| && At(s0, ls, m).ops[t].Returned?
    ensures i < j < m && ls[j].Step? && ls[j].t == t && InCall(ls, i, t, kind, key, j)
    ensures t < |At(s0, ls, j).ops| && !Resting(At(s0, ls, j).ops[t])
    ensures t < |At(s0, ls, j + 1).ops| && At(s0, ls, j + 1).ops[t] == At(s0, ls, m).ops[t]
  {
    hide Init, Runnable, At, Apply, Enabled;
    AtNext(s0, ls, m - 1);
    OwnAfter(At(s0, ls, m - 1), ls[m - 1]);
    EnabledThread(At(s0, ls, m - 1), ls[m - 1]);
    if ls[m - 1].t == t {
      j := m - 1;
      if i == j { StartsCall(At(s0, ls, i), t, kind, key); }
    } else {
      j := ReturnStep(s0, ls, i, t, kind, key, m - 1);
    }
  }

  lemma EnabledThread(s: State, l: Label)
    requires Enabled(s, l)
    ensures l.t < |s.ops| && (l.Step? <==> !Resting(s.ops[l.t]))
  {
  }

  // ---------------------------------------------------------------- the steps that change the map

  /** The map loses or gains nothing but this leaf between steps m and m + 1. */
  ghost predicate Gains(s0: State, ls: seq<Label>, m: nat, key: int, x: Tree)
    requires Runnable(s0, ls) && m < |ls|
  {
    && x.Leaf? && x.key == Fin(key) && !Has(TreeAt(s0, ls, m), key)
    && Leaves(TreeAt(s0, ls, m + 1)) == Leaves(TreeAt(s0, ls, m)) + {x}
  }

  lemma SuccessIsCas(s: State, op: Op, a: Addr, b: Addr)
    requires !Resting(op) && Sound(s.nodes, op) && |s.hist| > 0 && |s.addrs| == |s.nodes|
    requires Act(s, op, a, b).op.Returned? && Act(s, op, a, b).op.answer == Inserted(true)
    ensures op.InsertCas? && op.call.kind.Insert?
    ensures Out(s.nodes, op.p.par, Side(s.nodes, op.p.par, op.call.key)) == Edge(Some(op.p.leaf), false, false)
  {
    hide Pruned, Grafted, NewPart, NewInner, Side, Advance;
  }

  /** An insert that answers true adds its leaf in the step in which it returns. */
  lemma InsertAdds(s: State, t: nat, a: Addr, b: Addr)
    requires Inv(s) && Enabled(s, Step(t, a, b)) && s.ops[t].InsertCas? && s.ops[t].call.kind.Insert?
    requires var call, p := s.ops[t].call, s.ops[t].p;
             Out(s.nodes, p.par, Side(s.nodes, p.par, call.key)) == Edge(Some(p.leaf), false, false)
    ensures var call, r := s.ops[t].call, Apply(s, Step(t, a, b));
            && !Has(s.tree, call.key)
            && Leaves(r.tree) == Leaves(s.tree) + {Leaf(|s.nodes|, Fin(call.key), Some(call.kind.val))}
  {
    hide TreeInv, HistInv, WasEnd, Good, AddrInv, FreeAddress, Leaves, OnWay, Replace, NewPart, Evolves, ViaOk, Has,
         NodesKept;
    assert OpInv(s.nodes, s.tree, s.hist, s.taken, s.ops[t]);
    hide OpsInv;
    var call, p := s.ops[t].call, s.ops[t].p;
    GoodIsInner(s.nodes, s.tree, s.hist, call.key, p.from, p.par);
    LooseOnWay(s.nodes, s.tree, s.taken, s.hist, call.key, p.from, p.par, Side(s.nodes, p.par, call.key));
    InsertKeeps(s.nodes, s.tree, s.taken, call.key, call.kind.val, p.par, p.leaf);
  }

  /** The leaf that a remove has taken: the one it remembers, or has answered with. */
  function Took(op: Op): Option<Node> {
    if op.Returned? then
      if op.call.kind.Remove? && op.answer.Found? && op.answer.val.Some? then Some(op.leaf) else None
    else if OwnOf(op).Some? then Some(OwnOf(op).value.leaf) else None
  }

  lemma SeekOwn(s: State, op: Op, a: Addr, b: Addr)
    requires !Resting(op) && Sound(s.nodes, op) && |s.hist| > 0 && |s.addrs| == |s.nodes|
    requires op.GetTop? || op.GetFirst? || op.GetWalk? || op.SeekRoot? || op.SeekTop? || op.SeekTopTag?
             || op.SeekFirstTag? || op.SeekFirst? || op.SeekWalk?
    ensures OwnAct(s, op, Act(s, op, a, b).op)
  {
    hide Advance, Side;
  }

  lemma RestOwn(s: State, op: Op, a: Addr, b: Addr)
    requires !Resting(op) && Sound(s.nodes, op) && |s.hist| > 0 && |s.addrs| == |s.nodes|
    requires !(op.GetTop? || op.GetFirst? || op.GetWalk? || op.SeekRoot? || op.SeekTop? || op.SeekTopTag?
             || op.SeekFirstTag? || op.SeekFirst? || op.SeekWalk?)
    ensures OwnAct(s, op, Act(s, op, a, b).op)
  {
    hide Pruned, Grafted, NewPart, NewInner, Side;
  }

  /** A remove that remembers a leaf keeps it or answers with its value; one that does not may flag one. */
  ghost predicate OwnAct(s: State, op: Op, now: Op) {
    if OwnOf(op).Some? then
      || OwnOf(now) == OwnOf(op)
      || (OwnOf(op).value.leaf < |s.nodes|
          && now == Returned(op.call, Found(s.nodes[OwnOf(op).value.leaf].val), OwnOf(op).value.leaf))
    else
      && (now.Returned? && now.answer.Found? ==> now.answer.val == None || op.GetFirst? || op.GetWalk?)
      && (OwnOf(now).Some? ==> WillFlag(s, op) && OwnOf(now).value.leaf == op.p.leaf)
  }

  lemma OwnActs(s: State, t: nat, a: Addr, b: Addr)
    requires Enabled(s, Step(t, a, b))
    ensures t < |s.ops| == |Apply(s, Step(t, a, b)).ops| && OwnAct(s, s.ops[t], Apply(s, Step(t, a, b)).ops[t])
  {
    hide FreeAddress, Act, Sound, OwnAct;
    var op := s.ops[t];
    if op.GetTop? || op.GetFirst? || op.GetWalk? || op.SeekRoot? || op.SeekTop? || op.SeekTopTag?
       || op.SeekFirstTag? || op.SeekFirst? || op.SeekWalk? {
      SeekOwn(s, op, a, b);
    } else {
      RestOwn(s, op, a, b);
    }
  }

  lemma GetsOnly(s: State, t: nat)
    requires Inv(s) && t < |s.ops| && (s.ops[t].GetFirst? || s.ops[t].GetWalk?)
    ensures s.ops[t].call.kind.Get?
  {
    hide AddrInv, TreeInv, HistInv, Visited;
    assert OpInv(s.nodes, s.tree, s.hist, s.taken, s.ops[t]);
  }

  lemma OwnHasValue(s: State, t: nat)
    requires Inv(s) && t < |s.ops| && OwnOf(s.ops[t]).Some?
    ensures var leaf := OwnOf(s.ops[t]).value.leaf;
            s.ops[t].call.kind.Remove? && leaf < |s.nodes| && s.nodes[leaf].val.Some?
  {
    hide AddrInv, Repr, NoDup, Ordered, TopShape, DeadMarked, FlagsTaken, HistInv, SeekOk, SideOk, Stuck, PathOk,
         Leaves;
    assert OpInv(s.nodes, s.tree, s.hist, s.taken, s.ops[t]);
    hide OpsInv;
    var leaf := OwnOf(s.ops[t]).value.leaf;
    assert IsLeaf(s.nodes, leaf) && s.nodes[leaf].key.Fin?;
    assert RecOk(s.nodes, leaf);
  }

  /** What a remove has taken stays for the rest of the call; it takes it with a step of its own, by which the leaf is
      flagged for the first time, while the leaf is in the tree. */
  lemma TookStep(s: State, l: Label, t: nat)
    requires Inv(s) && Enabled(s, l) && t < |s.ops|
    ensures t < |Apply(s, l).ops|
    ensures var now := Took(Apply(s, l).ops[t]);
            || (now == Took(s.ops[t]) && (l.t == t ==> l.Step?))
            || (l.t == t && l.Invoke? && now == None)
            || (&& l.t == t && l.Step? && Took(s.ops[t]) == None && now.Some?
                && TakesLeaf(s, l, s.ops[t].call.key, now.value))
  {
    hide Inv, Enabled, Apply, WillFlag, Leaves;
    EnabledThread(s, l);
    OwnAfter(s, l);
    if l.t == t {
      if l.Invoke? {
        StartsCall(s, t, l.kind, l.key);
      } else {
        var op, now := s.ops[t], Apply(s, l).ops[t];
        OwnActs(s, t, l.leafAddr, l.innerAddr);
        KeepsCall(s, l, t);
        if OwnOf(op).Some? {
          OwnHasValue(s, t);
        } else {
          if op.GetFirst? || op.GetWalk? { GetsOnly(s, t); }
          if OwnOf(now).Some? { Flagging(s, t, l.leafAddr, l.innerAddr); }
        }
      }
    }
  }

  /** This step flags the leaf with this key: for the first time, and while it is in the tree. */
  ghost predicate TakesLeaf(s: State, l: Label, key: int, leaf: Node)
    requires Enabled(s, l)
  {
    && leaf !in s.taken && leaf in Apply(s, l).taken
    && exists x :: x in Leaves(s.tree) && x.id == leaf && x.key == Fin(key)
  }

  lemma Flagging(s: State, t: nat, a: Addr, b: Addr)
    requires Inv(s) && Enabled(s, Step(t, a, b)) && WillFlag(s, s.ops[t])
    ensures TakesLeaf(s, Step(t, a, b), s.ops[t].call.key, s.ops[t].p.leaf)
  {
    hide TreeInv, HistInv, WasEnd, Good, AddrInv, FreeAddress, Leaves, OnWay, Evolves, Has, PathOk, Ids;
    assert OpInv(s.nodes, s.tree, s.hist, s.taken, s.ops[t]);
    hide OpsInv;
    var call, p := s.ops[t].call, s.ops[t].p;
    PathInner(s.nodes, s.tree, s.hist, call, p);
    FlagKeeps(s.nodes, s.tree, s.taken, p.par, Side(s.nodes, p.par, call.key), p.leaf);
    LeafInside(s.nodes, s.tree, s.taken, p.leaf);
    var x := Leaf(p.leaf, s.nodes[p.leaf].key, s.nodes[p.leaf].val);
    assert x in Leaves(s.tree) && x.id == p.leaf && x.key == Fin(call.key);
  }

  /** Step f is the thread's own, within the call of label i, and takes the leaf. */
  ghost predicate TakesAt(s0: State, ls: seq<Label>, i: nat, t: nat, key: int, leaf: Node, f: nat)
    requires Runnable(s0, ls)
  {
    && i < f < |ls| && ls[f].Step? && ls[f].t == t && Enabled(At(s0, ls, f), ls[f])
    && TakesLeaf(At(s0, ls, f), ls[f], key, leaf)
  }

  lemma {:induction false} TookBy(s0: State, ls: seq<Label>, i: nat, t: nat, kind: Kind, key: int, m: nat)
    returns (f: nat)
    requires Init(s0) && Runnable(s0, ls) && Sheltered(s0, ls) && InCall(ls, i, t, kind, key, m)
    requires t < |At(s0, ls, m).ops| && Took(At(s0, ls, m).ops[t]).Some?
    ensures f < m && TakesAt(s0, ls, i, t, key, Took(At(s0, ls, m).ops[t]).value, f)
  {
    hide Init, Runnable, Sheltered, At, Apply, Enabled, Inv, TakesLeaf, Took;
    AtNext(s0, ls, m - 1);
    AtInv(s0, ls, m - 1);
    OwnAfter(At(s0, ls, m - 1), ls[m - 1]);
    TookStep(At(s0, ls, m - 1), ls[m - 1], t);
    if i < m - 1 {
      CallIsInvoked(s0, ls, i, t, kind, key, m - 1);
      if Took(At(s0, ls, m - 1).ops[t]) == Took(At(s0, ls, m).ops[t]) {
        f := TookBy(s0, ls, i, t, kind, key, m - 1);
      } else {
        f := m - 1;
      }
    }
  }

  /** A leaf is taken once. */
  lemma {:induction false} TakenStays(s0: State, ls: seq<Label>, f: nat, m: nat, leaf: Node)
    requires Init(s0) && Runnable(s0, ls) && Sheltered(s0, ls) && f <= m <= |ls| && leaf in At(s0, ls, f).taken
    ensures leaf in At(s0, ls, m).taken
  {
    hide Init, Runnable, Sheltered, At, Apply, Enabled, Inv;
    if f < m {
      TakenStays(s0, ls, f, m - 1, leaf);
      AtNext(s0, ls, m - 1);
      AtInv(s0, ls, m - 1);
      TakenGrows(At(s0, ls, m - 1), ls[m - 1]);
    }
  }

  lemma TakenGrows(s: State, l: Label)
    requires Inv(s) && Enabled(s, l)
    ensures s.taken <= Apply(s, l).taken
  {
    hide Inv, Apply, Enabled, NodesKept, Leaves, Has;
    StepIsOk(s, l);
  }

  // ---------------------------------------------------------------- answers

  /** The key has this value after m steps, or with None is not there. */
  ghost predicate HoldsAt(s0: State, ls: seq<Label>, m: nat, key: int, v: Option<Value>)
    requires Runnable(s0, ls) && m <= |ls|
  {
    Holds(TreeAt(s0, ls, m), key, v)
  }

  ghost predicate HasAt(s0: State, ls: seq<Label>, m: nat, key: int)
    requires Runnable(s0, ls) && m <= |ls|
  {
    Has(TreeAt(s0, ls, m), key)
  }

  /** The leaf x leaves the tree in step m, and its key with it. */
  ghost predicate Loses(s0: State, ls: seq<Label>, m: nat, key: int, x: Tree)
    requires Runnable(s0, ls) && m < |ls|
  {
    && x in Leaves(TreeAt(s0, ls, m)) && x.Leaf? && x.key == Fin(key)
    && !Has(TreeAt(s0, ls, m + 1), key)
  }

  /** The answer is true of an instant between the invocation, label i, and the end of the run. A get, and a call that
      changes nothing, reports what the map has there; an insert that succeeds is the step of the thread's own that
      adds its key and value there; a remove that answers a value has taken a leaf with that key and value, by a step
      of its own, and the leaf leaves the tree there. */
  ghost predicate Answers(s0: State, ls: seq<Label>, i: nat, t: nat, kind: Kind, key: int, answer: Answer, leaf: Node)
    requires Runnable(s0, ls)
  {
    match kind
    case Get => answer.Found? && exists m :: i < m <= |ls| && HoldsAt(s0, ls, m, key, answer.val)
    case Insert(v) =>
      && answer.Inserted?
      && if answer.ok then
           exists m :: i < m < |ls| && ls[m].Step? && ls[m].t == t
                    && Gains(s0, ls, m, key, Leaf(leaf, Fin(key), Some(v)))
         else exists m :: i < m <= |ls| && HasAt(s0, ls, m, key)
    case Remove =>
      && answer.Found?
      && if answer.val.Some? then
           && (exists f :: TakesAt(s0, ls, i, t, key, leaf, f))
           && exists m :: i < m < |ls| && Loses(s0, ls, m, key, Leaf(leaf, Fin(key), answer.val))
         else exists m :: i < m <= |ls| && HoldsAt(s0, ls, m, key, None)
  }

  lemma SuccessAdds(s0: State, ls: seq<Label>, i: nat, t: nat, v: Value, key: int) returns (j: nat)
    requires Init(s0) && Runnable(s0, ls) && Sheltered(s0, ls) && InCall(ls, i, t, Insert(v), key, |ls|)
    requires var ops := At(s0, ls, |ls|).ops; t < |ops| && ops[t].Returned? && ops[t].answer == Inserted(true)
    ensures i < j < |ls| && ls[j].Step? && ls[j].t == t
    ensures Gains(s0, ls, j, key, Leaf(At(s0, ls, |ls|).ops[t].leaf, Fin(key), Some(v)))
  {
    hide Init, Runnable, Sheltered, At, Inv, Leaves, Has;
    j := ReturnStep(s0, ls, i, t, Insert(v), key, |ls|);
    var s := At(s0, ls, j);
    AtNext(s0, ls, j);
    AtInv(s0, ls, j);
    CallIsInvoked(s0, ls, i, t, Insert(v), key, j);
    SuccessStep(s, t, ls[j].leafAddr, ls[j].innerAddr);
  }

  lemma SuccessStep(s: State, t: nat, a: Addr, b: Addr)
    requires Inv(s) && Enabled(s, Step(t, a, b)) && s.ops[t].call.kind.Insert?
    requires var ops := Apply(s, Step(t, a, b)).ops; t < |ops| && ops[t].Returned? && ops[t].answer == Inserted(true)
    ensures var call, r := s.ops[t].call, Apply(s, Step(t, a, b));
            && !Has(s.tree, call.key)
            && Leaves(r.tree) == Leaves(s.tree) + {Leaf(r.ops[t].leaf, Fin(call.key), Some(call.kind.val))}
  {
    hide Inv, Leaves, Has, FreeAddress, Sound, Grafted, Pruned, NewPart, Side;
    SuccessIsCas(s, s.ops[t], a, b);
    InsertAdds(s, t, a, b);
  }

  /** Every answer of every run under guards, and of every run without a mix-up, is that of a map whose operations
      take effect at one instant each, within the call that the thread's last invocation asked for. */
  lemma EveryAnswerIsJustified(s0: State, ls: seq<Label>, i: nat, t: nat, kind: Kind, key: int)
    requires Init(s0) && Runnable(s0, ls) && Sheltered(s0, ls) && InCall(ls, i, t, kind, key, |ls|)
    requires t < |At(s0, ls, |ls|).ops| && At(s0, ls, |ls|).ops[t].Returned?
    ensures var op := At(s0, ls, |ls|).ops[t]; Answers(s0, ls, i, t, kind, key, op.answer, op.leaf)
  {
    hide Init, Runnable, Sheltered, At, TreeInv, HistInv, AddrInv, Leaves, Has, Holds, TakesAt, Gains;
    CallIsInvoked(s0, ls, i, t, kind, key, |ls|);
    AtInv(s0, ls, |ls|);
    HistoryIsTrue(s0, ls, |ls|);
    var s := At(s0, ls, |ls|);
    var op := s.ops[t];
    assert OpInv(s.nodes, s.tree, s.hist, s.taken, op);
    hide OpsInv;
    match kind {
      case Get => Witnessed(s0, ls, i + 1, key, op.answer.val);
      case Insert(v) =>
        if op.answer == Inserted(true) { var j := SuccessAdds(s0, ls, i, t, v, key); }
        else { PresentThen(s0, ls, i + 1, key); }
      case Remove =>
        if op.answer.val.Some? {
          var f := TookBy(s0, ls, i, t, kind, key, |ls|);
          LeftThen(s0, ls, i + 1, key, Leaf(op.leaf, Fin(key), op.answer.val));
        } else {
          Witnessed(s0, ls, i + 1, key, None);
        }
    }
  }

  lemma Witnessed(s0: State, ls: seq<Label>, since: nat, key: int, v: Option<Value>)
    requires Init(s0) && Runnable(s0, ls) && SomeTime(At(s0, ls, |ls|).hist, since, key, v)
    ensures exists m :: since <= m <= |ls| && HoldsAt(s0, ls, m, key, v)
  {
    hide Init, Runnable, At, Holds;
    HistoryIsTrue(s0, ls, |ls|);
    var hist := At(s0, ls, |ls|).hist;
    var m :| since <= m < |hist| && Holds(hist[m], key, v);
    assert HoldsAt(s0, ls, m, key, v);
  }

  lemma PresentThen(s0: State, ls: seq<Label>, since: nat, key: int)
    requires Init(s0) && Runnable(s0, ls) && HadIt(At(s0, ls, |ls|).hist, since, key)
    ensures exists m :: since <= m <= |ls| && HasAt(s0, ls, m, key)
  {
    hide Init, Runnable, At, Has;
    HistoryIsTrue(s0, ls, |ls|);
    var hist := At(s0, ls, |ls|).hist;
    var m :| since <= m < |hist| && Has(hist[m], key);
    assert HasAt(s0, ls, m, key);
  }

  lemma LeftThen(s0: State, ls: seq<Label>, since: nat, key: int, x: Tree)
    requires Init(s0) && Runnable(s0, ls) && x.Leaf?
    requires exists m :: since <= m && RemovedThen(At(s0, ls, |ls|).hist, key, x, m)
    ensures exists m :: since <= m < |ls| && Loses(s0, ls, m, key, x)
  {
    hide Init, Runnable, At, Has, Leaves;
    HistoryIsTrue(s0, ls, |ls|);
    var m :| since <= m && RemovedThen(At(s0, ls, |ls|).hist, key, x, m);
    assert Loses(s0, ls, m, key, x);
  }

  // ---------------------------------------------------------------- changes

  lemma NothingTaken(s0: State, ls: seq<Label>)
    requires Init(s0) && Runnable(s0, ls)
    ensures At(s0, ls, 0).taken == {}
  {
    hide Runnable;
  }

  /** What takes a leaf is a step of a remove of its key, which remembers it. */
  lemma TakingStep(s: State, l: Label, leaf: Node)
    requires Inv(s) && Enabled(s, l) && leaf in Apply(s, l).taken && leaf !in s.taken
    ensures l.Step? && l.t < |s.ops| == |Apply(s, l).ops| && !s.ops[l.t].Idle? && s.ops[l.t].call.kind.Remove?
    ensures Took(Apply(s, l).ops[l.t]) == Some(leaf) && TakesLeaf(s, l, s.ops[l.t].call.key, leaf)
  {
    hide Inv, Apply, NodesKept, Leaves, Has, Sound, FreeAddress;
    StepIsOk(s, l);
    OwnAfter(s, l);
    FlagsAreRemoves(s, l.t);
  }

  lemma FlagsAreRemoves(s: State, t: nat)
    requires Inv(s) && t < |s.ops| && s.ops[t].FlagCas?
    ensures s.ops[t].call.kind.Remove?
  {
    hide AddrInv, TreeInv, HistInv, SeekOk;
    assert OpInv(s.nodes, s.tree, s.hist, s.taken, s.ops[t]);
  }

  lemma {:induction false} TakingStepAt(s0: State, ls: seq<Label>, leaf: Node, m: nat) returns (f: nat)
    requires Init(s0) && Runnable(s0, ls) && m <= |ls| && leaf in At(s0, ls, m).taken
    ensures f < m && leaf !in At(s0, ls, f).taken && leaf in At(s0, ls, f + 1).taken
  {
    hide Init, Runnable, At;
    NothingTaken(s0, ls);
    if m == 0 {
      assert false;
    }
    if leaf in At(s0, ls, m - 1).taken { f := TakingStepAt(s0, ls, leaf, m - 1); } else { f := m - 1; }
  }

  lemma {:induction false} TookStays(s0: State, ls: seq<Label>, t: nat, leaf: Node, f: nat, m: nat)
    requires Init(s0) && Runnable(s0, ls) && Sheltered(s0, ls) && f <= m <= |ls|
    requires forall j :: f <= j < m ==> !(ls[j].Invoke? && ls[j].t == t)
    requires t < |At(s0, ls, f).ops| && Took(At(s0, ls, f).ops[t]) == Some(leaf)
    ensures t < |At(s0, ls, m).ops| && Took(At(s0, ls, m).ops[t]) == Some(leaf)
  {
    hide Init, Runnable, Sheltered, At, Apply, Enabled, Inv, TakesLeaf, Took;
    if f < m {
      TookStays(s0, ls, t, leaf, f, m - 1);
      AtNext(s0, ls, m - 1);
      AtInv(s0, ls, m - 1);
      TookStep(At(s0, ls, m - 1), ls[m - 1], t);
    }
  }

  /** Every leaf that is ever taken is taken by one remove of its key; and if that remove returns, it answers with the
      leaf. */
  lemma EveryTakenLeafIsARemoves(s0: State, ls: seq<Label>, leaf: Node) returns (i: nat, f: nat)
    requires Init(s0) && Runnable(s0, ls) && Sheltered(s0, ls) && leaf in At(s0, ls, |ls|).taken
    ensures i < f < |ls| && ls[i].Invoke? && ls[i].kind == Remove && InCall(ls, i, ls[i].t, Remove, ls[i].key, f)
    ensures TakesAt(s0, ls, i, ls[i].t, ls[i].key, leaf, f)
    ensures forall g :: 0 <= g < |ls| && leaf !in At(s0, ls, g).taken && leaf in At(s0, ls, g + 1).taken ==> g == f
    ensures InCall(ls, i, ls[i].t, Remove, ls[i].key, |ls|) ==>
              ls[i].t < |At(s0, ls, |ls|).ops| && Took(At(s0, ls, |ls|).ops[ls[i].t]) == Some(leaf)
  {
    hide Init, Runnable, Sheltered, At, Apply, Enabled, Inv, TakesLeaf, Took;
    f := TakingStepAt(s0, ls, leaf, |ls|);
    AtNext(s0, ls, f);
    AtInv(s0, ls, f);
    TakingStep(At(s0, ls, f), ls[f], leaf);
    var t := ls[f].t;
    i := Invocation(s0, ls, t, f);
    CallIsInvoked(s0, ls, i, t, ls[i].kind, ls[i].key, f);
    forall g | 0 <= g < |ls| && leaf !in At(s0, ls, g).taken && leaf in At(s0, ls, g + 1).taken ensures g == f {
      if g < f { TakenStays(s0, ls, g + 1, f, leaf); }
      if f < g { TakenStays(s0, ls, f + 1, g, leaf); }
    }
    if InCall(ls, i, t, Remove, ls[i].key, |ls|) { TookStays(s0, ls, t, leaf, f + 1, |ls|); }
  }

  /** Every change of the map is some call's: leaves come one at a time, each by the step of an insert of its key and
      value that finds the key absent and returns true with this step; and leaves go only if a remove has taken them. */
  lemma EveryChangeIsACalls(s0: State, ls: seq<Label>, m: nat)
    requires Init(s0) && Runnable(s0, ls) && Sheltered(s0, ls) && m < |ls|
    ensures forall x :: x in Leaves(TreeAt(s0, ls, m)) && x !in Leaves(TreeAt(s0, ls, m + 1)) ==>
              x.id in At(s0, ls, m).taken
    ensures forall x :: x in Leaves(TreeAt(s0, ls, m + 1)) && x !in Leaves(TreeAt(s0, ls, m)) ==>
              exists i :: 0 <= i < m && AddsFor(s0, ls, i, m, x)
  {
    hide Init, Runnable, Sheltered, At, Apply, Enabled, Inv, NodesKept, Leaves, Has;
    var s, l := At(s0, ls, m), ls[m];
    AtNext(s0, ls, m);
    AtInv(s0, ls, m);
    StepIsOk(s, l);
    forall x | x in Leaves(TreeAt(s0, ls, m + 1)) && x !in Leaves(TreeAt(s0, ls, m))
      ensures exists i :: 0 <= i < m && AddsFor(s0, ls, i, m, x)
    {
      OwnAfter(s, l);
      EnabledThread(s, l);
      var i := Invocation(s0, ls, l.t, m);
      CallIsInvoked(s0, ls, i, l.t, ls[i].kind, ls[i].key, m);
      assert AddsFor(s0, ls, i, m, x);
    }
  }

  /** Step m adds x for the insert that label i called, and ends that call with the answer true. */
  ghost predicate AddsFor(s0: State, ls: seq<Label>, i: nat, m: nat, x: Tree)
    requires Runnable(s0, ls) && m < |ls|
  {
    && i < m && ls[i].Invoke? && ls[i].kind.Insert? && ls[m].Step? && ls[m].t == ls[i].t
    && InCall(ls, i, ls[i].t, ls[i].kind, ls[i].key, m)
    && Gains(s0, ls, m, ls[i].key, x) && x.val == Some(ls[i].kind.val)
    && ls[i].t < |At(s0, ls, m + 1).ops|
    && var op := At(s0, ls, m + 1).ops[ls[i].t];
    op.Returned? && op.answer == Inserted(true)
  }
}
