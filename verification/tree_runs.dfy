/** Single steps of the Natarajan-Mittal tree, chained into runs: what a thread does that nobody disturbs. */
module TreeRuns {
  import opened Options
  import opened TreeShapes
  import opened TreeModel

  ghost predicate Reaches(s0: State, ls: seq<Label>, s: State) { Runnable(s0, ls) && Run(s0, ls) == s }

  lemma ReachesItself(s: State)
    ensures Reaches(s, [], s)
  {
  }

  lemma {:induction false} OneMore(s0: State, ls: seq<Label>, s: State, l: Label)
    requires Reaches(s0, ls, s) && Enabled(s, l)
    ensures Reaches(s0, ls + [l], Apply(s, l))
    decreases |ls|
  {
    hide Enabled, Apply;
    if ls == [] {
      assert ([] + [l])[1..] == [];
      ReachesItself(Apply(s, l));
    } else {
      assert (ls + [l])[1..] == ls[1..] + [l];
      OneMore(Apply(s0, ls[0]), ls[1..], s, l);
    }
  }

  /** All but the history and one thread's place is as it was. */
  ghost predicate OnlyMoves(s: State, r: State, t: nat, op: Op) {
    && t < |s.ops| && r.ops == s.ops[t := op] && |r.hist| >= |s.hist|
    && r.nodes == s.nodes && r.addrs == s.addrs && r.guarded == s.guarded && r.tree == s.tree && r.taken == s.taken
  }

  ghost predicate Ready(s: State, t: nat) { t < |s.ops| && |s.hist| > 0 && |s.addrs| == |s.nodes| }

  /** A step that only reads. */
  lemma Reads(s0: State, ls: seq<Label>, s: State, t: nat, op: Op) returns (more: seq<Label>, r: State)
    requires Reaches(s0, ls, s) && Ready(s, t) && !Resting(s.ops[t]) && !s.ops[t].InsertCas? && Sound(s.nodes, s.ops[t])
    requires Act(s, s.ops[t], 0, 0) == Quiet(s, op)
    ensures more == ls + [Step(t, 0, 0)] && Reaches(s0, more, r) && OnlyMoves(s, r, t, op) && Ready(r, t)
  {
    hide Reaches, Act, Sound, Resting;
    var l := Step(t, 0, 0);
    assert Enabled(s, l);
    OneMore(s0, ls, s, l);
    more, r := ls + [l], Apply(s, l);
  }

  lemma Invokes(s0: State, ls: seq<Label>, s: State, t: nat, kind: Kind, key: int)
    returns (more: seq<Label>, r: State, call: Call)
    requires Reaches(s0, ls, s) && Ready(s, t) && Resting(s.ops[t]) && !kind.Get?
    ensures more == ls + [Invoke(t, kind, key)] && Reaches(s0, more, r) && Ready(r, t)
    ensures call.kind == kind && call.key == key && OnlyMoves(s, r, t, SeekRoot(call, None))
  {
    hide Reaches, Act, Sound, Resting;
    var l := Invoke(t, kind, key);
    assert Enabled(s, l);
    OneMore(s0, ls, s, l);
    more, r, call := ls + [l], Apply(s, l), Call(kind, key, |s.hist|);
  }

  // ---------------------------------------------------------------- seek

  /** From the root down to the node below the top one. */
  lemma SeekTopmost(s0: State, ls: seq<Label>, s: State, t: nat, call: Call, own: Option<Own>, x: Node)
    returns (more: seq<Label>, r: State, from: nat)
    requires Reaches(s0, ls, s) && Ready(s, t) && s.ops[t] == SeekRoot(call, own)
    requires TOP < |s.nodes| && s.nodes[ROOT].left.to == Some(TOP) && s.nodes[TOP].left.to == Some(x)
    ensures Reaches(s0, more, r) && Ready(r, t) && OnlyMoves(s, r, t, SeekTopTag(call, own, from, TOP, x))
  {
    hide Reaches;
    from := |s.hist|;
    var r1;
    more, r1 := Reads(s0, ls, s, t, SeekTop(call, own, from, TOP));
    more, r := Reads(s0, more, r1, t, SeekTopTag(call, own, from, TOP, x));
  }

  lemma SeekTags(s0: State, ls: seq<Label>, s: State, t: nat, call: Call, own: Option<Own>, from: nat, x: Node)
    returns (more: seq<Label>, r: State)
    requires Reaches(s0, ls, s) && Ready(s, t) && s.ops[t] == SeekTopTag(call, own, from, TOP, x)
    requires TOP < |s.nodes| && x < |s.nodes| && !s.nodes[TOP].left.tag
    ensures Reaches(s0, more, r) && Ready(r, t)
    ensures OnlyMoves(s, r, t, SeekFirst(call, own, from, TOP, x, false, s.nodes[x].left.tag))
  {
    hide Reaches;
    var r1;
    more, r1 := Reads(s0, ls, s, t, SeekFirstTag(call, own, from, TOP, x, false));
    more, r := Reads(s0, more, r1, t, SeekFirst(call, own, from, TOP, x, false, s.nodes[x].left.tag));
  }

  predicate OwnSound(nodes: seq<Rec>, own: Option<Own>) { own.Some? ==> own.value.leaf < |nodes| }

  /** One node further down, from the topmost one. */
  lemma SeekOnFirst(s0: State, ls: seq<Label>, s: State, t: nat, y: Node) returns (more: seq<Label>, r: State)
    requires Reaches(s0, ls, s) && Ready(s, t) && s.ops[t].SeekFirst? && OwnSound(s.nodes, s.ops[t].own)
    requires s.ops[t].leaf < |s.nodes| && s.nodes[s.ops[t].leaf].left.to == Some(y)
    ensures Reaches(s0, more, r) && Ready(r, t)
    ensures var op := s.ops[t];
            var p := Path(op.from, ROOT, None, op.par, op.leaf, [op.par]);
            OnlyMoves(s, r, t, SeekWalk(op.call, op.own, Advance(p, op.ptag, y), op.ctag))
  {
    hide Reaches, Advance;
    var op := s.ops[t];
    var p := Path(op.from, ROOT, None, op.par, op.leaf, [op.par]);
    more, r := Reads(s0, ls, s, t, SeekWalk(op.call, op.own, Advance(p, op.ptag, y), op.ctag));
  }

  /** The end of a seek at the topmost node: it is a leaf. */
  lemma SeekEndsFirst(s0: State, ls: seq<Label>, s: State, t: nat) returns (more: seq<Label>, r: State)
    requires Reaches(s0, ls, s) && Ready(s, t) && s.ops[t].SeekFirst? && OwnSound(s.nodes, s.ops[t].own)
    requires s.ops[t].leaf < |s.nodes| && s.nodes[s.ops[t].leaf].left == NIL
    ensures Reaches(s0, more, r) && Ready(r, t)
    ensures var op := s.ops[t];
            OnlyMoves(s, r, t, AfterSeek(s, op.call, op.own, Path(op.from, ROOT, None, op.par, op.leaf, [op.par])))
  {
    hide Reaches, AfterSeek;
    var op := s.ops[t];
    var p := Path(op.from, ROOT, None, op.par, op.leaf, [op.par]);
    more, r := Reads(s0, ls, s, t, AfterSeek(s, op.call, op.own, p));
  }

  /** One node further down. */
  lemma SeekOn(s0: State, ls: seq<Label>, s: State, t: nat, e: Edge) returns (more: seq<Label>, r: State)
    requires Reaches(s0, ls, s) && Ready(s, t) && s.ops[t].SeekWalk? && OwnSound(s.nodes, s.ops[t].own)
    requires s.ops[t].p.leaf < |s.nodes|
    requires Out(s.nodes, s.ops[t].p.leaf, Side(s.nodes, s.ops[t].p.leaf, s.ops[t].call.key)) == e && e.to.Some?
    ensures Reaches(s0, more, r) && Ready(r, t)
    ensures var op := s.ops[t]; OnlyMoves(s, r, t, SeekWalk(op.call, op.own, Advance(op.p, op.ptag, e.to.value), e.tag))
  {
    hide Reaches, Advance;
    var op := s.ops[t];
    more, r := Reads(s0, ls, s, t, SeekWalk(op.call, op.own, Advance(op.p, op.ptag, e.to.value), e.tag));
  }

  /** The end of a seek: at a leaf. */
  lemma SeekEnds(s0: State, ls: seq<Label>, s: State, t: nat) returns (more: seq<Label>, r: State)
    requires Reaches(s0, ls, s) && Ready(s, t) && s.ops[t].SeekWalk? && OwnSound(s.nodes, s.ops[t].own)
    requires s.ops[t].p.leaf < |s.nodes| && s.nodes[s.ops[t].p.leaf].left == NIL
    requires s.nodes[s.ops[t].p.leaf].right == NIL
    ensures Reaches(s0, more, r) && Ready(r, t) && more == ls + [Step(t, 0, 0)]
    ensures var op := s.ops[t]; OnlyMoves(s, r, t, AfterSeek(s, op.call, op.own, op.p))
  {
    hide Reaches, AfterSeek;
    var op := s.ops[t];
    more, r := Reads(s0, ls, s, t, AfterSeek(s, op.call, op.own, op.p));
  }

  // ---------------------------------------------------------------- steps that write

  /** A step with its effect. */
  lemma Writes(s0: State, ls: seq<Label>, s: State, t: nat, a: Addr, b: Addr) returns (more: seq<Label>, r: State)
    requires Reaches(s0, ls, s) && Enabled(s, Step(t, a, b))
    ensures more == ls + [Step(t, a, b)] && Reaches(s0, more, r) && r == After(s, t, Act(s, s.ops[t], a, b))
  {
    hide Reaches, Act, Enabled;
    OneMore(s0, ls, s, Step(t, a, b));
    more, r := ls + [Step(t, a, b)], Apply(s, Step(t, a, b));
  }

  lemma InsertCasDoes(s: State, t: nat, call: Call, p: Path, a: Addr, b: Addr)
    requires Ready(s, t) && s.ops[t] == InsertCas(call, p) && call.kind.Insert? && Sound(s.nodes, s.ops[t])
    requires Out(s.nodes, p.par, Side(s.nodes, p.par, call.key)) == Edge(Some(p.leaf), false, false)
    ensures Act(s, s.ops[t], a, b).op == Returned(call, Inserted(true), |s.nodes|)
    ensures Act(s, s.ops[t], a, b) == StepInsert(s, s.ops[t], a, b)
  {
  }

  /** cleanup chooses its side and reads the edge. */
  lemma ChoosesSide(s0: State, ls: seq<Label>, s: State, t: nat, call: Call, own: Option<Own>, p: Path, side: bool)
    returns (more: seq<Label>, r: State)
    requires Reaches(s0, ls, s) && Ready(s, t) && s.ops[t] == Clean(call, own, p) && p.par < |s.nodes|
    requires var k := Side(s.nodes, p.par, call.key); side == if Out(s.nodes, p.par, k).flag then !k else k
    ensures Reaches(s0, more, r) && Ready(r, t) && more == ls + [Step(t, 0, 0)] + [Step(t, 0, 0)]
    ensures OnlyMoves(s, r, t, TagCas(call, own, p, side, Out(s.nodes, p.par, side)))
  {
    hide Reaches;
    var r1;
    more, r1 := Reads(s0, ls, s, t, TagRead(call, own, p, side));
    more, r := Reads(s0, more, r1, t, TagCas(call, own, p, side, Out(s.nodes, p.par, side)));
  }

  /** It tags the edge and reads it back. */
  lemma TagsSide(s0: State, ls: seq<Label>, s: State, t: nat, call: Call, own: Option<Own>, p: Path, side: bool,
                 e: Edge)
    returns (more: seq<Label>, r: State)
    requires Reaches(s0, ls, s) && Ready(s, t) && s.ops[t] == TagCas(call, own, p, side, e) && p.par < |s.nodes|
    requires Out(s.nodes, p.par, side) == e
    ensures Reaches(s0, more, r) && Ready(r, t) && more == ls + [Step(t, 0, 0)] + [Step(t, 0, 0)]
    ensures Cleaned(s, r, t, call, own, p, side, e)
  {
    hide Reaches;
    var r1;
    more, r1 := Writes(s0, ls, s, t, 0, 0);
    assert r1.ops[t] == SiblingRead(call, own, p, side) && Out(r1.nodes, p.par, side) == Edge(e.to, e.flag, true);
    more, r := Reads(s0, more, r1, t, Splice(call, own, p, side, Edge(e.to, e.flag, false)));
  }

  /** From s to r the edge e was tagged, and the thread is about to splice. */
  ghost predicate Cleaned(s: State, r: State, t: nat, call: Call, own: Option<Own>, p: Path, side: bool, e: Edge)
    requires p.par < |s.nodes|
  {
    && r.nodes == SetOut(s.nodes, p.par, side, Edge(e.to, e.flag, true))
    && t < |s.ops| && r.ops == s.ops[t := Splice(call, own, p, side, Edge(e.to, e.flag, false))]
    && r.addrs == s.addrs && r.guarded == s.guarded && r.tree == s.tree && r.taken == s.taken
  }

  /** cleanup up to its splice: nobody disturbs it. */
  lemma CleansUp(s0: State, ls: seq<Label>, s: State, t: nat, call: Call, own: Option<Own>, p: Path, side: bool)
    returns (more: seq<Label>, r: State)
    requires Reaches(s0, ls, s) && Ready(s, t) && s.ops[t] == Clean(call, own, p) && p.par < |s.nodes|
    requires var k := Side(s.nodes, p.par, call.key); side == if Out(s.nodes, p.par, k).flag then !k else k
    ensures Reaches(s0, more, r) && Ready(r, t)
    ensures more == ls + [Step(t, 0, 0)] + [Step(t, 0, 0)] + [Step(t, 0, 0)] + [Step(t, 0, 0)]
    ensures Cleaned(s, r, t, call, own, p, side, Out(s.nodes, p.par, side))
  {
    hide Reaches, Out, Side, SetOut;
    var e := Out(s.nodes, p.par, side);
    var r1;
    more, r1 := ChoosesSide(s0, ls, s, t, call, own, p, side);
    more, r := TagsSide(s0, more, r1, t, call, own, p, side, e);
  }
}
