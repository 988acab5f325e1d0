/** The Natarajan-Mittal external search tree (NatarajanTreeRCSS.hpp): any number of threads run get, insert and
    remove, one atomic access to a child edge at a time.

    An edge is a pointer with two bits: FLAG says that the leaf below is being removed, TAG that the parent is. A
    remove flags the edge to its leaf, tags the edge to the leaf's sibling, and swings an edge further up past the
    tagged part; any thread that meets the flag may do the last two.

    Nodes are numbered in the order in which they were linked in. Each has an address, which may be that of an earlier
    node whose memory has come back. Edges and seek records hold references, so for those an equal address means the
    same node; but between two seeks a remove remembers the leaf that it has flagged by its bare address.
 */
module TreeModel {
  import opened Options
  import opened TreeShapes

  datatype Edge = Edge(to: Option<Node>, flag: bool, tag: bool)

  type Addr = nat

  datatype Rec = Rec(key: Key, val: Option<Value>, left: Edge, right: Edge)

  /** The two topmost inner nodes, which stay. */
  const ROOT: Node := 0
  const TOP: Node := 1

  const NIL: Edge := Edge(None, false, false)

  predicate Marked(e: Edge) { e.flag || e.tag }

  function Out(nodes: seq<Rec>, n: Node, left: bool): Edge
    requires n < |nodes|
  {
    if left then nodes[n].left else nodes[n].right
  }

  function SetOut(nodes: seq<Rec>, n: Node, left: bool, e: Edge): seq<Rec>
    requires n < |nodes|
  {
    nodes[n := if left then nodes[n].(left := e) else nodes[n].(right := e)]
  }

  /** The side of n on which k belongs. */
  predicate Side(nodes: seq<Rec>, n: Node, k: int)
    requires n < |nodes|
  {
    GoesLeft(k, nodes[n].key)
  }

  // ---------------------------------------------------------------- calls

  datatype Kind = Get | Insert(val: Value) | Remove

  /** `since` is the instant at which the call was invoked. */
  datatype Call = Call(kind: Kind, key: int, since: nat)

  /** The leaf that a remove has flagged, and an instant at which it was still in the tree. */
  datatype Own = Own(leaf: Node, at: nat)

  /** A seek record. `from` is the instant at which the seek began; `via` are the nodes that the seek passed below
      the ancestor, down to the parent. No thread reads these two. */
  datatype Path = Path(from: nat, anc: Node, succ: Option<Node>, par: Node, leaf: Node, via: seq<Node>)

  datatype Answer = Found(val: Option<Value>) | Inserted(ok: bool)

  datatype Op =
    | Idle
    // seekLeaf, for get
    | GetTop(call: Call)
    | GetFirst(call: Call, leaf: Node)
    | GetWalk(call: Call, leaf: Node)
    // seek, for insert and remove
    | SeekRoot(call: Call, own: Option<Own>)
    | SeekTop(call: Call, own: Option<Own>, from: nat, par: Node)
    | SeekTopTag(call: Call, own: Option<Own>, from: nat, par: Node, leaf: Node)
    | SeekFirstTag(call: Call, own: Option<Own>, from: nat, par: Node, leaf: Node, ptag: bool)
    | SeekFirst(call: Call, own: Option<Own>, from: nat, par: Node, leaf: Node, ptag: bool, ctag: bool)
    | SeekWalk(call: Call, own: Option<Own>, p: Path, ptag: bool)
    // what follows a seek
    | InsertCas(call: Call, p: Path)
    | FlagCas(call: Call, p: Path)
    | Recheck(call: Call, p: Path)
    // cleanup
    | Clean(call: Call, own: Option<Own>, p: Path)
    | TagRead(call: Call, own: Option<Own>, p: Path, side: bool)
    | TagCas(call: Call, own: Option<Own>, p: Path, side: bool, seen: Edge)
    | SiblingRead(call: Call, own: Option<Own>, p: Path, side: bool)
    | Splice(call: Call, own: Option<Own>, p: Path, side: bool, sib: Edge)
    | Returned(call: Call, answer: Answer, leaf: Node)

  /** `addrs` are the nodes' addresses. `guarded` says that every call runs under a guard, as epochs, intervals and
      Hyaline ask for; with hazard pointers there is none. No thread reads `tree`, which is what hangs below the root,
      `hist`, the tree at every instant so far, nor `taken`, the leaves that were ever flagged. */
  datatype State = State(nodes: seq<Rec>, addrs: seq<Addr>, guarded: bool, ops: seq<Op>,
                         tree: Tree, hist: seq<Tree>, taken: set<Node>)

  const FIRST_TREE: Tree :=
    Inner(0, Inf(2), Inner(1, Inf(1), Leaf(4, Inf(0), None), Leaf(3, Inf(1), None)), Leaf(2, Inf(2), None))

  predicate Init(s: State) {
    && s.nodes == [Rec(Inf(2), None, Edge(Some(1), false, false), Edge(Some(2), false, false)),
                   Rec(Inf(1), None, Edge(Some(4), false, false), Edge(Some(3), false, false)),
                   Rec(Inf(2), None, NIL, NIL), Rec(Inf(1), None, NIL, NIL), Rec(Inf(0), None, NIL, NIL)]
    && s.addrs == [0, 1, 2, 3, 4] && s.tree == FIRST_TREE && s.hist == [FIRST_TREE] && s.taken == {}
    && forall t :: 0 <= t < |s.ops| ==> s.ops[t] == Idle
  }

  // ---------------------------------------------------------------- steps

  /** A step of an insert comes with the addresses that its new leaf and its new inner node have got. */
  datatype Label = Invoke(t: nat, kind: Kind, key: int) | Step(t: nat, leafAddr: Addr, innerAddr: Addr)

  predicate Resting(op: Op) { op.Idle? || op.Returned? }

  /** The nodes that the next access reads or compares are nodes of the heap. */
  predicate Sound(nodes: seq<Rec>, op: Op) {
    match op
    case Idle => true
    case GetTop(_) => TOP < |nodes| && nodes[TOP].left.to.Some?
    case GetFirst(_, leaf) => leaf < |nodes|
    case GetWalk(_, leaf) => leaf < |nodes|
    case SeekRoot(_, _) => ROOT < |nodes| && nodes[ROOT].left.to.Some?
    case SeekTop(_, _, _, par) => par < |nodes| && nodes[par].left.to.Some?
    case SeekTopTag(_, _, _, par, leaf) => par < |nodes|
    case SeekFirstTag(_, _, _, par, leaf, _) => leaf < |nodes|
    case SeekFirst(_, own, _, par, leaf, _, _) => leaf < |nodes| && (own.Some? ==> own.value.leaf < |nodes|)
    case SeekWalk(_, own, p, _) => p.leaf < |nodes| && (own.Some? ==> own.value.leaf < |nodes|)
    case InsertCas(_, p) => p.par < |nodes| && p.leaf < |nodes|
    case FlagCas(_, p) => p.par < |nodes| && p.leaf < |nodes|
    case Recheck(_, p) => p.par < |nodes|
    case Clean(_, _, p) => p.par < |nodes|
    case TagRead(_, _, p, _) => p.par < |nodes|
    case TagCas(_, _, p, _, _) => p.par < |nodes|
    case SiblingRead(_, _, p, _) => p.par < |nodes|
    case Splice(_, own, p, _, _) => p.anc < |nodes| && (own.Some? ==> own.value.leaf < |nodes|)
    case Returned(_, _, _) => true
  }

  /** The leaf that a remove in clean-up mode has flagged. */
  function OwnOf(op: Op): Option<Own> {
    if op.SeekRoot? || op.SeekTop? || op.SeekTopTag? || op.SeekFirstTag? || op.SeekFirst? || op.SeekWalk? || op.Clean?
       || op.TagRead? || op.TagCas? || op.SiblingRead? || op.Splice? then op.own
    else None
  }

  function Held(p: Path): set<Node> { {p.anc, p.par, p.leaf} + (if p.succ.Some? then {p.succ.value} else {}) }

  /** The nodes that a call's snapshots keep alive. */
  function HeldBy(op: Op): set<Node> {
    match op
    case GetFirst(_, leaf) => {leaf}
    case GetWalk(_, leaf) => {leaf}
    case SeekTop(_, _, _, par) => {ROOT, par}
    case SeekTopTag(_, _, _, par, leaf) => {ROOT, par, leaf}
    case SeekFirstTag(_, _, _, par, leaf, _) => {ROOT, par, leaf}
    case SeekFirst(_, _, _, par, leaf, _, _) => {ROOT, par, leaf}
    case SeekWalk(_, _, p, _) => Held(p)
    case InsertCas(_, p) => Held(p)
    case FlagCas(_, p) => Held(p)
    case Recheck(_, p) => Held(p)
    case Clean(_, _, p) => Held(p)
    case TagRead(_, _, p, _) => Held(p)
    case TagCas(_, _, p, _, _) => Held(p)
    case SiblingRead(_, _, p, _) => Held(p)
    case Splice(_, _, p, _, sib) => Held(p) + (if sib.to.Some? then {sib.to.value} else {})
    case _ => {}
  }

  predicate HasAddr(s: State, n: Node, a: Addr) { n < |s.addrs| && s.addrs[n] == a }

  /** No node of the tree and no node that a thread holds lies at a, and under guards neither does the leaf that a
      remove in clean-up mode remembers: its memory stays until the call's guard goes. */
  ghost predicate FreeAddress(s: State, a: Addr) {
    && (forall n :: n in Ids(s.tree) ==> !HasAddr(s, n, a))
    && (forall t, n :: 0 <= t < |s.ops| && n in HeldBy(s.ops[t]) ==> !HasAddr(s, n, a))
    && (s.guarded ==> forall t :: 0 <= t < |s.ops| && OwnOf(s.ops[t]).Some? ==>
        !HasAddr(s, OwnOf(s.ops[t]).value.leaf, a))
  }

  ghost predicate Enabled(s: State, l: Label) {
    && l.t < |s.ops| && |s.hist| > 0 && |s.addrs| == |s.nodes|
    && match l
       case Invoke(t, _, _) => Resting(s.ops[t])
       case Step(t, a, b) =>
         && !Resting(s.ops[t]) && Sound(s.nodes, s.ops[t])
         && (s.ops[t].InsertCas? ==> FreeAddress(s, a) && FreeAddress(s, b) && a != b)
  }

  /** What one step does: the heap, the tree and the leaves taken after it, and where the thread stands. */
  datatype Effect = Effect(nodes: seq<Rec>, addrs: seq<Addr>, tree: Tree, taken: set<Node>, op: Op)

  function Quiet(s: State, op: Op): Effect { Effect(s.nodes, s.addrs, s.tree, s.taken, op) }

  function Begin(call: Call): Op { if call.kind.Get? then GetTop(call) else SeekRoot(call, None) }

  // seekLeaf

  function AfterGet(s: State, call: Call, leaf: Node): Op
    requires leaf < |s.nodes|
  {
    Returned(call, Found(if s.nodes[leaf].key == Fin(call.key) then s.nodes[leaf].val else None), leaf)
  }

  function StepGet(s: State, op: Op): Effect
    requires op.GetTop? || op.GetFirst? || op.GetWalk?
    requires Sound(s.nodes, op)
  {
    match op
    case GetTop(call) => Quiet(s, GetFirst(call, s.nodes[TOP].left.to.value))
    case GetFirst(call, leaf) =>
      var e := s.nodes[leaf].left;
      Quiet(s, if e.to.None? then AfterGet(s, call, leaf) else GetWalk(call, e.to.value))
    case GetWalk(call, leaf) =>
      var e := Out(s.nodes, leaf, Side(s.nodes, leaf, call.key));
      Quiet(s, if e.to.None? then AfterGet(s, call, leaf) else GetWalk(call, e.to.value))
  }

  // seek

  /** The seek is over: insert and remove look at the leaf they have reached. In clean-up mode remove compares its
      address with the one it remembers. */
  function AfterSeek(s: State, call: Call, own: Option<Own>, p: Path): Op
    requires p.leaf < |s.nodes| && (own.Some? ==> own.value.leaf < |s.nodes|) && |s.addrs| == |s.nodes|
  {
    var found := s.nodes[p.leaf].key == Fin(call.key);
    if own.Some? then
      if s.addrs[p.leaf] != s.addrs[own.value.leaf] then
          Returned(call, Found(s.nodes[own.value.leaf].val), own.value.leaf)
      else Clean(call, own, p)
    else if call.kind.Insert? then
      if found then Returned(call, Inserted(false), p.leaf) else InsertCas(call, p)
    else
      if found then FlagCas(call, p) else Returned(call, Found(None), p.leaf)
  }

  /** One turn of the loop: the edge below p.leaf leads to `to`, and was tagged or not. */
  function Advance(p: Path, ptag: bool, to: Node): Path {
    if ptag then Path(p.from, p.anc, if p.succ.None? then Some(p.par) else p.succ, p.leaf, to, p.via + [p.leaf])
    else Path(p.from, p.par, None, p.leaf, to, [p.leaf])
  }

  function StepSeekStart(s: State, op: Op): Effect
    requires op.SeekRoot? || op.SeekTop? || op.SeekTopTag? || op.SeekFirstTag?
    requires Sound(s.nodes, op)
  {
    match op
    case SeekRoot(call, own) => Quiet(s, SeekTop(call, own, |s.hist|, s.nodes[ROOT].left.to.value))
    case SeekTop(call, own, from, par) => Quiet(s, SeekTopTag(call, own, from, par, s.nodes[par].left.to.value))
    case SeekTopTag(call, own, from, par, leaf) =>
      Quiet(s, SeekFirstTag(call, own, from, par, leaf, s.nodes[par].left.tag))
    case SeekFirstTag(call, own, from, par, leaf, ptag) =>
      Quiet(s, SeekFirst(call, own, from, par, leaf, ptag, s.nodes[leaf].left.tag))
  }

  function StepSeek(s: State, op: Op): Effect
    requires (op.SeekFirst? || op.SeekWalk?) && Sound(s.nodes, op) && |s.addrs| == |s.nodes|
  {
    match op
    case SeekFirst(call, own, from, par, leaf, ptag, ctag) =>
      var p := Path(from, ROOT, None, par, leaf, [par]);
      var e := s.nodes[leaf].left;
      Quiet(s, if e.to.None? then AfterSeek(s, call, own, p)
          else SeekWalk(call, own, Advance(p, ptag, e.to.value), ctag))
    case SeekWalk(call, own, p, ptag) =>
      var e := Out(s.nodes, p.leaf, Side(s.nodes, p.leaf, call.key));
      Quiet(s, if e.to.None? then AfterSeek(s, call, own, p)
          else SeekWalk(call, own, Advance(p, ptag, e.to.value), e.tag))
  }

  // insert

  /** The new leaf is the next node, and the new inner node the one after it: its key is the larger of the two, or
      the infinite one. */
  ghost function NewPart(nodes: seq<Rec>, key: int, val: Value, leaf: Node): Tree
    requires leaf < |nodes|
  {
    var x := Leaf(|nodes|, Fin(key), Some(val));
    var y := Leaf(leaf, nodes[leaf].key, nodes[leaf].val);
    if Less(Fin(key), nodes[leaf].key) then Inner(|nodes| + 1, nodes[leaf].key, x, y)
        else Inner(|nodes| + 1, Fin(key), y, x)
  }

  function NewInner(nodes: seq<Rec>, key: int, leaf: Node): Rec
    requires leaf < |nodes|
  {
    var x, y := Edge(Some(|nodes|), false, false), Edge(Some(leaf), false, false);
    if Less(Fin(key), nodes[leaf].key) then Rec(nodes[leaf].key, None, x, y) else Rec(Fin(key), None, y, x)
  }

  ghost function Grafted(tree: Tree, key: int, par: Node, sub: Tree): Tree {
    if OnWay(tree, key, par) then Replace(tree, key, par, sub) else tree
  }

  ghost function StepInsert(s: State, op: Op, a: Addr, b: Addr): Effect
    requires op.InsertCas? && Sound(s.nodes, op) && op.call.kind.Insert?
  {
    var key, p := op.call.key, op.p;
    var side := Side(s.nodes, p.par, key);
    if Out(s.nodes, p.par, side) == Edge(Some(p.leaf), false, false) then
      Effect(SetOut(s.nodes, p.par, side, Edge(Some(|s.nodes| + 1), false, false))
               + [Rec(Fin(key), Some(op.call.kind.val), NIL, NIL), NewInner(s.nodes, key, p.leaf)],
             s.addrs + [a, b],
             Grafted(s.tree, key, p.par, NewPart(s.nodes, key, op.call.kind.val, p.leaf)), s.taken,
             Returned(op.call, Inserted(true), |s.nodes|))
    else Quiet(s, Recheck(op.call, p))
  }

  // remove

  function StepFlag(s: State, op: Op): Effect
    requires op.FlagCas? && Sound(s.nodes, op) && |s.hist| > 0
  {
    var p := op.p;
    var side := Side(s.nodes, p.par, op.call.key);
    if Out(s.nodes, p.par, side) == Edge(Some(p.leaf), false, false) then
      Effect(SetOut(s.nodes, p.par, side, Edge(Some(p.leaf), true, false)), s.addrs, s.tree, s.taken + {p.leaf},
             Clean(op.call, Some(Own(p.leaf, |s.hist| - 1)), p))
    else Quiet(s, Recheck(op.call, p))
  }

  /** A compare-and-swap of insert or remove has failed: if the leaf is still there, help its removal, then retry. */
  function StepRecheck(s: State, op: Op): Effect
    requires op.Recheck? && Sound(s.nodes, op)
  {
    var e := Out(s.nodes, op.p.par, Side(s.nodes, op.p.par, op.call.key));
    Quiet(s, if e.to == Some(op.p.leaf) && Marked(e) then Clean(op.call, None, op.p) else SeekRoot(op.call, None))
  }

  // cleanup

  function StepClean(s: State, op: Op): Effect
    requires (op.Clean? || op.TagRead? || op.TagCas? || op.SiblingRead?) && Sound(s.nodes, op)
  {
    var par := op.p.par;
    match op
    case Clean(call, own, p) =>
      var side := Side(s.nodes, par, call.key);
      Quiet(s, TagRead(call, own, p, if Out(s.nodes, par, side).flag then !side else side))
    case TagRead(call, own, p, side) => Quiet(s, TagCas(call, own, p, side, Out(s.nodes, par, side)))
    case TagCas(call, own, p, side, seen) =>
      if Out(s.nodes, par, side) == seen then
        Effect(SetOut(s.nodes, par, side, Edge(seen.to, seen.flag, true)), s.addrs, s.tree, s.taken,
               SiblingRead(call, own, p, side))
      else Quiet(s, TagCas(call, own, p, side, Out(s.nodes, par, side)))
    case SiblingRead(call, own, p, side) =>
      var e := Out(s.nodes, par, side);
      Quiet(s, Splice(call, own, p, side, Edge(e.to, e.flag, false)))
  }

  ghost function Pruned(tree: Tree, key: int, anc: Node, par: Node, left: bool): Tree {
    if OnWay(tree, key, anc) && OnWay(Under(tree, key, anc), key, par) then
      Replace(tree, key, anc, Kept(Under(tree, key, anc), key, par, left))
    else tree
  }

  ghost function StepSplice(s: State, op: Op): Effect
    requires op.Splice? && Sound(s.nodes, op)
  {
    var p, key := op.p, op.call.key;
    var side := Side(s.nodes, p.anc, key);
    var expected := if p.succ.None? then p.par else p.succ.value;
    if Out(s.nodes, p.anc, side) == Edge(Some(expected), false, false) then
      Effect(SetOut(s.nodes, p.anc, side, op.sib), s.addrs, Pruned(s.tree, key, p.anc, p.par, op.side), s.taken,
             if op.own.Some? then Returned(op.call, Found(s.nodes[op.own.value.leaf].val),
                                           op.own.value.leaf) else SeekRoot(op.call, None))
    else Quiet(s, SeekRoot(op.call, op.own))
  }

  ghost function Act(s: State, op: Op, a: Addr, b: Addr): Effect
    requires !Resting(op) && Sound(s.nodes, op) && |s.hist| > 0 && |s.addrs| == |s.nodes|
  {
    if op.GetTop? || op.GetFirst? || op.GetWalk? then StepGet(s, op)
    else if op.SeekRoot? || op.SeekTop? || op.SeekTopTag? || op.SeekFirstTag? then StepSeekStart(s, op)
    else if op.SeekFirst? || op.SeekWalk? then StepSeek(s, op)
    else if op.InsertCas? && op.call.kind.Insert? then StepInsert(s, op, a, b)
    else if op.FlagCas? then StepFlag(s, op)
    else if op.Recheck? then StepRecheck(s, op)
    else if op.Clean? || op.TagRead? || op.TagCas? || op.SiblingRead? then StepClean(s, op)
    else if op.Splice? then StepSplice(s, op)
    else Quiet(s, op)
  }

  ghost function After(s: State, t: nat, e: Effect): State
    requires t < |s.ops|
  {
    State(e.nodes, e.addrs, s.guarded, s.ops[t := e.op], e.tree, s.hist + [e.tree], e.taken)
  }

  ghost function Apply(s: State, l: Label): State
    requires Enabled(s, l)
  {
    match l
    case Invoke(t, kind, key) => After(s, t, Quiet(s, Begin(Call(kind, key, |s.hist|))))
    case Step(t, a, b) => After(s, t, Act(s, s.ops[t], a, b))
  }

  ghost predicate Runnable(s: State, ls: seq<Label>)
    decreases |ls|
  {
    ls == [] || (Enabled(s, ls[0]) && Runnable(Apply(s, ls[0]), ls[1..]))
  }

  ghost function Run(s: State, ls: seq<Label>): State
    requires Runnable(s, ls)
    decreases |ls|
  {
    if ls == [] then s else Run(Apply(s, ls[0]), ls[1..])
  }
}
