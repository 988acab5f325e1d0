/** The sorted linked list of examples/linked_list.h, after Harris: any number of threads run find, insert and
    remove, one atomic access to a next pointer at a time.

    A node's next word is a pointer and a mark; the mark says that the node is logically removed. Nodes are
    numbered in the order in which they were linked in; they are never reused while somebody refers to them.
 */
module HarrisList {
  import opened Options

  type Node = nat

  const HEAD: Node := 0
  const TAIL: Node := 1

  /** The keys of the sentinels: the smallest and the largest int. */
  const LOWEST: int := -0x8000_0000
  const HIGHEST: int := 0x7FFF_FFFF

  datatype Cell = Cell(key: int, next: Option<Node>, marked: bool)

  datatype Kind = Find | Insert | Remove

  /** A call; `since` is the instant (index into the history) at which it was invoked. */
  datatype Call = Call(kind: Kind, key: int, since: nat)

  /** Where a thread stands. `via` are the marked nodes that search has passed since `left`; `gap` is an instant
      of this call at which `right` followed `left`; `at` is the instant at which the call took effect. `done`
      says that remove has already marked its node (when) and only searches to unlink it. */
  datatype Op =
    | Idle
    // about to read right's next
    | Next(call: Call, done: Option<nat>, left: Node, via: seq<Node>, right: Node, gap: nat)
    // about to CAS left's next past via
    | Unlink(call: Call, done: Option<nat>, left: Node, via: seq<Node>, right: Node)
    // about to read right's mark
    | Check(call: Call, done: Option<nat>, left: Node, right: Node, gap: nat)
    | InsertCas(call: Call, left: Node, right: Node)
    | RemoveRead(call: Call, left: Node, right: Node)
    | RemoveMark(call: Call, left: Node, right: Node, succ: Node)
    | RemoveUnlink(call: Call, left: Node, right: Node, succ: Node, at: nat)
    | Returned(call: Call, answer: bool, at: nat)

  /** `chain` is the list itself, from the head to the tail; `hist` is the set of keys at every instant so far.
      No thread reads either. */
  datatype State = State(nodes: seq<Cell>, ops: seq<Op>, chain: seq<Node>, hist: seq<set<int>>)

  // ---------------------------------------------------------------- the set the list stands for

  function Keys(nodes: seq<Cell>, chain: seq<Node>): set<int> {
    set n | n in chain && 2 <= n < |nodes| && !nodes[n].marked :: nodes[n].key
  }

  predicate Init(s: State) {
    && s.nodes == [Cell(LOWEST, Some(TAIL), false), Cell(HIGHEST, None, false)]
    && s.chain == [HEAD, TAIL] && s.hist == [{}]
    && forall t :: 0 <= t < |s.ops| ==> s.ops[t] == Idle
  }

  // ---------------------------------------------------------------- steps

  datatype Label = Invoke(t: nat, kind: Kind, key: int) | Step(t: nat)

  predicate ValidNode(s: State, n: Node) { n < |s.nodes| }

  predicate Enabled(s: State, l: Label) {
    && l.t < |s.ops| && |s.hist| > 0
    && match l
       case Invoke(t, kind, key) => (s.ops[t].Idle? || s.ops[t].Returned?) && LOWEST < key < HIGHEST
       case Step(t) =>
         match s.ops[t]
         case Idle => false
         case Returned(_, _, _) => false
         case Next(_, _, left, via, right, _) => ValidNode(s, left) && ValidNode(s, right)
         case Unlink(_, _, left, via, right) => ValidNode(s, left) && ValidNode(s, right) && via != []
         case Check(_, _, left, right, _) => ValidNode(s, left) && ValidNode(s, right)
         case InsertCas(_, left, right) => ValidNode(s, left) && ValidNode(s, right)
         case RemoveRead(_, left, right) => ValidNode(s, left) && ValidNode(s, right)
         case RemoveMark(_, left, right, succ) => ValidNode(s, left) && ValidNode(s, right)
         case RemoveUnlink(_, left, right, succ, _) => ValidNode(s, left) && ValidNode(s, right)
  }

  function Restart(call: Call, done: Option<nat>): Op { Next(call, done, HEAD, [], HEAD, 0) }

  /** Append the instant's set of keys to the history. */
  function Record(s: State): State { s.(hist := s.hist + [Keys(s.nodes, s.chain)]) }

  function SetOp(s: State, t: nat, op: Op): State
    requires t < |s.ops|
  {
    Record(s.(ops := s.ops[t := op]))
  }

  function IndexOf(chain: seq<Node>, n: Node): nat
    ensures IndexOf(chain, n) <= |chain|
    ensures n in chain ==> IndexOf(chain, n) < |chain| && chain[IndexOf(chain, n)] == n
  {
    if chain == [] then 0 else if chain[0] == n then 0 else 1 + IndexOf(chain[1..], n)
  }

  /** The list after the node behind n is skipped up to (but not including) the m-th one. */
  function Skip(chain: seq<Node>, n: Node, m: nat): seq<Node> {
    var p := IndexOf(chain, n);
    if p + 1 + m <= |chain| then chain[..p + 1] + chain[p + 1 + m..] else chain
  }

  function Splice(chain: seq<Node>, n: Node, x: Node): seq<Node> {
    var p := IndexOf(chain, n);
    if p < |chain| then chain[..p + 1] + [x] + chain[p + 1..] else chain
  }

  predicate Points(c: Cell, n: Node) { c.next == Some(n) && !c.marked }

  function Redirect(nodes: seq<Cell>, n: Node, to: Node): seq<Cell>
    requires n < |nodes|
  {
    nodes[n := nodes[n].(next := Some(to))]
  }

  function Linkin(nodes: seq<Cell>, n: Node, key: int, to: Node): seq<Cell>
    requires n < |nodes|
  {
    Redirect(nodes, n, |nodes|) + [Cell(key, Some(to), false)]
  }

  function Mark(nodes: seq<Cell>, n: Node): seq<Cell>
    requires n < |nodes|
  {
    nodes[n := nodes[n].(marked := true)]
  }

  function StepNext(s: State, t: nat, op: Op): State
    requires t < |s.ops| && op.Next? && ValidNode(s, op.right)
  {
    var c := s.nodes[op.right];
    if (c.marked || c.key < op.call.key) && c.next.Some? then
      if c.marked then SetOp(s, t, Next(op.call, op.done, op.left, op.via + [op.right], c.next.value, op.gap))
      else SetOp(s, t, Next(op.call, op.done, op.right, [], c.next.value, |s.hist|))
    else if op.via == [] then SetOp(s, t, Check(op.call, op.done, op.left, op.right, op.gap))
    else SetOp(s, t, Unlink(op.call, op.done, op.left, op.via, op.right))
  }

  function StepUnlink(s: State, t: nat, op: Op): State
    requires t < |s.ops| && op.Unlink? && ValidNode(s, op.left) && op.via != []
  {
    if Points(s.nodes[op.left], op.via[0]) then
      SetOp(s.(nodes := Redirect(s.nodes, op.left, op.right), chain := Skip(s.chain, op.left, |op.via|)),
            t, Check(op.call, op.done, op.left, op.right, |s.hist|))
    else SetOp(s, t, Restart(op.call, op.done))
  }

  /** search returns left and right; the caller looks at right's key. */
  function AfterSearch(s: State, op: Op): Op
    requires op.Check? && ValidNode(s, op.right)
  {
    var found := s.nodes[op.right].key == op.call.key;
    if op.done.Some? then Returned(op.call, true, op.done.value)
    else match op.call.kind
         case Find => Returned(op.call, found, if found then |s.hist| else op.gap)
         case Insert => if found then Returned(op.call, false, |s.hist|) else InsertCas(op.call, op.left, op.right)
         case Remove => if found then RemoveRead(op.call, op.left, op.right) else Returned(op.call, false, op.gap)
  }

  function StepCheck(s: State, t: nat, op: Op): State
    requires t < |s.ops| && op.Check? && ValidNode(s, op.right)
  {
    SetOp(s, t, if s.nodes[op.right].marked then Restart(op.call, op.done) else AfterSearch(s, op))
  }

  function StepInsert(s: State, t: nat, op: Op): State
    requires t < |s.ops| && |s.hist| > 0 && op.InsertCas? && ValidNode(s, op.left)
  {
    if Points(s.nodes[op.left], op.right) then
      SetOp(s.(nodes := Linkin(s.nodes, op.left, op.call.key, op.right),
               chain := Splice(s.chain, op.left, |s.nodes|)), t, Returned(op.call, true, |s.hist| - 1))
    else SetOp(s, t, Restart(op.call, None))
  }

  function StepRemoveRead(s: State, t: nat, op: Op): State
    requires t < |s.ops| && op.RemoveRead? && ValidNode(s, op.right)
  {
    var c := s.nodes[op.right];
    SetOp(s, t, if c.marked || c.next.None? then Restart(op.call, None)
        else RemoveMark(op.call, op.left, op.right, c.next.value))
  }

  function StepRemoveMark(s: State, t: nat, op: Op): State
    requires t < |s.ops| && |s.hist| > 0 && op.RemoveMark? && ValidNode(s, op.right)
  {
    if Points(s.nodes[op.right], op.succ) then
      SetOp(s.(nodes := Mark(s.nodes, op.right)), t, RemoveUnlink(op.call, op.left, op.right, op.succ, |s.hist| - 1))
    else SetOp(s, t, Restart(op.call, None))
  }

  function StepRemoveUnlink(s: State, t: nat, op: Op): State
    requires t < |s.ops| && op.RemoveUnlink? && ValidNode(s, op.left)
  {
    if Points(s.nodes[op.left], op.right) then
      SetOp(s.(nodes := Redirect(s.nodes, op.left, op.succ), chain := Skip(s.chain, op.left, 1)), t,
            Returned(op.call, true, op.at))
    else SetOp(s, t, Restart(op.call, Some(op.at)))
  }

  function Apply(s: State, l: Label): State
    requires Enabled(s, l)
  {
    match l
    case Invoke(t, kind, key) => SetOp(s, t, Restart(Call(kind, key, |s.hist|), None))
    case Step(t) =>
      var op := s.ops[t];
      match op
      case Next(_, _, _, _, _, _) => StepNext(s, t, op)
      case Unlink(_, _, _, _, _) => StepUnlink(s, t, op)
      case Check(_, _, _, _, _) => StepCheck(s, t, op)
      case InsertCas(_, _, _) => StepInsert(s, t, op)
      case RemoveRead(_, _, _) => StepRemoveRead(s, t, op)
      case RemoveMark(_, _, _, _) => StepRemoveMark(s, t, op)
      case RemoveUnlink(_, _, _, _, _) => StepRemoveUnlink(s, t, op)
      case _ => s
  }

  ghost predicate Runnable(s: State, ls: seq<Label>)
    decreases |ls|
  {
    ls == [] || (Enabled(s, ls[0]) && Runnable(Apply(s, ls[0]), ls[1..]))
  }

  ghost function Run(s: State, ls: seq<Label>): State
    requires Runnable(s, ls)
    decreases |ls|
  {
    if ls == [] then s else Run(Apply(s, ls[0]), ls[1..])
  }

  // ---------------------------------------------------------------- the invariant

  ghost predicate Linked(nodes: seq<Cell>, n: Node) {
    n < |nodes| && nodes[n].next.Some? && nodes[n].next.value < |nodes| && nodes[n].key < nodes[nodes[n].next.value].key
  }

  /** Keys strictly increase along next, from every node, removed or not. */
  ghost predicate Shape(nodes: seq<Cell>) {
    && |nodes| >= 2
    && nodes[HEAD].key == LOWEST && !nodes[HEAD].marked
    && nodes[TAIL] == Cell(HIGHEST, None, false)
    && (forall n: Node :: n < |nodes| && n != TAIL ==> Linked(nodes, n))
    && (forall n: Node :: 2 <= n < |nodes| ==> LOWEST < nodes[n].key < HIGHEST)
  }

  /** The chain is what one reads from the head. */
  ghost predicate Follows(nodes: seq<Cell>, chain: seq<Node>) {
    && |chain| >= 2 && chain[0] == HEAD && chain[|chain| - 1] == TAIL
    && (forall i :: 0 <= i < |chain| ==> chain[i] < |nodes|)
    && (forall i :: 0 <= i < |chain| - 1 ==> nodes[chain[i]].next == Some(chain[i + 1]))
  }

  ghost predicate AllReachable(nodes: seq<Cell>, chain: seq<Node>) {
    forall n: Node :: n < |nodes| && !nodes[n].marked ==> n in chain
  }

  ghost predicate ListInv(nodes: seq<Cell>, chain: seq<Node>) {
    Shape(nodes) && Follows(nodes, chain) && AllReachable(nodes, chain)
  }

  ghost function After(via: seq<Node>, right: Node, i: nat): Node { if i + 1 < |via| then via[i + 1] else right }

  /** The nodes of via are removed, and lead from one to the next and at last to right. */
  ghost predicate Path(nodes: seq<Cell>, via: seq<Node>, right: Node) {
    forall i :: 0 <= i < |via| ==>
      via[i] < |nodes| && nodes[via[i]].marked && nodes[via[i]].next == Some(After(via, right, i))
  }

  ghost predicate Below(nodes: seq<Cell>, left: Node, key: int) { left < |nodes| && nodes[left].key < key }
  ghost predicate NotBelow(nodes: seq<Cell>, right: Node, key: int) { right < |nodes| && key <= nodes[right].key }

  /** At that instant of the call no key lay strictly between left's and right's. */
  ghost predicate Gap(nodes: seq<Cell>, hist: seq<set<int>>, call: Call, left: Node, right: Node, gap: nat) {
    && call.since <= gap < |hist| && left < |nodes| && right < |nodes|
    && forall k :: k in hist[gap] ==> !(nodes[left].key < k < nodes[right].key)
  }

  /** The answer is right of the instant `at`, which lies within the call: find, and the calls that change
      nothing, report the key's presence there; a successful insert or remove is what changes the set there. */
  ghost predicate Justified(hist: seq<set<int>>, call: Call, answer: bool, at: nat) {
    && call.since <= at < |hist|
    && match call.kind
       case Find => answer == (call.key in hist[at])
       case Insert =>
         if answer then at + 1 < |hist| && call.key !in hist[at] && hist[at + 1] == hist[at] + {call.key}
         else call.key in hist[at]
       case Remove =>
         if answer then at + 1 < |hist| && call.key in hist[at] && hist[at + 1] == hist[at] - {call.key}
         else call.key !in hist[at]
  }

  ghost predicate Removed(hist: seq<set<int>>, call: Call, done: Option<nat>) {
    done.Some? ==> call.kind == Remove && Justified(hist, call, true, done.value)
  }

  ghost predicate CallOk(hist: seq<set<int>>, call: Call) { LOWEST < call.key < HIGHEST && call.since < |hist| }

  ghost predicate OpInv(nodes: seq<Cell>, hist: seq<set<int>>, op: Op) {
    && (!op.Idle? ==> CallOk(hist, op.call))
    && match op
       case Idle => true
       case Next(call, done, left, via, right, gap) =>
         && Removed(hist, call, done)
         && Below(nodes, left, call.key) && right < |nodes| && Path(nodes, via, right)
         && (right != HEAD && via == [] ==> Gap(nodes, hist, call, left, right, gap))
       case Unlink(call, done, left, via, right) =>
         && Removed(hist, call, done)
         && Below(nodes, left, call.key) && NotBelow(nodes, right, call.key) && Path(nodes, via, right) && via != []
       case Check(call, done, left, right, gap) =>
         && Removed(hist, call, done)
         && Below(nodes, left, call.key) && NotBelow(nodes, right, call.key) && Gap(nodes, hist, call, left, right, gap)
       case InsertCas(call, left, right) =>
         call.kind == Insert && Below(nodes, left, call.key) && NotBelow(nodes, right, call.key + 1)
       case RemoveRead(call, left, right) =>
         call.kind == Remove && Below(nodes, left, call.key) && right < |nodes| && nodes[right].key == call.key
       case RemoveMark(call, left, right, succ) =>
         call.kind == Remove && Below(nodes, left, call.key) && right < |nodes| && nodes[right].key == call.key
       case RemoveUnlink(call, left, right, succ, at) =>
         && Removed(hist, call, Some(at))
         && Below(nodes, left, call.key) && Path(nodes, [right], succ) && succ < |nodes|
       case Returned(call, answer, at) => Justified(hist, call, answer, at)
  }

  ghost predicate OpsInv(nodes: seq<Cell>, hist: seq<set<int>>, ops: seq<Op>) {
    forall t :: 0 <= t < |ops| ==> OpInv(nodes, hist, ops[t])
  }

  ghost predicate HistInv(nodes: seq<Cell>, chain: seq<Node>, hist: seq<set<int>>) {
    |hist| > 0 && hist[|hist| - 1] == Keys(nodes, chain)
  }

  ghost predicate Inv(s: State) {
    ListInv(s.nodes, s.chain) && HistInv(s.nodes, s.chain, s.hist) && OpsInv(s.nodes, s.hist, s.ops)
  }

  // ---------------------------------------------------------------- what a step leaves alone

  /** Nodes keep their keys; a marked node stays marked and keeps its next. */
  ghost predicate Frozen(nodes: seq<Cell>, after: seq<Cell>) {
    && |nodes| <= |after|
    && forall n: Node :: n < |nodes| ==>
         && after[n].key == nodes[n].key
         && (nodes[n].marked ==> after[n] == nodes[n])
  }

  lemma PathStable(nodes: seq<Cell>, after: seq<Cell>, via: seq<Node>, right: Node)
    requires Path(nodes, via, right) && Frozen(nodes, after)
    ensures Path(after, via, right)
  {
  }

  lemma OpStable(nodes: seq<Cell>, after: seq<Cell>, hist: seq<set<int>>, more: seq<set<int>>, op: Op)
    requires OpInv(nodes, hist, op) && Frozen(nodes, after)
    ensures OpInv(after, hist + more, op)
  {
    match op {
      case Next(_, _, _, via, right, _) => PathStable(nodes, after, via, right);
      case Unlink(_, _, _, via, right) => PathStable(nodes, after, via, right);
      case RemoveUnlink(_, _, right, succ, _) => PathStable(nodes, after, [right], succ);
      case _ =>
    }
    hide Path;
  }

  lemma OpsStable(nodes: seq<Cell>, after: seq<Cell>, hist: seq<set<int>>, more: seq<set<int>>, ops: seq<Op>, t: nat,
                  op: Op)
    requires OpsInv(nodes, hist, ops) && Frozen(nodes, after) && t < |ops| && OpInv(after, hist + more, op)
    ensures OpsInv(after, hist + more, ops[t := op])
  {
    hide OpInv, Frozen;
    var now := ops[t := op];
    forall u | 0 <= u < |now| ensures OpInv(after, hist + more, now[u]) {
      if u != t { OpStable(nodes, after, hist, more, ops[u]); }
    }
  }

  // ---------------------------------------------------------------- the chain

  /** Keys strictly increase along the chain, so no node and no key occurs twice. */
  lemma {:induction false} ChainSorted(nodes: seq<Cell>, chain: seq<Node>, i: nat, j: nat)
    requires Shape(nodes) && Follows(nodes, chain) && i < j < |chain|
    ensures nodes[chain[i]].key < nodes[chain[j]].key
  {
    assert nodes[chain[j - 1]].next == Some(chain[j]);
    assert chain[j - 1] != TAIL;
    assert Linked(nodes, chain[j - 1]);
    if i < j - 1 { ChainSorted(nodes, chain, i, j - 1); }
  }

  lemma ChainDistinct(nodes: seq<Cell>, chain: seq<Node>, i: nat, j: nat)
    requires Shape(nodes) && Follows(nodes, chain) && i < |chain| && j < |chain|
    ensures nodes[chain[i]].key == nodes[chain[j]].key ==> i == j
  {
    if i < j { ChainSorted(nodes, chain, i, j); }
    if j < i { ChainSorted(nodes, chain, j, i); }
  }

  /** A node that is not removed and points at another is followed by it in the chain. */
  lemma Adjacent(nodes: seq<Cell>, chain: seq<Node>, left: Node, right: Node)
    requires ListInv(nodes, chain) && left < |nodes| && Points(nodes[left], right)
    ensures var p := IndexOf(chain, left); p + 1 < |chain| && chain[p] == left && chain[p + 1] == right
  {
    assert left in chain;
    var p := IndexOf(chain, left);
    assert chain[p] == left;
    assert left != TAIL;
  }

  lemma NothingBetween(nodes: seq<Cell>, chain: seq<Node>, p: nat, k: int)
    requires Shape(nodes) && Follows(nodes, chain) && p + 1 < |chain|
    ensures k in Keys(nodes, chain) ==> !(nodes[chain[p]].key < k < nodes[chain[p + 1]].key)
  {
    if k in Keys(nodes, chain) {
      var n :| n in chain && 2 <= n < |nodes| && !nodes[n].marked && nodes[n].key == k;
      var i :| 0 <= i < |chain| && chain[i] == n;
      if i < p { ChainSorted(nodes, chain, i, p); }
      if p + 1 < i { ChainSorted(nodes, chain, p + 1, i); }
    }
  }

  /** Removed nodes that lead from left's next to right stand between the two in the chain. */
  lemma {:induction false} PathInChain(nodes: seq<Cell>, chain: seq<Node>, p: nat, via: seq<Node>, right: Node, i: nat)
    requires Shape(nodes) && Follows(nodes, chain) && Path(nodes, via, right)
    requires via != [] && p + 1 < |chain| && chain[p + 1] == via[0] && i <= |via|
    ensures p + 1 + i < |chain| && chain[p + 1 + i] == if i < |via| then via[i] else right
  {
    hide Shape, Follows, Path;
    if i > 0 {
      PathInChain(nodes, chain, p, via, right, i - 1);
      PathNext(nodes, via, right, i - 1);
      ChainNext(nodes, chain, p + i, After(via, right, i - 1));
    }
  }

  lemma PathNext(nodes: seq<Cell>, via: seq<Node>, right: Node, i: nat)
    requires Path(nodes, via, right) && i < |via|
    ensures via[i] < |nodes| && nodes[via[i]].next == Some(After(via, right, i))
  {
  }

  lemma ChainNext(nodes: seq<Cell>, chain: seq<Node>, i: nat, n: Node)
    requires Shape(nodes) && Follows(nodes, chain)
    requires i < |chain| && chain[i] < |nodes| && nodes[chain[i]].next == Some(n)
    ensures i + 1 < |chain| && chain[i + 1] == n
  {
    assert chain[i] != TAIL;
  }

  // ---------------------------------------------------------------- unlinking

  lemma RedirectShape(nodes: seq<Cell>, n: Node, to: Node)
    requires Shape(nodes) && n < |nodes| && to < |nodes| && n != TAIL && nodes[n].key < nodes[to].key
    requires !nodes[n].marked
    ensures Shape(Redirect(nodes, n, to)) && Frozen(nodes, Redirect(nodes, n, to))
  {
    var after := Redirect(nodes, n, to);
    forall m: Node | m < |after| && m != TAIL ensures Linked(after, m) {
      assert Linked(nodes, m);
    }
  }

  lemma SkipFollows(nodes: seq<Cell>, chain: seq<Node>, p: nat, m: nat)
    requires Shape(nodes) && Follows(nodes, chain) && p + 1 + m < |chain|
    ensures Follows(Redirect(nodes, chain[p], chain[p + 1 + m]), chain[..p + 1] + chain[p + 1 + m..])
  {
    var after := Redirect(nodes, chain[p], chain[p + 1 + m]);
    var now := chain[..p + 1] + chain[p + 1 + m..];
    assert now[|now| - 1] == chain[|chain| - 1];
    forall i | 0 <= i < |now| - 1 ensures after[now[i]].next == Some(now[i + 1]) {
      var j := if i <= p then i else i + m;
      assert now[i] == chain[j];
      ChainDistinct(nodes, chain, p, j);
      assert i != p ==> now[i + 1] == chain[j + 1];
    }
  }

  /** Only removed nodes leave the chain. */
  lemma SkipKeepsUnmarked(nodes: seq<Cell>, chain: seq<Node>, p: nat, via: seq<Node>, right: Node, n: Node)
    requires Shape(nodes) && Follows(nodes, chain) && Path(nodes, via, right)
    requires via != [] && p + 1 + |via| < |chain| && chain[p + 1] == via[0]
    requires n in chain && n < |nodes| && !nodes[n].marked
    ensures n in chain[..p + 1] + chain[p + 1 + |via|..]
  {
    var now := chain[..p + 1] + chain[p + 1 + |via|..];
    var i :| 0 <= i < |chain| && chain[i] == n;
    if p < i < p + 1 + |via| {
      PathInChain(nodes, chain, p, via, right, i - p - 1);
    }
    assert i <= p ==> now[i] == n;
    assert p + 1 + |via| <= i ==> now[i - |via|] == n;
  }

  lemma SameKeys(nodes: seq<Cell>, chain: seq<Node>, after: seq<Cell>, now: seq<Node>)
    requires |after| == |nodes|
    requires forall n: Node :: n < |nodes| ==> after[n].key == nodes[n].key && after[n].marked == nodes[n].marked
    requires forall n: Node :: n in now ==> n in chain
    requires forall n: Node :: n in chain && n < |nodes| && !nodes[n].marked ==> n in now
    ensures Keys(after, now) == Keys(nodes, chain)
  {
    forall k | k in Keys(nodes, chain) ensures k in Keys(after, now) {
      var n :| n in chain && 2 <= n < |nodes| && !nodes[n].marked && nodes[n].key == k;
      assert n in now && after[n].key == k;
    }
  }

  lemma UnlinkKeepsList(nodes: seq<Cell>, chain: seq<Node>, left: Node, via: seq<Node>, right: Node)
    requires ListInv(nodes, chain) && left < |nodes| && via != [] && Points(nodes[left], via[0])
    requires Path(nodes, via, right)
    ensures right < |nodes|
    ensures var after := Redirect(nodes, left, right);
            var now := Skip(chain, left, |via|);
            && ListInv(after, now) && Frozen(nodes, after) && Keys(after, now) == Keys(nodes, chain)
  {
    hide IndexOf, Shape, Follows, Frozen, Path, Keys, AllReachable;
    Adjacent(nodes, chain, left, via[0]);
    var p := IndexOf(chain, left);
    UnlinkAt(nodes, chain, p, via, right);
    UnlinkKeys(nodes, chain, p, via, right);
  }

  lemma UnlinkAt(nodes: seq<Cell>, chain: seq<Node>, p: nat, via: seq<Node>, right: Node)
    requires Shape(nodes) && Follows(nodes, chain) && Path(nodes, via, right)
    requires via != [] && p + 1 < |chain| && chain[p + 1] == via[0] && chain[p] < |nodes| && !nodes[chain[p]].marked
    ensures p + 1 + |via| < |chain| && chain[p + 1 + |via|] == right && right < |nodes|
    ensures var after := Redirect(nodes, chain[p], right);
            && Shape(after) && Frozen(nodes, after) && Follows(after, chain[..p + 1] + chain[p + 1 + |via|..])
  {
    hide Shape, Follows, Frozen, Path;
    PathInChain(nodes, chain, p, via, right, |via|);
    ChainSorted(nodes, chain, p, p + 1 + |via|);
    ChainInside(nodes, chain, p);
    ChainInside(nodes, chain, p + 1 + |via|);
    SkipFollows(nodes, chain, p, |via|);
    RedirectShape(nodes, chain[p], right);
  }

  lemma ChainInside(nodes: seq<Cell>, chain: seq<Node>, i: nat)
    requires Shape(nodes) && Follows(nodes, chain) && i < |chain|
    ensures chain[i] < |nodes| && (i + 1 < |chain| ==> chain[i] != TAIL)
  {
    assert i + 1 < |chain| ==> nodes[chain[i]].next == Some(chain[i + 1]);
  }

  lemma UnlinkKeys(nodes: seq<Cell>, chain: seq<Node>, p: nat, via: seq<Node>, right: Node)
    requires Shape(nodes) && Follows(nodes, chain) && Path(nodes, via, right) && AllReachable(nodes, chain)
    requires via != [] && p + 1 + |via| < |chain| && chain[p + 1] == via[0] && chain[p] < |nodes|
    ensures var after := Redirect(nodes, chain[p], right);
            var now := chain[..p + 1] + chain[p + 1 + |via|..];
            AllReachable(after, now) && Keys(after, now) == Keys(nodes, chain)
  {
    hide Shape, Follows, Path;
    var after := Redirect(nodes, chain[p], right);
    var now := chain[..p + 1] + chain[p + 1 + |via|..];
    forall n: Node | n in chain && n < |nodes| && !nodes[n].marked ensures n in now {
      SkipKeepsUnmarked(nodes, chain, p, via, right, n);
    }
    SameKeys(nodes, chain, after, now);
  }

  // ---------------------------------------------------------------- inserting

  lemma LinkinShape(nodes: seq<Cell>, n: Node, key: int, to: Node)
    requires Shape(nodes) && n < |nodes| && to < |nodes| && n != TAIL && !nodes[n].marked
    requires nodes[n].key < key < nodes[to].key && LOWEST < key < HIGHEST
    ensures Shape(Linkin(nodes, n, key, to)) && Frozen(nodes, Linkin(nodes, n, key, to))
  {
    var after := Linkin(nodes, n, key, to);
    forall m: Node | m < |after| && m != TAIL ensures Linked(after, m) {
      if m < |nodes| { assert Linked(nodes, m); }
    }
  }

  lemma SpliceFollows(nodes: seq<Cell>, chain: seq<Node>, p: nat, key: int)
    requires Shape(nodes) && Follows(nodes, chain) && p + 1 < |chain|
    ensures Follows(Linkin(nodes, chain[p], key, chain[p + 1]), chain[..p + 1] + [|nodes|] + chain[p + 1..])
  {
    var after := Linkin(nodes, chain[p], key, chain[p + 1]);
    var now := chain[..p + 1] + [|nodes|] + chain[p + 1..];
    assert now[|now| - 1] == chain[|chain| - 1];
    forall i | 0 <= i < |now| - 1 ensures after[now[i]].next == Some(now[i + 1]) {
      var j := if i <= p + 1 then i else i - 1;
      assert i != p + 1 ==> now[i] == chain[j];
      ChainDistinct(nodes, chain, p, j);
    }
  }

  lemma InsertKeepsList(nodes: seq<Cell>, chain: seq<Node>, left: Node, key: int, right: Node)
    requires ListInv(nodes, chain) && left < |nodes| && right < |nodes| && Points(nodes[left], right)
    requires nodes[left].key < key < nodes[right].key && LOWEST < key < HIGHEST
    ensures var after := Linkin(nodes, left, key, right);
            var now := Splice(chain, left, |nodes|);
            && ListInv(after, now) && Frozen(nodes, after)
            && key !in Keys(nodes, chain) && Keys(after, now) == Keys(nodes, chain) + {key}
  {
    hide IndexOf, Shape, Follows, Frozen, Keys, AllReachable;
    Adjacent(nodes, chain, left, right);
    var p := IndexOf(chain, left);
    InsertAt(nodes, chain, p, key);
    InsertedKeys(nodes, chain, p, key);
  }

  lemma InsertAt(nodes: seq<Cell>, chain: seq<Node>, p: nat, key: int)
    requires Shape(nodes) && Follows(nodes, chain) && p + 1 < |chain| && LOWEST < key < HIGHEST
    requires chain[p] < |nodes| && chain[p + 1] < |nodes| && nodes[chain[p]].key < key < nodes[chain[p + 1]].key
    requires !nodes[chain[p]].marked
    ensures var after := Linkin(nodes, chain[p], key, chain[p + 1]);
            && Shape(after) && Frozen(nodes, after) && Follows(after, chain[..p + 1] + [|nodes|] + chain[p + 1..])
    ensures key !in Keys(nodes, chain)
  {
    NothingBetween(nodes, chain, p, key);
    assert chain[p] != TAIL;
    SpliceFollows(nodes, chain, p, key);
    hide Follows;
    LinkinShape(nodes, chain[p], key, chain[p + 1]);
    hide Shape, Frozen, Keys;
  }

  lemma InsertedKeys(nodes: seq<Cell>, chain: seq<Node>, p: nat, key: int)
    requires Shape(nodes) && Follows(nodes, chain) && AllReachable(nodes, chain) && p + 1 < |chain|
    requires chain[p] < |nodes|
    ensures var after := Linkin(nodes, chain[p], key, chain[p + 1]);
            var now := chain[..p + 1] + [|nodes|] + chain[p + 1..];
            AllReachable(after, now) && Keys(after, now) == Keys(nodes, chain) + {key}
  {
    var after := Linkin(nodes, chain[p], key, chain[p + 1]);
    var now := chain[..p + 1] + [|nodes|] + chain[p + 1..];
    SpliceMembers(chain, p, |nodes|);
    hide Keys;
    SpliceKeys(nodes, chain, after, now, key);
  }

  lemma SpliceMembers(chain: seq<Node>, p: nat, x: Node)
    requires p < |chain|
    ensures forall n :: n in chain[..p + 1] + [x] + chain[p + 1..] <==> n in chain || n == x
  {
    var now := chain[..p + 1] + [x] + chain[p + 1..];
    forall n | n in chain || n == x ensures n in now {
      if n in chain {
        var i :| 0 <= i < |chain| && chain[i] == n;
        assert now[if i <= p then i else i + 1] == n;
      } else {
        assert now[p + 1] == n;
      }
    }
  }

  lemma SpliceKeys(nodes: seq<Cell>, chain: seq<Node>, after: seq<Cell>, now: seq<Node>, key: int)
    requires forall n :: n in now <==> n in chain || n == |nodes|
    requires forall i :: 0 <= i < |chain| ==> chain[i] < |nodes|
    requires |nodes| >= 2 && |after| == |nodes| + 1 && after[|nodes|].key == key && !after[|nodes|].marked
    requires forall n: Node :: n < |nodes| ==> after[n].key == nodes[n].key && after[n].marked == nodes[n].marked
    ensures Keys(after, now) == Keys(nodes, chain) + {key}
  {
    forall k | k in Keys(nodes, chain) ensures k in Keys(after, now) {
      var n :| n in chain && 2 <= n < |nodes| && !nodes[n].marked && nodes[n].key == k;
      assert n in now && after[n].key == k;
    }
  }

  // ---------------------------------------------------------------- marking

  lemma MarkKeepsList(nodes: seq<Cell>, chain: seq<Node>, n: Node)
    requires ListInv(nodes, chain) && 2 <= n < |nodes| && !nodes[n].marked
    ensures ListInv(Mark(nodes, n), chain) && Frozen(nodes, Mark(nodes, n))
    ensures nodes[n].key in Keys(nodes, chain) && Keys(Mark(nodes, n), chain) == Keys(nodes, chain) - {nodes[n].key}
  {
    var after := Mark(nodes, n);
    assert n in chain;
    forall m: Node | m < |after| && m != TAIL ensures Linked(after, m) {
      assert Linked(nodes, m);
    }
    forall m: Node | m in chain && m != n && m < |nodes| ensures nodes[m].key != nodes[n].key {
      var i :| 0 <= i < |chain| && chain[i] == m;
      var j :| 0 <= j < |chain| && chain[j] == n;
      ChainDistinct(nodes, chain, i, j);
    }
    forall k | k in Keys(nodes, chain) && k != nodes[n].key ensures k in Keys(after, chain) {
      var m :| m in chain && 2 <= m < |nodes| && !nodes[m].marked && nodes[m].key == k;
      assert after[m] == nodes[m];
    }
  }

  // ---------------------------------------------------------------- every step keeps the invariant

  /** The step of thread t leaves the list as (nodes, chain) and the thread at op. */
  lemma Commit(s: State, t: nat, nodes: seq<Cell>, chain: seq<Node>, op: Op)
    requires Inv(s) && t < |s.ops| && ListInv(nodes, chain) && Frozen(s.nodes, nodes)
    requires OpInv(nodes, s.hist + [Keys(nodes, chain)], op)
    ensures Inv(SetOp(s.(nodes := nodes, chain := chain), t, op))
  {
    hide OpInv, ListInv, Frozen, Keys, OpsInv;
    OpsStable(s.nodes, nodes, s.hist, [Keys(nodes, chain)], s.ops, t, op);
  }

  /** A step that changes no pointer. */
  lemma CommitQuiet(s: State, t: nat, op: Op)
    requires Inv(s) && t < |s.ops| && OpInv(s.nodes, s.hist + [Keys(s.nodes, s.chain)], op)
    ensures Inv(SetOp(s, t, op))
  {
    hide OpInv, ListInv, Keys, OpsInv, HistInv, SetOp;
    Commit(s, t, s.nodes, s.chain, op);
    assert s.(nodes := s.nodes, chain := s.chain) == s;
  }

  lemma Later(nodes: seq<Cell>, hist: seq<set<int>>, more: seq<set<int>>, op: Op)
    requires OpInv(nodes, hist, op)
    ensures OpInv(nodes, hist + more, op)
  {
    hide OpInv;
    OpStable(nodes, nodes, hist, more, op);
  }

  lemma RestartInv(nodes: seq<Cell>, hist: seq<set<int>>, call: Call, done: Option<nat>)
    requires Shape(nodes) && CallOk(hist, call) && Removed(hist, call, done)
    ensures OpInv(nodes, hist, Restart(call, done))
  {
  }

  lemma PathExtend(nodes: seq<Cell>, via: seq<Node>, right: Node)
    requires Path(nodes, via, right) && right < |nodes| && nodes[right].marked && nodes[right].next.Some?
    ensures Path(nodes, via + [right], nodes[right].next.value)
  {
    var now := via + [right];
    forall i | 0 <= i < |now|
      ensures now[i] < |nodes| && nodes[now[i]].marked
      ensures nodes[now[i]].next == Some(After(now, nodes[right].next.value, i))
    {
      if i < |via| {
        assert now[i] == via[i] && After(via, right, i) == now[i + 1];
      } else {
        assert now[i] == right;
      }
    }
  }

  lemma StepNextInv(s: State, t: nat)
    requires Inv(s) && t < |s.ops| && s.ops[t].Next? && ValidNode(s, s.ops[t].right)
    ensures Inv(StepNext(s, t, s.ops[t]))
  {
    hide Keys, SetOp, IndexOf;
    var op := s.ops[t];
    var hist := s.hist + [Keys(s.nodes, s.chain)];
    Later(s.nodes, s.hist, [Keys(s.nodes, s.chain)], op);
    var c := s.nodes[op.right];
    assert op.right != TAIL ==> Linked(s.nodes, op.right);
    if (c.marked || c.key < op.call.key) && c.next.Some? {
      if c.marked {
        PathExtend(s.nodes, op.via, op.right);
        CommitQuiet(s, t, Next(op.call, op.done, op.left, op.via + [op.right], c.next.value, op.gap));
      } else {
        GapHere(s.nodes, s.chain, s.hist, op.call, op.right, c.next.value);
        CommitQuiet(s, t, Next(op.call, op.done, op.right, [], c.next.value, |s.hist|));
      }
    } else if op.via == [] {
      CommitQuiet(s, t, Check(op.call, op.done, op.left, op.right, op.gap));
    } else {
      CommitQuiet(s, t, Unlink(op.call, op.done, op.left, op.via, op.right));
    }
  }

  lemma GapHere(nodes: seq<Cell>, chain: seq<Node>, hist: seq<set<int>>, call: Call, left: Node, right: Node)
    requires ListInv(nodes, chain) && left < |nodes| && right < |nodes| && Points(nodes[left], right)
    requires call.since <= |hist|
    ensures Gap(nodes, hist + [Keys(nodes, chain)], call, left, right, |hist|)
  {
    hide IndexOf, AllReachable, Keys, Shape, Follows;
    Adjacent(nodes, chain, left, right);
    forall k | k in Keys(nodes, chain) ensures !(nodes[left].key < k < nodes[right].key) {
      NothingBetween(nodes, chain, IndexOf(chain, left), k);
    }
  }

  lemma StepUnlinkInv(s: State, t: nat)
    requires Inv(s) && t < |s.ops| && s.ops[t].Unlink? && ValidNode(s, s.ops[t].left) && s.ops[t].via != []
    ensures Inv(StepUnlink(s, t, s.ops[t]))
  {
    hide Keys, SetOp, IndexOf, Skip, Shape, Follows, AllReachable, Gap, Justified, Redirect;
    var op := s.ops[t];
    var left, right, via := op.left, op.right, op.via;
    if Points(s.nodes[left], via[0]) {
      UnlinkKeepsList(s.nodes, s.chain, left, via, right);
      var nodes := Redirect(s.nodes, left, right);
      var chain := Skip(s.chain, left, |via|);
      OpStable(s.nodes, nodes, s.hist, [Keys(nodes, chain)], op);
      RedirectPoints(s.nodes, left, right);
      GapHere(nodes, chain, s.hist, op.call, left, right);
      Commit(s, t, nodes, chain, Check(op.call, op.done, left, right, |s.hist|));
    } else {
      Later(s.nodes, s.hist, [Keys(s.nodes, s.chain)], op);
      RestartInv(s.nodes, s.hist + [Keys(s.nodes, s.chain)], op.call, op.done);
      CommitQuiet(s, t, Restart(op.call, op.done));
    }
  }

  lemma RedirectPoints(nodes: seq<Cell>, left: Node, right: Node)
    requires left < |nodes| && !nodes[left].marked
    ensures Points(Redirect(nodes, left, right)[left], right)
  {
  }

  lemma UnmarkedKeyIn(nodes: seq<Cell>, chain: seq<Node>, n: Node)
    requires ListInv(nodes, chain) && n < |nodes| && !nodes[n].marked && LOWEST < nodes[n].key < HIGHEST
    ensures nodes[n].key in Keys(nodes, chain) && n >= 2
  {
    assert n in chain;
  }

  lemma StepCheckInv(s: State, t: nat)
    requires Inv(s) && t < |s.ops| && s.ops[t].Check? && ValidNode(s, s.ops[t].right)
    ensures Inv(StepCheck(s, t, s.ops[t]))
  {
    hide Keys, SetOp, IndexOf, Shape, Follows, AllReachable;
    var op := s.ops[t];
    Later(s.nodes, s.hist, [Keys(s.nodes, s.chain)], op);
    if s.nodes[op.right].marked {
      RestartInv(s.nodes, s.hist + [Keys(s.nodes, s.chain)], op.call, op.done);
      CommitQuiet(s, t, Restart(op.call, op.done));
    } else {
      if s.nodes[op.right].key == op.call.key {
        UnmarkedKeyIn(s.nodes, s.chain, op.right);
      }
      CommitQuiet(s, t, AfterSearch(s, op));
    }
  }

  lemma StepInsertInv(s: State, t: nat)
    requires Inv(s) && t < |s.ops| && s.ops[t].InsertCas? && ValidNode(s, s.ops[t].left)
    ensures Inv(StepInsert(s, t, s.ops[t]))
  {
    hide Keys, SetOp, IndexOf, Splice, Shape, Follows, AllReachable, Gap, Linkin, Frozen;
    var op := s.ops[t];
    if Points(s.nodes[op.left], op.right) {
      InsertKeepsList(s.nodes, s.chain, op.left, op.call.key, op.right);
      var nodes := Linkin(s.nodes, op.left, op.call.key, op.right);
      var chain := Splice(s.chain, op.left, |s.nodes|);
      Commit(s, t, nodes, chain, Returned(op.call, true, |s.hist| - 1));
    } else {
      Later(s.nodes, s.hist, [Keys(s.nodes, s.chain)], op);
      RestartInv(s.nodes, s.hist + [Keys(s.nodes, s.chain)], op.call, None);
      CommitQuiet(s, t, Restart(op.call, None));
    }
  }

  lemma StepRemoveReadInv(s: State, t: nat)
    requires Inv(s) && t < |s.ops| && s.ops[t].RemoveRead? && ValidNode(s, s.ops[t].right)
    ensures Inv(StepRemoveRead(s, t, s.ops[t]))
  {
    hide Keys, SetOp, IndexOf, Shape, Follows, AllReachable;
    var op := s.ops[t];
    Later(s.nodes, s.hist, [Keys(s.nodes, s.chain)], op);
    var c := s.nodes[op.right];
    if c.marked || c.next.None? {
      RestartInv(s.nodes, s.hist + [Keys(s.nodes, s.chain)], op.call, None);
      CommitQuiet(s, t, Restart(op.call, None));
    } else {
      CommitQuiet(s, t, RemoveMark(op.call, op.left, op.right, c.next.value));
    }
  }

  lemma StepRemoveMarkInv(s: State, t: nat)
    requires Inv(s) && t < |s.ops| && s.ops[t].RemoveMark? && ValidNode(s, s.ops[t].right)
    ensures Inv(StepRemoveMark(s, t, s.ops[t]))
  {
    hide Keys, SetOp, IndexOf, Follows, AllReachable, Gap;
    var op := s.ops[t];
    if Points(s.nodes[op.right], op.succ) {
      UnmarkedKeyIn(s.nodes, s.chain, op.right);
      MarkKeepsList(s.nodes, s.chain, op.right);
      var nodes := Mark(s.nodes, op.right);
      assert Linked(s.nodes, op.right);
      OpStable(s.nodes, nodes, s.hist, [Keys(nodes, s.chain)], op);
      Commit(s, t, nodes, s.chain, RemoveUnlink(op.call, op.left, op.right, op.succ, |s.hist| - 1));
      assert s.(nodes := nodes, chain := s.chain) == s.(nodes := nodes);
    } else {
      Later(s.nodes, s.hist, [Keys(s.nodes, s.chain)], op);
      RestartInv(s.nodes, s.hist + [Keys(s.nodes, s.chain)], op.call, None);
      CommitQuiet(s, t, Restart(op.call, None));
    }
  }

  lemma StepRemoveUnlinkInv(s: State, t: nat)
    requires Inv(s) && t < |s.ops| && s.ops[t].RemoveUnlink? && ValidNode(s, s.ops[t].left)
    ensures Inv(StepRemoveUnlink(s, t, s.ops[t]))
  {
    hide Keys, SetOp, IndexOf, Skip, Shape, Follows, AllReachable, Gap, Justified, Redirect;
    var op := s.ops[t];
    if Points(s.nodes[op.left], op.right) {
      UnlinkKeepsList(s.nodes, s.chain, op.left, [op.right], op.succ);
      var nodes := Redirect(s.nodes, op.left, op.succ);
      var chain := Skip(s.chain, op.left, 1);
      OpStable(s.nodes, nodes, s.hist, [Keys(nodes, chain)], op);
      Commit(s, t, nodes, chain, Returned(op.call, true, op.at));
    } else {
      Later(s.nodes, s.hist, [Keys(s.nodes, s.chain)], op);
      RestartInv(s.nodes, s.hist + [Keys(s.nodes, s.chain)], op.call, Some(op.at));
      CommitQuiet(s, t, Restart(op.call, Some(op.at)));
    }
  }

  lemma InvokeInv(s: State, l: Label)
    requires Inv(s) && Enabled(s, l) && l.Invoke?
    ensures Inv(Apply(s, l))
  {
    hide Keys, SetOp, IndexOf, Follows, AllReachable, OpsInv;
    var call := Call(l.kind, l.key, |s.hist|);
    RestartInv(s.nodes, s.hist + [Keys(s.nodes, s.chain)], call, None);
    CommitQuiet(s, l.t, Restart(call, None));
  }

  lemma StepInv(s: State, l: Label)
    requires Inv(s) && Enabled(s, l)
    ensures Inv(Apply(s, l))
  {
    hide Inv, StepNext, StepUnlink, StepCheck, StepInsert, StepRemoveRead, StepRemoveMark, StepRemoveUnlink, SetOp,
         Keys;
    match l {
      case Invoke(_, _, _) => InvokeInv(s, l);
      case Step(t) =>
        match s.ops[t] {
          case Next(_, _, _, _, _, _) => StepNextInv(s, t);
          case Unlink(_, _, _, _, _) => StepUnlinkInv(s, t);
          case Check(_, _, _, _, _) => StepCheckInv(s, t);
          case InsertCas(_, _, _) => StepInsertInv(s, t);
          case RemoveRead(_, _, _) => StepRemoveReadInv(s, t);
          case RemoveMark(_, _, _, _) => StepRemoveMarkInv(s, t);
          case RemoveUnlink(_, _, _, _, _) => StepRemoveUnlinkInv(s, t);
        }
    }
  }

  lemma {:induction false} RunInv(s: State, ls: seq<Label>)
    requires Inv(s) && Runnable(s, ls)
    ensures Inv(Run(s, ls))
    decreases |ls|
  {
    hide Inv, Apply;
    if ls != [] {
      StepInv(s, ls[0]);
      RunInv(Apply(s, ls[0]), ls[1..]);
    }
  }

  lemma InitInv(s: State)
    requires Init(s)
    ensures Inv(s)
  {
    assert s.chain[0] == HEAD && s.chain[1] == TAIL;
    assert Linked(s.nodes, HEAD);
    assert Keys(s.nodes, s.chain) == {};
  }

  // ---------------------------------------------------------------- what every run keeps

  /** In every reachable state: keys strictly increase along every next, removed nodes included; the list read
      from the head reaches the tail and passes every node that is not marked; and its keys strictly increase. */
  lemma EveryRunIsSorted(s0: State, ls: seq<Label>)
    requires Init(s0) && Runnable(s0, ls)
    ensures var s := Run(s0, ls);
            && Shape(s.nodes) && Follows(s.nodes, s.chain) && AllReachable(s.nodes, s.chain)
            && forall i, j :: 0 <= i < j < |s.chain| ==> s.nodes[s.chain[i]].key < s.nodes[s.chain[j]].key
  {
    hide Apply, Run, Runnable, Shape, AllReachable, OpsInv, HistInv;
    InitInv(s0);
    RunInv(s0, ls);
    var s := Run(s0, ls);
    forall i, j | 0 <= i < j < |s.chain| ensures s.nodes[s.chain[i]].key < s.nodes[s.chain[j]].key {
      ChainSorted(s.nodes, s.chain, i, j);
    }
  }

  /** What a step does to the set: nothing, or one key appears, at the compare-and-swap of an insert that found
      it absent, or one key goes, at the marking by a remove that found it present. The call then answers true,
      and this instant is the one it is answerable for. */
  ghost predicate ChangesOnlyAtCas(s: State, l: Label)
    requires Enabled(s, l)
  {
    var r := Apply(s, l);
    var before, after := Keys(s.nodes, s.chain), Keys(r.nodes, r.chain);
    || after == before
    || (&& l.Step? && s.ops[l.t].InsertCas? && r.ops[l.t] == Returned(s.ops[l.t].call, true, |s.hist| - 1)
        && s.ops[l.t].call.key !in before && after == before + {s.ops[l.t].call.key})
    || (&& l.Step? && s.ops[l.t].RemoveMark? && r.ops[l.t].RemoveUnlink? && r.ops[l.t].call == s.ops[l.t].call &&
      r.ops[l.t].at == |s.hist| - 1
        && s.ops[l.t].call.key in before && after == before - {s.ops[l.t].call.key})
  }

  lemma StepEffect(s: State, l: Label)
    requires Inv(s) && Enabled(s, l)
    ensures Frozen(s.nodes, Apply(s, l).nodes)
    ensures ChangesOnlyAtCas(s, l)
    ensures Apply(s, l).hist == s.hist + [Keys(Apply(s, l).nodes, Apply(s, l).chain)]
  {
    hide Keys, IndexOf, Skip, Splice, Redirect, Linkin, Mark, Shape, Follows, AllReachable, Gap, Justified;
    match l {
      case Invoke(_, _, _) =>
      case Step(t) =>
        match s.ops[t] {
          case Unlink(_, _, left, via, right) =>
            if Points(s.nodes[left], via[0]) { UnlinkKeepsList(s.nodes, s.chain, left, via, right); }
          case InsertCas(call, left, right) =>
            if Points(s.nodes[left], right) { InsertKeepsList(s.nodes, s.chain, left, call.key, right); }
          case RemoveMark(_, _, right, succ) =>
            if Points(s.nodes[right], succ) {
              UnmarkedKeyIn(s.nodes, s.chain, right);
              MarkKeepsList(s.nodes, s.chain, right);
            }
          case RemoveUnlink(_, left, right, succ, _) =>
            if Points(s.nodes[left], right) { UnlinkKeepsList(s.nodes, s.chain, left, [right], succ); }
          case _ =>
        }
    }
  }

  /** In every run the set changes only at a successful insert or mark, by the one key in question. */
  lemma SetChangesOnlyAtCas(s0: State, ls: seq<Label>, l: Label)
    requires Init(s0) && Runnable(s0, ls) && Enabled(Run(s0, ls), l)
    ensures ChangesOnlyAtCas(Run(s0, ls), l)
  {
    hide Inv, Apply, ChangesOnlyAtCas;
    InitInv(s0);
    RunInv(s0, ls);
    StepEffect(Run(s0, ls), l);
  }

  /** Once marked, a node's next never changes again; keys never change. */
  lemma {:induction false} MarkedIsFrozen(s: State, ls: seq<Label>)
    requires Inv(s) && Runnable(s, ls)
    ensures Frozen(s.nodes, Run(s, ls).nodes)
    decreases |ls|
  {
    hide Inv, Apply;
    if ls != [] {
      StepInv(s, ls[0]);
      StepEffect(s, ls[0]);
      MarkedIsFrozen(Apply(s, ls[0]), ls[1..]);
    }
  }

  // ---------------------------------------------------------------- calls and their answers

  /** The state after the first m steps. */
  ghost function At(s: State, ls: seq<Label>, m: nat): State
    requires Runnable(s, ls) && m <= |ls|
    decreases m
  {
    if m == 0 then s else At(Apply(s, ls[0]), ls[1..], m - 1)
  }

  lemma {:induction false} AtNext(s: State, ls: seq<Label>, m: nat)
    requires Runnable(s, ls) && m < |ls|
    ensures Enabled(At(s, ls, m), ls[m]) && At(s, ls, m + 1) == Apply(At(s, ls, m), ls[m])
    decreases m
  {
    hide Enabled, Apply;
    var r := Apply(s, ls[0]);
    if m == 0 {
      assert At(r, ls[1..], 0) == r;
    } else {
      AtNext(r, ls[1..], m - 1);
    }
  }

  lemma {:induction false} AtEnd(s: State, ls: seq<Label>)
    requires Runnable(s, ls)
    ensures At(s, ls, |ls|) == Run(s, ls)
    decreases |ls|
  {
    hide Enabled, Apply;
    if ls != [] { AtEnd(Apply(s, ls[0]), ls[1..]); }
  }

  /** The set of keys after the first m steps. */
  ghost function KeysAt(s: State, ls: seq<Label>, m: nat): set<int>
    requires Runnable(s, ls) && m <= |ls|
  {
    Keys(At(s, ls, m).nodes, At(s, ls, m).chain)
  }

  /** The history is the run's: it lists the set of keys at the start and after each step. */
  lemma {:induction false} HistoryIsTrue(s0: State, ls: seq<Label>, m: nat)
    requires Init(s0) && Runnable(s0, ls) && m <= |ls|
    ensures Inv(At(s0, ls, m)) && |At(s0, ls, m).hist| == m + 1 && |At(s0, ls, m).ops| == |s0.ops|
    ensures forall h :: 0 <= h <= m ==> At(s0, ls, m).hist[h] == KeysAt(s0, ls, h)
  {
    hide Inv, Apply, Keys, Init, Runnable, At;
    if m == 0 {
      FirstKeys(s0, ls);
    } else {
      var s := At(s0, ls, m - 1);
      HistoryIsTrue(s0, ls, m - 1);
      AtNext(s0, ls, m - 1);
      StepInv(s, ls[m - 1]);
      StepEffect(s, ls[m - 1]);
      SameThreads(s, ls[m - 1]);
    }
  }

  lemma FirstKeys(s0: State, ls: seq<Label>)
    requires Init(s0) && Runnable(s0, ls)
    ensures Inv(s0) && At(s0, ls, 0) == s0 && |s0.hist| == 1 && s0.hist[0] == KeysAt(s0, ls, 0)
  {
    InitInv(s0);
    assert Keys(s0.nodes, s0.chain) == {};
  }

  lemma SameThreads(s: State, l: Label)
    requires Enabled(s, l)
    ensures |Apply(s, l).ops| == |s.ops| && forall t :: 0 <= t < |s.ops| && t != l.t ==> Apply(s, l).ops[t] == s.ops[t]
  {
    hide Keys, Skip, Splice, Redirect, Linkin, Mark;
  }

  /** Label i invokes the call that thread t is in, or has last returned from, after m steps. */
  predicate InCall(ls: seq<Label>, i: nat, t: nat, kind: Kind, key: int, m: nat) {
    && i < m <= |ls| && ls[i] == Invoke(t, kind, key)
    && forall j :: i < j < m ==> !(ls[j].Invoke? && ls[j].t == t)
  }

  lemma KeepsCall(s: State, l: Label, t: nat)
    requires Enabled(s, l) && t < |s.ops| && !s.ops[t].Idle? && !(l.Invoke? && l.t == t)
    ensures |Apply(s, l).ops| == |s.ops| && !Apply(s, l).ops[t].Idle? && Apply(s, l).ops[t].call == s.ops[t].call
  {
    hide Keys, Skip, Splice, Redirect, Linkin, Mark;
  }

  lemma StartsCall(s: State, t: nat, kind: Kind, key: int)
    requires Enabled(s, Invoke(t, kind, key))
    ensures var op := Apply(s, Invoke(t, kind, key)).ops[t]; !op.Idle? && op.call == Call(kind, key, |s.hist|)
    ensures LOWEST < key < HIGHEST
  {
    hide Keys;
  }

  /** What a thread works on is what it was last called with, from the instant of the invocation on. */
  lemma {:induction false} CallIsInvoked(s0: State, ls: seq<Label>, i: nat, t: nat, kind: Kind, key: int, m: nat)
    requires Init(s0) && Runnable(s0, ls) && InCall(ls, i, t, kind, key, m)
    ensures t < |At(s0, ls, m).ops| && !At(s0, ls, m).ops[t].Idle?
    ensures At(s0, ls, m).ops[t].call == Call(kind, key, i + 1)
  {
    hide Inv, Init, Runnable, At, Apply, Keys;
    AtNext(s0, ls, m - 1);
    HistoryIsTrue(s0, ls, m - 1);
    if i == m - 1 {
      StartsCall(At(s0, ls, i), t, kind, key);
      InvokeThread(At(s0, ls, i), ls[i]);
      SameThreads(At(s0, ls, i), ls[i]);
    } else {
      CallIsInvoked(s0, ls, i, t, kind, key, m - 1);
      KeepsCall(At(s0, ls, m - 1), ls[m - 1], t);
    }
  }

  lemma InvokeThread(s: State, l: Label)
    requires Enabled(s, l)
    ensures l.t < |s.ops|
  {
  }

  /** The instant of its own at which a call has changed the set, if it has. */
  function Instant(op: Op): Option<nat> {
    match op
    case Next(_, done, _, _, _, _) => done
    case Unlink(_, done, _, _, _) => done
    case Check(_, done, _, _, _) => done
    case RemoveUnlink(_, _, _, _, at) => Some(at)
    case Returned(call, answer, at) => if answer && call.kind != Find then Some(at) else None
    case _ => None
  }

  /** It is set by a step of the thread's own, once, and then stays for the rest of the call. */
  lemma InstantStep(s: State, l: Label, t: nat)
    requires Enabled(s, l) && t < |s.ops| && OpInv(s.nodes, s.hist, s.ops[t]) && |Apply(s, l).ops| == |s.ops|
    ensures var now := Instant(Apply(s, l).ops[t]);
            || now == Instant(s.ops[t])
            || (l.t == t && l.Invoke? && now == None)
            || (l == Step(t) && Instant(s.ops[t]) == None && now == Some(|s.hist| - 1))
  {
    hide Keys, Skip, Splice, Redirect, Linkin, Mark, Gap, Path, Below, NotBelow;
  }

  lemma {:induction false} OwnInstant(s0: State, ls: seq<Label>, t: nat, m: nat)
    requires Init(s0) && Runnable(s0, ls) && m <= |ls| && t < |s0.ops|
    ensures t < |At(s0, ls, m).ops|
    ensures var at := Instant(At(s0, ls, m).ops[t]); at.Some? ==> at.value < m && ls[at.value] == Step(t)
  {
    hide Init, Runnable, At, Apply, Keys, Instant, ListInv, HistInv, OpInv;
    HistoryIsTrue(s0, ls, m);
    if m == 0 {
      NoInstant(s0, ls, t);
    } else {
      var s := At(s0, ls, m - 1);
      HistoryIsTrue(s0, ls, m - 1);
      OwnInstant(s0, ls, t, m - 1);
      AtNext(s0, ls, m - 1);
      assert OpInv(s.nodes, s.hist, s.ops[t]);
      InstantStep(s, ls[m - 1], t);
    }
  }

  lemma NoInstant(s0: State, ls: seq<Label>, t: nat)
    requires Init(s0) && Runnable(s0, ls) && t < |s0.ops|
    ensures Instant(At(s0, ls, 0).ops[t]) == None
  {
  }

  /** The answer is true of an instant between the invocation, label i, and the end of the run. A find, and a call
      that changes nothing, reports the key's presence there; a successful insert or remove is the step of the
      thread's own that changes the set there. */
  ghost predicate Answers(s0: State, ls: seq<Label>, i: nat, t: nat, kind: Kind, key: int, answer: bool)
    requires Runnable(s0, ls)
  {
    match kind
    case Find => exists m :: i < m <= |ls| && answer == (key in KeysAt(s0, ls, m))
    case Insert =>
      if answer then
        exists m :: i < m < |ls| && ls[m] == Step(t) && Gains(s0, ls, m, key)
      else exists m :: i < m <= |ls| && key in KeysAt(s0, ls, m)
    case Remove =>
      if answer then
        exists m :: i < m < |ls| && ls[m] == Step(t) && Loses(s0, ls, m, key)
      else exists m :: i < m <= |ls| && key !in KeysAt(s0, ls, m)
  }

  ghost predicate Gains(s0: State, ls: seq<Label>, m: nat, key: int)
    requires Runnable(s0, ls) && m < |ls|
  {
    key !in KeysAt(s0, ls, m) && KeysAt(s0, ls, m + 1) == KeysAt(s0, ls, m) + {key}
  }

  ghost predicate Loses(s0: State, ls: seq<Label>, m: nat, key: int)
    requires Runnable(s0, ls) && m < |ls|
  {
    key in KeysAt(s0, ls, m) && KeysAt(s0, ls, m + 1) == KeysAt(s0, ls, m) - {key}
  }

  /** Every answer of every run is that of a set whose operations take effect at one instant each, within the call:
      the call is the one that the thread's last invocation asked for, and a change is made by the thread itself. */
  lemma EveryAnswerIsJustified(s0: State, ls: seq<Label>, i: nat, t: nat, kind: Kind, key: int)
    requires Init(s0) && Runnable(s0, ls) && InCall(ls, i, t, kind, key, |ls|)
    requires t < |Run(s0, ls).ops| && Run(s0, ls).ops[t].Returned?
    ensures Answers(s0, ls, i, t, kind, key, Run(s0, ls).ops[t].answer)
  {
    hide Init, Runnable, Run, At, Apply, Keys, ListInv, HistInv;
    AtEnd(s0, ls);
    CallIsInvoked(s0, ls, i, t, kind, key, |ls|);
    HistoryIsTrue(s0, ls, |ls|);
    OwnInstant(s0, ls, t, |ls|);
    var s := Run(s0, ls);
    assert OpInv(s.nodes, s.hist, s.ops[t]);
    var at := s.ops[t].at;
    assert s.hist[at] == KeysAt(s0, ls, at);
    assert s.ops[t].answer && kind != Find ==> s.hist[at + 1] == KeysAt(s0, ls, at + 1);
  }

  /** And every change of the set is some call's: at a step of a thread whose last invocation was an insert of a key
      that was absent or a remove of one that was present; if that call has returned by now, its answer is true. */
  lemma EveryChangeIsACalls(s0: State, ls: seq<Label>, m: nat) returns (i: nat)
    requires Init(s0) && Runnable(s0, ls) && m < |ls| && KeysAt(s0, ls, m + 1) != KeysAt(s0, ls, m)
    ensures i < m && ls[i].Invoke? && ls[m] == Step(ls[i].t) && InCall(ls, i, ls[i].t, ls[i].kind, ls[i].key, m)
    ensures || (ls[i].kind == Insert && Gains(s0, ls, m, ls[i].key))
            || (ls[i].kind == Remove && Loses(s0, ls, m, ls[i].key))
    ensures var t, ops := ls[i].t, Run(s0, ls).ops;
            InCall(ls, i, t, ls[i].kind, ls[i].key, |ls|) && t < |ops| && ops[t].Returned? ==> ops[t].answer
  {
    hide Init, Runnable, Run, At, Apply, Keys, ListInv, HistInv, Instant;
    var s, l := At(s0, ls, m), ls[m];
    AtNext(s0, ls, m);
    HistoryIsTrue(s0, ls, m);
    StepEffect(s, l);
    ChangeNeedsCall(s, l);
    assert OpInv(s.nodes, s.hist, s.ops[l.t]);
    i := Invocation(s0, ls, l.t, m);
    CallIsInvoked(s0, ls, i, l.t, ls[i].kind, ls[i].key, m);
    AtEnd(s0, ls);
    if InCall(ls, i, l.t, ls[i].kind, ls[i].key, |ls|) {
      HistoryIsTrue(s0, ls, m + 1);
      InstantStays(s0, ls, i, l.t, m + 1, |ls|);
      HistoryIsTrue(s0, ls, |ls|);
      CallIsInvoked(s0, ls, i, l.t, ls[i].kind, ls[i].key, |ls|);
      if Run(s0, ls).ops[l.t].Returned? { ReturnsTrue(Run(s0, ls).ops[l.t]); }
    }
  }

  lemma ChangeNeedsCall(s: State, l: Label)
    requires Inv(s) && Enabled(s, l) && ChangesOnlyAtCas(s, l)
    requires Keys(Apply(s, l).nodes, Apply(s, l).chain) != Keys(s.nodes, s.chain)
    ensures l.Step? && l.t < |s.ops| && !s.ops[l.t].Idle? && Instant(Apply(s, l).ops[l.t]).Some?
    ensures s.ops[l.t].call.kind == if s.ops[l.t].InsertCas? then Insert else Remove
    ensures var before, after := Keys(s.nodes, s.chain), Keys(Apply(s, l).nodes, Apply(s, l).chain);
            var key := s.ops[l.t].call.key;
            if s.ops[l.t].InsertCas? then key !in before && after == before + {key}
            else key in before && after == before - {key}
  {
    hide Keys, Apply, ListInv, HistInv;
    assert OpInv(s.nodes, s.hist, s.ops[l.t]);
  }

  lemma ReturnsTrue(op: Op)
    requires Instant(op).Some? && op.Returned?
    ensures op.answer
  {
  }

  lemma {:induction false} InstantStays(s0: State, ls: seq<Label>, i: nat, t: nat, from: nat, m: nat)
    requires Init(s0) && Runnable(s0, ls) && i < from <= m <= |ls| && t < |At(s0, ls, from).ops|
    requires forall j :: i < j < m ==> !(ls[j].Invoke? && ls[j].t == t)
    requires Instant(At(s0, ls, from).ops[t]).Some?
    ensures t < |At(s0, ls, m).ops| && Instant(At(s0, ls, m).ops[t]).Some?
  {
    hide Init, Runnable, At, Apply, Keys, Instant, ListInv, HistInv, OpInv;
    if from < m {
      InstantStays(s0, ls, i, t, from, m - 1);
      var s := At(s0, ls, m - 1);
      HistoryIsTrue(s0, ls, m - 1);
      AtNext(s0, ls, m - 1);
      SameThreads(s, ls[m - 1]);
      assert OpInv(s.nodes, s.hist, s.ops[t]);
      InstantStep(s, ls[m - 1], t);
    }
  }

  /** A thread that is in a call was invoked. */
  lemma {:induction false} Invocation(s0: State, ls: seq<Label>, t: nat, m: nat) returns (i: nat)
    requires Init(s0) && Runnable(s0, ls) && m <= |ls| && t < |At(s0, ls, m).ops| && !At(s0, ls, m).ops[t].Idle?
    ensures i < m && ls[i].Invoke? && InCall(ls, i, t, ls[i].kind, ls[i].key, m)
  {
    hide Runnable, Apply, Keys, At, Init;
    AllIdleAtFirst(s0, ls);
    if m == 0 {
      assert false;
    }
    AtNext(s0, ls, m - 1);
    SameThreads(At(s0, ls, m - 1), ls[m - 1]);
    if ls[m - 1].Invoke? && ls[m - 1].t == t {
      i := m - 1;
    } else {
      if At(s0, ls, m - 1).ops[t].Idle? { StaysIdle(At(s0, ls, m - 1), ls[m - 1], t); }
      i := Invocation(s0, ls, t, m - 1);
    }
  }

  lemma AllIdleAtFirst(s0: State, ls: seq<Label>)
    requires Init(s0) && Runnable(s0, ls)
    ensures forall t :: 0 <= t < |At(s0, ls, 0).ops| ==> At(s0, ls, 0).ops[t].Idle?
  {
    hide Runnable, Apply, Keys;
    assert At(s0, ls, 0) == s0;
  }

  lemma StaysIdle(s: State, l: Label, t: nat)
    requires Enabled(s, l) && t < |s.ops| && s.ops[t].Idle? && !(l.Invoke? && l.t == t)
    ensures t < |Apply(s, l).ops| && Apply(s, l).ops[t].Idle?
  {
    hide Keys, Skip, Splice, Redirect, Linkin, Mark;
  }

  /** No thread ever follows a null or dangling pointer: in every reachable state each call in progress can take
      its next step, and a search that goes on, or a remove that reads its node's next, finds a successor. */
  lemma NoThreadIsStuck(s0: State, ls: seq<Label>, t: nat)
    requires Init(s0) && Runnable(s0, ls) && t < |Run(s0, ls).ops|
    ensures var s := Run(s0, ls);
            var op := s.ops[t];
            && (Enabled(s, Step(t)) <==> !op.Idle? && !op.Returned?)
            && (op.Next? && (s.nodes[op.right].marked || s.nodes[op.right].key < op.call.key) ==>
              s.nodes[op.right].next.Some?)
            && (op.RemoveRead? ==> s.nodes[op.right].next.Some?)
  {
    hide Apply, Run, Runnable, Inv, Enabled;
    InitInv(s0);
    RunInv(s0, ls);
    StepPossible(Run(s0, ls), t);
  }

  lemma StepPossible(s: State, t: nat)
    requires Inv(s) && t < |s.ops|
    ensures var op := s.ops[t];
            && (Enabled(s, Step(t)) <==> !op.Idle? && !op.Returned?)
            && (op.Next? && (s.nodes[op.right].marked || s.nodes[op.right].key < op.call.key) ==>
              s.nodes[op.right].next.Some?)
            && (op.RemoveRead? ==> s.nodes[op.right].next.Some?)
  {
    hide Follows, AllReachable, Gap, Justified, Keys;
    assert OpInv(s.nodes, s.hist, s.ops[t]);
    assert s.ops[t].RemoveUnlink? ==> [s.ops[t].right][0] == s.ops[t].right;
    forall n: Node | n < |s.nodes| && n != TAIL ensures s.nodes[n].next.Some? {
      assert Linked(s.nodes, n);
    }
  }
}
