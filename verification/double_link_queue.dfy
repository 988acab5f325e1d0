/** The DoubleLink queue of benchmarks/datastructures/queue.h: any number of threads run enqueue and dequeue, one
    atomic access to head, tail, next or prev at a time.

    An enqueue swings the tail first and links the new node behind its predecessor afterwards; the next enqueue
    repairs a missing link through the weak prev pointer. Nodes are numbered as they are allocated.
 */
module DoubleLinkQueue {
  import opened Options

  type Node = nat
  type Value(==)

  datatype Cell = Cell(value: Option<Value>, next: Option<Node>, prev: Option<Node>)

  datatype Op =
    | Idle
    | ReadTail(node: Node)
    | SetPrev(node: Node, ltail: Node)
    | ReadPrev(node: Node, ltail: Node)
    | HelpCheck(node: Node, ltail: Node, lprev: Node)
    | HelpStore(node: Node, ltail: Node, lprev: Node)
    | SwingTail(node: Node, ltail: Node)
    | LinkNext(node: Node, ltail: Node)
    | Enqueued(node: Node)
    | ReadHead
    | ReadNext(lhead: Node)
    | SwingHead(lhead: Node, lnext: Node)
    | Dequeued(answer: Option<Value>)

  /** No thread reads the last three: `ord` lists the nodes in the order in which they became the tail, `passed`
      is the head's place in it, and the first `linked` nodes of it have a next. */
  datatype State = State(nodes: seq<Cell>, head: Node, tail: Node, ops: seq<Op>, ord: seq<Node>, passed: nat,
                         linked: nat)

  ghost predicate Init(s: State) {
    && s.nodes == [Cell(None, None, None)] && s.head == 0 && s.tail == 0
    && s.ord == [0] && s.passed == 0 && s.linked == 0
    && forall t :: 0 <= t < |s.ops| ==> s.ops[t] == Idle
  }

  // ---------------------------------------------------------------- steps

  /** `expired` is the answer of the weak snapshot that enqueue takes of prev: it may be null only if the node has
      no strong owner left. */
  datatype Label = Enqueue(t: nat, v: Value) | Dequeue(t: nat) | Step(t: nat, expired: bool)

  ghost predicate Chained(nodes: seq<Cell>, path: seq<Node>) {
    forall i :: 0 <= i < |path| - 1 ==> path[i] < |nodes| && nodes[path[i]].next == Some(path[i + 1])
  }

  /** The cells head and tail own a node, and so do the next cells on the way from the head. */
  ghost predicate Owned(s: State, n: Node) {
    n == s.tail || exists path: seq<Node> ::
        path != [] && path[0] == s.head && path[|path| - 1] == n && Chained(s.nodes, path)
  }

  predicate Resting(op: Op) { op.Idle? || op.Enqueued? || op.Dequeued? }

  ghost predicate Enabled(s: State, l: Label) {
    && l.t < |s.ops|
    && match l
       case Enqueue(t, v) => Resting(s.ops[t])
       case Dequeue(t) => Resting(s.ops[t])
       case Step(t, expired) =>
         && !Resting(s.ops[t])
         && Touches(s.ops[t]) < |s.nodes|
         && (s.ops[t].HelpStore? || s.ops[t].LinkNext? ==> s.ops[t].node < |s.nodes|)
         && (s.ops[t].SwingHead? ==> s.ops[t].lnext < |s.nodes|)
         && (expired ==>
              s.ops[t].ReadPrev? && s.nodes[s.ops[t].ltail].prev.Some? && !Owned(s, s.nodes[s.ops[t].ltail].prev.value))
  }

  /** The node whose fields the next access touches (0 when it is the head or the tail cell). */
  function Touches(op: Op): Node {
    match op
    case SetPrev(n, _) => n
    case ReadPrev(_, ltail) => ltail
    case HelpCheck(_, _, lprev) => lprev
    case HelpStore(_, _, lprev) => lprev
    case LinkNext(_, ltail) => ltail
    case ReadNext(lhead) => lhead
    case _ => 0
  }

  function SetOp(s: State, t: nat, op: Op): State
    requires t < |s.ops|
  {
    s.(ops := s.ops[t := op])
  }

  /** node.next.store(to) */
  function StoreNext(s: State, n: Node, to: Node): State
    requires n < |s.nodes|
  {
    s.(nodes := s.nodes[n := s.nodes[n].(next := Some(to))],
       linked := if s.nodes[n].next.None? then s.linked + 1 else s.linked)
  }

  ghost function Apply(s: State, l: Label): State
    requires Enabled(s, l)
  {
    match l
    case Enqueue(t, v) => SetOp(s.(nodes := s.nodes + [Cell(Some(v), None, None)]), t, ReadTail(|s.nodes|))
    case Dequeue(t) => SetOp(s, t, ReadHead)
    case Step(t, expired) =>
      match s.ops[t]
      case ReadTail(n) => SetOp(s, t, SetPrev(n, s.tail))
      case SetPrev(n, ltail) => SetOp(s.(nodes := s.nodes[n := s.nodes[n].(prev := Some(ltail))]), t,
                                      ReadPrev(n, ltail))
      case ReadPrev(n, ltail) =>
        var prev := s.nodes[ltail].prev;
        SetOp(s, t, if prev.None? || expired then SwingTail(n, ltail) else HelpCheck(n, ltail, prev.value))
      case HelpCheck(n, ltail, lprev) =>
        SetOp(s, t, if s.nodes[lprev].next.None? then HelpStore(n, ltail, lprev) else SwingTail(n, ltail))
      case HelpStore(n, ltail, lprev) => SetOp(StoreNext(s, lprev, ltail), t, SwingTail(n, ltail))
      case SwingTail(n, ltail) =>
        if s.tail == ltail then SetOp(s.(tail := n, ord := s.ord + [n]), t, LinkNext(n, ltail))
        else SetOp(s, t, ReadTail(n))
      case LinkNext(n, ltail) => SetOp(StoreNext(s, ltail, n), t, Enqueued(n))
      case ReadHead => SetOp(s, t, ReadNext(s.head))
      case ReadNext(lhead) =>
        var next := s.nodes[lhead].next;
        SetOp(s, t, if next.None? then Dequeued(None) else SwingHead(lhead, next.value))
      case SwingHead(lhead, lnext) =>
        if s.head == lhead then SetOp(s.(head := lnext, passed := s.passed + 1), t, Dequeued(s.nodes[lnext].value))
        else SetOp(s, t, ReadHead)
      case _ => s
  }

  ghost predicate Runnable(s: State, ls: seq<Label>)
    decreases |ls|
  {
    ls == [] || (Enabled(s, ls[0]) && Runnable(Apply(s, ls[0]), ls[1..]))
  }

  ghost function Run(s: State, ls: seq<Label>): State
    requires Runnable(s, ls)
    decreases |ls|
  {
    if ls == [] then s else Run(Apply(s, ls[0]), ls[1..])
  }

  // ---------------------------------------------------------------- the invariant

  /** The i-th node to become the tail has its place: next is null or the successor, prev the predecessor. */
  ghost predicate PlacedAt(nodes: seq<Cell>, ord: seq<Node>, linked: nat, i: nat) {
    i < |ord| ==>
      && ord[i] < |nodes|
      && nodes[ord[i]].next == (if i < linked && i + 1 < |ord| then Some(ord[i + 1]) else None)
      && nodes[ord[i]].prev == (if i > 0 then Some(ord[i - 1]) else None)
      && (nodes[ord[i]].value == None <==> i == 0)
  }

  ghost predicate Placed(nodes: seq<Cell>, ord: seq<Node>, linked: nat) {
    forall i: nat :: PlacedAt(nodes, ord, linked, i)
  }

  ghost predicate Distinct(ord: seq<Node>) {
    forall i, j :: 0 <= i < j < |ord| ==> ord[i] != ord[j]
  }

  /** Only the last two nodes may lack a next. */
  ghost predicate Bounds(head: Node, tail: Node, ord: seq<Node>, passed: nat, linked: nat) {
    && passed <= linked < |ord| <= linked + 2
    && head == ord[passed] && tail == ord[|ord| - 1]
  }

  /** If the last node is not linked yet, the thread that made it the tail is still about to. */
  ghost predicate Linking(ord: seq<Node>, linked: nat, ops: seq<Op>) {
    |ord| == linked + 2 ==> exists t :: 0 <= t < |ops| && ops[t] == LinkNext(ord[|ord| - 1], ord[|ord| - 2])
  }

  /** The node an enqueue has allocated and not yet made the tail. */
  function Fresh(op: Op): Option<Node> {
    match op
    case ReadTail(n) => Some(n)
    case SetPrev(n, _) => Some(n)
    case ReadPrev(n, _) => Some(n)
    case HelpCheck(n, _, _) => Some(n)
    case HelpStore(n, _, _) => Some(n)
    case SwingTail(n, _) => Some(n)
    case _ => None
  }

  ghost predicate Private(nodes: seq<Cell>, ord: seq<Node>, n: Node) {
    n < |nodes| && n !in ord && nodes[n].next == None && nodes[n].value.Some?
  }

  ghost predicate Apart(ops: seq<Op>) {
    forall t, u :: 0 <= t < u < |ops| && Fresh(ops[t]).Some? ==> Fresh(ops[t]) != Fresh(ops[u])
  }

  /** a and b are neighbours in tail order. */
  ghost predicate Neighbours(ord: seq<Node>, a: Node, b: Node) {
    exists i :: 0 < i < |ord| && ord[i - 1] == a && ord[i] == b
  }

  ghost predicate Reached(ord: seq<Node>, bound: nat, n: Node) {
    exists i :: 0 <= i < |ord| && i <= bound && ord[i] == n
  }

  ghost predicate OpInv(nodes: seq<Cell>, ord: seq<Node>, passed: nat, linked: nat, op: Op) {
    && (Fresh(op).Some? ==> Private(nodes, ord, Fresh(op).value))
    && match op
       case SetPrev(n, ltail) => ltail in ord
       case ReadPrev(n, ltail) => nodes[n].prev == Some(ltail) && ltail in ord
       case HelpCheck(n, ltail, lprev) => nodes[n].prev == Some(ltail) && Neighbours(ord, lprev, ltail)
       case HelpStore(n, ltail, lprev) => nodes[n].prev == Some(ltail) && Neighbours(ord, lprev, ltail)
       case SwingTail(n, ltail) => nodes[n].prev == Some(ltail) && Reached(ord, linked, ltail)
       case LinkNext(n, ltail) => Neighbours(ord, ltail, n)
       case Enqueued(n) => Reached(ord, linked, n)
       case ReadNext(lhead) => Reached(ord, passed, lhead)
       case SwingHead(lhead, lnext) => Neighbours(ord, lhead, lnext) && Reached(ord, passed, lhead)
           && Reached(ord, linked, lnext)
       case _ => true
  }

  ghost predicate OpsInv(nodes: seq<Cell>, ord: seq<Node>, passed: nat, linked: nat, ops: seq<Op>) {
    forall t :: 0 <= t < |ops| ==> OpInv(nodes, ord, passed, linked, ops[t])
  }

  ghost predicate Inv(s: State) {
    && Placed(s.nodes, s.ord, s.linked) && Distinct(s.ord)
    && Bounds(s.head, s.tail, s.ord, s.passed, s.linked)
    && Linking(s.ord, s.linked, s.ops) && Apart(s.ops)
    && OpsInv(s.nodes, s.ord, s.passed, s.linked, s.ops)
  }

  // ---------------------------------------------------------------- what a step leaves alone

  lemma NeighboursLater(ord: seq<Node>, more: seq<Node>, a: Node, b: Node)
    requires Neighbours(ord, a, b)
    ensures Neighbours(ord + more, a, b)
  {
    var i :| 0 < i < |ord| && ord[i - 1] == a && ord[i] == b;
    assert (ord + more)[i - 1] == a && (ord + more)[i] == b;
  }

  lemma ReachedLater(ord: seq<Node>, more: seq<Node>, bound: nat, later: nat, n: Node)
    requires Reached(ord, bound, n) && bound <= later
    ensures Reached(ord + more, later, n) && n in ord
  {
    var i :| 0 <= i < |ord| && i <= bound && ord[i] == n;
    assert (ord + more)[i] == n;
  }

  lemma OpStable(s: State, r: State, more: seq<Node>, op: Op)
    requires OpInv(s.nodes, s.ord, s.passed, s.linked, op)
    requires r.ord == s.ord + more && s.passed <= r.passed && s.linked <= r.linked && |s.nodes| <= |r.nodes|
    requires Fresh(op).Some? ==> Fresh(op).value !in more && r.nodes[Fresh(op).value] == s.nodes[Fresh(op).value]
    ensures OpInv(r.nodes, r.ord, r.passed, r.linked, op)
  {
    hide Neighbours, Reached;
    match op {
      case HelpCheck(_, ltail, lprev) => NeighboursLater(s.ord, more, lprev, ltail);
      case HelpStore(_, ltail, lprev) => NeighboursLater(s.ord, more, lprev, ltail);
      case SwingTail(_, ltail) => ReachedLater(s.ord, more, s.linked, r.linked, ltail);
      case LinkNext(n, ltail) => NeighboursLater(s.ord, more, ltail, n);
      case Enqueued(n) => ReachedLater(s.ord, more, s.linked, r.linked, n);
      case ReadNext(lhead) => ReachedLater(s.ord, more, s.passed, r.passed, lhead);
      case SwingHead(lhead, lnext) =>
        NeighboursLater(s.ord, more, lhead, lnext);
        ReachedLater(s.ord, more, s.passed, r.passed, lhead);
        ReachedLater(s.ord, more, s.linked, r.linked, lnext);
      case _ =>
    }
  }

  /** The private nodes of the other threads, as thread t must leave them. */
  ghost predicate OthersKept(s: State, r: State, more: seq<Node>, t: nat) {
    forall u ::
        0 <= u < |s.ops| && u != t && Fresh(s.ops[u]).Some? && Fresh(s.ops[u]).value < |s.nodes| <= |r.nodes| ==>
      Fresh(s.ops[u]).value !in more && r.nodes[Fresh(s.ops[u]).value] == s.nodes[Fresh(s.ops[u]).value]
  }

  lemma OpsCommit(s: State, r: State, more: seq<Node>, t: nat, op: Op)
    requires OpsInv(s.nodes, s.ord, s.passed, s.linked, s.ops) && t < |s.ops| && r.ops == s.ops[t := op]
    requires r.ord == s.ord + more && s.passed <= r.passed && s.linked <= r.linked && |s.nodes| <= |r.nodes|
    requires OthersKept(s, r, more, t)
    requires OpInv(r.nodes, r.ord, r.passed, r.linked, op)
    ensures OpsInv(r.nodes, r.ord, r.passed, r.linked, r.ops)
  {
    hide Neighbours, Reached;
    forall u | 0 <= u < |r.ops| ensures OpInv(r.nodes, r.ord, r.passed, r.linked, r.ops[u]) {
      if u != t {
        assert OpInv(s.nodes, s.ord, s.passed, s.linked, s.ops[u]);
        OpStable(s, r, more, s.ops[u]);
      }
    }
  }

  /** Thread t keeps its private node, or gives it up. */
  lemma ApartCommit(ops: seq<Op>, t: nat, op: Op)
    requires Apart(ops) && t < |ops| && (Fresh(op) == Fresh(ops[t]) || Fresh(op) == None)
    ensures Apart(ops[t := op])
  {
    hide Fresh;
    var now := ops[t := op];
    forall u, w | 0 <= u < w < |now| && Fresh(now[u]).Some? ensures Fresh(now[u]) != Fresh(now[w]) {
      assert Fresh(ops[u]).Some? ==> Fresh(ops[u]) != Fresh(ops[w]);
    }
  }

  lemma LinkingCommit(ord: seq<Node>, linked: nat, ops: seq<Op>, t: nat, op: Op)
    requires Linking(ord, linked, ops) && t < |ops| && !ops[t].LinkNext?
    ensures Linking(ord, linked, ops[t := op])
  {
    if |ord| == linked + 2 {
      var u :| 0 <= u < |ops| && ops[u] == LinkNext(ord[|ord| - 1], ord[|ord| - 2]);
      assert ops[t := op][u] == ops[u];
    }
  }

  // ---------------------------------------------------------------- every step keeps the invariant

  lemma CommitQuiet(s: State, t: nat, op: Op)
    requires Inv(s) && t < |s.ops| && !s.ops[t].LinkNext? && (Fresh(op) == Fresh(s.ops[t]) || Fresh(op) == None)
    requires OpInv(s.nodes, s.ord, s.passed, s.linked, op)
    ensures Inv(SetOp(s, t, op))
  {
    hide Placed, Distinct, Bounds, Linking, Apart, OpInv, OpsInv, Fresh;
    var r := SetOp(s, t, op);
    assert r.ord == s.ord + [];
    OpsCommit(s, r, [], t, op);
    ApartCommit(s.ops, t, op);
    LinkingCommit(s.ord, s.linked, s.ops, t, op);
  }

  lemma EnqueueInv(s: State, l: Label)
    requires Inv(s) && Enabled(s, l) && l.Enqueue?
    ensures Inv(Apply(s, l))
  {
    hide Distinct, Bounds, Linking, Owned;
    var r := Apply(s, l);
    var n := |s.nodes|;
    assert r.ord == s.ord + [];
    forall i: nat ensures PlacedAt(r.nodes, r.ord, r.linked, i) && (i < |s.ord| ==> s.ord[i] != n) {
      assert PlacedAt(s.nodes, s.ord, s.linked, i);
    }
    hide Placed;
    LinkingCommit(s.ord, s.linked, s.ops, l.t, ReadTail(n));
    FreshBelow(s);
    OpsCommit(s, r, [], l.t, ReadTail(n));
    hide OpsInv;
    forall u, w | 0 <= u < w < |r.ops| && Fresh(r.ops[u]).Some? ensures Fresh(r.ops[u]) != Fresh(r.ops[w]) {
      assert u != l.t && w != l.t && Fresh(s.ops[u]).Some? ==> Fresh(s.ops[u]) != Fresh(s.ops[w]);
    }
  }

  lemma FreshBelow(s: State)
    requires OpsInv(s.nodes, s.ord, s.passed, s.linked, s.ops)
    ensures forall u :: 0 <= u < |s.ops| && Fresh(s.ops[u]).Some? ==> Fresh(s.ops[u]).value < |s.nodes|
  {
    forall u | 0 <= u < |s.ops| && Fresh(s.ops[u]).Some? ensures Fresh(s.ops[u]).value < |s.nodes| {
      assert OpInv(s.nodes, s.ord, s.passed, s.linked, s.ops[u]);
    }
  }

  /** A node that the head has not passed is still owned: by the head, by the next of its predecessor, or by the
      tail. So the weak snapshot of prev is null only behind the head. */
  lemma OwnedUntilPassed(s: State, i: nat)
    requires Placed(s.nodes, s.ord, s.linked) && Bounds(s.head, s.tail, s.ord, s.passed, s.linked)
    requires s.passed <= i < |s.ord|
    ensures Owned(s, s.ord[i])
  {
    if i <= s.linked {
      var path := s.ord[s.passed..i + 1];
      forall j | 0 <= j < |path| - 1 ensures path[j] < |s.nodes| && s.nodes[path[j]].next == Some(path[j + 1]) {
        assert path[j] == s.ord[s.passed + j] && path[j + 1] == s.ord[s.passed + j + 1];
        assert PlacedAt(s.nodes, s.ord, s.linked, s.passed + j);
      }
      assert Chained(s.nodes, path) && path[0] == s.head && path[|path| - 1] == s.ord[i];
    }
  }

  lemma Place(ord: seq<Node>, n: Node) returns (i: nat)
    requires n in ord
    ensures i < |ord| && ord[i] == n
  {
    i :| 0 <= i < |ord| && ord[i] == n;
  }

  lemma StepSetPrev(s: State, t: nat, n: Node, ltail: Node)
    requires Inv(s) && t < |s.ops| && s.ops[t] == SetPrev(n, ltail) && n < |s.nodes|
    ensures Inv(SetOp(s.(nodes := s.nodes[n := s.nodes[n].(prev := Some(ltail))]), t, ReadPrev(n, ltail)))
  {
    hide Distinct, Bounds, Linking, Neighbours, Reached;
    var op := ReadPrev(n, ltail);
    var r := SetOp(s.(nodes := s.nodes[n := s.nodes[n].(prev := Some(ltail))]), t, op);
    assert OpInv(s.nodes, s.ord, s.passed, s.linked, s.ops[t]);
    forall i: nat ensures PlacedAt(r.nodes, r.ord, r.linked, i) {
      assert PlacedAt(s.nodes, s.ord, s.linked, i);
    }
    hide Placed;
    assert r.ord == s.ord + [];
    OthersApart(s, r, t);
    OpsCommit(s, r, [], t, op);
    ApartCommit(s.ops, t, op);
    LinkingCommit(s.ord, s.linked, s.ops, t, op);
  }

  /** Writing one's own private node does not touch another's. */
  lemma OthersApart(s: State, r: State, t: nat)
    requires Apart(s.ops) && t < |s.ops| && Fresh(s.ops[t]).Some? && |r.nodes| == |s.nodes|
    requires forall n: Node :: n < |s.nodes| && n != Fresh(s.ops[t]).value ==> r.nodes[n] == s.nodes[n]
    ensures OthersKept(s, r, [], t)
    ensures OthersKept(s, s, [Fresh(s.ops[t]).value], t)
  {
    hide Fresh;
    forall u | 0 <= u < |s.ops| && u != t && Fresh(s.ops[u]).Some?
      ensures Fresh(s.ops[u]).value != Fresh(s.ops[t]).value
    {
      assert Fresh(s.ops[u]) != Fresh(s.ops[t]);
    }
  }

  lemma StepReadPrev(s: State, t: nat, expired: bool)
    requires Inv(s) && Enabled(s, Step(t, expired)) && s.ops[t].ReadPrev?
    ensures Inv(Apply(s, Step(t, expired)))
  {
    hide Distinct, Linking, Apart, Owned;
    var n, ltail := s.ops[t].node, s.ops[t].ltail;
    assert OpInv(s.nodes, s.ord, s.passed, s.linked, s.ops[t]);
    hide OpsInv;
    var i := Place(s.ord, ltail);
    assert PlacedAt(s.nodes, s.ord, s.linked, i);
    hide Placed;
    if s.nodes[ltail].prev.None? {
      CommitQuiet(s, t, SwingTail(n, ltail));
    } else if expired {
      if s.passed <= i - 1 { OwnedUntilPassed(s, i - 1); }
      assert i - 1 < s.passed;
      CommitQuiet(s, t, SwingTail(n, ltail));
    } else {
      CommitQuiet(s, t, HelpCheck(n, ltail, s.nodes[ltail].prev.value));
    }
  }

  lemma StepHelpCheck(s: State, t: nat, n: Node, ltail: Node, lprev: Node)
    requires Inv(s) && t < |s.ops| && s.ops[t] == HelpCheck(n, ltail, lprev) && lprev < |s.nodes|
    ensures Inv(SetOp(s, t, if s.nodes[lprev].next.None? then HelpStore(n, ltail, lprev) else SwingTail(n, ltail)))
  {
    hide Distinct, Linking, Apart;
    assert OpInv(s.nodes, s.ord, s.passed, s.linked, s.ops[t]);
    hide OpsInv;
    var i :| 0 < i < |s.ord| && s.ord[i - 1] == lprev && s.ord[i] == ltail;
    assert PlacedAt(s.nodes, s.ord, s.linked, i - 1);
    hide Placed;
    CommitQuiet(s, t, if s.nodes[lprev].next.None? then HelpStore(n, ltail, lprev) else SwingTail(n, ltail));
  }

  /** A store to next only ever writes the successor: it links the next node in order, or changes nothing. */
  lemma StoreKeeps(s: State, a: Node, b: Node)
    requires Placed(s.nodes, s.ord, s.linked) && Distinct(s.ord) && Bounds(s.head, s.tail, s.ord, s.passed, s.linked)
    requires Neighbours(s.ord, a, b) && a < |s.nodes|
    ensures var r := StoreNext(s, a, b);
            && Placed(r.nodes, r.ord, r.linked) && Bounds(r.head, r.tail, r.ord, r.passed, r.linked)
            && Reached(r.ord, r.linked, b)
            && (r == s || (r.linked == s.linked + 1 && |s.ord| == s.linked + 2 && b == s.ord[s.linked + 1]))
  {
    var i :| 0 < i < |s.ord| && s.ord[i - 1] == a && s.ord[i] == b;
    var r := StoreNext(s, a, b);
    assert PlacedAt(s.nodes, s.ord, s.linked, i - 1);
    if i - 1 < s.linked {
      assert r.nodes == s.nodes;
    } else {
      assert i - 1 == s.linked;
      forall j: nat ensures PlacedAt(r.nodes, r.ord, r.linked, j) {
        assert PlacedAt(s.nodes, s.ord, s.linked, j);
        assert j < |s.ord| && j != i - 1 ==> s.ord[j] != s.ord[i - 1];
      }
    }
  }

  lemma StorePrivate(s: State, a: Node, b: Node, t: nat)
    requires OpsInv(s.nodes, s.ord, s.passed, s.linked, s.ops) && a in s.ord && a < |s.nodes|
    ensures OthersKept(s, StoreNext(s, a, b), [], t)
    ensures |StoreNext(s, a, b).nodes| == |s.nodes|
    ensures forall n: Node :: n !in s.ord && n < |s.nodes| ==> StoreNext(s, a, b).nodes[n] == s.nodes[n]
  {
    forall u | 0 <= u < |s.ops| && Fresh(s.ops[u]).Some? ensures Fresh(s.ops[u]).value != a {
      assert OpInv(s.nodes, s.ord, s.passed, s.linked, s.ops[u]);
    }
  }

  lemma StepHelpStore(s: State, t: nat, n: Node, ltail: Node, lprev: Node)
    requires Inv(s) && t < |s.ops| && s.ops[t] == HelpStore(n, ltail, lprev) && lprev < |s.nodes|
    ensures Inv(SetOp(StoreNext(s, lprev, ltail), t, SwingTail(n, ltail)))
  {
    assert OpInv(s.nodes, s.ord, s.passed, s.linked, s.ops[t]) && lprev in s.ord;
    hide Placed, Distinct, Bounds, Apart, Neighbours, Reached, StoreNext, OpsInv, Linking;
    var q := StoreNext(s, lprev, ltail);
    StoreKeeps(s, lprev, ltail);
    StorePrivate(s, lprev, ltail, t);
    assert q.ops == s.ops && q.ord == s.ord && q.passed == s.passed && |q.nodes| == |s.nodes|
        by { StoreFrame(s, lprev, ltail); }
    var op := SwingTail(n, ltail);
    var r := SetOp(q, t, op);
    assert r.ord == s.ord + [];
    OpsCommit(s, r, [], t, op);
    ApartCommit(s.ops, t, op);
    LinkingAfterStore(s, q);
    LinkingCommit(q.ord, q.linked, q.ops, t, op);
  }

  lemma StoreFrame(s: State, a: Node, b: Node)
    requires a < |s.nodes|
    ensures var q := StoreNext(s, a, b);
            q.ops == s.ops && q.ord == s.ord && q.passed == s.passed && |q.nodes| == |s.nodes| &&
              q.head == s.head && q.tail == s.tail
  {
  }

  lemma LinkingAfterStore(s: State, q: State)
    requires Linking(s.ord, s.linked, s.ops) && q.ops == s.ops && q.ord == s.ord
    requires q == s || (q.linked == s.linked + 1 && |s.ord| == s.linked + 2)
    ensures Linking(q.ord, q.linked, q.ops)
  {
  }

  lemma SamePlace(ord: seq<Node>, i: nat, j: nat)
    requires Distinct(ord) && i < |ord| && j < |ord| && ord[i] == ord[j]
    ensures i == j
  {
  }

  lemma StepSwingTail(s: State, t: nat, n: Node, ltail: Node)
    requires Inv(s) && t < |s.ops| && s.ops[t] == SwingTail(n, ltail) && s.tail == ltail
    ensures Inv(SetOp(s.(tail := n, ord := s.ord + [n]), t, LinkNext(n, ltail)))
  {
    hide Apart, Linking, Neighbours;
    var op := LinkNext(n, ltail);
    var r := SetOp(s.(tail := n, ord := s.ord + [n]), t, op);
    assert OpInv(s.nodes, s.ord, s.passed, s.linked, s.ops[t]);
    var i :| 0 <= i < |s.ord| && i <= s.linked && s.ord[i] == ltail;
    SamePlace(s.ord, i, |s.ord| - 1);
    hide OpsInv, Reached;
    var last := |s.ord|;
    forall j: nat ensures PlacedAt(r.nodes, r.ord, r.linked, j) {
      assert PlacedAt(s.nodes, s.ord, s.linked, j);
    }
    hide Placed;
    assert r.ord[last - 1] == ltail && r.ord[last] == n;
    NowNeighbours(r.ord, last);
    OthersApart(s, s, t);
    OpsCommit(s, r, [n], t, op);
    ApartCommit(s.ops, t, op);
    NowLinking(r.ord, r.linked, r.ops, t);
  }

  lemma NowNeighbours(ord: seq<Node>, i: nat)
    requires 0 < i < |ord|
    ensures Neighbours(ord, ord[i - 1], ord[i])
  {
  }

  lemma NowLinking(ord: seq<Node>, linked: nat, ops: seq<Op>, t: nat)
    requires |ord| >= 2 && t < |ops| && ops[t] == LinkNext(ord[|ord| - 1], ord[|ord| - 2])
    ensures Linking(ord, linked, ops)
  {
  }

  lemma StepLinkNext(s: State, t: nat, n: Node, ltail: Node)
    requires Inv(s) && t < |s.ops| && s.ops[t] == LinkNext(n, ltail) && ltail < |s.nodes|
    ensures Inv(SetOp(StoreNext(s, ltail, n), t, Enqueued(n)))
  {
    assert OpInv(s.nodes, s.ord, s.passed, s.linked, s.ops[t]) && ltail in s.ord;
    hide Placed, Apart, Neighbours, Reached, StoreNext, OpsInv, Linking;
    var q := StoreNext(s, ltail, n);
    StoreKeeps(s, ltail, n);
    StorePrivate(s, ltail, n, t);
    StoreFrame(s, ltail, n);
    var op := Enqueued(n);
    var r := SetOp(q, t, op);
    assert r.ord == s.ord + [];
    OpsCommit(s, r, [], t, op);
    ApartCommit(s.ops, t, op);
    LinkedNotLinking(s, q, t, n);
  }

  lemma LinkedNotLinking(s: State, q: State, t: nat, n: Node)
    requires Linking(s.ord, s.linked, s.ops) && Distinct(s.ord) && t < |s.ops| && s.ops[t].LinkNext?
    requires s.ops[t].node == n
    requires q.ops == s.ops && q.ord == s.ord && Reached(q.ord, q.linked, n)
    requires q == s || (q.linked == s.linked + 1 && |s.ord| == s.linked + 2)
    ensures Linking(q.ord, q.linked, q.ops[t := Enqueued(n)])
  {
    if |q.ord| == q.linked + 2 {
      var u :| 0 <= u < |s.ops| && s.ops[u] == LinkNext(s.ord[|s.ord| - 1], s.ord[|s.ord| - 2]);
      assert u != t;
      assert q.ops[t := Enqueued(n)][u] == s.ops[u];
    }
  }

  lemma StepReadNext(s: State, t: nat, lhead: Node)
    requires Inv(s) && t < |s.ops| && s.ops[t] == ReadNext(lhead) && lhead < |s.nodes|
    ensures var next := s.nodes[lhead].next;
        Inv(SetOp(s, t, if next.None? then Dequeued(None) else SwingHead(lhead, next.value)))
    ensures s.nodes[lhead].next.None? ==> s.passed == s.linked
  {
    hide Apart, Linking;
    assert OpInv(s.nodes, s.ord, s.passed, s.linked, s.ops[t]);
    hide OpsInv;
    var i :| 0 <= i < |s.ord| && i <= s.passed && s.ord[i] == lhead;
    assert PlacedAt(s.nodes, s.ord, s.linked, i);
    hide Placed, Distinct;
    if s.nodes[lhead].next.None? {
      CommitQuiet(s, t, Dequeued(None));
    } else {
      NowNeighbours(s.ord, i + 1);
      assert s.nodes[lhead].next == Some(s.ord[i + 1]);
      CommitQuiet(s, t, SwingHead(lhead, s.ord[i + 1]));
    }
  }

  lemma StepSwingHead(s: State, t: nat, lhead: Node, lnext: Node)
    requires Inv(s) && t < |s.ops| && s.ops[t] == SwingHead(lhead, lnext) && lnext < |s.nodes| && s.head == lhead
    ensures Inv(SetOp(s.(head := lnext, passed := s.passed + 1), t, Dequeued(s.nodes[lnext].value)))
    ensures s.passed < s.linked && lnext == s.ord[s.passed + 1] && s.nodes[lnext].value.Some?
  {
    hide Apart, Linking;
    assert OpInv(s.nodes, s.ord, s.passed, s.linked, s.ops[t]);
    hide OpsInv;
    var op := Dequeued(s.nodes[lnext].value);
    var r := SetOp(s.(head := lnext, passed := s.passed + 1), t, op);
    var i :| 0 < i < |s.ord| && s.ord[i - 1] == lhead && s.ord[i] == lnext;
    SamePlace(s.ord, i - 1, s.passed);
    var j :| 0 <= j < |s.ord| && j <= s.linked && s.ord[j] == lnext;
    SamePlace(s.ord, i, j);
    assert PlacedAt(s.nodes, s.ord, s.linked, i);
    hide Placed, Distinct, Neighbours, Reached;
    assert r.ord == s.ord + [];
    OpsCommit(s, r, [], t, op);
    ApartCommit(s.ops, t, op);
    LinkingCommit(s.ord, s.linked, s.ops, t, op);
  }

  lemma StepEnqueue(s: State, t: nat)
    requires Inv(s) && Enabled(s, Step(t, false)) && Fresh(s.ops[t]).Some? && !s.ops[t].ReadPrev?
    ensures Inv(Apply(s, Step(t, false)))
  {
    assert OpInv(s.nodes, s.ord, s.passed, s.linked, s.ops[t]);
    hide Placed, Distinct, Linking, Apart, OpsInv, Owned, Neighbours, Reached, StoreNext;
    match s.ops[t] {
      case ReadTail(n) => CommitQuiet(s, t, SetPrev(n, s.tail));
      case SetPrev(n, ltail) => StepSetPrev(s, t, n, ltail);
      case HelpCheck(n, ltail, lprev) => StepHelpCheck(s, t, n, ltail, lprev);
      case HelpStore(n, ltail, lprev) => StepHelpStore(s, t, n, ltail, lprev);
      case SwingTail(n, ltail) =>
        if s.tail == ltail { StepSwingTail(s, t, n, ltail); } else { CommitQuiet(s, t, ReadTail(n)); }
    }
  }

  lemma StepRest(s: State, t: nat)
    requires Inv(s) && Enabled(s, Step(t, false)) && !Fresh(s.ops[t]).Some?
    ensures Inv(Apply(s, Step(t, false)))
  {
    hide Placed, Distinct, Linking, Apart, OpsInv, Owned, Neighbours, Reached, StoreNext;
    match s.ops[t] {
      case LinkNext(n, ltail) => StepLinkNext(s, t, n, ltail);
      case ReadHead =>
        HeadReached(s);
        CommitQuiet(s, t, ReadNext(s.head));
      case ReadNext(lhead) => StepReadNext(s, t, lhead);
      case SwingHead(lhead, lnext) =>
        if s.head == lhead { StepSwingHead(s, t, lhead, lnext); } else { CommitQuiet(s, t, ReadHead); }
    }
  }

  lemma StepInv(s: State, l: Label)
    requires Inv(s) && Enabled(s, l)
    ensures Inv(Apply(s, l))
  {
    hide Inv, Owned, StoreNext, SetOp;
    match l {
      case Enqueue(_, _) => EnqueueInv(s, l);
      case Dequeue(t) => CommitQuiet(s, t, ReadHead);
      case Step(t, expired) =>
        if s.ops[t].ReadPrev? { StepReadPrev(s, t, expired); }
        else if Fresh(s.ops[t]).Some? { StepEnqueue(s, t); }
        else { StepRest(s, t); }
    }
  }

  lemma HeadReached(s: State)
    requires Bounds(s.head, s.tail, s.ord, s.passed, s.linked)
    ensures Reached(s.ord, s.passed, s.head)
  {
  }

  // ---------------------------------------------------------------- runs

  lemma {:induction false} RunInv(s: State, ls: seq<Label>)
    requires Inv(s) && Runnable(s, ls)
    ensures Inv(Run(s, ls))
    decreases |ls|
  {
    hide Inv, Apply, Enabled;
    if ls != [] {
      StepInv(s, ls[0]);
      RunInv(Apply(s, ls[0]), ls[1..]);
    }
  }

  lemma InitInv(s: State)
    requires Init(s)
    ensures Inv(s)
  {
  }

  /** In every reachable state: a node's next is null or its successor in tail order, its prev the predecessor;
      the nodes linked are a prefix of that order and only the last two may lack a next; the unlinked last node's
      enqueue is still in progress; and a finished enqueue's node is linked. */
  lemma EveryRunKeepsOrder(s0: State, ls: seq<Label>)
    requires Init(s0) && Runnable(s0, ls)
    ensures var s := Run(s0, ls);
            && Placed(s.nodes, s.ord, s.linked) && Distinct(s.ord)
            && Bounds(s.head, s.tail, s.ord, s.passed, s.linked)
            && Linking(s.ord, s.linked, s.ops)
            && forall t :: 0 <= t < |s.ops| && s.ops[t].Enqueued? ==> Reached(s.ord, s.linked, s.ops[t].node)
  {
    hide Apply, Run, Runnable, Enabled, Reached, Neighbours, Placed, Distinct, Bounds, Linking;
    InitInv(s0);
    RunInv(s0, ls);
    var s := Run(s0, ls);
    forall t | 0 <= t < |s.ops| && s.ops[t].Enqueued? ensures Reached(s.ord, s.linked, s.ops[t].node) {
      assert OpInv(s.nodes, s.ord, s.passed, s.linked, s.ops[t]);
    }
  }

  // ---------------------------------------------------------------- the queue it stands for

  ghost function ValueOf(nodes: seq<Cell>, n: Node): Option<Value> { if n < |nodes| then nodes[n].value else None }

  ghost function Values(nodes: seq<Cell>, ns: seq<Node>): (vs: seq<Option<Value>>)
    ensures |vs| == |ns|
  {
    seq(|ns|, i requires 0 <= i < |ns| => ValueOf(nodes, ns[i]))
  }

  /** What is linked and not yet dequeued. */
  ghost function Contents(s: State): seq<Option<Value>>
    requires s.passed <= s.linked < |s.ord|
  {
    Values(s.nodes, s.ord[s.passed + 1..s.linked + 1])
  }

  /** What a dequeue answers in this step, if one does. */
  ghost function Answer(s: State, l: Label, r: State): Option<Option<Value>> {
    if l.t < |s.ops| && |r.ops| == |s.ops| && r.ops[l.t].Dequeued? then Some(r.ops[l.t].answer) else None
  }

  /** One step of a first-in first-out queue: nothing happens (and a dequeue that answers `empty` finds it empty);
      or the value of an enqueue in progress is appended; or a dequeue takes and answers the first value. */
  ghost predicate QueueStep(s: State, l: Label, r: State)
    requires s.passed <= s.linked < |s.ord| && r.passed <= r.linked < |r.ord|
  {
    var before, after, answer := Contents(s), Contents(r), Answer(s, l, r);
    || (after == before && (answer == None || (answer == Some(None) && before == [])))
    || (&& answer == None
        && exists u :: 0 <= u < |s.ops| && s.ops[u].LinkNext? && ValueOf(s.nodes, s.ops[u].node).Some?
                     && after == before + [ValueOf(s.nodes, s.ops[u].node)])
    || (before != [] && before[0].Some? && answer == Some(before[0]) && after == before[1..])
  }

  lemma SameValues(nodes: seq<Cell>, now: seq<Cell>, ord: seq<Node>, lo: nat, hi: nat)
    requires lo <= hi <= |ord| && forall n :: n in ord ==> ValueOf(now, n) == ValueOf(nodes, n)
    ensures Values(now, ord[lo..hi]) == Values(nodes, ord[lo..hi])
  {
    assert forall i :: 0 <= i < hi - lo ==> ord[lo..hi][i] == ord[lo + i] && ord[lo + i] in ord;
  }

  /** No step changes a value once its node is in tail order. */
  lemma ValuesKept(s: State, l: Label)
    requires Inv(s) && Enabled(s, l)
    ensures forall n :: n in s.ord ==> ValueOf(Apply(s, l).nodes, n) == ValueOf(s.nodes, n)
  {
    hide Distinct, Bounds, Linking, Apart, OpsInv, Owned;
    forall n | n in s.ord ensures ValueOf(Apply(s, l).nodes, n) == ValueOf(s.nodes, n) {
      var i := Place(s.ord, n);
      assert PlacedAt(s.nodes, s.ord, s.linked, i);
    }
  }

  lemma StoreValues(s: State, a: Node, b: Node)
    requires a < |s.nodes|
    ensures forall n :: n in s.ord ==> ValueOf(StoreNext(s, a, b).nodes, n) == ValueOf(s.nodes, n)
  {
  }

  lemma LinkingValue(s: State) returns (u: nat)
    requires Placed(s.nodes, s.ord, s.linked) && Linking(s.ord, s.linked, s.ops) && |s.ord| == s.linked + 2
    ensures u < |s.ops| && s.ops[u].LinkNext? && s.ops[u].node == s.ord[s.linked + 1]
    ensures ValueOf(s.nodes, s.ops[u].node).Some?
  {
    u :| 0 <= u < |s.ops| && s.ops[u] == LinkNext(s.ord[|s.ord| - 1], s.ord[|s.ord| - 2]);
    assert PlacedAt(s.nodes, s.ord, s.linked, s.linked + 1);
  }

  lemma OneMoreValue(nodes: seq<Cell>, ord: seq<Node>, lo: nat, hi: nat)
    requires lo <= hi < |ord|
    ensures Values(nodes, ord[lo..hi + 1]) == Values(nodes, ord[lo..hi]) + [ValueOf(nodes, ord[hi])]
  {
    assert ord[lo..hi + 1] == ord[lo..hi] + [ord[hi]];
  }

  lemma StoreAppends(s: State, a: Node, b: Node, r: State)
    requires Inv(s) && Neighbours(s.ord, a, b) && a < |s.nodes|
    requires r == StoreNext(s, a, b).(ops := r.ops)
    ensures r.passed <= r.linked < |r.ord|
    ensures || Contents(r) == Contents(s)
            || exists u :: 0 <= u < |s.ops| && s.ops[u].LinkNext? && ValueOf(s.nodes, s.ops[u].node).Some?
                         && Contents(r) == Contents(s) + [ValueOf(s.nodes, s.ops[u].node)]
  {
    hide Placed, Distinct, Apart, OpsInv, Neighbours, Reached, Linking, Values, ValueOf, StoreNext;
    StoreKeeps(s, a, b);
    StoreFrame(s, a, b);
    StoreValues(s, a, b);
    if r.linked == s.linked {
      SameValues(s.nodes, r.nodes, s.ord, s.passed + 1, s.linked + 1);
    } else {
      var u := LinkingValue(s);
      OneMoreValue(s.nodes, s.ord, s.passed + 1, s.linked + 1);
      SameValues(s.nodes, r.nodes, s.ord, s.passed + 1, s.linked + 2);
      assert Contents(r) == Contents(s) + [ValueOf(s.nodes, s.ops[u].node)];
    }
  }

  lemma SwingHeadTakes(s: State, t: nat, lhead: Node, lnext: Node)
    requires Inv(s) && t < |s.ops| && s.ops[t] == SwingHead(lhead, lnext) && lnext < |s.nodes| && s.head == lhead
    ensures Contents(s) != [] && Contents(s)[0] == s.nodes[lnext].value && s.nodes[lnext].value.Some?
    ensures s.passed < s.linked && Contents(s.(passed := s.passed + 1)) == Contents(s)[1..]
  {
    StepSwingHead(s, t, lhead, lnext);
    hide Placed, Distinct, Linking, Apart, OpsInv;
    assert s.ord[s.passed + 1..s.linked + 1][1..] == s.ord[s.passed + 2..s.linked + 1];
  }

  lemma AppendedTail(s: State, n: Node)
    requires s.passed <= s.linked < |s.ord|
    ensures Contents(s.(ord := s.ord + [n])) == Contents(s)
  {
    hide Values;
    var r := s.(ord := s.ord + [n]);
    assert r.ord[r.passed + 1..r.linked + 1] == s.ord[s.passed + 1..s.linked + 1];
  }

  lemma StepIsQueueStep(s: State, l: Label)
    requires Inv(s) && Enabled(s, l)
    ensures Apply(s, l).passed <= Apply(s, l).linked < |Apply(s, l).ord|
    ensures QueueStep(s, l, Apply(s, l))
  {
    hide Placed, Distinct, Linking, Apart, Owned, Neighbours, Reached, Values, ValueOf, Fresh, Private;
    var r := Apply(s, l);
    StepInv(s, l);
    ValuesKept(s, l);
    if l.Step? {
      assert OpInv(s.nodes, s.ord, s.passed, s.linked, s.ops[l.t]);
    }
    if l.Step? && s.ops[l.t].HelpStore? {
      StoreAppends(s, s.ops[l.t].lprev, s.ops[l.t].ltail, r);
    } else if l.Step? && s.ops[l.t].LinkNext? {
      StoreAppends(s, s.ops[l.t].ltail, s.ops[l.t].node, r);
    } else if l.Step? && s.ops[l.t].SwingHead? && s.head == s.ops[l.t].lhead {
      SwingHeadTakes(s, l.t, s.ops[l.t].lhead, s.ops[l.t].lnext);
    } else {
      QuietContents(s, l);
    }
  }

  lemma QuietContents(s: State, l: Label)
    requires Inv(s) && Enabled(s, l)
    requires l.Step? ==>
        !s.ops[l.t].HelpStore? && !s.ops[l.t].LinkNext? && !(s.ops[l.t].SwingHead? && s.head == s.ops[l.t].lhead)
    ensures Apply(s, l).passed <= Apply(s, l).linked < |Apply(s, l).ord|
    ensures QueueStep(s, l, Apply(s, l))
  {
    hide Placed, Distinct, Linking, Apart, OpsInv, Owned, Values, ValueOf;
    var r := Apply(s, l);
    ValuesKept(s, l);
    if l.Step? && s.ops[l.t].SwingTail? && s.tail == s.ops[l.t].ltail { AppendedTail(s, s.ops[l.t].node); }
    if l.Step? && s.ops[l.t].ReadNext? { StepReadNext(s, l.t, s.ops[l.t].lhead); }
    SameValues(s.nodes, r.nodes, s.ord, s.passed + 1, s.linked + 1);
  }

  /** Each call in progress can always take its next step: no null or dangling node is ever touched. */
  lemma NoThreadIsStuck(s0: State, ls: seq<Label>, t: nat)
    requires Init(s0) && Runnable(s0, ls) && t < |Run(s0, ls).ops|
    ensures Enabled(Run(s0, ls), Step(t, false)) <==> !Resting(Run(s0, ls).ops[t])
  {
    hide Apply, Run, Runnable, Inv, Enabled;
    InitInv(s0);
    RunInv(s0, ls);
    StepPossible(Run(s0, ls), t);
  }

  lemma StepPossible(s: State, t: nat)
    requires Inv(s) && t < |s.ops|
    ensures Enabled(s, Step(t, false)) <==> !Resting(s.ops[t])
  {
    hide Distinct, Linking, Apart, Owned;
    var op := s.ops[t];
    assert OpInv(s.nodes, s.ord, s.passed, s.linked, op);
    hide OpsInv;
    forall n | n in s.ord ensures n < |s.nodes| {
      var i := Place(s.ord, n);
      assert PlacedAt(s.nodes, s.ord, s.linked, i);
    }
    hide Placed;
    assert s.ord[0] in s.ord;
    match op {
      case LinkNext(n, ltail) => assert n in s.ord && ltail in s.ord;
      case HelpCheck(_, ltail, lprev) => assert lprev in s.ord;
      case HelpStore(_, ltail, lprev) => assert lprev in s.ord;
      case ReadNext(lhead) => assert lhead in s.ord;
      case SwingHead(_, lnext) => assert lnext in s.ord;
      case _ =>
    }
  }
}
