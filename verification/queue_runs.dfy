/** Whole runs of the DoubleLink queue, told from what the threads were called with and what they answered: the
    values that dequeues answer are those of the enqueue calls, each call's once, first in first out.
 */
module QueueRuns {
  import opened Options
  import opened DoubleLinkQueue

  /** The state after the first m steps. */
  ghost function At(s: State, ls: seq<Label>, m: nat): State
    requires Runnable(s, ls) && m <= |ls|
    decreases m
  {
    if m == 0 then s else At(Apply(s, ls[0]), ls[1..], m - 1)
  }

  lemma {:induction false} AtNext(s: State, ls: seq<Label>, m: nat)
    requires Runnable(s, ls) && m < |ls|
    ensures Enabled(At(s, ls, m), ls[m]) && At(s, ls, m + 1) == Apply(At(s, ls, m), ls[m])
    decreases m
  {
    hide Enabled, Apply;
    var r := Apply(s, ls[0]);
    if m == 0 {
      assert At(r, ls[1..], 0) == r;
    } else {
      AtNext(r, ls[1..], m - 1);
    }
  }

  lemma {:induction false} AtInv(s0: State, ls: seq<Label>, m: nat)
    requires Init(s0) && Runnable(s0, ls) && m <= |ls|
    ensures Inv(At(s0, ls, m)) && |At(s0, ls, m).ops| == |s0.ops|
  {
    hide Inv, Apply, Enabled, Runnable, Init;
    if m == 0 {
      InitInv(s0);
    } else {
      hide At;
      AtInv(s0, ls, m - 1);
      AtNext(s0, ls, m - 1);
      StepInv(At(s0, ls, m - 1), ls[m - 1]);
      SameThreads(At(s0, ls, m - 1), ls[m - 1]);
    }
  }

  lemma SameThreads(s: State, l: Label)
    requires Enabled(s, l)
    ensures l.t < |s.ops| && |Apply(s, l).ops| == |s.ops|
    ensures forall u :: 0 <= u < |s.ops| && u != l.t ==> Apply(s, l).ops[u] == s.ops[u]
  {
    hide Owned, Touches;
  }

  // ---------------------------------------------------------------- the calls and their nodes

  /** How many of the first m labels call enqueue. */
  ghost function Enqueues(ls: seq<Label>, m: nat): nat
    requires m <= |ls|
  {
    if m == 0 then 0 else Enqueues(ls, m - 1) + (if ls[m - 1].Enqueue? then 1 else 0)
  }

  /** The node that the call of label i allocates. */
  ghost function NodeOf(ls: seq<Label>, i: nat): Node
    requires i < |ls|
  {
    1 + Enqueues(ls, i)
  }

  lemma {:induction false} EnqueuesGrow(ls: seq<Label>, i: nat, m: nat)
    requires i < m <= |ls|
    ensures Enqueues(ls, i) + (if ls[i].Enqueue? then 1 else 0) <= Enqueues(ls, m)
  {
    if i < m - 1 { EnqueuesGrow(ls, i, m - 1); }
  }

  /** The call that allocated node n. */
  lemma {:induction false} CallOf(ls: seq<Label>, m: nat, n: Node) returns (i: nat)
    requires m <= |ls| && 1 <= n <= Enqueues(ls, m)
    ensures i < m && ls[i].Enqueue? && NodeOf(ls, i) == n
  {
    if Enqueues(ls, m - 1) < n { i := m - 1; } else { i := CallOf(ls, m - 1, n); }
  }

  lemma SameNode(ls: seq<Label>, i: nat, j: nat)
    requires i < |ls| && j < |ls| && ls[i].Enqueue? && ls[j].Enqueue? && NodeOf(ls, i) == NodeOf(ls, j)
    ensures i == j
  {
    hide Enqueues;
    if i < j { EnqueuesGrow(ls, i, j); } else if j < i { EnqueuesGrow(ls, j, i); }
  }

  /** A step allocates a node for an enqueue, with the value it was called with, and changes no other value. */
  lemma ValuesStay(s: State, l: Label)
    requires Enabled(s, l)
    ensures |Apply(s, l).nodes| == |s.nodes| + (if l.Enqueue? then 1 else 0)
    ensures forall n: Node :: n < |s.nodes| ==> Apply(s, l).nodes[n].value == s.nodes[n].value
    ensures l.Enqueue? ==> Apply(s, l).nodes[|s.nodes|].value == Some(l.v)
  {
    hide Owned;
  }

  lemma {:induction false} NodesAt(s0: State, ls: seq<Label>, m: nat)
    requires Init(s0) && Runnable(s0, ls) && m <= |ls|
    ensures |At(s0, ls, m).nodes| == 1 + Enqueues(ls, m)
  {
    hide Apply, Enabled, Runnable;
    if m > 0 {
      hide At, Init;
      NodesAt(s0, ls, m - 1);
      AtNext(s0, ls, m - 1);
      ValuesStay(At(s0, ls, m - 1), ls[m - 1]);
    }
  }

  /** From its allocation on, the node of an enqueue holds the value that the enqueue was called with. */
  lemma {:induction false} HoldsItsValue(s0: State, ls: seq<Label>, i: nat, m: nat)
    requires Init(s0) && Runnable(s0, ls) && i < m <= |ls| && ls[i].Enqueue?
    ensures NodeOf(ls, i) < |At(s0, ls, m).nodes| && At(s0, ls, m).nodes[NodeOf(ls, i)].value == Some(ls[i].v)
  {
    hide Apply, Enabled, Runnable, At, Init, Enqueues;
    NodesAt(s0, ls, m - 1);
    AtNext(s0, ls, m - 1);
    ValuesStay(At(s0, ls, m - 1), ls[m - 1]);
    if i < m - 1 { HoldsItsValue(s0, ls, i, m - 1); }
  }

  /** Label i calls what thread ls[i].t is at, or has last returned from, after m steps. */
  ghost predicate InCall(ls: seq<Label>, i: nat, m: nat) {
    && i < m <= |ls| && !ls[i].Step?
    && forall j :: i < j < m && ls[j].t == ls[i].t ==> ls[j].Step?
  }

  function NodeIn(op: Op): Option<Node> {
    match op
    case LinkNext(n, _) => Some(n)
    case Enqueued(n) => Some(n)
    case _ => Fresh(op)
  }

  predicate Dequeueing(op: Op) { op.ReadHead? || op.ReadNext? || op.SwingHead? || op.Dequeued? }

  lemma StartsCall(s: State, l: Label)
    requires Enabled(s, l) && !l.Step?
    ensures |Apply(s, l).ops| == |s.ops|
    ensures if l.Enqueue? then NodeIn(Apply(s, l).ops[l.t]) == Some(|s.nodes|) else Dequeueing(Apply(s, l).ops[l.t])
  {
  }

  lemma KeepsCall(s: State, l: Label, u: nat)
    requires Enabled(s, l) && u < |s.ops| && (l.t == u ==> l.Step?)
    ensures |Apply(s, l).ops| == |s.ops|
    ensures !s.ops[u].Idle? ==> NodeIn(Apply(s, l).ops[u]) == NodeIn(s.ops[u])
    ensures Dequeueing(Apply(s, l).ops[u]) == Dequeueing(s.ops[u])
  {
    hide Owned, Touches;
  }

  /** What a thread is at is what it was last called with: an enqueue, with the node of that call, or a dequeue. */
  lemma {:induction false} CallIsInvoked(s0: State, ls: seq<Label>, i: nat, m: nat)
    requires Init(s0) && Runnable(s0, ls) && InCall(ls, i, m)
    ensures ls[i].t < |At(s0, ls, m).ops|
    ensures ls[i].Enqueue? ==> NodeIn(At(s0, ls, m).ops[ls[i].t]) == Some(NodeOf(ls, i))
    ensures ls[i].Dequeue? ==> Dequeueing(At(s0, ls, m).ops[ls[i].t])
  {
    hide Apply, Enabled, Runnable, At, Init, Enqueues;
    AtNext(s0, ls, m - 1);
    SameThreads(At(s0, ls, m - 1), ls[m - 1]);
    if i < m - 1 {
      CallIsInvoked(s0, ls, i, m - 1);
      KeepsCall(At(s0, ls, m - 1), ls[m - 1], ls[i].t);
    } else {
      StartsCall(At(s0, ls, i), ls[i]);
      NodesAt(s0, ls, i);
    }
  }

  lemma AllIdleAtFirst(s0: State, ls: seq<Label>)
    requires Init(s0) && Runnable(s0, ls)
    ensures forall t :: 0 <= t < |At(s0, ls, 0).ops| ==> At(s0, ls, 0).ops[t].Idle?
  {
    hide Runnable;
  }

  lemma StaysIdle(s: State, l: Label, t: nat)
    requires Enabled(s, l) && t < |s.ops| && s.ops[t].Idle? && !(l.t == t && !l.Step?)
    ensures |Apply(s, l).ops| == |s.ops| && Apply(s, l).ops[t].Idle?
  {
    hide Owned, Touches;
  }

  /** A thread that is not idle was called. */
  lemma {:induction false} Invocation(s0: State, ls: seq<Label>, t: nat, m: nat) returns (i: nat)
    requires Init(s0) && Runnable(s0, ls) && m <= |ls| && t < |At(s0, ls, m).ops| && !At(s0, ls, m).ops[t].Idle?
    ensures InCall(ls, i, m) && ls[i].t == t
  {
    hide Runnable, Apply, At, Init, Enabled;
    AllIdleAtFirst(s0, ls);
    if m == 0 {
      assert false;
    }
    AtNext(s0, ls, m - 1);
    SameThreads(At(s0, ls, m - 1), ls[m - 1]);
    if !ls[m - 1].Step? && ls[m - 1].t == t {
      i := m - 1;
    } else {
      if At(s0, ls, m - 1).ops[t].Idle? { StaysIdle(At(s0, ls, m - 1), ls[m - 1], t); }
      i := Invocation(s0, ls, t, m - 1);
    }
  }

  // ---------------------------------------------------------------- each step is a queue's

  /** Label i calls an enqueue that is still under way after m steps. */
  ghost predicate UnderWay(s0: State, ls: seq<Label>, i: nat, m: nat)
    requires Runnable(s0, ls)
  {
    InCall(ls, i, m) && ls[i].Enqueue? && ls[i].t < |At(s0, ls, m).ops| && !Resting(At(s0, ls, m).ops[ls[i].t])
  }

  /** The answer that step m gives, if a dequeue answers in it: a value, or that the queue is empty. */
  ghost function AnswerAt(s0: State, ls: seq<Label>, m: nat): Option<Option<Value>>
    requires Runnable(s0, ls) && m < |ls|
  {
    Answer(At(s0, ls, m), ls[m], At(s0, ls, m + 1))
  }

  ghost predicate HasContents(s: State) { s.passed <= s.linked < |s.ord| }

  /** Step m of a run is a step of a first-in first-out queue: nothing happens (and a dequeue that answers `empty`
      finds it empty); or the value of an enqueue under way is appended, as the enqueue was called with it; or a
      dequeue takes and answers the first value. */
  ghost predicate QueueStepAt(s0: State, ls: seq<Label>, m: nat)
    requires Runnable(s0, ls) && m < |ls| && HasContents(At(s0, ls, m)) && HasContents(At(s0, ls, m + 1))
  {
    var before, after, answer := Contents(At(s0, ls, m)), Contents(At(s0, ls, m + 1)), AnswerAt(s0, ls, m);
    || (after == before && (answer == None || (answer == Some(None) && before == [])))
    || (answer == None && exists i :: 0 <= i < m && UnderWay(s0, ls, i, m) && after == before + [Some(ls[i].v)])
    || (before != [] && before[0].Some? && answer == Some(before[0]) && after == before[1..])
  }

  lemma EveryStepIsAQueueStep(s0: State, ls: seq<Label>, m: nat)
    requires Init(s0) && Runnable(s0, ls) && m < |ls|
    ensures HasContents(At(s0, ls, m)) && HasContents(At(s0, ls, m + 1)) && QueueStepAt(s0, ls, m)
    ensures AnswerAt(s0, ls, m).Some? ==>
              exists i :: 0 <= i < m && InCall(ls, i, m) && ls[i] == Dequeue(ls[m].t)
                && !Resting(At(s0, ls, m).ops[ls[m].t])
  {
    hide Apply, Enabled, At, Runnable, Init, Placed, Distinct, Linking, Apart, OpsInv, Enqueues, Contents, InCall,
         ValueOf;
    var s := At(s0, ls, m);
    AtInv(s0, ls, m);
    AtNext(s0, ls, m);
    StepIsQueueStep(s, ls[m]);
    var before, after := Contents(s), Contents(At(s0, ls, m + 1));
    forall u | 0 <= u < |s.ops| && s.ops[u].LinkNext? && after == before + [ValueOf(s.nodes, s.ops[u].node)]
      ensures exists i :: 0 <= i < m && UnderWay(s0, ls, i, m) && after == before + [Some(ls[i].v)]
    {
      var i := LinkingCall(s0, ls, u, m);
    }
    if AnswerAt(s0, ls, m).Some? { AnsweringCall(s0, ls, m); }
  }

  lemma LinkingCall(s0: State, ls: seq<Label>, u: nat, m: nat) returns (i: nat)
    requires Init(s0) && Runnable(s0, ls) && m < |ls| && u < |At(s0, ls, m).ops| && At(s0, ls, m).ops[u].LinkNext?
    ensures i < m && UnderWay(s0, ls, i, m)
    ensures ValueOf(At(s0, ls, m).nodes, At(s0, ls, m).ops[u].node) == Some(ls[i].v)
  {
    hide Apply, Enabled, At, Runnable, Init, Enqueues;
    i := Invocation(s0, ls, u, m);
    CallIsInvoked(s0, ls, i, m);
    assert ls[i].Enqueue?;
    HoldsItsValue(s0, ls, i, m);
  }

  lemma AnsweringCall(s0: State, ls: seq<Label>, m: nat)
    requires Init(s0) && Runnable(s0, ls) && m < |ls| && AnswerAt(s0, ls, m).Some?
    ensures ls[m].t < |At(s0, ls, m).ops|
    ensures exists i :: 0 <= i < m && InCall(ls, i, m) && ls[i] == Dequeue(ls[m].t)
                && !Resting(At(s0, ls, m).ops[ls[m].t])
  {
    hide Apply, Enabled, At, Runnable, Init, Enqueues;
    AtNext(s0, ls, m);
    AnswersAreSteps(At(s0, ls, m), ls[m]);
    var i := Invocation(s0, ls, ls[m].t, m);
    CallIsInvoked(s0, ls, i, m);
  }

  lemma AnswersAreSteps(s: State, l: Label)
    requires Enabled(s, l) && Answer(s, l, Apply(s, l)).Some?
    ensures l.Step? && l.t < |s.ops| && Dequeueing(s.ops[l.t]) && !Resting(s.ops[l.t])
  {
    hide Owned, Touches;
  }

  // ---------------------------------------------------------------- none lost, none repeated, first in first out

  /** The values answered in the first m steps, in the order of the answers. */
  ghost function Taken(s0: State, ls: seq<Label>, m: nat): seq<Value>
    requires Runnable(s0, ls) && m <= |ls|
  {
    if m == 0 then [] else
      var a := AnswerAt(s0, ls, m - 1);
      Taken(s0, ls, m - 1) + (if a.Some? && a.value.Some? then [a.value.value] else [])
  }

  /** A step takes the first node that is linked and not passed, and answers its value; or it passes none. */
  lemma StepTakes(s: State, l: Label)
    requires Inv(s) && Enabled(s, l)
    ensures var r, a := Apply(s, l), Answer(s, l, Apply(s, l));
            && r.passed == s.passed + (if a.Some? && a.value.Some? then 1 else 0)
            && (a.Some? && a.value.Some? ==> r.passed < |s.ord| && a.value == ValueOf(s.nodes, s.ord[r.passed]))
            && (a == Some(None) ==> s.passed == s.linked)
  {
    hide Owned, Placed, Distinct, Linking, Apart, Neighbours, Reached;
    if l.Step? && s.ops[l.t].ReadNext? {
      StepReadNext(s, l.t, s.ops[l.t].lhead);
    } else if l.Step? && s.ops[l.t].SwingHead? && s.head == s.ops[l.t].lhead {
      StepSwingHead(s, l.t, s.ops[l.t].lhead, s.ops[l.t].lnext);
    }
  }

  /** Tail order only grows at its end. */
  lemma OrderGrows(s: State, l: Label)
    requires Enabled(s, l)
    ensures var r := Apply(s, l);
            && |s.ord| <= |r.ord| && r.ord[..|s.ord|] == s.ord && s.passed <= r.passed && s.linked <= r.linked
  {
    hide Owned, Touches;
  }

  lemma {:induction false} OrderLater(s0: State, ls: seq<Label>, i: nat, m: nat)
    requires Init(s0) && Runnable(s0, ls) && i <= m <= |ls|
    ensures var s, r := At(s0, ls, i), At(s0, ls, m);
            && |s.ord| <= |r.ord| && r.ord[..|s.ord|] == s.ord && s.passed <= r.passed && s.linked <= r.linked
  {
    hide Apply, Enabled, Runnable, At, Init;
    if i < m {
      OrderLater(s0, ls, i, m - 1);
      AtNext(s0, ls, m - 1);
      OrderGrows(At(s0, ls, m - 1), ls[m - 1]);
    }
  }

  lemma {:induction false} TakenIsPassed(s0: State, ls: seq<Label>, m: nat)
    requires Init(s0) && Runnable(s0, ls) && m <= |ls|
    ensures var s := At(s0, ls, m);
            && |Taken(s0, ls, m)| == s.passed < |s.ord|
            && forall k :: 0 <= k < s.passed ==> ValueOf(s.nodes, s.ord[k + 1]) == Some(Taken(s0, ls, m)[k])
  {
    hide Apply, Enabled, Runnable, ValueOf, Answer;
    if m > 0 {
      hide At, Init;
      var s := At(s0, ls, m - 1);
      TakenIsPassed(s0, ls, m - 1);
      AtInv(s0, ls, m - 1);
      AtInv(s0, ls, m);
      hide Placed, Distinct, Linking, Apart, OpsInv;
      AtNext(s0, ls, m - 1);
      StepTakes(s, ls[m - 1]);
      OrderGrows(s, ls[m - 1]);
      ValuesKept(s, ls[m - 1]);
    }
  }

  /** The call of label i has returned within the first m steps. */
  ghost predicate Returned(s0: State, ls: seq<Label>, i: nat, m: nat)
    requires Runnable(s0, ls)
  {
    exists e: nat :: e <= m && ReturnedAt(s0, ls, i, e)
  }

  ghost predicate ReturnedAt(s0: State, ls: seq<Label>, i: nat, e: nat)
    requires Runnable(s0, ls)
  {
    InCall(ls, i, e) && ls[i].t < |At(s0, ls, e).ops| && Resting(At(s0, ls, e).ops[ls[i].t])
  }

  /** An enqueue that has returned has its node linked. */
  lemma ReturnedIsLinked(s0: State, ls: seq<Label>, i: nat, m: nat) returns (k: nat)
    requires Init(s0) && Runnable(s0, ls) && m <= |ls| && Returned(s0, ls, i, m) && i < |ls| && ls[i].Enqueue?
    ensures var s := At(s0, ls, m); k <= s.linked && k < |s.ord| && s.ord[k] == NodeOf(ls, i)
  {
    hide Apply, Enabled, Runnable, At, Init, Enqueues, Placed, Distinct, Linking, Apart;
    var e: nat :| e <= m && ReturnedAt(s0, ls, i, e);
    var s := At(s0, ls, e);
    CallIsInvoked(s0, ls, i, e);
    AtInv(s0, ls, e);
    assert OpInv(s.nodes, s.ord, s.passed, s.linked, s.ops[ls[i].t]);
    k :| 0 <= k < |s.ord| && k <= s.linked && s.ord[k] == NodeOf(ls, i);
    OrderLater(s0, ls, e, m);
    assert At(s0, ls, m).ord[..|s.ord|][k] == s.ord[k];
  }

  /** `calls` lists the enqueue calls of the run, by label, in the order of the queue: each call once; every call
      that has returned; a call that returned before another began before that other; and the calls whose values
      have been taken first, as they were taken, each begun before it was taken. */
  ghost predicate InQueueOrder(s0: State, ls: seq<Label>, calls: seq<nat>)
    requires Runnable(s0, ls)
  {
    && (forall k :: 0 <= k < |calls| ==> calls[k] < |ls| && ls[calls[k]].Enqueue?)
    && (forall k, h :: 0 <= k < h < |calls| ==> calls[k] != calls[h])
    && (forall i :: 0 <= i < |ls| && ls[i].Enqueue? && Returned(s0, ls, i, |ls|) ==> i in calls)
    && (forall k, h ::
          0 <= k < |calls| && 0 <= h < |calls| && Returned(s0, ls, calls[k], calls[h]) ==> k < h)
    && |Taken(s0, ls, |ls|)| <= |calls|
    && forall k :: 0 <= k < |Taken(s0, ls, |ls|)| ==> Taken(s0, ls, |ls|)[k] == ls[calls[k]].v
  }

  /** A dequeue that answers `empty` in step m: the value of every enqueue that had returned was taken before. */
  ghost predicate EmptyIsTrue(s0: State, ls: seq<Label>, calls: seq<nat>, m: nat)
    requires Runnable(s0, ls) && m < |ls|
  {
    AnswerAt(s0, ls, m) == Some(None) ==>
      && |Taken(s0, ls, m)| <= |calls|
      && forall i :: 0 <= i < |ls| && ls[i].Enqueue? && Returned(s0, ls, i, m) ==> i in calls[..|Taken(s0, ls, m)|]
  }

  /** A value is taken only after its enqueue has been called. */
  ghost predicate TakenAfterCall(s0: State, ls: seq<Label>, calls: seq<nat>, m: nat)
    requires Runnable(s0, ls) && m <= |ls|
  {
    |Taken(s0, ls, m)| <= |calls| && forall k :: 0 <= k < |Taken(s0, ls, m)| ==> calls[k] < m
  }

  /** The calls behind the nodes in tail order, but the first node. */
  ghost predicate Behind(ls: seq<Label>, ord: seq<Node>, calls: seq<nat>) {
    && |ord| == |calls| + 1
    && forall k :: 0 <= k < |calls| ==> calls[k] < |ls| && ls[calls[k]].Enqueue? && NodeOf(ls, calls[k]) == ord[k + 1]
  }

  lemma NodesInOrder(s0: State, ls: seq<Label>, m: nat, k: nat)
    requires Init(s0) && Runnable(s0, ls) && m <= |ls| && k < |At(s0, ls, m).ord|
    ensures At(s0, ls, m).ord[k] <= Enqueues(ls, m) && (k > 0 ==> At(s0, ls, m).ord[k] >= 1)
  {
    hide Apply, Enabled, Runnable, At, Enqueues, Linking, Apart, OpsInv;
    AtInv(s0, ls, m);
    NodesAt(s0, ls, m);
    var s := At(s0, ls, m);
    assert PlacedAt(s.nodes, s.ord, s.linked, k);
    if k > 0 {
      FirstStays(s0, ls, m);
    }
  }

  lemma FirstStays(s0: State, ls: seq<Label>, m: nat)
    requires Init(s0) && Runnable(s0, ls) && m <= |ls|
    ensures |At(s0, ls, m).ord| > 0 && At(s0, ls, m).ord[0] == 0
  {
    hide Apply, Enabled, Runnable, Enqueues;
    OrderLater(s0, ls, 0, m);
    assert At(s0, ls, m).ord[..1][0] == 0;
  }

  lemma CallsBehind(s0: State, ls: seq<Label>) returns (calls: seq<nat>)
    requires Init(s0) && Runnable(s0, ls)
    ensures Behind(ls, At(s0, ls, |ls|).ord, calls)
  {
    hide Apply, Enabled, Runnable, At, Init, Enqueues, NodeOf;
    FirstStays(s0, ls, |ls|);
    var ord := At(s0, ls, |ls|).ord;
    calls := [];
    while |calls| < |ord| - 1
      invariant |calls| <= |ord| - 1
      invariant Behind(ls, ord[..|calls| + 1], calls)
    {
      NodesInOrder(s0, ls, |ls|, |calls| + 1);
      var i := CallOf(ls, |ls|, ord[|calls| + 1]);
      calls := calls + [i];
    }
    assert ord[..|ord|] == ord;
  }

  lemma ValueBehind(s0: State, ls: seq<Label>, calls: seq<nat>, k: nat)
    requires Init(s0) && Runnable(s0, ls) && Behind(ls, At(s0, ls, |ls|).ord, calls) && k < |calls|
    ensures var s := At(s0, ls, |ls|); ValueOf(s.nodes, s.ord[k + 1]) == Some(ls[calls[k]].v)
  {
    hide Apply, Enabled, Runnable, At, Init, NodeOf;
    HoldsItsValue(s0, ls, calls[k], |ls|);
  }

  lemma CallsDistinct(s0: State, ls: seq<Label>, calls: seq<nat>)
    requires Init(s0) && Runnable(s0, ls) && Behind(ls, At(s0, ls, |ls|).ord, calls)
    ensures forall k, h :: 0 <= k < h < |calls| ==> calls[k] != calls[h]
  {
    hide Apply, Enabled, Runnable, At, Init, Enqueues, Placed, Linking, Apart, OpsInv, Bounds;
    AtInv(s0, ls, |ls|);
    var ord := At(s0, ls, |ls|).ord;
    forall k, h | 0 <= k < h < |calls| ensures calls[k] != calls[h] {
      assert ord[k + 1] != ord[h + 1];
    }
  }

  /** The place of a returned enqueue among the calls: among those linked by then. */
  lemma ReturnedIsListed(s0: State, ls: seq<Label>, calls: seq<nat>, i: nat, m: nat) returns (k: nat)
    requires Init(s0) && Runnable(s0, ls) && Behind(ls, At(s0, ls, |ls|).ord, calls)
    requires m <= |ls| && i < |ls| && ls[i].Enqueue? && Returned(s0, ls, i, m)
    ensures k < |calls| && k + 1 < |At(s0, ls, m).ord| && k + 1 <= At(s0, ls, m).linked && calls[k] == i
  {
    hide Apply, Enabled, Runnable, At, Init, Enqueues;
    var p := ReturnedIsLinked(s0, ls, i, m);
    OrderLater(s0, ls, m, |ls|);
    assert At(s0, ls, |ls|).ord[..|At(s0, ls, m).ord|][p] == NodeOf(ls, i);
    FirstStays(s0, ls, m);
    k := p - 1;
    SameNode(ls, calls[k], i);
  }

  /** A call that comes after the m-th step has its place after all that are in the queue by then. */
  lemma LaterCallsBehind(s0: State, ls: seq<Label>, calls: seq<nat>, h: nat, m: nat)
    requires Init(s0) && Runnable(s0, ls) && Behind(ls, At(s0, ls, |ls|).ord, calls)
    requires m <= |ls| && h < |calls| && m <= calls[h]
    ensures h + 1 >= |At(s0, ls, m).ord|
  {
    hide Apply, Enabled, Runnable, At, Init, Enqueues;
    OrderLater(s0, ls, m, |ls|);
    var ord := At(s0, ls, m).ord;
    if h + 1 < |ord| {
      assert At(s0, ls, |ls|).ord[..|ord|][h + 1] == ord[h + 1];
      NodesInOrder(s0, ls, m, h + 1);
      if m < calls[h] { EnqueuesGrow(ls, m, calls[h]); }
    }
  }

  /** Over every run: the enqueue calls have an order, with each call once and every returned call in it, that
      keeps the order in which they ran, and in which their values are taken; what is in the queue are the values of
      the calls that follow, in that order, but for at most one that is still being linked; and `empty` is answered
      only when every enqueue that has returned has been taken. */
  lemma NoneLostNoneRepeated(s0: State, ls: seq<Label>) returns (calls: seq<nat>)
    requires Init(s0) && Runnable(s0, ls)
    ensures InQueueOrder(s0, ls, calls)
    ensures forall m :: 0 <= m < |ls| ==> EmptyIsTrue(s0, ls, calls, m)
    ensures forall m :: 0 <= m <= |ls| ==> TakenAfterCall(s0, ls, calls, m)
    ensures HasContents(At(s0, ls, |ls|))
    ensures var contents, taken := Contents(At(s0, ls, |ls|)), |Taken(s0, ls, |ls|)|;
            && taken + |contents| <= |calls| <= taken + |contents| + 1
            && forall k :: 0 <= k < |contents| ==> contents[k] == Some(ls[calls[taken + k]].v)
  {
    hide Apply, Enabled, Runnable, At, Init, NodeOf, Taken, Returned, Placed, Distinct, Linking, Apart, OpsInv, ValueOf,
         AnswerAt;
    calls := CallsBehind(s0, ls);
    var s := At(s0, ls, |ls|);
    AtInv(s0, ls, |ls|);
    TakenIsPassed(s0, ls, |ls|);
    forall k | 0 <= k < |calls| ensures ValueOf(s.nodes, s.ord[k + 1]) == Some(ls[calls[k]].v) {
      ValueBehind(s0, ls, calls, k);
    }
    CallsDistinct(s0, ls, calls);
    forall i | 0 <= i < |ls| && ls[i].Enqueue? && Returned(s0, ls, i, |ls|) ensures i in calls {
      var k := ReturnedIsListed(s0, ls, calls, i, |ls|);
    }
    forall k, h | 0 <= k < |calls| && 0 <= h < |calls| && Returned(s0, ls, calls[k], calls[h]) ensures k < h {
      var p := ReturnedIsListed(s0, ls, calls, calls[k], calls[h]);
      LaterCallsBehind(s0, ls, calls, h, calls[h]);
    }
    forall m | 0 <= m < |ls| ensures EmptyIsTrue(s0, ls, calls, m) { EmptyMeansTaken(s0, ls, calls, m); }
    forall m | 0 <= m <= |ls| ensures TakenAfterCall(s0, ls, calls, m) { TakesWhatWasCalled(s0, ls, calls, m); }
  }

  lemma EmptyMeansTaken(s0: State, ls: seq<Label>, calls: seq<nat>, m: nat)
    requires Init(s0) && Runnable(s0, ls) && Behind(ls, At(s0, ls, |ls|).ord, calls) && m < |ls|
    ensures EmptyIsTrue(s0, ls, calls, m)
  {
    hide Apply, Enabled, Runnable, At, Init, NodeOf, Taken, Returned, Placed, Distinct, Linking, Apart, OpsInv, Bounds,
         Answer, Behind;
    if AnswerAt(s0, ls, m) == Some(None) {
      TakesWhatWasCalled(s0, ls, calls, m);
      AtInv(s0, ls, m);
      AtNext(s0, ls, m);
      StepTakes(At(s0, ls, m), ls[m]);
      TakenIsPassed(s0, ls, m);
      forall i | 0 <= i < |ls| && ls[i].Enqueue? && Returned(s0, ls, i, m) ensures i in calls[..|Taken(s0, ls, m)|] {
        var k := ReturnedIsListed(s0, ls, calls, i, m);
        assert calls[..|Taken(s0, ls, m)|][k] == i;
      }
    }
  }

  lemma TakesWhatWasCalled(s0: State, ls: seq<Label>, calls: seq<nat>, m: nat)
    requires Init(s0) && Runnable(s0, ls) && Behind(ls, At(s0, ls, |ls|).ord, calls) && m <= |ls|
    ensures TakenAfterCall(s0, ls, calls, m)
  {
    hide Apply, Enabled, Runnable, At, Init, NodeOf, Taken;
    TakenIsPassed(s0, ls, m);
    OrderLater(s0, ls, m, |ls|);
    forall k | 0 <= k < |Taken(s0, ls, m)| ensures calls[k] < m {
      if calls[k] >= m { LaterCallsBehind(s0, ls, calls, k, m); }
    }
  }
}
