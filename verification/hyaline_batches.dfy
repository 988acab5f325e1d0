/** How a Hyaline batch lies in memory (include/cdrc/internal/smr/acquire_retire_hyaline.h).

    A node has four words, two of them shared: the first node of a batch, REFS, keeps the count in the word in which the
    others keep their link to the rest of the batch, and the action in the word in which the others keep their link in a
    reservation list. So add_batch must not run into REFS, and free_batch must know where to stop.
 */
module HyalineBatches {

  const REFC_PROTECT: int := 0x4000_0000_0000_0000

  /** refc or bnext; next or decrement. */
  datatype First = Refc(n: int) | Bnext(to: Node?)
  datatype Second = Next(p: Node?) | Decrement(action: nat)

  class Node {
    const obj: nat
    var first: First
    var second: Second
    var blink: Node?

    constructor (obj: nat)
      ensures this.obj == obj && first == Bnext(null) && second == Next(null) && blink == null
    {
      this.obj := obj;
      first, second, blink := Bnext(null), Next(null), null;
    }
  }

  /** The link read as a pointer: a count of zero reads as null; no other count may be read so. */
  function AsPointer(w: First): Node?
    requires w.Bnext? || w == Refc(0)
  {
    if w.Bnext? then w.to else null
  }

  /** Of the nodes, oldest first, the oldest is REFS and every other one points to the one before it. */
  ghost predicate Chained(nodes: seq<Node>)
    reads nodes
  {
    && (forall i, j :: 0 <= i < j < |nodes| ==> nodes[i] != nodes[j])
    && (nodes != [] ==> nodes[0].first.Refc? && nodes[0].second.Decrement?)
    && (forall i :: 0 < i < |nodes| ==> LinkOk(nodes, i))
  }

  ghost predicate LinkOk(nodes: seq<Node>, i: nat)
    requires 0 < i < |nodes|
    reads nodes
  {
    nodes[i].first == Bnext(nodes[i - 1]) && nodes[i].blink == nodes[0]
  }

  /** A thread's reservation: outside, or the head of its list. */
  datatype Head = Outside | Inside(top: Node?)

  const BATCH_SIZE: nat := 2

  /** A thread's local batch. */
  class Batch {
    const threads: nat
    var first: Node?
    var refs: Node?
    var counter: nat
    var inProgress: bool
    ghost var nodes: seq<Node>

    ghost predicate Valid()
      reads this, nodes
    {
      && counter == |nodes| && Chained(nodes)
      && (first == null <==> nodes == [])
      && (nodes != [] ==> first == nodes[|nodes| - 1] && refs == nodes[0] && nodes[0].first == Refc(REFC_PROTECT))
    }

    /** Outside a publication the batch has not reached its size. */
    ghost predicate Resting()
      reads this, nodes
    {
      Valid() && !inProgress && |nodes| <= BATCH_SIZE * threads
    }

    constructor (threads: nat)
      ensures Resting() && fresh(this) && nodes == [] && this.threads == threads
    {
      this.threads := threads;
      first, refs, counter, inProgress, nodes := null, null, 0, false, [];
    }

    /** retire, up to the point where the batch is full: the action is that of the first node. */
    method Add(obj: nat, action: nat)
      requires Valid()
      modifies this
      ensures Valid() && inProgress == old(inProgress)
      ensures |nodes| == |old(nodes)| + 1 && nodes[..|nodes| - 1] == old(nodes)
      ensures fresh(nodes[|nodes| - 1]) && nodes[|nodes| - 1].obj == obj
      ensures nodes[0].second == if old(nodes) == [] then Decrement(action) else old(nodes[0].second)
    {
      ghost var was := nodes;
      var node := new Node(obj);
      if first == null {
        refs := node;
        node.first := Refc(REFC_PROTECT);
        node.second := Decrement(action);
      } else {
        node.blink := refs;
        node.first := Bnext(first);
      }
      first := node;
      counter := counter + 1;
      nodes := was + [node];
      assert node !in was;
      forall i | 0 < i < |nodes| ensures LinkOk(nodes, i) {
        if i < |was| { assert old(LinkOk(was, i)); }
      }
    }

    /** retire: when the batch has more than 2 P nodes it is published, so that add_batch has a node for every thread
        and stops short of REFS; and freed at once if every thread it was pushed to has left already. */
    method Retire(obj: nat, action: nat, found: seq<Head>, left: nat)
      returns (ghost batch: seq<Node>, lists: seq<Head>, done: seq<nat>)
      requires Resting() && |found| == threads && left <= Insiders(found, |found|)
      modifies this, nodes
      ensures Resting() && |batch| == |old(nodes)| + 1 && batch[..|batch| - 1] == old(nodes)
      ensures fresh(batch[|batch| - 1]) && batch[|batch| - 1].obj == obj
      ensures if |batch| > BATCH_SIZE * threads then nodes == [] && Chained(batch) else nodes == batch && lists == []
      ensures |batch| > BATCH_SIZE * threads ==>
                && |lists| == |found|
                && (forall i :: 0 <= i < |found| ==> ForSlot(batch, i) != batch[0] && SlotDone(batch, found, lists, i))
                && batch[0].first == Refc(Insiders(found, |found|) - left)
      ensures done == if |batch| > BATCH_SIZE * threads && left == Insiders(found, |found|) then Reversed(batch) else []
    {
      Add(obj, action);
      batch := nodes;
      lists, done := [], [];
      if counter > BATCH_SIZE * threads {
        var refs0, first0 := refs, first;
        first, counter, nodes := null, 0, [];
        inProgress := true;
        var free;
        lists, free := AddBatch(refs0, first0, batch, found, left);
        if free {
          var act;
          done, act := FreeBatch(refs0, batch);
        }
        inProgress := false;
      }
    }
  }

  /** How many of the first n threads are inside. */
  function Insiders(heads: seq<Head>, n: nat): nat
    requires n <= |heads|
  {
    if n == 0 then 0 else Insiders(heads, n - 1) + if heads[n - 1].Inside? then 1 else 0
  }

  /** The node that add_batch has ready for slot i: it starts with the youngest and steps on at every slot. */
  function ForSlot(nodes: seq<Node>, i: nat): Node
    requires i < |nodes|
  {
    nodes[|nodes| - 1 - i]
  }

  /** add_batch, whatever the others do meanwhile. `found` is what the visit of each slot found when it succeeded; a
      failed CAS there only has the visit write the node's link again. `left` is how many threads have left, and
      decremented the count, by the time the adjustment is added. Every thread found inside gets a node of its own,
      none of them REFS; the count becomes the number of nodes still out, and if it is zero, the batch is to be freed at
      once. REFS keeps its action, and the chain stays whole. */
  method AddBatch(refs: Node, first: Node, ghost nodes: seq<Node>, found: seq<Head>, left: nat)
    returns (lists: seq<Head>, free: bool)
    requires nodes != [] && refs == nodes[0] && first == nodes[|nodes| - 1]
    requires Chained(nodes) && |nodes| > |found| && left <= Insiders(found, |found|)
    requires nodes[0].first == Refc(REFC_PROTECT)
    modifies nodes
    ensures Chained(nodes) && nodes[0].second == old(nodes[0].second) && nodes[0].blink == nodes[|nodes| - 1]
    ensures nodes[0].first == Refc(Insiders(found, |found|) - left)
    ensures free <==> nodes[0].first == Refc(0)
    ensures |lists| == |found|
    ensures forall i :: 0 <= i < |found| ==> ForSlot(nodes, i) != nodes[0] && SlotDone(nodes, found, lists, i)
  {
    refs.blink := first;
    forall i | 0 < i < |nodes| ensures LinkOk(nodes, i) { assert old(LinkOk(nodes, i)); }
    var curr: Node? := first;
    var cnt := -REFC_PROTECT;
    lists := [];
    for i := 0 to |found|
      invariant |lists| == i && curr == nodes[|nodes| - 1 - i]
      invariant cnt == -REFC_PROTECT + Insiders(found, i)
      invariant Chained(nodes) && refs.first == Refc(REFC_PROTECT)
      invariant refs.second == old(refs.second) && refs.blink == nodes[|nodes| - 1]
      invariant forall j :: 0 <= j < i ==> SlotDone(nodes, found, lists, j)
    {
      assert LinkOk(nodes, |nodes| - 1 - i);
      ghost var was := lists;
      label Before:
      if found[i].Inside? {
        curr.second := Next(found[i].top);
        lists := lists + [Inside(curr)];
        cnt := cnt + 1;
      } else {
        lists := lists + [Outside];
      }
      forall j | 0 < j < |nodes| ensures LinkOk(nodes, j) { assert old@Before(LinkOk(nodes, j)); }
      forall j | 0 <= j <= i ensures SlotDone(nodes, found, lists, j) {
        if j < i { assert old@Before(SlotDone(nodes, found, was, j)) && ForSlot(nodes, j) != ForSlot(nodes, i); }
      }
      curr := AsPointer(curr.first);
    }
    label Last:
    var refc := refs.first.n - left;
    free := refc == -cnt;
    refs.first := Refc(refc + cnt);
    forall j | 0 < j < |nodes| ensures LinkOk(nodes, j) { assert old@Last(LinkOk(nodes, j)); }
    forall j | 0 <= j < |found| ensures SlotDone(nodes, found, lists, j) && ForSlot(nodes, j) != nodes[0] {
      assert old@Last(SlotDone(nodes, found, lists, j));
    }
  }

  /** Slot i got its own node in front of what was there, or nothing if its thread was outside. */
  ghost predicate SlotDone(nodes: seq<Node>, found: seq<Head>, lists: seq<Head>, i: nat)
    requires i < |nodes| && i < |found| && i < |lists|
    reads nodes
  {
    if found[i].Outside? then lists[i] == Outside
    else lists[i] == Inside(ForSlot(nodes, i)) && ForSlot(nodes, i).second == Next(found[i].top)
  }

  ghost function Reversed(nodes: seq<Node>): seq<nat> {
    if nodes == [] then [] else [nodes[|nodes| - 1].obj] + Reversed(nodes[..|nodes| - 1])
  }

  /** free_batch: runs the action on every object of the batch, once each, and stops at REFS, whose count is zero. */
  method FreeBatch(refs: Node, ghost nodes: seq<Node>) returns (done: seq<nat>, action: nat)
    requires Chained(nodes) && nodes != [] && refs == nodes[0]
    requires refs.first == Refc(0) && refs.blink == nodes[|nodes| - 1]
    ensures done == Reversed(nodes) && Decrement(action) == refs.second
  {
    action := refs.second.action;
    var n: Node? := refs.blink;
    done := [];
    ghost var left := |nodes|;
    assert nodes[..left] == nodes;
    while n != null
      invariant 0 <= left <= |nodes| && (n == null <==> left == 0) && (left > 0 ==> n == nodes[left - 1])
      invariant done + Reversed(nodes[..left]) == Reversed(nodes)
      decreases left
    {
      var node := n;
      if left > 1 { assert LinkOk(nodes, left - 1); }
      n := AsPointer(n.first);
      assert nodes[..left][..left - 1] == nodes[..left - 1];
      done := done + [node.obj];
      left := left - 1;
    }
  }

  /** Every node of the batch has its turn, once: the i-th oldest is the i-th last. */
  lemma {:induction false} EachOnce(nodes: seq<Node>, i: nat)
    requires i < |nodes|
    ensures |Reversed(nodes)| == |nodes| && Reversed(nodes)[|nodes| - 1 - i] == nodes[i].obj
  {
    var init := nodes[..|nodes| - 1];
    if |nodes| > 1 { EachOnce(init, if i < |nodes| - 1 then i else 0); }
  }
}
