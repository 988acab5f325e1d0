/** The Hyaline backend (include/cdrc/internal/smr/acquire_retire_hyaline.h): batches of deferred actions, each with one
    reference count.

    A retirer pushes one node of its batch onto the list of every thread that is in a critical section, one slot at a
    time, and only then adds the number of pushes to the count; a thread that leaves its section takes its whole list
    and decrements the count of every batch on it, perhaps before the retirer has finished. The count starts at 2^62,
    so that it cannot reach zero early. A node of a batch is in at most one list and is not reused while it is there,
    so a list is written as the sequence of its nodes' batches, newest first.
 */
module Hyaline {
  import opened Options
  import opened Sections

  type Tid = nat
  type Batch = nat

  const REFC_PROTECT: int := 0x4000_0000_0000_0000

  /** `list` is None while the thread is outside (invptr); `leaving` is what it took when it left and has still to
      traverse; `ended` counts its sections that are over. */
  datatype Thread = Thread(list: Option<seq<Batch>>, leaving: seq<Batch>, ended: nat)

  /** The count, and where add_batch stands: the slot it visits, what it last loaded there (None: nothing yet), and
      the adjustment it has accumulated. No branch reads the rest: whether the adjustment is done, how often the batch
      was freed, the threads it was pushed to, and the sections it waits for: those that were open when add_batch began
      and those that it met at a push. */
  datatype Rec = Rec(refc: int, next: Tid, prev: Option<Option<Batch>>, cnt: int, finished: bool, freed: nat,
                     pushed: set<Tid>, guards: set<Section>, met: set<Section>)

  datatype State = State(threads: seq<Thread>, batches: seq<Rec>)

  predicate Init(s: State) {
    && s.batches == [] && |s.threads| + 1 < REFC_PROTECT
    && forall t :: 0 <= t < |s.threads| ==> s.threads[t] == Thread(None, [], 0)
  }

  predicate Open(s: State, g: Section) { g.t < |s.threads| && s.threads[g.t].list.Some? && s.threads[g.t].ended == g.n }

  predicate Over(s: State, g: Section) { g.t < |s.threads| && g.n < s.threads[g.t].ended }

  function OpenSections(s: State): set<Section> {
    set t: nat | t < |s.threads| && s.threads[t].list.Some? :: Section(t, s.threads[t].ended)
  }

  // ---------------------------------------------------------------- steps

  datatype Label = Enter(t: Tid) | Leave(t: Tid) | Traverse(t: Tid) | AddBatch | StepAdd(b: Batch)

  predicate Enabled(s: State, l: Label) {
    match l
    case Enter(t) => t < |s.threads| && s.threads[t].list.None? && s.threads[t].leaving == []
    case Leave(t) => t < |s.threads| && s.threads[t].list.Some? && s.threads[t].leaving == []
    case Traverse(t) => t < |s.threads| && s.threads[t].leaving != [] && s.threads[t].leaving[0] < |s.batches|
    case AddBatch => true
    case StepAdd(b) => b < |s.batches| && !s.batches[b].finished && s.batches[b].next <= |s.threads|
  }

  function Head(list: seq<Batch>): Option<Batch> { if list == [] then None else Some(list[0]) }

  /** fetch_add: the batch is freed by whoever takes the count to zero. */
  function Decrement(r: Rec): Rec { r.(refc := r.refc - 1, freed := if r.refc == 1 then r.freed + 1 else r.freed) }

  function Finish(r: Rec): Rec { r.(refc := r.refc + r.cnt, finished := true,
                                    freed := if r.refc == -r.cnt then r.freed + 1 else r.freed) }

  function Pushed(r: Rec, g: Section): Rec {
    r.(next := r.next + 1, prev := None, cnt := r.cnt + 1, pushed := r.pushed + {r.next}, met := r.met + {g})
  }

  /** One slot of add_batch: load the list; skip the thread if it is outside; else push, unless the list has changed. */
  function Visit(s: State, b: Batch): State
    requires b < |s.batches| && s.batches[b].next < |s.threads|
  {
    var r := s.batches[b];
    var th := s.threads[r.next];
    if r.prev.None? then
      s.(batches := s.batches[b := if th.list.None? then r.(next := r.next + 1)
        else r.(prev := Some(Head(th.list.value)))])
    else if th.list.Some? && Head(th.list.value) == r.prev.value then
      State(s.threads[r.next := th.(list := Some([b] + th.list.value))],
            s.batches[b := Pushed(r, Section(r.next, th.ended))])
    else s.(batches := s.batches[b := r.(prev := None)])
  }

  function Apply(s: State, l: Label): State
    requires Enabled(s, l)
  {
    match l
    case Enter(t) => s.(threads := s.threads[t := s.threads[t].(list := Some([]))])
    case Leave(t) => s.(threads := s.threads[t := Thread(None, s.threads[t].list.value, s.threads[t].ended + 1)])
    case Traverse(t) =>
      var th := s.threads[t];
      var b := th.leaving[0];
      State(s.threads[t := th.(leaving := th.leaving[1..])], s.batches[b := Decrement(s.batches[b])])
    case AddBatch => s.(batches := s.batches
        + [Rec(REFC_PROTECT, 0, None, -REFC_PROTECT, false, 0, {}, OpenSections(s), {})])
    case StepAdd(b) => if s.batches[b].next < |s.threads| then Visit(s, b)
        else s.(batches := s.batches[b := Finish(s.batches[b])])
  }

  ghost predicate Runnable(s: State, ls: seq<Label>)
    decreases |ls|
  {
    ls == [] || (Enabled(s, ls[0]) && Runnable(Apply(s, ls[0]), ls[1..]))
  }

  ghost function Run(s: State, ls: seq<Label>): State
    requires Runnable(s, ls)
    decreases |ls|
  {
    if ls == [] then s else Run(Apply(s, ls[0]), ls[1..])
  }

  // ---------------------------------------------------------------- the invariant

  predicate Carries(th: Thread, b: Batch) { b in th.leaving || (th.list.Some? && b in th.list.value) }

  /** The threads that hold a node of b. */
  function Holders(threads: seq<Thread>, b: Batch): set<Tid> {
    set t: Tid | t < |threads| && Carries(threads[t], b)
  }

  ghost predicate Once(list: seq<Batch>) { forall i, j :: 0 <= i < j < |list| ==> list[i] != list[j] }

  ghost predicate ThreadOk(th: Thread, bound: nat) {
    && (th.list.Some? ==> th.leaving == [] && Once(th.list.value)) && Once(th.leaving)
    && forall b: Batch :: Carries(th, b) ==> b < bound
  }

  ghost predicate ThreadsOk(threads: seq<Thread>, bound: nat) {
    forall t :: 0 <= t < |threads| ==> ThreadOk(threads[t], bound)
  }

  /** The count is the number of nodes still out, once the adjustment is done; before that it is 2^62 less the
      decrements so far. The batch was freed if and only if both are settled, and then once. */
  ghost predicate CountOk(r: Rec, holders: set<Tid>, threads: nat) {
    && r.next <= threads && holders <= r.pushed && (forall t :: t in r.pushed ==> t < r.next)
    && r.cnt == -REFC_PROTECT + |r.pushed|
    && (if r.finished then r.next == threads && r.refc == |holders|
      else r.refc == REFC_PROTECT - |r.pushed| + |holders|)
    && r.freed == (if r.finished && holders == {} then 1 else 0)
  }

  /** A section that was open when add_batch began, or was met, is over, or open: then it has the batch on its list
      once its slot was visited. */
  ghost predicate GuardOk(s: State, b: Batch, r: Rec, g: Section) {
    || Over(s, g)
    || (Open(s, g) && (g.t < r.next ==> b in s.threads[g.t].list.value))
  }

  ghost predicate BatchOk(s: State, b: Batch, r: Rec) {
    && CountOk(r, Holders(s.threads, b), |s.threads|)
    && (!r.finished && r.prev.Some? ==> r.next < |s.threads|)
    && (forall g :: g in r.guards ==> GuardOk(s, b, r, g))
    && (forall g :: g in r.met ==> g.t < r.next && GuardOk(s, b, r, g))
  }

  ghost predicate BatchesOk(s: State) {
    forall b :: 0 <= b < |s.batches| ==> BatchOk(s, b, s.batches[b])
  }

  ghost predicate Inv(s: State) {
    |s.threads| + 1 < REFC_PROTECT && ThreadsOk(s.threads, |s.batches|) && BatchesOk(s)
  }

  // ---------------------------------------------------------------- small sets

  lemma {:induction false} AtMost(xs: set<Tid>, n: nat)
    requires forall t :: t in xs ==> t < n
    ensures |xs| <= n
  {
    if n > 0 {
      AtMost(xs - {n - 1}, n - 1);
    } else {
      assert xs == {};
    }
  }

  lemma SubsetSize(a: set<Tid>, b: set<Tid>)
    requires a <= b
    ensures |a| <= |b|
  {
    assert b == a + (b - a);
  }

  /** Thread t changes what it carries; the others do not. */
  lemma HoldersChange(threads: seq<Thread>, t: Tid, th: Thread, b: Batch)
    requires t < |threads|
    ensures Holders(threads[t := th], b) == if Carries(th, b) then Holders(threads, b) + {t}
        else Holders(threads, b) - {t}
  {
  }

  // ---------------------------------------------------------------- entering and leaving

  lemma EnterLeaveInv(s: State, l: Label)
    requires Inv(s) && Enabled(s, l) && (l.Enter? || l.Leave?)
    ensures Inv(Apply(s, l))
  {
    hide CountOk, Once;
    var r := Apply(s, l);
    var th := s.threads[l.t];
    assert ThreadOk(th, |s.batches|);
    NothingOnce();
    forall b | 0 <= b < |r.batches| ensures BatchOk(r, b, r.batches[b]) {
      HoldersChange(s.threads, l.t, r.threads[l.t], b);
      assert Holders(r.threads, b) == Holders(s.threads, b);
      assert BatchOk(s, b, s.batches[b]);
    }
    forall b: Batch | Carries(r.threads[l.t], b) ensures b < |s.batches| { assert Carries(th, b); }
    assert ThreadOk(r.threads[l.t], |s.batches|);
  }

  lemma NothingOnce()
    ensures Once([])
  {
  }

  // ---------------------------------------------------------------- traversing

  lemma DecrementOk(r: Rec, holders: set<Tid>, threads: nat, t: Tid)
    requires CountOk(r, holders, threads) && t in holders && threads + 1 < REFC_PROTECT
    ensures CountOk(Decrement(r), holders - {t}, threads) && r.freed == 0
  {
    AtMost(r.pushed, threads);
    SubsetSize(holders, r.pushed);
    assert |holders - {t}| == |holders| - 1;
    assert |holders| == 1 ==> holders - {t} == {};
  }

  lemma TraverseGuards(s: State, t: Tid, b: Batch, r: Rec, now: Rec)
    requires Enabled(s, Traverse(t)) && ThreadOk(s.threads[t], |s.batches|) && now.next == r.next
    ensures forall g :: GuardOk(s, b, r, g) ==> GuardOk(Apply(s, Traverse(t)), b, now, g)
  {
    hide Once, Decrement;
  }

  lemma TraverseOwn(s: State, t: Tid, b: Batch)
    requires Enabled(s, Traverse(t)) && |s.threads| + 1 < REFC_PROTECT && ThreadOk(s.threads[t], |s.batches|)
    requires b == s.threads[t].leaving[0] && BatchOk(s, b, s.batches[b])
    ensures BatchOk(Apply(s, Traverse(t)), b, Apply(s, Traverse(t)).batches[b])
  {
    var r, th := Apply(s, Traverse(t)), s.threads[t];
    TailOnce(th.leaving);
    hide CountOk, Once, GuardOk;
    HoldersChange(s.threads, t, r.threads[t], b);
    assert Carries(th, b) && !Carries(r.threads[t], b);
    DecrementOk(s.batches[b], Holders(s.threads, b), |s.threads|, t);
    TraverseGuards(s, t, b, s.batches[b], r.batches[b]);
  }

  lemma TraverseOther(s: State, t: Tid, b: Batch)
    requires Enabled(s, Traverse(t)) && ThreadOk(s.threads[t], |s.batches|)
    requires b < |s.batches| && b != s.threads[t].leaving[0] && BatchOk(s, b, s.batches[b])
    ensures BatchOk(Apply(s, Traverse(t)), b, Apply(s, Traverse(t)).batches[b])
  {
    var r, th := Apply(s, Traverse(t)), s.threads[t];
    TailOnce(th.leaving);
    hide CountOk, Once, GuardOk, Decrement;
    HoldersChange(s.threads, t, r.threads[t], b);
    assert Carries(r.threads[t], b) == Carries(th, b);
    assert Holders(r.threads, b) == Holders(s.threads, b);
    TraverseGuards(s, t, b, s.batches[b], s.batches[b]);
  }

  lemma TraverseThread(th: Thread, bound: nat)
    requires ThreadOk(th, bound) && th.leaving != []
    ensures ThreadOk(th.(leaving := th.leaving[1..]), bound)
  {
    TailOnce(th.leaving);
    var now := th.(leaving := th.leaving[1..]);
    forall b: Batch | Carries(now, b) ensures b < bound { assert Carries(th, b); }
  }

  lemma TraverseInv(s: State, t: Tid)
    requires Inv(s) && Enabled(s, Traverse(t))
    ensures Inv(Apply(s, Traverse(t)))
  {
    hide BatchOk, ThreadOk, Decrement;
    var r := Apply(s, Traverse(t));
    TraverseThread(s.threads[t], |s.batches|);
    forall b | 0 <= b < |r.batches| ensures BatchOk(r, b, r.batches[b]) {
      if b == s.threads[t].leaving[0] { TraverseOwn(s, t, b); } else { TraverseOther(s, t, b); }
    }
  }

  lemma TailOnce(list: seq<Batch>)
    requires Once(list) && list != []
    ensures Once(list[1..]) && list[0] !in list[1..] && list == [list[0]] + list[1..]
  {
  }

  // ---------------------------------------------------------------- adding

  lemma NewBatchInv(s: State)
    requires Inv(s)
    ensures Inv(Apply(s, AddBatch))
  {
    hide Once;
    var r := Apply(s, AddBatch);
    var n := |s.batches|;
    forall t | 0 <= t < |r.threads| ensures ThreadOk(r.threads[t], |r.batches|) { assert ThreadOk(s.threads[t], n); }
    assert Holders(r.threads, n) == {} by {
      forall t: Tid | t < |s.threads| ensures !Carries(s.threads[t], n) { assert ThreadOk(s.threads[t], n); }
    }
    forall b | 0 <= b < |r.batches| ensures BatchOk(r, b, r.batches[b]) {
      if b < n {
        assert BatchOk(s, b, s.batches[b]);
        assert forall g :: GuardOk(s, b, s.batches[b], g) ==> GuardOk(r, b, s.batches[b], g);
      }
    }
  }

  /** A step of add_batch that changes no list. */
  lemma QuietAdd(s: State, b: Batch, rec: Rec)
    requires Inv(s) && b < |s.batches| && BatchOk(s, b, rec)
    ensures Inv(s.(batches := s.batches[b := rec]))
  {
    hide CountOk, Once;
    var r := s.(batches := s.batches[b := rec]);
    forall c | 0 <= c < |r.batches| ensures BatchOk(r, c, r.batches[c]) {
      assert BatchOk(s, c, s.batches[c]);
      var x := r.batches[c];
      assert forall g :: GuardOk(s, c, x, g) ==> GuardOk(r, c, x, g);
    }
  }

  lemma FinishOk(r: Rec, holders: set<Tid>, threads: nat)
    requires CountOk(r, holders, threads) && !r.finished && r.next == threads
    ensures CountOk(Finish(r), holders, threads)
  {
  }

  lemma PushOk(r: Rec, holders: set<Tid>, threads: nat, g: Section)
    requires CountOk(r, holders, threads) && !r.finished && r.next < threads
    ensures r.next !in holders
    ensures CountOk(Pushed(r, g), holders + {r.next}, threads)
  {
    assert r.next !in r.pushed;
    assert |r.pushed + {r.next}| == |r.pushed| + 1 && |holders + {r.next}| == |holders| + 1;
  }

  /** The CAS of add_batch succeeds. */
  predicate Pushes(s: State, b: Batch) {
    && b < |s.batches| && !s.batches[b].finished && s.batches[b].next < |s.threads| && s.batches[b].prev.Some?
    && s.threads[s.batches[b].next].list.Some?
    && Head(s.threads[s.batches[b].next].list.value) == s.batches[b].prev.value
  }

  lemma PushThread(s: State, b: Batch)
    requires Pushes(s, b) && ThreadOk(s.threads[s.batches[b].next], |s.batches|)
    requires !Carries(s.threads[s.batches[b].next], b)
    ensures ThreadOk(Visit(s, b).threads[s.batches[b].next], |s.batches|)
  {
    var t := s.batches[b].next;
    var th, now := s.threads[t], Visit(s, b).threads[t];
    forall c: Batch | Carries(now, c) ensures c < |s.batches| { assert c == b || Carries(th, c); }
  }

  lemma PushOwn(s: State, b: Batch)
    requires Pushes(s, b) && BatchOk(s, b, s.batches[b])
    ensures BatchOk(Visit(s, b), b, Visit(s, b).batches[b]) && !Carries(s.threads[s.batches[b].next], b)
  {
    hide CountOk, Pushed;
    var r, rec := Visit(s, b), s.batches[b];
    var t := rec.next;
    var g := Section(t, s.threads[t].ended);
    PushOk(rec, Holders(s.threads, b), |s.threads|, g);
    PushedFields(rec, g);
    HoldersChange(s.threads, t, r.threads[t], b);
    assert t !in Holders(s.threads, b);
    forall h | h in rec.guards + rec.met ensures GuardOk(r, b, r.batches[b], h) { assert GuardOk(s, b, rec, h); }
    assert GuardOk(r, b, r.batches[b], g);
  }

  lemma PushedFields(r: Rec, g: Section)
    ensures Pushed(r, g).next == r.next + 1 && Pushed(r, g).prev == None && Pushed(r, g).finished == r.finished
    ensures Pushed(r, g).guards == r.guards && Pushed(r, g).met == r.met + {g}
  {
  }

  lemma PushOther(s: State, b: Batch, c: Batch)
    requires Pushes(s, b) && c < |s.batches| && c != b && BatchOk(s, c, s.batches[c])
    ensures BatchOk(Visit(s, b), c, Visit(s, b).batches[c])
  {
    hide CountOk, Pushed;
    var r, t := Visit(s, b), s.batches[b].next;
    HoldersChange(s.threads, t, r.threads[t], c);
    assert Carries(r.threads[t], c) == Carries(s.threads[t], c);
    assert Holders(r.threads, c) == Holders(s.threads, c);
    assert forall g :: GuardOk(s, c, s.batches[c], g) ==> GuardOk(r, c, s.batches[c], g);
  }

  lemma PushInv(s: State, b: Batch)
    requires Inv(s) && Pushes(s, b)
    ensures Inv(Visit(s, b))
  {
    hide BatchOk, ThreadOk, Pushed, Carries;
    var r := Visit(s, b);
    PushOwn(s, b);
    PushThread(s, b);
    forall c | 0 <= c < |r.batches| ensures BatchOk(r, c, r.batches[c]) {
      if c != b { PushOther(s, b, c); }
    }
  }

  lemma AddInv(s: State, b: Batch)
    requires Inv(s) && Enabled(s, StepAdd(b))
    ensures Inv(Apply(s, StepAdd(b)))
  {
    var rec := s.batches[b];
    assert BatchOk(s, b, rec);
    if rec.next == |s.threads| {
      FinishOk(rec, Holders(s.threads, b), |s.threads|);
      hide CountOk;
      forall g | g in rec.guards + rec.met ensures GuardOk(s, b, Finish(rec), g) { assert GuardOk(s, b, rec, g); }
      QuietAdd(s, b, Finish(rec));
    } else if rec.prev.None? {
      var th := s.threads[rec.next];
      var now := if th.list.None? then rec.(next := rec.next + 1) else rec.(prev := Some(Head(th.list.value)));
      forall g | g in rec.guards + rec.met ensures GuardOk(s, b, now, g) { assert GuardOk(s, b, rec, g); }
      QuietAdd(s, b, now);
    } else if s.threads[rec.next].list.Some? && Head(s.threads[rec.next].list.value) == rec.prev.value {
      PushInv(s, b);
    } else {
      var now := rec.(prev := None);
      forall g | g in rec.guards + rec.met ensures GuardOk(s, b, now, g) { assert GuardOk(s, b, rec, g); }
      QuietAdd(s, b, now);
    }
  }

  lemma StepInv(s: State, l: Label)
    requires Inv(s) && Enabled(s, l)
    ensures Inv(Apply(s, l))
  {
    hide Inv, Apply;
    match l {
      case Enter(_) => EnterLeaveInv(s, l);
      case Leave(_) => EnterLeaveInv(s, l);
      case Traverse(t) => TraverseInv(s, t);
      case AddBatch => NewBatchInv(s);
      case StepAdd(b) => AddInv(s, b);
    }
  }

  lemma {:induction false} RunInv(s: State, ls: seq<Label>)
    requires Inv(s) && Runnable(s, ls)
    ensures Inv(Run(s, ls))
    decreases |ls|
  {
    hide Inv, Apply, Enabled;
    if ls != [] {
      StepInv(s, ls[0]);
      RunInv(Apply(s, ls[0]), ls[1..]);
    }
  }

  // ---------------------------------------------------------------- what every run keeps

  /** In every run each batch is freed at most once, and freed exactly when its add_batch has finished and no thread
      holds a node of it any more, whoever came last; by then every critical section that was open when the add_batch
      began, or that it met when it visited a slot, has ended. The count never leaves the range of a 64-bit integer. */
  lemma FreedOnceAfterAllLeft(s0: State, ls: seq<Label>, b: Batch)
    requires Init(s0) && Runnable(s0, ls) && b < |Run(s0, ls).batches|
    ensures var s := Run(s0, ls);
            var r := s.batches[b];
            && r.freed <= 1 && 0 <= r.refc <= REFC_PROTECT && -REFC_PROTECT <= r.cnt <= 0
            && (r.freed == 1 <==> r.finished && forall t :: 0 <= t < |s.threads| ==> !Carries(s.threads[t], b))
            && (r.freed == 1 ==> forall g :: g in r.guards + r.met ==> Over(s, g))
  {
    RunInv(s0, ls);
    FreedOnce(Run(s0, ls), b);
  }

  lemma FreedOnce(s: State, b: Batch)
    requires Inv(s) && b < |s.batches|
    ensures var r := s.batches[b];
            && r.freed <= 1 && 0 <= r.refc <= REFC_PROTECT && -REFC_PROTECT <= r.cnt <= 0
            && (r.freed == 1 <==> r.finished && forall t :: 0 <= t < |s.threads| ==> !Carries(s.threads[t], b))
            && (r.freed == 1 ==> forall g :: g in r.guards + r.met ==> Over(s, g))
  {
    var r := s.batches[b];
    var holders := Holders(s.threads, b);
    assert BatchOk(s, b, r);
    AtMost(r.pushed, |s.threads|);
    SubsetSize(holders, r.pushed);
    assert forall t :: 0 <= t < |s.threads| && Carries(s.threads[t], b) ==> t in holders;
    if r.freed == 1 {
      forall g | g in r.guards + r.met ensures Over(s, g) {
        assert GuardOk(s, b, r, g);
        assert Open(s, g) && b in s.threads[g.t].list.value ==> g.t in holders;
      }
    }
  }

  /** No step ever touches the count of a batch that was freed, and no thread that leaves is stuck. */
  lemma NeverTouchedAfterFree(s0: State, ls: seq<Label>, t: Tid)
    requires Init(s0) && Runnable(s0, ls) && t < |Run(s0, ls).threads| && Run(s0, ls).threads[t].leaving != []
    ensures var s := Run(s0, ls); Enabled(s, Traverse(t)) && s.batches[s.threads[t].leaving[0]].freed == 0
  {
    RunInv(s0, ls);
    var s := Run(s0, ls);
    var b := s.threads[t].leaving[0];
    assert ThreadOk(s.threads[t], |s.batches|) && Carries(s.threads[t], b);
    assert BatchOk(s, b, s.batches[b]) && t in Holders(s.threads, b);
  }
}
