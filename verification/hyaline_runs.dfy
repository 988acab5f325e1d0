/** Whole runs of the Hyaline backend, told from what the threads do: critical sections from their entries and exits,
    batches from the calls of add_batch.
 */
module HyalineRuns {
  import opened Options
  import opened Sections
  import opened Hyaline

  /** The state after the first m steps. */
  ghost function At(s: State, ls: seq<Label>, m: nat): State
    requires Runnable(s, ls) && m <= |ls|
    decreases m
  {
    if m == 0 then s else At(Apply(s, ls[0]), ls[1..], m - 1)
  }

  lemma {:induction false} AtNext(s: State, ls: seq<Label>, m: nat)
    requires Runnable(s, ls) && m < |ls|
    ensures Enabled(At(s, ls, m), ls[m]) && At(s, ls, m + 1) == Apply(At(s, ls, m), ls[m])
    decreases m
  {
    hide Enabled, Apply;
    var r := Apply(s, ls[0]);
    if m == 0 {
      assert At(r, ls[1..], 0) == r;
    } else {
      AtNext(r, ls[1..], m - 1);
    }
  }

  lemma {:induction false} AtInv(s0: State, ls: seq<Label>, m: nat)
    requires Init(s0) && Runnable(s0, ls) && m <= |ls|
    ensures Inv(At(s0, ls, m)) && |At(s0, ls, m).threads| == |s0.threads|
  {
    hide Inv, Apply, Enabled, Runnable;
    if m == 0 {
      InitInv(s0);
    } else {
      hide At, Init;
      AtInv(s0, ls, m - 1);
      AtNext(s0, ls, m - 1);
      StepInv(At(s0, ls, m - 1), ls[m - 1]);
      SameThreads(At(s0, ls, m - 1), ls[m - 1]);
    }
  }

  lemma InitInv(s0: State)
    requires Init(s0)
    ensures Inv(s0)
  {
  }

  lemma SameThreads(s: State, l: Label)
    requires Enabled(s, l)
    ensures |Apply(s, l).threads| == |s.threads|
  {
    hide Decrement, Finish, Pushed;
  }

  // ---------------------------------------------------------------- critical sections and batches

  /** After m steps thread t is still in the critical section that it entered in step b. */
  ghost predicate Inside(ls: seq<Label>, t: Tid, b: nat, m: nat) {
    b < m <= |ls| && ls[b] == Enter(t) && forall j :: b < j < m ==> ls[j] != Leave(t)
  }

  lemma ListStep(s: State, l: Label, t: Tid)
    requires Enabled(s, l) && t < |s.threads|
    ensures t < |Apply(s, l).threads|
    ensures var th, th' := s.threads[t], Apply(s, l).threads[t];
            && (l == Enter(t) ==> th'.list.Some?)
            && (th.list.Some? && l != Leave(t) ==>
                 th'.list.Some? && th'.ended == th.ended && forall c :: c in th.list.value ==> c in th'.list.value)
            && (th.list.None? && l != Enter(t) ==> th'.list.None?) && (l == Leave(t) ==> th'.list.None?)
  {
    hide Decrement, Finish, Pushed;
  }

  /** A section lasts from its entry to the next exit of the thread, keeps its number, and gives no node back. */
  lemma {:induction false} StaysInside(s0: State, ls: seq<Label>, t: Tid, b: nat, i: nat, m: nat)
    requires Init(s0) && Runnable(s0, ls) && b < i <= m && Inside(ls, t, b, m)
    ensures t < |At(s0, ls, i).threads| && t < |At(s0, ls, m).threads|
    ensures var th, th' := At(s0, ls, i).threads[t], At(s0, ls, m).threads[t];
            && th.list.Some? && th'.list.Some? && th'.ended == th.ended
            && forall c :: c in th.list.value ==> c in th'.list.value
    decreases m
  {
    hide Apply, Runnable, At, Init;
    AtNext(s0, ls, m - 1);
    AtInv(s0, ls, m - 1);
    AtNext(s0, ls, b);
    AtInv(s0, ls, b);
    hide Inv, Enabled;
    ListStep(At(s0, ls, m - 1), ls[m - 1], t);
    if i < m {
      StaysInside(s0, ls, t, b, i, m - 1);
    } else if b < m - 1 {
      StaysInside(s0, ls, t, b, m - 1, m - 1);
    }
  }

  /** How many of the first m steps begin an add_batch: the number of the batch that step m adds. */
  ghost function Added(ls: seq<Label>, m: nat): nat
    requires m <= |ls|
  {
    if m == 0 then 0 else Added(ls, m - 1) + (if ls[m - 1].AddBatch? then 1 else 0)
  }

  lemma BatchesStep(s: State, l: Label)
    requires Enabled(s, l)
    ensures |Apply(s, l).batches| == |s.batches| + (if l.AddBatch? then 1 else 0)
    ensures forall b: Batch :: b < |s.batches| ==> Apply(s, l).batches[b].guards == s.batches[b].guards
    ensures l.AddBatch? ==> Apply(s, l).batches[|s.batches|].guards == OpenSections(s)
  {
    hide OpenSections;
  }

  lemma {:induction false} BatchesAt(s0: State, ls: seq<Label>, m: nat)
    requires Init(s0) && Runnable(s0, ls) && m <= |ls|
    ensures |At(s0, ls, m).batches| == Added(ls, m)
  {
    hide Apply, Enabled, Runnable;
    if m > 0 {
      hide At, Init;
      BatchesAt(s0, ls, m - 1);
      AtNext(s0, ls, m - 1);
      BatchesStep(At(s0, ls, m - 1), ls[m - 1]);
    }
  }

  lemma {:induction false} GuardsAt(s0: State, ls: seq<Label>, i: nat, m: nat)
    requires Init(s0) && Runnable(s0, ls) && i < m <= |ls| && ls[i].AddBatch?
    ensures Added(ls, i) < |At(s0, ls, m).batches|
    ensures At(s0, ls, m).batches[Added(ls, i)].guards == OpenSections(At(s0, ls, i))
  {
    hide Apply, Enabled, Runnable, At, Init, OpenSections, Added;
    AtNext(s0, ls, m - 1);
    BatchesStep(At(s0, ls, m - 1), ls[m - 1]);
    if i < m - 1 { GuardsAt(s0, ls, i, m - 1); } else { BatchesAt(s0, ls, i); }
  }

  // ---------------------------------------------------------------- when a batch is freed

  /** Step i begins an add_batch. Its batch is freed at most once; and by the time that it is freed, every thread has
      left the critical section that it was in at step i, and every critical section in which it ever held a node of
      the batch. */
  lemma FreedAfterAllLeft(s0: State, ls: seq<Label>, i: nat, m: nat, t: Tid, b: nat, k: nat)
    requires Init(s0) && Runnable(s0, ls) && i < m <= |ls| && ls[i].AddBatch? && b < k <= m && Inside(ls, t, b, k)
    requires Added(ls, i) < |At(s0, ls, m).batches| && At(s0, ls, m).batches[Added(ls, i)].freed > 0
    requires k == i || HoldsNode(At(s0, ls, k), t, Added(ls, i))
    ensures At(s0, ls, m).batches[Added(ls, i)].freed == 1 && !Inside(ls, t, b, m)
  {
    hide Apply, Enabled, Runnable, At, Init, Added;
    var n := Added(ls, i);
    AtInv(s0, ls, m);
    hide Inv;
    FreedAtMostOnce(At(s0, ls, m), n);
    if Inside(ls, t, b, m) {
      StaysInside(s0, ls, t, b, k, m);
      if k == i {
        GuardsAt(s0, ls, i, m);
        OpenIsGuard(At(s0, ls, i), t);
        StillOpen(At(s0, ls, m), n, Section(t, At(s0, ls, i).threads[t].ended));
      } else {
        StillHeld(At(s0, ls, m), t, n);
      }
    }
  }

  ghost predicate HoldsNode(s: State, t: Tid, n: Batch) {
    t < |s.threads| && s.threads[t].list.Some? && n in s.threads[t].list.value
  }

  lemma FreedAtMostOnce(s: State, n: Batch)
    requires Inv(s) && n < |s.batches|
    ensures s.batches[n].freed <= 1
  {
    FreedOnce(s, n);
  }

  lemma OpenIsGuard(s: State, t: Tid)
    requires t < |s.threads| && s.threads[t].list.Some?
    ensures Section(t, s.threads[t].ended) in OpenSections(s)
  {
  }

  lemma StillOpen(s: State, n: Batch, g: Section)
    requires Inv(s) && n < |s.batches| && Open(s, g) && g in s.batches[n].guards
    ensures s.batches[n].freed == 0
  {
    FreedOnce(s, n);
  }

  lemma StillHeld(s: State, t: Tid, n: Batch)
    requires Inv(s) && n < |s.batches| && HoldsNode(s, t, n)
    ensures s.batches[n].freed == 0
  {
    FreedOnce(s, n);
    assert Carries(s.threads[t], n);
  }

  // ---------------------------------------------------------------- add_batch comes to its end

  /** The steps that the add_batch of batch b still takes if it is left alone. */
  ghost function Left(s: State, b: Batch): nat
    requires b < |s.batches| && s.batches[b].next <= |s.threads|
  {
    var r := s.batches[b];
    if r.finished then 0
    else if r.prev.None? then 2 * (|s.threads| - r.next) + 1
    else if r.next < |s.threads| && s.threads[r.next].list.Some?
            && Head(s.threads[r.next].list.value) == r.prev.value then 2 * (|s.threads| - r.next)
    else 2 * (|s.threads| - r.next) + 2
  }

  lemma LeftStep(s: State, b: Batch)
    requires Enabled(s, StepAdd(b)) && BatchOk(s, b, s.batches[b])
    ensures var s' := Apply(s, StepAdd(b));
            && b < |s'.batches| && s'.batches[b].next <= |s'.threads| && |s'.threads| == |s.threads|
            && Left(s', b) < Left(s, b) <= 2 * |s.threads| + 2
  {
    hide CountOk, GuardOk, Finish;
    if s.batches[b].next == |s.threads| { FinishFinishes(s.batches[b]); }
  }

  lemma FinishFinishes(r: Rec)
    ensures Finish(r).finished && Finish(r).next == r.next
  {
  }

  lemma {:induction false} LeftAt(s0: State, ls: seq<Label>, b: Batch, i: nat, m: nat)
    requires Init(s0) && Runnable(s0, ls) && i < m <= |ls| && forall j :: i <= j < m ==> ls[j] == StepAdd(b)
    ensures b < |At(s0, ls, m).batches| && At(s0, ls, m).batches[b].next <= |At(s0, ls, m).threads|
    ensures |At(s0, ls, m).threads| == |s0.threads| && Left(At(s0, ls, m), b) + (m - i) <= 2 * |s0.threads| + 2
  {
    hide Apply, Runnable, At, Init, BatchOk, ThreadsOk, Left;
    var s := At(s0, ls, m - 1);
    AtNext(s0, ls, m - 1);
    AtInv(s0, ls, m - 1);
    assert ls[m - 1] == StepAdd(b);
    assert BatchOk(s, b, s.batches[b]);
    LeftStep(s, b);
    if i < m - 1 { LeftAt(s0, ls, b, i, m - 1); }
  }

  /** An add_batch that is left alone is finished after at most 2 P + 2 steps, and then its batch is freed at once if no
      thread carries a node of it. */
  lemma AddBatchEnds(s0: State, ls: seq<Label>, b: Batch, i: nat, m: nat)
    requires Init(s0) && Runnable(s0, ls) && i < m <= |ls| && forall j :: i <= j < m ==> ls[j] == StepAdd(b)
    ensures m - i <= 2 * |s0.threads| + 2 && b < |At(s0, ls, m).batches|
    ensures m - i == 2 * |s0.threads| + 2 ==> At(s0, ls, m).batches[b].finished
    ensures var s := At(s0, ls, m);
            s.batches[b].freed == 1 <==>
            s.batches[b].finished && forall t :: 0 <= t < |s.threads| ==> !Carries(s.threads[t], b)
  {
    hide Apply, Enabled, Runnable, At, Init, Inv, Carries;
    LeftAt(s0, ls, b, i, m);
    AtInv(s0, ls, m);
    FreedOnce(At(s0, ls, m), b);
  }
}
