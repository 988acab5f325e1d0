/** Whole runs of epoch-based reclamation, told from what the threads do: critical sections from the guards they
    construct and destroy, deferred actions from the calls that retired them.
 */
module EpochRuns {
  import opened Options
  import opened Sections
  import opened EpochReclamation

  /** The state after the first m steps. */
  ghost function At(s: State, ls: seq<Label>, m: nat): State
    requires Runnable(s, ls) && m <= |ls|
    decreases m
  {
    if m == 0 then s else At(Apply(s, ls[0]), ls[1..], m - 1)
  }

  lemma {:induction false} AtNext(s: State, ls: seq<Label>, m: nat)
    requires Runnable(s, ls) && m < |ls|
    ensures Enabled(At(s, ls, m), ls[m]) && At(s, ls, m + 1) == Apply(At(s, ls, m), ls[m])
    decreases m
  {
    hide Enabled, Apply;
    var r := Apply(s, ls[0]);
    if m == 0 {
      assert At(r, ls[1..], 0) == r;
    } else {
      AtNext(r, ls[1..], m - 1);
    }
  }

  lemma {:induction false} AtInv(s0: State, ls: seq<Label>, m: nat)
    requires Init(s0) && Runnable(s0, ls) && m <= |ls|
    ensures Inv(At(s0, ls, m)) && |At(s0, ls, m).threads| == |s0.threads|
  {
    hide Core, Apply, Enabled, Runnable;
    if m == 0 {
      InitInv(s0);
    } else {
      hide At, Init;
      AtInv(s0, ls, m - 1);
      AtNext(s0, ls, m - 1);
      StepInv(At(s0, ls, m - 1), ls[m - 1]);
      SameThreads(At(s0, ls, m - 1), ls[m - 1]);
    }
  }

  lemma InitInv(s0: State)
    requires Init(s0)
    ensures Inv(s0)
  {
  }

  lemma SameThreads(s: State, l: Label)
    requires Enabled(s, l)
    ensures |Apply(s, l).threads| == |s.threads|
    ensures forall u :: 0 <= u < |s.threads| && (l.Advance? || u != l.t) ==> Apply(s, l).threads[u] == s.threads[u]
    ensures !l.Advance? ==> l.t < |s.threads|
  {
  }

  // ---------------------------------------------------------------- critical sections

  /** How many guards of thread t stand after the first m steps. A guard that finds none standing begins a critical
      section when it announces its epoch. */
  ghost function Standing(ls: seq<Label>, t: Tid, m: nat): nat
    requires m <= |ls|
  {
    if m == 0 then 0 else
      var n := Standing(ls, t, m - 1);
      match ls[m - 1]
      case Guard(u) => if u == t && n > 0 then n + 1 else n
      case Announce(u) => if u == t then n + 1 else n
      case Unguard(u) => if u == t && n > 0 then n - 1 else n
      case _ => n
  }

  /** After m steps thread t is still in the critical section that it began in step b. */
  ghost predicate Inside(ls: seq<Label>, t: Tid, b: nat, m: nat) {
    b < m <= |ls| && ls[b] == Announce(t) && forall j :: b < j <= m ==> Standing(ls, t, j) > 0
  }

  lemma GuardsStep(s: State, l: Label, t: Tid)
    requires Enabled(s, l) && ThreadsOk(s) && t < |s.threads|
    ensures t < |Apply(s, l).threads|
    ensures var n, n' := |s.threads[t].guards|, |Apply(s, l).threads[t].guards|;
            n' == match l
                  case Guard(u) => if u == t && n > 0 then n + 1 else n
                  case Announce(u) => if u == t then n + 1 else n
                  case Unguard(u) => if u == t && n > 0 then n - 1 else n
                  case _ => n
    ensures var th, th' := s.threads[t], Apply(s, l).threads[t];
            th.guards != [] && th'.guards != [] ==> th'.ended == th.ended
  {
    hide ApplyPass;
    assert ThreadOk(s.epoch, s.threads[t]);
    if l.StepPass? { PassKeepsGuards(s, l.t, t); }
  }

  lemma PassKeepsGuards(s: State, t: Tid, u: Tid)
    requires t < |s.threads| && !s.threads[t].pass.NoPass? && u < |s.threads|
    ensures var r := ApplyPass(s, t);
            && |r.threads| == |s.threads| && r.threads[u].guards == s.threads[u].guards
            && r.threads[u].ended == s.threads[u].ended
            && r.threads[u].announced == s.threads[u].announced && r.threads[u].read == s.threads[u].read
  {
  }

  lemma {:induction false} GuardsAt(s0: State, ls: seq<Label>, t: Tid, m: nat)
    requires Init(s0) && Runnable(s0, ls) && m <= |ls| && t < |s0.threads|
    ensures t < |At(s0, ls, m).threads| && |At(s0, ls, m).threads[t].guards| == Standing(ls, t, m)
    ensures Standing(ls, t, m) > 0 <==> At(s0, ls, m).threads[t].announced.Some?
  {
    hide Apply, Enabled, Runnable, ListsOk, EjectedOk;
    AtInv(s0, ls, m);
    assert ThreadOk(At(s0, ls, m).epoch, At(s0, ls, m).threads[t]);
    if m > 0 {
      hide At, Init, ThreadsOk, ThreadOk;
      AtInv(s0, ls, m - 1);
      GuardsAt(s0, ls, t, m - 1);
      AtNext(s0, ls, m - 1);
      GuardsStep(At(s0, ls, m - 1), ls[m - 1], t);
    }
  }

  lemma {:induction false} SameSection(s0: State, ls: seq<Label>, t: Tid, b: nat, i: nat, m: nat)
    requires Init(s0) && Runnable(s0, ls) && t < |s0.threads| && b < i <= m && Inside(ls, t, b, m)
    ensures t < |At(s0, ls, i).threads| && t < |At(s0, ls, m).threads|
    ensures At(s0, ls, m).threads[t].ended == At(s0, ls, i).threads[t].ended
    ensures At(s0, ls, i).threads[t].announced.Some?
  {
    hide Apply, Enabled, Runnable, ListsOk, EjectedOk, At, Init, Standing, ThreadsOk;
    GuardsAt(s0, ls, t, i);
    if i < m {
      SameSection(s0, ls, t, b, i, m - 1);
      AtInv(s0, ls, m - 1);
      AtNext(s0, ls, m - 1);
      GuardsAt(s0, ls, t, m - 1);
      GuardsAt(s0, ls, t, m);
      GuardsStep(At(s0, ls, m - 1), ls[m - 1], t);
    }
  }

  lemma InsideIsThread(s0: State, ls: seq<Label>, t: Tid, b: nat, m: nat)
    requires Init(s0) && Runnable(s0, ls) && Inside(ls, t, b, m)
    ensures t < |s0.threads|
  {
    hide Apply, Runnable, ListsOk, EjectedOk, At, Init, Standing, ThreadsOk;
    AtNext(s0, ls, b);
    AtInv(s0, ls, b);
  }

  // ---------------------------------------------------------------- retired actions

  /** How many of the first m steps retire an action. */
  ghost function Retires(ls: seq<Label>, m: nat): nat
    requires m <= |ls|
  {
    if m == 0 then 0 else Retires(ls, m - 1) + (if ls[m - 1].Retire? then 1 else 0)
  }

  /** The action that step i retires. */
  ghost function EntryOf(s0: State, ls: seq<Label>, i: nat): (x: Entry)
    requires Runnable(s0, ls) && i < |ls| && ls[i].Retire?
    ensures x.obj == ls[i].obj && x.action == ls[i].action && x.n == Retires(ls, i)
  {
    Entry(ls[i].obj, ls[i].action, At(s0, ls, i).epoch, Retires(ls, i), OpenSections(At(s0, ls, i)))
  }

  ghost function Retiring(s: State, l: Label): Entry
    requires l.Retire?
  {
    Entry(l.obj, l.action, s.epoch, |s.retired|, OpenSections(s))
  }

  lemma RetiredStep(s: State, l: Label)
    requires Enabled(s, l)
    ensures Apply(s, l).retired == s.retired + (if l.Retire? then multiset{Retiring(s, l)} else multiset{})
  {
  }

  lemma {:induction false} RetiredNumbers(s0: State, ls: seq<Label>, m: nat)
    requires Init(s0) && Runnable(s0, ls) && m <= |ls|
    ensures |At(s0, ls, m).retired| == Retires(ls, m)
    ensures forall x :: x in At(s0, ls, m).retired ==> x.n < Retires(ls, m)
  {
    hide Apply, Enabled, Runnable, OpenSections;
    if m > 0 {
      hide At, Init;
      RetiredNumbers(s0, ls, m - 1);
      AtNext(s0, ls, m - 1);
      RetiredStep(At(s0, ls, m - 1), ls[m - 1]);
    }
  }

  lemma RetiredNext(s0: State, ls: seq<Label>, m: nat)
    requires Init(s0) && Runnable(s0, ls) && m < |ls|
    ensures var s, r := At(s0, ls, m), At(s0, ls, m + 1);
            && r.retired == s.retired + (if ls[m].Retire? then multiset{EntryOf(s0, ls, m)} else multiset{})
            && (ls[m].Retire? ==> EntryOf(s0, ls, m) !in s.retired)
  {
    hide Apply, Enabled, Runnable, OpenSections, At, Init, Retires;
    RetiredNumbers(s0, ls, m);
    AtNext(s0, ls, m);
    RetiredStep(At(s0, ls, m), ls[m]);
  }

  lemma {:induction false} RetiredBy(s0: State, ls: seq<Label>, x: Entry, m: nat) returns (i: nat)
    requires Init(s0) && Runnable(s0, ls) && m <= |ls| && x in At(s0, ls, m).retired
    ensures i < m && ls[i].Retire? && x == EntryOf(s0, ls, i)
  {
    hide Apply, Enabled, Runnable, OpenSections, At, Init, Retires, EntryOf;
    NothingRetired(s0, ls);
    if m == 0 {
      assert false;
    }
    RetiredNext(s0, ls, m - 1);
    if ls[m - 1].Retire? && x == EntryOf(s0, ls, m - 1) {
      i := m - 1;
    } else {
      i := RetiredBy(s0, ls, x, m - 1);
    }
  }

  lemma NothingRetired(s0: State, ls: seq<Label>)
    requires Init(s0) && Runnable(s0, ls)
    ensures At(s0, ls, 0).retired == multiset{}
  {
    hide Apply, Enabled, Runnable;
  }

  lemma {:induction false} RetiredOnce(s0: State, ls: seq<Label>, i: nat, m: nat)
    requires Init(s0) && Runnable(s0, ls) && i < m <= |ls| && ls[i].Retire?
    ensures At(s0, ls, m).retired[EntryOf(s0, ls, i)] == 1
  {
    hide Apply, Enabled, Runnable, OpenSections, At, Init, Retires;
    RetiredNext(s0, ls, m - 1);
    if i < m - 1 {
      RetiredOnce(s0, ls, i, m - 1);
      RetiresGrow(ls, i, m - 1);
    }
  }

  lemma {:induction false} ConservedAt(s0: State, ls: seq<Label>, x: Entry, m: nat)
    requires Init(s0) && Runnable(s0, ls) && m <= |ls|
    ensures At(s0, ls, m).retired[x] == At(s0, ls, m).ejected[x] + AllHeld(At(s0, ls, m).threads, x)
  {
    hide Apply, Enabled, Runnable, AllHeld;
    if m == 0 {
      InitConserves(s0, x);
    } else {
      hide At, Init;
      ConservedAt(s0, ls, x, m - 1);
      AtNext(s0, ls, m - 1);
      StepConserves(At(s0, ls, m - 1), ls[m - 1], x);
    }
  }

  /** Over every run each retired action is in one place: it has run, once, or one thread still holds it. And only
      what was retired runs. */
  lemma NoneLostNoneTwice(s0: State, ls: seq<Label>, m: nat)
    requires Init(s0) && Runnable(s0, ls) && m <= |ls|
    ensures forall i :: 0 <= i < m && ls[i].Retire? ==>
              var x := EntryOf(s0, ls, i); At(s0, ls, m).ejected[x] + AllHeld(At(s0, ls, m).threads, x) == 1
    ensures forall x :: x in At(s0, ls, m).ejected ==>
              exists i :: 0 <= i < m && ls[i].Retire? && x == EntryOf(s0, ls, i)
    ensures forall i, j :: 0 <= i < j < m && ls[i].Retire? && ls[j].Retire? ==>
              EntryOf(s0, ls, i) != EntryOf(s0, ls, j)
  {
    hide Apply, Enabled, Runnable, At, Init, AllHeld, Retires;
    forall i | 0 <= i < m && ls[i].Retire?
      ensures At(s0, ls, m).ejected[EntryOf(s0, ls, i)] + AllHeld(At(s0, ls, m).threads, EntryOf(s0, ls, i)) == 1
    {
      ConservedAt(s0, ls, EntryOf(s0, ls, i), m);
      RetiredOnce(s0, ls, i, m);
    }
    forall x | x in At(s0, ls, m).ejected
      ensures exists i :: 0 <= i < m && ls[i].Retire? && x == EntryOf(s0, ls, i)
    {
      ConservedAt(s0, ls, x, m);
      var i := RetiredBy(s0, ls, x, m);
    }
    forall i, j | 0 <= i < j < m && ls[i].Retire? && ls[j].Retire?
      ensures EntryOf(s0, ls, i) != EntryOf(s0, ls, j)
    {
      RetiresGrow(ls, i, j);
    }
  }

  lemma {:induction false} RetiresGrow(ls: seq<Label>, i: nat, m: nat)
    requires i < m <= |ls|
    ensures Retires(ls, i) + (if ls[i].Retire? then 1 else 0) <= Retires(ls, m)
  {
    if i < m - 1 { RetiresGrow(ls, i, m - 1); }
  }

  /** In every run an action runs only after every critical section has ended in which some thread was when the
      action was retired. */
  lemma EjectedAfterGrace(s0: State, ls: seq<Label>, i: nat, m: nat, t: Tid, b: nat)
    requires Init(s0) && Runnable(s0, ls) && i < m <= |ls| && ls[i].Retire?
    requires EntryOf(s0, ls, i) in At(s0, ls, m).ejected && Inside(ls, t, b, i)
    ensures !Inside(ls, t, b, m)
  {
    hide Apply, Enabled, Runnable, At, Init, Retires, Standing, ThreadsOk, ListsOk;
    if Inside(ls, t, b, m) {
      InsideIsThread(s0, ls, t, b, m);
      SameSection(s0, ls, t, b, i, m);
      GuardOver(s0, ls, i, m, Section(t, At(s0, ls, i).threads[t].ended));
    }
  }

  lemma GuardOver(s0: State, ls: seq<Label>, i: nat, m: nat, g: Section)
    requires Init(s0) && Runnable(s0, ls) && i < m <= |ls| && ls[i].Retire?
    requires EntryOf(s0, ls, i) in At(s0, ls, m).ejected && Open(At(s0, ls, i), g)
    ensures Over(At(s0, ls, m), g)
  {
    hide Apply, Enabled, Runnable, At, Init, Retires, ThreadsOk, ListsOk;
    assert g in EntryOf(s0, ls, i).guards;
    AtInv(s0, ls, m);
  }

  // ---------------------------------------------------------------- passes

  /** How often the epoch has advanced in the first m steps. */
  ghost function Advances(ls: seq<Label>, m: nat): nat
    requires m <= |ls|
  {
    if m == 0 then 0 else Advances(ls, m - 1) + (if ls[m - 1].Advance? then 1 else 0)
  }

  /** The epoch at the latest guard of thread t that found none standing. */
  ghost function SectionEpoch(ls: seq<Label>, t: Tid, m: nat): nat
    requires m <= |ls|
  {
    if m == 0 then 0
    else if ls[m - 1] == Guard(t) && Standing(ls, t, m - 1) == 0 then Advances(ls, m - 1)
    else SectionEpoch(ls, t, m - 1)
  }

  /** What a thread announces, or is about to announce. */
  ghost predicate Announces(th: Thread, e: nat) {
    (th.announced.Some? ==> th.announced.value == e) && (th.read.Some? ==> th.read.value == e)
  }

  lemma AnnouncesStep(s: State, l: Label, t: Tid, e: nat)
    requires Enabled(s, l) && ThreadsOk(s) && t < |s.threads| && Announces(s.threads[t], e)
    ensures t < |Apply(s, l).threads|
    ensures Announces(Apply(s, l).threads[t], if l == Guard(t) && s.threads[t].guards == [] then s.epoch else e)
    ensures Apply(s, l).epoch == s.epoch + (if l.Advance? then 1 else 0)
  {
    hide ApplyPass;
    assert ThreadOk(s.epoch, s.threads[t]);
    if l.StepPass? { PassKeepsGuards(s, l.t, t); PassKeepsEpoch(s, l.t); }
  }

  lemma PassKeepsEpoch(s: State, t: Tid)
    requires t < |s.threads| && !s.threads[t].pass.NoPass?
    ensures ApplyPass(s, t).epoch == s.epoch
  {
  }

  lemma {:induction false} AnnouncesAt(s0: State, ls: seq<Label>, t: Tid, m: nat)
    requires Init(s0) && Runnable(s0, ls) && m <= |ls| && t < |s0.threads|
    ensures t < |At(s0, ls, m).threads| && Announces(At(s0, ls, m).threads[t], SectionEpoch(ls, t, m))
    ensures At(s0, ls, m).epoch == Advances(ls, m)
  {
    hide Apply, Enabled, Runnable, ListsOk, EjectedOk, Standing;
    if m > 0 {
      hide At, Init, ThreadsOk, ThreadOk;
      AtInv(s0, ls, m - 1);
      AnnouncesAt(s0, ls, t, m - 1);
      AtNext(s0, ls, m - 1);
      GuardsAt(s0, ls, t, m - 1);
      AnnouncesStep(At(s0, ls, m - 1), ls[m - 1], t, SectionEpoch(ls, t, m - 1));
    }
  }

  lemma EpochAt(s0: State, ls: seq<Label>, m: nat)
    requires Init(s0) && Runnable(s0, ls) && m <= |ls| && |s0.threads| > 0
    ensures At(s0, ls, m).epoch == Advances(ls, m)
  {
    AnnouncesAt(s0, ls, 0, m);
  }

  /** No announcement that a pass can read stands in the way of an action with this stamp. */
  ghost predicate Unblocked(s: State, ts: nat) {
    forall t :: 0 <= t < |s.threads| && s.threads[t].announced.Some? ==> ts < s.threads[t].announced.value
  }

  /** x has run, or waits in thread t's list, or the pass of t has it and will run it. */
  ghost predicate RunsNow(s: State, t: Tid, x: Entry)
    requires t < |s.threads|
  {
    || x in s.ejected
    || (!s.threads[t].pass.NoPass? && x in s.threads[t].pass.batch && Expired(x.ts, s.threads[t].pass.min))
  }

  ghost predicate Waits(s: State, t: Tid, x: Entry)
    requires t < |s.threads|
  {
    || x in s.ejected || x in s.threads[t].deferred
    || (!s.threads[t].pass.NoPass? && x in s.threads[t].pass.batch)
    || (s.threads[t].pass.Sweep? && x in s.threads[t].pass.kept)
  }

  lemma SweepOne(batch: seq<Entry>, x: Entry)
    requires x in batch
    ensures x == batch[0] || x in batch[1..]
  {
  }

  lemma WaitsPass(s: State, t: Tid, x: Entry)
    requires Enabled(s, StepPass(t)) && Waits(s, t, x)
    ensures t < |ApplyPass(s, t).threads| && Waits(ApplyPass(s, t), t, x)
  {
    hide Expired;
    var p := s.threads[t].pass;
    if p.Sweep? && x in p.batch { SweepOne(p.batch, x); }
  }

  lemma OtherPass(s: State, t: Tid, u: Tid)
    requires Enabled(s, StepPass(t)) && u < |s.threads| && u != t
    ensures var r := ApplyPass(s, t); u < |r.threads| && r.threads[u] == s.threads[u]
    ensures forall x :: x in s.ejected ==> x in ApplyPass(s, t).ejected
  {
    hide Expired;
  }

  lemma WaitsStep(s: State, l: Label, t: Tid, x: Entry)
    requires Enabled(s, l) && t < |s.threads| && Waits(s, t, x)
    ensures t < |Apply(s, l).threads| && Waits(Apply(s, l), t, x)
  {
    hide OpenSections, ApplyPass;
    if l.StepPass? {
      if l.t == t { WaitsPass(s, t, x); } else { OtherPass(s, l.t, t); }
    }
  }

  lemma {:induction false} WaitsAt(s0: State, ls: seq<Label>, i: nat, m: nat)
    requires Init(s0) && Runnable(s0, ls) && i < m <= |ls| && ls[i].Retire?
    ensures ls[i].t < |At(s0, ls, m).threads| && Waits(At(s0, ls, m), ls[i].t, EntryOf(s0, ls, i))
  {
    hide Apply, Enabled, Runnable, At, Init, Retires, Waits, OpenSections;
    AtNext(s0, ls, m - 1);
    if i < m - 1 {
      WaitsAt(s0, ls, i, m - 1);
      WaitsStep(At(s0, ls, m - 1), ls[m - 1], ls[i].t, EntryOf(s0, ls, i));
    } else {
      RetiredNumbers(s0, ls, i);
      JustRetired(At(s0, ls, i), ls[i]);
    }
  }

  lemma JustRetired(s: State, l: Label)
    requires Enabled(s, l) && l.Retire?
    ensures l.t < |Apply(s, l).threads| && Waits(Apply(s, l), l.t, Retiring(s, l))
  {
    hide OpenSections;
    assert Retiring(s, l) in Apply(s, l).threads[l.t].deferred;
  }

  lemma StartTakes(s: State, t: Tid, x: Entry)
    requires Enabled(s, StartPass(t)) && Waits(s, t, x)
    ensures t < |Apply(s, StartPass(t)).threads| && RunsNow(Apply(s, StartPass(t)), t, x)
  {
  }

  lemma RunsPass(s: State, t: Tid, x: Entry)
    requires Enabled(s, StepPass(t)) && Unblocked(s, x.ts) && RunsNow(s, t, x)
    ensures t < |ApplyPass(s, t).threads| && RunsNow(ApplyPass(s, t), t, x)
  {
    var p := s.threads[t].pass;
    if p.Sweep? && x in p.batch { SweepOne(p.batch, x); }
  }

  lemma RunsStep(s: State, l: Label, t: Tid, x: Entry)
    requires Enabled(s, l) && t < |s.threads| && Unblocked(s, x.ts) && RunsNow(s, t, x)
    ensures t < |Apply(s, l).threads| && RunsNow(Apply(s, l), t, x)
  {
    hide OpenSections, ApplyPass, Unblocked, Expired;
    if l.StepPass? {
      if l.t == t { RunsPass(s, t, x); } else { OtherPass(s, l.t, t); }
    }
  }

  /** Nobody is, after j steps, in a section that began before the epoch had advanced past the one of step i. */
  ghost predicate Clear(ls: seq<Label>, i: nat, j: nat)
    requires i <= |ls| && j <= |ls|
  {
    forall t: Tid :: Standing(ls, t, j) > 0 ==> Advances(ls, i) < SectionEpoch(ls, t, j)
  }

  lemma ClearUnblocks(s0: State, ls: seq<Label>, i: nat, j: nat)
    requires Init(s0) && Runnable(s0, ls) && i < |ls| && j <= |ls| && ls[i].Retire? && Clear(ls, i, j)
    ensures Unblocked(At(s0, ls, j), EntryOf(s0, ls, i).ts)
  {
    hide Apply, Enabled, Runnable, At, Init, Retires, OpenSections, Advances, Standing, SectionEpoch, Core, EjectedOk;
    AtInv(s0, ls, j);
    forall t | 0 <= t < |s0.threads| && At(s0, ls, j).threads[t].announced.Some?
      ensures EntryOf(s0, ls, i).ts < At(s0, ls, j).threads[t].announced.value
    {
      AnnouncesAt(s0, ls, t, j);
      GuardsAt(s0, ls, t, j);
      EpochAt(s0, ls, i);
    }
  }

  lemma {:induction false} RunsAt(s0: State, ls: seq<Label>, i: nat, p: nat, m: nat)
    requires Init(s0) && Runnable(s0, ls) && i < p < m <= |ls| && ls[i].Retire? && ls[p] == StartPass(ls[i].t)
    requires forall j :: p < j < m ==> Clear(ls, i, j)
    ensures ls[i].t < |At(s0, ls, m).threads| && RunsNow(At(s0, ls, m), ls[i].t, EntryOf(s0, ls, i))
  {
    hide Apply, Enabled, Runnable, At, Init, Retires, Waits, OpenSections, Clear, RunsNow, Unblocked;
    AtNext(s0, ls, m - 1);
    if p < m - 1 {
      RunsAt(s0, ls, i, p, m - 1);
      ClearUnblocks(s0, ls, i, m - 1);
      RunsStep(At(s0, ls, m - 1), ls[m - 1], ls[i].t, EntryOf(s0, ls, i));
    } else {
      WaitsAt(s0, ls, i, p);
      StartTakes(At(s0, ls, p), ls[i].t, EntryOf(s0, ls, i));
    }
  }

  /** An expired action runs: once its thread has made a whole pass during which nobody was in a critical section of
      the action's epoch or an earlier one, the action has run. */
  lemma PassEjectsExpired(s0: State, ls: seq<Label>, i: nat, p: nat, m: nat)
    requires Init(s0) && Runnable(s0, ls) && i < p < m <= |ls| && ls[i].Retire? && ls[p] == StartPass(ls[i].t)
    requires forall j :: p < j < m ==> Clear(ls, i, j)
    requires ls[i].t < |At(s0, ls, m).threads| && At(s0, ls, m).threads[ls[i].t].pass.NoPass?
    ensures EntryOf(s0, ls, i) in At(s0, ls, m).ejected
  {
    hide Apply, Enabled, Runnable, At, Init, Retires, OpenSections, Clear;
    RunsAt(s0, ls, i, p, m);
  }

  /** The accesses that a pass still makes. */
  ghost function Left(s: State, t: Tid): nat
    requires t < |s.threads|
  {
    match s.threads[t].pass
    case NoPass => 0
    case Scan(next, _, batch) => (if next <= |s.threads| then |s.threads| - next else 0) + |batch| + 2
    case Sweep(_, batch, _) => |batch| + 1
  }

  ghost function PassSteps(ls: seq<Label>, t: Tid, p: nat, m: nat): nat
    requires p <= m <= |ls|
  {
    if p == m then 0 else PassSteps(ls, t, p, m - 1) + (if ls[m - 1] == StepPass(t) then 1 else 0)
  }

  lemma LeftStep(s: State, l: Label, t: Tid)
    requires Enabled(s, l) && t < |s.threads| && l != StartPass(t)
    ensures t < |Apply(s, l).threads| && Left(s, t) == Left(Apply(s, l), t) + (if l == StepPass(t) then 1 else 0)
  {
    hide OpenSections;
  }

  lemma {:induction false} LeftAt(s0: State, ls: seq<Label>, t: Tid, p: nat, m: nat)
    requires Init(s0) && Runnable(s0, ls) && p < m <= |ls| && ls[p] == StartPass(t)
    requires forall j :: p < j < m ==> ls[j] != StartPass(t)
    ensures t < |At(s0, ls, p).threads| && t < |At(s0, ls, m).threads|
    ensures var batch := At(s0, ls, p).threads[t].deferred;
            Left(At(s0, ls, m), t) + PassSteps(ls, t, p + 1, m) == if batch == [] then 0 else |s0.threads| + |batch| + 2
  {
    hide Apply, Enabled, Runnable, At, Init, OpenSections;
    AtNext(s0, ls, m - 1);
    if p < m - 1 {
      LeftAt(s0, ls, t, p, m - 1);
      LeftStep(At(s0, ls, m - 1), ls[m - 1], t);
    } else {
      AtInv(s0, ls, p);
      StartLeft(At(s0, ls, p), t);
    }
  }

  lemma StartLeft(s: State, t: Tid)
    requires Enabled(s, StartPass(t))
    ensures t < |s.threads| == |Apply(s, StartPass(t)).threads|
    ensures Left(Apply(s, StartPass(t)), t) ==
            if s.threads[t].deferred == [] then 0 else |s.threads| + |s.threads[t].deferred| + 2
  {
  }

  /** A pass reads every announcement once and goes through its entries once; then it is over. */
  lemma PassIsOverAfter(s0: State, ls: seq<Label>, t: Tid, p: nat, m: nat)
    requires Init(s0) && Runnable(s0, ls) && p < m <= |ls| && ls[p] == StartPass(t)
    requires forall j :: p < j < m ==> ls[j] != StartPass(t)
    ensures t < |At(s0, ls, p).threads| && t < |At(s0, ls, m).threads|
    ensures var batch := At(s0, ls, p).threads[t].deferred;
            At(s0, ls, m).threads[t].pass.NoPass? <==>
            PassSteps(ls, t, p + 1, m) == if batch == [] then 0 else |s0.threads| + |batch| + 2
  {
    hide Apply, Enabled, Runnable, At, Init, PassSteps;
    LeftAt(s0, ls, t, p, m);
  }
}
