/** Whole runs of interval-based reclamation, told from what the threads do: critical sections from their entries and
    exits, protections from what the calls returned, deferred actions from the calls that retired them.
 */
module IntervalRuns {
  import opened Options
  import opened Sections
  import opened IntervalReclamation

  /** The state after the first m steps. */
  ghost function At(s: State, ls: seq<Label>, m: nat): State
    requires Runnable(s, ls) && m <= |ls|
    decreases m
  {
    if m == 0 then s else At(Apply(s, ls[0]), ls[1..], m - 1)
  }

  lemma {:induction false} AtNext(s: State, ls: seq<Label>, m: nat)
    requires Runnable(s, ls) && m < |ls|
    ensures Enabled(At(s, ls, m), ls[m]) && At(s, ls, m + 1) == Apply(At(s, ls, m), ls[m])
    decreases m
  {
    hide Enabled, Apply;
    var r := Apply(s, ls[0]);
    if m == 0 {
      assert At(r, ls[1..], 0) == r;
    } else {
      AtNext(r, ls[1..], m - 1);
    }
  }

  lemma {:induction false} AtInv(s0: State, ls: seq<Label>, m: nat)
    requires Init(s0) && Runnable(s0, ls) && m <= |ls|
    ensures Inv(At(s0, ls, m)) && |At(s0, ls, m).threads| == |s0.threads|
  {
    hide Core, Apply, Enabled, Runnable;
    if m == 0 {
      InitInv(s0);
    } else {
      hide At, Init, EjectedOk;
      AtInv(s0, ls, m - 1);
      AtNext(s0, ls, m - 1);
      StepInv(At(s0, ls, m - 1), ls[m - 1]);
      SameThreads(At(s0, ls, m - 1), ls[m - 1]);
    }
  }

  lemma InitInv(s0: State)
    requires Init(s0)
    ensures Inv(s0)
  {
  }

  lemma SameThreads(s: State, l: Label)
    requires Enabled(s, l)
    ensures |Apply(s, l).threads| == |s.threads|
    ensures forall u :: 0 <= u < |s.threads| && (Global(l) || u != l.t) ==> Apply(s, l).threads[u] == s.threads[u]
    ensures !Global(l) ==> l.t < |s.threads|
  {
    hide ApplyPass, ApplyOp;
    if l.StepPass? { PassOnly(s, l.t); }
  }

  // ---------------------------------------------------------------- critical sections

  /** Where thread t stands after the first m steps: outside (0), about to announce the epoch it has read (1), or in a
      critical section (2). */
  ghost function Stage(ls: seq<Label>, t: Tid, m: nat): nat
    requires m <= |ls|
  {
    if m == 0 then 0
    else if ls[m - 1] == Enter(t) then if Stage(ls, t, m - 1) == 0 then 1 else 2
    else if ls[m - 1] == Leave(t) then 0
    else Stage(ls, t, m - 1)
  }

  /** After m steps thread t is still in the critical section that it entered in step b. */
  ghost predicate Inside(ls: seq<Label>, t: Tid, b: nat, m: nat) {
    b < m <= |ls| && ls[b] == Enter(t) && Stage(ls, t, b) == 1 && forall j :: b < j < m ==> ls[j] != Leave(t)
  }

  ghost predicate StageOk(th: Thread, n: nat) {
    (th.start.Some? <==> n == 2) && (th.read.Some? <==> n == 1) && n <= 2
  }

  lemma StageStep(s: State, l: Label, t: Tid, n: nat)
    requires Enabled(s, l) && t < |s.threads| && StageOk(s.threads[t], n)
    ensures t < |Apply(s, l).threads|
    ensures StageOk(Apply(s, l).threads[t],
                    if l == Enter(t) then if n == 0 then 1 else 2 else if l == Leave(t) then 0 else n)
    ensures l != Leave(t) ==> Apply(s, l).threads[t].ended == s.threads[t].ended
    ensures l != Leave(t) ==> forall o :: o in s.threads[t].holds ==> o in Apply(s, l).threads[t].holds
  {
    hide ApplyPass, Protectors;
    if l.StepPass? { PassOnly(s, l.t); }
  }

  lemma {:induction false} StageAt(s0: State, ls: seq<Label>, t: Tid, m: nat)
    requires Init(s0) && Runnable(s0, ls) && m <= |ls| && t < |s0.threads|
    ensures t < |At(s0, ls, m).threads| && StageOk(At(s0, ls, m).threads[t], Stage(ls, t, m))
  {
    hide Apply, Enabled, Runnable, StageOk;
    if m == 0 {
      FirstStage(s0, ls, t);
    } else {
      hide At, Init;
      StageAt(s0, ls, t, m - 1);
      AtNext(s0, ls, m - 1);
      StageStep(At(s0, ls, m - 1), ls[m - 1], t, Stage(ls, t, m - 1));
    }
  }

  lemma FirstStage(s0: State, ls: seq<Label>, t: Tid)
    requires Init(s0) && Runnable(s0, ls) && t < |s0.threads|
    ensures StageOk(At(s0, ls, 0).threads[t], Stage(ls, t, 0))
  {
    hide Runnable;
  }

  lemma {:induction false} StaysInside(ls: seq<Label>, t: Tid, b: nat, m: nat)
    requires Inside(ls, t, b, m)
    ensures Stage(ls, t, m) == 2
  {
    if b < m - 1 { StaysInside(ls, t, b, m - 1); }
  }

  lemma {:induction false} SameSection(s0: State, ls: seq<Label>, t: Tid, i: nat, m: nat)
    requires Init(s0) && Runnable(s0, ls) && t < |s0.threads| && i <= m <= |ls|
    requires forall j :: i <= j < m ==> ls[j] != Leave(t)
    ensures t < |At(s0, ls, i).threads| && t < |At(s0, ls, m).threads|
    ensures At(s0, ls, m).threads[t].ended == At(s0, ls, i).threads[t].ended
    ensures forall o :: o in At(s0, ls, i).threads[t].holds ==> o in At(s0, ls, m).threads[t].holds
  {
    hide Apply, Enabled, Runnable, At, Init, Stage, StageOk;
    StageAt(s0, ls, t, i);
    if i < m {
      SameSection(s0, ls, t, i, m - 1);
      AtNext(s0, ls, m - 1);
      StageAt(s0, ls, t, m - 1);
      StageStep(At(s0, ls, m - 1), ls[m - 1], t, Stage(ls, t, m - 1));
    }
  }

  // ---------------------------------------------------------------- retired actions

  /** How many of the first m steps retire an action. */
  ghost function Retires(ls: seq<Label>, m: nat): nat
    requires m <= |ls|
  {
    if m == 0 then 0 else Retires(ls, m - 1) + (if ls[m - 1].Retire? then 1 else 0)
  }

  /** The action that step i retires. */
  ghost function EntryOf(s0: State, ls: seq<Label>, i: nat): (x: Entry)
    requires Runnable(s0, ls) && i < |ls| && ls[i].Retire?
    ensures x.obj == ls[i].o && x.action == ls[i].action && x.n == Retires(ls, i)
  {
    var s := At(s0, ls, i);
    Entry(ls[i].o, ls[i].action, if ls[i].o in s.births then s.births[ls[i].o] else 0, s.epoch, Retires(ls, i),
          Protectors(s, ls[i].o))
  }

  ghost function Retiring(s: State, l: Label): Entry
    requires l.Retire?
  {
    Entry(l.o, l.action, if l.o in s.births then s.births[l.o] else 0, s.epoch, |s.retired|, Protectors(s, l.o))
  }

  lemma RetiredStep(s: State, l: Label)
    requires Enabled(s, l)
    ensures Apply(s, l).retired == s.retired + (if l.Retire? then multiset{Retiring(s, l)} else multiset{})
  {
    hide ApplyPass, ApplyOp, Protectors;
    if l.StepPass? { PassOnly(s, l.t); }
  }

  lemma {:induction false} RetiredNumbers(s0: State, ls: seq<Label>, m: nat)
    requires Init(s0) && Runnable(s0, ls) && m <= |ls|
    ensures |At(s0, ls, m).retired| == Retires(ls, m)
    ensures forall x :: x in At(s0, ls, m).retired ==> x.n < Retires(ls, m)
  {
    hide Apply, Enabled, Runnable, Protectors;
    if m > 0 {
      hide At, Init;
      RetiredNumbers(s0, ls, m - 1);
      AtNext(s0, ls, m - 1);
      RetiredStep(At(s0, ls, m - 1), ls[m - 1]);
    }
  }

  lemma RetiredNext(s0: State, ls: seq<Label>, m: nat)
    requires Init(s0) && Runnable(s0, ls) && m < |ls|
    ensures var s, r := At(s0, ls, m), At(s0, ls, m + 1);
            && r.retired == s.retired + (if ls[m].Retire? then multiset{EntryOf(s0, ls, m)} else multiset{})
            && (ls[m].Retire? ==> EntryOf(s0, ls, m) !in s.retired)
  {
    hide Apply, Enabled, Runnable, Protectors, At, Init, Retires;
    RetiredNumbers(s0, ls, m);
    AtNext(s0, ls, m);
    RetiredStep(At(s0, ls, m), ls[m]);
  }

  lemma {:induction false} RetiredBy(s0: State, ls: seq<Label>, x: Entry, m: nat) returns (i: nat)
    requires Init(s0) && Runnable(s0, ls) && m <= |ls| && x in At(s0, ls, m).retired
    ensures i < m && ls[i].Retire? && x == EntryOf(s0, ls, i)
  {
    hide Apply, Enabled, Runnable, Protectors, At, Init, Retires, EntryOf;
    NothingRetired(s0, ls);
    if m == 0 {
      assert false;
    }
    RetiredNext(s0, ls, m - 1);
    if ls[m - 1].Retire? && x == EntryOf(s0, ls, m - 1) {
      i := m - 1;
    } else {
      i := RetiredBy(s0, ls, x, m - 1);
    }
  }

  lemma NothingRetired(s0: State, ls: seq<Label>)
    requires Init(s0) && Runnable(s0, ls)
    ensures At(s0, ls, 0).retired == multiset{}
  {
    hide Apply, Enabled, Runnable;
  }

  lemma {:induction false} RetiredOnce(s0: State, ls: seq<Label>, i: nat, m: nat)
    requires Init(s0) && Runnable(s0, ls) && i < m <= |ls| && ls[i].Retire?
    ensures At(s0, ls, m).retired[EntryOf(s0, ls, i)] == 1
  {
    hide Apply, Enabled, Runnable, Protectors, At, Init, Retires;
    RetiredNext(s0, ls, m - 1);
    if i < m - 1 {
      RetiredOnce(s0, ls, i, m - 1);
      RetiresGrow(ls, i, m - 1);
    }
  }

  lemma {:induction false} ConservedAt(s0: State, ls: seq<Label>, x: Entry, m: nat)
    requires Init(s0) && Runnable(s0, ls) && m <= |ls|
    ensures At(s0, ls, m).retired[x] == At(s0, ls, m).ejected[x] + AllHeld(At(s0, ls, m).threads, x)
  {
    hide Apply, Enabled, Runnable, AllHeld;
    if m == 0 {
      InitConserves(s0, x);
    } else {
      hide At, Init;
      ConservedAt(s0, ls, x, m - 1);
      AtNext(s0, ls, m - 1);
      StepConserves(At(s0, ls, m - 1), ls[m - 1], x);
    }
  }

  /** Over every run each retired action is in one place: it has run, once, or one thread still holds it. And only
      what was retired runs. */
  lemma NoneLostNoneTwice(s0: State, ls: seq<Label>, m: nat)
    requires Init(s0) && Runnable(s0, ls) && m <= |ls|
    ensures forall i :: 0 <= i < m && ls[i].Retire? ==>
              var x := EntryOf(s0, ls, i); At(s0, ls, m).ejected[x] + AllHeld(At(s0, ls, m).threads, x) == 1
    ensures forall x :: x in At(s0, ls, m).ejected ==>
              exists i :: 0 <= i < m && ls[i].Retire? && x == EntryOf(s0, ls, i)
    ensures forall i, j :: 0 <= i < j < m && ls[i].Retire? && ls[j].Retire? ==>
              EntryOf(s0, ls, i) != EntryOf(s0, ls, j)
  {
    hide Apply, Enabled, Runnable, At, Init, AllHeld, Retires;
    forall i | 0 <= i < m && ls[i].Retire?
      ensures At(s0, ls, m).ejected[EntryOf(s0, ls, i)] + AllHeld(At(s0, ls, m).threads, EntryOf(s0, ls, i)) == 1
    {
      ConservedAt(s0, ls, EntryOf(s0, ls, i), m);
      RetiredOnce(s0, ls, i, m);
    }
    forall x | x in At(s0, ls, m).ejected
      ensures exists i :: 0 <= i < m && ls[i].Retire? && x == EntryOf(s0, ls, i)
    {
      ConservedAt(s0, ls, x, m);
      var i := RetiredBy(s0, ls, x, m);
    }
    forall i, j | 0 <= i < j < m && ls[i].Retire? && ls[j].Retire?
      ensures EntryOf(s0, ls, i) != EntryOf(s0, ls, j)
    {
      RetiresGrow(ls, i, j);
    }
  }

  lemma {:induction false} RetiresGrow(ls: seq<Label>, i: nat, m: nat)
    requires i < m <= |ls|
    ensures Retires(ls, i) + (if ls[i].Retire? then 1 else 0) <= Retires(ls, m)
  {
    if i < m - 1 { RetiresGrow(ls, i, m - 1); }
  }

  lemma GuardOver(s0: State, ls: seq<Label>, i: nat, m: nat, g: Section)
    requires Init(s0) && Runnable(s0, ls) && i < m <= |ls| && ls[i].Retire?
    requires EntryOf(s0, ls, i) in At(s0, ls, m).ejected && g in Protectors(At(s0, ls, i), ls[i].o)
    ensures Over(At(s0, ls, m), g)
  {
    hide Apply, Enabled, Runnable, At, Init, Retires, Core, Protectors;
    AtInv(s0, ls, m);
  }

  /** An action whose object thread t protected when it was retired runs only after t has left that section. */
  lemma ProtectedWhileInside(s0: State, ls: seq<Label>, i: nat, m: nat, t: Tid, b: nat)
    requires Init(s0) && Runnable(s0, ls) && i < m <= |ls| && ls[i].Retire? && t < |At(s0, ls, i).threads|
    requires EntryOf(s0, ls, i) in At(s0, ls, m).ejected && Inside(ls, t, b, i)
    requires Protects(At(s0, ls, i).epoch, At(s0, ls, i).threads[t], ls[i].o)
    ensures !Inside(ls, t, b, m)
  {
    hide Apply, Enabled, Runnable, At, Init, Retires, Stage, Protects;
    if Inside(ls, t, b, m) {
      AtInv(s0, ls, i);
      SameSection(s0, ls, t, i, m);
      GuardOver(s0, ls, i, m, Section(t, At(s0, ls, i).threads[t].ended));
    }
  }

  // ---------------------------------------------------------------- protecting calls

  predicate Calls(l: Label, t: Tid) { (l.Protect? || l.ReserveObj?) && l.t == t }

  /** Label p calls what thread ls[p].t is at, or has last returned from, after m steps. */
  ghost predicate InCall(ls: seq<Label>, p: nat, m: nat) {
    && p < m <= |ls| && (ls[p].Protect? || ls[p].ReserveObj?)
    && forall j :: p < j < m ==> !Calls(ls[j], ls[p].t)
  }

  /** The call of label p returns `got` in step e. */
  ghost predicate Returns(s0: State, ls: seq<Label>, p: nat, e: nat, got: Option<Obj>)
    requires Runnable(s0, ls)
  {
    && e < |ls| && InCall(ls, p, e + 1)
    && ls[p].t < |At(s0, ls, e).threads| && ls[p].t < |At(s0, ls, e + 1).threads|
    && (p < e ==> !At(s0, ls, e).threads[ls[p].t].op.Idle?)
    && At(s0, ls, e + 1).threads[ls[p].t].op == Idle(got)
  }

  predicate Protecting(op: Op, c: nat) {
    op.Idle? || ((op.LoadCell? || op.ReadEpoch? || op.Announce?) && op.cell == c)
  }

  /** How a step changes where thread t is in its call. */
  lemma OpStep(s: State, l: Label, t: Tid)
    requires Enabled(s, l) && t < |s.threads|
    ensures t < |Apply(s, l).threads|
    ensures var op, op' := s.threads[t].op, Apply(s, l).threads[t].op;
            && (l.Protect? && l.t == t ==> op'.LoadCell? && op'.cell == l.c)
            && (l.ReserveObj? && l.t == t ==> op'.Reserve? && op'.obj == l.o)
            && (!Calls(l, t) && !(l.StepOp? && l.t == t) ==> op' == op)
  {
    hide ApplyPass, ApplyOp, Protectors;
    if l.StepPass? { PassOnly(s, l.t); }
  }

  lemma OwnOpStep(s: State, t: Tid, expired: bool)
    requires Enabled(s, StepOp(t, expired))
    ensures t < |Apply(s, StepOp(t, expired)).threads|
    ensures var op, op' := s.threads[t].op, Apply(s, StepOp(t, expired)).threads[t].op;
            && !op.Idle?
            && (op'.ReadEpoch? ==> op.LoadCell? && op.cell == op'.cell && op.seen == op'.seen
                                   && op.cell in s.cells && op'.result == s.cells[op.cell])
            && (op'.LoadCell? || op'.Announce? ==> !op.Reserve? && op'.cell == op.cell)
            && (op'.Reserve? ==> op' == op)
            && (op'.Idle? ==> || (op.Reserve? && op'.got == Some(op.obj))
                              || (op.ReadEpoch? && op.seen == s.epoch
                                  && op'.got == if expired then None else op.result))
            && (op'.Idle? && op'.got.Some? ==> op'.got.value in Apply(s, StepOp(t, expired)).threads[t].holds)
  {
  }

  lemma {:induction false} CallIsInvoked(s0: State, ls: seq<Label>, p: nat, m: nat)
    requires Init(s0) && Runnable(s0, ls) && InCall(ls, p, m)
    ensures ls[p].t < |At(s0, ls, m).threads|
    ensures var op := At(s0, ls, m).threads[ls[p].t].op;
            if ls[p].Protect? then Protecting(op, ls[p].c) else op.Idle? || (op.Reserve? && op.obj == ls[p].o)
  {
    hide Apply, Enabled, Runnable, At, Init;
    var t, s, l := ls[p].t, At(s0, ls, m - 1), ls[m - 1];
    AtNext(s0, ls, m - 1);
    SameThreads(s, l);
    if p < m - 1 { CallIsInvoked(s0, ls, p, m - 1); }
    OpStep(s, l, t);
    if l.StepOp? && l.t == t { OwnOpStep(s, t, l.expired); }
  }

  /** The load that a protecting call is about to judge: nothing of the thread's own has happened since. */
  lemma {:induction false} LoadOf(s0: State, ls: seq<Label>, p: nat, m: nat) returns (k: nat)
    requires Init(s0) && Runnable(s0, ls) && InCall(ls, p, m) && ls[p].Protect?
    requires ls[p].t < |At(s0, ls, m).threads| && At(s0, ls, m).threads[ls[p].t].op.ReadEpoch?
    ensures p < k < m && ls[k].StepOp? && ls[k].t == ls[p].t
    ensures forall i :: k < i <= m ==>
              ls[p].t < |At(s0, ls, i).threads|
              && At(s0, ls, i).threads[ls[p].t].op == At(s0, ls, m).threads[ls[p].t].op
    ensures ls[p].c in At(s0, ls, k).cells
    ensures At(s0, ls, k).cells[ls[p].c] == At(s0, ls, m).threads[ls[p].t].op.result
  {
    hide Apply, Enabled, Runnable, At, Init;
    var t, s, l := ls[p].t, At(s0, ls, m - 1), ls[m - 1];
    AtNext(s0, ls, m - 1);
    SameThreads(s, l);
    OpStep(s, l, t);
    CallIsInvoked(s0, ls, p, m);
    if l.StepOp? && l.t == t {
      k := m - 1;
      OwnOpStep(s, t, l.expired);
    } else {
      k := LoadOf(s0, ls, p, m - 1);
    }
  }

  /** How a call returns: by a step of the thread's own. */
  lemma ReturnStep(s0: State, ls: seq<Label>, p: nat, e: nat, got: Option<Obj>)
    requires Init(s0) && Runnable(s0, ls) && Returns(s0, ls, p, e, got)
    ensures p < e && InCall(ls, p, e) && ls[e].StepOp? && ls[e].t == ls[p].t
    ensures got.Some? ==> got.value in At(s0, ls, e + 1).threads[ls[p].t].holds
    ensures var op := At(s0, ls, e).threads[ls[p].t].op;
            if ls[p].Protect? then
              op.ReadEpoch? && op.seen == At(s0, ls, e).epoch && got == if ls[e].expired then None else op.result
            else got == Some(ls[p].o)
  {
    hide Apply, Enabled, Runnable, At, Init;
    var t, s, l := ls[p].t, At(s0, ls, e), ls[e];
    AtNext(s0, ls, e);
    OpStep(s, l, t);
    if p < e { CallIsInvoked(s0, ls, p, e); }
    if l.StepOp? && l.t == t { OwnOpStep(s, t, l.expired); }
  }

  lemma {:induction false} EpochGrows(s0: State, ls: seq<Label>, i: nat, m: nat)
    requires Init(s0) && Runnable(s0, ls) && i <= m <= |ls|
    ensures At(s0, ls, i).epoch <= At(s0, ls, m).epoch
  {
    hide Apply, Enabled, Runnable, At, Init;
    if i < m {
      EpochGrows(s0, ls, i, m - 1);
      AtNext(s0, ls, m - 1);
      EpochStep(At(s0, ls, m - 1), ls[m - 1]);
    }
  }

  lemma EpochStep(s: State, l: Label)
    requires Enabled(s, l)
    ensures s.epoch <= Apply(s, l).epoch
  {
    hide ApplyPass, ApplyOp, Protectors;
    if l.StepPass? { PassOnly(s, l.t); }
  }

  /** The epoch that a loaded pointer is judged by was announced, and current, when the pointer was loaded. */
  lemma SeenIsPast(s0: State, ls: seq<Label>, t: Tid, m: nat)
    requires Init(s0) && Runnable(s0, ls) && m <= |ls| && t < |At(s0, ls, m).threads|
    requires At(s0, ls, m).threads[t].op.ReadEpoch?
    ensures At(s0, ls, m).threads[t].op.seen <= At(s0, ls, m).epoch && At(s0, ls, m).threads[t].start.Some?
  {
    hide Apply, Enabled, Runnable, At, Init, ListsOk, EjectedOk, BirthsOk;
    AtInv(s0, ls, m);
    assert ThreadOk(At(s0, ls, m).epoch, At(s0, ls, m).births, At(s0, ls, m).threads[t]);
  }

  /** Between the load and the return, and from then on until it leaves, the section protects what it got. */
  lemma ProtectsFromLoad(s0: State, ls: seq<Label>, p: nat, e: nat, o: Obj, k: nat, b: nat, i: nat)
    requires Init(s0) && Runnable(s0, ls) && Returns(s0, ls, p, e, Some(o)) && ls[p].Protect?
    requires b < p < k < i <= |ls| && Inside(ls, ls[p].t, b, i)
    requires forall j :: k < j <= e ==>
               ls[p].t < |At(s0, ls, j).threads|
               && At(s0, ls, j).threads[ls[p].t].op == At(s0, ls, e).threads[ls[p].t].op
    ensures ls[p].t < |At(s0, ls, i).threads| && Protects(At(s0, ls, i).epoch, At(s0, ls, i).threads[ls[p].t], o)
  {
    hide Apply, Enabled, Runnable, At, Init, Stage;
    var t := ls[p].t;
    ReturnStep(s0, ls, p, e, Some(o));
    AtInv(s0, ls, e);
    if i <= e {
      SeenIsPast(s0, ls, t, i);
      EpochGrows(s0, ls, i, e);
    } else {
      SameSection(s0, ls, t, e + 1, i);
      StaysInside(ls, t, b, i);
      StageAt(s0, ls, t, i);
    }
  }

  /** Thread t calls protect_snapshot of cell c and gets o. Then o was in the cell at step k of the call, and no action
      on o that is retired after that step runs before t has left the critical section of the call. */
  lemma EjectedAfterProtectors(s0: State, ls: seq<Label>, p: nat, e: nat, o: Obj, b: nat) returns (k: nat)
    requires Init(s0) && Runnable(s0, ls) && Returns(s0, ls, p, e, Some(o)) && ls[p].Protect?
    requires Inside(ls, ls[p].t, b, p)
    ensures p < k < e && ls[p].c in At(s0, ls, k).cells && At(s0, ls, k).cells[ls[p].c] == Some(o)
    ensures forall i, m ::
              k < i < m <= |ls| && ls[i].Retire? && ls[i].o == o && EntryOf(s0, ls, i) in At(s0, ls, m).ejected ==>
                !Inside(ls, ls[p].t, b, m)
  {
    hide Apply, Enabled, Runnable, At, Init, Stage, EntryOf, Protects;
    ReturnStep(s0, ls, p, e, Some(o));
    k := LoadOf(s0, ls, p, e);
    forall i, m |
        k < i < m <= |ls| && ls[i].Retire? && ls[i].o == o && EntryOf(s0, ls, i) in At(s0, ls, m).ejected
      ensures !Inside(ls, ls[p].t, b, m)
    {
      if Inside(ls, ls[p].t, b, m) {
        ProtectsFromLoad(s0, ls, p, e, o, k, b, i);
        ProtectedWhileInside(s0, ls, i, m, ls[p].t, b);
      }
    }
  }

  /** The same for reserve: it returns the object it was given, and no action on it that is retired from then on runs
      before the caller has left the critical section. */
  lemma EjectedAfterReservers(s0: State, ls: seq<Label>, p: nat, e: nat, got: Option<Obj>, b: nat)
    requires Init(s0) && Runnable(s0, ls) && Returns(s0, ls, p, e, got) && ls[p].ReserveObj?
    requires Inside(ls, ls[p].t, b, p)
    ensures got == Some(ls[p].o)
    ensures forall i, m ::
              && e < i < m <= |ls| && ls[i].Retire? && ls[i].o == ls[p].o
              && EntryOf(s0, ls, i) in At(s0, ls, m).ejected ==>
                !Inside(ls, ls[p].t, b, m)
  {
    hide Apply, Enabled, Runnable, At, Init, Stage, EntryOf;
    var t := ls[p].t;
    ReturnStep(s0, ls, p, e, got);
    forall i, m |
        e < i < m <= |ls| && ls[i].Retire? && ls[i].o == ls[p].o && EntryOf(s0, ls, i) in At(s0, ls, m).ejected
      ensures !Inside(ls, t, b, m)
    {
      if Inside(ls, t, b, m) {
        AtInv(s0, ls, e);
        SameSection(s0, ls, t, e + 1, i);
        StaysInside(ls, t, b, i);
        StageAt(s0, ls, t, i);
        ProtectedWhileInside(s0, ls, i, m, t, b);
      }
    }
  }

  /** A null answer: the cell was null at a step of the call, or its object's count was found to be zero. */
  lemma NullIsTrue(s0: State, ls: seq<Label>, p: nat, e: nat) returns (k: nat)
    requires Init(s0) && Runnable(s0, ls) && Returns(s0, ls, p, e, None) && ls[p].Protect?
    ensures p < k < e && ls[p].c in At(s0, ls, k).cells && ls[e].StepOp?
    ensures At(s0, ls, k).cells[ls[p].c] == None || ls[e].expired
  {
    hide Apply, Enabled, Runnable, At, Init;
    ReturnStep(s0, ls, p, e, None);
    k := LoadOf(s0, ls, p, e);
  }

  // ---------------------------------------------------------------- passes

  /** No interval that a pass can read meets the entry's: the threads in `early` announce no epoch as late as the birth
      of the object, the others none as early as the retirement. */
  ghost predicate Unmet(s: State, x: Entry, early: set<Tid>) {
    forall t: Tid :: t < |s.threads| ==>
      if t in early then s.threads[t].end < x.birth
      else s.threads[t].start.Some? ==> x.ts < s.threads[t].start.value
  }

  /** x has run, or the pass of thread t has it and will run it. */
  ghost predicate RunsNow(s: State, t: Tid, x: Entry, early: set<Tid>)
    requires t < |s.threads|
  {
    var p := s.threads[t].pass;
    || x in s.ejected
    || (&& !p.NoPass? && x in p.batch && !Reserved(x, p.announced)
        && (p.ReadEnd? && p.next < |s.threads| ==> p.next in early || x.ts < p.start))
  }

  /** x has run, or thread t has it. */
  ghost predicate Waits(s: State, t: Tid, x: Entry)
    requires t < |s.threads|
  {
    var p := s.threads[t].pass;
    x in s.ejected || x in s.threads[t].deferred || (!p.NoPass? && x in p.batch) || (p.Sweep? && x in p.kept)
  }

  lemma SweepOne(batch: seq<Entry>, x: Entry)
    requires x in batch
    ensures x == batch[0] || x in batch[1..]
  {
  }

  lemma WaitsPass(s: State, t: Tid, x: Entry)
    requires Enabled(s, StepPass(t)) && Waits(s, t, x)
    ensures t < |ApplyPass(s, t).threads| && Waits(ApplyPass(s, t), t, x)
  {
    hide Reserved;
    var p := s.threads[t].pass;
    if p.Sweep? && x in p.batch { SweepOne(p.batch, x); }
  }

  lemma OtherPass(s: State, t: Tid, u: Tid)
    requires Enabled(s, StepPass(t)) && u < |s.threads| && u != t
    ensures var r := ApplyPass(s, t); |r.threads| == |s.threads| && r.threads[u] == s.threads[u]
    ensures forall x :: x in s.ejected ==> x in ApplyPass(s, t).ejected
  {
    hide Reserved;
  }

  lemma WaitsStep(s: State, l: Label, t: Tid, x: Entry)
    requires Enabled(s, l) && t < |s.threads| && Waits(s, t, x)
    ensures t < |Apply(s, l).threads| && Waits(Apply(s, l), t, x)
  {
    hide Protectors, ApplyPass;
    if l.StepPass? {
      if l.t == t { WaitsPass(s, t, x); } else { OtherPass(s, l.t, t); }
    }
  }

  lemma {:induction false} WaitsAt(s0: State, ls: seq<Label>, i: nat, m: nat)
    requires Init(s0) && Runnable(s0, ls) && i < m <= |ls| && ls[i].Retire?
    ensures ls[i].t < |At(s0, ls, m).threads| && Waits(At(s0, ls, m), ls[i].t, EntryOf(s0, ls, i))
  {
    hide Apply, Enabled, Runnable, At, Init, Retires, Waits, Protectors;
    AtNext(s0, ls, m - 1);
    if i < m - 1 {
      WaitsAt(s0, ls, i, m - 1);
      WaitsStep(At(s0, ls, m - 1), ls[m - 1], ls[i].t, EntryOf(s0, ls, i));
    } else {
      RetiredNumbers(s0, ls, i);
      JustRetired(At(s0, ls, i), ls[i]);
    }
  }

  lemma JustRetired(s: State, l: Label)
    requires Enabled(s, l) && l.Retire?
    ensures l.t < |Apply(s, l).threads| && Waits(Apply(s, l), l.t, Retiring(s, l))
  {
    hide Protectors;
    assert Retiring(s, l) in Apply(s, l).threads[l.t].deferred;
  }

  lemma StartTakes(s: State, t: Tid, x: Entry, early: set<Tid>)
    requires Enabled(s, StartPass(t)) && Waits(s, t, x)
    ensures t < |Apply(s, StartPass(t)).threads| && RunsNow(Apply(s, StartPass(t)), t, x, early)
  {
  }

  lemma NotReserved(x: Entry, announced: seq<Interval>, i: Interval)
    requires !Reserved(x, announced) && (x.ts < i.first || i.last < x.birth)
    ensures !Reserved(x, announced + [i])
  {
    forall k | 0 <= k <= |announced|
      ensures x.ts < (announced + [i])[k].first || x.birth > (announced + [i])[k].last
    {
      assert k < |announced| ==> (announced + [i])[k] == announced[k];
    }
  }

  lemma RunsPass(s: State, t: Tid, x: Entry, early: set<Tid>)
    requires Enabled(s, StepPass(t)) && Unmet(s, x, early) && RunsNow(s, t, x, early)
    ensures t < |ApplyPass(s, t).threads| && RunsNow(ApplyPass(s, t), t, x, early)
  {
    hide Reserved;
    var p := s.threads[t].pass;
    if x !in s.ejected {
      if p.Sweep? { SweepOne(p.batch, x); }
      if p.ReadEnd? && p.next < |s.threads| { NotReserved(x, p.announced, Interval(p.start, s.threads[p.next].end)); }
    }
  }

  lemma RunsStep(s: State, l: Label, t: Tid, x: Entry, early: set<Tid>)
    requires Enabled(s, l) && t < |s.threads| && Unmet(s, x, early) && RunsNow(s, t, x, early)
    ensures t < |Apply(s, l).threads| && RunsNow(Apply(s, l), t, x, early)
  {
    hide Protectors, ApplyPass, Unmet, Reserved;
    if l.StepPass? {
      if l.t == t { RunsPass(s, t, x, early); } else { OtherPass(s, l.t, t); }
    }
  }

  lemma {:induction false} RunsAt(s0: State, ls: seq<Label>, i: nat, p: nat, m: nat, early: set<Tid>)
    requires Init(s0) && Runnable(s0, ls) && i < p < m <= |ls| && ls[i].Retire? && ls[p] == StartPass(ls[i].t)
    requires forall j :: p < j < m ==> Unmet(At(s0, ls, j), EntryOf(s0, ls, i), early)
    ensures ls[i].t < |At(s0, ls, m).threads| && RunsNow(At(s0, ls, m), ls[i].t, EntryOf(s0, ls, i), early)
  {
    hide Apply, Enabled, Runnable, At, Init, Retires, Waits, Protectors, RunsNow, Unmet, EntryOf;
    AtNext(s0, ls, m - 1);
    if p < m - 1 {
      RunsAt(s0, ls, i, p, m - 1, early);
      RunsStep(At(s0, ls, m - 1), ls[m - 1], ls[i].t, EntryOf(s0, ls, i), early);
    } else {
      WaitsAt(s0, ls, i, p);
      StartTakes(At(s0, ls, p), ls[i].t, EntryOf(s0, ls, i), early);
    }
  }

  /** An action runs once its thread has made a whole pass during which no announced interval met its object's: each
      thread stayed before the birth or after the retirement. */
  lemma PassEjectsUnmet(s0: State, ls: seq<Label>, i: nat, p: nat, m: nat, early: set<Tid>)
    requires Init(s0) && Runnable(s0, ls) && i < p < m <= |ls| && ls[i].Retire? && ls[p] == StartPass(ls[i].t)
    requires forall j :: p < j < m ==> Unmet(At(s0, ls, j), EntryOf(s0, ls, i), early)
    requires ls[i].t < |At(s0, ls, m).threads| && At(s0, ls, m).threads[ls[i].t].pass.NoPass?
    ensures EntryOf(s0, ls, i) in At(s0, ls, m).ejected
  {
    hide Apply, Enabled, Runnable, At, Init, EntryOf, Unmet;
    RunsAt(s0, ls, i, p, m, early);
  }

  /** At most how many accesses a pass still makes. */
  ghost function Left(s: State, t: Tid): nat
    requires t < |s.threads|
  {
    match s.threads[t].pass
    case NoPass => 0
    case ReadStart(next, _, batch) => (if next <= |s.threads| then 2 * (|s.threads| - next) else 0) + |batch| + 2
    case ReadEnd(next, _, _, batch) => (if next < |s.threads| then 2 * (|s.threads| - next) - 1 else 0) + |batch| + 2
    case Sweep(_, batch, _) => |batch| + 1
  }

  ghost function PassSteps(ls: seq<Label>, t: Tid, p: nat, m: nat): nat
    requires p <= m <= |ls|
  {
    if p == m then 0 else PassSteps(ls, t, p, m - 1) + (if ls[m - 1] == StepPass(t) then 1 else 0)
  }

  lemma ReadLeft(s: State, t: Tid)
    requires Enabled(s, StepPass(t)) && (s.threads[t].pass.ReadStart? || s.threads[t].pass.ReadEnd?)
    requires s.threads[t].pass.ReadEnd? ==> s.threads[t].pass.next < |s.threads|
    ensures t < |ApplyPass(s, t).threads| && Left(ApplyPass(s, t), t) < Left(s, t)
  {
  }

  lemma SweepLeft(s: State, t: Tid)
    requires Enabled(s, StepPass(t)) && s.threads[t].pass.Sweep?
    ensures t < |ApplyPass(s, t).threads| && Left(ApplyPass(s, t), t) < Left(s, t)
  {
    hide Reserved;
  }

  lemma OwnLeft(s: State, t: Tid)
    requires Enabled(s, StepPass(t)) && (s.threads[t].pass.ReadEnd? ==> s.threads[t].pass.next < |s.threads|)
    ensures t < |ApplyPass(s, t).threads| && Left(ApplyPass(s, t), t) < Left(s, t)
  {
    hide ApplyPass, Left;
    if s.threads[t].pass.Sweep? { SweepLeft(s, t); } else { ReadLeft(s, t); }
  }

  lemma SamePass(s: State, l: Label, t: Tid)
    requires Enabled(s, l) && t < |s.threads| && l != StartPass(t) && l != StepPass(t)
    ensures |Apply(s, l).threads| == |s.threads| && Apply(s, l).threads[t].pass == s.threads[t].pass
  {
    hide ApplyPass, Protectors;
    if l.StepPass? { PassOnly(s, l.t); }
  }

  lemma OtherLeft(s: State, l: Label, t: Tid)
    requires Enabled(s, l) && t < |s.threads| && l != StartPass(t) && l != StepPass(t)
    ensures t < |Apply(s, l).threads| && Left(Apply(s, l), t) == Left(s, t)
  {
    hide Apply, Enabled;
    SamePass(s, l, t);
  }

  lemma EndsInside(s: State, t: Tid)
    requires Inv(s) && t < |s.threads| && s.threads[t].pass.ReadEnd?
    ensures s.threads[t].pass.next < |s.threads|
  {
    hide BirthsOk, ThreadsOk, EjectedOk, AllOk, AllSeen, AllHalfSeen;
  }

  lemma {:induction false} LeftAt(s0: State, ls: seq<Label>, t: Tid, p: nat, m: nat)
    requires Init(s0) && Runnable(s0, ls) && p < m <= |ls| && ls[p] == StartPass(t)
    requires forall j :: p < j < m ==> ls[j] != StartPass(t)
    ensures t < |At(s0, ls, p).threads| && t < |At(s0, ls, m).threads|
    ensures Left(At(s0, ls, m), t) + PassSteps(ls, t, p + 1, m)
              <= 2 * |s0.threads| + |At(s0, ls, p).threads[t].deferred| + 2
  {
    hide Apply, Runnable, At, Init, Inv;
    var s := At(s0, ls, m - 1);
    AtNext(s0, ls, m - 1);
    AtInv(s0, ls, m - 1);
    if p < m - 1 {
      LeftAt(s0, ls, t, p, m - 1);
      hide Left;
      if ls[m - 1] == StepPass(t) {
        if s.threads[t].pass.ReadEnd? { EndsInside(s, t); }
        OwnLeft(s, t);
        StepIsPass(s, t);
      } else {
        OtherLeft(s, ls[m - 1], t);
      }
    } else {
      StartLeft(s, t);
    }
  }

  lemma StepIsPass(s: State, t: Tid)
    requires Enabled(s, StepPass(t))
    ensures Apply(s, StepPass(t)) == ApplyPass(s, t)
  {
  }

  lemma StartLeft(s: State, t: Tid)
    requires Enabled(s, StartPass(t))
    ensures t < |s.threads| == |Apply(s, StartPass(t)).threads|
    ensures Left(Apply(s, StartPass(t)), t) <= 2 * |s.threads| + |s.threads[t].deferred| + 2
  {
  }

  /** A pass reads the two ends of every interval at most once and goes through its entries once: it is over after at
      most 2 P + n + 2 accesses. */
  lemma PassIsOverWithin(s0: State, ls: seq<Label>, t: Tid, p: nat, m: nat)
    requires Init(s0) && Runnable(s0, ls) && p < m <= |ls| && ls[p] == StartPass(t)
    requires forall j :: p < j < m ==> ls[j] != StartPass(t)
    ensures t < |At(s0, ls, p).threads| && t < |At(s0, ls, m).threads|
    ensures var most := 2 * |s0.threads| + |At(s0, ls, p).threads[t].deferred| + 2;
            && PassSteps(ls, t, p + 1, m) <= most
            && (PassSteps(ls, t, p + 1, m) == most ==> At(s0, ls, m).threads[t].pass.NoPass?)
  {
    hide Apply, Enabled, Runnable, At, Init, PassSteps;
    LeftAt(s0, ls, t, p, m);
  }
}
