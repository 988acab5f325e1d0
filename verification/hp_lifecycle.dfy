/** The life of every object over whole runs: created, destroyed, deleted, in that order and once each. */
module HpLifecycle {
  import opened Options
  import opened HpModel
  import opened HpInvariant
  import opened HpUpdates
  import opened HpTickets
  import opened HpPhases
  import opened HpThreads
  import opened HpSteps
  import opened HpCalls
  import opened HpSafety

  /** The order of phases. The managed object is destroyed on the way from Claimed to Doomed (no weak
      reference) or from Delayed to Disposed (after the delay). */
  ghost predicate PhaseStep(p: Phase, q: Phase) {
    || q == p
    || (p.Free? && q.Live?)
    || (p.Live? && q.Expired?)
    || (p.Expired? && q.Claimed?)
    || (p.Claimed? && (q.Delayed? || q.Doomed?))
    || (p.Delayed? && q.Disposed?)
    || (p.Disposed? && q.Doomed?)
    || (p.Doomed? && q.Free?)
  }

  ghost predicate SamePhases(s: State, s': State) {
    s'.objs.Keys == s.objs.Keys && forall o :: o in s.objs ==> s'.objs[o].phase == s.objs[o].phase
  }

  /** Every object moves along the order; only one object moves in one step. */
  ghost predicate PhasesOrdered(s: State, s': State) {
    s'.objs.Keys == s.objs.Keys && forall o :: o in s.objs ==> PhaseStep(s.objs[o].phase, s'.objs[o].phase)
  }

  lemma ClientPhases(s: State, l: ClientStep)
    requires ClientEnabled(s, l)
    ensures PhasesOrdered(s, ApplyClient(s, l))
  {
    hide Unpinned;
  }

  lemma MoveIntoPhases(s: State, t: Tid, c: CellId, src: CellVal, said: Answer)
    requires IsThread(s, t) && CellReady(s, c) && Movable(s, c, src)
    ensures SamePhases(s, MoveInto(s, t, c, src, said))
  {
    hide Unpinned;
  }

  lemma StorePhases(s: State, l: CallStep)
    requires CallEnabled(s, l) && (l.StoreMove? || l.CasMove? || l.Start? || l.Reserve?)
    ensures SamePhases(s, ApplyCall(s, l))
  {
    hide Movable, MoveInto;
    match l {
      case StoreMove(t, c, src) => MoveIntoPhases(s, t, c, src, Stored);
      case CasMove(t, c, _, src) => MoveIntoPhases(s, t, c, src, Swapped(true));
      case Start(_, _, _, _) =>
      case Reserve(_, _, _, _) =>
    }
  }

  lemma CopyIntoPhases(s: State, t: Tid, c: CellId, o: Obj, j: Slot)
    requires CellReady(s, c) && HasObj(s, o)
    ensures SamePhases(s, CopyInto(s, t, c, o, j))
  {
  }

  lemma CopyPhases(s: State, l: CallStep)
    requires CallEnabled(s, l) && (l.StoreSnap? || l.CasSnap? || l.CasReserved?)
    ensures SamePhases(s, ApplyCall(s, l))
  {
    hide CopyInto;
    match l {
      case StoreSnap(t, c, j) => CopyIntoPhases(s, t, c, s.slots[j].ann.value, j);
      case CasSnap(t, c, _, j) => CopyIntoPhases(s, t, c, s.slots[j].ann.value, j);
      case CasReserved(t, c, _) => CopyIntoPhases(s, t, c, s.ops[t].o, SLOTS * t);
    }
  }

  lemma GoSlotPhases(s: State, t: Tid)
    requires GoEnabled(s, t)
    requires (s.ops[t].Begin? || s.ops[t].Loaded? || s.ops[t].Announced? || s.ops[t].Recheck? || s.ops[t].Finish?)
    ensures SamePhases(s, GoStep(s, t))
  {
  }

  lemma GoReadPhases(s: State, t: Tid)
    requires GoEnabled(s, t) && (s.ops[t].TakeRef? || s.ops[t].TryRef? || s.ops[t].CheckUse?)
    ensures PhasesOrdered(s, GoStep(s, t))
  {
  }

  lemma GoRefPhases(s: State, t: Tid)
    requires GoEnabled(s, t) && (s.ops[t].Retiring? || s.ops[t].CasRetire? || s.ops[t].CopyInc?)
    ensures SamePhases(s, GoStep(s, t))
  {
  }

  lemma CallPhases(s: State, l: CallStep)
    requires CallEnabled(s, l)
    ensures PhasesOrdered(s, ApplyCall(s, l))
  {
    if l.Go? {
      hide GoStep;
      var t := l.t;
      if s.ops[t].TakeRef? || s.ops[t].TryRef? || s.ops[t].CheckUse? { GoReadPhases(s, t); }
      else if s.ops[t].Retiring? || s.ops[t].CasRetire? || s.ops[t].CopyInc? { GoRefPhases(s, t); }
      else { GoSlotPhases(s, t); }
    } else {
      hide ApplyCall, CallEnabled;
      if l.StoreSnap? || l.CasSnap? || l.CasReserved? { CopyPhases(s, l); } else { StorePhases(s, l); }
    }
  }

  lemma PassPhases(s: State, l: ReclaimStep)
    requires Inv(s) && ReclaimEnabled(s, l)
    requires (l.PassBegin? || l.PassScan? || l.PassCount? || l.PassDispose? || l.PassEnd?)
    ensures PhasesOrdered(s, ApplyReclaim(s, l))
  {
    hide Core, Threads, Todo, TodoDispose, Scanned, Keep, NewLast, KeptOf;
    if l.PassDispose? {
      TodoHas(s, l.t, l.o);
      CorePhase(s, l.o);
    }
    if l.PassCount? { TodoTicket(s, l.t, l.o, l.k, l.i); }
  }

  lemma TodoHas(s: State, t: Tid, o: Obj)
    requires TodoDispose(s, t, o)
    ensures HasObj(s, o) && s.objs[o].shared.Retired? && t < |s.passes|
  {
  }

  lemma TodoTicket(s: State, t: Tid, o: Obj, k: Kind, i: Ticket)
    requires Todo(s, t, o, k, i)
    ensures HasTicket(s, o, k, i) && t < |s.passes|
  {
  }

  lemma LifePhases(s: State, l: ReclaimStep)
    requires Inv(s) && ReclaimEnabled(s, l)
    requires !(l.PassBegin? || l.PassScan? || l.PassCount? || l.PassDispose? || l.PassEnd?)
    ensures PhasesOrdered(s, ApplyReclaim(s, l))
  {
    hide Core, Threads;
    if l.WeakZero? { WeakZeroIsDisposed(s, l.o); }
  }

  /** A weak count of zero means that the object was disposed. */
  lemma WeakZeroIsDisposed(s: State, o: Obj)
    requires Core(s) && HasObj(s, o) && s.objs[o].phase !in {Free, Doomed} && s.objs[o].weak.cnt == 0
    ensures s.objs[o].phase.Disposed?
  {
    hide Slots, Objects, Passes, Links, Cells;
    CorePhase(s, o);
    CoreAccountable(s, o, Weak);
    Covered(s.objs[o].weak, s.slots);
  }

  lemma StepPhases(s: State, l: Label)
    requires Inv(s) && Enabled(s, l)
    ensures PhasesOrdered(s, Apply(s, l))
  {
    hide Inv, ClientEnabled, CallEnabled, ReclaimEnabled, ApplyClient, ApplyCall, ApplyReclaim, PhasesOrdered;
    match l {
      case Client(a) => ClientPhases(s, a);
      case Call(a) => CallPhases(s, a);
      case Reclaim(a) => if a.PassBegin? || a.PassScan? || a.PassCount? || a.PassDispose?
          || a.PassEnd? { PassPhases(s, a); } else { LifePhases(s, a); }
    }
  }

  // ---------------------------------------------------------------- counting over runs

  datatype Event = Created | Destroyed | Deleted

  predicate Happens(p: Phase, q: Phase, e: Event) {
    match e
    case Created => p.Free? && !q.Free?
    case Destroyed => Undisposed(p) && !Undisposed(q)
    case Deleted => !p.Free? && q.Free?
  }

  /** How often event e happens to object o in the run. */
  ghost function Times(s: State, ls: seq<Label>, o: Obj, e: Event): nat
    requires Runnable(s, ls)
    decreases |ls|
  {
    if ls == [] then 0
    else
      var s' := Apply(s, ls[0]);
      (if o in s.objs && o in s'.objs && Happens(s.objs[o].phase, s'.objs[o].phase, e) then 1 else 0)
          + Times(s', ls[1..], o, e)
  }

  /** How many of the creations so far are not yet destroyed, and of the destructions not yet deleted. */
  function Alive(p: Phase): int { if Undisposed(p) then 1 else 0 }
  function Lingering(p: Phase): int { if p.Disposed? || p.Doomed? then 1 else 0 }

  lemma PhaseBalance(p: Phase, q: Phase)
    requires PhaseStep(p, q)
    ensures (if Happens(p, q, Created) then 1 else 0) - (if Happens(p, q, Destroyed) then 1 else 0)
        == Alive(q) - Alive(p)
    ensures (if Happens(p, q, Destroyed) then 1 else 0) - (if Happens(p, q, Deleted) then 1 else 0)
        == Lingering(q) - Lingering(p)
  {
  }

  lemma {:induction false} LifecycleFrom(s: State, ls: seq<Label>, o: Obj)
    requires Inv(s) && Runnable(s, ls) && HasObj(s, o)
    ensures HasObj(Run(s, ls), o)
    ensures Times(s, ls, o, Created) - Times(s, ls, o, Destroyed)
        == Alive(Run(s, ls).objs[o].phase) - Alive(s.objs[o].phase)
    ensures Times(s, ls, o, Destroyed) - Times(s, ls, o, Deleted)
        == Lingering(Run(s, ls).objs[o].phase) - Lingering(s.objs[o].phase)
    decreases |ls|
  {
    hide Inv, Apply, Enabled, PhaseStep, Happens, Alive, Lingering;
    if ls != [] {
      var s' := Apply(s, ls[0]);
      StepInv(s, ls[0]);
      StepPhases(s, ls[0]);
      PhaseBalance(s.objs[o].phase, s'.objs[o].phase);
      LifecycleFrom(s', ls[1..], o);
    }
  }

  /** Over every run and for every address, whichever way disposal goes: creations, destructions of the
      managed object and deletions of the control block alternate in that order. So each object is destroyed
      at most once and deleted at most once, never deleted before it is destroyed. */
  lemma OncePerLife(s0: State, ls: seq<Label>, o: Obj)
    requires Init(s0) && Runnable(s0, ls) && HasObj(s0, o)
    ensures HasObj(Run(s0, ls), o)
    ensures Times(s0, ls, o, Created) == Times(s0, ls, o, Destroyed) + Alive(Run(s0, ls).objs[o].phase)
    ensures Times(s0, ls, o, Destroyed) == Times(s0, ls, o, Deleted) + Lingering(Run(s0, ls).objs[o].phase)
  {
    hide Inv, Runnable, Run, Times;
    InitInv(s0);
    LifecycleFrom(s0, ls, o);
  }

  /** In every run nobody owns or reads what has been destroyed: no strong reference, no snapshot from a strong
      cell, no weak snapshot that was returned. And nothing at all refers to what has been deleted. */
  lemma NobodyWatchesTheDead(s0: State, ls: seq<Label>, o: Obj)
    requires Init(s0) && Runnable(s0, ls) && HasObj(Run(s0, ls), o)
    ensures var s := Run(s0, ls);
            !Undisposed(s.objs[o].phase) ==>
              && s.objs[o].strong.tok == map[] && s.objs[o].strong.deb == map[]
              && forall j :: 0 <= j < |s.slots| && s.slots[j].ann == Some(o) && s.slots[j].prot.Valid? ==>
                s.slots[j].prot.kind.Weak? && !s.slots[j].prot.use.Positive?
    ensures var s := Run(s0, ls);
            s.objs[o].phase.Free? || s.objs[o].phase.Doomed? ==>
              && s.objs[o].weak.tok == map[] && s.objs[o].weak.deb == map[]
              && forall j :: 0 <= j < |s.slots| && s.slots[j].ann == Some(o) ==> s.slots[j].prot.NoProt?
  {
    hide Runnable, Run, Core, Threads;
    InitInv(s0);
    RunInv(s0, ls);
    DeadIsUnwatched(Run(s0, ls), o);
  }

  lemma DeadIsUnwatched(s: State, o: Obj)
    requires Core(s) && HasObj(s, o)
    ensures !Undisposed(s.objs[o].phase) ==>
              && s.objs[o].strong.tok == map[] && s.objs[o].strong.deb == map[]
              && forall j :: 0 <= j < |s.slots| && s.slots[j].ann == Some(o) && s.slots[j].prot.Valid? ==>
                s.slots[j].prot.kind.Weak? && !s.slots[j].prot.use.Positive?
    ensures s.objs[o].phase.Free? || s.objs[o].phase.Doomed? ==>
              && s.objs[o].weak.tok == map[] && s.objs[o].weak.deb == map[]
              && forall j :: 0 <= j < |s.slots| && s.slots[j].ann == Some(o) ==> s.slots[j].prot.NoProt?
  {
    hide Core;
    StrongCount(s, o);
    WeakCount(s, o);
    if !Undisposed(s.objs[o].phase) {
      InvStrong(s);
      InvWeak(s);
    }
    if s.objs[o].phase.Free? || s.objs[o].phase.Doomed? {
      forall j | 0 <= j < |s.slots| && s.slots[j].ann == Some(o) ensures s.slots[j].prot.NoProt? { NoReaders(s, o, j); }
    }
  }
}
