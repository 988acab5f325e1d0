/** What a snapshot and a reference are good for: from the moment that a call has given them out until their holder
    clears, drops or moves them, the object is there. */
module HpHolders {
  import opened Options
  import opened HpModel
  import opened HpInvariant
  import opened HpThreads
  import opened HpCalls
  import opened HpSafety
  import opened HpRuns
  import opened HpAnswers

  // ---------------------------------------------------------------- snapshots

  /** Thread t has a snapshot of o in slot j, taken from a cell of kind k. */
  predicate Snapshots(s: State, t: Tid, j: Slot, o: Obj, k: Kind) {
    && HasSnapshot(s, t, j) && s.slots[j].ann == Some(o) && s.slots[j].prot.kind == k
    && (k.Weak? ==> s.slots[j].prot.use.Positive?)
  }

  /** The thread is not at work on slot j. */
  predicate Away(op: Op, j: Slot) {
    match op
    case Begin(_, j2, _) => j2 != j
    case Loaded(_, j2, _, _) => j2 != j
    case Announced(_, j2, _, _) => j2 != j
    case TakeRef(_, j2, _) => j2 != j
    case TryRef(_, j2, _) => j2 != j
    case CheckUse(_, j2, _) => j2 != j
    case Recheck(_, j2, _, _) => j2 != j
    case Finish(j2, _, _) => j2 != j
    case _ => true
  }

  ghost predicate Keeps(s: State, t: Tid, j: Slot, o: Obj, k: Kind) {
    Snapshots(s, t, j, o, k) && t < |s.ops| && Away(s.ops[t], j)
  }

  lemma OtherSlot(s: State, t: Tid, j: Slot, u: Tid, j2: Slot)
    requires OwnSlot(s, t, j) && OwnSlot(s, u, j2) && u != t
    ensures j != j2
  {
  }

  /** A step that leaves slot j alone. */
  ghost predicate SlotLeft(s: State, s': State, j: Slot) {
    |s'.slots| == |s.slots| && (j < |s.slots| ==> s'.slots[j] == s.slots[j])
  }

  lemma GoSlotsOfReads(s: State, t: Tid, j: Slot)
    requires GoEnabled(s, t) && Away(s.ops[t], j) && (s.ops[t].Begin? || s.ops[t].Loaded? || s.ops[t].Announced?)
    ensures SlotLeft(s, GoStep(s, t), j)
  {
  }

  lemma GoSlotsOfChecks(s: State, t: Tid, j: Slot)
    requires GoEnabled(s, t) && Away(s.ops[t], j) && (s.ops[t].CheckUse? || s.ops[t].Recheck? || s.ops[t].Finish?)
    ensures SlotLeft(s, GoStep(s, t), j)
  {
  }

  lemma GoSlotsOfRefs(s: State, t: Tid, j: Slot)
    requires GoEnabled(s, t) && Away(s.ops[t], j) && (s.ops[t].TakeRef? || s.ops[t].TryRef?)
    ensures SlotLeft(s, GoStep(s, t), j)
  {
  }

  lemma GoSlotsOfRest(s: State, t: Tid, j: Slot)
    requires GoEnabled(s, t) && (s.ops[t].Retiring? || s.ops[t].CasRetire? || s.ops[t].CopyInc?)
    ensures SlotLeft(s, GoStep(s, t), j)
  {
  }

  lemma GoSlots(s: State, t: Tid, j: Slot)
    requires GoEnabled(s, t) && Away(s.ops[t], j)
    ensures SlotLeft(s, GoStep(s, t), j)
  {
    hide GoStep, Away, SlotLeft;
    var op := s.ops[t];
    if op.Begin? || op.Loaded? || op.Announced? { GoSlotsOfReads(s, t, j); }
    else if op.CheckUse? || op.Recheck? || op.Finish? { GoSlotsOfChecks(s, t, j); }
    else if op.TakeRef? || op.TryRef? { GoSlotsOfRefs(s, t, j); }
    else { GoSlotsOfRest(s, t, j); }
  }

  lemma OpSlot(s: State, t: Tid, j: Slot)
    requires Inv(s) && t < |s.ops| && !Away(s.ops[t], j)
    ensures OwnSlot(s, t, j)
  {
    hide Core, Threads;
    OpOf(s, t);
  }

  /** After its step the thread is at work on the slot it was at work on, or on its first one. */
  lemma GoAway(s: State, t: Tid, j: Slot)
    requires Inv(s) && GoEnabled(s, t) && Away(s.ops[t], j) && j % SLOTS != 0
    ensures t < |GoStep(s, t).ops| && Away(GoStep(s, t).ops[t], j)
  {
    hide Core, Threads;
    OpOf(s, t);
    hide GoStep, Inv;
    match s.ops[t] {
      case Begin(_, _, _) => BeginGoes(s, t);
      case Loaded(_, _, _, _) => LoadedGoes(s, t);
      case Announced(_, _, _, _) => AnnouncedGoes(s, t);
      case TakeRef(_, _, _) => TakeRefGoes(s, t);
      case TryRef(_, _, _) => TryRefGoes(s, t);
      case CheckUse(_, _, _) => CheckUseGoes(s, t);
      case Recheck(_, _, _, _) => RecheckGoes(s, t);
      case Finish(_, _, _) => FinishGoes(s, t);
      case _ => RefGoesAway(s, t, j);
    }
  }

  lemma RefGoesAway(s: State, t: Tid, j: Slot)
    requires GoEnabled(s, t) && (s.ops[t].Retiring? || s.ops[t].CasRetire? || s.ops[t].CopyInc?)
    requires j % SLOTS != 0 && (s.ops[t].CopyInc? && s.ops[t].rel ==> s.ops[t].j == SLOTS * t)
    ensures t < |GoStep(s, t).ops| && Away(GoStep(s, t).ops[t], j)
  {
  }

  // ---------------------------------------------------------------- who holds what, step by step

  lemma ClientSlots(s: State, l: ClientStep, j: Slot)
    requires ClientEnabled(s, l) && !(l.ClearSnap? && l.j == j)
    ensures SlotLeft(s, ApplyClient(s, l), j)
  {
    hide Unpinned;
  }

  lemma ReclaimSlots(s: State, l: ReclaimStep, j: Slot)
    requires ReclaimEnabled(s, l)
    ensures SlotLeft(s, ApplyReclaim(s, l), j)
  {
  }

  lemma CallSlots(s: State, l: CallStep, j: Slot)
    requires CallEnabled(s, l) && !l.Go? && !(l.Reserve? && j == SLOTS * l.t)
    ensures SlotLeft(s, ApplyCall(s, l), j)
  {
    hide Unpinned, Movable, AfterMove, AfterCopy;
  }

  lemma ValidHasObject(s: State, j: Slot)
    requires Inv(s) && j < |s.slots| && s.slots[j].prot.Valid?
    ensures s.slots[j].ann.Some? && HasObj(s, s.slots[j].ann.value)
  {
    hide Objects, Cells, Passes, Links, Threads;
    assert SlotOk(s.slots[j], j, s.objs, s.now);
  }

  lemma StartsAway(s: State, l: CallStep, j: Slot)
    requires CallEnabled(s, l) && l.Start? && j < |s.slots| && s.slots[j].ann.Some? && j % SLOTS != 0
    ensures l.t < |ApplyCall(s, l).ops| && Away(ApplyCall(s, l).ops[l.t], j)
  {
  }

  lemma MovesAway(s: State, l: CallStep, j: Slot)
    requires CallEnabled(s, l) && (l.StoreMove? || l.CasMove? || l.Reserve?)
    ensures l.t < |ApplyCall(s, l).ops| && Away(ApplyCall(s, l).ops[l.t], j)
  {
    hide Unpinned, Movable, MoveInto, CellReady;
    if !l.Reserve? { MoveIntoDoes(s, l.t, l.c, l.src, if l.StoreMove? then Stored else Swapped(true)); }
  }

  lemma CopiesAway(s: State, l: CallStep, j: Slot)
    requires CallEnabled(s, l) && (l.StoreSnap? || l.CasSnap? || l.CasReserved?) && j % SLOTS != 0
    ensures l.t < |ApplyCall(s, l).ops| && Away(ApplyCall(s, l).ops[l.t], j)
  {
    hide CopyInto;
    if l.StoreSnap? { CopyIntoDoes(s, l.t, l.c, s.slots[l.j].ann.value, l.j); }
    if l.CasSnap? { CopyIntoDoes(s, l.t, l.c, s.slots[l.j].ann.value, l.j); }
    if l.CasReserved? { CopyIntoDoes(s, l.t, l.c, s.ops[l.t].o, SLOTS * l.t); }
  }

  lemma CallKeeps(s: State, l: CallStep, t: Tid, j: Slot, o: Obj, k: Kind)
    requires Inv(s) && CallEnabled(s, l) && Keeps(s, t, j, o, k)
    ensures SlotLeft(s, ApplyCall(s, l), j)
    ensures t < |ApplyCall(s, l).ops| && Away(ApplyCall(s, l).ops[t], j)
  {
    hide Inv, Away, SlotLeft, GoStep, MoveInto, DoStoreSnap, DoCopyCas, Movable, CellReady;
    CallOps(s, l);
    if l.Go? {
      if l.t == t {
        GoAway(s, t, j);
      } else if !Away(s.ops[l.t], j) {
        OpSlot(s, l.t, j);
        OtherSlot(s, t, j, l.t, j);
      }
      GoSlots(s, l.t, j);
    } else {
      CallSlots(s, l, j);
      if l.t == t {
        if l.Start? { StartsAway(s, l, j); }
        else if l.StoreMove? || l.CasMove? || l.Reserve? { MovesAway(s, l, j); }
        else { CopiesAway(s, l, j); }
      }
    }
  }

  /** A snapshot stays until its holder clears it. */
  lemma KeepsStep(s: State, l: Label, t: Tid, j: Slot, o: Obj, k: Kind)
    requires Inv(s) && Enabled(s, l) && Keeps(s, t, j, o, k) && l != Client(ClearSnap(t, j))
    ensures Keeps(Apply(s, l), t, j, o, k)
  {
    hide Inv, Away, ApplyClient, ApplyCall, ApplyReclaim, CallEnabled, ReclaimEnabled, Unpinned;
    var s' := Apply(s, l);
    match l {
      case Client(a) =>
        if a.ClearSnap? && a.j == j { ClearsOwn(s, a, t); }
        ClientSlots(s, a, j);
        ClientOps(s, a);
      case Reclaim(a) => ReclaimSlots(s, a, j); ReclaimOps(s, a);
      case Call(a) => CallKeeps(s, a, t, j, o, k);
    }
    StepInv(s, l);
    ValidHasObject(s', j);
  }

  lemma ClearsOwn(s: State, l: ClientStep, t: Tid)
    requires ClientEnabled(s, l) && l.ClearSnap? && OwnSlot(s, t, l.j)
    ensures l.t == t
  {
  }

  /** The step with which a get_snapshot returns an object leaves the slot protected. */
  lemma ReturnsProtected(s: State, t: Tid, o: Obj)
    requires Inv(s) && GoEnabled(s, t) && t < |GoStep(s, t).ops| && GoStep(s, t).ops[t] == Idle(SnapshotOf(Some(o)))
    requires s.ops[t].Announced? || s.ops[t].CheckUse?
    ensures Snapshots(GoStep(s, t), t, s.ops[t].j, o, s.ops[t].c.kind)
  {
    hide Core, Threads;
    OpOf(s, t);
    if s.ops[t].Announced? { ReturnsStrong(s, t, o); } else { ReturnsWeak(s, t, o); }
  }

  lemma ReturnsStrong(s: State, t: Tid, o: Obj)
    requires Inv(s) && GoEnabled(s, t) && t < |GoStep(s, t).ops| && GoStep(s, t).ops[t] == Idle(SnapshotOf(Some(o)))
    requires s.ops[t].Announced? && SlotLink(s, t)
    ensures Snapshots(GoStep(s, t), t, s.ops[t].j, o, s.ops[t].c.kind)
  {
    hide Inv, GoStep;
    ReadsObject(s, s.ops[t].c);
    AnnouncedGoes(s, t);
    var op := s.ops[t];
    assert op.g == Snapshot && op.c.kind.Strong? && op.r == Some(o) && s.cells[op.c].Holds? && s.cells[op.c].o == o;
    ValidatesSlot(s, t);
  }

  lemma ValidatesSlot(s: State, t: Tid)
    requires GoEnabled(s, t) && s.ops[t].Announced? && s.ops[t].r.Some?
    requires Target(s.cells[s.ops[t].c]) == s.ops[t].r
    ensures var op, s' := s.ops[t], GoStep(s, t);
            && |s'.slots| == |s.slots| && s'.objs == s.objs && s.cells[op.c].Holds?
            && s'.slots[op.j] == s.slots[op.j].(prot := Valid(op.c.kind, s.cells[op.c].i, Unread))
  {
  }

  lemma ReadsObject(s: State, c: CellId)
    requires Inv(s) && c in s.cells
    ensures s.cells[c].Holds? ==> HasObj(s, s.cells[c].o)
  {
    hide Core, Threads;
    if s.cells[c].Holds? { CellTarget(s, c); }
  }

  lemma ReturnsWeak(s: State, t: Tid, o: Obj)
    requires GoEnabled(s, t) && t < |GoStep(s, t).ops| && GoStep(s, t).ops[t] == Idle(SnapshotOf(Some(o)))
    requires s.ops[t].CheckUse? && SlotLink(s, t)
    ensures Snapshots(GoStep(s, t), t, s.ops[t].j, o, s.ops[t].c.kind)
  {
  }

  // ---------------------------------------------------------------- snapshots, over every run

  lemma GoesNotIdle(s: State, t: Tid)
    requires GoEnabled(s, t)
    ensures t < |s.ops| && !s.ops[t].Idle?
  {
  }

  lemma ReturningOp(s0: State, ls: seq<Label>, p: nat, t: Tid, c: CellId, j: Slot, m: nat, o: Obj)
    requires Runnable(s0, ls) && Goes(s0, ls, p, m, t) && At(s0, ls, m + 1).ops[t] == Idle(SnapshotOf(Some(o)))
    requires Knows(s0, ls, p, m, c, j, Snapshot, At(s0, ls, m).ops[t])
    ensures var op := At(s0, ls, m).ops[t]; (op.Announced? || op.CheckUse?) && op.c == c && op.j == j
  {
    hide Runnable, At, GoStep, PointsIn, TrueAnswer, GoEnabled;
    var s := At(s0, ls, m);
    GoesNotIdle(s, t);
    match s.ops[t] {
      case Begin(_, _, _) => BeginGoes(s, t);
      case Loaded(_, _, _, _) => LoadedGoes(s, t);
      case Recheck(_, _, _, _) => RecheckGoes(s, t);
      case Finish(_, _, _) => FinishGoes(s, t);
      case _ =>
    }
  }

  lemma {:induction false} SnapshotHeld(s0: State, ls: seq<Label>, p: nat, t: Tid, c: CellId, j: Slot, m: nat, o: Obj)
    requires Init(s0) && Runnable(s0, ls) && InCall(ls, p, t, m) && ls[p] == Call(Start(t, c, j, Snapshot))
    requires t < |At(s0, ls, m).ops| && At(s0, ls, m).ops[t] == Idle(SnapshotOf(Some(o)))
    requires forall n :: p < n < m ==> ls[n] != Client(ClearSnap(t, j))
    ensures Keeps(At(s0, ls, m), t, j, o, c.kind)
  {
    hide Runnable, At, Init, Inv, GoStep, GoEnabled, Knows, ClientEnabled, ReclaimEnabled, ApplyClient, ApplyReclaim,
         Snapshots;
    var s, l := At(s0, ls, m - 1), ls[m - 1];
    AtNext(s0, ls, m - 1);
    AtInv(s0, ls, m - 1);
    StepOps(s, l);
    if p < m - 1 {
      KnowsAt(s0, ls, p, t, c, j, Snapshot, m - 1);
      if l == Call(Go(t)) {
        ReturningOp(s0, ls, p, t, c, j, m - 1, o);
        ReturnsProtected(s, t, o);
      } else {
        SnapshotHeld(s0, ls, p, t, c, j, m - 1, o);
        KeepsStep(s, l, t, j, o, c.kind);
      }
    }
  }

  lemma {:induction false} SnapshotStays(s0: State, ls: seq<Label>, t: Tid, j: Slot, o: Obj, k: Kind, e: nat, m: nat)
    requires Init(s0) && Runnable(s0, ls) && e <= m <= |ls| && Keeps(At(s0, ls, e), t, j, o, k)
    requires forall n :: e <= n < m ==> ls[n] != Client(ClearSnap(t, j))
    ensures Keeps(At(s0, ls, m), t, j, o, k)
  {
    hide Runnable, At, Init, Inv, Keeps, Enabled, Apply;
    if e < m {
      SnapshotStays(s0, ls, t, j, o, k, e, m - 1);
      AtNext(s0, ls, m - 1);
      AtInv(s0, ls, m - 1);
      KeepsStep(At(s0, ls, m - 1), ls[m - 1], t, j, o, k);
    }
  }

  /** The object is fit to be read through a snapshot: from a strong cell it is live, with a positive count; from a weak
      one it is not disposed of, even with no strong reference left. */
  ghost predicate Readable(s: State, o: Obj, k: Kind) {
    && HasObj(s, o)
    && if k.Strong? then s.objs[o].phase.Live? && s.objs[o].strong.cnt >= 1 else Undisposed(s.objs[o].phase)
  }

  lemma SnapshotReadable(s: State, t: Tid, j: Slot, o: Obj, k: Kind)
    requires Inv(s) && Snapshots(s, t, j, o, k)
    ensures Readable(s, o, k)
  {
    hide Core, Threads;
    if k.Strong? { InvStrong(s); } else { InvWeak(s); }
  }

  /** Over every run: label p calls get_snapshot of cell c into slot j, and after e steps it has returned o. Then, until
      thread t clears the slot, the slot holds o, and o can be read. */
  lemma EverySnapshotIsSafe(s0: State, ls: seq<Label>, p: nat, t: Tid, c: CellId, j: Slot, e: nat, o: Obj, m: nat)
    requires Init(s0) && Runnable(s0, ls) && InCall(ls, p, t, e) && ls[p] == Call(Start(t, c, j, Snapshot))
    requires t < |At(s0, ls, e).ops| && At(s0, ls, e).ops[t] == Idle(SnapshotOf(Some(o)))
    requires e <= m <= |ls| && forall n :: p < n < m ==> ls[n] != Client(ClearSnap(t, j))
    ensures Snapshots(At(s0, ls, m), t, j, o, c.kind) && Readable(At(s0, ls, m), o, c.kind)
  {
    hide Runnable, At, Init, Inv, Snapshots, Readable;
    SnapshotHeld(s0, ls, p, t, c, j, e, o);
    SnapshotStays(s0, ls, t, j, o, c.kind, e, m);
    AtInv(s0, ls, m);
    SnapshotReadable(At(s0, ls, m), t, j, o, c.kind);
  }

  // ---------------------------------------------------------------- references

  /** This step drops the reference, or moves it into a cell. */
  ghost predicate GivesUp(s: State, l: Label, o: Obj, k: Kind, i: Ticket) {
    || l == Client(DropRef(o, k, i))
    || (l.Call? && l.call.StoreMove? && l.call.c.kind == k && l.call.src == Holds(o, i))
    || (&& l.Call? && l.call.CasMove? && l.call.c.kind == k && l.call.src == Holds(o, i)
        && l.call.c in s.cells && Target(s.cells[l.call.c]) == l.call.expected)
  }

  lemma AddOwned(s: State, o2: Obj, k2: Kind, o: Obj, k: Kind, i: Ticket)
    requires HasObj(s, o2) && HasOwned(s, o, k, i)
    ensures HasOwned(AddRef(s, o2, k2), o, k, i) && HasOwned(TryAddStrong(s, o2), o, k, i)
  {
  }

  lemma ReleaseOwned(s: State, o2: Obj, k2: Kind, i2: Ticket, o: Obj, k: Kind, i: Ticket)
    requires HasTicket(s, o2, k2, i2) && HasOwned(s, o, k, i) && !(o2 == o && k2 == k && i2 == i)
    ensures HasOwned(Release(s, o2, k2, i2), o, k, i)
  {
  }

  lemma AllocOwned(s: State, o2: Obj, o: Obj, k: Kind, i: Ticket)
    requires HasObj(s, o2) && HasOwned(s, o, k, i)
    ensures HasOwned(DoAlloc(s, o2), o, k, i)
  {
  }

  lemma ClientOwned(s: State, l: ClientStep, o: Obj, k: Kind, i: Ticket)
    requires ClientEnabled(s, l) && HasOwned(s, o, k, i) && l != DropRef(o, k, i)
    ensures HasOwned(ApplyClient(s, l), o, k, i)
  {
    hide Unpinned, AddRef, TryAddStrong, Release, DoAlloc;
    match l {
      case Alloc(o2) => AllocOwned(s, o2, o, k, i);
      case Clone(o2, _, _, k2) => AddOwned(s, o2, k2, o, k, i);
      case Lock(o2, _) => AddOwned(s, o2, Strong, o, k, i);
      case SnapClone(_, j, k2) => AddOwned(s, s.slots[j].ann.value, k2, o, k, i);
      case SnapLock(_, j) => AddOwned(s, s.slots[j].ann.value, Strong, o, k, i);
      case DropRef(o2, k2, i2) => ReleaseOwned(s, o2, k2, i2, o, k, i);
      case ClearSnap(_, _) =>
    }
  }

  lemma OutOwned(s: State, c: CellId, t: Tid, o: Obj, k: Kind, i: Ticket)
    requires Core(s) && CellReady(s, c) && HasOwned(s, o, k, i)
    ensures HasOwned(CellOut(s, c, t), o, k, i)
  {
    hide Core;
    if s.cells[c].Holds? { CellTarget(s, c); }
  }

  lemma InOwned(s: State, c: CellId, o2: Obj, i2: Ticket, o: Obj, k: Kind, i: Ticket)
    requires HasObj(s, o2) && HasOwned(s, o, k, i) && !(c.kind == k && o2 == o && i2 == i)
    ensures HasOwned(CellIn(s, c, o2, i2), o, k, i)
  {
  }

  lemma OweOwned(s: State, c: CellId, o2: Obj, t: Tid, j: Slot, o: Obj, k: Kind, i: Ticket)
    requires HasObj(s, o2) && HasOwned(s, o, k, i) && i < s.now
    ensures HasOwned(CellOwe(s, c, o2, t, j), o, k, i)
  {
  }

  lemma OwnedBefore(s: State, o: Obj, k: Kind, i: Ticket)
    requires Core(s) && HasTicket(s, o, k, i)
    ensures i < s.now
  {
    hide Slots, Cells, Passes, Links;
    CoreCounter(s, o, k);
  }

  lemma MoveOwned(s: State, t: Tid, c: CellId, src: CellVal, said: Answer, o: Obj, k: Kind, i: Ticket)
    requires Core(s) && IsThread(s, t) && CellReady(s, c) && Movable(s, c, src) && HasOwned(s, o, k, i)
    requires !(c.kind == k && src == Holds(o, i))
    ensures HasOwned(MoveInto(s, t, c, src, said), o, k, i)
  {
    hide Core, CellOut, CellIn, Unpinned, AfterMove;
    OutOwned(s, c, t, o, k, i);
    if src.Holds? {
      OutOwned(s, c, t, src.o, c.kind, src.i);
      InOwned(CellOut(s, c, t), c, src.o, src.i, o, k, i);
    }
  }

  lemma CopyOwned(s: State, t: Tid, c: CellId, o2: Obj, j: Slot, o: Obj, k: Kind, i: Ticket)
    requires Core(s) && CellReady(s, c) && HasObj(s, o2) && HasOwned(s, o, k, i)
    ensures HasOwned(CopyInto(s, t, c, o2, j), o, k, i)
  {
    OutObject(s, c, t, o2);
    OwnedBefore(s, o, k, i);
    OutOwned(s, c, t, o, k, i);
    hide Core, CellOut, CellOwe;
    OweOwned(CellOut(s, c, t), c, o2, t, j, o, k, i);
  }

  lemma OutObject(s: State, c: CellId, t: Tid, o: Obj)
    requires CellReady(s, c) && HasObj(s, o)
    ensures HasObj(CellOut(s, c, t), o) && CellOut(s, c, t).now == s.now + 1
  {
  }

  lemma GoRefsOwned(s: State, t: Tid, o: Obj, k: Kind, i: Ticket)
    requires Inv(s) && GoEnabled(s, t) && HasOwned(s, o, k, i)
    requires s.ops[t].Retiring? || s.ops[t].CasRetire? || s.ops[t].CopyInc?
    ensures HasOwned(GoStep(s, t), o, k, i)
  {
    hide Core, Threads;
    OpOf(s, t);
    hide Inv;
    var op := s.ops[t];
    if op.CopyInc? { PayOwned(s, op.o, op.k, t, o, k, i); } else { RetireOwned(s, op.prev, op.k, t, o, k, i); }
    hide Retire, Pay;
  }

  lemma PayOwned(s: State, o2: Obj, k2: Kind, t: Tid, o: Obj, k: Kind, i: Ticket)
    requires HasObj(s, o2) && HasOwned(s, o, k, i)
    ensures HasOwned(Pay(s, o2, k2, t), o, k, i)
  {
  }

  lemma RetireOwned(s: State, v: CellVal, k2: Kind, t: Tid, o: Obj, k: Kind, i: Ticket)
    requires v.Holds? && InHand(s, v.o, k2, v.i, t) && HasOwned(s, o, k, i)
    ensures HasOwned(Retire(s, v.o, k2, v.i, t), o, k, i)
  {
  }

  lemma GoReadsOwned(s: State, t: Tid, o: Obj, k: Kind, i: Ticket)
    requires GoEnabled(s, t) && HasOwned(s, o, k, i)
    requires s.ops[t].TakeRef? || s.ops[t].TryRef? || s.ops[t].CheckUse?
    ensures HasOwned(GoStep(s, t), o, k, i)
  {
    hide AddRef, TryAddStrong;
    var op := s.ops[t];
    if op.TakeRef? || op.TryRef? { AddOwned(s, op.o, op.c.kind, o, k, i); }
  }

  lemma GoSlotsOwned(s: State, t: Tid, o: Obj, k: Kind, i: Ticket)
    requires GoEnabled(s, t) && HasOwned(s, o, k, i)
    requires s.ops[t].Begin? || s.ops[t].Loaded? || s.ops[t].Announced? || s.ops[t].Recheck? || s.ops[t].Finish?
    ensures HasOwned(GoStep(s, t), o, k, i)
  {
  }

  lemma EjectOwned(s: State, t: Tid, o2: Obj, k2: Kind, i2: Ticket, o: Obj, k: Kind, i: Ticket)
    requires Todo(s, t, o2, k2, i2) && HasOwned(s, o, k, i)
    ensures HasOwned(EjectCount(s, t, o2, k2, i2), o, k, i)
  {
    hide NewLast;
  }

  lemma ReclaimOwned(s: State, l: ReclaimStep, o: Obj, k: Kind, i: Ticket)
    requires ReclaimEnabled(s, l) && HasOwned(s, o, k, i)
    ensures HasOwned(ApplyReclaim(s, l), o, k, i)
  {
    hide NewLast, SeenOf, KeptOf, Scanned, Keep, EjectCount;
    if l.PassCount? { EjectOwned(s, l.t, l.o, l.k, l.i, o, k, i); }
  }

  lemma CallOwned(s: State, l: CallStep, o: Obj, k: Kind, i: Ticket)
    requires Inv(s) && CallEnabled(s, l) && HasOwned(s, o, k, i) && !GivesUp(s, Call(l), o, k, i)
    ensures HasOwned(ApplyCall(s, l), o, k, i)
  {
    hide Core, Threads, MoveInto, CopyInto, CellReady, Movable, GoStep, AfterCopy;
    match l {
      case Go(t) =>
        var op := s.ops[t];
        if op.TakeRef? || op.TryRef? || op.CheckUse? { GoReadsOwned(s, t, o, k, i); }
        else if op.Retiring? || op.CasRetire? || op.CopyInc? { GoRefsOwned(s, t, o, k, i); }
        else { GoSlotsOwned(s, t, o, k, i); }
      case StoreMove(t, c, src) => MoveOwned(s, t, c, src, Stored, o, k, i);
      case CasMove(t, c, e, src) =>
        ReadyCell(s, c);
        if Target(s.cells[c]) == e { MoveOwned(s, t, c, src, Swapped(true), o, k, i); }
      case StoreSnap(t, c, j) => ReadyCell(s, c); CopyOwned(s, t, c, s.slots[j].ann.value, j, o, k, i);
      case CasSnap(t, c, _, j) => ReadyCell(s, c); CopyOwned(s, t, c, s.slots[j].ann.value, j, o, k, i);
      case CasReserved(t, c, _) => ReadyCell(s, c); CopyOwned(s, t, c, s.ops[t].o, SLOTS * t, o, k, i);
      case Start(_, _, _, _) =>
      case Reserve(_, _, _, _) =>
    }
  }

  lemma OwnedStep(s: State, l: Label, o: Obj, k: Kind, i: Ticket)
    requires Inv(s) && Enabled(s, l) && HasOwned(s, o, k, i) && !GivesUp(s, l, o, k, i)
    ensures HasOwned(Apply(s, l), o, k, i)
  {
    hide Inv, ApplyClient, ApplyCall, ApplyReclaim, ClientEnabled, CallEnabled, ReclaimEnabled, HasOwned;
    match l {
      case Client(a) => ClientOwned(s, a, o, k, i);
      case Call(a) => CallOwned(s, a, o, k, i);
      case Reclaim(a) => ReclaimOwned(s, a, o, k, i);
    }
  }

  lemma {:induction false} OwnedStays(s0: State, ls: seq<Label>, o: Obj, k: Kind, i: Ticket, e: nat, m: nat)
    requires Init(s0) && Runnable(s0, ls) && e <= m <= |ls| && HasOwned(At(s0, ls, e), o, k, i)
    requires forall n :: e <= n < m ==> !GivesUp(At(s0, ls, n), ls[n], o, k, i)
    ensures HasOwned(At(s0, ls, m), o, k, i)
  {
    hide Runnable, At, Init, Inv, HasOwned, Enabled, Apply, GivesUp;
    if e < m {
      OwnedStays(s0, ls, o, k, i, e, m - 1);
      AtNext(s0, ls, m - 1);
      AtInv(s0, ls, m - 1);
      OwnedStep(At(s0, ls, m - 1), ls[m - 1], o, k, i);
    }
  }

  /** Over every run: from the step that hands out a reference until it is dropped or moved into a cell, it stays its
      owner's, and the object is there: live and with a positive strong count for a strong one, and with its control
      block for a weak one. */
  lemma EveryReferenceIsSafe(s0: State, ls: seq<Label>, h: nat, o: Obj, k: Kind, i: Ticket, m: nat)
    requires Init(s0) && Runnable(s0, ls) && h < m <= |ls| && HandsOut(s0, ls, h, o, k, i)
    requires forall n :: h < n < m ==> !GivesUp(At(s0, ls, n), ls[n], o, k, i)
    ensures var s := At(s0, ls, m);
            && HasOwned(s, o, k, i)
            && (k.Strong? ==> s.objs[o].phase.Live? && s.objs[o].strong.cnt >= 1)
            && (k.Weak? ==> !s.objs[o].phase.Free? && !s.objs[o].phase.Doomed? && s.objs[o].weak.cnt >= 1)
  {
    hide Runnable, At, Init, GivesUp, Core, Threads;
    OwnedStays(s0, ls, o, k, i, h + 1, m);
    AtInv(s0, ls, m);
    InvStrong(At(s0, ls, m));
    InvWeak(At(s0, ls, m));
  }

  // ---------------------------------------------------------------- locking and copying

  /** The reference that this step of a client is to hand out: to a new object, a copy, or a lock's. */
  function Asked(s: State, l: ClientStep): Option<(Obj, Kind)> {
    match l
    case Alloc(o) => Some((o, Strong))
    case Clone(o, _, _, k2) => Some((o, k2))
    case SnapClone(_, j, k2) => if j < |s.slots| && s.slots[j].ann.Some? then Some((s.slots[j].ann.value, k2)) else None
    case Lock(o, _) => if o in s.objs && s.objs[o].phase.Live? then Some((o, Strong)) else None
    case SnapLock(_, j) =>
      if j < |s.slots| && s.slots[j].ann.Some? && s.slots[j].ann.value in s.objs
         && s.objs[s.slots[j].ann.value].phase.Live? then Some((s.slots[j].ann.value, Strong)) else None
    case _ => None
  }

  lemma ClientHands(s: State, l: ClientStep, o: Obj, k: Kind, i: Ticket)
    requires ClientEnabled(s, l) && HasTicket(ApplyClient(s, l), o, k, i) && !HasTicket(s, o, k, i)
    ensures Asked(s, l) == Some((o, k)) && (i == s.now || i == s.now + 1)
  {
    hide Unpinned;
  }

  lemma ClientGives(s: State, l: ClientStep)
    requires ClientEnabled(s, l) && Asked(s, l).Some?
    ensures var (o, k) := Asked(s, l).value;
            HasOwned(ApplyClient(s, l), o, k, if l.Alloc? then s.now + 1 else s.now)
  {
    hide Unpinned;
  }

  lemma NotYet(s: State, o: Obj, k: Kind, i: Ticket)
    requires Inv(s) && s.now <= i
    ensures !HasTicket(s, o, k, i)
  {
    hide Slots, Cells, Passes, Links, Threads;
    if HasObj(s, o) { CoreCounter(s, o, k); }
  }

  ghost predicate HandsOutOne(s0: State, ls: seq<Label>, m: nat, o: Obj, k: Kind)
    requires Runnable(s0, ls) && m < |ls|
  {
    exists i :: HandsOut(s0, ls, m, o, k, i)
  }

  /** Over every run: creating an object, copying a reference or a snapshot, and locking a live object hand out one new
      reference of the kind asked for, and no other step of a client hands out any. A lock fails only on an object that
      has no strong reference. */
  lemma ClientsGetWhatTheyAsk(s0: State, ls: seq<Label>, m: nat, o: Obj, k: Kind)
    requires Init(s0) && Runnable(s0, ls) && m < |ls| && ls[m].Client?
    ensures HandsOutOne(s0, ls, m, o, k) <==> Asked(At(s0, ls, m), ls[m].client) == Some((o, k))
    ensures ls[m].client.Lock? && Asked(At(s0, ls, m), ls[m].client) == None ==>
              var x := ls[m].client.o;
              x in At(s0, ls, m).objs && At(s0, ls, m).objs[x].strong.cnt == 0
              && forall i :: !HasTicket(At(s0, ls, m), x, Strong, i)
  {
    hide Runnable, At, Init, ApplyClient, HasTicket, HasOwned, Inv, Unpinned;
    var s, l := At(s0, ls, m), ls[m].client;
    AtNext(s0, ls, m);
    AtInv(s0, ls, m);
    forall i | HandsOut(s0, ls, m, o, k, i) ensures Asked(s, l) == Some((o, k)) { Handed(s0, ls, m, o, k, i); }
    if Asked(s, l) == Some((o, k)) {
      var i := if l.Alloc? then s.now + 1 else s.now;
      ClientGives(s, l);
      NotYet(s, o, k, i);
      assert HandsOut(s0, ls, m, o, k, i);
    }
    if l.Lock? && Asked(s, l) == None { LockFails(s, l); }
  }

  lemma Handed(s0: State, ls: seq<Label>, m: nat, o: Obj, k: Kind, i: Ticket)
    requires Runnable(s0, ls) && m < |ls| && ls[m].Client? && HandsOut(s0, ls, m, o, k, i)
    ensures Asked(At(s0, ls, m), ls[m].client) == Some((o, k))
  {
    hide Runnable, At, ApplyClient, HasTicket, Asked, ClientEnabled;
    AtNext(s0, ls, m);
    OwnedHas(At(s0, ls, m + 1), o, k, i);
    ClientHands(At(s0, ls, m), ls[m].client, o, k, i);
  }

  lemma OwnedHas(s: State, o: Obj, k: Kind, i: Ticket)
    requires HasOwned(s, o, k, i)
    ensures HasTicket(s, o, k, i)
  {
  }

  lemma LockFails(s: State, l: ClientStep)
    requires Inv(s) && ClientEnabled(s, l) && l.Lock? && Asked(s, l) == None
    ensures l.o in s.objs && s.objs[l.o].strong.cnt == 0 && forall i :: !HasTicket(s, l.o, Strong, i)
  {
    hide Slots, Cells, Passes, Links, Threads, Objects;
    CorePhase(s, l.o);
    NotFree(s, l.o, Weak);
    forall i ensures !HasTicket(s, l.o, Strong, i) {
      if HasTicket(s, l.o, Strong, i) { StrongCount(s, l.o); }
    }
  }

  // ---------------------------------------------------------------- what a pass ejects

  /** Some slot announces o. */
  ghost predicate AnnouncedNow(s: State, o: Obj) { exists j :: 0 <= j < |s.slots| && s.slots[j].ann == Some(o) }

  /** The table of a pass has no entry for o. */
  ghost predicate NotInTable(p: Pass, o: Obj) { p.Pass? ==> forall a :: (o, a) !in p.announced }

  lemma ScanTable(p: Pass, x: Option<Obj>, o: Obj)
    requires p.Pass? && NotInTable(p, o) && x != Some(o)
    ensures NotInTable(Scanned(p, x), o)
  {
  }

  lemma KeepTable(p: Pass, key: (Obj, Action), i: Ticket, o: Obj)
    requires p.Pass? && key in p.announced && NotInTable(p, o)
    ensures NotInTable(Keep(p, key, i), o)
  {
    hide KeptOf;
  }

  lemma TableStep(s: State, l: ReclaimStep, t: Tid, o: Obj)
    requires ReclaimEnabled(s, l) && t < |s.passes| && NotInTable(s.passes[t], o) && !AnnouncedNow(s, o)
    ensures t < |ApplyReclaim(s, l).passes| && NotInTable(ApplyReclaim(s, l).passes[t], o)
  {
    hide NewLast, SeenOf, KeptOf, Scanned, Keep;
    if l.PassScan? && l.t == t { ScanTable(s.passes[t], s.slots[s.passes[t].next].ann, o); }
    if l.PassCount? && l.t == t && (l.o, ActionOf(l.k)) in s.passes[t].announced {
      KeepTable(s.passes[t], (l.o, ActionOf(l.k)), l.i, o);
    }
    if l.PassDispose? && l.t == t && (l.o, Dispose) in s.passes[t].announced {
      KeepTable(s.passes[t], (l.o, Dispose), s.objs[l.o].shared.at, o);
    }
  }

  lemma ClientPasses(s: State, l: ClientStep)
    requires ClientEnabled(s, l)
    ensures ApplyClient(s, l).passes == s.passes
  {
    hide Unpinned;
  }

  lemma GoPasses(s: State, t: Tid)
    requires GoEnabled(s, t)
    ensures GoStep(s, t).passes == s.passes
  {
  }

  lemma CallPasses(s: State, l: CallStep)
    requires CallEnabled(s, l)
    ensures ApplyCall(s, l).passes == s.passes
  {
    hide GoStep, Unpinned, Movable, AfterMove, AfterCopy;
    if l.Go? { GoPasses(s, l.t); }
  }

  lemma TableKept(s: State, l: Label, t: Tid, o: Obj)
    requires Enabled(s, l) && t < |s.passes| && NotInTable(s.passes[t], o) && !AnnouncedNow(s, o)
    ensures t < |Apply(s, l).passes| && NotInTable(Apply(s, l).passes[t], o)
  {
    hide ApplyClient, ApplyCall, ApplyReclaim, ClientEnabled, CallEnabled, ReclaimEnabled, NotInTable, AnnouncedNow;
    match l {
      case Client(a) => ClientPasses(s, a);
      case Call(a) => CallPasses(s, a);
      case Reclaim(a) => TableStep(s, a, t, o);
    }
  }

  lemma {:induction false} TableAt(s0: State, ls: seq<Label>, b: nat, t: Tid, o: Obj, m: nat)
    requires Init(s0) && Runnable(s0, ls) && b < m <= |ls| && ls[b] == Reclaim(PassBegin(t))
    requires forall n :: b < n < m ==> !AnnouncedNow(At(s0, ls, n), o)
    ensures t < |At(s0, ls, m).passes| && NotInTable(At(s0, ls, m).passes[t], o)
  {
    hide Runnable, At, Init, AnnouncedNow, NotInTable;
    AtNext(s0, ls, m - 1);
    if b < m - 1 {
      hide Enabled, Apply;
      TableAt(s0, ls, b, t, o, m - 1);
      TableKept(At(s0, ls, m - 1), ls[m - 1], t, o);
    } else {
      BeginsEmpty(At(s0, ls, b), t, o);
    }
  }

  lemma BeginsEmpty(s: State, t: Tid, o: Obj)
    requires ReclaimEnabled(s, PassBegin(t))
    ensures t < |ApplyReclaim(s, PassBegin(t)).passes| && NotInTable(ApplyReclaim(s, PassBegin(t)).passes[t], o)
  {
  }

  lemma Ejects(s: State, t: Tid, o: Obj, k: Kind, i: Ticket)
    requires Inv(s) && Todo(s, t, o, k, i) && NotInTable(s.passes[t], o)
    ensures var s' := DoPassCount(s, t, o, k, i);
            && !HasTicket(s', o, k, i) && HasObj(s', o)
            && Ctr(s, o, k).cnt == Ctr(s', o, k).cnt + 1
  {
    hide Slots, Cells, Passes, Links, Objects, Threads, NewLast;
    if k.Strong? { StrongCount(s, o); } else { WeakCount(s, o); }
  }

  lemma EjectsDisposal(s: State, t: Tid, o: Obj)
    requires TodoDispose(s, t, o) && NotInTable(s.passes[t], o)
    ensures HasObj(DoPassDispose(s, t, o), o) && DoPassDispose(s, t, o).objs[o].phase == Disposed
  {
  }

  /** Over every run: a pass ejects what nobody announces. If no slot announces o while a pass runs, then every deferred
      decrement of o that the pass comes to is carried out, and a deferred disposal of o too. */
  lemma PassEjectsUnannounced(s0: State, ls: seq<Label>, b: nat, t: Tid, o: Obj, m: nat)
    requires Init(s0) && Runnable(s0, ls) && b < m < |ls| && ls[b] == Reclaim(PassBegin(t))
    requires forall n :: b < n < m ==> !AnnouncedNow(At(s0, ls, n), o)
    ensures forall k, i :: ls[m] == Reclaim(PassCount(t, o, k, i)) ==>
              && HasTicket(At(s0, ls, m), o, k, i) && !HasTicket(At(s0, ls, m + 1), o, k, i)
              && HasObj(At(s0, ls, m + 1), o)
              && Ctr(At(s0, ls, m), o, k).cnt == Ctr(At(s0, ls, m + 1), o, k).cnt + 1
    ensures ls[m] == Reclaim(PassDispose(t, o)) ==>
              HasObj(At(s0, ls, m + 1), o) && At(s0, ls, m + 1).objs[o].phase == Disposed
  {
    hide Runnable, At, Init, AnnouncedNow, NotInTable, Inv;
    var s := At(s0, ls, m);
    TableAt(s0, ls, b, t, o, m);
    AtNext(s0, ls, m);
    AtInv(s0, ls, m);
    AtInv(s0, ls, m + 1);
    hide DoPassCount, DoPassDispose;
    if ls[m] == Reclaim(PassDispose(t, o)) { EjectsDisposal(s, t, o); }
    forall k, i | ls[m] == Reclaim(PassCount(t, o, k, i))
      ensures HasTicket(s, o, k, i) && !HasTicket(At(s0, ls, m + 1), o, k, i)
      ensures HasObj(At(s0, ls, m + 1), o) && Ctr(s, o, k).cnt == Ctr(At(s0, ls, m + 1), o, k).cnt + 1
    {
      Ejects(s, t, o, k, i);
    }
  }
}
