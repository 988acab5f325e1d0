/** Every step of a call on a cell keeps the invariant: load, get_snapshot, store and compare_and_swap. */
module HpCalls {
  import opened Options
  import opened HpModel
  import opened HpInvariant
  import opened HpUpdates
  import opened HpTickets
  import opened HpPasses
  import opened HpSlots
  import opened HpPhases
  import opened HpThreads
  import opened HpSteps

  lemma SetOpCore(s: State, t: Tid, op: Op)
    requires Core(s) && t < |s.ops|
    ensures Core(SetOp(s, t, op))
  {
    hide Slots, Passes, Links, Cells, Objects;
    var s' := SetOp(s, t, op);
    SameObjects(s, s');
    SameSlots(s, s');
    SameRest(s, s');
  }

  lemma SameRest(s: State, s': State)
    requires Passes(s) && Links(s) && s'.passes == s.passes && s'.slots == s.slots && s'.objs == s.objs
    requires s'.now == s.now
    ensures Passes(s') && Links(s')
  {
  }

  lemma CellTarget(s: State, c: CellId)
    requires Core(s) && c in s.cells && s.cells[c].Holds?
    ensures HasTicket(s, s.cells[c].o, c.kind, s.cells[c].i)
    ensures Ctr(s, s.cells[c].o, c.kind).tok[s.cells[c].i] == InCell(c)
  {
    assert CellOk(c, s.cells[c], s.objs);
  }

  // ---------------------------------------------------------------- steps that only touch the thread's slot

  /** A step of a quiet thread that ticks and moves its program counter. */
  lemma LocalInv(s: State, t: Tid, op: Op)
    requires Inv(s) && t < |s.ops| && Quiet(s.ops[t]) && SlotLink(SetOp(Tick(s), t, op), t)
    ensures Inv(SetOp(Tick(s), t, op))
  {
    hide Core, Threads, SlotLink;
    TickCore(s);
    SetOpCore(Tick(s), t, op);
    OwnSlotStep(s, SetOp(Tick(s), t, op), t);
  }

  /** A step of a quiet thread that writes its slot. */
  lemma SlotInv(s: State, s1: State, t: Tid, j: Slot, op: Op)
    requires Inv(s) && t < |s.ops| && Quiet(s.ops[t]) && OwnSlot(s, t, j)
    requires Core(s1) && s1.ops == s.ops && s1.objs == s.objs && s1.cells == s.cells && |s1.slots| == |s.slots|
    requires s1.slots == s.slots[j := s1.slots[j]]
    requires SlotLink(SetOp(s1, t, op), t)
    ensures Inv(SetOp(s1, t, op))
  {
    hide Core, Threads, SlotLink;
    SetOpCore(s1, t, op);
    OwnSlotStep(s, SetOp(s1, t, op), t);
  }

  lemma SlotIsUnprotected(s: State, j: Slot)
    requires Slots(s) && j < |s.slots| && s.slots[j].ann == None
    ensures s.slots[j].prot.NoProt?
  {
    assert SlotOk(s.slots[j], j, s.objs, s.now);
  }

  lemma OpOf(s: State, t: Tid)
    requires Threads(s) && t < |s.ops|
    ensures SlotLink(s, t)
  {
    assert OpOk(s, t);
  }

  lemma StartInv(s: State, t: Tid, c: CellId, j: Slot, g: Goal)
    requires Inv(s) && CallEnabled(s, Start(t, c, j, g))
    ensures Inv(ApplyCall(s, Start(t, c, j, g)))
  {
    hide Slots, Objects, Passes, Links, Cells, Threads;
    OpOf(s, t);
    if g == Snapshot { SlotIsUnprotected(s, j); }
    LocalInv(s, t, Begin(c, j, g));
  }

  lemma BeginInv(s: State, t: Tid)
    requires Inv(s) && GoEnabled(s, t) && s.ops[t].Begin?
    ensures Inv(GoStep(s, t))
  {
    hide Slots, Objects, Passes, Links, Cells, Threads;
    OpOf(s, t);
    var c := s.ops[t].c;
    if s.cells[c].Holds? { CellTarget(s, c); }
    LocalInv(s, t, Loaded(c, s.ops[t].j, s.ops[t].g, Target(s.cells[c])));
  }

  lemma LoadedInv(s: State, t: Tid)
    requires Inv(s) && GoEnabled(s, t) && s.ops[t].Loaded?
    ensures Inv(GoStep(s, t))
  {
    hide Core, Threads, NoDebtOn;
    OpOf(s, t);
    var op := s.ops[t];
    OwnSlotFree(s, t, op.j);
    AnnounceCore(s, op.j, op.r, NoProt);
    SlotInv(s, Announce(s, op.j, op.r, NoProt), t, op.j, if op.g == Snapshot && op.r == None then
      Idle(SnapshotOf(None)) else Announced(op.c, op.j, op.g, op.r));
  }

  lemma AnnouncedInv(s: State, t: Tid)
    requires Inv(s) && GoEnabled(s, t) && s.ops[t].Announced?
    ensures Inv(GoStep(s, t))
  {
    hide Core, Threads, NoDebtOn;
    OpOf(s, t);
    var op := s.ops[t];
    if Target(s.cells[op.c]) != op.r {
      LocalInv(s, t, Begin(op.c, op.j, op.g));
    } else if op.r == None {
      LocalInv(s, t, Idle(Reference(if op.g.LoadRef? then op.c.kind else Strong, Null)));
    } else {
      OwnSlotFree(s, t, op.j);
      CellTarget(s, op.c);
      ValidateCore(s, op.j, op.r.value, op.c);
      SlotInv(s, Protect(s, op.j, Valid(op.c.kind, s.cells[op.c].i, Unread)), t, op.j, GoStep(s, t).ops[t]);
    }
  }

  lemma RecheckInv(s: State, t: Tid)
    requires Inv(s) && GoEnabled(s, t) && s.ops[t].Recheck?
    ensures Inv(GoStep(s, t))
  {
    hide Core, Threads;
    OpOf(s, t);
    LocalInv(s, t, GoStep(s, t).ops[t]);
  }

  lemma FinishInv(s: State, t: Tid)
    requires Inv(s) && GoEnabled(s, t) && s.ops[t].Finish?
    ensures Inv(GoStep(s, t))
  {
    hide Core, Threads, NoDebtOn;
    OpOf(s, t);
    var j := s.ops[t].j;
    OwnSlotFree(s, t, j);
    AnnounceCore(s, j, None, NoProt);
    SlotInv(s, Announce(s, j, None, NoProt), t, j, GoStep(s, t).ops[t]);
  }

  lemma ReserveInv(s: State, t: Tid, o: Obj, k: Kind, i: Ticket)
    requires Inv(s) && CallEnabled(s, Reserve(t, o, k, i))
    ensures Inv(ApplyCall(s, Reserve(t, o, k, i)))
  {
    hide Core, Threads, NoDebtOn;
    OpOf(s, t);
    OwnSlotFree(s, t, SLOTS * t);
    AnnounceCore(s, SLOTS * t, Some(o), Pinned(k, i));
    SlotInv(s, Announce(s, SLOTS * t, Some(o), Pinned(k, i)), t, SLOTS * t, Reserved(k, o, i));
  }

  // ---------------------------------------------------------------- validated readers

  /** A thread with a validated slot finds a reference of that kind. */
  lemma ValidatedRef(s: State, t: Tid, j: Slot, k: Kind, o: Obj)
    requires Core(s) && Validated(s, t, j, k, o)
    ensures Ctr(s, o, k).tok != map[]
  {
    hide Slots, Objects, Passes, Links, Cells;
    ProtectedTicket(s, o, k, j);
  }

  /** A step that changes counters unnoticed by any thread, and moves a quiet thread's program counter. */
  lemma UnnoticedInv(s: State, s1: State, t: Tid, op: Op)
    requires Inv(s) && t < |s.ops| && Quiet(s.ops[t]) && Core(s1) && Unnoticed(s, s1) && s1.cells.Keys == s.cells.Keys
    requires s1.objs.Keys == s.objs.Keys
    requires SlotLink(SetOp(s1, t, op), t)
    ensures Inv(SetOp(s1, t, op))
  {
    hide Core, Threads, Unnoticed;
    UnnoticedFrame(s, s1);
    SetOpCore(s1, t, op);
    UnnoticedStep(s, s1);
    OwnSlotStep(s1, SetOp(s1, t, op), t);
  }

  lemma UnnoticedFrame(s: State, s': State)
    requires Unnoticed(s, s')
    ensures s'.ops == s.ops && s'.slots == s.slots
  {
  }

  lemma TakeRefInv(s: State, t: Tid)
    requires Inv(s) && GoEnabled(s, t) && s.ops[t].TakeRef?
    ensures Inv(GoStep(s, t))
  {
    hide Core, Threads, Unnoticed;
    OpOf(s, t);
    var op := s.ops[t];
    ValidatedRef(s, t, op.j, op.c.kind, op.o);
    AddRefCore(s, op.o, op.c.kind);
    AddRefSame(s, AddRef(s, op.o, op.c.kind), op.o, op.c.kind);
    UnnoticedInv(s, AddRef(s, op.o, op.c.kind), t, Finish(op.j, None, Reference(op.c.kind, Holds(op.o, s.now))));
  }

  lemma TryRefInv(s: State, t: Tid)
    requires Inv(s) && GoEnabled(s, t) && s.ops[t].TryRef?
    ensures Inv(GoStep(s, t))
  {
    hide Core, Threads, Unnoticed, NoDebtOn;
    OpOf(s, t);
    var op := s.ops[t];
    ValidatedRef(s, t, op.j, op.c.kind, op.o);
    TryAddStrongCore(s, op.o);
    var s1 := TryAddStrong(s, op.o);
    if s.objs[op.o].phase.Live? {
      AddRefSame(s, s1, op.o, Strong);
      UnnoticedInv(s, s1, t, Finish(op.j, None, Reference(Strong, Holds(op.o, s.now))));
    } else {
      FoundZero(s, s1, t, op.c, op.j, op.o, CountedSnapshot);
    }
  }

  /** The reader found the use count at zero and stuck. */
  lemma FoundZero(s: State, s1: State, t: Tid, c: CellId, j: Slot, o: Obj, g: Goal)
    requires Inv(s) && t < |s.ops| && Quiet(s.ops[t]) && c in s.cells && Validated(s, t, j, c.kind, o)
    requires if g == Snapshot then j % SLOTS != 0 else j == SLOTS * t
    requires Core(s1) && s1.ops == s.ops && s1.slots == s.slots && s1.cells == s.cells && s1.objs.Keys == s.objs.Keys
    requires forall o2 :: o2 in s.objs ==> SameTokens(s.objs[o2], s1.objs[o2])
    requires !s1.objs[o].phase.Live?
    ensures Inv(SetOp(Protect(s1, j, s.slots[j].prot.(use := Zero)), t, Recheck(c, j, o, g)))
  {
    hide Core, Threads, Unnoticed, NoDebtOn;
    TokensSame(s, s1);
    UnnoticedStep(s, s1);
    OwnSlotFree(s1, t, j);
    ValidatedRef(s1, t, j, c.kind, o);
    NotFree(s1, o, c.kind);
    UseCore(s1, j, o, Zero);
    SlotInv(s1, Protect(s1, j, s.slots[j].prot.(use := Zero)), t, j, Recheck(c, j, o, g));
  }

  lemma NotFree(s: State, o: Obj, k: Kind)
    requires Core(s) && HasObj(s, o) && Ctr(s, o, k).tok != map[]
    ensures !s.objs[o].phase.Free? && !s.objs[o].phase.Doomed?
  {
    hide Slots, Objects, Passes, Links, Cells;
    StrongCount(s, o);
    WeakCount(s, o);
  }

  lemma CheckUseInv(s: State, t: Tid)
    requires Inv(s) && GoEnabled(s, t) && s.ops[t].CheckUse?
    ensures Inv(GoStep(s, t))
  {
    hide Core, Threads, NoDebtOn;
    OpOf(s, t);
    var op := s.ops[t];
    ValidatedRef(s, t, op.j, op.c.kind, op.o);
    NotFree(s, op.o, op.c.kind);
    CoreNotBad(s);
    var s1 := s.(bad := s.bad || s.objs[op.o].phase == Free);
    assert s1 == s;
    if s.objs[op.o].phase.Live? && s.objs[op.o].strong.cnt >= 1 {
      OwnSlotFree(s, t, op.j);
      LiveIsPositive(s, op.o, s.slots[op.j].at);
      UseCore(s, op.j, op.o, Positive);
      SlotInv(s, Protect(s, op.j, s.slots[op.j].prot.(use := Positive)), t, op.j, Idle(SnapshotOf(Some(op.o))));
    } else if s.objs[op.o].phase.Live? {
      ExpireCore(s, op.o, Expired);
      FoundZero(s, SetPhase(s, op.o, Expired), t, op.c, op.j, op.o, Snapshot);
    } else {
      TickCore(s);
      FoundZero(s, Tick(s), t, op.c, op.j, op.o, Snapshot);
    }
  }

  lemma CoreNotBad(s: State)
    requires Core(s)
    ensures !s.bad
  {
  }

  lemma LiveIsPositive(s: State, o: Obj, at: nat)
    requires Core(s) && HasObj(s, o) && s.objs[o].phase.Live?
    ensures UseOk(s.objs[o], at, Positive)
  {
    hide Slots, Passes, Links, Cells, Objects;
    CorePhase(s, o);
  }

  // ---------------------------------------------------------------- what is in a thread's hand

  ghost predicate HandIs(s: State, t: Tid, k: Kind, v: CellVal) {
    forall o, k2, i :: InHand(s, o, k2, i, t) ==> k2 == k && v == Holds(o, i)
  }

  ghost predicate NoDebts(s: State, t: Tid) { forall o, k :: !HasDebt(s, o, k, t) }

  ghost predicate DebtIs(s: State, t: Tid, k: Kind, o: Obj, d: Debt) {
    forall o2, k2 :: HasDebt(s, o2, k2, t) ==> o2 == o && k2 == k && Ctr(s, o, k).deb[t] == d
  }

  lemma QuietHand(s: State, t: Tid, k: Kind, v: CellVal)
    requires Threads(s) && t < |s.ops| && Quiet(s.ops[t])
    ensures HandIs(s, t, k, v) && NoDebts(s, t)
  {
    assert OpOk(s, t);
    forall o, k2, i ensures !InHand(s, o, k2, i, t) { assert HandLink(s, t, o, k2, i); }
    forall o, k2 ensures !HasDebt(s, o, k2, t) { assert DebtLink(s, t, o, k2); }
  }

  /** Others do not notice thread t's primitive. */
  ghost predicate OthersSame(s: State, s': State, t: Tid) {
    forall u :: 0 <= u < |s.ops| && u != t ==> SameRefs(s, s', u)
  }

  lemma OthersTrans(s: State, s1: State, s2: State, t: Tid)
    requires OthersSame(s, s1, t) && OthersSame(s1, s2, t) && |s1.ops| == |s.ops|
    ensures OthersSame(s, s2, t)
  {
    forall u | 0 <= u < |s.ops| && u != t ensures SameRefs(s, s2, u) { hide SameRefs; SameTrans(s, s1, s2, u); }
  }

  /** A thread's step that leaves all slots alone. */
  lemma RefStep(s: State, s': State, t: Tid)
    requires Threads(s) && t < |s.ops| && |s'.ops| == |s.ops| && s'.slots == s.slots && OthersSame(s, s', t)
    requires forall u :: 0 <= u < |s.ops| && u != t ==> s'.ops[u] == s.ops[u]
    requires OpOk(s', t)
    ensures Threads(s')
  {
    hide OpOk;
    forall u | 0 <= u < |s.ops| && u != t ensures SameFor(s, s', u) { hide SameRefs; }
    ThreadsFrame(s, s', t);
  }

  lemma OutSame(s: State, c: CellId, t: Tid)
    requires Core(s) && CellReady(s, c) && NoDebts(s, t) && HandIs(s, t, c.kind, s.cells[c]) && t < |s.ops|
    ensures var s1 := CellOut(s, c, t);
            && OthersSame(s, s1, t) && NoDebts(s1, t) && HandIs(s1, t, c.kind, s.cells[c])
            && HoldsHand(s1, t, c.kind, s.cells[c])
            && s1.cells[c] == Null && s1.slots == s.slots && s1.ops == s.ops && s1.passes == s.passes
            && s1.objs.Keys == s.objs.Keys && s1.cells.Keys == s.cells.Keys
  {
    hide Core, OthersSame, NoDebts, HandIs;
    match s.cells[c] {
      case Null => OutSameNull(s, c, t);
      case Holds(o, i) => OutSameHolds(s, c, t, o, i);
    }
  }

  lemma OutSameNull(s: State, c: CellId, t: Tid)
    requires NoDebts(s, t) && HandIs(s, t, c.kind, Null)
    ensures OthersSame(s, Tick(s), t) && NoDebts(Tick(s), t) && HandIs(Tick(s), t, c.kind, Null)
  {
    forall u | 0 <= u < |s.ops| && u != t ensures SameRefs(s, Tick(s), u) { hide SameRefs; ObjectsSame(s, Tick(s), u); }
    forall o2, k2, i2 ensures InHand(Tick(s), o2, k2, i2, t) ==> InHand(s, o2, k2, i2, t) { }
    forall o2, k2 ensures HasDebt(Tick(s), o2, k2, t) ==> HasDebt(s, o2, k2, t) { }
  }

  lemma OutSameHolds(s: State, c: CellId, t: Tid, o: Obj, i: Ticket)
    requires Core(s) && CellReady(s, c) && NoDebts(s, t) && HandIs(s, t, c.kind, s.cells[c]) && t < |s.ops|
    requires s.cells[c] == Holds(o, i)
    ensures var s1 := CellOut(s, c, t);
            OthersSame(s, s1, t) && NoDebts(s1, t) && HandIs(s1, t, c.kind, s.cells[c])
                && HoldsHand(s1, t, c.kind, s.cells[c])
  {
    hide Core;
    var s1 := CellOut(s, c, t);
    CellTarget(s, c);
    forall u | 0 <= u < |s.ops| && u != t ensures SameRefs(s, s1, u) {
      hide SameRefs; CounterSame(s, s1, o, c.kind, u);
    }
    forall o2, k2, i2 ensures InHand(s1, o2, k2, i2, t) ==>
        InHand(s, o2, k2, i2, t) || (o2 == o && k2 == c.kind && i2 == i) { }
    forall o2, k2 ensures HasDebt(s1, o2, k2, t) ==> HasDebt(s, o2, k2, t) { }
  }

  lemma InSame(s: State, c: CellId, t: Tid, o: Obj, i: Ticket, v: CellVal)
    requires HasOwned(s, o, c.kind, i) && c in s.cells && NoDebts(s, t) && HandIs(s, t, c.kind, v)
    requires HoldsHand(s, t, c.kind, v)
    ensures var s1 := CellIn(s, c, o, i);
            OthersSame(s, s1, t) && NoDebts(s1, t) && HandIs(s1, t, c.kind, v) && HoldsHand(s1, t, c.kind, v)
  {
    var s1 := CellIn(s, c, o, i);
    forall u | 0 <= u < |s.ops| && u != t ensures SameRefs(s, s1, u) {
      hide SameRefs; CounterSame(s, s1, o, c.kind, u);
    }
    forall o2, k2, i2 ensures InHand(s1, o2, k2, i2, t) <==> InHand(s, o2, k2, i2, t) { }
    forall o2, k2 ensures HasDebt(s1, o2, k2, t) ==> HasDebt(s, o2, k2, t) { }
  }

  lemma OweSame(s: State, c: CellId, t: Tid, o: Obj, j: Slot, v: CellVal)
    requires HasObj(s, o) && s.now !in Ctr(s, o, c.kind).tok && c in s.cells && NoDebts(s, t) && HandIs(s, t, c.kind, v)
    requires HoldsHand(s, t, c.kind, v)
    ensures var s1 := CellOwe(s, c, o, t, j);
            OthersSame(s, s1, t) && DebtIs(s1, t, c.kind, o, Debt(j, s.now)) && HandIs(s1, t, c.kind, v)
                && HoldsHand(s1, t, c.kind, v)
  {
    var s1 := CellOwe(s, c, o, t, j);
    forall u | 0 <= u < |s.ops| && u != t ensures SameRefs(s, s1, u) {
      hide SameRefs; CounterSame(s, s1, o, c.kind, u);
    }
    forall o2, k2, i2 ensures InHand(s1, o2, k2, i2, t) <==> InHand(s, o2, k2, i2, t) { }
    forall o2, k2 ensures HasDebt(s1, o2, k2, t) ==> o2 == o && k2 == c.kind { assert !HasDebt(s, o2, k2, t); }
  }

  // ---------------------------------------------------------------- moving stores and CAS

  lemma OutKeepsOwned(s: State, c: CellId, t: Tid, o: Obj, k: Kind, i: Ticket)
    requires Core(s) && CellReady(s, c) && HasOwned(s, o, k, i) && Unpinned(s, o, k, i)
    ensures HasOwned(CellOut(s, c, t), o, k, i) && Unpinned(CellOut(s, c, t), o, k, i)
  {
    hide Core;
    if s.cells[c].Holds? { CellTarget(s, c); }
  }

  /** The thread's state after it moved a reference (or null) into the cell. */
  lemma MovedOp(s': State, t: Tid, c: CellId, v: CellVal, said: Answer)
    requires t < |s'.ops| && s'.ops[t] == AfterMove(t, c, v, said) && OwnNoProt(s', t)
    requires NoDebts(s', t) && HandIs(s', t, c.kind, v) && HoldsHand(s', t, c.kind, v)
    ensures OpOk(s', t)
  {
    forall o, k ensures DebtLink(s', t, o, k) { assert !HasDebt(s', o, k, t); }
    forall o, k, i ensures HandLink(s', t, o, k, i) { }
  }

  lemma SetOpHands(s: State, t: Tid, op: Op, k: Kind, v: CellVal)
    requires t < |s.ops| && HandIs(s, t, k, v) && HoldsHand(s, t, k, v)
    ensures HandIs(SetOp(s, t, op), t, k, v) && HoldsHand(SetOp(s, t, op), t, k, v)
  {
    forall o2, k2, i2 ensures InHand(SetOp(s, t, op), o2, k2, i2, t) ==> InHand(s, o2, k2, i2, t) { }
  }

  lemma SetOpDebts(s: State, t: Tid, op: Op)
    requires t < |s.ops| && NoDebts(s, t)
    ensures NoDebts(SetOp(s, t, op), t)
  {
    forall o, k ensures !HasDebt(SetOp(s, t, op), o, k, t) { assert !HasDebt(s, o, k, t); }
  }

  lemma SetOpOthers(s: State, s1: State, t: Tid, op: Op)
    requires OthersSame(s, s1, t) && t < |s1.ops| && |s1.ops| == |s.ops|
    ensures OthersSame(s, SetOp(s1, t, op), t)
  {
    forall u | 0 <= u < |s.ops| && u != t ensures SameRefs(s, SetOp(s1, t, op), u) {
      hide SameRefs;
      ObjectsSame(s1, SetOp(s1, t, op), u);
      SameTrans(s, s1, SetOp(s1, t, op), u);
    }
  }

  lemma MoveInv(s: State, t: Tid, c: CellId, src: CellVal, said: Answer)
    requires Inv(s) && IdleThread(s, t) && CellReady(s, c) && Movable(s, c, src)
    ensures Inv(MoveInto(s, t, c, src, said))
  {
    hide Core, Threads, OthersSame, NoDebts, HandIs, OpOk, SlotLink, Unpinned;
    var v := s.cells[c];
    OpOf(s, t);
    QuietHand(s, t, c.kind, v);
    assert OwnNoProt(s, t) by { IdleSlot(s, t); }
    CellOutCore(s, c, t);
    OutSame(s, c, t);
    var s1 := CellOut(s, c, t);
    var s2 := if src.Holds? then CellIn(s1, c, src.o, src.i) else s1;
    if src.Holds? {
      OutKeepsOwned(s, c, t, src.o, c.kind, src.i);
      CellInCore(s1, c, src.o, src.i);
      InSame(s1, c, t, src.o, src.i, v);
      OthersTrans(s, s1, s2, t);
    }
    var op := AfterMove(t, c, v, said);
    SetOpCore(s2, t, op);
    SetOpHands(s2, t, op, c.kind, v);
    SetOpDebts(s2, t, op);
    SetOpOthers(s, s2, t, op);
    MovedOp(SetOp(s2, t, op), t, c, v, said);
    RefStep(s, SetOp(s2, t, op), t);
  }

  lemma IdleSlot(s: State, t: Tid)
    requires t < |s.ops| && s.ops[t].Idle? && SlotLink(s, t)
    ensures OwnNoProt(s, t)
  {
  }

  // ---------------------------------------------------------------- copying stores and CAS

  /** The thread's state after it put an uncounted pointer in the cell. */
  lemma OwingOp(s': State, t: Tid, k: Kind, o: Obj, j: Slot, tk: Ticket, rel: bool, v: CellVal)
    requires t < |s'.ops|
    requires || s'.ops[t] == AfterCopy(k, o, j, tk, rel, v)
             || (!rel && s'.ops[t] == CopyInc(k, o, j, tk, rel, v, Stored))
    requires Owes(s', t, k, o, j, rel)
    requires DebtIs(s', t, k, o, Debt(j, tk)) && HandIs(s', t, k, v) && HoldsHand(s', t, k, v)
    ensures OpOk(s', t)
  {
    forall o2, k2 ensures DebtLink(s', t, o2, k2) { }
    forall o2, k2, i2 ensures HandLink(s', t, o2, k2, i2) { }
  }

  lemma SetOpDebtIs(s: State, t: Tid, op: Op, k: Kind, o: Obj, d: Debt)
    requires t < |s.ops| && DebtIs(s, t, k, o, d)
    ensures DebtIs(SetOp(s, t, op), t, k, o, d)
  {
    forall o2, k2 | HasDebt(SetOp(s, t, op), o2, k2, t)
      ensures o2 == o && k2 == k && Ctr(SetOp(s, t, op), o, k).deb[t] == d
    {
      assert HasDebt(s, o2, k2, t);
    }
  }

  /** Slot j announces o on behalf of a desired pointer that may go into a cell of kind k. */
  predicate Desires(s: State, t: Tid, j: Slot, k: Kind, o: Obj) {
    && HasObj(s, o) && OwnSlot(s, t, j) && s.slots[j].ann == Some(o) && !s.slots[j].prot.NoProt?
    && (k.Strong? ==> s.slots[j].prot.kind.Strong?)
  }

  lemma DesiredBacks(s: State, j: Slot, k: Kind)
    requires Slots(s) && j < |s.slots| && s.slots[j].ann.Some? && !s.slots[j].prot.NoProt?
    requires (k.Strong? ==> s.slots[j].prot.kind.Strong?)
    ensures Backs(s.slots[j].prot, k, s.now)
  {
    assert SlotOk(s.slots[j], j, s.objs, s.now);
  }

  lemma CopyCore(s: State, t: Tid, c: CellId, o: Obj, j: Slot)
    requires Inv(s) && t < |s.ops| && Quiet(s.ops[t]) && CellReady(s, c) && Desires(s, t, j, c.kind, o)
    ensures var s2 := CopyInto(s, t, c, o, j);
            && Core(s2) && OthersSame(s, s2, t) && DebtIs(s2, t, c.kind, o, Debt(j, s2.now - 1))
            && HandIs(s2, t, c.kind, s.cells[c]) && HoldsHand(s2, t, c.kind, s.cells[c])
            && s2.slots == s.slots && s2.ops == s.ops
  {
    hide Core, Threads, OthersSame, NoDebts, HandIs, DebtIs;
    var v := s.cells[c];
    QuietHand(s, t, c.kind, v);
    CellOutCore(s, c, t);
    OutSame(s, c, t);
    var s1 := CellOut(s, c, t);
    assert !HasDebt(s1, o, c.kind, t) by { NoDebtsAt(s1, t, o, c.kind); }
    CoreSlots(s1);
    DesiredBacks(s1, j, c.kind);
    FreshTicket(s1, o, c.kind);
    CellOweCore(s1, c, o, t, j);
    OweSame(s1, c, t, o, j, v);
    OthersTrans(s, s1, CellOwe(s1, c, o, t, j), t);
  }

  lemma NoDebtsAt(s: State, t: Tid, o: Obj, k: Kind)
    requires NoDebts(s, t)
    ensures !HasDebt(s, o, k, t)
  {
  }

  lemma CoreSlots(s: State)
    requires Core(s)
    ensures Slots(s)
  {
  }

  lemma CopyInv(s: State, t: Tid, c: CellId, o: Obj, j: Slot, rel: bool, op: Op)
    requires Inv(s) && t < |s.ops| && Quiet(s.ops[t]) && CellReady(s, c) && Desires(s, t, j, c.kind, o)
    requires if rel then j == SLOTS * t else OwnNoProt(s, t)
    requires var tk := CopyInto(s, t, c, o, j).now - 1;
             op == AfterCopy(c.kind, o, j, tk, rel, s.cells[c])
                 || (!rel && op == CopyInc(c.kind, o, j, tk, rel, s.cells[c], Stored))
    ensures Inv(SetOp(CopyInto(s, t, c, o, j), t, op))
  {
    hide Core, Threads, OthersSame, HandIs, DebtIs, OpOk;
    CopyCore(s, t, c, o, j);
    var s2 := CopyInto(s, t, c, o, j);
    var tk := s2.now - 1;
    SetOpCore(s2, t, op);
    SetOpHands(s2, t, op, c.kind, s.cells[c]);
    SetOpDebtIs(s2, t, op, c.kind, o, Debt(j, tk));
    SetOpOthers(s, s2, t, op);
    OwingOp(SetOp(s2, t, op), t, c.kind, o, j, tk, rel, s.cells[c]);
    RefStep(s, SetOp(s2, t, op), t);
  }

  lemma StoreSnapInv(s: State, t: Tid, c: CellId, j: Slot)
    requires Inv(s) && CallEnabled(s, StoreSnap(t, c, j))
    ensures Inv(ApplyCall(s, StoreSnap(t, c, j)))
  {
    hide Core, Threads;
    OpOf(s, t);
    var o := s.slots[j].ann.value;
    if Target(s.cells[c]) == Some(o) {
      LocalInv(s, t, Idle(Stored));
    } else {
      CopyInv(s, t, c, o, j, false, CopyInc(c.kind, o, j, CopyInto(s, t, c, o, j).now - 1, false, s.cells[c], Stored));
    }
  }

  lemma CasSnapInv(s: State, t: Tid, c: CellId, expected: Option<Obj>, j: Slot)
    requires Inv(s) && CallEnabled(s, CasSnap(t, c, expected, j))
    ensures Inv(ApplyCall(s, CasSnap(t, c, expected, j)))
  {
    hide Core, Threads;
    OpOf(s, t);
    var o := s.slots[j].ann.value;
    if Target(s.cells[c]) == expected {
      CopyInv(s, t, c, o, j, false, AfterCopy(c.kind, o, j, CopyInto(s, t, c, o, j).now - 1, false, s.cells[c]));
    } else {
      LocalInv(s, t, Idle(Swapped(false)));
    }
  }

  lemma CasReservedInv(s: State, t: Tid, c: CellId, expected: Option<Obj>)
    requires Inv(s) && CallEnabled(s, CasReserved(t, c, expected))
    ensures Inv(ApplyCall(s, CasReserved(t, c, expected)))
  {
    hide Core, Threads;
    OpOf(s, t);
    var o := s.ops[t].o;
    var j := SLOTS * t;
    if Target(s.cells[c]) == expected {
      CopyInv(s, t, c, o, j, true, AfterCopy(c.kind, o, j, CopyInto(s, t, c, o, j).now - 1, true, s.cells[c]));
    } else {
      LocalInv(s, t, Finish(j, None, Swapped(false)));
    }
  }

  // ---------------------------------------------------------------- paying and retiring

  lemma RetireSame(s: State, k: Kind, v: CellVal, t: Tid)
    requires v.Holds? && InHand(s, v.o, k, v.i, t) && HandIs(s, t, k, v)
    ensures var s1 := Retire(s, v.o, k, v.i, t);
            && OthersSame(s, s1, t) && HandIs(s1, t, k, Null)
            && (forall o2, k2 :: SameDebt(s, s1, t, o2, k2))
  {
    var s1 := Retire(s, v.o, k, v.i, t);
    forall u | 0 <= u < |s.ops| && u != t ensures SameRefs(s, s1, u) { hide SameRefs; CounterSame(s, s1, v.o, k, u); }
    forall o2, k2, i2 ensures InHand(s1, o2, k2, i2, t) ==>
        InHand(s, o2, k2, i2, t) && !(o2 == v.o && k2 == k && i2 == v.i) { }
    forall o2, k2 ensures SameDebt(s, s1, t, o2, k2) { }
  }

  lemma OpHand(s: State, t: Tid)
    requires Threads(s) && t < |s.ops| && !Quiet(s.ops[t])
    ensures HandIs(s, t, s.ops[t].k, s.ops[t].prev)
    ensures InDebt(s.ops[t]) ==> DebtIs(s, t, s.ops[t].k, s.ops[t].o, Debt(s.ops[t].j, s.ops[t].tk))
    ensures !InDebt(s.ops[t]) ==> NoDebts(s, t)
  {
    assert OpOk(s, t);
    forall o, k, i | InHand(s, o, k, i, t) ensures k == s.ops[t].k && s.ops[t].prev == Holds(o, i) {
      assert HandLink(s, t, o, k, i);
    }
    forall o, k | HasDebt(s, o, k, t)
      ensures InDebt(s.ops[t]) && o == s.ops[t].o && k == s.ops[t].k
      ensures Ctr(s, o, k).deb[t] == Debt(s.ops[t].j, s.ops[t].tk)
    {
      assert DebtLink(s, t, o, k);
    }
  }

  lemma RetiringInv(s: State, t: Tid)
    requires Inv(s) && GoEnabled(s, t) && s.ops[t].Retiring?
    ensures Inv(GoStep(s, t))
  {
    hide Core, Threads, OthersSame, HandIs, NoDebts, OpOk;
    OpOf(s, t);
    OpHand(s, t);
    var op := s.ops[t];
    RetireCore(s, op.prev.o, op.k, op.prev.i, t);
    RetireSame(s, op.k, op.prev, t);
    var s1 := Retire(s, op.prev.o, op.k, op.prev.i, t);
    var idle := Idle(op.said);
    SetOpCore(s1, t, idle);
    SameNoDebts(s, s1, t);
    SetOpDebts(s1, t, idle);
    SetOpHands(s1, t, idle, op.k, Null);
    SetOpOthers(s, s1, t, idle);
    MovedOp(SetOp(s1, t, idle), t, CellId(op.k, 0), Null, op.said);
    RefStep(s, SetOp(s1, t, idle), t);
  }

  lemma SameNoDebts(s: State, s1: State, t: Tid)
    requires NoDebts(s, t) && forall o, k :: SameDebt(s, s1, t, o, k)
    ensures NoDebts(s1, t)
  {
    forall o, k ensures !HasDebt(s1, o, k, t) { assert SameDebt(s, s1, t, o, k) && !HasDebt(s, o, k, t); }
  }

  lemma CasRetireInv(s: State, t: Tid)
    requires Inv(s) && GoEnabled(s, t) && s.ops[t].CasRetire?
    ensures Inv(GoStep(s, t))
  {
    hide Core, Threads, OthersSame, HandIs, NoDebts, OpOk, DebtIs;
    OpOf(s, t);
    OpHand(s, t);
    var op := s.ops[t];
    RetireCore(s, op.prev.o, op.k, op.prev.i, t);
    RetireSame(s, op.k, op.prev, t);
    var s1 := Retire(s, op.prev.o, op.k, op.prev.i, t);
    var op' := CopyInc(op.k, op.o, op.j, op.tk, op.rel, Null, Swapped(true));
    SetOpCore(s1, t, op');
    SameDebtIs(s, s1, t, op.k, op.o, Debt(op.j, op.tk));
    SetOpDebtIs(s1, t, op', op.k, op.o, Debt(op.j, op.tk));
    SetOpHands(s1, t, op', op.k, Null);
    SetOpOthers(s, s1, t, op');
    assert HasDebt(s, op.o, op.k, t) && SameDebt(s, s1, t, op.o, op.k);
    OwingOp(SetOp(s1, t, op'), t, op.k, op.o, op.j, op.tk, op.rel, Null);
    RefStep(s, SetOp(s1, t, op'), t);
  }

  lemma SameDebtIs(s: State, s1: State, t: Tid, k: Kind, o: Obj, d: Debt)
    requires DebtIs(s, t, k, o, d) && forall o2, k2 :: SameDebt(s, s1, t, o2, k2)
    ensures DebtIs(s1, t, k, o, d)
  {
    forall o2, k2 | HasDebt(s1, o2, k2, t) ensures o2 == o && k2 == k && Ctr(s1, o, k).deb[t] == d {
      assert SameDebt(s, s1, t, o2, k2);
    }
  }

  lemma PaySame(s: State, o: Obj, k: Kind, t: Tid, d: Debt, v: CellVal)
    requires HasDebt(s, o, k, t) && DebtIs(s, t, k, o, d) && HandIs(s, t, k, v) && HoldsHand(s, t, k, v)
    ensures var s1 := Pay(s, o, k, t);
            OthersSame(s, s1, t) && NoDebts(s1, t) && HandIs(s1, t, k, v) && HoldsHand(s1, t, k, v)
  {
    var s1 := Pay(s, o, k, t);
    forall u | 0 <= u < |s.ops| && u != t ensures SameRefs(s, s1, u) { hide SameRefs; CounterSame(s, s1, o, k, u); }
    forall o2, k2, i2 ensures InHand(s1, o2, k2, i2, t) <==> InHand(s, o2, k2, i2, t) { }
    forall o2, k2 ensures HasDebt(s1, o2, k2, t) ==> HasDebt(s, o2, k2, t) && !(o2 == o && k2 == k) { }
  }

  lemma CopyIncInv(s: State, t: Tid)
    requires Inv(s) && GoEnabled(s, t) && s.ops[t].CopyInc?
    ensures Inv(GoStep(s, t))
  {
    hide Core, Threads, OthersSame, HandIs, NoDebts, OpOk, DebtIs;
    OpOf(s, t);
    OpHand(s, t);
    var op := s.ops[t];
    assert HasDebt(s, op.o, op.k, t);
    PayCore(s, op.o, op.k, t);
    PaySame(s, op.o, op.k, t, Debt(op.j, op.tk), op.prev);
    var s1 := Pay(s, op.o, op.k, t);
    var op' := AfterInc(op.k, op.j, op.rel, op.prev, op.said);
    SetOpCore(s1, t, op');
    SetOpDebts(s1, t, op');
    SetOpHands(s1, t, op', op.k, op.prev);
    SetOpOthers(s, s1, t, op');
    PaidOp(SetOp(s1, t, op'), t, op.k, op.j, op.rel, op.prev, op.said);
    RefStep(s, SetOp(s1, t, op'), t);
  }

  lemma PaidOp(s': State, t: Tid, k: Kind, j: Slot, rel: bool, v: CellVal, said: Answer)
    requires t < |s'.ops| && s'.ops[t] == AfterInc(k, j, rel, v, said)
    requires if rel then v == Null && OwnSlot(s', t, j) && j == SLOTS * t else OwnNoProt(s', t)
    requires NoDebts(s', t) && HandIs(s', t, k, v) && HoldsHand(s', t, k, v)
    ensures OpOk(s', t)
  {
    forall o, k2 ensures DebtLink(s', t, o, k2) { assert !HasDebt(s', o, k2, t); }
    forall o, k2, i ensures HandLink(s', t, o, k2, i) { }
  }

  // ---------------------------------------------------------------- all calls

  lemma GoInv(s: State, t: Tid)
    requires Inv(s) && GoEnabled(s, t)
    ensures Inv(GoStep(s, t))
  {
    hide Core, Threads, GoStep;
    match s.ops[t] {
      case Begin(_, _, _) => BeginInv(s, t);
      case Loaded(_, _, _, _) => LoadedInv(s, t);
      case Announced(_, _, _, _) => AnnouncedInv(s, t);
      case TakeRef(_, _, _) => TakeRefInv(s, t);
      case TryRef(_, _, _) => TryRefInv(s, t);
      case CheckUse(_, _, _) => CheckUseInv(s, t);
      case Recheck(_, _, _, _) => RecheckInv(s, t);
      case Finish(_, _, _) => FinishInv(s, t);
      case Retiring(_, _, _) => RetiringInv(s, t);
      case CasRetire(_, _, _, _, _, _) => CasRetireInv(s, t);
      case CopyInc(_, _, _, _, _, _, _) => CopyIncInv(s, t);
    }
  }

  lemma IdleLocal(s: State, t: Tid, said: Answer)
    requires Inv(s) && IdleThread(s, t)
    ensures Inv(SetOp(Tick(s), t, Idle(said)))
  {
    hide Core, Threads;
    OpOf(s, t);
    LocalInv(s, t, Idle(said));
  }

  lemma CallInv(s: State, l: CallStep)
    requires Inv(s) && CallEnabled(s, l)
    ensures Inv(ApplyCall(s, l))
  {
    hide Core, Threads, Movable;
    match l {
      case Start(t, c, j, g) => StartInv(s, t, c, j, g);
      case StoreMove(t, c, src) => MoveInv(s, t, c, src, Stored);
      case CasMove(t, c, expected, src) =>
        if Target(s.cells[c]) == expected { MoveInv(s, t, c, src, Swapped(true)); }
        else { IdleLocal(s, t, Swapped(false)); }
      case StoreSnap(t, c, j) => StoreSnapInv(s, t, c, j);
      case CasSnap(t, c, expected, j) => CasSnapInv(s, t, c, expected, j);
      case Reserve(t, o, k, i) => ReserveInv(s, t, o, k, i);
      case CasReserved(t, c, expected) => CasReservedInv(s, t, c, expected);
      case Go(t) => GoInv(s, t);
    }
  }
}
