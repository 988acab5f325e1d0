/** Every step of clients and of reclamation keeps the invariant. */
module HpSteps {
  import opened Options
  import opened HpModel
  import opened HpInvariant
  import opened HpUpdates
  import opened HpTickets
  import opened HpPasses
  import opened HpSlots
  import opened HpPhases
  import opened HpThreads

  // ---------------------------------------------------------------- steps that no thread's call notices

  ghost predicate Unnoticed(s: State, s': State) {
    && s'.ops == s.ops && s'.slots == s.slots
    && forall u :: 0 <= u < |s.ops| ==> SameRefs(s, s', u)
  }

  lemma UnnoticedStep(s: State, s': State)
    requires Threads(s) && Unnoticed(s, s')
    ensures Threads(s')
  {
    forall u | 0 <= u < |s'.ops| ensures OpOk(s', u) {
      hide OpOk;
      OpFrame(s, s', u);
    }
  }

  lemma AddRefSame(s: State, s': State, o: Obj, k: Kind)
    requires Core(s) && HasObj(s, o) && s'.ops == s.ops && s'.slots == s.slots && s'.cells == s.cells
    requires s'.objs == s.objs[o := WithCounter(s.objs[o], k,
        Ctr(s, o, k).(cnt := Ctr(s, o, k).cnt + 1, tok := Ctr(s, o, k).tok[s.now := Owned]))]
    ensures Unnoticed(s, s')
  {
    hide Core, SameRefs;
    FreshTicket(s, o, k);
    forall u | 0 <= u < |s.ops| ensures SameRefs(s, s', u) { CounterSame(s, s', o, k, u); }
  }

  lemma ReleaseSame(s: State, s': State, o: Obj, k: Kind, i: Ticket)
    requires HasTicket(s, o, k, i) && !Ctr(s, o, k).tok[i].Hand? && s'.ops == s.ops && s'.slots == s.slots
    requires s'.cells == s.cells
    requires o in s'.objs && s'.objs == s.objs[o := WithCounter(s.objs[o], k, Ctr(s', o, k))]
    requires Ctr(s', o, k).tok == Ctr(s, o, k).tok - {i} && Ctr(s', o, k).deb == Ctr(s, o, k).deb
    ensures Unnoticed(s, s')
  {
    hide SameRefs;
    forall u | 0 <= u < |s.ops| ensures SameRefs(s, s', u) { CounterSame(s, s', o, k, u); }
  }

  lemma TokensSame(s: State, s': State)
    requires s'.ops == s.ops && s'.slots == s.slots && s'.cells == s.cells && s'.objs.Keys == s.objs.Keys
    requires forall o :: o in s.objs ==> SameTokens(s.objs[o], s'.objs[o])
    ensures Unnoticed(s, s')
  {
    hide SameRefs;
    forall u | 0 <= u < |s.ops| ensures SameRefs(s, s', u) { ObjectsSame(s, s', u); }
  }

  // ---------------------------------------------------------------- clients

  lemma AddRefInv(s: State, o: Obj, k: Kind)
    requires Inv(s) && HasObj(s, o)
    requires s.objs[o].strong.tok != map[] || (k.Weak? && s.objs[o].weak.tok != map[])
    ensures Inv(AddRef(s, o, k))
  {
    hide Core, Threads, Unnoticed;
    AddRefCore(s, o, k);
    AddRefSame(s, AddRef(s, o, k), o, k);
    UnnoticedStep(s, AddRef(s, o, k));
  }

  lemma TryAddInv(s: State, o: Obj)
    requires Inv(s) && HasObj(s, o)
    requires s.objs[o].strong.tok != map[] || s.objs[o].weak.tok != map[]
    ensures Inv(TryAddStrong(s, o))
  {
    hide Core, Threads, Unnoticed;
    TryAddStrongCore(s, o);
    if s.objs[o].phase.Live? { AddRefSame(s, TryAddStrong(s, o), o, Strong); }
    else { TokensSame(s, TryAddStrong(s, o)); }
    UnnoticedStep(s, TryAddStrong(s, o));
  }

  lemma AllocInv(s: State, o: Obj)
    requires Inv(s) && HasObj(s, o) && s.objs[o].phase.Free?
    ensures Inv(DoAlloc(s, o))
  {
    hide Core, Threads, Unnoticed;
    var r := s.objs[o];
    var s1 := Tick(s.(objs := s.objs[o := Object(Live, r.strong.(cnt := 0), r.weak.(cnt := 1), Implicit)]));
    AllocCore(s, o);
    TokensSame(s, s1);
    UnnoticedStep(s, s1);
    AllocFresh(s, o);
    AllocSame(s1, DoAlloc(s, o), o);
    UnnoticedStep(s1, DoAlloc(s, o));
  }

  lemma AllocFresh(s: State, o: Obj)
    requires Core(s) && HasObj(s, o) && s.objs[o].phase.Free?
    ensures s.objs[o].strong.tok == map[]
  {
    hide Slots, Objects, Passes, Links, Cells;
    CorePhase(s, o);
  }

  lemma AllocSame(s: State, s': State, o: Obj)
    requires HasObj(s, o) && s.objs[o].strong.tok == map[] && s'.ops == s.ops && s'.slots == s.slots
    requires s'.cells == s.cells
    requires s'.objs == s.objs[o := s.objs[o].(strong := s.objs[o].strong.(cnt := s.objs[o].strong.cnt
        + 1, tok := s.objs[o].strong.tok[s.now := Owned]))]
    ensures Unnoticed(s, s')
  {
    hide SameRefs;
    forall u | 0 <= u < |s.ops| ensures SameRefs(s, s', u) { CounterSame(s, s', o, Strong, u); }
  }

  lemma DropInv(s: State, o: Obj, k: Kind, i: Ticket)
    requires Inv(s) && HasOwned(s, o, k, i) && Unpinned(s, o, k, i)
    ensures Inv(Release(s, o, k, i))
  {
    hide Core, Threads, Unnoticed, Unpinned;
    DropCore(s, o, k, i);
    ReleaseSame(s, Release(s, o, k, i), o, k, i);
    UnnoticedStep(s, Release(s, o, k, i));
  }

  /** The owner of slot j, not being in debt, has no debt on it; nor has anybody else. */
  lemma OwnSlotFree(s: State, t: Tid, j: Slot)
    requires Inv(s) && t < |s.ops| && OwnSlot(s, t, j) && !InDebt(s.ops[t])
    ensures NoDebtOn(s, j)
  {
    hide Slots, Cells, Passes, Links;
    forall o, k, u | HasDebt(s, o, k, u) ensures Ctr(s, o, k).deb[u].slot != j {
      CoreCounter(s, o, k);
      assert DebtOk(Ctr(s, o, k), u, o, k, s.slots, s.now);
      NotInDebt(s, t, o, k);
    }
  }

  /** Thread t's step touches only its own slots and its own program counter. */
  lemma OwnSlotStep(s: State, s': State, t: Tid)
    requires Threads(s) && t < |s.ops| && |s'.ops| == |s.ops| && |s'.slots| == |s.slots| && s'.objs == s.objs
    requires s'.cells == s.cells
    requires Quiet(s.ops[t])
    requires forall u :: 0 <= u < |s.ops| && u != t ==> s'.ops[u] == s.ops[u]
    requires forall j :: 0 <= j < |s.slots| && j / SLOTS != t ==> s'.slots[j] == s.slots[j]
    requires SlotLink(s', t)
    ensures Threads(s')
  {
    hide OpOk, SameRefs, SlotLink;
    forall u | 0 <= u < |s.ops| ensures SameRefs(s, s', u) { ObjectsSame(s, s', u); }
    assert OpOk(s, t);
    QuietStep(s, s', t);
    ThreadsFrame(s, s', t);
  }

  lemma ClearSnapInv(s: State, t: Tid, j: Slot)
    requires Inv(s) && IdleThread(s, t) && HasSnapshot(s, t, j)
    ensures Inv(Announce(s, j, None, NoProt))
  {
    hide Core;
    OwnSlotFree(s, t, j);
    AnnounceCore(s, j, None, NoProt);
    assert OpOk(s, t);
    OwnSlotStep(s, Announce(s, j, None, NoProt), t);
  }

  lemma SnapshotHasRef(s: State, t: Tid, j: Slot)
    requires Core(s) && HasSnapshot(s, t, j)
    ensures Ctr(s, s.slots[j].ann.value, s.slots[j].prot.kind).tok != map[]
  {
    hide Slots, Objects, Passes, Links, Cells;
    ProtectedTicket(s, s.slots[j].ann.value, s.slots[j].prot.kind, j);
  }

  lemma ClientInv(s: State, l: ClientStep)
    requires Inv(s) && ClientEnabled(s, l)
    ensures Inv(ApplyClient(s, l))
  {
    hide Core, Threads, Unpinned;
    match l {
      case Alloc(o) => AllocInv(s, o);
      case Clone(o, k, i, k2) => AddRefInv(s, o, k2);
      case Lock(o, i) => TryAddInv(s, o);
      case SnapClone(t, j, k2) => SnapshotHasRef(s, t, j); AddRefInv(s, s.slots[j].ann.value, k2);
      case SnapLock(t, j) => SnapshotHasRef(s, t, j); TryAddInv(s, s.slots[j].ann.value);
      case DropRef(o, k, i) => DropInv(s, o, k, i);
      case ClearSnap(t, j) => ClearSnapInv(s, t, j);
    }
  }

  // ---------------------------------------------------------------- reclamation

  lemma SetPassSame(s: State, t: Tid, p: Pass)
    requires t < |s.passes|
    ensures Unnoticed(s, SetPass(s, t, p))
  {
    hide Unnoticed;
    TokensSame(s, SetPass(s, t, p));
  }

  lemma PassCountInv(s: State, t: Tid, o: Obj, k: Kind, i: Ticket)
    requires Inv(s) && Todo(s, t, o, k, i)
    ensures Inv(DoPassCount(s, t, o, k, i))
  {
    hide Core, Threads, Unnoticed;
    var s' := DoPassCount(s, t, o, k, i);
    PassCountCore(s, t, o, k, i);
    if (o, ActionOf(k)) in s.passes[t].announced {
      SetPassSame(s, t, Keep(s.passes[t], (o, ActionOf(k)), i));
    } else {
      ReleaseSame(s, s', o, k, i);
    }
    UnnoticedStep(s, s');
  }

  lemma PassDisposeInv(s: State, t: Tid, o: Obj)
    requires Inv(s) && TodoDispose(s, t, o)
    ensures Inv(DoPassDispose(s, t, o))
  {
    hide Core, Threads, Unnoticed;
    var s' := DoPassDispose(s, t, o);
    if (o, Dispose) in s.passes[t].announced {
      KeepCore(s, t, (o, Dispose), s.objs[o].shared.at);
    } else {
      EjectDisposeCore(s, t, o);
    }
    TokensSame(s, s');
    UnnoticedStep(s, s');
  }

  lemma PhaseStepInv(s: State, s': State)
    requires Threads(s) && Core(s') && s'.ops == s.ops && s'.slots == s.slots && s'.cells == s.cells
    requires s'.objs.Keys == s.objs.Keys
    requires forall o :: o in s.objs ==> SameTokens(s.objs[o], s'.objs[o])
    ensures Inv(s')
  {
    hide Core, Threads, Unnoticed;
    TokensSame(s, s');
    UnnoticedStep(s, s');
  }

  lemma PassStepInv(s: State, l: ReclaimStep)
    requires Inv(s) && ReclaimEnabled(s, l)
    requires (l.PassBegin? || l.PassScan? || l.PassCount? || l.PassDispose? || l.PassEnd?)
    ensures Inv(ApplyReclaim(s, l))
  {
    hide Core, Threads;
    match l {
      case PassBegin(t) => BeginCore(s, t); PhaseStepInv(s, ApplyReclaim(s, l));
      case PassScan(t) => ScanCore(s, t); PhaseStepInv(s, ApplyReclaim(s, l));
      case PassCount(t, o, k, i) => PassCountInv(s, t, o, k, i);
      case PassDispose(t, o) => PassDisposeInv(s, t, o);
      case PassEnd(t) => EndCore(s, t); PhaseStepInv(s, ApplyReclaim(s, l));
    }
  }

  lemma LifeStepInv(s: State, l: ReclaimStep)
    requires Inv(s) && ReclaimEnabled(s, l)
    requires !(l.PassBegin? || l.PassScan? || l.PassCount? || l.PassDispose? || l.PassEnd?)
    ensures Inv(ApplyReclaim(s, l))
  {
    hide Core, Threads;
    match l {
      case StickZero(o) => ExpireCore(s, o, Expired);
      case ClaimZero(t, o) => ExpireCore(s, o, Claimed(t));
      case Judge(t, o) => JudgeCore(s, t, o);
      case WeakZero(o) => WeakZeroCore(s, o);
      case Delete(o) => DeleteCore(s, o);
    }
    PhaseStepInv(s, ApplyReclaim(s, l));
  }
}
