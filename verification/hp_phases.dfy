/** The life of an object: expiry, immediate or delayed disposal, deletion, reuse of the address. */
module HpPhases {
  import opened Options
  import opened HpModel
  import opened HpInvariant
  import opened HpUpdates
  import opened HpTickets

  /** Only object o's phase, shared reference or weak count changed. */
  ghost predicate PhaseOnly(s: State, s': State, o: Obj) {
    && o in s.objs && o in s'.objs && s' == Tick(s.(objs := s.objs[o := s'.objs[o]]))
    && var r := s.objs[o];
    && var r' := s'.objs[o];
    && r'.strong.tok == r.strong.tok && r'.strong.deb == r.strong.deb && r'.strong.last == r.strong.last
    && r'.weak.tok == r.weak.tok && r'.weak.deb == r.weak.deb && r'.weak.last == r.weak.last
  }

  lemma SameCounter(c: Counter, c': Counter, o: Obj, k: Kind, s: State, s': State)
    requires s'.cells == s.cells && s'.slots == s.slots && |s'.ops| == |s.ops| && s'.now >= s.now
    requires c'.tok == c.tok && c'.deb == c.deb && c'.last == c.last
    requires TicketsOk(c, o, k, s.cells, |s.ops|, s.now) && DebtsOk(c, o, k, s.slots, s.now) && LastOk(c, s.now)
    ensures TicketsOk(c', o, k, s'.cells, |s'.ops|, s'.now) && DebtsOk(c', o, k, s'.slots, s'.now) && LastOk(c', s'.now)
  {
    CounterLater(c, o, k, s, s');
    forall t | t in c'.deb ensures DebtOk(c', t, o, k, s'.slots, s'.now) {
      assert DebtOk(c, t, o, k, s'.slots, s'.now);
    }
  }

  lemma PhaseObjects(s: State, s': State, o: Obj)
    requires Objects(s) && PhaseOnly(s, s', o) && PhaseOk(s'.objs[o], s'.now)
    ensures Objects(s')
  {
    forall o2 | o2 in s'.objs ensures ObjectOk(s'.objs[o2], o2, s') {
      assert ObjectOk(s.objs[o2], o2, s);
      hide ObjectOk, PhaseOk, Objects;
      if o2 != o { ObjectLater(s.objs[o2], o2, s, s'); } else { PhaseOwn(s, s', o); }
    }
  }

  lemma PhaseOwn(s: State, s': State, o: Obj)
    requires o in s.objs && ObjectOk(s.objs[o], o, s) && PhaseOnly(s, s', o) && PhaseOk(s'.objs[o], s'.now)
    ensures ObjectOk(s'.objs[o], o, s')
  {
    hide PhaseOk, TicketsOk, DebtsOk, LastOk;
    SameCounter(s.objs[o].strong, s'.objs[o].strong, o, Strong, s, s');
    SameCounter(s.objs[o].weak, s'.objs[o].weak, o, Weak, s, s');
  }

  /** Every reader of o still sees what it relies on after the change. */
  ghost predicate ReadersOk(s: State, s': State, o: Obj)
    requires o in s'.objs
  {
    forall j :: 0 <= j < |s.slots| && s.slots[j].ann == Some(o) && s.slots[j].prot.Valid? ==>
        UseOk(s'.objs[o], s.slots[j].at, s.slots[j].prot.use)
  }

  lemma PhaseSlots(s: State, s': State, o: Obj)
    requires Slots(s) && PhaseOnly(s, s', o) && ReadersOk(s, s', o)
    ensures Slots(s')
  {
    forall j | 0 <= j < |s'.slots| ensures SlotOk(s'.slots[j], j, s'.objs, s'.now) {
      assert SlotOk(s.slots[j], j, s.objs, s.now);
    }
  }

  lemma PhaseCells(s: State, s': State, o: Obj)
    requires Cells(s) && PhaseOnly(s, s', o)
    ensures Cells(s')
  {
    forall c | c in s'.cells ensures CellOk(c, s'.cells[c], s'.objs) { assert CellOk(c, s.cells[c], s.objs); }
  }

  /** No pass holds a kept disposal of o unless the shared reference stays as it is. */
  ghost predicate NoKeptDispose(s: State, o: Obj) {
    forall t, i :: 0 <= t < |s.passes| && s.passes[t].Pass? ==> i !in KeptOf(s.passes[t], (o, Dispose))
  }

  lemma PhasePasses(s: State, s': State, o: Obj)
    requires Passes(s) && PhaseOnly(s, s', o) && (s'.objs[o].shared == s.objs[o].shared || NoKeptDispose(s, o))
    ensures Passes(s')
  {
    forall t | 0 <= t < |s'.passes| ensures PassOk(s'.passes[t], t, s'.slots, s'.objs, s'.now) {
      hide ScanOk, TableOk;
      var q := s.passes[t];
      assert PassOk(q, t, s.slots, s.objs, s.now);
      if q.Pass? {
        forall key, e | e in KeptOf(q, key) ensures KeptOk(t, q.start, key, e, s'.objs) {
          assert KeptOk(t, q.start, key, e, s.objs);
        }
      }
    }
  }

  lemma PhaseLinks(s: State, s': State, o: Obj)
    requires Links(s) && PhaseOnly(s, s', o)
    ensures Links(s')
  {
    forall o2, t | o2 in s'.objs && 0 <= t < |s'.passes|
      ensures LinkOk(s'.objs[o2].strong.last, s'.passes[t], t, (o2, DecStrong))
      ensures LinkOk(s'.objs[o2].weak.last, s'.passes[t], t, (o2, DecWeak))
    {
      assert s'.objs[o2].strong.last == s.objs[o2].strong.last && s'.objs[o2].weak.last == s.objs[o2].weak.last;
    }
  }

  lemma PhaseCore(s: State, s': State, o: Obj)
    requires Core(s) && PhaseOnly(s, s', o) && PhaseOk(s'.objs[o], s'.now) && ReadersOk(s, s', o)
    requires s'.objs[o].shared == s.objs[o].shared || NoKeptDispose(s, o)
    ensures Core(s')
  {
    hide Slots, Objects, Passes, Links, Cells, PhaseOk, ReadersOk, NoKeptDispose;
    PhaseObjects(s, s', o);
    PhaseSlots(s, s', o);
    PhaseCells(s, s', o);
    PhasePasses(s, s', o);
    PhaseLinks(s, s', o);
  }

  // ---------------------------------------------------------------- expiry

  lemma SlotUse(s: State, o: Obj, j: Slot)
    requires Slots(s) && j < |s.slots| && s.slots[j].ann == Some(o) && s.slots[j].prot.Valid?
    ensures HasObj(s, o) && UseOk(s.objs[o], s.slots[j].at, s.slots[j].prot.use)
  {
    assert SlotOk(s.slots[j], j, s.objs, s.now);
  }

  /** A strong counter at zero gets stuck, or its stuck zero gets claimed. */
  lemma ExpireCore(s: State, o: Obj, p: Phase)
    requires Core(s) && HasObj(s, o)
    requires (s.objs[o].phase.Live? && s.objs[o].strong.cnt == 0 && p.Expired?) ||
      (s.objs[o].phase.Expired? && p.Claimed?)
    ensures Core(SetPhase(s, o, p))
  {
    hide Slots, Objects, Passes, Links, Cells;
    var s' := SetPhase(s, o, p);
    CorePhase(s, o);
    forall j | 0 <= j < |s.slots| && s.slots[j].ann == Some(o) && s.slots[j].prot.Valid?
      ensures UseOk(s'.objs[o], s.slots[j].at, s.slots[j].prot.use)
    {
      SlotUse(s, o, j);
    }
    PhaseCore(s, s', o);
  }

  // ---------------------------------------------------------------- the judgement of release_refs

  lemma NothingLeft(s: State, o: Obj)
    requires Core(s) && HasObj(s, o) && s.objs[o].phase.Claimed? && s.objs[o].weak.cnt == 1
    ensures s.objs[o].strong.tok == map[] && s.objs[o].weak.tok == map[] && s.objs[o].weak.deb == map[]
  {
    hide Slots, Objects, Passes, Links, Cells;
    CorePhase(s, o);
    StrongCount(s, o);
    WeakCount(s, o);
  }

  /** With no strong and no weak reference there is no reader either. */
  lemma NoReaders(s: State, o: Obj, j: Slot)
    requires Core(s) && HasObj(s, o) && s.objs[o].strong.tok == map[] && s.objs[o].weak.tok == map[]
    requires j < |s.slots| && s.slots[j].ann == Some(o)
    ensures s.slots[j].prot.NoProt?
  {
    hide Slots, Objects, Passes, Links, Cells;
    if !s.slots[j].prot.NoProt? {
      ProtectedTicket(s, o, s.slots[j].prot.kind, j);
    }
  }

  lemma NoKeptYet(s: State, o: Obj)
    requires Core(s) && HasObj(s, o) && !s.objs[o].shared.Retired?
    ensures NoKeptDispose(s, o)
  {
    hide Slots, Objects, Links, Cells, ScanOk, TableOk;
    forall t, i | 0 <= t < |s.passes| && s.passes[t].Pass? ensures i !in KeptOf(s.passes[t], (o, Dispose)) {
      assert PassOk(s.passes[t], t, s.slots, s.objs, s.now);
      assert i in KeptOf(s.passes[t], (o, Dispose)) ==> KeptOk(t, s.passes[t].start, (o, Dispose), i, s.objs);
    }
  }

  lemma JudgeCore(s: State, t: Tid, o: Obj)
    requires Core(s) && HasObj(s, o) && s.objs[o].phase == Claimed(t)
    ensures Core(DoJudge(s, t, o))
  {
    hide Slots, Objects, Passes, Links, Cells, NoKeptDispose;
    var s' := DoJudge(s, t, o);
    CorePhase(s, o);
    NoKeptYet(s, o);
    if s.objs[o].weak.cnt == 1 { NothingLeft(s, o); }
    forall j | 0 <= j < |s.slots| && s.slots[j].ann == Some(o) && s.slots[j].prot.Valid?
      ensures UseOk(s'.objs[o], s.slots[j].at, s.slots[j].prot.use)
    {
      JudgeReader(s, t, o, j);
    }
    PhaseCore(s, s', o);
  }

  lemma JudgeReader(s: State, t: Tid, o: Obj, j: Slot)
    requires Core(s) && HasObj(s, o) && s.objs[o].phase == Claimed(t)
    requires j < |s.slots| && s.slots[j].ann == Some(o) && s.slots[j].prot.Valid?
    ensures UseOk(DoJudge(s, t, o).objs[o], s.slots[j].at, s.slots[j].prot.use)
  {
    hide Objects, Passes, Links, Cells;
    if s.objs[o].weak.cnt == 1 { NothingLeft(s, o); NoReaders(s, o, j); }
    assert SlotOk(s.slots[j], j, s.objs, s.now);
  }

  // ---------------------------------------------------------------- the delayed disposal runs

  /** A reader that saw the object alive announced it before the disposal was retired, so the pass saw it. */
  lemma DisposeReader(s: State, t: Tid, o: Obj, j: Slot)
    requires Core(s) && TodoDispose(s, t, o) && (o, Dispose) !in s.passes[t].announced
    requires j < |s.slots| && s.slots[j].ann == Some(o) && s.slots[j].prot.Valid?
    ensures s.slots[j].prot.use != Positive
  {
    hide Objects, Links, Cells;
    var p := s.passes[t];
    assert PassOk(p, t, s.slots, s.objs, s.now);
    assert SlotOk(s.slots[j], j, s.objs, s.now);
    if s.slots[j].at < p.start {
      assert j in SeenOf(p.seen, o);
      assert TableOk(p, (o, Dispose));
      OnlyOneDisposal(s, t, o);
    }
  }

  lemma OnlyOneDisposal(s: State, t: Tid, o: Obj)
    requires Core(s) && TodoDispose(s, t, o)
    ensures KeptOf(s.passes[t], (o, Dispose)) == {}
  {
    hide Slots, Objects, Links, Cells, ScanOk, TableOk;
    var p := s.passes[t];
    assert PassOk(p, t, s.slots, s.objs, s.now);
    forall i ensures i !in KeptOf(p, (o, Dispose)) {
      assert i in KeptOf(p, (o, Dispose)) ==> KeptOk(t, p.start, (o, Dispose), i, s.objs);
    }
  }

  lemma DisposedIsKeptNowhere(s: State, t: Tid, o: Obj)
    requires Core(s) && TodoDispose(s, t, o)
    ensures NoKeptDispose(s, o)
  {
    hide Slots, Objects, Links, Cells, ScanOk, TableOk;
    OnlyOneDisposal(s, t, o);
    forall u, i | 0 <= u < |s.passes| && s.passes[u].Pass? ensures i !in KeptOf(s.passes[u], (o, Dispose)) {
      assert PassOk(s.passes[u], u, s.slots, s.objs, s.now);
      assert i in KeptOf(s.passes[u], (o, Dispose)) ==> KeptOk(u, s.passes[u].start, (o, Dispose), i, s.objs);
    }
  }

  /** A retired disposal finds the object delayed, with a zero use count and its shared weak reference. */
  lemma DisposalDue(s: State, t: Tid, o: Obj)
    requires Core(s) && TodoDispose(s, t, o)
    ensures var r := s.objs[o]; r.phase == Delayed && r.strong.cnt == 0 && r.weak.cnt >= 1 && PhaseOk(r, s.now)
  {
    hide Core, Accountable;
    CorePhase(s, o);
    CoreAccountable(s, o, Weak);
    Covered(s.objs[o].weak, s.slots);
  }

  lemma DisposePhase(s: State, t: Tid, o: Obj)
    requires HasObj(s, o) && !s.bad && PhaseOk(s.objs[o], s.now)
    requires var r := s.objs[o]; r.phase == Delayed && r.strong.cnt == 0 && r.weak.cnt >= 1
    ensures PhaseOnly(s, EjectDispose(s, o), o) && PhaseOk(EjectDispose(s, o).objs[o], EjectDispose(s, o).now)
  {
  }

  /** No reader was promised an object whose disposal is ejected. */
  lemma DisposeReaders(s: State, t: Tid, o: Obj)
    requires Core(s) && TodoDispose(s, t, o) && (o, Dispose) !in s.passes[t].announced
    ensures ReadersOk(s, EjectDispose(s, o), o)
  {
    hide Objects, Passes, Links, Cells, Slots, Accountable;
    var s' := EjectDispose(s, o);
    forall j | 0 <= j < |s.slots| && s.slots[j].ann == Some(o) && s.slots[j].prot.Valid?
      ensures UseOk(s'.objs[o], s.slots[j].at, s.slots[j].prot.use)
    {
      DisposeReader(s, t, o, j);
      SlotUse(s, o, j);
    }
  }

  lemma EjectDisposeCore(s: State, t: Tid, o: Obj)
    requires Core(s) && TodoDispose(s, t, o) && (o, Dispose) !in s.passes[t].announced
    ensures Core(EjectDispose(s, o))
  {
    hide Slots, Objects, Passes, Links, Cells, NoKeptDispose, ReadersOk, PhaseOnly, PhaseOk, EjectDispose;
    DisposalDue(s, t, o);
    DisposePhase(s, t, o);
    DisposeReaders(s, t, o);
    DisposedIsKeptNowhere(s, t, o);
    PhaseCore(s, EjectDispose(s, o), o);
  }

  // ---------------------------------------------------------------- deletion and reuse

  lemma WeakZeroCore(s: State, o: Obj)
    requires Core(s) && HasObj(s, o) && !s.objs[o].phase.Free? && !s.objs[o].phase.Doomed? && s.objs[o].weak.cnt == 0
    ensures Core(DoWeakZero(s, o))
  {
    hide Slots, Objects, Passes, Links, Cells;
    var s' := DoWeakZero(s, o);
    CorePhase(s, o);
    StrongCount(s, o);
    WeakCount(s, o);
    CoreAccountable(s, o, Weak);
    Covered(s.objs[o].weak, s.slots);
    forall j | 0 <= j < |s.slots| && s.slots[j].ann == Some(o) ensures s.slots[j].prot.NoProt? { NoReaders(s, o, j); }
    PhaseCore(s, s', o);
  }

  lemma DeleteCore(s: State, o: Obj)
    requires Core(s) && HasObj(s, o) && s.objs[o].phase.Doomed?
    ensures Core(DoDelete(s, o))
  {
    hide Slots, Objects, Passes, Links, Cells, NoKeptDispose;
    var s' := DoDelete(s, o);
    CorePhase(s, o);
    StrongCount(s, o);
    NoKeptYet(s, o);
    forall j | 0 <= j < |s.slots| && s.slots[j].ann == Some(o) ensures s.slots[j].prot.NoProt? { NoReaders(s, o, j); }
    PhaseCore(s, s', o);
  }

  /** A fresh object at a free address, perhaps one that was used before. */
  lemma AllocCore(s: State, o: Obj)
    requires Core(s) && HasObj(s, o) && s.objs[o].phase.Free?
    ensures Core(DoAlloc(s, o))
  {
    hide Slots, Objects, Passes, Links, Cells, NoKeptDispose;
    var r := s.objs[o];
    var s1 := Tick(s.(objs := s.objs[o := Object(Live, r.strong.(cnt := 0), r.weak.(cnt := 1), Implicit)]));
    CorePhase(s, o);
    NoKeptYet(s, o);
    forall j | 0 <= j < |s.slots| && s.slots[j].ann == Some(o) ensures s.slots[j].prot.NoProt? { NoReaders(s, o, j); }
    PhaseCore(s, s1, o);
    GainRef(s1, DoAlloc(s, o), o, Strong);
  }
}
