/** Announcement slots: announcing, validating and clearing. */
module HpSlots {
  import opened Options
  import opened HpModel
  import opened HpInvariant
  import opened HpUpdates

  ghost predicate NoDebtOn(s: State, j: Slot) {
    forall o, k, t :: HasDebt(s, o, k, t) ==> Ctr(s, o, k).deb[t].slot != j
  }

  /** Only slot j changed, to a state x that is in order, either freshly announced or as announced before. */
  ghost predicate SlotOnly(s: State, s': State, j: Slot, x: SlotState) {
    && j < |s.slots| && s' == Tick(s.(slots := s.slots[j := x]))
    && SlotOk(x, j, s.objs, s'.now)
    && (x.ann.Some? ==> x.at == s.now || (x.at == s.slots[j].at && x.ann == s.slots[j].ann))
  }

  lemma SlotDebts(c: Counter, o: Obj, k: Kind, s: State, s': State, j: Slot, x: SlotState)
    requires SlotOnly(s, s', j, x) && DebtsOk(c, o, k, s.slots, s.now)
    requires forall t :: t in c.deb ==> c.deb[t].slot != j
    ensures DebtsOk(c, o, k, s'.slots, s'.now)
  {
    forall t | t in c.deb ensures DebtOk(c, t, o, k, s'.slots, s'.now) { assert DebtOk(c, t, o, k, s.slots, s.now); }
  }

  lemma SlotObject(r: Object, o: Obj, s: State, s': State, j: Slot, x: SlotState)
    requires ObjectOk(r, o, s) && SlotOnly(s, s', j, x)
    requires forall t :: t in r.strong.deb ==> r.strong.deb[t].slot != j
    requires forall t :: t in r.weak.deb ==> r.weak.deb[t].slot != j
    ensures ObjectOk(r, o, s')
  {
    hide SlotOnly, DebtsOk, TicketsOk;
    SlotFrame(s, s', j, x);
    SlotDebts(r.strong, o, Strong, s, s', j, x);
    SlotDebts(r.weak, o, Weak, s, s', j, x);
    LaterTickets(r.strong, o, Strong, s, s');
    LaterTickets(r.weak, o, Weak, s, s');
  }

  lemma NoDebtOf(s: State, j: Slot, o: Obj)
    requires NoDebtOn(s, j) && o in s.objs
    ensures forall t :: t in s.objs[o].strong.deb ==> s.objs[o].strong.deb[t].slot != j
    ensures forall t :: t in s.objs[o].weak.deb ==> s.objs[o].weak.deb[t].slot != j
  {
    forall t | t in s.objs[o].strong.deb ensures s.objs[o].strong.deb[t].slot != j { assert HasDebt(s, o, Strong, t); }
    forall t | t in s.objs[o].weak.deb ensures s.objs[o].weak.deb[t].slot != j { assert HasDebt(s, o, Weak, t); }
  }

  lemma SlotObjects(s: State, s': State, j: Slot, x: SlotState)
    requires Objects(s) && SlotOnly(s, s', j, x) && NoDebtOn(s, j)
    ensures Objects(s')
  {
    hide ObjectOk, NoDebtOn, SlotOnly;
    SlotFrame(s, s', j, x);
    forall o | o in s'.objs ensures ObjectOk(s'.objs[o], o, s') {
      NoDebtOf(s, j, o);
      SlotObject(s.objs[o], o, s, s', j, x);
    }
  }

  lemma SlotFrame(s: State, s': State, j: Slot, x: SlotState)
    requires SlotOnly(s, s', j, x)
    ensures s'.objs == s.objs && s'.cells == s.cells && |s'.ops| == |s.ops| && s'.now == s.now + 1
    ensures s'.passes == s.passes
  {
  }

  lemma LaterTickets(c: Counter, o: Obj, k: Kind, s: State, s': State)
    requires TicketsOk(c, o, k, s.cells, |s.ops|, s.now) && s'.cells == s.cells && |s'.ops| == |s.ops|
    requires s'.now >= s.now
    ensures TicketsOk(c, o, k, s'.cells, |s'.ops|, s'.now)
  {
  }

  lemma SlotScan(s: State, s': State, j: Slot, x: SlotState, p: Pass)
    requires SlotOnly(s, s', j, x) && p.Pass? && ScanOk(p, s.slots) && p.start < s.now
    ensures ScanOk(p, s'.slots)
  {
  }

  lemma SlotPasses(s: State, s': State, j: Slot, x: SlotState)
    requires Passes(s) && SlotOnly(s, s', j, x)
    ensures Passes(s')
  {
    forall t | 0 <= t < |s'.passes| ensures PassOk(s'.passes[t], t, s'.slots, s'.objs, s'.now) {
      hide SlotOnly, ScanOk, TableOk, KeptOk;
      SlotFrame(s, s', j, x);
      assert PassOk(s.passes[t], t, s.slots, s.objs, s.now);
      if s.passes[t].Pass? { SlotScan(s, s', j, x, s.passes[t]); }
    }
  }

  lemma SlotSlots(s: State, s': State, j: Slot, x: SlotState)
    requires Slots(s) && SlotOnly(s, s', j, x)
    ensures Slots(s')
  {
    forall m | 0 <= m < |s'.slots| ensures SlotOk(s'.slots[m], m, s'.objs, s'.now) {
      hide ProtOk;
      if m != j { assert SlotOk(s.slots[m], m, s.objs, s.now); }
    }
  }

  lemma SlotCore(s: State, s': State, j: Slot, x: SlotState)
    requires Core(s) && SlotOnly(s, s', j, x) && NoDebtOn(s, j)
    ensures Core(s')
  {
    hide Slots, Objects, Passes, NoDebtOn, SlotOk;
    SlotFrame(s, s', j, x);
    SlotObjects(s, s', j, x);
    SlotSlots(s, s', j, x);
    SlotPasses(s, s', j, x);
  }

  /** Announcing a pointer (or null) in a slot nobody relies on. The announcement is newer than every pass. */
  lemma AnnounceCore(s: State, j: Slot, r: Option<Obj>, prot: Prot)
    requires Core(s) && j < |s.slots| && NoDebtOn(s, j)
    requires r.Some? ==> HasObj(s, r.value)
    requires match prot case NoProt => true case Valid(_, _, _) => false case Pinned(k, i) =>
        r.Some? && HasOwned(s, r.value, k, i)
    ensures Core(Announce(s, j, r, prot))
  {
    hide Slots, Objects, Passes, NoDebtOn, Cells, Links;
    if r.Some? {
      CoreCounter(s, r.value, Strong);
      CoreCounter(s, r.value, Weak);
    }
    SlotCore(s, Announce(s, j, r, prot), j, SlotState(r, s.now, prot));
  }

  /** Validation: the cell still holds the announced object, so its ticket backs the announcement. */
  lemma ValidateCore(s: State, j: Slot, o: Obj, c: CellId)
    requires Core(s) && j < |s.slots| && NoDebtOn(s, j) && c in s.cells
    requires s.slots[j].ann == Some(o) && Target(s.cells[c]) == Some(o)
    ensures Core(Protect(s, j, Valid(c.kind, s.cells[c].i, Unread)))
  {
    hide Objects, Passes, NoDebtOn, Links;
    assert CellOk(c, s.cells[c], s.objs);
    assert SlotOk(s.slots[j], j, s.objs, s.now);
    assert s.cells[c].i < s.now by { CoreCounter(s, o, c.kind); }
    var prot := Valid(c.kind, s.cells[c].i, Unread);
    SlotCore(s, Protect(s, j, prot), j, s.slots[j].(prot := prot));
  }

  /** A weak reader records what it learnt of the use count. */
  lemma UseCore(s: State, j: Slot, o: Obj, use: Use)
    requires Core(s) && j < |s.slots| && NoDebtOn(s, j) && HasObj(s, o)
    requires s.slots[j].ann == Some(o) && s.slots[j].prot.Valid? && UseOk(s.objs[o], s.slots[j].at, use)
    ensures Core(Protect(s, j, s.slots[j].prot.(use := use)))
  {
    hide Objects, Passes, NoDebtOn, Links, Cells;
    assert SlotOk(s.slots[j], j, s.objs, s.now);
    var prot := s.slots[j].prot.(use := use);
    SlotCore(s, Protect(s, j, prot), j, s.slots[j].(prot := prot));
  }
}
