/** References that move between owners, cells, hands and deferred lists, or go away. */
module HpTickets {
  import opened Options
  import opened HpModel
  import opened HpInvariant
  import opened HpUpdates

  // ---------------------------------------------------------------- out of a cell, into a cell

  lemma MoveBalance(r: Object, r': Object, k: Kind, i: Ticket, p: Place, now: nat)
    requires PhaseOk(r, now) && i in CounterOf(r, k).tok
    requires r' == WithCounter(r, k, CounterOf(r, k).(tok := CounterOf(r, k).tok[i := p]))
    ensures PhaseOk(r', now + 1)
  {
    assert CounterOf(r', k).tok.Keys == CounterOf(r, k).tok.Keys;
    assert |CounterOf(r', k).tok| == |CounterOf(r, k).tok|;
  }

  /** Cells after cell c alone changed, together with the ticket that moved. */
  lemma CellsChange(s: State, s': State, o: Obj, k: Kind, i: Ticket, p: Place, c: CellId)
    requires Cells(s) && Put(s, s', o, k, i, p) && c in s.cells && c in s'.cells
    requires s'.cells == s.cells[c := s'.cells[c]]
    requires CellOk(c, s'.cells[c], s'.objs)
    requires i in CounterOf(s.objs[o], k).tok && CounterOf(s.objs[o], k).tok[i].InCell? ==>
        CounterOf(s.objs[o], k).tok[i] == InCell(c)
    ensures Cells(s')
  {
    forall x | x in s'.cells ensures CellOk(x, s'.cells[x], s'.objs) { assert CellOk(x, s.cells[x], s.objs); }
  }

  lemma CellOutCore(s: State, c: CellId, t: Tid)
    requires Core(s) && c in s.cells && t < |s.ops| && CellReady(s, c)
    ensures Core(CellOut(s, c, t))
  {
    hide Slots, Passes, Links, Objects, TicketsOk, DebtsOk, LastOk, PhaseOk;
    var s' := CellOut(s, c, t);
    match s.cells[c] {
      case Null => TickCore(s);
      case Holds(o, i) =>
        assert CellOk(c, s.cells[c], s.objs);
        CoreCounter(s, o, c.kind);
        CorePhase(s, o);
        MoveBalance(s.objs[o], s'.objs[o], c.kind, i, Hand(t), s.now);
        TicketTime(s, o, c.kind, i);
        PutCounter(Ctr(s, o, c.kind), Ctr(s', o, c.kind), o, c.kind, i, Hand(t), s, s');
        assert Put(s, s', o, c.kind, i, Hand(t));
        CellsChange(s, s', o, c.kind, i, Hand(t), c);
        PutCore(s, s', o, c.kind, i, Hand(t));
    }
  }

  lemma TicketTime(s: State, o: Obj, k: Kind, i: Ticket)
    requires Core(s) && HasTicket(s, o, k, i)
    ensures i < s.now && (Ctr(s, o, k).tok[i].Defer? ==> i < Ctr(s, o, k).tok[i].at < s.now)
  {
    CoreCounter(s, o, k);
    assert PlaceOk(Ctr(s, o, k).tok[i], i, o, k, s.cells, |s.ops|, s.now);
  }

  lemma CellInCore(s: State, c: CellId, o: Obj, i: Ticket)
    requires Core(s) && c in s.cells && s.cells[c] == Null && HasOwned(s, o, c.kind, i) && Unpinned(s, o, c.kind, i)
    ensures Core(CellIn(s, c, o, i))
  {
    hide Slots, Passes, Links, Objects, TicketsOk, DebtsOk, LastOk, PhaseOk, Unpinned;
    var s' := CellIn(s, c, o, i);
    CoreCounter(s, o, c.kind);
    CorePhase(s, o);
    MoveBalance(s.objs[o], s'.objs[o], c.kind, i, InCell(c), s.now);
    TicketTime(s, o, c.kind, i);
    PutCounter(Ctr(s, o, c.kind), Ctr(s', o, c.kind), o, c.kind, i, InCell(c), s, s');
    assert Put(s, s', o, c.kind, i, InCell(c));
    CellsChange(s, s', o, c.kind, i, InCell(c), c);
    PutCore(s, s', o, c.kind, i, InCell(c));
  }

  /** What a thread took out of a cell goes to its deferred list; the count is at least one as asserted. */
  lemma RetireCore(s: State, o: Obj, k: Kind, i: Ticket, t: Tid)
    requires Core(s) && HasTicket(s, o, k, i) && Ctr(s, o, k).tok[i] == Hand(t) && t < |s.ops|
    ensures Core(Retire(s, o, k, i, t))
  {
    hide Slots, Passes, Links, Objects, Cells, TicketsOk, DebtsOk, LastOk, PhaseOk;
    var s' := Retire(s, o, k, i, t);
    StrongCount(s, o);
    WeakCount(s, o);
    CoreCounter(s, o, k);
    CorePhase(s, o);
    MoveBalance(s.objs[o], s'.objs[o], k, i, Defer(t, s.now), s.now);
    TicketTime(s, o, k, i);
    PutCounter(Ctr(s, o, k), Ctr(s', o, k), o, k, i, Defer(t, s.now), s, s');
    assert Put(s, s', o, k, i, Defer(t, s.now));
    CellsStay(s, s', o, k, i, Defer(t, s.now));
    PutCore(s, s', o, k, i, Defer(t, s.now));
  }

  // ---------------------------------------------------------------- debts

  lemma OweCounter(c: Counter, c': Counter, o: Obj, k: Kind, x: CellId, t: Tid, j: Slot, s: State, s': State)
    requires TicketsOk(c, o, k, s.cells, |s.ops|, s.now) && DebtsOk(c, o, k, s.slots, s.now) && LastOk(c, s.now)
    requires s'.slots == s.slots && |s'.ops| == |s.ops| && s'.now == s.now + 1
    requires c'.tok == c.tok[s.now := InCell(x)] && c'.deb == c.deb[t := Debt(j, s.now)] && c'.last == c.last
    requires x.kind == k && x in s.cells && s.cells[x] == Null && s'.cells == s.cells[x := Holds(o, s.now)]
    requires j < |s.slots| && j / SLOTS == t && s.slots[j].ann == Some(o) && s.slots[j].at < s.now
    requires Backs(s.slots[j].prot, k, s.now)
    ensures TicketsOk(c', o, k, s'.cells, |s'.ops|, s'.now) && DebtsOk(c', o, k, s'.slots, s'.now) && LastOk(c', s'.now)
  {
    assert s.now !in c.tok;
    forall u | u in c'.deb ensures DebtOk(c', u, o, k, s'.slots, s'.now) {
      if u != t { assert DebtOk(c, u, o, k, s.slots, s.now); }
    }
    forall e | e in c'.tok ensures PlaceOk(c'.tok[e], e, o, k, s'.cells, |s'.ops|, s'.now) {
      if e != s.now { assert PlaceOk(c.tok[e], e, o, k, s.cells, |s.ops|, s.now); }
    }
  }

  lemma OweBalance(r: Object, r': Object, k: Kind, i: Ticket, x: CellId, t: Tid, j: Slot, now: nat)
    requires PhaseOk(r, now) && !r.phase.Free? && !r.phase.Doomed? && i !in CounterOf(r, k).tok
    requires t !in CounterOf(r, k).deb
    requires r' == WithCounter(r, k, CounterOf(r, k).(tok := CounterOf(r, k).tok[i := InCell(x)],
        deb := CounterOf(r, k).deb[t := Debt(j, i)]))
    ensures PhaseOk(r', now + 1)
  {
    assert |CounterOf(r', k).tok| == |CounterOf(r, k).tok| + 1;
    assert |CounterOf(r', k).deb| == |CounterOf(r, k).deb| + 1;
  }

  lemma CellOweCore(s: State, c: CellId, o: Obj, t: Tid, j: Slot)
    requires Core(s) && c in s.cells && s.cells[c] == Null && HasObj(s, o) && OwnSlot(s, t, j)
    requires s.slots[j].ann == Some(o) && Backs(s.slots[j].prot, c.kind, s.now) && !HasDebt(s, o, c.kind, t)
    ensures Core(CellOwe(s, c, o, t, j))
  {
    hide Passes, Links, Objects, TicketsOk, DebtsOk, LastOk, PhaseOk;
    var s' := CellOwe(s, c, o, t, j);
    assert SlotOk(s.slots[j], j, s.objs, s.now);
    ProtectedTicket(s, o, s.slots[j].prot.kind, j);
    StrongCount(s, o);
    WeakCount(s, o);
    CoreCounter(s, o, c.kind);
    CorePhase(s, o);
    FreshTicket(s, o, c.kind);
    OweBalance(s.objs[o], s'.objs[o], c.kind, s.now, c, t, j, s.now);
    OweCounter(Ctr(s, o, c.kind), Ctr(s', o, c.kind), o, c.kind, c, t, j, s, s');
    OweRest(s, s', o, c);
  }

  lemma OweRest(s: State, s': State, o: Obj, c: CellId)
    requires Core(s) && c in s.cells && s.cells[c] == Null && s'.cells == s.cells[c := Holds(o, s.now)]
    requires Put(s, s', o, c.kind, s.now, InCell(c))
    requires s.now !in CounterOf(s.objs[o], c.kind).tok
    requires CounterOk(s', o, c.kind) && PhaseOk(s'.objs[o], s'.now)
    ensures Core(s')
  {
    hide Slots, Passes, Links, Objects, CounterOk, PhaseOk;
    CellsChange(s, s', o, c.kind, s.now, InCell(c), c);
    PutCore(s, s', o, c.kind, s.now, InCell(c));
  }

  /** The owed increment: the debtor's announcement has kept the count positive until now. */
  lemma PayCore(s: State, o: Obj, k: Kind, t: Tid)
    requires Core(s) && HasDebt(s, o, k, t)
    ensures Core(Pay(s, o, k, t))
  {
    hide Slots, Passes, Links, Objects, Cells, TicketsOk, DebtsOk, LastOk, PhaseOk;
    var s' := Pay(s, o, k, t);
    DebtorHasCount(s, o, k, t);
    CoreCounter(s, o, k);
    CorePhase(s, o);
    PayCounter(Ctr(s, o, k), Ctr(s', o, k), o, k, t, s, s');
    PayBalance(s.objs[o], s'.objs[o], k, t, s.now);
    TouchObjects(s, s', o, k);
    SameTickets(s, s', o, k);
  }

  lemma DebtorHasCount(s: State, o: Obj, k: Kind, t: Tid)
    requires Core(s) && HasDebt(s, o, k, t)
    ensures !s.objs[o].phase.Free? && !s.objs[o].phase.Doomed? && (k.Strong? ==> s.objs[o].phase.Live?)
    ensures Ctr(s, o, k).cnt >= 1
  {
    hide Slots, Passes, Links, Objects, Cells, PhaseOk;
    CoreCounter(s, o, k);
    assert DebtOk(Ctr(s, o, k), t, o, k, s.slots, s.now);
    var j := Ctr(s, o, k).deb[t].slot;
    ProtectedTicket(s, o, s.slots[j].prot.kind, j);
    StrongCount(s, o);
    WeakCount(s, o);
  }

  lemma PayCounter(c: Counter, c': Counter, o: Obj, k: Kind, t: Tid, s: State, s': State)
    requires TicketsOk(c, o, k, s.cells, |s.ops|, s.now) && DebtsOk(c, o, k, s.slots, s.now) && LastOk(c, s.now)
    requires s'.cells == s.cells && s'.slots == s.slots && |s'.ops| == |s.ops| && s'.now >= s.now
    requires c'.tok == c.tok && c'.deb == c.deb - {t} && c'.last == c.last
    ensures TicketsOk(c', o, k, s'.cells, |s'.ops|, s'.now) && DebtsOk(c', o, k, s'.slots, s'.now) && LastOk(c', s'.now)
  {
    forall u | u in c'.deb ensures DebtOk(c', u, o, k, s'.slots, s'.now) { assert DebtOk(c, u, o, k, s.slots, s.now); }
  }

  lemma PayBalance(r: Object, r': Object, k: Kind, t: Tid, now: nat)
    requires PhaseOk(r, now) && !r.phase.Free? && !r.phase.Doomed? && (k.Strong? ==> r.phase.Live?)
    requires t in CounterOf(r, k).deb
    requires r' == WithCounter(r, k, CounterOf(r, k).(cnt := CounterOf(r, k).cnt + 1, deb := CounterOf(r, k).deb - {t}))
    ensures PhaseOk(r', now + 1)
  {
    assert CounterOf(r', k).deb.Keys == CounterOf(r, k).deb.Keys - {t};
    assert |CounterOf(r', k).deb| == |CounterOf(r, k).deb| - 1;
  }

  /** Slots, cells and passes do not care about counts and debts. */
  lemma SameTickets(s: State, s': State, o: Obj, k: Kind)
    requires Slots(s) && Cells(s) && Passes(s) && Links(s) && Touch(s, s', o, k) && s'.cells == s.cells
    requires CounterOf(s'.objs[o], k).tok == CounterOf(s.objs[o], k).tok
    requires CounterOf(s'.objs[o], k).last == CounterOf(s.objs[o], k).last
    ensures Slots(s') && Cells(s') && Passes(s') && Links(s')
  {
    forall j | 0 <= j < |s'.slots| ensures SlotOk(s'.slots[j], j, s'.objs, s'.now) {
      hide Cells, Passes, Links;
      assert SlotOk(s.slots[j], j, s.objs, s.now);
    }
    forall c | c in s'.cells ensures CellOk(c, s'.cells[c], s'.objs) {
      hide Slots, Passes, Links;
      assert CellOk(c, s.cells[c], s.objs);
    }
    forall t | 0 <= t < |s'.passes| ensures PassOk(s'.passes[t], t, s'.slots, s'.objs, s'.now) {
      hide Cells, Slots, Links, ScanOk, TableOk;
      assert PassOk(s.passes[t], t, s.slots, s.objs, s.now);
    }
    SameLinks(s, s', o, k);
  }

  // ---------------------------------------------------------------- a reference goes away

  lemma LossBalance(r: Object, r': Object, k: Kind, i: Ticket, last: Last, now: nat)
    requires PhaseOk(r, now) && !r.phase.Free? && !r.phase.Doomed? && (k.Strong? ==> r.phase.Live?)
    requires i in CounterOf(r, k).tok && CounterOf(r, k).cnt >= 1
    requires r' == WithCounter(r, k, CounterOf(r, k).(cnt := CounterOf(r, k).cnt - 1, tok := CounterOf(r, k).tok - {i},
        last := last))
    ensures PhaseOk(r', now + 1)
  {
    assert CounterOf(r', k).tok.Keys == CounterOf(r, k).tok.Keys - {i};
    assert |CounterOf(r', k).tok| == |CounterOf(r, k).tok| - 1;
  }

  /** Whoever holds a reference finds the count positive. */
  lemma HolderHasCount(s: State, o: Obj, k: Kind, i: Ticket)
    requires Core(s) && HasTicket(s, o, k, i)
    ensures !s.objs[o].phase.Free? && !s.objs[o].phase.Doomed? && (k.Strong? ==> s.objs[o].phase.Live?)
    ensures Ctr(s, o, k).cnt >= 1
  {
    hide Slots, Passes, Links, Objects, Cells;
    StrongCount(s, o);
    WeakCount(s, o);
  }

  /** An owned, unpinned reference is dropped. */
  ghost predicate Cut(s: State, s': State, o: Obj, k: Kind, i: Ticket) {
    && Touch(s, s', o, k) && s'.cells == s.cells
    && HasOwned(s, o, k, i) && Unpinned(s, o, k, i)
    && CounterOf(s'.objs[o], k).tok == CounterOf(s.objs[o], k).tok - {i}
    && CounterOf(s'.objs[o], k).last == CounterOf(s.objs[o], k).last
    && CounterOf(s'.objs[o], k).deb == CounterOf(s.objs[o], k).deb
  }

  lemma CutCounter(c: Counter, c': Counter, o: Obj, k: Kind, i: Ticket, s: State, s': State)
    requires TicketsOk(c, o, k, s.cells, |s.ops|, s.now) && DebtsOk(c, o, k, s.slots, s.now) && LastOk(c, s.now)
    requires s'.cells == s.cells && s'.slots == s.slots && |s'.ops| == |s.ops| && s'.now >= s.now
    requires i in c.tok && c.tok[i] == Owned && c'.tok == c.tok - {i} && c'.deb == c.deb && c'.last == c.last
    ensures TicketsOk(c', o, k, s'.cells, |s'.ops|, s'.now) && DebtsOk(c', o, k, s'.slots, s'.now) && LastOk(c', s'.now)
  {
    forall u | u in c'.deb ensures DebtOk(c', u, o, k, s'.slots, s'.now) { assert DebtOk(c, u, o, k, s.slots, s.now); }
    forall e | e in c'.tok ensures PlaceOk(c'.tok[e], e, o, k, s'.cells, |s'.ops|, s'.now) {
      assert PlaceOk(c.tok[e], e, o, k, s.cells, |s.ops|, s.now);
    }
  }

  lemma CutSlots(s: State, s': State, o: Obj, k: Kind, i: Ticket)
    requires Slots(s) && Cut(s, s', o, k, i)
    ensures Slots(s')
  {
    forall j | 0 <= j < |s'.slots| ensures SlotOk(s'.slots[j], j, s'.objs, s'.now) {
      assert SlotOk(s.slots[j], j, s.objs, s.now);
    }
  }

  lemma CutCells(s: State, s': State, o: Obj, k: Kind, i: Ticket)
    requires Cells(s) && Cut(s, s', o, k, i)
    ensures Cells(s')
  {
    forall c | c in s'.cells ensures CellOk(c, s'.cells[c], s'.objs) { assert CellOk(c, s.cells[c], s.objs); }
  }

  lemma CutPasses(s: State, s': State, o: Obj, k: Kind, i: Ticket)
    requires Passes(s) && Cut(s, s', o, k, i)
    ensures Passes(s')
  {
    forall t | 0 <= t < |s'.passes| ensures PassOk(s'.passes[t], t, s'.slots, s'.objs, s'.now) {
      hide ScanOk, TableOk;
      var q := s.passes[t];
      assert PassOk(q, t, s.slots, s.objs, s.now);
      if q.Pass? {
        forall key, e | e in KeptOf(q, key) ensures KeptOk(t, q.start, key, e, s'.objs) {
          assert KeptOk(t, q.start, key, e, s.objs);
        }
      }
    }
  }

  lemma DropCore(s: State, o: Obj, k: Kind, i: Ticket)
    requires Core(s) && HasOwned(s, o, k, i) && Unpinned(s, o, k, i)
    ensures Core(Release(s, o, k, i))
  {
    hide Slots, Passes, Links, Objects, Cells, TicketsOk, DebtsOk, LastOk, PhaseOk, Unpinned;
    var s' := Release(s, o, k, i);
    HolderHasCount(s, o, k, i);
    CoreCounter(s, o, k);
    CorePhase(s, o);
    CutCounter(Ctr(s, o, k), Ctr(s', o, k), o, k, i, s, s');
    LossBalance(s.objs[o], s'.objs[o], k, i, Ctr(s, o, k).last, s.now);
    TouchObjects(s, s', o, k);
    CutSlots(s, s', o, k, i);
    CutCells(s, s', o, k, i);
    CutPasses(s, s', o, k, i);
    SameLinks(s, s', o, k);
  }
}
