/** Each primitive update of the hazard-pointer machine keeps the core invariant. */
module HpUpdates {
  import opened HpModel
  import opened HpInvariant

  // ---------------------------------------------------------------- time passes

  lemma CounterLater(c: Counter, o: Obj, k: Kind, s: State, s': State)
    requires s'.cells == s.cells && s'.slots == s.slots && |s'.ops| == |s.ops| && s'.now >= s.now
    requires TicketsOk(c, o, k, s.cells, |s.ops|, s.now) && DebtsOk(c, o, k, s.slots, s.now) && LastOk(c, s.now)
    ensures TicketsOk(c, o, k, s'.cells, |s'.ops|, s'.now) && DebtsOk(c, o, k, s'.slots, s'.now) && LastOk(c, s'.now)
  {
    forall t | t in c.deb ensures DebtOk(c, t, o, k, s'.slots, s'.now) { assert DebtOk(c, t, o, k, s.slots, s.now); }
  }

  lemma ObjectLater(r: Object, o: Obj, s: State, s': State)
    requires s'.cells == s.cells && s'.slots == s.slots && |s'.ops| == |s.ops| && s'.now >= s.now
    requires ObjectOk(r, o, s)
    ensures ObjectOk(r, o, s')
  {
    CounterLater(r.strong, o, Strong, s, s');
    CounterLater(r.weak, o, Weak, s, s');
  }

  lemma TickCore(s: State)
    requires Core(s)
    ensures Core(Tick(s))
  {
    TickObjects(s);
    TickRest(s);
  }

  lemma TickObjects(s: State)
    requires Objects(s)
    ensures Objects(Tick(s))
  {
    forall o | o in s.objs ensures ObjectOk(s.objs[o], o, Tick(s)) { hide *; ObjectLater(s.objs[o], o, s, Tick(s)); }
  }

  lemma TickRest(s: State)
    requires Slots(s) && Passes(s) && Links(s)
    ensures Slots(Tick(s)) && Passes(Tick(s)) && Links(Tick(s))
  {
    hide ProtOk, TableOk, KeptOk, ScanOk, LinkOk;
  }

  // ---------------------------------------------------------------- one counter changes

  /** s' is s after some change to counter (o, k), and perhaps to cells. */
  ghost predicate Touch(s: State, s': State, o: Obj, k: Kind) {
    && s'.slots == s.slots && s'.passes == s.passes && |s'.ops| == |s.ops| && s'.now == s.now + 1 && !s'.bad
    && o in s.objs && o in s'.objs && s'.objs == s.objs[o := s'.objs[o]]
    && s'.objs[o] == WithCounter(s.objs[o], k, CounterOf(s'.objs[o], k))
  }

  /** Cells that hold some other counter's reference are as before. */
  ghost predicate OtherCells(s: State, s': State, o: Obj, k: Kind) {
    forall x :: x in s.cells && s.cells[x].Holds? && !(s.cells[x].o == o && x.kind == k) ==>
      x in s'.cells && s'.cells[x] == s.cells[x]
  }

  /** Counter (o, k) itself is in order. */
  ghost predicate CounterOk(s: State, o: Obj, k: Kind)
    requires o in s.objs
  {
    var c := CounterOf(s.objs[o], k);
    TicketsOk(c, o, k, s.cells, |s.ops|, s.now) && DebtsOk(c, o, k, s.slots, s.now) && LastOk(c, s.now)
  }

  lemma OtherCounter(s: State, s': State, o: Obj, k: Kind, c: Counter, o2: Obj, k2: Kind)
    requires s'.slots == s.slots && |s'.ops| == |s.ops| && s'.now >= s.now && OtherCells(s, s', o, k)
    requires (o2 != o || k2 != k)
    requires TicketsOk(c, o2, k2, s.cells, |s.ops|, s.now) && DebtsOk(c, o2, k2, s.slots, s.now) && LastOk(c, s.now)
    ensures TicketsOk(c, o2, k2, s'.cells, |s'.ops|, s'.now) && DebtsOk(c, o2, k2, s'.slots, s'.now)
    ensures LastOk(c, s'.now)
  {
    CounterLater(c, o2, k2, s, s.(now := s'.now));
  }

  lemma TouchOther(s: State, s': State, o: Obj, k: Kind, o2: Obj)
    requires Touch(s, s', o, k) && OtherCells(s, s', o, k)
    requires o2 in s.objs && o2 != o && ObjectOk(s.objs[o2], o2, s)
    ensures ObjectOk(s'.objs[o2], o2, s')
  {
    hide OtherCells;
    OtherCounter(s, s', o, k, s.objs[o2].strong, o2, Strong);
    OtherCounter(s, s', o, k, s.objs[o2].weak, o2, Weak);
  }

  lemma TouchOwn(s: State, s': State, o: Obj, k: Kind)
    requires Touch(s, s', o, k) && OtherCells(s, s', o, k) && ObjectOk(s.objs[o], o, s)
    requires CounterOk(s', o, k) && PhaseOk(s'.objs[o], s'.now)
    ensures ObjectOk(s'.objs[o], o, s')
  {
    hide OtherCells, TicketsOk, DebtsOk, LastOk, PhaseOk;
    var k2 := if k.Strong? then Weak else Strong;
    OtherCounter(s, s', o, k, CounterOf(s.objs[o], k2), o, k2);
  }

  /** Changing one counter keeps all objects in order if it keeps that counter and its object so. */
  lemma TouchObjects(s: State, s': State, o: Obj, k: Kind)
    requires Objects(s) && Touch(s, s', o, k) && OtherCells(s, s', o, k)
    requires CounterOk(s', o, k) && PhaseOk(s'.objs[o], s'.now)
    ensures Objects(s')
  {
    forall o2 | o2 in s'.objs ensures ObjectOk(s'.objs[o2], o2, s') {
      hide ObjectOk, OtherCells, CounterOk, PhaseOk;
      if o2 != o { TouchOther(s, s', o, k, o2); } else { TouchOwn(s, s', o, k); }
    }
  }

  // ---------------------------------------------------------------- one ticket appears or moves

  /** Ticket i of counter (o, k) was created at, or moved to, place p. */
  ghost predicate Put(s: State, s': State, o: Obj, k: Kind, i: Ticket, p: Place) {
    && Touch(s, s', o, k)
    && var c := CounterOf(s.objs[o], k);
    && var c' := CounterOf(s'.objs[o], k);
    && c'.last == c.last && c'.tok == c.tok[i := p]
    && (i !in c.tok ==> i == s.now)
    && (i in c.tok ==>
          && !c.tok[i].Defer?
          && (if c.tok[i].Owned? then Unpinned(s, o, k, i) else !p.Owned? && (p.Defer? ==> p.at == s.now)))
  }

  lemma PutSlots(s: State, s': State, o: Obj, k: Kind, i: Ticket, p: Place)
    requires Slots(s) && Put(s, s', o, k, i, p)
    ensures Slots(s')
  {
    forall j | 0 <= j < |s'.slots| ensures SlotOk(s'.slots[j], j, s'.objs, s'.now) {
      PutSlot(s, s', o, k, i, p, s.slots[j], j);
    }
  }

  lemma PutSlot(s: State, s': State, o: Obj, k: Kind, i: Ticket, p: Place, x: SlotState, j: Slot)
    requires Put(s, s', o, k, i, p)
    requires j < |s.slots| && x == s.slots[j]
    requires SlotOk(x, j, s.objs, s.now)
    ensures SlotOk(x, j, s'.objs, s'.now)
  {
  }

  lemma PutKept(s: State, s': State, o: Obj, k: Kind, i: Ticket, p: Place, t: Tid, start: nat, key: (Obj, Action),
                e: Ticket)
    requires Put(s, s', o, k, i, p)
    requires KeptOk(t, start, key, e, s.objs)
    ensures KeptOk(t, start, key, e, s'.objs)
  {
  }

  lemma PutPasses(s: State, s': State, o: Obj, k: Kind, i: Ticket, p: Place)
    requires Passes(s) && Put(s, s', o, k, i, p)
    ensures Passes(s')
  {
    forall t | 0 <= t < |s'.passes| ensures PassOk(s'.passes[t], t, s'.slots, s'.objs, s'.now) {
      hide ScanOk, TableOk, KeptOk;
      var q := s.passes[t];
      assert PassOk(q, t, s.slots, s.objs, s.now);
      if q.Pass? {
        forall key, e | e in KeptOf(q, key) ensures KeptOk(t, q.start, key, e, s'.objs) {
          PutKept(s, s', o, k, i, p, t, q.start, key, e);
        }
      }
    }
  }

  lemma SameLinks(s: State, s': State, o: Obj, k: Kind)
    requires Links(s) && Touch(s, s', o, k) && CounterOf(s'.objs[o], k).last == CounterOf(s.objs[o], k).last
    ensures Links(s')
  {
    forall o2, t | o2 in s'.objs && 0 <= t < |s'.passes|
      ensures LinkOk(s'.objs[o2].strong.last, s'.passes[t], t, (o2, DecStrong))
      ensures LinkOk(s'.objs[o2].weak.last, s'.passes[t], t, (o2, DecWeak))
    {
      assert s'.objs[o2].strong.last == s.objs[o2].strong.last && s'.objs[o2].weak.last == s.objs[o2].weak.last;
    }
  }

  /** The counter's own tickets and debts after a Put. */
  lemma PutCounter(c: Counter, c': Counter, o: Obj, k: Kind, i: Ticket, p: Place, s: State, s': State)
    requires TicketsOk(c, o, k, s.cells, |s.ops|, s.now) && DebtsOk(c, o, k, s.slots, s.now) && LastOk(c, s.now)
    requires s'.slots == s.slots && |s'.ops| == |s.ops| && s'.now >= s.now
    requires c'.tok == c.tok[i := p] && c'.deb == c.deb && c'.last == c.last
    requires PlaceOk(p, i, o, k, s'.cells, |s'.ops|, s'.now)
    requires if i in c.tok then !c.tok[i].Defer? && !p.Owned? else i == s.now
    requires forall x, e :: x in s.cells && x.kind == k && s.cells[x] == Holds(o, e) && e != i ==>
        x in s'.cells && s'.cells[x] == s.cells[x]
    ensures TicketsOk(c', o, k, s'.cells, |s'.ops|, s'.now) && DebtsOk(c', o, k, s'.slots, s'.now) && LastOk(c', s'.now)
  {
    forall t | t in c'.deb ensures DebtOk(c', t, o, k, s'.slots, s'.now) { assert DebtOk(c, t, o, k, s.slots, s.now); }
    forall e | e in c'.tok ensures PlaceOk(c'.tok[e], e, o, k, s'.cells, |s'.ops|, s'.now) {
      if e != i { assert PlaceOk(c.tok[e], e, o, k, s.cells, |s.ops|, s.now); }
    }
  }

  /** The rest of the core invariant after a Put. */
  lemma PutCore(s: State, s': State, o: Obj, k: Kind, i: Ticket, p: Place)
    requires Core(s) && Put(s, s', o, k, i, p) && OtherCells(s, s', o, k)
    requires CounterOk(s', o, k) && PhaseOk(s'.objs[o], s'.now) && Cells(s')
    ensures Core(s')
  {
    hide Objects, Cells, Slots, Passes, Links, CounterOk, PhaseOk, OtherCells;
    TouchObjects(s, s', o, k);
    PutSlots(s, s', o, k, i, p);
    PutPasses(s, s', o, k, i, p);
    SameLinks(s, s', o, k);
  }

  // ---------------------------------------------------------------- a new owned reference

  lemma FreshTicket(s: State, o: Obj, k: Kind)
    requires Core(s) && HasObj(s, o)
    ensures s.now !in Ctr(s, o, k).tok
  {
    CoreCounter(s, o, k);
  }

  /** Cells are unaffected by tickets outside cells. */
  lemma CellsStay(s: State, s': State, o: Obj, k: Kind, i: Ticket, p: Place)
    requires Cells(s) && Put(s, s', o, k, i, p) && s'.cells == s.cells
    requires i in CounterOf(s.objs[o], k).tok ==> !CounterOf(s.objs[o], k).tok[i].InCell?
    ensures Cells(s')
  {
    forall c | c in s'.cells ensures CellOk(c, s'.cells[c], s'.objs) { assert CellOk(c, s.cells[c], s.objs); }
  }

  lemma GainBalance(r: Object, r': Object, k: Kind, i: Ticket, now: nat)
    requires PhaseOk(r, now) && !r.phase.Free? && (k.Strong? ==> r.phase.Live?) && !r.phase.Doomed?
    requires i !in CounterOf(r, k).tok
    requires r' == WithCounter(r, k, CounterOf(r, k).(cnt := CounterOf(r, k).cnt
        + 1, tok := CounterOf(r, k).tok[i := Owned]))
    ensures PhaseOk(r', now + 1)
  {
    assert |CounterOf(r', k).tok| == |CounterOf(r, k).tok| + 1;
  }

  /** A new owned reference, counted. */
  lemma GainRef(s: State, s': State, o: Obj, k: Kind)
    requires Core(s) && HasObj(s, o) && !s.objs[o].phase.Free? && !s.objs[o].phase.Doomed?
    requires k.Strong? ==> s.objs[o].phase.Live?
    requires s' == Tick(SetCounter(s, o, k, Ctr(s, o, k).(cnt := Ctr(s, o, k).cnt
        + 1, tok := Ctr(s, o, k).tok[s.now := Owned])))
    ensures Core(s')
  {
    hide Slots, Passes, Links, Cells, Objects, TicketsOk, DebtsOk, LastOk, PhaseOk;
    FreshTicket(s, o, k);
    CoreCounter(s, o, k);
    CorePhase(s, o);
    GainBalance(s.objs[o], s'.objs[o], k, s.now, s.now);
    PutCounter(Ctr(s, o, k), Ctr(s', o, k), o, k, s.now, Owned, s, s');
    assert Put(s, s', o, k, s.now, Owned);
    CellsStay(s, s', o, k, s.now, Owned);
    PutCore(s, s', o, k, s.now, Owned);
  }

  /** AddRef never finds its counter stuck or freed when the caller holds a reference or a protection. */
  lemma AddRefCore(s: State, o: Obj, k: Kind)
    requires Core(s) && HasObj(s, o)
    requires s.objs[o].strong.tok != map[] || (k.Weak? && s.objs[o].weak.tok != map[])
    ensures Core(AddRef(s, o, k))
  {
    hide Slots, Passes, Links, Cells, Objects;
    StrongCount(s, o);
    WeakCount(s, o);
    GainRef(s, AddRef(s, o, k), o, k);
  }

  lemma TryAddStrongCore(s: State, o: Obj)
    requires Core(s) && HasObj(s, o)
    requires s.objs[o].strong.tok != map[] || s.objs[o].weak.tok != map[]
    ensures Core(TryAddStrong(s, o))
  {
    hide Slots, Passes, Links, Cells, Objects;
    StrongCount(s, o);
    WeakCount(s, o);
    if s.objs[o].phase.Live? { GainRef(s, TryAddStrong(s, o), o, Strong); } else { TickCore(s); }
  }
}
