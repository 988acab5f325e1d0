/** Reclamation passes: scanning the slots, keeping announced entries, ejecting the others. */
module HpPasses {
  import opened Options
  import opened HpModel
  import opened HpInvariant
  import opened HpUpdates
  import opened HpTickets

  // ---------------------------------------------------------------- ejecting a deferred decrement

  /** Thread t's pass, done scanning, drops entry i, which no unit of protection is left for. */
  ghost predicate Ejects(s: State, s': State, t: Tid, o: Obj, k: Kind, i: Ticket) {
    && Touch(s, s', o, k) && s'.cells == s.cells
    && Todo(s, t, o, k, i) && (o, ActionOf(k)) !in s.passes[t].announced
    && var c := CounterOf(s.objs[o], k);
    && var c' := CounterOf(s'.objs[o], k);
    && c'.tok == c.tok - {i} && c'.deb == c.deb && c'.last == NewLast(c.last, t, s.passes[t], o, k)
  }

  /** What the ejecting pass kept is what its scan entitled it to. */
  lemma FullyKept(p: Pass, o: Obj, k: Kind)
    requires p.Pass? && TableOk(p, (o, ActionOf(k))) && (o, ActionOf(k)) !in p.announced
    ensures |KeptOf(p, (o, ActionOf(k)))| == if SeenOf(p.seen, o) == {} then 0 else |SeenOf(p.seen, o)| + 1
  {
  }

  lemma EjectLast(c: Counter, c': Counter, t: Tid, p: Pass, o: Obj, k: Kind, i: Ticket, objs: map<Obj, Object>,
                  now: nat)
    requires LastOk(c, now) && p.Pass? && p.start < now
    requires TableOk(p, (o, ActionOf(k))) && (o, ActionOf(k)) !in p.announced
    requires o in objs && CounterOf(objs[o], k) == c
    requires forall e :: e in KeptOf(p, (o, ActionOf(k))) ==> KeptOk(t, p.start, (o, ActionOf(k)), e, objs)
    requires LinkOk(c.last, p, t, (o, ActionOf(k)))
    requires i in c.tok && c.tok[i].Defer? && c.tok[i].t == t && i !in KeptOf(p, (o, ActionOf(k)))
    requires c'.tok == c.tok - {i} && c'.last == NewLast(c.last, t, p, o, k)
    ensures LastOk(c', now + 1)
  {
    FullyKept(p, o, k);
  }

  lemma EjectDebts(c: Counter, c': Counter, o: Obj, k: Kind, i: Ticket, s: State, s': State, start: nat)
    requires TicketsOk(c, o, k, s.cells, |s.ops|, s.now) && DebtsOk(c, o, k, s.slots, s.now)
    requires s'.cells == s.cells && s'.slots == s.slots && |s'.ops| == |s.ops| && s'.now >= s.now
    requires i in c.tok && c.tok[i].Defer? && c.tok[i].at < start
    requires c'.tok == c.tok - {i} && c'.deb == c.deb && c'.last.start >= start && c'.last.start >= c.last.start
    ensures TicketsOk(c', o, k, s'.cells, |s'.ops|, s'.now) && DebtsOk(c', o, k, s'.slots, s'.now)
  {
    assert PlaceOk(c.tok[i], i, o, k, s.cells, |s.ops|, s.now);
    forall u | u in c'.deb ensures DebtOk(c', u, o, k, s'.slots, s'.now) { assert DebtOk(c, u, o, k, s.slots, s.now); }
    forall e | e in c'.tok ensures PlaceOk(c'.tok[e], e, o, k, s'.cells, |s'.ops|, s'.now) {
      assert PlaceOk(c.tok[e], e, o, k, s.cells, |s.ops|, s.now);
    }
  }

  lemma EjectSlots(s: State, s': State, t: Tid, o: Obj, k: Kind, i: Ticket)
    requires Slots(s) && Ejects(s, s', t, o, k, i) && ScanOk(s.passes[t], s.slots)
    ensures Slots(s')
  {
    forall j | 0 <= j < |s'.slots| ensures SlotOk(s'.slots[j], j, s'.objs, s'.now) {
      assert SlotOk(s.slots[j], j, s.objs, s.now);
    }
  }

  lemma EjectCells(s: State, s': State, t: Tid, o: Obj, k: Kind, i: Ticket)
    requires Cells(s) && Ejects(s, s', t, o, k, i)
    ensures Cells(s')
  {
    forall c | c in s'.cells ensures CellOk(c, s'.cells[c], s'.objs) { assert CellOk(c, s.cells[c], s.objs); }
  }

  lemma EjectKept(s: State, s': State, t: Tid, o: Obj, k: Kind, i: Ticket, u: Tid, start: nat, key: (Obj, Action),
                  e: Ticket)
    requires Ejects(s, s', t, o, k, i) && u < |s.passes| && s.passes[u].Pass? && e in KeptOf(s.passes[u], key)
    requires KeptOk(u, start, key, e, s.objs)
    ensures KeptOk(u, start, key, e, s'.objs)
  {
  }

  lemma EjectPasses(s: State, s': State, t: Tid, o: Obj, k: Kind, i: Ticket)
    requires Passes(s) && Ejects(s, s', t, o, k, i)
    ensures Passes(s')
  {
    forall u | 0 <= u < |s'.passes| ensures PassOk(s'.passes[u], u, s'.slots, s'.objs, s'.now) {
      hide ScanOk, TableOk, KeptOk, Ejects;
      var q := s.passes[u];
      assert PassOk(q, u, s.slots, s.objs, s.now);
      assert s'.passes == s.passes && s'.slots == s.slots && s'.now == s.now + 1 by { EjectFrame(s, s', t, o, k, i); }
      if q.Pass? {
        forall key, e | e in KeptOf(q, key) ensures KeptOk(u, q.start, key, e, s'.objs) {
          EjectKept(s, s', t, o, k, i, u, q.start, key, e);
        }
      }
    }
  }

  lemma EjectFrame(s: State, s': State, t: Tid, o: Obj, k: Kind, i: Ticket)
    requires Ejects(s, s', t, o, k, i)
    ensures s'.passes == s.passes && s'.slots == s.slots && s'.now == s.now + 1
  {
  }

  lemma EjectLinks(s: State, s': State, t: Tid, o: Obj, k: Kind, i: Ticket)
    requires Links(s) && Ejects(s, s', t, o, k, i)
    ensures Links(s')
  {
    forall o2, u | o2 in s'.objs && 0 <= u < |s'.passes|
      ensures LinkOk(s'.objs[o2].strong.last, s'.passes[u], u, (o2, DecStrong))
      ensures LinkOk(s'.objs[o2].weak.last, s'.passes[u], u, (o2, DecWeak))
    {
      assert LinkOk(s.objs[o2].strong.last, s.passes[u], u, (o2, DecStrong))
          && LinkOk(s.objs[o2].weak.last, s.passes[u], u, (o2, DecWeak));
    }
  }

  lemma EjectCounter(s: State, s': State, t: Tid, o: Obj, k: Kind, i: Ticket)
    requires Core(s) && Ejects(s, s', t, o, k, i)
    ensures CounterOk(s', o, k)
  {
    hide Slots, Cells, Objects, ScanOk;
    CoreCounter(s, o, k);
    var p := s.passes[t];
    assert PassOk(p, t, s.slots, s.objs, s.now);
    assert TableOk(p, (o, ActionOf(k)));
    assert LinkOk(Ctr(s, o, k).last, p, t, (o, ActionOf(k)));
    EjectLast(Ctr(s, o, k), Ctr(s', o, k), t, p, o, k, i, s.objs, s.now);
    EjectDebts(Ctr(s, o, k), Ctr(s', o, k), o, k, i, s, s', p.start);
  }

  /** What an eject with a positive count does: one ticket and one count fewer. */
  lemma EjectTakesOne(s: State, t: Tid, o: Obj, k: Kind, i: Ticket)
    requires Todo(s, t, o, k, i) && (o, ActionOf(k)) !in s.passes[t].announced && Shape(s)
    requires !s.objs[o].phase.Free? && Ctr(s, o, k).cnt >= 1
    ensures var s' := EjectCount(s, t, o, k, i);
            var c := Ctr(s, o, k);
            && Ejects(s, s', t, o, k, i) && Shape(s') && HasObj(s', o) && s'.now == s.now + 1
            && s'.objs[o] == WithCounter(s.objs[o], k,
                c.(cnt := c.cnt - 1, tok := c.tok - {i}, last := Ctr(s', o, k).last))
  {
  }

  /** The ejected decrement finds a positive count: it takes one ticket and nothing else. */
  lemma EjectIsLoss(s: State, t: Tid, o: Obj, k: Kind, i: Ticket)
    requires Core(s) && Todo(s, t, o, k, i) && (o, ActionOf(k)) !in s.passes[t].announced
    ensures var s' := EjectCount(s, t, o, k, i);
            Ejects(s, s', t, o, k, i) && Shape(s') && HasObj(s', o) && PhaseOk(s'.objs[o], s'.now)
  {
    hide Core, PhaseOk, Ejects, EjectCount, Shape, Todo, WithCounter;
    TodoHeld(s, t, o, k, i);
    HolderHasCount(s, o, k, i);
    CorePhase(s, o);
    CoreShape(s);
    EjectTakesOne(s, t, o, k, i);
    var s' := EjectCount(s, t, o, k, i);
    LossBalance(s.objs[o], s'.objs[o], k, i, Ctr(s', o, k).last, s.now);
  }

  lemma TodoHeld(s: State, t: Tid, o: Obj, k: Kind, i: Ticket)
    requires Todo(s, t, o, k, i)
    ensures HasTicket(s, o, k, i) && t < |s.passes| && s.passes[t].Pass?
  {
  }

  lemma CoreShape(s: State)
    requires Core(s)
    ensures Shape(s)
  {
  }

  /** Whoever takes one ticket so leaves a count for everyone who still needs it. */
  lemma LossKeepsCore(s: State, s': State, t: Tid, o: Obj, k: Kind, i: Ticket)
    requires Core(s) && Ejects(s, s', t, o, k, i)
    requires Shape(s') && HasObj(s', o) && PhaseOk(s'.objs[o], s'.now)
    ensures Core(s')
  {
    hide Slots, Passes, Links, Objects, Cells, PhaseOk, CounterOk, ScanOk, Todo;
    EjectCounter(s, s', t, o, k, i);
    EjectTouches(s, s', t, o, k, i);
    hide Ejects;
    TouchObjects(s, s', o, k);
    EjectSlots(s, s', t, o, k, i);
    EjectCells(s, s', t, o, k, i);
    EjectPasses(s, s', t, o, k, i);
    EjectLinks(s, s', t, o, k, i);
  }

  lemma EjectTouches(s: State, s': State, t: Tid, o: Obj, k: Kind, i: Ticket)
    requires Passes(s) && Ejects(s, s', t, o, k, i)
    ensures Touch(s, s', o, k) && OtherCells(s, s', o, k) && t < |s.passes| && ScanOk(s.passes[t], s.slots)
  {
    hide ScanOk, Passes;
    ScanComplete(s, t);
  }

  /** The ejected decrement finds a positive count, and leaves one for everyone who still needs it. */
  lemma EjectCore(s: State, t: Tid, o: Obj, k: Kind, i: Ticket)
    requires Core(s) && Todo(s, t, o, k, i) && (o, ActionOf(k)) !in s.passes[t].announced
    ensures Core(EjectCount(s, t, o, k, i))
  {
    hide Core, Shape, PhaseOk, Ejects, EjectCount;
    EjectIsLoss(s, t, o, k, i);
    LossKeepsCore(s, EjectCount(s, t, o, k, i), t, o, k, i);
  }

  lemma ScanComplete(s: State, t: Tid)
    requires Passes(s) && t < |s.passes| && s.passes[t].Pass?
    ensures ScanOk(s.passes[t], s.slots)
  {
    assert PassOk(s.passes[t], t, s.slots, s.objs, s.now);
  }

  // ---------------------------------------------------------------- the pass itself

  /** Only thread t's pass changed. */
  ghost predicate PassOnly(s: State, s': State, t: Tid) {
    && t < |s.passes| && t < |s'.passes| && s' == SetPass(s, t, s'.passes[t])
  }

  lemma PassCore(s: State, s': State, t: Tid)
    requires Core(s) && t < |s.passes| && |s'.passes| == |s.passes| && PassOnly(s, s', t)
    requires PassOk(s'.passes[t], t, s.slots, s.objs, s'.now)
    requires forall o :: o in s.objs ==>
        && LinkOk(s.objs[o].strong.last, s'.passes[t], t, (o, DecStrong))
        && LinkOk(s.objs[o].weak.last, s'.passes[t], t, (o, DecWeak))
    ensures Core(s')
  {
    hide Slots, Cells, Objects, ScanOk, TableOk, KeptOk, LinkOk;
    TickCore(s);
    assert s'.slots == Tick(s).slots && s'.objs == Tick(s).objs && s'.cells == Tick(s).cells &&
      s'.now == Tick(s).now && s'.ops == Tick(s).ops;
    SameObjects(Tick(s), s');
    assert Slots(s') && Cells(s') by { SameSlots(Tick(s), s'); }
    forall u | 0 <= u < |s'.passes| ensures PassOk(s'.passes[u], u, s'.slots, s'.objs, s'.now) {
      if u != t { assert PassOk(Tick(s).passes[u], u, s'.slots, s'.objs, s'.now); }
    }
  }

  lemma SameObjects(s: State, s': State)
    requires Objects(s) && s'.objs == s.objs && s'.cells == s.cells && s'.slots == s.slots && |s'.ops| == |s.ops|
    requires s'.now >= s.now
    ensures Objects(s')
  {
    forall o | o in s'.objs ensures ObjectOk(s'.objs[o], o, s') { hide *; ObjectLater(s.objs[o], o, s, s'); }
  }

  lemma SameSlots(s: State, s': State)
    requires Slots(s) && Cells(s) && s'.objs == s.objs && s'.cells == s.cells && s'.slots == s.slots && s'.now == s.now
    ensures Slots(s') && Cells(s')
  {
  }

  lemma BeginCore(s: State, t: Tid)
    requires Core(s) && t < |s.passes|
    ensures Core(SetPass(s, t, Pass(s.now, 0, map[], map[], map[])))
  {
    hide Slots, Cells, Passes, Links;
    var p := Pass(s.now, 0, map[], map[], map[]);
    forall key ensures TableOk(p, key) { assert SeenOf(p.seen, key.0) == {}; }
    forall o | o in s.objs ensures s.objs[o].strong.last.start < s.now && s.objs[o].weak.last.start < s.now {
      assert ObjectOk(s.objs[o], o, s);
    }
    PassCore(s, SetPass(s, t, p), t);
  }

  lemma EndCore(s: State, t: Tid)
    requires Core(s) && t < |s.passes|
    ensures Core(SetPass(s, t, NoPass))
  {
    hide Slots, Cells, Passes, Links, Objects;
    PassCore(s, SetPass(s, t, NoPass), t);
  }

  /** One announcement adds one unit for each kind of action, two if it is the object's first. */
  lemma CountAnnouncementAt(m: map<(Obj, Action), nat>, o: Obj, key: (Obj, Action))
    ensures var m' := CountAnnouncement(m, o);
            if key.0 != o then (key in m' <==> key in m) && (key in m ==> m'[key] == m[key])
            else key in m' && m'[key] == if key in m then m[key] + 1 else 2
  {
    match key.1 {
      case DecStrong =>
      case DecWeak =>
      case Dispose =>
    }
  }

  lemma ScannedTable(p: Pass, x: Option<Obj>, key: (Obj, Action))
    requires p.Pass? && TableOk(p, key) && p.kept == map[] && p.next !in p.seen
    ensures TableOk(Scanned(p, x), key)
  {
    hide CountAnnouncement;
    match x {
      case None =>
      case Some(o) =>
        CountAnnouncementAt(p.announced, o, key);
        if key.0 == o {
          assert SeenOf(p.seen[p.next := o], o) == SeenOf(p.seen, o) + {p.next};
        } else {
          assert SeenOf(p.seen[p.next := o], key.0) == SeenOf(p.seen, key.0);
        }
    }
  }

  lemma ScanStepOk(p: Pass, slots: seq<SlotState>)
    requires p.Pass? && ScanOk(p, slots) && p.next < |slots|
    ensures ScanOk(Scanned(p, slots[p.next].ann), slots)
  {
  }

  lemma ScanCore(s: State, t: Tid)
    requires Core(s) && t < |s.passes| && s.passes[t].Pass? && s.passes[t].next < |s.slots|
    ensures Core(SetPass(s, t, Scanned(s.passes[t], s.slots[s.passes[t].next].ann)))
  {
    hide Slots, Cells, Objects, TableOk, KeptOk;
    var p := s.passes[t];
    var p' := Scanned(p, s.slots[p.next].ann);
    assert PassOk(p, t, s.slots, s.objs, s.now);
    ScanStepOk(p, s.slots);
    forall key ensures TableOk(p', key) { ScannedTable(p, s.slots[p.next].ann, key); }
    PassCore(s, SetPass(s, t, p'), t);
  }

  lemma KeepTable(p: Pass, key: (Obj, Action), i: Ticket, key2: (Obj, Action))
    requires p.Pass? && key in p.announced && i !in KeptOf(p, key) && TableOk(p, key2)
    ensures TableOk(Keep(p, key, i), key2)
  {
    if key2 == key {
      assert KeptOf(Keep(p, key, i), key) == KeptOf(p, key) + {i};
    } else {
      assert KeptOf(Keep(p, key, i), key2) == KeptOf(p, key2);
    }
  }

  lemma KeepCore(s: State, t: Tid, key: (Obj, Action), i: Ticket)
    requires Core(s) && t < |s.passes| && s.passes[t].Pass? && s.passes[t].next == |s.slots|
    requires key in s.passes[t].announced && i !in KeptOf(s.passes[t], key)
    requires KeptOk(t, s.passes[t].start, key, i, s.objs)
    ensures Core(SetPass(s, t, Keep(s.passes[t], key, i)))
  {
    hide Slots, Cells, Objects, TableOk, KeptOk;
    var p := s.passes[t];
    var p' := Keep(p, key, i);
    assert PassOk(p, t, s.slots, s.objs, s.now);
    forall key2 ensures TableOk(p', key2) { KeepTable(p, key, i, key2); }
    forall key2, e | e in KeptOf(p', key2) ensures KeptOk(t, p'.start, key2, e, s.objs) {
      assert e in KeptOf(p, key2) || (key2 == key && e == i);
    }
    forall o | o in s.objs
      ensures LinkOk(s.objs[o].strong.last, p', t, (o, DecStrong)) && LinkOk(s.objs[o].weak.last, p', t, (o, DecWeak))
    {
      assert LinkOk(s.objs[o].strong.last, p, t, (o, DecStrong)) && LinkOk(s.objs[o].weak.last, p, t, (o, DecWeak));
    }
    PassCore(s, SetPass(s, t, p'), t);
  }

  lemma PassCountCore(s: State, t: Tid, o: Obj, k: Kind, i: Ticket)
    requires Core(s) && Todo(s, t, o, k, i)
    ensures Core(DoPassCount(s, t, o, k, i))
  {
    hide Slots, Cells, Objects, Passes, Links;
    if (o, ActionOf(k)) in s.passes[t].announced {
      KeepCore(s, t, (o, ActionOf(k)), i);
    } else {
      EjectCore(s, t, o, k, i);
    }
  }
}
