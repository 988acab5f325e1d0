/** What every step of the hazard-pointer machine keeps, and the counting argument behind it. */
module HpInvariant {
  import opened Options
  import opened HpModel

  // ---------------------------------------------------------------- counters

  /** A ticket sits where the table says. */
  ghost predicate PlaceOk(p: Place, i: Ticket, o: Obj, k: Kind, cells: map<CellId, CellVal>, n: nat, now: nat) {
    && i < now
    && match p
       case Owned => true
       case InCell(c) => c in cells && c.kind == k && cells[c] == Holds(o, i)
       case Hand(t) => t < n
       case Defer(t, at) => i < at < now && t < n
  }

  ghost predicate TicketsOk(c: Counter, o: Obj, k: Kind, cells: map<CellId, CellVal>, n: nat, now: nat) {
    forall i :: i in c.tok ==> PlaceOk(c.tok[i], i, o, k, cells, n, now)
  }

  /** What lets a debtor of kind k be sure of the object. */
  ghost predicate Backs(p: Prot, k: Kind, tk: Ticket) {
    match p
    case NoProt => false
    case Pinned(k', _) => k.Strong? ==> k'.Strong?
    case Valid(k', w, _) => (k.Strong? ==> k'.Strong?) && (k' == k ==> w < tk)
  }

  /** Each debtor keeps its own announcement of the object, made before the debt. While no later pass has
      ejected anything, the reference it put in the cell is still there. */
  ghost predicate DebtOk(c: Counter, t: Tid, o: Obj, k: Kind, slots: seq<SlotState>, now: nat)
    requires t in c.deb
  {
    var d := c.deb[t];
    && d.slot < |slots| && d.slot / SLOTS == t
    && var x := slots[d.slot];
    && x.ann == Some(o) && x.at < d.tk < now
    && Backs(x.prot, k, d.tk)
    && (x.at >= c.last.start ==> d.tk in c.tok && !c.tok[d.tk].Owned?)
  }

  ghost predicate DebtsOk(c: Counter, o: Obj, k: Kind, slots: seq<SlotState>, now: nat) {
    && (forall t :: t in c.deb ==> DebtOk(c, t, o, k, slots, now))
    && (forall t, u :: t in c.deb && u in c.deb && t != u ==> c.deb[t].tk != c.deb[u].tk)
  }

  /** The latest ejecting pass kept one reference more than the announcements it saw, if it saw any. */
  ghost predicate LastOk(c: Counter, now: nat) {
    && c.last.start < now
    && (forall i :: i in c.last.kept ==>
         i in c.tok && c.tok[i].Defer? && c.tok[i].t == c.last.z && c.tok[i].at < c.last.start)
    && |c.last.kept| == if c.last.seen == {} then 0 else |c.last.seen| + 1
  }

  // ---------------------------------------------------------------- objects

  /** Conservation with debt: references equal count plus debts (the shared weak reference counts as one). */
  ghost predicate Balanced(r: Object) {
    if r.phase.Free? then
      r.strong.tok == map[] && r.strong.deb == map[] && r.weak.tok == map[] && r.weak.deb == map[]
    else
      && r.strong.cnt + |r.strong.deb| == |r.strong.tok|
      && r.weak.cnt + |r.weak.deb| == |r.weak.tok| + if r.shared.Gone? then 0 else 1
  }

  ghost predicate PhaseOk(r: Object, now: nat) {
    && Balanced(r)
    && match r.phase
       case Free => r.shared.Gone?
       case Live => r.shared.Implicit?
       case Expired => r.shared.Implicit? && r.strong.cnt == 0
       case Claimed(_) => r.shared.Implicit? && r.strong.cnt == 0
       case Delayed => r.shared.Retired? && r.shared.at < now && r.strong.cnt == 0
       case Disposed => r.shared.Gone? && r.strong.cnt == 0
       case Doomed => !r.shared.Retired? && r.strong.cnt == 0 && r.weak.tok == map[] && r.weak.deb == map[]
  }

  ghost predicate ObjectOk(r: Object, o: Obj, s: State) {
    && TicketsOk(r.strong, o, Strong, s.cells, |s.ops|, s.now) && TicketsOk(r.weak, o, Weak, s.cells, |s.ops|, s.now)
    && DebtsOk(r.strong, o, Strong, s.slots, s.now) && DebtsOk(r.weak, o, Weak, s.slots, s.now)
    && LastOk(r.strong, s.now) && LastOk(r.weak, s.now)
    && PhaseOk(r, s.now)
  }

  // ---------------------------------------------------------------- slots and cells

  /** A reference that no pass can drop without noticing an announcement made at time `at`. */
  predicate Lasting(p: Place, at: nat) {
    match p case Owned => false case InCell(_) => true case Hand(_) => true case Defer(_, d) => at < d
  }

  ghost predicate UseOk(r: Object, at: nat, use: Use) {
    match use
    case Unread => true
    case Positive => (r.phase.Live? || r.phase.Expired? || r.phase.Claimed? ||
      r.phase.Delayed?) && (r.shared.Retired? ==> at < r.shared.at)
    case Zero => !r.phase.Live? && !r.phase.Free?
  }

  ghost predicate ProtOk(p: Prot, at: nat, r: Object) {
    match p
    case NoProt => true
    case Pinned(k, i) => i in CounterOf(r, k).tok && CounterOf(r, k).tok[i] == Owned
    case Valid(k, w, use) =>
      var c := CounterOf(r, k);
      && (at >= c.last.start ==> w in c.tok && Lasting(c.tok[w], at))
      && UseOk(r, at, use)
  }

  ghost predicate SlotOk(x: SlotState, j: Slot, objs: map<Obj, Object>, now: nat) {
    match x.ann
    case None => x.prot == NoProt
    case Some(o) =>
      && o in objs && x.at < now
      && (x.at < objs[o].strong.last.start ==> j in objs[o].strong.last.seen)
      && (x.at < objs[o].weak.last.start ==> j in objs[o].weak.last.seen)
      && ProtOk(x.prot, x.at, objs[o])
      && (x.prot.Valid? ==> x.prot.w < now)
  }

  ghost predicate CellOk(c: CellId, v: CellVal, objs: map<Obj, Object>) {
    v.Holds? ==>
        v.o in objs && v.i in CounterOf(objs[v.o], c.kind).tok && CounterOf(objs[v.o], c.kind).tok[v.i] == InCell(c)
  }

  // ---------------------------------------------------------------- passes

  /** The scan table: a+1 units of protection after a >= 1 announcements, less what was spent. */
  ghost predicate TableOk(p: Pass, key: (Obj, Action))
    requires p.Pass?
  {
    var a := |SeenOf(p.seen, key.0)|;
    var q := |KeptOf(p, key)|;
    if a == 0 then key !in p.announced && q == 0
    else if key in p.announced then p.announced[key] >= 1 && p.announced[key] + q == a + 1
    else q == a + 1
  }

  /** Entry i, kept under this key, is one of thread t's deferred entries from before the pass. */
  ghost predicate KeptOk(t: Tid, start: nat, key: (Obj, Action), i: Ticket, objs: map<Obj, Object>) {
    && key.0 in objs
    && var r := objs[key.0];
    match key.1
    case DecStrong => i in r.strong.tok && r.strong.tok[i].Defer? && r.strong.tok[i].t == t &&
      r.strong.tok[i].at < start
    case DecWeak => i in r.weak.tok && r.weak.tok[i].Defer? && r.weak.tok[i].t == t && r.weak.tok[i].at < start
    case Dispose => r.shared == Retired(t, i)
  }

  ghost predicate ScanOk(p: Pass, slots: seq<SlotState>)
    requires p.Pass?
  {
    && p.next <= |slots|
    && (forall j :: j in p.seen ==> j < p.next)
    && (forall j :: 0 <= j < p.next && slots[j].ann.Some? && slots[j].at < p.start ==>
      j in p.seen && p.seen[j] == slots[j].ann.value)
    && (p.next < |slots| ==> p.kept == map[])
  }

  ghost predicate PassOk(p: Pass, t: Tid, slots: seq<SlotState>, objs: map<Obj, Object>, now: nat) {
    p.Pass? ==>
      && p.start < now
      && ScanOk(p, slots)
      && (forall key :: TableOk(p, key))
      && (forall key, i :: i in KeptOf(p, key) ==> KeptOk(t, p.start, key, i, objs))
  }

  /** A thread's own later pass is the only one that can eject what its earlier pass kept. */
  ghost predicate LinkOk(l: Last, p: Pass, t: Tid, key: (Obj, Action)) {
    l.z == t && p.Pass? ==> l.start <= p.start && (l.start == p.start ==> l.kept <= KeptOf(p, key))
  }

  // ---------------------------------------------------------------- the core invariant

  ghost predicate Shape(s: State) {
    |s.slots| == SLOTS * |s.ops| && |s.passes| == |s.ops| && s.now >= 1 && !s.bad
  }

  ghost predicate Objects(s: State) { forall o :: o in s.objs ==> ObjectOk(s.objs[o], o, s) }
  ghost predicate Cells(s: State) { forall c :: c in s.cells ==> CellOk(c, s.cells[c], s.objs) }
  ghost predicate Slots(s: State) { forall j :: 0 <= j < |s.slots| ==> SlotOk(s.slots[j], j, s.objs, s.now) }
  ghost predicate Passes(s: State) { forall t :: 0 <= t < |s.passes| ==> PassOk(s.passes[t], t, s.slots, s.objs,
                                                                                s.now) }
  ghost predicate Links(s: State) {
    forall o, t :: o in s.objs && 0 <= t < |s.passes| ==>
      LinkOk(s.objs[o].strong.last, s.passes[t], t, (o, DecStrong))
          && LinkOk(s.objs[o].weak.last, s.passes[t], t, (o, DecWeak))
  }

  ghost predicate Core(s: State) {
    Shape(s) && Objects(s) && Cells(s) && Slots(s) && Passes(s) && Links(s)
  }

  // ---------------------------------------------------------------- counting

  lemma {:induction false} InjectiveImage<A>(dom: set<A>, f: map<A, nat>, im: set<nat>)
    requires dom <= f.Keys
    requires forall a :: a in dom ==> f[a] in im
    requires forall a, b :: a in dom && b in dom && a != b ==> f[a] != f[b]
    ensures |dom| <= |im|
  {
    if dom != {} {
      var a :| a in dom;
      InjectiveImage(dom - {a}, f, im - {f[a]});
    }
  }

  lemma SubsetCard<A>(a: set<A>, b: set<A>)
    requires a <= b
    ensures |a| <= |b|
  {
    assert b == a + (b - a);
  }

  /** What the counting needs to know about one counter: each debt has its own slot; if that announcement is
      newer than the latest ejecting pass the debt's own reference is still there, else that pass saw it. */
  ghost predicate Accountable(c: Counter, slots: seq<SlotState>) {
    && (forall t :: t in c.deb ==>
          && c.deb[t].slot < |slots| && c.deb[t].slot / SLOTS == t
          && slots[c.deb[t].slot].at < c.deb[t].tk
          && if slots[c.deb[t].slot].at >= c.last.start then c.deb[t].tk in c.tok else c.deb[t].slot in c.last.seen)
    && (forall t, u :: t in c.deb && u in c.deb && t != u ==> c.deb[t].tk != c.deb[u].tk)
    && (forall i :: i in c.last.kept ==> i in c.tok && i < c.last.start)
    && |c.last.kept| == if c.last.seen == {} then 0 else |c.last.seen| + 1
  }

  ghost function NewDebts(c: Counter, slots: seq<SlotState>): set<Tid>
    requires Accountable(c, slots)
  {
    set t | t in c.deb && slots[c.deb[t].slot].at >= c.last.start
  }

  ghost function NewTickets(c: Counter, slots: seq<SlotState>): set<Ticket>
    requires Accountable(c, slots)
  {
    set t | t in NewDebts(c, slots) :: c.deb[t].tk
  }

  lemma NewTicketsCount(c: Counter, slots: seq<SlotState>)
    requires Accountable(c, slots)
    ensures |NewTickets(c, slots)| >= |NewDebts(c, slots)|
    ensures NewTickets(c, slots) <= c.tok.Keys
    ensures NewTickets(c, slots) !! c.last.kept
    ensures NewDebts(c, slots) <= c.deb.Keys
    ensures c.last.kept <= c.tok.Keys && |c.last.kept| == if c.last.seen == {} then 0 else |c.last.seen| + 1
  {
    var f := map t | t in c.deb :: c.deb[t].tk;
    InjectiveImage(NewDebts(c, slots), f, NewTickets(c, slots));
  }

  lemma OldDebtsCount(c: Counter, slots: seq<SlotState>)
    requires Accountable(c, slots)
    ensures |c.deb.Keys - NewDebts(c, slots)| <= |c.last.seen|
  {
    var rest := c.deb.Keys - NewDebts(c, slots);
    var f := map t | t in c.deb :: c.deb[t].slot;
    InjectiveImage(rest, f, c.last.seen);
  }

  /** References never fall below debts, and exceed them if the latest ejecting pass saw an announcement. */
  lemma Covered(c: Counter, slots: seq<SlotState>)
    requires Accountable(c, slots)
    ensures |c.deb| <= |c.tok|
    ensures c.last.seen != {} ==> |c.deb| < |c.tok|
  {
    hide Accountable, NewDebts, NewTickets;
    NewTicketsCount(c, slots);
    OldDebtsCount(c, slots);
    assert c.deb.Keys == NewDebts(c, slots) + (c.deb.Keys - NewDebts(c, slots));
    SubsetCard(NewTickets(c, slots) + c.last.kept, c.tok.Keys);
  }

  /** References exceed debts as soon as one reference is no debtor's own. */
  lemma Exceeded(c: Counter, slots: seq<SlotState>, i: Ticket)
    requires Accountable(c, slots)
    requires i in c.tok && i !in NewTickets(c, slots)
    ensures |c.deb| < |c.tok|
  {
    hide Accountable, NewDebts, NewTickets;
    Covered(c, slots);
    if c.last.seen == {} {
      NewTicketsCount(c, slots);
      OldDebtsCount(c, slots);
      assert c.deb.Keys == NewDebts(c, slots) + (c.deb.Keys - NewDebts(c, slots));
      SubsetCard(NewTickets(c, slots) + {i}, c.tok.Keys);
    }
  }

  /** The debt with the smallest ticket. */
  lemma {:induction false} FirstDebt(c: Counter, ts: set<Tid>) returns (t: Tid)
    requires ts != {} && ts <= c.deb.Keys
    ensures t in ts && forall u :: u in ts ==> c.deb[t].tk <= c.deb[u].tk
  {
    var x :| x in ts;
    if ts == {x} {
      t := x;
    } else {
      t := FirstDebt(c, ts - {x});
      if c.deb[x].tk < c.deb[t].tk { t := x; }
    }
  }

  /** If the earliest debtor has a backing reference older than its debt, references exceed debts. */
  lemma BackedCounter(c: Counter, slots: seq<SlotState>)
    requires Accountable(c, slots)
    requires c.tok != map[]
    requires forall t :: t in c.deb && slots[c.deb[t].slot].at >= c.last.start ==>
               exists w :: w in c.tok && (w < c.deb[t].tk || w !in NewTickets(c, slots))
    ensures |c.deb| < |c.tok|
  {
    hide Accountable, NewTickets, NewDebts;
    Covered(c, slots);
    if c.last.seen == {} {
      if c.deb == map[] {
        assert c.tok.Keys != {};
      } else {
        var t := FirstNewDebt(c, slots);
        var w :| w in c.tok && (w < c.deb[t].tk || w !in NewTickets(c, slots));
        BelowFirst(c, slots, c.deb[t].tk);
        Exceeded(c, slots, w);
      }
    }
  }

  /** If the latest ejecting pass saw nothing, all debts are newer than it; here is the first. */
  lemma FirstNewDebt(c: Counter, slots: seq<SlotState>) returns (t: Tid)
    requires Accountable(c, slots) && c.last.seen == {} && c.deb != map[]
    ensures t in c.deb && c.deb[t].slot < |slots| && slots[c.deb[t].slot].at >= c.last.start
    ensures forall u :: u in c.deb ==> c.deb[t].tk <= c.deb[u].tk
  {
    t := FirstDebt(c, c.deb.Keys);
  }

  lemma BelowFirst(c: Counter, slots: seq<SlotState>, first: Ticket)
    requires Accountable(c, slots) && forall t :: t in c.deb ==> first <= c.deb[t].tk
    ensures forall w :: w < first ==> w !in NewTickets(c, slots)
  {
    hide Accountable;
  }

  // ---------------------------------------------------------------- what the core invariant says about counts

  ghost predicate HasDebt(s: State, o: Obj, k: Kind, t: Tid) { HasObj(s, o) && t in Ctr(s, o, k).deb }

  lemma CoreCounter(s: State, o: Obj, k: Kind)
    requires Core(s) && HasObj(s, o)
    ensures TicketsOk(Ctr(s, o, k), o, k, s.cells, |s.ops|, s.now)
    ensures DebtsOk(Ctr(s, o, k), o, k, s.slots, s.now)
    ensures LastOk(Ctr(s, o, k), s.now)
  {
    assert ObjectOk(s.objs[o], o, s);
  }

  lemma CorePhase(s: State, o: Obj)
    requires Core(s) && HasObj(s, o)
    ensures PhaseOk(s.objs[o], s.now)
  {
    assert ObjectOk(s.objs[o], o, s);
  }

  lemma CoreAccountable(s: State, o: Obj, k: Kind)
    requires Core(s) && HasObj(s, o)
    ensures Accountable(Ctr(s, o, k), s.slots)
  {
    var c := Ctr(s, o, k);
    CoreCounter(s, o, k);
    forall i | i in c.last.kept
      ensures i < c.last.start
    {
      assert PlaceOk(c.tok[i], i, o, k, s.cells, |s.ops|, s.now);
    }
    forall t | t in c.deb
      ensures c.deb[t].slot < |s.slots| && c.deb[t].slot / SLOTS == t
      ensures s.slots[c.deb[t].slot].at < c.deb[t].tk
      ensures if s.slots[c.deb[t].slot].at >= c.last.start then c.deb[t].tk in c.tok else c.deb[t].slot in c.last.seen
    {
      assert DebtOk(c, t, o, k, s.slots, s.now);
      var j := c.deb[t].slot;
      assert SlotOk(s.slots[j], j, s.objs, s.now);
    }
  }

  ghost predicate Protects(x: SlotState, o: Obj, k: Kind) {
    x.ann == Some(o) && !x.prot.NoProt? && x.prot.kind == k
  }

  /** Every debt of this counter is backed by a protection of the same kind. */
  ghost predicate Native(s: State, o: Obj, k: Kind)
    requires HasObj(s, o)
  {
    forall t :: t in Ctr(s, o, k).deb ==>
        Ctr(s, o, k).deb[t].slot < |s.slots| && Protects(s.slots[Ctr(s, o, k).deb[t].slot], o, k)
  }

  lemma StrongIsNative(s: State, o: Obj)
    requires Core(s) && HasObj(s, o)
    ensures Native(s, o, Strong)
  {
    CoreCounter(s, o, Strong);
    var c := s.objs[o].strong;
    forall t | t in c.deb ensures c.deb[t].slot < |s.slots| && Protects(s.slots[c.deb[t].slot], o, Strong) {
      assert DebtOk(c, t, o, Strong, s.slots, s.now);
    }
  }

  /** A protection of kind k keeps a reference of kind k alive. */
  lemma ProtectedTicket(s: State, o: Obj, k: Kind, j: Slot)
    requires Core(s) && HasObj(s, o) && j < |s.slots| && Protects(s.slots[j], o, k)
    ensures Ctr(s, o, k).tok != map[]
  {
    var c := Ctr(s, o, k);
    assert SlotOk(s.slots[j], j, s.objs, s.now);
    CoreCounter(s, o, k);
    if s.slots[j].prot.Valid? && s.slots[j].at < c.last.start {
      assert j in c.last.seen;
      assert |c.last.kept| > 0;
      var i :| i in c.last.kept;
      assert i in c.tok;
    }
  }

  /** A native debtor is backed by a reference that no debtor put there, or that is older than its debt. */
  lemma BackedDebt(s: State, o: Obj, k: Kind, t: Tid) returns (w: Ticket)
    requires Core(s) && HasObj(s, o) && Native(s, o, k) && HasDebt(s, o, k, t)
    requires Accountable(Ctr(s, o, k), s.slots)
    requires s.slots[Ctr(s, o, k).deb[t].slot].at >= Ctr(s, o, k).last.start
    ensures w in Ctr(s, o, k).tok && (w < Ctr(s, o, k).deb[t].tk || w !in NewTickets(Ctr(s, o, k), s.slots))
  {
    CoreCounter(s, o, k);
    assert DebtOk(Ctr(s, o, k), t, o, k, s.slots, s.now);
    var j := Ctr(s, o, k).deb[t].slot;
    assert SlotOk(s.slots[j], j, s.objs, s.now);
    match s.slots[j].prot {
      case Valid(_, x, _) => w := x;
      case Pinned(_, i) => w := i; PinIsNobodysDebt(s, o, k, i);
    }
  }

  lemma PinIsNobodysDebt(s: State, o: Obj, k: Kind, i: Ticket)
    requires Core(s) && HasOwned(s, o, k, i)
    requires Accountable(Ctr(s, o, k), s.slots)
    ensures i !in NewTickets(Ctr(s, o, k), s.slots)
  {
    var c := Ctr(s, o, k);
    CoreCounter(s, o, k);
    forall t | t in NewDebts(c, s.slots)
      ensures c.deb[t].tk != i
    {
      assert DebtOk(c, t, o, k, s.slots, s.now);
    }
  }

  /** With native debts only, a counter with any reference at all has more references than debts. */
  lemma Surplus(s: State, o: Obj, k: Kind)
    requires Core(s) && HasObj(s, o) && Native(s, o, k)
    requires Ctr(s, o, k).tok != map[]
    ensures |Ctr(s, o, k).deb| < |Ctr(s, o, k).tok|
  {
    hide Objects, Cells, Slots, Passes, Links, NewTickets;
    var c := Ctr(s, o, k);
    CoreAccountable(s, o, k);
    forall t | t in c.deb && s.slots[c.deb[t].slot].at >= c.last.start
      ensures exists w :: w in c.tok && (w < c.deb[t].tk || w !in NewTickets(c, s.slots))
    {
      var w := BackedDebt(s, o, k, t);
    }
    BackedCounter(c, s.slots);
  }

  /** The strong count is positive exactly when some strong reference exists; then the object is live. */
  lemma StrongCount(s: State, o: Obj)
    requires Core(s) && HasObj(s, o)
    ensures s.objs[o].strong.tok != map[] ==> s.objs[o].strong.cnt >= 1 && s.objs[o].phase.Live?
    ensures s.objs[o].strong.tok == map[] ==> s.objs[o].strong.deb == map[]
  {
    hide Objects, Cells, Slots, Passes, Links, Native, Accountable;
    CorePhase(s, o);
    StrongIsNative(s, o);
    if s.objs[o].strong.tok != map[] {
      Surplus(s, o, Strong);
    } else {
      CoreAccountable(s, o, Strong);
      Covered(s.objs[o].strong, s.slots);
    }
  }

  /** Without strong references every weak debt is backed by a weak protection. */
  lemma ExpiredIsNative(s: State, o: Obj)
    requires Core(s) && HasObj(s, o) && s.objs[o].strong.tok == map[]
    ensures Native(s, o, Weak)
  {
    CoreCounter(s, o, Weak);
    var c := s.objs[o].weak;
    forall t | t in c.deb ensures c.deb[t].slot < |s.slots| && Protects(s.slots[c.deb[t].slot], o, Weak) {
      assert DebtOk(c, t, o, Weak, s.slots, s.now);
      if s.slots[c.deb[t].slot].prot.kind == Strong {
        ProtectedTicket(s, o, Strong, c.deb[t].slot);
      }
    }
  }

  /** The weak count is positive while any weak reference exists; and while the object is expired it counts
      at least one beside the shared reference. */
  lemma WeakCount(s: State, o: Obj)
    requires Core(s) && HasObj(s, o)
    ensures s.objs[o].phase.Live? ==> s.objs[o].weak.cnt >= 1
    ensures s.objs[o].weak.tok != map[] ==>
        !s.objs[o].phase.Free? && !s.objs[o].phase.Doomed? && s.objs[o].weak.cnt >= 1
    ensures s.objs[o].weak.tok != map[] && s.objs[o].strong.tok == map[] && !s.objs[o].shared.Gone? ==>
      s.objs[o].weak.cnt >= 2
    ensures s.objs[o].weak.tok == map[] ==> s.objs[o].weak.deb == map[]
  {
    hide Objects, Cells, Slots, Passes, Links, Native, Accountable;
    var r := s.objs[o];
    CorePhase(s, o);
    CoreAccountable(s, o, Weak);
    Covered(r.weak, s.slots);
    if r.strong.tok == map[] {
      ExpiredIsNative(s, o);
      if r.weak.tok != map[] {
        Surplus(s, o, Weak);
      }
    } else {
      StrongCount(s, o);
    }
  }
}
