/** What each thread's program counter says about its slots, its debt and the reference in its hand. */
module HpThreads {
  import opened Options
  import opened HpModel
  import opened HpInvariant

  // ---------------------------------------------------------------- the thread invariant

  predicate InHand(s: State, o: Obj, k: Kind, i: Ticket, t: Tid) { HasTicket(s, o, k, i) && Ctr(s, o,
                                                                                                k).tok[i] == Hand(t) }

  predicate InDebt(op: Op) { op.CasRetire? || op.CopyInc? }

  /** A thread is in debt exactly in the window between its CAS or exchange and its increment. */
  ghost predicate DebtLink(s: State, t: Tid, o: Obj, k: Kind)
    requires t < |s.ops|
  {
    var op := s.ops[t];
    HasDebt(s, o, k, t) ==> InDebt(op) && op.o == o && op.k == k && Ctr(s, o, k).deb[t] == Debt(op.j, op.tk)
  }

  /** What a thread has in hand is what it is about to retire. */
  ghost predicate HandLink(s: State, t: Tid, o: Obj, k: Kind, i: Ticket)
    requires t < |s.ops|
  {
    var op := s.ops[t];
    InHand(s, o, k, i, t) ==> (op.Retiring? || op.CasRetire? || op.CopyInc?) && op.k == k && op.prev == Holds(o, i)
  }

  predicate OwnNoProt(s: State, t: Tid) { SLOTS * t < |s.slots| && s.slots[SLOTS * t].prot.NoProt? }

  predicate Announces(s: State, t: Tid, j: Slot, r: Option<Obj>) { OwnSlot(s, t, j) && s.slots[j].ann == r }

  /** Slot j is validated against a cell of kind k, and the thread's reservation slot is not otherwise in use. */
  predicate Validated(s: State, t: Tid, j: Slot, k: Kind, o: Obj) {
    && Announces(s, t, j, Some(o)) && s.slots[j].prot.Valid? && s.slots[j].prot.kind == k && HasObj(s, o)
    && (j == SLOTS * t || OwnNoProt(s, t))
  }

  predicate Unprotected(s: State, t: Tid, j: Slot, g: Goal) {
    && OwnSlot(s, t, j) && s.slots[j].prot.NoProt? && OwnNoProt(s, t)
    && (if g == Snapshot then j % SLOTS != 0 else j == SLOTS * t)
  }

  predicate HoldsHand(s: State, t: Tid, k: Kind, v: CellVal) { v.Holds? ==> InHand(s, v.o, k, v.i, t) }

  predicate Owes(s: State, t: Tid, k: Kind, o: Obj, j: Slot, rel: bool) {
    && HasObj(s, o) && t in Ctr(s, o, k).deb && OwnSlot(s, t, j)
    && (if rel then j == SLOTS * t else OwnNoProt(s, t))
  }

  ghost predicate SlotLink(s: State, t: Tid)
    requires t < |s.ops|
  {
    match s.ops[t]
    case Idle(_) => OwnNoProt(s, t)
    case Begin(c, j, g) => c in s.cells && Unprotected(s, t, j, g)
    case Loaded(c, j, g, r) => c in s.cells && Unprotected(s, t, j, g) && (r.Some? ==> HasObj(s, r.value))
    case Announced(c, j, g, r) => c in s.cells && Unprotected(s, t, j, g) && s.slots[j].ann == r
    case TakeRef(c, j, o) => c in s.cells && j == SLOTS * t && Validated(s, t, j, c.kind, o)
    case TryRef(c, j, o) => c in s.cells && j == SLOTS * t && Validated(s, t, j, c.kind, o)
    case CheckUse(c, j, o) => c in s.cells && j % SLOTS != 0 && Validated(s, t, j, c.kind, o)
    case Recheck(c, j, o, g) => c in s.cells && Validated(s, t, j, c.kind, o) && s.slots[j].prot.use.Zero?
        && (if g == Snapshot then j % SLOTS != 0 else j == SLOTS * t)
    case Finish(j, again, _) => OwnSlot(s, t, j) && (j == SLOTS * t || OwnNoProt(s, t))
        && (again.Some? ==>
              && again.value.0 in s.cells
              && if again.value.1 == Snapshot then j % SLOTS != 0 else j == SLOTS * t)
    case Retiring(k, prev, _) => OwnNoProt(s, t) && prev.Holds? && HoldsHand(s, t, k, prev)
    case Reserved(k, o, i) => Announces(s, t, SLOTS * t, Some(o)) && s.slots[SLOTS * t].prot == Pinned(k, i)
        && HasObj(s, o)
    case CasRetire(k, o, j, tk, rel, prev) => Owes(s, t, k, o, j, rel) && prev.Holds? && HoldsHand(s, t, k, prev)
    case CopyInc(k, o, j, tk, rel, prev, _) =>
        Owes(s, t, k, o, j, rel) && HoldsHand(s, t, k, prev) && (prev.Holds? ==> !rel)
  }

  ghost predicate OpOk(s: State, t: Tid)
    requires t < |s.ops|
  {
    && (forall o, k :: DebtLink(s, t, o, k))
    && (forall o, k, i :: HandLink(s, t, o, k, i))
    && SlotLink(s, t)
  }

  ghost predicate Threads(s: State) { forall t :: 0 <= t < |s.ops| ==> OpOk(s, t) }

  ghost predicate Inv(s: State) { Core(s) && Threads(s) }

  // ---------------------------------------------------------------- steps of others

  ghost predicate SameDebt(s: State, s': State, u: Tid, o: Obj, k: Kind) {
    HasDebt(s', o, k, u) == HasDebt(s, o, k, u)
        && (HasDebt(s', o, k, u) && HasDebt(s, o, k, u) ==> Ctr(s', o, k).deb[u] == Ctr(s, o, k).deb[u])
  }

  ghost predicate SameHand(s: State, s': State, u: Tid, o: Obj, k: Kind, i: Ticket) {
    InHand(s', o, k, i, u) <==> InHand(s, o, k, i, u)
  }

  ghost predicate SameFrame(s: State, s': State) {
    |s'.ops| == |s.ops| && |s'.slots| == |s.slots| && s'.cells.Keys == s.cells.Keys && s'.objs.Keys == s.objs.Keys
  }

  /** Thread u's debts and the references in its hand are as before. */
  ghost predicate SameRefs(s: State, s': State, u: Tid) {
    && SameFrame(s, s')
    && (forall o, k :: SameDebt(s, s', u, o, k))
    && (forall o, k, i :: SameHand(s, s', u, o, k, i))
  }

  /** And so are its slots. */
  ghost predicate SameOf(s: State, s': State, u: Tid) {
    && SameRefs(s, s', u)
    && (forall j: Slot :: OwnSlot(s, u, j) ==> s'.slots[j] == s.slots[j])
  }

  ghost predicate SameFor(s: State, s': State, u: Tid) {
    SameOf(s, s', u) && u < |s.ops| && s'.ops[u] == s.ops[u]
  }

  lemma OpFrame(s: State, s': State, u: Tid)
    requires SameFor(s, s', u) && OpOk(s, u)
    ensures OpOk(s', u)
  {
    forall o, k ensures DebtLink(s', u, o, k) { assert SameDebt(s, s', u, o, k) && DebtLink(s, u, o, k); }
    forall o, k, i ensures HandLink(s', u, o, k, i) { assert SameHand(s, s', u, o, k, i) && HandLink(s, u, o, k, i); }
    SlotLinkFrame(s, s', u);
  }

  lemma SlotLinkFrame(s: State, s': State, u: Tid)
    requires SameFor(s, s', u) && SlotLink(s, u)
    ensures SlotLink(s', u)
  {
    assert OwnSlot(s, u, SLOTS * u) ==> s'.slots[SLOTS * u] == s.slots[SLOTS * u];
    match s.ops[u] {
      case Retiring(k, prev, _) => assert SameHand(s, s', u, prev.o, k, prev.i);
      case CasRetire(k, o, j, tk, rel, prev) =>
        assert SameHand(s, s', u, prev.o, k, prev.i);
        assert HasDebt(s, o, k, u) && SameDebt(s, s', u, o, k);
      case CopyInc(k, o, j, tk, rel, prev, _) =>
        assert prev.Holds? ==> SameHand(s, s', u, prev.o, k, prev.i);
        assert HasDebt(s, o, k, u) && SameDebt(s, s', u, o, k);
      case _ =>
    }
  }

  lemma SameTrans(s: State, s1: State, s2: State, u: Tid)
    requires SameRefs(s, s1, u) && SameRefs(s1, s2, u)
    ensures SameRefs(s, s2, u)
  {
    forall o, k ensures SameDebt(s, s2, u, o, k) { assert SameDebt(s, s1, u, o, k) && SameDebt(s1, s2, u, o, k); }
    forall o, k, i ensures SameHand(s, s2, u, o, k, i) {
      assert SameHand(s, s1, u, o, k, i) && SameHand(s1, s2, u, o, k, i);
    }
  }

  /** Changing a counter without touching u's debt or hand. */
  lemma CounterSame(s: State, s': State, o: Obj, k: Kind, u: Tid)
    requires |s'.slots| == |s.slots| && |s'.ops| == |s.ops| && s'.cells.Keys == s.cells.Keys
    requires o in s.objs && o in s'.objs && s'.objs == s.objs[o := s'.objs[o]]
    requires s'.objs[o] == WithCounter(s.objs[o], k, CounterOf(s'.objs[o], k))
    requires var c := CounterOf(s.objs[o], k);
             var c' := CounterOf(s'.objs[o], k);
             && (u in c'.deb <==> u in c.deb) && (u in c.deb && u in c'.deb ==> c'.deb[u] == c.deb[u])
             && (forall i :: (i in c'.tok && c'.tok[i] == Hand(u)) <==> (i in c.tok && c.tok[i] == Hand(u)))
    ensures SameRefs(s, s', u)
  {
  }

  ghost predicate SameTokens(r: Object, r': Object) {
    r'.strong.tok == r.strong.tok && r'.strong.deb == r.strong.deb && r'.weak.tok == r.weak.tok &&
      r'.weak.deb == r.weak.deb
  }

  /** Steps that leave references and debts alone. */
  lemma ObjectsSame(s: State, s': State, u: Tid)
    requires SameFrame(s, s') && forall o :: o in s.objs ==> SameTokens(s.objs[o], s'.objs[o])
    ensures SameRefs(s, s', u)
  {
    forall o, k ensures SameDebt(s, s', u, o, k) { assert o in s.objs ==> SameTokens(s.objs[o], s'.objs[o]); }
    forall o, k, i ensures SameHand(s, s', u, o, k, i) { assert o in s.objs ==> SameTokens(s.objs[o], s'.objs[o]); }
  }

  // ---------------------------------------------------------------- a thread's own steps

  /** A thread that owes nothing and holds nothing, before and after. */
  predicate Quiet(op: Op) { !op.Retiring? && !op.CasRetire? && !op.CopyInc? }

  lemma QuietStep(s: State, s': State, t: Tid)
    requires t < |s.ops| && OpOk(s, t) && Quiet(s.ops[t]) && SameRefs(s, s', t) && SlotLink(s', t)
    ensures OpOk(s', t)
  {
    forall o, k ensures DebtLink(s', t, o, k) { assert SameDebt(s, s', t, o, k) && DebtLink(s, t, o, k); }
    forall o, k, i ensures HandLink(s', t, o, k, i) { assert SameHand(s, s', t, o, k, i) && HandLink(s, t, o, k, i); }
  }

  lemma NotInDebt(s: State, t: Tid, o: Obj, k: Kind)
    requires t < |s.ops| && OpOk(s, t) && !InDebt(s.ops[t])
    ensures !HasDebt(s, o, k, t)
  {
    assert DebtLink(s, t, o, k);
  }

  /** All threads are in order after a step of thread t, if t is and the others were left alone. */
  lemma ThreadsFrame(s: State, s': State, t: Tid)
    requires Threads(s) && |s'.ops| == |s.ops|
    requires forall u :: 0 <= u < |s.ops| && u != t ==> SameFor(s, s', u)
    requires t < |s.ops| ==> OpOk(s', t)
    ensures Threads(s')
  {
    forall u | 0 <= u < |s'.ops| ensures OpOk(s', u) {
      hide OpOk, SameFor;
      if u != t { OpFrame(s, s', u); }
    }
  }
}
