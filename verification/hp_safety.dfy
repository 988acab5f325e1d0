/** What holds in every run of deferred reference counting over hazard pointers. */
module HpSafety {
  import opened Options
  import opened HpModel
  import opened HpInvariant
  import opened HpUpdates
  import opened HpTickets
  import opened HpPasses
  import opened HpPhases
  import opened HpThreads
  import opened HpSteps
  import opened HpCalls

  // ---------------------------------------------------------------- the invariant holds in every run

  lemma InitCore(s: State)
    requires Init(s)
    ensures Core(s)
  {
    forall o | o in s.objs ensures ObjectOk(s.objs[o], o, s) { }
  }

  lemma InitInv(s: State)
    requires Init(s)
    ensures Inv(s)
  {
    hide Core;
    InitCore(s);
    forall t | 0 <= t < |s.ops| ensures OpOk(s, t) { }
  }

  lemma StepInv(s: State, l: Label)
    requires Inv(s) && Enabled(s, l)
    ensures Inv(Apply(s, l))
  {
    hide Core, Threads;
    match l {
      case Client(a) => ClientInv(s, a);
      case Call(a) => CallInv(s, a);
      case Reclaim(a) => if a.PassBegin? || a.PassScan? || a.PassCount? || a.PassDispose? ||
        a.PassEnd? { PassStepInv(s, a); } else { LifeStepInv(s, a); }
    }
  }

  lemma {:induction false} RunInv(s: State, ls: seq<Label>)
    requires Inv(s) && Runnable(s, ls)
    ensures Inv(Run(s, ls))
    decreases |ls|
  {
    hide Inv;
    if ls != [] {
      StepInv(s, ls[0]);
      RunInv(Apply(s, ls[0]), ls[1..]);
    }
  }

  // ---------------------------------------------------------------- safety

  /** No assertion of the library fails, no count is changed on a freed object, and no increment that its
      caller relies on finds the counter stuck at zero. */
  ghost predicate NoFault(s: State) { !s.bad }

  /** The managed object has not been destroyed. */
  predicate Undisposed(p: Phase) { p.Live? || p.Expired? || p.Claimed? || p.Delayed? }

  /** Anybody who owns a strong reference, or holds a snapshot taken from a strong cell, sees a live object
      whose strong count is at least one. */
  ghost predicate StrongReadersSafe(s: State) {
    && (forall o, i :: HasTicket(s, o, Strong, i) ==> s.objs[o].phase.Live? && s.objs[o].strong.cnt >= 1)
    && (forall j :: 0 <= j < |s.slots| && s.slots[j].prot.Valid? && s.slots[j].prot.kind.Strong? ==>
          && s.slots[j].ann.Some? && HasObj(s, s.slots[j].ann.value)
          && s.objs[s.slots[j].ann.value].phase.Live? && s.objs[s.slots[j].ann.value].strong.cnt >= 1)
  }

  /** Anybody who owns a weak reference sees an undeleted control block; a weak snapshot that get_snapshot
      returned keeps the object undisposed, even with no strong reference left. */
  ghost predicate WeakReadersSafe(s: State) {
    && (forall o, i :: HasTicket(s, o, Weak, i) ==>
      !s.objs[o].phase.Free? && !s.objs[o].phase.Doomed? && s.objs[o].weak.cnt >= 1)
    && (forall j :: 0 <= j < |s.slots| && s.slots[j].prot.Valid? && s.slots[j].prot.use.Positive? ==>
          s.slots[j].ann.Some? && HasObj(s, s.slots[j].ann.value) && Undisposed(s.objs[s.slots[j].ann.value].phase))
  }

  /** Where a reference can be: with an owner, in the cell that points to the object, in the hand of a
      thread about to retire it, or in some thread's deferred list. */
  ghost predicate Placed(s: State, o: Obj, k: Kind, i: Ticket)
    requires HasTicket(s, o, k, i)
  {
    match Ctr(s, o, k).tok[i]
    case Owned => true
    case InCell(c) => c in s.cells && c.kind == k && s.cells[c] == Holds(o, i)
    case Hand(t) => t < |s.ops| && !Quiet(s.ops[t]) && s.ops[t].k == k && s.ops[t].prev == Holds(o, i)
    case Defer(t, _) => t < |s.ops|
  }

  /** Conservation with debt. For every object in use, the references (each in exactly one place) number the
      count plus the increments still owed; and whoever owes one announces the object in a slot of its own. */
  ghost predicate Conserved(s: State) {
    && (forall o :: HasObj(s, o) && !s.objs[o].phase.Free? ==>
          && |s.objs[o].strong.tok| == s.objs[o].strong.cnt + |s.objs[o].strong.deb|
          && |s.objs[o].weak.tok| + (if s.objs[o].shared.Gone? then 0
            else 1) == s.objs[o].weak.cnt + |s.objs[o].weak.deb|)
    && (forall o, k, i :: HasTicket(s, o, k, i) ==> Placed(s, o, k, i))
    && (forall c :: c in s.cells && s.cells[c].Holds? ==> HasTicket(s, s.cells[c].o, c.kind, s.cells[c].i))
    && (forall o: Obj, k, t: Tid :: HasDebt(s, o, k, t) ==>
          && t < |s.ops| && InDebt(s.ops[t])
          && OwnSlot(s, t, Ctr(s, o, k).deb[t].slot) && s.slots[Ctr(s, o, k).deb[t].slot].ann == Some(o))
  }

  lemma InvStrong(s: State)
    requires Core(s)
    ensures StrongReadersSafe(s)
  {
    forall o, i | HasTicket(s, o, Strong, i) ensures s.objs[o].phase.Live? && s.objs[o].strong.cnt >= 1 {
      hide Core; StrongCount(s, o);
    }
    forall j | 0 <= j < |s.slots| && s.slots[j].prot.Valid? && s.slots[j].prot.kind.Strong?
      ensures s.slots[j].ann.Some? && HasObj(s, s.slots[j].ann.value)
      ensures s.objs[s.slots[j].ann.value].phase.Live? && s.objs[s.slots[j].ann.value].strong.cnt >= 1
    {
      hide Objects, Cells, Passes, Links;
      assert SlotOk(s.slots[j], j, s.objs, s.now);
      ProtectedTicket(s, s.slots[j].ann.value, Strong, j);
      StrongCount(s, s.slots[j].ann.value);
    }
  }

  lemma InvWeak(s: State)
    requires Core(s)
    ensures WeakReadersSafe(s)
  {
    forall o, i | HasTicket(s, o, Weak, i)
      ensures !s.objs[o].phase.Free? && !s.objs[o].phase.Doomed? && s.objs[o].weak.cnt >= 1
    {
      hide Core; WeakCount(s, o);
    }
    forall j | 0 <= j < |s.slots| && s.slots[j].prot.Valid? && s.slots[j].prot.use.Positive?
      ensures s.slots[j].ann.Some? && HasObj(s, s.slots[j].ann.value) && Undisposed(s.objs[s.slots[j].ann.value].phase)
    {
      hide Objects, Cells, Passes, Links;
      assert SlotOk(s.slots[j], j, s.objs, s.now);
    }
  }

  lemma InvPlaced(s: State, o: Obj, k: Kind, i: Ticket)
    requires Inv(s) && HasTicket(s, o, k, i)
    ensures Placed(s, o, k, i)
  {
    hide Slots, Cells, Passes, Links, Objects;
    CoreCounter(s, o, k);
    assert PlaceOk(Ctr(s, o, k).tok[i], i, o, k, s.cells, |s.ops|, s.now);
    if Ctr(s, o, k).tok[i].Hand? {
      var t := Ctr(s, o, k).tok[i].t;
      assert OpOk(s, t);
      assert HandLink(s, t, o, k, i);
    }
  }

  lemma InvDebtor(s: State, o: Obj, k: Kind, t: Tid)
    requires Inv(s) && HasDebt(s, o, k, t)
    ensures t < |s.ops| && InDebt(s.ops[t])
    ensures OwnSlot(s, t, Ctr(s, o, k).deb[t].slot) && s.slots[Ctr(s, o, k).deb[t].slot].ann == Some(o)
  {
    hide Slots, Cells, Passes, Links, Objects;
    CoreCounter(s, o, k);
    assert DebtOk(Ctr(s, o, k), t, o, k, s.slots, s.now);
    assert OpOk(s, t);
    assert DebtLink(s, t, o, k);
  }

  lemma InvConserved(s: State)
    requires Inv(s)
    ensures Conserved(s)
  {
    hide Core, Threads, Placed;
    forall o | HasObj(s, o) && !s.objs[o].phase.Free?
      ensures |s.objs[o].strong.tok| == s.objs[o].strong.cnt + |s.objs[o].strong.deb|
      ensures |s.objs[o].weak.tok| + (if s.objs[o].shared.Gone? then 0
        else 1) == s.objs[o].weak.cnt + |s.objs[o].weak.deb|
    {
      CorePhase(s, o);
    }
    forall o, k, i | HasTicket(s, o, k, i) ensures Placed(s, o, k, i) { InvPlaced(s, o, k, i); }
    forall c | c in s.cells && s.cells[c].Holds? ensures HasTicket(s, s.cells[c].o, c.kind, s.cells[c].i) {
      CellTarget(s, c);
    }
    forall o: Obj, k, t: Tid | HasDebt(s, o, k, t)
      ensures t < |s.ops| && InDebt(s.ops[t])
      ensures OwnSlot(s, t, Ctr(s, o, k).deb[t].slot) && s.slots[Ctr(s, o, k).deb[t].slot].ann == Some(o)
    {
      InvDebtor(s, o, k, t);
    }
  }

  /** In every interleaving of loads, stores, snapshots, CAS, drops and reclamation passes: nothing faults,
      every strong reader sees a live object, every weak snapshot an undisposed one, and references are
      conserved. */
  lemma EveryRunIsSafe(s0: State, ls: seq<Label>)
    requires Init(s0) && Runnable(s0, ls)
    ensures var s := Run(s0, ls); NoFault(s) && StrongReadersSafe(s) && WeakReadersSafe(s) && Conserved(s)
  {
    hide Core, Threads, StrongReadersSafe, WeakReadersSafe, Conserved;
    InitInv(s0);
    RunInv(s0, ls);
    var s := Run(s0, ls);
    CoreNotBad(s);
    InvStrong(s);
    InvWeak(s);
    InvConserved(s);
  }

  // ---------------------------------------------------------------- nobody is stuck

  /** In every run each call in progress can take its next step: no thread ever needs an object, a cell, a slot or a
      reference that is not there. */
  lemma NoThreadIsStuck(s0: State, ls: seq<Label>, t: Tid)
    requires Init(s0) && Runnable(s0, ls) && t < |Run(s0, ls).ops|
    ensures var s := Run(s0, ls);
            && (!s.ops[t].Idle? && !s.ops[t].Reserved? ==> Enabled(s, Call(Go(t))))
            && (s.ops[t].Reserved? ==> forall c, e :: c in s.cells && (c.kind.Strong? ==> s.ops[t].k.Strong?) ==>
              Enabled(s, Call(CasReserved(t, c, e))))
  {
    hide Inv, Enabled, Apply, Run, Runnable;
    InitInv(s0);
    RunInv(s0, ls);
    StepPossible(Run(s0, ls), t);
  }

  lemma StepPossible(s: State, t: Tid)
    requires Inv(s) && t < |s.ops|
    ensures !s.ops[t].Idle? && !s.ops[t].Reserved? ==> Enabled(s, Call(Go(t)))
    ensures s.ops[t].Reserved? ==> forall c, e :: c in s.cells && (c.kind.Strong? ==> s.ops[t].k.Strong?) ==>
      Enabled(s, Call(CasReserved(t, c, e)))
  {
    hide Objects, Passes, Links, Slots;
    assert OpOk(s, t);
    hide Threads, DebtLink, HandLink;
    forall c | c in s.cells ensures CellReady(s, c) { assert CellOk(c, s.cells[c], s.objs); }
  }
}
