/** What load and get_snapshot answer, with a free slot and without one: a null only if the cell had nothing alive at
    an instant of the call, an object only if the cell held it at an instant of the call, and with it a new reference or
    a protected slot. */
module HpAnswers {
  import opened Options
  import opened HpModel
  import opened HpInvariant
  import opened HpThreads
  import opened HpCalls
  import opened HpSafety
  import opened HpRuns

  // ---------------------------------------------------------------- instants of a call

  /** After k steps the cell points to r. */
  ghost predicate PointsAt(s0: State, ls: seq<Label>, k: nat, c: CellId, r: Option<Obj>)
    requires Runnable(s0, ls) && k <= |ls|
  {
    c in At(s0, ls, k).cells && Target(At(s0, ls, k).cells[c]) == r
  }

  /** The cell holds null, or an object that has expired. */
  ghost predicate HoldsNothingAlive(s: State, c: CellId) {
    && c in s.cells
    && match s.cells[c]
       case Null => true
       case Holds(o, _) =>
         HasObj(s, o) && !s.objs[o].phase.Live? && !s.objs[o].phase.Free? && s.objs[o].strong.cnt == 0
  }

  ghost predicate NothingAt(s0: State, ls: seq<Label>, k: nat, c: CellId)
    requires Runnable(s0, ls) && k <= |ls|
  {
    HoldsNothingAlive(At(s0, ls, k), c)
  }

  /** Step h gives out a new reference. */
  ghost predicate HandsOut(s0: State, ls: seq<Label>, h: nat, o: Obj, k: Kind, i: Ticket)
    requires Runnable(s0, ls) && h < |ls|
  {
    !HasTicket(At(s0, ls, h), o, k, i) && HasOwned(At(s0, ls, h + 1), o, k, i)
  }

  ghost predicate PointsIn(s0: State, ls: seq<Label>, p: nat, m: nat, c: CellId, r: Option<Obj>)
    requires Runnable(s0, ls) && m <= |ls|
  {
    exists k :: p < k <= m && PointsAt(s0, ls, k, c, r)
  }

  ghost predicate NothingIn(s0: State, ls: seq<Label>, p: nat, m: nat, c: CellId)
    requires Runnable(s0, ls) && m <= |ls|
  {
    exists k :: p < k <= m && NothingAt(s0, ls, k, c)
  }

  ghost predicate HandsOutIn(s0: State, ls: seq<Label>, p: nat, m: nat, k: Kind, v: CellVal)
    requires Runnable(s0, ls) && m <= |ls|
  {
    v.Holds? && exists h :: p < h < m && HandsOut(s0, ls, h, v.o, k, v.i)
  }

  /** The answer of a load or get_snapshot of cell c that began in step p is true of an instant of the call so far. A
      load answers null if the cell was null then; a get_snapshot if the cell had nothing alive. Any other answer is
      the object that the cell held then, with a new reference to it, a strong one for a counted snapshot. */
  ghost predicate TrueAnswer(s0: State, ls: seq<Label>, p: nat, m: nat, c: CellId, g: Goal, said: Answer)
    requires Runnable(s0, ls) && m <= |ls|
  {
    match g
    case LoadRef =>
      && said.Reference? && said.k == c.kind && PointsIn(s0, ls, p, m, c, Target(said.v))
      && (said.v.Holds? ==> HandsOutIn(s0, ls, p, m, c.kind, said.v))
    case Snapshot =>
      && said.SnapshotOf?
      && if said.r == None then NothingIn(s0, ls, p, m, c) else PointsIn(s0, ls, p, m, c, said.r)
    case CountedSnapshot =>
      && said.Reference? && said.k == Strong
      && if said.v == Null then NothingIn(s0, ls, p, m, c)
         else PointsIn(s0, ls, p, m, c, Target(said.v)) && HandsOutIn(s0, ls, p, m, Strong, said.v)
  }

  /** What a thread knows in the course of the call. */
  ghost predicate Knows(s0: State, ls: seq<Label>, p: nat, m: nat, c: CellId, j: Slot, g: Goal, op: Op)
    requires Runnable(s0, ls) && m <= |ls|
  {
    match op
    case Begin(c2, j2, g2) => c2 == c && j2 == j && g2 == g
    case Loaded(c2, j2, g2, r) => c2 == c && j2 == j && g2 == g && PointsIn(s0, ls, p, m, c, r)
    case Announced(c2, j2, g2, r) =>
      c2 == c && j2 == j && g2 == g && PointsIn(s0, ls, p, m, c, r) && (g.Snapshot? ==> r.Some?)
    case TakeRef(c2, j2, o) => c2 == c && j2 == j && g.LoadRef? && PointsIn(s0, ls, p, m, c, Some(o))
    case TryRef(c2, j2, o) => c2 == c && j2 == j && g.CountedSnapshot? && PointsIn(s0, ls, p, m, c, Some(o))
    case CheckUse(c2, j2, o) => c2 == c && j2 == j && g.Snapshot? && PointsIn(s0, ls, p, m, c, Some(o))
    case Recheck(c2, j2, o, g2) => c2 == c && j2 == j && g2 == g && !g.LoadRef?
    case Finish(j2, again, said) =>
      && j2 == j
      && if again == None then TrueAnswer(s0, ls, p, m, c, g, said) && (g.Snapshot? ==> said == SnapshotOf(None))
         else again == Some((c, g))
    case Idle(said) => TrueAnswer(s0, ls, p, m, c, g, said)
    case _ => false
  }

  // ---------------------------------------------------------------- one step inside the call

  lemma BeginGoes(s: State, t: Tid)
    requires GoEnabled(s, t) && s.ops[t].Begin?
    ensures var op := s.ops[t];
            && t < |GoStep(s, t).ops| && op.c in s.cells
            && GoStep(s, t).ops[t] == Loaded(op.c, op.j, op.g, Target(s.cells[op.c]))
  {
  }

  lemma LoadedGoes(s: State, t: Tid)
    requires GoEnabled(s, t) && s.ops[t].Loaded?
    ensures var op := s.ops[t];
            && t < |GoStep(s, t).ops|
            && GoStep(s, t).ops[t] == if op.g == Snapshot && op.r == None then Idle(SnapshotOf(None))
                                      else Announced(op.c, op.j, op.g, op.r)
  {
  }

  lemma AnnouncedGoes(s: State, t: Tid)
    requires GoEnabled(s, t) && s.ops[t].Announced?
    ensures var op := s.ops[t];
            && t < |GoStep(s, t).ops| && op.c in s.cells
            && GoStep(s, t).ops[t] ==
               if Target(s.cells[op.c]) != op.r then Begin(op.c, op.j, op.g)
               else if op.r == None then Idle(Reference(if op.g.LoadRef? then op.c.kind else Strong, Null))
               else match op.g
                    case LoadRef => TakeRef(op.c, op.j, op.r.value)
                    case CountedSnapshot => TryRef(op.c, op.j, op.r.value)
                    case Snapshot =>
                      if op.c.kind.Strong? then Idle(SnapshotOf(op.r)) else CheckUse(op.c, op.j, op.r.value)
  {
  }

  lemma TakeRefGoes(s: State, t: Tid)
    requires GoEnabled(s, t) && s.ops[t].TakeRef?
    ensures var op := s.ops[t];
            && t < |GoStep(s, t).ops|
            && GoStep(s, t).ops[t] == Finish(op.j, None, Reference(op.c.kind, Holds(op.o, s.now)))
            && HasOwned(GoStep(s, t), op.o, op.c.kind, s.now)
  {
  }

  lemma TryRefGoes(s: State, t: Tid)
    requires GoEnabled(s, t) && s.ops[t].TryRef?
    ensures var op, s' := s.ops[t], GoStep(s, t);
            && t < |s'.ops|
            && if s.objs[op.o].phase.Live? then
                 && s'.ops[t] == Finish(op.j, None, Reference(Strong, Holds(op.o, s.now)))
                 && HasOwned(s', op.o, Strong, s.now)
               else s'.ops[t] == Recheck(op.c, op.j, op.o, CountedSnapshot)
  {
  }

  lemma CheckUseGoes(s: State, t: Tid)
    requires GoEnabled(s, t) && s.ops[t].CheckUse?
    ensures var op, s' := s.ops[t], GoStep(s, t);
            && t < |s'.ops|
            && (s'.ops[t] == Idle(SnapshotOf(Some(op.o))) || s'.ops[t] == Recheck(op.c, op.j, op.o, Snapshot))
  {
  }

  lemma RecheckGoes(s: State, t: Tid)
    requires GoEnabled(s, t) && s.ops[t].Recheck?
    ensures var op, s' := s.ops[t], GoStep(s, t);
            && t < |s'.ops| && op.c in s.cells
            && s'.ops[t] == if Target(s.cells[op.c]) == Some(op.o) then Finish(op.j, None, NullSnapshot(op.g))
                            else Finish(op.j, Some((op.c, op.g)), NoAnswer)
  {
  }

  lemma FinishGoes(s: State, t: Tid)
    requires GoEnabled(s, t) && s.ops[t].Finish?
    ensures var op := s.ops[t];
            && t < |GoStep(s, t).ops|
            && GoStep(s, t).ops[t] == if op.again == None then Idle(op.said)
                                      else Begin(op.again.value.0, op.j, op.again.value.1)
  {
  }

  /** The use count was zero and the cell still points to the object. */
  lemma RecheckSeesExpired(s: State, t: Tid)
    requires Inv(s) && GoEnabled(s, t) && s.ops[t].Recheck? && Target(s.cells[s.ops[t].c]) == Some(s.ops[t].o)
    ensures HoldsNothingAlive(s, s.ops[t].c)
  {
    hide Objects, Passes, Links, Threads;
    OpOf(s, t);
    var op := s.ops[t];
    assert SlotOk(s.slots[op.j], op.j, s.objs, s.now);
    CorePhase(s, op.o);
    CellTarget(s, op.c);
    NotFree(s, op.o, op.c.kind);
  }

  lemma NowIsNew(s: State, o: Obj, k: Kind)
    requires Core(s)
    ensures !HasTicket(s, o, k, s.now)
  {
    hide Slots, Cells, Passes, Links;
    if HasObj(s, o) { CoreCounter(s, o, k); }
  }

  lemma NullCell(s: State, c: CellId)
    requires c in s.cells && Target(s.cells[c]) == None
    ensures HoldsNothingAlive(s, c)
  {
  }

  // ---------------------------------------------------------------- the whole call

  lemma PointsLater(s0: State, ls: seq<Label>, p: nat, m: nat, n: nat, c: CellId, r: Option<Obj>)
    requires Runnable(s0, ls) && m <= n <= |ls| && PointsIn(s0, ls, p, m, c, r)
    ensures PointsIn(s0, ls, p, n, c, r)
  {
    hide Runnable, PointsAt;
    var k :| p < k <= m && PointsAt(s0, ls, k, c, r);
  }

  lemma AnswerLater(s0: State, ls: seq<Label>, p: nat, m: nat, n: nat, c: CellId, g: Goal, said: Answer)
    requires Runnable(s0, ls) && m <= n <= |ls| && TrueAnswer(s0, ls, p, m, c, g, said)
    ensures TrueAnswer(s0, ls, p, n, c, g, said)
  {
    hide Runnable, PointsAt, NothingAt, HandsOut;
  }

  lemma KnowsLater(s0: State, ls: seq<Label>, p: nat, m: nat, n: nat, c: CellId, j: Slot, g: Goal, op: Op)
    requires Runnable(s0, ls) && m <= n <= |ls| && Knows(s0, ls, p, m, c, j, g, op)
    ensures Knows(s0, ls, p, n, c, j, g, op)
  {
    hide Runnable, PointsIn, TrueAnswer;
    match op {
      case Loaded(_, _, _, r) => PointsLater(s0, ls, p, m, n, c, r);
      case Announced(_, _, _, r) => PointsLater(s0, ls, p, m, n, c, r);
      case TakeRef(_, _, o) => PointsLater(s0, ls, p, m, n, c, Some(o));
      case TryRef(_, _, o) => PointsLater(s0, ls, p, m, n, c, Some(o));
      case CheckUse(_, _, o) => PointsLater(s0, ls, p, m, n, c, Some(o));
      case Finish(_, again, said) => if again == None { AnswerLater(s0, ls, p, m, n, c, g, said); }
      case Idle(said) => AnswerLater(s0, ls, p, m, n, c, g, said);
      case _ =>
    }
  }

  lemma PointsNow(s0: State, ls: seq<Label>, p: nat, m: nat, n: nat, c: CellId)
    requires Runnable(s0, ls) && p < m <= n <= |ls| && c in At(s0, ls, m).cells
    ensures PointsIn(s0, ls, p, n, c, Target(At(s0, ls, m).cells[c]))
  {
    hide Runnable, At;
    assert PointsAt(s0, ls, m, c, Target(At(s0, ls, m).cells[c]));
  }

  lemma NullIsNothing(s0: State, ls: seq<Label>, p: nat, m: nat, c: CellId)
    requires Runnable(s0, ls) && m <= |ls| && PointsIn(s0, ls, p, m, c, None)
    ensures NothingIn(s0, ls, p, m, c)
  {
    hide Runnable, At;
    var k :| p < k <= m && PointsAt(s0, ls, k, c, None);
    NullCell(At(s0, ls, k), c);
    assert NothingAt(s0, ls, k, c);
  }

  lemma NothingNow(s0: State, ls: seq<Label>, p: nat, m: nat, n: nat, c: CellId)
    requires Runnable(s0, ls) && p < m <= n <= |ls| && HoldsNothingAlive(At(s0, ls, m), c)
    ensures NothingIn(s0, ls, p, n, c)
  {
    hide Runnable, At, HoldsNothingAlive;
    assert NothingAt(s0, ls, m, c);
  }

  lemma HandsOutNow(s0: State, ls: seq<Label>, p: nat, m: nat, o: Obj, k: Kind, i: Ticket)
    requires Runnable(s0, ls) && p < m < |ls|
    requires !HasTicket(At(s0, ls, m), o, k, i) && HasOwned(At(s0, ls, m + 1), o, k, i)
    ensures HandsOutIn(s0, ls, p, m + 1, k, Holds(o, i))
  {
    hide Runnable, At, HasTicket, HasOwned;
    assert HandsOut(s0, ls, m, o, k, i);
  }

  /** Step m is the thread's own, inside the call of label p. */
  ghost predicate Goes(s0: State, ls: seq<Label>, p: nat, m: nat, t: Tid)
    requires Runnable(s0, ls)
  {
    && Init(s0) && p < m < |ls| && ls[m] == Call(Go(t)) && t < |At(s0, ls, m).ops|
    && GoEnabled(At(s0, ls, m), t) && At(s0, ls, m + 1) == GoStep(At(s0, ls, m), t)
    && |At(s0, ls, m + 1).ops| == |At(s0, ls, m).ops|
  }

  lemma ReadsOn(s0: State, ls: seq<Label>, p: nat, m: nat, t: Tid, c: CellId, j: Slot, g: Goal)
    requires Runnable(s0, ls) && Goes(s0, ls, p, m, t) && Knows(s0, ls, p, m, c, j, g, At(s0, ls, m).ops[t])
    requires At(s0, ls, m).ops[t].Begin? || At(s0, ls, m).ops[t].Loaded?
    ensures Knows(s0, ls, p, m + 1, c, j, g, At(s0, ls, m + 1).ops[t])
  {
    hide Runnable, At, GoStep, PointsIn, NothingIn, HandsOutIn, GoEnabled;
    var op := At(s0, ls, m).ops[t];
    if op.Begin? {
      BeginGoes(At(s0, ls, m), t);
      PointsNow(s0, ls, p, m, m + 1, c);
    } else {
      LoadedGoes(At(s0, ls, m), t);
      PointsLater(s0, ls, p, m, m + 1, c, op.r);
      if op.r == None { NullIsNothing(s0, ls, p, m + 1, c); }
    }
  }

  lemma AnnouncedOn(s0: State, ls: seq<Label>, p: nat, m: nat, t: Tid, c: CellId, j: Slot, g: Goal)
    requires Runnable(s0, ls) && Goes(s0, ls, p, m, t) && Knows(s0, ls, p, m, c, j, g, At(s0, ls, m).ops[t])
    requires At(s0, ls, m).ops[t].Announced?
    ensures Knows(s0, ls, p, m + 1, c, j, g, At(s0, ls, m + 1).ops[t])
  {
    hide Runnable, At, GoStep, PointsIn, NothingIn, HandsOutIn, GoEnabled;
    var op := At(s0, ls, m).ops[t];
    AnnouncedGoes(At(s0, ls, m), t);
    PointsLater(s0, ls, p, m, m + 1, c, op.r);
    if op.r == None { NullIsNothing(s0, ls, p, m + 1, c); }
  }

  lemma RefsOn(s0: State, ls: seq<Label>, p: nat, m: nat, t: Tid, c: CellId, j: Slot, g: Goal)
    requires Runnable(s0, ls) && Goes(s0, ls, p, m, t) && Knows(s0, ls, p, m, c, j, g, At(s0, ls, m).ops[t])
    requires At(s0, ls, m).ops[t].TakeRef? || At(s0, ls, m).ops[t].TryRef?
    ensures Knows(s0, ls, p, m + 1, c, j, g, At(s0, ls, m + 1).ops[t])
  {
    hide Runnable, At, GoStep, PointsIn, NothingIn, HandsOutIn, GoEnabled, HasTicket, HasOwned, Inv;
    var s, op := At(s0, ls, m), At(s0, ls, m).ops[t];
    AtInv(s0, ls, m);
    PointsLater(s0, ls, p, m, m + 1, c, Some(op.o));
    if op.TakeRef? {
      TakeRefGoes(s, t);
      NewTicket(s, op.o, c.kind);
      HandsOutNow(s0, ls, p, m, op.o, c.kind, s.now);
    } else {
      TryRefGoes(s, t);
      NewTicket(s, op.o, Strong);
      if At(s0, ls, m + 1).ops[t].Finish? { HandsOutNow(s0, ls, p, m, op.o, Strong, s.now); }
    }
  }

  lemma NewTicket(s: State, o: Obj, k: Kind)
    requires Inv(s)
    ensures !HasTicket(s, o, k, s.now)
  {
    hide Core, Threads;
    NowIsNew(s, o, k);
  }

  lemma ChecksOn(s0: State, ls: seq<Label>, p: nat, m: nat, t: Tid, c: CellId, j: Slot, g: Goal)
    requires Runnable(s0, ls) && Goes(s0, ls, p, m, t) && Knows(s0, ls, p, m, c, j, g, At(s0, ls, m).ops[t])
    requires At(s0, ls, m).ops[t].CheckUse? || At(s0, ls, m).ops[t].Recheck? || At(s0, ls, m).ops[t].Finish?
    ensures Knows(s0, ls, p, m + 1, c, j, g, At(s0, ls, m + 1).ops[t])
  {
    hide Runnable, At, GoStep, PointsIn, NothingIn, HandsOutIn, GoEnabled, HoldsNothingAlive, Inv;
    var s, op := At(s0, ls, m), At(s0, ls, m).ops[t];
    if op.CheckUse? {
      CheckUseGoes(s, t);
      PointsLater(s0, ls, p, m, m + 1, c, Some(op.o));
    } else if op.Recheck? {
      RecheckGoes(s, t);
      AtInv(s0, ls, m);
      if Target(s.cells[c]) == Some(op.o) {
        RecheckSeesExpired(s, t);
        NothingNow(s0, ls, p, m, m + 1, c);
      }
    } else {
      FinishGoes(s, t);
      if op.again == None { AnswerLater(s0, ls, p, m, m + 1, c, g, op.said); }
    }
  }

  lemma KnowsOn(s0: State, ls: seq<Label>, p: nat, m: nat, t: Tid, c: CellId, j: Slot, g: Goal)
    requires Runnable(s0, ls) && Goes(s0, ls, p, m, t) && Knows(s0, ls, p, m, c, j, g, At(s0, ls, m).ops[t])
    ensures Knows(s0, ls, p, m + 1, c, j, g, At(s0, ls, m + 1).ops[t])
  {
    hide Runnable, At, GoStep, PointsIn, TrueAnswer;
    var op := At(s0, ls, m).ops[t];
    if op.Begin? || op.Loaded? { ReadsOn(s0, ls, p, m, t, c, j, g); }
    else if op.Announced? { AnnouncedOn(s0, ls, p, m, t, c, j, g); }
    else if op.TakeRef? || op.TryRef? { RefsOn(s0, ls, p, m, t, c, j, g); }
    else { ChecksOn(s0, ls, p, m, t, c, j, g); }
  }

  lemma {:induction false} KnowsAt(s0: State, ls: seq<Label>, p: nat, t: Tid, c: CellId, j: Slot, g: Goal, m: nat)
    requires Init(s0) && Runnable(s0, ls) && InCall(ls, p, t, m) && ls[p] == Call(Start(t, c, j, g))
    ensures t < |At(s0, ls, m).ops| && Knows(s0, ls, p, m, c, j, g, At(s0, ls, m).ops[t])
  {
    hide Runnable, At, Init, Inv, GoStep, GoEnabled, Knows, ClientEnabled, ReclaimEnabled, ApplyClient, ApplyReclaim;
    var s, l := At(s0, ls, m - 1), ls[m - 1];
    AtNext(s0, ls, m - 1);
    StepOps(s, l);
    if p == m - 1 {
      Starts(s0, ls, p, t, c, j, g);
    } else {
      KnowsAt(s0, ls, p, t, c, j, g, m - 1);
      if l == Call(Go(t)) {
        KnowsOn(s0, ls, p, m - 1, t, c, j, g);
      } else {
        KnowsLater(s0, ls, p, m - 1, m, c, j, g, s.ops[t]);
      }
    }
  }

  lemma Starts(s0: State, ls: seq<Label>, p: nat, t: Tid, c: CellId, j: Slot, g: Goal)
    requires Init(s0) && Runnable(s0, ls) && p < |ls| && ls[p] == Call(Start(t, c, j, g))
    ensures t < |At(s0, ls, p + 1).ops| && Knows(s0, ls, p, p + 1, c, j, g, At(s0, ls, p + 1).ops[t])
  {
    hide Runnable, At, Init;
    AtNext(s0, ls, p);
  }

  /** Over every run: when a load or a get_snapshot of cell c, begun by label p, has returned, its answer is true of an
      instant of the call. So a null snapshot means that the cell had nothing alive at such an instant, whether the call
      had a slot or not. */
  lemma EveryReadIsJustified(s0: State, ls: seq<Label>, p: nat, t: Tid, c: CellId, j: Slot, g: Goal, m: nat)
    requires Init(s0) && Runnable(s0, ls) && InCall(ls, p, t, m) && ls[p] == Call(Start(t, c, j, g))
    requires t < |At(s0, ls, m).ops| && At(s0, ls, m).ops[t].Idle?
    ensures TrueAnswer(s0, ls, p, m, c, g, At(s0, ls, m).ops[t].said)
  {
    hide Runnable, At, Init, TrueAnswer;
    KnowsAt(s0, ls, p, t, c, j, g, m);
  }
}
