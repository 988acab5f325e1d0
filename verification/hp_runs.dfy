/** Whole runs of deferred reference counting, told from the calls that the threads make: every cell is an atomic
    register, and every store and compare_and_swap answers truly. */
module HpRuns {
  import opened Options
  import opened HpModel
  import opened HpInvariant
  import opened HpThreads
  import opened HpCalls
  import opened HpSafety

  /** The state after the first m steps. */
  ghost function At(s: State, ls: seq<Label>, m: nat): State
    requires Runnable(s, ls) && m <= |ls|
    decreases m
  {
    if m == 0 then s else At(Apply(s, ls[0]), ls[1..], m - 1)
  }

  lemma {:induction false} AtNext(s: State, ls: seq<Label>, m: nat)
    requires Runnable(s, ls) && m < |ls|
    ensures Enabled(At(s, ls, m), ls[m]) && At(s, ls, m + 1) == Apply(At(s, ls, m), ls[m])
    decreases m
  {
    hide Enabled, Apply;
    var r := Apply(s, ls[0]);
    if m == 0 {
      assert At(r, ls[1..], 0) == r;
    } else {
      AtNext(r, ls[1..], m - 1);
    }
  }

  lemma {:induction false} AtInv(s0: State, ls: seq<Label>, m: nat)
    requires Init(s0) && Runnable(s0, ls) && m <= |ls|
    ensures Inv(At(s0, ls, m)) && |At(s0, ls, m).ops| == |s0.ops|
  {
    hide Inv, Init, Apply, Enabled, Runnable;
    if m == 0 {
      InitInv(s0);
    } else {
      hide At;
      AtInv(s0, ls, m - 1);
      AtNext(s0, ls, m - 1);
      StepInv(At(s0, ls, m - 1), ls[m - 1]);
      StepOps(At(s0, ls, m - 1), ls[m - 1]);
    }
  }

  // ---------------------------------------------------------------- only the caller moves

  /** Only thread t's program counter moves. */
  ghost predicate MovesOnly(s: State, s': State, t: Tid) {
    t < |s.ops| && |s'.ops| == |s.ops| && s'.ops == s.ops[t := s'.ops[t]]
  }

  lemma ClientOps(s: State, l: ClientStep)
    requires ClientEnabled(s, l)
    ensures ApplyClient(s, l).ops == s.ops && ApplyClient(s, l).cells == s.cells
  {
  }

  lemma ReclaimOps(s: State, l: ReclaimStep)
    requires ReclaimEnabled(s, l)
    ensures ApplyReclaim(s, l).ops == s.ops && ApplyReclaim(s, l).cells == s.cells
  {
  }

  lemma MoveIntoDoes(s: State, t: Tid, c: CellId, src: CellVal, said: Answer)
    requires IsThread(s, t) && CellReady(s, c) && Movable(s, c, src)
    ensures var s' := MoveInto(s, t, c, src, said);
            && s'.ops == s.ops[t := AfterMove(t, c, s.cells[c], said)]
            && s'.cells == s.cells[c := src]
  {
    hide Unpinned, AfterMove;
  }

  lemma CopyIntoDoes(s: State, t: Tid, c: CellId, o: Obj, j: Slot)
    requires CellReady(s, c) && HasObj(s, o)
    ensures var s' := CopyInto(s, t, c, o, j);
            && s'.ops == s.ops && s'.now >= 1 && s'.cells.Keys == s.cells.Keys
            && Target(s'.cells[c]) == Some(o) && forall c2 :: c2 in s.cells && c2 != c ==> s'.cells[c2] == s.cells[c2]
  {
  }

  lemma GoSlotOps(s: State, t: Tid)
    requires GoEnabled(s, t)
    requires s.ops[t].Begin? || s.ops[t].Loaded? || s.ops[t].Announced? || s.ops[t].Recheck? || s.ops[t].Finish?
    ensures MovesOnly(s, GoStep(s, t), t) && GoStep(s, t).cells == s.cells && !GoStep(s, t).ops[t].Reserved?
  {
  }

  lemma GoReadOps(s: State, t: Tid)
    requires GoEnabled(s, t) && (s.ops[t].TakeRef? || s.ops[t].TryRef? || s.ops[t].CheckUse?)
    ensures MovesOnly(s, GoStep(s, t), t) && GoStep(s, t).cells == s.cells && !GoStep(s, t).ops[t].Reserved?
  {
  }

  lemma GoRefOps(s: State, t: Tid)
    requires GoEnabled(s, t) && (s.ops[t].Retiring? || s.ops[t].CasRetire? || s.ops[t].CopyInc?)
    ensures MovesOnly(s, GoStep(s, t), t) && GoStep(s, t).cells == s.cells && !GoStep(s, t).ops[t].Reserved?
  {
  }

  lemma GoOps(s: State, t: Tid)
    requires GoEnabled(s, t)
    ensures MovesOnly(s, GoStep(s, t), t) && GoStep(s, t).cells == s.cells && !GoStep(s, t).ops[t].Reserved?
  {
    hide GoStep, MovesOnly;
    if s.ops[t].TakeRef? || s.ops[t].TryRef? || s.ops[t].CheckUse? { GoReadOps(s, t); }
    else if s.ops[t].Retiring? || s.ops[t].CasRetire? || s.ops[t].CopyInc? { GoRefOps(s, t); }
    else { GoSlotOps(s, t); }
  }

  // ---------------------------------------------------------------- the cells

  /** The call that this step makes on a cell, if it writes one: the cell, what a compare_and_swap expects to find
      there, and what is to be put there. */
  datatype Write = NoWrite | Store(c: CellId, v: Option<Obj>) | Cas(c: CellId, expected: Option<Obj>, v: Option<Obj>)

  /** `reserved` is the object that a compare_and_swap through a reservation puts there. */
  function WriteOf(s: State, l: CallStep, reserved: Option<Obj>): Write {
    match l
    case StoreMove(_, c, src) => Store(c, Target(src))
    case CasMove(_, c, expected, src) => Cas(c, expected, Target(src))
    case StoreSnap(_, c, j) => Store(c, if j < |s.slots| then s.slots[j].ann else None)
    case CasSnap(_, c, expected, j) => Cas(c, expected, if j < |s.slots| then s.slots[j].ann else None)
    case CasReserved(_, c, expected) => Cas(c, expected, reserved)
    case _ => NoWrite
  }

  /** A register: a store changes its cell, a compare_and_swap changes it if it finds what it expects, and nothing else
      changes any cell. */
  ghost predicate Registers(s: State, w: Write, s': State) {
    && s'.cells.Keys == s.cells.Keys
    && forall c :: c in s.cells ==>
         Target(s'.cells[c]) == match w
                                case NoWrite => Target(s.cells[c])
                                case Store(d, v) => if c == d then v else Target(s.cells[c])
                                case Cas(d, expected, v) =>
                                  if c == d && Target(s.cells[c]) == expected then v else Target(s.cells[c])
  }

  /** What the write answers: a store nothing, a compare_and_swap whether it found what it expected. */
  function AnswerOf(s: State, w: Write): Answer {
    match w
    case NoWrite => NoAnswer
    case Store(_, _) => Stored
    case Cas(c, expected, _) => Swapped(c in s.cells && Target(s.cells[c]) == expected)
  }

  /** The thread has the answer, or will give it when the call returns. */
  predicate WillSay(op: Op, said: Answer) {
    match op
    case Idle(a) => a == said
    case Finish(_, again, a) => again == None && a == said
    case Retiring(_, _, a) => a == said
    case CasRetire(_, _, _, _, _, _) => said == Swapped(true)
    case CopyInc(_, _, _, _, _, _, a) => a == said
    case _ => false
  }

  /** What a call does that is not a step inside one. */
  ghost predicate WriteDone(s: State, l: CallStep, w: Write, s': State) {
    && MovesOnly(s, s', l.t) && Registers(s, w, s')
    && (!w.NoWrite? ==> WillSay(s'.ops[l.t], AnswerOf(s, w)))
  }

  lemma MoveWrites(s: State, l: CallStep)
    requires CallEnabled(s, l) && (l.StoreMove? || l.CasMove?)
    ensures WriteDone(s, l, WriteOf(s, l, None), ApplyCall(s, l))
  {
    hide MoveInto, Unpinned, Movable, CellReady;
    ReadyCell(s, l.c);
    MoveIntoDoes(s, l.t, l.c, l.src, if l.StoreMove? then Stored else Swapped(true));
  }

  lemma StoreCopies(s: State, t: Tid, c: CellId, j: Slot, o: Obj)
    requires IsThread(s, t) && CellReady(s, c) && HasObj(s, o)
    ensures var s', w := DoStoreSnap(s, t, c, j, o), Store(c, Some(o));
            && MovesOnly(s, s', t) && Registers(s, w, s') && WillSay(s'.ops[t], AnswerOf(s, w))
  {
    hide CopyInto, CellReady;
    ReadyCell(s, c);
    CopyIntoDoes(s, t, c, o, j);
  }

  lemma CasCopies(s: State, t: Tid, c: CellId, expected: Option<Obj>, j: Slot, o: Obj, rel: bool)
    requires IsThread(s, t) && CellReady(s, c) && HasObj(s, o)
    ensures var s', w := DoCopyCas(s, t, c, expected, j, o, rel), Cas(c, expected, Some(o));
            && MovesOnly(s, s', t) && Registers(s, w, s') && WillSay(s'.ops[t], AnswerOf(s, w))
  {
    hide CopyInto, CellReady;
    ReadyCell(s, c);
    CopyIntoDoes(s, t, c, o, j);
  }

  lemma QuietWrites(s: State, l: CallStep)
    requires CallEnabled(s, l) && (l.Start? || l.Reserve?)
    ensures WriteDone(s, l, NoWrite, ApplyCall(s, l))
  {
  }

  lemma WriteStep(s: State, l: CallStep, reserved: Option<Obj>)
    requires CallEnabled(s, l) && !l.Go?
    requires l.CasReserved? ==> reserved == Some(s.ops[l.t].o)
    ensures WriteDone(s, l, WriteOf(s, l, reserved), ApplyCall(s, l))
  {
    hide MoveInto, DoStoreSnap, DoCopyCas, Unpinned, Movable, CellReady, Registers, MovesOnly, WillSay, AnswerOf;
    match l {
      case Start(_, _, _, _) => QuietWrites(s, l);
      case Reserve(_, _, _, _) => QuietWrites(s, l);
      case StoreMove(t, c, src) => MoveWrites(s, l);
      case CasMove(t, c, _, src) => MoveWrites(s, l);
      case StoreSnap(t, c, j) => StoreCopies(s, t, c, j, s.slots[j].ann.value);
      case CasSnap(t, c, e, j) => CasCopies(s, t, c, e, j, s.slots[j].ann.value, false);
      case CasReserved(t, c, e) => CasCopies(s, t, c, e, SLOTS * t, s.ops[t].o, true);
    }
  }

  lemma ReadyCell(s: State, c: CellId)
    requires CellReady(s, c)
    ensures c in s.cells
  {
  }

  lemma StepOps(s: State, l: Label)
    requires Enabled(s, l)
    ensures |Apply(s, l).ops| == |s.ops|
    ensures if l.Call? then MovesOnly(s, Apply(s, l), l.call.t) else Apply(s, l).ops == s.ops
  {
    hide ClientEnabled, ReclaimEnabled, CallEnabled, ApplyClient, ApplyReclaim, GoStep, GoEnabled, ApplyCall;
    match l {
      case Client(a) => ClientOps(s, a);
      case Reclaim(a) => ReclaimOps(s, a);
      case Call(a) => CallOps(s, a);
    }
  }

  lemma CallOps(s: State, l: CallStep)
    requires CallEnabled(s, l)
    ensures MovesOnly(s, ApplyCall(s, l), l.t)
  {
    if l.Go? {
      hide GoStep, MovesOnly;
      GoOps(s, l.t);
    } else {
      hide ApplyCall, Registers, WillSay;
      WriteStep(s, l, ReservedNow(s, l));
    }
  }

  function ReservedNow(s: State, l: CallStep): Option<Obj> {
    if l.t < |s.ops| && s.ops[l.t].Reserved? then Some(s.ops[l.t].o) else None
  }

  // ---------------------------------------------------------------- every run

  lemma StepCells(s: State, l: Label, reserved: Option<Obj>)
    requires Enabled(s, l) && (l.Call? && l.call.CasReserved? ==> reserved == Some(s.ops[l.call.t].o))
    ensures Registers(s, if l.Call? then WriteOf(s, l.call, reserved) else NoWrite, Apply(s, l))
  {
    hide ClientEnabled, ReclaimEnabled, ApplyClient, ApplyReclaim, GoStep, GoEnabled, WillSay, AnswerOf;
    match l {
      case Client(a) => ClientOps(s, a);
      case Reclaim(a) => ReclaimOps(s, a);
      case Call(a) => if a.Go? { GoOps(s, a.t); } else { hide ApplyCall, Registers; WriteStep(s, a, reserved); }
    }
  }

  /** The object that thread t has last reserved, by its calls. */
  ghost function LastReserved(ls: seq<Label>, t: Tid, m: nat): Option<Obj>
    requires m <= |ls|
  {
    if m == 0 then None
    else if ls[m - 1].Call? && ls[m - 1].call.Reserve? && ls[m - 1].call.t == t then Some(ls[m - 1].call.o)
    else LastReserved(ls, t, m - 1)
  }

  lemma ReservedStep(s: State, l: Label, t: Tid)
    requires Enabled(s, l) && t < |s.ops|
    ensures |Apply(s, l).ops| == |s.ops|
    ensures Apply(s, l).ops[t].Reserved? ==>
              if l.Call? && l.call.Reserve? && l.call.t == t then Apply(s, l).ops[t].o == l.call.o
              else Apply(s, l).ops[t] == s.ops[t]
  {
    hide GoStep, ClientEnabled, ReclaimEnabled, CallEnabled, ApplyClient, ApplyReclaim, ApplyCall;
    StepOps(s, l);
    if l.Call? && l.call.t == t { OwnReserved(s, l.call); }
  }

  lemma OwnReserved(s: State, l: CallStep)
    requires CallEnabled(s, l)
    ensures l.t < |ApplyCall(s, l).ops| && l.t < |s.ops|
    ensures ApplyCall(s, l).ops[l.t].Reserved? ==> if l.Reserve? then ApplyCall(s, l).ops[l.t].o == l.o else false
  {
    hide GoStep, MoveInto, DoStoreSnap, DoCopyCas, WillSay;
    if l.Go? {
      GoOps(s, l.t);
    } else if !l.Start? && !l.Reserve? {
      hide ApplyCall;
      var w := WriteOf(s, l, ReservedNow(s, l));
      WriteStep(s, l, ReservedNow(s, l));
      SaysNotReserved(ApplyCall(s, l).ops[l.t], AnswerOf(s, w));
    }
  }

  lemma SaysNotReserved(op: Op, said: Answer)
    requires WillSay(op, said)
    ensures !op.Reserved? && !op.Begin? && !op.Loaded?
  {
  }

  lemma {:induction false} ReservedAt(s0: State, ls: seq<Label>, t: Tid, m: nat)
    requires Init(s0) && Runnable(s0, ls) && m <= |ls| && t < |At(s0, ls, m).ops| && At(s0, ls, m).ops[t].Reserved?
    ensures LastReserved(ls, t, m) == Some(At(s0, ls, m).ops[t].o)
  {
    hide Inv, Apply, Enabled, Runnable, Init, At;
    NoneReservedAtFirst(s0, ls);
    if m == 0 {
      assert false;
    }
    AtNext(s0, ls, m - 1);
    StepOps(At(s0, ls, m - 1), ls[m - 1]);
    ReservedStep(At(s0, ls, m - 1), ls[m - 1], t);
    if !(ls[m - 1].Call? && ls[m - 1].call.Reserve? && ls[m - 1].call.t == t) { ReservedAt(s0, ls, t, m - 1); }
  }

  lemma NoneReservedAtFirst(s0: State, ls: seq<Label>)
    requires Init(s0) && Runnable(s0, ls)
    ensures forall t :: 0 <= t < |At(s0, ls, 0).ops| ==> At(s0, ls, 0).ops[t] == Idle(NoAnswer)
  {
    hide Runnable;
  }

  /** What step m of the run is to write. */
  ghost function WriteAt(s0: State, ls: seq<Label>, m: nat): Write
    requires Runnable(s0, ls) && m < |ls|
  {
    if ls[m].Call? then WriteOf(At(s0, ls, m), ls[m].call, LastReserved(ls, ls[m].call.t, m)) else NoWrite
  }

  /** Every cell is an atomic register. Over every run: a store, of a reference or of a snapshot, makes its cell point
      to the object it was given; a compare_and_swap does so if and only if the cell points to the object it expects;
      and nothing else changes what any cell points to. */
  lemma CellsAreRegisters(s0: State, ls: seq<Label>, m: nat)
    requires Init(s0) && Runnable(s0, ls) && m < |ls|
    ensures Registers(At(s0, ls, m), WriteAt(s0, ls, m), At(s0, ls, m + 1))
  {
    hide Inv, Apply, Runnable, Init, At, Registers, LastReserved;
    var s, l := At(s0, ls, m), ls[m];
    AtNext(s0, ls, m);
    if l.Call? && l.call.CasReserved? { EnabledReserved(s, l.call); ReservedAt(s0, ls, l.call.t, m); }
    hide Enabled;
    StepCells(s, l, if l.Call? then LastReserved(ls, l.call.t, m) else None);
  }

  lemma EnabledReserved(s: State, l: CallStep)
    requires CallEnabled(s, l) && l.CasReserved?
    ensures l.t < |s.ops| && s.ops[l.t].Reserved?
  {
  }

  // ---------------------------------------------------------------- what stores and compare_and_swaps answer

  /** The steps that begin a call of thread t, or its write: all calls but the steps inside one. */
  predicate Calls(l: Label, t: Tid) { l.Call? && l.call.t == t && !l.call.Go? }

  /** Label p is the call that thread t is in, or has last returned from, after m steps. */
  ghost predicate InCall(ls: seq<Label>, p: nat, t: Tid, m: nat) {
    p < m <= |ls| && Calls(ls[p], t) && forall j :: p < j < m ==> !Calls(ls[j], t)
  }

  lemma SaysOnRetiring(s: State, t: Tid, said: Answer)
    requires GoEnabled(s, t) && WillSay(s.ops[t], said) && (s.ops[t].Retiring? || s.ops[t].CasRetire?)
    ensures t < |GoStep(s, t).ops| && WillSay(GoStep(s, t).ops[t], said)
  {
  }

  lemma SaysOnRest(s: State, t: Tid, said: Answer)
    requires GoEnabled(s, t) && WillSay(s.ops[t], said) && (s.ops[t].Finish? || s.ops[t].CopyInc?)
    ensures t < |GoStep(s, t).ops| && WillSay(GoStep(s, t).ops[t], said)
  {
  }

  lemma SaysOn(s: State, t: Tid, said: Answer)
    requires GoEnabled(s, t) && WillSay(s.ops[t], said)
    ensures t < |GoStep(s, t).ops| && WillSay(GoStep(s, t).ops[t], said)
  {
    hide GoStep;
    if s.ops[t].Retiring? || s.ops[t].CasRetire? { SaysOnRetiring(s, t, said); } else { SaysOnRest(s, t, said); }
  }

  lemma SaysStep(s: State, l: Label, t: Tid, said: Answer)
    requires Enabled(s, l) && !Calls(l, t) && t < |s.ops| && WillSay(s.ops[t], said)
    ensures |Apply(s, l).ops| == |s.ops| && WillSay(Apply(s, l).ops[t], said)
  {
    hide GoStep, GoEnabled, ClientEnabled, ReclaimEnabled, ApplyClient, ApplyReclaim, WillSay;
    StepOps(s, l);
    if l.Call? && l.call.t == t { SaysOn(s, t, said); }
  }

  /** Over every run: when a store returns, it answers nothing; when a compare_and_swap returns, it says whether it
      found what it expected, that is, whether it changed the cell. */
  lemma {:induction false} WritesAnswerTruly(s0: State, ls: seq<Label>, p: nat, t: Tid, m: nat)
    requires Init(s0) && Runnable(s0, ls) && InCall(ls, p, t, m) && !WriteAt(s0, ls, p).NoWrite?
    ensures t < |At(s0, ls, m).ops|
    ensures At(s0, ls, m).ops[t].Idle? ==> At(s0, ls, m).ops[t].said == AnswerOf(At(s0, ls, p), WriteAt(s0, ls, p))
    ensures WillSay(At(s0, ls, m).ops[t], AnswerOf(At(s0, ls, p), WriteAt(s0, ls, p)))
  {
    hide Inv, Apply, Runnable, Init, At, LastReserved, AnswerOf, WriteOf, Enabled;
    AtNext(s0, ls, m - 1);
    AtInv(s0, ls, m - 1);
    if p < m - 1 {
      WritesAnswerTruly(s0, ls, p, t, m - 1);
      SaysStep(At(s0, ls, m - 1), ls[m - 1], t, AnswerOf(At(s0, ls, p), WriteAt(s0, ls, p)));
    } else {
      WriteSays(s0, ls, p, t);
    }
  }

  lemma WriteSays(s0: State, ls: seq<Label>, p: nat, t: Tid)
    requires Init(s0) && Runnable(s0, ls) && p < |ls| && Calls(ls[p], t) && !WriteAt(s0, ls, p).NoWrite?
    ensures t < |At(s0, ls, p + 1).ops|
    ensures WillSay(At(s0, ls, p + 1).ops[t], AnswerOf(At(s0, ls, p), WriteAt(s0, ls, p)))
  {
    hide Inv, ApplyCall, Runnable, Init, At, LastReserved, WillSay, AnswerOf, Registers;
    var s, l := At(s0, ls, p), ls[p];
    AtNext(s0, ls, p);
    if l.call.CasReserved? { EnabledReserved(s, l.call); ReservedAt(s0, ls, t, p); }
    hide CallEnabled;
    WriteStep(s, l.call, LastReserved(ls, t, p));
  }
}
