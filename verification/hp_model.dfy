/** Deferred reference counting over the hazard-pointer backend, as one interleaving machine
    (include/cdrc/internal/smr/acquire_retire.h with atomic_rc_ptr.h, atomic_weak_ptr.h,
    internal/memory_manager_base.h and internal/counted_object.h).

    Threads, objects, cells and announcement slots are arbitrary in number. Every atomic access is one step:
    the loads and stores of acquire and protect_snapshot, the exchange or CAS of a cell, each count change,
    and each slot read by a reclamation pass. A step of one thread may come between any two steps of others.

    Book-keeping that no branch of the code reads:
    - Every reference has a ticket, the clock value at which it was created. A counter keeps the table of
      its live tickets with the place each one sits in: a cell, an rc_ptr or counted snapshot, the hand of a
      thread that took it out of a cell, or some thread's deferred list.
    - A counter's debts are the copying CAS and protected-store calls that have put a pointer in a cell and
      have not yet incremented the count.
 */
module HpModel {
  import opened Options

  type Obj = nat
  type Tid = nat
  type Slot = nat
  type Ticket = nat

  /** Strong cells are atomic_rc_ptrs, weak cells are atomic_weak_ptrs. */
  datatype Kind = Strong | Weak
  datatype CellId = CellId(kind: Kind, n: nat)
  datatype CellVal = Null | Holds(o: Obj, i: Ticket)

  /** The three kinds of deferred action (RetireType). */
  datatype Action = DecStrong | DecWeak | Dispose

  datatype Place = InCell(c: CellId) | Owned | Hand(t: Tid) | Defer(t: Tid, at: nat)

  // ---------------------------------------------------------------- announcement slots

  /** What a weak snapshot's reader learnt of the use count. */
  datatype Use = Unread | Positive | Zero

  /** Why a slot's announcement counts: it was validated against a cell (which then held ticket w), or it
      reserves the pointer of an rc_ptr or weak_ptr that the caller keeps alive. */
  datatype Prot = NoProt | Valid(kind: Kind, w: Ticket, use: Use) | Pinned(kind: Kind, i: Ticket)

  datatype SlotState = SlotState(ann: Option<Obj>, at: nat, prot: Prot)

  const SLOTS: nat := 8   // one announcement and seven snapshot slots for each thread

  // ---------------------------------------------------------------- counters and objects

  datatype Debt = Debt(slot: Slot, tk: Ticket)

  /** The latest-starting pass that ejected a decrement of this counter: who ran it, when it started, which
      slots it saw announcing the object, and the tickets of this counter it had kept by then. */
  datatype Last = Last(z: Tid, start: nat, seen: set<Slot>, kept: set<Ticket>)

  datatype Counter = Counter(cnt: nat, tok: map<Ticket, Place>, deb: map<Tid, Debt>, last: Last)

  /** Live: the strong counter is not stuck at zero.  Expired: stuck, and no decrement has claimed it yet.
      Claimed: some release_refs is about to read the weak count.  Delayed: disposal retired.
      Disposed: the managed object is destroyed.  Doomed: and the control block is about to be deleted. */
  datatype Phase = Free | Live | Expired | Claimed(t: Tid) | Delayed | Disposed | Doomed

  /** Who holds the one weak reference that stands for all strong ones. */
  datatype Shared = Implicit | Retired(t: Tid, at: nat) | Gone

  datatype Object = Object(phase: Phase, strong: Counter, weak: Counter, shared: Shared)

  function CounterOf(r: Object, k: Kind): Counter { if k.Strong? then r.strong else r.weak }
  function WithCounter(r: Object, k: Kind, c: Counter): Object { if k.Strong? then r.(strong := c) else r.(weak := c) }

  // ---------------------------------------------------------------- threads

  datatype Goal = LoadRef | Snapshot | CountedSnapshot

  /** What a call answers: a store nothing, a compare_and_swap whether it swapped, load and a counted snapshot a null or
      a reference with its ticket, and a snapshot in a slot the object or null. */
  datatype Answer =
    | NoAnswer
    | Stored
    | Swapped(ok: bool)
    | Reference(k: Kind, v: CellVal)
    | SnapshotOf(r: Option<Obj>)

  /** `said` is what the call answers when it returns; an idle thread has it from its last call. */
  datatype Op =
    | Idle(said: Answer)
    | Begin(c: CellId, j: Slot, g: Goal)                    // about to load the cell
    | Loaded(c: CellId, j: Slot, g: Goal, r: Option<Obj>)   // about to announce
    | Announced(c: CellId, j: Slot, g: Goal, r: Option<Obj>)// about to read the cell again
    | TakeRef(c: CellId, j: Slot, o: Obj)                   // load(): about to increment
    | TryRef(c: CellId, j: Slot, o: Obj)                    // no free slot: about to try a strong increment
    | CheckUse(c: CellId, j: Slot, o: Obj)                  // weak snapshot: about to read the use count
    | Recheck(c: CellId, j: Slot, o: Obj, g: Goal)          // found it zero: about to read the cell again
    | Finish(j: Slot, again: Option<(CellId, Goal)>, said: Answer)   // about to clear the slot
    | Retiring(k: Kind, prev: CellVal, said: Answer)        // about to retire what it took out of a cell
    | Reserved(k: Kind, o: Obj, i: Ticket)                  // reservation announced, about to CAS
    // CAS done: retire, then increment
    | CasRetire(k: Kind, o: Obj, j: Slot, tk: Ticket, rel: bool, prev: CellVal)
    // about to increment, then retire
    | CopyInc(k: Kind, o: Obj, j: Slot, tk: Ticket, rel: bool, prev: CellVal, said: Answer)

  /** A reclamation pass in progress. It works on the entries its thread deferred before `start`. */
  datatype Pass = NoPass | Pass(start: nat, next: Slot, seen: map<Slot, Obj>,
                                announced: map<(Obj, Action), nat>, kept: map<(Obj, Action), set<Ticket>>)

  datatype State = State(now: nat, cells: map<CellId, CellVal>, slots: seq<SlotState>, ops: seq<Op>,
                         passes: seq<Pass>, objs: map<Obj, Object>, bad: bool)

  // ---------------------------------------------------------------- reading the state

  predicate HasObj(s: State, o: Obj) { o in s.objs }

  function Ctr(s: State, o: Obj, k: Kind): Counter
    requires HasObj(s, o)
  {
    CounterOf(s.objs[o], k)
  }

  function Target(v: CellVal): Option<Obj> { match v case Null => None case Holds(o, _) => Some(o) }

  predicate HasTicket(s: State, o: Obj, k: Kind, i: Ticket) { HasObj(s, o) && i in Ctr(s, o, k).tok }

  predicate HasOwned(s: State, o: Obj, k: Kind, i: Ticket) { HasTicket(s, o, k, i) && Ctr(s, o, k).tok[i] == Owned }

  ghost predicate Unpinned(s: State, o: Obj, k: Kind, i: Ticket) {
    forall j :: 0 <= j < |s.slots| ==> !(s.slots[j].ann == Some(o) && s.slots[j].prot == Pinned(k, i))
  }

  predicate IsThread(s: State, t: Tid) { t < |s.ops| && t < |s.passes| }

  // ---------------------------------------------------------------- primitive updates

  function Tick(s: State): State { s.(now := s.now + 1) }

  function SetOp(s: State, t: Tid, op: Op): State
    requires t < |s.ops|
  {
    s.(ops := s.ops[t := op])
  }

  function SetCounter(s: State, o: Obj, k: Kind, c: Counter): State
    requires HasObj(s, o)
  {
    s.(objs := s.objs[o := WithCounter(s.objs[o], k, c)])
  }

  /** increment_ref_cnt / increment_weak_cnt on behalf of a new rc_ptr, weak_ptr or counted snapshot.
      The caller relies on it: a stuck or freed counter would be a fault. */
  function AddRef(s: State, o: Obj, k: Kind): State
    requires HasObj(s, o)
  {
    var c := Ctr(s, o, k);
    var ok := s.objs[o].phase != Free && (k.Strong? ==> s.objs[o].phase.Live?) && c.cnt >= 1;
    Tick(SetCounter(s, o, k, c.(cnt := c.cnt + 1, tok := c.tok[s.now := Owned])).(bad := s.bad || !ok))
  }

  /** weak_ptr::lock and the like: a strong increment that fails exactly when the counter is stuck. */
  function TryAddStrong(s: State, o: Obj): State
    requires HasObj(s, o)
  {
    var c := s.objs[o].strong;
    if s.objs[o].phase.Live? then
      Tick(SetCounter(s, o, Strong, c.(cnt := c.cnt + 1, tok := c.tok[s.now := Owned])))
    else
      Tick(s.(bad := s.bad || s.objs[o].phase == Free))
  }

  /** The count falls by one with ticket i: decrement_ref_cnt or decrement_weak_cnt, which assert that the
      count is at least one. */
  function Release(s: State, o: Obj, k: Kind, i: Ticket): State
    requires HasTicket(s, o, k, i)
  {
    var c := Ctr(s, o, k);
    var ok := s.objs[o].phase != Free && c.cnt >= 1;
    Tick(SetCounter(s, o, k, c.(cnt := if c.cnt >= 1 then c.cnt - 1 else 0, tok := c.tok - {i})).(bad := s.bad || !ok))
  }

  /** Take whatever the cell holds into thread t's hand. */
  function CellOut(s: State, c: CellId, t: Tid): State
    requires c in s.cells && (s.cells[c].Holds? ==> HasObj(s, s.cells[c].o))
  {
    match s.cells[c]
    case Null => Tick(s)
    case Holds(o, i) =>
      var d := Ctr(s, o, c.kind);
      Tick(SetCounter(s, o, c.kind, d.(tok := d.tok[i := Hand(t)])).(cells := s.cells[c := Null]))
  }

  /** Move an owned reference into the (emptied) cell. */
  function CellIn(s: State, c: CellId, o: Obj, i: Ticket): State
    requires HasObj(s, o)
  {
    var d := Ctr(s, o, c.kind);
    Tick(SetCounter(s, o, c.kind, d.(tok := d.tok[i := InCell(c)])).(cells := s.cells[c := Holds(o, i)]))
  }

  /** Put a pointer in the (emptied) cell without having counted it: thread t now owes an increment. */
  function CellOwe(s: State, c: CellId, o: Obj, t: Tid, j: Slot): State
    requires HasObj(s, o)
  {
    var d := Ctr(s, o, c.kind);
    Tick(SetCounter(s, o, c.kind, d.(tok := d.tok[s.now := InCell(c)], deb := d.deb[t := Debt(j, s.now)]))
         .(cells := s.cells[c := Holds(o, s.now)]))
  }

  /** The owed increment. */
  function Pay(s: State, o: Obj, k: Kind, t: Tid): State
    requires HasObj(s, o)
  {
    var c := Ctr(s, o, k);
    var ok := s.objs[o].phase != Free && (k.Strong? ==> s.objs[o].phase.Live?) && c.cnt >= 1;
    Tick(SetCounter(s, o, k, c.(cnt := c.cnt + 1, deb := c.deb - {t})).(bad := s.bad || !ok))
  }

  /** delayed_decrement_*: assert that the count is at least one, then append to the thread's deferred list. */
  function Retire(s: State, o: Obj, k: Kind, i: Ticket, t: Tid): State
    requires HasTicket(s, o, k, i)
  {
    var c := Ctr(s, o, k);
    var ok := s.objs[o].phase != Free && c.cnt >= 1;
    Tick(SetCounter(s, o, k, c.(tok := c.tok[i := Defer(t, s.now)])).(bad := s.bad || !ok))
  }

  function Announce(s: State, j: Slot, r: Option<Obj>, prot: Prot): State
    requires j < |s.slots|
  {
    Tick(s.(slots := s.slots[j := SlotState(r, s.now, prot)]))
  }

  function Protect(s: State, j: Slot, prot: Prot): State
    requires j < |s.slots|
  {
    Tick(s.(slots := s.slots[j := s.slots[j].(prot := prot)]))
  }

  function SetPhase(s: State, o: Obj, p: Phase): State
    requires HasObj(s, o)
  {
    Tick(s.(objs := s.objs[o := s.objs[o].(phase := p)]))
  }

  // ---------------------------------------------------------------- the scan table of a pass

  function Bump(m: map<(Obj, Action), nat>, key: (Obj, Action)): map<(Obj, Action), nat> {
    if key in m then m[key := m[key] + 1] else m[key := 2]
  }

  /** One announcement counts for each kind of deferred action; the first one counts twice. */
  function CountAnnouncement(m: map<(Obj, Action), nat>, o: Obj): map<(Obj, Action), nat> {
    Bump(Bump(Bump(m, (o, DecStrong)), (o, DecWeak)), (o, Dispose))
  }

  /** Use up one unit of protection; the key disappears with its last unit. */
  function Spend(m: map<(Obj, Action), nat>, key: (Obj, Action)): map<(Obj, Action), nat>
    requires key in m
  {
    if m[key] <= 1 then m - {key} else m[key := m[key] - 1]
  }

  function ActionOf(k: Kind): Action { if k.Strong? then DecStrong else DecWeak }

  function KeptOf(p: Pass, key: (Obj, Action)): set<Ticket>
    requires p.Pass?
  {
    if key in p.kept then p.kept[key] else {}
  }

  function SeenOf(seen: map<Slot, Obj>, o: Obj): set<Slot> { set j | j in seen && seen[j] == o }

  function Keep(p: Pass, key: (Obj, Action), i: Ticket): Pass
    requires p.Pass? && key in p.announced
  {
    p.(announced := Spend(p.announced, key), kept := p.kept[key := KeptOf(p, key) + {i}])
  }

  /** Counter entry i is among the entries that t's pass still has to judge. */
  predicate Todo(s: State, t: Tid, o: Obj, k: Kind, i: Ticket) {
    && IsThread(s, t) && s.passes[t].Pass? && s.passes[t].next == |s.slots|
    && HasTicket(s, o, k, i)
    && var p := Ctr(s, o, k).tok[i];
    && p.Defer? && p.t == t && p.at < s.passes[t].start
    && i !in KeptOf(s.passes[t], (o, ActionOf(k)))
  }

  predicate TodoDispose(s: State, t: Tid, o: Obj) {
    && IsThread(s, t) && s.passes[t].Pass? && s.passes[t].next == |s.slots|
    && HasObj(s, o)
    && var p := s.objs[o].shared;
    && p.Retired? && p.t == t && p.at < s.passes[t].start
    && p.at !in KeptOf(s.passes[t], (o, Dispose))
  }

  function NewLast(l: Last, t: Tid, p: Pass, o: Obj, k: Kind): Last
    requires p.Pass?
  {
    if l.start < p.start then Last(t, p.start, SeenOf(p.seen, o), KeptOf(p, (o, ActionOf(k)))) else l
  }

  /** The pass ejects a deferred decrement. */
  function EjectCount(s: State, t: Tid, o: Obj, k: Kind, i: Ticket): State
    requires Todo(s, t, o, k, i)
  {
    var c := Ctr(s, o, k);
    Release(SetCounter(s, o, k, c.(last := NewLast(c.last, t, s.passes[t], o, k))), o, k, i)
  }

  /** The pass ejects a delayed disposal: dispose asserts that the use count is zero, destroys the managed
      object and releases the shared weak reference. */
  function EjectDispose(s: State, o: Obj): State
    requires HasObj(s, o)
  {
    var r := s.objs[o];
    var ok := r.phase == Delayed && r.strong.cnt == 0 && r.weak.cnt >= 1;
    Tick(s.(objs := s.objs[o := r.(phase := Disposed, shared := Gone,
                                   weak := r.weak.(cnt := if r.weak.cnt >= 1 then r.weak.cnt - 1 else 0))],
            bad := s.bad || !ok))
  }

  // ---------------------------------------------------------------- steps

  /** What a client does with its rc_ptrs, weak_ptrs and snapshots. */
  datatype ClientStep =
    | Alloc(o: Obj)
    | Clone(o: Obj, k: Kind, i: Ticket, k2: Kind)
    | Lock(o: Obj, i: Ticket)
    | SnapClone(t: Tid, j: Slot, k2: Kind)
    | SnapLock(t: Tid, j: Slot)
    | DropRef(o: Obj, k: Kind, i: Ticket)
    | ClearSnap(t: Tid, j: Slot)

  /** Calls on cells; Go is the next atomic access inside a call. */
  datatype CallStep =
    | Start(t: Tid, c: CellId, j: Slot, g: Goal)
    | StoreMove(t: Tid, c: CellId, src: CellVal)
    | CasMove(t: Tid, c: CellId, expected: Option<Obj>, src: CellVal)
    | StoreSnap(t: Tid, c: CellId, j: Slot)
    | CasSnap(t: Tid, c: CellId, expected: Option<Obj>, j: Slot)
    | Reserve(t: Tid, o: Obj, k: Kind, i: Ticket)
    | CasReserved(t: Tid, c: CellId, expected: Option<Obj>)
    | Go(t: Tid)

  /** Reclamation passes, and what happens to an object whose counts reach zero. */
  datatype ReclaimStep =
    | PassBegin(t: Tid)
    | PassScan(t: Tid)
    | PassCount(t: Tid, o: Obj, k: Kind, i: Ticket)
    | PassDispose(t: Tid, o: Obj)
    | PassEnd(t: Tid)
    | StickZero(o: Obj)
    | ClaimZero(t: Tid, o: Obj)
    | Judge(t: Tid, o: Obj)
    | WeakZero(o: Obj)
    | Delete(o: Obj)

  datatype Label = Client(client: ClientStep) | Call(call: CallStep) | Reclaim(reclaim: ReclaimStep)

  predicate OwnSlot(s: State, t: Tid, j: Slot) { j < |s.slots| && j / SLOTS == t }

  /** A live snapshot in thread t's slot j. */
  predicate HasSnapshot(s: State, t: Tid, j: Slot) {
    && OwnSlot(s, t, j) && j % SLOTS != 0
    && s.slots[j].ann.Some? && HasObj(s, s.slots[j].ann.value)
    && s.slots[j].prot.Valid?
  }

  ghost predicate Movable(s: State, c: CellId, src: CellVal) {
    src.Holds? ==> HasOwned(s, src.o, c.kind, src.i) && Unpinned(s, src.o, c.kind, src.i)
  }

  predicate CellReady(s: State, c: CellId) {
    c in s.cells && (s.cells[c].Holds? ==> HasTicket(s, s.cells[c].o, c.kind, s.cells[c].i))
  }

  predicate IdleThread(s: State, t: Tid) { IsThread(s, t) && s.ops[t].Idle? }

  ghost predicate GoEnabled(s: State, t: Tid) {
    && IsThread(s, t)
    && match s.ops[t]
       case Idle(_) => false
       case Begin(c, j, g) => c in s.cells
       case Loaded(c, j, g, r) => j < |s.slots|
       case Announced(c, j, g, r) => c in s.cells && j < |s.slots|
       case TakeRef(c, j, o) => HasObj(s, o)
       case TryRef(c, j, o) => HasObj(s, o) && j < |s.slots| && s.slots[j].prot.Valid?
       case CheckUse(c, j, o) => HasObj(s, o) && j < |s.slots| && s.slots[j].prot.Valid?
       case Recheck(c, j, o, g) => c in s.cells
       case Finish(j, again, _) => j < |s.slots|
       case Retiring(k, prev, _) => prev.Holds? && HasTicket(s, prev.o, k, prev.i)
       case Reserved(k, o, i) => false
       case CasRetire(k, o, j, tk, rel, prev) => prev.Holds? && HasTicket(s, prev.o, k, prev.i)
       case CopyInc(k, o, j, tk, rel, prev, _) => HasObj(s, o)
  }

  ghost predicate ClientEnabled(s: State, l: ClientStep) {
    match l
    case Alloc(o) => HasObj(s, o) && s.objs[o].phase == Free
    case Clone(o, k, i, k2) => HasOwned(s, o, k, i) && (k2.Strong? ==> k.Strong?)
    case Lock(o, i) => HasOwned(s, o, Weak, i)
    case SnapClone(t, j, k2) => IdleThread(s, t) && HasSnapshot(s, t, j)
        && (k2.Strong? ==> s.slots[j].prot.kind.Strong?)
    case SnapLock(t, j) => IdleThread(s, t) && HasSnapshot(s, t, j)
    case DropRef(o, k, i) => HasOwned(s, o, k, i) && Unpinned(s, o, k, i)
    case ClearSnap(t, j) => IdleThread(s, t) && HasSnapshot(s, t, j)
  }

  ghost predicate CallEnabled(s: State, l: CallStep) {
    match l
    case Start(t, c, j, g) =>
      && IdleThread(s, t) && c in s.cells && OwnSlot(s, t, j)
      && (if g == Snapshot then j % SLOTS != 0 && s.slots[j].ann == None else j % SLOTS == 0)
      && (g == CountedSnapshot ==> forall m :: j < m < j + SLOTS && m < |s.slots| ==> s.slots[m].ann.Some?)
    case StoreMove(t, c, src) => IdleThread(s, t) && CellReady(s, c) && Movable(s, c, src)
    case CasMove(t, c, expected, src) => IdleThread(s, t) && CellReady(s, c) && Movable(s, c, src)
    case StoreSnap(t, c, j) => IdleThread(s, t) && CellReady(s, c) && HasSnapshot(s, t, j) && c.kind.Strong?
        && s.slots[j].prot.kind.Strong?
    case CasSnap(t, c, expected, j) => IdleThread(s, t) && CellReady(s, c) && HasSnapshot(s, t, j)
        && (c.kind.Strong? ==> s.slots[j].prot.kind.Strong?)
    case Reserve(t, o, k, i) => IdleThread(s, t) && HasOwned(s, o, k, i) && OwnSlot(s, t, SLOTS * t)
    case CasReserved(t, c, expected) => IsThread(s, t) && s.ops[t].Reserved? && CellReady(s, c)
        && HasObj(s, s.ops[t].o) && (c.kind.Strong? ==> s.ops[t].k.Strong?)
    case Go(t) => GoEnabled(s, t)
  }

  ghost predicate ReclaimEnabled(s: State, l: ReclaimStep) {
    match l
    case PassBegin(t) => IsThread(s, t) && s.passes[t] == NoPass
    case PassScan(t) => IsThread(s, t) && s.passes[t].Pass? && s.passes[t].next < |s.slots|
    case PassCount(t, o, k, i) => Todo(s, t, o, k, i)
    case PassDispose(t, o) => TodoDispose(s, t, o)
    case PassEnd(t) =>
      && IsThread(s, t) && s.passes[t].Pass? && s.passes[t].next == |s.slots|
      && (forall o, k, i :: HasTicket(s, o, k, i) ==> !Todo(s, t, o, k, i))
      && (forall o :: HasObj(s, o) ==> !TodoDispose(s, t, o))
    case StickZero(o) => HasObj(s, o) && s.objs[o].phase.Live? && s.objs[o].strong.cnt == 0
    case ClaimZero(t, o) => IsThread(s, t) && HasObj(s, o) && s.objs[o].phase.Expired?
    case Judge(t, o) => IsThread(s, t) && HasObj(s, o) && s.objs[o].phase == Claimed(t)
    case WeakZero(o) => HasObj(s, o) && s.objs[o].phase !in {Free, Doomed} && s.objs[o].weak.cnt == 0
    case Delete(o) => HasObj(s, o) && s.objs[o].phase.Doomed?
  }

  /** After an exchange or a successful CAS that moved a reference in: retire what came out. */
  function AfterMove(t: Tid, c: CellId, prev: CellVal, said: Answer): Op {
    if prev.Holds? then Retiring(c.kind, prev, said) else Idle(said)
  }

  function MoveInto(s: State, t: Tid, c: CellId, src: CellVal, said: Answer): State
    requires IsThread(s, t) && CellReady(s, c) && Movable(s, c, src)
  {
    var out := CellOut(s, c, t);
    var into := if src.Holds? then CellIn(out, c, src.o, src.i) else out;
    SetOp(into, t, AfterMove(t, c, s.cells[c], said))
  }

  /** After a successful copying CAS: retire what came out, then increment. */
  function AfterCopy(k: Kind, o: Obj, j: Slot, tk: Ticket, rel: bool, prev: CellVal): Op {
    if prev.Holds? then CasRetire(k, o, j, tk, rel, prev) else CopyInc(k, o, j, tk, rel, Null, Swapped(true))
  }

  function CopyInto(s: State, t: Tid, c: CellId, o: Obj, j: Slot): State
    requires CellReady(s, c) && HasObj(s, o)
  {
    CellOwe(CellOut(s, c, t), c, o, t, j)
  }

  function NullSnapshot(g: Goal): Answer { if g.Snapshot? then SnapshotOf(None) else Reference(Strong, Null) }

  function AfterInc(k: Kind, j: Slot, rel: bool, prev: CellVal, said: Answer): Op {
    if rel then Finish(j, None, said) else if prev.Holds? then Retiring(k, prev, said) else Idle(said)
  }

  /** The thread's next step inside a call. */
  function GoStep(s: State, t: Tid): State
    requires GoEnabled(s, t)
  {
    match s.ops[t]
    case Begin(c, j, g) =>
      SetOp(Tick(s), t, Loaded(c, j, g, Target(s.cells[c])))
    case Loaded(c, j, g, r) =>
      if g == Snapshot && r == None then SetOp(Announce(s, j, None, NoProt), t, Idle(SnapshotOf(None)))
      else SetOp(Announce(s, j, r, NoProt), t, Announced(c, j, g, r))
    case Announced(c, j, g, r) =>
      if Target(s.cells[c]) != r then SetOp(Tick(s), t, Begin(c, j, g))
      else if r == None then
        SetOp(Tick(s), t, Idle(Reference(if g.LoadRef? then c.kind else Strong, Null)))
      else
        var prot := Valid(c.kind, s.cells[c].i, Unread);
        SetOp(Protect(s, j, prot), t,
              match g
              case LoadRef => TakeRef(c, j, r.value)
              case CountedSnapshot => TryRef(c, j, r.value)
              case Snapshot => if c.kind.Strong? then Idle(SnapshotOf(r)) else CheckUse(c, j, r.value))
    case TakeRef(c, j, o) =>
      SetOp(AddRef(s, o, c.kind), t, Finish(j, None, Reference(c.kind, Holds(o, s.now))))
    case TryRef(c, j, o) =>
      if s.objs[o].phase.Live? then
        SetOp(TryAddStrong(s, o), t, Finish(j, None, Reference(Strong, Holds(o, s.now))))
      else SetOp(Protect(TryAddStrong(s, o), j, s.slots[j].prot.(use := Zero)), t, Recheck(c, j, o, CountedSnapshot))
    case CheckUse(c, j, o) =>
      var s1 := s.(bad := s.bad || s.objs[o].phase == Free);
      if s.objs[o].phase.Live? && s.objs[o].strong.cnt >= 1 then
        SetOp(Protect(s1, j, s.slots[j].prot.(use := Positive)), t, Idle(SnapshotOf(Some(o))))
      else
        var s2 := if s.objs[o].phase.Live? then SetPhase(s1, o, Expired) else Tick(s1);
        SetOp(Protect(s2, j, s.slots[j].prot.(use := Zero)), t, Recheck(c, j, o, Snapshot))
    case Recheck(c, j, o, g) =>
      SetOp(Tick(s), t,
            if Target(s.cells[c]) == Some(o) then Finish(j, None, NullSnapshot(g))
            else Finish(j, Some((c, g)), NoAnswer))
    case Finish(j, again, said) =>
      SetOp(Announce(s, j, None, NoProt), t, match again case None => Idle(said) case Some(x) => Begin(x.0, j, x.1))
    case Retiring(k, prev, said) =>
      SetOp(Retire(s, prev.o, k, prev.i, t), t, Idle(said))
    case CasRetire(k, o, j, tk, rel, prev) =>
      SetOp(Retire(s, prev.o, k, prev.i, t), t, CopyInc(k, o, j, tk, rel, Null, Swapped(true)))
    case CopyInc(k, o, j, tk, rel, prev, said) =>
      SetOp(Pay(s, o, k, t), t, AfterInc(k, j, rel, prev, said))
  }

  /** create_object: both counts start at one, the weak one for all strong references together. */
  function DoAlloc(s: State, o: Obj): State
    requires HasObj(s, o)
  {
    var r := s.objs[o];
    var s1 := Tick(s.(objs := s.objs[o := Object(Live, r.strong.(cnt := 0), r.weak.(cnt := 1), Implicit)]));
    var c := s1.objs[o].strong;
    Tick(SetCounter(s1, o, Strong, c.(cnt := c.cnt + 1, tok := c.tok[s1.now := Owned])))
  }

  /** store(const snapshot_ptr&) of a protected snapshot: nothing to count when the cell held the same object. */
  function DoStoreSnap(s: State, t: Tid, c: CellId, j: Slot, o: Obj): State
    requires IsThread(s, t) && CellReady(s, c) && HasObj(s, o)
  {
    if Target(s.cells[c]) == Some(o) then SetOp(Tick(s), t, Idle(Stored))
    else
      var s1 := CopyInto(s, t, c, o, j);
      SetOp(s1, t, CopyInc(c.kind, o, j, s1.now - 1, false, s.cells[c], Stored))
  }

  /** The CAS of a copying compare_and_swap whose desired pointer is announced in slot j. */
  function DoCopyCas(s: State, t: Tid, c: CellId, expected: Option<Obj>, j: Slot, o: Obj, rel: bool): State
    requires IsThread(s, t) && CellReady(s, c) && HasObj(s, o)
  {
    if Target(s.cells[c]) == expected then
      var s1 := CopyInto(s, t, c, o, j);
      SetOp(s1, t, AfterCopy(c.kind, o, j, s1.now - 1, rel, s.cells[c]))
    else SetOp(Tick(s), t, if rel then Finish(j, None, Swapped(false)) else Idle(Swapped(false)))
  }

  function SetPass(s: State, t: Tid, p: Pass): State
    requires t < |s.passes|
  {
    Tick(s.(passes := s.passes[t := p]))
  }

  /** scan_slots reads one slot. */
  function Scanned(p: Pass, x: Option<Obj>): Pass
    requires p.Pass?
  {
    match x
    case None => p.(next := p.next + 1)
    case Some(o) => p.(next := p.next + 1, seen := p.seen[p.next := o], announced := CountAnnouncement(p.announced, o))
  }

  function DoPassCount(s: State, t: Tid, o: Obj, k: Kind, i: Ticket): State
    requires Todo(s, t, o, k, i)
  {
    var key := (o, ActionOf(k));
    if key in s.passes[t].announced then SetPass(s, t, Keep(s.passes[t], key, i)) else EjectCount(s, t, o, k, i)
  }

  function DoPassDispose(s: State, t: Tid, o: Obj): State
    requires TodoDispose(s, t, o)
  {
    var key := (o, Dispose);
    if key in s.passes[t].announced then SetPass(s, t, Keep(s.passes[t], key, s.objs[o].shared.at))
        else EjectDispose(s, o)
  }

  /** release_refs after claiming the zero: with no weak reference left, dispose at once and delete;
      otherwise retire the disposal. */
  function DoJudge(s: State, t: Tid, o: Obj): State
    requires HasObj(s, o)
  {
    if s.objs[o].weak.cnt == 1 then SetPhase(s, o, Doomed)
    else Tick(s.(objs := s.objs[o := s.objs[o].(phase := Delayed, shared := Retired(t, s.now))]))
  }

  /** A weak decrement reached zero: destroy asserts that the object was disposed. */
  function DoWeakZero(s: State, o: Obj): State
    requires HasObj(s, o)
  {
    SetPhase(s.(bad := s.bad || s.objs[o].phase != Disposed || s.objs[o].strong.cnt != 0), o, Doomed)
  }

  function DoDelete(s: State, o: Obj): State
    requires HasObj(s, o)
  {
    Tick(s.(objs := s.objs[o := s.objs[o].(phase := Free, shared := Gone, weak := s.objs[o].weak.(cnt := 0))],
            bad := s.bad || s.objs[o].strong.cnt != 0))
  }

  function ApplyClient(s: State, l: ClientStep): State
    requires ClientEnabled(s, l)
  {
    match l
    case Alloc(o) => DoAlloc(s, o)
    case Clone(o, k, i, k2) => AddRef(s, o, k2)
    case Lock(o, i) => TryAddStrong(s, o)
    case SnapClone(t, j, k2) => AddRef(s, s.slots[j].ann.value, k2)
    case SnapLock(t, j) => TryAddStrong(s, s.slots[j].ann.value)
    case DropRef(o, k, i) => Release(s, o, k, i)
    case ClearSnap(t, j) => Announce(s, j, None, NoProt)
  }

  function ApplyCall(s: State, l: CallStep): State
    requires CallEnabled(s, l)
  {
    match l
    case Start(t, c, j, g) => SetOp(Tick(s), t, Begin(c, j, g))
    case StoreMove(t, c, src) => MoveInto(s, t, c, src, Stored)
    case CasMove(t, c, expected, src) =>
      if Target(s.cells[c]) == expected then MoveInto(s, t, c, src, Swapped(true))
      else SetOp(Tick(s), t, Idle(Swapped(false)))
    case StoreSnap(t, c, j) => DoStoreSnap(s, t, c, j, s.slots[j].ann.value)
    case CasSnap(t, c, expected, j) => DoCopyCas(s, t, c, expected, j, s.slots[j].ann.value, false)
    case Reserve(t, o, k, i) => SetOp(Announce(s, SLOTS * t, Some(o), Pinned(k, i)), t, Reserved(k, o, i))
    case CasReserved(t, c, expected) => DoCopyCas(s, t, c, expected, SLOTS * t, s.ops[t].o, true)
    case Go(t) => GoStep(s, t)
  }

  function ApplyReclaim(s: State, l: ReclaimStep): State
    requires ReclaimEnabled(s, l)
  {
    match l
    case PassBegin(t) => SetPass(s, t, Pass(s.now, 0, map[], map[], map[]))
    case PassScan(t) => SetPass(s, t, Scanned(s.passes[t], s.slots[s.passes[t].next].ann))
    case PassCount(t, o, k, i) => DoPassCount(s, t, o, k, i)
    case PassDispose(t, o) => DoPassDispose(s, t, o)
    case PassEnd(t) => SetPass(s, t, NoPass)
    case StickZero(o) => SetPhase(s, o, Expired)
    case ClaimZero(t, o) => SetPhase(s, o, Claimed(t))
    case Judge(t, o) => DoJudge(s, t, o)
    case WeakZero(o) => DoWeakZero(s, o)
    case Delete(o) => DoDelete(s, o)
  }

  ghost predicate Enabled(s: State, l: Label) {
    match l
    case Client(a) => ClientEnabled(s, a)
    case Call(a) => CallEnabled(s, a)
    case Reclaim(a) => ReclaimEnabled(s, a)
  }

  function Apply(s: State, l: Label): State
    requires Enabled(s, l)
  {
    match l
    case Client(a) => ApplyClient(s, a)
    case Call(a) => ApplyCall(s, a)
    case Reclaim(a) => ApplyReclaim(s, a)
  }

  // ---------------------------------------------------------------- runs

  const FRESH_COUNTER: Counter := Counter(0, map[], map[], Last(0, 0, {}, {}))

  ghost predicate Init(s: State) {
    && s.now == 1 && !s.bad
    && (forall c :: c in s.cells ==> s.cells[c] == Null)
    && |s.slots| == SLOTS * |s.ops| && |s.passes| == |s.ops|
    && (forall j :: 0 <= j < |s.slots| ==> s.slots[j] == SlotState(None, 0, NoProt))
    && (forall t :: 0 <= t < |s.ops| ==> s.ops[t] == Idle(NoAnswer))
    && (forall t :: 0 <= t < |s.passes| ==> s.passes[t] == NoPass)
    && (forall o :: o in s.objs ==> s.objs[o] == Object(Free, FRESH_COUNTER, FRESH_COUNTER, Gone))
  }

  ghost predicate Runnable(s: State, ls: seq<Label>)
    decreases |ls|
  {
    ls == [] || (Enabled(s, ls[0]) && Runnable(Apply(s, ls[0]), ls[1..]))
  }

  ghost function Run(s: State, ls: seq<Label>): State
    requires Runnable(s, ls)
    decreases |ls|
  {
    if ls == [] then s else Run(Apply(s, ls[0]), ls[1..])
  }
}
