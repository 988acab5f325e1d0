/** Interval-based reclamation (include/cdrc/internal/smr/acquire_retire_ibr.h over internal/epoch_tracker.h).

    An object carries the epoch of its birth and a deferred action that of its retirement; a critical section announces
    the epoch at which it began and the latest epoch at which it protected something. An action runs once no announced
    interval meets its object's. The two ends of an announced interval are read in separate steps, slot by slot, while
    the later end may still grow.

    When the epoch advances and when a thread starts a pass over its deferred actions is left open: any moment will do.
 */
module IntervalReclamation {
  import opened Options
  import opened Sections
  import opened Holdings

  type Tid = nat
  type Obj = nat

  /** A deferred action: which object, which of the three actions, and the two epochs. No branch reads the rest: `n`
      counts the actions retired before, `guards` are the critical sections that protected the object when the
      retirement epoch was read. */
  datatype Entry = Entry(obj: Obj, action: nat, birth: nat, ts: nat, n: nat, guards: set<Section>)

  /** An announced interval. */
  datatype Interval = Interval(first: nat, last: nat)

  datatype Pass =
    | NoPass
    | ReadStart(next: Tid, announced: seq<Interval>, batch: seq<Entry>)
    | ReadEnd(next: Tid, start: nat, announced: seq<Interval>, batch: seq<Entry>)
    | Sweep(announced: seq<Interval>, batch: seq<Entry>, kept: seq<Entry>)

  /** protect_snapshot: about to load the cell, to read the epoch, or to announce it; reserve: about to announce. An
      idle thread has `got` from its last call. */
  datatype Op =
    | Idle(got: Option<Obj>)
    | LoadCell(cell: nat, seen: nat)
    | ReadEpoch(cell: nat, seen: nat, result: Option<Obj>)
    | Announce(cell: nat, cur: nat)
    | Reserve(obj: Obj, cur: nat)

  /** `ended` counts the sections that are over; `holds` are the objects that the open one has protected or reserved. */
  datatype Thread = Thread(start: Option<nat>, end: nat, read: Option<nat>, ended: nat, holds: set<Obj>, op: Op,
                           deferred: seq<Entry>, pass: Pass)

  /** `retired` and `ejected` count what was ever retired and what has run. */
  datatype State = State(epoch: nat, births: map<Obj, nat>, cells: map<nat, Option<Obj>>, threads: seq<Thread>,
                         retired: multiset<Entry>, ejected: multiset<Entry>)

  predicate Init(s: State) {
    && s.epoch == 0 && s.births == map[] && (forall c :: c in s.cells ==> s.cells[c] == None)
    && s.retired == multiset{} && s.ejected == multiset{}
    && forall t :: 0 <= t < |s.threads| ==> s.threads[t] == Thread(None, 0, None, 0, {}, Idle(None), [], NoPass)
  }

  predicate Open(s: State, g: Section) {
    g.t < |s.threads| && s.threads[g.t].start.Some? && s.threads[g.t].ended == g.n
  }

  predicate Over(s: State, g: Section) { g.t < |s.threads| && g.n < s.threads[g.t].ended }

  /** The open section has protected o, or has just read o from a cell at the epoch that it announces. */
  predicate Protects(epoch: nat, th: Thread, o: Obj) {
    && th.start.Some?
    && (o in th.holds || (th.op.ReadEpoch? && th.op.result == Some(o) && th.op.seen == epoch))
  }

  function Protectors(s: State, o: Obj): set<Section> {
    set t: nat | t < |s.threads| && Protects(s.epoch, s.threads[t], o) :: Section(t, s.threads[t].ended)
  }

  // ---------------------------------------------------------------- steps

  datatype Label =
    | Advance
    | Create(o: Obj)
    | Write(c: nat, v: Option<Obj>)               // any store, exchange or successful CAS of a cell
    | Enter(t: Tid)                               // the epoch is read, then announced
    | Leave(t: Tid)
    | Protect(t: Tid, c: nat)                     // protect_snapshot or acquire
    | ReserveObj(t: Tid, o: Obj)                  // reserve, of an object that the caller owns
    | StepOp(t: Tid, expired: bool)               // `expired`: the object's count was found to be zero
    | Retire(t: Tid, o: Obj, action: nat)
    | StartPass(t: Tid)
    | StepPass(t: Tid)

  predicate HasThread(s: State, l: Label) {
    (l.Enter? || l.Leave? || l.Protect? || l.ReserveObj? || l.StepOp? || l.Retire? || l.StartPass? ||
      l.StepPass?) ==> l.t < |s.threads|
  }

  predicate Enabled(s: State, l: Label) {
    && HasThread(s, l)
    && match l
       case Advance => true
       case Create(o) => o !in s.births
       case Write(c, v) => c in s.cells && (v.Some? ==> v.value in s.births)
       case Enter(t) => s.threads[t].start.None?
       case Leave(t) => s.threads[t].start.Some? && s.threads[t].op.Idle?
       case Protect(t, c) => s.threads[t].start.Some? && s.threads[t].op.Idle? && c in s.cells
       case ReserveObj(t, o) => s.threads[t].start.Some? && s.threads[t].op.Idle? && o in s.births
       case StepOp(t, _) => !s.threads[t].op.Idle? && (s.threads[t].op.LoadCell? ==> s.threads[t].op.cell in s.cells)
       case Retire(t, o, _) => o in s.births
       case StartPass(t) => s.threads[t].pass.NoPass?
       case StepPass(t) => !s.threads[t].pass.NoPass?
  }

  function Put(s: State, t: Tid, th: Thread): State
    requires t < |s.threads|
  {
    s.(threads := s.threads[t := th])
  }

  function ApplyOp(s: State, t: Tid, expired: bool): Thread
    requires t < |s.threads| && (s.threads[t].op.LoadCell? ==> s.threads[t].op.cell in s.cells)
  {
    var th := s.threads[t];
    match th.op
    case Idle(_) => th
    case LoadCell(c, seen) => th.(op := ReadEpoch(c, seen, s.cells[c]))
    case ReadEpoch(c, seen, result) =>
      if seen == s.epoch then
        if result.Some? && !expired then th.(op := Idle(result), holds := th.holds + {result.value})
        else th.(op := Idle(None))
      else th.(op := Announce(c, s.epoch))
    case Announce(c, cur) => th.(end := cur, op := LoadCell(c, cur))
    case Reserve(o, cur) => th.(end := if th.end != cur then cur else th.end, op := Idle(Some(o)),
                              holds := th.holds + {o})
  }

  /** Some announced interval meets the object's. */
  predicate Reserved(x: Entry, announced: seq<Interval>) {
    exists i :: 0 <= i < |announced| && !(x.ts < announced[i].first || x.birth > announced[i].last)
  }

  function ApplyPass(s: State, t: Tid): State
    requires t < |s.threads|
  {
    var th := s.threads[t];
    match th.pass
    case NoPass => s
    case ReadStart(next, announced, batch) =>
      if next >= |s.threads| then Put(s, t, th.(pass := Sweep(announced, batch, [])))
      else if s.threads[next].start.None? then Put(s, t, th.(pass := ReadStart(next + 1, announced, batch)))
      else Put(s, t, th.(pass := ReadEnd(next, s.threads[next].start.value, announced, batch)))
    case ReadEnd(next, start, announced, batch) =>
      if next >= |s.threads| then s
      else
        var end := s.threads[next].end;
        var more := if start <= end then announced + [Interval(start, end)] else announced;
        Put(s, t, th.(pass := ReadStart(next + 1, more, batch)))
    case Sweep(announced, batch, kept) =>
      if batch == [] then Put(s, t, th.(pass := NoPass, deferred := th.deferred + kept))
      else if Reserved(batch[0], announced) then
        Put(s, t, th.(pass := Sweep(announced, batch[1..], kept + [batch[0]])))
      else Put(s, t, th.(pass := Sweep(announced, batch[1..], kept))).(ejected := s.ejected + multiset{batch[0]})
  }

  function Apply(s: State, l: Label): State
    requires Enabled(s, l)
  {
    match l
    case Advance => s.(epoch := s.epoch + 1)
    case Create(o) => s.(births := s.births[o := s.epoch])
    case Write(c, v) => s.(cells := s.cells[c := v])
    case Enter(t) =>
      var th := s.threads[t];
      Put(s, t, if th.read.None? then th.(read := Some(s.epoch)) else th.(start := th.read, read := None))
    case Leave(t) =>
      var th := s.threads[t];
      Put(s, t, th.(start := None, ended := th.ended + 1, holds := {}))
    case Protect(t, c) => Put(s, t, s.threads[t].(op := LoadCell(c, s.threads[t].end)))
    case ReserveObj(t, o) => Put(s, t, s.threads[t].(op := Reserve(o, s.epoch)))
    case StepOp(t, expired) => Put(s, t, ApplyOp(s, t, expired))
    case Retire(t, o, action) =>
      var th := s.threads[t];
      var x := Entry(o, action, s.births[o], s.epoch, |s.retired|, Protectors(s, o));
      Put(s, t, th.(deferred := th.deferred + [x])).(retired := s.retired + multiset{x})
    case StartPass(t) =>
      var th := s.threads[t];
      Put(s, t, if th.deferred == [] then th else th.(deferred := [], pass := ReadStart(0, [], th.deferred)))
    case StepPass(t) => ApplyPass(s, t)
  }

  ghost predicate Runnable(s: State, ls: seq<Label>)
    decreases |ls|
  {
    ls == [] || (Enabled(s, ls[0]) && Runnable(Apply(s, ls[0]), ls[1..]))
  }

  // ---------------------------------------------------------------- the invariant

  ghost predicate BirthsOk(epoch: nat, births: map<Obj, nat>, cells: map<nat, Option<Obj>>) {
    && (forall o :: o in births ==> births[o] <= epoch)
    && (forall c :: c in cells && cells[c].Some? ==> cells[c].value in births)
  }

  ghost predicate OpOk(epoch: nat, births: map<Obj, nat>, th: Thread) {
    match th.op
    case Idle(_) => true
    case LoadCell(_, seen) => th.start.Some? && seen == th.end
    case ReadEpoch(_, seen, result) =>
      && th.start.Some? && seen == th.end
      && (result.Some? ==> result.value in births)
    case Announce(_, cur) => th.start.Some? && th.end <= cur <= epoch
    case Reserve(o, cur) =>
        th.start.Some? && th.start.value <= cur && th.end <= cur <= epoch && o in births && births[o] <= cur
  }

  /** What an open section has protected was born before the end of its interval. */
  ghost predicate ThreadOk(epoch: nat, births: map<Obj, nat>, th: Thread) {
    && th.end <= epoch && (th.start.Some? ==> th.start.value <= epoch) && (th.read.Some? ==> th.read.value <= epoch)
    && (forall o :: o in th.holds ==> th.start.Some? && th.start.value <= th.end && o in births && births[o] <= th.end)
    && OpOk(epoch, births, th)
  }

  ghost predicate ThreadsOk(s: State) {
    forall t :: 0 <= t < |s.threads| ==> ThreadOk(s.epoch, s.births, s.threads[t])
  }

  /** The interval from `start` to the thread's announced end meets the object's. */
  ghost predicate Meets(s: State, x: Entry, t: Tid, start: nat) {
    t < |s.threads| && start <= x.ts && x.birth <= s.threads[t].end && start <= s.threads[t].end
  }

  ghost predicate GuardOk(s: State, x: Entry, g: Section) {
    Over(s, g) || (Open(s, g) && Meets(s, x, g.t, s.threads[g.t].start.value))
  }

  ghost predicate EntryOk(s: State, x: Entry) {
    forall g :: g in x.guards ==> GuardOk(s, x, g)
  }

  ghost predicate AllOk(s: State, xs: seq<Entry>) {
    forall x :: x in xs ==> EntryOk(s, x)
  }

  /** The scan has passed the thread of g: then g is over, or x is reserved. */
  ghost predicate Seen(s: State, x: Entry, bound: Tid, announced: seq<Interval>) {
    forall g :: g in x.guards && g.t < bound ==> Over(s, g) || Reserved(x, announced)
  }

  ghost predicate AllSeen(s: State, xs: seq<Entry>, bound: Tid, announced: seq<Interval>) {
    forall x :: x in xs ==> Seen(s, x, bound, announced)
  }

  /** The scan has read thread next's start, and not yet its end. */
  ghost predicate HalfSeen(s: State, x: Entry, next: Tid, start: nat) {
    forall g :: g in x.guards && g.t == next ==> Over(s, g) || Meets(s, x, next, start)
  }

  ghost predicate AllHalfSeen(s: State, xs: seq<Entry>, next: Tid, start: nat) {
    forall x :: x in xs ==> HalfSeen(s, x, next, start)
  }

  ghost predicate PassOk(s: State, p: Pass) {
    match p
    case NoPass => true
    case ReadStart(next, announced, batch) => next <= |s.threads| && AllOk(s, batch)
        && AllSeen(s, batch, next, announced)
    case ReadEnd(next, start, announced, batch) =>
      && next < |s.threads| && AllOk(s, batch) && AllSeen(s, batch, next, announced)
      && AllHalfSeen(s, batch, next, start)
    case Sweep(announced, batch, kept) => AllOk(s, batch) && AllSeen(s, batch, |s.threads|, announced) && AllOk(s, kept)
  }

  ghost predicate ListsOk(s: State) {
    forall t :: 0 <= t < |s.threads| ==> AllOk(s, s.threads[t].deferred) && PassOk(s, s.threads[t].pass)
  }

  /** What has run has outlived its guards. */
  ghost predicate EjectedOk(s: State) {
    forall x, g :: x in s.ejected && g in x.guards ==> Over(s, g)
  }

  ghost predicate Core(s: State) { BirthsOk(s.epoch, s.births, s.cells) && ThreadsOk(s) && ListsOk(s) }

  ghost predicate Inv(s: State) { Core(s) && EjectedOk(s) }

  // ---------------------------------------------------------------- what a step leaves alone

  /** Sections only end; open ones keep their start; ends only grow. */
  ghost predicate Later(s: State, r: State) {
    && |r.threads| == |s.threads|
    && forall t :: 0 <= t < |s.threads| ==>
         && s.threads[t].ended <= r.threads[t].ended && s.threads[t].end <= r.threads[t].end
         && (s.threads[t].start.Some? ==>
              r.threads[t].start == s.threads[t].start || s.threads[t].ended < r.threads[t].ended)
  }

  lemma EntryLater(s: State, r: State, x: Entry)
    requires Later(s, r) && EntryOk(s, x)
    ensures EntryOk(r, x)
  {
    forall g | g in x.guards ensures GuardOk(r, x, g) {
      assert GuardOk(s, x, g);
    }
  }

  lemma AllLater(s: State, r: State, xs: seq<Entry>)
    requires Later(s, r) && AllOk(s, xs)
    ensures AllOk(r, xs)
  {
    hide Later, EntryOk;
    forall x | x in xs ensures EntryOk(r, x) { EntryLater(s, r, x); }
  }

  lemma SeenLater(s: State, r: State, xs: seq<Entry>, bound: Tid, announced: seq<Interval>)
    requires Later(s, r) && AllSeen(s, xs, bound, announced)
    ensures AllSeen(r, xs, bound, announced)
  {
    forall x | x in xs ensures Seen(r, x, bound, announced) {
      assert Seen(s, x, bound, announced);
    }
  }

  lemma HalfLater(s: State, r: State, xs: seq<Entry>, next: Tid, start: nat)
    requires Later(s, r) && AllHalfSeen(s, xs, next, start)
    ensures AllHalfSeen(r, xs, next, start)
  {
    forall x | x in xs ensures HalfSeen(r, x, next, start) {
      assert HalfSeen(s, x, next, start);
    }
  }

  lemma PassLater(s: State, r: State, p: Pass)
    requires Later(s, r) && PassOk(s, p)
    ensures PassOk(r, p)
  {
    hide AllOk, AllSeen, AllHalfSeen;
    match p {
      case NoPass =>
      case ReadStart(next, announced, batch) =>
        AllLater(s, r, batch);
        SeenLater(s, r, batch, next, announced);
      case ReadEnd(next, start, announced, batch) =>
        AllLater(s, r, batch);
        SeenLater(s, r, batch, next, announced);
        HalfLater(s, r, batch, next, start);
      case Sweep(announced, batch, kept) =>
        AllLater(s, r, batch);
        AllLater(s, r, kept);
        SeenLater(s, r, batch, |s.threads|, announced);
    }
  }

  /** Thread t does something; the others keep their lists. */
  lemma ListsLater(s: State, r: State, t: Tid)
    requires Later(s, r) && ListsOk(s) && t < |s.threads|
    requires forall u :: 0 <= u < |s.threads| && u != t ==>
      r.threads[u].deferred == s.threads[u].deferred && r.threads[u].pass == s.threads[u].pass
    requires AllOk(r, r.threads[t].deferred) && PassOk(r, r.threads[t].pass)
    ensures ListsOk(r)
  {
    hide AllOk, PassOk, Later;
    assert |r.threads| == |s.threads| by { LaterLength(s, r); }
    forall u | 0 <= u < |r.threads| ensures AllOk(r, r.threads[u].deferred) && PassOk(r, r.threads[u].pass) {
      if u != t {
        AllLater(s, r, s.threads[u].deferred);
        PassLater(s, r, s.threads[u].pass);
      }
    }
  }

  lemma LaterLength(s: State, r: State)
    requires Later(s, r)
    ensures |r.threads| == |s.threads|
  {
  }

  // ---------------------------------------------------------------- steps that touch no list

  lemma ListsAllLater(s: State, r: State)
    requires Later(s, r) && ListsOk(s)
    requires forall u :: 0 <= u < |s.threads| ==>
      r.threads[u].deferred == s.threads[u].deferred && r.threads[u].pass == s.threads[u].pass
    ensures ListsOk(r)
  {
    hide AllOk, PassOk;
    forall u | 0 <= u < |r.threads| ensures AllOk(r, r.threads[u].deferred) && PassOk(r, r.threads[u].pass) {
      AllLater(s, r, s.threads[u].deferred);
      PassLater(s, r, s.threads[u].pass);
    }
  }

  /** The protect loop ends only when the epoch equals the announced end: what it read was born by then. */
  lemma OpKeeps(s: State, t: Tid, expired: bool)
    requires BirthsOk(s.epoch, s.births, s.cells) && Enabled(s, StepOp(t, expired))
    requires ThreadOk(s.epoch, s.births, s.threads[t])
    ensures var th := ApplyOp(s, t, expired);
            && ThreadOk(s.epoch, s.births, th) && s.threads[t].end <= th.end && th.start == s.threads[t].start
            && th.ended == s.threads[t].ended && th.deferred == s.threads[t].deferred && th.pass == s.threads[t].pass
  {
  }

  lemma ThreadsPut(s: State, t: Tid, th: Thread)
    requires ThreadsOk(s) && t < |s.threads| && ThreadOk(s.epoch, s.births, th)
    ensures ThreadsOk(Put(s, t, th))
  {
  }

  lemma GlobalInv(s: State, l: Label)
    requires Core(s) && Enabled(s, l) && (l.Advance? || l.Create? || l.Write?)
    ensures Core(Apply(s, l))
  {
    hide AllOk, PassOk, ListsOk;
    var r := Apply(s, l);
    forall t | 0 <= t < |r.threads| ensures ThreadOk(r.epoch, r.births, r.threads[t]) {
      assert ThreadOk(s.epoch, s.births, s.threads[t]);
    }
    assert Later(s, r);
    ListsAllLater(s, r);
  }

  lemma OwnStep(s: State, l: Label)
    requires BirthsOk(s.epoch, s.births, s.cells) && Enabled(s, l)
    requires (l.Enter? || l.Leave? || l.Protect? || l.ReserveObj? || l.StepOp?)
    requires ThreadOk(s.epoch, s.births, s.threads[l.t])
    ensures var th, now := s.threads[l.t], Apply(s, l).threads[l.t];
            && Apply(s, l) == Put(s, l.t, now)
            && ThreadOk(s.epoch, s.births, now) && now.deferred == th.deferred && now.pass == th.pass
            && th.ended <= now.ended && th.end <= now.end
            && (th.start.Some? ==> now.start == th.start || th.ended < now.ended)
  {
    if l.StepOp? { OpKeeps(s, l.t, l.expired); }
    hide ApplyOp, BirthsOk;
  }

  lemma ThreadInv(s: State, l: Label)
    requires Core(s) && Enabled(s, l) && (l.Enter? || l.Leave? || l.Protect? || l.ReserveObj? || l.StepOp?)
    ensures Core(Apply(s, l))
  {
    hide AllOk, PassOk, ListsOk, ThreadOk, Apply, BirthsOk;
    var r := Apply(s, l);
    assert ThreadOk(s.epoch, s.births, s.threads[l.t]);
    OwnStep(s, l);
    ThreadsPut(s, l.t, r.threads[l.t]);
    assert Later(s, r);
    ListsAllLater(s, r);
  }

  // ---------------------------------------------------------------- steps that do

  lemma NewEntry(s: State, r: State, x: Entry)
    requires ThreadsOk(s) && Later(s, r) && x.obj in s.births && x.birth == s.births[x.obj] && x.ts == s.epoch
    requires x.guards == Protectors(s, x.obj) && x.birth <= s.epoch
    ensures AllOk(r, [x])
  {
    forall g | g in x.guards ensures GuardOk(s, x, g) {
      assert ThreadOk(s.epoch, s.births, s.threads[g.t]);
    }
    EntryLater(s, r, x);
  }

  lemma AllJoin(s: State, a: seq<Entry>, b: seq<Entry>)
    requires AllOk(s, a) && AllOk(s, b)
    ensures AllOk(s, a + b)
  {
  }

  lemma AllNothing(s: State)
    ensures AllOk(s, [])
  {
  }

  lemma AllSplit(s: State, xs: seq<Entry>, bound: Tid, announced: seq<Interval>)
    requires xs != [] && AllOk(s, xs) && AllSeen(s, xs, bound, announced)
    ensures AllOk(s, xs[1..]) && AllOk(s, [xs[0]]) && AllSeen(s, xs[1..], bound, announced)
  {
  }

  lemma BornBefore(s: State, o: Obj)
    requires BirthsOk(s.epoch, s.births, s.cells) && o in s.births
    ensures s.births[o] <= s.epoch
  {
  }

  lemma RetireInv(s: State, l: Label)
    requires Core(s) && Enabled(s, l) && l.Retire?
    ensures Core(Apply(s, l))
  {
    hide AllOk, PassOk, BirthsOk;
    var r := Apply(s, l);
    var th := s.threads[l.t];
    var x := Entry(l.o, l.action, s.births[l.o], s.epoch, |s.retired|, Protectors(s, l.o));
    assert Later(s, r);
    assert x.birth <= s.epoch by { BornBefore(s, l.o); }
    NewEntry(s, r, x);
    AllLater(s, r, th.deferred);
    PassLater(s, r, th.pass);
    AllJoin(r, th.deferred, [x]);
    ListsLater(s, r, l.t);
    assert ThreadOk(s.epoch, s.births, th);
    ThreadsPut(s, l.t, r.threads[l.t]);
  }

  /** Thread next's start is read: its guards that are not over will be met once its end is read too. */
  lemma StartSees(s: State, batch: seq<Entry>, next: Tid, announced: seq<Interval>)
    requires AllOk(s, batch) && AllSeen(s, batch, next, announced) && next < |s.threads|
    ensures s.threads[next].start.None? ==> AllSeen(s, batch, next + 1, announced)
    ensures s.threads[next].start.Some? ==> AllHalfSeen(s, batch, next, s.threads[next].start.value)
  {
    forall x | x in batch
      ensures s.threads[next].start.None? ==> Seen(s, x, next + 1, announced)
      ensures s.threads[next].start.Some? ==> HalfSeen(s, x, next, s.threads[next].start.value)
    {
      assert Seen(s, x, next, announced) && EntryOk(s, x);
      assert forall g :: g in x.guards ==> GuardOk(s, x, g);
    }
  }

  lemma ReservedMore(x: Entry, announced: seq<Interval>, i: Interval)
    ensures Reserved(x, announced) ==> Reserved(x, announced + [i])
    ensures i.first <= x.ts && x.birth <= i.last ==> Reserved(x, announced + [i])
  {
    var more := announced + [i];
    if Reserved(x, announced) {
      var k :| 0 <= k < |announced| && !(x.ts < announced[k].first || x.birth > announced[k].last);
      assert more[k] == announced[k];
    }
    assert more[|announced|] == i;
  }

  /** Its end is read: whatever it is by now, it is at least what it was. */
  lemma EndSees(s: State, batch: seq<Entry>, next: Tid, start: nat, announced: seq<Interval>)
    requires AllSeen(s, batch, next, announced) && AllHalfSeen(s, batch, next, start) && next < |s.threads|
    ensures var end := s.threads[next].end;
            AllSeen(s, batch, next + 1, if start <= end then announced + [Interval(start, end)] else announced)
  {
    hide Reserved;
    var end := s.threads[next].end;
    var more := if start <= end then announced + [Interval(start, end)] else announced;
    forall x | x in batch ensures Seen(s, x, next + 1, more) {
      assert Seen(s, x, next, announced) && HalfSeen(s, x, next, start);
      ReservedMore(x, announced, Interval(start, end));
    }
  }

  lemma PassKeeps(s: State, r: State, t: Tid)
    requires Later(s, r) && t < |s.threads| && AllOk(s, s.threads[t].deferred) && PassOk(s, s.threads[t].pass)
    ensures var th := ApplyPass(s, t).threads[t]; AllOk(r, th.deferred) && PassOk(r, th.pass)
  {
    hide AllOk, AllSeen, AllHalfSeen, Reserved;
    var th := s.threads[t];
    LaterLength(s, r);
    hide Later;
    AllLater(s, r, th.deferred);
    match th.pass {
      case NoPass =>
      case ReadStart(next, announced, batch) =>
        AllLater(s, r, batch);
        AllNothing(r);
        if next < |s.threads| { StartSees(s, batch, next, announced); }
        if next < |s.threads| && s.threads[next].start.Some? {
          SeenLater(s, r, batch, next, announced);
          HalfLater(s, r, batch, next, s.threads[next].start.value);
        } else {
          SeenLater(s, r, batch, if next < |s.threads| then next + 1 else next, announced);
        }
      case ReadEnd(next, start, announced, batch) =>
        var end := s.threads[next].end;
        EndSees(s, batch, next, start, announced);
        AllLater(s, r, batch);
        SeenLater(s, r, batch, next + 1, if start <= end then announced + [Interval(start, end)] else announced);
      case Sweep(announced, batch, kept) => SweepKeeps(s, r, th.deferred, announced, batch, kept);
    }
  }

  lemma SweepKeeps(s: State, r: State, deferred: seq<Entry>, announced: seq<Interval>, batch: seq<Entry>,
                   kept: seq<Entry>)
    requires Later(s, r) && AllOk(s, deferred) && PassOk(s, Sweep(announced, batch, kept))
    ensures AllOk(r, deferred + kept)
    ensures batch != [] ==>
        PassOk(r, Sweep(announced, batch[1..], kept)) && PassOk(r, Sweep(announced, batch[1..], kept + [batch[0]]))
  {
    hide AllOk, AllSeen, Reserved;
    AllLater(s, r, deferred);
    AllLater(s, r, kept);
    AllLater(s, r, batch);
    SeenLater(s, r, batch, |s.threads|, announced);
    AllJoin(r, deferred, kept);
    if batch != [] {
      AllSplit(r, batch, |s.threads|, announced);
      AllJoin(r, kept, [batch[0]]);
    }
  }

  lemma SameThread(s: State, r: State, t: Tid)
    requires ThreadsOk(s) && t < |s.threads| && |r.threads| == |s.threads| && r.epoch == s.epoch && r.births == s.births
    requires r.threads == s.threads[t := r.threads[t]]
    requires r.threads[t] == s.threads[t].(deferred := r.threads[t].deferred, pass := r.threads[t].pass)
    ensures ThreadsOk(r) && Later(s, r)
  {
    assert ThreadOk(s.epoch, s.births, s.threads[t]);
    forall u | 0 <= u < |r.threads| ensures ThreadOk(r.epoch, r.births, r.threads[u]) {
      assert ThreadOk(s.epoch, s.births, s.threads[u]);
    }
  }

  lemma StartInv(s: State, t: Tid)
    requires Core(s) && Enabled(s, StartPass(t))
    ensures Core(Apply(s, StartPass(t)))
  {
    hide BirthsOk, AllOk, ThreadsOk, Later;
    var r := Apply(s, StartPass(t));
    var th := s.threads[t];
    SameThread(s, r, t);
    AllLater(s, r, th.deferred);
    AllNothing(r);
    assert AllSeen(r, th.deferred, 0, []);
    ListsLater(s, r, t);
  }

  lemma StepPassInv(s: State, t: Tid)
    requires Core(s) && Enabled(s, StepPass(t))
    ensures Core(Apply(s, StepPass(t)))
  {
    hide BirthsOk, AllOk, ThreadsOk, Later, PassOk, ApplyPass;
    var r := Apply(s, StepPass(t));
    var th := s.threads[t];
    PassOnly(s, t);
    SameThread(s, r, t);
    PassKeeps(s, r, t);
    ListsLater(s, r, t);
  }

  lemma PassOnly(s: State, t: Tid)
    requires t < |s.threads|
    ensures var r := ApplyPass(s, t);
            && |r.threads| == |s.threads| && r == Put(s, t, r.threads[t]).(ejected := r.ejected)
            && r.threads[t] == s.threads[t].(deferred := r.threads[t].deferred, pass := r.threads[t].pass)
  {
    hide Reserved;
  }

  lemma StepLater(s: State, l: Label)
    requires Enabled(s, l) && BirthsOk(s.epoch, s.births, s.cells) && ThreadsOk(s)
    ensures Later(s, Apply(s, l))
  {
    hide ApplyPass, ApplyOp, BirthsOk, Apply, ThreadOk;
    if l.Enter? || l.Leave? || l.Protect? || l.ReserveObj? || l.StepOp? {
      assert ThreadOk(s.epoch, s.births, s.threads[l.t]);
      OwnStep(s, l);
    } else {
      ListStepLater(s, l);
    }
  }

  lemma ListStepLater(s: State, l: Label)
    requires Enabled(s, l) && !(l.Enter? || l.Leave? || l.Protect? || l.ReserveObj? || l.StepOp?)
    ensures Later(s, Apply(s, l))
  {
    hide ApplyPass, ApplyOp;
    if l.StepPass? { PassOnly(s, l.t); }
  }

  /** A step ejects at most the entry that it sweeps, and that one only if no announced interval meets it. */
  lemma StepEjects(s: State, l: Label, x: Entry)
    requires Enabled(s, l) && x in Apply(s, l).ejected && x !in s.ejected
    ensures l.StepPass? && l.t < |s.threads| && s.threads[l.t].pass.Sweep?
    ensures var p := s.threads[l.t].pass; x in p.batch && !Reserved(x, p.announced)
  {
    hide Reserved, ApplyOp;
  }

  lemma EjectedInv(s: State, l: Label)
    requires Inv(s) && Enabled(s, l)
    ensures EjectedOk(Apply(s, l))
  {
    hide Apply, Enabled, Reserved, BirthsOk;
    var r := Apply(s, l);
    StepLater(s, l);
    forall x, g | x in r.ejected && g in x.guards ensures Over(r, g) {
      if x !in s.ejected {
        StepEjects(s, l, x);
        var p := s.threads[l.t].pass;
        assert PassOk(s, p) && EntryOk(s, x) && Seen(s, x, |s.threads|, p.announced);
        assert GuardOk(s, x, g) && Over(s, g);
      }
      assert Over(s, g);
    }
  }

  lemma StepInv(s: State, l: Label)
    requires Inv(s) && Enabled(s, l)
    ensures Inv(Apply(s, l))
  {
    hide Core, Apply, Enabled, EjectedOk;
    EjectedInv(s, l);
    match l {
      case Retire(_, _, _) => RetireInv(s, l);
      case StartPass(t) => StartInv(s, t);
      case StepPass(t) => StepPassInv(s, t);
      case Advance => GlobalInv(s, l);
      case Create(_) => GlobalInv(s, l);
      case Write(_, _) => GlobalInv(s, l);
      case _ => ThreadInv(s, l);
    }
  }

  // ---------------------------------------------------------------- conservation

  /** What the thread holds: deferred, taken over by its pass, or kept by it. */
  function Holds(th: Thread): seq<Entry> {
    match th.pass
    case NoPass => th.deferred
    case ReadStart(_, _, batch) => th.deferred + batch
    case ReadEnd(_, _, _, batch) => th.deferred + batch
    case Sweep(_, batch, kept) => th.deferred + kept + batch
  }

  function HeldLists(threads: seq<Thread>): seq<seq<Entry>> {
    seq(|threads|, t requires 0 <= t < |threads| => Holds(threads[t]))
  }

  /** How many copies of x the threads hold together. */
  function AllHeld(threads: seq<Thread>, x: Entry): nat { Total(HeldLists(threads), x) }

  predicate Global(l: Label) { l.Advance? || l.Create? || l.Write? }

  /** A step of thread t moves copies between its lists, or from retiring to them, or from them to the ejected. */
  ghost predicate Moved(s: State, r: State, t: Tid, x: Entry)
    requires t < |s.threads|
  {
    && |r.threads| == |s.threads| && r.threads == s.threads[t := r.threads[t]]
    && r.retired[x] + Count(Holds(s.threads[t]), x) + s.ejected[x]
       == s.retired[x] + Count(Holds(r.threads[t]), x) + r.ejected[x]
  }

  lemma CountHolds(th: Thread, x: Entry)
    ensures Count(Holds(th), x) == Count(th.deferred, x) + match th.pass
              case NoPass => 0
              case ReadStart(_, _, batch) => Count(batch, x)
              case ReadEnd(_, _, _, batch) => Count(batch, x)
              case Sweep(_, batch, kept) => Count(kept, x) + Count(batch, x)
  {
    hide Count;
    if th.pass.Sweep? {
      CountJoin(th.deferred, th.pass.kept, x);
      CountJoin(th.deferred + th.pass.kept, th.pass.batch, x);
    } else if !th.pass.NoPass? {
      CountJoin(th.deferred, th.pass.batch, x);
    }
  }

  lemma HeldPass(s: State, t: Tid, x: Entry)
    requires Enabled(s, StepPass(t))
    ensures Moved(s, ApplyPass(s, t), t, x)
  {
    hide Count, Holds, Reserved;
    var th := s.threads[t];
    CountHolds(th, x);
    CountHolds(ApplyPass(s, t).threads[t], x);
    CountJoin([], [], x);
    if th.pass.Sweep? {
      CountJoin(th.deferred, th.pass.kept, x);
      if th.pass.batch != [] {
        CountFirst(th.pass.batch, x);
        CountJoin(th.pass.kept, [th.pass.batch[0]], x);
        CountOne(th.pass.batch[0], x);
      }
    }
  }

  lemma HeldStep(s: State, l: Label, x: Entry)
    requires Enabled(s, l) && !Global(l)
    ensures Moved(s, Apply(s, l), l.t, x)
  {
    hide Count, Holds, ApplyPass;
    var th := s.threads[l.t];
    if l.StepPass? {
      HeldPass(s, l.t, x);
    } else {
      CountHolds(th, x);
      CountHolds(Apply(s, l).threads[l.t], x);
      CountJoin([], [], x);
      if l.Retire? {
        var y := Entry(l.o, l.action, s.births[l.o], s.epoch, |s.retired|, Protectors(s, l.o));
        CountJoin(th.deferred, [y], x);
        CountOne(y, x);
      }
    }
  }

  lemma StepConserves(s: State, l: Label, x: Entry)
    requires Enabled(s, l) && s.retired[x] == s.ejected[x] + AllHeld(s.threads, x)
    ensures Apply(s, l).retired[x] == Apply(s, l).ejected[x] + AllHeld(Apply(s, l).threads, x)
  {
    hide Holds, Total, Count, ApplyPass, ApplyOp;
    if !Global(l) {
      hide Apply;
      var r := Apply(s, l);
      HeldStep(s, l, x);
      assert HeldLists(r.threads) == HeldLists(s.threads)[l.t := Holds(r.threads[l.t])];
      TotalUpdate(HeldLists(s.threads), l.t, Holds(r.threads[l.t]), x);
    }
  }

  lemma InitConserves(s0: State, x: Entry)
    requires Init(s0)
    ensures s0.retired[x] == s0.ejected[x] + AllHeld(s0.threads, x)
  {
    forall t | 0 <= t < |s0.threads| ensures Count(HeldLists(s0.threads)[t], x) == 0 {
      assert HeldLists(s0.threads)[t] == [];
    }
    TotalNone(HeldLists(s0.threads), x);
  }
}
