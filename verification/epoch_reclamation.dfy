/** Epoch-based reclamation (include/cdrc/internal/smr/acquire_retire_ebr.h over internal/epoch_tracker.h).

    A critical section announces the global epoch it read when it began; a deferred action is stamped with the epoch
    read when it was retired, and runs once every announced epoch is later than its stamp. The epoch is read and
    announced in separate steps, and the minimum is taken over the threads one announcement at a time.

    When the epoch advances and when a thread starts a pass over its deferred actions is left open: any moment will do.
 */
module EpochReclamation {
  import opened Options
  import opened Sections
  import opened Holdings

  type Tid = nat

  /** A deferred action: which object, which of the three actions, and its stamp. No branch reads the rest: `n` counts
      the actions retired before, `guards` are the critical sections that were open when the stamp was read. */
  datatype Entry = Entry(obj: nat, action: nat, ts: nat, n: nat, guards: set<Section>)

  /** A pass first takes the minimum over the announcements, then goes through the entries it has taken over. */
  datatype Pass =
    | NoPass
    | Scan(next: Tid, min: Option<nat>, batch: seq<Entry>)
    | Sweep(min: Option<nat>, batch: seq<Entry>, kept: seq<Entry>)

  /** `ended` counts the sections that are over; the guards are those the thread has constructed and not yet
      destroyed, true for one that began a section; `read` is the epoch a guard has read and not yet announced. */
  datatype Thread = Thread(announced: Option<nat>, ended: nat, guards: seq<bool>, read: Option<nat>,
                           deferred: seq<Entry>, pass: Pass)

  /** `retired` and `ejected` count what was ever retired and what has run. */
  datatype State = State(epoch: nat, threads: seq<Thread>, retired: multiset<Entry>, ejected: multiset<Entry>)

  predicate Init(s: State) {
    && s.epoch == 0 && s.retired == multiset{} && s.ejected == multiset{}
    && forall t :: 0 <= t < |s.threads| ==> s.threads[t] == Thread(None, 0, [], None, [], NoPass)
  }

  predicate Open(s: State, g: Section) {
    g.t < |s.threads| && s.threads[g.t].announced.Some? && s.threads[g.t].ended == g.n
  }

  predicate Over(s: State, g: Section) { g.t < |s.threads| && g.n < s.threads[g.t].ended }

  function OpenSections(s: State): set<Section> {
    set t: nat | t < |s.threads| && s.threads[t].announced.Some? :: Section(t, s.threads[t].ended)
  }

  // ---------------------------------------------------------------- steps

  datatype Label =
    | Advance
    | Guard(t: Tid)                               // construct an epoch_guard: nested, or first its epoch is read
    | Announce(t: Tid)
    | Unguard(t: Tid)
    | Retire(t: Tid, obj: nat, action: nat)
    | StartPass(t: Tid)
    | StepPass(t: Tid)

  predicate Enabled(s: State, l: Label) {
    && (!l.Advance? ==> l.t < |s.threads|)
    && match l
       case Advance => true
       case Guard(t) => s.threads[t].read.None?
       case Announce(t) => s.threads[t].read.Some?
       case Unguard(t) => s.threads[t].guards != [] && s.threads[t].read.None?
       case Retire(t, _, _) => true
       case StartPass(t) => s.threads[t].pass.NoPass?
       case StepPass(t) => !s.threads[t].pass.NoPass?
  }

  function Put(s: State, t: Tid, th: Thread): State
    requires t < |s.threads|
  {
    s.(threads := s.threads[t := th])
  }

  function Min(a: Option<nat>, b: Option<nat>): Option<nat> {
    if a.None? then b else if b.None? then a else if a.value < b.value then a else b
  }

  /** The stamp is smaller than the minimum; no announcement counts as the largest epoch. */
  predicate Expired(ts: nat, min: Option<nat>) { min.None? || ts < min.value }

  function ApplyPass(s: State, t: Tid): State
    requires t < |s.threads| && !s.threads[t].pass.NoPass?
  {
    var th := s.threads[t];
    match th.pass
    case NoPass => s
    case Scan(next, min, batch) =>
      if next < |s.threads| then Put(s, t, th.(pass := Scan(next + 1, Min(min, s.threads[next].announced), batch)))
      else Put(s, t, th.(pass := Sweep(min, batch, [])))
    case Sweep(min, batch, kept) =>
      if batch == [] then Put(s, t, th.(pass := NoPass, deferred := th.deferred + kept))
      else if Expired(batch[0].ts, min) then
        Put(s, t, th.(pass := Sweep(min, batch[1..], kept))).(ejected := s.ejected + multiset{batch[0]})
      else Put(s, t, th.(pass := Sweep(min, batch[1..], kept + [batch[0]])))
  }

  function Apply(s: State, l: Label): State
    requires Enabled(s, l)
  {
    match l
    case Advance => s.(epoch := s.epoch + 1)
    case Guard(t) =>
      var th := s.threads[t];
      Put(s, t, if th.announced.Some? then th.(guards := th.guards + [false]) else th.(read := Some(s.epoch)))
    case Announce(t) =>
      var th := s.threads[t];
      Put(s, t, th.(announced := th.read, read := None, guards := th.guards + [true]))
    case Unguard(t) =>
      var th := s.threads[t];
      var rest := th.guards[..|th.guards| - 1];
      Put(s, t, if th.guards[|th.guards| - 1] then th.(guards := rest, announced := None, ended := th.ended + 1)
          else th.(guards := rest))
    case Retire(t, obj, action) =>
      var th := s.threads[t];
      var x := Entry(obj, action, s.epoch, |s.retired|, OpenSections(s));
      Put(s, t, th.(deferred := th.deferred + [x])).(retired := s.retired + multiset{x})
    case StartPass(t) =>
      var th := s.threads[t];
      Put(s, t, if th.deferred == [] then th else th.(deferred := [], pass := Scan(0, None, th.deferred)))
    case StepPass(t) => ApplyPass(s, t)
  }

  ghost predicate Runnable(s: State, ls: seq<Label>)
    decreases |ls|
  {
    ls == [] || (Enabled(s, ls[0]) && Runnable(Apply(s, ls[0]), ls[1..]))
  }

  // ---------------------------------------------------------------- the invariant

  /** A section holds its announcement for as long as some guard of its thread stands, and only then; it began at an
      epoch no later than the current one. */
  ghost predicate ThreadOk(epoch: nat, th: Thread) {
    && (th.announced.Some? <==> th.guards != [])
    && (th.guards != [] ==> th.guards[0]) && (forall i :: 0 < i < |th.guards| ==> !th.guards[i])
    && (th.announced.Some? ==> th.announced.value <= epoch)
    && (th.read.Some? ==> th.announced.None? && th.read.value <= epoch)
  }

  ghost predicate ThreadsOk(s: State) {
    forall t :: 0 <= t < |s.threads| ==> ThreadOk(s.epoch, s.threads[t])
  }

  /** While a guard of x is open it announces an epoch no later than the stamp; otherwise it is over. */
  ghost predicate GuardOk(s: State, x: Entry, g: Section) {
    || Over(s, g)
    || (Open(s, g) && s.threads[g.t].announced.value <= x.ts)
  }

  ghost predicate EntryOk(s: State, x: Entry) {
    forall g :: g in x.guards ==> GuardOk(s, x, g)
  }

  ghost predicate AllOk(s: State, xs: seq<Entry>) {
    forall x :: x in xs ==> EntryOk(s, x)
  }

  /** The scan has passed the thread of g: then g is over, or the minimum is low enough to keep x. */
  ghost predicate Seen(s: State, x: Entry, bound: Tid, min: Option<nat>) {
    forall g :: g in x.guards && g.t < bound && Expired(x.ts, min) ==> Over(s, g)
  }

  ghost predicate AllSeen(s: State, xs: seq<Entry>, bound: Tid, min: Option<nat>) {
    forall x :: x in xs ==> Seen(s, x, bound, min)
  }

  ghost predicate PassOk(s: State, p: Pass) {
    match p
    case NoPass => true
    case Scan(next, min, batch) => next <= |s.threads| && AllOk(s, batch) && AllSeen(s, batch, next, min)
    case Sweep(min, batch, kept) => AllOk(s, batch) && AllSeen(s, batch, |s.threads|, min) && AllOk(s, kept)
  }

  ghost predicate ListsOk(s: State) {
    forall t :: 0 <= t < |s.threads| ==> AllOk(s, s.threads[t].deferred) && PassOk(s, s.threads[t].pass)
  }

  /** What has run has outlived its guards. */
  ghost predicate EjectedOk(s: State) {
    forall x, g :: x in s.ejected && g in x.guards ==> Over(s, g)
  }

  ghost predicate Core(s: State) { ThreadsOk(s) && ListsOk(s) }

  ghost predicate Inv(s: State) { Core(s) && EjectedOk(s) }

  // ---------------------------------------------------------------- what a step leaves alone

  /** Sections only end; announcements of open sections stay. */
  ghost predicate Later(s: State, r: State) {
    && |r.threads| == |s.threads|
    && forall t :: 0 <= t < |s.threads| ==>
         && s.threads[t].ended <= r.threads[t].ended
         && (s.threads[t].announced.Some? ==>
           r.threads[t].announced == s.threads[t].announced || s.threads[t].ended < r.threads[t].ended)
  }

  lemma EntryLater(s: State, r: State, x: Entry)
    requires Later(s, r) && EntryOk(s, x)
    ensures EntryOk(r, x)
  {
    forall g | g in x.guards ensures GuardOk(r, x, g) {
      assert GuardOk(s, x, g);
    }
  }

  lemma AllLater(s: State, r: State, xs: seq<Entry>)
    requires Later(s, r) && AllOk(s, xs)
    ensures AllOk(r, xs)
  {
    hide Later, EntryOk;
    forall x | x in xs ensures EntryOk(r, x) { EntryLater(s, r, x); }
  }

  lemma SeenLater(s: State, r: State, xs: seq<Entry>, bound: Tid, min: Option<nat>)
    requires Later(s, r) && AllSeen(s, xs, bound, min)
    ensures AllSeen(r, xs, bound, min)
  {
    forall x | x in xs ensures Seen(r, x, bound, min) {
      assert Seen(s, x, bound, min);
    }
  }

  lemma PassLater(s: State, r: State, p: Pass)
    requires Later(s, r) && PassOk(s, p)
    ensures PassOk(r, p)
  {
    hide AllOk, AllSeen;
    match p {
      case NoPass =>
      case Scan(next, min, batch) =>
        AllLater(s, r, batch);
        SeenLater(s, r, batch, next, min);
      case Sweep(min, batch, kept) =>
        AllLater(s, r, batch);
        AllLater(s, r, kept);
        SeenLater(s, r, batch, |s.threads|, min);
    }
  }

  /** Thread t does something; the others keep their lists. */
  lemma ListsLater(s: State, r: State, t: Tid)
    requires Later(s, r) && ListsOk(s) && t < |s.threads|
    requires forall u :: 0 <= u < |s.threads| && u != t ==>
      r.threads[u].deferred == s.threads[u].deferred && r.threads[u].pass == s.threads[u].pass
    requires AllOk(r, r.threads[t].deferred) && PassOk(r, r.threads[t].pass)
    ensures ListsOk(r)
  {
    hide AllOk, PassOk, Later;
    assert |r.threads| == |s.threads| by { LaterLength(s, r); }
    forall u | 0 <= u < |r.threads| ensures AllOk(r, r.threads[u].deferred) && PassOk(r, r.threads[u].pass) {
      if u != t {
        AllLater(s, r, s.threads[u].deferred);
        PassLater(s, r, s.threads[u].pass);
      }
    }
  }

  lemma LaterLength(s: State, r: State)
    requires Later(s, r)
    ensures |r.threads| == |s.threads|
  {
  }

  // ---------------------------------------------------------------- every step keeps the invariant

  lemma GuardInv(s: State, l: Label)
    requires Core(s) && Enabled(s, l) && (l.Guard? || l.Announce? || l.Unguard?)
    ensures Core(Apply(s, l)) && Later(s, Apply(s, l))
  {
    hide AllOk, PassOk;
    var r := Apply(s, l);
    assert ThreadOk(s.epoch, s.threads[l.t]);
    assert Later(s, r);
    AllLater(s, r, s.threads[l.t].deferred);
    PassLater(s, r, s.threads[l.t].pass);
    ListsLater(s, r, l.t);
  }

  lemma AdvanceInv(s: State)
    requires Core(s)
    ensures Core(Apply(s, Advance))
  {
    hide AllOk, PassOk;
    var r := Apply(s, Advance);
    assert Later(s, r);
    forall t | 0 <= t < |r.threads| ensures AllOk(r, r.threads[t].deferred) && PassOk(r, r.threads[t].pass) {
      AllLater(s, r, s.threads[t].deferred);
      PassLater(s, r, s.threads[t].pass);
    }
    forall t | 0 <= t < |r.threads| ensures ThreadOk(r.epoch, r.threads[t]) { assert ThreadOk(s.epoch, s.threads[t]); }
  }

  lemma RetireInv(s: State, l: Label)
    requires Core(s) && Enabled(s, l) && l.Retire?
    ensures Core(Apply(s, l))
  {
    hide AllOk, PassOk;
    var r := Apply(s, l);
    var x := Entry(l.obj, l.action, s.epoch, |s.retired|, OpenSections(s));
    assert Later(s, r);
    NewEntry(s, r, x);
    AllLater(s, r, s.threads[l.t].deferred);
    PassLater(s, r, s.threads[l.t].pass);
    AllJoin(r, s.threads[l.t].deferred, [x]);
    ListsLater(s, r, l.t);
    assert forall t :: 0 <= t < |r.threads| ==> ThreadOk(s.epoch, s.threads[t]);
  }

  lemma NewEntry(s: State, r: State, x: Entry)
    requires ThreadsOk(s) && Later(s, r) && x.ts == s.epoch && x.guards == OpenSections(s)
    ensures AllOk(r, [x])
  {
    forall g | g in x.guards ensures GuardOk(s, x, g) {
      assert ThreadOk(s.epoch, s.threads[g.t]);
    }
    EntryLater(s, r, x);
  }

  lemma AllJoin(s: State, a: seq<Entry>, b: seq<Entry>)
    requires AllOk(s, a) && AllOk(s, b)
    ensures AllOk(s, a + b)
  {
  }

  /** Reading thread next's announcement settles the guards that belong to it. */
  lemma ScanSees(s: State, batch: seq<Entry>, next: Tid, min: Option<nat>)
    requires AllOk(s, batch) && AllSeen(s, batch, next, min) && next < |s.threads|
    ensures AllSeen(s, batch, next + 1, Min(min, s.threads[next].announced))
  {
    forall x | x in batch ensures Seen(s, x, next + 1, Min(min, s.threads[next].announced)) {
      assert Seen(s, x, next, min);
      forall g | g in x.guards && g.t < next + 1 && Expired(x.ts, Min(min, s.threads[next].announced))
        ensures Over(s, g)
      {
        assert EntryOk(s, x);
        assert GuardOk(s, x, g);
      }
    }
  }

  lemma ScanOk(s: State, r: State, p: Pass)
    requires Later(s, r) && PassOk(s, p) && p.Scan?
    ensures if p.next < |s.threads| then PassOk(r, Scan(p.next + 1, Min(p.min, s.threads[p.next].announced), p.batch))
            else PassOk(r, Sweep(p.min, p.batch, []))
  {
    hide AllOk, AllSeen;
    AllLater(s, r, p.batch);
    if p.next < |s.threads| {
      ScanSees(s, p.batch, p.next, p.min);
      SeenLater(s, r, p.batch, p.next + 1, Min(p.min, s.threads[p.next].announced));
    } else {
      SeenLater(s, r, p.batch, p.next, p.min);
      AllNothing(r);
    }
  }

  lemma SweepOk(s: State, r: State, p: Pass, deferred: seq<Entry>)
    requires Later(s, r) && PassOk(s, p) && p.Sweep? && AllOk(s, deferred)
    ensures AllOk(r, deferred + p.kept)
    ensures p.batch != [] ==>
        PassOk(r, Sweep(p.min, p.batch[1..], p.kept)) && PassOk(r, Sweep(p.min, p.batch[1..], p.kept + [p.batch[0]]))
  {
    hide AllOk, AllSeen;
    AllLater(s, r, deferred);
    AllLater(s, r, p.kept);
    AllLater(s, r, p.batch);
    SeenLater(s, r, p.batch, |s.threads|, p.min);
    AllJoin(r, deferred, p.kept);
    if p.batch != [] {
      AllSplit(r, p.batch, |s.threads|, p.min);
      AllJoin(r, p.kept, [p.batch[0]]);
    }
  }

  /** Thread t only moves entries between its lists. */
  lemma SameThread(s: State, r: State, t: Tid)
    requires ThreadsOk(s) && t < |s.threads| && |r.threads| == |s.threads| && r.epoch == s.epoch
    requires r.threads == s.threads[t := r.threads[t]]
    requires r.threads[t] == s.threads[t].(deferred := r.threads[t].deferred, pass := r.threads[t].pass)
    ensures ThreadsOk(r) && Later(s, r)
  {
    assert ThreadOk(s.epoch, s.threads[t]);
    forall u | 0 <= u < |r.threads| ensures ThreadOk(r.epoch, r.threads[u]) { assert ThreadOk(s.epoch, s.threads[u]); }
  }

  lemma PassInv(s: State, t: Tid)
    requires Core(s) && t < |s.threads| && !s.threads[t].pass.NoPass?
    ensures Core(ApplyPass(s, t))
  {
    hide AllOk, PassOk, ThreadsOk, Later;
    var r := ApplyPass(s, t);
    var th := s.threads[t];
    SameThread(s, r, t);
    AllLater(s, r, th.deferred);
    match th.pass {
      case Scan(_, _, _) => ScanOk(s, r, th.pass);
      case Sweep(_, _, _) =>
        SweepOk(s, r, th.pass, th.deferred);
        IdleOk(r);
    }
    ListsLater(s, r, t);
  }

  lemma IdleOk(s: State)
    ensures PassOk(s, NoPass)
  {
  }

  lemma AllNothing(s: State)
    ensures AllOk(s, [])
  {
  }

  lemma AllSplit(s: State, xs: seq<Entry>, bound: Tid, min: Option<nat>)
    requires xs != [] && AllOk(s, xs) && AllSeen(s, xs, bound, min)
    ensures AllOk(s, xs[1..]) && AllOk(s, [xs[0]]) && AllSeen(s, xs[1..], bound, min)
  {
  }

  lemma StartInv(s: State, t: Tid)
    requires Core(s) && Enabled(s, StartPass(t))
    ensures Core(Apply(s, StartPass(t)))
  {
    hide AllOk;
    var r := Apply(s, StartPass(t));
    var th := s.threads[t];
    assert ThreadOk(s.epoch, th);
    assert Later(s, r);
    AllLater(s, r, th.deferred);
    AllNothing(r);
    assert AllSeen(r, th.deferred, 0, None);
    hide PassOk;
    assert PassOk(r, r.threads[t].pass) by { StartPassOk(s, r, t); }
    ListsLater(s, r, t);
    assert forall u :: 0 <= u < |r.threads| ==> ThreadOk(s.epoch, s.threads[u]);
  }

  lemma StartPassOk(s: State, r: State, t: Tid)
    requires Enabled(s, StartPass(t)) && r == Apply(s, StartPass(t)) && AllOk(r, s.threads[t].deferred)
    requires AllSeen(r, s.threads[t].deferred, 0, None)
    ensures PassOk(r, r.threads[t].pass)
  {
  }

  lemma StepLater(s: State, l: Label)
    requires Enabled(s, l) && ThreadsOk(s)
    ensures Later(s, Apply(s, l))
  {
    hide ApplyPass;
    assert !l.Advance? ==> ThreadOk(s.epoch, s.threads[l.t]);
    if l.StepPass? { PassLaterThreads(s, l.t); }
  }

  lemma PassLaterThreads(s: State, t: Tid)
    requires Enabled(s, StepPass(t))
    ensures Later(s, ApplyPass(s, t))
  {
  }

  /** A step ejects at most the entry that it sweeps, and that one only if it has expired. */
  lemma StepEjects(s: State, l: Label, x: Entry)
    requires Enabled(s, l) && x in Apply(s, l).ejected && x !in s.ejected
    ensures l.StepPass? && l.t < |s.threads| && s.threads[l.t].pass.Sweep?
    ensures var p := s.threads[l.t].pass; x in p.batch && Expired(x.ts, p.min)
  {
  }

  lemma EjectedInv(s: State, l: Label)
    requires Inv(s) && Enabled(s, l)
    ensures EjectedOk(Apply(s, l))
  {
    hide Apply, Enabled, Expired;
    var r := Apply(s, l);
    StepLater(s, l);
    forall x, g | x in r.ejected && g in x.guards ensures Over(r, g) {
      if x !in s.ejected {
        StepEjects(s, l, x);
        var p := s.threads[l.t].pass;
        assert PassOk(s, p) && EntryOk(s, x) && Seen(s, x, |s.threads|, p.min);
        assert GuardOk(s, x, g) && Over(s, g);
      }
      assert Over(s, g);
    }
  }

  lemma StepInv(s: State, l: Label)
    requires Inv(s) && Enabled(s, l)
    ensures Inv(Apply(s, l))
  {
    hide ApplyPass, ThreadsOk, ListsOk, EjectedOk;
    EjectedInv(s, l);
    match l {
      case Advance => AdvanceInv(s);
      case Guard(_) => GuardInv(s, l);
      case Announce(_) => GuardInv(s, l);
      case Unguard(_) => GuardInv(s, l);
      case Retire(_, _, _) => RetireInv(s, l);
      case StartPass(t) => StartInv(s, t);
      case StepPass(t) => PassInv(s, t);
    }
  }

  // ---------------------------------------------------------------- conservation

  /** What the thread holds: deferred, taken over by its pass, or kept by it. */
  function Holds(th: Thread): seq<Entry> {
    match th.pass
    case NoPass => th.deferred
    case Scan(_, _, batch) => th.deferred + batch
    case Sweep(_, batch, kept) => th.deferred + kept + batch
  }

  function HeldLists(threads: seq<Thread>): seq<seq<Entry>> {
    seq(|threads|, t requires 0 <= t < |threads| => Holds(threads[t]))
  }

  /** How many copies of x the threads hold together. */
  function AllHeld(threads: seq<Thread>, x: Entry): nat { Total(HeldLists(threads), x) }

  /** A step of thread t moves copies between its lists, or from retiring to them, or from them to the ejected. */
  ghost predicate Moved(s: State, r: State, t: Tid, x: Entry)
    requires t < |s.threads|
  {
    && |r.threads| == |s.threads| && r.threads == s.threads[t := r.threads[t]]
    && r.retired[x] + Count(Holds(s.threads[t]), x) + s.ejected[x]
       == s.retired[x] + Count(Holds(r.threads[t]), x) + r.ejected[x]
  }

  lemma CountHolds(th: Thread, x: Entry)
    ensures Count(Holds(th), x) == Count(th.deferred, x) + match th.pass
              case NoPass => 0
              case Scan(_, _, batch) => Count(batch, x)
              case Sweep(_, batch, kept) => Count(kept, x) + Count(batch, x)
  {
    hide Count;
    match th.pass {
      case NoPass =>
      case Scan(_, _, batch) => CountJoin(th.deferred, batch, x);
      case Sweep(_, batch, kept) =>
        CountJoin(th.deferred, kept, x);
        CountJoin(th.deferred + kept, batch, x);
    }
  }

  lemma HeldPass(s: State, t: Tid, x: Entry)
    requires Enabled(s, StepPass(t))
    ensures Moved(s, ApplyPass(s, t), t, x)
  {
    hide Count, Holds;
    var th := s.threads[t];
    CountHolds(th, x);
    CountHolds(ApplyPass(s, t).threads[t], x);
    CountJoin([], [], x);
    if th.pass.Sweep? {
      CountJoin(th.deferred, th.pass.kept, x);
      if th.pass.batch != [] {
        CountFirst(th.pass.batch, x);
        CountJoin(th.pass.kept, [th.pass.batch[0]], x);
        CountOne(th.pass.batch[0], x);
      }
    }
  }

  lemma HeldStep(s: State, l: Label, x: Entry)
    requires Enabled(s, l) && !l.Advance?
    ensures Moved(s, Apply(s, l), l.t, x)
  {
    hide Count, Holds, ApplyPass;
    var th := s.threads[l.t];
    if l.StepPass? {
      HeldPass(s, l.t, x);
    } else {
      CountHolds(th, x);
      CountHolds(Apply(s, l).threads[l.t], x);
      CountJoin([], [], x);
      if l.Retire? {
        var y := Entry(l.obj, l.action, s.epoch, |s.retired|, OpenSections(s));
        CountJoin(th.deferred, [y], x);
        CountOne(y, x);
      }
    }
  }

  lemma StepConserves(s: State, l: Label, x: Entry)
    requires Enabled(s, l) && s.retired[x] == s.ejected[x] + AllHeld(s.threads, x)
    ensures Apply(s, l).retired[x] == Apply(s, l).ejected[x] + AllHeld(Apply(s, l).threads, x)
  {
    hide Holds, ApplyPass, Total, Count;
    if !l.Advance? {
      var r := Apply(s, l);
      HeldStep(s, l, x);
      assert HeldLists(r.threads) == HeldLists(s.threads)[l.t := Holds(r.threads[l.t])];
      TotalUpdate(HeldLists(s.threads), l.t, Holds(r.threads[l.t]), x);
    }
  }

  lemma InitConserves(s0: State, x: Entry)
    requires Init(s0)
    ensures s0.retired[x] == s0.ejected[x] + AllHeld(s0.threads, x)
  {
    forall t | 0 <= t < |s0.threads| ensures Count(HeldLists(s0.threads)[t], x) == 0 {
      assert HeldLists(s0.threads)[t] == [];
    }
    TotalNone(HeldLists(s0.threads), x);
  }
}
