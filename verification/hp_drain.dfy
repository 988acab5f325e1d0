/** The draining destructor of the hazard-pointer backend: it runs every deferred action that is left, and whatever
    those defer in turn, until nothing is left (include/cdrc/internal/smr/acquire_retire.h with
    internal/memory_manager_base.h and internal/counted_object.h). No other thread runs any more.

    Destroying an object releases the pointers it has for members: an atomic pointer defers its decrement, any other
    decrements at once.
 */
module HpDrain {

  type Obj = nat

  datatype Action = DecStrong | DecWeak | Dispose

  datatype Entry = Entry(obj: Obj, action: Action)

  /** A pointer member: the reference it holds, written as the action that gives it up, and whether it is atomic. */
  datatype Member = Member(entry: Entry, atomic: bool)

  datatype Rec = Rec(strong: nat, weak: nat, disposed: bool, deleted: bool, members: seq<Member>)

  // ---------------------------------------------------------------- one action

  function Entries(ms: seq<Member>): seq<Entry> {
    if ms == [] then [] else [ms[0].entry] + Entries(ms[1..])
  }

  /** What an action does to the objects, and the actions that follow from it: at once, or deferred. */
  datatype Outcome = Outcome(objs: seq<Rec>, released: seq<Member>)

  function Exec(objs: seq<Rec>, e: Entry): Outcome
    requires e.obj < |objs|
  {
    var o := e.obj;
    var r := objs[o];
    match e.action
    case DecStrong =>
      if r.strong != 1 then Outcome(objs[o := r.(strong := if r.strong == 0 then 0 else r.strong - 1)], [])
      else if r.weak == 1 then Outcome(objs[o := r.(strong := 0, weak := 0, disposed := true, deleted := true)],
                                       r.members)
      else Outcome(objs[o := r.(strong := 0)], [Member(Entry(o, Dispose), true)])
    case DecWeak =>
      if r.weak != 1 then Outcome(objs[o := r.(weak := if r.weak == 0 then 0 else r.weak - 1)], [])
      else Outcome(objs[o := r.(weak := 0, deleted := true)], [])
    case Dispose => Outcome(objs[o := r.(disposed := true)], r.members + [Member(Entry(o, DecWeak), false)])
  }

  // ---------------------------------------------------------------- accounts

  function Count(ms: seq<Member>, e: Entry): nat { multiset(Entries(ms))[e] }

  /** How many members of objects that still stand hold the reference e. */
  function Held(objs: seq<Rec>, e: Entry): nat {
    if objs == [] then 0
    else Held(objs[..|objs| - 1], e) + if objs[|objs| - 1].disposed then 0 else Count(objs[|objs| - 1].members, e)
  }

  /** All the owners of a reference: actions pending, members, and pointers elsewhere. */
  function Owners(objs: seq<Rec>, pend: multiset<Entry>, ext: multiset<Entry>, e: Entry): nat {
    pend[e] + Held(objs, e) + ext[e]
  }

  /** Each count is the number of its owners; the strong references together hold one weak one until disposal. */
  ghost predicate Accounted(objs: seq<Rec>, pend: multiset<Entry>, ext: multiset<Entry>, o: Obj)
    requires o < |objs|
  {
    var r := objs[o];
    && r.strong == Owners(objs, pend, ext, Entry(o, DecStrong))
    && r.weak == Owners(objs, pend, ext, Entry(o, DecWeak)) + (if r.disposed then 0 else 1)
    && pend[Entry(o, Dispose)] == (if r.strong == 0 && !r.disposed then 1 else 0)
    && (r.disposed ==> r.strong == 0) && (r.deleted ==> r.disposed) && (r.deleted <==> r.weak == 0)
  }

  ghost predicate MemberOk(objs: seq<Rec>, m: Member) { m.entry.obj < |objs| && m.entry.action != Dispose }

  ghost predicate MembersOk(objs: seq<Rec>) {
    forall o, i :: 0 <= o < |objs| && 0 <= i < |objs[o].members| ==> MemberOk(objs, objs[o].members[i])
  }

  ghost predicate Acc(objs: seq<Rec>, pend: multiset<Entry>, ext: multiset<Entry>) {
    && MembersOk(objs) && (forall e :: e in pend ==> e.obj < |objs|)
    && (forall o: Obj :: o < |objs| ==> Accounted(objs, pend, ext, o))
  }

  // ---------------------------------------------------------------- the measure

  /** The counts of all objects, and one for each object that is not disposed. */
  function Measure(objs: seq<Rec>): nat {
    if objs == [] then 0
    else Measure(objs[..|objs| - 1]) + Weight(objs[|objs| - 1])
  }

  function Weight(r: Rec): nat { r.strong + r.weak + if r.disposed then 0 else 1 }

  /** The sum of the counts alone. */
  function Total(objs: seq<Rec>): nat {
    if objs == [] then 0 else Total(objs[..|objs| - 1]) + objs[|objs| - 1].strong + objs[|objs| - 1].weak
  }

  lemma {:induction false} SumsUpdate(objs: seq<Rec>, o: Obj, r: Rec, e: Entry)
    requires o < |objs|
    ensures Measure(objs[o := r]) + Weight(objs[o]) == Measure(objs) + Weight(r)
    ensures Total(objs[o := r]) + objs[o].strong + objs[o].weak == Total(objs) + r.strong + r.weak
    ensures Held(objs[o := r], e) + (if objs[o].disposed then 0 else Count(objs[o].members, e))
         == Held(objs, e) + (if r.disposed then 0 else Count(r.members, e))
  {
    hide Count, Weight;
    var n := |objs| - 1;
    if o == n {
      assert objs[o := r][..n] == objs[..n];
    } else {
      assert objs[o := r][..n] == objs[..n][o := r];
      SumsUpdate(objs[..n], o, r, e);
    }
  }

  lemma {:induction false} EntriesJoin(a: seq<Member>, b: seq<Member>)
    ensures Entries(a + b) == Entries(a) + Entries(b)
  {
    if a == [] {
      assert a + b == b;
    } else {
      assert (a + b)[1..] == a[1..] + b;
      EntriesJoin(a[1..], b);
    }
  }

  lemma {:induction false} EntriesOk(objs: seq<Rec>, ms: seq<Member>, e: Entry)
    requires (forall i :: 0 <= i < |ms| ==> MemberOk(objs, ms[i])) && e in Entries(ms)
    ensures e.obj < |objs| && e.action != Dispose
  {
    if e != ms[0].entry {
      assert forall i :: 0 <= i < |ms[1..]| ==> ms[1..][i] == ms[i + 1];
      EntriesOk(objs, ms[1..], e);
    }
  }

  /** What is pending after e has been taken and its consequences added. */
  function Pending(pend: multiset<Entry>, e: Entry, released: seq<Member>): multiset<Entry> {
    pend - multiset{e} + multiset(Entries(released))
  }

  lemma PendingAt(pend: multiset<Entry>, e: Entry, released: seq<Member>, x: Entry)
    requires e in pend
    ensures Pending(pend, e, released)[x] == pend[x] - (if x == e then 1 else 0) + Count(released, x)
  {
  }

  lemma CountNone(x: Entry)
    ensures Count([], x) == 0
  {
  }

  lemma CountOne(m: Member, x: Entry)
    ensures Count([m], x) == if m.entry == x then 1 else 0
  {
    assert Entries([m]) == [m.entry];
  }

  lemma CountJoin(a: seq<Member>, b: seq<Member>, x: Entry)
    ensures Count(a + b, x) == Count(a, x) + Count(b, x)
  {
    EntriesJoin(a, b);
  }

  lemma NoDisposeMember(objs: seq<Rec>, o: Obj, x: Obj)
    requires MembersOk(objs) && o < |objs|
    ensures Count(objs[o].members, Entry(x, Dispose)) == 0
  {
    if Entry(x, Dispose) in Entries(objs[o].members) { EntriesOk(objs, objs[o].members, Entry(x, Dispose)); }
  }

  lemma ExecMeasure(objs: seq<Rec>, pend: multiset<Entry>, ext: multiset<Entry>, e: Entry)
    requires Acc(objs, pend, ext) && e in pend
    ensures e.obj < |objs| && Measure(Exec(objs, e).objs) < Measure(objs)
  {
    hide Held, Count, Measure, Total, Entries, MembersOk;
    assert Accounted(objs, pend, ext, e.obj);
    hide Acc;
    ExecWeight(objs, e);
    SumsUpdate(objs, e.obj, Exec(objs, e).objs[e.obj], e);
  }

  lemma ExecWeight(objs: seq<Rec>, e: Entry)
    requires e.obj < |objs|
    requires match e.action
             case DecStrong => objs[e.obj].strong > 0
             case DecWeak => objs[e.obj].weak > 0
             case Dispose => !objs[e.obj].disposed
    ensures |Exec(objs, e).objs| == |objs| && Weight(Exec(objs, e).objs[e.obj]) < Weight(objs[e.obj])
    ensures Exec(objs, e).objs == objs[e.obj := Exec(objs, e).objs[e.obj]]
  {
  }

  /** Each action keeps the accounts. */
  lemma ExecKeeps(objs: seq<Rec>, pend: multiset<Entry>, ext: multiset<Entry>, e: Entry, x: Obj)
    requires Acc(objs, pend, ext) && e in pend && x < |objs|
    ensures e.obj < |objs|
    ensures var out := Exec(objs, e);
            |out.objs| == |objs| && Accounted(out.objs, Pending(pend, e, out.released), ext, x)
  {
    hide Held, Count, Measure, Total, Entries, Pending;
    var out := Exec(objs, e);
    var o := e.obj;
    var released := out.released;
    assert Accounted(objs, pend, ext, o) && Accounted(objs, pend, ext, x);
    NoDisposeMember(objs, o, x);
    var s, w, d := Entry(x, DecStrong), Entry(x, DecWeak), Entry(x, Dispose);
    SumsUpdate(objs, o, out.objs[o], s);
    SumsUpdate(objs, o, out.objs[o], w);
    PendingAt(pend, e, released, s);
    PendingAt(pend, e, released, w);
    PendingAt(pend, e, released, d);
    CountNone(s); CountNone(w); CountNone(d);
    var m1, m2 := Member(Entry(o, Dispose), true), Member(Entry(o, DecWeak), false);
    CountOne(m1, s); CountOne(m1, w); CountOne(m1, d);
    CountOne(m2, s); CountOne(m2, w); CountOne(m2, d);
    CountJoin(objs[o].members, [m2], s);
    CountJoin(objs[o].members, [m2], w);
    CountJoin(objs[o].members, [m2], d);
  }

  lemma ExecMembers(objs: seq<Rec>, e: Entry)
    requires MembersOk(objs) && e.obj < |objs|
    ensures MembersOk(Exec(objs, e).objs) && |Exec(objs, e).objs| == |objs|
  {
    var now := Exec(objs, e).objs;
    forall o, i | 0 <= o < |now| && 0 <= i < |now[o].members| ensures MemberOk(now, now[o].members[i]) {
      assert now[o].members == objs[o].members;
      assert MemberOk(objs, objs[o].members[i]);
    }
  }

  lemma ExecAcc(objs: seq<Rec>, pend: multiset<Entry>, ext: multiset<Entry>, e: Entry)
    requires Acc(objs, pend, ext) && e in pend
    ensures e.obj < |objs|
    ensures var out := Exec(objs, e); Acc(out.objs, Pending(pend, e, out.released),
                                          ext) && Measure(out.objs) < Measure(objs)
  {
    hide Accounted, Measure, Exec, MembersOk, Entries;
    assert e.obj < |objs|;
    var out := Exec(objs, e);
    ExecMeasure(objs, pend, ext, e);
    ExecMembers(objs, e);
    forall x: Obj | x < |out.objs| ensures Accounted(out.objs, Pending(pend, e, out.released), ext, x) {
      ExecKeeps(objs, pend, ext, e, x);
    }
    forall x | x in Pending(pend, e, out.released) ensures x.obj < |objs| {
      if x !in pend { ReleasedOk(objs, e, x); }
    }
  }

  lemma ReleasedOk(objs: seq<Rec>, e: Entry, x: Entry)
    requires MembersOk(objs) && e.obj < |objs| && x in Entries(Exec(objs, e).released)
    ensures x.obj < |objs|
  {
    var ms := objs[e.obj].members;
    EntriesJoin(ms, [Member(Entry(e.obj, DecWeak), false)]);
    if x in Entries(ms) { EntriesOk(objs, ms, x); }
  }

  /** Every action but a disposal brings the sum of the counts down. */
  lemma ExecTotal(objs: seq<Rec>, pend: multiset<Entry>, ext: multiset<Entry>, e: Entry)
    requires Acc(objs, pend, ext) && e in pend
    ensures e.obj < |objs|
    ensures Total(Exec(objs, e).objs) <= Total(objs)
    ensures (e.action != Dispose ==> Total(Exec(objs, e).objs) < Total(objs))
  {
    hide Held, Count, Measure, Total, Entries;
    assert Accounted(objs, pend, ext, e.obj);
    SumsUpdate(objs, e.obj, Exec(objs, e).objs[e.obj], e);
  }

  // ---------------------------------------------------------------- at once, or later

  function AtOnce(ms: seq<Member>): seq<Entry> {
    if ms == [] then [] else (if ms[0].atomic then [] else [ms[0].entry]) + AtOnce(ms[1..])
  }

  function Later(ms: seq<Member>): seq<Entry> {
    if ms == [] then [] else (if ms[0].atomic then [ms[0].entry] else []) + Later(ms[1..])
  }

  lemma {:induction false} OnceOrLater(ms: seq<Member>, x: Entry)
    ensures multiset(Entries(ms))[x] == multiset(AtOnce(ms))[x] + multiset(Later(ms))[x]
    ensures x in AtOnce(ms) ==> x in Entries(ms)
  {
    if ms != [] { OnceOrLater(ms[1..], x); }
  }

  function Flat(lists: seq<seq<Entry>>): seq<Entry> {
    if lists == [] then [] else Flat(lists[..|lists| - 1]) + lists[|lists| - 1]
  }

  lemma {:induction false} FlatAppend(lists: seq<seq<Entry>>, t: nat, more: seq<Entry>, x: Entry)
    requires t < |lists|
    ensures multiset(Flat(lists[t := lists[t] + more]))[x] == multiset(Flat(lists))[x] + multiset(more)[x]
  {
    var n := |lists| - 1;
    var now := lists[t := lists[t] + more];
    if t == n {
      assert now[..n] == lists[..n];
    } else {
      assert now[..n] == lists[..n][t := lists[..n][t] + more];
      FlatAppend(lists[..n], t, more, x);
    }
  }

  lemma {:induction false} FlatEmpty(lists: seq<seq<Entry>>)
    ensures Flat(lists) == [] <==> forall t :: 0 <= t < |lists| ==> lists[t] == []
  {
    if lists != [] {
      var n := |lists| - 1;
      FlatEmpty(lists[..n]);
      assert (forall t :: 0 <= t < |lists| ==> lists[t] == []) <==> (lists[n] == [] && forall t :: 0 <= t < n ==>
        lists[..n][t] == []) by {
        assert forall t :: 0 <= t < n ==> lists[..n][t] == lists[t];
      }
    }
  }

  /** The pending actions after one of them, written out over the stack and the lists. */
  lemma PendingMoves(todo: seq<Entry>, rest: multiset<Entry>, lists: seq<seq<Entry>>, t: nat, released: seq<Member>)
    requires todo != [] && t < |lists|
    ensures Pending(multiset(todo) + rest + multiset(Flat(lists)), todo[0], released)
         == multiset(AtOnce(released) + todo[1..]) + rest + multiset(Flat(lists[t := lists[t] + Later(released)]))
  {
    hide Flat, Entries, AtOnce, Later;
    assert todo == [todo[0]] + todo[1..];
    forall x: Entry
      ensures Pending(multiset(todo) + rest + multiset(Flat(lists)), todo[0], released)[x]
           == (multiset(AtOnce(released) + todo[1..]) + rest
               + multiset(Flat(lists[t := lists[t] + Later(released)])))[x]
    {
      OnceOrLater(released, x);
      FlatAppend(lists, t, Later(released), x);
    }
  }

  lemma NoDisposeAtOnce(objs: seq<Rec>, e: Entry, x: Entry)
    requires MembersOk(objs) && e.obj < |objs| && x in AtOnce(Exec(objs, e).released)
    ensures x.action != Dispose
  {
    hide Entries, MembersOk;
    var released := Exec(objs, e).released;
    var ms := objs[e.obj].members;
    var last := Member(Entry(e.obj, DecWeak), false);
    OnceOrLater(released, x);
    EntriesJoin(ms, [last]);
    if x in Entries(ms) { MemberEntries(objs, e.obj, x); }
    OnceOrLater([last], x);
    assert Entries([last]) == [last.entry] by { EntriesOne(last); }
  }

  lemma EntriesOne(m: Member)
    ensures Entries([m]) == [m.entry]
  {
  }

  lemma MemberEntries(objs: seq<Rec>, o: Obj, x: Entry)
    requires MembersOk(objs) && o < |objs| && x in Entries(objs[o].members)
    ensures x.action != Dispose
  {
    EntriesOk(objs, objs[o].members, x);
  }

  lemma {:induction false} LastAtOnce(ms: seq<Member>, m: Member)
    requires !m.atomic
    ensures AtOnce(ms + [m]) != []
  {
    if ms != [] {
      assert (ms + [m])[1..] == ms[1..] + [m];
      LastAtOnce(ms[1..], m);
    }
  }

  // ---------------------------------------------------------------- the destructor

  class Manager {
    var objs: seq<Rec>
    var lists: seq<seq<Entry>>
    const me: nat
    ghost const ext: multiset<Entry>

    /** Everything is accounted for by the lists, the given other pending actions, and the pointers that remain. */
    ghost predicate Balanced(pend: multiset<Entry>)
      reads this
    {
      me < |lists| && Acc(objs, pend + multiset(Flat(lists)), ext)
    }

    constructor (objs: seq<Rec>, lists: seq<seq<Entry>>, me: nat, ghost ext: multiset<Entry>)
      requires me < |lists| && Acc(objs, multiset(Flat(lists)), ext)
      ensures Balanced(multiset{}) && this.objs == objs && this.lists == lists && this.ext == ext
    {
      this.objs, this.lists, this.me, this.ext := objs, lists, me, ext;
      assert multiset{} + multiset(Flat(lists)) == multiset(Flat(lists));
    }

    /** The first of the actions to do at once. */
    method Step(todo: seq<Entry>, ghost rest: multiset<Entry>) returns (next: seq<Entry>)
      requires todo != [] && Balanced(multiset(todo) + rest)
      modifies this
      ensures Balanced(multiset(next) + rest) && |lists| == |old(lists)| && |objs| == |old(objs)|
      ensures Measure(objs) < Measure(old(objs)) && Total(objs) <= Total(old(objs))
      ensures if todo[0].action == Dispose then next != [] else Total(objs) < Total(old(objs))
      ensures forall e :: e in next ==> e in todo[1..] || e.action != Dispose
    {
      hide Flat, Total, Measure, AtOnce, Later, Pending, Accounted, MembersOk, Entries;
      ghost var pend := multiset(todo) + rest + multiset(Flat(lists));
      var e := todo[0];
      assert e in pend;
      ExecAcc(objs, pend, ext, e);
      ExecTotal(objs, pend, ext, e);
      var out := Exec(objs, e);
      PendingMoves(todo, rest, lists, me, out.released);
      if e.action == Dispose { LastAtOnce(objs[e.obj].members, Member(Entry(e.obj, DecWeak), false)); }
      forall x | x in AtOnce(out.released) ensures x.action != Dispose { NoDisposeAtOnce(objs, e, x); }
      hide Exec, Acc;
      next := AtOnce(out.released) + todo[1..];
      lists := lists[me := lists[me] + Later(out.released)];
      objs := out.objs;
    }

    /** eject: runs one action and all that it entails at once; the sum of the counts falls. */
    method Eject(x: Entry, ghost rest: multiset<Entry>)
      requires Balanced(multiset{x} + rest)
      modifies this
      ensures Balanced(rest) && |lists| == |old(lists)| && |objs| == |old(objs)|
      ensures Total(objs) < Total(old(objs))
    {
      hide Acc, Flat, Total, Measure;
      assert multiset([x]) == multiset{x};
      var todo := Step([x], rest);
      while todo != []
        invariant Balanced(multiset(todo) + rest) && |lists| == |old(lists)| && |objs| == |old(objs)|
        invariant Total(objs) <= Total(old(objs)) && (todo == [] ==> Total(objs) < Total(old(objs)))
        invariant forall e :: e in todo ==> e.action != Dispose
        decreases Measure(objs)
      {
        todo := Step(todo, rest);
      }
      assert multiset(todo) + rest == rest;
    }

    /** The destructor: it ends, with every list empty; each object that is then still allocated is still owned, by a
        pointer elsewhere or by a member of an object that was not disposed. */
    method Drain()
      requires Balanced(multiset{})
      modifies this
      ensures forall t :: 0 <= t < |lists| ==> lists[t] == []
      ensures |lists| == |old(lists)| && |objs| == |old(objs)| && Total(objs) <= Total(old(objs))
      ensures Acc(objs, multiset{}, ext)
      ensures forall o: Obj :: o < |objs| && !objs[o].deleted ==>
                exists a :: a != Dispose && Held(objs, Entry(o, a)) + ext[Entry(o, a)] > 0
    {
      hide Acc, Flat, Total, Measure, Held;
      while exists t :: 0 <= t < |lists| && lists[t] != []
        invariant Balanced(multiset{}) && |lists| == |old(lists)| && |objs| == |old(objs)|
        invariant Total(objs) <= Total(old(objs))
        decreases Total(objs)
      {
        var destructs := Flat(lists);
        FlatEmpty(lists);
        lists := seq(|lists|, _ => []);
        FlatEmpty(lists);
        ghost var before := Total(objs);
        assert multiset(destructs[0..]) + multiset(Flat(lists)) ==
          multiset{} + multiset(destructs) by { assert destructs[0..] == destructs; }
        for i := 0 to |destructs|
          invariant Balanced(multiset(destructs[i..])) && |lists| == |old(lists)| && |objs| == |old(objs)|
          invariant Total(objs) <= before && (i > 0 ==> Total(objs) < before)
        {
          assert destructs[i..] == [destructs[i]] + destructs[i + 1..];
          assert multiset(destructs[i..]) == multiset{destructs[i]} + multiset(destructs[i + 1..]);
          Eject(destructs[i], multiset(destructs[i + 1..]));
        }
        assert destructs[|destructs|..] == [];
      }
      FlatEmpty(lists);
      assert multiset{} + multiset(Flat(lists)) == multiset{};
      StillOwned(objs, ext);
    }
  }

  lemma StillOwned(objs: seq<Rec>, ext: multiset<Entry>)
    requires Acc(objs, multiset{}, ext)
    ensures forall o: Obj :: o < |objs| && !objs[o].deleted ==>
        exists a :: a != Dispose && Held(objs, Entry(o, a)) + ext[Entry(o, a)] > 0
  {
    hide Held;
    forall o: Obj | o < |objs| && !objs[o].deleted
      ensures exists a :: a != Dispose && Held(objs, Entry(o, a)) + ext[Entry(o, a)] > 0
    {
      assert Accounted(objs, multiset{}, ext, o);
      if objs[o].strong > 0 {
        assert Held(objs, Entry(o, DecStrong)) + ext[Entry(o, DecStrong)] > 0;
      } else {
        assert Held(objs, Entry(o, DecWeak)) + ext[Entry(o, DecWeak)] > 0;
      }
    }
  }
}
