/** One thread's deferred list under the hazard-pointer backend: retire, the amortised trigger and the reclamation pass
    (include/cdrc/internal/smr/acquire_retire.h).

    A pass reads every announcement slot once and then keeps, of the entries it has taken over, as many as the
    announcements protect. The slots may change under it, so what it reads is arbitrary; so is what the ejected actions
    retire in turn. Both come from an oracle.
 */
module HpPass {
  import opened Options

  type Obj = nat

  /** A deferred action: the object and one of the three kinds of action. */
  datatype Key = Key(obj: Obj, action: nat)

  const RETIRE_TYPES: nat := 3
  const SLOTS: nat := 8
  const EJECT_DELAY: nat := 2

  function Max(a: int, b: nat): nat { if a < b then b else a }
  function Min(a: nat, b: nat): nat { if a < b then a else b }

  function Threshold(threads: nat): nat { Max(30, EJECT_DELAY * threads) }

  // ---------------------------------------------------------------- what a pass keeps

  /** How often k occurs among the entries; how often o is announced. */
  function Count(xs: seq<Key>, k: Key): nat {
    if xs == [] then 0 else Count(xs[..|xs| - 1], k) + if xs[|xs| - 1] == k then 1 else 0
  }

  function Announced(anns: seq<Option<Obj>>, o: Obj): nat {
    if anns == [] then 0 else Announced(anns[..|anns| - 1], o) + if anns[|anns| - 1] == Some(o) then 1 else 0
  }

  /** The first announcement protects two entries of each kind, every further one protects one more. */
  function Allowed(anns: seq<Option<Obj>>, o: Obj): nat {
    if Announced(anns, o) == 0 then 0 else Announced(anns, o) + 1
  }

  /** The entry after xs is kept if fewer of its like than allowed came before it. */
  predicate Keeps(xs: seq<Key>, anns: seq<Option<Obj>>, k: Key) {
    k.action < RETIRE_TYPES && Count(xs, k) < Allowed(anns, k.obj)
  }

  function Kept(xs: seq<Key>, anns: seq<Option<Obj>>): seq<Key> {
    if xs == [] then []
    else
      var init, last := xs[..|xs| - 1], xs[|xs| - 1];
      Kept(init, anns) + if Keeps(init, anns, last) then [last] else []
  }

  function Ejected(xs: seq<Key>, anns: seq<Option<Obj>>): seq<Key> {
    if xs == [] then []
    else
      var init, last := xs[..|xs| - 1], xs[|xs| - 1];
      Ejected(init, anns) + if Keeps(init, anns, last) then [] else [last]
  }

  lemma CountStep(xs: seq<Key>, x: Key, k: Key)
    ensures Count(xs + [x], k) == Count(xs, k) + if x == k then 1 else 0
  {
    assert (xs + [x])[..|xs + [x]| - 1] == xs;
  }

  lemma KeptStep(xs: seq<Key>, anns: seq<Option<Obj>>, x: Key)
    ensures Kept(xs + [x], anns) == Kept(xs, anns) + if Keeps(xs, anns, x) then [x] else []
    ensures Ejected(xs + [x], anns) == Ejected(xs, anns) + if Keeps(xs, anns, x) then [] else [x]
  {
    assert (xs + [x])[..|xs + [x]| - 1] == xs;
  }

  /** With d entries of a kind and a announcements of its object, min(d, a + 1) are kept if a >= 1 and none if a = 0. */
  lemma {:induction false} KeptPerKey(xs: seq<Key>, anns: seq<Option<Obj>>, k: Key)
    requires k.action < RETIRE_TYPES
    ensures Count(Kept(xs, anns), k) == Min(Count(xs, k), Allowed(anns, k.obj))
  {
    if xs != [] {
      var init, last := xs[..|xs| - 1], xs[|xs| - 1];
      KeptPerKey(init, anns, k);
      if Keeps(init, anns, last) {
        CountStep(Kept(init, anns), last, k);
      } else {
        assert Kept(init, anns) + [] == Kept(init, anns);
      }
    }
  }

  /** Nothing is lost and nothing is both kept and ejected. */
  lemma {:induction false} KeptAndEjected(xs: seq<Key>, anns: seq<Option<Obj>>)
    ensures multiset(xs) == multiset(Kept(xs, anns)) + multiset(Ejected(xs, anns))
  {
    hide Kept, Ejected, Keeps;
    if xs == [] {
      NothingKept(anns);
    } else {
      var init, last := xs[..|xs| - 1], xs[|xs| - 1];
      assert xs == init + [last];
      KeptAndEjected(init, anns);
      KeptStep(init, anns, last);
    }
  }

  lemma NothingKept(anns: seq<Option<Obj>>)
    ensures Kept([], anns) == [] && Ejected([], anns) == []
  {
  }

  /** The rest is ejected. */
  lemma {:induction false} EjectedPerKey(xs: seq<Key>, anns: seq<Option<Obj>>, k: Key)
    ensures Count(Kept(xs, anns), k) + Count(Ejected(xs, anns), k) == Count(xs, k)
  {
    hide Kept, Ejected, Keeps;
    if xs == [] {
      NothingKept(anns);
    } else {
      var init, last := xs[..|xs| - 1], xs[|xs| - 1];
      assert xs == init + [last];
      EjectedPerKey(init, anns, k);
      KeptStep(init, anns, last);
      CountStep(Kept(init, anns), last, k);
      CountStep(Ejected(init, anns), last, k);
      assert Kept(init, anns) + [] == Kept(init, anns) && Ejected(init, anns) + [] == Ejected(init, anns);
    }
  }

  /** The number of decrements applied is the number deferred less the number announced, as a comment in the source
      has it, if and only if nothing is announced or no more is deferred than announced. */
  lemma EjectedAsCommentedIff(xs: seq<Key>, anns: seq<Option<Obj>>, k: Key)
    requires k.action < RETIRE_TYPES
    ensures var d, a := Count(xs, k), Announced(anns, k.obj);
            Count(Ejected(xs, anns), k) == Max(d - a, 0) <==> a == 0 || d <= a
  {
    hide Kept, Ejected, Count, Announced;
    KeptPerKey(xs, anns, k);
    EjectedPerKey(xs, anns, k);
  }

  /** With one announcement and two entries deferred the pass applies none, where the comment would have one. */
  lemma CommentIsWrong(k: Key)
    requires k.action < RETIRE_TYPES
    ensures Count([k, k], k) == 2 && Announced([Some(k.obj)], k.obj) == 1
    ensures Count(Ejected([k, k], [Some(k.obj)]), k) == 0
  {
    hide Kept, Ejected;
    assert [k, k][..1] == [k] && [k][..0] == [] && [Some(k.obj)][..0] == [];
    assert Count([], k) == 0 && Count([k], k) == 1 && Announced([], k.obj) == 0;
    KeptPerKey([k, k], [Some(k.obj)], k);
    EjectedPerKey([k, k], [Some(k.obj)], k);
  }

  // ---------------------------------------------------------------- how many it keeps

  /** How many more entries of kind k are kept because of one more announcement. */
  function More(xs: seq<Key>, anns: seq<Option<Obj>>, r: Option<Obj>, k: Key): int {
    Min(Count(xs, k), Allowed(anns + [r], k.obj)) - Min(Count(xs, k), Allowed(anns, k.obj))
  }

  lemma AllowedStep(anns: seq<Option<Obj>>, r: Option<Obj>, o: Obj)
    ensures Allowed(anns + [r], o) == if r != Some(o) then Allowed(anns, o) else if Allowed(anns, o) == 0 then 2
        else Allowed(anns, o) + 1
  {
    assert (anns + [r])[..|anns + [r]| - 1] == anns;
  }

  /** Entry x, after xs, is kept only thanks to the new announcement. */
  predicate Gains(xs: seq<Key>, anns: seq<Option<Obj>>, r: Option<Obj>, x: Key) {
    Keeps(xs, anns + [r], x) && !Keeps(xs, anns, x)
  }

  lemma MoreStep(xs: seq<Key>, anns: seq<Option<Obj>>, o: Obj, x: Key, k: Key)
    requires k.obj == o && k.action < RETIRE_TYPES
    ensures More(xs + [x], anns, Some(o), k) == More(xs, anns, Some(o), k) + if x == k
        && Gains(xs, anns, Some(o), x) then 1 else 0
  {
    hide Count, Allowed;
    CountStep(xs, x, k);
    AllowedStep(anns, Some(o), o);
  }

  lemma GainsOnlyThere(xs: seq<Key>, anns: seq<Option<Obj>>, o: Obj, x: Key)
    ensures Gains(xs, anns, Some(o), x) ==> x.obj == o && x.action < RETIRE_TYPES
    ensures Keeps(xs, anns, x) ==> Keeps(xs, anns + [Some(o)], x)
  {
    hide Count, Allowed;
    AllowedStep(anns, Some(o), x.obj);
  }

  lemma {:induction false} OneMoreAnnouncement(xs: seq<Key>, anns: seq<Option<Obj>>, o: Obj)
    ensures |Kept(xs, anns + [Some(o)])| == |Kept(xs, anns)| + More(xs, anns, Some(o), Key(o, 0))
        + More(xs, anns, Some(o), Key(o, 1)) + More(xs, anns, Some(o), Key(o, 2))
  {
    hide Keeps, Allowed, More, Announced;
    if xs == [] {
      NothingMore(anns, o);
    } else {
      var init, last := xs[..|xs| - 1], xs[|xs| - 1];
      assert xs == init + [last];
      OneMoreAnnouncement(init, anns, o);
      GainsOnlyThere(init, anns, o, last);
      MoreStep(init, anns, o, last, Key(o, 0));
      MoreStep(init, anns, o, last, Key(o, 1));
      MoreStep(init, anns, o, last, Key(o, 2));
    }
  }

  lemma NothingMore(anns: seq<Option<Obj>>, o: Obj)
    ensures forall a :: More([], anns, Some(o), Key(o, a)) == 0
  {
  }

  lemma {:induction false} NoAnnouncement(xs: seq<Key>, anns: seq<Option<Obj>>)
    ensures Kept(xs, anns + [None]) == Kept(xs, anns)
  {
    if xs != [] {
      NoAnnouncement(xs[..|xs| - 1], anns);
      AllowedStep(anns, None, xs[|xs| - 1].obj);
    }
  }

  lemma {:induction false} NothingAnnounced(xs: seq<Key>)
    ensures Kept(xs, []) == []
  {
    if xs != [] { NothingAnnounced(xs[..|xs| - 1]); }
  }

  /** Each announcement keeps at most six entries: two of each of the three kinds. */
  lemma {:induction false} KeptBound(xs: seq<Key>, anns: seq<Option<Obj>>)
    ensures |Kept(xs, anns)| <= 6 * |anns|
  {
    if anns == [] {
      NothingAnnounced(xs);
    } else {
      var init, last := anns[..|anns| - 1], anns[|anns| - 1];
      assert anns == init + [last];
      KeptBound(xs, init);
      if last.Some? {
        OneMoreAnnouncement(xs, init, last.value);
        AllowedStep(init, last, last.value);
      } else {
        NoAnnouncement(xs, init);
      }
    }
  }

  // ---------------------------------------------------------------- the pass itself

  /** scan_slots: the count of every announced object, for each kind of action. */
  method ScanSlots(anns: seq<Option<Obj>>) returns (announced: map<Key, nat>)
    ensures forall k :: k in announced <==> k.action < RETIRE_TYPES && Allowed(anns, k.obj) > 0
    ensures forall k :: k in announced ==> announced[k] == Allowed(anns, k.obj)
  {
    announced := map[];
    for i := 0 to |anns|
      invariant forall k :: k in announced <==> k.action < RETIRE_TYPES && Allowed(anns[..i], k.obj) > 0
      invariant forall k :: k in announced ==> announced[k] == Allowed(anns[..i], k.obj)
    {
      assert anns[..i + 1] == anns[..i] + [anns[i]];
      forall o: Obj
        ensures Allowed(anns[..i + 1], o) == if anns[i] != Some(o) then Allowed(anns[..i], o)
            else if Allowed(anns[..i], o) == 0 then 2 else Allowed(anns[..i], o) + 1
      {
        AllowedStep(anns[..i], anns[i], o);
      }
      if anns[i].Some? {
        announced := Announce(announced, anns[i].value);
      }
    }
    assert anns[..|anns|] == anns;
  }

  method Announce(before: map<Key, nat>, o: Obj) returns (announced: map<Key, nat>)
    requires forall k :: k in before ==> k.action < RETIRE_TYPES && before[k] > 0
    ensures forall k :: k in announced <==> k in before || (k.obj == o && k.action < RETIRE_TYPES)
    ensures forall k :: k in announced ==>
              announced[k] == if k.obj != o then before[k] else if k in before then before[k] + 1 else 2
  {
    announced := before;
    for a := 0 to RETIRE_TYPES
      invariant forall k :: k in announced <==> k in before || (k.obj == o && k.action < a)
      invariant forall k :: k in announced ==>
                  announced[k] == if k.obj != o ||
                    k.action >= a then before[k] else if k in before then before[k] + 1 else 2
    {
      var k := Key(o, a);
      announced := announced[k := if k in announced then announced[k] + 1 else 2];
    }
  }

  /** What the rest of the world does: the slots that each pass reads, and what each ejected action retires. */
  class Oracle {
    var kids: seq<seq<Key>>
    var slots: seq<seq<Option<Obj>>>

    constructor (kids: seq<seq<Key>>, slots: seq<seq<Option<Obj>>>)
      ensures this.kids == kids && this.slots == slots
    {
      this.kids := kids;
      this.slots := slots;
    }

    method Slots(n: nat) returns (anns: seq<Option<Obj>>)
      modifies this`slots
      ensures |anns| == n
    {
      if slots != [] && |slots[0]| == n {
        anns := slots[0];
        slots := slots[1..];
      } else {
        anns := seq(n, _ => None);
      }
    }

    method Kids() returns (xs: seq<Key>)
      modifies this`kids
      ensures |kids| <= |old(kids)| && (xs != [] ==> |kids| < |old(kids)|)
    {
      if kids == [] {
        xs := [];
      } else {
        xs := kids[0];
        kids := kids[1..];
      }
    }
  }

  /** A thread's deferred_destructs, in_progress and amortized_work. `retired` and `ejected` count what passed
      through. */
  class Worker {
    const threads: nat
    var deferred: seq<Key>
    var inProgress: bool
    var work: nat
    ghost var retired: multiset<Key>
    ghost var ejected: multiset<Key>

    /** Between calls: nothing is lost, the list is bounded, and the trigger has not been reached. */
    ghost predicate Valid()
      reads this
    {
      && !inProgress && work < Threshold(threads)
      && |deferred| <= 48 * threads + work
      && retired == ejected + multiset(deferred)
    }

    constructor (threads: nat)
      ensures Valid() && fresh(this) && this.threads == threads && deferred == [] && retired == multiset{}
    {
      this.threads := threads;
      deferred, inProgress, work := [], false, 0;
      retired, ejected := multiset{}, multiset{};
    }

    /** The body of the pass: go through the batch, keep what is announced and eject the rest. Ejecting retires more,
        which only appends to the list while a pass is in progress. */
    method Sweep(batch: seq<Key>, anns: seq<Option<Obj>>, world: Oracle) returns (kept: seq<Key>)
      requires inProgress && deferred == [] && work == 0
      modifies this`deferred, this`work, this`retired, this`ejected, world`kids
      ensures kept == Kept(batch, anns) && ejected == old(ejected) + multiset(Ejected(batch, anns))
      ensures retired == old(retired) + multiset(deferred) && work == |deferred|
      ensures |world.kids| <= |old(world.kids)| && (work > 0 ==> |world.kids| < |old(world.kids)|)
    {
      hide Kept, Ejected, Count, Allowed, Announced, Left;
      var announced := ScanSlots(anns);
      LeftAtFirst(announced, anns);
      kept := [];
      ghost var out := [];
      assert Kept(batch[..0], anns) == [] && Ejected(batch[..0], anns) == [] by { NothingKept(anns); }
      for i := 0 to |batch|
        invariant kept == Kept(batch[..i], anns) && out == Ejected(batch[..i], anns)
        invariant Left(announced, batch[..i], anns)
        invariant work == |deferred| && ejected == old(ejected) && retired == old(retired)
        invariant |world.kids| <= |old(world.kids)| && (work > 0 ==> |world.kids| < |old(world.kids)|)
      {
        var x := batch[i];
        assert batch[..i + 1] == batch[..i] + [x];
        KeptStep(batch[..i], anns, x);
        LeftStep(announced, batch[..i], anns, x);
        if x !in announced {
          out := out + [x];
          var xs := world.Kids();
          deferred := deferred + xs;
          work := work + |xs|;
        } else {
          announced := Spend(announced, x);
          kept := kept + [x];
        }
      }
      assert batch[..|batch|] == batch;
      ejected := ejected + multiset(out);
      retired := retired + multiset(deferred);
    }

    /** One turn of the loop in work_toward_deferred_decrements: the list becomes what was retired meanwhile, followed
        by what the announcements protect of the old one. */
    method Pass(world: Oracle) returns (ghost anns: seq<Option<Obj>>, ghost more: seq<Key>)
      requires !inProgress && deferred != [] && work == 0 && retired == ejected + multiset(deferred)
      modifies this, world
      ensures !inProgress && retired == ejected + multiset(deferred)
      ensures |anns| == SLOTS * threads && deferred == more + Kept(old(deferred), anns) && work == |more|
      ensures |deferred| <= 48 * threads + work
      ensures ejected == old(ejected) + multiset(Ejected(old(deferred), anns))
      ensures retired == old(retired) + multiset(more)
      ensures |world.kids| <= |old(world.kids)| && (work > 0 ==> |world.kids| < |old(world.kids)|)
    {
      hide Kept, Ejected;
      inProgress := true;
      var batch := deferred;
      deferred := [];
      var slots := world.Slots(SLOTS * threads);
      var kept := Sweep(batch, slots, world);
      anns, more := slots, deferred;
      KeptAndEjected(batch, slots);
      KeptBound(batch, slots);
      Balance(old(ejected), multiset(batch), multiset(Ejected(batch, slots)), multiset(kept), multiset(more));
      deferred := deferred + kept;
      inProgress := false;
    }

    /** retire from outside any pass. On return the list holds at most 48 P + max(30, 2 P) - 1 entries. */
    method Retire(x: Key, world: Oracle)
      requires Valid()
      modifies this, world
      ensures Valid() && old(retired) + multiset{x} <= retired
      ensures |deferred| <= 48 * threads + Max(30, 2 * threads) - 1
    {
      deferred := deferred + [x];
      retired := retired + multiset{x};
      work := work + 1;
      ghost var before := retired;
      while !inProgress && work >= Threshold(threads)
        invariant !inProgress && |deferred| <= 48 * threads + work && retired == ejected + multiset(deferred)
        invariant before <= retired
        decreases |world.kids|, work
      {
        work := 0;
        if |deferred| == 0 { break; }
        ghost var anns, more := Pass(world);
      }
    }
  }

  // ---------------------------------------------------------------- the counts a sweep works with

  /** What is left of the counts after the entries xs. */
  ghost predicate Left(announced: map<Key, nat>, xs: seq<Key>, anns: seq<Option<Obj>>) {
    && (forall k :: k in announced <==> k.action < RETIRE_TYPES && Count(xs, k) < Allowed(anns, k.obj))
    && (forall k :: k in announced ==> announced[k] == Allowed(anns, k.obj) - Count(xs, k))
  }

  function Spend(announced: map<Key, nat>, x: Key): map<Key, nat>
    requires x in announced && announced[x] > 0
  {
    if announced[x] == 1 then announced - {x} else announced[x := announced[x] - 1]
  }

  lemma LeftAtFirst(announced: map<Key, nat>, anns: seq<Option<Obj>>)
    requires forall k :: k in announced <==> k.action < RETIRE_TYPES && Allowed(anns, k.obj) > 0
    requires forall k :: k in announced ==> announced[k] == Allowed(anns, k.obj)
    ensures Left(announced, [], anns)
  {
  }

  lemma LeftStep(announced: map<Key, nat>, xs: seq<Key>, anns: seq<Option<Obj>>, x: Key)
    requires Left(announced, xs, anns)
    ensures x in announced <==> Keeps(xs, anns, x)
    ensures if x in announced then announced[x] > 0 && Left(Spend(announced, x), xs + [x], anns)
        else Left(announced, xs + [x], anns)
  {
    hide Count, Allowed;
    forall k: Key ensures Count(xs + [x], k) == Count(xs, k) + if x == k then 1 else 0 { CountStep(xs, x, k); }
  }

  lemma Balance(ejected: multiset<Key>, batch: multiset<Key>, out: multiset<Key>, kept: multiset<Key>,
                more: multiset<Key>)
    requires batch == kept + out
    ensures ejected + batch + more == (ejected + out) + (more + kept)
  {
  }
}
