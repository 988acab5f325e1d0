/** An optional value: a pointer that may be null, a slot that may be empty. */
module Options {
  datatype Option<+T> = None | Some(value: T)
}

/** Critical sections, for the backends that have them. */
module Sections {
  /** The n-th critical section of thread t. */
  datatype Section = Section(t: nat, n: nat)
}

/** Entries that threads hold in lists of their own. */
module Holdings {
  function Count<T(==)>(xs: seq<T>, x: T): nat { multiset(xs)[x] }

  lemma CountJoin<T>(a: seq<T>, b: seq<T>, x: T)
    ensures Count(a + b, x) == Count(a, x) + Count(b, x) && Count([], x) == 0
  {
  }

  lemma CountOne<T>(y: T, x: T)
    ensures Count([y], x) == multiset{y}[x]
  {
  }

  lemma CountFirst<T>(xs: seq<T>, x: T)
    requires xs != []
    ensures Count(xs, x) == Count(xs[1..], x) + multiset{xs[0]}[x]
  {
    assert xs == [xs[0]] + xs[1..];
    CountJoin([xs[0]], xs[1..], x);
  }

  /** How many copies of x the lists hold together. */
  function Total<T(==)>(lists: seq<seq<T>>, x: T): nat {
    if lists == [] then 0 else Count(lists[0], x) + Total(lists[1..], x)
  }

  lemma {:induction false} TotalUpdate<T>(lists: seq<seq<T>>, t: nat, list: seq<T>, x: T)
    requires t < |lists|
    ensures Total(lists[t := list], x) + Count(lists[t], x) == Total(lists, x) + Count(list, x)
  {
    hide Count;
    if t == 0 {
      assert lists[t := list][1..] == lists[1..];
    } else {
      assert lists[t := list][1..] == lists[1..][t - 1 := list];
      TotalUpdate(lists[1..], t - 1, list, x);
    }
  }

  lemma {:induction false} TotalNone<T>(lists: seq<seq<T>>, x: T)
    requires forall t :: 0 <= t < |lists| ==> Count(lists[t], x) == 0
    ensures Total(lists, x) == 0
  {
    hide Count;
    CountJoin([], [], x);
    if lists != [] {
      assert forall t :: 0 <= t < |lists[1..]| ==> lists[1..][t] == lists[t + 1];
      TotalNone(lists[1..], x);
    }
  }
}
