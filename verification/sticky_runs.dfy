/** Whole runs of the counter, told from what was called and answered: the number of references outstanding is what the
    calls account for, and each call answers what it was called for. */
module StickyRuns {
  import opened StickyCounter

  /** The state after the first m steps. */
  ghost function At(s: State, ls: seq<Label>, m: nat): State
    requires Runnable(s, ls) && m <= |ls|
    decreases m
  {
    if m == 0 then s else At(Apply(s, ls[0]), ls[1..], m - 1)
  }

  lemma {:induction false} AtNext(s: State, ls: seq<Label>, m: nat)
    requires Runnable(s, ls) && m < |ls|
    ensures Enabled(At(s, ls, m), ls[m]) && At(s, ls, m + 1) == Apply(At(s, ls, m), ls[m])
    decreases m
  {
    hide Enabled, Apply;
    var r := Apply(s, ls[0]);
    if m == 0 {
      assert At(r, ls[1..], 0) == r;
    } else {
      AtNext(r, ls[1..], m - 1);
    }
  }

  // ---------------------------------------------------------------- calls

  /** What a call can have come to. */
  predicate Fits(asked: Pc, now: Pc) {
    match asked
    case IncAdd(_) => now == asked || now.Incremented?
    case DecSub(_) => now == asked || now.DecCas? || now.DecExchange? || now.Decremented?
    case LoadRead => now.LoadRead? || now.LoadCas? || now.Loaded?
    case _ => false
  }

  lemma FitsStep(s: State, l: Label, id: CallId, asked: Pc)
    requires Enabled(s, l) && id in s.calls && Fits(asked, s.calls[id])
    ensures id in Apply(s, l).calls && Fits(asked, Apply(s, l).calls[id])
  {
  }

  /** A call stays what it was called as: an increment, a decrement of the same amount, or a load. */
  lemma {:induction false} CallIsInvoked(s0: State, n: nat, ls: seq<Label>, i: nat, m: nat)
    requires Init(s0, n) && Runnable(s0, ls) && i < m <= |ls| && ls[i].Invoke?
    ensures ls[i].id in At(s0, ls, m).calls && Fits(ls[i].pc, At(s0, ls, m).calls[ls[i].id])
  {
    hide Runnable, At;
    AtNext(s0, ls, m - 1);
    if i < m - 1 {
      hide Apply, Enabled, Fits;
      CallIsInvoked(s0, n, ls, i, m - 1);
      FitsStep(At(s0, ls, m - 1), ls[m - 1], ls[i].id, ls[i].pc);
    }
  }

  /** Every call in the state was invoked, by one label. */
  lemma {:induction false} InvokedBy(s0: State, n: nat, ls: seq<Label>, id: CallId, m: nat) returns (j: nat)
    requires Init(s0, n) && Runnable(s0, ls) && m <= |ls| && id in At(s0, ls, m).calls
    ensures j < m && ls[j].Invoke? && ls[j].id == id
  {
    hide Runnable, At;
    NobodyAtFirst(s0, n, ls);
    if m == 0 {
      assert false;
    }
    AtNext(s0, ls, m - 1);
    if ls[m - 1].Invoke? && ls[m - 1].id == id {
      j := m - 1;
    } else {
      SameCalls(At(s0, ls, m - 1), ls[m - 1]);
      j := InvokedBy(s0, n, ls, id, m - 1);
    }
  }

  lemma NobodyAtFirst(s0: State, n: nat, ls: seq<Label>)
    requires Init(s0, n) && Runnable(s0, ls)
    ensures At(s0, ls, 0).calls == map[] && At(s0, ls, 0).owned == n
  {
    hide Runnable;
  }

  lemma SameCalls(s: State, l: Label)
    requires Enabled(s, l)
    ensures Apply(s, l).calls.Keys == s.calls.Keys + {l.id}
    ensures forall id :: id in s.calls && id != l.id ==> Apply(s, l).calls[id] == s.calls[id]
  {
  }

  lemma InvokedOnce(s0: State, n: nat, ls: seq<Label>, i: nat, j: nat)
    requires Init(s0, n) && Runnable(s0, ls) && i < j < |ls| && ls[i].Invoke? && ls[j].Invoke?
    ensures ls[i].id != ls[j].id
  {
    hide Runnable, At, Apply, Fits;
    CallIsInvoked(s0, n, ls, i, j);
    AtNext(s0, ls, j);
  }

  // ---------------------------------------------------------------- the account of the references

  /** What a call has added to the references outstanding, by now. */
  function Share(asked: Pc, now: Pc): int {
    if asked.IncAdd? then if now == Incremented(true) then asked.arg else 0
    else if asked.DecSub? then if now.DecSub? then 0 else 0 - asked.arg
    else 0
  }

  function ShareOf(l: Label, calls: map<CallId, Pc>): int {
    if l.Invoke? && l.id in calls then Share(l.pc, calls[l.id]) else 0
  }

  /** What the calls of the first k labels have added together. */
  function Account(ls: seq<Label>, calls: map<CallId, Pc>, k: nat): int
    requires k <= |ls|
  {
    if k == 0 then 0 else Account(ls, calls, k - 1) + ShareOf(ls[k - 1], calls)
  }

  lemma {:induction false} AccountSame(ls: seq<Label>, a: map<CallId, Pc>, b: map<CallId, Pc>, k: nat)
    requires k <= |ls| && forall i :: 0 <= i < k ==> ShareOf(ls[i], a) == ShareOf(ls[i], b)
    ensures Account(ls, a, k) == Account(ls, b, k)
  {
    if k > 0 { AccountSame(ls, a, b, k - 1); }
  }

  lemma {:induction false} AccountUpdate(ls: seq<Label>, a: map<CallId, Pc>, b: map<CallId, Pc>, j: nat, k: nat)
    requires j < k <= |ls| && forall i :: 0 <= i < k && i != j ==> ShareOf(ls[i], a) == ShareOf(ls[i], b)
    ensures Account(ls, b, k) == Account(ls, a, k) + ShareOf(ls[j], b) - ShareOf(ls[j], a)
  {
    hide ShareOf;
    if j == k - 1 { AccountSame(ls, a, b, k - 1); } else { AccountUpdate(ls, a, b, j, k - 1); }
  }

  /** One access changes the number outstanding by what it adds to its own call's share. */
  lemma AccessShare(s: State, id: CallId, asked: Pc)
    requires Enabled(s, Access(id)) && Fits(asked, s.calls[id])
    ensures var t := Apply(s, Access(id));
            id in t.calls && t.owned == s.owned + Share(asked, t.calls[id]) - Share(asked, s.calls[id])
  {
  }

  /** Over every run: the references outstanding are the initial ones, and those of the increments that have answered
      true, less what the decrements have taken. */
  lemma {:induction false} OwnedIsAccountedFor(s0: State, n: nat, ls: seq<Label>, m: nat)
    requires Init(s0, n) && Runnable(s0, ls) && m <= |ls|
    ensures At(s0, ls, m).owned == n + Account(ls, At(s0, ls, m).calls, m)
  {
    hide Runnable, At, Share, Account;
    NobodyAtFirst(s0, n, ls);
    if m == 0 {
      NoAccount(ls, At(s0, ls, 0).calls);
    } else {
      var s, t, l := At(s0, ls, m - 1), At(s0, ls, m), ls[m - 1];
      OwnedIsAccountedFor(s0, n, ls, m - 1);
      AtNext(s0, ls, m - 1);
      SameCalls(s, l);
      LastAccount(ls, t.calls, m);
      if l.Invoke? {
        forall i | 0 <= i < m - 1 ensures ShareOf(ls[i], s.calls) == ShareOf(ls[i], t.calls) {
          if ls[i].Invoke? {
            InvokedOnce(s0, n, ls, i, m - 1);
            CallIsInvoked(s0, n, ls, i, m - 1);
          }
        }
        AccountSame(ls, s.calls, t.calls, m - 1);
        NewShare(l.pc);
      } else {
        var j := InvokedBy(s0, n, ls, l.id, m - 1);
        CallIsInvoked(s0, n, ls, j, m - 1);
        AccessShare(s, l.id, ls[j].pc);
        forall i | 0 <= i < m - 1 && i != j ensures ShareOf(ls[i], s.calls) == ShareOf(ls[i], t.calls) {
          if ls[i].Invoke? {
            if i < j { InvokedOnce(s0, n, ls, i, j); } else { InvokedOnce(s0, n, ls, j, i); }
            CallIsInvoked(s0, n, ls, i, m - 1);
          }
        }
        AccountUpdate(ls, s.calls, t.calls, j, m - 1);
      }
    }
  }

  lemma NoAccount(ls: seq<Label>, calls: map<CallId, Pc>)
    ensures Account(ls, calls, 0) == 0
  {
  }

  lemma LastAccount(ls: seq<Label>, calls: map<CallId, Pc>, m: nat)
    requires 0 < m <= |ls|
    ensures Account(ls, calls, m) == Account(ls, calls, m - 1) + ShareOf(ls[m - 1], calls)
  {
  }

  lemma NewShare(asked: Pc)
    requires asked.IncAdd? || asked.DecSub? || asked == LoadRead
    ensures Share(asked, asked) == 0
  {
  }
}
