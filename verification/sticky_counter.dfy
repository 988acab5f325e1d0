/** The wait-free counter that cannot leave zero (include/cdrc/internal/utils.h).

    Every atomic access to the word `x` is one step, and any number of calls may be in flight.
    A call is `increment`, `decrement` or `load`, each broken at its atomic accesses:

    - increment: one fetch_add;
    - decrement: a fetch_sub, then perhaps a compare-exchange, then perhaps an exchange;
    - load: a load, then perhaps a compare-exchange.

    The client's side of the bargain is the one the header states: a decrement never takes more than the
    current value, and fewer than 2^30 references are ever issued.
 */
module StickyCounter {

  type CallId = nat

  const WORD: nat := 0x1_0000_0000
  const ZERO_FLAG: nat := 0x8000_0000
  const ZERO_PENDING_FLAG: nat := 0x4000_0000

  type Word = v: nat | v < WORD

  /** Unsigned 32-bit addition and subtraction, with wrap-around. */
  function Plus(x: Word, y: nat): Word { (x + y) % WORD }
  function Minus(x: Word, y: nat): Word { (x - y) % WORD }

  /** The two stolen bits: bit 31 is set, and bit 30 is set. */
  predicate Zeroed(v: Word) { ZERO_FLAG <= v }
  predicate Pending(v: Word) { ZERO_PENDING_FLAG <= v < ZERO_FLAG || ZERO_FLAG + ZERO_PENDING_FLAG <= v }

  /** Where a call stands: which atomic access it performs next, or what it returned. */
  datatype Pc =
    | IncAdd(arg: nat)
    | DecSub(arg: nat)
    | DecCas
    | DecExchange
    | LoadRead
    | LoadCas
    | Incremented(ok: bool)
    | Decremented(zero: bool)
    | Loaded(value: nat)

  /** `owned` is the number of references outstanding: what the client has been given and has not yet
      taken back. `issued` is all it was ever given or tried to get. Neither is read by the code. */
  datatype State = State(x: Word, calls: map<CallId, Pc>, owned: nat, issued: nat)

  predicate Init(s: State, n: nat) {
    && 1 <= n < ZERO_PENDING_FLAG
    && s == State(n, map[], n, n)
  }

  datatype Label =
    | Invoke(id: CallId, pc: Pc)
    | Access(id: CallId)

  predicate Enabled(s: State, l: Label) {
    match l
    case Invoke(id, pc) =>
      && id !in s.calls
      && (pc.IncAdd? || pc.DecSub? || pc == LoadRead)
    case Access(id) =>
      && id in s.calls
      && match s.calls[id]
         case IncAdd(arg) => s.issued + arg < ZERO_PENDING_FLAG
         case DecSub(arg) => 1 <= arg <= s.owned
         case DecCas => true
         case DecExchange => true
         case LoadRead => true
         case LoadCas => true
         case _ => false
  }

  function Shown(v: Word): nat { if Zeroed(v) then 0 else v }

  function Apply(s: State, l: Label): State
    requires Enabled(s, l)
  {
    match l
    case Invoke(id, pc) => s.(calls := s.calls[id := pc])
    case Access(id) =>
      match s.calls[id]
      case IncAdd(arg) =>
        var ok := !Zeroed(s.x);
        State(Plus(s.x, arg), s.calls[id := Incremented(ok)], if ok then s.owned + arg else s.owned, s.issued + arg)
      case DecSub(arg) =>
        State(Minus(s.x, arg), s.calls[id := if s.x == arg then DecCas else Decremented(false)], s.owned - arg,
              s.issued)
      case DecCas =>
        if s.x == 0 then s.(x := ZERO_FLAG, calls := s.calls[id := Decremented(true)])
        else s.(calls := s.calls[id := if Pending(s.x) then DecExchange else Decremented(false)])
      case DecExchange =>
        s.(x := ZERO_FLAG, calls := s.calls[id := Decremented(Pending(s.x))])
      case LoadRead =>
        s.(calls := s.calls[id := if s.x == 0 then LoadCas else Loaded(Shown(s.x))])
      case LoadCas =>
        if s.x == 0 then s.(x := ZERO_FLAG + ZERO_PENDING_FLAG, calls := s.calls[id := Loaded(0)])
        else s.(calls := s.calls[id := Loaded(Shown(s.x))])
      case _ => s
  }

  // ---------------------------------------------------------------- runs

  predicate Runnable(s: State, ls: seq<Label>)
    decreases |ls|
  {
    ls == [] || (Enabled(s, ls[0]) && Runnable(Apply(s, ls[0]), ls[1..]))
  }

  function Run(s: State, ls: seq<Label>): State
    requires Runnable(s, ls)
    decreases |ls|
  {
    if ls == [] then s else Run(Apply(s, ls[0]), ls[1..])
  }

  // ---------------------------------------------------------------- invariant

  /** Some decrement is still on its way to claim the zero. */
  ghost predicate ClaimComing(s: State) {
    exists id :: id in s.calls && (s.calls[id].DecCas? || s.calls[id].DecExchange?)
  }

  ghost predicate Claimed(s: State) {
    exists id :: id in s.calls && s.calls[id] == Decremented(true)
  }

  ghost predicate OneClaim(s: State) {
    forall a, b ::
        a in s.calls && b in s.calls && s.calls[a] == Decremented(true) && s.calls[b] == Decremented(true) ==> a == b
  }

  /** The word is either an unflagged count, or a stuck zero whose low bits hold failed increments. */
  ghost predicate Inv(s: State) {
    && s.owned <= s.issued < ZERO_PENDING_FLAG
    && OneClaim(s)
    && if !Zeroed(s.x) then
         && s.x == s.owned
         && !Claimed(s)
         && (forall id :: id in s.calls ==> !s.calls[id].DecExchange?)
         && (s.x == 0 ==> exists id :: id in s.calls && s.calls[id].DecCas?)
       else
         && s.owned == 0
         && ZERO_FLAG <= s.x
         && if Pending(s.x) then
              && s.x <= ZERO_FLAG + ZERO_PENDING_FLAG + s.issued
              && !Claimed(s)
              && ClaimComing(s)
            else
              && s.x <= ZERO_FLAG + s.issued
              && Claimed(s)
  }

  lemma AddKeepsInv(s: State, id: CallId)
    requires Inv(s) && Enabled(s, Access(id)) && s.calls[id].IncAdd?
    ensures Inv(Apply(s, Access(id)))
  {
    var t := Apply(s, Access(id));
    assert forall c :: c in s.calls && c != id ==> t.calls[c] == s.calls[c];
  }

  lemma SubKeepsInv(s: State, id: CallId)
    requires Inv(s) && Enabled(s, Access(id)) && s.calls[id].DecSub?
    ensures Inv(Apply(s, Access(id)))
  {
    var t := Apply(s, Access(id));
    assert forall c :: c in s.calls && c != id ==> t.calls[c] == s.calls[c];
    assert s.x == s.owned && t.x == t.owned;
    assert t.x == 0 ==> t.calls[id] == DecCas;
  }

  lemma CasKeepsInv(s: State, id: CallId)
    requires Inv(s) && Enabled(s, Access(id)) && s.calls[id].DecCas?
    ensures Inv(Apply(s, Access(id)))
  {
    var t := Apply(s, Access(id));
    assert forall c :: c in s.calls && c != id ==> t.calls[c] == s.calls[c];
    if s.x == 0 {
      assert t.calls[id] == Decremented(true);
    } else if Pending(s.x) {
      assert t.calls[id] == DecExchange;
    }
  }

  lemma ExchangeKeepsInv(s: State, id: CallId)
    requires Inv(s) && Enabled(s, Access(id)) && s.calls[id].DecExchange?
    ensures Inv(Apply(s, Access(id)))
  {
    var t := Apply(s, Access(id));
    assert forall c :: c in s.calls && c != id ==> t.calls[c] == s.calls[c];
    if Pending(s.x) {
      assert t.calls[id] == Decremented(true);
    }
  }

  lemma LoadKeepsInv(s: State, id: CallId)
    requires Inv(s) && Enabled(s, Access(id)) && (s.calls[id].LoadRead? || s.calls[id].LoadCas?)
    ensures Inv(Apply(s, Access(id)))
  {
    var t := Apply(s, Access(id));
    assert forall c :: c in s.calls && c != id ==> t.calls[c] == s.calls[c];
    if s.x == 0 {
      var c :| c in s.calls && s.calls[c].DecCas?;
      assert t.calls[c].DecCas?;
    }
  }

  lemma AccessKeepsInv(s: State, id: CallId)
    requires Inv(s) && Enabled(s, Access(id))
    ensures Inv(Apply(s, Access(id)))
  {
    match s.calls[id] {
      case IncAdd(_) => AddKeepsInv(s, id);
      case DecSub(_) => SubKeepsInv(s, id);
      case DecCas => CasKeepsInv(s, id);
      case DecExchange => ExchangeKeepsInv(s, id);
      case LoadRead => LoadKeepsInv(s, id);
      case LoadCas => LoadKeepsInv(s, id);
    }
  }

  lemma InvokeKeepsInv(s: State, id: CallId, pc: Pc)
    requires Inv(s) && Enabled(s, Invoke(id, pc))
    ensures Inv(Apply(s, Invoke(id, pc)))
  {
    var t := Apply(s, Invoke(id, pc));
    assert forall c :: c in s.calls ==> t.calls[c] == s.calls[c];
  }

  lemma {:induction false} RunKeepsInv(s: State, ls: seq<Label>)
    requires Inv(s) && Runnable(s, ls)
    ensures Inv(Run(s, ls))
    decreases |ls|
  {
    if ls != [] {
      match ls[0] {
        case Invoke(id, pc) => InvokeKeepsInv(s, id, pc);
        case Access(id) => AccessKeepsInv(s, id);
      }
      RunKeepsInv(Apply(s, ls[0]), ls[1..]);
    }
  }

  // ---------------------------------------------------------------- what every run keeps

  ghost predicate Quiescent(s: State) {
    forall id :: id in s.calls ==> s.calls[id].Incremented? || s.calls[id].Decremented? || s.calls[id].Loaded?
  }

  /** At most one decrement ever returns true; and once every call has returned and no reference is
      outstanding, exactly one has. */
  lemma ExactlyOneDecrementClaimsZero(s0: State, n: nat, ls: seq<Label>)
    requires Init(s0, n) && Runnable(s0, ls)
    ensures OneClaim(Run(s0, ls))
    ensures Claimed(Run(s0, ls)) ==> Run(s0, ls).owned == 0
    ensures Quiescent(Run(s0, ls)) && Run(s0, ls).owned == 0 ==> Claimed(Run(s0, ls))
  {
    RunKeepsInv(s0, ls);
  }

  /** A claim may be made by a decrement other than the one whose subtraction reached zero last: when decrements 0
      and 2 have both reached zero (with increment 1 in between), the slower decrement 0 claims the zero that
      decrement 2 produced, and 2 then returns false. */
  lemma SlowerDecrementMayClaim() returns (before: seq<Label>, after: seq<Label>)
    ensures var s0 := State(1, map[], 1, 1);
            && Init(s0, 1) && Runnable(s0, before)
            && Run(s0, before) == State(0, map[0 := DecCas, 1 := Incremented(true), 2 := DecCas], 0, 2)
            && Runnable(s0, before + after)
            && Run(s0, before + after).calls
               == map[0 := Decremented(true), 1 := Incremented(true), 2 := Decremented(false)]
  {
    hide Run, Runnable;
    var s0 := State(1, map[], 1, 1);
    before := BothReachZero(s0);
    var s6 := State(0, map[0 := DecCas, 1 := Incremented(true), 2 := DecCas], 0, 2);
    var s7 := State(ZERO_FLAG, map[0 := Decremented(true), 1 := Incremented(true), 2 := DecCas], 0, 2);
    RunOneMore(s0, before, s6, Access(0), s7);
    var calls := map[0 := Decremented(true), 1 := Incremented(true), 2 := Decremented(false)];
    RunOneMore(s0, before + [Access(0)], s7, Access(2), s7.(calls := calls));
    after := [Access(0), Access(2)];
    assert before + after == before + [Access(0)] + [Access(2)];
  }

  /** Decrement 0 reaches zero and pauses; increment 1 goes up again; decrement 2 reaches zero too. */
  lemma BothReachZero(s0: State) returns (ls: seq<Label>)
    requires s0 == State(1, map[], 1, 1)
    ensures Runnable(s0, ls)
    ensures Run(s0, ls) == State(0, map[0 := DecCas, 1 := Incremented(true), 2 := DecCas], 0, 2)
  {
    hide Run, Runnable;
    RunNothing(s0);
    ls := [];
    var s1 := State(1, map[0 := DecSub(1)], 1, 1);
    RunOneMore(s0, ls, s0, Invoke(0, DecSub(1)), s1);
    ls := ls + [Invoke(0, DecSub(1))];
    var s2 := State(0, map[0 := DecCas], 0, 1);
    RunOneMore(s0, ls, s1, Access(0), s2);
    ls := ls + [Access(0)];
    var s3 := State(0, map[0 := DecCas, 1 := IncAdd(1)], 0, 1);
    RunOneMore(s0, ls, s2, Invoke(1, IncAdd(1)), s3);
    ls := ls + [Invoke(1, IncAdd(1))];
    var s4 := State(1, map[0 := DecCas, 1 := Incremented(true)], 1, 2);
    RunOneMore(s0, ls, s3, Access(1), s4);
    ls := ls + [Access(1)];
    var s5 := State(1, map[0 := DecCas, 1 := Incremented(true), 2 := DecSub(1)], 1, 2);
    RunOneMore(s0, ls, s4, Invoke(2, DecSub(1)), s5);
    ls := ls + [Invoke(2, DecSub(1))];
    RunOneMore(s0, ls, s5, Access(2), State(0, map[0 := DecCas, 1 := Incremented(true), 2 := DecCas], 0, 2));
    ls := ls + [Access(2)];
  }

  // ---------------------------------------------------------------- when the claim is the one that reached zero

  /** The step is a decrement's subtraction that takes the word to zero. */
  predicate ReachesZero(s: State, l: Label)
    requires Enabled(s, l)
  {
    l.Access? && s.calls[l.id].DecSub? && s.x == s.calls[l.id].arg
  }

  /** The step is an increment that succeeds although no reference is outstanding, and issues some. */
  predicate Revives(s: State, l: Label)
    requires Enabled(s, l)
  {
    l.Access? && s.calls[l.id].IncAdd? && s.calls[l.id].arg > 0 && !Zeroed(s.x) && s.owned == 0
  }

  /** The decrements that reached zero in the run, beside those in `zero`. */
  function Zeroers(s: State, ls: seq<Label>, zero: set<CallId>): set<CallId>
    requires Runnable(s, ls)
    decreases |ls|
  {
    if ls == [] then zero
    else Zeroers(Apply(s, ls[0]), ls[1..], if ReachesZero(s, ls[0]) then zero + {ls[0].id} else zero)
  }

  /** Some increment of the run succeeded with no reference outstanding. */
  predicate Revived(s: State, ls: seq<Label>)
    requires Runnable(s, ls)
    decreases |ls|
  {
    ls != [] && (Revives(s, ls[0]) || Revived(Apply(s, ls[0]), ls[1..]))
  }

  /** Each decrement whose subtraction reached zero has returned true, and no other decrement has. */
  ghost predicate ClaimedByZeroers(s: State, zero: set<CallId>) {
    forall id :: id in zero <==> id in s.calls && s.calls[id] == Decremented(true)
  }

  /** Only decrements that reached zero try to claim it. Without a revival at most one has reached zero, and none
      while references are outstanding; after one, some has that either cannot claim or is not alone. */
  ghost predicate ZeroersOk(s: State, zero: set<CallId>, revived: bool) {
    && (forall id :: id in s.calls && (s.calls[id] in {DecCas, DecExchange, Decremented(true)}) ==> id in zero)
    && (forall id :: id in zero ==> id in s.calls && (s.calls[id] in {DecCas, DecExchange} || s.calls[id].Decremented?))
    && (!revived ==> (zero == {} <==> s.owned > 0) && forall a, b :: a in zero && b in zero ==> a == b)
    && (revived ==> zero != {} && (s.owned > 0 || exists a, b :: a in zero && b in zero && a != b))
  }

  lemma ZeroersSub(s: State, l: Label, zero: set<CallId>, revived: bool)
    requires Inv(s) && Enabled(s, l) && ZeroersOk(s, zero, revived) && l.Access? && s.calls[l.id].DecSub?
    ensures ZeroersOk(Apply(s, l), if ReachesZero(s, l) then zero + {l.id} else zero, revived)
  {
    assert s.x == s.owned && l.id !in zero;
    var t := Apply(s, l);
    assert forall c :: c in s.calls && c != l.id ==> t.calls[c] == s.calls[c];
    if ReachesZero(s, l) && zero != {} {
      var a :| a in zero;
      assert a in zero + {l.id} && l.id in zero + {l.id} && a != l.id;
    }
  }

  lemma ZeroersAdd(s: State, l: Label, zero: set<CallId>, revived: bool)
    requires Inv(s) && Enabled(s, l) && ZeroersOk(s, zero, revived) && l.Access? && s.calls[l.id].IncAdd?
    ensures ZeroersOk(Apply(s, l), zero, revived || Revives(s, l))
  {
    var t := Apply(s, l);
    assert forall c :: c in s.calls && c != l.id ==> t.calls[c] == s.calls[c];
    assert l.id !in zero && t.owned >= s.owned;
  }

  /** The other steps change no count. */
  lemma ZeroersQuiet(s: State, l: Label, zero: set<CallId>, revived: bool)
    requires Enabled(s, l) && ZeroersOk(s, zero, revived)
    requires (l.Access? ==> !s.calls[l.id].DecSub? && !s.calls[l.id].IncAdd?)
    ensures ZeroersOk(Apply(s, l), zero, revived)
  {
    var t := Apply(s, l);
    assert forall c :: c in s.calls && c != l.id ==> t.calls[c] == s.calls[c];
    assert t.owned == s.owned;
  }

  lemma ZeroersStep(s: State, l: Label, zero: set<CallId>, revived: bool)
    requires Inv(s) && Enabled(s, l) && ZeroersOk(s, zero, revived)
    ensures ZeroersOk(Apply(s, l), if ReachesZero(s, l) then zero + {l.id} else zero, revived || Revives(s, l))
  {
    hide Inv, ZeroersOk, Apply;
    if l.Access? && s.calls[l.id].DecSub? { ZeroersSub(s, l, zero, revived); }
    else if l.Access? && s.calls[l.id].IncAdd? { ZeroersAdd(s, l, zero, revived); }
    else { ZeroersQuiet(s, l, zero, revived); }
  }

  lemma {:induction false} ZeroersRun(s: State, ls: seq<Label>, zero: set<CallId>, revived: bool)
    requires Inv(s) && Runnable(s, ls) && ZeroersOk(s, zero, revived)
    ensures Inv(Run(s, ls)) && ZeroersOk(Run(s, ls), Zeroers(s, ls, zero), revived || Revived(s, ls))
    decreases |ls|
  {
    hide Inv, ZeroersOk, Apply, Enabled, ReachesZero, Revives;
    if ls != [] {
      match ls[0] {
        case Invoke(id, pc) => InvokeKeepsInv(s, id, pc);
        case Access(id) => AccessKeepsInv(s, id);
      }
      ZeroersStep(s, ls[0], zero, revived);
      ZeroersRun(Apply(s, ls[0]), ls[1..], if ReachesZero(s, ls[0]) then zero + {ls[0].id} else zero,
                 revived || Revives(s, ls[0]));
    }
  }

  /** A decrement returns true exactly if it is the one that reached zero, in every run that has come to rest and in
      which no increment succeeded while no reference was outstanding; and in no other. */
  lemma ClaimantReachedZeroIff(s0: State, n: nat, ls: seq<Label>)
    requires Init(s0, n) && Runnable(s0, ls) && Quiescent(Run(s0, ls))
    ensures ClaimedByZeroers(Run(s0, ls), Zeroers(s0, ls, {})) <==> !Revived(s0, ls)
  {
    var s, zero := Run(s0, ls), Zeroers(s0, ls, {});
    ZeroersRun(s0, ls, {}, false);
    if !Revived(s0, ls) {
      if zero != {} {
        var c :| c in s.calls && s.calls[c] == Decremented(true);
      }
    } else if s.owned > 0 {
      var a :| a in zero;
      assert s.calls[a] != Decremented(true);
    } else {
      var a, b :| a in zero && b in zero && a != b;
      assert s.calls[a] != Decremented(true) || s.calls[b] != Decremented(true);
    }
  }

  lemma RunNothing(s: State)
    ensures Runnable(s, []) && Run(s, []) == s
  {
  }

  lemma {:induction false} RunOneMore(s0: State, ls: seq<Label>, s: State, l: Label, t: State)
    requires Runnable(s0, ls) && Run(s0, ls) == s && Enabled(s, l) && Apply(s, l) == t
    ensures Runnable(s0, ls + [l]) && Run(s0, ls + [l]) == t
    decreases |ls|
  {
    if ls == [] {
      RunNothing(t);
      assert ([] + [l])[1..] == [];
    } else {
      assert (ls + [l])[1..] == ls[1..] + [l];
      RunOneMore(Apply(s0, ls[0]), ls[1..], s, l, t);
    }
  }

  // ---------------------------------------------------------------- stuck at zero

  /** What a call returns tells whether the counter is stuck: a load of 0, a failed increment and a
      claiming decrement each see (or make) it stuck; any other answer is the exact count. */
  lemma AnswersAreExact(s: State, id: CallId)
    requires Inv(s) && Enabled(s, Access(id))
    ensures var t := Apply(s, Access(id));
            match t.calls[id]
            case Loaded(v) => v == t.owned && (v == 0 ==> Zeroed(t.x))
            case Incremented(ok) => ok == !Zeroed(s.x) && (!ok ==>
              Zeroed(t.x)) && t.owned == if ok then s.owned + s.calls[id].arg else s.owned
            case Decremented(zero) => zero ==> Zeroed(t.x)
            case _ => true
  {
    AccessKeepsInv(s, id);
  }

  /** Once stuck, stuck for the rest of the run. */
  lemma {:induction false} ZeroIsForever(s: State, ls: seq<Label>)
    requires Inv(s) && Runnable(s, ls) && Zeroed(s.x)
    ensures Zeroed(Run(s, ls).x) && Run(s, ls).owned == 0
    decreases |ls|
  {
    if ls != [] {
      var t := Apply(s, ls[0]);
      match ls[0] {
        case Invoke(id, pc) => InvokeKeepsInv(s, id, pc);
        case Access(id) => AccessKeepsInv(s, id);
      }
      ZeroIsForever(t, ls[1..]);
    }
  }

  /** Over whole runs: after any load returned 0, any increment failed, or any decrement returned true,
      every later load returns 0 and every later increment fails. */
  lemma StaysAtZero(s0: State, n: nat, before: seq<Label>, id: CallId, after: seq<Label>, later: CallId)
    requires Init(s0, n) && Runnable(s0, before)
    requires var s := Run(s0, before);
             && Enabled(s, Access(id))
             && var t := Apply(s, Access(id));
             && t.calls[id] in {Loaded(0), Incremented(false), Decremented(true)}
             && Runnable(t, after)
             && Enabled(Run(t, after), Access(later))
    ensures var u := Run(Apply(Run(s0, before), Access(id)), after);
            var r := Apply(u, Access(later)).calls[later];
            && (r.Loaded? ==> r == Loaded(0))
            && (r.Incremented? ==> r == Incremented(false))
            && (r.Decremented? ==> u.calls[later] in {DecCas, DecExchange})
  {
    var s := Run(s0, before);
    RunKeepsInv(s0, before);
    AnswersAreExact(s, id);
    AccessKeepsInv(s, id);
    var t := Apply(s, Access(id));
    ZeroIsForever(t, after);
    RunKeepsInv(t, after);
    AnswersAreExact(Run(t, after), later);
    ZeroAccess(Run(t, after), later);
  }

  lemma ZeroAccess(u: State, id: CallId)
    requires Inv(u) && Zeroed(u.x) && Enabled(u, Access(id))
    ensures Apply(u, Access(id)).owned == 0 && !u.calls[id].DecSub?
  {
  }

  // ---------------------------------------------------------------- refinement of an atomic counter

  /** The simple counter the rest of the library relies on: a count that sticks when it is zero, and a
      zero that is claimed once. */
  datatype Simple = Simple(count: nat, stuck: bool, claimed: bool)

  datatype Event =
    | Silent | Add(arg: nat, ok: bool) | Take(arg: nat) | Read(value: nat)
    | Stick | Claim | StickAndClaim | StickAndRead

  ghost predicate SimpleStep(a: Simple, e: Event, b: Simple) {
    match e
    case Silent => b == a
    case Add(arg, ok) => ok == !a.stuck && b == if ok then a.(count := a.count + arg) else a
    case Take(arg) => !a.stuck && arg <= a.count && b == a.(count := a.count - arg)
    case Stick => a.count == 0 && !a.stuck && b == a.(stuck := true)
    case Claim => a.stuck && !a.claimed && b == a.(claimed := true)
    case StickAndClaim => a.count == 0 && !a.stuck && !a.claimed && b == a.(stuck := true, claimed := true)
    case Read(v) => b == a && v == a.count && (v == 0 ==> a.stuck)
    case StickAndRead => a.count == 0 && !a.stuck && b == a.(stuck := true)
  }

  ghost function Abstract(s: State): Simple {
    Simple(s.owned, Zeroed(s.x), Claimed(s))
  }

  /** The event each atomic access stands for. */
  function EventOf(s: State, l: Label): Event
    requires Enabled(s, l)
  {
    match l
    case Invoke(_, _) => Silent
    case Access(id) =>
      match s.calls[id]
      case IncAdd(arg) => Add(arg, !Zeroed(s.x))
      case DecSub(arg) => Take(arg)
      case DecCas => if s.x == 0 then StickAndClaim else Silent
      case DecExchange => if Pending(s.x) then Claim else Silent
      case LoadRead => if s.x == 0 then Silent else Read(Shown(s.x))
      case LoadCas => if s.x == 0 then StickAndRead else Read(Shown(s.x))
      case _ => Silent
  }

  /** Every step of the bit-level counter is a step of the simple one. */
  lemma RefinesSimpleCounter(s: State, l: Label)
    requires Inv(s) && Enabled(s, l)
    ensures SimpleStep(Abstract(s), EventOf(s, l), Abstract(Apply(s, l)))
  {
    var t := Apply(s, l);
    match l {
      case Invoke(id, pc) =>
        InvokeKeepsInv(s, id, pc);
        assert forall c :: c in s.calls ==> t.calls[c] == s.calls[c];
      case Access(id) =>
        AccessKeepsInv(s, id);
    }
  }
}
