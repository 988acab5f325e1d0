/** Trees as the Natarajan-Mittal search tree keeps them: keys only in the leaves, each inner node sending the keys
    below its own to the left and the others to the right.

    These are the values that the shared nodes of NatarajanTreeRCSS.hpp stand for at an instant.
 */
module TreeShapes {
  import opened Options

  type Node = nat
  type Value(==)

  /** An ordinary key, or one of the three infinite keys of the sentinels. */
  datatype Key = Fin(k: int) | Inf(level: nat)

  function Level(x: Key): int { if x.Fin? then -1 else x.level }

  predicate Less(a: Key, b: Key) {
    Level(a) < Level(b) || (a.Fin? && b.Fin? && a.k < b.k)
  }

  datatype Tree =
    | Leaf(id: Node, key: Key, val: Option<Value>)
    | Inner(id: Node, key: Key, left: Tree, right: Tree)

  // ---------------------------------------------------------------- what a tree holds

  ghost function Ids(t: Tree): set<Node> {
    match t
    case Leaf(id, _, _) => {id}
    case Inner(id, _, l, r) => {id} + Ids(l) + Ids(r)
  }

  ghost function Leaves(t: Tree): set<Tree> {
    if t.Leaf? then {t} else Leaves(t.left) + Leaves(t.right)
  }

  ghost predicate NoDup(t: Tree) {
    t.Inner? ==>
        t.id !in Ids(t.left) && t.id !in Ids(t.right) && Ids(t.left) !! Ids(t.right) && NoDup(t.left) && NoDup(t.right)
  }

  /** The search order. */
  ghost predicate Ordered(t: Tree) {
    t.Inner? ==>
      && (forall x :: x in Leaves(t.left) ==> Less(x.key, t.key))
      && (forall x :: x in Leaves(t.right) ==> !Less(x.key, t.key))
      && Ordered(t.left) && Ordered(t.right)
  }

  // ---------------------------------------------------------------- the way of a key

  predicate GoesLeft(k: int, key: Key) { Less(Fin(k), key) }

  function Kid(t: Tree, k: int): Tree
    requires t.Inner?
  {
    if GoesLeft(k, t.key) then t.left else t.right
  }

  function Put(t: Tree, k: int, sub: Tree): Tree
    requires t.Inner?
  {
    if GoesLeft(k, t.key) then t.(left := sub) else t.(right := sub)
  }

  /** The inner node n lies on k's way from the root of t. */
  ghost predicate OnWay(t: Tree, k: int, n: Node) {
    t.Inner? && (t.id == n || OnWay(Kid(t, k), k, n))
  }

  /** The leaf at the end of k's way. */
  ghost function WayEnd(t: Tree, k: int): Tree {
    if t.Leaf? then t else WayEnd(Kid(t, k), k)
  }

  /** What hangs below the inner node a, in k's direction. */
  ghost function Under(t: Tree, k: int, a: Node): Tree
    requires OnWay(t, k, a)
  {
    if t.id == a then Kid(t, k) else Under(Kid(t, k), k, a)
  }

  /** t with that replaced by sub. */
  ghost function Replace(t: Tree, k: int, a: Node, sub: Tree): Tree
    requires OnWay(t, k, a)
  {
    Put(t, k, if t.id == a then sub else Replace(Kid(t, k), k, a, sub))
  }

  /** What is left of t when the inner node p on k's way goes, with all above it and one of its sides. */
  ghost function Kept(t: Tree, k: int, p: Node, left: bool): Tree
    requires OnWay(t, k, p)
  {
    if t.id == p then (if left then t.left else t.right) else Kept(Kid(t, k), k, p, left)
  }

  // ---------------------------------------------------------------- simple facts

  lemma {:induction false} LeafIds(t: Tree)
    ensures forall x :: x in Leaves(t) ==> x.Leaf? && x.id in Ids(t)
    ensures t.id in Ids(t)
  {
    if t.Inner? { LeafIds(t.left); LeafIds(t.right); }
  }

  lemma {:induction false} OnWayIds(t: Tree, k: int, n: Node)
    requires OnWay(t, k, n)
    ensures n in Ids(t)
  {
    if t.id != n { OnWayIds(Kid(t, k), k, n); }
  }

  lemma {:induction false} WayEndIsLeaf(t: Tree, k: int)
    ensures WayEnd(t, k) in Leaves(t) && WayEnd(t, k).Leaf?
  {
    if t.Inner? { WayEndIsLeaf(Kid(t, k), k); }
  }

  /** In search order, k's way ends at the leaf that holds k, if there is one: no other leaf does. */
  lemma {:induction false} FoundAtWayEnd(t: Tree, k: int, x: Tree)
    requires Ordered(t) && x in Leaves(t) && x.key == Fin(k)
    ensures WayEnd(t, k) == x
  {
    if t.Inner? {
      if x in Leaves(t.left) { FoundAtWayEnd(t.left, k, x); } else { FoundAtWayEnd(t.right, k, x); }
    }
  }

  lemma {:induction false} UnderIds(t: Tree, k: int, a: Node)
    requires OnWay(t, k, a) && NoDup(t)
    ensures Ids(Under(t, k, a)) <= Ids(t) && a !in Ids(Under(t, k, a)) && a in Ids(t)
    ensures Leaves(Under(t, k, a)) <= Leaves(t)
    ensures NoDup(Under(t, k, a))
    ensures Ordered(t) ==> Ordered(Under(t, k, a))
  {
    if t.id != a { UnderIds(Kid(t, k), k, a); }
  }

  lemma {:induction false} UnderWayEnd(t: Tree, k: int, a: Node)
    requires OnWay(t, k, a)
    ensures WayEnd(t, k) == WayEnd(Under(t, k, a), k)
  {
    if t.id != a { UnderWayEnd(Kid(t, k), k, a); }
  }

  // ---------------------------------------------------------------- replacing

  lemma {:induction false} ReplaceIds(t: Tree, k: int, a: Node, sub: Tree)
    requires OnWay(t, k, a) && NoDup(t) && NoDup(sub) && Ids(sub) !! (Ids(t) - Ids(Under(t, k, a)))
    ensures Ids(Replace(t, k, a, sub)) == (Ids(t) - Ids(Under(t, k, a))) + Ids(sub)
    ensures NoDup(Replace(t, k, a, sub))
    ensures Replace(t, k, a, sub).Inner? && Replace(t, k, a, sub).id == t.id
  {
    if t.id != a {
      UnderIds(Kid(t, k), k, a);
      ReplaceIds(Kid(t, k), k, a, sub);
    }
  }

  lemma {:induction false} ReplaceLeaves(t: Tree, k: int, a: Node, sub: Tree)
    requires OnWay(t, k, a) && NoDup(t)
    ensures Leaves(Replace(t, k, a, sub)) == (Leaves(t) - Leaves(Under(t, k, a))) + Leaves(sub)
  {
    var kid := Kid(t, k);
    var other := if GoesLeft(k, t.key) then t.right else t.left;
    LeafIds(kid);
    LeafIds(other);
    if t.id != a {
      UnderIds(kid, k, a);
      ReplaceLeaves(kid, k, a, sub);
    }
    assert Leaves(other) !! Leaves(kid) by {
      assert Ids(other) !! Ids(kid);
      forall x | x in Leaves(other) ensures x !in Leaves(kid) { assert x.id in Ids(other) && x.id !in Ids(kid); }
    }
  }

  /** The order survives when the new part holds only keys of the old part, and perhaps k itself. */
  lemma {:induction false} ReplaceOrdered(t: Tree, k: int, a: Node, sub: Tree)
    requires OnWay(t, k, a) && NoDup(t) && Ordered(t) && Ordered(sub)
    requires forall x :: x in Leaves(sub) ==> x in Leaves(Under(t, k, a)) || x.key == Fin(k)
    ensures Ordered(Replace(t, k, a, sub))
    ensures forall x :: x in Leaves(Replace(t, k, a, sub)) ==> x in Leaves(t) || x.key == Fin(k)
  {
    if t.id != a {
      UnderIds(Kid(t, k), k, a);
      ReplaceOrdered(Kid(t, k), k, a, sub);
    }
  }

  /** Whatever lies outside the replaced part stays on the ways it was on. */
  lemma {:induction false} ReplaceKeepsWays(t: Tree, k: int, a: Node, sub: Tree, j: int, n: Node)
    requires OnWay(t, k, a) && NoDup(t) && OnWay(t, j, n) && n !in Ids(Under(t, k, a))
    ensures OnWay(Replace(t, k, a, sub), j, n)
  {
    if t.id != n {
      OnWayIds(Kid(t, j), j, n);
      if GoesLeft(j, t.key) == GoesLeft(k, t.key) && t.id != a {
        ReplaceKeepsWays(Kid(t, k), k, a, sub, j, n);
      }
    }
  }

  /** A way that led into the replaced part leads into the new part. */
  lemma {:induction false} ReplaceWaysInto(t: Tree, k: int, a: Node, sub: Tree, j: int, n: Node)
    requires OnWay(t, k, a) && NoDup(t) && OnWay(t, j, n) && n in Ids(Under(t, k, a)) && OnWay(sub, j, n)
    ensures OnWay(Replace(t, k, a, sub), j, n)
  {
    UnderIds(t, k, a);
    OnWayIds(t, j, n);
    if t.id == a {
      OnWayIds(Kid(t, j), j, n);
    } else {
      UnderIds(Kid(t, k), k, a);
      OnWayIds(Kid(t, j), j, n);
      ReplaceWaysInto(Kid(t, k), k, a, sub, j, n);
    }
  }

  // ---------------------------------------------------------------- keeping one side

  lemma {:induction false} KeptParts(t: Tree, k: int, p: Node, left: bool)
    requires OnWay(t, k, p) && NoDup(t)
    ensures var sub := Kept(t, k, p, left);
            && Ids(sub) <= Ids(t) && p !in Ids(sub) && Leaves(sub) <= Leaves(t) && NoDup(sub)
            && (Ordered(t) ==> Ordered(sub))
  {
    if t.id != p {
      KeptParts(Kid(t, k), k, p, left);
      OnWayIds(Kid(t, k), k, p);
    }
  }

  /** Ways that lead to what is kept lead to it directly. */
  lemma {:induction false} KeptWays(t: Tree, k: int, p: Node, left: bool, j: int, n: Node)
    requires OnWay(t, k, p) && NoDup(t) && OnWay(t, j, n) && n in Ids(Kept(t, k, p, left))
    ensures OnWay(Kept(t, k, p, left), j, n)
  {
    KeptParts(t, k, p, left);
    if t.id == p {
      OnWayIds(Kid(t, j), j, n);
    } else {
      KeptParts(Kid(t, k), k, p, left);
      OnWayIds(Kid(t, j), j, n);
      KeptWays(Kid(t, k), k, p, left, j, n);
    }
  }

  /** k's way into the replaced part, seen from there. */
  lemma {:induction false} WayUnder(t: Tree, k: int, a: Node, j: int, n: Node)
    requires OnWay(t, k, a) && NoDup(t) && OnWay(t, j, n) && n in Ids(Under(t, k, a))
    ensures OnWay(Under(t, k, a), j, n)
  {
    UnderIds(t, k, a);
    if t.id == a {
      OnWayIds(Kid(t, j), j, n);
    } else {
      UnderIds(Kid(t, k), k, a);
      OnWayIds(Kid(t, j), j, n);
      WayUnder(Kid(t, k), k, a, j, n);
    }
  }
}
