/** The screens form one cycle, the same on every device. */
module ScreenRing {
  import opened Ids
  import opened Node

  /** The screen `k` steps to the right of `x`. */
  ghost function Walk(members: set<NodeId>, x: NodeId, k: nat): NodeId {
    if k == 0 then x else Neighbor(Walk(members, x, k - 1), members, true)
  }

  /** `i` steps on by `k`, at most once around. */
  function Rotate(i: nat, k: nat, n: nat): (j: nat)
    requires i < n && k <= n
    ensures j < n
  {
    if i + k < n then i + k else i + k - n
  }

  lemma SmallMod(m: nat, n: nat)
    requires 0 < n && m < 2 * n
    ensures m % n == if m < n then m else m - n
  {
    var q := m / n;
    assert m == n * q + m % n;
    MulTwice(n, q);
  }

  lemma MulTwice(n: nat, q: int)
    ensures q >= 2 ==> n * q >= 2 * n
  {}

  lemma NeighborAt(members: set<NodeId>, i: nat, right: bool)
    requires |members| >= 2 && i < |members|
    ensures Neighbor(Ring(members)[i], members, right) ==
            Ring(members)[Rotate(i, if right then 1 else |members| - 1, |members|)]
  {
    hide Ring, IndexOf;
    AscendingDistinct(Ring(members));
    SmallMod(i + 1, |members|);
    SmallMod(i - 1 + |members|, |members|);
  }

  /** Right and left undo each other and never lead back to the same screen. */
  lemma NeighborsInvert(members: set<NodeId>, x: NodeId)
    requires |members| >= 2 && x in members
    ensures var r, l := Neighbor(x, members, true), Neighbor(x, members, false);
      && r in members && l in members && r != x && l != x
      && Neighbor(r, members, false) == x && Neighbor(l, members, true) == x
  {
    hide Ring, IndexOf, Neighbor;
    var ring := Ring(members);
    AscendingDistinct(ring);
    var i, n := IndexOf(ring, x), |members|;
    var r, l := Rotate(i, 1, n), Rotate(i, n - 1, n);
    NeighborAt(members, i, true);
    NeighborAt(members, i, false);
    NeighborAt(members, r, false);
    NeighborAt(members, l, true);
    assert ring[r] in ring && ring[l] in ring;
  }

  /** `y` comes right after `x` in the order, or first when nobody comes after `x`. */
  ghost predicate ComesNext(members: set<NodeId>, x: NodeId, y: NodeId) {
    if exists m :: m in members && Less(x, m)
    then Less(x, y) && forall m | m in members && Less(x, m) && m != y :: Less(y, m)
    else IsLowest(y, members)
  }

  lemma NextAt(members: set<NodeId>, i: nat)
    requires |members| >= 2 && i < |members|
    ensures ComesNext(members, Ring(members)[i], Ring(members)[Rotate(i, 1, |members|)])
  {
    hide Ring, Less;
    var ring := Ring(members);
    var x, y := ring[i], ring[Rotate(i, 1, |members|)];
    forall m | m in members ensures Less(x, m) <==> IndexOf(ring, m) > i {
      Asymmetry(x, m);
    }
    if i + 1 < |members| {
      assert y in members && Less(x, y);
    } else {
      forall m | m in members && m != y ensures Less(y, m) {
        assert ring[IndexOf(ring, m)] == m;
      }
    }
  }

  /** The right neighbour is the next device in the order of IDs, and this device is the next one of
      its left neighbour. */
  lemma NeighborIsNext(members: set<NodeId>, x: NodeId)
    requires |members| >= 2 && x in members
    ensures ComesNext(members, x, Neighbor(x, members, true))
    ensures ComesNext(members, Neighbor(x, members, false), x)
  {
    hide Ring, IndexOf, Neighbor, ComesNext;
    var i, n := IndexOf(Ring(members), x), |members|;
    var l := Rotate(i, n - 1, n);
    NeighborAt(members, i, true);
    NeighborAt(members, i, false);
    NextAt(members, i);
    NextAt(members, l);
    assert Rotate(l, 1, n) == i;
  }

  lemma {:induction false} WalkAt(members: set<NodeId>, x: NodeId, k: nat)
    requires |members| >= 2 && x in members && k <= |members|
    ensures Walk(members, x, k) == Ring(members)[Rotate(IndexOf(Ring(members), x), k, |members|)]
  {
    hide Ring, IndexOf, Neighbor;
    if k > 0 {
      WalkAt(members, x, k - 1);
      NeighborAt(members, Rotate(IndexOf(Ring(members), x), k - 1, |members|), true);
    }
  }

  ghost predicate VisitedWithin(members: set<NodeId>, x: NodeId, n: nat, y: NodeId) {
    exists k: nat :: k < n && Walk(members, x, k) == y
  }

  /** Walking right visits every screen exactly once before coming back to the start. */
  lemma WalkIsOneCycle(members: set<NodeId>, x: NodeId)
    requires |members| >= 2 && x in members
    ensures Walk(members, x, |members|) == x
    ensures forall j: nat, k: nat | j < k < |members| :: Walk(members, x, j) != Walk(members, x, k)
    ensures forall y | y in members :: VisitedWithin(members, x, |members|, y)
  {
    hide Ring, IndexOf, Neighbor, Walk;
    var ring := Ring(members);
    AscendingDistinct(ring);
    var i, n := IndexOf(ring, x), |members|;
    WalkAt(members, x, n);
    forall j: nat, k: nat | j < k < n ensures Walk(members, x, j) != Walk(members, x, k) {
      WalkAt(members, x, j);
      WalkAt(members, x, k);
      assert Rotate(i, j, n) != Rotate(i, k, n);
    }
    forall y | y in members ensures VisitedWithin(members, x, |members|, y) {
      var t := IndexOf(ring, y);
      var k := if t >= i then t - i else t - i + n;
      WalkAt(members, x, k);
      assert Rotate(i, k, n) == t && Walk(members, x, k) == y;
    }
  }
}
