/** Crossing a screen edge, seen from both screens: who gets the cursor, where it enters, and the way
    back. */
module Crossing {
  import opened Ids
  import opened Node
  import opened ScreenRing
  import opened Edge

  /** Off the right edge the cursor goes to the next device of the order and enters at its second
      column; one step back out returns it to the sender. */
  lemma OffTheRight(from: Screen, to: Screen, members: set<NodeId>, n: NodeId, x: int, y: int)
    requires n in members && |members| >= 2 && 0 < x && from.w - 1 <= x && to.w >= 3
    ensures var side := Trigger(from, x);
      var target, enter := Neighbor(n, members, side == Right), EntryPoint(to, Opposite(side), ExitRatio(from, y));
      && side == Right && ComesNext(members, n, target) && enter.0 == 1
      && Trigger(to, enter.0 - 1) == Left && Neighbor(target, members, false) == n
  {
    NeighborIsNext(members, n);
    NeighborsInvert(members, n);
    EntersBesideTheEdge(to, ExitRatio(from, y));
  }

  /** Off the left edge it goes to the device this one comes next to, and enters at its last column but
      one; one step back out returns it to the sender. */
  lemma OffTheLeft(from: Screen, to: Screen, members: set<NodeId>, n: NodeId, x: int, y: int)
    requires n in members && |members| >= 2 && x <= 0 && to.w >= 3
    ensures var side := Trigger(from, x);
      var target, enter := Neighbor(n, members, side == Right), EntryPoint(to, Opposite(side), ExitRatio(from, y));
      && side == Left && ComesNext(members, target, n) && enter.0 == to.w - 2
      && Trigger(to, enter.0 + 1) == Right && Neighbor(target, members, true) == n
  {
    NeighborIsNext(members, n);
    NeighborsInvert(members, n);
    EntersBesideTheEdge(to, ExitRatio(from, y));
  }
}
