/** Device identifiers, their order, and the ring every device derives from a member set.

    Identifiers are strings compared byte by byte, as Go's `sort.Strings` does; the empty
    string is the owner of a pool that has not heard of any owner yet. */
module Ids {

  type NodeId = string

  const NONE: NodeId := ""

  /** Go's `<` on strings. */
  predicate Less(a: NodeId, b: NodeId) {
    if b == "" then false
    else if a == "" then true
    else if a[0] != b[0] then a[0] < b[0]
    else Less(a[1..], b[1..])
  }

  lemma {:induction false} Trichotomy(a: NodeId, b: NodeId)
    ensures Less(a, b) || a == b || Less(b, a)
  {
    if a != "" && b != "" && a[0] == b[0] {
      Trichotomy(a[1..], b[1..]);
      if a[1..] == b[1..] {
        assert a == [a[0]] + a[1..] == [b[0]] + b[1..] == b;
      }
    }
  }

  lemma {:induction false} Asymmetry(a: NodeId, b: NodeId)
    ensures Less(a, b) ==> !Less(b, a)
  {
    if a != "" && b != "" && a[0] == b[0] {
      Asymmetry(a[1..], b[1..]);
    }
  }

  lemma {:induction false} Transitivity(a: NodeId, b: NodeId, c: NodeId)
    requires Less(a, b) && Less(b, c)
    ensures Less(a, c)
  {
    if a != "" && a[0] == b[0] == c[0] {
      Transitivity(a[1..], b[1..], c[1..]);
    }
  }

  /** At position `k` the strings part, and `a` has the smaller character there. */
  predicate PartsBelow(a: NodeId, b: NodeId, k: nat) {
    k < |a| && k < |b| && a[..k] == b[..k] && a[k] < b[k]
  }

  lemma SameFirst(a: NodeId, b: NodeId, k: nat)
    requires PartsBelow(a, b, k)
    ensures k > 0 ==> a[0] == b[0]
  {
    if k > 0 {
      assert a[..k][0] == a[0] && b[..k][0] == b[0];
    }
  }

  /** The order is that of the first characters to differ, a proper prefix coming first. */
  lemma {:induction false} LessIff(a: NodeId, b: NodeId)
    ensures Less(a, b) <==> a < b || exists k: nat :: PartsBelow(a, b, k)
  {
    if a != "" && b != "" {
      if a[0] == b[0] {
        LessIff(a[1..], b[1..]);
        assert a == [a[0]] + a[1..] && b == [b[0]] + b[1..];
        if k: nat :| PartsBelow(a[1..], b[1..], k) {
          assert a[..k + 1] == [a[0]] + a[1..][..k] && b[..k + 1] == [b[0]] + b[1..][..k];
          assert PartsBelow(a, b, k + 1);
        }
        if k: nat :| PartsBelow(a, b, k) {
          assert k > 0 && a[1..][..k - 1] == a[..k][1..] && b[1..][..k - 1] == b[..k][1..];
          assert PartsBelow(a[1..], b[1..], k - 1);
        }
      } else {
        assert a[0] < b[0] ==> PartsBelow(a, b, 0);
        if k: nat :| PartsBelow(a, b, k) {
          SameFirst(a, b, k);
        }
      }
    }
  }

  ghost predicate IsLowest(m: NodeId, s: set<NodeId>) {
    m in s && forall x | x in s && x != m :: Less(m, x)
  }

  lemma {:induction false} LowestExists(s: set<NodeId>)
    requires s != {}
    ensures exists m :: IsLowest(m, s)
    decreases |s|
  {
    var x :| x in s;
    var rest := s - {x};
    if rest == {} {
      assert s == {x};
      assert IsLowest(x, s);
    } else {
      LowestExists(rest);
      var m :| IsLowest(m, rest);
      Trichotomy(x, m);
      if Less(x, m) {
        forall y | y in s && y != x ensures Less(x, y) {
          if y != m { Transitivity(x, m, y); }
        }
        assert IsLowest(x, s);
      } else {
        assert IsLowest(m, s);
      }
    }
  }

  /** The identifier that sorts first: the one the survivors of a dead owner agree on. */
  ghost function Lowest(s: set<NodeId>): (m: NodeId)
    requires s != {}
    ensures IsLowest(m, s)
  {
    LowestExists(s);
    var m :| IsLowest(m, s);
    m
  }

  lemma LowestUnique(m: NodeId, s: set<NodeId>)
    requires IsLowest(m, s)
    ensures m == Lowest(s)
  {
    Asymmetry(m, Lowest(s));
  }

  predicate Ascending(r: seq<NodeId>) {
    forall i, j | 0 <= i < j < |r| :: Less(r[i], r[j])
  }

  /** The member set in ascending order: the cyclic order of the screens. */
  ghost function Ring(s: set<NodeId>): (r: seq<NodeId>)
    ensures Ascending(r)
    ensures forall x :: x in r <==> x in s
    ensures |r| == |s|
    decreases |s|
  {
    if s == {} then []
    else
      var m := Lowest(s);
      var rest := Ring(s - {m});
      assert forall j | 0 <= j < |rest| :: rest[j] in s - {m};
      [m] + rest
  }

  lemma RingFirst(s: set<NodeId>)
    requires s != {}
    ensures Ring(s) != [] && Ring(s)[0] == Lowest(s)
    ensures var first := Ring(s)[0]; first in s && forall m | m in s && m != first :: Less(first, m)
  {
    hide Less;
  }

  /** A set has one ascending enumeration, so devices with equal member sets agree on the ring. */
  lemma {:induction false} RingUnique(r: seq<NodeId>, s: set<NodeId>)
    requires Ascending(r)
    requires forall x :: x in r <==> x in s
    ensures r == Ring(s)
    decreases |r|
  {
    if r == [] {
      assert forall x :: x !in s;
    } else {
      assert r[0] in s;
      assert IsLowest(r[0], s) by {
        forall x | x in s && x != r[0] ensures Less(r[0], x) { assert x in r; }
      }
      LowestUnique(r[0], s);
      var rest := r[1..];
      forall x ensures x in rest <==> x in s - {r[0]} {
        if x in rest {
          var i :| 0 <= i < |rest| && rest[i] == x;
          Asymmetry(r[0], r[i + 1]);
        }
        if x in s - {r[0]} { assert x in r; }
      }
      RingUnique(rest, s - {r[0]});
      assert r == [r[0]] + rest;
    }
  }

  function IndexOf(r: seq<NodeId>, x: NodeId): (i: nat)
    requires x in r
    ensures i < |r| && r[i] == x
  {
    if r[0] == x then 0 else 1 + IndexOf(r[1..], x)
  }

  lemma AscendingDistinct(r: seq<NodeId>)
    requires Ascending(r)
    ensures forall i, j | 0 <= i < |r| && 0 <= j < |r| && r[i] == r[j] :: i == j
  {
    forall i, j | 0 <= i < j < |r| ensures r[i] != r[j] {
      Asymmetry(r[i], r[j]);
    }
  }

  /** Go's `sort.Strings` on a slice without repetitions. */
  function Sorted(ids: seq<NodeId>): (r: seq<NodeId>)
    ensures multiset(r) == multiset(ids)
  {
    if ids == [] then []
    else
      assert ids == [ids[0]] + ids[1..];
      Insert(ids[0], Sorted(ids[1..]))
  }

  function Insert(x: NodeId, r: seq<NodeId>): (q: seq<NodeId>)
    ensures multiset(q) == multiset(r) + multiset{x}
  {
    if r == [] || Less(x, r[0]) then [x] + r
    else
      assert r == [r[0]] + r[1..];
      [r[0]] + Insert(x, r[1..])
  }

  lemma {:induction false} InsertAscending(x: NodeId, r: seq<NodeId>)
    requires Ascending(r) && x !in r
    ensures Ascending(Insert(x, r))
  {
    if r == [] {
    } else if Less(x, r[0]) {
      forall j | 0 < j < |r| ensures Less(x, r[j]) { Transitivity(x, r[0], r[j]); }
    } else {
      Trichotomy(x, r[0]);
      var q := Insert(x, r[1..]);
      InsertAscending(x, r[1..]);
      forall j | 0 <= j < |q| ensures Less(r[0], q[j]) {
        assert q[j] in multiset(q);
        assert q[j] == x || q[j] in r[1..];
      }
    }
  }

  /** Sorting any listing of a set yields the set's ring. */
  lemma {:induction false} SortedIsRing(ids: seq<NodeId>, s: set<NodeId>)
    requires forall x :: x in ids <==> x in s
    requires |ids| == |s|
    ensures Sorted(ids) == Ring(s)
  {
    DistinctListing(ids, s);
    SortedAscending(ids);
    forall x ensures x in Sorted(ids) <==> x in s {
      assert x in Sorted(ids) <==> x in multiset(Sorted(ids));
      assert x in ids <==> x in multiset(ids);
    }
    RingUnique(Sorted(ids), s);
  }

  lemma {:induction false} SortedAscending(ids: seq<NodeId>)
    requires forall i, j | 0 <= i < j < |ids| :: ids[i] != ids[j]
    ensures Ascending(Sorted(ids))
  {
    if ids != [] {
      SortedAscending(ids[1..]);
      assert ids[0] !in ids[1..];
      assert ids[0] !in Sorted(ids[1..]) by {
        assert ids[0] in Sorted(ids[1..]) <==> ids[0] in multiset(Sorted(ids[1..]));
      }
      InsertAscending(ids[0], Sorted(ids[1..]));
    }
  }

  /** A listing as long as the set it covers repeats nothing. */
  lemma {:induction false} DistinctListing(ids: seq<NodeId>, s: set<NodeId>)
    requires forall x :: x in ids ==> x in s
    requires forall x :: x in s ==> x in ids
    requires |ids| == |s|
    ensures forall i, j | 0 <= i < j < |ids| :: ids[i] != ids[j]
    decreases |ids|
  {
    forall i, j | 0 <= i < j < |ids| ensures ids[i] != ids[j] {
      if ids[i] == ids[j] {
        var shorter := ids[..j] + ids[j + 1..];
        forall x | x in s ensures x in shorter {
          var k :| 0 <= k < |ids| && ids[k] == x;
          var k' := if k == j then i else k;
          assert ids[k'] == x;
          assert if k' < j then shorter[k'] == x else shorter[k' - 1] == x;
        }
        Coverage(shorter, s);
      }
    }
  }

  lemma {:induction false} Coverage(ids: seq<NodeId>, s: set<NodeId>)
    requires forall x :: x in s ==> x in ids
    ensures |s| <= |ids|
    decreases |ids|
  {
    if ids == [] {
      assert s == {};
    } else {
      var rest := s - {ids[0]};
      forall x | x in rest ensures x in ids[1..] {
        assert x in ids;
      }
      Coverage(ids[1..], rest);
      assert |s| <= |rest| + 1;
    }
  }
}
