/** Last writer wins: what a device believes after any delivery of ownership messages. */
module LastWriterWins {
  import opened Ids
  import opened Node

  datatype Claim = Claim(id: NodeId, version: nat)

  function Deliver(s: State, claims: seq<Claim>): State
    decreases |claims|
  {
    if claims == [] then s else Deliver(Bookkeep(s, claims[0].id, claims[0].version), claims[1..])
  }

  predicate Bounds(v: nat, s: State, claims: seq<Claim>) {
    s.version <= v && forall c | c in claims :: c.version <= v
  }

  predicate Attained(v: nat, s: State, claims: seq<Claim>) {
    v == s.version || exists c :: c in claims && c.version == v
  }

  /** With one owner per version a device ends at the highest version of its own and the
      delivered ones, starting from nothing heard (version 0) included. */
  lemma {:induction false} EndsAtMaximum(s: State, claims: seq<Claim>, owner: nat -> NodeId)
    requires s.activeID == owner(s.version) && forall c | c in claims :: c.id == owner(c.version)
    ensures var s' := Deliver(s, claims);
      && Bounds(s'.version, s, claims) && Attained(s'.version, s, claims)
      && s' == s.(activeID := owner(s'.version), version := s'.version)
    decreases |claims|
  {
    if claims != [] {
      var c, rest := claims[0], claims[1..];
      assert c in claims;
      var s1 := Bookkeep(s, c.id, c.version);
      EndsAtMaximum(s1, rest, owner);
      var v := Deliver(s1, rest).version;
      forall d | d in claims ensures d.version <= v { assert d == c || d in rest; }
      if v != s.version && v != c.version {
        var d :| d in rest && d.version == v;
        assert d in claims;
      }
    }
  }

  /** Neither order nor duplication of the messages matters. */
  lemma OrderIndependent(s: State, claims: seq<Claim>, claims': seq<Claim>, owner: nat -> NodeId)
    requires s.activeID == owner(s.version) && forall c | c in claims :: c.id == owner(c.version)
    requires forall c :: c in claims <==> c in claims'
    ensures Deliver(s, claims) == Deliver(s, claims')
  {
    EndsAtMaximum(s, claims, owner);
    EndsAtMaximum(s, claims', owner);
  }

  /** The protocol's comment promises that ties on the version are broken by owner; the code keeps
      the first comer. So two messages may be swapped exactly when they do not name different
      owners for one version the device still accepts. */
  lemma SwapIff(s: State, c: Claim, d: Claim)
    ensures Deliver(s, [c, d]) == Deliver(s, [d, c]) <==>
            !(c.version == d.version && c.id != d.id && Newer(s, c.version))
  {
    var sc, sd := Bookkeep(s, c.id, c.version), Bookkeep(s, d.id, d.version);
    assert [c, d][1..] == [d] && [d, c][1..] == [c];
    assert [d][1..] == [] && [c][1..] == [];
    assert Deliver(s, [c, d]) == Deliver(sc, [d]) == Bookkeep(sc, d.id, d.version);
    assert Deliver(s, [d, c]) == Deliver(sd, [c]) == Bookkeep(sd, c.id, c.version);
  }

  // ----- any number of messages, in any order -----

  /** Claim `c` has the highest version among the claims, and a device at `s` still accepts it. */
  predicate Decides(s: State, claims: seq<Claim>, c: Claim) {
    c in claims && Newer(s, c.version) && forall d | d in claims :: d.version <= c.version
  }

  predicate NoneAccepted(s: State, claims: seq<Claim>) {
    forall c | c in claims :: !Newer(s, c.version)
  }

  /** A delivery leaves the state alone or at one of the deciding claims. */
  lemma {:induction false} EndsDecided(s: State, claims: seq<Claim>)
    ensures var s' := Deliver(s, claims);
      (NoneAccepted(s, claims) && s' == s) ||
      exists c :: Decides(s, claims, c) && s' == s.(activeID := c.id, version := c.version)
    decreases |claims|
  {
    if claims != [] {
      var c, rest := claims[0], claims[1..];
      var s1 := Bookkeep(s, c.id, c.version);
      EndsDecided(s1, rest);
      assert forall d | d in claims :: d == c || d in rest;
      if NoneAccepted(s1, rest) && Deliver(s1, rest) == s1 {
        if Newer(s, c.version) { assert Decides(s, claims, c); }
      } else {
        var d :| Decides(s1, rest, d) && Deliver(s1, rest) == s1.(activeID := d.id, version := d.version);
        assert d in claims && Decides(s, claims, d);
      }
    }
  }

  ghost predicate OrderFree(s: State, claims: seq<Claim>) {
    forall other: seq<Claim> | multiset(other) == multiset(claims) :: Deliver(s, other) == Deliver(s, claims)
  }

  /** The deciding claims name one owner. */
  ghost predicate Unanimous(s: State, claims: seq<Claim>) {
    forall c, d | Decides(s, claims, c) && d in claims && d.version == c.version :: c.id == d.id
  }

  lemma SameMembers(a: seq<Claim>, b: seq<Claim>)
    requires multiset(a) == multiset(b)
    ensures forall c :: c in a <==> c in b
  {
    forall c ensures c in a <==> c in b {
      assert c in a <==> c in multiset(a);
      assert c in b <==> c in multiset(b);
    }
  }

  lemma {:induction false} DeliverLast(s: State, claims: seq<Claim>, c: Claim)
    ensures Deliver(s, claims + [c]) == Bookkeep(Deliver(s, claims), c.id, c.version)
    decreases |claims|
  {
    if claims == [] {
      assert claims + [c] == [c] && [c][1..] == [];
    } else {
      DeliverLast(Bookkeep(s, claims[0].id, claims[0].version), claims[1..], c);
      assert (claims + [c])[1..] == claims[1..] + [c];
    }
  }

  lemma FirstWins(s: State, rest: seq<Claim>, c: Claim)
    requires Newer(s, c.version) && c.version > 0 && forall d | d in rest :: d.version <= c.version
    ensures Deliver(s, [c] + rest).activeID == c.id
  {
    hide Deliver;
    EndsDecided(Bookkeep(s, c.id, c.version), rest);
    DeliverFirst(s, rest, c);
  }

  lemma DeliverFirst(s: State, rest: seq<Claim>, c: Claim)
    ensures Deliver(s, [c] + rest) == Deliver(Bookkeep(s, c.id, c.version), rest)
  {
    assert ([c] + rest)[1..] == rest;
  }

  lemma LastWins(s: State, rest: seq<Claim>, c: Claim)
    requires s.version == 0 && c.version == 0 && forall d | d in rest :: d.version == 0
    ensures Deliver(s, rest + [c]).activeID == c.id
  {
    hide Deliver;
    DeliverLast(s, rest, c);
    EndsDecided(s, rest);
  }

  /** Some order lets a given deciding claim win: delivered first, or, at version 0, last. */
  lemma SomeOrderEndsAt(s: State, claims: seq<Claim>, c: Claim) returns (order: seq<Claim>)
    requires Decides(s, claims, c)
    ensures multiset(order) == multiset(claims) && Deliver(s, order).activeID == c.id
  {
    hide Deliver;
    var i :| 0 <= i < |claims| && claims[i] == c;
    var rest := claims[..i] + claims[i + 1..];
    assert claims == claims[..i] + [c] + claims[i + 1..];
    assert forall d | d in rest :: d in claims;
    if c.version > 0 {
      order := [c] + rest;
      FirstWins(s, rest, c);
    } else {
      order := rest + [c];
      LastWins(s, rest, c);
    }
  }

  /** The tie-break, exactly. Every order of a list of messages ends alike if and only if no two of
      them name different owners at the highest version, where that is still acceptable. */
  lemma OrderFreeIff(s: State, claims: seq<Claim>)
    ensures OrderFree(s, claims) <==> Unanimous(s, claims)
  {
    if Unanimous(s, claims) {
      forall other: seq<Claim> | multiset(other) == multiset(claims) ensures Deliver(s, other) == Deliver(s, claims) {
        SameMembers(other, claims);
        EndsDecided(s, other);
        EndsDecided(s, claims);
      }
    } else {
      var c, d :| Decides(s, claims, c) && d in claims && d.version == c.version && c.id != d.id;
      var p := SomeOrderEndsAt(s, claims, c);
      var q := SomeOrderEndsAt(s, claims, d);
      assert Deliver(s, p) != Deliver(s, q);
    }
  }
}
