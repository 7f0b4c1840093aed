/** Membership spreads by gossip alone, and reaches everyone. */
module Gossip {
  import opened Ids
  import opened Node
  import opened Cluster

  // ----- membership only grows, and only by real devices -----

  ghost predicate Grown(c: Cluster, c': Cluster) {
    && c'.nodes.Keys == c.nodes.Keys
    && forall n | n in c.nodes ::
         c.nodes[n].members <= c'.nodes[n].members && c.nodes[n].conns <= c'.nodes[n].conns
  }

  lemma MoveGrows(c: Cluster, st: Step)
    requires Enabled(c, st) && CrashFreeStep(st) && Moves(st)
    ensures Mover(st) in c.nodes
    ensures c.nodes[Mover(st)].members <= Move(c, st).state.members
    ensures c.nodes[Mover(st)].conns <= Move(c, st).state.conns
  {
    hide Neighbor, SlotTarget, Dispatch;
    if st.Receive? { DispatchGrows(st.p.dst, c.nodes[st.p.dst], st.p, st.ok, c.now); }
  }

  lemma DispatchGrows(n: NodeId, s: State, p: Packet, ok: bool, now: int)
    requires !p.msg.Bye?
    ensures s.members <= Dispatch(n, s, p, ok, now).state.members
    ensures s.conns <= Dispatch(n, s, p, ok, now).state.conns
  {}

  lemma {:induction false} RunGrows(c: Cluster, steps: seq<Step>)
    requires Real(c) && Possible(c, steps) && CrashFree(steps)
    ensures Grown(c, Exec(c, steps)) && Real(Exec(c, steps))
    decreases |steps|
  {
    if steps != [] {
      StepGrows(c, steps[0]);
      hide Apply, Enabled, Real, Grown;
      RunGrows(Apply(c, steps[0]), steps[1..]);
      GrownOn(c, Apply(c, steps[0]), Exec(c, steps));
    } else {
      hide Real, Enabled;
    }
  }

  lemma GrownOn(c: Cluster, c': Cluster, c'': Cluster)
    requires Grown(c, c') && Grown(c', c'')
    ensures Grown(c, c'')
  {}

  lemma StepGrows(c: Cluster, st: Step)
    requires Real(c) && Enabled(c, st) && CrashFreeStep(st)
    ensures Grown(c, Apply(c, st)) && Real(Apply(c, st))
  {
    hide Move, Real;
    RealStep(c, st);
    if Moves(st) { MoveGrows(c, st); }
  }

  // ----- rounds -----

  /** For every connection, its far end receives within the run a snapshot its near end took within
      the run. */
  ghost predicate FullRound(c: Cluster, steps: seq<Step>) {
    forall m, n | m in c.nodes && n in c.nodes[m].conns :: exists a: nat, b: nat :: Carries(c, steps, m, n, a, b)
  }

  /** Step `b` delivers to `n` what `m` knew before step `a`. */
  ghost predicate Carries(c: Cluster, steps: seq<Step>, m: NodeId, n: NodeId, a: nat, b: nat) {
    && a <= b < |steps|
    && steps[b].Receive? && steps[b].p.src == m && steps[b].p.dst == n && steps[b].p.msg.MemberSync?
    && Possible(c, steps[..a]) && m in Exec(c, steps[..a]).nodes
    && steps[b].p.msg.members == Exec(c, steps[..a]).nodes[m].members
  }

  /** What a received snapshot lists is known from then on. */
  lemma SyncTeaches(c: Cluster, p: Packet, ok: bool)
    requires Real(c) && Enabled(c, Receive(p, ok)) && p.msg.MemberSync?
    ensures p.dst in c.nodes
    ensures p.msg.members <= Apply(c, Receive(p, ok)).nodes[p.dst].members
  {
    assert RealState(p.dst, c.nodes[p.dst], c.nodes.Keys);
  }

  lemma RoundSpreads(c: Cluster, steps: seq<Step>, m: NodeId, n: NodeId)
    requires Real(c) && Possible(c, steps) && CrashFree(steps) && FullRound(c, steps)
    requires m in c.nodes && n in c.nodes[m].conns
    ensures n in c.nodes && Exec(c, steps).nodes.Keys == c.nodes.Keys
    ensures c.nodes[m].members <= Exec(c, steps).nodes[n].members
  {
    hide Real, Exec, Possible, CrashFree;
    var a: nat, b: nat :| Carries(c, steps, m, n, a, b);
    RunGrows(c, steps);
    PrefixGrows(c, steps, a);
    DeliveryTeaches(c, steps, b);
  }

  lemma PrefixGrows(c: Cluster, steps: seq<Step>, i: nat)
    requires Real(c) && Possible(c, steps) && CrashFree(steps) && i <= |steps|
    ensures Possible(c, steps[..i]) && Grown(c, Exec(c, steps[..i])) && Real(Exec(c, steps[..i]))
  {
    hide Real, Exec, Grown;
    Prefix(c, steps, i);
    RunGrows(c, steps[..i]);
  }

  /** What step `b` delivers is known at the end of the run. */
  lemma DeliveryTeaches(c: Cluster, steps: seq<Step>, b: nat)
    requires Real(c) && Possible(c, steps) && CrashFree(steps) && b < |steps|
    requires steps[b].Receive? && steps[b].p.msg.MemberSync?
    ensures steps[b].p.dst in c.nodes && steps[b].p.dst in Exec(c, steps).nodes
    ensures steps[b].p.msg.members <= Exec(c, steps).nodes[steps[b].p.dst].members
  {
    hide Real, Apply, Enabled;
    PrefixGrows(c, steps, b);
    Prefix(c, steps, b);
    var cb, rest := Exec(c, steps[..b]), steps[b..];
    assert rest[0] == steps[b];
    SyncTeaches(cb, steps[b].p, steps[b].ok);
    StepGrows(cb, steps[b]);
    assert CrashFree(rest[1..]) by {
      assert forall i | 0 <= i < |rest[1..]| :: rest[1..][i] == steps[b + 1 + i];
    }
    RunGrows(Apply(cb, steps[b]), rest[1..]);
  }

  ghost predicate Rounds(c: Cluster, rounds: seq<seq<Step>>)
    decreases |rounds|
  {
    rounds == [] ||
    (Possible(c, rounds[0]) && CrashFree(rounds[0]) && FullRound(c, rounds[0]) &&
     Rounds(Exec(c, rounds[0]), rounds[1..]))
  }

  ghost function After(c: Cluster, rounds: seq<seq<Step>>): Cluster
    requires Rounds(c, rounds)
    decreases |rounds|
  {
    if rounds == [] then c else After(Exec(c, rounds[0]), rounds[1..])
  }

  // ----- distance -----

  predicate Linked(c: Cluster, m: NodeId, n: NodeId) {
    m in c.nodes && n in c.nodes[m].conns
  }

  /** A chain of at most `r` connections leads from `x` to `n`. */
  ghost predicate Within(c: Cluster, x: NodeId, n: NodeId, r: nat)
    decreases r
  {
    if r == 0 then x == n
    else Within(c, x, n, r - 1) || exists m :: Linked(c, m, n) && Within(c, x, m, r - 1)
  }

  ghost predicate Connected(c: Cluster) {
    forall m, n | m in c.nodes && n in c.nodes :: exists r: nat :: Within(c, m, n, r)
  }

  ghost function Ball(c: Cluster, n: NodeId, r: nat): set<NodeId> {
    set x | x in c.nodes && Within(c, x, n, r)
  }

  lemma {:induction false} WithinSelf(c: Cluster, n: NodeId, r: nat)
    ensures Within(c, n, n, r)
    decreases r
  {
    if r > 0 { WithinSelf(c, n, r - 1); }
  }

  /** One connection further back is one step further away. */
  lemma {:induction false} WithinBack(c: Cluster, y: NodeId, x: NodeId, n: NodeId, r: nat)
    requires Within(c, x, n, r) && Linked(c, y, x)
    ensures Within(c, y, n, r + 1)
    decreases r
  {
    if r == 0 {
      assert Within(c, y, y, 0);
    } else if Within(c, x, n, r - 1) {
      WithinBack(c, y, x, n, r - 1);
    } else {
      var m :| Linked(c, m, n) && Within(c, x, m, r - 1);
      WithinBack(c, y, x, m, r - 1);
    }
  }

  /** A ball that has stopped growing holds everything from which a chain leads to its centre. */
  lemma {:induction false} StableBall(c: Cluster, n: NodeId, r: nat, x: NodeId, k: NodeId, t: nat)
    requires forall y | y in c.nodes && Within(c, y, n, r + 1) :: Within(c, y, n, r)
    requires Within(c, k, n, r) && Within(c, x, k, t)
    ensures Within(c, x, n, r)
    decreases t
  {
    if t > 0 {
      if Within(c, x, k, t - 1) {
        StableBall(c, n, r, x, k, t - 1);
      } else {
        var m :| Linked(c, m, k) && Within(c, x, m, t - 1);
        WithinBack(c, m, k, n, r);
        StableBall(c, n, r, x, m, t - 1);
      }
    }
  }

  lemma StableIsAll(c: Cluster, n: NodeId, r: nat)
    requires Connected(c) && n in c.nodes
    requires forall y | y in c.nodes && Within(c, y, n, r + 1) :: Within(c, y, n, r)
    ensures Ball(c, n, r) == c.nodes.Keys
  {
    WithinSelf(c, n, r);
    forall m | m in c.nodes ensures m in Ball(c, n, r) {
      var t: nat :| Within(c, m, n, t);
      StableBall(c, n, r, m, n, t);
    }
  }

  lemma {:induction false} BallSize(c: Cluster, n: NodeId, r: nat)
    requires Connected(c) && n in c.nodes
    ensures Ball(c, n, r) == c.nodes.Keys || |Ball(c, n, r)| > r
    decreases r
  {
    hide Connected;
    WithinSelf(c, n, r);
    assert n in Ball(c, n, r);
    if r > 0 {
      BallSize(c, n, r - 1);
      var inner, outer := Ball(c, n, r - 1), Ball(c, n, r);
      assert forall y :: y in outer <==> y in c.nodes && Within(c, y, n, r);
      assert inner <= outer <= c.nodes.Keys;
      hide Within, Ball;
      if y :| y in outer && y !in inner {
        Smaller(inner + {y}, outer);
      } else {
        StableIsAll(c, n, r - 1);
      }
    }
  }

  lemma Smaller(s: set<NodeId>, t: set<NodeId>)
    requires s <= t
    ensures |s| <= |t|
    ensures |s| == |t| ==> s == t
  {
    assert t == s + (t - s);
  }

  lemma BallIsEverything(c: Cluster, n: NodeId, r: nat)
    requires Connected(c) && n in c.nodes && r + 1 >= |c.nodes.Keys|
    ensures forall x | x in c.nodes :: Within(c, x, n, r)
  {
    BallSize(c, n, r);
    Smaller(Ball(c, n, r), c.nodes.Keys);
    assert forall x | x in c.nodes :: x in Ball(c, n, r);
  }

  // ----- convergence -----

  /** In `c` everyone knows all devices that `r` connections of `c0` can bring word of. */
  ghost predicate KnowsWithin(c0: Cluster, c: Cluster, r: nat) {
    forall x, n | x in c0.nodes && n in c0.nodes && Within(c0, x, n, r) :: n in c.nodes && x in c.nodes[n].members
  }

  lemma {:induction false} RoundsSpread(c0: Cluster, c: Cluster, r: nat, rounds: seq<seq<Step>>)
    requires Real(c) && Grown(c0, c) && Rounds(c, rounds) && KnowsWithin(c0, c, r)
    ensures Real(After(c, rounds)) && After(c, rounds).nodes.Keys == c0.nodes.Keys
    ensures KnowsWithin(c0, After(c, rounds), r + |rounds|)
    decreases |rounds|
  {
    hide Real, FullRound, Exec, Possible, KnowsWithin;
    if rounds != [] {
      RunGrows(c, rounds[0]);
      RoundWidens(c0, c, r, rounds[0]);
      GrownOn(c0, c, Exec(c, rounds[0]));
      RoundsSpread(c0, Exec(c, rounds[0]), r + 1, rounds[1..]);
    }
  }

  lemma RoundWidens(c0: Cluster, c: Cluster, r: nat, steps: seq<Step>)
    requires Real(c) && Grown(c0, c) && KnowsWithin(c0, c, r)
    requires Possible(c, steps) && CrashFree(steps) && FullRound(c, steps)
    ensures KnowsWithin(c0, Exec(c, steps), r + 1)
  {
    hide Real, FullRound, Exec, Possible, CrashFree;
    RunGrows(c, steps);
    var next := Exec(c, steps);
    forall x, n | x in c0.nodes && n in c0.nodes && Within(c0, x, n, r + 1) ensures x in next.nodes[n].members {
      if !Within(c0, x, n, r) {
        var m :| Linked(c0, m, n) && Within(c0, x, m, r);
        RoundSpreads(c, steps, m, n);
      }
    }
  }

  /** Gossip converges. After `r` full rounds every device knows all that lie within `r`
      connections of it, and after one round less than there are devices everyone knows exactly
      the devices that exist. */
  lemma GossipConverges(ids: set<NodeId>, founder: NodeId, before: seq<Step>, rounds: seq<seq<Step>>)
    requires founder in ids && NONE !in ids
    requires Possible(Initial(ids, founder), before) && CrashFree(before)
    requires Rounds(Exec(Initial(ids, founder), before), rounds)
    ensures var c := Exec(Initial(ids, founder), before);
      && KnowsWithin(c, After(c, rounds), |rounds|)
      && (Connected(c) && |rounds| + 1 >= |ids| ==>
            forall n | n in ids :: n in After(c, rounds).nodes && After(c, rounds).nodes[n].members == ids)
  {
    hide Real, Exec, Possible, CrashFree, Rounds, After, Connected;
    var c0 := Initial(ids, founder);
    InitialIsReal(ids, founder);
    RunGrows(c0, before);
    var c := Exec(c0, before);
    KnowsItself(c);
    RoundsSpread(c, c, 0, rounds);
    var last := After(c, rounds);
    if Connected(c) && |rounds| + 1 >= |ids| {
      forall n | n in ids ensures last.nodes[n].members == ids {
        BallIsEverything(c, n, |rounds|);
        KnowsOnlyReal(last, n);
      }
    }
  }

  lemma InitialIsReal(ids: set<NodeId>, founder: NodeId)
    requires founder in ids && NONE !in ids
    ensures Real(Initial(ids, founder)) && Initial(ids, founder).nodes.Keys == ids
  {}

  lemma KnowsItself(c: Cluster)
    requires Real(c)
    ensures KnowsWithin(c, c, 0)
  {
    forall n | n in c.nodes ensures n in c.nodes[n].members {
      assert RealState(n, c.nodes[n], c.nodes.Keys);
    }
  }

  lemma KnowsOnlyReal(c: Cluster, n: NodeId)
    requires Real(c) && n in c.nodes
    ensures c.nodes[n].members <= c.nodes.Keys
  {
    assert RealState(n, c.nodes[n], c.nodes.Keys);
  }
}
