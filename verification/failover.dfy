/** Failover: devices of a settled pool die one after the other, each survivor notices in its own
    time, and all of them name the same heir without a vote. */
module Failover {
  import opened Ids
  import opened Node
  import opened Cluster
  import opened Ownership
  import opened OneCursor

  ghost function Survivors(c: Cluster): set<NodeId> {
    set n | n in c.nodes && Alive(c, n)
  }

  /** The survivor that sorts first once `x` is gone. */
  ghost function Heir(c: Cluster, x: NodeId): NodeId
    requires Survivors(c) - {x} != {}
  {
    Lowest(Survivors(c) - {x})
  }

  ghost predicate Mentions(p: Packet, d: NodeId) {
    Lists(p.msg, d) || ((p.msg.Hello? || p.msg.Welcome?) && p.src == d)
  }

  /** No survivor knows `d`, and nothing in flight would bring it back. */
  ghost predicate Forgotten(c: Cluster, d: NodeId) {
    && (forall n | Alive(c, n) :: d !in c.nodes[n].members)
    && (forall p | p in c.net :: !Mentions(p, d))
  }

  /** All survivors, of whom `x` is not the only one, have joined and know exactly each other; who
      died before is forgotten. */
  ghost predicate Together(c: Cluster, x: NodeId) {
    && Alive(c, x) && Survivors(c) - {x} != {}
    && (forall n | Alive(c, n) :: c.nodes[n].phase == Started && c.nodes[n].members == Survivors(c))
    && (forall d | d in c.dead :: Forgotten(c, d))
  }

  predicate Names(c: Cluster, n: NodeId, id: NodeId, v: nat)
    requires n in c.nodes
  {
    c.nodes[n].activeID == id && c.nodes[n].version == v
  }

  /** Everyone holds `x` at version `v`: in particular `x` has no hand-off of its own under way. */
  ghost predicate Settled(c: Cluster, x: NodeId, v: nat) {
    Together(c, x) && 1 <= v && forall n | Alive(c, n) :: Names(c, n, x, v)
  }

  /** The pool can bear the death of `y`: everyone holds the living `o` at version `v`, or `o` is `y`
      itself and its hand-off to its own heir may be anywhere on its way: unsent, in flight, or known
      to some. */
  ghost predicate Ready(c: Cluster, y: NodeId, o: NodeId, v: nat) {
    && Together(c, y) && Alive(c, o) && 1 <= v
    && forall n | Alive(c, n) :: Names(c, n, o, v) || (o == y && Names(c, n, Heir(c, y), v + 1))
  }

  /** A device crashes, or leaves with a Bye to its peers. */
  predicate IsDeath(st: Step, x: NodeId) {
    st == Crash(x) || st == Leave(x)
  }

  /** Nobody dies, and nobody but the device that died last is given up on. */
  ghost predicate FailoverStep(st: Step, x: NodeId) {
    !st.Crash? && !st.Leave? && forall peer | GivesUpOn(st, peer) :: peer == x
  }

  ghost predicate FailoverSteps(steps: seq<Step>, x: NodeId) {
    forall i | 0 <= i < |steps| :: FailoverStep(steps[i], x)
  }

  /** Every survivor still knows every other; only the last to die comes and goes by gossip. */
  ghost predicate Kin(c: Cluster, x: NodeId) {
    && x in c.dead && Survivors(c) - {x} != {}
    && (forall n | Alive(c, n) :: c.nodes[n].members + {x} == Survivors(c) + {x})
    && (forall d | d in c.dead && d != x :: Forgotten(c, d))
  }

  lemma FailoverIsOrderly(c: Cluster, log: seq<NodeId>, su: Succession, st: Step, x: NodeId)
    requires Owned(c, log, su) && Kin(c, x) && su.heir == Heir(c, x)
    requires Enabled(c, st) && FailoverStep(st, x)
    ensures Orderly(c, st, su)
  {
    hide Owned, Forgotten;
    if GivesUpOn(st, x) {
      var n := Mover(st);
      assert Alive(c, n);
      assert c.nodes[n].members - {x} == Survivors(c) - {x};
    }
  }

  // ----- who knows whom -----

  /** Members only ever leave when their device gives up on them. */
  lemma MembersKept(c: Cluster, st: Step, m: NodeId)
    requires Enabled(c, st) && Moves(st) && Mover(st) in c.nodes
    requires m in c.nodes[Mover(st)].members && !GivesUpOn(st, m)
    ensures m in Move(c, st).state.members
  {
    hide Neighbor, SlotTarget, Dispatch;
    if st.Receive? { DispatchKeeps(st.p.dst, c.nodes[st.p.dst], st.p, st.ok, c.now, m); }
  }

  lemma DispatchKeeps(n: NodeId, s: State, p: Packet, ok: bool, now: int, m: NodeId)
    requires m in s.members && !(p.msg.Bye? && p.src == m)
    ensures m in Dispatch(n, s, p, ok, now).state.members
  {}

  /** A device that does not know `d` and hears nothing of it tells nothing of it. */
  ghost predicate Silent(n: NodeId, o: Outcome, d: NodeId) {
    d !in o.state.members && forall p | p in o.sent :: !Mentions(p, d)
  }

  lemma DispatchSilent(n: NodeId, s: State, p: Packet, ok: bool, now: int, d: NodeId)
    requires d !in s.members && n != d && !Mentions(p, d)
    ensures Silent(n, Dispatch(n, s, p, ok, now), d)
  {
    hide Elect, ReceiveSync, PerformHandoff;
    match p.msg
    case Bye => ElectSilent(n, s.(members := s.members - {p.src}, conns := s.conns - {p.src}), now, d);
    case Welcome(_, _, _) => SyncSilent(n, s.(members := s.members + {p.src}), p.msg, now, d);
    case MemberSync(_, _, _) => SyncSilent(n, s, p.msg, now, d);
    case RequestJump(to) => PerformSilent(n, s, to, ok, now, d);
    case _ =>
  }

  lemma ElectSilent(n: NodeId, s: State, now: int, d: NodeId)
    requires d !in s.members && n != d
    ensures Silent(n, Elect(n, s, now), d)
  {}

  lemma SyncSilent(n: NodeId, s: State, msg: Message, now: int, d: NodeId)
    requires (msg.Welcome? || msg.MemberSync?) && d !in s.members && d !in msg.members && n != d
    ensures Silent(n, ReceiveSync(n, s, msg, now), d)
  {}

  lemma PerformSilent(n: NodeId, s: State, to: NodeId, ok: bool, now: int, d: NodeId)
    requires d !in s.members
    ensures Silent(n, PerformHandoff(n, s, to, ok, now), d)
  {}

  lemma MoveSilent(c: Cluster, st: Step, d: NodeId)
    requires Enabled(c, st) && Moves(st) && Mover(st) in c.nodes
    requires d !in c.nodes[Mover(st)].members && Mover(st) != d
    requires st.Receive? ==> !Mentions(st.p, d)
    ensures Silent(Mover(st), Move(c, st), d)
  {
    hide Neighbor, SlotTarget, Dispatch;
    if st.Receive? { DispatchSilent(st.p.dst, c.nodes[st.p.dst], st.p, st.ok, c.now, d); }
  }

  lemma StepKeepsForgotten(c: Cluster, st: Step, d: NodeId)
    requires Forgotten(c, d) && d in c.dead && Enabled(c, st) && !st.Crash? && !st.Leave?
    ensures Forgotten(Apply(c, st), d)
  {
    hide Move, Neighbor, SlotTarget, Mentions;
    if Moves(st) {
      assert Alive(c, Mover(st));
      MoveSilent(c, st, d);
    }
  }

  lemma KnowsOnlySurvivors(c: Cluster, n: NodeId, x: NodeId)
    requires Real(c) && Alive(c, n) && forall d | d in c.dead && d != x :: Forgotten(c, d)
    ensures c.nodes[n].members <= Survivors(c) + {x}
  {
    assert RealState(n, c.nodes[n], c.nodes.Keys);
  }

  lemma StepKeepsKin(c: Cluster, log: seq<NodeId>, su: Succession, st: Step, x: NodeId)
    requires Owned(c, log, su) && Kin(c, x) && Enabled(c, st) && FailoverStep(st, x)
    ensures Kin(Apply(c, st), x) && Survivors(Apply(c, st)) == Survivors(c)
  {
    hide Move, Neighbor, SlotTarget, AllOnLog, Retired, Inherited, Agrees, RealState, RealPacket, Forgotten;
    RealStep(c, st);
    var c' := Apply(c, st);
    assert Survivors(c') == Survivors(c);
    forall d | d in c'.dead && d != x ensures Forgotten(c', d) {
      StepKeepsForgotten(c, st, d);
    }
    forall n | Alive(c', n) ensures c'.nodes[n].members + {x} == Survivors(c') + {x} {
      assert Alive(c, n);
      KnowsOnlySurvivors(c', n, x);
      if Moves(st) && n == Mover(st) {
        forall m | m in Survivors(c) && m != x ensures m in c'.nodes[n].members {
          assert m in c.nodes[n].members + {x};
          MembersKept(c, st, m);
        }
      }
    }
  }

  // ----- how far the log has been reached -----

  /** Some survivor has reached the end of the log; or the device that died last, `m`, was the only
      one to know of its hand-off to the heir. */
  ghost predicate Reached(c: Cluster, log: seq<NodeId>, su: Succession, m: NodeId) {
    || (exists n :: Alive(c, n) && c.nodes[n].version == |log|)
    || (&& m in c.dead && |log| == su.base + 1 && OwnerAt(log, |log|) == su.heir
        && forall n | Alive(c, n) :: Names(c, n, m, su.base))
  }

  lemma StepKeepsReached(c: Cluster, log: seq<NodeId>, su: Succession, m: NodeId, st: Step, log': seq<NodeId>)
    requires Owned(c, log, su) && Reached(c, log, su, m) && Enabled(c, st)
    requires Owned(Apply(c, st), log', su) && su.rival == 0
    requires Apply(c, st).nodes.Keys == c.nodes.Keys && Apply(c, st).dead == c.dead
    requires forall n | Alive(c, n) :: c.nodes[n].version <= Apply(c, st).nodes[n].version
    requires Moves(st) ==> Extends(c, Mover(st), Move(c, st), log, log', su)
    requires !Moves(st) ==> log' == log
    ensures Reached(Apply(c, st), log', su, m)
  {
    hide Owned, Move, Enabled;
    var c' := Apply(c, st);
    TopIsBound(c', log', su);
    if log' != log {
      MoverIsAlive(c, st);
      assert Alive(c', Mover(st)) && c'.nodes[Mover(st)].version == |log'|;
    } else if n :| Alive(c, n) && c.nodes[n].version == |log| {
      assert Alive(c', n) && c'.nodes[n].version == |log|;
    } else if n :| Alive(c', n) && c'.nodes[n].version == |log| {
    } else {
      forall n | Alive(c', n) ensures Names(c', n, m, su.base) {
        assert Alive(c, n) && Names(c, n, m, su.base);
        OwnedIsOnLog(c, log, su, n);
        OwnedIsOnLog(c', log, su, n);
      }
    }
  }

  lemma MoverIsAlive(c: Cluster, st: Step)
    requires Enabled(c, st) && Moves(st)
    ensures Alive(c, Mover(st))
  {}

  // ----- the moment of death -----

  /** `c'` is `c` with device `x` dead, and perhaps its goodbyes in flight. */
  ghost predicate Dies(c: Cluster, c': Cluster, x: NodeId) {
    && c'.nodes == c.nodes && c'.dead == c.dead + {x}
    && forall p | p in c'.net :: p in c.net || p.msg.Bye?
  }

  lemma DeathIsQuiet(c: Cluster, x: NodeId, death: Step)
    requires Alive(c, x) && IsDeath(death, x)
    ensures Enabled(c, death) && Dies(c, Apply(c, death), x)
    ensures forall p | p in c.net :: p in Apply(c, death).net
  {}

  lemma DeathKeepsLog(c: Cluster, c': Cluster, log: seq<NodeId>, su: Succession, su': Succession, x: NodeId)
    requires AllOnLog(c, log, su) && su.rival == 0 && Retired(c, log) && Dies(c, c', x)
    requires forall n | Alive(c, n) :: Agrees(n, c.nodes[n])
    ensures AllOnLog(c', log, su') && Retired(c', log)
    ensures forall n | Alive(c', n) :: Agrees(n, c'.nodes[n])
  {
    hide Agrees;
    assert forall n | Alive(c', n) :: Alive(c, n);
    forall p | p in c'.net ensures MessageOnLog(p.msg, log, su') {
      assert p in c.net || p.msg.Bye?;
    }
  }

  lemma DeathKeepsKin(c: Cluster, c': Cluster, x: NodeId)
    requires Together(c, x) && Dies(c, c', x)
    ensures Kin(c', x) && Survivors(c') == Survivors(c) - {x}
  {
    assert Survivors(c') == Survivors(c) - {x};
    forall d | d in c'.dead && d != x ensures Forgotten(c', d) {
      assert Forgotten(c, d);
    }
  }

  /** Where the log of a pool that is ready for a death ends. */
  lemma ReadyTop(c: Cluster, log: seq<NodeId>, su: Succession, m: NodeId, y: NodeId, o: NodeId, v: nat)
    requires Owned(c, log, su) && su.rival == 0 && Reached(c, log, su, m) && Ready(c, y, o, v)
    ensures v <= |log| <= v + 1
    ensures |log| == v + 1 ==> o == y && OwnerAt(log, v + 1) == Heir(c, y)
  {
    hide Real, Inherited, Agrees, Retired, Together;
    assert Alive(c, y) by { YIsAlive(c, y); }
    forall n | Alive(c, n) ensures OnLog(c.nodes[n].activeID, c.nodes[n].version, log, su) {}
    assert Names(c, o, o, v) || Names(c, o, Heir(c, y), v + 1);
  }

  lemma YIsAlive(c: Cluster, y: NodeId)
    requires Together(c, y)
    ensures Alive(c, y)
  {}

  lemma DeathIsInherited(c: Cluster, c': Cluster, log: seq<NodeId>, y: NodeId, o: NodeId, v: nat)
    requires Ready(c, y, o, v) && Dies(c, c', y)
    requires v <= |log| <= v + 1 && (|log| == v + 1 ==> OwnerAt(log, v + 1) == Heir(c, y))
    ensures Inherited(c', log, Succession(Heir(c, y), v, 0))
  {
    hide Together;
    assert forall n | Alive(c', n) :: Alive(c, n);
  }

  lemma DeathIsReached(c: Cluster, c': Cluster, log: seq<NodeId>, su: Succession, m: NodeId, y: NodeId, o: NodeId,
      v: nat)
    requires Ready(c, y, o, v) && Dies(c, c', y) && su == Succession(Heir(c, y), v, 0)
    requires v <= |log| <= v + 1 && (|log| == v + 1 ==> o == y && OwnerAt(log, v + 1) == Heir(c, y))
    requires forall n | Alive(c, n) :: c.nodes[n].version <= |log|
    ensures Reached(c', log, su, y)
  {
    var n :| n in Survivors(c) - {y};
    assert forall k | Alive(c', k) :: Alive(c, k);
    if k :| Alive(c', k) && c'.nodes[k].version == |log| {
    } else {
      assert Alive(c', n) && c.nodes[n].version <= |log|;
    }
  }

  lemma DeathKeepsOwned(c: Cluster, log: seq<NodeId>, su0: Succession, m: NodeId, y: NodeId, o: NodeId, v: nat,
      death: Step)
    requires Owned(c, log, su0) && su0.rival == 0 && Reached(c, log, su0, m) && Ready(c, y, o, v) && IsDeath(death, y)
    ensures Enabled(c, death) && Apply(c, death).nodes == c.nodes
    ensures var c', su := Apply(c, death), Succession(Heir(c, y), v, 0);
      Owned(c', log, su) && Kin(c', y) && Reached(c', log, su, y) && su.heir == Heir(c', y)
  {
    assert Together(c, y) && Alive(c, y);
    hide Agrees, Real, Apply, Enabled, Together, AllOnLog, Retired, Inherited, Kin, Reached, Ready, Dies, IsDeath;
    ReadyTop(c, log, su0, m, y, o, v);
    DeathIsQuiet(c, y, death);
    RealStep(c, death);
    var c', su := Apply(c, death), Succession(Heir(c, y), v, 0);
    DeathKeepsLog(c, c', log, su0, su, y);
    DeathIsInherited(c, c', log, y, o, v);
    TopIsBound(c, log, su0);
    DeathIsReached(c, c', log, su, m, y, o, v);
    DeathKeepsKin(c, c', y);
    assert Survivors(c') - {y} == Survivors(c) - {y};
  }

  // ----- one death after the other -----

  /** `m` is the device that died last, NONE before any has. Until then nobody gives up on its
      owner; afterwards nobody is given up on but `m`; and whoever dies next does so in a pool that
      can bear it. */
  ghost predicate ReignStep(c: Cluster, st: Step, m: NodeId)
    requires Enabled(c, st)
  {
    if st.Crash? || st.Leave? then exists o, v :: Ready(c, st.n, o, v)
    else if m == NONE then Loyal(c, st)
    else FailoverStep(st, m)
  }

  function LastDead(st: Step, m: NodeId): NodeId {
    if st.Crash? || st.Leave? then st.n else m
  }

  ghost predicate Reigns(c: Cluster, steps: seq<Step>, m: NodeId)
    requires Possible(c, steps)
    decreases |steps|
  {
    steps == [] ||
    (ReignStep(c, steps[0], m) && Reigns(Apply(c, steps[0]), steps[1..], LastDead(steps[0], m)))
  }

  ghost predicate Reigning(c: Cluster, log: seq<NodeId>, su: Succession, m: NodeId) {
    && Owned(c, log, su) && su.rival == 0 && Reached(c, log, su, m)
    && (if m == NONE then c.dead == {} else Kin(c, m) && su.heir == Heir(c, m))
  }

  lemma StepKeepsReigning(c: Cluster, log: seq<NodeId>, su: Succession, m: NodeId, st: Step)
      returns (log': seq<NodeId>, su': Succession)
    requires Reigning(c, log, su, m) && Enabled(c, st) && Safe(c, st) && ReignStep(c, st, m)
    ensures Reigning(Apply(c, st), log', su', LastDead(st, m))
  {
    hide Owned, Kin, Reached, Enabled, Safe, Apply, Ready, Orderly, Move;
    if st.Crash? || st.Leave? {
      var o, v :| Ready(c, st.n, o, v);
      DeathKeepsOwned(c, log, su, m, st.n, o, v, st);
      DeadIsNotNone(c, log, su, st);
      log', su' := log, Succession(Heir(c, st.n), v, 0);
    } else {
      if m == NONE { LoyalIsOrderly(c, st, su); } else { FailoverIsOrderly(c, log, su, st, m); }
      log' := StepKeepsOwned(c, log, su, st);
      su' := su;
      StepKeepsReached(c, log, su, m, st, log');
      if m != NONE { StepKeepsKin(c, log, su, st, m); }
    }
  }

  lemma DeadIsNotNone(c: Cluster, log: seq<NodeId>, su: Succession, st: Step)
    requires Owned(c, log, su) && Enabled(c, st) && (st.Crash? || st.Leave?)
    ensures st.n != NONE
  {}

  lemma InitialReigns(ids: set<NodeId>, founder: NodeId)
    requires founder in ids && NONE !in ids
    ensures Reigning(Initial(ids, founder), [founder], PLAIN, NONE)
  {
    InitialIsOwned(ids, founder);
    var c := Initial(ids, founder);
    assert Alive(c, founder) && c.nodes[founder].version == |[founder]|;
  }

  /** One cursor survives any number of deaths. In every run in which devices, owners or not, die in
      pools that can bear it, be the owner at rest or handing off to its heir: whatever the survivors'
      order of noticing, electing, gossiping and handing off, every state is healthy if and only if
      no hand-off is delivered stale and none is stranded. */
  lemma FailoverIff(ids: set<NodeId>, founder: NodeId, steps: seq<Step>)
    requires founder in ids && NONE !in ids
    requires Possible(Initial(ids, founder), steps) && Reigns(Initial(ids, founder), steps, NONE)
    ensures HealthyRun(Initial(ids, founder), steps) <==> SafeRun(Initial(ids, founder), steps)
  {
    InitialReigns(ids, founder);
    FailoverIffFrom(Initial(ids, founder), [founder], PLAIN, NONE, steps);
  }

  lemma {:induction false} FailoverIffFrom(c: Cluster, log: seq<NodeId>, su: Succession, m: NodeId, steps: seq<Step>)
    requires Reigning(c, log, su, m) && Possible(c, steps) && Reigns(c, steps, m)
    ensures HealthyRun(c, steps) <==> SafeRun(c, steps)
    decreases |steps|
  {
    hide Owned, Kin, Reached, Healthy, Safe, Enabled, Apply, ReignStep;
    OwnedIsHealthy(c, log, su);
    if steps != [] {
      var st := steps[0];
      if Safe(c, st) {
        var log', su' := StepKeepsReigning(c, log, su, m, st);
        hide Reigning;
        FailoverIffFrom(Apply(c, st), log', su', LastDead(st, m), steps[1..]);
      } else {
        UnsafeBreaks(c, log, su, st);
        assert !HealthyRun(Apply(c, st), steps[1..]);
      }
    }
  }

  lemma {:induction false} RunKeepsReigning(c: Cluster, log: seq<NodeId>, su: Succession, m: NodeId, steps: seq<Step>)
      returns (log': seq<NodeId>, su': Succession, m': NodeId)
    requires Reigning(c, log, su, m) && Possible(c, steps) && Reigns(c, steps, m) && SafeRun(c, steps)
    ensures Reigning(Exec(c, steps), log', su', m')
    decreases |steps|
  {
    hide Reigning, Safe, Enabled, Apply, ReignStep;
    if steps == [] {
      log', su', m' := log, su, m;
    } else {
      log', su' := StepKeepsReigning(c, log, su, m, steps[0]);
      log', su', m' := RunKeepsReigning(Apply(c, steps[0]), log', su', LastDead(steps[0], m), steps[1..]);
    }
  }

  // ----- convergence -----

  ghost predicate QuietRun(c: Cluster, steps: seq<Step>)
    requires Possible(c, steps)
    decreases |steps|
  {
    steps == [] || (!HandsOff(c, steps[0]) && QuietRun(Apply(c, steps[0]), steps[1..]))
  }

  /** The survivors that have noticed the death of `x` somewhere in the run, or have been told, in
      whatever message, of a version from `w` on. */
  ghost function Informed(steps: seq<Step>, x: NodeId, w: nat): set<NodeId> {
    set i | 0 <= i < |steps| && (GivesUpOn(steps[i], x) || Tells(steps[i], w)) :: Mover(steps[i])
  }

  predicate Tells(st: Step, w: nat) {
    st.Receive? && 0 < w <= Version(st.p.msg)
  }

  /** Before anyone hands off again each survivor is still with the dead owner or already with the
      heir, one version on. */
  ghost predicate Between(c: Cluster, x: NodeId, v: nat, heir: NodeId) {
    forall n | Alive(c, n) ::
      Names(c, n, x, v) || Names(c, n, heir, v + 1)
  }

  /** Without a hand-off only an election makes a new version, and only out of the dead owner's. */
  lemma QuietGrowth(c: Cluster, log: seq<NodeId>, su: Succession, st: Step)
    requires Owned(c, log, su) && Enabled(c, st) && Moves(st) && Safe(c, st) && Orderly(c, st, su)
    requires !HandsOff(c, st) && Move(c, st).state.version > |log| && su.rival == 0
    ensures OwnerAt(log, |log|) in c.dead
  {
    hide Owned, HandsOff, Move;
    NewVersionOrigin(c, log, su, st);
    OwnedIsOnLog(c, log, su, Mover(st));
  }

  /** A survivor at version `base` is still with the dead owner. */
  ghost predicate Beginning(c: Cluster, log: seq<NodeId>, su: Succession, x: NodeId) {
    1 <= su.base <= |log| && (OwnerAt(log, su.base) == x || forall n | Alive(c, n) :: c.nodes[n].version > su.base)
  }

  /** Noticing the death takes a survivor past the dead owner's version. */
  lemma NoticingMovesOn(c: Cluster, log: seq<NodeId>, su: Succession, st: Step, x: NodeId)
    requires Owned(c, log, su) && Enabled(c, st) && GivesUpOn(st, x) && x in c.dead
    requires Beginning(c, log, su, x) && su.rival == 0
    ensures Moves(st) && Apply(c, st).nodes[Mover(st)].version > su.base
  {
    hide Retired, Agrees, DropConn, Apply, Move;
    GivingUpDrops(c, st, x);
    var n := Mover(st);
    var s := c.nodes[n];
    assert OnLog(s.activeID, s.version, log, su) && su.base <= s.version;
    assert RealState(n, s, c.nodes.Keys);
    if st.Receive? { assert RealPacket(st.p, c.nodes.Keys); }
    DropMovesOn(n, s, x, c.now);
  }

  /** Hearing of a version takes a survivor at least there. */
  lemma HearingMovesOn(c: Cluster, st: Step, w: nat)
    requires Enabled(c, st) && Tells(st, w)
    ensures Alive(c, Mover(st)) && Apply(c, st).nodes[Mover(st)].version >= w
  {}

  lemma GivingUpDrops(c: Cluster, st: Step, x: NodeId)
    requires Enabled(c, st) && GivesUpOn(st, x)
    ensures Moves(st) && Alive(c, Mover(st)) && (st.Drop? ==> Mover(st) != x)
    ensures Apply(c, st).nodes[Mover(st)] == DropConn(Mover(st), c.nodes[Mover(st)], x, c.now).state
  {
    hide DropConn;
  }

  lemma DropMovesOn(n: NodeId, s: State, x: NodeId, now: int)
    requires n in s.members && n != x
    ensures DropConn(n, s, x, now).state.version == if s.activeID == x then s.version + 1 else s.version
  {
    assert n in s.members - {x};
  }

  lemma {:induction false} NoticedAreBeyond(c: Cluster, log: seq<NodeId>, su: Succession, x: NodeId, steps: seq<Step>)
      returns (log': seq<NodeId>)
    requires Owned(c, log, su) && Kin(c, x) && su.heir == Heir(c, x) && su.rival == 0
    requires Beginning(c, log, su, x)
    requires Possible(c, steps) && FailoverSteps(steps, x) && SafeRun(c, steps)
    ensures Beginning(Exec(c, steps), log', su, x)
    ensures log <= log' && Owned(Exec(c, steps), log', su) && Exec(c, steps).dead == c.dead
    ensures Exec(c, steps).nodes.Keys == c.nodes.Keys
    ensures Kin(Exec(c, steps), x) && Survivors(Exec(c, steps)) == Survivors(c)
    ensures forall n | Alive(c, n) :: c.nodes[n].version <= Exec(c, steps).nodes[n].version
    ensures forall n | n in Informed(steps, x, su.base + 1) ::
      Alive(c, n) && Exec(c, steps).nodes[n].version > su.base
    ensures QuietRun(c, steps) && |log| == su.base ==> log' == log || log' == log + [su.heir]
    ensures QuietRun(c, steps) && |log| > su.base && OwnerAt(log, |log|) !in c.dead ==> log' == log
    decreases |steps|
  {
    hide Owned, Healthy, Safe, Enabled, Apply, Orderly, Move, Kin, HandsOff;
    LastIsDead(c, x);
    assert Alive(c, su.heir) by { HeirIsAlive(c, x); }
    if steps == [] {
      log' := log;
    } else {
      var st, rest := steps[0], steps[1..];
      var c' := Apply(c, st);
      FailoverIsOrderly(c, log, su, st, x);
      var next := StepKeepsOwned(c, log, su, st);
      StepKeepsKin(c, log, su, st, x);
      assert forall i | 0 <= i < |rest| :: rest[i] == steps[i + 1];
      log' := NoticedAreBeyond(c', next, su, x, rest);
      forall n | n in Informed(steps, x, su.base + 1)
        ensures Alive(c, n) && Exec(c, steps).nodes[n].version > su.base
      {
        var i :| 0 <= i < |steps| && (GivesUpOn(steps[i], x) || Tells(steps[i], su.base + 1)) && Mover(steps[i]) == n;
        if i > 0 {
          assert rest[i - 1] == steps[i] && n in Informed(rest, x, su.base + 1);
          assert Alive(c', n);
        } else if GivesUpOn(st, x) {
          NoticingMovesOn(c, log, su, st, x);
          MoverIsAlive(c, st);
        } else {
          HearingMovesOn(c, st, su.base + 1);
        }
      }
      if !HandsOff(c, st) {
        QuietStepLog(c, log, su, st, next);
      }
    }
  }

  lemma QuietStepLog(c: Cluster, log: seq<NodeId>, su: Succession, st: Step, next: seq<NodeId>)
    requires Owned(c, log, su) && su.rival == 0
    requires Enabled(c, st) && Safe(c, st) && Orderly(c, st, su) && !HandsOff(c, st)
    requires Moves(st) ==> Extends(c, Mover(st), Move(c, st), log, next, su)
    requires !Moves(st) ==> next == log
    ensures next == log || (next == log + [su.heir] && OwnerAt(log, |log|) in c.dead)
  {
    hide Owned, Safe, Orderly, HandsOff, Move;
    if next != log {
      MoverIsAlive(c, st);
      QuietGrowth(c, log, su, st);
      assert next == log + [next[|log|]];
    }
  }

  lemma LastIsDead(c: Cluster, x: NodeId)
    requires Kin(c, x)
    ensures x in c.dead
  {}

  lemma HeirIsAlive(c: Cluster, x: NodeId)
    requires Survivors(c) - {x} != {}
    ensures Alive(c, Heir(c, x))
  {}

  /** Where the survivors of the death stand on the log. */
  lemma DeathBegins(c: Cluster, log: seq<NodeId>, su: Succession, m: NodeId, x: NodeId, v: nat, death: Step)
    requires Owned(c, log, su) && su.rival == 0 && Reached(c, log, su, m) && Ready(c, x, x, v) && IsDeath(death, x)
    ensures Enabled(c, death) && v <= |log| <= v + 1 && (|log| == v + 1 ==> OwnerAt(log, v + 1) == Heir(c, x))
    ensures Beginning(Apply(c, death), log, Succession(Heir(c, x), v, 0), x)
  {
    assert Alive(c, x);
    ReadyTop(c, log, su, m, x, x, v);
    DeathIsQuiet(c, x, death);
    var c' := Apply(c, death);
    hide Real, Retired, Inherited, Agrees, Together, Apply;
    assert forall n | Alive(c', n) :: Alive(c, n);
    if OwnerAt(log, v) != x {
      forall n | Alive(c', n) ensures c'.nodes[n].version > v {
        assert OnLog(c.nodes[n].activeID, c.nodes[n].version, log, su);
      }
    }
  }

  lemma DeathIsPossible(c: Cluster, x: NodeId, v: nat, death: Step)
    requires Ready(c, x, x, v) && IsDeath(death, x)
    ensures Enabled(c, death) && Survivors(c) - {x} != {}
  {}

  /** Failover converges. When the owner dies in a pool that can bear it, however many died before,
      any safe run of the survivors - in which gossip may even bring the dead owner's name back -
      leaves each of them with the dead owner or with the heir, as long as nobody hands off; whoever
      has noticed, or has only been told, is with the heir; and once that is so of all, the heir alone
      shows the cursor. */
  lemma FailoverConverges(ids: set<NodeId>, founder: NodeId, before: seq<Step>, x: NodeId, v: nat, death: Step,
      after: seq<Step>)
    requires founder in ids && NONE !in ids
    requires Possible(Initial(ids, founder), before) && Reigns(Initial(ids, founder), before, NONE)
    requires SafeRun(Initial(ids, founder), before)
    requires Ready(Exec(Initial(ids, founder), before), x, x, v) && IsDeath(death, x)
    requires Possible(Apply(Exec(Initial(ids, founder), before), death), after) && FailoverSteps(after, x)
    requires SafeRun(Apply(Exec(Initial(ids, founder), before), death), after)
    requires QuietRun(Apply(Exec(Initial(ids, founder), before), death), after)
    ensures var c0 := Exec(Initial(ids, founder), before);
            var c := Exec(Apply(c0, death), after);
            var heir := Heir(c0, x);
            && Between(c, x, v, heir) && Alive(c, heir)
            && (forall n | n in Informed(after, x, v + 1) :: Alive(c, n) && Names(c, n, heir, v + 1))
            && (Informed(after, x, v + 1) == Survivors(c) && c.nodes[heir].running ==>
                  forall n | Alive(c, n) :: c.nodes[n].amActive <==> n == heir)
  {
    hide Owned, Kin, Reached, Reigns, Informed, Between, Initial, Ready, Beginning, Enabled, Apply, Exec, Possible,
      SafeRun, QuietRun, FailoverSteps, Names, IsDeath;
    InitialReigns(ids, founder);
    var c0 := Exec(Initial(ids, founder), before);
    DeathIsPossible(c0, x, v, death);
    var log, su0, m := RunKeepsReigning(Initial(ids, founder), [founder], PLAIN, NONE, before);
    DeathBegins(c0, log, su0, m, x, v, death);
    DeathKeepsOwned(c0, log, su0, m, x, x, v, death);
    var su := Succession(Heir(c0, x), v, 0);
    var c1 := Apply(c0, death);
    var log' := NoticedAreBeyond(c1, log, su, x, after);
    HeirIsAlive(c1, x);
    var known := Informed(after, x, su.base + 1);
    LastIsDead(c1, x);
    forall n | n in known ensures Alive(Exec(c1, after), n) && Exec(c1, after).nodes[n].version > su.base {
      assert Alive(c1, n) && n in c1.nodes.Keys;
    }
    ConvergedState(Exec(c1, after), log', su, x, known);
  }

  lemma ConvergedState(c: Cluster, log: seq<NodeId>, su: Succession, x: NodeId, noticed: set<NodeId>)
    requires Owned(c, log, su) && su.rival == 0 && x in c.dead && Alive(c, su.heir)
    requires Beginning(c, log, su, x) && |log| <= su.base + 1
    requires |log| == su.base + 1 ==> OwnerAt(log, |log|) == su.heir
    requires forall n | n in noticed :: Alive(c, n) && c.nodes[n].version > su.base
    ensures Between(c, x, su.base, su.heir)
    ensures forall n | n in noticed :: Names(c, n, su.heir, su.base + 1)
    ensures noticed == Survivors(c) && c.nodes[su.heir].running ==>
      forall n | Alive(c, n) :: c.nodes[n].amActive <==> n == su.heir
  {
    hide Real, Retired;
    forall n | Alive(c, n)
      ensures OnLog(c.nodes[n].activeID, c.nodes[n].version, log, su) && su.base <= c.nodes[n].version <= |log|
      ensures Agrees(n, c.nodes[n])
    {}
  }

  // ----- the announcement of an election -----

  /** Who gives up on the owner it names, names the lowest remaining member at the next version, and
      tells every remaining connection. */
  lemma ElectionIsAnnounced(c: Cluster, st: Step, x: NodeId)
    requires Enabled(c, st) && GivesUpOn(st, x) && Moves(st) && Mover(st) in c.nodes
    requires c.nodes[Mover(st)].activeID == x && c.nodes[Mover(st)].members - {x} != {}
    ensures var n, c' := Mover(st), Apply(c, st);
      var s, heir := c.nodes[n], Lowest(c.nodes[n].members - {x});
      && n in c'.nodes && Names(c', n, heir, s.version + 1)
      && forall m | m in s.conns && m != x :: Packet(n, m, ActiveChange(heir, s.version + 1)) in c'.net
  {
    var n := Mover(st);
    var s, heir := c.nodes[n], Lowest(c.nodes[n].members - {x});
    assert Move(c, st) == DropConn(n, s, x, c.now);
    forall m | m in s.conns && m != x ensures Packet(n, m, ActiveChange(heir, s.version + 1)) in Apply(c, st).net {
      assert Packet(n, m, ActiveChange(heir, s.version + 1)) in multiset(Move(c, st).sent);
    }
  }

  lemma {:induction false} PrefixIsSafe(c: Cluster, steps: seq<Step>, i: nat)
    requires Possible(c, steps) && SafeRun(c, steps) && i <= |steps|
    ensures Possible(c, steps[..i]) && SafeRun(c, steps[..i])
    decreases |steps|
  {
    hide Enabled, Apply, Safe;
    if i > 0 {
      PrefixIsSafe(Apply(c, steps[0]), steps[1..], i - 1);
      assert steps[..i][1..] == steps[1..][..i - 1];
    }
  }

  /** Step `i` of the run is that in which `n` notices the death of the owner `x` it names. */
  ghost predicate NoticesAt(c: Cluster, steps: seq<Step>, i: nat, n: NodeId, x: NodeId)
    requires Possible(c, steps)
  {
    && i < |steps| && Possible(c, steps[..i]) && GivesUpOn(steps[i], x) && Mover(steps[i]) == n
    && n in Exec(c, steps[..i]).nodes && Exec(c, steps[..i]).nodes[n].activeID == x
  }

  /** The survivors `n` is connected to when it notices. */
  ghost function Listeners(c: Cluster, steps: seq<Step>, i: nat, n: NodeId, x: NodeId): set<NodeId>
    requires Possible(c, steps) && NoticesAt(c, steps, i, n, x)
  {
    Exec(c, steps[..i]).nodes[n].conns * Survivors(c)
  }

  ghost predicate Delivers(steps: seq<Step>, i: nat, p: Packet) {
    exists j, ok :: i < j < |steps| && steps[j] == Receive(p, ok)
  }

  lemma {:induction false} PrefixIsQuiet(c: Cluster, steps: seq<Step>, i: nat)
    requires Possible(c, steps) && QuietRun(c, steps) && i <= |steps|
    ensures Possible(c, steps[..i]) && QuietRun(c, steps[..i])
    decreases |steps|
  {
    hide Enabled, Apply, HandsOff;
    if i > 0 {
      PrefixIsQuiet(Apply(c, steps[0]), steps[1..], i - 1);
      assert steps[..i][1..] == steps[1..][..i - 1];
    }
  }

  lemma OneStepMore(c: Cluster, steps: seq<Step>, i: nat)
    requires Possible(c, steps) && i < |steps|
    ensures Possible(c, steps[..i]) && Enabled(Exec(c, steps[..i]), steps[i])
    ensures Possible(c, steps[..i + 1]) && Exec(c, steps[..i + 1]) == Apply(Exec(c, steps[..i]), steps[i])
  {
    hide Enabled, Apply;
    Prefix(c, steps, i);
    Prefix(c, steps, i + 1);
    Prefix(c, steps[..i + 1], i);
    assert steps[..i + 1][..i] == steps[..i] && steps[..i + 1][i..] == [steps[i]];
    assert steps[i..][0] == steps[i];
    var ci := Exec(c, steps[..i]);
    assert Enabled(ci, steps[i]);
    assert [steps[i]][1..] == [];
    assert Exec(ci, [steps[i]]) == Exec(Apply(ci, steps[i]), [steps[i]][1..]);
  }

  /** Before anybody hands off the survivors know each other and the dead owner alone, and stand
      where FailoverConverges says. */
  lemma QuietPrefix(ids: set<NodeId>, founder: NodeId, before: seq<Step>, x: NodeId, v: nat, death: Step,
                    after: seq<Step>)
    requires founder in ids && NONE !in ids
    requires Possible(Initial(ids, founder), before) && Reigns(Initial(ids, founder), before, NONE)
    requires SafeRun(Initial(ids, founder), before)
    requires Ready(Exec(Initial(ids, founder), before), x, x, v) && IsDeath(death, x)
    requires Possible(Apply(Exec(Initial(ids, founder), before), death), after) && FailoverSteps(after, x)
    requires SafeRun(Apply(Exec(Initial(ids, founder), before), death), after)
    ensures var c0 := Exec(Initial(ids, founder), before);
      var c := Exec(Apply(c0, death), after);
      Kin(c, x) && Survivors(c) == Survivors(Apply(c0, death)) == Survivors(c0) - {x}
  {
    hide Owned, Kin, Reached, Reigns, Initial, Ready, Beginning;
    InitialReigns(ids, founder);
    var c0 := Exec(Initial(ids, founder), before);
    var log, su0, m := RunKeepsReigning(Initial(ids, founder), [founder], PLAIN, NONE, before);
    DeathBegins(c0, log, su0, m, x, v, death);
    DeathKeepsOwned(c0, log, su0, m, x, x, v, death);
    var log' := NoticedAreBeyond(Apply(c0, death), log, Succession(Heir(c0, x), v, 0), x, after);
    assert Survivors(Apply(c0, death)) == Survivors(c0) - {x};
  }

  lemma NoticeIsAnnounced(ids: set<NodeId>, founder: NodeId, before: seq<Step>, x: NodeId, v: nat, death: Step,
                          after: seq<Step>, i: nat, n: NodeId)
    requires founder in ids && NONE !in ids
    requires Possible(Initial(ids, founder), before) && Reigns(Initial(ids, founder), before, NONE)
    requires SafeRun(Initial(ids, founder), before)
    requires Ready(Exec(Initial(ids, founder), before), x, x, v) && IsDeath(death, x)
    requires Possible(Apply(Exec(Initial(ids, founder), before), death), after) && FailoverSteps(after, x)
    requires SafeRun(Apply(Exec(Initial(ids, founder), before), death), after)
    requires QuietRun(Apply(Exec(Initial(ids, founder), before), death), after)
    requires NoticesAt(Apply(Exec(Initial(ids, founder), before), death), after, i, n, x)
    ensures var c0 := Exec(Initial(ids, founder), before);
      var c, heir := Apply(c0, death), Heir(c0, x);
      && Possible(c, after[..i + 1]) && n in Exec(c, after[..i + 1]).nodes
      && Names(Exec(c, after[..i + 1]), n, heir, v + 1)
      && (forall m | m in Listeners(c, after, i, n, x) ::
            Packet(n, m, ActiveChange(heir, v + 1)) in Exec(c, after[..i + 1]).net)
  {
    hide Enabled, Apply, Safe, HandsOff, Initial, Ready, Reigns, Exec, Possible, SafeRun, QuietRun, IsDeath, Move;
    var c0 := Exec(Initial(ids, founder), before);
    DeathIsPossible(c0, x, v, death);
    var c := Apply(c0, death);
    OneStepMore(c, after, i);
    PrefixIsSafe(c, after, i);
    PrefixIsQuiet(c, after, i);
    QuietPrefix(ids, founder, before, x, v, death, after[..i]);
    FailoverConverges(ids, founder, before, x, v, death, after[..i]);
    var ci := Exec(c, after[..i]);
    MoverIsAlive(ci, after[i]);
    assert ci.nodes[n].members - {x} == Survivors(ci);
    assert Names(ci, n, x, v);
    ElectionIsAnnounced(ci, after[i], x);
  }

  /** One survivor's notice is enough. In the runs of FailoverConverges, when a survivor notices the
      death of the owner it names, an announcement of the heir is in flight to every survivor it is
      connected to; and once these have been delivered all of them are with the heir, without having
      noticed anything themselves. */
  lemma AnnouncementConverges(ids: set<NodeId>, founder: NodeId, before: seq<Step>, x: NodeId, v: nat, death: Step,
                              after: seq<Step>, i: nat, n: NodeId)
    requires founder in ids && NONE !in ids
    requires Possible(Initial(ids, founder), before) && Reigns(Initial(ids, founder), before, NONE)
    requires SafeRun(Initial(ids, founder), before)
    requires Ready(Exec(Initial(ids, founder), before), x, x, v) && IsDeath(death, x)
    requires Possible(Apply(Exec(Initial(ids, founder), before), death), after) && FailoverSteps(after, x)
    requires SafeRun(Apply(Exec(Initial(ids, founder), before), death), after)
    requires QuietRun(Apply(Exec(Initial(ids, founder), before), death), after)
    requires NoticesAt(Apply(Exec(Initial(ids, founder), before), death), after, i, n, x)
    ensures var c0 := Exec(Initial(ids, founder), before);
      var c, heir := Apply(c0, death), Heir(c0, x);
      var told := Listeners(c, after, i, n, x);
      && Possible(c, after[..i + 1]) && n in Exec(c, after[..i + 1]).nodes
      && Names(Exec(c, after[..i + 1]), n, heir, v + 1)
      && (forall m | m in told :: Packet(n, m, ActiveChange(heir, v + 1)) in Exec(c, after[..i + 1]).net)
      && ((forall m | m in told :: Delivers(after, i, Packet(n, m, ActiveChange(heir, v + 1)))) ==>
            forall m | m in told :: m in Exec(c, after).nodes && Names(Exec(c, after), m, heir, v + 1))
  {
    hide Enabled, Apply, Safe, HandsOff, Initial, Ready, Reigns, Exec, Possible, SafeRun, QuietRun, FailoverSteps,
      Names, IsDeath;
    var c0 := Exec(Initial(ids, founder), before);
    DeathIsPossible(c0, x, v, death);
    var c, heir := Apply(c0, death), Heir(c0, x);
    NoticeIsAnnounced(ids, founder, before, x, v, death, after, i, n);
    FailoverConverges(ids, founder, before, x, v, death, after);
    var told := Listeners(c, after, i, n, x);
    if forall m | m in told :: Delivers(after, i, Packet(n, m, ActiveChange(heir, v + 1))) {
      forall m | m in told ensures m in Exec(c, after).nodes && Names(Exec(c, after), m, heir, v + 1) {
        var j, ok :| i < j < |after| && after[j] == Receive(Packet(n, m, ActiveChange(heir, v + 1)), ok);
        assert Tells(after[j], v + 1) && Mover(after[j]) == m;
        assert m in Informed(after, x, v + 1);
        assert Alive(Exec(c, after), m);
      }
    }
  }
}
