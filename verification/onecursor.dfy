/** One cursor over whole runs of a pool in which no device dies and nobody gives up on its owner. */
module OneCursor {
  import opened Ids
  import opened Node
  import opened Cluster
  import opened Ownership

  function Version(msg: Message): nat {
    match msg
    case Welcome(_, _, v) => v
    case MemberSync(_, _, v) => v
    case ActiveChange(_, v) => v
    case FocusHandoff(_, v) => v
    case _ => 0
  }

  /** No device and no message in flight knows a version above `v`. */
  ghost predicate Top(c: Cluster, v: nat) {
    && (forall n | Alive(c, n) :: c.nodes[n].version <= v)
    && (forall p | p in c.net :: Version(p.msg) <= v)
  }

  predicate Shows(c: Cluster, n: NodeId) {
    Alive(c, n) && c.nodes[n].amActive
  }

  /** At most one engine shows the cursor; it is the owner by its own pool, at the highest version
      anywhere; and every running engine agrees with its pool. */
  ghost predicate Healthy(c: Cluster) {
    && (forall n | Alive(c, n) :: Agrees(n, c.nodes[n]))
    && (forall n | Shows(c, n) :: Top(c, c.nodes[n].version))
    && (forall m, n | Shows(c, m) && Shows(c, n) :: m == n)
  }

  /** `o` owns the cursor at the highest version `v`: it holds it, showing it as soon as its engine
      runs, or the hand-off to it is still in flight. */
  ghost predicate Holds(c: Cluster, o: NodeId, v: nat) {
    && Alive(c, o) && Top(c, v)
    && if c.nodes[o].version == v
       then c.nodes[o].activeID == o && (c.nodes[o].running ==> c.nodes[o].amActive)
       else exists p :: p in c.net && p.dst == o && p.msg == FocusHandoff(o, v)
  }

  lemma OwnedIsHealthy(c: Cluster, log: seq<NodeId>, su: Succession)
    requires Owned(c, log, su)
    ensures Healthy(c)
    ensures Top(c, |log|)
  {
    hide Agrees, Real, Retired, Inherited;
    forall n | Shows(c, n) ensures c.nodes[n].version == |log| && OwnerAt(log, |log|) == n {
      ActiveIsTop(c, log, su, n);
    }
    forall p | p in c.net ensures Version(p.msg) <= |log| {
      assert MessageOnLog(p.msg, log, su);
    }
  }

  // ----- runs -----

  ghost predicate SafeRun(c: Cluster, steps: seq<Step>)
    requires Possible(c, steps)
    decreases |steps|
  {
    steps == [] || (Safe(c, steps[0]) && SafeRun(Apply(c, steps[0]), steps[1..]))
  }

  ghost predicate HealthyRun(c: Cluster, steps: seq<Step>)
    requires Possible(c, steps)
    decreases |steps|
  {
    Healthy(c) && (steps == [] || HealthyRun(Apply(c, steps[0]), steps[1..]))
  }

  ghost predicate LoyalRun(c: Cluster, steps: seq<Step>)
    requires Possible(c, steps)
    decreases |steps|
  {
    steps == [] || (Loyal(c, steps[0]) && LoyalRun(Apply(c, steps[0]), steps[1..]))
  }

  lemma InitialIsOwned(ids: set<NodeId>, founder: NodeId)
    requires founder in ids && NONE !in ids
    ensures Owned(Initial(ids, founder), [founder], PLAIN)
  {}

  /** Without elections, the guards of module Ownership about them hold of themselves. */
  lemma LoyalIsOrderly(c: Cluster, st: Step, su: Succession)
    requires Enabled(c, st) && Loyal(c, st)
    ensures Orderly(c, st, su)
  {}

  /** A stale or stranded hand-off is visible at once: its device shows a cursor its own pool has
      given to somebody else. */
  lemma UnsafeBreaks(c: Cluster, log: seq<NodeId>, su: Succession, st: Step)
    requires Owned(c, log, su) && Enabled(c, st) && !Safe(c, st)
    ensures !Healthy(Apply(c, st))
  {
    hide Healthy, Owned, Neighbor, SlotTarget;
    var n := Mover(st);
    UnsafeDisagrees(c, log, su, st);
    DisagreementIsUnhealthy(Apply(c, st), n);
  }

  lemma DisagreementIsUnhealthy(c: Cluster, n: NodeId)
    requires Alive(c, n) && !Agrees(n, c.nodes[n])
    ensures !Healthy(c)
  {
    hide Agrees;
  }

  lemma UnsafeDisagrees(c: Cluster, log: seq<NodeId>, su: Succession, st: Step)
    requires Owned(c, log, su) && Enabled(c, st) && !Safe(c, st)
    ensures Alive(Apply(c, st), Mover(st)) && !Agrees(Mover(st), Apply(c, st).nodes[Mover(st)])
  {
    hide Neighbor, SlotTarget, Retired, Inherited, AllOnLog;
    var n := Mover(st);
    assert RealState(n, c.nodes[n], c.nodes.Keys);
    if st.Receive? { assert RealPacket(st.p, c.nodes.Keys); }
  }

  /** One cursor, exactly. In every run in which nobody dies and nobody gives up on the device it
      names as owner, every state on the way is healthy if and only if no hand-off is delivered stale
      and none is stranded by a failed send. */
  lemma {:induction false} OneCursorIff(ids: set<NodeId>, founder: NodeId, steps: seq<Step>)
    requires founder in ids && NONE !in ids
    requires Possible(Initial(ids, founder), steps) && LoyalRun(Initial(ids, founder), steps)
    ensures HealthyRun(Initial(ids, founder), steps) <==> SafeRun(Initial(ids, founder), steps)
  {
    var su := PLAIN;
    InitialIsOwned(ids, founder);
    OneCursorIffFrom(Initial(ids, founder), [founder], su, steps);
  }

  lemma {:induction false} OneCursorIffFrom(c: Cluster, log: seq<NodeId>, su: Succession, steps: seq<Step>)
    requires Owned(c, log, su) && Possible(c, steps) && LoyalRun(c, steps)
    ensures HealthyRun(c, steps) <==> SafeRun(c, steps)
    decreases |steps|
  {
    hide Owned, Healthy, Safe, Loyal, Enabled, Apply, Orderly;
    OwnedIsHealthy(c, log, su);
    if steps != [] {
      var st := steps[0];
      if Safe(c, st) {
        LoyalIsOrderly(c, st, su);
        var log' := StepKeepsOwned(c, log, su, st);
        OneCursorIffFrom(Apply(c, st), log', su, steps[1..]);
      } else {
        UnsafeBreaks(c, log, su, st);
        assert !HealthyRun(Apply(c, st), steps[1..]);
      }
    }
  }

  // ----- the cursor is never lost -----

  /** The last owner on the log has taken the cursor up, or its hand-off is in flight. */
  ghost predicate Token(c: Cluster, log: seq<NodeId>) {
    && |log| > 0
    && var o := OwnerAt(log, |log|);
       && Alive(c, o)
       && (c.nodes[o].version == |log| ||
           exists p :: p in c.net && p.dst == o && p.msg == FocusHandoff(o, |log|))
  }

  /** Versions above the log are only ever made by a hand-off, which is on its way or to oneself. */
  lemma NewVersionIsSent(c: Cluster, log: seq<NodeId>, su: Succession, st: Step)
    requires Owned(c, log, su) && Enabled(c, st) && Loyal(c, st) && Moves(st) && Safe(c, st)
    requires Move(c, st).state.version > |log|
    ensures var n, o := Mover(st), Move(c, st);
            o.state.activeID == n ||
            (o.state.activeID in c.nodes[n].conns &&
             Packet(n, o.state.activeID, FocusHandoff(o.state.activeID, o.state.version)) in o.sent)
  {
    hide Owned, Move, Enabled, Safe;
    NewVersionOrigin(c, log, su, st);
    var to, ok := HandoffIsPerformed(c, st);
    SafeIsNotStranded(c, st, to, ok);
  }

  lemma SafeIsNotStranded(c: Cluster, st: Step, to: NodeId, ok: bool)
    requires Enabled(c, st) && HandsOff(c, st) && Safe(c, st)
    requires Mover(st) in c.nodes && Moves(st)
    requires Move(c, st) == PerformHandoff(Mover(st), c.nodes[Mover(st)], to, ok, c.now)
    ensures !StrandedHandoff(Mover(st), c.nodes[Mover(st)], to, ok)
  {
    hide Neighbor, SlotTarget;
  }

  /** A received hand-off brings its receiver at least to the hand-off's version. */
  lemma HandoffIsTaken(c: Cluster, p: Packet, ok: bool)
    requires Enabled(c, Receive(p, ok)) && p.msg.FocusHandoff? && p.dst in c.nodes
    ensures Dispatch(p.dst, c.nodes[p.dst], p, ok, c.now).state.version >= p.msg.version
  {}

  lemma StepKeepsToken(c: Cluster, log: seq<NodeId>, su: Succession, st: Step, log': seq<NodeId>)
    requires Owned(c, log, su) && Token(c, log) && c.dead == {} && su == PLAIN
    requires Enabled(c, st) && Loyal(c, st) && Safe(c, st)
    requires Owned(Apply(c, st), log', su)
    requires Apply(c, st).nodes.Keys == c.nodes.Keys && Apply(c, st).dead == c.dead
    requires forall n | Alive(c, n) :: c.nodes[n].version <= Apply(c, st).nodes[n].version
    requires Moves(st) ==> Extends(c, Mover(st), Move(c, st), log, log', su)
    requires !Moves(st) ==> log' == log
    ensures Token(Apply(c, st), log')
  {
    hide Owned, Move, Safe, Enabled, Apply;
    if log' == log {
      OldTokenKept(c, log, su, st);
    } else {
      NewToken(c, log, su, st, log');
    }
  }

  /** A hand-off in flight stays there until its receiver takes it. */
  lemma OldTokenKept(c: Cluster, log: seq<NodeId>, su: Succession, st: Step)
    requires Token(c, log) && Enabled(c, st) && Loyal(c, st)
    requires Owned(Apply(c, st), log, su)
    requires Apply(c, st).nodes.Keys == c.nodes.Keys && Apply(c, st).dead == c.dead
    requires forall n | Alive(c, n) :: c.nodes[n].version <= Apply(c, st).nodes[n].version
    ensures Token(Apply(c, st), log)
  {
    hide Owned, Move, Dispatch;
    var c' := Apply(c, st);
    var o := OwnerAt(log, |log|);
    TopIsBound(c', log, su);
    if c.nodes[o].version != |log| {
      var p :| p in c.net && p.dst == o && p.msg == FocusHandoff(o, |log|);
      if st.Receive? && st.p == p {
        HandoffIsTaken(c, p, st.ok);
        MoveIsDispatch(c, p, st.ok);
        assert c'.nodes[o].version == |log|;
      } else {
        assert p in c'.net;
      }
    }
  }

  lemma NewToken(c: Cluster, log: seq<NodeId>, su: Succession, st: Step, log': seq<NodeId>)
    requires Owned(c, log, su) && |log| > 0 && c.dead == {} && su == PLAIN
    requires Enabled(c, st) && Loyal(c, st) && Safe(c, st)
    requires Owned(Apply(c, st), log', su) && log' != log
    requires Apply(c, st).nodes.Keys == c.nodes.Keys && Apply(c, st).dead == c.dead
    requires Moves(st) && Extends(c, Mover(st), Move(c, st), log, log', su)
    ensures Token(Apply(c, st), log')
  {
    hide Owned, Move, Safe, Enabled;
    var c' := Apply(c, st);
    var n, out := Mover(st), Move(c, st);
    NewVersionIsSent(c, log, su, st);
    assert c'.nodes[n] == out.state && Alive(c', n);
    TopIsBound(c', log', su);
    OwnedIsOnLog(c', log', su, n);
    var to := out.state.activeID;
    if to != n {
      var p := Packet(n, to, FocusHandoff(to, out.state.version));
      assert p in multiset(out.sent);
      assert p in c'.net;
      OwnedConns(c, log, su, n);
    }
  }

  lemma MoveIsDispatch(c: Cluster, p: Packet, ok: bool)
    requires p.dst in c.nodes
    ensures Move(c, Receive(p, ok)) == Dispatch(p.dst, c.nodes[p.dst], p, ok, c.now)
  {}

  lemma TopIsBound(c: Cluster, log: seq<NodeId>, su: Succession)
    requires Owned(c, log, su)
    ensures forall n | Alive(c, n) :: c.nodes[n].version <= |log|
  {}

  lemma OwnedIsOnLog(c: Cluster, log: seq<NodeId>, su: Succession, n: NodeId)
    requires Owned(c, log, su) && Alive(c, n)
    ensures OnLog(c.nodes[n].activeID, c.nodes[n].version, log, su) && Agrees(n, c.nodes[n]) && n != NONE && |log| > 0
  {}

  lemma OwnedConns(c: Cluster, log: seq<NodeId>, su: Succession, n: NodeId)
    requires Owned(c, log, su) && n in c.nodes
    ensures c.nodes[n].conns <= c.nodes.Keys
  {
    assert RealState(n, c.nodes[n], c.nodes.Keys);
  }

  lemma TokenIsHeld(c: Cluster, log: seq<NodeId>, su: Succession)
    requires Owned(c, log, su) && Token(c, log) && su == PLAIN
    ensures Holds(c, OwnerAt(log, |log|), |log|)
  {
    OwnedIsHealthy(c, log, su);
  }

  // ----- one owner per version, and nobody steps back -----

  /** Along the run every device's owner and version either stay or move to a higher version. */
  ghost predicate Rises(c: Cluster, c': Cluster) {
    && c'.nodes.Keys == c.nodes.Keys
    && forall n | n in c.nodes :: c'.nodes[n].version > c.nodes[n].version ||
        (c'.nodes[n].version == c.nodes[n].version && c'.nodes[n].activeID == c.nodes[n].activeID)
  }

  ghost predicate LoggedRun(c: Cluster, steps: seq<Step>, log: seq<NodeId>)
    requires Possible(c, steps)
    decreases |steps|
  {
    && AllOnLog(c, log, PLAIN)
    && (steps == [] || (Rises(c, Apply(c, steps[0])) && LoggedRun(Apply(c, steps[0]), steps[1..], log)))
  }

  ghost predicate HeldRun(c: Cluster, steps: seq<Step>)
    requires Possible(c, steps)
    decreases |steps|
  {
    && (exists o, v :: Holds(c, o, v))
    && (steps == [] || HeldRun(Apply(c, steps[0]), steps[1..]))
  }

  lemma LongerLog(c: Cluster, log: seq<NodeId>, log': seq<NodeId>)
    requires AllOnLog(c, log, PLAIN) && log <= log'
    ensures AllOnLog(c, log', PLAIN)
  {
    forall p | p in c.net ensures MessageOnLog(p.msg, log', PLAIN) {
      assert MessageOnLog(p.msg, log, PLAIN);
    }
  }

  /** One owner per version. A single log of owners explains every device and every message in
      flight at every moment of a safe run in which nobody dies or gives up on its owner, and no
      device ever steps back on it; at every moment the highest version has an owner that holds the
      cursor or is being handed it. */
  lemma OneOwnerPerVersion(ids: set<NodeId>, founder: NodeId, steps: seq<Step>) returns (log: seq<NodeId>)
    requires founder in ids && NONE !in ids
    requires Possible(Initial(ids, founder), steps)
    requires LoyalRun(Initial(ids, founder), steps) && SafeRun(Initial(ids, founder), steps)
    ensures LoggedRun(Initial(ids, founder), steps, log)
    ensures HeldRun(Initial(ids, founder), steps)
    ensures var c := Exec(Initial(ids, founder), steps); Owned(c, log, PLAIN) && Token(c, log) && c.dead == {}
  {
    var su := PLAIN;
    InitialIsOwned(ids, founder);
    log := OneOwnerFrom(Initial(ids, founder), [founder], su, steps);
  }

  lemma {:induction false} OneOwnerFrom(c: Cluster, log: seq<NodeId>, su: Succession, steps: seq<Step>)
      returns (log': seq<NodeId>)
    requires Owned(c, log, su) && Token(c, log) && c.dead == {} && su == PLAIN
    requires Possible(c, steps) && LoyalRun(c, steps) && SafeRun(c, steps)
    ensures log <= log' && Owned(Exec(c, steps), log', su) && Token(Exec(c, steps), log')
    ensures Exec(c, steps).dead == {}
    ensures LoggedRun(c, steps, log') && HeldRun(c, steps)
    decreases |steps|
  {
    hide Safe, Loyal, Enabled, Apply, Orderly, Holds, Token, Real, Retired, Inherited, Agrees, Move, Extends;
    TokenIsHeld(c, log, su);
    if steps == [] {
      log' := log;
    } else {
      var st := steps[0];
      LoyalIsOrderly(c, st, su);
      var next := StepKeepsOwned(c, log, su, st);
      StepKeepsToken(c, log, su, st, next);
      log' := OneOwnerFrom(Apply(c, st), next, su, steps[1..]);
      LongerLog(c, log, log');
      forall n | n in c.nodes
        ensures Apply(c, st).nodes[n].version > c.nodes[n].version ||
          (Apply(c, st).nodes[n].version == c.nodes[n].version && Apply(c, st).nodes[n].activeID == c.nodes[n].activeID)
      {
        assert Alive(c, n) && Alive(Apply(c, st), n);
      }
    }
  }

  /** In a safe run the branch of RequestJump that hands the cursor off behind the engine's back is
      never taken from the hotkey: a running device that does not show the cursor keeps its state
      and at most asks the owner, who is somebody else. */
  lemma PassiveHotkeyOnlyAsks(ids: set<NodeId>, founder: NodeId, steps: seq<Step>, n: NodeId, slot: nat, ok: bool)
    requires founder in ids && NONE !in ids
    requires Possible(Initial(ids, founder), steps)
    requires LoyalRun(Initial(ids, founder), steps) && SafeRun(Initial(ids, founder), steps)
    requires Enabled(Exec(Initial(ids, founder), steps), Press(n, slot, ok))
    requires !Exec(Initial(ids, founder), steps).nodes[n].amActive
    ensures var c := Exec(Initial(ids, founder), steps);
            var o := Move(c, Press(n, slot, ok));
            o.state == c.nodes[n] && c.nodes[n].activeID != n &&
            forall p | p in o.sent :: p.msg.RequestJump? && p.dst == c.nodes[n].activeID
  {
    hide Initial, Exec, Possible, SafeRun, Owned, LoggedRun, HeldRun, LoyalRun;
    var log := OneOwnerPerVersion(ids, founder, steps);
    OwnedIsOnLog(Exec(Initial(ids, founder), steps), log, PLAIN, n);
    PassiveAsks(Exec(Initial(ids, founder), steps), n, slot, ok);
  }

  lemma PassiveAsks(c: Cluster, n: NodeId, slot: nat, ok: bool)
    requires Enabled(c, Press(n, slot, ok)) && Agrees(n, c.nodes[n]) && !c.nodes[n].amActive
    ensures var o := Move(c, Press(n, slot, ok));
      && o.state == c.nodes[n] && c.nodes[n].activeID != n
      && forall p | p in o.sent :: p.msg.RequestJump? && p.dst == c.nodes[n].activeID
  {
    hide SlotTarget;
  }
}
