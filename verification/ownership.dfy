/** Who owns the cursor: one owner per version, one cursor at a time, over whole runs.

    The proofs thread a log through the run: entry `v - 1` is the device that version `v` names.
    The key invariant is that every past owner has itself moved beyond the version it owned, so
    only the last entry of the log can be showing the cursor. */
module Ownership {
  import opened Ids
  import opened Node
  import opened Cluster

  // ----- the log -----

  /** What happens to the cursor of a dead owner: `heir` gets it, and every survivor has reached
      version `base`. Means nothing while all devices live. If a hand-off to somebody else was under
      way, survivors that missed it name the heir at its version, too; `rival` is that version, 0 for
      none. */
  datatype Succession = Succession(heir: NodeId, base: nat, rival: nat)

  /** One name per version and no exceptions. */
  const PLAIN: Succession := Succession(NONE, 0, 0)

  function OwnerAt(log: seq<NodeId>, version: nat): NodeId
    requires 1 <= version <= |log|
  {
    log[version - 1]
  }

  predicate OnLog(id: NodeId, version: nat, log: seq<NodeId>, su: Succession) {
    && version <= |log|
    && (id == (if version == 0 then NONE else OwnerAt(log, version)) || (0 < version == su.rival && id == su.heir))
  }

  predicate MessageOnLog(msg: Message, log: seq<NodeId>, su: Succession) {
    match msg
    case Welcome(_, id, v) => OnLog(id, v, log, su)
    case MemberSync(_, id, v) => OnLog(id, v, log, su)
    case ActiveChange(id, v) => OnLog(id, v, log, su)
    case FocusHandoff(to, v) => 0 < v && OnLog(to, v, log, PLAIN)
    case _ => true
  }

  /** Every device's and every in-flight message's (owner, version) is an entry of the log. */
  ghost predicate AllOnLog(c: Cluster, log: seq<NodeId>, su: Succession) {
    && (forall n | Alive(c, n) :: OnLog(c.nodes[n].activeID, c.nodes[n].version, log, su))
    && (forall p | p in c.net :: MessageOnLog(p.msg, log, su))
  }

  ghost predicate Retired(c: Cluster, log: seq<NodeId>) {
    forall v | 1 <= v < |log| ::
      OwnerAt(log, v) in c.dead || (OwnerAt(log, v) in c.nodes && c.nodes[OwnerAt(log, v)].version > v)
  }

  ghost predicate Inherited(c: Cluster, log: seq<NodeId>, su: Succession) {
    c.dead != {} ==>
      && 1 <= su.base
      && (forall n | Alive(c, n) :: su.base <= c.nodes[n].version)
      && (forall v | su.base <= v < |log| && OwnerAt(log, v) in c.dead :: log[v] == su.heir || v + 1 == su.rival)
  }

  /** The heir itself did not miss the hand-off, so it never takes itself for the owner there. */
  ghost predicate Disowned(c: Cluster, log: seq<NodeId>, su: Succession) {
    su.rival > 0 ==>
      && su.rival <= |log| && Alive(c, su.heir) && su.rival <= c.nodes[su.heir].version
      && (c.nodes[su.heir].version == su.rival ==> c.nodes[su.heir].activeID != su.heir)
  }

  ghost predicate Owned(c: Cluster, log: seq<NodeId>, su: Succession) {
    && Real(c)
    && |log| > 0
    && AllOnLog(c, log, su)
    && (forall n | Alive(c, n) :: Agrees(n, c.nodes[n]))
    && Retired(c, log)
    && Inherited(c, log, su)
    && Disowned(c, log, su)
  }

  // ----- the guards -----

  ghost predicate DeliversStale(c: Cluster, st: Step)
    requires Enabled(c, st)
  {
    st.Receive? && StaleHandoff(st.p.dst, c.nodes[st.p.dst], st.p.msg)
  }

  ghost predicate Strands(c: Cluster, st: Step)
    requires Enabled(c, st)
  {
    match st
    case Receive(p, ok) => p.msg.RequestJump? && StrandedHandoff(p.dst, c.nodes[p.dst], p.msg.to, ok)
    case Edge(n, right, ok) => StrandedHandoff(n, c.nodes[n], Neighbor(n, c.nodes[n].members, right), ok)
    case Press(n, slot, ok) => StrandedHandoff(n, c.nodes[n], SlotTarget(n, c.nodes[n].members, slot), ok)
    case _ => false
  }

  /** No hand-off is delivered stale, and none is stranded by a failed send. Both conditions are
      visible to the device about to take the step. */
  ghost predicate Safe(c: Cluster, st: Step)
    requires Enabled(c, st)
  {
    !DeliversStale(c, st) && !Strands(c, st)
  }

  /** Whether a step makes its device give up on `peer`. */
  predicate GivesUpOn(st: Step, peer: NodeId) {
    (st.Drop? && st.peer == peer) || (st.Receive? && st.p.msg.Bye? && st.p.src == peer)
  }

  /** Nobody dies in this step, and nobody gives up on the device it names as owner. */
  ghost predicate Loyal(c: Cluster, st: Step)
    requires Enabled(c, st)
  {
    !st.Crash? && !st.Leave? && forall peer | GivesUpOn(st, peer) :: c.nodes[Mover(st)].activeID != peer
  }

  /** Devices neither die in this step nor elect anyone but the heir of a dead owner. */
  ghost predicate Orderly(c: Cluster, st: Step, su: Succession)
    requires Enabled(c, st)
  {
    && !st.Crash? && !st.Leave?
    && forall peer | GivesUpOn(st, peer) && c.nodes[Mover(st)].activeID == peer ::
         peer in c.dead && c.nodes[Mover(st)].members != {peer} &&
         IsLowest(su.heir, c.nodes[Mover(st)].members - {peer})
  }

  // ----- one device, one step -----

  /** What a step of one device means for the log. */
  ghost predicate Follows(n: NodeId, s: State, o: Outcome, log: seq<NodeId>, log': seq<NodeId>, su: Succession) {
    && OnLog(o.state.activeID, o.state.version, log', su)
    && Agrees(n, o.state)
    && s.version <= o.state.version
    && (s.version == o.state.version ==> s.activeID == o.state.activeID)
    && (forall p | p in o.sent :: MessageOnLog(p.msg, log', su))
  }

  lemma AdoptFollows(n: NodeId, s: State, id: NodeId, v: nat, now: int, log: seq<NodeId>, su: Succession)
    requires OnLog(s.activeID, s.version, log, su) && Agrees(n, s) && OnLog(id, v, log, su)
    ensures Follows(n, s, Outcome(Adopt(n, s, id, v, now), {}), log, log, su)
  {}

  lemma SyncFollows(n: NodeId, s: State, msg: Message, now: int, log: seq<NodeId>, su: Succession)
    requires OnLog(s.activeID, s.version, log, su) && Agrees(n, s)
    requires (msg.MemberSync? || msg.Welcome?) && MessageOnLog(msg, log, su)
    ensures Follows(n, s, ReceiveSync(n, s, msg, now), log, log, su)
  {
    AdoptFollows(n, Merge(n, s, msg.members).state, msg.activeID, msg.version, now, log, su);
  }

  /** A step that leaves owner, version and engine flags alone and announces nothing but them. */
  lemma QuietFollows(n: NodeId, s: State, o: Outcome, log: seq<NodeId>, su: Succession)
    requires OnLog(s.activeID, s.version, log, su) && Agrees(n, s)
    requires o.state.activeID == s.activeID && o.state.version == s.version
    requires o.state.amActive == s.amActive && o.state.running == s.running
    requires forall p | p in o.sent :: p.msg.Hello? || p.msg.Ping? || p.msg.Pong? || p.msg == Snapshot(s)
    ensures Follows(n, s, o, log, log, su)
  {}

  lemma RunFollows(n: NodeId, s: State, now: int, log: seq<NodeId>, su: Succession)
    requires OnLog(s.activeID, s.version, log, su)
    ensures Follows(n, s, Outcome(StartEngine(n, s, now), {}), log, log, su)
  {}

  lemma HelloFollows(n: NodeId, s: State, peer: NodeId, log: seq<NodeId>, su: Succession)
    requires OnLog(s.activeID, s.version, log, su) && Agrees(n, s)
    ensures Follows(n, s, AcceptHello(n, s, peer), log, log, su)
  {}

  lemma WelcomeFollows(n: NodeId, s: State, peer: NodeId, msg: Message, now: int, log: seq<NodeId>, su: Succession)
    requires OnLog(s.activeID, s.version, log, su) && Agrees(n, s) && msg.Welcome? && MessageOnLog(msg, log, su)
    ensures Follows(n, s, CompleteDial(n, s, peer, msg, now), log, log, su)
  {
    SyncFollows(n, s.(members := s.members + {peer}), msg, now, log, su);
  }

  lemma HandoffFollows(n: NodeId, s: State, v: nat, now: int, log: seq<NodeId>, su: Succession)
    requires OnLog(s.activeID, s.version, log, su) && Agrees(n, s) && 0 < v && OnLog(n, v, log, PLAIN)
    requires !StaleHandoff(n, s, FocusHandoff(n, v))
    ensures Follows(n, s, Outcome(OnFocusHandoff(n, Bookkeep(s, n, v), n, now), {}), log, log, su)
  {}

  /** The owner at the top of the log hands off: the log gains the target. */
  lemma PerformFollows(n: NodeId, s: State, to: NodeId, ok: bool, now: int, log: seq<NodeId>, su: Succession)
      returns (log': seq<NodeId>)
    requires OnLog(s.activeID, s.version, log, su) && Agrees(n, s) && n != NONE && n !in s.conns
    requires s.amActive ==> s.version == |log|
    requires !StrandedHandoff(n, s, to, ok)
    ensures Follows(n, s, PerformHandoff(n, s, to, ok, now), log, log', su)
    ensures log' == if s.amActive then log + [to] else log
    ensures s.amActive ==> PerformHandoff(n, s, to, ok, now).state.version == |log'|
  {
    log' := if s.amActive then log + [to] else log;
  }

  /** Giving up on the dead owner names its heir at the next version, new to the log or not. */
  lemma ElectFollows(n: NodeId, s: State, peer: NodeId, now: int, log: seq<NodeId>, su: Succession)
      returns (log': seq<NodeId>)
    requires OnLog(s.activeID, s.version, log, su) && Agrees(n, s)
    requires s.activeID == peer ==>
      s.version > 0 && s.members != {peer} && s.members != {} && IsLowest(su.heir, s.members - {peer}) &&
      (s.version < |log| ==> log[s.version] == su.heir || s.version + 1 == su.rival)
    ensures Follows(n, s, DropConn(n, s, peer, now), log, log', su)
    ensures log' == if s.activeID == peer && s.version == |log| then log + [su.heir] else log
    ensures s.activeID == peer ==> DropConn(n, s, peer, now).state.version == s.version + 1
  {
    log' := log;
    if s.activeID == peer {
      LowestUnique(su.heir, s.members - {peer});
      if s.version == |log| { log' := log + [su.heir]; }
    }
  }

  // ----- the whole pool, one step -----

  /** Only the last entry of the log can be showing the cursor. */
  lemma ActiveIsTop(c: Cluster, log: seq<NodeId>, su: Succession, n: NodeId)
    requires Owned(c, log, su) && Alive(c, n) && c.nodes[n].amActive
    ensures c.nodes[n].version == |log| && OwnerAt(log, |log|) == n
  {
    assert OnLog(c.nodes[n].activeID, c.nodes[n].version, log, su) && Agrees(n, c.nodes[n]);
    assert OwnerAt(log, c.nodes[n].version) == n;
  }

  /** A step either leaves the log alone or appends one owner, taking over from the moving device
      or from a dead one. */
  ghost predicate Extends(c: Cluster, n: NodeId, o: Outcome, log: seq<NodeId>, log': seq<NodeId>, su: Succession)
    requires |log| > 0
  {
    log' == log ||
    (&& |log'| == |log| + 1 && log <= log'
     && o.state.version == |log'|
     && var top := OwnerAt(log, |log|); top == n || (top in c.dead && log'[|log|] == su.heir))
  }

  lemma FollowsKeepsLog(c: Cluster, log: seq<NodeId>, n: NodeId, o: Outcome, log': seq<NodeId>, su: Succession)
    requires AllOnLog(c, log, su) && log <= log' && Alive(c, n)
    requires Follows(n, c.nodes[n], o, log, log', su)
    requires forall m | Alive(c, m) :: Agrees(m, c.nodes[m])
    ensures AllOnLog(With(c, n, o), log', su)
    ensures forall m | Alive(With(c, n, o), m) :: Agrees(m, With(c, n, o).nodes[m])
  {
    hide Agrees;
    var c' := With(c, n, o);
    forall m | Alive(c', m) ensures OnLog(c'.nodes[m].activeID, c'.nodes[m].version, log', su) {
      assert Alive(c, m);
    }
    forall p | p in c'.net ensures MessageOnLog(p.msg, log', su) {
      assert p in c.net || p in o.sent;
      if p in c.net { assert MessageOnLog(p.msg, log, su); }
    }
  }

  lemma FollowsKeepsRetired(c: Cluster, log: seq<NodeId>, su: Succession, n: NodeId, o: Outcome, log': seq<NodeId>)
    requires Retired(c, log) && |log| > 0 && Alive(c, n)
    requires c.nodes[n].version <= o.state.version && Extends(c, n, o, log, log', su)
    ensures Retired(With(c, n, o), log')
  {
    var c' := With(c, n, o);
    forall v | 1 <= v < |log'|
      ensures OwnerAt(log', v) in c'.dead || (OwnerAt(log', v) in c'.nodes && c'.nodes[OwnerAt(log', v)].version > v)
    {
      assert OwnerAt(log', v) == OwnerAt(log, v);
    }
  }

  lemma FollowsKeepsInherited(c: Cluster, log: seq<NodeId>, su: Succession, n: NodeId, o: Outcome, log': seq<NodeId>)
    requires Inherited(c, log, su) && |log| > 0 && Alive(c, n)
    requires c.nodes[n].version <= o.state.version && Extends(c, n, o, log, log', su)
    ensures Inherited(With(c, n, o), log', su)
  {
    var c' := With(c, n, o);
    if c'.dead != {} {
      forall v | su.base <= v < |log'| && OwnerAt(log', v) in c'.dead
        ensures log'[v] == su.heir || v + 1 == su.rival
      {
        assert OwnerAt(log', v) == OwnerAt(log, v);
      }
      forall m | Alive(c', m) ensures su.base <= c'.nodes[m].version {
        assert Alive(c, m);
      }
    }
  }

  lemma FollowsKeepsDisowned(c: Cluster, log: seq<NodeId>, su: Succession, n: NodeId, o: Outcome, log': seq<NodeId>)
    requires Disowned(c, log, su) && |log| <= |log'| && Alive(c, n)
    requires c.nodes[n].version <= o.state.version
    requires c.nodes[n].version == o.state.version ==> c.nodes[n].activeID == o.state.activeID
    ensures Disowned(With(c, n, o), log', su)
  {}

  lemma FollowsKeepsOwned(c: Cluster, log: seq<NodeId>, su: Succession, n: NodeId, o: Outcome, log': seq<NodeId>)
    requires Owned(c, log, su) && Alive(c, n)
    requires RealOutcome(n, o, c.nodes.Keys)
    requires Follows(n, c.nodes[n], o, log, log', su) && Extends(c, n, o, log, log', su)
    ensures Owned(With(c, n, o), log', su)
  {
    hide Agrees, RealOutcome, Real, With, AllOnLog, Retired, Inherited, Disowned;
    RealWith(c, n, o);
    FollowsKeepsLog(c, log, n, o, log', su);
    FollowsKeepsRetired(c, log, su, n, o, log');
    FollowsKeepsInherited(c, log, su, n, o, log');
    FollowsKeepsDisowned(c, log, su, n, o, log');
  }

  lemma TopPerforms(c: Cluster, log: seq<NodeId>, su: Succession, n: NodeId, to: NodeId, ok: bool)
      returns (log': seq<NodeId>)
    requires Owned(c, log, su) && Alive(c, n) && !StrandedHandoff(n, c.nodes[n], to, ok)
    ensures Follows(n, c.nodes[n], PerformHandoff(n, c.nodes[n], to, ok, c.now), log, log', su)
    ensures Extends(c, n, PerformHandoff(n, c.nodes[n], to, ok, c.now), log, log', su)
  {
    hide Follows, PerformHandoff, Retired, Inherited, Agrees;
    if c.nodes[n].amActive { ActiveIsTop(c, log, su, n); }
    assert RealState(n, c.nodes[n], c.nodes.Keys);
    log' := PerformFollows(n, c.nodes[n], to, ok, c.now, log, su);
  }

  lemma TopPresses(c: Cluster, log: seq<NodeId>, su: Succession, n: NodeId, to: NodeId, ok: bool)
      returns (log': seq<NodeId>)
    requires Owned(c, log, su) && Alive(c, n) && c.nodes[n].running && !StrandedHandoff(n, c.nodes[n], to, ok)
    ensures Follows(n, c.nodes[n], Hotkey(n, c.nodes[n], to, ok, c.now), log, log', su)
    ensures Extends(c, n, Hotkey(n, c.nodes[n], to, ok, c.now), log, log', su)
  {
    if c.nodes[n].amActive {
      hide *;
      log' := TopPerforms(c, log, su, n, to, ok);
    } else {
      log' := log;
    }
  }

  lemma SurvivorElects(c: Cluster, log: seq<NodeId>, su: Succession, n: NodeId, peer: NodeId)
      returns (log': seq<NodeId>)
    requires Owned(c, log, su) && Alive(c, n) && n != peer
    requires c.nodes[n].activeID == peer ==>
      peer in c.dead && c.nodes[n].members != {peer} && IsLowest(su.heir, c.nodes[n].members - {peer})
    ensures Follows(n, c.nodes[n], DropConn(n, c.nodes[n], peer, c.now), log, log', su)
    ensures Extends(c, n, DropConn(n, c.nodes[n], peer, c.now), log, log', su)
  {
    hide Follows, DropConn, Agrees, Retired;
    var s := c.nodes[n];
    assert RealState(n, s, c.nodes.Keys);
    if s.activeID == peer {
      assert OwnerAt(log, s.version) == peer;
    }
    log' := ElectFollows(n, s, peer, c.now, log, su);
  }

  lemma ReceiveFollows(c: Cluster, log: seq<NodeId>, su: Succession, p: Packet, ok: bool) returns (log': seq<NodeId>)
    requires Owned(c, log, su) && Enabled(c, Receive(p, ok)) && Safe(c, Receive(p, ok)) &&
            Orderly(c, Receive(p, ok), su)
    ensures Follows(p.dst, c.nodes[p.dst], Dispatch(p.dst, c.nodes[p.dst], p, ok, c.now), log, log', su)
    ensures Extends(c, p.dst, Dispatch(p.dst, c.nodes[p.dst], p, ok, c.now), log, log', su)
  {
    hide Follows, Agrees, OnActiveChange, DropConn, PerformHandoff, ReceiveSync;
    var n := p.dst;
    var s := c.nodes[n];
    log' := log;
    assert MessageOnLog(p.msg, log, su) && RealPacket(p, c.nodes.Keys);
    match p.msg
    case Hello => HelloFollows(n, s, p.src, log, su);
    case Welcome(_, _, _) => WelcomeFollows(n, s, p.src, p.msg, c.now, log, su);
    case MemberSync(_, _, _) => SyncFollows(n, s, p.msg, c.now, log, su);
    case ActiveChange(id, v) => AdoptFollows(n, s, id, v, c.now, log, su);
    case FocusHandoff(to, v) => HandoffFollows(n, s, v, c.now, log, su);
    case RequestJump(to) => log' := TopPerforms(c, log, su, n, to, ok);
    case Ping => QuietFollows(n, s, Dispatch(n, s, p, ok, c.now), log, su);
    case Pong => QuietFollows(n, s, Dispatch(n, s, p, ok, c.now), log, su);
    case Bye => log' := SurvivorElects(c, log, su, n, p.src);
  }

  predicate IsQuiet(st: Step) {
    st.Join? || st.GossipTick? || st.Beat? || st.Maintain? || st.DialFails?
  }

  lemma QuietMove(c: Cluster, st: Step, log: seq<NodeId>, su: Succession)
    requires Enabled(c, st) && IsQuiet(st) && Mover(st) in c.nodes
    requires OnLog(c.nodes[Mover(st)].activeID, c.nodes[Mover(st)].version, log, su)
    requires Agrees(Mover(st), c.nodes[Mover(st)])
    ensures Follows(Mover(st), c.nodes[Mover(st)], Move(c, st), log, log, su)
  {
    hide Follows, OnLog, Agrees;
    QuietFollows(Mover(st), c.nodes[Mover(st)], Move(c, st), log, su);
  }

  lemma MoveFollows(c: Cluster, log: seq<NodeId>, su: Succession, st: Step) returns (log': seq<NodeId>)
    requires Owned(c, log, su) && Enabled(c, st) && Moves(st) && Safe(c, st) && Orderly(c, st, su)
    ensures Follows(Mover(st), c.nodes[Mover(st)], Move(c, st), log, log', su)
    ensures Extends(c, Mover(st), Move(c, st), log, log', su)
  {
    hide Follows, Agrees, OnLog, OnActiveChange, DropConn, PerformHandoff, Dispatch, Neighbor, SlotTarget, Hotkey;
    hide Real, Retired, Inherited, Disowned;
    var n := Mover(st);
    var s := c.nodes[n];
    log' := log;
    if IsQuiet(st) {
      QuietMove(c, st, log, su);
    } else {
      match st
      case Receive(p, ok) => log' := ReceiveFollows(c, log, su, p, ok);
      case Run(_) => RunFollows(n, s, c.now, log, su);
      case Edge(_, right, ok) => log' := TopPerforms(c, log, su, n, Neighbor(n, s.members, right), ok);
      case Press(_, slot, ok) => log' := TopPresses(c, log, su, n, SlotTarget(n, s.members, slot), ok);
      case Drop(_, peer) => log' := SurvivorElects(c, log, su, n, peer);
    }
  }

  /** Taking a packet out of flight, moving the clock: nothing the log explains changes. */
  lemma QuietPoolStep(c: Cluster, c': Cluster, log: seq<NodeId>, su: Succession)
    requires Owned(c, log, su)
    requires c'.nodes == c.nodes && c'.dead == c.dead && c'.net <= c.net
    ensures Owned(c', log, su)
  {
    hide Agrees, RealState, RealPacket;
    assert forall p | p in c'.net :: p in c.net;
    assert forall n | Alive(c', n) :: Alive(c, n);
  }

  lemma StepKeepsOwned(c: Cluster, log: seq<NodeId>, su: Succession, st: Step) returns (log': seq<NodeId>)
    requires Owned(c, log, su) && Enabled(c, st) && Safe(c, st) && Orderly(c, st, su)
    ensures Owned(Apply(c, st), log', su)
    ensures log <= log' && |log'| <= |log| + 1
    ensures Apply(c, st).nodes.Keys == c.nodes.Keys && Apply(c, st).dead == c.dead
    ensures forall n | Alive(c, n) :: c.nodes[n].version <= Apply(c, st).nodes[n].version
    ensures Moves(st) ==> Extends(c, Mover(st), Move(c, st), log, log', su)
    ensures !Moves(st) ==> log' == log
  {
    log' := log;
    if Moves(st) {
      log' := MoveFollows(c, log, su, st);
      MovedKeepsOwned(c, log, su, st, log');
    } else {
      QuietPoolStep(c, Apply(c, st), log, su);
    }
  }

  lemma MovedKeepsOwned(c: Cluster, log: seq<NodeId>, su: Succession, st: Step, log': seq<NodeId>)
    requires Owned(c, log, su) && Enabled(c, st) && Moves(st)
    requires Follows(Mover(st), c.nodes[Mover(st)], Move(c, st), log, log', su)
    requires Extends(c, Mover(st), Move(c, st), log, log', su)
    ensures Owned(Apply(c, st), log', su)
    ensures log <= log' && |log'| <= |log| + 1
    ensures Apply(c, st).nodes.Keys == c.nodes.Keys && Apply(c, st).dead == c.dead
    ensures forall n | Alive(c, n) :: c.nodes[n].version <= Apply(c, st).nodes[n].version
  {
    hide Move, Neighbor, SlotTarget, Agrees, RealState, RealPacket, RealOutcome, AllOnLog, Retired, Inherited;
    RealMove(c, st);
    var c0 := if st.Receive? then Without(c, st.p) else c;
    QuietPoolStep(c, c0, log, su);
    FollowsKeepsOwned(c0, log, su, Mover(st), Move(c, st), log');
    assert Apply(c, st) == With(c0, Mover(st), Move(c, st));
  }

  // ----- where new versions come from -----

  /** The device showing the cursor attempts a hand-off. */
  ghost predicate HandsOff(c: Cluster, st: Step)
    requires Enabled(c, st)
  {
    match st
    case Edge(n, _, _) => true
    case Press(n, _, _) => c.nodes[n].amActive
    case Receive(p, _) => p.msg.RequestJump? && c.nodes[p.dst].amActive
    case _ => false
  }

  lemma HandoffIsPerformed(c: Cluster, st: Step) returns (to: NodeId, ok: bool)
    requires Enabled(c, st) && HandsOff(c, st)
    ensures Moves(st) && Mover(st) in c.nodes && c.nodes[Mover(st)].amActive
    ensures Move(c, st) == PerformHandoff(Mover(st), c.nodes[Mover(st)], to, ok, c.now)
  {
    hide Neighbor, SlotTarget, PerformHandoff;
    var s := c.nodes[Mover(st)];
    match st
    case Edge(n, right, k) => to, ok := Neighbor(n, s.members, right), k;
    case Press(n, slot, k) => to, ok := SlotTarget(n, s.members, slot), k;
    case Receive(p, k) => to, ok := p.msg.to, k;
  }

  lemma DispatchGrowth(n: NodeId, s: State, p: Packet, ok: bool, now: int, log: seq<NodeId>, su: Succession)
    requires OnLog(s.activeID, s.version, log, su) && MessageOnLog(p.msg, log, su)
    requires Dispatch(n, s, p, ok, now).state.version > |log|
    ensures (p.msg.RequestJump? && s.amActive) || (p.msg.Bye? && s.activeID == p.src && s.version == |log|)
  {}

  /** A version above the log is made by a hand-off or by electing an heir to the last owner. */
  lemma NewVersionOrigin(c: Cluster, log: seq<NodeId>, su: Succession, st: Step)
    requires Owned(c, log, su) && Enabled(c, st) && Moves(st)
    requires Move(c, st).state.version > |log|
    ensures HandsOff(c, st) ||
            (GivesUpOn(st, c.nodes[Mover(st)].activeID) && c.nodes[Mover(st)].version == |log|)
  {
    hide Neighbor, SlotTarget, Retired, Inherited, Dispatch, Real;
    var n := Mover(st);
    assert OnLog(c.nodes[n].activeID, c.nodes[n].version, log, su) && Agrees(n, c.nodes[n]);
    if st.Receive? {
      assert MessageOnLog(st.p.msg, log, su);
      DispatchGrowth(n, c.nodes[n], st.p, st.ok, c.now, log, su);
    }
  }
}
