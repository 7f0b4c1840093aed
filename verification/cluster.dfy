/** The pool as a transition system: devices, the packets in flight between them, a common clock.

    One step is one dispatched packet, one public call or one tick of a background loop. Packets
    may be reordered at will and, where a step says so, lost. */
module Cluster {
  import opened Ids
  import opened Node

  datatype Cluster = Cluster(
    nodes: map<NodeId, State>,
    net: multiset<Packet>,
    now: int,
    dead: set<NodeId>,
    dials: multiset<Packet>    // history: every Hello ever sent
  )

  datatype Step =
    | Join(joiner: NodeId, contact: NodeId)         // JoinPool's first dial
    | Receive(p: Packet, ok: bool)                  // readLoop and dispatch; `ok`: a send it causes succeeds
    | GossipTick(n: NodeId)
    | Beat(n: NodeId)                               // heartbeatLoop's pings
    | Run(n: NodeId)                                // the start of Engine.Run
    | Edge(n: NodeId, right: bool, ok: bool)        // the cursor meets a screen edge
    | Press(n: NodeId, slot: nat, ok: bool)         // the hotkey for a ring position
    | Maintain(n: NodeId, peer: NodeId)             // meshMaintenanceLoop dials a missing peer
    | DialFails(n: NodeId, peer: NodeId)
    | Lose(p: Packet)
    | Advance(ms: nat)
    | Crash(n: NodeId)
    | Leave(n: NodeId)
    | Drop(n: NodeId, peer: NodeId)                 // a read error or a heartbeat timeout

  /** A pool as its founder creates it, with every future joiner still on its own. */
  ghost function Initial(ids: set<NodeId>, founder: NodeId): Cluster
    requires founder in ids
  {
    Cluster(map n | n in ids :: if n == founder then Founder(n) else Blank(n), multiset{}, 0, {}, multiset{})
  }

  predicate Alive(c: Cluster, n: NodeId) {
    n in c.nodes && n !in c.dead
  }

  predicate Up(c: Cluster, n: NodeId) {
    Alive(c, n) && c.nodes[n].phase == Started
  }

  ghost predicate Enabled(c: Cluster, st: Step) {
    match st
    case Join(j, f) => Alive(c, j) && c.nodes[j].phase == Fresh && Up(c, f) && j != f
    case Receive(p, _) => p in c.net && Alive(c, p.dst) &&
      if p.msg.Welcome? then c.nodes[p.dst].phase != Fresh else c.nodes[p.dst].phase == Started
    case GossipTick(n) => Up(c, n)
    case Beat(n) => Up(c, n)
    case Run(n) => Up(c, n) && !c.nodes[n].running
    case Edge(n, right, _) => Up(c, n) && c.nodes[n].running && c.nodes[n].amActive &&
      c.now - c.nodes[n].activeSince >= EDGE_COOLDOWN && Neighbor(n, c.nodes[n].members, right) != NONE
    case Press(n, slot, _) => Up(c, n) && c.nodes[n].running && SlotTarget(n, c.nodes[n].members, slot) != NONE
    case Maintain(n, peer) => Up(c, n) && peer in c.nodes[n].members - c.nodes[n].conns && peer != n
    case DialFails(n, peer) => Up(c, n) && peer in c.nodes[n].dialing
    case Lose(p) => p in c.net && !p.msg.FocusHandoff?
    case Advance(_) => true
    case Crash(n) => Alive(c, n)
    case Leave(n) => Alive(c, n)
    case Drop(n, peer) => Up(c, n) && n != peer
  }

  ghost function Dials(sent: set<Packet>): multiset<Packet> {
    multiset(set p | p in sent && p.msg.Hello?)
  }

  /** The pool after device `n` has moved and written its packets. */
  ghost function With(c: Cluster, n: NodeId, o: Outcome): Cluster {
    c.(nodes := c.nodes[n := o.state], net := c.net + multiset(o.sent), dials := c.dials + Dials(o.sent))
  }

  ghost function Without(c: Cluster, p: Packet): Cluster {
    c.(net := c.net - multiset{p})
  }

  /** The device a step moves, if any. */
  function Mover(st: Step): NodeId {
    match st
    case Join(j, _) => j
    case Receive(p, _) => p.dst
    case GossipTick(n) => n
    case Beat(n) => n
    case Run(n) => n
    case Edge(n, _, _) => n
    case Press(n, _, _) => n
    case Maintain(n, _) => n
    case DialFails(n, _) => n
    case Drop(n, _) => n
    case _ => NONE
  }

  predicate Moves(st: Step) {
    !st.Lose? && !st.Advance? && !st.Crash? && !st.Leave?
  }

  /** What the moving device does. */
  ghost function Move(c: Cluster, st: Step): Outcome
    requires Moves(st) && Mover(st) in c.nodes
  {
    var n := Mover(st);
    var s := c.nodes[n];
    match st
    case Join(j, f) => Outcome(s.(phase := Dialing), {Packet(j, f, Hello)})
    case Receive(p, ok) => Dispatch(n, s, p, ok, c.now)
    case GossipTick(_) => Gossip(n, s)
    case Beat(_) => Node.Beat(n, s)
    case Run(_) => Outcome(StartEngine(n, s, c.now), {})
    case Edge(_, right, ok) => PerformHandoff(n, s, Neighbor(n, s.members, right), ok, c.now)
    case Press(_, slot, ok) => Hotkey(n, s, SlotTarget(n, s.members, slot), ok, c.now)
    case Maintain(_, peer) => ForceDial(n, s, peer)
    case DialFails(_, peer) => Outcome(s.(dialing := s.dialing - {peer}), {})
    case Drop(_, peer) => DropConn(n, s, peer, c.now)
  }

  ghost function Apply(c: Cluster, st: Step): Cluster
    requires Enabled(c, st)
  {
    match st
    case Receive(p, _) => With(Without(c, p), Mover(st), Move(c, st))
    case Lose(p) => Without(c, p)
    case Advance(ms) => c.(now := c.now + ms)
    case Crash(n) => c.(dead := c.dead + {n})
    case Leave(n) => c.(dead := c.dead + {n}, net := c.net + multiset(Broadcast(n, c.nodes[n].conns, Bye)))
    case _ => With(c, Mover(st), Move(c, st))
  }

  // ----- runs -----

  ghost predicate Possible(c: Cluster, steps: seq<Step>)
    decreases |steps|
  {
    steps == [] || (Enabled(c, steps[0]) && Possible(Apply(c, steps[0]), steps[1..]))
  }

  ghost function Exec(c: Cluster, steps: seq<Step>): Cluster
    requires Possible(c, steps)
    decreases |steps|
  {
    if steps == [] then c else Exec(Apply(c, steps[0]), steps[1..])
  }

  /** No device crashes, leaves or is given up on. */
  predicate CrashFreeStep(st: Step) {
    !st.Crash? && !st.Leave? && !st.Drop? && (st.Receive? ==> !st.p.msg.Bye?)
  }

  predicate CrashFree(steps: seq<Step>) {
    forall i | 0 <= i < |steps| :: CrashFreeStep(steps[i])
  }

  lemma {:induction false} Prefix(c: Cluster, steps: seq<Step>, i: nat)
    requires Possible(c, steps) && i <= |steps|
    ensures Possible(c, steps[..i])
    ensures Possible(Exec(c, steps[..i]), steps[i..])
    ensures Exec(Exec(c, steps[..i]), steps[i..]) == Exec(c, steps)
    decreases |steps|
  {
    if i == 0 {
      assert steps[..0] == [] && steps[0..] == steps;
    } else {
      Prefix(Apply(c, steps[0]), steps[1..], i - 1);
      assert steps[..i][0] == steps[0] && steps[..i][1..] == steps[1..][..i - 1];
      assert steps[1..][i - 1..] == steps[i..];
    }
  }

  // ----- what holds of every run -----

  ghost predicate Lists(msg: Message, x: NodeId) {
    (msg.MemberSync? || msg.Welcome?) && x in msg.members
  }

  ghost predicate RealState(n: NodeId, s: State, ids: set<NodeId>) {
    s.conns <= s.members <= ids && s.dialing <= ids && n !in s.conns && n in s.members
  }

  ghost predicate RealPacket(p: Packet, ids: set<NodeId>) {
    && p.src in ids && p.dst in ids && p.src != p.dst
    && (p.msg.FocusHandoff? ==> p.msg.to == p.dst)
    && (forall x | Lists(p.msg, x) :: x in ids)
  }

  ghost predicate RealOutcome(n: NodeId, o: Outcome, ids: set<NodeId>) {
    RealState(n, o.state, ids) && forall p | p in o.sent :: RealPacket(p, ids) && p.src == n
  }

  /** Nobody is heard of who does not exist, and nobody is connected who is not a member. */
  ghost predicate Real(c: Cluster) {
    && NONE !in c.nodes
    && (forall n | n in c.nodes :: RealState(n, c.nodes[n], c.nodes.Keys))
    && (forall p | p in c.net :: RealPacket(p, c.nodes.Keys))
  }

  lemma RealSync(n: NodeId, s: State, msg: Message, now: int, ids: set<NodeId>)
    requires RealState(n, s, ids) && n in ids && (msg.MemberSync? || msg.Welcome?) && msg.members <= ids
    ensures RealOutcome(n, ReceiveSync(n, s, msg, now), ids)
  {}

  lemma RealPerform(n: NodeId, s: State, to: NodeId, ok: bool, now: int, ids: set<NodeId>)
    requires RealState(n, s, ids) && n in ids
    ensures RealOutcome(n, PerformHandoff(n, s, to, ok, now), ids)
    ensures RealOutcome(n, Hotkey(n, s, to, ok, now), ids)
  {}

  lemma RealDrop(n: NodeId, s: State, peer: NodeId, now: int, ids: set<NodeId>)
    requires RealState(n, s, ids) && n in ids && peer != n
    ensures RealOutcome(n, DropConn(n, s, peer, now), ids)
  {}

  lemma RealDispatch(n: NodeId, s: State, p: Packet, ok: bool, now: int, ids: set<NodeId>)
    requires RealState(n, s, ids) && RealPacket(p, ids) && p.dst == n
    ensures RealOutcome(n, Dispatch(n, s, p, ok, now), ids)
  {
    match p.msg
    case Hello =>
    case Welcome(list, _, _) =>
      assert forall x | x in list :: Lists(p.msg, x);
      RealSync(n, s.(members := s.members + {p.src}), p.msg, now, ids);
    case MemberSync(list, _, _) =>
      assert forall x | x in list :: Lists(p.msg, x);
      RealSync(n, s, p.msg, now, ids);
    case ActiveChange(_, _) =>
    case FocusHandoff(_, _) =>
    case RequestJump(to) => RealPerform(n, s, to, ok, now, ids);
    case Ping =>
    case Pong =>
    case Bye => RealDrop(n, s, p.src, now, ids);
  }

  lemma RealMove(c: Cluster, st: Step)
    requires Real(c) && Enabled(c, st) && Moves(st)
    ensures RealOutcome(Mover(st), Move(c, st), c.nodes.Keys)
  {
    hide Dispatch, PerformHandoff, Hotkey, DropConn, Neighbor, SlotTarget;
    var n, ids := Mover(st), c.nodes.Keys;
    var s := c.nodes[n];
    match st
    case Join(_, _) =>
    case Receive(p, ok) => RealDispatch(n, s, p, ok, c.now, ids);
    case GossipTick(_) =>
    case Beat(_) =>
    case Run(_) =>
    case Edge(_, right, ok) => RealPerform(n, s, Neighbor(n, s.members, right), ok, c.now, ids);
    case Press(_, slot, ok) => RealPerform(n, s, SlotTarget(n, s.members, slot), ok, c.now, ids);
    case Maintain(_, _) =>
    case DialFails(_, _) =>
    case Drop(_, peer) => RealDrop(n, s, peer, c.now, ids);
  }

  lemma RealWith(c: Cluster, n: NodeId, o: Outcome)
    requires Real(c) && n in c.nodes && RealOutcome(n, o, c.nodes.Keys)
    ensures Real(With(c, n, o)) && With(c, n, o).nodes.Keys == c.nodes.Keys
  {
    hide RealState, RealPacket;
    assert With(c, n, o).nodes.Keys == c.nodes.Keys;
  }

  lemma RealStep(c: Cluster, st: Step)
    requires Real(c) && Enabled(c, st)
    ensures Real(Apply(c, st))
    ensures Apply(c, st).nodes.Keys == c.nodes.Keys
  {
    hide Move, RealState, RealPacket, Neighbor, SlotTarget;
    if Moves(st) {
      RealMove(c, st);
      RealWith(if st.Receive? then Without(c, st.p) else c, Mover(st), Move(c, st));
    } else if st.Leave? {
      RealBye(c, st.n);
    }
  }

  lemma RealBye(c: Cluster, n: NodeId)
    requires Real(c) && n in c.nodes
    ensures forall p | p in Broadcast(n, c.nodes[n].conns, Bye) :: RealPacket(p, c.nodes.Keys)
  {}
}
