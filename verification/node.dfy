/** One device as a value: the fields of `Pool` and `Engine` that the ownership protocol reads
    or writes, and every protocol step of the pair as a function of that value.

    A step yields the new state together with the set of packets it writes to its peers. The
    methods of module Device are proved to compute these functions on their own fields, and
    module Cluster lets many such devices exchange the packets. */
module Node {
  import opened Ids

  // internal/cursor/engine.go: 400 ms
  const EDGE_COOLDOWN: int := 400

  /** How far a device has got in joining the pool: before its first dial, waiting for the reply
      to it, and with its accept, gossip and heartbeat loops running. */
  datatype Phase = Fresh | Dialing | Started

  datatype State = State(
    phase: Phase,
    members: set<NodeId>,
    conns: set<NodeId>,
    dialing: set<NodeId>,
    activeID: NodeId,
    version: nat,
    running: bool,    // Engine.Run has taken its initial reading of the owner
    amActive: bool,
    activeSince: int
  )

  /** What devices write to each other. `Welcome` is the accepting side's Hello together with the
      member snapshot that always follows it on the same connection. */
  datatype Message =
    | Hello
    | Welcome(members: set<NodeId>, activeID: NodeId, version: nat)
    | MemberSync(members: set<NodeId>, activeID: NodeId, version: nat)
    | ActiveChange(activeID: NodeId, version: nat)
    | FocusHandoff(to: NodeId, version: nat)
    | RequestJump(to: NodeId)
    | Ping
    | Pong
    | Bye

  datatype Packet = Packet(src: NodeId, dst: NodeId, msg: Message)

  datatype Outcome = Outcome(state: State, sent: set<Packet>)

  /** A device before it has joined anything. */
  function Blank(self: NodeId): State {
    State(Fresh, {self}, {}, {}, NONE, 0, false, false, 0)
  }

  /** The device that creates the pool owns the cursor at version 1. */
  function Founder(self: NodeId): State {
    Blank(self).(phase := Started, activeID := self, version := 1)
  }

  // ----- the engine -----

  function SetActive(s: State, active: bool, now: int): State {
    s.(amActive := active, activeSince := if active then now else s.activeSince)
  }

  function OnActiveChange(self: NodeId, s: State, newID: NodeId, now: int): State {
    if s.amActive == (newID == self) then s else SetActive(s, newID == self, now)
  }

  function OnFocusHandoff(self: NodeId, s: State, to: NodeId, now: int): State {
    if to != self then s else SetActive(s, true, now)
  }

  function StartEngine(self: NodeId, s: State, now: int): State {
    SetActive(s, s.activeID == self, now).(running := true)
  }

  /** The screen to the right or left in the ring, NONE when there is no other. */
  ghost function Neighbor(self: NodeId, members: set<NodeId>, right: bool): NodeId {
    var ring := Ring(members);
    if |ring| < 2 || self !in ring then NONE
    else
      var i := IndexOf(ring, self);
      if right then ring[(i + 1) % |ring|] else ring[(i - 1 + |ring|) % |ring|]
  }

  /** The device at a hotkey's ring position, NONE when there is none or it is this one. */
  ghost function SlotTarget(self: NodeId, members: set<NodeId>, slot: nat): NodeId {
    var ring := Ring(members);
    if slot < 1 || slot > |ring| || ring[slot - 1] == self then NONE else ring[slot - 1]
  }

  // ----- last writer wins -----

  predicate Newer(s: State, version: nat) {
    s.version == 0 || version > s.version
  }

  function Bookkeep(s: State, id: NodeId, version: nat): State {
    if Newer(s, version) then s.(activeID := id, version := version) else s
  }

  function Adopt(self: NodeId, s: State, id: NodeId, version: nat, now: int): State {
    if Newer(s, version) && id != s.activeID
    then OnActiveChange(self, Bookkeep(s, id, version), id, now)
    else Bookkeep(s, id, version)
  }

  // ----- sending -----

  ghost function Broadcast(self: NodeId, peers: set<NodeId>, msg: Message): set<Packet> {
    set m | m in peers :: Packet(self, m, msg)
  }

  function Snapshot(s: State): Message {
    MemberSync(s.members, s.activeID, s.version)
  }

  ghost function Gossip(self: NodeId, s: State): Outcome {
    Outcome(s, Broadcast(self, s.conns, Snapshot(s)))
  }

  ghost function Beat(self: NodeId, s: State): Outcome {
    Outcome(s, Broadcast(self, s.conns, Ping))
  }

  /** Whether a hand-off leaves this device: the target is connected and the write succeeds. */
  predicate Departs(s: State, to: NodeId, ok: bool) {
    to in s.conns && ok
  }

  /** Pool.SendFocusHandoff: the owner is rewritten before the send can fail. */
  ghost function SendFocusHandoff(self: NodeId, s: State, to: NodeId, ok: bool): Outcome {
    var v := s.version + 1;
    Outcome(s.(activeID := to, version := v),
            if Departs(s, to, ok)
            then {Packet(self, to, FocusHandoff(to, v))} + Broadcast(self, s.conns, ActiveChange(to, v))
            else {})
  }

  /** Engine.performHandoff: a failed send takes the cursor back. */
  ghost function PerformHandoff(self: NodeId, s: State, to: NodeId, ok: bool, now: int): Outcome {
    if !s.amActive then Outcome(s, {})
    else
      var r := SendFocusHandoff(self, s.(amActive := false), to, ok);
      if Departs(s, to, ok) then r else r.(state := SetActive(r.state, true, now))
  }

  /** Pool.RequestJump: hand off directly when this pool believes it owns the cursor, otherwise
      ask the owner; an unreachable owner is an error that changes nothing. */
  ghost function AskToJump(self: NodeId, s: State, target: NodeId, ok: bool): Outcome {
    if s.activeID == self then SendFocusHandoff(self, s, target, ok)
    else if Departs(s, s.activeID, ok) then Outcome(s, {Packet(self, s.activeID, RequestJump(target))})
    else Outcome(s, {})
  }

  ghost function Hotkey(self: NodeId, s: State, target: NodeId, ok: bool, now: int): Outcome {
    if s.amActive then PerformHandoff(self, s, target, ok, now) else AskToJump(self, s, target, ok)
  }

  // ----- membership -----

  ghost function ForceDial(self: NodeId, s: State, peer: NodeId): Outcome {
    if peer in s.conns || peer in s.dialing then Outcome(s, {})
    else Outcome(s.(dialing := s.dialing + {peer}), {Packet(self, peer, Hello)})
  }

  /** The peers a merge dials: members it had not heard of that sort after it. */
  ghost function ToDial(self: NodeId, s: State, list: set<NodeId>): set<NodeId> {
    set m | m in list && m !in s.members && m !in s.conns && m !in s.dialing && m != self && Less(self, m)
  }

  ghost function Merge(self: NodeId, s: State, list: set<NodeId>): Outcome {
    var dials := ToDial(self, s, list);
    Outcome(s.(members := s.members + (list - {self}), dialing := s.dialing + dials),
            Broadcast(self, dials, Hello))
  }

  ghost function ReceiveSync(self: NodeId, s: State, msg: Message, now: int): Outcome
    requires msg.MemberSync? || msg.Welcome?
  {
    var r := Merge(self, s, msg.members);
    r.(state := Adopt(self, r.state, msg.activeID, msg.version, now))
  }

  /** handleAccept: register the dialer, welcome it, gossip the newcomer to every connection. */
  ghost function AcceptHello(self: NodeId, s: State, peer: NodeId): Outcome {
    var s' := s.(members := s.members + {peer}, conns := s.conns + {peer});
    Outcome(s', {Packet(self, peer, Welcome(s'.members, s'.activeID, s'.version))}
                + Broadcast(self, s'.conns, Snapshot(s')))
  }

  /** The rest of handshakeDial once the accepting side has answered. */
  ghost function CompleteDial(self: NodeId, s: State, peer: NodeId, msg: Message, now: int): Outcome
    requires msg.Welcome?
  {
    var r := ReceiveSync(self, s.(members := s.members + {peer}), msg, now);
    r.(state := r.state.(conns := r.state.conns + {peer}, dialing := r.state.dialing - {peer}, phase := Started))
  }

  /** electActive: the lowest remaining member owns the cursor at the next version. */
  ghost function Elect(self: NodeId, s: State, now: int): Outcome {
    if s.members == {} then Outcome(s, {})
    else
      var heir := Lowest(s.members);
      var v := s.version + 1;
      Outcome(OnActiveChange(self, s.(activeID := heir, version := v), heir, now),
              Broadcast(self, s.conns, ActiveChange(heir, v)))
  }

  ghost function DropConn(self: NodeId, s: State, peer: NodeId, now: int): Outcome {
    var s' := s.(members := s.members - {peer}, conns := s.conns - {peer});
    if s.activeID == peer then Elect(self, s', now) else Outcome(s', {})
  }

  // ----- one received packet -----

  ghost function Dispatch(self: NodeId, s: State, p: Packet, ok: bool, now: int): Outcome {
    match p.msg
    case Hello => AcceptHello(self, s, p.src)
    case Welcome(_, _, _) => CompleteDial(self, s, p.src, p.msg, now)
    case MemberSync(_, _, _) => ReceiveSync(self, s, p.msg, now)
    case ActiveChange(id, v) => Outcome(Adopt(self, s, id, v, now), {})
    case FocusHandoff(to, v) => Outcome(OnFocusHandoff(self, Bookkeep(s, to, v), to, now), {})
    case RequestJump(to) => PerformHandoff(self, s, to, ok, now)
    case Ping => Outcome(s, if p.src in s.conns then {Packet(self, p.src, Pong)} else {})
    case Pong => Outcome(s, {})
    case Bye => DropConn(self, s, p.src, now)
  }

  // ----- when the steps keep engine and pool in agreement -----

  /** A running engine shows the cursor exactly when its pool names this device the owner; an
      engine that is not running yet shows it only then. */
  ghost predicate Agrees(self: NodeId, s: State) {
    && (s.amActive ==> s.activeID == self)
    && (s.running && s.activeID == self ==> s.amActive)
  }

  /** A hand-off that arrives after its receiver has moved past it and on to another owner. */
  predicate StaleHandoff(self: NodeId, s: State, msg: Message) {
    msg.FocusHandoff? && msg.to == self && !Newer(s, msg.version) && s.activeID != self
  }

  /** A hand-off by a device holding the cursor that fails to leave it for another device. */
  predicate StrandedHandoff(self: NodeId, s: State, to: NodeId, ok: bool) {
    s.amActive && !Departs(s, to, ok) && to != self
  }
}
