/** The full mesh opens each connection once: of two devices that hear of each other only one
    dials, and registering a connection never displaces another one.

    As long as nobody dies or is given up on, and without the maintenance loop, whose purpose is to
    dial again. */
module Mesh {
  import opened Ids
  import opened Node
  import opened Cluster

  function Dialled(c: Cluster, a: NodeId, b: NodeId): nat {
    c.dials[Packet(a, b, Hello)]
  }

  /** Nobody else knows `j`, and no snapshot in flight lists it. */
  ghost predicate Unknown(c: Cluster, j: NodeId) {
    && (forall m | m in c.nodes && m != j :: j !in c.nodes[m].members)
    && (forall p | p in c.net :: !Lists(p.msg, j))
  }

  predicate Ready(c: Cluster, n: NodeId) {
    n in c.nodes && c.nodes[n].phase == Started
  }

  /** Of two devices only one dials, and only once. */
  ghost predicate OnceEach(c: Cluster) {
    && (forall a, b {:trigger Dialled(c, a, b), Dialled(c, b, a)} :: a != b ==>
      Dialled(c, a, b) + Dialled(c, b, a) <= 1)
    && (forall a, b | Dialled(c, a, b) > 0 :: a in c.nodes && b in c.nodes && a != b && c.nodes[a].phase != Fresh)
  }

  /** A device that has not joined yet is unknown until its first dial is accepted. */
  ghost predicate FreshUnknown(c: Cluster) {
    forall j | j in c.nodes && c.nodes[j].phase == Fresh :: Unknown(c, j)
  }

  /** Dials against the order are first dials. */
  ghost predicate FirstDials(c: Cluster)
    requires OnceEach(c)
  {
    && (forall a, b | Dialled(c, a, b) > 0 && !Less(a, b) ::
          a in c.nodes[b].members || (c.nodes[a].phase == Dialing && Unknown(c, a)))
    && (forall a, b, b' | Dialled(c, a, b) > 0 && Dialled(c, a, b') > 0 && c.nodes[a].phase == Dialing :: b == b')
  }

  /** A started device knows whom it has dialled. */
  ghost predicate DialledKnown(c: Cluster)
    requires OnceEach(c)
  {
    forall a, b | Dialled(c, a, b) > 0 && c.nodes[a].phase == Started :: b in c.nodes[a].members
  }

  /** Handshakes in flight belong to dials. */
  ghost predicate Handshakes(c: Cluster) {
    && (forall p | p in c.net && p.msg.Hello? :: Dialled(c, p.src, p.dst) > 0)
    && (forall p | p in c.net && p.msg.Welcome? ::
          Dialled(c, p.dst, p.src) > 0 && Ready(c, p.src) && p.dst in c.nodes[p.src].members)
  }

  /** Who has dialled whom, and what they know in consequence. */
  ghost predicate DialInv(c: Cluster) {
    OnceEach(c) && FreshUnknown(c) && FirstDials(c) && DialledKnown(c) && Handshakes(c)
  }

  ghost predicate Connections(c: Cluster) {
    forall a, b | a in c.nodes && b in c.nodes[a].conns :: Dialled(c, a, b) + Dialled(c, b, a) == 1
  }

  ghost predicate OpenHello(c: Cluster, p: Packet) {
    && c.net[p] == 1
    && p.src in c.nodes && p.dst !in c.nodes[p.src].conns
    && p.dst in c.nodes && p.src !in c.nodes[p.dst].conns
  }

  ghost predicate OpenWelcome(c: Cluster, p: Packet) {
    && c.net[p] == 1
    && p.dst in c.nodes && p.src !in c.nodes[p.dst].conns
    && Packet(p.dst, p.src, Hello) !in c.net
  }

  ghost predicate OneWelcome(c: Cluster) {
    forall p, q | p in c.net && q in c.net && p.msg.Welcome? && q.msg.Welcome? && p.src == q.src && p.dst == q.dst ::
      p == q
  }

  /** Each dial is in one stage: asked, welcomed, or connected. */
  ghost predicate ConnInv(c: Cluster) {
    && Connections(c)
    && (forall p | p in c.net && p.msg.Hello? :: OpenHello(c, p))
    && (forall p | p in c.net && p.msg.Welcome? :: OpenWelcome(c, p))
    && OneWelcome(c)
  }

  // ----- how one move relates to the mesh -----

  /** The devices a move's message can teach it about. */
  ghost predicate Heard(st: Step, x: NodeId) {
    st.Receive? && (Lists(st.p.msg, x) || ((st.p.msg.Hello? || st.p.msg.Welcome?) && st.p.src == x))
  }

  ghost predicate MeshStep(st: Step) {
    CrashFreeStep(st) && !st.Maintain?
  }

  /** A move dials exactly those it newly hears of that sort after it, or its first contact. */
  lemma MoveDials(c: Cluster, st: Step, b: NodeId)
    requires Enabled(c, st) && MeshStep(st) && Moves(st)
    ensures var n, s, o := Mover(st), c.nodes[Mover(st)], Move(c, st);
      Packet(n, b, Hello) in o.sent ==>
        && b in o.state.members + {b}
        && ((st.Join? && b == st.contact) ||
            (Heard(st, b) && b !in s.members && Less(n, b) && b in o.state.members &&
             st.Receive? && Lists(st.p.msg, b) && (st.p.msg.Welcome? ==> b != st.p.src)))
  {
    hide Neighbor, SlotTarget;
  }

  /** What a move does to membership: it grows by what is heard. */
  ghost predicate Learns(n: NodeId, s: State, st: Step, o: Outcome) {
    && s.members <= o.state.members
    && (forall x | x in o.state.members && x !in s.members :: Heard(st, x))
    && (forall p | p in o.sent && (p.msg.Hello? || p.msg.Welcome? || p.msg.MemberSync?) :: p.src == n)
  }

  lemma DispatchLearns(n: NodeId, s: State, st: Step, now: int)
    requires st.Receive? && MeshStep(st)
    ensures Learns(n, s, st, Dispatch(n, s, st.p, st.ok, now))
  {}

  lemma MoveLearns(c: Cluster, st: Step)
    requires Enabled(c, st) && MeshStep(st) && Moves(st)
    ensures Learns(Mover(st), c.nodes[Mover(st)], st, Move(c, st))
  {
    hide Neighbor, SlotTarget, Dispatch;
    if st.Receive? { DispatchLearns(st.p.dst, c.nodes[st.p.dst], st, c.now); }
  }

  /** Only started devices pass membership on, and only their own. */
  lemma MoveTells(c: Cluster, st: Step, p: Packet, x: NodeId)
    requires Enabled(c, st) && MeshStep(st) && Moves(st)
    requires p in Move(c, st).sent && Lists(p.msg, x)
    ensures x in Move(c, st).state.members && c.nodes[Mover(st)].phase == Started
  {
    hide Neighbor, SlotTarget;
  }

  /** What a move does to connections: a handshake registers its other end. */
  ghost predicate Connects(n: NodeId, s: State, st: Step, o: Outcome) {
    && o.state.phase == (if st.Join? then Dialing else if st.Receive? && st.p.msg.Welcome? then Started else s.phase)
    && o.state.conns == s.conns + (if st.Receive? && (st.p.msg.Hello? || st.p.msg.Welcome?) then {st.p.src} else {})
    && (forall p | p in o.sent && p.msg.Welcome? :: st.Receive? && st.p.msg.Hello? && p.dst == st.p.src && p.src == n)
    && (forall p, q | p in o.sent && q in o.sent && p.msg.Welcome? && q.msg.Welcome? :: p == q)
    && (st.Receive? && (st.p.msg.Welcome? || st.p.msg.Hello?) ==> st.p.src in o.state.members)
    && (st.Receive? && st.p.msg.Hello? ==> forall p | p in o.sent :: !p.msg.Hello?)
  }

  lemma DispatchConnects(n: NodeId, s: State, st: Step, now: int)
    requires st.Receive? && MeshStep(st)
    ensures Connects(n, s, st, Dispatch(n, s, st.p, st.ok, now))
  {}

  lemma MoveConnects(c: Cluster, st: Step)
    requires Enabled(c, st) && MeshStep(st) && Moves(st)
    ensures Connects(Mover(st), c.nodes[Mover(st)], st, Move(c, st))
  {
    hide Neighbor, SlotTarget, Dispatch;
    if st.Receive? { DispatchConnects(st.p.dst, c.nodes[st.p.dst], st, c.now); }
  }

  // ----- the dialling invariant -----

  lemma MoverUp(c: Cluster, st: Step)
    requires Real(c) && Enabled(c, st) && MeshStep(st) && Moves(st)
    ensures var n := Mover(st);
      && n in c.nodes && c.nodes[n].members <= c.nodes.Keys && n in c.nodes[n].members
      && (if st.Join? then c.nodes[n].phase == Fresh && st.contact in c.nodes && st.contact != n && Ready(c, st.contact)
          else if st.Receive? && st.p.msg.Welcome? then c.nodes[n].phase != Fresh
          else c.nodes[n].phase == Started)
      && (st.Receive? ==> st.p in c.net && st.p.dst == n && st.p.src != n && st.p.src in c.nodes)
  {
    assert RealState(Mover(st), c.nodes[Mover(st)], c.nodes.Keys);
    if st.Receive? { assert RealPacket(st.p, c.nodes.Keys); }
  }

  /** A device dials only someone it has not dialled before and who has not dialled it. */
  lemma NewDialIsFirst(c: Cluster, st: Step, b: NodeId)
    requires Real(c) && DialInv(c) && Enabled(c, st) && MeshStep(st) && Moves(st)
    requires Packet(Mover(st), b, Hello) in Move(c, st).sent
    ensures Dialled(c, Mover(st), b) == 0 && Dialled(c, b, Mover(st)) == 0 && b != Mover(st)
  {
    hide Enabled, Move, Real, Heard;
    var n := Mover(st);
    MoverUp(c, st);
    MoveDials(c, st, b);
    if st.Join? {
      assert Unknown(c, n);
    } else {
      Asymmetry(n, b);
      assert Lists(st.p.msg, b) && !Unknown(c, b);
    }
  }

  lemma DialCount(c: Cluster, st: Step, a: NodeId, b: NodeId)
    requires Enabled(c, st) && MeshStep(st) && Moves(st)
    ensures Dialled(Apply(c, st), a, b) ==
            Dialled(c, a, b) + (if Packet(a, b, Hello) in Move(c, st).sent then 1 else 0)
    ensures Packet(a, b, Hello) in Move(c, st).sent ==> a == Mover(st)
  {
    hide Move;
    MoveLearns(c, st);
  }

  lemma UnknownKept(c: Cluster, st: Step, j: NodeId)
    requires Real(c) && DialInv(c) && Enabled(c, st) && MeshStep(st) && Moves(st)
    requires Unknown(c, j) && j in c.nodes && c.nodes[j].phase != Started
    requires !(st.Receive? && st.p.msg.Hello? && st.p.src == j)
    ensures Unknown(Apply(c, st), j)
  {
    hide Move, Enabled, Real, Lists, OnceEach, FreshUnknown;
    MoverUp(c, st);
    var n, o, c' := Mover(st), Move(c, st), Apply(c, st);
    MoveLearns(c, st);
    assert !Heard(st, j);
    forall p | p in c'.net ensures !Lists(p.msg, j) {
      assert p in c.net || p in o.sent;
      if p in o.sent && Lists(p.msg, j) { MoveTells(c, st, p, j); }
    }
  }

  /** What the lemmas below need of one step: the mover, its new state and the new dials. */
  lemma Effects(c: Cluster, st: Step)
    requires Real(c) && Enabled(c, st) && MeshStep(st) && Moves(st)
    ensures var n, o, c' := Mover(st), Move(c, st), Apply(c, st);
      && n in c.nodes && c'.nodes == c.nodes[n := o.state] && c'.dead == c.dead
      && c.nodes[n].members <= o.state.members
      && (forall p | p in c'.net :: p in c.net || p in o.sent)
      && (st.Receive? ==> c'.net == c.net - multiset{st.p} + multiset(o.sent))
      && (!st.Receive? ==> c'.net == c.net + multiset(o.sent))
      && (forall a, b | Dialled(c', a, b) > 0 :: Dialled(c, a, b) > 0 || (a == n && Packet(n, b, Hello) in o.sent))
      && (forall a, b | Dialled(c, a, b) > 0 :: Dialled(c', a, b) > 0)
      && (c.nodes[n].phase == Fresh ==> st.Join?)
      && (o.state.phase == if st.Join? then Dialing else if st.Receive? &&
        st.p.msg.Welcome? then Started else c.nodes[n].phase)
  {
    hide Move, Real, Lists;
    MoverUp(c, st);
    MoveLearns(c, st);
    MoveConnects(c, st);
    forall a, b
      ensures Dialled(Apply(c, st), a, b) ==
              Dialled(c, a, b) + (if Packet(a, b, Hello) in Move(c, st).sent then 1 else 0)
      ensures Packet(a, b, Hello) in Move(c, st).sent ==> a == Mover(st)
    {
      DialCount(c, st, a, b);
    }
  }

  lemma OnceEachKept(c: Cluster, st: Step)
    requires Real(c) && DialInv(c) && Enabled(c, st) && MeshStep(st) && Moves(st)
    ensures OnceEach(Apply(c, st))
  {
    hide Move, Enabled, Real, Apply, FreshUnknown, FirstDials, DialledKnown, Handshakes, Heard, Lists;
    MoverUp(c, st);
    Effects(c, st);
    var n, o, c' := Mover(st), Move(c, st), Apply(c, st);
    forall b | Packet(n, b, Hello) in o.sent
      ensures Dialled(c, n, b) == 0 && Dialled(c, b, n) == 0 && b != n && b in c.nodes && o.state.phase != Fresh
    {
      NewDialIsFirst(c, st, b);
      SentIsReal(c, st, Packet(n, b, Hello));
    }
    forall a, b | a != b ensures Dialled(c', a, b) + Dialled(c', b, a) <= 1 {
      DialCount(c, st, a, b);
      DialCount(c, st, b, a);
    }
  }

  lemma SentIsReal(c: Cluster, st: Step, p: Packet)
    requires Real(c) && Enabled(c, st) && Moves(st) && p in Move(c, st).sent
    ensures p.src == Mover(st) && p.dst in c.nodes && p.dst != p.src
  {
    hide Move, Enabled, Real;
    RealMove(c, st);
    assert RealPacket(p, c.nodes.Keys);
  }

  lemma FreshUnknownKept(c: Cluster, st: Step)
    requires Real(c) && DialInv(c) && Enabled(c, st) && MeshStep(st) && Moves(st)
    ensures FreshUnknown(Apply(c, st))
  {
    hide Move, Enabled, Real, Apply, FirstDials, DialledKnown, Heard, Lists, Unknown;
    MoverUp(c, st);
    Effects(c, st);
    var n, o, c' := Mover(st), Move(c, st), Apply(c, st);
    forall j | j in c'.nodes && c'.nodes[j].phase == Fresh ensures Unknown(c', j) {
      assert c.nodes[j].phase == Fresh;
      UnknownKept(c, st, j);
    }
  }

  lemma DialledKnownKept(c: Cluster, st: Step)
    requires Real(c) && DialInv(c) && Enabled(c, st) && MeshStep(st) && Moves(st)
    requires OnceEach(Apply(c, st))
    ensures DialledKnown(Apply(c, st))
  {
    hide Move, Enabled, Real, Apply, FreshUnknown, Lists, Unknown;
    MoverUp(c, st);
    Effects(c, st);
    var n, o, c' := Mover(st), Move(c, st), Apply(c, st);
    MoveConnects(c, st);
    forall a, b | Dialled(c', a, b) > 0 && c'.nodes[a].phase == Started ensures b in c'.nodes[a].members {
      if Dialled(c, a, b) == 0 {
        MoveDials(c, st, b);
      }
    }
  }

  lemma HelloBelongs(c: Cluster, st: Step, p: Packet)
    requires Handshakes(c) && Enabled(c, st) && MeshStep(st) && Moves(st) && Real(c)
    requires p in Apply(c, st).net && p.msg.Hello?
    ensures Dialled(Apply(c, st), p.src, p.dst) > 0
  {
    hide Move, Enabled, Real, Apply, Lists;
    MoverUp(c, st);
    Effects(c, st);
    DialCount(c, st, p.src, p.dst);
    assert p == Packet(p.src, p.dst, Hello);
  }

  lemma WelcomeBelongs(c: Cluster, st: Step, p: Packet)
    requires Handshakes(c) && Enabled(c, st) && MeshStep(st) && Moves(st) && Real(c)
    requires p in Apply(c, st).net && p.msg.Welcome?
    ensures Dialled(Apply(c, st), p.dst, p.src) > 0
    ensures Ready(Apply(c, st), p.src) && p.dst in Apply(c, st).nodes[p.src].members
  {
    hide Move, Enabled, Real, Apply, Lists, Heard;
    MoverUp(c, st);
    Effects(c, st);
    MoveConnects(c, st);
    if p in c.net {
      assert Ready(c, p.src);
    } else {
      assert Dialled(c, st.p.src, Mover(st)) > 0;
    }
  }

  lemma HandshakesKept(c: Cluster, st: Step)
    requires Real(c) && DialInv(c) && Enabled(c, st) && MeshStep(st) && Moves(st)
    ensures Handshakes(Apply(c, st))
  {
    hide Move, Enabled, Real, Apply, FreshUnknown, FirstDials, DialledKnown, OnceEach;
    var c' := Apply(c, st);
    forall p | p in c'.net && p.msg.Hello? ensures Dialled(c', p.src, p.dst) > 0 {
      HelloBelongs(c, st, p);
    }
    forall p | p in c'.net && p.msg.Welcome?
      ensures Dialled(c', p.dst, p.src) > 0 && Ready(c', p.src) && p.dst in c'.nodes[p.src].members
    {
      WelcomeBelongs(c, st, p);
    }
  }

  /** A dialling device stops being unknown only to the contact it has dialled. */
  lemma FirstDialKept(c: Cluster, st: Step, a: NodeId, b: NodeId)
    requires Real(c) && DialInv(c) && Enabled(c, st) && MeshStep(st) && Moves(st)
    requires OnceEach(Apply(c, st))
    requires Dialled(c, a, b) > 0 && !Less(a, b)
    ensures a in Apply(c, st).nodes[b].members || (Apply(c, st).nodes[a].phase == Dialing && Unknown(Apply(c, st), a))
  {
    hide Move, Enabled, Real, Apply, FreshUnknown, DialledKnown, Lists, Heard;
    MoverUp(c, st);
    Effects(c, st);
    MoveConnects(c, st);
    if a !in c.nodes[b].members {
      if st.Receive? && st.p.msg.Hello? && st.p.src == a {
        assert Dialled(c, a, st.p.dst) > 0;
      } else {
        UnknownKept(c, st, a);
      }
    }
  }

  lemma FirstDialsKept(c: Cluster, st: Step)
    requires Real(c) && DialInv(c) && Enabled(c, st) && MeshStep(st) && Moves(st)
    requires OnceEach(Apply(c, st))
    ensures FirstDials(Apply(c, st))
  {
    hide Move, Enabled, Real, Apply, DialledKnown, Lists, Unknown, Handshakes;
    MoverUp(c, st);
    Effects(c, st);
    var n, o, c' := Mover(st), Move(c, st), Apply(c, st);
    forall a, b | Dialled(c', a, b) > 0 && !Less(a, b)
      ensures a in c'.nodes[b].members || (c'.nodes[a].phase == Dialing && Unknown(c', a))
    {
      if Dialled(c, a, b) > 0 {
        FirstDialKept(c, st, a, b);
      } else {
        MoveDials(c, st, b);
        UnknownKept(c, st, a);
      }
    }
    forall a, b, b' | Dialled(c', a, b) > 0 && Dialled(c', a, b') > 0 && c'.nodes[a].phase == Dialing ensures b == b' {
      if a == n {
        if Dialled(c, a, b) == 0 { MoveDials(c, st, b); }
        if Dialled(c, a, b') == 0 { MoveDials(c, st, b'); }
      }
    }
  }

  // ----- the connection invariant -----

  lemma ConnectionsKept(c: Cluster, st: Step)
    requires Real(c) && DialInv(c) && ConnInv(c) && Enabled(c, st) && MeshStep(st) && Moves(st)
    requires Real(Apply(c, st)) && OnceEach(Apply(c, st))
    ensures Connections(Apply(c, st))
  {
    hide Move, Enabled, Apply, FreshUnknown, FirstDials, DialledKnown, Lists, OpenHello, OpenWelcome, Learns,
      OneWelcome, Heard;
    MoverUp(c, st);
    Effects(c, st);
    MoveConnects(c, st);
    var n, o, c' := Mover(st), Move(c, st), Apply(c, st);
    forall a, b | a in c'.nodes && b in c'.nodes[a].conns ensures Dialled(c', a, b) + Dialled(c', b, a) == 1 {
      assert RealState(a, c'.nodes[a], c'.nodes.Keys);
      if a in c.nodes && b in c.nodes[a].conns {
        assert Dialled(c, a, b) + Dialled(c, b, a) == 1;
      }
    }
  }

  lemma NewHelloIsOpen(c: Cluster, st: Step, p: Packet)
    requires Real(c) && DialInv(c) && ConnInv(c) && Enabled(c, st) && MeshStep(st) && Moves(st)
    requires p in Move(c, st).sent && p.msg.Hello?
    ensures OpenHello(Apply(c, st), p)
  {
    hide Move, Enabled, Apply, Real, FreshUnknown, FirstDials, DialledKnown, Lists, Heard, OpenHello, OpenWelcome;
    MoverUp(c, st);
    Effects(c, st);
    MoveConnects(c, st);
    MoveDials(c, st, p.dst);
    SentIsReal(c, st, p);
    NewDialIsFirst(c, st, p.dst);
    var n, o, c' := Mover(st), Move(c, st), Apply(c, st);
    assert p !in c.net;
    OpensHello(c, c', n, o.state, p);
  }

  lemma OpensHello(c: Cluster, c': Cluster, n: NodeId, s': State, p: Packet)
    requires n in c.nodes && c'.nodes == c.nodes[n := s'] && c'.net[p] == 1
    requires p.src == n && p.dst != n && p.dst in c.nodes
    requires p.dst !in s'.conns && n !in c.nodes[p.dst].conns
    ensures OpenHello(c', p)
  {}

  lemma OpenHelloKept(c: Cluster, st: Step, p: Packet)
    requires Real(c) && OnceEach(c) && Handshakes(c) && Enabled(c, st) && MeshStep(st) && Moves(st)
    requires p in c.net && p.msg.Hello? && p in Apply(c, st).net && p !in Move(c, st).sent
    requires OpenHello(c, p)
    requires st.Receive? && st.p.msg.Welcome? ==> OpenWelcome(c, st.p)
    ensures OpenHello(Apply(c, st), p)
  {
    hide Move, Enabled, Apply, Real, Lists, Heard, Learns;
    MoverUp(c, st);
    Effects(c, st);
    MoveConnects(c, st);
  }

  /** A Welcome in flight after a step was in flight before, or answers the Hello just received. */
  ghost predicate OldOrWelcoming(c: Cluster, st: Step, p: Packet)
    requires Moves(st) && Mover(st) in c.nodes
  {
    if p in Move(c, st).sent then st.Receive? && st.p == Packet(p.dst, p.src, Hello) else p in c.net
  }

  lemma OldWelcomeKept(c: Cluster, st: Step, p: Packet)
    requires Real(c) && DialInv(c) && ConnInv(c) && Enabled(c, st) && MeshStep(st) && Moves(st)
    requires p in Apply(c, st).net && p.msg.Welcome? && p !in Move(c, st).sent
    ensures OpenWelcome(Apply(c, st), p) && p in c.net
  {
    hide Move, Enabled, Apply, Real, FirstDials, DialledKnown, FreshUnknown, OneWelcome, OpenHello, OpenWelcome,
      Connections;
    MoverUp(c, st);
    Effects(c, st);
    if Packet(p.dst, p.src, Hello) in Move(c, st).sent {
      DialCount(c, st, p.dst, p.src);
      NewDialIsFirst(c, st, p.src);
    }
    WelcomeStaysOpen(c, st, p);
  }

  lemma WelcomeStaysOpen(c: Cluster, st: Step, p: Packet)
    requires Real(c) && OnceEach(c) && Handshakes(c) && OneWelcome(c) && Enabled(c, st) && MeshStep(st) && Moves(st)
    requires p in c.net && p in Apply(c, st).net && p.msg.Welcome? && p !in Move(c, st).sent
    requires OpenWelcome(c, p) && Packet(p.dst, p.src, Hello) !in Move(c, st).sent
    ensures OpenWelcome(Apply(c, st), p)
  {
    hide Move, Enabled, Apply, Real, Lists, Heard, Learns;
    MoverUp(c, st);
    Effects(c, st);
    MoveConnects(c, st);
  }

  lemma NewWelcomeIsOpen(c: Cluster, st: Step, p: Packet)
    requires Real(c) && DialInv(c) && ConnInv(c) && Enabled(c, st) && MeshStep(st) && Moves(st)
    requires p.msg.Welcome? && p in Move(c, st).sent
    ensures OpenWelcome(Apply(c, st), p) && OldOrWelcoming(c, st, p)
  {
    hide Move, Enabled, Apply, Real, DialInv, Lists, Heard, Learns, Connections;
    MoverUp(c, st);
    Effects(c, st);
    MoveConnects(c, st);
    assert st.p == Packet(p.dst, p.src, Hello);
    assert OpenHello(c, st.p);
    assert p in c.net ==> OpenWelcome(c, p);
  }

  lemma OldHelloKept(c: Cluster, st: Step, p: Packet)
    requires Real(c) && DialInv(c) && ConnInv(c) && Enabled(c, st) && MeshStep(st) && Moves(st)
    requires p in Apply(c, st).net && p.msg.Hello? && p !in Move(c, st).sent
    ensures OpenHello(Apply(c, st), p)
  {
    hide Move, Enabled, Apply, Real, OnceEach, Handshakes, OpenHello, OpenWelcome;
    MoverUp(c, st);
    Effects(c, st);
    OpenHelloKept(c, st, p);
  }

  lemma ConnInvKept(c: Cluster, st: Step)
    requires Real(c) && DialInv(c) && ConnInv(c) && Enabled(c, st) && MeshStep(st) && Moves(st)
    requires Real(Apply(c, st)) && OnceEach(Apply(c, st))
    ensures ConnInv(Apply(c, st))
  {
    hide Move, Enabled, Apply, Real, OnceEach, DialInv;
    ConnectionsKept(c, st);
    MoverUp(c, st);
    MoveConnects(c, st);
    var c' := Apply(c, st);
    forall p | p in c'.net && p.msg.Hello? ensures OpenHello(c', p) {
      if p in Move(c, st).sent { NewHelloIsOpen(c, st, p); } else { OldHelloKept(c, st, p); }
    }
    forall p | p in c'.net && p.msg.Welcome?
      ensures OpenWelcome(c', p)
      ensures OldOrWelcoming(c, st, p)
    {
      if p in Move(c, st).sent { NewWelcomeIsOpen(c, st, p); } else { OldWelcomeKept(c, st, p); }
    }
    forall p, q | p in c'.net && q in c'.net && p.msg.Welcome? && q.msg.Welcome? && p.src == q.src && p.dst == q.dst
      ensures p == q
    {
      if p in c.net { assert OpenWelcome(c, p); }
      if q in c.net { assert OpenWelcome(c, q); }
    }
  }

  // ----- runs -----

  lemma LessInFlightDials(c: Cluster, c': Cluster)
    requires DialInv(c)
    requires c'.nodes == c.nodes && c'.dials == c.dials && c'.net <= c.net
    ensures DialInv(c')
  {
    assert forall p | p in c'.net :: p in c.net;
    assert forall a, b :: Dialled(c', a, b) == Dialled(c, a, b);
    assert forall j | Unknown(c, j) :: Unknown(c', j);
    hide Unknown, Lists, Less, Dialled;
    assert OnceEach(c') && FreshUnknown(c');
    assert FirstDials(c') && DialledKnown(c');
  }

  lemma LessInFlightConns(c: Cluster, c': Cluster)
    requires ConnInv(c)
    requires c'.nodes == c.nodes && c'.dials == c.dials && c'.net <= c.net
    ensures ConnInv(c')
  {
    assert forall p | p in c'.net :: p in c.net && c'.net[p] <= c.net[p];
    forall p | p in c'.net && p.msg.Hello? ensures OpenHello(c', p) { assert OpenHello(c, p); }
    forall p | p in c'.net && p.msg.Welcome? ensures OpenWelcome(c', p) { assert OpenWelcome(c, p); }
  }

  lemma StepKeepsMesh(c: Cluster, st: Step)
    requires Real(c) && DialInv(c) && ConnInv(c) && Enabled(c, st) && MeshStep(st)
    ensures Real(Apply(c, st)) && DialInv(Apply(c, st)) && ConnInv(Apply(c, st))
  {
    hide DialInv, ConnInv, Real, Move;
    RealStep(c, st);
    if Moves(st) {
      MovedKeepsMesh(c, st);
    } else {
      LessInFlightDials(c, Apply(c, st));
      LessInFlightConns(c, Apply(c, st));
    }
  }

  lemma MovedKeepsMesh(c: Cluster, st: Step)
    requires Real(c) && DialInv(c) && ConnInv(c) && Enabled(c, st) && MeshStep(st) && Moves(st)
    requires Real(Apply(c, st))
    ensures DialInv(Apply(c, st)) && ConnInv(Apply(c, st))
  {
    hide ConnInv, Real, Move, Apply, Enabled, OnceEach, FreshUnknown, FirstDials, DialledKnown, Handshakes;
    OnceEachKept(c, st);
    FreshUnknownKept(c, st);
    FirstDialsKept(c, st);
    DialledKnownKept(c, st);
    HandshakesKept(c, st);
    ConnInvKept(c, st);
  }

  lemma {:induction false} RunKeepsMesh(c: Cluster, steps: seq<Step>)
    requires Real(c) && DialInv(c) && ConnInv(c)
    requires Possible(c, steps) && forall i | 0 <= i < |steps| :: MeshStep(steps[i])
    ensures Real(Exec(c, steps)) && DialInv(Exec(c, steps)) && ConnInv(Exec(c, steps))
    decreases |steps|
  {
    hide DialInv, ConnInv, Real, Apply, Enabled;
    if steps != [] {
      StepKeepsMesh(c, steps[0]);
      RunKeepsMesh(Apply(c, steps[0]), steps[1..]);
    }
  }

  lemma InitialMesh(ids: set<NodeId>, founder: NodeId)
    requires founder in ids && NONE !in ids
    ensures Real(Initial(ids, founder)) && DialInv(Initial(ids, founder)) && ConnInv(Initial(ids, founder))
  {
    var c := Initial(ids, founder);
    assert forall a, b :: Dialled(c, a, b) == 0;
  }

  /** The tie-break works. Over any run in which nobody dies or is given up on, without the
      maintenance loop, of every two devices at most one has dialled the other, and that once; so
      whenever a handshake comes to register a connection, its key is free, and a connection dropped
      by peer ID is the one meant. */
  lemma MeshTieBreak(ids: set<NodeId>, founder: NodeId, steps: seq<Step>)
    requires founder in ids && NONE !in ids
    requires Possible(Initial(ids, founder), steps) && forall i | 0 <= i < |steps| :: MeshStep(steps[i])
    ensures var c := Exec(Initial(ids, founder), steps);
      && (forall a, b {:trigger Dialled(c, a, b), Dialled(c, b, a)} ::
            a != b ==> Dialled(c, a, b) + Dialled(c, b, a) <= 1)
      && (forall p: Packet, ok | (p.msg.Hello? || p.msg.Welcome?) && Enabled(c, Receive(p, ok)) ::
            p.src !in c.nodes[p.dst].conns)
      && (forall a, b | a in c.nodes && b in c.nodes[a].conns :: Dialled(c, a, b) + Dialled(c, b, a) == 1)
  {
    hide FreshUnknown, FirstDials, DialledKnown, Handshakes, Exec;
    InitialMesh(ids, founder);
    RunKeepsMesh(Initial(ids, founder), steps);
    var c := Exec(Initial(ids, founder), steps);
    forall p: Packet, ok | (p.msg.Hello? || p.msg.Welcome?) &&
      Enabled(c, Receive(p, ok)) ensures p.src !in c.nodes[p.dst].conns {
      assert if p.msg.Hello? then OpenHello(c, p) else OpenWelcome(c, p);
    }
  }
}
