/** Requests that take two devices: what is asked for on one is done on the other. */
module Requests {
  import opened Ids
  import opened Node
  import opened Cluster
  import Device

  /** A hotkey on a device without the cursor. The one packet it sends makes the owner, if that one
      shows the cursor and its send succeeds, hand off to the device at the hotkey's ring position. */
  lemma JumpIsPerformed(c: Cluster, n: NodeId, slot: nat, o: NodeId) returns (p: Packet)
    requires Up(c, n) && c.nodes[n].running && !c.nodes[n].amActive && NONE !in c.nodes[n].members
    requires Up(c, o) && o != n && c.nodes[n].activeID == o && o in c.nodes[n].conns && c.nodes[o].amActive
    requires var ring := Ring(c.nodes[n].members);
      1 <= slot <= |ring| && ring[slot - 1] != n && ring[slot - 1] in c.nodes[o].conns
    ensures var press, jump := Press(n, slot, true), Receive(p, true);
      && Enabled(c, press) && Move(c, press).sent == {p} && p.dst == o && Enabled(Apply(c, press), jump)
      && var c', target := Apply(Apply(c, press), jump), Ring(c.nodes[n].members)[slot - 1];
         && c'.nodes[o].activeID == target && c'.nodes[o].version == c.nodes[o].version + 1
         && !c'.nodes[o].amActive && c'.nodes[n] == c.nodes[n]
         && Packet(o, target, FocusHandoff(target, c.nodes[o].version + 1)) in c'.net
  {
    hide Ring, Enabled, Apply, Move;
    var target := Ring(c.nodes[n].members)[slot - 1];
    p := Packet(n, o, RequestJump(target));
    JumpDeparts(c, n, slot, o);
    JumpArrives(Apply(c, Press(n, slot, true)), p, o, target);
  }

  lemma JumpDeparts(c: Cluster, n: NodeId, slot: nat, o: NodeId)
    requires Up(c, n) && c.nodes[n].running && !c.nodes[n].amActive && NONE !in c.nodes[n].members
    requires c.nodes[n].activeID == o && o != n && o in c.nodes[n].conns
    requires var ring := Ring(c.nodes[n].members); 1 <= slot <= |ring| && ring[slot - 1] != n
    ensures var press, p := Press(n, slot, true), Packet(n, o, RequestJump(Ring(c.nodes[n].members)[slot - 1]));
      && Enabled(c, press) && Move(c, press) == Outcome(c.nodes[n], {p})
      && Apply(c, press).nodes == c.nodes && Apply(c, press).dead == c.dead && p in Apply(c, press).net
  {
    var press, target := Press(n, slot, true), Ring(c.nodes[n].members)[slot - 1];
    SlotNames(n, c.nodes[n].members, slot);
    hide Ring, SlotTarget;
    assert Move(c, press) == Outcome(c.nodes[n], {Packet(n, o, RequestJump(target))});
    assert Packet(n, o, RequestJump(target)) in multiset(Move(c, press).sent);
  }

  lemma SlotNames(n: NodeId, members: set<NodeId>, slot: nat)
    requires var ring := Ring(members); 1 <= slot <= |ring| && ring[slot - 1] != n
    ensures SlotTarget(n, members, slot) == Ring(members)[slot - 1] && Ring(members)[slot - 1] in members
  {
    hide Ring;
    assert Ring(members)[slot - 1] in Ring(members);
  }

  lemma JumpArrives(c: Cluster, p: Packet, o: NodeId, target: NodeId)
    requires Up(c, o) && c.nodes[o].amActive && target in c.nodes[o].conns
    requires p in c.net && p.dst == o && p.msg == RequestJump(target)
    ensures var jump := Receive(p, true); Enabled(c, jump) && var c' := Apply(c, jump);
      && c'.nodes.Keys == c.nodes.Keys && (forall n | n in c.nodes && n != o :: c'.nodes[n] == c.nodes[n])
      && c'.nodes[o].activeID == target && c'.nodes[o].version == c.nodes[o].version + 1 && !c'.nodes[o].amActive
      && Packet(o, target, FocusHandoff(target, c.nodes[o].version + 1)) in c'.net
  {
    var handoff := Packet(o, target, FocusHandoff(target, c.nodes[o].version + 1));
    assert handoff in multiset(Move(c, Receive(p, true)).sent);
  }

  /** An unreachable owner is asked nothing. */
  lemma JumpToNobody(c: Cluster, n: NodeId, slot: nat, ok: bool)
    requires Enabled(c, Press(n, slot, ok)) && !c.nodes[n].amActive && c.nodes[n].activeID != n
    requires c.nodes[n].activeID !in c.nodes[n].conns || !ok
    ensures Move(c, Press(n, slot, ok)) == Outcome(c.nodes[n], {})
  {
    hide SlotTarget;
  }

  /** A heartbeat pings every connected peer, and a peer connected back answers each ping. */
  lemma PingIsAnswered(c: Cluster, n: NodeId, m: NodeId)
    requires Up(c, n) && Up(c, m) && n != m && m in c.nodes[n].conns && n in c.nodes[m].conns
    ensures Enabled(c, Beat(n)) && var ping := Packet(n, m, Ping); ping in Apply(c, Beat(n)).net
    ensures var heard := Receive(Packet(n, m, Ping), true);
      Enabled(Apply(c, Beat(n)), heard) && Packet(m, n, Pong) in Apply(Apply(c, Beat(n)), heard).net
  {
    var ping, pong := Packet(n, m, Ping), Packet(m, n, Pong);
    assert ping in multiset(Move(c, Beat(n)).sent);
    var c1 := Apply(c, Beat(n));
    assert c1.nodes[m] == c.nodes[m];
    assert pong in multiset(Move(c1, Receive(ping, true)).sent);
  }

  // ----- coming and going -----

  /** A member without a connection, not being dialled: the maintenance loop dials it, and the answers
      to that connect the two both ways. */
  lemma DialConnects(c: Cluster, n: NodeId, m: NodeId) returns (welcome: Packet)
    requires Up(c, n) && Up(c, m) && n != m && m in c.nodes[n].members - c.nodes[n].conns - c.nodes[n].dialing
    ensures Enabled(c, Maintain(n, m))
    ensures var c1, hello := Apply(c, Maintain(n, m)), Receive(Packet(n, m, Hello), true);
      m in c1.nodes[n].dialing && Enabled(c1, hello) &&
      var c2, reply := Apply(c1, hello), Receive(welcome, true);
      Enabled(c2, reply) && welcome.src == m && welcome.dst == n &&
      var c3 := Apply(c2, reply);
      m in c3.nodes[n].conns && m !in c3.nodes[n].dialing && n in c3.nodes[m].conns
  {
    hide Apply, Enabled;
    DialDeparts(c, n, m);
    var c1 := Apply(c, Maintain(n, m));
    welcome := HelloIsAnswered(c1, n, m);
    WelcomeConnects(Apply(c1, Receive(Packet(n, m, Hello), true)), welcome);
  }

  lemma DialDeparts(c: Cluster, n: NodeId, m: NodeId)
    requires Up(c, n) && n != m && m in c.nodes[n].members - c.nodes[n].conns - c.nodes[n].dialing
    ensures Enabled(c, Maintain(n, m))
    ensures var c' := Apply(c, Maintain(n, m));
      && c'.nodes == c.nodes[n := c.nodes[n].(dialing := c.nodes[n].dialing + {m})] && c'.dead == c.dead
      && Packet(n, m, Hello) in c'.net
  {
    assert Packet(n, m, Hello) in multiset(Move(c, Maintain(n, m)).sent);
  }

  lemma HelloIsAnswered(c: Cluster, n: NodeId, m: NodeId) returns (welcome: Packet)
    requires Up(c, n) && Up(c, m) && n != m && Packet(n, m, Hello) in c.net
    ensures var hello := Receive(Packet(n, m, Hello), true); Enabled(c, hello) && var c' := Apply(c, hello);
      && c'.nodes.Keys == c.nodes.Keys && c'.dead == c.dead && c'.nodes[n] == c.nodes[n] && n in c'.nodes[m].conns
      && welcome.src == m && welcome.dst == n && welcome.msg.Welcome? && welcome in c'.net
  {
    var hello := Receive(Packet(n, m, Hello), true);
    var s := Move(c, hello).state;
    welcome := Packet(m, n, Welcome(s.members, s.activeID, s.version));
    assert welcome in multiset(Move(c, hello).sent);
  }

  lemma WelcomeConnects(c: Cluster, p: Packet)
    requires Up(c, p.dst) && p in c.net && p.msg.Welcome? && p.src != p.dst
    ensures var reply := Receive(p, true); Enabled(c, reply) && var c' := Apply(c, reply);
      && c'.nodes.Keys == c.nodes.Keys && (forall n | n in c.nodes && n != p.dst :: c'.nodes[n] == c.nodes[n])
      && p.src in c'.nodes[p.dst].conns && p.src !in c'.nodes[p.dst].dialing
  {
    hide Merge, Adopt;
  }

  /** A dial that failed can be repeated, one that is under way is not. */
  lemma FailedDialIsRepeated(c: Cluster, n: NodeId, m: NodeId)
    requires Up(c, n) && n != m && m in c.nodes[n].members - c.nodes[n].conns && m in c.nodes[n].dialing
    ensures Enabled(c, Maintain(n, m)) && Move(c, Maintain(n, m)) == Outcome(c.nodes[n], {})
    ensures Enabled(c, DialFails(n, m))
    ensures var c' := Apply(c, DialFails(n, m));
      Enabled(c', Maintain(n, m)) && Move(c', Maintain(n, m)) == Outcome(c.nodes[n], {Packet(n, m, Hello)})
  {
    assert c.nodes[n].dialing - {m} + {m} == c.nodes[n].dialing;
  }

  /** Who leaves is forgotten by every device it is connected to, once its goodbye arrives; who named
      it the owner then names the first of the members left. */
  lemma GoodbyeIsHeard(c: Cluster, n: NodeId, m: NodeId)
    requires Alive(c, n) && Up(c, m) && n != m && m in c.nodes[n].conns
    ensures Enabled(c, Leave(n)) && Enabled(Apply(c, Leave(n)), Receive(Packet(n, m, Bye), true))
    ensures var s, s' := c.nodes[m], Apply(Apply(c, Leave(n)), Receive(Packet(n, m, Bye), true)).nodes[m];
      && s'.members == s.members - {n} && s'.conns == s.conns - {n}
      && (s.activeID == n && s'.members != {} ==> s'.activeID == Lowest(s'.members) && s'.version == s.version + 1)
      && (s.activeID != n ==> s'.activeID == s.activeID && s'.version == s.version)
  {
    hide DropConn, Lowest;
    Device.DropOneLeaves(m, c.nodes[m], n, c.now);
    var bye := Packet(n, m, Bye);
    assert bye in multiset(Broadcast(n, c.nodes[n].conns, Bye));
  }
}
