/** The pool and the engine of one device, as the objects that update their fields in place.

    Every method is proved to compute the function of module Node of the same purpose: on the
    device's abstract state, and on what it appends to `wire`, the record of packets written to
    peers. Connections are represented by the peer they lead to; times are in milliseconds. */
module Device {
  import opened Ids
  import opened Node
  import opened ScreenRing
  import Edge

  datatype MemberInfo = MemberInfo(name: string, addr: string, screenW: int, screenH: int, publicAddr: string)

  datatype Entry = Entry(id: NodeId, info: MemberInfo)

  ghost function Listed(list: seq<Entry>): set<NodeId> {
    set e | e in list :: e.id
  }

  /** Later entries of a gossiped list replace earlier ones and what was known before. */
  ghost function Overlay(members: map<NodeId, MemberInfo>, self: NodeId, list: seq<Entry>): map<NodeId, MemberInfo> {
    if list == [] then members
    else
      var e, before := list[|list| - 1], Overlay(members, self, list[..|list| - 1]);
      if e.id == self then before else before[e.id := e.info]
  }

  lemma {:induction false} OverlayKeys(members: map<NodeId, MemberInfo>, self: NodeId, list: seq<Entry>)
    ensures Overlay(members, self, list).Keys == members.Keys + (Listed(list) - {self})
    decreases |list|
  {
    if list != [] {
      var init, e := list[..|list| - 1], list[|list| - 1];
      OverlayKeys(members, self, init);
      assert list == init + [e];
      assert Listed(list) == Listed(init) + {e.id};
    }
  }

  /** The last entry of an ID is the record it ends with; an ID not listed, and this device's own,
      keeps its record. */
  lemma {:induction false} LastEntryWins(members: map<NodeId, MemberInfo>, self: NodeId, list: seq<Entry>, id: NodeId)
    ensures var after := Overlay(members, self, list);
      if id == self || id !in Listed(list)
      then (id in after <==> id in members) && (id in after ==> after[id] == members[id])
      else id in after && exists i :: 0 <= i < |list| && list[i] == Entry(id, after[id]) &&
                                      forall j | i < j < |list| :: list[j].id != id
    decreases |list|
  {
    if list != [] {
      var init, e := list[..|list| - 1], list[|list| - 1];
      assert list == init + [e] && Listed(list) == Listed(init) + {e.id};
      LastEntryWins(members, self, init, id);
      var after := Overlay(members, self, list);
      if id == self || id !in Listed(list) {
      } else if e.id == id {
        assert list[|list| - 1] == Entry(id, after[id]);
      } else {
        var i :| 0 <= i < |init| && init[i] == Entry(id, after[id]) && forall j | i < j < |init| :: init[j].id != id;
        assert list[i] == Entry(id, after[id]);
      }
    }
  }

  lemma OverlayNone(members: map<NodeId, MemberInfo>, self: NodeId, list: seq<Entry>)
    ensures Overlay(members, self, list[..0]) == members && Listed(list[..0]) == {}
  {}

  lemma OverlayOneMore(members: map<NodeId, MemberInfo>, self: NodeId, list: seq<Entry>, i: nat)
    requires i < |list|
    ensures Listed(list[..i + 1]) == Listed(list[..i]) + {list[i].id}
    ensures var before, e := Overlay(members, self, list[..i]), list[i];
      && Overlay(members, self, list[..i + 1]) == (if e.id == self then before else before[e.id := e.info])
      && before.Keys == members.Keys + (Listed(list[..i]) - {self})
  {
    OverlayKeys(members, self, list[..i]);
    assert list[..i + 1] == list[..i] + [list[i]];
  }

  /** Exactly the packets `sent` were appended, each once. */
  ghost predicate Wrote(before: seq<Packet>, after: seq<Packet>, sent: set<Packet>) {
    && before <= after
    && |after| == |before| + |sent|
    && forall p :: p in after[|before|..] <==> p in sent
  }

  lemma WroteNothing(wire: seq<Packet>)
    ensures Wrote(wire, wire, {})
  {}

  lemma WroteNothingMore(before: seq<Packet>, after: seq<Packet>)
    requires Wrote(before, after, {})
    ensures before == after
  {
    assert after == before + after[|before|..];
  }

  lemma WroteOne(before: seq<Packet>, after: seq<Packet>, sent: set<Packet>, p: Packet)
    requires Wrote(before, after, sent) && p !in sent
    ensures Wrote(before, after + [p], sent + {p})
  {
    assert (after + [p])[|before|..] == after[|before|..] + [p];
  }

  lemma WroteBoth(before: seq<Packet>, mid: seq<Packet>, after: seq<Packet>, sent: set<Packet>, sent': set<Packet>)
    requires Wrote(before, mid, sent) && Wrote(mid, after, sent') && sent !! sent'
    ensures Wrote(before, after, sent + sent')
  {
    assert after[|before|..] == mid[|before|..] + after[|mid|..];
  }

  lemma NotAmong(self: NodeId, p: Packet, peers: set<NodeId>, msg: Message)
    requires p.msg != msg
    ensures {p} !! Broadcast(self, peers, msg)
  {}

  lemma BroadcastReaches(self: NodeId, peers: set<NodeId>, msg: Message)
    ensures Broadcast(self, peers, msg) == set m | m in peers :: Packet(self, m, msg)
  {}

  lemma BroadcastNobody(self: NodeId, msg: Message)
    ensures Broadcast(self, {}, msg) == {}
  {}

  lemma BroadcastOneMore(self: NodeId, done: set<NodeId>, peer: NodeId, msg: Message,
                         start: seq<Packet>, before: seq<Packet>, after: seq<Packet>)
    requires peer !in done && Wrote(start, before, Broadcast(self, done, msg))
    requires Wrote(before, after, {Packet(self, peer, msg)})
    ensures Wrote(start, after, Broadcast(self, done + {peer}, msg))
  {
    hide Wrote;
    WroteBoth(start, before, after, Broadcast(self, done, msg), {Packet(self, peer, msg)});
    assert Broadcast(self, done + {peer}, msg) == Broadcast(self, done, msg) + {Packet(self, peer, msg)};
  }

  lemma RingOfAll(members: map<NodeId, MemberInfo>)
    ensures Ids.Ring(members.Keys) == [] <==> members == map[]
  {}

  class Pool {
    const self: NodeId
    var handler: Engine?
    var phase: Phase
    var members: map<NodeId, MemberInfo>
    var conns: set<NodeId>
    var dialing: set<NodeId>
    var lastSeen: map<NodeId, int>
    var activeID: NodeId
    var activeVersion: nat
    var wire: seq<Packet>

    constructor (self: NodeId, info: MemberInfo)
      ensures this.self == self && handler == null && wire == []
      ensures members == map[self := info] && conns == {} && dialing == {} && lastSeen == map[]
      ensures phase == Fresh && activeID == NONE && activeVersion == 0
    {
      this.self := self;
      handler := null;
      phase := Fresh;
      members := map[self := info];
      conns, dialing, lastSeen := {}, {}, map[];
      activeID, activeVersion := NONE, 0;
      wire := [];
    }

    /** An engine is listening, and it drives this pool. */
    predicate Wired()
      reads this
    {
      handler != null && handler.pool == this
    }

    /** The backend passes the cursor through exactly while the engine shows it. */
    predicate InStep()
      reads this, handler
    {
      handler != null && handler.passthrough == handler.amActive
    }

    ghost function Device(): State
      reads this, handler
      requires Wired()
    {
      State(phase, members.Keys, conns, dialing, activeID, activeVersion,
            handler.running, handler.amActive, handler.activeSince)
    }

    // ----- sending -----

    method Write(p: Packet)
      modifies `wire
      ensures wire == old(wire) + [p]
      ensures Wrote(old(wire), wire, {p})
    {
      WroteNothing(wire);
      WroteOne(wire, wire, {}, p);
      assert {} + {p} == {p};
      wire := wire + [p];
    }

    /** The loop over a copied peer list that every broadcast runs. */
    method SendAll(msg: Message)
      modifies `wire
      ensures Wrote(old(wire), wire, set m | m in conns :: Packet(self, m, msg))
      ensures Wrote(old(wire), wire, Broadcast(self, conns, msg))
    {
      hide Wrote, Node.Broadcast;
      BroadcastReaches(self, conns, msg);
      var todo := conns;
      BroadcastNobody(self, msg);
      WroteNothing(wire);
      assert conns - todo == {};
      while todo != {}
        invariant todo <= conns
        invariant Wrote(old(wire), wire, Broadcast(self, conns - todo, msg))
        decreases |todo|
      {
        var peer :| peer in todo;
        label before:
        Write(Packet(self, peer, msg));
        BroadcastOneMore(self, conns - todo, peer, msg, old(wire), old@before(wire), wire);
        assert conns - (todo - {peer}) == (conns - todo) + {peer};
        todo := todo - {peer};
      }
      assert conns - todo == conns;
    }

    method BroadcastActiveChange(id: NodeId, version: nat)
      modifies `wire
      ensures Wrote(old(wire), wire, Broadcast(self, conns, ActiveChange(id, version)))
    {
      SendAll(ActiveChange(id, version));
    }

    method BroadcastGossip()
      requires Wired()
      modifies `wire
      ensures Wrote(old(wire), wire, Broadcast(self, conns, MemberSync(members.Keys, activeID, activeVersion)))
      ensures Wrote(old(wire), wire, Gossip(self, old(Device())).sent)
    {
      SendAll(MemberSync(members.Keys, activeID, activeVersion));
    }

    // ----- last writer wins -----

    method AdoptActiveBookkeeping(newID: NodeId, version: nat) returns (changed: bool)
      requires Wired()
      modifies `activeID, `activeVersion
      ensures Wired() && Device() == Bookkeep(old(Device()), newID, version)
      ensures var newer := old(activeVersion) == 0 || version > old(activeVersion);
              && activeID == (if newer then newID else old(activeID))
              && activeVersion == (if newer then version else old(activeVersion))
              && (changed <==> newer && newID != old(activeID))
    {
      if activeVersion != 0 && version <= activeVersion {
        return false;
      }
      changed := newID != activeID;
      activeID := newID;
      activeVersion := version;
    }

    method AdoptActive(newID: NodeId, version: nat, now: int)
      requires Wired()
      modifies `activeID, `activeVersion, handler
      ensures Wired() && Device() == Adopt(self, old(Device()), newID, version, now)
      ensures if old(activeVersion) == 0 || version > old(activeVersion)
              then activeID == newID && activeVersion == version
              else activeID == old(activeID) && activeVersion == old(activeVersion)
      ensures if activeID == old(activeID)
              then handler.amActive == old(handler.amActive) && handler.activeSince == old(handler.activeSince)
              else handler.amActive == (activeID == self)
      ensures (old(InStep()) ==> InStep()) && handler.cursor == old(handler.cursor)
    {
      var changed := AdoptActiveBookkeeping(newID, version);
      if changed {
        handler.OnActiveChange(newID, now);
      }
    }

    // ----- the ring -----

    /** All member IDs in ascending order: equal on every device with the same members. */
    method MemberRing() returns (ids: seq<NodeId>)
      ensures ids == Ids.Ring(members.Keys)
    {
      ids := [];
      var todo := members.Keys;
      while todo != {}
        invariant todo <= members.Keys
        invariant forall x :: x in ids <==> x in members.Keys - todo
        invariant |ids| + |todo| == |members.Keys|
        decreases |todo|
      {
        var id :| id in todo;
        ids := ids + [id];
        todo := todo - {id};
      }
      SortedIsRing(ids, members.Keys);
      ids := Sorted(ids);
    }

    // ----- failover -----

    /** The first member of the order owns the cursor at the version after `version`, the engine
        follows, and everyone connected has been told, which `wire` had not. */
    ghost predicate Elected(version: nat, wire: seq<Packet>)
      reads this, handler
    {
      && Wired() && handler.amActive == (activeID == self)
      && activeID in members && (forall m | m in members && m != activeID :: Less(activeID, m))
      && activeVersion == version + 1
      && Wrote(wire, this.wire, Broadcast(self, conns, ActiveChange(activeID, version + 1)))
    }

    method ElectActive(now: int)
      requires Wired()
      modifies `activeID, `activeVersion, `wire, handler
      ensures if members != map[] then Elected(old(activeVersion), old(wire))
              else activeID == old(activeID) && activeVersion == old(activeVersion) && wire == old(wire)
      ensures Wired() && Device() == Elect(self, old(Device()), now).state
      ensures Wrote(old(wire), wire, Elect(self, old(Device()), now).sent)
      ensures (old(InStep()) ==> InStep()) && handler.cursor == old(handler.cursor)
    {
      hide Wrote, Ring, Lowest, Less;
      var ids := MemberRing();
      assert ids == [] <==> members == map[] by { RingOfAll(members); }
      if |ids| == 0 {
        WroteNothing(wire);
        return;
      }
      RingFirst(members.Keys);
      var newID := ids[0];
      activeVersion := activeVersion + 1;
      activeID := newID;
      handler.OnActiveChange(newID, now);
      BroadcastActiveChange(newID, activeVersion);
    }

    method DropPeer(peer: NodeId, now: int)
      requires Wired()
      modifies `members, `conns, `lastSeen, `activeID, `activeVersion, `wire, handler
      ensures Wired() && Device() == DropConn(self, old(Device()), peer, now).state
      ensures Wrote(old(wire), wire, DropConn(self, old(Device()), peer, now).sent)
      ensures members == old(members) - {peer} && lastSeen == old(lastSeen) - {peer} && conns == old(conns) - {peer}
      ensures if old(activeID) == peer && members != map[] then Elected(old(activeVersion), old(wire))
              else activeID == old(activeID) && activeVersion == old(activeVersion) && wire == old(wire)
      ensures (old(InStep()) ==> InStep()) && handler.cursor == old(handler.cursor)
    {
      conns := conns - {peer};
      members := members - {peer};
      lastSeen := lastSeen - {peer};
      var wasActive := activeID == peer;
      assert members.Keys == old(members.Keys) - {peer};
      if wasActive {
        ElectActive(now);
      } else {
        WroteNothing(wire);
      }
    }

    // ----- membership -----

    method ForceDialPeer(peer: NodeId)
      requires Wired()
      modifies `dialing, `wire
      ensures if peer in conns || peer in old(dialing) then dialing == old(dialing) && wire == old(wire)
              else dialing == old(dialing) + {peer} && wire == old(wire) + [Packet(self, peer, Hello)]
      ensures Wired() && Device() == ForceDial(self, old(Device()), peer).state
      ensures Wrote(old(wire), wire, ForceDial(self, old(Device()), peer).sent)
    {
      WroteNothing(wire);
      if peer in conns || peer in dialing {
        return;
      }
      dialing := dialing + {peer};
      Write(Packet(self, peer, Hello));
    }

    /** The tie-break: only the lower of two IDs dials. */
    method MaybeDial(peer: NodeId)
      requires Wired()
      modifies `dialing, `wire
      ensures if Less(self, peer) && peer !in conns && peer !in old(dialing)
              then dialing == old(dialing) + {peer} && wire == old(wire) + [Packet(self, peer, Hello)]
              else dialing == old(dialing) && wire == old(wire)
      ensures Wired()
      ensures var news := NewDials(self, {peer}, conns, old(dialing));
              dialing == old(dialing) + news && Wrote(old(wire), wire, Broadcast(self, news, Hello))
    {
      WroteNothing(wire);
      ghost var news := NewDials(self, {peer}, conns, dialing);
      assert Broadcast(self, news, Hello) == if peer in news then {Packet(self, peer, Hello)} else {};
      if !Less(self, peer) {
        return;
      }
      ForceDialPeer(peer);
    }

    /** The first half of mergeMembers: take the list in, and remember who is new. */
    method TakeIn(list: seq<Entry>) returns (toDial: seq<NodeId>)
      modifies `members
      ensures members == Overlay(old(members), self, list)
      ensures forall m :: m in toDial <==> m in Listed(list) && m != self && m !in old(members)
      ensures forall i, j | 0 <= i < j < |toDial| :: toDial[i] != toDial[j]
    {
      hide Overlay, Listed;
      toDial := [];
      OverlayNone(members, self, list);
      for i := 0 to |list|
        invariant members == Overlay(old(members), self, list[..i])
        invariant forall m :: m in toDial <==> m in Listed(list[..i]) && m != self && m !in old(members)
        invariant forall i, j | 0 <= i < j < |toDial| :: toDial[i] != toDial[j]
      {
        var e := list[i];
        OverlayOneMore(old(members), self, list, i);
        if e.id != self {
          if e.id !in members {
            toDial := toDial + [e.id];
          }
          members := members[e.id := e.info];
        }
      }
      assert list[..|list|] == list;
    }

    method MergeMembers(list: seq<Entry>)
      requires Wired()
      modifies `members, `dialing, `wire
      ensures Wired() && Device() == Merge(self, old(Device()), Listed(list)).state
      ensures Wrote(old(wire), wire, Merge(self, old(Device()), Listed(list)).sent)
      ensures var news := set m | m in Listed(list) && m !in old(members) && m != self && Less(self, m) &&
                                  m !in conns && m !in old(dialing);
              dialing == old(dialing) + news && Wrote(old(wire), wire, Broadcast(self, news, Hello))
      ensures members == Overlay(old(members), self, list)
    {
      var toDial := TakeIn(list);
      OverlayKeys(old(members), self, list);
      ghost var fresh' := Listed(list) - {self} - old(members.Keys);
      DialNew(toDial, fresh');
      assert NewDials(self, fresh', old(conns), old(dialing)) == ToDial(self, old(Device()), Listed(list));
    }

    /** The second half of mergeMembers: dial the newcomers that sort after this device. */
    method DialNew(toDial: seq<NodeId>, ghost newcomers: set<NodeId>)
      requires Wired()
      requires forall m :: m in toDial <==> m in newcomers
      requires forall i, j | 0 <= i < j < |toDial| :: toDial[i] != toDial[j]
      modifies `dialing, `wire
      ensures Wired() && dialing == old(dialing) + NewDials(self, newcomers, conns, old(dialing))
      ensures Wrote(old(wire), wire, Broadcast(self, NewDials(self, newcomers, conns, old(dialing)), Hello))
    {
      WroteNothing(wire);
      assert NewDials(self, {}, conns, dialing) == {};
      assert Broadcast(self, {}, Hello) == {};
      for j := 0 to |toDial|
        invariant Wired()
        invariant dialing == old(dialing) + NewDials(self, Elements(toDial[..j]), conns, old(dialing))
        invariant Wrote(old(wire), wire, Broadcast(self, NewDials(self, Elements(toDial[..j]), conns, old(dialing)),
                Hello))
      {
        hide Wrote, Less, Node.Broadcast;
        label before:
        ghost var done := Elements(toDial[..j]);
        MaybeDial(toDial[j]);
        OneMoreDial(self, done, toDial[j], conns, old(dialing), old(wire), old@before(wire), wire);
        assert toDial[..j + 1] == toDial[..j] + [toDial[j]];
        assert Elements(toDial[..j + 1]) == done + {toDial[j]};
      }
      assert toDial[..|toDial|] == toDial;
      assert Elements(toDial) == newcomers;
    }

    // ----- background loops -----

    /** One tick of the heartbeat: ping everyone connected, then give up on the silent ones. */
    method HeartbeatTick(now: int) returns (stale: seq<NodeId>)
      requires Wired()
      modifies `members, `conns, `lastSeen, `activeID, `activeVersion, `wire, handler
      ensures Wired()
      ensures forall p :: p in stale <==> p in old(lastSeen) && now - old(lastSeen)[p] > 7000
      ensures forall i, j | 0 <= i < j < |stale| :: stale[i] != stale[j]
      ensures Device() == DropAll(self, old(Device()), stale, now)
      ensures var gone := set p | p in stale;
              lastSeen == old(lastSeen) - gone && members == old(members) - gone && conns == old(conns) - gone
      ensures if old(activeID) !in stale then activeID == old(activeID) && activeVersion == old(activeVersion)
              else members != map[] ==> activeID == Lowest(members.Keys) && activeVersion > old(activeVersion)
      ensures (old(InStep()) ==> InStep()) && handler.cursor == old(handler.cursor)
      ensures old(wire) <= wire
      ensures multiset(wire[|old(wire)|..]) ==
              multiset(Broadcast(self, old(conns), Ping)) + DropAllSends(self, old(Device()), stale, now)
    {
      hide Wrote, DropAll, DropAllSends;
      stale := FindStale(now);
      SendAll(Ping);
      WroteEach(old(wire), wire, Broadcast(self, old(conns), Ping));
      label pinged:
      GiveUpOn(stale, now);
      assert wire[|old(wire)|..] == old@pinged(wire)[|old(wire)|..] + wire[|old@pinged(wire)|..];
      DropAllLeaves(self, old(Device()), stale, now);
    }

    /** The loop over the stale peers. */
    method GiveUpOn(stale: seq<NodeId>, now: int)
      requires Wired()
      modifies `members, `conns, `lastSeen, `activeID, `activeVersion, `wire, handler
      ensures Wired()
      ensures Device() == DropAll(self, old(Device()), stale, now)
      ensures lastSeen == old(lastSeen) - Elements(stale) && members == old(members) - Elements(stale)
      ensures (old(InStep()) ==> InStep()) && handler.cursor == old(handler.cursor)
      ensures old(wire) <= wire && multiset(wire[|old(wire)|..]) == DropAllSends(self, old(Device()), stale, now)
    {
      hide Wrote, DropConn, DropAll, DropAllSends;
      DropNobody(self, Device(), now);
      for i := 0 to |stale|
        invariant Wired() && old(wire) <= wire
        invariant Device() == DropAll(self, old(Device()), stale[..i], now)
        invariant lastSeen == old(lastSeen) - Elements(stale[..i]) && members == old(members) - Elements(stale[..i])
        invariant (old(InStep()) ==> InStep()) && handler.cursor == old(handler.cursor)
        invariant multiset(wire[|old(wire)|..]) == DropAllSends(self, old(Device()), stale[..i], now)
      {
        DropOneMore(self, old(Device()), stale, i, now);
        label before:
        DropPeer(stale[i], now);
        WroteMore(old(wire), old@before(wire), wire, DropConn(self, old@before(Device()), stale[i], now).sent);
      }
      assert stale[..|stale|] == stale;
    }

    /** The peers silent for more than seven seconds, each once. */
    method FindStale(now: int) returns (stale: seq<NodeId>)
      ensures forall p :: p in stale <==> p in lastSeen && now - lastSeen[p] > 7000
      ensures forall i, j | 0 <= i < j < |stale| :: stale[i] != stale[j]
    {
      stale := [];
      var todo := lastSeen.Keys;
      while todo != {}
        invariant todo <= lastSeen.Keys
        invariant forall p :: p in stale <==> p in lastSeen && now - lastSeen[p] > 7000 && p !in todo
        invariant forall i, j | 0 <= i < j < |stale| :: stale[i] != stale[j]
        decreases |todo|
      {
        var p :| p in todo;
        if now - lastSeen[p] > STALE_AFTER {
          assert p !in stale;
          stale := stale + [p];
        }
        todo := todo - {p};
      }
    }

    /** One tick of the mesh maintenance: dial every member still without a connection. */
    method MaintainMesh()
      requires Wired()
      modifies `dialing, `wire
      ensures Wired()
      ensures var missing := members.Keys - conns - {self} - old(dialing);
              dialing == old(dialing) + missing && Wrote(old(wire), wire, Broadcast(self, missing, Hello))
    {
      hide Wrote, Node.Broadcast, Elements, ForceDial;
      var missing := FindMissing();
      BroadcastNobody(self, Hello);
      WroteNothing(wire);
      NoElements(missing, dialing);
      for i := 0 to |missing|
        invariant Wired() && dialing == old(dialing) + Elements(missing[..i])
        invariant Wrote(old(wire), wire, Broadcast(self, Elements(missing[..i]) - old(dialing), Hello))
      {
        label before:
        ElementsOneMore(missing, i);
        DialMissing(missing[i]);
        DialOneMore(self, Elements(missing[..i]), missing[i], old(dialing), old(wire), old@before(wire), wire);
      }
      assert missing[..|missing|] == missing;
      FreshOnes(members.Keys - conns - {self}, old(dialing));
    }

    method FindMissing() returns (missing: seq<NodeId>)
      ensures Elements(missing) == members.Keys - conns - {self}
      ensures forall i, j | 0 <= i < j < |missing| :: missing[i] != missing[j]
    {
      missing := [];
      var todo := members.Keys;
      while todo != {}
        invariant todo <= members.Keys
        invariant forall m :: m in missing <==> m in members.Keys && m !in conns && m != self && m !in todo
        invariant forall i, j | 0 <= i < j < |missing| :: missing[i] != missing[j]
        decreases |todo|
      {
        var m :| m in todo;
        if m != self && m !in conns {
          assert m !in missing;
          missing := missing + [m];
        }
        todo := todo - {m};
      }
    }

    method DialMissing(peer: NodeId)
      requires Wired() && peer !in conns
      modifies `dialing, `wire
      ensures Wired() && dialing == old(dialing) + {peer}
      ensures if peer in old(dialing) then wire == old(wire) else Wrote(old(wire), wire, {Packet(self, peer, Hello)})
    {
      ghost var before := wire;
      ForceDialPeer(peer);
      if peer in old(dialing) { WroteNothingMore(before, wire); }
    }

    /** Saying goodbye to everyone connected. */
    method Leave()
      modifies `wire
      ensures Wrote(old(wire), wire, Broadcast(self, conns, Bye))
    {
      SendAll(Bye);
    }

    // ----- handing off -----

    /** The hand-off to `to` at the version after `version`, then the change of owner to everyone
        connected, has been written after `wire`. */
    ghost predicate Announced(to: NodeId, version: nat, wire: seq<Packet>)
      reads this
    {
      Wrote(wire, this.wire, {Packet(self, to, FocusHandoff(to, version + 1))}
                             + Broadcast(self, conns, ActiveChange(to, version + 1)))
    }

    method SendFocusHandoff(to: NodeId, ok: bool) returns (err: bool)
      requires Wired()
      modifies `activeID, `activeVersion, `wire
      ensures activeID == to && activeVersion == old(activeVersion) + 1 && (err <==> to !in conns || !ok)
      ensures if err then wire == old(wire) else Announced(to, old(activeVersion), old(wire))
      ensures Wired() && Device() == Node.SendFocusHandoff(self, old(Device()), to, ok).state
      ensures Wrote(old(wire), wire, Node.SendFocusHandoff(self, old(Device()), to, ok).sent)
    {
      hide Wrote, Node.Broadcast;
      WroteNothing(wire);
      activeVersion := activeVersion + 1;
      var version := activeVersion;
      activeID := to;
      if to !in conns || !ok {
        return true;
      }
      Announce(to, version);
      return false;
    }

    /** The hand-off to its target, then the change of owner to everyone connected. */
    method Announce(to: NodeId, version: nat)
      modifies `wire
      ensures Wrote(old(wire), wire, {Packet(self, to, FocusHandoff(to, version))} + Broadcast(self, conns,
              ActiveChange(to, version)))
    {
      hide Wrote, Node.Broadcast;
      var msg := Packet(self, to, FocusHandoff(to, version));
      Write(msg);
      label announced:
      BroadcastActiveChange(to, version);
      NotAmong(self, msg, conns, ActiveChange(to, version));
      WroteBoth(old(wire), old@announced(wire), wire, {msg}, Broadcast(self, conns, ActiveChange(to, version)));
    }

    method RequestJump(target: NodeId, ok: bool) returns (err: bool)
      requires Wired()
      modifies `activeID, `activeVersion, `wire
      ensures if old(activeID) == self
              then activeID == target && activeVersion == old(activeVersion) + 1 &&
                   (err <==> target !in conns || !ok) &&
                   if err then wire == old(wire) else Announced(target, old(activeVersion), old(wire))
              else activeID == old(activeID) && activeVersion == old(activeVersion) &&
                   (err <==> activeID !in conns || !ok) &&
                   wire == old(wire) + if err then [] else [Packet(self, activeID, Node.RequestJump(target))]
      ensures Wired() && Device() == AskToJump(self, old(Device()), target, ok).state
      ensures Wrote(old(wire), wire, AskToJump(self, old(Device()), target, ok).sent)
    {
      hide Ids.Ring;
      if activeID == self {
        err := SendFocusHandoff(target, ok);
        return;
      }
      WroteNothing(wire);
      if activeID !in conns || !ok {
        return true;
      }
      var msg := Packet(self, activeID, Node.RequestJump(target));
      Write(msg);
      return false;
    }

    // ----- handshakes -----

    method RegisterConn(peer: NodeId, now: int)
      modifies `conns, `lastSeen
      ensures conns == old(conns) + {peer} && lastSeen == old(lastSeen)[peer := now]
    {
      conns := conns + {peer};
      lastSeen := lastSeen[peer := now];
    }

    method HandleAccept(peer: Entry, now: int)
      requires Wired()
      modifies `members, `conns, `lastSeen, `wire
      ensures Wired() && Device() == AcceptHello(self, old(Device()), peer.id).state
      ensures Wrote(old(wire), wire, AcceptHello(self, old(Device()), peer.id).sent)
      ensures members == old(members)[peer.id := peer.info] && lastSeen == old(lastSeen)[peer.id := now]
      ensures conns == old(conns) + {peer.id} && Wrote(old(wire), wire,
        {Packet(self, peer.id, Welcome(members.Keys, activeID, activeVersion))}
        + Broadcast(self, conns, MemberSync(members.Keys, activeID, activeVersion)))
    {
      hide Wrote, Node.Broadcast;
      members := members[peer.id := peer.info];
      RegisterConn(peer.id, now);
      assert members.Keys == old(members.Keys) + {peer.id};
      WelcomeAndGossip(peer.id);
    }

    method WelcomeAndGossip(peer: NodeId)
      requires Wired()
      modifies `wire
      ensures Wrote(old(wire), wire, {Packet(self, peer, Welcome(members.Keys, activeID, activeVersion))}
                                     + Broadcast(self, conns, MemberSync(members.Keys, activeID, activeVersion)))
    {
      hide Wrote, Node.Broadcast;
      var welcome := Packet(self, peer, Welcome(members.Keys, activeID, activeVersion));
      Write(welcome);
      label welcomed:
      BroadcastGossip();
      NotAmong(self, welcome, conns, MemberSync(members.Keys, activeID, activeVersion));
      WroteBoth(old(wire), old@welcomed(wire), wire, {welcome}, Gossip(self, Device()).sent);
    }

    /** handshakeDial once both replies have arrived. */
    method CompleteHandshake(peer: Entry, list: seq<Entry>, id: NodeId, version: nat, now: int)
      requires Wired()
      modifies this, handler
      ensures Wired() && handler == old(handler)
      ensures Device() == CompleteDial(self, old(Device()), peer.id, Welcome(Listed(list), id, version), now).state
      ensures Wrote(old(wire), wire, CompleteDial(self, old(Device()), peer.id, Welcome(Listed(list), id, version),
              now).sent)
      ensures members == Overlay(old(members)[peer.id := peer.info], self, list)
      ensures lastSeen == old(lastSeen)[peer.id := now] && conns == old(conns) + {peer.id} && phase == Started
      ensures if old(activeVersion) == 0 || version > old(activeVersion)
              then activeID == id && activeVersion == version
              else activeID == old(activeID) && activeVersion == old(activeVersion)
      ensures peer.id !in dialing && forall m | m != peer.id ::
          m in dialing <==>
            || m in old(dialing)
            || (m in Listed(list) && m !in old(members) && m != self && Less(self, m) && m !in old(conns))
      ensures (old(InStep()) ==> InStep()) && handler.cursor == old(handler.cursor)
    {
      hide Wrote, Overlay, Adopt, Merge, Less, Node.Broadcast, Listed;
      members := members[peer.id := peer.info];
      assert members.Keys == old(members.Keys) + {peer.id};
      MergeMembers(list);
      AdoptActive(id, version, now);
      RegisterConn(peer.id, now);
      dialing := dialing - {peer.id};
      phase := Started;
    }

    // ----- one received packet -----

    /** readLoop's body: note the sign of life, then dispatch. `list` is the member list of a
        MemberSync with the records the packet's IDs stand for; `edge` and `ratio` are the entry
        point a FocusHandoff carries. */
    method Receive(p: Packet, list: seq<Entry>, edge: Edge.Side, ratio: real, ok: bool, now: int)
      requires Wired() && !p.msg.Hello? && !p.msg.Welcome?
      requires p.msg.MemberSync? ==> Listed(list) == p.msg.members
      modifies this, handler
      ensures Wired() && handler == old(handler)
      ensures Device() == Node.Dispatch(self, old(Device()), p, ok, now).state
      ensures Wrote(old(wire), wire, Node.Dispatch(self, old(Device()), p, ok, now).sent)
      ensures members == if p.msg.MemberSync? then Overlay(old(members), self, list)
                         else if p.msg.Bye? then old(members) - {p.src} else old(members)
      ensures lastSeen == if p.msg.Bye? then old(lastSeen) - {p.src} else old(lastSeen)[p.src := now]
      ensures p.msg.Ping? ==> wire == old(wire) + if p.src in conns then [Packet(self, p.src, Node.Pong)] else []
      ensures p.msg.RequestJump? && old(handler.amActive) ==>
        handler.Attempted(p.msg.to, ok, old(activeVersion), old(wire), now)
      ensures p.msg.Bye? && p.src == old(activeID) && members != map[] ==> Elected(old(activeVersion), old(wire))
      ensures p.msg.ActiveChange? || p.msg.FocusHandoff? || p.msg.MemberSync? ==>
        if old(activeVersion) == 0 || p.msg.version > old(activeVersion)
        then activeVersion == p.msg.version && activeID == if p.msg.FocusHandoff? then p.msg.to else p.msg.activeID
        else activeVersion == old(activeVersion) && activeID == old(activeID)
      ensures old(InStep()) ==> InStep()
      ensures if p.msg.FocusHandoff? && p.msg.to == self
              then handler.amActive && handler.activeSince == now && handler.passthrough &&
                   handler.cursor == Edge.EntryPoint(handler.screen, edge, ratio)
              else handler.cursor == old(handler.cursor)
    {
      hide Wrote, Node.OnActiveChange, Node.OnFocusHandoff, Node.PerformHandoff, Elect, Adopt, Merge;
      lastSeen := lastSeen[p.src := now];
      WroteNothing(wire);
      match p.msg
      case Ping => if p.src in conns { Write(Packet(self, p.src, Node.Pong)); }
      case Pong =>
      case MemberSync(_, id, version) =>
        MergeMembers(list);
        AdoptActive(id, version, now);
      case ActiveChange(id, version) => AdoptActive(id, version, now);
      case FocusHandoff(to, version) =>
        var changed := AdoptActiveBookkeeping(to, version);
        handler.OnFocusHandoff(to, edge, ratio, now);
      case RequestJump(to) => handler.OnRequestJump(to, ok, now);
      case Bye => DropPeer(p.src, now);
    }
  }

  lemma WroteEach(before: seq<Packet>, after: seq<Packet>, sent: set<Packet>)
    requires Wrote(before, after, sent)
    ensures before <= after && multiset(after[|before|..]) == multiset(sent)
  {
    EachOnce(after[|before|..], sent);
  }

  lemma WroteMore(start: seq<Packet>, before: seq<Packet>, after: seq<Packet>, sent: set<Packet>)
    requires start <= before && Wrote(before, after, sent)
    ensures start <= after && multiset(after[|start|..]) == multiset(before[|start|..]) + multiset(sent)
  {
    WroteEach(before, after, sent);
    assert after[|start|..] == before[|start|..] + after[|before|..];
  }

  /** A listing as long as the set it covers holds each element once. */
  lemma {:induction false} EachOnce(s: seq<Packet>, t: set<Packet>)
    requires |s| == |t| && forall p :: p in s <==> p in t
    ensures multiset(s) == multiset(t)
  {
    assert forall p :: p in multiset(s) <==> p in multiset(t);
    assert multiset(t) <= multiset(s);
    assert |multiset(s) - multiset(t)| == |multiset(s)| - |multiset(t)| == 0;
  }

  // internal/pool/pool.go: 7 s
  const STALE_AFTER: int := 7000

  predicate IsStale(seen: int, now: int) {
    now - seen > STALE_AFTER
  }

  /** Giving up on several peers one after the other. */
  ghost function DropAll(self: NodeId, s: State, peers: seq<NodeId>, now: int): State {
    if peers == [] then s
    else DropConn(self, DropAll(self, s, peers[..|peers| - 1], now), peers[|peers| - 1], now).state
  }

  /** What giving up on them sends: an announcement for every election it brings about. */
  ghost function DropAllSends(self: NodeId, s: State, peers: seq<NodeId>, now: int): multiset<Packet> {
    if peers == [] then multiset{}
    else
      var before := peers[..|peers| - 1];
      DropAllSends(self, s, before, now)
      + multiset(DropConn(self, DropAll(self, s, before, now), peers[|peers| - 1], now).sent)
  }

  /** Whatever their order, giving up on peers leaves exactly the others, and if the owner was among
      them the first of those left owns the cursor. */
  lemma {:induction false} DropAllLeaves(self: NodeId, s: State, peers: seq<NodeId>, now: int)
    ensures var s' := DropAll(self, s, peers, now);
      && s'.members == s.members - Elements(peers) && s'.conns == s.conns - Elements(peers)
      && s'.dialing == s.dialing && s'.version >= s.version
      && (s.activeID !in peers ==> s' == s.(members := s'.members, conns := s'.conns))
      && (s.activeID in peers && s'.members != {} ==> s'.activeID == Lowest(s'.members) && s'.version > s.version)
    decreases |peers|
  {
    hide Lowest, DropConn;
    if peers != [] {
      var before, p := peers[..|peers| - 1], peers[|peers| - 1];
      assert peers == before + [p];
      DropAllLeaves(self, s, before, now);
      DropOneLeaves(self, DropAll(self, s, before, now), p, now);
    }
  }

  lemma DropOneLeaves(self: NodeId, s: State, p: NodeId, now: int)
    ensures var s' := DropConn(self, s, p, now).state;
      && s'.members == s.members - {p} && s'.conns == s.conns - {p} && s'.dialing == s.dialing
      && (s.activeID != p ==> s' == s.(members := s'.members, conns := s'.conns))
      && (s.activeID == p && s'.members != {} ==> s'.activeID == Lowest(s'.members) && s'.version == s.version + 1)
      && (s'.members == {} ==> s'.version == s.version)
      && (s.members != {} && s.activeID == Lowest(s.members) && s'.members != {} ==> s'.activeID == Lowest(s'.members))
  {
    hide Less;
    if s.members != {} && s.activeID == Lowest(s.members) && s.members - {p} != {} && s.activeID != p {
      LowestUnique(s.activeID, s.members - {p});
    }
  }

  lemma DropNobody(self: NodeId, s: State, now: int)
    ensures DropAll(self, s, [], now) == s && DropAllSends(self, s, [], now) == multiset{}
    ensures Elements([]) == {}
  {}

  lemma DropOneMore(self: NodeId, s: State, peers: seq<NodeId>, i: nat, now: int)
    requires i < |peers|
    ensures var one := DropConn(self, DropAll(self, s, peers[..i], now), peers[i], now);
      && DropAll(self, s, peers[..i + 1], now) == one.state
      && DropAllSends(self, s, peers[..i + 1], now) == DropAllSends(self, s, peers[..i], now) + multiset(one.sent)
    ensures Elements(peers[..i + 1]) == Elements(peers[..i]) + {peers[i]}
  {
    hide DropConn;
    assert peers[..i + 1] == peers[..i] + [peers[i]];
  }

  ghost function Elements(s: seq<NodeId>): set<NodeId> {
    set m | m in s
  }

  ghost function NewDials(self: NodeId, newcomers: set<NodeId>, conns: set<NodeId>, dialing: set<NodeId>): set<NodeId> {
    set m | m in newcomers && Less(self, m) && m !in conns && m !in dialing
  }

  lemma ElementsOneMore(s: seq<NodeId>, i: nat)
    requires i < |s| && forall i, j | 0 <= i < j < |s| :: s[i] != s[j]
    ensures s[i] in Elements(s) && s[i] !in Elements(s[..i]) && Elements(s[..i + 1]) == Elements(s[..i]) + {s[i]}
  {
    assert s[..i + 1] == s[..i] + [s[i]];
  }

  lemma NoElements(s: seq<NodeId>, t: set<NodeId>)
    ensures Elements(s[..0]) - t == {} && t + Elements(s[..0]) == t
  {}

  lemma FreshOnes(s: set<NodeId>, t: set<NodeId>)
    ensures t + s == t + (s - t)
  {}

  /** One turn of the maintenance loop, whether the peer is being dialled already or not. */
  lemma DialOneMore(self: NodeId, done: set<NodeId>, m: NodeId, dialing: set<NodeId>,
                    start: seq<Packet>, before: seq<Packet>, after: seq<Packet>)
    requires m !in done && Wrote(start, before, Broadcast(self, done - dialing, Hello))
    requires if m in dialing + done then before == after else Wrote(before, after, {Packet(self, m, Hello)})
    ensures Wrote(start, after, Broadcast(self, done + {m} - dialing, Hello))
    ensures dialing + done + {m} == dialing + (done + {m})
  {
    hide Wrote;
    if m in dialing {
      assert done + {m} - dialing == done - dialing;
    } else {
      assert done + {m} - dialing == (done - dialing) + {m};
      BroadcastOneMore(self, done - dialing, m, Hello, start, before, after);
    }
  }

  /** One turn of the dialling loop, whether it dials or not. */
  lemma OneMoreDial(self: NodeId, done: set<NodeId>, m: NodeId, conns: set<NodeId>, dialing: set<NodeId>,
                    start: seq<Packet>, before: seq<Packet>, after: seq<Packet>)
    requires m !in done
    requires Wrote(start, before, Broadcast(self, NewDials(self, done, conns, dialing), Hello))
    requires var news := NewDials(self, {m}, conns, dialing + NewDials(self, done, conns, dialing));
             Wrote(before, after, Broadcast(self, news, Hello))
    ensures var news := NewDials(self, {m}, conns, dialing + NewDials(self, done, conns, dialing));
            NewDials(self, done + {m}, conns, dialing) == NewDials(self, done, conns, dialing) + news
    ensures Wrote(start, after, Broadcast(self, NewDials(self, done + {m}, conns, dialing), Hello))
  {
    hide Wrote, Less;
    var old' := NewDials(self, done, conns, dialing);
    var news := NewDials(self, {m}, conns, dialing + old');
    assert NewDials(self, done + {m}, conns, dialing) == old' + news;
    WroteBoth(start, before, after, Broadcast(self, old', Hello), Broadcast(self, news, Hello));
    assert Broadcast(self, old' + news, Hello) == Broadcast(self, old', Hello) + Broadcast(self, news, Hello);
  }

  class Engine {
    const pool: Pool
    const screen: Edge.Screen
    var running: bool
    var amActive: bool
    var activeSince: int
    var passthrough: bool              // the backend's own switch
    var cursor: (int, int)             // where the backend was last told to warp to

    constructor (pool: Pool, screen: Edge.Screen)
      ensures this.pool == pool && this.screen == screen
      ensures !running && !amActive && activeSince == 0 && passthrough
    {
      this.pool, this.screen := pool, screen;
      running, amActive, activeSince := false, false, 0;
      passthrough, cursor := true, (0, 0);
    }

    /** The hand-off to `target` has been attempted: the pool names it the owner one version on, and
        either it and everyone connected has been told, or the send failed and the cursor is back. */
    ghost predicate Attempted(target: NodeId, ok: bool, version: nat, wire: seq<Packet>, now: int)
      reads this, pool
    {
      && pool.activeID == target && pool.activeVersion == version + 1 && passthrough == amActive
      && if target in pool.conns && ok then !amActive && pool.Announced(target, version, wire)
         else amActive && activeSince == now && pool.wire == wire
    }

    method SetEngineActive(active: bool, now: int)
      modifies `amActive, `activeSince
      ensures amActive == active && activeSince == if active then now else old(activeSince)
    {
      amActive := active;
      if active {
        activeSince := now;
      }
    }

    method OnActiveChange(newActiveID: NodeId, now: int)
      requires pool.Wired() && pool.handler == this
      modifies this
      ensures pool.Device() == Node.OnActiveChange(pool.self, old(pool.Device()), newActiveID, now)
      ensures amActive == (newActiveID == pool.self) && running == old(running)
      ensures activeSince == if amActive && !old(amActive) then now else old(activeSince)
      ensures amActive != old(amActive) ==> passthrough == amActive
      ensures amActive == old(amActive) ==> passthrough == old(passthrough)
      ensures old(pool.InStep()) ==> pool.InStep()
      ensures cursor == old(cursor)
    {
      var active := newActiveID == pool.self;
      if amActive == active {
        return;
      }
      SetEngineActive(active, now);
      passthrough := active;
    }

    /** A hand-off has arrived: take the cursor up at the entry point, whatever its version. */
    method OnFocusHandoff(to: NodeId, edge: Edge.Side, ratio: real, now: int)
      requires pool.Wired() && pool.handler == this
      modifies this
      ensures pool.Device() == Node.OnFocusHandoff(pool.self, old(pool.Device()), to, now)
      ensures if to == pool.self
              then amActive && activeSince == now && (edge.Left? ==> cursor.0 == 1) &&
                   (edge.Right? ==> cursor.0 == screen.w - 2)
              else amActive == old(amActive) && activeSince == old(activeSince)
      ensures if to == pool.self
              then passthrough && cursor == Edge.EntryPoint(screen, edge, ratio)
              else passthrough == old(passthrough) && cursor == old(cursor)
      ensures old(pool.InStep()) ==> pool.InStep()
    {
      if to != pool.self {
        return;
      }
      SetEngineActive(true, now);
      passthrough := true;
      cursor := Edge.EntryPoint(screen, edge, ratio);
    }

    method PerformHandoff(target: NodeId, ok: bool, now: int)
      requires pool.Wired() && pool.handler == this
      modifies this, pool`activeID, pool`activeVersion, pool`wire
      ensures pool.Wired()
      ensures if old(amActive) then Attempted(target, ok, old(pool.activeVersion), old(pool.wire), now)
              else !amActive && pool.activeID == old(pool.activeID) && pool.wire == old(pool.wire)
      ensures pool.Device() == Node.PerformHandoff(pool.self, old(pool.Device()), target, ok, now).state
      ensures Wrote(old(pool.wire), pool.wire, Node.PerformHandoff(pool.self, old(pool.Device()), target, ok, now).sent)
      ensures if old(amActive) then passthrough == amActive else passthrough == old(passthrough)
      ensures old(pool.InStep()) ==> pool.InStep()
      ensures cursor == old(cursor)
    {
      WroteNothing(pool.wire);
      if !amActive {
        return;
      }
      amActive := false;
      passthrough := false;
      var err := pool.SendFocusHandoff(target, ok);
      if err {
        SetEngineActive(true, now);
        passthrough := true;
      }
    }

    method OnRequestJump(targetID: NodeId, ok: bool, now: int)
      requires pool.Wired() && pool.handler == this
      modifies this, pool`activeID, pool`activeVersion, pool`wire
      ensures pool.Wired()
      ensures if old(amActive) then Attempted(targetID, ok, old(pool.activeVersion), old(pool.wire), now)
              else !amActive && pool.activeID == old(pool.activeID) && pool.wire == old(pool.wire)
      ensures pool.Device() == Node.PerformHandoff(pool.self, old(pool.Device()), targetID, ok, now).state
      ensures Wrote(old(pool.wire), pool.wire, Node.PerformHandoff(pool.self, old(pool.Device()), targetID, ok,
              now).sent)
      ensures (old(pool.InStep()) ==> pool.InStep()) && cursor == old(cursor)
    {
      if !amActive {
        WroteNothing(pool.wire);
        return;
      }
      PerformHandoff(targetID, ok, now);
    }

    /** The next or previous device in ring order, NONE when there is no other. */
    method FindNeighbor(right: bool) returns (target: NodeId)
      ensures var ids := pool.members.Keys;
        if |ids| < 2 || pool.self !in ids then target == NONE
        else if right then ComesNext(ids, pool.self, target) else ComesNext(ids, target, pool.self)
      ensures target == Neighbor(pool.self, pool.members.Keys, right)
    {
      hide Ids.Ring, IndexOf, ComesNext;
      ghost var ids := pool.members.Keys;
      if |ids| >= 2 && pool.self in ids { NeighborIsNext(ids, pool.self); }
      var ring := pool.MemberRing();
      if |ring| < 2 {
        return NONE;
      }
      var idx := -1;
      for i := 0 to |ring|
        invariant idx == -1 && forall j | 0 <= j < i :: ring[j] != pool.self
      {
        if ring[i] == pool.self {
          idx := i;
          break;
        }
      }
      if idx == -1 {
        return NONE;
      }
      AscendingDistinct(ring);
      return if right then ring[(idx + 1) % |ring|] else ring[(idx - 1 + |ring|) % |ring|];
    }

    /** A local move to (x, y) while showing the cursor. A crossing is attempted when the cooldown
        is over, the position is on a trigger column and there is a neighbour; `crossing` is the
        entry edge and ratio the hand-off carries. */
    method CheckEdge(x: int, y: int, ok: bool, now: int) returns (crossing: (Edge.Side, real), attempted: bool)
      requires pool.Wired() && pool.handler == this
      modifies this, pool`activeID, pool`activeVersion, pool`wire
      ensures pool.Wired()
      ensures var side := Edge.Trigger(screen, x);
        var target := Neighbor(pool.self, old(pool.members.Keys), side == Edge.Right);
        && (attempted <==> now - old(activeSince) >= 400 && (x <= 0 || x >= screen.w - 1) && target != NONE)
        && (attempted ==> crossing.0 == if x <= 0 then Edge.Right else Edge.Left)
        && (attempted && old(amActive) ==> Attempted(target, ok, old(pool.activeVersion), old(pool.wire), now))
        && (attempted ==>
              && crossing == (Edge.Opposite(side), Edge.ExitRatio(screen, y))
              && pool.Device() == Node.PerformHandoff(pool.self, old(pool.Device()), target, ok, now).state
              && Wrote(old(pool.wire), pool.wire, Node.PerformHandoff(pool.self, old(pool.Device()), target, ok,
                now).sent))
        && (!attempted ==> pool.Device() == old(pool.Device()) && pool.wire == old(pool.wire))
      ensures (old(pool.InStep()) ==> pool.InStep()) && cursor == old(cursor)
    {
      hide Wrote, Neighbor, Node.PerformHandoff;
      crossing, attempted := (Edge.Center, 0.0), false;
      if now - activeSince < EDGE_COOLDOWN {
        return;
      }
      var edge := Edge.Trigger(screen, x);
      if edge == Edge.Center {
        return;
      }
      var target := FindNeighbor(edge == Edge.Right);
      if target == NONE {
        return;
      }
      crossing, attempted := (Edge.Opposite(edge), Edge.ExitRatio(screen, y)), true;
      PerformHandoff(target, ok, now);
    }

    method HandleHotkey(slot: int, ok: bool, now: int)
      requires pool.Wired() && pool.handler == this
      modifies this, pool`activeID, pool`activeVersion, pool`wire
      ensures pool.Wired()
      ensures var ring := Ids.Ring(old(pool.members.Keys));
        if slot < 1 || slot > |ring| || ring[slot - 1] == pool.self
        then pool.Device() == old(pool.Device()) && pool.wire == old(pool.wire)
        else
          var target := ring[slot - 1];
          pool.Device() == Node.Hotkey(pool.self, old(pool.Device()), target, ok, now).state &&
             Wrote(old(pool.wire), pool.wire, Node.Hotkey(pool.self, old(pool.Device()), target, ok, now).sent)
      ensures var ring := Ids.Ring(old(pool.members.Keys));
        1 <= slot <= |ring| && ring[slot - 1] != pool.self ==>
          var target, owner, v, wire := ring[slot - 1], old(pool.activeID), old(pool.activeVersion), old(pool.wire);
          var departs, asks := target in pool.conns && ok, owner in pool.conns && ok;
          && (old(amActive) ==> Attempted(target, ok, v, wire, now))
          && (!old(amActive) ==> !amActive)
          && (!old(amActive) && owner == pool.self ==>
                pool.activeID == target && (if departs then pool.Announced(target, v, wire) else pool.wire == wire))
          && (!old(amActive) && owner != pool.self ==>
                && pool.activeID == owner
                && pool.wire == wire + if asks then [Packet(pool.self, owner, Node.RequestJump(target))] else [])
      ensures (old(pool.InStep()) ==> pool.InStep()) && cursor == old(cursor)
    {
      hide Wrote, Node.PerformHandoff, AskToJump, Ids.Ring;
      var ring := pool.MemberRing();
      if slot < 1 || slot > |ring| {
        return;
      }
      var target := ring[slot - 1];
      if target == pool.self {
        return;
      }
      if amActive {
        PerformHandoff(target, ok, now);
      } else {
        var err := pool.RequestJump(target, ok);
      }
    }

    /** The start of Engine.Run: read off who owns the cursor. */
    method Start(now: int)
      requires pool.Wired() && pool.handler == this
      modifies this
      ensures pool.Device() == StartEngine(pool.self, old(pool.Device()), now)
      ensures running && amActive == (pool.activeID == pool.self)
      ensures activeSince == if amActive then now else old(activeSince)
      ensures passthrough == amActive && cursor == old(cursor)
    {
      var initialActive := pool.activeID == pool.self;
      SetEngineActive(initialActive, now);
      passthrough := initialActive;
      running := true;
    }
  }
}
