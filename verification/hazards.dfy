/** Why the guards of the one-cursor theorems are there: runs of the code as it stands, from the
    founding of a pool, that end with two cursors; and exactly when giving up on a living device, or a
    death during a hand-off, leads to that. */
module Hazards {
  import opened Ids
  import opened Node
  import opened Cluster
  import opened Ownership
  import opened OneCursor
  import opened Failover

  // ----- runs that break at most one of the guards -----

  /** Which guard a run may break. */
  datatype Breach = NoBreach | Late | Failed | Disloyal

  /** Nothing fails: nothing is lost and every send succeeds. */
  predicate Faultless(st: Step) {
    !st.Lose? && !st.DialFails? && (st.Receive? ==> st.ok) && (st.Edge? ==> st.ok) && (st.Press? ==> st.ok)
  }

  /** A step in which nobody dies. Only with the breach of its name is a hand-off delivered stale, do
      sends fail, or does anyone give up on anyone. */
  ghost predicate Fine(c: Cluster, st: Step, breach: Breach)
    requires Enabled(c, st)
  {
    && !st.Crash? && !st.Leave?
    && (breach == Late || !DeliversStale(c, st))
    && (breach == Failed || (Faultless(st) && !Strands(c, st)))
    && (breach == Disloyal || CrashFreeStep(st))
  }

  ghost predicate FineRun(c: Cluster, steps: seq<Step>, breach: Breach)
    requires Possible(c, steps)
    decreases |steps|
  {
    steps == [] || (Fine(c, steps[0], breach) && FineRun(Apply(c, steps[0]), steps[1..], breach))
  }

  /** Such a run leads from `c` to `c'`. */
  ghost predicate Leads(c: Cluster, steps: seq<Step>, c': Cluster, breach: Breach) {
    Possible(c, steps) && Exec(c, steps) == c' && FineRun(c, steps, breach)
  }

  lemma LeadsNowhere(c: Cluster, breach: Breach)
    ensures Leads(c, [], c, breach)
  {}

  lemma {:induction false} LeadsOn(c: Cluster, steps: seq<Step>, c': Cluster, st: Step, breach: Breach)
    requires Leads(c, steps, c', breach) && Enabled(c', st) && Fine(c', st, breach)
    ensures Leads(c, steps + [st], Apply(c', st), breach)
    decreases |steps|
  {
    hide Enabled, Apply, Fine;
    var longer := steps + [st];
    if steps == [] {
      assert longer == [st] && [st][1..] == [];
      LeadsNowhere(Apply(c, st), breach);
    } else {
      LeadsOn(Apply(c, steps[0]), steps[1..], c', st, breach);
      assert longer[1..] == steps[1..] + [st];
    }
  }

  // ----- single steps -----

  /** A running device that holds `id` at version `v`. */
  predicate Holding(c: Cluster, n: NodeId, id: NodeId, v: nat) {
    && Up(c, n) && c.nodes[n].running
    && c.nodes[n].activeID == id && c.nodes[n].version == v
    && (c.nodes[n].amActive <==> id == n)
  }

  /** All but device `n` and the packets in flight are untouched, and `n` keeps its peers. */
  ghost predicate Others(c: Cluster, c': Cluster, n: NodeId) {
    && c'.dead == c.dead && c'.nodes.Keys == c.nodes.Keys
    && (forall m | m in c.nodes && m != n :: c'.nodes[m] == c.nodes[m])
    && (n in c.nodes ==> c'.nodes[n].conns == c.nodes[n].conns && c'.nodes[n].members == c.nodes[n].members)
  }

  /** The hotkey step by which `n` hands off to `to`. */
  ghost function PressFor(c: Cluster, n: NodeId, to: NodeId): Step
    requires n in c.nodes && to in c.nodes[n].members
  {
    Press(n, IndexOf(Ring(c.nodes[n].members), to) + 1, true)
  }

  lemma PressHandsOff(c: Cluster, n: NodeId, to: NodeId, v: nat)
    requires Holding(c, n, n, v) && n != NONE && to != NONE
    requires to in c.nodes[n].members && to in c.nodes[n].conns && to != n
    ensures Enabled(c, PressFor(c, n, to)) && Fine(c, PressFor(c, n, to), NoBreach)
    ensures var c' := Apply(c, PressFor(c, n, to));
      && Others(c, c', n) && Holding(c', n, to, v + 1)
      && Packet(n, to, FocusHandoff(to, v + 1)) in c'.net
      && (forall m | m in c.nodes[n].conns :: Packet(n, m, ActiveChange(to, v + 1)) in c'.net)
      && (forall p | p in c.net :: p in c'.net)
  {
    hide Ring, IndexOf;
    var st := PressFor(c, n, to);
    assert SlotTarget(n, c.nodes[n].members, st.slot) == to;
    var o := Move(c, st);
    assert o == PerformHandoff(n, c.nodes[n], to, true, c.now);
    assert Packet(n, to, FocusHandoff(to, v + 1)) in multiset(o.sent);
    assert forall m | m in c.nodes[n].conns :: Packet(n, m, ActiveChange(to, v + 1)) in multiset(o.sent);
  }

  /** Taking in news of a higher version. */
  lemma ReceiveNews(c: Cluster, n: NodeId, p: Packet, id: NodeId, v: nat, prior: NodeId, v0: nat)
    requires Holding(c, n, prior, v0) && v0 < v && prior != id && p in c.net && p.dst == n
    requires p.msg == ActiveChange(id, v) || (p.msg.FocusHandoff? && p.msg == FocusHandoff(n, v) && id == n)
    ensures Enabled(c, Receive(p, true)) && Fine(c, Receive(p, true), NoBreach)
    ensures var c' := Apply(c, Receive(p, true));
      Others(c, c', n) && Holding(c', n, id, v) && (forall q | q in c.net && q != p :: q in c'.net)
  {}

  lemma ReceiveSyncNews(c: Cluster, n: NodeId, p: Packet, list: set<NodeId>, id: NodeId, v: nat, prior: NodeId, v0: nat)
    requires Holding(c, n, prior, v0) && v0 < v && prior != id && p in c.net && p.dst == n
    requires p.msg == MemberSync(list, id, v) && list <= c.nodes[n].members
    ensures Enabled(c, Receive(p, true)) && Fine(c, Receive(p, true), NoBreach)
    ensures var c' := Apply(c, Receive(p, true));
      Others(c, c', n) && Holding(c', n, id, v) && (forall q | q in c.net && q != p :: q in c'.net)
  {
    assert ToDial(n, c.nodes[n], list) == {};
    assert c.nodes[n].members + (list - {n}) == c.nodes[n].members;
  }

  lemma GossipGoesOut(c: Cluster, n: NodeId, to: NodeId)
    requires Up(c, n) && to in c.nodes[n].conns
    ensures Enabled(c, GossipTick(n)) && Fine(c, GossipTick(n), NoBreach)
    ensures var c' := Apply(c, GossipTick(n));
      && c'.dead == c.dead && c'.nodes == c.nodes
      && Packet(n, to, Snapshot(c.nodes[n])) in c'.net
      && (forall p | p in c.net :: p in c'.net)
  {
    assert Packet(n, to, Snapshot(c.nodes[n])) in Gossip(n, c.nodes[n]).sent;
    assert c.nodes[n := c.nodes[n]] == c.nodes;
  }

  /** A hand-off delivered late: its receiver has learned of it by gossip, used the cursor and
      handed it on, and now shows it again. */
  lemma LateHandoffShows(c: Cluster, n: NodeId, p: Packet, v: nat, id: NodeId, v0: nat)
    requires Holding(c, n, id, v0) && v < v0 && id != n && p in c.net && p.dst == n && p.msg == FocusHandoff(n, v)
    ensures Enabled(c, Receive(p, true)) && Fine(c, Receive(p, true), Late)
    ensures DeliversStale(c, Receive(p, true))
    ensures var c' := Apply(c, Receive(p, true));
      Others(c, c', n) && Shows(c', n)
  {}

  /** The owner's hand-off to `to` fails: it takes the cursor back, but not the owner field. */
  lemma PressFails(c: Cluster, n: NodeId, to: NodeId, v: nat) returns (st: Step)
    requires Holding(c, n, n, v) && n != NONE && to != NONE && to in c.nodes[n].members && to != n
    ensures Enabled(c, st) && Fine(c, st, Failed) && Strands(c, st)
    ensures var c' := Apply(c, st);
      && Others(c, c', n) && Shows(c', n) && c'.nodes[n].activeID == to && c'.nodes[n].version == v + 1 && Up(c', n)
  {
    hide Ring, IndexOf;
    st := Press(n, IndexOf(Ring(c.nodes[n].members), to) + 1, false);
    assert SlotTarget(n, c.nodes[n].members, st.slot) == to;
    assert Move(c, st) == PerformHandoff(n, c.nodes[n], to, false, c.now);
  }

  lemma FineAnyway(c: Cluster, st: Step, breach: Breach)
    requires Enabled(c, st) && Fine(c, st, NoBreach)
    ensures Fine(c, st, breach)
  {}

  // ----- from the founding of a pool to three connected devices -----

  /** One step on, in terms of the moving device's new state and packets. */
  lemma Onward(c0: Cluster, steps: seq<Step>, c: Cluster, st: Step, n: NodeId) returns (longer: seq<Step>, c': Cluster)
    requires Leads(c0, steps, c, NoBreach)
    requires Enabled(c, st) && Fine(c, st, NoBreach) && Moves(st) && Mover(st) == n && n in c.nodes
    ensures Leads(c0, longer, c', NoBreach)
    ensures c'.nodes == c.nodes[n := Move(c, st).state] && c'.dead == c.dead && c'.now == c.now
    ensures forall p | p in Move(c, st).sent :: p in c'.net
    ensures forall p | p in c.net && !(st.Receive? && st.p == p) :: p in c'.net
  {
    LeadsOn(c0, steps, c, st, NoBreach);
    longer, c' := steps + [st], Apply(c, st);
    hide Move, Enabled, Leads, Fine;
    assert forall p | p in Move(c, st).sent :: p in multiset(Move(c, st).sent);
  }

  /** A member that shows nothing yet and follows the founder. */
  function Follower(founder: NodeId, members: set<NodeId>, conns: set<NodeId>, dialing: set<NodeId>): State {
    State(Started, members, conns, dialing, founder, 1, false, false, 0)
  }

  lemma JoinMoves(c: Cluster, st: Step, j: NodeId, f: NodeId)
    requires c.dead == {} && j in c.nodes && c.nodes[j] == Blank(j) && f in c.nodes &&
            c.nodes[f].phase == Started && j != f
    requires st == Join(j, f)
    ensures Enabled(c, st) && Moves(st) && Fine(c, st, NoBreach)
    ensures Move(c, st) == Outcome(Blank(j).(phase := Dialing), {Packet(j, f, Hello)})
  {}

  /** The founder accepts a joiner. */
  lemma AcceptMoves(c: Cluster, st: Step, f: NodeId, j: NodeId, members: set<NodeId>, conns: set<NodeId>, owner: NodeId)
    requires c.dead == {} && f in c.nodes && c.nodes[f] == Follower(owner, members, conns, {}) &&
            Packet(j, f, Hello) in c.net
    requires st == Receive(Packet(j, f, Hello), true)
    ensures Enabled(c, st) && Moves(st) && Fine(c, st, NoBreach)
    ensures var o := Move(c, st);
      && o.state == Follower(owner, members + {j}, conns + {j}, {})
      && Packet(f, j, Welcome(members + {j}, owner, 1)) in o.sent
      && forall m | m in conns + {j} :: Packet(f, m, MemberSync(members + {j}, owner, 1)) in o.sent
  {}

  /** A joiner is welcomed; nobody on the list is left for it to dial. */
  lemma WelcomeMoves(c: Cluster, st: Step, j: NodeId, f: NodeId, members: set<NodeId>)
    requires c.dead == {} && j in c.nodes && c.nodes[j] == Blank(j).(phase := Dialing) && j != f && j in members &&
            f in members
    requires Packet(f, j, Welcome(members, f, 1)) in c.net
    requires forall m | m in members :: m == j || m == f || !Less(j, m)
    requires st == Receive(Packet(f, j, Welcome(members, f, 1)), true)
    ensures Enabled(c, st) && Moves(st) && Fine(c, st, NoBreach)
    ensures Move(c, st).state == Follower(f, members, {f}, {})
  {
    assert {j} + {f} + (members - {j}) == members;
    assert ToDial(j, Blank(j).(phase := Dialing, members := {j} + {f}), members) == {};
  }

  /** Gossip names a newcomer that sorts later, and it is dialled. */
  lemma GossipMoves(c: Cluster, st: Step, n: NodeId, f: NodeId, members: set<NodeId>, m: NodeId)
    requires c.dead == {} && n in c.nodes && c.nodes[n] == Follower(f, members, {f}, {})
    requires Packet(f, n, MemberSync(members + {m}, f, 1)) in c.net && n in members && m !in members &&
            Less(n, m) && m != f
    requires st == Receive(Packet(f, n, MemberSync(members + {m}, f, 1)), true)
    ensures Enabled(c, st) && Moves(st) && Fine(c, st, NoBreach)
    ensures var o := Move(c, st);
      o.state == Follower(f, members + {m}, {f}, {m}) && Packet(n, m, Hello) in o.sent
  {
    assert members + (members + {m} - {n}) == members + {m};
    assert ToDial(n, c.nodes[n], members + {m}) == {m};
  }

  /** The dial of one follower to another completes. */
  lemma MeetMoves(c: Cluster, st: Step, n: NodeId, f: NodeId, members: set<NodeId>, m: NodeId)
    requires c.dead == {} && n in c.nodes && c.nodes[n] == Follower(f, members, {f}, {m}) && n in members &&
            m in members
    requires Packet(m, n, Welcome(members, f, 1)) in c.net
    requires st == Receive(Packet(m, n, Welcome(members, f, 1)), true)
    ensures Enabled(c, st) && Moves(st) && Fine(c, st, NoBreach)
    ensures Move(c, st).state == Follower(f, members, {f, m}, {})
  {
    assert members + {m} == members && members + (members - {n}) == members;
    assert ToDial(n, c.nodes[n], members) == {};
  }

  lemma RunMoves(c: Cluster, st: Step, n: NodeId, f: NodeId, members: set<NodeId>, conns: set<NodeId>)
    requires c.dead == {} && n in c.nodes && c.nodes[n] == Follower(f, members, conns, {})
    requires st == Run(n)
    ensures Enabled(c, st) && Moves(st) && Fine(c, st, NoBreach)
    ensures Move(c, st) == Outcome(SetActive(Follower(f, members, conns, {}), f == n, c.now).(running := true), {})
  {}

  /** A device joins the founder; the founder's other connections are told. */
  lemma OneJoins(c0: Cluster, steps: seq<Step>, c: Cluster, a: NodeId, j: NodeId, members: set<NodeId>,
      conns: set<NodeId>)
      returns (longer: seq<Step>, c': Cluster)
    requires Leads(c0, steps, c, NoBreach) && c.dead == {} && {a, j} <= c.nodes.Keys && a != j
    requires c.nodes[a] == Follower(a, members, conns, {}) && c.nodes[j] == Blank(j) && a in members
    requires forall m | m in members + {j} :: m == j || m == a || !Less(j, m)
    ensures Leads(c0, longer, c', NoBreach) && c'.dead == {} && c'.nodes.Keys == c.nodes.Keys
    ensures c'.nodes[a] == Follower(a, members + {j}, conns + {j}, {})
    ensures c'.nodes[j] == Follower(a, members + {j}, {a}, {})
    ensures forall m | m in c.nodes && m != a && m != j :: c'.nodes[m] == c.nodes[m]
    ensures forall m | m in conns && m != j :: Packet(a, m, MemberSync(members + {j}, a, 1)) in c'.net
  {
    hide Leads, Enabled, Apply, Fine, Move, Less;
    JoinMoves(c, Join(j, a), j, a);
    longer, c' := Onward(c0, steps, c, Join(j, a), j);
    var hello := Receive(Packet(j, a, Hello), true);
    AcceptMoves(c', hello, a, j, members, conns, a);
    longer, c' := Onward(c0, longer, c', hello, a);
    var welcome := Receive(Packet(a, j, Welcome(members + {j}, a, 1)), true);
    WelcomeMoves(c', welcome, j, a, members + {j});
    longer, c' := Onward(c0, longer, c', welcome, j);
  }

  /** Of two followers the lower hears of the other from the founder, and dials it. */
  lemma TwoMeet(c0: Cluster, steps: seq<Step>, c: Cluster, a: NodeId, p: NodeId, q: NodeId, two: set<NodeId>)
      returns (longer: seq<Step>, c': Cluster)
    requires Leads(c0, steps, c, NoBreach) && c.dead == {} && {p, q} <= c.nodes.Keys
    requires Less(p, q) && p != q && p in two && q !in two && q != a
    requires c.nodes[p] == Follower(a, two, {a}, {}) && c.nodes[q] == Follower(a, two + {q}, {a}, {})
    requires Packet(a, p, MemberSync(two + {q}, a, 1)) in c.net
    ensures Leads(c0, longer, c', NoBreach) && c'.dead == {} && c'.nodes.Keys == c.nodes.Keys
    ensures c'.nodes[p] == Follower(a, two + {q}, {a, q}, {}) && c'.nodes[q] == Follower(a, two + {q}, {a, p}, {})
    ensures forall m | m in c.nodes && m != p && m != q :: c'.nodes[m] == c.nodes[m]
  {
    hide Leads, Enabled, Apply, Fine, Move, Less;
    var three := two + {q};
    assert three + {p} == three && {a} + {p} == {a, p};
    var gossip := Receive(Packet(a, p, MemberSync(three, a, 1)), true);
    GossipMoves(c, gossip, p, a, two, q);
    longer, c' := Onward(c0, steps, c, gossip, p);
    var hello := Receive(Packet(p, q, Hello), true);
    AcceptMoves(c', hello, q, p, three, {a}, a);
    longer, c' := Onward(c0, longer, c', hello, q);
    var welcome := Receive(Packet(q, p, Welcome(three, a, 1)), true);
    MeetMoves(c', welcome, p, a, three, q);
    longer, c' := Onward(c0, longer, c', welcome, p);
  }

  lemma OneRuns(c0: Cluster, steps: seq<Step>, c: Cluster, n: NodeId, a: NodeId, members: set<NodeId>,
      conns: set<NodeId>)
      returns (longer: seq<Step>, c': Cluster)
    requires Leads(c0, steps, c, NoBreach) && c.dead == {} && n in c.nodes
    requires c.nodes[n] == Follower(a, members, conns, {})
    ensures Leads(c0, longer, c', NoBreach) && c'.dead == {} && c'.nodes.Keys == c.nodes.Keys
    ensures Holding(c', n, a, 1) && c'.nodes[n].conns == conns && c'.nodes[n].members == members
    ensures forall m | m in c.nodes && m != n :: c'.nodes[m] == c.nodes[m]
  {
    hide Leads, Enabled, Apply, Fine, Move;
    RunMoves(c, Run(n), n, a, members, conns);
    longer, c' := Onward(c0, steps, c, Run(n), n);
  }

  /** Two devices join the founder of a pool, meet by gossip, and everyone starts its engine. */
  lemma ThreeMeet(ids: set<NodeId>, a: NodeId, p: NodeId, q: NodeId) returns (steps: seq<Step>, c: Cluster)
    requires {a, p, q} <= ids && a != p && a != q && Less(p, q)
    ensures Leads(Initial(ids, a), steps, c, NoBreach)
    ensures Holding(c, a, a, 1) && Holding(c, p, a, 1) && Holding(c, q, a, 1)
    ensures c.nodes[a].conns == {p, q} && c.nodes[p].conns == {a, q} && c.nodes[q].conns == {a, p}
    ensures c.nodes[a].members == c.nodes[p].members == c.nodes[q].members == {a, p, q}
    ensures c.dead == {} && c.nodes.Keys == ids
  {
    Asymmetry(p, q);
    var two, three := {a, p}, {a, p, q};
    var c0 := Initial(ids, a);
    LeadsNowhere(c0, NoBreach);
    hide Leads, Less;
    assert {a} + {p} == two && {} + {p} == {p} && two + {q} == three && {p} + {q} == {p, q};
    steps, c := OneJoins(c0, [], c0, a, p, {a}, {});
    steps, c := OneJoins(c0, steps, c, a, q, two, {p});
    steps, c := TwoMeet(c0, steps, c, a, p, q, two);
    steps, c := OneRuns(c0, steps, c, a, a, three, {p, q});
    steps, c := OneRuns(c0, steps, c, p, a, three, {a, q});
    steps, c := OneRuns(c0, steps, c, q, a, three, {a, p});
  }

  lemma FineIsLoyal(c: Cluster, st: Step)
    requires Enabled(c, st) && Fine(c, st, NoBreach)
    ensures Loyal(c, st) && Safe(c, st)
  {}

  lemma {:induction false} FineIsSafe(c: Cluster, steps: seq<Step>)
    requires Possible(c, steps) && FineRun(c, steps, NoBreach)
    ensures LoyalRun(c, steps) && SafeRun(c, steps)
    decreases |steps|
  {
    hide Enabled, Apply;
    if steps != [] {
      FineIsLoyal(c, steps[0]);
      FineIsSafe(Apply(c, steps[0]), steps[1..]);
    }
  }

  /** Settled pools, from which the failover results start, are reached by safe runs. */
  lemma SettledIsReachable(a: NodeId, b: NodeId, d: NodeId) returns (steps: seq<Step>)
    requires a != b && b != d && a != d
    ensures Possible(Initial({a, b, d}, a), steps)
    ensures LoyalRun(Initial({a, b, d}, a), steps) && SafeRun(Initial({a, b, d}, a), steps)
    ensures Settled(Exec(Initial({a, b, d}, a), steps), a, 1)
  {
    Trichotomy(b, d);
    var p, q := if Less(b, d) then b else d, if Less(b, d) then d else b;
    assert {a, p, q} == {a, b, d};
    hide Possible, Exec, FineRun, Initial, Less, LoyalRun, SafeRun;
    var first, c := ThreeMeet({a, b, d}, a, p, q);
    assert Survivors(c) == {a, b, d} && b in Survivors(c) - {a};
    FineIsSafe(Initial({a, b, d}, a), first);
    steps := first;
  }

  // ----- a first death and a second -----

  /** A safe run with deaths, the last of them that of `m`, leads from `c` to `c'`. */
  ghost predicate Outlives(c: Cluster, steps: seq<Step>, c': Cluster, m0: NodeId, m: NodeId) {
    Possible(c, steps) && Exec(c, steps) == c' && Reigns(c, steps, m0) && SafeRun(c, steps) && LastOf(steps, m0) == m
  }

  function LastOf(steps: seq<Step>, m: NodeId): NodeId {
    if steps == [] then m else LastOf(steps[1..], LastDead(steps[0], m))
  }

  lemma {:induction false} OutlivesOn(c: Cluster, steps: seq<Step>, c': Cluster, m0: NodeId, m: NodeId, st: Step)
    requires Outlives(c, steps, c', m0, m) && Enabled(c', st) && Safe(c', st) && ReignStep(c', st, m)
    ensures Outlives(c, steps + [st], Apply(c', st), m0, LastDead(st, m))
    decreases |steps|
  {
    hide Enabled, Apply, Safe, ReignStep;
    var longer := steps + [st];
    if steps == [] {
      var none := longer[1..];
      assert longer[0] == st && none == [];
      var after := LastDead(st, m);
      assert Possible(Apply(c, st), none) && Reigns(Apply(c, st), none, after) && SafeRun(Apply(c, st), none);
      assert Exec(Apply(c, st), none) == Apply(c, st) && LastOf(none, after) == after && m == m0;
    } else {
      OutlivesOn(Apply(c, steps[0]), steps[1..], c', LastDead(steps[0], m0), m, st);
      assert longer[1..] == steps[1..] + [st];
    }
  }

  lemma {:induction false} LoyalReigns(c: Cluster, steps: seq<Step>)
    requires Possible(c, steps) && LoyalRun(c, steps) && SafeRun(c, steps)
    ensures Outlives(c, steps, Exec(c, steps), NONE, NONE)
    decreases |steps|
  {
    hide Enabled, Apply, Safe;
    if steps != [] { LoyalReigns(Apply(c, steps[0]), steps[1..]); }
  }

  /** Losing everything in flight that mentions `d`. */
  lemma {:induction false} LoseMentions(c0: Cluster, steps: seq<Step>, c: Cluster, m0: NodeId, m: NodeId, d: NodeId)
      returns (longer: seq<Step>, c': Cluster)
    requires Outlives(c0, steps, c, m0, m) && m != NONE
    ensures Outlives(c0, longer, c', m0, m) && c'.nodes == c.nodes && c'.dead == c.dead
    ensures forall p | p in c'.net :: !Mentions(p, d)
    decreases |c.net|
  {
    if p :| p in c.net && Mentions(p, d) {
      OutlivesOn(c0, steps, c, m0, m, Lose(p));
      hide Outlives;
      assert c.net == (c.net - multiset{p}) + multiset{p};
      longer, c' := LoseMentions(c0, steps + [Lose(p)], Apply(c, Lose(p)), m0, m, d);
    } else {
      longer, c' := steps, c;
    }
  }

  /** A survivor notices the death and names `heir`. */
  lemma SurvivorNotices(c: Cluster, n: NodeId, x: NodeId, v: nat, heir: NodeId)
    requires Up(c, n) && n != x && Names(c, n, x, v) && IsLowest(heir, c.nodes[n].members - {x})
    requires forall p | p in c.net :: !Mentions(p, x)
    ensures Enabled(c, Drop(n, x)) && Safe(c, Drop(n, x)) && FailoverStep(Drop(n, x), x)
    ensures var c' := Apply(c, Drop(n, x));
      && c'.dead == c.dead && c'.nodes.Keys == c.nodes.Keys && Up(c', n) && Names(c', n, heir, v + 1)
      && c'.nodes[n].members == c.nodes[n].members - {x}
      && (forall m | m in c.nodes && m != n :: c'.nodes[m] == c.nodes[m])
      && (forall p | p in c'.net :: !Mentions(p, x))
  {
    LowestUnique(heir, c.nodes[n].members - {x});
    assert forall p | p in Move(c, Drop(n, x)).sent :: p.msg.ActiveChange?;
  }

  /** The founder of a pool of three dies, both survivors notice and forget it, and the pool is ready
      for the death of the owner they elected. */
  lemma SecondDeathIsReachable(a: NodeId, b: NodeId, d: NodeId) returns (steps: seq<Step>, heir: NodeId)
    requires a != b && b != d && a != d && NONE !in {a, b, d}
    ensures Possible(Initial({a, b, d}, a), steps) && Reigns(Initial({a, b, d}, a), steps, NONE)
    ensures SafeRun(Initial({a, b, d}, a), steps)
    ensures var c := Exec(Initial({a, b, d}, a), steps); c.dead == {a} && Ready(c, heir, heir, 2)
  {
    Trichotomy(b, d);
    var p, q := if Less(b, d) then b else d, if Less(b, d) then d else b;
    var ids := {a, b, d};
    assert {a, p, q} == ids;
    var c0 := Initial(ids, a);
    var first, c := ThreeMeet(ids, a, p, q);
    FineIsSafe(c0, first);
    LoyalReigns(c0, first);
    steps, c := FirstDeath(c0, first, c, a, p, q);
    heir := p;
  }

  lemma FirstDeath(c0: Cluster, steps: seq<Step>, c: Cluster, a: NodeId, p: NodeId, q: NodeId)
      returns (longer: seq<Step>, c': Cluster)
    requires Outlives(c0, steps, c, NONE, NONE) && a != p && a != q && Less(p, q) && a != NONE
    requires c.dead == {} && c.nodes.Keys == {a, p, q}
    requires Holding(c, a, a, 1) && Holding(c, p, a, 1) && Holding(c, q, a, 1)
    requires c.nodes[a].members == c.nodes[p].members == c.nodes[q].members == {a, p, q}
    ensures Outlives(c0, longer, c', NONE, a) && c'.dead == {a} && Ready(c', p, p, 2)
  {
    Asymmetry(p, q);
    hide Outlives, Enabled, Safe, Less, Mentions, Apply;
    assert Survivors(c) == {a, p, q} && p in Survivors(c) - {a};
    assert Ready(c, a, a, 1);
    DeathIsQuiet(c, a, Crash(a));
    CrashIsSafe(c, a);
    OutlivesOn(c0, steps, c, NONE, NONE, Crash(a));
    longer, c' := LoseMentions(c0, steps + [Crash(a)], Apply(c, Crash(a)), NONE, a, a);
    assert {a, p, q} - {a} == {p, q} && IsLowest(p, {p, q});
    SurvivorNotices(c', p, a, 1, p);
    OutlivesOn(c0, longer, c', NONE, a, Drop(p, a));
    longer, c' := longer + [Drop(p, a)], Apply(c', Drop(p, a));
    SurvivorNotices(c', q, a, 1, p);
    OutlivesOn(c0, longer, c', NONE, a, Drop(q, a));
    longer, c' := longer + [Drop(q, a)], Apply(c', Drop(q, a));
    assert Survivors(c') == {p, q} && q in Survivors(c') - {p};
  }

  lemma CrashIsSafe(c: Cluster, x: NodeId)
    requires Enabled(c, Crash(x))
    ensures Safe(c, Crash(x))
  {}

  // ----- a hand-off overtaken by gossip -----

  lemma {:induction false} FineRunAnyway(c: Cluster, steps: seq<Step>, breach: Breach)
    requires Possible(c, steps) && FineRun(c, steps, NoBreach)
    ensures FineRun(c, steps, breach)
    decreases |steps|
  {
    hide Enabled, Apply;
    if steps != [] {
      FineAnyway(c, steps[0], breach);
      FineRunAnyway(Apply(c, steps[0]), steps[1..], breach);
    }
  }

  /** `a` hands off to `b`; the news reaches `b` through `d` before the hand-off does. */
  lemma NewsOvertakes(c0: Cluster, steps: seq<Step>, c: Cluster, a: NodeId, b: NodeId, d: NodeId, v: nat)
      returns (longer: seq<Step>, c': Cluster)
    requires Leads(c0, steps, c, Late)
    requires a != b && b != d && a != d && NONE !in {a, b, d}
    requires 0 < v && Holding(c, a, a, v) && Holding(c, b, a, v) && Holding(c, d, a, v)
    requires {b, d} <= c.nodes[a].conns && b in c.nodes[d].conns
    requires b in c.nodes[a].members && c.nodes[d].members <= c.nodes[b].members
    ensures Leads(c0, longer, c', Late)
    ensures Holding(c', b, b, v + 1) && Holding(c', d, b, v + 1) && Packet(a, b, FocusHandoff(b, v + 1)) in c'.net
    ensures c'.nodes[b].conns == c.nodes[b].conns && c'.nodes[b].members == c.nodes[b].members
  {
    hide Enabled, Apply, Leads, PressFor, Fine;
    assert d in c.nodes[a].conns;
    var s1 := PressFor(c, a, b);
    PressHandsOff(c, a, b, v);
    FineAnyway(c, s1, Late);
    LeadsOn(c0, steps, c, s1, Late);
    var c1 := Apply(c, s1);
    var s2 := Receive(Packet(a, d, ActiveChange(b, v + 1)), true);
    ReceiveNews(c1, d, s2.p, b, v + 1, a, v);
    FineAnyway(c1, s2, Late);
    LeadsOn(c0, steps + [s1], c1, s2, Late);
    var c2 := Apply(c1, s2);
    var s3 := GossipTick(d);
    GossipGoesOut(c2, d, b);
    FineAnyway(c2, s3, Late);
    LeadsOn(c0, steps + [s1] + [s2], c2, s3, Late);
    var c3 := Apply(c2, s3);
    var s4 := Receive(Packet(d, b, Snapshot(c2.nodes[d])), true);
    ReceiveSyncNews(c3, b, s4.p, c2.nodes[d].members, b, v + 1, a, v);
    FineAnyway(c3, s4, Late);
    LeadsOn(c0, steps + [s1] + [s2] + [s3], c3, s4, Late);
    longer, c' := steps + [s1] + [s2] + [s3] + [s4], Apply(c3, s4);
  }

  /** `b` hands the cursor on to `d`; then the first hand-off arrives at `b`. */
  lemma LateArrival(c0: Cluster, steps: seq<Step>, c: Cluster, a: NodeId, b: NodeId, d: NodeId, v: nat)
      returns (longer: seq<Step>, c': Cluster)
    requires Leads(c0, steps, c, Late) && a != b && b != d && NONE !in {a, b, d}
    requires Holding(c, b, b, v) && Holding(c, d, b, v) && Packet(a, b, FocusHandoff(b, v)) in c.net
    requires d in c.nodes[b].conns && d in c.nodes[b].members
    ensures Leads(c0, longer, c', Late)
    ensures Shows(c', b) && Shows(c', d)
  {
    hide Enabled, Apply, Leads, PressFor, Fine;
    var s1 := PressFor(c, b, d);
    PressHandsOff(c, b, d, v);
    FineAnyway(c, s1, Late);
    LeadsOn(c0, steps, c, s1, Late);
    var c1 := Apply(c, s1);
    var s2 := Receive(Packet(b, d, FocusHandoff(d, v + 1)), true);
    ReceiveNews(c1, d, s2.p, d, v + 1, b, v);
    FineAnyway(c1, s2, Late);
    LeadsOn(c0, steps + [s1], c1, s2, Late);
    var c2 := Apply(c1, s2);
    var s3 := Receive(Packet(a, b, FocusHandoff(b, v)), true);
    LateHandoffShows(c2, b, s3.p, v, d, v + 1);
    LeadsOn(c0, steps + [s1] + [s2], c2, s3, Late);
    longer, c' := steps + [s1] + [s2] + [s3], Apply(c2, s3);
  }

  /** A late hand-off alone. From the founding of any pool that three devices get to, without a
      death, a loss, a failed send or a stranded hand-off: with one hand-off overtaken by gossip,
      two devices end up showing the cursor. */
  lemma StaleHandoffTwoCursors(ids: set<NodeId>, a: NodeId, b: NodeId, d: NodeId) returns (steps: seq<Step>,
      m: NodeId, n: NodeId)
    requires {a, b, d} <= ids && a != b && b != d && a != d && NONE !in {a, b, d}
    ensures Possible(Initial(ids, a), steps) && FineRun(Initial(ids, a), steps, Late)
    ensures m != n && Shows(Exec(Initial(ids, a), steps), m) && Shows(Exec(Initial(ids, a), steps), n)
  {
    var c0 := Initial(ids, a);
    Trichotomy(b, d);
    m, n := if Less(b, d) then b else d, if Less(b, d) then d else b;
    var first, c := ThreeMeet(ids, a, m, n);
    FineRunAnyway(c0, first, Late);
    hide Possible, Exec, FineRun, Initial, Less;
    var second, c' := NewsOvertakes(c0, first, c, a, m, n, 1);
    var third, c'' := LateArrival(c0, second, c', a, m, n, 2);
    steps := third;
  }

  // ----- a hand-off stranded by a failed send -----

  lemma FailureSpreads(c0: Cluster, steps: seq<Step>, c: Cluster, a: NodeId, b: NodeId, v: nat)
      returns (longer: seq<Step>, c': Cluster)
    requires Leads(c0, steps, c, Failed) && a != b && NONE !in {a, b}
    requires Holding(c, a, a, v) && Holding(c, b, a, v) && b in c.nodes[a].conns
    requires b in c.nodes[a].members && c.nodes[a].members <= c.nodes[b].members
    ensures Leads(c0, longer, c', Failed)
    ensures Shows(c', a) && Shows(c', b)
  {
    hide Enabled, Apply, Leads, Fine;
    var s1 := PressFails(c, a, b, v);
    LeadsOn(c0, steps, c, s1, Failed);
    var c1 := Apply(c, s1);
    var s2 := GossipTick(a);
    GossipGoesOut(c1, a, b);
    FineAnyway(c1, s2, Failed);
    LeadsOn(c0, steps + [s1], c1, s2, Failed);
    var c2 := Apply(c1, s2);
    var s3 := Receive(Packet(a, b, Snapshot(c1.nodes[a])), true);
    ReceiveSyncNews(c2, b, s3.p, c1.nodes[a].members, b, v + 1, a, v);
    FineAnyway(c2, s3, Failed);
    LeadsOn(c0, steps + [s1] + [s2], c2, s3, Failed);
    longer, c' := steps + [s1] + [s2] + [s3], Apply(c2, s3);
  }

  /** A failed send alone. From the founding of any pool that two devices get to, without a death
      and with every hand-off delivered in time: one failed hand-off, and gossip of the owner field
      it leaves rewritten makes a second engine show the cursor. */
  lemma FailedHandoffTwoCursors(ids: set<NodeId>, a: NodeId, b: NodeId) returns (steps: seq<Step>)
    requires {a, b} <= ids && a != b && NONE !in {a, b}
    ensures Possible(Initial(ids, a), steps) && FineRun(Initial(ids, a), steps, Failed)
    ensures Shows(Exec(Initial(ids, a), steps), a) && Shows(Exec(Initial(ids, a), steps), b)
  {
    var c0 := Initial(ids, a);
    LeadsNowhere(c0, NoBreach);
    var first, c := OneJoins(c0, [], c0, a, b, {a}, {});
    first, c := OneRuns(c0, first, c, a, a, {a} + {b}, {} + {b});
    first, c := OneRuns(c0, first, c, b, a, {a} + {b}, {a});
    FineRunAnyway(c0, first, Failed);
    hide Possible, Exec, FineRun, Initial;
    var last, c' := FailureSpreads(c0, first, c, a, b, 1);
    steps := last;
  }

  // ----- giving up on the living -----

  /** Giving up on a living owner alone. From the founding of any pool that two devices get to, with
      every hand-off in time and every send successful: the follower gives up on the owner, elects
      itself, and both show the cursor. */
  lemma GivingUpTwoCursors(ids: set<NodeId>, a: NodeId, b: NodeId) returns (steps: seq<Step>)
    requires {a, b} <= ids && a != b && NONE !in {a, b}
    ensures Possible(Initial(ids, a), steps) && FineRun(Initial(ids, a), steps, Disloyal)
    ensures Shows(Exec(Initial(ids, a), steps), a) && Shows(Exec(Initial(ids, a), steps), b)
  {
    var c0 := Initial(ids, a);
    LeadsNowhere(c0, NoBreach);
    var first, c := OneJoins(c0, [], c0, a, b, {a}, {});
    first, c := OneRuns(c0, first, c, a, a, {a} + {b}, {} + {b});
    first, c := OneRuns(c0, first, c, b, a, {a} + {b}, {a});
    FineRunAnyway(c0, first, Disloyal);
    assert c.nodes[b].members - {a} == {b};
    hide Possible, Exec, FineRun, Initial;
    SurvivorElectsItself(c, b, a, 1);
    LeadsOn(c0, first, c, Drop(b, a), Disloyal);
    steps := first + [Drop(b, a)];
  }

  lemma SurvivorElectsItself(c: Cluster, n: NodeId, x: NodeId, v: nat)
    requires Up(c, n) && n != x && c.nodes[n].activeID == x && c.nodes[n].version == v
    requires IsLowest(n, c.nodes[n].members - {x})
    ensures var st := Drop(n, x);
      Enabled(c, st) && Safe(c, st) && FailoverStep(st, x) && Fine(c, st, Disloyal)
    ensures var c' := Apply(c, Drop(n, x));
      && Shows(c', n) && c'.dead == c.dead
      && (forall m | m in c.nodes && m != n :: m in c'.nodes && c'.nodes[m] == c.nodes[m])
      && (forall p | p in c.net :: p in c'.net)
  {
    LowestUnique(n, c.nodes[n].members - {x});
  }

  /** From here on one cursor survives every safe run in which nobody gives up on its owner. */
  ghost predicate StaysHealthy(c: Cluster) {
    forall after: seq<Step> | Possible(c, after) && LoyalRun(c, after) && SafeRun(c, after) :: HealthyRun(c, after)
  }

  lemma GivingUpOnOwnerBreaks(c: Cluster, x: NodeId, v: nat, n: NodeId)
    requires Shows(c, x) && c.nodes[x].version == v && n != x && Enabled(c, Drop(n, x))
    requires c.nodes[n].activeID == x && c.nodes[n].version == v && n in c.nodes[n].members
    ensures !Healthy(Apply(c, Drop(n, x)))
  {
    var c' := Apply(c, Drop(n, x));
    assert n in c.nodes[n].members - {x};
    assert Alive(c', n) && c'.nodes[n].version == v + 1 && Shows(c', x) && c'.nodes[x].version == v;
  }

  /** Giving up on the living, exactly. In a settled pool whose owner's engine runs, a device gives up
      on a living peer. One cursor survives every safe run that can follow, in which nobody gives up on
      its owner, if and only if the peer was not the owner. */
  lemma GivingUpIff(ids: set<NodeId>, founder: NodeId, before: seq<Step>, x: NodeId, v: nat, n: NodeId, peer: NodeId)
    requires founder in ids && NONE !in ids
    requires Possible(Initial(ids, founder), before)
    requires LoyalRun(Initial(ids, founder), before) && SafeRun(Initial(ids, founder), before)
    requires var c := Exec(Initial(ids, founder), before);
      Settled(c, x, v) && c.nodes[x].running && Enabled(c, Drop(n, peer))
    ensures StaysHealthy(Apply(Exec(Initial(ids, founder), before), Drop(n, peer))) <==> peer != x
  {
    hide LoggedRun, HeldRun, Initial, LoyalRun, Token;
    var c := Exec(Initial(ids, founder), before);
    var log := OneOwnerPerVersion(ids, founder, before);
    GivingUp(c, log, x, v, n, peer);
  }

  lemma GivingUp(c: Cluster, log: seq<NodeId>, x: NodeId, v: nat, n: NodeId, peer: NodeId)
    requires Owned(c, log, PLAIN) && Settled(c, x, v) && c.nodes[x].running && Enabled(c, Drop(n, peer))
    ensures StaysHealthy(Apply(c, Drop(n, peer))) <==> peer != x
  {
    var st := Drop(n, peer);
    assert Alive(c, n) && Alive(c, x) && Names(c, n, x, v) && Names(c, x, x, v);
    OwnedIsOnLog(c, log, PLAIN, x);
    if peer == x {
      assert n in Survivors(c) && n in c.nodes[n].members;
      GivingUpOnOwnerBreaks(c, x, v, n);
      var none: seq<Step> := [];
      assert Possible(Apply(c, st), none) && !HealthyRun(Apply(c, st), none);
    } else {
      assert Loyal(c, st) && Safe(c, st);
      LoyalIsOrderly(c, st, PLAIN);
      var log' := StepKeepsOwned(c, log, PLAIN, st);
      var c' := Apply(c, st);
      forall after: seq<Step> | Possible(c', after) && LoyalRun(c', after) && SafeRun(c', after)
        ensures HealthyRun(c', after)
      {
        OneCursorIffFrom(c', log', PLAIN, after);
      }
    }
  }

  // ----- a death during a hand-off -----

  /** The owner `x` has handed off to `z`, and the news is somewhere on its way. */
  ghost predicate Handing(c: Cluster, x: NodeId, z: NodeId, v: nat) {
    && Together(c, x) && x != z && Alive(c, z) && 1 <= v && Names(c, x, z, v + 1)
    && forall n | Alive(c, n) :: Names(c, n, x, v) || Names(c, n, z, v + 1)
  }

  ghost function AfterDeath(c: Cluster, x: NodeId, death: Step): Cluster
    requires Alive(c, x) && IsDeath(death, x)
  {
    Apply(c, death)
  }

  /** After the death of `x`, one cursor survives every safe run of the others. */
  ghost predicate Survives(c: Cluster, x: NodeId) {
    forall after: seq<Step> | Possible(c, after) && FailoverSteps(after, x) && SafeRun(c, after) :: HealthyRun(c, after)
  }

  lemma LastHandoffArrives(c: Cluster, z: NodeId, x: NodeId, v: nat, heir: NodeId, p: Packet)
    requires Up(c, z) && z != heir && c.nodes[z].activeID == x && c.nodes[z].version == v
    requires p in c.net && p.dst == z && p.msg == FocusHandoff(z, v + 1) && Shows(c, heir)
    ensures var st := Receive(p, true);
      Enabled(c, st) && Safe(c, st) && FailoverStep(st, x) && !Healthy(Apply(c, st))
  {
    var c' := Apply(c, Receive(p, true));
    assert Shows(c', z) && Shows(c', heir);
  }

  lemma LastOwnerRuns(c: Cluster, z: NodeId, x: NodeId, heir: NodeId)
    requires Up(c, z) && z != heir && c.nodes[z].activeID == z && !c.nodes[z].running && Shows(c, heir)
    ensures Enabled(c, Run(z)) && Safe(c, Run(z)) && FailoverStep(Run(z), x) && !Healthy(Apply(c, Run(z)))
  {
    var c' := Apply(c, Run(z));
    assert Shows(c', z) && Shows(c', heir);
  }

  /** The heir elects itself at the very version the hand-off carries; the hand-off's target shows the
      cursor already, or does once the hand-off arrives or its engine starts. */
  lemma TwoHeirs(c: Cluster, x: NodeId, z: NodeId, v: nat, heir: NodeId) returns (steps: seq<Step>)
    requires Up(c, heir) && Names(c, heir, x, v) && heir != x && IsLowest(heir, c.nodes[heir].members - {x})
    requires Up(c, z) && z != x && z != heir && Agrees(z, c.nodes[z])
    requires Names(c, z, z, v + 1) ||
      (Names(c, z, x, v) && exists p :: p in c.net && p.dst == z && p.msg == FocusHandoff(z, v + 1))
    ensures Possible(c, steps) && FailoverSteps(steps, x) && SafeRun(c, steps) && !HealthyRun(c, steps)
  {
    hide Enabled, Apply, Safe, FailoverStep;
    var s1 := Drop(heir, x);
    SurvivorElectsItself(c, heir, x, v);
    var c1 := Apply(c, s1);
    if c.nodes[z].version == v + 1 && c.nodes[z].running {
      assert Shows(c1, z) && Shows(c1, heir);
      steps := [s1];
      OneStepBreaks(c, s1, x);
    } else {
      hide Healthy;
      var s2;
      if c.nodes[z].version == v + 1 {
        s2 := Run(z);
        LastOwnerRuns(c1, z, x, heir);
      } else {
        var p :| p in c.net && p.dst == z && p.msg == FocusHandoff(z, v + 1);
        s2 := Receive(p, true);
        LastHandoffArrives(c1, z, x, v, heir, p);
      }
      OneStepBreaks(c1, s2, x);
      steps := [s1, s2];
      assert steps[1..] == [s2];
    }
  }

  lemma OneStepBreaks(c: Cluster, st: Step, x: NodeId)
    requires Enabled(c, st) && Safe(c, st) && FailoverStep(st, x) && !Healthy(Apply(c, st))
    ensures Possible(c, [st]) && FailoverSteps([st], x) && SafeRun(c, [st]) && !HealthyRun(c, [st])
  {
    hide Enabled, Apply, Safe, Healthy, FailoverStep;
    var none := [st][1..];
    assert none == [] && !HealthyRun(Apply(c, st), none);
  }

  lemma {:induction false} SafeFailover(c: Cluster, log: seq<NodeId>, su: Succession, x: NodeId, steps: seq<Step>)
    requires Owned(c, log, su) && Kin(c, x) && su.heir == Heir(c, x)
    requires Possible(c, steps) && FailoverSteps(steps, x) && SafeRun(c, steps)
    ensures HealthyRun(c, steps)
    decreases |steps|
  {
    hide Owned, Healthy, Safe, Enabled, Apply, Orderly, Move, Extends, Kin;
    OwnedIsHealthy(c, log, su);
    if steps != [] {
      FailoverIsOrderly(c, log, su, steps[0], x);
      var log' := StepKeepsOwned(c, log, su, steps[0]);
      StepKeepsKin(c, log, su, steps[0], x);
      assert forall i | 0 <= i < |steps[1..]| :: steps[1..][i] == steps[i + 1];
      SafeFailover(Apply(c, steps[0]), log', su, x, steps[1..]);
    }
  }

  lemma HandingTop(c: Cluster, log: seq<NodeId>, x: NodeId, z: NodeId, v: nat)
    requires Owned(c, log, PLAIN) && c.dead == {} && Handing(c, x, z, v)
    ensures |log| == v + 1 && OwnerAt(log, v + 1) == z
  {
    hide Real, Inherited, Agrees, Together;
    assert Alive(c, x) by { YIsAlive(c, x); }
    assert OnLog(z, v + 1, log, PLAIN);
    if |log| > 1 {
      assert OwnerAt(log, |log| - 1) in c.nodes && c.nodes[OwnerAt(log, |log| - 1)].version > |log| - 1;
    }
  }

  /** The succession to a death during a hand-off: survivors that missed it name a rival. */
  ghost function Rivalry(c: Cluster, x: NodeId, z: NodeId, v: nat): Succession
    requires Together(c, x)
  {
    Succession(Heir(c, x), v, if z == Heir(c, x) then 0 else v + 1)
  }

  lemma RivalIsInherited(c: Cluster, c': Cluster, log: seq<NodeId>, x: NodeId, z: NodeId, v: nat)
    requires Handing(c, x, z, v) && Dies(c, c', x) && |log| == v + 1 && OwnerAt(log, v + 1) == z
    requires z == Heir(c, x) || c.nodes[Heir(c, x)].version == v + 1
    ensures Inherited(c', log, Rivalry(c, x, z, v)) && Disowned(c', log, Rivalry(c, x, z, v))
  {
    var heir := Heir(c, x);
    assert Alive(c, heir) && heir != x;
    hide Together;
    assert forall n | Alive(c', n) :: Alive(c, n);
  }

  lemma DeathKeepsRival(c: Cluster, log: seq<NodeId>, x: NodeId, z: NodeId, v: nat, death: Step)
    requires Owned(c, log, PLAIN) && c.dead == {} && Handing(c, x, z, v) && IsDeath(death, x)
    requires z == Heir(c, x) || c.nodes[Heir(c, x)].version == v + 1
    ensures Enabled(c, death)
    ensures var c', su := Apply(c, death), Rivalry(c, x, z, v);
      Owned(c', log, su) && Kin(c', x) && su.heir == Heir(c', x)
  {
    assert Alive(c, x);
    hide Agrees, Real, Apply, Enabled, Together, AllOnLog, Retired, Inherited, Disowned, Kin;
    HandingTop(c, log, x, z, v);
    DeathIsQuiet(c, x, death);
    RealStep(c, death);
    var c' := Apply(c, death);
    DeathKeepsLog(c, c', log, PLAIN, Rivalry(c, x, z, v), x);
    RivalIsInherited(c, c', log, x, z, v);
    DeathKeepsKin(c, c', x);
    assert Survivors(c') - {x} == Survivors(c) - {x};
  }

  /** A death during a hand-off, exactly. The owner hands off to another device and dies, at any
      moment while the news is on its way. One cursor survives every safe run that can follow if and
      only if the hand-off went to the device that would be elected, or that device has heard. */
  lemma DeathDuringHandoffIff(ids: set<NodeId>, founder: NodeId, before: seq<Step>, x: NodeId, z: NodeId, v: nat,
      death: Step)
    requires founder in ids && NONE !in ids
    requires Possible(Initial(ids, founder), before)
    requires LoyalRun(Initial(ids, founder), before) && SafeRun(Initial(ids, founder), before)
    requires Handing(Exec(Initial(ids, founder), before), x, z, v) && IsDeath(death, x)
    ensures var c := Exec(Initial(ids, founder), before);
      Survives(AfterDeath(c, x, death), x) <==> z == Heir(c, x) || c.nodes[Heir(c, x)].version == v + 1
  {
    hide LoggedRun, HeldRun, Initial, LoyalRun, Handing;
    var c := Exec(Initial(ids, founder), before);
    var log := OneOwnerPerVersion(ids, founder, before);
    DeathDuringHandoff(c, log, x, z, v, death);
  }

  lemma DeathDuringHandoff(c: Cluster, log: seq<NodeId>, x: NodeId, z: NodeId, v: nat, death: Step)
    requires Owned(c, log, PLAIN) && Token(c, log) && c.dead == {} && Handing(c, x, z, v) && IsDeath(death, x)
    ensures Survives(AfterDeath(c, x, death), x) <==> z == Heir(c, x) || c.nodes[Heir(c, x)].version == v + 1
  {
    var heir := Heir(c, x);
    assert Alive(c, x) && Alive(c, heir) && heir != x;
    DeathIsQuiet(c, x, death);
    var c' := AfterDeath(c, x, death);
    if z == heir || c.nodes[heir].version == v + 1 {
      DeathKeepsRival(c, log, x, z, v, death);
      hide Owned, Kin, Possible, FailoverSteps, Handing, Apply;
      forall after: seq<Step> | Possible(c', after) && FailoverSteps(after, x) && SafeRun(c', after)
        ensures HealthyRun(c', after)
      {
        SafeFailover(c', log, Rivalry(c, x, z, v), x, after);
      }
    } else {
      hide Apply;
      var steps := HeirAndTarget(c, c', log, x, z, v);
    }
  }

  lemma HeirAndTarget(c: Cluster, c': Cluster, log: seq<NodeId>, x: NodeId, z: NodeId, v: nat)
      returns (steps: seq<Step>)
    requires Owned(c, log, PLAIN) && Token(c, log) && c.dead == {} && Handing(c, x, z, v)
    requires Dies(c, c', x) && forall p | p in c.net :: p in c'.net
    requires z != Heir(c, x) && c.nodes[Heir(c, x)].version != v + 1
    ensures Possible(c', steps) && FailoverSteps(steps, x) && SafeRun(c', steps) && !HealthyRun(c', steps)
  {
    var heir := Heir(c, x);
    assert Alive(c, heir) && heir != x;
    HandingTop(c, log, x, z, v);
    OwnedIsOnLog(c, log, PLAIN, z);
    hide Owned, Possible, SafeRun, HealthyRun, FailoverSteps, Forgotten;
    assert Up(c', heir) && Up(c', z) && c'.nodes[heir].members == Survivors(c);
    steps := TwoHeirs(c', x, z, v, heir);
  }

  /** A hand-off just begun in a settled pool is such a moment; then only the former condition is left. */
  lemma HandingBegins(c: Cluster, st: Step, x: NodeId, v: nat, z: NodeId)
    requires Settled(c, x, v) && c.dead == {} && Alive(c, z) && z != x
    requires Enabled(c, st) && HandsOff(c, st) && Safe(c, st) && Moves(st) && Mover(st) == x
    requires Move(c, st).state.activeID == z
    ensures Handing(Apply(c, st), x, z, v) && Heir(Apply(c, st), x) == Heir(c, x)
    ensures Apply(c, st).nodes[Heir(c, x)].version == v
  {
    assert Names(c, x, x, v);
    hide Settled, Together, Safe, HandsOff, Forgotten;
    HandoffMoves(c, st, x, v, z);
    assert Apply(c, st).nodes == c.nodes[x := Move(c, st).state] && Apply(c, st).dead == c.dead;
    hide Move, Enabled, Apply;
    StillTogether(c, Apply(c, st), x, v, z);
  }

  lemma HandoffMoves(c: Cluster, st: Step, x: NodeId, v: nat, z: NodeId)
    requires x in c.nodes && Names(c, x, x, v) && z != x
    requires Enabled(c, st) && HandsOff(c, st) && Safe(c, st) && Moves(st) && Mover(st) == x
    requires Move(c, st).state.activeID == z
    ensures var s, s' := c.nodes[x], Move(c, st).state;
      s'.members == s.members && s'.phase == s.phase && s'.version == v + 1
  {
    hide Safe, Enabled, HandsOff, Move;
    var to, ok := HandoffIsPerformed(c, st);
    SafeIsNotStranded(c, st, to, ok);
  }

  lemma StillTogether(c: Cluster, c': Cluster, x: NodeId, v: nat, z: NodeId)
    requires Settled(c, x, v) && c.dead == {} && Alive(c, z) && z != x
    requires c'.dead == c.dead && c'.nodes.Keys == c.nodes.Keys
    requires forall n | n in c.nodes && n != x :: c'.nodes[n] == c.nodes[n]
    requires c'.nodes[x].members == c.nodes[x].members && c'.nodes[x].phase == c.nodes[x].phase
    requires Names(c', x, z, v + 1)
    ensures Handing(c', x, z, v) && Heir(c', x) == Heir(c, x) && c'.nodes[Heir(c, x)].version == v
  {
    assert Survivors(c') == Survivors(c);
    assert forall n | Alive(c', n) :: Alive(c, n);
    assert Heir(c, x) in Survivors(c) - {x};
  }
}
