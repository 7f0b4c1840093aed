/** Motion whose reports arrive late: the recentring tracker against a window system that queues what
    it reports. A report made before a recentring and delivered after it is what the grace window is
    for; this module says exactly when the window is enough. */
module LateReports {
  import opened Motion

  /** A report on its way: where it saw the cursor, what of that was the hand's motion, and when it
      was made. */
  datatype Report = Report(p: Point, d: Point, made: int)

  /** Reports arrive in the order they were made. */
  datatype Desk = Desk(t: Tracker, queue: seq<Report>, clock: int)

  /** Hand: the hand moves the mouse; Deliver: the oldest report arrives; Warp and Switch are the
      engine's calls, which warps only while it shows the cursor. */
  datatype Act = Hand(d: Point, at: int) | Deliver(at: int) | Warp(p: Point, at: int) | Switch(enabled: bool, at: int)

  /** Whether the window system reports the program's own warps, too. */
  function EchoOf(echoes: bool, p: Point, at: int): seq<Report> {
    if echoes then [Report(p, ORIGIN, at)] else []
  }

  /** No report takes longer than `latency`. */
  predicate CanAct(k: Desk, a: Act, latency: nat) {
    k.clock <= a.at &&
    match a
    case Deliver(at) => k.queue != [] && at <= k.queue[0].made + latency
    case Warp(_, _) => k.t.passthrough
    case _ => true
  }

  /** Whether a report moves the cursor to the centre. */
  predicate Centres(sc: Screen, t: Tracker, p: Point, now: int) {
    !t.passthrough && now >= t.warpUntil && NearEdge(sc, p)
  }

  function Do(sc: Screen, echoes: bool, k: Desk, a: Act): Desk
    requires a.Deliver? ==> k.queue != []
  {
    match a
    case Hand(d, at) =>
      var p := k.t.cursor.Plus(d);
      Desk(k.t.(cursor := p), k.queue + [Report(p, d, at)], at)
    case Deliver(at) =>
      var r := k.queue[0];
      Desk(ReportedAt(sc, k.t, r.p, at, at).0,
           k.queue[1..] + if Centres(sc, k.t, r.p, at) then EchoOf(echoes, Center(sc), at) else [], at)
    case Warp(p, at) => Desk(k.t.(cursor := p, last := p), k.queue + EchoOf(echoes, p, at), at)
    case Switch(enabled, at) =>
      Desk(Switched(sc, k.t, enabled, at),
           k.queue + if k.t.passthrough && !enabled then EchoOf(echoes, Center(sc), at) else [], at)
  }

  predicate CanRun(sc: Screen, echoes: bool, k: Desk, acts: seq<Act>, latency: nat)
    decreases |acts|
  {
    acts == [] || (CanAct(k, acts[0], latency) && CanRun(sc, echoes, Do(sc, echoes, k, acts[0]), acts[1..], latency))
  }

  /** A report that is forwarded, outside the grace windows, is forwarded as the hand's own motion. */
  predicate Genuine(sc: Screen, k: Desk, a: Act)
    requires a.Deliver? ==> k.queue != []
  {
    a.Deliver? && !k.t.passthrough && a.at >= k.t.warpUntil ==>
      var r := k.queue[0];
      ReportedAt(sc, k.t, r.p, a.at, a.at).1 == if r.d == ORIGIN then [] else [By(r.d)]
  }

  predicate GenuineRun(sc: Screen, echoes: bool, k: Desk, acts: seq<Act>, latency: nat)
    requires CanRun(sc, echoes, k, acts, latency)
    decreases |acts|
  {
    acts == [] || (Genuine(sc, k, acts[0]) && GenuineRun(sc, echoes, Do(sc, echoes, k, acts[0]), acts[1..], latency))
  }

  /** A backend as it starts: showing the cursor, with nothing recorded and nothing on its way. */
  function Started(cursor: Point): Desk {
    Desk(Tracker(cursor, ORIGIN, 0, true), [], 0)
  }

  /** No false jump in any run with reports no later than `latency`. */
  ghost predicate NeverJumps(sc: Screen, echoes: bool, latency: nat) {
    forall cursor: Point, acts: seq<Act> | CanRun(sc, echoes, Started(cursor), acts, latency) ::
      GenuineRun(sc, echoes, Started(cursor), acts, latency)
  }

  /** From position `p` on, each report's motion leads from the report before it. */
  ghost predicate Chained(p: Point, queue: seq<Report>, cursor: Point)
    decreases |queue|
  {
    if queue == [] then p == cursor
    else p.Plus(queue[0].d) == queue[0].p && Chained(queue[0].p, queue[1..], cursor)
  }

  /** The first `n` reports are leftovers that will arrive in the grace window, the last of them an
      echo of the recentring; what follows is chained to it, or to the record if nothing is left. */
  ghost predicate Resyncs(k: Desk, n: nat) {
    && n <= |k.queue|
    && (forall i | 0 <= i < n :: k.queue[i].made + GRACE <= k.t.warpUntil)
    && Chained(if n == 0 then k.t.last else k.queue[n - 1].p, k.queue[n..], k.t.cursor)
  }

  ghost predicate InSync(k: Desk) {
    && (forall i | 0 <= i < |k.queue| :: k.queue[i].made <= k.clock)
    && (!k.t.passthrough ==> exists n: nat :: Resyncs(k, n))
  }

  lemma {:induction false} ChainGrows(p: Point, queue: seq<Report>, cursor: Point, r: Report)
    requires Chained(p, queue, cursor) && cursor.Plus(r.d) == r.p
    ensures Chained(p, queue + [r], r.p)
    decreases |queue|
  {
    if queue == [] {
      assert [r][1..] == [];
    } else {
      ChainGrows(queue[0].p, queue[1..], cursor, r);
      assert (queue + [r])[1..] == queue[1..] + [r];
    }
  }

  /** After a recentring with its echo on the way, all reports made so far are leftovers. */
  lemma RecentringResyncs(sc: Screen, t: Tracker, queue: seq<Report>, at: int)
    requires forall i | 0 <= i < |queue| :: queue[i].made <= at
    ensures var k := Desk(Recentred(sc, t, at), queue + [Report(Center(sc), ORIGIN, at)], at);
      Resyncs(k, |k.queue|)
  {
    var q := queue + [Report(Center(sc), ORIGIN, at)];
    assert q[|q|..] == [];
  }

  lemma HandKeepsSync(sc: Screen, k: Desk, d: Point, at: int)
    requires InSync(k) && k.clock <= at
    ensures InSync(Do(sc, true, k, Hand(d, at)))
  {
    var k' := Do(sc, true, k, Hand(d, at));
    if !k.t.passthrough {
      var n: nat :| Resyncs(k, n);
      var r := Report(k.t.cursor.Plus(d), d, at);
      ChainGrows(if n == 0 then k.t.last else k.queue[n - 1].p, k.queue[n..], k.t.cursor, r);
      assert k'.queue[n..] == k.queue[n..] + [r];
      assert Resyncs(k', n);
    }
  }

  lemma DeliverInGrace(sc: Screen, k: Desk, at: int, n: nat)
    requires !k.t.passthrough && at < k.t.warpUntil && k.queue != [] && Resyncs(k, n)
    ensures Resyncs(Do(sc, true, k, Deliver(at)), if n == 0 then 0 else n - 1)
  {
    var k' := Do(sc, true, k, Deliver(at));
    assert k'.queue == k.queue[1..];
    if n > 0 {
      assert k'.queue[n - 1..] == k.queue[n..];
    } else {
      assert k.queue[0..] == k.queue;
      assert k'.queue[0..] == k'.queue;
    }
  }

  lemma DeliverInSync(sc: Screen, k: Desk, at: int)
    requires !k.t.passthrough && at >= k.t.warpUntil && k.queue != [] && Resyncs(k, 0)
    ensures Genuine(sc, k, Deliver(at))
    ensures !Centres(sc, k.t, k.queue[0].p, at) ==> Resyncs(Do(sc, true, k, Deliver(at)), 0)
  {
    assert k.queue[0..] == k.queue;
    var r := k.queue[0];
    assert k.t.last.Plus(r.d) == r.p;
    assert r.p.Minus(k.t.last) == r.d;
    assert !Centres(sc, k.t, r.p, at) ==> k.queue[1..] + [] == k.queue[1..] && k.queue[1..][0..] == k.queue[1..];
  }

  lemma DeliverKeepsSync(sc: Screen, k: Desk, at: int, latency: nat)
    requires InSync(k) && CanAct(k, Deliver(at), latency) && latency < GRACE
    ensures InSync(Do(sc, true, k, Deliver(at))) && Genuine(sc, k, Deliver(at))
  {
    hide Chained;
    var k' := Do(sc, true, k, Deliver(at));
    assert forall i | 0 <= i < |k.queue[1..]| :: k.queue[1..][i] == k.queue[i + 1];
    if !k.t.passthrough {
      var n: nat :| Resyncs(k, n);
      if at < k.t.warpUntil {
        DeliverInGrace(sc, k, at, n);
      } else {
        assert n == 0;
        DeliverInSync(sc, k, at);
        if Centres(sc, k.t, k.queue[0].p, at) {
          RecentringResyncs(sc, k.t, k.queue[1..], at);
          assert Resyncs(k', |k'.queue|);
        }
      }
    }
  }

  lemma CallKeepsSync(sc: Screen, k: Desk, a: Act, latency: nat)
    requires InSync(k) && CanAct(k, a, latency) && (a.Warp? || a.Switch?)
    ensures InSync(Do(sc, true, k, a))
  {
    hide Chained;
    var k' := Do(sc, true, k, a);
    if a.Switch? && k.t.passthrough && !a.enabled {
      RecentringResyncs(sc, k.t.(passthrough := false), k.queue, a.at);
      assert Resyncs(k', |k'.queue|);
    } else if !k.t.passthrough {
      var n: nat :| Resyncs(k, n);
      assert a.Switch? && k'.queue == k.queue;
      assert !k'.t.passthrough ==> Resyncs(k', n);
    }
  }

  lemma {:induction false} SyncIsGenuine(sc: Screen, k: Desk, acts: seq<Act>, latency: nat)
    requires InSync(k) && CanRun(sc, true, k, acts, latency) && latency < GRACE
    ensures GenuineRun(sc, true, k, acts, latency)
    decreases |acts|
  {
    hide InSync, Genuine, Do;
    if acts != [] {
      var a := acts[0];
      match a {
        case Hand(d, at) => HandKeepsSync(sc, k, d, at);
        case Deliver(at) => DeliverKeepsSync(sc, k, at, latency);
        case Warp(_, _) => CallKeepsSync(sc, k, a, latency);
        case Switch(_, _) => CallKeepsSync(sc, k, a, latency);
      }
      OnlyDeliveriesMatter(sc, k, a);
      SyncIsGenuine(sc, Do(sc, true, k, a), acts[1..], latency);
    }
  }

  lemma OnlyDeliveriesMatter(sc: Screen, k: Desk, a: Act)
    ensures !a.Deliver? ==> Genuine(sc, k, a)
  {}

  // ----- runs that jump -----

  lemma Then(sc: Screen, echoes: bool, k: Desk, a: Act, rest: seq<Act>, latency: nat)
    requires CanAct(k, a, latency) && CanRun(sc, echoes, Do(sc, echoes, k, a), rest, latency)
    ensures CanRun(sc, echoes, k, [a] + rest, latency)
    ensures GenuineRun(sc, echoes, k, [a] + rest, latency) ==>
            GenuineRun(sc, echoes, Do(sc, echoes, k, a), rest, latency)
    ensures GenuineRun(sc, echoes, k, [a] + rest, latency) ==> Genuine(sc, k, a)
  {
    hide CanAct, Do, Genuine;
    assert ([a] + rest)[1..] == rest;
  }

  /** Far enough left to be near the edge from anywhere on the screen. */
  function Far(sc: Screen): Point {
    Point(-(sc.w as int) - MARGIN, 0)
  }

  const NUDGE := Point(1, 0)

  /** Forwarding, with the record at the centre, nothing on its way and the window over. */
  predicate Centred(sc: Screen, k: Desk) {
    !k.t.passthrough && k.t.cursor == k.t.last == Center(sc) && k.queue == [] && k.clock <= 100 && k.t.warpUntil <= 100
  }

  /** Two motions, the first of which makes the tracker recentre before the second is reported. */
  lemma TwoMotions(sc: Screen, echoes: bool, k: Desk, latency: nat) returns (k1: Desk, k2: Desk, k3: Desk)
    requires Centred(sc, k)
    ensures CanAct(k, Hand(Far(sc), 100), latency) && k1 == Do(sc, echoes, k, Hand(Far(sc), 100))
    ensures CanAct(k1, Hand(NUDGE, 100), latency) && k2 == Do(sc, echoes, k1, Hand(NUDGE, 100))
    ensures CanAct(k2, Deliver(100), latency) && k3 == Do(sc, echoes, k2, Deliver(100))
    ensures k3.t == Tracker(Center(sc), Center(sc), 130, false) && k3.clock == 100
    ensures k3.queue == [Report(Center(sc).Plus(Far(sc)).Plus(NUDGE), NUDGE, 100)] + EchoOf(echoes, Center(sc), 100)
  {
    k1 := Do(sc, echoes, k, Hand(Far(sc), 100));
    assert k1.queue == [Report(Center(sc).Plus(Far(sc)), Far(sc), 100)];
    k2 := Do(sc, echoes, k1, Hand(NUDGE, 100));
    k3 := Do(sc, echoes, k2, Deliver(100));
    assert k2.queue[1..] == [Report(Center(sc).Plus(Far(sc)).Plus(NUDGE), NUDGE, 100)];
  }

  /** A report that outlives the grace window is forwarded as a jump. */
  lemma OutlivedJumps(sc: Screen, k: Desk, latency: nat) returns (acts: seq<Act>)
    requires Centred(sc, k) && latency >= GRACE
    ensures CanRun(sc, true, k, acts, latency) && !GenuineRun(sc, true, k, acts, latency)
  {
    var k1, k2, k3 := TwoMotions(sc, true, k, latency);
    hide CanRun, GenuineRun;
    assert CanAct(k3, Deliver(130), latency) && !Genuine(sc, k3, Deliver(130));
    assert CanRun(sc, true, Do(sc, true, k3, Deliver(130)), [], latency) by { NoActs(sc, true, Do(sc, true, k3,
      Deliver(130)), latency); }
    Then(sc, true, k3, Deliver(130), [], latency);
    var r3 := [Deliver(130)] + [];
    Then(sc, true, k2, Deliver(100), r3, latency);
    var r2 := [Deliver(100)] + r3;
    Then(sc, true, k1, Hand(NUDGE, 100), r2, latency);
    var r1 := [Hand(NUDGE, 100)] + r2;
    Then(sc, true, k, Hand(Far(sc), 100), r1, latency);
    acts := [Hand(Far(sc), 100)] + r1;
  }

  /** Without the echo a report swallowed in the window leaves a wrong record behind. */
  lemma UnechoedJumps(sc: Screen, k: Desk, latency: nat) returns (acts: seq<Act>)
    requires Centred(sc, k)
    ensures CanRun(sc, false, k, acts, latency) && !GenuineRun(sc, false, k, acts, latency)
  {
    var k1, k2, k3 := TwoMotions(sc, false, k, latency);
    hide CanRun, GenuineRun;
    var stale := Center(sc).Plus(Far(sc)).Plus(NUDGE);
    assert CanAct(k3, Deliver(100), latency);
    var k4 := Do(sc, false, k3, Deliver(100));
    assert k4 == Desk(Tracker(Center(sc), stale, 130, false), [], 100);
    var k5 := Do(sc, false, k4, Hand(NUDGE, 200));
    assert k5.queue == [Report(Center(sc).Plus(NUDGE), NUDGE, 200)];
    assert CanAct(k5, Deliver(200), latency) && !Genuine(sc, k5, Deliver(200));
    NoActs(sc, false, Do(sc, false, k5, Deliver(200)), latency);
    Then(sc, false, k5, Deliver(200), [], latency);
    var r5 := [Deliver(200)] + [];
    Then(sc, false, k4, Hand(NUDGE, 200), r5, latency);
    var r4 := [Hand(NUDGE, 200)] + r5;
    Then(sc, false, k3, Deliver(100), r4, latency);
    var r3 := [Deliver(100)] + r4;
    Then(sc, false, k2, Deliver(100), r3, latency);
    var r2 := [Deliver(100)] + r3;
    Then(sc, false, k1, Hand(NUDGE, 100), r2, latency);
    var r1 := [Hand(NUDGE, 100)] + r2;
    Then(sc, false, k, Hand(Far(sc), 100), r1, latency);
    acts := [Hand(Far(sc), 100)] + r1;
  }

  lemma NoActs(sc: Screen, echoes: bool, k: Desk, latency: nat)
    ensures CanRun(sc, echoes, k, [], latency)
  {}

  lemma Jumps(sc: Screen, echoes: bool, latency: nat) returns (acts: seq<Act>)
    requires !echoes || latency >= GRACE
    ensures CanRun(sc, echoes, Started(ORIGIN), acts, latency) &&
            !GenuineRun(sc, echoes, Started(ORIGIN), acts, latency)
  {
    hide CanRun, GenuineRun;
    var k := Started(ORIGIN);
    var k1 := Do(sc, echoes, k, Switch(false, 0));
    assert k1.t == Tracker(Center(sc), Center(sc), 30, false);
    if echoes {
      assert k1.queue == [Report(Center(sc), ORIGIN, 0)];
      assert CanAct(k1, Deliver(0), latency);
      var k2 := Do(sc, true, k1, Deliver(0));
      assert k2 == Desk(k1.t, [], 0);
      var rest := OutlivedJumps(sc, k2, latency);
      Then(sc, true, k1, Deliver(0), rest, latency);
      Then(sc, true, k, Switch(false, 0), [Deliver(0)] + rest, latency);
      acts := [Switch(false, 0)] + ([Deliver(0)] + rest);
    } else {
      assert k1.queue == [];
      var rest := UnechoedJumps(sc, k1, latency);
      Then(sc, false, k, Switch(false, 0), rest, latency);
      acts := [Switch(false, 0)] + rest;
    }
  }

  /** Late reports, exactly. With reports up to `latency` late, every run forwards the hand's own
      motion and nothing else outside the grace windows, if and only if the window system reports the
      program's own warps and the latency is below the window. */
  lemma NeverJumpsIff(sc: Screen, echoes: bool, latency: nat)
    ensures NeverJumps(sc, echoes, latency) <==> echoes && latency < 30
  {
    if echoes && latency < GRACE {
      forall cursor: Point, acts: seq<Act> | CanRun(sc, true, Started(cursor), acts, latency)
        ensures GenuineRun(sc, true, Started(cursor), acts, latency)
      {
        SyncIsGenuine(sc, Started(cursor), acts, latency);
      }
    } else {
      var acts := Jumps(sc, echoes, latency);
    }
  }

  // ----- conservation with late reports -----

  function ActEmits(sc: Screen, k: Desk, a: Act): seq<Emitted>
    requires a.Deliver? ==> k.queue != []
  {
    if a.Deliver? then ReportedAt(sc, k.t, k.queue[0].p, a.at, a.at).1 else []
  }

  function LateEmissions(sc: Screen, echoes: bool, k: Desk, acts: seq<Act>, latency: nat): seq<Emitted>
    requires CanRun(sc, echoes, k, acts, latency)
    decreases |acts|
  {
    if acts == [] then []
    else ActEmits(sc, k, acts[0]) + LateEmissions(sc, echoes, Do(sc, echoes, k, acts[0]), acts[1..], latency)
  }

  /** The hand's motion in what an act delivers while it is to be forwarded; with `graceOnly`, only
      if it arrives in a grace window. */
  function ArrivingMotion(k: Desk, a: Act, graceOnly: bool): Point
    requires a.Deliver? ==> k.queue != []
  {
    if a.Deliver? && !k.t.passthrough && (!graceOnly || a.at < k.t.warpUntil) then k.queue[0].d else ORIGIN
  }

  function LateHandMotion(sc: Screen, echoes: bool, k: Desk, acts: seq<Act>, latency: nat, graceOnly: bool): Point
    requires CanRun(sc, echoes, k, acts, latency)
    decreases |acts|
  {
    if acts == [] then ORIGIN
    else ArrivingMotion(k, acts[0], graceOnly)
         .Plus(LateHandMotion(sc, echoes, Do(sc, echoes, k, acts[0]), acts[1..], latency, graceOnly))
  }

  lemma ActConserves(sc: Screen, k: Desk, a: Act)
    requires (a.Deliver? ==> k.queue != []) && Genuine(sc, k, a)
    ensures Forwarded(ActEmits(sc, k, a)).Plus(ArrivingMotion(k, a, true)) == ArrivingMotion(k, a, false)
  {
    hide Forwarded, NearEdge, Recentred;
    var p := if a.Deliver? then k.queue[0].p else ORIGIN;
    FewConserve(ActEmits(sc, k, a), p, ArrivingMotion(k, a, false), ArrivingMotion(k, a, true));
  }

  lemma LateRunUnfolds(sc: Screen, echoes: bool, k: Desk, acts: seq<Act>, latency: nat, graceOnly: bool)
    requires CanRun(sc, echoes, k, acts, latency) && acts != []
    ensures (acts[0].Deliver? ==> k.queue != []) && CanRun(sc, echoes, Do(sc, echoes, k, acts[0]), acts[1..], latency)
    ensures var next := Do(sc, echoes, k, acts[0]);
      && LateEmissions(sc, echoes, k, acts, latency) ==
         ActEmits(sc, k, acts[0]) + LateEmissions(sc, echoes, next, acts[1..], latency)
      && LateHandMotion(sc, echoes, k, acts, latency, graceOnly) ==
         ArrivingMotion(k, acts[0], graceOnly).Plus(LateHandMotion(sc, echoes, next, acts[1..], latency, graceOnly))
    ensures GenuineRun(sc, echoes, k, acts, latency) ==>
      Genuine(sc, k, acts[0]) && GenuineRun(sc, echoes, Do(sc, echoes, k, acts[0]), acts[1..], latency)
  {
    hide Do, ActEmits, ArrivingMotion, Genuine;
  }

  lemma {:induction false} GenuineConserves(sc: Screen, echoes: bool, k: Desk, acts: seq<Act>, latency: nat)
    requires CanRun(sc, echoes, k, acts, latency) && GenuineRun(sc, echoes, k, acts, latency)
    ensures Forwarded(LateEmissions(sc, echoes, k, acts, latency)).Plus(LateHandMotion(sc, echoes, k, acts, latency,
            true))
            == LateHandMotion(sc, echoes, k, acts, latency, false)
    decreases |acts|
  {
    hide *;
    if acts == [] {
      LateRunEnds(sc, echoes, k, acts, latency, []);
      PlusGroups(ORIGIN, ORIGIN, ORIGIN);
    } else {
      LateRunUnfolds(sc, echoes, k, acts, latency, true);
      LateRunUnfolds(sc, echoes, k, acts, latency, false);
      var next := Do(sc, echoes, k, acts[0]);
      var rest := LateEmissions(sc, echoes, next, acts[1..], latency);
      ActConserves(sc, k, acts[0]);
      GenuineConserves(sc, echoes, next, acts[1..], latency);
      ForwardedConcat(ActEmits(sc, k, acts[0]), rest);
      PlusSwaps(Forwarded(ActEmits(sc, k, acts[0])), Forwarded(rest), ArrivingMotion(k, acts[0], true),
                LateHandMotion(sc, echoes, next, acts[1..], latency, true));
    }
  }

  lemma LateRunEnds(sc: Screen, echoes: bool, k: Desk, acts: seq<Act>, latency: nat, out: seq<Emitted>)
    requires CanRun(sc, echoes, k, acts, latency) && acts == [] && out == []
    ensures LateEmissions(sc, echoes, k, acts, latency) == out && Forwarded(out) == ORIGIN
    ensures LateHandMotion(sc, echoes, k, acts, latency, true) == LateHandMotion(sc, echoes, k, acts, latency,
            false) == ORIGIN
  {}

  /** With warps reported and reports less than a grace window late, what is forwarded and what
      arrives in the windows make up the hand's whole motion. */
  lemma LateMotionIsConserved(sc: Screen, cursor: Point, acts: seq<Act>, latency: nat)
    requires CanRun(sc, true, Started(cursor), acts, latency) && latency < 30
    ensures Forwarded(LateEmissions(sc, true, Started(cursor), acts, latency))
              .Plus(LateHandMotion(sc, true, Started(cursor), acts, latency, true))
            == LateHandMotion(sc, true, Started(cursor), acts, latency, false)
  {
    SyncIsGenuine(sc, Started(cursor), acts, latency);
    GenuineConserves(sc, true, Started(cursor), acts, latency);
  }
}
