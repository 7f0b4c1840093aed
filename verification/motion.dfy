/** The recentring tracker that turns absolute cursor positions into forwarded motion on Linux. Times
    are in milliseconds. */
module Motion {

  // internal/input/input_linux.go: 30 ms and 100 pixels
  const GRACE: int := 30
  const MARGIN: int := 100

  datatype Screen = Screen(w: nat, h: nat)

  datatype Point = Point(x: int, y: int) {
    function Plus(q: Point): Point {
      Point(x + q.x, y + q.y)
    }

    function Minus(q: Point): Point {
      Point(x - q.x, y - q.y)
    }
  }

  const ORIGIN := Point(0, 0)

  function Center(sc: Screen): Point {
    Point(sc.w / 2, sc.h / 2)
  }

  predicate NearEdge(sc: Screen, p: Point) {
    p.x < MARGIN || p.y < MARGIN || p.x > sc.w - MARGIN || p.y > sc.h - MARGIN
  }

  /** `At` is an absolute position reported while this device shows the cursor, `By` a motion to
      forward. */
  datatype Emitted = At(p: Point) | By(d: Point)

  /** `cursor` is where the window system has the cursor, the rest is the backend's own record. */
  datatype Tracker = Tracker(cursor: Point, last: Point, warpUntil: int, passthrough: bool)

  function Recentred(sc: Screen, t: Tracker, now: int): Tracker {
    t.(cursor := Center(sc), last := Center(sc), warpUntil := now + GRACE)
  }

  /** One report of the cursor at `p`, wherever it is by now: the grace window is judged at `now`, a
      recentring made at `later`. */
  function ReportedAt(sc: Screen, t: Tracker, p: Point, now: int, later: int): (Tracker, seq<Emitted>) {
    if t.passthrough then (t, [At(p)])
    else
      var d, seen := p.Minus(t.last), t.(last := p);
      if now < t.warpUntil then (seen, [])
      else (if NearEdge(sc, p) then Recentred(sc, seen, later) else seen, if d == ORIGIN then [] else [By(d)])
  }

  /** A report that arrives before the cursor moves again. */
  function Reported(sc: Screen, t: Tracker, now: int, later: int): (Tracker, seq<Emitted>) {
    ReportedAt(sc, t, t.cursor, now, later)
  }

  function Switched(sc: Screen, t: Tracker, enabled: bool, now: int): Tracker {
    if t.passthrough == enabled then t
    else if enabled then t.(passthrough := true)
    else Recentred(sc, t.(passthrough := false), now)
  }

  class Backend {
    const sc: Screen
    var cursor: Point
    var last: Point
    var warpUntil: int
    var passthrough: bool
    var events: seq<Emitted>

    constructor (sc: Screen, cursor: Point, epoch: int)
      ensures this.sc == sc && events == [] && State() == Tracker(cursor, ORIGIN, epoch, true)
    {
      this.sc, this.cursor, last, warpUntil, passthrough, events := sc, cursor, ORIGIN, epoch, true, [];
    }

    function State(): Tracker
      reads this
    {
      Tracker(cursor, last, warpUntil, passthrough)
    }

    method Recenter(now: int)
      modifies this
      ensures State() == Recentred(sc, old(State()), now) && events == old(events)
      ensures cursor == last == Point(sc.w / 2, sc.h / 2) && warpUntil == now + 30 && passthrough == old(passthrough)
    {
      last := Center(sc);
      warpUntil := now + GRACE;
      cursor := Center(sc);
    }

    method OnMove(p: Point, now: int, later: int)
      modifies this
      ensures State() == ReportedAt(sc, old(State()), p, now, later).0
      ensures events == old(events) + ReportedAt(sc, old(State()), p, now, later).1
      ensures passthrough ==> State() == old(State()) && events == old(events) + [At(p)]
      ensures !passthrough && now < old(warpUntil) ==>
        last == p && cursor == old(cursor) && warpUntil == old(warpUntil) && events == old(events)
      ensures !passthrough && now >= old(warpUntil) ==>
        && (if p.x < 100 || p.y < 100 || p.x > sc.w - 100 || p.y > sc.h - 100
            then cursor == last == Point(sc.w / 2, sc.h / 2) && warpUntil == later + 30
            else cursor == old(cursor) && last == p && warpUntil == old(warpUntil))
        && events == old(events) + if p == old(last) then [] else [By(Point(p.x - old(last).x, p.y - old(last).y))]
    {
      if passthrough {
        events := events + [At(p)];
        return;
      }
      var d := p.Minus(last);
      last := p;
      if now < warpUntil {
        return;
      }
      if d != ORIGIN {
        events := events + [By(d)];
      }
      if NearEdge(sc, p) {
        Recenter(later);
      }
    }

    method WarpTo(p: Point)
      modifies this
      ensures State() == old(State()).(cursor := p, last := p) && events == old(events)
    {
      cursor := p;
      last := p;
    }

    method SetPassthrough(enabled: bool, now: int)
      modifies this
      ensures State() == Switched(sc, old(State()), enabled, now) && events == old(events)
      ensures passthrough == enabled
      ensures if enabled || !old(passthrough)
              then cursor == old(cursor) && last == old(last) && warpUntil == old(warpUntil)
              else cursor == last == Point(sc.w / 2, sc.h / 2) && warpUntil == now + 30
    {
      if passthrough == enabled {
        return;
      }
      passthrough := enabled;
      if !enabled {
        Recenter(now);
      }
    }
  }

  // ----- runs in which reports arrive at once -----

  /** Moved: the hand moves the mouse by `d` and the hook reports it; Echo: the hook reports the
      cursor though nothing moved it but the program; Warped and Set are the calls of the engine. */
  datatype Event =
    | Moved(d: Point, now: int, later: int)
    | Echo(now: int, later: int)
    | Warped(p: Point, now: int, later: int)
    | Set(enabled: bool, now: int, later: int)

  function Step(sc: Screen, t: Tracker, e: Event): (Tracker, seq<Emitted>) {
    match e
    case Moved(d, now, later) => Reported(sc, t.(cursor := t.cursor.Plus(d)), now, later)
    case Echo(now, later) => Reported(sc, t, now, later)
    case Warped(p, _, _) => (t.(cursor := p, last := p), [])
    case Set(enabled, now, later) => (Switched(sc, t, enabled, later), [])
  }

  function Exec(sc: Screen, t: Tracker, run: seq<Event>): Tracker
    decreases |run|
  {
    if run == [] then t else Exec(sc, Step(sc, t, run[0]).0, run[1..])
  }

  function Emissions(sc: Screen, t: Tracker, run: seq<Event>): seq<Emitted>
    decreases |run|
  {
    if run == [] then [] else Step(sc, t, run[0]).1 + Emissions(sc, Step(sc, t, run[0]).0, run[1..])
  }

  predicate InOrder(run: seq<Event>) {
    && (forall i | 0 <= i < |run| :: run[i].now <= run[i].later)
    && (forall i, j | 0 <= i < j < |run| :: run[i].later <= run[j].now)
  }

  /** While motion is forwarded, the backend knows where the cursor is. */
  predicate Tracks(t: Tracker) {
    !t.passthrough ==> t.last == t.cursor
  }

  lemma StepTracks(sc: Screen, t: Tracker, e: Event)
    requires Tracks(t)
    ensures Tracks(Step(sc, t, e).0)
  {}

  // ----- conservation -----

  function Motion(e: Emitted): Point {
    if e.By? then e.d else ORIGIN
  }

  /** The total of the forwarded motion in a list of emitted events. */
  function Forwarded(out: seq<Emitted>): Point {
    if out == [] then ORIGIN
    else Motion(out[0]).Plus(Forwarded(out[1..]))
  }

  function HandMove(t: Tracker, e: Event, graceOnly: bool): Point {
    if e.Moved? && !t.passthrough && (!graceOnly || e.now < t.warpUntil) then e.d else ORIGIN
  }

  /** The total of the hand's motion in a run while it was to be forwarded, and of the part of it
      made in a grace window. */
  function HandMotion(sc: Screen, t: Tracker, run: seq<Event>, graceOnly: bool): Point
    decreases |run|
  {
    if run == [] then ORIGIN
    else HandMove(t, run[0], graceOnly).Plus(HandMotion(sc, Step(sc, t, run[0]).0, run[1..], graceOnly))
  }

  lemma PlusGroups(a: Point, b: Point, c: Point)
    ensures a.Plus(b).Plus(c) == a.Plus(b.Plus(c)) && ORIGIN.Plus(a) == a == a.Plus(ORIGIN)
  {}

  lemma PlusSwaps(a: Point, b: Point, c: Point, d: Point)
    ensures a.Plus(b).Plus(c.Plus(d)) == a.Plus(c).Plus(b.Plus(d))
  {}

  lemma {:induction false} ForwardedConcat(a: seq<Emitted>, b: seq<Emitted>)
    ensures Forwarded(a + b) == Forwarded(a).Plus(Forwarded(b))
  {
    if a == [] {
      assert a + b == b;
      PlusGroups(Forwarded(b), ORIGIN, ORIGIN);
    } else {
      hide *;
      assert (a + b)[1..] == a[1..] + b && (a + b)[0] == a[0];
      ForwardedFirst(a);
      ForwardedFirst(a + b);
      ForwardedConcat(a[1..], b);
      PlusGroups(Motion(a[0]), Forwarded(a[1..]), Forwarded(b));
    }
  }

  lemma ForwardedFirst(out: seq<Emitted>)
    ensures out != [] ==> Forwarded(out) == Motion(out[0]).Plus(Forwarded(out[1..]))
  {}

  lemma StepEmits(sc: Screen, t: Tracker, e: Event)
    requires Tracks(t)
    ensures var out, all, grace := Step(sc, t, e).1, HandMove(t, e, false), HandMove(t, e, true);
      if all != grace then out == [By(all)] && grace == ORIGIN else out == [] || out == [At(Step(sc, t, e).0.cursor)]
  {
    hide Recentred, NearEdge;
  }

  lemma FewConserve(out: seq<Emitted>, p: Point, all: Point, grace: Point)
    requires if all != grace then out == [By(all)] && grace == ORIGIN else out == [] || out == [At(p)]
    ensures Forwarded(out).Plus(grace) == all
  {
    hide Forwarded;
    ForwardedFew();
  }

  /** One event: what it forwards and what it swallows make up the hand's motion in it. */
  lemma StepConserves(sc: Screen, t: Tracker, e: Event)
    requires Tracks(t)
    ensures Forwarded(Step(sc, t, e).1).Plus(HandMove(t, e, true)) == HandMove(t, e, false)
  {
    hide *;
    StepEmits(sc, t, e);
    FewConserve(Step(sc, t, e).1, Step(sc, t, e).0.cursor, HandMove(t, e, false), HandMove(t, e, true));
  }

  lemma ForwardedFew()
    ensures Forwarded([]) == ORIGIN
    ensures forall p :: Forwarded([At(p)]) == ORIGIN && Forwarded([By(p)]) == p
  {
    forall p ensures Forwarded([At(p)]) == ORIGIN && Forwarded([By(p)]) == p {
      assert [At(p)][1..] == [] && [By(p)][1..] == [];
    }
  }

  lemma RunEnds(sc: Screen, t: Tracker, run: seq<Event>, out: seq<Emitted>)
    requires run == [] && out == []
    ensures Emissions(sc, t, run) == out && Forwarded(out) == ORIGIN
    ensures HandMotion(sc, t, run, true) == HandMotion(sc, t, run, false) == ORIGIN
  {}

  lemma RunUnfolds(sc: Screen, t: Tracker, run: seq<Event>, graceOnly: bool)
    requires run != []
    ensures var next := Step(sc, t, run[0]);
      && Emissions(sc, t, run) == next.1 + Emissions(sc, next.0, run[1..])
      && HandMotion(sc, t, run, graceOnly) == HandMove(t, run[0], graceOnly).Plus(HandMotion(sc, next.0, run[1..],
        graceOnly))
  {
    hide Step, HandMove;
  }

  /** What is forwarded and what the grace windows swallow make up the hand's whole motion: no
      recentring, echo or warp is ever forwarded as motion, and none is lost outside the windows. */
  lemma {:induction false} MotionIsConserved(sc: Screen, t: Tracker, run: seq<Event>)
    requires Tracks(t)
    ensures Forwarded(Emissions(sc, t, run)).Plus(HandMotion(sc, t, run, true)) == HandMotion(sc, t, run, false)
    decreases |run|
  {
    hide *;
    if run == [] {
      RunEnds(sc, t, run, []);
      PlusGroups(ORIGIN, ORIGIN, ORIGIN);
    } else {
      var next := Step(sc, t, run[0]);
      StepTracks(sc, t, run[0]);
      StepConserves(sc, t, run[0]);
      MotionIsConserved(sc, next.0, run[1..]);
      RunUnfolds(sc, t, run, true);
      RunUnfolds(sc, t, run, false);
      ForwardedConcat(next.1, Emissions(sc, next.0, run[1..]));
      PlusSwaps(Forwarded(next.1), Forwarded(Emissions(sc, next.0, run[1..])),
                HandMove(t, run[0], true), HandMotion(sc, next.0, run[1..], true));
    }
  }

  // ----- what is reported in which mode -----

  predicate NoSwitch(run: seq<Event>) {
    forall i | 0 <= i < |run| :: !run[i].Set?
  }

  /** The positions a cursor takes that nothing but the hand and the program's warps move. */
  function Positions(cursor: Point, run: seq<Event>): seq<Emitted>
    decreases |run|
  {
    if run == [] then []
    else match run[0]
      case Moved(d, _, _) => [At(cursor.Plus(d))] + Positions(cursor.Plus(d), run[1..])
      case Echo(_, _) => [At(cursor)] + Positions(cursor, run[1..])
      case Warped(p, _, _) => Positions(p, run[1..])
      case Set(_, _, _) => Positions(cursor, run[1..])
  }

  lemma {:induction false} OnReportsPositions(sc: Screen, t: Tracker, run: seq<Event>)
    requires NoSwitch(run) && t.passthrough
    ensures Emissions(sc, t, run) == Positions(t.cursor, run)
    decreases |run|
  {
    if run != [] { OnReportsPositions(sc, Step(sc, t, run[0]).0, run[1..]); }
  }

  lemma {:induction false} OffForwardsOnly(sc: Screen, t: Tracker, run: seq<Event>)
    requires NoSwitch(run) && !t.passthrough
    ensures forall e | e in Emissions(sc, t, run) :: e.By?
    decreases |run|
  {
    if run != [] { OffForwardsOnly(sc, Step(sc, t, run[0]).0, run[1..]); }
  }

  lemma {:induction false} EmissionsConcat(sc: Screen, t: Tracker, a: seq<Event>, b: seq<Event>)
    ensures Emissions(sc, t, a + b) == Emissions(sc, t, a) + Emissions(sc, Exec(sc, t, a), b)
    decreases |a|
  {
    hide Step;
    if a == [] {
      assert a + b == b;
    } else {
      EmissionsConcat(sc, Step(sc, t, a[0]).0, a[1..], b);
      assert (a + b)[1..] == a[1..] + b;
    }
  }

  /** The switch ends as asked, whatever went before. From a call that switches passthrough on to the
      next call every report is emitted as the position the hand and the warps have led to, the call
      itself having moved nothing; from one that switches it off none is emitted as a position. */
  lemma PassthroughAsAsked(sc: Screen, t: Tracker, before: seq<Event>, call: Event, after: seq<Event>)
    requires call.Set? && NoSwitch(after)
    ensures var s, was := Exec(sc, t, before), Emissions(sc, t, before);
      var out := Emissions(sc, t, before + ([call] + after));
      && Exec(sc, s, [call]).passthrough == call.enabled
      && was <= out
      && if call.enabled then out[|was|..] == Positions(s.cursor, after) else forall e | e in out[|was|..] :: e.By?
  {
    var s := Exec(sc, t, before);
    var s' := Step(sc, s, call).0;
    EmissionsConcat(sc, t, before, [call] + after);
    assert ([call] + after)[1..] == after && [call][1..] == [];
    assert Emissions(sc, s, [call] + after) == Emissions(sc, s', after);
    assert Exec(sc, s, [call]) == s' by { assert Exec(sc, s', [call][1..]) == s'; }
    if call.enabled { OnReportsPositions(sc, s', after); } else { OffForwardsOnly(sc, s', after); }
  }

  // ----- how often it recentres -----

  predicate Recentres(sc: Screen, t: Tracker, e: Event) {
    match e
    case Set(enabled, _, _) => !enabled && t.passthrough
    case Warped(_, _, _) => false
    case Moved(d, now, _) => !t.passthrough && now >= t.warpUntil && NearEdge(sc, t.cursor.Plus(d))
    case Echo(now, _) => !t.passthrough && now >= t.warpUntil && NearEdge(sc, t.cursor)
  }

  lemma {:induction false} GraceLasts(sc: Screen, t: Tracker, run: seq<Event>, until: int)
    requires InOrder(run) && t.warpUntil >= until
    requires forall i | 0 <= i < |run| :: run[i].now + GRACE >= until
    ensures Exec(sc, t, run).warpUntil >= until
    decreases |run|
  {
    if run != [] {
      GraceLasts(sc, Step(sc, t, run[0]).0, run[1..], until);
    }
  }

  lemma {:induction false} ExecConcat(sc: Screen, t: Tracker, a: seq<Event>, b: seq<Event>)
    ensures Exec(sc, t, a + b) == Exec(sc, Exec(sc, t, a), b)
    decreases |a|
  {
    if a == [] {
      assert a + b == b;
    } else {
      ExecConcat(sc, Step(sc, t, a[0]).0, a[1..], b);
      assert (a + b)[1..] == a[1..] + b;
    }
  }

  /** A report recentres the cursor no sooner than a whole grace window after the recentring
      before it. */
  lemma RecentringsAreSpaced(sc: Screen, t: Tracker, run: seq<Event>, i: nat, j: nat)
    requires InOrder(run) && i < j < |run|
    requires Recentres(sc, Exec(sc, t, run[..i]), run[i])
    requires Recentres(sc, Exec(sc, t, run[..j]), run[j]) && !run[j].Set?
    ensures run[j].now >= run[i].later + 30
  {
    var s := Step(sc, Exec(sc, t, run[..i]), run[i]).0;
    assert s.warpUntil == run[i].later + GRACE;
    GraceLasts(sc, s, run[i + 1..j], run[i].later + GRACE);
    assert run[..j] == run[..i] + ([run[i]] + run[i + 1..j]);
    ExecConcat(sc, t, run[..i], [run[i]] + run[i + 1..j]);
    ExecConcat(sc, Exec(sc, t, run[..i]), [run[i]], run[i + 1..j]);
    assert Exec(sc, Exec(sc, t, run[..i]), [run[i]]) == s;
  }

  // ----- where it leaves the cursor -----

  /** Every report outside a grace window leaves the cursor away from the edges, exactly when the
      screen is large enough for its centre to be. */
  ghost predicate KeepsAway(sc: Screen) {
    forall t: Tracker, e: Event | !t.passthrough && (e.Moved? || e.Echo?) && e.now >= t.warpUntil ::
      !NearEdge(sc, Step(sc, t, e).0.cursor)
  }

  lemma KeepsAwayIff(sc: Screen)
    ensures KeepsAway(sc) <==> sc.w >= 200 && sc.h >= 200
  {
    if sc.w < 2 * MARGIN || sc.h < 2 * MARGIN {
      var t, e := Tracker(Center(sc), Center(sc), 0, false), Echo(0, 0);
      assert NearEdge(sc, Step(sc, t, e).0.cursor);
    }
  }
}
