/** The failure detector: how slow a peer may answer without being given up on, and how soon a
    silent one is. One device watching one peer, from the moment the connection is registered. */
module Heartbeat {
  import opened Ids
  import Device

  // internal/pool/pool.go: 2 s
  const TICK: int := 2000

  /** A tick pings the peer and then reaps it if it is stale; anything heard is noted. */
  datatype Event = Tick(at: int) | Heard(at: int)

  predicate InOrder(run: seq<Event>, start: int) {
    && (forall i | 0 <= i < |run| :: start <= run[i].at)
    && (forall i, j | 0 <= i < j < |run| :: run[i].at <= run[j].at)
  }

  function TickTime(first: int, j: nat): int {
    first + TICK * j
  }

  /** The ticker fires at `first`, `first + TICK`, ... and at no other time. */
  ghost predicate Ticking(run: seq<Event>, start: int, first: int) {
    && start < first <= start + TICK
    && (forall i | 0 <= i < |run| && run[i].Tick? :: exists j: nat :: run[i].at == TickTime(first, j))
    && (forall i: nat, j: nat | i < |run| && run[i].at > TickTime(first, j) :: TickBefore(run, i, TickTime(first, j)))
  }

  ghost predicate TickBefore(run: seq<Event>, i: nat, at: int)
    requires i <= |run|
  {
    exists m :: 0 <= m < i && run[m] == Tick(at)
  }

  /** Every ping is answered within `rtt`, as far as the run extends. */
  ghost predicate Answers(run: seq<Event>, rtt: int) {
    forall i: nat, k: nat | i < k < |run| && run[i].Tick? && run[k].at > run[i].at + rtt :: AnswerBetween(run, i, k)
  }

  ghost predicate AnswerBetween(run: seq<Event>, i: nat, k: nat)
    requires i < k < |run|
  {
    exists m :: i < m < k && run[m].Heard?
  }

  /** When the peer was last heard before event `i`. */
  function LastSeen(run: seq<Event>, start: int, i: nat): int
    requires i <= |run|
  {
    if i == 0 then start
    else if run[i - 1].Heard? then run[i - 1].at
    else LastSeen(run, start, i - 1)
  }

  /** Event `i` is a tick that finds the peer stale. */
  ghost predicate Reaps(run: seq<Event>, start: int, i: nat)
    requires i < |run|
  {
    run[i].Tick? && Device.IsStale(LastSeen(run, start, i), run[i].at)
  }

  /** What the heartbeat of module Device lists as silent is what is reaped here: of a device that has
      noted every sign of life of the peer, the tick gives up on the peer exactly at a tick that reaps
      it, and what it noted is exactly the latest sign of life. */
  lemma {:induction false} TickReaps(run: seq<Event>, start: int, i: nat, seen: map<NodeId, int>, peer: NodeId)
    requires InOrder(run, start) && i < |run| && run[i].Tick?
    requires peer in seen && seen[peer] == LastSeen(run, start, i)
    ensures Reaps(run, start, i) <==> run[i].at - seen[peer] > 7000
    ensures seen[peer] == start || exists k :: 0 <= k < i && run[k] == Heard(seen[peer])
    ensures start <= seen[peer] && forall k | 0 <= k < i && run[k].Heard? :: run[k].at <= seen[peer]
  {
    LatestSign(run, start, i);
  }

  lemma {:induction false} LatestSign(run: seq<Event>, start: int, i: nat)
    requires InOrder(run, start) && i <= |run|
    ensures var t := LastSeen(run, start, i);
      && (t == start || exists k :: 0 <= k < i && run[k] == Heard(t))
      && start <= t && forall k | 0 <= k < i && run[k].Heard? :: run[k].at <= t
    decreases i
  {
    if i > 0 {
      LatestSign(run, start, i - 1);
      if run[i - 1].Heard? { assert run[i - 1] == Heard(run[i - 1].at); }
    }
  }

  lemma {:induction false} SeenSince(run: seq<Event>, start: int, i: nat, m: nat)
    requires InOrder(run, start) && m < i <= |run| && run[m].Heard?
    ensures LastSeen(run, start, i) >= run[m].at
    decreases i
  {
    if m < i - 1 { SeenSince(run, start, i - 1, m); }
  }

  lemma {:induction false} SeenSinceStart(run: seq<Event>, start: int, i: nat)
    requires InOrder(run, start) && i <= |run|
    ensures LastSeen(run, start, i) >= start
    decreases i
  {
    if i > 0 { SeenSinceStart(run, start, i - 1); }
  }

  /** A run in which every ping is answered in less than six seconds reaps nobody. */
  lemma PromptIsSpared(run: seq<Event>, start: int, first: int, rtt: int, k: nat)
    requires InOrder(run, start) && Ticking(run, start, first) && Answers(run, rtt) && rtt < 3 * TICK
    requires k < |run|
    ensures !Reaps(run, start, k)
  {
    if run[k].Tick? {
      SeenSinceStart(run, start, k);
      var j: nat :| run[k].at == TickTime(first, j);
      if j >= 3 {
        assert run[k].at > TickTime(first, j - 3) && TickBefore(run, k, TickTime(first, j - 3));
        var i :| 0 <= i < k && run[i] == Tick(TickTime(first, j - 3));
        assert AnswerBetween(run, i, k);
        var m :| i < m < k && run[m].Heard?;
        SeenSince(run, start, k, m);
      }
    }
  }

  /** Answers that may take six seconds can come one late tick too late. */
  function SlowRun(): seq<Event> {
    [Tick(2000), Heard(2000), Tick(4000), Tick(6000), Tick(8000), Tick(10000)]
  }

  lemma SlowRunTicks()
    ensures Ticking(SlowRun(), 0, TICK)
  {
    var run := SlowRun();
    forall i | 0 <= i < |run| && run[i].Tick? ensures exists j: nat :: run[i].at == TickTime(TICK, j) {
      var j: nat := if i == 0 then 0 else i - 1;
      assert run[i].at == TickTime(TICK, j);
    }
    forall i: nat, j: nat | i < |run| && run[i].at > TickTime(TICK, j) ensures TickBefore(run, i, TickTime(TICK, j)) {
      var m := if j == 0 then 0 else j + 1;
      assert run[m] == Tick(TickTime(TICK, j)) && m < i;
    }
  }

  lemma SlowRunReaps(rtt: int)
    requires rtt >= 3 * TICK
    ensures InOrder(SlowRun(), 0) && Answers(SlowRun(), rtt) && Reaps(SlowRun(), 0, 5)
  {
    var run := SlowRun();
    forall i: nat, k: nat | i < k < |run| && run[i].Tick? &&
      run[k].at > run[i].at + rtt ensures AnswerBetween(run, i, k) {
      assert i == 0 && k == 5 && run[1].Heard?;
    }
    assert LastSeen(run, 0, 3) == LastSeen(run, 0, 2) == 2000;
    assert LastSeen(run, 0, 5) == LastSeen(run, 0, 4) == LastSeen(run, 0, 3);
  }

  ghost predicate NeverReaps(rtt: int) {
    forall run, start, first, k: nat |
      InOrder(run, start) && Ticking(run, start, first) && Answers(run, rtt) && k < |run| :: !Reaps(run, start, k)
  }

  /** The detector spares every peer whose pings are answered within a bound exactly when the bound
      is under six seconds: the limit of seven is only looked at every two. */
  lemma SparedIff(rtt: int)
    ensures NeverReaps(rtt) <==> rtt < 6000
  {
    if rtt < 3 * TICK {
      forall run, start, first, k: nat
        | InOrder(run, start) && Ticking(run, start, first) && Answers(run, rtt) && k < |run|
        ensures !Reaps(run, start, k)
      {
        PromptIsSpared(run, start, first, rtt, k);
      }
    } else {
      SlowRunTicks();
      SlowRunReaps(rtt);
    }
  }

  lemma {:induction false} SilentSince(run: seq<Event>, start: int, m: nat, i: nat)
    requires m <= i <= |run| && forall k | m <= k < i :: run[k].Tick?
    ensures LastSeen(run, start, i) == LastSeen(run, start, m)
    decreases i
  {
    if i > m { SilentSince(run, start, m, i - 1); }
  }

  /** From event `m` on only ticks: the peer has been silent since `t`, when it was last heard or,
      if it never was, registered. */
  ghost predicate SilentFrom(run: seq<Event>, start: int, m: nat, t: int) {
    && m <= |run| && (forall k | m <= k < |run| :: run[k].Tick?)
    && if m == 0 then t == start else run[m - 1] == Heard(t)
  }

  lemma SilentAt(run: seq<Event>, start: int, m: nat, t: int, i: nat)
    requires SilentFrom(run, start, m, t) && m <= i < |run|
    ensures Reaps(run, start, i) <==> run[i].at > t + Device.STALE_AFTER
  {
    SilentSince(run, start, m, i);
  }

  lemma TicksSoon(run: seq<Event>, start: int, first: int)
    requires Ticking(run, start, first)
    ensures first <= start + TICK
  {}

  lemma TickHappens(run: seq<Event>, start: int, first: int, j: nat) returns (i: nat)
    requires Ticking(run, start, first) && |run| > 0 && run[|run| - 1].at > TickTime(first, j)
    ensures i < |run| && run[i] == Tick(TickTime(first, j))
  {
    assert TickBefore(run, |run| - 1, TickTime(first, j));
    i :| 0 <= i < |run| - 1 && run[i] == Tick(TickTime(first, j));
  }

  lemma FirstTickAfter(first: int, at: int) returns (j: nat)
    requires first <= at
    ensures at < TickTime(first, j) <= at + TICK
  {
    j := (at - first) / TICK + 1;
  }

  /** A peer silent since `t` is reaped at a tick in (t + 7 s, t + 9 s], provided the run goes on
      beyond that, and no tick from its falling silent up to t + 7 s reaps it. */
  lemma SilentIsReaped(run: seq<Event>, start: int, first: int, m: nat, t: int) returns (i: nat)
    requires InOrder(run, start) && Ticking(run, start, first) && SilentFrom(run, start, m, t)
    requires |run| > 0 && run[|run| - 1].at > t + 9000
    ensures m <= i < |run| && Reaps(run, start, i) && t + 7000 < run[i].at <= t + 9000
    ensures forall k | m <= k < |run| && run[k].at <= t + 7000 :: !Reaps(run, start, k)
  {
    hide Reaps, TickTime, Ticking;
    assert t >= start && first <= start + TICK by { TicksSoon(run, start, first); }
    var j := FirstTickAfter(first, t + Device.STALE_AFTER);
    i := TickHappens(run, start, first, j);
    SilentAt(run, start, m, t, i);
    forall k | m <= k < |run| && run[k].at <= t + Device.STALE_AFTER ensures !Reaps(run, start, k) {
      SilentAt(run, start, m, t, k);
    }
  }
}
