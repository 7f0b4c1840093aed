/** No ping-pong: how close together screen edges can trigger hand-offs. */
module Cooldown {
  import opened Ids
  import opened Node
  import opened Cluster
  import opened Ownership
  import opened OneCursor

  /** The times at which an edge makes one of the devices `who` attempt a hand-off. */
  ghost function EdgeTimes(c: Cluster, steps: seq<Step>, who: set<NodeId>): seq<int>
    requires Possible(c, steps)
    decreases |steps|
  {
    if steps == [] then []
    else (if steps[0].Edge? && steps[0].n in who then [c.now] else []) + EdgeTimes(Apply(c, steps[0]), steps[1..], who)
  }

  predicate Spaced(times: seq<int>) {
    forall i | 0 < i < |times| :: times[i] - times[i - 1] >= 400
  }

  /** At every moment of the run at most one of the devices `who` shows the cursor. */
  ghost predicate AloneRun(c: Cluster, steps: seq<Step>, who: set<NodeId>)
    requires Possible(c, steps)
    decreases |steps|
  {
    && (forall m, n | m in who && n in who && Shows(c, m) && Shows(c, n) :: m == n)
    && (steps == [] || AloneRun(Apply(c, steps[0]), steps[1..], who))
  }

  /** Whoever shows the cursor has done so since `last` or later. */
  ghost predicate ShownSince(c: Cluster, who: set<NodeId>, last: int) {
    c.now >= last && forall n | n in who && Shows(c, n) :: c.nodes[n].activeSince >= last
  }

  /** Becoming active stamps the clock; an edge attempt never leaves an older stamp behind. */
  lemma MoveStamps(c: Cluster, st: Step)
    requires Enabled(c, st) && Moves(st) && Mover(st) in c.nodes && Move(c, st).state.amActive
    ensures Move(c, st).state.activeSince == c.now ||
            (!st.Edge? && c.nodes[Mover(st)].amActive &&
              Move(c, st).state.activeSince == c.nodes[Mover(st)].activeSince)
  {
    hide Neighbor, SlotTarget;
  }

  lemma StepKeepsShownSince(c: Cluster, st: Step, who: set<NodeId>, last: int)
    requires Enabled(c, st) && ShownSince(c, who, last)
    requires forall m, n | m in who && n in who && Shows(c, m) && Shows(c, n) :: m == n
    ensures ShownSince(Apply(c, st), who, if st.Edge? && st.n in who then c.now else last)
    ensures st.Edge? && st.n in who ==> c.now - last >= EDGE_COOLDOWN
  {
    hide Move, Neighbor, SlotTarget;
    if Moves(st) {
      var n := Mover(st);
      assert n in c.nodes;
      if Move(c, st).state.amActive { MoveStamps(c, st); }
    }
  }

  lemma {:induction false} AloneSpaces(c: Cluster, steps: seq<Step>, who: set<NodeId>, last: int)
    requires Possible(c, steps) && AloneRun(c, steps, who) && ShownSince(c, who, last)
    ensures Spaced([last] + EdgeTimes(c, steps, who))
    decreases |steps|
  {
    hide Enabled, Apply, ShownSince;
    if steps != [] {
      var st := steps[0];
      StepKeepsShownSince(c, st, who, last);
      var next := if st.Edge? && st.n in who then c.now else last;
      AloneSpaces(Apply(c, st), steps[1..], who, next);
      var rest := EdgeTimes(Apply(c, st), steps[1..], who);
      if st.Edge? && st.n in who {
        var times := [last] + EdgeTimes(c, steps, who);
        assert times == [last] + ([next] + rest);
        forall i | 0 < i < |times| ensures times[i] - times[i - 1] >= EDGE_COOLDOWN {
          if i > 1 { assert times[i] == ([next] + rest)[i - 1] && times[i - 1] == ([next] + rest)[i - 2]; }
        }
      } else {
        assert EdgeTimes(c, steps, who) == rest;
      }
    }
  }

  lemma {:induction false} SpacedSpan(times: seq<int>)
    requires Spaced(times) && times != []
    ensures (|times| - 1) * EDGE_COOLDOWN <= times[|times| - 1] - times[0]
    decreases |times|
  {
    if |times| > 1 {
      var shorter := times[..|times| - 1];
      forall i | 0 < i < |shorter| ensures shorter[i] - shorter[i - 1] >= EDGE_COOLDOWN {
        assert shorter[i] == times[i] && shorter[i - 1] == times[i - 1];
      }
      SpacedSpan(shorter);
    }
  }

  lemma TailSpaced(first: int, times: seq<int>)
    requires Spaced([first] + times)
    ensures Spaced(times)
  {
    forall i | 0 < i < |times| ensures times[i] - times[i - 1] >= EDGE_COOLDOWN {
      assert times[i] == ([first] + times)[i + 1] && times[i - 1] == ([first] + times)[i];
    }
  }

  lemma {:induction false} OneDeviceIsAlone(c: Cluster, steps: seq<Step>, n: NodeId)
    requires Possible(c, steps)
    ensures AloneRun(c, steps, {n})
    decreases |steps|
  {
    if steps != [] { OneDeviceIsAlone(Apply(c, steps[0]), steps[1..], n); }
  }

  lemma {:induction false} HealthyIsAlone(c: Cluster, steps: seq<Step>, who: set<NodeId>)
    requires Possible(c, steps) && HealthyRun(c, steps)
    ensures AloneRun(c, steps, who)
    decreases |steps|
  {
    hide Agrees, Top, Enabled, Apply;
    if steps != [] { HealthyIsAlone(Apply(c, steps[0]), steps[1..], who); }
  }

  /** One engine, any run whatever: its edge-triggered attempts are a cooldown apart. */
  lemma EngineCoolsDown(ids: set<NodeId>, founder: NodeId, steps: seq<Step>, n: NodeId)
    requires founder in ids && Possible(Initial(ids, founder), steps)
    ensures Spaced(EdgeTimes(Initial(ids, founder), steps, {n}))
  {
    OneDeviceIsAlone(Initial(ids, founder), steps, n);
    AloneSpaces(Initial(ids, founder), steps, {n}, 0);
    TailSpaced(0, EdgeTimes(Initial(ids, founder), steps, {n}));
  }

  /** The whole pool: in a safe run in which nobody dies or gives up on its owner, edges anywhere
      trigger attempts a cooldown apart, so `k` of them take at least `k - 1` cooldowns. */
  lemma PoolCoolsDown(ids: set<NodeId>, founder: NodeId, steps: seq<Step>)
    requires founder in ids && NONE !in ids
    requires Possible(Initial(ids, founder), steps)
    requires LoyalRun(Initial(ids, founder), steps) && SafeRun(Initial(ids, founder), steps)
    ensures var times := EdgeTimes(Initial(ids, founder), steps, ids);
      Spaced(times) && (times != [] ==> (|times| - 1) * 400 <= times[|times| - 1] - times[0])
  {
    OneCursorIff(ids, founder, steps);
    HealthyIsAlone(Initial(ids, founder), steps, ids);
    AloneSpaces(Initial(ids, founder), steps, ids, 0);
    var times := EdgeTimes(Initial(ids, founder), steps, ids);
    TailSpaced(0, times);
    if times != [] { SpacedSpan(times); }
  }
}
