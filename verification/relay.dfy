/** The relay hub: connection handlers pair two legs that present the same token, through a shared
    table and a session per table entry, each under a lock of its own. */
module Relay {

  type LegId = nat
  type Token = string

  /** `first` is the leg that waits; `closes` counts how often the paired channel was closed. Go
      panics on the second time. */
  datatype Session = Session(first: set<LegId>, closes: nat)

  /** A session is named by the leg that created it. */
  datatype Table = Table(entries: map<Token, LegId>, sessions: map<LegId, Session>)

  // ----- the critical sections -----

  function Find(t: Table, token: Token, leg: LegId): LegId {
    if token in t.entries then t.entries[token] else leg
  }

  function AfterFind(t: Table, token: Token, leg: LegId): Table {
    if token in t.entries then t
    else Table(t.entries[token := leg], t.sessions[leg := Session({}, 0)])
  }

  function AfterClaim(t: Table, sess: LegId, leg: LegId): Table
    requires sess in t.sessions
  {
    if t.sessions[sess].first == {} then t.(sessions := t.sessions[sess := t.sessions[sess].(first := {leg})]) else t
  }

  function AfterTimeout(t: Table, token: Token, sess: LegId): Table {
    if token in t.entries && t.entries[token] == sess then t.(entries := t.entries - {token}) else t
  }

  function AfterForget(t: Table, token: Token): Table {
    t.(entries := t.entries - {token})
  }

  function AfterClose(t: Table, sess: LegId): Table
    requires sess in t.sessions
  {
    t.(sessions := t.sessions[sess := t.sessions[sess].(closes := t.sessions[sess].closes + 1)])
  }

  class RelayHub {
    var entries: map<Token, LegId>
    var sessions: map<LegId, Session>

    constructor ()
      ensures entries == map[] && sessions == map[]
    {
      entries, sessions := map[], map[];
    }

    ghost function Contents(): Table
      reads this
    {
      Table(entries, sessions)
    }

    method Lookup(token: Token, leg: LegId) returns (sess: LegId)
      modifies this
      ensures sess == Find(old(Contents()), token, leg) && Contents() == AfterFind(old(Contents()), token, leg)
      ensures token in entries && sess == entries[token]
      ensures if token in old(entries) then entries == old(entries) && sessions == old(sessions)
              else sess == leg && entries == old(entries)[token := leg] &&
                   sessions == old(sessions)[leg := Session({}, 0)]
    {
      if token in entries {
        sess := entries[token];
      } else {
        sess := leg;
        sessions := sessions[sess := Session({}, 0)];
        entries := entries[token := sess];
      }
    }

    method Claim(sess: LegId, leg: LegId) returns (waits: bool)
      requires sess in sessions
      modifies this
      ensures waits <==> old(sessions)[sess].first == {}
      ensures Contents() == AfterClaim(old(Contents()), sess, leg)
      ensures entries == old(entries) && sess in sessions && sessions - {sess} == old(sessions) - {sess}
      ensures sessions[sess] == if waits then Session({leg}, old(sessions)[sess].closes) else old(sessions)[sess]
    {
      waits := sessions[sess].first == {};
      if waits {
        sessions := sessions[sess := sessions[sess].(first := {leg})];
      }
    }

    method TimeOut(token: Token, sess: LegId)
      modifies this
      ensures Contents() == AfterTimeout(old(Contents()), token, sess)
      ensures entries == old(entries) - (if token in old(entries) && old(entries)[token] == sess then {token} else {})
      ensures sessions == old(sessions)
    {
      if token in entries && entries[token] == sess {
        entries := entries - {token};
      }
    }

    method Forget(token: Token)
      modifies this
      ensures Contents() == AfterForget(old(Contents()), token)
      ensures entries == old(entries) - {token} && sessions == old(sessions)
    {
      entries := entries - {token};
    }

    method ClosePaired(sess: LegId)
      requires sess in sessions
      modifies this
      ensures Contents() == AfterClose(old(Contents()), sess)
      ensures entries == old(entries) && sess in sessions && sessions - {sess} == old(sessions) - {sess}
      ensures sessions[sess] == Session(old(sessions)[sess].first, old(sessions)[sess].closes + 1)
    {
      sessions := sessions[sess := sessions[sess].(closes := sessions[sess].closes + 1)];
    }

    /** The second leg's part, when nothing comes between its two steps. */
    method Pair(token: Token, sess: LegId)
      requires sess in sessions
      modifies this
      ensures Contents() == AfterClose(AfterForget(old(Contents()), token), sess)
      ensures entries == old(entries) - {token} && sess in sessions && sessions - {sess} == old(sessions) - {sess}
      ensures sessions[sess] == Session(old(sessions)[sess].first, old(sessions)[sess].closes + 1)
    {
      Forget(token);
      ClosePaired(sess);
    }
  }

  // ----- interleavings -----

  /** Where a leg's handler stands; `sess` is the session it found. */
  datatype Leg =
    | Joined
    | Found(sess: LegId)
    | Waiting(sess: LegId)
    | Second(sess: LegId)
    | Forgot(sess: LegId)
    | Piping(sess: LegId)
    | TimedOut(sess: LegId)
    | Woken(sess: LegId)

  datatype Hub = Hub(table: Table, legs: map<LegId, Leg>)

  datatype Step = Lookup(leg: LegId) | Claim(leg: LegId) | Expire(leg: LegId) | Wake(leg: LegId)
    | Forget(leg: LegId) | Close(leg: LegId)

  function Initial(tokens: map<LegId, Token>): Hub {
    Hub(Table(map[], map[]), map l | l in tokens :: Joined)
  }

  predicate Enabled(h: Hub, st: Step) {
    st.leg in h.legs &&
    var leg := h.legs[st.leg];
    match st
    case Lookup(_) => leg.Joined?
    case Claim(_) => leg.Found? && leg.sess in h.table.sessions
    case Expire(_) => leg.Waiting?
    case Wake(_) => leg.Waiting? && leg.sess in h.table.sessions && h.table.sessions[leg.sess].closes > 0
    case Forget(_) => leg.Second?
    case Close(_) => leg.Forgot? && leg.sess in h.table.sessions
  }

  function Apply(h: Hub, tokens: map<LegId, Token>, st: Step): Hub
    requires Enabled(h, st) && st.leg in tokens
  {
    var l, token, leg := st.leg, tokens[st.leg], h.legs[st.leg];
    match st
    case Lookup(_) => Hub(AfterFind(h.table, token, l), h.legs[l := Found(Find(h.table, token, l))])
    case Claim(_) =>
      Hub(AfterClaim(h.table, leg.sess, l),
          h.legs[l := if h.table.sessions[leg.sess].first == {} then Waiting(leg.sess) else Second(leg.sess)])
    case Expire(_) => Hub(AfterTimeout(h.table, token, leg.sess), h.legs[l := TimedOut(leg.sess)])
    case Wake(_) => h.(legs := h.legs[l := Woken(leg.sess)])
    case Forget(_) => Hub(AfterForget(h.table, token), h.legs[l := Forgot(leg.sess)])
    case Close(_) => Hub(AfterClose(h.table, leg.sess), h.legs[l := Piping(leg.sess)])
  }

  predicate Possible(h: Hub, tokens: map<LegId, Token>, steps: seq<Step>)
    decreases |steps|
  {
    steps == [] ||
    (Enabled(h, steps[0]) && steps[0].leg in tokens && Possible(Apply(h, tokens, steps[0]), tokens, steps[1..]))
  }

  function Exec(h: Hub, tokens: map<LegId, Token>, steps: seq<Step>): Hub
    requires Possible(h, tokens, steps)
    decreases |steps|
  {
    if steps == [] then h else Exec(Apply(h, tokens, steps[0]), tokens, steps[1..])
  }

  // ----- the invariant -----

  predicate AsSecond(leg: Leg) {
    leg.Second? || leg.Forgot? || leg.Piping?
  }

  predicate AsFirst(leg: Leg) {
    leg.Waiting? || leg.TimedOut? || leg.Woken?
  }

  function Pipes(legs: map<LegId, Leg>, s: LegId): set<LegId> {
    set l | l in legs && legs[l] == Piping(s)
  }

  function LegsOf(tokens: map<LegId, Token>, token: Token): set<LegId> {
    set l | l in tokens && tokens[l] == token
  }

  /** A leg and the session it found were given the same token; a waiting leg is that session's
      first, a second leg is not. */
  ghost predicate LegInv(h: Hub, tokens: map<LegId, Token>, l: LegId)
    requires l in h.legs && l in tokens
  {
    var leg := h.legs[l];
    !leg.Joined? ==>
      && leg.sess in h.table.sessions && leg.sess in tokens && tokens[leg.sess] == tokens[l]
      && var first := h.table.sessions[leg.sess].first;
         (AsFirst(leg) ==> first == {l}) && (AsSecond(leg) ==> first != {} && l !in first)
  }

  /** A session's creator found it, its first leg waits at it, and each leg that closed it pipes. */
  ghost predicate SessionInv(h: Hub, tokens: map<LegId, Token>, s: LegId)
    requires s in h.table.sessions && h.legs.Keys == tokens.Keys
  {
    var sess := h.table.sessions[s];
    && s in tokens && !h.legs[s].Joined? && h.legs[s].sess == s
    && (forall f | f in sess.first :: f in tokens && AsFirst(h.legs[f]) && h.legs[f].sess == s)
    && Counted(h, s)
  }

  ghost predicate Counted(h: Hub, s: LegId)
    requires s in h.table.sessions
  {
    h.table.sessions[s].closes == |Pipes(h.legs, s)|
  }

  predicate Busy(leg: Leg, s: LegId) {
    leg == Found(s) || leg == Waiting(s) || leg == Second(s)
  }

  /** An entry stands for a session whose creator is still busy and that nobody has begun to close. */
  ghost predicate EntryInv(h: Hub, tokens: map<LegId, Token>, token: Token)
    requires token in h.table.entries
  {
    var s := h.table.entries[token];
    && s in h.table.sessions && s in tokens && tokens[s] == token
    && s in h.legs && Busy(h.legs[s], s)
    && (forall l | l in h.legs :: h.legs[l] != Forgot(s) && h.legs[l] != Piping(s))
  }

  ghost predicate Inv(h: Hub, tokens: map<LegId, Token>) {
    && h.legs.Keys == tokens.Keys
    && (forall l | l in h.legs :: LegInv(h, tokens, l))
    && (forall s | s in h.table.sessions :: SessionInv(h, tokens, s))
    && (forall token | token in h.table.entries :: EntryInv(h, tokens, token))
  }

  lemma StepKeepsOwnLeg(h: Hub, tokens: map<LegId, Token>, st: Step)
    requires h.legs.Keys == tokens.Keys && Enabled(h, st) && LegInv(h, tokens, st.leg)
    requires st.Lookup? && tokens[st.leg] in h.table.entries ==> EntryInv(h, tokens, tokens[st.leg])
    requires st.Claim? ==> SessionInv(h, tokens, h.legs[st.leg].sess)
    ensures LegInv(Apply(h, tokens, st), tokens, st.leg)
  {
    hide Counted;
  }

  lemma StepKeepsOtherLeg(h: Hub, tokens: map<LegId, Token>, st: Step, l: LegId)
    requires h.legs.Keys == tokens.Keys && Enabled(h, st) && LegInv(h, tokens, st.leg)
    requires l in h.legs && l != st.leg && LegInv(h, tokens, l)
    requires st.Lookup? ==> st.leg !in h.table.sessions
    ensures LegInv(Apply(h, tokens, st), tokens, l)
  {
  }

  lemma StepKeepsLegs(h: Hub, tokens: map<LegId, Token>, st: Step, l: LegId)
    requires Inv(h, tokens) && Enabled(h, st) && l in h.legs
    ensures LegInv(Apply(h, tokens, st), tokens, l)
  {
    assert LegInv(h, tokens, l) && LegInv(h, tokens, st.leg);
    if st.leg == l {
      assert st.Lookup? && tokens[st.leg] in h.table.entries ==> EntryInv(h, tokens, tokens[st.leg]);
      assert st.Claim? ==> SessionInv(h, tokens, h.legs[st.leg].sess);
      StepKeepsOwnLeg(h, tokens, st);
    } else {
      assert st.leg in h.table.sessions ==> SessionInv(h, tokens, st.leg);
      StepKeepsOtherLeg(h, tokens, st, l);
    }
  }

  /** Who pipes session s, before and after a step. */
  lemma StepMovesPipes(h: Hub, tokens: map<LegId, Token>, st: Step, s: LegId)
    requires h.legs.Keys == tokens.Keys && Enabled(h, st)
    requires !h.legs[st.leg].Piping?
    ensures var before, after := Pipes(h.legs, s), Pipes(Apply(h, tokens, st).legs, s);
            if st.Close? && h.legs[st.leg].sess == s then after == before + {st.leg} && st.leg !in before
            else after == before
  {
  }

  lemma StepKeepsCount(h: Hub, tokens: map<LegId, Token>, st: Step, s: LegId)
    requires h.legs.Keys == tokens.Keys && Enabled(h, st)
    requires s in h.table.sessions && Counted(h, s) && !h.legs[st.leg].Piping?
    requires st.Lookup? ==> st.leg != s
    ensures s in Apply(h, tokens, st).table.sessions && Counted(Apply(h, tokens, st), s)
  {
    hide Pipes;
    StepMovesPipes(h, tokens, st, s);
  }

  lemma NoOneKnowsOf(h: Hub, tokens: map<LegId, Token>, s: LegId)
    requires Inv(h, tokens) && s !in h.table.sessions
    ensures forall l | l in h.legs :: h.legs[l].Joined? || h.legs[l].sess != s
  {
    forall l | l in h.legs ensures h.legs[l].Joined? || h.legs[l].sess != s {
      assert LegInv(h, tokens, l);
    }
  }

  lemma StepKeepsKnownSession(h: Hub, tokens: map<LegId, Token>, st: Step, s: LegId)
    requires h.legs.Keys == tokens.Keys && Enabled(h, st)
    requires s in h.table.sessions && SessionInv(h, tokens, s) && LegInv(h, tokens, st.leg)
    requires st.Lookup? ==> st.leg != s
    ensures SessionInv(Apply(h, tokens, st), tokens, s)
  {
    hide Counted;
    StepKeepsCount(h, tokens, st, s);
  }

  lemma StepKeepsSessions(h: Hub, tokens: map<LegId, Token>, st: Step, s: LegId)
    requires Inv(h, tokens) && Enabled(h, st) && s in Apply(h, tokens, st).table.sessions
    ensures SessionInv(Apply(h, tokens, st), tokens, s)
  {
    assert LegInv(h, tokens, st.leg);
    if s in h.table.sessions {
      assert SessionInv(h, tokens, s);
      StepKeepsKnownSession(h, tokens, st, s);
    } else {
      NoOneKnowsOf(h, tokens, s);
      assert Pipes(h.legs, s) == {};
      StepMovesPipes(h, tokens, st, s);
    }
  }

  lemma StepKeepsKnownEntry(h: Hub, tokens: map<LegId, Token>, st: Step, token: Token)
    requires h.legs.Keys == tokens.Keys && Enabled(h, st) && LegInv(h, tokens, st.leg)
    requires token in h.table.entries && EntryInv(h, tokens, token) && SessionInv(h, tokens, h.table.entries[token])
    requires token in Apply(h, tokens, st).table.entries
    ensures EntryInv(Apply(h, tokens, st), tokens, token)
  {
    var s := h.table.entries[token];
    assert Pipes(h.legs, s) == {};
  }

  lemma StepKeepsEntries(h: Hub, tokens: map<LegId, Token>, st: Step, token: Token)
    requires Inv(h, tokens) && Enabled(h, st) && token in Apply(h, tokens, st).table.entries
    ensures EntryInv(Apply(h, tokens, st), tokens, token)
  {
    assert LegInv(h, tokens, st.leg);
    if token in h.table.entries {
      assert EntryInv(h, tokens, token) && SessionInv(h, tokens, h.table.entries[token]);
      StepKeepsKnownEntry(h, tokens, st, token);
    } else {
      assert st.leg in h.table.sessions ==> SessionInv(h, tokens, st.leg);
      NoOneKnowsOf(h, tokens, st.leg);
    }
  }

  lemma StepKeepsInv(h: Hub, tokens: map<LegId, Token>, st: Step)
    requires Inv(h, tokens) && Enabled(h, st)
    ensures Inv(Apply(h, tokens, st), tokens)
  {
    hide LegInv, SessionInv, EntryInv;
    var h' := Apply(h, tokens, st);
    forall l | l in h'.legs ensures LegInv(h', tokens, l) { StepKeepsLegs(h, tokens, st, l); }
    forall s | s in h'.table.sessions ensures SessionInv(h', tokens, s) { StepKeepsSessions(h, tokens, st, s); }
    forall token | token in h'.table.entries ensures EntryInv(h', tokens, token) { StepKeepsEntries(h, tokens, st,
      token); }
  }

  lemma {:induction false} RunKeepsInv(h: Hub, tokens: map<LegId, Token>, steps: seq<Step>)
    requires Inv(h, tokens) && Possible(h, tokens, steps)
    ensures Inv(Exec(h, tokens, steps), tokens)
    decreases |steps|
  {
    hide Inv, Enabled, Apply;
    if steps != [] {
      StepKeepsInv(h, tokens, steps[0]);
      RunKeepsInv(Apply(h, tokens, steps[0]), tokens, steps[1..]);
    }
  }

  lemma RunInv(tokens: map<LegId, Token>, steps: seq<Step>)
    requires Possible(Initial(tokens), tokens, steps)
    ensures Inv(Exec(Initial(tokens), tokens, steps), tokens)
  {
    RunKeepsInv(Initial(tokens), tokens, steps);
  }

  // ----- what every interleaving keeps -----

  /** A leg that goes on to pipe is joined to exactly one other leg, which gave the same token. */
  lemma PairsMatch(tokens: map<LegId, Token>, steps: seq<Step>, l: LegId)
    requires Possible(Initial(tokens), tokens, steps)
    requires l in tokens
    ensures var h := Exec(Initial(tokens), tokens, steps);
            l in h.legs && (AsSecond(h.legs[l]) ==>
              && h.legs[l].sess in h.table.sessions
              && exists f :: h.table.sessions[h.legs[l].sess].first == {f} && f != l
                          && f in tokens && tokens[f] == tokens[l] && f in h.legs && AsFirst(h.legs[f]))
  {
    RunInv(tokens, steps);
    var h := Exec(Initial(tokens), tokens, steps);
    assert LegInv(h, tokens, l);
    if AsSecond(h.legs[l]) {
      var s := h.legs[l].sess;
      assert SessionInv(h, tokens, s);
      var f :| f in h.table.sessions[s].first;
      assert LegInv(h, tokens, f);
      assert h.table.sessions[s].first == {f};
    }
  }

  /** The table holds nothing for a token none of whose legs is looking, waiting or about to pair. */
  lemma IdleTokenHasNoEntry(tokens: map<LegId, Token>, steps: seq<Step>, token: Token)
    requires Possible(Initial(tokens), tokens, steps)
    ensures var h := Exec(Initial(tokens), tokens, steps);
            token in h.table.entries ==>
              exists l :: l in tokens && tokens[l] == token && l in h.legs && Busy(h.legs[l], h.table.entries[token])
  {
    RunInv(tokens, steps);
    var h := Exec(Initial(tokens), tokens, steps);
    assert token in h.table.entries ==> EntryInv(h, tokens, token);
  }

  lemma SubsetSize<T>(a: set<T>, b: set<T>)
    requires a <= b
    ensures |a| <= |b|
  {
    assert b == a + (b - a);
  }

  /** A session is closed fewer times than its token has legs. */
  lemma ClosesBelowLegs(tokens: map<LegId, Token>, steps: seq<Step>, s: LegId)
    requires Possible(Initial(tokens), tokens, steps)
    ensures var h := Exec(Initial(tokens), tokens, steps);
            s in h.table.sessions ==> s in tokens && h.table.sessions[s].closes < |LegsOf(tokens, tokens[s])|
  {
    RunInv(tokens, steps);
    var h := Exec(Initial(tokens), tokens, steps);
    if s in h.table.sessions {
      assert SessionInv(h, tokens, s);
      var pipes, all := Pipes(h.legs, s), LegsOf(tokens, tokens[s]);
      forall l | l in pipes ensures l in all { assert LegInv(h, tokens, l); }
      if pipes == {} {
        SubsetSize({s}, all);
      } else {
        var l :| l in pipes;
        assert LegInv(h, tokens, l);
        var f :| f in h.table.sessions[s].first;
        assert LegInv(h, tokens, f);
        SubsetSize(pipes + {f}, all);
      }
    }
  }

  // ----- no session is closed twice, exactly when no token has a third leg -----

  ghost predicate ClosedOnce(tokens: map<LegId, Token>, steps: seq<Step>)
    requires Possible(Initial(tokens), tokens, steps)
  {
    var h := Exec(Initial(tokens), tokens, steps);
    forall s | s in h.table.sessions :: h.table.sessions[s].closes <= 1
  }

  ghost predicate NeverClosedTwice(tokens: map<LegId, Token>) {
    forall steps: seq<Step> | Possible(Initial(tokens), tokens, steps) :: ClosedOnce(tokens, steps)
  }

  ghost predicate AtMostTwoLegs(tokens: map<LegId, Token>) {
    forall token: Token :: |LegsOf(tokens, token)| <= 2
  }

  lemma Then(h: Hub, tokens: map<LegId, Token>, st: Step, rest: seq<Step>)
    requires Enabled(h, st) && st.leg in tokens && Possible(Apply(h, tokens, st), tokens, rest)
    ensures Possible(h, tokens, [st] + rest)
    ensures Exec(h, tokens, [st] + rest) == Exec(Apply(h, tokens, st), tokens, rest)
  {
    hide Enabled, Apply;
    assert ([st] + rest)[1..] == rest;
  }

  lemma NoStep(h: Hub, tokens: map<LegId, Token>)
    ensures Possible(h, tokens, []) && Exec(h, tokens, []) == h
  {}

  /** Two legs that both found another leg waiting at session s each close it. */
  lemma BothClose(h: Hub, tokens: map<LegId, Token>, s: LegId, b: LegId, c: LegId) returns (steps: seq<Step>)
    requires {b, c} <= tokens.Keys && {b, c} <= h.legs.Keys && b != c
    requires s in h.table.sessions && h.table.sessions[s].closes == 0
    requires h.legs[b] == Second(s) && h.legs[c] == Second(s)
    ensures Possible(h, tokens, steps)
    ensures var h' := Exec(h, tokens, steps);
            s in h'.table.sessions && h'.table.sessions[s].closes == 2
  {
    hide Possible, Exec;
    var h1 := Apply(h, tokens, Forget(b));
    var h2 := Apply(h1, tokens, Close(b));
    var h3 := Apply(h2, tokens, Forget(c));
    NoStep(Apply(h3, tokens, Close(c)), tokens);
    var r3 := [Close(c)] + [];
    Then(h3, tokens, Close(c), []);
    var r2 := [Forget(c)] + r3;
    Then(h2, tokens, Forget(c), r3);
    var r1 := [Close(b)] + r2;
    Then(h1, tokens, Close(b), r2);
    steps := [Forget(b)] + r1;
    Then(h, tokens, Forget(b), r1);
  }

  /** Three legs look the token up before any of them forgets the entry. */
  lemma AllFind(tokens: map<LegId, Token>, a: LegId, b: LegId, c: LegId) returns (h: Hub)
    requires {a, b, c} <= tokens.Keys && a != b && b != c && a != c && tokens[a] == tokens[b] == tokens[c]
    ensures {a, b, c} <= h.legs.Keys && h.legs[a] == Found(a) && h.legs[b] == Found(a) && h.legs[c] == Found(a)
    ensures a in h.table.sessions && h.table.sessions[a] == Session({}, 0)
    ensures forall rest | Possible(h, tokens, rest) ::
      var steps := [Lookup(a)] + ([Lookup(b)] + ([Lookup(c)] + rest));
      Possible(Initial(tokens), tokens, steps) && Exec(Initial(tokens), tokens, steps) == Exec(h, tokens, rest)
  {
    hide Possible, Exec;
    var h0 := Initial(tokens);
    var h1 := Apply(h0, tokens, Lookup(a));
    var h2 := Apply(h1, tokens, Lookup(b));
    h := Apply(h2, tokens, Lookup(c));
    forall rest | Possible(h, tokens, rest)
      ensures var steps := [Lookup(a)] + ([Lookup(b)] + ([Lookup(c)] + rest));
        Possible(h0, tokens, steps) && Exec(h0, tokens, steps) == Exec(h, tokens, rest)
    {
      Then(h2, tokens, Lookup(c), rest);
      Then(h1, tokens, Lookup(b), [Lookup(c)] + rest);
      Then(h0, tokens, Lookup(a), [Lookup(b)] + ([Lookup(c)] + rest));
    }
  }

  lemma ThirdLegClosesTwice(tokens: map<LegId, Token>, a: LegId, b: LegId, c: LegId) returns (steps: seq<Step>)
    requires {a, b, c} <= tokens.Keys && a != b && b != c && a != c && tokens[a] == tokens[b] == tokens[c]
    ensures Possible(Initial(tokens), tokens, steps) && !ClosedOnce(tokens, steps)
  {
    hide Possible, Exec;
    var h := AllFind(tokens, a, b, c);
    var h1 := Apply(h, tokens, Claim(a));
    var h2 := Apply(h1, tokens, Claim(b));
    var h3 := Apply(h2, tokens, Claim(c));
    var r3 := BothClose(h3, tokens, a, b, c);
    Then(h2, tokens, Claim(c), r3);
    Then(h1, tokens, Claim(b), [Claim(c)] + r3);
    Then(h, tokens, Claim(a), [Claim(b)] + ([Claim(c)] + r3));
    var rest := [Claim(a)] + ([Claim(b)] + ([Claim(c)] + r3));
    steps := [Lookup(a)] + ([Lookup(b)] + ([Lookup(c)] + rest));
  }

  lemma ThreeMembers<T>(s: set<T>) returns (a: T, b: T, c: T)
    requires |s| > 2
    ensures a in s && b in s && c in s && a != b && b != c && a != c
  {
    a :| a in s;
    assert |s - {a}| > 1;
    b :| b in s - {a};
    assert |s - {a} - {b}| > 0;
    c :| c in s - {a} - {b};
  }

  lemma ClosedTwiceIff(tokens: map<LegId, Token>)
    ensures NeverClosedTwice(tokens) <==> AtMostTwoLegs(tokens)
  {
    if AtMostTwoLegs(tokens) {
      forall steps: seq<Step> | Possible(Initial(tokens), tokens, steps) ensures ClosedOnce(tokens, steps) {
        var h := Exec(Initial(tokens), tokens, steps);
        forall s | s in h.table.sessions ensures h.table.sessions[s].closes <= 1 {
          ClosesBelowLegs(tokens, steps, s);
        }
      }
    } else {
      var token: Token :| |LegsOf(tokens, token)| > 2;
      var a, b, c := ThreeMembers(LegsOf(tokens, token));
      var steps := ThirdLegClosesTwice(tokens, a, b, c);
    }
  }

  // ----- two legs that do not time out meet -----

  predicate NeitherExpires(steps: seq<Step>, a: LegId, b: LegId) {
    forall i | 0 <= i < |steps| :: steps[i] != Expire(a) && steps[i] != Expire(b)
  }

  /** While one leg has looked the token up and the other has not, the entry waits for the other. */
  ghost predicate Awaited(h: Hub, token: Token, a: LegId, b: LegId)
    requires a in h.legs && b in h.legs
  {
    h.legs[b].Joined? && !h.legs[a].Joined? ==> token in h.table.entries && h.table.entries[token] == h.legs[a].sess
  }

  ghost predicate Meeting(h: Hub, token: Token, a: LegId, b: LegId)
    requires a in h.legs && b in h.legs
  {
    && Awaited(h, token, a, b) && Awaited(h, token, b, a)
    && !h.legs[a].TimedOut? && !h.legs[b].TimedOut?
    && (!h.legs[a].Joined? && !h.legs[b].Joined? ==> h.legs[a].sess == h.legs[b].sess)
  }

  /** With only two legs, one that comes second found the other one waiting. */
  lemma SecondFindsTheOther(h: Hub, tokens: map<LegId, Token>, a: LegId, b: LegId)
    requires Inv(h, tokens) && a in h.legs && b in h.legs && LegsOf(tokens, tokens[a]) == {a, b}
    requires AsSecond(h.legs[a])
    ensures AsFirst(h.legs[b]) && h.legs[b].sess == h.legs[a].sess && h.table.sessions[h.legs[a].sess].first == {b}
  {
    assert LegInv(h, tokens, a) && SessionInv(h, tokens, h.legs[a].sess);
    var f :| f in h.table.sessions[h.legs[a].sess].first;
    assert LegInv(h, tokens, f);
    assert f in LegsOf(tokens, tokens[a]);
  }

  lemma StrangerKeepsMeeting(h: Hub, tokens: map<LegId, Token>, st: Step, a: LegId, b: LegId)
    requires h.legs.Keys == tokens.Keys && Enabled(h, st) && a in h.legs && b in h.legs
    requires st.leg != a && st.leg != b && tokens[st.leg] != tokens[a]
    requires Meeting(h, tokens[a], a, b)
    ensures Meeting(Apply(h, tokens, st), tokens[a], a, b)
  {}

  lemma LegKeepsMeeting(h: Hub, tokens: map<LegId, Token>, st: Step, a: LegId, b: LegId)
    requires h.legs.Keys == tokens.Keys && Enabled(h, st) && !st.Expire? && a != b
    requires a in h.legs && b in h.legs && st.leg == a
    requires h.legs[a].Joined? && h.legs[b].Joined? ==> tokens[a] !in h.table.entries
    requires AsSecond(h.legs[a]) ==> AsFirst(h.legs[b])
    requires Meeting(h, tokens[a], a, b)
    ensures Meeting(Apply(h, tokens, st), tokens[a], a, b)
  {}

  lemma StepKeepsMeeting(h: Hub, tokens: map<LegId, Token>, st: Step, a: LegId, b: LegId)
    requires Inv(h, tokens) && Enabled(h, st) && st != Expire(a) && st != Expire(b) && a != b
    requires a in h.legs && b in h.legs && LegsOf(tokens, tokens[a]) == {a, b} && b in LegsOf(tokens, tokens[a])
    requires Meeting(h, tokens[a], a, b)
    ensures Meeting(Apply(h, tokens, st), tokens[a], a, b)
  {
    hide Enabled, Apply;
    var token := tokens[a];
    assert token in h.table.entries ==> EntryInv(h, tokens, token) && h.table.entries[token] in LegsOf(tokens, token);
    if AsSecond(h.legs[a]) { SecondFindsTheOther(h, tokens, a, b); }
    if AsSecond(h.legs[b]) { SecondFindsTheOther(h, tokens, b, a); }
    if st.leg == a {
      LegKeepsMeeting(h, tokens, st, a, b);
    } else if st.leg == b {
      LegKeepsMeeting(h, tokens, st, b, a);
    } else {
      assert st.leg in h.legs by { StepHasLeg(h, st); }
      assert st.leg !in LegsOf(tokens, token);
      StrangerKeepsMeeting(h, tokens, st, a, b);
    }
  }

  lemma StepHasLeg(h: Hub, st: Step)
    requires Enabled(h, st)
    ensures st.leg in h.legs
  {}

  lemma {:induction false} RunKeepsMeeting(h: Hub, tokens: map<LegId, Token>, steps: seq<Step>, a: LegId, b: LegId)
    requires Inv(h, tokens) && Possible(h, tokens, steps) && NeitherExpires(steps, a, b) && a != b
    requires a in h.legs && b in h.legs && LegsOf(tokens, tokens[a]) == {a, b} && b in LegsOf(tokens, tokens[a])
    requires Meeting(h, tokens[a], a, b)
    ensures var h' := Exec(h, tokens, steps);
            a in h'.legs && b in h'.legs && Meeting(h', tokens[a], a, b)
    decreases |steps|
  {
    hide Enabled, Apply, Meeting;
    if steps != [] {
      StepKeepsInv(h, tokens, steps[0]);
      StepKeepsMeeting(h, tokens, steps[0], a, b);
      RunKeepsMeeting(Apply(h, tokens, steps[0]), tokens, steps[1..], a, b);
    }
  }

  /** Neither leg can go on but by timing out; what the rest of the hub does is left open. */
  ghost predicate Stuck(h: Hub, a: LegId, b: LegId) {
    forall st: Step | Enabled(h, st) && st.leg in {a, b} :: st.Expire?
  }

  /** A leg that cannot go on but by timing out has done its part, or waits at a session nobody closed. */
  lemma GoesOn(h: Hub, tokens: map<LegId, Token>, l: LegId)
    requires Inv(h, tokens) && l in h.legs && forall st: Step | Enabled(h, st) && st.leg == l :: st.Expire?
    ensures AsFirst(h.legs[l]) || h.legs[l].Piping?
    ensures h.legs[l].Waiting? ==> h.legs[l].sess in h.table.sessions && h.table.sessions[h.legs[l].sess].closes == 0
  {
    assert LegInv(h, tokens, l);
    assert !Enabled(h, Lookup(l)) && !Enabled(h, Claim(l)) && !Enabled(h, Forget(l)) && !Enabled(h, Close(l)) &&
      !Enabled(h, Wake(l));
  }

  lemma PipeEnds(h: Hub, tokens: map<LegId, Token>, a: LegId, b: LegId)
    requires Inv(h, tokens) && Stuck(h, a, b)
    requires a in h.legs && b in h.legs && LegsOf(tokens, tokens[a]) == {a, b}
    requires h.legs[a].Piping? && AsFirst(h.legs[b]) && h.legs[b].sess == h.legs[a].sess && !h.legs[b].TimedOut?
    ensures var s := h.legs[a].sess;
            s in h.table.sessions && h.table.sessions[s].closes == 1 && h.legs[b] == Woken(s)
  {
    var s := h.legs[a].sess;
    assert LegInv(h, tokens, a) && SessionInv(h, tokens, s);
    forall l | l in Pipes(h.legs, s) ensures l == a {
      assert LegInv(h, tokens, l) && l in LegsOf(tokens, tokens[a]);
    }
    assert Pipes(h.legs, s) == {a};
    GoesOn(h, tokens, b);
  }

  predicate Paired(h: Hub, s: LegId, piping: LegId, woken: LegId) {
    && piping in h.legs && h.legs[piping] == Piping(s)
    && woken in h.legs && h.legs[woken] == Woken(s)
    && s in h.table.sessions && h.table.sessions[s].closes == 1
  }

  lemma BothInTime(tokens: map<LegId, Token>, steps: seq<Step>, a: LegId, b: LegId)
    requires Possible(Initial(tokens), tokens, steps) && NeitherExpires(steps, a, b)
    requires a in tokens && a != b && LegsOf(tokens, tokens[a]) == {a, b}
    requires Stuck(Exec(Initial(tokens), tokens, steps), a, b)
    ensures var h := Exec(Initial(tokens), tokens, steps);
            exists s :: Paired(h, s, a, b) || Paired(h, s, b, a)
  {
    assert b in LegsOf(tokens, tokens[a]);
    RunInv(tokens, steps);
    RunKeepsMeeting(Initial(tokens), tokens, steps, a, b);
    var h := Exec(Initial(tokens), tokens, steps);
    GoesOn(h, tokens, a);
    GoesOn(h, tokens, b);
    assert LegInv(h, tokens, a) && LegInv(h, tokens, b);
    if h.legs[a].Piping? {
      SecondFindsTheOther(h, tokens, a, b);
      PipeEnds(h, tokens, a, b);
      assert Paired(h, h.legs[a].sess, a, b);
    } else {
      SecondFindsTheOther(h, tokens, b, a);
      PipeEnds(h, tokens, b, a);
      assert Paired(h, h.legs[b].sess, b, a);
    }
  }

  lemma {:induction false} TimedOutStays(h: Hub, tokens: map<LegId, Token>, steps: seq<Step>, l: LegId)
    requires Possible(h, tokens, steps) && l in h.legs
    requires h.legs[l].TimedOut? || Expire(l) in steps
    ensures l in Exec(h, tokens, steps).legs && Exec(h, tokens, steps).legs[l].TimedOut?
    decreases |steps|
  {
    if steps != [] {
      LegTimesOut(h, tokens, steps[0], l);
      assert Expire(l) in steps ==> steps[0] == Expire(l) || Expire(l) in steps[1..];
      hide Enabled, Apply;
      TimedOutStays(Apply(h, tokens, steps[0]), tokens, steps[1..], l);
    }
  }

  lemma LegTimesOut(h: Hub, tokens: map<LegId, Token>, st: Step, l: LegId)
    requires Enabled(h, st) && st.leg in tokens && l in h.legs
    ensures l in Apply(h, tokens, st).legs
    ensures h.legs[l].TimedOut? || st == Expire(l) ==> Apply(h, tokens, st).legs[l].TimedOut?
  {}

  /** Two legs meet, exactly. Once neither of a token's two legs can go on, whatever other tokens'
      legs have done and still do: one of them pipes, the other was woken by it and their session
      was closed once, if and only if neither of them has timed out. */
  lemma TwoLegsMeetIff(tokens: map<LegId, Token>, steps: seq<Step>, a: LegId, b: LegId)
    requires Possible(Initial(tokens), tokens, steps)
    requires a in tokens && a != b && LegsOf(tokens, tokens[a]) == {a, b}
    requires Stuck(Exec(Initial(tokens), tokens, steps), a, b)
    ensures var h := Exec(Initial(tokens), tokens, steps);
            (exists s :: Paired(h, s, a, b) || Paired(h, s, b, a)) <==> NeitherExpires(steps, a, b)
  {
    hide Stuck, Inv, Enabled, Apply;
    if NeitherExpires(steps, a, b) {
      BothInTime(tokens, steps, a, b);
    } else {
      assert b in LegsOf(tokens, tokens[a]);
      var l := if Expire(a) in steps then a else b;
      TimedOutStays(Initial(tokens), tokens, steps, l);
    }
  }

  /** How a leg comes to pipe into one that has timed out: it found the session before the first
      gave up, and claims it afterwards. */
  lemma PairedTooLate(tokens: map<LegId, Token>, a: LegId, b: LegId) returns (steps: seq<Step>)
    requires {a, b} <= tokens.Keys && a != b && tokens[a] == tokens[b]
    ensures Possible(Initial(tokens), tokens, steps)
    ensures var h := Exec(Initial(tokens), tokens, steps);
            {a, b} <= h.legs.Keys && h.legs[a] == TimedOut(a) && h.legs[b] == Piping(a) && a in h.table.sessions
            && h.table.sessions[a].first == {a}
  {
    hide Possible, Exec;
    var h0 := Initial(tokens);
    var h1 := Apply(h0, tokens, Lookup(a));
    var h2 := Apply(h1, tokens, Lookup(b));
    var h3 := Apply(h2, tokens, Claim(a));
    var h4 := Apply(h3, tokens, Expire(a));
    var h5 := Apply(h4, tokens, Claim(b));
    var h6 := Apply(h5, tokens, Forget(b));
    NoStep(Apply(h6, tokens, Close(b)), tokens);
    var r6 := [Close(b)] + [];
    Then(h6, tokens, Close(b), []);
    var r5 := [Forget(b)] + r6;
    Then(h5, tokens, Forget(b), r6);
    var r4 := [Claim(b)] + r5;
    Then(h4, tokens, Claim(b), r5);
    var r3 := [Expire(a)] + r4;
    Then(h3, tokens, Expire(a), r4);
    var r2 := [Claim(a)] + r3;
    Then(h2, tokens, Claim(a), r3);
    var r1 := [Lookup(b)] + r2;
    Then(h1, tokens, Lookup(b), r2);
    steps := [Lookup(a)] + r1;
    Then(h0, tokens, Lookup(a), r1);
  }
}
