/** The rendezvous server's registry of one pool: connection handlers that enter and leave a shared
    member table under its lock, and push what happened to the others outside it. */
module Registry {
  import opened Ids

  // ----- the critical sections -----

  /** A listing of a set that names every element once. */
  ghost predicate Lists(order: seq<NodeId>, s: set<NodeId>) {
    && (forall x :: x in order <==> x in s)
    && (forall i, j | 0 <= i < j < |order| :: order[i] != order[j])
  }

  class PoolState<Peer(!new)> {
    var members: map<NodeId, Peer>
    var clients: set<NodeId>

    constructor ()
      ensures members == map[] && clients == {}
    {
      members, clients := map[], {};
    }

    /** Note who is already there, then enter. */
    method Register(me: NodeId, peer: Peer) returns (peers: seq<NodeId>, notify: seq<NodeId>)
      modifies this
      ensures Lists(peers, old(members).Keys) && Lists(notify, old(clients))
      ensures members == old(members)[me := peer] && clients == old(clients) + {me}
      ensures forall s | Mirrors(old(members).Keys, old(clients), s) && me in s.handlers &&
              s.handlers[me].phase == Idle ::
        && Enabled(s, Enter(me, notify))
        && Mirrors(members.Keys, clients, Apply(s, Enter(me, notify)))
        && Lists(peers, Apply(s, Enter(me, notify)).handlers[me].peers)
    {
      peers := ListAll(members.Keys);
      notify := ListAll(clients);
      members := members[me := peer];
      clients := clients + {me};
    }

    /** Leave, then note who remains. */
    method Remove(me: NodeId) returns (remaining: seq<NodeId>)
      modifies this
      ensures members == old(members) - {me} && clients == old(clients) - {me}
      ensures Lists(remaining, clients)
      ensures forall s | Mirrors(old(members).Keys, old(clients), s) && me in Members(s) &&
              s.handlers[me].pending == [] ::
        && Enabled(s, Quit(me, remaining))
        && Mirrors(members.Keys, clients, Apply(s, Quit(me, remaining)))
    {
      members := members - {me};
      clients := clients - {me};
      remaining := ListAll(clients);
    }
  }

  /** Go's range over a map's keys, in no particular order. */
  method ListAll(s: set<NodeId>) returns (order: seq<NodeId>)
    ensures Lists(order, s)
  {
    order := [];
    var todo := s;
    while todo != {}
      invariant todo <= s && Lists(order, s - todo)
      decreases |todo|
    {
      var x :| x in todo;
      order := order + [x];
      todo := todo - {x};
    }
    assert s - todo == s;
  }

  // ----- the handlers of one pool -----

  datatype Event = Registered(peers: set<NodeId>) | PeerJoined(id: NodeId) | PeerLeft(id: NodeId)

  datatype Post = Post(to: NodeId, event: Event)

  /** A handler is waiting for its client, serving it, or clearing up after it. */
  datatype Phase = Idle | Live | Gone

  datatype Handler = Handler(
    phase: Phase,
    peers: set<NodeId>,    // the members it found when it registered
    pending: seq<Post>,    // what it has still to push, in order
    inbox: seq<Event>      // what its own client has received
  )

  /** `met` is history: the ordered pairs of handlers that have been members together. */
  datatype Server = Server(handlers: map<NodeId, Handler>, met: set<(NodeId, NodeId)>)

  datatype Step =
    | Enter(h: NodeId, order: seq<NodeId>)
    | Push(h: NodeId)
    | Quit(h: NodeId, order: seq<NodeId>)

  ghost function Members(s: Server): set<NodeId> {
    set h | h in s.handlers && s.handlers[h].phase == Live
  }

  /** The pool's two tables hold the live handlers of the state machine. */
  ghost predicate Mirrors(members: set<NodeId>, clients: set<NodeId>, s: Server) {
    members == clients == Members(s)
  }

  function Initial(ids: set<NodeId>): Server {
    Server(map h | h in ids :: Handler(Idle, {}, [], []), {})
  }

  function Announce(order: seq<NodeId>, event: Event): seq<Post> {
    seq(|order|, i requires 0 <= i < |order| => Post(order[i], event))
  }

  /** The client has been sent its Registered. */
  predicate Greeted(inbox: seq<Event>) {
    exists i :: 0 <= i < |inbox| && inbox[i].Registered?
  }

  /** The post is a Registered, or its client has been sent one. Nothing in the server waits for it. */
  predicate InTurn(s: Server, post: Post) {
    post.to in s.handlers && (post.event.Registered? || Greeted(s.handlers[post.to].inbox))
  }

  ghost predicate Enabled(s: Server, st: Step) {
    st.h in s.handlers &&
    match st
    case Enter(h, order) => s.handlers[h].phase == Idle && Lists(order, Members(s))
    case Push(h) => s.handlers[h].pending != [] && s.handlers[h].pending[0].to in s.handlers
    case Quit(h, order) => s.handlers[h].phase == Live && s.handlers[h].pending == [] && Lists(order, Members(s) - {h})
  }

  ghost function Apply(s: Server, st: Step): Server
    requires Enabled(s, st)
  {
    match st
    case Enter(h, order) =>
      var here := Members(s);
      Server(s.handlers[h := Handler(Live, here, [Post(h, Registered(here))] + Announce(order, PeerJoined(h)), [])],
             s.met + (set m | m in here :: (h, m)) + (set m | m in here :: (m, h)))
    case Push(h) =>
      var post := s.handlers[h].pending[0];
      var popped := s.handlers[h := s.handlers[h].(pending := s.handlers[h].pending[1..])];
      s.(handlers := popped[post.to := popped[post.to].(inbox := popped[post.to].inbox + [post.event])])
    case Quit(h, order) =>
      s.(handlers := s.handlers[h := s.handlers[h].(phase := Gone, pending := Announce(order, PeerLeft(h)))])
  }

  ghost predicate Possible(s: Server, steps: seq<Step>)
    decreases |steps|
  {
    steps == [] || (Enabled(s, steps[0]) && Possible(Apply(s, steps[0]), steps[1..]))
  }

  ghost function Exec(s: Server, steps: seq<Step>): Server
    requires Possible(s, steps)
    decreases |steps|
  {
    if steps == [] then s else Exec(Apply(s, steps[0]), steps[1..])
  }

  /** A guard on steps: no push gets ahead of its client's Registered. */
  ghost predicate Ordered(s: Server, st: Step)
    requires Enabled(s, st)
  {
    st.Push? ==> InTurn(s, s.handlers[st.h].pending[0])
  }

  ghost predicate OrderedRun(s: Server, steps: seq<Step>)
    requires Possible(s, steps)
    decreases |steps|
  {
    steps == [] || (Ordered(s, steps[0]) && OrderedRun(Apply(s, steps[0]), steps[1..]))
  }

  // ----- a client's view -----

  function Take(view: set<NodeId>, e: Event): set<NodeId> {
    match e
    case Registered(peers) => peers
    case PeerJoined(id) => view + {id}
    case PeerLeft(id) => view - {id}
  }

  function Fold(inbox: seq<Event>): set<NodeId> {
    if inbox == [] then {} else Take(Fold(inbox[..|inbox| - 1]), inbox[|inbox| - 1])
  }

  function Joins(inbox: seq<Event>, id: NodeId): nat {
    if inbox == [] then 0
    else Joins(inbox[..|inbox| - 1], id) + if inbox[|inbox| - 1] == PeerJoined(id) then 1 else 0
  }

  /** What the client of `a` goes by. A Registered still to come overwrites what came before it, so
      until then it counts as received and nothing else does. */
  function View(s: Server, a: NodeId): set<NodeId>
    requires a in s.handlers
  {
    if Greeted(s.handlers[a].inbox) then Fold(s.handlers[a].inbox) else s.handlers[a].peers
  }

  predicate Due(s: Server, h: NodeId, to: NodeId, event: Event)
    requires h in s.handlers
  {
    Post(to, event) in s.handlers[h].pending
  }

  /** How often `b` has been or is about to be introduced to the client of `a`. */
  function Introductions(s: Server, a: NodeId, b: NodeId): nat
    requires a in s.handlers && b in s.handlers
  {
    (if b in s.handlers[a].peers then 1 else 0) + Joins(s.handlers[a].inbox, b) +
    (if Due(s, b, a, PeerJoined(b)) then 1 else 0)
  }

  // ----- the invariant -----

  /** A handler pushes its own news, each to one client once; its client's Registered comes first. */
  ghost predicate QueueInv(s: Server, h: NodeId)
    requires h in s.handlers
  {
    var x := s.handlers[h];
    && (forall i, j | 0 <= i < j < |x.pending| :: x.pending[i] != x.pending[j])
    && (forall p | p in x.pending :: p.to in s.handlers && s.handlers[p.to].phase != Idle)
    && (forall p | p in x.pending && !p.event.Registered? :: p.to != h &&
          p.event == if x.phase == Live then PeerJoined(h) else PeerLeft(h))
    && (forall p | p in x.pending && p.event.Registered? ::
          p == Post(h, Registered(x.peers)) && x.inbox == [] && x.phase == Live)
  }

  ghost predicate ClientInv(s: Server, h: NodeId)
    requires h in s.handlers
  {
    var x := s.handlers[h];
    && (x.phase == Idle ==> x.pending == [] && x.inbox == [] && x.peers == {})
    && (Greeted(x.inbox) <==> x.inbox != [])
    && (x.phase != Idle && x.inbox == [] ==> Post(h, Registered(x.peers)) in x.pending)
    && x.peers <= s.handlers.Keys - {h} && View(s, h) <= s.handlers.Keys - {h}
  }

  ghost predicate HandlerInv(s: Server, h: NodeId)
    requires h in s.handlers
  {
    QueueInv(s, h) && ClientInv(s, h)
  }

  /** What a live client knows of another handler, given what is still on its way. */
  ghost predicate PairInv(s: Server, a: NodeId, b: NodeId)
    requires a in s.handlers && b in s.handlers
  {
    && (s.handlers[a].phase == Live ==>
          match s.handlers[b].phase
          case Idle => b !in View(s, a)
          case Live => b in View(s, a) <==> !Due(s, b, a, PeerJoined(b))
          case Gone => b in View(s, a) <==> Due(s, b, a, PeerLeft(b)))
    && (s.handlers[b].phase == Idle ==> Introductions(s, a, b) == 0)
    && Introductions(s, a, b) == if (a, b) in s.met then 1 else 0
  }

  ghost predicate Inv(s: Server) {
    && (forall h | h in s.handlers :: HandlerInv(s, h))
    && (forall a, b | a in s.handlers && b in s.handlers && a != b :: PairInv(s, a, b))
  }

  lemma Announced(order: seq<NodeId>, event: Event)
    ensures forall p :: p in Announce(order, event) <==> p.event == event && p.to in order
    ensures (forall i, j | 0 <= i < j < |order| :: order[i] != order[j]) ==>
      forall i, j | 0 <= i < j < |order| :: Announce(order, event)[i] != Announce(order, event)[j]
  {
    forall p: Post | p.event == event && p.to in order ensures p in Announce(order, event) {
      var i :| 0 <= i < |order| && order[i] == p.to;
      assert Announce(order, event)[i] == p;
    }
  }

  lemma FoldSnoc(inbox: seq<Event>, e: Event, id: NodeId)
    ensures Fold(inbox + [e]) == Take(Fold(inbox), e)
    ensures Joins(inbox + [e], id) == Joins(inbox, id) + if e == PeerJoined(id) then 1 else 0
  {
    assert (inbox + [e])[..|inbox|] == inbox;
  }

  lemma EnterKeepsHandlers(s: Server, h: NodeId, order: seq<NodeId>)
    requires Inv(s) && Enabled(s, Enter(h, order))
    ensures forall m | m in s.handlers :: HandlerInv(Apply(s, Enter(h, order)), m)
  {
    hide PairInv, HandlerInv;
    assert Apply(s, Enter(h, order)).handlers.Keys == s.handlers.Keys;
    hide Apply;
    forall m | m in s.handlers ensures HandlerInv(Apply(s, Enter(h, order)), m) {
      if m == h { EnteringHandler(s, h, order); } else { OtherHandler(s, h, order, m); }
    }
  }

  lemma OtherHandler(s: Server, h: NodeId, order: seq<NodeId>, m: NodeId)
    requires Enabled(s, Enter(h, order)) && m in s.handlers && m != h && HandlerInv(s, m)
    ensures HandlerInv(Apply(s, Enter(h, order)), m)
  {
    hide Greeted;
    assert Apply(s, Enter(h, order)).handlers.Keys == s.handlers.Keys;
  }

  lemma EnteringHandler(s: Server, h: NodeId, order: seq<NodeId>)
    requires Enabled(s, Enter(h, order)) && HandlerInv(s, h)
    ensures HandlerInv(Apply(s, Enter(h, order)), h)
  {
    Announced(order, PeerJoined(h));
    var x := Apply(s, Enter(h, order)).handlers[h];
    assert x.pending[1..] == Announce(order, PeerJoined(h));
  }

  lemma EnterKeepsPairs(s: Server, h: NodeId, order: seq<NodeId>, a: NodeId, b: NodeId)
    requires Inv(s) && Enabled(s, Enter(h, order)) && a in s.handlers && b in s.handlers && a != b
    ensures PairInv(Apply(s, Enter(h, order)), a, b)
  {
    Announced(order, PeerJoined(h));
    assert PairInv(s, a, b) && HandlerInv(s, a) && HandlerInv(s, b) && HandlerInv(s, h);
  }

  lemma QuitKeepsHandlers(s: Server, h: NodeId, order: seq<NodeId>)
    requires Inv(s) && Enabled(s, Quit(h, order))
    ensures forall m | m in s.handlers :: HandlerInv(Apply(s, Quit(h, order)), m)
  {
    var s' := Apply(s, Quit(h, order));
    Announced(order, PeerLeft(h));
    forall m | m in s.handlers ensures HandlerInv(s', m) {
      assert HandlerInv(s, m);
    }
  }

  lemma QuitKeepsPairs(s: Server, h: NodeId, order: seq<NodeId>, a: NodeId, b: NodeId)
    requires Inv(s) && Enabled(s, Quit(h, order)) && a in s.handlers && b in s.handlers && a != b
    ensures PairInv(Apply(s, Quit(h, order)), a, b)
  {
    Announced(order, PeerLeft(h));
    assert PairInv(s, a, b) && HandlerInv(s, a) && HandlerInv(s, b) && HandlerInv(s, h);
  }

  lemma Popped(pending: seq<Post>)
    requires pending != [] && forall i, j | 0 <= i < j < |pending| :: pending[i] != pending[j]
    ensures forall p :: p in pending[1..] <==> p in pending && p != pending[0]
    ensures forall i, j | 0 <= i < j < |pending[1..]| :: pending[1..][i] != pending[1..][j]
  {}

  /** Pushing the head of a queue: what each handler looks like afterwards. */
  lemma PushEffect(s: Server, h: NodeId, m: NodeId)
    requires Inv(s) && Enabled(s, Push(h)) && Ordered(s, Push(h)) && m in s.handlers
    ensures var x, x', post := s.handlers[m], Apply(s, Push(h)).handlers[m], s.handlers[h].pending[0];
      && x'.phase == x.phase && x'.peers == x.peers
      && x'.pending == (if m == h then x.pending[1..] else x.pending)
      && x'.inbox == (if m == post.to then x.inbox + [post.event] else x.inbox)
      && (forall p :: p in x'.pending <==> p in x.pending && !(m == h && p == post))
      && (forall i, j | 0 <= i < j < |x'.pending| :: x'.pending[i] != x'.pending[j])
    ensures Apply(s, Push(h)).handlers.Keys == s.handlers.Keys
  {
    hide PairInv;
    assert HandlerInv(s, h) && HandlerInv(s, m);
    Popped(s.handlers[h].pending);
  }

  lemma PushKeepsQueue(s: Server, h: NodeId, m: NodeId)
    requires Inv(s) && Enabled(s, Push(h)) && Ordered(s, Push(h)) && m in s.handlers
    ensures QueueInv(Apply(s, Push(h)), m)
  {
    hide PairInv, Apply, ClientInv;
    assert HandlerInv(s, m) && HandlerInv(s, h);
    PushEffect(s, h, m);
    forall p | p in s.handlers[m].pending ensures p.to in s.handlers && Apply(s, Push(h)).handlers[p.to].phase != Idle {
      PushEffect(s, h, p.to);
    }
  }

  lemma PushKeepsClient(s: Server, h: NodeId, m: NodeId)
    requires Inv(s) && Enabled(s, Push(h)) && Ordered(s, Push(h)) && m in s.handlers
    ensures ClientInv(Apply(s, Push(h)), m)
  {
    hide PairInv, Apply;
    assert HandlerInv(s, m) && HandlerInv(s, h);
    PushEffect(s, h, m);
    FoldSnoc(s.handlers[m].inbox, s.handlers[h].pending[0].event, m);
  }

  lemma PushKeepsHandler(s: Server, h: NodeId, m: NodeId)
    requires Inv(s) && Enabled(s, Push(h)) && Ordered(s, Push(h)) && m in s.handlers
    ensures HandlerInv(Apply(s, Push(h)), m)
  {
    hide Inv, Enabled, Apply, QueueInv, ClientInv;
    PushKeepsQueue(s, h, m);
    PushKeepsClient(s, h, m);
  }

  lemma PushKeepsPairs(s: Server, h: NodeId, a: NodeId, b: NodeId)
    requires Inv(s) && Enabled(s, Push(h)) && Ordered(s, Push(h)) && a in s.handlers && b in s.handlers && a != b
    ensures PairInv(Apply(s, Push(h)), a, b)
  {
    assert PairInv(s, a, b) && HandlerInv(s, a) && HandlerInv(s, b) && HandlerInv(s, h);
    hide PairInv, Apply, HandlerInv, Inv;
    PushEffect(s, h, a);
    PushEffect(s, h, b);
    PushKeepsPair(s, h, a, b, Apply(s, Push(h)));
  }

  ghost predicate Pushed(s: Server, h: NodeId, m: NodeId, s': Server)
    requires h in s.handlers && m in s.handlers && m in s'.handlers && s.handlers[h].pending != []
  {
    var x, x', post := s.handlers[m], s'.handlers[m], s.handlers[h].pending[0];
    && x'.phase == x.phase && x'.peers == x.peers
    && x'.inbox == (if m == post.to then x.inbox + [post.event] else x.inbox)
    && (forall p :: p in x'.pending <==> p in x.pending && !(m == h && p == post))
  }

  lemma PushKeepsPair(s: Server, h: NodeId, a: NodeId, b: NodeId, s': Server)
    requires a in s.handlers && b in s.handlers && h in s.handlers && a != b
    requires PairInv(s, a, b) && HandlerInv(s, a) && HandlerInv(s, b) && HandlerInv(s, h)
    requires s.handlers[h].pending != [] && InTurn(s, s.handlers[h].pending[0])
    requires s'.handlers.Keys == s.handlers.Keys && s'.met == s.met
    requires Pushed(s, h, a, s') && Pushed(s, h, b, s')
    ensures PairInv(s', a, b)
  {
    var post := s.handlers[h].pending[0];
    if post.to == a {
      DeliveredTo(s, h, a, b, s');
    }
    if h == b && post.to == a {
      NewsDelivered(s, a, b, s');
    } else {
      assert forall e :: Due(s', b, a, e) == Due(s, b, a, e);
      assert b in View(s', a) <==> b in View(s, a);
    }
  }

  /** What a delivered post does to a view, seen from one handler. */
  lemma DeliveredTo(s: Server, h: NodeId, a: NodeId, b: NodeId, s': Server)
    requires a in s.handlers && b in s.handlers && h in s.handlers && a != b
    requires HandlerInv(s, a) && HandlerInv(s, h)
    requires s.handlers[h].pending != [] && InTurn(s, s.handlers[h].pending[0])
    requires s'.handlers.Keys == s.handlers.Keys && Pushed(s, h, a, s') && s.handlers[h].pending[0].to == a
    ensures var e := s.handlers[h].pending[0].event;
      && View(s', a) == (if e.Registered? then View(s, a) else Take(View(s, a), e))
      && Joins(s'.handlers[a].inbox, b) == Joins(s.handlers[a].inbox, b) + (if e == PeerJoined(b) then 1 else 0)
      && (!e.Registered? ==> e == if s.handlers[h].phase == Live then PeerJoined(h) else PeerLeft(h))
  {
    FoldSnoc(s.handlers[a].inbox, s.handlers[h].pending[0].event, b);
  }

  lemma NewsDelivered(s: Server, a: NodeId, b: NodeId, s': Server)
    requires a in s.handlers && b in s.handlers && a != b
    requires PairInv(s, a, b) && HandlerInv(s, a) && HandlerInv(s, b)
    requires s.handlers[b].pending != [] && InTurn(s, s.handlers[b].pending[0])
    requires s'.handlers.Keys == s.handlers.Keys && s'.met == s.met
    requires Pushed(s, b, a, s') && Pushed(s, b, b, s') && s.handlers[b].pending[0].to == a
    ensures PairInv(s', a, b)
  {
    DeliveredTo(s, b, a, b, s');
    var e := s.handlers[b].pending[0].event;
    assert Due(s, b, a, e) && !Due(s', b, a, e) && !e.Registered?;
  }

  lemma {:induction false} RunKeepsInv(s: Server, steps: seq<Step>)
    requires Inv(s) && Possible(s, steps) && OrderedRun(s, steps)
    ensures Inv(Exec(s, steps))
    decreases |steps|
  {
    if steps != [] {
      StepKeepsInv(s, steps[0]);
      hide Inv, Enabled, Apply;
      RunKeepsInv(Apply(s, steps[0]), steps[1..]);
    }
  }

  lemma StepKeepsInv(s: Server, st: Step)
    requires Inv(s) && Enabled(s, st) && Ordered(s, st)
    ensures Inv(Apply(s, st)) && Apply(s, st).handlers.Keys == s.handlers.Keys
  {
    hide HandlerInv, PairInv;
    var s' := Apply(s, st);
    match st
    case Enter(h, order) =>
      EnterKeepsHandlers(s, h, order);
      forall a, b | a in s'.handlers && b in s'.handlers && a != b ensures PairInv(s', a, b) {
        EnterKeepsPairs(s, h, order, a, b);
      }
    case Push(h) =>
      forall m | m in s'.handlers ensures HandlerInv(s', m) {
        PushKeepsHandler(s, h, m);
      }
      forall a, b | a in s'.handlers && b in s'.handlers && a != b ensures PairInv(s', a, b) {
        PushKeepsPairs(s, h, a, b);
      }
    case Quit(h, order) =>
      QuitKeepsHandlers(s, h, order);
      forall a, b | a in s'.handlers && b in s'.handlers && a != b ensures PairInv(s', a, b) {
        QuitKeepsPairs(s, h, order, a, b);
      }
  }

  lemma {:induction false} KeysStay(s: Server, steps: seq<Step>)
    requires Possible(s, steps)
    ensures Exec(s, steps).handlers.Keys == s.handlers.Keys
    decreases |steps|
  {
    if steps != [] {
      assert Apply(s, steps[0]).handlers.Keys == s.handlers.Keys;
      KeysStay(Apply(s, steps[0]), steps[1..]);
    }
  }

  // ----- the view is exact -----

  /** What the client of `a` will know of `b` once everything on its way has arrived. */
  predicate WillKnow(s: Server, a: NodeId, b: NodeId)
    requires a in s.handlers && b in s.handlers
  {
    (b in View(s, a) || Due(s, b, a, PeerJoined(b))) && !Due(s, b, a, PeerLeft(b))
  }

  /** Nothing is on its way to the client of `a`. */
  ghost predicate Quiet(s: Server, a: NodeId) {
    forall h | h in s.handlers :: forall p | p in s.handlers[h].pending :: p.to != a
  }

  lemma QuietViewIsExact(s: Server, a: NodeId)
    requires Inv(s) && a in Members(s) && Quiet(s, a)
    ensures Fold(s.handlers[a].inbox) == Members(s) - {a}
  {
    assert HandlerInv(s, a);
    assert !Due(s, a, a, Registered(s.handlers[a].peers));
    forall b ensures b in Fold(s.handlers[a].inbox) <==> b in Members(s) - {a} {
      if b in s.handlers && b != a { assert PairInv(s, a, b); }
    }
  }

  /** What every member has been told and is about to be told adds up to exactly the others. */
  ghost predicate Exact(s: Server) {
    forall a, b | a in Members(s) && b in s.handlers && a != b :: WillKnow(s, a, b) <==> b in Members(s)
  }

  ghost predicate ExactRun(s: Server, steps: seq<Step>)
    requires Possible(s, steps)
    decreases |steps|
  {
    Exact(s) && (steps == [] || ExactRun(Apply(s, steps[0]), steps[1..]))
  }

  lemma InvIsExact(s: Server)
    requires Inv(s)
    ensures Exact(s)
  {
    forall a, b | a in Members(s) && b in s.handlers && a != b ensures WillKnow(s, a, b) <==> b in Members(s) {
      assert PairInv(s, a, b) && HandlerInv(s, a) && HandlerInv(s, b);
    }
  }

  lemma InitialInv(ids: set<NodeId>)
    ensures Inv(Initial(ids))
  {
    var s := Initial(ids);
    assert forall h | h in s.handlers :: HandlerInv(s, h);
    assert forall a, b | a in s.handlers && b in s.handlers && a != b :: PairInv(s, a, b);
  }

  /** A push that gets ahead of Registered is lost at once: its client will miss the newcomer, or
      keep the one that left. */
  lemma EarlyPushBreaks(s: Server, h: NodeId)
    requires Inv(s) && Enabled(s, Push(h)) && !Ordered(s, Push(h))
    ensures !Exact(Apply(s, Push(h)))
  {
    var post, s' := s.handlers[h].pending[0], Apply(s, Push(h));
    var a := post.to;
    assert HandlerInv(s, h) && HandlerInv(s, a) && PairInv(s, a, h);
    assert post in s.handlers[h].pending && Post(a, Registered(s.handlers[a].peers)) in s.handlers[a].pending;
    Popped(s.handlers[h].pending);
    assert s'.handlers[a].inbox == [post.event] && !Greeted(s'.handlers[a].inbox);
    assert a in Members(s') && (h in Members(s') <==> h in Members(s));
    assert WillKnow(s', a, h) <==> h !in Members(s');
  }

  lemma {:induction false} ExactIffFrom(s: Server, steps: seq<Step>)
    requires Inv(s) && Possible(s, steps)
    ensures ExactRun(s, steps) <==> OrderedRun(s, steps)
    decreases |steps|
  {
    hide Inv, Enabled, Apply, Exact, Ordered;
    InvIsExact(s);
    if steps != [] {
      if Ordered(s, steps[0]) {
        StepKeepsInv(s, steps[0]);
        ExactIffFrom(Apply(s, steps[0]), steps[1..]);
      } else {
        OnlyPushesAreEarly(s, steps[0]);
        EarlyPushBreaks(s, steps[0].h);
        assert !ExactRun(Apply(s, steps[0]), steps[1..]);
      }
    }
  }

  lemma OnlyPushesAreEarly(s: Server, st: Step)
    requires Enabled(s, st) && !Ordered(s, st)
    ensures st == Push(st.h)
  {}

  /** Pushed views are exact, exactly. However the handlers of a pool interleave, the views are
      exact at every moment if and only if no push gets ahead of its client's Registered. */
  lemma ViewsExactIff(ids: set<NodeId>, steps: seq<Step>)
    requires Possible(Initial(ids), steps)
    ensures ExactRun(Initial(ids), steps) <==> OrderedRun(Initial(ids), steps)
  {
    InitialInv(ids);
    ExactIffFrom(Initial(ids), steps);
  }

  lemma InvTells(s: Server)
    requires Inv(s)
    ensures forall a | a in Members(s) && Quiet(s, a) :: Fold(s.handlers[a].inbox) == Members(s) - {a}
    ensures forall a, b | a in s.handlers && b in s.handlers && a != b ::
      Introductions(s, a, b) == if (a, b) in s.met then 1 else 0
  {
    forall a | a in Members(s) && Quiet(s, a) ensures Fold(s.handlers[a].inbox) == Members(s) - {a} {
      QuietViewIsExact(s, a);
    }
    forall a, b | a in s.handlers && b in s.handlers && a != b
      ensures Introductions(s, a, b) == if (a, b) in s.met then 1 else 0
    {
      assert PairInv(s, a, b);
    }
  }

  /** What a client gets to see of an exact run: with nothing left to push to it, folding what it
      received gives the other members; and of any two that were ever members together each is
      introduced to the other exactly once. */
  lemma ViewIsExact(ids: set<NodeId>, steps: seq<Step>)
    requires Possible(Initial(ids), steps) && ExactRun(Initial(ids), steps)
    ensures var s := Exec(Initial(ids), steps);
      && s.handlers.Keys == ids
      && (forall a | a in Members(s) && Quiet(s, a) :: Fold(s.handlers[a].inbox) == Members(s) - {a})
      && (forall a, b | a in ids && b in ids && a != b :: Introductions(s, a, b) == if (a, b) in s.met then 1 else 0)
  {
    hide *;
    InitialInv(ids);
    ViewsExactIff(ids, steps);
    RunKeepsInv(Initial(ids), steps);
    KeysStay(Initial(ids), steps);
    InitialKeys(ids);
    InvTells(Exec(Initial(ids), steps));
  }

  lemma InitialKeys(ids: set<NodeId>)
    ensures Initial(ids).handlers.Keys == ids
  {}

  // ----- a push that gets ahead -----

  lemma Cons(s: Server, st: Step, rest: seq<Step>)
    requires Enabled(s, st) && Possible(Apply(s, st), rest)
    ensures Possible(s, [st] + rest) && Exec(s, [st] + rest) == Exec(Apply(s, st), rest)
  {
    hide Enabled, Apply;
    assert ([st] + rest)[1..] == rest;
  }

  lemma Nothing(s: Server)
    ensures Possible(s, []) && Exec(s, []) == s
  {}

  /** `b` enters right after `a` and tells it so before `a` has been sent its Registered: when
      everything has been pushed, `a` takes itself to be alone. */
  lemma NewcomerIsMissed(ids: set<NodeId>, a: NodeId, b: NodeId) returns (steps: seq<Step>)
    requires a in ids && b in ids && a != b
    ensures Possible(Initial(ids), steps)
    ensures var s := Exec(Initial(ids), steps);
      Members(s) == {a, b} && Quiet(s, a) && Fold(s.handlers[a].inbox) == {}
  {
    hide Possible, Exec;
    var s0 := Initial(ids);
    assert Members(s0) == {};
    var s1 := Apply(s0, Enter(a, []));
    assert Members(s1) == {a};
    var s2 := Apply(s1, Enter(b, [a]));
    assert Announce([a], PeerJoined(b)) == [Post(a, PeerJoined(b))];
    var s3 := Apply(s2, Push(b));
    var s4 := Apply(s3, Push(b));
    var s5 := Apply(s4, Push(a));
    assert s5.handlers[a].inbox == [PeerJoined(b)] + [Registered({})];
    FoldSnoc([PeerJoined(b)], Registered({}), a);
    Nothing(s5);
    Cons(s4, Push(a), []);
    Cons(s3, Push(b), [Push(a)] + []);
    Cons(s2, Push(b), [Push(b)] + ([Push(a)] + []));
    Cons(s1, Enter(b, [a]), [Push(b)] + ([Push(b)] + ([Push(a)] + [])));
    Cons(s0, Enter(a, []), [Enter(b, [a])] + ([Push(b)] + ([Push(b)] + ([Push(a)] + []))));
    steps := [Enter(a, [])] + ([Enter(b, [a])] + ([Push(b)] + ([Push(b)] + ([Push(a)] + []))));
  }
}
