/** What the hand-off of visitors does not promise, each with its exact condition, a run
    that leads there, and what holds from then on (internal/server/server.go). */
module HandoffLaws {
  import opened Config
  import opened Registry
  import opened RegistryLaws
  import opened Handoff

  // ---- A delivery that comes too late ----

  /** A removed proxy whose queue was drained and that no removal will drain again. */
  predicate Abandoned(w: World, p: Proxy) {
    p in w.lanes && !Live(w.reg, p) && p !in w.draining
  }

  function QueueOf(w: World, p: Proxy): seq<Conn> {
    if p in w.lanes then w.lanes[p].queue else []
  }

  function LeftOf(w: World, p: Proxy): seq<Exit> {
    if p in w.lanes then w.lanes[p].left else []
  }

  /** A delivery ends in the queue of an abandoned proxy exactly when its proxy was
      abandoned before and the queue has room: nothing else is checked. */
  lemma LateDeliveryExactly(cfg: Settings, w: World, v: Conn)
    requires WorldInv(cfg, w) && At(w, v, Arrived)
    ensures var p := w.visitors[v].proxy;
      var w' := Act(cfg, w, Offer(v));
      v in QueueOf(w', p) && Abandoned(w', p) <==> Abandoned(w, p) && |QueueOf(w, p)| < 32
  {
    hide Inv, LanesCover, NotifiedSound, LeftSound, VisitorSound, StreamSound, Live;
    var p := w.visitors[v].proxy;
    assert LaneSound(w, p);
    NotYetQueued(w, p, v);
  }

  lemma NotYetQueued(w: World, p: Proxy, v: Conn)
    requires p in w.lanes && LaneSound(w, p) && v in w.visitors && w.visitors[v].phase == Arrived
    ensures v !in w.lanes[p].queue
  {
    hide NotifiedSound, LeftSound;
    var l := w.lanes[p];
    forall i | 0 <= i < |l.queue| ensures l.queue[i] != v {
      assert l.entered[|l.left| + i] == l.queue[i];
    }
  }

  /** How a visitor can still leave an abandoned queue: a failed notification takes it
      back, or a stream receives it that had found the proxy before. */
  predicate LateExit(w: World, p: Proxy, e: Exit) {
    match e.how
    case ByDrain => false
    case ByTakeBack => true
    case ByStream(d) => d in w.streams && w.streams[d].Found? && w.streams[d].proxy == p
  }

  ghost predicate FoundBefore(w: World, w': World, p: Proxy) {
    forall d :: d in w'.streams && w'.streams[d].Found? && w'.streams[d].proxy == p ==>
      d in w.streams && w.streams[d] == w'.streams[d]
  }

  lemma NotLiveNotFound(cfg: Settings, w: World, p: Proxy, d: nat)
    requires Inv(cfg, w.reg) && !Live(w.reg, p)
    requires d in w.streams && !w.streams[d].Found?
    ensures var w' := Act(cfg, w, Find(d));
      d in w'.streams && w'.streams[d].Found? ==> w'.streams[d].proxy != p
  {
    hide Live, PortsAgree, HostsAgree, ProxiesSound, SessionsSound;
    if w.streams[d].Announced? {
      var s := w.streams[d];
      if s.se in w.reg.owned && s.name in w.reg.owned[s.se] {
        OwnedIsLive(w.reg, s.se, s.name);
      }
    }
  }

  lemma AbandonedStreams(cfg: Settings, w: World, p: Proxy, a: Action)
    requires Inv(cfg, w.reg) && !Live(w.reg, p)
    ensures FoundBefore(w, Act(cfg, w, a), p)
  {
    hide Live, Step, OwnersAgree, PortsAgree, HostsAgree, ProxiesSound, SessionsSound, Values;
    if a.Find? && a.d in w.streams && !w.streams[a.d].Found? {
      NotLiveNotFound(cfg, w, p, a.d);
    }
  }

  lemma AbandonedLane(cfg: Settings, w: World, p: Proxy, a: Action)
    requires Abandoned(w, p)
    ensures var w' := Act(cfg, w, a);
      p in w'.lanes &&
      (w'.lanes[p].left == w.lanes[p].left ||
       exists e :: LateExit(w, p, e) && w'.lanes[p].left == w.lanes[p].left + [e])
  {
    hide Live, Step, Values;
    var w' := Act(cfg, w, a);
    if w.lanes[p].queue != [] && w'.lanes[p].left != w.lanes[p].left {
      var how := if a.TakeBack? then ByTakeBack else if a.Dequeue? then ByStream(a.d) else ByDrain;
      assert LateExit(w, p, Exit(w.lanes[p].queue[0], how));
    }
  }

  lemma AbandonedStays(cfg: Settings, w: World, p: Proxy, a: Action)
    requires AllValid(cfg.ranges) && WorldInv(cfg, w) && Abandoned(w, p)
    ensures Abandoned(Act(cfg, w, a), p)
  {
    hide Live, Step, LaneSound, VisitorSound, StreamSound, Values;
    hide OwnersAgree, PortsAgree, HostsAgree, SessionsSound, ProxiesSound;
    if a.Registry? {
      StepLive(cfg, w.reg, a.e);
      ValuesLive(w.reg);
    }
  }

  /** Once abandoned, for ever: over every later run the proxy never becomes live nor
      drains again, and whoever leaves its queue leaves by a take-back or by a stream
      that had already found the proxy. */
  lemma {:induction false} AbandonedForGood(cfg: Settings, w: World, p: Proxy, actions: seq<Action>)
    requires AllValid(cfg.ranges) && WorldInv(cfg, w) && Abandoned(w, p)
    ensures var w' := Acts(cfg, w, actions);
      && Abandoned(w', p) && FoundBefore(w, w', p)
      && w.lanes[p].left <= w'.lanes[p].left
      && forall e :: e in w'.lanes[p].left[|w.lanes[p].left|..] ==> LateExit(w, p, e)
    decreases |actions|
  {
    hide WorldInv, Act, Live;
    if actions != [] {
      var init, a := actions[..|actions| - 1], actions[|actions| - 1];
      var mid := Acts(cfg, w, init);
      LaterActsKeepInv(cfg, w, init);
      AbandonedForGood(cfg, w, p, init);
      RegOf(cfg, mid);
      AbandonedStays(cfg, mid, p, a);
      AbandonedStreams(cfg, mid, p, a);
      AbandonedLane(cfg, mid, p, a);
      ExitsGrow(w, mid, Act(cfg, mid, a), p);
    }
  }

  lemma RegOf(cfg: Settings, w: World)
    requires WorldInv(cfg, w)
    ensures Inv(cfg, w.reg)
  {}

  lemma ExitsGrow(w: World, mid: World, w': World, p: Proxy)
    requires p in w.lanes && p in mid.lanes && p in w'.lanes && FoundBefore(w, mid, p)
    requires w.lanes[p].left <= mid.lanes[p].left
    requires forall e :: e in mid.lanes[p].left[|w.lanes[p].left|..] ==> LateExit(w, p, e)
    requires w'.lanes[p].left == mid.lanes[p].left ||
             exists e :: LateExit(mid, p, e) && w'.lanes[p].left == mid.lanes[p].left + [e]
    ensures w.lanes[p].left <= w'.lanes[p].left
    ensures forall e :: e in w'.lanes[p].left[|w.lanes[p].left|..] ==> LateExit(w, p, e)
  {
    if w'.lanes[p].left != mid.lanes[p].left {
      var e :| LateExit(mid, p, e) && w'.lanes[p].left == mid.lanes[p].left + [e];
      assert LateExit(w, p, e);
      var n := |w.lanes[p].left|;
      assert w'.lanes[p].left[n..] == mid.lanes[p].left[n..] + [e];
    }
  }

  /** So a visitor queued at an abandoned proxy waits there until such an exit. */
  lemma LateVisitorWaits(cfg: Settings, w: World, p: Proxy, v: Conn, actions: seq<Action>)
    requires AllValid(cfg.ranges) && WorldInv(cfg, w) && Abandoned(w, p) && v in w.lanes[p].queue
    ensures var w' := Acts(cfg, w, actions);
      && p in w'.lanes
      && (v in w'.lanes[p].queue ||
          exists e :: e in w'.lanes[p].left && e.conn == v && LateExit(w, p, e))
  {
    hide WorldInv, Live, Acts;
    AbandonedForGood(cfg, w, p, actions);
    LaterActsKeepInv(cfg, w, actions);
    var w' := Acts(cfg, w, actions);
    ShapeOf(cfg, w, p);
    ShapeOf(cfg, w', p);
    EnteredStays(cfg, w, p, v, actions);
    LeavesLate(w.lanes[p], w'.lanes[p], v);
    if v !in w'.lanes[p].queue {
      var i :| |w.lanes[p].left| <= i < |w'.lanes[p].left| && w'.lanes[p].left[i].conn == v;
      var e := w'.lanes[p].left[i];
      assert w'.lanes[p].left[|w.lanes[p].left|..][i - |w.lanes[p].left|] == e;
    }
  }

  lemma ShapeOf(cfg: Settings, w: World, p: Proxy)
    requires WorldInv(cfg, w) && p in w.lanes
    ensures LaneShape(w.lanes[p])
  {
    hide Inv, EnteredSound, NotifiedSound, LeftSound, VisitorSound, StreamSound, LaneShape;
    assert LaneSound(w, p);
  }

  lemma LeavesLate(was: Lane, now: Lane, v: Conn)
    requires LaneShape(was) && LaneShape(now) && was.left <= now.left && v in was.queue && v in now.entered
    ensures v in now.queue || exists i :: |was.left| <= i < |now.left| && now.left[i].conn == v
  {
    var i :| 0 <= i < |now.entered| && now.entered[i] == v;
    if i >= |now.left| {
      assert now.queue[i - |now.left|] == v;
    } else {
      assert Conns(now.left)[i] == now.left[i].conn == v;
      var k :| 0 <= k < |was.queue| && was.queue[k] == v;
      assert was.entered[|was.left| + k] == v;
      forall j | 0 <= j < |was.left| ensures was.left[j].conn != v {
        assert was.entered[j] == Conns(was.left)[j] == was.left[j].conn;
      }
    }
  }

  lemma {:induction false} EnteredStays(cfg: Settings, w: World, p: Proxy, v: Conn, actions: seq<Action>)
    requires AllValid(cfg.ranges) && WorldInv(cfg, w) && p in w.lanes && v in w.lanes[p].queue
    ensures p in Acts(cfg, w, actions).lanes && v in Acts(cfg, w, actions).lanes[p].entered
    decreases |actions|
  {
    hide WorldInv, Act;
    if actions == [] {
      ShapeOf(cfg, w, p);
      var k :| 0 <= k < |w.lanes[p].queue| && w.lanes[p].queue[k] == v;
      assert w.lanes[p].entered[|w.lanes[p].left| + k] == v;
    } else {
      EnteredStays(cfg, w, p, v, actions[..|actions| - 1]);
      EnteredStep(cfg, Acts(cfg, w, actions[..|actions| - 1]), p, v, actions[|actions| - 1]);
    }
  }

  lemma EnteredStep(cfg: Settings, w: World, p: Proxy, v: Conn, a: Action)
    requires p in w.lanes && v in w.lanes[p].entered
    ensures p in Act(cfg, w, a).lanes && v in Act(cfg, w, a).lanes[p].entered
  {
    hide Step, Live, Values;
  }

  // ---- A failed notification ----

  /** A failed notification closes its own visitor, whatever became of it meanwhile, and
      takes back another one exactly when another one heads the queue. */
  lemma FailureTakesAnotherExactly(cfg: Settings, w: World, v: Conn)
    requires WorldInv(cfg, w) && At(w, v, NotifyFailed)
    ensures var p := w.visitors[v].proxy;
      var w' := Act(cfg, w, TakeBack(v));
      && v in w'.closed
      && ((exists u :: u != v && Exit(u, ByTakeBack) in LeftOf(w', p) && Exit(u, ByTakeBack) !in LeftOf(w, p)) <==>
          QueueOf(w, p) != [] && QueueOf(w, p)[0] != v)
  {
    hide Inv, LanesCover, VisitorSound, StreamSound;
    var p := w.visitors[v].proxy;
    var l := w.lanes[p];
    ShapeOf(cfg, w, p);
    if l.queue != [] {
      var e := Exit(l.queue[0], ByTakeBack);
      HeadNotLeft(l, e);
    }
  }

  lemma HeadNotLeft(l: Lane, e: Exit)
    requires LaneShape(l) && l.queue != [] && e.conn == l.queue[0]
    ensures e !in l.left
  {
    assert l.entered[|l.left|] == e.conn;
    forall i | 0 <= i < |l.left| ensures l.left[i] != e {
      assert l.entered[i] == Conns(l.left)[i] == l.left[i].conn;
    }
  }

  // ---- Runs that lead there ----

  lemma {:induction false} ActsAppend(cfg: Settings, w: World, a: seq<Action>, b: seq<Action>)
    ensures Acts(cfg, w, a + b) == Acts(cfg, Acts(cfg, w, a), b)
    decreases |b|
  {
    hide Act;
    if b == [] {
      assert a + b == a;
    } else {
      assert (a + b)[..|a + b| - 1] == a + b[..|b| - 1];
      ActsAppend(cfg, w, a, b[..|b| - 1]);
    }
  }

  lemma ActsOne(cfg: Settings, w: World, a: Action)
    ensures Acts(cfg, w, [a]) == Act(cfg, w, a)
  {
    hide Act;
    assert [a][..0] == [];
    assert Acts(cfg, w, []) == w;
  }

  lemma ActsCons(cfg: Settings, w: World, a: Action, rest: seq<Action>)
    ensures Acts(cfg, w, [a] + rest) == Acts(cfg, Act(cfg, w, a), rest)
  {
    hide Acts, Act;
    ActsOne(cfg, w, a);
    ActsAppend(cfg, w, [a], rest);
  }

  /** A client logs in on the empty server and registers one tcp proxy. */
  function Opening(client: string, np: NewProxy): seq<Action> {
    [Registry(LoginEv(client)), Registry(RegisterEv(SessionId(0, client), np, true))]
  }

  function Opened(client: string, np: NewProxy): Proxy {
    Proxy(0, np.name, "tcp", client, np.local, np.remotePort, "", [], [], SessionId(0, client))
  }

  /** What matters of the world then: one live proxy under its port, its name and its
      key, with an empty queue. */
  ghost predicate JustOpened(w: World, client: string, np: NewProxy) {
    var p := Opened(client, np);
    && w.reg.owned == map[SessionId(0, client) := map[np.name := p]]
    && w.reg.proxies == map[KeyOf(p) := p]
    && w.reg.byPort == map[np.remotePort := p]
    && w.lanes == map[p := EMPTY_LANE]
    && w.draining == {} && w.visitors == map[] && w.streams == map[] && w.closed == {}
  }

  lemma OpeningRegistry(cfg: Settings, client: string, np: NewProxy)
    requires client != "" && Acceptable(cfg, np)
    ensures Step(cfg, INITIAL, LoginEv(client)).proxies == map[]
    ensures var p := Opened(client, np);
      var st := Step(cfg, Step(cfg, INITIAL, LoginEv(client)), RegisterEv(SessionId(0, client), np, true));
      && st.owned == map[SessionId(0, client) := map[np.name := p]]
      && st.proxies == map[KeyOf(p) := p] && st.byPort == map[np.remotePort := p]
  {
    hide Key, FirstFree, ScanOrder, SameConfig, Allowed;
  }

  lemma FirstLane(cfg: Settings, w: World, e: Event, p: Proxy)
    requires w.lanes == map[] && w.draining == {} && w.reg.proxies == map[]
    requires Step(cfg, w.reg, e).proxies == map[KeyOf(p) := p]
    ensures var w' := Act(cfg, w, Registry(e));
      && w' == w.(reg := Step(cfg, w.reg, e), lanes := map[p := EMPTY_LANE])
  {
    hide Step, Key;
    var proxies := Step(cfg, w.reg, e).proxies;
    assert proxies[KeyOf(p)] == p;
    assert Values(proxies) == {p};
    assert Values(w.reg.proxies) == {};
  }

  lemma NoLaneYet(cfg: Settings, e: Event)
    requires Step(cfg, INITIAL, e).proxies == map[]
    ensures Act(cfg, START, Registry(e)) == START.(reg := Step(cfg, INITIAL, e))
  {
    hide Step;
    assert Values(Step(cfg, INITIAL, e).proxies) == {};
  }

  lemma OpeningOpens(cfg: Settings, client: string, np: NewProxy)
    requires client != "" && Acceptable(cfg, np)
    ensures JustOpened(Acts(cfg, START, Opening(client, np)), client, np)
  {
    hide Acts, Act, Step, Acceptable, Key;
    var login, register := LoginEv(client), RegisterEv(SessionId(0, client), np, true);
    assert Opening(client, np) == [Registry(login)] + [Registry(register)];
    ActsCons(cfg, START, Registry(login), [Registry(register)]);
    ActsOne(cfg, Act(cfg, START, Registry(login)), Registry(register));
    OpeningRegistry(cfg, client, np);
    NoLaneYet(cfg, login);
    FirstLane(cfg, Act(cfg, START, Registry(login)), register, Opened(client, np));
  }

  /** The run to an abandoned delivery: the visitor is accepted, the proxy closed and its
      queue found empty, and only then is the visitor offered. It is queued, open, at a
      proxy nobody can look up any more. */
  lemma LateDeliveryHappens(cfg: Settings, client: string, np: NewProxy)
    requires client != "" && Acceptable(cfg, np)
    ensures var p := Opened(client, np);
      var late := [Accept(0, np.remotePort), Registry(CloseEv(SessionId(0, client), np.name)), DrainEnd(p), Offer(0)];
      var w := Acts(cfg, START, Opening(client, np) + late);
      && Abandoned(w, p) && w.lanes[p].queue == [0] && 0 !in w.closed && w.reg.proxies == map[]
  {
    hide Key, Acceptable, Register, Opening, Acts, Act, Abandoned;
    OpeningOpens(cfg, client, np);
    var p := Opened(client, np);
    var close := Registry(CloseEv(SessionId(0, client), np.name));
    var accept, drained := Accept(0, np.remotePort), DrainEnd(p);
    var w := Acts(cfg, START, Opening(client, np));
    ActsAppend(cfg, START, Opening(client, np), [accept, close, drained, Offer(0)]);
    assert [accept, close, drained, Offer(0)] == [accept] + ([close] + ([drained] + [Offer(0)]));
    var w1 := Act(cfg, w, accept);
    var w2 := Act(cfg, w1, close);
    var w3 := Act(cfg, w2, drained);
    ActsCons(cfg, w, accept, [close] + ([drained] + [Offer(0)]));
    ActsCons(cfg, w1, close, [drained] + [Offer(0)]);
    ActsCons(cfg, w2, drained, [Offer(0)]);
    ActsOne(cfg, w3, Offer(0));
    AcceptsFirst(cfg, w, p, np.remotePort);
    ClosedOnly(cfg, w1, client, np);
    hide JustOpened;
    EndsThenOffers(cfg, w2, p);
  }

  lemma AcceptsFirst(cfg: Settings, w: World, p: Proxy, port: int)
    requires w.visitors == map[] && port in w.reg.byPort && w.reg.byPort[port] == p
    ensures Act(cfg, w, Accept(0, port)) == w.(visitors := map[0 := Visitor(p, ByPort(port), Arrived)])
  {}

  lemma EndsThenOffers(cfg: Settings, w: World, p: Proxy)
    requires w.lanes == map[p := EMPTY_LANE] && w.draining == {p} && w.closed == {}
    requires 0 in w.visitors && w.visitors[0].phase == Arrived && w.visitors[0].proxy == p && w.reg.proxies == map[]
    ensures var w' := Act(cfg, Act(cfg, w, DrainEnd(p)), Offer(0));
      Abandoned(w', p) && w'.lanes[p].queue == [0] && 0 !in w'.closed && w'.reg.proxies == map[]
  {
    hide Key;
    assert EMPTY_LANE.queue + [0] == [0];
  }

  lemma ClosedRegistry(cfg: Settings, st: State, client: string, np: NewProxy)
    requires st.owned == map[SessionId(0, client) := map[np.name := Opened(client, np)]]
    requires st.proxies == map[KeyOf(Opened(client, np)) := Opened(client, np)]
    ensures Step(cfg, st, CloseEv(SessionId(0, client), np.name)).proxies == map[]
  {
    hide Key;
  }

  lemma ClosedOnly(cfg: Settings, w: World, client: string, np: NewProxy)
    requires var p := Opened(client, np);
      && w.reg.owned == map[SessionId(0, client) := map[np.name := p]]
      && w.reg.proxies == map[KeyOf(p) := p]
      && w.lanes == map[p := EMPTY_LANE] && w.draining == {}
    ensures var p := Opened(client, np);
      var w' := Act(cfg, w, Registry(CloseEv(SessionId(0, client), np.name)));
      && w'.reg.proxies == map[] && w'.draining == {p} && w'.lanes == w.lanes
      && w'.visitors == w.visitors && w'.closed == w.closed
  {
    hide Key, KeyOf, Step, Opened;
    var p, close := Opened(client, np), CloseEv(SessionId(0, client), np.name);
    ClosedRegistry(cfg, w.reg, client, np);
    assert w.reg.proxies[KeyOf(p)] == p;
    assert Values(w.reg.proxies) == {p};
    assert Values(Step(cfg, w.reg, close).proxies) == {};
  }

  /** A visitor is accepted at a port, queued behind `queue`, and its announcement is
      written or not. */
  lemma OneVisitor(cfg: Settings, w: World, p: Proxy, port: int, v: Conn, ok: bool)
    requires port in w.reg.byPort && w.reg.byPort[port] == p && v !in w.visitors
    requires p in w.lanes && |w.lanes[p].queue| < QUEUE_CAP
    ensures var w' := Acts(cfg, w, [Accept(v, port), Offer(v), if ok then NotifyOk(v) else NotifyError(v)]);
      && w'.reg == w.reg && w'.closed == w.closed
      && p in w'.lanes && w'.lanes[p].queue == w.lanes[p].queue + [v] && w'.lanes[p].left == w.lanes[p].left
      && w'.visitors == w.visitors[v := Visitor(p, ByPort(port), if ok then Notified else NotifyFailed)]
      && w'.streams == w.streams
  {
    hide Step;
    ThreeActs(cfg, w, Accept(v, port), Offer(v), if ok then NotifyOk(v) else NotifyError(v));
    hide Acts;
  }

  /** The run to a wrong take-back: two visitors are queued, the announcement of the
      second fails, and the first, which was announced, is closed in its place, while the
      second stays queued although closed. */
  lemma WrongTakeBackHappens(cfg: Settings, client: string, np: NewProxy)
    requires client != "" && Acceptable(cfg, np)
    ensures var p := Opened(client, np);
      var rest := [Accept(0, np.remotePort), Offer(0), NotifyOk(0)]
                  + ([Accept(1, np.remotePort), Offer(1), NotifyError(1)] + [TakeBack(1)]);
      var w := Acts(cfg, START, Opening(client, np) + rest);
      && p in w.lanes && w.lanes[p].left == [Exit(0, ByTakeBack)] && w.lanes[p].queue == [1]
      && w.closed == {0, 1} && 0 in w.visitors && w.visitors[0].phase == Notified
  {
    hide Key, Acceptable, Opening, Acts, Step, Act;
    OpeningOpens(cfg, client, np);
    var port, p := np.remotePort, Opened(client, np);
    var w := Acts(cfg, START, Opening(client, np));
    var first, second := [Accept(0, port), Offer(0), NotifyOk(0)], [Accept(1, port), Offer(1), NotifyError(1)];
    ActsAppend(cfg, START, Opening(client, np), first + (second + [TakeBack(1)]));
    ActsAppend(cfg, w, first, second + [TakeBack(1)]);
    var w1 := Acts(cfg, w, first);
    OneVisitor(cfg, w, p, port, 0, true);
    ActsAppend(cfg, w1, second, [TakeBack(1)]);
    var w2 := Acts(cfg, w1, second);
    OneVisitor(cfg, w1, p, port, 1, false);
    ActsOne(cfg, w2, TakeBack(1));
    TookBack(cfg, w2, p, 0, 1);
  }

  lemma TookBack(cfg: Settings, w: World, p: Proxy, u: Conn, v: Conn)
    requires At(w, v, NotifyFailed) && w.visitors[v].proxy == p && w.lanes[p].queue == [u, v] && u != v
    ensures var w' := Act(cfg, w, TakeBack(v));
      && p in w'.lanes && w'.lanes[p].queue == [v] && w'.lanes[p].left == w.lanes[p].left + [Exit(u, ByTakeBack)]
      && w'.closed == w.closed + {u, v}
      && (u in w.visitors ==> u in w'.visitors && w'.visitors[u] == w.visitors[u])
  {
    hide Step;
  }

  /** A data stream is opened for a proxy, finds it and takes the head of its queue. */
  lemma OneStream(cfg: Settings, w: World, p: Proxy, d: nat, se: SessionId, name: string)
    requires d !in w.streams && se in w.reg.owned && name in w.reg.owned[se] && w.reg.owned[se][name] == p
    requires p in w.lanes && w.lanes[p].queue != []
    ensures var w' := Acts(cfg, w, [Open(d, se, name), Find(d), Dequeue(d)]);
      && w'.reg == w.reg && w'.visitors == w.visitors && w'.closed == w.closed
      && w'.streams == w.streams[d := Joined(se, name, p, w.lanes[p].queue[0])]
      && w'.lanes == w.lanes[p := Pop(w.lanes[p], ByStream(d))]
  {
    hide Act, Acts, Pop;
    ThreeActs(cfg, w, Open(d, se, name), Find(d), Dequeue(d));
    var w1 := w.(streams := w.streams[d := Announced(se, name)]);
    OpensStream(cfg, w, d, se, name);
    FindsProxy(cfg, w1, p, d, se, name);
    var w2 := w1.(streams := w1.streams[d := Found(se, name, p)]);
    TakesHead(cfg, w2, p, d, se, name);
    assert w2.streams[d := Joined(se, name, p, w.lanes[p].queue[0])] == w.streams[d := Joined(se, name, p, w.lanes[p].queue[0])];
  }

  lemma OpensStream(cfg: Settings, w: World, d: nat, se: SessionId, name: string)
    requires d !in w.streams
    ensures Act(cfg, w, Open(d, se, name)) == w.(streams := w.streams[d := Announced(se, name)])
  {}

  lemma FindsProxy(cfg: Settings, w: World, p: Proxy, d: nat, se: SessionId, name: string)
    requires d in w.streams && w.streams[d] == Announced(se, name)
    requires se in w.reg.owned && name in w.reg.owned[se] && w.reg.owned[se][name] == p
    ensures Act(cfg, w, Find(d)) == w.(streams := w.streams[d := Found(se, name, p)])
  {}

  lemma TakesHead(cfg: Settings, w: World, p: Proxy, d: nat, se: SessionId, name: string)
    requires d in w.streams && w.streams[d] == Found(se, name, p) && p in w.lanes && w.lanes[p].queue != []
    ensures Act(cfg, w, Dequeue(d)) == w.(
      streams := w.streams[d := Joined(se, name, p, w.lanes[p].queue[0])],
      lanes := w.lanes[p := Pop(w.lanes[p], ByStream(d))])
  {}

  /** The run to the worst case: a visitor's announcement fails, but a stream that was
      opened for another announcement has already taken it; the take-back then closes
      that joined visitor, and an unrelated, announced one besides. */
  lemma JoinedVisitorIsClosed(cfg: Settings, client: string, np: NewProxy)
    requires client != "" && Acceptable(cfg, np)
    ensures var p, se := Opened(client, np), SessionId(0, client);
      var rest := [Accept(0, np.remotePort), Offer(0), NotifyError(0)]
                  + ([Accept(1, np.remotePort), Offer(1), NotifyOk(1)]
                     + ([Open(0, se, np.name), Find(0), Dequeue(0)] + [TakeBack(0)]));
      var w := Acts(cfg, START, Opening(client, np) + rest);
      && 0 in w.streams && w.streams[0] == Joined(se, np.name, p, 0)
      && p in w.lanes && Exit(1, ByTakeBack) in w.lanes[p].left && w.closed == {0, 1}
  {
    hide Key, Acceptable, Opening, Acts, Step, Act;
    OpeningOpens(cfg, client, np);
    var port, p, se := np.remotePort, Opened(client, np), SessionId(0, client);
    var w := Acts(cfg, START, Opening(client, np));
    var first, second := [Accept(0, port), Offer(0), NotifyError(0)], [Accept(1, port), Offer(1), NotifyOk(1)];
    var stream, last := [Open(0, se, np.name), Find(0), Dequeue(0)], [TakeBack(0)];
    ActsAppend(cfg, START, Opening(client, np), first + (second + (stream + last)));
    ActsAppend(cfg, w, first, second + (stream + last));
    OneVisitor(cfg, w, p, port, 0, false);
    var w1 := Acts(cfg, w, first);
    ActsAppend(cfg, w1, second, stream + last);
    OneVisitor(cfg, w1, p, port, 1, true);
    var w2 := Acts(cfg, w1, second);
    ActsAppend(cfg, w2, stream, last);
    assert w2.lanes[p].queue == [0, 1];
    OneStream(cfg, w2, p, 0, se, np.name);
    var w3 := Acts(cfg, w2, stream);
    assert w3.lanes[p].queue == [1];
    ActsOne(cfg, w3, TakeBack(0));
    TookOther(cfg, w3, p, 1, 0);
  }

  lemma TookOther(cfg: Settings, w: World, p: Proxy, u: Conn, v: Conn)
    requires At(w, v, NotifyFailed) && w.visitors[v].proxy == p && w.lanes[p].queue == [u]
    ensures var w' := Act(cfg, w, TakeBack(v));
      && p in w'.lanes && w'.lanes[p].left == w.lanes[p].left + [Exit(u, ByTakeBack)]
      && w'.closed == w.closed + {u, v} && w'.streams == w.streams
  {
    hide Step;
  }

  lemma ThreeActs(cfg: Settings, w: World, a: Action, b: Action, c: Action)
    ensures Acts(cfg, w, [a, b, c]) == Act(cfg, Act(cfg, Act(cfg, w, a), b), c)
  {
    hide Act, Acts;
    assert [a, b, c] == [a] + ([b] + [c]);
    ActsCons(cfg, w, a, [b] + [c]);
    ActsCons(cfg, Act(cfg, w, a), b, [c]);
    ActsOne(cfg, Act(cfg, Act(cfg, w, a), b), c);
  }

  // ---- A visitor that gets through ----

  /** A visitor arrives, is queued and announced, and the stream opened for it asks for the
      announced proxy and takes it. */
  function Passage(arrive: Action, p: Proxy, v: Conn, d: nat): seq<Action> {
    [arrive] + [Offer(v), NotifyOk(v)] + [Open(d, p.session, p.name), Find(d), Dequeue(d)]
  }

  /** The ways in: the proxy's own port, or one of its hosts. */
  ghost predicate ArrivesAt(w: World, arrive: Action, p: Proxy, v: Conn) {
    match arrive
    case Accept(c, port) => c == v && p.remotePort == port != 0
    case Lookup(c, host) => c == v && host in p.hosts
    case _ => false
  }

  /** From every world, a new visitor of a live proxy that nobody waits for, by its port or by
      any of its hosts, is queued, announced, and joined to the stream that the client opens
      for it at that very proxy, and is not closed. */
  lemma VisitorGetsThrough(cfg: Settings, w: World, arrive: Action, p: Proxy, v: Conn, d: nat)
    requires WorldInv(cfg, w) && Live(w.reg, p) && ArrivesAt(w, arrive, p, v)
    requires v !in w.visitors && v !in w.closed && d !in w.streams && QueueOf(w, p) == []
    ensures var w' := Acts(cfg, w, Passage(arrive, p, v, d));
      && d in w'.streams && w'.streams[d] == Joined(p.session, p.name, p, v)
      && v !in w'.closed && v in w'.visitors && w'.visitors[v].phase == Notified && w'.visitors[v].proxy == p
      && w'.reg == w.reg && QueueOf(w', p) == []
  {
    hide WorldInv, Live, Act, Acts, Pop, ArrivesAt;
    LiveIsReachable(cfg, w, arrive, p, v);
    ActsCons(cfg, w, arrive, [Offer(v), NotifyOk(v)] + [Open(d, p.session, p.name), Find(d), Dequeue(d)]);
    assert Passage(arrive, p, v, d) == [arrive] + ([Offer(v), NotifyOk(v)] + [Open(d, p.session, p.name), Find(d), Dequeue(d)]);
    var w1 := Act(cfg, w, arrive);
    ActsAppend(cfg, w1, [Offer(v), NotifyOk(v)], [Open(d, p.session, p.name), Find(d), Dequeue(d)]);
    QueuedAndAnnounced(cfg, w1, p, v);
    var w2 := Acts(cfg, w1, [Offer(v), NotifyOk(v)]);
    OneStream(cfg, w2, p, d, p.session, p.name);
    PoppedHead(w2.lanes[p], ByStream(d));
  }

  lemma PoppedHead(l: Lane, how: How)
    requires |l.queue| == 1
    ensures Pop(l, how).queue == []
  {}

  lemma LiveIsReachable(cfg: Settings, w: World, arrive: Action, p: Proxy, v: Conn)
    requires WorldInv(cfg, w) && Live(w.reg, p) && ArrivesAt(w, arrive, p, v) && v !in w.visitors
    ensures p in w.lanes && p.session in w.reg.owned && p.name in w.reg.owned[p.session]
    ensures w.reg.owned[p.session][p.name] == p
    ensures var w' := Act(cfg, w, arrive);
      && w'.reg == w.reg && w'.lanes == w.lanes && w'.streams == w.streams && w'.closed == w.closed
      && v in w'.visitors && w'.visitors[v].phase == Arrived && w'.visitors[v].proxy == p
  {
    hide Live, LaneSound, VisitorSound, StreamSound, ProxiesSound, SessionsSound;
    LiveHasOwner(w.reg, p);
  }

  lemma QueuedAndAnnounced(cfg: Settings, w: World, p: Proxy, v: Conn)
    requires v in w.visitors && w.visitors[v].phase == Arrived && w.visitors[v].proxy == p
    requires p in w.lanes && w.lanes[p].queue == []
    ensures var w' := Acts(cfg, w, [Offer(v), NotifyOk(v)]);
      && w'.reg == w.reg && w'.closed == w.closed && w'.streams == w.streams
      && p in w'.lanes && w'.lanes[p].queue == [v] && v in w'.lanes[p].notified
      && v in w'.visitors && w'.visitors[v].phase == Notified && w'.visitors[v].proxy == p
  {
    hide Step, Acts;
    ActsCons(cfg, w, Offer(v), [NotifyOk(v)]);
    ActsOne(cfg, Act(cfg, w, Offer(v)), NotifyOk(v));
    assert [Offer(v)] + [NotifyOk(v)] == [Offer(v), NotifyOk(v)];
    assert [] + [v] == [v];
  }

  /** A stream is closed without a visitor when its session holds no proxy of the name it
      asks for, or when it stops waiting. */
  lemma StreamEnds(cfg: Settings, w: World, d: nat)
    requires d in w.streams
    ensures w.streams[d].Announced? ==>
              var (se, name) := (w.streams[d].se, w.streams[d].name);
              (Act(cfg, w, Find(d)) == w.(streams := w.streams[d := Ended]) <==>
               !(se in w.reg.owned && name in w.reg.owned[se]))
    ensures w.streams[d].Found? ==> Act(cfg, w, GiveUp(d)) == w.(streams := w.streams[d := Ended])
  {
    if w.streams[d].Announced? {
      var s := w.streams[d];
      if s.se in w.reg.owned && s.name in w.reg.owned[s.se] {
        assert Act(cfg, w, Find(d)).streams[d].Found?;
      }
    }
  }

  // ---- A removal that empties its queue ----

  function Drains(p: Proxy, n: nat): seq<Action> {
    if n == 0 then [DrainEnd(p)] else [DrainOne(p)] + Drains(p, n - 1)
  }

  /** A removal takes the visitors of its queue out one by one and closes each of them, and
      is over when it finds none. */
  lemma {:induction false} RemovalCloses(cfg: Settings, w: World, p: Proxy)
    requires p in w.lanes && p in w.draining
    ensures var w' := Acts(cfg, w, Drains(p, |w.lanes[p].queue|));
      && p in w'.lanes && w'.lanes[p].queue == [] && p !in w'.draining
      && (forall v :: v in w.lanes[p].queue ==> v in w'.closed) && w.closed <= w'.closed
    decreases |w.lanes[p].queue|
  {
    hide Act, Acts;
    var queue := w.lanes[p].queue;
    if queue == [] {
      ActsOne(cfg, w, DrainEnd(p));
      DrainSteps(cfg, w, p);
    } else {
      ActsCons(cfg, w, DrainOne(p), Drains(p, |queue| - 1));
      DrainSteps(cfg, w, p);
      RemovalCloses(cfg, Act(cfg, w, DrainOne(p)), p);
      forall v | v in queue ensures v == queue[0] || v in queue[1..] {}
    }
  }

  lemma DrainSteps(cfg: Settings, w: World, p: Proxy)
    requires p in w.lanes && p in w.draining
    ensures w.lanes[p].queue == [] ==> Act(cfg, w, DrainEnd(p)) == w.(draining := w.draining - {p})
    ensures w.lanes[p].queue != [] ==>
              var w' := Act(cfg, w, DrainOne(p));
              && p in w'.lanes && w'.lanes[p].queue == w.lanes[p].queue[1..] && p in w'.draining
              && w'.closed == w.closed + {w.lanes[p].queue[0]}
  {}

  /** Every proxy that a registry step removes begins to drain. */
  lemma RemovedDrains(cfg: Settings, w: World, e: Event, p: Proxy)
    requires AllValid(cfg.ranges) && WorldInv(cfg, w) && Live(w.reg, p)
    ensures var w' := Act(cfg, w, Registry(e));
      Live(w'.reg, p) || (p in w'.draining && p in w'.lanes && QueueOf(w', p) == QueueOf(w, p))
  {
    hide Live, Step, LaneSound, VisitorSound, StreamSound, OwnersAgree, PortsAgree, HostsAgree, ProxiesSound, SessionsSound,
         Values;
    StepKeepsInv(cfg, w.reg, e);
    OwnersOf(cfg, w.reg);
    OwnersOf(cfg, Step(cfg, w.reg, e));
    ValuesLive(w.reg);
    ValuesLive(Step(cfg, w.reg, e));
  }

  lemma OwnersOf(cfg: Settings, st: State)
    requires Inv(cfg, st)
    ensures OwnersAgree(st)
  {}
}
