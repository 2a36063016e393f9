/** How a visitor reaches a data stream: bounded queues with concurrent producers and
    consumers, drained on removal, interleaved with the registry's own steps
    (internal/server/server.go, internal/server/session.go, internal/server/vhost.go). */
module Handoff {
  import opened Config
  import opened Registry
  import opened RegistryLaws

  /** A visitor connection. */
  type Conn = nat

  const QUEUE_CAP: nat := 32

  /** How a visitor left its queue. */
  datatype How = ByStream(stream: nat) | ByDrain | ByTakeBack

  datatype Exit = Exit(conn: Conn, how: How)

  /** A proxy's queue with its history: every visitor that was queued, every one that
      left, and every one the client was notified about, each in order. */
  datatype Lane = Lane(queue: seq<Conn>, entered: seq<Conn>, left: seq<Exit>, notified: seq<Conn>)

  const EMPTY_LANE: Lane := Lane([], [], [], [])

  /** How a visitor came in. */
  datatype Route = ByPort(port: int) | ByHost(host: string)

  /** Where its delivery stands: accepted; queued; client notified; notification failed;
      refused by a full queue; given up after a failed notification. */
  datatype Phase = Arrived | Queued | Notified | NotifyFailed | Rejected | GivenUp

  datatype Visitor = Visitor(proxy: Proxy, route: Route, phase: Phase)

  /** A data stream: its metadata read, its proxy found, joined to a visitor, or closed. */
  datatype Stream =
    | Announced(se: SessionId, name: string)
    | Found(se: SessionId, name: string, proxy: Proxy)
    | Joined(se: SessionId, name: string, proxy: Proxy, conn: Conn)
    | Ended

  /** `draining` holds the removed proxies whose removal is still emptying the queue. */
  datatype World = World(
    reg: State,
    lanes: map<Proxy, Lane>,
    draining: set<Proxy>,
    visitors: map<Conn, Visitor>,
    streams: map<nat, Stream>,
    closed: set<Conn>)

  /** What a non-blocking send does to a queue: the new queue and whether it took the
      visitor. */
  function TrySend(queue: seq<Conn>, v: Conn): (r: (seq<Conn>, bool))
    ensures |queue| <= QUEUE_CAP ==> |r.0| <= QUEUE_CAP
  {
    if |queue| < QUEUE_CAP then (queue + [v], true) else (queue, false)
  }

  const START: World := World(INITIAL, map[], {}, map[], map[], {})

  datatype Action =
    | Registry(e: Event)                            // any critical section of the registry
    | Accept(v: Conn, port: int)                    // a proxy's listener accepts
    | Lookup(v: Conn, host: string)                 // the vhost table finds a proxy
    | Offer(v: Conn)                                // the non-blocking send into the queue
    | NotifyOk(v: Conn)                             // StartWorkConn was written
    | NotifyError(v: Conn)                          // writing it failed
    | TakeBack(v: Conn)                             // the non-blocking receive after a failure
    | Open(d: nat, se: SessionId, name: string)     // a data stream's first frame
    | Find(d: nat)                                  // the session's proxy table is consulted
    | Dequeue(d: nat)                               // the stream receives a visitor
    | GiveUp(d: nat)                                // the stream stops waiting
    | DrainOne(p: Proxy)                            // removal closes one queued visitor
    | DrainEnd(p: Proxy)                            // removal finds the queue empty

  function WithPhase(w: World, v: Conn, phase: Phase): World
    requires v in w.visitors
  {
    w.(visitors := w.visitors[v := w.visitors[v].(phase := phase)])
  }

  /** Whether `v` is at `phase` and its proxy has a queue. */
  predicate At(w: World, v: Conn, phase: Phase) {
    v in w.visitors && w.visitors[v].phase == phase && w.visitors[v].proxy in w.lanes
  }

  /** The head of a queue leaves it. */
  function Pop(l: Lane, how: How): Lane
    requires l.queue != []
  {
    l.(queue := l.queue[1..], left := l.left + [Exit(l.queue[0], how)])
  }

  function Values(m: map<string, Proxy>): set<Proxy> {
    set k | k in m :: m[k]
  }

  function AfterRegistry(cfg: Settings, w: World, e: Event): World {
    var reg := Step(cfg, w.reg, e);
    w.(reg := reg,
       lanes := w.lanes + (map p | p in Values(reg.proxies) && p !in w.lanes :: EMPTY_LANE),
       draining := w.draining + (Values(w.reg.proxies) - Values(reg.proxies)))
  }

  /** One atomic action; an action that is not enabled changes nothing. */
  function Act(cfg: Settings, w: World, a: Action): World {
    match a
    case Registry(e) => AfterRegistry(cfg, w, e)
    case Accept(v, port) =>
      if v !in w.visitors && port in w.reg.byPort
      then w.(visitors := w.visitors[v := Visitor(w.reg.byPort[port], ByPort(port), Arrived)]) else w
    case Lookup(v, host) =>
      if v !in w.visitors && host in w.reg.vhost
      then w.(visitors := w.visitors[v := Visitor(w.reg.vhost[host], ByHost(host), Arrived)]) else w
    case Offer(v) =>
      if !At(w, v, Arrived) then w
      else
        var p := w.visitors[v].proxy;
        var l := w.lanes[p];
        if TrySend(l.queue, v).1
        then WithPhase(w, v, Queued).(lanes := w.lanes[p := l.(queue := TrySend(l.queue, v).0, entered := l.entered + [v])])
        else WithPhase(w, v, Rejected).(closed := w.closed + {v})
    case NotifyOk(v) =>
      if !At(w, v, Queued) then w
      else
        var p := w.visitors[v].proxy;
        var l := w.lanes[p];
        WithPhase(w, v, Notified).(lanes := w.lanes[p := l.(notified := l.notified + [v])])
    case NotifyError(v) => if At(w, v, Queued) then WithPhase(w, v, NotifyFailed) else w
    case TakeBack(v) =>
      if !At(w, v, NotifyFailed) then w
      else
        var p := w.visitors[v].proxy;
        var l := w.lanes[p];
        if l.queue == [] then WithPhase(w, v, GivenUp).(closed := w.closed + {v})
        else WithPhase(w, v, GivenUp).(lanes := w.lanes[p := Pop(l, ByTakeBack)], closed := w.closed + {l.queue[0], v})
    case Open(d, se, name) => if d !in w.streams then w.(streams := w.streams[d := Announced(se, name)]) else w
    case Find(d) =>
      if d in w.streams && w.streams[d].Announced? then
        var s := w.streams[d];
        if s.se in w.reg.owned && s.name in w.reg.owned[s.se]
        then w.(streams := w.streams[d := Found(s.se, s.name, w.reg.owned[s.se][s.name])])
        else w.(streams := w.streams[d := Ended])
      else w
    case Dequeue(d) =>
      if d in w.streams && w.streams[d].Found? && w.streams[d].proxy in w.lanes
         && w.lanes[w.streams[d].proxy].queue != [] then
        var s := w.streams[d];
        var l := w.lanes[s.proxy];
        w.(streams := w.streams[d := Joined(s.se, s.name, s.proxy, l.queue[0])],
           lanes := w.lanes[s.proxy := Pop(l, ByStream(d))])
      else w
    case GiveUp(d) => if d in w.streams && w.streams[d].Found? then w.(streams := w.streams[d := Ended]) else w
    case DrainOne(p) =>
      if p in w.draining && p in w.lanes && w.lanes[p].queue != []
      then w.(lanes := w.lanes[p := Pop(w.lanes[p], ByDrain)], closed := w.closed + {w.lanes[p].queue[0]}) else w
    case DrainEnd(p) =>
      if p in w.draining && p in w.lanes && w.lanes[p].queue == [] then w.(draining := w.draining - {p}) else w
  }

  function Acts(cfg: Settings, w: World, actions: seq<Action>): World
    decreases |actions|
  {
    if actions == [] then w else Act(cfg, Acts(cfg, w, actions[..|actions| - 1]), actions[|actions| - 1])
  }

  // ---- What every interleaving keeps ----

  function Conns(left: seq<Exit>): seq<Conn> {
    seq(|left|, i requires 0 <= i < |left| => left[i].conn)
  }

  ghost predicate Distinct(xs: seq<Conn>) {
    forall i, j :: 0 <= i < j < |xs| ==> xs[i] != xs[j]
  }

  predicate PastQueue(phase: Phase) {
    phase == Queued || phase == Notified || phase == NotifyFailed || phase == GivenUp
  }

  predicate TurnedAway(phase: Phase) {
    phase == Rejected || phase == GivenUp
  }

  /** The route leads to the proxy. */
  predicate Leads(r: Route, p: Proxy) {
    match r
    case ByPort(port) => p.typ == "tcp" && p.remotePort == port
    case ByHost(host) => p.typ == "http" && host in p.hosts
  }

  /** First in, first out: what left, followed by what is queued, is what entered. */
  ghost predicate LaneShape(l: Lane) {
    && l.entered == Conns(l.left) + l.queue
    && |l.queue| <= QUEUE_CAP
    && Distinct(l.entered)
    && Distinct(l.notified)
  }

  ghost predicate EnteredSound(visitors: map<Conn, Visitor>, p: Proxy, entered: seq<Conn>) {
    forall v :: v in entered ==> v in visitors && visitors[v].proxy == p && PastQueue(visitors[v].phase)
  }

  ghost predicate NotifiedSound(visitors: map<Conn, Visitor>, p: Proxy, notified: seq<Conn>) {
    forall v :: v in notified ==> v in visitors && visitors[v].proxy == p && visitors[v].phase == Notified
  }

  /** A visitor that left without a stream is closed; one that left with a stream is
      joined to that stream, at this proxy. */
  ghost predicate LeftSound(streams: map<nat, Stream>, closed: set<Conn>, p: Proxy, left: seq<Exit>) {
    && (forall e :: e in left && !e.how.ByStream? ==> e.conn in closed)
    && (forall e :: e in left && e.how.ByStream? ==>
          && e.how.stream in streams && streams[e.how.stream].Joined?
          && streams[e.how.stream].proxy == p && streams[e.how.stream].conn == e.conn)
  }

  ghost predicate LaneSound(w: World, p: Proxy)
    requires p in w.lanes
  {
    var l := w.lanes[p];
    && LaneShape(l)
    && EnteredSound(w.visitors, p, l.entered)
    && NotifiedSound(w.visitors, p, l.notified)
    && LeftSound(w.streams, w.closed, p, l.left)
  }

  ghost predicate VisitorSound(w: World, v: Conn)
    requires v in w.visitors
  {
    var x := w.visitors[v];
    && x.proxy in w.lanes
    && Leads(x.route, x.proxy)
    && (PastQueue(x.phase) ==> v in w.lanes[x.proxy].entered)
    && (x.phase == Notified ==> v in w.lanes[x.proxy].notified)
    && (TurnedAway(x.phase) ==> v in w.closed)
  }

  ghost predicate StreamSound(w: World, d: nat)
    requires d in w.streams
  {
    match w.streams[d]
    case Found(se, name, p) => p in w.lanes && p.session == se && p.name == name
    case Joined(se, name, p, v) =>
      p in w.lanes && p.session == se && p.name == name && Exit(v, ByStream(d)) in w.lanes[p].left
    case _ => true
  }

  ghost predicate LanesCover(w: World) {
    && (forall p :: Live(w.reg, p) ==> p in w.lanes && p !in w.draining)
    && (forall p :: p in w.lanes ==> p.pid < w.reg.nextPid)
    && w.draining <= w.lanes.Keys
  }

  ghost predicate WorldInv(cfg: Settings, w: World) {
    && Inv(cfg, w.reg)
    && LanesCover(w)
    && (forall p :: p in w.lanes ==> LaneSound(w, p))
    && (forall v :: v in w.visitors ==> VisitorSound(w, v))
    && (forall d :: d in w.streams ==> StreamSound(w, d))
  }

  // ---- What one action may change ----

  ghost predicate VisitorsGrow(a: map<Conn, Visitor>, b: map<Conn, Visitor>) {
    forall v :: v in a ==>
      && v in b
      && b[v].proxy == a[v].proxy
      && (PastQueue(a[v].phase) ==> PastQueue(b[v].phase))
      && (a[v].phase == Notified ==> b[v].phase == Notified)
  }

  ghost predicate StreamsGrow(a: map<nat, Stream>, b: map<nat, Stream>) {
    forall d :: d in a && a[d].Joined? ==> d in b && b[d] == a[d]
  }

  ghost predicate LaneGrows(a: Lane, b: Lane) {
    && (forall v :: v in a.entered ==> v in b.entered)
    && (forall v :: v in a.notified ==> v in b.notified)
    && (forall e :: e in a.left ==> e in b.left)
  }

  /** Histories only grow, and what a history refers to stays. */
  ghost predicate Grows(w: World, w': World) {
    && w.closed <= w'.closed
    && VisitorsGrow(w.visitors, w'.visitors)
    && StreamsGrow(w.streams, w'.streams)
    && (forall p :: p in w.lanes ==> p in w'.lanes && LaneGrows(w.lanes[p], w'.lanes[p]))
  }

  lemma EnteredKept(a: map<Conn, Visitor>, b: map<Conn, Visitor>, p: Proxy, vs: seq<Conn>)
    requires VisitorsGrow(a, b)
    ensures EnteredSound(a, p, vs) ==> EnteredSound(b, p, vs)
    ensures NotifiedSound(a, p, vs) ==> NotifiedSound(b, p, vs)
  {
    hide PastQueue;
  }

  lemma LeftKept(w: World, w': World, p: Proxy, left: seq<Exit>)
    requires StreamsGrow(w.streams, w'.streams) && w.closed <= w'.closed && LeftSound(w.streams, w.closed, p, left)
    ensures LeftSound(w'.streams, w'.closed, p, left)
  {}

  lemma LaneKept(w: World, w': World, p: Proxy)
    requires Grows(w, w') && p in w.lanes && LaneSound(w, p) && w'.lanes[p] == w.lanes[p]
    ensures LaneSound(w', p)
  {
    hide LaneShape, EnteredSound, NotifiedSound, LeftSound, VisitorsGrow, StreamsGrow, LaneGrows;
    var l := w.lanes[p];
    EnteredKept(w.visitors, w'.visitors, p, l.entered);
    EnteredKept(w.visitors, w'.visitors, p, l.notified);
    LeftKept(w, w', p, l.left);
  }

  lemma VisitorKept(w: World, w': World, v: Conn)
    requires Grows(w, w') && v in w.visitors && VisitorSound(w, v) && w'.visitors[v] == w.visitors[v]
    ensures VisitorSound(w', v)
  {
    hide PastQueue, Leads, VisitorsGrow, StreamsGrow;
  }

  lemma StreamKept(w: World, w': World, d: nat)
    requires Grows(w, w') && d in w.streams && StreamSound(w, d) && d in w'.streams && w'.streams[d] == w.streams[d]
    ensures StreamSound(w', d)
  {
    hide VisitorsGrow, StreamsGrow;
  }

  lemma PhaseStep(visitors: map<Conn, Visitor>, v: Conn, phase: Phase)
    requires v in visitors && visitors[v].phase != Notified && (PastQueue(visitors[v].phase) ==> PastQueue(phase))
    ensures VisitorsGrow(visitors, visitors[v := visitors[v].(phase := phase)])
  {
    hide PastQueue;
  }

  lemma LaneStepGrows(w: World, w': World, p: Proxy)
    requires p in w.lanes && p in w'.lanes && w'.lanes == w.lanes[p := w'.lanes[p]] && LaneGrows(w.lanes[p], w'.lanes[p])
    requires w.closed <= w'.closed && VisitorsGrow(w.visitors, w'.visitors) && StreamsGrow(w.streams, w'.streams)
    ensures Grows(w, w')
  {
    hide VisitorsGrow, StreamsGrow;
  }

  /** One lane is replaced, and possibly one visitor or one stream. */
  lemma OneLane(cfg: Settings, w: World, w': World, p: Proxy, vs: set<Conn>, ds: set<nat>)
    requires WorldInv(cfg, w) && Grows(w, w')
    requires w'.reg == w.reg && w'.draining == w.draining && p in w.lanes
    requires w'.lanes == w.lanes[p := w'.lanes[p]] && LaneSound(w', p)
    requires forall v :: v in w'.visitors && v !in vs ==> v in w.visitors && w'.visitors[v] == w.visitors[v]
    requires forall v :: v in vs && v in w'.visitors ==> VisitorSound(w', v)
    requires forall d :: d in w'.streams && d !in ds ==> d in w.streams && w'.streams[d] == w.streams[d]
    requires forall d :: d in ds && d in w'.streams ==> StreamSound(w', d)
    ensures WorldInv(cfg, w')
  {
    hide Inv, Live, LaneSound, VisitorSound, StreamSound, Grows;
    forall q | q in w'.lanes ensures LaneSound(w', q) {
      if q != p {
        LaneKept(w, w', q);
      }
    }
    forall v | v in w'.visitors ensures VisitorSound(w', v) {
      if v !in vs {
        VisitorKept(w, w', v);
      }
    }
    forall d | d in w'.streams ensures StreamSound(w', d) {
      if d !in ds {
        StreamKept(w, w', d);
      }
    }
  }

  /** No lane changes. */
  lemma NoLane(cfg: Settings, w: World, w': World, vs: set<Conn>, ds: set<nat>)
    requires WorldInv(cfg, w) && Grows(w, w')
    requires w'.reg == w.reg && w'.draining <= w.draining && w'.lanes == w.lanes
    requires forall v :: v in w'.visitors && v !in vs ==> v in w.visitors && w'.visitors[v] == w.visitors[v]
    requires forall v :: v in vs && v in w'.visitors ==> VisitorSound(w', v)
    requires forall d :: d in w'.streams && d !in ds ==> d in w.streams && w'.streams[d] == w.streams[d]
    requires forall d :: d in ds && d in w'.streams ==> StreamSound(w', d)
    ensures WorldInv(cfg, w')
  {
    hide Inv, Live, LaneSound, VisitorSound, StreamSound, Grows;
    forall q | q in w'.lanes ensures LaneSound(w', q) {
      LaneKept(w, w', q);
    }
    forall v | v in w'.visitors ensures VisitorSound(w', v) {
      if v !in vs {
        VisitorKept(w, w', v);
      }
    }
    forall d | d in w'.streams ensures StreamSound(w', d) {
      if d !in ds {
        StreamKept(w, w', d);
      }
    }
  }

  // ---- The registry's steps ----

  lemma StepLive(cfg: Settings, st: State, e: Event)
    requires AllValid(cfg.ranges) && Inv(cfg, st)
    ensures st.nextPid <= Step(cfg, st, e).nextPid
    ensures forall p :: Live(Step(cfg, st, e), p) ==> Live(st, p) || p.pid == st.nextPid
  {
    hide Key, Live, OwnersAgree, PortsAgree, HostsAgree, SessionsSound, WellFormed, Register;
    match e {
      case LoginEv(client) => LoginKeepsInv(cfg, st, client);
      case DropEv(se) => DropKeepsInv(cfg, st, se);
      case RegisterEv(se, np, bindOk) =>
        if se in st.owned {
          if Key(se.client, np.name) in st.proxies {
            RegisterTaken(cfg, st, se, np, bindOk);
          } else {
            RegisterFresh(cfg, st, se, np, bindOk);
            if Register(cfg, st, se, np, bindOk).1.ok {
              InsertLive(st, Candidate(cfg, st, se, np));
            }
          }
        }
      case CloseEv(se, name) =>
        if se in st.owned && name in st.owned[se] {
          OwnedIsLive(st, se, name);
          RemoveLive(st, st.owned[se][name]);
        }
    }
  }

  lemma ValuesLive(st: State)
    requires OwnersAgree(st)
    ensures forall p :: p in Values(st.proxies) <==> Live(st, p)
  {
    hide Key;
  }

  lemma RegistryCovers(cfg: Settings, w: World, e: Event)
    requires AllValid(cfg.ranges) && Inv(cfg, w.reg) && LanesCover(w)
    ensures Inv(cfg, AfterRegistry(cfg, w, e).reg) && LanesCover(AfterRegistry(cfg, w, e))
  {
    hide Step, Live, Values, WellFormed, PortsAgree, HostsAgree, OwnersAgree, SessionsSound, ProxiesSound;
    var w' := AfterRegistry(cfg, w, e);
    StepKeepsInv(cfg, w.reg, e);
    StepLive(cfg, w.reg, e);
    ValuesLive(w.reg);
    ValuesLive(w'.reg);
    LivePids(cfg, w'.reg);
  }

  lemma LivePids(cfg: Settings, st: State)
    requires ProxiesSound(cfg, st)
    ensures forall p :: Live(st, p) ==> p.pid < st.nextPid
  {
    hide Live;
  }

  lemma RegistryKeeps(cfg: Settings, w: World, e: Event)
    requires AllValid(cfg.ranges) && WorldInv(cfg, w)
    ensures WorldInv(cfg, Act(cfg, w, Registry(e)))
  {
    hide Inv, Step, Live, LanesCover, PastQueue, LaneSound, VisitorSound, StreamSound;
    RegistryCovers(cfg, w, e);
    var w' := AfterRegistry(cfg, w, e);
    assert Grows(w, w');
    hide Grows;
    forall p | p in w'.lanes ensures LaneSound(w', p) {
      if p in w.lanes {
        LaneKept(w, w', p);
      } else {
        EmptyLaneSound(w', p);
      }
    }
    forall v | v in w'.visitors ensures VisitorSound(w', v) {
      VisitorKept(w, w', v);
    }
    forall d | d in w'.streams ensures StreamSound(w', d) {
      StreamKept(w, w', d);
    }
  }

  lemma EmptyLaneSound(w: World, p: Proxy)
    requires p in w.lanes && w.lanes[p] == EMPTY_LANE
    ensures LaneSound(w, p)
  {}

  // ---- The other actions ----

  lemma LiveRoutes(cfg: Settings, w: World, p: Proxy)
    requires WorldInv(cfg, w) && Live(w.reg, p)
    ensures p in w.lanes
    ensures p.remotePort != 0 ==> Leads(ByPort(p.remotePort), p)
    ensures forall h :: h in p.hosts ==> Leads(ByHost(h), p)
  {
    hide Live, OwnersAgree, PortsAgree, HostsAgree, SessionsSound, LaneSound, VisitorSound, StreamSound, Allowed, HostsOf;
    ClientOf(cfg, w.reg, p);
  }

  lemma ArriveKeeps(cfg: Settings, w: World, v: Conn, p: Proxy, r: Route)
    requires WorldInv(cfg, w) && v !in w.visitors && p in w.lanes && Leads(r, p)
    ensures WorldInv(cfg, w.(visitors := w.visitors[v := Visitor(p, r, Arrived)]))
  {
    hide Inv, LanesCover, LaneSound, StreamSound, Leads, LaneGrows;
    var w' := w.(visitors := w.visitors[v := Visitor(p, r, Arrived)]);
    SameLanesGrow(w, w');
    assert VisitorSound(w', v);
    NoLane(cfg, w, w', {v}, {});
  }

  lemma AcceptKeeps(cfg: Settings, w: World, v: Conn, port: int)
    requires WorldInv(cfg, w)
    ensures WorldInv(cfg, Act(cfg, w, Accept(v, port)))
  {
    hide Live, OwnersAgree, HostsAgree, SessionsSound, ProxiesSound, LanesCover, LaneSound, VisitorSound, StreamSound, Leads;
    if v !in w.visitors && port in w.reg.byPort {
      LiveRoutes(cfg, w, w.reg.byPort[port]);
      ArriveKeeps(cfg, w, v, w.reg.byPort[port], ByPort(port));
    }
  }

  lemma LookupKeeps(cfg: Settings, w: World, v: Conn, host: string)
    requires WorldInv(cfg, w)
    ensures WorldInv(cfg, Act(cfg, w, Lookup(v, host)))
  {
    hide Live, OwnersAgree, PortsAgree, SessionsSound, ProxiesSound, LanesCover, LaneSound, VisitorSound, StreamSound, Leads;
    if v !in w.visitors && host in w.reg.vhost {
      LiveRoutes(cfg, w, w.reg.vhost[host]);
      ArriveKeeps(cfg, w, v, w.reg.vhost[host], ByHost(host));
    }
  }

  lemma PushShape(l: Lane, v: Conn)
    requires LaneShape(l) && |l.queue| < QUEUE_CAP && v !in l.entered
    ensures LaneShape(l.(queue := l.queue + [v], entered := l.entered + [v]))
  {
    assert Conns(l.left) + (l.queue + [v]) == Conns(l.left) + l.queue + [v];
  }

  lemma EnteredPlus(visitors: map<Conn, Visitor>, p: Proxy, vs: seq<Conn>, v: Conn)
    requires EnteredSound(visitors, p, vs) && v in visitors && visitors[v].proxy == p && PastQueue(visitors[v].phase)
    ensures EnteredSound(visitors, p, vs + [v])
  {
    hide PastQueue;
  }

  lemma OfferPushes(cfg: Settings, w: World, v: Conn)
    requires WorldInv(cfg, w) && At(w, v, Arrived) && |w.lanes[w.visitors[v].proxy].queue| < QUEUE_CAP
    ensures WorldInv(cfg, Act(cfg, w, Offer(v)))
  {
    hide Inv, LanesCover, Leads, LaneShape, EnteredSound, NotifiedSound, LeftSound, VisitorsGrow, StreamSound;
    var p := w.visitors[v].proxy;
    var l := w.lanes[p];
    var w' := Act(cfg, w, Offer(v));
    assert LaneSound(w, p) && VisitorSound(w, v);
    hide LaneSound;
    LaneParts(w, p);
    NotYetEntered(w.visitors, p, l.entered, v);
    PhaseStep(w.visitors, v, Queued);
    LaneStepGrows(w, w', p);
    PushShape(l, v);
    EnteredKept(w.visitors, w'.visitors, p, l.entered);
    EnteredPlus(w'.visitors, p, l.entered, v);
    EnteredKept(w.visitors, w'.visitors, p, l.notified);
    LaneFromParts(w', p);
    OneLane(cfg, w, w', p, {v}, {});
  }

  lemma LaneParts(w: World, p: Proxy)
    requires p in w.lanes && LaneSound(w, p)
    ensures var l := w.lanes[p];
      LaneShape(l) && EnteredSound(w.visitors, p, l.entered) && NotifiedSound(w.visitors, p, l.notified)
      && LeftSound(w.streams, w.closed, p, l.left)
  {}

  lemma LaneFromParts(w: World, p: Proxy)
    requires p in w.lanes
    requires var l := w.lanes[p];
      LaneShape(l) && EnteredSound(w.visitors, p, l.entered) && NotifiedSound(w.visitors, p, l.notified)
      && LeftSound(w.streams, w.closed, p, l.left)
    ensures LaneSound(w, p)
  {}

  lemma NotYetEntered(visitors: map<Conn, Visitor>, p: Proxy, vs: seq<Conn>, v: Conn)
    requires EnteredSound(visitors, p, vs) && v in visitors && !PastQueue(visitors[v].phase)
    ensures v !in vs
  {}

  lemma NotYetNotified(visitors: map<Conn, Visitor>, p: Proxy, vs: seq<Conn>, v: Conn)
    requires NotifiedSound(visitors, p, vs) && v in visitors && visitors[v].phase != Notified
    ensures v !in vs
  {}

  lemma PhaseKeeps(cfg: Settings, w: World, v: Conn, phase: Phase, closed: set<Conn>)
    requires WorldInv(cfg, w) && v in w.visitors && w.visitors[v].phase != Notified && phase != Notified
    requires PastQueue(w.visitors[v].phase) <==> PastQueue(phase)
    requires w.closed <= closed && (phase == Rejected || phase == GivenUp ==> v in closed)
    ensures WorldInv(cfg, WithPhase(w, v, phase).(closed := closed))
  {
    hide Inv, LanesCover, Leads, LaneSound, StreamSound, VisitorsGrow, LaneGrows, PastQueue;
    var w' := WithPhase(w, v, phase).(closed := closed);
    PhaseStep(w.visitors, v, phase);
    SameLanesGrow(w, w');
    assert VisitorSound(w, v);
    assert VisitorSound(w', v);
    NoLane(cfg, w, w', {v}, {});
  }

  lemma SameLanesGrow(w: World, w': World)
    requires w'.lanes == w.lanes && w.closed <= w'.closed
    requires VisitorsGrow(w.visitors, w'.visitors) && StreamsGrow(w.streams, w'.streams)
    ensures Grows(w, w')
  {
    hide VisitorsGrow, StreamsGrow;
  }

  lemma OfferKeeps(cfg: Settings, w: World, v: Conn)
    requires WorldInv(cfg, w)
    ensures WorldInv(cfg, Act(cfg, w, Offer(v)))
  {
    hide WorldInv;
    if At(w, v, Arrived) {
      if |w.lanes[w.visitors[v].proxy].queue| < QUEUE_CAP {
        OfferPushes(cfg, w, v);
      } else {
        PhaseKeeps(cfg, w, v, Rejected, w.closed + {v});
      }
    }
  }

  lemma NotifyOkKeeps(cfg: Settings, w: World, v: Conn)
    requires WorldInv(cfg, w)
    ensures WorldInv(cfg, Act(cfg, w, NotifyOk(v)))
  {
    hide Inv, LanesCover, Leads, LaneShape, LaneGrows, EnteredSound, NotifiedSound, LeftSound, VisitorsGrow, StreamSound;
    if At(w, v, Queued) {
      var p := w.visitors[v].proxy;
      var l := w.lanes[p];
      var w' := Act(cfg, w, NotifyOk(v));
      assert LaneSound(w, p) && VisitorSound(w, v);
      hide LaneSound;
      LaneParts(w, p);
      NotYetNotified(w.visitors, p, l.notified, v);
      PhaseStep(w.visitors, v, Notified);
      NotifyShape(l, v);
      LaneStepGrows(w, w', p);
      EnteredKept(w.visitors, w'.visitors, p, l.entered);
      EnteredKept(w.visitors, w'.visitors, p, l.notified);
      NotifiedPlus(w'.visitors, p, l.notified, v);
      LaneFromParts(w', p);
      OneLane(cfg, w, w', p, {v}, {});
    }
  }

  lemma NotifyShape(l: Lane, v: Conn)
    requires LaneShape(l) && v !in l.notified
    ensures var l' := l.(notified := l.notified + [v]);
      LaneShape(l') && LaneGrows(l, l') && v in l'.notified
  {}

  lemma NotifiedPlus(visitors: map<Conn, Visitor>, p: Proxy, vs: seq<Conn>, v: Conn)
    requires NotifiedSound(visitors, p, vs) && v in visitors && visitors[v].proxy == p && visitors[v].phase == Notified
    ensures NotifiedSound(visitors, p, vs + [v])
  {}

  lemma NotifyErrorKeeps(cfg: Settings, w: World, v: Conn)
    requires WorldInv(cfg, w)
    ensures WorldInv(cfg, Act(cfg, w, NotifyError(v)))
  {
    hide WorldInv;
    if At(w, v, Queued) {
      PhaseKeeps(cfg, w, v, NotifyFailed, w.closed);
    }
  }

  lemma PopShape(l: Lane, how: How)
    requires LaneShape(l) && l.queue != []
    ensures LaneShape(Pop(l, how)) && Pop(l, how).entered == l.entered && l.queue[0] in l.entered
    ensures LaneGrows(l, Pop(l, how))
  {
    assert Conns(l.left + [Exit(l.queue[0], how)]) == Conns(l.left) + [l.queue[0]];
    assert Conns(l.left) + l.queue == Conns(l.left) + [l.queue[0]] + l.queue[1..];
    assert l.entered[|l.left|] == l.queue[0];
  }

  lemma LeftPlus(streams: map<nat, Stream>, closed: set<Conn>, p: Proxy, left: seq<Exit>, e: Exit)
    requires LeftSound(streams, closed, p, left)
    requires if e.how.ByStream? then
               e.how.stream in streams && streams[e.how.stream].Joined?
               && streams[e.how.stream].proxy == p && streams[e.how.stream].conn == e.conn
             else e.conn in closed
    ensures LeftSound(streams, closed, p, left + [e])
  {}

  /** Popping the head of one lane, with the world around it only growing. */
  lemma PopKeeps(cfg: Settings, w: World, w': World, p: Proxy, how: How, ds: set<nat>)
    requires WorldInv(cfg, w) && p in w.lanes && w.lanes[p].queue != []
    requires w'.lanes == w.lanes[p := Pop(w.lanes[p], how)] && w'.reg == w.reg && w'.draining == w.draining
    requires w'.visitors == w.visitors && w.closed <= w'.closed && StreamsGrow(w.streams, w'.streams)
    requires match how
             case ByStream(d) =>
               && d in w'.streams && w'.streams[d].Joined?
               && w'.streams[d].proxy == p && w'.streams[d].conn == w.lanes[p].queue[0]
             case _ => w.lanes[p].queue[0] in w'.closed
    requires forall d :: d in w'.streams && d !in ds ==> d in w.streams && w'.streams[d] == w.streams[d]
    requires forall d :: d in ds && d in w'.streams ==> StreamSound(w', d)
    ensures WorldInv(cfg, w')
  {
    hide Inv, LanesCover, LaneShape, EnteredSound, NotifiedSound, LeftSound, VisitorSound, StreamSound, StreamsGrow, LaneGrows;
    var l := w.lanes[p];
    assert LaneSound(w, p);
    hide LaneSound;
    LaneParts(w, p);
    PopShape(l, how);
    assert VisitorsGrow(w.visitors, w'.visitors);
    LaneStepGrows(w, w', p);
    LeftKept(w, w', p, l.left);
    LeftPlus(w'.streams, w'.closed, p, l.left, Exit(l.queue[0], how));
    LaneFromParts(w', p);
    OneLane(cfg, w, w', p, {}, ds);
  }

  lemma TakeBackKeeps(cfg: Settings, w: World, v: Conn)
    requires WorldInv(cfg, w)
    ensures WorldInv(cfg, Act(cfg, w, TakeBack(v)))
  {
    hide WorldInv, StreamSound;
    if At(w, v, NotifyFailed) {
      var p := w.visitors[v].proxy;
      if w.lanes[p].queue == [] {
        PhaseKeeps(cfg, w, v, GivenUp, w.closed + {v});
      } else {
        var closed := w.closed + {w.lanes[p].queue[0], v};
        var mid := WithPhase(w, v, GivenUp).(closed := closed);
        PhaseKeeps(cfg, w, v, GivenUp, closed);
        PopKeeps(cfg, mid, Act(cfg, w, TakeBack(v)), p, ByTakeBack, {});
      }
    }
  }

  lemma StreamStepKeeps(cfg: Settings, w: World, d: nat, s: Stream)
    requires WorldInv(cfg, w) && (d in w.streams ==> !w.streams[d].Joined?) && !s.Joined?
    requires StreamSound(w.(streams := w.streams[d := s]), d)
    ensures WorldInv(cfg, w.(streams := w.streams[d := s]))
  {
    hide Inv, LanesCover, Leads, LaneSound, VisitorSound, LaneGrows;
    SameLanesGrow(w, w.(streams := w.streams[d := s]));
    NoLane(cfg, w, w.(streams := w.streams[d := s]), {}, {d});
  }

  lemma FindKeeps(cfg: Settings, w: World, d: nat)
    requires WorldInv(cfg, w)
    ensures WorldInv(cfg, Act(cfg, w, Find(d)))
  {
    hide Live, PortsAgree, HostsAgree, SessionsSound, ProxiesSound, LaneSound, VisitorSound;
    if d in w.streams && w.streams[d].Announced? {
      var s := w.streams[d];
      if s.se in w.reg.owned && s.name in w.reg.owned[s.se] {
        OwnedIsLive(w.reg, s.se, s.name);
        StreamStepKeeps(cfg, w, d, Found(s.se, s.name, w.reg.owned[s.se][s.name]));
      } else {
        StreamStepKeeps(cfg, w, d, Ended);
      }
    }
  }

  lemma DequeueKeeps(cfg: Settings, w: World, d: nat)
    requires WorldInv(cfg, w)
    ensures WorldInv(cfg, Act(cfg, w, Dequeue(d)))
  {
    hide Inv, LanesCover, LaneSound, VisitorSound;
    if d in w.streams && w.streams[d].Found? && w.streams[d].proxy in w.lanes
       && w.lanes[w.streams[d].proxy].queue != [] {
      assert StreamSound(w, d);
      PopKeeps(cfg, w, Act(cfg, w, Dequeue(d)), w.streams[d].proxy, ByStream(d), {d});
    }
  }

  lemma DrainOneKeeps(cfg: Settings, w: World, p: Proxy)
    requires WorldInv(cfg, w)
    ensures WorldInv(cfg, Act(cfg, w, DrainOne(p)))
  {
    hide WorldInv, StreamSound;
    if p in w.draining && p in w.lanes && w.lanes[p].queue != [] {
      PopKeeps(cfg, w, Act(cfg, w, DrainOne(p)), p, ByDrain, {});
    }
  }

  lemma ActKeepsInv(cfg: Settings, w: World, a: Action)
    requires AllValid(cfg.ranges) && WorldInv(cfg, w)
    ensures WorldInv(cfg, Act(cfg, w, a))
  {
    match a {
      case Registry(e) => RegistryKeeps(cfg, w, e);
      case Accept(v, port) => AcceptKeeps(cfg, w, v, port);
      case Lookup(v, host) => LookupKeeps(cfg, w, v, host);
      case Offer(v) => OfferKeeps(cfg, w, v);
      case NotifyOk(v) => NotifyOkKeeps(cfg, w, v);
      case NotifyError(v) => NotifyErrorKeeps(cfg, w, v);
      case TakeBack(v) => TakeBackKeeps(cfg, w, v);
      case Open(d, se, name) => OpenKeeps(cfg, w, d, se, name);
      case Find(d) => FindKeeps(cfg, w, d);
      case Dequeue(d) => DequeueKeeps(cfg, w, d);
      case GiveUp(d) => GiveUpKeeps(cfg, w, d);
      case DrainOne(p) => DrainOneKeeps(cfg, w, p);
      case DrainEnd(p) => DrainEndKeeps(cfg, w, p);
    }
  }

  lemma OpenKeeps(cfg: Settings, w: World, d: nat, se: SessionId, name: string)
    requires WorldInv(cfg, w)
    ensures WorldInv(cfg, Act(cfg, w, Open(d, se, name)))
  {
    hide WorldInv;
    if d !in w.streams {
      StreamStepKeeps(cfg, w, d, Announced(se, name));
    }
  }

  lemma GiveUpKeeps(cfg: Settings, w: World, d: nat)
    requires WorldInv(cfg, w)
    ensures WorldInv(cfg, Act(cfg, w, GiveUp(d)))
  {
    hide WorldInv;
    if d in w.streams && w.streams[d].Found? {
      StreamStepKeeps(cfg, w, d, Ended);
    }
  }

  lemma DrainEndKeeps(cfg: Settings, w: World, p: Proxy)
    requires WorldInv(cfg, w)
    ensures WorldInv(cfg, Act(cfg, w, DrainEnd(p)))
  {
    hide Inv, Live, Leads, LaneSound, VisitorSound, StreamSound;
    if p in w.draining && p in w.lanes && w.lanes[p].queue == [] {
      NoLane(cfg, w, Act(cfg, w, DrainEnd(p)), {}, {});
    }
  }

  lemma {:induction false} LaterActsKeepInv(cfg: Settings, w: World, actions: seq<Action>)
    requires AllValid(cfg.ranges) && WorldInv(cfg, w)
    ensures WorldInv(cfg, Acts(cfg, w, actions))
    decreases |actions|
  {
    hide WorldInv, Act;
    if actions != [] {
      LaterActsKeepInv(cfg, w, actions[..|actions| - 1]);
      ActKeepsInv(cfg, Acts(cfg, w, actions[..|actions| - 1]), actions[|actions| - 1]);
    }
  }

  /** Every interleaving from the empty server on keeps the invariant. */
  lemma ActsKeepInv(cfg: Settings, actions: seq<Action>)
    requires AllValid(cfg.ranges)
    ensures WorldInv(cfg, Acts(cfg, START, actions))
  {
    hide Acts;
    StartInv(cfg);
    LaterActsKeepInv(cfg, START, actions);
  }

  lemma StartInv(cfg: Settings)
    ensures WorldInv(cfg, START)
  {}

  // ---- What holds of every run ----

  /** Routing isolation. Whenever a visitor is joined to a data stream of session `se`
      whose metadata names `name`, it came in by the port of, or a host of, a proxy of
      that name in that very session, even if the proxy was removed in between. */
  lemma RoutingIsolation(cfg: Settings, actions: seq<Action>, d: nat)
    requires AllValid(cfg.ranges)
    requires var w := Acts(cfg, START, actions);
      d in w.streams && w.streams[d].Joined?
    ensures var w := Acts(cfg, START, actions);
      var s := w.streams[d];
      && s.conn in w.visitors
      && w.visitors[s.conn].proxy == s.proxy
      && s.proxy.session == s.se && s.proxy.name == s.name
      && Leads(w.visitors[s.conn].route, s.proxy)
  {
    hide Inv, LanesCover, Leads, Acts, PastQueue;
    var w := Acts(cfg, START, actions);
    ActsKeepInv(cfg, actions);
    var s := w.streams[d];
    assert StreamSound(w, d);
    JoinedEntered(w, s.proxy, Exit(s.conn, ByStream(d)));
    assert VisitorSound(w, s.conn);
  }

  lemma JoinedEntered(w: World, p: Proxy, e: Exit)
    requires p in w.lanes && LaneSound(w, p) && e in w.lanes[p].left
    ensures e.conn in w.lanes[p].entered && e.conn in w.visitors && w.visitors[e.conn].proxy == p
  {
    hide LeftSound, NotifiedSound, PastQueue;
    var l := w.lanes[p];
    var i :| 0 <= i < |l.left| && l.left[i] == e;
    assert l.entered[i] == Conns(l.left)[i] == e.conn;
  }

  function CountStreams(left: seq<Exit>): nat {
    if left == [] then 0 else (if left[0].how.ByStream? then 1 else 0) + CountStreams(left[1..])
  }

  function CountDrained(left: seq<Exit>): nat {
    if left == [] then 0 else (if left[0].how.ByDrain? then 1 else 0) + CountDrained(left[1..])
  }

  function CountTakenBack(left: seq<Exit>): nat {
    if left == [] then 0 else (if left[0].how.ByTakeBack? then 1 else 0) + CountTakenBack(left[1..])
  }

  lemma {:induction false} CountsAddUp(left: seq<Exit>)
    ensures |left| == CountStreams(left) + CountDrained(left) + CountTakenBack(left)
  {
    if left != [] {
      CountsAddUp(left[1..]);
    }
  }

  /** Visitor conservation, per proxy and in every interleaving: every visitor that was
      queued was joined, drained, taken back or is still queued; the queue is first in,
      first out and never longer than its capacity; nobody leaves twice; whoever left
      without a stream is closed; and only queued visitors were ever announced, each
      at most once. */
  lemma VisitorConservation(cfg: Settings, actions: seq<Action>, p: Proxy)
    requires AllValid(cfg.ranges) && p in Acts(cfg, START, actions).lanes
    ensures var w := Acts(cfg, START, actions);
      var l := w.lanes[p];
      && |l.entered| == CountStreams(l.left) + CountDrained(l.left) + CountTakenBack(l.left) + |l.queue|
      && l.entered == Conns(l.left) + l.queue
      && |l.queue| <= 32
      && Distinct(l.entered)
      && (forall e :: e in l.left && !e.how.ByStream? ==> e.conn in w.closed)
      && Distinct(l.notified) && (forall v :: v in l.notified ==> v in l.entered)
  {
    hide Inv, LanesCover, Leads, Acts, StreamSound, PastQueue;
    var w := Acts(cfg, START, actions);
    ActsKeepInv(cfg, actions);
    assert LaneSound(w, p);
    CountsAddUp(w.lanes[p].left);
    NotifiedEntered(w, p);
  }

  lemma NotifiedEntered(w: World, p: Proxy)
    requires p in w.lanes && LaneSound(w, p) && forall v :: v in w.visitors ==> VisitorSound(w, v)
    ensures forall v :: v in w.lanes[p].notified ==> v in w.lanes[p].entered
  {
    hide LeftSound, EnteredSound, LaneShape, Leads;
    forall v | v in w.lanes[p].notified ensures v in w.lanes[p].entered {
      assert VisitorSound(w, v);
    }
  }

  /** No visitor is joined to two streams, and no refused or given-up visitor stays open. */
  lemma JoinedOnce(cfg: Settings, actions: seq<Action>)
    requires AllValid(cfg.ranges)
    ensures var w := Acts(cfg, START, actions);
      && (forall d1, d2 ::
            (d1 in w.streams && d2 in w.streams && w.streams[d1].Joined? && w.streams[d2].Joined?
             && w.streams[d1].conn == w.streams[d2].conn) ==> d1 == d2)
      && (forall v :: v in w.visitors && TurnedAway(w.visitors[v].phase) ==> v in w.closed)
  {
    hide Inv, LanesCover, Leads, Acts, PastQueue;
    var w := Acts(cfg, START, actions);
    ActsKeepInv(cfg, actions);
    forall d1, d2 | d1 in w.streams && d2 in w.streams && w.streams[d1].Joined? && w.streams[d2].Joined?
                    && w.streams[d1].conn == w.streams[d2].conn
      ensures d1 == d2
    {
      SameConnSameStream(w, d1, d2);
    }
    forall v | v in w.visitors && TurnedAway(w.visitors[v].phase) ensures v in w.closed {
      assert VisitorSound(w, v);
    }
  }

  lemma SameConnSameStream(w: World, d1: nat, d2: nat)
    requires forall p :: p in w.lanes ==> LaneSound(w, p)
    requires forall d :: d in w.streams ==> StreamSound(w, d)
    requires d1 in w.streams && d2 in w.streams && w.streams[d1].Joined? && w.streams[d2].Joined?
    requires w.streams[d1].conn == w.streams[d2].conn
    ensures d1 == d2
  {
    hide EnteredSound, NotifiedSound, LeftSound;
    var v := w.streams[d1].conn;
    assert StreamSound(w, d1) && StreamSound(w, d2);
    var p, q := w.streams[d1].proxy, w.streams[d2].proxy;
    JoinedEntered(w, p, Exit(v, ByStream(d1)));
    JoinedEntered(w, q, Exit(v, ByStream(d2)));
    DistinctExits(w.lanes[p], Exit(v, ByStream(d1)), Exit(v, ByStream(d2)));
  }

  lemma DistinctExits(l: Lane, a: Exit, b: Exit)
    requires LaneShape(l) && a in l.left && b in l.left && a.conn == b.conn
    ensures a == b
  {
    var i :| 0 <= i < |l.left| && l.left[i] == a;
    var j :| 0 <= j < |l.left| && l.left[j] == b;
    assert l.entered[i] == Conns(l.left)[i] == a.conn;
    assert l.entered[j] == Conns(l.left)[j] == b.conn;
  }
}
