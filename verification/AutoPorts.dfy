/** Reconnections of clients that leave some ports to the server: which tables get their
    addresses back in every order of registration (internal/client/client.go,
    internal/server/proxy.go). */
module AutoPorts {
  import opened Wrappers
  import opened Config
  import opened Registry
  import opened RegistryLaws
  import opened Reload
  import opened ReloadExact
  import opened Reconnect
  import opened Client
  import opened ClientLaws

  /** A client's ports and hosts lead to the same names. */
  ghost predicate SameAddresses(a: State, b: State, client: string) {
    PortNames(a, client) == PortNames(b, client) && HostNames(a, client) == HostNames(b, client)
  }

  /** The state after a client's old session is dropped and its table registered again. */
  function Reregistered(cfg: Settings, st: State, gone: SessionId, se: SessionId, t: Table, order: seq<string>, seqNo: int): State
    requires forall n :: n in order ==> n in t
  {
    ServeAll(cfg, Drop(st, gone), se, Registrations(t, order, seqNo))
  }

  predicate LeavesPort(t: Table, n: string) {
    n in t && Automatic(t[n])
  }

  /** At most one entry leaves its port to the server, and that port is the one the
      allocator finds first when only the other clients' ports are taken. */
  ghost predicate AutomaticOk(cfg: Settings, busy: set<int>, held: Held, t: Table) {
    && (forall n, m :: LeavesPort(t, n) && LeavesPort(t, m) ==> n == m)
    && (forall n :: LeavesPort(t, n) && n in held ==> held[n].remotePort == FirstFree(ScanOrder(cfg.ranges), busy))
  }

  // ---- The condition is sufficient, whatever other clients do ----

  /** A step of the new session: an entry of the table is registered again as it is
      configured, and the port binds. */
  ghost predicate Again(se: SessionId, t: Table, e: Event) {
    && e.RegisterEv? && e.se == se && e.bindOk
    && e.np.name in t && e.np == Request(t[e.np.name], e.np.reqId)
  }

  /** The ports that are not this client's. */
  function ForeignPorts(st: State, client: string): set<int> {
    set q | q in st.byPort && st.byPort[q].session.client != client
  }

  /** Every entry that leaves its port to the server and is still to come would get its old
      port with only `busy` taken. */
  ghost predicate FirstChoice(cfg: Settings, busy: set<int>, held: Held, t: Table, done: set<string>) {
    forall n :: LeavesPort(t, n) && n in held && n !in done ==> held[n].remotePort == FirstFree(ScanOrder(cfg.ranges), busy)
  }

  /** The new session registers its table, in any order and any number of times, among
      steps of other clients that claim nothing of what was freed; and as long as an entry
      that leaves its port to the server is still to come, its old port stays the
      allocator's first choice given the other clients' ports. */
  ghost predicate Rejoining(cfg: Settings, st: State, held: Held, se: SessionId, t: Table, events: seq<Event>)
    decreases |events|
  {
    events == [] ||
    (var init, e := events[..|events| - 1], events[|events| - 1];
     var now := Run(cfg, st, events);
     && Rejoining(cfg, st, held, se, t, init)
     && (Again(se, t, e) ||
         (&& Foreign(se.client, e) && Clear(now, held, se.client)
          && FirstChoice(cfg, ForeignPorts(now, se.client), held, t, Resent(held, se, events)))))
  }

  /** What the new session sends, as far as it is served, finds everything as it was. */
  ghost predicate Rejoined(cfg: Settings, st: State, held: Held, se: SessionId, t: Table, done: set<string>) {
    Restoring(cfg, st, held, se, done) && FirstChoice(cfg, st.byPort.Keys, held, t, done)
  }

  /** Every held proxy is what the table asks for. */
  ghost predicate Matches(held: Held, t: Table) {
    held.Keys == t.Keys && WellNamed(t) && forall n :: n in t ==> Fulfils(held[n], t[n])
  }

  lemma {:induction false} FirstFreeStays(order: seq<int>, a: set<int>, b: set<int>)
    requires a <= b && FirstFree(order, a) !in b
    ensures FirstFree(order, b) == FirstFree(order, a)
  {
    if order != [] && order[0] in a {
      FirstFreeStays(order[1..], a, b);
    }
  }

  lemma PortsGrowOnce(cfg: Settings, st: State, se: SessionId, np: NewProxy)
    requires AllValid(cfg.ranges) && Inv(cfg, st) && se in st.owned
    ensures st.byPort.Keys <= Register(cfg, st, se, np, true).0.byPort.Keys
  {
    hide Key, Live, OwnersAgree, HostsAgree, ProxiesSound, SessionsSound, Register, Candidate;
    if Key(se.client, np.name) in st.proxies {
      RegisterTaken(cfg, st, se, np, true);
    } else {
      RegisterFresh(cfg, st, se, np, true);
    }
  }

  /** With more ports taken the choice stays, as long as the old port is free. */
  lemma ChoiceStays(cfg: Settings, st: State, held: Held, se: SessionId, t: Table, done: set<string>, busy: set<int>)
    requires AllValid(cfg.ranges) && Coherent(cfg, held, se.client) && Matches(held, t)
    requires Restoring(cfg, st, held, se, done)
    requires FirstChoice(cfg, busy, held, t, done) && busy <= st.byPort.Keys
    ensures FirstChoice(cfg, st.byPort.Keys, held, t, done)
  {
    hide Restoring, Coherent, FirstFree, ScanOrder, Fulfils;
    forall n | LeavesPort(t, n) && n in held && n !in done
      ensures held[n].remotePort == FirstFree(ScanOrder(cfg.ranges), st.byPort.Keys)
    {
      OldPortFree(cfg, st, held, se, done, t, n);
      FirstFreeStays(ScanOrder(cfg.ranges), busy, st.byPort.Keys);
    }
  }

  /** The entry as it would ask for the port it had. */
  function Pinned(p: Proxy, c: ProxyConfig): ProxyConfig {
    if Automatic(c) then c.(remotePort := p.remotePort) else c
  }

  lemma PinnedRepeats(p: Proxy, c: ProxyConfig, reqId: int)
    requires Fulfils(p, c)
    ensures SameConfig(p, Request(Pinned(p, c), reqId))
  {}

  lemma OldPortFree(cfg: Settings, st: State, held: Held, se: SessionId, done: set<string>, t: Table, n: string)
    requires AllValid(cfg.ranges) && Coherent(cfg, held, se.client) && Matches(held, t)
    requires Restoring(cfg, st, held, se, done) && LeavesPort(t, n) && n !in done
    ensures held[n].remotePort !in st.byPort && held[n].remotePort != 0 && Key(se.client, n) !in st.proxies
  {
    hide Restoring, Coherent, FirstFree, ScanOrder, Fulfils, Candidate, SameConfig, Key;
    var np := Request(Pinned(held[n], t[n]), 0);
    PinnedRepeats(held[n], t[n], 0);
    ResendFits(cfg, st, held, se, done, np);
    RepeatPort(cfg, st, se, np, held[n]);
  }

  lemma RepeatPort(cfg: Settings, st: State, se: SessionId, np: NewProxy, p: Proxy)
    requires np.typ == "tcp" && Fits(cfg, st, Candidate(cfg, st, se, np)) && Candidate(cfg, st, se, np).remotePort == p.remotePort
    ensures p.remotePort != 0 && p.remotePort !in st.byPort
  {
    hide FirstFree, ScanOrder, Allowed, Key;
  }

  /** An automatic request and the one that names the allocator's choice do the same. */
  lemma AutomaticAsPinned(cfg: Settings, st: State, se: SessionId, np: NewProxy, port: int)
    requires AllValid(cfg.ranges) && Inv(cfg, st) && se in st.owned && Key(se.client, np.name) !in st.proxies
    requires np.typ == "tcp" && np.remotePort == 0 && port != 0
    requires FirstFree(ScanOrder(cfg.ranges), st.byPort.Keys) == port
    ensures Register(cfg, st, se, np, true).0 == Register(cfg, st, se, np.(remotePort := port), true).0
  {
    hide Key, Live, OwnersAgree, HostsAgree, ProxiesSound, SessionsSound, Register, Fits, FirstFree, ScanOrder, Insert;
    RegisterFresh(cfg, st, se, np, true);
    RegisterFresh(cfg, st, se, np.(remotePort := port), true);
  }

  /** One registration of the new session. */
  lemma AgainStep(cfg: Settings, st: State, held: Held, se: SessionId, t: Table, done: set<string>, np: NewProxy)
    requires AllValid(cfg.ranges) && Coherent(cfg, held, se.client) && Matches(held, t)
    requires Rejoined(cfg, st, held, se, t, done)
    requires np.name in t && np == Request(t[np.name], np.reqId)
    ensures Restoring(cfg, Register(cfg, st, se, np, true).0, held, se, done + {np.name})
  {
    hide Coherent, FirstFree, ScanOrder, Fulfils, SameConfig, Key, Register, Clear, Restored, Inv;
    var n := np.name;
    var pinned := Request(Pinned(held[n], t[n]), np.reqId);
    PinnedRepeats(held[n], t[n], np.reqId);
    if n in done {
      ResendAgain(cfg, st, held, se, done, pinned);
      NameTaken(cfg, st, se, np);
      assert done + {n} == done;
    } else {
      ResendFresh(cfg, st, held, se, done, pinned);
      if Automatic(t[n]) {
        OldPortFree(cfg, st, held, se, done, t, n);
        AutomaticAsPinned(cfg, st, se, np, held[n].remotePort);
        assert pinned == np.(remotePort := held[n].remotePort);
      }
    }
  }

  lemma NameTaken(cfg: Settings, st: State, se: SessionId, np: NewProxy)
    requires Inv(cfg, st) && se in st.owned && np.name in st.owned[se]
    ensures Register(cfg, st, se, np, true).0 == st
  {
    hide Key, Live, PortsAgree, HostsAgree, SessionsSound, WellFormed, Register;
    var q := st.owned[se][np.name];
    OwnedIsLive(st, se, np.name);
    ClientOf(cfg, st, q);
    LiveUnderKey(st, q);
    RegisterTaken(cfg, st, se, np, true);
  }

  lemma AgainKeeps(cfg: Settings, st: State, held: Held, se: SessionId, t: Table, done: set<string>, e: Event)
    requires AllValid(cfg.ranges) && Coherent(cfg, held, se.client) && Matches(held, t)
    requires Rejoined(cfg, st, held, se, t, done) && Again(se, t, e)
    ensures Rejoined(cfg, Step(cfg, st, e), held, se, t, done + {e.np.name})
  {
    hide Coherent, FirstFree, ScanOrder, Fulfils, Register, Clear, Restored, Inv, Matches;
    AgainNamed(held, se, t, e);
    AgainStep(cfg, st, held, se, t, done, e.np);
    PortsGrowOnce(cfg, st, se, e.np);
    ChoiceStays(cfg, Step(cfg, st, e), held, se, t, done + {e.np.name}, st.byPort.Keys);
  }

  lemma AgainNamed(held: Held, se: SessionId, t: Table, e: Event)
    requires Matches(held, t) && Again(se, t, e)
    ensures e.RegisterEv? && e.se == se && e.np.name in held
  {}

  lemma ForeignKeeps(cfg: Settings, st: State, held: Held, se: SessionId, t: Table, done: set<string>, e: Event)
    requires AllValid(cfg.ranges) && Coherent(cfg, held, se.client) && Matches(held, t)
    requires Rejoined(cfg, st, held, se, t, done)
    requires Foreign(se.client, e) && Clear(Step(cfg, st, e), held, se.client)
    requires FirstChoice(cfg, ForeignPorts(Step(cfg, st, e), se.client), held, t, done)
    ensures Rejoined(cfg, Step(cfg, st, e), held, se, t, done)
  {
    hide Coherent, FirstChoice, Restoring, Step, Foreign, Clear, Matches;
    ForeignKeepsRestoring(cfg, st, held, se, done, e);
    ChoiceStays(cfg, Step(cfg, st, e), held, se, t, done, ForeignPorts(Step(cfg, st, e), se.client));
  }

  lemma {:induction false} RejoiningRestores(cfg: Settings, st: State, held: Held, se: SessionId, t: Table, events: seq<Event>)
    requires AllValid(cfg.ranges) && Coherent(cfg, held, se.client) && Matches(held, t)
    requires Rejoined(cfg, st, held, se, t, {}) && Rejoining(cfg, st, held, se, t, events)
    ensures Rejoined(cfg, Run(cfg, st, events), held, se, t, Resent(held, se, events))
    decreases |events|
  {
    hide Coherent, Rejoined, Resent, Step, Foreign, Clear, Matches, FirstChoice, Again;
    if events == [] {
      NothingResent(held, se);
    } else {
      var init, e := events[..|events| - 1], events[|events| - 1];
      var mid, done := Run(cfg, st, init), Resent(held, se, init);
      RejoiningRestores(cfg, st, held, se, t, init);
      ResentSnoc(held, se, events);
      if Again(se, t, e) {
        AgainKeeps(cfg, mid, held, se, t, done, e);
        AgainNamed(held, se, t, e);
      } else {
        NotOwn(se, e);
        assert done + {} == done;
        ForeignKeeps(cfg, mid, held, se, t, done, e);
      }
    }
  }

  lemma StartInv(cfg: Settings, st: State, gone: SessionId, se: SessionId)
    requires AllValid(cfg.ranges) && Inv(cfg, st) && Replacing(st, gone, se)
    ensures Inv(cfg, Drop(st, gone)) && se in Drop(st, gone).owned
    ensures forall s :: s in Drop(st, gone).owned && s.client == se.client ==> Drop(st, gone).owned[s] == map[]
  {
    hide Live, WellFormed, OwnersAgree, PortsAgree, HostsAgree, ProxiesSound;
    DropKeepsInv(cfg, st, gone);
    CurrentIsUndropped(st, se);
  }

  /** A reconnection with the steps of other clients in between. Take any reachable moment
      at which a client's other session is about to be dropped while the server holds
      exactly the client's table, and the condition holds. Drop it and let the client
      register its table in any order and any number of times, while other clients neither
      claim what was freed nor make another port the allocator's first choice. Once every
      name has been registered, its addresses lead to the same names as before, and the
      new session holds exactly the table. */
  lemma ReconnectAmongOthers(cfg: Settings, st: State, gone: SessionId, se: SessionId, t: Table, events: seq<Event>)
    requires AllValid(cfg.ranges) && Inv(cfg, st) && Replacing(st, gone, se)
    requires Holds(st, gone, t) && WellNamed(t)
    requires AutomaticOk(cfg, Drop(st, gone).byPort.Keys, st.owned[gone], t)
    requires Rejoining(cfg, Drop(st, gone), st.owned[gone], se, t, events)
    requires Resent(st.owned[gone], se, events) == t.Keys
    ensures var fin := Run(cfg, Drop(st, gone), events);
      SameAddresses(fin, st, se.client) && Holds(fin, se, t)
  {
    hide Inv, Rejoining, Resent, Run, Drop, PortNames, HostNames, Coherent, WellFormed, Restored, Clear, Fulfils, FirstFree,
         ScanOrder;
    var held := st.owned[gone];
    HeldCoherent(cfg, st, gone);
    DropStartsRestoring(cfg, st, gone, se);
    RejoiningRestores(cfg, Drop(st, gone), held, se, t, events);
    var fin := Run(cfg, Drop(st, gone), events);
    RestoredPorts(cfg, st, fin, held, gone, se);
    RestoredHosts(cfg, st, fin, held, gone, se);
    SameViews(st, fin, se.client);
    forall n | n in t ensures Fulfils(fin.owned[se][n], t[n]) {
      RestoredFulfils(held[n], fin.owned[se][n], t[n]);
    }
  }

  lemma RestoredFulfils(p: Proxy, q: Proxy, c: ProxyConfig)
    requires Restored(p, q) && Fulfils(p, c)
    ensures Fulfils(q, c)
  {}

  // ---- With nobody else acting ----

  lemma {:induction false} StepsRejoin(cfg: Settings, st: State, held: Held, se: SessionId, t: Table,
                                       order: seq<string>, seqNo: int)
    requires WellNamed(t) && forall n :: n in order ==> n in t
    ensures Rejoining(cfg, st, held, se, t, EventsOf(se, Registrations(t, order, seqNo)))
    decreases |order|
  {
    hide FirstChoice, Clear, Foreign, Run;
    if order == [] {
      assert EventsOf(se, Registrations(t, order, seqNo)) == [];
    } else {
      var k := |order| - 1;
      LastRegistration(se, t, order, seqNo);
      assert order[k] in order;
      hide EventsOf, Registrations;
      StepsRejoin(cfg, st, held, se, t, order[..k], seqNo);
      var init := EventsOf(se, Registrations(t, order[..k], seqNo));
      var e := RegisterEv(se, Request(t[order[k]], seqNo + 1 + k), true);
      assert (init + [e])[..|init|] == init;
      assert Again(se, t, e);
    }
  }

  /** Under the condition every order restores the addresses, and the table. */
  lemma AutomaticOkRestores(cfg: Settings, st: State, gone: SessionId, se: SessionId, t: Table, order: seq<string>, seqNo: int)
    requires AllValid(cfg.ranges) && Inv(cfg, st) && Replacing(st, gone, se)
    requires Holds(st, gone, t) && WellNamed(t) && OrderOf(order, t)
    requires AutomaticOk(cfg, Drop(st, gone).byPort.Keys, st.owned[gone], t)
    ensures var fin := Reregistered(cfg, st, gone, se, t, order, seqNo);
      SameAddresses(fin, st, se.client) && Holds(fin, se, t)
  {
    hide Inv, Drop, Rejoining, Resent, Run, ServeAll, Replacing, AutomaticOk, Registrations, Fulfils, SameAddresses, EventsOf;
    var events := EventsOf(se, Registrations(t, order, seqNo));
    ServedIsRun(cfg, Drop(st, gone), se, Registrations(t, order, seqNo));
    StepsRejoin(cfg, Drop(st, gone), st.owned[gone], se, t, order, seqNo);
    StepsCover(st.owned[gone], se, t, order, seqNo);
    ReconnectAmongOthers(cfg, st, gone, se, t, events);
  }

  // ---- The condition is necessary ----

  /** The live proxy of the client behind a name, after the registrations, is the new
      session's own. */
  lemma OwnEntry(cfg: Settings, st: State, gone: SessionId, se: SessionId, msgs: seq<Msg>, q: Proxy)
    requires AllValid(cfg.ranges) && Inv(cfg, st) && Replacing(st, gone, se)
    requires Live(ServeAll(cfg, Drop(st, gone), se, msgs), q) && q.session.client == se.client
    ensures Entry(ServeAll(cfg, Drop(st, gone), se, msgs), se, q.name) == Some(q)
  {
    hide Key, Live, PortsAgree, HostsAgree, ProxiesSound, SessionsSound, Drop, ServeAll, Replacing;
    StartInv(cfg, st, gone, se);
    OthersKept(cfg, Drop(st, gone), se, msgs);
    LiveHasOwner(ServeAll(cfg, Drop(st, gone), se, msgs), q);
  }

  /** The later registrations leave the first name as its own registration left it. */
  lemma FirstIsServed(cfg: Settings, st: State, se: SessionId, t: Table, order: seq<string>, seqNo: int)
    requires AllValid(cfg.ranges) && Inv(cfg, st) && se in st.owned
    requires WellNamed(t) && OrderOf(order, t) && order != [] && forall n :: n in order ==> n in t
    ensures Entry(ServeAll(cfg, st, se, Registrations(t, order, seqNo)), se, order[0]) ==
            Entry(Register(cfg, st, se, Request(t[order[0]], seqNo + 1), true).0, se, order[0])
  {
    hide Inv, ServeAll, Register, Registrations, OrderOf;
    var np := Request(t[order[0]], seqNo + 1);
    var rest := Registrations(t, order, seqNo)[1..];
    RegistrationsHead(t, order, seqNo);
    ServeOne(cfg, st, se, RegisterMsg(np), rest);
    ServeKeepsInv(cfg, st, se, RegisterMsg(np));
    ServeAllOtherNames(cfg, Serve(cfg, st, se, RegisterMsg(np)), se, rest, order[0]);
  }

  lemma ServeOne(cfg: Settings, st: State, se: SessionId, m: Msg, rest: seq<Msg>)
    ensures ServeAll(cfg, st, se, [m] + rest) == ServeAll(cfg, Serve(cfg, st, se, m), se, rest)
  {
    hide Serve;
    assert ([m] + rest)[1..] == rest;
  }

  lemma RegistrationsHead(t: Table, order: seq<string>, seqNo: int)
    requires WellNamed(t) && OrderOf(order, t) && order != [] && forall n :: n in order ==> n in t
    ensures var msgs := Registrations(t, order, seqNo);
      && |msgs| == |order| && msgs == [RegisterMsg(Request(t[order[0]], seqNo + 1))] + msgs[1..]
      && forall m :: m in msgs[1..] ==> NameOf(m) != order[0]
  {
    var rest := Registrations(t, order, seqNo)[1..];
    forall m | m in rest ensures NameOf(m) != order[0] {
      var i :| 0 <= i < |rest| && rest[i] == m;
      assert m == RegisterMsg(Request(t[order[i + 1]], seqNo + 2 + i));
    }
  }

  /** An automatic entry registered first gets the allocator's first choice, or nothing. */
  lemma FirstGetsFirstFree(cfg: Settings, st: State, gone: SessionId, se: SessionId, t: Table, order: seq<string>, seqNo: int)
    requires AllValid(cfg.ranges) && Inv(cfg, st) && Replacing(st, gone, se)
    requires WellNamed(t) && OrderOf(order, t) && order != [] && Automatic(t[order[0]])
    ensures var e := Entry(Reregistered(cfg, st, gone, se, t, order, seqNo), se, order[0]);
      e.Some? ==> e.value.remotePort == FirstFree(ScanOrder(cfg.ranges), Drop(st, gone).byPort.Keys)
  {
    hide Inv, Drop, ServeAll, Replacing, FirstFree, ScanOrder, Register, Registrations, Fits;
    StartInv(cfg, st, gone, se);
    FirstIsServed(cfg, Drop(st, gone), se, t, order, seqNo);
    GrantedEntry(cfg, Drop(st, gone), se, Request(t[order[0]], seqNo + 1));
  }

  lemma RestoredNeedsFirstFree(cfg: Settings, st: State, gone: SessionId, se: SessionId, t: Table, order: seq<string>, seqNo: int)
    requires AllValid(cfg.ranges) && Inv(cfg, st) && Replacing(st, gone, se)
    requires Holds(st, gone, t) && WellNamed(t) && OrderOf(order, t) && order != [] && Automatic(t[order[0]])
    requires SameAddresses(Reregistered(cfg, st, gone, se, t, order, seqNo), st, se.client)
    ensures st.owned[gone][order[0]].remotePort == FirstFree(ScanOrder(cfg.ranges), Drop(st, gone).byPort.Keys)
  {
    hide Key, Live, OwnersAgree, HostsAgree, SessionsSound, Drop, ServeAll, FirstFree, ScanOrder, HostNames, WellFormed,
         PortsAgree, Registrations;
    var n := order[0];
    var p := st.owned[gone][n];
    GoneClient(st, gone, se);
    OwnedIsLive(st, gone, n);
    PortOfLive(cfg, st, p);
    var fin := Reregistered(cfg, st, gone, se, t, order, seqNo);
    assert n in order;
    assert p.remotePort in PortNames(st, se.client) && PortNames(st, se.client)[p.remotePort] == n;
    assert p.remotePort in PortNames(fin, se.client);
    StartInv(cfg, st, gone, se);
    OthersKept(cfg, Drop(st, gone), se, Registrations(t, order, seqNo));
    var q := fin.byPort[p.remotePort];
    ByPortLive(cfg, fin, p.remotePort);
    OwnEntry(cfg, st, gone, se, Registrations(t, order, seqNo), q);
    FirstGetsFirstFree(cfg, st, gone, se, t, order, seqNo);
  }

  lemma PortOfLive(cfg: Settings, st: State, p: Proxy)
    requires Inv(cfg, st) && Live(st, p) && p.typ == "tcp"
    ensures p.remotePort != 0 && p.remotePort in st.byPort && st.byPort[p.remotePort] == p
  {
    hide Live, OwnersAgree, HostsAgree, SessionsSound;
  }

  lemma ByPortLive(cfg: Settings, st: State, port: int)
    requires Inv(cfg, st) && port in st.byPort
    ensures Live(st, st.byPort[port]) && st.byPort[port].remotePort == port
  {
    hide Live, OwnersAgree, HostsAgree, SessionsSound, ProxiesSound;
  }

  /** Reconnecting, exactly. At any reachable moment at which a client's other session is
      about to be dropped while the server holds exactly the client's table: the addresses
      come back in every order of registration if and only if at most one entry leaves its
      port to the server and, if there is one, its old port is the allocator's first
      choice once the old session is gone. */
  lemma ReconnectEndToEnd(cfg: Settings, st: State, gone: SessionId, se: SessionId, t: Table, seqNo: int)
    requires AllValid(cfg.ranges) && Inv(cfg, st) && Replacing(st, gone, se)
    requires Holds(st, gone, t) && WellNamed(t)
    ensures AutomaticOk(cfg, Drop(st, gone).byPort.Keys, st.owned[gone], t) <==>
            forall order :: OrderOf(order, t) ==> SameAddresses(Reregistered(cfg, st, gone, se, t, order, seqNo), st, se.client)
  {
    hide Inv, Drop, Replacing, Reregistered, SameAddresses, Fulfils, FirstFree, ScanOrder;
    if AutomaticOk(cfg, Drop(st, gone).byPort.Keys, st.owned[gone], t) {
      forall order | OrderOf(order, t) ensures SameAddresses(Reregistered(cfg, st, gone, se, t, order, seqNo), st, se.client) {
        AutomaticOkRestores(cfg, st, gone, se, t, order, seqNo);
      }
    }
    if forall order :: OrderOf(order, t) ==> SameAddresses(Reregistered(cfg, st, gone, se, t, order, seqNo), st, se.client) {
      forall n | LeavesPort(t, n)
        ensures st.owned[gone][n].remotePort == FirstFree(ScanOrder(cfg.ranges), Drop(st, gone).byPort.Keys)
      {
        var order := OrderFrom(t, n);
        RestoredNeedsFirstFree(cfg, st, gone, se, t, order, seqNo);
      }
      forall n, m | LeavesPort(t, n) && LeavesPort(t, m) ensures n == m {
        SamePortSameName(cfg, st, gone, t, n, m);
      }
    }
  }

  lemma SamePortSameName(cfg: Settings, st: State, gone: SessionId, t: Table, n: string, m: string)
    requires Inv(cfg, st) && Holds(st, gone, t) && n in t && m in t && Automatic(t[n]) && Automatic(t[m])
    requires st.owned[gone][n].remotePort == st.owned[gone][m].remotePort
    ensures n == m
  {
    hide Key, Live, OwnersAgree, PortsAgree, HostsAgree, ProxiesSound, SessionsSound;
    OwnedIsLive(st, gone, n);
    OwnedIsLive(st, gone, m);
    PortOfLive(cfg, st, st.owned[gone][n]);
    PortOfLive(cfg, st, st.owned[gone][m]);
  }

  /** The same from a login on, over whole runs: after any run in which no dropped session
      registers, let a client whose only session holds exactly its table log in anew and
      the old session be dropped. */
  lemma ReconnectOverRuns(cfg: Settings, events: seq<Event>, a: SessionId, t: Table, seqNo: int)
    requires AllValid(cfg.ranges) && GuardedRun(cfg, INITIAL, events)
    requires OnlySession(Run(cfg, INITIAL, events), a) && a.client != ""
    requires Holds(Run(cfg, INITIAL, events), a, t) && WellNamed(t)
    ensures var st := Run(cfg, INITIAL, events);
      var st', se := Login(st, a.client), SessionId(st.nextSid, a.client);
      AutomaticOk(cfg, Drop(st', a).byPort.Keys, st.owned[a], t) <==>
      forall order :: OrderOf(order, t) ==> SameAddresses(Reregistered(cfg, st', a, se, t, order, seqNo), st, a.client)
  {
    hide Inv, Run, GuardedRun, NoOrphans, OnlySession, Replacing, Login, Drop, Reregistered, Fulfils, OrderOf, AutomaticOk,
         PortNames, HostNames;
    var st := Run(cfg, INITIAL, events);
    RunKeepsInv(cfg, events);
    EveryProxyHasALiveSession(cfg, events);
    LoginStartsReplacing(cfg, st, a);
    var st', se := Login(st, a.client), SessionId(st.nextSid, a.client);
    GoneClient(st', a, se);
    SameViewsOf(st, st', a.client);
    ReconnectEndToEnd(cfg, st', a, se, t, seqNo);
  }

  lemma SameViewsOf(a: State, b: State, client: string)
    requires a.byPort == b.byPort && a.vhost == b.vhost
    ensures PortNames(a, client) == PortNames(b, client) && HostNames(a, client) == HostNames(b, client)
  {}

  // ---- An input on which it fails ----

  function AutomaticEntry(name: string, local: string): ProxyConfig {
    ProxyConfig(name, "tcp", local, 0, "", [])
  }

  /** The proxy an automatic entry becomes. */
  function Placed(pid: nat, name: string, local: string, port: int, se: SessionId): Proxy {
    Proxy(pid, name, "tcp", se.client, local, port, "", [], [], se)
  }

  /** A state as far as the example needs it. */
  ghost predicate Looks(st: State, sessions: map<string, SessionId>, owned: map<SessionId, map<string, Proxy>>,
                        proxies: map<string, Proxy>, byPort: map<int, Proxy>)
  {
    st.sessions == sessions && st.owned == owned && st.proxies == proxies && st.byPort == byPort
  }

  lemma TwoPorts(cfg: Settings)
    requires cfg.ranges == [PortRange(20000, 20001)]
    ensures AllValid(cfg.ranges)
    ensures FirstFree(ScanOrder(cfg.ranges), {}) == 20000 && FirstFree(ScanOrder(cfg.ranges), {20000}) == 20001
  {
    assert PortsOf(PortRange(20000, 20001)) == [20000, 20001];
    assert cfg.ranges[1..] == [];
    assert ScanOrder(cfg.ranges) == [20000, 20001] + ScanOrder([]);
    assert ScanOrder(cfg.ranges) == [20000, 20001];
    assert [20000, 20001][1..] == [20001];
  }

  lemma Grants(cfg: Settings, st: State, se: SessionId, name: string, local: string, reqId: int, port: int)
    requires cfg.splitOk(local) && se in st.owned && Key(se.client, name) !in st.proxies
    requires FirstFree(ScanOrder(cfg.ranges), st.byPort.Keys) == port != 0 && port !in st.byPort
    ensures var p := Placed(st.nextPid, name, local, port, se);
      var st' := Register(cfg, st, se, Request(AutomaticEntry(name, local), reqId), true).0;
      && Looks(st', st.sessions, st.owned[se := st.owned[se][name := p]], st.proxies[Key(se.client, name) := p],
               st.byPort[port := p])
      && st'.nextSid == st.nextSid && st'.dropped == st.dropped && st'.nextPid == st.nextPid + 1
  {
    hide Key, FirstFree, ScanOrder, SameConfig, Allowed;
  }

  lemma DifferentKeys(client: string)
    ensures Key(client, "a") != Key(client, "b")
  {
    assert "a"[0] != "b"[0];
    if Key(client, "a") == Key(client, "b") {
      SplitEqual(client, "a", client, "b");
    }
  }

  /** Two automatic entries registered one after the other by a session that has nothing
      on a server without taken ports: the first gets the first port. */
  lemma TwoGrants(cfg: Settings, st: State, se: SessionId, first: string, second: string, local: string, seqNo: int)
    requires cfg.ranges == [PortRange(20000, 20001)] && cfg.splitOk(local)
    requires se in st.owned && st.owned[se] == map[] && st.proxies == map[] && st.byPort == map[]
    requires Key(se.client, first) != Key(se.client, second) && first != second
    ensures var p, q := Placed(st.nextPid, first, local, 20000, se), Placed(st.nextPid + 1, second, local, 20001, se);
      var st1 := Register(cfg, st, se, Request(AutomaticEntry(first, local), seqNo + 1), true).0;
      && se in st1.owned
      && var st2 := Register(cfg, st1, se, Request(AutomaticEntry(second, local), seqNo + 2), true).0;
      && Looks(st2, st.sessions, st.owned[se := map[first := p, second := q]],
               map[Key(se.client, first) := p, Key(se.client, second) := q], map[20000 := p, 20001 := q])
      && st2.nextSid == st.nextSid && st2.dropped == st.dropped
  {
    hide Key, FirstFree, ScanOrder, Register;
    TwoPorts(cfg);
    assert st.byPort.Keys == {};
    Grants(cfg, st, se, first, local, seqNo + 1, 20000);
    var st1 := Register(cfg, st, se, Request(AutomaticEntry(first, local), seqNo + 1), true).0;
    assert st1.byPort.Keys == {20000};
    Grants(cfg, st1, se, second, local, seqNo + 2, 20001);
  }

  function SwapTable(local: string): Table {
    map["a" := AutomaticEntry("a", local), "b" := AutomaticEntry("b", local)]
  }

  /** The run up to the client's second login. */
  function BeforeSwap(cfg: Settings, client: string, local: string): State {
    var se := SessionId(0, client);
    Run(cfg, INITIAL, [LoginEv(client), RegisterEv(se, Request(AutomaticEntry("a", local), 1), true),
                       RegisterEv(se, Request(AutomaticEntry("b", local), 2), true), LoginEv(client)])
  }

  lemma RunFour(cfg: Settings, st: State, a: Event, b: Event, c: Event, d: Event)
    ensures Run(cfg, st, [a, b, c, d]) == Step(cfg, Step(cfg, Step(cfg, Step(cfg, st, a), b), c), d)
  {
    hide Step;
    RunSnoc(cfg, st, [a, b, c], d);
    RunSnoc(cfg, st, [a, b], c);
    RunSnoc(cfg, st, [a], b);
    RunSnoc(cfg, st, [], a);
    assert [a, b, c] + [d] == [a, b, c, d] && [a, b] + [c] == [a, b, c] && [a] + [b] == [a, b] && [] + [a] == [a];
    assert Run(cfg, st, []) == st;
  }

  lemma LooksBeforeSwap(cfg: Settings, client: string, local: string)
    requires cfg.ranges == [PortRange(20000, 20001)] && cfg.splitOk(local) && client != ""
    ensures var se, st := SessionId(0, client), BeforeSwap(cfg, client, local);
      var p, q := Placed(0, "a", local, 20000, se), Placed(1, "b", local, 20001, se);
      && Looks(st, map[client := SessionId(1, client)],
               map[se := map["a" := p, "b" := q], SessionId(1, client) := map[]],
               map[Key(client, "a") := p, Key(client, "b") := q], map[20000 := p, 20001 := q])
      && st.dropped == {}
  {
    hide Key, Register, FirstFree, ScanOrder, Run, Login, Looks;
    var se := SessionId(0, client);
    var a, b := Request(AutomaticEntry("a", local), 1), Request(AutomaticEntry("b", local), 2);
    RunFour(cfg, INITIAL, LoginEv(client), RegisterEv(se, a, true), RegisterEv(se, b, true), LoginEv(client));
    AfterFirstLogin(client);
    DifferentKeys(client);
    var st := Login(INITIAL, client);
    TwoGrants(cfg, st, se, "a", "b", local, 0);
    var st2 := Register(cfg, Register(cfg, st, se, a, true).0, se, b, true).0;
    var p, q := Placed(0, "a", local, 20000, se), Placed(1, "b", local, 20001, se);
    var table := map["a" := p, "b" := q];
    assert st.owned[se := table] == map[se := table];
    LooksAfterLogin(st2, client, map[client := se], map[se := map["a" := p, "b" := q]],
                    map[Key(client, "a") := p, Key(client, "b") := q], map[20000 := p, 20001 := q]);
    var next := SessionId(1, client);
    assert map[client := se][client := next] == map[client := next];
    assert map[se := table][next := map[]] == map[se := table, next := map[]];
  }

  lemma LooksAfterLogin(st: State, client: string, sessions: map<string, SessionId>, owned: map<SessionId, map<string, Proxy>>,
                        proxies: map<string, Proxy>, byPort: map<int, Proxy>)
    requires client != "" && Looks(st, sessions, owned, proxies, byPort)
    ensures var se := SessionId(st.nextSid, client);
      && Looks(Login(st, client), sessions[client := se], owned[se := map[]], proxies, byPort)
      && Login(st, client).dropped == st.dropped
  {}

  lemma NothingWithout(st: State, se: SessionId)
    requires se in st.owned && se !in st.dropped
    requires forall k :: k in st.proxies ==> st.proxies[k].session == se
    requires forall q :: q in st.byPort ==> st.byPort[q].session == se
    ensures Drop(st, se).proxies == map[] && Drop(st, se).byPort == map[]
    ensures Drop(st, se).owned == st.owned[se := map[]]
  {
    forall q: int ensures q !in WithoutPorts(st.byPort, se) {
      assert q in st.byPort ==> st.byPort[q].session == se;
    }
    assert WithoutPorts(st.byPort, se).Keys == {};
    assert Without(st.proxies, se).Keys == {};
  }

  lemma NamesOfTwo(st: State, p: Proxy, q: Proxy, client: string)
    requires st.byPort == map[20000 := p, 20001 := q] && p.session.client == q.session.client == client
    ensures PortNames(st, client) == map[20000 := p.name, 20001 := q.name]
  {}

  lemma SwapStarts(cfg: Settings, client: string, local: string)
    requires cfg.ranges == [PortRange(20000, 20001)] && cfg.splitOk(local) && client != ""
    ensures var st := BeforeSwap(cfg, client, local);
      var gone, se := SessionId(0, client), SessionId(1, client);
      && Replacing(st, gone, se) && Holds(st, gone, SwapTable(local))
      && PortNames(st, client) == map[20000 := "a", 20001 := "b"]
      && Drop(st, gone).proxies == map[] && Drop(st, gone).byPort == map[]
      && se in Drop(st, gone).owned && Drop(st, gone).owned[se] == map[]
  {
    hide Key, Drop, PortNames, BeforeSwap;
    var st, gone := BeforeSwap(cfg, client, local), SessionId(0, client);
    LooksBeforeSwap(cfg, client, local);
    NamesOfTwo(st, st.byPort[20000], st.byPort[20001], client);
    NothingWithout(st, gone);
  }

  lemma SwapEnds(cfg: Settings, start: State, se: SessionId, local: string)
    requires cfg.ranges == [PortRange(20000, 20001)] && cfg.splitOk(local)
    requires start.proxies == map[] && start.byPort == map[] && se in start.owned && start.owned[se] == map[]
    requires forall n :: n in ["b", "a"] ==> n in SwapTable(local)
    ensures PortNames(ServeAll(cfg, start, se, Registrations(SwapTable(local), ["b", "a"], 2)), se.client) ==
            map[20000 := "b", 20001 := "a"]
  {
    hide Key, Register, ServeAll, Registrations, PortNames;
    DifferentKeys(se.client);
    assert "a"[0] != "b"[0];
    TwoGrants(cfg, start, se, "b", "a", local, 2);
    TwoRegistrations(cfg, start, se, local);
    var fin := ServeAll(cfg, start, se, Registrations(SwapTable(local), ["b", "a"], 2));
    NamesOfTwo(fin, fin.byPort[20000], fin.byPort[20001], se.client);
  }

  /** Two automatic proxies exchange their ports. A client with two automatic entries on a
      server with two ports logs in, registers "a" and then "b", and logs in again; the
      old session is dropped and the map yields "b" first. */
  lemma AutomaticPortsSwap(cfg: Settings, client: string, local: string)
    requires cfg.ranges == [PortRange(20000, 20001)] && cfg.splitOk(local) && client != ""
    ensures var st := BeforeSwap(cfg, client, local);
      var gone, se, t := SessionId(0, client), SessionId(1, client), SwapTable(local);
      && Replacing(st, gone, se) && Holds(st, gone, t) && OrderOf(["b", "a"], t)
      && PortNames(st, client) == map[20000 := "a", 20001 := "b"]
      && PortNames(Reregistered(cfg, st, gone, se, t, ["b", "a"], 2), client) == map[20000 := "b", 20001 := "a"]
  {
    hide Drop, PortNames, BeforeSwap, Replacing, Holds, SwapTable, ServeAll, Registrations;
    SwapOrder(local);
    SwapStarts(cfg, client, local);
    SwapEnds(cfg, Drop(BeforeSwap(cfg, client, local), SessionId(0, client)), SessionId(1, client), local);
  }

  lemma SwapOrder(local: string)
    ensures OrderOf(["b", "a"], SwapTable(local))
  {
    assert ["b", "a"][0] == "b" && ["b", "a"][1] == "a";
    assert "a"[0] != "b"[0];
  }

  lemma TwoRegistrations(cfg: Settings, st: State, se: SessionId, local: string)
    requires se in st.owned && forall n :: n in ["b", "a"] ==> n in SwapTable(local)
    ensures var st1 := Register(cfg, st, se, Request(AutomaticEntry("b", local), 3), true).0;
      && se in st1.owned
      && ServeAll(cfg, st, se, Registrations(SwapTable(local), ["b", "a"], 2)) ==
         Register(cfg, st1, se, Request(AutomaticEntry("a", local), 4), true).0
  {
    hide Register, ServeAll;
    var b, a := RegisterMsg(Request(AutomaticEntry("b", local), 3)), RegisterMsg(Request(AutomaticEntry("a", local), 4));
    assert Registrations(SwapTable(local), ["b", "a"], 2) == [b] + [a];
    ServeSnoc(cfg, st, se, [b], a);
    ServeSnoc(cfg, st, se, [], b);
    assert [] + [b] == [b];
    NothingServed(cfg, st, se);
  }
}
