/** A client that reconnects and registers everything again gets every port and every
    host back (internal/client/client.go, internal/server/session.go). */
module Reconnect {
  import opened Wrappers
  import opened Config
  import opened Registry
  import opened RegistryLaws
  import opened Reload

  /** The proxies the replaced session held, by name. */
  type Held = map<string, Proxy>

  /** The same proxy in another session, its domains possibly in another order. */
  predicate Restored(p: Proxy, q: Proxy) {
    && q.name == p.name && q.typ == p.typ && q.client == p.client && q.local == p.local
    && q.remotePort == p.remotePort && q.subdomain == p.subdomain
    && multiset(q.customDomains) == multiset(p.customDomains)
  }

  /** `p` and `q` share no key, no port and no host. */
  ghost predicate Apart(p: Proxy, q: Proxy) {
    && KeyOf(p) != KeyOf(q)
    && (p.remotePort != 0 ==> p.remotePort != q.remotePort)
    && (forall h :: h in p.hosts ==> h !in q.hosts)
  }

  /** No proxy of another client stands where a held proxy stood. */
  ghost predicate Clear(st: State, held: Held, client: string) {
    forall q, n :: Live(st, q) && q.session.client != client && n in held ==> Apart(q, held[n])
  }

  ghost predicate Coherent(cfg: Settings, held: Held, client: string) {
    && (forall n :: n in held ==> held[n].name == n && held[n].session.client == client && WellFormed(cfg, held[n]))
    && (forall n, m :: n in held && m in held && n != m ==> Apart(held[n], held[m]))
  }

  /** The moment before a replaced session is dropped: its successor is current and
      empty, and no other session of the client holds anything. */
  ghost predicate Replacing(st: State, gone: SessionId, se: SessionId) {
    && Current(st, se) && PendingDrop(st, gone) && gone.client == se.client
    && (forall s :: s in st.owned && s.client == se.client && s != gone ==> st.owned[s] == map[])
  }

  /** While the names in `done` have been registered again. */
  ghost predicate Restoring(cfg: Settings, st: State, held: Held, se: SessionId, done: set<string>) {
    && Inv(cfg, st) && se in st.owned
    && st.owned[se].Keys == done && done <= held.Keys
    && (forall n :: n in done ==> Restored(held[n], st.owned[se][n]))
    && (forall s :: s in st.owned && s.client == se.client && s != se ==> st.owned[s] == map[])
    && Clear(st, held, se.client)
  }

  /** A step of the new session: one of the held proxies is registered again and the
      port binds. */
  ghost predicate Resend(held: Held, se: SessionId, e: Event) {
    e.RegisterEv? && e.se == se && e.bindOk && e.np.name in held && SameConfig(held[e.np.name], e.np)
  }

  /** A step of some other client. */
  predicate Foreign(client: string, e: Event) {
    match e
    case LoginEv(c) => c != client
    case DropEv(se) => se.client != client
    case RegisterEv(se, _, _) => se.client != client
    case CloseEv(se, _) => se.client != client
  }

  /** Every login, drop, registration and close of another client is such a step. */
  lemma OtherClientsMayAct(client: string, s: SessionId, np: NewProxy, bindOk: bool, name: string)
    requires s.client != client
    ensures Foreign(client, LoginEv(s.client)) && Foreign(client, DropEv(s))
    ensures Foreign(client, RegisterEv(s, np, bindOk)) && Foreign(client, CloseEv(s, name))
  {}

  /** The new session sends only its registrations, interleaved in any way with other
      clients that do not claim what was freed. */
  ghost predicate Reconnecting(cfg: Settings, st: State, held: Held, se: SessionId, events: seq<Event>)
    decreases |events|
  {
    events == [] ||
    (var init, e := events[..|events| - 1], events[|events| - 1];
     && Reconnecting(cfg, st, held, se, init)
     && (Resend(held, se, e) || (Foreign(se.client, e) && Clear(Run(cfg, st, events), held, se.client))))
  }

  /** The held names registered again so far. */
  ghost function Resent(held: Held, se: SessionId, events: seq<Event>): set<string> {
    set e | e in events && e.RegisterEv? && e.se == se && e.np.name in held :: e.np.name
  }

  // ---- Dropping the old session frees exactly what it held ----

  lemma LiveApart(st: State, p: Proxy, q: Proxy)
    requires Indexed(st) && Live(st, p) && Live(st, q) && p != q
    ensures Apart(p, q)
  {
    hide Key, OwnersAgree;
    LiveUnderKey(st, p);
    LiveUnderKey(st, q);
    hide Live;
    forall h | h in p.hosts ensures h !in q.hosts {
      assert st.vhost[h] == p;
    }
  }

  lemma HeldCoherent(cfg: Settings, st: State, gone: SessionId)
    requires Inv(cfg, st) && gone in st.owned
    ensures Coherent(cfg, st.owned[gone], gone.client)
  {
    hide Live, WellFormed, OwnersAgree, PortsAgree, HostsAgree, SessionsSound, Apart;
    var held := st.owned[gone];
    forall n | n in held ensures held[n].name == n && held[n].session.client == gone.client && WellFormed(cfg, held[n]) {
      OwnedIsLive(st, gone, n);
    }
    forall n, m | n in held && m in held && n != m ensures Apart(held[n], held[m]) {
      OwnedIsLive(st, gone, n);
      OwnedIsLive(st, gone, m);
      LiveApart(st, held[n], held[m]);
    }
  }

  lemma DropStartsRestoring(cfg: Settings, st: State, gone: SessionId, se: SessionId)
    requires Inv(cfg, st) && Replacing(st, gone, se)
    ensures Restoring(cfg, Drop(st, gone), st.owned[gone], se, {})
  {
    hide Live, WellFormed, OwnersAgree, PortsAgree, HostsAgree, ProxiesSound, SessionsSound, Apart, Restored;
    CurrentIsUndropped(st, se);
    DropKeepsInv(cfg, st, gone);
    var held := st.owned[gone];
    var st' := Drop(st, gone);
    forall q, n | Live(st', q) && q.session.client != se.client && n in held ensures Apart(q, held[n]) {
      OwnedIsLive(st, gone, n);
      LiveApart(st, q, held[n]);
    }
  }

  // ---- One registration again ----

  lemma RestoredClaims(cfg: Settings, p: Proxy, q: Proxy)
    requires WellFormed(cfg, p) && WellFormed(cfg, q) && Restored(p, q)
    ensures q.remotePort == p.remotePort && KeyOf(p) == KeyOf(q)
    ensures forall h :: h in q.hosts <==> h in p.hosts
  {
    hide Allowed, Key;
    if p.typ == "http" {
      HostsPermuted(cfg, p.customDomains, q.customDomains, p.subdomain);
      HostsPermuted(cfg, q.customDomains, p.customDomains, p.subdomain);
    }
  }

  /** Every live proxy but the one being restored is apart from it. */
  lemma RestoringApart(cfg: Settings, st: State, held: Held, se: SessionId, done: set<string>, n: string, q: Proxy)
    requires Restoring(cfg, st, held, se, done) && Coherent(cfg, held, se.client)
    requires n in held && n !in done && Live(st, q)
    ensures Apart(q, held[n])
  {
    hide Live, WellFormed, OwnersAgree, PortsAgree, HostsAgree, SessionsSound, Restored;
    LiveHasOwner(st, q);
    ClientOf(cfg, st, q);
    if q.session.client == se.client {
      RestoredClaims(cfg, held[q.name], q);
      assert Apart(held[q.name], held[n]);
    }
  }

  lemma ResentCandidate(cfg: Settings, st: State, se: SessionId, p: Proxy, np: NewProxy)
    requires WellFormed(cfg, p) && SameConfig(p, np) && p.name == np.name && p.session.client == se.client && se in st.owned
    ensures var q := Candidate(cfg, st, se, np);
      && WellFormed(cfg, q) && Restored(p, q)
      && q.name == np.name && q.session == se && q.pid == st.nextPid && KeyOf(q) == KeyOf(p) == Key(se.client, np.name)
  {
    hide Allowed, HostsOf, FirstFree, ScanOrder, Key;
    if np.typ == "http" {
      assert |p.customDomains| == |multiset(p.customDomains)|;
      assert |np.customDomains| == |multiset(np.customDomains)|;
    }
  }

  lemma ApartFits(cfg: Settings, st: State, p: Proxy, q: Proxy)
    requires Indexed(st) && q.session in st.owned && q.pid == st.nextPid && WellFormed(cfg, q)
    requires KeyOf(q) == KeyOf(p) && q.remotePort == p.remotePort && forall h :: h in q.hosts <==> h in p.hosts
    requires forall x :: Live(st, x) ==> Apart(x, p)
    ensures Fits(cfg, st, q)
  {
    hide Key, WellFormed;
    if KeyOf(q) in st.proxies {
      UnderKeyIsLive(st, KeyOf(q));
      assert false;
    }
    hide Live, OwnersAgree;
    if q.remotePort in st.byPort {
      assert false;
    }
    forall h | h in q.hosts ensures h !in st.vhost {
      if h in st.vhost {
        assert false;
      }
    }
  }

  /** What a held name asks for again fits. */
  lemma ResendFits(cfg: Settings, st: State, held: Held, se: SessionId, done: set<string>, np: NewProxy)
    requires AllValid(cfg.ranges)
    requires Restoring(cfg, st, held, se, done) && Coherent(cfg, held, se.client)
    requires np.name in held && np.name !in done && SameConfig(held[np.name], np)
    ensures var q := Candidate(cfg, st, se, np);
      && Fits(cfg, st, q) && Restored(held[np.name], q) && q.remotePort == held[np.name].remotePort
      && q.session == se && q.name == np.name && KeyOf(q) == Key(se.client, np.name)
      && Key(se.client, np.name) !in st.proxies
  {
    hide Key, Live, WellFormed, OwnersAgree, PortsAgree, HostsAgree, SessionsSound, SameConfig, Candidate, Apart, HostsOf,
         Restored;
    var n := np.name;
    var p := held[n];
    var q := Candidate(cfg, st, se, np);
    ResentCandidate(cfg, st, se, p, np);
    RestoredClaims(cfg, p, q);
    forall x | Live(st, x) ensures Apart(x, p) {
      RestoringApart(cfg, st, held, se, done, n, x);
    }
    ApartFits(cfg, st, p, q);
  }

  /** The first registration again of a held name is granted, with its old port. */
  lemma ResendFresh(cfg: Settings, st: State, held: Held, se: SessionId, done: set<string>, np: NewProxy)
    requires AllValid(cfg.ranges)
    requires Restoring(cfg, st, held, se, done) && Coherent(cfg, held, se.client)
    requires np.name in held && np.name !in done && SameConfig(held[np.name], np)
    ensures var (st', resp) := Register(cfg, st, se, np, true);
      && resp.ok && resp.remotePort == held[np.name].remotePort
      && Restoring(cfg, st', held, se, done + {np.name})
  {
    hide Key, Live, WellFormed, OwnersAgree, PortsAgree, HostsAgree, SessionsSound, Restored, SameConfig, Candidate,
         Register, Apart, HostsOf;
    var q := Candidate(cfg, st, se, np);
    ResendFits(cfg, st, held, se, done, np);
    RegisterFresh(cfg, st, se, np, true);
    InsertKeepsInv(cfg, st, q);
    var st' := Insert(st, q);
    assert st'.owned[se] == st.owned[se][np.name := q];
    ClearInsert(st, held, se, q);
  }

  lemma ClearInsert(st: State, held: Held, se: SessionId, q: Proxy)
    requires Clear(st, held, se.client) && q.session == se && se in st.owned && KeyOf(q) !in st.proxies
    ensures Clear(Insert(st, q), held, se.client)
  {
    hide Live, Apart, Key, Insert;
    InsertLive(st, q);
  }

  /** Registering it yet again is granted too and changes nothing. */
  lemma ResendAgain(cfg: Settings, st: State, held: Held, se: SessionId, done: set<string>, np: NewProxy)
    requires AllValid(cfg.ranges)
    requires Restoring(cfg, st, held, se, done) && Coherent(cfg, held, se.client)
    requires np.name in done && SameConfig(held[np.name], np)
    ensures var (st', resp) := Register(cfg, st, se, np, true);
      resp.ok && resp.remotePort == held[np.name].remotePort && st' == st
  {
    hide Key, Live, PortsAgree, HostsAgree, SessionsSound, WellFormed, HostsOf, Register;
    var q := st.owned[se][np.name];
    OwnedIsLive(st, se, np.name);
    ClientOf(cfg, st, q);
    LiveUnderKey(st, q);
    RegisterTaken(cfg, st, se, np, true);
  }

  // ---- Steps of other clients ----

  lemma ForeignTables(cfg: Settings, st: State, e: Event, client: string)
    requires OwnersAgree(st) && SessionsSound(st) && Foreign(client, e)
    ensures forall s :: s in st.owned && s.client == client ==>
              s in Step(cfg, st, e).owned && Step(cfg, st, e).owned[s] == st.owned[s]
    ensures forall s :: s in Step(cfg, st, e).owned && s.client == client ==> s in st.owned
  {
    hide Register, Close, OwnersAgree, SessionsSound;
    match e {
      case LoginEv(c) => LoginSessionIsNew(st, c);
      case DropEv(se) =>
      case RegisterEv(se, np, bindOk) =>
        if se in st.owned {
          forall s | s in st.owned && s.client == client ensures Step(cfg, st, e).owned[s] == st.owned[s] {
            RegisterTables(cfg, st, se, np, bindOk, s);
          }
        }
      case CloseEv(se, name) =>
        if se in st.owned {
          CloseTables(st, se, name);
        } else {
          CloseNobody(st, se, name);
        }
    }
  }

  lemma ForeignKeepsRestoring(cfg: Settings, st: State, held: Held, se: SessionId, done: set<string>, e: Event)
    requires AllValid(cfg.ranges) && Restoring(cfg, st, held, se, done)
    requires Foreign(se.client, e) && Clear(Step(cfg, st, e), held, se.client)
    ensures Restoring(cfg, Step(cfg, st, e), held, se, done)
  {
    hide ProxiesSound, PortsAgree, HostsAgree, OwnersAgree, SessionsSound, Step, Foreign, Clear, Restored;
    StepKeepsInv(cfg, st, e);
    ForeignTables(cfg, st, e, se.client);
  }

  // ---- The whole reconnection ----

  lemma ResentSnoc(held: Held, se: SessionId, events: seq<Event>)
    requires events != []
    ensures var init, e := events[..|events| - 1], events[|events| - 1];
      Resent(held, se, events) == Resent(held, se, init) +
        if e.RegisterEv? && e.se == se && e.np.name in held then {e.np.name} else {}
  {
    var init, e := events[..|events| - 1], events[|events| - 1];
    assert events == init + [e];
  }

  lemma {:induction false} ReconnectRestores(cfg: Settings, st: State, held: Held, se: SessionId, events: seq<Event>)
    requires AllValid(cfg.ranges) && Coherent(cfg, held, se.client)
    requires Restoring(cfg, st, held, se, {}) && Reconnecting(cfg, st, held, se, events)
    ensures Restoring(cfg, Run(cfg, st, events), held, se, Resent(held, se, events))
    decreases |events|
  {
    hide Coherent, Restoring, Resent, Step, Foreign, Clear, SameConfig;
    if events == [] {
      assert Resent(held, se, events) == {} by {
        NothingResent(held, se);
      }
    } else {
      var init, e := events[..|events| - 1], events[|events| - 1];
      var mid, done := Run(cfg, st, init), Resent(held, se, init);
      ReconnectRestores(cfg, st, held, se, init);
      ResentSnoc(held, se, events);
      if Resend(held, se, e) {
        ResendStep(cfg, mid, held, se, done, e);
      } else {
        ForeignKeepsRestoring(cfg, mid, held, se, done, e);
        NotOwn(se, e);
        assert done + {} == done;
      }
    }
  }

  lemma NothingResent(held: Held, se: SessionId)
    ensures Resent(held, se, []) == {}
  {}

  lemma NotOwn(se: SessionId, e: Event)
    requires Foreign(se.client, e)
    ensures !(e.RegisterEv? && e.se == se)
  {}

  /** Every registration the new session sends is answered OK with the old port. */
  lemma ResendStep(cfg: Settings, st: State, held: Held, se: SessionId, done: set<string>, e: Event)
    requires AllValid(cfg.ranges) && Restoring(cfg, st, held, se, done) && Coherent(cfg, held, se.client)
    requires Resend(held, se, e)
    ensures se in st.owned
    ensures var (st', resp) := Register(cfg, st, se, e.np, e.bindOk);
      && resp.ok && resp.remotePort == held[e.np.name].remotePort
      && Step(cfg, st, e) == st' && Restoring(cfg, st', held, se, done + {e.np.name})
  {
    hide Register, Coherent, SameConfig, Clear, Inv, Restored;
    if e.np.name in done {
      ResendAgain(cfg, st, held, se, done, e.np);
      assert done + {e.np.name} == done;
    } else {
      ResendFresh(cfg, st, held, se, done, e.np);
    }
  }

  lemma {:induction false} ReconnectingPrefix(cfg: Settings, st: State, held: Held, se: SessionId,
                                              events: seq<Event>, k: nat)
    requires Reconnecting(cfg, st, held, se, events) && k <= |events|
    ensures Reconnecting(cfg, st, held, se, events[..k])
    decreases |events|
  {
    hide Run, Clear, Foreign, Resend;
    if k == |events| {
      assert events[..k] == events;
    } else {
      assert events[..|events| - 1][..k] == events[..k];
      ReconnectingPrefix(cfg, st, held, se, events[..|events| - 1], k);
    }
  }

  /** No registration of the new session is ever refused during the reconnection, and
      each is answered with the port its proxy had before. */
  lemma EveryResendIsGranted(cfg: Settings, st: State, gone: SessionId, se: SessionId, events: seq<Event>, k: nat)
    requires AllValid(cfg.ranges) && Inv(cfg, st) && Replacing(st, gone, se)
    requires Reconnecting(cfg, Drop(st, gone), st.owned[gone], se, events)
    requires k < |events| && Resend(st.owned[gone], se, events[k])
    ensures var now := Run(cfg, Drop(st, gone), events[..k]);
      && se in now.owned
      && Register(cfg, now, se, events[k].np, true).1.ok
      && Register(cfg, now, se, events[k].np, true).1.remotePort == st.owned[gone][events[k].np.name].remotePort
  {
    hide Inv, Reconnecting, Resent, Run, Drop, Coherent, Restoring, Register, SameConfig;
    var held := st.owned[gone];
    HeldCoherent(cfg, st, gone);
    DropStartsRestoring(cfg, st, gone, se);
    ReconnectingPrefix(cfg, Drop(st, gone), held, se, events, k);
    ReconnectRestores(cfg, Drop(st, gone), held, se, events[..k]);
    ResendStep(cfg, Run(cfg, Drop(st, gone), events[..k]), held, se, Resent(held, se, events[..k]), events[k]);
  }

  /** What the outside sees of a client: its ports and its hosts, each with the name of
      the proxy behind it. */
  ghost function PortNames(st: State, client: string): map<int, string> {
    map q | q in st.byPort && st.byPort[q].session.client == client :: st.byPort[q].name
  }

  ghost function HostNames(st: State, client: string): map<string, string> {
    map h | h in st.vhost && st.vhost[h].session.client == client :: st.vhost[h].name
  }

  /** Reconnection is stable. Take any reachable moment at which a client's only other
      session is about to be dropped. Drop it, and let the new session register the
      same proxies in any order and any number of times, with the steps of other
      clients in between as long as these claim nothing that was freed. Once every
      name has been registered, the client's ports and hosts lead to the same names as
      before. */
  lemma ReconnectIsStable(cfg: Settings, st: State, gone: SessionId, se: SessionId, events: seq<Event>)
    requires AllValid(cfg.ranges) && Inv(cfg, st) && Replacing(st, gone, se)
    requires Reconnecting(cfg, Drop(st, gone), st.owned[gone], se, events)
    requires Resent(st.owned[gone], se, events) == st.owned[gone].Keys
    ensures var fin := Run(cfg, Drop(st, gone), events);
      && PortNames(fin, se.client) == PortNames(st, se.client)
      && HostNames(fin, se.client) == HostNames(st, se.client)
      && se in fin.owned && fin.owned[se].Keys == st.owned[gone].Keys
  {
    hide Inv, Reconnecting, Resent, Run, Drop, PortNames, HostNames, Coherent, WellFormed, Restored, Clear;
    var held := st.owned[gone];
    HeldCoherent(cfg, st, gone);
    DropStartsRestoring(cfg, st, gone, se);
    ReconnectRestores(cfg, Drop(st, gone), held, se, events);
    var fin := Run(cfg, Drop(st, gone), events);
    RestoredPorts(cfg, st, fin, held, gone, se);
    RestoredHosts(cfg, st, fin, held, gone, se);
    SameViews(st, fin, se.client);
  }

  lemma HeldByClient(cfg: Settings, st: State, fin: State, held: Held, gone: SessionId, se: SessionId, p: Proxy)
    requires Inv(cfg, st) && Replacing(st, gone, se) && held == st.owned[gone]
    requires Coherent(cfg, held, se.client) && Restoring(cfg, fin, held, se, held.Keys)
    requires Live(st, p) && p.session.client == se.client
    ensures p.name in fin.owned[se]
    ensures var r := fin.owned[se][p.name];
      && Live(fin, r) && r.session == se && r.name == p.name && r.remotePort == p.remotePort
      && forall h :: h in r.hosts <==> h in p.hosts
  {
    hide Key, Live, WellFormed, OwnersAgree, PortsAgree, HostsAgree, SessionsSound, Apart, Restored;
    LiveHasOwner(st, p);
    OwnedIsLive(fin, se, p.name);
    ClientOf(cfg, fin, fin.owned[se][p.name]);
    RestoredClaims(cfg, held[p.name], fin.owned[se][p.name]);
  }

  lemma FromHeld(cfg: Settings, st: State, fin: State, held: Held, gone: SessionId, se: SessionId, r: Proxy)
    requires Inv(cfg, st) && Replacing(st, gone, se) && held == st.owned[gone]
    requires Coherent(cfg, held, se.client) && Restoring(cfg, fin, held, se, held.Keys)
    requires Live(fin, r) && r.session.client == se.client
    ensures r.name in held
    ensures var p := held[r.name];
      && Live(st, p) && p.session.client == se.client && r.remotePort == p.remotePort
      && forall h :: h in r.hosts <==> h in p.hosts
  {
    hide Key, Live, WellFormed, OwnersAgree, PortsAgree, HostsAgree, SessionsSound, Apart, Restored;
    LiveHasOwner(fin, r);
    OwnedIsLive(st, gone, r.name);
    ClientOf(cfg, fin, r);
    RestoredClaims(cfg, held[r.name], r);
  }

  lemma RestoredPorts(cfg: Settings, st: State, fin: State, held: Held, gone: SessionId, se: SessionId)
    requires Inv(cfg, st) && Replacing(st, gone, se) && held == st.owned[gone]
    requires Coherent(cfg, held, se.client) && Restoring(cfg, fin, held, se, held.Keys)
    ensures forall q :: q in PortNames(st, se.client) ==>
              q in PortNames(fin, se.client) && PortNames(fin, se.client)[q] == PortNames(st, se.client)[q]
    ensures forall q :: q in PortNames(fin, se.client) ==> q in PortNames(st, se.client)
  {
    hide Key, Live, WellFormed, OwnersAgree, HostsAgree, ProxiesSound, SessionsSound, Apart, Restored, Coherent, Clear;
    forall q | q in PortNames(st, se.client)
      ensures q in PortNames(fin, se.client) && PortNames(fin, se.client)[q] == PortNames(st, se.client)[q]
    {
      HeldByClient(cfg, st, fin, held, gone, se, st.byPort[q]);
    }
    forall q | q in PortNames(fin, se.client) ensures q in PortNames(st, se.client) {
      FromHeld(cfg, st, fin, held, gone, se, fin.byPort[q]);
    }
  }

  lemma RestoredHosts(cfg: Settings, st: State, fin: State, held: Held, gone: SessionId, se: SessionId)
    requires Inv(cfg, st) && Replacing(st, gone, se) && held == st.owned[gone]
    requires Coherent(cfg, held, se.client) && Restoring(cfg, fin, held, se, held.Keys)
    ensures forall h :: h in HostNames(st, se.client) ==>
              h in HostNames(fin, se.client) && HostNames(fin, se.client)[h] == HostNames(st, se.client)[h]
    ensures forall h :: h in HostNames(fin, se.client) ==> h in HostNames(st, se.client)
  {
    hide Key, Live, WellFormed, OwnersAgree, PortsAgree, HostsAgree, ProxiesSound, SessionsSound, Apart, Restored, Coherent,
         Clear;
    forall h | h in HostNames(st, se.client)
      ensures h in HostNames(fin, se.client) && HostNames(fin, se.client)[h] == HostNames(st, se.client)[h]
    {
      LiveHost(st, h);
      HeldByClient(cfg, st, fin, held, gone, se, st.vhost[h]);
      HostOf(fin, fin.owned[se][st.vhost[h].name], h);
    }
    forall h | h in HostNames(fin, se.client) ensures h in HostNames(st, se.client) {
      LiveHost(fin, h);
      FromHeld(cfg, st, fin, held, gone, se, fin.vhost[h]);
      HostOf(st, held[fin.vhost[h].name], h);
    }
  }

  lemma LiveHost(st: State, h: string)
    requires HostsAgree(st) && h in st.vhost
    ensures Live(st, st.vhost[h]) && h in st.vhost[h].hosts
  {
    hide Live;
  }

  lemma HostOf(st: State, p: Proxy, h: string)
    requires HostsAgree(st) && Live(st, p) && h in p.hosts
    ensures h in st.vhost && st.vhost[h] == p
  {
    hide Live;
  }

  lemma SameViews(a: State, b: State, client: string)
    requires forall q :: q in PortNames(a, client) ==>
               q in PortNames(b, client) && PortNames(b, client)[q] == PortNames(a, client)[q]
    requires forall q :: q in PortNames(b, client) ==> q in PortNames(a, client)
    requires forall h :: h in HostNames(a, client) ==>
               h in HostNames(b, client) && HostNames(b, client)[h] == HostNames(a, client)[h]
    requires forall h :: h in HostNames(b, client) ==> h in HostNames(a, client)
    ensures PortNames(a, client) == PortNames(b, client) && HostNames(a, client) == HostNames(b, client)
  {
    hide PortNames, HostNames;
    var pa, pb := PortNames(a, client), PortNames(b, client);
    assert forall q :: q in pa.Keys <==> q in pb.Keys;
    assert pa.Keys == pb.Keys;
    forall q: int | q in pa.Keys ensures pa[q] == pb[q] {}
    SameMap(HostNames(a, client), HostNames(b, client));
  }
}
