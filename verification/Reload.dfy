/** What a configuration reload sends to the server, and when the server ends up
    holding exactly the new configuration (internal/client/client.go). */
module Reload {
  import opened Wrappers
  import opened Config
  import opened Registry
  import opened RegistryLaws

  datatype ProxyConfig = ProxyConfig(
    name: string,
    typ: string,
    local: string,
    remotePort: int,
    subdomain: string,
    customDomains: seq<string>)

  /** The client's proxies by name. */
  type Table = map<string, ProxyConfig>

  ghost predicate WellNamed(t: Table) {
    forall n :: n in t ==> t[n].name == n
  }

  predicate ProxyEqual(a: ProxyConfig, b: ProxyConfig) {
    && a.name == b.name && a.typ == b.typ && a.local == b.local
    && a.remotePort == b.remotePort && a.subdomain == b.subdomain
    && multiset(a.customDomains) == multiset(b.customDomains)
  }

  function Request(p: ProxyConfig, reqId: int): NewProxy {
    NewProxy(reqId, p.name, p.typ, p.local, p.remotePort, p.subdomain, p.customDomains)
  }

  // ---- The messages of a reload ----

  datatype Msg = RegisterMsg(np: NewProxy) | CloseMsg(name: string)

  predicate Changed(oldT: Table, newT: Table, n: string) {
    n in newT && !(n in oldT && ProxyEqual(oldT[n], newT[n]))
  }

  /** What one name of the new table sends, given the next request id. */
  function Actions(oldT: Table, newT: Table, n: string, reqId: int): seq<Msg>
    requires n in newT
  {
    if !Changed(oldT, newT, n) then []
    else (if n in oldT then [CloseMsg(n)] else []) + [RegisterMsg(Request(newT[n], reqId))]
  }

  /** The first loop: the names of the new table in the order the map yields them,
      registrations numbered from `seqNo + 1`. */
  function Updates(oldT: Table, newT: Table, order: seq<string>, seqNo: int): seq<Msg>
    requires forall n :: n in order ==> n in newT
  {
    if order == [] then []
    else Actions(oldT, newT, order[0], seqNo + 1)
         + Updates(oldT, newT, order[1..], if Changed(oldT, newT, order[0]) then seqNo + 1 else seqNo)
  }

  function ChangedIn(oldT: Table, newT: Table, order: seq<string>): nat {
    if order == [] then 0 else ChangedIn(oldT, newT, order[1..]) + if Changed(oldT, newT, order[0]) then 1 else 0
  }

  /** The second loop: the names of the old table in the order the map yields them. */
  function Closes(newT: Table, order: seq<string>): seq<Msg> {
    if order == [] then []
    else (if order[0] in newT then [] else [CloseMsg(order[0])]) + Closes(newT, order[1..])
  }

  function Plan(oldT: Table, newT: Table, newOrder: seq<string>, oldOrder: seq<string>, seqNo: int): seq<Msg>
    requires forall n :: n in newOrder ==> n in newT
  {
    Updates(oldT, newT, newOrder, seqNo) + Closes(newT, oldOrder)
  }

  ghost predicate NoDup(xs: seq<string>) {
    forall i, j :: 0 <= i < j < |xs| ==> xs[i] != xs[j]
  }

  /** A map yields each of its keys once. */
  ghost predicate OrderOf(xs: seq<string>, t: Table) {
    NoDup(xs) && (forall n :: n in xs <==> n in t)
  }

  // ---- The server handling them in order, every bind succeeding ----

  function Serve(cfg: Settings, st: State, se: SessionId, m: Msg): State {
    match m
    case RegisterMsg(np) => if se in st.owned then Register(cfg, st, se, np, true).0 else st
    case CloseMsg(n) => Close(st, se, n)
  }

  function ServeAll(cfg: Settings, st: State, se: SessionId, msgs: seq<Msg>): State
    decreases |msgs|
  {
    if msgs == [] then st else ServeAll(cfg, Serve(cfg, st, se, msgs[0]), se, msgs[1..])
  }

  lemma {:induction false} ServeConcat(cfg: Settings, st: State, se: SessionId, a: seq<Msg>, b: seq<Msg>)
    ensures ServeAll(cfg, st, se, a + b) == ServeAll(cfg, ServeAll(cfg, st, se, a), se, b)
    decreases |a|
  {
    hide Serve;
    if a == [] {
      assert a + b == b;
    } else {
      assert (a + b)[1..] == a[1..] + b;
      ServeConcat(cfg, Serve(cfg, st, se, a[0]), se, a[1..], b);
    }
  }

  lemma ServeKeepsInv(cfg: Settings, st: State, se: SessionId, m: Msg)
    requires AllValid(cfg.ranges) && Inv(cfg, st) && se in st.owned
    ensures Inv(cfg, Serve(cfg, st, se, m)) && se in Serve(cfg, st, se, m).owned
  {
    hide Inv, Register;
    match m {
      case RegisterMsg(np) => RegisterKeepsInv(cfg, st, se, np, true);
      case CloseMsg(n) => CloseKeepsInv(cfg, st, se, n);
    }
  }

  function NameOf(m: Msg): string {
    match m
    case RegisterMsg(np) => np.name
    case CloseMsg(n) => n
  }

  /** The entry `n` of a session table, present or absent. */
  function Entry(st: State, se: SessionId, n: string): Option<Proxy> {
    if se in st.owned && n in st.owned[se] then Some(st.owned[se][n]) else None
  }

  // ---- What it means to hold a table ----

  /** A tcp proxy that leaves its port to the server. */
  predicate Automatic(c: ProxyConfig) {
    c.typ == "tcp" && c.remotePort == 0
  }

  /** A live proxy is what `c` asks for; an automatic entry asks for any port. */
  predicate Fulfils(p: Proxy, c: ProxyConfig) {
    SameConfig(p, Request(if Automatic(c) then c.(remotePort := p.remotePort) else c, 0))
  }

  ghost predicate Holds(st: State, se: SessionId, t: Table) {
    && se in st.owned
    && st.owned[se].Keys == t.Keys
    && forall n :: n in t ==> Fulfils(st.owned[se][n], t[n])
  }

  /** How a reload is to end: the session holds exactly the names of the new table, every
      new or changed entry as it is asked for, and every unchanged entry as the very proxy
      it was. */
  ghost predicate Converged(was: State, st: State, se: SessionId, oldT: Table, newT: Table) {
    && se in st.owned
    && st.owned[se].Keys == newT.Keys
    && (forall n :: Changed(oldT, newT, n) ==> Fulfils(st.owned[se][n], newT[n]))
    && (forall n :: n in newT && !Changed(oldT, newT, n) ==> Entry(st, se, n) == Entry(was, se, n))
  }

  /** Before the reload the session holds the names of the old table, whatever their
      ports and configurations. */
  ghost predicate Start(cfg: Settings, was: State, se: SessionId, oldT: Table, newT: Table) {
    && AllValid(cfg.ranges) && Inv(cfg, was) && WellNamed(newT)
    && se in was.owned && was.owned[se].Keys == oldT.Keys
  }

  lemma ConvergedHolds(was: State, st: State, se: SessionId, oldT: Table, newT: Table)
    requires Holds(was, se, oldT) && Converged(was, st, se, oldT, newT)
    ensures Holds(st, se, newT)
  {
    forall n | n in newT ensures Fulfils(st.owned[se][n], newT[n]) {
      if !Changed(oldT, newT, n) {
        assert Entry(st, se, n) == Entry(was, se, n);
        StillFulfils(oldT[n], newT[n], was.owned[se][n]);
      }
    }
  }

  lemma StillFulfils(a: ProxyConfig, b: ProxyConfig, p: Proxy)
    requires ProxyEqual(a, b) && Fulfils(p, a)
    ensures Fulfils(p, b)
  {}

  /** Field by field: the kind, the local address, and the port, unless it is left to the
      server, or the subdomain and the domains in any order. */
  lemma FulfilsExactly(p: Proxy, c: ProxyConfig)
    ensures Fulfils(p, c) <==>
            && p.typ == c.typ && p.local == c.local
            && (c.typ == "tcp" ==> c.remotePort == 0 || p.remotePort == c.remotePort)
            && (c.typ != "tcp" ==> p.subdomain == c.subdomain && multiset(p.customDomains) == multiset(c.customDomains))
  {}

  /** A configured name is new or changed exactly when there was none of that name or a field
      differs; the order of the domains is no difference. */
  lemma ChangedExactly(oldT: Table, newT: Table, n: string)
    ensures Changed(oldT, newT, n) <==>
            && n in newT
            && (n in oldT ==>
                  || oldT[n].name != newT[n].name || oldT[n].typ != newT[n].typ || oldT[n].local != newT[n].local
                  || oldT[n].remotePort != newT[n].remotePort || oldT[n].subdomain != newT[n].subdomain
                  || multiset(oldT[n].customDomains) != multiset(newT[n].customDomains))
  {}

  /** A reload in which nothing changed sends nothing, in any order. */
  lemma {:induction false} NothingChangedSendsNothing(oldT: Table, newT: Table, newOrder: seq<string>, oldOrder: seq<string>, seqNo: int)
    requires newT.Keys == oldT.Keys && forall n :: n in newT ==> !Changed(oldT, newT, n)
    requires (forall n :: n in newOrder ==> n in newT) && forall n :: n in oldOrder ==> n in oldT
    ensures Plan(oldT, newT, newOrder, oldOrder, seqNo) == []
  {
    hide Changed;
    QuietUpdates(oldT, newT, newOrder, seqNo);
    QuietCloses(newT, oldOrder);
  }

  lemma {:induction false} QuietUpdates(oldT: Table, newT: Table, order: seq<string>, seqNo: int)
    requires forall n :: n in order ==> n in newT && !Changed(oldT, newT, n)
    ensures Updates(oldT, newT, order, seqNo) == []
  {
    hide Changed;
    if order != [] {
      QuietUpdates(oldT, newT, order[1..], seqNo);
    }
  }

  lemma {:induction false} QuietCloses(newT: Table, order: seq<string>)
    requires forall n :: n in order ==> n in newT
    ensures Closes(newT, order) == []
  {
    if order != [] {
      QuietCloses(newT, order[1..]);
    }
  }

  // ---- When a reload converges ----

  predicate Own(p: Proxy, se: SessionId, n: string) {
    p.session == se && p.name == n
  }

  function ClaimedPort(c: ProxyConfig): int {
    if c.typ == "tcp" then c.remotePort else 0
  }

  function ClaimedHosts(cfg: Settings, c: ProxyConfig): seq<string> {
    if c.typ == "http" then HostsOf(cfg, c.customDomains, c.subdomain) else []
  }

  /** The server accepts such a configuration whenever its name and claims are free and,
      if it leaves its port to the server, some whitelisted port is. */
  predicate Requestable(cfg: Settings, c: ProxyConfig) {
    && cfg.splitOk(c.local)
    && (c.typ == "tcp" || c.typ == "http")
    && (c.typ == "tcp" && c.remotePort != 0 ==> Allowed(cfg.ranges, c.remotePort))
    && (c.typ == "http" ==>
          && cfg.vhostPort != 0
          && (c.subdomain != "" || |c.customDomains| > 0)
          && (c.subdomain != "" ==> cfg.vhostDomain != ""))
  }

  /** Nobody but the session's own proxy `n` holds the key, the port or a host that
      `c` claims. */
  ghost predicate Unclaimed(cfg: Settings, st: State, se: SessionId, n: string, c: ProxyConfig) {
    && (Key(se.client, n) in st.proxies ==> Own(st.proxies[Key(se.client, n)], se, n))
    && (ClaimedPort(c) in st.byPort ==> Own(st.byPort[ClaimedPort(c)], se, n))
    && (forall h :: h in ClaimedHosts(cfg, c) && h in st.vhost ==> Own(st.vhost[h], se, n))
  }

  ghost predicate Disjoint(cfg: Settings, a: ProxyConfig, b: ProxyConfig) {
    && (ClaimedPort(a) != 0 ==> ClaimedPort(a) != ClaimedPort(b))
    && (forall h :: h in ClaimedHosts(cfg, a) ==> h !in ClaimedHosts(cfg, b))
  }

  /** The port a name holds before the reload, or 0. */
  function OldPort(was: State, se: SessionId, n: string): int {
    if Entry(was, se, n).Some? then Entry(was, se, n).value.remotePort else 0
  }

  /** The ports the allocator tries before `port`; every one of them before 0, which is
      no port. */
  function TriedBefore(order: seq<int>, port: int): set<int> {
    if order == [] || order[0] == port then {} else {order[0]} + TriedBefore(order[1..], port)
  }

  function PortsHeld(st: State, se: SessionId): set<int> {
    set q | q in st.byPort && st.byPort[q].session == se
  }

  function PortsOfOthers(st: State, se: SessionId): set<int> {
    set q | q in st.byPort && st.byPort[q].session != se
  }

  ghost predicate SomeAutomatic(oldT: Table, newT: Table) {
    exists n :: Changed(oldT, newT, n) && Automatic(newT[n])
  }

  /** The new and changed names that may come to hold one more of the ports `among`:
      they hold none of them yet, and leave their port to the server or claim one of them
      that is free. */
  ghost function Newcomers(was: State, se: SessionId, oldT: Table, newT: Table, among: set<int>): set<string> {
    set n | n in newT && Changed(oldT, newT, n) && OldPort(was, se, n) !in among
            && (Automatic(newT[n]) || ClaimedPort(newT[n]) in among - was.byPort.Keys)
  }

  /** The ports tried before `limit` suffice for all who may come to hold one, besides the
      session's own ports and those of others. */
  ghost predicate RoomBefore(cfg: Settings, was: State, others: set<int>, se: SessionId, oldT: Table, newT: Table, limit: int) {
    var among := TriedBefore(ScanOrder(cfg.ranges), limit);
    |Newcomers(was, se, oldT, newT, among)| + |among * PortsHeld(was, se)| + |among * others| <= |among|
  }

  /** If some new or changed entry leaves its port to the server, there are ports enough
      for all of these entries, and enough before each free port that an entry names, so
      that none of them takes it. */
  ghost predicate Room(cfg: Settings, was: State, others: set<int>, se: SessionId, oldT: Table, newT: Table) {
    SomeAutomatic(oldT, newT) ==>
      forall n :: Changed(oldT, newT, n) && ClaimedPort(newT[n]) !in was.byPort ==>
        RoomBefore(cfg, was, others, se, oldT, newT, ClaimedPort(newT[n]))
  }

  /** Decidable before the reload starts: the server accepts every new or changed entry,
      each claims nothing that another live proxy holds or another new or changed entry
      also claims, and there is room for those that leave their port to the server. */
  ghost predicate ReloadOk(cfg: Settings, st: State, se: SessionId, oldT: Table, newT: Table) {
    && (forall n :: Changed(oldT, newT, n) ==>
          && Requestable(cfg, newT[n])
          && Unclaimed(cfg, st, se, n, newT[n])
          && (forall m :: Changed(oldT, newT, m) && m != n ==> Disjoint(cfg, newT[n], newT[m])))
    && Room(cfg, st, PortsOfOthers(st, se), se, oldT, newT)
  }

  // ---- Claims of live proxies ----

  /** A live proxy with the configuration `c` holds exactly the claims of `c`. */
  lemma HeldClaims(cfg: Settings, p: Proxy, c: ProxyConfig)
    requires WellFormed(cfg, p) && SameConfig(p, Request(c, 0))
    ensures p.remotePort == ClaimedPort(c)
    ensures forall h :: h in p.hosts <==> h in ClaimedHosts(cfg, c)
  {
    hide Allowed;
    if p.typ == "http" {
      HostsPermuted(cfg, p.customDomains, c.customDomains, c.subdomain);
      HostsPermuted(cfg, c.customDomains, p.customDomains, c.subdomain);
    }
  }

  /** A live proxy that is what `c` asks for holds the claims of `c`. */
  lemma FulfilledClaims(cfg: Settings, p: Proxy, c: ProxyConfig)
    requires WellFormed(cfg, p) && Fulfils(p, c)
    ensures !Automatic(c) ==> p.remotePort == ClaimedPort(c)
    ensures forall h :: h in p.hosts <==> h in ClaimedHosts(cfg, c)
    ensures p.typ == c.typ
  {
    hide Allowed, HostsOf, SameConfig;
    var d := if Automatic(c) then c.(remotePort := p.remotePort) else c;
    FulfilledType(p, c);
    HeldClaims(cfg, p, d);
  }

  lemma FulfilledType(p: Proxy, c: ProxyConfig)
    requires Fulfils(p, c)
    ensures p.typ == c.typ
    ensures SameConfig(p, Request(if Automatic(c) then c.(remotePort := p.remotePort) else c, 0))
  {}

  /** What a candidate claims, of any configuration the server accepts. */
  lemma CandidateHolds(cfg: Settings, st: State, se: SessionId, c: ProxyConfig, reqId: int)
    requires Requestable(cfg, c) && se in st.owned
    ensures var p := Candidate(cfg, st, se, Request(c, reqId));
      && Fulfils(p, c) && p.hosts == ClaimedHosts(cfg, c) && p.session == se && p.name == c.name && p.pid == st.nextPid
      && KeyOf(p) == Key(se.client, c.name)
      && p.remotePort == (if Automatic(c) then FirstFree(ScanOrder(cfg.ranges), st.byPort.Keys) else ClaimedPort(c))
      && (p.typ == "tcp" <==> c.typ == "tcp")
      && ((Automatic(c) ==> p.remotePort != 0 && Allowed(cfg.ranges, p.remotePort)) ==> WellFormed(cfg, p))
  {
    hide Allowed, HostsOf, FirstFree, ScanOrder, Key;
  }

  /** `q` holds nothing that the proxy `n` of session `se` would claim with `c`. */
  ghost predicate Avoids(cfg: Settings, q: Proxy, se: SessionId, n: string, c: ProxyConfig) {
    && KeyOf(q) != Key(se.client, n)
    && (q.remotePort != 0 ==> q.remotePort != ClaimedPort(c))
    && (forall h :: h in q.hosts ==> h !in ClaimedHosts(cfg, c))
  }

  lemma UnclaimedAvoids(cfg: Settings, st: State, se: SessionId, n: string, c: ProxyConfig, q: Proxy)
    requires Indexed(st) && Unclaimed(cfg, st, se, n, c) && Live(st, q) && !Own(q, se, n)
    ensures Avoids(cfg, q, se, n, c)
  {
    hide Key, OwnersAgree, ClaimedHosts, ClaimedPort;
    LiveUnderKey(st, q);
    hide Live;
  }

  lemma AvoidedUnclaimed(cfg: Settings, st: State, se: SessionId, n: string, c: ProxyConfig)
    requires Indexed(st)
    requires forall q :: Live(st, q) && !Own(q, se, n) ==> Avoids(cfg, q, se, n, c)
    ensures Unclaimed(cfg, st, se, n, c)
  {
    hide Key, ClaimedHosts, ClaimedPort;
    if Key(se.client, n) in st.proxies {
      assert Live(st, st.proxies[Key(se.client, n)]);
    }
    hide Live, OwnersAgree;
  }

  lemma UnderKeyIsLive(st: State, k: string)
    requires OwnersAgree(st) && k in st.proxies
    ensures Live(st, st.proxies[k]) && KeyOf(st.proxies[k]) == k
  {
    hide Key;
  }

  lemma AllAvoidFits(cfg: Settings, st: State, se: SessionId, n: string, c: ProxyConfig, p: Proxy)
    requires Indexed(st) && se in st.owned
    requires forall q :: Live(st, q) ==> Avoids(cfg, q, se, n, c)
    requires WellFormed(cfg, p) && p.session == se && p.pid == st.nextPid
    requires p.remotePort == ClaimedPort(c) || p.remotePort !in st.byPort
    requires p.hosts == ClaimedHosts(cfg, c) && KeyOf(p) == Key(se.client, n)
    ensures Fits(cfg, st, p)
  {
    hide Key, WellFormed, ClaimedPort, ClaimedHosts;
    if KeyOf(p) in st.proxies {
      UnderKeyIsLive(st, KeyOf(p));
      assert false;
    }
    hide Live, OwnersAgree;
    if p.remotePort in st.byPort {
      assert false;
    }
    forall h | h in p.hosts ensures h !in st.vhost {
      if h in st.vhost {
        assert false;
      }
    }
  }

  // ---- The messages among the steps of others ----

  function EventOf(se: SessionId, m: Msg): Event {
    match m
    case RegisterMsg(np) => RegisterEv(se, np, true)
    case CloseMsg(n) => CloseEv(se, n)
  }

  /** A step that is not the session's own: any login, and what other sessions do. */
  predicate Elsewhere(se: SessionId, e: Event) {
    match e
    case LoginEv(_) => true
    case DropEv(s) => s != se
    case RegisterEv(s, _, _) => s != se
    case CloseEv(s, _) => s != se
  }

  /** The messages of the session in order, each bind succeeding, with any steps of
      others in between. */
  ghost predicate Interleaved(se: SessionId, events: seq<Event>, msgs: seq<Msg>)
    decreases |events|
  {
    if events == [] then msgs == []
    else
      var init, e := events[..|events| - 1], events[|events| - 1];
      || (msgs != [] && e == EventOf(se, msgs[|msgs| - 1]) && Interleaved(se, init, msgs[..|msgs| - 1]))
      || (Elsewhere(se, e) && Interleaved(se, init, msgs))
  }

  /** No proxy of another session holds what a new or changed entry claims, and the others
      leave room for the entries that leave their port to the server. */
  ghost predicate Quiet(cfg: Settings, was: State, st: State, se: SessionId, oldT: Table, newT: Table) {
    && (forall q, n :: Live(st, q) && q.session != se && Changed(oldT, newT, n) ==> Avoids(cfg, q, se, n, newT[n]))
    && Room(cfg, was, PortsOfOthers(st, se), se, oldT, newT)
  }

  /** So it is after each of the others' steps. */
  ghost predicate OthersQuiet(cfg: Settings, was: State, se: SessionId, oldT: Table, newT: Table, events: seq<Event>)
    decreases |events|
  {
    events == [] ||
    (var init, e := events[..|events| - 1], events[|events| - 1];
     && OthersQuiet(cfg, was, se, oldT, newT, init)
     && (Elsewhere(se, e) ==> Quiet(cfg, was, Run(cfg, was, events), se, oldT, newT)))
  }

  lemma ElsewhereTables(cfg: Settings, st: State, se: SessionId, e: Event)
    requires AllValid(cfg.ranges) && Inv(cfg, st) && se in st.owned && Elsewhere(se, e)
    ensures var st' := Step(cfg, st, e);
      Inv(cfg, st') && se in st'.owned && st'.owned[se] == st.owned[se]
  {
    hide Register, Close, OwnersAgree, PortsAgree, HostsAgree, ProxiesSound;
    StepKeepsInv(cfg, st, e);
    match e {
      case LoginEv(c) => LoginSessionIsNew(st, c);
      case DropEv(s) =>
      case RegisterEv(s, np, bindOk) =>
        if s in st.owned {
          RegisterTables(cfg, st, s, np, bindOk, se);
        }
      case CloseEv(s, name) =>
        if s in st.owned {
          CloseTables(st, s, name);
        } else {
          CloseNobody(st, s, name);
        }
    }
  }

  lemma CloseNobody(st: State, se: SessionId, name: string)
    requires se !in st.owned
    ensures Close(st, se, name) == st
  {}

  // ---- What a list of messages does to each name ----

  /** The last message about a name. */
  function LastAbout(msgs: seq<Msg>, n: string): Option<Msg> {
    if msgs == [] then None
    else if NameOf(msgs[|msgs| - 1]) == n then Some(msgs[|msgs| - 1])
    else LastAbout(msgs[..|msgs| - 1], n)
  }

  /** A registration is one the new table asks for, and finds its name free: closed just
      before if the session held it, and never registered before. No other new or changed
      name is closed at that time and still to be registered. */
  ghost predicate SoundMsg(oldT: Table, newT: Table, before: seq<Msg>, m: Msg) {
    m.RegisterMsg? ==>
      var n := m.np.name;
      && Changed(oldT, newT, n) && m.np == Request(newT[n], m.np.reqId)
      && LastAbout(before, n) == (if n in oldT then Some(CloseMsg(n)) else None)
      && NoneUnderway(oldT, newT, before, n)
  }

  ghost predicate NoneUnderway(oldT: Table, newT: Table, msgs: seq<Msg>, but: string) {
    forall k :: Changed(oldT, newT, k) && k != but ==> LastAbout(msgs, k) != Some(CloseMsg(k))
  }

  ghost predicate Sound(oldT: Table, newT: Table, msgs: seq<Msg>) {
    forall i :: 0 <= i < |msgs| ==> SoundMsg(oldT, newT, msgs[..i], msgs[i])
  }

  /** Whether the entry `now` is what the last message about its name left behind. */
  ghost predicate Left(was: Option<Proxy>, now: Option<Proxy>, oldT: Table, newT: Table, last: Option<Msg>) {
    match last
    case None => now == was
    case Some(CloseMsg(_)) => now == None
    case Some(RegisterMsg(np)) => np.name in newT && now.Some? && Serves(now.value, oldT, newT, newT[np.name])
  }

  /** A live proxy is what `c` asks for; if the server chose its port, no new or changed
      entry names that one. */
  ghost predicate Serves(p: Proxy, oldT: Table, newT: Table, c: ProxyConfig) {
    Fulfils(p, c) && (Automatic(c) ==> Unnamed(oldT, newT, p.remotePort))
  }

  ghost predicate Unnamed(oldT: Table, newT: Table, port: int) {
    forall k :: Changed(oldT, newT, k) ==> ClaimedPort(newT[k]) != port
  }

  ghost predicate Tracks(was: State, st: State, se: SessionId, oldT: Table, newT: Table, msgs: seq<Msg>) {
    forall n :: Left(Entry(was, se, n), Entry(st, se, n), oldT, newT, LastAbout(msgs, n))
  }

  /** While a reload is under way. */
  ghost predicate Underway(cfg: Settings, was: State, st: State, se: SessionId, oldT: Table, newT: Table, msgs: seq<Msg>) {
    && Inv(cfg, st) && se in st.owned
    && Quiet(cfg, was, st, se, oldT, newT)
    && Tracks(was, st, se, oldT, newT, msgs)
  }

  lemma StartsQuiet(cfg: Settings, was: State, se: SessionId, oldT: Table, newT: Table)
    requires Start(cfg, was, se, oldT, newT) && ReloadOk(cfg, was, se, oldT, newT)
    ensures Underway(cfg, was, was, se, oldT, newT, [])
  {
    hide Key, Live, OwnersAgree, PortsAgree, HostsAgree, ProxiesSound, SessionsSound, Avoids, Requestable, Unclaimed,
         ProxyEqual, Room;
    forall q, n | Live(was, q) && q.session != se && Changed(oldT, newT, n) ensures Avoids(cfg, q, se, n, newT[n]) {
      UnclaimedAvoids(cfg, was, se, n, newT[n], q);
    }
  }

  lemma LastSnoc(msgs: seq<Msg>, m: Msg, n: string)
    ensures LastAbout(msgs + [m], n) == if NameOf(m) == n then Some(m) else LastAbout(msgs, n)
  {
    assert (msgs + [m])[..|msgs|] == msgs;
  }

  /** The last message about a name, in a sound list, is about a changed name if it is a
      registration, and it concerns that name. */
  lemma {:induction false} LastIsSound(oldT: Table, newT: Table, msgs: seq<Msg>, n: string)
    requires Sound(oldT, newT, msgs)
    ensures LastAbout(msgs, n).Some? ==> NameOf(LastAbout(msgs, n).value) == n
    ensures LastAbout(msgs, n).Some? && LastAbout(msgs, n).value.RegisterMsg? ==> Changed(oldT, newT, n)
    decreases |msgs|
  {
    if msgs != [] {
      var init := msgs[..|msgs| - 1];
      assert forall i :: 0 <= i < |init| ==> init[..i] == msgs[..i];
      assert SoundMsg(oldT, newT, msgs[..|msgs| - 1], msgs[|msgs| - 1]);
      LastIsSound(oldT, newT, init, n);
    }
  }

  // ---- One message ----

  /** Room stays when the others hold fewer ports. */
  lemma RoomStays(cfg: Settings, was: State, a: set<int>, b: set<int>, se: SessionId, oldT: Table, newT: Table)
    requires Room(cfg, was, a, se, oldT, newT) && b <= a
    ensures Room(cfg, was, b, se, oldT, newT)
  {
    hide ProxyEqual, TriedBefore, Newcomers, PortsHeld, Automatic, ClaimedPort;
    if SomeAutomatic(oldT, newT) {
      forall n | Changed(oldT, newT, n) && ClaimedPort(newT[n]) !in was.byPort
        ensures RoomBefore(cfg, was, b, se, oldT, newT, ClaimedPort(newT[n]))
      {
        var among := TriedBefore(ScanOrder(cfg.ranges), ClaimedPort(newT[n]));
        assert RoomBefore(cfg, was, a, se, oldT, newT, ClaimedPort(newT[n]));
        SubsetSize(among * b, among * a);
      }
    }
  }

  lemma Pick<T>(s: set<T>) returns (x: T)
    requires s != {}
    ensures x in s
  {
    x :| x in s;
  }

  /** A step of the session that changes no other table leaves the others quiet. */
  lemma StaysQuiet(cfg: Settings, was: State, st: State, st': State, se: SessionId, oldT: Table, newT: Table)
    requires Quiet(cfg, was, st, se, oldT, newT) && Inv(cfg, st) && Inv(cfg, st')
    requires forall s :: s != se && s in st'.owned ==> s in st.owned && st.owned[s] == st'.owned[s]
    ensures Quiet(cfg, was, st', se, oldT, newT)
  {
    hide Key, Live, OwnersAgree, HostsAgree, ProxiesSound, SessionsSound, Avoids, ProxyEqual, Room;
    forall q | Live(st', q) && q.session != se ensures Live(st, q) {
      SameOwnerSameLive(st', st, q);
    }
    forall q | q in PortsOfOthers(st', se) ensures q in PortsOfOthers(st, se) {
      assert Live(st', st'.byPort[q]) && Live(st, st'.byPort[q]);
    }
    RoomStays(cfg, was, PortsOfOthers(st, se), PortsOfOthers(st', se), se, oldT, newT);
  }

  lemma CloseUnderway(cfg: Settings, was: State, st: State, se: SessionId, oldT: Table, newT: Table, msgs: seq<Msg>, n: string)
    requires Underway(cfg, was, st, se, oldT, newT, msgs)
    ensures Underway(cfg, was, Close(st, se, n), se, oldT, newT, msgs + [CloseMsg(n)])
  {
    hide Key, Live, OwnersAgree, PortsAgree, HostsAgree, ProxiesSound, SessionsSound, Close, Left, LastAbout, Quiet;
    var st' := Close(st, se, n);
    CloseKeepsInv(cfg, st, se, n);
    CloseTables(st, se, n);
    StaysQuiet(cfg, was, st, st', se, oldT, newT);
    forall m ensures Left(Entry(was, se, m), Entry(st', se, m), oldT, newT, LastAbout(msgs + [CloseMsg(n)], m)) {
      LastSnoc(msgs, CloseMsg(n), m);
      assert Left(Entry(was, se, m), Entry(st, se, m), oldT, newT, LastAbout(msgs, m));
      ClosedLeft(Entry(was, se, n), oldT, newT, n);
    }
  }

  lemma ClosedLeft(was: Option<Proxy>, oldT: Table, newT: Table, n: string)
    ensures Left(was, None, oldT, newT, Some(CloseMsg(n)))
  {}

  /** Another entry of the session: either still the one it was before the reload, and
      then the condition at the start speaks of it, or already a new one. */
  lemma OwnAvoids(cfg: Settings, was: State, st: State, se: SessionId, oldT: Table, newT: Table, msgs: seq<Msg>,
                  n: string, q: Proxy)
    requires Start(cfg, was, se, oldT, newT) && ReloadOk(cfg, was, se, oldT, newT) && Sound(oldT, newT, msgs)
    requires Underway(cfg, was, st, se, oldT, newT, msgs) && Changed(oldT, newT, n)
    requires Live(st, q) && q.session == se && q.name != n
    ensures Avoids(cfg, q, se, n, newT[n])
  {
    hide Key, Live, OwnersAgree, PortsAgree, HostsAgree, WellFormed, SessionsSound, SameConfig, ProxyEqual, Requestable,
         Sound, LastAbout, Quiet, Avoids, Unclaimed, Disjoint, Room, Fulfils, Automatic, ClaimedPort, ClaimedHosts;
    var m := q.name;
    LiveHasOwner(st, q);
    LastIsSound(oldT, newT, msgs, m);
    assert Left(Entry(was, se, m), Entry(st, se, m), oldT, newT, LastAbout(msgs, m));
    if LastAbout(msgs, m) == None {
      assert was.owned[se][m] == q;
      OwnedIsLive(was, se, m);
      UnclaimedAvoids(cfg, was, se, n, newT[n], q);
    } else {
      ClientOf(cfg, st, q);
      FulfilledClaims(cfg, q, newT[m]);
      DisjointAvoids(cfg, q, se, newT, n, m);
    }
  }

  lemma DisjointAvoids(cfg: Settings, q: Proxy, se: SessionId, newT: Table, n: string, m: string)
    requires n in newT && m in newT && n != m && Disjoint(cfg, newT[n], newT[m]) && Disjoint(cfg, newT[m], newT[n])
    requires q.client == se.client && q.name == m
    requires q.remotePort == ClaimedPort(newT[m]) || q.remotePort != ClaimedPort(newT[n])
    requires forall h :: h in q.hosts <==> h in ClaimedHosts(cfg, newT[m])
    ensures Avoids(cfg, q, se, n, newT[n])
  {
    hide Key, ClaimedPort, ClaimedHosts;
    if Key(se.client, m) == Key(se.client, n) {
      SplitEqual(se.client, m, se.client, n);
    }
  }

  // ---- The port of an entry that names none ----

  lemma {:induction false} TriedPorts(order: seq<int>, limit: int)
    ensures limit !in TriedBefore(order, limit)
    ensures forall q :: q in TriedBefore(order, limit) ==> q in order
    ensures limit !in order ==> forall q :: q in order ==> q in TriedBefore(order, limit)
  {
    if order != [] && order[0] != limit {
      TriedPorts(order[1..], limit);
    }
  }

  lemma NoZeroTried(cfg: Settings, limit: int)
    requires AllValid(cfg.ranges)
    ensures 0 !in TriedBefore(ScanOrder(cfg.ranges), limit)
  {
    TriedPorts(ScanOrder(cfg.ranges), limit);
    ScanMembers(cfg.ranges, 0);
  }

  /** A free port among those tried before `limit` is found before `limit` is tried. */
  lemma {:induction false} FoundBefore(order: seq<int>, used: set<int>, limit: int, free: int)
    requires free in TriedBefore(order, limit) && free !in used
    ensures FirstFree(order, used) in TriedBefore(order, limit) && FirstFree(order, used) !in used
  {
    if order[0] in used {
      FoundBefore(order[1..], used, limit, free);
    }
  }

  /** The names behind some ports. */
  function NamesOn(st: State, ports: set<int>): set<string> {
    set q | q in ports && q in st.byPort :: st.byPort[q].name
  }

  lemma {:induction false} NamesAtMost(st: State, ports: set<int>)
    ensures |NamesOn(st, ports)| <= |ports|
    decreases ports
  {
    hide NamesOn;
    if ports == {} {
      NamesOnNone(st);
    } else {
      var q := Pick(ports);
      NamesAtMost(st, ports - {q});
      NamesOnMore(st, ports - {q}, q);
      assert ports - {q} + {q} == ports;
    }
  }

  lemma NamesOnNone(st: State)
    ensures NamesOn(st, {}) == {}
  {}

  lemma NamesOnMore(st: State, ports: set<int>, q: int)
    ensures NamesOn(st, ports + {q}) == NamesOn(st, ports) + if q in st.byPort then {st.byPort[q].name} else {}
  {
    var one := if q in st.byPort then {st.byPort[q].name} else {};
    forall n | n in NamesOn(st, ports) + one ensures n in NamesOn(st, ports + {q}) {
      if n in NamesOn(st, ports) {
        var r :| r in ports && r in st.byPort && st.byPort[r].name == n;
        assert r in ports + {q};
      } else {
        assert q in ports + {q};
      }
    }
  }

  lemma {:induction false} NamesExactly(st: State, se: SessionId, ports: set<int>)
    requires Indexed(st) && ports <= PortsHeld(st, se)
    ensures |NamesOn(st, ports)| == |ports|
    decreases ports
  {
    hide Live, OwnersAgree, HostsAgree, PortsAgree;
    if ports == {} {
      NamesOnNone(st);
    } else {
      var q := Pick(ports);
      var rest := ports - {q};
      NamesExactly(st, se, rest);
      forall r | r in rest ensures st.byPort[r].name != st.byPort[q].name {
        OneNamePerPort(st, q, r);
      }
      NamesOnMore(st, rest, q);
      assert rest + {q} == ports;
    }
  }

  lemma OneNamePerPort(st: State, q: int, r: int)
    requires Indexed(st) && q in st.byPort && r in st.byPort && q != r && st.byPort[q].session == st.byPort[r].session
    ensures st.byPort[q].name != st.byPort[r].name
  {
    hide Live, HostsAgree;
    LiveHasOwner(st, st.byPort[q]);
    LiveHasOwner(st, st.byPort[r]);
  }

  lemma OwnEntryOnPort(st: State, se: SessionId, q: int)
    requires Indexed(st) && q in PortsHeld(st, se)
    ensures var p := st.byPort[q]; p.remotePort == q && Live(st, p) && Entry(st, se, p.name) == Some(p)
  {
    hide Live, HostsAgree;
    LiveHasOwner(st, st.byPort[q]);
  }

  lemma PortOfEntry(st: State, se: SessionId, n: string)
    requires Indexed(st) && Entry(st, se, n).Some? && Entry(st, se, n).value.remotePort != 0
    ensures var p := Entry(st, se, n).value; p.remotePort in st.byPort && st.byPort[p.remotePort] == p
    ensures Entry(st, se, n).value.session == se && Entry(st, se, n).value.name == n
  {
    hide Live, HostsAgree;
    OwnedIsLive(st, se, n);
  }

  /** A name the session holds among some ports held one of them before, or is among those
      that may newly do so. */
  lemma HolderAccounted(cfg: Settings, was: State, st: State, se: SessionId, oldT: Table, newT: Table, msgs: seq<Msg>,
                        among: set<int>, q: int)
    requires Start(cfg, was, se, oldT, newT) && ReloadOk(cfg, was, se, oldT, newT) && Sound(oldT, newT, msgs)
    requires Underway(cfg, was, st, se, oldT, newT, msgs)
    requires 0 !in among && q in among * PortsHeld(st, se)
    ensures var m := st.byPort[q].name;
      m in Newcomers(was, se, oldT, newT, among) + NamesOn(was, among * PortsHeld(was, se))
  {
    hide Key, Live, OwnersAgree, PortsAgree, HostsAgree, WellFormed, SessionsSound, ProxyEqual, Requestable,
         Sound, LastAbout, Quiet, Unclaimed, Disjoint, Room, Fulfils, Automatic, ClaimedPort;
    OwnEntryOnPort(st, se, q);
    var p := st.byPort[q];
    var m := p.name;
    LastIsSound(oldT, newT, msgs, m);
    assert Left(Entry(was, se, m), Entry(st, se, m), oldT, newT, LastAbout(msgs, m));
    if OldPort(was, se, m) in among {
      PortOfEntry(was, se, m);
    } else if !Automatic(newT[m]) {
      FulfilledClaims(cfg, p, newT[m]);
      if q in was.byPort {
        KeptPort(cfg, was, se, m, newT[m]);
      }
    }
  }

  /** A claimed port that is not free is the one the name holds. */
  lemma KeptPort(cfg: Settings, was: State, se: SessionId, n: string, c: ProxyConfig)
    requires Indexed(was) && Unclaimed(cfg, was, se, n, c) && ClaimedPort(c) in was.byPort
    ensures OldPort(was, se, n) == ClaimedPort(c)
  {
    hide Key, Live, HostsAgree, ClaimedPort, ClaimedHosts;
    LiveHasOwner(was, was.byPort[ClaimedPort(c)]);
  }

  /** Where there is room, a name about to be registered finds a free port. */
  lemma RoomMeansFree(cfg: Settings, was: State, st: State, se: SessionId, oldT: Table, newT: Table, msgs: seq<Msg>,
                      n: string, among: set<int>)
    requires Start(cfg, was, se, oldT, newT) && ReloadOk(cfg, was, se, oldT, newT) && Sound(oldT, newT, msgs)
    requires Underway(cfg, was, st, se, oldT, newT, msgs)
    requires Changed(oldT, newT, n) && Automatic(newT[n]) && Entry(st, se, n) == None
    requires 0 !in among
    requires |Newcomers(was, se, oldT, newT, among)| + |among * PortsHeld(was, se)| + |among * PortsOfOthers(st, se)| <= |among|
    ensures exists q :: q in among && q !in st.byPort
  {
    hide Key, Live, OwnersAgree, PortsAgree, HostsAgree, WellFormed, SessionsSound, ProxyEqual, Requestable, ProxiesSound,
         Sound, Quiet, Unclaimed, Disjoint, Room, Fulfils, Tracks, Newcomers;
    var mine := among * PortsHeld(st, se);
    var may := Newcomers(was, se, oldT, newT, among) + NamesOn(was, among * PortsHeld(was, se));
    forall q | q in mine ensures st.byPort[q].name in may - {n} {
      HolderAccounted(cfg, was, st, se, oldT, newT, msgs, among, q);
      OwnEntryOnPort(st, se, q);
    }
    MayTake(was, se, oldT, newT, n, among);
    SubsetSize(NamesOn(st, mine), may - {n});
    NamesExactly(st, se, mine);
    NamesAtMost(was, among * PortsHeld(was, se));
    NotAllTaken(st, se, among);
  }

  lemma NotAllTaken(st: State, se: SessionId, among: set<int>)
    requires |among * PortsHeld(st, se)| + |among * PortsOfOthers(st, se)| < |among|
    ensures exists q :: q in among && q !in st.byPort
  {
    var taken := among * PortsHeld(st, se) + among * PortsOfOthers(st, se);
    if among <= taken {
      SubsetSize(among, taken);
    }
    var q := Pick(among - taken);
    assert q !in st.byPort;
  }

  lemma MayTake(was: State, se: SessionId, oldT: Table, newT: Table, n: string, among: set<int>)
    requires Indexed(was) && Changed(oldT, newT, n) && Automatic(newT[n]) && 0 !in among
    ensures n in Newcomers(was, se, oldT, newT, among) + NamesOn(was, among * PortsHeld(was, se))
  {
    hide ProxyEqual, Live, OwnersAgree, PortsAgree, HostsAgree;
    if OldPort(was, se, n) in among {
      PortOfEntry(was, se, n);
    }
  }

  /** The allocator finds a port before it tries one that a new or changed entry names and
      that was free. */
  lemma FoundBeforeClaims(cfg: Settings, was: State, st: State, se: SessionId, oldT: Table, newT: Table, msgs: seq<Msg>,
                          n: string, k: string)
    requires Start(cfg, was, se, oldT, newT) && ReloadOk(cfg, was, se, oldT, newT) && Sound(oldT, newT, msgs)
    requires Underway(cfg, was, st, se, oldT, newT, msgs)
    requires Changed(oldT, newT, n) && Automatic(newT[n]) && Entry(st, se, n) == None
    requires Changed(oldT, newT, k) && ClaimedPort(newT[k]) !in was.byPort
    ensures var port := FirstFree(ScanOrder(cfg.ranges), st.byPort.Keys);
      port !in st.byPort && port != 0 && port != ClaimedPort(newT[k]) && Allowed(cfg.ranges, port)
  {
    hide Key, Live, OwnersAgree, PortsAgree, HostsAgree, WellFormed, SessionsSound, ProxyEqual, Requestable, ProxiesSound,
         Sound, Unclaimed, Disjoint, Fulfils, Tracks, Newcomers, FirstFree, ScanOrder, TriedBefore, Automatic, ClaimedPort;
    var order, limit := ScanOrder(cfg.ranges), ClaimedPort(newT[k]);
    var among := TriedBefore(order, limit);
    assert RoomBefore(cfg, was, PortsOfOthers(st, se), se, oldT, newT, limit);
    NoZeroTried(cfg, limit);
    TriedPorts(order, limit);
    RoomMeansFree(cfg, was, st, se, oldT, newT, msgs, n, among);
    var free :| free in among && free !in st.byPort;
    FoundBefore(order, st.byPort.Keys, limit, free);
    ScanMembers(cfg.ranges, FirstFree(order, st.byPort.Keys));
  }

  /** So an entry without a port gets one that no new or changed entry names. */
  lemma AutomaticPort(cfg: Settings, was: State, st: State, se: SessionId, oldT: Table, newT: Table, msgs: seq<Msg>, n: string)
    requires Start(cfg, was, se, oldT, newT) && ReloadOk(cfg, was, se, oldT, newT) && Sound(oldT, newT, msgs)
    requires Underway(cfg, was, st, se, oldT, newT, msgs) && NoneUnderway(oldT, newT, msgs, n)
    requires Changed(oldT, newT, n) && Automatic(newT[n]) && Entry(st, se, n) == None
    ensures var port := FirstFree(ScanOrder(cfg.ranges), st.byPort.Keys);
      port !in st.byPort && port != 0 && Allowed(cfg.ranges, port) && Unnamed(oldT, newT, port)
  {
    hide Key, Live, OwnersAgree, HostsAgree, WellFormed, SessionsSound, ProxyEqual, Requestable, ProxiesSound, Allowed,
         Sound, Unclaimed, Disjoint, Fulfils, Tracks, Quiet, FirstFree, ScanOrder, LastAbout, NoneUnderway, Room, Entry;
    FoundBeforeClaims(cfg, was, st, se, oldT, newT, msgs, n, n);
    var port := FirstFree(ScanOrder(cfg.ranges), st.byPort.Keys);
    forall k | Changed(oldT, newT, k) ensures ClaimedPort(newT[k]) != port {
      if ClaimedPort(newT[k]) in was.byPort {
        StillKept(cfg, was, st, se, oldT, newT, msgs, n, k);
      } else {
        FoundBeforeClaims(cfg, was, st, se, oldT, newT, msgs, n, k);
      }
    }
  }

  lemma EntryWellFormed(cfg: Settings, st: State, se: SessionId, n: string)
    requires Inv(cfg, st) && Entry(st, se, n).Some?
    ensures WellFormed(cfg, Entry(st, se, n).value)
  {
    hide Live, WellFormed, PortsAgree, HostsAgree;
    OwnedIsLive(st, se, n);
  }

  lemma NoPortZero(st: State)
    requires PortsAgree(st)
    ensures 0 !in st.byPort
  {}

  /** A port that a changed name keeps is taken at the turn of every other name. */
  lemma StillKept(cfg: Settings, was: State, st: State, se: SessionId, oldT: Table, newT: Table, msgs: seq<Msg>,
                  n: string, k: string)
    requires Start(cfg, was, se, oldT, newT) && ReloadOk(cfg, was, se, oldT, newT) && Sound(oldT, newT, msgs)
    requires Underway(cfg, was, st, se, oldT, newT, msgs) && NoneUnderway(oldT, newT, msgs, n)
    requires Changed(oldT, newT, k) && ClaimedPort(newT[k]) in was.byPort && k != n
    ensures ClaimedPort(newT[k]) in st.byPort
  {
    hide Key, Live, OwnersAgree, PortsAgree, HostsAgree, WellFormed, SessionsSound, ProxyEqual, Requestable,
         Sound, Unclaimed, Disjoint, Fulfils, Quiet, LastAbout, Room, Allowed;
    LastIsSound(oldT, newT, msgs, k);
    assert Left(Entry(was, se, k), Entry(st, se, k), oldT, newT, LastAbout(msgs, k));
    KeptPort(cfg, was, se, k, newT[k]);
    NoPortZero(was);
    assert LastAbout(msgs, k) != Some(CloseMsg(k));
    if LastAbout(msgs, k).Some? {
      assert LastAbout(msgs, k).value.RegisterMsg?;
      EntryWellFormed(cfg, st, se, k);
      FulfilledClaims(cfg, Entry(st, se, k).value, newT[k]);
    }
    PortOfEntry(st, se, k);
  }

  // ---- One registration ----

  lemma RegisterFits(cfg: Settings, was: State, st: State, se: SessionId, oldT: Table, newT: Table, msgs: seq<Msg>, np: NewProxy)
    requires Start(cfg, was, se, oldT, newT) && ReloadOk(cfg, was, se, oldT, newT) && Sound(oldT, newT, msgs)
    requires Underway(cfg, was, st, se, oldT, newT, msgs) && SoundMsg(oldT, newT, msgs, RegisterMsg(np))
    ensures var p := Candidate(cfg, st, se, np);
      && Indexed(st) && Fits(cfg, st, p) && p.session == se && p.name == np.name
      && Serves(p, oldT, newT, newT[np.name])
      && Entry(st, se, np.name) == None
  {
    hide Key, Live, OwnersAgree, PortsAgree, HostsAgree, WellFormed, SessionsSound, ProxiesSound, SameConfig, ProxyEqual,
         Requestable, Sound, LastAbout, Avoids, Unclaimed, Disjoint, Candidate, Fits, Room, Fulfils, Automatic, ClaimedPort,
         ClaimedHosts, FirstFree, ScanOrder, NoneUnderway, Allowed;
    var n := np.name;
    var c := newT[n];
    assert Left(Entry(was, se, n), Entry(st, se, n), oldT, newT, LastAbout(msgs, n));
    forall q | Live(st, q) ensures Avoids(cfg, q, se, n, c) {
      if q.session == se {
        LiveHasOwner(st, q);
        OwnAvoids(cfg, was, st, se, oldT, newT, msgs, n, q);
      }
    }
    CandidateHolds(cfg, st, se, c, np.reqId);
    if Automatic(c) {
      AutomaticPort(cfg, was, st, se, oldT, newT, msgs, n);
    }
    AllAvoidFits(cfg, st, se, n, c, Candidate(cfg, st, se, np));
  }

  lemma RegisterUnderway(cfg: Settings, was: State, st: State, se: SessionId, oldT: Table, newT: Table, msgs: seq<Msg>,
                         np: NewProxy)
    requires Start(cfg, was, se, oldT, newT) && ReloadOk(cfg, was, se, oldT, newT) && Sound(oldT, newT, msgs)
    requires Underway(cfg, was, st, se, oldT, newT, msgs) && SoundMsg(oldT, newT, msgs, RegisterMsg(np))
    ensures var (st', resp) := Register(cfg, st, se, np, true);
      resp.ok && Underway(cfg, was, st', se, oldT, newT, msgs + [RegisterMsg(np)])
  {
    hide Key, Live, OwnersAgree, PortsAgree, HostsAgree, WellFormed, SessionsSound, ProxiesSound, SameConfig, ProxyEqual,
         Start, ReloadOk, Sound, LastAbout, Quiet, Candidate, Register, Left, Fits, Serves, NoneUnderway;
    var p := Candidate(cfg, st, se, np);
    RegisterFits(cfg, was, st, se, oldT, newT, msgs, np);
    FitsFresh(cfg, was, st, se, oldT, newT, np);
    var st' := Insert(st, p);
    InsertKeepsInv(cfg, st, p);
    assert st'.owned == st.owned[se := st.owned[se][np.name := p]];
    StaysQuiet(cfg, was, st, st', se, oldT, newT);
    forall m ensures Left(Entry(was, se, m), Entry(st', se, m), oldT, newT, LastAbout(msgs + [RegisterMsg(np)], m)) {
      LastSnoc(msgs, RegisterMsg(np), m);
      assert Left(Entry(was, se, m), Entry(st, se, m), oldT, newT, LastAbout(msgs, m));
      RegisteredLeft(Entry(was, se, np.name), p, oldT, newT, np);
    }
  }

  lemma RegisteredLeft(was: Option<Proxy>, p: Proxy, oldT: Table, newT: Table, np: NewProxy)
    requires np.name in newT && Serves(p, oldT, newT, newT[np.name])
    ensures Left(was, Some(p), oldT, newT, Some(RegisterMsg(np)))
  {
    hide Serves;
  }

  lemma FitsFresh(cfg: Settings, was: State, st: State, se: SessionId, oldT: Table, newT: Table, np: NewProxy)
    requires Start(cfg, was, se, oldT, newT) && Inv(cfg, st) && se in st.owned
    requires Fits(cfg, st, Candidate(cfg, st, se, np)) && Changed(oldT, newT, np.name)
    requires Candidate(cfg, st, se, np).session == se
    ensures var (st', resp) := Register(cfg, st, se, np, true);
      resp.ok && st' == Insert(st, Candidate(cfg, st, se, np))
  {
    hide Key, Live, OwnersAgree, HostsAgree, PortsAgree, WellFormed, SessionsSound, ProxiesSound, Register, Candidate, ProxyEqual;
    CandidateKey(cfg, st, se, np);
    RegisterFresh(cfg, st, se, np, true);
  }

  lemma CandidateKey(cfg: Settings, st: State, se: SessionId, np: NewProxy)
    ensures KeyOf(Candidate(cfg, st, se, np)) == Key(se.client, np.name)
  {
    hide Key, FirstFree, ScanOrder, HostsOf;
  }

  // ---- The whole reload ----

  lemma {:induction false} RunUnderway(cfg: Settings, was: State, se: SessionId, oldT: Table, newT: Table,
                                       events: seq<Event>, msgs: seq<Msg>)
    requires Start(cfg, was, se, oldT, newT) && ReloadOk(cfg, was, se, oldT, newT) && Sound(oldT, newT, msgs)
    requires Interleaved(se, events, msgs) && OthersQuiet(cfg, was, se, oldT, newT, events)
    ensures Underway(cfg, was, Run(cfg, was, events), se, oldT, newT, msgs)
    decreases |events|
  {
    hide ReloadOk, Underway, SoundMsg, Elsewhere, Quiet, Inv, WellNamed;
    if events == [] {
      StartsQuiet(cfg, was, se, oldT, newT);
    } else {
      var init, e := events[..|events| - 1], events[|events| - 1];
      var mid := Run(cfg, was, init);
      if Elsewhere(se, e) && Interleaved(se, init, msgs) {
        RunUnderway(cfg, was, se, oldT, newT, init, msgs);
        ElsewhereUnderway(cfg, was, mid, se, oldT, newT, msgs, e);
      } else {
        var before, m := msgs[..|msgs| - 1], msgs[|msgs| - 1];
        assert forall i :: 0 <= i < |before| ==> before[..i] == msgs[..i];
        RunUnderway(cfg, was, se, oldT, newT, init, before);
        assert SoundMsg(oldT, newT, msgs[..|msgs| - 1], msgs[|msgs| - 1]);
        assert msgs == before + [m];
        OwnUnderway(cfg, was, mid, se, oldT, newT, before, m);
      }
    }
  }

  lemma ElsewhereUnderway(cfg: Settings, was: State, st: State, se: SessionId, oldT: Table, newT: Table, msgs: seq<Msg>, e: Event)
    requires AllValid(cfg.ranges)
    requires Underway(cfg, was, st, se, oldT, newT, msgs)
    requires Elsewhere(se, e) && Quiet(cfg, was, Step(cfg, st, e), se, oldT, newT)
    ensures Underway(cfg, was, Step(cfg, st, e), se, oldT, newT, msgs)
  {
    hide Inv, Quiet, Step, Left, LastAbout, Elsewhere;
    ElsewhereTables(cfg, st, se, e);
    assert forall n :: Entry(Step(cfg, st, e), se, n) == Entry(st, se, n);
  }

  lemma OwnUnderway(cfg: Settings, was: State, st: State, se: SessionId, oldT: Table, newT: Table, msgs: seq<Msg>, m: Msg)
    requires Start(cfg, was, se, oldT, newT) && ReloadOk(cfg, was, se, oldT, newT) && Sound(oldT, newT, msgs)
    requires Underway(cfg, was, st, se, oldT, newT, msgs) && SoundMsg(oldT, newT, msgs, m)
    ensures Underway(cfg, was, Step(cfg, st, EventOf(se, m)), se, oldT, newT, msgs + [m])
  {
    hide Start, ReloadOk, Sound, SoundMsg, Register, Close, Inv, Quiet, Tracks;
    match m {
      case RegisterMsg(np) => RegisterUnderway(cfg, was, st, se, oldT, newT, msgs, np);
      case CloseMsg(n) => CloseUnderway(cfg, was, st, se, oldT, newT, msgs, n);
    }
  }

  // ---- The messages of a plan ----

  lemma {:induction false} UpdatesConcat(oldT: Table, newT: Table, a: seq<string>, b: seq<string>, seqNo: int)
    requires forall n :: n in a + b ==> n in newT
    ensures forall n :: n in a || n in b ==> n in newT
    ensures ChangedIn(oldT, newT, a + b) == ChangedIn(oldT, newT, a) + ChangedIn(oldT, newT, b)
    ensures Updates(oldT, newT, a + b, seqNo) ==
            Updates(oldT, newT, a, seqNo) + Updates(oldT, newT, b, seqNo + ChangedIn(oldT, newT, a))
    decreases |a|
  {
    hide Changed, Actions, Updates, ChangedIn;
    assert forall n :: n in a || n in b ==> n in a + b;
    if a == [] {
      assert a + b == b;
      NoUpdates(oldT, newT, seqNo);
    } else {
      var next := if Changed(oldT, newT, a[0]) then seqNo + 1 else seqNo;
      assert a == [a[0]] + a[1..] && a + b == [a[0]] + (a[1..] + b);
      UpdatesCons(oldT, newT, a[0], a[1..], seqNo);
      UpdatesCons(oldT, newT, a[0], a[1..] + b, seqNo);
      UpdatesConcat(oldT, newT, a[1..], b, next);
    }
  }

  lemma NoUpdates(oldT: Table, newT: Table, seqNo: int)
    ensures Updates(oldT, newT, [], seqNo) == [] && ChangedIn(oldT, newT, []) == 0
  {}

  lemma UpdatesCons(oldT: Table, newT: Table, n: string, order: seq<string>, seqNo: int)
    requires n in newT && forall m :: m in order ==> m in newT
    ensures forall m :: m in [n] + order ==> m in newT
    ensures ChangedIn(oldT, newT, [n] + order) == ChangedIn(oldT, newT, order) + if Changed(oldT, newT, n) then 1 else 0
    ensures Updates(oldT, newT, [n] + order, seqNo) ==
            Actions(oldT, newT, n, seqNo + 1)
            + Updates(oldT, newT, order, if Changed(oldT, newT, n) then seqNo + 1 else seqNo)
  {
    hide Changed, Actions;
    assert ([n] + order)[1..] == order;
  }

  /** The messages of the first loop after one more name. */
  lemma UpdatesSnoc(oldT: Table, newT: Table, order: seq<string>, n: string, seqNo: int)
    requires n in newT && forall m :: m in order ==> m in newT
    ensures forall m :: m in order + [n] ==> m in newT
    ensures ChangedIn(oldT, newT, order + [n]) == ChangedIn(oldT, newT, order) + if Changed(oldT, newT, n) then 1 else 0
    ensures Updates(oldT, newT, order + [n], seqNo) ==
            Updates(oldT, newT, order, seqNo) + Actions(oldT, newT, n, seqNo + ChangedIn(oldT, newT, order) + 1)
  {
    hide Changed, Actions;
    UpdatesConcat(oldT, newT, order, [n], seqNo);
    assert [n][1..] == [];
  }

  lemma {:induction false} LastConcat(a: seq<Msg>, b: seq<Msg>, n: string)
    ensures LastAbout(a + b, n) == if LastAbout(b, n).Some? then LastAbout(b, n) else LastAbout(a, n)
    decreases |b|
  {
    if b == [] {
      assert a + b == a;
    } else {
      assert (a + b)[..|a + b| - 1] == a + b[..|b| - 1];
      LastConcat(a, b[..|b| - 1], n);
    }
  }

  lemma {:induction false} NoneAbout(msgs: seq<Msg>, n: string)
    requires forall m :: m in msgs ==> NameOf(m) != n
    ensures LastAbout(msgs, n) == None
  {
    if msgs != [] {
      NoneAbout(msgs[..|msgs| - 1], n);
    }
  }

  ghost predicate Settled(oldT: Table, newT: Table, msgs: seq<Msg>) {
    forall k :: Changed(oldT, newT, k) ==> LastAbout(msgs, k) != Some(CloseMsg(k))
  }

  lemma SoundConcat(oldT: Table, newT: Table, a: seq<Msg>, b: seq<Msg>)
    requires Sound(oldT, newT, a) && Sound(oldT, newT, b) && Settled(oldT, newT, a)
    requires forall x, y :: x in a && y in b ==> NameOf(x) != NameOf(y)
    ensures Sound(oldT, newT, a + b)
  {
    hide LastAbout, NoneUnderway, Changed;
    forall i | 0 <= i < |a + b| ensures SoundMsg(oldT, newT, (a + b)[..i], (a + b)[i]) {
      if i < |a| {
        assert (a + b)[..i] == a[..i];
        assert SoundMsg(oldT, newT, a[..i], a[i]);
      } else {
        var j := i - |a|;
        assert (a + b)[..i] == a + b[..j] && (a + b)[i] == b[j];
        assert SoundMsg(oldT, newT, b[..j], b[j]);
        if b[j].RegisterMsg? {
          assert b[j] in b;
          NoneAbout(a, b[j].np.name);
          LastConcat(a, b[..j], b[j].np.name);
          NoneUnderwayAfter(oldT, newT, a, b[..j], b[j].np.name);
        }
      }
    }
  }

  lemma NoneUnderwayAfter(oldT: Table, newT: Table, a: seq<Msg>, b: seq<Msg>, but: string)
    requires Settled(oldT, newT, a) && NoneUnderway(oldT, newT, b, but)
    ensures NoneUnderway(oldT, newT, a + b, but)
  {
    hide LastAbout, Changed;
    forall k | Changed(oldT, newT, k) && k != but ensures LastAbout(a + b, k) != Some(CloseMsg(k)) {
      LastConcat(a, b, k);
    }
  }

  lemma ActionsSound(oldT: Table, newT: Table, n: string, reqId: int)
    requires WellNamed(newT) && n in newT
    ensures var acts := Actions(oldT, newT, n, reqId);
      && Sound(oldT, newT, acts) && Settled(oldT, newT, acts) && (forall m :: m in acts ==> NameOf(m) == n)
      && (LastAbout(acts, n) == if Changed(oldT, newT, n) then Some(RegisterMsg(Request(newT[n], reqId))) else None)
  {
    hide ProxyEqual, Changed, LastAbout, Sound, Settled, Actions;
    var acts := Actions(oldT, newT, n, reqId);
    ActionsShape(oldT, newT, n, reqId);
    if Changed(oldT, newT, n) {
      RegisterSound(oldT, newT, n, reqId, acts[..|acts| - 1]);
    } else {
      NothingSound(oldT, newT);
      NoneAbout([], n);
    }
  }

  lemma ActionsShape(oldT: Table, newT: Table, n: string, reqId: int)
    requires WellNamed(newT) && n in newT
    ensures var acts := Actions(oldT, newT, n, reqId);
      && (forall m :: m in acts ==> NameOf(m) == n)
      && if Changed(oldT, newT, n) then
           && acts != [] && acts[..|acts| - 1] == (if n in oldT then [CloseMsg(n)] else [])
           && acts == acts[..|acts| - 1] + [RegisterMsg(Request(newT[n], reqId))]
         else acts == []
  {
    hide Changed;
  }

  lemma ChangedIsNew(oldT: Table, newT: Table, n: string)
    requires Changed(oldT, newT, n)
    ensures n in newT
  {}

  lemma RegisterSound(oldT: Table, newT: Table, n: string, reqId: int, before: seq<Msg>)
    requires WellNamed(newT) && n in newT && Changed(oldT, newT, n)
    requires before == if n in oldT then [CloseMsg(n)] else []
    ensures var acts := before + [RegisterMsg(Request(newT[n], reqId))];
      Sound(oldT, newT, acts) && Settled(oldT, newT, acts) && LastAbout(acts, n) == Some(acts[|acts| - 1])
  {
    hide Changed, LastAbout;
    var reg := RegisterMsg(Request(newT[n], reqId));
    var acts := before + [reg];
    LastOfOne(n);
    forall k ensures k != n ==> LastAbout(before, k) == None
      ensures LastAbout(acts, k) == if k == n then Some(reg) else LastAbout(before, k)
    {
      if k != n {
        NoneAbout(before, k);
      }
      LastSnoc(before, reg, k);
    }
    forall i | 0 <= i < |acts| ensures SoundMsg(oldT, newT, acts[..i], acts[i]) {
      if acts[i] == reg {
        assert acts[..i] == before;
      }
    }
  }

  lemma LastOfOne(n: string)
    ensures LastAbout([], n) == None && LastAbout([CloseMsg(n)], n) == Some(CloseMsg(n))
  {}

  /** The first loop's messages are sound, about changed names only, and end each of them
      with its registration. */
  lemma {:induction false} UpdatesSound(oldT: Table, newT: Table, order: seq<string>, seqNo: int)
    requires WellNamed(newT) && NoDup(order) && forall n :: n in order ==> n in newT
    ensures var msgs := Updates(oldT, newT, order, seqNo);
      && Sound(oldT, newT, msgs) && Settled(oldT, newT, msgs)
      && (forall m :: m in msgs ==> NameOf(m) in order && Changed(oldT, newT, NameOf(m)))
      && (forall n :: n in order && Changed(oldT, newT, n) ==>
            LastAbout(msgs, n).Some? && LastAbout(msgs, n).value.RegisterMsg? && LastAbout(msgs, n).value.np.name == n)
    decreases |order|
  {
    hide ProxyEqual, LastAbout, Sound;
    if order == [] {
      NothingSound(oldT, newT);
    } else {
      var n, rest := order[0], order[1..];
      var next := if Changed(oldT, newT, n) then seqNo + 1 else seqNo;
      var acts, later := Actions(oldT, newT, n, seqNo + 1), Updates(oldT, newT, rest, next);
      ActionsSound(oldT, newT, n, seqNo + 1);
      UpdatesSound(oldT, newT, rest, next);
      hide Actions;
      SoundConcat(oldT, newT, acts, later);
      forall k | k in order && Changed(oldT, newT, k)
        ensures var last := LastAbout(acts + later, k);
          last.Some? && last.value.RegisterMsg? && last.value.np.name == k
      {
        LastConcat(acts, later, k);
        if k == n {
          NoneAbout(later, n);
        }
      }
      forall k | Changed(oldT, newT, k) ensures LastAbout(acts + later, k) != Some(CloseMsg(k)) {
        LastConcat(acts, later, k);
      }
    }
  }

  lemma NothingSound(oldT: Table, newT: Table)
    ensures Sound(oldT, newT, []) && Settled(oldT, newT, [])
  {}

  /** The second loop's messages close exactly the names that are no longer wanted. */
  lemma {:induction false} ClosesSound(oldT: Table, newT: Table, order: seq<string>)
    ensures var msgs := Closes(newT, order);
      && Sound(oldT, newT, msgs)
      && (forall m :: m in msgs ==> m == CloseMsg(NameOf(m)) && NameOf(m) in order && NameOf(m) !in newT)
      && (forall n :: n in order && n !in newT ==> LastAbout(msgs, n) == Some(CloseMsg(n)))
    decreases |order|
  {
    if order != [] {
      var n, rest := order[0], order[1..];
      ClosesSound(oldT, newT, rest);
      hide SoundMsg;
      if n !in newT {
        var one, later := [CloseMsg(n)], Closes(newT, rest);
        assert Closes(newT, order) == one + later;
        CloseSound(oldT, newT, one, later);
        forall k | k in order && k !in newT ensures LastAbout(one + later, k) == Some(CloseMsg(k)) {
          LastConcat(one, later, k);
          if k !in rest {
            NoneAbout(later, k);
            LastSnoc([], CloseMsg(n), k);
          }
        }
      } else {
        assert Closes(newT, order) == Closes(newT, rest);
      }
    }
  }

  lemma CloseSound(oldT: Table, newT: Table, one: seq<Msg>, later: seq<Msg>)
    requires forall m :: m in one + later ==> m.CloseMsg?
    ensures Sound(oldT, newT, one + later)
  {
    forall i | 0 <= i < |one + later| ensures SoundMsg(oldT, newT, (one + later)[..i], (one + later)[i]) {
      assert (one + later)[i] in one + later;
    }
  }

  /** A whole plan: sound, and its last message about a name is the registration of a
      changed one, the close of a removed one, and nothing otherwise. */
  lemma PlanSound(oldT: Table, newT: Table, newOrder: seq<string>, oldOrder: seq<string>, seqNo: int)
    requires WellNamed(newT) && OrderOf(newOrder, newT) && OrderOf(oldOrder, oldT)
    ensures var msgs := Plan(oldT, newT, newOrder, oldOrder, seqNo);
      && Sound(oldT, newT, msgs)
      && (forall n :: Changed(oldT, newT, n) ==>
            LastAbout(msgs, n).Some? && LastAbout(msgs, n).value.RegisterMsg? && LastAbout(msgs, n).value.np.name == n)
      && (forall n :: n in oldT && n !in newT ==> LastAbout(msgs, n) == Some(CloseMsg(n)))
      && (forall n :: !Changed(oldT, newT, n) && !(n in oldT && n !in newT) ==> LastAbout(msgs, n) == None)
  {
    hide ProxyEqual, LastAbout, Sound, Updates, Closes;
    var ups, closes := Updates(oldT, newT, newOrder, seqNo), Closes(newT, oldOrder);
    UpdatesSound(oldT, newT, newOrder, seqNo);
    ClosesSound(oldT, newT, oldOrder);
    SoundConcat(oldT, newT, ups, closes);
    var msgs := Plan(oldT, newT, newOrder, oldOrder, seqNo);
    forall n
      ensures Changed(oldT, newT, n) ==>
                LastAbout(msgs, n).Some? && LastAbout(msgs, n).value.RegisterMsg? && LastAbout(msgs, n).value.np.name == n
      ensures n in oldT && n !in newT ==> LastAbout(msgs, n) == Some(CloseMsg(n))
      ensures !Changed(oldT, newT, n) && !(n in oldT && n !in newT) ==> LastAbout(msgs, n) == None
    {
      LastConcat(ups, closes, n);
      if n in newT || n !in oldT {
        NoneAbout(closes, n);
      }
      if !Changed(oldT, newT, n) {
        NoneAbout(ups, n);
      }
    }
  }

  /** What the messages of a plan leave behind, name by name, is the new table. */
  lemma TracksConverged(was: State, st: State, se: SessionId, oldT: Table, newT: Table, msgs: seq<Msg>)
    requires se in was.owned && was.owned[se].Keys == oldT.Keys && se in st.owned
    requires Tracks(was, st, se, oldT, newT, msgs)
    requires forall n :: Changed(oldT, newT, n) ==>
               LastAbout(msgs, n).Some? && LastAbout(msgs, n).value.RegisterMsg? && LastAbout(msgs, n).value.np.name == n
    requires forall n :: n in oldT && n !in newT ==> LastAbout(msgs, n) == Some(CloseMsg(n))
    requires forall n :: !Changed(oldT, newT, n) && !(n in oldT && n !in newT) ==> LastAbout(msgs, n) == None
    ensures Converged(was, st, se, oldT, newT)
  {
    hide LastAbout, ProxyEqual, SameConfig, Fulfils;
    forall n ensures n in st.owned[se] <==> n in newT {
      assert Left(Entry(was, se, n), Entry(st, se, n), oldT, newT, LastAbout(msgs, n));
    }
    forall n | Changed(oldT, newT, n) ensures Fulfils(st.owned[se][n], newT[n]) {
      assert Left(Entry(was, se, n), Entry(st, se, n), oldT, newT, LastAbout(msgs, n));
    }
    forall n | n in newT && !Changed(oldT, newT, n) ensures Entry(st, se, n) == Entry(was, se, n) {
      assert Left(Entry(was, se, n), Entry(st, se, n), oldT, newT, LastAbout(msgs, n));
    }
  }

  /** A reload converges, in every order in which the two maps are walked and with any
      steps of other sessions in between that claim nothing of the new and changed
      entries: the session ends with exactly the new table. */
  lemma ReloadConverges(cfg: Settings, was: State, se: SessionId, oldT: Table, newT: Table,
                        newOrder: seq<string>, oldOrder: seq<string>, seqNo: int, events: seq<Event>)
    requires Start(cfg, was, se, oldT, newT) && ReloadOk(cfg, was, se, oldT, newT)
    requires OrderOf(newOrder, newT) && OrderOf(oldOrder, oldT)
    requires Interleaved(se, events, Plan(oldT, newT, newOrder, oldOrder, seqNo))
    requires OthersQuiet(cfg, was, se, oldT, newT, events)
    ensures var st := Run(cfg, was, events);
      Inv(cfg, st) && Converged(was, st, se, oldT, newT) && (Holds(was, se, oldT) ==> Holds(st, se, newT))
  {
    hide Interleaved, OthersQuiet, Plan, Sound, LastAbout, Quiet, Run, Inv, Changed, ReloadOk, Converged, Holds, Tracks;
    PlanSound(oldT, newT, newOrder, oldOrder, seqNo);
    var msgs := Plan(oldT, newT, newOrder, oldOrder, seqNo);
    RunUnderway(cfg, was, se, oldT, newT, events, msgs);
    TracksConverged(was, Run(cfg, was, events), se, oldT, newT, msgs);
    if Holds(was, se, oldT) {
      ConvergedHolds(was, Run(cfg, was, events), se, oldT, newT);
    }
  }

  // ---- A reload that nobody else interrupts ----

  function EventsOf(se: SessionId, msgs: seq<Msg>): seq<Event> {
    seq(|msgs|, i requires 0 <= i < |msgs| => EventOf(se, msgs[i]))
  }

  lemma EventsSnoc(se: SessionId, msgs: seq<Msg>, m: Msg)
    ensures EventsOf(se, msgs + [m]) == EventsOf(se, msgs) + [EventOf(se, m)]
  {}

  lemma RunSnoc(cfg: Settings, st: State, events: seq<Event>, e: Event)
    ensures Run(cfg, st, events + [e]) == Step(cfg, Run(cfg, st, events), e)
  {
    hide Step;
    assert (events + [e])[..|events|] == events;
  }

  lemma ServeSnoc(cfg: Settings, st: State, se: SessionId, msgs: seq<Msg>, m: Msg)
    ensures ServeAll(cfg, st, se, msgs + [m]) == Serve(cfg, ServeAll(cfg, st, se, msgs), se, m)
  {
    hide Serve;
    ServeConcat(cfg, st, se, msgs, [m]);
    assert [m][1..] == [];
    var mid := ServeAll(cfg, st, se, msgs);
    assert ServeAll(cfg, mid, se, [m]) == ServeAll(cfg, Serve(cfg, mid, se, m), se, []);
  }

  /** Serving messages one by one is the run of their events, and a special case of an
      interleaving: the one in which nobody else acts. */
  lemma {:induction false} ServedIsRun(cfg: Settings, st: State, se: SessionId, msgs: seq<Msg>)
    ensures ServeAll(cfg, st, se, msgs) == Run(cfg, st, EventsOf(se, msgs))
    ensures Interleaved(se, EventsOf(se, msgs), msgs)
    ensures forall oldT, newT :: OthersQuiet(cfg, st, se, oldT, newT, EventsOf(se, msgs))
    decreases |msgs|
  {
    hide Register, Close, Run, ServeAll;
    if msgs == [] {
      NothingServed(cfg, st, se);
      assert EventsOf(se, msgs) == [];
    } else {
      var init, m := msgs[..|msgs| - 1], msgs[|msgs| - 1];
      assert msgs == init + [m];
      ServedIsRun(cfg, st, se, init);
      EventsSnoc(se, init, m);
      ServeSnoc(cfg, st, se, init, m);
      RunSnoc(cfg, st, EventsOf(se, init), EventOf(se, m));
      var events := EventsOf(se, msgs);
      assert events[..|events| - 1] == EventsOf(se, init);
    }
  }

  lemma NothingServed(cfg: Settings, st: State, se: SessionId)
    ensures ServeAll(cfg, st, se, []) == st == Run(cfg, st, [])
  {}

  lemma {:induction false} OthersKept(cfg: Settings, was: State, se: SessionId, msgs: seq<Msg>)
    requires AllValid(cfg.ranges) && Inv(cfg, was) && se in was.owned
    ensures var st := ServeAll(cfg, was, se, msgs);
      && Inv(cfg, st) && se in st.owned
      && (forall s :: s != se ==> (s in st.owned <==> s in was.owned) && (s in was.owned ==> st.owned[s] == was.owned[s]))
    decreases |msgs|
  {
    hide Inv, Register, Close;
    if msgs != [] {
      var m := msgs[0];
      ServeKeepsInv(cfg, was, se, m);
      forall s | s != se
        ensures s in Serve(cfg, was, se, m).owned <==> s in was.owned
        ensures s in was.owned ==> Serve(cfg, was, se, m).owned[s] == was.owned[s]
      {
        OthersKeptOnce(cfg, was, se, m, s);
      }
      OthersKept(cfg, Serve(cfg, was, se, m), se, msgs[1..]);
    }
  }

  lemma OthersKeptOnce(cfg: Settings, st: State, se: SessionId, m: Msg, s: SessionId)
    requires Inv(cfg, st) && se in st.owned && s != se
    ensures s in Serve(cfg, st, se, m).owned <==> s in st.owned
    ensures s in st.owned ==> Serve(cfg, st, se, m).owned[s] == st.owned[s]
  {
    hide Register, Close, OwnersAgree, PortsAgree, HostsAgree, ProxiesSound, SessionsSound;
    match m {
      case RegisterMsg(np) =>
        if s in st.owned {
          RegisterTables(cfg, st, se, np, true, s);
        }
      case CloseMsg(n) => CloseTables(st, se, n);
    }
  }

  /** When nobody else acts, a reload that converges also leaves every other session and
      its proxies alone. */
  lemma LoneReloadConverges(cfg: Settings, was: State, se: SessionId, oldT: Table, newT: Table,
                            newOrder: seq<string>, oldOrder: seq<string>, seqNo: int)
    requires Start(cfg, was, se, oldT, newT) && ReloadOk(cfg, was, se, oldT, newT)
    requires OrderOf(newOrder, newT) && OrderOf(oldOrder, oldT)
    ensures var st := ServeAll(cfg, was, se, Plan(oldT, newT, newOrder, oldOrder, seqNo));
      && Inv(cfg, st) && Converged(was, st, se, oldT, newT)
      && (forall s :: s in was.owned && s != se ==> s in st.owned && st.owned[s] == was.owned[s])
      && (forall p: Proxy :: p.session != se ==> (Live(was, p) <==> Live(st, p)))
  {
    hide Live, OwnersAgree, PortsAgree, HostsAgree, ProxiesSound, SessionsSound, ReloadOk, Plan, ServeAll, Run, Converged,
         WellNamed, Interleaved, OthersQuiet;
    var msgs := Plan(oldT, newT, newOrder, oldOrder, seqNo);
    ServedIsRun(cfg, was, se, msgs);
    ReloadConverges(cfg, was, se, oldT, newT, newOrder, oldOrder, seqNo, EventsOf(se, msgs));
    OthersKept(cfg, was, se, msgs);
    var st := ServeAll(cfg, was, se, msgs);
    forall p: Proxy | p.session != se ensures Live(was, p) <==> Live(st, p) {
      SameOwnerSameLive(was, st, p);
      SameOwnerSameLive(st, was, p);
    }
  }

  lemma SameOwnerSameLive(a: State, b: State, p: Proxy)
    requires OwnersAgree(a) && OwnersAgree(b)
    requires p.session in a.owned ==> p.session in b.owned && b.owned[p.session] == a.owned[p.session]
    ensures Live(a, p) ==> Live(b, p)
  {
    hide Live;
    if Live(a, p) {
      LiveHasOwner(a, p);
      OwnedIsLive(b, p.session, p.name);
    }
  }
}
