/** The server's registry as a value: which sessions exist, which proxies they
    hold, and the redundant indexes over those proxies (internal/server/server.go,
    internal/server/proxy.go, internal/server/session.go). Each function below is
    one critical section of the server's lock. */
module Registry {
  import opened Wrappers
  import opened Config
  import opened Hosts

  /** A session's identity; `client` is the id it logged in with. */
  datatype SessionId = SessionId(seqNo: nat, client: string)

  /** A registered proxy. None of its fields changes after registration; `pid`
      tells two proxies apart even when every other field agrees. */
  datatype Proxy = Proxy(
    pid: nat,
    name: string,
    typ: string,
    client: string,
    local: string,
    remotePort: int,
    subdomain: string,
    customDomains: seq<string>,
    hosts: seq<string>,
    session: SessionId)

  datatype NewProxy = NewProxy(
    reqId: int,
    name: string,
    typ: string,
    local: string,
    remotePort: int,
    subdomain: string,
    customDomains: seq<string>)

  datatype RegisterError =
    | UnsupportedType
    | InvalidLocal
    | InvalidPort
    | NameExists
    | PortPoolFull
    | PortInUse(port: int)
    | BindFailed
    | VhostDisabled
    | VhostRequired
    | VhostNeedDomain
    | VhostConflict(host: string)

  datatype Resp = Resp(reqId: int, name: string, ok: bool, remotePort: int, error: Option<RegisterError>)

  /** Server settings. `splitOk` is the verdict of the address parser on a local
      address, which is code outside this repository. */
  datatype Settings = Settings(
    ranges: seq<PortRange>,
    vhostPort: int,
    vhostDomain: string,
    splitOk: string -> bool)

  /** `owned[se]` is the proxy table of session `se`; it stays in the state after the
      session is replaced or dropped. `listening` holds the ports with an open
      outbound listener. */
  datatype State = State(
    sessions: map<string, SessionId>,
    owned: map<SessionId, map<string, Proxy>>,
    proxies: map<string, Proxy>,
    byPort: map<int, Proxy>,
    vhost: map<string, Proxy>,
    listening: set<int>,
    dropped: set<SessionId>,
    nextSid: nat,
    nextPid: nat)

  const INITIAL: State := State(map[], map[], map[], map[], map[], {}, {}, 0, 0)

  function Key(client: string, name: string): string {
    client + "/" + name
  }

  function KeyOf(p: Proxy): string {
    Key(p.client, p.name)
  }

  // ---- Port allocation ----

  function PortsOf(r: PortRange): seq<int> {
    if r.max < r.min then [] else seq(r.max - r.min + 1, i => r.min + i)
  }

  /** The whitelisted ports in the order the allocator tries them. */
  function ScanOrder(ranges: seq<PortRange>): seq<int> {
    if ranges == [] then [] else PortsOf(ranges[0]) + ScanOrder(ranges[1..])
  }

  /** The first port of `order` not in use, or the sentinel 0. */
  function FirstFree(order: seq<int>, used: set<int>): int {
    if order == [] then 0
    else if order[0] !in used then order[0]
    else FirstFree(order[1..], used)
  }

  lemma ScanNext(p: int, max: int, after: seq<int>, used: set<int>)
    requires p <= max
    ensures FirstFree(PortsOf(PortRange(p, max)) + after, used) ==
            if p !in used then p else FirstFree(PortsOf(PortRange(p + 1, max)) + after, used)
  {
    var ports := PortsOf(PortRange(p, max)) + after;
    assert ports[0] == p && ports[1..] == PortsOf(PortRange(p + 1, max)) + after;
  }

  lemma ScanDone(p: int, max: int, after: seq<int>)
    requires p > max
    ensures PortsOf(PortRange(p, max)) + after == after
  {}

  lemma ScanNothing(used: set<int>)
    ensures FirstFree([], used) == 0
  {}

  // ---- Registration ----

  function HostsOf(cfg: Settings, customDomains: seq<string>, subdomain: string): seq<string> {
    seq(|customDomains|, i requires 0 <= i < |customDomains| => NormalizeHost(customDomains[i]))
    + if subdomain == "" then [] else [NormalizeHost(subdomain) + "." + NormalizeHost(cfg.vhostDomain)]
  }

  /** Whether a live proxy answers a repeated request. */
  predicate SameConfig(p: Proxy, np: NewProxy) {
    && p.typ == np.typ
    && p.local == np.local
    && if p.typ == "tcp" then p.remotePort == np.remotePort
       else p.subdomain == np.subdomain && multiset(p.customDomains) == multiset(np.customDomains)
  }

  function Granted(np: NewProxy, port: int): Resp {
    Resp(np.reqId, np.name, true, port, None)
  }

  function Refused(np: NewProxy, e: RegisterError): Resp {
    Resp(np.reqId, np.name, false, 0, Some(e))
  }

  function TcpProxy(st: State, se: SessionId, np: NewProxy, port: int): Proxy {
    Proxy(st.nextPid, np.name, np.typ, se.client, np.local, port, "", [], [], se)
  }

  function HttpProxy(cfg: Settings, st: State, se: SessionId, np: NewProxy): Proxy {
    Proxy(st.nextPid, np.name, np.typ, se.client, np.local, 0, np.subdomain, np.customDomains,
          HostsOf(cfg, np.customDomains, np.subdomain), se)
  }

  /** Enters a proxy into its session and into every index it belongs to. */
  function Insert(st: State, p: Proxy): (st': State)
    requires p.session in st.owned
    ensures st'.owned.Keys == st.owned.Keys
  {
    st.(owned := st.owned[p.session := st.owned[p.session][p.name := p]],
        proxies := st.proxies[KeyOf(p) := p],
        byPort := if p.remotePort != 0 then st.byPort[p.remotePort := p] else st.byPort,
        vhost := st.vhost + (map h | h in p.hosts :: p),
        listening := if p.remotePort != 0 then st.listening + {p.remotePort} else st.listening,
        nextPid := st.nextPid + 1)
  }

  function FirstTaken(hosts: seq<string>, vhost: map<string, Proxy>): Option<string> {
    if hosts == [] then None
    else if hosts[0] in vhost then Some(hosts[0])
    else FirstTaken(hosts[1..], vhost)
  }

  function RegisterTcp(cfg: Settings, st: State, se: SessionId, np: NewProxy, bindOk: bool): (State, Resp)
    requires se in st.owned
  {
    var key := Key(se.client, np.name);
    var port := if np.remotePort == 0 then FirstFree(ScanOrder(cfg.ranges), st.byPort.Keys) else np.remotePort;
    if !cfg.splitOk(np.local) then (st, Refused(np, InvalidLocal))
    else if np.remotePort != 0 && !Allowed(cfg.ranges, np.remotePort) then (st, Refused(np, InvalidPort))
    else if key in st.proxies then
      if SameConfig(st.proxies[key], np) then (st, Granted(np, st.proxies[key].remotePort))
      else (st, Refused(np, NameExists))
    else if port == 0 then (st, Refused(np, PortPoolFull))
    else if port in st.byPort then (st, Refused(np, PortInUse(port)))
    else if !bindOk then (st, Refused(np, BindFailed))
    else (Insert(st, TcpProxy(st, se, np, port)), Granted(np, port))
  }

  function RegisterHttp(cfg: Settings, st: State, se: SessionId, np: NewProxy): (State, Resp)
    requires se in st.owned
  {
    var key := Key(se.client, np.name);
    if cfg.vhostPort == 0 then (st, Refused(np, VhostDisabled))
    else if np.subdomain == "" && |np.customDomains| == 0 then (st, Refused(np, VhostRequired))
    else if np.subdomain != "" && cfg.vhostDomain == "" then (st, Refused(np, VhostNeedDomain))
    else if !cfg.splitOk(np.local) then (st, Refused(np, InvalidLocal))
    else if key in st.proxies then
      if SameConfig(st.proxies[key], np) then (st, Granted(np, 0)) else (st, Refused(np, NameExists))
    else match FirstTaken(HostsOf(cfg, np.customDomains, np.subdomain), st.vhost)
      case Some(h) => (st, Refused(np, VhostConflict(h)))
      case None => (Insert(st, HttpProxy(cfg, st, se, np)), Granted(np, 0))
  }

  function Register(cfg: Settings, st: State, se: SessionId, np: NewProxy, bindOk: bool): (r: (State, Resp))
    requires se in st.owned
    ensures r.0.owned.Keys == st.owned.Keys
  {
    if np.typ == "tcp" then RegisterTcp(cfg, st, se, np, bindOk)
    else if np.typ == "http" then RegisterHttp(cfg, st, se, np)
    else (st, Refused(np, UnsupportedType))
  }

  // ---- Removal ----

  function Remove(st: State, p: Proxy): State
    requires p.session in st.owned
  {
    st.(owned := st.owned[p.session := st.owned[p.session] - {p.name}],
        proxies := st.proxies - {KeyOf(p)},
        byPort := if p.remotePort != 0 then st.byPort - {p.remotePort} else st.byPort,
        vhost := st.vhost - (set h | h in p.hosts),
        listening := if p.remotePort != 0 then st.listening - {p.remotePort} else st.listening)
  }

  function Close(st: State, se: SessionId, name: string): State {
    if se in st.owned && name in st.owned[se] && st.owned[se][name].session in st.owned
    then Remove(st, st.owned[se][name]) else st
  }

  // ---- Sessions ----

  /** The critical section of a login: the new session takes the client's entry at
      once, and the session it replaces is dropped by a later step. */
  function Login(st: State, client: string): State {
    if client == "" then st
    else
      var se := SessionId(st.nextSid, client);
      st.(sessions := st.sessions[client := se],
          owned := st.owned[se := map[]],
          nextSid := st.nextSid + 1)
  }

  /** Everything but the proxies of `se` stays. */
  function Without(m: map<string, Proxy>, se: SessionId): map<string, Proxy> {
    map k | k in m && m[k].session != se :: m[k]
  }

  function WithoutPorts(m: map<int, Proxy>, se: SessionId): map<int, Proxy> {
    map k | k in m && m[k].session != se :: m[k]
  }

  predicate CurrentIn(sessions: map<string, SessionId>, se: SessionId) {
    se.client in sessions && sessions[se.client] == se
  }

  /** A session that is still its client's current one leaves the session table. */
  function Unseated(st: State, se: SessionId): State {
    st.(sessions := if CurrentIn(st.sessions, se) then st.sessions - {se.client} else st.sessions)
  }

  /** Dropping a session, which happens at most once. */
  function Drop(st: State, se: SessionId): State {
    if se !in st.owned || se in st.dropped then st
    else
      st.(sessions := if CurrentIn(st.sessions, se) then st.sessions - {se.client} else st.sessions,
          owned := st.owned[se := map[]],
          proxies := Without(st.proxies, se),
          byPort := WithoutPorts(st.byPort, se),
          vhost := Without(st.vhost, se),
          listening := WithoutPorts(st.byPort, se).Keys,
          dropped := st.dropped + {se})
  }

  // ---- The invariant over all indexes ----

  /** `p` is in the global table under its own key. */
  predicate Live(st: State, p: Proxy) {
    KeyOf(p) in st.proxies && st.proxies[KeyOf(p)] == p
  }

  /** What registration checked about a proxy; it depends on nothing that changes. */
  predicate WellFormed(cfg: Settings, p: Proxy) {
    && p.client == p.session.client
    && cfg.splitOk(p.local)
    && (p.typ == "tcp" || p.typ == "http")
    && (p.typ == "tcp" ==>
          && p.remotePort != 0 && Allowed(cfg.ranges, p.remotePort)
          && p.subdomain == "" && p.customDomains == [] && p.hosts == [])
    && (p.typ == "http" ==>
          && p.remotePort == 0
          && cfg.vhostPort != 0
          && (p.subdomain != "" || |p.customDomains| > 0)
          && (p.subdomain != "" ==> cfg.vhostDomain != "")
          && p.hosts == HostsOf(cfg, p.customDomains, p.subdomain))
  }

  /** The global table and the session tables hold the same proxies, each under its
      own key and in its own session. */
  ghost predicate OwnersAgree(st: State) {
    && (forall k :: k in st.proxies ==> KeyOf(st.proxies[k]) == k)
    && (forall p :: Live(st, p) ==>
          p.session in st.owned && p.name in st.owned[p.session] && st.owned[p.session][p.name] == p)
    && (forall se, n :: se in st.owned && n in st.owned[se] ==>
          && Live(st, st.owned[se][n])
          && st.owned[se][n].name == n
          && st.owned[se][n].session == se)
  }

  /** The port index is exactly the live proxies with a port, and the open listeners
      are exactly its ports. */
  ghost predicate PortsAgree(st: State) {
    && (forall q :: q in st.byPort ==> q != 0 && st.byPort[q].remotePort == q && Live(st, st.byPort[q]))
    && (forall p :: Live(st, p) && p.remotePort != 0 ==> p.remotePort in st.byPort && st.byPort[p.remotePort] == p)
    && st.listening == st.byPort.Keys
  }

  /** The host index is exactly the live proxies under each of their hosts. */
  ghost predicate HostsAgree(st: State) {
    && (forall h :: h in st.vhost ==> h in st.vhost[h].hosts && Live(st, st.vhost[h]))
    && (forall p, h :: Live(st, p) && h in p.hosts ==> h in st.vhost && st.vhost[h] == p)
  }

  ghost predicate ProxiesSound(cfg: Settings, st: State) {
    forall p :: Live(st, p) ==> WellFormed(cfg, p) && p.pid < st.nextPid
  }

  /** The session table maps a client to an existing session of that client that has
      not been dropped. */
  ghost predicate SessionsSound(st: State) {
    && (forall c :: c in st.sessions ==>
          st.sessions[c].client == c && st.sessions[c] in st.owned && st.sessions[c] !in st.dropped)
    && (forall se :: se in st.owned ==> se.seqNo < st.nextSid)
    && (forall se :: se in st.dropped ==> se in st.owned)
  }

  ghost predicate Indexed(st: State) {
    OwnersAgree(st) && PortsAgree(st) && HostsAgree(st)
  }

  ghost predicate Inv(cfg: Settings, st: State) {
    Indexed(st) && ProxiesSound(cfg, st) && SessionsSound(st)
  }

  /** `p` may be entered: it is well formed and claims nothing that is taken. */
  ghost predicate Fits(cfg: Settings, st: State, p: Proxy) {
    && p.session in st.owned
    && p.pid == st.nextPid
    && KeyOf(p) !in st.proxies
    && WellFormed(cfg, p)
    && p.remotePort !in st.byPort
    && (forall h :: h in p.hosts ==> h !in st.vhost)
  }

  // ---- Reading the invariant ----

  lemma LiveHasOwner(st: State, p: Proxy)
    requires OwnersAgree(st) && Live(st, p)
    ensures p.session in st.owned && p.name in st.owned[p.session] && st.owned[p.session][p.name] == p
  {
    hide Live;
  }

  lemma OwnedIsLive(st: State, se: SessionId, name: string)
    requires OwnersAgree(st) && se in st.owned && name in st.owned[se]
    ensures Live(st, st.owned[se][name]) && st.owned[se][name].name == name && st.owned[se][name].session == se
  {
    hide Live;
  }

  /** The session tables determine every index. */
  lemma OwnedDetermines(a: State, b: State)
    requires Indexed(a) && Indexed(b) && a.owned == b.owned
    ensures a.proxies == b.proxies && a.byPort == b.byPort && a.vhost == b.vhost && a.listening == b.listening
  {
    hide Live, OwnersAgree, HostsAgree;
    SameLive(a, b);
    SameLive(b, a);
    SamePorts(a, b);
    SamePorts(b, a);
    SameHosts(a, b);
    SameHosts(b, a);
    SameMap(a.proxies, b.proxies);
    SamePortMap(a.byPort, b.byPort);
    SameMap(a.vhost, b.vhost);
  }

  lemma SameLive(a: State, b: State)
    requires OwnersAgree(a) && OwnersAgree(b) && a.owned == b.owned
    ensures forall p :: Live(a, p) ==> Live(b, p)
    ensures forall k :: k in a.proxies ==> k in b.proxies && a.proxies[k] == b.proxies[k]
  {
    hide Key;
    forall p | Live(a, p) ensures Live(b, p) {
      LiveHasOwner(a, p);
      OwnedIsLive(b, p.session, p.name);
    }
    forall k | k in a.proxies ensures k in b.proxies && a.proxies[k] == b.proxies[k] {
      assert Live(a, a.proxies[k]);
    }
  }

  lemma SamePorts(a: State, b: State)
    requires PortsAgree(a) && PortsAgree(b) && forall p :: Live(a, p) ==> Live(b, p)
    ensures forall q :: q in a.byPort ==> q in b.byPort && a.byPort[q] == b.byPort[q]
  {
    hide Live;
  }

  lemma SamePortMap(a: map<int, Proxy>, b: map<int, Proxy>)
    requires forall q :: q in a ==> q in b && a[q] == b[q]
    requires forall q :: q in b ==> q in a && b[q] == a[q]
    ensures a == b
  {
    assert forall q :: q in a.Keys <==> q in b.Keys;
    assert a.Keys == b.Keys;
    forall q: int | q in a.Keys ensures a[q] == b[q] {}
  }

  lemma SameHosts(a: State, b: State)
    requires HostsAgree(a) && HostsAgree(b) && forall p :: Live(a, p) ==> Live(b, p)
    ensures forall h :: h in a.vhost ==> h in b.vhost && a.vhost[h] == b.vhost[h]
  {
    hide Live;
  }

  // ---- Every step keeps the invariant ----

  lemma InsertLive(st: State, p: Proxy)
    requires p.session in st.owned && KeyOf(p) !in st.proxies
    ensures forall q :: Live(Insert(st, p), q) <==> Live(st, q) || q == p
  {
    hide Key;
  }

  lemma InsertKeepsOwners(st: State, p: Proxy)
    requires OwnersAgree(st)
    requires p.session in st.owned && KeyOf(p) !in st.proxies && p.client == p.session.client
    requires forall q :: Live(st, q) ==> q.client == q.session.client
    ensures OwnersAgree(Insert(st, p))
  {
    hide Key, Live, KeyOf;
    var st' := Insert(st, p);
    InsertLive(st, p);
    forall q | Live(st', q)
      ensures q.session in st'.owned && q.name in st'.owned[q.session] && st'.owned[q.session][q.name] == q
    {
      if q != p {
        OtherName(st, p, q);
      }
    }
    forall se, n | se in st'.owned && n in st'.owned[se]
      ensures Live(st', st'.owned[se][n]) && st'.owned[se][n].name == n && st'.owned[se][n].session == se
    {
      if se != p.session || n != p.name {
        assert n in st.owned[se] && st'.owned[se][n] == st.owned[se][n];
      }
    }
  }

  /** A live proxy of the same session as one under a free key has another name. */
  lemma OtherName(st: State, p: Proxy, q: Proxy)
    requires Live(st, q) && KeyOf(p) !in st.proxies && p.client == p.session.client && q.client == q.session.client
    ensures q.session == p.session ==> q.name != p.name
  {
    hide Key;
  }

  lemma InsertKeepsPorts(st: State, p: Proxy)
    requires PortsAgree(st)
    requires p.session in st.owned && KeyOf(p) !in st.proxies && p.remotePort !in st.byPort
    ensures PortsAgree(Insert(st, p))
  {
    hide Live;
    InsertLive(st, p);
  }

  lemma InsertKeepsHosts(st: State, p: Proxy)
    requires HostsAgree(st)
    requires p.session in st.owned && KeyOf(p) !in st.proxies && forall h :: h in p.hosts ==> h !in st.vhost
    ensures HostsAgree(Insert(st, p))
  {
    hide Live;
    InsertLive(st, p);
    var st' := Insert(st, p);
    forall q, h | Live(st', q) && h in q.hosts ensures h in st'.vhost && st'.vhost[h] == q {
      if q != p {
        assert Live(st, q);
        assert h in st.vhost;
      }
    }
  }

  lemma InsertKeepsInv(cfg: Settings, st: State, p: Proxy)
    requires Inv(cfg, st) && Fits(cfg, st, p)
    ensures Inv(cfg, Insert(st, p))
    ensures forall q :: Live(Insert(st, p), q) <==> Live(st, q) || q == p
  {
    hide Live, OwnersAgree, PortsAgree, HostsAgree;
    InsertLive(st, p);
    InsertKeepsOwners(st, p);
    InsertKeepsPorts(st, p);
    InsertKeepsHosts(st, p);
  }

  lemma RemoveLive(st: State, p: Proxy)
    requires p.session in st.owned && Live(st, p)
    ensures forall q :: Live(Remove(st, p), q) <==> Live(st, q) && q != p
  {
    hide Key;
  }

  lemma RemoveKeepsOwners(st: State, p: Proxy)
    requires OwnersAgree(st) && Live(st, p)
    ensures OwnersAgree(Remove(st, p))
  {
    hide Key, Live;
    var st' := Remove(st, p);
    LiveHasOwner(st, p);
    RemoveLive(st, p);
    forall se, n | se in st'.owned && n in st'.owned[se]
      ensures Live(st', st'.owned[se][n]) && st'.owned[se][n].name == n && st'.owned[se][n].session == se
    {
      OwnedIsLive(st, se, n);
      assert st'.owned[se][n] == st.owned[se][n] != p;
    }
    forall q | Live(st', q)
      ensures q.session in st'.owned && q.name in st'.owned[q.session] && st'.owned[q.session][q.name] == q
    {
      LiveHasOwner(st, q);
      assert q.session == p.session ==> q.name != p.name;
    }
    forall k | k in st'.proxies ensures KeyOf(st'.proxies[k]) == k {
      assert k in st.proxies && st'.proxies[k] == st.proxies[k];
    }
  }

  lemma RemoveKeepsPorts(st: State, p: Proxy)
    requires PortsAgree(st) && Live(st, p) && p.session in st.owned
    ensures PortsAgree(Remove(st, p))
  {
    hide Live;
    RemoveLive(st, p);
  }

  lemma RemoveKeepsHosts(st: State, p: Proxy)
    requires HostsAgree(st) && Live(st, p) && p.session in st.owned
    ensures HostsAgree(Remove(st, p))
  {
    hide Live;
    RemoveLive(st, p);
    var st' := Remove(st, p);
    forall h | h in st'.vhost ensures h in st'.vhost[h].hosts && Live(st', st'.vhost[h]) {
      assert h in st.vhost && h !in p.hosts;
    }
    forall q, h | Live(st', q) && h in q.hosts ensures h in st'.vhost && st'.vhost[h] == q {
      assert Live(st, q) && st.vhost[h] == q;
      if h in p.hosts {
        assert false;
      }
    }
  }

  lemma RemoveKeepsInv(cfg: Settings, st: State, p: Proxy)
    requires Inv(cfg, st) && Live(st, p)
    ensures Inv(cfg, Remove(st, p))
    ensures forall q :: Live(Remove(st, p), q) <==> Live(st, q) && q != p
  {
    hide Live, OwnersAgree, PortsAgree, HostsAgree;
    LiveHasOwner(st, p);
    RemoveLive(st, p);
    RemoveKeepsOwners(st, p);
    RemoveKeepsPorts(st, p);
    RemoveKeepsHosts(st, p);
  }

  lemma DropLive(st: State, se: SessionId)
    requires OwnersAgree(st) && se in st.owned && se !in st.dropped
    ensures forall q :: Live(Drop(st, se), q) <==> Live(st, q) && q.session != se
  {
    hide Key;
  }

  lemma DropKeepsOwners(st: State, se: SessionId)
    requires OwnersAgree(st) && se in st.owned && se !in st.dropped
    ensures OwnersAgree(Drop(st, se))
  {
    hide Key;
    var st' := Drop(st, se);
    DropLive(st, se);
    forall s, n | s in st'.owned && n in st'.owned[s]
      ensures Live(st', st'.owned[s][n]) && st'.owned[s][n].name == n && st'.owned[s][n].session == s
    {
      assert s != se && n in st.owned[s];
    }
  }

  lemma DropKeepsPorts(st: State, se: SessionId)
    requires OwnersAgree(st) && PortsAgree(st) && se in st.owned && se !in st.dropped
    ensures PortsAgree(Drop(st, se))
  {
    hide Key, OwnersAgree, Live;
    DropLive(st, se);
  }

  lemma DropKeepsHosts(st: State, se: SessionId)
    requires OwnersAgree(st) && HostsAgree(st) && se in st.owned && se !in st.dropped
    ensures HostsAgree(Drop(st, se))
  {
    hide Key, OwnersAgree, Live;
    DropLive(st, se);
  }

  lemma DropKeepsInv(cfg: Settings, st: State, se: SessionId)
    requires Inv(cfg, st)
    ensures Inv(cfg, Drop(st, se))
    ensures se in st.owned && se !in st.dropped ==>
              forall q :: Live(Drop(st, se), q) <==> Live(st, q) && q.session != se
  {
    hide Live, OwnersAgree, PortsAgree, HostsAgree;
    if se in st.owned && se !in st.dropped {
      DropLive(st, se);
      DropKeepsOwners(st, se);
      DropKeepsPorts(st, se);
      DropKeepsHosts(st, se);
      assert SessionsSound(Drop(st, se));
      assert ProxiesSound(cfg, Drop(st, se));
    }
  }

  lemma LoginKeepsOwners(st: State, client: string)
    requires OwnersAgree(st) && client != "" && SessionId(st.nextSid, client) !in st.owned
    ensures OwnersAgree(Login(st, client))
  {
    hide Key;
    var st' := Login(st, client);
    assert forall q :: Live(st', q) <==> Live(st, q);
    forall s, n | s in st'.owned && n in st'.owned[s]
      ensures Live(st', st'.owned[s][n]) && st'.owned[s][n].name == n && st'.owned[s][n].session == s
    {
      assert s in st.owned && st'.owned[s] == st.owned[s];
    }
  }

  lemma LoginLive(st: State, client: string)
    ensures forall q :: Live(Login(st, client), q) <==> Live(st, q)
  {
    hide Key;
  }

  lemma LoginKeepsSessions(st: State, client: string)
    requires SessionsSound(st)
    ensures SessionsSound(Login(st, client))
  {}

  lemma LoginSessionIsNew(st: State, client: string)
    requires SessionsSound(st)
    ensures SessionId(st.nextSid, client) !in st.owned
  {}

  lemma LoginKeepsInv(cfg: Settings, st: State, client: string)
    requires Inv(cfg, st)
    ensures Inv(cfg, Login(st, client))
    ensures forall q :: Live(Login(st, client), q) <==> Live(st, q)
  {
    hide Live, OwnersAgree, SessionsSound, WellFormed;
    LoginLive(st, client);
    LoginKeepsSessions(st, client);
    LoginSessionIsNew(st, client);
    if client != "" {
      LoginKeepsOwners(st, client);
    }
  }

  // ---- What registration answers, exactly ----

  /** The proxy a request asks for, with the port it would get. */
  function Candidate(cfg: Settings, st: State, se: SessionId, np: NewProxy): Proxy {
    if np.typ == "tcp" then
      TcpProxy(st, se, np,
               if np.remotePort == 0 then FirstFree(ScanOrder(cfg.ranges), st.byPort.Keys) else np.remotePort)
    else HttpProxy(cfg, st, se, np)
  }

  lemma {:induction false} FirstTakenExact(hosts: seq<string>, vhost: map<string, Proxy>)
    ensures FirstTaken(hosts, vhost) == None <==> forall h :: h in hosts ==> h !in vhost
    ensures FirstTaken(hosts, vhost).Some? ==>
              FirstTaken(hosts, vhost).value in hosts && FirstTaken(hosts, vhost).value in vhost
  {
    if hosts != [] {
      FirstTakenExact(hosts[1..], vhost);
      assert forall h :: h in hosts <==> h == hosts[0] || h in hosts[1..];
    }
  }

  /** A request that repeats a well-formed proxy passes every check made before the
      name is looked up. */
  lemma RepeatPassesChecks(cfg: Settings, p: Proxy, np: NewProxy)
    requires WellFormed(cfg, p) && SameConfig(p, np)
    ensures cfg.splitOk(np.local)
    ensures np.typ == "tcp" ==> np.remotePort != 0 && Allowed(cfg.ranges, np.remotePort)
    ensures np.typ == "http" ==>
              && cfg.vhostPort != 0
              && (np.subdomain != "" || |np.customDomains| > 0)
              && (np.subdomain != "" ==> cfg.vhostDomain != "")
    ensures np.typ == "tcp" || np.typ == "http"
    ensures np.typ == "http" ==> p.remotePort == 0
  {
    if np.typ == "http" {
      assert |p.customDomains| == |multiset(p.customDomains)|;
      assert |np.customDomains| == |multiset(np.customDomains)|;
    }
  }

  /** With a name that is taken, a request succeeds exactly when it repeats the live
      configuration, and never changes anything. */
  lemma RegisterTaken(cfg: Settings, st: State, se: SessionId, np: NewProxy, bindOk: bool)
    requires ProxiesSound(cfg, st) && OwnersAgree(st) && se in st.owned && Key(se.client, np.name) in st.proxies
    ensures Register(cfg, st, se, np, bindOk).0 == st
    ensures Register(cfg, st, se, np, bindOk).1.ok <==> SameConfig(st.proxies[Key(se.client, np.name)], np)
    ensures Register(cfg, st, se, np, bindOk).1.ok ==>
              Register(cfg, st, se, np, bindOk).1.remotePort == st.proxies[Key(se.client, np.name)].remotePort
  {
    var p := st.proxies[Key(se.client, np.name)];
    TakenSound(cfg, st, Key(se.client, np.name));
    hide OwnersAgree, ProxiesSound, WellFormed, Key, RegisterTcp, RegisterHttp;
    if np.typ == "tcp" {
      RegisterTakenTcp(cfg, st, se, np, bindOk);
    } else if np.typ == "http" {
      RegisterTakenHttp(cfg, st, se, np);
    } else if SameConfig(p, np) {
      RepeatPassesChecks(cfg, p, np);
      assert false;
    }
  }

  lemma RegisterTakenTcp(cfg: Settings, st: State, se: SessionId, np: NewProxy, bindOk: bool)
    requires se in st.owned && np.typ == "tcp" && Key(se.client, np.name) in st.proxies
    requires WellFormed(cfg, st.proxies[Key(se.client, np.name)])
    ensures var (st', resp) := RegisterTcp(cfg, st, se, np, bindOk);
      var p := st.proxies[Key(se.client, np.name)];
      st' == st && (resp.ok <==> SameConfig(p, np)) && (resp.ok ==> resp.remotePort == p.remotePort)
  {
    var p := st.proxies[Key(se.client, np.name)];
    if SameConfig(p, np) {
      RepeatPassesChecks(cfg, p, np);
    }
    hide WellFormed, FirstFree, ScanOrder, Allowed, Key, Insert;
  }

  lemma RegisterTakenHttp(cfg: Settings, st: State, se: SessionId, np: NewProxy)
    requires se in st.owned && np.typ == "http" && Key(se.client, np.name) in st.proxies
    requires WellFormed(cfg, st.proxies[Key(se.client, np.name)])
    ensures var (st', resp) := RegisterHttp(cfg, st, se, np);
      var p := st.proxies[Key(se.client, np.name)];
      st' == st && (resp.ok <==> SameConfig(p, np)) && (resp.ok ==> resp.remotePort == p.remotePort)
  {
    var p := st.proxies[Key(se.client, np.name)];
    if SameConfig(p, np) {
      RepeatPassesChecks(cfg, p, np);
    }
    hide WellFormed, FirstTaken, HostsOf, Key, Insert;
  }

  lemma TakenSound(cfg: Settings, st: State, k: string)
    requires ProxiesSound(cfg, st) && OwnersAgree(st) && k in st.proxies
    ensures WellFormed(cfg, st.proxies[k])
  {
    hide WellFormed, Key;
    assert Live(st, st.proxies[k]);
  }

  lemma RegisterFreshTcp(cfg: Settings, st: State, se: SessionId, np: NewProxy, bindOk: bool)
    requires AllValid(cfg.ranges) && np.typ == "tcp"
    requires se in st.owned && Key(se.client, np.name) !in st.proxies
    requires 0 !in st.byPort
    ensures var (st', resp) := RegisterTcp(cfg, st, se, np, bindOk);
      var p := Candidate(cfg, st, se, np);
      && (resp.ok <==> Fits(cfg, st, p) && bindOk)
      && st' == (if resp.ok then Insert(st, p) else st)
      && (resp.ok ==> resp.remotePort == p.remotePort)
  {
    var p := Candidate(cfg, st, se, np);
    if np.remotePort == 0 {
      FirstFreeExact(ScanOrder(cfg.ranges), st.byPort.Keys);
      ScanMembers(cfg.ranges, p.remotePort);
    } else if p.remotePort == 0 {
      assert false;
    }
    hide FirstFree, ScanOrder, Allowed, Insert;
  }

  lemma RegisterFreshHttp(cfg: Settings, st: State, se: SessionId, np: NewProxy)
    requires np.typ == "http"
    requires se in st.owned && Key(se.client, np.name) !in st.proxies
    requires 0 !in st.byPort
    ensures var (st', resp) := RegisterHttp(cfg, st, se, np);
      var p := Candidate(cfg, st, se, np);
      && (resp.ok <==> Fits(cfg, st, p))
      && st' == (if resp.ok then Insert(st, p) else st)
      && (resp.ok ==> resp.remotePort == p.remotePort)
  {
    FirstTakenExact(HostsOf(cfg, np.customDomains, np.subdomain), st.vhost);
    hide FirstTaken, HostsOf, Insert;
  }

  /** With a free name, a request succeeds exactly when its candidate fits (and the
      port binds), and then enters exactly that candidate. */
  lemma RegisterFresh(cfg: Settings, st: State, se: SessionId, np: NewProxy, bindOk: bool)
    requires AllValid(cfg.ranges) && PortsAgree(st)
    requires se in st.owned && Key(se.client, np.name) !in st.proxies
    ensures var (st', resp) := Register(cfg, st, se, np, bindOk);
      var p := Candidate(cfg, st, se, np);
      && (resp.ok <==> Fits(cfg, st, p) && (np.typ == "tcp" ==> bindOk))
      && st' == (if resp.ok then Insert(st, p) else st)
      && (resp.ok ==> resp.remotePort == p.remotePort)
  {
    assert 0 !in st.byPort;
    if np.typ == "tcp" {
      RegisterFreshTcp(cfg, st, se, np, bindOk);
    } else if np.typ == "http" {
      RegisterFreshHttp(cfg, st, se, np);
    }
    hide PortsAgree, RegisterTcp, RegisterHttp, Insert;
  }

  lemma {:induction false} ScanMembers(ranges: seq<PortRange>, port: int)
    ensures port in ScanOrder(ranges) <==> Allowed(ranges, port)
  {
    if ranges != [] {
      ScanMembers(ranges[1..], port);
      var r := ranges[0];
      if r.Contains(port) {
        assert PortsOf(r)[port - r.min] == port;
        assert Allowed(ranges, port);
      } else {
        assert port !in PortsOf(r);
        if Allowed(ranges[1..], port) {
          var i :| 0 <= i < |ranges[1..]| && ranges[1..][i].Contains(port);
          assert ranges[i + 1].Contains(port);
        }
        if Allowed(ranges, port) {
          var i :| 0 <= i < |ranges| && ranges[i].Contains(port);
          assert ranges[1..][i - 1].Contains(port);
        }
      }
    }
  }

  /** The allocator takes the first free port in scan order; it answers the sentinel
      only when every port is taken or 0 itself is the first free entry. */
  lemma {:induction false} FirstFreeExact(order: seq<int>, used: set<int>)
    ensures var r := FirstFree(order, used);
      || (r == 0 && forall i :: 0 <= i < |order| ==> order[i] in used)
      || (exists i :: 0 <= i < |order| && order[i] == r && r !in used && forall j :: 0 <= j < i ==> order[j] in used)
  {
    if order != [] && order[0] in used {
      FirstFreeExact(order[1..], used);
      var r := FirstFree(order[1..], used);
      if i :| 0 <= i < |order[1..]| && order[1..][i] == r && r !in used && forall j :: 0 <= j < i ==> order[1..][j] in used {
        assert order[i + 1] == r;
        forall j | 0 <= j < i + 1 ensures order[j] in used {
          if j > 0 {
            assert order[j] == order[1..][j - 1];
          }
        }
      } else {
        forall i | 0 <= i < |order| ensures order[i] in used {
          if i > 0 {
            assert order[i] == order[1..][i - 1];
          }
        }
      }
    }
  }

  lemma RegisterKeepsInv(cfg: Settings, st: State, se: SessionId, np: NewProxy, bindOk: bool)
    requires AllValid(cfg.ranges) && Inv(cfg, st) && se in st.owned
    ensures Inv(cfg, Register(cfg, st, se, np, bindOk).0)
  {
    if Key(se.client, np.name) in st.proxies {
      RegisterTaken(cfg, st, se, np, bindOk);
    } else {
      RegisterFresh(cfg, st, se, np, bindOk);
      if Register(cfg, st, se, np, bindOk).1.ok {
        InsertKeepsInv(cfg, st, Candidate(cfg, st, se, np));
      }
    }
  }

  lemma CloseKeepsInv(cfg: Settings, st: State, se: SessionId, name: string)
    requires Inv(cfg, st)
    ensures Inv(cfg, Close(st, se, name))
  {
    if se in st.owned && name in st.owned[se] {
      RemoveKeepsInv(cfg, st, st.owned[se][name]);
    }
  }

  /** Closing a name takes it out of its session's table and touches no other table. */
  lemma CloseTables(st: State, se: SessionId, name: string)
    requires OwnersAgree(st) && se in st.owned
    ensures Close(st, se, name).owned == st.owned[se := st.owned[se] - {name}]
  {
    hide Key, Live;
    if name in st.owned[se] {
      OwnedIsLive(st, se, name);
    } else {
      assert st.owned[se] - {name} == st.owned[se];
      assert st.owned[se := st.owned[se]] == st.owned;
    }
  }

  /** A registration touches no other session's table. */
  lemma RegisterTables(cfg: Settings, st: State, se: SessionId, np: NewProxy, bindOk: bool, s: SessionId)
    requires se in st.owned && s in st.owned && s != se
    ensures Register(cfg, st, se, np, bindOk).0.owned[s] == st.owned[s]
  {
    hide Key, SameConfig, FirstFree, ScanOrder, Allowed, FirstTaken, HostsOf;
  }

  lemma UnseatKeepsInv(cfg: Settings, st: State, se: SessionId)
    requires Inv(cfg, st)
    ensures Inv(cfg, Unseated(st, se))
  {
    hide Live, WellFormed, OwnersAgree;
    SameIndexes(st, Unseated(st, se));
  }

  lemma SameIndexes(a: State, b: State)
    requires Indexed(a) && a.owned == b.owned && a.proxies == b.proxies && a.byPort == b.byPort
    requires a.vhost == b.vhost && a.listening == b.listening
    ensures Indexed(b) && forall p :: Live(a, p) <==> Live(b, p)
  {
    hide Key, OwnersAgree, PortsAgree, HostsAgree;
    assert forall p :: Live(a, p) <==> Live(b, p);
    SameIndexesParts(a, b);
  }

  lemma SameIndexesParts(a: State, b: State)
    requires Indexed(a) && a.owned == b.owned && a.proxies == b.proxies && a.byPort == b.byPort
    requires a.vhost == b.vhost && a.listening == b.listening
    requires forall p :: Live(a, p) <==> Live(b, p)
    ensures Indexed(b)
  {
    hide Live, Key;
  }

  /** Emptying a session's table one proxy at a time ends where dropping it ends. */
  lemma EmptiedIsDropped(cfg: Settings, st: State, now: State, se: SessionId)
    requires Inv(cfg, st) && Inv(cfg, now) && se in st.owned && se !in st.dropped
    requires now.owned == st.owned[se := map[]] && now.sessions == Unseated(st, se).sessions
    requires now.dropped == st.dropped && now.nextSid == st.nextSid && now.nextPid == st.nextPid
    ensures now == Drop(st, se).(dropped := st.dropped)
  {
    hide Key, Live, OwnersAgree, PortsAgree, HostsAgree, ProxiesSound, SessionsSound;
    DropKeepsInv(cfg, st, se);
    OwnedDetermines(now, Drop(st, se));
  }

  lemma RemoveTables(st: State, p: Proxy)
    requires p.session in st.owned
    ensures Remove(st, p).owned == st.owned[p.session := st.owned[p.session] - {p.name}]
    ensures Remove(st, p).sessions == st.sessions && Remove(st, p).dropped == st.dropped
    ensures Remove(st, p).nextSid == st.nextSid && Remove(st, p).nextPid == st.nextPid
  {
    hide Key;
  }
}
