/** The server as the program runs it: objects whose maps and queues are updated in
    place, each method proved against the registry functions
    (internal/server/server.go, internal/server/proxy.go, internal/server/session.go). */
module Server {
  import opened Wrappers
  import opened Config
  import opened Hosts
  import R = Registry
  import RL = RegistryLaws
  import H = Handoff

  type Conn = H.Conn

  /** `closeDone` is the once-flag of the session's Close. */
  class Session {
    const id: R.SessionId
    var proxies: map<string, Proxy>
    var closeDone: bool

    constructor (id: R.SessionId)
      ensures this.id == id && proxies == map[] && !closeDone
    {
      this.id := id;
      proxies := map[];
      closeDone := false;
    }
  }

  /** `rec` is everything about a proxy that never changes. */
  class Proxy {
    const rec: R.Proxy
    const session: Session
    var visitors: seq<Conn>

    constructor (rec: R.Proxy, session: Session)
      ensures this.rec == rec && this.session == session && visitors == []
    {
      this.rec := rec;
      this.session := session;
      visitors := [];
    }
  }

  function Recs(m: map<string, Proxy>): map<string, R.Proxy> {
    map k | k in m :: m[k].rec
  }

  function PortRecs(m: map<int, Proxy>): map<int, R.Proxy> {
    map q | q in m :: m[q].rec
  }

  lemma RecsMinus(m: map<string, Proxy>, ks: set<string>)
    ensures Recs(m - ks) == Recs(m) - ks
  {}

  lemma RecOf(m: map<string, Proxy>, k: string)
    requires k in m
    ensures k in Recs(m) && Recs(m)[k] == m[k].rec
  {}

  lemma NoRec(m: map<string, Proxy>, k: string)
    requires k !in m
    ensures k !in Recs(m)
  {}

  lemma PortRecsMinus(m: map<int, Proxy>, qs: set<int>)
    ensures PortRecs(m - qs) == PortRecs(m) - qs
  {}

  lemma RecsPlus(m: map<string, Proxy>, k: string, p: Proxy)
    ensures Recs(m[k := p]) == Recs(m)[k := p.rec]
  {}

  function Ids(m: map<string, Session>): map<string, R.SessionId> {
    map c | c in m :: m[c].id
  }

  lemma IdsMinus(m: map<string, Session>, c: string)
    ensures Ids(m - {c}) == Ids(m) - {c}
  {}

  /** Two registry values differ in the proxy table of one session and its indexes only. */
  ghost predicate OnlyOwn(a: R.State, b: R.State, id: R.SessionId) {
    && id in b.owned && b.owned == a.owned[id := b.owned[id]]
    && b.sessions == a.sessions && b.dropped == a.dropped && b.nextSid == a.nextSid && b.nextPid == a.nextPid
  }

  lemma OnlyOwnTwice(a: R.State, b: R.State, c: R.State, id: R.SessionId)
    requires OnlyOwn(a, b, id) && OnlyOwn(b, c, id)
    ensures OnlyOwn(a, c, id)
  {}

  lemma OnlyOwnSame(a: R.State, id: R.SessionId)
    requires id in a.owned
    ensures OnlyOwn(a, a, id)
  {}

  /** The visitors waiting at some proxies. */
  ghost function Queued(m: map<string, Proxy>): set<Conn>
    reads m.Values`visitors
  {
    set n, v | n in m && v in m[n].visitors :: v
  }

  lemma NobodyQueued(m: map<string, Proxy>)
    requires m.Keys == {}
    ensures Queued(m) == {}
  {}

  lemma QueuedMinus(m: map<string, Proxy>, n: string)
    requires n in m
    ensures Queued(m) == (set v | v in m[n].visitors) + Queued(m - {n})
  {
    forall v | v in Queued(m) ensures v in (set v | v in m[n].visitors) + Queued(m - {n}) {
      var k :| k in m && v in m[k].visitors;
      if k != n {
        assert k in m - {n} && v in (m - {n})[k].visitors;
      }
    }
    forall v | v in Queued(m - {n}) ensures v in Queued(m) {
      var k :| k in m - {n} && v in (m - {n})[k].visitors;
      assert k in m && v in m[k].visitors;
    }
  }

  /** Every proxy that came into the session is a new object. */
  twostate predicate OnlyNewProxies(se: Session)
    reads se`proxies
  {
    forall n :: n in se.proxies && (n !in old(se.proxies) || old(se.proxies)[n] != se.proxies[n]) ==> fresh(se.proxies[n])
  }

  class Server {
    const cfg: R.Settings
    var sessions: map<string, Session>
    var proxies: map<string, Proxy>
    var byPort: map<int, Proxy>
    var vhost: map<string, Proxy>
    var listening: set<int>
    var closed: set<Conn>
    var nextSid: nat
    var nextPid: nat
    ghost var all: map<R.SessionId, Session>
    ghost var table: map<R.Proxy, Proxy>

    ghost function SessionIds(): map<string, R.SessionId>
      reads this`sessions
    {
      Ids(sessions)
    }

    ghost function Owned(): map<R.SessionId, map<string, R.Proxy>>
      reads this`all, all.Values`proxies
    {
      map id | id in all :: Recs(all[id].proxies)
    }

    ghost function Dropped(): set<R.SessionId>
      reads this`all, all.Values`closeDone
    {
      set id | id in all && all[id].closeDone
    }

    /** The registry value the objects stand for. */
    ghost function Abs(): R.State
      reads this, all.Values
    {
      R.State(SessionIds(), Owned(), Recs(proxies), PortRecs(byPort), Recs(vhost), listening, Dropped(), nextSid, nextPid)
    }

    ghost predicate Known(se: Session)
      reads this`all
    {
      se.id in all && all[se.id] == se
    }

    /** One object per proxy record, linked to the session object of its record. */
    ghost predicate Linked(p: Proxy)
      reads this`all, this`table
    {
      p.rec in table && table[p.rec] == p && p.session.id == p.rec.session && Known(p.session)
    }

    ghost predicate TablesWired()
      reads this`all, this`table, this`sessions, this`proxies, this`byPort, this`vhost, this`nextPid
    {
      && (forall id :: id in all ==> all[id].id == id)
      && (forall c :: c in sessions ==> Known(sessions[c]))
      && (forall k :: k in proxies ==> Linked(proxies[k]))
      && (forall q :: q in byPort ==> Linked(byPort[q]))
      && (forall h :: h in vhost ==> Linked(vhost[h]))
      && (forall rec :: rec in table ==> rec.pid < nextPid)
    }

    ghost predicate SessionsWired()
      reads this`all, this`table, all.Values`proxies
    {
      forall id, n :: id in all && n in all[id].proxies ==> Linked(all[id].proxies[n])
    }

    /** The references between the objects are in order. */
    ghost predicate Wired()
      reads this`all, this`table, this`sessions, this`proxies, this`byPort, this`vhost, this`nextPid, all.Values`proxies
    {
      TablesWired() && SessionsWired()
    }

    ghost predicate Valid()
      reads this, all.Values
    {
      Wired() && AllValid(cfg.ranges) && R.Inv(cfg, Abs())
    }

    constructor (cfg: R.Settings)
      requires AllValid(cfg.ranges)
      ensures Valid() && this.cfg == cfg && Abs() == R.INITIAL
    {
      this.cfg := cfg;
      sessions, proxies, byPort, vhost := map[], map[], map[], map[];
      listening, closed := {}, {};
      nextSid, nextPid := 0, 0;
      all, table := map[], map[];
    }

    // ---- Whitelist and allocation ----

    method PortAllowed(port: int) returns (ok: bool)
      ensures ok == Allowed(cfg.ranges, port)
    {
      for i := 0 to |cfg.ranges|
        invariant forall j :: 0 <= j < i ==> !cfg.ranges[j].Contains(port)
      {
        if cfg.ranges[i].Contains(port) {
          return true;
        }
      }
      return false;
    }

    method AllocPort() returns (port: int)
      ensures port == R.FirstFree(R.ScanOrder(cfg.ranges), byPort.Keys)
    {
      hide R.PortsOf, R.FirstFree;
      ghost var found := R.FirstFree(R.ScanOrder(cfg.ranges), byPort.Keys);
      for i := 0 to |cfg.ranges|
        invariant found == R.FirstFree(R.ScanOrder(cfg.ranges[i..]), byPort.Keys)
      {
        var r := cfg.ranges[i];
        ghost var after := R.ScanOrder(cfg.ranges[i + 1..]);
        assert cfg.ranges[i..][1..] == cfg.ranges[i + 1..];
        var p := r.min;
        while p <= r.max
          invariant found == R.FirstFree(R.PortsOf(PortRange(p, r.max)) + after, byPort.Keys)
          decreases r.max - p
        {
          R.ScanNext(p, r.max, after, byPort.Keys);
          if p !in byPort {
            return p;
          }
          p := p + 1;
        }
        R.ScanDone(p, r.max, after);
      }
      R.ScanNothing(byPort.Keys);
      return 0;
    }

    // ---- Removal ----

    /** Takes a proxy out of every table and closes the visitors still in its queue. */
    method RemoveProxyLocked(p: Proxy)
      requires Valid() && Linked(p) && R.Live(Abs(), p.rec)
      modifies this, p, p.session
      ensures Valid() && Abs() == R.Remove(old(Abs()), p.rec)
      ensures p.visitors == [] && closed == old(closed) + set v | v in old(p.visitors)
      ensures sessions == old(sessions) && all == old(all) && table == old(table)
      ensures p.session.proxies == old(p.session.proxies) - {p.rec.name} && p.session.closeDone == old(p.session.closeDone)
    {
      hide R.Key, R.KeyOf, R.Live, R.Indexed, R.SessionsSound, R.ProxiesSound, Recs, PortRecs, SessionIds, Owned, Dropped,
           Wired, Linked;
      ghost var st := Abs();
      RecordChecks(p.rec);
      Detach(p);
      R.RemoveKeepsInv(cfg, st, p.rec);
    }

    lemma LinkedSession(p: Proxy)
      requires Linked(p)
      ensures p.rec.session in all && all[p.rec.session] == p.session
    {}

    lemma SessionIdOf(id: R.SessionId)
      requires TablesWired() && id in all
      ensures all[id].id == id
    {
      hide Linked, Known;
    }

    /** The deletions, each as it reads on the registry value. */
    method Detach(p: Proxy)
      requires Wired() && Linked(p)
      requires p.rec.typ == "tcp" <==> p.rec.remotePort != 0
      modifies this`proxies, this`byPort, this`vhost, this`listening, this`closed, p, p.session`proxies
      ensures Wired()
      ensures Owned() == old(Owned())[p.rec.session := old(Owned())[p.rec.session] - {p.rec.name}]
      ensures Recs(proxies) == old(Recs(proxies)) - {R.KeyOf(p.rec)}
      ensures PortRecs(byPort) ==
              if p.rec.remotePort != 0 then old(PortRecs(byPort)) - {p.rec.remotePort}
              else old(PortRecs(byPort))
      ensures Recs(vhost) == old(Recs(vhost)) - set h | h in p.rec.hosts
      ensures listening == if p.rec.remotePort != 0 then old(listening) - {p.rec.remotePort} else old(listening)
      ensures p.session.proxies == old(p.session.proxies) - {p.rec.name}
      ensures p.visitors == [] && closed == old(closed) + set v | v in old(p.visitors)
    {
      hide R.Key, R.KeyOf, Linked, Known, TablesWired, SessionsWired, Owned, Recs, PortRecs;
      LinkedSession(p);
      SessionIdOf(p.rec.session);
      ForgetIndexes(p);
      ForgetName(p.session, p.rec.name);
      Drain(p);
    }

    method ForgetIndexes(p: Proxy)
      requires TablesWired()
      requires p.rec.typ == "tcp" <==> p.rec.remotePort != 0
      modifies this`proxies, this`byPort, this`vhost, this`listening
      ensures TablesWired()
      ensures Recs(proxies) == old(Recs(proxies)) - {R.KeyOf(p.rec)}
      ensures PortRecs(byPort) ==
              if p.rec.remotePort != 0 then old(PortRecs(byPort)) - {p.rec.remotePort}
              else old(PortRecs(byPort))
      ensures Recs(vhost) == old(Recs(vhost)) - set h | h in p.rec.hosts
      ensures listening == if p.rec.remotePort != 0 then old(listening) - {p.rec.remotePort} else old(listening)
    {
      hide R.Key, R.KeyOf, TablesWired, Recs, PortRecs;
      ForgetKey(p);
      ForgetPort(p);
      ForgetHosts(p);
    }

    method ForgetKey(p: Proxy)
      requires TablesWired()
      modifies this`proxies
      ensures TablesWired()
      ensures Recs(proxies) == old(Recs(proxies)) - {R.KeyOf(p.rec)}
    {
      hide R.Key, R.KeyOf, Linked, Known;
      RecsMinus(proxies, {R.KeyOf(p.rec)});
      proxies := proxies - {R.KeyOf(p.rec)};
    }

    /** Only one session's map changed. */
    twostate lemma OwnedAfter(se: Session)
      requires all == old(all) && Known(se)
      requires forall id :: id in all && all[id] != se ==> all[id].proxies == old(all[id].proxies)
      requires old(TablesWired())
      ensures Owned() == old(Owned())[se.id := Recs(se.proxies)]
    {
      hide Recs, Linked;
      forall id | id in all && id != se.id ensures all[id] != se {
        assert all[id].id == id;
      }
    }

    method ForgetName(se: Session, name: string)
      requires Wired() && se.id in all && all[se.id] == se
      modifies se`proxies
      ensures Wired() && Owned() == old(Owned())[se.id := old(Owned())[se.id] - {name}]
      ensures se.proxies == old(se.proxies) - {name}
    {
      hide Linked, Recs, Owned;
      KnownAfter(se);
      RecsMinus(se.proxies, {name});
      se.proxies := se.proxies - {name};
      OwnedAfter(se);
    }

    method ForgetPort(p: Proxy)
      requires TablesWired()
      requires p.rec.typ == "tcp" <==> p.rec.remotePort != 0
      modifies this`byPort, this`listening
      ensures TablesWired()
      ensures PortRecs(byPort) ==
              if p.rec.remotePort != 0 then old(PortRecs(byPort)) - {p.rec.remotePort}
              else old(PortRecs(byPort))
      ensures listening == if p.rec.remotePort != 0 then old(listening) - {p.rec.remotePort} else old(listening)
    {
      hide Linked, Known;
      PortRecsMinus(byPort, {p.rec.remotePort});
      if p.rec.remotePort != 0 {
        byPort := byPort - {p.rec.remotePort};
      }
      if p.rec.typ == "tcp" {
        listening := listening - {p.rec.remotePort};
      }
    }

    method ForgetHosts(p: Proxy)
      requires TablesWired()
      modifies this`vhost
      ensures TablesWired()
      ensures Recs(vhost) == old(Recs(vhost)) - set h | h in p.rec.hosts
    {
      hide Linked, Known;
      RecsMinus(vhost, set h | h in p.rec.hosts);
      for i := 0 to |p.rec.hosts|
        modifies this`vhost
        invariant vhost == old(vhost) - set h | h in p.rec.hosts[..i]
      {
        assert p.rec.hosts[..i + 1] == p.rec.hosts[..i] + [p.rec.hosts[i]];
        vhost := vhost - {p.rec.hosts[i]};
      }
      assert p.rec.hosts[..|p.rec.hosts|] == p.rec.hosts;
      hide Recs;
    }

    /** Only a tcp proxy has a port, and with it a listener. */
    lemma RecordChecks(p: R.Proxy)
      requires R.Inv(cfg, Abs()) && R.Live(Abs(), p)
      ensures p.typ == "tcp" <==> p.remotePort != 0
      ensures p.session in Abs().owned
    {
      hide R.Live, R.PortsAgree, R.HostsAgree, R.SessionsSound;
      R.LiveHasOwner(Abs(), p);
    }

    method Drain(p: Proxy)
      modifies this`closed, p
      ensures p.visitors == [] && closed == old(closed) + set v | v in old(p.visitors)
    {
      ghost var gone: seq<Conn> := [];
      while |p.visitors| > 0
        modifies this`closed, p
        invariant gone + p.visitors == old(p.visitors)
        invariant closed == old(closed) + set v | v in gone
      {
        var v := p.visitors[0];
        p.visitors := p.visitors[1..];
        closed := closed + {v};
        gone := gone + [v];
      }
      assert gone == old(p.visitors);
    }

    method CloseProxy(se: Session, name: string)
      requires Valid() && Known(se)
      modifies this, se, if name in se.proxies then {se.proxies[name]} else {}
      ensures Valid() && Abs() == R.Close(old(Abs()), se.id, name)
      ensures all == old(all) && se.proxies == old(se.proxies) - {name}
      ensures closed == old(closed) + if name in old(se.proxies) then set v | v in old(se.proxies[name].visitors) else {}
    {
      hide R.Key, R.Live, R.OwnersAgree, R.PortsAgree, R.HostsAgree, R.SessionsSound, R.ProxiesSound, R.Remove, R.Inv;
      hide Wired, Linked, Recs, Abs;
      DroppedIs(se);
      KnownAfter(se);
      if name in se.proxies {
        var p := se.proxies[name];
        OwnedProxy(se, name);
        RecOf(se.proxies, name);
        RemoveProxyLocked(p);
      } else {
        NoRec(se.proxies, name);
      }
    }

    /** Takes a session that is still its client's current one out of the table. */
    method Unseat(se: Session)
      requires Valid() && Known(se)
      modifies this`sessions
      ensures Valid() && Abs() == R.Unseated(old(Abs()), se.id)
    {
      hide R.Inv, Recs, PortRecs, Owned, Dropped, SessionsWired, Linked, Ids;
      ghost var st := Abs();
      SeatedIs(se);
      IdsMinus(sessions, se.id.client);
      if se.id.client in sessions && sessions[se.id.client] == se {
        sessions := sessions - {se.id.client};
      }
      R.UnseatKeepsInv(cfg, st, se.id);
    }

    /** Being the client's current session reads the same on the registry value. */
    lemma SeatedIs(se: Session)
      requires TablesWired() && Known(se)
      ensures R.CurrentIn(SessionIds(), se.id) <==> se.id.client in sessions && sessions[se.id.client] == se
    {
      hide Linked;
    }

    lemma OwnedProxy(se: Session, n: string)
      requires Valid() && Known(se) && n in se.proxies
      ensures var p := se.proxies[n];
        Linked(p) && R.Live(Abs(), p.rec) && p.session == se && p.rec.name == n && p.rec.session == se.id
      ensures se.id in Abs().owned
    {
      hide R.Key, R.Live, R.PortsAgree, R.HostsAgree, R.ProxiesSound, R.SessionsSound;
      assert Owned()[se.id][n] == se.proxies[n].rec;
      R.OwnedIsLive(Abs(), se.id, n);
    }

    /** Removes one of the session's proxies, whichever its map yields. */
    method DropOne(se: Session) returns (ghost n: string)
      requires Valid() && Known(se) && se.proxies.Keys != {}
      modifies this, se, set n | n in se.proxies :: se.proxies[n]
      ensures Valid() && Known(se) && all == old(all) && se.closeDone == old(se.closeDone)
      ensures n in old(se.proxies) && se.proxies == old(se.proxies) - {n}
      ensures OnlyOwn(old(Abs()), Abs(), se.id)
      ensures closed + Queued(se.proxies) == old(closed) + old(Queued(se.proxies))
    {
      hide R.Key, R.Inv, R.Remove, Abs, Wired, Linked, Queued;
      var name :| name in se.proxies.Keys;
      n := name;
      var p := se.proxies[name];
      OwnedProxy(se, name);
      R.RemoveTables(Abs(), p.rec);
      QueuedMinus(se.proxies, name);
      NamedApart(se, name);
      RemoveProxyLocked(p);
    }

    /** Removes the session's proxies in whatever order its map yields them, deleting
        as it goes. */
    method DropProxies(se: Session)
      requires Valid() && Known(se)
      modifies this, se, set n | n in se.proxies :: se.proxies[n]
      ensures Valid() && Known(se) && all == old(all) && se.closeDone == old(se.closeDone) && se.proxies == map[]
      ensures OnlyOwn(old(Abs()), Abs(), se.id) && Abs().owned[se.id] == map[]
      ensures closed == old(closed) + old(Queued(se.proxies))
    {
      hide R.Key, R.Inv, Abs, Wired, Linked, Known, Queued, Valid, OnlyOwn;
      ghost var st := Abs();
      ghost var mine := se.proxies;
      DroppedIs(se);
      OnlyOwnSame(st, se.id);
      while se.proxies.Keys != {}
        invariant Valid() && Known(se) && all == old(all) && se.closeDone == old(se.closeDone)
        invariant forall n :: n in se.proxies ==> n in mine && se.proxies[n] == mine[n]
        invariant OnlyOwn(st, Abs(), se.id)
        invariant closed + Queued(se.proxies) == old(closed) + old(Queued(se.proxies))
        decreases |se.proxies|
      {
        ghost var before := Abs();
        ghost var n := DropOne(se);
        OnlyOwnTwice(st, before, Abs(), se.id);
      }
      NobodyQueued(se.proxies);
      EmptyTable(se);
    }

    /** Takes the session out of the table if it is still there, then removes its
        proxies. */
    method DropSession(se: Session)
      requires Valid() && Known(se) && !se.closeDone
      modifies this, se, set n | n in se.proxies :: se.proxies[n]
      ensures Valid() && Abs() == R.Drop(old(Abs()), se.id).(dropped := old(Abs()).dropped)
      ensures all == old(all) && !se.closeDone && se.proxies == map[]
      ensures closed == old(closed) + old(Queued(se.proxies))
    {
      hide R.Key, R.Drop, Abs, Wired, Linked, Known, Queued, Valid;
      ghost var st := Abs();
      DroppedIs(se);
      InvOf();
      Unseat(se);
      DropProxies(se);
      InvOf();
      hide R.Inv;
      R.EmptiedIsDropped(cfg, st, Abs(), se.id);
    }

    /** Two names of a session are two proxy objects. */
    lemma NamedApart(se: Session, n: string)
      requires Valid() && Known(se) && n in se.proxies
      ensures se.proxies[n] !in (se.proxies - {n}).Values
    {
      hide R.Inv, Wired, Abs, Linked;
      OwnedProxy(se, n);
      forall k | k in se.proxies && k != n ensures se.proxies[k] != se.proxies[n] {
        OwnedProxy(se, k);
      }
    }

    lemma InvOf()
      requires Valid()
      ensures R.Inv(cfg, Abs())
    {}

    lemma DroppedIs(se: Session)
      requires Valid() && Known(se)
      ensures se.id in Abs().owned && (se.id in Abs().dropped <==> se.closeDone)
    {
      hide R.Inv, Wired, Recs;
    }

    lemma KnownAfter(se: Session)
      requires Known(se)
      ensures se.id in Abs().owned && Abs().owned[se.id] == Recs(se.proxies)
    {
      hide Recs;
    }

    lemma EmptyTable(se: Session)
      requires Known(se) && se.proxies.Keys == {}
      ensures se.id in Abs().owned && Abs().owned[se.id] == map[]
    {
      KnownAfter(se);
      assert Recs(se.proxies) == map[];
    }

    /** Closing a session: the drop, then the once-flag. */
    method Close(se: Session)
      requires Valid() && Known(se)
      modifies this, se, set n | n in se.proxies :: se.proxies[n]
      ensures Valid() && Abs() == R.Drop(old(Abs()), se.id) && se.closeDone
      ensures all == old(all)
      ensures closed == old(closed) + if old(se.closeDone) then {} else old(Queued(se.proxies))
    {
      hide R.Inv, Abs, Wired, Recs;
      ghost var st := Abs();
      DroppedIs(se);
      if !se.closeDone {
        DropSession(se);
        MarkDone(se);
        R.DropKeepsInv(cfg, st, se.id);
      }
    }

    method MarkDone(se: Session)
      requires Wired() && Known(se)
      modifies se`closeDone
      ensures Wired() && Abs() == old(Abs()).(dropped := old(Abs()).dropped + {se.id}) && se.closeDone
    {
      hide Linked, SessionsWired, Recs, PortRecs, SessionIds, Owned;
      ghost var was := Dropped();
      assert forall id :: id in all ==> all[id].id == id;
      se.closeDone := true;
      assert Dropped() == was + {se.id};
      hide TablesWired, Dropped;
    }

    // ---- Registration ----

    /** Makes the object of a new proxy. */
    method NewProxyObject(se: Session, rec: R.Proxy) returns (p: Proxy)
      requires Wired() && Known(se) && rec.session == se.id && rec.pid == nextPid
      modifies this`table, this`nextPid
      ensures Wired() && Linked(p) && fresh(p) && p.rec == rec && p.session == se && p.visitors == []
      ensures nextPid == old(nextPid) + 1
    {
      p := new Proxy(rec, se);
      assert rec !in table;
      table := table[rec := p];
      nextPid := nextPid + 1;
      assert forall q: Proxy :: old(allocated(q)) && old(Linked(q)) ==> Linked(q);
    }

    method EnterKey(p: Proxy)
      requires TablesWired() && Linked(p)
      modifies this`proxies
      ensures TablesWired() && Recs(proxies) == old(Recs(proxies))[R.KeyOf(p.rec) := p.rec]
    {
      hide R.Key, R.KeyOf, Linked, Known;
      RecsPlus(proxies, R.KeyOf(p.rec), p);
      proxies := proxies[R.KeyOf(p.rec) := p];
    }

    method EnterName(se: Session, p: Proxy)
      requires Wired() && Linked(p) && se.id in all && all[se.id] == se
      modifies se`proxies
      ensures Wired() && Owned() == old(Owned())[se.id := old(Owned())[se.id][p.rec.name := p.rec]]
      ensures se.proxies == old(se.proxies)[p.rec.name := p]
    {
      hide Linked, Recs, Owned;
      KnownAfter(se);
      RecsPlus(se.proxies, p.rec.name, p);
      se.proxies := se.proxies[p.rec.name := p];
      OwnedAfter(se);
    }

    /** The port index and the listener, for a tcp proxy. */
    method EnterPort(p: Proxy)
      requires TablesWired() && Linked(p)
      modifies this`byPort, this`listening
      ensures TablesWired()
      ensures PortRecs(byPort) ==
              if p.rec.remotePort != 0 then old(PortRecs(byPort))[p.rec.remotePort := p.rec]
              else old(PortRecs(byPort))
      ensures listening == if p.rec.remotePort != 0 then old(listening) + {p.rec.remotePort} else old(listening)
    {
      hide Linked, Known;
      if p.rec.remotePort != 0 {
        listening := listening + {p.rec.remotePort};
        byPort := byPort[p.rec.remotePort := p];
      }
    }

    method EnterHost(p: Proxy, h: string)
      requires TablesWired() && Linked(p)
      modifies this`vhost
      ensures TablesWired() && Recs(vhost) == old(Recs(vhost))[h := p.rec]
    {
      hide Linked, Known;
      RecsPlus(vhost, h, p);
      vhost := vhost[h := p];
    }

    method EnterHosts(p: Proxy)
      requires TablesWired() && Linked(p)
      modifies this`vhost
      ensures TablesWired()
      ensures Recs(vhost) == old(Recs(vhost)) + map h | h in p.rec.hosts :: p.rec
    {
      hide Linked, Known, TablesWired, Recs;
      ghost var was := Recs(vhost);
      var hosts := p.rec.hosts;
      for i := 0 to |hosts|
        modifies this`vhost
        invariant TablesWired()
        invariant Recs(vhost) == was + map h | h in hosts[..i] :: p.rec
      {
        assert hosts[..i + 1] == hosts[..i] + [hosts[i]];
        EnterHost(p, hosts[i]);
      }
      assert hosts[..|hosts|] == hosts;
    }

    method EnterAll(se: Session, rec: R.Proxy) returns (p: Proxy)
      requires Wired() && se.id in all && all[se.id] == se && rec.session == se.id && rec.pid == nextPid
      modifies this`table, this`nextPid, this`proxies, this`byPort, this`listening, this`vhost, se`proxies
      ensures Wired() && fresh(p) && p.rec == rec && p.visitors == [] && nextPid == old(nextPid) + 1
      ensures Owned() == old(Owned())[se.id := old(Owned())[se.id][rec.name := rec]]
      ensures se.proxies == old(se.proxies)[rec.name := p]
      ensures Recs(proxies) == old(Recs(proxies))[R.KeyOf(rec) := rec]
      ensures PortRecs(byPort) ==
              if rec.remotePort != 0 then old(PortRecs(byPort))[rec.remotePort := rec]
              else old(PortRecs(byPort))
      ensures Recs(vhost) == old(Recs(vhost)) + map h | h in rec.hosts :: rec
      ensures listening == if rec.remotePort != 0 then old(listening) + {rec.remotePort} else old(listening)
    {
      hide R.Key, R.KeyOf, Linked, TablesWired, SessionsWired, Owned, Recs, PortRecs;
      p := NewProxyObject(se, rec);
      EnterIndexes(p);
      EnterName(se, p);
    }

    method EnterIndexes(p: Proxy)
      requires TablesWired() && Linked(p)
      modifies this`proxies, this`byPort, this`listening, this`vhost
      ensures TablesWired()
      ensures Recs(proxies) == old(Recs(proxies))[R.KeyOf(p.rec) := p.rec]
      ensures PortRecs(byPort) ==
              if p.rec.remotePort != 0 then old(PortRecs(byPort))[p.rec.remotePort := p.rec]
              else old(PortRecs(byPort))
      ensures Recs(vhost) == old(Recs(vhost)) + map h | h in p.rec.hosts :: p.rec
      ensures listening == if p.rec.remotePort != 0 then old(listening) + {p.rec.remotePort} else old(listening)
    {
      hide R.Key, R.KeyOf, TablesWired, Recs, PortRecs;
      EnterKey(p);
      EnterPort(p);
      EnterHosts(p);
    }

    /** Enters a proxy that fits into its session and into every index. */
    method Enter(se: Session, rec: R.Proxy) returns (p: Proxy)
      requires Valid() && Known(se) && rec.session == se.id && R.Fits(cfg, Abs(), rec)
      modifies this, se
      ensures Valid() && Abs() == R.Insert(old(Abs()), rec)
      ensures fresh(p) && p.rec == rec && p.visitors == [] && se.proxies == old(se.proxies)[rec.name := p]
      ensures all == old(all) && closed == old(closed)
    {
      hide R.Inv, R.Fits, R.Key, R.KeyOf, Wired, Owned, Recs, PortRecs, SessionIds, Dropped;
      ghost var st := Abs();
      FitsPid(rec);
      p := EnterAll(se, rec);
      R.InsertKeepsInv(cfg, st, rec);
    }

    lemma FitsPid(rec: R.Proxy)
      requires R.Fits(cfg, Abs(), rec)
      ensures rec.pid == nextPid && rec.session in Abs().owned
    {}

    method SameConfig(p: Proxy, np: R.NewProxy) returns (same: bool)
      ensures same == R.SameConfig(p.rec, np)
    {
      if p.rec.typ != np.typ || p.rec.local != np.local {
        return false;
      }
      if p.rec.typ == "tcp" {
        return p.rec.remotePort == np.remotePort;
      }
      var sameDomains := SameStrings(p.rec.customDomains, np.customDomains);
      return p.rec.subdomain == np.subdomain && sameDomains;
    }

    /** `bindOk` is whether the operating system lets the port be bound. */
    method RegisterTCPProxy(se: Session, np: R.NewProxy, bindOk: bool) returns (resp: R.Resp)
      requires Valid() && Known(se) && np.typ == "tcp"
      modifies this, se
      ensures Valid() && all == old(all) && closed == old(closed)
      ensures se.id in old(Abs()).owned && (Abs(), resp) == R.RegisterTcp(cfg, old(Abs()), se.id, np, bindOk)
      ensures OnlyNewProxies(se)
    {
      hide R.Inv, R.Key, R.FirstFree, R.ScanOrder, R.SameConfig, R.Insert, R.Fits, Allowed, Abs, Wired;
      ghost var st := Abs();
      DroppedIs(se);
      TablesOf();
      if !cfg.splitOk(np.local) {
        return R.Refused(np, R.InvalidLocal);
      }
      var allowed := PortAllowed(np.remotePort);
      if np.remotePort != 0 && !allowed {
        return R.Refused(np, R.InvalidPort);
      }
      var key := R.Key(se.id.client, np.name);
      if key in proxies {
        var same := SameConfig(proxies[key], np);
        if same {
          return R.Granted(np, proxies[key].rec.remotePort);
        }
        return R.Refused(np, R.NameExists);
      }
      var port := np.remotePort;
      if port == 0 {
        port := AllocPort();
        if port == 0 {
          return R.Refused(np, R.PortPoolFull);
        }
      }
      if port in byPort {
        return R.Refused(np, R.PortInUse(port));
      }
      if !bindOk {
        return R.Refused(np, R.BindFailed);
      }
      NoZeroPort();
      R.RegisterFreshTcp(cfg, st, se.id, np, bindOk);
      var p := Enter(se, R.Proxy(nextPid, np.name, np.typ, se.id.client, np.local, port, "", [], [], se.id));
      return R.Granted(np, port);
    }

    /** The registry value's tables have the keys of the objects' tables. */
    lemma TablesOf()
      ensures Abs().proxies == Recs(proxies) && Abs().byPort.Keys == byPort.Keys && Abs().vhost == Recs(vhost)
      ensures Abs().nextPid == nextPid
      ensures forall k :: k in proxies ==> k in Abs().proxies && Abs().proxies[k] == proxies[k].rec
      ensures forall k :: k in Abs().proxies ==> k in proxies
    {
      hide SessionIds, Owned, Dropped;
    }

    lemma NoZeroPort()
      requires Valid()
      ensures 0 !in Abs().byPort
    {
      hide Abs, Wired, R.OwnersAgree, R.HostsAgree, R.Live;
    }

    method HostList(np: R.NewProxy) returns (hosts: seq<string>)
      ensures hosts == R.HostsOf(cfg, np.customDomains, np.subdomain)
    {
      hosts := [];
      for i := 0 to |np.customDomains|
        invariant |hosts| == i && forall j :: 0 <= j < i ==> hosts[j] == NormalizeHost(np.customDomains[j])
      {
        hosts := hosts + [NormalizeHost(np.customDomains[i])];
      }
      if np.subdomain != "" {
        hosts := hosts + [NormalizeHost(np.subdomain) + "." + NormalizeHost(cfg.vhostDomain)];
      }
    }

    method FirstTakenHost(hosts: seq<string>) returns (taken: Option<string>)
      ensures taken == R.FirstTaken(hosts, Recs(vhost))
    {
      for i := 0 to |hosts|
        invariant R.FirstTaken(hosts, Recs(vhost)) == R.FirstTaken(hosts[i..], Recs(vhost))
      {
        if hosts[i] in vhost {
          return Some(hosts[i]);
        }
        assert hosts[i..][1..] == hosts[i + 1..];
      }
      return None;
    }

    method RegisterHTTPProxy(se: Session, np: R.NewProxy) returns (resp: R.Resp)
      requires Valid() && Known(se) && np.typ == "http"
      modifies this, se
      ensures Valid() && all == old(all) && closed == old(closed)
      ensures se.id in old(Abs()).owned && (Abs(), resp) == R.RegisterHttp(cfg, old(Abs()), se.id, np)
      ensures OnlyNewProxies(se)
    {
      hide R.Inv, R.Key, R.SameConfig, R.Insert, R.Fits, R.FirstTaken, R.HostsOf, Recs, Wired, Abs;
      ghost var st := Abs();
      DroppedIs(se);
      TablesOf();
      if cfg.vhostPort == 0 {
        return R.Refused(np, R.VhostDisabled);
      }
      if np.subdomain == "" && |np.customDomains| == 0 {
        return R.Refused(np, R.VhostRequired);
      }
      if np.subdomain != "" && cfg.vhostDomain == "" {
        return R.Refused(np, R.VhostNeedDomain);
      }
      if !cfg.splitOk(np.local) {
        return R.Refused(np, R.InvalidLocal);
      }
      var hosts := HostList(np);
      var key := R.Key(se.id.client, np.name);
      if key in proxies {
        var same := SameConfig(proxies[key], np);
        if same {
          return R.Granted(np, 0);
        }
        return R.Refused(np, R.NameExists);
      }
      var taken := FirstTakenHost(hosts);
      match taken {
        case Some(h) => return R.Refused(np, R.VhostConflict(h));
        case None =>
      }
      NoZeroPort();
      R.RegisterFreshHttp(cfg, st, se.id, np);
      var p := Enter(se, R.Proxy(nextPid, np.name, np.typ, se.id.client, np.local, 0, np.subdomain, np.customDomains,
                                 hosts, se.id));
      return R.Granted(np, 0);
    }

    method RegisterProxy(se: Session, np: R.NewProxy, bindOk: bool) returns (resp: R.Resp)
      requires Valid() && Known(se)
      modifies this, se
      ensures Valid() && all == old(all) && closed == old(closed)
      ensures se.id in old(Abs()).owned && (Abs(), resp) == R.Register(cfg, old(Abs()), se.id, np, bindOk)
      ensures OnlyNewProxies(se)
    {
      hide R.RegisterTcp, R.RegisterHttp, Abs, Wired, R.Inv;
      DroppedIs(se);
      if np.typ == "tcp" {
        resp := RegisterTCPProxy(se, np, bindOk);
      } else if np.typ == "http" {
        resp := RegisterHTTPProxy(se, np);
      } else {
        resp := R.Refused(np, R.UnsupportedType);
      }
    }

    // ---- Login ----

    method Adopt(se: Session)
      requires Wired() && se.id == R.SessionId(nextSid, se.id.client) && se.id !in all && se.proxies == map[]
      modifies this`all, this`nextSid
      ensures Wired() && all == old(all)[se.id := se] && nextSid == old(nextSid) + 1
    {
      hide Owned, Dropped;
      all := all[se.id := se];
      nextSid := nextSid + 1;
      assert forall s: Session :: old(allocated(s)) && old(Known(s)) ==> Known(s);
      assert forall p: Proxy :: old(allocated(p)) && old(Linked(p)) ==> Linked(p);
      hide Linked, Known;
    }

    /** Makes the object of a new session. */
    method NewSession(client: string) returns (se: Session)
      requires Wired() && R.SessionId(nextSid, client) !in all
      modifies this`all, this`nextSid
      ensures Wired() && fresh(se) && Known(se) && se.id == R.SessionId(old(nextSid), client) && nextSid == old(nextSid) + 1
      ensures Owned() == old(Owned())[se.id := map[]] && Dropped() == old(Dropped())
      ensures se.id !in old(all) && all == old(all)[se.id := se] && se.proxies == map[]
    {
      hide Wired, Linked;
      ghost var was, wasDropped := Owned(), Dropped();
      se := new Session(R.SessionId(nextSid, client));
      Adopt(se);
      assert Recs(se.proxies) == map[];
      hide Recs;
      assert Owned() == was[se.id := map[]];
      assert Dropped() == wasDropped;
    }

    method Seat(se: Session)
      requires TablesWired() && Known(se)
      modifies this`sessions
      ensures TablesWired() && SessionIds() == old(SessionIds())[se.id.client := se.id]
      ensures R.CurrentIn(SessionIds(), se.id)
    {
      hide Linked, Known;
      sessions := sessions[se.id.client := se];
    }

    /** The critical section of a login that passed authentication: the session it
        replaces, if any, is returned for its caller to close afterwards. */
    method SwapSession(client: string) returns (se: Session, replaced: Option<Session>)
      requires Valid() && client != ""
      modifies this
      ensures se.id == R.SessionId(old(nextSid), client) && se.id !in old(all) && all == old(all)[se.id := se]
      ensures se.proxies == map[] && closed == old(closed)
      ensures Valid() && Abs() == R.Login(old(Abs()), client)
      ensures fresh(se) && Known(se) && R.CurrentIn(Abs().sessions, se.id) && se.id.client == client
      ensures replaced == if client in old(sessions) then Some(old(sessions)[client]) else None
    {
      hide R.Inv, R.CurrentIn, Recs, PortRecs, Linked, TablesWired, SessionsWired, Owned, Dropped, SessionIds, Known;
      ghost var st := Abs();
      R.LoginKeepsInv(cfg, st, client);
      NewId(client);
      replaced := if client in sessions then Some(sessions[client]) else None;
      se := NewSession(client);
      Seat(se);
    }

    /** What a login leaves behind: nothing when it is refused; otherwise the swap, then
        the drop of the session it replaced, then its own drop if the answer to it
        cannot be written. */
    ghost function LoggedIn(client: string, verified: bool, answered: bool): R.State
      reads this, all.Values
    {
      if client == "" || !verified then Abs()
      else
        var swapped := R.Login(Abs(), client);
        var st := if client in sessions then R.Drop(swapped, sessions[client].id) else swapped;
        if answered then st else R.Drop(st, R.SessionId(nextSid, client))
    }

    /** A whole login; `verified` is the verdict of the authentication and `answered`
        whether the answer can be written. */
    method Login(client: string, verified: bool, answered: bool) returns (se: Option<Session>)
      requires Valid()
      modifies this, if client in sessions then {sessions[client]} else {},
               set n | client in sessions && n in sessions[client].proxies :: sessions[client].proxies[n]
      ensures Valid() && Abs() == old(LoggedIn(client, verified, answered))
      ensures client == "" || !verified ==>
                Abs() == old(Abs()) && sessions == old(sessions) && all == old(all) && closed == old(closed)
      ensures client != "" && verified ==>
                && RL.LoginLeaves(old(Abs()), Abs(), client, answered)
                && closed == old(closed) + old(if client in sessions then Queued(sessions[client].proxies) else {})
      ensures se.Some? <==> client != "" && verified && answered
      ensures se.Some? ==> fresh(se.value) && Known(se.value) && se.value.id == R.SessionId(old(nextSid), client)
      ensures se.Some? ==> se.value.proxies == map[]
    {
      hide R.Inv, R.Login, R.Drop, R.CurrentIn, Wired, Recs, PortRecs, Owned, Dropped, SessionIds, Linked, Queued,
           RL.LoginLeaves;
      if client == "" || !verified {
        return None;
      }
      SessionKnown(client);
      SeatedSession(client);
      RL.SwapAndDrops(cfg, Abs(), client);
      var s, replaced := SwapSession(client);
      if replaced.Some? {
        Close(replaced.value);
      }
      NobodyQueued(s.proxies);
      if !answered {
        Close(s);
        return None;
      }
      return Some(s);
    }

    lemma SeatedSession(client: string)
      requires Valid()
      ensures client in Abs().sessions <==> client in sessions
      ensures client in sessions ==> Abs().sessions[client] == sessions[client].id && !sessions[client].closeDone
    {
      hide R.Indexed, R.ProxiesSound, Linked, SessionsWired;
    }

    lemma SessionKnown(client: string)
      requires Valid()
      ensures client in sessions ==> Known(sessions[client])
    {
      hide R.Inv, Linked, Abs, Known, SessionsWired;
    }

    lemma NewId(client: string)
      requires Valid()
      ensures R.SessionId(nextSid, client) !in all
    {
      hide Wired, R.Indexed, R.ProxiesSound, Recs, PortRecs;
      assert Abs().owned.Keys == all.Keys;
      R.LoginSessionIsNew(Abs(), client);
    }

    // ---- Visitors ----

    /** The proxy behind a host, if any: live, and registered for that very host. */
    method LookupVhost(host: string) returns (p: Option<Proxy>)
      requires Valid()
      ensures p == if host in vhost then Some(vhost[host]) else None
      ensures p.Some? <==> host in Abs().vhost
      ensures p.Some? ==> Linked(p.value) && R.Live(Abs(), p.value.rec) && host in p.value.rec.hosts
    {
      hide R.OwnersAgree, R.PortsAgree, R.ProxiesSound, R.SessionsSound, R.Live, Linked;
      TablesOf();
      if host in vhost {
        assert Abs().vhost[host] == vhost[host].rec;
        p := Some(vhost[host]);
      } else {
        p := None;
      }
    }

    method CloseVisitor(conn: Conn)
      requires Valid()
      modifies this`closed
      ensures Valid() && Abs() == old(Abs()) && closed == old(closed) + {conn}
    {
      hide R.Inv, Wired, Recs, PortRecs, SessionIds, Owned, Dropped;
      closed := closed + {conn};
    }

    /** A delivery with nothing in between: the visitor is queued and announced; or it
        is closed because the queue is full; or, when the announcement fails, the head
        of the queue and the visitor itself are closed. */
    method DeliverVisitor(p: Proxy, conn: Conn, notifyOk: bool) returns (ok: bool)
      requires Valid()
      modifies this`closed, p`visitors
      ensures Valid() && Abs() == old(Abs())
      ensures var (queue, taken) := H.TrySend(old(p.visitors), conn);
        && ok == (taken && notifyOk)
        && p.visitors == (if taken && !notifyOk then queue[1..] else queue)
        && closed == old(closed) + if !taken then {conn} else if !notifyOk then {queue[0], conn} else {}
    {
      hide R.Inv, Wired, Recs, PortRecs, SessionIds, Owned, Dropped;
      if |p.visitors| < H.QUEUE_CAP {
        p.visitors := p.visitors + [conn];
      } else {
        closed := closed + {conn};
        return false;
      }
      if !notifyOk {
        if |p.visitors| > 0 {
          closed := closed + {p.visitors[0]};
          p.visitors := p.visitors[1..];
        }
        closed := closed + {conn};
        return false;
      }
      return true;
    }

    /** The visitor side of a data stream that names a proxy of its session: the proxy is
        looked up among the session's own, and the head of its queue is taken, if any
        visitor is there in time. */
    method TakeVisitor(se: Session, name: string) returns (visitor: Option<Conn>)
      requires Valid() && Known(se)
      modifies if name in se.proxies then {se.proxies[name]} else {}
      ensures visitor.Some? <==> name in se.proxies && old(se.proxies[name].visitors) != []
      ensures visitor.Some? ==>
                && old(se.proxies[name].visitors) == [visitor.value] + se.proxies[name].visitors
                && se.proxies[name].session == se && se.proxies[name].rec.name == name
      ensures visitor.None? && name in se.proxies ==> se.proxies[name].visitors == []
      ensures Valid() && Abs() == old(Abs())
    {
      hide R.Inv, R.Live, Wired, Recs, PortRecs, SessionIds, Owned, Dropped, Linked;
      if name !in se.proxies {
        return None;
      }
      var p := se.proxies[name];
      OwnedProxy(se, name);
      if p.visitors == [] {
        return None;
      }
      visitor := Some(p.visitors[0]);
      p.visitors := p.visitors[1..];
    }
  }
}
