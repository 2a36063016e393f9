/** A whole reload and a whole reconnection, from the client's loops through the server's
    reader to the registry (internal/client/client.go, internal/server/session.go). */
module EndToEnd {
  import opened Wrappers
  import opened Config
  import R = Registry
  import RL = RegistryLaws
  import L = Reload
  import N = Reconnect
  import C = Client
  import CL = ClientLaws
  import A = AutoPorts
  import T = Control
  import S = Server

  // ---- How much a reload sends ----

  ghost function ChangedAmong(oldT: L.Table, newT: L.Table, names: set<string>): set<string> {
    set n | n in names && L.Changed(oldT, newT, n)
  }

  /** The number of messages of a reload, in every order: one for each new name, two for
      each changed one, one for each removed one. */
  ghost function PlanSize(oldT: L.Table, newT: L.Table): nat {
    |ChangedAmong(oldT, newT, newT.Keys)| + |ChangedAmong(oldT, newT, newT.Keys * oldT.Keys)| + |oldT.Keys - newT.Keys|
  }

  function Names(order: seq<string>): set<string> {
    set n | n in order
  }

  lemma NamesFrom(order: seq<string>)
    requires L.NoDup(order) && order != []
    ensures Names(order) == Names(order[1..]) + {order[0]} && order[0] !in Names(order[1..]) && L.NoDup(order[1..])
  {}

  lemma NamesOfOrder(order: seq<string>, t: L.Table)
    requires L.OrderOf(order, t)
    ensures Names(order) == t.Keys && L.NoDup(order)
  {}

  lemma {:induction false} UpdatesSize(oldT: L.Table, newT: L.Table, order: seq<string>, seqNo: int)
    requires L.NoDup(order) && forall n :: n in order ==> n in newT
    ensures |L.Updates(oldT, newT, order, seqNo)| ==
            |ChangedAmong(oldT, newT, Names(order))| + |ChangedAmong(oldT, newT, Names(order) * oldT.Keys)|
    decreases |order|
  {
    hide L.Changed, L.NoDup, ChangedAmong, Names;
    if order == [] {
      NobodyChanged(oldT, newT);
    } else {
      var n, others := order[0], Names(order[1..]);
      NamesFrom(order);
      UpdatesSize(oldT, newT, order[1..], if L.Changed(oldT, newT, n) then seqNo + 1 else seqNo);
      OneMore(oldT, newT, others, n);
      OneMoreHeld(oldT, newT, others, n);
      ActionsSize(oldT, newT, n, seqNo + 1);
      hide L.Actions;
    }
  }

  lemma ActionsSize(oldT: L.Table, newT: L.Table, n: string, reqId: int)
    requires n in newT
    ensures |L.Actions(oldT, newT, n, reqId)| ==
            (if L.Changed(oldT, newT, n) then 1 else 0) + if L.Changed(oldT, newT, n) && n in oldT then 1 else 0
  {
    hide L.Changed;
  }

  lemma NobodyChanged(oldT: L.Table, newT: L.Table)
    ensures Names([]) == {} && ChangedAmong(oldT, newT, {}) == {} == ChangedAmong(oldT, newT, {} * oldT.Keys)
  {}

  lemma OneMore(oldT: L.Table, newT: L.Table, names: set<string>, n: string)
    requires n !in names
    ensures |ChangedAmong(oldT, newT, names + {n})| ==
            |ChangedAmong(oldT, newT, names)| + if L.Changed(oldT, newT, n) then 1 else 0
  {
    hide L.Changed;
    assert ChangedAmong(oldT, newT, names + {n}) ==
           ChangedAmong(oldT, newT, names) + if L.Changed(oldT, newT, n) then {n} else {};
  }

  lemma OneMoreHeld(oldT: L.Table, newT: L.Table, names: set<string>, n: string)
    requires n !in names
    ensures |ChangedAmong(oldT, newT, (names + {n}) * oldT.Keys)| ==
            |ChangedAmong(oldT, newT, names * oldT.Keys)| + if L.Changed(oldT, newT, n) && n in oldT then 1 else 0
  {
    hide L.Changed, ChangedAmong;
    if n in oldT {
      OneMore(oldT, newT, names * oldT.Keys, n);
      assert (names + {n}) * oldT.Keys == names * oldT.Keys + {n};
    } else {
      assert (names + {n}) * oldT.Keys == names * oldT.Keys;
    }
  }

  lemma {:induction false} ClosesSize(newT: L.Table, order: seq<string>)
    requires L.NoDup(order)
    ensures |L.Closes(newT, order)| == |Names(order) - newT.Keys|
    decreases |order|
  {
    hide L.NoDup, Names;
    if order == [] {
      NobodyChanged(newT, newT);
      assert Names(order) - newT.Keys == {};
    } else {
      var n, others := order[0], Names(order[1..]);
      NamesFrom(order);
      ClosesSize(newT, order[1..]);
      OutsideMore(others, n, newT.Keys);
    }
  }

  lemma OutsideMore(names: set<string>, n: string, keys: set<string>)
    requires n !in names
    ensures |names + {n} - keys| == |names - keys| + if n in keys then 0 else 1
  {
    assert names + {n} - keys == names - keys + if n in keys then {} else {n};
  }

  lemma PlanHasSize(oldT: L.Table, newT: L.Table, newOrder: seq<string>, oldOrder: seq<string>, seqNo: int)
    requires L.OrderOf(newOrder, newT) && L.OrderOf(oldOrder, oldT)
    ensures |L.Plan(oldT, newT, newOrder, oldOrder, seqNo)| == PlanSize(oldT, newT)
  {
    hide L.Changed, L.Updates, L.Closes, ChangedAmong, Names;
    UpdatesSize(oldT, newT, newOrder, seqNo);
    ClosesSize(newT, oldOrder);
    NamesOfOrder(newOrder, newT);
    NamesOfOrder(oldOrder, oldT);
  }

  // ---- A reload ----

  /** What the registry is after a reload whose plan was offered to a writer that took some
      of it: the unchanged names keep their proxies whatever was refused, and if all of the
      plan was taken it is the new table. */
  lemma TakenConverges(cfg: R.Settings, was: R.State, se: R.SessionId, oldT: L.Table, newT: L.Table,
                       newOrder: seq<string>, oldOrder: seq<string>, seqNo: int, takes: nat -> bool, from: nat)
    requires L.Start(cfg, was, se, oldT, newT)
    requires L.OrderOf(newOrder, newT) && L.OrderOf(oldOrder, oldT)
    ensures var st := L.ServeAll(cfg, was, se, C.Taken(L.Plan(oldT, newT, newOrder, oldOrder, seqNo), takes, from));
      && (forall n :: n in newT && !L.Changed(oldT, newT, n) ==> L.Entry(st, se, n) == L.Entry(was, se, n))
      && (L.ReloadOk(cfg, was, se, oldT, newT) && (forall i :: from <= i < from + PlanSize(oldT, newT) ==> takes(i)) ==>
            L.Converged(was, st, se, oldT, newT))
  {
    hide L.Start, L.ReloadOk, L.Plan, C.Kept, L.ServeAll, L.Converged, L.Changed, PlanSize, L.Entry;
    var plan := L.Plan(oldT, newT, newOrder, oldOrder, seqNo);
    PlanHasSize(oldT, newT, newOrder, oldOrder, seqNo);
    forall n | n in newT && !L.Changed(oldT, newT, n)
      ensures L.Entry(L.ServeAll(cfg, was, se, C.Taken(plan, takes, from)), se, n) == L.Entry(was, se, n)
    {
      UnchangedKept(cfg, was, se, oldT, newT, newOrder, oldOrder, seqNo, takes, from, n);
    }
    if L.ReloadOk(cfg, was, se, oldT, newT) && forall i :: from <= i < from + PlanSize(oldT, newT) ==> takes(i) {
      C.TakenAll(plan, takes, from);
      L.LoneReloadConverges(cfg, was, se, oldT, newT, newOrder, oldOrder, seqNo);
    }
  }

  lemma UnchangedKept(cfg: R.Settings, was: R.State, se: R.SessionId, oldT: L.Table, newT: L.Table,
                      newOrder: seq<string>, oldOrder: seq<string>, seqNo: int, takes: nat -> bool, from: nat, n: string)
    requires L.Start(cfg, was, se, oldT, newT)
    requires L.OrderOf(newOrder, newT) && L.OrderOf(oldOrder, oldT)
    requires n in newT && !L.Changed(oldT, newT, n)
    ensures var st := L.ServeAll(cfg, was, se, C.Taken(L.Plan(oldT, newT, newOrder, oldOrder, seqNo), takes, from));
      L.Entry(st, se, n) == L.Entry(was, se, n)
  {
    hide L.Plan, C.Kept, L.ServeAll, L.Changed, L.Entry, RL.Run, L.Interleaved, R.Inv;
    var plan := L.Plan(oldT, newT, newOrder, oldOrder, seqNo);
    var fates := C.Fates(takes, from, |plan|);
    var sent := C.Kept(plan, fates);
    L.ServedIsRun(cfg, was, se, sent);
    assert sent[..|sent|] == sent;
    CL.LossesSpareUnchanged(cfg, was, se, oldT, newT, newOrder, oldOrder, seqNo, fates, |sent|, L.EventsOf(se, sent), n);
  }

  /** When every message of a plan is taken by the writer and handled, the registry ends as
      the convergence theorem says. */
  lemma DeliveredConverges(cfg: R.Settings, was: R.State, se: R.SessionId, oldT: L.Table, newT: L.Table,
                           newOrder: seq<string>, oldOrder: seq<string>, seqNo: int, takes: nat -> bool, from: nat)
    requires L.Start(cfg, was, se, oldT, newT) && L.ReloadOk(cfg, was, se, oldT, newT)
    requires L.OrderOf(newOrder, newT) && L.OrderOf(oldOrder, oldT)
    requires forall i :: from <= i < from + PlanSize(oldT, newT) ==> takes(i)
    ensures var msgs := T.Delivered(C.Taken(L.Plan(oldT, newT, newOrder, oldOrder, seqNo), takes, from));
      L.Converged(was, T.AfterAll(cfg, was, se, T.Read(msgs)), se, oldT, newT)
  {
    hide L.Start, L.ReloadOk, L.Plan, C.Taken, T.AfterAll, T.Read, T.Delivered, L.ServeAll, L.Converged, PlanSize;
    var plan := L.Plan(oldT, newT, newOrder, oldOrder, seqNo);
    T.ServesReload(cfg, was, se, C.Taken(plan, takes, from));
    TakenConverges(cfg, was, se, oldT, newT, newOrder, oldOrder, seqNo, takes, from);
  }

  /** The client reloads, and the server's reader serves what its writer took, every bind
      and every answer succeeding. Every message of the plan was offered to the writer. Names
      that did not change keep their proxies whatever it refused; if it takes them all, the
      server ends with exactly the new table, whatever orders the two maps were walked in. */
  method ReloadThrough(c: C.Client, s: S.Server, se: S.Session, ps: seq<L.ProxyConfig>)
    requires c.Valid() && c.connected && s.Valid() && s.Known(se)
    requires L.Start(s.cfg, s.Abs(), se.id, c.table, C.TableOf(ps))
    modifies c, s, se, set n | n in se.proxies :: se.proxies[n]
    ensures c.Valid() && s.Valid() && s.Known(se) && c.table == C.TableOf(ps)
    ensures c.offers == old(c.offers) + PlanSize(old(c.table), c.table)
    ensures forall n :: n in c.table && !L.Changed(old(c.table), c.table, n) ==>
              L.Entry(s.Abs(), se.id, n) == old(L.Entry(s.Abs(), se.id, n))
    ensures old(L.ReloadOk(s.cfg, s.Abs(), se.id, c.table, C.TableOf(ps)))
            && (forall i :: old(c.offers) <= i < c.offers ==> c.takes(i)) ==>
              L.Converged(old(s.Abs()), s.Abs(), se.id, old(c.table), c.table)
  {
    hide L.Start, L.ReloadOk, L.Converged, L.Plan, C.Taken, T.AfterAll, T.Read, T.Delivered, T.Replies, L.Changed, PlanSize,
         L.ServeAll, L.Entry, S.Server.Valid, S.Server.Abs, S.Server.Wired, S.Server.Known;
    ghost var was, oldT, seqNo, from := s.Abs(), c.table, c.reqSeq, c.offers;
    var handed := |c.outbox|;
    ghost var newOrder, oldOrder := c.Reload(Some(ps));
    var sent := c.outbox[handed..];
    assert sent == C.Taken(L.Plan(oldT, c.table, newOrder, oldOrder, seqNo), c.takes, from);
    var out := T.ServeMessages(s, se, T.Delivered(sent));
    T.ServesReload(s.cfg, was, se.id, sent);
    PlanHasSize(oldT, c.table, newOrder, oldOrder, seqNo);
    TakenConverges(s.cfg, was, se.id, oldT, c.table, newOrder, oldOrder, seqNo, c.takes, from);
  }

  // ---- A reconnection ----

  /** Over the client's login the server drops precisely its old session. */
  lemma LoginDrops(s: S.Server, a: R.SessionId)
    requires s.Valid() && CL.OnlySession(s.Abs(), a) && a.client != ""
    ensures s.LoggedIn(a.client, true, true) == R.Drop(R.Login(s.Abs(), a.client), a)
    ensures s.Abs().nextSid == s.nextSid && R.SessionId(s.nextSid, a.client) != a
  {
    hide R.Login, R.Drop, S.Server.Wired, R.Indexed, R.ProxiesSound;
  }

  lemma {:induction false} DistinctNames(order: seq<string>)
    requires L.NoDup(order)
    ensures |Names(order)| == |order|
    decreases |order|
  {
    hide L.NoDup;
    if order != [] {
      NamesFrom(order);
      DistinctNames(order[1..]);
    }
  }

  lemma OrderSize(t: L.Table, order: seq<string>)
    requires L.OrderOf(order, t)
    ensures |order| == |t| && forall n :: n in order ==> n in t
  {
    DistinctNames(order);
    NamesOfOrder(order, t);
  }

  lemma ServerSound(s: S.Server)
    requires s.Valid()
    ensures AllValid(s.cfg.ranges) && R.Inv(s.cfg, s.Abs())
  {}

  /** What the server's reader leaves when the registrations of a table are all it reads. */
  lemma Restored(cfg: R.Settings, st: R.State, a: R.SessionId, t: L.Table, order: seq<string>, seqNo: int)
    requires AllValid(cfg.ranges) && R.Inv(cfg, st) && RL.NoOrphans(st) && CL.OnlySession(st, a) && a.client != ""
    requires L.Holds(st, a, t) && L.WellNamed(t) && L.OrderOf(order, t) && forall n :: n in order ==> n in t
    requires A.AutomaticOk(cfg, R.Drop(R.Login(st, a.client), a).byPort.Keys, st.owned[a], t)
    ensures var se := R.SessionId(st.nextSid, a.client);
      var read := T.Read(T.Delivered(C.Registrations(t, order, seqNo)));
      var fin := T.AfterAll(cfg, R.Drop(R.Login(st, a.client), a), se, read);
      A.SameAddresses(fin, st, a.client) && L.Holds(fin, se, t)
  {
    hide R.Inv, RL.NoOrphans, CL.OnlySession, R.Login, R.Drop, L.ServeAll, A.AutomaticOk, N.Replacing, L.Fulfils, C.Registrations,
         N.PortNames, N.HostNames, L.OrderOf, T.Read, T.AfterAll, T.Delivered;
    var st', se := R.Login(st, a.client), R.SessionId(st.nextSid, a.client);
    CL.LoginStartsReplacing(cfg, st, a);
    CL.GoneClient(st', a, se);
    A.AutomaticOkRestores(cfg, st', a, se, t, order, seqNo);
    A.SameViewsOf(st, st', a.client);
    T.ServesReload(cfg, R.Drop(st', a), se, C.Registrations(t, order, seqNo));
  }

  /** A client whose only session holds exactly its table logs in anew, and the server
      drops the old session and reads what the client's writer takes of the registrations
      that follow, every bind and every answer succeeding. If automatic ports, where the
      table has any, are the allocator's first choice, and the writer takes all of them,
      the client's addresses lead to the same names as before, and its new session holds
      exactly the table, whatever order the table was walked in. */
  method ReconnectThrough(c: C.Client, s: S.Server, client: string, ghost a: R.SessionId) returns (se: S.Session)
    requires c.Valid() && s.Valid() && a.client == client != ""
    requires RL.NoOrphans(s.Abs()) && CL.OnlySession(s.Abs(), a)
    requires L.Holds(s.Abs(), a, c.table) && L.WellNamed(c.table)
    requires A.AutomaticOk(s.cfg, R.Drop(R.Login(s.Abs(), client), a).byPort.Keys, s.Abs().owned[a], c.table)
    requires forall i :: c.offers <= i < c.offers + |c.table| ==> c.takes(i)
    modifies c, s, if client in s.sessions then {s.sessions[client]} else {},
             set n | client in s.sessions && n in s.sessions[client].proxies :: s.sessions[client].proxies[n]
    ensures c.Valid() && c.connected && s.Valid() && s.Known(se) && fresh(se) && se.id.client == client && se.id != a
    ensures c.table == old(c.table) && c.offers == old(c.offers) + |c.table|
    ensures A.SameAddresses(s.Abs(), old(s.Abs()), client) && L.Holds(s.Abs(), se.id, c.table)
  {
    hide L.Holds, A.AutomaticOk, A.SameAddresses, C.Taken, T.AfterAll, T.Read, T.Delivered, T.Replies, RL.NoOrphans,
         CL.OnlySession, R.Login, R.Drop, R.Inv, L.ServeAll, C.Registrations, L.OrderOf,
         S.Server.Valid, S.Server.Abs, S.Server.Wired, S.Server.Known, S.Server.LoggedIn;
    ghost var was := s.Abs();
    ServerSound(s);
    se := LoginAgain(s, client, a);
    ghost var seqNo := c.reqSeq;
    ghost var order := RegisterAgain(c);
    var out := T.ServeMessages(s, se, T.Delivered(c.outbox));
    Restored(s.cfg, was, a, c.table, order, seqNo);
  }

  /** The server's side: the new session, and the drop of the old one. */
  method LoginAgain(s: S.Server, client: string, ghost a: R.SessionId) returns (se: S.Session)
    requires s.Valid() && a.client == client != "" && CL.OnlySession(s.Abs(), a)
    modifies s, if client in s.sessions then {s.sessions[client]} else {},
             set n | client in s.sessions && n in s.sessions[client].proxies :: s.sessions[client].proxies[n]
    ensures s.Valid() && s.Known(se) && fresh(se) && se.proxies == map[]
    ensures se.id == R.SessionId(old(s.Abs()).nextSid, client) != a
    ensures s.Abs() == R.Drop(R.Login(old(s.Abs()), client), a)
  {
    hide CL.OnlySession, R.Login, R.Drop, RL.LoginLeaves, S.Queued,
         S.Server.Valid, S.Server.Abs, S.Server.Wired, S.Server.Known, S.Server.LoggedIn;
    LoginDrops(s, a);
    var found := s.Login(client, true, true);
    se := found.value;
  }

  /** The client's side: a new control stream whose writer takes all registrations. */
  method RegisterAgain(c: C.Client) returns (ghost order: seq<string>)
    requires c.Valid() && forall i :: c.offers <= i < c.offers + |c.table| ==> c.takes(i)
    modifies c
    ensures c.Valid() && c.connected && c.table == old(c.table) && c.offers == old(c.offers) + |c.table|
    ensures L.OrderOf(order, c.table) && forall n :: n in order ==> n in c.table
    ensures c.outbox == C.Registrations(c.table, order, old(c.reqSeq))
  {
    hide C.Taken, C.Registrations, L.OrderOf;
    c.Connect();
    ghost var seqNo, from := c.reqSeq, c.offers;
    order := c.RegisterAll();
    OrderSize(c.table, order);
    C.TakenAll(C.Registrations(c.table, order, seqNo), c.takes, from);
  }
}
