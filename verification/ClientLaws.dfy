/** The client and the server together: what the messages of a reload and of a
    reconnection do to the registry, with and without losses. */
module ClientLaws {
  import opened Wrappers
  import opened Config
  import opened Registry
  import opened RegistryLaws
  import opened Reload
  import opened ReloadExact
  import opened Reconnect
  import opened Client

  // ---- A reload some of whose messages were refused ----

  /** Whichever messages were refused, however far the server got, whatever the session
      held before and whatever others did in between, an unchanged name keeps its entry. */
  lemma LossesSpareUnchanged(cfg: Settings, was: State, se: SessionId, oldT: Table, newT: Table,
                             newOrder: seq<string>, oldOrder: seq<string>, seqNo: int, fates: seq<bool>, k: nat,
                             events: seq<Event>, n: string)
    requires AllValid(cfg.ranges) && Inv(cfg, was) && se in was.owned
    requires WellNamed(newT) && forall m :: m in newOrder ==> m in newT
    requires |fates| == |Plan(oldT, newT, newOrder, oldOrder, seqNo)|
    requires k <= |Kept(Plan(oldT, newT, newOrder, oldOrder, seqNo), fates)|
    requires Interleaved(se, events, Kept(Plan(oldT, newT, newOrder, oldOrder, seqNo), fates)[..k])
    requires n in newT && !Changed(oldT, newT, n)
    ensures var st := Run(cfg, was, events);
      Entry(st, se, n) == Entry(was, se, n) && (Entry(st, se, n).Some? ==> Live(st, Entry(st, se, n).value))
  {
    hide Inv, ProxyEqual, Plan, Live, Kept, Interleaved, Run;
    var plan := Plan(oldT, newT, newOrder, oldOrder, seqNo);
    var sent := Kept(plan, fates);
    forall m | m in sent[..k] ensures m in plan {
      assert m in sent;
      KeptFrom(plan, fates, m);
    }
    UnchangedNeverTouched(cfg, was, se, oldT, newT, newOrder, oldOrder, seqNo, events, sent[..k], n);
  }

  /** A removed name is free after a reload exactly when its close got through or it was
      free before; when the busy writer refused the close, the very same proxy stays. */
  lemma RemovedExactly(cfg: Settings, was: State, se: SessionId, oldT: Table, newT: Table,
                       newOrder: seq<string>, oldOrder: seq<string>, seqNo: int, fates: seq<bool>,
                       events: seq<Event>, n: string)
    requires AllValid(cfg.ranges) && Inv(cfg, was) && se in was.owned
    requires WellNamed(newT) && forall m :: m in newOrder ==> m in newT
    requires |fates| == |Plan(oldT, newT, newOrder, oldOrder, seqNo)|
    requires Interleaved(se, events, Kept(Plan(oldT, newT, newOrder, oldOrder, seqNo), fates))
    requires n !in newT
    ensures Entry(Run(cfg, was, events), se, n) ==
            if CloseMsg(n) in Kept(Plan(oldT, newT, newOrder, oldOrder, seqNo), fates) then None else Entry(was, se, n)
  {
    hide Inv, ProxyEqual, Updates, Closes, NameOf, Kept, Interleaved, Run;
    var plan := Plan(oldT, newT, newOrder, oldOrder, seqNo);
    var sent := Kept(plan, fates);
    forall m | m in sent && NameOf(m) == n ensures m == CloseMsg(n) {
      KeptFrom(plan, fates, m);
      if m in Updates(oldT, newT, newOrder, seqNo) {
        UpdateNames(oldT, newT, newOrder, seqNo, m);
        assert false;
      } else {
        CloseOnly(newT, oldOrder, m);
      }
    }
    OnlyClosed(cfg, was, se, events, sent, n);
  }

  // ---- A reconnection, end to end ----

  lemma LastRegistration(se: SessionId, t: Table, order: seq<string>, seqNo: int)
    requires order != [] && forall n :: n in order ==> n in t
    ensures var k := |order| - 1;
      var np := Request(t[order[k]], seqNo + 1 + k);
      && Registrations(t, order, seqNo) == Registrations(t, order[..k], seqNo) + [RegisterMsg(np)]
      && EventsOf(se, Registrations(t, order, seqNo)) ==
         EventsOf(se, Registrations(t, order[..k], seqNo)) + [RegisterEv(se, np, true)]
  {
    var k := |order| - 1;
    var m := RegisterMsg(Request(t[order[k]], seqNo + 1 + k));
    assert Registrations(t, order, seqNo) == Registrations(t, order[..k], seqNo) + [m];
    EventsSnoc(se, Registrations(t, order[..k], seqNo), m);
  }

  lemma ResendOf(held: Held, se: SessionId, c: ProxyConfig, reqId: int)
    requires c.name in held && SameConfig(held[c.name], Request(c, 0))
    ensures Resend(held, se, RegisterEv(se, Request(c, reqId), true))
  {}

  lemma ReconnectingSnoc(cfg: Settings, st: State, held: Held, se: SessionId, init: seq<Event>, e: Event)
    requires Reconnecting(cfg, st, held, se, init) && Resend(held, se, e)
    ensures Reconnecting(cfg, st, held, se, init + [e])
  {
    hide Run, Clear, Foreign, Resend;
    assert (init + [e])[..|init|] == init;
  }

  lemma {:induction false} StepsReconnect(cfg: Settings, st: State, held: Held, se: SessionId, t: Table,
                                          order: seq<string>, seqNo: int)
    requires forall n :: n in order ==> n in t && n in held
    requires forall n :: n in order ==> t[n].name == n && SameConfig(held[n], Request(t[n], 0))
    ensures Reconnecting(cfg, st, held, se, EventsOf(se, Registrations(t, order, seqNo)))
    decreases |order|
  {
    hide SameConfig, Resend;
    if order == [] {
      assert EventsOf(se, Registrations(t, order, seqNo)) == [];
    } else {
      var k := |order| - 1;
      LastRegistration(se, t, order, seqNo);
      assert order[k] in order;
      hide EventsOf, Registrations, Reconnecting;
      StepsReconnect(cfg, st, held, se, t, order[..k], seqNo);
      ResendOf(held, se, t[order[k]], seqNo + 1 + k);
      ReconnectingSnoc(cfg, st, held, se, EventsOf(se, Registrations(t, order[..k], seqNo)),
                       RegisterEv(se, Request(t[order[k]], seqNo + 1 + k), true));
    }
  }

  lemma StepsCover(held: Held, se: SessionId, t: Table, order: seq<string>, seqNo: int)
    requires OrderOf(order, t) && t.Keys == held.Keys && WellNamed(t)
    ensures Resent(held, se, EventsOf(se, Registrations(t, order, seqNo))) == held.Keys
  {
    var events := EventsOf(se, Registrations(t, order, seqNo));
    forall n | n in held ensures n in Resent(held, se, events) {
      assert n in t && n in order;
      var i :| 0 <= i < |order| && order[i] == n;
      assert events[i] in events && events[i].np.name == n;
    }
  }

  /** The session holds exactly this table, every entry in a form that a repeated
      registration recognises. */
  ghost predicate HoldsAsAsked(st: State, se: SessionId, t: Table) {
    && se in st.owned
    && st.owned[se].Keys == t.Keys
    && forall n :: n in t ==> SameConfig(st.owned[se][n], Request(t[n], 0))
  }

  /** Reconnecting keeps the addresses. Take any reachable moment at which a client's
      other session is about to be dropped while the server holds exactly the client's
      table, and the table names every port. Drop it and let the client register its table
      again, in any order: its ports and hosts lead to the same names as before, and the
      new session holds exactly the table. */
  lemma ExplicitReconnect(cfg: Settings, st: State, gone: SessionId, se: SessionId, t: Table,
                          order: seq<string>, seqNo: int)
    requires AllValid(cfg.ranges) && Inv(cfg, st) && Replacing(st, gone, se)
    requires HoldsAsAsked(st, gone, t) && WellNamed(t) && OrderOf(order, t)
    ensures var fin := ServeAll(cfg, Drop(st, gone), se, Registrations(t, order, seqNo));
      && PortNames(fin, se.client) == PortNames(st, se.client)
      && HostNames(fin, se.client) == HostNames(st, se.client)
      && HoldsAsAsked(fin, se, t)
  {
    hide Inv, Drop, Reconnecting, Resent, Run, ServeAll, PortNames, HostNames, Replacing, SameConfig, Registrations;
    var held := st.owned[gone];
    var events := EventsOf(se, Registrations(t, order, seqNo));
    ServedIsRun(cfg, Drop(st, gone), se, Registrations(t, order, seqNo));
    StepsReconnect(cfg, Drop(st, gone), held, se, t, order, seqNo);
    StepsCover(held, se, t, order, seqNo);
    ReconnectIsStable(cfg, st, gone, se, events);
    RestoredAsAsked(cfg, st, gone, se, t, events);
  }

  lemma RestoredAsAsked(cfg: Settings, st: State, gone: SessionId, se: SessionId, t: Table, events: seq<Event>)
    requires AllValid(cfg.ranges) && Inv(cfg, st) && Replacing(st, gone, se) && HoldsAsAsked(st, gone, t)
    requires Reconnecting(cfg, Drop(st, gone), st.owned[gone], se, events)
    requires Resent(st.owned[gone], se, events) == st.owned[gone].Keys
    ensures HoldsAsAsked(Run(cfg, Drop(st, gone), events), se, t)
  {
    hide Inv, Reconnecting, Resent, Run, Drop, Coherent, Clear, Replacing;
    var held := st.owned[gone];
    HeldCoherent(cfg, st, gone);
    GoneClient(st, gone, se);
    DropStartsRestoring(cfg, st, gone, se);
    ReconnectRestores(cfg, Drop(st, gone), held, se, events);
  }

  lemma GoneClient(st: State, gone: SessionId, se: SessionId)
    requires Replacing(st, gone, se)
    ensures gone in st.owned && gone.client == se.client
  {}

  /** No session of the client but `a` has anything to be dropped. */
  ghost predicate OnlySession(st: State, a: SessionId) {
    Current(st, a) && forall s :: PendingDrop(st, s) ==> s.client != a.client
  }

  lemma OthersEmpty(cfg: Settings, st: State, a: SessionId, s: SessionId)
    requires Inv(cfg, st) && NoOrphans(st) && OnlySession(st, a)
    requires s in st.owned && s.client == a.client && s != a
    ensures st.owned[s] == map[]
  {
    hide Key, Live, PortsAgree, HostsAgree, ProxiesSound;
    if n :| n in st.owned[s] {
      OwnedIsLive(st, s, n);
      assert false;
    }
  }

  lemma LoginStartsReplacing(cfg: Settings, st: State, a: SessionId)
    requires AllValid(cfg.ranges) && Inv(cfg, st) && NoOrphans(st) && OnlySession(st, a) && a.client != ""
    ensures var st', se := Login(st, a.client), SessionId(st.nextSid, a.client);
      && Inv(cfg, st') && Replacing(st', a, se) && st'.owned[a] == st.owned[a]
      && st'.byPort == st.byPort && st'.vhost == st.vhost
  {
    hide Key, Live, OwnersAgree, PortsAgree, HostsAgree, ProxiesSound, NoOrphans, OnlySession;
    var st', se := Login(st, a.client), SessionId(st.nextSid, a.client);
    LoginKeepsInv(cfg, st, a.client);
    LoginSessionIsNew(st, a.client);
    OnlyIsCurrent(st, a);
    CurrentIsUndropped(st, a);
    UndroppedIfNew(st, se);
    forall s | s in st'.owned && s.client == se.client && s != a ensures st'.owned[s] == map[] {
      if s != se {
        OthersEmpty(cfg, st, a, s);
      }
    }
  }

  lemma OnlyIsCurrent(st: State, a: SessionId)
    requires OnlySession(st, a)
    ensures Current(st, a)
  {}

  /** The premises are met from the start: on a server nobody has used, any client that
      logs in and registers any one proxy the server accepts is granted it, and is then a
      client whose only session holds exactly its table. */
  lemma FirstRegistration(cfg: Settings, client: string, c: ProxyConfig, reqId: int)
    requires AllValid(cfg.ranges) && client != "" && Requestable(cfg, c) && (Automatic(c) ==> cfg.ranges != [])
    ensures var se := SessionId(0, client);
      var events := [LoginEv(client), RegisterEv(se, Request(c, reqId), true)];
      var st := Run(cfg, INITIAL, events);
      && GuardedRun(cfg, INITIAL, events)
      && Inv(cfg, st) && OnlySession(st, se) && Holds(st, se, map[c.name := c])
  {
    hide Inv, Register, Candidate, Requestable, Fulfils, Fits, WellFormed, Login, Key, PortNames, HostNames;
    var se, np := SessionId(0, client), Request(c, reqId);
    var login := [LoginEv(client)];
    var events := login + [RegisterEv(se, np, true)];
    assert login[..0] == [] && events[..1] == login;
    assert events == [LoginEv(client), RegisterEv(se, np, true)];
    AfterFirstLogin(client);
    RunKeepsInv(cfg, login);
    RunKeepsInv(cfg, events);
    FirstFits(cfg, client, c, reqId);
    assert Run(cfg, INITIAL, login) == Login(Run(cfg, INITIAL, []), client);
    assert GuardedRun(cfg, INITIAL, []) && GuardedRun(cfg, INITIAL, login);
    assert Guarded(Run(cfg, INITIAL, login), events[1]);
    assert Run(cfg, INITIAL, events) == Register(cfg, Run(cfg, INITIAL, login), se, np, true).0;
  }

  lemma AfterFirstLogin(client: string)
    requires client != ""
    ensures Login(INITIAL, client) == State(map[client := SessionId(0, client)], map[SessionId(0, client) := map[]],
                                            map[], map[], map[], {}, {}, 1, 0)
  {}

  /** The allocator finds a port when none is taken. */
  lemma FirstPort(cfg: Settings)
    requires AllValid(cfg.ranges) && cfg.ranges != []
    ensures var port := FirstFree(ScanOrder(cfg.ranges), {}); port != 0 && Allowed(cfg.ranges, port)
  {
    var port := ScanOrder(cfg.ranges)[0];
    assert port == cfg.ranges[0].min;
    ScanMembers(cfg.ranges, port);
    ScanMembers(cfg.ranges, 0);
  }

  lemma FirstFits(cfg: Settings, client: string, c: ProxyConfig, reqId: int)
    requires AllValid(cfg.ranges) && client != "" && Requestable(cfg, c) && (Automatic(c) ==> cfg.ranges != [])
    ensures var se := SessionId(0, client);
      var np := Request(c, reqId);
      var st := Register(cfg, Login(INITIAL, client), se, np, true).0;
      && st.sessions == map[client := se] && st.dropped == {}
      && st.owned.Keys == {se} && st.owned[se].Keys == {c.name}
      && Fulfils(st.owned[se][c.name], c)
  {
    hide Register, Candidate, Requestable, Fulfils, WellFormed, Key, FirstFree, ScanOrder, Allowed, ClaimedHosts;
    var se, np := SessionId(0, client), Request(c, reqId);
    AfterFirstLogin(client);
    var st := Login(INITIAL, client);
    CandidateHolds(cfg, st, se, c, reqId);
    if Automatic(c) {
      FirstPort(cfg);
      assert st.byPort.Keys == {};
    }
    RegisterFresh(cfg, st, se, np, true);
    assert Fits(cfg, st, Candidate(cfg, st, se, np));
  }
}
