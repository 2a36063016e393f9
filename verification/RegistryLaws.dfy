/** Laws of the registry over single steps and over whole runs. */
module RegistryLaws {
  import opened Wrappers
  import opened Config
  import opened Hosts
  import opened Registry

  // ---- Runs: every interleaving of critical sections ----

  datatype Event =
    | LoginEv(client: string)
    | DropEv(se: SessionId)
    | RegisterEv(se: SessionId, np: NewProxy, bindOk: bool)
    | CloseEv(se: SessionId, name: string)

  /** One critical section. Registration and closing come from a session that exists;
      nothing stops a dropped session from registering. */
  function Step(cfg: Settings, st: State, e: Event): State {
    match e
    case LoginEv(client) => Login(st, client)
    case DropEv(se) => Drop(st, se)
    case RegisterEv(se, np, bindOk) => if se in st.owned then Register(cfg, st, se, np, bindOk).0 else st
    case CloseEv(se, name) => Close(st, se, name)
  }

  function Run(cfg: Settings, st: State, events: seq<Event>): State
    decreases |events|
  {
    if events == [] then st else Step(cfg, Run(cfg, st, events[..|events| - 1]), events[|events| - 1])
  }

  lemma StepKeepsInv(cfg: Settings, st: State, e: Event)
    requires AllValid(cfg.ranges) && Inv(cfg, st)
    ensures Inv(cfg, Step(cfg, st, e))
  {
    hide ProxiesSound, SessionsSound;
    match e {
      case LoginEv(client) => LoginKeepsInv(cfg, st, client);
      case DropEv(se) => DropKeepsInv(cfg, st, se);
      case RegisterEv(se, np, bindOk) =>
        if se in st.owned {
          RegisterKeepsInv(cfg, st, se, np, bindOk);
        }
      case CloseEv(se, name) => CloseKeepsInv(cfg, st, se, name);
    }
  }

  lemma {:induction false} LaterRunKeepsInv(cfg: Settings, st: State, events: seq<Event>)
    requires AllValid(cfg.ranges) && Inv(cfg, st)
    ensures Inv(cfg, Run(cfg, st, events))
    decreases |events|
  {
    hide Inv, Step;
    if events != [] {
      LaterRunKeepsInv(cfg, st, events[..|events| - 1]);
      StepKeepsInv(cfg, Run(cfg, st, events[..|events| - 1]), events[|events| - 1]);
    }
  }

  /** The registry invariant holds after every run, whatever the interleaving of
      logins, late drops, registrations and closes. */
  lemma RunKeepsInv(cfg: Settings, events: seq<Event>)
    requires AllValid(cfg.ranges)
    ensures Inv(cfg, Run(cfg, INITIAL, events))
  {
    hide Run;
    LaterRunKeepsInv(cfg, INITIAL, events);
  }

  // ---- Registration and removal undo each other ----

  lemma FreshNameUnowned(cfg: Settings, st: State, se: SessionId, name: string)
    requires Inv(cfg, st) && se in st.owned && Key(se.client, name) !in st.proxies
    ensures name !in st.owned[se]
  {
    hide Key, PortsAgree, HostsAgree, SessionsSound;
    if name in st.owned[se] {
      OwnedIsLive(st, se, name);
    }
  }

  lemma InsertThenRemove(st: State, p: Proxy)
    requires p.session in st.owned && KeyOf(p) !in st.proxies && p.name !in st.owned[p.session]
    requires p.remotePort !in st.byPort && p.remotePort !in st.listening && forall h :: h in p.hosts ==> h !in st.vhost
    ensures Remove(Insert(st, p), p) == st.(nextPid := st.nextPid + 1)
  {
    hide Key, KeyOf;
    var st' := Remove(Insert(st, p), p);
    InsertThenRemoveTables(st, p);
    assert st'.proxies == st.proxies;
    assert st'.byPort == st.byPort;
    assert st'.vhost == st.vhost;
    assert st'.listening == st.listening;
  }

  lemma InsertThenRemoveTables(st: State, p: Proxy)
    requires p.session in st.owned && p.name !in st.owned[p.session]
    ensures Remove(Insert(st, p), p).owned == st.owned
  {
    hide Key, KeyOf;
    var st' := Remove(Insert(st, p), p);
    assert st'.owned[p.session] == st.owned[p.session];
  }

  /** A fresh successful registration followed by a close restores every table. */
  lemma RegisterThenClose(cfg: Settings, st: State, se: SessionId, np: NewProxy, bindOk: bool)
    requires AllValid(cfg.ranges) && Inv(cfg, st) && se in st.owned
    requires Key(se.client, np.name) !in st.proxies
    requires Register(cfg, st, se, np, bindOk).1.ok
    ensures Close(Register(cfg, st, se, np, bindOk).0, se, np.name) == st.(nextPid := st.nextPid + 1)
  {
    hide Key, Live, WellFormed, OwnersAgree, HostsAgree, ProxiesSound, SessionsSound, Register;
    RegisterFresh(cfg, st, se, np, bindOk);
    FreshNameUnowned(cfg, st, se, np.name);
    InsertThenRemove(st, Candidate(cfg, st, se, np));
  }

  /** Closing the proxies of one session in a given order of names. */
  function CloseAll(st: State, se: SessionId, names: seq<string>): State
    decreases |names|
  {
    if names == [] then st
    else Close(CloseAll(st, se, names[..|names| - 1]), se, names[|names| - 1])
  }

  lemma {:induction false} CloseAllOwned(cfg: Settings, st: State, se: SessionId, names: seq<string>)
    requires Inv(cfg, st) && se in st.owned
    ensures Inv(cfg, CloseAll(st, se, names))
    ensures CloseAll(st, se, names).owned == st.owned[se := st.owned[se] - (set n | n in names)]
    ensures CloseAll(st, se, names).sessions == st.sessions && CloseAll(st, se, names).dropped == st.dropped
    ensures CloseAll(st, se, names).nextSid == st.nextSid && CloseAll(st, se, names).nextPid == st.nextPid
    decreases |names|
  {
    hide Key, Live, OwnersAgree, PortsAgree, HostsAgree, ProxiesSound, SessionsSound;
    if names == [] {
      assert st.owned[se] - (set n | n in names) == st.owned[se];
      assert st.owned[se := st.owned[se]] == st.owned;
    } else {
      var init, last := names[..|names| - 1], names[|names| - 1];
      CloseAllOwned(cfg, st, se, init);
      var mid := CloseAll(st, se, init);
      CloseKeepsInv(cfg, mid, se, last);
      CloseTables(mid, se, last);
      assert (set n | n in names) == (set n | n in init) + {last};
      assert mid.owned[se] - {last} == st.owned[se] - (set n | n in names);
    }
  }

  /** Removal is confluent: closing all proxies of a session one by one, in any order
      and with any repetition, leaves exactly the indexes that dropping it leaves. */
  lemma DropIsAnyOrderOfCloses(cfg: Settings, st: State, se: SessionId, names: seq<string>)
    requires Inv(cfg, st) && se in st.owned && se !in st.dropped
    requires forall n :: n in st.owned[se] ==> n in names
    ensures var closed := CloseAll(st, se, names);
      Drop(st, se) == closed.(
        sessions := if CurrentIn(st.sessions, se) then st.sessions - {se.client} else st.sessions,
        dropped := st.dropped + {se})
  {
    hide Key, Live, OwnersAgree, PortsAgree, HostsAgree, ProxiesSound, SessionsSound;
    CloseAllOwned(cfg, st, se, names);
    DropKeepsInv(cfg, st, se);
    assert st.owned[se] - (set n | n in names) == map[];
    OwnedDetermines(CloseAll(st, se, names), Drop(st, se));
  }

  // ---- Replacing sessions ----

  predicate Current(st: State, se: SessionId) {
    CurrentIn(st.sessions, se)
  }

  /** Replaced, but its drop has not run yet. */
  predicate PendingDrop(st: State, se: SessionId) {
    se in st.owned && se !in st.dropped && !Current(st, se)
  }

  /** The late drop of a replaced session evicts neither its successor nor any proxy of
      another session. */
  lemma LateDropSparesOthers(cfg: Settings, st: State, was: SessionId)
    requires Inv(cfg, st) && PendingDrop(st, was)
    ensures var st' := Drop(st, was);
      && st'.sessions == st.sessions
      && (forall se :: se in st.owned && se != was ==> st'.owned[se] == st.owned[se])
      && (forall p :: Live(st, p) && p.session != was ==> Live(st', p))
      && (forall q :: q in st.byPort && st.byPort[q].session != was ==> q in st'.byPort && st'.byPort[q] == st.byPort[q])
      && (forall h :: h in st.vhost && st.vhost[h].session != was ==> h in st'.vhost && st'.vhost[h] == st.vhost[h])
  {
    hide Key, OwnersAgree, PortsAgree, HostsAgree, ProxiesSound, SessionsSound;
    DropKeepsInv(cfg, st, was);
  }

  /** What an accepted login of `client` leaves of `st`: precisely the proxies of the session
      it replaces, if any, are gone; the other clients' sessions are as they were; the new
      session has nothing, and is the client's current one unless the answer could not be
      written, in which case it is dropped and the client has none. */
  ghost predicate LoginLeaves(st: State, st': State, client: string, answered: bool) {
    var se := SessionId(st.nextSid, client);
    && (forall p :: Live(st', p) <==> Live(st, p) && !(client in st.sessions && p.session == st.sessions[client]))
    && (forall c :: c != client ==> (c in st'.sessions <==> c in st.sessions))
    && (forall c :: c != client && c in st.sessions ==> st'.sessions[c] == st.sessions[c])
    && (client in st'.sessions <==> answered) && (answered ==> st'.sessions[client] == se)
    && se in st'.owned && st'.owned[se] == map[] && (se in st'.dropped <==> !answered)
    && (client in st.sessions ==> st.sessions[client] in st'.dropped)
  }

  /** The swap, the drop of the replaced session, and the drop of the new one if it could
      not be told. */
  lemma SwapAndDrops(cfg: Settings, st: State, client: string)
    requires Inv(cfg, st) && client != ""
    ensures var swapped := Login(st, client);
      var st' := if client in st.sessions then Drop(swapped, st.sessions[client]) else swapped;
      && LoginLeaves(st, st', client, true)
      && LoginLeaves(st, Drop(st', SessionId(st.nextSid, client)), client, false)
  {
    hide Inv, Live, LoginLeaves, Login, Drop;
    var swapped, se := Login(st, client), SessionId(st.nextSid, client);
    LoginKeepsInv(cfg, st, client);
    SwapLeaves(cfg, st, client);
    var st' := if client in st.sessions then Drop(swapped, st.sessions[client]) else swapped;
    if client in st.sessions {
      DropKeepsInv(cfg, swapped, st.sessions[client]);
    }
    NewSessionDropped(cfg, st, st', client);
  }

  lemma SwapLeaves(cfg: Settings, st: State, client: string)
    requires Inv(cfg, st) && client != ""
    ensures LoginLeaves(st, if client in st.sessions then Drop(Login(st, client), st.sessions[client]) else Login(st, client),
                        client, true)
  {
    hide Key, Live, OwnersAgree, PortsAgree, HostsAgree, ProxiesSound, Without, WithoutPorts;
    LoginSessionIsNew(st, client);
    UndroppedIfNew(st, SessionId(st.nextSid, client));
    LoginKeepsInv(cfg, st, client);
    if client in st.sessions {
      DropKeepsInv(cfg, Login(st, client), st.sessions[client]);
    }
  }

  lemma NewSessionDropped(cfg: Settings, st: State, st': State, client: string)
    requires Inv(cfg, st) && Inv(cfg, st') && LoginLeaves(st, st', client, true)
    ensures LoginLeaves(st, Drop(st', SessionId(st.nextSid, client)), client, false)
  {
    hide Key, Live, OwnersAgree, PortsAgree, HostsAgree, ProxiesSound, Without, WithoutPorts;
    var se := SessionId(st.nextSid, client);
    LoginSessionIsNew(st, client);
    DropKeepsInv(cfg, st', se);
    forall p | Live(st, p) ensures p.session != se {
      LiveHasOwner(st, p);
    }
  }

  /** No proxy belongs to a session that was already dropped. */
  ghost predicate NoOrphans(st: State) {
    forall p :: Live(st, p) ==> p.session !in st.dropped
  }

  /** The obligation the server's drop states for its caller. */
  ghost predicate Guarded(st: State, e: Event) {
    e.RegisterEv? ==> e.se !in st.dropped
  }

  ghost predicate GuardedRun(cfg: Settings, st: State, events: seq<Event>)
    decreases |events|
  {
    events == [] ||
    (GuardedRun(cfg, st, events[..|events| - 1]) &&
     Guarded(Run(cfg, st, events[..|events| - 1]), events[|events| - 1]))
  }

  lemma StepKeepsNoOrphans(cfg: Settings, st: State, e: Event)
    requires AllValid(cfg.ranges) && Inv(cfg, st) && NoOrphans(st) && Guarded(st, e)
    ensures NoOrphans(Step(cfg, st, e))
  {
    hide Key, Live, OwnersAgree, PortsAgree, HostsAgree, SessionsSound, WellFormed, Register;
    match e {
      case LoginEv(client) => LoginKeepsInv(cfg, st, client);
      case DropEv(se) => DropKeepsInv(cfg, st, se);
      case RegisterEv(se, np, bindOk) =>
        if se in st.owned {
          if Key(se.client, np.name) in st.proxies {
            RegisterTaken(cfg, st, se, np, bindOk);
          } else {
            RegisterFresh(cfg, st, se, np, bindOk);
            if Register(cfg, st, se, np, bindOk).1.ok {
              InsertLive(st, Candidate(cfg, st, se, np));
            }
          }
        }
      case CloseEv(se, name) =>
        if se in st.owned && name in st.owned[se] {
          OwnedIsLive(st, se, name);
          RemoveLive(st, st.owned[se][name]);
        }
    }
  }

  /** After every run in which no dropped session registers, each live proxy belongs
      to its client's current session or to a replaced session whose drop is pending. */
  lemma {:induction false} EveryProxyHasALiveSession(cfg: Settings, events: seq<Event>)
    requires AllValid(cfg.ranges) && GuardedRun(cfg, INITIAL, events)
    ensures var st := Run(cfg, INITIAL, events);
      NoOrphans(st) && forall p :: Live(st, p) ==> Current(st, p.session) || PendingDrop(st, p.session)
    decreases |events|
  {
    hide Key, PortsAgree, HostsAgree, ProxiesSound, SessionsSound, Step;
    var st := Run(cfg, INITIAL, events);
    if events != [] {
      var init := events[..|events| - 1];
      EveryProxyHasALiveSession(cfg, init);
      RunKeepsInv(cfg, init);
      StepKeepsNoOrphans(cfg, Run(cfg, INITIAL, init), events[|events| - 1]);
    }
    RunKeepsInv(cfg, events);
    forall p | Live(st, p) ensures Current(st, p.session) || PendingDrop(st, p.session) {
      LiveHasOwner(st, p);
    }
  }

  /** The obligation is exact: a registration leaves an orphan exactly when it comes from
      a dropped session, under a free key, and nothing stands in the way of its proxy. */
  lemma UnguardedRegistrationLeaks(cfg: Settings, st: State, se: SessionId, np: NewProxy, bindOk: bool)
    requires AllValid(cfg.ranges) && Inv(cfg, st) && NoOrphans(st) && se in st.owned
    ensures NoOrphans(Register(cfg, st, se, np, bindOk).0) <==>
            !(&& se in st.dropped && Key(se.client, np.name) !in st.proxies
              && Fits(cfg, st, Candidate(cfg, st, se, np)) && (np.typ == "tcp" ==> bindOk))
  {
    hide Key, Live, OwnersAgree, PortsAgree, HostsAgree, SessionsSound, WellFormed, Register, Fits;
    if Key(se.client, np.name) in st.proxies {
      RegisterTaken(cfg, st, se, np, bindOk);
    } else {
      RegisterFresh(cfg, st, se, np, bindOk);
      if Register(cfg, st, se, np, bindOk).1.ok {
        var p := Candidate(cfg, st, se, np);
        FitsSession(cfg, st, p);
        InsertLive(st, p);
        InsertedIsLive(st, p);
      }
    }
  }

  lemma FitsSession(cfg: Settings, st: State, p: Proxy)
    requires Fits(cfg, st, p)
    ensures p.session in st.owned && KeyOf(p) !in st.proxies
  {
    hide WellFormed, Key;
  }

  lemma InsertedIsLive(st: State, p: Proxy)
    requires p.session in st.owned
    ensures Live(Insert(st, p), p)
  {
    hide Key;
  }

  /** A tcp request the empty server grants. */
  predicate Acceptable(cfg: Settings, np: NewProxy) {
    np.typ == "tcp" && np.remotePort != 0 && Allowed(cfg.ranges, np.remotePort) && cfg.splitOk(np.local)
  }

  /** Two logins of one client, and the drop of the first session that the second brings. */
  function Replacement(client: string): seq<Event> {
    [LoginEv(client), LoginEv(client), DropEv(SessionId(0, client))]
  }

  lemma RunReplacement(cfg: Settings, client: string)
    ensures Run(cfg, INITIAL, Replacement(client)) == Drop(Login(Login(INITIAL, client), client), SessionId(0, client))
  {
    hide Login, Drop;
    var login := LoginEv(client);
    assert [login][..0] == [] && [login, login][..1] == [login] && Replacement(client)[..2] == [login, login];
    assert Run(cfg, INITIAL, []) == INITIAL;
    assert Run(cfg, INITIAL, [login]) == Login(INITIAL, client);
    assert Run(cfg, INITIAL, [login, login]) == Login(Login(INITIAL, client), client);
  }

  lemma AfterReplacement(client: string)
    requires client != ""
    ensures var a, b := SessionId(0, client), SessionId(1, client);
      var st := Drop(Login(Login(INITIAL, client), client), a);
      && st.sessions == map[client := b] && st.owned == map[a := map[], b := map[]] && st.dropped == {a}
      && st.proxies == map[] && st.byPort == map[] && st.vhost == map[] && st.nextPid == 0
  {
    var a, b := SessionId(0, client), SessionId(1, client);
    var st := Login(Login(INITIAL, client), client);
    assert st.sessions == map[client := b] && st.owned == map[a := map[], b := map[]];
    assert Without(map[], a) == map[] && WithoutPorts(map[], a) == map[];
  }

  /** The run that leads there from the start: a client logs in twice, its first session is
      dropped, and a registration which that session was still handling is granted. From
      then on a proxy of a dropped session is live and holds its port. */
  lemma LeakHappens(cfg: Settings, client: string, np: NewProxy)
    requires AllValid(cfg.ranges) && client != "" && Acceptable(cfg, np)
    ensures var late := SessionId(0, client);
      var st := Run(cfg, INITIAL, Replacement(client));
      var st' := Run(cfg, INITIAL, Replacement(client) + [RegisterEv(late, np, true)]);
      && NoOrphans(st) && Current(st, SessionId(1, client)) && !NoOrphans(st')
      && np.remotePort in st'.byPort && st'.byPort[np.remotePort].session == late && late in st'.dropped
  {
    hide Key, Live, Register, Replacement, Login, Drop, Inv, Acceptable;
    var late := SessionId(0, client);
    var events := Replacement(client);
    var st := Run(cfg, INITIAL, events);
    RunReplacement(cfg, client);
    AfterReplacement(client);
    RunKeepsInv(cfg, events);
    NobodyLive(st);
    AcceptedFits(cfg, st, late, np);
    UnguardedRegistrationLeaks(cfg, st, late, np, true);
    assert (events + [RegisterEv(late, np, true)])[..|events|] == events;
  }

  lemma NobodyLive(st: State)
    requires st.proxies == map[]
    ensures NoOrphans(st)
  {
    hide Key;
  }

  /** On a server without proxies an acceptable request gets the port it names. */
  lemma AcceptedFits(cfg: Settings, st: State, se: SessionId, np: NewProxy)
    requires AllValid(cfg.ranges) && Inv(cfg, st) && se in st.owned && Acceptable(cfg, np)
    requires st.proxies == map[] && st.byPort == map[] && st.vhost == map[]
    ensures Fits(cfg, st, Candidate(cfg, st, se, np)) && Key(se.client, np.name) !in st.proxies
    ensures var st' := Register(cfg, st, se, np, true).0;
      np.remotePort in st'.byPort && st'.byPort[np.remotePort].session == se && st'.dropped == st.dropped
  {
    hide Key, Live, Register, OwnersAgree, HostsAgree, ProxiesSound, SessionsSound, Allowed;
    RegisterFresh(cfg, st, se, np, true);
  }

  lemma OrphanStep(cfg: Settings, st: State, p: Proxy, e: Event)
    requires AllValid(cfg.ranges) && Inv(cfg, st) && Live(st, p) && p.session in st.dropped
    requires e != CloseEv(p.session, p.name)
    ensures Live(Step(cfg, st, e), p) && p.session in Step(cfg, st, e).dropped
  {
    hide Key, Live, OwnersAgree, PortsAgree, HostsAgree, SessionsSound, WellFormed, Register;
    match e {
      case LoginEv(client) => LoginKeepsInv(cfg, st, client);
      case DropEv(se) => DropKeepsInv(cfg, st, se);
      case RegisterEv(se, np, bindOk) =>
        if se in st.owned {
          if Key(se.client, np.name) in st.proxies {
            RegisterTaken(cfg, st, se, np, bindOk);
          } else {
            RegisterFresh(cfg, st, se, np, bindOk);
            if Register(cfg, st, se, np, bindOk).1.ok {
              InsertLive(st, Candidate(cfg, st, se, np));
            }
          }
        }
      case CloseEv(se, name) =>
        if se in st.owned && name in st.owned[se] {
          OwnedIsLive(st, se, name);
          RemoveLive(st, st.owned[se][name]);
        }
    }
  }

  /** Such an orphan outlives every later run in which its own session does not close it:
      in particular no drop ever reclaims its port. */
  lemma {:induction false} OrphanPersists(cfg: Settings, st: State, p: Proxy, events: seq<Event>)
    requires AllValid(cfg.ranges) && Inv(cfg, st) && Live(st, p) && p.session in st.dropped
    requires CloseEv(p.session, p.name) !in events
    ensures var st' := Run(cfg, st, events);
      && Live(st', p) && p.session in st'.dropped
      && (p.remotePort != 0 ==> p.remotePort in st'.byPort && st'.byPort[p.remotePort] == p)
    decreases |events|
  {
    hide Step, Live, OwnersAgree, HostsAgree, ProxiesSound, SessionsSound;
    LaterRunKeepsInv(cfg, st, events);
    if events != [] {
      var init := events[..|events| - 1];
      LaterRunKeepsInv(cfg, st, init);
      OrphanPersists(cfg, st, p, init);
      OrphanStep(cfg, Run(cfg, st, init), p, events[|events| - 1]);
    }
  }

  /** What an OK answer is worth: the answered session holds the name afterwards
      exactly when the key was free or its live proxy is the session's own. */
  lemma OkMeansHeldExactly(cfg: Settings, st: State, se: SessionId, np: NewProxy, bindOk: bool)
    requires AllValid(cfg.ranges) && Inv(cfg, st) && se in st.owned
    requires Register(cfg, st, se, np, bindOk).1.ok
    ensures var key := Key(se.client, np.name);
      np.name in Register(cfg, st, se, np, bindOk).0.owned[se] <==>
      key !in st.proxies || (st.proxies[key].session == se && st.proxies[key].name == np.name)
  {
    hide Key, PortsAgree, HostsAgree, ProxiesSound, SessionsSound, Register;
    var key := Key(se.client, np.name);
    if key in st.proxies {
      RegisterTaken(cfg, st, se, np, bindOk);
      var p := st.proxies[key];
      assert Live(st, p);
      LiveHasOwner(st, p);
      if np.name in st.owned[se] {
        OwnedIsLive(st, se, np.name);
        ClientOf(cfg, st, st.owned[se][np.name]);
      }
    } else {
      RegisterFresh(cfg, st, se, np, bindOk);
    }
  }

  lemma ClientOf(cfg: Settings, st: State, p: Proxy)
    requires ProxiesSound(cfg, st) && Live(st, p)
    ensures WellFormed(cfg, p) && p.client == p.session.client
  {
    hide Live;
  }

  /** Overlapping logins break reconnection. Session A is replaced by B before A's drop
      runs, and B by C: C re-registers, is told OK because A's proxy is still live,
      and then A's late drop takes the proxy away from C. */
  lemma OverlappingLoginsLoseProxy(cfg: Settings, st: State, a: SessionId, np: NewProxy, bindOk: bool)
    requires AllValid(cfg.ranges) && Inv(cfg, st)
    requires a.client != "" && Current(st, a) && np.name in st.owned[a] && SameConfig(st.owned[a][np.name], np)
    ensures var b := SessionId(st.nextSid, a.client);
      var c := SessionId(st.nextSid + 1, a.client);
      var st1 := Drop(Login(Login(st, a.client), a.client), b);
      && c in st1.owned && Current(st1, c)
      && var (st2, resp) := Register(cfg, st1, c, np, bindOk);
      && resp.ok
      && Current(Drop(st2, a), c)
      && Key(a.client, np.name) !in Drop(st2, a).proxies
  {
    hide Key, Live, WellFormed, OwnersAgree, PortsAgree, HostsAgree, SessionsSound, SameConfig, Register;
    CurrentIsUndropped(st, a);
    var p := st.owned[a][np.name];
    OwnedIsLive(st, a, np.name);
    ClientOf(cfg, st, p);
    var b := SessionId(st.nextSid, a.client);
    var c := SessionId(st.nextSid + 1, a.client);
    LoginKeepsInv(cfg, st, a.client);
    LoginSessionIsNew(st, a.client);
    var st0 := Login(Login(st, a.client), a.client);
    LoginKeepsInv(cfg, Login(st, a.client), a.client);
    LoginSessionIsNew(Login(st, a.client), a.client);
    UndroppedIfNew(st, b);
    DropKeepsInv(cfg, st0, b);
    var st1 := Drop(st0, b);
    assert Live(st1, p);
    LiveUnderKey(st1, p);
    RegisterTaken(cfg, st1, c, np, bindOk);
    DropKeepsInv(cfg, st1, a);
    KeyGone(cfg, st1, p);
  }

  lemma UndroppedIfNew(st: State, se: SessionId)
    requires SessionsSound(st) && se !in st.owned
    ensures se !in st.dropped
  {}

  lemma CurrentIsUndropped(st: State, se: SessionId)
    requires SessionsSound(st) && Current(st, se)
    ensures se in st.owned && se !in st.dropped && se.seqNo < st.nextSid
  {}

  lemma LiveUnderKey(st: State, p: Proxy)
    requires Live(st, p)
    ensures KeyOf(p) in st.proxies && st.proxies[KeyOf(p)] == p
  {
    hide Key;
  }

  lemma KeyGone(cfg: Settings, st: State, p: Proxy)
    requires Inv(cfg, st) && Live(st, p) && p.session in st.owned && p.session !in st.dropped
    ensures KeyOf(p) !in Drop(st, p.session).proxies
  {
    hide Key, OwnersAgree, PortsAgree, HostsAgree;
  }

  // ---- Keys of different clients ----

  /** Two (client, name) pairs share a key exactly when they are equal or one client
      id continues the other across a slash. */
  lemma KeyCollision(c1: string, n1: string, c2: string, n2: string)
    ensures Key(c1, n1) == Key(c2, n2) <==>
            || (c1 == c2 && n1 == n2)
            || (exists m :: c2 == c1 + "/" + m && n1 == m + "/" + n2)
            || (exists m :: c1 == c2 + "/" + m && n2 == m + "/" + n1)
  {
    if Key(c1, n1) == Key(c2, n2) {
      if |c1| == |c2| {
        SplitEqual(c1, n1, c2, n2);
      } else if |c1| < |c2| {
        LongerClient(c1, n1, c2, n2);
      } else {
        LongerClient(c2, n2, c1, n1);
      }
    }
    if m :| c2 == c1 + "/" + m && n1 == m + "/" + n2 {
      KeyAssoc(c1, m, n2);
    }
    if m :| c1 == c2 + "/" + m && n2 == m + "/" + n1 {
      KeyAssoc(c2, m, n1);
    }
  }

  lemma KeyAssoc(c: string, m: string, n: string)
    ensures Key(c, m + "/" + n) == Key(c + "/" + m, n)
  {
    assert c + "/" + (m + "/" + n) == c + "/" + m + "/" + n;
  }

  lemma SplitEqual(c1: string, n1: string, c2: string, n2: string)
    requires Key(c1, n1) == Key(c2, n2) && |c1| == |c2|
    ensures c1 == c2 && n1 == n2
  {
    assert Key(c1, n1)[..|c1|] == c1 && Key(c2, n2)[..|c1|] == c2;
    assert Key(c1, n1)[|c1| + 1..] == n1 && Key(c2, n2)[|c1| + 1..] == n2;
  }

  lemma LongerClient(c1: string, n1: string, c2: string, n2: string)
    requires Key(c1, n1) == Key(c2, n2) && |c1| < |c2|
    ensures exists m :: c2 == c1 + "/" + m && n1 == m + "/" + n2
  {
    var k := Key(c1, n1);
    var m := c2[|c1| + 1..];
    assert k[..|c2|] == c2;
    assert k[..|c1|] == c1 && k[|c1|] == '/';
    assert c2 == c1 + "/" + m;
    assert k[|c1| + 1..] == n1;
    assert k[|c1| + 1..] == m + "/" + n2;
  }

  lemma HasSlash(c: string, m: string)
    ensures '/' in c + "/" + m
  {
    assert (c + "/" + m)[|c|] == '/';
  }

  /** Without slashes in client ids a key belongs to one client and one name. */
  lemma SlashFreeKeys(c1: string, n1: string, c2: string, n2: string)
    requires '/' !in c1 && '/' !in c2 && Key(c1, n1) == Key(c2, n2)
    ensures c1 == c2 && n1 == n2
  {
    KeyCollision(c1, n1, c2, n2);
    if m :| c2 == c1 + "/" + m && n1 == m + "/" + n2 {
      HasSlash(c1, m);
      assert false;
    }
    if m :| c1 == c2 + "/" + m && n2 == m + "/" + n1 {
      HasSlash(c2, m);
      assert false;
    }
  }

  // ---- Repeating a registration ----

  /** Equal up to the order of the custom domains and the request id. */
  predicate SameRequest(a: NewProxy, b: NewProxy) {
    && a.name == b.name && a.typ == b.typ && a.local == b.local
    && a.remotePort == b.remotePort && a.subdomain == b.subdomain
    && multiset(a.customDomains) == multiset(b.customDomains)
  }

  /** Repeating a fresh successful registration is answered OK with the same port and
      changes nothing, exactly when it did not ask for an automatic tcp port. */
  lemma RepeatIsIdempotent(cfg: Settings, st: State, se: SessionId, np: NewProxy, bindOk: bool,
                           again: NewProxy, bindAgain: bool)
    requires AllValid(cfg.ranges) && Inv(cfg, st) && se in st.owned
    requires Key(se.client, np.name) !in st.proxies && Register(cfg, st, se, np, bindOk).1.ok
    requires SameRequest(np, again)
    ensures var (st', resp) := Register(cfg, st, se, np, bindOk);
      Register(cfg, st', se, again, bindAgain) == (st', Granted(again, resp.remotePort))
      <==> !(np.typ == "tcp" && np.remotePort == 0)
  {
    hide Key, PortsAgree, HostsAgree, SessionsSound, FirstFree, ScanOrder, Allowed;
    RegisterFresh(cfg, st, se, np, bindOk);
    var p := Candidate(cfg, st, se, np);
    var st' := Insert(st, p);
    InsertKeepsInv(cfg, st, p);
    assert Live(st', p);
    RegisterTaken(cfg, st', se, again, bindAgain);
    RegisterEchoes(cfg, st', se, again, bindAgain);
  }

  /** Every return path of registration answers with the id and the name of its
      request; an error never carries a port and a success never an error. */
  lemma RegisterEchoes(cfg: Settings, st: State, se: SessionId, np: NewProxy, bindOk: bool)
    requires se in st.owned
    ensures var resp := Register(cfg, st, se, np, bindOk).1;
      resp == if resp.ok then Granted(np, resp.remotePort) else Resp(np.reqId, np.name, false, 0, resp.error)
    ensures !Register(cfg, st, se, np, bindOk).1.ok ==> Register(cfg, st, se, np, bindOk).1.error.Some?
  {
    hide Key, SameConfig, Insert, FirstFree, ScanOrder, Allowed, FirstTaken, HostsOf;
  }

  // ---- The allocator over runs ----

  /** `r` is free and nothing is tried before it: the ranges come in their order, and the
      ports of a range from the lowest on. */
  ghost predicate FirstAt(ranges: seq<PortRange>, used: set<int>, r: int, k: int) {
    && 0 <= k < |ranges| && ranges[k].min <= r <= ranges[k].max && r !in used
    && (forall q :: ranges[k].min <= q < r ==> q in used)
    && forall j, q :: 0 <= j < k && ranges[j].min <= q <= ranges[j].max ==> q in used
  }

  lemma ScanOf(ranges: seq<PortRange>)
    requires ranges != []
    ensures ScanOrder(ranges) == PortsOf(ranges[0]) + ScanOrder(ranges[1..])
  {}

  lemma PortPlace(r: PortRange, q: int)
    requires r.min <= q <= r.max
    ensures |PortsOf(r)| == r.max - r.min + 1 && PortsOf(r)[q - r.min] == q
  {}

  lemma PortAtPlace(r: PortRange, i: nat)
    requires i < |PortsOf(r)|
    ensures PortsOf(r)[i] == r.min + i <= r.max
  {}

  /** The first range and the ports behind it in the scan order. */
  lemma FirstRange(r: PortRange, order: seq<int>, used: set<int>, i: nat)
    requires PortsOf(r) <= order && i < |order| && forall j :: 0 <= j < i ==> order[j] in used
    ensures i < |PortsOf(r)| ==> r.min <= order[i] <= r.max && forall q :: r.min <= q < order[i] ==> q in used
    ensures i >= |PortsOf(r)| ==> forall q :: r.min <= q <= r.max ==> q in used
  {
    hide PortsOf;
    if i < |PortsOf(r)| {
      PortAtPlace(r, i);
    }
    forall q | r.min <= q <= r.max && (i < |PortsOf(r)| ==> q < order[i]) ensures q in used {
      PortPlace(r, q);
      assert order[q - r.min] == q;
    }
  }

  lemma FirstAtLater(ranges: seq<PortRange>, used: set<int>, r: int, k: int)
    requires ranges != [] && FirstAt(ranges[1..], used, r, k)
    requires forall q :: ranges[0].min <= q <= ranges[0].max ==> q in used
    ensures FirstAt(ranges, used, r, k + 1)
  {
    assert forall j :: 1 <= j < |ranges| ==> ranges[j] == ranges[1..][j - 1];
  }

  lemma {:induction false} PlaceInRanges(ranges: seq<PortRange>, used: set<int>, i: nat)
    requires i < |ScanOrder(ranges)| && ScanOrder(ranges)[i] !in used
    requires forall j :: 0 <= j < i ==> ScanOrder(ranges)[j] in used
    ensures exists k :: FirstAt(ranges, used, ScanOrder(ranges)[i], k)
    decreases |ranges|
  {
    if ranges != [] {
      hide ScanOrder, PortsOf;
      var order, ports, rest := ScanOrder(ranges), PortsOf(ranges[0]), ranges[1..];
      ScanOf(ranges);
      FirstRange(ranges[0], order, used, i);
      if i < |ports| {
        assert FirstAt(ranges, used, order[i], 0);
      } else {
        var m := i - |ports|;
        forall j | 0 <= j < m ensures ScanOrder(rest)[j] in used {
          assert ScanOrder(rest)[j] == order[|ports| + j];
        }
        PlaceInRanges(rest, used, m);
        hide FirstAt;
        var k :| FirstAt(rest, used, order[i], k);
        FirstAtLater(ranges, used, order[i], k);
      }
    }
  }

  /** Allocation finds the first free whitelisted port, and answers the sentinel
      exactly when every whitelisted port is taken. */
  lemma AllocatorExact(ranges: seq<PortRange>, used: set<int>)
    requires AllValid(ranges)
    ensures var r := FirstFree(ScanOrder(ranges), used);
      && (r == 0 <==> forall q :: Allowed(ranges, q) ==> q in used)
      && (r != 0 ==> exists k :: FirstAt(ranges, used, r, k))
  {
    var order := ScanOrder(ranges);
    FirstFreeExact(order, used);
    forall q ensures q in order <==> Allowed(ranges, q) {
      ScanMembers(ranges, q);
    }
    hide FirstFree, ScanOrder;
    assert forall i :: 0 <= i < |order| ==> order[i] in order;
    var r := FirstFree(order, used);
    if i :| 0 <= i < |order| && order[i] == r && r !in used && forall j :: 0 <= j < i ==> order[j] in used {
      PlaceInRanges(ranges, used, i);
    }
  }

  /** Why a tcp request with a sound address and a free name is refused: a full pool
      means that every whitelisted port is taken, and only automatic requests meet it; a
      port in use is always the very port asked for; a failed bind means that nothing
      else stood in the way. */
  lemma TcpRefusalsExact(cfg: Settings, st: State, se: SessionId, np: NewProxy, bindOk: bool)
    requires AllValid(cfg.ranges) && Inv(cfg, st) && se in st.owned
    requires np.typ == "tcp" && cfg.splitOk(np.local) && Key(se.client, np.name) !in st.proxies
    ensures var e := Register(cfg, st, se, np, bindOk).1.error;
      && (e == Some(InvalidPort) <==> np.remotePort != 0 && !Allowed(cfg.ranges, np.remotePort))
      && (e == Some(PortPoolFull) <==> np.remotePort == 0 && forall q :: Allowed(cfg.ranges, q) ==> q in st.byPort)
      && (forall q :: e == Some(PortInUse(q)) <==>
            np.remotePort == q && Allowed(cfg.ranges, q) && q in st.byPort)
      && (e == Some(BindFailed) <==> !bindOk && Fits(cfg, st, Candidate(cfg, st, se, np)))
  {
    hide Key, OwnersAgree, HostsAgree, ProxiesSound, SessionsSound, Live;
    RegisterFresh(cfg, st, se, np, true);
    if np.remotePort == 0 {
      AllocatorExact(cfg.ranges, st.byPort.Keys);
      NoZero(cfg.ranges);
    }
    hide FirstFree, ScanOrder, Allowed, Insert, PortsAgree, Fits;
  }

  lemma NoZero(ranges: seq<PortRange>)
    requires AllValid(ranges)
    ensures !Allowed(ranges, 0)
  {}

  lemma HostsPermuted(cfg: Settings, a: seq<string>, b: seq<string>, sub: string)
    requires multiset(a) == multiset(b)
    ensures forall h :: h in HostsOf(cfg, a, sub) ==> h in HostsOf(cfg, b, sub)
  {
    forall h | h in HostsOf(cfg, a, sub) ensures h in HostsOf(cfg, b, sub) {
      var hs := HostsOf(cfg, a, sub);
      var i :| 0 <= i < |hs| && hs[i] == h;
      if i < |a| {
        assert a[i] in multiset(a);
        assert a[i] in multiset(b);
        var j :| 0 <= j < |b| && b[j] == a[i];
        assert HostsOf(cfg, b, sub)[j] == h;
      } else {
        assert HostsOf(cfg, b, sub)[|b| + (i - |a|)] == h;
      }
    }
  }

  /** A live proxy is what a request asked for: its kind and local address, and its port,
      unless the request left that to the server, or its subdomain and its domains in any
      order. */
  ghost predicate Provides(p: Proxy, np: NewProxy) {
    && p.typ == np.typ && p.local == np.local
    && (np.typ == "tcp" ==> p.remotePort != 0 && (np.remotePort == 0 || np.remotePort == p.remotePort))
    && (np.typ == "http" ==>
          && p.remotePort == 0 && p.subdomain == np.subdomain
          && multiset(p.customDomains) == multiset(np.customDomains))
  }

  /** What an answer is worth. After OK the live proxy under the key provides what was asked
      for, and its port is the one answered and leads to it; after a refusal nothing has
      changed, and it names its reason. */
  lemma AnswerMeans(cfg: Settings, st: State, se: SessionId, np: NewProxy, bindOk: bool)
    requires AllValid(cfg.ranges) && Inv(cfg, st) && se in st.owned
    ensures var (st', resp) := Register(cfg, st, se, np, bindOk);
      && (resp.ok ==>
            && Key(se.client, np.name) in st'.proxies
            && var p := st'.proxies[Key(se.client, np.name)];
               && Live(st', p) && Provides(p, np) && resp.remotePort == p.remotePort && resp.error == None
               && (np.typ == "tcp" ==> resp.remotePort in st'.byPort && st'.byPort[resp.remotePort] == p))
      && (!resp.ok ==> st' == st && resp.error.Some? && resp.remotePort == 0)
  {
    hide Key, Live, OwnersAgree, HostsAgree, SessionsSound, Register, Fits, HostsOf, SameConfig, Provides, ProxiesSound,
         WellFormed, PortsAgree;
    RegisterKeepsInv(cfg, st, se, np, bindOk);
    RegisterEchoes(cfg, st, se, np, bindOk);
    var (st', resp) := Register(cfg, st, se, np, bindOk);
    var key := Key(se.client, np.name);
    if key in st.proxies {
      RegisterTaken(cfg, st, se, np, bindOk);
      UnderKeyLive(st, key);
      if resp.ok {
        RepeatProvides(cfg, st, st.proxies[key], np);
      }
    } else {
      RegisterFresh(cfg, st, se, np, bindOk);
      if resp.ok {
        var p := Candidate(cfg, st, se, np);
        InsertedUnderKey(cfg, st, se, np);
        UnderKeyLive(st', key);
        CandidateProvides(cfg, st, se, np);
        PortLeads(cfg, st', p);
      }
    }
  }

  lemma RepeatProvides(cfg: Settings, st: State, p: Proxy, np: NewProxy)
    requires Inv(cfg, st) && Live(st, p) && SameConfig(p, np)
    ensures Provides(p, np)
    ensures np.typ == "tcp" ==> p.remotePort in st.byPort && st.byPort[p.remotePort] == p
  {
    hide Live, OwnersAgree, HostsAgree, SessionsSound, Allowed, HostsOf;
  }

  lemma CandidateProvides(cfg: Settings, st: State, se: SessionId, np: NewProxy)
    requires se in st.owned && Fits(cfg, st, Candidate(cfg, st, se, np))
    ensures Provides(Candidate(cfg, st, se, np), np) && Candidate(cfg, st, se, np).typ == np.typ
    ensures np.typ == "tcp" || np.typ == "http"
  {
    hide Key, Allowed, HostsOf, FirstFree, ScanOrder;
  }

  lemma InsertedUnderKey(cfg: Settings, st: State, se: SessionId, np: NewProxy)
    requires se in st.owned
    ensures var p := Candidate(cfg, st, se, np);
      && p.session == se && Key(se.client, np.name) in Insert(st, p).proxies
      && Insert(st, p).proxies[Key(se.client, np.name)] == p
  {
    hide Key, HostsOf, FirstFree, ScanOrder;
  }

  lemma PortLeads(cfg: Settings, st: State, p: Proxy)
    requires Inv(cfg, st) && Live(st, p)
    ensures p.typ == "tcp" ==> p.remotePort in st.byPort && st.byPort[p.remotePort] == p
  {
    hide Live, OwnersAgree, HostsAgree, SessionsSound, Allowed, HostsOf;
  }

  /** `left`, a dot and `right`, octet for octet. */
  ghost predicate Dotted(h: string, left: string, right: string) {
    |h| == |left| + 1 + |right| && left <= h && h[|left|] == '.' && h[|left| + 1..] == right
  }

  /** The hosts that an http request asks for: each custom domain, normalized, and, if it
      has a subdomain, that one normalized in front of the server's normalized domain. */
  ghost predicate AsksFor(cfg: Settings, np: NewProxy, h: string) {
    || (exists d :: d in np.customDomains && h == NormalizeHost(d))
    || (np.subdomain != "" && Dotted(h, NormalizeHost(np.subdomain), NormalizeHost(cfg.vhostDomain)))
  }

  lemma HostsAskedFor(cfg: Settings, np: NewProxy)
    ensures forall h :: h in HostsOf(cfg, np.customDomains, np.subdomain) <==> AsksFor(cfg, np, h)
  {
    hide NormalizeHost;
    var hosts := HostsOf(cfg, np.customDomains, np.subdomain);
    var sub := NormalizeHost(np.subdomain) + "." + NormalizeHost(cfg.vhostDomain);
    assert Dotted(sub, NormalizeHost(np.subdomain), NormalizeHost(cfg.vhostDomain));
    forall h | h in hosts ensures AsksFor(cfg, np, h) {
      var i :| 0 <= i < |hosts| && hosts[i] == h;
      if i < |np.customDomains| {
        assert np.customDomains[i] in np.customDomains;
      }
    }
    forall h | AsksFor(cfg, np, h) ensures h in hosts {
      if d :| d in np.customDomains && h == NormalizeHost(d) {
        var i :| 0 <= i < |np.customDomains| && np.customDomains[i] == d;
        assert hosts[i] == h;
      } else {
        assert h == sub == hosts[|hosts| - 1];
      }
    }
  }

  /** After an OK http registration the hosts that lead to the proxy under the request's
      key are exactly those it asks for. */
  lemma HttpHostsExactly(cfg: Settings, st: State, se: SessionId, np: NewProxy)
    requires AllValid(cfg.ranges) && Inv(cfg, st) && se in st.owned && np.typ == "http"
    requires Register(cfg, st, se, np, true).1.ok
    ensures var st' := Register(cfg, st, se, np, true).0;
      && Key(se.client, np.name) in st'.proxies
      && var p := st'.proxies[Key(se.client, np.name)];
         Live(st', p) && forall h :: h in st'.vhost && st'.vhost[h] == p <==> AsksFor(cfg, np, h)
  {
    hide Key, Live, OwnersAgree, PortsAgree, SessionsSound, Register, Fits, HostsOf, AsksFor, SameConfig;
    HostsAskedFor(cfg, np);
    RegisterKeepsInv(cfg, st, se, np, true);
    var st' := Register(cfg, st, se, np, true).0;
    if Key(se.client, np.name) in st.proxies {
      RegisterTaken(cfg, st, se, np, true);
    } else {
      RegisterFresh(cfg, st, se, np, true);
      CandidateUnderKey(cfg, st, se, np);
    }
    var p := st'.proxies[Key(se.client, np.name)];
    UnderKeyLive(st', Key(se.client, np.name));
    AskedHosts(cfg, p, np);
  }

  lemma UnderKeyLive(st: State, k: string)
    requires OwnersAgree(st) && k in st.proxies
    ensures Live(st, st.proxies[k])
  {
    hide Key;
  }

  lemma CandidateUnderKey(cfg: Settings, st: State, se: SessionId, np: NewProxy)
    requires np.typ == "http" && se in st.owned
    ensures var p := Candidate(cfg, st, se, np);
      && p.session == se && Key(se.client, np.name) in Insert(st, p).proxies
      && Insert(st, p).proxies[Key(se.client, np.name)] == p && SameConfig(p, np)
  {
    hide Key, HostsOf;
  }

  /** A proxy with the configuration of a request holds the hosts the request asks for. */
  lemma AskedHosts(cfg: Settings, p: Proxy, np: NewProxy)
    requires WellFormed(cfg, p) && SameConfig(p, np) && np.typ == "http"
    ensures forall h :: h in p.hosts <==> h in HostsOf(cfg, np.customDomains, np.subdomain)
  {
    HostsPermuted(cfg, p.customDomains, np.customDomains, np.subdomain);
    HostsPermuted(cfg, np.customDomains, p.customDomains, np.subdomain);
    hide HostsOf;
  }

  /** The host `h` is the custom domain number `i`, taken, and no earlier one is. */
  ghost predicate TakenAt(np: NewProxy, vhost: map<string, Proxy>, h: string, i: int) {
    && 0 <= i < |np.customDomains| && h == NormalizeHost(np.customDomains[i])
    && forall j :: 0 <= j < i ==> NormalizeHost(np.customDomains[j]) !in vhost
  }

  /** The first host taken: the custom domains come in their order, then the subdomain. */
  ghost predicate FirstConflict(cfg: Settings, np: NewProxy, vhost: map<string, Proxy>, h: string) {
    && h in vhost
    && ((exists i :: TakenAt(np, vhost, h, i)) ||
        (&& np.subdomain != "" && Dotted(h, NormalizeHost(np.subdomain), NormalizeHost(cfg.vhostDomain))
         && forall d :: d in np.customDomains ==> NormalizeHost(d) !in vhost))
  }

  /** An http request is refused for a host exactly when its name is free, it passes
      every check before, and some host is taken; the host named is the first such. */
  lemma HostConflictExact(cfg: Settings, st: State, se: SessionId, np: NewProxy, h: string)
    requires se in st.owned && np.typ == "http" && Key(se.client, np.name) !in st.proxies
    requires cfg.splitOk(np.local) && cfg.vhostPort != 0
    requires np.subdomain != "" || |np.customDomains| > 0
    requires np.subdomain != "" ==> cfg.vhostDomain != ""
    ensures Register(cfg, st, se, np, true).1.error == Some(VhostConflict(h)) <==> FirstConflict(cfg, np, st.vhost, h)
  {
    hide Key, HostsOf, Insert;
    FirstTakenIs(HostsOf(cfg, np.customDomains, np.subdomain), st.vhost, h);
    FirstInOrder(cfg, np, st.vhost, h);
    hide FirstTaken, FirstConflict;
  }

  lemma FirstInOrder(cfg: Settings, np: NewProxy, vhost: map<string, Proxy>, h: string)
    ensures var hosts := HostsOf(cfg, np.customDomains, np.subdomain);
      FirstConflict(cfg, np, vhost, h) <==>
      exists i :: 0 <= i < |hosts| && hosts[i] == h && h in vhost && forall j :: 0 <= j < i ==> hosts[j] !in vhost
  {
    hide NormalizeHost;
    var n, hosts := |np.customDomains|, HostsOf(cfg, np.customDomains, np.subdomain);
    var sub := NormalizeHost(np.subdomain) + "." + NormalizeHost(cfg.vhostDomain);
    assert Dotted(sub, NormalizeHost(np.subdomain), NormalizeHost(cfg.vhostDomain));
    assert forall i :: 0 <= i < n ==> hosts[i] == NormalizeHost(np.customDomains[i]);
    if i :| 0 <= i < |hosts| && hosts[i] == h && h in vhost && forall j :: 0 <= j < i ==> hosts[j] !in vhost {
      if i < n {
        assert TakenAt(np, vhost, h, i);
      } else {
        assert i == n && h == sub;
        forall d | d in np.customDomains ensures NormalizeHost(d) !in vhost {
          var j :| 0 <= j < n && np.customDomains[j] == d;
          assert hosts[j] !in vhost;
        }
      }
    }
    if FirstConflict(cfg, np, vhost, h) {
      if i :| TakenAt(np, vhost, h, i) {
        assert hosts[i] == h && forall j :: 0 <= j < i ==> hosts[j] !in vhost;
      } else {
        assert hosts[n] == sub == h && forall j :: 0 <= j < n ==> hosts[j] !in vhost;
      }
    }
  }

  /** The other refusals of both kinds of proxy, each with its exact condition. */
  lemma OtherRefusalsExact(cfg: Settings, st: State, se: SessionId, np: NewProxy, bindOk: bool)
    requires se in st.owned
    ensures var e := Register(cfg, st, se, np, bindOk).1.error;
      var key := Key(se.client, np.name);
      var tcp, http := np.typ == "tcp", np.typ == "http" && cfg.vhostPort != 0;
      var named := np.subdomain != "" || |np.customDomains| > 0;
      var hosted := np.subdomain == "" || cfg.vhostDomain != "";
      && (e == Some(UnsupportedType) <==> !tcp && np.typ != "http")
      && (e == Some(VhostDisabled) <==> np.typ == "http" && cfg.vhostPort == 0)
      && (e == Some(VhostRequired) <==> http && !named)
      && (e == Some(VhostNeedDomain) <==> http && named && !hosted)
      && (e == Some(InvalidLocal) <==> !cfg.splitOk(np.local) && (tcp || (http && named && hosted)))
      && (e == Some(NameExists) <==>
            && cfg.splitOk(np.local) && key in st.proxies && !SameConfig(st.proxies[key], np)
            && ((tcp && (np.remotePort == 0 || Allowed(cfg.ranges, np.remotePort))) || (http && named && hosted)))
  {
    hide Key, FirstFree, ScanOrder, Allowed, SameConfig, HostsOf, FirstTaken, Insert;
  }

  lemma {:induction false} FirstTakenIs(hosts: seq<string>, vhost: map<string, Proxy>, h: string)
    ensures FirstTaken(hosts, vhost) == Some(h) <==>
            exists i :: 0 <= i < |hosts| && hosts[i] == h && h in vhost && forall j :: 0 <= j < i ==> hosts[j] !in vhost
  {
    if hosts != [] {
      FirstTakenIs(hosts[1..], vhost, h);
      if i :| 0 <= i < |hosts[1..]| && hosts[1..][i] == h && h in vhost && forall j :: 0 <= j < i ==> hosts[1..][j] !in vhost {
        if hosts[0] !in vhost {
          assert hosts[i + 1] == h;
          assert forall j :: 0 <= j < i + 1 ==> hosts[j] == hosts[0] || hosts[j] == hosts[1..][j - 1];
        }
      }
      if i :| 0 <= i < |hosts| && hosts[i] == h && h in vhost && forall j :: 0 <= j < i ==> hosts[j] !in vhost {
        if i > 0 {
          assert hosts[1..][i - 1] == h;
          assert forall j :: 0 <= j < i - 1 ==> hosts[1..][j] == hosts[j + 1];
        }
      }
    }
  }

  /** Over every run the bound ports lie in the whitelist, so there are never more of
      them than the union of the ranges has members, however the ranges overlap. */
  lemma BoundPortsWithinWhitelist(cfg: Settings, events: seq<Event>)
    requires AllValid(cfg.ranges)
    ensures var st := Run(cfg, INITIAL, events);
      var union := set q | q in ScanOrder(cfg.ranges);
      && (forall q :: q in st.listening ==> Allowed(cfg.ranges, q))
      && (forall q :: q in union <==> Allowed(cfg.ranges, q))
      && |st.byPort| == |st.listening| <= |union|
  {
    hide Key, OwnersAgree, HostsAgree, SessionsSound, Step, ScanOrder, Allowed;
    RunKeepsInv(cfg, events);
    var st := Run(cfg, INITIAL, events);
    var union := set q | q in ScanOrder(cfg.ranges);
    forall q ensures q in union <==> Allowed(cfg.ranges, q) {
      ScanMembers(cfg.ranges, q);
    }
    forall q | q in st.listening ensures q in union {
      ClientOf(cfg, st, st.byPort[q]);
    }
    SubsetSize(st.listening, union);
    assert |st.byPort| == |st.byPort.Keys|;
  }

  lemma SubsetSize<T>(a: set<T>, b: set<T>)
    requires a <= b
    ensures |a| <= |b|
  {
    assert b == a + (b - a);
  }
}
