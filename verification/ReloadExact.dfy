/** A reload never touches an unchanged proxy, and the condition under which it
    converges is exact. */
module ReloadExact {
  import opened Wrappers
  import opened Config
  import opened Registry
  import opened RegistryLaws
  import opened Reload

  // ---- Messages about other names ----

  lemma ServeOtherName(cfg: Settings, st: State, se: SessionId, m: Msg, n: string)
    requires AllValid(cfg.ranges) && Inv(cfg, st) && se in st.owned && NameOf(m) != n
    ensures Entry(Serve(cfg, st, se, m), se, n) == Entry(st, se, n)
  {
    hide Key, Live, OwnersAgree, PortsAgree, HostsAgree, ProxiesSound, SessionsSound, WellFormed, Register, Close;
    match m {
      case RegisterMsg(np) =>
        if Key(se.client, np.name) in st.proxies {
          RegisterTaken(cfg, st, se, np, true);
        } else {
          RegisterFresh(cfg, st, se, np, true);
        }
      case CloseMsg(name) => CloseTables(st, se, name);
    }
  }

  /** Among any steps of others, messages about other names leave an entry alone. */
  lemma {:induction false} Untouched(cfg: Settings, was: State, se: SessionId, events: seq<Event>, msgs: seq<Msg>, n: string)
    requires AllValid(cfg.ranges) && Inv(cfg, was) && se in was.owned && Interleaved(se, events, msgs)
    requires forall m :: m in msgs ==> NameOf(m) != n
    ensures var st := Run(cfg, was, events);
      Inv(cfg, st) && se in st.owned && Entry(st, se, n) == Entry(was, se, n)
    decreases |events|
  {
    hide Inv, Register, Close, Elsewhere, NameOf;
    if events != [] {
      var init, e := events[..|events| - 1], events[|events| - 1];
      var mid := Run(cfg, was, init);
      if Elsewhere(se, e) && Interleaved(se, init, msgs) {
        Untouched(cfg, was, se, init, msgs, n);
        ElsewhereTables(cfg, mid, se, e);
      } else {
        var m := msgs[|msgs| - 1];
        Untouched(cfg, was, se, init, msgs[..|msgs| - 1], n);
        ServeKeepsInv(cfg, mid, se, m);
        ServeOtherName(cfg, mid, se, m, n);
        StepServes(cfg, mid, se, m);
      }
    }
  }

  lemma StepServes(cfg: Settings, st: State, se: SessionId, m: Msg)
    ensures Step(cfg, st, EventOf(se, m)) == Serve(cfg, st, se, m)
  {
    hide Register, Close;
  }

  lemma {:induction false} ServeAllOtherNames(cfg: Settings, st: State, se: SessionId, msgs: seq<Msg>, n: string)
    requires AllValid(cfg.ranges) && Inv(cfg, st) && se in st.owned
    requires forall m :: m in msgs ==> NameOf(m) != n
    ensures Inv(cfg, ServeAll(cfg, st, se, msgs)) && se in ServeAll(cfg, st, se, msgs).owned
    ensures Entry(ServeAll(cfg, st, se, msgs), se, n) == Entry(st, se, n)
  {
    hide Inv, ServeAll, Run, Interleaved, Entry, NameOf;
    ServedIsRun(cfg, st, se, msgs);
    Untouched(cfg, st, se, EventsOf(se, msgs), msgs, n);
  }

  /** When the only messages about a name are closes, the name is free afterwards
      exactly when one was sent or it was free before. */
  lemma {:induction false} OnlyClosed(cfg: Settings, was: State, se: SessionId, events: seq<Event>, msgs: seq<Msg>, n: string)
    requires AllValid(cfg.ranges) && Inv(cfg, was) && se in was.owned && Interleaved(se, events, msgs)
    requires forall m :: m in msgs && NameOf(m) == n ==> m == CloseMsg(n)
    ensures var st := Run(cfg, was, events);
      && Inv(cfg, st) && se in st.owned
      && Entry(st, se, n) == if CloseMsg(n) in msgs then None else Entry(was, se, n)
    decreases |events|
  {
    hide Inv, Register, Close, Elsewhere;
    if events != [] {
      var init, e := events[..|events| - 1], events[|events| - 1];
      var mid := Run(cfg, was, init);
      if Elsewhere(se, e) && Interleaved(se, init, msgs) {
        OnlyClosed(cfg, was, se, init, msgs, n);
        ElsewhereTables(cfg, mid, se, e);
      } else {
        var before, m := msgs[..|msgs| - 1], msgs[|msgs| - 1];
        assert msgs == before + [m];
        OnlyClosed(cfg, was, se, init, before, n);
        ServeKeepsInv(cfg, mid, se, m);
        StepServes(cfg, mid, se, m);
        if NameOf(m) == n {
          ClosedIsFree(cfg, mid, se, n);
        } else {
          ServeOtherName(cfg, mid, se, m, n);
        }
      }
    }
  }

  lemma ClosedIsFree(cfg: Settings, st: State, se: SessionId, n: string)
    requires Inv(cfg, st) && se in st.owned
    ensures Entry(Serve(cfg, st, se, CloseMsg(n)), se, n) == None
  {
    hide Key, Live, OwnersAgree, PortsAgree, HostsAgree, ProxiesSound, SessionsSound, Close;
    CloseTables(st, se, n);
  }

  // ---- Which names a plan mentions ----

  lemma {:induction false} UpdateNames(oldT: Table, newT: Table, order: seq<string>, seqNo: int, m: Msg)
    requires WellNamed(newT) && forall n :: n in order ==> n in newT
    requires m in Updates(oldT, newT, order, seqNo)
    ensures NameOf(m) in order && Changed(oldT, newT, NameOf(m))
    decreases |order|
  {
    hide ProxyEqual;
    if order != [] && m !in Actions(oldT, newT, order[0], seqNo + 1) {
      UpdateNames(oldT, newT, order[1..], if Changed(oldT, newT, order[0]) then seqNo + 1 else seqNo, m);
    }
  }

  lemma {:induction false} CloseNames(newT: Table, order: seq<string>, m: Msg)
    requires m in Closes(newT, order)
    ensures NameOf(m) in order && NameOf(m) !in newT
    decreases |order|
  {
    if order != [] && (order[0] in newT || m != CloseMsg(order[0])) {
      CloseNames(newT, order[1..], m);
    }
  }

  lemma {:induction false} CloseOnly(newT: Table, order: seq<string>, m: Msg)
    requires m in Closes(newT, order)
    ensures m == CloseMsg(NameOf(m))
    decreases |order|
  {
    if order != [] && (order[0] in newT || m != CloseMsg(order[0])) {
      CloseOnly(newT, order[1..], m);
    }
  }

  /** No message of a reload concerns an unaffected name: whatever part of the plan was
      sent and served, in any order of the maps, among any steps of others, and whatever
      the session held before, its entry is the one it was, and live if there is one. */
  lemma UnchangedNeverTouched(cfg: Settings, was: State, se: SessionId, oldT: Table, newT: Table,
                              newOrder: seq<string>, oldOrder: seq<string>, seqNo: int,
                              events: seq<Event>, msgs: seq<Msg>, n: string)
    requires AllValid(cfg.ranges) && Inv(cfg, was) && se in was.owned
    requires WellNamed(newT) && forall k :: k in newOrder ==> k in newT
    requires Interleaved(se, events, msgs)
    requires forall m :: m in msgs ==> m in Plan(oldT, newT, newOrder, oldOrder, seqNo)
    requires n in newT && !Changed(oldT, newT, n)
    ensures var st := Run(cfg, was, events);
      Entry(st, se, n) == Entry(was, se, n) && (Entry(st, se, n).Some? ==> Live(st, Entry(st, se, n).value))
  {
    hide Inv, ProxyEqual, Updates, Closes, NameOf, Live, Interleaved, Run;
    forall m | m in msgs ensures NameOf(m) != n {
      if m in Updates(oldT, newT, newOrder, seqNo) {
        UpdateNames(oldT, newT, newOrder, seqNo, m);
      } else {
        CloseNames(newT, oldOrder, m);
      }
    }
    Untouched(cfg, was, se, events, msgs, n);
    var st := Run(cfg, was, events);
    if Entry(st, se, n).Some? {
      EntryIsLive(cfg, st, se, n);
    }
  }

  lemma EntryIsLive(cfg: Settings, st: State, se: SessionId, n: string)
    requires Inv(cfg, st) && Entry(st, se, n).Some?
    ensures Live(st, Entry(st, se, n).value)
  {
    hide Live;
    OwnedIsLive(st, se, n);
  }

  // ---- Choosing an order of a map ----

  lemma {:induction false} AnyOrder(t: Table) returns (xs: seq<string>)
    ensures OrderOf(xs, t)
    decreases |t|
  {
    if t.Keys == {} {
      xs := [];
    } else {
      var n :| n in t.Keys;
      var rest := AnyOrder(t - {n});
      assert forall m :: m in t <==> m == n || m in t - {n};
      xs := [n] + rest;
    }
  }

  lemma OrderFrom(t: Table, n: string) returns (xs: seq<string>)
    requires n in t
    ensures OrderOf(xs, t) && xs[0] == n
  {
    var rest := AnyOrder(t - {n});
    xs := [n] + rest;
    assert forall m :: m in t <==> m == n || m in t - {n};
  }

  // ---- The turn of one name ----

  lemma ActionsServe(cfg: Settings, st: State, se: SessionId, oldT: Table, newT: Table, n: string, reqId: int)
    requires Changed(oldT, newT, n) && se in Cleared(st, se, oldT, n).owned
    ensures ServeAll(cfg, st, se, Actions(oldT, newT, n, reqId)) ==
            Register(cfg, Cleared(st, se, oldT, n), se, Request(newT[n], reqId), true).0
  {
    hide Register, Close, ProxyEqual;
    var reg := RegisterMsg(Request(newT[n], reqId));
    if n in oldT {
      assert Actions(oldT, newT, n, reqId) == [CloseMsg(n)] + [reg];
      ServeSnoc(cfg, st, se, [CloseMsg(n)], reg);
      ServeSnoc(cfg, st, se, [], CloseMsg(n));
      assert [] + [CloseMsg(n)] == [CloseMsg(n)];
    } else {
      assert Actions(oldT, newT, n, reqId) == [] + [reg];
      ServeSnoc(cfg, st, se, [], reg);
    }
  }

  /** The state after the optional close that precedes a registration. */
  function Cleared(st: State, se: SessionId, oldT: Table, n: string): State {
    if n in oldT then Close(st, se, n) else st
  }

  /** The state when the turn of the name after `pre` comes. */
  function AtTurn(cfg: Settings, was: State, se: SessionId, oldT: Table, newT: Table, pre: seq<string>, seqNo: int): State
    requires forall k :: k in pre ==> k in newT
  {
    ServeAll(cfg, was, se, Updates(oldT, newT, pre, seqNo))
  }

  function IdAtTurn(oldT: Table, newT: Table, pre: seq<string>, seqNo: int): int {
    seqNo + ChangedIn(oldT, newT, pre) + 1
  }

  lemma OrderParts(pre: seq<string>, n: string, post: seq<string>, t: Table)
    requires OrderOf(pre + [n] + post, t)
    ensures n in t && n !in pre && n !in post
    ensures forall k :: k in pre ==> k in t && k !in post
    ensures forall k :: k in post ==> k in t
    ensures forall k :: k in t ==> k in pre || k == n || k in post
  {
    var order := pre + [n] + post;
    assert order[|pre|] == n;
    forall k | k in pre ensures k in order && k != n && k !in post {
      var i :| 0 <= i < |pre| && pre[i] == k;
      assert order[i] == k;
      forall j | 0 <= j < |post| ensures post[j] != k {
        assert order[|pre| + 1 + j] == post[j];
      }
    }
    forall j | 0 <= j < |post| ensures post[j] != n && post[j] in order {
      assert order[|pre| + 1 + j] == post[j];
    }
  }

  /** A plan around the turn of one name. */
  lemma PlanAround(oldT: Table, newT: Table, pre: seq<string>, n: string, post: seq<string>, oldOrder: seq<string>, seqNo: int)
    requires WellNamed(newT) && OrderOf(pre + [n] + post, newT)
    ensures forall k :: k in pre ==> k in newT
    ensures var ups := Updates(oldT, newT, pre, seqNo);
      var acts := Actions(oldT, newT, n, IdAtTurn(oldT, newT, pre, seqNo));
      exists rest ::
        && Plan(oldT, newT, pre + [n] + post, oldOrder, seqNo) == ups + (acts + rest)
        && (forall m :: m in ups ==> NameOf(m) in pre)
        && (forall m :: m in acts ==> NameOf(m) == n)
        && (forall m :: m in rest ==> NameOf(m) !in pre && NameOf(m) != n)
  {
    hide ProxyEqual, Updates, Closes, OrderOf, NameOf, Changed, Actions, ChangedIn;
    OrderParts(pre, n, post, newT);
    OrderNames(pre + [n] + post, newT);
    var id := IdAtTurn(oldT, newT, pre, seqNo);
    UpdatesConcat(oldT, newT, pre + [n], post, seqNo);
    UpdatesSnoc(oldT, newT, pre, n, seqNo);
    var ups := Updates(oldT, newT, pre, seqNo);
    var acts := Actions(oldT, newT, n, id);
    var later := Updates(oldT, newT, post, seqNo + ChangedIn(oldT, newT, pre + [n]));
    var rest := later + Closes(newT, oldOrder);
    assert Plan(oldT, newT, pre + [n] + post, oldOrder, seqNo) == ups + (acts + rest);
    ActionNames(oldT, newT, n, id);
    forall m | m in ups ensures NameOf(m) in pre {
      UpdateNames(oldT, newT, pre, seqNo, m);
    }
    forall m | m in rest ensures NameOf(m) !in pre && NameOf(m) != n {
      if m in later {
        UpdateNames(oldT, newT, post, seqNo + ChangedIn(oldT, newT, pre + [n]), m);
      } else {
        CloseNames(newT, oldOrder, m);
      }
    }
  }

  lemma ActionNames(oldT: Table, newT: Table, n: string, reqId: int)
    requires WellNamed(newT) && n in newT
    ensures forall m :: m in Actions(oldT, newT, n, reqId) ==> NameOf(m) == n
  {
    hide ProxyEqual;
  }

  lemma OrderNames(xs: seq<string>, t: Table)
    requires OrderOf(xs, t)
    ensures forall n :: n in xs ==> n in t
  {}

  /** At the turn of a name those before it have their final entries, those after it and
      the name itself the ones they had; and its own actions give it its final entry. */
  lemma Turn(cfg: Settings, was: State, se: SessionId, oldT: Table, newT: Table,
             pre: seq<string>, n: string, post: seq<string>, oldOrder: seq<string>, seqNo: int)
    requires Start(cfg, was, se, oldT, newT) && OrderOf(pre + [n] + post, newT)
    ensures forall k :: k in pre ==> k in newT
    ensures var st := AtTurn(cfg, was, se, oldT, newT, pre, seqNo);
      var fin := ServeAll(cfg, was, se, Plan(oldT, newT, pre + [n] + post, oldOrder, seqNo));
      && Inv(cfg, st) && se in st.owned
      && (forall k :: k in pre ==> Entry(st, se, k) == Entry(fin, se, k))
      && (forall k :: k !in pre ==> Entry(st, se, k) == Entry(was, se, k))
      && (forall s :: s != se ==> (s in st.owned <==> s in was.owned) && (s in was.owned ==> st.owned[s] == was.owned[s]))
      && Entry(ServeAll(cfg, st, se, Actions(oldT, newT, n, IdAtTurn(oldT, newT, pre, seqNo))), se, n) == Entry(fin, se, n)
  {
    hide Inv, ProxyEqual, Updates, Actions, Plan, OrderOf, NameOf, Entry, ServeAll, Changed;
    OrderParts(pre, n, post, newT);
    OrderNames(pre + [n] + post, newT);
    PlanAround(oldT, newT, pre, n, post, oldOrder, seqNo);
    var ups := Updates(oldT, newT, pre, seqNo);
    var acts := Actions(oldT, newT, n, IdAtTurn(oldT, newT, pre, seqNo));
    var rest :|
      && Plan(oldT, newT, pre + [n] + post, oldOrder, seqNo) == ups + (acts + rest)
      && (forall m :: m in ups ==> NameOf(m) in pre)
      && (forall m :: m in acts ==> NameOf(m) == n)
      && (forall m :: m in rest ==> NameOf(m) !in pre && NameOf(m) != n);
    var st := ServeAll(cfg, was, se, ups);
    var st2 := ServeAll(cfg, st, se, acts);
    ServeConcat(cfg, was, se, ups, acts + rest);
    ServeConcat(cfg, st, se, acts, rest);
    OthersKept(cfg, was, se, ups);
    OthersKept(cfg, st, se, acts);
    forall k | k in pre ensures Entry(st, se, k) == Entry(ServeAll(cfg, st2, se, rest), se, k) {
      ServeAllOtherNames(cfg, st, se, acts, k);
      ServeAllOtherNames(cfg, st2, se, rest, k);
    }
    forall k | k !in pre ensures Entry(st, se, k) == Entry(was, se, k) {
      ServeAllOtherNames(cfg, was, se, ups, k);
    }
    ServeAllOtherNames(cfg, st2, se, rest, n);
  }

  /** A changed name that ends up as asked was granted its candidate at its turn. */
  lemma TurnIsGranted(cfg: Settings, was: State, se: SessionId, oldT: Table, newT: Table,
                      pre: seq<string>, n: string, post: seq<string>, oldOrder: seq<string>, seqNo: int)
    requires Start(cfg, was, se, oldT, newT) && OrderOf(pre + [n] + post, newT)
    requires Changed(oldT, newT, n)
    requires Entry(ServeAll(cfg, was, se, Plan(oldT, newT, pre + [n] + post, oldOrder, seqNo)), se, n).Some?
    ensures forall k :: k in pre ==> k in newT
    ensures var mid := Cleared(AtTurn(cfg, was, se, oldT, newT, pre, seqNo), se, oldT, n);
      var p := Candidate(cfg, mid, se, Request(newT[n], IdAtTurn(oldT, newT, pre, seqNo)));
      && Inv(cfg, mid) && se in mid.owned && Fits(cfg, mid, p)
      && Entry(ServeAll(cfg, was, se, Plan(oldT, newT, pre + [n] + post, oldOrder, seqNo)), se, n) == Some(p)
  {
    hide Key, Live, OwnersAgree, PortsAgree, HostsAgree, ProxiesSound, SessionsSound, WellFormed,
         ServeAll, ProxyEqual, Register, Candidate, Close, Actions, OrderOf, Plan, Insert, ChangedIn, AtTurn;
    Turn(cfg, was, se, oldT, newT, pre, n, post, oldOrder, seqNo);
    OrderParts(pre, n, post, newT);
    var st := AtTurn(cfg, was, se, oldT, newT, pre, seqNo);
    var id := IdAtTurn(oldT, newT, pre, seqNo);
    var np := Request(newT[n], id);
    var mid := Cleared(st, se, oldT, n);
    CloseKeepsInv(cfg, st, se, n);
    CloseTables(st, se, n);
    ActionsServe(cfg, st, se, oldT, newT, n, id);
    assert Entry(mid, se, n) == None;
    GrantedEntry(cfg, mid, se, np);
  }

  /** A name that is free before its registration and held after it was granted. */
  lemma GrantedEntry(cfg: Settings, st: State, se: SessionId, np: NewProxy)
    requires AllValid(cfg.ranges) && Inv(cfg, st) && se in st.owned && Entry(st, se, np.name) == None
    ensures var e := Entry(Register(cfg, st, se, np, true).0, se, np.name);
      e.Some? ==> Fits(cfg, st, Candidate(cfg, st, se, np)) && e == Some(Candidate(cfg, st, se, np))
  {
    hide Key, Live, OwnersAgree, PortsAgree, HostsAgree, WellFormed, SessionsSound, ProxiesSound, Register, Candidate;
    if Key(se.client, np.name) in st.proxies {
      RegisterTaken(cfg, st, se, np, true);
    } else {
      RegisterFresh(cfg, st, se, np, true);
      CandidateName(cfg, st, se, np);
    }
  }

  lemma CandidateName(cfg: Settings, st: State, se: SessionId, np: NewProxy)
    ensures var p := Candidate(cfg, st, se, np);
      p.session == se && p.name == np.name && p.typ == np.typ && KeyOf(p) == Key(se.client, np.name)
  {
    hide Key, FirstFree, ScanOrder, HostsOf;
  }

  // ---- What the turn of a name that goes first tells about the start ----

  lemma GrantedMeansRequestable(cfg: Settings, st: State, se: SessionId, c: ProxyConfig, reqId: int)
    requires se in st.owned && WellFormed(cfg, Candidate(cfg, st, se, Request(c, reqId)))
    ensures Requestable(cfg, c)
  {
    hide HostsOf, FirstFree, ScanOrder, Allowed;
  }

  lemma FitsMeansUnclaimed(cfg: Settings, was: State, se: SessionId, oldT: Table, n: string, c: ProxyConfig, p: Proxy)
    requires Inv(cfg, was) && se in was.owned && was.owned[se].Keys == oldT.Keys
    requires Fits(cfg, Cleared(was, se, oldT, n), p)
    requires p.remotePort == ClaimedPort(c) || ClaimedPort(c) == 0
    requires p.hosts == ClaimedHosts(cfg, c) && KeyOf(p) == Key(se.client, n)
    ensures Unclaimed(cfg, was, se, n, c)
  {
    hide Key, Live, OwnersAgree, ProxiesSound, SessionsSound, WellFormed, ClaimedPort, ClaimedHosts, SameConfig,
         HostsAgree, PortsAgree;
    var mid := Cleared(was, se, oldT, n);
    CloseKeepsInv(cfg, was, se, n);
    forall q | Live(was, q) && !Own(q, se, n) ensures Avoids(cfg, q, se, n, c) {
      if n in oldT {
        OwnedIsLive(was, se, n);
        RemoveLive(was, was.owned[se][n]);
      }
      assert Live(mid, q);
      LiveExcludesFit(cfg, mid, p, q);
    }
    AvoidedUnclaimed(cfg, was, se, n, c);
  }

  lemma LiveExcludesFit(cfg: Settings, st: State, p: Proxy, q: Proxy)
    requires Indexed(st) && Fits(cfg, st, p) && Live(st, q)
    ensures KeyOf(q) != KeyOf(p)
    ensures q.remotePort != 0 ==> q.remotePort != p.remotePort
    ensures forall h :: h in q.hosts ==> h !in p.hosts
  {
    hide Key, OwnersAgree, WellFormed;
    LiveUnderKey(st, q);
    hide Live;
  }

  /** Two different names a session holds as asked at the same time have disjoint claims. */
  lemma HeldDisjoint(cfg: Settings, st: State, se: SessionId, a: ProxyConfig, b: ProxyConfig, n: string, m: string)
    requires Inv(cfg, st) && se in st.owned && n in st.owned[se] && m in st.owned[se] && n != m
    requires Fulfils(st.owned[se][n], a) && Fulfils(st.owned[se][m], b)
    ensures Disjoint(cfg, a, b)
  {
    hide Key, Live, OwnersAgree, SessionsSound, WellFormed, Fulfils, ClaimedHosts;
    var p, q := st.owned[se][n], st.owned[se][m];
    OwnedIsLive(st, se, n);
    OwnedIsLive(st, se, m);
    FulfilledClaims(cfg, p, a);
    FulfilledClaims(cfg, q, b);
    assert p != q;
    forall h | h in ClaimedHosts(cfg, a) ensures h !in ClaimedHosts(cfg, b) {
      assert st.vhost[h] == p;
    }
  }

  /** A changed name that goes first and ends up held: the server accepts it, and nothing
      it names was held by another proxy. */
  lemma FirstNeeds(cfg: Settings, was: State, se: SessionId, oldT: Table, newT: Table,
                   newOrder: seq<string>, oldOrder: seq<string>, seqNo: int)
    requires Start(cfg, was, se, oldT, newT) && OrderOf(newOrder, newT)
    requires newOrder != [] && Changed(oldT, newT, newOrder[0])
    requires (forall n :: n in newOrder ==> n in newT) &&
             Entry(ServeAll(cfg, was, se, Plan(oldT, newT, newOrder, oldOrder, seqNo)), se, newOrder[0]).Some?
    ensures Requestable(cfg, newT[newOrder[0]]) && Unclaimed(cfg, was, se, newOrder[0], newT[newOrder[0]])
  {
    hide Inv, ServeAll, Unclaimed, Requestable, ProxyEqual, Candidate, WellFormed, Key, Cleared, OrderOf, Fulfils,
         Plan, ClaimedHosts, FirstFree, ScanOrder;
    var n := newOrder[0];
    assert newOrder == [] + [n] + newOrder[1..];
    TurnIsGranted(cfg, was, se, oldT, newT, [], n, newOrder[1..], oldOrder, seqNo);
    NobodyBefore(cfg, was, se, oldT, newT, seqNo);
    var mid := Cleared(was, se, oldT, n);
    var id := IdAtTurn(oldT, newT, [], seqNo);
    GrantedMeansRequestable(cfg, mid, se, newT[n], id);
    CandidateHolds(cfg, mid, se, newT[n], id);
    FitsMeansUnclaimed(cfg, was, se, oldT, n, newT[n], Candidate(cfg, mid, se, Request(newT[n], id)));
  }

  lemma NobodyBefore(cfg: Settings, was: State, se: SessionId, oldT: Table, newT: Table, seqNo: int)
    ensures AtTurn(cfg, was, se, oldT, newT, [], seqNo) == was
  {}

  // ---- Room is needed ----

  /** A reload with nobody else acting, in some order of both maps. */
  ghost predicate LoneConverged(cfg: Settings, was: State, se: SessionId, oldT: Table, newT: Table, seqNo: int,
                                newOrder: seq<string>, oldOrder: seq<string>)
    requires forall n :: n in newOrder ==> n in newT
  {
    Converged(was, ServeAll(cfg, was, se, Plan(oldT, newT, newOrder, oldOrder, seqNo)), se, oldT, newT)
  }

  /** The names of `first`, then the others. */
  lemma OrderOfFirst(t: Table, first: set<string>) returns (a: seq<string>, b: seq<string>)
    requires first <= t.Keys
    ensures OrderOf(a + b, t) && forall n :: n in a <==> n in first
  {
    a := AnyOrder(t - (t.Keys - first));
    b := AnyOrder(t - first);
    assert forall n :: n in t <==> n in t - (t.Keys - first) || n in t - first;
    forall i, j | 0 <= i < j < |a + b| ensures (a + b)[i] != (a + b)[j] {
      if i < |a| <= j {
        assert a[i] in a && b[j - |a|] in b;
      }
    }
  }

  /** What is bound at the turn of a name: the ports that no name before it and not the
      name itself held are still bound, and a port that was free belongs to a name before. */
  lemma PortsAtTurn(cfg: Settings, was: State, st: State, se: SessionId, oldT: Table, pre: seq<string>, n: string, x: int)
    requires Inv(cfg, was) && Inv(cfg, st) && se in was.owned && se in st.owned
    requires forall k :: k !in pre ==> Entry(st, se, k) == Entry(was, se, k)
    requires forall s :: s != se ==> (s in st.owned <==> s in was.owned) && (s in was.owned ==> st.owned[s] == was.owned[s])
    ensures var mid := Cleared(st, se, oldT, n);
      && (x in was.byPort && x !in mid.byPort ==>
            was.byPort[x].session == se && (was.byPort[x].name in pre || was.byPort[x].name == n))
      && (x in mid.byPort && x !in was.byPort ==>
            var q := mid.byPort[x]; q.remotePort == x && q.name in pre && Entry(st, se, q.name) == Some(q))
  {
    hide Key, Live, HostsAgree, ProxiesSound, SessionsSound;
    var mid := Cleared(st, se, oldT, n);
    CloseKeepsInv(cfg, st, se, n);
    if x in was.byPort && x !in mid.byPort {
      var q := was.byPort[x];
      LiveHasOwner(was, q);
      if q.session != se || (q.name !in pre && q.name != n) {
        OwnedIsLive(st, q.session, q.name);
        ClearedLive(cfg, st, se, oldT, n, q);
        assert false;
      }
    }
    if x in mid.byPort && x !in was.byPort {
      var q := mid.byPort[x];
      ClearedLive(cfg, st, se, oldT, n, q);
      LiveHasOwner(st, q);
      if q.session != se || q.name !in pre {
        OwnedIsLive(was, q.session, q.name);
        assert false;
      }
    }
  }

  lemma ClearedLive(cfg: Settings, st: State, se: SessionId, oldT: Table, n: string, q: Proxy)
    requires Inv(cfg, st) && se in st.owned
    ensures Live(Cleared(st, se, oldT, n), q) ==> Live(st, q)
    ensures Live(st, q) && !Own(q, se, n) ==> Live(Cleared(st, se, oldT, n), q)
  {
    hide Key, Live, PortsAgree, HostsAgree, ProxiesSound, SessionsSound;
    if n in st.owned[se] {
      OwnedIsLive(st, se, n);
      RemoveLive(st, st.owned[se][n]);
    }
  }

  /** When the first free port is not `limit` and `limit` is free, it is tried before. */
  lemma {:induction false} FreeIsTried(order: seq<int>, used: set<int>, limit: int)
    requires limit !in used && FirstFree(order, used) != limit && FirstFree(order, used) != 0
    ensures FirstFree(order, used) in TriedBefore(order, limit)
  {
    if order[0] in used {
      FreeIsTried(order[1..], used, limit);
    }
  }

  /** The entry that names `limit` is no newcomer to the ports before it. */
  lemma NamerIsNoNewcomer(cfg: Settings, was: State, se: SessionId, oldT: Table, newT: Table, limit: int, k: string)
    requires k in newT && ClaimedPort(newT[k]) == limit != 0
    ensures k !in Newcomers(was, se, oldT, newT, TriedBefore(ScanOrder(cfg.ranges), limit))
  {
    hide ProxyEqual, ScanOrder, TriedBefore, OldPort;
    TriedPorts(ScanOrder(cfg.ranges), limit);
  }

  /** Whoever is to hold `limit` in the end comes later, so it is free for now, and not
      what the name at turn ends up with. */
  lemma LimitStaysFree(cfg: Settings, was: State, st: State, fin: State, se: SessionId, oldT: Table, newT: Table,
                       pre: seq<string>, n: string, limit: int, k: string)
    requires Inv(cfg, was) && Inv(cfg, st) && Inv(cfg, fin) && se in was.owned && se in st.owned
    requires forall m :: m !in pre ==> Entry(st, se, m) == Entry(was, se, m)
    requires forall m :: m in pre ==> Entry(st, se, m) == Entry(fin, se, m)
    requires forall s :: s != se ==> (s in st.owned <==> s in was.owned) && (s in was.owned ==> st.owned[s] == was.owned[s])
    requires Converged(was, fin, se, oldT, newT)
    requires Changed(oldT, newT, k) && ClaimedPort(newT[k]) == limit && limit !in was.byPort
    requires limit != 0 ==> k !in pre && k != n
    ensures limit !in Cleared(st, se, oldT, n).byPort
    ensures Entry(fin, se, n).Some? && Entry(fin, se, n).value.remotePort == limit ==> limit == 0
  {
    hide Key, Live, OwnersAgree, PortsAgree, HostsAgree, ProxiesSound, SessionsSound, WellFormed, ProxyEqual, Cleared, Fulfils,
         ClaimedHosts;
    var mid := Cleared(st, se, oldT, n);
    ClearedInv(cfg, st, se, oldT, n);
    NoPortZero(mid);
    if limit != 0 {
      assert Entry(fin, se, k).Some?;
      EntryWellFormed(cfg, fin, se, k);
      FulfilledClaims(cfg, Entry(fin, se, k).value, newT[k]);
      PortOfEntry(fin, se, k);
      if Entry(fin, se, n).Some? && Entry(fin, se, n).value.remotePort == limit {
        PortOfEntry(fin, se, n);
        assert false;
      }
      PortsAtTurn(cfg, was, st, se, oldT, pre, n, limit);
      if limit in mid.byPort {
        PortOfEntry(fin, se, mid.byPort[limit].name);
        assert false;
      }
    }
  }

  lemma FittingPort(cfg: Settings, st: State, p: Proxy)
    requires Fits(cfg, st, p)
    ensures p.remotePort !in st.byPort && (p.typ == "tcp" ==> p.remotePort != 0)
  {
    hide Key, Allowed;
  }

  lemma ClearedInv(cfg: Settings, st: State, se: SessionId, oldT: Table, n: string)
    requires Inv(cfg, st)
    ensures Inv(cfg, Cleared(st, se, oldT, n))
  {
    hide Inv, Close;
    CloseKeepsInv(cfg, st, se, n);
  }

  /** Where a newcomer that is registered before all who are not ends up: on one of the
      ports, and one that was free. */
  lemma NewcomerLands(cfg: Settings, was: State, se: SessionId, oldT: Table, newT: Table, seqNo: int,
                      pre: seq<string>, n: string, post: seq<string>, oldOrder: seq<string>, limit: int, k: string)
    requires Start(cfg, was, se, oldT, newT) && OrderOf(pre + [n] + post, newT)
    requires forall m :: m in pre + [n] + post ==> m in newT
    requires LoneConverged(cfg, was, se, oldT, newT, seqNo, pre + [n] + post, oldOrder)
    requires Changed(oldT, newT, k) && ClaimedPort(newT[k]) == limit && limit !in was.byPort
    requires forall m :: m in pre + [n] ==> m in Newcomers(was, se, oldT, newT, TriedBefore(ScanOrder(cfg.ranges), limit))
    ensures var fin := ServeAll(cfg, was, se, Plan(oldT, newT, pre + [n] + post, oldOrder, seqNo));
      && Entry(fin, se, n).Some?
      && var x := Entry(fin, se, n).value.remotePort;
        && x != 0 && x in TriedBefore(ScanOrder(cfg.ranges), limit) && x !in was.byPort
  {
    hide Key, Live, OwnersAgree, PortsAgree, HostsAgree, ProxiesSound, SessionsSound, WellFormed, ServeAll, ProxyEqual, Plan,
         Candidate, OrderOf, Fulfils, FirstFree, ScanOrder, TriedBefore, AtTurn, Cleared, Requestable, ClaimedHosts;
    var among := TriedBefore(ScanOrder(cfg.ranges), limit);
    var fin := ServeAll(cfg, was, se, Plan(oldT, newT, pre + [n] + post, oldOrder, seqNo));
    assert n in pre + [n] && forall m :: m in pre ==> m in pre + [n];
    if limit != 0 {
      NamerIsNoNewcomer(cfg, was, se, oldT, newT, limit, k);
    }
    OthersKept(cfg, was, se, Plan(oldT, newT, pre + [n] + post, oldOrder, seqNo));
    Turn(cfg, was, se, oldT, newT, pre, n, post, oldOrder, seqNo);
    TurnIsGranted(cfg, was, se, oldT, newT, pre, n, post, oldOrder, seqNo);
    var st := AtTurn(cfg, was, se, oldT, newT, pre, seqNo);
    var mid := Cleared(st, se, oldT, n);
    var id := IdAtTurn(oldT, newT, pre, seqNo);
    var p := Candidate(cfg, mid, se, Request(newT[n], id));
    FitsSession(cfg, mid, p);
    GrantedMeansRequestable(cfg, mid, se, newT[n], id);
    CandidateHolds(cfg, mid, se, newT[n], id);
    NoZeroTried(cfg, limit);
    NewcomerAsks(was, se, oldT, newT, TriedBefore(ScanOrder(cfg.ranges), limit), n);
    if Automatic(newT[n]) {
      LimitStaysFree(cfg, was, st, fin, se, oldT, newT, pre, n, limit, k);
      FittingPort(cfg, mid, p);
      FreeIsTried(ScanOrder(cfg.ranges), mid.byPort.Keys, limit);
      WasFree(cfg, was, st, se, oldT, newT, pre, n, TriedBefore(ScanOrder(cfg.ranges), limit), p.remotePort);
    }
  }

  lemma NewcomerAsks(was: State, se: SessionId, oldT: Table, newT: Table, among: set<int>, n: string)
    requires n in Newcomers(was, se, oldT, newT, among)
    ensures Changed(oldT, newT, n)
    ensures Automatic(newT[n]) || (ClaimedPort(newT[n]) in among && ClaimedPort(newT[n]) !in was.byPort)
  {
    hide ProxyEqual, OldPort;
  }

  /** A port that is free at the turn of a newcomer was free before, since nobody before it
      held one. */
  lemma WasFree(cfg: Settings, was: State, st: State, se: SessionId, oldT: Table, newT: Table, pre: seq<string>, n: string,
                among: set<int>, x: int)
    requires Inv(cfg, was) && Inv(cfg, st) && se in was.owned && se in st.owned
    requires forall k :: k !in pre ==> Entry(st, se, k) == Entry(was, se, k)
    requires forall s :: s != se ==> (s in st.owned <==> s in was.owned) && (s in was.owned ==> st.owned[s] == was.owned[s])
    requires forall m :: m in pre || m == n ==> m in Newcomers(was, se, oldT, newT, among)
    requires x in among && x !in Cleared(st, se, oldT, n).byPort
    ensures x !in was.byPort
  {
    hide Key, Live, OwnersAgree, PortsAgree, HostsAgree, ProxiesSound, SessionsSound, ProxyEqual, Cleared;
    PortsAtTurn(cfg, was, st, se, oldT, pre, n, x);
    if x in was.byPort {
      HolderOf(cfg, was, se, x);
    }
  }

  lemma HolderOf(cfg: Settings, was: State, se: SessionId, x: int)
    requires Inv(cfg, was) && x in was.byPort
    ensures was.byPort[x].session == se && se in was.owned ==> OldPort(was, se, was.byPort[x].name) == x
  {
    hide Live, OwnersAgree, PortsAgree, HostsAgree;
    if was.byPort[x].session == se {
      OwnEntryOnPort(was, se, x);
    }
  }

  /** If a reload in which the newcomers come first converges, they all found room. */
  lemma NewcomersNeedRoom(cfg: Settings, was: State, se: SessionId, oldT: Table, newT: Table, seqNo: int,
                          a: seq<string>, b: seq<string>, oldOrder: seq<string>, k: string)
    requires Start(cfg, was, se, oldT, newT) && OrderOf(a + b, newT) && forall n :: n in a + b ==> n in newT
    requires LoneConverged(cfg, was, se, oldT, newT, seqNo, a + b, oldOrder)
    requires Changed(oldT, newT, k) && ClaimedPort(newT[k]) !in was.byPort
    requires forall n :: n in a <==>
               n in Newcomers(was, se, oldT, newT, TriedBefore(ScanOrder(cfg.ranges), ClaimedPort(newT[k])))
    ensures RoomBefore(cfg, was, PortsOfOthers(was, se), se, oldT, newT, ClaimedPort(newT[k]))
  {
    hide Inv, ServeAll, Plan, OrderOf, ScanOrder, TriedBefore, ClaimedPort, Newcomers, LoneConverged, Changed,
         NamesOn, PortsOfOthers, RoomBefore;
    ChangedIsNew(oldT, newT, k);
    var limit := ClaimedPort(newT[k]);
    var among := TriedBefore(ScanOrder(cfg.ranges), limit);
    var all := Newcomers(was, se, oldT, newT, among);
    var free := among - was.byPort.Keys;
    var fin := ServeAll(cfg, was, se, Plan(oldT, newT, a + b, oldOrder, seqNo));
    forall n | n in all ensures n in NamesOn(fin, free) {
      var i :| 0 <= i < |a| && a[i] == n;
      NewcomerNamed(cfg, was, se, oldT, newT, seqNo, a, b, oldOrder, k, i);
    }
    SubsetSize(all, NamesOn(fin, free));
    NamesAtMost(fin, free);
    EnoughRoom(cfg, was, se, oldT, newT, limit);
  }

  lemma NewcomerNamed(cfg: Settings, was: State, se: SessionId, oldT: Table, newT: Table, seqNo: int,
                      a: seq<string>, b: seq<string>, oldOrder: seq<string>, k: string, i: nat)
    requires Start(cfg, was, se, oldT, newT) && OrderOf(a + b, newT) && forall n :: n in a + b ==> n in newT
    requires LoneConverged(cfg, was, se, oldT, newT, seqNo, a + b, oldOrder) && i < |a|
    requires Changed(oldT, newT, k) && ClaimedPort(newT[k]) !in was.byPort
    requires forall n :: n in a ==>
               n in Newcomers(was, se, oldT, newT, TriedBefore(ScanOrder(cfg.ranges), ClaimedPort(newT[k])))
    ensures var free := TriedBefore(ScanOrder(cfg.ranges), ClaimedPort(newT[k])) - was.byPort.Keys;
      a[i] in NamesOn(ServeAll(cfg, was, se, Plan(oldT, newT, a + b, oldOrder, seqNo)), free)
  {
    hide Inv, ServeAll, Plan, OrderOf, ScanOrder, TriedBefore, ClaimedPort, Newcomers, LoneConverged, Changed, Entry, WellNamed;
    ChangedIsNew(oldT, newT, k);
    var pre, n, post := a[..i], a[i], a[i + 1..] + b;
    assert pre + [n] + post == a + b;
    forall m | m in pre + [n] ensures m in a {}
    NewcomerLands(cfg, was, se, oldT, newT, seqNo, pre, n, post, oldOrder, ClaimedPort(newT[k]), k);
    var msgs := Plan(oldT, newT, a + b, oldOrder, seqNo);
    OthersKept(cfg, was, se, msgs);
    OnPort(cfg, ServeAll(cfg, was, se, msgs), se, n);
  }

  /** Before the reload there is room exactly when the newcomers are at most as many as the
      ports that are free. */
  lemma EnoughRoom(cfg: Settings, was: State, se: SessionId, oldT: Table, newT: Table, limit: int)
    ensures var among := TriedBefore(ScanOrder(cfg.ranges), limit);
      RoomBefore(cfg, was, PortsOfOthers(was, se), se, oldT, newT, limit) <==>
      |Newcomers(was, se, oldT, newT, among)| <= |among - was.byPort.Keys|
  {
    hide Newcomers, TriedBefore, ScanOrder;
    assert was.byPort.Keys == PortsHeld(was, se) + PortsOfOthers(was, se);
    Parts(TriedBefore(ScanOrder(cfg.ranges), limit), PortsHeld(was, se), PortsOfOthers(was, se));
  }

  lemma Parts(among: set<int>, a: set<int>, b: set<int>)
    requires a !! b
    ensures |among - (a + b)| + |among * a| + |among * b| == |among|
  {
    assert among == among - (a + b) + among * (a + b);
    assert among * (a + b) == among * a + among * b;
  }

  lemma OnPort(cfg: Settings, st: State, se: SessionId, n: string)
    requires Inv(cfg, st) && Entry(st, se, n).Some? && Entry(st, se, n).value.remotePort != 0
    ensures var x := Entry(st, se, n).value.remotePort; x in st.byPort && st.byPort[x].name == n
  {
    hide Live, OwnersAgree, PortsAgree, HostsAgree;
    PortOfEntry(st, se, n);
  }

  // ---- The condition is exact ----

  lemma RoomNeeded(cfg: Settings, was: State, se: SessionId, oldT: Table, newT: Table, seqNo: int, k: string)
    requires Start(cfg, was, se, oldT, newT) && Changed(oldT, newT, k) && ClaimedPort(newT[k]) !in was.byPort
    requires forall newOrder, oldOrder :: OrderOf(newOrder, newT) && OrderOf(oldOrder, oldT) ==>
               LoneConverged(cfg, was, se, oldT, newT, seqNo, newOrder, oldOrder)
    ensures RoomBefore(cfg, was, PortsOfOthers(was, se), se, oldT, newT, ClaimedPort(newT[k]))
  {
    hide Inv, OrderOf, ServeAll, Plan, ProxyEqual, TriedBefore, ScanOrder, LoneConverged, RoomBefore;
    var all := Newcomers(was, se, oldT, newT, TriedBefore(ScanOrder(cfg.ranges), ClaimedPort(newT[k])));
    var a, b := OrderOfFirst(newT, all);
    var someOld := AnyOrder(oldT);
    OrderNames(a + b, newT);
    NewcomersNeedRoom(cfg, was, se, oldT, newT, seqNo, a, b, someOld, k);
  }

  lemma NameNeedsOk(cfg: Settings, was: State, se: SessionId, oldT: Table, newT: Table, seqNo: int, n: string)
    requires Start(cfg, was, se, oldT, newT) && Changed(oldT, newT, n)
    requires forall newOrder, oldOrder :: OrderOf(newOrder, newT) && OrderOf(oldOrder, oldT) ==>
               LoneConverged(cfg, was, se, oldT, newT, seqNo, newOrder, oldOrder)
    ensures Requestable(cfg, newT[n]) && Unclaimed(cfg, was, se, n, newT[n])
  {
    hide Inv, OrderOf, ServeAll, Plan, Unclaimed, Requestable, ProxyEqual, Fulfils;
    var newOrder := OrderFrom(newT, n);
    var someOld := AnyOrder(oldT);
    OrderNames(newOrder, newT);
    assert LoneConverged(cfg, was, se, oldT, newT, seqNo, newOrder, someOld);
    FirstNeeds(cfg, was, se, oldT, newT, newOrder, someOld, seqNo);
  }

  lemma ConvergenceNeedsOk(cfg: Settings, was: State, se: SessionId, oldT: Table, newT: Table, seqNo: int)
    requires Start(cfg, was, se, oldT, newT)
    requires forall newOrder, oldOrder :: OrderOf(newOrder, newT) && OrderOf(oldOrder, oldT) ==>
               LoneConverged(cfg, was, se, oldT, newT, seqNo, newOrder, oldOrder)
    ensures ReloadOk(cfg, was, se, oldT, newT)
  {
    hide Inv, OrderOf, ServeAll, Plan, Unclaimed, Disjoint, Requestable, ProxyEqual, RoomBefore, Fulfils;
    var someNew := AnyOrder(newT);
    var someOld := AnyOrder(oldT);
    OrderNames(someNew, newT);
    assert LoneConverged(cfg, was, se, oldT, newT, seqNo, someNew, someOld);
    var msgs := Plan(oldT, newT, someNew, someOld, seqNo);
    OthersKept(cfg, was, se, msgs);
    forall n | Changed(oldT, newT, n)
      ensures Requestable(cfg, newT[n]) && Unclaimed(cfg, was, se, n, newT[n])
      ensures forall m :: Changed(oldT, newT, m) && m != n ==> Disjoint(cfg, newT[n], newT[m])
      ensures ClaimedPort(newT[n]) !in was.byPort ==>
                RoomBefore(cfg, was, PortsOfOthers(was, se), se, oldT, newT, ClaimedPort(newT[n]))
    {
      NameNeedsOk(cfg, was, se, oldT, newT, seqNo, n);
      forall m | Changed(oldT, newT, m) && m != n ensures Disjoint(cfg, newT[n], newT[m]) {
        HeldDisjoint(cfg, ServeAll(cfg, was, se, msgs), se, newT[n], newT[m], n, m);
      }
      if ClaimedPort(newT[n]) !in was.byPort {
        RoomNeeded(cfg, was, se, oldT, newT, seqNo, n);
      }
    }
  }

  /** A run of a reload: the plan of some order of both maps, among steps of others that
      leave its claims alone and leave it room. */
  ghost predicate ReloadRun(cfg: Settings, was: State, se: SessionId, oldT: Table, newT: Table, seqNo: int,
                            newOrder: seq<string>, oldOrder: seq<string>, events: seq<Event>)
  {
    && OrderOf(newOrder, newT) && OrderOf(oldOrder, oldT)
    && Interleaved(se, events, Plan(oldT, newT, newOrder, oldOrder, seqNo))
    && OthersQuiet(cfg, was, se, oldT, newT, events)
  }

  /** A reload ends with the new table in every one of its runs if and only if, before it
      starts, the server accepts every new or changed entry, none claims anything held by
      another live proxy or claimed by another of them, and those that leave their port to
      the server have room: enough free ports altogether, and enough before each free port
      that another entry names. */
  lemma ReloadConvergesExactly(cfg: Settings, was: State, se: SessionId, oldT: Table, newT: Table, seqNo: int)
    requires Start(cfg, was, se, oldT, newT)
    ensures ReloadOk(cfg, was, se, oldT, newT) <==>
            forall newOrder, oldOrder, events :: ReloadRun(cfg, was, se, oldT, newT, seqNo, newOrder, oldOrder, events) ==>
              Converged(was, Run(cfg, was, events), se, oldT, newT)
  {
    hide Start, Converged, Run, Plan, ReloadOk, Changed, Interleaved, OthersQuiet;
    if ReloadOk(cfg, was, se, oldT, newT) {
      forall newOrder, oldOrder, events | ReloadRun(cfg, was, se, oldT, newT, seqNo, newOrder, oldOrder, events)
        ensures Converged(was, Run(cfg, was, events), se, oldT, newT)
      {
        ReloadConverges(cfg, was, se, oldT, newT, newOrder, oldOrder, seqNo, events);
      }
    }
    if forall newOrder, oldOrder, events :: ReloadRun(cfg, was, se, oldT, newT, seqNo, newOrder, oldOrder, events) ==>
         Converged(was, Run(cfg, was, events), se, oldT, newT)
    {
      forall newOrder, oldOrder | OrderOf(newOrder, newT) && OrderOf(oldOrder, oldT)
        ensures LoneConverged(cfg, was, se, oldT, newT, seqNo, newOrder, oldOrder)
      {
        var msgs := Plan(oldT, newT, newOrder, oldOrder, seqNo);
        ServedIsRun(cfg, was, se, msgs);
        assert ReloadRun(cfg, was, se, oldT, newT, seqNo, newOrder, oldOrder, EventsOf(se, msgs));
      }
      ConvergenceNeedsOk(cfg, was, se, oldT, newT, seqNo);
    }
  }

  /** An order in which it fails: a new automatic entry that goes first takes the port that
      another new or changed entry names, when that is the allocator's first choice. */
  lemma AutomaticTakesNamedPort(cfg: Settings, was: State, se: SessionId, oldT: Table, newT: Table,
                                newOrder: seq<string>, oldOrder: seq<string>, seqNo: int, a: string, b: string)
    requires Start(cfg, was, se, oldT, newT) && OrderOf(newOrder, newT) && OrderOf(oldOrder, oldT)
    requires a in newT && a !in oldT && Automatic(newT[a]) && newOrder != [] && newOrder[0] == a
    requires Changed(oldT, newT, b) && newT[b].typ == "tcp"
    requires newT[b].remotePort == FirstFree(ScanOrder(cfg.ranges), was.byPort.Keys) != 0
    ensures forall n :: n in newOrder ==> n in newT
    ensures !LoneConverged(cfg, was, se, oldT, newT, seqNo, newOrder, oldOrder)
  {
    hide Inv, ServeAll, ProxyEqual, Key, OrderOf, Fulfils, Plan, ClaimedHosts, FirstFree, ScanOrder, Fits, Candidate, WellFormed;
    OrderNames(newOrder, newT);
    if LoneConverged(cfg, was, se, oldT, newT, seqNo, newOrder, oldOrder) {
      var fin := ServeAll(cfg, was, se, Plan(oldT, newT, newOrder, oldOrder, seqNo));
      OthersKept(cfg, was, se, Plan(oldT, newT, newOrder, oldOrder, seqNo));
      assert newOrder == [] + [a] + newOrder[1..];
      TurnIsGranted(cfg, was, se, oldT, newT, [], a, newOrder[1..], oldOrder, seqNo);
      NobodyBefore(cfg, was, se, oldT, newT, seqNo);
      CandidatePortOf(cfg, was, se, newT[a], IdAtTurn(oldT, newT, [], seqNo));
      EntryWellFormed(cfg, fin, se, b);
      FulfilledClaims(cfg, Entry(fin, se, b).value, newT[b]);
      OnPort(cfg, fin, se, a);
      OnPort(cfg, fin, se, b);
      assert false;
    }
  }

  lemma CandidatePortOf(cfg: Settings, st: State, se: SessionId, c: ProxyConfig, reqId: int)
    requires Automatic(c)
    ensures Candidate(cfg, st, se, Request(c, reqId)).remotePort == FirstFree(ScanOrder(cfg.ranges), st.byPort.Keys)
  {
    hide FirstFree, ScanOrder;
  }

  // ---- Moving a port to a new name ----

  /** `from` still holds the port, and `to` is not held. */
  ghost predicate Blocked(st: State, se: SessionId, from: string, to: string, port: int) {
    && se in st.owned
    && (Entry(st, se, from).Some? && Entry(st, se, from).value.remotePort == port != 0)
    && Entry(st, se, to) == None
  }

  lemma BlockedServe(cfg: Settings, st: State, se: SessionId, m: Msg, from: string, to: string, port: int)
    requires AllValid(cfg.ranges) && Inv(cfg, st) && Blocked(st, se, from, to, port) && from != to
    requires NameOf(m) != from
    requires NameOf(m) == to ==> m.RegisterMsg? && m.np.typ == "tcp" && m.np.remotePort == port
    ensures Blocked(Serve(cfg, st, se, m), se, from, to, port)
  {
    hide Key, Live, OwnersAgree, HostsAgree, ProxiesSound, SessionsSound, WellFormed, Register, Close, NameOf;
    ServeKeepsInv(cfg, st, se, m);
    ServeOtherName(cfg, st, se, m, from);
    if NameOf(m) == to {
      OwnedIsLive(st, se, from);
      PortTaken(cfg, st, se, m.np, port);
      NameOfRegister(m);
    } else {
      ServeOtherName(cfg, st, se, m, to);
    }
  }

  lemma NameOfRegister(m: Msg)
    requires m.RegisterMsg?
    ensures NameOf(m) == m.np.name
  {}

  lemma PortTaken(cfg: Settings, st: State, se: SessionId, np: NewProxy, port: int)
    requires AllValid(cfg.ranges) && Inv(cfg, st) && se in st.owned && port in st.byPort
    requires np.typ == "tcp" && np.remotePort == port != 0
    ensures Register(cfg, st, se, np, true).0 == st
  {
    hide Key, Live, HostsAgree, SessionsSound, WellFormed, Register;
    if Key(se.client, np.name) in st.proxies {
      RegisterTaken(cfg, st, se, np, true);
    } else {
      RegisterFresh(cfg, st, se, np, true);
      CandidatePort(cfg, st, se, np);
    }
  }

  lemma CandidatePort(cfg: Settings, st: State, se: SessionId, np: NewProxy)
    requires np.typ == "tcp" && np.remotePort != 0
    ensures Candidate(cfg, st, se, np).remotePort == np.remotePort
  {}

  lemma {:induction false} BlockedRun(cfg: Settings, was: State, se: SessionId, events: seq<Event>, msgs: seq<Msg>,
                                      from: string, to: string, port: int)
    requires AllValid(cfg.ranges) && Inv(cfg, was) && Blocked(was, se, from, to, port) && from != to
    requires Interleaved(se, events, msgs)
    requires forall m :: m in msgs ==> NameOf(m) != from
    requires forall m :: m in msgs && NameOf(m) == to ==> m.RegisterMsg? && m.np.typ == "tcp" && m.np.remotePort == port
    ensures Inv(cfg, Run(cfg, was, events)) && Blocked(Run(cfg, was, events), se, from, to, port)
    decreases |events|
  {
    hide Inv, Register, Close, Elsewhere, NameOf;
    if events != [] {
      var init, e := events[..|events| - 1], events[|events| - 1];
      var mid := Run(cfg, was, init);
      if Elsewhere(se, e) && Interleaved(se, init, msgs) {
        BlockedRun(cfg, was, se, init, msgs, from, to, port);
        ElsewhereTables(cfg, mid, se, e);
      } else {
        var m := msgs[|msgs| - 1];
        BlockedRun(cfg, was, se, init, msgs[..|msgs| - 1], from, to, port);
        hide Blocked;
        HasSession(mid, se, from, to, port);
        ServeKeepsInv(cfg, mid, se, m);
        BlockedServe(cfg, mid, se, m, from, to, port);
        StepServes(cfg, mid, se, m);
      }
    }
  }

  lemma HasSession(st: State, se: SessionId, from: string, to: string, port: int)
    requires Blocked(st, se, from, to, port)
    ensures se in st.owned && Entry(st, se, to) == None
  {}

  /** An interleaving of two lists in a row splits where the first one ends. */
  lemma {:induction false} InterleavedSplit(se: SessionId, events: seq<Event>, a: seq<Msg>, b: seq<Msg>) returns (k: nat)
    requires Interleaved(se, events, a + b)
    ensures k <= |events| && Interleaved(se, events[..k], a) && Interleaved(se, events[k..], b)
    decreases |events|
  {
    hide EventOf, Elsewhere;
    if b == [] {
      k := |events|;
      assert a + b == a && events[..k] == events && events[k..] == [];
    } else {
      assert a + b != [];
      var init, e := events[..|events| - 1], events[|events| - 1];
      if Elsewhere(se, e) && Interleaved(se, init, a + b) {
        k := InterleavedSplit(se, init, a, b);
      } else {
        assert (a + b)[..|a + b| - 1] == a + b[..|b| - 1];
        k := InterleavedSplit(se, init, a, b[..|b| - 1]);
      }
      assert events[..k] == init[..k] && events[k..] == init[k..] + [e];
      InterleavedSnoc(se, init[k..], e, b);
    }
  }

  lemma InterleavedSnoc(se: SessionId, events: seq<Event>, e: Event, msgs: seq<Msg>)
    requires || (Elsewhere(se, e) && Interleaved(se, events, msgs))
             || (msgs != [] && e == EventOf(se, msgs[|msgs| - 1]) && Interleaved(se, events, msgs[..|msgs| - 1]))
    ensures Interleaved(se, events + [e], msgs)
  {
    hide EventOf, Elsewhere;
    assert (events + [e])[..|events|] == events;
  }

  /** Between two messages any client may log in and every other session may do anything. */
  lemma OthersMayAct(se: SessionId, events: seq<Event>, msgs: seq<Msg>, s: SessionId, client: string, np: NewProxy,
                     bindOk: bool, name: string)
    requires Interleaved(se, events, msgs) && s != se
    ensures Interleaved(se, events + [LoginEv(client)], msgs) && Interleaved(se, events + [DropEv(s)], msgs)
    ensures Interleaved(se, events + [RegisterEv(s, np, bindOk)], msgs) && Interleaved(se, events + [CloseEv(s, name)], msgs)
  {
    hide Interleaved;
    InterleavedSnoc(se, events, LoginEv(client), msgs);
    InterleavedSnoc(se, events, DropEv(s), msgs);
    InterleavedSnoc(se, events, RegisterEv(s, np, bindOk), msgs);
    InterleavedSnoc(se, events, CloseEv(s, name), msgs);
  }

  lemma {:induction false} RunSplit(cfg: Settings, st: State, events: seq<Event>, k: nat)
    requires k <= |events|
    ensures Run(cfg, st, events) == Run(cfg, Run(cfg, st, events[..k]), events[k..])
    decreases |events| - k
  {
    hide Step;
    if k == |events| {
      assert events[..k] == events && events[k..] == [];
    } else {
      RunSplit(cfg, st, events, k + 1);
      assert events[..k + 1][..k] == events[..k];
      RunStep(cfg, Run(cfg, st, events[..k]), events[k], events[k + 1..]);
      assert [events[k]] + events[k + 1..] == events[k..];
    }
  }

  lemma {:induction false} RunStep(cfg: Settings, st: State, e: Event, rest: seq<Event>)
    ensures Run(cfg, st, [e] + rest) == Run(cfg, Step(cfg, st, e), rest)
    decreases |rest|
  {
    hide Step;
    if rest == [] {
      assert [e] + rest == [e] && [e][..0] == [];
      assert Run(cfg, st, []) == st;
    } else {
      assert ([e] + rest)[..|rest|] == [e] + rest[..|rest| - 1];
      RunStep(cfg, st, e, rest[..|rest| - 1]);
    }
  }

  /** Since registrations come before the closes of removed names, a reload that gives a
      removed proxy's port to a new name never converges: in no order of the maps and
      whatever others do in between, that name ends up unheld. */
  lemma MovedPortNeverConverges(cfg: Settings, was: State, se: SessionId, oldT: Table, newT: Table,
                                newOrder: seq<string>, oldOrder: seq<string>, seqNo: int, events: seq<Event>,
                                from: string, to: string)
    requires Start(cfg, was, se, oldT, newT) && OrderOf(newOrder, newT) && OrderOf(oldOrder, oldT)
    requires from in oldT && from !in newT && to in newT && to !in oldT
    requires newT[to].typ == "tcp" && was.owned[se][from].remotePort == newT[to].remotePort != 0
    requires Interleaved(se, events, Plan(oldT, newT, newOrder, oldOrder, seqNo))
    ensures var st := Run(cfg, was, events);
      Entry(st, se, to) == None && !Converged(was, st, se, oldT, newT)
  {
    hide Inv, ProxyEqual, Updates, Closes, NameOf, Interleaved, Run, SameConfig;
    var ups, closes := Updates(oldT, newT, newOrder, seqNo), Closes(newT, oldOrder);
    var port := newT[to].remotePort;
    var k := InterleavedSplit(se, events, ups, closes);
    RunSplit(cfg, was, events, k);
    forall m | m in ups ensures NameOf(m) != from
      ensures NameOf(m) == to ==> m.RegisterMsg? && m.np.typ == "tcp" && m.np.remotePort == port
    {
      UpdateNames(oldT, newT, newOrder, seqNo, m);
      UpdateMsg(oldT, newT, newOrder, seqNo, m);
    }
    BlockedRun(cfg, was, se, events[..k], ups, from, to, port);
    forall m | m in closes ensures NameOf(m) != to {
      CloseNames(newT, oldOrder, m);
    }
    Untouched(cfg, Run(cfg, was, events[..k]), se, events[k..], closes, to);
    assert Changed(oldT, newT, to);
  }

  lemma {:induction false} UpdateMsg(oldT: Table, newT: Table, order: seq<string>, seqNo: int, m: Msg)
    requires WellNamed(newT) && forall n :: n in order ==> n in newT
    requires m in Updates(oldT, newT, order, seqNo)
    ensures NameOf(m) in newT
    ensures m.CloseMsg? ==> NameOf(m) in oldT
    ensures m.RegisterMsg? ==> m.np == Request(newT[NameOf(m)], m.np.reqId)
    decreases |order|
  {
    hide ProxyEqual;
    if order != [] && m !in Actions(oldT, newT, order[0], seqNo + 1) {
      UpdateMsg(oldT, newT, order[1..], if Changed(oldT, newT, order[0]) then seqNo + 1 else seqNo, m);
    }
  }
}
