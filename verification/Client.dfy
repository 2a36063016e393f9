/** The client as the program runs it: its proxy table, its pending requests and what it
    hands to the control stream, for one connected period (internal/client/client.go). */
module Client {
  import opened Wrappers
  import opened Registry
  import opened Reload

  // ---- What a loop over a map sends ----

  /** The table of a list of proxies; a later entry replaces an earlier one of its name. */
  function TableOf(ps: seq<ProxyConfig>): (t: Table)
    ensures forall n :: n in t ==> t[n].name == n
  {
    if ps == [] then map[] else TableOf(ps[..|ps| - 1])[ps[|ps| - 1].name := ps[|ps| - 1]]
  }

  /** A table holds exactly the listed names, each with its last entry. */
  ghost predicate IsTableOf(ps: seq<ProxyConfig>, t: Table) {
    && (forall n :: n in t <==> exists i :: 0 <= i < |ps| && ps[i].name == n)
    && (forall i :: 0 <= i < |ps| && IsLast(ps, i) ==> ps[i].name in t && t[ps[i].name] == ps[i])
  }

  ghost predicate IsLast(ps: seq<ProxyConfig>, i: nat)
    requires i < |ps|
  {
    forall j :: i < j < |ps| ==> ps[j].name != ps[i].name
  }

  lemma {:induction false} TableNames(ps: seq<ProxyConfig>, n: string)
    ensures n in TableOf(ps) <==> exists i :: 0 <= i < |ps| && ps[i].name == n
  {
    if ps != [] {
      var init := ps[..|ps| - 1];
      TableNames(init, n);
      if n in TableOf(init) {
        var i :| 0 <= i < |init| && init[i].name == n;
        assert ps[i].name == n;
      }
      if i :| 0 <= i < |ps| && ps[i].name == n {
        assert i < |init| ==> init[i].name == n;
      }
    }
  }

  lemma {:induction false} TableLast(ps: seq<ProxyConfig>, i: nat)
    requires i < |ps| && IsLast(ps, i)
    ensures ps[i].name in TableOf(ps) && TableOf(ps)[ps[i].name] == ps[i]
    decreases |ps|
  {
    if i < |ps| - 1 {
      var init := ps[..|ps| - 1];
      assert forall j :: i < j < |init| ==> init[j] == ps[j];
      TableLast(init, i);
    }
  }

  lemma TableOfExact(ps: seq<ProxyConfig>)
    ensures IsTableOf(ps, TableOf(ps))
  {
    hide IsLast;
    forall n ensures n in TableOf(ps) <==> exists i :: 0 <= i < |ps| && ps[i].name == n {
      TableNames(ps, n);
    }
    forall i | 0 <= i < |ps| && IsLast(ps, i) ensures ps[i].name in TableOf(ps) && TableOf(ps)[ps[i].name] == ps[i] {
      TableLast(ps, i);
    }
  }

  /** One registration for each name, numbered from `seqNo + 1`. */
  function Registrations(t: Table, order: seq<string>, seqNo: int): (msgs: seq<Msg>)
    requires forall n :: n in order ==> n in t
    ensures |msgs| == |order|
    ensures forall i :: 0 <= i < |order| ==> msgs[i] == RegisterMsg(Request(t[order[i]], seqNo + 1 + i))
  {
    seq(|order|, i requires 0 <= i < |order| => RegisterMsg(Request(t[order[i]], seqNo + 1 + i)))
  }

  lemma NoRegistrations(t: Table, seqNo: int)
    ensures Registrations(t, [], seqNo) == []
  {}

  lemma RegistrationsSnoc(t: Table, order: seq<string>, n: string, seqNo: int)
    requires n in t && forall m :: m in order ==> m in t
    ensures forall m :: m in order + [n] ==> m in t
    ensures Registrations(t, order + [n], seqNo) ==
            Registrations(t, order, seqNo) + [RegisterMsg(Request(t[n], seqNo + |order| + 1))]
  {
    hide Request;
  }

  /** The messages that got through: `fates` says which did. */
  function Kept(msgs: seq<Msg>, fates: seq<bool>): seq<Msg>
    requires |fates| == |msgs|
  {
    if msgs == [] then []
    else (if fates[0] then [msgs[0]] else []) + Kept(msgs[1..], fates[1..])
  }

  lemma KeptStep(msgs: seq<Msg>, fates: seq<bool>)
    requires |fates| == |msgs| && msgs != []
    ensures Kept(msgs, fates) == (if fates[0] then [msgs[0]] else []) + Kept(msgs[1..], fates[1..])
  {}

  lemma {:induction false} KeptConcat(a: seq<Msg>, b: seq<Msg>, fa: seq<bool>, fb: seq<bool>)
    requires |a| == |fa| && |b| == |fb|
    ensures Kept(a + b, fa + fb) == Kept(a, fa) + Kept(b, fb)
    decreases |a|
  {
    if a == [] {
      assert a + b == b && fa + fb == fb;
    } else {
      KeptStep(a, fa);
      KeptStep(a + b, fa + fb);
      hide Kept;
      assert (a + b)[1..] == a[1..] + b && (fa + fb)[1..] == fa[1..] + fb;
      KeptConcat(a[1..], b, fa[1..], fb);
    }
  }

  lemma KeptOne(m: Msg, fate: bool)
    ensures Kept([m], [fate]) == if fate then [m] else []
  {
    assert [m][1..] == [];
  }

  lemma KeptNothing()
    ensures Kept([], []) == []
  {}

  lemma NothingToSend(newT: Table)
    ensures Closes(newT, []) == []
  {}

  lemma {:induction false} KeptAll(msgs: seq<Msg>, fates: seq<bool>)
    requires |fates| == |msgs| && forall i :: 0 <= i < |fates| ==> fates[i]
    ensures Kept(msgs, fates) == msgs
  {
    if msgs != [] {
      KeptAll(msgs[1..], fates[1..]);
    }
  }

  lemma {:induction false} KeptFrom(msgs: seq<Msg>, fates: seq<bool>, m: Msg)
    requires |fates| == |msgs| && m in Kept(msgs, fates)
    ensures m in msgs
  {
    if m !in (if fates[0] then [msgs[0]] else []) {
      KeptFrom(msgs[1..], fates[1..], m);
    }
  }

  lemma {:induction false} ClosesSnoc(newT: Table, order: seq<string>, n: string)
    ensures Closes(newT, order + [n]) == Closes(newT, order) + if n in newT then [] else [CloseMsg(n)]
    decreases |order|
  {
    if order == [] {
      assert order + [n] == [n];
      assert [n][1..] == [];
    } else {
      assert (order + [n])[1..] == order[1..] + [n];
      ClosesSnoc(newT, order[1..], n);
    }
  }

  /** What a writer takes of messages offered to it one after the other, the first of them
      being its offer number `from`. */
  function Taken(msgs: seq<Msg>, takes: nat -> bool, from: nat): seq<Msg> {
    Kept(msgs, Fates(takes, from, |msgs|))
  }

  function Fates(takes: nat -> bool, from: nat, n: nat): (fates: seq<bool>)
    ensures |fates| == n
    ensures forall i :: 0 <= i < n ==> fates[i] == takes(from + i)
  {
    seq(n, i requires 0 <= i < n => takes(from + i))
  }

  lemma TakenConcat(a: seq<Msg>, b: seq<Msg>, takes: nat -> bool, from: nat)
    ensures Taken(a + b, takes, from) == Taken(a, takes, from) + Taken(b, takes, from + |a|)
  {
    hide Kept;
    assert Fates(takes, from, |a + b|) == Fates(takes, from, |a|) + Fates(takes, from + |a|, |b|);
    KeptConcat(a, b, Fates(takes, from, |a|), Fates(takes, from + |a|, |b|));
  }

  lemma TakenOne(m: Msg, takes: nat -> bool, from: nat)
    ensures Taken([m], takes, from) == if takes(from) then [m] else []
    ensures Taken([], takes, from) == []
  {
    hide Kept;
    KeptOne(m, takes(from));
    assert Fates(takes, from, 1) == [takes(from)];
    KeptNothing();
  }

  /** A writer that takes all it is offered hands over all of it. */
  lemma TakenAll(msgs: seq<Msg>, takes: nat -> bool, from: nat)
    requires forall i :: from <= i < from + |msgs| ==> takes(i)
    ensures Taken(msgs, takes, from) == msgs
  {
    hide Kept;
    KeptAll(msgs, Fates(takes, from, |msgs|));
  }

  lemma ActionsAre(oldT: Table, newT: Table, n: string, reqId: int)
    requires n in newT
    ensures Actions(oldT, newT, n, reqId) ==
            if n !in oldT then [RegisterMsg(Request(newT[n], reqId))]
            else if ProxyEqual(oldT[n], newT[n]) then []
            else [CloseMsg(n)] + [RegisterMsg(Request(newT[n], reqId))]
  {
    hide ProxyEqual, Request;
  }

  // ---- The client ----

  datatype Failure = NotConnected | SendTimeout | AnswerTimeout | Rejected(error: Option<RegisterError>)

  /** `takes` is the writer: whether its channel takes the message offered to it as number
      `i` in time. `replies` is what the control loop puts in time into the channel of the
      request with a given id, if anything. `outbox` is what the writer took since the
      connection was made, `offers` the number of messages offered to it so far; `pending`
      maps a request id to what its channel holds. */
  class Client {
    const takes: nat -> bool
    const replies: int -> Option<Resp>
    var offers: nat
    var table: Table
    var connected: bool
    var outbox: seq<Msg>
    var pending: map<int, seq<Resp>>
    var reqSeq: int

    constructor (ps: seq<ProxyConfig>, takes: nat -> bool, replies: int -> Option<Resp>)
      ensures Valid() && table == TableOf(ps) && !connected && outbox == [] && pending == map[] && reqSeq == 0
      ensures this.takes == takes && this.replies == replies && offers == 0
    {
      this.takes, this.replies, offers := takes, replies, 0;
      table := map[];
      connected, outbox, pending, reqSeq := false, [], map[], 0;
      new;
      table := BuildProxyMap(ps);
    }

    /** No id is pending that was not drawn. */
    ghost predicate Valid()
      reads this`pending, this`reqSeq
    {
      forall id :: id in pending ==> id <= reqSeq
    }

    /** The table of a list: exactly the listed names, each with its last entry. */
    method BuildProxyMap(ps: seq<ProxyConfig>) returns (m: Table)
      ensures m == TableOf(ps) && IsTableOf(ps, m)
    {
      hide IsTableOf;
      m := map[];
      for i := 0 to |ps|
        invariant m == TableOf(ps[..i])
      {
        assert ps[..i + 1][..i] == ps[..i];
        m := m[ps[i].name := ps[i]];
      }
      assert ps[..|ps|] == ps;
      TableOfExact(ps);
    }

    method NextReqID() returns (id: int)
      requires Valid()
      modifies this`reqSeq
      ensures Valid() && id == reqSeq == old(reqSeq) + 1
    {
      reqSeq := reqSeq + 1;
      id := reqSeq;
    }

    /** Puts a response into the channel of its request, if anyone still waits. The
        channel holds one response, so it must be empty. */
    method DeliverPending(resp: Resp)
      requires Valid() && (resp.reqId in pending ==> pending[resp.reqId] == [])
      modifies this`pending
      ensures Valid() && pending.Keys == old(pending).Keys
      ensures pending == if resp.reqId in old(pending) then old(pending)[resp.reqId := [resp]] else old(pending)
    {
      if resp.reqId in pending {
        assert pending[resp.reqId] + [resp] == [resp];
        pending := pending[resp.reqId := pending[resp.reqId] + [resp]];
      }
    }

    /** A new control stream with its own writer. */
    method Connect()
      requires Valid()
      modifies this`connected, this`outbox
      ensures Valid() && connected && outbox == []
    {
      connected, outbox := true, [];
    }

    /** The answer to a request, as far as it comes in time. */
    function AnswerTo(reqId: int): Option<Resp> {
      match replies(reqId)
      case None => None
      case Some(resp) => Some(resp.(reqId := reqId))
    }

    /** Offers one registration under a new id to the writer and waits for the answer. The
        caller learns of success exactly when the writer took the request in time and an OK
        answer to this id came in time. */
    method RegisterProxy(p: ProxyConfig) returns (failure: Option<Failure>)
      requires Valid()
      modifies this`reqSeq, this`pending, this`outbox, this`offers
      ensures Valid() && pending == old(pending)
      ensures !connected ==> failure == Some(NotConnected) && outbox == old(outbox)
      ensures !connected ==> reqSeq == old(reqSeq) && offers == old(offers)
      ensures connected ==>
                && reqSeq == old(reqSeq) + 1 && offers == old(offers) + 1
                && outbox == old(outbox) + (if takes(old(offers)) then [RegisterMsg(Request(p, reqSeq))] else [])
                && failure ==
                   if !takes(old(offers)) then Some(SendTimeout)
                   else match AnswerTo(reqSeq)
                     case None => Some(AnswerTimeout)
                     case Some(resp) => if resp.ok then None else Some(Rejected(resp.error))
    {
      if !connected {
        return Some(NotConnected);
      }
      var reqId := NextReqID();
      pending := pending[reqId := []];
      var sent := takes(offers);
      offers := offers + 1;
      if sent {
        outbox := outbox + [RegisterMsg(Request(p, reqId))];
        var answer := AnswerTo(reqId);
        if answer.Some? {
          DeliverPending(answer.value);
        }
        failure :=
          if pending[reqId] == [] then Some(AnswerTimeout)
          else if pending[reqId][0].ok then None
          else Some(Rejected(pending[reqId][0].error));
      } else {
        failure := Some(SendTimeout);
      }
      pending := pending - {reqId};
    }

    /** Offers one close to the writer, which drops it when it is busy; no answer is
        awaited. */
    method CloseProxyRPC(name: string)
      modifies this`outbox, this`offers
      ensures !connected ==> outbox == old(outbox) && offers == old(offers)
      ensures connected ==>
                && offers == old(offers) + 1
                && outbox == old(outbox) + if takes(old(offers)) then [CloseMsg(name)] else []
    {
      if connected {
        if takes(offers) {
          outbox := outbox + [CloseMsg(name)];
        }
        offers := offers + 1;
      }
    }

    /** What one name of the new table sends. */
    method Update(oldM: Table, newM: Table, name: string)
      requires Valid() && connected && name in newM
      modifies this`reqSeq, this`pending, this`outbox, this`offers
      ensures Valid() && pending == old(pending)
      ensures reqSeq == old(reqSeq) + if Changed(oldM, newM, name) then 1 else 0
      ensures var acts := Actions(oldM, newM, name, old(reqSeq) + 1);
        outbox == old(outbox) + Taken(acts, takes, old(offers)) && offers == old(offers) + |acts|
    {
      hide Taken, ProxyEqual, Request, Actions;
      ghost var register := RegisterMsg(Request(newM[name], reqSeq + 1));
      ghost var close := [CloseMsg(name)];
      ActionsAre(oldM, newM, name, reqSeq + 1);
      TakenOne(CloseMsg(name), takes, offers);
      var known := name in oldM;
      if known {
        var same := ProxyEqual(oldM[name], newM[name]);
        if same {
          return;
        }
        TakenConcat(close, [register], takes, offers);
        CloseProxyRPC(name);
      }
      TakenOne(register, takes, offers);
      var failure := RegisterProxy(newM[name]);
    }

    /** Reload: the new table replaces the old one, then new and changed proxies are
        registered and removed ones closed, walking both maps in any order. Every message
        of the plan of those orders is offered to the writer, and those it takes are handed
        over, in order. */
    method Reload(loaded: Option<seq<ProxyConfig>>) returns (ghost newOrder: seq<string>, ghost oldOrder: seq<string>)
      requires Valid()
      modifies this
      ensures Valid() && pending == old(pending) && connected == old(connected)
      ensures table == if loaded.Some? then TableOf(loaded.value) else old(table)
      ensures loaded.None? || !connected ==> outbox == old(outbox) && reqSeq == old(reqSeq) && offers == old(offers)
      ensures loaded.Some? && connected ==>
                && OrderOf(newOrder, table) && OrderOf(oldOrder, old(table))
                && reqSeq == old(reqSeq) + ChangedIn(old(table), table, newOrder)
                && var plan := Plan(old(table), table, newOrder, oldOrder, old(reqSeq));
                   outbox == old(outbox) + Taken(plan, takes, old(offers)) && offers == old(offers) + |plan|
    {
      hide IsTableOf, Updates, Closes, Taken, ChangedIn;
      newOrder, oldOrder := [], [];
      if loaded.None? {
        return;
      }
      var oldM := table;
      var newM := BuildProxyMap(loaded.value);
      table := newM;
      if !connected {
        return;
      }
      newOrder := UpdateAll(oldM, newM);
      oldOrder := CloseRemoved(oldM, newM);
      TakenConcat(Updates(oldM, newM, newOrder, old(reqSeq)), Closes(newM, oldOrder), takes, old(offers));
    }

    /** The first loop of a reload. */
    method UpdateAll(oldM: Table, newM: Table) returns (ghost order: seq<string>)
      requires Valid() && connected
      modifies this`reqSeq, this`pending, this`outbox, this`offers
      ensures Valid() && pending == old(pending) && OrderOf(order, newM)
      ensures reqSeq == old(reqSeq) + ChangedIn(oldM, newM, order)
      ensures var msgs := Updates(oldM, newM, order, old(reqSeq));
        outbox == old(outbox) + Taken(msgs, takes, old(offers)) && offers == old(offers) + |msgs|
    {
      hide Changed, Actions, Updates, Taken, ChangedIn;
      NoUpdates(oldM, newM, reqSeq);
      TakenOne(CloseMsg(""), takes, offers);
      order := [];
      ghost var msgs := [];
      var left := newM.Keys;
      while left != {}
        invariant Valid() && pending == old(pending)
        invariant NoDup(order) && forall n :: n in newM <==> n in left || n in order
        invariant forall n :: n in order ==> n !in left
        invariant reqSeq == old(reqSeq) + ChangedIn(oldM, newM, order)
        invariant msgs == Updates(oldM, newM, order, old(reqSeq))
        invariant outbox == old(outbox) + Taken(msgs, takes, old(offers)) && offers == old(offers) + |msgs|
        decreases |left|
      {
        var name :| name in left;
        left := left - {name};
        ghost var acts := Actions(oldM, newM, name, reqSeq + 1);
        UpdatesSnoc(oldM, newM, order, name, old(reqSeq));
        TakenConcat(msgs, acts, takes, old(offers));
        Update(oldM, newM, name);
        order, msgs := order + [name], msgs + acts;
      }
    }

    /** The second loop of a reload. */
    method CloseRemoved(oldM: Table, newM: Table) returns (ghost order: seq<string>)
      requires connected
      modifies this`outbox, this`offers
      ensures OrderOf(order, oldM)
      ensures var msgs := Closes(newM, order);
        outbox == old(outbox) + Taken(msgs, takes, old(offers)) && offers == old(offers) + |msgs|
    {
      hide Closes, Taken;
      NothingToSend(newM);
      TakenOne(CloseMsg(""), takes, offers);
      order := [];
      ghost var msgs := [];
      var left := oldM.Keys;
      while left != {}
        invariant NoDup(order) && forall n :: n in oldM <==> n in left || n in order
        invariant forall n :: n in order ==> n !in left
        invariant msgs == Closes(newM, order)
        invariant outbox == old(outbox) + Taken(msgs, takes, old(offers)) && offers == old(offers) + |msgs|
        decreases |left|
      {
        var name :| name in left;
        left := left - {name};
        ClosesSnoc(newM, order, name);
        if name !in newM {
          TakenConcat(msgs, [CloseMsg(name)], takes, old(offers));
          TakenOne(CloseMsg(name), takes, offers);
          CloseProxyRPC(name);
          msgs := msgs + [CloseMsg(name)];
        }
        order := order + [name];
      }
    }

    /** After a login: every proxy of the table is offered for registration, in any order. */
    method RegisterAll() returns (ghost order: seq<string>)
      requires Valid() && connected
      modifies this`reqSeq, this`pending, this`outbox, this`offers
      ensures Valid() && pending == old(pending) && OrderOf(order, table)
      ensures reqSeq == old(reqSeq) + |order| && offers == old(offers) + |order|
      ensures outbox == old(outbox) + Taken(Registrations(table, order, old(reqSeq)), takes, old(offers))
    {
      hide Taken, Registrations, Request;
      TakenOne(CloseMsg(""), takes, offers);
      order := [];
      ghost var msgs: seq<Msg> := [];
      NoRegistrations(table, reqSeq);
      var left := table.Keys;
      while left != {}
        invariant Valid() && pending == old(pending)
        invariant NoDup(order) && forall n :: n in table <==> n in left || n in order
        invariant forall n :: n in order ==> n !in left
        invariant |msgs| == |order| && msgs == Registrations(table, order, old(reqSeq))
        invariant reqSeq == old(reqSeq) + |order| && offers == old(offers) + |order|
        invariant outbox == old(outbox) + Taken(msgs, takes, old(offers))
        decreases |left|
      {
        var name :| name in left;
        left := left - {name};
        ghost var msg := RegisterMsg(Request(table[name], reqSeq + 1));
        TakenConcat(msgs, [msg], takes, old(offers));
        TakenOne(msg, takes, offers);
        var failure := RegisterProxy(table[name]);
        RegistrationsSnoc(table, order, name, old(reqSeq));
        order, msgs := order + [name], msgs + [msg];
      }
    }
  }
}
