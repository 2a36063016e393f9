/** The server's reader of one control stream: messages are handled one at a time, each
    registration is answered before the next message is read, and however the loop
    ends the session is closed (internal/server/session.go). */
module Control {
  import R = Registry
  import L = RegistryLaws
  import Reload
  import S = Server

  /** A message as read; `bindOk` is whether the port binds, and `sent` whether the answer
      can be written. */
  datatype Incoming =
    | NewProxyIn(np: R.NewProxy, bindOk: bool, sent: bool)
    | CloseIn(name: string)
    | PingIn(ts: int, sent: bool)
    | Malformed
    | Unknown

  datatype Outgoing = RespOut(resp: R.Resp) | PongOut(ts: int)

  predicate Fatal(m: Incoming) {
    (m.NewProxyIn? || m.PingIn?) && !m.sent
  }

  function After(cfg: R.Settings, st: R.State, se: R.SessionId, m: Incoming): R.State {
    match m
    case NewProxyIn(np, bindOk, _) => if se in st.owned then R.Register(cfg, st, se, np, bindOk).0 else st
    case CloseIn(name) => R.Close(st, se, name)
    case _ => st
  }

  function Reply(cfg: R.Settings, st: R.State, se: R.SessionId, m: Incoming): seq<Outgoing> {
    match m
    case NewProxyIn(np, bindOk, sent) =>
      if sent && se in st.owned then [RespOut(R.Register(cfg, st, se, np, bindOk).1)] else []
    case PingIn(ts, sent) => if sent then [PongOut(ts)] else []
    case _ => []
  }

  /** The messages handled before the loop ends: all up to the first whose answer cannot
      be written, that one included. */
  function Read(msgs: seq<Incoming>): (r: seq<Incoming>)
    ensures r <= msgs
  {
    if msgs == [] then [] else if Fatal(msgs[0]) then [msgs[0]] else [msgs[0]] + Read(msgs[1..])
  }

  function AfterAll(cfg: R.Settings, st: R.State, se: R.SessionId, msgs: seq<Incoming>): R.State
    decreases |msgs|
  {
    if msgs == [] then st else AfterAll(cfg, After(cfg, st, se, msgs[0]), se, msgs[1..])
  }

  function Replies(cfg: R.Settings, st: R.State, se: R.SessionId, msgs: seq<Incoming>): seq<Outgoing>
    decreases |msgs|
  {
    if msgs == [] then []
    else Reply(cfg, st, se, msgs[0]) + Replies(cfg, After(cfg, st, se, msgs[0]), se, msgs[1..])
  }

  /** The switch on one message; `over` says the loop ends here. */
  method Handle(s: S.Server, se: S.Session, m: Incoming) returns (reply: seq<Outgoing>, over: bool)
    requires s.Valid() && s.Known(se)
    modifies s, se, set n | n in se.proxies :: se.proxies[n]
    ensures s.Valid() && s.Known(se)
    ensures s.Abs() == After(s.cfg, old(s.Abs()), se.id, m) && over == Fatal(m)
    ensures reply == Reply(s.cfg, old(s.Abs()), se.id, m)
    ensures S.OnlyNewProxies(se)
  {
    hide S.Server.Valid, S.Server.Abs, S.Server.Wired, R.Register, R.Close;
    reply, over := [], false;
    match m {
      case NewProxyIn(np, bindOk, sent) =>
        var resp := s.RegisterProxy(se, np, bindOk);
        over := !sent;
        if sent {
          reply := [RespOut(resp)];
        }
      case CloseIn(name) => s.CloseProxy(se, name);
      case PingIn(ts, sent) =>
        over := !sent;
        if sent {
          reply := [PongOut(ts)];
        }
      case Malformed =>
      case Unknown =>
    }
  }

  /** Reads and serves messages until an answer cannot be written or none is left. */
  method ServeMessages(s: S.Server, se: S.Session, msgs: seq<Incoming>) returns (out: seq<Outgoing>)
    requires s.Valid() && s.Known(se)
    modifies s, se, set n | n in se.proxies :: se.proxies[n]
    ensures s.Valid() && s.Known(se) && S.OnlyNewProxies(se)
    ensures out == Replies(s.cfg, old(s.Abs()), se.id, Read(msgs))
    ensures s.Abs() == AfterAll(s.cfg, old(s.Abs()), se.id, Read(msgs))
  {
    hide S.Server.Valid, S.Server.Abs, S.Server.Known, S.Server.Wired, After, Reply, Read, Replies, AfterAll, Fatal;
    out := [];
    ghost var goal := AfterAll(s.cfg, s.Abs(), se.id, Read(msgs));
    ghost var said := Replies(s.cfg, s.Abs(), se.id, Read(msgs));
    ghost var mine := se.proxies;
    var left := msgs;
    while left != []
      invariant s.Valid() && s.Known(se)
      invariant forall n :: n in se.proxies ==> (n in mine && se.proxies[n] == mine[n]) || fresh(se.proxies[n])
      invariant goal == AfterAll(s.cfg, s.Abs(), se.id, Read(left))
      invariant said == out + Replies(s.cfg, s.Abs(), se.id, Read(left))
      decreases |left|
    {
      StepOf(s.cfg, s.Abs(), se.id, left);
      var reply, over := Handle(s, se, left[0]);
      left := if over then [] else left[1..];
      Regroup(out, reply, Replies(s.cfg, s.Abs(), se.id, Read(left)));
      out := out + reply;
    }
    NothingRead(s.cfg, s.Abs(), se.id);
  }

  lemma Regroup(a: seq<Outgoing>, b: seq<Outgoing>, c: seq<Outgoing>)
    ensures a + (b + c) == a + b + c
  {}

  /** Serves the messages of one control stream, and then closes the session. */
  method ControlLoop(s: S.Server, se: S.Session, msgs: seq<Incoming>) returns (out: seq<Outgoing>)
    requires s.Valid() && s.Known(se)
    modifies s, se, set n | n in se.proxies :: se.proxies[n]
    ensures s.Valid() && se.closeDone
    ensures out == Replies(s.cfg, old(s.Abs()), se.id, Read(msgs))
    ensures s.Abs() == R.Drop(AfterAll(s.cfg, old(s.Abs()), se.id, Read(msgs)), se.id)
  {
    hide S.Server.Valid, S.Server.Abs, S.Server.Known, S.Server.Wired, R.Drop, Read, Replies, AfterAll;
    out := ServeMessages(s, se, msgs);
    s.Close(se);
  }

  lemma NothingRead(cfg: R.Settings, st: R.State, se: R.SessionId)
    ensures Read([]) == [] && AfterAll(cfg, st, se, []) == st && Replies(cfg, st, se, []) == []
  {}

  lemma ReadCons(msgs: seq<Incoming>)
    requires msgs != []
    ensures Read(msgs) == [msgs[0]] + if Fatal(msgs[0]) then [] else Read(msgs[1..])
  {}

  /** One turn of the loop on what is left to read. */
  lemma StepOf(cfg: R.Settings, st: R.State, se: R.SessionId, left: seq<Incoming>)
    requires left != []
    ensures var (st', r) := (After(cfg, st, se, left[0]), Reply(cfg, st, se, left[0]));
      var next := if Fatal(left[0]) then [] else left[1..];
      && AfterAll(cfg, st, se, Read(left)) == AfterAll(cfg, st', se, Read(next))
      && Replies(cfg, st, se, Read(left)) == r + Replies(cfg, st', se, Read(next))
  {
    hide After, Reply;
    ReadCons(left);
    var next := if Fatal(left[0]) then [] else left[1..];
    assert Read(left) == [left[0]] + Read(next) && Read(left)[1..] == Read(next);
  }

  // ---- What the peers can rely on ----

  /** The requests among the messages handled. */
  function Requests(msgs: seq<Incoming>): seq<R.NewProxy> {
    if msgs == [] then [] else (if msgs[0].NewProxyIn? then [msgs[0].np] else []) + Requests(msgs[1..])
  }

  function Answers(out: seq<Outgoing>): seq<R.Resp> {
    if out == [] then [] else (if out[0].RespOut? then [out[0].resp] else []) + Answers(out[1..])
  }

  /** The answers go one by one to the requests, the last of which may be unanswered. */
  ghost predicate InOrder(asked: seq<R.NewProxy>, said: seq<R.Resp>) {
    && |said| <= |asked| <= |said| + 1
    && forall i :: 0 <= i < |said| ==> said[i].reqId == asked[i].reqId && said[i].name == asked[i].name
  }

  lemma InOrderCons(q: seq<R.NewProxy>, a: seq<R.Resp>, asked: seq<R.NewProxy>, said: seq<R.Resp>)
    requires InOrder(asked, said) && |q| == |a|
    requires forall i :: 0 <= i < |a| ==> a[i].reqId == q[i].reqId && a[i].name == q[i].name
    ensures InOrder(q + asked, a + said)
  {}

  lemma AnswersConcat(a: seq<Outgoing>, b: seq<Outgoing>)
    requires |a| <= 1
    ensures Answers(a + b) == Answers(a) + Answers(b)
  {
    if a == [] {
      assert a + b == b;
    } else {
      assert (a + b)[1..] == b && a[1..] == [];
    }
  }

  lemma AnswerOf(cfg: R.Settings, st: R.State, se: R.SessionId, m: Incoming)
    requires se in st.owned
    ensures |Reply(cfg, st, se, m)| <= 1
    ensures var a := Answers(Reply(cfg, st, se, m));
      && |a| == (if m.NewProxyIn? && !Fatal(m) then 1 else 0)
      && (a != [] ==> a[0].reqId == m.np.reqId && a[0].name == m.np.name)
  {
    hide R.Register;
    if m.NewProxyIn? {
      L.RegisterEchoes(cfg, st, se, m.np, m.bindOk);
    }
  }

  lemma RequestsCons(m: Incoming, rest: seq<Incoming>)
    ensures Requests([m] + rest) == (if m.NewProxyIn? then [m.np] else []) + Requests(rest)
  {
    assert ([m] + rest)[1..] == rest;
  }

  /** Registrations are answered in the order they were read, one answer each, under
      their own id and name; only the last can go unanswered, and then the loop ended. */
  lemma {:induction false} AnsweredInOrder(cfg: R.Settings, st: R.State, se: R.SessionId, msgs: seq<Incoming>)
    requires se in st.owned
    ensures var (asked, said) := (Requests(Read(msgs)), Answers(Replies(cfg, st, se, Read(msgs))));
      && InOrder(asked, said)
      && (|said| < |asked| ==> Read(msgs) != [] && Fatal(Read(msgs)[|Read(msgs)| - 1]))
    decreases |msgs|
  {
    if msgs != [] {
      var m, rest := msgs[0], msgs[1..];
      var st' := After(cfg, st, se, m);
      var reply := Reply(cfg, st, se, m);
      StepOf(cfg, st, se, msgs);
      ReadCons(msgs);
      StillOwned(cfg, st, se, m);
      AnswerOf(cfg, st, se, m);
      hide After, Reply, Replies, Fatal, Read, Requests, Answers, InOrder;
      if Fatal(m) {
        assert reply + [] == reply;
        FatalInOrder(cfg, st, se, m);
      } else {
        AnsweredInOrder(cfg, st', se, rest);
        RequestsCons(m, Read(rest));
        AnswersConcat(reply, Replies(cfg, st', se, Read(rest)));
        InOrderCons(if m.NewProxyIn? then [m.np] else [], Answers(reply), Requests(Read(rest)),
                    Answers(Replies(cfg, st', se, Read(rest))));
      }
    }
  }

  /** Whether a message got an answer: a registration or a ping whose answer was written. */
  predicate GotAnswer(m: Incoming) {
    match m
    case NewProxyIn(_, _, sent) => sent
    case PingIn(_, sent) => sent
    case _ => false
  }

  /** How many messages got an answer. */
  function AnswersAmong(msgs: seq<Incoming>): nat {
    if msgs == [] then 0 else AnswersAmong(msgs[..|msgs| - 1]) + if GotAnswer(msgs[|msgs| - 1]) then 1 else 0
  }

  /** The registry reached before message `k`. */
  function Reached(cfg: R.Settings, st: R.State, se: R.SessionId, msgs: seq<Incoming>, k: nat): R.State
    requires k <= |msgs|
  {
    AfterAll(cfg, st, se, msgs[..k])
  }

  /** Only an answer that cannot be written ends the loop: what is read is everything, or
      everything up to and with the first registration or ping whose answer is lost. */
  lemma {:induction false} ReadExactly(msgs: seq<Incoming>)
    ensures var r := Read(msgs);
      && r <= msgs
      && (forall k :: 0 <= k < |r| - 1 && (r[k].NewProxyIn? || r[k].PingIn?) ==> r[k].sent)
      && (|r| < |msgs| ==> r != [] && (r[|r| - 1].NewProxyIn? || r[|r| - 1].PingIn?) && !r[|r| - 1].sent)
  {
    if msgs != [] && !Fatal(msgs[0]) {
      ReadExactly(msgs[1..]);
      var r, rest := Read(msgs), Read(msgs[1..]);
      assert r == [msgs[0]] + rest;
      assert forall k :: 1 <= k < |r| ==> r[k] == rest[k - 1];
    }
  }

  lemma {:induction false} AfterConcat(cfg: R.Settings, st: R.State, se: R.SessionId, a: seq<Incoming>, b: seq<Incoming>)
    ensures AfterAll(cfg, st, se, a + b) == AfterAll(cfg, AfterAll(cfg, st, se, a), se, b)
    decreases |a|
  {
    hide After;
    if a == [] {
      assert a + b == b;
    } else {
      assert (a + b)[1..] == a[1..] + b;
      AfterConcat(cfg, After(cfg, st, se, a[0]), se, a[1..], b);
    }
  }

  lemma {:induction false} RepliesConcat(cfg: R.Settings, st: R.State, se: R.SessionId, a: seq<Incoming>, b: seq<Incoming>)
    ensures Replies(cfg, st, se, a + b) == Replies(cfg, st, se, a) + Replies(cfg, AfterAll(cfg, st, se, a), se, b)
    decreases |a|
  {
    hide After, Reply;
    if a == [] {
      assert a + b == b;
    } else {
      assert (a + b)[1..] == a[1..] + b;
      var st' := After(cfg, st, se, a[0]);
      RepliesConcat(cfg, st', se, a[1..], b);
      Regroup(Reply(cfg, st, se, a[0]), Replies(cfg, st', se, a[1..]), Replies(cfg, AfterAll(cfg, st', se, a[1..]), se, b));
    }
  }

  lemma OneReply(cfg: R.Settings, st: R.State, se: R.SessionId, m: Incoming)
    ensures Replies(cfg, st, se, [m]) == Reply(cfg, st, se, m) && AfterAll(cfg, st, se, [m]) == After(cfg, st, se, m)
  {
    hide After, Reply;
    assert [m][1..] == [];
  }

  lemma {:induction false} AlwaysOwned(cfg: R.Settings, st: R.State, se: R.SessionId, msgs: seq<Incoming>)
    requires se in st.owned
    ensures se in AfterAll(cfg, st, se, msgs).owned
    decreases |msgs|
  {
    hide After;
    if msgs != [] {
      StillOwned(cfg, st, se, msgs[0]);
      AlwaysOwned(cfg, After(cfg, st, se, msgs[0]), se, msgs[1..]);
    }
  }

  /** There are as many answers as messages that got one. */
  lemma {:induction false} AnswersCounted(cfg: R.Settings, st: R.State, se: R.SessionId, msgs: seq<Incoming>)
    requires se in st.owned
    ensures |Replies(cfg, st, se, msgs)| == AnswersAmong(msgs)
    decreases |msgs|
  {
    hide After, AfterAll, Replies, R.Register;
    if msgs == [] {
      NothingRead(cfg, st, se);
    } else {
      var init, m := msgs[..|msgs| - 1], msgs[|msgs| - 1];
      assert msgs == init + [m];
      AnswersCounted(cfg, st, se, init);
      AlwaysOwned(cfg, st, se, init);
      RepliesConcat(cfg, st, se, init, [m]);
      OneReply(cfg, AfterAll(cfg, st, se, init), se, m);
    }
  }

  /** What one message does to the registry, and what answer it gets, as the protocol has
      it. A registration that gets an answer gets precisely what registering it answers, in
      the registry reached before it; a ping gets its own time back; and the answers come in
      the order of the messages, `AnswersAmong` of those before it being there first. */
  ghost predicate HandledAs(cfg: R.Settings, se: R.SessionId, m: Incoming, was: R.State, now: R.State, out: seq<Outgoing>, i: nat) {
    match m
    case NewProxyIn(np, bindOk, sent) =>
      && se in was.owned && now == R.Register(cfg, was, se, np, bindOk).0
      && (sent ==> i < |out| && out[i] == RespOut(R.Register(cfg, was, se, np, bindOk).1))
    case CloseIn(name) => now == R.Close(was, se, name)
    case PingIn(ts, sent) => now == was && (sent ==> i < |out| && out[i] == PongOut(ts))
    case Malformed => now == was
    case Unknown => now == was
  }

  /** Every message that is read is handled so, and there are no other answers. */
  lemma AnswersExactly(cfg: R.Settings, st: R.State, se: R.SessionId, msgs: seq<Incoming>, k: nat)
    requires se in st.owned && k < |msgs|
    ensures var out := Replies(cfg, st, se, msgs);
      && |out| == AnswersAmong(msgs)
      && HandledAs(cfg, se, msgs[k], Reached(cfg, st, se, msgs, k), Reached(cfg, st, se, msgs, k + 1), out,
                   AnswersAmong(msgs[..k]))
  {
    hide AfterAll, Replies, R.Register, R.Close, AnswersAmong;
    var a, m, b := msgs[..k], msgs[k], msgs[k + 1..];
    assert msgs == a + ([m] + b) && msgs[..k + 1] == a + [m];
    var was := AfterAll(cfg, st, se, a);
    AlwaysOwned(cfg, st, se, a);
    AnswersCounted(cfg, st, se, msgs);
    AnswersCounted(cfg, st, se, a);
    AfterConcat(cfg, st, se, a, [m]);
    OneReply(cfg, was, se, m);
    RepliesConcat(cfg, st, se, a, [m] + b);
    RepliesConcat(cfg, was, se, [m], b);
  }

  lemma FatalInOrder(cfg: R.Settings, st: R.State, se: R.SessionId, m: Incoming)
    requires Fatal(m)
    ensures InOrder(Requests([m] + []), Answers(Reply(cfg, st, se, m)))
  {
    assert ([m] + [])[1..] == [];
  }

  lemma StillOwned(cfg: R.Settings, st: R.State, se: R.SessionId, m: Incoming)
    requires se in st.owned
    ensures se in After(cfg, st, se, m).owned
  {
    hide R.Live, R.OwnersAgree;
    match m {
      case NewProxyIn(np, bindOk, _) => OwnedAfterRegister(cfg, st, se, np, bindOk);
      case CloseIn(name) =>
      case PingIn(_, _) =>
      case Malformed =>
      case Unknown =>
    }
  }

  lemma OwnedAfterRegister(cfg: R.Settings, st: R.State, se: R.SessionId, np: R.NewProxy, bindOk: bool)
    requires se in st.owned
    ensures se in R.Register(cfg, st, se, np, bindOk).0.owned
  {
    hide R.Key, R.FirstFree, R.ScanOrder, R.SameConfig, R.HostsOf, R.FirstTaken;
  }

  /** The client's messages as the loop reads them when every bind and write succeeds. */
  function Delivered(msgs: seq<Reload.Msg>): (r: seq<Incoming>)
    ensures |r| == |msgs|
  {
    seq(|msgs|, i requires 0 <= i < |msgs| =>
      match msgs[i] case RegisterMsg(np) => NewProxyIn(np, true, true) case CloseMsg(n) => CloseIn(n))
  }

  /** Then the loop does to the registry exactly what the reload theorems assume. */
  lemma {:induction false} ServesReload(cfg: R.Settings, st: R.State, se: R.SessionId, msgs: seq<Reload.Msg>)
    ensures Read(Delivered(msgs)) == Delivered(msgs)
    ensures AfterAll(cfg, st, se, Delivered(msgs)) == Reload.ServeAll(cfg, st, se, msgs)
    decreases |msgs|
  {
    hide R.Register, R.Close;
    if msgs != [] {
      assert Delivered(msgs)[1..] == Delivered(msgs[1..]);
      assert Delivered(msgs) == [Delivered(msgs)[0]] + Delivered(msgs[1..]);
      ServesReload(cfg, Reload.Serve(cfg, st, se, msgs[0]), se, msgs[1..]);
    }
  }
}
