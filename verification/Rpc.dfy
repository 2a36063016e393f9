/** Registrations as correlated requests and responses, over reconnections, losses and
    timeouts (internal/client/client.go, internal/server/session.go). */
module Rpc {
  import opened Wrappers
  import opened Registry
  import opened RegistryLaws

  /** Where a caller of registerProxy stands: id drawn; channel entered in the pending
      table; request handed to the writer; answered; gone after a timeout. */
  datatype Waiter = Numbered | Entered | Sent | Got(resp: Resp) | TimedOut

  /** `up` and `down` are the messages in flight, over all connections; `hand` is the
      response the control loop is about to put into its waiter's channel; `asked` and
      `answered` record what was requested and answered under each id. */
  datatype Net = Net(
    seqNo: int,
    waiters: map<int, Waiter>,
    pending: set<int>,
    chans: map<int, seq<Resp>>,
    up: seq<NewProxy>,
    down: seq<Resp>,
    hand: Option<Resp>,
    asked: map<int, NewProxy>,
    answered: map<int, Resp>)

  const IDLE: Net := Net(0, map[], {}, map[], [], [], None, map[], map[])

  const CHAN_CAP: nat := 1

  datatype Event =
    | Draw(np: NewProxy)                                          // nextReqID
    | Enter(id: int)                                              // pending[id] = ch
    | Send(id: int)                                               // writeCh <- request
    | GiveUp(id: int)                                             // either timeout, and the deferred delete
    | Answer(i: nat, st: State, se: SessionId, bindOk: bool)      // the server handles a request
    | LoseUp(i: nat)                                              // a connection dies with messages in flight
    | LoseDown(i: nat)
    | TakeDown(i: nat)                                            // the control loop reads a response
    | Deliver                                                     // ch <- resp
    | Receive(id: int)                                            // resp := <-ch, and the deferred delete

  function RemoveAt<T>(s: seq<T>, i: nat): (r: seq<T>)
    requires i < |s|
    ensures |r| == |s| - 1
  {
    s[..i] + s[i + 1..]
  }

  /** One step; a step that is not enabled changes nothing. */
  function Step(cfg: Settings, n: Net, e: Event): Net {
    match e
    case Draw(np) =>
      var id := n.seqNo + 1;
      n.(seqNo := id, waiters := n.waiters[id := Numbered], asked := n.asked[id := np.(reqId := id)])
    case Enter(id) =>
      if id in n.waiters && n.waiters[id].Numbered?
      then n.(waiters := n.waiters[id := Entered], pending := n.pending + {id}, chans := n.chans[id := []]) else n
    case Send(id) =>
      if id in n.waiters && n.waiters[id].Entered? && id in n.asked
      then n.(waiters := n.waiters[id := Sent], up := n.up + [n.asked[id]]) else n
    case GiveUp(id) =>
      if id in n.waiters && (n.waiters[id].Entered? || n.waiters[id].Sent?)
      then n.(waiters := n.waiters[id := TimedOut], pending := n.pending - {id}) else n
    case Answer(i, st, se, bindOk) =>
      if i < |n.up| && se in st.owned then
        var resp := Register(cfg, st, se, n.up[i], bindOk).1;
        n.(up := RemoveAt(n.up, i), down := n.down + [resp], answered := n.answered[n.up[i].reqId := resp])
      else n
    case LoseUp(i) => if i < |n.up| then n.(up := RemoveAt(n.up, i)) else n
    case LoseDown(i) => if i < |n.down| then n.(down := RemoveAt(n.down, i)) else n
    case TakeDown(i) =>
      if i < |n.down| && n.hand == None
      then n.(down := RemoveAt(n.down, i), hand := if n.down[i].reqId in n.pending then Some(n.down[i]) else None) else n
    case Deliver =>
      if n.hand.Some? && n.hand.value.reqId in n.chans && |n.chans[n.hand.value.reqId]| < CHAN_CAP
      then n.(hand := None, chans := n.chans[n.hand.value.reqId := n.chans[n.hand.value.reqId] + [n.hand.value]]) else n
    case Receive(id) =>
      if id in n.waiters && n.waiters[id].Sent? && id in n.chans && n.chans[id] != []
      then n.(waiters := n.waiters[id := Got(n.chans[id][0])],
              pending := n.pending - {id},
              chans := n.chans[id := n.chans[id][1..]])
      else n
  }

  function Run(cfg: Settings, events: seq<Event>): Net
    decreases |events|
  {
    if events == [] then IDLE else Step(cfg, Run(cfg, events[..|events| - 1]), events[|events| - 1])
  }

  // ---- The invariant ----

  predicate WasSent(n: Net, id: int) {
    id in n.waiters && !n.waiters[id].Numbered? && !n.waiters[id].Entered?
  }

  /** Every id in use was drawn, and its request carries it. */
  ghost predicate IdsSound(n: Net) {
    && n.seqNo >= 0
    && (forall id :: id in n.waiters ==> 0 < id <= n.seqNo && id in n.asked && n.asked[id].reqId == id)
    && (forall id :: id in n.asked ==> id in n.waiters)
    && (forall id :: id in n.pending ==> id in n.chans && id in n.waiters && (n.waiters[id].Entered? || n.waiters[id].Sent?))
    && (forall id :: id in n.chans ==> id in n.waiters && !n.waiters[id].Numbered?)
    && (forall id :: id in n.waiters && !n.waiters[id].Numbered? ==> id in n.chans)
  }

  /** A request in flight was sent, was not answered, and is alone with its id. */
  ghost predicate UpSound(n: Net) {
    && (forall i :: 0 <= i < |n.up| ==>
          var id := n.up[i].reqId;
          WasSent(n, id) && id in n.asked && n.asked[id] == n.up[i] && id !in n.answered)
    && (forall i, j :: 0 <= i < j < |n.up| ==> n.up[i].reqId != n.up[j].reqId)
  }

  /** A response is the answer to its own request, and exists in one place only. */
  ghost predicate IsAnswer(n: Net, r: Resp) {
    r.reqId in n.answered && n.answered[r.reqId] == r
  }

  ghost predicate DownSound(n: Net) {
    && (forall i :: 0 <= i < |n.down| ==> IsAnswer(n, n.down[i]))
    && (forall i, j :: 0 <= i < j < |n.down| ==> n.down[i].reqId != n.down[j].reqId)
  }

  ghost predicate HandSound(n: Net) {
    n.hand.Some? ==>
      && IsAnswer(n, n.hand.value)
      && n.hand.value.reqId in n.chans && n.chans[n.hand.value.reqId] == []
      && (forall i :: 0 <= i < |n.down| ==> n.down[i].reqId != n.hand.value.reqId)
      && !Answered(n, n.hand.value.reqId)
  }

  predicate Answered(n: Net, id: int) {
    id in n.waiters && n.waiters[id].Got?
  }

  ghost predicate ChansSound(n: Net) {
    && (forall id :: id in n.chans ==> |n.chans[id]| <= CHAN_CAP)
    && (forall id :: id in n.chans && n.chans[id] != [] ==>
          && IsAnswer(n, n.chans[id][0]) && n.chans[id][0].reqId == id
          && (forall i :: 0 <= i < |n.down| ==> n.down[i].reqId != id)
          && !Answered(n, id))
    && (forall id :: Answered(n, id) ==>
          && IsAnswer(n, n.waiters[id].resp) && n.waiters[id].resp.reqId == id
          && (forall i :: 0 <= i < |n.down| ==> n.down[i].reqId != id))
  }

  ghost predicate AnswersSound(n: Net) {
    forall id :: id in n.answered ==>
      && WasSent(n, id) && id in n.asked
      && n.answered[id].reqId == id && n.answered[id].name == n.asked[id].name
  }

  ghost predicate Inv(n: Net) {
    IdsSound(n) && UpSound(n) && DownSound(n) && HandSound(n) && ChansSound(n) && AnswersSound(n)
  }

  lemma RemoveAtElems<T>(s: seq<T>, i: nat)
    requires i < |s|
    ensures forall j :: 0 <= j < |s| - 1 ==> RemoveAt(s, i)[j] == s[if j < i then j else j + 1]
  {}

  lemma StepKeepsInv(cfg: Settings, n: Net, e: Event)
    requires Inv(n)
    ensures Inv(Step(cfg, n, e))
  {
    match e {
      case Draw(np) => DrawKeeps(cfg, n, np);
      case Enter(id) => EnterKeeps(cfg, n, id);
      case Send(id) => SendKeeps(cfg, n, id);
      case GiveUp(id) => GiveUpKeeps(cfg, n, id);
      case Answer(i, st, se, bindOk) => AnswerKeeps(cfg, n, i, st, se, bindOk);
      case LoseUp(i) => LoseUpKeeps(cfg, n, i);
      case LoseDown(i) => LoseDownKeeps(cfg, n, i);
      case TakeDown(i) => TakeDownKeeps(cfg, n, i);
      case Deliver => DeliverKeeps(cfg, n);
      case Receive(id) => ReceiveKeeps(cfg, n, id);
    }
  }

  lemma DrawKeepsRequests(cfg: Settings, n: Net, np: NewProxy)
    requires IdsSound(n) && UpSound(n)
    ensures IdsSound(Step(cfg, n, Draw(np))) && UpSound(Step(cfg, n, Draw(np)))
  {
    hide Register, RemoveAt;
  }

  lemma DrawKeepsAnswers(cfg: Settings, n: Net, np: NewProxy)
    requires IdsSound(n) && DownSound(n) && HandSound(n) && ChansSound(n) && AnswersSound(n)
    ensures var n' := Step(cfg, n, Draw(np));
      DownSound(n') && HandSound(n') && ChansSound(n') && AnswersSound(n')
  {
    hide Register, RemoveAt;
    assert n.seqNo + 1 !in n.waiters;
    assert forall id :: Answered(Step(cfg, n, Draw(np)), id) <==> Answered(n, id);
  }

  lemma DrawKeeps(cfg: Settings, n: Net, np: NewProxy)
    requires Inv(n)
    ensures Inv(Step(cfg, n, Draw(np)))
  {
    hide Step, IdsSound, UpSound, DownSound, HandSound, ChansSound, AnswersSound;
    DrawKeepsRequests(cfg, n, np);
    DrawKeepsAnswers(cfg, n, np);
  }

  lemma EnterKeepsIds(cfg: Settings, n: Net, id: int)
    requires IdsSound(n)
    ensures IdsSound(Step(cfg, n, Enter(id)))
  {
    hide Register, RemoveAt;
  }

  lemma EnterKeepsRequests(cfg: Settings, n: Net, id: int)
    requires UpSound(n) && AnswersSound(n)
    ensures UpSound(Step(cfg, n, Enter(id))) && AnswersSound(Step(cfg, n, Enter(id)))
  {
    hide Register, RemoveAt, IdsSound, ChansSound;
  }

  lemma EnterKeepsAnswers(cfg: Settings, n: Net, id: int)
    requires IdsSound(n) && DownSound(n) && HandSound(n) && ChansSound(n)
    ensures var n' := Step(cfg, n, Enter(id));
      DownSound(n') && HandSound(n') && ChansSound(n')
  {
    hide Register, RemoveAt;
  }

  lemma EnterKeeps(cfg: Settings, n: Net, id: int)
    requires Inv(n)
    ensures Inv(Step(cfg, n, Enter(id)))
  {
    hide Step, IdsSound, UpSound, DownSound, HandSound, ChansSound, AnswersSound;
    EnterKeepsIds(cfg, n, id);
    EnterKeepsRequests(cfg, n, id);
    EnterKeepsAnswers(cfg, n, id);
  }

  lemma SendKeepsIds(cfg: Settings, n: Net, id: int)
    requires IdsSound(n)
    ensures IdsSound(Step(cfg, n, Send(id)))
  {
    hide Register, RemoveAt;
  }

  lemma SendKeepsRequests(cfg: Settings, n: Net, id: int)
    requires IdsSound(n) && UpSound(n) && AnswersSound(n)
    ensures UpSound(Step(cfg, n, Send(id))) && AnswersSound(Step(cfg, n, Send(id)))
  {
    hide Register, RemoveAt, ChansSound;
  }

  lemma SendKeepsAnswers(cfg: Settings, n: Net, id: int)
    requires IdsSound(n) && DownSound(n) && HandSound(n) && ChansSound(n)
    ensures var n' := Step(cfg, n, Send(id));
      DownSound(n') && HandSound(n') && ChansSound(n')
  {
    hide Register, RemoveAt;
  }

  lemma SendKeeps(cfg: Settings, n: Net, id: int)
    requires Inv(n)
    ensures Inv(Step(cfg, n, Send(id)))
  {
    hide Step, IdsSound, UpSound, DownSound, HandSound, ChansSound, AnswersSound;
    SendKeepsIds(cfg, n, id);
    SendKeepsRequests(cfg, n, id);
    SendKeepsAnswers(cfg, n, id);
  }

  lemma GiveUpKeepsIds(cfg: Settings, n: Net, id: int)
    requires IdsSound(n)
    ensures IdsSound(Step(cfg, n, GiveUp(id)))
  {
    hide Register, RemoveAt;
  }

  lemma GiveUpKeepsRequests(cfg: Settings, n: Net, id: int)
    requires UpSound(n) && AnswersSound(n)
    ensures UpSound(Step(cfg, n, GiveUp(id))) && AnswersSound(Step(cfg, n, GiveUp(id)))
  {
    hide Register, RemoveAt, IdsSound, ChansSound;
  }

  lemma GiveUpKeepsAnswers(cfg: Settings, n: Net, id: int)
    requires IdsSound(n) && DownSound(n) && HandSound(n) && ChansSound(n)
    ensures var n' := Step(cfg, n, GiveUp(id));
      DownSound(n') && HandSound(n') && ChansSound(n')
  {
    hide Register, RemoveAt;
  }

  lemma GiveUpKeeps(cfg: Settings, n: Net, id: int)
    requires Inv(n)
    ensures Inv(Step(cfg, n, GiveUp(id)))
  {
    hide Step, IdsSound, UpSound, DownSound, HandSound, ChansSound, AnswersSound;
    GiveUpKeepsIds(cfg, n, id);
    GiveUpKeepsRequests(cfg, n, id);
    GiveUpKeepsAnswers(cfg, n, id);
  }

  /** The net after request `i` is answered with `resp`. */
  function AfterAnswer(n: Net, i: nat, resp: Resp): Net
    requires i < |n.up|
  {
    n.(up := RemoveAt(n.up, i), down := n.down + [resp], answered := n.answered[n.up[i].reqId := resp])
  }

  lemma AnswerKeepsUp(n: Net, i: nat, resp: Resp)
    requires i < |n.up| && UpSound(n) && IdsSound(n) && AnswersSound(n)
    requires resp.reqId == n.up[i].reqId && resp.name == n.up[i].name
    ensures UpSound(AfterAnswer(n, i, resp)) && AnswersSound(AfterAnswer(n, i, resp))
  {
    RemoveAtElems(n.up, i);
    hide RemoveAt;
  }

  lemma AnswerKeepsDown(n: Net, i: nat, resp: Resp)
    requires i < |n.up| && UpSound(n) && DownSound(n) && resp.reqId == n.up[i].reqId
    ensures DownSound(AfterAnswer(n, i, resp))
  {
    hide RemoveAt, WasSent;
  }

  lemma AnswerKeepsHeld(n: Net, i: nat, resp: Resp)
    requires i < |n.up| && UpSound(n) && HandSound(n) && ChansSound(n) && resp.reqId == n.up[i].reqId
    ensures HandSound(AfterAnswer(n, i, resp)) && ChansSound(AfterAnswer(n, i, resp))
  {
    hide RemoveAt, WasSent;
  }

  lemma AnswerKeeps(cfg: Settings, n: Net, i: nat, st: State, se: SessionId, bindOk: bool)
    requires Inv(n)
    ensures Inv(Step(cfg, n, Answer(i, st, se, bindOk)))
  {
    hide Register, UpSound, DownSound, HandSound, ChansSound, AnswersSound;
    if i < |n.up| && se in st.owned {
      var resp := Register(cfg, st, se, n.up[i], bindOk).1;
      RegisterEchoes(cfg, st, se, n.up[i], bindOk);
      AnswerKeepsUp(n, i, resp);
      AnswerKeepsDown(n, i, resp);
      AnswerKeepsHeld(n, i, resp);
    }
  }

  lemma LoseUpKeepsRequests(cfg: Settings, n: Net, i: nat)
    requires IdsSound(n) && UpSound(n) && ChansSound(n) && AnswersSound(n)
    ensures var n' := Step(cfg, n, LoseUp(i));
      IdsSound(n') && UpSound(n') && AnswersSound(n')
  {
    hide Register, RemoveAt, IsAnswer;
    if i < |n.up| {
      RemoveAtElems(n.up, i);
    }
  }

  lemma LoseUpKeepsAnswers(cfg: Settings, n: Net, i: nat)
    requires IdsSound(n) && DownSound(n) && HandSound(n) && ChansSound(n)
    ensures var n' := Step(cfg, n, LoseUp(i));
      DownSound(n') && HandSound(n') && ChansSound(n')
  {
    hide Register, RemoveAt;
  }

  lemma LoseUpKeeps(cfg: Settings, n: Net, i: nat)
    requires Inv(n)
    ensures Inv(Step(cfg, n, LoseUp(i)))
  {
    hide Step, IdsSound, UpSound, DownSound, HandSound, ChansSound, AnswersSound;
    LoseUpKeepsRequests(cfg, n, i);
    LoseUpKeepsAnswers(cfg, n, i);
  }

  lemma LoseDownKeepsRequests(cfg: Settings, n: Net, i: nat)
    requires IdsSound(n) && UpSound(n) && ChansSound(n) && AnswersSound(n)
    ensures var n' := Step(cfg, n, LoseDown(i));
      IdsSound(n') && UpSound(n') && AnswersSound(n')
  {
    hide Register, RemoveAt, IsAnswer;
  }

  lemma LoseDownKeepsDown(cfg: Settings, n: Net, i: nat)
    requires IdsSound(n) && DownSound(n) && HandSound(n) && ChansSound(n)
    ensures var n' := Step(cfg, n, LoseDown(i));
      DownSound(n') && HandSound(n')
  {
    hide Register, RemoveAt;
    if i < |n.down| {
      RemoveAtElems(n.down, i);
    }
  }

  lemma LoseDownKeepsChans(cfg: Settings, n: Net, i: nat)
    requires ChansSound(n)
    ensures ChansSound(Step(cfg, n, LoseDown(i)))
  {
    hide Register, RemoveAt;
    if i < |n.down| {
      RemoveAtElems(n.down, i);
    }
  }

  lemma LoseDownKeeps(cfg: Settings, n: Net, i: nat)
    requires Inv(n)
    ensures Inv(Step(cfg, n, LoseDown(i)))
  {
    hide Step, IdsSound, UpSound, DownSound, HandSound, ChansSound, AnswersSound;
    LoseDownKeepsRequests(cfg, n, i);
    LoseDownKeepsDown(cfg, n, i);
    LoseDownKeepsChans(cfg, n, i);
  }

  lemma TakeDownKeepsRequests(cfg: Settings, n: Net, i: nat)
    requires IdsSound(n) && UpSound(n) && ChansSound(n) && AnswersSound(n)
    ensures var n' := Step(cfg, n, TakeDown(i));
      IdsSound(n') && UpSound(n') && AnswersSound(n')
  {
    hide Register, RemoveAt, IsAnswer;
  }

  lemma TakeDownKeepsDown(cfg: Settings, n: Net, i: nat)
    requires IdsSound(n) && DownSound(n) && HandSound(n) && ChansSound(n)
    ensures var n' := Step(cfg, n, TakeDown(i));
      DownSound(n') && HandSound(n')
  {
    hide Register, RemoveAt;
    if i < |n.down| {
      RemoveAtElems(n.down, i);
    }
  }

  lemma TakeDownKeepsChans(cfg: Settings, n: Net, i: nat)
    requires ChansSound(n)
    ensures ChansSound(Step(cfg, n, TakeDown(i)))
  {
    hide Register, RemoveAt;
    if i < |n.down| {
      RemoveAtElems(n.down, i);
    }
  }

  lemma TakeDownKeeps(cfg: Settings, n: Net, i: nat)
    requires Inv(n)
    ensures Inv(Step(cfg, n, TakeDown(i)))
  {
    hide Step, IdsSound, UpSound, DownSound, HandSound, ChansSound, AnswersSound;
    TakeDownKeepsRequests(cfg, n, i);
    TakeDownKeepsDown(cfg, n, i);
    TakeDownKeepsChans(cfg, n, i);
  }

  lemma DeliverKeepsRequests(cfg: Settings, n: Net)
    requires IdsSound(n) && UpSound(n) && ChansSound(n) && AnswersSound(n)
    ensures var n' := Step(cfg, n, Deliver);
      IdsSound(n') && UpSound(n') && AnswersSound(n')
  {
    hide Register, RemoveAt, IsAnswer;
  }

  lemma DeliverKeepsAnswers(cfg: Settings, n: Net)
    requires IdsSound(n) && DownSound(n) && HandSound(n) && ChansSound(n)
    ensures var n' := Step(cfg, n, Deliver);
      DownSound(n') && HandSound(n') && ChansSound(n')
  {
    hide Register, RemoveAt;
  }

  lemma DeliverKeeps(cfg: Settings, n: Net)
    requires Inv(n)
    ensures Inv(Step(cfg, n, Deliver))
  {
    hide Step, IdsSound, UpSound, DownSound, HandSound, ChansSound, AnswersSound;
    DeliverKeepsRequests(cfg, n);
    DeliverKeepsAnswers(cfg, n);
  }

  lemma ReceiveKeepsIds(cfg: Settings, n: Net, id: int)
    requires IdsSound(n)
    ensures IdsSound(Step(cfg, n, Receive(id)))
  {
    hide Register, RemoveAt;
  }

  lemma ReceiveKeepsRequests(cfg: Settings, n: Net, id: int)
    requires UpSound(n) && AnswersSound(n)
    ensures UpSound(Step(cfg, n, Receive(id))) && AnswersSound(Step(cfg, n, Receive(id)))
  {
    hide Register, RemoveAt, IdsSound, ChansSound;
  }

  lemma ReceiveKeepsAnswers(cfg: Settings, n: Net, id: int)
    requires IdsSound(n) && DownSound(n) && HandSound(n) && ChansSound(n)
    ensures var n' := Step(cfg, n, Receive(id));
      DownSound(n') && HandSound(n') && ChansSound(n')
  {
    hide Register, RemoveAt;
  }

  lemma ReceiveKeeps(cfg: Settings, n: Net, id: int)
    requires Inv(n)
    ensures Inv(Step(cfg, n, Receive(id)))
  {
    hide Step, IdsSound, UpSound, DownSound, HandSound, ChansSound, AnswersSound;
    ReceiveKeepsIds(cfg, n, id);
    ReceiveKeepsRequests(cfg, n, id);
    ReceiveKeepsAnswers(cfg, n, id);
  }

  lemma {:induction false} RunKeepsInv(cfg: Settings, events: seq<Event>)
    ensures Inv(Run(cfg, events))
    decreases |events|
  {
    if events == [] {
      IdleInv();
    } else {
      hide Inv, Step;
      RunKeepsInv(cfg, events[..|events| - 1]);
      StepKeepsInv(cfg, Run(cfg, events[..|events| - 1]), events[|events| - 1]);
    }
  }

  lemma IdleInv()
    ensures Inv(IDLE)
  {}

  // ---- What a caller can rely on ----

  /** A caller only ever receives the server's answer to its own request, whatever was
      lost, reordered or answered late, and over any number of connections. */
  lemma OwnResponseOnly(cfg: Settings, events: seq<Event>, id: int)
    requires id in Run(cfg, events).waiters && Run(cfg, events).waiters[id].Got?
    ensures var n := Run(cfg, events);
      var r := n.waiters[id].resp;
      && id in n.asked && n.asked[id].reqId == id
      && id in n.answered && r == n.answered[id]
      && r.reqId == id && r.name == n.asked[id].name
  {
    hide Run, UpSound, DownSound, HandSound;
    RunKeepsInv(cfg, events);
    assert Answered(Run(cfg, events), id);
  }

  /** The control loop never blocks on a waiter's channel: whenever it holds a response
      to deliver, the channel exists and is empty, so the delivery is enabled. */
  lemma DeliveryNeverBlocks(cfg: Settings, events: seq<Event>)
    requires Run(cfg, events).hand.Some?
    ensures var n := Run(cfg, events);
      && n.hand.value.reqId in n.chans && |n.chans[n.hand.value.reqId]| < CHAN_CAP
      && Step(cfg, n, Deliver).hand == None
  {
    hide Run, IdsSound, UpSound, DownSound, ChansSound, AnswersSound;
    RunKeepsInv(cfg, events);
  }

  /** Ids grow with every request and are never drawn again, and no request is answered
      twice: an answer never replaces an earlier one. */
  lemma IdsNeverReused(cfg: Settings, events: seq<Event>, e: Event)
    ensures var n := Run(cfg, events);
      var n' := Step(cfg, n, e);
      && (e.Draw? ==> n'.seqNo == n.seqNo + 1 && n'.seqNo !in n.waiters && forall id :: id in n.waiters ==> id < n'.seqNo)
      && (!e.Draw? ==> n'.seqNo == n.seqNo)
      && (forall id :: id in n.asked ==> id in n'.asked && n'.asked[id] == n.asked[id])
      && (forall id :: id in n.answered ==> id in n'.answered && n'.answered[id] == n.answered[id])
  {
    hide Run, Register, RemoveAt, DownSound, HandSound, ChansSound, AnswersSound;
    RunKeepsInv(cfg, events);
  }

  // ---- A request that gets its answer ----

  /** A caller draws an id, enters its channel and hands its request to the writer. */
  function Asking(id: int, np: NewProxy): seq<Event> {
    [Draw(np), Enter(id), Send(id)]
  }

  /** The server handles the request at place `i`, its response is read at place `j` and put
      into the caller's channel, and the caller receives it. */
  function Answering(id: int, i: nat, j: nat, st: State, se: SessionId, bindOk: bool): seq<Event> {
    [Answer(i, st, se, bindOk), TakeDown(j), Deliver, Receive(id)]
  }

  lemma RunOne(cfg: Settings, events: seq<Event>, e: Event)
    ensures Run(cfg, events + [e]) == Step(cfg, Run(cfg, events), e)
  {
    hide Step;
    assert (events + [e])[..|events|] == events;
  }

  lemma RunThree(cfg: Settings, events: seq<Event>, a: Event, b: Event, c: Event)
    ensures Run(cfg, events + [a, b, c]) == Step(cfg, Step(cfg, Step(cfg, Run(cfg, events), a), b), c)
  {
    hide Step, Run;
    RunOne(cfg, events, a);
    RunOne(cfg, events + [a], b);
    RunOne(cfg, events + [a] + [b], c);
    assert events + [a, b, c] == events + [a] + [b] + [c];
  }

  /** The caller of `id` waits for the answer to its request, which came last. */
  ghost predicate Waits(n: Net, n': Net, id: int, np: NewProxy) {
    && id in n'.waiters && n'.waiters[id] == Sent && id in n'.pending && id in n'.chans && n'.chans[id] == []
    && id in n'.asked && n'.asked[id] == np && np.reqId == id
    && n'.up == n.up + [np] && n'.down == n.down && n'.hand == n.hand
  }

  /** The caller of `id` has received `resp`. */
  predicate HasReceived(n: Net, id: int, resp: Resp) {
    id in n.waiters && n.waiters[id] == Got(resp)
  }

  lemma AskingSteps(cfg: Settings, n: Net, np: NewProxy)
    ensures var id := n.seqNo + 1;
      Waits(n, Step(cfg, Step(cfg, Step(cfg, n, Draw(np)), Enter(id)), Send(id)), id, np.(reqId := id))
  {
    hide Register, RemoveAt;
  }

  lemma AskingSends(cfg: Settings, events: seq<Event>, np: NewProxy)
    ensures var n := Run(cfg, events);
      Waits(n, Run(cfg, events + Asking(n.seqNo + 1, np)), n.seqNo + 1, np.(reqId := n.seqNo + 1))
  {
    hide Run, Step, Waits;
    var id := Run(cfg, events).seqNo + 1;
    RunThree(cfg, events, Draw(np), Enter(id), Send(id));
    AskingSteps(cfg, Run(cfg, events), np);
  }

  lemma EchoesId(cfg: Settings, st: State, se: SessionId, np: NewProxy, bindOk: bool)
    requires se in st.owned
    ensures Register(cfg, st, se, np, bindOk).1.reqId == np.reqId
  {
    hide Register;
    RegisterEchoes(cfg, st, se, np, bindOk);
  }

  lemma AnswerSent(cfg: Settings, n: Net, i: nat, st: State, se: SessionId, bindOk: bool)
    requires i < |n.up| && se in st.owned
    ensures var resp := Register(cfg, st, se, n.up[i], bindOk).1;
      var n' := Step(cfg, n, Answer(i, st, se, bindOk));
      && n'.down == n.down + [resp] && n'.hand == n.hand
      && n'.waiters == n.waiters && n'.chans == n.chans && n'.pending == n.pending
  {
    hide Register, RemoveAt;
  }

  lemma LastTaken(cfg: Settings, n: Net, down: seq<Resp>, resp: Resp)
    requires n.down == down + [resp] && resp.reqId in n.pending && n.hand == None
    ensures var n' := Step(cfg, n, TakeDown(|down|));
      && n'.hand == Some(resp) && n'.down == down
      && n'.waiters == n.waiters && n'.chans == n.chans && n'.pending == n.pending
  {
    hide Register;
    assert RemoveAt(n.down, |down|) == down;
  }

  lemma AnswerIsRead(cfg: Settings, n: Net, id: int, np: NewProxy, i: nat, st: State, se: SessionId, bindOk: bool)
    requires id in n.pending && i < |n.up| && n.up[i] == np && np.reqId == id && n.hand == None && se in st.owned
    ensures var resp := Register(cfg, st, se, np, bindOk).1;
      var n' := Step(cfg, Step(cfg, n, Answer(i, st, se, bindOk)), TakeDown(|n.down|));
      && resp.reqId == id && n'.hand == Some(resp) && n'.down == n.down
      && n'.waiters == n.waiters && n'.chans == n.chans && n'.pending == n.pending
  {
    hide Register, Step;
    EchoesId(cfg, st, se, np, bindOk);
    AnswerSent(cfg, n, i, st, se, bindOk);
    LastTaken(cfg, Step(cfg, n, Answer(i, st, se, bindOk)), n.down, Register(cfg, st, se, np, bindOk).1);
  }

  lemma AnswerIsReceived(cfg: Settings, n: Net, id: int, resp: Resp)
    requires id in n.waiters && n.waiters[id] == Sent && id in n.chans && n.chans[id] == []
    requires n.hand == Some(resp) && resp.reqId == id
    ensures var n' := Step(cfg, Step(cfg, n, Deliver), Receive(id));
      && id in n'.waiters && n'.waiters[id] == Got(resp) && n'.hand == None && n'.pending == n.pending - {id}
  {
    hide Register, RemoveAt;
    assert [] + [resp] == [resp];
  }

  /** After any run in which the control loop holds no response, a request that is sent,
      handled, read back and delivered ends with its caller holding precisely the server's
      response to it. */
  lemma RequestIsAnswered(cfg: Settings, events: seq<Event>, np: NewProxy, st: State, se: SessionId, bindOk: bool)
    requires Run(cfg, events).hand == None && se in st.owned
    ensures var n := Run(cfg, events);
      var id := n.seqNo + 1;
      var n' := Run(cfg, events + Asking(id, np) + Answering(id, |n.up|, |n.down|, st, se, bindOk));
      HasReceived(n', id, Register(cfg, st, se, np.(reqId := id), bindOk).1)
  {
    hide Run, Register, Step, Answering, Asking, HasReceived;
    var n := Run(cfg, events);
    var id := n.seqNo + 1;
    AskingSends(cfg, events, np);
    AskedIsAnswered(cfg, n, events + Asking(id, np), id, np.(reqId := id), st, se, bindOk);
  }

  lemma AskedIsAnswered(cfg: Settings, n: Net, events: seq<Event>, id: int, np: NewProxy, st: State, se: SessionId, bindOk: bool)
    requires Waits(n, Run(cfg, events), id, np) && n.hand == None && se in st.owned
    ensures var n' := Run(cfg, events + Answering(id, |n.up|, |n.down|, st, se, bindOk));
      HasReceived(n', id, Register(cfg, st, se, np, bindOk).1)
  {
    hide Run, Register, Step, Answering;
    var asked := Run(cfg, events);
    AnswerIsRead(cfg, asked, id, np, |n.up|, st, se, bindOk);
    var read := Step(cfg, Step(cfg, asked, Answer(|n.up|, st, se, bindOk)), TakeDown(|n.down|));
    AnswerIsReceived(cfg, read, id, Register(cfg, st, se, np, bindOk).1);
    RunAnswering(cfg, events, id, |n.up|, |n.down|, st, se, bindOk);
  }

  lemma RunAnswering(cfg: Settings, events: seq<Event>, id: int, i: nat, j: nat, st: State, se: SessionId, bindOk: bool)
    ensures var n := Step(cfg, Step(cfg, Run(cfg, events), Answer(i, st, se, bindOk)), TakeDown(j));
      Run(cfg, events + Answering(id, i, j, st, se, bindOk)) == Step(cfg, Step(cfg, n, Deliver), Receive(id))
  {
    hide Step, Run;
    var three := [Answer(i, st, se, bindOk), TakeDown(j), Deliver];
    RunThree(cfg, events, three[0], three[1], three[2]);
    RunOne(cfg, events + three, Receive(id));
    assert events + three + [Receive(id)] == events + Answering(id, i, j, st, se, bindOk);
  }

  /** A caller that gives up is gone, and a response that comes later is dropped. */
  lemma LateResponseIsDropped(cfg: Settings, n: Net, id: int, i: nat)
    requires id in n.waiters && (n.waiters[id].Entered? || n.waiters[id].Sent?)
    requires i < |n.down| && n.down[i].reqId == id && n.hand == None
    ensures var n1 := Step(cfg, n, GiveUp(id));
      var n2 := Step(cfg, n1, TakeDown(i));
      && n1.waiters[id] == TimedOut && id !in n1.pending
      && n2.hand == None && n2.waiters == n1.waiters && n2.chans == n.chans && n2.down == RemoveAt(n.down, i)
  {
    hide Register;
  }
}
