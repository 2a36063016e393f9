/** Accounting of joined connections: active counts, byte counters and closes while many
    joins run at once (internal/server/session.go, internal/mux/mux.go). */
module Joins {

  /** The two directions of a join: from the visitor to the stream, counted as outbound,
      and back. */
  datatype Way = Forth | Back

  /** Where the goroutine of one direction stands: about to read; holding a chunk, with
      the error its read came with; `n` octets accepted and not yet counted; its loop
      over; the visitor closed; both closed. */
  datatype Stage =
    | Reading
    | Holding(n: nat, failed: bool)
    | Accepted(n: nat, last: bool)
    | Over
    | HalfClosed
    | Finished

  /** `read` and `accepted` are the octets so far. */
  datatype Direction = Direction(stage: Stage, read: nat, accepted: nat)

  const FRESH: Direction := Direction(Reading, 0, 0)

  /** Where the handler of one data stream stands: joined; counted for the session;
      counted for the proxy and copying; copying over; uncounted for the session;
      uncounted for the proxy. */
  datatype Phase = Fresh | HalfCounted | Copying | Returned | HalfUncounted | Done

  /** One join of a visitor and a stream at a proxy. */
  datatype Join = Join(proxy: nat, phase: Phase, forth: Direction, back: Direction, visitorOpen: bool, streamOpen: bool)

  /** The counters of one session and of its proxies. */
  datatype Book = Book(
    joins: seq<Join>,
    active: int,
    proxyActive: map<nat, int>,
    bytesOut: nat,
    bytesIn: nat)

  const EMPTY: Book := Book([], 0, map[], 0, 0)

  datatype Event =
    | Begin(proxy: nat)
    | CountSession(j: nat)
    | CountProxy(j: nat)
    | Fetch(j: nat, way: Way, n: nat, failed: bool)   // a read of any size
    | Store(j: nat, way: Way, n: nat)                 // a write of which n octets are accepted
    | Count(j: nat, way: Way)                         // the callback after a write
    | CloseVisitor(j: nat, way: Way)
    | CloseStream(j: nat, way: Way)
    | Return(j: nat)
    | UncountSession(j: nat)
    | UncountProxy(j: nat)

  function ActiveOf(b: Book, p: nat): int {
    if p in b.proxyActive then b.proxyActive[p] else 0
  }

  function Dir(j: Join, way: Way): Direction {
    if way == Forth then j.forth else j.back
  }

  function WithDir(j: Join, way: Way, d: Direction): Join {
    if way == Forth then j.(forth := d) else j.(back := d)
  }

  /** Whether the connection a direction writes to is open. */
  predicate SinkOpen(j: Join, way: Way) {
    if way == Forth then j.streamOpen else j.visitorOpen
  }

  function Counted(b: Book, way: Way): nat {
    if way == Forth then b.bytesOut else b.bytesIn
  }

  function AddBytes(b: Book, way: Way, n: nat): Book {
    if way == Forth then b.(bytesOut := b.bytesOut + n) else b.(bytesIn := b.bytesIn + n)
  }

  // ---- The steps of one join ----

  predicate IsCopyStep(e: Event) {
    e.Fetch? || e.Store? || e.Count? || e.CloseVisitor? || e.CloseStream?
  }

  /** One step of a direction on its join; none when it is not enabled. A closed
      connection accepts nothing. */
  function DirStep(x: Join, e: Event): Join
    requires IsCopyStep(e)
  {
    var d := Dir(x, e.way);
    match e
    case Fetch(_, way, n, failed) =>
      if d.stage != Reading then x
      else if n > 0 then WithDir(x, way, Direction(Holding(n, failed), d.read + n, d.accepted))
      else if failed then WithDir(x, way, d.(stage := Over))
      else x
    case Store(_, way, n) =>
      if d.stage.Holding? && n <= d.stage.n && (!SinkOpen(x, way) ==> n == 0)
      then WithDir(x, way, Direction(Accepted(n, n < d.stage.n || d.stage.failed), d.read, d.accepted + n))
      else x
    case Count(_, way) =>
      if d.stage.Accepted? then WithDir(x, way, d.(stage := if d.stage.last then Over else Reading)) else x
    case CloseVisitor(_, way) =>
      if d.stage == Over then WithDir(x, way, d.(stage := HalfClosed)).(visitorOpen := false) else x
    case CloseStream(_, way) =>
      if d.stage == HalfClosed then WithDir(x, way, d.(stage := Finished)).(streamOpen := false) else x
  }

  predicate At(b: Book, j: nat, phase: Phase) {
    j < |b.joins| && b.joins[j].phase == phase
  }

  function WithPhase(b: Book, j: nat, phase: Phase): Book
    requires j < |b.joins|
  {
    b.(joins := b.joins[j := b.joins[j].(phase := phase)])
  }

  /** One step of one goroutine; a step that is not enabled changes nothing. */
  function Step(b: Book, e: Event): Book {
    match e
    case Begin(p) => b.(joins := b.joins + [Join(p, Fresh, FRESH, FRESH, true, true)])
    case CountSession(j) =>
      if At(b, j, Fresh) then WithPhase(b, j, HalfCounted).(active := b.active + 1) else b
    case CountProxy(j) =>
      if At(b, j, HalfCounted) then
        var p := b.joins[j].proxy;
        WithPhase(b, j, Copying).(proxyActive := b.proxyActive[p := ActiveOf(b, p) + 1])
      else b
    case Return(j) =>
      if At(b, j, Copying) && b.joins[j].forth.stage == Finished && b.joins[j].back.stage == Finished
      then WithPhase(b, j, Returned) else b
    case UncountSession(j) =>
      if At(b, j, Returned) then WithPhase(b, j, HalfUncounted).(active := b.active - 1) else b
    case UncountProxy(j) =>
      if At(b, j, HalfUncounted) then
        var p := b.joins[j].proxy;
        WithPhase(b, j, Done).(proxyActive := b.proxyActive[p := ActiveOf(b, p) - 1])
      else b
    case _ =>
      if !At(b, e.j, Copying) then b
      else
        var x := b.joins[e.j];
        var b' := b.(joins := b.joins[e.j := DirStep(x, e)]);
        if e.Count? && Dir(x, e.way).stage.Accepted? then AddBytes(b', e.way, Dir(x, e.way).stage.n) else b'
  }

  function Steps(b: Book, events: seq<Event>): Book {
    if events == [] then b else Step(Steps(b, events[..|events| - 1]), events[|events| - 1])
  }

  function Run(events: seq<Event>): Book {
    Steps(EMPTY, events)
  }

  // ---- What the counters count ----

  function SessionWeight(j: Join): int {
    if j.phase == HalfCounted || j.phase == Copying || j.phase == Returned then 1 else 0
  }

  function ProxyWeight(j: Join, p: nat): int {
    if j.proxy == p && (j.phase == Copying || j.phase == Returned || j.phase == HalfUncounted) then 1 else 0
  }

  /** The octets accepted in a direction whose callback has run. */
  function CountedOf(d: Direction): int {
    d.accepted - if d.stage.Accepted? then d.stage.n else 0
  }

  function SumSession(js: seq<Join>): int {
    if js == [] then 0 else SessionWeight(js[0]) + SumSession(js[1..])
  }

  function SumProxy(js: seq<Join>, p: nat): int {
    if js == [] then 0 else ProxyWeight(js[0], p) + SumProxy(js[1..], p)
  }

  function SumCounted(js: seq<Join>, way: Way): int {
    if js == [] then 0 else CountedOf(Dir(js[0], way)) + SumCounted(js[1..], way)
  }

  /** What the connections of all joins accepted in one direction. */
  function SumAccepted(js: seq<Join>, way: Way): nat {
    if js == [] then 0 else Dir(js[0], way).accepted + SumAccepted(js[1..], way)
  }

  lemma {:induction false} SessionUpdate(js: seq<Join>, j: nat, x: Join)
    requires j < |js|
    ensures SumSession(js[j := x]) == SumSession(js) - SessionWeight(js[j]) + SessionWeight(x)
  {
    hide SessionWeight;
    if j > 0 {
      assert js[j := x][1..] == js[1..][j - 1 := x];
      SessionUpdate(js[1..], j - 1, x);
    } else {
      assert js[j := x][1..] == js[1..];
    }
  }

  lemma {:induction false} CountedUpdate(js: seq<Join>, j: nat, x: Join, way: Way)
    requires j < |js|
    ensures SumCounted(js[j := x], way) == SumCounted(js, way) - CountedOf(Dir(js[j], way)) + CountedOf(Dir(x, way))
  {
    hide CountedOf, Dir;
    if j > 0 {
      assert js[j := x][1..] == js[1..][j - 1 := x];
      CountedUpdate(js[1..], j - 1, x, way);
    } else {
      assert js[j := x][1..] == js[1..];
    }
  }

  lemma {:induction false} ProxyUpdate(js: seq<Join>, j: nat, x: Join, p: nat)
    requires j < |js|
    ensures SumProxy(js[j := x], p) == SumProxy(js, p) - ProxyWeight(js[j], p) + ProxyWeight(x, p)
  {
    hide ProxyWeight;
    if j > 0 {
      assert js[j := x][1..] == js[1..][j - 1 := x];
      ProxyUpdate(js[1..], j - 1, x, p);
    } else {
      assert js[j := x][1..] == js[1..];
    }
  }

  lemma {:induction false} FreshAppend(js: seq<Join>, x: Join)
    requires x.phase == Fresh && x.forth == FRESH && x.back == FRESH
    ensures SumSession(js + [x]) == SumSession(js)
    ensures SumCounted(js + [x], Forth) == SumCounted(js, Forth) && SumCounted(js + [x], Back) == SumCounted(js, Back)
  {
    if js != [] {
      assert (js + [x])[1..] == js[1..] + [x];
      FreshAppend(js[1..], x);
    } else {
      assert js + [x] == [x];
    }
  }

  lemma {:induction false} ProxyAppend(js: seq<Join>, x: Join, p: nat)
    requires x.phase == Fresh
    ensures SumProxy(js + [x], p) == SumProxy(js, p)
  {
    if js != [] {
      assert (js + [x])[1..] == js[1..] + [x];
      ProxyAppend(js[1..], x, p);
    } else {
      assert js + [x] == [x];
    }
  }

  // ---- The invariant ----

  /** Nothing read is forgotten before the loop is over. */
  predicate DirectionSound(d: Direction) {
    match d.stage
    case Reading => d.accepted == d.read
    case Holding(n, _) => d.accepted + n == d.read
    case Accepted(n, last) => n <= d.accepted <= d.read && (!last ==> d.accepted == d.read)
    case _ => d.accepted <= d.read
  }

  /** The copying has returned to the handler. */
  predicate HasReturned(j: Join) {
    j.phase == Returned || j.phase == HalfUncounted || j.phase == Done
  }

  predicate ClosesSound(j: Join, way: Way) {
    && (Dir(j, way).stage == HalfClosed || Dir(j, way).stage == Finished ==> !j.visitorOpen)
    && (Dir(j, way).stage == Finished ==> !j.streamOpen)
  }

  predicate JoinSound(j: Join) {
    && DirectionSound(j.forth) && DirectionSound(j.back)
    && ClosesSound(j, Forth) && ClosesSound(j, Back)
    && (HasReturned(j) ==> j.forth.stage == Finished && j.back.stage == Finished)
  }

  ghost predicate Inv(b: Book) {
    && b.active == SumSession(b.joins)
    && b.bytesOut == SumCounted(b.joins, Forth)
    && b.bytesIn == SumCounted(b.joins, Back)
    && (forall p :: ActiveOf(b, p) == SumProxy(b.joins, p))
    && (forall j :: 0 <= j < |b.joins| ==> JoinSound(b.joins[j]))
  }

  lemma DirStepDirections(x: Join, e: Event)
    requires IsCopyStep(e)
    requires DirectionSound(x.forth) && DirectionSound(x.back)
    ensures DirectionSound(DirStep(x, e).forth) && DirectionSound(DirStep(x, e).back)
  {}

  lemma DirStepCloses(x: Join, e: Event, way: Way)
    requires IsCopyStep(e)
    requires ClosesSound(x, way)
    ensures ClosesSound(DirStep(x, e), way)
  {}

  lemma DirStepSound(x: Join, e: Event)
    requires IsCopyStep(e)
    requires JoinSound(x) && x.phase == Copying
    ensures JoinSound(DirStep(x, e))
  {
    hide DirectionSound, ClosesSound;
    DirStepDirections(x, e);
    DirStepCloses(x, e, Forth);
    DirStepCloses(x, e, Back);
    assert DirStep(x, e).phase == x.phase;
  }

  /** Only the callback moves the counted octets, and by what was accepted. */
  lemma DirStepCounts(x: Join, e: Event, way: Way)
    requires IsCopyStep(e)
    ensures CountedOf(Dir(DirStep(x, e), way)) == CountedOf(Dir(x, way)) +
            if e.Count? && e.way == way && Dir(x, way).stage.Accepted? then Dir(x, way).stage.n else 0
    ensures DirStep(x, e).phase == x.phase && DirStep(x, e).proxy == x.proxy
  {}

  /** Replacing one join keeps the invariant when every counter moves by exactly what
      the join's own share moved. */
  lemma UpdateKeepsInv(b: Book, b': Book, j: nat, x: Join)
    requires Inv(b) && j < |b.joins| && b'.joins == b.joins[j := x] && JoinSound(x)
    requires b'.active == b.active - SessionWeight(b.joins[j]) + SessionWeight(x)
    requires b'.bytesOut == b.bytesOut - CountedOf(b.joins[j].forth) + CountedOf(x.forth)
    requires b'.bytesIn == b.bytesIn - CountedOf(b.joins[j].back) + CountedOf(x.back)
    requires forall p :: ActiveOf(b', p) == ActiveOf(b, p) - ProxyWeight(b.joins[j], p) + ProxyWeight(x, p)
    ensures Inv(b')
  {
    hide SumSession, SumProxy, SumCounted, ActiveOf, SessionWeight, ProxyWeight, CountedOf, JoinSound;
    SessionUpdate(b.joins, j, x);
    CountedUpdate(b.joins, j, x, Forth);
    CountedUpdate(b.joins, j, x, Back);
    forall p ensures ActiveOf(b', p) == SumProxy(b'.joins, p) {
      ProxyUpdate(b.joins, j, x, p);
    }
  }

  lemma BeginKeepsInv(b: Book, p: nat)
    requires Inv(b)
    ensures Inv(Step(b, Begin(p)))
  {
    hide SumSession, SumProxy, SumCounted;
    var b' := Step(b, Begin(p));
    var x := Join(p, Fresh, FRESH, FRESH, true, true);
    FreshAppend(b.joins, x);
    forall q ensures ActiveOf(b', q) == SumProxy(b'.joins, q) {
      ProxyAppend(b.joins, x, q);
    }
  }

  lemma CopyKeepsInv(b: Book, e: Event)
    requires IsCopyStep(e)
    requires Inv(b)
    ensures Inv(Step(b, e))
  {
    hide SumSession, SumProxy, SumCounted, JoinSound, DirStep, CountedOf;
    if At(b, e.j, Copying) {
      var x := b.joins[e.j];
      DirStepSound(x, e);
      DirStepCounts(x, e, Forth);
      DirStepCounts(x, e, Back);
      UpdateKeepsInv(b, Step(b, e), e.j, DirStep(x, e));
    }
  }

  /** The handler's own steps move one join to its next phase. */
  lemma PhaseKeepsInv(b: Book, e: Event)
    requires Inv(b) && !e.Begin? && !IsCopyStep(e)
    ensures Inv(Step(b, e))
  {
    var b' := Step(b, e);
    if b' != b {
      hide SumSession, SumProxy, SumCounted, CountedOf, DirectionSound, ClosesSound, Inv;
      var x := b'.joins[e.j];
      SoundAt(b, e.j);
      UpdateKeepsInv(b, b', e.j, x);
    }
  }

  lemma SoundAt(b: Book, j: nat)
    requires Inv(b) && j < |b.joins|
    ensures JoinSound(b.joins[j])
  {}

  lemma StepKeepsInv(b: Book, e: Event)
    requires Inv(b)
    ensures Inv(Step(b, e))
  {
    hide Inv, Step;
    if e.Begin? {
      BeginKeepsInv(b, e.proxy);
    } else if IsCopyStep(e) {
      CopyKeepsInv(b, e);
    } else {
      PhaseKeepsInv(b, e);
    }
  }

  lemma {:induction false} RunKeepsInv(events: seq<Event>)
    ensures Inv(Run(events))
    decreases |events|
  {
    if events != [] {
      hide Inv, Step;
      RunKeepsInv(events[..|events| - 1]);
      StepKeepsInv(Run(events[..|events| - 1]), events[|events| - 1]);
    }
  }

  // ---- Active counts ----

  /** A join in progress: begun for both counters and not yet uncounted. */
  predicate InProgress(j: Join) {
    j.phase == Copying || j.phase == Returned
  }

  function CountInProgress(js: seq<Join>): nat {
    if js == [] then 0 else (if InProgress(js[0]) then 1 else 0) + CountInProgress(js[1..])
  }

  /** Nobody is between the two halves of a paired update. */
  ghost predicate Settled(b: Book) {
    forall j :: 0 <= j < |b.joins| ==> b.joins[j].phase != HalfCounted && b.joins[j].phase != HalfUncounted
  }

  /** The session's proxies, each once, among which are those of all joins. */
  ghost predicate Covers(ps: seq<nat>, js: seq<Join>) {
    && (forall i, k :: 0 <= i < k < |ps| ==> ps[i] != ps[k])
    && (forall j :: 0 <= j < |js| ==> js[j].proxy in ps)
  }

  function SumOver(ps: seq<nat>, js: seq<Join>): int {
    if ps == [] then 0 else SumProxy(js, ps[0]) + SumOver(ps[1..], js)
  }

  function ActiveOver(b: Book, ps: seq<nat>): int {
    if ps == [] then 0 else ActiveOf(b, ps[0]) + ActiveOver(b, ps[1..])
  }

  lemma {:induction false} SumOverNone(ps: seq<nat>)
    ensures SumOver(ps, []) == 0
  {
    if ps != [] {
      SumOverNone(ps[1..]);
    }
  }

  lemma {:induction false} SumOverCons(ps: seq<nat>, js: seq<Join>)
    requires js != [] && forall i, k :: 0 <= i < k < |ps| ==> ps[i] != ps[k]
    ensures SumOver(ps, js) ==
            SumOver(ps, js[1..]) + if js[0].proxy in ps && ProxyWeight(js[0], js[0].proxy) == 1 then 1 else 0
  {
    if ps != [] {
      SumOverCons(ps[1..], js);
      assert js[0].proxy in ps <==> js[0].proxy == ps[0] || js[0].proxy in ps[1..];
    }
  }

  lemma {:induction false} ProgressCounted(ps: seq<nat>, js: seq<Join>)
    requires Covers(ps, js)
    requires forall j :: 0 <= j < |js| ==> js[j].phase != HalfCounted && js[j].phase != HalfUncounted
    ensures SumSession(js) == CountInProgress(js) == SumOver(ps, js)
  {
    if js == [] {
      SumOverNone(ps);
    } else {
      ProgressCounted(ps, js[1..]);
      SumOverCons(ps, js);
      assert js[0].proxy in ps;
    }
  }

  lemma {:induction false} ActiveIsSum(b: Book, ps: seq<nat>)
    requires Inv(b)
    ensures ActiveOver(b, ps) == SumOver(ps, b.joins)
  {
    hide SumProxy, ActiveOf, SumSession, SumCounted, JoinSound;
    if ps != [] {
      ActiveIsSum(b, ps[1..]);
    }
  }

  /** Outside the paired updates, a session's active count is the number of its joins
      in progress and the sum of the active counts of its proxies. */
  lemma ActiveCountsAgree(events: seq<Event>, ps: seq<nat>)
    requires Settled(Run(events)) && Covers(ps, Run(events).joins)
    ensures var b := Run(events);
      b.active == CountInProgress(b.joins) == ActiveOver(b, ps)
  {
    hide Run;
    RunKeepsInv(events);
    ProgressCounted(ps, Run(events).joins);
    ActiveIsSum(Run(events), ps);
  }

  // ---- Byte counters and closes ----

  /** The octets accepted whose callback is still to run. */
  function Uncounted(js: seq<Join>, way: Way): nat {
    if js == [] then 0
    else (var d := Dir(js[0], way); if d.stage.Accepted? then d.stage.n else 0) + Uncounted(js[1..], way)
  }

  lemma {:induction false} AcceptedSplit(js: seq<Join>, way: Way)
    ensures SumAccepted(js, way) == SumCounted(js, way) + Uncounted(js, way)
  {
    if js != [] {
      AcceptedSplit(js[1..], way);
    }
  }

  /** At every moment each byte counter is what the connections of all joins accepted in
      its direction, but for writes whose callback is still to run. */
  lemma BytesAddUp(events: seq<Event>, way: Way)
    ensures var b := Run(events);
      Counted(b, way) + Uncounted(b.joins, way) == SumAccepted(b.joins, way)
  {
    hide Run, JoinSound, ActiveOf;
    RunKeepsInv(events);
    AcceptedSplit(Run(events).joins, way);
  }

  /** In every direction what was accepted never exceeds what was read, and is all of it
      whenever the direction is about to read again; and once a join has returned, both
      its connections are closed and nothing it accepted is uncounted. */
  lemma ReturnedIsClosed(events: seq<Event>, j: nat)
    requires j < |Run(events).joins|
    ensures var x := Run(events).joins[j];
      && (forall way :: Dir(x, way).accepted <= Dir(x, way).read)
      && (forall way :: Dir(x, way).stage == Reading ==> Dir(x, way).accepted == Dir(x, way).read)
      && (HasReturned(x) ==>
            !x.visitorOpen && !x.streamOpen && forall way :: CountedOf(Dir(x, way)) == Dir(x, way).accepted)
  {
    hide Run, ActiveOf, SumSession, SumProxy, SumCounted;
    RunKeepsInv(events);
    assert JoinSound(Run(events).joins[j]);
  }

  lemma ClosedAcceptsNothing(b: Book, e: Event, j: nat, way: Way)
    requires j < |b.joins| && !SinkOpen(b.joins[j], way)
    ensures j < |Step(b, e).joins|
    ensures !SinkOpen(Step(b, e).joins[j], way)
    ensures Dir(Step(b, e).joins[j], way).accepted == Dir(b.joins[j], way).accepted
  {}

  /** A closed connection accepts nothing ever after, even while the goroutine of its
      direction still holds a chunk. */
  lemma {:induction false} NothingAfterClose(b: Book, events: seq<Event>, j: nat, way: Way)
    requires j < |b.joins| && !SinkOpen(b.joins[j], way)
    ensures var b' := Steps(b, events);
      && j < |b'.joins| && !SinkOpen(b'.joins[j], way)
      && Dir(b'.joins[j], way).accepted == Dir(b.joins[j], way).accepted
    decreases |events|
  {
    hide Step, SinkOpen, Dir;
    if events != [] {
      NothingAfterClose(b, events[..|events| - 1], j, way);
      ClosedAcceptsNothing(Steps(b, events[..|events| - 1]), events[|events| - 1], j, way);
    }
  }

  // ---- One whole join ----

  lemma StepsOne(b: Book, events: seq<Event>, e: Event)
    ensures Steps(b, events + [e]) == Step(Steps(b, events), e)
  {
    hide Step;
    assert (events + [e])[..|events|] == events;
  }

  lemma {:induction false} StepsConcat(b: Book, first: seq<Event>, then_: seq<Event>)
    ensures Steps(b, first + then_) == Steps(Steps(b, first), then_)
    decreases |then_|
  {
    hide Step;
    if then_ == [] {
      assert first + then_ == first;
    } else {
      assert (first + then_)[..|first + then_| - 1] == first + then_[..|then_| - 1];
      StepsConcat(b, first, then_[..|then_| - 1]);
    }
  }

  lemma StepsThree(b: Book, x: Event, y: Event, z: Event)
    ensures Steps(b, [x, y, z]) == Step(Step(Step(b, x), y), z)
  {
    hide Step;
    StepsOne(b, [x, y], z);
    StepsOne(b, [x], y);
    StepsOne(b, [], x);
    assert [x, y] + [z] == [x, y, z] && [x] + [y] == [x, y] && [] + [x] == [x];
    assert Steps(b, []) == b;
  }

  /** The join number `j` of a book stands as `x`, and the counters as given. */
  ghost predicate Stands(b: Book, js: seq<Join>, x: Join, active: int, out: int, inn: int) {
    b.joins == js + [x] && b.active == active && b.bytesOut == out && b.bytesIn == inn
  }

  function Copier(p: nat, forth: Direction, back: Direction, open: bool): Join {
    Join(p, Copying, forth, back, open, open)
  }

  lemma LastReplaced(js: seq<Join>, x: Join, y: Join)
    ensures (js + [x])[|js|] == x && (js + [x])[|js| := y] == js + [y]
  {}

  /** The handler's own step number `k` on the last join. */
  lemma PhaseOne(b: Book, js: seq<Join>, x: Join)
    requires b.joins == js + [x]
    ensures x.phase == Fresh ==>
              Step(b, CountSession(|js|)) == b.(joins := js + [x.(phase := HalfCounted)], active := b.active + 1)
    ensures x.phase == HalfCounted ==>
              Step(b, CountProxy(|js|)) == b.(joins := js + [x.(phase := Copying)],
                                              proxyActive := b.proxyActive[x.proxy := ActiveOf(b, x.proxy) + 1])
    ensures x.phase == Copying && x.forth.stage == x.back.stage == Finished ==>
              Step(b, Return(|js|)) == b.(joins := js + [x.(phase := Returned)])
    ensures x.phase == Returned ==>
              Step(b, UncountSession(|js|)) == b.(joins := js + [x.(phase := HalfUncounted)], active := b.active - 1)
    ensures x.phase == HalfUncounted ==>
              Step(b, UncountProxy(|js|)) == b.(joins := js + [x.(phase := Done)],
                                                proxyActive := b.proxyActive[x.proxy := ActiveOf(b, x.proxy) - 1])
  {
    hide ActiveOf;
    LastReplaced(js, x, x.(phase := HalfCounted));
    LastReplaced(js, x, x.(phase := Copying));
    LastReplaced(js, x, x.(phase := Returned));
    LastReplaced(js, x, x.(phase := HalfUncounted));
    LastReplaced(js, x, x.(phase := Done));
  }

  /** A step of the copying of the last join. */
  lemma CopyOne(b: Book, js: seq<Join>, x: Join, e: Event)
    requires b.joins == js + [x] && x.phase == Copying && IsCopyStep(e) && e.j == |js|
    ensures var counted := if e.Count? && Dir(x, e.way).stage.Accepted? then Dir(x, e.way).stage.n else 0;
      Step(b, e) == b.(joins := js + [DirStep(x, e)],
                       bytesOut := b.bytesOut + (if e.Count? && e.way == Forth then counted else 0),
                       bytesIn := b.bytesIn + (if e.Count? && e.way == Back then counted else 0))
  {
    hide DirStep;
    LastReplaced(js, x, DirStep(x, e));
  }

  lemma JoinOpens(b: Book, p: nat)
    ensures var j := |b.joins|;
      var b' := Steps(b, [Begin(p), CountSession(j), CountProxy(j)]);
      && Stands(b', b.joins, Copier(p, FRESH, FRESH, true), b.active + 1, b.bytesOut, b.bytesIn)
      && forall q :: ActiveOf(b', q) == ActiveOf(b, q) + if q == p then 1 else 0
  {
    var j, x := |b.joins|, Join(p, Fresh, FRESH, FRESH, true, true);
    StepsThree(b, Begin(p), CountSession(j), CountProxy(j));
    var b1 := Step(b, Begin(p));
    assert b1 == b.(joins := b.joins + [x]);
    PhaseOne(b1, b.joins, x);
    var b2 := Step(b1, CountSession(j));
    PhaseOne(b2, b.joins, x.(phase := HalfCounted));
    hide Steps, Step;
  }

  /** Three steps of the copying of one direction, on the join itself. */
  lemma ChunkSteps(x: Join, j: nat, way: Way, n: nat)
    requires Dir(x, way).stage == Reading && x.visitorOpen && x.streamOpen && n > 0
    ensures var d := Dir(x, way);
      var x1 := DirStep(x, Fetch(j, way, n, false));
      var x2 := DirStep(x1, Store(j, way, n));
      && x1 == WithDir(x, way, Direction(Holding(n, false), d.read + n, d.accepted))
      && x2 == WithDir(x, way, Direction(Accepted(n, false), d.read + n, d.accepted + n))
      && Dir(x2, way).stage == Accepted(n, false)
      && DirStep(x2, Count(j, way)) == WithDir(x, way, Direction(Reading, d.read + n, d.accepted + n))
  {}

  lemma EndSteps(x: Join, j: nat, way: Way)
    requires Dir(x, way).stage == Reading
    ensures var x1 := DirStep(x, Fetch(j, way, 0, true));
      var x2 := DirStep(x1, CloseVisitor(j, way));
      DirStep(x2, CloseStream(j, way)) ==
      WithDir(x, way, Dir(x, way).(stage := Finished)).(visitorOpen := false, streamOpen := false)
  {}

  lemma PhaseKept(x: Join, e: Event)
    requires IsCopyStep(e)
    ensures DirStep(x, e).phase == x.phase && DirStep(x, e).proxy == x.proxy
  {}

  /** A read of `n` octets, a write that accepts them all, and the callback. */
  lemma ChunkPasses(b: Book, js: seq<Join>, x: Join, way: Way, n: nat)
    requires b.joins == js + [x] && x.phase == Copying && x.visitorOpen && x.streamOpen && n > 0
    requires Dir(x, way).stage == Reading
    ensures var j := |js|;
      var b' := Steps(b, [Fetch(j, way, n, false), Store(j, way, n), Count(j, way)]);
      var d := Dir(x, way);
      && Stands(b', js, WithDir(x, way, Direction(Reading, d.read + n, d.accepted + n)),
                b.active, b.bytesOut + (if way == Forth then n else 0), b.bytesIn + (if way == Back then n else 0))
      && b'.proxyActive == b.proxyActive
  {
    hide Steps, Step, DirStep, WithDir;
    var j := |js|;
    StepsThree(b, Fetch(j, way, n, false), Store(j, way, n), Count(j, way));
    ChunkSteps(x, j, way, n);
    CopyOne(b, js, x, Fetch(j, way, n, false));
    PhaseKept(x, Fetch(j, way, n, false));
    var x1, b1 := DirStep(x, Fetch(j, way, n, false)), Step(b, Fetch(j, way, n, false));
    CopyOne(b1, js, x1, Store(j, way, n));
    PhaseKept(x1, Store(j, way, n));
    var x2, b2 := DirStep(x1, Store(j, way, n)), Step(b1, Store(j, way, n));
    CopyOne(b2, js, x2, Count(j, way));
  }

  /** A read that fails with nothing, and the two closes. */
  lemma DirectionEnds(b: Book, js: seq<Join>, x: Join, way: Way)
    requires b.joins == js + [x] && x.phase == Copying && Dir(x, way).stage == Reading
    ensures var j := |js|;
      var b' := Steps(b, [Fetch(j, way, 0, true), CloseVisitor(j, way), CloseStream(j, way)]);
      && Stands(b', js, WithDir(x, way, Dir(x, way).(stage := Finished)).(visitorOpen := false, streamOpen := false),
                b.active, b.bytesOut, b.bytesIn)
      && b'.proxyActive == b.proxyActive
  {
    hide Steps, Step, DirStep, WithDir;
    var j := |js|;
    StepsThree(b, Fetch(j, way, 0, true), CloseVisitor(j, way), CloseStream(j, way));
    EndSteps(x, j, way);
    CopyOne(b, js, x, Fetch(j, way, 0, true));
    PhaseKept(x, Fetch(j, way, 0, true));
    var x1, b1 := DirStep(x, Fetch(j, way, 0, true)), Step(b, Fetch(j, way, 0, true));
    CopyOne(b1, js, x1, CloseVisitor(j, way));
    PhaseKept(x1, CloseVisitor(j, way));
    CopyOne(Step(b1, CloseVisitor(j, way)), js, DirStep(x1, CloseVisitor(j, way)), CloseStream(j, way));
  }

  lemma JoinReturns(b: Book, js: seq<Join>, x: Join)
    requires b.joins == js + [x] && x.phase == Copying && x.forth.stage == x.back.stage == Finished
    ensures var j := |js|;
      var b' := Steps(b, [Return(j), UncountSession(j), UncountProxy(j)]);
      && Stands(b', js, x.(phase := Done), b.active - 1, b.bytesOut, b.bytesIn)
      && forall q :: ActiveOf(b', q) == ActiveOf(b, q) - if q == x.proxy then 1 else 0
  {
    hide Steps, Step;
    var j := |js|;
    StepsThree(b, Return(j), UncountSession(j), UncountProxy(j));
    PhaseOne(b, js, x);
    var b1 := Step(b, Return(j));
    PhaseOne(b1, js, x.(phase := Returned));
    PhaseOne(Step(b1, UncountSession(j)), js, x.(phase := HalfUncounted));
  }

  /** One join from its start to its end: `n` octets go forth and `m` come back. */
  function WholeJoin(j: nat, p: nat, n: nat, m: nat): seq<Event> {
    [Begin(p), CountSession(j), CountProxy(j)]
    + ([Fetch(j, Forth, n, false), Store(j, Forth, n), Count(j, Forth)]
       + ([Fetch(j, Back, m, false), Store(j, Back, m), Count(j, Back)]
          + ([Fetch(j, Forth, 0, true), CloseVisitor(j, Forth), CloseStream(j, Forth)]
             + ([Fetch(j, Back, 0, true), CloseVisitor(j, Back), CloseStream(j, Back)]
                + [Return(j), UncountSession(j), UncountProxy(j)]))))
  }

  /** Among any others, a join counts as active from its start, passes on and counts what is
      read on either side, closes both connections, and counts no more at its end. */
  lemma JoinRuns(b: Book, p: nat, n: nat, m: nat)
    requires n > 0 && m > 0
    ensures var j := |b.joins|;
      var b' := Steps(b, WholeJoin(j, p, n, m));
      && Stands(b', b.joins, Join(p, Done, Direction(Finished, n, n), Direction(Finished, m, m), false, false),
                b.active, b.bytesOut + n, b.bytesIn + m)
      && forall q :: ActiveOf(b', q) == ActiveOf(b, q)
  {
    hide Step, Steps, ActiveOf;
    var j, js := |b.joins|, b.joins;
    var opening := [Begin(p), CountSession(j), CountProxy(j)];
    var out := [Fetch(j, Forth, n, false), Store(j, Forth, n), Count(j, Forth)];
    var inn := [Fetch(j, Back, m, false), Store(j, Back, m), Count(j, Back)];
    var overF := [Fetch(j, Forth, 0, true), CloseVisitor(j, Forth), CloseStream(j, Forth)];
    var overB := [Fetch(j, Back, 0, true), CloseVisitor(j, Back), CloseStream(j, Back)];
    var ending := [Return(j), UncountSession(j), UncountProxy(j)];
    StepsConcat(b, opening, out + (inn + (overF + (overB + ending))));
    JoinOpens(b, p);
    var b1 := Steps(b, opening);
    StepsConcat(b1, out, inn + (overF + (overB + ending)));
    ChunkPasses(b1, js, Copier(p, FRESH, FRESH, true), Forth, n);
    var b2 := Steps(b1, out);
    StepsConcat(b2, inn, overF + (overB + ending));
    ChunkPasses(b2, js, Copier(p, Direction(Reading, n, n), FRESH, true), Back, m);
    var b3 := Steps(b2, inn);
    StepsConcat(b3, overF, overB + ending);
    DirectionEnds(b3, js, Copier(p, Direction(Reading, n, n), Direction(Reading, m, m), true), Forth);
    var b4 := Steps(b3, overF);
    StepsConcat(b4, overB, ending);
    DirectionEnds(b4, js, Copier(p, Direction(Finished, n, n), Direction(Reading, m, m), false), Back);
    var b5 := Steps(b4, overB);
    JoinReturns(b5, js, Copier(p, Direction(Finished, n, n), Direction(Finished, m, m), false));
    SameActive(b1, b5);
  }

  lemma SameActive(a: Book, b: Book)
    requires a.proxyActive == b.proxyActive
    ensures forall q :: ActiveOf(a, q) == ActiveOf(b, q)
  {}
}
