/** Many goroutines sending on one control stream under its write lock, the header and
    the payload of a frame being separate writes (internal/server/session.go). */
module ControlStream {
  import opened Wrappers
  import opened Proto

  /** Where one sender stands in sendMsg. */
  datatype Pc =
    | Waiting(frame: Frame)
    | Locked(frame: Frame)
    | HeaderSent(frame: Frame)
    | PayloadSent(frame: Frame)

  /** `senders` holds the goroutines inside sendMsg; `log` the frames in the order in
      which the lock was acquired for them. */
  datatype Control = Control(sent: seq<byte>, holder: Option<nat>, senders: map<nat, Pc>, log: seq<Frame>)

  const QUIET: Control := Control([], None, map[], [])

  datatype Event =
    | Call(t: nat, frame: Frame)
    | Acquire(t: nat)
    | WriteHeader(t: nat)
    | WritePayload(t: nat)
    | Release(t: nat)

  /** One step of one goroutine; a step that is not enabled changes nothing. */
  function Step(c: Control, e: Event): Control {
    match e
    case Call(t, f) => if t in c.senders then c else c.(senders := c.senders[t := Waiting(f)])
    case Acquire(t) =>
      if t in c.senders && c.senders[t].Waiting? && c.holder == None
      then c.(holder := Some(t), senders := c.senders[t := Locked(c.senders[t].frame)], log := c.log + [c.senders[t].frame])
      else c
    case WriteHeader(t) =>
      if t in c.senders && c.senders[t].Locked?
      then c.(sent := c.sent + Header(c.senders[t].frame), senders := c.senders[t := HeaderSent(c.senders[t].frame)])
      else c
    case WritePayload(t) =>
      if t in c.senders && c.senders[t].HeaderSent?
      then c.(sent := c.sent + c.senders[t].frame.payload, senders := c.senders[t := PayloadSent(c.senders[t].frame)])
      else c
    case Release(t) =>
      if t in c.senders && c.senders[t].PayloadSent?
      then c.(holder := None, senders := c.senders - {t})
      else c
  }

  function Run(events: seq<Event>): Control {
    if events == [] then QUIET else Step(Run(events[..|events| - 1]), events[|events| - 1])
  }

  /** The frames written completely, and the part of the current one that is out. */
  function Whole(c: Control): seq<Frame>
    requires c.holder.Some? ==> c.log != []
  {
    match c.holder
    case None => c.log
    case Some(t) =>
      if t in c.senders && c.senders[t].PayloadSent? then c.log else c.log[..|c.log| - 1]
  }

  function Partial(c: Control): seq<byte> {
    match c.holder
    case None => []
    case Some(t) => if t in c.senders && c.senders[t].HeaderSent? then Header(c.senders[t].frame) else []
  }

  ghost predicate Inv(c: Control) {
    && (c.holder.Some? ==> c.log != [] && c.holder.value in c.senders && !c.senders[c.holder.value].Waiting?
                           && c.senders[c.holder.value].frame == c.log[|c.log| - 1])
    && (forall t :: t in c.senders && !c.senders[t].Waiting? ==> c.holder == Some(t))
    && c.sent == EncodeAll(Whole(c)) + Partial(c)
  }

  lemma WritePayloadKeeps(c: Control, t: nat)
    requires Inv(c) && t in c.senders && c.senders[t].HeaderSent?
    ensures Inv(Step(c, WritePayload(t)))
  {
    hide Header, Encode, EncodeAll;
    var f := c.senders[t].frame;
    assert c.log == Whole(c) + [f];
    EncodeAllSnoc(Whole(c), f);
    EncodeIs(f);
    assert c.sent + f.payload == EncodeAll(Whole(c)) + (Header(f) + f.payload);
  }

  lemma StepKeepsInv(c: Control, e: Event)
    requires Inv(c)
    ensures Inv(Step(c, e))
  {
    hide Header, Encode, EncodeAll;
    var c' := Step(c, e);
    if e.WritePayload? && e.t in c.senders && c.senders[e.t].HeaderSent? {
      WritePayloadKeeps(c, e.t);
    } else if c' != c {
      if e.Acquire? {
        assert c'.log[..|c'.log| - 1] == c.log;
      }
      assert c.sent == EncodeAll(Whole(c)) + Partial(c);
    }
  }

  lemma EncodeIs(f: Frame)
    ensures Encode(f) == Header(f) + f.payload
  {}

  lemma {:induction false} RunKeepsInv(events: seq<Event>)
    ensures Inv(Run(events))
    decreases |events|
  {
    hide Inv;
    if events == [] {
      QuietInv();
    } else {
      RunKeepsInv(events[..|events| - 1]);
      StepKeepsInv(Run(events[..|events| - 1]), events[|events| - 1]);
    }
  }

  lemma QuietInv()
    ensures Inv(QUIET)
  {}

  /** The bytes on the stream are always whole frames in the order of lock acquisition,
      followed by at most the header of the frame being written; when nobody holds the
      lock they are exactly the frames logged. */
  lemma SentIsWholeFrames(events: seq<Event>)
    ensures var c := Run(events);
      && (c.holder.Some? ==> c.log != [])
      && c.sent == EncodeAll(Whole(c)) + Partial(c)
      && (c.holder == None ==> c.sent == EncodeAll(c.log))
      && Whole(c) <= c.log && |c.log| <= |Whole(c)| + 1
  {
    RunKeepsInv(events);
    hide EncodeAll, Run;
  }

  /** However the senders interleave, a reader that has received any prefix of the
      stream has read a prefix of the logged frames, and once nobody holds the lock
      reading the whole stream recovers exactly the logged frames. */
  lemma ReaderSeesLog(events: seq<Event>, k: nat)
    requires k <= |Run(events).sent| && WithinLimit(Run(events).log)
    ensures DecodeAll(Run(events).sent[..k]).0 <= Run(events).log
    ensures Run(events).holder == None ==> DecodeAll(Run(events).sent) == (Run(events).log, Eof)
  {
    hide Run, DecodeAll, EncodeAll, Encode;
    var c := Run(events);
    RunKeepsInv(events);
    SentIsPrefix(c);
    assert c.sent[..k] == EncodeAll(c.log)[..k];
    ArrivedPrefix(c.log, k);
    if c.holder == None {
      StreamRoundTrip(c.log, []);
      assert EncodeAll(c.log) + [] == c.sent;
      NothingLeft();
      assert c.log + [] == c.log;
    }
  }

  lemma NothingLeft()
    ensures DecodeAll([]) == ([], Eof)
  {}

  lemma SentIsPrefix(c: Control)
    requires Inv(c)
    ensures c.sent <= EncodeAll(c.log)
  {
    hide EncodeAll, Header;
    if Whole(c) != c.log {
      var f := c.log[|c.log| - 1];
      assert c.log == Whole(c) + [f];
      EncodeAllSnoc(Whole(c), f);
      EncodeIs(f);
    }
  }

  lemma RunOne(events: seq<Event>, e: Event)
    ensures Run(events + [e]) == Step(Run(events), e)
  {
    hide Step;
    assert (events + [e])[..|events|] == events;
  }

  /** One sender's way through sendMsg. */
  function Sending(t: nat, f: Frame): seq<Event> {
    [Call(t, f), Acquire(t), WriteHeader(t), WritePayload(t), Release(t)]
  }

  /** After any run that leaves the lock free, a goroutine that sends puts precisely the
      octets of its frame on the stream and leaves the lock free again. */
  lemma SenderGetsThrough(events: seq<Event>, t: nat, f: Frame)
    requires Run(events).holder == None && t !in Run(events).senders
    ensures var c, c' := Run(events), Run(events + Sending(t, f));
      c'.sent == c.sent + Encode(f) && c'.log == c.log + [f] && c'.holder == None && c'.senders == c.senders
  {
    hide Run, Header;
    var c := Run(events);
    RunOne(events, Call(t, f));
    RunOne(events + [Call(t, f)], Acquire(t));
    RunOne(events + [Call(t, f)] + [Acquire(t)], WriteHeader(t));
    RunOne(events + [Call(t, f)] + [Acquire(t)] + [WriteHeader(t)], WritePayload(t));
    RunOne(events + [Call(t, f)] + [Acquire(t)] + [WriteHeader(t)] + [WritePayload(t)], Release(t));
    assert events + Sending(t, f) == events + [Call(t, f)] + [Acquire(t)] + [WriteHeader(t)] + [WritePayload(t)] + [Release(t)];
    assert c.sent + Encode(f) == c.sent + Header(f) + f.payload;
    assert c.senders[t := Waiting(f)] - {t} == c.senders;
  }
}
