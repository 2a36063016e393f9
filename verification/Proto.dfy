/** Length-prefixed frames on a byte stream (internal/proto/proto.go). */
module Proto {
  import opened Wrappers

  newtype byte = x: int | 0 <= x < 256

  const HEADER_SIZE: nat := 5
  const MAX_FRAME: nat := 0x10_0000
  const TWO_32: nat := 0x1_0000_0000

  datatype Frame = Frame(typ: byte, payload: seq<byte>)

  // ---- The length field ----

  function Be32(n: nat): (b: seq<byte>)
    requires n < TWO_32
    ensures |b| == 4
  {
    var n1 := n / 256;
    var n2 := n1 / 256;
    [(n2 / 256) as byte, (n2 % 256) as byte, (n1 % 256) as byte, (n % 256) as byte]
  }

  function FromBe32(b: seq<byte>): (n: nat)
    requires |b| == 4
    ensures n < TWO_32
  {
    b[0] as nat * 0x100_0000 + b[1] as nat * 0x1_0000 + b[2] as nat * 0x100 + b[3] as nat
  }

  lemma LengthRoundTrip(n: nat)
    requires n < TWO_32
    ensures FromBe32(Be32(n)) == n
  {}

  lemma LengthRoundTripBack(b: seq<byte>)
    requires |b| == 4
    ensures Be32(FromBe32(b)) == b
  {
    var n := FromBe32(b);
    var n2 := b[0] as nat * 256 + b[1] as nat;
    var n1 := n2 * 256 + b[2] as nat;
    assert n == n1 * 256 + b[3] as nat;
    assert n / 256 == n1 && n % 256 == b[3] as nat;
    assert n1 / 256 == n2 && n1 % 256 == b[2] as nat;
    assert n2 / 256 == b[0] as nat && n2 % 256 == b[1] as nat;
  }

  // ---- Frames as byte sequences ----

  /** The writer does not check the payload length: the length field holds it modulo
      its own width. */
  function Header(f: Frame): (h: seq<byte>)
    ensures |h| == HEADER_SIZE
  {
    [f.typ] + Be32(|f.payload| % TWO_32)
  }

  function Encode(f: Frame): seq<byte> {
    Header(f) + f.payload
  }

  datatype ReadError = Eof | UnexpectedEof | TooLarge(length: nat)

  /** The error of a read of `n > 0` bytes that finds fewer. */
  function Short(available: nat): ReadError {
    if available == 0 then Eof else UnexpectedEof
  }

  /** One frame from the front of a stream that ends after `s`, and what is left. */
  function Decode(s: seq<byte>): Result<(Frame, seq<byte>), ReadError> {
    if |s| < HEADER_SIZE then Err(Short(|s|))
    else
      var n := FromBe32(s[1..5]);
      if n > MAX_FRAME then Err(TooLarge(n))
      else if |s| - HEADER_SIZE < n then Err(Short(|s| - HEADER_SIZE))
      else Ok((Frame(s[0], s[5..5 + n]), s[5 + n..]))
  }

  // ---- The reader and the writer of the program ----

  /** A connection that accepts `room` more bytes before it fails. */
  class Writer {
    var written: seq<byte>
    var room: nat

    constructor (room: nat)
      ensures written == [] && this.room == room
    {
      written := [];
      this.room := room;
    }

    method Write(data: seq<byte>) returns (ok: bool)
      modifies this
      ensures ok == (|data| <= old(room))
      ensures written == old(written) + (if ok then data else data[..old(room)])
      ensures room == if ok then old(room) - |data| else 0
    {
      if |data| <= room {
        written := written + data;
        room := room - |data|;
        return true;
      }
      written := written + data[..room];
      room := 0;
      return false;
    }
  }

  /** A connection with `pending` still to be delivered before it ends. */
  class Reader {
    var pending: seq<byte>

    constructor (bytes: seq<byte>)
      ensures pending == bytes
    {
      pending := bytes;
    }

    /** Reads exactly `n` bytes or fails. */
    method ReadFull(n: nat) returns (r: Result<seq<byte>, ReadError>)
      modifies this
      ensures n <= |old(pending)| ==> r == Ok(old(pending)[..n]) && pending == old(pending)[n..]
      ensures n > |old(pending)| ==> r == Err(Short(|old(pending)|)) && pending == []
    {
      if n <= |pending| {
        r := Ok(pending[..n]);
        pending := pending[n..];
      } else {
        r := Err(Short(|pending|));
        pending := [];
      }
    }
  }

  /** Two writes, header then payload; the second one is skipped for an empty payload.
      When a write fails the stream holds a proper prefix of the frame. */
  method WriteFrame(w: Writer, f: Frame) returns (ok: bool)
    modifies w
    ensures ok ==> w.written == old(w.written) + Encode(f)
    ensures !ok ==> exists k: nat :: k < |Encode(f)| && w.written == old(w.written) + Encode(f)[..k]
    ensures ok <==> |Encode(f)| <= old(w.room)
  {
    var hdr := new byte[HEADER_SIZE];
    hdr[0] := f.typ;
    var n := |f.payload| % TWO_32;
    hdr[4] := (n % 256) as byte;
    n := n / 256;
    hdr[3] := (n % 256) as byte;
    n := n / 256;
    hdr[2] := (n % 256) as byte;
    hdr[1] := (n / 256) as byte;
    assert hdr[..] == Header(f);
    var room := w.room;
    ok := w.Write(hdr[..]);
    if !ok {
      assert Encode(f)[..room] == Header(f)[..room];
      return;
    }
    if |f.payload| > 0 {
      ok := w.Write(f.payload);
      if !ok {
        assert Encode(f)[..room] == Header(f) + f.payload[..room - HEADER_SIZE];
      }
    }
  }

  method ReadFrame(r: Reader) returns (res: Result<Frame, ReadError>)
    modifies r
    ensures match Decode(old(r.pending))
            case Ok((f, rest)) => res == Ok(f) && r.pending == rest
            case Err(e) => res == Err(e)
  {
    var hdr := r.ReadFull(HEADER_SIZE);
    if hdr.Err? {
      return Err(hdr.error);
    }
    assert hdr.value[1..] == old(r.pending)[1..5];
    var n := FromBe32(hdr.value[1..]);
    if n > MAX_FRAME {
      return Err(TooLarge(n));
    }
    var payload := r.ReadFull(n);
    if payload.Err? {
      return Err(payload.error);
    }
    assert old(r.pending)[5..][..n] == old(r.pending)[5..5 + n];
    assert old(r.pending)[5..][n..] == old(r.pending)[5 + n..];
    return Ok(Frame(hdr.value[0], payload.value));
  }

  // ---- Laws of the codec ----

  /** The octets of a frame: its type, its length with the most significant octet first, and
      its payload. The length is the payload's own below 4 GiB. */
  lemma FrameOctets(f: Frame)
    ensures var s := Encode(f);
      && |s| == 5 + |f.payload| && s[0] == f.typ && s[5..] == f.payload
      && (|f.payload| < 4294967296 ==>
            s[1] as nat * 16777216 + s[2] as nat * 65536 + s[3] as nat * 256 + s[4] as nat == |f.payload|)
  {
    hide Be32, FromBe32;
    var s := Encode(f);
    assert s[1..5] == Be32(|f.payload| % TWO_32);
    BigEndian(|f.payload| % TWO_32);
    assert s[1] == s[1..5][0] && s[2] == s[1..5][1] && s[3] == s[1..5][2] && s[4] == s[1..5][3];
  }

  lemma BigEndian(n: nat)
    requires n < TWO_32
    ensures var b := Be32(n);
      b[0] as nat * 16777216 + b[1] as nat * 65536 + b[2] as nat * 256 + b[3] as nat == n
  {}

  /** Which error a stream that ends after `s` gives: none of its first frame's header or, if
      it has one, of its payload has arrived; some of it has; or its length is over the
      limit, which is checked before the payload is read. */
  lemma ReadErrorsExactly(s: seq<byte>)
    ensures |s| == 0 ==> Decode(s) == Err(Eof)
    ensures 0 < |s| < 5 ==> Decode(s) == Err(UnexpectedEof)
    ensures |s| >= 5 ==>
              var n := s[1] as nat * 16777216 + s[2] as nat * 65536 + s[3] as nat * 256 + s[4] as nat;
              && (Decode(s) == Err(TooLarge(n)) <==> n > 1048576)
              && (Decode(s) == Err(Eof) <==> 0 < n <= 1048576 && |s| == 5)
              && (Decode(s) == Err(UnexpectedEof) <==> n <= 1048576 && 0 < |s| - 5 < n)
  {
    if |s| >= 5 {
      var b := s[1..5];
      assert b[0] == s[1] && b[1] == s[2] && b[2] == s[3] && b[3] == s[4];
    }
  }

  /** Reading gives back what was written, followed by any rest, exactly when the
      payload respects the reader's limit: the writer enforces none. */
  lemma FrameRoundTrip(f: Frame, rest: seq<byte>)
    ensures Decode(Encode(f) + rest) == Ok((f, rest)) <==> |f.payload| <= 1048576
  {
    hide Be32, FromBe32;
    var s := Encode(f) + rest;
    var n := |f.payload| % TWO_32;
    LengthRoundTrip(n);
    assert s[1..5] == Be32(n);
    if |f.payload| <= 1048576 {
      assert s[5..5 + n] == f.payload;
      assert s[5 + n..] == rest;
    }
  }

  /** A successful read consumed exactly the encoding of its frame. */
  lemma ReadReencodes(s: seq<byte>)
    requires Decode(s).Ok?
    ensures var (f, rest) := Decode(s).value;
      s == Encode(f) + rest && |f.payload| <= 1048576
  {
    hide Be32, FromBe32;
    var (f, rest) := Decode(s).value;
    LengthRoundTripBack(s[1..5]);
    assert s == [s[0]] + s[1..5] + s[5..5 + |f.payload|] + rest;
  }

  /** The readable streams are exactly those that start with an encoded frame within
      the limit. */
  lemma ReadableExactly(s: seq<byte>)
    ensures Decode(s).Ok? <==> exists f: Frame, rest: seq<byte> :: |f.payload| <= 1048576 && s == Encode(f) + rest
  {
    if Decode(s).Ok? {
      ReadReencodes(s);
    }
    if f: Frame, rest: seq<byte> :| |f.payload| <= 1048576 && s == Encode(f) + rest {
      FrameRoundTrip(f, rest);
    }
  }

  /** A frame cut short anywhere is an error, never a frame. */
  lemma PrefixIsError(f: Frame, k: nat)
    requires |f.payload| <= 1048576 && k < |Encode(f)|
    ensures Decode(Encode(f)[..k]).Err?
    ensures Decode(Encode(f)[..k]).error == if k == 0 || k == 5 then Eof else UnexpectedEof
  {
    hide Be32, FromBe32;
    var s := Encode(f)[..k];
    if k >= HEADER_SIZE {
      LengthRoundTrip(|f.payload|);
      assert Encode(f)[1..5] == Be32(|f.payload|);
      assert s[1..5] == Encode(f)[1..5];
    }
  }

  // ---- Streams of frames ----

  function EncodeAll(fs: seq<Frame>): seq<byte> {
    if fs == [] then [] else Encode(fs[0]) + EncodeAll(fs[1..])
  }

  /** Reading frames until the stream errs: the frames, and the error that ended it. */
  function DecodeAll(s: seq<byte>): (seq<Frame>, ReadError)
    decreases |s|
  {
    match Decode(s)
    case Err(e) => ([], e)
    case Ok((f, rest)) =>
      assert |rest| < |s|;
      var (fs, e) := DecodeAll(rest);
      ([f] + fs, e)
  }

  ghost predicate WithinLimit(fs: seq<Frame>) {
    forall i :: 0 <= i < |fs| ==> |fs[i].payload| <= 1048576
  }

  /** The frames of a stream are recovered, whatever follows them. */
  lemma {:induction false} StreamRoundTrip(fs: seq<Frame>, rest: seq<byte>)
    requires WithinLimit(fs)
    ensures DecodeAll(EncodeAll(fs) + rest) == (fs + DecodeAll(rest).0, DecodeAll(rest).1)
  {
    hide Encode, Decode;
    if fs == [] {
      assert EncodeAll(fs) + rest == rest;
      assert fs + DecodeAll(rest).0 == DecodeAll(rest).0;
    } else {
      assert EncodeAll(fs) + rest == Encode(fs[0]) + (EncodeAll(fs[1..]) + rest);
      FrameRoundTrip(fs[0], EncodeAll(fs[1..]) + rest);
      StreamRoundTrip(fs[1..], rest);
      assert [fs[0]] + (fs[1..] + DecodeAll(rest).0) == fs + DecodeAll(rest).0;
    }
  }

  lemma {:induction false} EncodeAllSnoc(fs: seq<Frame>, f: Frame)
    ensures EncodeAll(fs + [f]) == EncodeAll(fs) + Encode(f)
  {
    if fs == [] {
      assert fs + [f] == [f];
      assert EncodeAll([f]) == Encode(f) + EncodeAll([]);
    } else {
      assert (fs + [f])[1..] == fs[1..] + [f];
      EncodeAllSnoc(fs[1..], f);
    }
  }

  /** A stream cut inside a frame yields the whole frames before it and then an error. */
  lemma CutStream(fs: seq<Frame>, f: Frame, k: nat)
    requires WithinLimit(fs) && |f.payload| <= 1048576 && k < |Encode(f)|
    ensures DecodeAll(EncodeAll(fs) + Encode(f)[..k]).0 == fs
  {
    StreamRoundTrip(fs, Encode(f)[..k]);
    PrefixIsError(f, k);
    assert fs + [] == fs;
  }

  /** Whatever part of a stream of frames has arrived, reading it yields a prefix of
      the frames. */
  lemma {:induction false} ArrivedPrefix(fs: seq<Frame>, k: nat)
    requires WithinLimit(fs) && k <= |EncodeAll(fs)|
    ensures DecodeAll(EncodeAll(fs)[..k]).0 <= fs
  {
    hide Encode, Decode;
    if fs != [] {
      var f, later := fs[0], EncodeAll(fs[1..]);
      var s := EncodeAll(fs)[..k];
      if k < |Encode(f)| {
        assert s == Encode(f)[..k];
        PrefixIsError(f, k);
      } else {
        var rest := later[..k - |Encode(f)|];
        assert s == Encode(f) + rest;
        FrameRoundTrip(f, rest);
        ArrivedPrefix(fs[1..], k - |Encode(f)|);
        assert DecodeAll(s).0 == [f] + DecodeAll(rest).0;
      }
    } else {
      assert EncodeAll(fs)[..k] == [];
      EmptyStreamErrs();
    }
  }

  lemma EmptyStreamErrs()
    ensures Decode([]) == Err(Eof)
  {}
}
