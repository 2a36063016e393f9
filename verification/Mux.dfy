/** Joining two connections (internal/mux/mux.go), one of which may first replay octets
    already consumed from it (internal/server/vhost.go). Octets are characters here. */
module Mux {

  const BUFFER_SIZE: nat := 0x8000

  function Min(a: nat, b: nat): nat {
    if a < b then a else b
  }

  /** What one read of the underlying connection offers: how many octets are there at
      that moment, and whether the connection reports an error with them. */
  datatype Offer = Offer(available: nat, fails: bool)

  /** A connection. `head` is replayed first, and is empty for a connection nobody has read
      from. With a `buffer` of its own, the reader fetches up to that many octets at a time
      unless it is asked for as many: `ahead` is what it fetched and has not handed out, and
      `late` says that the fetch also failed. `rest` is what the network still has; `script`
      fixes how it behaves from now on, and an exhausted script is a dead connection; `room`
      is how many more octets it accepts. The ghost fields count its failed reads, the writes
      it refused, and those of both that happened while it was still open. */
  class Conn {
    const buffer: nat
    var head: string
    var ahead: string
    var late: bool
    var rest: string
    var script: seq<Offer>
    var out: string
    var room: nat
    var open: bool
    ghost var readErrors: nat
    ghost var refusals: nat
    ghost var broke: nat

    constructor (head: string, ahead: string, late: bool, rest: string, buffer: nat, script: seq<Offer>, room: nat)
      ensures this.head == head && this.ahead == ahead && this.late == late && this.rest == rest
      ensures this.buffer == buffer && this.script == script && this.room == room && out == "" && open
      ensures readErrors == refusals == broke == 0
    {
      this.head, this.ahead, this.late, this.rest := head, ahead, late, rest;
      this.buffer, this.script := buffer, script;
      this.room, out, open := room, "", true;
      readErrors, refusals, broke := 0, 0, 0;
    }

    /** Everything still to be read. */
    function Pending(): string
      reads this`head, this`ahead, this`rest
    {
      head + (ahead + rest)
    }

    /** What can be read whatever happens to the connection. */
    function Fetched(): nat
      reads this`head, this`ahead
    {
      |head| + |ahead|
    }

    /** A bound on how many more reads can succeed. */
    function Budget(): nat
      reads this`head, this`ahead, this`late, this`script
    {
      Fetched() + (if late then 1 else 0) + Weight(buffer, |script|)
    }

    static function Weight(buffer: nat, n: nat): nat {
      if n == 0 then 0 else buffer + 1 + Weight(buffer, n - 1)
    }

    /** Whether a read of `size` goes to the network. */
    predicate Fetches(size: nat)
      reads this`head, this`ahead, this`late
    {
      head == "" && ahead == "" && !late && (size > 0 || buffer == 0)
    }

    /** How much the network gives to such a read. */
    function Offered(size: nat): nat
      reads this`rest, this`script, this`open
    {
      if !open || script == [] then 0
      else Min(Min(script[0].available, if size < buffer then buffer else size), |rest|)
    }

    /** Whether it reports an error, with what it gives or instead of it. */
    predicate Fails()
      reads this`script, this`open
    {
      !open || script == [] || script[0].fails
    }

    /** Whether a read of `size` fails: nothing is left of the head or of what was fetched,
        and an earlier fetch failed or this one does. It does so at once if there is no
        buffer, the read is as large as the buffer or nothing came with the error, and
        otherwise only once what did come is handed out. */
    predicate WillFail(size: nat)
      reads this`head, this`ahead, this`late, this`rest, this`script, this`open
    {
      && head == "" && ahead == ""
      && (late || (Fetches(size) && Fails() && (Offered(size) == 0 || size >= buffer)))
    }

    /** Replays the head first, then hands out what was fetched ahead, both even on a closed
        connection; every read takes octets off the front of what is pending, in order and
        without loss. */
    method Read(size: nat) returns (chunk: string, failed: bool)
      modifies this`head, this`ahead, this`late, this`rest, this`script, this`readErrors, this`broke
      ensures chunk + Pending() == old(Pending()) && |chunk| <= size
      ensures old(head) != "" ==> |chunk| == Min(size, |old(head)|) && ahead == old(ahead)
      ensures old(head) == "" ==> head == ""
      ensures old(head) == "" && old(ahead) != "" ==> |chunk| == Min(size, |old(ahead)|)
      ensures old(Fetches(size)) ==>
                && |chunk| == Min(size, old(Offered(size))) && |rest| == |old(rest)| - old(Offered(size))
                && (late <==> old(Fails()) && 0 < old(Offered(size)) && size < buffer)
      ensures !old(Fetches(size)) ==> rest == old(rest) && script == old(script) && (late ==> old(late))
      ensures old(head == "" && ahead == "" && !late && script != []) && open && size > 0 ==>
                |chunk| == Min(size, Min(old(script)[0].available, |old(rest)|)) && script == old(script)[1..]
      ensures old(Fetched()) > 0 ==>
                Fetched() == old(Fetched()) - |chunk| && rest == old(rest) && !failed && (size > 0 ==> chunk != "")
      ensures failed == old(WillFail(size))
      ensures readErrors == old(readErrors) + (if failed then 1 else 0)
      ensures broke == old(broke) + (if failed && open then 1 else 0)
      ensures size > 0 && (chunk != "" || !failed) ==> Budget() < old(Budget())
      ensures Budget() <= old(Budget())
    {
      hide Weight, Fails, Offered;
      if |head| > 0 {
        var n := Min(size, |head|);
        chunk := head[..n];
        head := head[n..];
        return chunk, false;
      }
      if ahead == "" {
        var done;
        done, chunk, failed := Fill(size);
        if done {
          return;
        }
      }
      chunk := HandOut(size);
      failed := false;
      Regroup(chunk, ahead, rest);
    }

    static lemma Regroup(a: string, b: string, c: string)
      ensures a + ("" + (b + c)) == "" + ((a + b) + c)
    {}

    /** With nothing left to hand out: either the result of the read, or more ahead. */
    method Fill(size: nat) returns (done: bool, chunk: string, failed: bool)
      requires head == "" && ahead == ""
      modifies this`ahead, this`late, this`rest, this`script, this`readErrors, this`broke
      ensures chunk + (ahead + rest) == old(rest) && (!done ==> chunk == "" && !failed && 0 < size < buffer)
      ensures done ==> ahead == "" && failed == old(WillFail(size)) && !late
      ensures done && old(Fetches(size)) ==> |chunk| == old(Offered(size)) <= size && (chunk == "" || size >= buffer)
      ensures !done ==> old(Fetches(size)) && !old(WillFail(size)) && |ahead| == old(Offered(size)) > 0 && late == old(Fails())
      ensures old(Fetches(size)) ==> |rest| == |old(rest)| - old(Offered(size))
      ensures old(Fetches(size)) && open && old(script) != [] ==>
                && script == old(script)[1..]
                && Min(size, old(Offered(size))) == Min(size, Min(old(script)[0].available, |old(rest)|))
      ensures !old(Fetches(size)) ==> done && chunk == "" && rest == old(rest) && script == old(script)
      ensures readErrors == old(readErrors) + (if failed then 1 else 0)
      ensures broke == old(broke) + (if failed && open then 1 else 0)
      ensures size > 0 && done && !old(late) && (chunk != "" || !failed) ==> Budget() < old(Budget())
      ensures Budget() <= old(Budget())
    {
      hide Weight;
      failed := late;
      chunk, done := "", late || (size == 0 && buffer > 0);
      late := false;
      if !done {
        WeightStep(buffer, |script|);
        chunk, failed := Fetch(size);
        done := size >= buffer || chunk == "";
      }
      if done && failed {
        readErrors, broke := readErrors + 1, broke + if open then 1 else 0;
      }
      if !done {
        ahead, late := chunk, failed;
        chunk, failed := "", false;
      }
    }

    static lemma WeightStep(buffer: nat, n: nat)
      ensures n > 0 ==> Weight(buffer, n) == buffer + 1 + Weight(buffer, n - 1)
    {}

    /** One read of the underlying connection. */
    method Fetch(size: nat) returns (chunk: string, failed: bool)
      modifies this`rest, this`script
      ensures |chunk| == old(Offered(size)) && failed == old(Fails())
      ensures chunk + rest == old(rest)
      ensures old(script) == [] || !open ==> script == old(script)
      ensures old(script) != [] && open ==> script == old(script)[1..]
    {
      if !open || script == [] {
        return "", true;
      }
      var n := Min(Min(script[0].available, if size < buffer then buffer else size), |rest|);
      chunk, failed := rest[..n], script[0].fails;
      rest := rest[n..];
      script := script[1..];
    }

    /** Part of what was fetched ahead. */
    method HandOut(size: nat) returns (chunk: string)
      modifies this`ahead
      ensures chunk + ahead == old(ahead) && |chunk| == Min(size, |old(ahead)|)
    {
      var n := Min(size, |ahead|);
      chunk := ahead[..n];
      ahead := ahead[n..];
    }

    /** Accepts as much as there is room for, and nothing once closed; to accept less
        than everything is to refuse the write. */
    method Write(data: string) returns (n: nat, failed: bool)
      modifies this`out, this`room, this`refusals, this`broke
      ensures n == (if open then Min(|data|, old(room)) else 0)
      ensures n <= |data| && failed == (!open || n < |data|)
      ensures out == old(out) + data[..n] && room == old(room) - n
      ensures refusals == old(refusals) + (if failed then 1 else 0)
      ensures broke == old(broke) + (if failed && open then 1 else 0)
    {
      n := if open then Min(|data|, room) else 0;
      out := out + data[..n];
      room := room - n;
      failed := !open || n < |data|;
      if failed {
        refusals, broke := refusals + 1, broke + if open then 1 else 0;
      }
    }

    method Close()
      modifies this`open
      ensures !open
    {
      open := false;
    }
  }

  class Counter {
    var total: nat

    constructor ()
      ensures total == 0
    {
      total := 0;
    }

    method Add(n: nat)
      modifies this
      ensures total == old(total) + n
    {
      total := total + n;
    }
  }

  /** One direction of a join, between two of its steps: `chunk` was read and not yet
      written, and `failed` is the error its read came with; after the end, `half` says
      that the first connection is closed and `closed` that both are. The ghost fields
      record the situation at the start, what was read since, and how much of it was
      accepted. */
  class Direction {
    const src: Conn
    const dst: Conn
    const counter: Counter
    const forward: bool
    var chunk: string
    var failed: bool
    var ended: bool
    var half: bool
    var closed: bool
    ghost const source: string
    ghost const outBefore: string
    ghost const totalBefore: nat
    ghost const errorsBefore: nat
    ghost const refusalsBefore: nat
    ghost var taken: string
    ghost var accepted: nat

    constructor (src: Conn, dst: Conn, counter: Counter, forward: bool)
      requires src != dst
      ensures this.src == src && this.dst == dst && this.counter == counter && this.forward == forward
      ensures source == src.Pending() && outBefore == dst.out && totalBefore == counter.total
      ensures errorsBefore == src.readErrors && refusalsBefore == dst.refusals
      ensures Inv() && chunk == "" && !failed && !ended && !half && !closed
    {
      this.src, this.dst, this.counter, this.forward := src, dst, counter, forward;
      chunk, failed, ended, half, closed := "", false, false, false, false;
      source, outBefore, totalBefore := src.Pending(), dst.out, counter.total;
      errorsBefore, refusalsBefore := src.readErrors, dst.refusals;
      taken, accepted := "", 0;
    }

    /** What was accepted is the start of what was read, and was counted; the direction
        goes on until its source fails a read or its destination refuses a write. */
    ghost predicate Inv()
      reads this, src`head, src`ahead, src`rest, src`readErrors, dst`out, dst`refusals, counter
    {
      && src != dst
      && taken + src.Pending() == source
      && accepted <= |taken|
      && dst.out == outBefore + taken[..accepted]
      && counter.total == totalBefore + accepted
      && src.readErrors == errorsBefore + (if failed then 1 else 0)
      && dst.refusals == refusalsBefore + (if ended && accepted < |taken| then 1 else 0)
      && (if ended then accepted < |taken| || failed else taken[accepted..] == chunk && (chunk == "" ==> !failed))
    }

    static lemma AcceptedPrefix(taken: string, accepted: nat, chunk: string, n: nat)
      requires accepted <= |taken| && taken[accepted..] == chunk && n <= |chunk|
      ensures taken[..accepted] + chunk[..n] == taken[..accepted + n]
    {}

    static lemma WriteMore(before: string, taken: string, accepted: nat, chunk: string, n: nat)
      requires accepted <= |taken| && taken[accepted..] == chunk && n <= |chunk|
      ensures before + taken[..accepted] + chunk[..n] == before + taken[..accepted + n]
      ensures n == |chunk| ==> accepted + n == |taken| && taken[accepted + n..] == ""
      ensures n < |chunk| ==> accepted + n < |taken|
    {
      AcceptedPrefix(taken, accepted, chunk, n);
    }

    /** What was read, after one more read. */
    static lemma ReadMore(before: string, chunk: string, pending: string, was: string, source: string, accepted: nat)
      requires before + was == source && chunk + pending == was && accepted == |before|
      ensures before + chunk + pending == source
      ensures (before + chunk)[..accepted] == before && (before + chunk)[accepted..] == chunk
    {
      assert before + chunk + pending == before + (chunk + pending);
    }

    /** The work of a direction that has not ended, before and after one read. */
    static lemma ReadWorks(was: nat, now: nat, chunk: string, failed: bool)
      requires now <= was && (chunk != "" || !failed ==> now < was)
      ensures chunk != "" || !failed ==> 3 + 2 * now + (if chunk != "" then 1 else 0) < 3 + 2 * was
    {}

    /** How a direction that is over ended: a write was refused exactly when not all that
        was read was accepted, and otherwise its source failed a read. */
    lemma Accounts()
      requires Inv() && ended
      ensures taken + src.Pending() == source && accepted <= |taken|
      ensures dst.out == outBefore + taken[..accepted] && counter.total == totalBefore + accepted
      ensures dst.refusals == refusalsBefore + (if accepted < |taken| then 1 else 0)
      ensures src.readErrors <= errorsBefore + 1
      ensures accepted == |taken| ==> src.readErrors == errorsBefore + 1
    {}

    /** A bound on the steps to come. */
    function Work(): nat
      reads this`ended, this`half, this`closed, this`chunk, src`head, src`ahead, src`late, src`script
    {
      if closed then 0 else if half then 1 else if ended then 2
      else 3 + 2 * src.Budget() + if chunk != "" then 1 else 0
    }

    /** One read; it ends the direction exactly when it failed and brought nothing. */
    method Fetch()
      requires Inv() && !ended && !half && !closed && chunk == ""
      modifies this`chunk, this`failed, this`ended, this`taken,
               src`head, src`ahead, src`late, src`rest, src`script, src`readErrors, src`broke
      ensures Inv() && Work() < old(Work())
      ensures taken == old(taken) + chunk && chunk + src.Pending() == old(src.Pending())
      ensures failed <==> src.readErrors == old(src.readErrors) + 1
      ensures ended <==> failed && chunk == ""
      ensures |chunk| <= 32768 && (old(src.head) != "" ==> |chunk| == Min(32768, |old(src.head)|))
      ensures src.broke == old(src.broke) + (if failed && src.open then 1 else 0)
    {
      hide Min, Conn.Pending, Conn.Budget;
      ghost var before, was, budget := taken, src.Pending(), src.Budget();
      assert before[accepted..] == "" && before[..accepted] == before;
      chunk, failed := src.Read(BUFFER_SIZE);
      ReadMore(before, chunk, src.Pending(), was, source, accepted);
      ReadWorks(budget, src.Budget(), chunk, failed);
      taken := before + chunk;
      ended := chunk == "" && failed;
    }

    /** One write; it ends the direction exactly when it is refused or the read before it
        had failed. */
    method Pass()
      requires Inv() && !ended && !half && !closed && chunk != ""
      modifies this`chunk, this`ended, this`accepted, dst`out, dst`room, dst`refusals, dst`broke, counter
      ensures Inv() && Work() < old(Work())
      ensures accepted == old(accepted) + if dst.open then Min(|old(chunk)|, old(dst.room)) else 0
      ensures ended <==> dst.refusals == old(dst.refusals) + 1 || failed
      ensures dst.broke == old(dst.broke) + (if dst.refusals > old(dst.refusals) && dst.open then 1 else 0)
      ensures !ended ==> chunk == ""
    {
      hide Min, Conn.Pending, Conn.Budget;
      var n, refused := dst.Write(chunk);
      if n > 0 {
        counter.Add(n);
      }
      WriteMore(outBefore, taken, accepted, chunk, n);
      accepted := accepted + n;
      if refused || |chunk| != n {
        ended := true;
      } else {
        chunk := "";
        ended := failed;
      }
    }

    /** The two closes after the end, the same connection first in both directions. */
    method CloseFirst()
      requires Inv() && ended && !half && !closed
      modifies this`half, src`open, dst`open
      ensures Inv() && half && Work() < old(Work())
      ensures if forward then !src.open && dst.open == old(dst.open) else !dst.open && src.open == old(src.open)
    {
      if forward {
        src.Close();
      } else {
        dst.Close();
      }
      half := true;
    }

    method CloseSecond()
      requires Inv() && ended && half && !closed
      modifies this`closed, src`open, dst`open
      ensures Inv() && closed && Work() < old(Work())
      ensures if forward then !dst.open && src.open == old(src.open) else !src.open && dst.open == old(dst.open)
    {
      if forward {
        dst.Close();
      } else {
        src.Close();
      }
      closed := true;
    }

    /** The connection closed first, whichever direction closes. */
    function First(): Conn {
      if forward then src else dst
    }

    function Second(): Conn {
      if forward then dst else src
    }

    /** What the closes of a direction have done. */
    ghost predicate Closes()
      reads this`ended, this`half, this`closed, src`open, dst`open
    {
      (half ==> ended && !First().open) && (closed ==> half && !Second().open)
    }

    /** The next step of the direction. An end is a failure of one of the connections,
        and nothing is closed before an end. */
    method Step()
      requires Inv() && Closes() && !closed
      modifies this`chunk, this`failed, this`ended, this`half, this`closed, this`taken, this`accepted, counter,
               src`head, src`ahead, src`late, src`rest, src`script, src`readErrors, src`broke, src`open,
               dst`out, dst`room, dst`refusals, dst`broke, dst`open
      ensures Inv() && Closes() && Work() < old(Work())
      ensures src.broke >= old(src.broke) && dst.broke >= old(dst.broke)
      ensures (src.open ==> old(src.open)) && (dst.open ==> old(dst.open))
      ensures !old(ended) ==> src.open == old(src.open) && dst.open == old(dst.open)
      ensures ((failed || ended) && !old(failed || ended) && src.open && dst.open) ==>
                src.broke + dst.broke > old(src.broke + dst.broke)
      ensures ended ==> old(ended) || failed || dst.refusals > old(dst.refusals)
    {
      if ended {
        if half {
          CloseSecond();
        } else {
          CloseFirst();
        }
      } else if chunk == "" {
        Fetch();
      } else {
        Pass();
      }
    }
  }

  /** Two connections joined, the steps of the two directions interleaved in any way, up
      to a close that falls between a read and its write. Whatever the interleaving: each
      side got a prefix of what was read from the other; something read was not accepted
      exactly when the destination refused a write, and everything was accepted exactly
      when no write was refused and the source failed a read; each counter grew by exactly
      what was accepted; both connections are closed at the end; and if both were open at
      the start, the join ended because one of them failed while still open. */
  method Join(a: Conn, b: Conn, onA2B: Counter, onB2A: Counter) returns (ghost ab: Direction, ghost ba: Direction)
    requires a != b && onA2B != onB2A
    modifies a, b, onA2B, onB2A
    ensures ab.taken + a.Pending() == old(a.Pending()) && ba.taken + b.Pending() == old(b.Pending())
    ensures ab.accepted <= |ab.taken| && b.out == old(b.out) + ab.taken[..ab.accepted]
    ensures ba.accepted <= |ba.taken| && a.out == old(a.out) + ba.taken[..ba.accepted]
    ensures ab.accepted < |ab.taken| <==> b.refusals == old(b.refusals) + 1
    ensures ba.accepted < |ba.taken| <==> a.refusals == old(a.refusals) + 1
    ensures ab.accepted == |ab.taken| <==> b.refusals == old(b.refusals) && a.readErrors == old(a.readErrors) + 1
    ensures ba.accepted == |ba.taken| <==> a.refusals == old(a.refusals) && b.readErrors == old(b.readErrors) + 1
    ensures onA2B.total == old(onA2B.total) + ab.accepted && onB2A.total == old(onB2A.total) + ba.accepted
    ensures !a.open && !b.open
    ensures old(a.open && b.open) ==> a.broke + b.broke > old(a.broke + b.broke)
  {
    hide Direction.Inv, Direction.Work, Conn.Pending, Conn.Budget;
    var forth := new Direction(a, b, onA2B, true);
    var back := new Direction(b, a, onB2A, false);
    Interleave(forth, back);
    forth.Accounts();
    back.Accounts();
    ab, ba := forth, back;
  }

  /** The steps of the two directions in any order, until both are over. */
  method Interleave(forth: Direction, back: Direction)
    requires forth.Inv() && back.Inv() && forth.Closes() && back.Closes()
    requires forth != back && forth.counter != back.counter
    requires forth.src == back.dst && forth.dst == back.src && forth.src != back.src
    requires !forth.failed && !back.failed && !forth.ended && !back.ended
    modifies forth, back, forth.src, back.src, forth.counter, back.counter
    ensures forth.Inv() && back.Inv() && forth.ended && back.ended
    ensures !forth.src.open && !back.src.open
    ensures old(forth.src.open && back.src.open) ==>
              forth.src.broke + back.src.broke > old(forth.src.broke + back.src.broke)
  {
    hide Direction.Inv, Direction.Work, Conn.Pending, Conn.Budget;
    var a, b := forth.src, back.src;
    while
      modifies a, b, forth.counter, back.counter, forth, back
      invariant forth.Inv() && back.Inv() && forth.Closes() && back.Closes()
      invariant a.broke + b.broke >= old(a.broke + b.broke)
      invariant || old(!a.open || !b.open)
                || a.broke + b.broke > old(a.broke + b.broke)
                || (a.open && b.open && !forth.failed && !back.failed && !forth.ended && !back.ended)
      decreases forth.Work() + back.Work()
    {
      case !forth.closed => forth.Step();
      case !back.closed => back.Step();
    }
  }

  function Sum(sizes: seq<nat>): nat {
    if sizes == [] then 0 else Sum(sizes[..|sizes| - 1]) + sizes[|sizes| - 1]
  }

  /** Reading with any sequence of buffer sizes delivers a prefix of what was pending: the
      boundary between the replayed head and the rest cannot be seen. The reads get at least
      the head, or as much as they ask for, and if each asks for some, at least one octet of
      what was fetched before each; until all of that is handed out, none of them fails and
      none goes to the network. */
  method ReadMany(c: Conn, sizes: seq<nat>) returns (got: string)
    modifies c`head, c`ahead, c`late, c`rest, c`script, c`readErrors, c`broke
    ensures got + c.Pending() == old(c.Pending())
    ensures |got| <= Sum(sizes)
    ensures |got| >= Min(Sum(sizes), |old(c.head)|)
    ensures (forall i :: 0 <= i < |sizes| ==> sizes[i] > 0) ==> |got| >= Min(|sizes|, old(c.Fetched()))
    ensures |got| < old(c.Fetched()) ==> c.rest == old(c.rest) && c.readErrors == old(c.readErrors)
  {
    hide Conn.Budget, Conn.Offered, Conn.Fails, Conn.Fetches, Conn.WillFail, Conn.Pending;
    got := "";
    assert sizes[..0] == [];
    ghost var all, head, fetched := c.Pending(), c.head, c.Fetched();
    for i := 0 to |sizes|
      invariant got + c.Pending() == all
      invariant |got| <= Sum(sizes[..i])
      invariant c.head != "" ==> |got| == Sum(sizes[..i])
      invariant |got| + |c.head| >= |head|
      invariant |got| < fetched ==> |got| + c.Fetched() == fetched
      invariant |got| < fetched ==> c.rest == old(c.rest) && c.readErrors == old(c.readErrors)
      invariant (forall k :: 0 <= k < |sizes| ==> sizes[k] > 0) ==> |got| >= i || |got| >= fetched
    {
      assert sizes[..i + 1][..i] == sizes[..i];
      ghost var before := got;
      var chunk, failed := c.Read(sizes[i]);
      got := got + chunk;
      assert got + c.Pending() == before + (chunk + c.Pending());
    }
    assert sizes[..|sizes|] == sizes;
  }
}
