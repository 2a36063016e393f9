/** One connection to the shared HTTP port: reading the request head, finding the proxy
    behind its host, and handing the connection over with the head to be replayed
    (internal/server/vhost.go). Octets are characters here. */
module Vhost {
  import opened Wrappers
  import opened Text
  import opened Hosts
  import opened Config
  import R = Registry
  import RL = RegistryLaws
  import S = Server
  import H = Handoff
  import M = Mux

  const HEAD_LIMIT: nat := 16 * 1024

  // ---- What a request head is ----

  predicate IsLine(l: string) {
    l != "" && l[|l| - 1] == '\n' && '\n' !in l[..|l| - 1]
  }

  predicate IsEnd(l: string) {
    l == "\r\n" || l == "\n"
  }

  /** A request line, the field lines and the empty line that ends the head. */
  datatype Head = Head(first: string, fields: seq<string>, end: string)

  ghost predicate WellFormed(h: Head) {
    && IsLine(h.first) && IsEnd(h.end)
    && AreFields(h.fields)
  }

  ghost predicate AreFields(fields: seq<string>) {
    forall i :: 0 <= i < |fields| ==> IsLine(fields[i]) && !IsEnd(fields[i])
  }

  function Flat(lines: seq<string>): string {
    if lines == [] then "" else lines[0] + Flat(lines[1..])
  }

  function TextOf(h: Head): string {
    h.first + Flat(h.fields) + h.end
  }

  /** The value of the last Host line, starting from `host`. */
  function LastHost(fields: seq<string>, host: string): string {
    if fields == [] then host
    else LastHost(fields[1..], if IsHostLine(fields[0]) then HostValue(fields[0]) else host)
  }

  /** The number of blank-separated fields of a line. */
  function FieldCount(s: string): nat {
    if s == "" then 0
    else if IsBlank(s[0]) then FieldCount(s[1..])
    else if |s| == 1 || IsBlank(s[1]) then 1 + FieldCount(s[1..])
    else FieldCount(s[1..])
  }

  /** A field, a blank, and another field. */
  ghost predicate TwoFields(l: string) {
    exists i, j, k :: FieldsAt(l, i, j, k)
  }

  ghost predicate FieldsAt(l: string, i: int, j: int, k: int) {
    0 <= i < j < k < |l| && !IsBlank(l[i]) && IsBlank(l[j]) && !IsBlank(l[k])
  }

  lemma {:induction false} SomeField(s: string)
    ensures FieldCount(s) >= 1 <==> exists k :: 0 <= k < |s| && !IsBlank(s[k])
  {
    hide IsBlank;
    if s != "" {
      SomeField(s[1..]);
      if k :| 0 <= k < |s[1..]| && !IsBlank(s[1..][k]) {
        assert !IsBlank(s[k + 1]);
      }
      if k :| 1 <= k < |s| && !IsBlank(s[k]) {
        assert !IsBlank(s[1..][k - 1]);
      }
    }
  }

  /** The count reaches two exactly on such lines. */
  lemma {:induction false} FieldCountExactly(s: string)
    ensures FieldCount(s) >= 2 <==> TwoFields(s)
  {
    hide IsBlank;
    if s != "" {
      FieldCountExactly(s[1..]);
      SomeField(s[1..]);
      FieldsShift(s);
      if !IsBlank(s[0]) && |s| > 1 && IsBlank(s[1]) {
        if k :| 0 <= k < |s[1..]| && !IsBlank(s[1..][k]) {
          assert FieldsAt(s, 0, 1, k + 1);
        }
        if TwoFields(s) {
          var i, j, k :| FieldsAt(s, i, j, k);
          assert !IsBlank(s[1..][k - 1]);
        }
      }
    }
  }

  /** Two fields behind the first character are two fields; and the other way round unless
      that character is a field of its own. */
  lemma FieldsShift(s: string)
    requires s != ""
    ensures TwoFields(s[1..]) ==> TwoFields(s)
    ensures TwoFields(s) && (IsBlank(s[0]) || (|s| > 1 && !IsBlank(s[1]))) ==> TwoFields(s[1..])
  {
    hide IsBlank;
    if TwoFields(s[1..]) {
      var i, j, k :| FieldsAt(s[1..], i, j, k);
      assert FieldsAt(s, i + 1, j + 1, k + 1);
    }
    if TwoFields(s) && (IsBlank(s[0]) || (|s| > 1 && !IsBlank(s[1]))) {
      var i, j, k :| FieldsAt(s, i, j, k);
      assert FieldsAt(s[1..], if i == 0 then 0 else i - 1, j - 1, k - 1);
    }
  }

  // ---- Scanning ----

  function NextLine(input: string): (l: string)
    requires '\n' in input
    ensures l <= input && IsLine(l)
  {
    BeforeStops(input, '\n');
    Before(input, '\n') + "\n"
  }

  datatype Scan = Dead | Bad | Complete(head: string, host: string)

  /** The lines after the request line, given the head and the host so far. */
  function ScanFields(input: string, head: string, host: string): Scan
    decreases |input|
  {
    if '\n' !in input then Dead
    else
      var l := NextLine(input);
      if IsEnd(l) then Complete(head + l, host)
      else if |head + l| > HEAD_LIMIT then Dead
      else ScanFields(input[|l|..], head + l, if IsHostLine(l) then HostValue(l) else host)
  }

  /** What comes of a connection on which `input` arrives before the deadline. */
  function ScanHead(input: string): Scan {
    if '\n' !in input then Dead
    else
      var l := NextLine(input);
      if FieldCount(l) < 2 then Bad
      else
        var s := ScanFields(input[|l|..], l, "");
        if s.Complete? && s.host == "" then Bad else s
  }

  lemma NextLineIs(l: string, rest: string)
    requires IsLine(l)
    ensures '\n' in l + rest && NextLine(l + rest) == l && (l + rest)[|l|..] == rest
  {
    var s := l + rest;
    assert s[|l| - 1] == '\n';
    assert s == l[..|l| - 1] + ['\n'] + rest;
    BeforeConcat(l[..|l| - 1], '\n', rest);
  }

  lemma LineNotEmpty(l: string)
    requires IsLine(l)
    ensures l != ""
  {}

  lemma EndIsLine(l: string)
    requires IsEnd(l)
    ensures IsLine(l)
  {}

  /** Any field lines within the limit, followed by an empty line, are a complete scan. */
  lemma {:induction false} ScanAccepts(fields: seq<string>, end: string, body: string, head: string, host: string)
    requires AreFields(fields) && IsEnd(end)
    requires fields == [] || |head + Flat(fields)| <= HEAD_LIMIT
    ensures ScanFields(Flat(fields) + end + body, head, host) == Complete(head + Flat(fields) + end, LastHost(fields, host))
    decreases |fields|
  {
    hide IsLine, IsEnd, IsHostLine, HostValue, NextLine;
    if fields == [] {
      assert Flat(fields) + end + body == end + body;
      EndIsLine(end);
      NextLineIs(end, body);
      assert head + Flat(fields) + end == head + end;
    } else {
      var l, more := fields[0], fields[1..];
      assert Flat(fields) + end + body == l + (Flat(more) + end + body);
      NextLineIs(l, Flat(more) + end + body);
      var host' := if IsHostLine(l) then HostValue(l) else host;
      assert head + Flat(fields) == (head + l) + Flat(more);
      ScanAccepts(more, end, body, head + l, host');
      assert head + Flat(fields) + end == (head + l) + Flat(more) + end;
    }
  }

  /** A complete scan consumed field lines within the limit and an empty line. */
  lemma {:induction false} ScanFound(input: string, head: string, host: string) returns (fields: seq<string>, end: string)
    requires ScanFields(input, head, host).Complete?
    ensures AreFields(fields) && IsEnd(end) && Flat(fields) + end <= input
    ensures fields == [] || |head + Flat(fields)| <= HEAD_LIMIT
    ensures ScanFields(input, head, host) == Complete(head + Flat(fields) + end, LastHost(fields, host))
    decreases |input|
  {
    hide IsLine, IsEnd, IsHostLine, HostValue, NextLine;
    var l := NextLine(input);
    if IsEnd(l) {
      fields, end := [], l;
      assert head + Flat(fields) + end == head + l;
    } else {
      LineNotEmpty(l);
      var host' := if IsHostLine(l) then HostValue(l) else host;
      var more;
      more, end := ScanFound(input[|l|..], head + l, host');
      fields := [l] + more;
      FlatCons(head, l, more, end);
      assert input == l + input[|l|..];
      hide ScanFields, Flat;
    }
  }

  lemma FlatCons(head: string, l: string, more: seq<string>, end: string)
    ensures Flat([l] + more) + end == l + (Flat(more) + end)
    ensures head + Flat([l] + more) == (head + l) + Flat(more)
    ensures head + Flat([l] + more) + end == (head + l) + Flat(more) + end
  {
    assert ([l] + more)[1..] == more;
  }

  /** The head a connection must open with to be routed, and the host it names. */
  ghost predicate Opens(h: Head, input: string, host: string) {
    && WellFormed(h) && TextOf(h) <= input
    && TwoFields(h.first)
    && |h.first + Flat(h.fields)| <= 16384
    && host == LastHost(h.fields, "") && host != ""
  }

  /** A connection is routed exactly when what arrives in time opens with a well-formed
      head whose lines stay within the limit and whose last Host line is not empty; the
      captured head is that text, octet for octet. */
  lemma RoutedExactly(input: string, head: string, host: string)
    ensures ScanHead(input) == Complete(head, host) <==> exists h: Head :: Opens(h, input, host) && head == TextOf(h)
  {
    hide ScanFields, FieldCount, LastHost, IsLine, NextLine, TwoFields;
    if ScanHead(input) == Complete(head, host) {
      var h := HeadOf(input, head, host);
      assert Opens(h, input, host) && head == TextOf(h);
    }
    if h: Head :| Opens(h, input, host) && head == TextOf(h) {
      OpensRouted(h, input, host);
    }
  }

  /** A connection is answered 400 exactly when its first line arrives without two fields, or
      a whole head within the limit arrives that names no host. */
  lemma BadExactly(input: string)
    ensures ScanHead(input) == Bad <==>
            || (exists l :: IsLine(l) && l <= input && !TwoFields(l))
            || (exists h: Head :: Hostless(h, input))
  {
    hide ScanFields, FieldCount, LastHost, IsLine, NextLine, TwoFields;
    if ScanHead(input) == Bad {
      var l := NextLine(input);
      FieldCountExactly(l);
      if TwoFields(l) {
        FieldsNeverBad(input[|l|..], l, "");
        var fields, end := ScanFound(input[|l|..], l, "");
        assert input == l + input[|l|..];
        assert TextOf(Head(l, fields, end)) == l + (Flat(fields) + end);
        assert Hostless(Head(l, fields, end), input);
      }
    }
    if l :| IsLine(l) && l <= input && !TwoFields(l) {
      FieldCountExactly(l);
      assert input == l + input[|l|..];
      NextLineIs(l, input[|l|..]);
    }
    if h: Head :| Hostless(h, input) {
      HostlessIsBad(h, input);
    }
  }

  lemma {:induction false} FieldsNeverBad(input: string, head: string, host: string)
    ensures ScanFields(input, head, host) != Bad
    decreases |input|
  {
    hide IsHostLine, HostValue, NextLine;
    if '\n' in input && !IsEnd(NextLine(input)) {
      var l := NextLine(input);
      LineNotEmpty(l);
      FieldsNeverBad(input[|l|..], head + l, if IsHostLine(l) then HostValue(l) else host);
    }
  }

  ghost predicate Hostless(h: Head, input: string) {
    && WellFormed(h) && TextOf(h) <= input && TwoFields(h.first)
    && (h.fields == [] || |h.first + Flat(h.fields)| <= 16384)
    && LastHost(h.fields, "") == ""
  }

  lemma HostlessIsBad(h: Head, input: string)
    requires Hostless(h, input)
    ensures ScanHead(input) == Bad
  {
    hide ScanFields, FieldCount, IsLine, NextLine, IsHostLine, HostValue, TwoFields, LastHost;
    FieldCountExactly(h.first);
    var body := input[|TextOf(h)|..];
    var rest := Flat(h.fields) + h.end + body;
    assert input == h.first + rest;
    NextLineIs(h.first, rest);
    ScanAccepts(h.fields, h.end, body, h.first, "");
  }

  lemma HeadOf(input: string, head: string, host: string) returns (h: Head)
    requires ScanHead(input) == Complete(head, host)
    ensures Opens(h, input, host) && head == TextOf(h)
  {
    hide ScanFields, FieldCount, IsLine, NextLine, IsHostLine, HostValue, TwoFields;
    var l := NextLine(input);
    FieldCountExactly(l);
    var fields, end := ScanFound(input[|l|..], l, "");
    h := Head(l, fields, end);
    assert fields != [];
    assert input == l + input[|l|..];
    assert TextOf(h) == l + (Flat(fields) + end);
  }

  lemma OpensRouted(h: Head, input: string, host: string)
    requires Opens(h, input, host)
    ensures ScanHead(input) == Complete(TextOf(h), host)
  {
    hide ScanFields, FieldCount, IsLine, NextLine, IsHostLine, HostValue, TwoFields;
    FieldCountExactly(h.first);
    var body := input[|TextOf(h)|..];
    var rest := Flat(h.fields) + h.end + body;
    assert input == h.first + rest;
    NextLineIs(h.first, rest);
    ScanAccepts(h.fields, h.end, body, h.first, "");
  }

  /** A routed connection's captured head is at most two octets over the limit. */
  lemma HeadBounded(input: string)
    requires ScanHead(input).Complete?
    ensures |ScanHead(input).head| <= 16386
    ensures ScanHead(input).head <= input
  {
    hide ScanHead, TwoFields;
    var s := ScanHead(input);
    var h := HeadOf(input, s.head, s.host);
    assert |h.end| <= 2;
  }

  // ---- Agreement between registration and routing ----

  /** The host named by the last of some field lines, nothing after it being a Host line. */
  lemma {:induction false} LastHostIs(before: seq<string>, line: string, after: seq<string>, host: string)
    requires IsHostLine(line)
    requires forall i :: 0 <= i < |after| ==> !IsHostLine(after[i])
    ensures LastHost(before + [line] + after, host) == HostValue(line)
    decreases |before| + |after|
  {
    hide IsHostLine, HostValue;
    var fields := before + [line] + after;
    if before != [] {
      assert fields[1..] == before[1..] + [line] + after;
      LastHostIs(before[1..], line, after, if IsHostLine(before[0]) then HostValue(before[0]) else host);
    } else if after != [] {
      assert fields[1..] == after;
      NoHostLines(after, HostValue(line));
    } else {
      assert fields[1..] == [];
    }
  }

  lemma {:induction false} NoHostLines(fields: seq<string>, host: string)
    requires forall i :: 0 <= i < |fields| ==> !IsHostLine(fields[i])
    ensures LastHost(fields, host) == host
  {
    hide IsHostLine, HostValue;
    if fields != [] {
      NoHostLines(fields[1..], host);
    }
  }

  /** A field line that gives a host, in pieces. */
  datatype HostField = HostField(name: string, left: string, value: string, port: string, right: string)

  function LineOf(f: HostField): string {
    f.name + ":" + f.left + f.value + f.port + f.right
  }

  ghost predicate Spells(f: HostField, host: string) {
    && Lower(f.name) == "host" && AllBlank(f.left) && AllBlank(f.right)
    && Lower(f.value) == host && Tight(f.value)
    && (f.port == "" || (f.port[0] == ':' && Tight(f.port)))
  }

  /** A registered, non-empty host with no colon and no outer blank is found by every
      well-formed request within the limit whose last Host line gives it, in any ASCII
      case, with blanks around it and an optional port; and the proxy found is the live
      one registered for that very host. */
  lemma RegisteredHostIsFound(cfg: R.Settings, st: R.State, host: string, h: Head, before: seq<string>, f: HostField,
                              after: seq<string>, input: string)
    requires R.Inv(cfg, st) && host in st.vhost && host != "" && ':' !in host
    requires WellFormed(h) && TextOf(h) <= input && TwoFields(h.first)
    requires |h.first + Flat(h.fields)| <= 16384
    requires h.fields == before + [LineOf(f)] + after && Spells(f, host)
    requires forall i :: 0 <= i < |after| ==> !IsHostLine(after[i])
    ensures var s := ScanHead(input);
      && s.Complete? && s.head == TextOf(h) && HostKey(s.host) == host
    ensures R.Live(st, st.vhost[host]) && host in st.vhost[host].hosts
  {
    hide R.OwnersAgree, R.PortsAgree, R.ProxiesSound, R.SessionsSound, R.Live, TwoFields, WellFormed, ScanHead, Flat;
    NoColon(f.value);
    HostLineKey(f.name, f.left, f.value, f.port, f.right);
    hide IsHostLine, HostValue, HostKey;
    LastHostIs(before, LineOf(f), after, "");
    OpensRouted(h, input, HostValue(LineOf(f)));
  }

  /** From registration to routing: after an OK http registration every well-formed request
      whose last Host line gives one of the hosts asked for, which is not empty and has no
      colon and no outer blank, leads to the proxy under the registered key. */
  lemma AskedHostIsFound(cfg: R.Settings, st: R.State, se: R.SessionId, np: R.NewProxy, host: string, h: Head,
                         before: seq<string>, f: HostField, after: seq<string>, input: string)
    requires AllValid(cfg.ranges) && R.Inv(cfg, st) && se in st.owned
    requires np.typ == "http" && R.Register(cfg, st, se, np, true).1.ok
    requires RL.AsksFor(cfg, np, host) && host != "" && ':' !in host
    requires WellFormed(h) && TextOf(h) <= input && TwoFields(h.first)
    requires |h.first + Flat(h.fields)| <= 16384
    requires h.fields == before + [LineOf(f)] + after && Spells(f, host)
    requires forall i :: 0 <= i < |after| ==> !IsHostLine(after[i])
    ensures var s, st' := ScanHead(input), R.Register(cfg, st, se, np, true).0;
      && s.Complete? && s.head == TextOf(h) && HostKey(s.host) in st'.vhost
      && R.Key(se.client, np.name) in st'.proxies
      && st'.vhost[HostKey(s.host)] == st'.proxies[R.Key(se.client, np.name)]
  {
    hide R.Inv, R.Live, R.Register, R.Key, RL.AsksFor, TwoFields, WellFormed, ScanHead, Flat, Spells, IsHostLine, HostKey;
    RL.HttpHostsExactly(cfg, st, se, np);
    R.RegisterKeepsInv(cfg, st, se, np, true);
    RegisteredHostIsFound(cfg, R.Register(cfg, st, se, np, true).0, host, h, before, f, after, input);
  }

  /** So a request for the subdomain, a dot and the server's domain, as they are spelled in
      the two configurations up to ASCII case, reaches the proxy of that subdomain. */
  lemma SubdomainIsFound(cfg: R.Settings, st: R.State, se: R.SessionId, np: R.NewProxy, h: Head,
                         before: seq<string>, f: HostField, after: seq<string>, input: string)
    requires AllValid(cfg.ranges) && R.Inv(cfg, st) && se in st.owned
    requires np.typ == "http" && R.Register(cfg, st, se, np, true).1.ok
    requires Plain(np.subdomain) && Plain(cfg.vhostDomain)
    requires WellFormed(h) && TextOf(h) <= input && TwoFields(h.first)
    requires |h.first + Flat(h.fields)| <= 16384
    requires h.fields == before + [LineOf(f)] + after && Spells(f, Lower(np.subdomain + "." + cfg.vhostDomain))
    requires forall i :: 0 <= i < |after| ==> !IsHostLine(after[i])
    ensures var s, st' := ScanHead(input), R.Register(cfg, st, se, np, true).0;
      && s.Complete? && s.head == TextOf(h) && HostKey(s.host) in st'.vhost
      && R.Key(se.client, np.name) in st'.proxies
      && st'.vhost[HostKey(s.host)] == st'.proxies[R.Key(se.client, np.name)]
  {
    hide R.Inv, R.Live, R.Register, R.Key, TwoFields, WellFormed, ScanHead, Flat, Spells, IsHostLine, HostKey;
    SubdomainAsked(cfg, np);
    AskedHostIsFound(cfg, st, se, np, Lower(np.subdomain + "." + cfg.vhostDomain), h, before, f, after, input);
  }

  /** A name without colon, outer blanks and trailing dot. */
  ghost predicate Plain(name: string) {
    name != "" && Tight(name) && ':' !in name && name[|name| - 1] != '.'
  }

  lemma SubdomainAsked(cfg: R.Settings, np: R.NewProxy)
    requires Plain(np.subdomain) && Plain(cfg.vhostDomain)
    ensures var host := Lower(np.subdomain + "." + cfg.vhostDomain);
      RL.AsksFor(cfg, np, host) && host != "" && ':' !in host
  {
    hide Tight, Trim;
    var a, b := np.subdomain, cfg.vhostDomain;
    PlainIsNormal(a);
    PlainIsNormal(b);
    LowerConcat(a + ".", b);
    LowerConcat(a, ".");
    assert Lower(".") == ".";
    NoColon(a + "." + b);
    assert RL.Dotted(Lower(a + "." + b), NormalizeHost(a), NormalizeHost(b));
  }

  lemma PlainIsNormal(name: string)
    requires Plain(name)
    ensures NormalizeHost(name) == Lower(name)
  {
    hide Trim, Tight;
    TrimIsTight(name);
    NothingDropped(name);
  }

  /** The pieces of a plain request, its lines ended by `nl`. */
  function PlainHead(host: string, nl: string): Head {
    Head("GET / HTTP/1.1" + nl, [LineOf(PlainField(host, nl))], nl)
  }

  function PlainField(host: string, nl: string): HostField {
    HostField("Host", " ", host, "", nl)
  }

  /** A plain request is routed to the host it names, with the whole of it captured; its
      lines may end in a line feed with or without a return before it. */
  lemma PlainRequestIsRouted(host: string, nl: string)
    requires host != "" && Tight(host) && '\n' !in host && ':' !in host && |host| <= 16360
    requires nl == "\r\n" || nl == "\n"
    ensures var input := "GET / HTTP/1.1" + nl + "Host: " + host + nl + nl;
      ScanHead(input) == Complete(input, host)
  {
    hide ScanHead, Flat, Tight, HostKey, LastHost, IsHostLine, HostValue;
    var h, f := PlainHead(host, nl), PlainField(host, nl);
    PlainText(host, nl);
    PlainIsWellFormed(host, nl);
    assert Lower("Host") == "host" && AllBlank(" ") && AllBlank(nl);
    HostLineKey(f.name, f.left, f.value, f.port, f.right);
    assert host + "" == host;
    LastHostIs([], LineOf(f), [], "");
    assert [] + [LineOf(f)] + [] == h.fields;
    assert Opens(h, TextOf(h), host);
    OpensRouted(h, TextOf(h), host);
  }

  lemma PlainText(host: string, nl: string)
    ensures TextOf(PlainHead(host, nl)) == "GET / HTTP/1.1" + nl + "Host: " + host + nl + nl
    ensures |PlainHead(host, nl).first + Flat(PlainHead(host, nl).fields)| == 20 + |host| + 2 * |nl|
  {
    var h, line := PlainHead(host, nl), LineOf(PlainField(host, nl));
    assert h.fields[1..] == [] && Flat([]) == "" && line + "" == line;
    assert Flat(h.fields) == line;
    assert line == "Host: " + host + nl;
  }

  lemma EndedLine(text: string, nl: string)
    requires '\n' !in text && (nl == "\r\n" || nl == "\n")
    ensures IsLine(text + nl)
  {
    var before := nl[..|nl| - 1];
    assert (text + nl)[..|text + nl| - 1] == text + before;
    assert '\n' !in before;
  }

  lemma GetHasTwoFields(nl: string)
    ensures TwoFields("GET / HTTP/1.1" + nl)
  {
    assert FieldsAt("GET / HTTP/1.1" + nl, 0, 3, 4);
  }

  lemma PlainIsWellFormed(host: string, nl: string)
    requires '\n' !in host && (nl == "\r\n" || nl == "\n")
    ensures WellFormed(PlainHead(host, nl)) && TwoFields(PlainHead(host, nl).first)
  {
    hide IsLine, TwoFields;
    var h, line := PlainHead(host, nl), "Host: " + host;
    assert LineOf(PlainField(host, nl)) == line + nl;
    EndedLine("GET / HTTP/1.1", nl);
    EndedLine(line, nl);
    GetHasTwoFields(nl);
    assert (line + nl)[0] == 'H';
  }

  // ---- The handler ----

  /** The buffered reader over a connection: `rest` is everything the visitor has yet to
      send, of which the first `timely` octets arrive before the deadline. */
  class LineReader {
    var rest: string
    var timely: nat

    constructor (rest: string, timely: nat)
      requires timely <= |rest|
      ensures this.rest == rest && this.timely == timely
    {
      this.rest, this.timely := rest, timely;
    }

    ghost predicate Valid()
      reads this
    {
      timely <= |rest|
    }

    function Timely(): string
      requires Valid()
      reads this
    {
      rest[..timely]
    }

    /** The next line with its end, or whatever arrived and a failure. */
    method ReadLine() returns (line: string, failed: bool)
      requires Valid()
      modifies this
      ensures Valid() && old(rest) == line + rest && failed == ('\n' !in old(Timely()))
      ensures !failed ==> line == NextLine(old(Timely())) && Timely() == old(Timely())[|line|..]
    {
      hide NextLine, IsLine;
      var input := rest[..timely];
      failed := '\n' !in input;
      line := if failed then input else NextLine(input);
      assert line == rest[..|line|];
      rest, timely := rest[|line|..], timely - |line|;
    }
  }

  datatype Outcome = HungUp | Replied(code: int) | Refused(proxy: S.Proxy) | Delivered(proxy: S.Proxy)

  /** What becomes of a scanned connection, given the host table. A found proxy takes the
      visitor exactly when its queue has room and the announcement can be written. */
  ghost function OutcomeOf(scan: Scan, vhost: map<string, S.Proxy>, notifyOk: bool): Outcome
    reads vhost.Values`visitors
  {
    match scan
    case Dead => HungUp
    case Bad => Replied(400)
    case Complete(_, host) =>
      if HostKey(host) !in vhost then Replied(404)
      else
        var p := vhost[HostKey(host)];
        if |p.visitors| < H.QUEUE_CAP && notifyOk then Delivered(p) else Refused(p)
  }

  /** Reads the head, and returns it with what the reader has left. */
  method ReadHead(br: LineReader) returns (scan: Scan)
    requires br.Valid()
    modifies br
    ensures br.Valid() && scan == ScanHead(old(br.Timely()))
    ensures scan.Complete? ==> scan.head + br.rest == old(br.rest)
  {
    hide IsHostLine, HostValue, FieldCount, IsEnd, NextLine;
    var line, failed := br.ReadLine();
    if failed {
      return Dead;
    }
    var head := line;
    if FieldCount(line) < 2 {
      return Bad;
    }
    var host := "";
    ghost var goal := ScanFields(br.Timely(), head, host);
    while true
      invariant br.Valid() && head + br.rest == old(br.rest)
      invariant goal == ScanFields(br.Timely(), head, host)
      decreases br.timely
    {
      ghost var before := head;
      line, failed := br.ReadLine();
      if failed {
        return Dead;
      }
      head := head + line;
      assert head + br.rest == before + (line + br.rest);
      if IsEnd(line) {
        break;
      }
      if |head| > HEAD_LIMIT {
        return Dead;
      }
      if IsHostLine(line) {
        host := HostValue(line);
      }
    }
    return if host == "" then Bad else Complete(head, host);
  }

  /** The size of the buffered reader. */
  const READER_SIZE: nat := 0x10000

  /** The whole handler. `id` names the connection; `notifyOk` is whether the owner's
      control stream takes the announcement; `ahead` is how many octets behind the head the
      buffered reader has fetched by then, and `late` whether that fetch failed. A
      handed-over connection still offers the visitor's octets from the first on: the
      captured head, then what was fetched, then what the network still has. */
  method HandleVhostConn(s: S.Server, br: LineReader, id: H.Conn, notifyOk: bool, ahead: nat, late: bool,
                         script: seq<M.Offer>, room: nat)
    returns (outcome: Outcome, replay: Option<M.Conn>)
    requires s.Valid() && br.Valid()
    modifies br, s`closed, set h | h in s.vhost :: s.vhost[h]`visitors
    ensures outcome == old(OutcomeOf(ScanHead(br.Timely()), s.vhost, notifyOk))
    ensures old(ScanHead(br.Timely())) == Dead ==> outcome == HungUp
    ensures old(ScanHead(br.Timely())) == Bad ==> outcome == Replied(400)
    ensures old(ScanHead(br.Timely())).Complete? ==>
              var key := HostKey(old(ScanHead(br.Timely())).host);
              if key !in s.vhost then outcome == Replied(404)
              else if |old(s.vhost[key].visitors)| < 32 && notifyOk then outcome == Delivered(s.vhost[key])
              else outcome == Refused(s.vhost[key])
    ensures !outcome.Delivered? ==> id in s.closed
    ensures outcome.Delivered? ==>
              && outcome.proxy.visitors == old(outcome.proxy.visitors) + [id] && s.closed == old(s.closed)
    ensures replay.Some? <==> outcome.Delivered?
    ensures replay.Some? ==>
              && fresh(replay.value) && replay.value.open
              && replay.value.readErrors == replay.value.broke == 0
              && replay.value.Pending() == old(br.rest) && replay.value.script == script
              && |replay.value.head| <= 16386
              && replay.value.buffer == 65536 && replay.value.late == late
              && |replay.value.ahead| == M.Min(ahead, M.Min(65536, |old(br.rest)| - |replay.value.head|))
    ensures s.Valid()
  {
    hide ScanHead, HostKey, R.Live, R.Inv, S.Server.Wired, S.Server.Abs, S.Server.Linked;
    ghost var input := br.Timely();
    var scan := ReadHead(br);
    replay := None;
    match scan {
      case Dead =>
        s.CloseVisitor(id);
        outcome := HungUp;
      case Bad =>
        s.CloseVisitor(id);
        outcome := Replied(400);
      case Complete(head, host) =>
        HeadBounded(input);
        var found := s.LookupVhost(HostKey(host));
        match found {
          case None =>
            s.CloseVisitor(id);
            outcome := Replied(404);
          case Some(p) =>
            var ok := s.DeliverVisitor(p, id, notifyOk);
            if ok {
              outcome := Delivered(p);
              var k := M.Min(ahead, M.Min(READER_SIZE, |br.rest|));
              var c := new M.Conn(head, br.rest[..k], late, br.rest[k..], READER_SIZE, script, room);
              assert br.rest[..k] + br.rest[k..] == br.rest;
              replay := Some(c);
            } else {
              s.CloseVisitor(id);
              outcome := Refused(p);
            }
        }
    }
  }

  /** A visitor and the stream it is joined to. Of what was `taken` from the visitor,
      which is its octets from the first one on, across the boundary between the captured
      head and the rest, the stream got a prefix: all of it exactly when the stream
      refused no write, and then the visitor's side ended with a failed read. */
  method Forward(s: S.Server, br: LineReader, id: H.Conn, ahead: nat, late: bool, script: seq<M.Offer>, room: nat,
                 stream: M.Conn, bytesOut: M.Counter, bytesIn: M.Counter)
    returns (outcome: Outcome, visitor: Option<M.Conn>, ghost taken: string, ghost accepted: nat)
    requires s.Valid() && br.Valid() && bytesOut != bytesIn
    modifies br, s`closed, set h | h in s.vhost :: s.vhost[h]`visitors, stream, bytesOut, bytesIn
    ensures outcome == old(OutcomeOf(ScanHead(br.Timely()), s.vhost, true)) && (visitor.Some? <==> outcome.Delivered?)
    ensures visitor.Some? ==> taken + visitor.value.Pending() == old(br.rest)
    ensures accepted <= |taken| && stream.out == old(stream.out) + taken[..accepted]
    ensures bytesOut.total == old(bytesOut.total) + accepted
    ensures visitor.Some? ==>
              && (accepted < |taken| <==> stream.refusals == old(stream.refusals) + 1)
              && (accepted == |taken| <==> stream.refusals == old(stream.refusals) && visitor.value.readErrors == 1)
              && !stream.open && !visitor.value.open
              && (old(stream.open) ==> visitor.value.broke + stream.broke > old(stream.broke))
    ensures visitor.None? ==> taken == ""
  {
    hide ScanHead, OutcomeOf, R.Live, R.Inv, S.Server.Wired, S.Server.Abs, S.Server.Valid;
    outcome, visitor := HandleVhostConn(s, br, id, true, ahead, late, script, room);
    taken, accepted := "", 0;
    if visitor.Some? {
      ghost var there, back := M.Join(visitor.value, stream, bytesOut, bytesIn);
      taken, accepted := there.taken, there.accepted;
    }
  }
}
