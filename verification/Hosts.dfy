/** Virtual host names: how a registered domain and a request's Host line become
    the key of the routing table (internal/server/vhost.go). */
module Hosts {
  import opened Text

  function DropDot(s: string): (r: string)
    ensures r <= s
  {
    if s != "" && s[|s| - 1] == '.' then s[..|s| - 1] else s
  }

  /** Lower case, without outer blanks and without one trailing dot. */
  function NormalizeHost(h: string): string {
    DropDot(Lower(Trim(h)))
  }

  /** A request line that sets the host, whatever the case of the field name. */
  predicate IsHostLine(line: string) {
    "host:" <= Lower(line)
  }

  /** Letter by letter: one of each pair, and then the colon. */
  lemma HostLineExactly(line: string)
    ensures IsHostLine(line) <==>
            && |line| >= 5 && (line[0] == 'H' || line[0] == 'h') && (line[1] == 'O' || line[1] == 'o')
            && (line[2] == 'S' || line[2] == 's') && (line[3] == 'T' || line[3] == 't') && line[4] == ':'
  {
    if |line| >= 5 {
      var l := Lower(line);
      assert l[0] == LowerChar(line[0]) && l[1] == LowerChar(line[1]) && l[2] == LowerChar(line[2]);
      assert l[3] == LowerChar(line[3]) && l[4] == LowerChar(line[4]);
      assert "host:" <= l <==> l[0] == 'h' && l[1] == 'o' && l[2] == 's' && l[3] == 't' && l[4] == ':';
    }
  }

  function HostValue(line: string): string
    requires IsHostLine(line)
  {
    Trim(line[5..])
  }

  /** The table key a request's host leads to: lower case and without the port. */
  function HostKey(host: string): string {
    Before(Lower(host), ':')
  }

  lemma LowerTwice(s: string)
    ensures Lower(Lower(s)) == Lower(s)
  {}

  lemma LowerPrefix(s: string, n: nat)
    requires n <= |s|
    ensures Lower(s)[..n] == Lower(s[..n])
  {}

  lemma DroppedDot(h: string)
    requires Trim(h) != "" && Trim(h)[|Trim(h)| - 1] == '.'
    ensures NormalizeHost(h) == Lower(Trim(h)[..|Trim(h)| - 1])
  {
    LowerPrefix(Trim(h), |Trim(h)| - 1);
  }

  lemma NothingDropped(h: string)
    requires Trim(h) == "" || Trim(h)[|Trim(h)| - 1] != '.'
    ensures NormalizeHost(h) == Lower(Trim(h))
  {}

  /** A lower-case name is normal exactly when it is tight and ends in no dot. */
  lemma NormalExactly(s: string)
    requires Lower(s) == s
    ensures NormalizeHost(s) == s <==> Tight(s) && (s == "" || s[|s| - 1] != '.')
  {
    TrimIsTight(s);
    if !Tight(s) {
      ShorterNormal(s);
    }
  }

  /** Only one trailing dot goes: normalizing again changes the result exactly when the
      trimmed name ends in a dot that follows another dot or a blank. */
  lemma NormalizeIdempotent(h: string)
    ensures var t := Trim(h);
      NormalizeHost(NormalizeHost(h)) == NormalizeHost(h) <==>
      !(|t| >= 2 && t[|t| - 1] == '.' && (t[|t| - 2] == '.' || IsBlank(t[|t| - 2])))
  {
    hide NormalizeHost, Trim, IsBlank, Lower;
    var t := Trim(h);
    TrimIsTight(h);
    var u := if t != "" && t[|t| - 1] == '.' then t[..|t| - 1] else t;
    if u != t {
      DroppedDot(h);
    } else {
      NothingDropped(h);
    }
    LowerTwice(u);
    NormalExactly(Lower(u));
    LowerKeepsBlanks(u);
    if u != "" {
      assert Lower(u)[|u| - 1] == LowerChar(u[|u| - 1]);
    }
  }

  /** A name with an outer blank is not normal. */
  lemma ShorterNormal(s: string)
    requires !Tight(s)
    ensures NormalizeHost(s) != s
  {
    TrimIsTight(s);
    LowerKeepsBlanks(Trim(s));
    if |Trim(s)| == |s| {
      TrimSameLength(s);
    }
  }

  lemma TrimSameLength(s: string)
    requires |Trim(s)| == |s|
    ensures Trim(s) == s
  {
    TrimLeftSuffix(s);
  }

  lemma DoubleDotShrinks()
    ensures NormalizeHost("a..") == "a." && NormalizeHost("a.") == "a"
  {
    TrimIsTight("a..");
    TrimIsTight("a.");
    assert Lower("a..") == "a..";
    assert Lower("a.") == "a.";
  }

  /** A Host line in any ASCII case, with blanks around the value and an optional port,
      leads to the value in lower case. */
  lemma HostLineKey(name: string, left: string, value: string, port: string, right: string)
    requires Lower(name) == "host" && AllBlank(left) && AllBlank(right)
    requires value != "" && Tight(value) && ':' !in value
    requires port == "" || (port[0] == ':' && Tight(port))
    ensures var line := name + ":" + left + value + port + right;
      IsHostLine(line) && HostValue(line) == value + port && HostKey(HostValue(line)) == Lower(value)
  {
    hide Tight, Trim, Lower, HostKey;
    var core := value + port;
    assert name + ":" + left + value + port + right == name + ":" + (left + core + right);
    HostLineRest(name, left + core + right);
    CoreTight(value, port);
    TrimPadded(left, core, right);
    KeyWithoutPort(value, port);
  }

  /** What follows the colon of a Host line. */
  lemma HostLineRest(name: string, rest: string)
    requires Lower(name) == "host"
    ensures IsHostLine(name + ":" + rest) && HostValue(name + ":" + rest) == Trim(rest)
  {
    hide Trim;
    LowerConcat(name + ":", rest);
    LowerConcat(name, ":");
    assert Lower(":") == ":";
    assert (name + ":" + rest)[5..] == rest;
  }

  lemma CoreTight(value: string, port: string)
    requires value != "" && Tight(value) && (port == "" || Tight(port))
    ensures Tight(value + port)
  {
    var core := value + port;
    assert core[|core| - 1] == if port == "" then value[|value| - 1] else port[|port| - 1];
  }

  lemma KeyWithoutPort(value: string, port: string)
    requires ':' !in value && (port == "" || port[0] == ':')
    ensures HostKey(value + port) == Lower(value)
  {
    LowerConcat(value, port);
    NoColon(value);
    if port == "" {
      assert value + port == value;
      BeforeStops(Lower(value), ':');
    } else {
      assert Lower(port)[0] == ':';
      assert Lower(value + port) == Lower(value) + [':'] + Lower(port)[1..];
      BeforeConcat(Lower(value), ':', Lower(port)[1..]);
    }
  }

  lemma NoColon(s: string)
    ensures ':' in Lower(s) <==> ':' in s
  {
    if ':' in s {
      var i :| 0 <= i < |s| && s[i] == ':';
      assert Lower(s)[i] == ':';
    }
  }

  /** Lookup drops a port but no dot, registration a dot but no port: a domain is found
      under its own spelling exactly when it has neither. */
  lemma FoundBySpelling(domain: string)
    ensures var t := Trim(domain);
      HostKey(t) == NormalizeHost(domain) <==> ':' !in t && (t == "" || t[|t| - 1] != '.')
  {
    var t := Trim(domain);
    NoColon(t);
    BeforeStops(Lower(t), ':');
    if t != "" {
      assert Lower(t)[|t| - 1] == LowerChar(t[|t| - 1]);
    }
  }
}
