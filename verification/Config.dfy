/** Port whitelist and order-free string comparison (internal/config/config.go). */
module Config {
  import opened Wrappers
  import opened Text

  // ---- Comparing two lists of strings without regard to order ----

  function CountOf(m: map<string, nat>, s: string): nat {
    if s in m then m[s] else 0
  }

  lemma SameSizeSubBag(a: multiset<string>, b: multiset<string>)
    requires b <= a && |a| == |b|
    ensures a == b
  {
    assert a == b + (a - b);
    assert |a - b| == 0;
  }

  /** The map holds how often each string occurs. */
  ghost predicate Counts(m: map<string, nat>, bag: multiset<string>) {
    forall s :: CountOf(m, s) == bag[s]
  }

  lemma NothingCounted()
    ensures Counts(map[], multiset{})
  {}

  lemma CountUp(m: map<string, nat>, bag: multiset<string>, s: string)
    requires Counts(m, bag)
    ensures Counts(m[s := CountOf(m, s) + 1], bag + multiset{s})
  {}

  lemma CountDown(m: map<string, nat>, bag: multiset<string>, s: string)
    requires Counts(m, bag) && CountOf(m, s) > 0
    ensures Counts(m[s := CountOf(m, s) - 1], bag - multiset{s})
  {}

  /** The map holds what is left of `all` after the first `i` strings of `b`. */
  ghost predicate Remains(m: map<string, nat>, all: multiset<string>, b: seq<string>, i: nat) {
    i <= |b| && multiset(b[..i]) <= all && Counts(m, all - multiset(b[..i]))
  }

  lemma AllRemain(m: map<string, nat>, all: multiset<string>, b: seq<string>)
    requires Counts(m, all)
    ensures Remains(m, all, b, 0)
  {
    assert multiset(b[..0]) == multiset{} && all - multiset{} == all;
  }

  lemma OneLess(m: map<string, nat>, all: multiset<string>, b: seq<string>, i: nat)
    requires Remains(m, all, b, i) && i < |b|
    ensures CountOf(m, b[i]) > 0 ==> Remains(m[b[i] := CountOf(m, b[i]) - 1], all, b, i + 1)
    ensures CountOf(m, b[i]) == 0 ==> all != multiset(b)
  {
    var done := multiset(b[..i]);
    assert b[..i + 1] == b[..i] + [b[i]];
    assert multiset(b[..i + 1]) == done + multiset{b[i]};
    if CountOf(m, b[i]) > 0 {
      CountDown(m, all - done, b[i]);
      assert all - done - multiset{b[i]} == all - (done + multiset{b[i]});
    } else {
      assert b == b[..i + 1] + b[i + 1..];
      assert multiset(b)[b[i]] > all[b[i]];
    }
  }

  lemma NoneRemain(m: map<string, nat>, all: multiset<string>, b: seq<string>)
    requires Remains(m, all, b, |b|) && |all| == |b|
    ensures all == multiset(b)
  {
    assert b[..|b|] == b;
    SameSizeSubBag(all, multiset(b));
  }

  lemma CountUpTo(m: map<string, nat>, a: seq<string>, i: nat)
    requires i < |a| && Counts(m, multiset(a[..i]))
    ensures Counts(m[a[i] := CountOf(m, a[i]) + 1], multiset(a[..i + 1]))
  {
    CountUp(m, multiset(a[..i]), a[i]);
    assert a[..i + 1] == a[..i] + [a[i]];
  }

  /** True exactly when the two lists are equal as multisets. */
  method SameStrings(a: seq<string>, b: seq<string>) returns (same: bool)
    ensures same <==> multiset(a) == multiset(b)
  {
    hide CountOf, Counts, Remains;
    if |a| != |b| {
      assert |multiset(a)| == |a| && |multiset(b)| == |b|;
      return false;
    }
    var ma: map<string, nat> := map[];
    NothingCounted();
    for i := 0 to |a|
      invariant Counts(ma, multiset(a[..i]))
    {
      CountUpTo(ma, a, i);
      ma := ma[a[i] := CountOf(ma, a[i]) + 1];
    }
    assert a[..|a|] == a;
    AllRemain(ma, multiset(a), b);
    for i := 0 to |b|
      invariant Remains(ma, multiset(a), b, i)
    {
      OneLess(ma, multiset(a), b, i);
      if CountOf(ma, b[i]) == 0 {
        return false;
      }
      ma := ma[b[i] := CountOf(ma, b[i]) - 1];
    }
    NoneRemain(ma, multiset(a), b);
    return true;
  }

  // ---- Port ranges ----

  const MAX_PORT: int := 65535

  datatype PortRange = PortRange(min: int, max: int) {
    predicate Contains(p: int) {
      p >= min && p <= max
    }

    predicate Valid() {
      1 <= min <= max <= MAX_PORT
    }
  }

  predicate AllValid(ranges: seq<PortRange>) {
    forall i :: 0 <= i < |ranges| ==> ranges[i].Valid()
  }

  /** Membership in the union of the ranges. */
  predicate Allowed(ranges: seq<PortRange>, port: int) {
    exists i :: 0 <= i < |ranges| && ranges[i].Contains(port)
  }

  // ---- The whitelist parser ----

  predicate IsDigit(c: char) {
    '0' <= c <= '9'
  }

  function DigitValue(c: char): int
    requires IsDigit(c)
  {
    c as int - '0' as int
  }

  /** The number a non-empty digit string denotes, most significant digit first. */
  function Digits(s: string): Option<int> {
    if s == "" then None
    else if !IsDigit(s[|s| - 1]) then None
    else if |s| == 1 then Some(DigitValue(s[0]))
    else match Digits(s[..|s| - 1])
      case None => None
      case Some(n) => Some(10 * n + DigitValue(s[|s| - 1]))
  }

  /** Decimal text with an optional sign, without a width limit: every number that
      a machine integer cannot hold is refused by the range checks of the caller. */
  function Atoi(s: string): Option<int> {
    if s != "" && s[0] == '-' then
      match Digits(s[1..])
      case None => None
      case Some(n) => Some(-n)
    else if s != "" && s[0] == '+' then Digits(s[1..])
    else Digits(s)
  }

  datatype ParseError = BadRange(part: string) | BadPort(part: string) | EmptyWhitelist

  /** One trimmed, non-empty part of the whitelist. */
  function ParsePart(part: string): Result<PortRange, ParseError> {
    if '-' in part then
      var lo := Before(part, '-');
      BeforeStops(part, '-');
      match (Atoi(Trim(lo)), Atoi(Trim(part[|lo| + 1..])))
      case (Some(min), Some(max)) =>
        if min <= 0 || max < min || max > MAX_PORT then Err(BadRange(part)) else Ok(PortRange(min, max))
      case _ => Err(BadRange(part))
    else
      match Atoi(part)
      case Some(p) => if p <= 0 || p > MAX_PORT then Err(BadPort(part)) else Ok(PortRange(p, p))
      case None => Err(BadPort(part))
  }

  /** What one raw part contributes: nothing when it is blank, else one range. */
  function ParseRaw(raw: string): (r: Result<seq<PortRange>, ParseError>)
    ensures r.Ok? ==> AllValid(r.value)
  {
    var part := Trim(raw);
    if part == "" then Ok([])
    else match ParsePart(part)
      case Err(e) => Err(e)
      case Ok(range) => Ok([range])
  }

  /** The ranges of a list of parts in order; the first bad part wins. */
  function ParseParts(parts: seq<string>): (r: Result<seq<PortRange>, ParseError>)
    ensures r.Ok? ==> AllValid(r.value)
  {
    if parts == [] then Ok([])
    else match ParseRaw(parts[0])
      case Err(e) => Err(e)
      case Ok(some) =>
        match ParseParts(parts[1..])
        case Err(e) => Err(e)
        case Ok(rest) => Ok(some + rest)
  }

  function Parsed(s: string): Result<seq<PortRange>, ParseError> {
    match ParseParts(Split(s, ','))
    case Err(e) => Err(e)
    case Ok(out) => if out == [] then Err(EmptyWhitelist) else Ok(out)
  }

  lemma {:induction false} ParsePartsSnoc(parts: seq<string>, last: string)
    ensures ParseParts(parts + [last]) ==
            match ParseParts(parts)
            case Err(e) => Err(e)
            case Ok(out) =>
              match ParseRaw(last)
              case Err(e) => Err(e)
              case Ok(some) => Ok(out + some)
  {
    hide ParseRaw;
    if parts == [] {
      assert parts + [last] == [last];
      assert ParseParts([last][1..]) == Ok([]);
      match ParseRaw(last) {
        case Ok(c) => assert c + [] == c == [] + c;
        case Err(_) =>
      }
    } else {
      assert (parts + [last])[1..] == parts[1..] + [last];
      ParsePartsSnoc(parts[1..], last);
      match (ParseRaw(parts[0]), ParseParts(parts[1..]), ParseRaw(last)) {
        case (Ok(a), Ok(b), Ok(c)) => assert a + (b + c) == (a + b) + c;
        case _ =>
      }
    }
  }

  lemma {:induction false} ParsePartsPrefixErr(parts: seq<string>, k: nat)
    requires k <= |parts| && ParseParts(parts[..k]).Err?
    ensures ParseParts(parts) == ParseParts(parts[..k])
    decreases |parts| - k
  {
    if k == |parts| {
      assert parts[..k] == parts;
    } else {
      assert parts[..k + 1] == parts[..k] + [parts[k]];
      ParsePartsSnoc(parts[..k], parts[k]);
      ParsePartsPrefixErr(parts, k + 1);
    }
  }

  lemma NoParts()
    ensures ParseParts([]) == Ok([])
  {}

  /** The parser as the program runs it: a loop that appends to the result and
      stops at the first bad part. */
  method ParsePortRanges(s: string) returns (r: Result<seq<PortRange>, ParseError>)
    ensures r == Parsed(s)
    ensures r.Ok? ==> r.value != [] && forall i :: 0 <= i < |r.value| ==> 1 <= r.value[i].min <= r.value[i].max <= 65535
  {
    hide ParseParts, ParsePart, Trim, Split;
    var out: seq<PortRange> := [];
    var parts := Split(s, ',');
    NoParts();
    for i := 0 to |parts|
      invariant ParseParts(parts[..i]) == Ok(out)
    {
      assert parts[..i + 1] == parts[..i] + [parts[i]];
      ParsePartsSnoc(parts[..i], parts[i]);
      var part := Trim(parts[i]);
      if part == "" {
        assert out + [] == out;
        continue;
      }
      match ParsePart(part) {
        case Err(e) =>
          ParsePartsPrefixErr(parts, i + 1);
          return Err(e);
        case Ok(range) =>
          out := out + [range];
      }
    }
    assert parts[..|parts|] == parts;
    if |out| == 0 {
      return Err(EmptyWhitelist);
    }
    return Ok(out);
  }

  // ---- What the parser refuses ----

  /** A number is one or more digits, the first the most significant. */
  lemma {:induction false} DigitsExactly(s: string)
    ensures Digits(s).Some? <==> s != "" && forall i :: 0 <= i < |s| ==> '0' <= s[i] <= '9'
    ensures Digits(s).Some? ==>
              Digits(s).value == s[|s| - 1] as int - 48 + if |s| == 1 then 0 else 10 * Digits(s[..|s| - 1]).value
  {
    if |s| > 1 && IsDigit(s[|s| - 1]) {
      DigitsExactly(s[..|s| - 1]);
    }
  }

  /** With one sign in front if there is one. */
  lemma AtoiExactly(s: string)
    ensures Atoi(s) == if s == "" then None
                       else if s[0] == '-' then (if Digits(s[1..]).Some? then Some(0 - Digits(s[1..]).value) else None)
                       else if s[0] == '+' then Digits(s[1..])
                       else Digits(s)
  {}

  /** The first dash of a part. */
  ghost predicate FirstDash(part: string, d: int) {
    0 <= d < |part| && part[d] == '-' && forall i :: 0 <= i < d ==> part[i] != '-'
  }

  /** A part with a dash is accepted exactly when both sides of its first one are numbers and
      they bound a range of ports, the lower first; a part without is when it is a port. All
      others are refused by name. */
  lemma PartExactly(part: string)
    ensures forall a, b :: '-' !in part ==>
              (ParsePart(part) == Ok(PortRange(a, b)) <==> a == b && Atoi(part) == Some(a) && 1 <= a <= 65535)
    ensures forall a, b, d :: FirstDash(part, d) ==>
              (ParsePart(part) == Ok(PortRange(a, b)) <==>
               && Atoi(Trim(part[..d])) == Some(a) && Atoi(Trim(part[d + 1..])) == Some(b)
               && 1 <= a <= b <= 65535)
    ensures ParsePart(part).Err? ==> ParsePart(part).error == if '-' in part then BadRange(part) else BadPort(part)
  {
    hide Atoi, Trim;
    BeforeStops(part, '-');
    forall d | FirstDash(part, d) ensures '-' in part && d == |Before(part, '-')| && part[..d] == Before(part, '-') {
      var lo := Before(part, '-');
      assert part[d] in part;
      assert forall i :: 0 <= i < |lo| ==> lo[i] == part[i] && lo[i] in lo;
    }
  }

  /** The part number `i` is neither blank nor accepted. */
  ghost predicate BadAt(parts: seq<string>, i: int) {
    0 <= i < |parts| && Trim(parts[i]) != "" && ParsePart(Trim(parts[i])).Err?
  }

  ghost predicate FirstBadAt(parts: seq<string>, i: int) {
    BadAt(parts, i) && forall j :: 0 <= j < i ==> !BadAt(parts, j)
  }

  /** `e` is what the part number `i` is refused with. */
  ghost predicate Refuses(parts: seq<string>, i: int, e: ParseError) {
    BadAt(parts, i) && e == ParsePart(Trim(parts[i])).error
  }

  ghost predicate SomePart(parts: seq<string>) {
    exists i :: 0 <= i < |parts| && Trim(parts[i]) != ""
  }

  lemma BadShift(parts: seq<string>)
    requires parts != []
    ensures forall i :: BadAt(parts[1..], i) <==> i >= 0 && BadAt(parts, i + 1)
    ensures forall i :: BadAt(parts, i) && i != 0 ==> BadAt(parts[1..], i - 1)
    ensures SomePart(parts) <==> Trim(parts[0]) != "" || SomePart(parts[1..])
  {
    hide ParsePart, Trim;
    var rest := parts[1..];
    assert forall i :: 0 <= i < |rest| ==> rest[i] == parts[i + 1];
    if i :| 0 <= i < |rest| && Trim(rest[i]) != "" {
      assert Trim(parts[i + 1]) != "";
    }
    if i :| 0 <= i < |parts| && Trim(parts[i]) != "" {
      assert i > 0 ==> Trim(rest[i - 1]) != "";
    }
  }

  /** What the first part contributes. */
  lemma FirstPart(parts: seq<string>)
    requires parts != []
    ensures ParseRaw(parts[0]).Err? <==> BadAt(parts, 0)
    ensures ParseRaw(parts[0]).Err? ==> Refuses(parts, 0, ParseRaw(parts[0]).error)
    ensures ParseRaw(parts[0]).Ok? ==> (ParseRaw(parts[0]).value != [] <==> Trim(parts[0]) != "")
    ensures ParseParts(parts) ==
            match ParseRaw(parts[0])
            case Err(e) => Err(e)
            case Ok(some) =>
              match ParseParts(parts[1..])
              case Err(e) => Err(e)
              case Ok(rest) => Ok(some + rest)
  {
    hide ParsePart, Trim;
  }

  lemma NoPartsExactly()
    ensures ParseParts([]) == Ok([]) && !SomePart([]) && forall i :: !BadAt([], i)
  {}

  lemma {:induction false} PartsExactly(parts: seq<string>)
    ensures ParseParts(parts).Ok? <==> forall i :: !BadAt(parts, i)
    ensures ParseParts(parts).Ok? ==> (ParseParts(parts).value != [] <==> SomePart(parts))
    ensures forall i :: FirstBadAt(parts, i) ==> ParseParts(parts).Err? && Refuses(parts, i, ParseParts(parts).error)
  {
    hide ParsePart, Trim, ParseRaw, ParseParts, SomePart, BadAt, Refuses;
    if parts == [] {
      NoPartsExactly();
    } else {
      var rest := parts[1..];
      PartsExactly(rest);
      BadShift(parts);
      FirstPart(parts);
      forall i | FirstBadAt(parts, i) ensures ParseParts(parts).Err? && Refuses(parts, i, ParseParts(parts).error) {
        BadIndex(parts, i);
        if i > 0 {
          assert FirstBadAt(rest, i - 1);
          RefusesShift(parts, i, ParseParts(rest).error);
        }
      }
      if ParseParts(parts).Err? && !BadAt(parts, 0) {
        var i :| BadAt(rest, i);
        assert BadAt(parts, i + 1);
      }
    }
  }

  lemma RefusesShift(parts: seq<string>, i: int, e: ParseError)
    requires parts != [] && i > 0 && Refuses(parts[1..], i - 1, e)
    ensures Refuses(parts, i, e)
  {
    hide ParsePart, Trim;
    assert parts[1..][i - 1] == parts[i];
  }

  lemma RefusedByName(parts: seq<string>, i: int, e: ParseError)
    requires Refuses(parts, i, e)
    ensures e != EmptyWhitelist && SomePart(parts)
  {
    hide Trim;
    PartExactly(Trim(parts[i]));
    hide ParsePart;
  }

  lemma BadIndex(parts: seq<string>, i: int)
    requires BadAt(parts, i)
    ensures 0 <= i < |parts|
  {}

  /** A whitelist is accepted exactly when some part is not blank and every such part is
      accepted; otherwise the first refused one is reported, or that there is none. */
  lemma ParsedExactly(s: string)
    ensures var parts := Split(s, ',');
      && (Parsed(s).Ok? <==> (forall i :: !BadAt(parts, i)) && SomePart(parts))
      && (Parsed(s) == Err(EmptyWhitelist) <==> !SomePart(parts))
      && (forall i :: FirstBadAt(parts, i) ==> Parsed(s).Err? && Refuses(parts, i, Parsed(s).error))
  {
    hide ParsePart, Trim, Split, ParseParts, SomePart, BadAt, Refuses;
    var parts := Split(s, ',');
    PartsExactly(parts);
    if i :| BadAt(parts, i) {
      var k := FirstBad(parts, i);
      RefusedByName(parts, k, ParseParts(parts).error);
    }
  }

  lemma {:induction false} FirstBad(parts: seq<string>, i: int) returns (k: int)
    requires BadAt(parts, i)
    ensures FirstBadAt(parts, k) && 0 <= k < |parts|
    decreases i
  {
    hide ParsePart, Trim;
    if j :| 0 <= j < i && BadAt(parts, j) {
      k := FirstBad(parts, j);
    } else {
      k := i;
    }
  }

  // ---- Printing a whitelist and reading it back ----

  /** One printed part: blanks only, a single port, or two ports around a dash,
      each with its own blanks. */
  datatype Item =
    | Blank(pad: string)
    | Single(left: string, port: int, right: string)
    | Span(left: string, min: int, midLeft: string, midRight: string, max: int, right: string)
  {
    predicate Valid() {
      match this
      case Blank(pad) => AllBlank(pad)
      case Single(l, p, r) => AllBlank(l) && AllBlank(r) && 1 <= p <= MAX_PORT
      case Span(l, a, ml, mr, b, r) =>
        AllBlank(l) && AllBlank(ml) && AllBlank(mr) && AllBlank(r) && 1 <= a <= b <= MAX_PORT
    }

    function Print(): string
      requires Valid()
    {
      match this
      case Blank(pad) => pad
      case Single(l, p, r) => l + Decimal(p) + r
      case Span(l, a, ml, mr, b, r) => l + (Decimal(a) + ml + ['-'] + mr + Decimal(b)) + r
    }
  }

  function Decimal(n: nat): (s: string)
    ensures s != ""
    ensures forall i :: 0 <= i < |s| ==> IsDigit(s[i])
  {
    var d := [(n % 10 + '0' as int) as char];
    if n < 10 then d else Decimal(n / 10) + d
  }

  lemma {:induction false} DigitsDecimal(n: nat)
    ensures Digits(Decimal(n)) == Some(n)
  {
    if n >= 10 {
      var s := Decimal(n);
      assert s[..|s| - 1] == Decimal(n / 10);
      DigitsDecimal(n / 10);
    }
  }

  /** The ranges a list of printed items stands for. */
  function RangesOf(items: seq<Item>): seq<PortRange> {
    if items == [] then []
    else (match items[0]
          case Blank(_) => []
          case Single(_, p, _) => [PortRange(p, p)]
          case Span(_, a, _, _, b, _) => [PortRange(a, b)]) + RangesOf(items[1..])
  }

  function PrintAll(items: seq<Item>): seq<string>
    requires forall i :: 0 <= i < |items| ==> items[i].Valid()
  {
    seq(|items|, i requires 0 <= i < |items| => items[i].Print())
  }

  lemma ItemHasNoComma(it: Item)
    requires it.Valid()
    ensures ',' !in it.Print()
  {
    assert forall c :: IsBlank(c) || IsDigit(c) ==> c != ',';
  }

  lemma BlankParses(pad: string)
    requires AllBlank(pad)
    ensures ParseRaw(pad) == Ok([])
  {
    TrimPadded(pad, "", "");
    assert pad + "" + "" == pad;
  }

  lemma SingleParses(l: string, p: int, r: string)
    requires Single(l, p, r).Valid()
    ensures ParseRaw(Single(l, p, r).Print()) == Ok([PortRange(p, p)])
  {
    hide Decimal, Trim, Digits;
    TrimPadded(l, Decimal(p), r);
    DigitsDecimal(p);
    assert forall c :: IsDigit(c) ==> c != '-';
  }

  lemma SpanCore(a: int, ml: string, mr: string, b: int)
    requires AllBlank(ml) && AllBlank(mr) && 1 <= a <= b <= MAX_PORT
    ensures var core := Decimal(a) + ml + ['-'] + mr + Decimal(b);
      core != "" && Tight(core) && '-' in core
      && Before(core, '-') == Decimal(a) + ml
      && core[|Decimal(a) + ml| + 1..] == mr + Decimal(b)
  {
    hide Decimal;
    var lo, hi := Decimal(a) + ml, mr + Decimal(b);
    var core := Decimal(a) + ml + ['-'] + mr + Decimal(b);
    assert core == lo + ['-'] + hi;
    assert core[0] == Decimal(a)[0] && core[|core| - 1] == Decimal(b)[|Decimal(b)| - 1];
    assert forall c :: IsBlank(c) || IsDigit(c) ==> c != '-';
    assert core[|lo|] == '-';
    BeforeConcat(lo, '-', hi);
  }

  lemma SpanParses(l: string, a: int, ml: string, mr: string, b: int, r: string)
    requires Span(l, a, ml, mr, b, r).Valid()
    ensures ParseRaw(Span(l, a, ml, mr, b, r).Print()) == Ok([PortRange(a, b)])
  {
    hide Decimal, Trim, Digits, Before, ParsePart, Tight;
    SpanCore(a, ml, mr, b);
    SpanPart(a, ml, mr, b);
    TrimPadded(l, Decimal(a) + ml + ['-'] + mr + Decimal(b), r);
  }

  lemma SpanPart(a: int, ml: string, mr: string, b: int)
    requires AllBlank(ml) && AllBlank(mr) && 1 <= a <= b <= MAX_PORT
    ensures ParsePart(Decimal(a) + ml + ['-'] + mr + Decimal(b)) == Ok(PortRange(a, b))
  {
    hide Decimal, Trim, Digits, Before, Atoi;
    SpanCore(a, ml, mr, b);
    TrimEnds(a, ml, mr, b);
    AtoiDecimal(a);
    AtoiDecimal(b);
  }

  lemma TrimEnds(a: int, ml: string, mr: string, b: int)
    requires AllBlank(ml) && AllBlank(mr) && a >= 1 && b >= 1
    ensures Trim(Decimal(a) + ml) == Decimal(a) && Trim(mr + Decimal(b)) == Decimal(b)
  {
    hide Decimal, Trim;
    TrimPadded("", Decimal(a), ml);
    assert "" + Decimal(a) + ml == Decimal(a) + ml;
    TrimPadded(mr, Decimal(b), "");
    assert mr + Decimal(b) + "" == mr + Decimal(b);
  }

  lemma AtoiDecimal(n: nat)
    ensures Atoi(Decimal(n)) == Some(n)
  {
    hide Decimal, Digits;
    DigitsDecimal(n);
  }

  lemma {:induction false} PrintedPartsParse(items: seq<Item>)
    requires forall i :: 0 <= i < |items| ==> items[i].Valid()
    ensures ParseParts(PrintAll(items)) == Ok(RangesOf(items))
  {
    hide ParseRaw, Decimal;
    if items != [] {
      assert PrintAll(items)[1..] == PrintAll(items[1..]);
      PrintedPartsParse(items[1..]);
      match items[0] {
        case Blank(pad) => BlankParses(pad);
        case Single(l, p, r) => SingleParses(l, p, r);
        case Span(l, a, ml, mr, b, r) => SpanParses(l, a, ml, mr, b, r);
      }
    }
  }

  /** Printing any list of items and parsing it gives back exactly its ranges; a
      list that prints only blanks is refused as an empty whitelist. */
  lemma WhitelistRoundTrip(items: seq<Item>)
    requires items != []
    requires forall i :: 0 <= i < |items| ==> items[i].Valid()
    ensures Parsed(Join(PrintAll(items), ',')) ==
            if RangesOf(items) == [] then Err(EmptyWhitelist) else Ok(RangesOf(items))
  {
    var parts := PrintAll(items);
    forall i | 0 <= i < |parts| ensures ',' !in parts[i] {
      ItemHasNoComma(items[i]);
    }
    SplitJoin(parts, ',');
    PrintedPartsParse(items);
  }
}
