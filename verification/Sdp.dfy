/** SDP candidate lines: what the printer writes, the parser reads back.

Section 15.1 of RFC 5245. Whether a string is an IP address, and that addresses print as such strings,
is left to the address code: `valid` stands for it. */
module Sdp {
  import opened Basics
  import opened CandidatePriority
  import opened Text

  datatype Addr = Addr(ip: string, port: nat)

  /** `base` is absent when the base address was never set. */
  datatype Candidate = Candidate(
    foundation: string, component: nat, transport: Transport, priority: nat,
    kind: CandidateType, addr: Addr, base: Option<Addr>)

  const MAX_FOUNDATION: nat := 32
  const PREFIX := "a=candidate:"

  // ----- printing

  function KindName(kind: CandidateType): string {
    match kind
    case Host => "host"
    case ServerReflexive => "srflx"
    case PeerReflexive => "prflx"
    case Relayed => "relay"
  }

  function TransportName(t: Transport): string {
    if t.Udp? then "UDP" else "TCP"
  }

  function TcpTypeName(t: Transport): string {
    match t
    case Udp => ""
    case TcpActive => "active"
    case TcpPassive => "passive"
    case TcpSo => "so"
  }

  // Port 0 is written as the discard port.
  function ShownPort(port: nat): nat {
    if port == 0 then 9 else port
  }

  predicate ShowsBase(c: Candidate) {
    c.base.Some? && c.base.value != c.addr
  }

  /** What the address code and the fixed-size fields guarantee. */
  predicate Printable(c: Candidate, valid: string -> bool) {
    && |c.foundation| <= MAX_FOUNDATION && ' ' !in c.foundation && '\n' !in c.foundation
    && c.component < TWO_32 && c.priority < TWO_32
    && AddrOk(c.addr, valid) && (c.base.Some? ==> AddrOk(c.base.value, valid))
  }

  predicate AddrOk(a: Addr, valid: string -> bool) {
    valid(a.ip) && ' ' !in a.ip && '\n' !in a.ip && a.port < TWO_16
  }

  function FixedTokens(c: Candidate): (ts: seq<string>)
    requires c.component < TWO_32 && c.priority < TWO_32
    ensures |ts| == 8
  {
    [c.foundation, PrintSigned(c.component), TransportName(c.transport), PrintSigned(c.priority),
     c.addr.ip, Digits(ShownPort(c.addr.port)), "typ", KindName(c.kind)]
  }

  function BaseTokens(c: Candidate): seq<string> {
    if ShowsBase(c) then ["raddr", c.base.value.ip, "rport", Digits(ShownPort(c.base.value.port))] else []
  }

  function TcpTokens(c: Candidate): seq<string> {
    if c.transport.Udp? then [] else ["tcptype", TcpTypeName(c.transport)]
  }

  function Tokens(c: Candidate): (ts: seq<string>)
    requires c.component < TWO_32 && c.priority < TWO_32
    ensures |ts| >= 8
  {
    FixedTokens(c) + BaseTokens(c) + TcpTokens(c)
  }

  /** A candidate line is its tokens, separated by single spaces. */
  function Line(c: Candidate): string
    requires c.component < TWO_32 && c.priority < TWO_32
  {
    PREFIX + Join(Tokens(c), ' ')
  }

  method GenerateCandidate(c: Candidate) returns (sdp: string)
    requires c.component < TWO_32 && c.priority < TWO_32
    ensures sdp == Line(c)
  {
    hide Join, Digits, PrintSigned;
    sdp := "a=candidate:" + c.foundation + " " + PrintSigned(c.component) + " " + TransportName(c.transport)
           + " " + PrintSigned(c.priority) + " " + c.addr.ip + " " + Digits(ShownPort(c.addr.port));
    sdp := sdp + " typ " + KindName(c.kind);
    ghost var shown := FixedTokens(c);
    FixedPart(shown);
    if c.base.Some? && c.base.value != c.addr {
      BasePart(sdp, shown, c.base.value.ip, Digits(ShownPort(c.base.value.port)));
      sdp := sdp + " raddr " + c.base.value.ip + " rport " + Digits(ShownPort(c.base.value.port));
      shown := shown + BaseTokens(c);
    }
    if !c.transport.Udp? {
      TcpPart(sdp, shown, TcpTypeName(c.transport));
      sdp := sdp + " tcptype " + TcpTypeName(c.transport);
      shown := shown + TcpTokens(c);
    }
    assert shown == Tokens(c);
  }

  lemma AddToken(sdp: string, ts: seq<string>, k: nat)
    requires 0 < k < |ts| && sdp == PREFIX + Join(ts[..k], ' ')
    ensures sdp + " " + ts[k] == PREFIX + Join(ts[..k + 1], ' ')
  {
    JoinMore(ts[..k], [ts[k]]);
    hide Join;
    assert ts[..k] + [ts[k]] == ts[..k + 1];
    JoinOne(ts[k]);
  }

  lemma JoinOne(t: string)
    ensures Join([t], ' ') == t
  {
  }

  lemma FixedPart(ts: seq<string>)
    requires |ts| == 8 && ts[6] == "typ"
    ensures "a=candidate:" + ts[0] + " " + ts[1] + " " + ts[2] + " " + ts[3] + " " + ts[4] + " " + ts[5] + " typ " + ts[7] ==
            PREFIX + Join(ts, ' ')
  {
    hide Join;
    JoinOne(ts[0]);
    assert ts[..1] == [ts[0]];
    var s1 := "a=candidate:" + ts[0];
    AddToken(s1, ts, 1);
    var s2 := s1 + " " + ts[1];
    AddToken(s2, ts, 2);
    var s3 := s2 + " " + ts[2];
    AddToken(s3, ts, 3);
    var s4 := s3 + " " + ts[3];
    AddToken(s4, ts, 4);
    var s5 := s4 + " " + ts[4];
    AddToken(s5, ts, 5);
    var s6 := s5 + " " + ts[5];
    AddToken(s6, ts, 6);
    AddToken(s6 + " typ", ts, 7);
    assert s6 + " " + "typ" == s6 + " typ";
    assert s6 + " typ" + " " + ts[7] == s6 + " typ " + ts[7];
    assert ts[..8] == ts;
  }

  lemma BasePart(sdp: string, ts: seq<string>, ip: string, port: string)
    requires ts != [] && sdp == PREFIX + Join(ts, ' ')
    ensures sdp + " raddr " + ip + " rport " + port == PREFIX + Join(ts + ["raddr", ip, "rport", port], ' ')
  {
    hide Join;
    var us := ["raddr", ip, "rport", port];
    JoinMore(ts, us);
    JoinFour(us);
    assert " raddr " == " " + "raddr" + " " && " rport " == " " + "rport" + " ";
  }

  lemma TcpPart(sdp: string, ts: seq<string>, name: string)
    requires ts != [] && sdp == PREFIX + Join(ts, ' ')
    ensures sdp + " tcptype " + name == PREFIX + Join(ts + ["tcptype", name], ' ')
  {
    hide Join;
    var us := ["tcptype", name];
    JoinMore(ts, us);
    JoinTwo(us);
    assert " tcptype " == " " + "tcptype" + " ";
  }

  lemma JoinTwo(ts: seq<string>)
    requires |ts| == 2
    ensures Join(ts, ' ') == ts[0] + " " + ts[1]
  {
  }

  lemma JoinFour(ts: seq<string>)
    requires |ts| == 4
    ensures Join(ts, ' ') == ts[0] + " " + ts[1] + " " + ts[2] + " " + ts[3]
  {
    JoinTwo(ts[..2]);
    JoinTwo(ts[2..]);
    assert ts[..2] + ts[2..] == ts;
    JoinMore(ts[..2], ts[2..]);
  }

  lemma {:induction false} JoinMore(ts: seq<string>, us: seq<string>)
    requires ts != [] && us != []
    ensures Join(ts + us, ' ') == Join(ts, ' ') + " " + Join(us, ' ')
    decreases |ts|
  {
    assert (ts + us)[0] == ts[0] && (ts + us)[1..] == ts[1..] + us;
    if |ts| > 1 {
      JoinMore(ts[1..], us);
    } else {
      assert ts[1..] + us == us;
    }
  }

  // ----- parsing

  datatype Fields = Fields(
    foundation: string, component: nat, transport: string, priority: nat, addr: string, port: nat,
    kind: Option<string>, tcptype: Option<string>, raddr: Option<string>, rport: nat)

  const NO_FIELDS := Fields("", 0, "", 0, "", 0, None, None, None, 0)

  function SetPlace(f: Fields, i: nat, token: string): Fields {
    match i
    case 0 => f.(foundation := token)
    case 1 => f.(component := ParseUnsigned(token) % TWO_32)
    case 2 => f.(transport := token)
    case 3 => f.(priority := ParseUnsigned(token) % TWO_32)
    case 4 => f.(addr := token)
    case _ => f.(port := ParseUnsigned(token) % TWO_16)
  }

  function SetKey(f: Fields, key: string, value: string): Fields {
    if key == "typ" then f.(kind := Some(value))
    else if key == "raddr" then f.(raddr := Some(value))
    else if key == "rport" then f.(rport := ParseUnsigned(value) % TWO_16)
    else if key == "tcptype" then f.(tcptype := Some(value))
    else f
  }

  // Six fields by place, then pairs of a key and a value; a key without a value is an error.
  function Scan(ts: seq<string>, i: nat, f: Fields): Option<Fields>
    decreases |ts| - i
  {
    if i >= |ts| then Some(f)
    else if i < 6 then Scan(ts, i + 1, SetPlace(f, i, ts[i]))
    else if i + 1 >= |ts| then None
    else Scan(ts, i + 2, SetKey(f, ts[i], ts[i + 1]))
  }

  function KindOf(name: string): Option<CandidateType> {
    if name == "host" then Some(Host)
    else if name == "srflx" then Some(ServerReflexive)
    else if name == "prflx" then Some(PeerReflexive)
    else if name == "relay" then Some(Relayed)
    else None
  }

  function Lower(c: char): char {
    if 'A' <= c <= 'Z' then (c as int + 32) as char else c
  }

  // g_ascii_strcasecmp
  predicate SameWord(a: string, b: string) {
    |a| == |b| && forall i :: 0 <= i < |a| ==> Lower(a[i]) == Lower(b[i])
  }

  function TransportOf(transport: string, tcptype: Option<string>): Option<Transport> {
    if SameWord(transport, "UDP") then Some(Udp)
    else if SameWord(transport, "TCP-SO") then Some(TcpSo)
    else if SameWord(transport, "TCP-ACT") then Some(TcpActive)
    else if SameWord(transport, "TCP-PASS") then Some(TcpPassive)
    else if !SameWord(transport, "TCP") || tcptype.None? then None
    else if SameWord(tcptype.value, "so") then Some(TcpSo)
    else if SameWord(tcptype.value, "active") then Some(TcpActive)
    else if SameWord(tcptype.value, "passive") then Some(TcpPassive)
    else None
  }

  function Stored(foundation: string): string {
    if |foundation| <= MAX_FOUNDATION then foundation else foundation[..MAX_FOUNDATION]
  }

  function Build(f: Fields, valid: string -> bool): Option<Candidate> {
    if f.kind.None? || KindOf(f.kind.value).None? then None
    else
      var t := TransportOf(f.transport, f.tcptype);
      if t.None? || !valid(f.addr) then None
      else
        var withBase := f.raddr.Some? && f.rport != 0;
        if withBase && !valid(f.raddr.value) then None
        else
          Some(Candidate(Stored(f.foundation), f.component, t.value, f.priority, KindOf(f.kind.value).value,
                         Addr(f.addr, f.port), if withBase then Some(Addr(f.raddr.value, f.rport)) else None))
  }

  function Parse(sdp: string, valid: string -> bool): Option<Candidate> {
    if !(PREFIX <= sdp) then None
    else
      var f := Scan(Split(sdp[|PREFIX|..], ' '), 0, NO_FIELDS);
      if f.None? then None else Build(f.value, valid)
  }

  method ParseCandidate(sdp: string, valid: string -> bool) returns (r: Option<Candidate>)
    ensures r == Parse(sdp, valid)
  {
    hide Split, SetPlace, SetKey, Build;
    if !(PREFIX <= sdp) {
      return None;
    }
    var tokens := Split(sdp[|PREFIX|..], ' ');
    var f, i := NO_FIELDS, 0;
    while i < |tokens|
      invariant 0 <= i
      invariant Scan(tokens, 0, NO_FIELDS) == Scan(tokens, i, f)
    {
      if i < 6 {
        f := SetPlace(f, i, tokens[i]);
      } else {
        if i + 1 >= |tokens| {
          return None;
        }
        f := SetKey(f, tokens[i], tokens[i + 1]);
        i := i + 1;
      }
      i := i + 1;
    }
    return Build(f, valid);
  }

  // ----- the round trip

  /** What comes back: ports as shown, and the base address only where it was shown. */
  function Shown(c: Candidate): Candidate {
    c.(addr := c.addr.(port := ShownPort(c.addr.port)),
       base := if ShowsBase(c) then Some(c.base.value.(port := ShownPort(c.base.value.port))) else None)
  }

  predicate Spaceless(ts: seq<string>) {
    forall i :: 0 <= i < |ts| ==> ' ' !in ts[i]
  }

  lemma NumbersSpaceless(n: nat)
    ensures ' ' !in Digits(n) && '\n' !in Digits(n)
    ensures n < TWO_32 ==> ' ' !in PrintSigned(n) && '\n' !in PrintSigned(n)
  {
    hide Digits;
    if n < TWO_32 && n >= TWO_31 {
      assert ' ' !in Digits(TWO_32 - n) && '\n' !in Digits(TWO_32 - n);
    }
  }

  lemma TokensSpaceless(c: Candidate, valid: string -> bool)
    requires Printable(c, valid)
    ensures Spaceless(Tokens(c))
  {
    hide Digits, PrintSigned;
    NumbersSpaceless(c.component);
    NumbersSpaceless(c.priority);
    NumbersSpaceless(ShownPort(c.addr.port));
    if c.base.Some? {
      NumbersSpaceless(ShownPort(c.base.value.port));
    }
    assert Spaceless(FixedTokens(c));
    assert Spaceless(BaseTokens(c));
    assert Spaceless(TcpTokens(c));
  }

  function FirstFields(c: Candidate): Fields {
    NO_FIELDS.(foundation := c.foundation, component := c.component, transport := TransportName(c.transport),
               priority := c.priority, addr := c.addr.ip, port := ShownPort(c.addr.port))
  }

  lemma PortRoundTrip(port: nat)
    requires port < TWO_16
    ensures ParseUnsigned(Digits(ShownPort(port))) % TWO_16 == ShownPort(port)
  {
    hide ParseUnsigned;
    PlainRoundTrip(ShownPort(port));
  }

  lemma ScanPlaces(c: Candidate, valid: string -> bool)
    requires Printable(c, valid)
    ensures Scan(Tokens(c), 0, NO_FIELDS) == Scan(Tokens(c), 6, FirstFields(c))
  {
    hide Digits, PrintSigned, ParseUnsigned;
    var ts := Tokens(c);
    SignedRoundTrip(c.component);
    SignedRoundTrip(c.priority);
    PortRoundTrip(c.addr.port);
    var f1 := SetPlace(NO_FIELDS, 0, ts[0]);
    var f2 := SetPlace(f1, 1, ts[1]);
    var f3 := SetPlace(f2, 2, ts[2]);
    var f4 := SetPlace(f3, 3, ts[3]);
    var f5 := SetPlace(f4, 4, ts[4]);
    var f6 := SetPlace(f5, 5, ts[5]);
    ScanPlace(ts, 0, NO_FIELDS);
    ScanPlace(ts, 1, f1);
    ScanPlace(ts, 2, f2);
    ScanPlace(ts, 3, f3);
    ScanPlace(ts, 4, f4);
    ScanPlace(ts, 5, f5);
    assert f6 == FirstFields(c);
  }

  lemma ScanPlace(ts: seq<string>, i: nat, f: Fields)
    requires i < 6 && i < |ts|
    ensures Scan(ts, i, f) == Scan(ts, i + 1, SetPlace(f, i, ts[i]))
  {
  }

  lemma ScanPair(ts: seq<string>, i: nat, f: Fields, key: string, value: string)
    requires 6 <= i && i + 1 < |ts| && ts[i] == key && ts[i + 1] == value
    ensures Scan(ts, i, f) == Scan(ts, i + 2, SetKey(f, key, value))
  {
  }

  function LastFields(c: Candidate): Fields {
    var f := FirstFields(c).(kind := Some(KindName(c.kind)));
    var g := if ShowsBase(c) then f.(raddr := Some(c.base.value.ip), rport := ShownPort(c.base.value.port)) else f;
    if c.transport.Udp? then g else g.(tcptype := Some(TcpTypeName(c.transport)))
  }

  lemma ScanKeys(c: Candidate, valid: string -> bool)
    requires Printable(c, valid)
    ensures Scan(Tokens(c), 6, FirstFields(c)) == Some(LastFields(c))
  {
    hide Digits, PrintSigned, ParseUnsigned, Scan;
    var ts := Tokens(c);
    var f := FirstFields(c).(kind := Some(KindName(c.kind)));
    ScanPair(ts, 6, FirstFields(c), "typ", KindName(c.kind));
    if ShowsBase(c) {
      var b := c.base.value;
      PortRoundTrip(b.port);
      ScanPair(ts, 8, f, "raddr", b.ip);
      ScanPair(ts, 10, f.(raddr := Some(b.ip)), "rport", Digits(ShownPort(b.port)));
      ScanTail(c, ts, 12, f.(raddr := Some(b.ip), rport := ShownPort(b.port)));
    } else {
      ScanTail(c, ts, 8, f);
    }
  }

  lemma ScanTail(c: Candidate, ts: seq<string>, i: nat, f: Fields)
    requires 6 <= i && |ts| == i + |TcpTokens(c)| && ts[i..] == TcpTokens(c)
    ensures Scan(ts, i, f) == Some(if c.transport.Udp? then f else f.(tcptype := Some(TcpTypeName(c.transport))))
  {
    if !c.transport.Udp? {
      assert ts[i] == ts[i..][0] && ts[i + 1] == ts[i..][1];
      ScanPair(ts, i, f, "tcptype", TcpTypeName(c.transport));
    }
  }

  lemma NamesRoundTrip(c: Candidate)
    ensures KindOf(KindName(c.kind)) == Some(c.kind)
    ensures TransportOf(TransportName(c.transport), if c.transport.Udp? then None else Some(TcpTypeName(c.transport))) ==
            Some(c.transport)
  {
    assert !SameWord("TCP", "UDP") by {
      assert Lower("TCP"[0]) != Lower("UDP"[0]);
    }
  }

  /** Parsing a printed candidate gives back every field as it was shown, for every 32-bit priority. */
  lemma CandidateRoundTrip(c: Candidate, valid: string -> bool)
    requires Printable(c, valid)
    ensures Parse(Line(c), valid) == Some(Shown(c))
  {
    hide Join, Scan, Tokens, SplitFrom, TransportOf, KindOf;
    TokensSpaceless(c, valid);
    SplitJoin(Tokens(c), ' ');
    assert Line(c)[|PREFIX|..] == Join(Tokens(c), ' ');
    JoinNotEmpty(Tokens(c));
    ScanPlaces(c, valid);
    ScanKeys(c, valid);
    NamesRoundTrip(c);
  }

  lemma JoinNotEmpty(ts: seq<string>)
    requires |ts| >= 2
    ensures Join(ts, ' ') != []
  {
  }

  /** The candidate itself comes back exactly when no port is 0 and a base address, if set, differs. */
  lemma ExactRoundTrip(c: Candidate, valid: string -> bool)
    requires Printable(c, valid)
    ensures Parse(Line(c), valid) == Some(c) <==>
            c.addr.port != 0 && (c.base.Some? ==> c.base.value != c.addr && c.base.value.port != 0)
  {
    hide Parse, Line;
    CandidateRoundTrip(c, valid);
  }

  // ----- a stream

  // Reads the candidate lines among `lines`; each goes to the front of what was read before.
  function Collect(lines: seq<string>, valid: string -> bool, acc: seq<Candidate>): seq<Candidate>
    decreases |lines|
  {
    if lines == [] then acc
    else if !(PREFIX <= lines[0]) then Collect(lines[1..], valid, acc)
    else
      var c := Parse(lines[0], valid);
      if c.None? then [] else Collect(lines[1..], valid, [c.value] + acc)
  }

  method ParseStream(sdp: string, valid: string -> bool) returns (cands: seq<Candidate>)
    ensures cands == Collect(Split(sdp, '\n'), valid, [])
  {
    hide Split, Parse;
    var lines := Split(sdp, '\n');
    cands := [];
    assert lines[0..] == lines;
    for k := 0 to |lines|
      invariant Collect(lines, valid, []) == Collect(lines[k..], valid, cands)
    {
      assert lines[k..][0] == lines[k] && lines[k..][1..] == lines[k + 1..];
      if PREFIX <= lines[k] {
        var c := ParseCandidate(lines[k], valid);
        if c.None? {
          return [];
        }
        cands := [c.value] + cands;
      }
    }
  }

  predicate AllPrintable(cands: seq<Candidate>, valid: string -> bool) {
    forall i :: 0 <= i < |cands| ==> Printable(cands[i], valid)
  }

  function Lines(cands: seq<Candidate>, valid: string -> bool): (ls: seq<string>)
    requires AllPrintable(cands, valid)
    ensures |ls| == |cands|
  {
    if cands == [] then [] else [Line(cands[0])] + Lines(cands[1..], valid)
  }

  // Every line of a stream's description is followed by a newline.
  function Written(lines: seq<string>): string {
    if lines == [] then "" else lines[0] + "\n" + Written(lines[1..])
  }

  method GenerateStream(headers: seq<string>, cands: seq<Candidate>, valid: string -> bool) returns (sdp: string)
    requires AllPrintable(cands, valid)
    ensures sdp == Written(headers + Lines(cands, valid))
  {
    hide Line;
    sdp := "";
    ghost var all := headers + Lines(cands, valid);
    for k := 0 to |headers|
      invariant sdp == Written(headers[..k])
    {
      WrittenAppend(headers[..k], headers[k]);
      assert headers[..k] + [headers[k]] == headers[..k + 1];
      sdp := sdp + headers[k] + "\n";
    }
    assert headers[..|headers|] == headers == all[..|headers|];
    for k := 0 to |cands|
      invariant sdp == Written(all[..|headers| + k])
    {
      LineAt(cands, valid, k);
      WrittenAppend(all[..|headers| + k], all[|headers| + k]);
      assert all[..|headers| + k] + [all[|headers| + k]] == all[..|headers| + k + 1];
      var line := GenerateCandidate(cands[k]);
      sdp := sdp + line + "\n";
    }
    assert all[..|headers| + |cands|] == all;
  }

  lemma {:induction false} WrittenAppend(lines: seq<string>, line: string)
    ensures Written(lines + [line]) == Written(lines) + line + "\n"
  {
    if lines == [] {
      assert lines + [line] == [line] && [line][1..] == [];
    } else {
      assert (lines + [line])[1..] == lines[1..] + [line];
      WrittenAppend(lines[1..], line);
    }
  }

  lemma {:induction false} LineAt(cands: seq<Candidate>, valid: string -> bool, k: nat)
    requires AllPrintable(cands, valid) && k < |cands|
    ensures Lines(cands, valid)[k] == Line(cands[k])
  {
    hide Line;
    if k > 0 {
      LineAt(cands[1..], valid, k - 1);
    }
  }

  lemma {:induction false} WrittenIsJoin(lines: seq<string>)
    ensures Written(lines) == Join(lines + [""], '\n')
  {
    if lines == [] {
      assert lines + [""] == [""];
    } else {
      assert (lines + [""])[1..] == lines[1..] + [""];
      WrittenIsJoin(lines[1..]);
    }
  }

  predicate NoNewlines(lines: seq<string>) {
    forall i :: 0 <= i < |lines| ==> '\n' !in lines[i]
  }

  lemma SplitWritten(lines: seq<string>)
    requires lines != [] && NoNewlines(lines)
    ensures Split(Written(lines), '\n') == lines + [""]
  {
    hide SplitFrom, Join;
    WrittenIsJoin(lines);
    SplitJoin(lines + [""], '\n');
  }

  lemma {:induction false} JoinNoNewline(ts: seq<string>)
    requires ts != [] && NoNewlines(ts)
    ensures '\n' !in Join(ts, ' ')
  {
    if |ts| > 1 {
      JoinNoNewline(ts[1..]);
    }
  }

  lemma LineNoNewline(c: Candidate, valid: string -> bool)
    requires Printable(c, valid)
    ensures '\n' !in Line(c)
  {
    hide Digits, PrintSigned, Join;
    NumbersSpaceless(c.component);
    NumbersSpaceless(c.priority);
    NumbersSpaceless(ShownPort(c.addr.port));
    if c.base.Some? {
      NumbersSpaceless(ShownPort(c.base.value.port));
    }
    assert NoNewlines(FixedTokens(c));
    assert NoNewlines(BaseTokens(c));
    assert NoNewlines(TcpTokens(c));
    JoinNoNewline(Tokens(c));
  }

  lemma {:induction false} LinesNoNewline(cands: seq<Candidate>, valid: string -> bool)
    requires AllPrintable(cands, valid)
    ensures NoNewlines(Lines(cands, valid))
  {
    hide Line;
    if cands != [] {
      LineNoNewline(cands[0], valid);
      LinesNoNewline(cands[1..], valid);
    }
  }

  function ShownReversed(cands: seq<Candidate>): seq<Candidate> {
    if cands == [] then [] else ShownReversed(cands[1..]) + [Shown(cands[0])]
  }

  lemma {:induction false} CollectHeaders(headers: seq<string>, rest: seq<string>, valid: string -> bool, acc: seq<Candidate>)
    requires forall i :: 0 <= i < |headers| ==> !(PREFIX <= headers[i])
    ensures Collect(headers + rest, valid, acc) == Collect(rest, valid, acc)
  {
    hide Parse;
    if headers == [] {
      assert headers + rest == rest;
    } else {
      assert (headers + rest)[1..] == headers[1..] + rest;
      CollectHeaders(headers[1..], rest, valid, acc);
    }
  }

  lemma {:induction false} CollectLines(cands: seq<Candidate>, valid: string -> bool, acc: seq<Candidate>)
    requires AllPrintable(cands, valid)
    ensures Collect(Lines(cands, valid) + [""], valid, acc) == ShownReversed(cands) + acc
    decreases |cands|
  {
    hide Parse, Line;
    var lines := Lines(cands, valid) + [""];
    if cands == [] {
      assert lines == [""] && lines[1..] == [];
      assert Collect(lines[1..], valid, acc) == acc;
    } else {
      CandidateRoundTrip(cands[0], valid);
      LinePrefix(cands[0]);
      assert lines[1..] == Lines(cands[1..], valid) + [""];
      CollectLines(cands[1..], valid, [Shown(cands[0])] + acc);
      assert ShownReversed(cands[1..]) + ([Shown(cands[0])] + acc) == ShownReversed(cands) + acc;
    }
  }

  lemma LinePrefix(c: Candidate)
    requires c.component < TWO_32 && c.priority < TWO_32
    ensures PREFIX <= Line(c)
  {
  }

  /** Parsing the description of a stream gives back its candidates as shown, in reverse order. */
  lemma StreamRoundTrip(headers: seq<string>, cands: seq<Candidate>, valid: string -> bool)
    requires AllPrintable(cands, valid) && NoNewlines(headers)
    requires forall i :: 0 <= i < |headers| ==> !(PREFIX <= headers[i])
    ensures Collect(Split(Written(headers + Lines(cands, valid)), '\n'), valid, []) == ShownReversed(cands)
  {
    if headers == [] && cands == [] {
      return;
    }
    hide Parse, Split, Written, Collect, Lines;
    var lines := headers + Lines(cands, valid);
    LinesNoNewline(cands, valid);
    SplitWritten(lines);
    assert lines + [""] == headers + (Lines(cands, valid) + [""]);
    CollectHeaders(headers, Lines(cands, valid) + [""], valid, []);
    CollectLines(cands, valid, []);
    assert ShownReversed(cands) + [] == ShownReversed(cands);
  }
}
