/** Candidate priorities and pair priorities.

Every operation works on C unsigned integers; wrap-around is written out with `%`.
The formulas are those of section 5.1.2.1 and section 6.1.2.3 of RFC 8445.
*/
module CandidatePriority {
  import opened Basics

  const MAX_LOCAL_ADDRESSES: nat := 64
  const MAX_TURN_SERVERS: nat := 8

  datatype CandidateType = Host | ServerReflexive | PeerReflexive | Relayed
  datatype Transport = Udp | TcpActive | TcpPassive | TcpSo

  /** What the priority of a local candidate depends on. `ipIndex` is the position
      of its base address among the addresses of the host. */
  datatype PriorityInput = PriorityInput(
    kind: CandidateType, transport: Transport, natAssisted: bool,
    turnIsUdp: bool, turnPreference: nat, ipIndex: nat, component: nat)

  // ----- candidate priority

  function PriorityFull(typePreference: nat, localPreference: nat, component: nat): nat {
    (0x100_0000 * typePreference + 0x100 * localPreference + (0x100 - component)) % TWO_32
  }

  function LocalPreferenceFull(direction: nat, turn: nat, other: nat): nat
    requires other < MAX_LOCAL_ADDRESSES && turn < MAX_TURN_SERVERS && direction < 8
  {
    (direction * 0x2000 + turn * 0x40 + other) % 0x1_0000
  }

  function DirectionPreference(kind: CandidateType, transport: Transport): (r: nat)
    ensures 1 <= r < 8
  {
    var near := kind.ServerReflexive? || kind.Host?;
    match transport
    case TcpActive => if near then 4 else 6
    case TcpPassive => if near then 2 else 4
    case TcpSo => if near then 6 else 2
    case Udp => 1
  }

  function TypePreference(c: PriorityInput, reliable: bool): (r: nat)
    ensures 10 <= r <= 120
  {
    var preference :=
      match c.kind
      case Host => 120
      case PeerReflexive => 110
      case ServerReflexive => if c.natAssisted then 105 else 100
      case Relayed => if c.turnIsUdp then 30 else 20;
    if reliable == c.transport.Udp? then preference / 2 else preference
  }

  /** The inputs the assertions of the source and the component numbering allow. */
  predicate InRange(c: PriorityInput) {
    c.ipIndex < MAX_LOCAL_ADDRESSES && c.turnPreference < MAX_TURN_SERVERS && 1 <= c.component <= 255
  }

  function TurnPreference(c: PriorityInput): nat {
    if c.kind.Relayed? then c.turnPreference else 0
  }

  function Priority(c: PriorityInput, reliable: bool): nat
    requires InRange(c)
  {
    PriorityFull(TypePreference(c, reliable),
                 LocalPreferenceFull(DirectionPreference(c.kind, c.transport), TurnPreference(c), c.ipIndex),
                 c.component)
  }

  /** The position of `ip` among the local addresses, or their number when absent. */
  method IpLocalPreference(ip: string, ips: seq<string>) returns (preference: nat)
    ensures preference <= |ips|
    ensures ip !in ips[..preference]
    ensures preference < |ips| ==> ips[preference] == ip
  {
    preference := 0;
    while preference < |ips|
      invariant preference <= |ips| && ip !in ips[..preference]
    {
      if ips[preference] == ip {
        break;
      }
      preference := preference + 1;
    }
  }

  // The documented range of the recommended formula, and what makes it reversible.
  lemma PriorityFullRange(t: nat, l: nat, c: nat)
    requires t <= 126 && l <= 0xffff && 1 <= c <= 255
    ensures PriorityFull(t, l, c) == 0x100_0000 * t + 0x100 * l + (0x100 - c)
    ensures 1 <= PriorityFull(t, l, c) <= 0x7eff_ffff
  {
  }

  lemma PriorityFullInjective(t: nat, l: nat, c: nat, t': nat, l': nat, c': nat)
    requires t <= 126 && l <= 0xffff && 1 <= c <= 255
    requires t' <= 126 && l' <= 0xffff && 1 <= c' <= 255
    requires PriorityFull(t, l, c) == PriorityFull(t', l', c')
    ensures t == t' && l == l' && c == c'
  {
    PriorityFullRange(t, l, c);
    PriorityFullRange(t', l', c');
    assert 0x100 * ((0x1_0000 * t + l) - (0x1_0000 * t' + l')) == c - c';
    assert 0x1_0000 * (t - t') == l' - l;
  }

  lemma LocalPreferenceInjective(d: nat, t: nat, o: nat, d': nat, t': nat, o': nat)
    requires o < 64 && t < 8 && d < 8 && o' < 64 && t' < 8 && d' < 8
    requires LocalPreferenceFull(d, t, o) == LocalPreferenceFull(d', t', o')
    ensures d == d' && t == t' && o == o'
  {
    assert 0x40 * ((d * 0x80 + t) - (d' * 0x80 + t')) == o' - o;
    assert 0x80 * (d - d') == t' - t;
  }

  /** Every candidate priority lies in 1 .. 0x7effffff. */
  lemma PriorityRange(c: PriorityInput, reliable: bool)
    requires InRange(c)
    ensures 1 <= Priority(c, reliable) <= 0x7eff_ffff
  {
    PriorityFullRange(TypePreference(c, reliable),
      LocalPreferenceFull(DirectionPreference(c.kind, c.transport), TurnPreference(c), c.ipIndex), c.component);
  }

  /** Equal priorities come only from candidates that agree on every field of the formula. */
  lemma PriorityDetermines(c: PriorityInput, d: PriorityInput, reliable: bool)
    requires InRange(c) && InRange(d)
    ensures Priority(c, reliable) == Priority(d, reliable) <==>
            && TypePreference(c, reliable) == TypePreference(d, reliable)
            && DirectionPreference(c.kind, c.transport) == DirectionPreference(d.kind, d.transport)
            && TurnPreference(c) == TurnPreference(d)
            && c.ipIndex == d.ipIndex
            && c.component == d.component
  {
    if Priority(c, reliable) == Priority(d, reliable) {
      var l := LocalPreferenceFull(DirectionPreference(c.kind, c.transport), TurnPreference(c), c.ipIndex);
      var m := LocalPreferenceFull(DirectionPreference(d.kind, d.transport), TurnPreference(d), d.ipIndex);
      PriorityFullInjective(TypePreference(c, reliable), l, c.component, TypePreference(d, reliable), m, d.component);
      LocalPreferenceInjective(
        DirectionPreference(c.kind, c.transport), TurnPreference(c), c.ipIndex,
        DirectionPreference(d.kind, d.transport), TurnPreference(d), d.ipIndex);
    }
  }

  /** Two relay candidates with equal priorities sit on the same component, interface and TURN server
      slot; two host candidates with equal priorities and the same transport are on the same interface. */
  lemma SameKindUnique(c: PriorityInput, d: PriorityInput, reliable: bool)
    requires InRange(c) && InRange(d)
    requires c.kind == d.kind && c.transport == d.transport
    requires (c.component, c.ipIndex, TurnPreference(c)) != (d.component, d.ipIndex, TurnPreference(d))
    ensures Priority(c, reliable) != Priority(d, reliable)
  {
    PriorityDetermines(c, d, reliable);
  }

  // ----- pair priority

  /** The pair priority as the C code computes it: `2 * max` is a 32-bit product and wraps,
      the rest is 64-bit arithmetic. */
  function PairPriority(offerer: nat, answerer: nat): nat {
    var max := if offerer > answerer then offerer else answerer;
    var min := if offerer < answerer then offerer else answerer;
    TWO_32 * min + (2 * max) % TWO_32 + (if offerer > answerer then 1 else 0)
  }

  function AgentPairPriority(controlling: bool, local: nat, remote: nat): nat {
    if controlling then PairPriority(local, remote) else PairPriority(remote, local)
  }

  function Min(a: nat, b: nat): nat { if a < b then a else b }
  function Max(a: nat, b: nat): nat { if a > b then a else b }

  /** The three fields the debug printer decodes: `prio >> 32`, `(prio >> 1) & 0x7fffffff`, `prio & 1`. */
  datatype Decoded = Decoded(high: nat, middle: nat, low: nat)

  function DecodePair(priority: nat): Decoded {
    Decoded(priority / TWO_32, (priority / 2) % TWO_31, priority % 2)
  }

  lemma RebuildPair(o: nat, a: nat)
    requires o < TWO_32 && a < TWO_32
    ensures PairPriority(o, a) ==
            TWO_32 * Min(o, a) + 2 * (Max(o, a) % TWO_31) + (if o > a then 1 else 0)
  {
    var q := Max(o, a) / TWO_31;
    assert 2 * Max(o, a) == TWO_32 * q + 2 * (Max(o, a) % TWO_31);
  }

  lemma DecodeParts(high: nat, middle: nat, low: nat)
    requires middle < TWO_31 && low < 2
    ensures DecodePair(TWO_32 * high + 2 * middle + low) == Decoded(high, middle, low)
  {
    var p := TWO_32 * high + 2 * middle + low;
    assert p / 2 == TWO_31 * high + middle;
  }

  /** Decoding returns the smaller priority, the larger one modulo 2^31, and the order bit;
      and the 64-bit sum never overflows, whatever the two 32-bit inputs. */
  lemma DecodePairPriority(o: nat, a: nat)
    requires o < TWO_32 && a < TWO_32
    ensures PairPriority(o, a) < TWO_32 * TWO_32
    ensures DecodePair(PairPriority(o, a)) == Decoded(Min(o, a), Max(o, a) % TWO_31, if o > a then 1 else 0)
  {
    hide DecodePair;
    RebuildPair(o, a);
    DecodeParts(Min(o, a), Max(o, a) % TWO_31, if o > a then 1 else 0);
  }

  /** Two pairs have the same priority exactly when their smaller priorities, their order bits and
      their larger priorities modulo 2^31 agree. */
  lemma PairPriorityCollides(o: nat, a: nat, o': nat, a': nat)
    requires o < TWO_32 && a < TWO_32 && o' < TWO_32 && a' < TWO_32
    ensures PairPriority(o, a) == PairPriority(o', a') <==>
            && Min(o, a) == Min(o', a')
            && Max(o, a) % TWO_31 == Max(o', a') % TWO_31
            && (o > a <==> o' > a')
  {
    DecodePairPriority(o, a);
    DecodePairPriority(o', a');
    var b := if o > a then 1 else 0;
    var b' := if o' > a' then 1 else 0;
    if Min(o, a) == Min(o', a') && Max(o, a) % TWO_31 == Max(o', a') % TWO_31 && b == b' {
      RebuildPair(o, a);
      RebuildPair(o', a');
    }
  }

  /** Below 2^31 the pair priority determines both inputs. */
  lemma PairPriorityInjective(o: nat, a: nat, o': nat, a': nat)
    requires o < TWO_31 && a < TWO_31 && o' < TWO_31 && a' < TWO_31
    requires PairPriority(o, a) == PairPriority(o', a')
    ensures o == o' && a == a'
  {
    PairPriorityCollides(o, a, o', a');
  }

  /** From 2^31 on it does not: the wrapped product makes two different pairs collide. */
  lemma PairPriorityWrapCollision()
    ensures PairPriority(1, TWO_31 + 1) == PairPriority(1, 1)
  {
    PairPriorityCollides(1, TWO_31 + 1, 1, 1);
  }

  /** A pair whose local priority is a legal candidate priority has a non-zero priority. */
  lemma PairPriorityPositive(controlling: bool, local: nat, remote: nat)
    requires 1 <= local < TWO_31 && remote < TWO_32
    ensures AgentPairPriority(controlling, local, remote) > 0
  {
    RebuildPair(local, remote);
    RebuildPair(remote, local);
  }
}
