/** Foundations of local candidates, redundant candidates, and names for unknown remote candidates.

Addresses are compared by IP without port; an IP is a value, so its equality is an equivalence. A TURN
server is known by its IP. */
module Foundations {
  import opened CandidatePriority
  import opened Text

  type Ip = nat

  datatype Address = Address(ip: Ip, port: nat)

  datatype Turn = NoTurn | Turn(ip: Ip)

  datatype Local = Local(kind: CandidateType, transport: Transport, addr: Address, base: Address, turn: Turn, foundation: string)

  /** Section 5.1.1.3 of RFC 8445: same type, transport and base; a relayed candidate is its own base, and
      the servers must agree. */
  predicate Alike(a: Local, b: Local) {
    && a.kind == b.kind && a.transport == b.transport
    && if a.kind.Relayed? then a.addr.ip == b.addr.ip && a.turn == b.turn else a.base.ip == b.base.ip
  }

  // A candidate that adds nothing to one already there (section 5.1.3 of RFC 8445).
  predicate Redundant(a: Local, b: Local) {
    || (a.base == b.base && a.addr == b.addr && a.transport == b.transport)
    || (a.kind == b.kind && (a.kind.Relayed? || a.kind.ServerReflexive?) && a.transport == b.transport && a.addr.ip == b.addr.ip)
  }

  // Foundations are decimal numbers below the next one to be given.
  ghost predicate Named(c: Local, nextId: nat) {
    exists k: nat :: k < nextId && c.foundation == Digits(k)
  }

  /** All present candidates: same foundation if and only if alike. */
  ghost predicate FoundationsOk(all: seq<Local>, nextId: nat) {
    && (forall i :: 0 <= i < |all| ==> Named(all[i], nextId))
    && forall i, j :: 0 <= i < |all| && 0 <= j < |all| ==> (all[i].foundation == all[j].foundation <==> Alike(all[i], all[j]))
  }

  function Flat(components: seq<seq<Local>>): seq<Local> {
    if components == [] then [] else components[0] + Flat(components[1..])
  }

  ghost predicate NoneRedundant(xs: seq<Local>) {
    forall i, j :: 0 <= i < j < |xs| ==> !Redundant(xs[i], xs[j])
  }

  lemma {:induction false} FlatMember(components: seq<seq<Local>>, x: Local)
    ensures x in Flat(components) <==> exists c :: 0 <= c < |components| && x in components[c]
  {
    if components != [] {
      FlatMember(components[1..], x);
      if x in Flat(components[1..]) {
        var c :| 0 <= c < |components[1..]| && x in components[1..][c];
        assert x in components[c + 1];
      }
      if exists c :: 0 <= c < |components| && x in components[c] {
        var c :| 0 <= c < |components| && x in components[c];
        assert c == 0 || x in components[1..][c - 1];
      }
    }
  }

  // Only membership matters.
  lemma SameMembers(xs: seq<Local>, ys: seq<Local>, nextId: nat)
    requires FoundationsOk(xs, nextId) && forall y :: y in ys ==> y in xs
    ensures FoundationsOk(ys, nextId)
  {
    hide Named, Alike;
    forall i | 0 <= i < |ys|
      ensures exists j :: 0 <= j < |xs| && xs[j] == ys[i]
    {
      assert ys[i] in xs;
    }
  }

  class Agent {
    var components: seq<seq<Local>>
    var nextId: nat

    ghost predicate Valid()
      reads this
    {
      && FoundationsOk(Flat(components), nextId)
      && forall c :: 0 <= c < |components| ==> NoneRedundant(components[c])
    }

    constructor (n: nat)
      ensures Valid() && |components| == n && Flat(components) == []
    {
      components := seq(n, i => []);
      nextId := 1;
      new;
      NothingYet(components);
    }

    /** The foundation of the first present candidate that is alike, or a new one. */
    method AssignFoundation(x: Local) returns (foundation: string)
      requires Valid()
      modifies this`nextId
      ensures Valid() && nextId >= old(nextId)
      ensures FoundationsOk(Flat(components) + [x.(foundation := foundation)], nextId)
    {
      hide FoundationsOk, Flat, Alike;
      for c := 0 to |components|
        invariant Valid() && nextId == old(nextId)
        invariant forall d, k :: 0 <= d < c && 0 <= k < |components[d]| ==> !Alike(x, components[d][k])
      {
        for k := 0 to |components[c]|
          invariant Valid() && nextId == old(nextId)
          invariant forall j :: 0 <= j < k ==> !Alike(x, components[c][j])
        {
          if Alike(x, components[c][k]) {
            foundation := components[c][k].foundation;
            FlatMember(components, components[c][k]);
            CopiedFoundation(Flat(components), nextId, x, components[c][k]);
            return;
          }
        }
      }
      foundation := Digits(nextId);
      forall y | y in Flat(components)
        ensures !Alike(x, y)
      {
        FlatMember(components, y);
      }
      FreshFoundation(Flat(components), nextId, x);
      nextId := nextId + 1;
    }

    /** Adds a candidate unless it is redundant; what is present keeps distinct and correct foundations. */
    method AddLocal(c: nat, x: Local) returns (added: bool)
      requires Valid() && c < |components|
      modifies this`nextId, this`components
      ensures Valid() && |components| == |old(components)|
      ensures added <==> forall i :: 0 <= i < |old(components[c])| ==> !Redundant(old(components[c])[i], x)
      ensures !added ==> components == old(components)
      ensures added ==> exists f :: components == old(components)[c := old(components[c]) + [x.(foundation := f)]]
    {
      hide FoundationsOk, Flat, Redundant;
      var f := AssignFoundation(x);
      var y := x.(foundation := f);
      for i := 0 to |components[c]|
        invariant Valid() && components == old(components) && FoundationsOk(Flat(components) + [y], nextId)
        invariant forall j :: 0 <= j < i ==> !Redundant(components[c][j], x)
      {
        NameIrrelevant(components[c][i], x, f);
        if Redundant(components[c][i], y) {
          return false;
        }
      }
      ghost var before := Flat(components);
      ghost var was := components;
      components := components[c := components[c] + [y]];
      Appended(was, c, y);
      SameMembers(before + [y], Flat(components), nextId);
      forall j | 0 <= j < |was[c]|
        ensures !Redundant(was[c][j], y)
      {
        NameIrrelevant(was[c][j], x, f);
      }
      added := true;
    }

    // Candidates may go at any time.
    method RemoveLocal(c: nat, k: nat)
      requires Valid() && c < |components| && k < |components[c]|
      modifies this`components
      ensures Valid() && components == old(components)[c := old(components[c])[..k] + old(components[c])[k + 1..]]
    {
      hide FoundationsOk, Flat, Redundant;
      ghost var was := components;
      components := components[c := components[c][..k] + components[c][k + 1..]];
      forall y | y in Flat(components)
        ensures y in Flat(was)
      {
        FlatMember(components, y);
        FlatMember(was, y);
      }
      SameMembers(Flat(was), Flat(components), nextId);
    }
  }

  lemma {:induction false} NothingYet(components: seq<seq<Local>>)
    requires forall c :: 0 <= c < |components| ==> components[c] == []
    ensures Flat(components) == []
  {
    if components != [] {
      NothingYet(components[1..]);
    }
  }

  lemma NameIrrelevant(a: Local, x: Local, f: string)
    ensures Redundant(a, x.(foundation := f)) == Redundant(a, x)
  {
  }

  lemma Appended(components: seq<seq<Local>>, c: nat, y: Local)
    requires c < |components|
    ensures forall z :: z in Flat(components[c := components[c] + [y]]) ==> z in Flat(components) + [y]
  {
    hide Flat;
    var after := components[c := components[c] + [y]];
    forall z | z in Flat(after)
      ensures z in Flat(components) + [y]
    {
      FlatMember(after, z);
      FlatMember(components, z);
    }
  }

  lemma CopiedFoundation(all: seq<Local>, nextId: nat, x: Local, y: Local)
    requires FoundationsOk(all, nextId) && y in all && Alike(x, y)
    ensures FoundationsOk(all + [x.(foundation := y.foundation)], nextId)
  {
    var k :| 0 <= k < |all| && all[k] == y;
    var z := x.(foundation := y.foundation);
    assert Named(z, nextId) by {
      var m: nat :| m < nextId && y.foundation == Digits(m);
    }
    var after := all + [z];
    forall i | 0 <= i < |all|
      ensures (all[i].foundation == z.foundation <==> Alike(all[i], z)) && (all[i].foundation == z.foundation <==> Alike(z, all[i]))
    {
      assert all[i].foundation == all[k].foundation <==> Alike(all[i], all[k]);
    }
  }

  lemma FreshFoundation(all: seq<Local>, nextId: nat, x: Local)
    requires FoundationsOk(all, nextId) && forall y :: y in all ==> !Alike(x, y)
    ensures FoundationsOk(all, nextId + 1) && FoundationsOk(all + [x.(foundation := Digits(nextId))], nextId + 1)
  {
    var z := x.(foundation := Digits(nextId));
    forall i | 0 <= i < |all|
      ensures Named(all[i], nextId + 1) && all[i].foundation != z.foundation && !Alike(z, all[i]) && !Alike(all[i], z)
    {
      assert all[i] in all;
      var m: nat :| m < nextId && all[i].foundation == Digits(m);
      if Digits(m) == Digits(nextId) {
        DigitsInjective(m, nextId);
      }
    }
    assert Named(z, nextId + 1);
  }

  // ----- remote candidates

  function RemoteName(k: nat): string {
    "remote" + Digits(k)
  }

  lemma RemoteNameInjective(k: nat, m: nat)
    requires RemoteName(k) == RemoteName(m)
    ensures k == m
  {
    assert RemoteName(k)[6..] == Digits(k) && RemoteName(m)[6..] == Digits(m);
    DigitsInjective(k, m);
  }

  lemma {:induction false} BelowCount(hit: set<nat>, n: nat)
    requires forall i :: i in hit ==> i < n
    ensures |hit| <= n
    decreases n
  {
    if n == 0 {
      assert hit == {};
    } else {
      BelowCount(hit - {n - 1}, n - 1);
    }
  }

  /** The search ends, with the least index whose name no remote candidate has; it is at most one more
      than the number of remote candidates. */
  method HighestRemoteFoundation(foundations: seq<string>) returns (highest: nat)
    ensures 1 <= highest <= |foundations| + 1
    ensures RemoteName(highest) !in foundations
    ensures forall k :: 1 <= k < highest ==> RemoteName(k) in foundations
  {
    hide RemoteName;
    highest := 1;
    ghost var hit: set<nat> := {};
    while true
      invariant 1 <= highest && |hit| == highest - 1
      invariant forall i :: i in hit ==> i < |foundations| && exists k: nat :: k < highest && foundations[i] == RemoteName(k)
      invariant forall k :: 1 <= k < highest ==> RemoteName(k) in foundations
      decreases |foundations| - |hit|
    {
      BelowCount(hit, |foundations|);
      var taken := false;
      var i := 0;
      while i < |foundations| && !taken
        invariant 0 <= i <= |foundations|
        invariant taken ==> i < |foundations| && foundations[i] == RemoteName(highest)
        invariant !taken ==> RemoteName(highest) !in foundations[..i]
        decreases |foundations| - i, !taken
      {
        if foundations[i] == RemoteName(highest) {
          taken := true;
        } else {
          i := i + 1;
        }
      }
      if !taken {
        assert foundations[..i] == foundations;
        return;
      }
      assert i !in hit by {
        if i in hit {
          var k: nat :| k < highest && foundations[i] == RemoteName(k);
          RemoteNameInjective(k, highest);
        }
      }
      hit := hit + {i};
      BelowCount(hit, |foundations|);
      highest := highest + 1;
    }
  }
}
