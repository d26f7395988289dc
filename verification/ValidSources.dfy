/** The valid sources of a component: a bounded list of remote candidates from which data is accepted,
the last one used in front. */
module ValidSources {
  import opened Basics
  import opened CandidatePriority

  const MAX_VALID: nat := 50

  type Address = nat

  datatype Source = Source(addr: Address, transport: Transport)

  /** A packet from `addr` on a socket that is `stream`-like (TCP, or relayed over UDP) or plain UDP. */
  predicate Accepts(x: Source, addr: Address, streamSocket: bool) {
    (x.transport.Udp? || streamSocket) && x.addr == addr
  }

  // The first entry that accepts the packet is at `k`.
  predicate FirstHit(xs: seq<Source>, addr: Address, streamSocket: bool, k: nat) {
    k < |xs| && Accepts(xs[k], addr, streamSocket) && forall j :: 0 <= j < k ==> !Accepts(xs[j], addr, streamSocket)
  }

  // Moves the entry at `k` to the front.
  function ToFront<T>(xs: seq<T>, k: nat): seq<T>
    requires k < |xs|
  {
    [xs[k]] + xs[..k] + xs[k + 1..]
  }

  // Last uses, most recent first, all before `now`.
  predicate Recent(used: seq<nat>, now: nat) {
    && (forall i, j :: 0 <= i < j < |used| ==> used[i] > used[j])
    && forall i :: 0 <= i < |used| ==> used[i] < now
  }

  lemma ToFrontFacts(xs: seq<Source>, k: nat)
    requires k < |xs| && Distinct(xs)
    ensures Distinct(ToFront(xs, k)) && |ToFront(xs, k)| == |xs|
    ensures forall x :: x in ToFront(xs, k) <==> x in xs
  {
    var ys := ToFront(xs, k);
    assert forall i :: 0 <= i < |ys| ==> ys[i] == if i == 0 then xs[k] else if i <= k then xs[i - 1] else xs[i];
    forall x
      ensures x in ys <==> x in xs
    {
      if x in xs {
        var i :| 0 <= i < |xs| && xs[i] == x;
        assert ys[if i == k then 0 else if i < k then i + 1 else i] == x;
      }
    }
  }

  class Component {
    var sources: seq<Source>
    var fallback: bool
    ghost var used: seq<nat>
    ghost var now: nat

    /** Distinct targets, at most 51, in the order of their last insertion or hit. */
    ghost predicate Valid()
      reads this
    {
      Distinct(sources) && |sources| <= MAX_VALID + 1 && |used| == |sources| && Recent(used, now)
    }

    constructor ()
      ensures Valid() && sources == [] && !fallback
    {
      sources, fallback, used, now := [], false, [], 0;
    }

    /** A new target goes to the front; the 52nd entry evicts the one not used for the longest time. */
    method AddValid(x: Source)
      requires Valid()
      modifies this`sources, this`used, this`now
      ensures Valid()
      ensures if x in old(sources) then sources == old(sources)
              else if |old(sources)| <= MAX_VALID then sources == [x] + old(sources)
              else sources == [x] + old(sources)[..MAX_VALID]
      ensures x in sources
      ensures forall i, j :: 0 <= i < |old(sources)| && old(sources)[i] !in sources && 0 <= j < |old(sources)| && j != i ==>
                old(used)[j] > old(used)[i]
    {
      var count := 0;
      for k := 0 to |sources|
        invariant count == k && unchanged(this)
        invariant x !in sources[..k]
      {
        count := count + 1;
        if sources[k] == x {
          return;
        }
      }
      assert sources[..|sources|] == sources;
      ghost var was := sources;
      sources, used, now := [x] + sources, [now] + used, now + 1;
      if count > MAX_VALID {
        sources, used := sources[..|sources| - 1], used[..|used| - 1];
      }
      assert sources == if |was| <= MAX_VALID then [x] + was else [x] + was[..MAX_VALID];
      assert forall i :: 0 <= i < |was| - 1 ==> sources[i + 1] == was[i];
    }

    /** The answer is that of a plain search. The first hit moves to the front and counts as used now; every other
        entry keeps its place and its last use. Without a hit, or in fallback mode, nothing changes. */
    method Verify(addr: Address, streamSocket: bool) returns (ok: bool)
      requires Valid()
      modifies this`sources, this`used, this`now
      ensures Valid()
      ensures ok <==> fallback || exists x :: x in old(sources) && Accepts(x, addr, streamSocket)
      ensures forall k :: 0 <= k < |old(sources)| && !fallback && FirstHit(old(sources), addr, streamSocket, k) ==>
                && sources == ToFront(old(sources), k) && now == old(now) + 1
                && used == ToFront(old(used)[k := old(now)], k)
      ensures fallback || !ok ==> unchanged(this)
      ensures |sources| == |old(sources)| && forall x :: x in sources <==> x in old(sources)
    {
      if fallback {
        return true;
      }
      for k := 0 to |sources|
        invariant unchanged(this)
        invariant forall j :: 0 <= j < k ==> !Accepts(sources[j], addr, streamSocket)
      {
        if Accepts(sources[k], addr, streamSocket) {
          ToFrontFacts(sources, k);
          if k > 0 {
            sources := ToFront(sources, k);
          }
          assert k == 0 ==> ToFront(sources, 0) == sources;
          used := ToFront(used[k := now], k);
          now := now + 1;
          return true;
        }
      }
      return false;
    }
  }
}
