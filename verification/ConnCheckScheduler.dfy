/** Which request a tick sends, and which pairs unfreezing picks. */
module ConnCheckScheduler {
  import opened Basics
  import opened ConnCheckState
  import opened ConnCheckSpec
  import opened ConnCheckInvariants
  import opened ConnCheckSockets
  import opened ConnCheckTick
  import opened ConnCheckTicks
  import opened ConnCheckWalk

  // ----- unfreezing

  predicate FrozenWith(pairs: map<PairId, Pair>, id: PairId, f: string) {
    id in pairs && pairs[id].state.Frozen? && pairs[id].foundation == f
  }

  predicate WaitingWith(pairs: map<PairId, Pair>, id: PairId, f: string) {
    id in pairs && pairs[id].state.Waiting? && pairs[id].foundation == f
  }

  // The first FROZEN pair with foundation `f` along `ids`.
  function FirstFrozen(pairs: map<PairId, Pair>, ids: seq<PairId>, f: string): Option<PairId> {
    if ids == [] then None
    else if FrozenWith(pairs, ids[0], f) then Some(ids[0])
    else FirstFrozen(pairs, ids[1..], f)
  }

  lemma {:induction false} FirstFrozenExists(pairs: map<PairId, Pair>, ids: seq<PairId>, f: string)
    ensures match FirstFrozen(pairs, ids, f)
            case Some(x) => x in ids && FrozenWith(pairs, x, f)
            case None => forall x :: x in ids ==> !FrozenWith(pairs, x, f)
  {
    if ids != [] {
      FirstFrozenExists(pairs, ids[1..], f);
    }
  }

  lemma {:induction false} FirstFrozenOther(pairs: map<PairId, Pair>, ids: seq<PairId>, f: string, x: PairId, p: Pair)
    requires x in pairs && pairs[x].foundation != f && p.foundation == pairs[x].foundation
    ensures FirstFrozen(pairs[x := p], ids, f) == FirstFrozen(pairs, ids, f)
  {
    if ids != [] {
      FirstFrozenOther(pairs, ids[1..], f, x, p);
    }
  }

  /** Along a list, exactly the first FROZEN pair of each foundation not yet seen is unfrozen. */
  lemma {:induction false} UnfreezeAlongExact(pairs: map<PairId, Pair>, ids: seq<PairId>, seen: set<string>, id: PairId)
    requires id in pairs
    ensures var r := UnfreezeAlong(pairs, ids, seen);
            && id in r
            && r[id] == (if pairs[id].foundation !in seen && FirstFrozen(pairs, ids, pairs[id].foundation) == Some(id)
                         then pairs[id].(state := Waiting) else pairs[id])
    decreases |ids|
  {
    if ids != [] {
      var x, f := ids[0], pairs[id].foundation;
      if x in pairs && pairs[x].foundation !in seen && pairs[x].state.Frozen? {
        var p := pairs[x].(state := Waiting);
        UnfreezeAlongExact(pairs[x := p], ids[1..], seen + {p.foundation}, id);
        if f != p.foundation {
          FirstFrozenOther(pairs, ids[1..], f, x, p);
        }
      } else {
        UnfreezeAlongExact(pairs, ids[1..], seen, id);
      }
    }
  }

  lemma {:induction false} FlatHolds(lists: seq<seq<PairId>>, n: nat, id: PairId)
    requires n < |lists| && id in lists[n]
    ensures id in Flat(lists)
  {
    if n > 0 {
      assert lists[1..][n - 1] == lists[n];
      FlatHolds(lists[1..], n - 1, id);
    }
  }

  /** With no pair WAITING, unfreezing leaves exactly one WAITING pair for every foundation that had a
      FROZEN one, namely the first in stream and list order, and touches nothing else. */
  lemma UnfreezeNextExact(s: State, f: string)
    requires Inv(s) && !SomeWaiting(s)
    ensures var t := UnfreezeNext(s);
            var w := FirstFrozen(s.pairs, Flat(s.lists), f);
            && ((exists id :: FrozenWith(s.pairs, id, f)) <==> w.Some?)
            && (forall id: PairId :: WaitingWith(t.pairs, id, f) <==> w == Some(id))
            && (forall id :: id in s.pairs && s.pairs[id].foundation == f && w != Some(id) ==>
                  id in t.pairs && t.pairs[id] == s.pairs[id])
  {
    var t := UnfreezeNext(s);
    FirstFrozenExists(s.pairs, Flat(s.lists), f);
    forall id | FrozenWith(s.pairs, id, f)
      ensures id in Flat(s.lists)
    {
      ConnCheckFlat(s, id);
    }
    hide Inv, FirstFrozen, UnfreezeAlong, Flat;
    UnfreezeAlongTame(s.pairs, Flat(s.lists), {});
    forall id | id in s.pairs
      ensures id in t.pairs && t.pairs[id] ==
                (if FirstFrozen(s.pairs, Flat(s.lists), s.pairs[id].foundation) == Some(id)
                 then s.pairs[id].(state := Waiting) else s.pairs[id])
    {
      UnfreezeAlongExact(s.pairs, Flat(s.lists), {}, id);
    }
  }

  lemma ConnCheckFlat(s: State, id: PairId)
    requires Inv(s) && id in s.pairs
    ensures id in Flat(s.lists)
  {
    hide Sorted, Priced, ReadyIsClean, DisconnectedIsEmpty, NominatedIsSelected, Flat;
    FlatHolds(s.lists, s.comps[s.pairs[id].comp].stream, id);
  }

  /** The comment on the source promises that unfreezing is idempotent. */
  lemma UnfreezeNextIdempotent(s: State)
    requires Inv(s)
    ensures UnfreezeNext(UnfreezeNext(s)) == UnfreezeNext(s)
  {
    hide Inv, UnfreezeAlong, Flat;
    var t := UnfreezeNext(s);
    UnfreezeAlongTame(s.pairs, Flat(s.lists), {});
    if !SomeWaiting(t) {
      assert forall id :: id in s.pairs ==> id in t.pairs && t.pairs[id] == s.pairs[id];
      assert t.pairs == s.pairs;
    }
  }

  // ----- the request of a tick

  lemma {:induction false} FirstIsEarliest(xs: seq<nat>, p: nat -> bool, j: nat)
    requires First(xs, p).Some? && j < |xs| && p(xs[j])
    ensures exists k :: 0 <= k <= j && xs[k] == First(xs, p).value
  {
    if p(xs[0]) {
      assert xs[0] == First(xs, p).value;
    } else {
      FirstIsEarliest(xs[1..], p, j - 1);
      var k :| 0 <= k <= j - 1 && xs[1..][k] == First(xs[1..], p).value;
      assert xs[k + 1] == First(xs, p).value;
    }
  }

  /** The next WAITING pair of a stream has the highest priority of all its WAITING pairs. */
  lemma NextWaitingIsHighest(s: State, n: nat, id: PairId)
    requires Inv(s) && n < |s.lists| && NextWaiting(s, n).Some?
    requires id in s.lists[n] && id in s.pairs && s.pairs[id].state.Waiting?
    ensures s.pairs[id].priority <= s.pairs[NextWaiting(s, n).value].priority
  {
    hide WellFormed, Priced, ReadyIsClean, DisconnectedIsEmpty, NominatedIsSelected;
    var w := NextWaiting(s, n).value;
    var j :| 0 <= j < |s.lists[n]| && s.lists[n][j] == id;
    FirstIsEarliest(s.lists[n], x => x in s.pairs && s.pairs[x].state.Waiting?, j);
    var k :| 0 <= k <= j && s.lists[n][k] == w;
    assert SortedBy(s.lists[n], s.pairs);
  }

  lemma ReadyQueueShrinks(s: State, c: nat)
    requires c < |s.comps|
    ensures forall x :: x in UpdateForReady(s, c).queue ==> x in s.queue
  {
    hide FilterOut, ConcludeReady, PruneDrops, PruneCounts, PruneSilences, HasValidNominated;
    FilterOutMembers(s.queue, set id | id in s.pairs && PruneSilences(s, c, id));
    FilterOutMembers(Silenced(s, c).queue, PruneGone(s, c));
  }

  // A triggered check that is sent was queued.
  lemma {:induction false} TriggeredRecord(s: State, streams: nat, t: TickInput)
    requires TriggeredPhase(s, streams, t).1
    ensures var x := TriggeredPhase(s, streams, t).0.sent[|s.sent|]; x.Triggered? && x.id in s.queue
    decreases streams
  {
    hide FilterOut, Rejected, Started;
    var id := s.queue[0];
    var s1 := Dequeue(s, id);
    FilterOutMembers(s.queue, {id});
    var (s2, sent) := Initiate(s1, id, t, Triggered(id));
    if !sent {
      RejectedQueueShrinks(s1, id);
      TriggeredRecord(s2, streams - 1, t);
    }
  }

  lemma RejectedQueueShrinks(s: State, id: PairId)
    requires id in s.pairs && HasComp(s, s.pairs[id].comp)
    ensures forall x :: x in Rejected(s, id).queue ==> x in s.queue
  {
    hide UpdateForReady;
    var s1 := SetPair(s, id, s.pairs[id].(state := InProgress));
    ReadyQueueShrinks(FailPair(s1, id), s.pairs[id].comp);
  }

  // ----- what is left of a pair while nothing is sent

  // A list update of the tick turns the retransmission of `x` on: it is of no lower priority than the selected pair.
  predicate Revived(s: State, x: PairId) {
    x in s.pairs &&
    (var p := s.pairs[x];
     p.state.InProgress? && p.comp < |s.comps| && HasValidNominated(s, p.comp) && 0 < s.comps[p.comp].selPriority <= p.priority)
  }

  // Pairs go, and those that stay keep owner and flags ...
  predicate Wanes(s: State, u: State) {
    OnlyStates(s.comps, u.comps) && forall y :: y in u.pairs ==> y in s.pairs && SameStanding(s.pairs[y], u.pairs[y])
  }

  // ... and `x` may have failed or lost its transactions.
  predicate Lingers(s: State, u: State, x: PairId) {
    && Wanes(s, u)
    && (x in u.pairs ==>
          x in s.pairs && Thinned(s.pairs[x], u.pairs[x]) && (u.pairs[x].retransmit ==> s.pairs[x].retransmit || Revived(s, x)))
  }

  lemma RevivedBefore(s: State, u: State, x: PairId)
    requires Wanes(s, u) && x in s.pairs && x in u.pairs && Thinned(s.pairs[x], u.pairs[x]) && Revived(u, x)
    ensures Revived(s, x)
  {
    var c := u.pairs[x].comp;
    var y :| y in u.pairs && u.pairs[y].comp == c && u.pairs[y].valid && u.pairs[y].nominated;
    assert y in s.pairs && SameStanding(s.pairs[y], u.pairs[y]);
    assert u.comps[c].(state := s.comps[c].state) == s.comps[c];
  }

  lemma LingersTrans(s: State, t: State, u: State, x: PairId)
    requires Lingers(s, t, x) && Lingers(t, u, x)
    ensures Lingers(s, u, x)
  {
    hide Revived;
    if x in u.pairs && Revived(t, x) {
      RevivedBefore(s, t, x);
    }
  }

  lemma ThinsWanes(s: State, u: State)
    requires Thins(s, u)
    ensures Wanes(s, u)
  {
    forall y | y in u.pairs
      ensures y in s.pairs && SameStanding(s.pairs[y], u.pairs[y])
    {
      assert Thinned(s.pairs[y], u.pairs[y]);
    }
  }

  lemma PairsLinger(s: State, u: State, x: PairId)
    requires u.pairs == s.pairs && u.comps == s.comps
    ensures Lingers(s, u, x)
  {
    StepOver(s);
  }

  lemma UpdateLingers(s: State, c: nat, x: PairId)
    requires c < |s.comps|
    ensures Lingers(s, UpdateForReady(s, c), x)
  {
    hide UpdateForReady, Thinned;
    var t := UpdateForReady(s, c);
    UpdateForReadyThins(s, c);
    ThinsWanes(s, t);
    if x in t.pairs {
      UpdateRevives(s, c, x);
    }
  }

  lemma UpdateRevives(s: State, c: nat, x: PairId)
    requires c < |s.comps| && x in UpdateForReady(s, c).pairs && x in s.pairs
    ensures UpdateForReady(s, c).pairs[x].retransmit ==> s.pairs[x].retransmit || Revived(s, x)
  {
    hide FilterOut, ConcludeReady, PruneDrops, PruneCounts, HasValidNominated;
  }

  lemma FailLingers(s: State, y: PairId, x: PairId)
    requires y in s.pairs
    ensures Lingers(s, FailPair(s, y), x)
  {
    hide FailPair;
    FailThins(s, y);
    if x in s.pairs {
      FailRetransmits(s, y, x);
    }
    ThinsWanes(s, FailPair(s, y));
  }

  lemma FailRetransmits(s: State, y: PairId, x: PairId)
    requires y in s.pairs && x in s.pairs
    ensures FailPair(s, y).pairs[x].retransmit ==> s.pairs[x].retransmit
  {
  }

  lemma GivenUpLingers(s: State, y: PairId, x: PairId)
    requires y in s.pairs && s.pairs[y].comp < |s.comps|
    ensures Lingers(s, GivenUp(s, y), x)
  {
    hide FailPair, UpdateForReady, Lingers;
    FailLingers(s, y, x);
    FailComps(s, y);
    UpdateLingers(FailPair(s, y), s.pairs[y].comp, x);
    LingersTrans(s, FailPair(s, y), GivenUp(s, y), x);
  }

  lemma {:induction false} TriggeredLingers(s: State, streams: nat, t: TickInput, x: PairId)
    requires !TriggeredPhase(s, streams, t).1
    ensures Lingers(s, TriggeredPhase(s, streams, t).0, x)
    decreases streams
  {
    hide Lingers, Rejected, Started, FilterOut, GivenUp;
    PairsLinger(s, s, x);
    if streams > 0 && s.queue != [] {
      var y := s.queue[0];
      var s1 := Dequeue(s, y);
      PairsLinger(s, s1, x);
      if y in s.pairs && HasComp(s, s.pairs[y].comp) {
        PoppedUp(s, y);
        var s2 := GivenUp(s1, y);
        GivenUpLingers(s1, y, x);
        LingersTrans(s, s1, s2, x);
        TriggeredLingers(s2, streams - 1, t, x);
        LingersTrans(s, s2, TriggeredPhase(s2, streams - 1, t).0, x);
      }
    }
  }

  // A pair that is not visited.
  lemma TickPairLingers(s: State, y: PairId, t: TickInput, x: PairId)
    requires y in s.pairs && HasComp(s, s.pairs[y].comp) && x != y
    ensures Lingers(s, TickPair(s, y, t).0, x)
  {
    hide Lingers, UpdateForReady, FailPair, ScanStun;
    PairsLinger(s, s, x);
    GivenUpLingers(s, y, x);
    GivenUpIs(s, y);
    StunLingers(s, y, ScanStun(s.pairs[y].stun, true, s.pairs[y].retransmit, t).kept, x);
  }

  lemma StunLingers(s: State, y: PairId, stun: seq<Stun>, x: PairId)
    requires y in s.pairs && x != y
    ensures Lingers(s, SetPair(s, y, s.pairs[y].(stun := stun)), x)
    ensures Lingers(s, SetPair(s, y, s.pairs[y].(stun := stun)).(sent := s.sent + [Retransmitted(y)]), x)
  {
    StepOver(s);
  }

  lemma {:induction false} TickAlongLingers(s: State, ids: seq<PairId>, t: TickInput, x: PairId)
    requires x !in ids
    ensures Lingers(s, TickAlong(s, ids, t).0, x)
    decreases |ids|
  {
    hide Lingers, TickPair;
    PairsLinger(s, s, x);
    if ids != [] {
      if ids[0] in s.pairs && HasComp(s, s.pairs[ids[0]].comp) {
        var s1 := TickPair(s, ids[0], t).0;
        TickPairLingers(s, ids[0], t, x);
        TickAlongLingers(s1, ids[1..], t, x);
        LingersTrans(s, s1, TickAlong(s1, ids[1..], t).0, x);
      } else {
        TickAlongLingers(s, ids[1..], t, x);
      }
    }
  }

  // ----- a retransmission

  lemma {:induction false} OnlyHeadResent(xs: seq<Stun>, head: bool, retransmit: bool, t: TickInput)
    requires ScanStun(xs, head, retransmit, t).resent
    ensures head && retransmit && xs != [] && xs[0].nextTick <= t.now && xs[0].deadline <= t.now && xs[0].left > 0
    ensures ScanStun(xs, head, retransmit, t).kept == [SentAgain(xs[0], t)] + xs[1..]
  {
    if xs != [] && ScanStun(xs[1..], false, retransmit, t).resent {
      OnlyHeadResent(xs[1..], false, retransmit, t);
    }
  }

  function SentAgain(x: Stun, t: TickInput): Stun
    requires x.left > 0
  {
    x.(left := x.left - 1, nextTick := t.now + t.delay, deadline := t.now + t.delay)
  }

  /** In `s` the newest transaction of `id` is due, and the pair is retransmitted or about to be again. In `v` that
      transaction has used up one retransmission and waits for the next one. */
  predicate SendsAgain(s: State, t: TickInput, id: PairId, v: State) {
    && id in s.pairs && s.pairs[id].stun != []
    && (var x := s.pairs[id].stun[0];
        && x.nextTick <= t.now && x.deadline <= t.now && x.left > 0
        && (s.pairs[id].retransmit || Revived(s, id))
        && id in v.pairs && v.pairs[id].stun == [SentAgain(x, t)] + s.pairs[id].stun[1..])
  }

  lemma AgainBefore(s: State, u: State, t: TickInput, id: PairId, v: State)
    requires Lingers(s, u, id) && SendsAgain(u, t, id, v)
    ensures SendsAgain(s, t, id, v)
  {
    hide Revived;
    if Revived(u, id) {
      RevivedBefore(s, u, id);
    }
  }

  lemma TickPairAgain(s: State, y: PairId, t: TickInput)
    requires y in s.pairs && HasComp(s, s.pairs[y].comp) && TickPair(s, y, t).1
    ensures var r := TickPair(s, y, t); r.0.sent == s.sent + [Retransmitted(y)] && SendsAgain(s, t, y, r.0)
  {
    hide ScanStun, UpdateForReady, FailPair;
    OnlyHeadResent(s.pairs[y].stun, true, s.pairs[y].retransmit, t);
  }

  lemma {:induction false} TickAlongRecord(s: State, ids: seq<PairId>, t: TickInput)
    requires TickAlong(s, ids, t).1 && Distinct(ids)
    ensures var r := TickAlong(s, ids, t);
            r.0.sent[|s.sent|].Retransmitted? && r.0.sent[|s.sent|].id in ids && SendsAgain(s, t, r.0.sent[|s.sent|].id, r.0)
    decreases |ids|
  {
    hide TickPair, SendsAgain, Lingers;
    if !(ids[0] in s.pairs && HasComp(s, s.pairs[ids[0]].comp)) {
      TickAlongRecord(s, ids[1..], t);
    } else {
      var (s1, sent) := TickPair(s, ids[0], t);
      if sent {
        TickPairAgain(s, ids[0], t);
      } else {
        TickAlongRecord(s1, ids[1..], t);
        var r := TickAlong(s1, ids[1..], t);
        var id := r.0.sent[|s.sent|].id;
        TickPairLingers(s, ids[0], t, id);
        AgainBefore(s, s1, t, id, r.0);
      }
    }
  }

  lemma ListFact(s: State, n: nat, id: PairId)
    requires Inv(s) && n < |s.lists|
    ensures Distinct(s.lists[n])
    ensures id in s.lists[n] ==> id in s.pairs && HasComp(s, s.pairs[id].comp) && s.comps[s.pairs[id].comp].stream == n
    ensures id in s.pairs && HasComp(s, s.pairs[id].comp) && s.comps[s.pairs[id].comp].stream == n ==> id in s.lists[n]
  {
    hide Sorted, Priced, SelectionOk, ReadyIsClean, DisconnectedIsEmpty;
  }

  lemma {:induction false} StunRecord(s: State, n: nat, t: TickInput)
    requires Inv(s) && n <= |s.lists| && StunPhase(s, n, t).1
    ensures var r := StunPhase(s, n, t);
            && r.0.sent[|s.sent|].Retransmitted? && SendsAgain(s, t, r.0.sent[|s.sent|].id, r.0)
            && (exists m :: n <= m < |s.lists| && r.0.sent[|s.sent|].id in s.lists[m])
    decreases |s.lists| - n
  {
    hide Inv, Thawed, GatheringIsEmpty, NominatedIsSelected, TickAlong, SendsAgain, Lingers;
    var (s1, sent) := TickAlong(s, s.lists[n], t);
    ListFact(s, n, 0);
    if sent {
      TickAlongRecord(s, s.lists[n], t);
    } else {
      TickAlongKeeps(s, s.lists[n], t);
      StunRecord(s1, n + 1, t);
      var r := StunPhase(s1, n + 1, t);
      var id := r.0.sent[|s.sent|].id;
      var m :| n + 1 <= m < |s.lists| && id in s1.lists[m];
      ListFact(s1, m, id);
      TickAlongWanes(s, s.lists[n], t);
      WanedPlace(s, s1, id);
      ListFact(s, n, id);
      ListFact(s, m, id);
      TickAlongLingers(s, s.lists[n], t, id);
      AgainBefore(s, s1, t, id, r.0);
    }
  }

  lemma WanedPlace(s: State, u: State, id: PairId)
    requires Wanes(s, u) && SameShape(s, u) && id in u.pairs && HasComp(u, u.pairs[id].comp)
    ensures id in s.pairs && HasComp(s, s.pairs[id].comp)
    ensures s.comps[s.pairs[id].comp].stream == u.comps[u.pairs[id].comp].stream
  {
    assert SameStanding(s.pairs[id], u.pairs[id]);
  }

  lemma {:induction false} TickAlongWanes(s: State, ids: seq<PairId>, t: TickInput)
    ensures Wanes(s, TickAlong(s, ids, t).0)
    decreases |ids|
  {
    hide TickAlong, SameExposure, AlongFails;
    TickAlongZero(s, ids, t);
    ExposureWanes(s, TickAlong(s, ids, t).0);
  }

  lemma ExposureWanes(s: State, u: State)
    requires SameExposure(s, u)
    ensures Wanes(s, u)
  {
  }

  // ----- an ordinary check

  // Pairs go, fail or thaw.
  predicate Ages(s: State, u: State) {
    OnlyStates(s.comps, u.comps) && forall x :: x in u.pairs ==> x in s.pairs && Aged(s.pairs[x], u.pairs[x])
  }

  predicate Aged(p: Pair, q: Pair) {
    && q.comp == p.comp && q.priority == p.priority
    && (q.state == p.state || q.state.FailedCheck? || (p.state.Frozen? && q.state.Waiting?))
  }

  lemma AgesTrans(s: State, t: State, u: State)
    requires Ages(s, t) && Ages(t, u)
    ensures Ages(s, u)
  {
    forall x | x in u.pairs
      ensures x in s.pairs && Aged(s.pairs[x], u.pairs[x])
    {
      assert Aged(t.pairs[x], u.pairs[x]) && Aged(s.pairs[x], t.pairs[x]);
    }
  }

  lemma AgesPairs(s: State, u: State)
    requires u.pairs == s.pairs && u.comps == s.comps
    ensures Ages(s, u)
  {
    StepOver(s);
  }

  lemma GivenUpAges(s: State, y: PairId)
    requires y in s.pairs && s.pairs[y].comp < |s.comps|
    ensures Ages(s, GivenUp(s, y))
  {
    hide FailPair, UpdateForReady, Thinned;
    FailComps(s, y);
    FailThins(s, y);
    UpdateForReadyThins(FailPair(s, y), s.pairs[y].comp);
    ThinsTrans(s, FailPair(s, y), GivenUp(s, y));
    ThinsAges(s, GivenUp(s, y));
  }

  lemma ThinsAges(s: State, u: State)
    requires Thins(s, u)
    ensures Ages(s, u)
  {
    forall x | x in u.pairs
      ensures x in s.pairs && Aged(s.pairs[x], u.pairs[x])
    {
      assert Thinned(s.pairs[x], u.pairs[x]);
    }
  }

  lemma {:induction false} TriggeredAges(s: State, streams: nat, t: TickInput)
    requires !TriggeredPhase(s, streams, t).1
    ensures Ages(s, TriggeredPhase(s, streams, t).0)
    decreases streams
  {
    hide Ages, Rejected, Started, FilterOut, GivenUp;
    AgesPairs(s, s);
    if streams > 0 && s.queue != [] {
      var y := s.queue[0];
      var s1 := Dequeue(s, y);
      AgesPairs(s, s1);
      if y in s.pairs && HasComp(s, s.pairs[y].comp) {
        PoppedUp(s, y);
        var s2 := GivenUp(s1, y);
        GivenUpAges(s1, y);
        AgesTrans(s, s1, s2);
        TriggeredAges(s2, streams - 1, t);
        AgesTrans(s, s2, TriggeredPhase(s2, streams - 1, t).0);
      }
    }
  }

  lemma TickPairAges(s: State, y: PairId, t: TickInput)
    requires y in s.pairs && HasComp(s, s.pairs[y].comp)
    ensures Ages(s, TickPair(s, y, t).0)
  {
    hide Ages, UpdateForReady, FailPair, ScanStun;
    AgesPairs(s, s);
    GivenUpAges(s, y);
    GivenUpIs(s, y);
    StunAges(s, y, ScanStun(s.pairs[y].stun, true, s.pairs[y].retransmit, t).kept);
  }

  lemma StunAges(s: State, y: PairId, stun: seq<Stun>)
    requires y in s.pairs
    ensures Ages(s, SetPair(s, y, s.pairs[y].(stun := stun)))
    ensures Ages(s, SetPair(s, y, s.pairs[y].(stun := stun)).(sent := s.sent + [Retransmitted(y)]))
  {
    StepOver(s);
  }

  lemma {:induction false} TickAlongAges(s: State, ids: seq<PairId>, t: TickInput)
    ensures Ages(s, TickAlong(s, ids, t).0)
    decreases |ids|
  {
    hide Ages, TickPair;
    AgesPairs(s, s);
    if ids != [] {
      if ids[0] in s.pairs && HasComp(s, s.pairs[ids[0]].comp) {
        var s1 := TickPair(s, ids[0], t).0;
        TickPairAges(s, ids[0], t);
        TickAlongAges(s1, ids[1..], t);
        AgesTrans(s, s1, TickAlong(s1, ids[1..], t).0);
      } else {
        TickAlongAges(s, ids[1..], t);
      }
    }
  }

  lemma {:induction false} StunPhaseAges(s: State, n: nat, t: TickInput)
    requires n <= |s.lists|
    ensures Ages(s, StunPhase(s, n, t).0)
    decreases |s.lists| - n
  {
    hide Ages, TickAlong;
    AgesPairs(s, s);
    if n < |s.lists| {
      var s1 := TickAlong(s, s.lists[n], t).0;
      TickAlongAges(s, s.lists[n], t);
      StunPhaseAges(s1, n + 1, t);
      AgesTrans(s, s1, StunPhase(s1, n + 1, t).0);
    }
  }

  lemma UnfreezeAges(s: State)
    ensures Ages(s, UnfreezeNext(s))
  {
    hide UnfreezeAlong, Flat;
    StepOver(s);
    UnfreezeAlongTame(s.pairs, Flat(s.lists), {});
  }

  lemma OrdinaryAges(s: State, n: nat, t: TickInput)
    requires n < |s.lists| && !OrdinaryCheck(s, n, t).1
    ensures Ages(s, OrdinaryCheck(s, n, t).0)
  {
    hide Ages, UnfreezeNext, Rejected, Started, GivenUp;
    AgesPairs(s, s);
    UnfreezeAges(s);
    var s1 := if NextWaiting(s, n).None? then UnfreezeNext(s) else s;
    var w := NextWaiting(s1, n);
    if w.Some? && HasComp(s1, s1.pairs[w.value].comp) {
      RejectedIsFailed(s1, w.value);
      GivenUpIs(s1, w.value);
      GivenUpAges(s1, w.value);
      AgesTrans(s, s1, GivenUp(s1, w.value));
    }
  }

  /** In `s` the pair `id` is WAITING or FROZEN, and every pair of its list that was WAITING with a higher priority is
      gone or FAILED in `v`, where `id` is in progress. */
  predicate ChecksHighest(s: State, id: PairId, v: State) {
    && id in s.pairs && Pending(s.pairs[id]) && id in v.pairs && v.pairs[id].state.InProgress? && HasComp(s, s.pairs[id].comp)
    && forall x :: x in s.pairs && Precedes(s, x, id) ==> x !in v.pairs || v.pairs[x].state.FailedCheck?
  }

  // `x` is WAITING in the list of `y`, with a higher priority.
  predicate Precedes(s: State, x: PairId, y: PairId)
    requires x in s.pairs && y in s.pairs
  {
    && HasComp(s, s.pairs[x].comp) && HasComp(s, s.pairs[y].comp)
    && s.comps[s.pairs[x].comp].stream == s.comps[s.pairs[y].comp].stream
    && s.pairs[x].state.Waiting? && s.pairs[x].priority > s.pairs[y].priority
  }

  lemma HighestBefore(s: State, u: State, id: PairId, v: State)
    requires Inv(s) && Ages(s, u) && SameShape(s, u) && ChecksHighest(u, id, v)
    requires forall x :: x in v.pairs && x in s.pairs ==> x in u.pairs
    requires forall x :: x in u.pairs && u.pairs[x].state.FailedCheck? && x in v.pairs ==> v.pairs[x].state.FailedCheck?
    ensures ChecksHighest(s, id, v)
  {
    hide Inv, OnlyStates;
    assert Aged(s.pairs[id], u.pairs[id]);
    forall x | x in s.pairs && Precedes(s, x, id) && x in v.pairs
      ensures v.pairs[x].state.FailedCheck?
    {
      assert Aged(s.pairs[x], u.pairs[x]);
    }
  }

  lemma StartsHighest(u: State, n: nat, id: PairId, t: TickInput)
    requires Inv(u) && n < |u.lists| && NextWaiting(u, n) == Some(id) && HasComp(u, u.pairs[id].comp) && t.send(id).SentOn?
    ensures var v := Initiate(u, id, t, Ordinary(id)).0;
            && ChecksHighest(u, id, v) && v.pairs.Keys == u.pairs.Keys
            && (forall x :: x in u.pairs && u.pairs[x].state.FailedCheck? ==> v.pairs[x].state.FailedCheck?)
  {
    hide Inv;
    HighestWitness(u, n);
    ListFact(u, n, id);
    forall x | x in u.pairs
      ensures !Precedes(u, x, id)
    {
      ListFact(u, n, x);
    }
  }

  lemma {:induction false} OrdinaryRecord(s: State, n: nat, t: TickInput)
    requires Inv(s) && n <= |s.lists| && OrdinaryPhase(s, n, t).1
    ensures var r := OrdinaryPhase(s, n, t);
            && r.0.sent[|s.sent|].Ordinary? && ChecksHighest(s, r.0.sent[|s.sent|].id, r.0)
            && r.0.pairs.Keys <= s.pairs.Keys
            && (forall x :: x in r.0.pairs && s.pairs[x].state.FailedCheck? ==> r.0.pairs[x].state.FailedCheck?)
    decreases |s.lists| - n
  {
    hide Inv, Thawed, GatheringIsEmpty, NominatedIsSelected, UnfreezeNext, Rejected, Started, ChecksHighest, OnlyStates, First;
    var (s1, sent) := OrdinaryCheck(s, n, t);
    if sent {
      UnfreezeNextKeeps(s);
      UnfreezeAges(s);
      AgesPairs(s, s);
      var u := if NextWaiting(s, n).None? then UnfreezeNext(s) else s;
      var id := NextWaiting(u, n).value;
      StartsHighest(u, n, id, t);
      UnfreezeKeys(s);
      HighestBefore(s, u, id, s1);
    } else {
      OrdinaryKeeps(s, n, t);
      OrdinaryAges(s, n, t);
      OrdinaryRecord(s1, n + 1, t);
      HighestBefore(s, s1, OrdinaryPhase(s1, n + 1, t).0.sent[|s.sent|].id, OrdinaryPhase(s1, n + 1, t).0);
    }
  }

  lemma UnfreezeKeys(s: State)
    ensures UnfreezeNext(s).pairs.Keys == s.pairs.Keys
  {
    hide UnfreezeAlong, Flat;
    UnfreezeAlongTame(s.pairs, Flat(s.lists), {});
  }

  /** One tick sends at most one request. A triggered check goes first, and it was queued; a retransmission
      is sent only if no triggered check was, for a transaction that was due; an ordinary check only if
      neither was, for a WAITING or FROZEN pair, and the pairs of its list that were WAITING above it are gone
      or have failed. */
  lemma SchedulerGuarantee(s: State, t: TickInput)
    requires Inv(s)
    ensures var r, k := SendPhases(s, t), |s.sent|;
            var (s1, triggered) := TriggeredPhase(s, |s.lists|, t);
            && (r.1 <==> |r.0.sent| == k + 1) && (!r.1 <==> r.0.sent == s.sent)
            && (r.1 ==> r.0.sent[..k] == s.sent)
            && (r.1 ==> (r.0.sent[k].Triggered? <==> triggered))
            && (r.1 && !triggered ==> (r.0.sent[k].Retransmitted? <==> StunPhase(s1, 0, t).1))
            && (r.1 && r.0.sent[k].Triggered? ==> r.0.sent[k].id in s.queue)
            && (r.1 && r.0.sent[k].Retransmitted? ==> SendsAgain(s, t, r.0.sent[k].id, r.0))
            && (r.1 && r.0.sent[k].Ordinary? ==> ChecksHighest(s, r.0.sent[k].id, r.0))
  {
    hide TriggeredPhase, StunPhase, OrdinaryPhase, Inv, SendsAgain, ChecksHighest, Lingers, Thawed, GatheringIsEmpty,
      NominatedIsSelected;
    var (s1, sent1) := TriggeredPhase(s, |s.lists|, t);
    if sent1 {
      TriggeredRecord(s, |s.lists|, t);
    } else {
      TriggeredKeeps(s, |s.lists|, t);
      var (s2, sent2) := StunPhase(s1, 0, t);
      if sent2 {
        StunRecord(s1, 0, t);
        var id := s2.sent[|s.sent|].id;
        TriggeredLingers(s, |s.lists|, t, id);
        AgainBefore(s, s1, t, id, s2);
      } else if SendPhases(s, t).1 {
        OrdinaryGuarantee(s, t);
      }
    }
  }

  lemma OrdinaryGuarantee(s: State, t: TickInput)
    requires Inv(s)
    requires var (s1, sent1) := TriggeredPhase(s, |s.lists|, t); !sent1 && !StunPhase(s1, 0, t).1 && SendPhases(s, t).1
    ensures var v := SendPhases(s, t).0; v.sent[|s.sent|].Ordinary? && ChecksHighest(s, v.sent[|s.sent|].id, v)
  {
    hide TriggeredPhase, StunPhase, OrdinaryPhase, Inv, ChecksHighest, OnlyStates, Thawed, GatheringIsEmpty, NominatedIsSelected,
      Aged;
    var s1 := TriggeredPhase(s, |s.lists|, t).0;
    var s2 := StunPhase(s1, 0, t).0;
    TriggeredKeeps(s, |s.lists|, t);
    StunPhaseKeeps(s1, 0, t);
    OrdinaryRecord(s2, 0, t);
    TriggeredAges(s, |s.lists|, t);
    StunPhaseAges(s1, 0, t);
    AgesTrans(s, s1, s2);
    HighestBefore(s, s2, OrdinaryPhase(s2, 0, t).0.sent[|s.sent|].id, OrdinaryPhase(s2, 0, t).0);
  }

  lemma HighestWitness(u: State, m: nat)
    requires Inv(u) && m < |u.lists| && NextWaiting(u, m).Some?
    ensures forall x :: x in u.lists[m] && x in u.pairs && u.pairs[x].state.Waiting? ==>
              u.pairs[x].priority <= u.pairs[NextWaiting(u, m).value].priority
  {
    hide Inv;
    forall x | x in u.lists[m] && x in u.pairs && u.pairs[x].state.Waiting?
      ensures u.pairs[x].priority <= u.pairs[NextWaiting(u, m).value].priority
    {
      NextWaitingIsHighest(u, m, x);
    }
  }

  // ----- the pair to be nominated

  // An eligible pair of the list whose check is of the kind of `like`.
  predicate Compatible(s: State, c: nat, like: Option<PairId>, x: PairId) {
    Eligible(s, c, x) && like.Some? && SameKind(s, Parent(s, x), like.value)
  }

  // `x` has the highest priority of the pairs of `ids` that satisfy `p`.
  ghost predicate BestOf(s: State, ids: seq<PairId>, p: PairId -> bool, x: PairId) {
    && x in ids && x in s.pairs && p(x)
    && forall y :: y in ids && y in s.pairs && p(y) ==> s.pairs[y].priority <= s.pairs[x].priority
  }

  lemma BestFirst(s: State, ids: seq<PairId>, p: PairId -> bool)
    requires ids != [] && ids[0] in s.pairs && p(ids[0]) && SortedBy(ids, s.pairs)
    ensures BestOf(s, ids, p, ids[0])
  {
    forall y | y in ids && y in s.pairs && p(y)
      ensures s.pairs[y].priority <= s.pairs[ids[0]].priority
    {
      var k :| 0 <= k < |ids| && ids[k] == y;
    }
  }

  lemma BestLater(s: State, ids: seq<PairId>, p: PairId -> bool, x: PairId)
    requires ids != [] && BestOf(s, ids[1..], p, x) && !(ids[0] in s.pairs && p(ids[0]))
    ensures BestOf(s, ids, p, x)
  {
    assert forall y :: y in ids <==> y == ids[0] || y in ids[1..];
  }

  ghost function IsEligible(s: State, c: nat): PairId -> bool {
    (x: PairId) => Eligible(s, c, x)
  }

  ghost function IsCompatible(s: State, c: nat, like: Option<PairId>): PairId -> bool {
    (x: PairId) => Compatible(s, c, like, x)
  }

  /** Regular nomination picks, for the check that produced it, the highest-priority valid pair among those of
      the kind of a pair already nominated elsewhere; and if there is none, among all of them. */
  lemma {:induction false} ChooseIsBest(s: State, c: nat, ids: seq<PairId>, like: Option<PairId>)
    requires SortedBy(ids, s.pairs)
    ensures var r := Choose(s, c, ids, like);
            && (r.pick.None? <==> forall x :: x in ids ==> !Eligible(s, c, x))
            && (r.matched <==> exists x :: x in ids && Compatible(s, c, like, x))
            && (r.matched ==>
                  exists x :: x in s.pairs && BestOf(s, ids, IsCompatible(s, c, like), x) && r.pick == Some(Parent(s, x)))
            && (r.pick.Some? && !r.matched ==>
                  exists x :: x in s.pairs && BestOf(s, ids, IsEligible(s, c), x) && r.pick == Some(Parent(s, x)))
  {
    hide Eligible, SameKind, Parent, BestOf, SortedBy;
    if ids != [] {
      SortedTail(ids, s.pairs);
      ChooseIsBest(s, c, ids[1..], like);
      EligibleIsPair(s, c, ids[0]);
      var r, rest := Choose(s, c, ids, like), Choose(s, c, ids[1..], like);
      assert forall y :: y in ids <==> y == ids[0] || y in ids[1..];
      if Eligible(s, c, ids[0]) {
        BestFirst(s, ids, IsEligible(s, c));
        if Compatible(s, c, like, ids[0]) {
          BestFirst(s, ids, IsCompatible(s, c, like));
        }
      }
      if rest.matched && !Compatible(s, c, like, ids[0]) {
        var x :| x in s.pairs && BestOf(s, ids[1..], IsCompatible(s, c, like), x) && rest.pick == Some(Parent(s, x));
        BestLater(s, ids, IsCompatible(s, c, like), x);
      }
      if rest.pick.Some? && !rest.matched && !Eligible(s, c, ids[0]) {
        var x :| x in s.pairs && BestOf(s, ids[1..], IsEligible(s, c), x) && rest.pick == Some(Parent(s, x));
        BestLater(s, ids, IsEligible(s, c), x);
      }
    }
  }

  lemma SortedTail(ids: seq<PairId>, pairs: map<PairId, Pair>)
    requires ids != [] && SortedBy(ids, pairs)
    ensures SortedBy(ids[1..], pairs)
  {
  }

  lemma EligibleIsPair(s: State, c: nat, x: PairId)
    ensures Eligible(s, c, x) ==> x in s.pairs
  {
  }
}
