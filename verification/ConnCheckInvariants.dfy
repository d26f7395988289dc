/** What every handler keeps. `Keeps(s, t)` is what the lemmas below conclude for a handler that
turns `s` into `t`: the machine's invariants, the three invariants that need a hypothesis on the run,
and no new failed assertion but the one on the selected priority. */
module ConnCheckInvariants {
  import opened CandidatePriority
  import opened ConnCheckState
  import opened ConnCheckSpec

  /** A GATHERING component owns no pair. */
  predicate GatheringIsEmpty(pairs: map<PairId, Pair>, comps: seq<Component>) {
    forall id :: id in pairs && pairs[id].comp < |comps| ==> !comps[pairs[id].comp].state.Gathering?
  }

  predicate Keeps(s: State, t: State) {
    && Inv(t)
    && (Thawed(s.pairs) ==> Thawed(t.pairs))
    && (GatheringIsEmpty(s.pairs, s.comps) ==> GatheringIsEmpty(t.pairs, t.comps))
    && (NominatedIsSelected(s.pairs, s.comps) ==> NominatedIsSelected(t.pairs, t.comps) && t.fault == s.fault)
    && Excused(s.fault, t.fault)
  }

  // Without NominatedIsSelected, the assertion on the selected priority may fail.
  predicate Excused(before: Fault, after: Fault) {
    after == before || (before.NoFault? && after.ZeroSelectedPriority?)
  }

  // ----- changes that cannot break anything

  // The fields the invariants read do not change, except towards fewer obligations.
  predicate TamePair(p: Pair, q: Pair) {
    && q.comp == p.comp && q.local == p.local && q.remote == p.remote && q.priority == p.priority
    && q.discovered == p.discovered && q.succeeded == p.succeeded
    && (q.nominated ==> p.nominated)
    && (Pending(q) ==> Pending(p))
  }

  predicate Tame(s: State, t: State) {
    && t.lists == s.lists && t.comps == s.comps && t.cands == s.cands && t.controlling == s.controlling
    && t.nextPair == s.nextPair && t.nextCand == s.nextCand && t.fault == s.fault
    && t.pairs.Keys == s.pairs.Keys
    && (forall id :: id in s.pairs ==> TamePair(s.pairs[id], t.pairs[id]))
    && (t.queue == s.queue || QueueOk(t.queue, t.pairs))
  }

  // Foundations stay, and no pair becomes FROZEN or SUCCEEDED.
  predicate CalmPair(p: Pair, q: Pair) {
    && q.foundation == p.foundation
    && (q.state.Frozen? ==> p.state.Frozen?)
    && (q.state.Succeeded? ==> p.state.Succeeded?)
  }

  predicate Calm(s: State, t: State) {
    forall id :: id in s.pairs && id in t.pairs ==> CalmPair(s.pairs[id], t.pairs[id])
  }

  // Beside the links, well-formedness reads of a pair only its owner and its ends, and of a component its stream.
  predicate SameBones(pairs: map<PairId, Pair>, pairs': map<PairId, Pair>) {
    && pairs'.Keys == pairs.Keys
    && forall id :: id in pairs ==>
         && pairs'[id].comp == pairs[id].comp
         && pairs'[id].local == pairs[id].local && pairs'[id].remote == pairs[id].remote
  }

  predicate SameStreams(comps: seq<Component>, comps': seq<Component>) {
    |comps'| == |comps| && forall c :: 0 <= c < |comps| ==> comps'[c].stream == comps[c].stream
  }

  lemma ListsFollow(lists: seq<seq<PairId>>, pairs: map<PairId, Pair>, pairs': map<PairId, Pair>,
                    comps: seq<Component>, comps': seq<Component>)
    requires ListsOk(lists, pairs, comps) && SameBones(pairs, pairs') && SameStreams(comps, comps')
    ensures ListsOk(lists, pairs', comps')
  {
    forall n | 0 <= n < |lists|
      ensures ListOk(lists[n], n, pairs', comps')
    {
      assert ListOk(lists[n], n, pairs, comps);
    }
  }

  lemma SortedFollows(lists: seq<seq<PairId>>, pairs: map<PairId, Pair>, pairs': map<PairId, Pair>)
    requires Sorted(lists, pairs)
    requires pairs'.Keys == pairs.Keys && forall id :: id in pairs ==> pairs'[id].priority == pairs[id].priority
    ensures Sorted(lists, pairs')
  {
    forall n | 0 <= n < |lists|
      ensures SortedBy(lists[n], pairs')
    {
      assert SortedBy(lists[n], pairs);
    }
  }

  lemma LinksFollow(pairs: map<PairId, Pair>, pairs': map<PairId, Pair>, nextPair: PairId)
    requires LinksOk(pairs, nextPair) && SameBones(pairs, pairs')
    requires forall id :: id in pairs ==>
               pairs'[id].discovered == pairs[id].discovered && pairs'[id].succeeded == pairs[id].succeeded
    ensures LinksOk(pairs', nextPair)
  {
  }

  lemma WellFormedFollows(s: State, t: State)
    requires WellFormed(s) && QueueOk(t.queue, t.pairs) && LinksOk(t.pairs, t.nextPair)
    requires t.lists == s.lists && t.cands == s.cands && t.nextPair == s.nextPair && t.nextCand == s.nextCand
    requires SameBones(s.pairs, t.pairs) && SameStreams(s.comps, t.comps)
    ensures WellFormed(t)
  {
    ListsFollow(s.lists, s.pairs, t.pairs, s.comps, t.comps);
    hide ListsOk, QueueOk, CandsOk, LinksOk;
  }

  lemma SameQueue(s: State, t: State)
    requires WellFormed(s) && t.queue == s.queue && t.pairs.Keys == s.pairs.Keys
    ensures QueueOk(t.queue, t.pairs) && LinksOk(s.pairs, s.nextPair)
  {
  }

  lemma TameKeepsInv(s: State, t: State)
    requires Inv(s) && Tame(s, t)
    ensures Inv(t)
  {
    assert QueueOk(t.queue, t.pairs);
    LinksFollow(s.pairs, t.pairs, s.nextPair);
    WellFormedFollows(s, t);
    SortedFollows(s.lists, s.pairs, t.pairs);
  }

  lemma TameKeeps(s: State, t: State)
    requires Inv(s) && Tame(s, t) && Calm(s, t)
    ensures Keeps(s, t)
  {
    TameKeepsInv(s, t);
    hide Inv;
  }

  lemma SetPairKeeps(s: State, id: PairId, p: Pair)
    requires Inv(s) && id in s.pairs && TamePair(s.pairs[id], p) && CalmPair(s.pairs[id], p)
    ensures Keeps(s, SetPair(s, id, p))
  {
    hide Inv, Thawed, GatheringIsEmpty, NominatedIsSelected;
    TameKeeps(s, SetPair(s, id, p));
  }

  // Single facts of the invariant, for proofs that do not unfold the rest.
  lemma QueueFact(s: State)
    requires Inv(s)
    ensures QueueOk(s.queue, s.pairs)
  {
  }

  lemma SelectedFact(s: State, c: nat)
    requires NominatedIsSelected(s.pairs, s.comps) && c < |s.comps|
    ensures HasValidNominated(s, c) ==> s.comps[c].selPriority > 0
  {
  }

  // The timer and the wire carry no invariant.
  lemma TimerKeeps(s: State, t: State)
    requires Inv(s) && t == s.(timerOn := t.timerOn, idleDelay := t.idleDelay, sent := t.sent)
    ensures Keeps(s, t)
  {
  }

  // A failed assertion leaves the rest of the state alone.
  lemma FaultKeeps(s: State, f: Fault)
    requires Inv(s)
    ensures Inv(Faulted(s, f))
  {
  }

  // ----- the queue

  lemma EnqueueKeeps(s: State, id: PairId)
    requires Inv(s) && id in s.pairs
    ensures Keeps(s, Enqueue(s, id))
  {
    TameKeeps(s, Enqueue(s, id));
  }

  lemma DequeueKeeps(s: State, id: PairId)
    requires Inv(s)
    ensures Keeps(s, Dequeue(s, id))
  {
    FilterOutMembers(s.queue, {id});
    FilterOutDistinct(s.queue, {id});
    TameKeeps(s, Dequeue(s, id));
  }

  // ----- freeing pairs

  lemma QuietQueueOk(queue: seq<PairId>, pairs: map<PairId, Pair>, quiet: set<PairId>)
    requires QueueOk(queue, pairs)
    ensures QueueOk(FilterOut(queue, quiet), pairs)
  {
    FilterOutMembers(queue, quiet);
    FilterOutDistinct(queue, quiet);
  }

  lemma {:induction false} FilterOutSorted(xs: seq<PairId>, gone: set<PairId>, pairs: map<PairId, Pair>)
    requires SortedBy(xs, pairs)
    ensures SortedBy(FilterOut(xs, gone), pairs - gone)
  {
    if xs != [] {
      var rest := FilterOut(xs[1..], gone);
      FilterOutSorted(xs[1..], gone, pairs);
      FilterOutMembers(xs[1..], gone);
      forall x | x in rest && x in pairs && xs[0] in pairs
        ensures pairs[xs[0]].priority >= pairs[x].priority
      {
        var k :| 0 <= k < |xs[1..]| && xs[1..][k] == x;
        assert xs[k + 1] == x;
      }
    }
  }

  lemma RemoveLists(s: State, gone: set<PairId>, n: nat)
    requires n < |s.lists| && ListOk(s.lists[n], n, s.pairs, s.comps) && SortedBy(s.lists[n], s.pairs)
    ensures var t := RemovePairs(s, gone);
            && ListOk(t.lists[n], n, t.pairs, t.comps) && SortedBy(t.lists[n], t.pairs)
            && forall id :: id in t.lists[n] <==> id in s.lists[n] && id !in gone
  {
    FilterOutMembers(s.lists[n], gone);
    FilterOutDistinct(s.lists[n], gone);
    FilterOutSorted(s.lists[n], gone, s.pairs);
    hide SortedBy;
  }

  lemma RemoveAllLists(s: State, gone: set<PairId>)
    requires ListsOk(s.lists, s.pairs, s.comps) && Sorted(s.lists, s.pairs)
    requires PairsListed(s.pairs, s.lists, s.comps)
    ensures var t := RemovePairs(s, gone);
            ListsOk(t.lists, t.pairs, t.comps) && Sorted(t.lists, t.pairs) && PairsListed(t.pairs, t.lists, t.comps)
  {
    hide FilterOut, SortedBy, ListOk;
    var t := RemovePairs(s, gone);
    forall n | 0 <= n < |s.lists|
      ensures ListOk(t.lists[n], n, t.pairs, t.comps) && SortedBy(t.lists[n], t.pairs)
      ensures forall id :: id in t.lists[n] <==> id in s.lists[n] && id !in gone
    {
      RemoveLists(s, gone, n);
    }
  }

  lemma RemoveWellFormed(s: State, gone: set<PairId>)
    requires WellFormed(s) && Sorted(s.lists, s.pairs)
    ensures var t := RemovePairs(s, gone); WellFormed(t) && Sorted(t.lists, t.pairs)
  {
    hide FilterOut, ListsOk, Sorted, PairsListed;
    RemoveAllLists(s, gone);
    QuietQueueOk(s.queue, s.pairs, gone);
    FilterOutMembers(s.queue, gone);
  }

  lemma RemoveKeeps(s: State, gone: set<PairId>)
    requires Inv(s)
    ensures Keeps(s, RemovePairs(s, gone))
  {
    RemoveWellFormed(s, gone);
    hide WellFormed, Sorted, FilterOut;
  }

  // ----- component states

  // No FROZEN or WAITING pair of component `c`.
  predicate Clean(s: State, c: nat) {
    forall id :: id in s.pairs && s.pairs[id].comp == c ==> !Pending(s.pairs[id])
  }

  predicate Owns(s: State, c: nat) {
    exists id :: id in s.pairs && s.pairs[id].comp == c
  }

  lemma SignalKeeps(s: State, c: nat, to: ComponentState)
    requires Inv(s) && c < |s.comps|
    requires Legal(s.comps[c].state, to) || s.comps[c].state == to
    requires to.Ready? ==> Clean(s, c)
    requires !to.Disconnected?
    requires to.Gathering? ==> !Owns(s, c)
    ensures Keeps(s, Signal(s, c, to))
    ensures Signal(s, c, to).comps[c].state == to
  {
    SignalIsSwap(s, c, to);
    StateSwap(s.pairs, s.comps, c, to);
    hide SelectionOk, WellFormed, Sorted, Priced, Thawed, ReadyIsClean, DisconnectedIsEmpty, NominatedIsSelected,
      GatheringIsEmpty, Signal, Legal;
    var t := Signal(s, c, to);
    SameQueue(s, t);
    WellFormedFollows(s, t);
  }

  // A pair changes links, or its nomination where the component has a selected pair.
  lemma PairSwap(s: State, id: PairId, p: Pair)
    requires id in s.pairs && p.comp < |s.comps|
    requires p == s.pairs[id].(discovered := p.discovered, nominated := p.nominated)
    requires p.nominated ==> s.pairs[id].nominated || s.comps[p.comp].selPriority > 0
    requires Priced(s.pairs, s.cands, s.controlling) && ReadyIsClean(s.pairs, s.comps)
    requires DisconnectedIsEmpty(s.pairs, s.comps) && SelectionOk(s.pairs, s.comps)
    ensures var pairs := s.pairs[id := p];
            && Priced(pairs, s.cands, s.controlling) && ReadyIsClean(pairs, s.comps)
            && DisconnectedIsEmpty(pairs, s.comps) && SelectionOk(pairs, s.comps)
  {
  }

  lemma SignalIsSwap(s: State, c: nat, to: ComponentState)
    requires c < |s.comps| && (Legal(s.comps[c].state, to) || s.comps[c].state == to)
    ensures Signal(s, c, to) == s.(comps := s.comps[c := s.comps[c].(state := to)])
  {
    assert s.comps[c].(state := s.comps[c].state) == s.comps[c];
    assert s.comps[c := s.comps[c]] == s.comps;
  }

  lemma StateSwap(pairs: map<PairId, Pair>, comps: seq<Component>, c: nat, to: ComponentState)
    requires c < |comps| && !to.Disconnected?
    requires ReadyIsClean(pairs, comps) && DisconnectedIsEmpty(pairs, comps) && SelectionOk(pairs, comps)
    requires to.Ready? ==> forall id :: id in pairs && pairs[id].comp == c ==> !Pending(pairs[id])
    requires to.Gathering? ==> !exists id :: id in pairs && pairs[id].comp == c
    ensures var comps' := comps[c := comps[c].(state := to)];
            && ReadyIsClean(pairs, comps') && DisconnectedIsEmpty(pairs, comps') && SelectionOk(pairs, comps')
            && (NominatedIsSelected(pairs, comps) ==> NominatedIsSelected(pairs, comps'))
            && (GatheringIsEmpty(pairs, comps) ==> GatheringIsEmpty(pairs, comps'))
  {
  }

  // The selection of a component changes to a pair of non-zero priority.
  lemma SelectKeeps(s: State, c: nat, x: Component)
    requires Inv(s) && c < |s.comps|
    requires x.stream == s.comps[c].stream && x.state == s.comps[c].state
    requires x.selPriority > 0 && x.selLocal.Some? && x.selRemote.Some?
    ensures Keeps(s, SetComp(s, c, x))
  {
    hide WellFormed, Sorted, Priced, Thawed;
    var t := SetComp(s, c, x);
    SameQueue(s, t);
    WellFormedFollows(s, t);
  }

  lemma PricePositive(s: State, id: PairId)
    requires Inv(s) && id in s.pairs
    ensures s.pairs[id].priority > 0
  {
    var p := s.pairs[id];
    PairPriorityPositive(s.controlling, s.cands[p.local].priority, s.cands[p.remote].priority);
  }

  lemma UpdateSelectedKeeps(s: State, c: nat, id: PairId)
    requires Inv(s) && c < |s.comps| && id in s.pairs
    ensures Keeps(s, UpdateSelected(s, c, id))
    ensures UpdateSelected(s, c, id).comps[c].selPriority >= s.pairs[id].priority
  {
    PricePositive(s, id);
    var t := UpdateSelected(s, c, id);
    if s.pairs[id].priority > s.comps[c].selPriority {
      SelectKeeps(s, c, t.comps[c]);
    }
  }

  // ----- concluding a component

  lemma PrunedPairTame(s: State, c: nat, id: PairId)
    requires c < |s.comps| && id in s.pairs
    ensures TamePair(s.pairs[id], PrunedPair(s, c, id)) && CalmPair(s.pairs[id], PrunedPair(s, c, id))
  {
  }

  lemma SilencedKeeps(s: State, c: nat)
    requires Inv(s) && c < |s.comps|
    ensures Keeps(s, Silenced(s, c))
  {
    hide Inv, Thawed, GatheringIsEmpty, NominatedIsSelected, FilterOut, QueueOk, TamePair, CalmPair, PrunedPair,
      PruneSilences;
    var t := Silenced(s, c);
    QueueFact(s);
    QuietQueueOk(s.queue, s.pairs, set id | id in s.pairs && PruneSilences(s, c, id));
    QueueFollows(t.queue, s.pairs, t.pairs);
    forall id | id in s.pairs
      ensures TamePair(s.pairs[id], t.pairs[id]) && CalmPair(s.pairs[id], t.pairs[id])
    {
      PrunedPairTame(s, c, id);
    }
    TameKeeps(s, t);
  }

  lemma QueueFollows(queue: seq<PairId>, pairs: map<PairId, Pair>, pairs': map<PairId, Pair>)
    requires QueueOk(queue, pairs) && pairs'.Keys == pairs.Keys
    ensures QueueOk(queue, pairs')
  {
  }

  lemma PruneKeeps(s: State, c: nat)
    requires Inv(s) && c < |s.comps|
    ensures Keeps(s, PrunePending(s, c))
  {
    hide Inv, Thawed, GatheringIsEmpty, NominatedIsSelected, RemovePairs, Silenced;
    SilencedKeeps(s, c);
    RemoveKeeps(Silenced(s, c), PruneGone(s, c));
  }

  /** What is left of a component after pruning. */
  lemma PruneLeaves(s: State, c: nat, id: PairId)
    requires Inv(s) && c < |s.comps|
    requires var t := PrunePending(s, c); id in t.pairs && t.pairs[id].comp == c
    ensures var t := PrunePending(s, c);
            && id in s.pairs
            && (Pending(t.pairs[id]) ==> PruneCounts(s, c, id))
            && (id in t.queue ==> PruneCounts(s, c, id))
            && (t.pairs[id].state.InProgress? && !PruneCounts(s, c, id) ==>
                  t.pairs[id].priority < s.comps[c].selPriority && !t.pairs[id].retransmit)
  {
    hide Inv, FilterOut;
    var quiet := set id | id in s.pairs && PruneSilences(s, c, id);
    FilterOutMembers(s.queue, quiet);
    FilterOutMembers(FilterOut(s.queue, quiet), PruneGone(s, c));
  }

  lemma ConcludeKeeps(s: State, c: nat)
    requires Inv(s) && c < |s.comps| && Clean(s, c)
    ensures Keeps(s, ConcludeReady(s, c))
    ensures ConcludeReady(s, c).comps[c].state.Ready?
  {
    hide Inv, Thawed, GatheringIsEmpty, NominatedIsSelected;
    var s1 := if s.comps[c].state in {Disconnected, Gathering, Failed} then Signal(s, c, Connecting) else s;
    if s.comps[c].state in {Disconnected, Gathering, Failed} {
      SignalKeeps(s, c, Connecting);
    }
    var s2 := if s1.comps[c].state in {Disconnected, Gathering, Connecting} then Signal(s1, c, Connected) else s1;
    if s1.comps[c].state in {Disconnected, Gathering, Connecting} {
      SignalKeeps(s1, c, Connected);
    }
    SignalKeeps(s2, c, Ready);
  }

  lemma UpdateForReadyKeeps(s: State, c: nat)
    requires Inv(s) && c < |s.comps|
    ensures Keeps(s, UpdateForReady(s, c))
  {
    hide Inv, Thawed, GatheringIsEmpty, NominatedIsSelected, PrunePending, ConcludeReady;
    if NominatedIsSelected(s.pairs, s.comps) {
      SelectedFact(s, c);
    }
    TimerKeeps(s, s);
    FaultKeeps(s, ZeroSelectedPriority);
    PruneKeeps(s, c);
    if HasValidNominated(s, c) && !exists id :: id in s.pairs && PruneCounts(s, c, id) {
      var t := PrunePending(s, c);
      forall id | id in t.pairs && t.pairs[id].comp == c
        ensures !Pending(t.pairs[id])
      {
        PruneLeaves(s, c, id);
      }
      ConcludeKeeps(t, c);
    }
  }

  lemma ReadyComesFromConclude(s: State, c: nat)
    requires c < |s.comps|
    requires !s.comps[c].state.Ready? && UpdateForReady(s, c).comps[c].state.Ready?
    ensures var t, u := UpdateForReady(s, c), PrunePending(s, c);
            && t.pairs == u.pairs && t.queue == u.queue && t.comps[c].selPriority == s.comps[c].selPriority
            && !exists id :: id in s.pairs && PruneCounts(s, c, id)
  {
    hide PrunePending, ConcludeReady;
  }

  /** Entering READY: whenever the list update moves a component to READY, none of its remaining pairs
      is queued, and each one still in progress ranks strictly below the selected pair and is not
      sent again. */
  lemma ReadyEntry(s: State, c: nat)
    requires Inv(s) && c < |s.comps|
    requires !s.comps[c].state.Ready? && UpdateForReady(s, c).comps[c].state.Ready?
    ensures var t := UpdateForReady(s, c);
            forall id :: id in t.pairs && t.pairs[id].comp == c ==>
              && id !in t.queue
              && !Pending(t.pairs[id])
              && (t.pairs[id].state.InProgress? ==>
                    t.pairs[id].priority < t.comps[c].selPriority && !t.pairs[id].retransmit)
  {
    hide Inv, PrunePending;
    ReadyComesFromConclude(s, c);
    var t := UpdateForReady(s, c);
    var u := PrunePending(s, c);
    forall id | id in t.pairs && t.pairs[id].comp == c
      ensures && id !in t.queue && !Pending(t.pairs[id])
              && (t.pairs[id].state.InProgress? ==>
                    t.pairs[id].priority < t.comps[c].selPriority && !t.pairs[id].retransmit)
    {
      PruneLeaves(s, c, id);
    }
  }

  // ----- failing and unfreezing

  lemma FailKeeps(s: State, id: PairId)
    requires Inv(s) && id in s.pairs
    ensures Keeps(s, FailPair(s, id))
  {
    hide Inv, Thawed, GatheringIsEmpty, NominatedIsSelected;
    var p := s.pairs[id];
    var s1 := SetPair(s, id, p.(state := FailedCheck, stun := [], retransmit := false));
    SetPairKeeps(s, id, s1.pairs[id]);
    if p.discovered.Some? && p.discovered.value in s1.pairs {
      SetPairKeeps(s1, p.discovered.value, s1.pairs[p.discovered.value].(state := FailedCheck));
    }
  }

  lemma UnfreezeRelatedKeeps(s: State, foundation: string)
    requires Inv(s)
    ensures Keeps(s, UnfreezeRelated(s, foundation))
  {
    hide Inv, Thawed, GatheringIsEmpty, NominatedIsSelected;
    TameKeeps(s, UnfreezeRelated(s, foundation));
  }

  lemma {:induction false} UnfreezeAlongTame(pairs: map<PairId, Pair>, ids: seq<PairId>, seen: set<string>)
    ensures var r := UnfreezeAlong(pairs, ids, seen);
            && r.Keys == pairs.Keys
            && forall id :: id in pairs ==>
                 r[id] == pairs[id] || (pairs[id].state.Frozen? && r[id] == pairs[id].(state := Waiting))
    decreases |ids|
  {
    if ids != [] {
      if ids[0] in pairs && pairs[ids[0]].foundation !in seen && pairs[ids[0]].state.Frozen? {
        UnfreezeAlongTame(pairs[ids[0] := pairs[ids[0]].(state := Waiting)], ids[1..], seen + {pairs[ids[0]].foundation});
      } else {
        UnfreezeAlongTame(pairs, ids[1..], seen);
      }
    }
  }

  lemma UnfreezeNextKeeps(s: State)
    requires Inv(s)
    ensures Keeps(s, UnfreezeNext(s))
  {
    hide Inv, Thawed, GatheringIsEmpty, NominatedIsSelected, UnfreezeAlong;
    UnfreezeAlongTame(s.pairs, Flat(s.lists), {});
    TameKeeps(s, UnfreezeNext(s));
  }
}
