/** Pair creation, inbound checks, roles and replies keep the invariants. */
module ConnCheckHandlers {
  import opened Basics
  import opened ConnCheckState
  import opened ConnCheckSpec
  import opened ConnCheckInvariants

  // ----- pair creation

  lemma {:induction false} InsertMembers(xs: seq<PairId>, id: PairId, pairs: map<PairId, Pair>)
    ensures forall x :: x in InsertSorted(xs, id, pairs) <==> x in xs || x == id
  {
    if xs != [] && id in pairs && xs[0] in pairs && pairs[id].priority < pairs[xs[0]].priority {
      InsertMembers(xs[1..], id, pairs);
      assert forall x :: x in xs <==> x == xs[0] || x in xs[1..];
    }
  }

  lemma {:induction false} InsertDistinct(xs: seq<PairId>, id: PairId, pairs: map<PairId, Pair>)
    requires Distinct(xs) && id !in xs
    ensures Distinct(InsertSorted(xs, id, pairs))
  {
    if xs != [] && id in pairs && xs[0] in pairs && pairs[id].priority < pairs[xs[0]].priority {
      InsertDistinct(xs[1..], id, pairs);
      InsertMembers(xs[1..], id, pairs);
      assert xs[0] !in xs[1..];
    }
  }

  lemma {:induction false} InsertIsSorted(xs: seq<PairId>, id: PairId, pairs: map<PairId, Pair>)
    requires SortedBy(xs, pairs) && id in pairs
    requires forall x :: x in xs ==> x in pairs
    ensures SortedBy(InsertSorted(xs, id, pairs), pairs)
  {
    if xs != [] && pairs[id].priority < pairs[xs[0]].priority {
      InsertIsSorted(xs[1..], id, pairs);
      InsertMembers(xs[1..], id, pairs);
      var rest := InsertSorted(xs[1..], id, pairs);
      forall x | x in rest
        ensures pairs[xs[0]].priority >= pairs[x].priority
      {
        if x != id {
          var k :| 0 <= k < |xs[1..]| && xs[1..][k] == x;
          assert xs[k + 1] == x;
        }
      }
    }
  }

  // A new pair with an owner, two ends and links that exist ...
  predicate Placed(s: State, p: Pair) {
    && HasComp(s, p.comp)
    && p.local in s.cands && p.remote in s.cands
    && s.cands[p.local].isLocal && s.cands[p.local].owner == p.comp
    && p.discovered.None? && LinkOk(p.succeeded, p.comp, s.pairs, s.nextPair)
  }

  // ... and one that fits the state of its owner as well.
  predicate Fits(s: State, p: Pair) {
    && Placed(s, p)
    && p.priority == Formula(p, s.cands, s.controlling)
    && (p.nominated ==> s.comps[p.comp].selPriority > 0 || Unselected(s.comps[p.comp]))
    && !s.comps[p.comp].state.Disconnected?
    && (s.comps[p.comp].state.Ready? ==> !Pending(p))
  }

  lemma ListedLists(s: State, p: Pair)
    requires WellFormed(s) && Sorted(s.lists, s.pairs) && HasComp(s, p.comp)
    ensures var t := Listed(s, p);
            ListsOk(t.lists, t.pairs, t.comps) && Sorted(t.lists, t.pairs) && PairsListed(t.pairs, t.lists, t.comps)
  {
    hide CandsOk, EndsOk, QueueOk, InsertSorted;
    var t := Listed(s, p);
    var k := s.comps[p.comp].stream;
    assert s.nextPair !in s.pairs;
    forall n | 0 <= n < |t.lists|
      ensures ListOk(t.lists[n], n, t.pairs, t.comps) && SortedBy(t.lists[n], t.pairs)
    {
      assert ListOk(s.lists[n], n, s.pairs, s.comps) && SortedBy(s.lists[n], s.pairs);
      assert SortedBy(s.lists[n], t.pairs);
      if n == k {
        InsertMembers(s.lists[n], s.nextPair, t.pairs);
        InsertDistinct(s.lists[n], s.nextPair, t.pairs);
        InsertIsSorted(s.lists[n], s.nextPair, t.pairs);
      }
    }
    InsertMembers(s.lists[k], s.nextPair, t.pairs);
  }

  lemma ListedWellFormed(s: State, p: Pair)
    requires WellFormed(s) && Sorted(s.lists, s.pairs) && Placed(s, p)
    ensures WellFormed(Listed(s, p)) && Sorted(Listed(s, p).lists, Listed(s, p).pairs)
  {
    ListedLists(s, p);
    hide ListsOk, Sorted, InsertSorted, CandsOk, PairsListed;
  }

  lemma ListedKeepsInv(s: State, p: Pair)
    requires Inv(s) && Fits(s, p)
    ensures Inv(Listed(s, p))
  {
    ListedWellFormed(s, p);
    hide WellFormed, Sorted, InsertSorted;
  }

  lemma NextPairFresh(s: State)
    requires Inv(s)
    ensures s.nextPair !in s.pairs
  {
  }

  lemma AdmittedKeepsInv(s: State, p: Pair)
    requires Inv(s) && Fits(s, p)
    ensures Inv(Admitted(s, p))
  {
    hide Inv, InsertSorted, HasSucceeded;
    var q := UnfreezeMaybe(s.pairs, p);
    ListedKeepsInv(s, q);
    TameKeepsInv(Listed(s, q), Admitted(s, p));
  }

  // An admitted pair does not stay FROZEN beside a SUCCEEDED pair of its foundation.
  lemma AdmittedThawed(pairs: map<PairId, Pair>, id: PairId, p: Pair)
    requires Thawed(pairs) && id !in pairs && Pending(p)
    ensures Thawed(pairs[id := UnfreezeMaybe(pairs, p)])
  {
  }

  lemma AdmittedKeeps(s: State, p: Pair)
    requires Inv(s) && Fits(s, p) && Pending(p) && !p.nominated && !s.comps[p.comp].state.Gathering?
    ensures Keeps(s, Admitted(s, p))
  {
    hide Inv, InsertSorted, Thawed;
    AdmittedKeepsInv(s, p);
    NextPairFresh(s);
    if Thawed(s.pairs) {
      AdmittedThawed(s.pairs, s.nextPair, p);
    }
  }

  // The state a component moves to when it gets a new pair.
  function Busy(x: ComponentState): ComponentState {
    if x in {Connected, Ready} then Connected else Connecting
  }

  lemma NewPairFits(s: State, c: nat, l: CandId, r: CandId, initial: CheckState)
    requires CanPair(s, c, l, r) && s.comps[c].state in {Connected, Connecting}
    ensures Fits(s, NewPair(s, c, l, r, initial))
  {
  }

  // The new pair was dropped again by the size limit.
  lemma DroppedKeeps(s: State, t: State, gone: set<PairId>, p: Pair)
    requires Inv(s) && HasComp(s, p.comp) && s.nextPair in gone
    requires Inv(t) && SameStreams(t.comps, s.comps)
    requires RemovePairs(Admitted(s, p), gone) == t.(comps := s.comps)
    ensures Keeps(s, RemovePairs(Admitted(s, p), gone))
  {
    hide InsertSorted, FilterOut, WellFormed, Sorted, Priced;
    var u := RemovePairs(Admitted(s, p), gone);
    assert forall id :: id in u.pairs ==> id in s.pairs && u.pairs[id] == s.pairs[id];
    SwapComps(t, s.comps);
  }

  lemma SwapComps(t: State, comps: seq<Component>)
    requires WellFormed(t) && SameStreams(t.comps, comps)
    ensures WellFormed(t.(comps := comps))
  {
    SameQueue(t, t.(comps := comps));
    WellFormedFollows(t, t.(comps := comps));
  }

  lemma AddPairKeeps(s: State, c: nat, l: CandId, r: CandId, initial: CheckState)
    requires Inv(s) && CanPair(s, c, l, r) && initial in {Frozen, Waiting}
    ensures Keeps(s, AddPairMatched(s, c, l, r, initial).0)
    ensures var (t, made) := AddPairMatched(s, c, l, r, initial); made.Some? ==> made.value in t.pairs
  {
    hide Inv, Thawed, GatheringIsEmpty, NominatedIsSelected, FilterOut, InsertSorted, Admitted, Legal;
    var p := NewPair(s, c, l, r, initial);
    if !(s.comps[c].selPriority > 0 && p.priority < s.comps[c].selPriority) {
      var to := Busy(s.comps[c].state);
      BusyIsLegal(s.comps[c].state);
      SignalKeeps(s, c, to);
      var s0 := Signal(s, c, to);
      NewPairFits(s0, c, l, r, initial);
      AdmittedKeeps(s0, p);
      AdmitSignal(s, c, p);
      var gone := LimitDrops(Admitted(s, p), s.comps[c].stream);
      RemoveKeeps(Admitted(s0, p), gone);
      var t := RemovePairs(Admitted(s0, p), gone);
      if s.nextPair in gone {
        DroppedKeeps(s, t, gone, p);
      }
    }
  }

  lemma BusyIsLegal(x: ComponentState)
    ensures Legal(x, Busy(x)) || x == Busy(x)
  {
  }

  lemma AdmitSignal(s: State, c: nat, p: Pair)
    requires HasComp(s, p.comp) && c < |s.comps|
    ensures var to := Busy(s.comps[c].state);
            Admitted(Signal(s, c, to), p) == Admitted(s, p).(comps := Signal(s, c, to).comps)
  {
    hide InsertSorted, HasSucceeded, Legal;
    BusyIsLegal(s.comps[c].state);
  }

  // ----- inbound checks

  lemma TriggerKeeps(s: State, c: nat, id: PairId)
    requires Inv(s) && c < |s.comps| && id in s.pairs
    ensures Keeps(s, TriggerPair(s, c, id))
  {
    hide Inv, Thawed, GatheringIsEmpty, NominatedIsSelected;
    EnqueueKeeps(s, id);
    var s1 := Enqueue(s, id);
    if s.comps[c].state.Failed? {
      SignalKeeps(s1, c, Connecting);
    } else if s.comps[c].state.Ready? {
      SignalKeeps(s1, c, Connected);
    }
  }

  lemma ScheduleKeeps(s: State, c: nat, sock: Option<nat>, r: CandId)
    requires Inv(s) && HasComp(s, c) && r in s.cands
    ensures Keeps(s, ScheduleTriggered(s, c, sock, r))
  {
    hide Inv, Thawed, GatheringIsEmpty, NominatedIsSelected, TriggerPair, AddPairMatched, Enqueue;
    var found := MatchingPair(s, c, sock, r);
    if found.Some? {
      TriggerKeeps(s, c, Parent(s, found.value));
    } else {
      var local := LocalOnSocket(s, c, sock);
      if local.Some? && CanPair(s, c, local.value, r) {
        AddPairKeeps(s, c, local.value, r, Waiting);
        var (s1, made) := AddPairMatched(s, c, local.value, r, Waiting);
        if made.Some? {
          EnqueueKeeps(s1, made.value);
        }
      }
    }
  }

  lemma MatchingIsPair(s: State, c: nat, sock: Option<nat>, r: CandId)
    requires HasComp(s, c) && MatchingPair(s, c, sock, r).Some?
    ensures MatchingPair(s, c, sock, r).value in s.pairs
  {
  }

  lemma FlagNominatedInv(s: State, id: PairId)
    requires Inv(s) && id in s.pairs && s.pairs[id].comp < |s.comps| && s.comps[s.pairs[id].comp].selPriority > 0
    ensures Inv(SetPair(s, id, s.pairs[id].(nominated := true)))
  {
    hide WellFormed, Sorted, Priced, ReadyIsClean, DisconnectedIsEmpty, SelectionOk;
    PairSwap(s, id, s.pairs[id].(nominated := true));
    var t := SetPair(s, id, s.pairs[id].(nominated := true));
    SameQueue(s, t);
    LinksFollow(s.pairs, t.pairs, s.nextPair);
    WellFormedFollows(s, t);
    SortedFollows(s.lists, s.pairs, t.pairs);
  }

  // A pair may be flagged nominated once its component has a selected pair.
  lemma FlagNominatedKeeps(s: State, id: PairId)
    requires Inv(s) && id in s.pairs && s.pairs[id].comp < |s.comps| && s.comps[s.pairs[id].comp].selPriority > 0
    ensures Keeps(s, SetPair(s, id, s.pairs[id].(nominated := true)))
  {
    hide Inv;
    FlagNominatedInv(s, id);
  }

  lemma NominateValidKeeps(s: State, c: nat, q: PairId)
    requires Inv(s) && HasComp(s, c) && q in s.pairs && s.pairs[q].comp == c
    ensures Keeps(s, NominateValid(s, c, q))
  {
    hide Inv, Thawed, GatheringIsEmpty, NominatedIsSelected;
    var s1 := if s.comps[c].state.Failed? then Signal(s, c, Connecting) else s;
    if s.comps[c].state.Failed? {
      SignalKeeps(s, c, Connecting);
    }
    PricePositive(s1, q);
    UpdateSelectedKeeps(s1, c, q);
    var s2 := UpdateSelected(s1, c, q);
    var s3 := if s2.comps[c].state.Connecting? then Signal(s2, c, Connected) else s2;
    if s2.comps[c].state.Connecting? {
      SignalKeeps(s2, c, Connected);
    }
    FlagNominatedKeeps(s3, q);
  }

  lemma TargetComp(s: State, id: PairId)
    requires Inv(s) && id in s.pairs
    ensures s.pairs[NominationTarget(s, id)].comp == s.pairs[id].comp
  {
  }

  lemma MarkOneKeeps(s: State, c: nat, id: PairId)
    requires Inv(s) && HasComp(s, c) && id in s.pairs && s.pairs[id].comp == c
    ensures Keeps(s, MarkOne(s, c, id))
  {
    hide Inv, Thawed, GatheringIsEmpty, NominatedIsSelected, NominateValid, UpdateForReady, NominationTarget;
    var q := NominationTarget(s, id);
    TargetComp(s, id);
    var s1 := if q in s.queue || s.pairs[q].state.InProgress?
              then SetPair(s, q, s.pairs[q].(markNominated := true)) else s;
    if q in s.queue || s.pairs[q].state.InProgress? {
      SetPairKeeps(s, q, s.pairs[q].(markNominated := true));
    }
    var s2 := if s.pairs[q].valid then NominateValid(s1, c, q) else s1;
    if s.pairs[q].valid {
      NominateValidKeeps(s1, c, q);
    }
    UpdateForReadyKeeps(s2, c);
  }

  lemma OwnerFact(s: State, id: PairId)
    requires Inv(s) && id in s.pairs
    ensures HasComp(s, s.pairs[id].comp)
    ensures s.pairs[id].local in s.cands && s.pairs[id].remote in s.cands
    ensures s.cands[s.pairs[id].local].owner == s.pairs[id].comp
  {
  }

  lemma {:induction false} MarkAlongKeeps(s: State, c: nat, l: CandId, r: CandId, ids: seq<PairId>)
    requires Inv(s) && HasComp(s, c) && l in s.cands && s.cands[l].owner == c
    ensures Keeps(s, MarkAlong(s, c, l, r, ids))
    decreases |ids|
  {
    hide Inv, Thawed, GatheringIsEmpty, NominatedIsSelected, MarkOne;
    if ids != [] {
      var s1 := if ids[0] in s.pairs && s.pairs[ids[0]].local == l && s.pairs[ids[0]].remote == r
                then MarkOne(s, c, ids[0]) else s;
      if ids[0] in s.pairs && s.pairs[ids[0]].local == l && s.pairs[ids[0]].remote == r {
        OwnerFact(s, ids[0]);
        MarkOneKeeps(s, c, ids[0]);
      }
      MarkAlongKeeps(s1, c, l, r, ids[1..]);
    }
  }

  lemma MarkNominatedKeeps(s: State, c: nat, l: CandId, r: CandId)
    requires Inv(s) && HasComp(s, c) && l in s.cands && s.cands[l].owner == c
    ensures Keeps(s, MarkNominated(s, c, l, r))
  {
    hide Inv, Thawed, GatheringIsEmpty, NominatedIsSelected, MarkAlong;
    MarkAlongKeeps(s, c, l, r, StreamList(s, c));
  }

  // ----- roles

  lemma {:induction false} SortFacts(xs: seq<PairId>, pairs: map<PairId, Pair>)
    requires Distinct(xs) && forall x :: x in xs ==> x in pairs
    ensures var ys := StableSort(xs, pairs);
            Distinct(ys) && SortedBy(ys, pairs) && forall x :: x in ys <==> x in xs
  {
    if xs != [] {
      var ys := StableSort(xs[1..], pairs);
      SortFacts(xs[1..], pairs);
      assert xs[0] !in xs[1..];
      InsertMembers(ys, xs[0], pairs);
      InsertDistinct(ys, xs[0], pairs);
      InsertIsSorted(ys, xs[0], pairs);
      assert forall x :: x in xs <==> x == xs[0] || x in xs[1..];
    }
  }

  lemma RecalculateLists(s: State)
    requires WellFormed(s)
    ensures var t := Recalculate(s);
            ListsOk(t.lists, t.pairs, t.comps) && Sorted(t.lists, t.pairs) && PairsListed(t.pairs, t.lists, t.comps)
  {
    hide StableSort, CandsOk, LinksOk, QueueOk;
    var t := Recalculate(s);
    forall n | 0 <= n < |s.lists|
      ensures ListOk(t.lists[n], n, t.pairs, t.comps) && SortedBy(t.lists[n], t.pairs)
      ensures forall x :: x in t.lists[n] <==> x in s.lists[n]
    {
      assert ListOk(s.lists[n], n, s.pairs, s.comps);
      SortFacts(s.lists[n], t.pairs);
    }
  }

  lemma RecalculateWellFormed(s: State)
    requires WellFormed(s)
    ensures var t := Recalculate(s); WellFormed(t) && Sorted(t.lists, t.pairs)
  {
    hide StableSort, ListsOk, Sorted, PairsListed, SortedBy;
    RecalculateLists(s);
  }

  /** Whatever the old priorities were, recalculating restores order and formula. */
  lemma RecalculateInv(s: State)
    requires WellFormed(s)
    requires ReadyIsClean(s.pairs, s.comps) && DisconnectedIsEmpty(s.pairs, s.comps)
    requires SelectionOk(s.pairs, s.comps)
    ensures Inv(Recalculate(s))
  {
    RecalculateWellFormed(s);
    RecalculatePrices(s);
    hide WellFormed, Sorted, StableSort, Priced;
  }

  lemma RecalculatePrices(s: State)
    ensures Priced(Recalculate(s).pairs, s.cands, s.controlling)
  {
    hide StableSort;
  }

  lemma RecalculateRest(s: State)
    ensures Thawed(s.pairs) ==> Thawed(Recalculate(s).pairs)
    ensures GatheringIsEmpty(s.pairs, s.comps) ==> GatheringIsEmpty(Recalculate(s).pairs, Recalculate(s).comps)
    ensures NominatedIsSelected(s.pairs, s.comps) ==> NominatedIsSelected(Recalculate(s).pairs, Recalculate(s).comps)
    ensures Recalculate(s).fault == s.fault && Recalculate(s).pairs.Keys == s.pairs.Keys
    ensures Recalculate(s).queue == s.queue && Recalculate(s).comps == s.comps
  {
    hide StableSort;
  }

  lemma RoleConflictKeeps(s: State, control: bool)
    requires Inv(s)
    ensures Keeps(s, CheckForRoleConflict(s, control))
  {
    hide Thawed, GatheringIsEmpty, NominatedIsSelected, WellFormed, Recalculate, Sorted;
    var t := s.(controlling := control);
    RoleIrrelevant(s, control);
    RecalculateInv(t);
    RecalculateRest(t);
  }

  lemma RoleIrrelevant(s: State, control: bool)
    requires WellFormed(s)
    ensures WellFormed(s.(controlling := control))
  {
  }

  /** The role property may change without recalculation: while every component is DISCONNECTED
      there is no pair. */
  lemma SetRoleKeeps(s: State, control: bool)
    requires Inv(s)
    ensures Keeps(s, SetRole(s, control))
  {
    RoleIrrelevant(s, control);
    hide WellFormed, Sorted, Thawed, GatheringIsEmpty, NominatedIsSelected;
    if forall c :: 0 <= c < |s.comps| ==> s.comps[c].state.Disconnected? {
      forall id | id in s.pairs
        ensures false
      {
        OwnerFact(s, id);
      }
    }
  }
}
