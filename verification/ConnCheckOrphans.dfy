/** Handlers that leave the states of pairs alone: which of them free the pair that a valid pair stands for,
by the state before. And the 403 response, which fails pairs by the sender's address. */
module ConnCheckOrphans {
  import opened Basics
  import opened CandidatePriority
  import opened ConnCheckState
  import opened ConnCheckSpec
  import opened ConnCheckHandlers
  import opened ConnCheckSockets
  import opened ConnCheckRenames
  import opened ConnCheckTick
  import opened ConnCheckConfirm
  import opened ConnCheckKin
  import opened ConnCheckSettled
  import opened ConnCheckLosses
  import opened ConnCheckDisturb

  // A discovered pair that is valid, and the pair that discovered it.
  predicate Leaning(s: State, d: PairId) {
    Unnominated(s, d) && HasParent(s.pairs, d)
  }

  // ----- a lost socket

  /** The loss takes the discovering pair and leaves the discovered one. */
  predicate LossDisturbs(s: State, c: nat, lost: nat, based: set<nat>)
    requires HasComp(s, c)
  {
    exists d :: d in s.pairs && Leaning(s, d) &&
      Stays(s, c, lost, based, d) && !Stays(s, c, lost, based, s.pairs[d].succeeded.value)
  }

  lemma ThinnedFlags(p: Pair, q: Pair)
    requires Thinned(p, q)
    ensures q.valid == p.valid && q.nominated == p.nominated
  {
  }

  /** From settled pairs, losing a socket leaves every valid pair settled exactly if it disturbs none. */
  lemma LossSettled(s: State, c: nat, lost: nat, based: set<nat>)
    requires Inv(s) && Kin(s) && AllSettled(s) && HasComp(s, c)
    ensures AllSettled(RemoveSocket(s, c, lost, based)) <==> !LossDisturbs(s, c, lost, based)
  {
    hide Inv, Kin, Below, AllSettled, Unmoved, RemoveSocket, Stays, ZeroLoss, Lost, Thinned, Subqueue;
    var t := RemoveSocket(s, c, lost, based);
    BelowFact(s);
    RemoveSocketExact(s, c, lost, based);
    RemoveSocketLost(s, c, lost, based);
    LostInv(s, t, c, ClearsSelection(s, c, lost, based));
    OrphanStep(s, t);
    forall d | d in t.pairs
      ensures d in s.pairs && t.pairs[d].nominated == s.pairs[d].nominated
    {
      ThinnedFlags(s.pairs[d], t.pairs[d]);
    }
  }

  // ----- an updated remote candidate

  /** The list update that ends the candidate update frees the discovering pair and not the discovered one. */
  predicate UpdateDisturbs(s: State, c: nat, r: CandId, k: Candidate)
    requires HasComp(s, c)
  {
    var u := Reselected(Renamed(s, c, r, k), c);
    exists d :: d in s.pairs && Leaning(s, d) && d in u.pairs && s.pairs[d].succeeded.value in u.pairs &&
      Kept(u, c, d) && !Kept(u, c, s.pairs[d].succeeded.value)
  }

  lemma {:induction false} RenameAlongFlags(s: State, c: nat, r: CandId, ids: seq<PairId>)
    requires c < |s.comps|
    ensures SameEnds(s, RenameAlong(s, c, r, ids))
    decreases |ids|
  {
    hide RenameOne, SameButName;
    if ids == [] {
      EndsSame(s);
    } else if ids[0] in s.pairs {
      RenameOneEnds(s, c, r, ids[0]);
      RenameAlongFlags(RenameOne(s, c, r, ids[0]), c, r, ids[1..]);
      EndsTrans(s, RenameOne(s, c, r, ids[0]), RenameAlong(s, c, r, ids));
    } else {
      RenameAlongFlags(s, c, r, ids[1..]);
    }
  }

  lemma EndsSame(s: State)
    ensures SameEnds(s, s)
  {
  }

  lemma EndsTrans(s: State, t: State, u: State)
    requires SameEnds(s, t) && SameEnds(t, u)
    ensures SameEnds(s, u)
  {
    forall a | a in s.pairs
      ensures SameButName(s.pairs[a], u.pairs[a])
    {
      assert SameButName(s.pairs[a], t.pairs[a]) && SameButName(t.pairs[a], u.pairs[a]);
    }
  }

  lemma ReselectedFlags(s: State, c: nat, r: CandId, k: Candidate, d: PairId)
    requires HasComp(s, c) && d in s.pairs
    ensures var u := Reselected(Renamed(s, c, r, k), c); d in u.pairs && u.pairs[d].nominated == s.pairs[d].nominated
  {
    hide RenameAlong, Reselected, StableSort;
    var v := Updated(s, r, k);
    RenameAlongFlags(v, c, r, StreamList(v, c));
    ReselectedPairs(Renamed(s, c, r, k), c);
    assert SameButName(v.pairs[d], Renamed(s, c, r, k).pairs[d]);
  }

  /** From settled pairs, an updated candidate leaves every valid pair settled exactly if it disturbs none. */
  lemma UpdateSettled(s: State, c: nat, r: CandId, priority: nat, foundation: string, kind: CandidateType)
    requires Inv(s) && Kin(s) && AllSettled(s) && HasComp(s, c) && r in s.cands && !s.cands[r].isLocal && 0 < priority < TWO_32
    ensures AllSettled(UpdateRemote(s, c, r, priority, foundation, kind)) <==>
            !UpdateDisturbs(s, c, r, NewRemote(s.cands[r], priority, foundation, kind))
  {
    hide Inv, Kin, Below, AllSettled, Unmoved, Renamed, Reselected, UpdateForReady, Kept, NewRemote;
    var k := NewRemote(s.cands[r], priority, foundation, kind);
    var u := Reselected(Renamed(s, c, r, k), c);
    var t := UpdateForReady(u, c);
    BelowFact(s);
    ReselectedUnmoved(s, c, r, k);
    UpdateForReadyUnmoved(u, c);
    UnmovedTrans(s, u, t);
    OrphanStep(s, t);
    forall d | d in s.pairs
      ensures d in u.pairs && (d in t.pairs <==> Kept(u, c, d))
      ensures d in t.pairs ==> t.pairs[d].nominated == s.pairs[d].nominated
    {
      UpdateForReadyKept(u, c, d);
      ReselectedFlags(s, c, r, k, d);
      if d in t.pairs {
        UpdateForReadyFlags(u, c, d);
      }
    }
  }

  // ----- an inbound nomination

  // The state in which the list update after the nomination of `id` finds the pairs.
  function Marked(s: State, c: nat, id: PairId): (t: State)
    requires HasComp(s, c) && id in s.pairs
    ensures SameBase(s, t)
  {
    var q := NominationTarget(s, id);
    var s1 := if q in s.queue || s.pairs[q].state.InProgress?
              then SetPair(s, q, s.pairs[q].(markNominated := true)) else s;
    if s.pairs[q].valid then NominateValid(s1, c, q) else s1
  }

  // The nomination of `id` frees the pair `x`.
  predicate FreesOne(s: State, c: nat, id: PairId, x: PairId)
    requires HasComp(s, c) && id in s.pairs
  {
    var q := NominationTarget(s, id);
    (s.pairs[q].valid || s.pairs[q].nominated) && x in Marked(s, c, id).pairs && !Kept(Marked(s, c, id), c, x)
  }

  predicate MatchesEnds(s: State, l: CandId, r: CandId, id: PairId) {
    id in s.pairs && s.pairs[id].local == l && s.pairs[id].remote == r
  }

  /** The walk over the list frees the pair `x`. */
  predicate FreesAlong(s: State, c: nat, l: CandId, r: CandId, ids: seq<PairId>, x: PairId)
    requires HasComp(s, c)
    decreases |ids|
  {
    ids != [] &&
    if MatchesEnds(s, l, r, ids[0])
    then FreesOne(s, c, ids[0], x) || FreesAlong(MarkOne(s, c, ids[0]), c, l, r, ids[1..], x)
    else FreesAlong(s, c, l, r, ids[1..], x)
  }

  /** The walk over the list nominates the valid pair `x`. */
  predicate NominatesAlong(s: State, c: nat, l: CandId, r: CandId, ids: seq<PairId>, x: PairId)
    requires HasComp(s, c)
    decreases |ids|
  {
    ids != [] &&
    if MatchesEnds(s, l, r, ids[0])
    then || (NominationTarget(s, ids[0]) == x && s.pairs[x].valid)
         || NominatesAlong(MarkOne(s, c, ids[0]), c, l, r, ids[1..], x)
    else NominatesAlong(s, c, l, r, ids[1..], x)
  }

  lemma MarkedFlags(s: State, c: nat, id: PairId, x: PairId)
    requires HasComp(s, c) && id in s.pairs && x in s.pairs
    ensures var t := Marked(s, c, id);
            && t.pairs.Keys == s.pairs.Keys && t.pairs[x].valid == s.pairs[x].valid
            && t.pairs[x].nominated == (s.pairs[x].nominated || (NominationTarget(s, id) == x && s.pairs[x].valid))
  {
    hide NominationTarget, NominateValid;
    var q := NominationTarget(s, id);
    NominateValidFrame(s, c, q);
    NominateValidFrame(SetPair(s, q, s.pairs[q].(markNominated := true)), c, q);
  }

  lemma NominateValidFrame(s: State, c: nat, q: PairId)
    requires HasComp(s, c) && q in s.pairs
    ensures NominateValid(s, c, q).pairs == s.pairs[q := s.pairs[q].(nominated := true)]
  {
    var s1 := if s.comps[c].state.Failed? then Signal(s, c, Connecting) else s;
    assert UpdateSelected(s1, c, q).pairs == s.pairs;
    hide Signal, UpdateSelected;
  }

  lemma MarkOneIs(s: State, c: nat, id: PairId)
    requires HasComp(s, c) && id in s.pairs
    ensures var q := NominationTarget(s, id);
            MarkOne(s, c, id) ==
            if s.pairs[q].valid || s.pairs[q].nominated then UpdateForReady(Marked(s, c, id), c) else Marked(s, c, id)
  {
    hide NominationTarget, UpdateForReady, NominateValid;
  }

  lemma MarkOneFlags(s: State, c: nat, id: PairId, x: PairId)
    requires HasComp(s, c) && id in s.pairs && x in s.pairs
    ensures var t := MarkOne(s, c, id);
            && t.pairs.Keys <= s.pairs.Keys && (x in t.pairs <==> !FreesOne(s, c, id, x))
            && (x in t.pairs ==>
                  && t.pairs[x].valid == s.pairs[x].valid
                  && t.pairs[x].nominated == (s.pairs[x].nominated || (NominationTarget(s, id) == x && s.pairs[x].valid)))
  {
    hide NominationTarget, UpdateForReady, Marked, MarkOne, Kept;
    MarkOneIs(s, c, id);
    MarkedFlags(s, c, id, x);
    var u := Marked(s, c, id);
    UpdateForReadyKept(u, c, x);
    if x in UpdateForReady(u, c).pairs {
      UpdateForReadyFlags(u, c, x);
    }
  }

  // A pair that is not there is not freed.
  lemma {:induction false} FreesListed(s: State, c: nat, l: CandId, r: CandId, ids: seq<PairId>, x: PairId)
    requires HasComp(s, c) && x !in s.pairs
    ensures !FreesAlong(s, c, l, r, ids, x) && x !in MarkAlong(s, c, l, r, ids).pairs
    decreases |ids|
  {
    hide MarkOne, NominationTarget, Marked;
    if ids != [] {
      if MatchesEnds(s, l, r, ids[0]) {
        MarkOneFlags(s, c, ids[0], ids[0]);
        MarkedFlags(s, c, ids[0], ids[0]);
        FreesListed(MarkOne(s, c, ids[0]), c, l, r, ids[1..], x);
      } else {
        FreesListed(s, c, l, r, ids[1..], x);
      }
    }
  }

  lemma {:induction false} MarkAlongFlags(s: State, c: nat, l: CandId, r: CandId, ids: seq<PairId>, x: PairId)
    requires HasComp(s, c) && x in s.pairs
    ensures var t := MarkAlong(s, c, l, r, ids);
            && (x in t.pairs <==> !FreesAlong(s, c, l, r, ids, x))
            && (x in t.pairs ==> t.pairs[x].nominated == (s.pairs[x].nominated || NominatesAlong(s, c, l, r, ids, x)))
    decreases |ids|
  {
    hide MarkOne, NominationTarget, FreesOne;
    if ids != [] {
      if MatchesEnds(s, l, r, ids[0]) {
        MarkOneFlags(s, c, ids[0], x);
        var s1 := MarkOne(s, c, ids[0]);
        if x in s1.pairs {
          MarkAlongFlags(s1, c, l, r, ids[1..], x);
        } else {
          FreesListed(s1, c, l, r, ids[1..], x);
        }
      } else {
        MarkAlongFlags(s, c, l, r, ids[1..], x);
      }
    }
  }

  /** The nomination frees the discovering pair, and leaves the discovered one without nominating it. */
  predicate NominationDisturbs(s: State, c: nat, l: CandId, r: CandId)
    requires HasComp(s, c)
  {
    var ids := StreamList(s, c);
    !s.controlling &&
    exists d :: d in s.pairs && Leaning(s, d) &&
      !NominatesAlong(s, c, l, r, ids, d) && !FreesAlong(s, c, l, r, ids, d) &&
      FreesAlong(s, c, l, r, ids, s.pairs[d].succeeded.value)
  }

  /** From settled pairs, an inbound nomination leaves every valid pair settled exactly if it disturbs none. */
  lemma NominationSettled(s: State, c: nat, l: CandId, r: CandId)
    requires Inv(s) && Kin(s) && AllSettled(s) && HasComp(s, c)
    ensures AllSettled(MarkNominated(s, c, l, r)) <==> !NominationDisturbs(s, c, l, r)
  {
    hide Inv, Kin, Below, AllSettled, Unmoved, MarkAlong, FreesAlong, NominatesAlong;
    if !s.controlling {
      var ids := StreamList(s, c);
      var t := MarkAlong(s, c, l, r, ids);
      BelowFact(s);
      MarkAlongUnmoved(s, c, l, r, ids);
      OrphanStep(s, t);
      forall d | d in s.pairs
        ensures d in t.pairs <==> !FreesAlong(s, c, l, r, ids, d)
        ensures d in t.pairs ==> t.pairs[d].nominated == (s.pairs[d].nominated || NominatesAlong(s, c, l, r, ids, d))
      {
        MarkAlongFlags(s, c, l, r, ids, d);
      }
    }
  }

  // ----- new pairs and inbound checks

  // Only FROZEN and FAILED pairs make room for a new one.
  lemma AddPairFrees(s: State, c: nat, l: CandId, r: CandId, initial: CheckState, q: PairId)
    requires Below(s) && CanPair(s, c, l, r) && q in s.pairs && (s.pairs[q].state.Succeeded? || s.pairs[q].state.InProgress?)
    ensures q in AddPairMatched(s, c, l, r, initial).0.pairs
  {
    hide InsertSorted, Signal, FilterOut;
    var p := NewPair(s, c, l, r, initial);
    AdmittedOld(s, p, q);
    hide Admitted;
  }

  lemma AdmittedOld(s: State, p: Pair, q: PairId)
    requires Below(s) && HasComp(s, p.comp) && q in s.pairs
    ensures q in Admitted(s, p).pairs && Admitted(s, p).pairs[q] == s.pairs[q]
  {
    hide InsertSorted, HasSucceeded;
  }

  lemma ScheduleFrees(s: State, c: nat, sock: Option<nat>, r: CandId, q: PairId)
    requires Kin(s) && Below(s) && HasComp(s, c) && r in s.cands
    requires q in s.pairs && (s.pairs[q].state.Succeeded? || s.pairs[q].state.InProgress?)
    ensures q in ScheduleTriggered(s, c, sock, r).pairs
  {
    hide Kin, Below, AddPairMatched, MatchingPair, LocalOnSocket, Signal;
    var found := MatchingPair(s, c, sock, r);
    if found.Some? {
      MatchingIsPair(s, c, sock, r);
    } else {
      var local := LocalOnSocket(s, c, sock);
      if local.Some? && CanPair(s, c, local.value, r) {
        AddPairFrees(s, c, local.value, r, Waiting, q);
      }
    }
  }

  // The pair that an open pair stands for has a check that succeeded or is in progress.
  lemma StandsFor(s: State, d: PairId)
    requires AllSettled(s) && Unnominated(s, d)
    ensures Parent(s, d) in s.pairs
    ensures s.pairs[Parent(s, d)].state.Succeeded? || s.pairs[Parent(s, d)].state.InProgress?
  {
    assert Settled(s, d);
  }

  // Where no such pair goes, no valid pair is unsettled.
  lemma BusyStay(s: State, t: State)
    requires Kin(s) && Below(s) && Unmoved(s, t) && AllSettled(s)
    requires forall q :: q in s.pairs && (s.pairs[q].state.Succeeded? || s.pairs[q].state.InProgress?) ==> q in t.pairs
    ensures AllSettled(t)
  {
    hide Kin, Below, AllSettled;
    OrphanStep(s, t);
    forall d | d in s.pairs && d in t.pairs && s.pairs[d].valid && !t.pairs[d].nominated
      ensures !Orphans(s, t, d)
    {
      StayedFlags(s, t, d);
      StandsFor(s, d);
    }
  }

  /** Forming a pair unsettles no valid pair. */
  lemma FormSettled(s: State, c: nat, l: CandId, r: CandId, initial: CheckState)
    requires Inv(s) && Kin(s) && AllSettled(s) && CanPair(s, c, l, r)
    ensures AllSettled(AddPairMatched(s, c, l, r, initial).0)
  {
    hide Inv, Kin, Below, AllSettled, Unmoved, AddPairMatched;
    var t := AddPairMatched(s, c, l, r, initial).0;
    BelowFact(s);
    AddPairUnmoved(s, c, l, r, initial);
    forall q | q in s.pairs && (s.pairs[q].state.Succeeded? || s.pairs[q].state.InProgress?)
      ensures q in t.pairs
    {
      AddPairFrees(s, c, l, r, initial, q);
    }
    BusyStay(s, t);
  }

  /** An inbound check unsettles no valid pair. */
  lemma CheckSettled(s: State, c: nat, sock: Option<nat>, r: CandId)
    requires Inv(s) && Kin(s) && AllSettled(s) && HasComp(s, c) && r in s.cands
    ensures AllSettled(ScheduleTriggered(s, c, sock, r))
  {
    hide Inv, Kin, Below, AllSettled, Unmoved, ScheduleTriggered;
    var t := ScheduleTriggered(s, c, sock, r);
    BelowFact(s);
    ScheduleUnmoved(s, c, sock, r);
    forall q | q in s.pairs && (s.pairs[q].state.Succeeded? || s.pairs[q].state.InProgress?)
      ensures q in t.pairs
    {
      ScheduleFrees(s, c, sock, r, q);
    }
    BusyStay(s, t);
  }

  // ----- a stream loses all its pairs

  // A pair and its parent are of one component, hence in one list.
  lemma StreamTogether(s: State, n: nat, d: PairId)
    requires Inv(s) && n < |s.lists| && d in PruneStream(s, n).pairs && d in s.pairs
    ensures Parent(s, d) in PruneStream(s, n).pairs
  {
    hide Sorted, Priced, SelectionOk, ReadyIsClean, DisconnectedIsEmpty, FilterOut;
    ParentComp(s, d);
  }

  /** Emptying a check list unsettles no valid pair. */
  lemma StreamSettled(s: State, n: nat)
    requires Inv(s) && Kin(s) && AllSettled(s) && n < |s.lists|
    ensures AllSettled(PruneStream(s, n))
  {
    hide Inv, Kin, Below, AllSettled, Unmoved, PruneStream;
    var t := PruneStream(s, n);
    BelowFact(s);
    PruneStreamUnmoved(s, n);
    OrphanStep(s, t);
    forall d | d in s.pairs && d in t.pairs
      ensures !Orphans(s, t, d)
    {
      StreamTogether(s, n, d);
    }
  }

  // ----- a 403 response

  // The 403 fails `y`: the address of its remote candidate, or that of a pair that discovered it, is the sender's.
  predicate FailedBy(s: State, from: set<CandId>, ids: seq<PairId>, y: PairId) {
    exists x :: x in ids && FailsWith(s, from, x, y)
  }

  predicate FailsWith(s: State, from: set<CandId>, x: PairId, y: PairId) {
    x in s.pairs && s.pairs[x].remote in from && (x == y || s.pairs[x].discovered == Some(y))
  }

  predicate OnlyStateDiffers(s: State, t: State) {
    t.pairs.Keys == s.pairs.Keys && forall id :: id in s.pairs ==> SameButState(s.pairs[id], t.pairs[id])
  }

  predicate SameButState(p: Pair, q: Pair) {
    && q.valid == p.valid && q.nominated == p.nominated && q.succeeded == p.succeeded
    && q.discovered == p.discovered && q.remote == p.remote && q.useCandidate == p.useCandidate
  }

  lemma FailPairEffect(s: State, x: PairId)
    requires x in s.pairs
    ensures var t := FailPair(s, x);
            && OnlyStateDiffers(s, t)
            && forall y :: y in s.pairs ==>
                 t.pairs[y].state == if x == y || s.pairs[x].discovered == Some(y) then FailedCheck else s.pairs[y].state
  {
  }

  lemma SameFailures(s: State, t: State, from: set<CandId>, ids: seq<PairId>, y: PairId)
    requires OnlyStateDiffers(s, t)
    ensures FailedBy(t, from, ids, y) == FailedBy(s, from, ids, y)
  {
    assert forall x :: FailsWith(t, from, x, y) == FailsWith(s, from, x, y);
  }

  lemma {:induction false} FailAlongEffect(s: State, from: set<CandId>, ids: seq<PairId>, y: PairId)
    requires y in s.pairs
    ensures var t := FailAlong(s, from, ids);
            && OnlyStateDiffers(s, t)
            && t.pairs[y].state == if FailedBy(s, from, ids, y) then FailedCheck else s.pairs[y].state
    decreases |ids|
  {
    hide FailPair, FailsWith;
    if ids != [] {
      assert forall x :: x in ids <==> x == ids[0] || x in ids[1..];
      FirstFails(s, from, ids[0], y);
      if ids[0] in s.pairs && s.pairs[ids[0]].remote in from {
        FailPairEffect(s, ids[0]);
        FailAlongEffect(FailPair(s, ids[0]), from, ids[1..], y);
        SameFailures(s, FailPair(s, ids[0]), from, ids[1..], y);
      } else {
        FailAlongEffect(s, from, ids[1..], y);
      }
    }
  }

  lemma FirstFails(s: State, from: set<CandId>, x: PairId, y: PairId)
    ensures FailsWith(s, from, x, y) <==>
            x in s.pairs && s.pairs[x].remote in from && (x == y || s.pairs[x].discovered == Some(y))
  {
  }

  /** The 403 fails the pair that a valid pair stands for; or the valid pair itself, before that one is picked. */
  predicate ForbiddenDisturbs(s: State, from: set<CandId>, ids: seq<PairId>) {
    exists d :: d in s.pairs && Unnominated(s, d) && Hit(s, from, ids, d)
  }

  predicate Hit(s: State, from: set<CandId>, ids: seq<PairId>, d: PairId)
    requires d in s.pairs
  {
    FailedBy(s, from, ids, Parent(s, d)) || (FailedBy(s, from, ids, d) && !s.pairs[Parent(s, d)].useCandidate)
  }

  lemma ForbiddenHits(s: State, from: set<CandId>, ids: seq<PairId>, d: PairId)
    requires AllSettled(s) && Unnominated(s, d)
    ensures var t := FailAlong(s, from, ids);
            Unnominated(t, d) && (Settled(t, d) <==> !Hit(s, from, ids, d))
  {
    hide FailAlong, FailedBy, AllSettled;
    var t := FailAlong(s, from, ids);
    assert Settled(s, d) by { StandsFor(s, d); SettledFact(s, d); }
    FailAlongEffect(s, from, ids, d);
    FailAlongEffect(s, from, ids, Parent(s, d));
    assert SameButState(s.pairs[d], t.pairs[d]) && SameButState(s.pairs[Parent(s, d)], t.pairs[Parent(s, d)]);
    assert Parent(t, d) == Parent(s, d);
  }

  lemma SettledFact(s: State, d: PairId)
    requires AllSettled(s) && Unnominated(s, d)
    ensures Settled(s, d)
  {
  }

  /** From settled pairs, a 403 response leaves every valid pair settled exactly if it disturbs none. */
  lemma ForbiddenSettled(s: State, from: set<CandId>, ids: seq<PairId>)
    requires AllSettled(s)
    ensures AllSettled(FailAlong(s, from, ids)) <==> !ForbiddenDisturbs(s, from, ids)
  {
    hide FailAlong, Hit, Settled;
    var t := FailAlong(s, from, ids);
    forall d | d in s.pairs
      ensures t.pairs[d].valid == s.pairs[d].valid && t.pairs[d].nominated == s.pairs[d].nominated
      ensures Unnominated(s, d) ==> (Settled(t, d) <==> !Hit(s, from, ids, d))
    {
      FailAlongEffect(s, from, ids, d);
      assert SameButState(s.pairs[d], t.pairs[d]);
      if Unnominated(s, d) {
        ForbiddenHits(s, from, ids, d);
      }
    }
    forall d | d in t.pairs && t.pairs[d].nominated
      ensures Settled(t, d)
    {
      NominatedSettled(t, d);
    }
  }
}
