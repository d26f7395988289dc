/** Valid pairs and the assertions of nomination.

A valid pair is settled when it is nominated, when the pair it stands for is picked for nomination and its
check has not failed, or when it passes the assertions. A handler that leaves the states of pairs alone
unsettles a valid pair exactly by freeing the pair that discovered it. */
module ConnCheckSettled {
  import opened Basics
  import opened ConnCheckState
  import opened ConnCheckSpec
  import opened ConnCheckHandlers
  import opened ConnCheckSockets
  import opened ConnCheckRenames
  import opened ConnCheckTick
  import opened ConnCheckConfirm
  import opened ConnCheckKin

  // The pair that `d` stands for is picked, and its check succeeded or is under way again.
  predicate Awaited(s: State, d: PairId)
    requires d in s.pairs
  {
    var q := s.pairs[Parent(s, d)];
    q.useCandidate && (q.state.Succeeded? || q.state.InProgress?)
  }

  predicate Settled(s: State, d: PairId)
    requires d in s.pairs
  {
    s.pairs[d].nominated || Awaited(s, d) || Confirmed(s, d)
  }

  /** Every valid pair is settled. */
  predicate AllSettled(s: State) {
    forall d :: d in s.pairs && s.pairs[d].valid ==> Settled(s, d)
  }

  // ----- settled pairs keep nomination from failing

  lemma AwaitedDecided(s: State, d: PairId)
    requires Inv(s) && d in s.pairs && Awaited(s, d)
    ensures HasComp(s, s.pairs[d].comp) && Decided(s, s.comps[s.pairs[d].comp].stream, s.pairs[d].comp)
  {
    hide Sorted, Priced, SelectionOk, ReadyIsClean, DisconnectedIsEmpty;
    ParentComp(s, d);
    var q := Parent(s, d);
    assert q in s.lists[s.comps[s.pairs[d].comp].stream];
  }

  /** Nomination looks at no pair that fails its assertions. */
  lemma SettledNominates(s: State)
    requires Inv(s) && AllSettled(s)
    ensures !PhaseTrips(s, 0)
  {
    hide Inv, WantsNomination, Confirmed, LikeAt, Decided;
    forall d | 0 <= d < |s.comps| && s.comps[d].stream < |s.lists|
      ensures !NominationTrips(s, 0, d)
    {
      var n := s.comps[d].stream;
      if CompTrips(s, n, d, LikeAt(s, 0, d)) {
        var k :| 0 <= k < |s.lists[n]| && LookedAt(s, d, s.lists[n], LikeAt(s, 0, d), k) && !Confirmed(s, s.lists[n][k]);
        AwaitedDecided(s, s.lists[n][k]);
        assert false;
      }
    }
  }

  // ----- handlers that leave states alone

  // A pair that stays keeps its state, but for thawing, unless the pair that discovered it went and it failed.
  predicate UnmovedPair(s: State, t: State, x: PairId)
    requires x in s.pairs && x in t.pairs
  {
    && t.pairs[x].useCandidate == s.pairs[x].useCandidate
    && (|| t.pairs[x].state == s.pairs[x].state
        || (Pending(s.pairs[x]) && Pending(t.pairs[x]))
        || (t.pairs[x].state.FailedCheck? && HasParent(s.pairs, x) && s.pairs[x].succeeded.value !in t.pairs))
  }

  predicate Unmoved(s: State, t: State) {
    Follows(s, t) && forall x :: x in s.pairs && x in t.pairs ==> UnmovedPair(s, t, x)
  }

  lemma UnmovedTrans(s: State, t: State, u: State)
    requires Below(s) && Unmoved(s, t) && Unmoved(t, u)
    ensures Unmoved(s, u)
  {
    FollowsTrans(s, t, u);
    forall x | x in s.pairs && x in u.pairs
      ensures UnmovedPair(s, u, x)
    {
      assert FollowsPair(t, u, x);
      assert UnmovedPair(s, t, x) && UnmovedPair(t, u, x);
      assert FollowsPair(s, t, x);
      if HasParent(s.pairs, x) && s.pairs[x].succeeded.value in u.pairs {
        assert FollowsPair(t, u, s.pairs[x].succeeded.value);
      }
    }
    hide FollowsPair, UnmovedPair;
  }

  lemma UnmovedSame(s: State)
    ensures Unmoved(s, s)
  {
    FollowsSame(s);
  }

  lemma UnmovedFollows(s: State, t: State)
    requires Unmoved(s, t)
    ensures Follows(s, t)
  {
  }

  // Beside the pairs, the queue and the next identity nothing matters.
  lemma UnmovedPairs(s: State, t: State, u: State)
    requires Unmoved(s, t) && u.pairs == t.pairs && u.queue == t.queue && u.nextPair == t.nextPair
    ensures Unmoved(s, u)
  {
    ConnCheckKin.OnlyPairs(s, t, u);
    forall x | x in s.pairs && x in u.pairs
      ensures UnmovedPair(s, u, x)
    {
      assert UnmovedPair(s, t, x);
    }
  }

  lemma UnmovedStart(s: State, s': State, t: State)
    requires Unmoved(s, t) && s'.pairs == s.pairs && s'.queue == s.queue && s'.nextPair == s.nextPair
    ensures Unmoved(s', t)
  {
    SameStart(s, s', t);
    forall x | x in s'.pairs && x in t.pairs
      ensures UnmovedPair(s', t, x)
    {
      assert UnmovedPair(s, t, x);
    }
  }

  // The pair that discovered `d` is freed while `d` stays.
  predicate Orphans(s: State, t: State, d: PairId)
    requires d in s.pairs
  {
    HasParent(s.pairs, d) && s.pairs[d].succeeded.value !in t.pairs
  }

  lemma OrphanIdle(s: State, t: State, d: PairId)
    requires Kin(s) && Unmoved(s, t) && d in s.pairs && d in t.pairs && Orphans(s, t, d)
    ensures Parent(t, d) == d && Idle(s.pairs[d]) && !t.pairs[d].useCandidate && t.pairs[d].succeeded.Some?
    ensures !t.pairs[d].state.Succeeded?
  {
    assert FollowsPair(s, t, d);
    assert UnmovedPair(s, t, d);
    assert KinPair(s, d);
  }

  lemma ParentStays(s: State, t: State, d: PairId)
    requires Kin(s) && Below(s) && Follows(s, t) && d in s.pairs && d in t.pairs && !Orphans(s, t, d)
    ensures Parent(t, d) == Parent(s, d) && Parent(s, d) in t.pairs && !HasParent(s.pairs, Parent(s, d))
    ensures Parent(s, d) in s.pairs
  {
    assert FollowsPair(s, t, d);
    FollowsKind(s, t);
    KinLink(s, t, s.pairs[d].succeeded);
    assert KinPair(s, d);
  }

  lemma RootUnmoved(s: State, t: State, q: PairId)
    requires Unmoved(s, t) && q in s.pairs && q in t.pairs && !HasParent(s.pairs, q)
    ensures t.pairs[q].useCandidate == s.pairs[q].useCandidate
    ensures t.pairs[q].state == s.pairs[q].state || (Pending(s.pairs[q]) && Pending(t.pairs[q]))
  {
    assert UnmovedPair(s, t, q);
  }

  /** A pair that stays without a nomination is settled exactly if it was, and the pair it stands for stays. */
  lemma SettledStep(s: State, t: State, d: PairId)
    requires Kin(s) && Below(s) && Unmoved(s, t) && d in s.pairs && d in t.pairs && !t.pairs[d].nominated
    ensures Settled(t, d) <==> Settled(s, d) && !Orphans(s, t, d)
  {
    hide Kin, Below, Follows, Unmoved, Orphans;
    UnmovedFollows(s, t);
    StayedFlags(s, t, d);
    if Orphans(s, t, d) {
      OrphanIdle(s, t, d);
    } else {
      ParentStays(s, t, d);
      RootUnmoved(s, t, Parent(s, d));
      ChildUnmoved(s, t, d);
    }
  }

  lemma StayedFlags(s: State, t: State, d: PairId)
    requires Follows(s, t) && d in s.pairs && d in t.pairs
    ensures t.pairs[d].succeeded == s.pairs[d].succeeded && t.pairs[d].valid == s.pairs[d].valid
    ensures s.pairs[d].nominated ==> t.pairs[d].nominated
  {
    assert FollowsPair(s, t, d);
  }

  lemma ChildUnmoved(s: State, t: State, d: PairId)
    requires Kin(s) && Unmoved(s, t) && d in s.pairs && d in t.pairs && !Orphans(s, t, d)
    ensures t.pairs[d].state == s.pairs[d].state || (Pending(s.pairs[d]) && Pending(t.pairs[d]))
  {
    assert UnmovedPair(s, t, d);
  }

  // Some valid pair stays without a nomination while the pair it stands for goes.
  predicate OrphansValid(s: State, t: State) {
    exists d :: d in s.pairs && d in t.pairs && s.pairs[d].valid && !t.pairs[d].nominated && Orphans(s, t, d)
  }

  /** A handler that leaves states alone unsettles a valid pair exactly by freeing the pair it stands for. */
  lemma OrphanStep(s: State, t: State)
    requires Kin(s) && Below(s) && Unmoved(s, t) && AllSettled(s)
    ensures AllSettled(t) <==> !OrphansValid(s, t)
  {
    hide Kin, Below, Follows, Settled, Orphans;
    forall d | d in t.pairs
      ensures d !in s.pairs ==> !t.pairs[d].valid
      ensures d in s.pairs ==> t.pairs[d].valid == s.pairs[d].valid
      ensures d in s.pairs && !t.pairs[d].nominated ==> (Settled(t, d) <==> Settled(s, d) && !Orphans(s, t, d))
    {
      NewInvalid(s, t, d);
      if d in s.pairs && !t.pairs[d].nominated {
        SettledStep(s, t, d);
      }
    }
    hide Unmoved;
    forall d | d in t.pairs && t.pairs[d].nominated
      ensures Settled(t, d)
    {
      NominatedSettled(t, d);
    }
  }

  lemma NominatedSettled(s: State, d: PairId)
    requires d in s.pairs && s.pairs[d].nominated
    ensures Settled(s, d)
  {
  }

  lemma NewInvalid(s: State, t: State, d: PairId)
    requires Follows(s, t) && d in t.pairs
    ensures d !in s.pairs ==> !t.pairs[d].valid
    ensures d in s.pairs ==> t.pairs[d].valid == s.pairs[d].valid
  {
    assert FollowsPair(s, t, d);
  }

  // ----- the handlers

  // Every pair keeps its state, or thaws.
  lemma StatesUnmoved(s: State, t: State)
    requires Follows(s, t)
    requires forall x :: x in s.pairs && x in t.pairs ==>
               t.pairs[x].useCandidate == s.pairs[x].useCandidate &&
               (t.pairs[x].state == s.pairs[x].state || (Pending(s.pairs[x]) && Pending(t.pairs[x])))
    ensures Unmoved(s, t)
  {
  }

  lemma UpdateForReadyUnmoved(s: State, c: nat)
    requires c < |s.comps|
    ensures Unmoved(s, UpdateForReady(s, c))
  {
    hide Follows, UpdateForReady, Thinned;
    var t := UpdateForReady(s, c);
    UpdateForReadyFollows(s, c);
    UpdateForReadyThins(s, c);
    forall x | x in s.pairs && x in t.pairs
      ensures t.pairs[x].useCandidate == s.pairs[x].useCandidate && t.pairs[x].state == s.pairs[x].state
    {
      UpdateForReadyKept(s, c, x);
      ThinnedPick(s.pairs[x], t.pairs[x]);
    }
    StatesUnmoved(s, t);
  }

  lemma ThinnedPick(p: Pair, q: Pair)
    requires Thinned(p, q)
    ensures q.useCandidate == p.useCandidate
  {
  }

  lemma AdmitUnmoved(s: State, p: Pair)
    requires Below(s) && HasComp(s, p.comp) && !p.valid && p.succeeded.None? && p.discovered.None?
    ensures Unmoved(s, Admitted(s, p))
  {
    AdmitFollows(s, p);
    hide InsertSorted, HasSucceeded, Follows;
    StatesUnmoved(s, Admitted(s, p));
  }

  lemma RemoveUnmoved(s: State, gone: set<PairId>)
    ensures Unmoved(s, RemovePairs(s, gone))
  {
    hide FilterOut, Follows;
    RemoveFollows(s, gone);
    StatesUnmoved(s, RemovePairs(s, gone));
  }

  lemma AddPairUnmoved(s: State, c: nat, l: CandId, r: CandId, initial: CheckState)
    requires Below(s) && CanPair(s, c, l, r)
    ensures var (t, made) := AddPairMatched(s, c, l, r, initial);
            Unmoved(s, t) && (made.Some? ==> made.value in t.pairs && t.pairs[made.value].succeeded.None?)
  {
    hide Unmoved, Follows, Admitted, RemovePairs, LimitDrops, Signal;
    var p := NewPair(s, c, l, r, initial);
    UnmovedSame(s);
    AdmitFollows(s, p);
    AdmitUnmoved(s, p);
    var s1 := Admitted(s, p);
    var gone := LimitDrops(s1, s.comps[c].stream);
    RemoveUnmoved(s1, gone);
    RemovedKept(s1, gone, s.nextPair);
    var s2 := RemovePairs(s1, gone);
    UnmovedTrans(s, s1, s2);
    UnmovedPairs(s, s2, Signal(s2, c, if s.comps[c].state in {Connected, Ready} then Connected else Connecting));
  }

  lemma EnqueueUnmoved(s: State, id: PairId)
    requires id in s.pairs && !HasParent(s.pairs, id)
    ensures Unmoved(s, Enqueue(s, id))
  {
    hide Follows;
    EnqueueFollows(s, id);
    StatesUnmoved(s, Enqueue(s, id));
  }

  lemma TriggerUnmoved(s: State, c: nat, id: PairId)
    requires c < |s.comps| && id in s.pairs && !HasParent(s.pairs, id)
    ensures Unmoved(s, TriggerPair(s, c, id))
  {
    hide Unmoved, Signal, Enqueue;
    UnmovedSame(s);
    EnqueueUnmoved(s, id);
    UnmovedPairs(s, Enqueue(s, id), Signal(Enqueue(s, id), c, Connecting));
    UnmovedPairs(s, Enqueue(s, id), Signal(Enqueue(s, id), c, Connected));
  }

  lemma ScheduleUnmoved(s: State, c: nat, sock: Option<nat>, r: CandId)
    requires Kin(s) && Below(s) && HasComp(s, c) && r in s.cands
    ensures Unmoved(s, ScheduleTriggered(s, c, sock, r))
  {
    hide Unmoved, Kin, AddPairMatched, MatchingPair, LocalOnSocket, TriggerPair, Enqueue;
    UnmovedSame(s);
    var found := MatchingPair(s, c, sock, r);
    if found.Some? {
      MatchingIsPair(s, c, sock, r);
      ParentRoot(s, found.value);
      TriggerUnmoved(s, c, Parent(s, found.value));
    } else {
      var local := LocalOnSocket(s, c, sock);
      if local.Some? && CanPair(s, c, local.value, r) {
        AddPairUnmoved(s, c, local.value, r, Waiting);
        var (s1, made) := AddPairMatched(s, c, local.value, r, Waiting);
        if made.Some? {
          EnqueueUnmoved(s1, made.value);
          UnmovedTrans(s, s1, Enqueue(s1, made.value));
        }
      }
    }
  }

  lemma NominateValidUnmoved(s: State, c: nat, q: PairId)
    requires HasComp(s, c) && q in s.pairs
    ensures Unmoved(s, NominateValid(s, c, q))
  {
    NominateValidFollows(s, c, q);
    hide Signal, Follows;
    StatesUnmoved(s, NominateValid(s, c, q));
  }

  lemma MarkOneUnmoved(s: State, c: nat, id: PairId)
    requires Below(s) && HasComp(s, c) && id in s.pairs
    ensures Unmoved(s, MarkOne(s, c, id))
  {
    hide Unmoved, Below, NominateValid, UpdateForReady, NominationTarget;
    var q := NominationTarget(s, id);
    UnmovedSame(s);
    FlagUnmoved(s, q);
    var s1 := if q in s.queue || s.pairs[q].state.InProgress?
              then SetPair(s, q, s.pairs[q].(markNominated := true)) else s;
    UnmovedSame(s1);
    NominateValidUnmoved(s1, c, q);
    var s2 := if s.pairs[q].valid then NominateValid(s1, c, q) else s1;
    UnmovedTrans(s, s1, s2);
    UpdateForReadyUnmoved(s2, c);
    UnmovedTrans(s, s2, UpdateForReady(s2, c));
  }

  lemma FlagUnmoved(s: State, q: PairId)
    requires q in s.pairs
    ensures Unmoved(s, SetPair(s, q, s.pairs[q].(markNominated := true)))
  {
    hide Follows;
    SetPairFollows(s, q, s.pairs[q].(markNominated := true));
    StatesUnmoved(s, SetPair(s, q, s.pairs[q].(markNominated := true)));
  }

  lemma {:induction false} MarkAlongUnmoved(s: State, c: nat, l: CandId, r: CandId, ids: seq<PairId>)
    requires Below(s) && HasComp(s, c)
    ensures Unmoved(s, MarkAlong(s, c, l, r, ids))
    decreases |ids|
  {
    hide Unmoved, Follows, Below, MarkOne;
    UnmovedSame(s);
    if ids != [] {
      var s1 := if ids[0] in s.pairs && s.pairs[ids[0]].local == l && s.pairs[ids[0]].remote == r
                then MarkOne(s, c, ids[0]) else s;
      if ids[0] in s.pairs {
        MarkOneUnmoved(s, c, ids[0]);
      }
      UnmovedFollows(s, s1);
      FollowsBelow(s, s1);
      MarkAlongUnmoved(s1, c, l, r, ids[1..]);
      UnmovedTrans(s, s1, MarkAlong(s1, c, l, r, ids[1..]));
    }
  }

  lemma RecalculateUnmoved(s: State)
    ensures Unmoved(s, Recalculate(s))
  {
    RecalculateFollows(s);
    hide StableSort, Follows;
    StatesUnmoved(s, Recalculate(s));
  }

  lemma ConflictUnmoved(s: State, control: bool)
    ensures Unmoved(s, CheckForRoleConflict(s, control))
  {
    hide Unmoved, Recalculate;
    UnmovedSame(s);
    RecalculateUnmoved(s.(controlling := control));
    UnmovedStart(s.(controlling := control), s, Recalculate(s.(controlling := control)));
  }

  lemma RenameOneUnmoved(s: State, c: nat, r: CandId, id: PairId)
    requires c < |s.comps| && id in s.pairs
    ensures Unmoved(s, RenameOne(s, c, r, id))
  {
    hide RenameOne, Follows, NewFoundation;
    RenameOneFollows(s, c, r, id);
    RenameOneEnds(s, c, r, id);
    var t := RenameOne(s, c, r, id);
    forall x | x in s.pairs && x in t.pairs
      ensures t.pairs[x].useCandidate == s.pairs[x].useCandidate
      ensures t.pairs[x].state == s.pairs[x].state || (Pending(s.pairs[x]) && Pending(t.pairs[x]))
    {
      RenameOneEffect(s, c, r, id, x);
      assert SameButName(s.pairs[x], t.pairs[x]);
    }
    StatesUnmoved(s, t);
  }

  lemma {:induction false} RenameAlongUnmoved(s: State, c: nat, r: CandId, ids: seq<PairId>)
    requires Below(s) && c < |s.comps|
    ensures Unmoved(s, RenameAlong(s, c, r, ids))
    decreases |ids|
  {
    hide Unmoved, Follows, Below, RenameOne;
    UnmovedSame(s);
    if ids != [] {
      if ids[0] in s.pairs {
        var s1 := RenameOne(s, c, r, ids[0]);
        RenameOneUnmoved(s, c, r, ids[0]);
        UnmovedFollows(s, s1);
        FollowsBelow(s, s1);
        RenameAlongUnmoved(s1, c, r, ids[1..]);
        UnmovedTrans(s, s1, RenameAlong(s1, c, r, ids[1..]));
      } else {
        RenameAlongUnmoved(s, c, r, ids[1..]);
      }
    }
  }

  // Up to the list update that ends it.
  lemma ReselectedUnmoved(s: State, c: nat, r: CandId, k: Candidate)
    requires Below(s) && HasComp(s, c)
    ensures Unmoved(s, Reselected(Renamed(s, c, r, k), c))
    ensures Reselected(Renamed(s, c, r, k), c).pairs.Keys == s.pairs.Keys
  {
    hide Unmoved, Follows, Below, Recalculate, RenameAlong, Reselected;
    var v := Updated(s, r, k);
    RecalculateUnmoved(s.(cands := s.cands[r := k]));
    UnmovedStart(s.(cands := s.cands[r := k]), s, v);
    var w := Renamed(s, c, r, k);
    UnmovedFollows(s, v);
    FollowsBelow(s, v);
    RenameAlongUnmoved(v, c, r, StreamList(v, c));
    UnmovedTrans(s, v, w);
    ReselectedPairs(w, c);
    ReselectedQueue(w, c);
    UnmovedPairs(s, w, Reselected(w, c));
    RenamedKeys(s, c, r, k);
    UpdatedKeys(s, r, k);
  }

  lemma UpdatedKeys(s: State, r: CandId, k: Candidate)
    ensures Updated(s, r, k).pairs.Keys == s.pairs.Keys
  {
    hide StableSort;
  }

  lemma PruneStreamUnmoved(s: State, n: nat)
    requires n < |s.lists|
    ensures Unmoved(s, PruneStream(s, n))
  {
    hide Unmoved, RemovePairs;
    RemoveUnmoved(s, Members(s.lists[n]));
    UnmovedPairs(s, RemovePairs(s, Members(s.lists[n])), PruneStream(s, n));
  }
}
