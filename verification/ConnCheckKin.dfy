/** Discovered pairs and the pairs that discovered them.

A pair discovered by the check of another one is its child. While its parent is there, a child is idle: it
is DISCOVERED or FAILED, holds no transaction, is not queued and not picked for nomination. Every handler
keeps that, and none changes the links, drops a flag or makes a pair valid, except a successful reply. */
module ConnCheckKin {
  import opened Basics
  import opened ConnCheckState
  import opened ConnCheckSpec
  import opened ConnCheckInvariants
  import opened ConnCheckReplies
  import opened ConnCheckSockets
  import opened ConnCheckRenames
  import opened ConnCheckTick
  import opened ConnCheckTicks
  import opened ConnCheckConfirm

  // ----- kinship

  predicate HasParent(pairs: map<PairId, Pair>, x: PairId)
    requires x in pairs
  {
    pairs[x].succeeded.Some? && pairs[x].succeeded.value in pairs && pairs[x].succeeded.value != x
  }

  predicate Idle(p: Pair) {
    (p.state.Discovered? || p.state.FailedCheck?) && p.stun == [] && !p.useCandidate
  }

  /** A child of a living parent is idle, its parent is no child, and a pair's latest discovery is its child. */
  predicate KinPair(s: State, x: PairId)
    requires x in s.pairs
  {
    && (HasParent(s.pairs, x) ==>
          Idle(s.pairs[x]) && x !in s.queue && !HasParent(s.pairs, s.pairs[x].succeeded.value))
    && (s.pairs[x].discovered.Some? && s.pairs[x].discovered.value in s.pairs ==>
          s.pairs[s.pairs[x].discovered.value].succeeded == Some(x))
  }

  predicate Kin(s: State) {
    forall x :: x in s.pairs ==> KinPair(s, x)
  }

  // What a handler does to the kinship of one pair: links stay, and an idle child of a parent that stays is
  // still idle. A new pair has no kin.
  predicate KindPair(s: State, t: State, x: PairId)
    requires x in t.pairs
  {
    var q := t.pairs[x];
    if x in s.pairs then
      var p := s.pairs[x];
      && q.succeeded == p.succeeded && q.discovered == p.discovered && q.comp == p.comp
      && (HasParent(s.pairs, x) && p.succeeded.value in t.pairs && Idle(p) && x !in s.queue ==> Idle(q) && x !in t.queue)
    else s.nextPair <= x < t.nextPair && q.succeeded.None? && q.discovered.None?
  }

  predicate Kind(s: State, t: State) {
    s.nextPair <= t.nextPair && forall x :: x in t.pairs ==> KindPair(s, t, x)
  }

  // Moreover validity stays, and no nomination or pick is taken back.
  predicate FollowsPair(s: State, t: State, x: PairId)
    requires x in t.pairs
  {
    && KindPair(s, t, x)
    && (if x in s.pairs
        then && t.pairs[x].valid == s.pairs[x].valid && (s.pairs[x].nominated ==> t.pairs[x].nominated)
             && (s.pairs[x].useCandidate ==> t.pairs[x].useCandidate)
        else !t.pairs[x].valid)
  }

  predicate Follows(s: State, t: State) {
    s.nextPair <= t.nextPair && forall x :: x in t.pairs ==> FollowsPair(s, t, x)
  }

  // Identities in use and links are below the next identity.
  predicate Below(s: State) {
    forall x :: x in s.pairs ==>
      && x < s.nextPair && (s.pairs[x].succeeded.Some? ==> s.pairs[x].succeeded.value < s.nextPair)
      && (s.pairs[x].discovered.Some? ==> s.pairs[x].discovered.value < s.nextPair)
  }

  lemma BelowFact(s: State)
    requires Inv(s)
    ensures Below(s)
  {
    hide Sorted, Priced, SelectionOk, ReadyIsClean, DisconnectedIsEmpty;
  }

  lemma FollowsTrans(s: State, t: State, u: State)
    requires Below(s) && Follows(s, t) && Follows(t, u)
    ensures Follows(s, u)
  {
    forall x | x in u.pairs
      ensures FollowsPair(s, u, x)
    {
      assert FollowsPair(t, u, x);
      if x in t.pairs {
        assert FollowsPair(s, t, x);
      }
      if x in s.pairs && HasParent(s.pairs, x) && s.pairs[x].succeeded.value in u.pairs {
        assert FollowsPair(t, u, s.pairs[x].succeeded.value);
      }
    }
  }

  lemma FollowsSame(s: State)
    ensures Follows(s, s)
  {
  }

  /** Kinship is kept. */
  lemma KindKin(s: State, t: State)
    requires Kin(s) && Below(s) && Kind(s, t)
    ensures Kin(t) && Below(t)
  {
    forall x | x in t.pairs
      ensures KinPair(t, x)
    {
      assert KindPair(s, t, x);
      if x in s.pairs {
        assert KinPair(s, x);
        KinLink(s, t, s.pairs[x].succeeded);
        KinLink(s, t, s.pairs[x].discovered);
        if HasParent(t.pairs, x) {
          var y := s.pairs[x].succeeded.value;
          assert KindPair(s, t, y);
          KinLink(s, t, s.pairs[y].succeeded);
        }
      }
    }
  }

  lemma FollowsKin(s: State, t: State)
    requires Kin(s) && Below(s) && Follows(s, t)
    ensures Kin(t) && Below(t)
  {
    FollowsKind(s, t);
    hide Kin, Below, Kind, Follows;
    KindKin(s, t);
  }

  lemma FollowsKind(s: State, t: State)
    requires Follows(s, t)
    ensures Kind(s, t)
  {
    forall x | x in t.pairs
      ensures KindPair(s, t, x)
    {
      assert FollowsPair(s, t, x);
    }
  }

  // What an old link points to is not new.
  lemma KinLink(s: State, t: State, link: Option<PairId>)
    requires Kind(s, t) && (link.Some? ==> link.value < s.nextPair)
    ensures link.Some? && link.value in t.pairs ==> link.value in s.pairs && KindPair(s, t, link.value)
  {
    if link.Some? && link.value in t.pairs {
      assert KindPair(s, t, link.value);
    }
  }

  lemma ParentRoot(s: State, x: PairId)
    requires Kin(s) && x in s.pairs
    ensures Parent(s, x) in s.pairs && !HasParent(s.pairs, Parent(s, x))
  {
    assert KinPair(s, x);
  }

  // A pair that is queued, in flight or pending is nobody's child.
  lemma BusyRoot(s: State, x: PairId)
    requires Kin(s) && x in s.pairs && (x in s.queue || !Idle(s.pairs[x]))
    ensures !HasParent(s.pairs, x)
  {
    assert KinPair(s, x);
  }

  lemma SetPairFollows(s: State, id: PairId, p: Pair)
    requires id in s.pairs
    requires p.succeeded == s.pairs[id].succeeded && p.discovered == s.pairs[id].discovered && p.comp == s.pairs[id].comp
    requires p.valid == s.pairs[id].valid && (s.pairs[id].nominated ==> p.nominated)
    requires s.pairs[id].useCandidate ==> p.useCandidate
    requires HasParent(s.pairs, id) && Idle(s.pairs[id]) ==> Idle(p)
    ensures Follows(s, SetPair(s, id, p))
  {
  }

  lemma EnqueueFollows(s: State, id: PairId)
    requires id in s.pairs && !HasParent(s.pairs, id)
    ensures Follows(s, Enqueue(s, id))
  {
  }

  lemma ThinsFollows(s: State, t: State)
    requires FewerPairs(s.pairs, t.pairs) && Subqueue(s.queue, t.queue) && t.nextPair == s.nextPair
    ensures Follows(s, t)
  {
  }

  // ----- pairs are made and removed

  lemma AdmitFollows(s: State, p: Pair)
    requires Below(s) && HasComp(s, p.comp) && !p.valid && p.succeeded.None? && p.discovered.None?
    ensures Follows(s, Admitted(s, p)) && Admitted(s, p).pairs[s.nextPair].succeeded.None?
  {
    hide InsertSorted, HasSucceeded;
  }

  lemma RemoveFollows(s: State, gone: set<PairId>)
    ensures Follows(s, RemovePairs(s, gone))
  {
    hide FilterOut;
    FilterOutMembers(s.queue, gone);
  }

  // Beside the pairs, the queue and the next identity nothing matters.
  lemma OnlyPairs(s: State, t: State, u: State)
    requires Follows(s, t) && u.pairs == t.pairs && u.queue == t.queue && u.nextPair == t.nextPair
    ensures Follows(s, u)
  {
    forall x | x in u.pairs
      ensures FollowsPair(s, u, x)
    {
      assert FollowsPair(s, t, x);
    }
  }

  lemma RemovedKept(s: State, gone: set<PairId>, x: PairId)
    requires x in s.pairs
    ensures x !in gone ==> x in RemovePairs(s, gone).pairs && RemovePairs(s, gone).pairs[x] == s.pairs[x]
  {
    hide FilterOut;
  }

  // ----- nominations and updates

  lemma NominateValidFollows(s: State, c: nat, q: PairId)
    requires HasComp(s, c) && q in s.pairs
    ensures Follows(s, NominateValid(s, c, q))
  {
    hide Signal;
  }

  lemma UpdateForReadyFollows(s: State, c: nat)
    requires c < |s.comps|
    ensures Follows(s, UpdateForReady(s, c))
  {
    hide Follows, UpdateForReady, FewerPairs;
    UpdateForReadyThins(s, c);
    ThinsFollows(s, UpdateForReady(s, c));
  }

  lemma FollowsBelow(s: State, t: State)
    requires Below(s) && Follows(s, t)
    ensures Below(t)
  {
    forall x | x in t.pairs
      ensures && x < t.nextPair && (t.pairs[x].succeeded.Some? ==> t.pairs[x].succeeded.value < t.nextPair)
              && (t.pairs[x].discovered.Some? ==> t.pairs[x].discovered.value < t.nextPair)
    {
      assert FollowsPair(s, t, x);
    }
  }

  lemma RecalculateFollows(s: State)
    ensures Follows(s, Recalculate(s))
  {
    hide StableSort;
  }

  lemma ConflictFollows(s: State, control: bool)
    ensures Follows(s, CheckForRoleConflict(s, control))
  {
    hide Follows, Recalculate;
    FollowsSame(s);
    RecalculateFollows(s.(controlling := control));
    SameStart(s.(controlling := control), s, Recalculate(s.(controlling := control)));
  }

  lemma SameStart(s: State, s': State, t: State)
    requires Follows(s, t) && s'.pairs == s.pairs && s'.queue == s.queue && s'.nextPair == s.nextPair
    ensures Follows(s', t)
  {
    forall x | x in t.pairs
      ensures FollowsPair(s', t, x)
    {
      assert FollowsPair(s, t, x);
    }
  }

  lemma FailFollows(s: State, id: PairId)
    requires id in s.pairs
    ensures Follows(s, FailPair(s, id))
  {
    hide Follows, FailPair, FewerPairs;
    FailThins(s, id);
    ThinsFollows(s, FailPair(s, id));
  }

  lemma FailedFollows(s: State, id: PairId, c: nat)
    requires Below(s) && id in s.pairs && c < |s.comps|
    ensures Follows(s, UpdateForReady(FailPair(s, id), c))
  {
    hide Follows, Below, FailPair, UpdateForReady;
    FailFollows(s, id);
    UpdateForReadyFollows(FailPair(s, id), c);
    FollowsTrans(s, FailPair(s, id), UpdateForReady(FailPair(s, id), c));
  }

  lemma ReselectedQueue(s: State, c: nat)
    requires HasComp(s, c)
    ensures Reselected(s, c).queue == s.queue
  {
    hide HighestNominated;
  }

  lemma EndsFollow(s: State, t: State)
    requires SameEnds(s, t) && t.queue == s.queue && t.nextPair == s.nextPair
    requires forall x :: x in s.pairs ==> t.pairs[x].state == s.pairs[x].state || !Idle(s.pairs[x])
    ensures Follows(s, t)
  {
  }

  lemma RenameOneFollows(s: State, c: nat, r: CandId, id: PairId)
    requires c < |s.comps| && id in s.pairs
    ensures Follows(s, RenameOne(s, c, r, id))
  {
    hide RenameOne, Follows, SameButName, NewFoundation;
    RenameOneEnds(s, c, r, id);
    RenameOneQueue(s, c, r, id);
    forall x | x in s.pairs
      ensures RenameOne(s, c, r, id).pairs[x].state == s.pairs[x].state || !Idle(s.pairs[x])
    {
      RenameOneEffect(s, c, r, id, x);
    }
    EndsFollow(s, RenameOne(s, c, r, id));
  }

  lemma RenameOneQueue(s: State, c: nat, r: CandId, id: PairId)
    requires c < |s.comps| && id in s.pairs
    ensures RenameOne(s, c, r, id).queue == s.queue
  {
  }

  lemma {:induction false} FailAlongFollows(s: State, from: set<CandId>, ids: seq<PairId>)
    requires Below(s)
    ensures Follows(s, FailAlong(s, from, ids))
    decreases |ids|
  {
    hide Follows, Below, FailPair;
    FollowsSame(s);
    if ids != [] {
      if ids[0] in s.pairs && s.pairs[ids[0]].remote in from {
        var s1 := FailPair(s, ids[0]);
        FailFollows(s, ids[0]);
        FollowsBelow(s, s1);
        FailAlongFollows(s1, from, ids[1..]);
        FollowsTrans(s, s1, FailAlong(s1, from, ids[1..]));
      } else {
        FailAlongFollows(s, from, ids[1..]);
      }
    }
  }

  // ----- a tick

  lemma RejectedFollows(s: State, id: PairId)
    requires Below(s) && id in s.pairs && HasComp(s, s.pairs[id].comp)
    ensures Follows(s, Rejected(s, id))
  {
    hide Follows, Below, FailPair, UpdateForReady;
    RejectedIsFailed(s, id);
    FailedFollows(s, id, s.pairs[id].comp);
  }

  lemma InitiateFollows(s: State, id: PairId, t: TickInput, what: Sent)
    requires Below(s) && id in s.pairs && HasComp(s, s.pairs[id].comp) && !HasParent(s.pairs, id)
    ensures Follows(s, Initiate(s, id, t, what).0)
  {
    hide Follows, Below, Rejected;
    RejectedFollows(s, id);
    if t.send(id).SentOn? {
      SetPairFollows(s, id, Started(s, id, t, t.send(id)).pairs[id]);
      OnlyPairs(s, Started(s, id, t, t.send(id)), Initiate(s, id, t, what).0);
    }
  }

  lemma DequeueFollows(s: State, id: PairId)
    ensures Follows(s, Dequeue(s, id))
  {
    hide FilterOut;
    FilterOutMembers(s.queue, {id});
  }

  lemma {:induction false} TriggeredFollows(s: State, streams: nat, t: TickInput)
    requires Kin(s) && Below(s)
    ensures Follows(s, TriggeredPhase(s, streams, t).0)
    decreases streams
  {
    hide Follows, Below, Kin, Initiate, FilterOut;
    FollowsSame(s);
    if streams > 0 && s.queue != [] {
      var id := s.queue[0];
      var s1 := Dequeue(s, id);
      DequeueFollows(s, id);
      if id in s.pairs && HasComp(s, s.pairs[id].comp) {
        BusyRoot(s, id);
        FollowsKin(s, s1);
        InitiateFollows(s1, id, t, Triggered(id));
        var (s2, sent) := Initiate(s1, id, t, Triggered(id));
        FollowsTrans(s, s1, s2);
        FollowsKin(s, s2);
        if !sent {
          TriggeredFollows(s2, streams - 1, t);
          FollowsTrans(s, s2, TriggeredPhase(s2, streams - 1, t).0);
        }
      }
    }
  }

  lemma TickPairFollows(s: State, id: PairId, t: TickInput)
    requires Below(s) && id in s.pairs && HasComp(s, s.pairs[id].comp)
    ensures Follows(s, TickPair(s, id, t).0)
  {
    hide Follows, Below, FailPair, UpdateForReady, ScanStun;
    FollowsSame(s);
    FailedFollows(s, id, s.pairs[id].comp);
    if s.pairs[id].stun != [] {
      var kept := SetPair(s, id, s.pairs[id].(stun := ScanStun(s.pairs[id].stun, true, s.pairs[id].retransmit, t).kept));
      SetPairFollows(s, id, kept.pairs[id]);
      OnlyPairs(s, kept, kept.(sent := s.sent + [Retransmitted(id)]));
    }
  }

  lemma {:induction false} TickAlongFollows(s: State, ids: seq<PairId>, t: TickInput)
    requires Below(s)
    ensures Follows(s, TickAlong(s, ids, t).0)
    decreases |ids|
  {
    hide Follows, Below, TickPair;
    FollowsSame(s);
    if ids != [] {
      if ids[0] in s.pairs && HasComp(s, s.pairs[ids[0]].comp) {
        var s1 := TickPair(s, ids[0], t).0;
        TickPairFollows(s, ids[0], t);
        FollowsBelow(s, s1);
        TickAlongFollows(s1, ids[1..], t);
        FollowsTrans(s, s1, TickAlong(s1, ids[1..], t).0);
      } else {
        TickAlongFollows(s, ids[1..], t);
      }
    }
  }

  lemma {:induction false} StunPhaseFollows(s: State, n: nat, t: TickInput)
    requires Below(s) && n <= |s.lists|
    ensures Follows(s, StunPhase(s, n, t).0)
    decreases |s.lists| - n
  {
    hide Follows, Below, TickAlong;
    FollowsSame(s);
    if n < |s.lists| {
      var s1 := TickAlong(s, s.lists[n], t).0;
      TickAlongFollows(s, s.lists[n], t);
      FollowsBelow(s, s1);
      StunPhaseFollows(s1, n + 1, t);
      FollowsTrans(s, s1, StunPhase(s1, n + 1, t).0);
    }
  }

  lemma UnfreezeNextFollows(s: State)
    ensures Follows(s, UnfreezeNext(s))
  {
    hide UnfreezeAlong;
    UnfreezeAlongTame(s.pairs, Flat(s.lists), {});
  }

  lemma OrdinaryFollows(s: State, n: nat, t: TickInput)
    requires Kin(s) && Below(s) && n < |s.lists|
    ensures Follows(s, OrdinaryCheck(s, n, t).0)
  {
    hide Follows, Below, Kin, UnfreezeNext, Initiate;
    FollowsSame(s);
    UnfreezeNextFollows(s);
    var s1 := if NextWaiting(s, n).None? then UnfreezeNext(s) else s;
    var w := NextWaiting(s1, n);
    if w.Some? && HasComp(s1, s1.pairs[w.value].comp) {
      FollowsKin(s, s1);
      BusyRoot(s1, w.value);
      InitiateFollows(s1, w.value, t, Ordinary(w.value));
      FollowsTrans(s, s1, OrdinaryCheck(s, n, t).0);
    }
  }

  lemma {:induction false} OrdinaryPhaseFollows(s: State, n: nat, t: TickInput)
    requires Kin(s) && Below(s) && n <= |s.lists|
    ensures Follows(s, OrdinaryPhase(s, n, t).0)
    decreases |s.lists| - n
  {
    hide Follows, Below, Kin, OrdinaryCheck;
    FollowsSame(s);
    if n < |s.lists| {
      var s1 := OrdinaryCheck(s, n, t).0;
      OrdinaryFollows(s, n, t);
      FollowsKin(s, s1);
      OrdinaryPhaseFollows(s1, n + 1, t);
      FollowsTrans(s, s1, OrdinaryPhase(s1, n + 1, t).0);
    }
  }

  lemma SendPhasesFollow(s: State, t: TickInput)
    requires Kin(s) && Below(s)
    ensures Follows(s, SendPhases(s, t).0)
  {
    hide Follows, Below, Kin, TriggeredPhase, StunPhase, OrdinaryPhase;
    TriggeredFollows(s, |s.lists|, t);
    var (s1, sent1) := TriggeredPhase(s, |s.lists|, t);
    FollowsKin(s, s1);
    StunPhaseFollows(s1, 0, t);
    var (s2, sent2) := if sent1 then (s1, true) else StunPhase(s1, 0, t);
    if !sent1 {
      FollowsTrans(s, s1, s2);
    }
    FollowsKin(s, s2);
    OrdinaryPhaseFollows(s2, 0, t);
    FollowsTrans(s, s2, OrdinaryPhase(s2, 0, t).0);
  }

  // ----- nomination

  lemma {:induction false} ChooseRoot(s: State, c: nat, ids: seq<PairId>, like: Option<PairId>)
    requires Kin(s)
    ensures var q := Choose(s, c, ids, like).pick; q.Some? ==> q.value in s.pairs && !HasParent(s.pairs, q.value)
    decreases |ids|
  {
    hide Kin, SameKind, Confirmed, Parent;
    if ids != [] {
      ChooseRoot(s, c, ids[1..], like);
      if Eligible(s, c, ids[0]) {
        ParentRoot(s, ids[0]);
      }
    }
  }

  lemma NominateCompFollows(s: State, n: nat, c: nat, elsewhere: Option<PairId>)
    requires Kin(s) && Below(s) && n < |s.lists|
    ensures Follows(s, NominateComp(s, n, c, elsewhere).0)
  {
    hide Follows, Below, Kin, Choose, Stopping, TakenOther, Enqueue;
    FollowsSame(s);
    OnlyPairs(s, s, Faulted(s, ValidPairNotSucceeded));
    var like := Like(s, n, c, elsewhere);
    ChooseRoot(s, c, s.lists[n], like);
    var q := Choose(s, c, s.lists[n], like).pick;
    if q.Some? {
      PickFollows(s, q.value);
    }
  }

  lemma PickFollows(s: State, q: PairId)
    requires Below(s) && q in s.pairs && !HasParent(s.pairs, q)
    ensures Follows(s, Enqueue(SetPair(s, q, s.pairs[q].(useCandidate := true)), q))
  {
    hide Follows, Below, Enqueue;
    var s1 := SetPair(s, q, s.pairs[q].(useCandidate := true));
    SetPairFollows(s, q, s1.pairs[q]);
    EnqueueFollows(s1, q);
    FollowsTrans(s, s1, Enqueue(s1, q));
  }

  lemma {:induction false} NominateCompsFollow(s: State, n: nat, c: nat, elsewhere: Option<PairId>)
    requires Kin(s) && Below(s) && n < |s.lists| && c <= |s.comps|
    ensures Follows(s, NominateComps(s, n, c, elsewhere).0)
    decreases |s.comps| - c
  {
    hide Follows, Below, Kin, NominateComp;
    FollowsSame(s);
    if c < |s.comps| {
      var s1 := if s.comps[c].stream == n then NominateComp(s, n, c, elsewhere).0 else s;
      NominateCompFollows(s, n, c, elsewhere);
      FollowsKin(s, s1);
      NominateCompsFollow(s1, n, c + 1, elsewhere);
      FollowsTrans(s, s1, NominateComps(s1, n, c + 1, elsewhere).0);
    }
  }

  lemma {:induction false} NominatePhaseFollows(s: State, n: nat)
    requires Kin(s) && Below(s) && n <= |s.lists|
    ensures Follows(s, NominatePhase(s, n).0)
    decreases |s.lists| - n
  {
    hide Follows, Below, Kin, NominateComps, WantsNomination, InProgressIn, TakenElsewhere;
    FollowsSame(s);
    if n < |s.lists| {
      var s1 := NominateStream(s, n).0;
      NominateCompsFollow(s, n, 0, TakenElsewhere(s, n, 0));
      FollowsKin(s, s1);
      NominatePhaseFollows(s1, n + 1);
      FollowsTrans(s, s1, NominatePhase(s1, n + 1).0);
    }
  }

  lemma TickFollows(s: State, t: TickInput)
    requires Kin(s) && Inv(s)
    ensures CompsOk(s.comps, |s.lists|) && Follows(s, Tick(s, t).0)
  {
    hide Inv, Follows, Below, Kin, SendPhases, NominatePhase;
    CompsFact(s);
    BelowFact(s);
    SendPhasesFollow(s, t);
    var u := SendPhases(s, t).0;
    FollowsKin(s, u);
    NominatePhaseFollows(u, 0);
    var v := NominatePhase(u, 0).0;
    FollowsTrans(s, u, v);
    OnlyPairs(s, v, Tick(s, t).0);
  }

  // ----- replies

  lemma DropStunFollows(s: State, id: PairId, k: nat)
    requires id in s.pairs && k < |s.pairs[id].stun|
    ensures Follows(s, DropStun(s, id, k))
  {
  }

  // The root `id` changes as it likes, but for its links.
  lemma RootKind(s: State, t: State, id: PairId)
    requires id in s.pairs && !HasParent(s.pairs, id) && t.pairs.Keys == s.pairs.Keys && t.nextPair == s.nextPair
    requires Subqueue(s.queue, t.queue)
    requires forall x :: x in s.pairs && x != id ==> t.pairs[x] == s.pairs[x]
    requires t.pairs[id].succeeded == s.pairs[id].succeeded && t.pairs[id].discovered == s.pairs[id].discovered
    requires t.pairs[id].comp == s.pairs[id].comp
    ensures Kind(s, t)
  {
  }

  lemma SucceedKin(s: State, id: PairId)
    requires Kin(s) && Below(s) && id in s.pairs && !HasParent(s.pairs, id)
    ensures var t := Succeed(s, id); Kin(t) && Below(t)
  {
    hide Kin, Below, FilterOut, Kind;
    FilterOutMembers(s.queue, {id});
    RootKind(s, Succeed(s, id), id);
    KindKin(s, Succeed(s, id));
  }

  lemma DiscoveredKind(s: State, q: PairId)
    requires q in s.pairs
    ensures Kind(s, SetPair(s, q, s.pairs[q].(state := Discovered)))
  {
  }

  lemma ConfirmKin(s: State, id: PairId, q: PairId)
    requires Kin(s) && Below(s) && id in s.pairs && q in s.pairs && !HasParent(s.pairs, id)
    ensures var t := Confirm(s, id, q); Kin(t) && Below(t) && id in t.pairs && !HasParent(t.pairs, id)
  {
    var t := Confirm(s, id, q);
    assert t.pairs.Keys == s.pairs.Keys && t.pairs[id].succeeded == s.pairs[id].succeeded;
    hide Kin, Below, Kind;
    if q == id {
      RootKind(s, t, id);
    } else {
      DiscoveredKind(s, q);
    }
    KindKin(s, t);
  }

  // The discovered pair is the child of the pair that was checked.
  lemma DiscoverKin(s: State, id: PairId, l: CandId)
    requires Kin(s) && Inv(s) && id in s.pairs && !HasParent(s.pairs, id)
    requires l in s.cands && s.cands[l].isLocal && s.cands[l].owner == s.pairs[id].comp
    ensures HasComp(s, s.pairs[id].comp) && s.pairs[id].remote in s.cands
    ensures var t := AddPeerReflexive(s, l, id); Kin(t) && Below(t) && !HasParent(t.pairs, id)
  {
    hide Inv, Kin, Below, AddPeerReflexive, HasParent;
    BelowFact(s);
    AddPeerReflexiveInv(s, l, id);
    AddPeerReflexiveQueue(s, l, id);
    FreshFrom(s, id);
    QueueBelow(s);
    BelowFact(AddPeerReflexive(s, l, id));
    AddedKin(s, AddPeerReflexive(s, l, id), id);
  }

  lemma AddedKin(s: State, t: State, id: PairId)
    requires Kin(s) && Below(s) && id in s.pairs && !HasParent(s.pairs, id)
    requires s.nextPair !in s.pairs && s.nextPair !in s.queue && t.queue == s.queue
    requires t.pairs.Keys == s.pairs.Keys + {s.nextPair} && t.pairs[id] == s.pairs[id].(discovered := Some(s.nextPair))
    requires Idle(t.pairs[s.nextPair]) && t.pairs[s.nextPair].succeeded == Some(id) && t.pairs[s.nextPair].discovered.None?
    requires forall x :: x in s.pairs && x != id ==> t.pairs[x] == s.pairs[x]
    ensures Kin(t) && !HasParent(t.pairs, id)
  {
    forall x | x in s.pairs
      ensures KinPair(t, x)
    {
      assert KinPair(s, x);
    }
  }

  lemma AddPeerReflexiveQueue(s: State, l: CandId, parent: PairId)
    requires parent in s.pairs && HasComp(s, s.pairs[parent].comp)
    requires l in s.cands && s.pairs[parent].remote in s.cands
    ensures AddPeerReflexive(s, l, parent).queue == s.queue
  {
    hide InsertSorted;
  }

  lemma QueueBelow(s: State)
    requires Inv(s)
    ensures s.nextPair !in s.queue
  {
    hide Sorted, Priced, SelectionOk, ReadyIsClean, DisconnectedIsEmpty;
  }

  lemma LearnKin(s: State, c: nat, k: Candidate)
    requires Kin(s) && c < |s.comps|
    ensures Kin(LearnLocal(s, c, k))
  {
    forall x | x in s.pairs
      ensures KinPair(LearnLocal(s, c, k), x)
    {
      assert KinPair(s, x);
    }
  }

  lemma ProcessKin(s: State, id: PairId, r: CandId, m: Mapped)
    requires Kin(s) && Inv(s) && id in s.pairs && HasComp(s, s.pairs[id].comp) && s.pairs[id].remote in s.cands
    requires MappedOk(s, s.pairs[id].comp, m) && !m.NoAddress? && !HasParent(s.pairs, id)
    ensures var t := ProcessResponse(s, id, r, m).0; Kin(t) && Below(t)
  {
    hide Inv, Kin, Below, AddPeerReflexive, Succeed, LearnLocal, MappedPair, Confirm, HasParent;
    BelowFact(s);
    var c := s.pairs[id].comp;
    var found := MappedPair(s, c, r, m);
    if found.Some? {
      FoundComp(s, id, r, m);
      ConfirmKin(s, id, found.value);
      SucceedKin(Confirm(s, id, found.value), id);
    } else if m.Unknown? && s.cfg.forceRelay {
      SucceedKin(s, id);
    } else if m.Known? {
      DiscoverKin(s, id, m.local);
      SucceedKin(AddPeerReflexive(s, m.local, id), id);
    } else {
      var s1 := LearnLocal(s, c, m.learned);
      LearnLocalInv(s, c, m.learned);
      LearnFrame(s, c, m.learned);
      LearnKin(s, c, m.learned);
      DiscoverKin(s1, id, s.nextCand);
      SucceedKin(AddPeerReflexive(s1, s.nextCand, id), id);
    }
  }

  lemma ThawKind(s: State, f: string)
    ensures Follows(s, UnfreezeRelated(s, f))
  {
  }

  lemma AnsweredKin(s: State, id: PairId, r: CandId, m: Mapped)
    requires Kin(s) && Inv(s) && id in s.pairs && HasComp(s, s.pairs[id].comp) && s.pairs[id].remote in s.cands
    requires MappedOk(s, s.pairs[id].comp, m) && !HasParent(s.pairs, id)
    ensures var t := Answered(s, id, r, m).0; Kin(t) && Below(t)
  {
    hide Inv, Kin, Below, Kind, Follows, ProcessResponse, UnfreezeRelated;
    BelowFact(s);
    var t := if m.NoAddress? then SetPair(s, id, s.pairs[id].(state := Succeeded, valid := true))
             else ProcessResponse(s, id, r, m).0;
    if m.NoAddress? {
      RootKind(s, t, id);
      KindKin(s, t);
    } else {
      ProcessKin(s, id, r, m);
    }
    ThawKind(t, s.pairs[id].foundation);
    FollowsKin(t, UnfreezeRelated(t, s.pairs[id].foundation));
  }

  lemma FinishFollows(s: State, id: PairId, ok: PairId)
    requires Below(s) && id in s.pairs && ok in s.pairs && HasComp(s, s.pairs[id].comp)
    ensures Follows(s, FinishReply(s, id, ok))
  {
    hide Follows, Below, UpdateForReady, NominateOk, Nominates;
    var c := s.pairs[id].comp;
    FollowsSame(s);
    NominateOkFollows(s, c, ok);
    var n := if Nominates(s, s.pairs[id]) || s.pairs[ok].nominated then NominateOk(s, c, ok) else s;
    UpdateForReadyFollows(n, c);
    FollowsTrans(s, n, UpdateForReady(n, c));
  }

  lemma NominateOkFrame(s: State, c: nat, ok: PairId)
    requires ok in s.pairs && HasComp(s, c)
    ensures var t := NominateOk(s, c, ok);
            && t.pairs == s.pairs[ok := s.pairs[ok].(nominated := true)] && t.queue == s.queue
            && t.nextPair == s.nextPair && t.lists == s.lists
  {
    assert UpdateSelected(s, c, ok).pairs == s.pairs && UpdateSelected(s, c, ok).queue == s.queue
           && UpdateSelected(s, c, ok).lists == s.lists;
    hide Signal, UpdateSelected;
  }

  lemma NominateOkFollows(s: State, c: nat, ok: PairId)
    requires ok in s.pairs && HasComp(s, c)
    ensures Follows(s, NominateOk(s, c, ok))
  {
    hide NominateOk, Follows;
    NominateOkFrame(s, c, ok);
    SetPairFollows(s, ok, s.pairs[ok].(nominated := true));
    OnlyPairs(s, SetPair(s, ok, s.pairs[ok].(nominated := true)), NominateOk(s, c, ok));
  }

  /** A reply keeps kinship. */
  lemma ReplyKin(s: State, id: PairId, k: nat, reply: Reply)
    requires Kin(s) && Inv(s) && ReplyOk(s, id, k, reply)
    ensures Kin(HandleReply(s, id, k, reply))
  {
    hide Inv, Kin, Below, Thawed, GatheringIsEmpty, NominatedIsSelected, Follows, UpdateForReady, FinishReply, Answered,
      Recalculate, OkNominated, FailPair, HasParent;
    var c := s.pairs[id].comp;
    BelowFact(s);
    BusyRoot(s, id);
    match reply {
      case Success(sourceOk, remote, m) =>
        DropStunKeeps(s, id, k);
        DropStunFollows(s, id, k);
        var s1 := DropStun(s, id, k);
        FollowsKin(s, s1);
        SameRoot(s, s1, id);
        if !sourceOk || remote.None? {
          FailedFollows(s1, id, c);
          FollowsKin(s1, HandleReply(s, id, k, reply));
        } else {
          AnsweredKin(s1, id, remote.value, m);
          var (a, ok) := Answered(s1, id, remote.value, m);
          FinishFollows(a, id, ok);
          FollowsKin(a, FinishReply(a, id, ok));
        }
      case RoleConflict =>
        if s.pairs[id].retransmit {
          var control := !s.pairs[id].stun[k].sentControlling;
          ConflictFollows(s, control);
          var s1 := CheckForRoleConflict(s, control);
          FollowsKin(s, s1);
          RoleConflictFrame(s, control, id);
          SameRoot(s, s1, id);
          DropStunFollows(s1, id, k);
          FollowsKin(s1, DropStun(s1, id, k));
          SameRoot(s1, DropStun(s1, id, k), id);
          EnqueueFollows(DropStun(s1, id, k), id);
          FollowsKin(DropStun(s1, id, k), Enqueue(DropStun(s1, id, k), id));
        }
      case StunError =>
        FailedFollows(s, id, c);
        FollowsKin(s, HandleReply(s, id, k, reply));
    }
  }

  lemma SameRoot(s: State, t: State, id: PairId)
    requires Below(s) && Follows(s, t) && id in s.pairs && id in t.pairs && !HasParent(s.pairs, id)
    ensures !HasParent(t.pairs, id)
  {
    FollowsKind(s, t);
    assert FollowsPair(s, t, id);
    KinLink(s, t, s.pairs[id].succeeded);
  }
}
