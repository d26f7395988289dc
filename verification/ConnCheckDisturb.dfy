/** Which steps unsettle a valid pair, by the state before the step.

A tick does it when its sending phases give up, pop or sweep away the pair that a valid pair stands for; a
reply when it fails that pair, or turns it into a discovered one; a 403 by addresses; a lost socket, an
inbound nomination or an updated candidate when the discovering pair goes and the discovered one stays. */
module ConnCheckDisturb {
  import opened Basics
  import opened ConnCheckState
  import opened ConnCheckSpec
  import opened ConnCheckInvariants
  import opened ConnCheckReplies
  import opened ConnCheckSockets
  import opened ConnCheckTick
  import opened ConnCheckTicks
  import opened ConnCheckConfirm
  import opened ConnCheckKin
  import opened ConnCheckWalk
  import opened ConnCheckFates
  import opened ConnCheckSettled

  // A valid pair that is not nominated.
  predicate Unnominated(s: State, d: PairId) {
    d in s.pairs && s.pairs[d].valid && !s.pairs[d].nominated
  }

  // ----- a tick

  /** The tick unsettles `d`: `d` stays, and the pair it stands for is given up, popped before it was picked,
      or freed. */
  predicate TickUnsettles(s: State, t: TickInput, d: PairId)
    requires d in s.pairs
  {
    var q := Parent(s, d);
    if SweptAway(s, t, q) then d != q
    else GivesUp(s, t, {q}) || (Popped(s, |s.lists|, t, q) && !s.pairs[q].useCandidate)
  }

  predicate TickDisturbs(s: State, t: TickInput) {
    exists d :: d in s.pairs && Unnominated(s, d) && TickUnsettles(s, t, d)
  }

  // What the sending phases leave of an open pair.
  predicate SentSettles(s: State, u: State, d: PairId, unsettled: bool) {
    d in u.pairs ==>
      && Unnominated(u, d) && (Settled(u, d) <==> !unsettled)
      && Parent(u, d) in u.pairs && (unsettled ==> !u.pairs[Parent(u, d)].state.Succeeded?)
  }

  lemma SettledRooted(s: State, d: PairId)
    requires Kin(s) && Unnominated(s, d) && Settled(s, d)
    ensures Rooted(s, Parent(s, d)) && (d != Parent(s, d) ==> Quiet(s, d) && s.pairs[d].succeeded == Some(Parent(s, d)))
    ensures d != Parent(s, d) ==> Idle(s.pairs[d])
  {
    assert KinPair(s, d);
  }

  // An open pair that stands for itself.
  lemma SendRootSettles(s: State, t: TickInput, d: PairId)
    requires Kin(s) && Inv(s) && Unnominated(s, d) && Settled(s, d) && Parent(s, d) == d
    ensures SentSettles(s, SendPhases(s, t).0, d, TickUnsettles(s, t, d))
    ensures !(d in SendPhases(s, t).0.pairs) ==> !TickUnsettles(s, t, d)
  {
    hide Kin, Inv, SendPhases, SweptAway, GivesUp, Popped;
    SettledRooted(s, d);
    SendFate(s, t, d);
  }

  // A discovered pair and the one that discovered it.
  lemma SendChildSettles(s: State, t: TickInput, d: PairId)
    requires Kin(s) && Inv(s) && Unnominated(s, d) && Settled(s, d) && Parent(s, d) != d
    ensures d in SendPhases(s, t).0.pairs && SentSettles(s, SendPhases(s, t).0, d, TickUnsettles(s, t, d))
  {
    hide Kin, Inv, SendPhases, SweptAway, GivesUp, Popped;
    var q := Parent(s, d);
    SettledRooted(s, d);
    SendFate(s, t, q);
    SendRests(s, t, d, q);
  }

  lemma SendSettles(s: State, t: TickInput, d: PairId)
    requires Kin(s) && Inv(s) && AllSettled(s) && Unnominated(s, d)
    ensures SentSettles(s, SendPhases(s, t).0, d, TickUnsettles(s, t, d))
    ensures TickUnsettles(s, t, d) ==> d in SendPhases(s, t).0.pairs
  {
    hide Kin, Inv, SendPhases, TickUnsettles, Settled, SentSettles;
    assert Settled(s, d);
    if Parent(s, d) == d {
      SendRootSettles(s, t, d);
    } else {
      SendChildSettles(s, t, d);
    }
  }

  lemma SendOld(s: State, t: TickInput, d: PairId)
    requires Kin(s) && Inv(s) && d in SendPhases(s, t).0.pairs
    ensures d in s.pairs && SendPhases(s, t).0.pairs[d].valid == s.pairs[d].valid
    ensures s.pairs[d].nominated ==> SendPhases(s, t).0.pairs[d].nominated
  {
    hide Kin, Inv, SendPhases, Below;
    BelowFact(s);
    SendPhasesFollow(s, t);
    assert FollowsPair(s, SendPhases(s, t).0, d);
  }

  // What nomination cannot mend: an unsettled pair stands for one that has not succeeded.
  predicate Hopeless(s: State) {
    forall d :: d in s.pairs && s.pairs[d].valid && !Settled(s, d) ==>
      Parent(s, d) in s.pairs && !s.pairs[Parent(s, d)].state.Succeeded?
  }

  lemma SentSettled(s: State, t: TickInput)
    requires Kin(s) && Inv(s) && AllSettled(s)
    ensures var u := SendPhases(s, t).0; Hopeless(u) && (AllSettled(u) <==> !TickDisturbs(s, t))
  {
    hide Kin, Inv, SendPhases, TickUnsettles, Settled;
    var u := SendPhases(s, t).0;
    forall d | Unnominated(s, d)
      ensures SentSettles(s, u, d, TickUnsettles(s, t, d)) && (TickUnsettles(s, t, d) ==> d in u.pairs)
    {
      SendSettles(s, t, d);
    }
    forall d | d in u.pairs && u.pairs[d].valid
      ensures Unnominated(s, d) || Settled(u, d)
    {
      SendOld(s, t, d);
      if s.pairs[d].nominated {
        NominatedSettled(u, d);
      }
    }
    forall d | d in u.pairs && u.pairs[d].valid && !Settled(u, d)
      ensures Parent(u, d) in u.pairs && !u.pairs[Parent(u, d)].state.Succeeded? && TickDisturbs(s, t)
    {
      assert Unnominated(s, d);
    }
  }

  lemma PickSettles(u: State, v: State)
    requires OnlyPicks(u, v) && Hopeless(u)
    ensures AllSettled(v) <==> AllSettled(u)
  {
    hide Settled, SameButPick;
    forall d | d in u.pairs
      ensures d in v.pairs && v.pairs[d].valid == u.pairs[d].valid
      ensures u.pairs[d].valid ==> (Settled(v, d) <==> Settled(u, d))
    {
      PickedValid(u, v, d);
      if u.pairs[d].valid {
        PickedSettles(u, v, d);
      }
    }
  }

  lemma PickedValid(u: State, v: State, d: PairId)
    requires OnlyPicks(u, v) && d in u.pairs
    ensures d in v.pairs && v.pairs[d].valid == u.pairs[d].valid
  {
    assert SameButPick(u.pairs[d], v.pairs[d]);
  }

  lemma PickedSettles(u: State, v: State, d: PairId)
    requires OnlyPicks(u, v) && d in u.pairs && (Settled(u, d) || !u.pairs[Parent(u, d)].state.Succeeded?)
    ensures d in v.pairs && (Settled(v, d) <==> Settled(u, d))
  {
    assert SameButPick(u.pairs[d], v.pairs[d]);
    assert Parent(v, d) == Parent(u, d);
    assert SameButPick(u.pairs[Parent(u, d)], v.pairs[Parent(u, d)]);
    hide OnlyPicks;
  }

  lemma SettledPairs(s: State, t: State)
    requires t.pairs == s.pairs
    ensures AllSettled(t) == AllSettled(s)
  {
    forall d | d in s.pairs
      ensures Settled(t, d) == Settled(s, d)
    {
      assert Parent(t, d) == Parent(s, d);
    }
  }

  /** From settled pairs, a tick leaves every valid pair settled exactly if it disturbs none; and then the
      assertions of nomination hold in it. */
  lemma TickSettled(s: State, t: TickInput)
    requires Kin(s) && Inv(s) && AllSettled(s)
    ensures CompsOk(s.comps, |s.lists|)
    ensures AllSettled(Tick(s, t).0) <==> !TickDisturbs(s, t)
    ensures s.fault.NoFault? && !TickDisturbs(s, t) ==> !Tick(s, t).0.fault.ValidPairNotSucceeded?
  {
    hide Kin, Inv, Thawed, GatheringIsEmpty, NominatedIsSelected, SendPhases, NominatePhase, TickDisturbs, AllSettled, LinksOk,
      OnlyPicks, Hopeless, PhaseTrips;
    LinksFact(s);
    SendPhasesKeep(s, t);
    SentSettled(s, t);
    var u := SendPhases(s, t).0;
    LinksFact(u);
    NominatePhasePicks(u, 0);
    var v := NominatePhase(u, 0).0;
    PickSettles(u, v);
    SettledPairs(v, Tick(s, t).0);
    if s.fault.NoFault? && !TickDisturbs(s, t) {
      SettledNominates(u);
      TickUnconfirmed(s, t);
    }
  }

  // Nomination looks at a pair of the undecided component `c` that the tick unsettled.
  predicate LooksAtUnsettled(s: State, t: TickInput, u: State, c: nat)
    requires c < |u.comps| && u.comps[c].stream < |u.lists|
  {
    var n := u.comps[c].stream;
    && WantsNomination(u, n) && !Decided(u, n, c)
    && exists k :: 0 <= k < |u.lists[n]| && LookedAt(u, c, u.lists[n], LikeAt(u, 0, c), k) &&
         u.lists[n][k] in s.pairs && TickUnsettles(s, t, u.lists[n][k])
  }

  lemma LookedUnsettled(s: State, t: TickInput, c: nat, k: nat)
    requires Kin(s) && Inv(s) && AllSettled(s) && Inv(SendPhases(s, t).0)
    requires var u := SendPhases(s, t).0;
             && c < |u.comps| && u.comps[c].stream < |u.lists| && k < |u.lists[u.comps[c].stream]|
             && !Decided(u, u.comps[c].stream, c) && Eligible(u, c, u.lists[u.comps[c].stream][k])
    ensures var u := SendPhases(s, t).0;
            var d := u.lists[u.comps[c].stream][k];
            d in s.pairs && (Confirmed(u, d) <==> !TickUnsettles(s, t, d))
  {
    hide Kin, Inv, AllSettled, SendPhases, TickUnsettles, Confirmed, Decided, Awaited;
    var u := SendPhases(s, t).0;
    var d := u.lists[u.comps[c].stream][k];
    SendOld(s, t, d);
    SendSettles(s, t, d);
    if Awaited(u, d) {
      AwaitedDecided(u, d);
    }
  }

  /** From settled pairs, a tick fails an assertion of nomination exactly when, its checks sent, nomination
      looks at a pair that the tick unsettled. */
  lemma TickFails(s: State, t: TickInput)
    requires Kin(s) && Inv(s) && AllSettled(s) && s.fault.NoFault?
    ensures CompsOk(s.comps, |s.lists|)
    ensures var u := SendPhases(s, t).0;
            Tick(s, t).0.fault.ValidPairNotSucceeded? <==>
            && !GivesUp(s, t, ExposedPairs(s))
            && exists c :: 0 <= c < |u.comps| && u.comps[c].stream < |u.lists| && LooksAtUnsettled(s, t, u, c)
  {
    hide Kin, Inv, AllSettled, Thawed, GatheringIsEmpty, NominatedIsSelected, SendPhases, Tick, WantsNomination, Decided, LikeAt,
      Confirmed, TickUnsettles, GivesUp, ExposedPairs;
    TickUnconfirmed(s, t);
    SendPhasesKeep(s, t);
    SendPhasesZero(s, t);
    var u := SendPhases(s, t).0;
    forall c | 0 <= c < |u.comps| && u.comps[c].stream < |u.lists|
      ensures NominationTrips(u, 0, c) <==> LooksAtUnsettled(s, t, u, c)
    {
      LooksTrips(s, t, c);
    }
    hide NominationTrips, LooksAtUnsettled;
  }

  lemma LooksTrips(s: State, t: TickInput, c: nat)
    requires Kin(s) && Inv(s) && AllSettled(s) && Inv(SendPhases(s, t).0)
    requires var u := SendPhases(s, t).0; c < |u.comps| && u.comps[c].stream < |u.lists|
    ensures var u := SendPhases(s, t).0; NominationTrips(u, 0, c) <==> LooksAtUnsettled(s, t, u, c)
  {
    hide Kin, Inv, AllSettled, SendPhases, WantsNomination, Decided, LikeAt, Confirmed, TickUnsettles, Eligible, Passed;
    var u := SendPhases(s, t).0;
    var n := u.comps[c].stream;
    if !Decided(u, n, c) {
      forall k | 0 <= k < |u.lists[n]| && Eligible(u, c, u.lists[n][k])
        ensures u.lists[n][k] in s.pairs && u.lists[n][k] in u.pairs
        ensures Confirmed(u, u.lists[n][k]) <==> !TickUnsettles(s, t, u.lists[n][k])
      {
        EligibleHere(u, c, u.lists[n][k]);
        LookedUnsettled(s, t, c, k);
      }
    }
  }

  lemma EligibleHere(s: State, c: nat, d: PairId)
    requires Eligible(s, c, d)
    ensures d in s.pairs
  {
  }

  // ----- a reply that fails the check

  /** The failed check unsettles a valid pair: it fails the pair that stands for it, or the list update frees
      that pair and not the valid one. */
  predicate FailureDisturbs(s: State, id: PairId)
    requires id in s.pairs && s.pairs[id].comp < |s.comps|
  {
    exists d :: d in s.pairs && Unnominated(s, d) && FailureUnsettles(s, id, d)
  }

  predicate FailureUnsettles(s: State, id: PairId, d: PairId)
    requires id in s.pairs && s.pairs[id].comp < |s.comps| && d in s.pairs
  {
    var f, c := FailPair(s, id), s.pairs[id].comp;
    && d in f.pairs && Parent(s, d) in f.pairs && Kept(f, c, d)
    && (Parent(s, d) == id || (HasParent(s.pairs, d) && !Kept(f, c, Parent(s, d))))
  }

  lemma FailUnsettles(s: State, id: PairId, d: PairId)
    requires Kin(s) && id in s.pairs && !HasParent(s.pairs, id) && Unnominated(s, d) && Settled(s, d)
    ensures Unnominated(FailPair(s, id), d) && (Settled(FailPair(s, id), d) <==> Parent(s, d) != id)
    ensures Parent(s, d) in FailPair(s, id).pairs
  {
    var f, q := FailPair(s, id), Parent(s, d);
    FailKeys(s, id, d);
    assert KinPair(s, d);
    FailedOther(s, id, q);
    FailedOther(s, id, d);
    hide FailPair, Kin;
    assert Parent(f, d) == q;
  }

  // A pair fails along with `id` exactly if `id` discovered it.
  lemma FailedOther(s: State, id: PairId, x: PairId)
    requires Kin(s) && id in s.pairs && x in s.pairs && !HasParent(s.pairs, id)
    ensures var f := FailPair(s, id);
            && x in f.pairs && f.pairs[x].useCandidate == s.pairs[x].useCandidate
            && (x == id ==> f.pairs[x].state.FailedCheck?)
            && (Parent(s, x) != id ==> f.pairs[x].state == s.pairs[x].state)
  {
    assert KinPair(s, id);
  }

  lemma FailKeys(s: State, id: PairId, d: PairId)
    requires id in s.pairs && d in s.pairs
    ensures FailPair(s, id).pairs.Keys == s.pairs.Keys && FailPair(s, id).pairs[d].valid == s.pairs[d].valid
    ensures FailPair(s, id).pairs[d].nominated == s.pairs[d].nominated && FailPair(s, id).pairs[d].succeeded == s.pairs[d].succeeded
  {
  }

  lemma FailedSettles(s: State, id: PairId, d: PairId)
    requires Kin(s) && Below(s) && id in s.pairs && s.pairs[id].comp < |s.comps| && !HasParent(s.pairs, id)
    requires Unnominated(s, d) && Settled(s, d)
    ensures var f, t := FailPair(s, id), UpdateForReady(FailPair(s, id), s.pairs[id].comp);
            && d in f.pairs && (d in t.pairs <==> Kept(f, s.pairs[id].comp, d))
            && (d in t.pairs ==> Unnominated(t, d) && (Settled(t, d) <==> !FailureUnsettles(s, id, d)))
  {
    hide Kin, Below, Follows, Unmoved, FailPair, UpdateForReady, Kept, Settled;
    var f, c := FailPair(s, id), s.pairs[id].comp;
    FailKeys(s, id, id);
    FailKeys(s, id, d);
    FailComps(s, id);
    FailUnsettles(s, id, d);
    FailFollows(s, id);
    FollowsKin(s, f);
    var t := UpdateForReady(f, c);
    UpdateForReadyKept(f, c, d);
    UpdateForReadyUnmoved(f, c);
    if d in t.pairs {
      UpdateForReadyFlags(f, c, d);
      SettledStep(f, t, d);
      if HasParent(s.pairs, d) {
        UpdateForReadyKept(f, c, s.pairs[d].succeeded.value);
      }
    }
  }

  lemma UpdateForReadyFlags(s: State, c: nat, d: PairId)
    requires c < |s.comps| && d in UpdateForReady(s, c).pairs
    ensures d in s.pairs
    ensures var t := UpdateForReady(s, c);
            t.pairs[d].valid == s.pairs[d].valid && t.pairs[d].nominated == s.pairs[d].nominated
  {
    hide UpdateForReady;
    UpdateForReadyThins(s, c);
    assert Thinned(s.pairs[d], UpdateForReady(s, c).pairs[d]);
  }

  lemma FailureSettled(s: State, id: PairId)
    requires Kin(s) && Below(s) && AllSettled(s) && id in s.pairs && s.pairs[id].comp < |s.comps| && !HasParent(s.pairs, id)
    ensures AllSettled(UpdateForReady(FailPair(s, id), s.pairs[id].comp)) <==> !FailureDisturbs(s, id)
  {
    hide Kin, Below, Settled, FailPair, UpdateForReady, FailureUnsettles;
    var f, c := FailPair(s, id), s.pairs[id].comp;
    FailComps(s, id);
    var t := UpdateForReady(f, c);
    forall d | Unnominated(s, d)
      ensures d in t.pairs ==> Unnominated(t, d) && (Settled(t, d) <==> !FailureUnsettles(s, id, d))
      ensures FailureUnsettles(s, id, d) ==> d in t.pairs
    {
      FailedSettles(s, id, d);
      if FailureUnsettles(s, id, d) {
        UnsettlesKept(s, id, d);
      }
    }
    FailKeys(s, id, id);
    forall d | d in t.pairs && t.pairs[d].valid
      ensures Unnominated(s, d) || Settled(t, d)
    {
      UpdateForReadyFlags(f, c, d);
      FailKeys(s, id, d);
      if t.pairs[d].nominated {
        NominatedSettled(t, d);
      }
    }
    if FailureDisturbs(s, id) {
      var d :| Unnominated(s, d) && FailureUnsettles(s, id, d);
      assert d in t.pairs && t.pairs[d].valid && !Settled(t, d);
    }
  }

  lemma UnsettlesKept(s: State, id: PairId, d: PairId)
    requires id in s.pairs && s.pairs[id].comp < |s.comps| && d in s.pairs && FailureUnsettles(s, id, d)
    ensures d in FailPair(s, id).pairs && FailPair(s, id).comps == s.comps && Kept(FailPair(s, id), s.pairs[id].comp, d)
  {
    hide Kept;
  }

  // ----- a successful reply

  // The state in which the list update that ends the reply finds the pairs.
  function Readied(s: State, id: PairId, ok: PairId): (t: State)
    requires id in s.pairs && ok in s.pairs && HasComp(s, s.pairs[id].comp)
    ensures SameBase(s, t)
  {
    if Nominates(s, s.pairs[id]) || s.pairs[ok].nominated then NominateOk(s, s.pairs[id].comp, ok) else s
  }

  lemma FinishIs(s: State, id: PairId, ok: PairId)
    requires id in s.pairs && ok in s.pairs && HasComp(s, s.pairs[id].comp)
    ensures FinishReply(s, id, ok) == UpdateForReady(Readied(s, id, ok), s.pairs[id].comp)
  {
    hide UpdateForReady, NominateOk, Nominates;
  }

  // What the reply to the check of `id`, mapped to the listed pair `found`, makes of the pair `x`.
  predicate AnsweredPair(s: State, u: State, id: PairId, found: Option<PairId>, x: PairId)
    requires x in u.pairs
  {
    var q := u.pairs[x];
    if x in s.pairs then
      var p := s.pairs[x];
      && q.useCandidate == p.useCandidate && q.succeeded == p.succeeded && (p.nominated ==> q.nominated)
      && (x != id ==> q.valid == p.valid)
      && (if x == id then q.state.Succeeded?
          else if found == Some(x) then q.state.Discovered?
          else q.state == p.state || (Pending(p) && Pending(q)))
    else x == s.nextPair && q.succeeded == Some(id) && q.state.Discovered? && found.None?
  }

  predicate AnsweredPairs(s: State, u: State, id: PairId, found: Option<PairId>) {
    s.pairs.Keys <= u.pairs.Keys && forall x :: x in u.pairs ==> AnsweredPair(s, u, id, found, x)
  }

  lemma SucceedAnswers(s: State, id: PairId)
    requires id in s.pairs
    ensures AnsweredPairs(s, Succeed(s, id), id, None) && AnsweredPairs(s, Succeed(s, id), id, Some(id))
  {
    hide FilterOut;
  }

  lemma ConfirmAnswers(s: State, id: PairId, q: PairId)
    requires id in s.pairs && q in s.pairs
    ensures AnsweredPairs(s, Succeed(Confirm(s, id, q), id), id, Some(q))
  {
    hide Succeed;
    var a := Confirm(s, id, q);
    var t := Succeed(a, id);
    SucceededPairs(a, id);
    forall x | x in t.pairs
      ensures AnsweredPair(s, t, id, Some(q), x)
    {
    }
  }

  lemma SucceededPairs(s: State, id: PairId)
    requires id in s.pairs
    ensures Succeed(s, id).pairs == s.pairs[id := s.pairs[id].(state := Succeeded, stun := [], retransmit := false)]
  {
    hide FilterOut;
  }

  lemma LearnAnswers(s: State, id: PairId, l: CandId)
    requires Inv(s) && id in s.pairs && l in s.cands && s.cands[l].isLocal && s.cands[l].owner == s.pairs[id].comp
    ensures HasComp(s, s.pairs[id].comp) && s.pairs[id].remote in s.cands
    ensures AnsweredPairs(s, Succeed(AddPeerReflexive(s, l, id), id), id, None)
  {
    hide Inv, AddPeerReflexive, FilterOut;
    AddPeerReflexiveInv(s, l, id);
    FreshFrom(s, id);
  }

  lemma ProcessAnswers(s: State, id: PairId, r: CandId, m: Mapped)
    requires Inv(s) && id in s.pairs && HasComp(s, s.pairs[id].comp) && s.pairs[id].remote in s.cands
    requires MappedOk(s, s.pairs[id].comp, m) && !m.NoAddress?
    ensures AnsweredPairs(s, ProcessResponse(s, id, r, m).0, id, MappedPair(s, s.pairs[id].comp, r, m))
  {
    hide Inv, AnsweredPairs, AddPeerReflexive, Succeed, LearnLocal, MappedPair, Confirm;
    var c := s.pairs[id].comp;
    var found := MappedPair(s, c, r, m);
    if found.Some? {
      FoundComp(s, id, r, m);
      ConfirmAnswers(s, id, found.value);
    } else if m.Unknown? && s.cfg.forceRelay {
      SucceedAnswers(s, id);
    } else if m.Known? {
      LearnAnswers(s, id, m.local);
    } else {
      var s1 := LearnLocal(s, c, m.learned);
      LearnLocalInv(s, c, m.learned);
      LearnFrame(s, c, m.learned);
      LearnAnswers(s1, id, s.nextCand);
      AnsweredStart(s1, s, ProcessResponse(s, id, r, m).0, id, found);
    }
  }

  lemma AnsweredStart(s: State, s': State, u: State, id: PairId, found: Option<PairId>)
    requires AnsweredPairs(s, u, id, found) && s'.pairs == s.pairs && s'.nextPair == s.nextPair
    ensures AnsweredPairs(s', u, id, found)
  {
    forall x | x in u.pairs
      ensures AnsweredPair(s', u, id, found, x)
    {
      assert AnsweredPair(s, u, id, found, x);
    }
  }

  lemma ThawAnswers(s: State, t: State, f: string, id: PairId, found: Option<PairId>)
    requires AnsweredPairs(s, t, id, found)
    ensures AnsweredPairs(s, UnfreezeRelated(t, f), id, found)
  {
    forall x | x in t.pairs
      ensures AnsweredPair(s, UnfreezeRelated(t, f), id, found, x)
    {
      assert AnsweredPair(s, t, id, found, x);
    }
  }

  lemma AnswerAnswers(s: State, id: PairId, r: CandId, m: Mapped)
    requires Inv(s) && id in s.pairs && HasComp(s, s.pairs[id].comp) && s.pairs[id].remote in s.cands
    requires MappedOk(s, s.pairs[id].comp, m)
    ensures AnsweredPairs(s, Answered(s, id, r, m).0, id, MappedPair(s, s.pairs[id].comp, r, m))
  {
    hide Inv, AnsweredPairs, ProcessResponse, UnfreezeRelated, MappedPair;
    var found := MappedPair(s, s.pairs[id].comp, r, m);
    if m.NoAddress? {
      NoMappedPair(s, s.pairs[id].comp, r, m);
      NoAddressAnswers(s, id);
      ThawAnswers(s, SetPair(s, id, s.pairs[id].(state := Succeeded, valid := true)), s.pairs[id].foundation, id, found);
    } else {
      ProcessAnswers(s, id, r, m);
      ThawAnswers(s, ProcessResponse(s, id, r, m).0, s.pairs[id].foundation, id, found);
    }
  }

  lemma NoAddressAnswers(s: State, id: PairId)
    requires id in s.pairs
    ensures AnsweredPairs(s, SetPair(s, id, s.pairs[id].(state := Succeeded, valid := true)), id, None)
  {
  }

  lemma ReadyAnswers(s: State, a: State, id: PairId, ok: PairId, found: Option<PairId>)
    requires AnsweredPairs(s, a, id, found) && id in a.pairs && ok in a.pairs && HasComp(a, a.pairs[id].comp)
    ensures AnsweredPairs(s, Readied(a, id, ok), id, found)
  {
    hide NominateOk, Nominates, AnsweredPairs;
    NominateOkFrame(a, a.pairs[id].comp, ok);
    NominatedAnswers(s, a, Readied(a, id, ok), id, ok, found);
  }

  lemma NominatedAnswers(s: State, a: State, u: State, id: PairId, ok: PairId, found: Option<PairId>)
    requires AnsweredPairs(s, a, id, found) && ok in a.pairs
    requires u.pairs == a.pairs || u.pairs == a.pairs[ok := a.pairs[ok].(nominated := true)]
    ensures AnsweredPairs(s, u, id, found)
  {
    forall x | x in u.pairs
      ensures AnsweredPair(s, u, id, found, x)
    {
      assert AnsweredPair(s, a, id, found, x);
    }
  }

  // The reply unsettles a pair by itself: a discovered pair was checked, or the pair it stands for is now a
  // discovered one.
  predicate Turns(s: State, u: State, id: PairId, found: Option<PairId>, d: PairId)
    requires id in s.pairs && d in u.pairs
  {
    || (d == id && s.pairs[id].succeeded.Some? && !s.pairs[id].useCandidate)
    || (found == Some(Parent(u, d)) && Parent(u, d) != id)
  }

  lemma AnsweredParent(s: State, u: State, id: PairId, found: Option<PairId>, d: PairId)
    requires Kin(s) && Below(s) && Kin(u) && id in s.pairs && AnsweredPairs(s, u, id, found) && d in u.pairs
    requires found.Some? ==> found.value in s.pairs
    ensures d in s.pairs ==> Parent(u, d) == Parent(s, d) && Parent(s, d) in s.pairs && Parent(s, d) in u.pairs
    ensures d !in s.pairs ==> Parent(u, d) == id && id in u.pairs && u.pairs[id].state.Succeeded? && d != id
    ensures id in u.pairs && Parent(u, id) == id
  {
    assert AnsweredPair(s, u, id, found, d);
    assert AnsweredPair(s, u, id, found, id);
    BusyRoot(u, id);
    if d in s.pairs {
      var l := s.pairs[d].succeeded;
      if l.Some? && l.value in u.pairs {
        assert AnsweredPair(s, u, id, found, l.value);
      }
    }
  }

  lemma AnswerSettles(s: State, u: State, id: PairId, found: Option<PairId>, d: PairId)
    requires Kin(s) && Below(s) && Kin(u) && AllSettled(s) && id in s.pairs && AnsweredPairs(s, u, id, found)
    requires !HasParent(s.pairs, id) && (found.Some? ==> found.value in s.pairs) && d in u.pairs && Unnominated(u, d)
    ensures Settled(u, d) <==> !Turns(s, u, id, found, d)
  {
    AnsweredParent(s, u, id, found, d);
    assert AnsweredPair(s, u, id, found, d);
    assert AnsweredPair(s, u, id, found, id);
    assert AnsweredPair(s, u, id, found, Parent(u, d));
    if d in s.pairs {
      assert KinPair(s, d);
      assert d != id ==> Settled(s, d);
    }
    hide Kin, Below, AllSettled, AnsweredPairs;
  }

  /** The answer unsettles a valid pair: by itself, or because the list update frees the pair it stands for. */
  predicate AnswerDisturbs(s: State, id: PairId, k: nat, r: CandId, m: Mapped)
    requires ReplyOk(s, id, k, Success(true, Some(r), m))
  {
    var (a, ok) := Answered(DropStun(s, id, k), id, r, m);
    var u := Readied(a, id, ok);
    exists d :: d in u.pairs && Unnominated(u, d) && AnswerUnsettles(s, u, id, MappedPair(s, s.pairs[id].comp, r, m), d)
  }

  predicate AnswerUnsettles(s: State, u: State, id: PairId, found: Option<PairId>, d: PairId)
    requires id in s.pairs && s.pairs[id].comp < |u.comps| && d in u.pairs
  {
    var c := s.pairs[id].comp;
    Kept(u, c, d) && (Turns(s, u, id, found, d) || (HasParent(u.pairs, d) && !Kept(u, c, u.pairs[d].succeeded.value)))
  }

  lemma ConcludedSettles(s: State, u: State, id: PairId, found: Option<PairId>, d: PairId)
    requires Kin(s) && Below(s) && Kin(u) && Below(u) && AllSettled(s) && id in s.pairs && AnsweredPairs(s, u, id, found)
    requires !HasParent(s.pairs, id) && (found.Some? ==> found.value in s.pairs) && d in u.pairs && Unnominated(u, d)
    requires s.pairs[id].comp < |u.comps|
    ensures var c := s.pairs[id].comp; var t := UpdateForReady(u, c);
            && (d in t.pairs <==> Kept(u, c, d))
            && (d in t.pairs ==> Unnominated(t, d) && (Settled(t, d) <==> !AnswerUnsettles(s, u, id, found, d)))
  {
    hide Kin, Below, AllSettled, AnsweredPairs, Settled, Turns, UpdateForReady, Kept, Unmoved;
    var c := s.pairs[id].comp;
    var t := UpdateForReady(u, c);
    AnswerSettles(s, u, id, found, d);
    UpdateForReadyKept(u, c, d);
    UpdateForReadyUnmoved(u, c);
    if d in t.pairs {
      UpdateForReadyFlags(u, c, d);
      SettledStep(u, t, d);
      if HasParent(u.pairs, d) {
        UpdateForReadyKept(u, c, u.pairs[d].succeeded.value);
      }
    }
  }

  lemma ConcludedSettled(s: State, u: State, id: PairId, found: Option<PairId>)
    requires Kin(s) && Below(s) && Kin(u) && Below(u) && AllSettled(s) && id in s.pairs && AnsweredPairs(s, u, id, found)
    requires !HasParent(s.pairs, id) && (found.Some? ==> found.value in s.pairs) && s.pairs[id].comp < |u.comps|
    ensures AllSettled(UpdateForReady(u, s.pairs[id].comp)) <==>
            !exists d :: d in u.pairs && Unnominated(u, d) && AnswerUnsettles(s, u, id, found, d)
  {
    hide Kin, Below, Settled, AnsweredPairs, UpdateForReady, AnswerUnsettles;
    var c := s.pairs[id].comp;
    var t := UpdateForReady(u, c);
    forall d | d in u.pairs && Unnominated(u, d)
      ensures d in t.pairs ==> Unnominated(t, d) && (Settled(t, d) <==> !AnswerUnsettles(s, u, id, found, d))
      ensures AnswerUnsettles(s, u, id, found, d) ==> d in t.pairs
    {
      ConcludedSettles(s, u, id, found, d);
      UnsettlesStays(s, u, id, found, d);
    }
    forall d | d in t.pairs && t.pairs[d].valid
      ensures Unnominated(u, d) || Settled(t, d)
    {
      UpdateForReadyFlags(u, c, d);
      if t.pairs[d].nominated {
        NominatedSettled(t, d);
      }
    }
  }

  lemma UnsettlesStays(s: State, u: State, id: PairId, found: Option<PairId>, d: PairId)
    requires id in s.pairs && s.pairs[id].comp < |u.comps| && d in u.pairs
    ensures AnswerUnsettles(s, u, id, found, d) ==> Kept(u, s.pairs[id].comp, d)
  {
    hide Kept, Turns;
  }

  // Dropping the transaction matters to nothing here.
  lemma DroppedSettles(s: State, id: PairId, k: nat)
    requires id in s.pairs && k < |s.pairs[id].stun|
    ensures AllSettled(DropStun(s, id, k)) == AllSettled(s)
  {
    var t := DropStun(s, id, k);
    forall d | d in s.pairs
      ensures t.pairs[d].valid == s.pairs[d].valid && Settled(t, d) == Settled(s, d)
    {
      assert Parent(t, d) == Parent(s, d);
    }
  }

  lemma DroppedMaps(s: State, id: PairId, k: nat, c: nat, r: CandId, m: Mapped)
    requires id in s.pairs && k < |s.pairs[id].stun| && HasComp(s, c)
    ensures MappedPair(DropStun(s, id, k), c, r, m) == MappedPair(s, c, r, m)
  {
    var t := DropStun(s, id, k);
    if m.Known? {
      SameFirst(StreamList(s, c), q => q in s.pairs && s.pairs[q].local == m.local && s.pairs[q].remote == r,
                q => q in t.pairs && t.pairs[q].local == m.local && t.pairs[q].remote == r);
    }
  }

  lemma DroppedTurns(s: State, u: State, id: PairId, k: nat, found: Option<PairId>, d: PairId)
    requires id in s.pairs && k < |s.pairs[id].stun| && s.pairs[id].comp < |u.comps| && d in u.pairs
    ensures AnswerUnsettles(DropStun(s, id, k), u, id, found, d) == AnswerUnsettles(s, u, id, found, d)
  {
    hide Kept;
  }

  lemma AnswerSettled(s: State, id: PairId, k: nat, r: CandId, m: Mapped)
    requires Kin(s) && Inv(s) && AllSettled(s) && ReplyOk(s, id, k, Success(true, Some(r), m))
    ensures AllSettled(HandleReply(s, id, k, Success(true, Some(r), m))) <==> !AnswerDisturbs(s, id, k, r, m)
  {
    hide Inv, Kin, Below, Follows, AllSettled, AnsweredPairs, Answered, FinishReply, UpdateForReady, Readied, AnswerUnsettles,
      Thawed, GatheringIsEmpty, NominatedIsSelected, OkNominated, MappedPair, HasParent, Unnominated;
    var s1 := DropStun(s, id, k);
    var c := s.pairs[id].comp;
    BelowFact(s);
    DropStunKeeps(s, id, k);
    DropStunFollows(s, id, k);
    BusyRoot(s, id);
    FollowsKin(s, s1);
    SameRoot(s, s1, id);
    DroppedSettles(s, id, k);
    DroppedMaps(s, id, k, c, r, m);
    var found := MappedPair(s1, c, r, m);
    FoundComp(s1, id, r, m);
    AnswerAnswers(s1, id, r, m);
    AnsweredKin(s1, id, r, m);
    var (a, ok) := Answered(s1, id, r, m);
    FinishIs(a, id, ok);
    ReadyAnswers(s1, a, id, ok, found);
    ReadyKin(a, id, ok);
    var u := Readied(a, id, ok);
    ConcludedSettled(s1, u, id, found);
    forall d | d in u.pairs
      ensures AnswerUnsettles(s1, u, id, found, d) == AnswerUnsettles(s, u, id, found, d)
    {
      DroppedTurns(s, u, id, k, found, d);
    }
  }

  lemma ReadyKin(a: State, id: PairId, ok: PairId)
    requires Kin(a) && Below(a) && id in a.pairs && ok in a.pairs && HasComp(a, a.pairs[id].comp)
    ensures var u := Readied(a, id, ok); Kin(u) && Below(u)
  {
    hide Kin, Below, Follows, NominateOk, Nominates;
    NominateOkFollows(a, a.pairs[id].comp, ok);
    FollowsSame(a);
    FollowsKin(a, Readied(a, id, ok));
  }

  // ----- every reply

  /** The reply unsettles a valid pair. */
  predicate ReplyDisturbs(s: State, id: PairId, k: nat, reply: Reply)
    requires ReplyOk(s, id, k, reply)
  {
    match reply
    case Success(sourceOk, remote, m) =>
      if sourceOk && remote.Some? then AnswerDisturbs(s, id, k, remote.value, m) else FailureDisturbs(s, id)
    case RoleConflict => false
    case StunError => FailureDisturbs(s, id)
  }

  lemma ConflictReplySettled(s: State, id: PairId, k: nat)
    requires Kin(s) && Inv(s) && AllSettled(s) && ReplyOk(s, id, k, RoleConflict)
    ensures AllSettled(HandleReply(s, id, k, RoleConflict))
  {
    hide Inv, Kin, Below, Follows, Unmoved, AllSettled, Recalculate;
    if s.pairs[id].retransmit {
      var control := !s.pairs[id].stun[k].sentControlling;
      var s1 := CheckForRoleConflict(s, control);
      BelowFact(s);
      BusyRoot(s, id);
      ConflictUnmoved(s, control);
      UnmovedFollows(s, s1);
      ConflictKeys(s, control);
      RoleConflictFrame(s, control, id);
      SameRoot(s, s1, id);
      DropUnmoved(s1, id, k);
      var s2 := DropStun(s1, id, k);
      DropStunFollows(s1, id, k);
      FollowsBelow(s, s1);
      SameRoot(s1, s2, id);
      EnqueueUnmoved(s2, id);
      UnmovedTrans(s, s1, s2);
      UnmovedTrans(s, s2, Enqueue(s2, id));
      SameKeysSettled(s, Enqueue(s2, id));
    }
  }

  lemma ConflictKeys(s: State, control: bool)
    ensures CheckForRoleConflict(s, control).pairs.Keys == s.pairs.Keys
  {
    hide StableSort;
  }

  lemma DropUnmoved(s: State, id: PairId, k: nat)
    requires id in s.pairs && k < |s.pairs[id].stun|
    ensures Unmoved(s, DropStun(s, id, k))
  {
    hide Follows;
    DropStunFollows(s, id, k);
    StatesUnmoved(s, DropStun(s, id, k));
  }

  // Where no pair goes, no pair is unsettled.
  lemma SameKeysSettled(s: State, t: State)
    requires Kin(s) && Below(s) && Unmoved(s, t) && AllSettled(s) && s.pairs.Keys <= t.pairs.Keys
    ensures AllSettled(t)
  {
    hide Kin, Below, Unmoved, AllSettled;
    OrphanStep(s, t);
  }

  lemma FailedDrop(s: State, id: PairId, k: nat)
    requires id in s.pairs && k < |s.pairs[id].stun|
    ensures FailPair(DropStun(s, id, k), id) == FailPair(s, id)
  {
    hide FailPair;
    FailOverwrites(s, id, DropStun(s, id, k).pairs[id]);
  }

  /** From settled pairs, a reply leaves every valid pair settled exactly if it disturbs none. */
  lemma ReplySettled(s: State, id: PairId, k: nat, reply: Reply)
    requires Kin(s) && Inv(s) && AllSettled(s) && ReplyOk(s, id, k, reply)
    ensures AllSettled(HandleReply(s, id, k, reply)) <==> !ReplyDisturbs(s, id, k, reply)
  {
    hide Inv, Kin, Below, AllSettled, AnswerDisturbs, FailureDisturbs, FailPair, UpdateForReady, Answered, FinishReply, Recalculate;
    match reply {
      case Success(sourceOk, remote, m) =>
        if sourceOk && remote.Some? {
          AnswerSettled(s, id, k, remote.value, m);
        } else {
          BelowFact(s);
          BusyRoot(s, id);
          FailedDrop(s, id, k);
          FailureSettled(s, id);
        }
      case RoleConflict => ConflictReplySettled(s, id, k);
      case StunError =>
        BelowFact(s);
        BusyRoot(s, id);
        FailureSettled(s, id);
    }
  }
}
