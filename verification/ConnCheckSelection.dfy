/** Exactly when the two assertions about the selected pair fail, for the handlers that reach them with a
single pair in hand. A component is exposed once its selection is gone while a valid pair of it is
still nominated. */
module ConnCheckSelection {
  import opened Basics
  import opened CandidatePriority
  import opened ConnCheckState
  import opened ConnCheckSpec
  import opened ConnCheckInvariants
  import opened ConnCheckHandlers
  import opened ConnCheckReplies
  import opened ConnCheckSessions
  import opened ConnCheckSockets
  import opened ConnCheckRenames

  predicate Exposed(s: State, c: nat) {
    c < |s.comps| && HasValidNominated(s, c) && s.comps[c].selPriority == 0
  }

  // ----- replies

  // The same pairs are valid and nominated.
  ghost predicate SameNominated(s: State, t: State) {
    forall x :: BothFlags(t, x) == BothFlags(s, x) && (BothFlags(s, x) ==> t.pairs[x].comp == s.pairs[x].comp)
  }

  predicate BothFlags(s: State, x: PairId) {
    x in s.pairs && s.pairs[x].valid && s.pairs[x].nominated
  }

  lemma NominatedSame(s: State, t: State, c: nat)
    requires SameNominated(s, t)
    ensures HasValidNominated(t, c) == HasValidNominated(s, c)
  {
    if HasValidNominated(s, c) {
      var x :| x in s.pairs && s.pairs[x].comp == c && s.pairs[x].valid && s.pairs[x].nominated;
      assert BothFlags(s, x) && BothFlags(t, x);
    }
    if HasValidNominated(t, c) {
      var x :| x in t.pairs && t.pairs[x].comp == c && t.pairs[x].valid && t.pairs[x].nominated;
      assert BothFlags(t, x) && BothFlags(s, x);
    }
  }

  lemma SetPairSame(s: State, id: PairId, p: Pair)
    requires id in s.pairs && p.comp == s.pairs[id].comp
    requires (p.valid && p.nominated) == (s.pairs[id].valid && s.pairs[id].nominated)
    ensures SameNominated(s, SetPair(s, id, p))
  {
  }

  lemma SameTrans(s: State, t: State, u: State)
    requires SameNominated(s, t) && SameNominated(t, u)
    ensures SameNominated(s, u)
  {
    forall x: PairId
      ensures BothFlags(u, x) == BothFlags(s, x) && (BothFlags(s, x) ==> u.pairs[x].comp == s.pairs[x].comp)
    {
      assert BothFlags(t, x) == BothFlags(s, x) && BothFlags(u, x) == BothFlags(t, x);
    }
  }

  lemma SucceedSame(s: State, id: PairId)
    requires id in s.pairs
    ensures SameNominated(s, Succeed(s, id))
  {
    hide FilterOut;
  }

  lemma FailSame(s: State, id: PairId)
    requires id in s.pairs
    ensures SameNominated(s, FailPair(s, id)) && FailPair(s, id).comps == s.comps && FailPair(s, id).fault == s.fault
  {
  }

  lemma DiscoverSame(s: State, id: PairId, l: CandId)
    requires Inv(s) && id in s.pairs && l in s.cands && s.cands[l].isLocal && s.cands[l].owner == s.pairs[id].comp
    requires !s.pairs[id].nominated
    ensures HasComp(s, s.pairs[id].comp) && s.pairs[id].remote in s.cands
    ensures SameNominated(s, AddPeerReflexive(s, l, id))
  {
    hide Inv, AddPeerReflexive;
    AddPeerReflexiveInv(s, l, id);
    FreshFrom(s, id);
  }

  lemma ConfirmSame(s: State, id: PairId, q: PairId)
    requires id in s.pairs && q in s.pairs && !s.pairs[q].nominated
    ensures SameNominated(s, Confirm(s, id, q))
  {
    hide SameNominated;
    if q == id {
      SetPairSame(s, id, s.pairs[id].(valid := true));
    } else {
      SetPairSame(s, q, s.pairs[q].(state := Discovered));
    }
  }

  lemma ProcessSame(s: State, id: PairId, r: CandId, m: Mapped)
    requires Inv(s) && id in s.pairs && HasComp(s, s.pairs[id].comp) && s.pairs[id].remote in s.cands
    requires MappedOk(s, s.pairs[id].comp, m) && !m.NoAddress? && !OkNominated(s, id, r, m)
    ensures SameNominated(s, ProcessResponse(s, id, r, m).0)
  {
    hide Inv, SameNominated, AddPeerReflexive, Succeed, LearnLocal, MappedPair, Confirm;
    var c := s.pairs[id].comp;
    var found := MappedPair(s, c, r, m);
    if found.Some? {
      FoundComp(s, id, r, m);
      ConfirmSame(s, id, found.value);
      SucceedSame(Confirm(s, id, found.value), id);
      SameTrans(s, Confirm(s, id, found.value), ProcessResponse(s, id, r, m).0);
    } else if m.Unknown? && s.cfg.forceRelay {
      SucceedSame(s, id);
    } else if m.Known? {
      DiscoverSame(s, id, m.local);
      SucceedSame(Discover(s, id, m), id);
      SameTrans(s, Discover(s, id, m), ProcessResponse(s, id, r, m).0);
    } else {
      var s1 := LearnLocal(s, c, m.learned);
      LearnLocalInv(s, c, m.learned);
      LearnFrame(s, c, m.learned);
      DiscoverSame(s1, id, s.nextCand);
      SucceedSame(Discover(s, id, m), id);
      PairsSame(s, s1);
      SameTrans(s, s1, Discover(s, id, m));
      SameTrans(s, Discover(s, id, m), ProcessResponse(s, id, r, m).0);
    }
  }

  lemma PairsSame(s: State, t: State)
    requires t.pairs == s.pairs
    ensures SameNominated(s, t)
  {
  }

  lemma ThawSame(s: State, f: string)
    ensures SameNominated(s, UnfreezeRelated(s, f))
  {
  }

  lemma AnsweredSame(s: State, id: PairId, r: CandId, m: Mapped)
    requires Inv(s) && id in s.pairs && HasComp(s, s.pairs[id].comp) && s.pairs[id].remote in s.cands
    requires MappedOk(s, s.pairs[id].comp, m) && !OkNominated(s, id, r, m)
    ensures SameNominated(s, Answered(s, id, r, m).0)
  {
    hide Inv, SameNominated, ProcessResponse, UnfreezeRelated, MappedPair;
    var t := if m.NoAddress? then SetPair(s, id, s.pairs[id].(state := Succeeded, valid := true))
             else ProcessResponse(s, id, r, m).0;
    if m.NoAddress? {
      NoMappedPair(s, s.pairs[id].comp, r, m);
      SetPairSame(s, id, s.pairs[id].(state := Succeeded, valid := true));
    } else {
      ProcessSame(s, id, r, m);
    }
    ThawSame(t, s.pairs[id].foundation);
    SameTrans(s, t, UnfreezeRelated(t, s.pairs[id].foundation));
  }

  lemma FailedZero(s: State, id: PairId, c: nat)
    requires s.fault.NoFault? && id in s.pairs && c < |s.comps|
    ensures UpdateForReady(FailPair(s, id), c).fault.ZeroSelectedPriority? <==> Exposed(s, c)
  {
    hide UpdateForReady, FailPair, HasValidNominated;
    FailSame(s, id);
    NominatedSame(s, FailPair(s, id), c);
    UpdateForReadyTakes(FailPair(s, id), c);
  }

  lemma FinishZero(s: State, id: PairId, ok: PairId)
    requires Inv(s) && s.fault.NoFault? && id in s.pairs && ok in s.pairs && HasComp(s, s.pairs[id].comp)
    requires s.pairs[ok].comp == s.pairs[id].comp
    ensures FinishReply(s, id, ok).fault.ZeroSelectedPriority? <==>
            !(Nominates(s, s.pairs[id]) || s.pairs[ok].nominated) && Exposed(s, s.pairs[id].comp)
  {
    hide Inv, UpdateForReady, HasValidNominated, Nominates;
    var c := s.pairs[id].comp;
    if Nominates(s, s.pairs[id]) || s.pairs[ok].nominated {
      NominateOkSelects(s, c, ok);
      SelectedNeverZero(NominateOk(s, c, ok), c);
    } else {
      UpdateForReadyTakes(s, c);
    }
  }

  lemma NominateOkSelects(s: State, c: nat, ok: PairId)
    requires Inv(s) && s.fault.NoFault? && HasComp(s, c) && ok in s.pairs
    ensures var t := NominateOk(s, c, ok); t.comps[c].selPriority > 0 && !t.fault.ZeroSelectedPriority?
  {
    hide Inv;
    PricePositive(s, ok);
  }

  lemma SelectedNeverZero(s: State, c: nat)
    requires c < |s.comps| && s.comps[c].selPriority > 0 && !s.fault.ZeroSelectedPriority?
    ensures !UpdateForReady(s, c).fault.ZeroSelectedPriority? && UpdateForReady(s, c).comps[c].selPriority > 0
  {
    hide PruneCounts, HasValidNominated, PruneDrops, PruneSilences, FilterOut;
  }

  /** A reply fails the assertion on the selected priority exactly when the component is exposed, the
      reply is no role conflict, and it does not nominate. */
  lemma ReplyZero(s: State, id: PairId, k: nat, reply: Reply)
    requires Inv(s) && ReplyOk(s, id, k, reply) && s.fault.NoFault?
    ensures HandleReply(s, id, k, reply).fault.ZeroSelectedPriority? <==>
            Exposed(s, s.pairs[id].comp) && !reply.RoleConflict? && !ReplyNominates(s, id, reply)
  {
    hide Inv, Thawed, GatheringIsEmpty, NominatedIsSelected, HasValidNominated, UpdateForReady, FinishReply,
      Answered, Recalculate, OkNominated, FailPair;
    var c := s.pairs[id].comp;
    match reply {
      case Success(sourceOk, remote, m) =>
        DropStunKeeps(s, id, k);
        StunIrrelevant(s, id, k, reply);
        var s1 := DropStun(s, id, k);
        SetPairSame(s, id, s1.pairs[id]);
        NominatedSame(s, s1, c);
        if !sourceOk || remote.None? {
          FailedZero(s1, id, c);
        } else {
          AnsweredKeeps(s1, id, remote.value, m);
          var (s2, ok) := Answered(s1, id, remote.value, m);
          FinishZero(s2, id, ok);
          if !OkNominated(s1, id, remote.value, m) {
            AnsweredSame(s1, id, remote.value, m);
            NominatedSame(s1, s2, c);
          }
        }
      case RoleConflict =>
        RecalculateRest(s.(controlling := !s.pairs[id].stun[k].sentControlling));
      case StunError =>
        FailedZero(s, id, c);
    }
  }

  // ----- inbound nominations

  // The pair is asked about, and its target is valid or nominated.
  predicate Touched(s: State, l: CandId, r: CandId, id: PairId) {
    && id in s.pairs && s.pairs[id].local == l && s.pairs[id].remote == r
    && (s.pairs[NominationTarget(s, id)].valid || s.pairs[NominationTarget(s, id)].nominated)
  }

  predicate TouchedInvalid(s: State, l: CandId, r: CandId, id: PairId) {
    Touched(s, l, r, id) && !s.pairs[NominationTarget(s, id)].valid
  }

  // There is a touched pair along `ids`, and the target of the first one is not valid.
  predicate FirstIsInvalid(s: State, l: CandId, r: CandId, ids: seq<PairId>) {
    exists k :: 0 <= k < |ids| && TouchedInvalid(s, l, r, ids[k]) && NoneTouched(s, l, r, ids[..k])
  }

  predicate NoneTouched(s: State, l: CandId, r: CandId, ids: seq<PairId>) {
    forall id :: id in ids ==> !Touched(s, l, r, id)
  }

  // A flag set on a target changes none of this.
  lemma FlagIrrelevant(s: State, q: PairId, c: nat, l: CandId, r: CandId, ids: seq<PairId>)
    requires q in s.pairs
    ensures var t := SetPair(s, q, s.pairs[q].(markNominated := true));
            Exposed(t, c) == Exposed(s, c) && FirstIsInvalid(t, l, r, ids) == FirstIsInvalid(s, l, r, ids)
  {
    hide Touched, TouchedInvalid, HasValidNominated, SameNominated, SetPair;
    var t := SetPair(s, q, s.pairs[q].(markNominated := true));
    SetPairSame(s, q, s.pairs[q].(markNominated := true));
    NominatedSame(s, t, c);
    FlagComps(s, q);
    forall id: PairId
      ensures Touched(t, l, r, id) == Touched(s, l, r, id) && TouchedInvalid(t, l, r, id) == TouchedInvalid(s, l, r, id)
    {
      FlagTouched(s, q, l, r, id);
    }
    assert forall k :: 0 <= k <= |ids| ==> NoneTouched(t, l, r, ids[..k]) == NoneTouched(s, l, r, ids[..k]);
  }

  lemma FlagComps(s: State, q: PairId)
    requires q in s.pairs
    ensures SetPair(s, q, s.pairs[q].(markNominated := true)).comps == s.comps
  {
  }

  lemma FlagTouched(s: State, q: PairId, l: CandId, r: CandId, id: PairId)
    requires q in s.pairs
    ensures var t := SetPair(s, q, s.pairs[q].(markNominated := true));
            Touched(t, l, r, id) == Touched(s, l, r, id) && TouchedInvalid(t, l, r, id) == TouchedInvalid(s, l, r, id)
  {
  }

  lemma FirstLater(s: State, l: CandId, r: CandId, ids: seq<PairId>)
    requires ids != []
    ensures FirstIsInvalid(s, l, r, ids) <==>
            if Touched(s, l, r, ids[0]) then TouchedInvalid(s, l, r, ids[0]) else FirstIsInvalid(s, l, r, ids[1..])
  {
    hide Touched;
    var rest := ids[1..];
    assert ids[..0] == [];
    forall k | 0 < k < |ids|
      ensures rest[k - 1] == ids[k]
      ensures NoneTouched(s, l, r, ids[..k]) <==> !Touched(s, l, r, ids[0]) && NoneTouched(s, l, r, rest[..k - 1])
    {
      assert ids[..k] == [ids[0]] + rest[..k - 1];
    }
    if FirstIsInvalid(s, l, r, rest) && !Touched(s, l, r, ids[0]) {
      var k :| 0 <= k < |rest| && TouchedInvalid(s, l, r, rest[k]) && NoneTouched(s, l, r, rest[..k]);
      assert ids[k + 1] == rest[k] && NoneTouched(s, l, r, ids[..k + 1]);
    }
  }

  lemma NominateValidSelects(s: State, c: nat, q: PairId)
    requires HasComp(s, c) && q in s.pairs && s.pairs[q].priority > 0 && !s.fault.ZeroSelectedPriority?
    ensures var t := NominateValid(s, c, q); t.comps[c].selPriority > 0 && !t.fault.ZeroSelectedPriority?
  {
    hide Legal;
  }

  // Once the component has a selection, or gets one, the assertion holds for the rest of the walk.
  lemma MarkOneSelected(s: State, c: nat, id: PairId)
    requires Inv(s) && HasComp(s, c) && id in s.pairs && !s.fault.ZeroSelectedPriority?
    requires s.comps[c].selPriority > 0 || s.pairs[NominationTarget(s, id)].valid
    ensures var t := MarkOne(s, c, id); !t.fault.ZeroSelectedPriority? && t.comps[c].selPriority > 0
  {
    hide Inv, UpdateForReady, NominationTarget, NominateValid;
    var q := NominationTarget(s, id);
    PricePositive(s, q);
    var s1 := if q in s.queue || s.pairs[q].state.InProgress?
              then SetPair(s, q, s.pairs[q].(markNominated := true)) else s;
    if s.pairs[q].valid {
      NominateValidSelects(s1, c, q);
      SelectedNeverZero(NominateValid(s1, c, q), c);
    } else {
      SelectedNeverZero(s1, c);
    }
  }

  lemma {:induction false} MarkAlongSelected(s: State, c: nat, l: CandId, r: CandId, ids: seq<PairId>)
    requires Inv(s) && HasComp(s, c) && l in s.cands && s.cands[l].owner == c
    requires s.comps[c].selPriority > 0 && !s.fault.ZeroSelectedPriority?
    ensures !MarkAlong(s, c, l, r, ids).fault.ZeroSelectedPriority?
    decreases |ids|
  {
    hide Inv, Thawed, GatheringIsEmpty, NominatedIsSelected, MarkOne;
    if ids != [] {
      var s1 := if ids[0] in s.pairs && s.pairs[ids[0]].local == l && s.pairs[ids[0]].remote == r
                then MarkOne(s, c, ids[0]) else s;
      if ids[0] in s.pairs && s.pairs[ids[0]].local == l && s.pairs[ids[0]].remote == r {
        OwnerFact(s, ids[0]);
        MarkOneKeeps(s, c, ids[0]);
        MarkOneSelected(s, c, ids[0]);
      }
      MarkAlongSelected(s1, c, l, r, ids[1..]);
    }
  }

  // A nominated target that is not valid: the list update meets the selection as it is.
  lemma MarkOneInvalid(s: State, c: nat, l: CandId, r: CandId, id: PairId)
    requires HasComp(s, c) && TouchedInvalid(s, l, r, id) && s.fault.NoFault?
    ensures MarkOne(s, c, id).fault.ZeroSelectedPriority? <==> Exposed(s, c)
    ensures !Exposed(s, c) ==> !Exposed(MarkOne(s, c, id), c)
  {
    hide UpdateForReady, NominationTarget, HasValidNominated, NominateValid;
    var q := NominationTarget(s, id);
    FlagIrrelevant(s, q, c, l, r, []);
    var s1 := if q in s.queue || s.pairs[q].state.InProgress?
              then SetPair(s, q, s.pairs[q].(markNominated := true)) else s;
    UpdateForReadyTakes(s1, c);
    UpdateForReadyThins(s1, c);
    FewerNominated(s1, UpdateForReady(s1, c), c);
  }

  lemma FewerNominated(s: State, t: State, c: nat)
    requires Thins(s, t)
    ensures HasValidNominated(t, c) ==> HasValidNominated(s, c)
    ensures c < |s.comps| ==> t.comps[c].selPriority == s.comps[c].selPriority
  {
    if c < |s.comps| {
      assert t.comps[c].(state := s.comps[c].state) == s.comps[c];
    }
  }

  // A component that is not exposed does not become so by a nomination.
  lemma {:induction false} MarkAlongSafe(s: State, c: nat, l: CandId, r: CandId, ids: seq<PairId>)
    requires Inv(s) && HasComp(s, c) && l in s.cands && s.cands[l].owner == c && s.fault.NoFault? && !Exposed(s, c)
    ensures !MarkAlong(s, c, l, r, ids).fault.ZeroSelectedPriority?
    decreases |ids|
  {
    hide Inv, Thawed, GatheringIsEmpty, NominatedIsSelected, MarkOne, Exposed, Touched, TouchedInvalid;
    if ids != [] {
      if ids[0] in s.pairs && s.pairs[ids[0]].local == l && s.pairs[ids[0]].remote == r {
        OwnerFact(s, ids[0]);
        MarkOneKeeps(s, c, ids[0]);
        MarkOneCases(s, c, l, r, ids[0]);
        var s1 := MarkOne(s, c, ids[0]);
        if s1.comps[c].selPriority > 0 {
          MarkAlongSelected(s1, c, l, r, ids[1..]);
        } else {
          MarkAlongSafe(s1, c, l, r, ids[1..]);
        }
      } else {
        MarkAlongSafe(s, c, l, r, ids[1..]);
      }
    }
  }

  // The four ways a nomination of `id` can go for the assertion.
  lemma MarkOneCases(s: State, c: nat, l: CandId, r: CandId, id: PairId)
    requires Inv(s) && HasComp(s, c) && s.fault.NoFault?
    requires id in s.pairs && s.pairs[id].comp == c && s.pairs[id].local == l && s.pairs[id].remote == r
    ensures var t := MarkOne(s, c, id);
            && (t.fault.NoFault? || t.fault.ZeroSelectedPriority?)
            && (t.fault.ZeroSelectedPriority? <==> TouchedInvalid(s, l, r, id) && Exposed(s, c))
            && (Touched(s, l, r, id) && !TouchedInvalid(s, l, r, id) ==> t.comps[c].selPriority > 0)
            && (!Touched(s, l, r, id) ==> t == s || t == SetPair(s, NominationTarget(s, id), s.pairs[NominationTarget(s, id)].(markNominated := true)))
            && (!Exposed(s, c) ==> !Exposed(t, c))
  {
    hide Inv, Thawed, GatheringIsEmpty, NominatedIsSelected, UpdateForReady, NominationTarget, HasValidNominated,
      NominateValid;
    MarkOneFaults(s, c, id);
    var q := NominationTarget(s, id);
    if TouchedInvalid(s, l, r, id) {
      MarkOneInvalid(s, c, l, r, id);
    } else if Touched(s, l, r, id) {
      MarkOneSelected(s, c, id);
    } else {
      FlagIrrelevant(s, q, c, l, r, []);
    }
  }

  lemma MarkOneFaults(s: State, c: nat, id: PairId)
    requires Inv(s) && HasComp(s, c) && s.fault.NoFault? && id in s.pairs && s.pairs[id].comp == c
    ensures var t := MarkOne(s, c, id); t.fault.NoFault? || t.fault.ZeroSelectedPriority?
  {
    hide Inv, Thawed, GatheringIsEmpty, NominatedIsSelected, UpdateForReady, NominationTarget, NominateValid;
    var q := NominationTarget(s, id);
    TargetComp(s, id);
    var s1 := if q in s.queue || s.pairs[q].state.InProgress?
              then SetPair(s, q, s.pairs[q].(markNominated := true)) else s;
    if q in s.queue || s.pairs[q].state.InProgress? {
      SetPairKeeps(s, q, s.pairs[q].(markNominated := true));
    }
    var s2 := if s.pairs[q].valid then NominateValid(s1, c, q) else s1;
    if s.pairs[q].valid {
      NominateValidKeeps(s1, c, q);
      NominateValidFault(s1, c, q);
    }
    UpdateForReadyFaults(s2, c);
  }

  lemma NominateValidFault(s: State, c: nat, q: PairId)
    requires HasComp(s, c) && q in s.pairs
    ensures NominateValid(s, c, q).fault == s.fault
  {
  }

  lemma UpdateForReadyFaults(s: State, c: nat)
    requires Inv(s) && c < |s.comps| && s.fault.NoFault?
    ensures var t := UpdateForReady(s, c); t.fault.NoFault? || t.fault.ZeroSelectedPriority?
  {
    hide Inv, Thawed, GatheringIsEmpty, NominatedIsSelected, PrunePending, ConcludeReady, PruneCounts,
      HasValidNominated;
    PruneKeeps(s, c);
    PruneFault(s, c);
    ConcludeFault(PrunePending(s, c), c);
  }

  lemma {:induction false} MarkAlongZero(s: State, c: nat, l: CandId, r: CandId, ids: seq<PairId>)
    requires Inv(s) && HasComp(s, c) && l in s.cands && s.cands[l].owner == c && s.fault.NoFault?
    ensures MarkAlong(s, c, l, r, ids).fault.ZeroSelectedPriority? <==> Exposed(s, c) && FirstIsInvalid(s, l, r, ids)
    decreases |ids|
  {
    hide Inv, Thawed, GatheringIsEmpty, NominatedIsSelected, MarkOne, Exposed, Touched, TouchedInvalid,
      FirstIsInvalid;
    if !Exposed(s, c) {
      MarkAlongSafe(s, c, l, r, ids);
    } else if ids == [] {
      NoFirst(s, l, r);
    } else {
      FirstLater(s, l, r, ids);
      if ids[0] in s.pairs && s.pairs[ids[0]].local == l && s.pairs[ids[0]].remote == r {
        OwnerFact(s, ids[0]);
        MarkOneKeeps(s, c, ids[0]);
        MarkOneCases(s, c, l, r, ids[0]);
        var s1 := MarkOne(s, c, ids[0]);
        if TouchedInvalid(s, l, r, ids[0]) {
          InvalidTouched(s, l, r, ids[0]);
          FaultStays(s1, c, l, r, ids[1..]);
        } else if Touched(s, l, r, ids[0]) {
          MarkAlongSelected(s1, c, l, r, ids[1..]);
        } else {
          FlagIrrelevant(s, NominationTarget(s, ids[0]), c, l, r, ids[1..]);
          MarkAlongZero(s1, c, l, r, ids[1..]);
        }
      } else {
        NotTouched(s, l, r, ids[0]);
        MarkAlongZero(s, c, l, r, ids[1..]);
      }
    }
  }

  lemma NoFirst(s: State, l: CandId, r: CandId)
    ensures !FirstIsInvalid(s, l, r, [])
  {
  }

  lemma InvalidTouched(s: State, l: CandId, r: CandId, id: PairId)
    requires TouchedInvalid(s, l, r, id)
    ensures Touched(s, l, r, id)
  {
  }

  lemma NotTouched(s: State, l: CandId, r: CandId, id: PairId)
    requires !(id in s.pairs && s.pairs[id].local == l && s.pairs[id].remote == r)
    ensures !Touched(s, l, r, id)
  {
  }

  // The first failed assertion stays on record.
  lemma FaultStays(s: State, c: nat, l: CandId, r: CandId, ids: seq<PairId>)
    requires Inv(s) && HasComp(s, c) && l in s.cands && s.cands[l].owner == c && !s.fault.NoFault?
    ensures MarkAlong(s, c, l, r, ids).fault == s.fault
  {
    hide Inv, Thawed, GatheringIsEmpty, NominatedIsSelected, MarkAlong;
    MarkAlongKeeps(s, c, l, r, ids);
  }

  /** An inbound nomination fails the assertion on the selected priority exactly when the agent is
      controlled, the component is exposed, and the first pair it touches has a target that is nominated
      but not valid. */
  lemma NominationZero(s: State, c: nat, l: CandId, r: CandId)
    requires Inv(s) && HasComp(s, c) && l in s.cands && s.cands[l].owner == c && s.fault.NoFault?
    ensures MarkNominated(s, c, l, r).fault.ZeroSelectedPriority? <==>
            !s.controlling && Exposed(s, c) && FirstIsInvalid(s, l, r, StreamList(s, c))
  {
    hide Inv, MarkAlong, Exposed, FirstIsInvalid;
    if !s.controlling {
      MarkAlongZero(s, c, l, r, StreamList(s, c));
    }
  }

  // ----- updated remote candidates

  lemma NominatedListed(s: State, c: nat)
    requires Inv(s) && HasComp(s, c)
    ensures HighestNominated(s, c).Some? <==> Nominated(s, c)
  {
    hide Sorted, Priced, SelectionOk, ReadyIsClean, DisconnectedIsEmpty;
  }

  lemma SelectionFact(s: State, c: nat)
    requires Inv(s) && c < |s.comps|
    ensures s.comps[c].selPriority > 0 ==> s.comps[c].selLocal.Some? && s.comps[c].selRemote.Some?
    ensures Nominated(s, c) ==> s.comps[c].selPriority > 0 || Unselected(s.comps[c])
  {
  }

  lemma ReselectedFault(s: State, c: nat)
    requires Inv(s) && HasComp(s, c) && s.fault.NoFault?
    ensures var t := UpdateForReady(Reselected(s, c), c);
            t.fault == if Nominated(s, c) && s.comps[c].selLocal.None? then SelectionMissing else NoFault
  {
    hide Inv, Thawed, GatheringIsEmpty, NominatedIsSelected, UpdateForReady, Nominated, HasValidNominated,
      HighestNominated;
    NominatedListed(s, c);
    SelectionFact(s, c);
    ReselectedKeeps(s, c);
    var u := Reselected(s, c);
    if u.fault.NoFault? {
      UpdateForReadyFaults(u, c);
      UpdateForReadyTakes(u, c);
      ValidNominated(s, u, c);
    } else {
      UpdateForReadyKeeps(u, c);
    }
  }

  lemma ValidNominated(s: State, t: State, c: nat)
    requires HasComp(s, c) && t == Reselected(s, c)
    ensures HasValidNominated(t, c) ==> Nominated(s, c)
  {
    hide HighestNominated;
    ReselectedPairs(s, c);
  }

  lemma {:induction false} RenameAlongFault(s: State, c: nat, r: CandId, ids: seq<PairId>)
    requires c < |s.comps|
    ensures var t := RenameAlong(s, c, r, ids);
            && t.fault == s.fault
            && t.comps[c].selLocal == s.comps[c].selLocal && (Nominated(t, c) <==> Nominated(s, c))
    decreases |ids|
  {
    hide RenameOne, Nominated;
    if ids != [] && ids[0] in s.pairs {
      RenameOneFault(s, c, r, ids[0]);
      RenameAlongFault(RenameOne(s, c, r, ids[0]), c, r, ids[1..]);
    } else if ids != [] {
      RenameAlongFault(s, c, r, ids[1..]);
    }
  }

  lemma RenameOneFault(s: State, c: nat, r: CandId, id: PairId)
    requires c < |s.comps| && id in s.pairs
    ensures var t := RenameOne(s, c, r, id);
            && t.fault == s.fault && t.comps[c].selLocal == s.comps[c].selLocal
            && (Nominated(t, c) <==> Nominated(s, c))
  {
    RenameOneEnds(s, c, r, id);
    EndsNominated(s, RenameOne(s, c, r, id), c);
    hide Nominated, NewFoundation, SameEnds;
  }

  lemma EndsNominated(s: State, t: State, c: nat)
    requires SameEnds(s, t)
    ensures Nominated(t, c) <==> Nominated(s, c)
  {
    if Nominated(s, c) {
      var id :| id in s.pairs && s.pairs[id].comp == c && s.pairs[id].nominated;
      assert SameButName(s.pairs[id], t.pairs[id]);
    }
    if Nominated(t, c) {
      var id :| id in t.pairs && t.pairs[id].comp == c && t.pairs[id].nominated;
      assert SameButName(s.pairs[id], t.pairs[id]);
    }
  }

  lemma RecalculateNominated(s: State, c: nat)
    ensures Nominated(Recalculate(s), c) <==> Nominated(s, c)
  {
    hide StableSort;
    if Nominated(s, c) {
      var id :| id in s.pairs && s.pairs[id].comp == c && s.pairs[id].nominated;
      assert Recalculate(s).pairs[id].nominated && Recalculate(s).pairs[id].comp == c;
    }
  }

  /** An updated remote candidate fails an assertion exactly when its component has a nominated pair but
      no selection; it is then the assertion that there is a selection to update. */
  lemma UpdateRemoteFault(s: State, c: nat, r: CandId, priority: nat, foundation: string, kind: CandidateType)
    requires Inv(s) && HasComp(s, c) && r in s.cands && !s.cands[r].isLocal && s.fault.NoFault?
    requires 0 < priority < TWO_32
    ensures UpdateRemote(s, c, r, priority, foundation, kind).fault ==
            if Nominated(s, c) && s.comps[c].selLocal.None? then SelectionMissing else NoFault
  {
    hide Inv, Thawed, GatheringIsEmpty, NominatedIsSelected, Recalculate, RenameAlong, Reselected, UpdateForReady,
      Nominated;
    var k := NewRemote(s.cands[r], priority, foundation, kind);
    RenamedKeeps(s, c, r, k);
    var s1 := s.(cands := s.cands[r := k]);
    RecalculateRest(s1);
    RecalculateNominated(s1, c);
    CandsNominated(s, s1, c);
    RenameAlongFault(Recalculate(s1), c, r, StreamList(Recalculate(s1), c));
    ReselectedFault(Renamed(s, c, r, k), c);
  }

  lemma CandsNominated(s: State, t: State, c: nat)
    requires t.pairs == s.pairs
    ensures Nominated(t, c) <==> Nominated(s, c)
  {
  }
}
