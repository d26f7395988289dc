/** Replies to connectivity checks: what they keep, and exactly when one trips the transition table. */
module ConnCheckReplies {
  import opened Basics
  import opened ConnCheckState
  import opened ConnCheckSpec
  import opened ConnCheckInvariants
  import opened ConnCheckHandlers

  lemma DropStunKeeps(s: State, id: PairId, k: nat)
    requires Inv(s) && id in s.pairs && k < |s.pairs[id].stun|
    ensures Keeps(s, DropStun(s, id, k))
  {
    hide Inv, Thawed, GatheringIsEmpty, NominatedIsSelected;
    SetPairKeeps(s, id, DropStun(s, id, k).pairs[id]);
  }

  predicate SameStates(comps: seq<Component>, comps': seq<Component>) {
    && |comps'| == |comps|
    && forall c :: 0 <= c < |comps| ==> comps'[c].state == comps[c].state && comps'[c].selPriority == comps[c].selPriority
  }

  // The pair flags without which a reply keeps `Thawed` as well.
  predicate OnlySuccess(s: State, t: State, id: PairId)
    requires id in s.pairs
  {
    && SameStates(s.comps, t.comps)
    && t.fault == s.fault
    && forall x :: x in t.pairs ==> FromBefore(s.pairs, x, t.pairs[x], id)
  }

  predicate FromBefore(pairs: map<PairId, Pair>, x: PairId, q: Pair, id: PairId)
    requires id in pairs
  {
    && (q.state.Frozen? ==> x in pairs && pairs[x].state.Frozen? && q.foundation == pairs[x].foundation)
    && (q.state.Succeeded? && x != id ==> x in pairs && pairs[x].state.Succeeded? && q.foundation == pairs[x].foundation)
    && (x == id ==> q.foundation == pairs[id].foundation)
    && (var p := pairs[if x in pairs then x else id]; q.comp == p.comp && (q.nominated ==> p.nominated))
  }

  lemma SuccessThaws(s: State, t: State, id: PairId)
    requires id in s.pairs && OnlySuccess(s, t, id)
    requires Thawed(s.pairs)
    ensures Thawed(UnfreezeRelated(t, s.pairs[id].foundation).pairs)
  {
  }

  lemma SuccessGathering(s: State, t: State, id: PairId)
    requires id in s.pairs && OnlySuccess(s, t, id)
    requires GatheringIsEmpty(s.pairs, s.comps)
    ensures GatheringIsEmpty(t.pairs, t.comps)
  {
  }

  lemma SuccessSelected(s: State, t: State, id: PairId)
    requires id in s.pairs && OnlySuccess(s, t, id)
    requires NominatedIsSelected(s.pairs, s.comps)
    ensures NominatedIsSelected(t.pairs, t.comps)
  {
  }

  lemma SucceedInv(s: State, id: PairId)
    requires Inv(s) && id in s.pairs
    ensures Inv(Succeed(s, id))
  {
    hide Inv, FilterOut, Thawed, GatheringIsEmpty, NominatedIsSelected;
    var s1 := SetPair(s, id, s.pairs[id].(state := Succeeded, stun := [], retransmit := false));
    TameKeepsInv(s, s1);
    DequeueKeeps(s1, id);
  }

  lemma LinkInv(s: State, parent: PairId, id: PairId)
    requires Inv(s) && parent in s.pairs && id in s.pairs && s.pairs[id].comp == s.pairs[parent].comp
    ensures Inv(SetPair(s, parent, s.pairs[parent].(discovered := Some(id))))
  {
    hide WellFormed, Sorted, Priced, ReadyIsClean, DisconnectedIsEmpty, SelectionOk, LinksOk, QueueOk;
    OwnerFact(s, parent);
    PairSwap(s, parent, s.pairs[parent].(discovered := Some(id)));
    var t := SetPair(s, parent, s.pairs[parent].(discovered := Some(id)));
    SameQueue(s, t);
    NewLinkOk(s.pairs, s.nextPair, parent, id);
    WellFormedFollows(s, t);
    SortedFollows(s.lists, s.pairs, t.pairs);
  }

  lemma NewLinkOk(pairs: map<PairId, Pair>, nextPair: PairId, parent: PairId, id: PairId)
    requires LinksOk(pairs, nextPair) && parent in pairs && id in pairs && pairs[id].comp == pairs[parent].comp
    ensures LinksOk(pairs[parent := pairs[parent].(discovered := Some(id))], nextPair)
  {
  }

  lemma DiscoveredFits(s: State, l: CandId, parent: PairId)
    requires Inv(s) && parent in s.pairs && l in s.cands && s.cands[l].isLocal
    requires s.cands[l].owner == s.pairs[parent].comp
    ensures s.pairs[parent].remote in s.cands
    ensures Fits(s, DiscoveredPair(s, l, parent))
  {
    OwnerFact(s, parent);
    hide WellFormed, Sorted, Priced;
    ParentKnown(s, parent);
  }

  lemma ParentKnown(s: State, parent: PairId)
    requires WellFormed(s) && parent in s.pairs
    ensures parent < s.nextPair
  {
  }

  lemma AddPeerReflexiveInv(s: State, l: CandId, parent: PairId)
    requires Inv(s) && parent in s.pairs && l in s.cands && s.cands[l].isLocal
    requires s.cands[l].owner == s.pairs[parent].comp
    ensures HasComp(s, s.pairs[parent].comp) && s.pairs[parent].remote in s.cands
    ensures var t := AddPeerReflexive(s, l, parent);
            && Inv(t)
            && t.pairs.Keys == s.pairs.Keys + {s.nextPair}
            && t.pairs[parent] == s.pairs[parent].(discovered := Some(s.nextPair))
            && t.pairs[s.nextPair] == DiscoveredPair(s, l, parent)
            && forall x :: x in s.pairs && x != parent ==> t.pairs[x] == s.pairs[x]
  {
    hide Inv, InsertSorted, Fits;
    OwnerFact(s, parent);
    DiscoveredFits(s, l, parent);
    FreshFrom(s, parent);
    var s1 := Listed(s, DiscoveredPair(s, l, parent));
    ListedKeepsInv(s, DiscoveredPair(s, l, parent));
    LinkInv(s1, parent, s.nextPair);
  }

  lemma FreshFrom(s: State, parent: PairId)
    requires Inv(s) && parent in s.pairs
    ensures s.nextPair !in s.pairs && parent != s.nextPair
  {
  }

  lemma LearnLocalInv(s: State, c: nat, k: Candidate)
    requires Inv(s) && c < |s.comps| && k.isLocal && k.owner == c && 1 <= k.priority < TWO_31
    ensures Inv(LearnLocal(s, c, k))
    ensures var t := LearnLocal(s, c, k);
            t.pairs == s.pairs && s.nextCand in t.cands && t.cands[s.nextCand] == k
  {
    hide ListsOk, Sorted, LinksOk, QueueOk, Priced;
    var t := LearnLocal(s, c, k);
    ListsFollow(s.lists, s.pairs, t.pairs, s.comps, t.comps);
    LearnPrices(s, k);
  }

  lemma LearnPrices(s: State, k: Candidate)
    requires WellFormed(s) && Priced(s.pairs, s.cands, s.controlling)
    ensures Priced(s.pairs, s.cands[s.nextCand := k], s.controlling)
  {
  }

  // What FinishReply reads of the state it starts from, in terms of the state before the reply.
  predicate ReplyFrame(s: State, t: State, id: PairId, ok: PairId)
    requires id in s.pairs
  {
    && id in t.pairs && ok in t.pairs
    && t.controlling == s.controlling && t.cfg == s.cfg
    && t.pairs[id].comp == s.pairs[id].comp && t.pairs[ok].comp == s.pairs[id].comp
    && t.pairs[id].nominated == s.pairs[id].nominated
    && t.pairs[id].useCandidate == s.pairs[id].useCandidate
    && t.pairs[id].markNominated == s.pairs[id].markNominated
  }

  // Is the valid pair of the reply already nominated? A newly discovered one inherits the flag.
  predicate OkNominated(s: State, id: PairId, r: CandId, m: Mapped)
    requires id in s.pairs && HasComp(s, s.pairs[id].comp)
  {
    var found := MappedPair(s, s.pairs[id].comp, r, m);
    if found.Some? then s.pairs[found.value].nominated else s.pairs[id].nominated
  }

  lemma FoundComp(s: State, id: PairId, r: CandId, m: Mapped)
    requires Inv(s) && id in s.pairs && HasComp(s, s.pairs[id].comp) && MappedOk(s, s.pairs[id].comp, m)
    ensures var q := MappedPair(s, s.pairs[id].comp, r, m);
            q.Some? ==> q.value in s.pairs && s.pairs[q.value].comp == s.pairs[id].comp
  {
    var q := MappedPair(s, s.pairs[id].comp, r, m);
    if q.Some? {
      OwnerFact(s, q.value);
    }
  }

  lemma FoundKeeps(s: State, id: PairId, q: PairId)
    requires Inv(s) && id in s.pairs && q in s.pairs && s.pairs[q].comp == s.pairs[id].comp
    ensures var t := Succeed(Confirm(s, id, q), id);
            Inv(t) && OnlySuccess(s, t, id) && ReplyFrame(s, t, id, q) && t.pairs[q].nominated == s.pairs[q].nominated
  {
    hide Inv, Thawed, GatheringIsEmpty, NominatedIsSelected, FilterOut;
    if q == id {
      SetPairKeeps(s, id, s.pairs[id].(valid := true));
      SucceedInv(SetPair(s, id, s.pairs[id].(valid := true)), id);
    } else {
      SetPairKeeps(s, q, s.pairs[q].(state := Discovered));
      SucceedInv(SetPair(s, q, s.pairs[q].(state := Discovered)), id);
    }
  }

  lemma LearnedKeeps(s: State, id: PairId, l: CandId)
    requires Inv(s) && id in s.pairs && l in s.cands && s.cands[l].isLocal && s.cands[l].owner == s.pairs[id].comp
    ensures HasComp(s, s.pairs[id].comp) && s.pairs[id].remote in s.cands
    ensures var t := Succeed(AddPeerReflexive(s, l, id), id);
            && Inv(t) && OnlySuccess(s, t, id) && ReplyFrame(s, t, id, s.nextPair)
            && t.pairs[s.nextPair].nominated == s.pairs[id].nominated
  {
    hide Inv, FilterOut, AddPeerReflexive;
    AddPeerReflexiveInv(s, l, id);
    FreshFrom(s, id);
    AddPeerReflexiveBase(s, l, id);
    SucceedInv(AddPeerReflexive(s, l, id), id);
  }

  lemma AddPeerReflexiveBase(s: State, l: CandId, parent: PairId)
    requires parent in s.pairs && HasComp(s, s.pairs[parent].comp)
    requires l in s.cands && s.pairs[parent].remote in s.cands
    ensures var t := AddPeerReflexive(s, l, parent);
            t.controlling == s.controlling && t.cfg == s.cfg && t.fault == s.fault
  {
    hide InsertSorted;
  }

  lemma AnsweredFacts(s: State, id: PairId, r: CandId, m: Mapped)
    requires Inv(s) && id in s.pairs && HasComp(s, s.pairs[id].comp) && s.pairs[id].remote in s.cands
    requires MappedOk(s, s.pairs[id].comp, m) && !m.NoAddress?
    ensures var (t, found) := ProcessResponse(s, id, r, m);
            var ok := if found.Some? then found.value else id;
            Inv(t) && OnlySuccess(s, t, id) && ReplyFrame(s, t, id, ok)
            && t.pairs[ok].nominated == OkNominated(s, id, r, m)
  {
    hide Inv, AddPeerReflexive, Succeed, LearnLocal, MappedPair, Confirm;
    var c := s.pairs[id].comp;
    var found := MappedPair(s, c, r, m);
    if found.Some? {
      FoundComp(s, id, r, m);
      FoundKeeps(s, id, found.value);
    } else if m.Unknown? && s.cfg.forceRelay {
      SucceedInv(s, id);
      SucceedFrame(s, id);
    } else if m.Known? {
      LearnedKeeps(s, id, m.local);
    } else {
      LearnLocalInv(s, c, m.learned);
      LearnFrame(s, c, m.learned);
      LearnedKeeps(LearnLocal(s, c, m.learned), id, s.nextCand);
    }
  }

  lemma SucceedFrame(s: State, id: PairId)
    requires id in s.pairs
    ensures var t := Succeed(s, id);
            OnlySuccess(s, t, id) && ReplyFrame(s, t, id, id) && t.pairs[id].nominated == s.pairs[id].nominated
  {
    hide FilterOut;
  }

  lemma LearnFrame(s: State, c: nat, k: Candidate)
    requires c < |s.comps|
    ensures var t := LearnLocal(s, c, k);
            && SameStates(s.comps, t.comps) && t.nextPair == s.nextPair && t.controlling == s.controlling
            && t.cfg == s.cfg && t.fault == s.fault && t.pairs == s.pairs
  {
  }

  lemma ThawedFrame(t: State, f: string)
    ensures var u := UnfreezeRelated(t, f);
            && u.comps == t.comps && u.fault == t.fault && u.controlling == t.controlling && u.cfg == t.cfg
            && u.pairs.Keys == t.pairs.Keys
            && forall x :: x in t.pairs ==> u.pairs[x].(state := t.pairs[x].state) == t.pairs[x]
  {
  }

  /** Before nomination is looked at: everything is kept, and the checked pair's flags are still there. */
  lemma AnsweredKeeps(s: State, id: PairId, r: CandId, m: Mapped)
    requires Inv(s) && id in s.pairs && HasComp(s, s.pairs[id].comp) && s.pairs[id].remote in s.cands
    requires MappedOk(s, s.pairs[id].comp, m)
    ensures var (t, ok) := Answered(s, id, r, m);
            && Keeps(s, t) && ReplyFrame(s, t, id, ok) && SameStates(s.comps, t.comps) && t.fault == s.fault
            && t.pairs[ok].nominated == OkNominated(s, id, r, m)
  {
    hide Inv, Thawed, GatheringIsEmpty, NominatedIsSelected, ProcessResponse, MappedPair, UnfreezeRelated,
      FromBefore;
    if m.NoAddress? {
      NoAddressInv(s, id);
      FinishAnswer(s, SetPair(s, id, s.pairs[id].(state := Succeeded, valid := true)), id);
      NoMappedPair(s, s.pairs[id].comp, r, m);
    } else {
      AnsweredFacts(s, id, r, m);
      FinishAnswer(s, ProcessResponse(s, id, r, m).0, id);
    }
  }

  lemma NoMappedPair(s: State, c: nat, r: CandId, m: Mapped)
    requires HasComp(s, c) && !m.Known?
    ensures MappedPair(s, c, r, m).None?
  {
  }

  lemma NoAddressInv(s: State, id: PairId)
    requires Inv(s) && id in s.pairs
    ensures var t := SetPair(s, id, s.pairs[id].(state := Succeeded, valid := true));
            Inv(t) && OnlySuccess(s, t, id) && ReplyFrame(s, t, id, id)
  {
    hide Inv;
    TameKeepsInv(s, SetPair(s, id, s.pairs[id].(state := Succeeded, valid := true)));
  }

  lemma FinishAnswer(s: State, t: State, id: PairId)
    requires id in s.pairs && Inv(t) && OnlySuccess(s, t, id)
    ensures var u := UnfreezeRelated(t, s.pairs[id].foundation);
            && Keeps(s, u) && SameStates(s.comps, u.comps) && u.fault == s.fault
            && u.controlling == t.controlling && u.cfg == t.cfg && u.pairs.Keys == t.pairs.Keys
            && forall x :: x in t.pairs ==> u.pairs[x].(state := t.pairs[x].state) == t.pairs[x]
  {
    hide Inv, Thawed, GatheringIsEmpty, NominatedIsSelected, UnfreezeRelated, FromBefore;
    var f := s.pairs[id].foundation;
    ThawedFrame(t, f);
    UnfreezeRelatedKeeps(t, f);
    if Thawed(s.pairs) {
      SuccessThaws(s, t, id);
    }
    if GatheringIsEmpty(s.pairs, s.comps) {
      SuccessGathering(s, t, id);
    }
    if NominatedIsSelected(s.pairs, s.comps) {
      SuccessSelected(s, t, id);
    }
  }

  // The states from which the reply path may ask for CONNECTED.
  predicate Open(x: ComponentState) {
    x in {Connecting, Connected, Ready}
  }

  // Asking for CONNECTED: fine from an open state, outside the table otherwise.
  lemma ConnectKeeps(s: State, c: nat)
    requires Inv(s) && c < |s.comps| && !s.comps[c].state.Disconnected?
    ensures var t := if !s.comps[c].state.Ready? then Signal(s, c, Connected) else s;
            if Open(s.comps[c].state) then Keeps(s, t) else t == Faulted(s, IllegalTransition) && Inv(t)
  {
    hide Inv, Thawed, GatheringIsEmpty, NominatedIsSelected;
    if !Open(s.comps[c].state) {
      FaultKeepsInv(s);
    } else if !s.comps[c].state.Ready? {
      SignalKeeps(s, c, Connected);
    }
  }

  lemma SelectedFacts(s: State, c: nat, ok: PairId)
    requires Inv(s) && HasComp(s, c) && ok in s.pairs && s.pairs[ok].comp == c
    ensures var t := UpdateSelected(s, c, ok);
            t.pairs == s.pairs && t.comps[c].state == s.comps[c].state && t.comps[c].selPriority > 0 && t.fault == s.fault
  {
    hide Inv;
    PricePositive(s, ok);
  }

  lemma NominateOkInv(s: State, c: nat, ok: PairId)
    requires Inv(s) && HasComp(s, c) && ok in s.pairs && s.pairs[ok].comp == c && !s.comps[c].state.Disconnected?
    ensures var t := NominateOk(s, c, ok);
            if Open(s.comps[c].state) then Keeps(s, t) else Keeps(Faulted(s, IllegalTransition), t)
  {
    hide Inv, Thawed, GatheringIsEmpty, NominatedIsSelected, UpdateSelected, Signal, Open;
    SelectedFacts(s, c, ok);
    UpdateSelectedKeeps(s, c, ok);
    var s1 := UpdateSelected(s, c, ok);
    ConnectKeeps(s1, c);
    FlagNominatedKeeps(if !s1.comps[c].state.Ready? then Signal(s1, c, Connected) else s1, ok);
  }

  lemma FinishReplyInv(s: State, id: PairId, ok: PairId)
    requires Inv(s) && id in s.pairs && ok in s.pairs && HasComp(s, s.pairs[id].comp)
    requires s.pairs[ok].comp == s.pairs[id].comp
    ensures var t, c := FinishReply(s, id, ok), s.pairs[id].comp;
            if (Nominates(s, s.pairs[id]) || s.pairs[ok].nominated) && !Open(s.comps[c].state)
            then Keeps(Faulted(s, IllegalTransition), t)
            else Keeps(s, t)
  {
    hide Inv, Thawed, GatheringIsEmpty, NominatedIsSelected, UpdateForReady, NominateOk;
    var c := s.pairs[id].comp;
    if Nominates(s, s.pairs[id]) || s.pairs[ok].nominated {
      NotDisconnected(s, id);
      NominateOkInv(s, c, ok);
      UpdateForReadyKeeps(NominateOk(s, c, ok), c);
    } else {
      UpdateForReadyKeeps(s, c);
    }
  }

  lemma NotDisconnected(s: State, id: PairId)
    requires Inv(s) && id in s.pairs
    ensures s.pairs[id].comp < |s.comps| && !s.comps[s.pairs[id].comp].state.Disconnected?
  {
  }

  lemma FaultKeepsInv(s: State)
    requires Inv(s)
    ensures Inv(Faulted(s, IllegalTransition))
  {
  }

  /** Does the reply leave its valid pair nominated? Decided by the flags before the reply. */
  predicate ReplyNominates(s: State, id: PairId, reply: Reply)
    requires id in s.pairs && HasComp(s, s.pairs[id].comp)
  {
    && reply.Success? && reply.sourceOk && reply.remote.Some?
    && (Nominates(s, s.pairs[id]) || OkNominated(s, id, reply.remote.value, reply.mapped))
  }

  lemma StunIrrelevant(s: State, id: PairId, k: nat, reply: Reply)
    requires ReplyOk(s, id, k, reply)
    ensures var t := DropStun(s, id, k);
            && ReplyNominates(t, id, reply) == ReplyNominates(s, id, reply)
            && t.comps == s.comps && t.fault == s.fault && t.pairs[id].comp == s.pairs[id].comp
            && t.pairs[id].remote == s.pairs[id].remote
  {
    var t := DropStun(s, id, k);
    if reply.Success? && reply.remote.Some? && reply.mapped.Known? {
      SameFirst(StreamList(s, s.pairs[id].comp),
        q => q in s.pairs && s.pairs[q].local == reply.mapped.local && s.pairs[q].remote == reply.remote.value,
        q => q in t.pairs && t.pairs[q].local == reply.mapped.local && t.pairs[q].remote == reply.remote.value);
    }
  }

  lemma {:induction false} SameFirst(xs: seq<nat>, p: nat -> bool, q: nat -> bool)
    requires forall x :: p(x) == q(x)
    ensures First(xs, p) == First(xs, q)
  {
    if xs != [] {
      SameFirst(xs[1..], p, q);
    }
  }

  /** A reply keeps the invariants, and it trips the asserted transition table exactly when it leaves a
      nominated pair in a component that is GATHERING or FAILED. */
  lemma ReplyKeeps(s: State, id: PairId, k: nat, reply: Reply)
    requires Inv(s) && ReplyOk(s, id, k, reply)
    ensures var t := HandleReply(s, id, k, reply);
            if ReplyNominates(s, id, reply) && s.comps[s.pairs[id].comp].state in {Gathering, Failed}
            then Keeps(Faulted(s, IllegalTransition), t)
            else Keeps(s, t)
  {
    hide Inv, Thawed, GatheringIsEmpty, NominatedIsSelected, UpdateForReady, FinishReply, Answered,
      CheckForRoleConflict, OkNominated, FailPair;
    var c := s.pairs[id].comp;
    match reply {
      case Success(sourceOk, remote, m) =>
        DropStunKeeps(s, id, k);
        StunIrrelevant(s, id, k, reply);
        var s1 := DropStun(s, id, k);
        if !sourceOk || remote.None? {
          FailKeeps(s1, id);
          UpdateForReadyKeeps(FailPair(s1, id), c);
        } else {
          AnsweredKeeps(s1, id, remote.value, m);
          var (s2, ok) := Answered(s1, id, remote.value, m);
          FinishReplyInv(s2, id, ok);
          NotDisconnected(s, id);
        }
      case RoleConflict =>
        if s.pairs[id].retransmit {
          RoleConflictKeeps(s, !s.pairs[id].stun[k].sentControlling);
          RoleConflictFrame(s, !s.pairs[id].stun[k].sentControlling, id);
          var s1 := CheckForRoleConflict(s, !s.pairs[id].stun[k].sentControlling);
          DropStunKeeps(s1, id, k);
          EnqueueKeeps(DropStun(s1, id, k), id);
        }
      case StunError =>
        FailKeeps(s, id);
        UpdateForReadyKeeps(FailPair(s, id), c);
    }
  }

  lemma RoleConflictFrame(s: State, control: bool, id: PairId)
    requires id in s.pairs
    ensures var t := CheckForRoleConflict(s, control); id in t.pairs && t.pairs[id].stun == s.pairs[id].stun
  {
    hide StableSort;
  }
}
