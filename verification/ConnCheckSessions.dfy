/** Remote candidate updates, lost sockets, manual selection, restart and gathering keep the invariants. */
module ConnCheckSessions {
  import opened Basics
  import opened CandidatePriority
  import opened ConnCheckState
  import opened ConnCheckSpec
  import opened ConnCheckInvariants
  import opened ConnCheckHandlers
  import opened ConnCheckReplies

  // `Keeps` without the foundation invariant, which a rename may break, and with a second assertion
  // that may fail when a selection is missing.
  predicate KeepsNearly(s: State, t: State) {
    && Inv(t)
    && (GatheringIsEmpty(s.pairs, s.comps) ==> GatheringIsEmpty(t.pairs, t.comps))
    && (NominatedIsSelected(s.pairs, s.comps) ==> NominatedIsSelected(t.pairs, t.comps) && t.fault == s.fault)
    && (Excused(s.fault, t.fault) || (s.fault.NoFault? && t.fault.SelectionMissing?))
  }

  // ----- an updated remote candidate

  lemma RenamedPairInv(s: State, id: PairId, f: string)
    requires Inv(s) && id in s.pairs
    ensures KeepsNearly(s, SetPair(s, id, s.pairs[id].(foundation := f)))
  {
    hide Inv;
    TameKeepsInv(s, SetPair(s, id, s.pairs[id].(foundation := f)));
  }

  lemma RenameOneInv(s: State, c: nat, r: CandId, id: PairId)
    requires Inv(s) && c < |s.comps| && id in s.pairs
    ensures KeepsNearly(s, RenameOne(s, c, r, id))
  {
    hide Inv, Thawed, GatheringIsEmpty, NominatedIsSelected, UnfreezeRelated;
    var p := s.pairs[id];
    var f := NewFoundation(s, p);
    RenamedPairInv(s, id, f);
    var s1 := SetPair(s, id, p.(foundation := f));
    UnfreezeRelatedKeeps(s1, f);
    UnfreezeComps(s1, f);
    PricePositive(s, id);
    var s2 := if p.state.Succeeded? then UnfreezeRelated(s1, f) else s1;
    if s.comps[c].selLocal == Some(p.local) && s.comps[c].selRemote == Some(p.remote) {
      SelectKeeps(s2, c, s2.comps[c].(selPriority := p.priority));
    }
  }

  lemma UnfreezeComps(s: State, f: string)
    ensures UnfreezeRelated(s, f).comps == s.comps
  {
  }

  lemma {:induction false} RenameAlongInv(s: State, c: nat, r: CandId, ids: seq<PairId>)
    requires Inv(s) && c < |s.comps|
    ensures KeepsNearly(s, RenameAlong(s, c, r, ids))
    decreases |ids|
  {
    hide Inv, GatheringIsEmpty, NominatedIsSelected, RenameOne;
    if ids != [] {
      if ids[0] in s.pairs {
        RenameOneInv(s, c, r, ids[0]);
        RenameAlongInv(RenameOne(s, c, r, ids[0]), c, r, ids[1..]);
      } else {
        RenameAlongInv(s, c, r, ids[1..]);
      }
    }
  }

  lemma RenamedPairs(s: State, c: nat, r: CandId, id: PairId)
    requires c < |s.comps| && id in s.pairs
    ensures var p := s.pairs[id];
            var f := NewFoundation(s, p);
            var pairs := s.pairs[id := p.(foundation := f)];
            p.remote == r && f != p.foundation ==>
              RenameOne(s, c, r, id).pairs ==
              if p.state.Succeeded? then map x | x in pairs :: Thaw(pairs[x], f) else pairs
  {
    hide NewFoundation;
  }

  lemma NewRemoteWellFormed(s: State, r: CandId, k: Candidate)
    requires WellFormed(s) && r in s.cands && !s.cands[r].isLocal && !k.isLocal && k.priority < TWO_32
    ensures WellFormed(s.(cands := s.cands[r := k]))
  {
    hide ListsOk, LinksOk, QueueOk, PairsListed;
  }

  lemma RenamedKeeps(s: State, c: nat, r: CandId, k: Candidate)
    requires Inv(s) && HasComp(s, c) && r in s.cands && !s.cands[r].isLocal && !k.isLocal && k.priority < TWO_32
    ensures KeepsNearly(s, Renamed(s, c, r, k))
  {
    hide WellFormed, Sorted, Priced, GatheringIsEmpty, NominatedIsSelected, ReadyIsClean, DisconnectedIsEmpty,
      SelectionOk, Recalculate, RenameAlong;
    var s1 := s.(cands := s.cands[r := k]);
    NewRemoteWellFormed(s, r, k);
    RecalculateInv(s1);
    RecalculateRest(s1);
    RenameAlongInv(Recalculate(s1), c, r, StreamList(Recalculate(s1), c));
  }

  lemma EndsFact(s: State, c: nat, id: PairId)
    requires Inv(s) && NominatedIsSelected(s.pairs, s.comps) && c < |s.comps|
    requires id in s.pairs && s.pairs[id].comp == c && s.pairs[id].nominated
    ensures s.comps[c].selLocal.Some? && s.comps[c].selRemote.Some?
  {
  }

  lemma ReselectedKeeps(s: State, c: nat)
    requires Inv(s) && HasComp(s, c)
    ensures KeepsNearly(s, Reselected(s, c))
  {
    hide Inv, Thawed, GatheringIsEmpty, NominatedIsSelected, UpdateSelected;
    TimerKeeps(s, s);
    FaultKeeps(s, SelectionMissing);
    var top := HighestNominated(s, c);
    if top.Some? {
      UpdateSelectedKeeps(s, c, top.value);
      if NominatedIsSelected(s.pairs, s.comps) {
        EndsFact(s, c, top.value);
      }
    }
  }

  lemma UpdateRemoteKeeps(s: State, c: nat, r: CandId, priority: nat, foundation: string, kind: CandidateType)
    requires Inv(s) && HasComp(s, c) && r in s.cands && !s.cands[r].isLocal
    requires 0 < priority < TWO_32
    ensures KeepsNearly(s, UpdateRemote(s, c, r, priority, foundation, kind))
  {
    hide Inv, Thawed, GatheringIsEmpty, NominatedIsSelected, Renamed, Reselected, UpdateForReady;
    var k := NewRemote(s.cands[r], priority, foundation, kind);
    RenamedKeeps(s, c, r, k);
    ReselectedKeeps(Renamed(s, c, r, k), c);
    UpdateForReadyKeeps(Reselected(Renamed(s, c, r, k), c), c);
  }

  // ----- lost sockets

  lemma StepDownKeeps(s: State, c: nat)
    requires Inv(s) && c < |s.comps|
    ensures Keeps(s, StepDown(s, c))
  {
    hide Inv, Thawed, GatheringIsEmpty, NominatedIsSelected;
    if s.comps[c].state.Ready? {
      SignalKeeps(s, c, Failed);
    } else if s.comps[c].state.Connected? {
      SignalKeeps(s, c, Connecting);
    }
  }

  lemma ScanOneKeeps(x: SocketScan, c: nat, sock: nat, id: PairId)
    requires Inv(x.s) && c < |x.s.comps| && id in x.s.pairs
    ensures Keeps(x.s, ScanOne(x, c, sock, id).s)
  {
    hide Inv, Thawed, GatheringIsEmpty, NominatedIsSelected, RemovePairs, FailPair;
    var p := x.s.pairs[id];
    var s1 := if x.selFailed && p.stun != [] then SetPair(x.s, id, p.(retransmit := true)) else x.s;
    if x.selFailed && p.stun != [] {
      SetPairKeeps(x.s, id, p.(retransmit := true));
    }
    FailKeeps(s1, id);
    RemoveKeeps(FailPair(s1, id), {id});
  }

  lemma {:induction false} ScanAlongKeeps(x: SocketScan, c: nat, sock: nat, ids: seq<PairId>)
    requires Inv(x.s) && c < |x.s.comps|
    ensures Keeps(x.s, ScanAlong(x, c, sock, ids).s)
    decreases |ids|
  {
    hide Inv, Thawed, GatheringIsEmpty, NominatedIsSelected, ScanOne;
    if ids != [] {
      if ids[0] in x.s.pairs {
        ScanOneKeeps(x, c, sock, ids[0]);
        ScanAlongKeeps(ScanOne(x, c, sock, ids[0]), c, sock, ids[1..]);
      } else {
        ScanAlongKeeps(x, c, sock, ids[1..]);
      }
    }
  }

  lemma PruneSocketKeeps(s: State, c: nat, sock: nat)
    requires Inv(s) && HasComp(s, c)
    ensures Keeps(s, PruneSocket(s, c, sock))
  {
    hide Inv, Thawed, GatheringIsEmpty, NominatedIsSelected, ScanAlong, StepDown, UpdateForReady;
    var k := s.comps[c].selLocal;
    var lost := k.Some? && k.value in s.cands && s.cands[k.value].sock == Some(sock);
    StepDownKeeps(s, c);
    var s1 := if lost then StepDown(s, c) else s;
    ScanAlongKeeps(SocketScan(s1, lost, false, 0, 0), c, sock, StreamList(s1, c));
    var x := ScanAlong(SocketScan(s1, lost, false, 0, 0), c, sock, StreamList(s1, c));
    if x.pairFailed {
      SignalKeeps(x.s, c, Failed);
      StepDownKeeps(x.s, c);
      var s2 := if x.kept == 0 then Signal(x.s, c, Failed)
                else if x.nominated == 0 then StepDown(x.s, c) else x.s;
      UpdateForReadyKeeps(s2, c);
    }
  }

  // A component changes its candidates only.
  lemma CandidatesKeep(s: State, c: nat, x: Component)
    requires Inv(s) && c < |s.comps| && x == s.comps[c].(remotes := x.remotes, locals := x.locals)
    ensures Keeps(s, SetComp(s, c, x))
  {
    hide WellFormed, Sorted, Priced, Thawed, ReadyIsClean, DisconnectedIsEmpty, SelectionOk, NominatedIsSelected,
      GatheringIsEmpty;
    SwapComps(s, s.comps[c := x]);
    StatesFollow(s.pairs, s.comps, s.comps[c := x]);
  }

  lemma ClearedOk(pairs: map<PairId, Pair>, comps: seq<Component>, c: nat, x: Component)
    requires c < |comps| && x == comps[c].(selLocal := None, selRemote := None, selPriority := 0)
    requires ReadyIsClean(pairs, comps) && DisconnectedIsEmpty(pairs, comps) && SelectionOk(pairs, comps)
    ensures var comps' := comps[c := x];
            && ReadyIsClean(pairs, comps') && DisconnectedIsEmpty(pairs, comps') && SelectionOk(pairs, comps')
            && (GatheringIsEmpty(pairs, comps) ==> GatheringIsEmpty(pairs, comps'))
  {
  }

  // ----- emptied streams

  lemma PruneStreamKeeps(s: State, n: nat)
    requires Inv(s) && n < |s.lists|
    ensures Keeps(s, PruneStream(s, n))
    ensures forall id :: id in PruneStream(s, n).pairs ==>
              var c := s.pairs[id].comp; c < |s.comps| && s.comps[c].stream != n
    ensures PruneStream(s, n).comps == s.comps && PruneStream(s, n).cands == s.cands
    ensures forall id :: id in PruneStream(s, n).pairs ==> id in s.pairs && PruneStream(s, n).pairs[id] == s.pairs[id]
  {
    hide Inv, Thawed, GatheringIsEmpty, NominatedIsSelected, FilterOut;
    var gone := Members(s.lists[n]);
    RemoveKeeps(s, gone);
    TimerKeeps(RemovePairs(s, gone), PruneStream(s, n));
    forall id | id in s.pairs && id !in gone
      ensures s.pairs[id].comp < |s.comps| && s.comps[s.pairs[id].comp].stream != n
    {
      ListedFact(s, id);
    }
  }

  lemma PruneStreamRoles(s: State, n: nat)
    requires n < |s.lists|
    ensures PruneStream(s, n).controlling == s.controlling && PruneStream(s, n).comps == s.comps
  {
    hide FilterOut;
  }

  lemma ListedFact(s: State, id: PairId)
    requires Inv(s) && id in s.pairs
    ensures HasComp(s, s.pairs[id].comp) && id in StreamList(s, s.pairs[id].comp)
  {
  }

  lemma SetSelectedKeeps(s: State, c: nat, l: CandId, r: CandId)
    requires Inv(s) && CanPair(s, c, l, r)
    ensures Keeps(s, SetSelected(s, c, l, r))
  {
    hide Inv, Thawed, GatheringIsEmpty, NominatedIsSelected, PruneStream, ConcludeReady;
    var s0 := PruneStream(s, s.comps[c].stream);
    PruneStreamKeeps(s, s.comps[c].stream);
    ConcludeKeeps(s0, c);
    var s1 := ConcludeReady(s0, c);
    CandFact(s, l);
    CandFact(s, r);
    PairPriorityPositive(s.controlling, s.cands[l].priority, s.cands[r].priority);
    SelectKeeps(s1, c, s1.comps[c].(selLocal := Some(l), selRemote := Some(r),
      selPriority := AgentPairPriority(s.controlling, s.cands[l].priority, s.cands[r].priority)));
  }

  lemma CandFact(s: State, k: CandId)
    requires Inv(s) && k in s.cands
    ensures s.cands[k].priority < TWO_32 && (s.cands[k].isLocal ==> 1 <= s.cands[k].priority < TWO_31)
  {
  }

  lemma RestartKeeps(s: State, n: nat)
    requires Inv(s) && n < |s.lists|
    ensures Keeps(s, Restart(s, n))
  {
    hide WellFormed, Sorted, Priced, PruneStream, ReadyIsClean, DisconnectedIsEmpty, SelectionOk,
      NominatedIsSelected, GatheringIsEmpty, Thawed;
    PruneStreamKeeps(s, n);
    var s1 := PruneStream(s, n);
    RestartThaws(s, n);
    NoneOwned(s, n);
    SwapComps(s1, Restart(s, n).comps);
    RestartedOk(s1.pairs, s1.comps, Restart(s, n).comps, n);
  }

  lemma NoneOwned(s: State, n: nat)
    requires Inv(s) && n < |s.lists|
    ensures var t := PruneStream(s, n);
            forall id :: id in t.pairs ==> t.pairs[id].comp < |t.comps| && t.comps[t.pairs[id].comp].stream != n
  {
    hide Inv, PruneStream, Thawed, GatheringIsEmpty, NominatedIsSelected;
    PruneStreamKeeps(s, n);
  }

  lemma RestartedOk(pairs: map<PairId, Pair>, comps: seq<Component>, comps': seq<Component>, n: nat)
    requires |comps'| == |comps| && forall c :: 0 <= c < |comps| ==> comps'[c] == RestartedComp(comps[c], n)
    requires forall id :: id in pairs ==> pairs[id].comp < |comps| && comps[pairs[id].comp].stream != n
    requires ReadyIsClean(pairs, comps) && DisconnectedIsEmpty(pairs, comps) && SelectionOk(pairs, comps)
    ensures ReadyIsClean(pairs, comps') && DisconnectedIsEmpty(pairs, comps') && SelectionOk(pairs, comps')
    ensures NominatedIsSelected(pairs, comps) ==> NominatedIsSelected(pairs, comps')
    ensures GatheringIsEmpty(pairs, comps) ==> GatheringIsEmpty(pairs, comps')
  {
  }

  lemma RestartThaws(s: State, n: nat)
    requires n < |s.lists|
    ensures Restart(s, n).pairs == PruneStream(s, n).pairs
    ensures Restart(s, n) == PruneStream(s, n).(comps := Restart(s, n).comps)
  {
  }

  // ----- gathering

  /** Gathering keeps everything but, from FAILED, the emptiness of GATHERING components;
      and that exactly when the failed component still owns a pair. */
  lemma GatherKeeps(s: State, c: nat)
    requires Inv(s) && c < |s.comps|
    ensures var t := Gather(s, c);
            && Inv(t) && t.fault == s.fault && t.pairs == s.pairs
            && (NominatedIsSelected(s.pairs, s.comps) ==> NominatedIsSelected(t.pairs, t.comps))
            && (GatheringIsEmpty(s.pairs, s.comps) ==>
                  (GatheringIsEmpty(t.pairs, t.comps) <==> !(s.comps[c].state.Failed? && Owns(s, c))))
  {
    hide WellFormed, Sorted, Priced, ReadyIsClean, DisconnectedIsEmpty, SelectionOk, NominatedIsSelected,
      GatheringIsEmpty, Signal;
    if s.comps[c].state in {Disconnected, Failed} {
      SignalIsSwap(s, c, Gathering);
      GatherSwap(s.pairs, s.comps, c);
      SwapComps(s, s.comps[c := s.comps[c].(state := Gathering)]);
    }
  }

  lemma GatherSwap(pairs: map<PairId, Pair>, comps: seq<Component>, c: nat)
    requires c < |comps| && comps[c].state in {Disconnected, Failed}
    requires ReadyIsClean(pairs, comps) && DisconnectedIsEmpty(pairs, comps) && SelectionOk(pairs, comps)
    ensures var comps' := comps[c := comps[c].(state := Gathering)];
            && ReadyIsClean(pairs, comps') && DisconnectedIsEmpty(pairs, comps') && SelectionOk(pairs, comps')
            && (NominatedIsSelected(pairs, comps) ==> NominatedIsSelected(pairs, comps'))
            && (GatheringIsEmpty(pairs, comps) ==>
                  (GatheringIsEmpty(pairs, comps') <==>
                   !(comps[c].state.Failed? && exists id :: id in pairs && pairs[id].comp == c)))
  {
    var comps' := comps[c := comps[c].(state := Gathering)];
    if comps[c].state.Failed? && exists id :: id in pairs && pairs[id].comp == c {
      var id :| id in pairs && pairs[id].comp == c;
      assert comps'[c].state.Gathering?;
    }
  }

  // ----- new streams and candidates

  lemma AddStreamKeeps(s: State, components: nat)
    requires Inv(s)
    ensures Keeps(s, AddStream(s, components))
  {
    hide CandsOk, EndsOk, LinksOk, QueueOk, Priced;
    var t := AddStream(s, components);
    forall n | 0 <= n < |t.lists|
      ensures ListOk(t.lists[n], n, t.pairs, t.comps) && SortedBy(t.lists[n], t.pairs)
    {
      if n < |s.lists| {
        assert ListOk(s.lists[n], n, s.pairs, s.comps) && SortedBy(s.lists[n], s.pairs);
      }
    }
  }

  predicate CandidateOk(k: Candidate) {
    k.priority < TWO_32 && (k.isLocal ==> 1 <= k.priority < TWO_31)
  }

  lemma KnownWellFormed(s: State, k: Candidate)
    requires WellFormed(s) && CandidateOk(k)
    ensures WellFormed(s.(cands := s.cands[s.nextCand := k], nextCand := s.nextCand + 1))
  {
    hide LinksOk, QueueOk, ListsOk, PairsListed;
  }

  lemma StatesFollow(pairs: map<PairId, Pair>, comps: seq<Component>, comps': seq<Component>)
    requires |comps'| == |comps|
    requires forall c :: 0 <= c < |comps| ==>
               comps'[c].(remotes := comps[c].remotes, locals := comps[c].locals) == comps[c]
    requires ReadyIsClean(pairs, comps) && DisconnectedIsEmpty(pairs, comps) && SelectionOk(pairs, comps)
    ensures ReadyIsClean(pairs, comps') && DisconnectedIsEmpty(pairs, comps') && SelectionOk(pairs, comps')
    ensures NominatedIsSelected(pairs, comps) ==> NominatedIsSelected(pairs, comps')
    ensures GatheringIsEmpty(pairs, comps) ==> GatheringIsEmpty(pairs, comps')
  {
    assert forall c :: 0 <= c < |comps| ==>
             && comps'[c].state == comps[c].state && comps'[c].selPriority == comps[c].selPriority
             && comps'[c].selLocal == comps[c].selLocal && comps'[c].selRemote == comps[c].selRemote;
  }

  lemma AddCandidateKeeps(s: State, k: Candidate)
    requires Inv(s) && CandidateOk(k)
    ensures Keeps(s, AddCandidate(s, k))
  {
    hide WellFormed, Sorted, Priced, Thawed, ReadyIsClean, DisconnectedIsEmpty, SelectionOk, NominatedIsSelected,
      GatheringIsEmpty;
    KnownWellFormed(s, k);
    LearnPrices(s, k);
    SwapComps(s.(cands := s.cands[s.nextCand := k], nextCand := s.nextCand + 1), AddCandidate(s, k).comps);
    StatesFollow(s.pairs, s.comps, AddCandidate(s, k).comps);
  }
}
