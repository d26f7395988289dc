/** Losing a socket: what nice_component_remove_socket keeps, and exactly when it takes the selection
away from a component that still has a nominated pair. The 403 handler is here as well. */
module ConnCheckSockets {
  import opened Basics
  import opened ConnCheckState
  import opened ConnCheckSpec
  import opened ConnCheckInvariants
  import opened ConnCheckHandlers
  import opened ConnCheckSessions

  // ----- what a lost socket leaves alone

  predicate FewerPairs(pairs: map<PairId, Pair>, pairs': map<PairId, Pair>) {
    forall id :: id in pairs' ==> id in pairs && Thinned(pairs[id], pairs'[id])
  }

  // A pair may fail and lose its transactions; beside that only its retransmission flag changes.
  predicate Thinned(p: Pair, q: Pair) {
    && q == p.(state := q.state, stun := q.stun, retransmit := q.retransmit)
    && (q.state == p.state || q.state.FailedCheck?)
    && (q.stun == p.stun || q.stun == [])
  }

  predicate Subqueue(queue: seq<PairId>, queue': seq<PairId>) {
    forall id :: id in queue' ==> id in queue
  }

  predicate OnlyStates(comps: seq<Component>, comps': seq<Component>) {
    |comps'| == |comps| && forall c :: 0 <= c < |comps| ==> comps'[c].(state := comps[c].state) == comps[c]
  }

  // Pairs go, component states move; candidates, selections and the flags of the pairs that stay do not.
  predicate Thins(s: State, t: State) {
    SameBase(s, t) && OnlyStates(s.comps, t.comps) && FewerPairs(s.pairs, t.pairs) && Subqueue(s.queue, t.queue)
  }

  lemma ThinsTrans(s: State, t: State, u: State)
    requires Thins(s, t) && Thins(t, u)
    ensures Thins(s, u)
  {
  }

  lemma SignalThins(s: State, c: nat, to: ComponentState)
    ensures Thins(s, Signal(s, c, to))
  {
  }

  lemma StepDownThins(s: State, c: nat)
    requires c < |s.comps|
    ensures Thins(s, StepDown(s, c))
  {
  }

  lemma ScanOneThins(x: SocketScan, c: nat, sock: nat, id: PairId)
    requires c < |x.s.comps| && id in x.s.pairs
    ensures Thins(x.s, ScanOne(x, c, sock, id).s)
  {
    hide Thins, FailPair, RemovePairs, OnSocket;
    var p := x.s.pairs[id];
    var s1 := if x.selFailed && p.stun != [] then SetPair(x.s, id, p.(retransmit := true)) else x.s;
    StepOver(x.s);
    SetPairThins(x.s, id, p.(retransmit := true));
    FailThins(s1, id);
    RemoveThins(FailPair(s1, id), {id});
    ThinsTrans(s1, FailPair(s1, id), RemovePairs(FailPair(s1, id), {id}));
    ThinsTrans(x.s, s1, RemovePairs(FailPair(s1, id), {id}));
  }

  lemma SetPairThins(s: State, id: PairId, p: Pair)
    requires id in s.pairs && Thinned(s.pairs[id], p)
    ensures Thins(s, SetPair(s, id, p))
  {
    StepOver(s);
  }

  lemma FailThins(s: State, id: PairId)
    requires id in s.pairs
    ensures Thins(s, FailPair(s, id)) && FailPair(s, id).pairs.Keys == s.pairs.Keys
  {
    hide Thins;
    var p := s.pairs[id];
    var s1 := SetPair(s, id, p.(state := FailedCheck, stun := [], retransmit := false));
    SetPairThins(s, id, s1.pairs[id]);
    if p.discovered.Some? && p.discovered.value in s1.pairs {
      SetPairThins(s1, p.discovered.value, s1.pairs[p.discovered.value].(state := FailedCheck));
      ThinsTrans(s, s1, FailPair(s, id));
    }
  }

  lemma RemoveThins(s: State, gone: set<PairId>)
    ensures Thins(s, RemovePairs(s, gone))
  {
    hide FilterOut;
    StepOver(s);
    FilterOutMembers(s.queue, gone);
  }

  lemma {:induction false} ScanAlongThins(x: SocketScan, c: nat, sock: nat, ids: seq<PairId>)
    requires c < |x.s.comps|
    ensures Thins(x.s, ScanAlong(x, c, sock, ids).s)
    decreases |ids|
  {
    hide Thins, ScanOne;
    if ids == [] {
      StepOver(x.s);
    } else {
      var y := if ids[0] in x.s.pairs then ScanOne(x, c, sock, ids[0]) else x;
      if ids[0] in x.s.pairs {
        ScanOneThins(x, c, sock, ids[0]);
      } else {
        StepOver(x.s);
      }
      ScanAlongThins(y, c, sock, ids[1..]);
      ThinsTrans(x.s, y.s, ScanAlong(y, c, sock, ids[1..]).s);
    }
  }

  lemma StepOver(s: State)
    ensures Thins(s, s)
  {
    assert forall c :: 0 <= c < |s.comps| ==> s.comps[c].(state := s.comps[c].state) == s.comps[c];
  }

  lemma ConcludeThins(s: State, c: nat)
    requires c < |s.comps|
    ensures Thins(s, ConcludeReady(s, c))
  {
    hide Signal, Thins;
    StepOver(s);
    var s1 := if s.comps[c].state in {Disconnected, Gathering, Failed} then Signal(s, c, Connecting) else s;
    SignalThins(s, c, Connecting);
    var s2 := if s1.comps[c].state in {Disconnected, Gathering, Connecting} then Signal(s1, c, Connected) else s1;
    StepOver(s1);
    SignalThins(s1, c, Connected);
    SignalThins(s2, c, Ready);
    ThinsTrans(s, s1, s2);
    ThinsTrans(s, s2, Signal(s2, c, Ready));
  }

  lemma PruneThins(s: State, c: nat)
    requires c < |s.comps|
    ensures Thins(s, PrunePending(s, c))
  {
    hide Thins, Silenced, RemovePairs, PruneDrops;
    SilencedThins(s, c);
    RemoveThins(Silenced(s, c), PruneGone(s, c));
    ThinsTrans(s, Silenced(s, c), PrunePending(s, c));
  }

  lemma SilencedThins(s: State, c: nat)
    requires c < |s.comps|
    ensures Thins(s, Silenced(s, c))
  {
    hide FilterOut, PruneSilences, PrunedPair;
    StepOver(s);
    FilterOutMembers(s.queue, set id | id in s.pairs && PruneSilences(s, c, id));
    forall id | id in s.pairs
      ensures PrunedPair(s, c, id) == s.pairs[id].(retransmit := PrunedPair(s, c, id).retransmit)
    {
      PrunedFlag(s, c, id);
    }
  }

  lemma PrunedFlag(s: State, c: nat, id: PairId)
    requires c < |s.comps| && id in s.pairs
    ensures PrunedPair(s, c, id) == s.pairs[id].(retransmit := PrunedPair(s, c, id).retransmit)
  {
  }

  lemma UpdateForReadyThins(s: State, c: nat)
    requires c < |s.comps|
    ensures Thins(s, UpdateForReady(s, c))
  {
    hide PrunePending, ConcludeReady, PruneCounts;
    StepOver(s);
    PruneThins(s, c);
    ConcludeThins(PrunePending(s, c), c);
    ThinsTrans(s, PrunePending(s, c), ConcludeReady(PrunePending(s, c), c));
  }

  lemma PruneSocketThins(s: State, c: nat, sock: nat)
    requires HasComp(s, c)
    ensures Thins(s, PruneSocket(s, c, sock))
  {
    hide Thins, ScanAlong, StepDown, UpdateForReady, Signal;
    var k := s.comps[c].selLocal;
    var lost := k.Some? && k.value in s.cands && s.cands[k.value].sock == Some(sock);
    StepOver(s);
    StepDownThins(s, c);
    var s1 := if lost then StepDown(s, c) else s;
    ScanAlongThins(SocketScan(s1, lost, false, 0, 0), c, sock, StreamList(s1, c));
    var x := ScanAlong(SocketScan(s1, lost, false, 0, 0), c, sock, StreamList(s1, c));
    ThinsTrans(s, s1, x.s);
    if x.pairFailed {
      StepOver(x.s);
      SignalThins(x.s, c, Failed);
      StepDownThins(x.s, c);
      var s2 := if x.kept == 0 then Signal(x.s, c, Failed)
                else if x.nominated == 0 then StepDown(x.s, c) else x.s;
      ThinsTrans(s, x.s, s2);
      UpdateForReadyThins(s2, c);
      ThinsTrans(s, s2, UpdateForReady(s2, c));
    }
  }

  // ----- which pairs a list update takes

  // The list update does not free the pair.
  predicate Kept(s: State, c: nat, id: PairId)
    requires c < |s.comps| && id in s.pairs
  {
    !(HasValidNominated(s, c) && s.comps[c].selPriority > 0 && PruneDrops(s, c, id))
  }

  lemma UpdateForReadyKept(s: State, c: nat, id: PairId)
    requires c < |s.comps| && id in s.pairs
    ensures var t := UpdateForReady(s, c);
            && t.pairs.Keys <= s.pairs.Keys
            && (id in t.pairs <==> Kept(s, c, id))
            && (id in t.pairs ==> t.pairs[id].foundation == s.pairs[id].foundation && t.pairs[id].state == s.pairs[id].state)
  {
    hide PruneCounts, HasValidNominated, PruneDrops, PrunePending, ConcludeReady;
    PrunedKept(s, c, id);
  }

  lemma PrunedKept(s: State, c: nat, id: PairId)
    requires c < |s.comps| && id in s.pairs
    ensures var t := PrunePending(s, c);
            && t.pairs.Keys <= s.pairs.Keys
            && (id in t.pairs <==> !PruneDrops(s, c, id))
            && (id in t.pairs ==> t.pairs[id].foundation == s.pairs[id].foundation && t.pairs[id].state == s.pairs[id].state)
  {
    hide FilterOut, PruneDrops;
  }

  // ----- which pairs a lost socket takes

  predicate OnIt(s: State, c: nat, sock: nat, id: PairId)
    requires id in s.pairs
  {
    s.pairs[id].comp == c && OnSocket(s, s.pairs[id], sock)
  }

  lemma SameSocket(s: State, t: State, c: nat, sock: nat, id: PairId)
    requires Thins(s, t) && id in t.pairs
    ensures id in s.pairs && OnIt(t, c, sock, id) == OnIt(s, c, sock, id)
  {
    hide OnlyStates;
  }

  lemma ScanOneTakes(x: SocketScan, c: nat, sock: nat, id: PairId)
    requires c < |x.s.comps| && id in x.s.pairs
    ensures var y := ScanOne(x, c, sock, id);
            && y.s.pairs.Keys == x.s.pairs.Keys - (if OnIt(x.s, c, sock, id) then {id} else {})
            && y.pairFailed == (x.pairFailed || OnIt(x.s, c, sock, id))
            && y.s.fault == x.s.fault
  {
    hide FilterOut;
  }

  lemma {:induction false} ScanAlongTakes(x: SocketScan, c: nat, sock: nat, ids: seq<PairId>)
    requires c < |x.s.comps|
    ensures var y := ScanAlong(x, c, sock, ids);
            && (forall id :: id in y.s.pairs <==> id in x.s.pairs && !(id in ids && OnIt(x.s, c, sock, id)))
            && (y.pairFailed <==> x.pairFailed || exists id :: id in ids && id in x.s.pairs && OnIt(x.s, c, sock, id))
            && y.s.fault == x.s.fault
    decreases |ids|
  {
    hide ScanOne, OnIt, Thins;
    if ids != [] {
      var x1 := if ids[0] in x.s.pairs then ScanOne(x, c, sock, ids[0]) else x;
      StepOver(x.s);
      if ids[0] in x.s.pairs {
        ScanOneTakes(x, c, sock, ids[0]);
        ScanOneThins(x, c, sock, ids[0]);
      }
      assert forall id :: id in ids <==> id == ids[0] || id in ids[1..];
      forall id | id in x1.s.pairs
        ensures id in x.s.pairs && OnIt(x1.s, c, sock, id) == OnIt(x.s, c, sock, id)
      {
        SameSocket(x.s, x1.s, c, sock, id);
      }
      ScanAlongTakes(x1, c, sock, ids[1..]);
    }
  }

  // A valid and nominated pair of `c` that does not use the socket.
  predicate NominatedElsewhere(s: State, c: nat, sock: nat) {
    exists id :: id in s.pairs && s.pairs[id].comp == c && s.pairs[id].valid && s.pairs[id].nominated && !OnIt(s, c, sock, id)
  }

  predicate SomeOnIt(s: State, c: nat, sock: nat) {
    exists id :: id in s.pairs && OnIt(s, c, sock, id)
  }

  // The list scan of a lost socket, from the state in which it starts.
  function Scanned(s: State, c: nat, sock: nat): (x: SocketScan)
    requires HasComp(s, c)
    ensures SameBase(s, x.s)
  {
    var k := s.comps[c].selLocal;
    var lost := k.Some? && k.value in s.cands && s.cands[k.value].sock == Some(sock);
    var s1 := if lost then StepDown(s, c) else s;
    ScanAlong(SocketScan(s1, lost, false, 0, 0), c, sock, StreamList(s1, c))
  }

  lemma ScannedTakes(s: State, c: nat, sock: nat)
    requires Inv(s) && HasComp(s, c)
    ensures var x := Scanned(s, c, sock);
            && Thins(s, x.s) && x.s.fault == s.fault
            && (forall id :: id in x.s.pairs <==> id in s.pairs && !OnIt(s, c, sock, id))
            && (x.pairFailed <==> SomeOnIt(s, c, sock))
  {
    hide Inv, Thins, ScanAlong, OnIt, StepDown;
    var k := s.comps[c].selLocal;
    var lost := k.Some? && k.value in s.cands && s.cands[k.value].sock == Some(sock);
    var s1 := if lost then StepDown(s, c) else s;
    StepOver(s);
    StepDownThins(s, c);
    StepDownFault(s, c);
    var ids := StreamList(s1, c);
    ScanAlongThins(SocketScan(s1, lost, false, 0, 0), c, sock, ids);
    ThinsTrans(s, s1, Scanned(s, c, sock).s);
    ScanAlongTakes(SocketScan(s1, lost, false, 0, 0), c, sock, ids);
    forall id | id in s.pairs
      ensures OnIt(s1, c, sock, id) == OnIt(s, c, sock, id) && (OnIt(s, c, sock, id) ==> id in ids)
    {
      SameSocket(s, s1, c, sock, id);
      ListedOnIt(s, c, sock, id);
    }
  }

  lemma StepDownFault(s: State, c: nat)
    requires c < |s.comps|
    ensures StepDown(s, c).fault == s.fault && StepDown(s, c).pairs == s.pairs && StepDown(s, c).lists == s.lists
  {
  }

  lemma ListedOnIt(s: State, c: nat, sock: nat, id: PairId)
    requires Inv(s) && id in s.pairs && HasComp(s, c)
    ensures OnIt(s, c, sock, id) ==> id in StreamList(s, c)
  {
  }

  /** No pair of the component uses the socket any more, and the assertion on the selected priority
      fails exactly when a pair was on the socket, a valid nominated one is not, and nothing is selected. */
  lemma PruneSocketTakes(s: State, c: nat, sock: nat)
    requires Inv(s) && HasComp(s, c)
    ensures var t := PruneSocket(s, c, sock);
            && (forall id :: id in t.pairs ==> !OnIt(t, c, sock, id))
            && (s.fault.NoFault? ==>
                  (t.fault.ZeroSelectedPriority? <==>
                   s.comps[c].selPriority == 0 && SomeOnIt(s, c, sock) && NominatedElsewhere(s, c, sock)))
  {
    hide Inv, Thins, OnIt, ScanAlong, StepDown, UpdateForReady, Signal;
    var x := Scanned(s, c, sock);
    ScannedTakes(s, c, sock);
    var t := PruneSocket(s, c, sock);
    PruneSocketThins(s, c, sock);
    if x.pairFailed {
      var s2 := if x.kept == 0 then Signal(x.s, c, Failed)
                else if x.nominated == 0 then StepDown(x.s, c) else x.s;
      SignalFails(x.s, c);
      StepDownThins(x.s, c);
      StepDownFault(x.s, c);
      StepOver(x.s);
      ThinsTrans(s, x.s, s2);
      UpdateForReadyTakes(s2, c);
      ElsewhereStays(s, s2, c, sock);
    }
    forall id | id in t.pairs
      ensures !OnIt(t, c, sock, id)
    {
      SameSocket(s, t, c, sock, id);
    }
  }

  lemma SignalFails(s: State, c: nat)
    requires c < |s.comps|
    ensures var t := Signal(s, c, Failed); t.fault == s.fault && t.pairs == s.pairs && Thins(s, t)
  {
    SignalThins(s, c, Failed);
  }

  lemma UpdateForReadyTakes(s: State, c: nat)
    requires c < |s.comps|
    ensures UpdateForReady(s, c).pairs.Keys <= s.pairs.Keys
    ensures s.fault.NoFault? ==>
              (UpdateForReady(s, c).fault.ZeroSelectedPriority? <==> HasValidNominated(s, c) && s.comps[c].selPriority == 0)
  {
    hide PruneCounts, HasValidNominated, PrunePending, ConcludeReady;
    PruneFault(s, c);
    ConcludeFault(PrunePending(s, c), c);
  }

  lemma PruneFault(s: State, c: nat)
    requires c < |s.comps|
    ensures PrunePending(s, c).fault == s.fault && PrunePending(s, c).pairs.Keys <= s.pairs.Keys
  {
    hide FilterOut, PruneDrops, PruneSilences, PrunedPair;
  }

  lemma ConcludeFault(s: State, c: nat)
    requires c < |s.comps|
    ensures ConcludeReady(s, c).fault == s.fault
  {
  }

  lemma ElsewhereStays(s: State, t: State, c: nat, sock: nat)
    requires Thins(s, t) && HasComp(s, c)
    requires forall id :: id in t.pairs <==> id in s.pairs && !OnIt(s, c, sock, id)
    ensures HasValidNominated(t, c) <==> NominatedElsewhere(s, c, sock)
    ensures t.comps[c].selPriority == s.comps[c].selPriority
  {
    hide OnIt;
    assert t.comps[c].(state := s.comps[c].state) == s.comps[c];
    if NominatedElsewhere(s, c, sock) {
      var id :| id in s.pairs && s.pairs[id].comp == c && s.pairs[id].valid && s.pairs[id].nominated && !OnIt(s, c, sock, id);
      assert id in t.pairs && t.pairs[id].comp == c && t.pairs[id].valid && t.pairs[id].nominated;
    }
  }

  // ----- clearing the selection

  predicate Nominated(s: State, c: nat) {
    exists id :: id in s.pairs && s.pairs[id].comp == c && s.pairs[id].nominated
  }

  /** `Keeps` without NominatedIsSelected, which clearing a selection may break. */
  predicate KeepsRest(s: State, t: State) {
    && Inv(t)
    && (Thawed(s.pairs) ==> Thawed(t.pairs))
    && (GatheringIsEmpty(s.pairs, s.comps) ==> GatheringIsEmpty(t.pairs, t.comps))
    && Excused(s.fault, t.fault)
  }

  lemma ClearKeeps(s: State, c: nat)
    requires Inv(s) && c < |s.comps|
    ensures KeepsRest(s, ClearSelected(s, c)) && ClearSelected(s, c).fault == s.fault
    ensures !Nominated(s, c) ==> Keeps(s, ClearSelected(s, c))
  {
    hide WellFormed, Sorted, Priced, Thawed, ReadyIsClean, DisconnectedIsEmpty, SelectionOk, GatheringIsEmpty;
    var x := s.comps[c].(selLocal := None, selRemote := None, selPriority := 0);
    SwapComps(s, s.comps[c := x]);
    ClearedOk(s.pairs, s.comps, c, x);
  }

  // Component `c` lost pairs and perhaps its selection; the other components only moved.
  predicate Loses(s: State, t: State, c: nat, cleared: bool) {
    && SameBase(s, t) && c < |s.comps| && FewerPairs(s.pairs, t.pairs) && Subqueue(s.queue, t.queue)
    && (forall d :: 0 <= d < |s.comps| && d != c ==> t.comps[d].(state := s.comps[d].state) == s.comps[d])
    && (if cleared then Unselected(t.comps[c])
        else && t.comps[c].selLocal == s.comps[c].selLocal && t.comps[c].selRemote == s.comps[c].selRemote
             && t.comps[c].selPriority == s.comps[c].selPriority)
  }

  lemma LosesTrans(s: State, t: State, u: State, c: nat, first: bool, second: bool)
    requires Loses(s, t, c, first) && Loses(t, u, c, second)
    ensures Loses(s, u, c, first || second)
  {
  }

  lemma ThinsLoses(s: State, t: State, c: nat)
    requires Thins(s, t) && c < |s.comps|
    ensures Loses(s, t, c, false)
    ensures t.comps[c].locals == s.comps[c].locals && t.comps[c].remotes == s.comps[c].remotes
  {
    assert t.comps[c].(state := s.comps[c].state) == s.comps[c];
  }

  lemma ClearLoses(s: State, c: nat)
    requires c < |s.comps|
    ensures Loses(s, ClearSelected(s, c), c, true)
  {
    assert forall d :: 0 <= d < |s.comps| ==> s.comps[d].(state := s.comps[d].state) == s.comps[d];
  }

  lemma CandidatesLose(s: State, c: nat, x: Component)
    requires c < |s.comps| && x == s.comps[c].(remotes := x.remotes, locals := x.locals)
    ensures Loses(s, SetComp(s, c, x), c, false)
  {
    assert forall d :: 0 <= d < |s.comps| ==> s.comps[d].(state := s.comps[d].state) == s.comps[d];
  }

  lemma KeepsRestTrans(s: State, t: State, u: State)
    requires KeepsRest(s, t) && KeepsRest(t, u)
    ensures KeepsRest(s, u)
  {
    hide Inv, Thawed, GatheringIsEmpty;
  }

  // What one round of the two loops does.
  predicate Lost(s: State, t: State, c: nat, cleared: bool) {
    KeepsRest(s, t) && Loses(s, t, c, cleared) && (!cleared || !Nominated(s, c) ==> Keeps(s, t))
  }

  lemma FewerAreNominated(s: State, t: State, c: nat)
    requires FewerPairs(s.pairs, t.pairs)
    ensures Nominated(t, c) ==> Nominated(s, c)
  {
  }

  lemma LostTrans(s: State, t: State, u: State, c: nat, first: bool, second: bool)
    requires Lost(s, t, c, first) && Lost(t, u, c, second)
    ensures Lost(s, u, c, first || second)
  {
    LosesFewer(s, t, c, first);
    FewerAreNominated(s, t, c);
    hide Inv, Thawed, GatheringIsEmpty, NominatedIsSelected, Loses, Nominated, FewerPairs;
    KeepsRestTrans(s, t, u);
    LosesTrans(s, t, u, c, first, second);
  }

  lemma LosesFewer(s: State, t: State, c: nat, cleared: bool)
    requires Loses(s, t, c, cleared)
    ensures FewerPairs(s.pairs, t.pairs)
  {
  }

  lemma ClearLost(s: State, c: nat)
    requires Inv(s) && c < |s.comps|
    ensures Lost(s, ClearSelected(s, c), c, true)
  {
    hide Inv, Thawed, GatheringIsEmpty, NominatedIsSelected, Loses, ClearSelected;
    ClearKeeps(s, c);
    ClearLoses(s, c);
  }

  lemma NothingLost(s: State, c: nat)
    requires Inv(s) && c < |s.comps|
    ensures Lost(s, s, c, false)
  {
    hide Inv, Thawed, GatheringIsEmpty, NominatedIsSelected;
    StepOver(s);
    ThinsLoses(s, s, c);
    TimerKeeps(s, s);
  }

  lemma PruneSocketLost(s: State, c: nat, sock: nat)
    requires Inv(s) && HasComp(s, c)
    ensures Lost(s, PruneSocket(s, c, sock), c, false)
    ensures var t := PruneSocket(s, c, sock);
            t.comps[c].locals == s.comps[c].locals && t.comps[c].remotes == s.comps[c].remotes
  {
    hide Inv, Thawed, GatheringIsEmpty, NominatedIsSelected, Loses, Thins, PruneSocket;
    PruneSocketKeeps(s, c, sock);
    PruneSocketThins(s, c, sock);
    ThinsLoses(s, PruneSocket(s, c, sock), c);
  }

  lemma CandidatesLost(s: State, c: nat, x: Component)
    requires Inv(s) && c < |s.comps| && x == s.comps[c].(remotes := x.remotes, locals := x.locals)
    ensures Lost(s, SetComp(s, c, x), c, false)
  {
    hide Inv, Thawed, GatheringIsEmpty, NominatedIsSelected, Loses;
    CandidatesKeep(s, c, x);
    CandidatesLose(s, c, x);
  }

  // ----- the loop over the local candidates

  predicate ClearsLocal(s: State, c: nat, ls: seq<CandId>, lost: nat, based: set<nat>)
    requires c < |s.comps|
  {
    var k := s.comps[c].selLocal;
    k.Some? && k.value in ls && BasedOn(s, k.value, lost, based)
  }

  lemma DropLocalLost(s: State, c: nat, l: CandId, lost: nat, based: set<nat>)
    requires Inv(s) && HasComp(s, c)
    ensures var t := DropLocal(s, c, l, lost, based);
            && Lost(s, t, c, s.comps[c].selLocal == Some(l) && BasedOn(s, l, lost, based))
            && t.comps[c].remotes == s.comps[c].remotes
            && (BasedOn(s, l, lost, based) ==> t.comps[c].locals == FilterOut(s.comps[c].locals, {l}))
            && (!BasedOn(s, l, lost, based) ==> t == s)
  {
    hide Inv, Lost, PruneSocket, FilterOut;
    NothingLost(s, c);
    if BasedOn(s, l, lost, based) {
      var clears := s.comps[c].selLocal == Some(l);
      var s1 := if clears then ClearSelected(s, c) else s;
      ClearLost(s, c);
      LostInv(s, s1, c, clears);
      var s2 := if s.cands[l].sock.value != lost then PruneSocket(s1, c, s.cands[l].sock.value) else s1;
      NothingLost(s1, c);
      PruneSocketLost(s1, c, s.cands[l].sock.value);
      LostTrans(s, s1, s2, c, clears, false);
      LostInv(s1, s2, c, false);
      var x := s2.comps[c].(locals := FilterOut(s2.comps[c].locals, {l}));
      CandidatesLost(s2, c, x);
      LostTrans(s, s2, SetComp(s2, c, x), c, clears, false);
    }
  }

  lemma LostInv(s: State, t: State, c: nat, cleared: bool)
    requires Lost(s, t, c, cleared)
    ensures Inv(t) && SameBase(s, t) && FewerPairs(s.pairs, t.pairs) && Subqueue(s.queue, t.queue)
    ensures cleared ==> Unselected(t.comps[c])
    ensures !cleared ==> t.comps[c].selLocal == s.comps[c].selLocal && t.comps[c].selRemote == s.comps[c].selRemote
  {
    hide Inv;
  }

  lemma {:induction false} DropLocalsLost(s: State, c: nat, ls: seq<CandId>, lost: nat, based: set<nat>)
    requires Inv(s) && HasComp(s, c)
    ensures var t := DropLocals(s, c, ls, lost, based);
            Lost(s, t, c, ClearsLocal(s, c, ls, lost, based)) && t.comps[c].remotes == s.comps[c].remotes
    decreases |ls|
  {
    hide Inv, Lost, DropLocal, FilterOut, FewerPairs;
    NothingLost(s, c);
    if ls != [] {
      var s1 := DropLocal(s, c, ls[0], lost, based);
      var first := s.comps[c].selLocal == Some(ls[0]) && BasedOn(s, ls[0], lost, based);
      DropLocalLost(s, c, ls[0], lost, based);
      LostInv(s, s1, c, first);
      DropLocalsLost(s1, c, ls[1..], lost, based);
      LostTrans(s, s1, DropLocals(s1, c, ls[1..], lost, based), c, first, ClearsLocal(s1, c, ls[1..], lost, based));
    }
  }

  // ----- the loop over the remote candidates

  predicate ClearsRemote(s: State, c: nat, rs: seq<CandId>, lost: nat)
    requires c < |s.comps|
  {
    var k := s.comps[c].selRemote;
    k.Some? && k.value in rs && OnLost(s, k.value, lost)
  }

  lemma DropRemoteLost(s: State, c: nat, r: CandId, lost: nat)
    requires Inv(s) && HasComp(s, c)
    ensures var t := DropRemote(s, c, r, lost);
            Lost(s, t, c, s.comps[c].selRemote == Some(r) && OnLost(s, r, lost))
  {
    hide Inv, Lost, PruneSocket, FilterOut;
    NothingLost(s, c);
    if OnLost(s, r, lost) {
      var clears := s.comps[c].selRemote == Some(r);
      var s1 := if clears then ClearSelected(s, c) else s;
      ClearLost(s, c);
      LostInv(s, s1, c, clears);
      var s2 := PruneSocket(s1, c, lost);
      PruneSocketLost(s1, c, lost);
      LostTrans(s, s1, s2, c, clears, false);
      LostInv(s1, s2, c, false);
      var x := s2.comps[c].(remotes := FilterOut(s2.comps[c].remotes, {r}));
      CandidatesLost(s2, c, x);
      LostTrans(s, s2, SetComp(s2, c, x), c, clears, false);
    }
  }

  lemma {:induction false} DropRemotesLost(s: State, c: nat, rs: seq<CandId>, lost: nat)
    requires Inv(s) && HasComp(s, c)
    ensures Lost(s, DropRemotes(s, c, rs, lost), c, ClearsRemote(s, c, rs, lost))
    decreases |rs|
  {
    hide Inv, Lost, DropRemote, FewerPairs;
    NothingLost(s, c);
    if rs != [] {
      var s1 := DropRemote(s, c, rs[0], lost);
      var first := s.comps[c].selRemote == Some(rs[0]) && OnLost(s, rs[0], lost);
      DropRemoteLost(s, c, rs[0], lost);
      LostInv(s, s1, c, first);
      DropRemotesLost(s1, c, rs[1..], lost);
      LostTrans(s, s1, DropRemotes(s1, c, rs[1..], lost), c, first, ClearsRemote(s1, c, rs[1..], lost));
    }
  }

  // ----- what the two loops take

  lemma DropLocalTakes(s: State, c: nat, l: CandId, lost: nat, based: set<nat>, id: PairId)
    requires Inv(s) && HasComp(s, c) && BasedOn(s, l, lost, based) && s.cands[l].sock.value != lost
    requires id in DropLocal(s, c, l, lost, based).pairs
    ensures !OnIt(DropLocal(s, c, l, lost, based), c, s.cands[l].sock.value, id)
  {
    hide Inv, PruneSocket, FilterOut, Lost;
    var s1 := if s.comps[c].selLocal == Some(l) then ClearSelected(s, c) else s;
    NothingLost(s, c);
    ClearLost(s, c);
    LostInv(s, s1, c, s.comps[c].selLocal == Some(l));
    PruneSocketTakes(s1, c, s.cands[l].sock.value);
    assert !OnIt(PruneSocket(s1, c, s.cands[l].sock.value), c, s.cands[l].sock.value, id);
  }

  // No pair of the component uses the socket of a candidate of `ls` that goes with `lost`; but `lost` itself.
  predicate ClearOf(s: State, t: State, c: nat, ls: seq<CandId>, lost: nat, based: set<nat>) {
    forall id, l :: id in t.pairs && l in ls && BasedOn(s, l, lost, based) && s.cands[l].sock.value != lost ==>
      !OnIt(t, c, s.cands[l].sock.value, id)
  }

  lemma {:induction false} DropLocalsTakes(s: State, c: nat, ls: seq<CandId>, lost: nat, based: set<nat>)
    requires Inv(s) && HasComp(s, c)
    ensures var t := DropLocals(s, c, ls, lost, based);
            && ClearOf(s, t, c, ls, lost, based)
            && (forall l :: l in t.comps[c].locals <==> l in s.comps[c].locals && !(l in ls && BasedOn(s, l, lost, based)))
    decreases |ls|
  {
    hide Inv, Lost, DropLocal, FilterOut, OnIt;
    if ls != [] {
      var s1 := DropLocal(s, c, ls[0], lost, based);
      DropLocalLost(s, c, ls[0], lost, based);
      LostInv(s, s1, c, s.comps[c].selLocal == Some(ls[0]) && BasedOn(s, ls[0], lost, based));
      FilterOutMembers(s.comps[c].locals, {ls[0]});
      DropLocalsTakes(s1, c, ls[1..], lost, based);
      DropLocalsLost(s1, c, ls[1..], lost, based);
      var t := DropLocals(s1, c, ls[1..], lost, based);
      LostInv(s1, t, c, ClearsLocal(s1, c, ls[1..], lost, based));
      forall id | id in t.pairs && BasedOn(s, ls[0], lost, based) && s.cands[ls[0]].sock.value != lost
        ensures !OnIt(t, c, s.cands[ls[0]].sock.value, id)
      {
        DropLocalTakes(s, c, ls[0], lost, based, id);
        FewerSocket(s1, t, c, s.cands[ls[0]].sock.value, id);
      }
    }
  }

  lemma FewerSocket(s: State, t: State, c: nat, sock: nat, id: PairId)
    requires FewerPairs(s.pairs, t.pairs) && t.cands == s.cands && id in t.pairs
    ensures id in s.pairs && OnIt(t, c, sock, id) == OnIt(s, c, sock, id)
  {
  }

  lemma {:induction false} DropRemotesTakes(s: State, c: nat, rs: seq<CandId>, lost: nat)
    requires Inv(s) && HasComp(s, c)
    ensures var t := DropRemotes(s, c, rs, lost);
            && t.comps[c].locals == s.comps[c].locals
            && (forall r :: r in t.comps[c].remotes <==> r in s.comps[c].remotes && !(r in rs && OnLost(s, r, lost)))
    decreases |rs|
  {
    hide Inv, Lost, DropRemote, FilterOut;
    if rs != [] {
      var s1 := DropRemote(s, c, rs[0], lost);
      DropRemoteLost(s, c, rs[0], lost);
      DropRemoteTakes(s, c, rs[0], lost);
      LostInv(s, s1, c, s.comps[c].selRemote == Some(rs[0]) && OnLost(s, rs[0], lost));
      FilterOutMembers(s.comps[c].remotes, {rs[0]});
      DropRemotesTakes(s1, c, rs[1..], lost);
    }
  }

  lemma DropRemoteTakes(s: State, c: nat, r: CandId, lost: nat)
    requires Inv(s) && HasComp(s, c)
    ensures var t := DropRemote(s, c, r, lost);
            && t.comps[c].locals == s.comps[c].locals
            && (OnLost(s, r, lost) ==> t.comps[c].remotes == FilterOut(s.comps[c].remotes, {r}))
            && (!OnLost(s, r, lost) ==> t == s)
  {
    hide Inv, Lost, PruneSocket, FilterOut;
    ClearLost(s, c);
    if OnLost(s, r, lost) {
      var s1 := if s.comps[c].selRemote == Some(r) then ClearSelected(s, c) else s;
      NothingLost(s, c);
      LostInv(s, s1, c, s.comps[c].selRemote == Some(r));
      PruneSocketLost(s1, c, lost);
    }
  }

  /** The pair uses neither the lost socket nor that of a local candidate that goes with it. */
  predicate Spared(s: State, c: nat, lost: nat, based: set<nat>, id: PairId)
    requires c < |s.comps| && id in s.pairs
  {
    && !OnIt(s, c, lost, id)
    && forall l :: l in s.comps[c].locals && BasedOn(s, l, lost, based) ==> !OnIt(s, c, s.cands[l].sock.value, id)
  }

  /** After a socket is removed no pair of the component uses it or a local candidate based on it, and
      exactly the candidates of the lost socket are gone from the component. */
  lemma RemoveSocketTakes(s: State, c: nat, lost: nat, based: set<nat>)
    requires Inv(s) && HasComp(s, c)
    ensures var t := RemoveSocket(s, c, lost, based);
            && (forall id :: id in t.pairs ==> id in s.pairs && Spared(s, c, lost, based, id))
            && (forall l :: l in t.comps[c].locals <==> l in s.comps[c].locals && !BasedOn(s, l, lost, based))
            && (forall r :: r in t.comps[c].remotes <==> r in s.comps[c].remotes && !OnLost(s, r, lost))
  {
    hide Inv, Lost, PruneSocket, DropLocals, DropRemotes, OnIt;
    var s1 := PruneSocket(s, c, lost);
    PruneSocketLost(s, c, lost);
    LostInv(s, s1, c, false);
    PruneSocketTakes(s, c, lost);
    var s2 := DropLocals(s1, c, s1.comps[c].locals, lost, based);
    DropLocalsLost(s1, c, s1.comps[c].locals, lost, based);
    LostInv(s1, s2, c, ClearsLocal(s1, c, s1.comps[c].locals, lost, based));
    DropLocalsTakes(s1, c, s1.comps[c].locals, lost, based);
    var t := DropRemotes(s2, c, s2.comps[c].remotes, lost);
    DropRemotesLost(s2, c, s2.comps[c].remotes, lost);
    LostInv(s2, t, c, ClearsRemote(s2, c, s2.comps[c].remotes, lost));
    DropRemotesTakes(s2, c, s2.comps[c].remotes, lost);
    forall id | id in t.pairs
      ensures id in s.pairs && Spared(s, c, lost, based, id)
    {
      FewerSocket(s2, t, c, lost, id);
      FewerSocket(s1, s2, c, lost, id);
      FewerSocket(s, s1, c, lost, id);
      forall l | l in s.comps[c].locals && BasedOn(s, l, lost, based)
        ensures !OnIt(s, c, s.cands[l].sock.value, id)
      {
        FewerSocket(s1, s2, c, s.cands[l].sock.value, id);
        FewerSocket(s, s1, c, s.cands[l].sock.value, id);
        assert BasedOn(s1, l, lost, based);
      }
    }
  }

  lemma StepDownQueue(s: State, c: nat)
    requires c < |s.comps|
    ensures StepDown(s, c).queue == s.queue
  {
  }

  lemma OnlyPairs(s: State, t: State, c: nat, sock: nat, id: PairId)
    requires t.pairs == s.pairs && t.cands == s.cands && id in s.pairs
    ensures OnIt(t, c, sock, id) == OnIt(s, c, sock, id)
  {
  }

  // ----- the whole removal

  /** Losing the socket takes the selection: its local candidate is based on the socket, or its remote
      candidate was learned on it. */
  predicate ClearsSelection(s: State, c: nat, lost: nat, based: set<nat>)
    requires c < |s.comps|
  {
    ClearsLocal(s, c, s.comps[c].locals, lost, based) || ClearsRemote(s, c, s.comps[c].remotes, lost)
  }

  lemma RemoveSocketLost(s: State, c: nat, lost: nat, based: set<nat>)
    requires Inv(s) && HasComp(s, c)
    ensures Lost(s, RemoveSocket(s, c, lost, based), c, ClearsSelection(s, c, lost, based))
    ensures !Nominated(PruneSocket(s, c, lost), c) ==> Keeps(s, RemoveSocket(s, c, lost, based))
  {
    hide Inv, Thawed, GatheringIsEmpty, NominatedIsSelected, Nominated, Loses, PruneSocket, DropLocals,
      DropRemotes, FewerPairs;
    var s1 := PruneSocket(s, c, lost);
    PruneSocketLost(s, c, lost);
    LostInv(s, s1, c, false);
    var s2 := DropLocals(s1, c, s1.comps[c].locals, lost, based);
    DropLocalsLost(s1, c, s1.comps[c].locals, lost, based);
    var local := ClearsLocal(s1, c, s1.comps[c].locals, lost, based);
    LostInv(s1, s2, c, local);
    LostTrans(s, s1, s2, c, false, local);
    DropRemotesLost(s2, c, s2.comps[c].remotes, lost);
    var remote := ClearsRemote(s2, c, s2.comps[c].remotes, lost);
    LostTrans(s, s2, DropRemotes(s2, c, s2.comps[c].remotes, lost), c, local, remote);
    LostTrans(s1, s2, DropRemotes(s2, c, s2.comps[c].remotes, lost), c, local, remote);
  }

  lemma StillSelected(s: State, t: State, c: nat)
    requires NominatedIsSelected(s.pairs, s.comps) && Loses(s, t, c, true)
    ensures NominatedIsSelected(t.pairs, t.comps) <==> !Nominated(t, c)
  {
    forall id | id in t.pairs && t.pairs[id].comp < |t.comps| && t.pairs[id].nominated && t.pairs[id].comp != c
      ensures t.comps[t.pairs[id].comp].selPriority > 0
    {
      var d := t.pairs[id].comp;
      assert t.comps[d].(state := s.comps[d].state) == s.comps[d];
    }
  }

  /** Removing a socket keeps the invariants. A component with a nominated pair keeps its selection
      exactly when the lost socket does not carry the selection, or leaves no nominated pair; and from such
      a state no assertion fails unless the socket carries the selection. */
  lemma RemoveSocketKeeps(s: State, c: nat, lost: nat, based: set<nat>)
    requires Inv(s) && HasComp(s, c)
    ensures var t := RemoveSocket(s, c, lost, based);
            && KeepsRest(s, t)
            && (!ClearsSelection(s, c, lost, based) ==> Keeps(s, t))
            && (NominatedIsSelected(s.pairs, s.comps) ==>
                  (NominatedIsSelected(t.pairs, t.comps) <==>
                   !(ClearsSelection(s, c, lost, based) && Nominated(t, c))))
  {
    hide Inv, Thawed, GatheringIsEmpty, NominatedIsSelected, RemoveSocket, PruneSocket, Loses, ClearsSelection,
      Nominated;
    RemoveSocketLost(s, c, lost, based);
    if NominatedIsSelected(s.pairs, s.comps) && ClearsSelection(s, c, lost, based) {
      StillSelected(s, RemoveSocket(s, c, lost, based), c);
    }
  }

  // ----- a 403 response

  lemma {:induction false} FailAlongKeeps(s: State, from: set<CandId>, ids: seq<PairId>)
    requires Inv(s)
    ensures Keeps(s, FailAlong(s, from, ids))
    decreases |ids|
  {
    hide Inv, Thawed, GatheringIsEmpty, NominatedIsSelected, FailPair;
    TimerKeeps(s, s);
    if ids != [] {
      if ids[0] in s.pairs && s.pairs[ids[0]].remote in from {
        FailKeeps(s, ids[0]);
        FailAlongKeeps(FailPair(s, ids[0]), from, ids[1..]);
      } else {
        FailAlongKeeps(s, from, ids[1..]);
      }
    }
  }

  lemma ForbiddenKeeps(s: State, c: nat, from: set<CandId>)
    requires Inv(s) && HasComp(s, c) && s.comps[c].selRemote.Some?
    ensures Keeps(s, Forbidden(s, c, from))
  {
    hide Inv, Thawed, GatheringIsEmpty, NominatedIsSelected, FailAlong;
    FailAlongKeeps(s, from, StreamList(s, c));
    SignalKeeps(FailAlong(s, from, StreamList(s, c)), c, Failed);
  }
}
