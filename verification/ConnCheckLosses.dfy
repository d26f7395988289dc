/** The two candidate loops of nice_component_remove_socket as a walk over the sockets that go: which pairs
survive it, when it takes the selection from under a nominated pair, and when it fails an assertion. */
module ConnCheckLosses {
  import opened Basics
  import opened ConnCheckState
  import opened ConnCheckSpec
  import opened ConnCheckInvariants
  import opened ConnCheckSockets
  import opened ConnCheckKin
  import opened ConnCheckWalk
  import opened ConnCheckSettled

  // ----- one socket

  // The list update that ends the pruning of the socket frees the pair `id`.
  predicate PrunedAlong(s: State, c: nat, sock: nat, id: PairId)
    requires c < |s.comps| && id in s.pairs
  {
    && SomeOnIt(s, c, sock) && NominatedElsewhere(s, c, sock) && s.comps[c].selPriority > 0
    && PruneDrops(s, c, id)
  }

  /** Pruning the socket leaves the pair: it does not use the socket, and no list update frees it. */
  predicate StaysAt(s: State, c: nat, sock: nat, id: PairId)
    requires c < |s.comps|
  {
    id in s.pairs && !OnIt(s, c, sock, id) && !PrunedAlong(s, c, sock, id)
  }

  /** Pruning the socket fails the assertion on the selected priority. */
  predicate ZeroAt(s: State, c: nat, sock: nat)
    requires c < |s.comps|
  {
    s.comps[c].selPriority == 0 && SomeOnIt(s, c, sock) && NominatedElsewhere(s, c, sock)
  }

  // A pair on the socket goes, and fails the pair it discovered.
  lemma TakenUnmoved(s: State, id: PairId)
    requires Kin(s) && Below(s) && id in s.pairs
    ensures Unmoved(s, RemovePairs(FailPair(s, id), {id}))
  {
    var t := RemovePairs(FailPair(s, id), {id});
    assert Follows(s, t) by {
      hide Follows, Below, Kin, FailPair, RemovePairs;
      FailFollows(s, id);
      RemoveFollows(FailPair(s, id), {id});
      FollowsTrans(s, FailPair(s, id), t);
    }
    hide Follows, FilterOut;
    assert KinPair(s, id);
  }

  lemma ScanOneUnmoved(x: SocketScan, c: nat, sock: nat, id: PairId)
    requires Kin(x.s) && Below(x.s) && c < |x.s.comps| && id in x.s.pairs
    ensures Unmoved(x.s, ScanOne(x, c, sock, id).s)
  {
    hide Unmoved, Follows, Kin, Below, FailPair, RemovePairs, OnSocket;
    var p := x.s.pairs[id];
    var s1 := if x.selFailed && p.stun != [] then SetPair(x.s, id, p.(retransmit := true)) else x.s;
    UnmovedSame(x.s);
    RetransmitUnmoved(x.s, id);
    UnmovedFollows(x.s, s1);
    FollowsKin(x.s, s1);
    TakenUnmoved(s1, id);
    UnmovedTrans(x.s, s1, RemovePairs(FailPair(s1, id), {id}));
  }

  lemma RetransmitUnmoved(s: State, id: PairId)
    requires id in s.pairs
    ensures Unmoved(s, SetPair(s, id, s.pairs[id].(retransmit := true)))
  {
    hide Follows;
    SetPairFollows(s, id, s.pairs[id].(retransmit := true));
    StatesUnmoved(s, SetPair(s, id, s.pairs[id].(retransmit := true)));
  }

  lemma {:induction false} ScanAlongUnmoved(x: SocketScan, c: nat, sock: nat, ids: seq<PairId>)
    requires Kin(x.s) && Below(x.s) && c < |x.s.comps|
    ensures Unmoved(x.s, ScanAlong(x, c, sock, ids).s)
    decreases |ids|
  {
    hide Unmoved, Follows, Kin, Below, ScanOne;
    UnmovedSame(x.s);
    if ids != [] {
      var y := if ids[0] in x.s.pairs then ScanOne(x, c, sock, ids[0]) else x;
      if ids[0] in x.s.pairs {
        ScanOneUnmoved(x, c, sock, ids[0]);
      }
      UnmovedFollows(x.s, y.s);
      FollowsKin(x.s, y.s);
      ScanAlongUnmoved(y, c, sock, ids[1..]);
      UnmovedTrans(x.s, y.s, ScanAlong(y, c, sock, ids[1..]).s);
    }
  }

  lemma ScannedUnmoved(s: State, c: nat, sock: nat)
    requires Kin(s) && Below(s) && HasComp(s, c)
    ensures Unmoved(s, Scanned(s, c, sock).s)
  {
    hide Unmoved, Follows, Kin, Below, ScanAlong, StepDown;
    var k := s.comps[c].selLocal;
    var lost := k.Some? && k.value in s.cands && s.cands[k.value].sock == Some(sock);
    var s1 := if lost then StepDown(s, c) else s;
    StepDownFault(s, c);
    StepDownQueue(s, c);
    UnmovedSame(s);
    UnmovedPairs(s, s, s1);
    UnmovedFollows(s, s1);
    FollowsKin(s, s1);
    ScanAlongUnmoved(SocketScan(s1, lost, false, 0, 0), c, sock, StreamList(s1, c));
    UnmovedTrans(s, s1, Scanned(s, c, sock).s);
  }

  // The state in which the list update finds the component.
  function Swept(s: State, c: nat, sock: nat): (t: State)
    requires HasComp(s, c)
    ensures SameBase(s, t)
  {
    var x := Scanned(s, c, sock);
    if x.kept == 0 then Signal(x.s, c, Failed) else if x.nominated == 0 then StepDown(x.s, c) else x.s
  }

  lemma PruneSocketIs(s: State, c: nat, sock: nat)
    requires HasComp(s, c)
    ensures PruneSocket(s, c, sock) ==
            if Scanned(s, c, sock).pairFailed then UpdateForReady(Swept(s, c, sock), c) else Scanned(s, c, sock).s
  {
    hide ScanAlong, StepDown, UpdateForReady, Signal;
  }

  lemma SweptFacts(s: State, c: nat, sock: nat)
    requires HasComp(s, c)
    ensures var x, t := Scanned(s, c, sock), Swept(s, c, sock);
            t.pairs == x.s.pairs && t.queue == x.s.queue && t.fault == x.s.fault && Thins(x.s, t)
  {
    hide Scanned;
    var x := Scanned(s, c, sock);
    StepOver(x.s);
    SignalFails(x.s, c);
    StepDownThins(x.s, c);
    StepDownFault(x.s, c);
    StepDownQueue(x.s, c);
    hide Thins, Signal, StepDown;
  }

  lemma {:induction false} ScanAlongQueue(x: SocketScan, c: nat, sock: nat, ids: seq<PairId>, id: PairId)
    requires c < |x.s.comps|
    ensures var y := ScanAlong(x, c, sock, ids);
            id in y.s.pairs ==> id in x.s.pairs && (id in y.s.queue <==> id in x.s.queue)
    decreases |ids|
  {
    hide ScanOne;
    if ids != [] {
      if ids[0] in x.s.pairs {
        ScanOneQueue(x, c, sock, ids[0], id);
        ScanAlongQueue(ScanOne(x, c, sock, ids[0]), c, sock, ids[1..], id);
      } else {
        ScanAlongQueue(x, c, sock, ids[1..], id);
      }
    }
  }

  lemma ScanOneQueue(x: SocketScan, c: nat, sock: nat, k: PairId, id: PairId)
    requires c < |x.s.comps| && k in x.s.pairs
    ensures var y := ScanOne(x, c, sock, k);
            id in y.s.pairs ==> id in x.s.pairs && (id in y.s.queue <==> id in x.s.queue)
  {
    hide OnSocket, FailPair, RemovePairs, Thins;
    var p := x.s.pairs[k];
    var s1 := if x.selFailed && p.stun != [] then SetPair(x.s, k, p.(retransmit := true)) else x.s;
    FailComps(s1, k);
    FailThins(s1, k);
    RemovedQueue(FailPair(s1, k), k, id);
  }

  lemma RemovedQueue(s: State, k: PairId, id: PairId)
    ensures var t := RemovePairs(s, {k});
            id in t.pairs ==> id in s.pairs && (id in t.queue <==> id in s.queue)
  {
    hide FilterOut;
    FilterOutMembers(s.queue, {k});
  }

  lemma ScannedQueue(s: State, c: nat, sock: nat, id: PairId)
    requires HasComp(s, c) && id in Scanned(s, c, sock).s.pairs
    ensures id in s.pairs && (id in Scanned(s, c, sock).s.queue <==> id in s.queue)
  {
    hide ScanAlong, StepDown;
    var k := s.comps[c].selLocal;
    var lost := k.Some? && k.value in s.cands && s.cands[k.value].sock == Some(sock);
    var s1 := if lost then StepDown(s, c) else s;
    StepDownFault(s, c);
    StepDownQueue(s, c);
    ScanAlongQueue(SocketScan(s1, lost, false, 0, 0), c, sock, StreamList(s1, c), id);
  }

  // The list update sees a pair that stayed as it was.
  lemma SweptDrops(s: State, c: nat, sock: nat, id: PairId)
    requires Inv(s) && Kin(s) && HasComp(s, c) && id in s.pairs && !OnIt(s, c, sock, id)
    ensures var t := Swept(s, c, sock);
            id in t.pairs && PruneDrops(t, c, id) == PruneDrops(s, c, id)
  {
    hide Inv, OnIt, Scanned, Swept, Follows;
    BelowFact(s);
    ScannedTakes(s, c, sock);
    ScannedUnmoved(s, c, sock);
    SweptFacts(s, c, sock);
    ScannedQueue(s, c, sock, id);
    var x, t := Scanned(s, c, sock), Swept(s, c, sock);
    assert UnmovedPair(s, x.s, id);
    assert Thinned(s.pairs[id], t.pairs[id]);
    assert t.comps[c].(state := x.s.comps[c].state) == x.s.comps[c];
    assert x.s.comps[c].(state := s.comps[c].state) == s.comps[c];
    assert KinPair(s, id);
  }

  /** Exactly the pairs that stay on a socket stay in the list; the assertion on the selected priority fails
      exactly as `ZeroAt` says, and states stay. */
  lemma PruneSocketExact(s: State, c: nat, sock: nat)
    requires Inv(s) && Kin(s) && HasComp(s, c)
    ensures var t := PruneSocket(s, c, sock);
            && t.pairs.Keys <= s.pairs.Keys
            && (forall id :: id in s.pairs ==> (id in t.pairs <==> StaysAt(s, c, sock, id)))
            && t.fault == Zeroed(s.fault, ZeroAt(s, c, sock)) && Unmoved(s, t)
  {
    hide Inv, Kin, Below, Follows, Unmoved, OnIt, Scanned, Swept, UpdateForReady, PruneSocket, PruneDrops, Thins;
    BelowFact(s);
    ScannedTakes(s, c, sock);
    ScannedUnmoved(s, c, sock);
    SweptFacts(s, c, sock);
    PruneSocketIs(s, c, sock);
    var x, u := Scanned(s, c, sock), Swept(s, c, sock);
    if x.pairFailed {
      UnmovedPairs(s, x.s, u);
      UpdateForReadyUnmoved(u, c);
      UnmovedTrans(s, u, UpdateForReady(u, c));
      ThinsTrans(s, x.s, u);
      ElsewhereStays(s, u, c, sock);
      UpdateFault(u, c);
      UpdateForReadyThins(u, c);
      ThinKeys(u, UpdateForReady(u, c));
    }
    forall id | id in s.pairs
      ensures id in PruneSocket(s, c, sock).pairs <==> StaysAt(s, c, sock, id)
    {
      if x.pairFailed && !OnIt(s, c, sock, id) {
        SweptDrops(s, c, sock, id);
        UpdateForReadyKept(u, c, id);
      }
    }
  }

  lemma ThinKeys(s: State, t: State)
    requires Thins(s, t)
    ensures t.pairs.Keys <= s.pairs.Keys
  {
  }

  // ----- the loop over the local candidates

  // The state in which the socket of local candidate `l` is pruned.
  function Deselected(s: State, c: nat, l: CandId): (t: State)
    requires c < |s.comps|
    ensures SameBase(s, t) && t.pairs == s.pairs && t.queue == s.queue && t.fault == s.fault
  {
    if s.comps[c].selLocal == Some(l) then ClearSelected(s, c) else s
  }

  // Candidate `l` goes, and its own socket, based on the lost one, is pruned.
  predicate PrunesLocal(s: State, l: CandId, lost: nat, based: set<nat>) {
    BasedOn(s, l, lost, based) && s.cands[l].sock.value != lost
  }

  /** The pair outlives the loop over the local candidates `ls`. */
  predicate StaysAlong(s: State, c: nat, ls: seq<CandId>, lost: nat, based: set<nat>, id: PairId)
    requires HasComp(s, c)
    decreases |ls|
  {
    id in s.pairs &&
    (ls != [] ==>
       && (PrunesLocal(s, ls[0], lost, based) ==> StaysAt(Deselected(s, c, ls[0]), c, s.cands[ls[0]].sock.value, id))
       && StaysAlong(DropLocal(s, c, ls[0], lost, based), c, ls[1..], lost, based, id))
  }

  /** The loop over `ls` fails the assertion on the selected priority. */
  predicate ZeroAlong(s: State, c: nat, ls: seq<CandId>, lost: nat, based: set<nat>)
    requires HasComp(s, c)
    decreases |ls|
  {
    ls != [] &&
    (|| (PrunesLocal(s, ls[0], lost, based) && ZeroAt(Deselected(s, c, ls[0]), c, s.cands[ls[0]].sock.value))
     || ZeroAlong(DropLocal(s, c, ls[0], lost, based), c, ls[1..], lost, based))
  }

  lemma DropLocalIs(s: State, c: nat, l: CandId, lost: nat, based: set<nat>)
    requires HasComp(s, c)
    ensures var t := DropLocal(s, c, l, lost, based);
            var u := if PrunesLocal(s, l, lost, based) then PruneSocket(Deselected(s, c, l), c, s.cands[l].sock.value) else s;
            t.pairs == u.pairs && t.queue == u.queue && t.fault == u.fault && t.nextPair == u.nextPair
  {
    hide PruneSocket, FilterOut;
  }

  lemma DropLocalExact(s: State, c: nat, l: CandId, lost: nat, based: set<nat>)
    requires Inv(s) && Kin(s) && HasComp(s, c)
    ensures var t := DropLocal(s, c, l, lost, based);
            && t.pairs.Keys <= s.pairs.Keys
            && (forall id :: id in s.pairs ==>
                  (id in t.pairs <==>
                   (PrunesLocal(s, l, lost, based) ==> StaysAt(Deselected(s, c, l), c, s.cands[l].sock.value, id))))
            && t.fault == Zeroed(s.fault, PrunesLocal(s, l, lost, based) && ZeroAt(Deselected(s, c, l), c, s.cands[l].sock.value))
            && Unmoved(s, t) && Inv(t) && Kin(t)
  {
    hide Inv, Kin, Below, Follows, Unmoved, PruneSocket, DropLocal, StaysAt, ZeroAt, Lost, ClearSelected, PrunesLocal, BasedOn;
    DropLocalLost(s, c, l, lost, based);
    LostInv(s, DropLocal(s, c, l, lost, based), c, s.comps[c].selLocal == Some(l) && BasedOn(s, l, lost, based));
    DropLocalIs(s, c, l, lost, based);
    UnmovedSame(s);
    var s1 := Deselected(s, c, l);
    DeselectedKeeps(s, c, l);
    if PrunesLocal(s, l, lost, based) {
      var u := PruneSocket(s1, c, PrunedSocket(s, l, lost, based));
      PruneSocketExact(s1, c, PrunedSocket(s, l, lost, based));
      UnmovedStart(s1, s, u);
      UnmovedPairs(s, u, DropLocal(s, c, l, lost, based));
    } else {
      UnmovedPairs(s, s, DropLocal(s, c, l, lost, based));
    }
    BelowFact(s);
    UnmovedFollows(s, DropLocal(s, c, l, lost, based));
    FollowsKin(s, DropLocal(s, c, l, lost, based));
  }

  function PrunedSocket(s: State, l: CandId, lost: nat, based: set<nat>): nat
    requires PrunesLocal(s, l, lost, based)
  {
    s.cands[l].sock.value
  }

  lemma DeselectedKeeps(s: State, c: nat, l: CandId)
    requires Inv(s) && Kin(s) && c < |s.comps|
    ensures Inv(Deselected(s, c, l)) && Kin(Deselected(s, c, l))
  {
    hide Inv, Below, Follows, Lost;
    ClearLost(s, c);
    NothingLost(s, c);
    LostInv(s, Deselected(s, c, l), c, s.comps[c].selLocal == Some(l));
    BelowFact(s);
    FollowsSame(s);
    ConnCheckKin.OnlyPairs(s, s, Deselected(s, c, l));
    FollowsKin(s, Deselected(s, c, l));
  }

  lemma {:induction false} DropLocalsExact(s: State, c: nat, ls: seq<CandId>, lost: nat, based: set<nat>)
    requires Inv(s) && Kin(s) && HasComp(s, c)
    ensures var t := DropLocals(s, c, ls, lost, based);
            && t.pairs.Keys <= s.pairs.Keys
            && (forall id :: id in s.pairs ==> (id in t.pairs <==> StaysAlong(s, c, ls, lost, based, id)))
            && t.fault == Zeroed(s.fault, ZeroAlong(s, c, ls, lost, based))
            && Unmoved(s, t) && Inv(t) && Kin(t)
    decreases |ls|
  {
    hide Inv, Kin, Below, Unmoved, DropLocal, StaysAt, ZeroAt, PrunesLocal, Deselected;
    UnmovedSame(s);
    if ls != [] {
      var s1 := DropLocal(s, c, ls[0], lost, based);
      DropLocalExact(s, c, ls[0], lost, based);
      DropLocalsExact(s1, c, ls[1..], lost, based);
      BelowFact(s);
      UnmovedTrans(s, s1, DropLocals(s1, c, ls[1..], lost, based));
    }
  }

  // ----- the loop over the remote candidates takes no pair

  predicate NoneOnIt(s: State, c: nat, sock: nat) {
    forall id :: id in s.pairs ==> !OnIt(s, c, sock, id)
  }

  lemma DropRemoteIs(s: State, c: nat, r: CandId, lost: nat)
    requires HasComp(s, c)
    ensures var t := DropRemote(s, c, r, lost);
            var s1 := if s.comps[c].selRemote == Some(r) then ClearSelected(s, c) else s;
            var u := if OnLost(s, r, lost) then PruneSocket(s1, c, lost) else s;
            t.pairs == u.pairs && t.queue == u.queue && t.fault == u.fault && t.nextPair == u.nextPair && t.cands == s.cands
  {
    hide PruneSocket, FilterOut;
  }

  lemma ClearedKin(s: State, c: nat)
    requires Inv(s) && Kin(s) && c < |s.comps|
    ensures Inv(ClearSelected(s, c)) && Kin(ClearSelected(s, c))
  {
    hide Inv, Below, Follows, Lost;
    ClearLost(s, c);
    LostInv(s, ClearSelected(s, c), c, true);
    BelowFact(s);
    FollowsSame(s);
    ConnCheckKin.OnlyPairs(s, s, ClearSelected(s, c));
    FollowsKin(s, ClearSelected(s, c));
  }

  lemma DropRemoteExact(s: State, c: nat, r: CandId, lost: nat)
    requires Inv(s) && Kin(s) && HasComp(s, c) && NoneOnIt(s, c, lost)
    ensures var t := DropRemote(s, c, r, lost);
            && t.pairs.Keys == s.pairs.Keys && t.fault == s.fault && Unmoved(s, t) && Inv(t) && Kin(t) && NoneOnIt(t, c, lost)
  {
    hide Inv, Kin, Below, Unmoved, Follows, PruneSocket, DropRemote, Lost, OnIt, ClearSelected;
    var t := DropRemote(s, c, r, lost);
    DropRemoteLost(s, c, r, lost);
    LostInv(s, t, c, s.comps[c].selRemote == Some(r) && OnLost(s, r, lost));
    DropRemoteIs(s, c, r, lost);
    UnmovedSame(s);
    var s1 := if s.comps[c].selRemote == Some(r) then ClearSelected(s, c) else s;
    ClearedKin(s, c);
    ClearedFacts(s, c);
    if OnLost(s, r, lost) {
      forall id | id in s1.pairs
        ensures !OnIt(s1, c, lost, id)
      {
        ConnCheckSockets.OnlyPairs(s, s1, c, lost, id);
      }
      PruneSocketExact(s1, c, lost);
      UnmovedStart(s1, s, PruneSocket(s1, c, lost));
      UnmovedPairs(s, PruneSocket(s1, c, lost), t);
    } else {
      UnmovedPairs(s, s, t);
    }
    BelowFact(s);
    UnmovedFollows(s, t);
    FollowsKin(s, t);
    forall id | id in t.pairs
      ensures !OnIt(t, c, lost, id)
    {
      FewerSocket(s, t, c, lost, id);
    }
  }

  lemma ClearedFacts(s: State, c: nat)
    requires c < |s.comps|
    ensures var t := ClearSelected(s, c);
            t.pairs == s.pairs && t.queue == s.queue && t.fault == s.fault && t.nextPair == s.nextPair && t.cands == s.cands
  {
  }

  lemma {:induction false} DropRemotesExact(s: State, c: nat, rs: seq<CandId>, lost: nat)
    requires Inv(s) && Kin(s) && HasComp(s, c) && NoneOnIt(s, c, lost)
    ensures var t := DropRemotes(s, c, rs, lost); t.pairs.Keys == s.pairs.Keys && t.fault == s.fault && Unmoved(s, t)
    decreases |rs|
  {
    hide Inv, Kin, Below, Unmoved, DropRemote, NoneOnIt;
    UnmovedSame(s);
    if rs != [] {
      var s1 := DropRemote(s, c, rs[0], lost);
      DropRemoteExact(s, c, rs[0], lost);
      DropRemotesExact(s1, c, rs[1..], lost);
      BelowFact(s);
      UnmovedTrans(s, s1, DropRemotes(s1, c, rs[1..], lost));
    }
  }

  // ----- the whole removal

  /** The pair outlives the loss of the socket: no pruning on the way takes it. */
  predicate Stays(s: State, c: nat, lost: nat, based: set<nat>, id: PairId)
    requires HasComp(s, c)
  {
    var s1 := PruneSocket(s, c, lost);
    StaysAt(s, c, lost, id) && StaysAlong(s1, c, s1.comps[c].locals, lost, based, id)
  }

  /** The loss fails the assertion on the selected priority: at the socket itself, or at the socket of a
      local candidate that goes with it. */
  predicate ZeroLoss(s: State, c: nat, lost: nat, based: set<nat>)
    requires HasComp(s, c)
  {
    var s1 := PruneSocket(s, c, lost);
    ZeroAt(s, c, lost) || ZeroAlong(s1, c, s1.comps[c].locals, lost, based)
  }

  /** Exactly the pairs that outlive the loss stay, and the assertion on the selected priority fails exactly
      as `ZeroLoss` says. */
  lemma RemoveSocketExact(s: State, c: nat, lost: nat, based: set<nat>)
    requires Inv(s) && Kin(s) && HasComp(s, c)
    ensures var t := RemoveSocket(s, c, lost, based);
            && t.pairs.Keys <= s.pairs.Keys
            && (forall id :: id in s.pairs ==> (id in t.pairs <==> Stays(s, c, lost, based, id)))
            && t.fault == Zeroed(s.fault, ZeroLoss(s, c, lost, based))
            && Unmoved(s, t)
  {
    hide Inv, Kin, Below, Follows, Unmoved, PruneSocket, DropLocals, DropRemotes, StaysAt, StaysAlong, ZeroAt, ZeroAlong, Lost,
      OnIt, FewerPairs;
    var s1 := PruneSocket(s, c, lost);
    PruneSocketExact(s, c, lost);
    PruneSocketLost(s, c, lost);
    LostInv(s, s1, c, false);
    PruneSocketTakes(s, c, lost);
    BelowFact(s);
    UnmovedFollows(s, s1);
    FollowsKin(s, s1);
    var ls := s1.comps[c].locals;
    var s2 := DropLocals(s1, c, ls, lost, based);
    DropLocalsExact(s1, c, ls, lost, based);
    DropLocalsLost(s1, c, ls, lost, based);
    LostInv(s1, s2, c, ClearsLocal(s1, c, ls, lost, based));
    forall id | id in s2.pairs
      ensures !OnIt(s2, c, lost, id)
    {
      FewerSocket(s1, s2, c, lost, id);
    }
    var rs := s2.comps[c].remotes;
    DropRemotesExact(s2, c, rs, lost);
    UnmovedTrans(s, s1, s2);
    UnmovedTrans(s, s2, DropRemotes(s2, c, rs, lost));
    forall id | id in s.pairs && id !in s1.pairs
      ensures !Stays(s, c, lost, based, id)
    {
    }
  }

  // ----- pairs that no list update takes

  // Not queued, and neither FROZEN nor WAITING.
  predicate Firm(s: State, id: PairId) {
    id in s.pairs && id !in s.queue && !Pending(s.pairs[id])
  }

  lemma FirmStays(s: State, t: State, id: PairId)
    requires Unmoved(s, t) && Subqueue(s.queue, t.queue) && Firm(s, id) && id in t.pairs
    ensures Firm(t, id)
  {
    assert UnmovedPair(s, t, id);
  }

  lemma {:induction false} FirmAlong(s: State, c: nat, ls: seq<CandId>, lost: nat, based: set<nat>, id: PairId)
    requires Inv(s) && Kin(s) && HasComp(s, c) && Firm(s, id)
    ensures StaysAlong(s, c, ls, lost, based, id) <==>
            forall l :: l in ls && PrunesLocal(s, l, lost, based) ==> !OnIt(s, c, s.cands[l].sock.value, id)
    decreases |ls|
  {
    hide Inv, Kin, Unmoved, DropLocal, OnIt, Lost, SomeOnIt, NominatedElsewhere;
    if ls != [] {
      var s1 := DropLocal(s, c, ls[0], lost, based);
      DropLocalExact(s, c, ls[0], lost, based);
      DropLocalLost(s, c, ls[0], lost, based);
      LostInv(s, s1, c, s.comps[c].selLocal == Some(ls[0]) && BasedOn(s, ls[0], lost, based));
      if PrunesLocal(s, ls[0], lost, based) {
        ConnCheckSockets.OnlyPairs(s, Deselected(s, c, ls[0]), c, s.cands[ls[0]].sock.value, id);
      }
      if id in s1.pairs {
        FirmStays(s, s1, id);
        FirmAlong(s1, c, ls[1..], lost, based, id);
        forall l | l in ls[1..] && PrunesLocal(s, l, lost, based)
          ensures OnIt(s1, c, s.cands[l].sock.value, id) == OnIt(s, c, s.cands[l].sock.value, id)
        {
          FewerSocket(s, s1, c, s.cands[l].sock.value, id);
        }
      }
    }
  }

  /** A pair that no list update takes stays exactly if it uses none of the sockets that go. */
  lemma RemoveSocketSpares(s: State, c: nat, lost: nat, based: set<nat>, id: PairId)
    requires Inv(s) && Kin(s) && HasComp(s, c) && Firm(s, id)
    ensures id in RemoveSocket(s, c, lost, based).pairs <==> Spared(s, c, lost, based, id)
  {
    hide Inv, Kin, Below, Follows, Unmoved, OnIt, Lost, PruneSocket, RemoveSocket, StaysAlong, SomeOnIt, NominatedElsewhere;
    RemoveSocketExact(s, c, lost, based);
    var s1 := PruneSocket(s, c, lost);
    PruneSocketExact(s, c, lost);
    PruneSocketLost(s, c, lost);
    LostInv(s, s1, c, false);
    BelowFact(s);
    UnmovedFollows(s, s1);
    FollowsKin(s, s1);
    if id in s1.pairs {
      FirmStays(s, s1, id);
      FirmAlong(s1, c, s1.comps[c].locals, lost, based, id);
      forall l | l in s1.comps[c].locals && BasedOn(s, l, lost, based)
        ensures OnIt(s1, c, s.cands[l].sock.value, id) == OnIt(s, c, s.cands[l].sock.value, id)
      {
        FewerSocket(s, s1, c, s.cands[l].sock.value, id);
      }
    }
  }

  // ----- the selection

  /** The socket takes the selection while a nominated pair of the component outlives it. */
  predicate Unselects(s: State, c: nat, lost: nat, based: set<nat>)
    requires HasComp(s, c)
  {
    && ClearsSelection(s, c, lost, based)
    && exists id :: id in s.pairs && s.pairs[id].comp == c && s.pairs[id].nominated && Stays(s, c, lost, based, id)
  }

  /** A component with a nominated pair keeps its selection through the loss exactly unless it is unselected. */
  lemma SelectionSurvives(s: State, c: nat, lost: nat, based: set<nat>)
    requires Inv(s) && Kin(s) && HasComp(s, c) && NominatedIsSelected(s.pairs, s.comps)
    ensures var t := RemoveSocket(s, c, lost, based);
            NominatedIsSelected(t.pairs, t.comps) <==> !Unselects(s, c, lost, based)
  {
    hide Inv, Kin, Thawed, GatheringIsEmpty, NominatedIsSelected, RemoveSocket, ClearsSelection, Stays, Lost, Unmoved,
      ZeroLoss, KeepsRest;
    var t := RemoveSocket(s, c, lost, based);
    RemoveSocketKeeps(s, c, lost, based);
    RemoveSocketExact(s, c, lost, based);
    RemoveSocketLost(s, c, lost, based);
    LostInv(s, t, c, ClearsSelection(s, c, lost, based));
    if Nominated(t, c) {
      var id :| id in t.pairs && t.pairs[id].comp == c && t.pairs[id].nominated;
      assert Thinned(s.pairs[id], t.pairs[id]);
    }
    forall id | id in s.pairs && s.pairs[id].comp == c && s.pairs[id].nominated && Stays(s, c, lost, based, id)
      ensures Nominated(t, c)
    {
      assert Thinned(s.pairs[id], t.pairs[id]);
    }
  }

  /** From a component whose nominated pairs are selected, losing a socket fails no assertion about the
      selection and keeps it, exactly unless the socket unselects or fails an assertion on the way. */
  lemma LossKeeps(s: State, c: nat, lost: nat, based: set<nat>)
    requires Inv(s) && Kin(s) && HasComp(s, c)
    ensures var t := RemoveSocket(s, c, lost, based);
            && KeepsRest(s, t)
            && (NominatedIsSelected(s.pairs, s.comps) ==>
                  (NominatedIsSelected(t.pairs, t.comps) <==> !Unselects(s, c, lost, based)))
            && t.fault == Zeroed(s.fault, ZeroLoss(s, c, lost, based))
  {
    hide Inv, Kin, Thawed, GatheringIsEmpty, NominatedIsSelected, RemoveSocket, Stays, ZeroLoss, Unselects, Unmoved, KeepsRest;
    RemoveSocketKeeps(s, c, lost, based);
    RemoveSocketExact(s, c, lost, based);
    if NominatedIsSelected(s.pairs, s.comps) {
      SelectionSurvives(s, c, lost, based);
    }
  }
}
