/** Remote candidate updates, lost sockets, 403 responses, manual selection, restart, the role property.
They run on an agent updated in place, and each is proved against its definition in ConnCheckSpec. */
module ConnCheckControl {
  import opened Basics
  import opened CandidatePriority
  import opened ConnCheckState
  import opened ConnCheckSpec
  import opened ConnCheckInvariants
  import opened ConnCheckHandlers
  import opened ConnCheckSessions
  import opened ConnCheckSockets
  import opened ConnCheckFolds
  import opened ConnCheckAgent

  // ----- an updated remote candidate

  method RenamePair(a: Agent, c: nat, r: CandId, id: PairId)
    requires a.Valid() && c < |a.comps| && id in a.pairs
    modifies a`pairs, a`comps
    ensures a.Abs() == RenameOne(old(a.Abs()), c, r, id) && a.Valid()
  {
    hide Inv, GatheringIsEmpty, NominatedIsSelected, UnfreezeRelated;
    ghost var s := a.Abs();
    RenameOneInv(s, c, r, id);
    var p := a.pairs[id];
    if p.remote == r {
      var f := NewFoundation(a.Abs(), p);
      if f != p.foundation {
        RenamedPairInv(s, id, f);
        a.pairs := a.pairs[id := p.(foundation := f)];
        if p.state.Succeeded? {
          UnfreezeComps(a.Abs(), f);
          a.DoUnfreezeRelated(f);
        }
        if a.comps[c].selLocal == Some(p.local) && a.comps[c].selRemote == Some(p.remote) {
          a.comps := a.comps[c := a.comps[c].(selPriority := p.priority)];
        }
      }
    }
  }

  method RenamePairs(a: Agent, c: nat, r: CandId)
    requires a.Valid() && HasComp(a.Abs(), c)
    modifies a`pairs, a`comps
    ensures a.Abs() == RenameAlong(old(a.Abs()), c, r, old(StreamList(a.Abs(), c))) && a.Valid()
  {
    hide Inv, RenameOne, RenameAlong;
    ghost var s := a.Abs();
    var ids := a.lists[a.comps[c].stream];
    assert ids[0..] == ids;
    for k := 0 to |ids|
      invariant a.Valid() && c < |a.comps|
      invariant RenameAlong(s, c, r, ids) == RenameAlong(a.Abs(), c, r, ids[k..])
    {
      RenameStep(a.Abs(), c, r, ids[k..]);
      assert ids[k..][1..] == ids[k + 1..];
      if ids[k] in a.pairs {
        RenamePair(a, c, r, ids[k]);
      }
    }
    RenameEnd(a.Abs(), c, r, ids);
  }

  lemma RenameStep(s: State, c: nat, r: CandId, ids: seq<PairId>)
    requires c < |s.comps| && ids != []
    ensures RenameAlong(s, c, r, ids) == RenameAlong(if ids[0] in s.pairs then RenameOne(s, c, r, ids[0]) else s, c, r, ids[1..])
  {
    hide RenameOne;
  }

  lemma RenameEnd(s: State, c: nat, r: CandId, ids: seq<PairId>)
    requires c < |s.comps|
    ensures RenameAlong(s, c, r, ids[|ids|..]) == s
  {
  }

  method FindHighestNominated(a: Agent, c: nat) returns (top: Option<PairId>)
    requires a.Valid() && HasComp(a.Abs(), c)
    ensures top == HighestNominated(a.Abs(), c)
  {
    hide Inv, First;
    var n := a.comps[c].stream;
    ghost var s := a.Abs();
    for k := 0 to |a.lists[n]|
      invariant forall j :: 0 <= j < k ==>
                  !(a.lists[n][j] in a.pairs && a.pairs[a.lists[n][j]].comp == c && a.pairs[a.lists[n][j]].nominated)
    {
      var id := a.lists[n][k];
      if id in a.pairs && a.pairs[id].comp == c && a.pairs[id].nominated {
        FirstAt(a.lists[n], id => id in s.pairs && s.pairs[id].comp == c && s.pairs[id].nominated, k);
        return Some(id);
      }
    }
    return None;
  }

  // Another nominated pair may now be the best one.
  method Reselect(a: Agent, c: nat)
    requires a.Valid() && HasComp(a.Abs(), c)
    modifies a`comps, a`fault
    ensures a.Abs() == Reselected(old(a.Abs()), c) && a.Valid()
  {
    hide Inv, Thawed, GatheringIsEmpty, NominatedIsSelected, HighestNominated, UpdateSelected;
    ReselectedKeeps(a.Abs(), c);
    var top := FindHighestNominated(a, c);
    if top.Some? {
      HighestIsPair(a.Abs(), c);
      var p := a.pairs[top.value];
      if a.comps[c].selLocal != Some(p.local) || a.comps[c].selRemote != Some(p.remote) {
        if a.comps[c].selLocal.None? || a.comps[c].selRemote.None? {
          if a.fault.NoFault? {
            a.fault := SelectionMissing;
          }
        } else {
          a.SelectIfHigher(c, top.value);
        }
      }
    }
  }

  lemma HighestIsPair(s: State, c: nat)
    requires HasComp(s, c) && HighestNominated(s, c).Some?
    ensures HighestNominated(s, c).value in s.pairs && s.pairs[HighestNominated(s, c).value].comp == c
  {
  }

  method UpdateRemoteCandidate(a: Agent, c: nat, r: CandId, priority: nat, foundation: string, kind: CandidateType)
    requires a.Valid() && HasComp(a.Abs(), c) && r in a.cands && !a.cands[r].isLocal && 0 < priority < TWO_32
    modifies a`pairs, a`lists, a`queue, a`comps, a`fault, a`cands
    ensures a.Abs() == UpdateRemote(old(a.Abs()), c, r, priority, foundation, kind) && a.Valid()
  {
    hide WellFormed, Sorted, Priced, Recalculate, RenameAlong, Reselected, UpdateForReady;
    ghost var s := a.Abs();
    var k := a.cands[r];
    if k.kind.PeerReflexive? {
      k := k.(kind := kind, sock := None);
    }
    k := k.(priority := priority, foundation := foundation);
    NewRemoteWellFormed(s, r, k);
    ghost var s1 := s.(cands := s.cands[r := k]);
    RecalculateInv(s1);
    hide Inv;
    a.cands := a.cands[r := k];
    a.RecalculatePairPriorities();
    RenamePairs(a, c, r);
    Reselect(a, c);
    a.UpdateCheckListForReady(c);
  }

  // ----- a lost socket and a 403 response

  method RemoveLocal(a: Agent, c: nat, l: CandId, lost: nat, based: set<nat>)
    requires a.Valid() && HasComp(a.Abs(), c)
    modifies a`pairs, a`lists, a`queue, a`comps, a`fault
    ensures a.Abs() == DropLocal(old(a.Abs()), c, l, lost, based) && a.Valid()
  {
    hide Inv, Lost, PruneSocket, FilterOut;
    DropLocalLost(a.Abs(), c, l, lost, based);
    LostInv(a.Abs(), DropLocal(a.Abs(), c, l, lost, based), c, a.comps[c].selLocal == Some(l) && BasedOn(a.Abs(), l, lost, based));
    if l !in a.cands || a.cands[l].sock.None? {
      return;
    }
    var sock := a.cands[l].sock.value;
    if sock != lost && sock !in based {
      return;
    }
    ClearLost(a.Abs(), c);
    LostInv(a.Abs(), ClearSelected(a.Abs(), c), c, true);
    if a.comps[c].selLocal == Some(l) {
      a.comps := a.comps[c := a.comps[c].(selLocal := None, selRemote := None, selPriority := 0)];
    }
    if sock != lost {
      a.PruneSocketPairs(c, sock);
    }
    a.comps := a.comps[c := a.comps[c].(locals := FilterOut(a.comps[c].locals, {l}))];
  }

  method RemoveLocals(a: Agent, c: nat, lost: nat, based: set<nat>)
    requires a.Valid() && HasComp(a.Abs(), c)
    modifies a`pairs, a`lists, a`queue, a`comps, a`fault
    ensures a.Abs() == DropLocals(old(a.Abs()), c, old(a.comps[c].locals), lost, based) && a.Valid()
  {
    hide Inv, DropLocal, DropLocals;
    ghost var s := a.Abs();
    var ls := a.comps[c].locals;
    assert ls[0..] == ls;
    for k := 0 to |ls|
      invariant a.Valid() && HasComp(a.Abs(), c)
      invariant DropLocals(s, c, ls, lost, based) == DropLocals(a.Abs(), c, ls[k..], lost, based)
    {
      DropLocalsStep(a.Abs(), c, ls[k..], lost, based);
      assert ls[k..][1..] == ls[k + 1..];
      RemoveLocal(a, c, ls[k], lost, based);
    }
    DropLocalsEnd(a.Abs(), c, ls, lost, based);
  }

  lemma DropLocalsStep(s: State, c: nat, ls: seq<CandId>, lost: nat, based: set<nat>)
    requires HasComp(s, c) && ls != []
    ensures DropLocals(s, c, ls, lost, based) == DropLocals(DropLocal(s, c, ls[0], lost, based), c, ls[1..], lost, based)
  {
    hide DropLocal;
  }

  lemma DropLocalsEnd(s: State, c: nat, ls: seq<CandId>, lost: nat, based: set<nat>)
    requires HasComp(s, c)
    ensures DropLocals(s, c, ls[|ls|..], lost, based) == s
  {
  }

  method RemoveRemote(a: Agent, c: nat, r: CandId, lost: nat)
    requires a.Valid() && HasComp(a.Abs(), c)
    modifies a`pairs, a`lists, a`queue, a`comps, a`fault
    ensures a.Abs() == DropRemote(old(a.Abs()), c, r, lost) && a.Valid()
  {
    hide Inv, Lost, PruneSocket, FilterOut;
    DropRemoteLost(a.Abs(), c, r, lost);
    LostInv(a.Abs(), DropRemote(a.Abs(), c, r, lost), c, a.comps[c].selRemote == Some(r) && OnLost(a.Abs(), r, lost));
    if r !in a.cands || a.cands[r].sock != Some(lost) {
      return;
    }
    ClearLost(a.Abs(), c);
    LostInv(a.Abs(), ClearSelected(a.Abs(), c), c, true);
    if a.comps[c].selRemote == Some(r) {
      a.comps := a.comps[c := a.comps[c].(selLocal := None, selRemote := None, selPriority := 0)];
    }
    a.PruneSocketPairs(c, lost);
    a.comps := a.comps[c := a.comps[c].(remotes := FilterOut(a.comps[c].remotes, {r}))];
  }

  method RemoveRemotes(a: Agent, c: nat, lost: nat)
    requires a.Valid() && HasComp(a.Abs(), c)
    modifies a`pairs, a`lists, a`queue, a`comps, a`fault
    ensures a.Abs() == DropRemotes(old(a.Abs()), c, old(a.comps[c].remotes), lost) && a.Valid()
  {
    hide Inv, DropRemote, DropRemotes;
    ghost var s := a.Abs();
    var rs := a.comps[c].remotes;
    assert rs[0..] == rs;
    for k := 0 to |rs|
      invariant a.Valid() && HasComp(a.Abs(), c)
      invariant DropRemotes(s, c, rs, lost) == DropRemotes(a.Abs(), c, rs[k..], lost)
    {
      DropRemotesStep(a.Abs(), c, rs[k..], lost);
      assert rs[k..][1..] == rs[k + 1..];
      RemoveRemote(a, c, rs[k], lost);
    }
    DropRemotesEnd(a.Abs(), c, rs, lost);
  }

  lemma DropRemotesStep(s: State, c: nat, rs: seq<CandId>, lost: nat)
    requires HasComp(s, c) && rs != []
    ensures DropRemotes(s, c, rs, lost) == DropRemotes(DropRemote(s, c, rs[0], lost), c, rs[1..], lost)
  {
    hide DropRemote;
  }

  lemma DropRemotesEnd(s: State, c: nat, rs: seq<CandId>, lost: nat)
    requires HasComp(s, c)
    ensures DropRemotes(s, c, rs[|rs|..], lost) == s
  {
  }

  // The component gives up a socket, with every candidate and pair that needs it.
  method RemoveComponentSocket(a: Agent, c: nat, lost: nat, based: set<nat>)
    requires a.Valid() && HasComp(a.Abs(), c)
    modifies a`pairs, a`lists, a`queue, a`comps, a`fault
    ensures a.Abs() == RemoveSocket(old(a.Abs()), c, lost, based) && a.Valid()
    ensures forall id :: id in a.pairs ==> id in old(a.pairs) && Spared(old(a.Abs()), c, lost, based, id)
    ensures |a.comps| == |old(a.comps)|
    ensures forall l :: l in a.comps[c].locals <==> l in old(a.comps[c].locals) && !BasedOn(a.Abs(), l, lost, based)
    ensures forall r :: r in a.comps[c].remotes <==> r in old(a.comps[c].remotes) && !OnLost(a.Abs(), r, lost)
  {
    hide Inv, PruneSocket, DropLocals, DropRemotes, Spared;
    RemoveSocketTakes(a.Abs(), c, lost, based);
    ghost var s := a.Abs();
    a.PruneSocketPairs(c, lost);
    RemoveLocals(a, c, lost, based);
    RemoveRemotes(a, c, lost);
    SameBasis(s, a.Abs(), lost, based);
  }

  lemma SameBasis(s: State, t: State, lost: nat, based: set<nat>)
    requires t.cands == s.cands
    ensures forall l :: BasedOn(t, l, lost, based) == BasedOn(s, l, lost, based) && OnLost(t, l, lost) == OnLost(s, l, lost)
  {
  }

  method HandleForbidden(a: Agent, c: nat, from: set<CandId>)
    requires a.Valid() && HasComp(a.Abs(), c) && a.comps[c].selRemote.Some?
    modifies a`pairs, a`comps, a`fault
    ensures a.Abs() == Forbidden(old(a.Abs()), c, from) && a.Valid()
  {
    hide Inv, Thawed, GatheringIsEmpty, NominatedIsSelected, FailAlong, FailPair;
    ghost var s := a.Abs();
    ForbiddenKeeps(s, c, from);
    var ids := a.lists[a.comps[c].stream];
    assert ids[0..] == ids;
    for k := 0 to |ids|
      invariant a.Valid() && a.comps == s.comps && a.fault == s.fault
      invariant FailAlong(s, from, ids) == FailAlong(a.Abs(), from, ids[k..])
    {
      FailStep(a.Abs(), from, ids[k..]);
      assert ids[k..][1..] == ids[k + 1..];
      if ids[k] in a.pairs && a.pairs[ids[k]].remote in from {
        FailKeeps(a.Abs(), ids[k]);
        a.FailCheckPair(ids[k]);
      }
    }
    FailEnd(a.Abs(), from, ids);
    if a.comps[c].selRemote.value in from {
      a.SignalState(c, Failed);
    }
  }

  lemma FailStep(s: State, from: set<CandId>, ids: seq<PairId>)
    requires ids != []
    ensures FailAlong(s, from, ids) ==
            FailAlong(if ids[0] in s.pairs && s.pairs[ids[0]].remote in from then FailPair(s, ids[0]) else s, from, ids[1..])
  {
    hide FailPair;
  }

  lemma FailEnd(s: State, from: set<CandId>, ids: seq<PairId>)
    ensures FailAlong(s, from, ids[|ids|..]) == s
  {
  }

  // ----- emptied streams

  method PruneStreamChecks(a: Agent, n: nat)
    requires a.Valid() && n < |a.lists|
    modifies a`pairs, a`lists, a`queue, a`timerOn, a`idleDelay
    ensures a.Abs() == PruneStream(old(a.Abs()), n) && a.Valid()
  {
    hide Inv, FilterOut, Thawed, GatheringIsEmpty, NominatedIsSelected;
    ghost var s := a.Abs();
    PruneStreamKeeps(s, n);
    ghost var done: set<PairId> := {};
    FilterOutNothing(s.queue, {});
    for k := 0 to |a.lists[n]|
      invariant a.Abs() == s.(pairs := s.pairs - done, queue := FilterOut(s.queue, done))
      invariant done == set j | 0 <= j < k :: s.lists[n][j]
    {
      var id := a.lists[n][k];
      FilterOutTwice(s.queue, done, {id});
      assert s.pairs - done - {id} == s.pairs - (done + {id});
      a.queue := FilterOut(a.queue, {id});
      a.pairs := a.pairs - {id};
      done := done + {id};
    }
    assert done == Members(s.lists[n]);
    a.lists := a.lists[n := []];
    EmptiedList(s, n);
    var keepGoing := false;
    for m := 0 to |a.lists|
      invariant a.Abs() == RemovePairs(s, Members(s.lists[n]))
      invariant keepGoing <==> exists j :: 0 <= j < m && a.lists[j] != []
    {
      if a.lists[m] != [] {
        keepGoing := true;
      }
    }
    if !keepGoing {
      a.timerOn := false;
      a.idleDelay := 0;
    }
  }

  lemma EmptiedList(s: State, n: nat)
    requires Inv(s) && n < |s.lists|
    ensures RemovePairs(s, Members(s.lists[n])).lists == s.lists[n := []]
  {
    hide Inv, FilterOut;
    var gone := Members(s.lists[n]);
    var t := RemovePairs(s, gone);
    forall m | 0 <= m < |s.lists|
      ensures t.lists[m] == if m == n then [] else s.lists[m]
    {
      if m == n {
        FilterOutAll(s.lists[n], gone);
      } else {
        ListsDisjoint(s, m, n);
        FilterOutNothing(s.lists[m], gone);
      }
    }
  }

  lemma {:induction false} FilterOutAll(xs: seq<nat>, gone: set<nat>)
    requires forall x :: x in xs ==> x in gone
    ensures FilterOut(xs, gone) == []
  {
    if xs != [] {
      FilterOutAll(xs[1..], gone);
    }
  }

  lemma ListsDisjoint(s: State, m: nat, n: nat)
    requires Inv(s) && m < |s.lists| && n < |s.lists| && m != n
    ensures forall id :: id in s.lists[m] ==> id !in s.lists[n]
  {
    assert ListOk(s.lists[m], m, s.pairs, s.comps) && ListOk(s.lists[n], n, s.pairs, s.comps);
  }

  method SelectPairManually(a: Agent, c: nat, l: CandId, r: CandId)
    requires a.Valid() && CanPair(a.Abs(), c, l, r)
    modifies a`pairs, a`lists, a`queue, a`timerOn, a`idleDelay, a`comps, a`fault
    ensures a.Abs() == SetSelected(old(a.Abs()), c, l, r) && a.Valid()
  {
    hide Inv, PruneStream, ConcludeReady, Thawed, GatheringIsEmpty, NominatedIsSelected;
    SetSelectedKeeps(a.Abs(), c, l, r);
    PruneStreamRoles(a.Abs(), a.comps[c].stream);
    PruneStreamChecks(a, a.comps[c].stream);
    a.ConcludeComponent(c);
    a.comps := a.comps[c := a.comps[c].(
        selLocal := Some(l), selRemote := Some(r),
        selPriority := AgentPairPriority(a.controlling, a.cands[l].priority, a.cands[r].priority))];
  }

  method RestartStream(a: Agent, n: nat)
    requires a.Valid() && n < |a.lists|
    modifies a`pairs, a`lists, a`queue, a`timerOn, a`idleDelay, a`comps, a`fault
    ensures a.Abs() == Restart(old(a.Abs()), n) && a.Valid()
  {
    hide Inv, PruneStream, Thawed, GatheringIsEmpty, NominatedIsSelected, RestartedComp;
    RestartKeeps(a.Abs(), n);
    PruneStreamChecks(a, n);
    ghost var s := a.Abs();
    for c := 0 to |a.comps|
      invariant a.Abs() == s.(comps := a.comps) && |a.comps| == |s.comps|
      invariant forall d :: 0 <= d < c ==> a.comps[d] == RestartedComp(s.comps[d], n)
      invariant forall d :: c <= d < |a.comps| ==> a.comps[d] == s.comps[d]
    {
      RestartsTo(s.comps[c], n);
      if a.comps[c].stream == n {
        a.comps := a.comps[c := a.comps[c].(selPriority := 0, remotes := [])];
        a.SignalState(c, Gathering);
      }
    }
    assert a.comps == seq(|s.comps|, c requires 0 <= c < |s.comps| => RestartedComp(s.comps[c], n));
  }

  lemma RestartsTo(x: Component, n: nat)
    ensures RestartedComp(x, n) == if x.stream == n then x.(selPriority := 0, remotes := [], state := Gathering) else x
  {
  }

  // ----- the role property

  method UpdateControllingMode(a: Agent, control: bool)
    modifies a`controlling
    ensures a.Abs() == SetRole(old(a.Abs()), control)
  {
    if a.controlling == control {
      return;
    }
    var update := true;
    for c := 0 to |a.comps|
      invariant a.Abs() == old(a.Abs())
      invariant update <==> forall d :: 0 <= d < c ==> a.comps[d].state.Disconnected?
    {
      if !a.comps[c].state.Disconnected? {
        update := false;
      }
    }
    if update {
      a.controlling := control;
    }
  }
}
