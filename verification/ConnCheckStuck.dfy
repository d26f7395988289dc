/** Why silent runs need every check in progress to be held: a pair that is IN_PROGRESS without a
transaction, and not queued for a triggered check, keeps the timer going for ever. A role conflict followed by a
nomination of higher priority leaves such a pair behind. */
module ConnCheckStuck {
  import opened Basics
  import opened ConnCheckState
  import opened ConnCheckSpec
  import opened ConnCheckInvariants
  import opened ConnCheckHandlers
  import opened ConnCheckTick
  import opened ConnCheckTicks
  import opened ConnCheckTermination

  // No pair would take `id` along when it fails.
  predicate Unlinked(pairs: map<PairId, Pair>, id: PairId) {
    forall x :: x in pairs ==> pairs[x].discovered != Some(id)
  }

  predicate Stuck(s: State, id: PairId) {
    id in s.pairs && s.pairs[id].state.InProgress? && s.pairs[id].stun == [] && id !in s.queue && Unlinked(s.pairs, id)
  }

  // ----- handlers called from a tick

  lemma StuckFail(s: State, x: PairId, id: PairId)
    requires Stuck(s, id) && x in s.pairs && x != id
    ensures Stuck(FailPair(s, x), id)
  {
  }

  lemma StuckSilenced(s: State, c: nat, id: PairId)
    requires Stuck(s, id) && c < |s.comps|
    ensures Stuck(Silenced(s, c), id)
  {
    hide FilterOut, PruneSilences;
    FilterOutMembers(s.queue, set x | x in s.pairs && PruneSilences(s, c, x));
  }

  lemma StuckRemoved(s: State, gone: set<PairId>, id: PairId)
    requires Stuck(s, id) && id !in gone
    ensures Stuck(RemovePairs(s, gone), id)
  {
    hide FilterOut;
    FilterOutMembers(s.queue, gone);
  }

  lemma StuckConcludes(s: State, c: nat, id: PairId)
    requires c < |s.comps|
    ensures Stuck(ConcludeReady(s, c), id) == Stuck(s, id)
  {
  }

  lemma StuckReady(s: State, c: nat, id: PairId)
    requires Stuck(s, id) && c < |s.comps|
    ensures Stuck(UpdateForReady(s, c), id)
  {
    assert id !in PruneGone(s, c);
    StuckSilenced(s, c, id);
    StuckRemoved(Silenced(s, c), PruneGone(s, c), id);
    StuckConcludes(PrunePending(s, c), c, id);
    hide Silenced, RemovePairs, PruneGone, PruneCounts, ConcludeReady, HasValidNominated;
  }

  lemma StuckRejected(s: State, x: PairId, id: PairId)
    requires Stuck(s, id) && x in s.pairs && HasComp(s, s.pairs[x].comp) && x != id
    ensures Stuck(Rejected(s, x), id)
  {
    hide UpdateForReady, FailPair, Rejected, Stuck;
    RejectedIsFailed(s, x);
    StuckFail(s, x, id);
    StuckReady(FailPair(s, x), s.pairs[x].comp, id);
  }

  lemma StuckInitiate(s: State, x: PairId, t: TickInput, what: Sent, id: PairId)
    requires Stuck(s, id) && x in s.pairs && HasComp(s, s.pairs[x].comp) && x != id
    ensures Stuck(Initiate(s, x, t, what).0, id)
  {
    hide Rejected;
    if t.send(x).NotSent? {
      StuckRejected(s, x, id);
    }
  }

  lemma StuckUnfreeze(s: State, id: PairId)
    requires Stuck(s, id)
    ensures Stuck(UnfreezeNext(s), id)
  {
    UnfreezeAlongTame(s.pairs, Flat(s.lists), {});
    UnfreezeAlongKeepsOthers(s.pairs, Flat(s.lists), {}, id);
    hide UnfreezeAlong, Flat;
  }

  lemma {:induction false} UnfreezeAlongKeepsOthers(pairs: map<PairId, Pair>, ids: seq<PairId>, seen: set<string>, id: PairId)
    requires id in pairs && pairs[id].state.InProgress? && Unlinked(pairs, id)
    ensures var r := UnfreezeAlong(pairs, ids, seen); id in r && r[id] == pairs[id] && Unlinked(r, id)
    decreases |ids|
  {
    if ids != [] {
      if ids[0] in pairs && pairs[ids[0]].foundation !in seen && pairs[ids[0]].state.Frozen? {
        UnfreezeAlongKeepsOthers(pairs[ids[0] := pairs[ids[0]].(state := Waiting)], ids[1..],
                                 seen + {pairs[ids[0]].foundation}, id);
      } else {
        UnfreezeAlongKeepsOthers(pairs, ids[1..], seen, id);
      }
    }
  }

  // ----- the phases

  lemma {:induction false} StuckTriggered(s: State, streams: nat, t: TickInput, id: PairId)
    requires Stuck(s, id)
    ensures Stuck(TriggeredPhase(s, streams, t).0, id)
    decreases streams
  {
    hide Initiate, FilterOut;
    if streams > 0 && s.queue != [] {
      var x := s.queue[0];
      FilterOutMembers(s.queue, {x});
      var s1 := Dequeue(s, x);
      if x in s.pairs && HasComp(s, s.pairs[x].comp) {
        StuckInitiate(s1, x, t, Triggered(x), id);
        StuckTriggered(Initiate(s1, x, t, Triggered(x)).0, streams - 1, t, id);
      }
    }
  }

  lemma StuckSet(s: State, x: PairId, p: Pair, sent: seq<Sent>, id: PairId)
    requires Stuck(s, id) && x in s.pairs && x != id && p.discovered == s.pairs[x].discovered
    ensures Stuck(SetPair(s, x, p), id) && Stuck(SetPair(s, x, p).(sent := sent), id)
  {
  }

  lemma StuckTickPair(s: State, x: PairId, t: TickInput, id: PairId)
    requires Stuck(s, id) && x in s.pairs && HasComp(s, s.pairs[x].comp)
    ensures Stuck(TickPair(s, x, t).0, id)
  {
    if x != id {
      hide Stuck, UpdateForReady, FailPair, ScanStun;
      var p := s.pairs[x];
      var scan := ScanStun(p.stun, true, p.retransmit, t);
      StuckSet(s, x, p.(stun := scan.kept), s.sent + [Retransmitted(x)], id);
      StuckFail(s, x, id);
      StuckReady(FailPair(s, x), s.pairs[x].comp, id);
    }
  }

  lemma {:induction false} StuckTickAlong(s: State, ids: seq<PairId>, t: TickInput, id: PairId)
    requires Stuck(s, id)
    ensures Stuck(TickAlong(s, ids, t).0, id)
    decreases |ids|
  {
    hide TickPair, Stuck;
    if ids != [] {
      if ids[0] in s.pairs && HasComp(s, s.pairs[ids[0]].comp) {
        StuckTickPair(s, ids[0], t, id);
        StuckTickAlong(TickPair(s, ids[0], t).0, ids[1..], t, id);
      } else {
        StuckTickAlong(s, ids[1..], t, id);
      }
    }
  }

  lemma {:induction false} StuckStunPhase(s: State, n: nat, t: TickInput, id: PairId)
    requires Stuck(s, id) && n <= |s.lists|
    ensures Stuck(StunPhase(s, n, t).0, id)
    decreases |s.lists| - n
  {
    hide TickAlong, Stuck;
    if n < |s.lists| {
      StuckTickAlong(s, s.lists[n], t, id);
      StuckStunPhase(TickAlong(s, s.lists[n], t).0, n + 1, t, id);
    }
  }

  lemma StuckOrdinary(s: State, n: nat, t: TickInput, id: PairId)
    requires Stuck(s, id) && n < |s.lists|
    ensures Stuck(OrdinaryCheck(s, n, t).0, id)
  {
    hide UnfreezeNext, Initiate;
    StuckUnfreeze(s, id);
    var s1 := if NextWaiting(s, n).None? then UnfreezeNext(s) else s;
    var w := NextWaiting(s1, n);
    if w.Some? && HasComp(s1, s1.pairs[w.value].comp) {
      StuckInitiate(s1, w.value, t, Ordinary(w.value), id);
    }
  }

  lemma {:induction false} StuckOrdinaryPhase(s: State, n: nat, t: TickInput, id: PairId)
    requires Stuck(s, id) && n <= |s.lists|
    ensures Stuck(OrdinaryPhase(s, n, t).0, id)
    decreases |s.lists| - n
  {
    hide OrdinaryCheck, Stuck;
    if n < |s.lists| {
      StuckOrdinary(s, n, t, id);
      StuckOrdinaryPhase(OrdinaryCheck(s, n, t).0, n + 1, t, id);
    }
  }

  lemma StuckSends(s: State, t: TickInput, id: PairId)
    requires Stuck(s, id)
    ensures Stuck(SendPhases(s, t).0, id)
  {
    hide Stuck, TriggeredPhase, StunPhase, OrdinaryPhase;
    StuckTriggered(s, |s.lists|, t, id);
    var (s1, sent1) := TriggeredPhase(s, |s.lists|, t);
    StuckStunPhase(s1, 0, t, id);
    var (s2, sent2) := if sent1 then (s1, true) else StunPhase(s1, 0, t);
    StuckOrdinaryPhase(s2, 0, t, id);
  }

  lemma {:induction false} PickSucceeded(s: State, c: nat, ids: seq<PairId>, like: Option<PairId>)
    requires Choose(s, c, ids, like).confirmed && Choose(s, c, ids, like).pick.Some?
    ensures var q := Choose(s, c, ids, like).pick.value; q in s.pairs && s.pairs[q].state.Succeeded?
  {
    if ids != [] {
      var rest := Choose(s, c, ids[1..], like);
      if rest.confirmed && rest.pick.Some? {
        PickSucceeded(s, c, ids[1..], like);
      }
    }
  }

  lemma StuckNominateComp(s: State, n: nat, c: nat, elsewhere: Option<PairId>, id: PairId)
    requires Stuck(s, id) && n < |s.lists|
    ensures Stuck(NominateComp(s, n, c, elsewhere).0, id)
  {
    hide Choose, Stopping, TakenOther;
    var other := TakenOther(s, n, c);
    var like := if other.Some? then other else elsewhere;
    var choice := Choose(s, c, s.lists[n], like);
    if choice.confirmed && choice.pick.Some? {
      PickSucceeded(s, c, s.lists[n], like);
    }
  }

  lemma {:induction false} StuckNominateComps(s: State, n: nat, c: nat, elsewhere: Option<PairId>, id: PairId)
    requires Stuck(s, id) && n < |s.lists| && c <= |s.comps|
    ensures Stuck(NominateComps(s, n, c, elsewhere).0, id)
    decreases |s.comps| - c
  {
    hide NominateComp, Stuck;
    if c < |s.comps| {
      StuckNominateComp(s, n, c, elsewhere, id);
      StuckNominateComps(if s.comps[c].stream == n then NominateComp(s, n, c, elsewhere).0 else s, n, c + 1, elsewhere, id);
    }
  }

  // The stream of the pair is looked at sooner or later, and there something is in progress.
  lemma {:induction false} StuckNominatePhase(s: State, n: nat, id: PairId)
    requires Inv(s) && Stuck(s, id) && n <= |s.lists|
    ensures Stuck(NominatePhase(s, n).0, id)
    ensures s.pairs[id].comp < |s.comps| && (n <= s.comps[s.pairs[id].comp].stream ==> NominatePhase(s, n).1)
    decreases |s.lists| - n
  {
    hide Inv, NominateComps, WantsNomination, TakenElsewhere;
    InOwnList(s, id);
    if n < |s.lists| {
      var elsewhere := TakenElsewhere(s, n, 0);
      StuckNominateComps(s, n, 0, elsewhere, id);
      NominateCompsStayInv(s, n, 0, elsewhere);
      NominateCompsOwner(s, n, 0, elsewhere, id);
      StuckNominatePhase(NominateStream(s, n).0, n + 1, id);
    }
  }

  lemma NominateCompOwner(s: State, n: nat, c: nat, elsewhere: Option<PairId>, id: PairId)
    requires n < |s.lists| && id in s.pairs
    ensures var t := NominateComp(s, n, c, elsewhere).0; id in t.pairs && t.pairs[id].comp == s.pairs[id].comp
  {
    hide Choose, Stopping, TakenOther;
  }

  lemma {:induction false} NominateCompsOwner(s: State, n: nat, c: nat, elsewhere: Option<PairId>, id: PairId)
    requires n < |s.lists| && c <= |s.comps| && id in s.pairs
    ensures var t := NominateComps(s, n, c, elsewhere).0; id in t.pairs && t.pairs[id].comp == s.pairs[id].comp
    decreases |s.comps| - c
  {
    hide NominateComp;
    if c < |s.comps| {
      NominateCompOwner(s, n, c, elsewhere, id);
      NominateCompsOwner(if s.comps[c].stream == n then NominateComp(s, n, c, elsewhere).0 else s, n, c + 1, elsewhere, id);
    }
  }

  // ----- the tick

  /** A silent tick leaves a stuck pair stuck, and goes on. */
  lemma StuckTick(s: State, t: TickInput, id: PairId)
    requires Inv(s) && Stuck(s, id)
    ensures CompsOk(s.comps, |s.lists|) && Inv(Tick(s, t).0)
    ensures Tick(s, t).1 && Stuck(Tick(s, t).0, id)
  {
    hide Inv, SendPhases, NominatePhase, FailComponents;
    TickStaysInv(s, t);
    StuckSends(s, t, id);
    SendStaysInv(s, t);
    StuckNominatePhase(SendPhases(s, t).0, 0, id);
  }

  /** With a stuck pair no tick of a silent run is the last. */
  lemma {:induction false} StuckNeverStops(s: State, inputs: nat -> TickInput, k: nat, n: nat, id: PairId)
    requires Inv(s) && Stuck(s, id)
    ensures !StopsAt(s, inputs, k, n)
    decreases n - k
  {
    hide Inv, Stuck, Tick;
    StuckTick(s, inputs(k), id);
    if k < n {
      StuckNeverStops(Tick(s, inputs(k)).0, inputs, k + 1, n, id);
    }
  }

  // ----- how a pair gets stuck

  // In progress, its only transaction answered by a role conflict, waiting in the queue.
  predicate Requeued(s: State, id: PairId) {
    id in s.pairs && s.pairs[id].state.InProgress? && s.pairs[id].stun == [] && id in s.queue && Unlinked(s.pairs, id)
  }

  // A role change touches priorities and the order of the lists.
  lemma ConflictFrame(s: State, control: bool)
    ensures var t := CheckForRoleConflict(s, control);
            && t.pairs.Keys == s.pairs.Keys && t.queue == s.queue
            && forall x :: x in s.pairs ==> t.pairs[x].(priority := s.pairs[x].priority) == s.pairs[x]
  {
    hide StableSort;
  }

  /** A role conflict puts the pair in the queue without any transaction. */
  lemma ConflictRequeues(s: State, id: PairId, k: nat)
    requires Inv(s) && ReplyOk(s, id, k, RoleConflict) && s.pairs[id].retransmit
    requires s.pairs[id].state.InProgress? && |s.pairs[id].stun| == 1 && Unlinked(s.pairs, id)
    ensures Requeued(HandleReply(s, id, k, RoleConflict), id)
  {
    hide Inv, CheckForRoleConflict, DropStun, Enqueue, Requeued;
    var control := !s.pairs[id].stun[k].sentControlling;
    ConflictFrame(s, control);
    DropLast(CheckForRoleConflict(s, control), id, k);
  }

  lemma DropLast(s: State, id: PairId, k: nat)
    requires id in s.pairs && s.pairs[id].state.InProgress? && |s.pairs[id].stun| == 1 && k == 0 && Unlinked(s.pairs, id)
    ensures Requeued(Enqueue(DropStun(s, id, k), id), id)
  {
  }

  lemma PruneStrands(s: State, c: nat, id: PairId)
    requires c < |s.comps| && Requeued(s, id) && s.pairs[id].comp == c
    ensures var t := PrunePending(s, c);
            if s.pairs[id].priority < s.comps[c].selPriority then Stuck(t, id) else id in t.queue
  {
    hide FilterOut;
    var quiet := set x | x in s.pairs && PruneSilences(s, c, x);
    FilterOutMembers(s.queue, quiet);
    FilterOutMembers(Silenced(s, c).queue, PruneGone(s, c));
    assert id in quiet <==> s.pairs[id].priority < s.comps[c].selPriority;
    assert id !in PruneGone(s, c);
  }

  /** The ready update then strands it, exactly when a pair is nominated and the selected one has a higher priority. */
  lemma ReadyStrands(s: State, id: PairId)
    requires Inv(s) && Requeued(s, id)
    ensures HasComp(s, s.pairs[id].comp)
    ensures var c := s.pairs[id].comp;
            Stuck(UpdateForReady(s, c), id) <==>
            HasValidNominated(s, c) && s.pairs[id].priority < s.comps[c].selPriority
  {
    hide Inv, HasValidNominated, ConcludeReady, PrunePending, PruneCounts;
    OwnerFact(s, id);
    var c := s.pairs[id].comp;
    if HasValidNominated(s, c) && s.comps[c].selPriority > 0 {
      PruneStrands(s, c, id);
      StuckConcludes(PrunePending(s, c), c, id);
    }
  }
}
