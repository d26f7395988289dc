/** Which checks in progress a silent run can rely on: those that hold a transaction, and those that lost
it to a role conflict but wait in the triggered-check queue and will not be taken out of it. */
module ConnCheckHeld {
  import opened Basics
  import opened ConnCheckState
  import opened ConnCheckSpec
  import opened ConnCheckInvariants
  import opened ConnCheckHandlers
  import opened ConnCheckSockets
  import opened ConnCheckTick
  import opened ConnCheckTicks
  import opened ConnCheckSilence

  // A list update of its component takes the pair out of the queue.
  predicate Doomed(s: State, id: PairId)
    requires id in s.pairs
  {
    var p := s.pairs[id];
    p.comp < |s.comps| && HasValidNominated(s, p.comp) && p.priority < s.comps[p.comp].selPriority
  }

  predicate HeldPair(s: State, id: PairId)
    requires id in s.pairs
  {
    s.pairs[id].state.InProgress? && s.pairs[id].stun == [] ==> id in s.queue && !Doomed(s, id)
  }

  /** Every IN_PROGRESS pair holds a STUN transaction, or is queued for a triggered check and ranks no lower
      than the selected pair of a component with a valid nominated pair. */
  predicate Held(s: State) {
    forall id :: id in s.pairs ==> HeldPair(s, id)
  }

  // The same, but for the pair `x` that is being started.
  predicate HeldBut(s: State, x: PairId) {
    forall id :: id in s.pairs && id != x ==> HeldPair(s, id)
  }

  // ----- what makes no pair doomed

  predicate NoneNominated(s: State, t: State) {
    && OnlyStates(s.comps, t.comps)
    && forall id :: id in t.pairs ==>
         && id in s.pairs && t.pairs[id].comp == s.pairs[id].comp && t.pairs[id].priority == s.pairs[id].priority
         && t.pairs[id].valid == s.pairs[id].valid && t.pairs[id].nominated == s.pairs[id].nominated
  }

  lemma NotDoomed(s: State, t: State, id: PairId)
    requires NoneNominated(s, t) && id in t.pairs
    ensures id in s.pairs && (Doomed(t, id) ==> Doomed(s, id))
  {
    var c := s.pairs[id].comp;
    if c < |s.comps| {
      assert t.comps[c].(state := s.comps[c].state) == s.comps[c];
    }
  }

  lemma SameComps(comps: seq<Component>)
    ensures OnlyStates(comps, comps)
  {
    assert forall c :: 0 <= c < |comps| ==> comps[c].(state := comps[c].state) == comps[c];
  }

  // A pair in progress without a transaction was so before, and stays queued unless it was doomed.
  predicate StaysQueued(s: State, t: State, id: PairId)
    requires id in t.pairs
  {
    t.pairs[id].state.InProgress? && t.pairs[id].stun == [] ==>
      && id in s.pairs && s.pairs[id].state.InProgress? && s.pairs[id].stun == []
      && (id in s.queue && !Doomed(s, id) ==> id in t.queue)
  }

  lemma HeldFrom(s: State, t: State)
    requires Held(s) && NoneNominated(s, t) && forall id :: id in t.pairs ==> StaysQueued(s, t, id)
    ensures Held(t)
  {
    hide Doomed, NoneNominated;
    forall id | id in t.pairs
      ensures HeldPair(t, id)
    {
      assert StaysQueued(s, t, id);
      NotDoomed(s, t, id);
    }
  }

  lemma HeldButFrom(s: State, t: State, x: PairId)
    requires HeldBut(s, x) && NoneNominated(s, t)
    requires forall id :: id in t.pairs && id != x ==> StaysQueued(s, t, id)
    requires x in t.pairs ==> HeldPair(t, x)
    ensures Held(t)
  {
    hide Doomed, NoneNominated;
    forall id | id in t.pairs && id != x
      ensures HeldPair(t, id)
    {
      assert StaysQueued(s, t, id);
      NotDoomed(s, t, id);
    }
  }

  // ----- handlers called from a tick

  lemma HeldFail(s: State, x: PairId)
    requires HeldBut(s, x) && x in s.pairs
    ensures Held(FailPair(s, x))
  {
    hide FailPair, Doomed, OnlyStates;
    SameComps(s.comps);
    forall id | id in FailPair(s, x).pairs
      ensures FailEach(s, FailPair(s, x), x, id)
    {
      FailsEach(s, x, id);
    }
    FailsEach(s, x, x);
    HeldButFrom(s, FailPair(s, x), x);
  }

  predicate FailEach(s: State, t: State, x: PairId, id: PairId) {
    && id in s.pairs && id in t.pairs
    && t.pairs[id].comp == s.pairs[id].comp && t.pairs[id].priority == s.pairs[id].priority
    && t.pairs[id].valid == s.pairs[id].valid && t.pairs[id].nominated == s.pairs[id].nominated
    && (t.pairs[id].state.InProgress? ==> id != x && s.pairs[id].state.InProgress? && t.pairs[id].stun == s.pairs[id].stun)
  }

  lemma FailsEach(s: State, x: PairId, id: PairId)
    requires x in s.pairs
    ensures FailPair(s, x).queue == s.queue && FailPair(s, x).comps == s.comps
    ensures FailPair(s, x).pairs.Keys == s.pairs.Keys && (id in s.pairs ==> FailEach(s, FailPair(s, x), x, id))
  {
  }

  lemma PruneNone(s: State, c: nat)
    requires c < |s.comps|
    ensures NoneNominated(s, PrunePending(s, c))
  {
    hide FilterOut, PruneDrops;
    SameComps(s.comps);
  }

  lemma ConcludeNone(s: State, c: nat)
    requires c < |s.comps|
    ensures NoneNominated(s, ConcludeReady(s, c)) && ConcludeReady(s, c).queue == s.queue && ConcludeReady(s, c).pairs == s.pairs
  {
    hide Thins;
    ConcludeThins(s, c);
    ThinsStates(s, ConcludeReady(s, c));
  }

  lemma ThinsStates(s: State, t: State)
    requires Thins(s, t) && t.pairs == s.pairs
    ensures NoneNominated(s, t)
  {
  }

  lemma PruneQueued(s: State, c: nat, id: PairId)
    requires c < |s.comps| && HasValidNominated(s, c) && s.comps[c].selPriority > 0
    requires id in PrunePending(s, c).pairs
    ensures StaysQueued(s, PrunePending(s, c), id)
  {
    hide FilterOut, HasValidNominated;
    var quiet := set x | x in s.pairs && PruneSilences(s, c, x);
    FilterOutMembers(s.queue, quiet);
    FilterOutMembers(FilterOut(s.queue, quiet), PruneGone(s, c));
  }

  lemma HeldReady(s: State, c: nat)
    requires Held(s) && c < |s.comps|
    ensures Held(UpdateForReady(s, c))
  {
    hide HasValidNominated, PrunePending, ConcludeReady, PruneCounts, StaysQueued, NoneNominated, HeldPair;
    if !HasValidNominated(s, c) {
    } else if s.comps[c].selPriority == 0 {
      HeldFault(s, ZeroSelectedPriority);
    } else {
      var t := PrunePending(s, c);
      PruneNone(s, c);
      forall id | id in t.pairs
        ensures StaysQueued(s, t, id)
      {
        PruneQueued(s, c, id);
      }
      HeldFrom(s, t);
      ConcludeNone(t, c);
      forall id | id in t.pairs
        ensures StaysQueued(t, ConcludeReady(t, c), id)
      {
        SameQueued(t, ConcludeReady(t, c), id);
      }
      HeldFrom(t, ConcludeReady(t, c));
    }
  }

  lemma SameQueued(s: State, t: State, id: PairId)
    requires id in t.pairs && t.pairs == s.pairs && t.queue == s.queue
    ensures StaysQueued(s, t, id)
  {
  }

  lemma HeldFault(s: State, f: Fault)
    requires Held(s)
    ensures Held(Faulted(s, f))
  {
    hide StaysQueued, NoneNominated, HeldPair;
    NoneFault(s, f);
    forall id | id in s.pairs
      ensures StaysQueued(s, Faulted(s, f), id)
    {
      SameQueued(s, Faulted(s, f), id);
    }
    HeldFrom(s, Faulted(s, f));
  }

  lemma NoneFault(s: State, f: Fault)
    ensures NoneNominated(s, Faulted(s, f))
  {
    SameComps(s.comps);
  }

  lemma HeldRejected(s: State, x: PairId)
    requires HeldBut(s, x) && x in s.pairs && HasComp(s, s.pairs[x].comp)
    ensures Held(Rejected(s, x))
  {
    hide UpdateForReady, FailPair, Rejected, Held, HeldBut;
    RejectedIsFailed(s, x);
    HeldFail(s, x);
    HeldReady(FailPair(s, x), s.pairs[x].comp);
  }

  lemma HeldInitiate(s: State, x: PairId, t: TickInput, what: Sent)
    requires HeldBut(s, x) && x in s.pairs && HasComp(s, s.pairs[x].comp)
    ensures Held(Initiate(s, x, t, what).0)
  {
    hide Rejected, Doomed;
    if t.send(x).NotSent? {
      HeldRejected(s, x);
    } else {
      SameComps(s.comps);
      HeldButFrom(s, Initiate(s, x, t, what).0, x);
    }
  }

  lemma HeldDequeue(s: State, x: PairId)
    requires Held(s)
    ensures HeldBut(Dequeue(s, x), x)
  {
    hide FilterOut, Doomed;
    FilterOutMembers(s.queue, {x});
    SameComps(s.comps);
    forall id | id in s.pairs && id != x
      ensures HeldPair(Dequeue(s, x), id)
    {
      assert HeldPair(s, id);
      NotDoomed(s, Dequeue(s, x), id);
    }
  }

  // ----- the phases

  lemma {:induction false} HeldTriggered(s: State, streams: nat, t: TickInput)
    requires Inv(s) && Held(s)
    ensures Held(TriggeredPhase(s, streams, t).0)
    decreases streams
  {
    hide Inv, Thawed, GatheringIsEmpty, NominatedIsSelected, Held, HeldBut, Initiate, FilterOut;
    if streams > 0 && s.queue != [] {
      var x := s.queue[0];
      var s1 := Dequeue(s, x);
      HeldDequeue(s, x);
      DequeueKeeps(s, x);
      QueueFact(s);
      OwnerFact(s, x);
      HeldInitiate(s1, x, t, Triggered(x));
      InitiateKeeps(s1, x, t, Triggered(x));
      var (s2, sent) := Initiate(s1, x, t, Triggered(x));
      if !sent {
        HeldTriggered(s2, streams - 1, t);
      }
    }
  }

  lemma HeldHeldBut(s: State, x: PairId)
    requires Held(s)
    ensures HeldBut(s, x)
  {
  }

  lemma HeldStun(s: State, x: PairId, kept: seq<Stun>, sent: seq<Sent>)
    requires Held(s) && x in s.pairs && kept != []
    ensures Held(SetPair(s, x, s.pairs[x].(stun := kept)).(sent := sent))
  {
    hide Doomed;
    SameComps(s.comps);
    HeldFrom(s, SetPair(s, x, s.pairs[x].(stun := kept)).(sent := sent));
  }

  lemma HeldTickPair(s: State, x: PairId, t: TickInput)
    requires Held(s) && x in s.pairs && HasComp(s, s.pairs[x].comp)
    ensures Held(TickPair(s, x, t).0)
  {
    hide Held, HeldBut, UpdateForReady, FailPair, ScanStun;
    var p := s.pairs[x];
    var scan := ScanStun(p.stun, true, p.retransmit, t);
    if scan.kept != [] {
      HeldStun(s, x, scan.kept, s.sent + [Retransmitted(x)]);
      HeldStun(s, x, scan.kept, s.sent);
    }
    ResentKept(p.stun, true, p.retransmit, t);
    HeldHeldBut(s, x);
    HeldFail(s, x);
    HeldReady(FailPair(s, x), p.comp);
  }

  lemma {:induction false} HeldTickAlong(s: State, ids: seq<PairId>, t: TickInput)
    requires Held(s)
    ensures Held(TickAlong(s, ids, t).0)
    decreases |ids|
  {
    hide Held, TickPair;
    if ids != [] {
      if ids[0] in s.pairs && HasComp(s, s.pairs[ids[0]].comp) {
        HeldTickPair(s, ids[0], t);
        HeldTickAlong(TickPair(s, ids[0], t).0, ids[1..], t);
      } else {
        HeldTickAlong(s, ids[1..], t);
      }
    }
  }

  lemma {:induction false} HeldStunPhase(s: State, n: nat, t: TickInput)
    requires Held(s) && n <= |s.lists|
    ensures Held(StunPhase(s, n, t).0)
    decreases |s.lists| - n
  {
    hide Held, TickAlong;
    if n < |s.lists| {
      HeldTickAlong(s, s.lists[n], t);
      HeldStunPhase(TickAlong(s, s.lists[n], t).0, n + 1, t);
    }
  }

  lemma HeldUnfreeze(s: State)
    requires Held(s)
    ensures Held(UnfreezeNext(s))
  {
    hide UnfreezeAlong, Flat, Doomed;
    UnfreezeAlongTame(s.pairs, Flat(s.lists), {});
    SameComps(s.comps);
    HeldFrom(s, UnfreezeNext(s));
  }

  lemma HeldOrdinary(s: State, n: nat, t: TickInput)
    requires Held(s) && n < |s.lists|
    ensures Held(OrdinaryCheck(s, n, t).0)
  {
    hide Held, HeldBut, UnfreezeNext, Initiate;
    HeldUnfreeze(s);
    var s1 := if NextWaiting(s, n).None? then UnfreezeNext(s) else s;
    var w := NextWaiting(s1, n);
    if w.Some? && HasComp(s1, s1.pairs[w.value].comp) {
      HeldHeldBut(s1, w.value);
      HeldInitiate(s1, w.value, t, Ordinary(w.value));
    }
  }

  lemma {:induction false} HeldOrdinaryPhase(s: State, n: nat, t: TickInput)
    requires Held(s) && n <= |s.lists|
    ensures Held(OrdinaryPhase(s, n, t).0)
    decreases |s.lists| - n
  {
    hide Held, OrdinaryCheck;
    if n < |s.lists| {
      HeldOrdinary(s, n, t);
      HeldOrdinaryPhase(OrdinaryCheck(s, n, t).0, n + 1, t);
    }
  }

  /** The sending phases of a tick keep every check in progress held. */
  lemma HeldSends(s: State, t: TickInput)
    requires Inv(s) && Held(s)
    ensures Held(SendPhases(s, t).0)
  {
    hide Inv, Held, TriggeredPhase, StunPhase, OrdinaryPhase;
    HeldTriggered(s, |s.lists|, t);
    var (s1, sent1) := TriggeredPhase(s, |s.lists|, t);
    HeldStunPhase(s1, 0, t);
    var (s2, sent2) := if sent1 then (s1, true) else StunPhase(s1, 0, t);
    HeldOrdinaryPhase(s2, 0, t);
  }

  // ----- nomination

  lemma HeldNominateComp(s: State, n: nat, c: nat, elsewhere: Option<PairId>)
    requires Held(s) && n < |s.lists|
    ensures Held(NominateComp(s, n, c, elsewhere).0)
  {
    hide Choose, Stopping, TakenOther, Held, Enqueue;
    HeldFault(s, ValidPairNotSucceeded);
    var other := TakenOther(s, n, c);
    var choice := Choose(s, c, s.lists[n], if other.Some? then other else elsewhere);
    if choice.pick.Some? && choice.pick.value in s.pairs {
      HeldPick(s, choice.pick.value);
    }
  }

  lemma HeldPick(s: State, q: PairId)
    requires Held(s) && q in s.pairs
    ensures Held(Enqueue(SetPair(s, q, s.pairs[q].(useCandidate := true)), q))
  {
    hide Doomed;
    SameComps(s.comps);
    HeldFrom(s, Enqueue(SetPair(s, q, s.pairs[q].(useCandidate := true)), q));
  }

  lemma {:induction false} HeldNominateComps(s: State, n: nat, c: nat, elsewhere: Option<PairId>)
    requires Held(s) && n < |s.lists| && c <= |s.comps|
    ensures Held(NominateComps(s, n, c, elsewhere).0)
    decreases |s.comps| - c
  {
    hide Held, NominateComp;
    if c < |s.comps| {
      HeldNominateComp(s, n, c, elsewhere);
      HeldNominateComps(if s.comps[c].stream == n then NominateComp(s, n, c, elsewhere).0 else s, n, c + 1, elsewhere);
    }
  }

  lemma {:induction false} HeldNominatePhase(s: State, n: nat)
    requires Held(s) && n <= |s.lists|
    ensures Held(NominatePhase(s, n).0)
    decreases |s.lists| - n
  {
    hide Held, NominateComps, WantsNomination, InProgressIn, TakenElsewhere;
    if n < |s.lists| {
      HeldNominateComps(s, n, 0, TakenElsewhere(s, n, 0));
      HeldNominatePhase(NominateStream(s, n).0, n + 1);
    }
  }

  lemma HeldFailComponents(s: State)
    requires Held(s) && CompsOk(s.comps, |s.lists|)
    ensures Held(FailComponents(s))
  {
    hide Doomed, Completed;
    HeldFrom(s, FailComponents(s));
  }

  lemma HeldTimer(s: State, t: State)
    requires Held(s) && t == s.(timerOn := t.timerOn, idleDelay := t.idleDelay)
    ensures Held(t)
  {
    hide Doomed;
    SameComps(s.comps);
    HeldFrom(s, t);
  }

  /** A tick keeps every check in progress held. */
  lemma HeldTick(s: State, t: TickInput)
    requires Inv(s) && Held(s)
    ensures CompsOk(s.comps, |s.lists|) && Held(Tick(s, t).0)
  {
    hide Inv, Held, SendPhases, NominatePhase, FailComponents;
    CompsFact(s);
    HeldSends(s, t);
    var (s1, sent) := SendPhases(s, t);
    HeldNominatePhase(s1, 0);
    var (s2, kept) := NominatePhase(s1, 0);
    SendsInv(s, t);
    HeldFailComponents(s2);
    var s3 := if !(sent || kept) && !(s2.idleDelay + s2.cfg.ta < s2.cfg.idleTimeout) && !t.discovering
              then FailComponents(s2) else s2;
    HeldTimer(s3, Tick(s, t).0);
  }

  lemma SendsInv(s: State, t: TickInput)
    requires Inv(s)
    ensures CompsOk(NominatePhase(SendPhases(s, t).0, 0).0.comps, |NominatePhase(SendPhases(s, t).0, 0).0.lists|)
  {
    hide Inv, Thawed, GatheringIsEmpty, NominatedIsSelected, SendPhases, NominatePhase;
    SendPhasesKeep(s, t);
    NominatePhaseKeeps(SendPhases(s, t).0, 0);
    CompsFact(NominatePhase(SendPhases(s, t).0, 0).0);
  }

  // ----- a queue that nothing was sent from

  lemma {:induction false} TriggeredShrinks(s: State, streams: nat, t: TickInput)
    requires Inv(s) && streams > 0 && s.queue != [] && !TriggeredPhase(s, streams, t).1
    ensures |TriggeredPhase(s, streams, t).0.queue| < |s.queue|
  {
    hide Inv, Thawed, GatheringIsEmpty, NominatedIsSelected, Rejected, Started, FilterOut, Milder;
    var x := s.queue[0];
    QueueFact(s);
    FilterOutHead(s.queue);
    OwnerFact(s, x);
    var s1 := Dequeue(s, x);
    RejectedMild(s1, x);
    DequeuedInv(s, x);
    RejectedStaysInv(s1, x);
    TriggeredOk(Rejected(s1, x), streams - 1, t);
  }
}
