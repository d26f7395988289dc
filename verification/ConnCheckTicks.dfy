/** A tick keeps the invariants, sends at most one request, and sends the right one. */
module ConnCheckTicks {
  import opened Basics
  import opened ConnCheckState
  import opened ConnCheckSpec
  import opened ConnCheckInvariants
  import opened ConnCheckHandlers
  import opened ConnCheckTick

  // `Keeps`, except that nomination may find a valid pair that is no longer SUCCEEDED.
  predicate KeepsTick(s: State, t: State) {
    && Inv(t)
    && (Thawed(s.pairs) ==> Thawed(t.pairs))
    && (GatheringIsEmpty(s.pairs, s.comps) ==> GatheringIsEmpty(t.pairs, t.comps))
    && (NominatedIsSelected(s.pairs, s.comps) ==>
          NominatedIsSelected(t.pairs, t.comps) && (t.fault == s.fault || Unconfirmed(s.fault, t.fault)))
    && (Excused(s.fault, t.fault) || Unconfirmed(s.fault, t.fault))
  }

  predicate Unconfirmed(before: Fault, after: Fault) {
    before.NoFault? && after.ValidPairNotSucceeded?
  }

  // ----- the sending phases

  lemma RejectedKeeps(s: State, id: PairId)
    requires Inv(s) && id in s.pairs && HasComp(s, s.pairs[id].comp)
    ensures Keeps(s, Rejected(s, id))
  {
    hide Inv, Thawed, GatheringIsEmpty, NominatedIsSelected, UpdateForReady, FailPair;
    var p := s.pairs[id];
    var s1 := SetPair(s, id, p.(state := InProgress));
    SetPairKeeps(s, id, p.(state := InProgress));
    FailKeeps(s1, id);
    UpdateForReadyKeeps(FailPair(s1, id), p.comp);
  }

  lemma RejectedIsFailed(s: State, id: PairId)
    requires id in s.pairs && HasComp(s, s.pairs[id].comp)
    ensures Rejected(s, id) == UpdateForReady(FailPair(s, id), s.pairs[id].comp)
  {
    hide UpdateForReady, FailPair;
    FailOverwrites(s, id, s.pairs[id].(state := InProgress));
  }

  lemma FailOverwrites(s: State, id: PairId, p: Pair)
    requires id in s.pairs && s.pairs[id] == p.(state := s.pairs[id].state, stun := s.pairs[id].stun, retransmit := s.pairs[id].retransmit)
    ensures FailPair(SetPair(s, id, p), id) == FailPair(s, id)
  {
    var q := s.pairs[id].(state := FailedCheck, stun := [], retransmit := false);
    assert p.(state := FailedCheck, stun := [], retransmit := false) == q;
    assert s.pairs[id := p][id := q] == s.pairs[id := q];
  }

  lemma StartedKeeps(s: State, id: PairId, t: TickInput, o: SendOutcome)
    requires Inv(s) && id in s.pairs && o.SentOn?
    ensures Keeps(s, Started(s, id, t, o))
  {
    hide Inv, Thawed, GatheringIsEmpty, NominatedIsSelected;
    SetPairKeeps(s, id, Started(s, id, t, o).pairs[id]);
  }

  lemma InitiateKeeps(s: State, id: PairId, t: TickInput, what: Sent)
    requires Inv(s) && id in s.pairs && HasComp(s, s.pairs[id].comp)
    ensures Keeps(s, Initiate(s, id, t, what).0)
  {
    hide Inv, Thawed, GatheringIsEmpty, NominatedIsSelected, Rejected, Started;
    if t.send(id).NotSent? {
      RejectedKeeps(s, id);
    } else {
      StartedKeeps(s, id, t, t.send(id));
      TimerKeeps(Started(s, id, t, t.send(id)), Initiate(s, id, t, what).0);
    }
  }

  lemma {:induction false} TriggeredKeeps(s: State, streams: nat, t: TickInput)
    requires Inv(s)
    ensures Keeps(s, TriggeredPhase(s, streams, t).0)
    decreases streams
  {
    hide Inv, Thawed, GatheringIsEmpty, NominatedIsSelected, Initiate, FilterOut;
    if streams > 0 && s.queue != [] {
      var id := s.queue[0];
      DequeueKeeps(s, id);
      var s1 := Dequeue(s, id);
      if id in s.pairs && HasComp(s, s.pairs[id].comp) {
        InitiateKeeps(s1, id, t, Triggered(id));
        var (s2, sent) := Initiate(s1, id, t, Triggered(id));
        if !sent {
          TriggeredKeeps(s2, streams - 1, t);
        }
      }
    }
  }

  lemma TickPairKeeps(s: State, id: PairId, t: TickInput)
    requires Inv(s) && id in s.pairs && HasComp(s, s.pairs[id].comp)
    ensures Keeps(s, TickPair(s, id, t).0)
  {
    hide Inv, Thawed, GatheringIsEmpty, NominatedIsSelected, UpdateForReady, FailPair, ScanStun;
    var p := s.pairs[id];
    var scan := ScanStun(p.stun, true, p.retransmit, t);
    SetPairKeeps(s, id, p.(stun := scan.kept));
    if p.stun != [] && scan.resent {
      TimerKeeps(SetPair(s, id, p.(stun := scan.kept)), TickPair(s, id, t).0);
    }
    FailKeeps(s, id);
    UpdateForReadyKeeps(FailPair(s, id), p.comp);
  }

  lemma {:induction false} TickAlongKeeps(s: State, ids: seq<PairId>, t: TickInput)
    requires Inv(s)
    ensures Keeps(s, TickAlong(s, ids, t).0)
    decreases |ids|
  {
    hide Inv, Thawed, GatheringIsEmpty, NominatedIsSelected, TickPair;
    if ids != [] {
      if ids[0] in s.pairs && HasComp(s, s.pairs[ids[0]].comp) {
        TickPairKeeps(s, ids[0], t);
        TickAlongKeeps(TickPair(s, ids[0], t).0, ids[1..], t);
      } else {
        TickAlongKeeps(s, ids[1..], t);
      }
    }
  }

  lemma {:induction false} StunPhaseKeeps(s: State, n: nat, t: TickInput)
    requires Inv(s) && n <= |s.lists|
    ensures Keeps(s, StunPhase(s, n, t).0)
    decreases |s.lists| - n
  {
    hide Inv, Thawed, GatheringIsEmpty, NominatedIsSelected, TickAlong;
    if n < |s.lists| {
      TickAlongKeeps(s, s.lists[n], t);
      StunPhaseKeeps(TickAlong(s, s.lists[n], t).0, n + 1, t);
    }
  }

  lemma OrdinaryKeeps(s: State, n: nat, t: TickInput)
    requires Inv(s) && n < |s.lists|
    ensures Keeps(s, OrdinaryCheck(s, n, t).0)
  {
    hide Inv, Thawed, GatheringIsEmpty, NominatedIsSelected, UnfreezeNext, Initiate;
    UnfreezeNextKeeps(s);
    var s1 := if NextWaiting(s, n).None? then UnfreezeNext(s) else s;
    var w := NextWaiting(s1, n);
    if w.Some? && HasComp(s1, s1.pairs[w.value].comp) {
      InitiateKeeps(s1, w.value, t, Ordinary(w.value));
    }
  }

  lemma {:induction false} OrdinaryPhaseKeeps(s: State, n: nat, t: TickInput)
    requires Inv(s) && n <= |s.lists|
    ensures Keeps(s, OrdinaryPhase(s, n, t).0)
    decreases |s.lists| - n
  {
    hide Inv, Thawed, GatheringIsEmpty, NominatedIsSelected, OrdinaryCheck;
    if n < |s.lists| {
      OrdinaryKeeps(s, n, t);
      OrdinaryPhaseKeeps(OrdinaryCheck(s, n, t).0, n + 1, t);
    }
  }

  lemma SendPhasesKeep(s: State, t: TickInput)
    requires Inv(s)
    ensures Keeps(s, SendPhases(s, t).0)
  {
    hide Inv, Thawed, GatheringIsEmpty, NominatedIsSelected, TriggeredPhase, StunPhase, OrdinaryPhase;
    TriggeredKeeps(s, |s.lists|, t);
    var (s1, sent1) := TriggeredPhase(s, |s.lists|, t);
    StunPhaseKeeps(s1, 0, t);
    var (s2, sent2) := if sent1 then (s1, true) else StunPhase(s1, 0, t);
    OrdinaryPhaseKeeps(s2, 0, t);
  }

  // ----- nomination

  lemma NominateCompKeeps(s: State, n: nat, c: nat, elsewhere: Option<PairId>)
    requires Inv(s) && n < |s.lists|
    ensures KeepsTick(s, NominateComp(s, n, c, elsewhere).0)
  {
    hide Inv, Thawed, GatheringIsEmpty, NominatedIsSelected, Choose, Stopping, Enqueue;
    var other := TakenOther(s, n, c);
    var choice := Choose(s, c, s.lists[n], if other.Some? then other else elsewhere);
    AnyFaultKeepsInv(s, ValidPairNotSucceeded);
    if choice.pick.Some? && choice.pick.value in s.pairs {
      var q := choice.pick.value;
      SetPairKeeps(s, q, s.pairs[q].(useCandidate := true));
      EnqueueKeeps(SetPair(s, q, s.pairs[q].(useCandidate := true)), q);
    }
  }

  lemma AnyFaultKeepsInv(s: State, f: Fault)
    requires Inv(s)
    ensures Inv(Faulted(s, f))
  {
  }

  lemma {:induction false} NominateCompsKeeps(s: State, n: nat, c: nat, elsewhere: Option<PairId>)
    requires Inv(s) && n < |s.lists| && c <= |s.comps|
    ensures KeepsTick(s, NominateComps(s, n, c, elsewhere).0)
    decreases |s.comps| - c
  {
    hide Inv, Thawed, GatheringIsEmpty, NominatedIsSelected, NominateComp;
    if c < |s.comps| {
      NominateCompKeeps(s, n, c, elsewhere);
      NominateCompsKeeps(if s.comps[c].stream == n then NominateComp(s, n, c, elsewhere).0 else s, n, c + 1, elsewhere);
    }
  }

  lemma {:induction false} NominatePhaseKeeps(s: State, n: nat)
    requires Inv(s) && n <= |s.lists|
    ensures KeepsTick(s, NominatePhase(s, n).0)
    decreases |s.lists| - n
  {
    hide Inv, Thawed, GatheringIsEmpty, NominatedIsSelected, NominateComps, WantsNomination, InProgressIn,
      TakenElsewhere;
    if n < |s.lists| {
      NominateCompsKeeps(s, n, 0, TakenElsewhere(s, n, 0));
      NominatePhaseKeeps(NominateStream(s, n).0, n + 1);
    }
  }

  lemma FailComponentsKeep(s: State)
    requires Inv(s)
    ensures Keeps(s, FailComponents(s))
  {
    CompsFact(s);
    hide WellFormed, Sorted, Priced, Thawed, Completed;
    SwapComps(s, FailComponents(s).comps);
  }

  lemma CompsFact(s: State)
    requires Inv(s)
    ensures CompsOk(s.comps, |s.lists|)
  {
  }

  lemma TickKeeps(s: State, t: TickInput)
    requires Inv(s)
    ensures CompsOk(s.comps, |s.lists|)
    ensures KeepsTick(s, Tick(s, t).0)
  {
    hide Inv, Thawed, GatheringIsEmpty, NominatedIsSelected, SendPhases, NominatePhase, FailComponents;
    CompsFact(s);
    SendPhasesKeep(s, t);
    var (s1, sent) := SendPhases(s, t);
    NominatePhaseKeeps(s1, 0);
    var (s2, kept) := NominatePhase(s1, 0);
    CompsFact(s2);
    FailComponentsKeep(s2);
    TimerKeeps(s2, s2.(idleDelay := 0));
    TimerKeeps(s2, s2.(idleDelay := s2.idleDelay + s2.cfg.ta));
    var s3 := if t.discovering then s2 else FailComponents(s2);
    TimerKeeps(s3, s3.(timerOn := false, idleDelay := 0));
  }

  lemma {:induction false} ResentKept(xs: seq<Stun>, head: bool, retransmit: bool, t: TickInput)
    ensures ScanStun(xs, head, retransmit, t).resent ==> ScanStun(xs, head, retransmit, t).kept != []
  {
    if xs != [] {
      ResentKept(xs[1..], false, retransmit, t);
    }
  }
}
