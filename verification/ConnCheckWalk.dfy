/** The sending phases of a tick as a walk over the queue and the check lists: which pairs it meets, which
of them it gives up, and what the list update after a failure takes away. */
module ConnCheckWalk {
  import opened Basics
  import opened ConnCheckState
  import opened ConnCheckSpec
  import opened ConnCheckInvariants
  import opened ConnCheckSockets
  import opened ConnCheckSelection
  import opened ConnCheckTick
  import opened ConnCheckTicks
  import opened ConnCheckConfirm

  // ----- what the walk meets and gives up

  // All transactions of the pair run out, and none is sent again.
  predicate RunsOut(p: Pair, t: TickInput) {
    p.stun != [] && ScanStun(p.stun, true, p.retransmit, t) == StunScan([], false)
  }

  // The triggered-check phase pops the pair `x`.
  predicate Popped(s: State, streams: nat, t: TickInput, x: PairId)
    decreases streams
  {
    streams > 0 && s.queue != [] &&
    (var y := s.queue[0];
     x == y || (y in s.pairs && HasComp(s, s.pairs[y].comp) && t.send(y).NotSent? &&
                Popped(Rejected(Dequeue(s, y), y), streams - 1, t, x)))
  }

  // It pops a pair of `xs` that cannot be sent.
  predicate TriggeredFails(s: State, streams: nat, t: TickInput, xs: set<PairId>)
    decreases streams
  {
    streams > 0 && s.queue != [] &&
    (var y := s.queue[0];
     y in s.pairs && HasComp(s, s.pairs[y].comp) && t.send(y).NotSent? &&
     (y in xs || TriggeredFails(Rejected(Dequeue(s, y), y), streams - 1, t, xs)))
  }

  // The pass over the transactions of a list meets a pair of `xs` whose transactions run out.
  predicate AlongFails(s: State, ids: seq<PairId>, t: TickInput, xs: set<PairId>)
    decreases |ids|
  {
    ids != [] &&
    if !(ids[0] in s.pairs && HasComp(s, s.pairs[ids[0]].comp)) then AlongFails(s, ids[1..], t, xs)
    else
      || (ids[0] in xs && RunsOut(s.pairs[ids[0]], t))
      || (!TickPair(s, ids[0], t).1 && AlongFails(TickPair(s, ids[0], t).0, ids[1..], t, xs))
  }

  predicate StunFails(s: State, n: nat, t: TickInput, xs: set<PairId>)
    requires n <= |s.lists|
    decreases |s.lists| - n
  {
    n < |s.lists| &&
    (AlongFails(s, s.lists[n], t, xs) ||
     (!TickAlong(s, s.lists[n], t).1 && StunFails(TickAlong(s, s.lists[n], t).0, n + 1, t, xs)))
  }

  // The next WAITING pair of some stream is one of `xs` and cannot be sent.
  predicate OrdinaryFails(s: State, n: nat, t: TickInput, xs: set<PairId>)
    requires n <= |s.lists|
    decreases |s.lists| - n
  {
    n < |s.lists| &&
    (var s1 := if NextWaiting(s, n).None? then UnfreezeNext(s) else s;
     var w := NextWaiting(s1, n);
     || (w.Some? && HasComp(s1, s1.pairs[w.value].comp) && t.send(w.value).NotSent? && w.value in xs)
     || (!OrdinaryCheck(s, n, t).1 && OrdinaryFails(OrdinaryCheck(s, n, t).0, n + 1, t, xs)))
  }

  /** The sending phases give up a pair of `xs`: popped or next WAITING but not sendable, or out of transactions. */
  predicate GivesUp(s: State, t: TickInput, xs: set<PairId>) {
    var (s1, sent1) := TriggeredPhase(s, |s.lists|, t);
    var (s2, sent2) := StunPhase(s1, 0, t);
    || TriggeredFails(s, |s.lists|, t, xs)
    || (!sent1 && StunFails(s1, 0, t, xs))
    || (!sent1 && !sent2 && OrdinaryFails(s2, 0, t, xs))
  }

  // ----- a pair given up

  function GivenUp(s: State, y: PairId): (t: State)
    requires y in s.pairs && s.pairs[y].comp < |s.comps|
    ensures SameBase(s, t)
  {
    UpdateForReady(FailPair(s, y), s.pairs[y].comp)
  }

  function Zeroed(before: Fault, fails: bool): Fault {
    if before.NoFault? && fails then ZeroSelectedPriority else before
  }

  lemma UpdateFault(s: State, c: nat)
    requires c < |s.comps|
    ensures UpdateForReady(s, c).fault == Zeroed(s.fault, Exposed(s, c))
  {
    hide PruneCounts, HasValidNominated, PrunePending, ConcludeReady;
    PruneFault(s, c);
    ConcludeFault(PrunePending(s, c), c);
  }

  lemma GivenUpFault(s: State, y: PairId)
    requires y in s.pairs && s.pairs[y].comp < |s.comps|
    ensures GivenUp(s, y).fault == Zeroed(s.fault, Exposed(s, s.pairs[y].comp))
  {
    hide UpdateForReady, FailPair, HasValidNominated, SameNominated;
    FailSame(s, y);
    NominatedSame(s, FailPair(s, y), s.pairs[y].comp);
    UpdateFault(FailPair(s, y), s.pairs[y].comp);
  }

  // ----- exposure is stable

  function ExposedPairs(s: State): set<PairId> {
    set x | x in s.pairs && Exposed(s, s.pairs[x].comp)
  }

  // Flags, owners and selections stay, and no pair of an exposed component goes.
  predicate SameExposure(s: State, t: State) {
    && OnlyStates(s.comps, t.comps)
    && (forall x :: x in t.pairs ==> x in s.pairs && SameStanding(s.pairs[x], t.pairs[x]))
    && (forall x :: x in s.pairs && Exposed(s, s.pairs[x].comp) ==> x in t.pairs)
  }

  predicate SameStanding(p: Pair, q: Pair) {
    q.comp == p.comp && q.valid == p.valid && q.nominated == p.nominated
  }

  lemma ExposedStays(s: State, t: State, c: nat)
    requires SameExposure(s, t)
    ensures Exposed(t, c) == Exposed(s, c)
  {
    if c < |s.comps| {
      assert t.comps[c].(state := s.comps[c].state) == s.comps[c];
    }
    if Exposed(s, c) {
      var x :| x in s.pairs && s.pairs[x].comp == c && s.pairs[x].valid && s.pairs[x].nominated;
      assert x in t.pairs && SameStanding(s.pairs[x], t.pairs[x]);
    }
    if Exposed(t, c) {
      var x :| x in t.pairs && t.pairs[x].comp == c && t.pairs[x].valid && t.pairs[x].nominated;
      assert SameStanding(s.pairs[x], t.pairs[x]);
    }
  }

  lemma ExposedSame(s: State, t: State)
    requires SameExposure(s, t)
    ensures ExposedPairs(t) == ExposedPairs(s)
  {
    hide Exposed;
    forall x: PairId
      ensures x in ExposedPairs(t) <==> x in ExposedPairs(s)
    {
      if x in t.pairs {
        assert SameStanding(s.pairs[x], t.pairs[x]);
        ExposedStays(s, t, t.pairs[x].comp);
      }
    }
  }

  lemma ExposureTrans(s: State, t: State, u: State)
    requires SameExposure(s, t) && SameExposure(t, u)
    ensures SameExposure(s, u)
  {
    forall x | x in s.pairs && Exposed(s, s.pairs[x].comp)
      ensures x in u.pairs
    {
      assert x in t.pairs && SameStanding(s.pairs[x], t.pairs[x]);
      ExposedStays(s, t, s.pairs[x].comp);
    }
    hide Exposed;
  }

  // One pair changes in what no flag depends on.
  lemma SetPairExposure(s: State, y: PairId, p: Pair)
    requires y in s.pairs && SameStanding(s.pairs[y], p)
    ensures SameExposure(s, SetPair(s, y, p))
  {
    hide Exposed;
    StepOver(s);
  }

  lemma PairsExposure(s: State, t: State)
    requires t.pairs == s.pairs && t.comps == s.comps
    ensures SameExposure(s, t)
  {
    hide Exposed;
    StepOver(s);
  }

  lemma GivenUpExposure(s: State, y: PairId)
    requires y in s.pairs && s.pairs[y].comp < |s.comps|
    ensures SameExposure(s, GivenUp(s, y))
  {
    hide UpdateForReady, FailPair, HasValidNominated, Thinned;
    var f, c := FailPair(s, y), s.pairs[y].comp;
    var t := GivenUp(s, y);
    FailThins(s, y);
    UpdateForReadyThins(f, c);
    ThinsTrans(s, f, t);
    forall x | x in t.pairs
      ensures x in s.pairs && SameStanding(s.pairs[x], t.pairs[x])
    {
      ThinnedStanding(s.pairs[x], t.pairs[x]);
    }
    forall x | x in s.pairs && Exposed(s, s.pairs[x].comp)
      ensures x in t.pairs
    {
      UpdateForReadyKept(f, c, x);
      ThinnedStanding(s.pairs[x], f.pairs[x]);
      assert f.comps == s.comps by { FailComps(s, y); }
    }
  }

  lemma ThinnedStanding(p: Pair, q: Pair)
    requires Thinned(p, q)
    ensures SameStanding(p, q)
  {
  }

  lemma FailComps(s: State, y: PairId)
    requires y in s.pairs
    ensures FailPair(s, y).comps == s.comps && FailPair(s, y).queue == s.queue
  {
  }

  lemma UnfreezeExposure(s: State)
    ensures SameExposure(s, UnfreezeNext(s)) && UnfreezeNext(s).fault == s.fault
  {
    hide UnfreezeAlong, Flat, Exposed;
    UnfreezeAlongTame(s.pairs, Flat(s.lists), {});
    StepOver(s);
  }

  // ----- the assertion on the selected priority, phase by phase

  lemma PoppedUp(s: State, y: PairId)
    requires y in s.pairs && HasComp(s, s.pairs[y].comp)
    ensures Rejected(Dequeue(s, y), y) == GivenUp(Dequeue(s, y), y)
  {
    hide FilterOut;
    RejectedIsFailed(Dequeue(s, y), y);
  }

  lemma {:induction false} TriggeredZero(s: State, streams: nat, t: TickInput)
    ensures TriggeredPhase(s, streams, t).0.fault == Zeroed(s.fault, TriggeredFails(s, streams, t, ExposedPairs(s)))
    ensures !TriggeredPhase(s, streams, t).1 ==> SameExposure(s, TriggeredPhase(s, streams, t).0)
    decreases streams
  {
    hide Rejected, Started, FilterOut, Exposed, SameExposure, GivenUp;
    PairsExposure(s, s);
    if streams > 0 && s.queue != [] {
      var y := s.queue[0];
      var s1 := Dequeue(s, y);
      PairsExposure(s, s1);
      ExposedSame(s, s1);
      if y in s.pairs && HasComp(s, s.pairs[y].comp) && t.send(y).NotSent? {
        PoppedUp(s, y);
        GivenUpFault(s1, y);
        GivenUpExposure(s1, y);
        ExposureTrans(s, s1, GivenUp(s1, y));
        ExposedSame(s, GivenUp(s1, y));
        ExposedStays(s, s1, s.pairs[y].comp);
        TriggeredZero(GivenUp(s1, y), streams - 1, t);
        if !TriggeredPhase(s, streams, t).1 {
          ExposureTrans(s, GivenUp(s1, y), TriggeredPhase(s, streams, t).0);
        }
      } else if y in s.pairs && HasComp(s, s.pairs[y].comp) {
        StartedFault(s1, y, t, t.send(y));
      }
    }
  }

  lemma StartedFault(s: State, y: PairId, t: TickInput, o: SendOutcome)
    requires y in s.pairs && o.SentOn?
    ensures Started(s, y, t, o).fault == s.fault
  {
  }

  lemma TickPairZero(s: State, y: PairId, t: TickInput)
    requires y in s.pairs && HasComp(s, s.pairs[y].comp)
    ensures var r := TickPair(s, y, t);
            && r.0.fault == Zeroed(s.fault, RunsOut(s.pairs[y], t) && Exposed(s, s.pairs[y].comp))
            && SameExposure(s, r.0) && (RunsOut(s.pairs[y], t) ==> !r.1 && r.0 == GivenUp(s, y))
  {
    hide UpdateForReady, FailPair, ScanStun, Exposed, SameExposure;
    var p := s.pairs[y];
    var scan := ScanStun(p.stun, true, p.retransmit, t);
    PairsExposure(s, s);
    GivenUpFault(s, y);
    GivenUpExposure(s, y);
    var kept := SetPair(s, y, p.(stun := scan.kept));
    SetPairExposure(s, y, p.(stun := scan.kept));
    PairsExposure(kept, kept.(sent := s.sent + [Retransmitted(y)]));
    ExposureTrans(s, kept, kept.(sent := s.sent + [Retransmitted(y)]));
  }

  lemma {:induction false} TickAlongZero(s: State, ids: seq<PairId>, t: TickInput)
    ensures TickAlong(s, ids, t).0.fault == Zeroed(s.fault, AlongFails(s, ids, t, ExposedPairs(s)))
    ensures SameExposure(s, TickAlong(s, ids, t).0)
    decreases |ids|
  {
    hide TickPair, Exposed, SameExposure, RunsOut, GivenUp;
    PairsExposure(s, s);
    if ids != [] {
      if ids[0] in s.pairs && HasComp(s, s.pairs[ids[0]].comp) {
        TickPairZero(s, ids[0], t);
        var s1 := TickPair(s, ids[0], t).0;
        ExposedSame(s, s1);
        TickAlongZero(s1, ids[1..], t);
        ExposureTrans(s, s1, TickAlong(s1, ids[1..], t).0);
      } else {
        TickAlongZero(s, ids[1..], t);
      }
    }
  }

  lemma {:induction false} StunPhaseZero(s: State, n: nat, t: TickInput)
    requires n <= |s.lists|
    ensures StunPhase(s, n, t).0.fault == Zeroed(s.fault, StunFails(s, n, t, ExposedPairs(s)))
    ensures SameExposure(s, StunPhase(s, n, t).0)
    decreases |s.lists| - n
  {
    hide TickAlong, SameExposure, AlongFails, ExposedPairs;
    PairsExposure(s, s);
    if n < |s.lists| {
      TickAlongZero(s, s.lists[n], t);
      var s1 := TickAlong(s, s.lists[n], t).0;
      ExposedSame(s, s1);
      StunPhaseZero(s1, n + 1, t);
      ExposureTrans(s, s1, StunPhase(s1, n + 1, t).0);
    }
  }

  lemma OrdinaryZero(s: State, n: nat, t: TickInput)
    requires n < |s.lists|
    ensures var s1 := if NextWaiting(s, n).None? then UnfreezeNext(s) else s;
            var w := NextWaiting(s1, n);
            var r := OrdinaryCheck(s, n, t);
            && r.0.fault == Zeroed(s.fault, w.Some? && HasComp(s1, s1.pairs[w.value].comp) && t.send(w.value).NotSent? &&
                                            w.value in ExposedPairs(s))
            && (!r.1 ==> SameExposure(s, r.0))
  {
    hide UnfreezeNext, Rejected, Started, Exposed, SameExposure, GivenUp;
    PairsExposure(s, s);
    UnfreezeExposure(s);
    var s1 := if NextWaiting(s, n).None? then UnfreezeNext(s) else s;
    ExposedSame(s, s1);
    var w := NextWaiting(s1, n);
    if w.Some? && HasComp(s1, s1.pairs[w.value].comp) {
      if t.send(w.value).NotSent? {
        RejectedIsFailed(s1, w.value);
        assert Rejected(s1, w.value) == GivenUp(s1, w.value) by { GivenUpIs(s1, w.value); }
        GivenUpFault(s1, w.value);
        GivenUpExposure(s1, w.value);
        ExposureTrans(s, s1, GivenUp(s1, w.value));
      } else {
        StartedFault(s1, w.value, t, t.send(w.value));
      }
    }
  }

  lemma GivenUpIs(s: State, y: PairId)
    requires y in s.pairs && s.pairs[y].comp < |s.comps|
    ensures GivenUp(s, y) == UpdateForReady(FailPair(s, y), s.pairs[y].comp)
  {
  }

  lemma {:induction false} OrdinaryPhaseZero(s: State, n: nat, t: TickInput)
    requires n <= |s.lists|
    ensures OrdinaryPhase(s, n, t).0.fault == Zeroed(s.fault, OrdinaryFails(s, n, t, ExposedPairs(s)))
    decreases |s.lists| - n
  {
    hide OrdinaryCheck, SameExposure, ExposedPairs, UnfreezeNext, First;
    if n < |s.lists| {
      OrdinaryZero(s, n, t);
      var (s1, sent) := OrdinaryCheck(s, n, t);
      if !sent {
        ExposedSame(s, s1);
        OrdinaryPhaseZero(s1, n + 1, t);
      }
    }
  }

  lemma SendPhasesZero(s: State, t: TickInput)
    ensures SendPhases(s, t).0.fault == Zeroed(s.fault, GivesUp(s, t, ExposedPairs(s)))
  {
    hide TriggeredPhase, StunPhase, OrdinaryPhase, TriggeredFails, StunFails, OrdinaryFails, ExposedPairs, SameExposure;
    TriggeredZero(s, |s.lists|, t);
    var (s1, sent1) := TriggeredPhase(s, |s.lists|, t);
    if !sent1 {
      ExposedSame(s, s1);
      StunPhaseZero(s1, 0, t);
      var (s2, sent2) := StunPhase(s1, 0, t);
      if !sent2 {
        ExposedSame(s1, s2);
        OrdinaryPhaseZero(s2, 0, t);
      }
    }
  }

  /** In a tick the assertion on the selected priority fails exactly when the sending phases give up a pair of
      an exposed component. */
  lemma TickZero(s: State, t: TickInput)
    requires Inv(s) && s.fault.NoFault?
    ensures CompsOk(s.comps, |s.lists|)
    ensures Tick(s, t).0.fault.ZeroSelectedPriority? <==> GivesUp(s, t, ExposedPairs(s))
    ensures !Tick(s, t).0.fault.SelectionMissing?
  {
    hide Inv, Thawed, GatheringIsEmpty, NominatedIsSelected, SendPhases, NominatePhase, PhaseTrips, LinksOk, GivesUp, ExposedPairs;
    LinksFact(s);
    SendPhasesKeep(s, t);
    SendPhasesZero(s, t);
    var u := SendPhases(s, t).0;
    LinksFact(u);
    NominatePhaseFault(u, 0);
  }
}
