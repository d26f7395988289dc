/** The measure of ConnCheckSilence decreases with every tick, so the timer of a silent run stops. */
module ConnCheckTermination {
  import opened Basics
  import opened ConnCheckState
  import opened ConnCheckSpec
  import opened ConnCheckInvariants
  import opened ConnCheckHandlers
  import opened ConnCheckTick
  import opened ConnCheckTicks
  import opened ConnCheckSilence
  import opened ConnCheckHeld

  // ----- transactions

  predicate NotDue(p: Pair, now: int) {
    forall x :: x in p.stun ==> x.nextTick > now
  }

  lemma {:induction false} ScanFacts(xs: seq<Stun>, head: bool, retransmit: bool, t: TickInput)
    ensures var r := ScanStun(xs, head, retransmit, t);
            && StunWork(r.kept) <= StunWork(xs)
            && (r.resent ==> head && r.kept != [] && StunWork(r.kept) < StunWork(xs))
            && (!r.resent && StunWork(r.kept) == StunWork(xs) ==> StunTime(r.kept, t.now) <= StunTime(xs, t.now))
            && (!r.resent ==> forall x :: x in r.kept ==> x.nextTick > t.now)
  {
    if xs != [] {
      var rest := ScanStun(xs[1..], false, retransmit, t);
      ScanFacts(xs[1..], false, retransmit, t);
      var r := ScanStun(xs, head, retransmit, t);
      if t.now < xs[0].nextTick {
        assert r.kept[1..] == rest.kept;
      } else {
        match Refresh(xs[0], t) {
          case Timeout =>
          case Retransmit(x) =>
            if head && retransmit {
              assert r.kept[1..] == xs[1..];
            }
          case Running(x) =>
            assert r.kept[1..] == rest.kept;
        }
      }
    }
  }

  // Nobody new, owners stay, and what was not due or has just been looked at is not due.
  predicate Aged(pairs: map<PairId, Pair>, pairs': map<PairId, Pair>, now: int, seen: seq<PairId>) {
    forall x :: x in pairs' ==>
      && x in pairs && pairs'[x].comp == pairs[x].comp
      && (x in seen || NotDue(pairs[x], now) ==> NotDue(pairs'[x], now))
  }

  // Like PhaseOk, for the phase in which transactions age.
  predicate StunOk(s: State, r: (State, bool), now: int, seen: seq<PairId>) {
    if r.1 then Work(r.0) < Work(s) else Calmer(s, r.0, now) && Aged(s.pairs, r.0.pairs, now, seen)
  }

  lemma MildAged(s: State, t: State, now: int)
    requires Mild(s, t)
    ensures Aged(s.pairs, t.pairs, now, [])
  {
  }

  lemma RescannedCalmer(s: State, id: PairId, kept: seq<Stun>, now: int)
    requires id in s.pairs
    requires StunWork(kept) <= StunWork(s.pairs[id].stun)
    requires StunWork(kept) == StunWork(s.pairs[id].stun) ==> StunTime(kept, now) <= StunTime(s.pairs[id].stun, now)
    ensures Calmer(s, SetPair(s, id, s.pairs[id].(stun := kept)), now)
  {
    hide StunWork, StunTime, Work, Time;
    var t := SetPair(s, id, s.pairs[id].(stun := kept));
    forall x: nat | x < s.nextPair
      ensures PairCalmer(s.pairs, t.pairs, s.cfg, now, x)
    {
    }
    hide Calmer;
    PointwiseCalmer(s, t, now);
  }

  lemma ResentLess(s: State, id: PairId, kept: seq<Stun>)
    requires id in s.pairs && id < s.nextPair && StunWork(kept) < StunWork(s.pairs[id].stun)
    ensures Work(SetPair(s, id, s.pairs[id].(stun := kept))) < Work(s)
  {
    hide StunWork, WorkBelow;
    OneChanged(s.pairs, s.pairs[id].(stun := kept), s.cfg, id, s.nextPair);
  }

  lemma TickPairOk(s: State, id: PairId, t: TickInput)
    requires id in s.pairs && HasComp(s, s.pairs[id].comp) && id < s.nextPair
    ensures StunOk(s, TickPair(s, id, t), t.now, [id])
  {
    hide ScanStun, UpdateForReady, FailPair, Work, Milder, Calmer;
    var p := s.pairs[id];
    var scan := ScanStun(p.stun, true, p.retransmit, t);
    ScanFacts(p.stun, true, p.retransmit, t);
    if p.stun == [] {
      SelfMild(s);
      MildCalmer(s, s, t.now);
    } else if scan.resent {
      ResentLess(s, id, scan.kept);
      SentIrrelevant(SetPair(s, id, p.(stun := scan.kept)), TickPair(s, id, t).0);
    } else if scan.kept != [] {
      RescannedCalmer(s, id, scan.kept, t.now);
    } else {
      GivenUp(s, id, t.now);
    }
  }

  lemma GivenUp(s: State, id: PairId, now: int)
    requires id in s.pairs && HasComp(s, s.pairs[id].comp)
    ensures StunOk(s, (UpdateForReady(FailPair(s, id), s.pairs[id].comp), false), now, [id])
  {
    hide UpdateForReady, FailPair, Work, Milder, Calmer, NotDue;
    var f := FailPair(s, id);
    var u := UpdateForReady(f, s.pairs[id].comp);
    FailMild(s, id);
    UpdateForReadyMild(f, s.pairs[id].comp);
    MildTrans(s, f, u);
    MildCalmer(s, u, now);
    MildAged(s, f, now);
    MildAged(f, u, now);
    FailedNotDue(s, id, now);
  }

  lemma FailedNotDue(s: State, id: PairId, now: int)
    requires id in s.pairs
    ensures id in FailPair(s, id).pairs && NotDue(FailPair(s, id).pairs[id], now)
  {
  }

  lemma CalmerTrans(s: State, t: State, u: State, now: int)
    requires Calmer(s, t, now) && Calmer(t, u, now)
    ensures Calmer(s, u, now)
  {
  }

  lemma StunThen(s: State, t: State, r: (State, bool), now: int, a: seq<PairId>, b: seq<PairId>)
    requires StunOk(s, (t, false), now, a) && StunOk(t, r, now, b)
    ensures StunOk(s, r, now, a + b)
  {
    hide Work, Time, NotDue;
    if !r.1 {
      CalmerTrans(s, t, r.0, now);
    }
  }

  lemma {:induction false} TickAlongOk(s: State, ids: seq<PairId>, t: TickInput)
    requires Inv(s)
    ensures StunOk(s, TickAlong(s, ids, t), t.now, ids)
    decreases |ids|
  {
    hide Inv, TickPair, StunOk, Keeps;
    if ids == [] {
      SelfStunOk(s, t.now);
    } else if ids[0] in s.pairs && HasComp(s, s.pairs[ids[0]].comp) {
      BelowNext(s, ids[0]);
      TickPairOk(s, ids[0], t);
      var (s1, sent) := TickPair(s, ids[0], t);
      if sent {
        StunOkSent(s, s1, t.now, [ids[0]], ids);
      } else {
        TickPairStaysInv(s, ids[0], t);
        TickAlongOk(s1, ids[1..], t);
        StunThen(s, s1, TickAlong(s1, ids[1..], t), t.now, [ids[0]], ids[1..]);
        assert [ids[0]] + ids[1..] == ids;
      }
    } else {
      TickAlongOk(s, ids[1..], t);
      SelfStunOk(s, t.now);
      if ids[0] !in s.pairs {
        AbsentStunOk(s, TickAlong(s, ids[1..], t), t.now, ids);
      } else {
        OwnerFact(s, ids[0]);
      }
    }
  }

  lemma AbsentStunOk(s: State, r: (State, bool), now: int, ids: seq<PairId>)
    requires ids != [] && ids[0] !in s.pairs && StunOk(s, r, now, ids[1..])
    ensures StunOk(s, r, now, ids)
  {
    hide Work, Time, NotDue, Calmer;
  }

  lemma SelfStunOk(s: State, now: int)
    ensures StunOk(s, (s, false), now, [])
  {
  }

  lemma StunOkSent(s: State, t: State, now: int, a: seq<PairId>, b: seq<PairId>)
    requires StunOk(s, (t, true), now, a)
    ensures StunOk(s, (t, true), now, b)
  {
  }

  lemma TickPairStaysInv(s: State, id: PairId, t: TickInput)
    requires Inv(s) && id in s.pairs && HasComp(s, s.pairs[id].comp)
    ensures Inv(TickPair(s, id, t).0)
  {
    hide Inv, TickPair;
    TickPairKeeps(s, id, t);
  }

  // The streams from `n` on have been looked at.
  predicate AgedFrom(s: State, t: State, now: int, n: nat) {
    forall x :: x in t.pairs ==>
      && x in s.pairs && t.pairs[x].comp == s.pairs[x].comp && s.pairs[x].comp < |s.comps|
      && (n <= s.comps[s.pairs[x].comp].stream || NotDue(s.pairs[x], now) ==> NotDue(t.pairs[x], now))
  }

  lemma {:induction false} StunPhaseOk(s: State, n: nat, t: TickInput)
    requires Inv(s) && n <= |s.lists|
    ensures var (r, sent) := StunPhase(s, n, t);
            if sent then Work(r) < Work(s) else Calmer(s, r, t.now) && AgedFrom(s, r, t.now, n)
    decreases |s.lists| - n
  {
    hide Inv, TickAlong, Work, NotDue, Keeps, Time;
    if n == |s.lists| {
      NoStreamLeft(s, t.now);
    } else {
      TickAlongOk(s, s.lists[n], t);
      var (s1, sent) := TickAlong(s, s.lists[n], t);
      if !sent {
        TickAlongStaysInv(s, s.lists[n], t);
        StunPhaseOk(s1, n + 1, t);
        var (r, sent') := StunPhase(s1, n + 1, t);
        if !sent' {
          AgedStep(s, s1, r, t.now, n);
        }
      }
    }
  }

  lemma NoStreamLeft(s: State, now: int)
    requires Inv(s)
    ensures AgedFrom(s, s, now, |s.lists|)
  {
    hide NotDue;
  }

  lemma TickAlongStaysInv(s: State, ids: seq<PairId>, t: TickInput)
    requires Inv(s)
    ensures Inv(TickAlong(s, ids, t).0)
  {
    hide Inv, TickAlong;
    TickAlongKeeps(s, ids, t);
  }

  lemma AgedStep(s: State, s1: State, r: State, now: int, n: nat)
    requires Inv(s) && n < |s.lists| && SameShape(s, s1)
    requires Aged(s.pairs, s1.pairs, now, s.lists[n]) && AgedFrom(s1, r, now, n + 1)
    ensures AgedFrom(s, r, now, n)
  {
    hide Inv, NotDue;
    forall x | x in r.pairs
      ensures && x in s.pairs && r.pairs[x].comp == s.pairs[x].comp && s.pairs[x].comp < |s.comps|
              && (n <= s.comps[s.pairs[x].comp].stream || NotDue(s.pairs[x], now) ==> NotDue(r.pairs[x], now))
    {
      InOwnList(s, x);
    }
  }

  lemma InOwnList(s: State, x: PairId)
    requires Inv(s)
    ensures x in s.pairs ==> HasComp(s, s.pairs[x].comp) && x in StreamList(s, s.pairs[x].comp)
  {
  }

  /** The sending phases: a request means less work; without one, nothing is due any more. */
  lemma SendPhasesOk(s: State, t: TickInput)
    requires Inv(s)
    ensures var (r, sent) := SendPhases(s, t);
            if sent then Work(r) < Work(s)
            else Calmer(s, r, t.now) && forall x :: x in r.pairs ==> NotDue(r.pairs[x], t.now)
  {
    hide Inv, Work, Time, NotDue, Keeps, TriggeredPhase, StunPhase, OrdinaryPhase, Milder;
    TriggeredOk(s, |s.lists|, t);
    var (s1, sent1) := TriggeredPhase(s, |s.lists|, t);
    if !sent1 {
      MildCalmer(s, s1, t.now);
      TriggeredStaysInv(s, t);
      StunPhaseOk(s1, 0, t);
      var (s2, sent2) := StunPhase(s1, 0, t);
      if !sent2 {
        StunStaysInv(s1, t);
        OrdinaryPhaseOk(s2, 0, t);
        var (s3, sent3) := OrdinaryPhase(s2, 0, t);
        CalmerTrans(s, s1, s2, t.now);
        if !sent3 {
          MildCalmer(s2, s3, t.now);
          CalmerTrans(s, s2, s3, t.now);
          MildAged(s2, s3, t.now);
        }
      }
    }
  }

  lemma TriggeredStaysInv(s: State, t: TickInput)
    requires Inv(s)
    ensures Inv(TriggeredPhase(s, |s.lists|, t).0)
  {
    hide Inv, TriggeredPhase;
    TriggeredKeeps(s, |s.lists|, t);
  }

  lemma StunStaysInv(s: State, t: TickInput)
    requires Inv(s)
    ensures Inv(StunPhase(s, 0, t).0)
  {
    hide Inv, StunPhase;
    StunPhaseKeeps(s, 0, t);
  }

  // ----- nomination

  // Either a pair was picked, and there is less work, or pairs and queue are as before.
  predicate PickOk(s: State, t: State, picked: bool) {
    if picked then Work(t) < Work(s)
    else t.pairs == s.pairs && t.queue == s.queue && t.lists == s.lists
  }

  lemma {:induction false} ChooseEligible(s: State, c: nat, ids: seq<PairId>, like: Option<PairId>)
    ensures var pick := Choose(s, c, ids, like).pick;
            pick.Some? ==> exists x :: x in ids && Eligible(s, c, x) && pick.value == Parent(s, x)
  {
    if ids != [] {
      ChooseEligible(s, c, ids[1..], like);
      var pick := Choose(s, c, ids, like).pick;
      if pick.Some? {
        if Eligible(s, c, ids[0]) && pick.value == Parent(s, ids[0]) {
        } else {
          var x :| x in ids[1..] && Eligible(s, c, x) && pick.value == Parent(s, x);
          assert x in ids;
        }
      }
    }
  }

  lemma ParentListed(s: State, n: nat, x: PairId)
    requires Inv(s) && n < |s.lists| && x in s.lists[n] && x in s.pairs
    ensures var q := Parent(s, x);
            q in s.pairs && s.pairs[q].comp == s.pairs[x].comp && q in s.lists[n] && q < s.nextPair
  {
    hide Sorted, Priced, ReadyIsClean, DisconnectedIsEmpty, NominatedIsSelected;
    assert ListOk(s.lists[n], n, s.pairs, s.comps);
  }

  lemma PickedLess(s: State, q: PairId)
    requires q in s.pairs && q < s.nextPair && !s.pairs[q].useCandidate
    ensures var t := Enqueue(SetPair(s, q, s.pairs[q].(useCandidate := true)), q);
            Work(t) < Work(s)
  {
    hide WorkBelow, StunWork;
    OneChanged(s.pairs, s.pairs[q].(useCandidate := true), s.cfg, q, s.nextPair);
    QueueGrows(s.cfg, |s.queue|);
  }

  lemma QueueGrows(cfg: Config, a: nat)
    ensures CheckCost(cfg) * (a + 1) == CheckCost(cfg) * a + CheckCost(cfg)
  {
  }

  lemma NominateCompOk(s: State, n: nat, c: nat, elsewhere: Option<PairId>)
    requires Inv(s) && n < |s.lists|
    ensures var (t, picked) := NominateComp(s, n, c, elsewhere); PickOk(s, t, picked)
  {
    hide Inv, Choose, Stopping, Work, Enqueue, Parent;
    var ids := s.lists[n];
    var other := First(ids, id => id in s.pairs && s.pairs[id].comp != c && Taken(s, id));
    var like := if other.Some? then other else elsewhere;
    ChooseEligible(s, c, ids, like);
    var choice := Choose(s, c, ids, like);
    var (t, picked) := NominateComp(s, n, c, elsewhere);
    if picked {
      var x :| x in ids && Eligible(s, c, x) && choice.pick.value == Parent(s, x);
      ParentListed(s, n, x);
      PickedLess(s, choice.pick.value);
    }
  }

  lemma {:induction false} NominateCompsOk(s: State, n: nat, c: nat, elsewhere: Option<PairId>)
    requires Inv(s) && n < |s.lists| && c <= |s.comps|
    ensures var (t, picked) := NominateComps(s, n, c, elsewhere); PickOk(s, t, picked)
    decreases |s.comps| - c
  {
    hide Inv, NominateComp, Work;
    if c < |s.comps| {
      var (s1, a) := if s.comps[c].stream == n then NominateComp(s, n, c, elsewhere) else (s, false);
      if s.comps[c].stream == n {
        NominateCompOk(s, n, c, elsewhere);
        NominateCompStaysInv(s, n, c, elsewhere);
      }
      NominateCompsOk(s1, n, c + 1, elsewhere);
      var (s2, b) := NominateComps(s1, n, c + 1, elsewhere);
      PickChain(s, s1, s2, a, b);
    }
  }

  lemma PickChain(s: State, t: State, u: State, a: bool, b: bool)
    requires SameCore(s, t) && SameCore(t, u) && PickOk(s, t, a) && PickOk(t, u, b)
    ensures PickOk(s, u, a || b)
  {
  }

  lemma NominateCompStaysInv(s: State, n: nat, c: nat, elsewhere: Option<PairId>)
    requires Inv(s) && n < |s.lists|
    ensures Inv(NominateComp(s, n, c, elsewhere).0)
  {
    hide Inv, NominateComp;
    NominateCompKeeps(s, n, c, elsewhere);
  }

  lemma NominateCompsStayInv(s: State, n: nat, c: nat, elsewhere: Option<PairId>)
    requires Inv(s) && n < |s.lists| && c <= |s.comps|
    ensures Inv(NominateComps(s, n, c, elsewhere).0)
  {
    hide Inv, NominateComps;
    NominateCompsKeeps(s, n, c, elsewhere);
  }

  predicate SomeInProgress(s: State) {
    exists id :: id in s.pairs && s.pairs[id].state.InProgress?
  }

  lemma {:induction false} NominatePhaseOk(s: State, n: nat)
    requires Inv(s) && n <= |s.lists|
    ensures var (t, kept) := NominatePhase(s, n);
            PickOk(s, t, true) || (PickOk(s, t, false) && (kept ==> SomeInProgress(s)))
    decreases |s.lists| - n
  {
    hide Inv, NominateComps, Work, WantsNomination, TakenElsewhere;
    if n == |s.lists| {
      assert PickOk(s, s, false);
    } else {
      NominateCompsOk(s, n, 0, TakenElsewhere(s, n, 0));
      NominateCompsStayInv(s, n, 0, TakenElsewhere(s, n, 0));
      var (s1, a) := if WantsNomination(s, n) then NominateComps(s, n, 0, TakenElsewhere(s, n, 0)) else (s, false);
      NominatePhaseOk(s1, n + 1);
      var (s2, more) := NominatePhase(s1, n + 1);
      PickChain(s, s1, s2, a, PickOk(s1, s2, true));
    }
  }

  // ----- time

  lemma {:induction false} StunTimeDrops(xs: seq<Stun>, before: int, now: int)
    requires before < now
    ensures StunTime(xs, now) <= StunTime(xs, before)
    ensures StunTime(xs, now) > 0 ==> StunTime(xs, now) < StunTime(xs, before)
  {
    if xs != [] {
      StunTimeDrops(xs[1..], before, now);
    }
  }

  lemma {:induction false} TimeDrops(pairs: map<PairId, Pair>, before: int, now: int, n: nat)
    requires before < now
    ensures TimeBelow(pairs, now, n) <= TimeBelow(pairs, before, n)
    ensures TimeBelow(pairs, now, n) > 0 ==> TimeBelow(pairs, now, n) < TimeBelow(pairs, before, n)
  {
    if n > 0 {
      TimeDrops(pairs, before, now, n - 1);
      if n - 1 in pairs {
        StunTimeDrops(pairs[n - 1].stun, before, now);
      }
    }
  }

  lemma {:induction false} TimePositive(pairs: map<PairId, Pair>, now: int, n: nat, id: PairId)
    requires id in pairs && id < n && pairs[id].stun != [] && NotDue(pairs[id], now)
    ensures TimeBelow(pairs, now, n) > 0
  {
    if id == n - 1 {
      assert pairs[id].stun[0] in pairs[id].stun;
    } else {
      TimePositive(pairs, now, n - 1, id);
    }
  }

  // ----- the tick

  function IdleLeft(s: State): nat {
    if s.idleDelay < s.cfg.idleTimeout then s.cfg.idleTimeout - s.idleDelay else 0
  }

  predicate Smaller(s: State, before: int, t: State, now: int) {
    || Work(t) < Work(s)
    || (Work(t) == Work(s) && Time(t, now) < Time(s, before))
    || (Work(t) == Work(s) && Time(t, now) == Time(s, before) && IdleLeft(t) < IdleLeft(s))
  }

  lemma MildShorter(s: State, t: State)
    requires Mild(s, t) && |t.queue| < |s.queue|
    ensures Work(t) < Work(s)
  {
    hide PairWork, Milder;
    forall id: nat | id < s.nextPair
      ensures PairCalmer(s.pairs, t.pairs, s.cfg, 0, id)
    {
      MildPair(s, t, id);
    }
    BelowCalmer(s.pairs, t.pairs, s.cfg, 0, s.nextPair);
    QueueCost(s.cfg, |t.queue|, |s.queue|);
  }

  lemma MildPair(s: State, t: State, id: PairId)
    requires Mild(s, t)
    ensures PairCalmer(s.pairs, t.pairs, s.cfg, 0, id)
  {
  }

  lemma TickPairQueue(s: State, id: PairId, t: TickInput)
    requires id in s.pairs && HasComp(s, s.pairs[id].comp)
    ensures |TickPair(s, id, t).0.queue| <= |s.queue|
  {
    hide ScanStun, UpdateForReady, FailPair, Milder;
    FailMild(s, id);
    UpdateForReadyMild(FailPair(s, id), s.pairs[id].comp);
  }

  lemma {:induction false} TickAlongQueue(s: State, ids: seq<PairId>, t: TickInput)
    ensures |TickAlong(s, ids, t).0.queue| <= |s.queue|
    decreases |ids|
  {
    hide TickPair;
    if ids != [] {
      if ids[0] in s.pairs && HasComp(s, s.pairs[ids[0]].comp) {
        TickPairQueue(s, ids[0], t);
        TickAlongQueue(TickPair(s, ids[0], t).0, ids[1..], t);
      } else {
        TickAlongQueue(s, ids[1..], t);
      }
    }
  }

  lemma {:induction false} StunPhaseQueue(s: State, n: nat, t: TickInput)
    requires n <= |s.lists|
    ensures |StunPhase(s, n, t).0.queue| <= |s.queue|
    decreases |s.lists| - n
  {
    hide TickAlong;
    if n < |s.lists| {
      TickAlongQueue(s, s.lists[n], t);
      StunPhaseQueue(TickAlong(s, s.lists[n], t).0, n + 1, t);
    }
  }

  // Nothing was sent although a triggered check is still queued: an earlier one was given up.
  lemma QueueShrinks(s: State, t: TickInput)
    requires Inv(s) && |s.lists| > 0 && !SendPhases(s, t).1 && SendPhases(s, t).0.queue != []
    ensures Work(SendPhases(s, t).0) < Work(s)
  {
    hide Inv, Work, Time, NotDue, Keeps, TriggeredPhase, StunPhase, OrdinaryPhase, Milder;
    TriggeredOk(s, |s.lists|, t);
    var s1 := TriggeredPhase(s, |s.lists|, t).0;
    TriggeredStaysInv(s, t);
    StunPhaseQueue(s1, 0, t);
    StunPhaseOk(s1, 0, t);
    var s2 := StunPhase(s1, 0, t).0;
    StunStaysInv(s1, t);
    OrdinaryPhaseOk(s2, 0, t);
    var u := OrdinaryPhase(s2, 0, t).0;
    MildCalmer(s2, u, t.now);
    TriggeredShrinks(s, |s.lists|, t);
    MildShorter(s, s1);
  }

  // Nothing was sent and nothing picked, but a check is in flight.
  lemma WaitingShrinks(s: State, t: TickInput, before: int)
    requires Inv(s) && Held(SendPhases(s, t).0) && !SendPhases(s, t).1 && before < t.now
    requires SomeInProgress(SendPhases(s, t).0)
    ensures var u := SendPhases(s, t).0;
            Work(u) < Work(s) || (Work(u) == Work(s) && Time(u, t.now) < Time(s, before))
  {
    hide Inv, Work, TimeBelow, SendPhases, Doomed;
    SendPhasesOk(s, t);
    SendStaysInv(s, t);
    var u := SendPhases(s, t).0;
    var id :| id in u.pairs && u.pairs[id].state.InProgress?;
    BelowNext(u, id);
    TimeDrops(s.pairs, before, t.now, s.nextPair);
    if u.pairs[id].stun == [] {
      assert HeldPair(u, id);
      OwnerFact(u, id);
      QueueShrinks(s, t);
    } else {
      TimePositive(u.pairs, t.now, u.nextPair, id);
    }
  }

  lemma SameMeasure(s: State, t: State, now: int)
    requires t.pairs == s.pairs && t.queue == s.queue && t.cfg == s.cfg && t.nextPair == s.nextPair
    ensures Work(t) == Work(s) && Time(t, now) == Time(s, now)
  {
  }

  /** Every silent tick that keeps the timer going decreases the measure. */
  lemma TickDecreases(s: State, before: int, t: TickInput)
    requires Inv(s) && Held(s) && before < t.now && s.cfg.ta > 0
    ensures CompsOk(s.comps, |s.lists|)
    ensures var (u, going) := Tick(s, t);
            Held(u) && Inv(u) && u.cfg == s.cfg && (going ==> Smaller(s, before, u, t.now))
  {
    hide Inv, Work, Time, Held, NotDue, SendPhases, NominatePhase, FailComponents, Keeps, KeepsTick;
    CompsFact(s);
    HeldTick(s, t);
    HeldSends(s, t);
    TickStaysInv(s, t);
    SendPhasesOk(s, t);
    SendStaysInv(s, t);
    var (s1, sent) := SendPhases(s, t);
    NominatePhaseOk(s1, 0);
    var (s2, kept) := NominatePhase(s1, 0);
    var (u, going) := Tick(s, t);
    CompsFact(s1);
    FailComponentsPairs(s2);
    assert u.pairs == s2.pairs && u.queue == s2.queue && u.nextPair == s2.nextPair && u.cfg == s2.cfg;
    SameMeasure(s2, u, t.now);
    if !PickOk(s1, s2, true) {
      SameMeasure(s1, s2, t.now);
      TimeNoMore(s, before, t.now);
      if !sent && kept {
        WaitingShrinks(s, t, before);
      }
    }
  }

  lemma TimeNoMore(s: State, before: int, now: int)
    requires before < now
    ensures Time(s, now) <= Time(s, before)
  {
    TimeDrops(s.pairs, before, now, s.nextPair);
  }

  lemma FailComponentsPairs(s: State)
    ensures CompsOk(s.comps, |s.lists|) ==> FailComponents(s).pairs == s.pairs && FailComponents(s).queue == s.queue
  {
  }

  lemma TickStaysInv(s: State, t: TickInput)
    requires Inv(s)
    ensures CompsOk(s.comps, |s.lists|) && Inv(Tick(s, t).0)
  {
    hide Inv, Tick;
    TickKeeps(s, t);
  }

  lemma SendStaysInv(s: State, t: TickInput)
    requires Inv(s)
    ensures Inv(SendPhases(s, t).0)
  {
    hide Inv, SendPhases;
    SendPhasesKeep(s, t);
  }

  // ----- silent runs

  /** The `n`-th tick of the silent run that starts with tick `k` in state `s` stops the timer. */
  predicate StopsAt(s: State, inputs: nat -> TickInput, k: nat, n: nat)
    requires Inv(s)
    decreases n - k
  {
    CompsFact(s);
    var (u, going) := Tick(s, inputs(k));
    if n <= k then n == k && !going
    else going && (TickStaysInv(s, inputs(k)); StopsAt(u, inputs, k + 1, n))
  }

  /** Without inbound traffic, and with every check in progress holding a transaction or safely queued for a
      triggered check, the timer stops: whatever the sends do and however long the STUN timers run, some
      tick is the last. */
  lemma {:induction false} SilentRunStops(s: State, inputs: nat -> TickInput, k: nat, before: int) returns (n: nat)
    requires Inv(s) && Held(s) && s.cfg.ta > 0
    requires before < inputs(k).now
    requires forall i: nat :: k <= i ==> inputs(i).now < inputs(i + 1).now
    ensures n >= k && StopsAt(s, inputs, k, n)
    decreases Work(s), Time(s, before), IdleLeft(s)
  {
    hide Inv, Work, Time, Held, Tick, IdleLeft;
    TickDecreases(s, before, inputs(k));
    var (u, going) := Tick(s, inputs(k));
    if going {
      n := SilentRunStops(u, inputs, k + 1, inputs(k).now);
    } else {
      n := k;
    }
  }
}
