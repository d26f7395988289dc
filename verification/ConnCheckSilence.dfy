/** Silent runs: with no inbound traffic the check timer stops after finitely many ticks.

The measure is lexicographic: the requests still to be sent, then the time until the transactions in
flight expire, then the idle time left. */
module ConnCheckSilence {
  import opened Basics
  import opened ConnCheckState
  import opened ConnCheckSpec
  import opened ConnCheckInvariants
  import opened ConnCheckTick
  import opened ConnCheckTicks

  // ----- the measure

  function StunWork(xs: seq<Stun>): nat {
    if xs == [] then 0 else xs[0].left + 1 + StunWork(xs[1..])
  }

  function End(x: Stun, now: int): nat {
    var e := if x.nextTick < x.deadline then x.deadline else x.nextTick;
    if e > now then e - now else 0
  }

  function StunTime(xs: seq<Stun>, now: int): nat {
    if xs == [] then 0 else End(xs[0], now) + StunTime(xs[1..], now)
  }

  // What starting one check may cost: the request and its retransmissions.
  function CheckCost(cfg: Config): nat {
    cfg.maxRetransmissions + 2
  }

  function PairWork(pairs: map<PairId, Pair>, cfg: Config, id: PairId): nat {
    if id !in pairs then 0
    else
      (if Pending(pairs[id]) then CheckCost(cfg) else 0)
      + (if pairs[id].useCandidate then 0 else CheckCost(cfg) + 1)
      + StunWork(pairs[id].stun)
  }

  function PairTime(pairs: map<PairId, Pair>, now: int, id: PairId): nat {
    if id !in pairs then 0 else StunTime(pairs[id].stun, now)
  }

  function WorkBelow(pairs: map<PairId, Pair>, cfg: Config, n: nat): nat {
    if n == 0 then 0 else WorkBelow(pairs, cfg, n - 1) + PairWork(pairs, cfg, n - 1)
  }

  function TimeBelow(pairs: map<PairId, Pair>, now: int, n: nat): nat {
    if n == 0 then 0 else TimeBelow(pairs, now, n - 1) + PairTime(pairs, now, n - 1)
  }

  function Work(s: State): nat {
    WorkBelow(s.pairs, s.cfg, s.nextPair) + CheckCost(s.cfg) * |s.queue|
  }

  function Time(s: State, now: int): nat {
    TimeBelow(s.pairs, now, s.nextPair)
  }

  // Less work, or the same work and no more time to wait for.
  predicate Calmer(s: State, t: State, now: int) {
    Work(t) < Work(s) || (Work(t) == Work(s) && Time(t, now) <= Time(s, now))
  }

  // ----- pointwise comparison

  predicate PairCalmer(pairs: map<PairId, Pair>, pairs': map<PairId, Pair>, cfg: Config, now: int, id: PairId) {
    || PairWork(pairs', cfg, id) < PairWork(pairs, cfg, id)
    || (PairWork(pairs', cfg, id) == PairWork(pairs, cfg, id) && PairTime(pairs', now, id) <= PairTime(pairs, now, id))
  }

  lemma {:induction false} BelowCalmer(pairs: map<PairId, Pair>, pairs': map<PairId, Pair>, cfg: Config, now: int, n: nat)
    requires forall id: nat :: id < n ==> PairCalmer(pairs, pairs', cfg, now, id)
    ensures WorkBelow(pairs', cfg, n) <= WorkBelow(pairs, cfg, n)
    ensures WorkBelow(pairs', cfg, n) == WorkBelow(pairs, cfg, n) ==> TimeBelow(pairs', now, n) <= TimeBelow(pairs, now, n)
  {
    if n > 0 {
      BelowCalmer(pairs, pairs', cfg, now, n - 1);
      assert PairCalmer(pairs, pairs', cfg, now, n - 1);
    }
  }

  lemma {:induction false} Times(k: nat, a: nat, b: nat)
    requires a <= b
    ensures k * a <= k * b
    decreases b
  {
    if a < b {
      Times(k, a, b - 1);
      assert k * b == k * (b - 1) + k;
    }
  }

  lemma QueueCost(cfg: Config, a: nat, b: nat)
    requires a <= b
    ensures CheckCost(cfg) * a <= CheckCost(cfg) * b
    ensures a + 1 <= b ==> CheckCost(cfg) * a + CheckCost(cfg) <= CheckCost(cfg) * b
  {
    var k := CheckCost(cfg);
    hide CheckCost;
    Times(k, a, b);
    if a + 1 <= b {
      Times(k, a + 1, b);
      assert k * (a + 1) == k * a + k;
    }
  }

  lemma PointwiseCalmer(s: State, t: State, now: int)
    requires SameCore(s, t) && |t.queue| <= |s.queue|
    requires forall id: nat :: id < s.nextPair ==> PairCalmer(s.pairs, t.pairs, s.cfg, now, id)
    ensures Calmer(s, t, now)
  {
    BelowCalmer(s.pairs, t.pairs, s.cfg, now, s.nextPair);
    QueueCost(s.cfg, |t.queue|, |s.queue|);
  }

  // ----- handlers that start nothing

  lemma {:induction false} FilterOutShorter(xs: seq<nat>, gone: set<nat>)
    ensures |FilterOut(xs, gone)| <= |xs|
  {
    if xs != [] {
      FilterOutShorter(xs[1..], gone);
    }
  }

  lemma {:induction false} FilterOutHead(xs: seq<nat>)
    requires xs != [] && Distinct(xs)
    ensures FilterOut(xs, {xs[0]}) == xs[1..]
  {
    FilterOutNothing(xs[1..], {xs[0]});
  }

  // Pairs may go, fail, thaw or lose their transactions, but not start anything.
  predicate Milder(p: Pair, q: Pair) {
    && q.comp == p.comp && q.useCandidate == p.useCandidate
    && (Pending(q) ==> Pending(p))
    && (q.stun == p.stun || q.stun == [])
    && (q.state.InProgress? ==> q.stun == p.stun && p.state.InProgress?)
  }

  predicate Mild(s: State, t: State) {
    && SameCore(s, t)
    && |t.queue| <= |s.queue|
    && forall id :: id in t.pairs ==> id in s.pairs && Milder(s.pairs[id], t.pairs[id])
  }

  lemma MildCalmer(s: State, t: State, now: int)
    requires Mild(s, t)
    ensures Calmer(s, t, now)
  {
    forall id: nat | id < s.nextPair
      ensures PairCalmer(s.pairs, t.pairs, s.cfg, now, id)
    {
    }
    PointwiseCalmer(s, t, now);
  }

  lemma MildTrans(s: State, t: State, u: State)
    requires Mild(s, t) && Mild(t, u)
    ensures Mild(s, u)
  {
  }

  lemma FailMild(s: State, id: PairId)
    requires id in s.pairs
    ensures Mild(s, FailPair(s, id))
  {
  }

  lemma RemoveMild(s: State, gone: set<PairId>)
    ensures Mild(s, RemovePairs(s, gone))
  {
    FilterOutShorter(s.queue, gone);
    hide FilterOut;
  }

  lemma PrunedMilder(s: State, c: nat, id: PairId)
    requires c < |s.comps| && id in s.pairs
    ensures Milder(s.pairs[id], PrunedPair(s, c, id))
  {
  }

  lemma SilencedMild(s: State, c: nat)
    requires c < |s.comps|
    ensures Mild(s, Silenced(s, c))
  {
    hide FilterOut, Milder, PrunedPair, PruneSilences;
    FilterOutShorter(s.queue, set id | id in s.pairs && PruneSilences(s, c, id));
    forall id | id in s.pairs
      ensures Milder(s.pairs[id], Silenced(s, c).pairs[id])
    {
      PrunedMilder(s, c, id);
    }
  }

  lemma UpdateForReadyMild(s: State, c: nat)
    requires c < |s.comps|
    ensures Mild(s, UpdateForReady(s, c))
  {
    hide Silenced, RemovePairs, PruneGone, Milder;
    SelfMild(s);
    SilencedMild(s, c);
    RemoveMild(Silenced(s, c), PruneGone(s, c));
    MildTrans(s, Silenced(s, c), PrunePending(s, c));
  }

  lemma SelfMild(s: State)
    ensures Mild(s, s)
  {
  }

  lemma UnfreezeNextMild(s: State)
    ensures Mild(s, UnfreezeNext(s))
  {
    UnfreezeAlongTame(s.pairs, Flat(s.lists), {});
    hide UnfreezeAlong, Flat;
  }

  // ----- starting a check

  lemma {:induction false} OneChanged(pairs: map<PairId, Pair>, p: Pair, cfg: Config, id: PairId, n: nat)
    requires id in pairs
    ensures var pairs' := pairs[id := p];
            WorkBelow(pairs', cfg, n) + (if id < n then PairWork(pairs, cfg, id) else 0) ==
            WorkBelow(pairs, cfg, n) + (if id < n then PairWork(pairs', cfg, id) else 0)
  {
    if n > 0 {
      OneChanged(pairs, p, cfg, id, n - 1);
    }
  }

  // A started check costs its one transaction; a pending pair pays for it itself.
  lemma StartedCost(s: State, id: PairId, t: TickInput, o: SendOutcome)
    requires id in s.pairs && o.SentOn?
    ensures var r := Started(s, id, t, o);
            Work(r) + (if Pending(s.pairs[id]) && id < s.nextPair then CheckCost(s.cfg) else 0)
              <= Work(s) + s.cfg.maxRetransmissions + 1
  {
    var r := Started(s, id, t, o);
    OneChanged(s.pairs, r.pairs[id], s.cfg, id, s.nextPair);
    assert r.pairs[id].stun[1..] == s.pairs[id].stun;
    assert StunWork(r.pairs[id].stun) <= s.cfg.maxRetransmissions + 1 + StunWork(s.pairs[id].stun);
  }

  lemma RejectedMild(s: State, id: PairId)
    requires id in s.pairs && HasComp(s, s.pairs[id].comp)
    ensures Mild(s, Rejected(s, id))
  {
    RejectedIsFailed(s, id);
    hide Milder, UpdateForReady, FailPair, Rejected;
    FailMild(s, id);
    UpdateForReadyMild(FailPair(s, id), s.pairs[id].comp);
    MildTrans(s, FailPair(s, id), Rejected(s, id));
  }

  lemma DequeueMild(s: State, id: PairId)
    ensures Mild(s, Dequeue(s, id))
  {
    FilterOutShorter(s.queue, {id});
    hide FilterOut;
  }

  // A phase either sends, and then there is less work, or it starts nothing.
  predicate PhaseOk(s: State, r: (State, bool)) {
    if r.1 then Work(r.0) < Work(s) else Mild(s, r.0)
  }

  lemma MildThenPhase(s: State, t: State, r: (State, bool))
    requires Mild(s, t) && PhaseOk(t, r)
    ensures PhaseOk(s, r)
  {
    hide Milder, Work, Time;
    MildCalmer(s, t, 0);
    if !r.1 {
      MildTrans(s, t, r.0);
    }
  }

  lemma {:induction false} TriggeredOk(s: State, streams: nat, t: TickInput)
    requires Inv(s)
    ensures PhaseOk(s, TriggeredPhase(s, streams, t))
    decreases streams
  {
    hide Inv, Milder, Rejected, Started, FilterOut, PairWork, WorkBelow, CheckCost, Keeps;
    if streams == 0 || s.queue == [] {
      SelfMild(s);
    } else {
      var id := s.queue[0];
      var s1 := Dequeue(s, id);
      DequeueMild(s, id);
      QueueFact(s);
      if id in s.pairs && HasComp(s, s.pairs[id].comp) {
        if t.send(id).NotSent? {
          RejectedMild(s1, id);
          DequeuedInv(s, id);
          RejectedStaysInv(s1, id);
          TriggeredOk(Rejected(s1, id), streams - 1, t);
          MildThenPhase(s1, Rejected(s1, id), TriggeredPhase(Rejected(s1, id), streams - 1, t));
          MildThenPhase(s, s1, TriggeredPhase(Rejected(s1, id), streams - 1, t));
        } else {
          TriggeredSend(s, id, t);
        }
      }
    }
  }

  lemma DequeuedInv(s: State, id: PairId)
    requires Inv(s)
    ensures Inv(Dequeue(s, id))
  {
    hide Inv, FilterOut;
    DequeueKeeps(s, id);
  }

  lemma RejectedStaysInv(s: State, id: PairId)
    requires Inv(s) && id in s.pairs && HasComp(s, s.pairs[id].comp)
    ensures Inv(Rejected(s, id))
  {
    hide Inv, Rejected;
    RejectedKeeps(s, id);
  }

  lemma TriggeredSend(s: State, id: PairId, t: TickInput)
    requires Inv(s) && s.queue != [] && id == s.queue[0] && id in s.pairs && HasComp(s, s.pairs[id].comp)
    requires t.send(id).SentOn?
    ensures PhaseOk(s, Initiate(Dequeue(s, id), id, t, Triggered(id)))
  {
    QueueFact(s);
    hide Inv, PairWork, FilterOut, Started;
    FilterOutHead(s.queue);
    var s1 := Dequeue(s, id);
    StartedCost(s1, id, t, t.send(id));
    QueueCost(s.cfg, |s1.queue|, |s.queue|);
    SentIrrelevant(Started(s1, id, t, t.send(id)), Initiate(s1, id, t, Triggered(id)).0);
  }

  lemma SentIrrelevant(s: State, t: State)
    requires t == s.(sent := t.sent)
    ensures Work(t) == Work(s)
  {
  }

  lemma OrdinaryOk(s: State, n: nat, t: TickInput)
    requires Inv(s) && n < |s.lists|
    ensures PhaseOk(s, OrdinaryCheck(s, n, t))
  {
    hide Inv, Milder, Rejected, Started, UnfreezeNext, PairWork, WorkBelow, Keeps;
    SelfMild(s);
    UnfreezeNextMild(s);
    var s1 := if NextWaiting(s, n).None? then UnfreezeNext(s) else s;
    var w := NextWaiting(s1, n);
    if w.Some? && HasComp(s1, s1.pairs[w.value].comp) {
      if t.send(w.value).NotSent? {
        RejectedMild(s1, w.value);
      } else {
        UnfreezeNextInv(s);
        BelowNext(s1, w.value);
        StartedCost(s1, w.value, t, t.send(w.value));
        SentIrrelevant(Started(s1, w.value, t, t.send(w.value)), OrdinaryCheck(s, n, t).0);
      }
      MildThenPhase(s, s1, OrdinaryCheck(s, n, t));
    }
  }

  lemma UnfreezeNextInv(s: State)
    requires Inv(s)
    ensures Inv(UnfreezeNext(s))
  {
    hide Inv, UnfreezeNext;
    UnfreezeNextKeeps(s);
  }

  lemma BelowNext(s: State, id: PairId)
    requires Inv(s) && id in s.pairs
    ensures id < s.nextPair
  {
  }

  lemma {:induction false} OrdinaryPhaseOk(s: State, n: nat, t: TickInput)
    requires Inv(s) && n <= |s.lists|
    ensures PhaseOk(s, OrdinaryPhase(s, n, t))
    decreases |s.lists| - n
  {
    hide Inv, Milder, OrdinaryCheck, PairWork, WorkBelow, Work, Keeps;
    if n == |s.lists| {
      SelfMild(s);
    } else {
      OrdinaryOk(s, n, t);
      var (s1, sent) := OrdinaryCheck(s, n, t);
      if !sent {
        OrdinaryStaysInv(s, n, t);
        OrdinaryPhaseOk(s1, n + 1, t);
        MildThenPhase(s, s1, OrdinaryPhase(s1, n + 1, t));
      }
    }
  }

  lemma OrdinaryStaysInv(s: State, n: nat, t: TickInput)
    requires Inv(s) && n < |s.lists|
    ensures Inv(OrdinaryCheck(s, n, t).0)
  {
    hide Inv, OrdinaryCheck;
    OrdinaryKeeps(s, n, t);
  }
}
