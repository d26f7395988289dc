/** What single steps do in states without surprises: the building blocks of concrete runs. */
module ConnCheckReplay {
  import opened Basics
  import opened ConnCheckState
  import opened ConnCheckSpec
  import opened ConnCheckHandlers
  import opened ConnCheckSessions
  import opened ConnCheckTick
  import opened ConnCheckFolds
  import opened ConnCheckTermination
  import opened ConnCheckRuns

  // ----- runs

  lemma {:induction false} RunAppend(s: State, a: seq<Step>, b: seq<Step>)
    ensures Run(s, a + b) == Run(Run(s, a), b)
    decreases |a|
  {
    hide Apply;
    if a == [] {
      assert a + b == b;
    } else {
      assert (a + b)[0] == a[0] && (a + b)[1..] == a[1..] + b;
      RunAppend(Apply(s, a[0]), a[1..], b);
    }
  }

  lemma RunOne(s: State, step: Step)
    ensures Run(s, [step]) == Apply(s, step)
  {
    hide Apply;
    assert [step][1..] == [];
  }

  // One more step at the end of a run.
  lemma RunThen(s: State, steps: seq<Step>, step: Step)
    ensures Run(s, steps + [step]) == Apply(Run(s, steps), step)
  {
    hide Apply;
    RunAppend(s, steps, [step]);
    RunOne(Run(s, steps), step);
  }

  // ----- a run and one more step

  lemma CandidateThen(s0: State, steps: seq<Step>, s: State, k: Candidate)
    requires Run(s0, steps) == s && CandidateOk(k)
    ensures Run(s0, steps + [NewCandidate(k)]) == AddCandidate(s, k)
  {
    hide Run, AddCandidate;
    RunThen(s0, steps, NewCandidate(k));
  }

  lemma GatherThen(s0: State, steps: seq<Step>, s: State, c: nat)
    requires Run(s0, steps) == s && c < |s.comps|
    ensures Run(s0, steps + [GatheringStarted(c)]) == Gather(s, c)
  {
    hide Run, Gather;
    RunThen(s0, steps, GatheringStarted(c));
  }

  lemma PairThen(s0: State, steps: seq<Step>, s: State, c: nat, l: CandId, r: CandId)
    requires Run(s0, steps) == s && CanPair(s, c, l, r) && Formable(s.cands[l], Frozen)
    ensures Run(s0, steps + [FormPair(c, l, r, Frozen)]) == AddPairMatched(s, c, l, r, Frozen).0
  {
    hide Run, AddPairMatched;
    RunThen(s0, steps, FormPair(c, l, r, Frozen));
  }

  // A tick that sends and finds nothing to nominate.
  lemma SendThen(s0: State, steps: seq<Step>, s: State, t: TickInput, u: State)
    requires Run(s0, steps) == s && CompsOk(s.comps, |s.lists|) && |s.lists| == 1 && SendPhases(s, t) == (u, true)
    requires u.idleDelay == 0 && !WantsNomination(u, 0)
    ensures Run(s0, steps + [TimerFired(t)]) == u
  {
    hide Run, SendPhases, Tick, WantsNomination;
    RunThen(s0, steps, TimerFired(t));
    SendingTick(s, t);
  }

  lemma TickThen(s0: State, steps: seq<Step>, s: State, t: TickInput)
    requires Run(s0, steps) == s && CompsOk(s.comps, |s.lists|)
    ensures Run(s0, steps + [TimerFired(t)]) == Tick(s, t).0
  {
    hide Run, Tick;
    RunThen(s0, steps, TimerFired(t));
  }

  // A successful reply to the only transaction of `id`, with the pair's own candidates.
  lemma ReplyThen(s0: State, steps: seq<Step>, s: State, id: PairId)
    requires Run(s0, steps) == s && Answerable(s, id, 0)
    ensures Run(s0, steps + [ReplyReceived(id, 0, Success(true, Some(s.pairs[id].remote), Known(s.pairs[id].local)))]) ==
            FinishReply(SetPair(s, id, Confirmable(s.pairs[id])), id, id)
  {
    hide Run, HandleReply, FinishReply;
    KnownReply(s, id, 0);
    RunThen(s0, steps, ReplyReceived(id, 0, Success(true, Some(s.pairs[id].remote), Known(s.pairs[id].local))));
  }

  lemma AnswerThen(s0: State, steps: seq<Step>, s: State, id: PairId, k: nat, reply: Reply)
    requires Run(s0, steps) == s && ReplyOk(s, id, k, reply)
    ensures Run(s0, steps + [ReplyReceived(id, k, reply)]) == HandleReply(s, id, k, reply)
  {
    hide Run, HandleReply;
    RunThen(s0, steps, ReplyReceived(id, k, reply));
  }

  lemma CheckThen(s0: State, steps: seq<Step>, s: State, c: nat, sock: Option<nat>, r: CandId)
    requires Run(s0, steps) == s && HasComp(s, c) && r in s.cands
    ensures Run(s0, steps + [CheckReceived(c, sock, r)]) == ScheduleTriggered(s, c, sock, r)
  {
    hide Run, ScheduleTriggered;
    RunThen(s0, steps, CheckReceived(c, sock, r));
  }

  lemma SelectThen(s0: State, steps: seq<Step>, s: State, c: nat, l: CandId, r: CandId)
    requires Run(s0, steps) == s && CanPair(s, c, l, r)
    ensures Run(s0, steps + [PairSelected(c, l, r)]) == SetSelected(s, c, l, r)
  {
    hide Run, SetSelected;
    RunThen(s0, steps, PairSelected(c, l, r));
  }

  lemma ForbiddenThen(s0: State, steps: seq<Step>, s: State, c: nat, from: set<CandId>)
    requires Run(s0, steps) == s && HasComp(s, c) && s.comps[c].selRemote.Some?
    ensures Run(s0, steps + [ForbiddenReceived(c, from)]) == Forbidden(s, c, from)
  {
    hide Run, Forbidden;
    RunThen(s0, steps, ForbiddenReceived(c, from));
  }

  lemma LossThen(s0: State, steps: seq<Step>, s: State, c: nat, lost: nat, based: set<nat>)
    requires Run(s0, steps) == s && HasComp(s, c)
    ensures Run(s0, steps + [SocketLost(c, lost, based)]) == RemoveSocket(s, c, lost, based)
  {
    hide Run, RemoveSocket;
    RunThen(s0, steps, SocketLost(c, lost, based));
  }

  // ----- forming a pair

  lemma Forms(s: State, c: nat, l: CandId, r: CandId, initial: CheckState)
    requires CanPair(s, c, l, r) && s.nextPair !in s.pairs && |StreamList(s, c)| < s.cfg.maxChecks
    requires s.comps[c].selPriority <= NewPair(s, c, l, r, initial).priority && initial in {Frozen, Waiting}
    requires forall id :: id in s.pairs ==> !s.pairs[id].state.FailedCheck?
    requires !HasSucceeded(s.pairs, NewPair(s, c, l, r, initial).foundation) || initial.Waiting?
    ensures AddPairMatched(s, c, l, r, initial).0 ==
            Signal(Listed(s, NewPair(s, c, l, r, initial)).(timerOn := true), c, Busy(s.comps[c].state))
  {
    hide InsertSorted, HasSucceeded, Signal, RemovePairs;
    var p := NewPair(s, c, l, r, initial);
    var n := s.comps[c].stream;
    assert UnfreezeMaybe(s.pairs, p) == p;
    var s1 := Admitted(s, p);
    InsertLength(s.lists[n], s.nextPair, s.pairs[s.nextPair := p]);
    assert LimitDrops(s1, n) == {};
    RemoveNothing(s1);
  }

  lemma {:induction false} InsertLength(xs: seq<PairId>, id: PairId, pairs: map<PairId, Pair>)
    ensures |InsertSorted(xs, id, pairs)| == |xs| + 1
  {
    if xs != [] {
      InsertLength(xs[1..], id, pairs);
    }
  }

  // ----- ticks of an agent with one stream

  lemma {:induction false} ScanNotDue(xs: seq<Stun>, head: bool, retransmit: bool, t: TickInput)
    requires forall x :: x in xs ==> x.nextTick > t.now
    ensures ScanStun(xs, head, retransmit, t) == StunScan(xs, false)
  {
    if xs != [] {
      ScanNotDue(xs[1..], false, retransmit, t);
      assert xs == [xs[0]] + xs[1..];
    }
  }

  lemma {:induction false} TickAlongNotDue(s: State, ids: seq<PairId>, t: TickInput)
    requires forall id :: id in s.pairs ==> NotDue(s.pairs[id], t.now)
    ensures TickAlong(s, ids, t) == (s, false)
    decreases |ids|
  {
    hide ScanStun, FailPair, UpdateForReady;
    if ids != [] {
      if ids[0] in s.pairs && HasComp(s, s.pairs[ids[0]].comp) {
        var p := s.pairs[ids[0]];
        ScanNotDue(p.stun, true, p.retransmit, t);
        assert p.(stun := p.stun) == p && s.pairs[ids[0] := p] == s.pairs;
      }
      TickAlongNotDue(s, ids[1..], t);
    }
  }

  lemma StunPhaseNotDue(s: State, t: TickInput)
    requires |s.lists| == 1 && forall id :: id in s.pairs ==> NotDue(s.pairs[id], t.now)
    ensures StunPhase(s, 0, t) == (s, false)
  {
    hide TickAlong, NotDue;
    TickAlongNotDue(s, s.lists[0], t);
    assert StunPhase(s, 1, t) == (s, false);
  }

  // Nothing is due and nothing queued: the tick starts the first WAITING pair, or fails to.
  lemma OrdinarySends(s: State, t: TickInput, w: PairId)
    requires |s.lists| == 1 && s.queue == [] && forall id :: id in s.pairs ==> NotDue(s.pairs[id], t.now)
    requires NextWaiting(s, 0) == Some(w) && w in s.pairs && HasComp(s, s.pairs[w].comp)
    ensures SendPhases(s, t) == Initiate(s, w, t, Ordinary(w))
  {
    hide StunPhase, Initiate, UnfreezeNext, NotDue, First;
    StunPhaseNotDue(s, t);
    assert TriggeredPhase(s, 1, t) == (s, false);
    assert OrdinaryCheck(s, 0, t) == Initiate(s, w, t, Ordinary(w));
    var (s1, sent) := Initiate(s, w, t, Ordinary(w));
    assert OrdinaryPhase(s1, 1, t) == (s1, false);
  }

  // Nothing is due, queued or WAITING: the tick thaws, and then starts the first WAITING pair, or fails to.
  lemma ThawingSends(s: State, t: TickInput, w: PairId)
    requires |s.lists| == 1 && s.queue == [] && forall id :: id in s.pairs ==> NotDue(s.pairs[id], t.now)
    requires NextWaiting(s, 0).None? && NextWaiting(UnfreezeNext(s), 0) == Some(w)
    requires w in UnfreezeNext(s).pairs && HasComp(UnfreezeNext(s), UnfreezeNext(s).pairs[w].comp)
    ensures SendPhases(s, t) == Initiate(UnfreezeNext(s), w, t, Ordinary(w))
  {
    hide StunPhase, Initiate, UnfreezeNext, NotDue, First;
    StunPhaseNotDue(s, t);
    assert TriggeredPhase(s, 1, t) == (s, false);
    var u := UnfreezeNext(s);
    assert OrdinaryCheck(s, 0, t) == Initiate(u, w, t, Ordinary(w));
    var (s1, sent) := Initiate(u, w, t, Ordinary(w));
    assert OrdinaryPhase(s1, 1, t) == (s1, false);
  }

  // The pair after it is thawed.
  function Released(p: Pair): Pair {
    p.(state := Waiting)
  }

  lemma ThawsOne(s: State, x: PairId)
    requires s.lists == [[x]] && x in s.pairs && s.pairs[x].state.Frozen? && !SomeWaiting(s)
    ensures UnfreezeNext(s) == s.(pairs := s.pairs[x := Released(s.pairs[x])])
  {
    FlatOne([x]);
    assert [x][1..] == [];
    hide Flat;
    assert UnfreezeAlong(s.pairs, [x], {}) == UnfreezeAlong(s.pairs[x := Released(s.pairs[x])], [], {s.pairs[x].foundation});
  }

  lemma ThawsSecond(s: State, x: PairId, y: PairId)
    requires s.lists == [[x, y]] && x in s.pairs && y in s.pairs && !s.pairs[x].state.Frozen? && s.pairs[y].state.Frozen?
    requires !SomeWaiting(s)
    ensures UnfreezeNext(s) == s.(pairs := s.pairs[y := Released(s.pairs[y])])
  {
    FlatOne([x, y]);
    assert [x, y][1..] == [y] && [y][1..] == [];
    hide Flat;
    assert UnfreezeAlong(s.pairs, [x, y], {}) == UnfreezeAlong(s.pairs, [y], {});
    assert UnfreezeAlong(s.pairs, [y], {}) == UnfreezeAlong(s.pairs[y := Released(s.pairs[y])], [], {s.pairs[y].foundation});
  }

  lemma ThawsTwo(s: State, x: PairId, y: PairId)
    requires s.lists == [[x, y]] && x in s.pairs && y in s.pairs && x != y && !SomeWaiting(s)
    requires s.pairs[x].state.Frozen? && s.pairs[y].state.Frozen? && s.pairs[x].foundation != s.pairs[y].foundation
    ensures UnfreezeNext(s) == s.(pairs := s.pairs[x := Released(s.pairs[x])][y := Released(s.pairs[y])])
  {
    FlatOne([x, y]);
    assert [x, y][1..] == [y] && [y][1..] == [];
    hide Flat;
    var a := s.pairs[x := Released(s.pairs[x])];
    var b := a[y := Released(s.pairs[y])];
    var f, g := s.pairs[x].foundation, s.pairs[y].foundation;
    assert {} + {f} == {f};
    assert UnfreezeAlong(s.pairs, [x, y], {}) == UnfreezeAlong(a, [y], {f});
    assert UnfreezeAlong(a, [y], {f}) == UnfreezeAlong(b, [], {f} + {g}) == b;
  }

  lemma FlatOne(ids: seq<PairId>)
    ensures Flat([ids]) == ids
  {
    assert [ids][1..] == [];
    assert Flat([]) == [];
  }

  lemma NominationIdle(s: State)
    requires |s.lists| == 1 && !WantsNomination(s, 0)
    ensures NominatePhase(s, 0) == (s, InProgressIn(s, 0))
  {
    hide WantsNomination, NominateComps, TakenElsewhere, InProgressIn;
    assert NominatePhase(s, 1) == (s, false);
  }

  // A tick that sends and finds nothing to nominate.
  lemma SendingTick(s: State, t: TickInput)
    requires CompsOk(s.comps, |s.lists|) && |s.lists| == 1 && SendPhases(s, t).1 && !WantsNomination(SendPhases(s, t).0, 0)
    ensures Tick(s, t).0 == SendPhases(s, t).0.(idleDelay := 0)
  {
    hide SendPhases, NominatePhase, WantsNomination, FailComponents;
    NominationIdle(SendPhases(s, t).0);
  }

  // ----- replies

  lemma NoThaw(s: State, foundation: string)
    requires forall id :: id in s.pairs ==> !s.pairs[id].state.Frozen?
    ensures UnfreezeRelated(s, foundation) == s
  {
    assert UnfreezeRelated(s, foundation).pairs == s.pairs;
  }

  // The pair as a successful reply leaves it.
  function Confirmable(p: Pair): Pair {
    p.(state := Succeeded, valid := true, stun := [], retransmit := false)
  }

  lemma KnownAnswer(s: State, id: PairId)
    requires id in s.pairs && HasComp(s, s.pairs[id].comp) && s.pairs[id].remote in s.cands
    requires MappedOk(s, s.pairs[id].comp, Known(s.pairs[id].local))
    requires id in StreamList(s, s.pairs[id].comp) && id !in s.queue
    requires forall x :: x in s.pairs && x != id ==> s.pairs[x].local != s.pairs[id].local || s.pairs[x].remote != s.pairs[id].remote
    requires forall x :: x in s.pairs ==> !s.pairs[x].state.Frozen?
    ensures Answered(s, id, s.pairs[id].remote, Known(s.pairs[id].local)) == (SetPair(s, id, Confirmable(s.pairs[id])), id)
  {
    var p := s.pairs[id];
    var found := MappedPair(s, p.comp, p.remote, Known(p.local));
    assert found == Some(id) by {
      assert found.Some?;
    }
    hide MappedPair, First;
    FilterOutNothing(s.queue, {id});
    var t := SetPair(s, id, Confirmable(p));
    assert Succeed(Confirm(s, id, id), id) == t by {
      assert s.pairs[id := p.(valid := true)][id := Confirmable(p)] == s.pairs[id := Confirmable(p)];
    }
    NoThaw(t, p.foundation);
  }

  lemma DroppedStun(s: State, id: PairId, k: nat)
    requires id in s.pairs && k < |s.pairs[id].stun|
    ensures var t := DropStun(s, id, k);
            && Confirmable(t.pairs[id]) == Confirmable(s.pairs[id])
            && SetPair(t, id, Confirmable(t.pairs[id])) == SetPair(s, id, Confirmable(s.pairs[id]))
  {
    var t := DropStun(s, id, k);
    assert t.pairs[id := Confirmable(s.pairs[id])] == s.pairs[id := Confirmable(s.pairs[id])];
  }

  // Transaction `k` of the pair can be answered, no other pair has its candidates, and nothing is to be thawed.
  predicate Answerable(s: State, id: PairId, k: nat) {
    && id in s.pairs && k < |s.pairs[id].stun|
    && HasComp(s, s.pairs[id].comp) && s.pairs[id].remote in s.cands
    && MappedOk(s, s.pairs[id].comp, Known(s.pairs[id].local))
    && id in StreamList(s, s.pairs[id].comp) && id !in s.queue
    && (forall x :: x in s.pairs && x != id ==> s.pairs[x].local != s.pairs[id].local || s.pairs[x].remote != s.pairs[id].remote)
    && (forall x :: x in s.pairs ==> !s.pairs[x].state.Frozen?)
  }

  /** A successful reply whose mapped address is the pair's own local candidate. */
  lemma KnownReply(s: State, id: PairId, k: nat)
    requires Answerable(s, id, k)
    ensures ReplyOk(s, id, k, Success(true, Some(s.pairs[id].remote), Known(s.pairs[id].local)))
    ensures HandleReply(s, id, k, Success(true, Some(s.pairs[id].remote), Known(s.pairs[id].local))) ==
            FinishReply(SetPair(s, id, Confirmable(s.pairs[id])), id, id)
  {
    hide Answered, FinishReply, Confirmable, MappedOk;
    var s1 := DropStun(s, id, k);
    MappedStays(s, s1, s.pairs[id].comp, Known(s.pairs[id].local));
    KnownAnswer(s1, id);
    DroppedStun(s, id, k);
  }

  lemma MappedStays(s: State, t: State, c: nat, m: Mapped)
    requires t.comps == s.comps && t.cands == s.cands && MappedOk(s, c, m)
    ensures MappedOk(t, c, m)
  {
  }

  // ----- the list update

  // Nothing is pending and nothing queued: only retransmission flags change.
  lemma PruneFlags(s: State, c: nat)
    requires c < |s.comps| && s.queue == [] && forall id :: id in s.pairs ==> !Pending(s.pairs[id])
    ensures PrunePending(s, c) == s.(pairs := map id | id in s.pairs :: PrunedPair(s, c, id))
  {
    hide RemovePairs, PrunedPair;
    assert PruneGone(s, c) == {};
    RemoveNothing(Silenced(s, c));
  }
}
