/** What the sending phases of a tick do to one pair that is not FROZEN or WAITING: it fails exactly when the
walk gives it up, is in progress exactly when it was popped and sent, goes exactly when a list update of the
walk takes it, and is otherwise as it was. */
module ConnCheckFates {
  import opened Basics
  import opened ConnCheckState
  import opened ConnCheckSpec
  import opened ConnCheckInvariants
  import opened ConnCheckSockets
  import opened ConnCheckTick
  import opened ConnCheckTicks
  import opened ConnCheckKin
  import opened ConnCheckWalk

  // ----- what list updates of the walk take away

  // The list update that follows the failure of `y` frees `x`.
  predicate Sweeps(s: State, y: PairId, x: PairId)
    requires y in s.pairs && s.pairs[y].comp < |s.comps|
  {
    x in s.pairs && !Kept(FailPair(s, y), s.pairs[y].comp, x)
  }

  predicate TriggeredSweeps(s: State, streams: nat, t: TickInput, x: PairId)
    decreases streams
  {
    streams > 0 && s.queue != [] &&
    (var y := s.queue[0];
     y in s.pairs && HasComp(s, s.pairs[y].comp) && t.send(y).NotSent? &&
     (Sweeps(Dequeue(s, y), y, x) || TriggeredSweeps(Rejected(Dequeue(s, y), y), streams - 1, t, x)))
  }

  predicate AlongSweeps(s: State, ids: seq<PairId>, t: TickInput, x: PairId)
    decreases |ids|
  {
    ids != [] &&
    if !(ids[0] in s.pairs && HasComp(s, s.pairs[ids[0]].comp)) then AlongSweeps(s, ids[1..], t, x)
    else
      || (RunsOut(s.pairs[ids[0]], t) && Sweeps(s, ids[0], x))
      || (!TickPair(s, ids[0], t).1 && AlongSweeps(TickPair(s, ids[0], t).0, ids[1..], t, x))
  }

  predicate StunSweeps(s: State, n: nat, t: TickInput, x: PairId)
    requires n <= |s.lists|
    decreases |s.lists| - n
  {
    n < |s.lists| &&
    (AlongSweeps(s, s.lists[n], t, x) ||
     (!TickAlong(s, s.lists[n], t).1 && StunSweeps(TickAlong(s, s.lists[n], t).0, n + 1, t, x)))
  }

  predicate OrdinarySweeps(s: State, n: nat, t: TickInput, x: PairId)
    requires n <= |s.lists|
    decreases |s.lists| - n
  {
    n < |s.lists| &&
    (var s1 := if NextWaiting(s, n).None? then UnfreezeNext(s) else s;
     var w := NextWaiting(s1, n);
     || (w.Some? && HasComp(s1, s1.pairs[w.value].comp) && t.send(w.value).NotSent? && Sweeps(s1, w.value, x))
     || (!OrdinaryCheck(s, n, t).1 && OrdinarySweeps(OrdinaryCheck(s, n, t).0, n + 1, t, x)))
  }

  /** A list update of the sending phases frees the pair `x`. */
  predicate SweptAway(s: State, t: TickInput, x: PairId) {
    var (s1, sent1) := TriggeredPhase(s, |s.lists|, t);
    var (s2, sent2) := StunPhase(s1, 0, t);
    || TriggeredSweeps(s, |s.lists|, t, x)
    || (!sent1 && StunSweeps(s1, 0, t, x))
    || (!sent1 && !sent2 && OrdinarySweeps(s2, 0, t, x))
  }

  // ----- one pair through the walk

  // Only what belongs to checks in flight differs.
  predicate SameButWire(p: Pair, q: Pair) {
    q == p.(state := q.state, stun := q.stun, retransmit := q.retransmit, sock := q.sock)
  }

  // A root that is neither FROZEN nor WAITING ...
  predicate Rooted(s: State, x: PairId) {
    x in s.pairs && !HasParent(s.pairs, x) && !Pending(s.pairs[x])
  }

  // ... and its fate from `s` to `u`.
  predicate Fate(s: State, u: State, x: PairId, swept: bool, state: CheckState)
    requires x in s.pairs
  {
    && (x in u.pairs <==> !swept)
    && (x in u.pairs ==> Rooted(u, x) && u.pairs[x].state == state && SameButWire(s.pairs[x], u.pairs[x])
                         && (x in u.queue ==> x in s.queue))
  }

  lemma FateTrans(s: State, t: State, u: State, x: PairId, a: CheckState, swept: bool, b: CheckState)
    requires x in s.pairs && Fate(s, t, x, false, a) && Fate(t, u, x, swept, b)
    ensures Fate(s, u, x, swept, b)
  {
  }

  lemma FateSame(s: State, x: PairId)
    requires Rooted(s, x)
    ensures Fate(s, s, x, false, s.pairs[x].state)
  {
  }

  lemma GivenUpFollows(s: State, y: PairId)
    requires Kin(s) && Below(s) && y in s.pairs && s.pairs[y].comp < |s.comps|
    ensures Follows(s, GivenUp(s, y)) && Kin(GivenUp(s, y)) && Below(GivenUp(s, y))
  {
    hide Kin, Below, Follows, FailPair, UpdateForReady;
    FailedFollows(s, y, s.pairs[y].comp);
    FollowsKin(s, GivenUp(s, y));
  }

  lemma GivenUpFate(s: State, y: PairId, x: PairId)
    requires Kin(s) && Below(s) && y in s.pairs && s.pairs[y].comp < |s.comps| && Rooted(s, x)
    ensures Fate(s, GivenUp(s, y), x, Sweeps(s, y, x), if x == y then FailedCheck else s.pairs[x].state)
    ensures x == y && x in GivenUp(s, y).pairs ==> GivenUp(s, y).pairs[x].stun == []
  {
    hide Kin, Below, FailPair, UpdateForReady, Kept, HasParent, Follows;
    var f, c, u := FailPair(s, y), s.pairs[y].comp, GivenUp(s, y);
    GivenUpFollows(s, y);
    FailThins(s, y);
    FailedState(s, y, x);
    FailComps(s, y);
    UpdateForReadyKept(f, c, x);
    UpdateForReadyThins(f, c);
    ThinsTrans(s, f, u);
    if x in u.pairs {
      SameRoot(s, u, x);
    }
  }

  // No other pair's failure takes a root along.
  lemma FailedState(s: State, y: PairId, x: PairId)
    requires Kin(s) && y in s.pairs && Rooted(s, x)
    ensures x in FailPair(s, y).pairs && FailPair(s, y).pairs[x].state == if x == y then FailedCheck else s.pairs[x].state
    ensures x == y ==> FailPair(s, y).pairs[x].stun == []
  {
    assert KinPair(s, y);
  }

  lemma SetFate(s: State, y: PairId, p: Pair, x: PairId)
    requires y in s.pairs && Rooted(s, x) && p == s.pairs[y].(stun := p.stun)
    ensures Fate(s, SetPair(s, y, p), x, false, s.pairs[x].state)
  {
  }

  lemma PairsFate(s: State, u: State, x: PairId)
    requires Rooted(s, x) && u.pairs == s.pairs && Subqueue(s.queue, u.queue)
    ensures Fate(s, u, x, false, s.pairs[x].state)
  {
  }

  // ----- phase by phase

  // A pair outside the queue is not popped.
  lemma {:induction false} NotPopped(s: State, streams: nat, t: TickInput, x: PairId)
    requires x !in s.queue
    ensures !Popped(s, streams, t, x) && !TriggeredFails(s, streams, t, {x})
    decreases streams
  {
    hide Rejected, FilterOut, GivenUp;
    if streams > 0 && s.queue != [] {
      var y := s.queue[0];
      if y in s.pairs && HasComp(s, s.pairs[y].comp) {
        PoppedUp(s, y);
        FilterOutMembers(s.queue, {y});
        GivenUpQueue(Dequeue(s, y), y, x);
        NotPopped(Rejected(Dequeue(s, y), y), streams - 1, t, x);
      }
    }
  }

  lemma GivenUpQueue(s: State, y: PairId, x: PairId)
    requires y in s.pairs && s.pairs[y].comp < |s.comps| && x !in s.queue
    ensures x !in GivenUp(s, y).queue
  {
    hide FailPair, UpdateForReady, FewerPairs;
    FailComps(s, y);
    UpdateForReadyThins(FailPair(s, y), s.pairs[y].comp);
  }

  function Popping(failed: bool, popped: bool, state: CheckState): CheckState {
    if failed then FailedCheck else if popped then InProgress else state
  }

  lemma StartedFate(s: State, y: PairId, t: TickInput, x: PairId)
    requires y in s.pairs && HasComp(s, s.pairs[y].comp) && t.send(y).SentOn? && Rooted(s, x)
    ensures Fate(s, Initiate(s, y, t, Triggered(y)).0, x, false, if x == y then InProgress else s.pairs[x].state)
  {
  }

  lemma {:induction false} TriggeredFate(s: State, streams: nat, t: TickInput, x: PairId)
    requires Kin(s) && Inv(s) && Rooted(s, x)
    ensures Fate(s, TriggeredPhase(s, streams, t).0, x, TriggeredSweeps(s, streams, t, x),
                 Popping(TriggeredFails(s, streams, t, {x}), Popped(s, streams, t, x), s.pairs[x].state))
    decreases streams
  {
    hide Inv, Kin, Below, Follows, Fate, Rooted, Rejected, Initiate, FilterOut, GivenUp, Sweeps, Thawed, GatheringIsEmpty,
      NominatedIsSelected;
    FateSame(s, x);
    if streams > 0 && s.queue != [] {
      var y := s.queue[0];
      var s1 := Dequeue(s, y);
      QueuedFact(s, y);
      DequeueKeeps(s, y);
      DequeueFollows(s, y);
      BelowFact(s);
      FollowsKin(s, s1);
      FilterOutMembers(s.queue, {y});
      PairsFate(s, s1, x);
      FateRoot(s, s1, x);
      SentIs(s1, y, t);
      if t.send(y).SentOn? {
        StartedFate(s1, y, t, x);
        FateTrans(s, s1, Initiate(s1, y, t, Triggered(y)).0, x, s.pairs[x].state, false,
                  if x == y then InProgress else s.pairs[x].state);
      } else {
        PoppedUp(s, y);
        var s2 := GivenUp(s1, y);
        RejectedKeeps(s1, y);
        GivenUpFollows(s1, y);
        GivenUpFate(s1, y, x);
        var after := if x == y then FailedCheck else s.pairs[x].state;
        TriggeredFollows(s2, streams - 1, t);
        if Sweeps(s1, y, x) {
          GoneLater(s, s1, s2, TriggeredPhase(s2, streams - 1, t).0, x, after,
                    Popping(TriggeredFails(s, streams, t, {x}), Popped(s, streams, t, x), s.pairs[x].state));
        } else {
          FateTrans(s, s1, s2, x, s.pairs[x].state, false, after);
          FateState(s, s2, x, after);
          TriggeredFate(s2, streams - 1, t, x);
          if x == y {
            GivenUpQueue(s1, y, x);
            NotPopped(s2, streams - 1, t, x);
          }
          FateTrans(s, s2, TriggeredPhase(s2, streams - 1, t).0, x, after, TriggeredSweeps(s2, streams - 1, t, x),
                    Popping(TriggeredFails(s2, streams - 1, t, {x}), Popped(s2, streams - 1, t, x), after));
        }
      }
    }
  }

  lemma QueuedFact(s: State, y: PairId)
    requires Inv(s) && y in s.queue
    ensures y in s.pairs && HasComp(s, s.pairs[y].comp)
  {
    hide Sorted, Priced, SelectionOk, ReadyIsClean, DisconnectedIsEmpty;
  }

  lemma FateState(s: State, t: State, x: PairId, state: CheckState)
    requires x in s.pairs && Fate(s, t, x, false, state)
    ensures Rooted(t, x) && x in t.pairs && t.pairs[x].state == state
  {
  }

  lemma GoneLater(s: State, s1: State, t: State, u: State, x: PairId, a: CheckState, b: CheckState)
    requires Below(s) && x in s.pairs && x in s1.pairs && t.nextPair >= s.nextPair
    requires Fate(s1, t, x, true, a) && Follows(t, u)
    ensures Fate(s, u, x, true, b)
  {
    assert x in u.pairs ==> FollowsPair(t, u, x);
  }

  lemma SentIs(s: State, y: PairId, t: TickInput)
    requires y in s.pairs && HasComp(s, s.pairs[y].comp)
    ensures Initiate(s, y, t, Triggered(y)).1 == t.send(y).SentOn?
    ensures t.send(y).NotSent? ==> Initiate(s, y, t, Triggered(y)).0 == Rejected(s, y)
  {
  }

  lemma FateRoot(s: State, t: State, x: PairId)
    requires x in s.pairs && Fate(s, t, x, false, s.pairs[x].state)
    ensures Rooted(t, x) && t.pairs[x].state == s.pairs[x].state && x in t.pairs
  {
  }

  lemma TickPairFate(s: State, y: PairId, t: TickInput, x: PairId)
    requires Kin(s) && Below(s) && y in s.pairs && HasComp(s, s.pairs[y].comp) && Rooted(s, x)
    ensures Fate(s, TickPair(s, y, t).0, x, RunsOut(s.pairs[y], t) && Sweeps(s, y, x),
                 if x == y && RunsOut(s.pairs[y], t) then FailedCheck else s.pairs[x].state)
    ensures x == y && RunsOut(s.pairs[y], t) && x in TickPair(s, y, t).0.pairs ==> TickPair(s, y, t).0.pairs[x].stun == []
  {
    hide Kin, Below, Fate, Rooted, UpdateForReady, FailPair, ScanStun, Sweeps;
    var p := s.pairs[y];
    var scan := ScanStun(p.stun, true, p.retransmit, t);
    FateSame(s, x);
    if RunsOut(p, t) {
      GivenUpFate(s, y, x);
    } else if p.stun != [] {
      ResentKept(p.stun, true, p.retransmit, t);
      var kept := SetPair(s, y, p.(stun := scan.kept));
      SetFate(s, y, p.(stun := scan.kept), x);
      FateRoot(s, kept, x);
      PairsFate(kept, kept.(sent := s.sent + [Retransmitted(y)]), x);
      FateTrans(s, kept, kept.(sent := s.sent + [Retransmitted(y)]), x, s.pairs[x].state, false, s.pairs[x].state);
    }
  }

  function Running(failed: bool, state: CheckState): CheckState {
    if failed then FailedCheck else state
  }

  lemma {:induction false} TickAlongFate(s: State, ids: seq<PairId>, t: TickInput, x: PairId)
    requires Kin(s) && Below(s) && Rooted(s, x)
    ensures Fate(s, TickAlong(s, ids, t).0, x, AlongSweeps(s, ids, t, x), Running(AlongFails(s, ids, t, {x}), s.pairs[x].state))
    decreases |ids|
  {
    hide Kin, Below, Follows, Fate, Rooted, TickPair, RunsOut, Sweeps;
    FateSame(s, x);
    if ids != [] {
      if ids[0] in s.pairs && HasComp(s, s.pairs[ids[0]].comp) {
        var y := ids[0];
        var (s1, sent) := TickPair(s, y, t);
        TickPairFate(s, y, t, x);
        TickPairFollows(s, y, t);
        FollowsKin(s, s1);
        SentNoFail(s, y, t);
        var gone := RunsOut(s.pairs[y], t) && Sweeps(s, y, x);
        var after := if x == y && RunsOut(s.pairs[y], t) then FailedCheck else s.pairs[x].state;
        TickAlongFollows(s1, ids[1..], t);
        if gone {
          GoneLater(s, s, s1, TickAlong(s1, ids[1..], t).0, x, after, Running(AlongFails(s, ids, t, {x}), s.pairs[x].state));
        } else if !sent {
          FateState(s, s1, x, after);
          TickAlongFate(s1, ids[1..], t, x);
          FateTrans(s, s1, TickAlong(s1, ids[1..], t).0, x, after, AlongSweeps(s1, ids[1..], t, x),
                    Running(AlongFails(s1, ids[1..], t, {x}), after));
        }
      } else {
        TickAlongFate(s, ids[1..], t, x);
      }
    }
  }

  lemma SentNoFail(s: State, y: PairId, t: TickInput)
    requires y in s.pairs && HasComp(s, s.pairs[y].comp)
    ensures RunsOut(s.pairs[y], t) ==> !TickPair(s, y, t).1
  {
    hide UpdateForReady, FailPair, ScanStun;
  }

  lemma {:induction false} StunFate(s: State, n: nat, t: TickInput, x: PairId)
    requires Kin(s) && Below(s) && Rooted(s, x) && n <= |s.lists|
    ensures Fate(s, StunPhase(s, n, t).0, x, StunSweeps(s, n, t, x), Running(StunFails(s, n, t, {x}), s.pairs[x].state))
    decreases |s.lists| - n
  {
    hide Kin, Below, Follows, Fate, Rooted, TickAlong, AlongSweeps, AlongFails;
    FateSame(s, x);
    if n < |s.lists| {
      var (s1, sent) := TickAlong(s, s.lists[n], t);
      TickAlongFate(s, s.lists[n], t, x);
      TickAlongFollows(s, s.lists[n], t);
      FollowsKin(s, s1);
      var after := Running(AlongFails(s, s.lists[n], t, {x}), s.pairs[x].state);
      StunPhaseFollows(s1, n + 1, t);
      if AlongSweeps(s, s.lists[n], t, x) {
        GoneLater(s, s, s1, StunPhase(s1, n + 1, t).0, x, after, Running(StunFails(s, n, t, {x}), s.pairs[x].state));
      } else if !sent {
        FateState(s, s1, x, after);
        StunFate(s1, n + 1, t, x);
        FateTrans(s, s1, StunPhase(s1, n + 1, t).0, x, after, StunSweeps(s1, n + 1, t, x),
                  Running(StunFails(s1, n + 1, t, {x}), after));
      }
    }
  }

  lemma UnfreezeFate(s: State, x: PairId)
    requires Rooted(s, x)
    ensures Fate(s, UnfreezeNext(s), x, false, s.pairs[x].state)
  {
    hide UnfreezeNext;
    UnfrozenOther(s, x);
    KeysFate(s, UnfreezeNext(s), x);
  }

  lemma UnfrozenOther(s: State, x: PairId)
    requires x in s.pairs && !Pending(s.pairs[x])
    ensures var u := UnfreezeNext(s);
            u.pairs.Keys == s.pairs.Keys && u.pairs[x] == s.pairs[x] && u.queue == s.queue
  {
    hide UnfreezeAlong, Flat;
    UnfreezeAlongTame(s.pairs, Flat(s.lists), {});
  }

  lemma KeysFate(s: State, u: State, x: PairId)
    requires Rooted(s, x) && u.pairs.Keys == s.pairs.Keys && u.pairs[x] == s.pairs[x] && u.queue == s.queue
    ensures Fate(s, u, x, false, s.pairs[x].state)
  {
  }

  lemma OrdinaryFate(s: State, n: nat, t: TickInput, x: PairId)
    requires Kin(s) && Below(s) && Rooted(s, x) && n < |s.lists|
    ensures var s1 := if NextWaiting(s, n).None? then UnfreezeNext(s) else s;
            var w := NextWaiting(s1, n);
            && Fate(s, OrdinaryCheck(s, n, t).0, x,
                    w.Some? && HasComp(s1, s1.pairs[w.value].comp) && t.send(w.value).NotSent? && Sweeps(s1, w.value, x),
                    s.pairs[x].state)
            && w != Some(x)
  {
    hide Kin, Below, Follows, Fate, UnfreezeNext, Rejected, GivenUp, Sweeps, Started;
    FateSame(s, x);
    UnfreezeFate(s, x);
    UnfreezeNextFollows(s);
    var s1 := if NextWaiting(s, n).None? then UnfreezeNext(s) else s;
    FollowsSame(s);
    FollowsKin(s, s1);
    FateState(s, s1, x, s.pairs[x].state);
    var w := NextWaiting(s1, n);
    if w.Some? && HasComp(s1, s1.pairs[w.value].comp) {
      if t.send(w.value).NotSent? {
        RejectedIsFailed(s1, w.value);
        GivenUpIs(s1, w.value);
        GivenUpFate(s1, w.value, x);
        if Sweeps(s1, w.value, x) {
          GivenUpFollows(s1, w.value);
          FollowsSame(GivenUp(s1, w.value));
          GoneLater(s, s1, GivenUp(s1, w.value), GivenUp(s1, w.value), x, s.pairs[x].state, s.pairs[x].state);
        } else {
          FateTrans(s, s1, GivenUp(s1, w.value), x, s.pairs[x].state, false, s.pairs[x].state);
        }
      } else {
        StartedOther(s1, w.value, t, x);
        FateTrans(s, s1, OrdinaryCheck(s, n, t).0, x, s.pairs[x].state, false, s.pairs[x].state);
      }
    }
  }

  lemma StartedOther(s: State, y: PairId, t: TickInput, x: PairId)
    requires y in s.pairs && HasComp(s, s.pairs[y].comp) && t.send(y).SentOn? && Rooted(s, x) && x != y
    ensures Fate(s, Initiate(s, y, t, Ordinary(y)).0, x, false, s.pairs[x].state)
  {
  }

  lemma {:induction false} OrdinaryPhaseFate(s: State, n: nat, t: TickInput, x: PairId)
    requires Kin(s) && Below(s) && Rooted(s, x) && n <= |s.lists|
    ensures Fate(s, OrdinaryPhase(s, n, t).0, x, OrdinarySweeps(s, n, t, x), s.pairs[x].state)
    ensures !OrdinaryFails(s, n, t, {x})
    decreases |s.lists| - n
  {
    hide Kin, Below, Follows, Fate, Rooted, OrdinaryCheck, UnfreezeNext, Sweeps, First;
    FateSame(s, x);
    if n < |s.lists| {
      var (s1, sent) := OrdinaryCheck(s, n, t);
      OrdinaryFate(s, n, t, x);
      OrdinaryFollows(s, n, t);
      FollowsKin(s, s1);
      OrdinaryPhaseFollows(s1, n + 1, t);
      var u := if NextWaiting(s, n).None? then UnfreezeNext(s) else s;
      var w := NextWaiting(u, n);
      if w.Some? && HasComp(u, u.pairs[w.value].comp) && t.send(w.value).NotSent? && Sweeps(u, w.value, x) {
        FateGone(s, s1, x, s.pairs[x].state);
        NeverTried(s1, n + 1, t, x);
        GoneLater(s, s, s1, OrdinaryPhase(s1, n + 1, t).0, x, s.pairs[x].state, s.pairs[x].state);
      } else if !sent {
        FateState(s, s1, x, s.pairs[x].state);
        OrdinaryPhaseFate(s1, n + 1, t, x);
        FateTrans(s, s1, OrdinaryPhase(s1, n + 1, t).0, x, s.pairs[x].state, OrdinarySweeps(s1, n + 1, t, x), s.pairs[x].state);
      }
    }
  }

  lemma FateGone(s: State, t: State, x: PairId, state: CheckState)
    requires Below(s) && Follows(s, t) && x in s.pairs && Fate(s, t, x, true, state)
    ensures x !in t.pairs && x < t.nextPair
  {
  }

  lemma {:induction false} NeverTried(s: State, n: nat, t: TickInput, x: PairId)
    requires Kin(s) && Below(s) && n <= |s.lists| && x !in s.pairs && x < s.nextPair
    ensures !OrdinaryFails(s, n, t, {x})
    decreases |s.lists| - n
  {
    hide Kin, Below, Follows, OrdinaryCheck, UnfreezeNext;
    if n < |s.lists| {
      var s1 := OrdinaryCheck(s, n, t).0;
      UnfreezeKeys(s);
      OrdinaryFollows(s, n, t);
      FollowsKin(s, s1);
      StillGone(s, s1, x);
      NeverTried(s1, n + 1, t, x);
    }
  }

  lemma UnfreezeKeys(s: State)
    ensures UnfreezeNext(s).pairs.Keys == s.pairs.Keys
  {
    hide UnfreezeAlong, Flat;
    UnfreezeAlongTame(s.pairs, Flat(s.lists), {});
  }

  lemma StillGone(s: State, t: State, x: PairId)
    requires Follows(s, t) && x !in s.pairs && x < s.nextPair
    ensures x !in t.pairs && x < t.nextPair
  {
    assert x in t.pairs ==> FollowsPair(s, t, x);
  }

  /** The fate of a root in the sending phases. */
  lemma SendFate(s: State, t: TickInput, x: PairId)
    requires Kin(s) && Inv(s) && Rooted(s, x)
    ensures Fate(s, SendPhases(s, t).0, x, SweptAway(s, t, x),
                 Popping(GivesUp(s, t, {x}), Popped(s, |s.lists|, t, x), s.pairs[x].state))
  {
    hide Inv, Kin, Below, Follows, Fate, Thawed, GatheringIsEmpty, NominatedIsSelected, TriggeredPhase, StunPhase, OrdinaryPhase, TriggeredFails, StunFails, OrdinaryFails, TriggeredSweeps, StunSweeps, OrdinarySweeps, Popped;
    BelowFact(s);
    TriggeredFate(s, |s.lists|, t, x);
    TriggeredFollows(s, |s.lists|, t);
    TriggeredKeeps(s, |s.lists|, t);
    var (s1, sent1) := TriggeredPhase(s, |s.lists|, t);
    FollowsKin(s, s1);
    var st1 := Popping(TriggeredFails(s, |s.lists|, t, {x}), Popped(s, |s.lists|, t, x), s.pairs[x].state);
    var st := Popping(GivesUp(s, t, {x}), Popped(s, |s.lists|, t, x), s.pairs[x].state);
    FollowsSame(s1);
    StunPhaseFollows(s1, 0, t);
    var (s2, sent2) := StunPhase(s1, 0, t);
    FollowsKin(s1, s2);
    FollowsSame(s2);
    OrdinaryPhaseFollows(s2, 0, t);
    FollowsTrans(s1, s2, OrdinaryPhase(s2, 0, t).0);
    if TriggeredSweeps(s, |s.lists|, t, x) {
      GoneLater(s, s, s1, SendPhases(s, t).0, x, st1, st);
    } else if !sent1 {
      FateState(s, s1, x, st1);
      StunFate(s1, 0, t, x);
      var st2 := Running(StunFails(s1, 0, t, {x}), st1);
      if StunSweeps(s1, 0, t, x) {
        GoneLater(s, s1, s2, SendPhases(s, t).0, x, st2, st);
      } else {
        FateTrans(s, s1, s2, x, st1, false, st2);
        if !sent2 {
          FateState(s, s2, x, st2);
          OrdinaryPhaseFate(s2, 0, t, x);
          FateTrans(s, s2, OrdinaryPhase(s2, 0, t).0, x, st2, OrdinarySweeps(s2, 0, t, x), st2);
        }
      }
    }
  }

  // ----- a pair without business of its own

  // Nothing queued, nothing in flight: only the failure of the pair `q` that discovered it can touch it.
  predicate Quiet(s: State, d: PairId) {
    d in s.pairs && !Pending(s.pairs[d]) && d !in s.queue && s.pairs[d].stun == []
  }

  predicate Rests(s: State, u: State, d: PairId, failed: bool)
    requires d in s.pairs
  {
    && Quiet(u, d) && SameButWire(s.pairs[d], u.pairs[d])
    && (u.pairs[d].state == s.pairs[d].state || (failed && u.pairs[d].state.FailedCheck?))
  }

  lemma RestsTrans(s: State, t: State, u: State, d: PairId, a: bool, b: bool)
    requires d in s.pairs && Rests(s, t, d, a) && Rests(t, u, d, b)
    ensures Rests(s, u, d, a || b)
  {
  }

  lemma RestsSame(s: State, d: PairId)
    requires Quiet(s, d)
    ensures Rests(s, s, d, false)
  {
  }

  lemma RestsKeys(s: State, u: State, d: PairId)
    requires Quiet(s, d) && d in u.pairs && u.pairs[d] == s.pairs[d] && Subqueue(s.queue, u.queue)
    ensures Rests(s, u, d, false)
  {
  }

  lemma RestsIn(s: State, u: State, d: PairId, failed: bool)
    requires d in s.pairs && Rests(s, u, d, failed)
    ensures Quiet(u, d) && d in u.pairs && u.pairs[d].succeeded == s.pairs[d].succeeded
  {
  }

  lemma FailedQuiet(s: State, y: PairId, d: PairId)
    requires Kin(s) && y in s.pairs && Quiet(s, d)
    ensures Quiet(FailPair(s, y), d)
    ensures FailPair(s, y).pairs[d].state == s.pairs[d].state ||
            (FailPair(s, y).pairs[d].state.FailedCheck? && (y == d || s.pairs[d].succeeded == Some(y)))
  {
    assert KinPair(s, y);
  }

  lemma GivenUpRests(s: State, y: PairId, d: PairId)
    requires Kin(s) && y in s.pairs && s.pairs[y].comp < |s.comps| && Quiet(s, d) && y != d
    ensures Rests(s, GivenUp(s, y), d, s.pairs[d].succeeded == Some(y))
  {
    hide Kin, FailPair, UpdateForReady, HasValidNominated;
    var f, c, u := FailPair(s, y), s.pairs[y].comp, GivenUp(s, y);
    FailedQuiet(s, y, d);
    FailThins(s, y);
    UpdateForReadyKept(f, c, d);
    UpdateForReadyThins(f, c);
    ThinsTrans(s, f, u);
  }

  lemma StartedRests(s: State, y: PairId, t: TickInput, what: Sent, d: PairId)
    requires y in s.pairs && HasComp(s, s.pairs[y].comp) && t.send(y).SentOn? && Quiet(s, d) && y != d
    ensures Rests(s, Initiate(s, y, t, what).0, d, false)
  {
  }

  lemma {:induction false} TriggeredRests(s: State, streams: nat, t: TickInput, d: PairId, q: PairId)
    requires Kin(s) && Inv(s) && Quiet(s, d) && s.pairs[d].succeeded == Some(q)
    ensures Rests(s, TriggeredPhase(s, streams, t).0, d, TriggeredFails(s, streams, t, {q}))
    decreases streams
  {
    hide Inv, Kin, Below, Follows, Rests, Rejected, Initiate, FilterOut, GivenUp, Thawed, GatheringIsEmpty, NominatedIsSelected;
    RestsSame(s, d);
    if streams > 0 && s.queue != [] {
      var y := s.queue[0];
      var s1 := Dequeue(s, y);
      QueuedFact(s, y);
      DequeueKeeps(s, y);
      DequeueFollows(s, y);
      BelowFact(s);
      FollowsKin(s, s1);
      FilterOutMembers(s.queue, {y});
      RestsKeys(s, s1, d);
      SentIs(s1, y, t);
      if t.send(y).SentOn? {
        StartedRests(s1, y, t, Triggered(y), d);
        RestsTrans(s, s1, Initiate(s1, y, t, Triggered(y)).0, d, false, false);
      } else {
        PoppedUp(s, y);
        var s2 := GivenUp(s1, y);
        RejectedKeeps(s1, y);
        GivenUpFollows(s1, y);
        GivenUpRests(s1, y, d);
        RestsTrans(s, s1, s2, d, false, y == q);
        RestsIn(s, s2, d, y == q);
        TriggeredRests(s2, streams - 1, t, d, q);
        RestsTrans(s, s2, TriggeredPhase(s2, streams - 1, t).0, d, y == q, TriggeredFails(s2, streams - 1, t, {q}));
      }
    }
  }

  lemma TickPairRests(s: State, y: PairId, t: TickInput, d: PairId)
    requires Kin(s) && y in s.pairs && HasComp(s, s.pairs[y].comp) && Quiet(s, d)
    ensures Rests(s, TickPair(s, y, t).0, d, RunsOut(s.pairs[y], t) && s.pairs[d].succeeded == Some(y))
  {
    hide Kin, Rests, UpdateForReady, FailPair, ScanStun;
    var p := s.pairs[y];
    var scan := ScanStun(p.stun, true, p.retransmit, t);
    RestsSame(s, d);
    if RunsOut(p, t) {
      GivenUpRests(s, y, d);
    } else if p.stun != [] {
      ResentKept(p.stun, true, p.retransmit, t);
      RestsKeys(s, TickPair(s, y, t).0, d);
    }
  }

  lemma {:induction false} TickAlongRests(s: State, ids: seq<PairId>, t: TickInput, d: PairId, q: PairId)
    requires Kin(s) && Below(s) && Quiet(s, d) && s.pairs[d].succeeded == Some(q)
    ensures Rests(s, TickAlong(s, ids, t).0, d, AlongFails(s, ids, t, {q}))
    decreases |ids|
  {
    hide Kin, Below, Follows, Rests, TickPair, RunsOut;
    RestsSame(s, d);
    if ids != [] {
      if ids[0] in s.pairs && HasComp(s, s.pairs[ids[0]].comp) {
        var y := ids[0];
        var (s1, sent) := TickPair(s, y, t);
        TickPairRests(s, y, t, d);
        TickPairFollows(s, y, t);
        FollowsKin(s, s1);
        var failed := RunsOut(s.pairs[y], t) && y == q;
        if !sent {
          RestsIn(s, s1, d, failed);
          TickAlongRests(s1, ids[1..], t, d, q);
          RestsTrans(s, s1, TickAlong(s1, ids[1..], t).0, d, failed, AlongFails(s1, ids[1..], t, {q}));
        }
      } else {
        TickAlongRests(s, ids[1..], t, d, q);
      }
    }
  }

  lemma {:induction false} StunRests(s: State, n: nat, t: TickInput, d: PairId, q: PairId)
    requires Kin(s) && Below(s) && Quiet(s, d) && s.pairs[d].succeeded == Some(q) && n <= |s.lists|
    ensures Rests(s, StunPhase(s, n, t).0, d, StunFails(s, n, t, {q}))
    decreases |s.lists| - n
  {
    hide Kin, Below, Follows, Rests, TickAlong, AlongFails;
    RestsSame(s, d);
    if n < |s.lists| {
      var (s1, sent) := TickAlong(s, s.lists[n], t);
      TickAlongRests(s, s.lists[n], t, d, q);
      TickAlongFollows(s, s.lists[n], t);
      FollowsKin(s, s1);
      if !sent {
        RestsIn(s, s1, d, AlongFails(s, s.lists[n], t, {q}));
        StunRests(s1, n + 1, t, d, q);
        RestsTrans(s, s1, StunPhase(s1, n + 1, t).0, d, AlongFails(s, s.lists[n], t, {q}), StunFails(s1, n + 1, t, {q}));
      }
    }
  }

  lemma OrdinaryRests(s: State, n: nat, t: TickInput, d: PairId, q: PairId)
    requires Kin(s) && Below(s) && Quiet(s, d) && s.pairs[d].succeeded == Some(q) && n < |s.lists|
    ensures var s1 := if NextWaiting(s, n).None? then UnfreezeNext(s) else s;
            var w := NextWaiting(s1, n);
            Rests(s, OrdinaryCheck(s, n, t).0, d,
                  w.Some? && HasComp(s1, s1.pairs[w.value].comp) && t.send(w.value).NotSent? && w.value == q)
  {
    hide Kin, Below, Follows, Rests, UnfreezeNext, Rejected, GivenUp, Started;
    RestsSame(s, d);
    UnfrozenOther(s, d);
    RestsKeys(s, UnfreezeNext(s), d);
    UnfreezeNextFollows(s);
    FollowsSame(s);
    var s1 := if NextWaiting(s, n).None? then UnfreezeNext(s) else s;
    FollowsKin(s, s1);
    RestsIn(s, s1, d, false);
    var w := NextWaiting(s1, n);
    if w.Some? && HasComp(s1, s1.pairs[w.value].comp) {
      if t.send(w.value).NotSent? {
        RejectedIsFailed(s1, w.value);
        GivenUpIs(s1, w.value);
        GivenUpRests(s1, w.value, d);
        RestsTrans(s, s1, GivenUp(s1, w.value), d, false, w.value == q);
      } else {
        StartedRests(s1, w.value, t, Ordinary(w.value), d);
        RestsTrans(s, s1, OrdinaryCheck(s, n, t).0, d, false, false);
      }
    }
  }

  lemma {:induction false} OrdinaryPhaseRests(s: State, n: nat, t: TickInput, d: PairId, q: PairId)
    requires Kin(s) && Below(s) && Quiet(s, d) && s.pairs[d].succeeded == Some(q) && n <= |s.lists|
    ensures Rests(s, OrdinaryPhase(s, n, t).0, d, OrdinaryFails(s, n, t, {q}))
    decreases |s.lists| - n
  {
    hide Kin, Below, Follows, Rests, OrdinaryCheck, UnfreezeNext, First;
    RestsSame(s, d);
    if n < |s.lists| {
      var (s1, sent) := OrdinaryCheck(s, n, t);
      OrdinaryRests(s, n, t, d, q);
      OrdinaryFollows(s, n, t);
      FollowsKin(s, s1);
      var u := if NextWaiting(s, n).None? then UnfreezeNext(s) else s;
      var w := NextWaiting(u, n);
      var failed := w.Some? && HasComp(u, u.pairs[w.value].comp) && t.send(w.value).NotSent? && w.value == q;
      if !sent {
        RestsIn(s, s1, d, failed);
        OrdinaryPhaseRests(s1, n + 1, t, d, q);
        RestsTrans(s, s1, OrdinaryPhase(s1, n + 1, t).0, d, failed, OrdinaryFails(s1, n + 1, t, {q}));
      }
    }
  }

  /** A pair without business of its own stays, and is as it was unless the pair that discovered it is given up. */
  lemma SendRests(s: State, t: TickInput, d: PairId, q: PairId)
    requires Kin(s) && Inv(s) && Quiet(s, d) && s.pairs[d].succeeded == Some(q)
    ensures Rests(s, SendPhases(s, t).0, d, GivesUp(s, t, {q}))
  {
    hide Inv, Kin, Below, Follows, Rests, Thawed, GatheringIsEmpty, NominatedIsSelected, TriggeredPhase, StunPhase, OrdinaryPhase,
      TriggeredFails, StunFails, OrdinaryFails;
    BelowFact(s);
    TriggeredRests(s, |s.lists|, t, d, q);
    TriggeredFollows(s, |s.lists|, t);
    var (s1, sent1) := TriggeredPhase(s, |s.lists|, t);
    FollowsKin(s, s1);
    var a := TriggeredFails(s, |s.lists|, t, {q});
    RestsIn(s, s1, d, a);
    if !sent1 {
      StunRests(s1, 0, t, d, q);
      StunPhaseFollows(s1, 0, t);
      var (s2, sent2) := StunPhase(s1, 0, t);
      FollowsKin(s1, s2);
      var b := StunFails(s1, 0, t, {q});
      RestsTrans(s, s1, s2, d, a, b);
      RestsIn(s, s2, d, a || b);
      if !sent2 {
        OrdinaryPhaseRests(s2, 0, t, d, q);
        RestsTrans(s, s2, OrdinaryPhase(s2, 0, t).0, d, a || b, OrdinaryFails(s2, 0, t, {q}));
      } else {
        Weaken(s, s2, d, a || b, GivesUp(s, t, {q}));
      }
    } else {
      Weaken(s, s1, d, a, GivesUp(s, t, {q}));
    }
  }

  lemma Weaken(s: State, u: State, d: PairId, a: bool, b: bool)
    requires d in s.pairs && Rests(s, u, d, a) && (a ==> b)
    ensures Rests(s, u, d, b)
  {
  }
}
