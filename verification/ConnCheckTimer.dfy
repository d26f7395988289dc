/** The connectivity-check timer as the source runs it, on an agent updated in place.
Every method is proved against its definition in ConnCheckTick. */
module ConnCheckTimer {
  import opened Basics
  import opened ConnCheckState
  import opened ConnCheckSpec
  import opened ConnCheckInvariants
  import opened ConnCheckHandlers
  import opened ConnCheckTick
  import opened ConnCheckTicks
  import opened ConnCheckConfirm
  import opened ConnCheckScheduler
  import opened ConnCheckAgent

  // ----- starting a check

  method StartCheck(a: Agent, id: PairId, t: TickInput, o: SendOutcome, what: Sent)
    requires id in a.pairs && o.SentOn?
    modifies a`pairs, a`sent
    ensures a.Abs() == Started(old(a.Abs()), id, t, o).(sent := old(a.sent) + [what])
  {
    var p := a.pairs[id];
    a.pairs := a.pairs[id := p.(state := InProgress, sock := o.sock, retransmit := true,
                                stun := [NewStun(a.Abs(), t, o.timeout, o.left)] + p.stun)];
    a.sent := a.sent + [what];
  }

  method InitiateCheck(a: Agent, id: PairId, t: TickInput, what: Sent) returns (sent: bool)
    requires a.Valid() && id in a.pairs && HasComp(a.Abs(), a.pairs[id].comp)
    modifies a`pairs, a`lists, a`queue, a`comps, a`fault, a`sent
    ensures (a.Abs(), sent) == Initiate(old(a.Abs()), id, t, what) && a.Valid()
  {
    hide Inv, UpdateForReady, FailPair, Started, Thawed, GatheringIsEmpty, NominatedIsSelected;
    InitiateKeeps(a.Abs(), id, t, what);
    var c := a.pairs[id].comp;
    if t.send(id).NotSent? {
      SetPairKeeps(a.Abs(), id, a.pairs[id].(state := InProgress));
      a.pairs := a.pairs[id := a.pairs[id].(state := InProgress)];
      FailKeeps(a.Abs(), id);
      a.FailCheckPair(id);
      a.UpdateCheckListForReady(c);
      sent := false;
    } else {
      StartCheck(a, id, t, t.send(id), what);
      sent := true;
    }
  }

  // ----- triggered checks

  method RunTriggered(a: Agent, t: TickInput) returns (sent: bool)
    requires a.Valid()
    modifies a`pairs, a`lists, a`queue, a`comps, a`fault, a`sent
    ensures (a.Abs(), sent) == TriggeredPhase(old(a.Abs()), |old(a.lists)|, t) && a.Valid()
  {
    hide Inv, Initiate, TriggeredPhase, FilterOut, Thawed, GatheringIsEmpty, NominatedIsSelected;
    ghost var s := a.Abs();
    var i, streams := 0, |a.lists|;
    sent := false;
    while i < streams && !sent
      invariant 0 <= i <= streams && a.Valid()
      invariant TriggeredPhase(s, streams, t) ==
                if sent then (a.Abs(), true) else TriggeredPhase(a.Abs(), streams - i, t)
    {
      TriggeredStep(a.Abs(), streams - i, t);
      if a.queue != [] {
        var id := a.queue[0];
        DequeueKeeps(a.Abs(), id);
        a.queue := FilterOut(a.queue, {id});
        sent := InitiateCheck(a, id, t, Triggered(id));
      }
      i := i + 1;
    }
    TriggeredEnd(a.Abs(), t);
  }

  lemma TriggeredStep(s: State, streams: nat, t: TickInput)
    requires Inv(s) && streams > 0
    ensures if s.queue == [] then TriggeredPhase(s, streams, t) == TriggeredPhase(s, streams - 1, t) == (s, false)
            else
              var id := s.queue[0];
              var s1 := Dequeue(s, id);
              && id in s1.pairs && HasComp(s1, s1.pairs[id].comp)
              && TriggeredPhase(s, streams, t) ==
                 var r := Initiate(s1, id, t, Triggered(id));
                 if r.1 then r else TriggeredPhase(r.0, streams - 1, t)
  {
    hide Inv, Initiate, FilterOut;
    if s.queue != [] {
      QueueFact(s);
      OwnerFact(s, s.queue[0]);
    }
  }

  lemma TriggeredEnd(s: State, t: TickInput)
    ensures TriggeredPhase(s, 0, t) == (s, false)
  {
  }

  // ----- transactions in flight

  // What was kept so far, before the rest of the scan.
  ghost function Prepend(kept: seq<Stun>, rest: StunScan): StunScan {
    StunScan(kept + rest.kept, rest.resent)
  }

  method ScanTransactions(xs: seq<Stun>, retransmit: bool, t: TickInput) returns (kept: seq<Stun>, resent: bool)
    ensures StunScan(kept, resent) == ScanStun(xs, true, retransmit, t)
  {
    hide ScanStun, Refresh, Prepend, Keep;
    kept, resent := [], false;
    assert xs[0..] == xs;
    PrependNone(ScanStun(xs, true, retransmit, t));
    var k := 0;
    while k < |xs|
      invariant 0 <= k <= |xs|
      invariant ScanStun(xs, true, retransmit, t) == Prepend(kept, ScanStun(xs[k..], k == 0, retransmit, t))
    {
      var x := xs[k];
      ScanStunStep(xs[k..], k == 0, retransmit, t);
      assert xs[k..][1..] == xs[k + 1..];
      ghost var rest := ScanStun(xs[k + 1..], false, retransmit, t);
      if t.now < x.nextTick {
        PrependKeep(kept, x, rest);
        kept := kept + [x];
      } else {
        match Refresh(x, t)
        case Timeout =>
        case Retransmit(y) =>
          if retransmit && k == 0 {
            PrependLast(kept, StunScan([y] + xs[k + 1..], true));
            return kept + ([y] + xs[k + 1..]), true;
          }
        case Running(y) =>
          PrependKeep(kept, y, rest);
          kept := kept + [y];
      }
      k := k + 1;
    }
    ScanStunEnd(xs, |xs| == 0, retransmit, t);
    PrependLast(kept, StunScan([], false));
    assert kept + [] == kept;
  }

  lemma PrependNone(rest: StunScan)
    ensures Prepend([], rest) == rest
  {
    assert [] + rest.kept == rest.kept;
  }

  lemma PrependLast(kept: seq<Stun>, rest: StunScan)
    ensures Prepend(kept, rest) == StunScan(kept + rest.kept, rest.resent)
  {
  }

  lemma PrependKeep(kept: seq<Stun>, x: Stun, rest: StunScan)
    ensures Prepend(kept, Keep(x, rest)) == Prepend(kept + [x], rest)
  {
    assert kept + ([x] + rest.kept) == (kept + [x]) + rest.kept;
  }

  lemma ScanStunStep(xs: seq<Stun>, head: bool, retransmit: bool, t: TickInput)
    requires xs != []
    ensures ScanStun(xs, head, retransmit, t) ==
            if t.now < xs[0].nextTick then Keep(xs[0], ScanStun(xs[1..], false, retransmit, t))
            else
              match Refresh(xs[0], t)
              case Timeout => ScanStun(xs[1..], false, retransmit, t)
              case Retransmit(x) =>
                if head && retransmit then StunScan([x] + xs[1..], true) else ScanStun(xs[1..], false, retransmit, t)
              case Running(x) => Keep(x, ScanStun(xs[1..], false, retransmit, t))
  {
  }

  lemma ScanStunEnd(xs: seq<Stun>, head: bool, retransmit: bool, t: TickInput)
    ensures ScanStun(xs[|xs|..], head, retransmit, t) == StunScan([], false)
  {
  }

  method TickOnePair(a: Agent, id: PairId, t: TickInput) returns (sent: bool)
    requires a.Valid() && id in a.pairs && HasComp(a.Abs(), a.pairs[id].comp)
    modifies a`pairs, a`lists, a`queue, a`comps, a`fault, a`sent
    ensures (a.Abs(), sent) == TickPair(old(a.Abs()), id, t) && a.Valid()
  {
    hide Inv, ScanStun, UpdateForReady, FailPair, Thawed, GatheringIsEmpty, NominatedIsSelected;
    TickPairKeeps(a.Abs(), id, t);
    var p := a.pairs[id];
    if p.stun == [] {
      return false;
    }
    var kept, resent := ScanTransactions(p.stun, p.retransmit, t);
    if resent {
      a.pairs := a.pairs[id := p.(stun := kept)];
      a.sent := a.sent + [Retransmitted(id)];
      return true;
    }
    if kept == [] {
      FailKeeps(a.Abs(), id);
      a.FailCheckPair(id);
      a.UpdateCheckListForReady(p.comp);
    } else {
      a.pairs := a.pairs[id := p.(stun := kept)];
    }
    return false;
  }

  method TickStream(a: Agent, n: nat, t: TickInput) returns (sent: bool)
    requires a.Valid() && n < |a.lists|
    modifies a`pairs, a`lists, a`queue, a`comps, a`fault, a`sent
    ensures (a.Abs(), sent) == TickAlong(old(a.Abs()), old(a.lists[n]), t) && a.Valid()
  {
    hide Inv, TickAlong, TickPair;
    ghost var s := a.Abs();
    var ids := a.lists[n];
    assert ids[0..] == ids;
    for k := 0 to |ids|
      invariant a.Valid()
      invariant TickAlong(s, ids, t) == TickAlong(a.Abs(), ids[k..], t)
    {
      TickAlongStep(a.Abs(), ids[k..], t);
      assert ids[k..][1..] == ids[k + 1..];
      if ids[k] in a.pairs {
        var b := TickOnePair(a, ids[k], t);
        if b {
          return true;
        }
      }
    }
    TickAlongEnd(a.Abs(), ids, t);
    return false;
  }

  lemma TickAlongStep(s: State, ids: seq<PairId>, t: TickInput)
    requires Inv(s) && ids != []
    ensures ids[0] in s.pairs ==> HasComp(s, s.pairs[ids[0]].comp)
    ensures TickAlong(s, ids, t) ==
            if ids[0] !in s.pairs then TickAlong(s, ids[1..], t)
            else
              var r := TickPair(s, ids[0], t);
              if r.1 then r else TickAlong(r.0, ids[1..], t)
  {
    hide Inv, TickPair;
    if ids[0] in s.pairs {
      OwnerFact(s, ids[0]);
    }
  }

  lemma TickAlongEnd(s: State, ids: seq<PairId>, t: TickInput)
    ensures TickAlong(s, ids[|ids|..], t) == (s, false)
  {
  }

  method RunTransactions(a: Agent, t: TickInput) returns (sent: bool)
    requires a.Valid()
    modifies a`pairs, a`lists, a`queue, a`comps, a`fault, a`sent
    ensures (a.Abs(), sent) == StunPhase(old(a.Abs()), 0, t) && a.Valid()
  {
    hide Inv, TickAlong, StunPhase;
    ghost var s := a.Abs();
    var n := 0;
    sent := false;
    while n < |a.lists| && !sent
      invariant 0 <= n <= |a.lists| == |s.lists| && a.Valid()
      invariant StunPhase(s, 0, t) == if sent then (a.Abs(), true) else StunPhase(a.Abs(), n, t)
    {
      StunPhaseStep(a.Abs(), n, t);
      sent := TickStream(a, n, t);
      n := n + 1;
    }
    if !sent {
      StunPhaseStep(a.Abs(), n, t);
    }
  }

  lemma StunPhaseStep(s: State, n: nat, t: TickInput)
    requires n <= |s.lists|
    ensures StunPhase(s, n, t) ==
            if n == |s.lists| then (s, false)
            else
              var r := TickAlong(s, s.lists[n], t);
              if r.1 then r else StunPhase(r.0, n + 1, t)
  {
    hide TickAlong;
  }

  // ----- ordinary checks

  method CheckOrdinary(a: Agent, n: nat, t: TickInput) returns (sent: bool)
    requires a.Valid() && n < |a.lists|
    modifies a`pairs, a`lists, a`queue, a`comps, a`fault, a`sent
    ensures (a.Abs(), sent) == OrdinaryCheck(old(a.Abs()), n, t) && a.Valid()
  {
    hide Inv, NextWaiting, UnfreezeNext, Initiate, Thawed, GatheringIsEmpty, NominatedIsSelected;
    ghost var s := a.Abs();
    UnfreezeNextKeeps(s);
    var w := a.FindNextWaiting(n);
    if w.None? {
      var b := a.DoUnfreezeNext();
      w := a.FindNextWaiting(n);
    }
    if w.Some? {
      WaitingFact(a.Abs(), n);
      sent := InitiateCheck(a, w.value, t, Ordinary(w.value));
    } else {
      sent := false;
    }
  }

  lemma WaitingFact(s: State, n: nat)
    requires Inv(s) && n < |s.lists| && NextWaiting(s, n).Some?
    ensures NextWaiting(s, n).value in s.pairs && HasComp(s, s.pairs[NextWaiting(s, n).value].comp)
  {
    hide Inv;
    OwnerFact(s, NextWaiting(s, n).value);
  }

  method RunOrdinary(a: Agent, t: TickInput) returns (sent: bool)
    requires a.Valid()
    modifies a`pairs, a`lists, a`queue, a`comps, a`fault, a`sent
    ensures (a.Abs(), sent) == OrdinaryPhase(old(a.Abs()), 0, t) && a.Valid()
  {
    hide Inv, OrdinaryCheck, OrdinaryPhase;
    ghost var s := a.Abs();
    var n := 0;
    sent := false;
    while n < |a.lists| && !sent
      invariant 0 <= n <= |a.lists| == |s.lists| && a.Valid()
      invariant OrdinaryPhase(s, 0, t) == if sent then (a.Abs(), true) else OrdinaryPhase(a.Abs(), n, t)
    {
      OrdinaryPhaseStep(a.Abs(), n, t);
      sent := CheckOrdinary(a, n, t);
      n := n + 1;
    }
    if !sent {
      OrdinaryPhaseStep(a.Abs(), n, t);
    }
  }

  lemma OrdinaryPhaseStep(s: State, n: nat, t: TickInput)
    requires n <= |s.lists|
    ensures OrdinaryPhase(s, n, t) ==
            if n == |s.lists| then (s, false)
            else
              var r := OrdinaryCheck(s, n, t);
              if r.1 then r else OrdinaryPhase(r.0, n + 1, t)
  {
    hide OrdinaryCheck;
  }

  // ----- regular nomination

  method FindTakenElsewhere(a: Agent, n: nat) returns (found: Option<PairId>)
    requires a.Valid()
    ensures found == TakenElsewhere(a.Abs(), n, 0)
  {
    hide Inv, First, TakenElsewhere, Taken;
    ghost var s := a.Abs();
    for m := 0 to |a.lists|
      invariant TakenElsewhere(s, n, 0) == TakenElsewhere(s, n, m)
    {
      TakenStep(s, n, m);
      if m != n {
        for k := 0 to |a.lists[m]|
          invariant forall j :: 0 <= j < k ==> !Taken(s, a.lists[m][j])
        {
          if Taken(a.Abs(), a.lists[m][k]) {
            FirstAt(a.lists[m], (id: PairId) => Taken(s, id), k);
            return Some(a.lists[m][k]);
          }
        }
      }
    }
    TakenStep(s, n, |a.lists|);
    return None;
  }

  lemma TakenStep(s: State, n: nat, m: nat)
    requires m <= |s.lists|
    ensures TakenElsewhere(s, n, m) ==
            if m == |s.lists| then None
            else
              var here := if m == n then None else First(s.lists[m], (id: PairId) => Taken(s, id));
              if here.Some? then here else TakenElsewhere(s, n, m + 1)
  {
    hide First, Taken;
  }

  method FindTakenOther(a: Agent, n: nat, c: nat) returns (found: Option<PairId>)
    requires a.Valid() && n < |a.lists|
    ensures found == TakenOther(a.Abs(), n, c)
  {
    hide Inv, First, Taken;
    ghost var s := a.Abs();
    for k := 0 to |a.lists[n]|
      invariant forall j :: 0 <= j < k ==>
                  !(a.lists[n][j] in a.pairs && a.pairs[a.lists[n][j]].comp != c && Taken(a.Abs(), a.lists[n][j]))
    {
      var id := a.lists[n][k];
      if id in a.pairs && a.pairs[id].comp != c && Taken(a.Abs(), id) {
        FirstAt(a.lists[n], id => id in s.pairs && s.pairs[id].comp != c && Taken(s, id), k);
        return Some(id);
      }
    }
    return None;
  }

  /** What is counted of the pairs of a component before its nomination is decided. */
  method CountComponent(a: Agent, n: nat, c: nat) returns (already: bool, hostHost: nat, valid: nat, open: nat)
    requires a.Valid() && n < |a.lists|
    ensures already <==> exists id :: id in a.lists[n] && id in a.pairs && a.pairs[id].comp == c && a.pairs[id].useCandidate
    ensures hostHost > 0 <==> exists id :: id in a.lists[n] && HostHost(a.Abs(), c, id)
    ensures valid == Count(a.lists[n], ValidIn(a.Abs(), c))
    ensures open == 0 <==> forall id :: id in a.lists[n] && id in a.pairs && a.pairs[id].comp == c ==>
                             !Pending(a.pairs[id]) && !a.pairs[id].state.InProgress?
  {
    hide Inv, HostHost, Count;
    already, hostHost, valid, open := false, 0, 0, 0;
    ghost var s := a.Abs();
    var ids := a.lists[n];
    assert ids[0..] == ids;
    for k := 0 to |ids|
      invariant already <==> exists j :: 0 <= j < k && ids[j] in a.pairs && a.pairs[ids[j]].comp == c && a.pairs[ids[j]].useCandidate
      invariant hostHost > 0 <==> exists j :: 0 <= j < k && HostHost(s, c, ids[j])
      invariant Count(ids, ValidIn(s, c)) == valid + Count(ids[k..], ValidIn(s, c))
      invariant open == 0 <==> forall j :: 0 <= j < k && ids[j] in a.pairs && a.pairs[ids[j]].comp == c ==>
                                 !Pending(a.pairs[ids[j]]) && !a.pairs[ids[j]].state.InProgress?
    {
      CountStep(ids, k, ValidIn(s, c));
      var id := ids[k];
      if id in a.pairs && a.pairs[id].comp == c {
        if a.pairs[id].useCandidate {
          already := true;
        }
        if a.pairs[id].state.Frozen? || a.pairs[id].state.Waiting? || a.pairs[id].state.InProgress? {
          open := open + 1;
        }
        if a.pairs[id].valid {
          valid := valid + 1;
        }
      }
      if HostHost(a.Abs(), c, id) {
        hostHost := hostHost + 1;
      }
    }
    CountEnd(ids, ValidIn(s, c));
    if hostHost > 0 {
      ghost var j :| 0 <= j < |ids| && HostHost(s, c, ids[j]);
      assert ids[j] in ids;
    }
  }

  lemma CountStep(xs: seq<PairId>, k: nat, p: PairId -> bool)
    requires k < |xs|
    ensures Count(xs[k..], p) == (if p(xs[k]) then 1 else 0) + Count(xs[k + 1..], p)
  {
    assert xs[k..][0] == xs[k] && xs[k..][1..] == xs[k + 1..];
  }

  lemma CountEnd(xs: seq<PairId>, p: PairId -> bool)
    ensures Count(xs[|xs|..], p) == 0
  {
  }

  // The choice when `pick` stands for the pairs before the rest.
  ghost function Combine(pick: Option<PairId>, fine: bool, rest: Choice): Choice {
    Choice(if pick.Some? && !rest.matched then pick else rest.pick, rest.matched, fine && rest.confirmed)
  }

  method ChoosePair(a: Agent, c: nat, ids: seq<PairId>, like: Option<PairId>) returns (choice: Choice)
    requires a.Valid()
    ensures choice == Choose(a.Abs(), c, ids, like)
  {
    hide Inv, Choose, Eligible, Confirmed, SameKind;
    ghost var s := a.Abs();
    var pick, fine := None, true;
    assert ids[0..] == ids;
    for k := 0 to |ids|
      invariant pick.Some? ==> like.Some?
      invariant Choose(s, c, ids, like) == Combine(pick, fine, Choose(s, c, ids[k..], like))
    {
      ChooseStep(s, c, ids[k..], like);
      assert ids[k..][1..] == ids[k + 1..];
      if Eligible(a.Abs(), c, ids[k]) {
        EligibleFact(s, c, ids[k]);
        var q := Parent(a.Abs(), ids[k]);
        fine := fine && Confirmed(a.Abs(), ids[k]);
        if pick.None? {
          pick := Some(q);
        }
        if like.None? {
          return Choice(pick, false, fine);
        }
        if SameKind(a.Abs(), q, like.value) {
          return Choice(Some(q), true, fine);
        }
      }
    }
    ChooseEnd(s, c, ids, like);
    return Choice(pick, false, fine);
  }

  lemma EligibleFact(s: State, c: nat, id: PairId)
    requires Eligible(s, c, id)
    ensures id in s.pairs
  {
  }

  lemma ChooseStep(s: State, c: nat, ids: seq<PairId>, like: Option<PairId>)
    requires ids != []
    ensures Choose(s, c, ids, like) ==
            if !Eligible(s, c, ids[0]) then Choose(s, c, ids[1..], like)
            else if like.None? then Choice(Some(Parent(s, ids[0])), false, Confirmed(s, ids[0]))
            else if SameKind(s, Parent(s, ids[0]), like.value) then Choice(Some(Parent(s, ids[0])), true, Confirmed(s, ids[0]))
            else Combine(Some(Parent(s, ids[0])), Confirmed(s, ids[0]), Choose(s, c, ids[1..], like))
  {
  }

  lemma ChooseEnd(s: State, c: nat, ids: seq<PairId>, like: Option<PairId>)
    ensures Choose(s, c, ids[|ids|..], like) == Choice(None, false, true)
  {
  }

  method NominateComponent(a: Agent, n: nat, c: nat, elsewhere: Option<PairId>) returns (picked: bool)
    requires a.Valid() && n < |a.lists|
    modifies a`pairs, a`queue, a`timerOn, a`fault
    ensures (a.Abs(), picked) == NominateComp(old(a.Abs()), n, c, elsewhere)
  {
    hide Inv, Choose, TakenOther, HostHost, Count, Enqueue;
    picked := false;
    var already, hostHost, valid, open := CountComponent(a, n, c);
    if already {
      return;
    }
    var other := FindTakenOther(a, n, c);
    var like := if other.Some? then other else elsewhere;
    var choice := ChoosePair(a, c, a.lists[n], like);
    if !choice.confirmed {
      if a.fault.NoFault? {
        a.fault := ValidPairNotSucceeded;
      }
      return;
    }
    if choice.pick.None? || choice.pick.value !in a.pairs {
      return;
    }
    if (like.None? && hostHost > 0) || (like.None? && valid >= 2) || choice.matched || open == 0 {
      var q := choice.pick.value;
      a.pairs := a.pairs[q := a.pairs[q].(useCandidate := true)];
      a.AddToTriggeredQueue(q);
      picked := true;
    }
  }

  method NominateComponents(a: Agent, n: nat, elsewhere: Option<PairId>) returns (kept: bool)
    requires a.Valid() && n < |a.lists|
    modifies a`pairs, a`queue, a`timerOn, a`fault
    ensures (a.Abs(), kept) == NominateComps(old(a.Abs()), n, 0, elsewhere) && a.Valid()
  {
    hide Inv, NominateComp, NominateComps, Thawed, GatheringIsEmpty, NominatedIsSelected;
    ghost var s := a.Abs();
    kept := false;
    for c := 0 to |a.comps|
      invariant a.Valid() && |a.lists| == |s.lists| && |a.comps| == |s.comps|
      invariant var r := NominateComps(a.Abs(), n, c, elsewhere); NominateComps(s, n, 0, elsewhere) == (r.0, kept || r.1)
    {
      NominateCompsStep(a.Abs(), n, c, elsewhere);
      NominateCompKeeps(a.Abs(), n, c, elsewhere);
      if a.comps[c].stream == n {
        var picked := NominateComponent(a, n, c, elsewhere);
        kept := kept || picked;
      }
    }
    NominateCompsStep(a.Abs(), n, |a.comps|, elsewhere);
  }

  lemma NominateCompsStep(s: State, n: nat, c: nat, elsewhere: Option<PairId>)
    requires n < |s.lists| && c <= |s.comps|
    ensures NominateComps(s, n, c, elsewhere) ==
            if c == |s.comps| then (s, false)
            else
              var r := if s.comps[c].stream == n then NominateComp(s, n, c, elsewhere) else (s, false);
              var q := NominateComps(r.0, n, c + 1, elsewhere);
              (q.0, r.1 || q.1)
  {
    hide NominateComp;
  }

  // The stream-wide counts: pairs in progress, nominated, and still to be nominated.
  method CountStream(a: Agent, n: nat) returns (inProgress: nat, nominated: nat, waiting: nat)
    requires n < |a.lists|
    ensures inProgress > 0 <==> InProgressIn(a.Abs(), n)
    ensures nominated == Count(a.lists[n], NominatedIn(a.Abs()))
    ensures waiting > 0 <==> exists id :: id in a.lists[n] && Done(a.Abs(), id) && !a.pairs[id].nominated
  {
    hide Count;
    ghost var s := a.Abs();
    inProgress, nominated, waiting := 0, 0, 0;
    var ids := a.lists[n];
    assert ids[0..] == ids;
    for k := 0 to |ids|
      invariant inProgress > 0 <==> exists j :: 0 <= j < k && ids[j] in a.pairs && a.pairs[ids[j]].state.InProgress?
      invariant Count(ids, NominatedIn(s)) == nominated + Count(ids[k..], NominatedIn(s))
      invariant waiting > 0 <==> exists j :: 0 <= j < k && Done(s, ids[j]) && !a.pairs[ids[j]].nominated
    {
      CountStep(ids, k, NominatedIn(s));
      var id := ids[k];
      if id in a.pairs && a.pairs[id].state.InProgress? {
        inProgress := inProgress + 1;
      }
      if Done(a.Abs(), id) {
        if a.pairs[id].nominated {
          nominated := nominated + 1;
        } else {
          waiting := waiting + 1;
        }
      }
    }
    CountEnd(ids, NominatedIn(s));
  }

  method NominateInStream(a: Agent, n: nat) returns (kept: bool)
    requires a.Valid() && n < |a.lists|
    modifies a`pairs, a`queue, a`timerOn, a`fault
    ensures (a.Abs(), kept) == NominateStream(old(a.Abs()), n) && a.Valid()
  {
    hide Inv, NominateComps, InProgressIn, Count, Done, TakenElsewhere, ComponentCount;
    var elsewhere := FindTakenElsewhere(a, n);
    var inProgress, nominated, waiting := CountStream(a, n);
    kept := inProgress > 0;
    if nominated < ComponentCount(a.comps, n) && waiting > 0 {
      if a.cfg.regular && a.controlling {
        var more := NominateComponents(a, n, elsewhere);
        kept := kept || more;
      }
    }
  }

  method RunNominate(a: Agent) returns (kept: bool)
    requires a.Valid()
    modifies a`pairs, a`queue, a`timerOn, a`fault
    ensures (a.Abs(), kept) == NominatePhase(old(a.Abs()), 0) && a.Valid()
  {
    hide Inv, NominateStream, NominatePhase;
    ghost var s := a.Abs();
    kept := false;
    for n := 0 to |a.lists|
      invariant a.Valid() && |a.lists| == |s.lists|
      invariant var r := NominatePhase(a.Abs(), n); NominatePhase(s, 0) == (r.0, kept || r.1)
    {
      NominatePhaseStep(a.Abs(), n);
      var more := NominateInStream(a, n);
      kept := kept || more;
    }
    NominatePhaseStep(a.Abs(), |a.lists|);
  }

  lemma NominatePhaseStep(s: State, n: nat)
    requires n <= |s.lists|
    ensures NominatePhase(s, n) ==
            if n == |s.lists| then (s, false)
            else
              var r := NominateStream(s, n);
              var q := NominatePhase(r.0, n + 1);
              (q.0, r.1 || q.1)
  {
    hide NominateStream;
  }

  // ----- failed components

  method HasCompleted(a: Agent, c: nat) returns (b: bool)
    requires a.Valid() && HasComp(a.Abs(), c)
    ensures b == Completed(a.Abs(), c)
  {
    hide Inv, WellFormed;
    Sound(a.Abs());
    CountedAlong(a.Abs(), c);
    var n := a.comps[c].stream;
    for k := 0 to |a.lists[n]|
      invariant forall j :: 0 <= j < k && a.lists[n][j] in a.pairs && a.pairs[a.lists[n][j]].comp == c ==>
                  var p := a.pairs[a.lists[n][j]]; !p.nominated && !Pending(p) && !p.state.InProgress?
    {
      var id := a.lists[n][k];
      if id in a.pairs && a.pairs[id].comp == c {
        var p := a.pairs[id];
        if p.nominated || p.state.Frozen? || p.state.Waiting? || p.state.InProgress? {
          return false;
        }
      }
    }
    return true;
  }

  method UpdateFailedComponents(a: Agent)
    requires a.Valid()
    modifies a`comps
    ensures CompsOk(old(a.comps), |old(a.lists)|)
    ensures a.Abs() == FailComponents(old(a.Abs())) && a.Valid()
  {
    hide Inv, Completed, Thawed, GatheringIsEmpty, NominatedIsSelected;
    ghost var s := a.Abs();
    CompsFact(s);
    FailComponentsKeep(s);
    var comps := a.comps;
    for c := 0 to |comps|
      invariant a.Abs() == s && |comps| == |s.comps|
      invariant forall d :: 0 <= d < c ==> comps[d] == s.comps[d].(state := FailedComp(s, d))
      invariant forall d :: c <= d < |comps| ==> comps[d] == s.comps[d]
    {
      if a.lists[comps[c].stream] != [] && comps[c].remotes != [] {
        var b := HasCompleted(a, c);
        if b {
          comps := comps[c := comps[c].(state := Failed)];
        }
      }
    }
    a.comps := comps;
    assert a.comps == FailComponents(s).comps;
  }

  lemma FailWhileIdle(s: State, delay: nat)
    requires Inv(s)
    ensures CompsOk(s.comps, |s.lists|)
    ensures FailComponents(s.(idleDelay := delay)) == FailComponents(s).(idleDelay := delay)
  {
    CompsFact(s);
    hide Inv, Completed;
    assert forall c :: 0 <= c < |s.comps| ==> Completed(s.(idleDelay := delay), c) == Completed(s, c) by {
      forall c | 0 <= c < |s.comps|
        ensures Completed(s.(idleDelay := delay), c) == Completed(s, c)
      {
        CompletedIsOfPairs(s, delay, c);
      }
    }
    assert FailComponents(s.(idleDelay := delay)).comps == FailComponents(s).comps;
  }

  lemma CompletedIsOfPairs(s: State, delay: nat, c: nat)
    ensures Completed(s.(idleDelay := delay), c) == Completed(s, c)
  {
  }

  // ----- the tick

  method SendOne(a: Agent, t: TickInput) returns (sent: bool)
    requires a.Valid()
    modifies a`pairs, a`lists, a`queue, a`comps, a`fault, a`sent
    ensures (a.Abs(), sent) == SendPhases(old(a.Abs()), t) && a.Valid()
  {
    hide Inv, TriggeredPhase, StunPhase, OrdinaryPhase;
    sent := RunTriggered(a, t);
    if !sent {
      sent := RunTransactions(a, t);
    }
    if !sent {
      sent := RunOrdinary(a, t);
    }
  }

  // What a tick puts on the wire, and that it does not stop the timer after sending.
  lemma TickSends(s: State, t: TickInput)
    requires Inv(s)
    ensures CompsOk(s.comps, |s.lists|)
    ensures var (u, goesOn) := Tick(s, t);
            var k := |s.sent|;
            && (u.sent == s.sent || (|u.sent| == k + 1 && u.sent[..k] == s.sent))
            && (|u.sent| == k + 1 && u.sent[k].Triggered? ==> u.sent[k].id in s.queue)
            && (|u.sent| == k + 1 && u.sent[k].Retransmitted? ==> SendsAgain(s, t, u.sent[k].id, u))
            && (|u.sent| == k + 1 && u.sent[k].Ordinary? ==> ChecksHighest(s, u.sent[k].id, u))
            && (|u.sent| == k + 1 ==> goesOn)
  {
    hide Inv, SendPhases, NominatePhase, FailComponents, TriggeredPhase, StunPhase, SendsAgain, ChecksHighest, OnlyPicks, LinksOk,
      Thawed, GatheringIsEmpty, NominatedIsSelected;
    CompsFact(s);
    SchedulerGuarantee(s, t);
    SendPhasesKeep(s, t);
    var v := SendPhases(s, t).0;
    LinksFact(v);
    NominatePhasePicks(v, 0);
    if |Tick(s, t).0.sent| == |s.sent| + 1 {
      SentPicks(s, t, v, Tick(s, t).0);
    }
  }

  lemma PickedPair(v: State, u: State, x: PairId)
    requires OnlyPicks(v, u)
    ensures x in u.pairs <==> x in v.pairs
    ensures x in u.pairs ==> u.pairs[x].stun == v.pairs[x].stun && u.pairs[x].state == v.pairs[x].state
  {
    if x in v.pairs {
      assert SameButPick(v.pairs[x], u.pairs[x]);
    }
  }

  // The picks of nomination do not touch what was sent.
  lemma SentPicks(s: State, t: TickInput, v: State, u: State)
    requires exists w: State :: OnlyPicks(v, w) && u.pairs == w.pairs
    ensures forall id :: SendsAgain(s, t, id, v) ==> SendsAgain(s, t, id, u)
    ensures forall id :: ChecksHighest(s, id, v) ==> ChecksHighest(s, id, u)
  {
    hide OnlyPicks;
    var w: State :| OnlyPicks(v, w) && u.pairs == w.pairs;
    forall x: PairId
      ensures x in u.pairs <==> x in v.pairs
      ensures x in u.pairs ==> u.pairs[x].stun == v.pairs[x].stun && u.pairs[x].state == v.pairs[x].state
    {
      PickedPair(v, w, x);
    }
  }

  /** One tick: it does what Tick says, puts at most one request on the wire, a triggered one only for a
      queued pair, a retransmission only for a transaction that was due, an ordinary one only for the highest
      pair that could be checked, and stops the timer only when it sent nothing. */
  method TickAgent(a: Agent, t: TickInput) returns (goesOn: bool)
    requires a.Valid()
    modifies a`pairs, a`lists, a`queue, a`comps, a`fault, a`sent, a`timerOn, a`idleDelay
    ensures CompsOk(old(a.comps), |old(a.lists)|)
    ensures (a.Abs(), goesOn) == Tick(old(a.Abs()), t) && a.Valid()
    ensures a.sent == old(a.sent) || (|a.sent| == |old(a.sent)| + 1 && a.sent[..|old(a.sent)|] == old(a.sent))
    ensures |a.sent| > |old(a.sent)| ==>
              match a.sent[|old(a.sent)|]
              case Triggered(id) => id in old(a.queue)
              case Retransmitted(id) => SendsAgain(old(a.Abs()), t, id, a.Abs())
              case Ordinary(id) => ChecksHighest(old(a.Abs()), id, a.Abs())
    ensures !goesOn ==> a.sent == old(a.sent) && !a.timerOn && a.idleDelay == 0
  {
    hide Inv, SendPhases, NominatePhase, FailComponents, Thawed, GatheringIsEmpty, NominatedIsSelected;
    TickSends(a.Abs(), t);
    TickKeeps(a.Abs(), t);
    var sent := SendOne(a, t);
    var kept := RunNominate(a);
    ghost var s := a.Abs();
    if sent || kept {
      a.idleDelay := 0;
    } else {
      a.idleDelay := a.idleDelay + a.cfg.ta;
    }
    goesOn := true;
    if !(sent || kept) && a.idleDelay >= a.cfg.idleTimeout {
      if !t.discovering {
        TimerKeeps(s, a.Abs());
        FailWhileIdle(s, a.idleDelay);
        UpdateFailedComponents(a);
      }
      a.timerOn := false;
      a.idleDelay := 0;
      goesOn := false;
    }
  }
}
