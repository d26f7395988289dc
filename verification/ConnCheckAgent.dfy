/** The connectivity-check handlers as the source runs them: an agent whose fields are updated in place
by loops over the check lists. Every method is proved against its definition in ConnCheckSpec. */
module ConnCheckAgent {
  import opened Basics
  import opened CandidatePriority
  import opened ConnCheckState
  import opened ConnCheckSpec
  import opened ConnCheckInvariants
  import opened ConnCheckHandlers
  import opened ConnCheckReplies
  import opened ConnCheckSessions
  import opened ConnCheckTick
  import opened ConnCheckScheduler
  import opened ConnCheckFolds

  class Agent {
    var pairs: map<PairId, Pair>
    var lists: seq<seq<PairId>>
    var comps: seq<Component>
    var queue: seq<PairId>
    var cands: map<CandId, Candidate>
    var controlling: bool
    var nextPair: PairId
    var nextCand: CandId
    var timerOn: bool
    var idleDelay: nat
    var sent: seq<Sent>
    var fault: Fault
    var cfg: Config

    function Abs(): State
      reads this
    {
      State(pairs, lists, comps, queue, cands, controlling, nextPair, nextCand, timerOn, idleDelay, sent, fault, cfg)
    }

    ghost predicate Valid()
      reads this
    {
      Inv(Abs())
    }

    constructor (role: bool, config: Config)
      ensures Abs() == State(map[], [], [], [], map[], role, 0, 0, false, 0, [], NoFault, config)
      ensures Valid()
    {
      pairs, lists, comps, queue, cands := map[], [], [], [], map[];
      controlling, nextPair, nextCand, timerOn, idleDelay := role, 0, 0, false, 0;
      sent, fault, cfg := [], NoFault, config;
    }

    // ----- component states

    method SignalState(c: nat, to: ComponentState)
      requires c < |comps|
      modifies this`comps, this`fault
      ensures Abs() == Signal(old(Abs()), c, to)
      ensures comps[c].state == to <==> old(comps[c].state) == to || Legal(old(comps[c].state), to)
      ensures fault == old(fault) || (old(fault).NoFault? && comps == old(comps) && fault.IllegalTransition?)
    {
      if comps[c].state == to {
        return;
      }
      if !Legal(comps[c].state, to) {
        if fault.NoFault? {
          fault := IllegalTransition;
        }
        return;
      }
      comps := comps[c := comps[c].(state := to)];
    }

    // ----- the triggered-check queue

    method AddToTriggeredQueue(id: PairId)
      modifies this`queue, this`timerOn
      ensures Abs() == Enqueue(old(Abs()), id)
      ensures old(queue) <= queue && forall x :: x in queue <==> x in old(queue) || x == id
      ensures Distinct(old(queue)) ==> Distinct(queue)
    {
      if id !in queue {
        queue := queue + [id];
        timerOn := true;
      }
    }

    // ----- unfreezing

    method FindNextWaiting(n: nat) returns (w: Option<PairId>)
      requires n < |lists|
      ensures w == NextWaiting(Abs(), n)
    {
      hide First;
      for k := 0 to |lists[n]|
        invariant forall j :: 0 <= j < k ==> !(lists[n][j] in pairs && pairs[lists[n][j]].state.Waiting?)
      {
        if lists[n][k] in pairs && pairs[lists[n][k]].state.Waiting? {
          ghost var s := Abs();
          FirstAt(lists[n], id => id in s.pairs && s.pairs[id].state.Waiting?, k);
          return Some(lists[n][k]);
        }
      }
      return None;
    }

    method SomePairWaits() returns (b: bool)
      requires Valid()
      ensures b == SomeWaiting(Abs())
    {
      hide Inv, WellFormed;
      Sound(Abs());
      for n := 0 to |lists|
        invariant forall m, k :: 0 <= m < n && 0 <= k < |lists[m]| ==> lists[m][k] in pairs && !pairs[lists[m][k]].state.Waiting?
      {
        for k := 0 to |lists[n]|
          invariant forall j :: 0 <= j < k ==> lists[n][j] in pairs && !pairs[lists[n][j]].state.Waiting?
        {
          InList(Abs(), n, k);
          if pairs[lists[n][k]].state.Waiting? {
            return true;
          }
        }
      }
      if SomeWaiting(Abs()) {
        ghost var id :| id in pairs && pairs[id].state.Waiting?;
        ghost var m, k := Position(Abs(), id);
        assert false;
      }
      return false;
    }

    method DoUnfreezeNext() returns (b: bool)
      requires Valid()
      modifies this`pairs
      ensures Abs() == UnfreezeNext(old(Abs()))
    {
      hide Inv, WellFormed, UnfreezeAlong, Flat, SomeWaiting;
      ghost var s := Abs();
      Sound(s);
      var waits := SomePairWaits();
      if waits {
        return true;
      }
      assert lists[0..] == lists;
      b := false;
      var foundations: set<string> := {};
      for n := 0 to |lists|
        invariant UnfreezeAlong(s.pairs, Flat(lists), {}) == UnfreezeAlong(pairs, Flat(lists[n..]), foundations)
        invariant pairs.Keys == s.pairs.Keys
      {
        FlatStep(lists, n);
        assert lists[n][0..] == lists[n];
        for k := 0 to |lists[n]|
          invariant UnfreezeAlong(s.pairs, Flat(lists), {}) ==
                    UnfreezeAlong(pairs, lists[n][k..] + Flat(lists[n + 1..]), foundations)
          invariant pairs.Keys == s.pairs.Keys
        {
          InList(s, n, k);
          var id := lists[n][k];
          UnfreezeStep(pairs, lists[n], k, Flat(lists[n + 1..]), foundations);
          if pairs[id].foundation !in foundations && pairs[id].state.Frozen? {
            foundations := foundations + {pairs[id].foundation};
            pairs := pairs[id := pairs[id].(state := Waiting)];
            b := true;
          }
        }
        assert lists[n][|lists[n]|..] + Flat(lists[n + 1..]) == Flat(lists[n + 1..]);
      }
      FlatEnd(lists, pairs, foundations);
    }

    method DoUnfreezeRelated(foundation: string)
      requires Valid()
      modifies this`pairs
      ensures Abs() == UnfreezeRelated(old(Abs()), foundation)
    {
      hide Inv, WellFormed, Along, Flat;
      ghost var s := Abs();
      Sound(s);
      ghost var g := Thawer(foundation);
      assert lists[0..] == lists;
      for n := 0 to |lists|
        invariant Along(s.pairs, Flat(lists), g) == Along(pairs, Flat(lists[n..]), g)
        invariant pairs.Keys == s.pairs.Keys
      {
        FlatStep(lists, n);
        assert lists[n][0..] == lists[n];
        for k := 0 to |lists[n]|
          invariant Along(s.pairs, Flat(lists), g) == Along(pairs, lists[n][k..] + Flat(lists[n + 1..]), g)
          invariant pairs.Keys == s.pairs.Keys
        {
          InList(s, n, k);
          var id := lists[n][k];
          AlongStep(pairs, lists[n], k, Flat(lists[n + 1..]), g);
          SetSame(pairs, id);
          if pairs[id].state.Frozen? && pairs[id].foundation == foundation {
            pairs := pairs[id := pairs[id].(state := Waiting)];
          }
        }
        assert lists[n][|lists[n]|..] + Flat(lists[n + 1..]) == Flat(lists[n + 1..]);
      }
      AlongEnd(lists, pairs, g);
      ThawAll(s, foundation);
    }

    // ----- concluding a component

    // Takes a pair out of its list and frees it.
    method FreePair(n: nat, id: PairId)
      requires n < |lists|
      modifies this`pairs, this`lists, this`queue
      ensures Abs() == FreeFrom(old(Abs()), n, id)
    {
      queue := FilterOut(queue, {id});
      lists := lists[n := FilterOut(lists[n], {id})];
      pairs := pairs - {id};
    }

    method PrunePendingChecks(c: nat) returns (pending: nat)
      requires Valid() && c < |comps|
      modifies this`pairs, this`lists, this`queue
      ensures Abs() == PrunePending(old(Abs()), c)
      ensures pending > 0 <==> exists id :: id in old(pairs) && PruneCounts(old(Abs()), c, id)
    {
      hide Inv, WellFormed, PrunedUpTo, PrunePending, FilterOut, PruneDrops;
      ghost var s := Abs();
      Sound(s);
      CompFact(s, c);
      var n := comps[c].stream;
      var priority := comps[c].selPriority;
      var ids := lists[n];
      ghost var done: set<PairId> := {};
      pending := 0;
      PrunedStart(s, c, done);
      for k := 0 to |ids|
        invariant Abs() == PrunedUpTo(s, c, done)
        invariant |lists| == |s.lists|
        invariant done == set j | 0 <= j < k :: ids[j]
        invariant pending > 0 <==> exists j :: 0 <= j < k && ids[j] in s.pairs && PruneCounts(s, c, ids[j])
      {
        var id := ids[k];
        InList(s, n, k);
        ListDistinct(s, n);
        PrunedMember(s, c, done, id);
        PruneStep(s, c, done, id);
        PrunedListsOwn(s, c, done, n, id);
        FreeIsRemove(Abs(), n, id);
        var p := pairs[id];
        if p.comp == c {
          if id in queue && !p.state.InProgress? {
            if p.priority < priority {
              FreePair(n, id);
            } else {
              pending := pending + 1;
            }
          } else if p.state.Frozen? || p.state.Waiting? {
            FreePair(n, id);
          } else if p.state.InProgress? {
            if p.priority < priority {
              queue := FilterOut(queue, {id});
              pairs := pairs[id := p.(retransmit := false)];
            } else {
              if p.stun != [] {
                pairs := pairs[id := p.(retransmit := true)];
              }
              pending := pending + 1;
            }
          }
        }
        done := done + {id};
      }
      CountedAlong(s, c);
      PrunedEnd(s, c, done);
    }

    method HasNominated(c: nat) returns (b: bool)
      requires WellFormed(Abs()) && c < |comps|
      ensures b == HasValidNominated(Abs(), c)
    {
      hide WellFormed;
      CompFact(Abs(), c);
      CountedAlong(Abs(), c);
      var n := comps[c].stream;
      for k := 0 to |lists[n]|
        invariant forall j :: 0 <= j < k ==>
                    lists[n][j] in pairs &&
                    !(pairs[lists[n][j]].comp == c && pairs[lists[n][j]].valid && pairs[lists[n][j]].nominated)
      {
        InList(Abs(), n, k);
        if pairs[lists[n][k]].comp == c && pairs[lists[n][k]].valid && pairs[lists[n][k]].nominated {
          return true;
        }
      }
      return false;
    }

    // Walks the component through CONNECTING and CONNECTED to READY.
    method ConcludeComponent(c: nat)
      requires c < |comps|
      modifies this`comps, this`fault
      ensures Abs() == ConcludeReady(old(Abs()), c)
    {
      hide Signal;
      if comps[c].state in {Disconnected, Gathering, Failed} {
        SignalState(c, Connecting);
      }
      if comps[c].state in {Disconnected, Gathering, Connecting} {
        SignalState(c, Connected);
      }
      SignalState(c, Ready);
    }

    method UpdateCheckListForReady(c: nat)
      requires Valid() && c < |comps|
      modifies this`pairs, this`lists, this`queue, this`comps, this`fault
      ensures Abs() == UpdateForReady(old(Abs()), c) && Valid()
    {
      hide Inv, WellFormed, PrunePending, ConcludeReady, PruneCounts, HasValidNominated;
      ghost var s := Abs();
      Sound(s);
      var b := HasNominated(c);
      if b {
        if comps[c].selPriority == 0 {
          if fault.NoFault? {
            fault := ZeroSelectedPriority;
          }
        } else {
          var pending := PrunePendingChecks(c);
          if pending == 0 {
            ConcludeComponent(c);
          }
        }
      }
      UpdateForReadyKeeps(s, c);
    }

    // ----- failing and selecting

    method FailCheckPair(id: PairId)
      requires id in pairs
      modifies this`pairs
      ensures Abs() == FailPair(old(Abs()), id)
      ensures pairs.Keys == old(pairs).Keys && pairs[id].state.FailedCheck? && pairs[id].stun == []
      ensures forall x :: x in pairs && x != id ==>
                pairs[x] == if old(pairs)[id].discovered == Some(x) then old(pairs)[x].(state := FailedCheck) else old(pairs)[x]
    {
      pairs := pairs[id := pairs[id].(state := FailedCheck, stun := [], retransmit := false)];
      var d := pairs[id].discovered;
      if d.Some? && d.value in pairs {
        pairs := pairs[d.value := pairs[d.value].(state := FailedCheck)];
      }
    }

    method SelectIfHigher(c: nat, id: PairId)
      requires c < |comps| && id in pairs
      modifies this`comps
      ensures Abs() == UpdateSelected(old(Abs()), c, id)
      ensures comps[c].selPriority >= pairs[id].priority && comps[c].selPriority >= old(comps[c].selPriority)
      ensures comps[c].selPriority in {pairs[id].priority, old(comps[c].selPriority)}
    {
      var p := pairs[id];
      if p.priority > comps[c].selPriority {
        comps := comps[c := comps[c].(selLocal := Some(p.local), selRemote := Some(p.remote), selPriority := p.priority)];
      }
    }

    // ----- creating pairs

    method HasSucceededPair(foundation: string) returns (b: bool)
      requires WellFormed(Abs())
      ensures b == HasSucceeded(pairs, foundation)
    {
      hide WellFormed;
      for n := 0 to |lists|
        invariant forall m, k :: 0 <= m < n && 0 <= k < |lists[m]| ==>
                    lists[m][k] in pairs && !(pairs[lists[m][k]].state.Succeeded? && pairs[lists[m][k]].foundation == foundation)
      {
        for k := 0 to |lists[n]|
          invariant forall j :: 0 <= j < k ==>
                      lists[n][j] in pairs && !(pairs[lists[n][j]].state.Succeeded? && pairs[lists[n][j]].foundation == foundation)
        {
          InList(Abs(), n, k);
          if pairs[lists[n][k]].state.Succeeded? && pairs[lists[n][k]].foundation == foundation {
            return true;
          }
        }
      }
      if HasSucceeded(pairs, foundation) {
        ghost var id :| id in pairs && pairs[id].state.Succeeded? && pairs[id].foundation == foundation;
        ghost var m, k := Position(Abs(), id);
        assert false;
      }
      return false;
    }

    // Frees the FAILED pairs of a list, and its FROZEN pairs beyond the size limit.
    method LimitListSize(n: nat, id: PairId) returns (deleted: bool)
      requires WellFormed(Abs()) && n < |lists|
      modifies this`pairs, this`lists, this`queue
      ensures Abs() == RemovePairs(old(Abs()), LimitDrops(old(Abs()), n))
      ensures deleted == (id in LimitDrops(old(Abs()), n))
    {
      hide WellFormed, FilterOut, LimitUpTo, RemovePairs, LimitDrops;
      ghost var s := Abs();
      var ids := lists[n];
      var valid := 0;
      deleted := false;
      LimitNone(s, n);
      RemoveNothing(s);
      ListDistinct(s, n);
      for k := 0 to |ids|
        invariant Abs() == RemovePairs(s, LimitUpTo(s, n, k)) && |lists| == |s.lists| && cfg == s.cfg
        invariant valid == k
        invariant deleted == (id in LimitUpTo(s, n, k))
      {
        InList(s, n, k);
        LimitStep(s, n, k);
        LimitMember(s, n, k);
        var q := ids[k];
        RemovedMember(s, LimitUpTo(s, n, k), q);
        RemovedListsOwn(s, LimitUpTo(s, n, k), n, q);
        valid := valid + 1;
        var p := pairs[q];
        if (valid > cfg.maxChecks && p.state.Frozen?) || p.state.FailedCheck? {
          if q == id {
            deleted := true;
          }
          RemoveTwice(s, LimitUpTo(s, n, k), {q});
          FreeIsRemove(Abs(), n, q);
          FreePair(n, q);
        } else {
          assert LimitUpTo(s, n, k + 1) == LimitUpTo(s, n, k);
        }
      }
      LimitEnd(s, n);
    }

    // Makes a pair and puts it in its list by priority.
    method InsertPair(p: Pair)
      requires Valid() && Placed(Abs(), p)
      modifies this`pairs, this`lists, this`nextPair, this`timerOn
      ensures Abs() == Listed(old(Abs()), p).(timerOn := true) && WellFormed(Abs())
    {
      hide Inv, WellFormed, Sorted, InsertSorted;
      ghost var s := Abs();
      Sound(s);
      SoundOrder(s);
      ListedWellFormed(s, p);
      var n := comps[p.comp].stream;
      pairs := pairs[nextPair := p];
      lists := lists[n := InsertSorted(lists[n], nextPair, pairs)];
      nextPair := nextPair + 1;
      timerOn := true;
      TimerWellFormed(Listed(s, p), true);
    }

    method AddCheckPair(c: nat, l: CandId, r: CandId, initial: CheckState) returns (made: Option<PairId>)
      requires Valid() && CanPair(Abs(), c, l, r) && initial in {Frozen, Waiting}
      modifies this`pairs, this`lists, this`queue, this`nextPair, this`timerOn
      ensures (Abs(), made) == AddNewCheckPair(old(Abs()), c, l, r, initial)
    {
      hide Inv, WellFormed, RemovePairs, LimitDrops, HasSucceeded, Listed, NewPair;
      ghost var s := Abs();
      var p := NewPair(Abs(), c, l, r, initial);
      NewPairPlaced(s, c, l, r, initial);
      if comps[c].selPriority > 0 && p.priority < comps[c].selPriority {
        return None;
      }
      var id, n := nextPair, comps[c].stream;
      InsertPair(p);
      if initial.Frozen? {
        var b := HasSucceededPair(p.foundation);
        NewcomerSucceeds(s, p);
        ThawNewcomer(s, p);
        if b {
          pairs := pairs[id := pairs[id].(state := Waiting)];
        }
      }
      assert Abs() == Admitted(s, p);
      var deleted := LimitListSize(n, id);
      made := if deleted then None else Some(id);
    }

    method AddMatchedPair(c: nat, l: CandId, r: CandId, initial: CheckState) returns (made: Option<PairId>)
      requires Valid() && CanPair(Abs(), c, l, r) && initial in {Frozen, Waiting}
      modifies this`pairs, this`lists, this`queue, this`nextPair, this`timerOn, this`comps, this`fault
      ensures (Abs(), made) == AddPairMatched(old(Abs()), c, l, r, initial) && Valid()
    {
      hide Inv, AddNewCheckPair;
      AddPairKeeps(Abs(), c, l, r, initial);
      made := AddCheckPair(c, l, r, initial);
      if made.Some? {
        if comps[c].state.Connected? || comps[c].state.Ready? {
          SignalState(c, Connected);
        } else {
          SignalState(c, Connecting);
        }
      }
    }

    // ----- roles

    method RecalculatePairPriorities()
      requires WellFormed(Abs())
      modifies this`pairs, this`lists
      ensures Abs() == Recalculate(old(Abs()))
    {
      hide WellFormed, StableSort, RepricedIn, Repriced, Reprice;
      ghost var s := Abs();
      ghost var done: set<PairId> := {};
      RepricedNone(s);
      for n := 0 to |lists|
        invariant |lists| == |s.lists| && pairs == RepricedIn(s, done)
        invariant forall m :: 0 <= m < n ==> lists[m] == StableSort(s.lists[m], Repriced(s))
        invariant forall m :: n <= m < |lists| ==> lists[m] == s.lists[m]
        invariant forall m, k :: 0 <= m < n && 0 <= k < |s.lists[m]| ==> s.lists[m][k] in done
      {
        var ids := lists[n];
        ghost var before, was := done, lists;
        for k := 0 to |ids|
          invariant pairs == RepricedIn(s, done) && lists == was
          invariant before <= done && forall j :: 0 <= j < k ==> ids[j] in done && ids[j] in s.pairs
        {
          InList(s, n, k);
          RepricedMember(s, done, ids[k]);
          pairs := pairs[ids[k] := Reprice(pairs[ids[k]], cands, controlling)];
          done := done + {ids[k]};
        }
        ListDistinct(s, n);
        SortRepriced(s, done, ids);
        lists := lists[n := StableSort(ids, pairs)];
      }
      RepricedAll(s, done);
      assert lists == Recalculate(s).lists;
    }

    // The role changes only together with every priority and the order of every list.
    method CheckRoleConflict(control: bool)
      requires Valid()
      modifies this`pairs, this`lists, this`controlling
      ensures Abs() == CheckForRoleConflict(old(Abs()), control) && Valid()
      ensures controlling == control && Priced(pairs, cands, control) && Sorted(lists, pairs)
      ensures pairs.Keys == old(pairs).Keys
      ensures forall id :: id in pairs ==> pairs[id] == old(pairs)[id].(priority := pairs[id].priority)
      ensures |lists| == |old(lists)| && forall n :: 0 <= n < |lists| ==> multiset(lists[n]) == multiset(old(lists[n]))
      ensures control == old(controlling) ==> Abs() == old(Abs())
    {
      hide Inv, WellFormed, Recalculate, Thawed, GatheringIsEmpty, NominatedIsSelected, Priced, Sorted;
      RoleConflictKeeps(Abs(), control);
      ConflictEffect(Abs(), control);
      if control != controlling {
        Sound(Abs());
        RoleIrrelevant(Abs(), control);
        controlling := control;
        RecalculatePairPriorities();
      }
      SoundOrder(Abs());
    }

    // ----- inbound checks

    method FindMatchingPair(c: nat, sock: Option<nat>, r: CandId) returns (found: Option<PairId>)
      requires WellFormed(Abs()) && HasComp(Abs(), c)
      ensures found == MatchingPair(Abs(), c, sock, r)
    {
      hide WellFormed, First;
      var n := comps[c].stream;
      for k := 0 to |lists[n]|
        invariant forall j :: 0 <= j < k ==>
                    lists[n][j] in pairs &&
                    !(pairs[lists[n][j]].comp == c && pairs[lists[n][j]].remote == r && pairs[lists[n][j]].sock == sock)
      {
        InList(Abs(), n, k);
        var p := pairs[lists[n][k]];
        if p.comp == c && p.remote == r && p.sock == sock {
          ghost var s := Abs();
          FirstAt(lists[n], id => id in s.pairs && s.pairs[id].comp == c && s.pairs[id].remote == r && s.pairs[id].sock == sock, k);
          return Some(lists[n][k]);
        }
      }
      return None;
    }

    method FindLocalOnSocket(c: nat, sock: Option<nat>) returns (found: Option<CandId>)
      requires c < |comps|
      ensures found == LocalOnSocket(Abs(), c, sock) && (found.Some? ==> found.value in comps[c].locals)
    {
      hide First;
      var locals := comps[c].locals;
      for k := 0 to |locals|
        invariant forall j :: 0 <= j < k ==> !(locals[j] in cands && cands[locals[j]].sock == sock)
      {
        if locals[k] in cands && cands[locals[k]].sock == sock {
          ghost var s := Abs();
          FirstAt(locals, x => x in s.cands && s.cands[x].sock == sock, k);
          return Some(locals[k]);
        }
      }
      return None;
    }

    // The matching pair of an inbound check is checked again, if that can still matter.
    method TriggerMatched(c: nat, id: PairId)
      requires c < |comps| && id in pairs
      modifies this`queue, this`timerOn, this`comps, this`fault
      ensures Abs() == TriggerPair(old(Abs()), c, id)
    {
      hide Signal;
      var p := pairs[id];
      match p.state
      case Waiting => AddToTriggeredQueue(id);
      case Frozen => AddToTriggeredQueue(id);
      case InProgress =>
        if p.priority > comps[c].selPriority {
          AddToTriggeredQueue(id);
        }
      case FailedCheck =>
        if p.priority > comps[c].selPriority {
          AddToTriggeredQueue(id);
          if comps[c].state.Failed? {
            SignalState(c, Connecting);
          } else if comps[c].state.Ready? {
            SignalState(c, Connected);
          }
        }
      case Succeeded =>
      case Discovered =>
    }

    method ScheduleTriggeredCheck(c: nat, sock: Option<nat>, r: CandId)
      requires Valid() && HasComp(Abs(), c) && r in cands
      modifies this`pairs, this`lists, this`queue, this`nextPair, this`timerOn, this`comps, this`fault
      ensures Abs() == ScheduleTriggered(old(Abs()), c, sock, r) && Valid()
    {
      hide Inv, WellFormed, MatchingPair, LocalOnSocket, TriggerPair, AddPairMatched, Enqueue, Thawed,
        GatheringIsEmpty, NominatedIsSelected;
      Sound(Abs());
      ScheduleKeeps(Abs(), c, sock, r);
      var found := FindMatchingPair(c, sock, r);
      if found.Some? {
        MatchingIsPair(Abs(), c, sock, r);
        var p := pairs[found.value];
        TriggerMatched(c, if p.succeeded.Some? && p.succeeded.value in pairs then p.succeeded.value else found.value);
        return;
      }
      var local := FindLocalOnSocket(c, sock);
      if local.Some? && local.value in cands && cands[local.value].isLocal && cands[local.value].owner == c {
        var made := AddMatchedPair(c, local.value, r, Waiting);
        if made.Some? {
          AddToTriggeredQueue(made.value);
        }
      }
    }

    // A valid pair that the remote agent nominated.
    method NominateValidPair(c: nat, q: PairId)
      requires HasComp(Abs(), c) && q in pairs
      modifies this`pairs, this`comps, this`fault
      ensures Abs() == NominateValid(old(Abs()), c, q)
    {
      hide Signal, UpdateSelected;
      pairs := pairs[q := pairs[q].(nominated := true)];
      NominateAnyOrder(old(Abs()), c, q);
      if comps[c].state.Failed? {
        SignalState(c, Connecting);
      }
      SelectIfHigher(c, q);
      if comps[c].state.Connecting? {
        SignalState(c, Connected);
      }
    }


    method MarkOnePair(c: nat, id: PairId)
      requires Valid() && HasComp(Abs(), c) && id in pairs && pairs[id].comp == c
      modifies this`pairs, this`lists, this`queue, this`comps, this`fault
      ensures Abs() == MarkOne(old(Abs()), c, id) && Valid()
    {
      hide Inv, NominateValid, UpdateForReady, Thawed, GatheringIsEmpty, NominatedIsSelected;
      ghost var s := Abs();
      TargetComp(s, id);
      var q := NominationTarget(Abs(), id);
      if q in queue || pairs[q].state.InProgress? {
        SetPairKeeps(Abs(), q, pairs[q].(markNominated := true));
        pairs := pairs[q := pairs[q].(markNominated := true)];
      }
      var nominated := pairs[q].valid || pairs[q].nominated;
      if pairs[q].valid {
        NominateValidKeeps(Abs(), c, q);
        NominateValidPair(c, q);
      }
      if nominated {
        UpdateCheckListForReady(c);
      }
    }

    method MarkPairNominated(c: nat, l: CandId, r: CandId)
      requires Valid() && HasComp(Abs(), c) && l in cands && cands[l].owner == c
      modifies this`pairs, this`lists, this`queue, this`comps, this`fault
      ensures Abs() == MarkNominated(old(Abs()), c, l, r) && Valid()
    {
      hide Inv, MarkOne, MarkAlong;
      if controlling {
        return;
      }
      ghost var s := Abs();
      var ids := lists[comps[c].stream];
      assert ids[0..] == ids;
      for k := 0 to |ids|
        invariant Valid() && HasComp(Abs(), c)
        invariant MarkAlong(s, c, l, r, ids) == MarkAlong(Abs(), c, l, r, ids[k..])
      {
        MarkStep(Abs(), c, l, r, ids[k..]);
        assert ids[k..][1..] == ids[k + 1..];
        if ids[k] in pairs && pairs[ids[k]].local == l && pairs[ids[k]].remote == r {
          OwnerFact(Abs(), ids[k]);
          MarkOnePair(c, ids[k]);
        }
      }
      MarkEnd(Abs(), c, l, r, ids);
    }

    // ----- replies to our checks

    method RemoveTransaction(id: PairId, k: nat)
      requires id in pairs && k < |pairs[id].stun|
      modifies this`pairs
      ensures Abs() == DropStun(old(Abs()), id, k)
    {
      var p := pairs[id];
      var rest := p.stun[..k] + p.stun[k + 1..];
      pairs := pairs[id := p.(stun := rest)];
      if rest == [] {
        pairs := pairs[id := p.(stun := rest, retransmit := false)];
      }
    }

    method MarkSucceeded(id: PairId)
      requires id in pairs
      modifies this`pairs, this`queue
      ensures Abs() == Succeed(old(Abs()), id)
    {
      hide FilterOut;
      pairs := pairs[id := pairs[id].(state := Succeeded)];
      queue := FilterOut(queue, {id});
      pairs := pairs[id := pairs[id].(stun := [], retransmit := false)];
      assert pairs == Succeed(old(Abs()), id).pairs;
    }

    // A new pair, valid and linked with the pair whose check discovered it, takes its place in the list.
    method AddPeerReflexivePair(l: CandId, parent: PairId) returns (id: PairId)
      requires Valid() && parent in pairs && HasComp(Abs(), pairs[parent].comp) && pairs[parent].remote in cands
      requires l in cands && cands[l].isLocal && cands[l].owner == pairs[parent].comp
      modifies this`pairs, this`lists, this`nextPair
      ensures Abs() == AddPeerReflexive(old(Abs()), l, parent) && id == old(nextPair) && Valid()
      ensures id !in old(pairs) && pairs.Keys == old(pairs).Keys + {id}
      ensures forall x :: x in old(pairs) && x != parent ==> pairs[x] == old(pairs)[x]
      ensures pairs[parent] == old(pairs)[parent].(discovered := Some(id)) && pairs[id].succeeded == Some(parent)
      ensures pairs[id].state.Discovered? && pairs[id].valid && pairs[id].nominated == pairs[parent].nominated
      ensures pairs[id].local == l && pairs[id].remote == pairs[parent].remote && pairs[id].comp == pairs[parent].comp
      ensures pairs[id].priority == AgentPairPriority(controlling, cands[l].priority, cands[pairs[id].remote].priority)
      ensures Sorted(lists, pairs) && id in StreamList(Abs(), pairs[id].comp)
    {
      hide InsertSorted, Inv, AddPeerReflexive, Sorted;
      AddPeerReflexiveInv(Abs(), l, parent);
      AddPeerReflexiveBase(Abs(), l, parent);
      FreshFrom(Abs(), parent);
      AddedPeerReflexive(Abs(), l, parent);
      var p := DiscoveredPair(Abs(), l, parent);
      var n := comps[p.comp].stream;
      id := nextPair;
      var linked := pairs[parent].(discovered := Some(id));
      pairs := pairs[id := p];
      lists := lists[n := InsertSorted(lists[n], id, pairs)];
      nextPair := nextPair + 1;
      pairs := pairs[parent := linked];
      SoundOrder(Abs());
    }

    method FindMappedPair(c: nat, r: CandId, m: Mapped) returns (found: Option<PairId>)
      requires WellFormed(Abs()) && HasComp(Abs(), c)
      ensures found == MappedPair(Abs(), c, r, m)
    {
      hide WellFormed, First;
      if !m.Known? {
        return None;
      }
      var n := comps[c].stream;
      for k := 0 to |lists[n]|
        invariant forall j :: 0 <= j < k ==>
                    lists[n][j] in pairs && !(pairs[lists[n][j]].local == m.local && pairs[lists[n][j]].remote == r)
      {
        InList(Abs(), n, k);
        var p := pairs[lists[n][k]];
        if p.local == m.local && p.remote == r {
          ghost var s := Abs();
          FirstAt(lists[n], q => q in s.pairs && s.pairs[q].local == m.local && s.pairs[q].remote == r, k);
          return Some(lists[n][k]);
        }
      }
      return None;
    }

    method ConfirmPair(id: PairId, q: PairId)
      requires id in pairs && q in pairs
      modifies this`pairs
      ensures Abs() == Confirm(old(Abs()), id, q)
    {
      if q == id {
        pairs := pairs[id := pairs[id].(valid := true)];
      } else {
        pairs := pairs[q := pairs[q].(state := Discovered)];
      }
    }

    method LearnCandidate(c: nat, k: Candidate) returns (l: CandId)
      requires c < |comps|
      modifies this`cands, this`nextCand, this`comps
      ensures Abs() == LearnLocal(old(Abs()), c, k) && l == old(nextCand)
    {
      l := nextCand;
      cands := cands[l := k];
      nextCand := nextCand + 1;
      comps := comps[c := comps[c].(locals := comps[c].locals + [l])];
    }

    method DiscoverPair(id: PairId, m: Mapped) returns (ok: PairId)
      requires Valid() && id in pairs && HasComp(Abs(), pairs[id].comp) && pairs[id].remote in cands
      requires MappedOk(Abs(), pairs[id].comp, m) && !m.NoAddress?
      modifies this`pairs, this`lists, this`nextPair, this`cands, this`nextCand, this`comps
      ensures Abs() == Discover(old(Abs()), id, m) && ok == old(nextPair) && Valid()
    {
      hide Inv, AddPeerReflexive, Sorted;
      if m.Known? {
        ok := AddPeerReflexivePair(m.local, id);
      } else {
        LearnLocalInv(Abs(), pairs[id].comp, m.learned);
        var l := LearnCandidate(pairs[id].comp, m.learned);
        ok := AddPeerReflexivePair(l, id);
      }
    }

    method ProcessReflexive(id: PairId, r: CandId, m: Mapped) returns (ok: Option<PairId>)
      requires Valid() && id in pairs && HasComp(Abs(), pairs[id].comp) && pairs[id].remote in cands
      requires MappedOk(Abs(), pairs[id].comp, m) && !m.NoAddress?
      modifies this`pairs, this`lists, this`queue, this`nextPair, this`cands, this`nextCand, this`comps
      ensures (Abs(), ok) == ProcessResponse(old(Abs()), id, r, m)
    {
      hide Inv, WellFormed, MappedPair, Succeed, Discover, Confirm;
      Sound(Abs());
      FoundComp(Abs(), id, r, m);
      ok := FindMappedPair(pairs[id].comp, r, m);
      if ok.Some? {
        ConfirmPair(id, ok.value);
      } else if m.Known? || !cfg.forceRelay {
        var q := DiscoverPair(id, m);
        ok := Some(q);
      }
      MarkSucceeded(id);
    }

    method ConcludeAnswer(id: PairId, ok: PairId)
      requires Valid() && id in pairs && ok in pairs && HasComp(Abs(), pairs[id].comp)
      requires pairs[ok].comp == pairs[id].comp
      modifies this`pairs, this`lists, this`queue, this`comps, this`fault
      ensures Abs() == FinishReply(old(Abs()), id, ok) && Valid()
    {
      hide Inv, UpdateForReady, UpdateSelected, Signal, NominateOk, Thawed, GatheringIsEmpty, NominatedIsSelected;
      ghost var s := Abs();
      NotDisconnected(s, id);
      var c := pairs[id].comp;
      if Nominates(Abs(), pairs[id]) {
        pairs := pairs[ok := pairs[ok].(nominated := true)];
      }
      if pairs[ok].nominated {
        NominateOkAnyOrder(s, c, ok);
        NominateOkInv(s, c, ok);
        SetSame(s.pairs, ok);
        assert Abs() == SetPair(s, ok, s.pairs[ok].(nominated := true));
        SelectIfHigher(c, ok);
        if !comps[c].state.Ready? {
          SignalState(c, Connected);
        }
      }
      UpdateCheckListForReady(c);
    }

    method HandleSuccess(id: PairId, r: CandId, m: Mapped) returns (ok: PairId)
      requires Valid() && id in pairs && HasComp(Abs(), pairs[id].comp) && pairs[id].remote in cands
      requires MappedOk(Abs(), pairs[id].comp, m)
      modifies this`pairs, this`lists, this`queue, this`nextPair, this`cands, this`nextCand, this`comps
      ensures (Abs(), ok) == Answered(old(Abs()), id, r, m)
    {
      hide Inv, UnfreezeRelated, ProcessResponse, FromBefore;
      ghost var s := Abs();
      var foundation := pairs[id].foundation;
      var found: Option<PairId> := None;
      if m.NoAddress? {
        NoAddressInv(s, id);
        pairs := pairs[id := pairs[id].(state := Succeeded, valid := true)];
      } else {
        AnsweredFacts(s, id, r, m);
        found := ProcessReflexive(id, r, m);
      }
      DoUnfreezeRelated(foundation);
      ok := if found.Some? then found.value else id;
    }

    // A 487 reply: the other role, and the check goes out again.
    method SwitchRole(id: PairId, k: nat)
      requires Valid() && id in pairs && k < |pairs[id].stun|
      modifies this`pairs, this`lists, this`controlling, this`queue, this`timerOn
      ensures id in CheckForRoleConflict(old(Abs()), !old(pairs[id].stun[k].sentControlling)).pairs
      ensures k < |CheckForRoleConflict(old(Abs()), !old(pairs[id].stun[k].sentControlling)).pairs[id].stun|
      ensures Abs() == Enqueue(DropStun(CheckForRoleConflict(old(Abs()), !old(pairs[id].stun[k].sentControlling)), id, k), id)
    {
      hide Inv, CheckForRoleConflict, Priced, Sorted, DropStun, Enqueue;
      RoleConflictFrame(Abs(), !pairs[id].stun[k].sentControlling, id);
      CheckRoleConflict(!pairs[id].stun[k].sentControlling);
      RemoveTransaction(id, k);
      AddToTriggeredQueue(id);
    }

    method HandleConnCheckReply(id: PairId, k: nat, reply: Reply)
      requires Valid() && ReplyOk(Abs(), id, k, reply)
      modifies this`pairs, this`lists, this`queue, this`nextPair, this`cands, this`nextCand, this`comps,
               this`fault, this`controlling, this`timerOn
      ensures Abs() == HandleReply(old(Abs()), id, k, reply) && Valid()
    {
      hide Inv, WellFormed, UpdateForReady, FinishReply, Answered, CheckForRoleConflict, FailPair, Thawed,
        GatheringIsEmpty, NominatedIsSelected;
      ghost var s := Abs();
      ReplyStaysInv(s, id, k, reply);
      var c := pairs[id].comp;
      match reply
      case Success(sourceOk, remote, m) =>
        DropStunKeeps(s, id, k);
        RemoveTransaction(id, k);
        if !sourceOk || remote.None? {
          FailKeeps(Abs(), id);
          FailCheckPair(id);
          UpdateCheckListForReady(c);
        } else {
          AnsweredKeeps(Abs(), id, remote.value, m);
          var ok := HandleSuccess(id, remote.value, m);
          ConcludeAnswer(id, ok);
        }
      case RoleConflict =>
        if pairs[id].retransmit {
          SwitchRole(id, k);
        }
      case StunError =>
        FailKeeps(s, id);
        FailCheckPair(id);
        UpdateCheckListForReady(c);
    }

    // ----- a destroyed socket

    method StepComponentDown(c: nat)
      requires c < |comps|
      modifies this`comps, this`fault
      ensures Abs() == StepDown(old(Abs()), c)
    {
      hide Signal;
      if comps[c].state.Ready? {
        SignalState(c, Failed);
      } else if comps[c].state.Connected? {
        SignalState(c, Connecting);
      }
    }

    method PruneSocketPairs(c: nat, sock: nat)
      requires Valid() && HasComp(Abs(), c)
      modifies this`pairs, this`lists, this`queue, this`comps, this`fault
      ensures Abs() == PruneSocket(old(Abs()), c, sock) && Valid()
    {
      hide Inv, Thawed, GatheringIsEmpty, NominatedIsSelected, StepDown, UpdateForReady, Signal, ScanAlong;
      ghost var s := Abs();
      var l := comps[c].selLocal;
      var lost := l.Some? && l.value in cands && cands[l.value].sock == Some(sock);
      StepDownKeeps(s, c);
      if lost {
        StepComponentDown(c);
      }
      var pairFailed, kept, nominated := ScanList(c, sock, lost);
      if pairFailed {
        SignalKeeps(Abs(), c, Failed);
        StepDownKeeps(Abs(), c);
        if kept == 0 {
          SignalState(c, Failed);
        } else if nominated == 0 {
          StepComponentDown(c);
        }
        UpdateCheckListForReady(c);
      }
    }

    method ScanList(c: nat, sock: nat, lost: bool) returns (pairFailed: bool, kept: nat, nominated: nat)
      requires Valid() && HasComp(Abs(), c)
      modifies this`pairs, this`lists, this`queue
      ensures Valid() && HasComp(Abs(), c)
      ensures var x := ScanAlong(SocketScan(old(Abs()), lost, false, 0, 0), c, sock, old(StreamList(Abs(), c)));
              Abs() == x.s && pairFailed == x.pairFailed && kept == x.kept && nominated == x.nominated
    {
      hide Inv, Thawed, GatheringIsEmpty, NominatedIsSelected, ScanAlong, ScanOne;
      var selFailed := lost;
      pairFailed, kept, nominated := false, 0, 0;
      var ids := lists[comps[c].stream];
      ghost var x0 := SocketScan(Abs(), selFailed, pairFailed, kept, nominated);
      assert ids[0..] == ids;
      for k := 0 to |ids|
        invariant Valid() && HasComp(Abs(), c)
        invariant ScanAlong(x0, c, sock, ids) ==
                  ScanAlong(SocketScan(Abs(), selFailed, pairFailed, kept, nominated), c, sock, ids[k..])
      {
        ghost var x := SocketScan(Abs(), selFailed, pairFailed, kept, nominated);
        ScanStep(x, c, sock, ids[k..]);
        assert ids[k..][1..] == ids[k + 1..];
        if ids[k] in pairs {
          ScanOneKeeps(x, c, sock, ids[k]);
          selFailed, pairFailed, kept, nominated := ScanPair(c, sock, ids[k], selFailed, pairFailed, kept, nominated);
        }
      }
      ScanEnd(SocketScan(Abs(), selFailed, pairFailed, kept, nominated), c, sock, ids);
    }

    method ScanPair(c: nat, sock: nat, id: PairId, selFailed0: bool, pairFailed0: bool, kept0: nat, nominated0: nat)
      returns (selFailed: bool, pairFailed: bool, kept: nat, nominated: nat)
      requires Valid() && c < |comps| && id in pairs
      modifies this`pairs, this`lists, this`queue
      ensures SocketScan(Abs(), selFailed, pairFailed, kept, nominated) ==
              ScanOne(SocketScan(old(Abs()), selFailed0, pairFailed0, kept0, nominated0), c, sock, id)
    {
      hide Inv, WellFormed, FilterOut, RemovePairs, FailPair;
      selFailed, pairFailed, kept, nominated := selFailed0, pairFailed0, kept0, nominated0;
      var p := pairs[id];
      if p.comp != c {
        return;
      }
      SetSame(pairs, id);
      if selFailed && !p.retransmit && p.stun != [] {
        pairs := pairs[id := p.(retransmit := true)];
      }
      if OnSocket(Abs(), p, sock) {
        if comps[c].selLocal == Some(p.local) && comps[c].selRemote == Some(p.remote) {
          selFailed := true;
        }
        FailedList(old(Abs()), Abs(), id);
        FailCheckPair(id);
        FreePair(comps[c].stream, id);
        pairFailed := true;
      } else {
        kept := kept + 1;
        if p.nominated {
          nominated := nominated + 1;
        }
      }
    }
  }

  lemma Sound(s: State)
    requires Inv(s)
    ensures WellFormed(s)
  {
  }

  lemma ReplyStaysInv(s: State, id: PairId, k: nat, reply: Reply)
    requires Inv(s) && ReplyOk(s, id, k, reply)
    ensures Inv(HandleReply(s, id, k, reply))
  {
    hide Inv, HandleReply, ReplyNominates;
    ReplyKeeps(s, id, k, reply);
  }

  lemma CompFact(s: State, c: nat)
    requires WellFormed(s) && c < |s.comps|
    ensures HasComp(s, c)
  {
  }

  lemma ListDistinct(s: State, n: nat)
    requires WellFormed(s) && n < |s.lists|
    ensures Distinct(s.lists[n])
  {
    assert ListOk(s.lists[n], n, s.pairs, s.comps);
  }

  lemma PrunedListsOwn(s: State, c: nat, done: set<PairId>, n: nat, id: PairId)
    requires WellFormed(s) && c < |s.comps| && n < |s.lists| && id in s.lists[n]
    ensures var t := PrunedUpTo(s, c, done);
            |t.lists| == |s.lists| && forall m :: 0 <= m < |t.lists| && m != n ==> id !in t.lists[m]
  {
    hide WellFormed, FilterOut;
    OnlyInOwnList(s, GoneUpTo(s, c, done), n, id);
  }

  lemma SoundOrder(s: State)
    requires Inv(s)
    ensures Sorted(s.lists, s.pairs)
  {
  }

  lemma TimerWellFormed(s: State, on: bool)
    requires WellFormed(s)
    ensures WellFormed(s.(timerOn := on))
  {
  }

  lemma NewPairPlaced(s: State, c: nat, l: CandId, r: CandId, initial: CheckState)
    requires Inv(s) && CanPair(s, c, l, r)
    ensures Placed(s, NewPair(s, c, l, r, initial)) && HasComp(s, c)
    ensures NewPair(s, c, l, r, initial).comp == c && NewPair(s, c, l, r, initial).state == initial
  {
  }

  lemma NewcomerSucceeds(s: State, p: Pair)
    requires Inv(s) && Placed(s, p) && p.state.Frozen?
    ensures HasSucceeded(Listed(s, p).pairs, p.foundation) == HasSucceeded(s.pairs, p.foundation)
  {
    hide WellFormed, InsertSorted;
    assert s.nextPair !in s.pairs by { Sound(s); NextPairFresh(s); }
    if HasSucceeded(s.pairs, p.foundation) {
      var x :| x in s.pairs && s.pairs[x].state.Succeeded? && s.pairs[x].foundation == p.foundation;
      assert x in Listed(s, p).pairs && Listed(s, p).pairs[x] == s.pairs[x];
    }
  }

  lemma ThawNewcomer(s: State, p: Pair)
    requires Inv(s) && Placed(s, p)
    ensures var t, q := Listed(s, p).(timerOn := true), p.(state := Waiting);
            && s.nextPair in t.pairs && t.pairs[s.nextPair] == p
            && SetPair(t, s.nextPair, q) == Listed(s, q).(timerOn := true)
            && WellFormed(SetPair(t, s.nextPair, q))
  {
    hide Inv, WellFormed, InsertSorted, Sorted;
    var q := p.(state := Waiting);
    var pairs := s.pairs[s.nextPair := p];
    InsertFrame(s.lists[s.comps[p.comp].stream], s.nextPair, pairs, pairs[s.nextPair := q]);
    assert pairs[s.nextPair := q] == s.pairs[s.nextPair := q];
    Sound(s);
    SoundOrder(s);
    ListedWellFormed(s, q);
    TimerWellFormed(Listed(s, q), true);
  }

  // Insertion compares priorities and nothing else.
  lemma {:induction false} InsertFrame(xs: seq<PairId>, id: PairId, pairs: map<PairId, Pair>, pairs': map<PairId, Pair>)
    requires forall x :: x == id || x in xs ==>
               (x in pairs <==> x in pairs') && (x in pairs ==> pairs'[x].priority == pairs[x].priority)
    ensures InsertSorted(xs, id, pairs') == InsertSorted(xs, id, pairs)
  {
    if xs != [] && id in pairs && xs[0] in pairs && pairs[id].priority < pairs[xs[0]].priority {
      InsertFrame(xs[1..], id, pairs, pairs');
    }
  }

  lemma FirstAt(xs: seq<nat>, p: nat -> bool, k: nat)
    requires k < |xs| && p(xs[k]) && forall j :: 0 <= j < k ==> !p(xs[j])
    ensures First(xs, p) == Some(xs[k])
  {
    FirstIsEarliest(xs, p, k);
    var i :| 0 <= i <= k && xs[i] == First(xs, p).value;
  }

  lemma SignalThenMark(s: State, c: nat, to: ComponentState, q: PairId, p: Pair)
    ensures Signal(SetPair(s, q, p), c, to) == SetPair(Signal(s, c, to), q, p)
  {
  }

  lemma SelectThenMark(s: State, c: nat, q: PairId)
    requires c < |s.comps| && q in s.pairs
    ensures var p := s.pairs[q].(nominated := true);
            UpdateSelected(SetPair(s, q, p), c, q) == SetPair(UpdateSelected(s, c, q), q, p)
  {
  }

  // Marking the pair first or last makes no difference.
  lemma NominateAnyOrder(s: State, c: nat, q: PairId)
    requires HasComp(s, c) && q in s.pairs
    ensures var t := SetPair(s, q, s.pairs[q].(nominated := true));
            var t1 := if t.comps[c].state.Failed? then Signal(t, c, Connecting) else t;
            var t2 := UpdateSelected(t1, c, q);
            NominateValid(s, c, q) == if t2.comps[c].state.Connecting? then Signal(t2, c, Connected) else t2
  {
    hide Signal, UpdateSelected;
    var p := s.pairs[q].(nominated := true);
    var s1 := if s.comps[c].state.Failed? then Signal(s, c, Connecting) else s;
    SignalThenMark(s, c, Connecting, q, p);
    SelectThenMark(s1, c, q);
    SignalThenMark(UpdateSelected(s1, c, q), c, Connected, q, p);
    assert UpdateSelected(s1, c, q).pairs == s.pairs by { SelectedPairs(s1, c, q); }
  }

  lemma SelectedPairs(s: State, c: nat, q: PairId)
    requires c < |s.comps| && q in s.pairs
    ensures UpdateSelected(s, c, q).pairs == s.pairs
  {
  }

  lemma NominateOkAnyOrder(s: State, c: nat, q: PairId)
    requires HasComp(s, c) && q in s.pairs
    ensures var t := SetPair(s, q, s.pairs[q].(nominated := true));
            var t1 := UpdateSelected(t, c, q);
            NominateOk(s, c, q) == if !t1.comps[c].state.Ready? then Signal(t1, c, Connected) else t1
  {
    hide Signal, UpdateSelected;
    SelectThenMark(s, c, q);
    SelectedPairs(s, c, q);
    SignalThenMark(UpdateSelected(s, c, q), c, Connected, q, s.pairs[q].(nominated := true));
  }

  lemma MarkStep(s: State, c: nat, l: CandId, r: CandId, ids: seq<PairId>)
    requires HasComp(s, c) && ids != []
    ensures MarkAlong(s, c, l, r, ids) ==
            MarkAlong(if ids[0] in s.pairs && s.pairs[ids[0]].local == l && s.pairs[ids[0]].remote == r
                      then MarkOne(s, c, ids[0]) else s, c, l, r, ids[1..])
  {
    hide MarkOne;
  }

  lemma MarkEnd(s: State, c: nat, l: CandId, r: CandId, ids: seq<PairId>)
    requires HasComp(s, c)
    ensures MarkAlong(s, c, l, r, ids[|ids|..]) == s
  {
  }

  lemma ScanStep(x: SocketScan, c: nat, sock: nat, ids: seq<PairId>)
    requires c < |x.s.comps| && ids != []
    ensures ScanAlong(x, c, sock, ids) ==
            ScanAlong(if ids[0] in x.s.pairs then ScanOne(x, c, sock, ids[0]) else x, c, sock, ids[1..])
  {
    hide ScanOne;
  }

  lemma ScanEnd(x: SocketScan, c: nat, sock: nat, ids: seq<PairId>)
    requires c < |x.s.comps|
    ensures ScanAlong(x, c, sock, ids[|ids|..]) == x
  {
  }

  // Failing a pair leaves the lists alone, so that the pair can be taken out of its own.
  lemma FailedList(s: State, t: State, id: PairId)
    requires Inv(s) && id in s.pairs && t == s.(pairs := t.pairs) && id in t.pairs
    ensures HasComp(s, s.pairs[id].comp)
    ensures FreeFrom(FailPair(t, id), s.comps[s.pairs[id].comp].stream, id) == RemovePairs(FailPair(t, id), {id})
  {
    hide Inv, WellFormed, FilterOut;
    Sound(s);
    OwnerFact(s, id);
    var n, k := Position(s, id);
    RemoveNothing(s);
    RemovedListsOwn(s, {}, n, id);
    FreeIsRemove(FailPair(t, id), n, id);
  }

  lemma ConflictEffect(s: State, control: bool)
    requires Inv(s)
    ensures var t := CheckForRoleConflict(s, control);
            && Priced(t.pairs, t.cands, control) && t.controlling == control && t.pairs.Keys == s.pairs.Keys
            && (forall id :: id in t.pairs ==> t.pairs[id] == s.pairs[id].(priority := t.pairs[id].priority))
            && |t.lists| == |s.lists| && forall n :: 0 <= n < |s.lists| ==> multiset(t.lists[n]) == multiset(s.lists[n])
  {
    hide StableSort, WellFormed, Sorted;
    RecalculatePrices(s.(controlling := control));
    var pairs := Repriced(s.(controlling := control));
    forall n | 0 <= n < |s.lists|
      ensures multiset(StableSort(s.lists[n], pairs)) == multiset(s.lists[n])
    {
      SortPermutes(s.lists[n], pairs);
    }
  }

  lemma {:induction false} InsertPermutes(xs: seq<PairId>, id: PairId, pairs: map<PairId, Pair>)
    ensures multiset(InsertSorted(xs, id, pairs)) == multiset(xs) + multiset{id}
  {
    if xs != [] && id in pairs && xs[0] in pairs && pairs[id].priority < pairs[xs[0]].priority {
      InsertPermutes(xs[1..], id, pairs);
      assert xs == [xs[0]] + xs[1..];
    }
  }

  lemma {:induction false} SortPermutes(xs: seq<PairId>, pairs: map<PairId, Pair>)
    ensures multiset(StableSort(xs, pairs)) == multiset(xs)
  {
    if xs != [] {
      SortPermutes(xs[1..], pairs);
      InsertPermutes(StableSort(xs[1..], pairs), xs[0], pairs);
      assert xs == [xs[0]] + xs[1..];
    }
  }

  lemma AddedPeerReflexive(s: State, l: CandId, parent: PairId)
    requires parent in s.pairs && HasComp(s, s.pairs[parent].comp)
    requires l in s.cands && s.pairs[parent].remote in s.cands
    ensures var t, p := AddPeerReflexive(s, l, parent), DiscoveredPair(s, l, parent);
            var n, pairs := s.comps[p.comp].stream, s.pairs[s.nextPair := p];
            && t == s.(pairs := pairs[parent := s.pairs[parent].(discovered := Some(s.nextPair))],
                       lists := s.lists[n := InsertSorted(s.lists[n], s.nextPair, pairs)], nextPair := s.nextPair + 1)
            && s.nextPair in t.lists[n]
  {
    var p := DiscoveredPair(s, l, parent);
    InsertMembers(s.lists[s.comps[p.comp].stream], s.nextPair, s.pairs[s.nextPair := p]);
    hide InsertSorted;
  }

  // ----- repricing one pair after the other

  ghost function RepricedIn(s: State, done: set<PairId>): map<PairId, Pair> {
    map id | id in s.pairs :: if id in done then Reprice(s.pairs[id], s.cands, s.controlling) else s.pairs[id]
  }

  lemma RepricedNone(s: State)
    ensures RepricedIn(s, {}) == s.pairs
  {
  }

  lemma RepricedMember(s: State, done: set<PairId>, id: PairId)
    requires id in s.pairs
    ensures id in RepricedIn(s, done)
    ensures RepricedIn(s, done + {id}) ==
            RepricedIn(s, done)[id := Reprice(RepricedIn(s, done)[id], s.cands, s.controlling)]
  {
  }

  lemma RepricedAll(s: State, done: set<PairId>)
    requires WellFormed(s)
    requires forall m, k :: 0 <= m < |s.lists| && 0 <= k < |s.lists[m]| ==> s.lists[m][k] in done
    ensures RepricedIn(s, done) == Repriced(s)
  {
    hide WellFormed, Reprice;
    forall id | id in s.pairs
      ensures id in done
    {
      var n, k := Position(s, id);
    }
  }

  // Sorting compares the priorities of the listed pairs and nothing else.
  lemma {:induction false} SortFrame(xs: seq<PairId>, pairs: map<PairId, Pair>, pairs': map<PairId, Pair>)
    requires Distinct(xs) && forall x :: x in xs ==> x in pairs && x in pairs' && pairs'[x].priority == pairs[x].priority
    ensures StableSort(xs, pairs') == StableSort(xs, pairs)
  {
    if xs != [] {
      SortFrame(xs[1..], pairs, pairs');
      SortFacts(xs[1..], pairs);
      InsertFrame(StableSort(xs[1..], pairs), xs[0], pairs, pairs');
    }
  }

  lemma SortRepriced(s: State, done: set<PairId>, xs: seq<PairId>)
    requires Distinct(xs) && forall x :: x in xs ==> x in done && x in s.pairs
    ensures StableSort(xs, RepricedIn(s, done)) == StableSort(xs, Repriced(s))
  {
    hide Reprice;
    SortFrame(xs, RepricedIn(s, done), Repriced(s));
  }

  lemma LimitNone(s: State, n: nat)
    requires n < |s.lists|
    ensures LimitUpTo(s, n, 0) == {}
  {
  }

  lemma RemovedMember(s: State, gone: set<PairId>, id: PairId)
    requires id in s.pairs && id !in gone
    ensures id in RemovePairs(s, gone).pairs && RemovePairs(s, gone).pairs[id] == s.pairs[id]
    ensures |RemovePairs(s, gone).lists| == |s.lists| && RemovePairs(s, gone).cfg == s.cfg
  {
    hide FilterOut;
  }

  lemma RemovedListsOwn(s: State, gone: set<PairId>, n: nat, id: PairId)
    requires WellFormed(s) && n < |s.lists| && id in s.lists[n]
    ensures var t := RemovePairs(s, gone);
            |t.lists| == |s.lists| && forall m :: 0 <= m < |t.lists| && m != n ==> id !in t.lists[m]
  {
    hide WellFormed, FilterOut;
    OnlyInOwnList(s, gone, n, id);
  }

  // Every pair of a component stands in the list of its stream.
  lemma CountedAlong(s: State, c: nat)
    requires WellFormed(s) && HasComp(s, c)
    ensures forall id :: id in s.pairs && s.pairs[id].comp == c ==>
              exists j :: 0 <= j < |StreamList(s, c)| && StreamList(s, c)[j] == id
  {
    hide WellFormed;
    forall id | id in s.pairs && s.pairs[id].comp == c
      ensures exists j :: 0 <= j < |StreamList(s, c)| && StreamList(s, c)[j] == id
    {
      var n, k := Position(s, id);
      assert StreamList(s, c)[k] == id;
    }
  }

  // ----- loops over all pairs

  // Applies `g` to the pairs `ids`, one after the other.
  ghost function Along(pairs: map<PairId, Pair>, ids: seq<PairId>, g: Pair -> Pair): map<PairId, Pair> {
    if ids == [] then pairs
    else Along(if ids[0] in pairs then pairs[ids[0] := g(pairs[ids[0]])] else pairs, ids[1..], g)
  }

  lemma {:induction false} AlongEffect(pairs: map<PairId, Pair>, ids: seq<PairId>, g: Pair -> Pair, id: PairId)
    requires id in pairs && forall p :: g(g(p)) == g(p)
    ensures var r := Along(pairs, ids, g);
            r.Keys == pairs.Keys && r[id] == if id in ids then g(pairs[id]) else pairs[id]
    decreases |ids|
  {
    if ids != [] {
      AlongEffect(if ids[0] in pairs then pairs[ids[0] := g(pairs[ids[0]])] else pairs, ids[1..], g, id);
    }
  }

  lemma {:induction false} AlongKeys(pairs: map<PairId, Pair>, ids: seq<PairId>, g: Pair -> Pair)
    ensures Along(pairs, ids, g).Keys == pairs.Keys
    decreases |ids|
  {
    if ids != [] {
      AlongKeys(if ids[0] in pairs then pairs[ids[0] := g(pairs[ids[0]])] else pairs, ids[1..], g);
    }
  }

  lemma AlongStep(pairs: map<PairId, Pair>, xs: seq<PairId>, k: nat, rest: seq<PairId>, g: Pair -> Pair)
    requires k < |xs| && xs[k] in pairs
    ensures Along(pairs, xs[k..] + rest, g) == Along(pairs[xs[k] := g(pairs[xs[k]])], xs[k + 1..] + rest, g)
  {
    var ids := xs[k..] + rest;
    assert ids[0] == xs[k] && ids[1..] == xs[k + 1..] + rest;
  }

  lemma AlongEnd(lists: seq<seq<PairId>>, pairs: map<PairId, Pair>, g: Pair -> Pair)
    ensures Along(pairs, Flat(lists[|lists|..]), g) == pairs
  {
  }

  lemma SetSame(pairs: map<PairId, Pair>, id: PairId)
    requires id in pairs
    ensures pairs[id := pairs[id]] == pairs
  {
  }

  ghost function Thawer(foundation: string): Pair -> Pair {
    p => Thaw(p, foundation)
  }

  lemma ThawAll(s: State, foundation: string)
    requires Inv(s)
    ensures Along(s.pairs, Flat(s.lists), Thawer(foundation)) == UnfreezeRelated(s, foundation).pairs
  {
    hide Inv, WellFormed, Along, Flat;
    Sound(s);
    var g := Thawer(foundation);
    AlongKeys(s.pairs, Flat(s.lists), g);
    forall id | id in s.pairs
      ensures Along(s.pairs, Flat(s.lists), g)[id] == Thaw(s.pairs[id], foundation)
    {
      FlatAll(s, id);
      AlongEffect(s.pairs, Flat(s.lists), g, id);
    }
  }

  lemma FlatAll(s: State, id: PairId)
    requires WellFormed(s) && id in s.pairs
    ensures id in Flat(s.lists)
  {
    hide WellFormed, Flat;
    var n, k := Position(s, id);
    FlatHolds(s.lists, n, id);
  }

  lemma FlatStep(lists: seq<seq<PairId>>, n: nat)
    requires n < |lists|
    ensures Flat(lists[n..]) == lists[n] + Flat(lists[n + 1..])
  {
    assert lists[n..][0] == lists[n] && lists[n..][1..] == lists[n + 1..];
  }

  lemma FlatEnd(lists: seq<seq<PairId>>, pairs: map<PairId, Pair>, seen: set<string>)
    ensures UnfreezeAlong(pairs, Flat(lists[|lists|..]), seen) == pairs
  {
  }

  lemma UnfreezeStep(pairs: map<PairId, Pair>, xs: seq<PairId>, k: nat, rest: seq<PairId>, seen: set<string>)
    requires k < |xs| && xs[k] in pairs
    ensures var id := xs[k];
            UnfreezeAlong(pairs, xs[k..] + rest, seen) ==
            if pairs[id].foundation !in seen && pairs[id].state.Frozen?
            then UnfreezeAlong(pairs[id := pairs[id].(state := Waiting)], xs[k + 1..] + rest, seen + {pairs[id].foundation})
            else UnfreezeAlong(pairs, xs[k + 1..] + rest, seen)
  {
    var ids := xs[k..] + rest;
    assert ids[0] == xs[k] && ids[1..] == xs[k + 1..] + rest;
  }

  lemma InList(s: State, n: nat, k: nat)
    requires WellFormed(s) && n < |s.lists| && k < |s.lists[n]|
    ensures s.lists[n][k] in s.pairs
    ensures HasComp(s, s.pairs[s.lists[n][k]].comp) && s.comps[s.pairs[s.lists[n][k]].comp].stream == n
  {
    assert ListOk(s.lists[n], n, s.pairs, s.comps);
  }

  lemma Position(s: State, id: PairId) returns (n: nat, k: nat)
    requires WellFormed(s) && id in s.pairs
    ensures n < |s.lists| && k < |s.lists[n]| && s.lists[n][k] == id && n == s.comps[s.pairs[id].comp].stream
  {
    n := s.comps[s.pairs[id].comp].stream;
    k :| 0 <= k < |s.lists[n]| && s.lists[n][k] == id;
  }
}
