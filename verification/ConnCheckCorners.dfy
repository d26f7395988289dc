/** More runs from the initial state, each ending in a state that a run theorem has to exclude. In two of them
gathering finds a single local candidate. */
module ConnCheckCorners {
  import opened Basics
  import opened CandidatePriority
  import opened ConnCheckState
  import opened ConnCheckSpec
  import opened ConnCheckInvariants
  import opened ConnCheckHandlers
  import opened ConnCheckSockets
  import opened ConnCheckRenames
  import opened ConnCheckTick
  import opened ConnCheckTermination
  import opened ConnCheckStuck
  import opened ConnCheckConfirm
  import opened ConnCheckRuns
  import opened ConnCheckReplay
  import opened ConnCheckExamples

  const REGULAR := Settings(true)

  // ----- a single local candidate

  function Single(cands: map<CandId, Candidate>, nextCand: CandId, pairs: map<PairId, Pair>, list: seq<PairId>,
                  comp: Component, next: PairId, sent: seq<Sent>, cfg: Config): State {
    State(pairs, [list], [comp], [], cands, true, next, nextCand, true, 0, sent, NoFault, cfg)
  }

  function Lone(state: ComponentState, remotes: seq<CandId>): Component {
    Bare(state, [0], remotes)
  }

  function LonePrice(k: Candidate): nat {
    AgentPairPriority(true, L0.priority, k.priority)
  }

  // The pair of the local candidate with the remote candidate `k`, known as `r`.
  function LonePair(r: CandId, k: Candidate, initial: CheckState): Pair {
    Pair(0, 0, r, Some(7), "1" + ":" + k.foundation, initial, false, false, false, false, false, None, None, LonePrice(k), [])
  }

  lemma LoneForms(s: State, r: CandId, k: Candidate)
    requires CanPair(s, 0, 0, r) && s.cands[0] == L0 && s.cands[r] == k && s.controlling && s.nextPair !in s.pairs
    requires |StreamList(s, 0)| < s.cfg.maxChecks && s.comps[0].selPriority <= LonePrice(k)
    requires forall id :: id in s.pairs ==> !s.pairs[id].state.FailedCheck?
    requires !HasSucceeded(s.pairs, LonePair(r, k, Frozen).foundation)
    ensures AddPairMatched(s, 0, 0, r, Frozen).0 ==
            Signal(Listed(s, LonePair(r, k, Frozen)).(timerOn := true), 0, Busy(s.comps[0].state))
  {
    hide HasSucceeded, Signal, Listed, AgentPairPriority;
    assert NewPair(s, 0, 0, r, Frozen) == LonePair(r, k, Frozen);
    Forms(s, 0, 0, r, Frozen);
  }

  lemma LoneRemote(k: Candidate, cfg: Config)
    requires k == R0 || k == R1
    ensures AddCandidate(Before(Lone(Gathering, []), map[0 := L0], 1, true, cfg), k) ==
            Before(Lone(Gathering, [1]), map[0 := L0, 1 := k], 2, true, cfg)
  {
    assert [] + [1] == [1];
    assert [Lone(Gathering, [])][0 := Lone(Gathering, [1])] == [Lone(Gathering, [1])];
  }

  function OneKnown(k: Candidate, initial: CheckState, cfg: Config): State {
    Single(map[0 := L0, 1 := k], 2, map[0 := LonePair(1, k, initial)], [0], Lone(Connecting, [1]), 1, [], cfg)
  }

  lemma LoneFormed(k: Candidate, cfg: Config)
    requires cfg.maxChecks == 100 && (k == R0 || k == R1)
    ensures CanPair(Before(Lone(Gathering, [1]), map[0 := L0, 1 := k], 2, true, cfg), 0, 0, 1)
    ensures AddPairMatched(Before(Lone(Gathering, [1]), map[0 := L0, 1 := k], 2, true, cfg), 0, 0, 1, Frozen).0 ==
            OneKnown(k, Frozen, cfg)
  {
    hide LonePrice, AddPairMatched;
    var s, p := Before(Lone(Gathering, [1]), map[0 := L0, 1 := k], 2, true, cfg), LonePair(1, k, Frozen);
    LoneForms(s, 1, k);
    assert InsertSorted([], 0, map[0 := p]) == [0];
    assert [[]][0 := [0]] == [[0]];
    assert [Lone(Gathering, [1])][0 := Lone(Connecting, [1])] == [Lone(Connecting, [1])];
  }

  function LoneRun(k: Candidate): seq<Step> {
    [NewStream(1)] + [GatheringStarted(0)] + [NewCandidate(L0)] + [NewCandidate(k)] + [FormPair(0, 0, 1, Frozen)]
  }

  lemma LoneState(k: Candidate, cfg: Config)
    requires cfg.maxChecks == 100 && (k == R0 || k == R1)
    ensures Run(Initial(true, cfg), LoneRun(k)) == OneKnown(k, Frozen, cfg)
  {
    hide Run, AddCandidate, AddPairMatched, LonePrice;
    var s0, a := Initial(true, cfg), [NewStream(1)] + [GatheringStarted(0)];
    GatheringSteps(true, cfg);
    LocalSteps(true, cfg);
    CandidateThen(s0, a, Before(Bare(Gathering, [], []), map[], 0, true, cfg), L0);
    LoneRemote(k, cfg);
    CandidateThen(s0, a + [NewCandidate(L0)], Before(Lone(Gathering, []), map[0 := L0], 1, true, cfg), k);
    LoneFormed(k, cfg);
    PairThen(s0, a + [NewCandidate(L0)] + [NewCandidate(k)], Before(Lone(Gathering, [1]), map[0 := L0, 1 := k], 2, true, cfg), 0, 0, 1);
  }

  lemma LoneThaws(k: Candidate, cfg: Config)
    ensures UnfreezeNext(OneKnown(k, Frozen, cfg)) == OneKnown(k, Waiting, cfg)
    ensures NextWaiting(OneKnown(k, Frozen, cfg), 0).None? && NextWaiting(OneKnown(k, Waiting, cfg), 0) == Some(0)
  {
    hide LonePrice;
    var s := OneKnown(k, Frozen, cfg);
    assert !SomeWaiting(s);
    ThawsOne(s, 0);
    assert s.pairs[0 := Released(s.pairs[0])] == OneKnown(k, Waiting, cfg).pairs;
  }

  // ----- gathering over pairs

  function OneFailed(state: ComponentState, timer: bool): State {
    Single(map[0 := L0, 1 := R0], 2, map[0 := LonePair(1, R0, FailedCheck)], [0], Lone(state, [1]), 1, [], AGGRESSIVE)
      .(timerOn := timer)
  }

  lemma OnlyCheckFails()
    ensures SendPhases(OneKnown(R0, Frozen, AGGRESSIVE), Mute(0)) == (OneFailed(Connecting, true), false)
  {
    hide LonePrice, SendPhases, UnfreezeNext, NextWaiting;
    var s, v := OneKnown(R0, Frozen, AGGRESSIVE), OneKnown(R0, Waiting, AGGRESSIVE);
    LoneThaws(R0, AGGRESSIVE);
    ThawingSends(s, Mute(0), 0);
    var f := FailPair(SetPair(v, 0, v.pairs[0].(state := InProgress)), 0);
    assert f.pairs == OneFailed(Connecting, true).pairs;
    assert !HasValidNominated(f, 0);
    assert Rejected(v, 0) == f;
  }

  lemma IdleTickFails()
    ensures Tick(OneKnown(R0, Frozen, AGGRESSIVE), Mute(0)).0 == OneFailed(Failed, false)
  {
    hide LonePrice, SendPhases, NominatePhase;
    OnlyCheckFails();
    var u := OneFailed(Connecting, true);
    assert !WantsNomination(u, 0);
    NominationIdle(u);
    assert !InProgressIn(u, 0);
    assert FailComponents(u).comps == [Lone(Failed, [1])];
  }

  lemma GatheringAgain()
    ensures Gather(OneFailed(Failed, false), 0) == OneFailed(Gathering, false)
  {
    hide LonePrice;
    assert [Lone(Failed, [1])][0 := Lone(Gathering, [1])] == [Lone(Gathering, [1])];
  }

  function GatheringRun(): seq<Step> {
    LoneRun(R0) + [TimerFired(Mute(0))] + [GatheringStarted(0)]
  }

  /** The only check cannot be sent, the component fails, and gathering starts again: a GATHERING
      component owns a pair. */
  lemma GatheringOverPairs()
    ensures var t := Run(Initial(true, AGGRESSIVE), GatheringRun()); !GatheringIsEmpty(t.pairs, t.comps)
  {
    hide Run, LoneRun, LonePrice, Tick, Gather;
    var s0, a := Initial(true, AGGRESSIVE), LoneRun(R0);
    LoneState(R0, AGGRESSIVE);
    IdleTickFails();
    TickThen(s0, a, OneKnown(R0, Frozen, AGGRESSIVE), Mute(0));
    GatheringAgain();
    GatherThen(s0, a + [TimerFired(Mute(0))], OneFailed(Failed, false), 0);
    assert OneFailed(Gathering, false).pairs[0].comp == 0;
  }

  // ----- a check stuck in progress

  // A pair after its role conflict: in progress, without transaction, in the queue.
  function Conflicted(l: CandId): Pair
    requires l in CANDS
  {
    Formed(l, 2, true, Waiting).(state := InProgress)
  }

  function Conflict(a: Pair, b: Pair, queue: seq<PairId>): State {
    World(map[0 := a, 1 := b], [0, 1], Idle(Connecting), queue, true, 2, BOTH, AGGRESSIVE)
  }

  // A check sent before the role changed.
  function OldRole(l: CandId, until: int): Pair
    requires l in CANDS
  {
    Sending(Formed(l, 2, true, Waiting), false, until)
  }

  lemma RoleChanges()
    ensures CheckForRoleConflict(BothSent(false, AGGRESSIVE), true) == Conflict(OldRole(0, 500), OldRole(1, 520), [])
  {
    Prices(true);
    var s := BothSent(false, AGGRESSIVE);
    var a, b := OldRole(0, 500), OldRole(1, 520);
    var t := s.(controlling := true);
    assert Formula(s.pairs[0], CANDS, true) == Price(0, 2, true) && Formula(s.pairs[1], CANDS, true) == Price(1, 2, true);
    hide Price;
    assert Repriced(t) == map[0 := a, 1 := b];
    SortsTwo(map[0 := a, 1 := b], 0, 1);
    assert Recalculate(t).lists == [[0, 1]];
  }

  lemma SortsTwo(pairs: map<PairId, Pair>, x: PairId, y: PairId)
    requires x in pairs && y in pairs && pairs[y].priority < pairs[x].priority
    ensures StableSort([x, y], pairs) == [x, y]
  {
    assert [x, y][1..] == [y] && [y][1..] == [];
    assert StableSort([], pairs) == [];
    assert StableSort([y], pairs) == InsertSorted([], y, pairs) == [y];
    assert InsertSorted([y], x, pairs) == [x] + [y];
  }

  lemma FirstConflict()
    ensures ReplyOk(BothSent(false, AGGRESSIVE), 0, 0, RoleConflict)
    ensures HandleReply(BothSent(false, AGGRESSIVE), 0, 0, RoleConflict) == Conflict(Conflicted(0), OldRole(1, 520), [0])
  {
    hide CheckForRoleConflict, Price;
    RoleChanges();
    var s := Conflict(OldRole(0, 500), OldRole(1, 520), []);
    var x := Stun(false, 500, 500, 0);
    assert [x][..0] + [x][1..] == [];
    assert DropStun(s, 0, 0).pairs == map[0 := Conflicted(0), 1 := OldRole(1, 520)];
    assert [] + [0] == [0];
  }

  lemma SecondConflict()
    ensures ReplyOk(Conflict(Conflicted(0), OldRole(1, 520), [0]), 1, 0, RoleConflict)
    ensures HandleReply(Conflict(Conflicted(0), OldRole(1, 520), [0]), 1, 0, RoleConflict) ==
            Conflict(Conflicted(0), Conflicted(1), [0, 1])
  {
    hide Price;
    var s := Conflict(Conflicted(0), OldRole(1, 520), [0]);
    assert CheckForRoleConflict(s, true) == s;
    hide CheckForRoleConflict;
    var x := Stun(false, 520, 520, 0);
    assert [x][..0] + [x][1..] == [];
    assert DropStun(s, 1, 0).pairs == map[0 := Conflicted(0), 1 := Conflicted(1)];
    assert [0] + [1] == [0, 1];
  }

  const THREE: seq<Sent> := BOTH + [Triggered(0)]

  // The first pair was sent again, in the new role; the second one is still queued.
  function RoleSwitched(a: Pair, comp: Component): State {
    World(map[0 := a, 1 := Conflicted(1)], [0, 1], comp, [1], true, 2, THREE, AGGRESSIVE)
  }

  lemma FirstSentAgain()
    ensures SendPhases(Conflict(Conflicted(0), Conflicted(1), [0, 1]), Beat(40)) ==
            (RoleSwitched(Flight(0, 540), Idle(Connecting)), true)
  {
    hide Price;
    var s, t := Conflict(Conflicted(0), Conflicted(1), [0, 1]), RoleSwitched(Flight(0, 540), Idle(Connecting));
    var s1 := Conflict(Conflicted(0), Conflicted(1), [1]);
    assert [0, 1][1..] == [1] && [1][1..] == [];
    assert FilterOut([], {0}) == [];
    assert FilterOut([1], {0}) == [1];
    assert FilterOut([0, 1], {0}) == [1];
    assert Dequeue(s, 0) == s1;
    assert [NewStun(s1, Beat(40), 500, 0)] + [] == [Stun(true, 540, 540, 0)];
    assert Started(s1, 0, Beat(40), Beat(40).send(0)).pairs == t.pairs;
    assert Initiate(s1, 0, Beat(40), Triggered(0)) == (t, true);
    hide Initiate, StunPhase, OrdinaryPhase, Dequeue;
    assert TriggeredPhase(s, 1, Beat(40)) == (t, true);
  }

  lemma WinnerNominated()
    ensures var s := SetPair(RoleSwitched(Flight(0, 540), Idle(Connecting)), 0, Confirmable(Flight(0, 540)));
            NominateOk(s, 0, 0) == RoleSwitched(Won(0, true), Comp(Connected, Some(0), Some(2), Price(0, 2, true)))
  {
    Prices(true);
    hide Price;
    var s := SetPair(RoleSwitched(Flight(0, 540), Idle(Connecting)), 0, Confirmable(Flight(0, 540)));
    var p := Price(0, 2, true);
    assert s.pairs == map[0 := Confirmable(Flight(0, 540)), 1 := Conflicted(1)];
    assert s.pairs[0 := Won(0, true)] == map[0 := Won(0, true), 1 := Conflicted(1)];
    assert [Idle(Connecting)][0 := Comp(Connecting, Some(0), Some(2), p)][0 := Comp(Connected, Some(0), Some(2), p)]
           == [Comp(Connected, Some(0), Some(2), p)];
  }

  lemma LoserStuck()
    ensures Stuck(UpdateForReady(RoleSwitched(Won(0, true), Comp(Connected, Some(0), Some(2), Price(0, 2, true))), 0), 1)
  {
    Prices(true);
    hide Price, ConcludeReady, PrunePending;
    var s := RoleSwitched(Won(0, true), Comp(Connected, Some(0), Some(2), Price(0, 2, true)));
    assert HasValidNominated(s, 0) by { assert s.pairs[0].valid && s.pairs[0].nominated; }
    assert !exists id :: id in s.pairs && PruneCounts(s, 0, id);
    assert Requeued(s, 1);
    PruneStrands(s, 0, 1);
    StuckConcludes(PrunePending(s, 0), 0, 1);
  }

  lemma WinnerReply()
    ensures var s := RoleSwitched(Flight(0, 540), Idle(Connecting));
            Answerable(s, 0, 0) && Stuck(FinishReply(SetPair(s, 0, Confirmable(s.pairs[0])), 0, 0), 1)
  {
    hide UpdateForReady, NominateOk, Price, Stuck;
    WinnerNominated();
    LoserStuck();
  }

  function StuckRun(): seq<Step> {
    Checks() + [ReplyReceived(0, 0, RoleConflict)] + [ReplyReceived(1, 0, RoleConflict)] + [TimerFired(Beat(40))] + [Replied(0, 0)]
  }

  lemma StuckState()
    ensures Stuck(Run(Initial(false, AGGRESSIVE), StuckRun()), 1)
  {
    hide Run, Checks, HandleReply, FinishReply, Answerable, SendPhases, WantsNomination, Price, Stuck;
    var s0, a := Initial(false, AGGRESSIVE), Checks();
    ChecksSent(false, false);
    FirstConflict();
    AnswerThen(s0, a, BothSent(false, AGGRESSIVE), 0, 0, RoleConflict);
    var b := a + [ReplyReceived(0, 0, RoleConflict)];
    SecondConflict();
    AnswerThen(s0, b, Conflict(Conflicted(0), OldRole(1, 520), [0]), 1, 0, RoleConflict);
    var s, t := Conflict(Conflicted(0), Conflicted(1), [0, 1]), RoleSwitched(Flight(0, 540), Idle(Connecting));
    FirstSentAgain();
    NoneDone(t);
    SendThen(s0, b + [ReplyReceived(1, 0, RoleConflict)], s, Beat(40), t);
    WinnerReply();
    ReplyThen(s0, b + [ReplyReceived(1, 0, RoleConflict)] + [TimerFired(Beat(40))], t, 0);
  }

  /** A run from the initial state after which a check is stuck in progress, so that without inbound traffic
      the timer never stops: both checks meet a role conflict and are queued again, the first one is sent in the
      new role and nominated before the second one is sent. */
  lemma StuckFromInitial(inputs: nat -> TickInput, k: nat, n: nat)
    ensures var s := Run(Initial(false, AGGRESSIVE), StuckRun());
            Inv(s) && Stuck(s, 1) && !StopsAt(s, inputs, k, n)
  {
    hide Inv, Apply, Run, StuckRun, Stuck;
    StuckState();
    RunInvariant(false, AGGRESSIVE, StuckRun());
    StuckNeverStops(Run(Initial(false, AGGRESSIVE), StuckRun()), inputs, k, n, 1);
  }

  // ----- a refrozen foundation

  const FLYING: Pair := Sending(LonePair(1, R0, Waiting), true, 500)

  function OneFlies(): State {
    Single(map[0 := L0, 1 := R0], 2, map[0 := FLYING], [0], Lone(Connecting, [1]), 1, [Ordinary(0)], REGULAR)
  }

  lemma OneStarts()
    ensures SendPhases(OneKnown(R0, Frozen, REGULAR), Beat(0)) == (OneFlies(), true)
  {
    hide LonePrice, SendPhases, UnfreezeNext, NextWaiting;
    var s, v, t := OneKnown(R0, Frozen, REGULAR), OneKnown(R0, Waiting, REGULAR), OneFlies();
    LoneThaws(R0, REGULAR);
    ThawingSends(s, Beat(0), 0);
    assert [NewStun(v, Beat(0), 500, 0)] + [] == [Stun(true, 500, 500, 0)];
    assert Started(v, 0, Beat(0), Beat(0).send(0)).pairs == t.pairs;
    assert [] + [Ordinary(0)] == [Ordinary(0)];
  }

  // The pair as a reply leaves it that does not nominate.
  const LANDED: Pair := Confirmable(LonePair(1, R0, Waiting))

  function OneLands(): State {
    Single(map[0 := L0, 1 := R0], 2, map[0 := LANDED], [0], Lone(Connecting, [1]), 1, [Ordinary(0)], REGULAR)
  }

  function LoneReply(id: PairId, r: CandId): Step {
    ReplyReceived(id, 0, Success(true, Some(r), Known(0)))
  }

  lemma OneReply()
    ensures var s := OneFlies();
            Answerable(s, 0, 0) && FinishReply(SetPair(s, 0, Confirmable(s.pairs[0])), 0, 0) == OneLands()
  {
    hide LonePrice;
    var s := OneFlies();
    assert SetPair(s, 0, Confirmable(FLYING)).pairs == map[0 := LANDED];
    assert !HasValidNominated(OneLands(), 0);
  }

  const TRIO: map<CandId, Candidate> := map[0 := L0, 1 := R0, 2 := R1]

  function Third(pairs: map<PairId, Pair>, list: seq<PairId>, next: PairId): State {
    Single(TRIO, 3, pairs, list, Lone(Connecting, [1, 2]), next, [Ordinary(0)], REGULAR)
  }

  lemma ThirdArrives()
    ensures AddCandidate(OneLands(), R1) == Third(map[0 := LANDED], [0], 1)
  {
    hide LonePrice;
    assert OneLands().cands[2 := R1] == TRIO;
    assert [1] + [2] == [1, 2];
    assert [Lone(Connecting, [1])][0 := Lone(Connecting, [1, 2])] == [Lone(Connecting, [1, 2])];
  }

  // A FROZEN pair of the other remote candidate.
  function FrozenBeside(): State {
    Third(map[0 := LANDED, 1 := LonePair(2, R1, Frozen)], [0, 1], 2)
  }

  lemma Names()
    ensures LANDED.foundation != LonePair(2, R1, Frozen).foundation && LonePrice(R1) < LonePrice(R0)
  {
    assert LANDED.foundation[2] == '3' && LonePair(2, R1, Frozen).foundation[2] == '4';
  }

  lemma FrozenFormed()
    ensures CanPair(Third(map[0 := LANDED], [0], 1), 0, 0, 2)
    ensures AddPairMatched(Third(map[0 := LANDED], [0], 1), 0, 0, 2, Frozen).0 == FrozenBeside()
  {
    hide AddPairMatched;
    Names();
    var s, a, b := Third(map[0 := LANDED], [0], 1), LANDED, LonePair(2, R1, Frozen);
    assert !HasSucceeded(s.pairs, b.foundation);
    hide HasSucceeded, LonePrice;
    LoneForms(s, 2, R1);
    InsertSecond(0, 1, map[0 := a, 1 := b]);
    assert map[0 := a][1 := b] == map[0 := a, 1 := b];
    assert [[0]][0 := [0, 1]] == [[0, 1]];
  }

  const RENAMED := NewRemote(R1, 1679819263, "3", ServerReflexive)

  lemma UpdatedBeside()
    ensures Updated(FrozenBeside(), 2, RENAMED) == FrozenBeside().(cands := TRIO[2 := RENAMED])
  {
    Names();
    var s := FrozenBeside();
    var t := s.(cands := TRIO[2 := RENAMED]);
    assert Formula(s.pairs[0], t.cands, true) == LonePrice(R0) && Formula(s.pairs[1], t.cands, true) == LonePrice(R1);
    hide LonePrice;
    assert Repriced(t) == s.pairs;
    SortsTwo(s.pairs, 0, 1);
    assert Recalculate(t).lists == [[0, 1]];
  }

  lemma ClashBeside()
    ensures var v := FrozenBeside().(cands := TRIO[2 := RENAMED]); Clash(v, 2, [0, 1], 1, 0)
  {
    hide LonePrice;
    var v := FrozenBeside().(cands := TRIO[2 := RENAMED]);
    assert 0 in [0, 1] && 1 in [0, 1];
    assert NewFoundation(v, v.pairs[1]) == "1" + ":" + "3";
    assert TitleAfter(v, 2, [0, 1], 1) == TitleAfter(v, 2, [0, 1], 0);
    forall k | 0 <= k < 2
      ensures !ThawsAt(v, 2, [0, 1], k, 1)
    {
      assert k == 0 || k == 1;
    }
  }

  lemma NoneFreed(s: State, u: State, c: nat)
    requires c < |u.comps| && SameEnds(s, u) && forall id :: id in s.pairs ==> !s.pairs[id].nominated
    ensures forall id :: id in u.pairs ==> Kept(u, c, id)
  {
    forall id | id in u.pairs
      ensures !u.pairs[id].nominated
    {
      assert SameButName(s.pairs[id], u.pairs[id]);
    }
    assert !HasValidNominated(u, c);
    hide HasValidNominated;
  }

  lemma BesideRefreezes()
    requires Inv(FrozenBeside())
    ensures Refreezes(FrozenBeside(), 0, 2, RENAMED)
  {
    hide Inv, LonePrice, RenameAlong, Reselected, Clash, Kept, Recalculate;
    var s := FrozenBeside();
    UpdatedBeside();
    ClashBeside();
    UpdatedWalk(s, 0, 2, RENAMED);
    var v := Updated(s, 2, RENAMED);
    RenameAlongEffect(v, 0, 2, [0, 1], 0);
    var w := Renamed(s, 0, 2, RENAMED);
    ReselectedPairs(w, 0);
    EndsStill(v, w, Reselected(w, 0));
    NoneFreed(v, Reselected(w, 0), 0);
  }

  lemma EndsStill(s: State, t: State, u: State)
    requires SameEnds(s, t) && u.pairs == t.pairs && u.cands == t.cands
    ensures SameEnds(s, u)
  {
  }

  function RefreezingRun(): seq<Step> {
    LoneRun(R0) + [TimerFired(Beat(0))] + [LoneReply(0, 1)] + [NewCandidate(R1)] + [FormPair(0, 0, 2, Frozen)]
  }

  lemma BesideState()
    ensures Run(Initial(true, REGULAR), RefreezingRun()) == FrozenBeside()
  {
    hide Run, LoneRun, SendPhases, WantsNomination, FinishReply, Answerable, AddCandidate, AddPairMatched, LonePrice;
    var s0, a := Initial(true, REGULAR), LoneRun(R0);
    LoneState(R0, REGULAR);
    OneStarts();
    NoneDone(OneFlies());
    SendThen(s0, a, OneKnown(R0, Frozen, REGULAR), Beat(0), OneFlies());
    OneReply();
    ReplyThen(s0, a + [TimerFired(Beat(0))], OneFlies(), 0);
    ThirdArrives();
    CandidateThen(s0, a + [TimerFired(Beat(0))] + [LoneReply(0, 1)], OneLands(), R1);
    FrozenFormed();
    PairThen(s0, a + [TimerFired(Beat(0))] + [LoneReply(0, 1)] + [NewCandidate(R1)], Third(map[0 := LANDED], [0], 1), 0, 0, 2);
  }

  /** A run from the initial state with no FROZEN pair of a foundation that has succeeded, until an updated
      remote candidate gives the FROZEN pair that foundation. */
  lemma RefrozenRun()
    ensures var s := Run(Initial(true, REGULAR), RefreezingRun());
            var step := RemoteUpdated(0, 2, 1679819263, "3", ServerReflexive);
            Thawed(s.pairs) && RefreezesPairs(s, step) && !Thawed(Apply(s, step).pairs)
  {
    hide Apply, Run, LonePrice, Inv, FrozenBeside, RefreezingRun;
    BesideState();
    RunInvariant(true, REGULAR, RefreezingRun());
    BesideRefreezes();
    RefrozenStep();
  }

  lemma RefrozenStep()
    requires Inv(FrozenBeside()) && Refreezes(FrozenBeside(), 0, 2, RENAMED)
    ensures var s, step := FrozenBeside(), RemoteUpdated(0, 2, 1679819263, "3", ServerReflexive);
            Thawed(s.pairs) && RefreezesPairs(s, step) && !Thawed(Apply(s, step).pairs)
  {
    hide Inv, Refreezes, UpdateRemote, LonePrice;
    Names();
    UpdateRemoteThawed(FrozenBeside(), 0, 2, 1679819263, "3", ServerReflexive);
  }

  // The pair as a reply leaves it that does not nominate, in the two-candidate setting.
  function Valid(l: CandId): Pair
    requires l in CANDS
  {
    Confirmable(Formed(l, 2, true, Waiting))
  }

  // ----- a valid pair that fails before it is nominated

  function Twin(a: Pair, queue: seq<PairId>, sent: seq<Sent>): State {
    World(map[0 := a, 1 := Valid(1)], [0, 1], Idle(Connecting), queue, true, 2, sent, REGULAR)
  }

  lemma SecondValid()
    ensures var s := BothSent(true, REGULAR);
            Answerable(s, 1, 0) && FinishReply(SetPair(s, 1, Confirmable(s.pairs[1])), 1, 1) == Twin(Flight(0, 500), [], BOTH)
  {
    hide Price;
    var s, t := BothSent(true, REGULAR), Twin(Flight(0, 500), [], BOTH);
    assert SetPair(s, 1, Confirmable(Flight(1, 520))).pairs == t.pairs;
    assert !HasValidNominated(t, 0);
  }

  lemma FirstTriggered()
    ensures ScheduleTriggered(Twin(Flight(0, 500), [], BOTH), 0, Some(7), 2) == Twin(Flight(0, 500), [0], BOTH)
  {
    Prices(true);
    hide Price;
    var s := Twin(Flight(0, 500), [], BOTH);
    assert MatchingPair(s, 0, Some(7), 2) == Some(0);
    hide MatchingPair;
    assert [] + [0] == [0];
  }

  // The first pair with two transactions.
  function Doubled(): Pair {
    Flight(0, 500).(stun := [Stun(true, 540, 540, 0), Stun(true, 500, 500, 0)])
  }

  lemma SentAgain()
    ensures SendPhases(Twin(Flight(0, 500), [0], BOTH), Beat(40)) == (Twin(Doubled(), [], THREE), true)
  {
    hide Price;
    var s, t := Twin(Flight(0, 500), [0], BOTH), Twin(Doubled(), [], THREE);
    var s1 := Twin(Flight(0, 500), [], BOTH);
    assert [0][1..] == [] && FilterOut([], {0}) == [];
    assert Dequeue(s, 0) == s1;
    assert [NewStun(s1, Beat(40), 500, 0)] + Flight(0, 500).stun == Doubled().stun;
    assert Started(s1, 0, Beat(40), Beat(40).send(0)).pairs == t.pairs;
    assert Initiate(s1, 0, Beat(40), Triggered(0)) == (t, true);
    hide Initiate, StunPhase, OrdinaryPhase;
    assert TriggeredPhase(s, 1, Beat(40)) == (t, true);
  }

  // The first pair may still succeed, so the second one is not picked yet.
  lemma NotYet()
    ensures NominatePhase(Twin(Doubled(), [], THREE), 0).0 == Twin(Doubled(), [], THREE)
  {
    hide Price;
    var s := Twin(Doubled(), [], THREE);
    assert [0, 1][1..] == [1] && [1][1..] == [];
    assert TakenElsewhere(s, 0, 1).None?;
    assert TakenElsewhere(s, 0, 0).None?;
    assert TakenOther(s, 0, 0).None?;
    NotStopping(s);
    hide Stopping, TakenElsewhere, TakenOther, WantsNomination, InProgressIn;
    assert Confirmed(s, 1) && !Eligible(s, 0, 0) && Eligible(s, 0, 1);
    assert Choose(s, 0, [1], None) == Choice(Some(1), false, true);
    assert Choose(s, 0, [0, 1], None) == Choose(s, 0, [1], None);
    hide Choose;
    assert NominateComp(s, 0, 0, None) == (s, false);
    hide NominateComp;
    assert NominateComps(s, 0, 1, None) == (s, false);
    assert NominateComps(s, 0, 0, None) == (s, false);
    assert NominatePhase(s, 1) == (s, false);
  }

  lemma NotStopping(s: State)
    requires s == Twin(Doubled(), [], THREE)
    ensures !Stopping(s, 0, [0, 1], true, false)
  {
    hide Price;
    assert [0, 1][1..] == [1] && [1][1..] == [];
    assert Count([], ValidIn(s, 0)) == 0;
    assert Count([1], ValidIn(s, 0)) == 1;
    assert Count([0, 1], ValidIn(s, 0)) == 1;
    assert 0 in [0, 1] && s.pairs[0].state.InProgress?;
    assert forall id :: id in [0, 1] ==> !HostHost(s, 0, id);
  }

  lemma TriggeredTick()
    ensures Tick(Twin(Flight(0, 500), [0], BOTH), Beat(40)).0 == Twin(Doubled(), [], THREE)
  {
    hide SendPhases, NominatePhase, FailComponents, Price;
    SentAgain();
    NotYet();
  }

  // One transaction is answered without a mapped address; the other one stays.
  function Leftover(): Pair {
    Flight(0, 500).(state := Succeeded, valid := true)
  }

  lemma FirstValid()
    ensures ReplyOk(Twin(Doubled(), [], THREE), 0, 0, Success(true, Some(2), NoAddress))
    ensures HandleReply(Twin(Doubled(), [], THREE), 0, 0, Success(true, Some(2), NoAddress)) == Twin(Leftover(), [], THREE)
  {
    hide Price;
    var s, t := Twin(Doubled(), [], THREE), Twin(Leftover(), [], THREE);
    var stun := Doubled().stun;
    assert stun[..0] + stun[1..] == [Stun(true, 500, 500, 0)];
    var s1 := DropStun(s, 0, 0);
    assert s1.pairs == map[0 := Flight(0, 500), 1 := Valid(1)];
    var s2 := SetPair(s1, 0, Leftover());
    assert s2.pairs == t.pairs;
    NoThaw(s2, s1.pairs[0].foundation);
    hide UnfreezeRelated;
    assert Answered(s1, 0, 2, NoAddress) == (t, 0);
    hide Answered;
    assert !HasValidNominated(t, 0);
    assert FinishReply(t, 0, 0) == t;
  }

  // The other transaction runs out: the valid pair fails.
  function Spent(): State {
    Twin(Leftover().(state := FailedCheck, stun := [], retransmit := false), [], THREE)
  }

  lemma FirstTimesOut()
    ensures TickPair(Twin(Leftover(), [], THREE), 0, Beat(1000)) == (Spent(), false)
  {
    hide Price;
    var s := Twin(Leftover(), [], THREE);
    var x := Stun(true, 500, 500, 0);
    assert [x][1..] == [];
    assert ScanStun([], false, true, Beat(1000)) == StunScan([], false);
    assert ScanStun([x], true, true, Beat(1000)) == StunScan([], false);
    hide ScanStun;
    assert FailPair(s, 0).pairs == Spent().pairs;
    assert !HasValidNominated(Spent(), 0);
  }

  lemma LastSends()
    ensures SendPhases(Twin(Leftover(), [], THREE), Beat(1000)).0 == Spent()
  {
    hide Price, TickPair;
    var s, u, t := Twin(Leftover(), [], THREE), Spent(), Beat(1000);
    FirstTimesOut();
    NothingLeft(u, t);
    assert [0, 1][1..] == [1];
    assert TickAlong(s, [0, 1], t) == TickAlong(u, [1], t) == (u, false);
    hide TickAlong;
    assert StunPhase(u, 1, t) == (u, false);
    assert StunPhase(s, 0, t) == (u, false);
    hide StunPhase;
    NothingWaits(u, t);
    assert TriggeredPhase(s, 1, t) == (s, false);
  }

  lemma NothingLeft(u: State, t: TickInput)
    requires u == Spent()
    ensures TickAlong(u, [1], t) == (u, false)
  {
    hide Price;
    assert [1][1..] == [];
    assert TickPair(u, 1, t) == (u, false);
    hide TickPair;
    assert TickAlong(u, [], t) == (u, false);
  }

  lemma NothingWaits(u: State, t: TickInput)
    requires u == Spent()
    ensures OrdinaryPhase(u, 0, t) == (u, false)
  {
    hide Price;
    assert [0, 1][1..] == [1] && [1][1..] == [];
    assert NextWaiting(u, 0).None?;
    assert Flat([[0, 1]]) == [0, 1] by { assert [[0, 1]][1..] == []; assert Flat([]) == []; }
    assert UnfreezeAlong(u.pairs, [], {}) == u.pairs;
    assert UnfreezeAlong(u.pairs, [1], {}) == u.pairs;
    assert UnfreezeAlong(u.pairs, [0, 1], {}) == u.pairs;
    hide UnfreezeAlong, Flat;
    assert UnfreezeNext(u) == u;
    hide UnfreezeNext, NextWaiting;
    assert OrdinaryCheck(u, 0, t) == (u, false);
    hide OrdinaryCheck;
    assert OrdinaryPhase(u, 1, t) == (u, false);
  }

  lemma SpentTrips()
    ensures PhaseTrips(Spent(), 0)
  {
    hide Price, LikeAt, Stopping;
    var u := Spent();
    assert Done(u, 1) && 1 in u.lists[0];
    assert ComponentCount(u.comps, 0) == 1 by { assert u.comps[1..] == []; }
    assert [0, 1][1..] == [1] && [1][1..] == [];
    assert Count([], NominatedIn(u)) == 0;
    assert Count([1], NominatedIn(u)) == 0;
    assert Count([0, 1], NominatedIn(u)) == 0;
    assert WantsNomination(u, 0);
    hide WantsNomination, Count;
    assert Eligible(u, 0, 0) && !Confirmed(u, 0);
    assert u.lists[0][0] == 0 && LookedAt(u, 0, u.lists[0], LikeAt(u, 0, 0), 0);
    assert Unsettled(u, 0, u.lists[0], LikeAt(u, 0, 0));
    assert NominationTrips(u, 0, 0);
  }

  function UnconfirmedRun(): seq<Step> {
    Checks() + [Replied(1, 1)] + [CheckReceived(0, Some(7), 2)] + [TimerFired(Beat(40))]
      + [ReplyReceived(0, 0, Success(true, Some(2), NoAddress))]
  }

  lemma UnconfirmedState()
    ensures Run(Initial(true, REGULAR), UnconfirmedRun()) == Twin(Leftover(), [], THREE)
  {
    hide Run, Checks, HandleReply, FinishReply, Answerable, ScheduleTriggered, Tick, Price;
    var s0, a := Initial(true, REGULAR), Checks();
    ChecksSent(true, true);
    SecondValid();
    ReplyThen(s0, a, BothSent(true, REGULAR), 1);
    FirstTriggered();
    CheckThen(s0, a + [Replied(1, 1)], Twin(Flight(0, 500), [], BOTH), 0, Some(7), 2);
    TriggeredTick();
    var b := a + [Replied(1, 1)] + [CheckReceived(0, Some(7), 2)];
    TickThen(s0, b, Twin(Flight(0, 500), [0], BOTH), Beat(40));
    FirstValid();
    AnswerThen(s0, b + [TimerFired(Beat(40))], Twin(Doubled(), [], THREE), 0, 0, Success(true, Some(2), NoAddress));
  }

  /** The assertion of regular nomination fails in a run from the initial state: a pair checked twice
      becomes valid by a reply without a mapped address, its other transaction runs out and fails it, and
      the same tick looks at it for nomination. */
  lemma UnconfirmedFromInitial()
    ensures var s := Run(Initial(true, REGULAR), UnconfirmedRun());
            s.fault.NoFault? && Apply(s, TimerFired(Beat(1000))).fault.ValidPairNotSucceeded?
  {
    hide Inv, Run, UnconfirmedRun, Tick, SendPhases, PhaseTrips, Price;
    UnconfirmedState();
    RunInvariant(true, REGULAR, UnconfirmedRun());
    var s := Twin(Leftover(), [], THREE);
    LastSends();
    SpentTrips();
    TickUnconfirmed(s, Beat(1000));
  }
}
