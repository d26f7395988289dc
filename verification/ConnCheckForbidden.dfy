/** A run in which a 403 response fails a valid pair. There is one local candidate; the client selects its first
pair by hand. Two better remote candidates are signalled, paired and checked with success, and the address of
one of them answers with a 403 before either is nominated. */
module ConnCheckForbidden {
  import opened Basics
  import opened CandidatePriority
  import opened ConnCheckState
  import opened ConnCheckSpec
  import opened ConnCheckTick
  import opened ConnCheckConfirm
  import opened ConnCheckRuns
  import opened ConnCheckReplay
  import opened ConnCheckExamples
  import opened ConnCheckCorners

  // The best remote candidate; R0 comes between it and R1.
  const R9 := Candidate(0, false, ServerReflexive, Udp, 1679819775, "5", None, 5)

  lemma GenuineToo()
    ensures R9.priority == Priority(PriorityInput(ServerReflexive, Udp, false, false, 0, 3, 1), false)
  {
  }

  const QUAD: map<CandId, Candidate> := map[0 := L0, 1 := R1, 2 := R9, 3 := R0]

  // The component with the pair the client selected, of the first remote candidate.
  function Chosen(state: ComponentState, remotes: seq<CandId>): Component {
    Component(0, state, Some(0), Some(1), LonePrice(R1), remotes, [0])
  }

  lemma Order()
    ensures LonePrice(R9) > LonePrice(R0) > LonePrice(R1) > 0
    ensures LonePair(2, R9, Frozen).foundation != LonePair(3, R0, Frozen).foundation
  {
    assert LonePair(2, R9, Frozen).foundation[2] == '5' && LonePair(3, R0, Frozen).foundation[2] == '3';
  }

  // ----- the selection and the better pairs

  function Taken(cands: map<CandId, Candidate>, next: CandId, remotes: seq<CandId>): State {
    Single(cands, next, map[], [], Chosen(Ready, remotes), 1, [], REGULAR).(timerOn := false)
  }

  lemma Emptied()
    ensures var s := OneKnown(R1, Frozen, REGULAR);
            PruneStream(s, 0) == Single(s.cands, 2, map[], [], Lone(Connecting, [1]), 1, [], REGULAR).(timerOn := false)
  {
    hide LonePrice;
    var s := OneKnown(R1, Frozen, REGULAR);
    assert Members([0]) == {0};
    assert s.pairs - {0} == map[];
    assert [0][1..] == [] && FilterOut([], {0}) == [];
    assert FilterOut([0], {0}) == [];
    assert RemovePairs(s, {0}).lists == [[]];
  }

  lemma SelectedByHand()
    ensures CanPair(OneKnown(R1, Frozen, REGULAR), 0, 0, 1)
    ensures SetSelected(OneKnown(R1, Frozen, REGULAR), 0, 0, 1) == Taken(map[0 := L0, 1 := R1], 2, [1])
  {
    var s := OneKnown(R1, Frozen, REGULAR);
    assert LonePrice(R1) == AgentPairPriority(true, L0.priority, R1.priority);
    hide LonePrice, PruneStream;
    Emptied();
    var u := PruneStream(s, 0);
    assert [Lone(Connecting, [1])][0 := Lone(Connected, [1])][0 := Lone(Ready, [1])] == [Lone(Ready, [1])];
    assert ConcludeReady(u, 0) == u.(comps := [Lone(Ready, [1])]);
    hide ConcludeReady;
    assert [Lone(Ready, [1])][0 := Chosen(Ready, [1])] == [Chosen(Ready, [1])];
  }

  lemma BetterArrives()
    ensures AddCandidate(Taken(map[0 := L0, 1 := R1], 2, [1]), R9) == Taken(map[0 := L0, 1 := R1, 2 := R9], 3, [1, 2])
  {
    hide LonePrice;
    assert [1] + [2] == [1, 2];
    assert [Chosen(Ready, [1])][0 := Chosen(Ready, [1, 2])] == [Chosen(Ready, [1, 2])];
  }

  function Better(): State {
    Single(map[0 := L0, 1 := R1, 2 := R9], 3, map[1 := LonePair(2, R9, Frozen)], [1], Chosen(Connected, [1, 2]), 2, [], REGULAR)
  }

  lemma BetterFormed()
    ensures CanPair(Taken(map[0 := L0, 1 := R1, 2 := R9], 3, [1, 2]), 0, 0, 2)
    ensures AddPairMatched(Taken(map[0 := L0, 1 := R1, 2 := R9], 3, [1, 2]), 0, 0, 2, Frozen).0 == Better()
  {
    hide AddPairMatched;
    Order();
    var s, p := Taken(map[0 := L0, 1 := R1, 2 := R9], 3, [1, 2]), LonePair(2, R9, Frozen);
    assert !HasSucceeded(s.pairs, p.foundation);
    hide HasSucceeded, LonePrice;
    LoneForms(s, 2, R9);
    assert map[][1 := p] == map[1 := p];
    assert InsertSorted([], 1, map[1 := p]) == [1];
    assert [[]][0 := [1]] == [[1]];
    assert [Chosen(Ready, [1, 2])][0 := Chosen(Connected, [1, 2])] == [Chosen(Connected, [1, 2])];
  }

  // The two pairs `a` and `b`, of the second and third remote candidate.
  function Both(a: Pair, b: Pair, sent: seq<Sent>): State {
    Single(QUAD, 4, map[1 := a, 2 := b], [1, 2], Chosen(Connected, [1, 2, 3]), 3, sent, REGULAR)
  }

  lemma AnotherArrives()
    ensures AddCandidate(Better(), R0) ==
            Single(QUAD, 4, map[1 := LonePair(2, R9, Frozen)], [1], Chosen(Connected, [1, 2, 3]), 2, [], REGULAR)
  {
    hide LonePrice;
    assert Better().cands[3 := R0] == QUAD;
    assert [1, 2] + [3] == [1, 2, 3];
    assert [Chosen(Connected, [1, 2])][0 := Chosen(Connected, [1, 2, 3])] == [Chosen(Connected, [1, 2, 3])];
  }

  function A(state: CheckState): Pair {
    LonePair(2, R9, state)
  }

  function B(state: CheckState): Pair {
    LonePair(3, R0, state)
  }

  lemma AnotherFormed()
    ensures var s := Single(QUAD, 4, map[1 := A(Frozen)], [1], Chosen(Connected, [1, 2, 3]), 2, [], REGULAR);
            CanPair(s, 0, 0, 3) && AddPairMatched(s, 0, 0, 3, Frozen).0 == Both(A(Frozen), B(Frozen), [])
  {
    hide AddPairMatched;
    Order();
    var a, b := A(Frozen), B(Frozen);
    var s := Single(QUAD, 4, map[1 := a], [1], Chosen(Connected, [1, 2, 3]), 2, [], REGULAR);
    assert !HasSucceeded(s.pairs, b.foundation);
    hide HasSucceeded, LonePrice;
    LoneForms(s, 3, R0);
    InsertSecond(1, 2, map[1 := a, 2 := b]);
    assert map[1 := a][2 := b] == map[1 := a, 2 := b];
    assert [[1]][0 := [1, 2]] == [[1, 2]];
  }

  // ----- the checks

  // A tick at `now` whose sends leave on the socket of the local candidate.
  function Pulse(now: int): TickInput {
    TickInput(now, _ => SentOn(Some(7), 500, 0), 500, false)
  }

  lemma BothThawed()
    ensures UnfreezeNext(Both(A(Frozen), B(Frozen), [])) == Both(A(Waiting), B(Waiting), [])
    ensures NextWaiting(Both(A(Frozen), B(Frozen), []), 0).None? && NextWaiting(Both(A(Waiting), B(Waiting), []), 0) == Some(1)
  {
    Order();
    hide LonePrice;
    var s := Both(A(Frozen), B(Frozen), []);
    assert !SomeWaiting(s);
    ThawsTwo(s, 1, 2);
    assert s.pairs[1 := Released(s.pairs[1])][2 := Released(s.pairs[2])] == Both(A(Waiting), B(Waiting), []).pairs;
  }

  function AFlies(): Pair {
    Sending(A(Waiting), true, 500)
  }

  function BFlies(): Pair {
    Sending(B(Waiting), true, 520)
  }

  const SENT: seq<Sent> := [Ordinary(1), Ordinary(2)]

  lemma FirstStarts()
    ensures Initiate(Both(A(Waiting), B(Waiting), []), 1, Pulse(0), Ordinary(1)) == (Both(AFlies(), B(Waiting), [Ordinary(1)]), true)
  {
    hide LonePrice;
    var s, t := Both(A(Waiting), B(Waiting), []), Both(AFlies(), B(Waiting), [Ordinary(1)]);
    assert [NewStun(s, Pulse(0), 500, 0)] + [] == [Stun(true, 500, 500, 0)];
    assert Started(s, 1, Pulse(0), Pulse(0).send(1)).pairs == t.pairs;
    assert [] + [Ordinary(1)] == [Ordinary(1)];
  }

  lemma FirstSends()
    ensures SendPhases(Both(A(Frozen), B(Frozen), []), Pulse(0)) == (Both(AFlies(), B(Waiting), [Ordinary(1)]), true)
  {
    hide LonePrice, SendPhases, Initiate, UnfreezeNext, NextWaiting;
    BothThawed();
    ThawingSends(Both(A(Frozen), B(Frozen), []), Pulse(0), 1);
    FirstStarts();
  }

  lemma SecondStarts()
    ensures Initiate(Both(AFlies(), B(Waiting), [Ordinary(1)]), 2, Pulse(20), Ordinary(2)) == (Both(AFlies(), BFlies(), SENT), true)
  {
    hide LonePrice;
    var s, t := Both(AFlies(), B(Waiting), [Ordinary(1)]), Both(AFlies(), BFlies(), SENT);
    assert [NewStun(s, Pulse(20), 500, 0)] + [] == [Stun(true, 520, 520, 0)];
    assert Started(s, 2, Pulse(20), Pulse(20).send(2)).pairs == t.pairs;
    assert [Ordinary(1)] + [Ordinary(2)] == SENT;
  }

  lemma SecondSends()
    ensures SendPhases(Both(AFlies(), B(Waiting), [Ordinary(1)]), Pulse(20)) == (Both(AFlies(), BFlies(), SENT), true)
  {
    hide LonePrice, SendPhases, Initiate;
    var s := Both(AFlies(), B(Waiting), [Ordinary(1)]);
    assert [1, 2][1..] == [2];
    assert NextWaiting(s, 0) == Some(2);
    OrdinarySends(s, Pulse(20), 2);
    SecondStarts();
  }

  // ----- the replies and the 403

  function AGood(): Pair {
    Confirmable(A(Waiting))
  }

  function BGood(): Pair {
    Confirmable(B(Waiting))
  }

  lemma FirstHeard()
    ensures var s := Both(AFlies(), BFlies(), SENT);
            Answerable(s, 1, 0) && FinishReply(SetPair(s, 1, Confirmable(s.pairs[1])), 1, 1) == Both(AGood(), BFlies(), SENT)
  {
    hide LonePrice;
    var s, t := Both(AFlies(), BFlies(), SENT), Both(AGood(), BFlies(), SENT);
    assert SetPair(s, 1, Confirmable(AFlies())).pairs == t.pairs;
    assert !HasValidNominated(t, 0);
  }

  lemma SecondHeard()
    ensures var s := Both(AGood(), BFlies(), SENT);
            Answerable(s, 2, 0) && FinishReply(SetPair(s, 2, Confirmable(s.pairs[2])), 2, 2) == Both(AGood(), BGood(), SENT)
  {
    hide LonePrice;
    var s, t := Both(AGood(), BFlies(), SENT), Both(AGood(), BGood(), SENT);
    assert SetPair(s, 2, Confirmable(BFlies())).pairs == t.pairs;
    assert !HasValidNominated(t, 0);
  }

  function Rejected403(): State {
    Both(AGood().(state := FailedCheck), BGood(), SENT)
  }

  lemma FirstForbidden()
    ensures Forbidden(Both(AGood(), BGood(), SENT), 0, {2}) == Rejected403()
  {
    hide LonePrice;
    var s, t := Both(AGood(), BGood(), SENT), Rejected403();
    assert [1, 2][1..] == [2] && [2][1..] == [];
    assert FailPair(s, 1).pairs == t.pairs;
    assert FailPair(s, 1) == t;
    hide FailPair;
    assert FailAlong(t, {2}, []) == t;
    assert FailAlong(t, {2}, [2]) == FailAlong(t, {2}, []);
    assert FailAlong(s, {2}, [1, 2]) == FailAlong(t, {2}, [2]);
  }

  // ----- the next tick

  lemma QuietSends()
    ensures SendPhases(Rejected403(), Pulse(40)).0 == Rejected403()
  {
    hide LonePrice;
    var u, t := Rejected403(), Pulse(40);
    StunPhaseNotDue(u, t);
    hide StunPhase;
    NoOrdinary(u, t);
    hide OrdinaryPhase;
    assert TriggeredPhase(u, 1, t) == (u, false);
  }

  lemma NoOrdinary(u: State, t: TickInput)
    requires u == Rejected403()
    ensures OrdinaryPhase(u, 0, t) == (u, false)
  {
    hide LonePrice;
    assert [1, 2][1..] == [2] && [2][1..] == [];
    assert NextWaiting(u, 0).None?;
    FlatOne([1, 2]);
    assert UnfreezeAlong(u.pairs, [], {}) == u.pairs;
    assert UnfreezeAlong(u.pairs, [2], {}) == u.pairs;
    assert UnfreezeAlong(u.pairs, [1, 2], {}) == u.pairs;
    hide UnfreezeAlong, Flat;
    assert UnfreezeNext(u) == u;
    hide UnfreezeNext, NextWaiting;
    assert OrdinaryCheck(u, 0, t) == (u, false);
    hide OrdinaryCheck;
    assert OrdinaryPhase(u, 1, t) == (u, false);
  }

  lemma ForbiddenTrips()
    ensures PhaseTrips(Rejected403(), 0)
  {
    hide LonePrice, LikeAt, Stopping;
    var u := Rejected403();
    assert Done(u, 2) && 2 in u.lists[0];
    assert ComponentCount(u.comps, 0) == 1 by { assert u.comps[1..] == []; }
    assert [1, 2][1..] == [2] && [2][1..] == [];
    assert Count([], NominatedIn(u)) == 0;
    assert Count([2], NominatedIn(u)) == 0;
    assert Count([1, 2], NominatedIn(u)) == 0;
    assert WantsNomination(u, 0);
    hide WantsNomination, Count;
    assert Eligible(u, 0, 1) && !Confirmed(u, 1);
    assert u.lists[0][0] == 1 && LookedAt(u, 0, u.lists[0], LikeAt(u, 0, 0), 0);
    assert Unsettled(u, 0, u.lists[0], LikeAt(u, 0, 0));
    assert NominationTrips(u, 0, 0);
  }

  function FormingRun(): seq<Step> {
    LoneRun(R1) + [PairSelected(0, 0, 1)] + [NewCandidate(R9)] + [FormPair(0, 0, 2, Frozen)] + [NewCandidate(R0)]
      + [FormPair(0, 0, 3, Frozen)]
  }

  lemma FormingState()
    ensures Run(Initial(true, REGULAR), FormingRun()) == Both(A(Frozen), B(Frozen), [])
  {
    hide Run, LoneRun, SetSelected, AddCandidate, AddPairMatched, LonePrice;
    var s0, a := Initial(true, REGULAR), LoneRun(R1);
    LoneState(R1, REGULAR);
    SelectedByHand();
    var s := OneKnown(R1, Frozen, REGULAR);
    SelectThen(s0, a, s, 0, 0, 1);
    var b := a + [PairSelected(0, 0, 1)];
    BetterArrives();
    CandidateThen(s0, b, Taken(map[0 := L0, 1 := R1], 2, [1]), R9);
    BetterFormed();
    PairThen(s0, b + [NewCandidate(R9)], Taken(map[0 := L0, 1 := R1, 2 := R9], 3, [1, 2]), 0, 0, 2);
    var d := b + [NewCandidate(R9)] + [FormPair(0, 0, 2, Frozen)];
    AnotherArrives();
    CandidateThen(s0, d, Better(), R0);
    AnotherFormed();
    PairThen(s0, d + [NewCandidate(R0)], Single(QUAD, 4, map[1 := A(Frozen)], [1], Chosen(Connected, [1, 2, 3]), 2, [], REGULAR), 0, 0, 3);
  }

  function ForbiddenRun(): seq<Step> {
    FormingRun() + [TimerFired(Pulse(0))] + [TimerFired(Pulse(20))] + [LoneReply(1, 2)] + [LoneReply(2, 3)] + [ForbiddenReceived(0, {2})]
  }

  lemma ForbiddenState()
    ensures Run(Initial(true, REGULAR), ForbiddenRun()) == Rejected403()
  {
    hide Run, FormingRun, SendPhases, WantsNomination, FinishReply, Answerable, Forbidden, LonePrice;
    var s0, a := Initial(true, REGULAR), FormingRun();
    FormingState();
    FirstSends();
    NoneDone(Both(AFlies(), B(Waiting), [Ordinary(1)]));
    SendThen(s0, a, Both(A(Frozen), B(Frozen), []), Pulse(0), Both(AFlies(), B(Waiting), [Ordinary(1)]));
    SecondSends();
    NoneDone(Both(AFlies(), BFlies(), SENT));
    SendThen(s0, a + [TimerFired(Pulse(0))], Both(AFlies(), B(Waiting), [Ordinary(1)]), Pulse(20), Both(AFlies(), BFlies(), SENT));
    var e := a + [TimerFired(Pulse(0))] + [TimerFired(Pulse(20))];
    FirstHeard();
    ReplyThen(s0, e, Both(AFlies(), BFlies(), SENT), 1);
    SecondHeard();
    ReplyThen(s0, e + [LoneReply(1, 2)], Both(AGood(), BFlies(), SENT), 2);
    FirstForbidden();
    ForbiddenThen(s0, e + [LoneReply(1, 2)] + [LoneReply(2, 3)], Both(AGood(), BGood(), SENT), 0, {2});
  }

  /** A 403 response fails a valid pair without making it invalid, and the next tick's nomination finds it:
      a run from the initial state that fails the assertion. */
  lemma ForbiddenBreaksNomination()
    ensures var s := Run(Initial(true, REGULAR), ForbiddenRun());
            s.fault.NoFault? && Apply(s, TimerFired(Pulse(40))).fault.ValidPairNotSucceeded?
  {
    hide Inv, Run, ForbiddenRun, Tick, SendPhases, PhaseTrips, LonePrice;
    ForbiddenState();
    RunInvariant(true, REGULAR, ForbiddenRun());
    QuietSends();
    ForbiddenTrips();
    TickUnconfirmed(Rejected403(), Pulse(40));
  }
}
