/** Runs from the initial state that show why the run theorems carry their conditions.

One stream with one component. Gathering finds two local host candidates on different sockets; then a remote
candidate is signalled, and the agent pairs it with both, FROZEN. The first tick thaws both pairs and checks
the first one; the next tick checks the second one. */
module ConnCheckExamples {
  import opened Basics
  import opened CandidatePriority
  import opened ConnCheckState
  import opened ConnCheckSpec
  import opened ConnCheckSockets
  import opened ConnCheckSelection
  import opened ConnCheckKin
  import opened ConnCheckTick
  import opened ConnCheckRuns
  import opened ConnCheckReplay

  // Local host candidates on two addresses, and server-reflexive remote ones.
  const L0 := Candidate(0, true, Host, Udp, 2015363583, "1", Some(7), 1)
  const L1 := Candidate(0, true, Host, Udp, 2015363327, "2", Some(8), 2)
  const R0 := Candidate(0, false, ServerReflexive, Udp, 1679819519, "3", None, 3)
  const R1 := Candidate(0, false, ServerReflexive, Udp, 1679819263, "4", None, 4)

  /** The priorities are those of the formula, for the first component. */
  lemma Genuine()
    ensures L0.priority == Priority(PriorityInput(Host, Udp, false, false, 0, 1, 1), false)
    ensures L1.priority == Priority(PriorityInput(Host, Udp, false, false, 0, 0, 1), false)
    ensures R0.priority == Priority(PriorityInput(ServerReflexive, Udp, false, false, 0, 2, 1), false)
    ensures R1.priority == Priority(PriorityInput(ServerReflexive, Udp, false, false, 0, 1, 1), false)
  {
  }

  const CANDS: map<CandId, Candidate> := map[0 := L0, 1 := L1, 2 := R0]

  // Pacing and idle timeout are equal, so that the first idle tick concludes.
  function Settings(regular: bool): Config {
    Config(100, 50, 50, regular, false, 3)
  }

  // The component with its candidates, in a state and with a selection.
  function Comp(state: ComponentState, local: Option<CandId>, remote: Option<CandId>, priority: nat): Component {
    Component(0, state, local, remote, priority, [2], [0, 1])
  }

  function Idle(state: ComponentState): Component {
    Comp(state, None, None, 0)
  }

  function World(pairs: map<PairId, Pair>, list: seq<PairId>, comp: Component, queue: seq<PairId>, role: bool,
                 next: PairId, sent: seq<Sent>, cfg: Config): State {
    State(pairs, [list], [comp], queue, CANDS, role, next, 3, true, 0, sent, NoFault, cfg)
  }

  function Price(l: CandId, r: CandId, role: bool): nat
    requires l in CANDS && r in CANDS
  {
    AgentPairPriority(role, CANDS[l].priority, CANDS[r].priority)
  }

  // The pair of two candidates, as it is formed.
  function Formed(l: CandId, r: CandId, role: bool, initial: CheckState): Pair
    requires l in CANDS && r in CANDS
  {
    Pair(0, l, r, CANDS[l].sock, CANDS[l].foundation + ":" + CANDS[r].foundation, initial, false, false, false, false,
         false, None, None, Price(l, r, role), [])
  }

  function Sending(p: Pair, role: bool, until: int): Pair {
    p.(state := InProgress, retransmit := true, stun := [Stun(role, until, until, 0)])
  }

  lemma Prices(role: bool)
    ensures Price(0, 2, role) > Price(1, 2, role) > 0
  {
  }

  // ----- candidates

  function Before(comp: Component, cands: map<CandId, Candidate>, next: CandId, role: bool, cfg: Config): State {
    State(map[], [[]], [comp], [], cands, role, 0, next, false, 0, [], NoFault, cfg)
  }

  function Arrivals(): seq<Step> {
    [NewStream(1)] + [GatheringStarted(0)] + [NewCandidate(L0)] + [NewCandidate(L1)] + [NewCandidate(R0)]
  }

  function Bare(state: ComponentState, locals: seq<CandId>, remotes: seq<CandId>): Component {
    Component(0, state, None, None, 0, remotes, locals)
  }

  lemma GatheringSteps(role: bool, cfg: Config)
    ensures Run(Initial(role, cfg), [NewStream(1)] + [GatheringStarted(0)]) == Before(Bare(Gathering, [], []), map[], 0, role, cfg)
  {
    var s0 := Initial(role, cfg);
    assert AddStream(s0, 1).comps == [Bare(Disconnected, [], [])];
    RunOne(s0, NewStream(1));
    var s := Before(Bare(Disconnected, [], []), map[], 0, role, cfg);
    assert Apply(s0, NewStream(1)) == s;
    hide Run, Apply;
    GatherThen(s0, [NewStream(1)], s, 0);
    assert [Bare(Disconnected, [], [])][0 := Bare(Gathering, [], [])] == [Bare(Gathering, [], [])];
  }

  lemma LocalSteps(role: bool, cfg: Config)
    ensures AddCandidate(Before(Bare(Gathering, [], []), map[], 0, role, cfg), L0) ==
            Before(Bare(Gathering, [0], []), map[0 := L0], 1, role, cfg)
    ensures AddCandidate(Before(Bare(Gathering, [0], []), map[0 := L0], 1, role, cfg), L1) ==
            Before(Bare(Gathering, [0, 1], []), map[0 := L0, 1 := L1], 2, role, cfg)
    ensures AddCandidate(Before(Bare(Gathering, [0, 1], []), map[0 := L0, 1 := L1], 2, role, cfg), R0) ==
            Before(Idle(Gathering), CANDS, 3, role, cfg)
  {
    assert [] + [0] == [0] && [0] + [1] == [0, 1] && [] + [2] == [2];
    assert [Bare(Gathering, [], [])][0 := Bare(Gathering, [0], [])] == [Bare(Gathering, [0], [])];
    assert [Bare(Gathering, [0], [])][0 := Bare(Gathering, [0, 1], [])] == [Bare(Gathering, [0, 1], [])];
    assert [Bare(Gathering, [0, 1], [])][0 := Idle(Gathering)] == [Idle(Gathering)];
  }

  lemma Arrived(role: bool, cfg: Config)
    ensures Run(Initial(role, cfg), Arrivals()) == Before(Idle(Gathering), CANDS, 3, role, cfg)
  {
    hide Run, AddCandidate, Before;
    var s0, a := Initial(role, cfg), [NewStream(1)] + [GatheringStarted(0)];
    GatheringSteps(role, cfg);
    LocalSteps(role, cfg);
    CandidateThen(s0, a, Before(Bare(Gathering, [], []), map[], 0, role, cfg), L0);
    CandidateThen(s0, a + [NewCandidate(L0)], Before(Bare(Gathering, [0], []), map[0 := L0], 1, role, cfg), L1);
    CandidateThen(s0, a + [NewCandidate(L0)] + [NewCandidate(L1)],
                  Before(Bare(Gathering, [0, 1], []), map[0 := L0, 1 := L1], 2, role, cfg), R0);
  }

  // ----- two pairs

  lemma FirstFormed(role: bool, cfg: Config)
    requires cfg.maxChecks == 100
    ensures CanPair(Before(Idle(Gathering), CANDS, 3, role, cfg), 0, 0, 2)
    ensures AddPairMatched(Before(Idle(Gathering), CANDS, 3, role, cfg), 0, 0, 2, Frozen).0 ==
            World(map[0 := Formed(0, 2, role, Frozen)], [0], Idle(Connecting), [], role, 1, [], cfg)
  {
    var s := Before(Idle(Gathering), CANDS, 3, role, cfg);
    var p := Formed(0, 2, role, Frozen);
    assert NewPair(s, 0, 0, 2, Frozen) == p;
    assert !HasSucceeded(s.pairs, p.foundation);
    hide HasSucceeded;
    Forms(s, 0, 0, 2, Frozen);
    hide AddPairMatched, Price;
    assert InsertSorted([], 0, map[0 := p]) == [0];
    assert [[]][0 := [0]] == [[0]];
    assert [Idle(Gathering)][0 := Idle(Connecting)] == [Idle(Connecting)];
  }

  lemma SecondFormed(role: bool, cfg: Config)
    requires cfg.maxChecks == 100
    ensures CanPair(World(map[0 := Formed(0, 2, role, Frozen)], [0], Idle(Connecting), [], role, 1, [], cfg), 0, 1, 2)
    ensures AddPairMatched(World(map[0 := Formed(0, 2, role, Frozen)], [0], Idle(Connecting), [], role, 1, [], cfg), 0, 1, 2, Frozen).0 ==
            Colds(role, cfg)
  {
    var a, b := Formed(0, 2, role, Frozen), Formed(1, 2, role, Frozen);
    var s := World(map[0 := a], [0], Idle(Connecting), [], role, 1, [], cfg);
    assert NewPair(s, 0, 1, 2, Frozen) == b;
    assert !HasSucceeded(s.pairs, b.foundation);
    hide HasSucceeded;
    Forms(s, 0, 1, 2, Frozen);
    Prices(role);
    hide AddPairMatched, Price;
    InsertSecond(0, 1, map[0 := a, 1 := b]);
    assert map[0 := a][1 := b] == map[0 := a, 1 := b];
    assert [[0]][0 := [0, 1]] == [[0, 1]];
  }

  lemma InsertSecond(x: PairId, y: PairId, pairs: map<PairId, Pair>)
    requires x in pairs && y in pairs && pairs[y].priority < pairs[x].priority
    ensures InsertSorted([x], y, pairs) == [x, y]
  {
    assert [x][1..] == [];
    assert InsertSorted([], y, pairs) == [y];
  }

  // A tick at `now` whose sends leave on the pair's socket and time out after 500 ms.
  function Beat(now: int): TickInput {
    TickInput(now, (id: PairId) => SentOn(if id == 0 then Some(7) else Some(8), 500, 0), 500, false)
  }

  // Both pairs FROZEN, and both WAITING.
  function Colds(role: bool, cfg: Config): State {
    World(map[0 := Formed(0, 2, role, Frozen), 1 := Formed(1, 2, role, Frozen)], [0, 1], Idle(Connecting), [], role, 2, [], cfg)
  }

  function Waits(role: bool, cfg: Config): State {
    World(map[0 := Formed(0, 2, role, Waiting), 1 := Formed(1, 2, role, Waiting)], [0, 1], Idle(Connecting), [], role, 2, [], cfg)
  }

  function HalfSent(role: bool, cfg: Config): State {
    World(map[0 := Sending(Formed(0, 2, role, Waiting), role, 500), 1 := Formed(1, 2, role, Waiting)], [0, 1],
          Idle(Connecting), [], role, 2, [Ordinary(0)], cfg)
  }

  function BothSent(role: bool, cfg: Config): State {
    World(map[0 := Sending(Formed(0, 2, role, Waiting), role, 500), 1 := Sending(Formed(1, 2, role, Waiting), role, 520)], [0, 1],
          Idle(Connecting), [], role, 2, [Ordinary(0), Ordinary(1)], cfg)
  }

  lemma NoneDone(s: State)
    requires |s.lists| == 1 && forall id :: id in s.pairs ==> !s.pairs[id].state.Succeeded? && !s.pairs[id].state.Discovered?
    ensures !WantsNomination(s, 0)
  {
  }

  lemma Titles(role: bool)
    ensures Formed(0, 2, role, Frozen).foundation != Formed(1, 2, role, Frozen).foundation
  {
    hide Price;
    assert Formed(0, 2, role, Frozen).foundation[0] == '1' && Formed(1, 2, role, Frozen).foundation[0] == '2';
  }

  lemma BothThaw(role: bool, cfg: Config)
    ensures UnfreezeNext(Colds(role, cfg)) == Waits(role, cfg) && NextWaiting(Colds(role, cfg), 0).None?
    ensures NextWaiting(Waits(role, cfg), 0) == Some(0)
  {
    Titles(role);
    hide Price;
    var s, t := Colds(role, cfg), Waits(role, cfg);
    assert !SomeWaiting(s);
    ThawsTwo(s, 0, 1);
    assert s.pairs[0 := Released(s.pairs[0])][1 := Released(s.pairs[1])] == t.pairs;
  }

  lemma FirstStarted(role: bool, cfg: Config)
    requires cfg.maxRetransmissions == 3
    ensures Initiate(Waits(role, cfg), 0, Beat(0), Ordinary(0)) == (HalfSent(role, cfg), true)
  {
    hide Price;
    var s, t := Waits(role, cfg), HalfSent(role, cfg);
    assert [NewStun(s, Beat(0), 500, 0)] + [] == [Stun(role, 500, 500, 0)];
    assert Started(s, 0, Beat(0), Beat(0).send(0)).pairs == t.pairs;
    assert [] + [Ordinary(0)] == [Ordinary(0)];
  }

  lemma ColdSends(role: bool, cfg: Config)
    requires cfg.maxRetransmissions == 3
    ensures SendPhases(Colds(role, cfg), Beat(0)) == (HalfSent(role, cfg), true)
  {
    hide Price, SendPhases, Initiate, UnfreezeNext, NextWaiting, HalfSent;
    BothThaw(role, cfg);
    ThawingSends(Colds(role, cfg), Beat(0), 0);
    FirstStarted(role, cfg);
  }

  lemma SecondStarted(role: bool, cfg: Config)
    requires cfg.maxRetransmissions == 3
    ensures Initiate(HalfSent(role, cfg), 1, Beat(20), Ordinary(1)) == (BothSent(role, cfg), true)
  {
    hide Price;
    var s, t := HalfSent(role, cfg), BothSent(role, cfg);
    assert [NewStun(s, Beat(20), 500, 0)] + [] == [Stun(role, 520, 520, 0)];
    assert Started(s, 1, Beat(20), Beat(20).send(1)).pairs == t.pairs;
    assert [Ordinary(0)] + [Ordinary(1)] == [Ordinary(0), Ordinary(1)];
  }

  lemma HalfSends(role: bool, cfg: Config)
    requires cfg.maxRetransmissions == 3
    ensures SendPhases(HalfSent(role, cfg), Beat(20)) == (BothSent(role, cfg), true)
  {
    hide Price, SendPhases, Initiate, BothSent;
    var s := HalfSent(role, cfg);
    assert [0, 1][1..] == [1];
    assert NextWaiting(s, 0) == Some(1);
    OrdinarySends(s, Beat(20), 1);
    SecondStarted(role, cfg);
  }

  function Checks(): seq<Step> {
    Arrivals() + [FormPair(0, 0, 2, Frozen)] + [FormPair(0, 1, 2, Frozen)] + [TimerFired(Beat(0))] + [TimerFired(Beat(20))]
  }

  /** Both checks are in flight. */
  lemma ChecksSent(role: bool, regular: bool)
    ensures Run(Initial(role, Settings(regular)), Checks()) == BothSent(role, Settings(regular))
  {
    hide Run, AddPairMatched, SendPhases, WantsNomination, Arrivals, Price;
    var s0, cfg := Initial(role, Settings(regular)), Settings(regular);
    var a := Arrivals();
    Arrived(role, cfg);
    FirstFormed(role, cfg);
    PairThen(s0, a, Before(Idle(Gathering), CANDS, 3, role, cfg), 0, 0, 2);
    SecondFormed(role, cfg);
    PairThen(s0, a + [FormPair(0, 0, 2, Frozen)], World(map[0 := Formed(0, 2, role, Frozen)], [0], Idle(Connecting), [], role, 1, [], cfg),
             0, 1, 2);
    ColdSends(role, cfg);
    NoneDone(HalfSent(role, cfg));
    SendThen(s0, a + [FormPair(0, 0, 2, Frozen)] + [FormPair(0, 1, 2, Frozen)], Colds(role, cfg), Beat(0), HalfSent(role, cfg));
    HalfSends(role, cfg);
    NoneDone(BothSent(role, cfg));
    SendThen(s0, a + [FormPair(0, 0, 2, Frozen)] + [FormPair(0, 1, 2, Frozen)] + [TimerFired(Beat(0))], HalfSent(role, cfg), Beat(20),
             BothSent(role, cfg));
  }

  // ----- replies and a lost socket

  const AGGRESSIVE := Settings(false)

  function Replied(id: PairId, l: CandId): Step {
    ReplyReceived(id, 0, Success(true, Some(2), Known(l)))
  }

  // The pair as a nominating reply leaves it.
  function Won(l: CandId, role: bool): Pair
    requires l in CANDS
  {
    Confirmable(Formed(l, 2, role, Waiting)).(nominated := true)
  }

  const BOTH: seq<Sent> := [Ordinary(0), Ordinary(1)]

  function Flight(l: CandId, until: int): Pair
    requires l in CANDS
  {
    Sending(Formed(l, 2, true, Waiting), true, until)
  }

  // The first pair wins: the second one is silenced, and the component is READY.
  function FirstWins(): State {
    World(map[0 := Won(0, true), 1 := Flight(1, 520).(retransmit := false)], [0, 1],
          Comp(Ready, Some(0), Some(2), Price(0, 2, true)), [], true, 2, BOTH, AGGRESSIVE)
  }

  lemma FirstNominated()
    ensures var s := SetPair(BothSent(true, AGGRESSIVE), 0, Confirmable(Flight(0, 500)));
            NominateOk(s, 0, 0) ==
            World(map[0 := Won(0, true), 1 := Flight(1, 520)], [0, 1], Comp(Connected, Some(0), Some(2), Price(0, 2, true)),
                  [], true, 2, BOTH, AGGRESSIVE)
  {
    Prices(true);
    hide Price;
    var s := SetPair(BothSent(true, AGGRESSIVE), 0, Confirmable(Flight(0, 500)));
    assert s.pairs == map[0 := Confirmable(Flight(0, 500)), 1 := Flight(1, 520)];
    assert s.pairs[0 := Won(0, true)] == map[0 := Won(0, true), 1 := Flight(1, 520)];
    assert [Idle(Connecting)][0 := Comp(Connecting, Some(0), Some(2), Price(0, 2, true))][0 := Comp(Connected, Some(0), Some(2), Price(0, 2, true))]
           == [Comp(Connected, Some(0), Some(2), Price(0, 2, true))];
  }

  lemma FirstConcludes()
    ensures var s := World(map[0 := Won(0, true), 1 := Flight(1, 520)], [0, 1], Comp(Connected, Some(0), Some(2), Price(0, 2, true)),
                           [], true, 2, BOTH, AGGRESSIVE);
            UpdateForReady(s, 0) == FirstWins()
  {
    Prices(true);
    hide Price;
    var s := World(map[0 := Won(0, true), 1 := Flight(1, 520)], [0, 1], Comp(Connected, Some(0), Some(2), Price(0, 2, true)),
                   [], true, 2, BOTH, AGGRESSIVE);
    assert HasValidNominated(s, 0) by { assert s.pairs[0].valid && s.pairs[0].nominated; }
    PruneFlags(s, 0);
    hide PrunePending;
    assert PrunePending(s, 0).pairs == FirstWins().pairs;
    assert [Comp(Connected, Some(0), Some(2), Price(0, 2, true))][0 := Comp(Ready, Some(0), Some(2), Price(0, 2, true))]
           == [Comp(Ready, Some(0), Some(2), Price(0, 2, true))];
  }

  lemma FirstReply()
    ensures var s := BothSent(true, AGGRESSIVE);
            Answerable(s, 0, 0) && FinishReply(SetPair(s, 0, Confirmable(s.pairs[0])), 0, 0) == FirstWins()
  {
    hide UpdateForReady, NominateOk, Price;
    FirstNominated();
    FirstConcludes();
  }

  // The states around the loss of the first pair's socket; `b` is the second pair.
  function Around(b: Pair, comp: Component): State {
    World(map[0 := Won(0, true), 1 := b], [0, 1], comp, [], true, 2, BOTH, AGGRESSIVE)
  }

  function Alone(b: Pair, comp: Component): State {
    World(map[1 := b], [1], comp, [], true, 2, BOTH, AGGRESSIVE)
  }

  predicate OnSecondSocket(b: Pair) {
    b.comp == 0 && b.local == 1 && b.remote == 2 && b.sock == Some(8)
  }

  function Resumed(b: Pair): Pair {
    if b.stun != [] then b.(retransmit := true) else b
  }

  lemma FirstScanned(b: Pair, comp: Component)
    requires comp.selLocal == Some(0) && comp.selRemote == Some(2)
    ensures ScanOne(SocketScan(Around(b, comp), true, false, 0, 0), 0, 7, 0) == SocketScan(Alone(b, comp), true, true, 0, 0)
  {
    hide Price;
    var s := Around(b, comp);
    var f := FailPair(s, 0);
    assert f.pairs == map[0 := Won(0, true).(state := FailedCheck), 1 := b];
    assert f.pairs - {0} == map[1 := b];
    assert [0, 1][1..] == [1] && [1][1..] == [];
    assert FilterOut([], {0}) == [];
    assert FilterOut([1], {0}) == [1];
    assert FilterOut([0, 1], {0}) == [1];
    assert RemovePairs(f, {0}).lists == [[1]];
  }

  lemma Scanned(b: Pair, comp: Component)
    requires comp.selLocal == Some(0) && comp.selRemote == Some(2) && OnSecondSocket(b)
    ensures ScanAlong(SocketScan(Around(b, comp), true, false, 0, 0), 0, 7, [0, 1]) ==
            SocketScan(Alone(Resumed(b), comp), true, true, 1, if b.nominated then 1 else 0)
  {
    FirstScanned(b, comp);
    assert [0, 1][1..] == [1] && [1][1..] == [];
    var x := SocketScan(Alone(b, comp), true, true, 0, 0);
    assert ScanOne(x, 0, 7, 1) == SocketScan(Alone(Resumed(b), comp), true, true, 1, if b.nominated then 1 else 0) by {
      assert map[1 := b][1 := Resumed(b)] == map[1 := Resumed(b)];
    }
    hide ScanOne, Around, Alone;
    ScanEmpty(SocketScan(Alone(Resumed(b), comp), true, true, 1, if b.nominated then 1 else 0));
  }

  lemma ScanEmpty(x: SocketScan)
    requires 0 < |x.s.comps|
    ensures ScanAlong(x, 0, 7, []) == x
  {
  }

  // The remote candidate was not learned on the socket; of the local ones, the first goes.
  function Stripped(state: ComponentState): Component {
    Component(0, state, None, None, 0, [2], [1])
  }

  lemma StripsLocals(b: Pair, state: ComponentState, priority: nat)
    ensures var s := Alone(b, Comp(state, Some(0), Some(2), priority));
            DropLocals(s, 0, [0, 1], 7, {}) == Alone(b, Stripped(state))
  {
    var s := Alone(b, Comp(state, Some(0), Some(2), priority));
    var t := Alone(b, Stripped(state));
    assert [0, 1][1..] == [1] && [1][1..] == [];
    assert FilterOut([], {0}) == [];
    assert FilterOut([1], {0}) == [1];
    assert FilterOut([0, 1], {0}) == [1];
    assert s.comps[0 := Stripped(state)] == t.comps;
    assert DropLocal(s, 0, 0, 7, {}) == t;
    assert DropLocal(t, 0, 1, 7, {}) == t;
    hide DropLocal;
    assert DropLocals(t, 0, [1], 7, {}) == DropLocals(t, 0, [], 7, {});
  }

  lemma Strips(b: Pair, state: ComponentState, priority: nat)
    ensures var s := Alone(b, Comp(state, Some(0), Some(2), priority));
            DropRemotes(DropLocals(s, 0, [0, 1], 7, {}), 0, [2], 7) == Alone(b, Stripped(state))
  {
    hide DropLocals;
    StripsLocals(b, state, priority);
    var t := Alone(b, Stripped(state));
    assert [2][1..] == [];
    assert DropRemote(t, 0, 2, 7) == t;
    hide DropRemote;
    assert DropRemotes(t, 0, [2], 7) == DropRemotes(t, 0, [], 7);
  }

  // ----- a reply to a failed component

  // What is left of the pairs when the selected pair's socket goes.
  lemma Pruned(b: Pair, p: nat)
    requires OnSecondSocket(b)
    ensures var t := Alone(Resumed(b), Comp(Failed, Some(0), Some(2), p));
            PruneSocket(Around(b, Comp(Ready, Some(0), Some(2), p)), 0, 7) == UpdateForReady(t, 0)
  {
    hide Price, UpdateForReady, ScanAlong;
    var s, comp := Around(b, Comp(Ready, Some(0), Some(2), p)), Comp(Failed, Some(0), Some(2), p);
    assert [Comp(Ready, Some(0), Some(2), p)][0 := comp] == [comp];
    assert StepDown(s, 0) == Around(b, comp);
    Scanned(b, comp);
  }

  lemma Removed(b: Pair, state: ComponentState, p: nat)
    requires OnSecondSocket(b)
    requires UpdateForReady(Alone(Resumed(b), Comp(Failed, Some(0), Some(2), p)), 0) == Alone(Resumed(b), Comp(state, Some(0), Some(2), p))
    ensures RemoveSocket(Around(b, Comp(Ready, Some(0), Some(2), p)), 0, 7, {}) == Alone(Resumed(b), Stripped(state))
  {
    hide Price, UpdateForReady, PruneSocket, DropLocals, DropRemotes;
    Pruned(b, p);
    Strips(Resumed(b), state, p);
    StripsRemotes(b, state, p);
  }

  // Dropping the local candidate leaves the remote ones.
  lemma StripsRemotes(b: Pair, state: ComponentState, p: nat)
    requires OnSecondSocket(b)
    ensures DropLocals(Alone(Resumed(b), Comp(state, Some(0), Some(2), p)), 0, [0, 1], 7, {}).comps[0].remotes == [2]
  {
    StripsLocals(Resumed(b), state, p);
  }

  lemma FirstSocketLost()
    ensures RemoveSocket(FirstWins(), 0, 7, {}) == Alone(Flight(1, 520), Stripped(Failed))
  {
    hide Price, RemoveSocket;
    var b := Flight(1, 520).(retransmit := false);
    var p := Price(0, 2, true);
    assert Resumed(b) == Flight(1, 520);
    assert !HasValidNominated(Alone(Flight(1, 520), Comp(Failed, Some(0), Some(2), p)), 0);
    Removed(b, Failed, p);
  }

  function FailedRun(): seq<Step> {
    Checks() + [Replied(0, 0)] + [SocketLost(0, 7, {})]
  }

  lemma FailedState()
    ensures Run(Initial(true, AGGRESSIVE), FailedRun()) == Alone(Flight(1, 520), Stripped(Failed))
  {
    hide Run, Checks, FinishReply, Answerable, RemoveSocket, Price;
    var s0 := Initial(true, AGGRESSIVE);
    ChecksSent(true, false);
    FirstReply();
    ReplyThen(s0, Checks(), BothSent(true, AGGRESSIVE), 0);
    FirstSocketLost();
    LossThen(s0, Checks() + [Replied(0, 0)], FirstWins(), 0, 7, {});
  }

  /** The transition table is violated in a run from the initial state: the selected pair's socket is lost,
      the component fails, and then the check that was still in flight is answered. */
  lemma ReplyToFailedComponent()
    ensures var s := Run(Initial(true, AGGRESSIVE), FailedRun());
            Trips(s, Replied(1, 1)) && Apply(s, Replied(1, 1)).fault.IllegalTransition?
  {
    hide Run, Apply, FailedRun, Price;
    FailedState();
    var s := Alone(Flight(1, 520), Stripped(Failed));
    RunInvariant(true, AGGRESSIVE, FailedRun());
    assert s.pairs[1].stun == [Stun(true, 520, 520, 0)];
    assert Trips(s, Replied(1, 1));
    RunKin(true, AGGRESSIVE, FailedRun());
    hide Inv, Kin, Trips;
    StepIsKept(s, Replied(1, 1));
  }

  // ----- a selection lost under a nominated pair

  // The second pair was answered first: it is selected, and the first one may still beat it.
  function SecondLeads(): State {
    World(map[0 := Flight(0, 500), 1 := Won(1, true)], [0, 1], Comp(Connected, Some(1), Some(2), Price(1, 2, true)), [], true, 2,
          BOTH, AGGRESSIVE)
  }

  lemma SecondNominated()
    ensures var s := SetPair(BothSent(true, AGGRESSIVE), 1, Confirmable(Flight(1, 520)));
            NominateOk(s, 0, 1) == SecondLeads()
  {
    Prices(true);
    hide Price;
    var s := SetPair(BothSent(true, AGGRESSIVE), 1, Confirmable(Flight(1, 520)));
    var p := Price(1, 2, true);
    assert s.pairs == map[0 := Flight(0, 500), 1 := Confirmable(Flight(1, 520))];
    assert s.pairs[1 := Won(1, true)] == map[0 := Flight(0, 500), 1 := Won(1, true)];
    assert [Idle(Connecting)][0 := Comp(Connecting, Some(1), Some(2), p)][0 := Comp(Connected, Some(1), Some(2), p)]
           == [Comp(Connected, Some(1), Some(2), p)];
  }

  lemma SecondWaits()
    ensures UpdateForReady(SecondLeads(), 0) == SecondLeads()
  {
    Prices(true);
    hide Price;
    var s := SecondLeads();
    assert HasValidNominated(s, 0) by { assert s.pairs[1].valid && s.pairs[1].nominated; }
    assert PruneCounts(s, 0, 0);
    PruneFlags(s, 0);
    hide PrunePending;
    assert PrunePending(s, 0).pairs == s.pairs;
  }

  lemma SecondReply()
    ensures var s := BothSent(true, AGGRESSIVE);
            Answerable(s, 1, 0) && FinishReply(SetPair(s, 1, Confirmable(s.pairs[1])), 1, 1) == SecondLeads()
  {
    hide UpdateForReady, NominateOk, Price;
    SecondNominated();
    SecondWaits();
  }

  // Then the first pair is answered and takes the selection.
  function BothWon(): State {
    Around(Won(1, true), Comp(Ready, Some(0), Some(2), Price(0, 2, true)))
  }

  lemma FirstOvertakes()
    ensures var s := SetPair(SecondLeads(), 0, Confirmable(Flight(0, 500)));
            NominateOk(s, 0, 0) == Around(Won(1, true), Comp(Connected, Some(0), Some(2), Price(0, 2, true)))
  {
    Prices(true);
    hide Price;
    var s := SetPair(SecondLeads(), 0, Confirmable(Flight(0, 500)));
    assert s.pairs == map[0 := Confirmable(Flight(0, 500)), 1 := Won(1, true)];
    assert s.pairs[0 := Won(0, true)] == map[0 := Won(0, true), 1 := Won(1, true)];
    assert [Comp(Connected, Some(1), Some(2), Price(1, 2, true))][0 := Comp(Connected, Some(0), Some(2), Price(0, 2, true))]
           == [Comp(Connected, Some(0), Some(2), Price(0, 2, true))];
  }

  lemma BothConclude()
    ensures UpdateForReady(Around(Won(1, true), Comp(Connected, Some(0), Some(2), Price(0, 2, true))), 0) == BothWon()
  {
    Prices(true);
    hide Price;
    var p := Price(0, 2, true);
    var s := Around(Won(1, true), Comp(Connected, Some(0), Some(2), p));
    assert HasValidNominated(s, 0) by { assert s.pairs[1].valid && s.pairs[1].nominated; }
    PruneFlags(s, 0);
    hide PrunePending;
    assert PrunePending(s, 0).pairs == s.pairs;
    assert [Comp(Connected, Some(0), Some(2), p)][0 := Comp(Ready, Some(0), Some(2), p)] == [Comp(Ready, Some(0), Some(2), p)];
  }

  lemma FirstReplyLate()
    ensures var s := SecondLeads();
            Answerable(s, 0, 0) && FinishReply(SetPair(s, 0, Confirmable(s.pairs[0])), 0, 0) == BothWon()
  {
    hide UpdateForReady, NominateOk, Price;
    FirstOvertakes();
    BothConclude();
  }

  // Without the socket of the selected pair: READY, one nominated pair, no selection.
  function Exposing(): State {
    Alone(Won(1, true), Stripped(Ready))
  }

  lemma AloneConcludes()
    ensures var p := Price(0, 2, true);
            UpdateForReady(Alone(Won(1, true), Comp(Failed, Some(0), Some(2), p)), 0) ==
            Alone(Won(1, true), Comp(Ready, Some(0), Some(2), p))
  {
    Prices(true);
    hide Price;
    var p := Price(0, 2, true);
    var s := Alone(Won(1, true), Comp(Failed, Some(0), Some(2), p));
    assert HasValidNominated(s, 0) by { assert s.pairs[1].valid && s.pairs[1].nominated; }
    PruneFlags(s, 0);
    hide PrunePending;
    assert PrunePending(s, 0).pairs == s.pairs;
    assert [Comp(Failed, Some(0), Some(2), p)][0 := Comp(Connecting, Some(0), Some(2), p)][0 := Comp(Connected, Some(0), Some(2), p)]
             [0 := Comp(Ready, Some(0), Some(2), p)] == [Comp(Ready, Some(0), Some(2), p)];
  }

  lemma SelectionLost()
    ensures RemoveSocket(BothWon(), 0, 7, {}) == Exposing()
  {
    hide Price, UpdateForReady, RemoveSocket;
    AloneConcludes();
    Removed(Won(1, true), Ready, Price(0, 2, true));
  }

  function ExposedRun(): seq<Step> {
    Checks() + [Replied(1, 1)] + [Replied(0, 0)] + [SocketLost(0, 7, {})]
  }

  lemma ExposedState()
    ensures Run(Initial(true, AGGRESSIVE), ExposedRun()) == Exposing()
  {
    hide Run, Checks, FinishReply, Answerable, RemoveSocket, Price;
    var s0 := Initial(true, AGGRESSIVE);
    ChecksSent(true, false);
    SecondReply();
    ReplyThen(s0, Checks(), BothSent(true, AGGRESSIVE), 1);
    FirstReplyLate();
    ReplyThen(s0, Checks() + [Replied(1, 1)], SecondLeads(), 0);
    SelectionLost();
    LossThen(s0, Checks() + [Replied(1, 1)] + [Replied(0, 0)], BothWon(), 0, 7, {});
  }

  /** A run from the initial state after which a READY component has a nominated pair but no selection; the
      next update of its remote candidate finds no selection to update. */
  lemma SelectionMissingRun()
    ensures var s := Run(Initial(true, AGGRESSIVE), ExposedRun());
            && !NominatedIsSelected(s.pairs, s.comps) && s.comps[0].state.Ready?
            && Apply(s, RemoteUpdated(0, 2, 1679819519, "3", ServerReflexive)).fault.SelectionMissing?
  {
    hide Run, Apply, ExposedRun, Price;
    ExposedState();
    var s := Exposing();
    RunInvariant(true, AGGRESSIVE, ExposedRun());
    assert s.pairs[1].nominated && s.pairs[1].comp == 0 && s.comps[0].selPriority == 0;
    assert Nominated(s, 0);
    MissingSelection(s);
  }

  lemma MissingSelection(s: State)
    requires Inv(s) && s.fault.NoFault? && HasComp(s, 0) && 2 in s.cands && !s.cands[2].isLocal
    requires Nominated(s, 0) && s.comps[0].selLocal.None?
    ensures Apply(s, RemoteUpdated(0, 2, 1679819519, "3", ServerReflexive)).fault.SelectionMissing?
  {
    hide Inv, UpdateRemote, Nominated;
    UpdateRemoteFault(s, 0, 2, 1679819519, "3", ServerReflexive);
  }

  // ----- the selected priority

  // A tick whose sends all fail.
  function Mute(now: int): TickInput {
    TickInput(now, _ => NotSent, 500, false)
  }

  // Another remote candidate is signalled.
  const MORE: map<CandId, Candidate> := map[0 := L0, 1 := L1, 2 := R0, 3 := R1]

  function Wider(state: ComponentState): Component {
    Component(0, state, None, None, 0, [2, 3], [1])
  }

  function Widened(pairs: map<PairId, Pair>, list: seq<PairId>, state: ComponentState, next: PairId): State {
    State(pairs, [list], [Wider(state)], [], MORE, true, next, 4, true, 0, BOTH, NoFault, AGGRESSIVE)
  }

  function Later(initial: CheckState): Pair {
    Pair(0, 1, 3, Some(8), "2" + ":" + "4", initial, false, false, false, false, false, None, None, LATER, [])
  }

  const LATER := AgentPairPriority(true, L1.priority, R1.priority)

  lemma AnotherRemote()
    ensures AddCandidate(Exposing(), R1) == Widened(map[1 := Won(1, true)], [1], Ready, 2)
  {
    hide Price;
    assert CANDS[3 := R1] == MORE;
    assert [2] + [3] == [2, 3];
    assert [Stripped(Ready)][0 := Wider(Ready)] == [Wider(Ready)];
  }

  lemma LaterFacts()
    ensures LATER < Price(1, 2, true) && Won(1, true).foundation != "2" + ":" + "4"
  {
    assert Won(1, true).foundation[2] == '3' && ("2" + ":" + "4")[2] == '4';
  }

  function Rejoined(initial: CheckState): State {
    Widened(map[1 := Won(1, true), 2 := Later(initial)], [1, 2], Connected, 3)
  }

  lemma PairAfterLoss()
    ensures CanPair(Widened(map[1 := Won(1, true)], [1], Ready, 2), 0, 1, 3)
    ensures AddPairMatched(Widened(map[1 := Won(1, true)], [1], Ready, 2), 0, 1, 3, Frozen).0 == Rejoined(Frozen)
  {
    LaterFacts();
    var s, b, d := Widened(map[1 := Won(1, true)], [1], Ready, 2), Won(1, true), Later(Frozen);
    assert NewPair(s, 0, 1, 3, Frozen) == d;
    assert !HasSucceeded(s.pairs, d.foundation);
    hide HasSucceeded;
    Forms(s, 0, 1, 3, Frozen);
    hide AddPairMatched, Price, AgentPairPriority;
    InsertSecond(1, 2, map[1 := b, 2 := d]);
    assert map[1 := b][2 := d] == map[1 := b, 2 := d];
    assert [[1]][0 := [1, 2]] == [[1, 2]];
    assert [Wider(Ready)][0 := Wider(Connected)] == [Wider(Connected)];
  }

  lemma LaterThaws()
    ensures UnfreezeNext(Rejoined(Frozen)) == Rejoined(Waiting) && NextWaiting(Rejoined(Frozen), 0).None?
    ensures NextWaiting(Rejoined(Waiting), 0) == Some(2)
  {
    hide Price, AgentPairPriority;
    var s := Rejoined(Frozen);
    assert !SomeWaiting(s);
    ThawsSecond(s, 1, 2);
    assert s.pairs[2 := Released(s.pairs[2])] == Rejoined(Waiting).pairs;
    assert [1, 2][1..] == [2];
  }

  lemma UnsentTick()
    ensures Tick(Rejoined(Frozen), Mute(40)).0.fault.ZeroSelectedPriority?
  {
    hide Price, AgentPairPriority, SendPhases, NominatePhase, FailComponents, UpdateForReady, UnfreezeNext, NextWaiting;
    var s, v, t := Rejoined(Frozen), Rejoined(Waiting), Mute(40);
    LaterThaws();
    ThawingSends(s, t, 2);
    var f := FailPair(SetPair(v, 2, v.pairs[2].(state := InProgress)), 2);
    assert f.pairs[1] == v.pairs[1] && f.comps == v.comps && f.fault.NoFault?;
    assert HasValidNominated(f, 0);
    hide FailPair;
    UpdateForReadyTakes(f, 0);
    var u := SendPhases(s, t).0;
    assert u == UpdateForReady(f, 0);
    UpdateForReadyThins(f, 0);
    assert !u.cfg.regular;
    NominationIdle(u);
    FailingFault(u);
  }

  lemma FailingFault(s: State)
    requires CompsOk(s.comps, |s.lists|)
    ensures FailComponents(s).fault == s.fault
  {
  }

  function ZeroRun(): seq<Step> {
    ExposedRun() + [NewCandidate(R1)] + [FormPair(0, 1, 3, Frozen)] + [TimerFired(Mute(40))]
  }

  /** The assertion that a nominated component has a selected priority fails in a run from the initial
      state: the selection goes with its socket, another nominated pair stays, a new remote candidate is paired,
      and its check cannot be sent. */
  lemma ZeroPriorityRun()
    ensures Run(Initial(true, AGGRESSIVE), ZeroRun()).fault.ZeroSelectedPriority?
  {
    hide Run, ExposedRun, AddCandidate, AddPairMatched, Tick, Price, AgentPairPriority;
    var s0 := Initial(true, AGGRESSIVE);
    ExposedState();
    AnotherRemote();
    CandidateThen(s0, ExposedRun(), Exposing(), R1);
    PairAfterLoss();
    PairThen(s0, ExposedRun() + [NewCandidate(R1)], Widened(map[1 := Won(1, true)], [1], Ready, 2), 0, 1, 3);
    UnsentTick();
    TickThen(s0, ExposedRun() + [NewCandidate(R1)] + [FormPair(0, 1, 3, Frozen)], Rejoined(Frozen), Mute(40));
  }
}
