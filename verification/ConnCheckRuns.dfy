/** Whole runs of the machine: every sequence of handler invocations, in any order and with any input.

The agent lock makes each handler one atomic step. A handler whose arguments name nothing that exists
returns early, so a step that is not enabled changes nothing. */
module ConnCheckRuns {
  import opened Basics
  import opened CandidatePriority
  import opened ConnCheckState
  import opened ConnCheckSpec
  import opened ConnCheckInvariants
  import opened ConnCheckHandlers
  import opened ConnCheckReplies
  import opened ConnCheckSessions
  import opened ConnCheckSockets
  import opened ConnCheckRenames
  import opened ConnCheckSelection
  import opened ConnCheckTick
  import opened ConnCheckTicks
  import opened ConnCheckKin
  import opened ConnCheckWalk
  import opened ConnCheckSettled
  import opened ConnCheckLosses
  import opened ConnCheckDisturb
  import opened ConnCheckOrphans

  datatype Step =
    | NewStream(components: nat)
    | NewCandidate(candidate: Candidate)
    | FormPair(c: nat, local: CandId, remote: CandId, initial: CheckState)
    | CheckReceived(c: nat, sock: Option<nat>, remote: CandId)
    | NominationReceived(c: nat, local: CandId, remote: CandId)
    | ConflictReceived(control: bool)
    | RoleRequested(control: bool)
    | ReplyReceived(id: PairId, k: nat, reply: Reply)
    | RemoteUpdated(c: nat, remote: CandId, priority: nat, foundation: string, kind: CandidateType)
    | SocketLost(c: nat, lost: nat, based: set<nat>)
    | PairSelected(c: nat, local: CandId, remote: CandId)
    | StreamRestarted(n: nat)
    | GatheringStarted(c: nat)
    | ConsentExpired(c: nat)
    | ForbiddenReceived(c: nat, from: set<CandId>)
    | TimerFired(input: TickInput)

  // A pair is formed FROZEN with a host or relayed candidate. A TCP-passive one is paired only on an inbound
  // check, and its pair is WAITING.
  predicate Formable(k: Candidate, initial: CheckState) {
    if k.transport.TcpPassive? then initial.Waiting?
    else initial.Frozen? && !k.kind.ServerReflexive? && !k.kind.PeerReflexive?
  }

  predicate Enabled(s: State, step: Step) {
    match step
    case NewStream(_) => true
    case NewCandidate(k) => CandidateOk(k)
    case FormPair(c, l, r, initial) => CanPair(s, c, l, r) && Formable(s.cands[l], initial)
    case CheckReceived(c, _, r) => HasComp(s, c) && r in s.cands
    case NominationReceived(c, l, _) => HasComp(s, c) && l in s.cands && s.cands[l].owner == c
    case ConflictReceived(_) => true
    case RoleRequested(_) => true
    case ReplyReceived(id, k, reply) => ReplyOk(s, id, k, reply)
    case RemoteUpdated(c, r, priority, _, _) =>
      HasComp(s, c) && r in s.cands && !s.cands[r].isLocal && 0 < priority < TWO_32
    case SocketLost(c, _, _) => HasComp(s, c)
    case PairSelected(c, l, r) => CanPair(s, c, l, r)
    case StreamRestarted(n) => n < |s.lists|
    case GatheringStarted(c) => c < |s.comps|
    case ConsentExpired(c) => c < |s.comps| && s.comps[c].selLocal.Some? && s.comps[c].selRemote.Some?
    case ForbiddenReceived(c, _) => HasComp(s, c) && s.comps[c].selRemote.Some?
    case TimerFired(_) => CompsOk(s.comps, |s.lists|)
  }

  function Apply(s: State, step: Step): State {
    if !Enabled(s, step) then s
    else
      match step
      case NewStream(n) => AddStream(s, n)
      case NewCandidate(k) => AddCandidate(s, k)
      case FormPair(c, l, r, initial) => AddPairMatched(s, c, l, r, initial).0
      case CheckReceived(c, sock, r) => ScheduleTriggered(s, c, sock, r)
      case NominationReceived(c, l, r) => MarkNominated(s, c, l, r)
      case ConflictReceived(control) => CheckForRoleConflict(s, control)
      case RoleRequested(control) => SetRole(s, control)
      case ReplyReceived(id, k, reply) => HandleReply(s, id, k, reply)
      case RemoteUpdated(c, r, priority, f, kind) => UpdateRemote(s, c, r, priority, f, kind)
      case SocketLost(c, lost, based) => RemoveSocket(s, c, lost, based)
      case PairSelected(c, l, r) => SetSelected(s, c, l, r)
      case StreamRestarted(n) => Restart(s, n)
      case GatheringStarted(c) => Gather(s, c)
      case ConsentExpired(c) => Signal(s, c, Failed)
      case ForbiddenReceived(c, from) => Forbidden(s, c, from)
      case TimerFired(t) => Tick(s, t).0
  }

  function Run(s: State, steps: seq<Step>): State
    decreases |steps|
  {
    if steps == [] then s else Run(Apply(s, steps[0]), steps[1..])
  }

  function Initial(controlling: bool, cfg: Config): State {
    State(map[], [], [], [], map[], controlling, 0, 0, false, 0, [], NoFault, cfg)
  }

  /** The one step that trips the transition table: a reply that leaves a nominated pair in a
      component that is GATHERING or FAILED. */
  predicate Trips(s: State, step: Step) {
    && step.ReplyReceived? && Enabled(s, step)
    && ReplyNominates(s, step.id, step.reply)
    && s.comps[s.pairs[step.id].comp].state in {Gathering, Failed}
  }

  /** Gathering is started on a failed component that still owns pairs. */
  predicate GathersOverPairs(s: State, step: Step) {
    step.GatheringStarted? && step.c < |s.comps| && s.comps[step.c].state.Failed? && Owns(s, step.c)
  }

  /** A remote candidate update leaves a FROZEN pair beside a SUCCEEDED pair of its foundation. */
  predicate RefreezesPairs(s: State, step: Step) {
    && step.RemoteUpdated? && Enabled(s, step)
    && Refreezes(s, step.c, step.remote, NewRemote(s.cands[step.remote], step.priority, step.foundation, step.kind))
  }

  /** A lost socket takes the selection from under a nominated pair that outlives it ... */
  predicate UnselectsPairs(s: State, step: Step) {
    step.SocketLost? && Enabled(s, step) && Unselects(s, step.c, step.lost, step.based)
  }

  /** ... or fails the assertion on the selected priority on the way. */
  predicate LosesSelection(s: State, step: Step) {
    UnselectsPairs(s, step) || (step.SocketLost? && Enabled(s, step) && ZeroLoss(s, step.c, step.lost, step.based))
  }

  /** The step fails an assertion about the selected pair, by the state before it. */
  predicate FailsSelection(s: State, step: Step) {
    Enabled(s, step) &&
    match step
    case ReplyReceived(id, _, reply) =>
      Exposed(s, s.pairs[id].comp) && !reply.RoleConflict? && !ReplyNominates(s, id, reply)
    case NominationReceived(c, l, r) => !s.controlling && Exposed(s, c) && FirstIsInvalid(s, l, r, StreamList(s, c))
    case RemoteUpdated(c, _, _, _, _) => Nominated(s, c) && s.comps[c].selLocal.None?
    case SocketLost(c, lost, based) => ZeroLoss(s, c, lost, based)
    case TimerFired(t) => GivesUp(s, t, ExposedPairs(s))
    case _ => false
  }

  /** The step unsettles a valid pair, by the state before it. */
  predicate DisturbsPairs(s: State, step: Step) {
    Enabled(s, step) &&
    match step
    case TimerFired(t) => TickDisturbs(s, t)
    case ReplyReceived(id, k, reply) => ReplyDisturbs(s, id, k, reply)
    case NominationReceived(c, l, r) => NominationDisturbs(s, c, l, r)
    case RemoteUpdated(c, r, priority, f, kind) => UpdateDisturbs(s, c, r, NewRemote(s.cands[r], priority, f, kind))
    case SocketLost(c, lost, based) => LossDisturbs(s, c, lost, based)
    case ForbiddenReceived(c, from) => ForbiddenDisturbs(s, from, StreamList(s, c))
    case _ => false
  }

  // An assertion about the selected pair failed.
  predicate SelectionFault(f: Fault) {
    f.ZeroSelectedPriority? || f.SelectionMissing?
  }

  /** What one step keeps, whatever it is. */
  predicate StepKeeps(s: State, step: Step, t: State) {
    && Inv(t)
    && (Thawed(s.pairs) && !RefreezesPairs(s, step) ==> Thawed(t.pairs))
    && (GatheringIsEmpty(s.pairs, s.comps) && !GathersOverPairs(s, step) ==> GatheringIsEmpty(t.pairs, t.comps))
    && (NominatedIsSelected(s.pairs, s.comps) ==>
          (NominatedIsSelected(t.pairs, t.comps) <==> !UnselectsPairs(s, step)))
    && (s.fault.NoFault? ==>
          && (t.fault.IllegalTransition? <==> Trips(s, step))
          && (t.fault.ValidPairNotSucceeded? ==> step.TimerFired?)
          && (t.fault.SelectionMissing? ==> step.RemoteUpdated?)
          && (SelectionFault(t.fault) ==> !NominatedIsSelected(s.pairs, s.comps) || LosesSelection(s, step)))
    && (!s.fault.NoFault? ==> t.fault == s.fault)
  }

  lemma SignalFailedKeeps(s: State, c: nat)
    requires Inv(s) && c < |s.comps|
    ensures Keeps(s, Signal(s, c, Failed))
  {
    hide Inv, Thawed, GatheringIsEmpty, NominatedIsSelected;
    SignalKeeps(s, c, Failed);
  }

  lemma ReplyStep(s: State, id: PairId, k: nat, reply: Reply)
    requires Inv(s) && ReplyOk(s, id, k, reply)
    ensures StepKeeps(s, ReplyReceived(id, k, reply), HandleReply(s, id, k, reply))
  {
    hide Inv, Thawed, GatheringIsEmpty, NominatedIsSelected, HandleReply, ReplyNominates;
    ReplyKeeps(s, id, k, reply);
  }

  // A handler that keeps everything is a step that keeps everything.
  lemma PlainStep(s: State, step: Step, t: State)
    requires Keeps(s, t) && (Enabled(s, step) ==> !step.ReplyReceived? && !step.SocketLost?)
    ensures StepKeeps(s, step, t)
  {
    hide Inv, Thawed, GatheringIsEmpty, NominatedIsSelected, GathersOverPairs, RefreezesPairs;
  }

  /** Every step keeps the invariants, and fails an assertion about the selection exactly when the state
      before it condemns it. */
  lemma ApplyKeeps(s: State, step: Step)
    requires Inv(s) && Kin(s)
    ensures StepKeeps(s, step, Apply(s, step))
    ensures s.fault.NoFault? ==> (SelectionFault(Apply(s, step).fault) <==> FailsSelection(s, step))
  {
    hide Inv, Kin, Apply, StepKeeps, FailsSelection, SelectionFault;
    StepIsKept(s, step);
    if s.fault.NoFault? {
      SelectionFails(s, step);
    }
  }

  lemma StepIsKept(s: State, step: Step)
    requires Inv(s) && Kin(s)
    ensures StepKeeps(s, step, Apply(s, step))
  {
    hide Inv, Kin, Keeps, StepKeeps, HandleReply, Tick, UpdateRemote, RemoveSocket, ScheduleTriggered, MarkNominated,
      AddPairMatched, SetSelected, Restart, CheckForRoleConflict, Forbidden, Gather, Signal;
    TimerKeeps(s, s);
    if !Enabled(s, step) {
      PlainStep(s, step, s);
    } else {
      match step {
        case ReplyReceived(id, k, reply) => ReplyStep(s, id, k, reply);
        case RemoteUpdated(c, r, priority, f, kind) => UpdateStep(s, c, r, priority, f, kind);
        case SocketLost(c, lost, based) => SocketStep(s, c, lost, based);
        case GatheringStarted(c) => GatherStep(s, c);
        case TimerFired(t) => TickStep(s, t);
        case _ =>
          PlainKeeps(s, step);
          PlainStep(s, step, Apply(s, step));
      }
    }
  }

  lemma PlainKeeps(s: State, step: Step)
    requires Inv(s) && Enabled(s, step)
    requires !step.ReplyReceived? && !step.RemoteUpdated? && !step.SocketLost? && !step.GatheringStarted? && !step.TimerFired?
    ensures Keeps(s, Apply(s, step))
  {
    hide Inv, Keeps, ScheduleTriggered, MarkNominated, AddPairMatched, SetSelected, Restart, CheckForRoleConflict, Forbidden,
      Signal;
    match step {
      case NewStream(n) => AddStreamKeeps(s, n);
      case NewCandidate(k) => AddCandidateKeeps(s, k);
      case FormPair(c, l, r, initial) => AddPairKeeps(s, c, l, r, initial);
      case CheckReceived(c, sock, r) => ScheduleKeeps(s, c, sock, r);
      case NominationReceived(c, l, r) => MarkNominatedKeeps(s, c, l, r);
      case ConflictReceived(control) => RoleConflictKeeps(s, control);
      case RoleRequested(control) => SetRoleKeeps(s, control);
      case PairSelected(c, l, r) => SetSelectedKeeps(s, c, l, r);
      case StreamRestarted(n) => RestartKeeps(s, n);
      case ConsentExpired(c) => SignalFailedKeeps(s, c);
      case ForbiddenReceived(c, from) => ForbiddenKeeps(s, c, from);
    }
  }

  lemma TickStep(s: State, t: TickInput)
    requires Inv(s)
    ensures CompsOk(s.comps, |s.lists|) && StepKeeps(s, TimerFired(t), Tick(s, t).0)
  {
    hide Inv, Thawed, GatheringIsEmpty, NominatedIsSelected, Tick;
    TickKeeps(s, t);
  }

  lemma UpdateStep(s: State, c: nat, r: CandId, priority: nat, f: string, kind: CandidateType)
    requires Inv(s) && Enabled(s, RemoteUpdated(c, r, priority, f, kind))
    ensures StepKeeps(s, RemoteUpdated(c, r, priority, f, kind), UpdateRemote(s, c, r, priority, f, kind))
  {
    hide Inv, Thawed, GatheringIsEmpty, NominatedIsSelected, Refreezes, UpdateRemote;
    UpdateRemoteKeeps(s, c, r, priority, f, kind);
    UpdateRemoteThawed(s, c, r, priority, f, kind);
  }

  lemma SocketStep(s: State, c: nat, lost: nat, based: set<nat>)
    requires Inv(s) && Kin(s) && HasComp(s, c)
    ensures StepKeeps(s, SocketLost(c, lost, based), RemoveSocket(s, c, lost, based))
  {
    hide Inv, Kin, Thawed, GatheringIsEmpty, NominatedIsSelected, Unselects, ZeroLoss, RemoveSocket;
    LossKeeps(s, c, lost, based);
  }

  lemma GatherStep(s: State, c: nat)
    requires Inv(s) && c < |s.comps|
    ensures StepKeeps(s, GatheringStarted(c), Gather(s, c))
  {
    hide Inv, Thawed, GatheringIsEmpty, NominatedIsSelected;
    GatherKeeps(s, c);
  }

  // ----- kinship

  lemma QuietStep(s: State, step: Step)
    requires Inv(s) && Kin(s) && Enabled(s, step) && !step.ReplyReceived?
    ensures Follows(s, Apply(s, step))
  {
    hide Inv, Kin, Below, Follows, Unmoved, Tick, ScheduleTriggered, MarkAlong, AddPairMatched, RemoveSocket, UpdateRemote,
      CheckForRoleConflict, FailAlong, PruneStream, ConcludeReady;
    BelowFact(s);
    var t := Apply(s, step);
    match step {
      case ForbiddenReceived(c, from) =>
        FailAlongFollows(s, from, StreamList(s, c));
        ConnCheckKin.OnlyPairs(s, FailAlong(s, from, StreamList(s, c)), t);
      case TimerFired(input) => TickFollows(s, input);
      case _ =>
        UnmovedStep(s, step);
        UnmovedFollows(s, t);
    }
  }

  // The steps that leave the states of pairs alone.
  lemma UnmovedStep(s: State, step: Step)
    requires Inv(s) && Kin(s) && Enabled(s, step) && !step.ReplyReceived? && !step.ForbiddenReceived? && !step.TimerFired?
    ensures Unmoved(s, Apply(s, step))
  {
    hide Inv, Kin, Below, Unmoved, Renamed, Reselected, UpdateForReady, RemoveSocket, ScheduleTriggered, MarkAlong,
      AddPairMatched, CheckForRoleConflict, PruneStream, ConcludeReady, ZeroLoss, Stays;
    UnmovedSame(s);
    BelowFact(s);
    var t := Apply(s, step);
    match step {
      case FormPair(c, l, r, initial) => AddPairUnmoved(s, c, l, r, initial);
      case CheckReceived(c, sock, r) => ScheduleUnmoved(s, c, sock, r);
      case NominationReceived(c, l, r) => MarkAlongUnmoved(s, c, l, r, StreamList(s, c));
      case ConflictReceived(control) => ConflictUnmoved(s, control);
      case RemoteUpdated(c, r, priority, f, kind) =>
        var k := NewRemote(s.cands[r], priority, f, kind);
        var u := Reselected(Renamed(s, c, r, k), c);
        ReselectedUnmoved(s, c, r, k);
        UpdateForReadyUnmoved(u, c);
        UnmovedTrans(s, u, t);
      case SocketLost(c, lost, based) => RemoveSocketExact(s, c, lost, based);
      case PairSelected(c, l, r) =>
        PruneStreamUnmoved(s, s.comps[c].stream);
        UnmovedPairs(s, PruneStream(s, s.comps[c].stream), t);
      case StreamRestarted(n) =>
        PruneStreamUnmoved(s, n);
        UnmovedPairs(s, PruneStream(s, n), t);
      case _ => UnmovedPairs(s, s, t);
    }
  }

  /** Every step keeps kinship. */
  lemma ApplyKin(s: State, step: Step)
    requires Inv(s) && Kin(s)
    ensures Kin(Apply(s, step))
  {
    hide Inv, Kin, Below, Follows, HandleReply, Tick, UpdateRemote, RemoveSocket, ScheduleTriggered, MarkNominated,
      AddPairMatched, SetSelected, Restart, CheckForRoleConflict, Forbidden;
    if Enabled(s, step) {
      if step.ReplyReceived? {
        ReplyKin(s, step.id, step.k, step.reply);
      } else {
        QuietStep(s, step);
        BelowFact(s);
        FollowsKin(s, Apply(s, step));
      }
    }
  }

  // ----- settled pairs

  // Steps that touch no pair but its priority.
  predicate Harmless(step: Step) {
    || step.NewStream? || step.NewCandidate? || step.ConflictReceived? || step.RoleRequested?
    || step.GatheringStarted? || step.ConsentExpired?
  }

  /** New streams and candidates, role changes, gathering and expired consent unsettle no valid pair. */
  lemma HarmlessSettled(s: State, step: Step)
    requires Inv(s) && Kin(s) && AllSettled(s) && Harmless(step)
    ensures AllSettled(Apply(s, step))
  {
    hide Inv, Kin, Below, AllSettled, Unmoved, CheckForRoleConflict;
    if step.ConflictReceived? {
      BelowFact(s);
      ConflictUnmoved(s, step.control);
      ConflictKeys(s, step.control);
      SameKeysSettled(s, CheckForRoleConflict(s, step.control));
    } else {
      SettledPairs(s, Apply(s, step));
    }
  }

  lemma EmptiedSettled(s: State, step: Step)
    requires Inv(s) && Kin(s) && AllSettled(s) && Enabled(s, step) && (step.PairSelected? || step.StreamRestarted?)
    ensures AllSettled(Apply(s, step))
  {
    hide Inv, Kin, AllSettled, PruneStream, ConcludeReady;
    var n := if step.PairSelected? then s.comps[step.c].stream else step.n;
    StreamSettled(s, n);
    SettledPairs(PruneStream(s, n), Apply(s, step));
  }

  /** From settled pairs, a step leaves every valid pair settled exactly if it disturbs none. */
  lemma ApplySettled(s: State, step: Step)
    requires Inv(s) && Kin(s) && AllSettled(s)
    ensures AllSettled(Apply(s, step)) <==> !DisturbsPairs(s, step)
  {
    hide Inv, Kin, AllSettled, HandleReply, Tick, UpdateRemote, RemoveSocket, ScheduleTriggered, MarkNominated,
      AddPairMatched, SetSelected, Restart, CheckForRoleConflict, FailAlong, TickDisturbs, ReplyDisturbs, NominationDisturbs,
      UpdateDisturbs, LossDisturbs, ForbiddenDisturbs;
    if Enabled(s, step) {
      match step {
        case FormPair(c, l, r, initial) => FormSettled(s, c, l, r, initial);
        case CheckReceived(c, sock, r) => CheckSettled(s, c, sock, r);
        case NominationReceived(c, l, r) => NominationSettled(s, c, l, r);
        case ReplyReceived(id, k, reply) => ReplySettled(s, id, k, reply);
        case RemoteUpdated(c, r, priority, f, kind) => UpdateSettled(s, c, r, priority, f, kind);
        case SocketLost(c, lost, based) => LossSettled(s, c, lost, based);
        case PairSelected(_, _, _) => EmptiedSettled(s, step);
        case StreamRestarted(_) => EmptiedSettled(s, step);
        case ForbiddenReceived(c, from) =>
          ForbiddenSettled(s, from, StreamList(s, c));
          SettledPairs(FailAlong(s, from, StreamList(s, c)), Apply(s, step));
        case TimerFired(t) => TickSettled(s, t);
        case _ => HarmlessSettled(s, step);
      }
    }
  }

  /** A step that disturbs no valid pair fails none of the assertions of nomination. */
  lemma StepConfirmed(s: State, step: Step)
    requires Inv(s) && Kin(s) && AllSettled(s) && s.fault.NoFault? && !DisturbsPairs(s, step)
    ensures !Apply(s, step).fault.ValidPairNotSucceeded?
  {
    hide Inv, Kin, AllSettled, Trips, GathersOverPairs, RefreezesPairs, UnselectsPairs, LosesSelection, Thawed, TickDisturbs,
      GatheringIsEmpty, NominatedIsSelected, Tick, HandleReply, UpdateRemote, RemoveSocket, ScheduleTriggered,
      MarkNominated, AddPairMatched, SetSelected, Restart, CheckForRoleConflict, Forbidden, ReplyDisturbs, NominationDisturbs,
      UpdateDisturbs, LossDisturbs, ForbiddenDisturbs;
    StepIsKept(s, step);
    if step.TimerFired? && Enabled(s, step) {
      TickSettled(s, step.input);
    }
  }

  // ----- assertions about the selection

  // A handler that only reports component states fails no assertion about the selection.
  predicate Calm(before: Fault, after: Fault) {
    before.NoFault? ==> !SelectionFault(after)
  }

  lemma FormCalm(s: State, c: nat, l: CandId, r: CandId, initial: CheckState)
    requires CanPair(s, c, l, r)
    ensures Calm(s.fault, AddPairMatched(s, c, l, r, initial).0.fault)
  {
    hide InsertSorted, FilterOut, LimitDrops, UnfreezeMaybe;
  }

  lemma CheckCalm(s: State, c: nat, sock: Option<nat>, r: CandId)
    requires HasComp(s, c) && r in s.cands
    ensures Calm(s.fault, ScheduleTriggered(s, c, sock, r).fault)
  {
    hide MatchingPair, LocalOnSocket, AddPairMatched;
    var local := LocalOnSocket(s, c, sock);
    if local.Some? && CanPair(s, c, local.value, r) {
      FormCalm(s, c, local.value, r, Waiting);
    }
    var found := MatchingPair(s, c, sock, r);
    if found.Some? {
      assert found.value in s.pairs by { MatchingIsPair(s, c, sock, r); }
    }
  }

  lemma {:induction false} FailAlongFault(s: State, from: set<CandId>, ids: seq<PairId>)
    ensures FailAlong(s, from, ids).fault == s.fault
    decreases |ids|
  {
    hide FailPair, SameNominated;
    if ids != [] {
      if ids[0] in s.pairs && s.pairs[ids[0]].remote in from {
        FailSame(s, ids[0]);
        FailAlongFault(FailPair(s, ids[0]), from, ids[1..]);
      } else {
        FailAlongFault(s, from, ids[1..]);
      }
    }
  }

  lemma OtherStepsCalm(s: State, step: Step)
    requires Enabled(s, step)
    requires !step.ReplyReceived? && !step.NominationReceived? && !step.RemoteUpdated? && !step.SocketLost? && !step.TimerFired?
    ensures Calm(s.fault, Apply(s, step).fault)
  {
    hide AddPairMatched, ScheduleTriggered, StableSort, FailAlong, RemovePairs, ConcludeReady;
    match step {
      case FormPair(c, l, r, initial) => FormCalm(s, c, l, r, initial);
      case CheckReceived(c, sock, r) => CheckCalm(s, c, sock, r);
      case PairSelected(c, l, r) =>
        ConcludeFault(PruneStream(s, s.comps[c].stream), c);
        RemovedFault(s, Members(s.lists[s.comps[c].stream]));
      case StreamRestarted(n) => RemovedFault(s, Members(s.lists[n]));
      case ForbiddenReceived(c, from) => FailAlongFault(s, from, StreamList(s, c));
      case _ =>
    }
  }

  lemma RemovedFault(s: State, gone: set<PairId>)
    ensures RemovePairs(s, gone).fault == s.fault
  {
    hide FilterOut;
  }

  /** The assertions about the selected pair fail exactly in the steps that the state before them condemns. */
  lemma SelectionFails(s: State, step: Step)
    requires Inv(s) && Kin(s) && s.fault.NoFault?
    ensures SelectionFault(Apply(s, step).fault) <==> FailsSelection(s, step)
  {
    hide Inv, Kin, Thawed, GatheringIsEmpty, NominatedIsSelected, Exposed, ReplyNominates, FirstIsInvalid, Nominated, HandleReply,
      MarkNominated, UpdateRemote, Tick, RemoveSocket, ScheduleTriggered, AddPairMatched, SetSelected, Restart,
      CheckForRoleConflict, Forbidden, HasValidNominated, ZeroLoss, GivesUp, ExposedPairs, Unselects, KeepsRest;
    if Enabled(s, step) {
      match step {
        case ReplyReceived(id, k, reply) =>
          ReplyZero(s, id, k, reply);
          ReplyStep(s, id, k, reply);
        case NominationReceived(c, l, r) =>
          NominationZero(s, c, l, r);
          MarkNominatedKeeps(s, c, l, r);
        case RemoteUpdated(c, r, priority, f, kind) => UpdateRemoteFault(s, c, r, priority, f, kind);
        case SocketLost(c, lost, based) => LossKeeps(s, c, lost, based);
        case TimerFired(t) => TickZero(s, t);
        case _ => OtherStepsCalm(s, step);
      }
    }
  }

  lemma InitialInv(controlling: bool, cfg: Config)
    ensures var s := Initial(controlling, cfg);
            && Inv(s) && Kin(s) && Thawed(s.pairs) && GatheringIsEmpty(s.pairs, s.comps)
            && NominatedIsSelected(s.pairs, s.comps) && AllSettled(s)
  {
  }

  // No step of the run, in the state it meets, does `bad`.
  predicate Avoids(s: State, steps: seq<Step>, bad: (State, Step) -> bool)
    decreases |steps|
  {
    steps != [] ==> !bad(s, steps[0]) && Avoids(Apply(s, steps[0]), steps[1..], bad)
  }

  lemma {:induction false} RunKeepsFrom(s: State, steps: seq<Step>)
    requires Inv(s) && Kin(s)
    ensures Inv(Run(s, steps)) && Kin(Run(s, steps))
    ensures !s.fault.NoFault? ==> Run(s, steps).fault == s.fault
    ensures Thawed(s.pairs) && Avoids(s, steps, RefreezesPairs) ==> Thawed(Run(s, steps).pairs)
    ensures GatheringIsEmpty(s.pairs, s.comps) && Avoids(s, steps, GathersOverPairs) ==>
            GatheringIsEmpty(Run(s, steps).pairs, Run(s, steps).comps)
    ensures s.fault.NoFault? && Avoids(s, steps, Trips) ==> !Run(s, steps).fault.IllegalTransition?
    decreases |steps|
  {
    hide Inv, Kin, Thawed, GatheringIsEmpty, NominatedIsSelected, Apply, Trips, GathersOverPairs, RefreezesPairs,
      UnselectsPairs, LosesSelection;
    if steps != [] {
      StepIsKept(s, steps[0]);
      ApplyKin(s, steps[0]);
      RunKeepsFrom(Apply(s, steps[0]), steps[1..]);
    }
  }

  lemma {:induction false} RunSelectedFrom(s: State, steps: seq<Step>)
    requires Inv(s) && Kin(s) && NominatedIsSelected(s.pairs, s.comps) && !SelectionFault(s.fault)
    requires Avoids(s, steps, LosesSelection)
    ensures var t := Run(s, steps); NominatedIsSelected(t.pairs, t.comps) && !SelectionFault(t.fault)
    decreases |steps|
  {
    hide Inv, Kin, Thawed, GatheringIsEmpty, NominatedIsSelected, Apply, Trips, GathersOverPairs, RefreezesPairs, UnselectsPairs,
      ZeroLoss;
    if steps != [] {
      StepIsKept(s, steps[0]);
      ApplyKin(s, steps[0]);
      RunSelectedFrom(Apply(s, steps[0]), steps[1..]);
    }
  }

  lemma {:induction false} RunConfirmedFrom(s: State, steps: seq<Step>)
    requires Inv(s) && Kin(s) && AllSettled(s) && !s.fault.ValidPairNotSucceeded?
    requires Avoids(s, steps, DisturbsPairs)
    ensures var t := Run(s, steps); AllSettled(t) && !t.fault.ValidPairNotSucceeded?
    decreases |steps|
  {
    hide Inv, Kin, Thawed, GatheringIsEmpty, NominatedIsSelected, AllSettled, Apply, Trips, GathersOverPairs,
      RefreezesPairs, UnselectsPairs, LosesSelection, DisturbsPairs;
    if steps != [] {
      StepIsKept(s, steps[0]);
      ApplyKin(s, steps[0]);
      ApplySettled(s, steps[0]);
      if s.fault.NoFault? {
        StepConfirmed(s, steps[0]);
      }
      RunConfirmedFrom(Apply(s, steps[0]), steps[1..]);
    }
  }

  /** In every reachable state: check lists are sorted by descending priority, every priority is the
      formula for the current role, a READY component has no FROZEN or WAITING pair, a DISCONNECTED
      component owns no pair, a component with a nominated pair has a whole selection or none, and the
      identities, links and the triggered-check queue are well formed. */
  lemma RunInvariant(controlling: bool, cfg: Config, steps: seq<Step>)
    ensures Inv(Run(Initial(controlling, cfg), steps))
  {
    hide Inv, Kin, Run, Avoids, Thawed, GatheringIsEmpty, NominatedIsSelected, AllSettled;
    InitialInv(controlling, cfg);
    RunKeepsFrom(Initial(controlling, cfg), steps);
  }

  /** In every reachable state a discovered pair whose discoverer is still there is DISCOVERED or FAILED, holds no
      transaction, is neither queued nor picked, and its discoverer was not itself discovered by a pair still there. */
  lemma RunKin(controlling: bool, cfg: Config, steps: seq<Step>)
    ensures Kin(Run(Initial(controlling, cfg), steps))
  {
    hide Inv, Kin, Run, Avoids, Thawed, GatheringIsEmpty, NominatedIsSelected, AllSettled;
    InitialInv(controlling, cfg);
    RunKeepsFrom(Initial(controlling, cfg), steps);
  }

  /** Unless an updated remote candidate refreezes, no FROZEN pair ever shares a foundation with a
      SUCCEEDED pair. */
  lemma RunThawed(controlling: bool, cfg: Config, steps: seq<Step>)
    requires Avoids(Initial(controlling, cfg), steps, RefreezesPairs)
    ensures Thawed(Run(Initial(controlling, cfg), steps).pairs)
  {
    hide Inv, Kin, Run, Avoids, Thawed, GatheringIsEmpty, NominatedIsSelected, AllSettled;
    InitialInv(controlling, cfg);
    RunKeepsFrom(Initial(controlling, cfg), steps);
  }

  /** If gathering is never started over the pairs of a failed component, a GATHERING component owns no pair. */
  lemma RunGathering(controlling: bool, cfg: Config, steps: seq<Step>)
    requires Avoids(Initial(controlling, cfg), steps, GathersOverPairs)
    ensures var t := Run(Initial(controlling, cfg), steps); GatheringIsEmpty(t.pairs, t.comps)
  {
    hide Inv, Kin, Run, Avoids, Thawed, GatheringIsEmpty, NominatedIsSelected, AllSettled;
    InitialInv(controlling, cfg);
    RunKeepsFrom(Initial(controlling, cfg), steps);
  }

  /** Unless a lost socket takes the selection from under a nominated pair that outlives it, or fails on the
      way, a component with a nominated pair has a selected pair of non-zero priority, and neither assertion
      about the selection fails. */
  lemma RunSelected(controlling: bool, cfg: Config, steps: seq<Step>)
    requires Avoids(Initial(controlling, cfg), steps, LosesSelection)
    ensures var t := Run(Initial(controlling, cfg), steps);
            NominatedIsSelected(t.pairs, t.comps) && !t.fault.ZeroSelectedPriority? && !t.fault.SelectionMissing?
  {
    hide Inv, Kin, Run, Avoids, Thawed, GatheringIsEmpty, NominatedIsSelected, AllSettled;
    InitialInv(controlling, cfg);
    RunSelectedFrom(Initial(controlling, cfg), steps);
  }

  /** Unless a step disturbs a valid pair, every valid pair is nominated, awaited or confirmed, and the
      assertions of nomination never fail. */
  lemma RunConfirmed(controlling: bool, cfg: Config, steps: seq<Step>)
    requires Avoids(Initial(controlling, cfg), steps, DisturbsPairs)
    ensures var t := Run(Initial(controlling, cfg), steps); AllSettled(t) && !t.fault.ValidPairNotSucceeded?
  {
    hide Inv, Kin, Run, Avoids, Thawed, GatheringIsEmpty, NominatedIsSelected, AllSettled;
    InitialInv(controlling, cfg);
    RunConfirmedFrom(Initial(controlling, cfg), steps);
  }

  /** In every run, the transition table is violated by the last step exactly when that step is a reply
      nominating a pair of a component that is GATHERING or FAILED; and an assertion about the selected pair
      exactly when the state before the step condemns it, whatever the step is. */
  lemma RunFaults(controlling: bool, cfg: Config, steps: seq<Step>, last: Step)
    ensures var s := Run(Initial(controlling, cfg), steps);
            s.fault.NoFault? ==>
              && (Apply(s, last).fault.IllegalTransition? <==> Trips(s, last))
              && (SelectionFault(Apply(s, last).fault) <==> FailsSelection(s, last))
              && (FailsSelection(s, last) ==> !NominatedIsSelected(s.pairs, s.comps) || LosesSelection(s, last))
  {
    hide Inv, Kin, Run, Trips, FailsSelection, NominatedIsSelected, LosesSelection, Apply, Thawed, GatheringIsEmpty, AllSettled;
    InitialInv(controlling, cfg);
    RunKeepsFrom(Initial(controlling, cfg), steps);
    var s := Run(Initial(controlling, cfg), steps);
    if s.fault.NoFault? {
      LastFault(s, last);
    }
  }

  lemma LastFault(s: State, last: Step)
    requires Inv(s) && Kin(s) && s.fault.NoFault?
    ensures var f := Apply(s, last).fault;
            && (f.IllegalTransition? <==> Trips(s, last))
            && (SelectionFault(f) <==> FailsSelection(s, last))
            && (FailsSelection(s, last) ==> !NominatedIsSelected(s.pairs, s.comps) || LosesSelection(s, last))
  {
    hide Inv, Kin, Thawed, GatheringIsEmpty, NominatedIsSelected, Trips, GathersOverPairs, RefreezesPairs,
      UnselectsPairs, LosesSelection, FailsSelection, Apply;
    ApplyKeeps(s, last);
  }

  // ----- who changes the role

  // The role a step leaves behind.
  function RoleAfter(s: State, step: Step): bool {
    match step
    case ConflictReceived(control) => control
    case RoleRequested(control) =>
      if forall c :: 0 <= c < |s.comps| ==> s.comps[c].state.Disconnected? then control else s.controlling
    case ReplyReceived(id, k, reply) =>
      if ReplyOk(s, id, k, reply) && reply.RoleConflict? && s.pairs[id].retransmit
      then !s.pairs[id].stun[k].sentControlling else s.controlling
    case _ => s.controlling
  }

  lemma MatchedRole(s: State, c: nat, l: CandId, r: CandId, initial: CheckState)
    requires CanPair(s, c, l, r)
    ensures AddPairMatched(s, c, l, r, initial).0.controlling == s.controlling
  {
    hide RemovePairs, InsertSorted, UnfreezeMaybe, LimitDrops;
  }

  lemma ScheduleRole(s: State, c: nat, sock: Option<nat>, r: CandId)
    requires HasComp(s, c) && r in s.cands
    ensures ScheduleTriggered(s, c, sock, r).controlling == s.controlling
  {
    hide TriggerPair, MatchingPair, LocalOnSocket, AddPairMatched;
    var local := LocalOnSocket(s, c, sock);
    if local.Some? && CanPair(s, c, local.value, r) {
      MatchedRole(s, c, local.value, r, Waiting);
    }
    var found := MatchingPair(s, c, sock, r);
    if found.Some? {
      assert found.value in s.pairs by { MatchingIsPair(s, c, sock, r); }
    }
  }

  lemma ReplyRole(s: State, id: PairId, k: nat, reply: Reply)
    requires Inv(s) && ReplyOk(s, id, k, reply)
    ensures HandleReply(s, id, k, reply).controlling == RoleAfter(s, ReplyReceived(id, k, reply))
  {
    hide Inv, Thawed, GatheringIsEmpty, NominatedIsSelected, Answered, FinishReply, Recalculate, UpdateForReady,
      FailPair, OkNominated;
    if reply.Success? && reply.sourceOk && reply.remote.Some? {
      DropStunKeeps(s, id, k);
      AnsweredKeeps(DropStun(s, id, k), id, reply.remote.value, reply.mapped);
    }
    if reply.RoleConflict? && s.pairs[id].retransmit {
      RecalculateRole(s.(controlling := !s.pairs[id].stun[k].sentControlling));
    }
  }

  lemma RecalculateRole(s: State)
    ensures Recalculate(s).controlling == s.controlling
  {
  }

  lemma UpdateRole(s: State, c: nat, r: CandId, priority: nat, f: string, kind: CandidateType)
    requires Enabled(s, RemoteUpdated(c, r, priority, f, kind))
    ensures UpdateRemote(s, c, r, priority, f, kind).controlling == s.controlling
  {
    hide StableSort, RenameAlong, Reselected, UpdateForReady;
  }

  /** The role changes by an inbound conflict, a 487 reply to a check that is still retransmitted, or the
      client's request before any component has left DISCONNECTED; every other handler keeps it. */
  lemma RoleChangedBy(s: State, step: Step)
    requires Inv(s)
    ensures Apply(s, step).controlling == RoleAfter(s, step)
  {
    hide Inv, HandleReply, Tick, UpdateRemote, RemoveSocket, ScheduleTriggered, AddPairMatched, Recalculate,
      MarkAlong, Forbidden, PruneStream, ConcludeReady;
    match step {
      case FormPair(c, l, r, initial) =>
        if Enabled(s, step) {
          MatchedRole(s, c, l, r, initial);
        }
      case CheckReceived(c, sock, r) =>
        if Enabled(s, step) {
          ScheduleRole(s, c, sock, r);
        }
      case ConflictReceived(control) => RecalculateRole(s.(controlling := control));
      case ReplyReceived(id, k, reply) =>
        if Enabled(s, step) {
          ReplyRole(s, id, k, reply);
        }
      case RemoteUpdated(c, r, priority, f, kind) =>
        if Enabled(s, step) {
          UpdateRole(s, c, r, priority, f, kind);
        }
      case PairSelected(c, l, r) =>
        if Enabled(s, step) {
          PruneStreamRoles(s, s.comps[c].stream);
        }
      case StreamRestarted(n) =>
        if Enabled(s, step) {
          PruneStreamRoles(s, n);
        }
      case TimerFired(t) =>
        if Enabled(s, step) {
          TickRole(s, t);
        }
      case _ =>
    }
  }

  lemma TickRole(s: State, t: TickInput)
    requires CompsOk(s.comps, |s.lists|)
    ensures Tick(s, t).0.controlling == s.controlling
  {
    hide SendPhases, NominatePhase, FailComponents;
  }
}
