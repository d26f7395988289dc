# The ICE agent of libnice, modelled and verified in Dafny

This project models four connected parts of libnice's C agent and proves what they promise.

- **The connectivity-check machine** (`conncheck.c`, with parts of `agent.c` and `stream.c`): sorted check
  lists, six pair states and six component states, the triggered-check queue, the paced timer, unfreezing,
  both nomination modes, pruning, replies, role changes, restart.
- **Priorities and agreement** (`candidate.c`): candidate and pair priorities as 32- and 64-bit arithmetic,
  and why two agents select the same pair and settle on opposite roles.
- **Framing** (RFC 4571): the fixed receive buffer, scattering into the client's messages, and the splitter
  of long messages.
- **Bookkeeping**: foundations, asynchronous removal of TURN refreshes, valid sources, SDP candidate lines.

## How the connectivity-check machine is organised

`ConnCheckState` is the state as a value, with its invariants; `ConnCheckSpec` and `ConnCheckTick` say what
each handler does to it, mostly by which pairs it changes. `ConnCheckAgent`, `ConnCheckTimer` and
`ConnCheckControl` are the handlers in the source's own form: a class whose fields are updated in place by
loops over the check lists, every method proved equal to its definition. `ConnCheckInvariants`,
`ConnCheckHandlers`, `ConnCheckReplies`, `ConnCheckSessions`, `ConnCheckSockets` and `ConnCheckTicks` prove
what each handler keeps; `ConnCheckRuns` puts them together for every sequence of handler invocations with any
input. `ConnCheckSelection`, `ConnCheckRenames` and `ConnCheckConfirm` give exact conditions of what can fail.
`ConnCheckKin` is about discovered pairs and the pairs that discovered them, `ConnCheckWalk` and `ConnCheckFates` follow
the sending phases of a tick, `ConnCheckLosses` the loops of a lost socket; with them `ConnCheckSettled`,
`ConnCheckDisturb` and `ConnCheckOrphans` say, by the state before a step, when it makes nomination fail later.
`ConnCheckScheduler`, `ConnCheckSilence`, `ConnCheckHeld`, `ConnCheckTermination`
and `ConnCheckStuck` are about the timer, and `StunTimer` about the timer of one transaction.
`ConnCheckExamples`, `ConnCheckCorners` and `ConnCheckForbidden` hold concrete runs from the initial state that
show why the theorems carry their conditions; `ConnCheckReplay` helps to evaluate them.

The agent lock makes every handler one atomic step. Four groups of assertions of the source are recorded as a
`fault`, the first one that fails: the component transition table (`agent.c:2669`), a non-zero selected
priority (`conncheck.c:3028`), a selection to be updated (`agent.c:4311-4312`), and a confirmed pair at
nomination (`conncheck.c:956-959`).

## Where the code does not do what one would expect

Each of these is kept as the code has it, with a concrete instance and the exact condition.

- The reply path asks for CONNECTED from any state but READY. It violates the asserted transition table
  exactly when a reply leaves a nominated pair in a component that is GATHERING or FAILED (`ReplyKeeps`,
  `RunFaults`). In a run from the initial state the selected pair's socket is lost, the component fails, and
  then a check still in flight is answered (`ReplyToFailedComponent`).
- A lost socket clears the selection while pairs on other sockets stay nominated. A component with a nominated
  pair loses its selected pair exactly when the socket carries the selection and a nominated pair outlives the
  loss (`SelectionSurvives`; which pairs outlive it: `RemoveSocketExact`). From then on the component is exposed,
  and for every handler the state before it says whether an assertion about the selection fails
  (`SelectionFails`, `RunFaults`): a tick does so exactly when its sending phases give up a pair of an exposed
  component (`TickZero`), a lost socket exactly when one of its prunings meets the component exposed
  (`RemoveSocketExact`), and `ReplyZero`, `NominationZero` and `UpdateRemoteFault` are the other handlers. Runs from
  the initial state: `ZeroPriorityRun`, `SelectionMissingRun`. Runs without such a loss never fail them
  (`RunSelected`).
- A valid pair can leave SUCCEEDED, or lose the pair that discovered it, before it is nominated; nomination then
  fails its assertion. `ApplySettled` says for every handler, by the state before it, exactly when that happens: a
  tick gives up, frees or pops the pair that a valid one stands for before it is picked (`TickSettled`), a reply fails
  it or turns it into a discovered one (`ReplySettled`), a 403 response comes from its address (`ForbiddenSettled`), a
  lost socket, an inbound nomination or an updated candidate takes the discovering pair and leaves the discovered
  one (`LossSettled`, `NominationSettled`, `UpdateSettled`); every other handler never does. A run without such a
  step never fails the assertion (`RunConfirmed`), and after one a tick fails it exactly when nomination looks at the
  pair (`TickFails`, `TickUnconfirmed`). In one run from the initial state a 403 response fails the pair
  (`ForbiddenBreaksNomination`), in another a second transaction left over after a reply without a mapped
  address times out (`UnconfirmedFromInitial`).
- Starting to gather over a failed component that still owns pairs leaves a GATHERING component with pairs
  (`GatherKeeps`; a run from the initial state: `GatheringOverPairs`).
- An updated remote candidate can give a FROZEN pair the foundation of a SUCCEEDED one and leave it FROZEN. It
  does so exactly when no SUCCEEDED pair that is renamed meets the foundation the FROZEN pair has at that
  moment of the walk, and the list update frees neither (`UpdateRemoteThawed`; a run: `RefrozenRun`).
- A pair whose only transaction was answered by a role conflict waits in the triggered-check queue. If the
  ready update takes it out again, because a pair of higher priority was nominated, it stays IN_PROGRESS
  without a transaction and the timer never stops (`ReadyStrands`, `StuckNeverStops`; a run from the initial
  state: `StuckFromInitial`). A silent run whose pairs without a transaction are queued and out of reach of that
  update stops (`SilentRunStops`).
- The product `2 * max` in the pair priority is a 32-bit product: priorities from 2^31 on can collide
  (`PairPriorityCollides`, `PairPriorityWrapCollision`).
- The frame splitter takes the size of the first piece of a later frame from the whole buffer. It is right
  exactly when the message fits one frame or all bytes from before offset 0xF800 on are in one buffer
  (`SplitMessage`, `TwoBuffersOverread`).
- A port 0 is printed as 9, and a base address equal to the candidate's address is not printed
  (`ExactRoundTrip`). A priority of 2^31 or more prints as a negative number but is read back correctly.

## Model

| member | source | states |
|---|---|---|
| ConnCheckRuns.RunInvariant | libnice/agent/conncheck.c:2152-2193 | in every state reachable by any sequence of handlers: lists sorted by descending priority, every priority the formula for the current role, no FROZEN or WAITING pair in a READY component, no pair in a DISCONNECTED one, a component with a nominated pair has a whole selection or none, lists, links and queue well formed |
| ConnCheckRuns.RunThawed | libnice/agent/conncheck.c:428-501 | over every run no FROZEN pair shares a foundation with a SUCCEEDED pair, in any stream, unless an updated remote candidate refreezes by the exact condition of UpdateRemoteThawed |
| ConnCheckRuns.RunGathering | libnice/agent/agent.c:2641-2704 | over every run that never gathers over the pairs of a failed component, a GATHERING component owns no pair |
| ConnCheckRuns.RunFaults | libnice/agent/agent.c:2665-2693 | over every run, whatever the last step is: it violates the transition table if and only if it is a reply nominating a pair of a GATHERING or FAILED component, and fails an assertion about the selection if and only if the state before it condemns it, handler by handler; and the state condemns it only where a nominated pair has lost its selection or is about to |
| ConnCheckRuns.RunSelected | libnice/agent/component.c:166-231 | over every run in which no lost socket takes the selection from under a nominated pair that outlives it, or fails on the way, a component with a nominated pair has a selected pair of non-zero priority and neither assertion about the selection fails |
| ConnCheckRuns.RunConfirmed | libnice/agent/conncheck.c:929-1007 | over every run without a step that, by the state before it, disturbs a valid pair, every valid pair is nominated, awaits its nominating check or passes the assertions of nomination, and they never fail |
| ConnCheckRuns.ApplyKeeps | libnice/agent/conncheck.c:1142-1225 | every single handler keeps all invariants, with the exact exceptions; the exact condition, by the state before, of the transition table and of the assertions about the selection; only a tick can fail one of nomination |
| ConnCheckRuns.ApplySettled | libnice/agent/conncheck.c:929-1007 | from settled pairs, every single handler leaves all valid pairs settled if and only if it does not disturb one; for each handler that condition is on the state before it |
| ConnCheckRuns.SelectionFails | libnice/agent/conncheck.c:3015-3030 | every single handler fails an assertion about the selected pair if and only if the state before it condemns it: an exposed component and a reply, an inbound nomination, a check given up by a tick or a socket pruned by a loss, or a candidate update without a selection; the other handlers never do |
| ConnCheckRuns.RunKin | libnice/agent/conncheck.c:3325-3376 | in every reachable state a discovered pair whose discoverer is still there is DISCOVERED or FAILED, without transaction, neither queued nor picked, its discoverer is not itself a discovered one, and links go both ways |
| ConnCheckOrphans.ForbiddenSettled | libnice/agent/conncheck.c:4664-4678 | a 403 response unsettles a valid pair if and only if its sender's address is that of the pair it stands for, or, before that one is picked, of the valid pair itself |
| ConnCheckRuns.HarmlessSettled | libnice/agent/conncheck.c:3382-3416 | new streams and candidates, role changes, gathering and expired consent unsettle no valid pair |
| ConnCheckOrphans.FormSettled | libnice/agent/conncheck.c:1987-2030 | forming a pair unsettles no valid pair, although it may drop others from the list |
| ConnCheckOrphans.CheckSettled | libnice/agent/conncheck.c:3107-3212 | nor does an inbound check |
| ConnCheckOrphans.StreamSettled | libnice/agent/conncheck.c:2613-2639 | nor does emptying a list, in a restart or a manual selection |
| ConnCheckOrphans.LossSettled | libnice/agent/component.c:166-231 | a lost socket unsettles a valid pair if and only if a discovered pair outlives it and the pair that discovered it does not |
| ConnCheckOrphans.UpdateSettled | libnice/agent/agent.c:4259-4318 | an updated remote candidate does so if and only if its list update frees the discovering pair and keeps the discovered one |
| ConnCheckOrphans.NominationSettled | libnice/agent/conncheck.c:2201-2303 | an inbound nomination does so if and only if its walk frees the discovering pair and neither frees nor nominates the discovered one |
| ConnCheckDisturb.ReplySettled | libnice/agent/conncheck.c:3542-3760 | a reply does so if and only if it fails the pair a valid one stands for, turns that pair into a discovered one, answers the check of an orphaned discovered pair, or its list update frees that pair and not the valid one |
| ConnCheckDisturb.TickSettled | libnice/agent/conncheck.c:1142-1225 | a tick does so if and only if its sending phases give up the pair a valid one stands for, free it and not the valid one, or pop it before it is picked; a tick that does not fails no assertion of nomination |
| ConnCheckDisturb.TickFails | libnice/agent/conncheck.c:929-1007 | from settled pairs a tick fails an assertion of nomination if and only if it fails none about the selection and nomination looks at a pair that the tick unsettled |
| ConnCheckSettled.SettledNominates | libnice/agent/conncheck.c:929-1007 | while all valid pairs are settled nomination looks at no pair that fails its assertions |
| ConnCheckSettled.OrphanStep | libnice/agent/conncheck.c:944-960 | a handler that leaves the states of pairs alone unsettles a valid pair if and only if it frees the pair that discovered it and leaves it without a nomination |
| ConnCheckWalk.TickZero | libnice/agent/conncheck.c:1142-1177 | a tick fails the assertion on the selected priority if and only if its sending phases give up a pair of an exposed component: popped or next WAITING but not sendable, or out of transactions |
| ConnCheckFates.SendFate | libnice/agent/conncheck.c:633-763 | through the sending phases a pair that no other one discovered and that is neither FROZEN nor WAITING is freed if and only if a list update of the walk takes it, FAILED if and only if it is given up, IN_PROGRESS if and only if it was popped and sent, and otherwise as it was |
| ConnCheckFates.SendRests | libnice/agent/conncheck.c:601-625 | a discovered pair stays through them as it was, unless the pair that discovered it is given up and it fails too |
| ConnCheckKin.ReplyKin | libnice/agent/conncheck.c:3432-3533 | a reply keeps the kinship of discovered pairs |
| ConnCheckRuns.LastFault | libnice/agent/conncheck.c:3015-3030 | the same for any one step from a state of the invariants |
| ConnCheckRuns.RoleChangedBy | libnice/agent/conncheck.c:3402-3416 | which handlers change the role, and to what; every other one keeps it |
| ConnCheckExamples.ReplyToFailedComponent | libnice/agent/conncheck.c:3701-3712 | a run from the initial state that violates the transition table: a reply after the selected socket was lost |
| ConnCheckExamples.ZeroPriorityRun | libnice/agent/conncheck.c:3015-3030 | a run from the initial state that fails the assertion on the selected priority: the selection goes with its socket, a nominated pair stays, a new remote candidate is paired and its check cannot be sent |
| ConnCheckExamples.SelectionMissingRun | libnice/agent/agent.c:4298-4316 | a run from the initial state after which a READY component has a nominated pair and no selection, and the next candidate update finds none to update |
| ConnCheckCorners.GatheringOverPairs | libnice/agent/agent.c:2684-2693 | a run from the initial state after which a GATHERING component owns a pair: its only check could not be sent, the tick failed it, gathering started again |
| ConnCheckCorners.StuckFromInitial | libnice/agent/conncheck.c:3717-3751 | a run from the initial state after which a check is stuck in progress and no silent tick is the last: both checks meet a role conflict, the first is sent again in the new role and nominated before the second is sent |
| ConnCheckCorners.RefrozenRun | libnice/agent/agent.c:4123-4169 | a run from the initial state after which an updated remote candidate leaves a FROZEN pair with the foundation of a SUCCEEDED one |
| ConnCheckCorners.UnconfirmedFromInitial | libnice/agent/conncheck.c:3627-3631 | a run from the initial state in which a left-over transaction fails a valid pair and nomination fails its assertion |
| ConnCheckForbidden.ForbiddenBreaksNomination | libnice/agent/conncheck.c:4664-4698 | a run from the initial state in which a 403 response fails a valid pair and nomination fails its assertion |
| ConnCheckInvariants.ReadyEntry | libnice/agent/conncheck.c:3015-3096 | whenever the list update moves a component to READY, none of its remaining pairs is queued or pending, and each one IN_PROGRESS ranks strictly below the selected pair and is no longer retransmitted |
| ConnCheckInvariants.UpdateForReadyKeeps | libnice/agent/conncheck.c:2152-2193 | the ready update keeps all invariants and the transition table |
| ConnCheckInvariants.PruneLeaves | libnice/agent/conncheck.c:3015-3096 | what is left of a component after pruning |
| ConnCheckInvariants.UnfreezeNextKeeps | libnice/agent/conncheck.c:365-413 | unfreezing keeps all invariants |
| ConnCheckHandlers.AddPairKeeps | libnice/agent/conncheck.c:2309-2436 | creating a pair, with insertion by priority, unfreezing and list limiting, keeps all invariants and the transition table |
| ConnCheckHandlers.ScheduleKeeps | libnice/agent/conncheck.c:3107-3212 | an inbound check keeps all invariants and the transition table |
| ConnCheckHandlers.MarkNominatedKeeps | libnice/agent/conncheck.c:2201-2303 | an inbound nomination keeps all invariants and the transition table |
| ConnCheckHandlers.RecalculateInv | libnice/agent/conncheck.c:3382-3396 | whatever the priorities were, recalculation restores formula and order |
| ConnCheckHandlers.RoleConflictKeeps | libnice/agent/conncheck.c:3402-3416 | a role change keeps all invariants, because it recalculates |
| ConnCheckHandlers.SetRoleKeeps | libnice/agent/agent.c:1277-1316 | the role property may change without recalculation, because a DISCONNECTED component owns no pair |
| ConnCheckReplies.ReplyKeeps | libnice/agent/conncheck.c:3542-3760 | a reply keeps all invariants, and violates the transition table if and only if it leaves a nominated pair in a GATHERING or FAILED component |
| ConnCheckReplies.AnsweredKeeps | libnice/agent/conncheck.c:3432-3533 | processing the mapped address and unfreezing keep all invariants; which pair is nominated is decided by flags set before the reply |
| ConnCheckReplies.SuccessThaws | libnice/agent/conncheck.c:428-455 | a success followed by unfreezing leaves no FROZEN pair of its foundation |
| ConnCheckSessions.UpdateRemoteKeeps | libnice/agent/agent.c:4259-4318 | updating a remote candidate keeps order, formula and the other invariants, and fails no assertion while nominated components have their selection |
| ConnCheckRenames.UpdateRemoteThawed | libnice/agent/agent.c:4123-4169 | an updated remote candidate leaves no FROZEN pair with the foundation of a SUCCEEDED one if and only if no such pair of pairs survives: both kept by the list update, and the FROZEN one not met by a SUCCEEDED pair renamed to the foundation it has at that position of the list |
| ConnCheckRenames.RenameAlongEffect | libnice/agent/agent.c:4123-4169 | the walk over the list gives every pair its new foundation and unfreezes exactly the pairs that a renamed SUCCEEDED pair meets |
| ConnCheckSelection.UpdateRemoteFault | libnice/agent/agent.c:4298-4316 | an updated remote candidate fails the assertion that there is a selection to update if and only if the component has a nominated pair and no selection, and no other assertion |
| ConnCheckSelection.ReplyZero | libnice/agent/conncheck.c:3592-3616 | a reply fails the assertion on the selected priority if and only if the component has a valid nominated pair and no selected priority, and the reply neither is a role conflict nor nominates |
| ConnCheckSelection.NominationZero | libnice/agent/conncheck.c:2201-2303 | an inbound nomination fails it if and only if moreover the agent is controlled and the first pair touched is nominated but not valid |
| ConnCheckSessions.PruneSocketKeeps | libnice/agent/conncheck.c:4960-5035 | freeing the pairs of a socket keeps all invariants and the transition table |
| ConnCheckLosses.RemoveSocketExact | libnice/agent/component.c:166-231 | after a lost socket exactly the pairs are left that outlive every pruning on the way, by not using its socket and not being freed by its list update; the assertion on the selected priority fails if and only if one of those prunings meets the component exposed; no pair that stays changes state, but for one whose discoverer went |
| ConnCheckLosses.SelectionSurvives | libnice/agent/component.c:166-231 | a component with a nominated pair keeps its selection through a lost socket if and only if the socket does not carry the selection or no nominated pair outlives it |
| ConnCheckLosses.LossKeeps | libnice/agent/component.c:166-231 | a lost socket keeps all other invariants, together with both conditions |
| ConnCheckLosses.PruneSocketExact | libnice/agent/conncheck.c:4960-5035 | pruning one socket leaves exactly the pairs that do not use it and that the list update after it does not free |
| ConnCheckSockets.RemoveSocketTakes | libnice/agent/component.c:180-228 | afterwards no pair of the component uses the socket or that of a candidate based on it, and exactly those candidates are gone |
| ConnCheckLosses.RemoveSocketSpares | libnice/agent/component.c:180-228 | a pair that is not queued, FROZEN or WAITING stays if and only if it uses none of the sockets that go |
| ConnCheckSockets.PruneSocketTakes | libnice/agent/conncheck.c:4960-5035 | no pair of the component uses the socket any more, and the assertion on the selected priority fails if and only if one did, a valid nominated one does not, and nothing is selected |
| ConnCheckSockets.ForbiddenKeeps | libnice/agent/conncheck.c:4664-4698 | a 403 response keeps all invariants and the transition table |
| ConnCheckSessions.SetSelectedKeeps | libnice/agent/agent.c:6665-6702 | manual selection keeps all invariants and the transition table |
| ConnCheckSessions.RestartKeeps | libnice/agent/stream.c:144-163 | a restart keeps all invariants and the transition table |
| ConnCheckSessions.GatherKeeps | libnice/agent/agent.c:2641-2704 | gathering keeps all invariants; a GATHERING component stays empty if and only if the component was not FAILED with pairs |
| ConnCheckTicks.TickKeeps | libnice/agent/conncheck.c:1142-1225 | a tick keeps all invariants and the transition table; when it fails an assertion of nomination is said exactly by TickUnconfirmed |
| ConnCheckConfirm.TickUnconfirmed | libnice/agent/conncheck.c:929-1007 | a tick fails an assertion of nomination if and only if, once its checks are sent, some component is due for nomination, has no picked pair, and one of the pairs looked at is not confirmed |
| ConnCheckConfirm.ChooseConfirmed | libnice/agent/conncheck.c:944-1004 | which pairs the search looks at: the eligible ones up to the first that ends it |
| ConnCheckScheduler.SchedulerGuarantee | libnice/agent/conncheck.c:1142-1177 | a tick sends at most one request. A triggered check goes first and was queued before the tick; else a retransmission, of a pair whose newest transaction was due before the tick, with a retransmission left, and which was retransmitted or is again by a list update of the tick; else an ordinary check, of a pair WAITING or FROZEN before the tick, while every pair of its list that was WAITING with a higher priority is gone or has failed |
| ConnCheckScheduler.NextWaitingIsHighest | libnice/agent/conncheck.c:312-325 | the first WAITING pair of a list has the highest priority of all of them |
| ConnCheckScheduler.OnlyHeadResent | libnice/agent/conncheck.c:664-698 | only the newest transaction of a pair that is still retransmitted is ever sent again, only when due and with a retransmission left, which it uses up |
| ConnCheckScheduler.ChooseIsBest | libnice/agent/conncheck.c:929-1007 | regular nomination picks the check of the highest-priority valid pair among those of the kind of a pair nominated elsewhere, and among all of them if there is none |
| ConnCheckScheduler.UnfreezeNextExact | libnice/agent/conncheck.c:365-413 | with no pair WAITING, unfreezing leaves exactly one WAITING pair per foundation that had a FROZEN one |
| ConnCheckScheduler.UnfreezeNextIdempotent | libnice/agent/conncheck.c:365-413 | unfreezing twice is unfreezing once |
| ConnCheckTermination.TickDecreases | libnice/agent/conncheck.c:1142-1225 | every silent tick that keeps the timer going decreases a lexicographic measure: requests still to be sent, time until transactions expire, idle time left |
| ConnCheckTermination.SilentRunStops | libnice/agent/conncheck.c:1142-1225 | without inbound traffic, when every IN_PROGRESS pair holds a transaction or is queued and not below the selected pair of a component with a nominated one, some tick stops the timer, whatever the sends do |
| ConnCheckHeld.HeldTick | libnice/agent/conncheck.c:1142-1225 | a tick leaves every check in progress with a transaction, or queued and out of reach of the ready update |
| StunTimer.Timer.Refresh | libnice/stun/usages/timer.c:141-159 | nothing before the deadline, then a retransmission is used up or none is left |
| StunTimer.RetransmissionsBounded | libnice/stun/usages/timer.c:105-159 | however often and whenever it is asked, a timer allows as many retransmissions as it was started with |
| StunTimer.DelayDoubles | libnice/stun/usages/timer.c:148-152 | the delay after the k-th retransmission is 2^k times the first while that fits 32 bits, and half of the one before for the last |
| StunTimer.TickSeesTimer | libnice/stun/usages/timer.c:141-159 | what the tick assumes of a transaction is what this timer does |
| ConnCheckTermination.ScanFacts | libnice/agent/conncheck.c:656-708 | one pass over a pair's transactions never adds work, and leaves none that is due unless it sent one |
| ConnCheckStuck.StuckNeverStops | libnice/agent/conncheck.c:844-847 | a pair IN_PROGRESS without a transaction and outside the queue keeps the timer going for ever |
| ConnCheckStuck.StuckTick | libnice/agent/conncheck.c:1142-1225 | a silent tick leaves such a pair as it is, and goes on |
| ConnCheckStuck.ConflictRequeues | libnice/agent/conncheck.c:3717-3751 | a role conflict queues the pair, without a transaction if it was the only one |
| ConnCheckStuck.ReadyStrands | libnice/agent/conncheck.c:3067-3076 | the ready update takes it out of the queue for good if and only if a pair is nominated and the selected one ranks higher |
| ConnCheckAgent.Agent.SignalState | libnice/agent/agent.c:2641-2704 | a component changes state along the table, and a change outside it is a fault |
| ConnCheckAgent.Agent.AddToTriggeredQueue | libnice/agent/conncheck.c:274-284 | a pair is queued once, and the timer runs |
| ConnCheckAgent.Agent.FindNextWaiting | libnice/agent/conncheck.c:312-325 | the first WAITING pair of a list |
| ConnCheckAgent.Agent.SomePairWaits | libnice/agent/conncheck.c:365-385 | whether any pair of any stream is WAITING |
| ConnCheckAgent.Agent.DoUnfreezeNext | libnice/agent/conncheck.c:365-413 | the loop over all lists unfreezes exactly the pairs of its definition |
| ConnCheckAgent.Agent.DoUnfreezeRelated | libnice/agent/conncheck.c:428-455 | the loop over all lists unfreezes exactly the FROZEN pairs of the foundation |
| ConnCheckAgent.Agent.PrunePendingChecks | libnice/agent/conncheck.c:3015-3096 | which pairs the pruning loop frees, silences and keeps, and when it reports none left |
| ConnCheckAgent.Agent.HasNominated | libnice/agent/conncheck.c:2160-2171 | whether a component has a valid nominated pair |
| ConnCheckAgent.Agent.UpdateCheckListForReady | libnice/agent/conncheck.c:2152-2193 | the ready update as defined, keeping the invariant |
| ConnCheckAgent.Agent.FailCheckPair | libnice/agent/conncheck.c:601-625 | a failed pair loses its transactions and takes its discovered pair along |
| ConnCheckAgent.Agent.SelectIfHigher | libnice/agent/conncheck.c:2037-2067 | a nominated pair is selected if its priority is strictly higher |
| ConnCheckAgent.Agent.HasSucceededPair | libnice/agent/conncheck.c:472-501 | whether a foundation has a SUCCEEDED pair in any stream |
| ConnCheckAgent.Agent.LimitListSize | libnice/agent/conncheck.c:1987-2030 | which pairs leave a list that is too long, and whether the given one did |
| ConnCheckAgent.Agent.AddCheckPair | libnice/agent/conncheck.c:2309-2393 | the new pair is priced, placed, thawed and possibly dropped as defined |
| ConnCheckAgent.Agent.AddMatchedPair | libnice/agent/conncheck.c:2412-2436 | and its component goes to CONNECTING or back to CONNECTED |
| ConnCheckAgent.Agent.RecalculatePairPriorities | libnice/agent/conncheck.c:3382-3396 | the stream-by-stream loop reprices and stably sorts every list as one recalculation |
| ConnCheckAgent.Agent.CheckRoleConflict | libnice/agent/conncheck.c:3402-3416 | the role is the requested one, every priority is the formula for it, every list is a permutation in descending order, nothing but priorities and order changes, and nothing at all if the role was that already |
| ConnCheckAgent.Agent.ScheduleTriggeredCheck | libnice/agent/conncheck.c:3107-3212 | the pair that an inbound check queues, wakes up or creates, keeping the invariant |
| ConnCheckAgent.Agent.MarkPairNominated | libnice/agent/conncheck.c:2201-2303 | every matching pair is marked, selected and concluded in list order |
| ConnCheckAgent.Agent.ProcessReflexive | libnice/agent/conncheck.c:3432-3533 | the valid pair of a response: the checked one, a known one, or a new discovered one |
| ConnCheckAgent.Agent.AddPeerReflexivePair | libnice/agent/conncheck.c:3325-3376 | one new pair: DISCOVERED, valid, linked both ways with the pair whose check found it, nominated as that one is, priced by the formula, listed in order; every other pair unchanged and the invariant kept |
| ConnCheckAgent.Agent.ConcludeAnswer | libnice/agent/conncheck.c:3657-3716 | which reply nominates, and the state changes that follow |
| ConnCheckAgent.Agent.HandleConnCheckReply | libnice/agent/conncheck.c:3542-3760 | success, source mismatch, role conflict and error replies as defined, keeping the invariant |
| ConnCheckAgent.Agent.PruneSocketPairs | libnice/agent/conncheck.c:4960-5035 | the pairs of a lost socket go, and the component steps down as defined |
| ConnCheckTimer.InitiateCheck | libnice/agent/conncheck.c:332-353 | a started check holds one more transaction; one that cannot be sent fails |
| ConnCheckTimer.ScanTransactions | libnice/agent/conncheck.c:656-708 | the transactions that remain after a pass, and whether the newest was sent again |
| ConnCheckTimer.TickStream | libnice/agent/conncheck.c:633-733 | the transactions of a stream age in list order until one is sent |
| ConnCheckTimer.CheckOrdinary | libnice/agent/conncheck.c:736-763 | the next WAITING pair of a stream is checked, after unfreezing if there is none |
| ConnCheckTimer.RunTriggered | libnice/agent/conncheck.c:1155-1160 | at most one queued pair per stream is tried until one request is sent |
| ConnCheckTimer.CountComponent | libnice/agent/conncheck.c:884-907 | the counters on which the stopping criterion rests |
| ConnCheckTimer.ChoosePair | libnice/agent/conncheck.c:944-1004 | the pair to be nominated: the best, or the best of the kind of another nominated pair |
| ConnCheckTimer.NominateComponent | libnice/agent/conncheck.c:867-1086 | when and which pair of a component is queued for nomination |
| ConnCheckTimer.NominateInStream | libnice/agent/conncheck.c:786-1119 | nomination over the components of a stream, and whether the timer must go on |
| ConnCheckTimer.UpdateFailedComponents | libnice/agent/conncheck.c:2080-2139 | exactly the components whose checks are over without a nomination fail |
| ConnCheckTimer.TickAgent | libnice/agent/conncheck.c:1142-1225 | the whole tick: at most one request on the wire, a triggered, repeated or ordinary one as the scheduler guarantees by the state before, nomination, idle count, and an end of the timer only after a tick that sent nothing |
| ConnCheckControl.RenamePairs | libnice/agent/agent.c:4123-4169 | pairs of the updated candidate are renamed in list order, unfreezing and repricing the selection |
| ConnCheckControl.UpdateRemoteCandidate | libnice/agent/agent.c:4235-4318 | recalculation, renaming, reselection and ready update of a remote candidate update |
| ConnCheckControl.RemoveComponentSocket | libnice/agent/component.c:166-231 | the loops over local and remote candidates remove a socket as defined: no pair is left on it, exactly its candidates go, and the invariant is kept |
| ConnCheckControl.HandleForbidden | libnice/agent/conncheck.c:4664-4698 | every pair of the stream with the sender of a 403 fails, and the component if its selected pair is one of them |
| ConnCheckControl.PruneStreamChecks | libnice/agent/conncheck.c:2613-2639 | a stream loses all its pairs, and the timer stops when no stream has any |
| ConnCheckControl.SelectPairManually | libnice/agent/agent.c:6665-6702 | manual selection as defined, keeping the invariant |
| ConnCheckControl.RestartStream | libnice/agent/stream.c:144-163 | a restart as defined, keeping the invariant |
| ConnCheckControl.UpdateControllingMode | libnice/agent/agent.c:1277-1316 | the role property takes effect only while every component is DISCONNECTED |
| CandidatePriority.PriorityRange | libnice/agent/candidate.c:125-142 | with in-range inputs a candidate priority lies in 1..0x7effffff |
| CandidatePriority.PriorityDetermines | libnice/agent/candidate.c:203-270 | two priorities are equal if and only if type preference, direction, TURN preference, interface and component are |
| CandidatePriority.SameKindUnique | libnice/agent/candidate.c:310-363 | candidates of one type and transport that differ in component, interface or TURN slot have different priorities |
| CandidatePriority.IpLocalPreference | libnice/agent/candidate.c:163-201 | the position of an address among the local ones |
| CandidatePriority.PairPriorityCollides | libnice/agent/candidate.c:384-394 | for all 32-bit inputs, exactly when two pairs have the same priority |
| CandidatePriority.PairPriorityInjective | libnice/agent/candidate.c:384-394 | below 2^31 a pair priority determines both inputs |
| CandidatePriority.PairPriorityWrapCollision | libnice/agent/candidate.c:384-394 | a collision above 2^31 |
| CandidatePriority.DecodePairPriority | libnice/agent/candidate.c:396-402 | the printed fields are the smaller priority, the larger modulo 2^31 and the order bit, and the sum fits 64 bits |
| Agreement.TwoAgentAgreement | libnice/agent/conncheck.c:2037-2067 | two agents with opposite roles and legal, distinct candidate priorities that process the same nominations in any two orders select mirror-image pairs |
| Agreement.AgreementOnTop | libnice/agent/conncheck.c:2037-2067 | a unique best pair is selected by both, whatever the orders |
| Agreement.TieDisagrees | libnice/agent/conncheck.c:2037-2067 | with two best pairs, two orders of the same nominations make the agents disagree |
| Agreement.SelectionIsBest | libnice/agent/conncheck.c:2037-2067 | the selected pair is always the best one nominated so far |
| Agreement.MirrorRun | libnice/agent/agent.c:2706-2713 | the same nominations in the same order select mirror images, because the pair priority is role-symmetric |
| Agreement.UpdateSelectedNominates | libnice/agent/conncheck.c:2037-2067 | the machine's selection step is the one the agreement is about |
| RoleConflict.SameRoleConverges | libnice/stun/usages/ice.c:275-304 | two agents in the same role with distinct tie-breakers, under loss, duplication, delay and reordering: at most one role change ever, and after it the larger tie-breaker controls |
| RoleConflict.ResolutionIsFinal | libnice/agent/conncheck.c:3717-3751 | no stale request or 487 error undoes a resolution |
| RoleConflict.OneExchangeResolves | libnice/agent/conncheck.c:3717-3751 | while the conflict lasts, one request and, if refused, its error resolve it |
| RoleConflict.OppositeRolesStay | libnice/agent/conncheck.c:3402-3416 | agents with opposite roles never change them |
| RoleConflict.EqualTiesDoNotConverge | libnice/agent/conncheck.c:3402-3416 | with equal tie-breakers both may give up the role |
| Framing.DeframeEnframe | libnice/agent/agent.c:5009-5056 | deframing gives back the frames that were put in, whatever follows |
| FrameReceiver.ReceiveAll | libnice/agent/agent.c:4738-4868 | however the stream is cut into chunks, the packets are the non-empty payloads of its plain deframing, each once and in order; a frame of length 0 is dropped |
| FrameReceiver.Receiver.Receive | libnice/agent/agent.c:4738-4840 | a frame is exposed exactly when the buffer begins with a whole one; a refill happens only otherwise and always has room; no byte is lost |
| FrameReceiver.Receiver.Refill | libnice/agent/agent.c:4785-4818 | bytes go behind the buffered ones, in bounds, and the frame size is 0 exactly while fewer than two are buffered |
| FrameReceiver.Receiver.Compact | libnice/agent/agent.c:4794-4803 | moving the buffered bytes to the start keeps them |
| FrameReceiver.Receiver.Consume | libnice/agent/agent.c:5009-5056 | the next unseen bytes are handed over, and a wakeup is asked for exactly when a whole frame is still buffered |
| FrameReceiver.Receiver.Discard | libnice/agent/agent.c:4990-4999 | a frame handled out of band is retired whole |
| FrameReceiver.Receiver.TryConsume | libnice/agent/agent.c:5058-5076 | a read is served from the buffer exactly when it begins with a whole frame |
| FrameReceiver.Receiver.DeliveredInOrder | libnice/agent/agent.c:5009-5056 | in bytestream mode what the client has read is always a prefix of the concatenated payloads |
| InputMessages.Target.Append | libnice/agent/agent.c:5188-5228 | as much as fits is copied contiguously at the cursor, nothing else changes, and the iterator moves on in packet mode or when the message is full |
| InputMessages.Message.CopyInto | libnice/agent/agent.c:5200-5217 | buffer-by-buffer copying is one write into the concatenated buffers |
| InputMessages.Message.CapacityFrom | libnice/agent/agent.c:5337-5357 | the bytes left in a message behind the iterator |
| FrameDelivery.ConsumeInto | libnice/agent/agent.c:5009-5056 | the client's message receives, at its cursor, exactly the next unseen bytes of the frame, and in bytestream mode none is lost or repeated |
| FrameSplit.SplitMessage | libnice/agent/agent.c:5829-5919 | the splitter reads beyond a buffer if and only if the message is not splittable; otherwise its packets of at most 0xF800 bytes make up the message |
| FrameSplit.FillPacket | libnice/agent/agent.c:5871-5896 | a packet is the right slice of the message, unless it leaves the buffer in which a later frame starts |
| FrameSplit.FindStart | libnice/agent/agent.c:5871-5884 | the buffer and offset at which a frame starts |
| FrameSplit.SplitRoundTrip | libnice/agent/agent.c:5829-5919 | deframing the packets gives back the message |
| FrameSplit.SingleBufferSplits | libnice/agent/agent.c:5829-5919 | a message in one buffer is splittable, whatever its length |
| FrameSplit.TwoBuffersOverread | libnice/agent/agent.c:5888-5891 | a message of two buffers that is not |
| RefreshPruning.Agent.Free | libnice/agent/discovery.c:150-177 | freeing a refresh runs the callback of its removal exactly if it was the last one registered |
| RefreshPruning.Agent.CountDown | libnice/agent/discovery.c:301-307 | a countdown goes with its callback, once |
| RefreshPruning.Agent.PruneAsync | libnice/agent/discovery.c:309-344 | refreshes not already being removed are registered; without any the callback runs at once |
| RefreshPruning.Agent.PruneStreamAsync | libnice/agent/discovery.c:351-370 | every refresh of the stream is being removed afterwards |
| RefreshPruning.Agent.PruneCandidateAsync | libnice/agent/discovery.c:399-415 | every refresh of the candidate is being removed afterwards |
| RefreshPruning.Agent.PruneSocket | libnice/agent/discovery.c:420-443 | exactly the refreshes of the socket are freed, and exactly the removals all of whose refreshes were on it run their callback, each once |
| RefreshPruning.Agent.UnlockAndEmit | libnice/agent/agent.c:212-240 | a close task completes exactly when nothing is being pruned or resolved, and at most once per request |
| RefreshPruning.FreedCounts | libnice/agent/discovery.c:150-177 | a countdown always stands at the number of live refreshes registered in it |
| RefreshPruning.LoggedOnce | libnice/agent/discovery.c:301-307 | a callback that runs had not run before |
| RefreshPruning.BuiltCounts | libnice/agent/discovery.c:309-344 | a countdown that has been built is counting, or its callback runs at once |
| Foundations.Agent.AssignFoundation | libnice/agent/discovery.c:541-604 | with the new candidate, any two present ones share a foundation if and only if they agree on type, transport and base IP, or on relay IP and TURN server |
| Foundations.Agent.AddLocal | libnice/agent/discovery.c:449-491 | a candidate is added exactly if none present makes it redundant |
| Foundations.FreshFoundation | libnice/agent/discovery.c:602-603 | a new number is no present candidate's foundation |
| Foundations.CopiedFoundation | libnice/agent/discovery.c:587-599 | copying the foundation of an alike candidate keeps the equivalence |
| Foundations.HighestRemoteFoundation | libnice/agent/discovery.c:493-517 | the search ends with the least free index, at most one more than the number of remote candidates |
| ValidSources.Component.AddValid | libnice/agent/component.c:1661-1702 | targets stay distinct, at most 51, and the one evicted is the least recently used |
| ValidSources.Component.Verify | libnice/agent/component.c:1704-1740 | the answer is that of a plain search; the first hit moves to the front and is the last used, every other entry keeps its order and its last use, and without a hit nothing changes |
| ValidSources.ToFrontFacts | libnice/agent/component.c:1725-1736 | moving to the front permutes the entries |
| Text.SignedRoundTrip | libnice/agent/agent.c:7253-7257 | every 32-bit value printed with %d is read back as itself |
| Text.SplitJoin | libnice/agent/agent.c:7560 | splitting undoes joining when no part holds the separator |
| Sdp.GenerateCandidate | libnice/agent/agent.c:7243-7270 | a candidate line is its tokens separated by single spaces |
| Sdp.ParseCandidate | libnice/agent/agent.c:7532-7662 | the token loop reads six fields by place and the rest by key, with its error cases |
| Sdp.CandidateRoundTrip | libnice/agent/agent.c:7532-7662 | parsing a printed candidate gives back foundation, component, transport, priority, type, address and a differing base address |
| Sdp.ExactRoundTrip | libnice/agent/agent.c:7243-7270 | the candidate itself comes back if and only if no port is 0 and a base address, if set, differs |
| Sdp.ParseStream | libnice/agent/agent.c:7483-7530 | candidate lines are read in order, each to the front; one bad line empties the result |
| Sdp.GenerateStream | libnice/agent/agent.c:7272-7330 | the lines of a stream, each followed by a newline |
| Sdp.StreamRoundTrip | libnice/agent/agent.c:7483-7530 | the candidates of a stream come back in reverse order |

## Left out

- ConnCheckRuns.RunThawed: excludes candidate updates that refreeze, because one can break the property (`UpdateRemoteThawed` gives the exact condition).
- ConnCheckRuns.RunGathering: is stated without gathering over a failed component that owns pairs, because that breaks the property (`GatherKeeps` gives the exact condition).
- ConnCheckRuns.RunSelected: excludes lost sockets that take the selection from under a nominated pair or fail on the way, because that breaks the property (`SelectionSurvives` and `RemoveSocketExact` give the exact conditions).
- ConnCheckRuns.RunConfirmed: excludes steps that disturb a valid pair, because that breaks the property (`ApplySettled` gives the exact condition).
- ConnCheckConfirm.TickUnconfirmed: names the state after the tick's sends, in which nomination looks for pairs; `TickFails` says by the state before which of those pairs fail the assertion, when all valid pairs were settled.
- ConnCheckDisturb.TickFails: which pairs nomination looks at is said in the state after the sends, where it looks.
- ConnCheckScheduler.SchedulerGuarantee: does not say that a repeated pair was marked for retransmission before the tick, because a list update earlier in the same tick can mark it (`Revived`).
- ConnCheckAgent.Agent.ScheduleTriggeredCheck: does not model the assertion that a matched pair with a parent is still DISCOVERED (`conncheck.c:3127`); it goes on with the parent.
- ConnCheckAgent.Agent.MarkPairNominated: does not model the assertion that the discovered pair of a SUCCEEDED one is still DISCOVERED (`conncheck.c:2248`).
- ConnCheckStuck.ReadyStrands: is about one ready update; which later messages would free a stranded pair is not modelled.
- ConnCheckTermination.SilentRunStops: says nothing of pairs stuck in progress that another pair discovered, which fail with it.
- StunTimer.Timer.Refresh: counts whole milliseconds; the source's clock has microseconds, and less than one millisecond left counts as none.
- ConnCheckAgent.Agent.HandleConnCheckReply: starts from the matched transaction; the lookup by transaction id and the match of the mapped address with a local candidate are parameters.
- ConnCheckControl.RemoveComponentSocket: which sockets are based on the lost one is a parameter; detaching the sockets from the main loop and the discovery and refresh lists is left out here.
- ConnCheckControl.HandleForbidden: takes the remote candidates with the sender's address as a parameter, and requires a selected pair, whose address the source reads without looking.
- Agreement.TwoAgentAgreement: is about the nominations two agents process, in any orders; that two runs of the machine process mirror-image nominations is not stated.
- RefreshPruning.Agent.PruneSocket: has no second pass over the pruning list, which the invariant shows to find nothing; callbacks are logged, so what a callback does inside `refresh_free` is not modelled, nor is a deallocation request that could not be built.
- Foundations.Agent.AssignFoundation: numbers are unbounded where the source's counter is 32 bits wide; copying of user names and passwords is left out.
- FrameSplit.SplitMessage: every send succeeds; a partial or failed send is not modelled.
- InputMessages.Target.Append: does not state that the buffers of other messages are untouched; nothing forbids a client to share them.
- Sdp.GenerateStream: takes the header lines and the candidates to be printed as they are; the choice of default candidates and the relay-only filter are left out.
- Text.SplitJoin: models `g_strsplit` without a limit only.
- Renomination (`conncheck.c:4449-4515`), which rewrites a priority without sorting again.
- The kept relay candidate and the clearing of the selected pair when TURN servers change (`component.c:275-327`, `component.c:555-565`).
- Google, MSN, WLM and OC2007 compatibility modes, reliable mode and pseudo-TCP.
- Keepalives, consent freshness and incoming checks stored before remote candidates are known; a lost consent appears as the step that fails a component with a selected pair.
- Link-local filters, transport and address-family matching; any host or relayed local candidate of a component may be paired with any known remote one, at any time and in any order.
- The selection of a remote candidate by the client (`nice_agent_set_selected_remote_candidate`, `agent.c:6901-6968`), which differs from manual selection of a pair by the choice of a local candidate and the priority written.
- Stream removal, discovery of candidates, DNS, sockets and main-loop sources; sockets, addresses and the clock are parameters.
- Memory management: pairs have identities that are never reused, and a link to a freed pair is a link to nothing.
