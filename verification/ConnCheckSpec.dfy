/** What each handler of the connectivity-check machine does to the state.

These are the reference definitions: the handlers that loop over check lists in the source are
described here by which pairs they change or drop, and the loops themselves are in ConnCheckAgent.
*/
module ConnCheckSpec {
  import opened Basics
  import opened CandidatePriority
  import opened ConnCheckState

  // ----- pairs, lists and the triggered-check queue

  function SetPair(s: State, id: PairId, p: Pair): State {
    s.(pairs := s.pairs[id := p])
  }

  function SetComp(s: State, c: nat, x: Component): State
    requires c < |s.comps|
  {
    s.(comps := s.comps[c := x])
  }

  // Frees the pairs `gone`: they leave their list, the queue and the pair table.
  function RemovePairs(s: State, gone: set<PairId>): (t: State)
    ensures SameBase(s, t)
  {
    s.(pairs := s.pairs - gone,
       lists := seq(|s.lists|, n requires 0 <= n < |s.lists| => FilterOut(s.lists[n], gone)),
       queue := FilterOut(s.queue, gone))
  }

  // g_slist_insert_sorted with conn_check_compare: before the first element of no higher priority.
  function InsertSorted(xs: seq<PairId>, id: PairId, pairs: map<PairId, Pair>): seq<PairId> {
    if xs != [] && id in pairs && xs[0] in pairs && pairs[id].priority < pairs[xs[0]].priority
    then [xs[0]] + InsertSorted(xs[1..], id, pairs)
    else [id] + xs
  }

  // g_slist_sort with conn_check_compare: a stable sort.
  function StableSort(xs: seq<PairId>, pairs: map<PairId, Pair>): seq<PairId> {
    if xs == [] then [] else InsertSorted(StableSort(xs[1..], pairs), xs[0], pairs)
  }

  function Enqueue(s: State, id: PairId): State {
    if id in s.queue then s else s.(queue := s.queue + [id], timerOn := true)
  }

  function Dequeue(s: State, id: PairId): State {
    s.(queue := FilterOut(s.queue, {id}))
  }

  // ----- unfreezing

  function Flat(lists: seq<seq<PairId>>): seq<PairId> {
    if lists == [] then [] else lists[0] + Flat(lists[1..])
  }

  // Unfreezes, along `ids`, the first FROZEN pair of each foundation not yet in `seen`.
  function UnfreezeAlong(pairs: map<PairId, Pair>, ids: seq<PairId>, seen: set<string>): map<PairId, Pair> {
    if ids == [] then pairs
    else if ids[0] in pairs && pairs[ids[0]].foundation !in seen && pairs[ids[0]].state.Frozen? then
      UnfreezeAlong(pairs[ids[0] := pairs[ids[0]].(state := Waiting)], ids[1..], seen + {pairs[ids[0]].foundation})
    else UnfreezeAlong(pairs, ids[1..], seen)
  }

  predicate SomeWaiting(s: State) {
    exists id :: id in s.pairs && s.pairs[id].state.Waiting?
  }

  function UnfreezeNext(s: State): (t: State)
    ensures SameBase(s, t)
  {
    if SomeWaiting(s) then s
    else s.(pairs := UnfreezeAlong(s.pairs, Flat(s.lists), {}))
  }

  function Thaw(p: Pair, foundation: string): Pair {
    if p.state.Frozen? && p.foundation == foundation then p.(state := Waiting) else p
  }

  function UnfreezeRelated(s: State, foundation: string): (t: State)
    ensures SameBase(s, t)
  {
    s.(pairs := map id | id in s.pairs :: Thaw(s.pairs[id], foundation))
  }

  predicate HasSucceeded(pairs: map<PairId, Pair>, foundation: string) {
    exists id :: id in pairs && pairs[id].state.Succeeded? && pairs[id].foundation == foundation
  }

  // A FROZEN pair does not wait for a foundation that has already succeeded.
  function UnfreezeMaybe(pairs: map<PairId, Pair>, p: Pair): Pair {
    if p.state.Frozen? && HasSucceeded(pairs, p.foundation) then p.(state := Waiting) else p
  }

  // ----- concluding a component

  // Called once a pair of component `c` is nominated: these pairs are freed ...
  predicate PruneDrops(s: State, c: nat, id: PairId)
    requires c < |s.comps| && id in s.pairs
  {
    var p := s.pairs[id];
    p.comp == c &&
    if id in s.queue && !p.state.InProgress? then p.priority < s.comps[c].selPriority else Pending(p)
  }

  // ... these keep the component from concluding ...
  predicate PruneCounts(s: State, c: nat, id: PairId)
    requires c < |s.comps| && id in s.pairs
  {
    var p := s.pairs[id];
    p.comp == c && (id in s.queue || p.state.InProgress?) && p.priority >= s.comps[c].selPriority
  }

  // ... and these are merely no longer retransmitted.
  predicate PruneSilences(s: State, c: nat, id: PairId)
    requires c < |s.comps| && id in s.pairs
  {
    var p := s.pairs[id];
    p.comp == c && p.state.InProgress? && p.priority < s.comps[c].selPriority
  }

  function PrunedPair(s: State, c: nat, id: PairId): Pair
    requires c < |s.comps| && id in s.pairs
  {
    var p := s.pairs[id];
    if PruneSilences(s, c, id) then p.(retransmit := false)
    else if p.comp == c && p.state.InProgress? && p.stun != [] then p.(retransmit := true)
    else p
  }

  // The pairs that stay get their retransmission flag; the silenced ones leave the queue.
  function Silenced(s: State, c: nat): (t: State)
    requires c < |s.comps|
  {
    var quiet := set id | id in s.pairs && PruneSilences(s, c, id);
    s.(pairs := map id | id in s.pairs :: PrunedPair(s, c, id), queue := FilterOut(s.queue, quiet))
  }

  function PruneGone(s: State, c: nat): set<PairId>
    requires c < |s.comps|
  {
    set id | id in s.pairs && PruneDrops(s, c, id)
  }

  function PrunePending(s: State, c: nat): (t: State)
    requires c < |s.comps|
    ensures SameBase(s, t) && t.comps == s.comps
  {
    RemovePairs(Silenced(s, c), PruneGone(s, c))
  }

  predicate HasValidNominated(s: State, c: nat) {
    exists id :: id in s.pairs && s.pairs[id].comp == c && s.pairs[id].valid && s.pairs[id].nominated
  }

  // CONNECTING, CONNECTED, READY: the progression shown to the client.
  function ConcludeReady(s: State, c: nat): (t: State)
    requires c < |s.comps|
    ensures SameBase(s, t) && t.pairs == s.pairs && t.queue == s.queue
    ensures t.comps[c].selPriority == s.comps[c].selPriority
  {
    var s1 := if s.comps[c].state in {Disconnected, Gathering, Failed} then Signal(s, c, Connecting) else s;
    var s2 := if s1.comps[c].state in {Disconnected, Gathering, Connecting} then Signal(s1, c, Connected) else s1;
    Signal(s2, c, Ready)
  }

  function UpdateForReady(s: State, c: nat): (t: State)
    requires c < |s.comps|
    ensures SameBase(s, t)
  {
    if !HasValidNominated(s, c) then s
    else if s.comps[c].selPriority == 0 then Faulted(s, ZeroSelectedPriority)
    else if exists id :: id in s.pairs && PruneCounts(s, c, id) then PrunePending(s, c)
    else ConcludeReady(PrunePending(s, c), c)
  }

  // conn_check_update_selected_pair: strictly higher priority wins.
  function UpdateSelected(s: State, c: nat, id: PairId): (t: State)
    requires c < |s.comps| && id in s.pairs
    ensures SameBase(s, t)
  {
    var p := s.pairs[id];
    if p.priority > s.comps[c].selPriority
    then SetComp(s, c, s.comps[c].(selLocal := Some(p.local), selRemote := Some(p.remote), selPriority := p.priority))
    else s
  }

  // ----- failing a pair

  function FailPair(s: State, id: PairId): (t: State)
    requires id in s.pairs
    ensures SameBase(s, t)
  {
    var p := s.pairs[id];
    var s1 := SetPair(s, id, p.(state := FailedCheck, stun := [], retransmit := false));
    if p.discovered.Some? && p.discovered.value in s1.pairs
    then SetPair(s1, p.discovered.value, s1.pairs[p.discovered.value].(state := FailedCheck))
    else s1
  }

  // ----- creating pairs

  function LimitDrops(s: State, n: nat): set<PairId>
    requires n < |s.lists|
  {
    var xs := s.lists[n];
    set i | 0 <= i < |xs| && xs[i] in s.pairs &&
            ((i + 1 > s.cfg.maxChecks && s.pairs[xs[i]].state.Frozen?) || s.pairs[xs[i]].state.FailedCheck?) :: xs[i]
  }

  predicate CanPair(s: State, c: nat, l: CandId, r: CandId) {
    HasComp(s, c) && l in s.comps[c].locals && l in s.cands && r in s.cands && s.cands[l].isLocal && s.cands[l].owner == c
  }

  function NewPair(s: State, c: nat, l: CandId, r: CandId, initial: CheckState): Pair
    requires CanPair(s, c, l, r)
  {
    var lc, rc := s.cands[l], s.cands[r];
    Pair(c, l, r, if lc.transport.TcpPassive? && rc.kind.PeerReflexive? then rc.sock else lc.sock,
         lc.foundation + ":" + rc.foundation, initial, false, false, false, false, false, None, None,
         AgentPairPriority(s.controlling, lc.priority, rc.priority), [])
  }

  // Puts a new pair in its list.
  function Listed(s: State, p: Pair): (t: State)
    requires HasComp(s, p.comp)
    ensures SameShape(s, t) && t.comps == s.comps && s.nextPair in t.pairs
  {
    var n := s.comps[p.comp].stream;
    var pairs := s.pairs[s.nextPair := p];
    s.(pairs := pairs, lists := s.lists[n := InsertSorted(s.lists[n], s.nextPair, pairs)],
       nextPair := s.nextPair + 1)
  }

  function Admitted(s: State, p: Pair): (t: State)
    requires HasComp(s, p.comp)
    ensures SameShape(s, t) && t.comps == s.comps && s.nextPair in t.pairs
  {
    Listed(s, UnfreezeMaybe(s.pairs, p)).(timerOn := true)
  }

  function AddNewCheckPair(s: State, c: nat, l: CandId, r: CandId, initial: CheckState): (State, Option<PairId>)
    requires CanPair(s, c, l, r)
  {
    var p := NewPair(s, c, l, r, initial);
    if s.comps[c].selPriority > 0 && p.priority < s.comps[c].selPriority then (s, None)
    else
      var s1 := Admitted(s, p);
      var gone := LimitDrops(s1, s.comps[c].stream);
      (RemovePairs(s1, gone), if s.nextPair in gone then None else Some(s.nextPair))
  }

  function AddPairMatched(s: State, c: nat, l: CandId, r: CandId, initial: CheckState): (State, Option<PairId>)
    requires CanPair(s, c, l, r)
  {
    var (s1, made) := AddNewCheckPair(s, c, l, r, initial);
    if made.None? then (s1, made)
    else (Signal(s1, c, if s.comps[c].state in {Connected, Ready} then Connected else Connecting), made)
  }

  // ----- inbound checks

  // The parent of a discovered pair, when it is still there.
  function Parent(s: State, id: PairId): PairId
    requires id in s.pairs
  {
    var p := s.pairs[id];
    if p.succeeded.Some? && p.succeeded.value in s.pairs then p.succeeded.value else id
  }

  function TriggerPair(s: State, c: nat, id: PairId): (t: State)
    requires c < |s.comps| && id in s.pairs
    ensures SameBase(s, t)
  {
    var p := s.pairs[id];
    match p.state
    case Waiting => Enqueue(s, id)
    case Frozen => Enqueue(s, id)
    case InProgress => if p.priority > s.comps[c].selPriority then Enqueue(s, id) else s
    case FailedCheck =>
      if p.priority > s.comps[c].selPriority then
        var s1 := Enqueue(s, id);
        if s.comps[c].state.Failed? then Signal(s1, c, Connecting)
        else if s.comps[c].state.Ready? then Signal(s1, c, Connected)
        else s1
      else s
    case Succeeded => s
    case Discovered => s
  }

  function MatchingPair(s: State, c: nat, sock: Option<nat>, r: CandId): Option<PairId>
    requires HasComp(s, c)
  {
    First(StreamList(s, c),
          id => id in s.pairs && s.pairs[id].comp == c && s.pairs[id].remote == r && s.pairs[id].sock == sock)
  }

  function LocalOnSocket(s: State, c: nat, sock: Option<nat>): Option<CandId>
    requires c < |s.comps|
  {
    First(s.comps[c].locals, k => k in s.cands && s.cands[k].sock == sock)
  }

  function ScheduleTriggered(s: State, c: nat, sock: Option<nat>, r: CandId): State
    requires HasComp(s, c) && r in s.cands
  {
    var found := MatchingPair(s, c, sock, r);
    if found.Some? then TriggerPair(s, c, Parent(s, found.value))
    else
      var local := LocalOnSocket(s, c, sock);
      if local.None? || !CanPair(s, c, local.value, r) then s
      else
        var (s1, made) := AddPairMatched(s, c, local.value, r, Waiting);
        if made.Some? then Enqueue(s1, made.value) else s1
  }

  // A valid pair becomes nominated, maybe selected, and the component CONNECTED.
  function NominateValid(s: State, c: nat, q: PairId): (t: State)
    requires HasComp(s, c) && q in s.pairs
    ensures SameBase(s, t)
  {
    var s1 := if s.comps[c].state.Failed? then Signal(s, c, Connecting) else s;
    var s2 := UpdateSelected(s1, c, q);
    var s3 := if s2.comps[c].state.Connecting? then Signal(s2, c, Connected) else s2;
    SetPair(s3, q, s3.pairs[q].(nominated := true))
  }

  // The pair an inbound nomination of `id` is about: the pair it discovered, if any.
  function NominationTarget(s: State, id: PairId): (q: PairId)
    requires id in s.pairs
    ensures q in s.pairs
  {
    var p := s.pairs[id];
    if p.state.Succeeded? && p.discovered.Some? && p.discovered.value in s.pairs then p.discovered.value else id
  }

  // The remote agent nominated the pair `id`.
  function MarkOne(s: State, c: nat, id: PairId): (t: State)
    requires HasComp(s, c) && id in s.pairs
    ensures SameBase(s, t)
  {
    var q := NominationTarget(s, id);
    var s1 := if q in s.queue || s.pairs[q].state.InProgress?
              then SetPair(s, q, s.pairs[q].(markNominated := true)) else s;
    var s2 := if s.pairs[q].valid then NominateValid(s1, c, q) else s1;
    if s.pairs[q].valid || s.pairs[q].nominated then UpdateForReady(s2, c) else s2
  }

  function MarkAlong(s: State, c: nat, l: CandId, r: CandId, ids: seq<PairId>): (t: State)
    requires HasComp(s, c)
    ensures SameBase(s, t)
    decreases |ids|
  {
    if ids == [] then s
    else
      var s1 := if ids[0] in s.pairs && s.pairs[ids[0]].local == l && s.pairs[ids[0]].remote == r
                then MarkOne(s, c, ids[0]) else s;
      MarkAlong(s1, c, l, r, ids[1..])
  }

  function MarkNominated(s: State, c: nat, l: CandId, r: CandId): State
    requires HasComp(s, c)
  {
    if s.controlling then s else MarkAlong(s, c, l, r, StreamList(s, c))
  }

  // ----- roles

  function Reprice(p: Pair, cands: map<CandId, Candidate>, controlling: bool): Pair {
    if p.local in cands && p.remote in cands then p.(priority := Formula(p, cands, controlling)) else p
  }

  function Repriced(s: State): map<PairId, Pair> {
    map id | id in s.pairs :: Reprice(s.pairs[id], s.cands, s.controlling)
  }

  function Recalculate(s: State): (t: State)
    ensures SameShape(s, t)
  {
    var pairs := Repriced(s);
    s.(pairs := pairs,
       lists := seq(|s.lists|, n requires 0 <= n < |s.lists| => StableSort(s.lists[n], pairs)))
  }

  function CheckForRoleConflict(s: State, control: bool): (t: State)
    ensures SameShape(s, t)
  {
    if control != s.controlling then Recalculate(s.(controlling := control)) else s
  }

  // The "controlling-mode" property: only while every component is DISCONNECTED.
  function SetRole(s: State, control: bool): State {
    if forall c :: 0 <= c < |s.comps| ==> s.comps[c].state.Disconnected? then s.(controlling := control) else s
  }

  // ----- replies to our checks

  datatype Mapped =
    | NoAddress
    | Known(local: CandId)
    | Unknown(learned: Candidate)

  datatype Reply =
    | Success(sourceOk: bool, remote: Option<CandId>, mapped: Mapped)
    | RoleConflict
    | StunError

  function DropStun(s: State, id: PairId, k: nat): (t: State)
    requires id in s.pairs && k < |s.pairs[id].stun|
    ensures SameBase(s, t)
  {
    var p := s.pairs[id];
    var rest := p.stun[..k] + p.stun[k + 1..];
    SetPair(s, id, p.(stun := rest, retransmit := p.retransmit && rest != []))
  }

  // The check of `id` succeeded; its other transactions are forgotten.
  function Succeed(s: State, id: PairId): (t: State)
    requires id in s.pairs
    ensures SameBase(s, t) && t.pairs.Keys == s.pairs.Keys && t.pairs[id].comp == s.pairs[id].comp
  {
    Dequeue(SetPair(s, id, s.pairs[id].(state := Succeeded, stun := [], retransmit := false)), id)
  }

  // The valid pair discovered by a check of `parent`.
  function DiscoveredPair(s: State, l: CandId, parent: PairId): Pair
    requires parent in s.pairs && l in s.cands && s.pairs[parent].remote in s.cands
  {
    var p := s.pairs[parent];
    var lc, rc := s.cands[l], s.cands[p.remote];
    Pair(p.comp, l, p.remote, lc.sock, lc.foundation + ":" + rc.foundation, Discovered,
         p.nominated, true, false, false, false, None, Some(parent),
         AgentPairPriority(s.controlling, lc.priority, rc.priority), [])
  }

  function AddPeerReflexive(s: State, l: CandId, parent: PairId): (t: State)
    requires parent in s.pairs && HasComp(s, s.pairs[parent].comp)
    requires l in s.cands && s.pairs[parent].remote in s.cands
    ensures SameShape(s, t) && t.comps == s.comps && parent in t.pairs && s.nextPair in t.pairs
    ensures t.pairs[parent].comp == s.pairs[parent].comp
  {
    SetPair(Listed(s, DiscoveredPair(s, l, parent)), parent, s.pairs[parent].(discovered := Some(s.nextPair)))
  }

  function LearnLocal(s: State, c: nat, k: Candidate): (t: State)
    requires c < |s.comps|
    ensures SameShape(s, t)
  {
    SetComp(s, c, s.comps[c].(locals := s.comps[c].locals + [s.nextCand]))
      .(cands := s.cands[s.nextCand := k], nextCand := s.nextCand + 1)
  }

  predicate MappedOk(s: State, c: nat, m: Mapped) {
    match m
    case NoAddress => true
    case Known(l) => c < |s.comps| && l in s.comps[c].locals && l in s.cands && s.cands[l].isLocal && s.cands[l].owner == c
    case Unknown(k) => k.isLocal && k.owner == c && 1 <= k.priority < TWO_31
  }

  /** A response to a transaction of pair `id`, as the dispatcher hands it over. */
  predicate ReplyOk(s: State, id: PairId, k: nat, reply: Reply) {
    && id in s.pairs && k < |s.pairs[id].stun|
    && HasComp(s, s.pairs[id].comp)
    && s.pairs[id].remote in s.cands
    && (reply.Success? ==>
          && (reply.remote.Some? ==> reply.remote.value in s.cands)
          && MappedOk(s, s.pairs[id].comp, reply.mapped))
  }

  // The listed pair with the mapped local candidate and the remote candidate of the response.
  function MappedPair(s: State, c: nat, r: CandId, m: Mapped): Option<PairId>
    requires HasComp(s, c)
  {
    if m.Known?
    then First(StreamList(s, c), q => q in s.pairs && s.pairs[q].local == m.local && s.pairs[q].remote == r)
    else None
  }

  // priv_process_response_check_for_reflexive: the new state and the valid pair, if any.
  function ProcessResponse(s: State, id: PairId, r: CandId, m: Mapped): (t: (State, Option<PairId>))
    requires id in s.pairs && HasComp(s, s.pairs[id].comp) && s.pairs[id].remote in s.cands
    requires MappedOk(s, s.pairs[id].comp, m) && !m.NoAddress?
    ensures SameShape(s, t.0) && id in t.0.pairs && t.0.pairs[id].comp == s.pairs[id].comp
    ensures t.1.Some? ==> t.1.value in t.0.pairs
  {
    var found := MappedPair(s, s.pairs[id].comp, r, m);
    if found.Some? then (Succeed(Confirm(s, id, found.value), id), found)
    else if m.Unknown? && s.cfg.forceRelay then (Succeed(s, id), None)
    else (Succeed(Discover(s, id, m), id), Some(s.nextPair))
  }

  // The response maps to the listed pair `q`.
  function Confirm(s: State, id: PairId, q: PairId): (t: State)
    requires id in s.pairs && q in s.pairs
    ensures SameBase(s, t) && t.pairs.Keys == s.pairs.Keys && t.pairs[id].comp == s.pairs[id].comp
  {
    if q == id then SetPair(s, id, s.pairs[id].(valid := true)) else SetPair(s, q, s.pairs[q].(state := Discovered))
  }

  // The response maps to no listed pair: one is made, after learning the local candidate if it is new.
  function Discover(s: State, id: PairId, m: Mapped): (t: State)
    requires id in s.pairs && HasComp(s, s.pairs[id].comp) && s.pairs[id].remote in s.cands
    requires MappedOk(s, s.pairs[id].comp, m) && !m.NoAddress?
    ensures SameShape(s, t) && id in t.pairs && s.nextPair in t.pairs && t.pairs[id].comp == s.pairs[id].comp
  {
    if m.Known? then AddPeerReflexive(s, m.local, id)
    else AddPeerReflexive(LearnLocal(s, s.pairs[id].comp, m.learned), s.nextCand, id)
  }

  // Which flag of the checked pair makes the valid pair nominated.
  predicate Nominates(s: State, p: Pair) {
    if s.controlling then (if s.cfg.regular then p.useCandidate else !p.nominated) else p.markNominated
  }

  // The valid pair `ok` is nominated: it may become the selected pair, and the component CONNECTED.
  function NominateOk(s: State, c: nat, ok: PairId): (t: State)
    requires ok in s.pairs && HasComp(s, c)
    ensures SameBase(s, t)
  {
    var s1 := UpdateSelected(s, c, ok);
    var s2 := if !s1.comps[c].state.Ready? then Signal(s1, c, Connected) else s1;
    SetPair(s2, ok, s2.pairs[ok].(nominated := true))
  }

  // The tail of a successful reply: `id` was checked, `ok` is the valid pair.
  function FinishReply(s: State, id: PairId, ok: PairId): (t: State)
    requires id in s.pairs && ok in s.pairs && HasComp(s, s.pairs[id].comp)
    ensures SameBase(s, t)
  {
    var c := s.pairs[id].comp;
    if Nominates(s, s.pairs[id]) || s.pairs[ok].nominated then UpdateForReady(NominateOk(s, c, ok), c)
    else UpdateForReady(s, c)
  }

  // The state and valid pair from which FinishReply runs.
  function Answered(s: State, id: PairId, r: CandId, m: Mapped): (t: (State, PairId))
    requires id in s.pairs && HasComp(s, s.pairs[id].comp) && s.pairs[id].remote in s.cands
    requires MappedOk(s, s.pairs[id].comp, m)
    ensures SameShape(s, t.0) && id in t.0.pairs && t.1 in t.0.pairs
    ensures t.0.pairs[id].comp == s.pairs[id].comp
  {
    var (s1, found) := if m.NoAddress?
                       then (SetPair(s, id, s.pairs[id].(state := Succeeded, valid := true)), None)
                       else ProcessResponse(s, id, r, m);
    (UnfreezeRelated(s1, s.pairs[id].foundation), if found.Some? then found.value else id)
  }

  function HandleReply(s: State, id: PairId, k: nat, reply: Reply): State
    requires ReplyOk(s, id, k, reply)
  {
    var c := s.pairs[id].comp;
    match reply
    case Success(sourceOk, remote, m) =>
      var s1 := DropStun(s, id, k);
      if !sourceOk || remote.None? then UpdateForReady(FailPair(s1, id), c)
      else
        var (s2, ok) := Answered(s1, id, remote.value, m);
        FinishReply(s2, id, ok)
    case RoleConflict =>
      if !s.pairs[id].retransmit then s
      else
        var s1 := CheckForRoleConflict(s, !s.pairs[id].stun[k].sentControlling);
        Enqueue(DropStun(s1, id, k), id)
    case StunError => UpdateForReady(FailPair(s, id), c)
  }

  // ----- an updated remote candidate

  function RenameAlong(s: State, c: nat, r: CandId, ids: seq<PairId>): (t: State)
    requires c < |s.comps|
    ensures SameBase(s, t)
    decreases |ids|
  {
    if ids == [] then s
    else RenameAlong(if ids[0] in s.pairs then RenameOne(s, c, r, ids[0]) else s, c, r, ids[1..])
  }

  function NewFoundation(s: State, p: Pair): string {
    if p.local in s.cands && p.remote in s.cands
    then s.cands[p.local].foundation + ":" + s.cands[p.remote].foundation else p.foundation
  }

  function RenameOne(s: State, c: nat, r: CandId, id: PairId): (t: State)
    requires c < |s.comps| && id in s.pairs
    ensures SameBase(s, t)
  {
    var p := s.pairs[id];
    var f := NewFoundation(s, p);
    if p.remote != r || f == p.foundation then s
    else
      var s1 := SetPair(s, id, p.(foundation := f));
      var s2 := if p.state.Succeeded? then UnfreezeRelated(s1, f) else s1;
      if s.comps[c].selLocal == Some(p.local) && s.comps[c].selRemote == Some(p.remote)
      then SetComp(s2, c, s2.comps[c].(selPriority := p.priority)) else s2
  }

  function HighestNominated(s: State, c: nat): Option<PairId>
    requires HasComp(s, c)
  {
    First(StreamList(s, c), id => id in s.pairs && s.pairs[id].comp == c && s.pairs[id].nominated)
  }

  // The updated remote candidate; a peer-reflexive one takes the signalled kind and loses its socket.
  function NewRemote(k: Candidate, priority: nat, foundation: string, kind: CandidateType): Candidate {
    k.(priority := priority, foundation := foundation,
       kind := if k.kind.PeerReflexive? then kind else k.kind,
       sock := if k.kind.PeerReflexive? then None else k.sock)
  }

  // Another nominated pair may now be the best one: the selection is updated, never made.
  function Reselected(s: State, c: nat): (t: State)
    requires HasComp(s, c)
    ensures SameBase(s, t)
  {
    var top := HighestNominated(s, c);
    if top.None? || (s.comps[c].selLocal == Some(s.pairs[top.value].local) &&
                     s.comps[c].selRemote == Some(s.pairs[top.value].remote)) then s
    else if s.comps[c].selLocal.None? || s.comps[c].selRemote.None? then Faulted(s, SelectionMissing)
    else UpdateSelected(s, c, top.value)
  }

  // The state once every pair of the updated candidate has its new priority and foundation.
  function Renamed(s: State, c: nat, r: CandId, k: Candidate): (t: State)
    requires HasComp(s, c)
    ensures SameShape(s, t)
  {
    var s1 := Recalculate(s.(cands := s.cands[r := k]));
    RenameAlong(s1, c, r, StreamList(s1, c))
  }

  function UpdateRemote(s: State, c: nat, r: CandId, priority: nat, foundation: string, kind: CandidateType): State
    requires HasComp(s, c) && r in s.cands && !s.cands[r].isLocal
    requires 0 < priority < TWO_32
  {
    UpdateForReady(Reselected(Renamed(s, c, r, NewRemote(s.cands[r], priority, foundation, kind)), c), c)
  }

  // ----- sockets, manual selection, restart, gathering

  predicate OnSocket(s: State, p: Pair, sock: nat) {
    || (p.local in s.cands && s.cands[p.local].sock == Some(sock))
    || (p.remote in s.cands && s.cands[p.remote].sock == Some(sock))
    || p.sock == Some(sock)
  }

  datatype SocketScan = SocketScan(s: State, selFailed: bool, pairFailed: bool, kept: nat, nominated: nat)

  function ScanOne(x: SocketScan, c: nat, sock: nat, id: PairId): (y: SocketScan)
    requires c < |x.s.comps| && id in x.s.pairs
    ensures y.s.comps == x.s.comps && SameBase(x.s, y.s)
  {
    var p := x.s.pairs[id];
    if p.comp != c then x
    else
      var s1 := if x.selFailed && p.stun != [] then SetPair(x.s, id, p.(retransmit := true)) else x.s;
      if OnSocket(s1, p, sock) then
        SocketScan(RemovePairs(FailPair(s1, id), {id}),
                   x.selFailed || (s1.comps[c].selLocal == Some(p.local) && s1.comps[c].selRemote == Some(p.remote)),
                   true, x.kept, x.nominated)
      else SocketScan(s1, x.selFailed, x.pairFailed, x.kept + 1, x.nominated + if p.nominated then 1 else 0)
  }

  function ScanAlong(x: SocketScan, c: nat, sock: nat, ids: seq<PairId>): (y: SocketScan)
    requires c < |x.s.comps|
    ensures y.s.comps == x.s.comps && SameBase(x.s, y.s)
    decreases |ids|
  {
    if ids == [] then x
    else ScanAlong(if ids[0] in x.s.pairs then ScanOne(x, c, sock, ids[0]) else x, c, sock, ids[1..])
  }

  // A selected pair was lost: READY fails, CONNECTED starts over.
  function StepDown(s: State, c: nat): (t: State)
    requires c < |s.comps|
    ensures SameBase(s, t)
  {
    if s.comps[c].state.Ready? then Signal(s, c, Failed)
    else if s.comps[c].state.Connected? then Signal(s, c, Connecting)
    else s
  }

  function PruneSocket(s: State, c: nat, sock: nat): (t: State)
    requires HasComp(s, c)
    ensures SameBase(s, t)
  {
    var k := s.comps[c].selLocal;
    var lost := k.Some? && k.value in s.cands && s.cands[k.value].sock == Some(sock);
    var s1 := if lost then StepDown(s, c) else s;
    var x := ScanAlong(SocketScan(s1, lost, false, 0, 0), c, sock, StreamList(s1, c));
    if !x.pairFailed then x.s
    else
      var s2 := if x.kept == 0 then Signal(x.s, c, Failed)
                else if x.nominated == 0 then StepDown(x.s, c) else x.s;
      UpdateForReady(s2, c)
  }

  function ClearSelected(s: State, c: nat): (t: State)
    requires c < |s.comps|
    ensures SameBase(s, t)
  {
    SetComp(s, c, s.comps[c].(selLocal := None, selRemote := None, selPriority := 0))
  }

  // Local candidate `l` goes with the socket `lost` when its own socket is that one or based on it.
  predicate BasedOn(s: State, l: CandId, lost: nat, based: set<nat>) {
    l in s.cands && s.cands[l].sock.Some? && (s.cands[l].sock.value == lost || s.cands[l].sock.value in based)
  }

  function DropLocal(s: State, c: nat, l: CandId, lost: nat, based: set<nat>): (t: State)
    requires HasComp(s, c)
    ensures SameBase(s, t)
  {
    if !BasedOn(s, l, lost, based) then s
    else
      var s1 := if s.comps[c].selLocal == Some(l) then ClearSelected(s, c) else s;
      var s2 := if s.cands[l].sock.value != lost then PruneSocket(s1, c, s.cands[l].sock.value) else s1;
      SetComp(s2, c, s2.comps[c].(locals := FilterOut(s2.comps[c].locals, {l})))
  }

  function DropLocals(s: State, c: nat, ls: seq<CandId>, lost: nat, based: set<nat>): (t: State)
    requires HasComp(s, c)
    ensures SameBase(s, t)
    decreases |ls|
  {
    if ls == [] then s else DropLocals(DropLocal(s, c, ls[0], lost, based), c, ls[1..], lost, based)
  }

  predicate OnLost(s: State, r: CandId, lost: nat) {
    r in s.cands && s.cands[r].sock == Some(lost)
  }

  function DropRemote(s: State, c: nat, r: CandId, lost: nat): (t: State)
    requires HasComp(s, c)
    ensures SameBase(s, t)
  {
    if !OnLost(s, r, lost) then s
    else
      var s1 := if s.comps[c].selRemote == Some(r) then ClearSelected(s, c) else s;
      var s2 := PruneSocket(s1, c, lost);
      SetComp(s2, c, s2.comps[c].(remotes := FilterOut(s2.comps[c].remotes, {r})))
  }

  function DropRemotes(s: State, c: nat, rs: seq<CandId>, lost: nat): (t: State)
    requires HasComp(s, c)
    ensures SameBase(s, t)
    decreases |rs|
  {
    if rs == [] then s else DropRemotes(DropRemote(s, c, rs[0], lost), c, rs[1..], lost)
  }

  // nice_component_remove_socket; `based` are the sockets that run over `lost`.
  function RemoveSocket(s: State, c: nat, lost: nat, based: set<nat>): (t: State)
    requires HasComp(s, c)
    ensures SameBase(s, t)
  {
    var s1 := PruneSocket(s, c, lost);
    var s2 := DropLocals(s1, c, s1.comps[c].locals, lost, based);
    DropRemotes(s2, c, s2.comps[c].remotes, lost)
  }

  // A 403 response from the address of the remote candidates `from`: their pairs in the stream fail.
  function FailAlong(s: State, from: set<CandId>, ids: seq<PairId>): (t: State)
    ensures SameBase(s, t) && t.comps == s.comps && t.pairs.Keys == s.pairs.Keys
    decreases |ids|
  {
    if ids == [] then s
    else FailAlong(if ids[0] in s.pairs && s.pairs[ids[0]].remote in from then FailPair(s, ids[0]) else s, from, ids[1..])
  }

  function Forbidden(s: State, c: nat, from: set<CandId>): (t: State)
    requires HasComp(s, c) && s.comps[c].selRemote.Some?
    ensures SameBase(s, t)
  {
    var s1 := FailAlong(s, from, StreamList(s, c));
    if s.comps[c].selRemote.value in from then Signal(s1, c, Failed) else s1
  }

  function Members(ids: seq<PairId>): set<PairId> {
    set id | id in ids
  }

  function PruneStream(s: State, n: nat): (t: State)
    requires n < |s.lists|
    ensures SameShape(s, t) && t.cands == s.cands
  {
    var s1 := RemovePairs(s, Members(s.lists[n]));
    if exists m :: 0 <= m < |s1.lists| && s1.lists[m] != [] then s1 else s1.(timerOn := false, idleDelay := 0)
  }

  function SetSelected(s: State, c: nat, l: CandId, r: CandId): State
    requires CanPair(s, c, l, r)
  {
    var s1 := ConcludeReady(PruneStream(s, s.comps[c].stream), c);
    SetComp(s1, c, s1.comps[c].(selLocal := Some(l), selRemote := Some(r),
                                selPriority := AgentPairPriority(s.controlling, s.cands[l].priority, s.cands[r].priority)))
  }

  function RestartedComp(x: Component, n: nat): Component {
    if x.stream == n then x.(selPriority := 0, remotes := [], state := Gathering) else x
  }

  function Restart(s: State, n: nat): State
    requires n < |s.lists|
  {
    var s1 := PruneStream(s, n);
    s1.(comps := seq(|s1.comps|, c requires 0 <= c < |s1.comps| => RestartedComp(s1.comps[c], n)))
  }

  function Gather(s: State, c: nat): State
    requires c < |s.comps|
  {
    if s.comps[c].state in {Disconnected, Failed} then Signal(s, c, Gathering) else s
  }

  function AddStream(s: State, components: nat): State {
    s.(lists := s.lists + [[]],
       comps := s.comps + seq(components, i => Component(|s.lists|, Disconnected, None, None, 0, [], [])))
  }

  // A candidate gathered or learned, local or remote.
  function AddCandidate(s: State, k: Candidate): State {
    var s1 := s.(cands := s.cands[s.nextCand := k], nextCand := s.nextCand + 1);
    if k.owner >= |s.comps| then s1
    else if k.isLocal then SetComp(s1, k.owner, s1.comps[k.owner].(locals := s1.comps[k.owner].locals + [s.nextCand]))
    else SetComp(s1, k.owner, s1.comps[k.owner].(remotes := s1.comps[k.owner].remotes + [s.nextCand]))
  }
}
