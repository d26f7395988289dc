/** The state of the ICE connectivity-check machine of one agent.

Candidate pairs live in `pairs`, keyed by an identity that is never reused; a check list is the
sequence of the identities of one stream in list order. Components of all streams are numbered
together and know their stream. Sockets are opaque numbers. A failed `g_assert` is a `fault`.
*/
module ConnCheckState {
  import opened Basics
  import opened CandidatePriority

  type PairId = nat
  type CandId = nat

  datatype CheckState = Waiting | InProgress | Succeeded | FailedCheck | Frozen | Discovered

  datatype ComponentState = Disconnected | Gathering | Connecting | Connected | Ready | Failed

  /** `owner` is the component a candidate was gathered or learned for. */
  datatype Candidate = Candidate(
    owner: nat, isLocal: bool, kind: CandidateType, transport: Transport,
    priority: nat, foundation: string, sock: Option<nat>, ip: nat)

  /** One STUN request in flight. The STUN timer itself expires at `deadline`; the check list looks
      at it from `nextTick` on. `left` bounds the retransmissions still to come. */
  datatype Stun = Stun(sentControlling: bool, nextTick: int, deadline: int, left: nat)

  datatype Pair = Pair(
    comp: nat, local: CandId, remote: CandId, sock: Option<nat>, foundation: string,
    state: CheckState, nominated: bool, valid: bool, useCandidate: bool, markNominated: bool,
    retransmit: bool, discovered: Option<PairId>, succeeded: Option<PairId>, priority: nat,
    stun: seq<Stun>)

  datatype Component = Component(
    stream: nat, state: ComponentState, selLocal: Option<CandId>, selRemote: Option<CandId>,
    selPriority: nat, remotes: seq<CandId>, locals: seq<CandId>)

  datatype Config = Config(
    maxChecks: nat, ta: nat, idleTimeout: nat, regular: bool, forceRelay: bool, maxRetransmissions: nat)

  /** A connectivity-check request put on the wire. */
  datatype Sent = Triggered(id: PairId) | Retransmitted(id: PairId) | Ordinary(id: PairId)

  /** Which assertion of the source failed first, if any. */
  datatype Fault = NoFault | IllegalTransition | ZeroSelectedPriority | SelectionMissing | ValidPairNotSucceeded

  datatype State = State(
    pairs: map<PairId, Pair>, lists: seq<seq<PairId>>, comps: seq<Component>, queue: seq<PairId>,
    cands: map<CandId, Candidate>, controlling: bool, nextPair: PairId, nextCand: CandId,
    timerOn: bool, idleDelay: nat, sent: seq<Sent>, fault: Fault, cfg: Config)

  // ----- sequences of identities

  function FilterOut(xs: seq<nat>, gone: set<nat>): (r: seq<nat>) {
    if xs == [] then []
    else if xs[0] in gone then FilterOut(xs[1..], gone)
    else [xs[0]] + FilterOut(xs[1..], gone)
  }

  // The first element that satisfies `p`.
  function First(xs: seq<nat>, p: nat -> bool): (r: Option<nat>)
    ensures r.Some? ==> r.value in xs && p(r.value)
    ensures r.None? ==> forall x :: x in xs ==> !p(x)
  {
    if xs == [] then None
    else if p(xs[0]) then Some(xs[0])
    else First(xs[1..], p)
  }

  lemma {:induction false} FilterOutMembers(xs: seq<nat>, gone: set<nat>)
    ensures forall x :: x in FilterOut(xs, gone) <==> x in xs && x !in gone
  {
    if xs != [] {
      FilterOutMembers(xs[1..], gone);
      assert forall x :: x in xs <==> x == xs[0] || x in xs[1..];
    }
  }

  lemma {:induction false} FilterOutDistinct(xs: seq<nat>, gone: set<nat>)
    requires Distinct(xs)
    ensures Distinct(FilterOut(xs, gone))
  {
    if xs != [] {
      FilterOutDistinct(xs[1..], gone);
      FilterOutMembers(xs[1..], gone);
    }
  }

  lemma {:induction false} FilterOutNothing(xs: seq<nat>, gone: set<nat>)
    requires forall x :: x in xs ==> x !in gone
    ensures FilterOut(xs, gone) == xs
  {
    if xs != [] {
      FilterOutNothing(xs[1..], gone);
    }
  }

  // ----- well-formed states

  predicate HasComp(s: State, c: nat) {
    c < |s.comps| && s.comps[c].stream < |s.lists|
  }

  function StreamList(s: State, c: nat): seq<PairId>
    requires HasComp(s, c)
  {
    s.lists[s.comps[c].stream]
  }

  predicate CompsOk(comps: seq<Component>, streams: nat) {
    forall c :: 0 <= c < |comps| ==> comps[c].stream < streams
  }

  /** Every pair has an owner and stands in the list of its owner's stream. */
  predicate PairsListed(pairs: map<PairId, Pair>, lists: seq<seq<PairId>>, comps: seq<Component>) {
    forall id :: id in pairs ==>
      pairs[id].comp < |comps| && comps[pairs[id].comp].stream < |lists| && id in lists[comps[pairs[id].comp].stream]
  }

  /** A list holds pairs of its own stream, each once. */
  predicate ListsOk(lists: seq<seq<PairId>>, pairs: map<PairId, Pair>, comps: seq<Component>) {
    forall n :: 0 <= n < |lists| ==> ListOk(lists[n], n, pairs, comps)
  }

  predicate ListOk(xs: seq<PairId>, n: nat, pairs: map<PairId, Pair>, comps: seq<Component>) {
    && Distinct(xs)
    && forall id :: id in xs ==> id in pairs && pairs[id].comp < |comps| && comps[pairs[id].comp].stream == n
  }

  predicate CandsOk(cands: map<CandId, Candidate>, nextCand: CandId) {
    forall k :: k in cands ==>
      && k < nextCand && cands[k].priority < TWO_32
      && (cands[k].isLocal ==> 1 <= cands[k].priority < TWO_31)
  }

  /** The candidates of a pair exist and the local one belongs to the pair's component. */
  predicate EndsOk(pairs: map<PairId, Pair>, cands: map<CandId, Candidate>) {
    forall id :: id in pairs ==>
      && pairs[id].local in cands && pairs[id].remote in cands
      && cands[pairs[id].local].isLocal && cands[pairs[id].local].owner == pairs[id].comp
  }

  /** Identities are below the next one, and links stay inside a component. */
  predicate LinksOk(pairs: map<PairId, Pair>, nextPair: PairId) {
    forall id :: id in pairs ==>
      id < nextPair && LinkOk(pairs[id].discovered, pairs[id].comp, pairs, nextPair)
      && LinkOk(pairs[id].succeeded, pairs[id].comp, pairs, nextPair)
  }

  predicate LinkOk(link: Option<PairId>, c: nat, pairs: map<PairId, Pair>, nextPair: PairId) {
    link.Some? ==> link.value < nextPair && (link.value in pairs ==> pairs[link.value].comp == c)
  }

  predicate QueueOk(queue: seq<PairId>, pairs: map<PairId, Pair>) {
    Distinct(queue) && forall id :: id in queue ==> id in pairs
  }

  predicate WellFormed(s: State) {
    && CompsOk(s.comps, |s.lists|)
    && PairsListed(s.pairs, s.lists, s.comps)
    && ListsOk(s.lists, s.pairs, s.comps)
    && CandsOk(s.cands, s.nextCand)
    && EndsOk(s.pairs, s.cands)
    && LinksOk(s.pairs, s.nextPair)
    && QueueOk(s.queue, s.pairs)
  }

  // ----- the invariants of the machine

  predicate SortedBy(xs: seq<PairId>, pairs: map<PairId, Pair>) {
    forall i, j :: 0 <= i < j < |xs| && xs[i] in pairs && xs[j] in pairs ==>
      pairs[xs[i]].priority >= pairs[xs[j]].priority
  }

  /** Every check list is in descending priority order. */
  predicate Sorted(lists: seq<seq<PairId>>, pairs: map<PairId, Pair>) {
    forall n :: 0 <= n < |lists| ==> SortedBy(lists[n], pairs)
  }

  function Formula(p: Pair, cands: map<CandId, Candidate>, controlling: bool): nat
    requires p.local in cands && p.remote in cands
  {
    AgentPairPriority(controlling, cands[p.local].priority, cands[p.remote].priority)
  }

  /** Every pair's priority is the formula for the current role. */
  predicate Priced(pairs: map<PairId, Pair>, cands: map<CandId, Candidate>, controlling: bool) {
    forall id :: id in pairs && pairs[id].local in cands && pairs[id].remote in cands ==>
      pairs[id].priority == Formula(pairs[id], cands, controlling)
  }

  predicate Pending(p: Pair) {
    p.state.Frozen? || p.state.Waiting?
  }

  /** A READY component has no FROZEN or WAITING pair. */
  predicate ReadyIsClean(pairs: map<PairId, Pair>, comps: seq<Component>) {
    forall id :: id in pairs && pairs[id].comp < |comps| && comps[pairs[id].comp].state.Ready? ==> !Pending(pairs[id])
  }

  /** A DISCONNECTED component owns no pair. */
  predicate DisconnectedIsEmpty(pairs: map<PairId, Pair>, comps: seq<Component>) {
    forall id :: id in pairs && pairs[id].comp < |comps| ==> !comps[pairs[id].comp].state.Disconnected?
  }

  predicate Unselected(x: Component) {
    x.selPriority == 0 && x.selLocal.None? && x.selRemote.None?
  }

  /** A selection of non-zero priority has two ends, and a component with a nominated pair has such a
      selection or none at all. */
  predicate SelectionOk(pairs: map<PairId, Pair>, comps: seq<Component>) {
    && (forall c :: 0 <= c < |comps| && comps[c].selPriority > 0 ==> comps[c].selLocal.Some? && comps[c].selRemote.Some?)
    && (forall id :: id in pairs && pairs[id].comp < |comps| && pairs[id].nominated ==>
          comps[pairs[id].comp].selPriority > 0 || Unselected(comps[pairs[id].comp]))
  }

  predicate Inv(s: State) {
    && WellFormed(s)
    && Sorted(s.lists, s.pairs)
    && Priced(s.pairs, s.cands, s.controlling)
    && ReadyIsClean(s.pairs, s.comps)
    && DisconnectedIsEmpty(s.pairs, s.comps)
    && SelectionOk(s.pairs, s.comps)
  }

  /** A component with a nominated pair has a selected pair of non-zero priority. */
  predicate NominatedIsSelected(pairs: map<PairId, Pair>, comps: seq<Component>) {
    forall id :: id in pairs && pairs[id].comp < |comps| && pairs[id].nominated ==>
      comps[pairs[id].comp].selPriority > 0
  }

  /** No FROZEN pair has the foundation of a SUCCEEDED pair, in any stream
      (section 7.2.5.3.3 of RFC 8445). */
  predicate Thawed(pairs: map<PairId, Pair>) {
    forall a, b :: a in pairs && b in pairs && pairs[a].state.Frozen? && pairs[b].state.Succeeded? ==>
      pairs[a].foundation != pairs[b].foundation
  }

  // ----- component states

  /** The transition table asserted by agent_signal_component_state_change. */
  predicate Legal(from: ComponentState, to: ComponentState) {
    || to.Failed?
    || to.Gathering?
    || (from, to) in {
         (Gathering, Connecting), (Connecting, Connected), (Connected, Ready), (Ready, Connected),
         (Failed, Connecting), (Disconnected, Connecting), (Connected, Connecting)}
  }

  function Faulted(s: State, f: Fault): State {
    if s.fault.NoFault? then s.(fault := f) else s
  }

  // Streams and components are the same; only their contents may differ.
  predicate SameShape(s: State, t: State) {
    && |t.lists| == |s.lists| && |t.comps| == |s.comps|
    && forall c :: 0 <= c < |s.comps| ==> t.comps[c].stream == s.comps[c].stream
  }

  // Moreover candidates, role, configuration, idle time and the next identities are untouched ...
  predicate SameCore(s: State, t: State) {
    && SameShape(s, t) && t.cands == s.cands && t.controlling == s.controlling && t.cfg == s.cfg
    && t.nextPair == s.nextPair && t.nextCand == s.nextCand && t.idleDelay == s.idleDelay
  }

  // ... and nothing was sent.
  predicate SameBase(s: State, t: State) {
    SameCore(s, t) && t.sent == s.sent
  }

  function Signal(s: State, c: nat, to: ComponentState): (t: State)
    ensures SameBase(s, t) && t.pairs == s.pairs && t.queue == s.queue && t.lists == s.lists
    ensures forall d :: 0 <= d < |s.comps| ==> t.comps[d].(state := s.comps[d].state) == s.comps[d]
  {
    if c >= |s.comps| || s.comps[c].state == to then s
    else if !Legal(s.comps[c].state, to) then Faulted(s, IllegalTransition)
    else s.(comps := s.comps[c := s.comps[c].(state := to)])
  }
}
