/** One tick of the connectivity-check timer: triggered checks, retransmissions, ordinary checks,
nomination, and the idle count that stops the timer. */
module ConnCheckTick {
  import opened Basics
  import opened ConnCheckState
  import opened ConnCheckSpec

  /** What conn_check_send did: nothing reached the wire, or a request left on `sock`
      whose STUN timer runs for `timeout` and allows `left` retransmissions. */
  datatype SendOutcome = NotSent | SentOn(sock: Option<nat>, timeout: nat, left: nat)

  /** The clock and the foreign answers of one tick. `delay` is the time the STUN timer grants
      after a retransmission, `discovering` says that candidate discovery is still running. */
  datatype TickInput = TickInput(now: int, send: PairId -> SendOutcome, delay: nat, discovering: bool)

  // The wire after a step: one more request if `sent`, none otherwise.
  predicate Wired(s: State, t: State, sent: bool) {
    if sent then |t.sent| == |s.sent| + 1 && t.sent[..|s.sent|] == s.sent else t.sent == s.sent
  }

  // ----- starting a check

  function NewStun(s: State, t: TickInput, timeout: nat, left: nat): Stun {
    Stun(s.controlling, t.now + timeout, t.now + timeout,
         if left < s.cfg.maxRetransmissions then left else s.cfg.maxRetransmissions)
  }

  // The request left: the pair is in progress with one more transaction.
  function Started(s: State, id: PairId, t: TickInput, o: SendOutcome): (r: State)
    requires id in s.pairs && o.SentOn?
    ensures SameBase(s, r)
  {
    var p := s.pairs[id];
    SetPair(s, id, p.(state := InProgress, sock := o.sock, retransmit := true,
                      stun := [NewStun(s, t, o.timeout, o.left)] + p.stun))
  }

  // Nothing could be sent: the pair fails.
  function Rejected(s: State, id: PairId): (r: State)
    requires id in s.pairs && HasComp(s, s.pairs[id].comp)
    ensures SameBase(s, r)
  {
    var p := s.pairs[id];
    UpdateForReady(FailPair(SetPair(s, id, p.(state := InProgress)), id), p.comp)
  }

  function Initiate(s: State, id: PairId, t: TickInput, what: Sent): (r: (State, bool))
    requires id in s.pairs && HasComp(s, s.pairs[id].comp)
    ensures SameCore(s, r.0) && Wired(s, r.0, r.1)
  {
    if t.send(id).NotSent? then (Rejected(s, id), false)
    else (Started(s, id, t, t.send(id)).(sent := s.sent + [what]), true)
  }

  function TriggeredPhase(s: State, streams: nat, t: TickInput): (r: (State, bool))
    ensures SameCore(s, r.0) && Wired(s, r.0, r.1)
    decreases streams
  {
    if streams == 0 || s.queue == [] then (s, false)
    else
      var id := s.queue[0];
      var s1 := Dequeue(s, id);
      if !(id in s.pairs && HasComp(s, s.pairs[id].comp)) then (s1, false)
      else
        var (s2, sent) := Initiate(s1, id, t, Triggered(id));
        if sent then (s2, true) else TriggeredPhase(s2, streams - 1, t)
  }

  // ----- transactions in flight

  datatype TimerAnswer = Timeout | Retransmit(stun: Stun) | Running(stun: Stun)

  // stun_timer_refresh, as its callers rely on it: nothing before the deadline, then at most
  // `left` retransmissions, then a timeout.
  function Refresh(x: Stun, t: TickInput): TimerAnswer {
    if t.now < x.deadline then Running(x.(nextTick := x.deadline))
    else if x.left == 0 then Timeout
    else Retransmit(x.(left := x.left - 1, nextTick := t.now + t.delay, deadline := t.now + t.delay))
  }

  /** The transactions of a pair after the tick, and whether one of them was sent again. */
  datatype StunScan = StunScan(kept: seq<Stun>, resent: bool)

  // Only the newest transaction, at the head, is ever sent again.
  function ScanStun(xs: seq<Stun>, head: bool, retransmit: bool, t: TickInput): StunScan {
    if xs == [] then StunScan([], false)
    else if t.now < xs[0].nextTick then Keep(xs[0], ScanStun(xs[1..], false, retransmit, t))
    else
      match Refresh(xs[0], t)
      case Timeout => ScanStun(xs[1..], false, retransmit, t)
      case Retransmit(x) =>
        if head && retransmit then StunScan([x] + xs[1..], true) else ScanStun(xs[1..], false, retransmit, t)
      case Running(x) => Keep(x, ScanStun(xs[1..], false, retransmit, t))
  }

  function Keep(x: Stun, scan: StunScan): StunScan {
    StunScan([x] + scan.kept, scan.resent)
  }

  // One pair of the list: its transactions advance, and it fails when none is left.
  function TickPair(s: State, id: PairId, t: TickInput): (r: (State, bool))
    requires id in s.pairs && HasComp(s, s.pairs[id].comp)
    ensures SameCore(s, r.0) && Wired(s, r.0, r.1)
  {
    var p := s.pairs[id];
    var scan := ScanStun(p.stun, true, p.retransmit, t);
    if p.stun == [] then (s, false)
    else if scan.resent then (SetPair(s, id, p.(stun := scan.kept)).(sent := s.sent + [Retransmitted(id)]), true)
    else if scan.kept != [] then (SetPair(s, id, p.(stun := scan.kept)), false)
    else (UpdateForReady(FailPair(s, id), p.comp), false)
  }

  function TickAlong(s: State, ids: seq<PairId>, t: TickInput): (r: (State, bool))
    ensures SameCore(s, r.0) && Wired(s, r.0, r.1)
    decreases |ids|
  {
    if ids == [] then (s, false)
    else if !(ids[0] in s.pairs && HasComp(s, s.pairs[ids[0]].comp)) then TickAlong(s, ids[1..], t)
    else
      var (s1, sent) := TickPair(s, ids[0], t);
      if sent then (s1, true) else TickAlong(s1, ids[1..], t)
  }

  function StunPhase(s: State, n: nat, t: TickInput): (r: (State, bool))
    requires n <= |s.lists|
    ensures SameCore(s, r.0) && Wired(s, r.0, r.1)
    decreases |s.lists| - n
  {
    if n == |s.lists| then (s, false)
    else
      var (s1, sent) := TickAlong(s, s.lists[n], t);
      if sent then (s1, true) else StunPhase(s1, n + 1, t)
  }

  // ----- ordinary checks

  function NextWaiting(s: State, n: nat): Option<PairId>
    requires n < |s.lists|
  {
    First(s.lists[n], id => id in s.pairs && s.pairs[id].state.Waiting?)
  }

  function OrdinaryCheck(s: State, n: nat, t: TickInput): (r: (State, bool))
    requires n < |s.lists|
    ensures SameCore(s, r.0) && Wired(s, r.0, r.1)
  {
    var s1 := if NextWaiting(s, n).None? then UnfreezeNext(s) else s;
    var w := NextWaiting(s1, n);
    if w.Some? && HasComp(s1, s1.pairs[w.value].comp) then Initiate(s1, w.value, t, Ordinary(w.value)) else (s1, false)
  }

  function OrdinaryPhase(s: State, n: nat, t: TickInput): (r: (State, bool))
    requires n <= |s.lists|
    ensures SameCore(s, r.0) && Wired(s, r.0, r.1)
    decreases |s.lists| - n
  {
    if n == |s.lists| then (s, false)
    else
      var (s1, sent) := OrdinaryCheck(s, n, t);
      if sent then (s1, true) else OrdinaryPhase(s1, n + 1, t)
  }

  // ----- regular nomination (controlling agent)

  function Count(xs: seq<PairId>, p: PairId -> bool): nat {
    if xs == [] then 0 else (if p(xs[0]) then 1 else 0) + Count(xs[1..], p)
  }

  // Nominated, or already picked to be.
  predicate Taken(s: State, id: PairId) {
    id in s.pairs && (s.pairs[id].nominated || (s.pairs[id].useCandidate && !s.pairs[id].state.FailedCheck?))
  }

  predicate Done(s: State, id: PairId) {
    id in s.pairs && (s.pairs[id].state.Succeeded? || s.pairs[id].state.Discovered?)
  }

  // A nominated pair of another stream, in stream and list order.
  function TakenElsewhere(s: State, n: nat, m: nat): Option<PairId>
    requires m <= |s.lists|
    decreases |s.lists| - m
  {
    if m == |s.lists| then None
    else
      var here := if m == n then None else First(s.lists[m], (id: PairId) => Taken(s, id));
      if here.Some? then here else TakenElsewhere(s, n, m + 1)
  }

  // A nominated pair of another component of the stream.
  function TakenOther(s: State, n: nat, c: nat): Option<PairId>
    requires n < |s.lists|
  {
    First(s.lists[n], id => id in s.pairs && s.pairs[id].comp != c && Taken(s, id))
  }

  predicate SameKind(s: State, a: PairId, b: PairId) {
    && a in s.pairs && b in s.pairs
    && s.pairs[a].local in s.cands && s.pairs[b].local in s.cands
    && s.pairs[a].remote in s.cands && s.pairs[b].remote in s.cands
    && s.cands[s.pairs[a].local].transport == s.cands[s.pairs[b].local].transport
    && s.cands[s.pairs[a].local].ip == s.cands[s.pairs[b].local].ip
    && s.cands[s.pairs[a].remote].ip == s.cands[s.pairs[b].remote].ip
  }

  predicate Eligible(s: State, c: nat, id: PairId) {
    id in s.pairs && s.pairs[id].comp == c && !s.pairs[id].nominated && !s.pairs[id].useCandidate && s.pairs[id].valid
  }

  // The assertions on an eligible pair: it succeeded, or it was discovered by one that did.
  predicate Confirmed(s: State, id: PairId)
    requires id in s.pairs
  {
    && (s.pairs[id].succeeded.Some? ==> s.pairs[id].state.Discovered?)
    && s.pairs[Parent(s, id)].state.Succeeded?
  }

  /** `pick` is the pair to nominate; `matched` says that it is of the kind of `like`;
      `confirmed` that every pair looked at passed its assertions. */
  datatype Choice = Choice(pick: Option<PairId>, matched: bool, confirmed: bool)

  // The first eligible pair, unless a later one is of the kind of the pair `like`.
  // A discovered pair stands for the pair whose check discovered it.
  function Choose(s: State, c: nat, ids: seq<PairId>, like: Option<PairId>): Choice {
    if ids == [] then Choice(None, false, true)
    else if !Eligible(s, c, ids[0]) then Choose(s, c, ids[1..], like)
    else
      var q := Parent(s, ids[0]);
      var fine := Confirmed(s, ids[0]);
      if like.None? then Choice(Some(q), false, fine)
      else if SameKind(s, q, like.value) then Choice(Some(q), true, fine)
      else
        var rest := Choose(s, c, ids[1..], like);
        Choice(if rest.matched then rest.pick else Some(q), rest.matched, fine && rest.confirmed)
  }

  predicate HostHost(s: State, c: nat, id: PairId) {
    && id in s.pairs && s.pairs[id].comp == c && s.pairs[id].valid
    && s.pairs[id].local in s.cands && s.cands[s.pairs[id].local].kind.Host?
    && s.pairs[id].remote in s.cands && s.cands[s.pairs[id].remote].kind.Host?
  }

  function ValidIn(s: State, c: nat): PairId -> bool {
    (id: PairId) => id in s.pairs && s.pairs[id].comp == c && s.pairs[id].valid
  }

  // May component `c` be concluded with the pair that was picked?
  predicate Stopping(s: State, c: nat, ids: seq<PairId>, first: bool, matched: bool) {
    || (first && exists id :: id in ids && HostHost(s, c, id))
    || (first && Count(ids, ValidIn(s, c)) >= 2)
    || matched
    || (forall id :: id in ids && id in s.pairs && s.pairs[id].comp == c ==>
          !Pending(s.pairs[id]) && !s.pairs[id].state.InProgress?)
  }

  function NominateComp(s: State, n: nat, c: nat, elsewhere: Option<PairId>): (r: (State, bool))
    requires n < |s.lists|
    ensures SameBase(s, r.0)
  {
    var ids := s.lists[n];
    var other := TakenOther(s, n, c);
    var like := if other.Some? then other else elsewhere;
    var choice := Choose(s, c, ids, like);
    if exists id :: id in ids && id in s.pairs && s.pairs[id].comp == c && s.pairs[id].useCandidate then (s, false)
    else if !choice.confirmed then (Faulted(s, ValidPairNotSucceeded), false)
    else if choice.pick.None? || choice.pick.value !in s.pairs then (s, false)
    else if !Stopping(s, c, ids, like.None?, choice.matched) then (s, false)
    else
      var q := choice.pick.value;
      (Enqueue(SetPair(s, q, s.pairs[q].(useCandidate := true)), q), true)
  }

  function NominateComps(s: State, n: nat, c: nat, elsewhere: Option<PairId>): (r: (State, bool))
    requires n < |s.lists| && c <= |s.comps|
    ensures SameBase(s, r.0)
    decreases |s.comps| - c
  {
    if c == |s.comps| then (s, false)
    else
      var (s1, kept) := if s.comps[c].stream == n then NominateComp(s, n, c, elsewhere) else (s, false);
      var (s2, more) := NominateComps(s1, n, c + 1, elsewhere);
      (s2, kept || more)
  }

  function NominatedIn(s: State): PairId -> bool {
    (id: PairId) => Done(s, id) && s.pairs[id].nominated
  }

  function ComponentCount(comps: seq<Component>, n: nat): nat {
    if comps == [] then 0 else (if comps[0].stream == n then 1 else 0) + ComponentCount(comps[1..], n)
  }

  predicate WantsNomination(s: State, n: nat)
    requires n < |s.lists|
  {
    && s.cfg.regular && s.controlling
    && Count(s.lists[n], NominatedIn(s)) < ComponentCount(s.comps, n)
    && exists id :: id in s.lists[n] && Done(s, id) && !s.pairs[id].nominated
  }

  predicate InProgressIn(s: State, n: nat)
    requires n < |s.lists|
  {
    exists id :: id in s.lists[n] && id in s.pairs && s.pairs[id].state.InProgress?
  }

  // The flag says whether the timer must keep going for this stream.
  function NominateStream(s: State, n: nat): (r: (State, bool))
    requires n < |s.lists|
    ensures SameBase(s, r.0)
  {
    var (s1, kept) := if WantsNomination(s, n) then NominateComps(s, n, 0, TakenElsewhere(s, n, 0)) else (s, false);
    (s1, InProgressIn(s, n) || kept)
  }

  function NominatePhase(s: State, n: nat): (r: (State, bool))
    requires n <= |s.lists|
    ensures SameBase(s, r.0)
    decreases |s.lists| - n
  {
    if n == |s.lists| then (s, false)
    else
      var (s1, kept) := NominateStream(s, n);
      var (s2, more) := NominatePhase(s1, n + 1);
      (s2, kept || more)
  }

  // ----- failed components

  predicate Completed(s: State, c: nat) {
    forall id :: id in s.pairs && s.pairs[id].comp == c ==>
      !s.pairs[id].nominated && !Pending(s.pairs[id]) && !s.pairs[id].state.InProgress?
  }

  function FailedComp(s: State, c: nat): ComponentState
    requires HasComp(s, c)
  {
    if StreamList(s, c) != [] && s.comps[c].remotes != [] && Completed(s, c) then Failed else s.comps[c].state
  }

  function FailComponents(s: State): (r: State)
    requires CompsOk(s.comps, |s.lists|)
    ensures SameBase(s, r)
  {
    s.(comps := seq(|s.comps|, c requires 0 <= c < |s.comps| => s.comps[c].(state := FailedComp(s, c))))
  }

  // ----- the tick

  // The three phases that may send; each runs only if nothing was sent before it.
  function SendPhases(s: State, t: TickInput): (r: (State, bool))
    ensures SameCore(s, r.0) && Wired(s, r.0, r.1)
  {
    var (s1, sent1) := TriggeredPhase(s, |s.lists|, t);
    var (s2, sent2) := if sent1 then (s1, true) else StunPhase(s1, 0, t);
    if sent2 then (s2, true) else OrdinaryPhase(s2, 0, t)
  }

  /** The state after the tick; the flag says that the timer goes on. */
  function Tick(s: State, t: TickInput): (r: (State, bool))
    requires CompsOk(s.comps, |s.lists|)
    ensures SameShape(s, r.0) && r.0.cfg == s.cfg && (Wired(s, r.0, true) || Wired(s, r.0, false))
  {
    var (s1, sent) := SendPhases(s, t);
    var (s2, kept) := NominatePhase(s1, 0);
    if sent || kept then (s2.(idleDelay := 0), true)
    else if s2.idleDelay + s2.cfg.ta < s2.cfg.idleTimeout then (s2.(idleDelay := s2.idleDelay + s2.cfg.ta), true)
    else
      var s3 := if t.discovering then s2 else FailComponents(s2);
      (s3.(timerOn := false, idleDelay := 0), false)
  }
}
