/** Two agents with opposite roles, each selecting among the pairs nominated so far, end up with
mirror-image pairs.

A pair is named by the candidate of the controlling agent and that of the controlled agent. Both agents
price it with their own role and their own view of local and remote, and both run the same strict-greater
update for every nomination they process, in whatever order and however often they process them. */
module Agreement {
  import opened Basics
  import opened CandidatePriority
  import opened ConnCheckState
  import opened ConnCheckSpec

  /** The selected pair of a component. */
  datatype Selected = Selected(local: Option<CandId>, remote: Option<CandId>, priority: nat)

  function SelectedOf(x: Component): Selected {
    Selected(x.selLocal, x.selRemote, x.selPriority)
  }

  // A nominated pair replaces the selected one if its priority is strictly greater.
  function Nominate(sel: Selected, local: CandId, remote: CandId, priority: nat): Selected {
    if priority > sel.priority then Selected(Some(local), Some(remote), priority) else sel
  }

  /** This is what the connectivity-check machine does to the component of a nominated pair. */
  lemma UpdateSelectedNominates(s: State, c: nat, id: PairId, d: nat)
    requires c < |s.comps| && id in s.pairs && d < |s.comps|
    ensures var p := s.pairs[id];
            SelectedOf(UpdateSelected(s, c, id).comps[d]) ==
            if d == c then Nominate(SelectedOf(s.comps[c]), p.local, p.remote, p.priority) else SelectedOf(s.comps[d])
  {
  }

  // ----- one session seen from both ends

  /** A candidate of the controlling agent with one of the controlled agent. */
  type Match = (CandId, CandId)

  /** Candidate priorities as both agents know them. */
  datatype Session = Session(controllingSide: map<CandId, nat>, controlledSide: map<CandId, nat>)

  predicate Known(x: Session, m: Match) {
    m.0 in x.controllingSide && m.1 in x.controlledSide
  }

  // The priority the agent computes for a match: it is local on its own side.
  function PriorityAt(x: Session, controlling: bool, m: Match): nat
    requires Known(x, m)
  {
    if controlling then AgentPairPriority(true, x.controllingSide[m.0], x.controlledSide[m.1])
    else AgentPairPriority(false, x.controlledSide[m.1], x.controllingSide[m.0])
  }

  function NominateAt(x: Session, controlling: bool, sel: Selected, m: Match): Selected
    requires Known(x, m)
  {
    if controlling then Nominate(sel, m.0, m.1, PriorityAt(x, true, m))
    else Nominate(sel, m.1, m.0, PriorityAt(x, false, m))
  }

  predicate AllKnown(x: Session, ms: seq<Match>) {
    forall m :: m in ms ==> Known(x, m)
  }

  function NominateAll(x: Session, controlling: bool, sel: Selected, ms: seq<Match>): Selected
    requires AllKnown(x, ms)
    decreases |ms|
  {
    if ms == [] then sel else NominateAll(x, controlling, NominateAt(x, controlling, sel, ms[0]), ms[1..])
  }

  const NONE := Selected(None, None, 0)

  function Mirror(sel: Selected): Selected {
    Selected(sel.remote, sel.local, sel.priority)
  }

  // ----- roles are symmetric

  /** Both agents compute the same priority for a match. */
  lemma RoleSymmetry(x: Session, m: Match)
    requires Known(x, m)
    ensures PriorityAt(x, true, m) == PriorityAt(x, false, m)
  {
  }

  lemma {:induction false} MirrorRun(x: Session, sel: Selected, ms: seq<Match>)
    requires AllKnown(x, ms)
    ensures NominateAll(x, false, Mirror(sel), ms) == Mirror(NominateAll(x, true, sel, ms))
    decreases |ms|
  {
    if ms != [] {
      RoleSymmetry(x, ms[0]);
      assert NominateAt(x, false, Mirror(sel), ms[0]) == Mirror(NominateAt(x, true, sel, ms[0]));
      MirrorRun(x, NominateAt(x, true, sel, ms[0]), ms[1..]);
    }
  }

  // ----- the selected pair is the best one nominated

  function Best(x: Session, m: Match): nat
    requires Known(x, m)
  {
    PriorityAt(x, true, m)
  }

  // The selection is `sel` itself, or a nominated match that beats it; and nothing nominated beats it.
  lemma {:induction false} SelectionIsBest(x: Session, sel: Selected, ms: seq<Match>)
    requires AllKnown(x, ms)
    ensures var r := NominateAll(x, true, sel, ms);
            && r.priority >= sel.priority
            && (forall m :: m in ms ==> r.priority >= Best(x, m))
            && (r == sel || exists m :: m in ms && r == Selected(Some(m.0), Some(m.1), Best(x, m)))
    decreases |ms|
  {
    if ms != [] {
      var sel1 := NominateAt(x, true, sel, ms[0]);
      SelectionIsBest(x, sel1, ms[1..]);
      var r := NominateAll(x, true, sel, ms);
      if r == sel1 && sel1 != sel {
        assert ms[0] in ms && r == Selected(Some(ms[0].0), Some(ms[0].1), Best(x, ms[0]));
      } else if r != sel1 {
        var m :| m in ms[1..] && r == Selected(Some(m.0), Some(m.1), Best(x, m));
        assert m in ms;
      }
    }
  }

  // The match `top` is strictly better than every other one in `ms`, and worth something.
  predicate UniqueTop(x: Session, ms: seq<Match>, top: Match)
    requires AllKnown(x, ms)
  {
    top in ms && Best(x, top) > 0 && forall m :: m in ms && m != top ==> Best(x, m) < Best(x, top)
  }

  lemma TopIsSelected(x: Session, ms: seq<Match>, top: Match)
    requires AllKnown(x, ms) && UniqueTop(x, ms, top)
    ensures NominateAll(x, true, NONE, ms) == Selected(Some(top.0), Some(top.1), Best(x, top))
  {
    SelectionIsBest(x, NONE, ms);
  }

  ghost predicate SameSet(ms: seq<Match>, ns: seq<Match>) {
    forall m :: m in ms <==> m in ns
  }

  // ----- agreement

  /** A unique best match is selected by both agents, from mirror-image sides, whatever the orders. */
  lemma AgreementOnTop(x: Session, ms: seq<Match>, ns: seq<Match>, top: Match)
    requires AllKnown(x, ms) && SameSet(ms, ns) && UniqueTop(x, ms, top)
    ensures AllKnown(x, ns)
    ensures NominateAll(x, false, NONE, ns) == Mirror(NominateAll(x, true, NONE, ms))
    ensures NominateAll(x, true, NONE, ms).local == Some(top.0) && NominateAll(x, false, NONE, ns).local == Some(top.1)
  {
    TopIsSelected(x, ms, top);
    TopIsSelected(x, ns, top);
    MirrorRun(x, NONE, ns);
  }

  /** The condition is exact: with two best matches, two orders of the same nominations make the agents
      select different pairs. */
  lemma TieDisagrees(x: Session, ms: seq<Match>, a: Match, b: Match)
    requires AllKnown(x, ms) && a in ms && b in ms && a != b && Best(x, a) == Best(x, b) > 0
    requires forall m :: m in ms ==> Best(x, m) <= Best(x, a)
    ensures SameSet([a] + ms, ms) && SameSet([b] + ms, ms)
    ensures AllKnown(x, [a] + ms) && AllKnown(x, [b] + ms)
    ensures NominateAll(x, false, NONE, [b] + ms) != Mirror(NominateAll(x, true, NONE, [a] + ms))
  {
    FirstBestStays(x, ms, a);
    FirstBestStays(x, ms, b);
    MirrorRun(x, NONE, [b] + ms);
  }

  lemma FirstBestStays(x: Session, ms: seq<Match>, a: Match)
    requires AllKnown(x, ms) && a in ms && Best(x, a) > 0
    requires forall m :: m in ms ==> Best(x, m) <= Best(x, a)
    ensures AllKnown(x, [a] + ms)
    ensures NominateAll(x, true, NONE, [a] + ms) == Selected(Some(a.0), Some(a.1), Best(x, a))
  {
    assert ([a] + ms)[0] == a && ([a] + ms)[1..] == ms;
    NothingBeats(x, Selected(Some(a.0), Some(a.1), Best(x, a)), ms);
  }

  lemma {:induction false} NothingBeats(x: Session, sel: Selected, ms: seq<Match>)
    requires AllKnown(x, ms) && forall m :: m in ms ==> Best(x, m) <= sel.priority
    ensures NominateAll(x, true, sel, ms) == sel
    decreases |ms|
  {
    if ms != [] {
      assert ms[0] in ms;
      NothingBeats(x, sel, ms[1..]);
    }
  }

  // ----- distinct candidate priorities are enough

  predicate LegalSide(side: map<CandId, nat>) {
    && (forall k :: k in side ==> 1 <= side[k] < TWO_31)
    && forall j, k :: j in side && k in side && j != k ==> side[j] != side[k]
  }

  lemma {:induction false} TopExists(x: Session, ms: seq<Match>) returns (top: Match)
    requires AllKnown(x, ms) && ms != [] && LegalSide(x.controllingSide) && LegalSide(x.controlledSide)
    ensures UniqueTop(x, ms, top)
    decreases |ms|
  {
    assert Known(x, ms[0]);
    PairPriorityPositive(true, x.controllingSide[ms[0].0], x.controlledSide[ms[0].1]);
    top := ms[0];
    if |ms| > 1 {
      var best := TopExists(x, ms[1..]);
      DistinctMatches(x, ms[0], best);
      if Best(x, ms[0]) <= Best(x, best) {
        top := best;
      }
    }
  }

  lemma DistinctMatches(x: Session, a: Match, b: Match)
    requires Known(x, a) && Known(x, b) && LegalSide(x.controllingSide) && LegalSide(x.controlledSide)
    ensures Best(x, a) == Best(x, b) <==> a == b
  {
    if Best(x, a) == Best(x, b) {
      PairPriorityInjective(x.controllingSide[a.0], x.controlledSide[a.1], x.controllingSide[b.0], x.controlledSide[b.1]);
    }
  }

  /** Two agents with opposite roles, candidate priorities in 1 .. 2^31-1 distinct on each side: any two
      orders of the same nominations lead to mirror-image selections. */
  lemma TwoAgentAgreement(x: Session, ms: seq<Match>, ns: seq<Match>)
    requires LegalSide(x.controllingSide) && LegalSide(x.controlledSide)
    requires AllKnown(x, ms) && SameSet(ms, ns)
    ensures AllKnown(x, ns)
    ensures NominateAll(x, false, NONE, ns) == Mirror(NominateAll(x, true, NONE, ms))
  {
    assert ns == [] || ns[0] in ns;
    if ms != [] {
      var top := TopExists(x, ms);
      AgreementOnTop(x, ms, ns, top);
    }
  }
}
