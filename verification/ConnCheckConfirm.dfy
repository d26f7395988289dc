/** The assertions of regular nomination: exactly when a tick finds a valid pair that is no longer
confirmed, and why a run that disturbs no valid pair never does. */
module ConnCheckConfirm {
  import opened Basics
  import opened ConnCheckState
  import opened ConnCheckSpec
  import opened ConnCheckInvariants
  import opened ConnCheckTick
  import opened ConnCheckTicks

  // ----- what nomination looks at

  // Position `k` is looked at: it is eligible, and no eligible pair before it ended the search.
  predicate LookedAt(s: State, c: nat, ids: seq<PairId>, like: Option<PairId>, k: nat)
    requires k < |ids|
  {
    && Eligible(s, c, ids[k])
    && forall j :: 0 <= j < k && Eligible(s, c, ids[j]) ==> Passed(s, ids[j], like)
  }

  // The search goes on past the eligible pair `id`.
  predicate Passed(s: State, id: PairId, like: Option<PairId>) {
    id in s.pairs && like.Some? && !SameKind(s, Parent(s, id), like.value)
  }

  // Some pair looked at is not confirmed.
  predicate Unsettled(s: State, c: nat, ids: seq<PairId>, like: Option<PairId>) {
    exists k :: 0 <= k < |ids| && LookedAt(s, c, ids, like, k) && !Confirmed(s, ids[k])
  }

  lemma LookedLater(s: State, c: nat, ids: seq<PairId>, like: Option<PairId>, k: nat)
    requires 0 < k < |ids|
    ensures LookedAt(s, c, ids, like, k) <==>
            LookedAt(s, c, ids[1..], like, k - 1) && (Eligible(s, c, ids[0]) ==> Passed(s, ids[0], like))
  {
    hide Eligible, Passed;
    var rest := ids[1..];
    assert rest[k - 1] == ids[k];
    assert forall j :: 0 < j < k ==> rest[j - 1] == ids[j];
    if LookedAt(s, c, rest, like, k - 1) && (Eligible(s, c, ids[0]) ==> Passed(s, ids[0], like)) {
      forall j | 0 <= j < k && Eligible(s, c, ids[j])
        ensures Passed(s, ids[j], like)
      {
        if j > 0 {
          assert rest[j - 1] == ids[j];
        }
      }
    }
    if LookedAt(s, c, ids, like, k) {
      forall j | 0 <= j < k - 1 && Eligible(s, c, rest[j])
        ensures Passed(s, rest[j], like)
      {
        assert rest[j] == ids[j + 1];
      }
    }
  }

  /** The choice is confirmed exactly when every pair looked at is. */
  lemma {:induction false} ChooseConfirmed(s: State, c: nat, ids: seq<PairId>, like: Option<PairId>)
    ensures Choose(s, c, ids, like).confirmed <==> !Unsettled(s, c, ids, like)
    decreases |ids|
  {
    hide Confirmed, SameKind, Parent;
    if ids != [] {
      ChooseConfirmed(s, c, ids[1..], like);
      forall k | 0 < k < |ids|
        ensures LookedAt(s, c, ids, like, k) <==>
                LookedAt(s, c, ids[1..], like, k - 1) && (Eligible(s, c, ids[0]) ==> Passed(s, ids[0], like))
      {
        LookedLater(s, c, ids, like, k);
      }
      if Unsettled(s, c, ids[1..], like) {
        var k :| 0 <= k < |ids[1..]| && LookedAt(s, c, ids[1..], like, k) && !Confirmed(s, ids[1..][k]);
        assert ids[1..][k] == ids[k + 1];
        assert LookedAt(s, c, ids, like, k + 1) <==> (Eligible(s, c, ids[0]) ==> Passed(s, ids[0], like));
      }
      if Unsettled(s, c, ids, like) {
        var k :| 0 <= k < |ids| && LookedAt(s, c, ids, like, k) && !Confirmed(s, ids[k]);
        if k > 0 {
          assert ids[1..][k - 1] == ids[k];
        }
      }
      if Eligible(s, c, ids[0]) {
        assert LookedAt(s, c, ids, like, 0);
      }
    }
  }

  // ----- one component

  // A pair of the component has been picked already.
  predicate Decided(s: State, n: nat, c: nat)
    requires n < |s.lists|
  {
    exists id :: id in s.lists[n] && id in s.pairs && s.pairs[id].comp == c && s.pairs[id].useCandidate
  }

  function Like(s: State, n: nat, c: nat, elsewhere: Option<PairId>): Option<PairId>
    requires n < |s.lists|
  {
    var other := TakenOther(s, n, c);
    if other.Some? then other else elsewhere
  }

  predicate CompTrips(s: State, n: nat, c: nat, like: Option<PairId>)
    requires n < |s.lists|
  {
    !Decided(s, n, c) && Unsettled(s, c, s.lists[n], like)
  }

  function Raised(before: Fault, trips: bool): Fault {
    if before.NoFault? && trips then ValidPairNotSucceeded else before
  }

  lemma NominateCompFault(s: State, n: nat, c: nat, elsewhere: Option<PairId>)
    requires n < |s.lists|
    ensures NominateComp(s, n, c, elsewhere).0.fault == Raised(s.fault, CompTrips(s, n, c, Like(s, n, c, elsewhere)))
  {
    hide Choose, Unsettled, Stopping, TakenOther;
    ChooseConfirmed(s, c, s.lists[n], Like(s, n, c, elsewhere));
  }

  // Nomination marks SUCCEEDED pairs as picked and queues them; nothing else changes.
  predicate OnlyPicks(s: State, t: State) {
    && t.lists == s.lists && t.comps == s.comps && t.cands == s.cands && t.cfg == s.cfg
    && t.controlling == s.controlling && t.nextPair == s.nextPair
    && t.pairs.Keys == s.pairs.Keys
    && forall id :: id in s.pairs ==> SameButPick(s.pairs[id], t.pairs[id])
  }

  predicate SameButPick(p: Pair, q: Pair) {
    q == p.(useCandidate := q.useCandidate) && (p.useCandidate ==> q.useCandidate) &&
    (q.useCandidate ==> p.useCandidate || p.state.Succeeded?)
  }

  lemma PickSame(p: Pair)
    ensures SameButPick(p, p) && (p.state.Succeeded? ==> SameButPick(p, p.(useCandidate := true)))
  {
  }

  predicate SameComp(s: State, t: State, d: nat) {
    forall id :: id in s.pairs && id in t.pairs && s.pairs[id].comp == d ==> t.pairs[id] == s.pairs[id]
  }

  lemma PicksTrans(s: State, t: State, u: State)
    requires OnlyPicks(s, t) && OnlyPicks(t, u)
    ensures OnlyPicks(s, u)
  {
  }

  lemma SameCompTrans(s: State, t: State, u: State, d: nat)
    requires OnlyPicks(s, t) && OnlyPicks(t, u) && SameComp(s, t, d) && SameComp(t, u, d)
    ensures SameComp(s, u, d)
  {
  }

  lemma NoPicks(s: State)
    ensures OnlyPicks(s, s) && forall d :: SameComp(s, s, d)
  {
  }

  lemma ParentComp(s: State, id: PairId)
    requires LinksOk(s.pairs, s.nextPair) && id in s.pairs
    ensures Parent(s, id) in s.pairs && s.pairs[Parent(s, id)].comp == s.pairs[id].comp
  {
  }

  lemma {:induction false} ChooseComp(s: State, c: nat, ids: seq<PairId>, like: Option<PairId>)
    requires LinksOk(s.pairs, s.nextPair)
    ensures var q := Choose(s, c, ids, like).pick; q.Some? ==> q.value in s.pairs && s.pairs[q.value].comp == c
    ensures var choice := Choose(s, c, ids, like);
            choice.pick.Some? && choice.confirmed ==> s.pairs[choice.pick.value].state.Succeeded?
    decreases |ids|
  {
    hide LinksOk, SameKind, Parent;
    if ids != [] {
      ChooseComp(s, c, ids[1..], like);
      if Eligible(s, c, ids[0]) {
        ParentComp(s, ids[0]);
      }
    }
  }

  lemma NominateCompPicks(s: State, n: nat, c: nat, elsewhere: Option<PairId>)
    requires LinksOk(s.pairs, s.nextPair) && n < |s.lists|
    ensures var t := NominateComp(s, n, c, elsewhere).0;
            OnlyPicks(s, t) && LinksOk(t.pairs, t.nextPair) && forall d :: d != c ==> SameComp(s, t, d)
  {
    hide LinksOk, Choose, Stopping, TakenOther, OnlyPicks, SameComp, Enqueue;
    ChooseComp(s, c, s.lists[n], Like(s, n, c, elsewhere));
    var t := NominateComp(s, n, c, elsewhere).0;
    NoPicks(s);
    FaultPicks(s);
    var q := Choose(s, c, s.lists[n], Like(s, n, c, elsewhere)).pick;
    if q.Some? && Choose(s, c, s.lists[n], Like(s, n, c, elsewhere)).confirmed {
      OnePick(s, q.value, c);
    }
    PicksLinks(s, t);
  }

  lemma FaultPicks(s: State)
    ensures OnlyPicks(s, Faulted(s, ValidPairNotSucceeded)) && forall d :: SameComp(s, Faulted(s, ValidPairNotSucceeded), d)
  {
  }

  lemma OnePick(s: State, q: PairId, c: nat)
    requires q in s.pairs && s.pairs[q].comp == c && s.pairs[q].state.Succeeded?
    ensures var t := Enqueue(SetPair(s, q, s.pairs[q].(useCandidate := true)), q);
            OnlyPicks(s, t) && forall d :: d != c ==> SameComp(s, t, d)
  {
    hide SameButPick;
    var t := Enqueue(SetPair(s, q, s.pairs[q].(useCandidate := true)), q);
    forall id | id in s.pairs
      ensures SameButPick(s.pairs[id], t.pairs[id])
    {
      PickSame(s.pairs[id]);
    }
  }

  lemma PicksLinks(s: State, t: State)
    requires LinksOk(s.pairs, s.nextPair) && OnlyPicks(s, t)
    ensures LinksOk(t.pairs, t.nextPair)
  {
  }

  // ----- what the picks made so far cannot change

  lemma ParentSame(s: State, t: State, d: nat, id: PairId)
    requires LinksOk(s.pairs, s.nextPair) && OnlyPicks(s, t) && SameComp(s, t, d) && id in s.pairs && s.pairs[id].comp == d
    ensures id in t.pairs && Parent(t, id) == Parent(s, id) && Parent(s, id) in t.pairs
    ensures t.pairs[Parent(t, id)] == s.pairs[Parent(s, id)] && t.pairs[id] == s.pairs[id]
  {
    ParentComp(s, id);
  }

  lemma KindSame(s: State, t: State, a: PairId, b: PairId)
    requires OnlyPicks(s, t)
    ensures SameKind(t, a, b) == SameKind(s, a, b)
  {
  }

  lemma LookedSame(s: State, t: State, d: nat, id: PairId, like: Option<PairId>)
    requires LinksOk(s.pairs, s.nextPair) && OnlyPicks(s, t) && SameComp(s, t, d)
    ensures Eligible(t, d, id) == Eligible(s, d, id)
    ensures Eligible(s, d, id) ==> Passed(t, id, like) == Passed(s, id, like) && Confirmed(t, id) == Confirmed(s, id)
  {
    hide LinksOk, SameKind, SameComp;
    if id in s.pairs && s.pairs[id].comp == d {
      ParentSame(s, t, d, id);
      if like.Some? {
        KindSame(s, t, Parent(s, id), like.value);
      }
    }
  }

  lemma UnsettledSame(s: State, t: State, d: nat, ids: seq<PairId>, like: Option<PairId>)
    requires LinksOk(s.pairs, s.nextPair) && OnlyPicks(s, t) && SameComp(s, t, d)
    ensures Unsettled(t, d, ids, like) == Unsettled(s, d, ids, like)
  {
    hide LinksOk, OnlyPicks, SameComp, Eligible, Passed, Confirmed;
    forall id: PairId
      ensures Eligible(t, d, id) == Eligible(s, d, id)
      ensures Eligible(s, d, id) ==> id in s.pairs && id in t.pairs
      ensures Eligible(s, d, id) ==> Passed(t, id, like) == Passed(s, id, like) && Confirmed(t, id) == Confirmed(s, id)
    {
      LookedSame(s, t, d, id, like);
      EligibleIn(s, t, d, id);
    }
    forall k | 0 <= k < |ids|
      ensures LookedAt(t, d, ids, like, k) == LookedAt(s, d, ids, like, k)
    {
    }
  }

  lemma EligibleIn(s: State, t: State, d: nat, id: PairId)
    requires OnlyPicks(s, t)
    ensures Eligible(s, d, id) ==> id in s.pairs && id in t.pairs
  {
  }

  lemma TripsSame(s: State, t: State, n: nat, d: nat, like: Option<PairId>)
    requires LinksOk(s.pairs, s.nextPair) && OnlyPicks(s, t) && SameComp(s, t, d) && n < |s.lists|
    ensures CompTrips(t, n, d, like) == CompTrips(s, n, d, like)
  {
    hide Unsettled, LinksOk;
    UnsettledSame(s, t, d, s.lists[n], like);
  }

  lemma {:induction false} CountSame(xs: seq<PairId>, p: PairId -> bool, q: PairId -> bool)
    requires forall x :: p(x) == q(x)
    ensures Count(xs, p) == Count(xs, q)
  {
    if xs != [] {
      CountSame(xs[1..], p, q);
    }
  }

  lemma WantsSame(s: State, t: State, n: nat)
    requires OnlyPicks(s, t) && n < |s.lists|
    ensures WantsNomination(t, n) == WantsNomination(s, n)
  {
    hide Count, ComponentCount;
    CountSame(s.lists[n], NominatedIn(s), NominatedIn(t));
    assert forall id :: Done(t, id) == Done(s, id);
  }

  // ----- all components of a stream, all streams

  // The nomination of stream `n` from component `c` on, on reaching component `d`.
  function CompsAt(s: State, n: nat, c: nat, d: nat, elsewhere: Option<PairId>): (t: State)
    requires n < |s.lists| && c <= d <= |s.comps|
    ensures SameBase(s, t)
    decreases d - c
  {
    if c == d then s
    else CompsAt(if s.comps[c].stream == n then NominateComp(s, n, c, elsewhere).0 else s, n, c + 1, d, elsewhere)
  }

  lemma {:induction false} CompsAtEnd(s: State, n: nat, c: nat, elsewhere: Option<PairId>)
    requires n < |s.lists| && c <= |s.comps|
    ensures NominateComps(s, n, c, elsewhere).0 == CompsAt(s, n, c, |s.comps|, elsewhere)
    decreases |s.comps| - c
  {
    hide NominateComp;
    if c < |s.comps| {
      CompsAtEnd(if s.comps[c].stream == n then NominateComp(s, n, c, elsewhere).0 else s, n, c + 1, elsewhere);
    }
  }

  lemma {:induction false} CompsAtPicks(s: State, n: nat, c: nat, d: nat, elsewhere: Option<PairId>)
    requires LinksOk(s.pairs, s.nextPair) && n < |s.lists| && c <= d <= |s.comps|
    ensures var t := CompsAt(s, n, c, d, elsewhere);
            && OnlyPicks(s, t) && LinksOk(t.pairs, t.nextPair)
            && forall e: nat :: d <= e || (e < |s.comps| && s.comps[e].stream != n) ==> SameComp(s, t, e)
    decreases d - c
  {
    hide NominateComp, OnlyPicks, SameComp, LinksOk;
    NoPicks(s);
    if c < d {
      var s1 := if s.comps[c].stream == n then NominateComp(s, n, c, elsewhere).0 else s;
      NominateCompPicks(s, n, c, elsewhere);
      CompsAtPicks(s1, n, c + 1, d, elsewhere);
      var t := CompsAt(s1, n, c + 1, d, elsewhere);
      PicksTrans(s, s1, t);
      PicksComps(s, s1);
      forall e: nat | d <= e || (e < |s.comps| && s.comps[e].stream != n)
        ensures SameComp(s, t, e)
      {
        SameCompTrans(s, s1, t, e);
      }
    }
  }

  lemma PicksComps(s: State, t: State)
    requires OnlyPicks(s, t)
    ensures t.comps == s.comps && t.lists == s.lists
  {
  }

  // Some component of stream `n`, from `c` on, trips when its turn comes.
  predicate SomeTrips(s: State, n: nat, c: nat, elsewhere: Option<PairId>)
    requires n < |s.lists| && c <= |s.comps|
  {
    exists d :: c <= d < |s.comps| && TripsInTurn(s, n, c, d, elsewhere)
  }

  predicate TripsInTurn(s: State, n: nat, c: nat, d: nat, elsewhere: Option<PairId>)
    requires n < |s.lists| && c <= d < |s.comps|
  {
    s.comps[d].stream == n && CompTrips(s, n, d, Like(CompsAt(s, n, c, d, elsewhere), n, d, elsewhere))
  }

  lemma {:induction false} NominateCompsFault(s: State, n: nat, c: nat, elsewhere: Option<PairId>)
    requires LinksOk(s.pairs, s.nextPair) && n < |s.lists| && c <= |s.comps|
    ensures NominateComps(s, n, c, elsewhere).0.fault == Raised(s.fault, SomeTrips(s, n, c, elsewhere))
    decreases |s.comps| - c
  {
    hide NominateComp, CompTrips, LinksOk, OnlyPicks, SameComp, Like;
    if c < |s.comps| {
      var s1 := if s.comps[c].stream == n then NominateComp(s, n, c, elsewhere).0 else s;
      NoPicks(s);
      NominateCompPicks(s, n, c, elsewhere);
      NominateCompFault(s, n, c, elsewhere);
      PicksComps(s, s1);
      NominateCompsFault(s1, n, c + 1, elsewhere);
      assert CompsAt(s, n, c, c, elsewhere) == s;
      assert TripsInTurn(s, n, c, c, elsewhere) <==>
             s.comps[c].stream == n && CompTrips(s, n, c, Like(s, n, c, elsewhere));
      forall d | c + 1 <= d < |s.comps|
        ensures TripsInTurn(s1, n, c + 1, d, elsewhere) == TripsInTurn(s, n, c, d, elsewhere)
      {
        TripsSame(s, s1, n, d, Like(CompsAt(s1, n, c + 1, d, elsewhere), n, d, elsewhere));
      }
      if SomeTrips(s1, n, c + 1, elsewhere) {
        var d :| c + 1 <= d < |s.comps| && TripsInTurn(s1, n, c + 1, d, elsewhere);
        assert TripsInTurn(s, n, c, d, elsewhere);
      }
      if SomeTrips(s, n, c, elsewhere) && !TripsInTurn(s, n, c, c, elsewhere) {
        var d :| c <= d < |s.comps| && TripsInTurn(s, n, c, d, elsewhere);
        assert TripsInTurn(s1, n, c + 1, d, elsewhere);
      }
    }
  }

  // The nomination phase from stream `m` on, on reaching stream `n`.
  function StreamsAt(s: State, m: nat, n: nat): (t: State)
    requires m <= n <= |s.lists|
    ensures SameBase(s, t)
    decreases n - m
  {
    if m == n then s else StreamsAt(NominateStream(s, m).0, m + 1, n)
  }

  lemma NominateStreamPicks(s: State, n: nat)
    requires LinksOk(s.pairs, s.nextPair) && n < |s.lists|
    ensures var t := NominateStream(s, n).0;
            && OnlyPicks(s, t) && LinksOk(t.pairs, t.nextPair)
            && forall e: nat :: e < |s.comps| && s.comps[e].stream != n ==> SameComp(s, t, e)
  {
    hide NominateComps, OnlyPicks, SameComp, LinksOk, CompsAt;
    NoPicks(s);
    CompsAtEnd(s, n, 0, TakenElsewhere(s, n, 0));
    CompsAtPicks(s, n, 0, |s.comps|, TakenElsewhere(s, n, 0));
  }

  // The pair whose kind component `d` prefers, from the picks made before its turn.
  function LikeAt(s: State, m: nat, d: nat): Option<PairId>
    requires d < |s.comps| && m <= s.comps[d].stream < |s.lists|
  {
    var n := s.comps[d].stream;
    var v := StreamsAt(s, m, n);
    var elsewhere := TakenElsewhere(v, n, 0);
    Like(CompsAt(v, n, 0, d, elsewhere), n, d, elsewhere)
  }

  /** Nomination finds an unconfirmed pair: the stream wants nomination, the component has no picked pair,
      and one of the pairs looked at is not confirmed. */
  predicate NominationTrips(s: State, m: nat, d: nat)
    requires d < |s.comps| && m <= s.comps[d].stream < |s.lists|
  {
    var n := s.comps[d].stream;
    WantsNomination(s, n) && CompTrips(s, n, d, LikeAt(s, m, d))
  }

  predicate PhaseTrips(s: State, m: nat) {
    exists d :: 0 <= d < |s.comps| && m <= s.comps[d].stream < |s.lists| && NominationTrips(s, m, d)
  }

  lemma NominateStreamFault(s: State, n: nat)
    requires LinksOk(s.pairs, s.nextPair) && n < |s.lists|
    ensures NominateStream(s, n).0.fault ==
            Raised(s.fault, WantsNomination(s, n) && SomeTrips(s, n, 0, TakenElsewhere(s, n, 0)))
  {
    hide NominateComps, SomeTrips, WantsNomination, LinksOk, TakenElsewhere;
    NominateCompsFault(s, n, 0, TakenElsewhere(s, n, 0));
  }

  lemma FirstStreamTrips(s: State, n: nat)
    requires n < |s.lists|
    ensures WantsNomination(s, n) && SomeTrips(s, n, 0, TakenElsewhere(s, n, 0)) <==>
            exists d :: 0 <= d < |s.comps| && s.comps[d].stream == n && NominationTrips(s, n, d)
  {
    hide WantsNomination, CompTrips, TakenElsewhere, CompsAt, Like;
    assert StreamsAt(s, n, n) == s;
    forall d | 0 <= d < |s.comps| && s.comps[d].stream == n
      ensures NominationTrips(s, n, d) <==> WantsNomination(s, n) && TripsInTurn(s, n, 0, d, TakenElsewhere(s, n, 0))
    {
    }
  }

  lemma LaterStreamTrips(s: State, m: nat, d: nat)
    requires LinksOk(s.pairs, s.nextPair)
    requires d < |s.comps| && m < s.comps[d].stream < |s.lists|
    ensures NominationTrips(NominateStream(s, m).0, m + 1, d) == NominationTrips(s, m, d)
  {
    hide WantsNomination, CompTrips, LinksOk, OnlyPicks, SameComp, CompsAt, TakenElsewhere, Like;
    var s1 := NominateStream(s, m).0;
    NominateStreamPicks(s, m);
    PicksComps(s, s1);
    WantsSame(s, s1, s.comps[d].stream);
    TripsSame(s, s1, s.comps[d].stream, d, LikeAt(s1, m + 1, d));
  }

  lemma {:induction false} NominatePhaseFault(s: State, m: nat)
    requires LinksOk(s.pairs, s.nextPair) && m <= |s.lists|
    ensures NominatePhase(s, m).0.fault == Raised(s.fault, PhaseTrips(s, m))
    decreases |s.lists| - m
  {
    hide NominateStream, NominationTrips, LinksOk, OnlyPicks, SameComp, SomeTrips, WantsNomination, TakenElsewhere;
    if m < |s.lists| {
      var s1 := NominateStream(s, m).0;
      NominateStreamPicks(s, m);
      PicksComps(s, s1);
      NominateStreamFault(s, m);
      FirstStreamTrips(s, m);
      NominatePhaseFault(s1, m + 1);
      forall d | 0 <= d < |s.comps| && m < s.comps[d].stream < |s.lists|
        ensures NominationTrips(s1, m + 1, d) == NominationTrips(s, m, d)
      {
        LaterStreamTrips(s, m, d);
      }
    }
  }

  lemma {:induction false} NominatePhasePicks(s: State, m: nat)
    requires LinksOk(s.pairs, s.nextPair) && m <= |s.lists|
    ensures OnlyPicks(s, NominatePhase(s, m).0)
    decreases |s.lists| - m
  {
    hide NominateStream, LinksOk, OnlyPicks;
    NoPicks(s);
    if m < |s.lists| {
      var s1 := NominateStream(s, m).0;
      NominateStreamPicks(s, m);
      PicksComps(s, s1);
      NominatePhasePicks(s1, m + 1);
      PicksTrans(s, s1, NominatePhase(s1, m + 1).0);
    }
  }

  lemma LinksFact(s: State)
    requires Inv(s)
    ensures LinksOk(s.pairs, s.nextPair) && CompsOk(s.comps, |s.lists|)
  {
  }

  /** A tick raises the nomination assertion exactly when, once its checks are sent, some component is
      due for nomination, undecided, and one of the pairs it looks at is not confirmed. */
  lemma TickUnconfirmed(s: State, t: TickInput)
    requires Inv(s) && s.fault.NoFault?
    ensures CompsOk(s.comps, |s.lists|)
    ensures var u := SendPhases(s, t).0;
            Tick(s, t).0.fault.ValidPairNotSucceeded? <==> u.fault.NoFault? && PhaseTrips(u, 0)
  {
    hide Inv, Thawed, GatheringIsEmpty, NominatedIsSelected, SendPhases, NominatePhase, PhaseTrips, LinksOk;
    LinksFact(s);
    SendPhasesKeep(s, t);
    var u := SendPhases(s, t).0;
    LinksFact(u);
    NominatePhaseFault(u, 0);
  }
}
