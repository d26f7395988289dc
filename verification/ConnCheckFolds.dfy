/** Steps of the in-place loops over a check list, and the whole-list definitions they add up to. */
module ConnCheckFolds {
  import opened Basics
  import opened ConnCheckState
  import opened ConnCheckSpec

  lemma {:induction false} FilterOutTwice(xs: seq<nat>, a: set<nat>, b: set<nat>)
    ensures FilterOut(FilterOut(xs, a), b) == FilterOut(xs, a + b)
  {
    if xs != [] {
      FilterOutTwice(xs[1..], a, b);
    }
  }

  lemma RemoveTwice(s: State, a: set<PairId>, b: set<PairId>)
    ensures RemovePairs(RemovePairs(s, a), b) == RemovePairs(s, a + b)
  {
    hide FilterOut;
    FilterOutTwice(s.queue, a, b);
    var t, u := RemovePairs(RemovePairs(s, a), b), RemovePairs(s, a + b);
    forall n | 0 <= n < |s.lists|
      ensures t.lists[n] == u.lists[n]
    {
      FilterOutTwice(s.lists[n], a, b);
    }
    assert t.lists == u.lists;
    assert t.pairs == u.pairs;
  }

  lemma RemoveNothing(s: State)
    ensures RemovePairs(s, {}) == s
  {
    FilterOutNothing(s.queue, {});
    forall n | 0 <= n < |s.lists|
      ensures FilterOut(s.lists[n], {}) == s.lists[n]
    {
      FilterOutNothing(s.lists[n], {});
    }
    assert RemovePairs(s, {}).lists == s.lists;
    assert s.pairs - {} == s.pairs;
  }

  // ----- pruning the pending checks of a component

  // What the loop does to one pair.
  function PruneOne(s: State, c: nat, id: PairId): State
    requires c < |s.comps| && id in s.pairs
  {
    var p, priority := s.pairs[id], s.comps[c].selPriority;
    if p.comp != c then s
    else if id in s.queue && !p.state.InProgress? then
      if p.priority < priority then RemovePairs(s, {id}) else s
    else if Pending(p) then RemovePairs(s, {id})
    else if p.state.InProgress? then
      if p.priority < priority then Dequeue(SetPair(s, id, p.(retransmit := false)), id)
      else if p.stun != [] then SetPair(s, id, p.(retransmit := true))
      else s
    else s
  }

  function SilencedUpTo(s: State, c: nat, done: set<PairId>): (t: State)
    requires c < |s.comps|
    ensures t.comps == s.comps && t.pairs.Keys == s.pairs.Keys
  {
    s.(pairs := map id | id in s.pairs :: if id in done then PrunedPair(s, c, id) else s.pairs[id],
       queue := FilterOut(s.queue, QuietUpTo(s, c, done)))
  }

  function QuietUpTo(s: State, c: nat, done: set<PairId>): set<PairId>
    requires c < |s.comps|
  {
    set id | id in s.pairs && id in done && PruneSilences(s, c, id)
  }

  function GoneUpTo(s: State, c: nat, done: set<PairId>): set<PairId>
    requires c < |s.comps|
  {
    set id | id in s.pairs && id in done && PruneDrops(s, c, id)
  }

  // The state of the loop after the pairs `done`.
  function PrunedUpTo(s: State, c: nat, done: set<PairId>): (t: State)
    requires c < |s.comps|
    ensures t.comps == s.comps
  {
    RemovePairs(SilencedUpTo(s, c, done), GoneUpTo(s, c, done))
  }

  lemma PrunedStart(s: State, c: nat, done: set<PairId>)
    requires c < |s.comps| && done == {}
    ensures PrunedUpTo(s, c, done) == s
  {
    var t := SilencedUpTo(s, c, done);
    assert QuietUpTo(s, c, done) == {};
    FilterOutNothing(s.queue, {});
    assert t.pairs == s.pairs;
    assert GoneUpTo(s, c, done) == {};
    RemoveNothing(s);
  }

  lemma PrunedEnd(s: State, c: nat, done: set<PairId>)
    requires c < |s.comps|
    requires forall id :: id in s.pairs && s.pairs[id].comp == c ==> id in done
    ensures PrunedUpTo(s, c, done) == PrunePending(s, c)
  {
    hide FilterOut, RemovePairs;
    assert SilencedUpTo(s, c, done).pairs == Silenced(s, c).pairs;
    assert QuietUpTo(s, c, done) == set id | id in s.pairs && PruneSilences(s, c, id);
    assert GoneUpTo(s, c, done) == PruneGone(s, c);
  }

  lemma PrunedMember(s: State, c: nat, done: set<PairId>, id: PairId)
    requires c < |s.comps| && id in s.pairs && id !in done
    ensures var t := PrunedUpTo(s, c, done);
            id in t.pairs && t.pairs[id] == s.pairs[id] && (id in t.queue <==> id in s.queue)
  {
    hide FilterOut;
    var quiet := QuietUpTo(s, c, done);
    FilterOutMembers(s.queue, quiet);
    FilterOutMembers(FilterOut(s.queue, quiet), GoneUpTo(s, c, done));
  }

  lemma DropStep(s: State, c: nat, done: set<PairId>, id: PairId)
    requires c < |s.comps| && id in s.pairs && id !in done && PruneDrops(s, c, id)
    ensures PrunedUpTo(s, c, done + {id}) == RemovePairs(PrunedUpTo(s, c, done), {id})
  {
    hide FilterOut;
    RemoveTwice(SilencedUpTo(s, c, done), GoneUpTo(s, c, done), {id});
    assert GoneUpTo(s, c, done + {id}) == GoneUpTo(s, c, done) + {id};
    assert QuietUpTo(s, c, done + {id}) == QuietUpTo(s, c, done);
    assert SilencedUpTo(s, c, done + {id}) == SilencedUpTo(s, c, done) by {
      assert PrunedPair(s, c, id) == s.pairs[id];
      assert SilencedUpTo(s, c, done + {id}).pairs == SilencedUpTo(s, c, done).pairs;
    }
  }

  lemma SameGone(s: State, c: nat, done: set<PairId>, id: PairId)
    requires c < |s.comps| && id in s.pairs && !PruneDrops(s, c, id)
    ensures GoneUpTo(s, c, done + {id}) == GoneUpTo(s, c, done)
  {
  }

  lemma SameQuiet(s: State, c: nat, done: set<PairId>, id: PairId)
    requires c < |s.comps| && id in s.pairs && !PruneSilences(s, c, id)
    ensures SilencedUpTo(s, c, done + {id}).queue == SilencedUpTo(s, c, done).queue
  {
    assert QuietUpTo(s, c, done + {id}) == QuietUpTo(s, c, done);
  }

  // A pair that stays: its record becomes the pruned one, and it may leave the queue.
  lemma KeepStep(s: State, c: nat, done: set<PairId>, id: PairId)
    requires c < |s.comps| && id in s.pairs && id !in done && !PruneDrops(s, c, id) && !PruneSilences(s, c, id)
    ensures PrunedUpTo(s, c, done + {id}) == SetPair(PrunedUpTo(s, c, done), id, PrunedPair(s, c, id))
  {
    hide FilterOut, PrunedPair, PruneSilences, PruneDrops;
    SameGone(s, c, done, id);
    SameQuiet(s, c, done, id);
    var a, b := PrunedUpTo(s, c, done + {id}), SetPair(PrunedUpTo(s, c, done), id, PrunedPair(s, c, id));
    assert a.pairs == b.pairs;
    assert a.lists == b.lists;
  }

  lemma SilenceStep(s: State, c: nat, done: set<PairId>, id: PairId)
    requires c < |s.comps| && id in s.pairs && id !in done && PruneSilences(s, c, id)
    ensures PrunedUpTo(s, c, done + {id}) == Dequeue(SetPair(PrunedUpTo(s, c, done), id, PrunedPair(s, c, id)), id)
  {
    hide FilterOut, PrunedPair;
    assert !PruneDrops(s, c, id);
    SameGone(s, c, done, id);
    var gone := GoneUpTo(s, c, done);
    var quiet := QuietUpTo(s, c, done);
    assert QuietUpTo(s, c, done + {id}) == quiet + {id};
    FilterOutTwice(s.queue, quiet, gone);
    FilterOutTwice(s.queue, quiet + gone, {id});
    FilterOutTwice(s.queue, quiet + {id}, gone);
    assert quiet + gone + {id} == quiet + {id} + gone;
    var a, b := PrunedUpTo(s, c, done + {id}), Dequeue(SetPair(PrunedUpTo(s, c, done), id, PrunedPair(s, c, id)), id);
    assert a.pairs == b.pairs;
    assert a.lists == b.lists;
  }

  /** One turn of the pruning loop extends the pruned part by one pair. */
  lemma PruneStep(s: State, c: nat, done: set<PairId>, id: PairId)
    requires c < |s.comps| && id in s.pairs && id !in done
    ensures id in PrunedUpTo(s, c, done).pairs
    ensures PruneOne(PrunedUpTo(s, c, done), c, id) == PrunedUpTo(s, c, done + {id})
  {
    hide PrunedUpTo, RemovePairs, Dequeue;
    PrunedMember(s, c, done, id);
    if PruneDrops(s, c, id) {
      DropStep(s, c, done, id);
    } else if PruneSilences(s, c, id) {
      SilenceStep(s, c, done, id);
    } else {
      KeepStep(s, c, done, id);
      var t := PrunedUpTo(s, c, done);
      assert t.pairs[id := t.pairs[id]] == t.pairs;
    }
  }

  // ----- limiting the size of a check list

  function LimitUpTo(s: State, n: nat, k: nat): set<PairId>
    requires n < |s.lists| && k <= |s.lists[n]|
  {
    var xs := s.lists[n];
    set i | 0 <= i < k && xs[i] in s.pairs && LimitDrop(s, i, xs[i]) :: xs[i]
  }

  predicate LimitDrop(s: State, i: nat, id: PairId)
    requires id in s.pairs
  {
    (i + 1 > s.cfg.maxChecks && s.pairs[id].state.Frozen?) || s.pairs[id].state.FailedCheck?
  }

  lemma LimitEnd(s: State, n: nat)
    requires n < |s.lists|
    ensures LimitUpTo(s, n, |s.lists[n]|) == LimitDrops(s, n)
  {
  }

  lemma LimitStep(s: State, n: nat, k: nat)
    requires n < |s.lists| && k < |s.lists[n]| && s.lists[n][k] in s.pairs
    ensures var id := s.lists[n][k];
            LimitUpTo(s, n, k + 1) == LimitUpTo(s, n, k) + (if LimitDrop(s, k, id) then {id} else {})
  {
  }

  lemma LimitMember(s: State, n: nat, k: nat)
    requires n < |s.lists| && k < |s.lists[n]| && Distinct(s.lists[n])
    ensures s.lists[n][k] !in LimitUpTo(s, n, k)
  {
  }

  // ----- freeing a pair touches one list only

  // The list `n` and the queue lose `id`; the other lists never had it.
  function FreeFrom(s: State, n: nat, id: PairId): State
    requires n < |s.lists|
  {
    s.(pairs := s.pairs - {id}, lists := s.lists[n := FilterOut(s.lists[n], {id})], queue := FilterOut(s.queue, {id}))
  }

  lemma FreeIsRemove(s: State, n: nat, id: PairId)
    requires n < |s.lists| && forall m :: 0 <= m < |s.lists| && m != n ==> id !in s.lists[m]
    ensures FreeFrom(s, n, id) == RemovePairs(s, {id})
  {
    hide FilterOut;
    var t := RemovePairs(s, {id});
    forall m | 0 <= m < |s.lists| && m != n
      ensures t.lists[m] == s.lists[m]
    {
      FilterOutNothing(s.lists[m], {id});
    }
    assert t.lists == FreeFrom(s, n, id).lists;
  }

  lemma OnlyInOwnList(s: State, gone: set<PairId>, n: nat, id: PairId)
    requires WellFormed(s) && n < |s.lists| && id in s.lists[n]
    ensures forall m :: 0 <= m < |s.lists| && m != n ==> id !in FilterOut(s.lists[m], gone)
  {
    forall m | 0 <= m < |s.lists| && m != n
      ensures id !in FilterOut(s.lists[m], gone)
    {
      FilterOutMembers(s.lists[m], gone);
      assert ListOk(s.lists[m], m, s.pairs, s.comps) && ListOk(s.lists[n], n, s.pairs, s.comps);
    }
  }
}
