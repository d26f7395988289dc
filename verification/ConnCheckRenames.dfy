/** Exactly when an updated remote candidate leaves a FROZEN pair beside a SUCCEEDED pair of its foundation.

The list is walked in the order of the recalculated priorities; a SUCCEEDED pair that is renamed
unfreezes the pairs that have its new foundation by then. */
module ConnCheckRenames {
  import opened Basics
  import opened CandidatePriority
  import opened ConnCheckState
  import opened ConnCheckSpec
  import opened ConnCheckHandlers
  import opened ConnCheckSessions
  import opened ConnCheckSockets

  // The walk gives this pair another foundation.
  predicate Retitled(s: State, r: CandId, id: PairId) {
    id in s.pairs && s.pairs[id].remote == r && NewFoundation(s, s.pairs[id]) != s.pairs[id].foundation
  }

  // The foundation of a pair once the walk has passed `ids`.
  function TitleAfter(s: State, r: CandId, ids: seq<PairId>, id: PairId): string
    requires id in s.pairs
  {
    if id in ids && s.pairs[id].remote == r then NewFoundation(s, s.pairs[id]) else s.pairs[id].foundation
  }

  // The walk unfreezes the pair `a` when it renames the SUCCEEDED pair at position `k`.
  predicate ThawsAt(s: State, r: CandId, ids: seq<PairId>, k: nat, a: PairId)
    requires k < |ids| && a in s.pairs
  {
    && Retitled(s, r, ids[k]) && s.pairs[ids[k]].state.Succeeded?
    && NewFoundation(s, s.pairs[ids[k]]) == TitleAfter(s, r, ids[..k], a)
  }

  predicate ThawsAlong(s: State, r: CandId, ids: seq<PairId>, a: PairId)
    requires a in s.pairs
  {
    exists k :: 0 <= k < |ids| && ThawsAt(s, r, ids, k, a)
  }

  // ----- the walk, pair by pair

  // Of a pair, only its foundation and state may change.
  predicate SameEnds(s: State, t: State) {
    && t.cands == s.cands && t.pairs.Keys == s.pairs.Keys
    && forall a :: a in s.pairs ==> SameButName(s.pairs[a], t.pairs[a])
  }

  predicate SameButName(p: Pair, q: Pair) {
    q == p.(foundation := q.foundation, state := q.state)
  }

  lemma ThawName(p: Pair, f: string, g: string)
    ensures SameButName(p, p) && SameButName(p, Thaw(p, g))
    ensures SameButName(p, p.(foundation := f)) && SameButName(p, Thaw(p.(foundation := f), g))
  {
  }

  lemma NotRenamed(s: State, c: nat, r: CandId, id: PairId)
    requires c < |s.comps| && id in s.pairs && !Retitled(s, r, id)
    ensures RenameOne(s, c, r, id) == s
  {
  }

  lemma RenameOneEnds(s: State, c: nat, r: CandId, id: PairId)
    requires c < |s.comps| && id in s.pairs
    ensures SameEnds(s, RenameOne(s, c, r, id))
  {
    hide RenameOne, NewFoundation, SameButName, Thaw;
    if Retitled(s, r, id) {
      RenamedPairs(s, c, r, id);
    } else {
      NotRenamed(s, c, r, id);
    }
    var f := NewFoundation(s, s.pairs[id]);
    forall a | a in s.pairs
      ensures SameButName(s.pairs[a], RenameOne(s, c, r, id).pairs[a])
    {
      ThawName(s.pairs[a], f, f);
    }
  }

  lemma RenameOneEffect(s: State, c: nat, r: CandId, id: PairId, a: PairId)
    requires c < |s.comps| && id in s.pairs && a in s.pairs
    ensures var t := RenameOne(s, c, r, id);
            && a in t.pairs
            && t.pairs[a].foundation == TitleAfter(s, r, [id], a)
            && t.pairs[a].state == (if s.pairs[a].state.Frozen? && ThawsAt(s, r, [id], 0, a) then Waiting
                                    else s.pairs[a].state)
  {
    hide RenameOne, NewFoundation;
    if Retitled(s, r, id) {
      RenamedPairs(s, c, r, id);
    } else {
      NotRenamed(s, c, r, id);
    }
  }

  lemma SameName(s: State, t: State, a: PairId)
    requires a in s.pairs && SameEnds(s, t) && EndsOk(s.pairs, s.cands)
    ensures NewFoundation(t, t.pairs[a]) == NewFoundation(s, s.pairs[a])
  {
  }

  // The later part of the walk, seen from the state before its first step.
  lemma ThawsLater(s: State, c: nat, r: CandId, ids: seq<PairId>, a: PairId, k: nat)
    requires c < |s.comps| && ids != [] && a in s.pairs && Distinct(ids) && EndsOk(s.pairs, s.cands)
    requires forall x :: x in ids ==> x in s.pairs
    requires 0 < k < |ids|
    ensures var t := RenameOne(s, c, r, ids[0]);
            a in t.pairs && ThawsAt(t, r, ids[1..], k - 1, a) == ThawsAt(s, r, ids, k, a)
  {
    hide RenameOne, NewFoundation, SameEnds;
    var t := RenameOne(s, c, r, ids[0]);
    var b := ids[k];
    assert b in ids && b != ids[0] && ids[1..][k - 1] == b;
    RenameOneEnds(s, c, r, ids[0]);
    RenameOneEffect(s, c, r, ids[0], a);
    RenameOneEffect(s, c, r, ids[0], b);
    SameName(s, t, a);
    SameName(s, t, b);
    SameRemote(s, t, a);
    SameRemote(s, t, b);
    assert ids[..k] == [ids[0]] + ids[1..][..k - 1];
    assert a in ids[..k] <==> a == ids[0] || a in ids[1..][..k - 1];
    assert a == ids[0] ==> a !in ids[1..][..k - 1];
  }

  lemma SameRemote(s: State, t: State, a: PairId)
    requires a in s.pairs && SameEnds(s, t)
    ensures a in t.pairs && t.pairs[a].remote == s.pairs[a].remote
  {
  }

  lemma {:induction false} RenameAlongEffect(s: State, c: nat, r: CandId, ids: seq<PairId>, a: PairId)
    requires c < |s.comps| && a in s.pairs && Distinct(ids) && EndsOk(s.pairs, s.cands)
    requires forall x :: x in ids ==> x in s.pairs
    ensures var t := RenameAlong(s, c, r, ids);
            && SameEnds(s, t)
            && t.pairs[a].foundation == TitleAfter(s, r, ids, a)
            && t.pairs[a].state == (if s.pairs[a].state.Frozen? && ThawsAlong(s, r, ids, a) then Waiting else s.pairs[a].state)
    decreases |ids|
  {
    hide RenameOne, NewFoundation, EndsOk;
    if ids != [] {
      var t := RenameOne(s, c, r, ids[0]);
      RenameOneEnds(s, c, r, ids[0]);
      RenameOneEffect(s, c, r, ids[0], a);
      EndsStay(s, t);
      RenameAlongEffect(t, c, r, ids[1..], a);
      SameName(s, t, a);
      assert a in ids <==> a == ids[0] || a in ids[1..];
      ThawsSplit(s, c, r, ids, a);
    }
  }

  lemma EndsStay(s: State, t: State)
    requires EndsOk(s.pairs, s.cands) && SameEnds(s, t)
    ensures EndsOk(t.pairs, t.cands)
  {
  }

  lemma ThawsSplit(s: State, c: nat, r: CandId, ids: seq<PairId>, a: PairId)
    requires c < |s.comps| && ids != [] && a in s.pairs && Distinct(ids) && EndsOk(s.pairs, s.cands)
    requires forall x :: x in ids ==> x in s.pairs
    ensures var t := RenameOne(s, c, r, ids[0]);
            a in t.pairs && (ThawsAlong(s, r, ids, a) <==> ThawsAt(s, r, [ids[0]], 0, a) || ThawsAlong(t, r, ids[1..], a))
  {
    hide RenameOne, NewFoundation, EndsOk, ThawsAt;
    var t := RenameOne(s, c, r, ids[0]);
    RenameOneEffect(s, c, r, ids[0], a);
    FirstThaw(s, r, ids, a);
    forall k | 0 < k < |ids|
      ensures ThawsAt(t, r, ids[1..], k - 1, a) == ThawsAt(s, r, ids, k, a)
    {
      ThawsLater(s, c, r, ids, a, k);
    }
    if ThawsAlong(t, r, ids[1..], a) {
      var k :| 0 <= k < |ids[1..]| && ThawsAt(t, r, ids[1..], k, a);
      assert ThawsAt(s, r, ids, k + 1, a);
    }
  }

  lemma FirstThaw(s: State, r: CandId, ids: seq<PairId>, a: PairId)
    requires ids != [] && a in s.pairs
    ensures ThawsAt(s, r, [ids[0]], 0, a) == ThawsAt(s, r, ids, 0, a)
  {
    assert ids[..0] == [ids[0]][..0];
  }

  // ----- the whole update

  // After the walk `a` is FROZEN, `b` is SUCCEEDED and they share a foundation.
  predicate Clash(s: State, r: CandId, ids: seq<PairId>, a: PairId, b: PairId)
    requires a in s.pairs && b in s.pairs
  {
    && s.pairs[a].state.Frozen? && !ThawsAlong(s, r, ids, a) && s.pairs[b].state.Succeeded?
    && TitleAfter(s, r, ids, a) == TitleAfter(s, r, ids, b)
  }

  lemma RenameAlongClash(s: State, c: nat, r: CandId, ids: seq<PairId>, a: PairId, b: PairId)
    requires c < |s.comps| && a in s.pairs && b in s.pairs && Distinct(ids) && EndsOk(s.pairs, s.cands)
    requires forall x :: x in ids ==> x in s.pairs
    ensures var t := RenameAlong(s, c, r, ids);
            && t.pairs.Keys == s.pairs.Keys
            && (t.pairs[a].state.Frozen? && t.pairs[b].state.Succeeded? && t.pairs[a].foundation == t.pairs[b].foundation <==>
                Clash(s, r, ids, a, b))
  {
    hide RenameAlong, ThawsAlong, TitleAfter;
    RenameAlongEffect(s, c, r, ids, a);
    RenameAlongEffect(s, c, r, ids, b);
  }

  // The updated candidate with its new priorities, before any pair is renamed.
  function Updated(s: State, r: CandId, k: Candidate): (t: State)
    ensures SameShape(s, t)
  {
    Recalculate(s.(cands := s.cands[r := k]))
  }

  /** The update leaves a FROZEN pair beside a SUCCEEDED pair of its foundation: both stay, and no
      SUCCEEDED pair renamed by the walk took the foundation the FROZEN pair had at that moment. */
  predicate Refreezes(s: State, c: nat, r: CandId, k: Candidate)
    requires HasComp(s, c)
  {
    var v := Updated(s, r, k);
    var u := Reselected(Renamed(s, c, r, k), c);
    exists a, b :: a in v.pairs && b in v.pairs && a in u.pairs && b in u.pairs &&
      Clash(v, r, StreamList(v, c), a, b) && Kept(u, c, a) && Kept(u, c, b)
  }

  lemma UpdatedWalk(s: State, c: nat, r: CandId, k: Candidate)
    requires Inv(s) && HasComp(s, c) && r in s.cands && !s.cands[r].isLocal && !k.isLocal && k.priority < TWO_32
    ensures var v := Updated(s, r, k);
            && EndsOk(v.pairs, v.cands) && Distinct(StreamList(v, c))
            && forall x :: x in StreamList(v, c) ==> x in v.pairs
  {
    hide CandsOk, LinksOk, QueueOk, PairsListed, Recalculate, Sorted, Priced;
    NewRemoteWellFormed(s, r, k);
    RecalculateWellFormed(s.(cands := s.cands[r := k]));
    assert ListOk(Updated(s, r, k).lists[s.comps[c].stream], s.comps[c].stream, Updated(s, r, k).pairs, Updated(s, r, k).comps);
  }

  lemma ReselectedPairs(s: State, c: nat)
    requires HasComp(s, c)
    ensures Reselected(s, c).pairs == s.pairs
  {
  }

  // One pair of pairs: together after the update exactly when they clash and both stay.
  lemma UpdateRemoteClash(s: State, c: nat, r: CandId, k: Candidate, a: PairId, b: PairId)
    requires Inv(s) && HasComp(s, c) && r in s.cands && !s.cands[r].isLocal && !k.isLocal && k.priority < TWO_32
    requires a in Updated(s, r, k).pairs && b in Updated(s, r, k).pairs
    ensures var v, u := Updated(s, r, k), Reselected(Renamed(s, c, r, k), c);
            var t := UpdateForReady(u, c);
            && a in u.pairs && b in u.pairs && t.pairs.Keys <= u.pairs.Keys == v.pairs.Keys
            && (a in t.pairs && b in t.pairs && t.pairs[a].state.Frozen? && t.pairs[b].state.Succeeded? &&
                t.pairs[a].foundation == t.pairs[b].foundation <==>
                Clash(v, r, StreamList(v, c), a, b) && Kept(u, c, a) && Kept(u, c, b))
  {
    hide Inv, Recalculate, RenameAlong, Clash, Kept, Reselected, UpdateForReady, EndsOk, Distinct;
    var v := Updated(s, r, k);
    UpdatedWalk(s, c, r, k);
    RenameAlongClash(v, c, r, StreamList(v, c), a, b);
    var w := Renamed(s, c, r, k);
    assert w == RenameAlong(v, c, r, StreamList(v, c));
    ReselectedPairs(w, c);
    UpdateForReadyKept(Reselected(w, c), c, a);
    UpdateForReadyKept(Reselected(w, c), c, b);
  }

  /** An updated remote candidate leaves no FROZEN pair beside a SUCCEEDED pair of its foundation,
      exactly when it does not refreeze. */
  lemma UpdateRemoteThawed(s: State, c: nat, r: CandId, priority: nat, foundation: string, kind: CandidateType)
    requires Inv(s) && HasComp(s, c) && r in s.cands && !s.cands[r].isLocal
    requires 0 < priority < TWO_32
    ensures Thawed(UpdateRemote(s, c, r, priority, foundation, kind).pairs) <==>
            !Refreezes(s, c, r, NewRemote(s.cands[r], priority, foundation, kind))
  {
    hide Inv, Recalculate, Renamed, Clash, Kept, Reselected, UpdateForReady, Updated;
    var k := NewRemote(s.cands[r], priority, foundation, kind);
    var v, u := Updated(s, r, k), Reselected(Renamed(s, c, r, k), c);
    var t := UpdateForReady(u, c);
    UpdateForReadyTakes(u, c);
    RenamedKeys(s, c, r, k);
    forall a, b | a in v.pairs && b in v.pairs
      ensures a in u.pairs && b in u.pairs && t.pairs.Keys <= u.pairs.Keys == v.pairs.Keys
      ensures a in t.pairs && b in t.pairs && t.pairs[a].state.Frozen? && t.pairs[b].state.Succeeded? &&
              t.pairs[a].foundation == t.pairs[b].foundation <==>
              Clash(v, r, StreamList(v, c), a, b) && Kept(u, c, a) && Kept(u, c, b)
    {
      UpdateRemoteClash(s, c, r, k, a, b);
    }
  }

  lemma RenamedKeys(s: State, c: nat, r: CandId, k: Candidate)
    requires HasComp(s, c)
    ensures Reselected(Renamed(s, c, r, k), c).pairs.Keys == Updated(s, r, k).pairs.Keys
  {
    hide Recalculate, RenameAlong, Reselected;
    ReselectedPairs(Renamed(s, c, r, k), c);
    RenameAlongKeys(Updated(s, r, k), c, r, StreamList(Updated(s, r, k), c));
  }

  lemma {:induction false} RenameAlongKeys(s: State, c: nat, r: CandId, ids: seq<PairId>)
    requires c < |s.comps|
    ensures RenameAlong(s, c, r, ids).pairs.Keys == s.pairs.Keys
    decreases |ids|
  {
    hide RenameOne, SameButName;
    if ids != [] {
      if ids[0] in s.pairs {
        RenameOneEnds(s, c, r, ids[0]);
        RenameAlongKeys(RenameOne(s, c, r, ids[0]), c, r, ids[1..]);
      } else {
        RenameAlongKeys(s, c, r, ids[1..]);
      }
    }
  }
}
