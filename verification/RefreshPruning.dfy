/** TURN refreshes, their asynchronous removal, and the close request that waits for it.

A removal request registers the refreshes it disposes of in a countdown; freeing a refresh counts it
down, and the countdown that reaches zero runs its callback and goes. `callbacks` is the log of the
countdowns whose callback has run, `closed` counts the close tasks that completed. */
module RefreshPruning {
  import opened Basics

  type RefreshId = nat
  type PruneId = nat

  datatype Refresh = Refresh(stream: nat, candidate: nat, sock: nat, prune: Option<PruneId>)

  // g_slist_remove, of a list without duplicates.
  function Without(xs: seq<nat>, x: nat): seq<nat> {
    if xs == [] then [] else if xs[0] == x then xs[1..] else [xs[0]] + Without(xs[1..], x)
  }

  lemma {:induction false} WithoutFacts(xs: seq<nat>, x: nat)
    requires Distinct(xs)
    ensures Distinct(Without(xs, x)) && forall y :: y in Without(xs, x) <==> y in xs && y != x
  {
    if xs != [] {
      WithoutFacts(xs[1..], x);
      assert xs[0] !in xs[1..];
      assert forall y :: y in xs <==> y == xs[0] || y in xs[1..];
    }
  }

  // The live refreshes registered in countdown `d`.
  function Registered(live: map<RefreshId, Refresh>, d: PruneId): set<RefreshId> {
    set id | id in live && live[id].prune == Some(d)
  }

  lemma FreedRegistered(live: map<RefreshId, Refresh>, id: RefreshId, d: PruneId)
    requires id in live
    ensures Registered(live - {id}, d) == Registered(live, d) - {id}
    ensures |Registered(live - {id}, d)| == |Registered(live, d)| - (if live[id].prune == Some(d) then 1 else 0)
  {
    assert Registered(live - {id}, d) == Registered(live, d) - {id};
  }

  lemma NewRegistered(live: map<RefreshId, Refresh>, id: RefreshId, d: PruneId, e: PruneId)
    requires id in live && live[id].prune.None?
    ensures var after := live[id := live[id].(prune := Some(d))];
            |Registered(after, e)| == |Registered(live, e)| + (if e == d then 1 else 0)
  {
    var after := live[id := live[id].(prune := Some(d))];
    if e == d {
      assert Registered(after, d) == Registered(live, d) + {id} && id !in Registered(live, d);
    } else {
      assert Registered(after, e) == Registered(live, e);
    }
  }

  // ----- the invariant, over the fields

  /** The refresh list is the live refreshes, the pruning list those registered in a countdown. */
  ghost predicate ListsOk(live: map<RefreshId, Refresh>, refreshList: seq<RefreshId>, pruning: seq<RefreshId>) {
    && Distinct(refreshList) && Distinct(pruning)
    && (forall id :: id in refreshList <==> id in live)
    && forall id :: id in pruning <==> id in live && live[id].prune.Some?
  }

  /** Every countdown stands at the number of live refreshes registered in it; except for the one that is
      being built, it is not zero. */
  ghost predicate CountsOk(live: map<RefreshId, Refresh>, counts: map<PruneId, nat>, building: Option<PruneId>) {
    && (forall id :: id in live && live[id].prune.Some? ==> live[id].prune.value in counts)
    && forall d :: d in counts ==>
         counts[d] == |Registered(live, d)| && (building == Some(d) || counts[d] > 0)
  }

  /** A countdown is pending or has run its callback, once. */
  ghost predicate LogOk(counts: map<PruneId, nat>, callbacks: seq<PruneId>, nextPrune: PruneId) {
    && Distinct(callbacks)
    && (forall d :: d in callbacks ==> d < nextPrune && d !in counts)
    && forall d: PruneId :: d < nextPrune ==> d in counts || d in callbacks
  }

  // A refresh is registered for removal, unless it already is.
  function Dispose(r: Refresh, d: PruneId): Refresh {
    if r.prune.Some? then r else r.(prune := Some(d))
  }

  function Marked(live: map<RefreshId, Refresh>, ids: seq<RefreshId>, d: PruneId): map<RefreshId, Refresh> {
    map id | id in live :: if id in ids then Dispose(live[id], d) else live[id]
  }

  lemma MarkedNone(live: map<RefreshId, Refresh>, d: PruneId)
    ensures Marked(live, [], d) == live
  {
  }

  lemma MarkedStep(live: map<RefreshId, Refresh>, ids: seq<RefreshId>, k: nat, d: PruneId)
    requires k < |ids| && ids[k] in live
    ensures var m := Marked(live, ids[..k], d);
            && ids[k] in m && Marked(live, ids[..k + 1], d) == m[ids[k] := Dispose(m[ids[k]], d)]
            && (m[ids[k]].prune.Some? <==> live[ids[k]].prune.Some? || ids[k] in ids[..k])
            && (ids[k] in ids[..k] ==> exists j :: 0 <= j < k && ids[j] == ids[k])
  {
  }

  // The countdowns after one registered refresh less.
  function Lowered(counts: map<PruneId, nat>, d: PruneId): map<PruneId, nat>
    requires d in counts
  {
    if counts[d] <= 1 then counts - {d} else counts[d := counts[d] - 1]
  }

  lemma FreedLists(live: map<RefreshId, Refresh>, refreshList: seq<RefreshId>, pruning: seq<RefreshId>, id: RefreshId)
    requires ListsOk(live, refreshList, pruning) && id in live
    ensures ListsOk(live - {id}, Without(refreshList, id), Without(pruning, id))
  {
    hide Distinct;
    WithoutFacts(refreshList, id);
    WithoutFacts(pruning, id);
  }

  lemma FreedCounts(live: map<RefreshId, Refresh>, counts: map<PruneId, nat>, id: RefreshId)
    requires CountsOk(live, counts, None) && id in live
    ensures var p := live[id].prune;
            if p.None? then CountsOk(live - {id}, counts, None)
            else && p.value in counts && CountsOk(live - {id}, Lowered(counts, p.value), None)
                 && (counts[p.value] <= 1 <==> Registered(live, p.value) == {id})
  {
    hide Registered;
    forall d | d in counts
      ensures |Registered(live - {id}, d)| == |Registered(live, d)| - (if live[id].prune == Some(d) then 1 else 0)
    {
      FreedRegistered(live, id, d);
    }
    if live[id].prune.Some? {
      LastRegistered(live, id, live[id].prune.value);
    }
  }

  // A countdown that is lowered stays pending, or enters the log it was not in.
  lemma LoggedOnce(counts: map<PruneId, nat>, callbacks: seq<PruneId>, nextPrune: PruneId, d: PruneId)
    requires LogOk(counts, callbacks, nextPrune) && d in counts && d < nextPrune
    ensures d !in callbacks
    ensures LogOk(Lowered(counts, d), if counts[d] <= 1 then callbacks + [d] else callbacks, nextPrune)
  {
    DistinctAppend(callbacks, d);
    hide Distinct;
  }

  lemma StartedCounts(live: map<RefreshId, Refresh>, counts: map<PruneId, nat>, callbacks: seq<PruneId>, d: PruneId)
    requires CountsOk(live, counts, None) && LogOk(counts, callbacks, d) && d !in counts
    ensures CountsOk(live, counts[d := 0], Some(d)) && LogOk(counts[d := 0], callbacks, d + 1) && d !in callbacks
  {
    hide Registered, Distinct;
    NoneRegistered(live, counts, d);
  }

  // When the building of a countdown ends, it is counting, or its callback runs at once.
  lemma BuiltCounts(live: map<RefreshId, Refresh>, counts: map<PruneId, nat>, callbacks: seq<PruneId>, nextPrune: PruneId, d: PruneId)
    requires CountsOk(live, counts, Some(d)) && LogOk(counts, callbacks, nextPrune) && d in counts && d < nextPrune
    ensures if counts[d] > 0 then CountsOk(live, counts, None)
            else CountsOk(live, Lowered(counts, d), None) && LogOk(Lowered(counts, d), callbacks + [d], nextPrune)
  {
    hide Registered;
    LoggedOnce(counts, callbacks, nextPrune, d);
    if counts[d] == 0 {
      EmptyCountdown(live, d);
    }
  }

  class Agent {
    var live: map<RefreshId, Refresh>
    var refreshList: seq<RefreshId>
    var pruning: seq<RefreshId>
    var counts: map<PruneId, nat>
    var nextPrune: PruneId
    var nextRefresh: RefreshId
    var callbacks: seq<PruneId>
    var closeTask: bool
    var resolving: nat
    var requested: nat
    var closed: nat

    ghost predicate Valid()
      reads this
    {
      Building(None)
    }

    // Valid, while the countdown `d` is being built.
    ghost predicate Building(d: Option<PruneId>)
      reads this
    {
      && ListsOk(live, refreshList, pruning)
      && CountsOk(live, counts, d)
      && LogOk(counts, callbacks, nextPrune)
      && (forall e :: e in counts ==> e < nextPrune)
      && (forall id :: id in live ==> id < nextRefresh)
      && closed + (if closeTask then 1 else 0) == requested
    }

    constructor ()
      ensures Valid() && live == map[] && callbacks == [] && closed == 0 && !closeTask
    {
      live, refreshList, pruning, counts := map[], [], [], map[];
      nextPrune, nextRefresh, callbacks := 0, 0, [];
      closeTask, resolving, requested, closed := false, 0, 0, 0;
    }

    method AddRefresh(stream: nat, candidate: nat, sock: nat) returns (id: RefreshId)
      requires Valid()
      modifies this`live, this`refreshList, this`nextRefresh
      ensures Valid() && id !in old(live) && live == old(live)[id := Refresh(stream, candidate, sock, None)]
    {
      hide Distinct;
      id := nextRefresh;
      ghost var before := live;
      DistinctAppend(refreshList, id);
      live := live[id := Refresh(stream, candidate, sock, None)];
      refreshList := refreshList + [id];
      nextRefresh := nextRefresh + 1;
      forall d | d in counts
        ensures Registered(live, d) == Registered(before, d)
      {
      }
    }

    // ----- freeing

    // One registered refresh less: at zero the callback runs and the countdown goes.
    method CountDown(d: PruneId)
      requires d in counts && d !in callbacks
      modifies this`counts, this`callbacks
      ensures counts == Lowered(old(counts), d)
      ensures callbacks == if old(counts[d]) <= 1 then old(callbacks) + [d] else old(callbacks)
    {
      var zero := counts[d] == 0;
      if !zero {
        counts := counts[d := counts[d] - 1];
        zero := counts[d] == 0;
      }
      if zero {
        callbacks := callbacks + [d];
        counts := counts - {d};
      }
    }

    /** Freeing a refresh runs the callback of its removal exactly if it was the last one registered. */
    method Free(id: RefreshId)
      requires Valid() && id in live
      modifies this`live, this`refreshList, this`pruning, this`counts, this`callbacks
      ensures Valid() && live == old(live) - {id}
      ensures var p := old(live[id].prune);
              callbacks == if p.Some? && Registered(old(live), p.value) == {id} then old(callbacks) + [p.value] else old(callbacks)
    {
      hide Registered, ListsOk, CountsOk, LogOk;
      var r := live[id];
      FreedLists(live, refreshList, pruning, id);
      FreedCounts(live, counts, id);
      refreshList := Without(refreshList, id);
      pruning := Without(pruning, id);
      live := live - {id};
      if r.prune.Some? {
        LoggedOnce(counts, callbacks, nextPrune, r.prune.value);
        CountDown(r.prune.value);
      }
    }

    // ----- asynchronous removal

    method PruneOne(id: RefreshId, d: PruneId)
      requires Building(Some(d)) && id in live && d in counts && d !in callbacks
      modifies this`live, this`pruning, this`counts
      ensures Building(Some(d)) && d in counts
      ensures live == old(live)[id := Dispose(old(live[id]), d)]
      ensures counts == if old(live[id].prune.Some?) then old(counts) else old(counts)[d := old(counts[d]) + 1]
    {
      hide Distinct, Registered;
      if live[id].prune.Some? {
        return;
      }
      ghost var before := live;
      DistinctAppend(pruning, id);
      pruning := pruning + [id];
      live := live[id := live[id].(prune := Some(d))];
      counts := counts[d := counts[d] + 1];
      forall e | e in counts
        ensures |Registered(live, e)| == |Registered(before, e)| + (if e == d then 1 else 0)
      {
        NewRegistered(before, id, d, e);
      }
    }

    /** Starts the removal of the given refreshes: those not already being removed are registered, and
        without any the callback runs at once. */
    method PruneAsync(ids: seq<RefreshId>) returns (d: PruneId)
      requires Valid() && forall i :: 0 <= i < |ids| ==> ids[i] in live
      modifies this`live, this`pruning, this`counts, this`nextPrune, this`callbacks
      ensures Valid() && d == old(nextPrune) && nextPrune == d + 1 && live.Keys == old(live).Keys
      ensures live == Marked(old(live), ids, d)
      ensures callbacks == if exists id :: id in ids && old(live)[id].prune.None? then old(callbacks) else old(callbacks) + [d]
    {
      hide Registered, ListsOk, CountsOk, LogOk, Marked;
      d := nextPrune;
      ghost var before := live;
      MarkedNone(live, d);
      StartedCounts(live, counts, callbacks, d);
      counts := counts[d := 0];
      nextPrune := nextPrune + 1;
      for k := 0 to |ids|
        invariant Building(Some(d)) && d in counts && d !in callbacks && callbacks == old(callbacks)
        invariant live.Keys == before.Keys && nextPrune == d + 1
        invariant live == Marked(before, ids[..k], d)
        invariant counts[d] == 0 <==> forall j :: 0 <= j < k ==> before[ids[j]].prune.Some?
      {
        MarkedStep(before, ids, k, d);
        PruneOne(ids[k], d);
      }
      assert ids[..|ids|] == ids;
      BuiltCounts(live, counts, callbacks, nextPrune, d);
      if counts[d] == 0 {
        CountDown(d);
      }
    }

    method PruneStreamAsync(stream: nat) returns (d: PruneId)
      requires Valid()
      modifies this`live, this`pruning, this`counts, this`nextPrune, this`callbacks
      ensures Valid() && live.Keys == old(live).Keys
      ensures forall id :: id in live && live[id].stream == stream ==> live[id].prune.Some?
      ensures forall id :: id in live && live[id].stream != stream ==> live[id] == old(live)[id]
      ensures d in callbacks <==> forall id :: id in old(live) && old(live)[id].stream == stream ==> old(live)[id].prune.Some?
    {
      var ids: seq<RefreshId> := [];
      for k := 0 to |refreshList|
        invariant Valid() && live == old(live) && refreshList == old(refreshList)
        invariant callbacks == old(callbacks) && nextPrune == old(nextPrune)
        invariant forall id :: id in ids <==> id in refreshList[..k] && id in live && live[id].stream == stream
      {
        assert refreshList[k] in live;
        if live[refreshList[k]].stream == stream {
          ids := ids + [refreshList[k]];
        }
      }
      assert refreshList[..|refreshList|] == refreshList;
      d := PruneAsync(ids);
    }

    method PruneCandidateAsync(candidate: nat) returns (d: PruneId)
      requires Valid()
      modifies this`live, this`pruning, this`counts, this`nextPrune, this`callbacks
      ensures Valid() && live.Keys == old(live).Keys
      ensures forall id :: id in live && live[id].candidate == candidate ==> live[id].prune.Some?
      ensures forall id :: id in live && live[id].candidate != candidate ==> live[id] == old(live)[id]
      ensures d in callbacks <==>
              forall id :: id in old(live) && old(live)[id].candidate == candidate ==> old(live)[id].prune.Some?
    {
      var ids: seq<RefreshId> := [];
      for k := 0 to |refreshList|
        invariant Valid() && live == old(live) && refreshList == old(refreshList)
        invariant callbacks == old(callbacks) && nextPrune == old(nextPrune)
        invariant forall id :: id in ids <==> id in refreshList[..k] && id in live && live[id].candidate == candidate
      {
        assert refreshList[k] in live;
        if live[refreshList[k]].candidate == candidate {
          ids := ids + [refreshList[k]];
        }
      }
      assert refreshList[..|refreshList|] == refreshList;
      d := PruneAsync(ids);
    }

    // ----- immediate removal

    /** A destroyed socket takes its refreshes along, being removed or not. */
    method PruneSocket(sock: nat)
      requires Valid()
      modifies this`live, this`refreshList, this`pruning, this`counts, this`callbacks
      ensures Valid()
      ensures live == map id | id in old(live) && old(live)[id].sock != sock :: old(live)[id]
      ensures old(callbacks) <= callbacks && Distinct(callbacks)
      ensures forall d :: d in callbacks <==> d in old(callbacks) || (d in old(counts) && AllOn(old(live), d, sock))
    {
      ghost var before, running, log := live, counts, callbacks;
      var ids := refreshList;
      for k := 0 to |ids|
        invariant Valid() && old(callbacks) <= callbacks
        invariant forall id :: id in live <==> id in before && !(id in ids[..k] && before[id].sock == sock)
        invariant forall id :: id in live ==> live[id] == before[id]
      {
        if ids[k] in live && live[ids[k]].sock == sock {
          Free(ids[k]);
        }
      }
      assert ids[..|ids|] == ids;
      assert live == map id | id in before && before[id].sock != sock :: before[id];
      LogAfter(before, live, running, counts, log, callbacks, nextPrune, sock);
    }

    // ----- closing

    method CloseAsync()
      requires Valid()
      modifies this`closeTask, this`requested
      ensures Valid() && closeTask && closed == old(closed)
    {
      if !closeTask {
        closeTask := true;
        requested := requested + 1;
      }
    }

    /** Every locked handler ends here: a pending close task completes exactly when no refresh is being
        pruned and nothing is being resolved. */
    method UnlockAndEmit() returns (completed: bool)
      requires Valid()
      modifies this`closeTask, this`closed
      ensures Valid()
      ensures completed <==> old(closeTask) && (forall id :: id in live ==> live[id].prune.None?) && resolving == 0
      ensures closed == old(closed) + (if completed then 1 else 0) && closed <= requested
      ensures closeTask <==> old(closeTask) && !completed
    {
      completed := closeTask && pruning == [] && resolving == 0;
      assert pruning != [] ==> pruning[0] in pruning;
      if completed {
        closeTask := false;
        closed := closed + 1;
      }
    }
  }

  // Every refresh registered in the countdown is on the socket.
  predicate AllOn(live: map<RefreshId, Refresh>, d: PruneId, sock: nat) {
    forall id :: id in live && live[id].prune == Some(d) ==> live[id].sock == sock
  }

  // Without the refreshes of a socket, the countdowns that have run are those with nothing left.
  lemma LogAfter(live: map<RefreshId, Refresh>, live': map<RefreshId, Refresh>, counts: map<PruneId, nat>, counts': map<PruneId, nat>,
                 callbacks: seq<PruneId>, callbacks': seq<PruneId>, nextPrune: PruneId, sock: nat)
    requires live' == map id | id in live && live[id].sock != sock :: live[id]
    requires LogOk(counts, callbacks, nextPrune) && LogOk(counts', callbacks', nextPrune)
    requires CountsOk(live', counts', None) && callbacks <= callbacks'
    requires forall d :: d in counts ==> d < nextPrune
    ensures forall d :: d in callbacks' <==> d in callbacks || (d in counts && AllOn(live, d, sock))
  {
    hide Distinct;
    forall d: PruneId | d in counts
      ensures d in callbacks' <==> AllOn(live, d, sock)
    {
      if AllOn(live, d, sock) {
        assert Registered(live', d) == {};
      } else {
        var id :| id in live && live[id].prune == Some(d) && live[id].sock != sock;
        assert id in live' && live'[id].prune == Some(d);
      }
    }
  }

  lemma DistinctAppend(xs: seq<nat>, x: nat)
    requires Distinct(xs) && x !in xs
    ensures Distinct(xs + [x])
  {
  }

  lemma NoneRegistered(live: map<RefreshId, Refresh>, counts: map<PruneId, nat>, d: PruneId)
    requires d !in counts && CountsOk(live, counts, None)
    ensures |Registered(live, d)| == 0
  {
    assert Registered(live, d) == {};
  }

  lemma EmptyCountdown(live: map<RefreshId, Refresh>, d: PruneId)
    requires |Registered(live, d)| == 0
    ensures forall id :: id in live ==> live[id].prune != Some(d)
  {
    assert Registered(live, d) == {};
    forall id | id in live
      ensures live[id].prune != Some(d)
    {
      assert id !in Registered(live, d);
    }
  }

  lemma LastRegistered(live: map<RefreshId, Refresh>, id: RefreshId, d: PruneId)
    requires id in live && live[id].prune == Some(d)
    ensures |Registered(live, d)| >= 1
    ensures |Registered(live, d)| == 1 <==> Registered(live, d) == {id}
    ensures |Registered(live, d)| == 1 ==> forall x :: x in live && x != id ==> live[x].prune != Some(d)
  {
    assert id in Registered(live, d);
    assert Registered(live, d) == {id} + (Registered(live, d) - {id});
    forall x | x in live && x != id && |Registered(live, d)| == 1
      ensures live[x].prune != Some(d)
    {
      assert x !in Registered(live, d) - {id};
    }
  }
}
