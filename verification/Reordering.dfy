/** The staff reorder: which requests it takes, and that the queue then reads back as requested. */
module Reordering {
  import opened Listing
  import opened Lists
  import opened Calendar
  import opened Rules
  import opened Lifecycle
  import opened Ranks

  // ------------------------------------------------------------------ which requests are taken

  lemma {:induction false} NoRepeatsIsASet(ids: seq<nat>)
    ensures NoRepeats(ids) <==> multiset(ids) == multiset(set i | i in ids)
  {
    if ids != [] {
      var n := |ids| - 1;
      var head, last := ids[..n], ids[n];
      NoRepeatsIsASet(head);
      assert ids == head + [last];
      if last in head { RepeatIsNotASet(head, last); } else { NewIsStillASet(head, last); }
    }
  }

  lemma RepeatIsNotASet(head: seq<nat>, last: nat)
    requires last in head
    ensures var ids := head + [last]; !NoRepeats(ids) && multiset(ids) != multiset(set i | i in ids)
  {
    var ids := head + [last];
    var k :| 0 <= k < |head| && head[k] == last;
    assert ids[k] == ids[|head|];
    assert multiset(ids)[last] >= 2 && multiset(set i | i in ids)[last] == 1;
  }

  lemma NewIsStillASet(head: seq<nat>, last: nat)
    requires last !in head
    ensures
      var ids := head + [last];
      && (NoRepeats(ids) <==> NoRepeats(head))
      && (multiset(ids) == multiset(set i | i in ids) <==> multiset(head) == multiset(set i | i in head))
  {
    var ids := head + [last];
    var members, all := set i | i in head, set i | i in ids;
    assert all == members + {last};
    assert multiset(all) == multiset(members) + multiset{last};
    assert multiset(ids) == multiset(head) + multiset{last};
    assert multiset(ids) == multiset(all) ==> multiset(head) == multiset(ids) - multiset{last};
    if NoRepeats(ids) {
      forall a, b | 0 <= a < b < |head| ensures head[a] != head[b] { assert ids[a] != ids[b]; }
    }
  }

  /** A reorder is taken exactly when the request names every live row of the day's queue, SEATED ones
      included, once each and nothing else; a refused one changes nothing. */
  lemma ReorderTakesPermutations(s: State, ids: seq<nat>, wall: Instant)
    ensures Reorder(s, ids, wall).reply.Ok? <==>
      NoRepeats(ids) && forall i :: i in ids <==> i in ActiveIds(s.rows, QueueDay(s, wall))
    ensures Reorder(s, ids, wall).reply.Refused? ==> Reorder(s, ids, wall) == Refuse(s, Conflict)
  {
    var live, members := ActiveIds(s.rows, QueueDay(s, wall)), set i | i in ids;
    NoRepeatsIsASet(ids);
    if multiset(ids) == multiset(live) {
      ReorderTouchesActiveOnly(s, ids, wall);
      assert members == live;
    }
    if NoRepeats(ids) && forall i :: i in ids <==> i in live { assert members == live; }
  }

  // ------------------------------------------------------------------ what a taken request does

  lemma {:induction false} IndexOfIsTheIndex(ids: seq<nat>, k: nat)
    requires NoRepeats(ids) && k < |ids|
    ensures IndexOf(ids, ids[k]) == k
  {
    if k > 0 {
      assert ids[0] != ids[k] && ids[1..][k - 1] == ids[k];
      IndexOfIsTheIndex(ids[1..], k - 1);
    }
  }

  /** The k-th row named gets `sort_order` k+1; no other column of any row changes, and no row of the
      store outside the request changes at all. */
  lemma ReorderNumbersTheRequest(s: State, ids: seq<nat>, wall: Instant)
    requires Reorder(s, ids, wall).reply.Ok?
    ensures
      var after := Reorder(s, ids, wall).after;
      && after == s.(rows := after.rows) && |after.rows| == |s.rows|
      && (forall k :: 0 <= k < |ids| ==> ids[k] < |s.rows| && after.rows[ids[k]] == s.rows[ids[k]].(sortOrder := k + 1))
      && (forall i :: 0 <= i < |s.rows| && i !in ids ==> after.rows[i] == s.rows[i])
  {
    ReorderTakesPermutations(s, ids, wall);
    forall k | 0 <= k < |ids| ensures IndexOf(ids, ids[k]) == k && ids[k] < |s.rows| {
      IndexOfIsTheIndex(ids, k);
      assert ids[k] in ids;
    }
  }

  /** The queue reads back exactly as requested. */
  lemma QueueReadsBackAsRequested(s: State, ids: seq<nat>, wall: Instant)
    requires Reorder(s, ids, wall).reply.Ok?
    ensures QueueList(Reorder(s, ids, wall).after, QueueDay(s, wall)) == ids
  {
    var after, day := Reorder(s, ids, wall).after, QueueDay(s, wall);
    ReorderTakesPermutations(s, ids, wall);
    ReorderNumbersTheRequest(s, ids, wall);
    var live := LiveIds(after.rows, day);
    ReorderKeepsLive(s, ids, wall);
    SameMembersSameRows(ids, live);
    SortedIsAListing(after.rows, live);
    OneListing(after.rows, ids, Sort(live, ListOrder(after.rows)));
  }

  lemma SameMembersSameRows(a: seq<nat>, b: seq<nat>)
    requires NoRepeats(a) && NoRepeats(b) && forall i :: i in a <==> i in b
    ensures multiset(a) == multiset(b)
  {
    NoRepeatsIsASet(a);
    NoRepeatsIsASet(b);
    assert (set i | i in a) == (set i | i in b);
  }

  lemma ReorderKeepsLive(s: State, ids: seq<nat>, wall: Instant)
    requires Reorder(s, ids, wall).reply.Ok?
    ensures
      var after, day := Reorder(s, ids, wall).after, QueueDay(s, wall);
      forall i :: i in LiveIds(after.rows, day) <==> i in ids
  {
    var after, day := Reorder(s, ids, wall).after, QueueDay(s, wall);
    ReorderTakesPermutations(s, ids, wall);
    forall i | 0 <= i < |s.rows| ensures Live(after.rows, day, i) <==> i in ActiveIds(s.rows, day) {}
    var live := LiveIds(after.rows, day);
    forall i | i in live ensures i in ids {
      var a :| 0 <= a < |live| && live[a] == i;
    }
  }

  /** A guest's `waiting_ahead` is the number of WAITING guests named earlier in the request. */
  lemma RankIsPlaceInRequest(s: State, ids: seq<nat>, wall: Instant, k: nat)
    requires Reorder(s, ids, wall).reply.Ok? && k < |ids|
    requires Names(s.rows, ids) && s.rows[ids[k]].status == Waiting
    ensures
      var after := Reorder(s, ids, wall).after.rows;
      AheadOf(after, ids[k]) == set m | 0 <= m < k && s.rows[ids[m]].status == Waiting :: ids[m]
  {
    var after := Reorder(s, ids, wall).after.rows;
    ReorderTakesPermutations(s, ids, wall);
    ReorderNumbersTheRequest(s, ids, wall);
    var named := set m | 0 <= m < k && s.rows[ids[m]].status == Waiting :: ids[m];
    forall j | j in AheadOf(after, ids[k]) ensures j in named {
      assert j in ActiveIds(s.rows, QueueDay(s, wall));
      var m :| 0 <= m < |ids| && ids[m] == j;
      assert after[j].sortOrder == m + 1;
    }
    forall m | 0 <= m < k && s.rows[ids[m]].status == Waiting ensures ids[m] in AheadOf(after, ids[k]) {
      assert ids[m] in ids && ids[k] in ids;
    }
  }
}
