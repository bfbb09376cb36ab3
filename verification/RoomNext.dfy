// Advancing: which item takes over, and which items go to the history.
module RoomNext {
  import opened Base
  import opened Order
  import opened Moves
  import opened Store
  import opened RoomSpec
  import opened RoomCommands
  import opened RoomCache
  import opened RoomShape
  import opened RoomSaved

  predicate Failed(media: map<MediaId, Media>, it: Item) { it.media in media && media[it.media].status == MediaFailed }

  // How many items at the head of r cannot play.
  function LeadingFailed(media: map<MediaId, Media>, r: seq<Item>): (k: nat)
    ensures k <= |r|
    ensures forall i :: 0 <= i < k ==> Failed(media, r[i])
    ensures k < |r| ==> !Failed(media, r[k])
  {
    if r == [] || !Failed(media, r[0]) then 0 else 1 + LeadingFailed(media, r[1..])
  }

  function IdSet(q: seq<Item>): set<ItemId> { set it | it in q :: it.id }

  // The rows with these ids marked played now.
  function PlayedNow(rows: Rows, ids: set<ItemId>, now: int): Rows {
    map id | id in rows :: if id in ids then rows[id].(playedAt := Some(now)) else rows[id]
  }

  // The items of s, played one after the other, as the history shows them.
  function NewestFirst(s: seq<Item>, now: int): seq<Item> {
    if s == [] then [] else [s[|s| - 1].(playedAt := Some(now))] + NewestFirst(s[..|s| - 1], now)
  }

  lemma {:induction false} NewestLast(it: Item, s: seq<Item>, now: int)
    ensures NewestFirst([it] + s, now) == NewestFirst(s, now) + [it.(playedAt := Some(now))]
  {
    if s == [] {
      assert ([it] + s)[..0] == [];
    } else {
      NewestLast(it, s[..|s| - 1], now);
      assert ([it] + s)[..|s|] == [it] + s[..|s| - 1];
    }
  }

  lemma TruncatedTwice(a: seq<Item>, b: seq<Item>)
    ensures Truncated(a + Truncated(b)) == Truncated(a + b)
  {
  }

  // s, after the items of gone went from the queue to the history.
  ghost predicate Gone(s: State, t: State, gone: seq<Item>, now: int) {
    && t.db.rows == PlayedNow(s.db.rows, IdSet(gone), now)
    && t.played == Truncated(NewestFirst(gone, now) + s.played)
  }

  lemma GoneThrough(s: State, t: State, u: State, it: Item, rest: seq<Item>, now: int)
    requires Gone(s, t, [it], now) && Gone(t, u, rest, now)
    ensures Gone(s, u, [it] + rest, now)
  {
    assert IdSet([it] + rest) == {it.id} + IdSet(rest);
    assert IdSet([it]) == {it.id};
    NewestLast(it, rest, now);
    var one := [it.(playedAt := Some(now))];
    assert NewestFirst([it], now) == one;
    TruncatedTwice(NewestFirst(rest, now), one + s.played);
    assert NewestFirst(rest, now) + (one + s.played) == NewestFirst(rest, now) + one + s.played;
  }

  lemma MarkedGone(s: State, i: nat, now: int)
    requires Cached(s) && i < |s.queue| && IndexOf(s.queue, s.queue[i].id) == i
    ensures Gone(s, MarkPlayed(s, s.queue[i].id, now), [s.queue[i]], now)
  {
    var it := s.queue[i];
    assert it in s.queue && Queued(s.db, it.id);
    assert IdSet([it]) == {it.id};
    assert NewestFirst([it], now) == [it.(playedAt := Some(now))] by {
      assert [it][..0] == [];
    }
  }

  lemma StaysPut(s: State, now: int)
    requires |s.played| <= HISTORY_KEPT
    ensures Gone(s, s, [], now)
  {
    assert IdSet([]) == {};
    assert NewestFirst([], now) + s.played == s.played;
  }

  // ---------------------------------------------------------------------
  // The failed items behind the outgoing one
  // ---------------------------------------------------------------------

  // The failed items that lead the rotation went, the rest follow as before.
  ghost predicate Rotated(s: State, t: State, idx: int, now: int) {
    var r := Rotation(s.queue, idx);
    var k := LeadingFailed(s.media, r);
    Rotation(t.queue, idx) == r[k..] && Gone(s, t, r[..k], now)
  }

  lemma RotatedOnce(s: State, m: State, t: State, idx: int, now: int)
    requires var r := Rotation(s.queue, idx);
      && r != [] && Failed(s.media, r[0]) && m.media == s.media
      && Rotation(m.queue, idx) == r[1..] && Gone(s, m, [r[0]], now)
    requires Rotated(m, t, idx, now)
    ensures Rotated(s, t, idx, now)
  {
    var r := Rotation(s.queue, idx);
    var k := LeadingFailed(s.media, r[1..]);
    GoneThrough(s, m, t, r[0], r[1..][..k], now);
    assert [r[0]] + r[1..][..k] == r[..k + 1] && r[1..][k..] == r[k + 1..];
  }

  lemma LeaderGone(s: State, idx: int, now: int)
    requires Cached(s) && idx >= -1 && s.queue != []
    ensures var next := Following(s.queue, idx).value;
      var m := MarkPlayed(s, next.id, now);
      && IndexOf(s.queue, next.id) >= 0 && |m.queue| < |s.queue| && |m.played| <= HISTORY_KEPT
      && Rotation(m.queue, idx) == Rotation(s.queue, idx)[1..] && Gone(s, m, [next], now) && Cached(m)
  {
    var next := Following(s.queue, idx).value;
    RotationAdvances(s.queue, idx);
    NextIsThere(s.queue, idx);
    MarkPlayedCached(s, next.id, now);
    MarkedGone(s, IndexOf(s.queue, next.id), now);
  }

  lemma {:induction false} SkipFailedRotates(s: State, idx: int, now: int)
    requires Cached(s) && idx >= -1 && |s.played| <= HISTORY_KEPT
    ensures Rotated(s, SkipFailed(s, idx, now), idx, now)
    decreases |s.queue|
  {
    hide Cached, Gone;
    var r, next := Rotation(s.queue, idx), Following(s.queue, idx);
    FollowingLeadsRotation(s.queue, idx);
    if next.None? || !Failed(s.media, next.value) {
      StaysPut(s, now);
      assert LeadingFailed(s.media, r) == 0 && r[..0] == [] && r[0..] == r;
    } else {
      var m := MarkPlayed(s, next.value.id, now);
      LeaderGone(s, idx, now);
      SkipFailedRotates(m, idx, now);
      assert SkipFailed(s, idx, now) == SkipFailed(m, idx, now);
      RotatedOnce(s, m, SkipFailed(m, idx, now), idx, now);
    }
  }

  lemma NextIsThere(q: seq<Item>, idx: int)
    requires Distinct(q) && q != []
    ensures var next := Following(q, idx).value; IndexOf(q, next.id) >= 0 && q[IndexOf(q, next.id)] == next
  {
    DistinctIndex(q, if 0 <= idx < |q| then idx else 0);
  }

  // ---------------------------------------------------------------------
  // The advance
  // ---------------------------------------------------------------------

  // The items in the order in which they follow the current one.
  function Successors(s: State): seq<Item>
    requires s.clock.current.Some? && IndexOf(s.queue, s.clock.current.value) >= 0
  {
    Rotation(s.queue, IndexOf(s.queue, s.clock.current.value))[1..]
  }

  // Exactly the outgoing item and the failed ones right behind it leave, and
  // the rest follow in their old order.
  lemma DropRotates(s: State, now: int)
    requires Cached(s) && Placed(s) && s.clock.current.Some?
    ensures IndexOf(s.queue, s.clock.current.value) >= 0
    ensures var idx, r := IndexOf(s.queue, s.clock.current.value), Successors(s);
      var k := LeadingFailed(s.media, r);
      && Rotation(Drop(s, now).queue, idx) == r[k..]
      && Gone(s, Drop(s, now), [s.queue[idx]] + r[..k], now)
  {
    HasIdIndex(s.queue, s.clock.current.value);
    var idx, r := IndexOf(s.queue, s.clock.current.value), Successors(s);
    var m := MarkPlayed(s, s.clock.current.value, now);
    MarkPlayedCached(s, s.clock.current.value, now);
    MarkedGone(s, idx, now);
    RotationInside(s.queue, idx);
    SkipFailedRotates(m, idx, now);
    GoneThrough(s, m, Drop(s, now), s.queue[idx], r[..LeadingFailed(s.media, r)], now);
  }

  // Without a restart, the first item in rotation order that did not fail
  // becomes current; when there is none, nothing does.
  lemma NextTakesTheFirst(s: State, order: seq<ItemId>, now: int, saved: bool)
    requires Cached(s) && Placed(s) && s.clock.current.Some? && !Laps(Drop(s, now))
    ensures IndexOf(s.queue, s.clock.current.value) >= 0
    ensures var idx, r, t := IndexOf(s.queue, s.clock.current.value), Successors(s), Next(s, order, now, saved);
      var k := LeadingFailed(s.media, r);
      && t.clock.current == (if k < |r| then Some(r[k].id) else None)
      && Rotation(t.queue, idx) == r[k..]
      && Gone(s, t, [s.queue[idx]] + r[..k], now)
  {
    DropRotates(s, now);
    var idx, r, d := IndexOf(s.queue, s.clock.current.value), Successors(s), Drop(s, now);
    FollowingLeadsRotation(d.queue, idx);
    AdvancedRows(s, order, now);
    NextKeepsDropped(s, order, now, saved);
  }

  lemma NextKeepsDropped(s: State, order: seq<ItemId>, now: int, saved: bool)
    requires s.clock.current.Some? && !Laps(Drop(s, now))
    ensures var d, t := Drop(s, now), Next(s, order, now, saved);
      var next := Following(d.queue, IndexOf(s.queue, s.clock.current.value));
      && t.queue == d.queue && t.played == d.played && t.db.rows == d.db.rows
      && t.clock.current == (if next.Some? then Some(next.value.id) else None)
  {
  }

  lemma PlayedConserves(db: Db, db': Db, ids: set<ItemId>, now: int)
    requires db'.rows == PlayedNow(db.rows, ids, now) && forall id :: id in ids ==> Queued(db, id)
    ensures db'.rows.Keys == db.rows.Keys && History(db') == History(db) + ids
    ensures forall id :: Queued(db', id) <==> Queued(db, id) && id !in ids
    ensures forall id :: Queued(db', id) ==> db'.rows[id] == db.rows[id]
  {
    forall id ensures id in History(db') <==> id in History(db) || id in ids {
      assert id in ids ==> Queued(db, id);
    }
  }

  lemma GoneWasQueued(s: State)
    requires Cached(s) && s.clock.current.Some? && IndexOf(s.queue, s.clock.current.value) >= 0
    ensures var idx, r := IndexOf(s.queue, s.clock.current.value), Successors(s);
      forall it :: it in [s.queue[idx]] + r ==> it in s.queue && Queued(s.db, it.id)
  {
    var idx, r := IndexOf(s.queue, s.clock.current.value), Successors(s);
    FollowingLeadsRotation(s.queue, idx);
    assert [s.queue[idx]] + r == Rotation(s.queue, idx);
  }

  // No row is lost or made: the items that left the queue are the stored
  // history's gain, and the others are as they were.
  lemma NextConserves(s: State, order: seq<ItemId>, now: int, saved: bool)
    requires Cached(s) && Placed(s) && s.clock.current.Some? && !Laps(Drop(s, now))
    ensures IndexOf(s.queue, s.clock.current.value) >= 0
    ensures var idx, r, t := IndexOf(s.queue, s.clock.current.value), Successors(s), Next(s, order, now, saved);
      var gone := IdSet([s.queue[idx]] + r[..LeadingFailed(s.media, r)]);
      && t.db.rows.Keys == s.db.rows.Keys && History(t.db) == History(s.db) + gone
      && (forall id :: Queued(t.db, id) <==> Queued(s.db, id) && id !in gone)
      && (forall id :: Queued(t.db, id) ==> t.db.rows[id] == s.db.rows[id])
  {
    NextTakesTheFirst(s, order, now, saved);
    GoneWasQueued(s);
    var idx, r := IndexOf(s.queue, s.clock.current.value), Successors(s);
    var gone := [s.queue[idx]] + r[..LeadingFailed(s.media, r)];
    forall id | id in IdSet(gone) ensures Queued(s.db, id) {
      var it :| it in gone && it.id == id;
      assert it in [s.queue[idx]] + r;
    }
    PlayedConserves(s.db, Next(s, order, now, saved).db, IdSet(gone), now);
  }

  // With a restart, every stored row of the room is queued again.
  lemma LapRequeuesAll(s: State, order: seq<ItemId>, now: int, saved: bool)
    requires Cached(s) && Placed(s) && s.clock.current.Some? && NextReady(s, order, now) && Laps(Drop(s, now))
    ensures var t := Next(s, order, now, saved);
      && t.db.rows.Keys == s.db.rows.Keys && t.played == [] && |t.queue| == |order|
      && forall id :: id in t.db.rows ==> Queued(t.db, id)
  {
    var d := Drop(s, now);
    DropCached(s, now);
    DropRotates(s, now);
    LapRequeues(d, order);
    AdvancedRows(s, order, now);
    NextKeepsLap(s, order, now, saved);
  }

  lemma NextKeepsLap(s: State, order: seq<ItemId>, now: int, saved: bool)
    requires s.clock.current.Some? && Laps(Drop(s, now))
    ensures var l, t := Lap(Drop(s, now), order), Next(s, order, now, saved);
      t.queue == l.queue && t.played == l.played && t.db.rows == l.db.rows
  {
    hide Drop, Lap, NextAdvance, ArmEmptyPause;
  }

  lemma LapReadQueues(d: State, order: seq<ItemId>)
    requires Cached(d) && d.queue == [] && IsLap(d.db, order)
    ensures var r := LapRead(d, order);
      r.db.rows.Keys == d.db.rows.Keys && |r.queue| == |order| && forall id :: id in r.db.rows ==> Queued(r.db, id)
  {
    var r := LapRead(d, order);
    LapItems(d.db, order);
    RequeuedRows(d.db, order);
    EmptyQueueRank(d.db);
    forall id | id in r.db.rows ensures Queued(r.db, id) {
      assert !Queued(d.db, id);
      assert InHistory(d.db, id);
    }
  }

  lemma VoteReorderLength(s: State)
    requires Distinct(s.queue)
    ensures |VoteReorder(s).queue| == |s.queue|
  {
    var o := VoteOrder(s.queue, s.clock.current);
    SplitPermutes(s.queue, s.clock.current);
    SortByVotesSorts(Waiting(s.queue, s.clock.current));
    assert |o| == |multiset(o)| == |multiset(s.queue)|;
  }

  lemma LapRequeues(d: State, order: seq<ItemId>)
    requires Cached(d) && d.queue == [] && IsLap(d.db, order)
    ensures var l := Lap(d, order);
      && l.db.rows.Keys == d.db.rows.Keys && l.played == [] && |l.queue| == |order|
      && forall id :: id in l.db.rows ==> Queued(l.db, id)
  {
    var r := LapRead(d, order);
    LapReadQueues(d, order);
    LapReadCached(d, order);
    VoteReorderLength(r);
    VoteReorderKeepsRows(r);
    assert Lap(d, order) == if d.settings.voteMode then VoteReorder(r) else r;
    forall id | id in VoteReorder(r).db.rows ensures Queued(VoteReorder(r).db, id) {
      assert Queued(r.db, id);
    }
  }
}
