// The repository's queue statements as an object over the stored rows. The
// queries sort; the statements change the rows in place, each exactly as its
// function on a Db says.
module Repository {
  import opened Base
  import opened Order
  import opened Store
  import opened RoomSpec
  import C = Clock

  type Ordering = (Item, Item) -> bool

  ghost predicate TotalOrder(le: Ordering) {
    && (forall a, b :: le(a, b) || le(b, a))
    && (forall a, b, c :: le(a, b) && le(b, c) ==> le(a, c))
  }

  ghost predicate SortedBy(le: Ordering, q: seq<Item>) {
    forall i, j :: 0 <= i < j < |q| ==> le(q[i], q[j])
  }

  function InsertBy(le: Ordering, q: seq<Item>, x: Item): (r: seq<Item>)
    ensures multiset(r) == multiset(q) + multiset{x}
  {
    if q == [] || le(q[|q| - 1], x) then q + [x]
    else
      assert q == q[..|q| - 1] + [q[|q| - 1]];
      InsertBy(le, q[..|q| - 1], x) + [q[|q| - 1]]
  }

  lemma InsertMembers(le: Ordering, q: seq<Item>, x: Item)
    ensures forall it :: it in InsertBy(le, q, x) <==> it in q || it == x
  {
    forall it ensures it in InsertBy(le, q, x) <==> it in q || it == x {
      assert it in InsertBy(le, q, x) <==> it in multiset(InsertBy(le, q, x));
      assert it in q <==> it in multiset(q);
    }
  }

  lemma {:induction false} InsertKeepsSorted(le: Ordering, q: seq<Item>, x: Item)
    requires TotalOrder(le) && SortedBy(le, q)
    ensures SortedBy(le, InsertBy(le, q, x))
  {
    if q == [] {
    } else if le(q[|q| - 1], x) {
      AppendKeepsSorted(le, q, x);
    } else {
      var front, last := q[..|q| - 1], q[|q| - 1];
      InsertKeepsSorted(le, front, x);
      InsertMembers(le, front, x);
      forall it | it in InsertBy(le, front, x) ensures le(it, last) {
        if it in front {
          var i :| 0 <= i < |front| && front[i] == it;
          assert q[i] == it;
        }
      }
    }
  }

  lemma AppendKeepsSorted(le: Ordering, q: seq<Item>, x: Item)
    requires TotalOrder(le) && SortedBy(le, q) && q != [] && le(q[|q| - 1], x)
    ensures SortedBy(le, q + [x])
  {
    forall i | 0 <= i < |q| ensures le(q[i], x) {
      assert i == |q| - 1 || le(q[i], q[|q| - 1]);
    }
  }

  lemma {:induction false} InsertKeepsDistinct(le: Ordering, q: seq<Item>, x: Item)
    requires Distinct(q) && forall it :: it in q ==> it.id != x.id
    ensures Distinct(InsertBy(le, q, x))
  {
    if q != [] && !le(q[|q| - 1], x) {
      var front, last := q[..|q| - 1], q[|q| - 1];
      InsertKeepsDistinct(le, front, x);
      InsertMembers(le, front, x);
      forall it | it in InsertBy(le, front, x) ensures it.id != last.id {
        if it in front {
          var i :| 0 <= i < |front| && front[i] == it;
        }
      }
    }
  }

  // ---------------------------------------------------------------------
  // The orders the queries ask for
  // ---------------------------------------------------------------------

  function PlayedTime(it: Item): int { if it.playedAt.Some? then it.playedAt.value else 0 }

  predicate NewerFirst(a: Item, b: Item) { PlayedTime(a) >= PlayedTime(b) }

  predicate PlayedBefore(a: Item, b: Item) {
    PlayedTime(a) < PlayedTime(b) || (PlayedTime(a) == PlayedTime(b) && a.createdAt <= b.createdAt)
  }

  lemma OrdersAreTotal()
    ensures TotalOrder(NoLaterRank) && TotalOrder(NewerFirst) && TotalOrder(PlayedBefore)
  {
  }

  // q shows the rows of ids, sorted.
  ghost predicate Shows(db: Db, ids: set<ItemId>, le: Ordering, q: seq<Item>) {
    && Distinct(q) && SortedBy(le, q)
    && (forall it :: it in q ==> it.id in ids && it.id in db.rows && it == ItemOf(db, it.id))
    && (forall id :: id in ids ==> exists it :: it in q && it.id == id)
  }

  lemma ShowsOneMore(db: Db, ids: set<ItemId>, le: Ordering, q: seq<Item>, id: ItemId)
    requires TotalOrder(le) && Shows(db, ids, le, q) && id !in ids && id in db.rows
    ensures Shows(db, ids + {id}, le, InsertBy(le, q, ItemOf(db, id)))
  {
    var x := ItemOf(db, id);
    InsertMembers(le, q, x);
    InsertKeepsSorted(le, q, x);
    InsertKeepsDistinct(le, q, x);
    forall y | y in ids + {id} ensures exists it :: it in InsertBy(le, q, x) && it.id == y {
      if y in ids {
        var it :| it in q && it.id == y;
        assert it in InsertBy(le, q, x);
      } else {
        assert x in InsertBy(le, q, x);
      }
    }
  }

  lemma SomeId(ids: set<ItemId>)
    ensures ids == {} || exists id :: id in ids
  {
    if forall id :: id !in ids {
      assert ids == {};
    }
  }

  ghost function Any(ids: set<ItemId>): (id: ItemId)
    requires ids != {}
    ensures id in ids
  {
    SomeId(ids);
    var id :| id in ids;
    id
  }

  lemma SomeVote(votes: Votes)
    ensures votes == {} || exists v :: v in votes
  {
    if forall v :: v !in votes {
      assert votes == {};
    }
  }

  ghost function AnyVote(votes: Votes): (v: (ItemId, UserId))
    requires votes != {}
    ensures v in votes
  {
    SomeVote(votes);
    var v :| v in votes;
    v
  }

  function QueuedIds(rows: Rows): set<ItemId> { set id | id in rows && QueuedIn(rows, id) }

  // The rows of ids, sorted as a query sorts them.
  method SortRows(db: Db, ids: set<ItemId>, le: Ordering) returns (q: seq<Item>)
    requires TotalOrder(le) && ids <= db.rows.Keys
    ensures Shows(db, ids, le, q)
  {
    var todo := ids;
    ghost var done: set<ItemId> := {};
    q := [];
    while todo != {}
      invariant done + todo == ids && done !! todo && Shows(db, done, le, q)
      decreases todo
    {
      assert Any(todo) in todo;
      var id :| id in todo;
      ShowsOneMore(db, done, le, q, id);
      q := InsertBy(le, q, ItemOf(db, id));
      done := done + {id};
      todo := todo - {id};
    }
    assert done == ids;
  }

  // The highest rank in the queue.
  method HighestRank(rows: Rows) returns (n: nat)
    ensures n == TopRank(rows)
  {
    var todo := QueuedIds(rows);
    ghost var done: set<ItemId> := {};
    ghost var all := todo;
    n := 0;
    while todo != {}
      invariant done + todo == all && done !! todo
      invariant forall id :: id in done ==> rows[id].rank <= n
      invariant n == 0 || exists id :: id in done && rows[id].rank == n
      decreases todo
    {
      assert Any(todo) in todo;
      var id :| id in todo;
      if rows[id].rank > n {
        n := rows[id].rank;
      }
      done := done + {id};
      todo := todo - {id};
    }
    ghost var ranks := set id | id in rows && QueuedIn(rows, id) :: rows[id].rank;
    assert done == all;
    assert forall id :: id in all ==> rows[id].rank in ranks;
    assert TopRank(rows) == Highest(ranks);
    assert ranks == {} || Highest(ranks) in ranks;
  }

  class Repo {
    var db: Db

    constructor (stored: Db)
      ensures db == stored
    {
      db := stored;
    }

    method ListQueue() returns (q: seq<Item>)
      ensures IsListing(db, q)
    {
      OrdersAreTotal();
      q := SortRows(db, QueuedIds(db.rows), NoLaterRank);
      forall id | QueuedIn(db.rows, id) ensures exists it :: it in q && it.id == id {
        assert id in QueuedIds(db.rows);
      }
    }

    // Never more than the limit.
    method ListPlayed() returns (p: seq<Item>)
      ensures IsHistory(db, p)
    {
      OrdersAreTotal();
      var all := SortRows(db, History(db), NewerFirst);
      p := if |all| > HISTORY_KEPT then all[..HISTORY_KEPT] else all;
      FirstOfHistory(db, all);
    }

    method GetMediaBatch(ids: set<MediaId>) returns (media: map<MediaId, Media>)
      ensures media == MediaFor(db, ids)
    {
      media := MediaFor(db, ids);
    }

    // Per user the items they voted for, gathered vote by vote; nobody is
    // listed without a vote.
    method ListQueueVotes() returns (votes: Flags)
      ensures forall u, id :: Flag(votes, u, id) <==> (id, u) in db.votes
      ensures forall u :: u in votes ==> votes[u] != {}
      ensures votes == VotesByUser(db)
    {
      votes := map[];
      var todo := db.votes;
      ghost var done: Votes := {};
      while todo != {}
        invariant done + todo == db.votes && done !! todo
        invariant forall u, id :: Flag(votes, u, id) <==> (id, u) in done
        invariant forall u :: u in votes ==> votes[u] != {}
        decreases todo
      {
        assert AnyVote(todo) in todo;
        var v :| v in todo;
        votes := votes[v.1 := (if v.1 in votes then votes[v.1] else {}) + {v.0}];
        done := done + {v};
        todo := todo - {v};
      }
      assert done == db.votes;
      GatheredVotes(db, votes);
    }

    // The media row of a link: the one stored, or a new one.
    method CreateMedia(media: MediaId) returns (row: Media)
      modifies this
      ensures row == if media in old(db).media then old(db).media[media] else Media(MediaQueued, 0)
      ensures db == old(db).(media := old(db).media[media := row])
    {
      row := if media in db.media then db.media[media] else Media(MediaQueued, 0);
      db := db.(media := db.media[media := row]);
    }

    // A failed ingest starts over.
    method ResetMedia(media: MediaId)
      modifies this
      ensures db == if media in old(db).media then old(db).(media := old(db).media[media := old(db).media[media].(status := MediaQueued)])
                    else old(db)
    {
      if media in db.media {
        db := db.(media := db.media[media := db.media[media].(status := MediaQueued)]);
      }
    }

    method AddQueueItem(id: ItemId, media: MediaId, addedBy: Option<UserId>, createdAt: int) returns (it: Item)
      modifies this
      ensures db == Inserted(old(db), id, media, addedBy, createdAt)
      ensures it == Item(id, media, addedBy, TopRank(old(db).rows) + 1, 0, createdAt, None)
    {
      var n := HighestRank(db.rows);
      db := db.(rows := db.rows[id := Row(media, addedBy, n + 1, createdAt, None)], used := db.used + {id});
      it := Item(id, media, addedBy, n + 1, 0, createdAt, None);
    }

    method MarkQueueItemPlayed(id: ItemId, at: int) returns (found: bool)
      modifies this
      ensures db == MarkedPlayed(old(db), id, at) && found == Queued(old(db), id)
    {
      found := id in db.rows && db.rows[id].playedAt.None?;
      if found {
        db := db.(rows := db.rows[id := db.rows[id].(playedAt := Some(at))]);
      }
    }

    // order: the history in the order it was played.
    method RequeuePlayed() returns (order: seq<ItemId>)
      modifies this
      ensures IsLap(old(db), order) && db == Requeued(old(db), order)
    {
      OrdersAreTotal();
      var played := SortRows(db, History(db), PlayedBefore);
      order := Ids(played);
      LapOfHistory(db, played);
      var n := HighestRank(db.rows);
      db := db.(rows := (map id | id in db.rows ::
              if id in order then db.rows[id].(playedAt := None, rank := n + PlaceOf(order, id) + 1) else db.rows[id]));
    }

    method DeleteItems(ids: set<ItemId>)
      modifies this
      ensures db == Deleted(old(db), ids)
    {
      var p := db.playback;
      if p.current.Some? && p.current.value in ids && p.current.value in db.rows {
        p := p.(current := None);
      }
      db := db.(rows := db.rows - ids, votes := (set v | v in db.votes && v.0 !in ids), playback := p);
    }

    method ClearPlayed()
      modifies this
      ensures db == Deleted(old(db), History(old(db)))
    {
      DeleteItems(History(db));
    }

    method ClearQueue(keep: Option<ItemId>)
      modifies this
      ensures db == Deleted(old(db), set id | id in old(db).rows && Queued(old(db), id) && keep != Some(id))
    {
      DeleteItems(set id | id in db.rows && Queued(db, id) && keep != Some(id));
    }

    // The first id gets rank 1, the next rank 2, one row at a time.
    method SetQueueRanks(ids: seq<ItemId>)
      modifies this
      ensures db == Ranked(old(db), ids)
    {
      assert db.rows == Ranked(db, ids[..0]).rows;
      for i := 0 to |ids|
        invariant db == Ranked(old(db), ids[..i])
      {
        RankedOneMore(old(db), ids, i);
        if ids[i] in db.rows {
          db := db.(rows := db.rows[ids[i] := db.rows[ids[i]].(rank := i + 1)]);
        }
      }
      assert ids[..|ids|] == ids;
    }

    // Whether the vote is there now.
    method ToggleQueueVote(id: ItemId, user: UserId) returns (on: bool)
      modifies this
      ensures db == Voted(old(db), id, user) && on == ((id, user) !in old(db).votes)
    {
      on := (id, user) !in db.votes;
      db := db.(votes := if on then db.votes + {(id, user)} else db.votes - {(id, user)});
    }

    // saved: whether the database takes the write.
    method UpdateRoomPlayback(p: C.Playback, saved: bool) returns (ok: bool)
      modifies this
      ensures ok == saved && db == if saved then old(db).(playback := p) else old(db)
    {
      ok := saved;
      if saved {
        db := db.(playback := p);
      }
    }
  }

  lemma GatheredVotes(db: Db, votes: Flags)
    requires forall u, id :: Flag(votes, u, id) <==> (id, u) in db.votes
    requires forall u :: u in votes ==> votes[u] != {}
    ensures votes == VotesByUser(db)
  {
    var want := VotesByUser(db);
    forall u ensures u in votes <==> u in want {
      if u in votes {
        assert Flag(votes, u, Any(votes[u]));
        assert (Any(votes[u]), u).1 == u;
      }
      if u in want {
        var v :| v in db.votes && v.1 == u;
        assert v == (v.0, u) && Flag(votes, u, v.0);
      }
    }
    forall u | u in votes ensures votes[u] == want[u] {
      forall id ensures id in votes[u] <==> id in want[u] {
        assert Flag(votes, u, id) <==> (id, u) in db.votes;
        if (id, u) in db.votes {
          assert (id, u).0 == id && (id, u).1 == u;
        }
      }
    }
  }

  // The newest of the history, when there is more than is kept.
  lemma FirstOfHistory(db: Db, all: seq<Item>)
    requires Shows(db, History(db), NewerFirst, all)
    ensures IsHistory(db, if |all| > HISTORY_KEPT then all[..HISTORY_KEPT] else all)
  {
    var p := if |all| > HISTORY_KEPT then all[..HISTORY_KEPT] else all;
    assert forall i :: 0 <= i < |p| ==> p[i] == all[i];
    forall i | 0 <= i < |p| ensures InHistory(db, p[i].id) && p[i] == ItemOf(db, p[i].id) {
      assert all[i] in all;
    }
    forall i, j | 0 <= i < j < |p| ensures p[i].playedAt.value >= p[j].playedAt.value {
      assert NewerFirst(all[i], all[j]);
    }
    forall id, it | InHistory(db, id) && it in p && it.id != id && db.rows[id].playedAt.value > it.playedAt.value
      ensures exists x :: x in p && x.id == id
    {
      NewerIsKept(db, all, p, id, it);
    }
    if |p| < HISTORY_KEPT {
      assert p == all;
      forall id | InHistory(db, id) ensures exists it :: it in p && it.id == id {
        assert id in History(db);
      }
    }
  }

  lemma NewerIsKept(db: Db, all: seq<Item>, p: seq<Item>, id: ItemId, it: Item)
    requires Shows(db, History(db), NewerFirst, all)
    requires p <= all && InHistory(db, id) && it in p && it.id != id
    requires it.playedAt.Some? && db.rows[id].playedAt.value > it.playedAt.value
    ensures exists x :: x in p && x.id == id
  {
    assert id in History(db);
    var y :| y in all && y.id == id;
    var i :| 0 <= i < |p| && p[i] == it;
    var j :| 0 <= j < |all| && all[j] == y;
    assert all[i] == it;
    assert i < j ==> NewerFirst(all[i], all[j]);
    assert j < i && p[j] == y;
  }

  lemma LapOfHistory(db: Db, played: seq<Item>)
    requires Shows(db, History(db), PlayedBefore, played)
    ensures IsLap(db, Ids(played))
  {
    var order := Ids(played);
    forall id ensures id in order <==> InHistory(db, id) {
      if id in order {
        var i :| 0 <= i < |order| && order[i] == id;
        assert played[i] in played;
      }
      if InHistory(db, id) {
        assert id in History(db);
        var it :| it in played && it.id == id;
        var i :| 0 <= i < |played| && played[i] == it;
        assert order[i] == id;
      }
    }
    forall i, j | 0 <= i < j < |order| ensures PlayedNoLater(db, order[i], order[j]) {
      assert played[i] in played && played[j] in played && PlayedBefore(played[i], played[j]);
    }
  }

  lemma RankedOneMore(db: Db, ids: seq<ItemId>, i: nat)
    requires i < |ids|
    ensures var r := Ranked(db, ids[..i]);
      Ranked(db, ids[..i + 1]) ==
      if ids[i] in r.rows then r.(rows := r.rows[ids[i] := r.rows[ids[i]].(rank := i + 1)]) else r
  {
    var r, r' := Ranked(db, ids[..i]), Ranked(db, ids[..i + 1]);
    assert ids[..i + 1] == ids[..i] + [ids[i]];
    assert ids[..i + 1][..i] == ids[..i];
    forall id | id in db.rows ensures r'.rows[id] == if id == ids[i] then r.rows[id].(rank := i + 1) else r.rows[id] {
      assert id in ids[..i + 1] <==> id in ids[..i] || id == ids[i];
    }
  }
}
