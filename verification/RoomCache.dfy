// The in-memory queue is a cache: after every step it is exactly what the
// store would list, and each queued item's vote count and vote flags are
// those of the stored vote rows.
module RoomCache {
  import opened Base
  import opened Order
  import opened FairTurns
  import opened Moves
  import opened Store
  import opened RoomSpec
  import opened RoomCommands

  ghost predicate RanksDistinct(rows: Rows) {
    forall a, b :: QueuedIn(rows, a) && QueuedIn(rows, b) && a != b ==> rows[a].rank != rows[b].rank
  }

  // Ids are never reused, and a vote is for an item that exists.
  ghost predicate IdsUsed(rows: Rows, votes: Votes, used: set<ItemId>, flags: Flags) {
    && rows.Keys <= used
    && (forall v :: v in votes ==> v.0 in rows)
    && (forall u, id :: u in flags && id in flags[u] ==> id in used)
  }

  ghost predicate FlagsMirrored(votes: Votes, q: seq<Item>, flags: Flags) {
    forall it, u :: it in q ==> ((it.id, u) in votes <==> Flag(flags, u, it.id))
  }

  ghost predicate Mirrors(db: Db, q: seq<Item>, flags: Flags) {
    && IsListing(db, q) && RanksDistinct(db.rows)
    && IdsUsed(db.rows, db.votes, db.used, flags) && FlagsMirrored(db.votes, q, flags)
  }

  ghost predicate Cached(s: State) { Mirrors(s.db, s.queue, s.votes) }

  // ---------------------------------------------------------------------
  // What the listing determines
  // ---------------------------------------------------------------------

  ghost predicate Climbs(q: seq<Item>) {
    forall i, j :: 0 <= i < j < |q| ==> q[i].rank < q[j].rank
  }

  lemma ListingClimbs(db: Db, q: seq<Item>)
    requires IsListing(db, q) && RanksDistinct(db.rows)
    ensures Climbs(q)
  {
    forall i, j | 0 <= i < j < |q| ensures q[i].rank < q[j].rank {
      assert q[i] in q && q[j] in q;
    }
  }

  lemma SomeMember(y: seq<Item>)
    requires y != []
    ensures exists it :: it in y
  {
    assert y[0] in y;
  }

  lemma {:induction false} ClimbsUnique(x: seq<Item>, y: seq<Item>)
    requires Climbs(x) && Climbs(y) && forall it :: it in x <==> it in y
    ensures x == y
    decreases |x|
  {
    if x == [] {
      if y != [] {
        SomeMember(y);
      }
    } else {
      var a := x[|x| - 1];
      assert a in y;
      var b := y[|y| - 1];
      assert b in x;
      assert a == b;
      var xf, yf := x[..|x| - 1], y[..|y| - 1];
      assert x == xf + [a] && y == yf + [a];
      assert a !in xf && a !in yf;
      forall it ensures it in xf <==> it in yf {
        assert it in x <==> it in y;
      }
      ClimbsUnique(xf, yf);
    }
  }

  // The store lists one queue only, so re-reading a cached queue changes
  // nothing.
  lemma ListingIsUnique(db: Db, x: seq<Item>, y: seq<Item>)
    requires IsListing(db, x) && IsListing(db, y) && RanksDistinct(db.rows)
    ensures x == y
  {
    ListingClimbs(db, x);
    ListingClimbs(db, y);
    forall it ensures it in x <==> it in y {
      if it in x {
        assert Queued(db, it.id);
      }
      if it in y {
        assert Queued(db, it.id);
      }
    }
    ClimbsUnique(x, y);
  }

  lemma SameQueueCached(s: State, t: State)
    requires Cached(s) && SameQueue(s, t)
    ensures Cached(t)
  {
  }

  // ---------------------------------------------------------------------
  // An item leaves the queue
  // ---------------------------------------------------------------------

  lemma CachedIndex(s: State, id: ItemId)
    requires Cached(s)
    ensures IndexOf(s.queue, id) >= 0 <==> Queued(s.db, id)
  {
    var i := IndexOf(s.queue, id);
    if i >= 0 {
      assert s.queue[i] in s.queue;
    }
    if Queued(s.db, id) {
      var it :| it in s.queue && it.id == id;
    }
  }

  // A table that differs by one row no longer queued.
  ghost predicate Unqueued(db: Db, db': Db, gone: ItemId) {
    && (forall id :: QueuedIn(db'.rows, id) <==> QueuedIn(db.rows, id) && id != gone)
    && (forall id :: QueuedIn(db'.rows, id) ==> db'.rows[id] == db.rows[id])
    && (forall id, u :: id != gone ==> ((id, u) in db'.votes <==> (id, u) in db.votes))
  }

  lemma SameVoters(votes: Votes, votes': Votes, id: ItemId)
    requires forall u :: (id, u) in votes' <==> (id, u) in votes
    ensures VotersIn(votes', id) == VotersIn(votes, id)
  {
    forall u ensures u in VotersIn(votes', id) <==> u in VotersIn(votes, id) {
      assert u in VotersIn(votes', id) <==> (id, u) in votes';
      assert u in VotersIn(votes, id) <==> (id, u) in votes;
    }
  }

  lemma WithoutClimbs(q: seq<Item>, i: nat)
    requires i < |q| && forall a, b :: 0 <= a < b < |q| ==> NoLaterRank(q[a], q[b])
    ensures forall a, b :: 0 <= a < b < |q| - 1 ==> NoLaterRank(Without(q, i)[a], Without(q, i)[b])
  {
    var r := Without(q, i);
    forall a, b | 0 <= a < b < |r| ensures NoLaterRank(r[a], r[b]) {
      assert r[a] == q[if a < i then a else a + 1] && r[b] == q[if b < i then b else b + 1];
    }
  }

  lemma WithoutMirrors(db: Db, db': Db, q: seq<Item>, flags: Flags, i: nat)
    requires Mirrors(db, q, flags) && i < |q| && Unqueued(db, db', q[i].id)
    requires IdsUsed(db'.rows, db'.votes, db'.used, flags)
    ensures Mirrors(db', Without(q, i), flags)
  {
    var r := Without(q, i);
    WithoutPermutes(q, i);
    WithoutClimbs(q, i);
    forall it | it in r ensures QueuedIn(db'.rows, it.id) && it == Show(it.id, db'.rows[it.id], db'.votes) {
      assert it in q;
      SameVoters(db.votes, db'.votes, it.id);
    }
    forall id | QueuedIn(db'.rows, id) ensures exists it :: it in r && it.id == id {
      var it :| it in q && it.id == id;
      assert it in r;
    }
  }

  lemma MarkPlayedCached(s: State, id: ItemId, now: int)
    requires Cached(s)
    ensures Cached(MarkPlayed(s, id, now))
  {
    CachedIndex(s, id);
    var i := IndexOf(s.queue, id);
    if i >= 0 {
      WithoutMirrors(s.db, MarkedPlayed(s.db, id, now), s.queue, s.votes, i);
    }
  }

  lemma {:induction false} SkipFailedCached(s: State, idx: int, now: int)
    requires Cached(s)
    ensures Cached(SkipFailed(s, idx, now))
    decreases |s.queue|
  {
    var next := Following(s.queue, idx);
    if next.Some? {
      MarkPlayedCached(s, next.value.id, now);
      if MediaOf(s, next.value).Some? && MediaOf(s, next.value).value.status == MediaFailed {
        assert IndexOf(s.queue, next.value.id) >= 0;
        SkipFailedCached(MarkPlayed(s, next.value.id, now), idx, now);
      }
    }
  }

  lemma {:induction false} MarkAllCached(s: State, ids: seq<ItemId>, now: int)
    requires Cached(s)
    ensures Cached(MarkAll(s, ids, now))
  {
    if ids != [] {
      MarkAllCached(s, ids[..|ids| - 1], now);
      MarkPlayedCached(MarkAll(s, ids[..|ids| - 1], now), ids[|ids| - 1], now);
    }
  }

  // ---------------------------------------------------------------------
  // The queue is reordered
  // ---------------------------------------------------------------------

  lemma RenumberedMembers(q: seq<Item>)
    requires Distinct(q)
    ensures Distinct(Renumbered(q)) && Climbs(Renumbered(q)) && |Renumbered(q)| == |q|
    ensures forall i :: 0 <= i < |q| ==> Ids(q)[i] == q[i].id && PlaceOf(Ids(q), q[i].id) == i
    ensures forall id :: id in Ids(q) <==> exists it :: it in q && it.id == id
  {
    var ids := Ids(q);
    assert forall i :: 0 <= i < |ids| ==> ids[i] == q[i].id;
    forall i | 0 <= i < |q| ensures PlaceOf(ids, q[i].id) == i {
      assert ids[i] in ids;
    }
    forall id ensures id in ids <==> exists it :: it in q && it.id == id {
      if id in ids {
        var i :| 0 <= i < |ids| && ids[i] == id;
        assert q[i] in q && q[i].id == id;
      }
      if it :| it in q && it.id == id {
        var i :| 0 <= i < |q| && q[i] == it;
        assert ids[i] == id;
      }
    }
  }

  lemma SameMembers(x: seq<Item>, y: seq<Item>)
    requires multiset(x) == multiset(y)
    ensures forall it :: it in x <==> it in y
  {
    assert forall it :: it in x <==> it in multiset(x);
    assert forall it :: it in y <==> it in multiset(y);
  }

  // Every row still listed is shown by the item at the place its rank says.
  lemma RenumberShows(db: Db, q: seq<Item>, ordered: seq<Item>, i: nat)
    requires IsListing(db, q) && Distinct(ordered) && (forall it :: it in ordered ==> it in q) && i < |ordered|
    ensures var it := Renumbered(ordered)[i];
      var db' := Ranked(db, Ids(ordered));
      QueuedIn(db'.rows, it.id) && it == Show(it.id, db'.rows[it.id], db'.votes)
  {
    RenumberedMembers(ordered);
    assert ordered[i] in q;
    assert Ids(ordered)[i] in Ids(ordered);
  }

  lemma RenumberCovers(db: Db, q: seq<Item>, ordered: seq<Item>, id: ItemId)
    requires IsListing(db, q) && (forall it :: it in q ==> it in ordered) && Queued(db, id)
    ensures id in Ids(ordered) && exists it :: it in Renumbered(ordered) && it.id == id
  {
    assert QueuedIn(db.rows, id);
    var it :| it in q && it.id == id;
    var i :| 0 <= i < |ordered| && ordered[i] == it;
    assert Ids(ordered)[i] == id;
    assert Renumbered(ordered)[i] in Renumbered(ordered) && Renumbered(ordered)[i].id == id;
  }

  lemma RenumberShowsAll(db: Db, q: seq<Item>, ordered: seq<Item>)
    requires IsListing(db, q) && Distinct(ordered) && forall it :: it in ordered ==> it in q
    ensures var db' := Ranked(db, Ids(ordered));
      forall it :: it in Renumbered(ordered) ==> QueuedIn(db'.rows, it.id) && it == Show(it.id, db'.rows[it.id], db'.votes)
  {
    var r, db' := Renumbered(ordered), Ranked(db, Ids(ordered));
    forall it | it in r ensures QueuedIn(db'.rows, it.id) && it == Show(it.id, db'.rows[it.id], db'.votes) {
      var i :| 0 <= i < |r| && r[i] == it;
      RenumberShows(db, q, ordered, i);
    }
  }

  lemma RenumberedLists(db: Db, q: seq<Item>, ordered: seq<Item>)
    requires IsListing(db, q) && Distinct(ordered) && forall it :: it in ordered <==> it in q
    ensures IsListing(Ranked(db, Ids(ordered)), Renumbered(ordered))
  {
    hide Show;
    RenumberedMembers(ordered);
    RenumberShowsAll(db, q, ordered);
    var r, db' := Renumbered(ordered), Ranked(db, Ids(ordered));
    forall id | QueuedIn(db'.rows, id) ensures exists it :: it in r && it.id == id {
      RenumberCovers(db, q, ordered, id);
    }
  }

  lemma RenumberLists(db: Db, q: seq<Item>, ordered: seq<Item>)
    requires IsListing(db, q) && multiset(ordered) == multiset(q)
    ensures IsListing(Ranked(db, Ids(ordered)), Renumbered(ordered))
    ensures forall id :: Queued(db, id) ==> id in Ids(ordered)
  {
    PermutationDistinct(q, ordered);
    SameMembers(q, ordered);
    RenumberedLists(db, q, ordered);
    forall id | Queued(db, id) ensures id in Ids(ordered) {
      RenumberCovers(db, q, ordered, id);
    }
  }

  // Writing the ranks 1, 2, 3, ... to a permutation of the cached queue, in
  // the store and in memory, keeps the two equal.
  lemma RenumberMirrors(db: Db, q: seq<Item>, ordered: seq<Item>, flags: Flags)
    requires Mirrors(db, q, flags) && multiset(ordered) == multiset(q)
    ensures Mirrors(Ranked(db, Ids(ordered)), Renumbered(ordered), flags)
  {
    RenumberLists(db, q, ordered);
    RanksBecomeDistinct(db, Ids(ordered));
    SameMembers(q, ordered);
    var r := Renumbered(ordered);
    forall it, u | it in r ensures (it.id, u) in db.votes <==> Flag(flags, u, it.id) {
      var i :| 0 <= i < |r| && r[i] == it;
      assert ordered[i] in q;
    }
  }

  lemma RanksBecomeDistinct(db: Db, ids: seq<ItemId>)
    requires forall id :: Queued(db, id) ==> id in ids
    ensures RanksDistinct(Ranked(db, ids).rows)
  {
    var rows := Ranked(db, ids).rows;
    forall a, b | QueuedIn(rows, a) && QueuedIn(rows, b) && a != b ensures rows[a].rank != rows[b].rank {
      assert Queued(db, a) && Queued(db, b);
      assert a in ids && b in ids;
      assert ids[PlaceOf(ids, a)] == a && ids[PlaceOf(ids, b)] == b;
    }
  }

  lemma ApplyOrderCached(s: State, ordered: seq<Item>)
    requires Cached(s) && multiset(ordered) == multiset(s.queue)
    ensures Cached(ApplyOrder(s, ordered))
  {
    RenumberMirrors(s.db, s.queue, ordered, s.votes);
  }

  lemma VoteReorderCached(s: State)
    requires Cached(s)
    ensures Cached(VoteReorder(s))
  {
    var w := Waiting(s.queue, s.clock.current);
    SplitPermutes(s.queue, s.clock.current);
    SortByVotesSorts(w);
    ApplyOrderCached(s, VoteOrder(s.queue, s.clock.current));
  }

  lemma FairReorderCached(s: State)
    requires Cached(s)
    ensures Cached(FairReorder(s))
  {
    FairOrderPermutes(s.queue, s.clock.current);
    ApplyOrderCached(s, FairOrder(s.queue, s.clock.current));
  }

  // ---------------------------------------------------------------------
  // Items join the queue
  // ---------------------------------------------------------------------

  lemma TopRankTops(rows: Rows)
    ensures forall id :: QueuedIn(rows, id) ==> rows[id].rank <= TopRank(rows)
  {
    var ranks := set id | id in rows && QueuedIn(rows, id) :: rows[id].rank;
    forall id | QueuedIn(rows, id) ensures rows[id].rank <= TopRank(rows) {
      assert rows[id].rank in ranks;
    }
  }

  lemma InsertMirrors(db: Db, q: seq<Item>, flags: Flags, l: Link, user: Option<UserId>)
    requires Mirrors(db, q, flags) && l.id !in db.used
    ensures Mirrors(InsertLink(db, l, user), q + [NewItem(db, l, user)], flags)
  {
    var db' := InsertLink(db, l, user);
    var n := NewItem(db, l, user);
    var r := q + [n];
    TopRankTops(db.rows);
    NoVotersYet(db, q, flags, l.id);
    forall it | it in r ensures QueuedIn(db'.rows, it.id) && it == Show(it.id, db'.rows[it.id], db'.votes) {
      assert it in q || it == n;
    }
    forall id | QueuedIn(db'.rows, id) ensures exists it :: it in r && it.id == id {
      if id == l.id {
        assert n in r;
      } else {
        assert QueuedIn(db.rows, id);
        var it :| it in q && it.id == id;
        assert it in r;
      }
    }
    forall i, j | 0 <= i < j < |r| ensures NoLaterRank(r[i], r[j]) {
      assert r[i] == q[i] && q[i] in q;
      if j == |q| {
        assert r[j] == n;
      }
    }
    forall it, u | it in r ensures (it.id, u) in db'.votes <==> Flag(flags, u, it.id) {
      assert it in q || it == n;
    }
  }

  lemma NoVotersYet(db: Db, q: seq<Item>, flags: Flags, id: ItemId)
    requires Mirrors(db, q, flags) && id !in db.used
    ensures VotersIn(db.votes, id) == {} && forall it :: it in q ==> it.id != id
    ensures forall u :: (id, u) !in db.votes && !Flag(flags, u, id)
  {
    forall v | v in db.votes ensures v.0 != id {
    }
  }

  function LinkIds(ls: seq<Link>): set<ItemId> { set l | l in ls :: l.id }

  lemma FrontOfLinks(ls: seq<Link>)
    requires ls != [] && forall i, j :: 0 <= i < j < |ls| ==> ls[i].id != ls[j].id
    ensures ls[|ls| - 1].id !in LinkIds(ls[..|ls| - 1])
    ensures LinkIds(ls) == LinkIds(ls[..|ls| - 1]) + {ls[|ls| - 1].id}
  {
    assert ls == ls[..|ls| - 1] + [ls[|ls| - 1]];
  }

  lemma {:induction false} InsertLinksMirrors(db: Db, q: seq<Item>, flags: Flags, ls: seq<Link>, user: Option<UserId>)
    requires Mirrors(db, q, flags) && forall l :: l in ls ==> l.id !in db.used
    requires forall i, j :: 0 <= i < j < |ls| ==> ls[i].id != ls[j].id
    ensures Mirrors(InsertLinks(db, ls, user), q + NewItems(db, ls, user), flags)
    ensures InsertLinks(db, ls, user).used == db.used + LinkIds(ls)
    ensures |NewItems(db, ls, user)| == |ls|
  {
    if ls == [] {
      assert q + NewItems(db, ls, user) == q;
    } else {
      var front, last := ls[..|ls| - 1], ls[|ls| - 1];
      FrontOfLinks(ls);
      InsertLinksMirrors(db, q, flags, front, user);
      var db' := InsertLinks(db, front, user);
      InsertMirrors(db', q + NewItems(db, front, user), flags, last, user);
      assert q + NewItems(db, ls, user) == q + NewItems(db, front, user) + [NewItem(db', last, user)];
    }
  }

  // ---------------------------------------------------------------------
  // Votes
  // ---------------------------------------------------------------------

  lemma VotersAfterToggle(db: Db, id: ItemId, user: UserId)
    ensures var on := (id, user) !in db.votes;
      && ((id, user) in Voted(db, id, user).votes <==> on)
      && |VotersIn(Voted(db, id, user).votes, id)| == if on then |VotersIn(db.votes, id)| + 1 else |VotersIn(db.votes, id)| - 1
    ensures forall x :: x != id ==> VotersIn(Voted(db, id, user).votes, x) == VotersIn(db.votes, x)
  {
    var votes' := Voted(db, id, user).votes;
    assert forall u :: u in VotersIn(db.votes, id) <==> (id, u) in db.votes;
    assert forall u :: u in VotersIn(votes', id) <==> (id, u) in votes';
    if (id, user) in db.votes {
      assert VotersIn(votes', id) == VotersIn(db.votes, id) - {user};
    } else {
      assert VotersIn(votes', id) == VotersIn(db.votes, id) + {user};
    }
    forall x | x != id ensures VotersIn(votes', x) == VotersIn(db.votes, x) {
      SameVoters(db.votes, votes', x);
    }
  }

  lemma ToggleLists(db: Db, q: seq<Item>, i: nat, user: UserId, n: nat)
    requires IsListing(db, q) && i < |q|
    requires n == |VotersIn(Voted(db, q[i].id, user).votes, q[i].id)|
    ensures IsListing(Voted(db, q[i].id, user), q[i := q[i].(votes := n)])
  {
    var db', r := Voted(db, q[i].id, user), q[i := q[i].(votes := n)];
    VotersAfterToggle(db, q[i].id, user);
    assert forall j :: 0 <= j < |q| ==> r[j].id == q[j].id && NoLaterRank(r[j], q[j]) && NoLaterRank(q[j], r[j]);
    forall it | it in r ensures QueuedIn(db'.rows, it.id) && it == Show(it.id, db'.rows[it.id], db'.votes) {
      var j :| 0 <= j < |r| && r[j] == it;
      assert q[j] in q;
    }
    forall x | QueuedIn(db'.rows, x) ensures exists it :: it in r && it.id == x {
      assert QueuedIn(db.rows, x);
      var it :| it in q && it.id == x;
      var j :| 0 <= j < |q| && q[j] == it;
      assert r[j] in r;
    }
  }

  // flags' differs from flags in the one vote that was toggled.
  ghost predicate FlagToggled(flags: Flags, flags': Flags, user: UserId, id: ItemId, on: bool) {
    forall u, x :: Flag(flags', u, x) <==> if u == user && x == id then on else Flag(flags, u, x)
  }

  lemma ToggleFlags(db: Db, q: seq<Item>, i: nat, user: UserId, n: nat, flags: Flags, flags': Flags)
    requires FlagsMirrored(db.votes, q, flags) && i < |q|
    requires FlagToggled(flags, flags', user, q[i].id, (q[i].id, user) !in db.votes)
    ensures FlagsMirrored(Voted(db, q[i].id, user).votes, q[i := q[i].(votes := n)], flags')
  {
    var votes', r := Voted(db, q[i].id, user).votes, q[i := q[i].(votes := n)];
    forall it, u | it in r ensures (it.id, u) in votes' <==> Flag(flags', u, it.id) {
      var j :| 0 <= j < |r| && r[j] == it;
      assert q[j] in q && q[j].id == it.id;
      assert (it.id, u) in db.votes <==> Flag(flags, u, it.id);
    }
  }

  lemma ToggledCount(s: State, user: UserId, id: ItemId)
    requires Cached(s) && IndexOf(s.queue, id) >= 0
    ensures var i, t := IndexOf(s.queue, id), Toggled(s, user, id);
      && t.db == Voted(s.db, id, user) && |t.queue| == |s.queue|
      && t.queue == s.queue[i := s.queue[i].(votes := t.queue[i].votes)]
      && t.queue[i].votes == |VotersIn(t.db.votes, id)|
  {
    assert s.queue[IndexOf(s.queue, id)] in s.queue;
    VotersAfterToggle(s.db, id, user);
  }

  lemma ToggleMirrors(db: Db, q: seq<Item>, i: nat, user: UserId, n: nat, flags: Flags, flags': Flags)
    requires Mirrors(db, q, flags) && i < |q|
    requires n == |VotersIn(Voted(db, q[i].id, user).votes, q[i].id)|
    requires FlagToggled(flags, flags', user, q[i].id, (q[i].id, user) !in db.votes)
    ensures Mirrors(Voted(db, q[i].id, user), q[i := q[i].(votes := n)], flags')
  {
    ToggleLists(db, q, i, user, n);
    ToggleFlags(db, q, i, user, n, flags, flags');
    ToggleUsed(db, q, i, user, flags, flags');
  }

  lemma ToggleUsed(db: Db, q: seq<Item>, i: nat, user: UserId, flags: Flags, flags': Flags)
    requires Mirrors(db, q, flags) && i < |q|
    requires FlagToggled(flags, flags', user, q[i].id, (q[i].id, user) !in db.votes)
    ensures IdsUsed(db.rows, Voted(db, q[i].id, user).votes, db.used, flags')
  {
    assert q[i] in q;
    forall u, id | u in flags' && id in flags'[u] ensures id in db.used {
      assert Flag(flags', u, id);
    }
  }

  // A vote moves the stored rows, the item's count and the user's flag
  // together.
  lemma ToggledCached(s: State, user: UserId, id: ItemId)
    requires Cached(s) && IndexOf(s.queue, id) >= 0
    ensures Cached(Toggled(s, user, id))
  {
    var i, t := IndexOf(s.queue, id), Toggled(s, user, id);
    ToggledCount(s, user, id);
    ToggledFlag(s, user, id);
    ToggleMirrors(s.db, s.queue, i, user, t.queue[i].votes, s.votes, t.votes);
  }

  lemma ToggledFlag(s: State, user: UserId, id: ItemId)
    requires Cached(s) && IndexOf(s.queue, id) >= 0
    ensures FlagToggled(s.votes, Toggled(s, user, id).votes, user, id, (id, user) !in s.db.votes)
  {
  }

  // ---------------------------------------------------------------------
  // Rows are deleted, and the queue is read again
  // ---------------------------------------------------------------------

  lemma DeletedMirrors(db: Db, q: seq<Item>, flags: Flags, id: ItemId, i: nat)
    requires Mirrors(db, q, flags) && i < |q| && q[i].id == id
    ensures Mirrors(Deleted(db, {id}), Without(q, i), flags)
  {
    WithoutMirrors(db, Deleted(db, {id}), q, flags, i);
  }

  // Deleting rows of the history leaves the queue as it is.
  lemma HistoryDeletedMirrors(db: Db, q: seq<Item>, flags: Flags, ids: set<ItemId>)
    requires Mirrors(db, q, flags) && forall id :: id in ids ==> !Queued(db, id)
    ensures Mirrors(Deleted(db, ids), q, flags)
  {
    var db' := Deleted(db, ids);
    forall it | it in q ensures QueuedIn(db'.rows, it.id) && it == Show(it.id, db'.rows[it.id], db'.votes) {
      SameVoters(db.votes, db'.votes, it.id);
    }
    forall id | QueuedIn(db'.rows, id) ensures exists it :: it in q && it.id == id {
      assert QueuedIn(db.rows, id);
    }
  }

  lemma ClearCached(s: State)
    requires Cached(s)
    ensures Cached(DoClear(s))
  {
    var t := DoClear(s);
    if s.clock.current.Some? {
      CachedIndex(s, s.clock.current.value);
    }
    forall it | it in t.queue ensures QueuedIn(t.db.rows, it.id) && it == Show(it.id, t.db.rows[it.id], t.db.votes) {
      assert it in s.queue;
      SameVoters(s.db.votes, t.db.votes, it.id);
    }
    forall id | QueuedIn(t.db.rows, id) ensures exists it :: it in t.queue && it.id == id {
      assert QueuedIn(s.db.rows, id) && IsCurrentId(s, id);
      assert t.queue[0] in t.queue;
    }
  }

  lemma RereadCached(s: State, q: seq<Item>, p: seq<Item>)
    requires IsListing(s.db, q) && RanksDistinct(s.db.rows) && IdsUsed(s.db.rows, s.db.votes, s.db.used, map[])
    ensures Cached(Reread(s, q, p))
  {
    var flags := VotesByUser(s.db);
    forall u, id ensures Flag(flags, u, id) <==> (id, u) in s.db.votes {
      if (id, u) in s.db.votes {
        assert u in Voters(s.db) && id in VotesOf(s.db, u);
      }
    }
    forall u, id | u in flags && id in flags[u] ensures id in s.db.used {
      assert Flag(flags, u, id);
    }
  }

  lemma MediaDeletedCached(s: State, gone: set<MediaId>, q: seq<Item>, p: seq<Item>)
    requires Cached(s) && IsListing(WithoutMedia(s.db, gone), q)
    ensures Cached(RereadWithout(s, gone, q, p))
  {
    var db' := WithoutMedia(s.db, gone);
    forall a | QueuedIn(db'.rows, a) ensures QueuedIn(s.db.rows, a) && db'.rows[a] == s.db.rows[a] {
    }
    RereadCached(s.(db := db'), q, p);
  }

  // ---------------------------------------------------------------------
  // The queue restarts from the history
  // ---------------------------------------------------------------------

  lemma TopRankIsRanked(rows: Rows)
    ensures TopRank(rows) == 0 || exists id :: QueuedIn(rows, id) && rows[id].rank == TopRank(rows)
  {
    var ranks := set id | id in rows && QueuedIn(rows, id) :: rows[id].rank;
    assert ranks == {} || TopRank(rows) in ranks;
  }

  lemma EmptyQueueRank(db: Db)
    requires IsListing(db, [])
    ensures TopRank(db.rows) == 0 && forall id :: !Queued(db, id)
  {
    TopRankIsRanked(db.rows);
    forall id ensures !Queued(db, id) {
      assert Queued(db, id) ==> QueuedIn(db.rows, id);
    }
  }

  lemma RequeuedRows(db: Db, order: seq<ItemId>)
    requires IsListing(db, []) && IsLap(db, order)
    ensures forall id :: Queued(Requeued(db, order), id) <==> id in order
    ensures forall i :: 0 <= i < |order| ==> order[i] in Requeued(db, order).rows && Requeued(db, order).rows[order[i]].rank == i + 1
  {
    EmptyQueueRank(db);
    forall i | 0 <= i < |order| ensures order[i] in Requeued(db, order).rows && Requeued(db, order).rows[order[i]].rank == i + 1 {
      assert order[i] in order;
      var p := PlaceOf(order, order[i]);
      assert order[p] == order[i];
    }
    forall id ensures Queued(Requeued(db, order), id) <==> id in order {
      assert !Queued(db, id);
    }
  }

  lemma LapRanks(db: Db, order: seq<ItemId>)
    requires IsListing(db, []) && IsLap(db, order)
    ensures RanksDistinct(Requeued(db, order).rows)
  {
    RequeuedRows(db, order);
    var db' := Requeued(db, order);
    forall a, b | QueuedIn(db'.rows, a) && QueuedIn(db'.rows, b) && a != b ensures db'.rows[a].rank != db'.rows[b].rank {
      assert Queued(db', a) && Queued(db', b);
      var i :| 0 <= i < |order| && order[i] == a;
      var j :| 0 <= j < |order| && order[j] == b;
    }
  }

  lemma LapItems(db: Db, order: seq<ItemId>)
    requires IsListing(db, []) && IsLap(db, order)
    ensures forall id :: id in order ==> id in Requeued(db, order).rows
    ensures forall i :: 0 <= i < |order| ==>
      var it := ItemsOf(Requeued(db, order), order)[i];
      && it.id == order[i] && it.rank == i + 1
      && it == Show(order[i], Requeued(db, order).rows[order[i]], db.votes) && Queued(Requeued(db, order), order[i])
  {
    RequeuedRows(db, order);
    forall id | id in order ensures id in Requeued(db, order).rows {
      assert Queued(Requeued(db, order), id);
    }
    forall i | 0 <= i < |order| ensures Queued(Requeued(db, order), order[i]) {
      assert order[i] in order;
    }
  }

  lemma LapLists(db: Db, order: seq<ItemId>)
    requires IsListing(db, []) && IsLap(db, order)
    ensures forall id :: id in order ==> id in Requeued(db, order).rows
    ensures IsListing(Requeued(db, order), ItemsOf(Requeued(db, order), order))
  {
    LapItems(db, order);
    var db' := Requeued(db, order);
    var q := ItemsOf(db', order);
    forall id | QueuedIn(db'.rows, id) ensures exists it :: it in q && it.id == id {
      RequeuedRows(db, order);
      assert Queued(db', id);
      var i :| 0 <= i < |order| && order[i] == id;
      assert q[i] in q;
    }
    forall i, j | 0 <= i < j < |q| ensures q[i].id != q[j].id && NoLaterRank(q[i], q[j]) {
      assert q[i].rank == i + 1 && q[j].rank == j + 1;
    }
  }

  // The re-read room of a lap, before the votes reorder it.
  ghost function LapRead(s: State, order: seq<ItemId>): State {
    var r := s.(db := Requeued(s.db, order));
    Reread(r, ItemsOf(r.db, order), [])
  }

  lemma LapReadCached(s: State, order: seq<ItemId>)
    requires Cached(s) && s.queue == [] && IsLap(s.db, order)
    ensures Cached(LapRead(s, order))
  {
    LapLists(s.db, order);
    LapRanks(s.db, order);
    var r := s.(db := Requeued(s.db, order));
    RereadCached(r, ItemsOf(r.db, order), []);
  }

  lemma LapCached(s: State, order: seq<ItemId>)
    requires Cached(s) && s.queue == [] && IsLap(s.db, order)
    ensures Cached(Lap(s, order))
  {
    LapReadCached(s, order);
    VoteReorderCached(LapRead(s, order));
  }

  lemma DropCached(s: State, now: int)
    requires Cached(s) && s.clock.current.Some?
    ensures Cached(Drop(s, now))
  {
    MarkPlayedCached(s, s.clock.current.value, now);
    SkipFailedCached(MarkPlayed(s, s.clock.current.value, now), IndexOf(s.queue, s.clock.current.value), now);
  }

  lemma SetCurrentSame(s: State, item: Option<Item>, now: int, saved: bool)
    ensures SameQueue(s, Persist(SetCurrent(s, item, now), now, saved))
  {
  }

  lemma AdvancedSame(s: State, order: seq<ItemId>, now: int)
    requires s.clock.current.Some?
    ensures SameQueue(if Laps(Drop(s, now)) then Lap(Drop(s, now), order) else Drop(s, now), Advanced(s, order, now))
  {
  }

  lemma NextCached(s: State, order: seq<ItemId>, now: int, saved: bool)
    requires Cached(s) && NextReady(s, order, now)
    ensures Cached(Next(s, order, now, saved))
  {
    if s.clock.current.Some? {
      var d, a := Drop(s, now), Advanced(s, order, now);
      DropCached(s, now);
      if Laps(d) {
        LapCached(d, order);
      }
      AdvancedSame(s, order, now);
      SameQueueCached(if Laps(d) then Lap(d, order) else d, a);
      SameQueueCached(a, Persist(a, now, saved));
    }
  }

  // ---------------------------------------------------------------------
  // Every step
  // ---------------------------------------------------------------------

  lemma StartIfIdleSame(s: State, it: Item, now: int, saved: bool)
    ensures SameQueue(s, StartIfIdle(s, it, now, saved))
  {
  }

  lemma AppendedCached(s: State, l: Link, user: Option<UserId>)
    requires Cached(s) && l.id !in s.db.used
    ensures Cached(Appended(s, l, user))
  {
    InsertMirrors(s.db, s.queue, s.votes, l, user);
  }

  lemma PlaceNextCached(s: State)
    requires Cached(s) && s.queue != [] && !IsCurrentId(s, s.queue[|s.queue| - 1].id)
    ensures Cached(PlaceNext(s))
  {
    hide PlaceAfter, ApplyOrder;
    PlaceAfterPlaces(s.queue, |s.queue| - 1, s.clock.current, s.clock.current);
    var o := PlaceAfter(s.queue, |s.queue| - 1, s.clock.current, s.clock.current);
    if o.Some? {
      assert PlaceNext(s) == ApplyOrder(s, o.value);
      ApplyOrderCached(s, o.value);
    }
  }

  // The current item, if any, is stored under an id that was used.
  ghost predicate CurrentUsed(s: State) { s.clock.current.Some? ==> s.clock.current.value in s.db.used }

  lemma AddedAtCached(s: State, l: Link, user: Option<UserId>, next: bool)
    requires Cached(s) && CurrentUsed(s) && l.id !in s.db.used
    ensures Cached(AddedAt(Appended(s, l, user), next))
  {
    var a := Appended(s, l, user);
    AppendedCached(s, l, user);
    if AddedAt(a, next) != a {
      PlaceNextCached(a);
    }
  }

  lemma AddCached(s: State, l: Link, user: Option<UserId>, next: bool, force: bool, now: int, saved: bool)
    requires Cached(s) && CurrentUsed(s) && l.id !in s.db.used
    ensures Cached(DoAdd(s, l, user, next, force, now, saved))
  {
    if AddAccepted(s, l, force) {
      var b := AddedAt(Appended(s, l, user), next);
      AddedAtCached(s, l, user, next);
      FairReorderCached(b);
      StartIfIdleSame(FairReorder(b), NewItem(s.db, l, user), now, saved);
    }
  }

  lemma {:induction false} TakenLinks(links: seq<Link>, seen: set<MediaId>, room: int)
    ensures forall l :: l in Taken(links, seen, room) ==> l in links && l.media !in seen
    ensures |Taken(links, seen, room)| <= if room < 0 then 0 else room
    ensures (forall i, j :: 0 <= i < j < |links| ==> links[i].id != links[j].id) ==>
      forall i, j :: 0 <= i < j < |Taken(links, seen, room)| ==> Taken(links, seen, room)[i].id != Taken(links, seen, room)[j].id
  {
    if links != [] {
      var front, last := links[..|links| - 1], links[|links| - 1];
      TakenLinks(front, seen, room);
      assert links == front + [last];
    }
  }

  lemma BatchPermutes(q: seq<Item>, added: seq<Item>, current: Option<ItemId>)
    requires Distinct(q)
    ensures multiset(BatchAfterCurrent(q, added, current)) == multiset(q + added)
  {
    SplitPermutes(q, current);
    var w, c := Waiting(q, current), CurrentOf(q, current);
    assert multiset(WithCurrent(c, added + w)) == multiset(WithCurrent(c, w)) + multiset(added);
  }

  lemma BatchCached(a: State, added: seq<Item>)
    requires Cached(a.(queue := a.queue + added)) && added != []
    ensures Cached(ApplyOrder(a, BatchAfterCurrent(a.queue, added, a.clock.current)))
  {
    var q := a.queue + added;
    assert Distinct(a.queue) by {
      assert forall i :: 0 <= i < |a.queue| ==> a.queue[i] == q[i];
    }
    var o := BatchAfterCurrent(a.queue, added, a.clock.current);
    BatchPermutes(a.queue, added, a.clock.current);
    assert |o| == |multiset(o)| == |q|;
    RenumberMirrors(a.db, q, o, a.votes);
  }

  lemma AddedManyCached(s: State, taken: seq<Link>, user: Option<UserId>, next: bool)
    requires Cached(s) && taken != [] && forall l :: l in taken ==> l.id !in s.db.used
    requires forall i, j :: 0 <= i < j < |taken| ==> taken[i].id != taken[j].id
    ensures Cached(AddedMany(s, taken, user, next))
  {
    var a := s.(db := InsertLinks(s.db, taken, user), media := WithMedia(s.media, s.db, taken));
    InsertLinksMirrors(s.db, s.queue, s.votes, taken, user);
    BatchCached(a, NewItems(s.db, taken, user));
  }

  lemma AddManyCached(s: State, links: seq<Link>, user: Option<UserId>, next: bool, now: int, saved: bool)
    requires Cached(s) && forall l :: l in links ==> l.id !in s.db.used
    requires forall i, j :: 0 <= i < j < |links| ==> links[i].id != links[j].id
    ensures Cached(DoAddMany(s, links, user, next, now, saved))
  {
    var taken := Taken(links, HeldMedia(s), QUEUE_LIMIT - |s.queue|);
    TakenLinks(links, HeldMedia(s), QUEUE_LIMIT - |s.queue|);
    if !(s.closed || |s.queue| > QUEUE_LIMIT || taken == []) {
      var b := AddedMany(s, taken, user, next);
      AddedManyCached(s, taken, user, next);
      FairReorderCached(b);
      StartIfIdleSame(FairReorder(b), NewItems(s.db, taken, user)[0], now, saved);
    }
  }

  lemma ReplayCached(s: State, source: ItemId, user: Option<UserId>, id: ItemId, created: int, now: int, saved: bool)
    requires Cached(s) && id !in s.db.used
    ensures Cached(DoReplay(s, source, user, id, created, now, saved))
  {
    var src := ItemById(s.played, source);
    if !(src.None? || |s.queue| >= QUEUE_LIMIT || src.value.media !in s.db.media) {
      var l := Link(src.value.media, id, created);
      InsertMirrors(s.db, s.queue, s.votes, l, user);
      var a := Requeue(s, l, user);
      FairReorderCached(a);
      StartIfIdleSame(FairReorder(a), NewItem(s.db, l, user), now, saved);
    }
  }

  lemma RemoveCached(s: State, id: ItemId, order: seq<ItemId>, now: int, saved: bool)
    requires Cached(s) && (RemovesCurrent(s, id) ==> NextReady(s, order, now))
    ensures Cached(DoRemove(s, id, order, now, saved))
  {
    var i := IndexOf(s.queue, id);
    if i >= 0 {
      if IsCurrentId(s, id) {
        NextCached(s, order, now, saved);
      } else {
        DeletedMirrors(s.db, s.queue, s.votes, id, i);
      }
    }
  }

  lemma MoveCached(s: State, id: ItemId, after: Option<ItemId>)
    requires Cached(s)
    ensures Cached(DoMove(s, id, after))
  {
    var i := IndexOf(s.queue, id);
    if !(OrderedByRule(s) || i < 0 || IsCurrentId(s, id)) {
      PlaceAfterPlaces(s.queue, i, after, s.clock.current);
      var o := PlaceAfter(s.queue, i, after, s.clock.current);
      if o.Some? {
        ApplyOrderCached(s, o.value);
      }
    }
  }

  lemma ShuffleCached(s: State, rest: seq<Item>)
    requires Cached(s) && multiset(rest) == multiset(s.queue[Pinned(s)..])
    ensures Cached(DoShuffle(s, rest))
  {
    assert s.queue == s.queue[..Pinned(s)] + s.queue[Pinned(s)..];
    ApplyOrderCached(s, s.queue[..Pinned(s)] + rest);
  }

  lemma JumpedFromCached(s: State, id: ItemId, now: int)
    requires Cached(s)
    ensures Cached(JumpedFrom(s, id, now))
  {
    if s.clock.current.Some? {
      MarkPlayedCached(s, s.clock.current.value, now);
    }
  }

  lemma JumpCached(s: State, id: ItemId, now: int, saved: bool)
    requires Cached(s)
    ensures Cached(DoJump(s, id, now, saved))
  {
    var target := ItemById(s.queue, id);
    if target.Some? {
      var d := JumpedFrom(s, id, now);
      JumpedFromCached(s, id, now);
      SetCurrentSame(d, target, now, saved);
      SameQueueCached(d, DoJump(s, id, now, saved));
    }
  }

  lemma SetCached(s: State, settings: Settings, touched: bool)
    requires Cached(s)
    ensures Cached(DoSet(s, settings, touched))
  {
    var t := if touched && !settings.pauseWhenEmpty then s.(timers := s.timers.(empty := false)) else s;
    var u := t.(settings := settings);
    VoteReorderCached(u);
    FairReorderCached(u.(skipVotes := {}));
  }

  lemma EndSessionCached(s: State, now: int, saved: bool)
    requires Cached(s)
    ensures Cached(DoEndSession(s, now, saved))
  {
    MarkAllCached(s, Ids(s.queue), now);
    SetCurrentSame(MarkAll(s, Ids(s.queue), now), None, now, saved);
  }

  lemma MediaDeletedStepCached(s: State, gone: set<MediaId>, q: seq<Item>, h: seq<Item>, now: int, saved: bool)
    requires Cached(s) && IsListing(WithoutMedia(s.db, gone), q)
    ensures Cached(DoMediaDeleted(s, gone, q, h, now, saved))
  {
    var r := RereadWithout(s, gone, q, h);
    MediaDeletedCached(s, gone, q, h);
    SetCurrentSame(r, if r.queue == [] then None else Some(r.queue[0]), now, saved);
  }

  // A room opened over stored rows is cached, whatever room was there before.
  lemma OpenedCached(db: Db, q: seq<Item>, h: seq<Item>, settings: Settings, scheduled: bool, now: int)
    requires IsListing(db, q) && RanksDistinct(db.rows) && IdsUsed(db.rows, db.votes, db.used, map[])
    ensures Cached(Opened(db, q, h, settings, scheduled, now))
  {
    var r := State(db, settings, scheduled, [], [], map[], map[], Reopened(db, q),
                   {}, map[], None, None, NO_TIMERS, false, 0, false, {});
    RereadCached(r, q, h);
    SameQueueCached(Reread(r, q, h), Opened(db, q, h, settings, scheduled, now));
  }

  lemma LoadCached(s: State, q: seq<Item>, h: seq<Item>, settings: Settings, scheduled: bool, now: int)
    requires Cached(s) && IsListing(s.db, q)
    ensures Cached(DoLoad(s, q, h, settings, scheduled, now))
  {
    OpenedCached(s.db, q, h, settings, scheduled, now);
  }

  lemma AddingCached(s: State, c: Cmd, now: int, saved: bool)
    requires Cached(s) && CurrentUsed(s) && Adds(c) && Enabled(s, c, now)
    ensures Cached(DoAdding(s, c, now, saved))
  {
    match c
    case Add(l, user, next, force) => AddCached(s, l, user, next, force, now, saved);
    case AddMany(ls, user, next) => AddManyCached(s, ls, user, next, now, saved);
    case Replay(source, user, id, created) => ReplayCached(s, source, user, id, created, now, saved);
  }

  lemma VoteCached(s: State, user: UserId, id: ItemId)
    requires Cached(s)
    ensures Cached(DoVote(s, user, id))
  {
    if VoteAccepted(s, id) {
      ToggledCached(s, user, id);
      VoteReorderCached(Toggled(s, user, id));
    }
  }

  lemma ReorderingCached(s: State, c: Cmd, now: int)
    requires Cached(s) && Reorders(c) && Enabled(s, c, now)
    ensures Cached(DoReordering(s, c))
  {
    match c
    case Move(id, after) => MoveCached(s, id, after);
    case Shuffle(rest) => ShuffleCached(s, rest);
    case Vote(user, id) => VoteCached(s, user, id);
    case Set(settings, touched) => SetCached(s, settings, touched);
  }

  lemma DeletingCached(s: State, c: Cmd, now: int, saved: bool)
    requires Cached(s) && Deletes(c) && Enabled(s, c, now)
    ensures Cached(DoDeleting(s, c, now, saved))
  {
    match c
    case Clear => ClearCached(s);
    case ClearPlayed => HistoryDeletedMirrors(s.db, s.queue, s.votes, History(s.db));
    case Purge(ids) => HistoryDeletedMirrors(s.db, s.queue, s.votes, ids);
    case MediaDeleted(gone, q, h) => MediaDeletedStepCached(s, gone, q, h, now, saved);
  }

  lemma AdvancingCached(s: State, c: Cmd, now: int, saved: bool)
    requires Cached(s) && Advances(c) && Enabled(s, c, now)
    ensures Cached(DoAdvancing(s, c, now, saved))
  {
    match c
    case Remove(id, order) => RemoveCached(s, id, order, now, saved);
    case Skip(order) => NextCached(s, order, now, saved);
    case Jump(id) => JumpCached(s, id, now, saved);
    case SkipVote(user, order) =>
      if VotesOut(s, user) {
        NextCached(SkipToggled(s, user), order, now, saved);
      }
    case EndSession => EndSessionCached(s, now, saved);
    case Ended(t, order) =>
      if StillMeant(s, t) {
        NextCached(s, order, now, saved);
      }
  }

  lemma StepCached(s: State, c: Cmd, now: int, saved: bool)
    requires Cached(s) && CurrentUsed(s) && Enabled(s, c, now)
    ensures Cached(Do(s, c, now, saved))
  {
    if c.Load? {
      LoadCached(s, c.listing, c.history, c.settings, c.scheduled, now);
    } else if LeavesQueue(c) {
      SameQueueCached(s, Do(s, c, now, saved));
    } else if Adds(c) {
      AddingCached(s, c, now, saved);
    } else if Reorders(c) {
      ReorderingCached(s, c, now);
    } else if Deletes(c) {
      DeletingCached(s, c, now, saved);
    } else {
      AdvancingCached(s, c, now, saved);
    }
  }
}
