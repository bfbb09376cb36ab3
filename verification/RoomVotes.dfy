// In vote mode the waiting items are always in the order of the votes,
// although only a vote, a change of settings and a lap sort them.
module RoomVotes {
  import opened Base
  import opened Order
  import opened Moves
  import opened Store
  import opened RoomSpec
  import opened RoomCommands
  import opened RoomCache
  import opened RoomShape
  import opened RoomSaved
  import C = Clock

  // No waiting item is ranked behind one it goes before.
  ghost predicate InOrder(q: seq<Item>, current: Option<ItemId>) {
    forall a, b :: a in q && b in q && !IsCurrent(a, current) && !IsCurrent(b, current) && a.rank < b.rank ==> !Before(b, a)
  }

  ghost predicate Voting(s: State) { s.settings.voteMode ==> InOrder(s.queue, s.clock.current) }

  // ---------------------------------------------------------------------
  // By rank and by place
  // ---------------------------------------------------------------------

  lemma LastGoesLast(front: seq<Item>, last: Item, current: Option<ItemId>, it: Item)
    requires Climbs(front + [last]) && InOrder(front + [last], current)
    requires it in front && !IsCurrent(it, current) && !IsCurrent(last, current)
    ensures !Before(last, it)
  {
    var q := front + [last];
    var i :| 0 <= i < |front| && front[i] == it;
    assert q[i] == it && q[|front|] == last && q[i].rank < q[|front|].rank;
    assert it in q && last in q;
  }

  lemma {:induction false} WaitingInOrder(q: seq<Item>, current: Option<ItemId>)
    requires Climbs(q) && InOrder(q, current)
    ensures ByVotes(Waiting(q, current))
  {
    if q != [] {
      var front, last := q[..|q| - 1], q[|q| - 1];
      assert q == front + [last];
      assert Climbs(front) && InOrder(front, current);
      WaitingInOrder(front, current);
      WaitingMembers(front, current);
      if !IsCurrent(last, current) {
        forall it | it in Waiting(front, current) ensures !Before(last, it) {
          LastGoesLast(front, last, current, it);
        }
        SortedAppend(Waiting(front, current), last);
      }
    }
  }

  lemma SortedAppend(w: seq<Item>, last: Item)
    requires ByVotes(w) && forall it :: it in w ==> !Before(last, it)
    ensures ByVotes(w + [last])
  {
  }

  lemma RankPlaces(q: seq<Item>, i: nat, j: nat)
    requires Climbs(q) && i < |q| && j < |q| && q[i].rank < q[j].rank
    ensures i < j
  {
  }

  lemma SortedInOrder(q: seq<Item>, current: Option<ItemId>)
    requires Climbs(q)
    requires forall i, j :: 0 <= i < j < |q| && !IsCurrent(q[i], current) && !IsCurrent(q[j], current) ==> !Before(q[j], q[i])
    ensures InOrder(q, current)
  {
    forall a, b | a in q && b in q && !IsCurrent(a, current) && !IsCurrent(b, current) && a.rank < b.rank ensures !Before(b, a) {
      var i :| 0 <= i < |q| && q[i] == a;
      var j :| 0 <= j < |q| && q[j] == b;
      RankPlaces(q, i, j);
    }
  }

  // Fewer items, and a current one that was waiting or is gone.
  lemma ThinnedInOrder(q: seq<Item>, r: seq<Item>, current: Option<ItemId>, next: Option<ItemId>)
    requires InOrder(q, current) && (forall it :: it in r ==> it in q)
    requires current == next || current.None? || !HasId(r, current.value)
    ensures InOrder(r, next)
  {
  }

  // The vote order, renumbered or not, is in order.
  lemma VoteOrderSorted(q: seq<Item>, current: Option<ItemId>)
    ensures var o := VoteOrder(q, current);
      forall i, j :: 0 <= i < j < |o| && !IsCurrent(o[i], current) && !IsCurrent(o[j], current) ==> !Before(o[j], o[i])
  {
    WaitingMembers(q, current);
    SortByVotesSorts(Waiting(q, current));
  }

  lemma VoteReorderInOrder(s: State)
    requires Cached(s)
    ensures InOrder(VoteReorder(s).queue, s.clock.current)
  {
    var o := VoteOrder(s.queue, s.clock.current);
    VoteOrderSorted(s.queue, s.clock.current);
    if o == s.queue {
      ListingClimbs(s.db, s.queue);
      SortedInOrder(o, s.clock.current);
    } else {
      RenumberedInOrder(o, s.clock.current);
    }
  }

  lemma RenumberedInOrder(o: seq<Item>, current: Option<ItemId>)
    requires forall i, j :: 0 <= i < j < |o| && !IsCurrent(o[i], current) && !IsCurrent(o[j], current) ==> !Before(o[j], o[i])
    ensures InOrder(Renumbered(o), current)
  {
    var r := Renumbered(o);
    forall i, j | 0 <= i < j < |r| && !IsCurrent(r[i], current) && !IsCurrent(r[j], current) ensures !Before(r[j], r[i]) {
      assert !Before(o[j], o[i]);
    }
    SortedInOrder(r, current);
  }

  // ---------------------------------------------------------------------
  // New items go last
  // ---------------------------------------------------------------------

  // No stored row is younger.
  ghost predicate Youngest(rows: Rows, created: int) { forall id :: id in rows ==> rows[id].createdAt <= created }

  lemma InsertInOrder(db: Db, q: seq<Item>, flags: Flags, l: Link, user: Option<UserId>, current: Option<ItemId>)
    requires Mirrors(db, q, flags) && l.id !in db.used && Youngest(db.rows, l.created)
    requires InOrder(q, current)
    ensures InOrder(q + [NewItem(db, l, user)], current)
  {
    var n := NewItem(db, l, user);
    TopRankTops(db.rows);
    forall it | it in q ensures it.rank < n.rank && !Before(n, it) {
      assert QueuedIn(db.rows, it.id);
    }
    forall a, b | a in q + [n] && b in q + [n] && !IsCurrent(a, current) && !IsCurrent(b, current) && a.rank < b.rank
      ensures !Before(b, a)
    {
      assert (a in q || a == n) && (b in q || b == n);
    }
  }

  lemma {:induction false} InsertLinksYoungest(db: Db, ls: seq<Link>, user: Option<UserId>, c: int)
    requires Youngest(db.rows, c) && forall l :: l in ls ==> l.created <= c
    ensures Youngest(InsertLinks(db, ls, user).rows, c)
  {
    if ls != [] {
      InsertLinksYoungest(db, ls[..|ls| - 1], user, c);
      assert ls[|ls| - 1] in ls;
    }
  }

  // Links with fresh ids, none created before a stored row or the one before.
  ghost predicate FreshLinks(db: Db, ls: seq<Link>) {
    && (forall l :: l in ls ==> l.id !in db.used && Youngest(db.rows, l.created))
    && forall i, j :: 0 <= i < j < |ls| ==> ls[i].id != ls[j].id && ls[i].created <= ls[j].created
  }

  lemma LastIsYoungest(db: Db, ls: seq<Link>, user: Option<UserId>)
    requires ls != [] && FreshLinks(db, ls)
    ensures Youngest(InsertLinks(db, ls[..|ls| - 1], user).rows, ls[|ls| - 1].created) && FreshLinks(db, ls[..|ls| - 1])
  {
    var front, last := ls[..|ls| - 1], ls[|ls| - 1];
    assert ls == front + [last];
    forall l | l in front ensures l.created <= last.created {
      var i :| 0 <= i < |front| && front[i] == l;
      assert ls[i] == l;
    }
    assert last in ls;
    InsertLinksYoungest(db, front, user, last.created);
  }

  lemma {:induction false} InsertLinksInOrder(db: Db, q: seq<Item>, flags: Flags, ls: seq<Link>, user: Option<UserId>,
                                              current: Option<ItemId>)
    requires Mirrors(db, q, flags) && InOrder(q, current) && FreshLinks(db, ls)
    ensures InOrder(q + NewItems(db, ls, user), current)
  {
    if ls == [] {
      assert q + NewItems(db, ls, user) == q;
    } else {
      var front, last := ls[..|ls| - 1], ls[|ls| - 1];
      LastIsYoungest(db, ls, user);
      InsertLinksInOrder(db, q, flags, front, user, current);
      InsertLinksMirrors(db, q, flags, front, user);
      FrontOfLinks(ls);
      var db', r := InsertLinks(db, front, user), q + NewItems(db, front, user);
      assert last in ls;
      InsertInOrder(db', r, flags, last, user, current);
      assert q + NewItems(db, ls, user) == r + [NewItem(db', last, user)];
    }
  }

  lemma StartIfIdleVoting(s: State, a: State, it: Item, now: int, saved: bool)
    requires a.settings == s.settings && a.clock.current == s.clock.current
    requires a.settings.voteMode ==> InOrder(a.queue, a.clock.current)
    ensures Voting(StartIfIdle(FairReorder(a), it, now, saved))
  {
    if a.settings.voteMode {
      assert FairReorder(a) == a;
      var t := StartIfIdle(a, it, now, saved);
      assert t.queue == a.queue;
      ThinnedInOrder(a.queue, t.queue, a.clock.current, t.clock.current);
    }
  }

  lemma AddVoting(s: State, l: Link, user: Option<UserId>, next: bool, force: bool, now: int, saved: bool)
    requires Cached(s) && Voting(s) && FreshLink(s.db, l)
    ensures Voting(DoAdd(s, l, user, next, force, now, saved))
  {
    if AddAccepted(s, l, force) {
      var b := AddedAt(Appended(s, l, user), next);
      if s.settings.voteMode {
        assert Youngest(s.db.rows, l.created);
        InsertInOrder(s.db, s.queue, s.votes, l, user, s.clock.current);
        assert b == Appended(s, l, user);
      }
      StartIfIdleVoting(s, b, NewItem(s.db, l, user), now, saved);
    }
  }

  lemma AddedManyInOrder(s: State, taken: seq<Link>, user: Option<UserId>, next: bool)
    requires Cached(s) && s.settings.voteMode && InOrder(s.queue, s.clock.current) && FreshLinks(s.db, taken)
    ensures InOrder(AddedMany(s, taken, user, next).queue, s.clock.current)
  {
    hide InOrder;
    InsertLinksInOrder(s.db, s.queue, s.votes, taken, user, s.clock.current);
  }

  lemma AddedManySettings(s: State, taken: seq<Link>, user: Option<UserId>, next: bool)
    ensures var b := AddedMany(s, taken, user, next); b.settings == s.settings && b.clock == s.clock
  {
  }

  lemma AddManyVoting(s: State, links: seq<Link>, user: Option<UserId>, next: bool, now: int, saved: bool)
    requires Cached(s) && Voting(s) && FreshLinks(s.db, links)
    ensures Voting(DoAddMany(s, links, user, next, now, saved))
  {
    hide AddedMany, FairReorder, StartIfIdle, InOrder, FreshLinks, Cached;
    var taken := Taken(links, HeldMedia(s), QUEUE_LIMIT - |s.queue|);
    AddedManySettings(s, taken, user, next);
    if !(s.closed || |s.queue| > QUEUE_LIMIT || taken == []) {
      if s.settings.voteMode {
        TakenInOrder(s.db, links, HeldMedia(s), QUEUE_LIMIT - |s.queue|);
        AddedManyInOrder(s, taken, user, next);
      }
      StartIfIdleVoting(s, AddedMany(s, taken, user, next), NewItems(s.db, taken, user)[0], now, saved);
    }
  }

  lemma {:induction false} TakenInOrder(db: Db, links: seq<Link>, seen: set<MediaId>, room: int)
    requires FreshLinks(db, links)
    ensures FreshLinks(db, Taken(links, seen, room)) && forall l :: l in Taken(links, seen, room) ==> l in links
  {
    if links != [] {
      var front, last := links[..|links| - 1], links[|links| - 1];
      assert links == front + [last];
      TakenInOrder(db, front, seen, room);
      forall l | l in Taken(front, seen, room) ensures l.id != last.id && l.created <= last.created {
        assert l in front;
        var i :| 0 <= i < |front| && front[i] == l;
        assert links[i] == l && links[|links| - 1] == last;
      }
    }
  }

  lemma LinksAreFresh(s: State, links: seq<Link>, user: Option<UserId>, next: bool, now: int)
    requires Enabled(s, AddMany(links, user, next), now)
    ensures FreshLinks(s.db, links)
  {
    forall l | l in links ensures l.id !in s.db.used && Youngest(s.db.rows, l.created) {
      assert FreshLink(s.db, l);
    }
  }

  lemma ReplayVoting(s: State, source: ItemId, user: Option<UserId>, id: ItemId, created: int, now: int, saved: bool)
    requires Cached(s) && Voting(s) && FreshLink(s.db, Link(0, id, created))
    ensures Voting(DoReplay(s, source, user, id, created, now, saved))
  {
    var src := ItemById(s.played, source);
    if !(src.None? || |s.queue| >= QUEUE_LIMIT || src.value.media !in s.db.media) {
      var l := Link(src.value.media, id, created);
      if s.settings.voteMode {
        assert Youngest(s.db.rows, l.created);
        InsertInOrder(s.db, s.queue, s.votes, l, user, s.clock.current);
      }
      StartIfIdleVoting(s, Requeue(s, l, user), NewItem(s.db, l, user), now, saved);
    }
  }

  lemma AddingVoting(s: State, c: Cmd, now: int, saved: bool)
    requires Cached(s) && Voting(s) && Adds(c) && Enabled(s, c, now)
    ensures Voting(DoAdding(s, c, now, saved))
  {
    match c
    case Add(l, user, next, force) => AddVoting(s, l, user, next, force, now, saved);
    case AddMany(ls, user, next) =>
      LinksAreFresh(s, ls, user, next, now);
      AddManyVoting(s, ls, user, next, now, saved);
    case Replay(source, user, id, created) => ReplayVoting(s, source, user, id, created, now, saved);
  }

  // ---------------------------------------------------------------------
  // Votes and settings
  // ---------------------------------------------------------------------

  lemma VoteVoting(s: State, user: UserId, id: ItemId)
    requires Cached(s) && Voting(s)
    ensures Voting(DoVote(s, user, id))
  {
    if VoteAccepted(s, id) {
      ToggledCached(s, user, id);
      VoteReorderInOrder(Toggled(s, user, id));
    }
  }

  lemma SetVoting(s: State, settings: Settings, touched: bool)
    requires Cached(s) && Voting(s)
    ensures Voting(DoSet(s, settings, touched))
  {
    var t := if touched && !settings.pauseWhenEmpty then s.(timers := s.timers.(empty := false)) else s;
    VoteReorderInOrder(t.(settings := settings));
  }

  lemma HandsOff(s: State, c: Cmd)
    requires (c.Move? || c.Shuffle?) && s.settings.voteMode
    ensures DoReordering(s, c) == s
  {
  }

  lemma ReorderingVoting(s: State, c: Cmd)
    requires Cached(s) && Voting(s) && Reorders(c)
    ensures Voting(DoReordering(s, c))
  {
    match c
    case Vote(user, id) => VoteVoting(s, user, id);
    case Set(settings, touched) => SetVoting(s, settings, touched);
    case _ =>
      MovesKeepSettings(s, c);
      if s.settings.voteMode {
        HandsOff(s, c);
      }
  }

  lemma MovesKeepSettings(s: State, c: Cmd)
    requires c.Move? || c.Shuffle?
    ensures DoReordering(s, c).settings == s.settings
  {
  }

  // ---------------------------------------------------------------------
  // Deletions and advances only thin the queue
  // ---------------------------------------------------------------------

  ghost predicate Thinner(q: seq<Item>, r: seq<Item>) { forall it :: it in r ==> it in q }

  lemma WithoutThinner(q: seq<Item>, i: nat)
    requires i < |q|
    ensures Thinner(q, Without(q, i))
  {
  }

  lemma {:induction false} SkipFailedThinner(s: State, idx: int, now: int)
    ensures Thinner(s.queue, SkipFailed(s, idx, now).queue)
    decreases |s.queue|
  {
    var next := Following(s.queue, idx);
    if next.Some? && MediaOf(s, next.value).Some? && MediaOf(s, next.value).value.status == MediaFailed {
      assert IndexOf(s.queue, next.value.id) >= 0;
      WithoutThinner(s.queue, IndexOf(s.queue, next.value.id));
      SkipFailedThinner(MarkPlayed(s, next.value.id, now), idx, now);
    }
  }

  // The queue without its outgoing item and the failed ones behind it.
  lemma DropThinner(s: State, now: int)
    requires Cached(s) && s.clock.current.Some?
    ensures Thinner(s.queue, Drop(s, now).queue) && !HasId(Drop(s, now).queue, s.clock.current.value)
  {
    var m := MarkPlayed(s, s.clock.current.value, now);
    var i := IndexOf(s.queue, s.clock.current.value);
    if i >= 0 {
      WithoutThinner(s.queue, i);
      WithoutIds(s.queue, i);
    } else {
      HasIdIndex(s.queue, s.clock.current.value);
    }
    SkipFailedThinner(m, i, now);
    ThinnerIds(m.queue, Drop(s, now).queue, s.clock.current.value);
  }

  lemma ThinnerIds(q: seq<Item>, r: seq<Item>, id: ItemId)
    requires Thinner(q, r) && !HasId(q, id)
    ensures !HasId(r, id)
  {
  }

  lemma ListedStays(s: State, db: Db, q: seq<Item>)
    requires Cached(s) && IsListing(db, q)
    requires forall id :: QueuedIn(db.rows, id) ==> QueuedIn(s.db.rows, id) && db.rows[id] == s.db.rows[id]
    requires forall id, u :: QueuedIn(db.rows, id) ==> ((id, u) in db.votes <==> (id, u) in s.db.votes)
    ensures Thinner(s.queue, q)
  {
    forall it | it in q ensures it in s.queue {
      assert QueuedIn(db.rows, it.id);
      SameVoters(s.db.votes, db.votes, it.id);
      var x :| x in s.queue && x.id == it.id;
    }
  }

  lemma MediaDeletedVoting(s: State, gone: set<MediaId>, q: seq<Item>, h: seq<Item>, now: int, saved: bool)
    requires Cached(s) && Voting(s) && IsListing(WithoutMedia(s.db, gone), q)
    ensures Voting(DoMediaDeleted(s, gone, q, h, now, saved))
  {
    ListedStays(s, WithoutMedia(s.db, gone), q);
    var t := DoMediaDeleted(s, gone, q, h, now, saved);
    if s.settings.voteMode {
      if s.clock.current.Some? {
        HasIdIndex(q, s.clock.current.value);
      }
      ThinnedInOrder(s.queue, t.queue, s.clock.current, t.clock.current);
    }
  }

  lemma DeletingVoting(s: State, c: Cmd, now: int, saved: bool)
    requires Cached(s) && Voting(s) && Deletes(c) && Enabled(s, c, now)
    ensures Voting(DoDeleting(s, c, now, saved))
  {
    match c
    case Clear =>
    case ClearPlayed =>
    case Purge(ids) =>
    case MediaDeleted(gone, q, h) => MediaDeletedVoting(s, gone, q, h, now, saved);
  }

  // A lap in vote mode leads with the item that just finished.
  lemma LapLeads(d: State, order: seq<ItemId>)
    requires Cached(d) && d.queue == [] && d.settings.voteMode && IsLap(d.db, order)
    requires d.clock.current.Some? && d.clock.current.value in order
    ensures var l := Lap(d, order);
      l.queue != [] && IsCurrent(l.queue[0], d.clock.current) && InOrder(l.queue, d.clock.current)
  {
    var r := LapRead(d, order);
    LapReadCached(d, order);
    LapItems(d.db, order);
    VoteReorderInOrder(r);
    WaitingMembers(r.queue, r.clock.current);
    var i :| 0 <= i < |order| && order[i] == d.clock.current.value;
    assert r.queue[i] in r.queue && IsCurrent(r.queue[i], r.clock.current);
    assert VoteOrder(r.queue, r.clock.current)[0] == CurrentOf(r.queue, r.clock.current).value;
  }

  lemma {:induction false} SkipFailedHistory(s: State, idx: int, now: int, id: ItemId)
    requires InHistory(s.db, id)
    ensures InHistory(SkipFailed(s, idx, now).db, id)
    decreases |s.queue|
  {
    var next := Following(s.queue, idx);
    if next.Some? && MediaOf(s, next.value).Some? && MediaOf(s, next.value).value.status == MediaFailed {
      assert IndexOf(s.queue, next.value.id) >= 0;
      SkipFailedHistory(MarkPlayed(s, next.value.id, now), idx, now, id);
    }
  }

  lemma DroppedInHistory(s: State, now: int)
    requires Cached(s) && Placed(s) && s.clock.current.Some?
    ensures InHistory(Drop(s, now).db, s.clock.current.value)
  {
    CurrentIsQueued(s);
    SkipFailedHistory(MarkPlayed(s, s.clock.current.value, now), IndexOf(s.queue, s.clock.current.value), now, s.clock.current.value);
  }

  lemma AdvancedVoting(s: State, order: seq<ItemId>, now: int)
    requires Cached(s) && Placed(s) && Voting(s) && s.clock.current.Some? && NextReady(s, order, now)
    ensures Voting(Advanced(s, order, now))
  {
    if s.settings.voteMode {
      var d, a := Drop(s, now), Advanced(s, order, now);
      DropThinner(s, now);
      if !Laps(d) {
        assert a.queue == d.queue;
        ThinnedInOrder(s.queue, d.queue, s.clock.current, a.clock.current);
      } else {
        DropCached(s, now);
        DroppedInHistory(s, now);
        LapLeads(d, order);
        assert a.queue == Lap(d, order).queue && a.clock.current == s.clock.current;
      }
    }
  }

  lemma NextVoting(s: State, order: seq<ItemId>, now: int, saved: bool)
    requires Cached(s) && Placed(s) && Voting(s) && NextReady(s, order, now)
    ensures Voting(Next(s, order, now, saved))
  {
    if s.clock.current.Some? {
      AdvancedVoting(s, order, now);
    }
  }

  lemma RemoveVoting(s: State, id: ItemId, order: seq<ItemId>, now: int, saved: bool)
    requires Cached(s) && Placed(s) && Voting(s) && (RemovesCurrent(s, id) ==> NextReady(s, order, now))
    ensures Voting(DoRemove(s, id, order, now, saved))
  {
    var i := IndexOf(s.queue, id);
    if i >= 0 {
      if IsCurrentId(s, id) {
        NextVoting(s, order, now, saved);
      } else {
        WithoutThinner(s.queue, i);
      }
    }
  }

  lemma JumpVoting(s: State, id: ItemId, now: int, saved: bool)
    requires Cached(s) && Voting(s)
    ensures Voting(DoJump(s, id, now, saved))
  {
    var target := ItemById(s.queue, id);
    if target.Some? && s.settings.voteMode {
      var d := JumpedFrom(s, id, now);
      JumpThins(s, id, now);
      var t := DoJump(s, id, now, saved);
      assert t.queue == d.queue && t.clock.current == Some(id);
      ThinnedInOrder(s.queue, t.queue, s.clock.current, t.clock.current);
    }
  }

  lemma JumpThins(s: State, id: ItemId, now: int)
    requires Cached(s)
    ensures Thinner(s.queue, JumpedFrom(s, id, now).queue)
    ensures s.clock.current.Some? && !IsCurrentId(s, id) ==> !HasId(JumpedFrom(s, id, now).queue, s.clock.current.value)
  {
    if s.clock.current.Some? && !IsCurrentId(s, id) {
      var i := IndexOf(s.queue, s.clock.current.value);
      if i >= 0 {
        WithoutThinner(s.queue, i);
        WithoutIds(s.queue, i);
      } else {
        HasIdIndex(s.queue, s.clock.current.value);
      }
    }
  }

  lemma SkipVoteVoting(s: State, user: UserId, order: seq<ItemId>, now: int, saved: bool)
    requires Cached(s) && Placed(s) && Voting(s) && (VotesOut(s, user) ==> NextReady(SkipToggled(s, user), order, now))
    ensures Voting(DoSkipVote(s, user, order, now, saved))
  {
    if VotesOut(s, user) {
      NextVoting(SkipToggled(s, user), order, now, saved);
    }
  }

  lemma MarkPlayedGone(s: State, id: ItemId, now: int)
    requires Distinct(s.queue)
    ensures var t := MarkPlayed(s, id, now);
      Distinct(t.queue) && forall it :: it in t.queue ==> it in s.queue && it.id != id
  {
    var i := IndexOf(s.queue, id);
    if i >= 0 {
      WithoutPermutes(s.queue, i);
    } else {
      HasIdIndex(s.queue, id);
    }
  }

  // Marking every item played empties the queue.
  lemma {:induction false} MarkAllEmpties(s: State, ids: seq<ItemId>, now: int)
    requires Distinct(s.queue)
    ensures var t := MarkAll(s, ids, now);
      Distinct(t.queue) && forall it :: it in t.queue ==> it in s.queue && it.id !in ids
  {
    if ids != [] {
      var front, last := ids[..|ids| - 1], ids[|ids| - 1];
      MarkAllEmpties(s, front, now);
      MarkPlayedGone(MarkAll(s, front, now), last, now);
      assert ids == front + [last];
    }
  }

  lemma EndSessionEmpties(s: State, now: int, saved: bool)
    requires Cached(s)
    ensures DoEndSession(s, now, saved).queue == []
  {
    var t := MarkAll(s, Ids(s.queue), now);
    MarkAllEmpties(s, Ids(s.queue), now);
    RenumberedMembers(s.queue);
    if t.queue != [] {
      SomeMember(t.queue);
    }
  }

  lemma AdvancingVoting(s: State, c: Cmd, now: int, saved: bool)
    requires Cached(s) && Placed(s) && Voting(s) && Advances(c) && Enabled(s, c, now)
    ensures Voting(DoAdvancing(s, c, now, saved))
  {
    match c
    case Remove(id, order) => RemoveVoting(s, id, order, now, saved);
    case Skip(order) => NextVoting(s, order, now, saved);
    case Jump(id) => JumpVoting(s, id, now, saved);
    case SkipVote(user, order) => SkipVoteVoting(s, user, order, now, saved);
    case EndSession => EndSessionEmpties(s, now, saved);
    case Ended(t, order) =>
      if StillMeant(s, t) {
        NextVoting(s, order, now, saved);
      }
  }

  // ---------------------------------------------------------------------
  // Every step and every run
  // ---------------------------------------------------------------------

  // The two are not ranked against the order of the votes.
  predicate Agree(a: Item, b: Item) {
    (a.rank < b.rank ==> !Before(b, a)) && (b.rank < a.rank ==> !Before(a, b))
  }

  // The item that was current may wait again: it agrees with every item that
  // waits beside it once next is current.
  ghost predicate Fits(q: seq<Item>, was: Option<ItemId>, next: Option<ItemId>) {
    was == next || was.None?
    || forall c, it :: c in q && c.id == was.value && it in q && it.id != was.value && next != Some(it.id) ==> Agree(c, it)
  }

  lemma SameIdRank(q: seq<Item>, a: Item, b: Item)
    requires Distinct(q) && a in q && b in q && a.id == b.id
    ensures a == b
  {
  }

  lemma FitsExactly(q: seq<Item>, was: Option<ItemId>, next: Option<ItemId>)
    requires Distinct(q) && InOrder(q, was)
    ensures InOrder(q, next) <==> Fits(q, was, next)
  {
    if InOrder(q, next) && was.Some? && was != next {
      forall c, it | c in q && c.id == was.value && it in q && it.id != was.value && next != Some(it.id) ensures Agree(c, it) {
        assert !IsCurrent(c, next) && !IsCurrent(it, next);
      }
    }
    if Fits(q, was, next) && was.Some? && was != next {
      forall a, b | a in q && b in q && !IsCurrent(a, next) && !IsCurrent(b, next) && a.rank < b.rank ensures !Before(b, a) {
        if IsCurrent(a, was) && IsCurrent(b, was) {
          SameIdRank(q, a, b);
        } else if IsCurrent(a, was) {
          assert Agree(a, b);
        } else if IsCurrent(b, was) {
          assert Agree(b, a);
        }
      }
    }
  }

  // A load puts the waiting items out of order exactly when the clock it
  // finds names another item and the one that was current does not fit in.
  ghost predicate LoadFits(s: State, c: Cmd) {
    c.Load? && s.settings.voteMode ==> Fits(s.queue, s.clock.current, Reopened(s.db, s.queue).current)
  }

  lemma LoadVoting(s: State, q: seq<Item>, h: seq<Item>, scheduled: bool, now: int)
    requires Cached(s) && Voting(s) && IsListing(s.db, q)
    ensures Voting(DoLoad(s, q, h, s.settings, scheduled, now)) <==>
      (s.settings.voteMode ==> Fits(s.queue, s.clock.current, Reopened(s.db, s.queue).current))
  {
    ListingIsUnique(s.db, q, s.queue);
    if s.settings.voteMode {
      FitsExactly(s.queue, s.clock.current, Reopened(s.db, s.queue).current);
    }
  }

  lemma QuietVoting(s: State, c: Cmd, now: int, saved: bool)
    requires Voting(s) && LeavesQueue(c)
    ensures Voting(DoQuietly(s, c, now, saved))
  {
  }

  lemma LoadsVoting(s: State, c: Cmd, now: int, saved: bool)
    requires Cached(s) && Voting(s) && Enabled(s, c, now) && c.Load?
    ensures Voting(Do(s, c, now, saved)) <==> LoadFits(s, c)
  {
    LoadVoting(s, c.listing, c.history, c.scheduled, now);
    DoLoadIsDo(s, c, now, saved);
  }

  lemma OthersVoting(s: State, c: Cmd, now: int, saved: bool)
    requires Cached(s) && Placed(s) && Voting(s) && Enabled(s, c, now) && !c.Load?
    ensures Voting(Do(s, c, now, saved))
  {
    hide Do, Enabled, Voting;
    if LeavesQueue(c) {
      QuietVoting(s, c, now, saved);
      DoQuietlyIsDo(s, c, now, saved);
    } else if Adds(c) {
      AddingVoting(s, c, now, saved);
      DoAddingIsDo(s, c, now, saved);
    } else if Reorders(c) {
      ReorderingVoting(s, c);
      DoReorderingIsDo(s, c, now, saved);
    } else if Deletes(c) {
      DeletingVoting(s, c, now, saved);
      DoDeletingIsDo(s, c, now, saved);
    } else {
      AdvancingVoting(s, c, now, saved);
      DoAdvancingIsDo(s, c, now, saved);
    }
  }

  // No step but a load that does not fit puts the waiting items out of order.
  lemma StepVoting(s: State, c: Cmd, now: int, saved: bool)
    requires Cached(s) && Placed(s) && Voting(s) && Enabled(s, c, now)
    ensures Voting(Do(s, c, now, saved)) <==> LoadFits(s, c)
  {
    hide Do, Enabled, Voting, Fits;
    if c.Load? {
      LoadsVoting(s, c, now, saved);
    } else {
      OthersVoting(s, c, now, saved);
    }
  }

  // Every load of the run fits.
  ghost predicate LoadsFit(s: State, run: seq<Event>)
    requires IsRun(s, run)
    decreases |run|
  {
    run == [] || (LoadFits(s, run[0].cmd) && LoadsFit(Do(s, run[0].cmd, run[0].now, run[0].saved), run[1..]))
  }

  // After any such run of adds, replays, votes, skips, jumps, removals,
  // setting changes, failed saves and reloads, the waiting items are sorted
  // by votes, then by age.
  lemma {:induction false} RunVotes(s: State, run: seq<Event>)
    requires Cached(s) && Placed(s) && Voting(s) && IsRun(s, run) && LoadsFit(s, run)
    ensures var t := Final(s, run); t.settings.voteMode ==> ByVotes(Waiting(t.queue, t.clock.current))
    decreases |run|
  {
    if run == [] {
      ListingClimbs(s.db, s.queue);
      if s.settings.voteMode {
        WaitingInOrder(s.queue, s.clock.current);
      }
    } else {
      var e := run[0];
      StepMirrors(s, e.cmd, e.now, e.saved);
      StepVoting(s, e.cmd, e.now, e.saved);
      RunVotes(Do(s, e.cmd, e.now, e.saved), run[1..]);
    }
  }

  // No load while the room knows that its clock is not saved.
  ghost predicate LoadsSaved(s: State, run: seq<Event>)
    requires IsRun(s, run)
    decreases |run|
  {
    run == [] || ((run[0].cmd.Load? ==> !s.unsaved) && LoadsSaved(Do(s, run[0].cmd, run[0].now, run[0].saved), run[1..]))
  }

  // Such loads fit, whatever saves fail and whatever is deleted in between.
  lemma {:induction false} SavedLoadsFit(s: State, run: seq<Event>)
    requires Recalled(s) && IsRun(s, run) && LoadsSaved(s, run)
    ensures LoadsFit(s, run)
    decreases |run|
  {
    if run != [] {
      var e := run[0];
      StepRecalled(s, e.cmd, e.now, e.saved);
      SavedLoadsFit(Do(s, e.cmd, e.now, e.saved), run[1..]);
    }
  }

  // A load that finds an older clock may find the queue out of order: the item
  // that was current waits again, ahead of one with more votes.
  function Unsaved(): State {
    var a := SOLE;
    var b := Item(2, 7, None, 2, 1, 0, None);
    var c := C.Clock(Some(1), true, 0, 0, C.NORMAL_RATE, 1);
    var media := map[7 := Media(MediaReady, 60000)];
    State(Db(map[1 := Row(7, None, 1, 0, None), 2 := Row(7, None, 2, 0, None)], {(2, 5)}, media,
             C.Playback(None, false, 0, 0, C.NORMAL_RATE), {1, 2}),
          PLAIN.(voteMode := true), false, [a, b], [], media, map[5 := {2}], c, {}, map[], None, None, NO_TIMERS, true, 0, false, {})
  }

  lemma UnsavedIsSafe()
    ensures Safe(Unsaved()) && Voting(Unsaved())
  {
    var s := Unsaved();
    assert VotersIn(s.db.votes, 1) == {};
    assert VotersIn(s.db.votes, 2) == {5};
    assert s.queue[0] in s.queue && s.queue[1] in s.queue;
    assert forall id :: QueuedIn(s.db.rows, id) ==> id == 1 || id == 2;
    assert s.queue[0].id == 1;
  }

  const REOPENED := Event(Load(Unsaved().queue, [], PLAIN.(voteMode := true), false), 5, true)

  lemma UnsavedLists()
    ensures IsListing(Unsaved().db, Unsaved().queue) && IsHistory(Unsaved().db, [])
  {
    UnsavedIsSafe();
  }

  lemma UnsavedReopens() returns (t: State)
    ensures Enabled(Unsaved(), REOPENED.cmd, REOPENED.now) && t == Do(Unsaved(), REOPENED.cmd, REOPENED.now, REOPENED.saved)
    ensures t == DoLoad(Unsaved(), Unsaved().queue, [], Unsaved().settings, false, 5)
  {
    var s := Unsaved();
    UnsavedLists();
    t := DoLoad(s, s.queue, [], s.settings, false, 5);
    DoLoadIsDo(s, REOPENED.cmd, REOPENED.now, REOPENED.saved);
  }

  lemma ReopensOutOfOrder()
    ensures !Voting(DoLoad(Unsaved(), Unsaved().queue, [], Unsaved().settings, false, 5))
  {
    var s := Unsaved();
    assert s.queue[0] in s.queue && s.queue[1] in s.queue && Before(s.queue[1], s.queue[0]);
  }

  lemma UnsavedLoadBreaksOrder()
    ensures Safe(Unsaved()) && Voting(Unsaved()) && IsRun(Unsaved(), [REOPENED])
    ensures !Voting(Final(Unsaved(), [REOPENED]))
  {
    hide Do, Enabled, Voting, DoLoad, Safe;
    UnsavedIsSafe();
    ReopensOutOfOrder();
    var t := UnsavedReopens();
    RunOne(Unsaved(), REOPENED, [], t);
    assert [REOPENED] + [] == [REOPENED];
  }
}
