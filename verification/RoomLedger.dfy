// What may change in the store: rows come only from additions and go only by
// removal, clearing, purging and deleted media, exactly the rows that are
// meant; whoever added a row, its media and its age never change; and votes go
// with their rows, and come and go by voting alone.
module RoomLedger {
  import opened Base
  import opened Order
  import opened FairTurns
  import opened Moves
  import opened Store
  import opened RoomSpec
  import opened RoomCommands
  import opened RoomCache
  import opened RoomTurns

  // ---------------------------------------------------------------------
  // Rows and votes that stay
  // ---------------------------------------------------------------------

  ghost predicate SameFacts(rows: Rows, rows': Rows) {
    forall id :: id in rows && id in rows' ==>
      rows'[id].media == rows[id].media && rows'[id].addedBy == rows[id].addedBy && rows'[id].createdAt == rows[id].createdAt
  }

  // Rows and votes are the ones that were there.
  ghost predicate Kept(a: Db, b: Db) { b.rows.Keys == a.rows.Keys && SameFacts(a.rows, b.rows) && b.votes == a.votes }

  lemma KeptThrough(a: Db, b: Db, c: Db)
    requires Kept(a, b) && Kept(b, c)
    ensures Kept(a, c)
  {
    assert forall id :: id in a.rows <==> id in b.rows.Keys;
  }

  lemma AppliedKept(s: State, ordered: seq<Item>)
    ensures Kept(s.db, ApplyOrder(s, ordered).db)
  {
  }

  lemma FairKept(s: State)
    ensures Kept(s.db, FairReorder(s).db)
  {
    hide ApplyOrder, FairOrder;
    AppliedKept(s, FairOrder(s.queue, s.clock.current));
  }

  lemma VoteKept(s: State)
    ensures Kept(s.db, VoteReorder(s).db)
  {
    hide ApplyOrder, VoteOrder;
    AppliedKept(s, VoteOrder(s.queue, s.clock.current));
  }

  lemma MarkedKept(s: State, id: ItemId, now: int)
    ensures Kept(s.db, MarkPlayed(s, id, now).db)
  {
  }

  lemma {:induction false} SkippedKept(s: State, idx: int, now: int)
    ensures Kept(s.db, SkipFailed(s, idx, now).db)
    decreases |s.queue|
  {
    hide Kept;
    KeptSame(s.db);
    var next := Following(s.queue, idx);
    if next.Some? && SkipFailed(s, idx, now) != s {
      assert IndexOf(s.queue, next.value.id) >= 0;
      var m := MarkPlayed(s, next.value.id, now);
      MarkedKept(s, next.value.id, now);
      SkippedKept(m, idx, now);
      KeptThrough(s.db, m.db, SkipFailed(m, idx, now).db);
    }
  }

  lemma KeptSame(db: Db)
    ensures Kept(db, db)
  {
  }

  lemma {:induction false} MarkedAllKept(s: State, ids: seq<ItemId>, now: int)
    ensures Kept(s.db, MarkAll(s, ids, now).db)
  {
    hide Kept, MarkPlayed;
    KeptSame(s.db);
    if ids != [] {
      var m := MarkAll(s, ids[..|ids| - 1], now);
      MarkedAllKept(s, ids[..|ids| - 1], now);
      MarkedKept(m, ids[|ids| - 1], now);
      KeptThrough(s.db, m.db, MarkAll(s, ids, now).db);
    }
  }

  lemma DroppedKept(s: State, now: int)
    requires s.clock.current.Some?
    ensures Kept(s.db, Drop(s, now).db)
  {
    hide Kept, SkipFailed, MarkPlayed;
    var m := MarkPlayed(s, s.clock.current.value, now);
    MarkedKept(s, s.clock.current.value, now);
    SkippedKept(m, IndexOf(s.queue, s.clock.current.value), now);
    KeptThrough(s.db, m.db, Drop(s, now).db);
  }

  lemma LappedKept(d: State, order: seq<ItemId>)
    ensures Kept(d.db, Lap(d, order).db)
  {
    hide ItemsOf, MediaFor, VotesByUser, VoteReorder;
    var r := LapRead(d, order);
    assert Kept(d.db, r.db);
    VoteKept(r);
    hide Kept;
    KeptThrough(d.db, r.db, VoteReorder(r).db);
  }

  lemma SwitchKept(d: State, item: Option<Item>, now: int, saved: bool)
    ensures Kept(d.db, Persist(SetCurrent(d, item, now), now, saved).db)
  {
  }

  lemma StoppedKept(d: State, id: ItemId, now: int, saved: bool)
    ensures Kept(d.db, Persist(StopAtTop(d, id, now), now, saved).db)
  {
  }

  lemma NextKept(s: State, order: seq<ItemId>, now: int, saved: bool)
    ensures Kept(s.db, Next(s, order, now, saved).db)
  {
    hide Kept, Drop, Lap, SetCurrent, StopAtTop, Persist;
    KeptSame(s.db);
    if s.clock.current.Some? {
      var d, idx := Drop(s, now), IndexOf(s.queue, s.clock.current.value);
      DroppedKept(s, now);
      if Laps(d) {
        var l := Lap(d, order);
        LappedKept(d, order);
        KeptThrough(s.db, d.db, l.db);
        if l.queue != [] && l.viewers == map[] {
          StoppedKept(l, l.queue[0].id, now, saved);
        } else {
          SwitchKept(l, if l.queue == [] then None else Some(l.queue[0]), now, saved);
        }
        KeptThrough(s.db, l.db, Next(s, order, now, saved).db);
      } else {
        SwitchKept(d, Following(d.queue, idx), now, saved);
        KeptThrough(s.db, d.db, Next(s, order, now, saved).db);
      }
    }
  }

  // ---------------------------------------------------------------------
  // Which rows a step is meant to delete and to make
  // ---------------------------------------------------------------------

  function Dropped(s: State, c: Cmd): set<ItemId> {
    match c
    case Remove(id, _) => if IndexOf(s.queue, id) >= 0 && !IsCurrentId(s, id) then {id} else {}
    case Clear => set id | id in s.db.rows && s.db.rows[id].playedAt.None? && s.clock.current != Some(id)
    case ClearPlayed => set id | id in s.db.rows && s.db.rows[id].playedAt.Some?
    case Purge(ids) => ids
    case MediaDeleted(gone, _, _) => set id | id in s.db.rows && s.db.rows[id].media in gone
    case _ => {}
  }

  // The links that are taken, with the media that each row refers to.
  function NewLinks(s: State, c: Cmd): seq<Link> {
    match c
    case Add(l, _, _, force) => if AddAccepted(s, l, force) then [l] else []
    case AddMany(ls, _, _) => if s.closed then [] else Taken(ls, HeldMedia(s), QUEUE_LIMIT - |s.queue|)
    case Replay(source, _, id, created) =>
      if ReplayRefused(s, source) then [] else [Link(ItemById(s.played, source).value.media, id, created)]
    case _ => []
  }

  function LinkedIds(ls: seq<Link>): set<ItemId> { set l | l in ls :: l.id }

  // Unplayed rows of these links, added by this user.
  ghost predicate Entered(rows: Rows, ls: seq<Link>, user: Option<UserId>) {
    forall l :: l in ls ==>
      && l.id in rows && rows[l.id].media == l.media && rows[l.id].addedBy == user
      && rows[l.id].createdAt == l.created && rows[l.id].playedAt.None?
  }

  ghost predicate Ledger(a: Db, b: Db, dropped: set<ItemId>, added: set<ItemId>) {
    && b.rows.Keys == a.rows.Keys - dropped + added && SameFacts(a.rows, b.rows)
    && forall v :: v in b.votes <==> v in a.votes && v.0 !in dropped
  }

  lemma KeptLedger(a: Db, b: Db)
    requires Kept(a, b)
    ensures Ledger(a, b, {}, {})
  {
  }

  lemma DeletedLedger(db: Db, ids: set<ItemId>)
    ensures Ledger(db, Deleted(db, ids), ids, {})
  {
  }

  // ---------------------------------------------------------------------
  // Additions
  // ---------------------------------------------------------------------

  lemma OneMoreRow(db: Db, b: Db, ids: set<ItemId>, l: Link, user: Option<UserId>)
    requires Ledger(db, b, {}, ids) && l.id !in b.rows
    ensures Ledger(db, InsertLink(b, l, user), {}, ids + {l.id})
  {
    hide TopRank;
    var c := InsertLink(b, l, user);
    assert c.votes == b.votes && c.rows.Keys == b.rows.Keys + {l.id};
    assert forall id :: id in b.rows <==> id in b.rows.Keys;
    assert forall id :: id in b.rows ==> c.rows[id] == b.rows[id];
    assert forall id :: id in db.rows <==> id in db.rows.Keys;
  }

  lemma OneMoreEntered(b: Db, front: seq<Link>, l: Link, user: Option<UserId>)
    requires Entered(b.rows, front, user) && l.id !in b.rows
    ensures Entered(InsertLink(b, l, user).rows, front + [l], user)
  {
    hide TopRank;
    assert forall x :: x in front ==> x.id in b.rows;
  }

  lemma {:induction false} InsertedLedger(db: Db, ls: seq<Link>, user: Option<UserId>)
    requires forall l :: l in ls ==> l.id !in db.rows
    requires forall i, j :: 0 <= i < j < |ls| ==> ls[i].id != ls[j].id
    ensures var b := InsertLinks(db, ls, user); Ledger(db, b, {}, LinkedIds(ls)) && Entered(b.rows, ls, user)
  {
    hide Ledger, Entered, InsertLink, LinkedIds;
    if ls == [] {
      assert ls == [];
      NoLinks(db, user);
    } else {
      var front, last := ls[..|ls| - 1], ls[|ls| - 1];
      assert ls == front + [last];
      InsertedLedger(db, front, user);
      LastIsNew(db, front, last, InsertLinks(db, front, user));
      OneMoreRow(db, InsertLinks(db, front, user), LinkedIds(front), last, user);
      OneMoreEntered(InsertLinks(db, front, user), front, last, user);
      OneMoreLinked(front, last);
    }
  }

  lemma OneMoreLinked(front: seq<Link>, l: Link)
    ensures LinkedIds(front + [l]) == LinkedIds(front) + {l.id}
  {
  }

  lemma LastIsNew(db: Db, front: seq<Link>, last: Link, b: Db)
    requires Ledger(db, b, {}, LinkedIds(front)) && last.id !in db.rows
    requires forall i, j :: 0 <= i < j < |front + [last]| ==> (front + [last])[i].id != (front + [last])[j].id
    ensures last.id !in b.rows
  {
    forall l | l in front ensures l.id != last.id {
      var i :| 0 <= i < |front| && front[i] == l;
      assert (front + [last])[i] == l && (front + [last])[|front|] == last;
    }
    assert last.id !in LinkedIds(front);
    assert last.id in b.rows <==> last.id in b.rows.Keys;
  }

  ghost predicate SameStamps(rows: Rows, rows': Rows) {
    forall id :: id in rows && id in rows' ==> rows'[id].playedAt == rows[id].playedAt
  }

  // Ordering the queue, and starting what was added, keep what was entered.
  lemma EnteredLedger(s: State, a: State, b: State, ls: seq<Link>, user: Option<UserId>)
    requires Ledger(s.db, a.db, {}, LinkedIds(ls)) && Entered(a.db.rows, ls, user)
    requires Kept(a.db, b.db) && SameStamps(a.db.rows, b.db.rows)
    ensures Ledger(s.db, b.db, {}, LinkedIds(ls)) && Entered(b.db.rows, ls, user)
  {
    assert forall id :: id in a.db.rows <==> id in b.db.rows.Keys;
  }

  lemma AppliedStamps(s: State, ordered: seq<Item>)
    ensures SameStamps(s.db.rows, ApplyOrder(s, ordered).db.rows)
  {
  }

  lemma FairStamps(s: State)
    ensures SameStamps(s.db.rows, FairReorder(s).db.rows)
  {
    hide ApplyOrder, FairOrder;
    AppliedStamps(s, FairOrder(s.queue, s.clock.current));
  }

  lemma StampsThrough(a: Db, b: Db, c: Db)
    requires Kept(a, b) && SameStamps(a.rows, b.rows) && SameStamps(b.rows, c.rows)
    ensures SameStamps(a.rows, c.rows)
  {
    assert forall id :: id in a.rows <==> id in b.rows.Keys;
  }

  lemma PlacedNextKept(a: State, next: bool)
    ensures Kept(a.db, AddedAt(a, next).db) && SameStamps(a.db.rows, AddedAt(a, next).db.rows)
  {
    hide ApplyOrder, PlaceAfter;
    KeptSame(a.db);
    if next && !OrderedByRule(a) && a.clock.current.Some? && |a.queue| > 1 {
      var o := PlaceAfter(a.queue, |a.queue| - 1, a.clock.current, a.clock.current);
      if o.Some? {
        AppliedKept(a, o.value);
        AppliedStamps(a, o.value);
      }
    }
  }

  lemma StartedKept(b: State, it: Item, now: int, saved: bool)
    ensures var t := StartIfIdle(FairReorder(b), it, now, saved); Kept(b.db, t.db) && SameStamps(b.db.rows, t.db.rows)
  {
    hide FairReorder, StartIfIdle;
    FairKept(b);
    FairStamps(b);
  }

  ghost predicate AddsLedger(s: State, t: State, c: Cmd, user: Option<UserId>) {
    var ls := NewLinks(s, c);
    Ledger(s.db, t.db, {}, LinkedIds(ls)) && Entered(t.db.rows, ls, user)
  }

  lemma OneLink(db: Db, l: Link, user: Option<UserId>)
    ensures InsertLinks(db, [l], user) == InsertLink(db, l, user)
  {
    assert [l][..0] == [];
  }

  lemma NoLinks(db: Db, user: Option<UserId>)
    ensures Ledger(db, db, {}, LinkedIds([])) && Entered(db.rows, [], user)
  {
    assert LinkedIds([]) == {};
  }

  lemma AddLedger(s: State, c: Cmd, now: int, saved: bool)
    requires c.Add? && c.link.id !in s.db.rows
    ensures AddsLedger(s, DoAdding(s, c, now, saved), c, c.adder)
  {
    hide Ledger, Entered, Kept, SameStamps, FairReorder, StartIfIdle, AddedAt, InsertLink, InsertLinks, LinkedIds;
    var l, user := c.link, c.adder;
    if AddAccepted(s, l, c.force) {
      var a := Appended(s, l, user);
      var b := AddedAt(a, c.next);
      var t := DoAdding(s, c, now, saved);
      OneLink(s.db, l, user);
      InsertedLedger(s.db, [l], user);
      PlacedNextKept(a, c.next);
      StartedKept(b, NewItem(s.db, l, user), now, saved);
      KeptThrough(a.db, b.db, t.db);
      StampsThrough(a.db, b.db, t.db);
      EnteredLedger(s, a, t, [l], user);
    } else {
      NoLinks(s.db, user);
    }
  }

  lemma AddedManyKept(s: State, taken: seq<Link>, user: Option<UserId>, next: bool)
    ensures var b, db := AddedMany(s, taken, user, next), InsertLinks(s.db, taken, user);
      Kept(db, b.db) && SameStamps(db.rows, b.db.rows)
  {
    hide InsertLinks, NewItems, WithMedia, ApplyOrder, BatchAfterCurrent;
    var a := s.(db := InsertLinks(s.db, taken, user), media := WithMedia(s.media, s.db, taken));
    var o := BatchAfterCurrent(a.queue, NewItems(s.db, taken, user), a.clock.current);
    AppliedKept(a, o);
    AppliedStamps(a, o);
  }

  lemma AddManyLedger(s: State, c: Cmd, now: int, saved: bool)
    requires c.AddMany? && forall l :: l in c.links ==> l.id !in s.db.rows
    requires forall i, j :: 0 <= i < j < |c.links| ==> c.links[i].id != c.links[j].id
    ensures AddsLedger(s, DoAdding(s, c, now, saved), c, c.adder)
  {
    hide Ledger, Entered, Kept, SameStamps, FairReorder, StartIfIdle, AddedMany, InsertLinks, LinkedIds, Taken, NewItems;
    var user := c.adder;
    var taken := Taken(c.links, HeldMedia(s), QUEUE_LIMIT - |s.queue|);
    TakenLinks(c.links, HeldMedia(s), QUEUE_LIMIT - |s.queue|);
    if s.closed || taken == [] {
      NoLinks(s.db, user);
    } else {
      var a, b := s.(db := InsertLinks(s.db, taken, user)), AddedMany(s, taken, user, c.next);
      var t := DoAdding(s, c, now, saved);
      InsertedLedger(s.db, taken, user);
      AddedManyKept(s, taken, user, c.next);
      StartedKept(b, NewItems(s.db, taken, user)[0], now, saved);
      KeptThrough(a.db, b.db, t.db);
      StampsThrough(a.db, b.db, t.db);
      EnteredLedger(s, a, t, taken, user);
    }
  }

  lemma ReplayLedger(s: State, c: Cmd, now: int, saved: bool)
    requires c.Replay? && c.id !in s.db.rows
    ensures AddsLedger(s, DoAdding(s, c, now, saved), c, c.adder)
  {
    hide Ledger, Entered, Kept, SameStamps, FairReorder, StartIfIdle, InsertLink, InsertLinks, LinkedIds;
    var user := c.adder;
    if ReplayRefused(s, c.source) {
      NoLinks(s.db, user);
    } else {
      var l := Link(ItemById(s.played, c.source).value.media, c.id, c.created);
      var a, t := Requeue(s, l, user), DoAdding(s, c, now, saved);
      OneLink(s.db, l, user);
      InsertedLedger(s.db, [l], user);
      StartedKept(a, NewItem(s.db, l, user), now, saved);
      EnteredLedger(s, a, t, [l], user);
    }
  }

  // An addition makes exactly the rows of the links it takes, as they were
  // handed in.
  lemma AddingLedger(s: State, c: Cmd, now: int, saved: bool)
    requires Cached(s) && Adds(c) && Enabled(s, c, now)
    ensures AddsLedger(s, DoAdding(s, c, now, saved), c, c.adder)
  {
    hide AddsLedger, DoAdding, Ledger, Entered;
    RowsAreUsed(s);
    match c
    case Add(l, user, next, force) => AddLedger(s, c, now, saved);
    case AddMany(ls, user, next) => AddManyLedger(s, c, now, saved);
    case Replay(source, user, id, created) => ReplayLedger(s, c, now, saved);
  }

  lemma RowsAreUsed(s: State)
    requires Cached(s)
    ensures forall id :: id in s.db.rows ==> id in s.db.used
  {
  }

  // ---------------------------------------------------------------------
  // The other groups
  // ---------------------------------------------------------------------

  // A vote that counts toggles, and nothing else happens to votes and rows.
  lemma VoteToggles(s: State, user: UserId, id: ItemId)
    ensures var t := DoVote(s, user, id);
      && t.db.rows.Keys == s.db.rows.Keys && SameFacts(s.db.rows, t.db.rows)
      && if s.settings.voteMode && IndexOf(s.queue, id) >= 0 && s.clock.current != Some(id)
         then (forall v :: v != (id, user) ==> (v in t.db.votes <==> v in s.db.votes))
              && ((id, user) in t.db.votes <==> (id, user) !in s.db.votes)
         else t == s
  {
    hide VoteReorder;
    if VoteAccepted(s, id) {
      VoteKept(Toggled(s, user, id));
    }
  }

  lemma ReorderingKept(s: State, c: Cmd)
    requires Reorders(c) && !c.Vote?
    ensures Kept(s.db, DoReordering(s, c).db)
  {
    hide ApplyOrder, Kept, VoteReorder, FairReorder;
    KeptSame(s.db);
    match c
    case Move(id, after) =>
      var i := IndexOf(s.queue, id);
      if i >= 0 {
        var o := PlaceAfter(s.queue, i, after, s.clock.current);
        if o.Some? {
          AppliedKept(s, o.value);
        }
      }
    case Shuffle(rest) => AppliedKept(s, s.queue[..Pinned(s)] + rest);
    case Set(settings, touched) => SetKept(s, settings, touched);
  }

  lemma SetKept(s: State, settings: Settings, touched: bool)
    ensures Kept(s.db, DoSet(s, settings, touched).db)
  {
    hide VoteReorder, FairReorder, Kept;
    KeptSame(s.db);
    var u := (if touched && !settings.pauseWhenEmpty then s.(timers := s.timers.(empty := false)) else s).(settings := settings);
    VoteKept(u);
    FairKept(u.(skipVotes := {}));
  }

  lemma DeletingLedger(s: State, c: Cmd, now: int, saved: bool)
    requires Deletes(c)
    ensures Ledger(s.db, DoDeleting(s, c, now, saved).db, Dropped(s, c), {})
  {
    hide Ledger, Deleted, SetCurrent, Reread;
    DeletedLedger(s.db, Dropped(s, c));
    match c
    case Clear => ClearedRows(s);
    case ClearPlayed => PlayedRows(s);
    case Purge(ids) =>
    case MediaDeleted(gone, q, h) => RehomedLedger(s, gone, q, h, now, saved);
  }

  lemma ClearedRows(s: State)
    ensures DoClear(s).db == Deleted(s.db, Dropped(s, Clear))
  {
    assert Dropped(s, Clear) == set id | id in s.db.rows && Queued(s.db, id) && !IsCurrentId(s, id);
  }

  lemma PlayedRows(s: State)
    ensures DoClearPlayed(s).db == Deleted(s.db, Dropped(s, ClearPlayed))
  {
    assert Dropped(s, ClearPlayed) == History(s.db);
  }

  lemma RehomedLedger(s: State, gone: set<MediaId>, q: seq<Item>, h: seq<Item>, now: int, saved: bool)
    ensures var c := MediaDeleted(gone, q, h);
      Ledger(s.db, DoMediaDeleted(s, gone, q, h, now, saved).db, Dropped(s, c), {})
  {
    hide SetCurrent, Reread;
    var c := MediaDeleted(gone, q, h);
    DeletedLedger(s.db, Dropped(s, c));
    var r := RereadWithout(s, gone, q, h);
    assert r.db == Deleted(s.db, Dropped(s, c)).(media := s.db.media - gone);
    SwitchKept(r, if q == [] then None else Some(q[0]), now, saved);
  }

  lemma AdvancingLedger(s: State, c: Cmd, now: int, saved: bool)
    requires Advances(c)
    ensures Ledger(s.db, DoAdvancing(s, c, now, saved).db, Dropped(s, c), {})
  {
    hide Ledger, Kept, Next, Deleted, DoJump, DoEndSession, StillMeant, VotesOut;
    KeptSame(s.db);
    KeptLedger(s.db, s.db);
    match c
    case Remove(id, order) =>
      if RemovesCurrent(s, id) {
        NextKept(s, order, now, saved);
        KeptLedger(s.db, Next(s, order, now, saved).db);
      } else {
        DeletedLedger(s.db, {id});
      }
    case Skip(order) =>
      NextKept(s, order, now, saved);
      KeptLedger(s.db, Next(s, order, now, saved).db);
    case Jump(id) =>
      JumpKept(s, id, now, saved);
      KeptLedger(s.db, DoJump(s, id, now, saved).db);
    case SkipVote(user, order) =>
      NextKept(SkipToggled(s, user), order, now, saved);
      KeptLedger(s.db, Next(SkipToggled(s, user), order, now, saved).db);
    case EndSession =>
      EndedKept(s, now, saved);
      KeptLedger(s.db, DoEndSession(s, now, saved).db);
    case Ended(t, order) =>
      NextKept(s, order, now, saved);
      KeptLedger(s.db, Next(s, order, now, saved).db);
  }

  lemma JumpKept(s: State, id: ItemId, now: int, saved: bool)
    ensures Kept(s.db, DoJump(s, id, now, saved).db)
  {
    hide Kept, MarkPlayed, SetCurrent, Persist;
    KeptSame(s.db);
    var target := ItemById(s.queue, id);
    if target.Some? {
      if s.clock.current.Some? {
        MarkedKept(s, s.clock.current.value, now);
      }
      SwitchKept(JumpedFrom(s, id, now), target, now, saved);
      KeptThrough(s.db, JumpedFrom(s, id, now).db, DoJump(s, id, now, saved).db);
    }
  }

  lemma EndedKept(s: State, now: int, saved: bool)
    ensures Kept(s.db, DoEndSession(s, now, saved).db)
  {
    hide Kept, MarkAll, SetCurrent, Persist;
    var m := MarkAll(s, Ids(s.queue), now);
    MarkedAllKept(s, Ids(s.queue), now);
    SwitchKept(m, None, now, saved);
    KeptThrough(s.db, m.db, DoEndSession(s, now, saved).db);
  }

  // ---------------------------------------------------------------------
  // Every step
  // ---------------------------------------------------------------------

  lemma QuietKept(s: State, c: Cmd, now: int, saved: bool)
    requires LeavesQueue(c)
    ensures Kept(s.db, DoQuietly(s, c, now, saved).db)
  {
    hide DoQuietly;
  }

  // Rows are made and deleted exactly as the step means, and what the others
  // say stays; votes beside, which VoteToggles states.
  lemma StepLedger(s: State, c: Cmd, now: int, saved: bool)
    requires Cached(s) && Enabled(s, c, now) && !c.Vote?
    ensures Ledger(s.db, Do(s, c, now, saved).db, Dropped(s, c), LinkedIds(NewLinks(s, c)))
  {
    hide Do, DoQuietly, DoAdding, DoReordering, DoDeleting, DoAdvancing, Ledger, Kept, Cached, Entered, Enabled, NewLinks, Dropped;
    var t := Do(s, c, now, saved);
    LinksOnlyAdded(s, c);
    if c.Load? {
      DoLoadIsDo(s, c, now, saved);
      KeptSame(s.db);
      KeptLedger(s.db, t.db);
    } else if LeavesQueue(c) {
      DoQuietlyIsDo(s, c, now, saved);
      QuietKept(s, c, now, saved);
      KeptLedger(s.db, t.db);
    } else if Adds(c) {
      DoAddingIsDo(s, c, now, saved);
      AddingLedger(s, c, now, saved);
    } else if Reorders(c) {
      DoReorderingIsDo(s, c, now, saved);
      ReorderingKept(s, c);
      KeptLedger(s.db, t.db);
    } else if Deletes(c) {
      DoDeletingIsDo(s, c, now, saved);
      DeletingLedger(s, c, now, saved);
    } else {
      DoAdvancingIsDo(s, c, now, saved);
      AdvancingLedger(s, c, now, saved);
    }
  }

  lemma LinksOnlyAdded(s: State, c: Cmd)
    ensures !Adds(c) ==> LinkedIds(NewLinks(s, c)) == {}
    ensures c.Load? || LeavesQueue(c) || Adds(c) || Reorders(c) ==> Dropped(s, c) == {}
  {
  }
}
