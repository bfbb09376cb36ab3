// Crash consistency: with the writes of the playback columns failing at any
// time, after every step either the room knows that its clock is not saved
// or a reload gives the very clock it has. The one exception, and exactly
// when it happens, is proved.
module RoomSaved {
  import opened Base
  import opened Order
  import opened FairTurns
  import opened Moves
  import opened Store
  import opened RoomSpec
  import opened RoomCommands
  import opened RoomCache
  import opened RoomShape
  import C = Clock

  // A reload would give the clock in memory, but for the version counter.
  predicate Reloads(s: State) { Reopened(s.db, s.queue) == s.clock.(version := 0) }

  predicate Consistent(s: State) { s.unsaved || Reloads(s) }

  // The reference from the playback columns to the queue rows.
  predicate Referential(db: Db) { db.playback.current.Some? ==> db.playback.current.value in db.rows }

  // The rows a step deletes without touching the clock.
  function Removes(s: State, c: Cmd): set<ItemId> {
    match c
    case ClearPlayed => History(s.db)
    case Purge(ids) => ids
    case MediaDeleted(gone, _, _) => set id | id in s.db.rows && s.db.rows[id].media in gone
    case _ => {}
  }

  // The columns still say where an item stood that is in the history by now;
  // a reload ignores them as long as the item's row is there.
  predicate Dangling(s: State) {
    && s.db.playback.current.Some? && !Queued(s.db, s.db.playback.current.value)
    && (s.db.playback.playing || s.db.playback.positionMs != 0)
  }

  predicate Loses(s: State, c: Cmd) {
    !s.unsaved && Dangling(s) && s.db.playback.current.value in Removes(s, c)
  }

  ghost predicate Safe(s: State) { Cached(s) && Placed(s) && Referential(s.db) && Consistent(s) }

  // A weaker promise that nothing breaks: unless the room knows that its
  // clock is not saved, a reload finds the same item current.
  predicate Recalls(s: State) { s.unsaved || Reopened(s.db, s.queue).current == s.clock.current }

  ghost predicate Recalled(s: State) { Cached(s) && Placed(s) && Referential(s.db) && Recalls(s) }

  lemma SafeIsRecalled(s: State)
    requires Safe(s)
    ensures Recalled(s)
  {
  }

  // ---------------------------------------------------------------------
  // Steps that keep every row
  // ---------------------------------------------------------------------

  ghost predicate KeepsRows(rows: Rows, rows': Rows) {
    forall id :: id in rows ==> id in rows' && rows'[id].playedAt == rows[id].playedAt && rows'[id].media == rows[id].media
  }

  lemma KeptKeys(rows: Rows, rows': Rows)
    requires KeepsRows(rows, rows')
    ensures rows.Keys <= rows'.Keys
  {
    forall id | id in rows.Keys ensures id in rows'.Keys {
      assert id in rows;
    }
  }

  lemma QueuedIndex(s: State, id: ItemId)
    requires Cached(s)
    ensures IndexOf(s.queue, id) >= 0 <==> Queued(s.db, id)
  {
    CachedIndex(s, id);
  }

  lemma CurrentIsQueued(s: State)
    requires Cached(s) && Placed(s) && s.clock.current.Some?
    ensures Queued(s.db, s.clock.current.value) && s.clock.current.value in s.db.rows
  {
    var it :| it in s.queue && it.id == s.clock.current.value;
  }

  lemma SavedReloads(s: State)
    requires Cached(s) && Placed(s) && s.db.playback == C.Saved(s.clock)
    ensures Reloads(s) && Referential(s.db)
  {
    if s.clock.current.Some? {
      CurrentIsQueued(s);
      QueuedIndex(s, s.clock.current.value);
    }
  }

  // What every step that deletes no row leaves behind: a saved clock, or the
  // old columns beside a clock that is known to be unsaved or did not change.
  ghost predicate Carried(s: State, t: State) {
    && s.db.rows.Keys <= t.db.rows.Keys
    && (t.db.playback == C.Saved(t.clock)
        || (t.db.playback == s.db.playback
            && (t.unsaved || (t.clock == s.clock && !s.unsaved && KeepsRows(s.db.rows, t.db.rows)))))
  }

  lemma SettledIsCarried(s: State, t: State)
    requires Settled(s, t) && KeepsRows(s.db.rows, t.db.rows)
    ensures Carried(s, t)
  {
    KeptKeys(s.db.rows, t.db.rows);
  }

  lemma CarriedIsSafe(s: State, t: State)
    requires Safe(s) && Cached(t) && Placed(t) && Carried(s, t)
    ensures Safe(t)
  {
    if t.db.playback == C.Saved(t.clock) {
      SavedReloads(t);
    } else if !t.unsaved && s.db.playback.current.Some? {
      QueuedIndex(s, s.db.playback.current.value);
      QueuedIndex(t, s.db.playback.current.value);
    }
  }

  lemma CarriedIsRecalled(s: State, t: State)
    requires Recalled(s) && Cached(t) && Placed(t) && Carried(s, t)
    ensures Recalled(t)
  {
    if t.db.playback == C.Saved(t.clock) {
      SavedReloads(t);
    } else if !t.unsaved && s.db.playback.current.Some? {
      QueuedIndex(s, s.db.playback.current.value);
      QueuedIndex(t, s.db.playback.current.value);
    }
  }

  lemma ApplyOrderKeepsRows(s: State, ordered: seq<Item>)
    ensures KeepsRows(s.db.rows, ApplyOrder(s, ordered).db.rows)
  {
  }

  lemma FairReorderKeepsRows(s: State)
    ensures KeepsRows(s.db.rows, FairReorder(s).db.rows)
  {
    ApplyOrderKeepsRows(s, FairOrder(s.queue, s.clock.current));
  }

  lemma InsertLinkKeepsRows(db: Db, l: Link, user: Option<UserId>)
    requires l.id !in db.rows
    ensures KeepsRows(db.rows, InsertLink(db, l, user).rows)
  {
  }

  lemma {:induction false} InsertLinksKeepRows(db: Db, ls: seq<Link>, user: Option<UserId>)
    requires forall l :: l in ls ==> l.id !in db.rows
    requires forall i, j :: 0 <= i < j < |ls| ==> ls[i].id != ls[j].id
    ensures KeepsRows(db.rows, InsertLinks(db, ls, user).rows)
    ensures InsertLinks(db, ls, user).rows.Keys == db.rows.Keys + LinkIds(ls)
    ensures InsertLinks(db, ls, user).playback == db.playback
  {
    if ls != [] {
      FrontOfLinks(ls);
      InsertLinksKeepRows(db, ls[..|ls| - 1], user);
      InsertLinkKeepsRows(InsertLinks(db, ls[..|ls| - 1], user), ls[|ls| - 1], user);
    }
  }

  // The room after a reordering, and then a start if it was idle.
  lemma StartedIsCarried(s: State, a: State, it: Item, now: int, saved: bool)
    requires KeepsRows(s.db.rows, a.db.rows)
    requires a.clock == s.clock && a.unsaved == s.unsaved && a.db.playback == s.db.playback
    ensures Carried(s, StartIfIdle(FairReorder(a), it, now, saved))
  {
    FairReorderKeepsRows(a);
    SettledIsCarried(s, StartIfIdle(FairReorder(a), it, now, saved));
  }

  lemma AddIsCarried(s: State, l: Link, user: Option<UserId>, next: bool, force: bool, now: int, saved: bool)
    requires Cached(s) && l.id !in s.db.used
    ensures Carried(s, DoAdd(s, l, user, next, force, now, saved))
  {
    if AddAccepted(s, l, force) {
      var a := Appended(s, l, user);
      InsertLinkKeepsRows(s.db, l, user);
      var o := PlaceAfter(a.queue, |a.queue| - 1, a.clock.current, a.clock.current);
      if o.Some? {
        ApplyOrderKeepsRows(a, o.value);
      }
      StartedIsCarried(s, AddedAt(a, next), NewItem(s.db, l, user), now, saved);
    }
  }

  lemma AddManyIsCarried(s: State, links: seq<Link>, user: Option<UserId>, next: bool, now: int, saved: bool)
    requires Cached(s) && forall l :: l in links ==> l.id !in s.db.used
    requires forall i, j :: 0 <= i < j < |links| ==> links[i].id != links[j].id
    ensures Carried(s, DoAddMany(s, links, user, next, now, saved))
  {
    var taken := Taken(links, HeldMedia(s), QUEUE_LIMIT - |s.queue|);
    TakenLinks(links, HeldMedia(s), QUEUE_LIMIT - |s.queue|);
    if !(s.closed || |s.queue| > QUEUE_LIMIT || taken == []) {
      AddedManyKeepsRows(s, taken, user, next);
      StartedIsCarried(s, AddedMany(s, taken, user, next), NewItems(s.db, taken, user)[0], now, saved);
    }
  }

  lemma AddedManyKeepsRows(s: State, taken: seq<Link>, user: Option<UserId>, next: bool)
    requires Cached(s) && forall l :: l in taken ==> l.id !in s.db.used
    requires forall i, j :: 0 <= i < j < |taken| ==> taken[i].id != taken[j].id
    ensures var b := AddedMany(s, taken, user, next);
      KeepsRows(s.db.rows, b.db.rows) && b.clock == s.clock && b.unsaved == s.unsaved && b.db.playback == s.db.playback
  {
    var a := s.(db := InsertLinks(s.db, taken, user), media := WithMedia(s.media, s.db, taken));
    InsertLinksKeepRows(s.db, taken, user);
    ApplyOrderKeepsRows(a, BatchAfterCurrent(a.queue, NewItems(s.db, taken, user), a.clock.current));
  }

  lemma ReplayIsCarried(s: State, source: ItemId, user: Option<UserId>, id: ItemId, created: int, now: int, saved: bool)
    requires Cached(s) && id !in s.db.used
    ensures Carried(s, DoReplay(s, source, user, id, created, now, saved))
  {
    var src := ItemById(s.played, source);
    if !(src.None? || |s.queue| >= QUEUE_LIMIT || src.value.media !in s.db.media) {
      var l := Link(src.value.media, id, created);
      InsertLinkKeepsRows(s.db, l, user);
      StartedIsCarried(s, Requeue(s, l, user), NewItem(s.db, l, user), now, saved);
    }
  }

  lemma MoveKeepsRows(s: State, id: ItemId, after: Option<ItemId>)
    ensures KeepsRows(s.db.rows, DoMove(s, id, after).db.rows)
  {
    var i := IndexOf(s.queue, id);
    if i >= 0 {
      var o := PlaceAfter(s.queue, i, after, s.clock.current);
      if o.Some? {
        ApplyOrderKeepsRows(s, o.value);
      }
    }
  }

  lemma VoteReorderKeepsRows(s: State)
    ensures KeepsRows(s.db.rows, VoteReorder(s).db.rows)
  {
    ApplyOrderKeepsRows(s, VoteOrder(s.queue, s.clock.current));
  }

  lemma VoteKeepsRows(s: State, user: UserId, id: ItemId)
    ensures KeepsRows(s.db.rows, DoVote(s, user, id).db.rows)
  {
    hide VoteReorder;
    if VoteAccepted(s, id) {
      VoteReorderKeepsRows(Toggled(s, user, id));
    }
  }

  lemma SetKeepsRows(s: State, settings: Settings, touched: bool)
    ensures KeepsRows(s.db.rows, DoSet(s, settings, touched).db.rows)
  {
    var t := if touched && !settings.pauseWhenEmpty then s.(timers := s.timers.(empty := false)) else s;
    var u := t.(settings := settings);
    VoteReorderKeepsRows(u);
    FairReorderKeepsRows(u.(skipVotes := {}));
  }

  lemma ShuffleKeepsRows(s: State, rest: seq<Item>)
    ensures KeepsRows(s.db.rows, DoShuffle(s, rest).db.rows)
  {
    ApplyOrderKeepsRows(s, s.queue[..Pinned(s)] + rest);
  }

  lemma ReorderingKeepsRows(s: State, c: Cmd)
    requires Reorders(c)
    ensures KeepsRows(s.db.rows, DoReordering(s, c).db.rows)
  {
    match c
    case Move(id, after) => MoveKeepsRows(s, id, after);
    case Shuffle(rest) => ShuffleKeepsRows(s, rest);
    case Vote(user, id) => VoteKeepsRows(s, user, id);
    case Set(settings, touched) => SetKeepsRows(s, settings, touched);
  }

  lemma ReorderingIsCarried(s: State, c: Cmd)
    requires Reorders(c)
    ensures Carried(s, DoReordering(s, c))
  {
    ReorderingKeepsRows(s, c);
    KeptKeys(s.db.rows, DoReordering(s, c).db.rows);
  }

  lemma AddingIsCarried(s: State, c: Cmd, now: int, saved: bool)
    requires Cached(s) && Adds(c) && Enabled(s, c, now)
    ensures Carried(s, DoAdding(s, c, now, saved))
  {
    match c
    case Add(l, user, next, force) => AddIsCarried(s, l, user, next, force, now, saved);
    case AddMany(ls, user, next) => AddManyIsCarried(s, ls, user, next, now, saved);
    case Replay(source, user, id, created) => ReplayIsCarried(s, source, user, id, created, now, saved);
  }

  // ---------------------------------------------------------------------
  // Steps that advance
  // ---------------------------------------------------------------------

  lemma {:induction false} SkipFailedKeys(s: State, idx: int, now: int)
    ensures SkipFailed(s, idx, now).db.rows.Keys == s.db.rows.Keys
    decreases |s.queue|
  {
    var next := Following(s.queue, idx);
    if next.Some? && MediaOf(s, next.value).Some? && MediaOf(s, next.value).value.status == MediaFailed {
      assert IndexOf(s.queue, next.value.id) >= 0;
      SkipFailedKeys(MarkPlayed(s, next.value.id, now), idx, now);
    }
  }

  lemma {:induction false} MarkAllKeys(s: State, ids: seq<ItemId>, now: int)
    ensures var t := MarkAll(s, ids, now);
      t.db.rows.Keys == s.db.rows.Keys && t.db.playback == s.db.playback && t.clock == s.clock && t.unsaved == s.unsaved
  {
    if ids != [] {
      MarkAllKeys(s, ids[..|ids| - 1], now);
    }
  }

  lemma LapKeys(s: State, order: seq<ItemId>)
    requires IsLap(s.db, order)
    ensures s.db.rows.Keys <= Lap(s, order).db.rows.Keys
  {
    var r := s.(db := Requeued(s.db, order));
    assert r.db.rows.Keys == s.db.rows.Keys;
    var q := Reread(r, ItemsOf(r.db, order), []);
    VoteReorderKeepsRows(q);
    KeptKeys(q.db.rows, VoteReorder(q).db.rows);
  }

  lemma PersistSettles(s: State, a: State, now: int, saved: bool)
    requires a.db.playback == s.db.playback
    ensures var t := Persist(a, now, saved);
      && (t.db.playback == C.Saved(t.clock) || (t.unsaved && t.db.playback == s.db.playback))
      && t.db.rows == a.db.rows
  {
  }

  lemma AdvancedRows(s: State, order: seq<ItemId>, now: int)
    requires s.clock.current.Some?
    ensures Advanced(s, order, now).db.rows == if Laps(Drop(s, now)) then Lap(Drop(s, now), order).db.rows else Drop(s, now).db.rows
  {
  }

  lemma AdvancedKeys(s: State, order: seq<ItemId>, now: int)
    requires NextReady(s, order, now) && s.clock.current.Some?
    ensures s.db.rows.Keys <= Advanced(s, order, now).db.rows.Keys
  {
    var m := MarkPlayed(s, s.clock.current.value, now);
    var d := Drop(s, now);
    assert d.db.rows.Keys == s.db.rows.Keys by {
      SkipFailedKeys(m, IndexOf(s.queue, s.clock.current.value), now);
    }
    if Laps(d) {
      LapKeys(d, order);
    }
    AdvancedRows(s, order, now);
  }

  lemma NextSettles(s: State, order: seq<ItemId>, now: int, saved: bool)
    requires NextReady(s, order, now) && s.clock.current.Some?
    ensures var t := Next(s, order, now, saved);
      && s.db.rows.Keys <= t.db.rows.Keys
      && (t.db.playback == C.Saved(t.clock) || (t.unsaved && t.db.playback == s.db.playback))
  {
    AdvancedKeys(s, order, now);
    PersistSettles(s, Advanced(s, order, now), now, saved);
  }

  lemma NextIsCarried(s: State, u: State, order: seq<ItemId>, now: int, saved: bool)
    requires NextReady(u, order, now) && u == s.(skipVotes := u.skipVotes)
    ensures Carried(s, Next(u, order, now, saved))
  {
    if u.clock.current.Some? {
      NextSettles(u, order, now, saved);
    }
  }

  lemma JumpIsCarried(s: State, id: ItemId, now: int, saved: bool)
    ensures Carried(s, DoJump(s, id, now, saved))
  {
    hide SetCurrent, Persist, KeepsRows;
    var target := ItemById(s.queue, id);
    if target.Some? {
      JumpedKeys(s, id, now);
      PersistSettles(s, SetCurrent(JumpedFrom(s, id, now), target, now), now, saved);
    } else {
      StaysCarried(s);
    }
  }

  lemma JumpedKeys(s: State, id: ItemId, now: int)
    ensures JumpedFrom(s, id, now).db.rows.Keys == s.db.rows.Keys
  {
    hide MarkPlayed;
    if s.clock.current.Some? {
      MarkPlayedKeys(s, s.clock.current.value, now);
    }
  }

  lemma MarkPlayedKeys(s: State, id: ItemId, now: int)
    ensures MarkPlayed(s, id, now).db.rows.Keys == s.db.rows.Keys
  {
    hide IndexOf, Truncated;
    assert MarkedPlayed(s.db, id, now).rows.Keys == s.db.rows.Keys;
  }

  lemma StaysCarried(s: State)
    ensures Carried(s, s)
  {
  }

  lemma EndSessionIsCarried(s: State, now: int, saved: bool)
    ensures Carried(s, DoEndSession(s, now, saved))
  {
    MarkAllKeys(s, Ids(s.queue), now);
  }

  // ---------------------------------------------------------------------
  // Steps that delete rows
  // ---------------------------------------------------------------------

  // r: the room with the rows of ids deleted and the queue that is left.
  ghost predicate Shrunk(s: State, ids: set<ItemId>, r: State) {
    && r.db.rows == Deleted(s.db, ids).rows && r.db.playback == Deleted(s.db, ids).playback
    && r.clock == s.clock && r.unsaved == s.unsaved
  }

  lemma DeletedReloads(s: State, ids: set<ItemId>, r: State)
    requires Safe(s) && Cached(r) && Placed(r) && Shrunk(s, ids, r)
    ensures Referential(r.db)
    ensures Consistent(r) <==> !(!s.unsaved && Dangling(s) && s.db.playback.current.value in ids)
  {
    if !s.unsaved && s.db.playback.current.Some? {
      var x := s.db.playback.current.value;
      QueuedIndex(s, x);
      QueuedIndex(r, x);
      if x in ids && Queued(s.db, x) {
        CurrentIsQueued(r);
      }
    }
  }

  // Nothing that is deleted makes a reload find another item current.
  lemma DeletedRecalls(s: State, ids: set<ItemId>, r: State)
    requires Recalled(s) && Cached(r) && Placed(r) && Shrunk(s, ids, r)
    ensures Recalled(r)
  {
    if !s.unsaved && s.db.playback.current.Some? {
      var x := s.db.playback.current.value;
      QueuedIndex(s, x);
      QueuedIndex(r, x);
      if x in ids && Queued(s.db, x) {
        CurrentIsQueued(r);
      }
    }
  }

  // A removal deletes one waiting row, or is an advance.
  lemma RemoveShrinks(s: State, id: ItemId, order: seq<ItemId>, now: int, saved: bool)
    requires Cached(s) && (RemovesCurrent(s, id) ==> NextReady(s, order, now))
    ensures var t := DoRemove(s, id, order, now, saved);
      Carried(s, t) || (Shrunk(s, {id}, t) && Queued(s.db, id))
  {
    hide Cached, Next, Carried;
    StaysCarried(s);
    if IndexOf(s.queue, id) >= 0 {
      if IsCurrentId(s, id) {
        NextIsCarried(s, s, order, now, saved);
      } else {
        QueuedIndex(s, id);
      }
    }
  }

  lemma RemoveIsSafe(s: State, id: ItemId, order: seq<ItemId>, now: int, saved: bool)
    requires Safe(s) && (RemovesCurrent(s, id) ==> NextReady(s, order, now))
    requires Cached(DoRemove(s, id, order, now, saved)) && Placed(DoRemove(s, id, order, now, saved))
    ensures Safe(DoRemove(s, id, order, now, saved))
  {
    RemoveShrinks(s, id, order, now, saved);
    if Carried(s, DoRemove(s, id, order, now, saved)) {
      CarriedIsSafe(s, DoRemove(s, id, order, now, saved));
    } else {
      DeletedReloads(s, {id}, DoRemove(s, id, order, now, saved));
    }
  }

  lemma RemoveRecalls(s: State, id: ItemId, order: seq<ItemId>, now: int, saved: bool)
    requires Recalled(s) && (RemovesCurrent(s, id) ==> NextReady(s, order, now))
    requires Cached(DoRemove(s, id, order, now, saved)) && Placed(DoRemove(s, id, order, now, saved))
    ensures Recalled(DoRemove(s, id, order, now, saved))
  {
    RemoveShrinks(s, id, order, now, saved);
    if Carried(s, DoRemove(s, id, order, now, saved)) {
      CarriedIsRecalled(s, DoRemove(s, id, order, now, saved));
    } else {
      DeletedRecalls(s, {id}, DoRemove(s, id, order, now, saved));
    }
  }

  lemma ClearIsSafe(s: State)
    requires Safe(s) && Cached(DoClear(s)) && Placed(DoClear(s))
    ensures Safe(DoClear(s))
  {
    var gone := set id | id in s.db.rows && Queued(s.db, id) && !IsCurrentId(s, id);
    DeletedReloads(s, gone, DoClear(s));
  }

  // While something is current, nothing dangles.
  lemma LostItem(s: State)
    requires Safe(s) && s.clock.current.Some?
    ensures s.unsaved || !Dangling(s)
  {
    if !s.unsaved && s.db.playback.current.Some? {
      QueuedIndex(s, s.db.playback.current.value);
    }
  }

  // A room whose item is gone moves to the head of what is left, or to nothing.
  lemma RehomedReloads(r: State, now: int, saved: bool)
    requires r.clock.current.Some? && CurrentItem(r).None? && Referential(r.db)
    requires Cached(Rehomed(r, now, saved)) && Placed(Rehomed(r, now, saved))
    ensures Referential(Rehomed(r, now, saved).db) && Consistent(Rehomed(r, now, saved))
  {
    hide Cached, NextAdvance, Placed, Reloads;
    var a := SetCurrent(r, if r.queue == [] then None else Some(r.queue[0]), now);
    assert Rehomed(r, now, saved) == Persist(a, now, saved);
    PersistSettles(r, a, now, saved);
    if saved {
      SavedReloads(Persist(a, now, saved));
    }
  }

  lemma MediaDeletedConsistent(s: State, gone: set<MediaId>, q: seq<Item>, h: seq<Item>, now: int, saved: bool)
    requires Safe(s) && IsListing(WithoutMedia(s.db, gone), q)
    requires var t := DoMediaDeleted(s, gone, q, h, now, saved); Cached(t) && Placed(t)
    ensures var t := DoMediaDeleted(s, gone, q, h, now, saved);
      Referential(t.db) && (Consistent(t) <==> !Loses(s, MediaDeleted(gone, q, h)))
  {
    hide Cached, NextAdvance, VotesByUser, MediaFor;
    var ids := Removes(s, MediaDeleted(gone, q, h));
    var r := RereadWithout(s, gone, q, h);
    var t := DoMediaDeleted(s, gone, q, h, now, saved);
    MediaDeletedCached(s, gone, q, h);
    if r.clock.current.Some? && CurrentItem(r).None? {
      LostItem(s);
      RehomedReloads(r, now, saved);
    } else {
      assert t == r;
      DeletedReloads(s, ids, r);
    }
  }

  // ---------------------------------------------------------------------
  // Every step and every run
  // ---------------------------------------------------------------------

  lemma LoadIsSafe(s: State, q: seq<Item>, h: seq<Item>, settings: Settings, scheduled: bool, now: int)
    requires Referential(s.db)
    requires var t := DoLoad(s, q, h, settings, scheduled, now); Cached(t) && Placed(t)
    ensures Safe(DoLoad(s, q, h, settings, scheduled, now))
  {
  }

  lemma QuietIsCarried(s: State, c: Cmd, now: int, saved: bool)
    requires LeavesQueue(c)
    ensures Carried(s, DoQuietly(s, c, now, saved))
  {
    SettledIsCarried(s, DoQuietly(s, c, now, saved));
  }

  // The iff: exactly the deletions that lose the clock break the invariant.
  lemma DeletingConsistent(s: State, c: Cmd, now: int, saved: bool)
    requires Safe(s) && Deletes(c) && Enabled(s, c, now)
    requires Cached(DoDeleting(s, c, now, saved)) && Placed(DoDeleting(s, c, now, saved))
    ensures Referential(DoDeleting(s, c, now, saved).db)
    ensures Consistent(DoDeleting(s, c, now, saved)) <==> !Loses(s, c)
  {
    match c
    case Clear => ClearIsSafe(s);
    case ClearPlayed => DeletedReloads(s, History(s.db), DoClearPlayed(s));
    case Purge(ids) => DeletedReloads(s, ids, DoPurge(s, ids));
    case MediaDeleted(gone, q, h) => MediaDeletedConsistent(s, gone, q, h, now, saved);
  }

  lemma SkipVoteIsCarried(s: State, user: UserId, order: seq<ItemId>, now: int, saved: bool)
    requires VotesOut(s, user) ==> NextReady(SkipToggled(s, user), order, now)
    ensures Carried(s, DoSkipVote(s, user, order, now, saved))
  {
    if VotesOut(s, user) {
      NextIsCarried(s, SkipToggled(s, user), order, now, saved);
    }
  }

  lemma AdvancingIsCarried(s: State, c: Cmd, now: int, saved: bool)
    requires Advances(c) && Enabled(s, c, now) && !c.Remove?
    ensures Carried(s, DoAdvancing(s, c, now, saved))
  {
    match c
    case Skip(order) => NextIsCarried(s, s, order, now, saved);
    case Jump(id) => JumpIsCarried(s, id, now, saved);
    case SkipVote(user, order) => SkipVoteIsCarried(s, user, order, now, saved);
    case EndSession => EndSessionIsCarried(s, now, saved);
    case Ended(t, order) =>
      if StillMeant(s, t) {
        NextIsCarried(s, s, order, now, saved);
      }
  }

  lemma StepMirrors(s: State, c: Cmd, now: int, saved: bool)
    requires Cached(s) && Placed(s) && Enabled(s, c, now)
    ensures Cached(Do(s, c, now, saved)) && Placed(Do(s, c, now, saved))
  {
    PlacedIsUsed(s);
    StepCached(s, c, now, saved);
    StepPlaced(s, c, now, saved);
  }

  // Steps that neither delete nor load carry the clock on.
  lemma OthersAreCarried(s: State, c: Cmd, now: int, saved: bool)
    requires Cached(s) && Enabled(s, c, now) && !Deletes(c) && !c.Load? && !c.Remove?
    ensures Carried(s, Do(s, c, now, saved))
  {
    hide Do, Enabled, DoQuietly, DoAdding, DoReordering, DoAdvancing, Carried;
    if LeavesQueue(c) {
      QuietIsCarried(s, c, now, saved);
      DoQuietlyIsDo(s, c, now, saved);
    } else if Adds(c) {
      AddingIsCarried(s, c, now, saved);
      DoAddingIsDo(s, c, now, saved);
    } else if Reorders(c) {
      ReorderingIsCarried(s, c);
      DoReorderingIsDo(s, c, now, saved);
    } else {
      AdvancingIsCarried(s, c, now, saved);
      DoAdvancingIsDo(s, c, now, saved);
    }
  }

  lemma RemovalIs(s: State, id: ItemId, order: seq<ItemId>, now: int, saved: bool)
    requires Enabled(s, Remove(id, order), now)
    ensures Do(s, Remove(id, order), now, saved) == DoRemove(s, id, order, now, saved)
    ensures RemovesCurrent(s, id) ==> NextReady(s, order, now)
  {
    hide DoRemove, Next;
    DoAdvancingIsDo(s, Remove(id, order), now, saved);
  }

  lemma OthersAreSafe(s: State, c: Cmd, now: int, saved: bool)
    requires Safe(s) && Enabled(s, c, now) && !Deletes(c)
    ensures Safe(Do(s, c, now, saved))
  {
    hide Do, Enabled, Cached, Placed, Carried, Consistent;
    StepMirrors(s, c, now, saved);
    if c.Load? {
      DoLoadIsDo(s, c, now, saved);
      LoadIsSafe(s, c.listing, c.history, c.settings, c.scheduled, now);
    } else if c.Remove? {
      RemovalIs(s, c.id, c.order, now, saved);
      RemoveIsSafe(s, c.id, c.order, now, saved);
    } else {
      OthersAreCarried(s, c, now, saved);
      CarriedIsSafe(s, Do(s, c, now, saved));
    }
  }

  lemma DeletionsAreSafe(s: State, c: Cmd, now: int, saved: bool)
    requires Safe(s) && Enabled(s, c, now) && Deletes(c)
    ensures Safe(Do(s, c, now, saved)) <==> !Loses(s, c)
  {
    hide Do, DoDeleting, Enabled, Cached, Placed;
    DoDeletingIsDo(s, c, now, saved);
    StepMirrors(s, c, now, saved);
    DeletingConsistent(s, c, now, saved);
  }

  // One step, whatever it is and whether its save succeeds.
  lemma StepConsistent(s: State, c: Cmd, now: int, saved: bool)
    requires Safe(s) && Enabled(s, c, now)
    ensures Safe(Do(s, c, now, saved)) <==> !Loses(s, c)
  {
    hide Do, Enabled, Safe;
    if Deletes(c) {
      DeletionsAreSafe(s, c, now, saved);
    } else {
      OthersAreSafe(s, c, now, saved);
    }
  }

  lemma RehomedRecalls(s: State, gone: set<MediaId>, q: seq<Item>, h: seq<Item>, now: int, saved: bool)
    requires Recalled(s) && IsListing(WithoutMedia(s.db, gone), q)
    requires var t := DoMediaDeleted(s, gone, q, h, now, saved); Cached(t) && Placed(t)
    ensures Recalled(DoMediaDeleted(s, gone, q, h, now, saved))
  {
    hide Cached, NextAdvance, VotesByUser, MediaFor;
    var ids := Removes(s, MediaDeleted(gone, q, h));
    var r := RereadWithout(s, gone, q, h);
    MediaDeletedCached(s, gone, q, h);
    if r.clock.current.Some? && CurrentItem(r).None? {
      RehomedReloads(r, now, saved);
      SafeIsRecalled(DoMediaDeleted(s, gone, q, h, now, saved));
    } else {
      assert DoMediaDeleted(s, gone, q, h, now, saved) == r;
      DeletedRecalls(s, ids, r);
    }
  }

  lemma DeletionsRecall(s: State, c: Cmd, now: int, saved: bool)
    requires Recalled(s) && Deletes(c) && Enabled(s, c, now)
    requires Cached(DoDeleting(s, c, now, saved)) && Placed(DoDeleting(s, c, now, saved))
    ensures Recalled(DoDeleting(s, c, now, saved))
  {
    match c
    case Clear =>
      var gone := set id | id in s.db.rows && Queued(s.db, id) && !IsCurrentId(s, id);
      DeletedRecalls(s, gone, DoClear(s));
    case ClearPlayed => DeletedRecalls(s, History(s.db), DoClearPlayed(s));
    case Purge(ids) => DeletedRecalls(s, ids, DoPurge(s, ids));
    case MediaDeleted(gone, q, h) => RehomedRecalls(s, gone, q, h, now, saved);
  }

  // Every step, the losing deletions included, leaves a room that knows its
  // clock is unsaved or whose reload finds the same item current.
  lemma StepRecalled(s: State, c: Cmd, now: int, saved: bool)
    requires Recalled(s) && Enabled(s, c, now)
    ensures Recalled(Do(s, c, now, saved))
  {
    hide Do, Enabled, Cached, Placed, Carried, DoDeleting;
    StepMirrors(s, c, now, saved);
    if c.Load? {
      DoLoadIsDo(s, c, now, saved);
      LoadIsSafe(s, c.listing, c.history, c.settings, c.scheduled, now);
    } else if Deletes(c) {
      DoDeletingIsDo(s, c, now, saved);
      DeletionsRecall(s, c, now, saved);
    } else if c.Remove? {
      RemovalIs(s, c.id, c.order, now, saved);
      RemoveRecalls(s, c.id, c.order, now, saved);
    } else {
      OthersAreCarried(s, c, now, saved);
      CarriedIsRecalled(s, Do(s, c, now, saved));
    }
  }

  ghost predicate LosesNothing(s: State, run: seq<Event>)
    requires IsRun(s, run)
    decreases |run|
  {
    run == [] || (!Loses(s, run[0].cmd) && LosesNothing(Do(s, run[0].cmd, run[0].now, run[0].saved), run[1..]))
  }

  lemma {:induction false} RunConsistent(s: State, run: seq<Event>)
    requires Safe(s) && IsRun(s, run) && LosesNothing(s, run)
    ensures Safe(Final(s, run))
    decreases |run|
  {
    if run != [] {
      var e := run[0];
      StepConsistent(s, e.cmd, e.now, e.saved);
      RunConsistent(Do(s, e.cmd, e.now, e.saved), run[1..]);
    }
  }

  // What the manager may drop after a tick comes back as it was: the same
  // item, at the same position at every later time.
  lemma DroppedComesBack(s: State, every: int, now: int, saved: bool, q: seq<Item>, t: int, duration: int)
    requires Safe(s) && s.clock.positionAt <= now
    requires Idle(DoTick(s, every, now, saved)) && IsListing(DoTick(s, every, now, saved).db, q)
    ensures var r := DoTick(s, every, now, saved);
      && Reopened(r.db, q).current == s.clock.current
      && C.Position(Reopened(r.db, q), t, duration) == C.Position(s.clock, t, duration)
  {
    StepConsistent(s, Tick(every), now, saved);
    var r := DoTick(s, every, now, saved);
    ListingIsUnique(r.db, q, r.queue);
  }

  // The loss is real: a save fails, the process restarts over the item that
  // left, and clearing the history makes the stored columns play nothing.
  const REOPENING := Event(Load([], [OnePlayingDone()], PLAIN, false), 6, true)

  function OnePlayingDone(): Item { SOLE.(playedAt := Some(5)) }

  lemma Reopens(s: State) returns (t: State)
    requires SkippedUnsaved(s)
    ensures Enabled(s, REOPENING.cmd, REOPENING.now) && t == Do(s, REOPENING.cmd, REOPENING.now, REOPENING.saved)
    ensures t.clock.positionAt <= 6 && !t.clock.playing && t.clock.positionMs == 0 && Loses(t, ClearPlayed)
  {
    assert VotersIn(s.db.votes, SOLE.id) == {};
    assert OnePlayingDone() in [OnePlayingDone()];
    assert IsHistory(s.db, [OnePlayingDone()]);
    assert IsListing(s.db, []);
    assert SOLE.id in History(s.db);
    t := DoLoad(s, [], [OnePlayingDone()], PLAIN, false, 6);
  }

  lemma ReopenedAndCleared(s: State)
    requires SkippedUnsaved(s)
    ensures IsRun(s, [REOPENING, CLEARING]) && !Consistent(Final(s, [REOPENING, CLEARING]))
  {
    hide Do, Enabled, SkippedUnsaved, Loses, Consistent, DoClearPlayed;
    var t := Reopens(s);
    ClearingLoses(t);
    ClearingStep(t, 6, true);
    RunOfTwo(s, REOPENING, CLEARING, t, DoClearPlayed(t));
  }

  lemma LosingRun()
    ensures Safe(OnePlaying()) && IsRun(OnePlaying(), [SKIPPING] + [REOPENING, CLEARING])
    ensures !Consistent(Final(OnePlaying(), [SKIPPING] + [REOPENING, CLEARING]))
  {
    OnePlayingIsCached();
    var s := OnePlayingSkipped();
    ReopenedAndCleared(s);
    RunOne(OnePlaying(), SKIPPING, [REOPENING, CLEARING], s);
  }

  lemma ClearingLoses(s: State)
    requires Loses(s, ClearPlayed) && !s.clock.playing && s.clock.positionMs == 0
    ensures !Consistent(DoClearPlayed(s))
  {
  }
}
