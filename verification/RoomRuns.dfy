// Everything at once: what holds from a new room on, over every run.
module RoomRuns {
  import opened Base
  import opened FairTurns
  import opened Store
  import opened RoomSpec
  import opened RoomCommands
  import opened RoomCache
  import opened RoomShape
  import opened RoomSaved
  import opened RoomModes
  import opened RoomAdvance
  import opened RoomVotes
  import C = Clock

  ghost predicate AllWell(s: State) { Sound(s) && Safe(s) && Timely(s) && Voting(s) }

  // ---------------------------------------------------------------------
  // When no save fails
  // ---------------------------------------------------------------------

  // The stored columns are the clock's.
  predicate Exact(s: State) { !s.unsaved && s.db.playback == C.Saved(s.clock) }

  lemma StartExact(s: State, a: State, it: Item, now: int)
    requires Exact(s) && a.clock == s.clock && a.unsaved == s.unsaved && a.db.playback == s.db.playback
    ensures Exact(StartIfIdle(FairReorder(a), it, now, true))
  {
    hide SetCurrent, FairOrder;
  }

  lemma AddingExact(s: State, c: Cmd, now: int)
    requires Exact(s) && Adds(c)
    ensures Exact(DoAdding(s, c, now, true))
  {
    hide FairReorder, StartIfIdle, PlaceNext, Exact;
    match c
    case Add(l, user, next, force) =>
      if AddAccepted(s, l, force) {
        AddedAtPlayback(Appended(s, l, user), next);
        StartExact(s, AddedAt(Appended(s, l, user), next), NewItem(s.db, l, user), now);
      }
    case AddMany(ls, user, next) => AddManyExact(s, ls, user, next, now);
    case Replay(source, user, id, created) => ReplayExact(s, source, user, id, created, now);
  }

  lemma AddedAtPlayback(a: State, next: bool)
    ensures var b := AddedAt(a, next); b.clock == a.clock && b.unsaved == a.unsaved && b.db.playback == a.db.playback
  {
  }

  lemma AddManyExact(s: State, ls: seq<Link>, user: Option<UserId>, next: bool, now: int)
    requires Exact(s)
    ensures Exact(DoAddMany(s, ls, user, next, now, true))
  {
    hide FairReorder, StartIfIdle, Exact, Taken;
    var taken := Taken(ls, HeldMedia(s), QUEUE_LIMIT - |s.queue|);
    if !(s.closed || |s.queue| > QUEUE_LIMIT || taken == []) {
      AddedManyPlayback(s, taken, user, next);
      StartExact(s, AddedMany(s, taken, user, next), NewItems(s.db, taken, user)[0], now);
    }
  }

  lemma AddedManyPlayback(s: State, taken: seq<Link>, user: Option<UserId>, next: bool)
    ensures var b := AddedMany(s, taken, user, next);
      b.clock == s.clock && b.unsaved == s.unsaved && b.db.playback == s.db.playback
  {
    InsertLinksPlayback(s.db, taken, user);
  }

  lemma ReplayExact(s: State, source: ItemId, user: Option<UserId>, id: ItemId, created: int, now: int)
    requires Exact(s)
    ensures Exact(DoReplay(s, source, user, id, created, now, true))
  {
    hide FairReorder, StartIfIdle, Exact;
    var src := ItemById(s.played, source);
    if !(src.None? || |s.queue| >= QUEUE_LIMIT || src.value.media !in s.db.media) {
      var l := Link(src.value.media, id, created);
      StartExact(s, Requeue(s, l, user), NewItem(s.db, l, user), now);
    }
  }

  // The current item's row is in the queue, so no deletion of the history
  // empties the reference to it.
  lemma DeletedExact(s: State, ids: set<ItemId>)
    requires Exact(s) && (s.clock.current.Some? ==> s.clock.current.value !in ids)
    ensures Deleted(s.db, ids).playback == s.db.playback
  {
  }

  lemma MediaDeletedExact(s: State, gone: set<MediaId>, q: seq<Item>, h: seq<Item>, now: int)
    requires Exact(s) && Cached(s) && Placed(s) && IsListing(WithoutMedia(s.db, gone), q)
    ensures Exact(DoMediaDeleted(s, gone, q, h, now, true))
  {
    var r := RereadWithout(s, gone, q, h);
    if r.clock.current.Some? && CurrentItem(r).Some? {
      assert CurrentItem(r).value in q;
      assert QueuedIn(r.db.rows, r.clock.current.value);
      DeletedExact(s, set id | id in s.db.rows && s.db.rows[id].media in gone);
    }
  }

  lemma DeletingExact(s: State, c: Cmd, now: int)
    requires Exact(s) && Cached(s) && Placed(s) && Deletes(c) && Enabled(s, c, now)
    ensures Exact(DoDeleting(s, c, now, true))
  {
    if s.clock.current.Some? {
      CurrentIsQueued(s);
    }
    match c
    case Clear =>
    case ClearPlayed => DeletedExact(s, History(s.db));
    case Purge(ids) => DeletedExact(s, ids);
    case MediaDeleted(gone, q, h) => MediaDeletedExact(s, gone, q, h, now);
  }

  lemma NextExact(s: State, order: seq<ItemId>, now: int)
    requires Exact(s)
    ensures Exact(Next(s, order, now, true))
  {
    hide Advanced;
  }

  lemma AdvancingExact(s: State, c: Cmd, now: int)
    requires Exact(s) && Advances(c)
    ensures Exact(DoAdvancing(s, c, now, true))
  {
    hide Next, SetCurrent, JumpedFrom, MarkAll;
    match c
    case Remove(id, order) => NextExact(s, order, now);
    case Skip(order) => NextExact(s, order, now);
    case SkipVote(user, order) => NextExact(SkipToggled(s, user), order, now);
    case Ended(t, order) => NextExact(s, order, now);
    case Jump(id) =>
    case EndSession =>
  }

  lemma LoadExact(s: State, q: seq<Item>, h: seq<Item>, settings: Settings, scheduled: bool, now: int)
    requires Exact(s) && Cached(s) && Placed(s) && IsListing(s.db, q)
    ensures Exact(DoLoad(s, q, h, settings, scheduled, now))
  {
    ListingIsUnique(s.db, q, s.queue);
    SavedReloads(s);
  }

  lemma StepExact(s: State, c: Cmd, now: int)
    requires Exact(s) && Cached(s) && Placed(s) && Enabled(s, c, now)
    ensures Exact(Do(s, c, now, true))
  {
    hide Do;
    if c.Load? {
      LoadExact(s, c.listing, c.history, c.settings, c.scheduled, now);
      DoLoadIsDo(s, c, now, true);
    } else if LeavesQueue(c) {
      DoQuietlyIsDo(s, c, now, true);
    } else if Adds(c) {
      AddingExact(s, c, now);
      DoAddingIsDo(s, c, now, true);
    } else if Reorders(c) {
      DoReorderingIsDo(s, c, now, true);
    } else if Deletes(c) {
      DeletingExact(s, c, now);
      DoDeletingIsDo(s, c, now, true);
    } else {
      AdvancingExact(s, c, now);
      DoAdvancingIsDo(s, c, now, true);
    }
  }

  // With the columns exact there is nothing to lose, and no orphan to load.
  lemma ExactLosesNothing(s: State, c: Cmd)
    requires Exact(s) && Sound(s)
    ensures !Loses(s, c) && !Orphaned(s.db)
  {
    if s.clock.current.Some? {
      CurrentIsQueued(s);
    }
  }

  lemma ExactFits(s: State, c: Cmd)
    requires Exact(s) && Cached(s) && Placed(s)
    ensures LoadFits(s, c)
  {
    SavedReloads(s);
  }

  // Every save succeeds and loop stays off.
  ghost predicate Calm(s: State, run: seq<Event>)
    requires IsRun(s, run)
    decreases |run|
  {
    && !s.settings.loop
    && (run == [] ||
        (run[0].saved && Calm(Do(s, run[0].cmd, run[0].now, run[0].saved), run[1..])))
  }

  lemma StepAllWell(s: State, c: Cmd, now: int)
    requires AllWell(s) && Exact(s) && Enabled(s, c, now) && !s.settings.loop
    ensures AllWell(Do(s, c, now, true)) && Exact(Do(s, c, now, true))
  {
    hide Do, Enabled, Timely, Voting, Sound, Safe, Loses;
    LoopOffNeverStops(s, c);
    assert !Loses(s, c) && !Orphaned(s.db) by {
      ExactLosesNothing(s, c);
    }
    StepModes(s, c, now, true);
    StepConsistent(s, c, now, true);
    StepTimely(s, c, now, true);
    assert Cached(s) && Placed(s) && LoadFits(s, c) by {
      SoundIsCached(s);
      ExactFits(s, c);
    }
    StepVoting(s, c, now, true);
    assert Exact(Do(s, c, now, true)) by {
      assert Cached(s) && Placed(s) by {
        SoundIsCached(s);
      }
      StepExact(s, c, now);
    }
  }

  lemma SoundIsCached(s: State)
    requires Sound(s)
    ensures Cached(s) && Placed(s)
  {
  }

  // Then every invariant of the room holds after every run.
  lemma {:induction false} RunAllWell(s: State, run: seq<Event>)
    requires AllWell(s) && Exact(s) && IsRun(s, run) && Calm(s, run)
    ensures AllWell(Final(s, run)) && Exact(Final(s, run))
    decreases |run|
  {
    hide AllWell, Exact;
    if run != [] {
      StepAllWell(s, run[0].cmd, run[0].now);
      RunAllWell(Do(s, run[0].cmd, run[0].now, run[0].saved), run[1..]);
    }
  }

  // ---------------------------------------------------------------------
  // A new room
  // ---------------------------------------------------------------------

  lemma NewRoomIsWell(settings: Settings, scheduled: bool, now: int)
    ensures IsListing(EMPTY, []) && IsHistory(EMPTY, [])
    ensures var s := Opened(EMPTY, [], [], settings, scheduled, now); AllWell(s) && Exact(s)
  {
    var s := Opened(EMPTY, [], [], settings, scheduled, now);
    assert s.queue == [] && s.played == [] && s.votes == map[] && s.media == map[] && !s.clock.playing && s.armed == {};
  }
}
