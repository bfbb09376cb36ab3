// The room moves on by itself at the end of an item: while an item of known
// length plays, a timer for this very clock is armed, and no timer acts
// before the clock stands at the end.
module RoomAdvance {
  import opened Base
  import opened Moves
  import opened Store
  import opened RoomSpec
  import opened RoomCommands
  import opened RoomSaved
  import opened RoomModes
  import C = Clock

  // From due on, the clock stands at the end.
  ghost predicate EndsBy(c: C.Clock, due: int, duration: int) {
    duration > 0 && forall u :: due <= u ==> C.Position(c, u, duration) == duration
  }

  predicate Meant(s: State, t: Advance) {
    t.version == s.clock.version && s.clock.playing && s.clock.current == Some(t.item)
  }

  // No timer ever armed is from a later clock, and those for this clock fire
  // at the end of its item.
  ghost predicate NeverEarly(s: State) {
    forall t :: t in s.armed ==> t.version <= s.clock.version && (Meant(s, t) ==> EndsBy(s.clock, t.due, Duration(s)))
  }

  predicate NeverStalls(s: State) {
    !s.closed && s.clock.playing && Duration(s) > 0 ==>
      s.timers.advance.Some? && Meant(s, s.timers.advance.value) && s.timers.advance.value in s.armed
  }

  predicate ClockSane(s: State) {
    && s.clock.rate in C.ALLOWED_RATES && C.Restored(s.db.playback).rate in C.ALLOWED_RATES
    && s.db.playback.positionAt <= s.clock.positionAt
  }

  ghost predicate Timely(s: State) { NeverEarly(s) && NeverStalls(s) && ClockSane(s) }

  // ---------------------------------------------------------------------
  // Arming
  // ---------------------------------------------------------------------

  lemma NextAdvanceEnds(s: State, now: int)
    requires s.clock.rate in C.ALLOWED_RATES && s.clock.positionAt <= now && NextAdvance(s, now).Some?
    ensures var t := NextAdvance(s, now).value;
      Meant(s, t) && EndsBy(s.clock, t.due, Duration(s))
  {
    var t := NextAdvance(s, now).value;
    forall u | t.due <= u ensures C.Position(s.clock, u, Duration(s)) == Duration(s) {
      C.FiresAtTheEnd(s.clock, now, u, Duration(s));
    }
  }

  lemma NextAdvanceKnown(s: State, now: int)
    ensures NextAdvance(s, now).Some? <==> s.clock.playing && Duration(s) > 0
  {
  }

  lemma RearmedIsTimely(s: State, t: State, now: int)
    requires NeverEarly(s) && s.clock.rate in C.ALLOWED_RATES && Rearmed(s, t, now)
    ensures NeverEarly(t) && NeverStalls(t) && t.clock.rate in C.ALLOWED_RATES
  {
    NextAdvanceKnown(t, now);
    if t.timers.advance.Some? {
      NextAdvanceEnds(t, now);
    }
  }

  lemma UntouchedIsTimely(s: State, t: State)
    requires NeverEarly(s) && NeverStalls(s) && Untouched(s, t)
    requires s.clock.playing ==> CurrentMedia(t) == CurrentMedia(s)
    ensures NeverEarly(t) && NeverStalls(t)
  {
  }

  // The saved columns change only with the clock, or lose their item.
  predicate SavesTime(s: State, t: State) {
    || t.db.playback == s.db.playback
    || t.db.playback == s.db.playback.(current := None)
    || t.db.playback == C.Saved(t.clock)
  }

  lemma ClockStaysSane(s: State, t: State, now: int)
    requires ClockSane(s) && SavesTime(s, t) && KeepsTime(s, t, now) && s.clock.positionAt <= now
    ensures ClockSane(t)
  {
  }

  // ---------------------------------------------------------------------
  // What plays keeps its length
  // ---------------------------------------------------------------------

  lemma KeepsLength(s: State, t: State)
    requires Sound(s) && Sound(t) && Kept(s, t) && t.clock == s.clock && s.clock.playing
    ensures CurrentMedia(t) == CurrentMedia(s)
  {
    CurrentRow(s);
    CurrentRow(t);
  }

  lemma KeepsTimely(s: State, t: State, now: int)
    requires Sound(s) && Timely(s) && KeepsTime(s, t, now) && SavesTime(s, t) && s.clock.positionAt <= now
    requires !Rearmed(s, t, now) ==> Sound(t) && Kept(s, t)
    ensures Timely(t)
  {
    ClockStaysSane(s, t, now);
    if Rearmed(s, t, now) {
      RearmedIsTimely(s, t, now);
    } else {
      if s.clock.playing {
        KeepsLength(s, t);
      }
      UntouchedIsTimely(s, t);
    }
  }

  // ---------------------------------------------------------------------
  // What each group of steps does to time
  // ---------------------------------------------------------------------

  lemma QuietTime(s: State, c: Cmd, now: int, saved: bool)
    requires Sound(s) && LeavesQueue(c) && Enabled(s, c, now)
    ensures var t := DoQuietly(s, c, now, saved); KeepsTime(s, t, now) && SavesTime(s, t) && Kept(s, t)
  {
    if MovesMedia(c) {
      MediaStaysFresh(s, c, now, saved);
    } else {
      QuietModes(s, c, now, saved);
    }
  }

  lemma StartIfIdleTime(s: State, a: State, it: Item, now: int, saved: bool)
    requires Untouched(s, a) && a.db.playback == s.db.playback && a.closed == s.closed
    requires a.timers.advance == s.timers.advance
    ensures var t := StartIfIdle(a, it, now, saved); KeepsTime(s, t, now) && SavesTime(s, t)
  {
  }

  lemma AddTime(s: State, l: Link, user: Option<UserId>, next: bool, force: bool, now: int, saved: bool)
    ensures var t := DoAdd(s, l, user, next, force, now, saved); KeepsTime(s, t, now) && SavesTime(s, t)
  {
    if AddAccepted(s, l, force) {
      var b := AddedAt(Appended(s, l, user), next);
      StartIfIdleTime(s, FairReorder(b), NewItem(s.db, l, user), now, saved);
    }
  }

  lemma {:induction false} InsertLinksPlayback(db: Db, ls: seq<Link>, user: Option<UserId>)
    ensures InsertLinks(db, ls, user).playback == db.playback
  {
    if ls != [] {
      InsertLinksPlayback(db, ls[..|ls| - 1], user);
    }
  }

  lemma AddedManyTime(s: State, taken: seq<Link>, user: Option<UserId>, next: bool)
    ensures var b := AddedMany(s, taken, user, next);
      && b.clock == s.clock && b.armed == s.armed && b.timers == s.timers && b.closed == s.closed
      && b.db.playback == s.db.playback
  {
    InsertLinksPlayback(s.db, taken, user);
  }

  lemma AddManyTime(s: State, links: seq<Link>, user: Option<UserId>, next: bool, now: int, saved: bool)
    ensures var t := DoAddMany(s, links, user, next, now, saved); KeepsTime(s, t, now) && SavesTime(s, t)
  {
    hide FairReorder, AddedMany, NewItems;
    var taken := Taken(links, HeldMedia(s), QUEUE_LIMIT - |s.queue|);
    if !(s.closed || |s.queue| > QUEUE_LIMIT || taken == []) {
      AddedManyTime(s, taken, user, next);
      StartIfIdleTime(s, FairReorder(AddedMany(s, taken, user, next)), NewItems(s.db, taken, user)[0], now, saved);
    }
  }

  lemma ReplayTime(s: State, source: ItemId, user: Option<UserId>, id: ItemId, created: int, now: int, saved: bool)
    ensures var t := DoReplay(s, source, user, id, created, now, saved); KeepsTime(s, t, now) && SavesTime(s, t)
  {
    var src := ItemById(s.played, source);
    if !(src.None? || |s.queue| >= QUEUE_LIMIT || src.value.media !in s.db.media) {
      var l := Link(src.value.media, id, created);
      var a := Requeue(s, l, user);
      StartIfIdleTime(s, FairReorder(a), NewItem(s.db, l, user), now, saved);
    }
  }

  lemma AddingTime(s: State, c: Cmd, now: int, saved: bool)
    requires Adds(c)
    ensures var t := DoAdding(s, c, now, saved); KeepsTime(s, t, now) && SavesTime(s, t)
  {
    match c
    case Add(l, user, next, force) => AddTime(s, l, user, next, force, now, saved);
    case AddMany(ls, user, next) => AddManyTime(s, ls, user, next, now, saved);
    case Replay(source, user, id, created) => ReplayTime(s, source, user, id, created, now, saved);
  }

  lemma WithoutTime(s: State, gone: set<MediaId>, q: seq<Item>, h: seq<Item>)
    requires Synced(s)
    ensures var r := RereadWithout(s, gone, q, h);
      && r.timers == s.timers && r.armed == s.armed && r.clock == s.clock && r.closed == s.closed && Kept(s, r)
      && (r.db.playback == s.db.playback || r.db.playback == s.db.playback.(current := None))
  {
    WithoutMediaSynced(s.db, gone);
  }

  lemma SwitchTime(r: State, item: Option<Item>, now: int, saved: bool)
    ensures var t := Persist(SetCurrent(r, item, now), now, saved);
      && Rearmed(r, t, now) && t.db.rows == r.db.rows && t.db.media == r.db.media
      && (t.db.playback == r.db.playback || t.db.playback == C.Saved(t.clock))
  {
    PersistedTime(r, SetCurrent(r, item, now), now, saved);
  }

  lemma MediaDeletedTime(s: State, gone: set<MediaId>, q: seq<Item>, h: seq<Item>, now: int, saved: bool)
    requires Synced(s)
    ensures var t := DoMediaDeleted(s, gone, q, h, now, saved); KeepsTime(s, t, now) && SavesTime(s, t) && Kept(s, t)
  {
    var r := RereadWithout(s, gone, q, h);
    WithoutTime(s, gone, q, h);
    SwitchTime(r, if r.queue == [] then None else Some(r.queue[0]), now, saved);
  }

  lemma DeletingTime(s: State, c: Cmd, now: int, saved: bool)
    requires Synced(s) && Deletes(c)
    ensures var t := DoDeleting(s, c, now, saved); KeepsTime(s, t, now) && SavesTime(s, t) && Kept(s, t)
  {
    match c
    case Clear =>
    case ClearPlayed =>
    case Purge(ids) =>
    case MediaDeleted(gone, q, h) => MediaDeletedTime(s, gone, q, h, now, saved);
  }

  lemma ReorderingTime(s: State, c: Cmd)
    requires Reorders(c)
    ensures var t := DoReordering(s, c); Untouched(s, t) && SavesTime(s, t) && Kept(s, t)
  {
    ReorderingKeepsRows(s, c);
    KeptIsMediaKept(s.db.rows, DoReordering(s, c).db.rows);
  }

  lemma DropTime(s: State, now: int)
    requires s.clock.current.Some?
    ensures var d := Drop(s, now); d.clock == s.clock && d.armed == s.armed && d.timers == s.timers && d.closed == s.closed
  {
  }

  // Every advance restarts the clock.
  lemma AdvancedTime(s: State, order: seq<ItemId>, now: int)
    requires s.clock.current.Some?
    ensures Rearmed(s, Advanced(s, order, now), now)
  {
    hide Drop, NextAdvance, ItemsOf;
    var d := Drop(s, now);
    DropTime(s, now);
    if Laps(d) {
      var l := Lap(d, order);
      assert l.clock == s.clock && l.armed == s.armed && l.closed == s.closed;
    }
  }

  lemma PersistedTime(s: State, a: State, now: int, saved: bool)
    requires Rearmed(s, a, now) && a.db.playback == s.db.playback
    ensures Rearmed(s, Persist(a, now, saved), now) && SavesTime(s, Persist(a, now, saved))
  {
    assert NextAdvance(Persist(a, now, saved), now) == NextAdvance(a, now);
  }

  lemma NextTime(s: State, order: seq<ItemId>, now: int, saved: bool)
    ensures var t := Next(s, order, now, saved);
      SavesTime(s, t) && if s.clock.current.Some? then Rearmed(s, t, now) else t == s
  {
    if s.clock.current.Some? {
      AdvancedTime(s, order, now);
      PersistedTime(s, Advanced(s, order, now), now, saved);
    }
  }

  lemma RemoveTime(s: State, id: ItemId, order: seq<ItemId>, now: int, saved: bool)
    ensures var t := DoRemove(s, id, order, now, saved);
      KeepsTime(s, t, now) && SavesTime(s, t) && (Rearmed(s, t, now) || Kept(s, t))
  {
    if IndexOf(s.queue, id) >= 0 && IsCurrentId(s, id) {
      NextTime(s, order, now, saved);
    }
  }

  lemma JumpTime(s: State, id: ItemId, now: int, saved: bool)
    ensures var t := DoJump(s, id, now, saved); KeepsTime(s, t, now) && SavesTime(s, t) && (Rearmed(s, t, now) || t == s)
  {
    var d := JumpedFrom(s, id, now);
    SwitchTime(d, ItemById(s.queue, id), now, saved);
  }

  lemma EndSessionTime(s: State, now: int, saved: bool)
    ensures var t := DoEndSession(s, now, saved); Rearmed(s, t, now) && SavesTime(s, t)
  {
    var m := MarkAll(s, Ids(s.queue), now);
    MarkAllTime(s, Ids(s.queue), now);
    SwitchTime(m, None, now, saved);
    var p := Persist(SetCurrent(m, None, now), now, saved);
    assert NextAdvance(p.(viewers := map[]), now) == NextAdvance(p, now);
  }

  lemma {:induction false} MarkAllTime(s: State, ids: seq<ItemId>, now: int)
    ensures var t := MarkAll(s, ids, now);
      t.timers == s.timers && t.armed == s.armed && t.clock == s.clock && t.closed == s.closed && t.db.playback == s.db.playback
  {
    if ids != [] {
      MarkAllTime(s, ids[..|ids| - 1], now);
    }
  }

  lemma SkipVoteTime(s: State, user: UserId, order: seq<ItemId>, now: int, saved: bool)
    ensures var t := DoSkipVote(s, user, order, now, saved);
      KeepsTime(s, t, now) && SavesTime(s, t) && (Rearmed(s, t, now) || Kept(s, t))
  {
    hide NextAdvance, Advanced;
    if VotesOut(s, user) {
      NextTime(SkipToggled(s, user), order, now, saved);
      assert DoSkipVote(s, user, order, now, saved) == Next(SkipToggled(s, user), order, now, saved);
    }
  }

  lemma AdvancingTime(s: State, c: Cmd, now: int, saved: bool)
    requires Advances(c)
    ensures var t := DoAdvancing(s, c, now, saved);
      KeepsTime(s, t, now) && SavesTime(s, t) && (Rearmed(s, t, now) || Kept(s, t))
  {
    match c
    case Remove(id, order) => RemoveTime(s, id, order, now, saved);
    case Skip(order) => NextTime(s, order, now, saved);
    case Jump(id) => JumpTime(s, id, now, saved);
    case SkipVote(user, order) => SkipVoteTime(s, user, order, now, saved);
    case EndSession => EndSessionTime(s, now, saved);
    case Ended(t, order) => NextTime(s, order, now, saved);
  }

  // ---------------------------------------------------------------------
  // Every step and every run
  // ---------------------------------------------------------------------

  lemma LoadTimely(s: State, q: seq<Item>, h: seq<Item>, settings: Settings, scheduled: bool, now: int)
    requires ClockSane(s) && s.clock.positionAt <= now
    ensures Timely(DoLoad(s, q, h, settings, scheduled, now))
  {
    var t := DoLoad(s, q, h, settings, scheduled, now);
    assert t.timers.advance == NextAdvance(t, now) && t.armed == Armed(NextAdvance(t, now)) by {
      var r := State(s.db, settings, scheduled, [], [], map[], map[], Reopened(s.db, q),
                     {}, map[], None, None, NO_TIMERS, false, 0, false, {});
      assert NextAdvance(Reread(r, q, h), now) == NextAdvance(t, now);
    }
    NextAdvanceKnown(t, now);
    if t.timers.advance.Some? {
      NextAdvanceEnds(t, now);
    }
  }

  lemma QuietTimely(s: State, c: Cmd, now: int, saved: bool)
    requires Sound(s) && Timely(s) && Enabled(s, c, now) && !Advances(c) && !c.Load?
    ensures Timely(Do(s, c, now, saved))
  {
    OthersSound(s, c, now, saved);
    if LeavesQueue(c) {
      QuietTime(s, c, now, saved);
    } else if Adds(c) {
      AddingTime(s, c, now, saved);
      SoundMirrors(s, c, now, saved);
      AddingSound(s, c, now, saved);
    } else if Reorders(c) {
      ReorderingTime(s, c);
    } else {
      DeletingTime(s, c, now, saved);
    }
    KeepsTimely(s, Do(s, c, now, saved), now);
  }

  // A restart at an item that is not ready restarts the clock all the same.
  lemma StopsRearm(s: State, c: Cmd, now: int, saved: bool)
    requires Advances(c) && StopsUnready(s, c)
    ensures Rearmed(s, DoAdvancing(s, c, now, saved), now)
  {
    match c
    case Remove(id, order) => NextTime(s, order, now, saved);
    case Skip(order) => NextTime(s, order, now, saved);
    case SkipVote(user, order) => NextTime(SkipToggled(s, user), order, now, saved);
    case Ended(t, order) => NextTime(s, order, now, saved);
    case _ =>
  }

  lemma SoundUnlessStopped(s: State, c: Cmd, now: int, saved: bool)
    requires Sound(s) && Enabled(s, c, now) && Advances(c)
    ensures StopsUnready(s, c) || Sound(DoAdvancing(s, c, now, saved))
  {
    hide Do, DoAdvancing, Enabled, Sound, StopsUnready;
    DoAdvancingIsDo(s, c, now, saved);
    AdvancesSound(s, c, now, saved);
  }

  lemma AdvancingTimely(s: State, c: Cmd, now: int, saved: bool)
    requires Sound(s) && Timely(s) && Enabled(s, c, now) && Advances(c)
    ensures Timely(DoAdvancing(s, c, now, saved))
  {
    var t := DoAdvancing(s, c, now, saved);
    AdvancingTime(s, c, now, saved);
    SoundUnlessStopped(s, c, now, saved);
    if StopsUnready(s, c) {
      StopsRearm(s, c, now, saved);
    }
    KeepsTimely(s, t, now);
  }

  lemma AdvancesTimely(s: State, c: Cmd, now: int, saved: bool)
    requires Sound(s) && Timely(s) && Enabled(s, c, now) && Advances(c)
    ensures Timely(Do(s, c, now, saved))
  {
    hide Do, DoAdvancing, Enabled, Timely, Sound;
    AdvancingTimely(s, c, now, saved);
    DoAdvancingIsDo(s, c, now, saved);
  }

  lemma LoadsTimely(s: State, c: Cmd, now: int, saved: bool)
    requires Timely(s) && Enabled(s, c, now) && c.Load?
    ensures Timely(Do(s, c, now, saved))
  {
    LoadTimely(s, c.listing, c.history, c.settings, c.scheduled, now);
    assert Do(s, c, now, saved) == DoLoad(s, c.listing, c.history, c.settings, c.scheduled, now);
  }

  lemma StepTimely(s: State, c: Cmd, now: int, saved: bool)
    requires Sound(s) && Timely(s) && Enabled(s, c, now)
    ensures Timely(Do(s, c, now, saved))
  {
    hide Do, Enabled, Timely, Sound;
    if c.Load? {
      LoadsTimely(s, c, now, saved);
    } else if Advances(c) {
      AdvancesTimely(s, c, now, saved);
    } else {
      QuietTimely(s, c, now, saved);
    }
  }

  lemma {:induction false} RunTimely(s: State, run: seq<Event>)
    requires Sound(s) && Timely(s) && IsRun(s, run) && KeepsModes(s, run)
    ensures Timely(Final(s, run))
    decreases |run|
  {
    if run != [] {
      var e := run[0];
      StepModes(s, e.cmd, e.now, e.saved);
      StepTimely(s, e.cmd, e.now, e.saved);
      RunTimely(Do(s, e.cmd, e.now, e.saved), run[1..]);
    }
  }

  // A callback changes nothing unless it is for this item and this clock, and
  // then the item has played to its end.
  lemma EndedActsAtTheEnd(s: State, t: Advance, order: seq<ItemId>, now: int, saved: bool)
    requires Timely(s) && Enabled(s, Ended(t, order), now)
    ensures Do(s, Ended(t, order), now, saved) == s || (StillMeant(s, t) && Duration(s) > 0 && PositionAt(s, now) == Duration(s))
  {
    EndedStep(s, t, order, now, saved);
  }

  // While an item of known length plays, a timer is armed whose callback
  // moves on from its due time on.
  lemma AdvanceIsArmed(s: State, order: seq<ItemId>, now: int, saved: bool)
    requires Timely(s) && !s.closed && s.clock.playing && Duration(s) > 0
    requires s.clock.positionAt <= now && NextReady(s, order, now)
    ensures s.timers.advance.Some?
    ensures var t := s.timers.advance.value;
      t.due <= now ==> Enabled(s, Ended(t, order), now) && Do(s, Ended(t, order), now, saved) == Next(s, order, now, saved)
  {
    var t := s.timers.advance.value;
    if t.due <= now {
      EndedStep(s, t, order, now, saved);
    }
  }

  // ---------------------------------------------------------------------
  // And it is never late
  // ---------------------------------------------------------------------

  // a is due half a second after what remains of the item at its speed, to
  // the millisecond below.
  predicate DueInTime(t: State, a: Advance, now: int) {
    var left := 4 * (Duration(t) - PositionAt(t, now));
    var wait := a.due - now - 500;
    t.clock.playing && 0 <= left && 0 <= wait && wait * t.clock.rate <= left < (wait + 1) * t.clock.rate
  }

  lemma Quotient(n: nat, d: nat)
    requires d > 0
    ensures 0 <= n / d && n / d * d <= n < (n / d + 1) * d
  {
  }

  lemma NextAdvanceInTime(t: State, now: int)
    requires NextAdvance(t, now).Some?
    ensures DueInTime(t, NextAdvance(t, now).value, now)
  {
    hide C.Position;
    PositionIsHeld(t.clock, now, Duration(t));
    Quotient(4 * (Duration(t) - PositionAt(t, now)), t.clock.rate);
  }

  lemma PositionIsHeld(c: C.Clock, now: int, duration: int)
    requires c.playing && duration > 0
    ensures C.Position(c, now, duration) <= duration
  {
  }

  // Timers that a step arms are in time.
  ghost predicate ArmsInTime(s: State, t: State, now: int) {
    forall a :: a in t.armed && a !in s.armed ==> DueInTime(t, a, now)
  }

  lemma KeptTimeArms(s: State, t: State, now: int)
    requires KeepsTime(s, t, now)
    ensures ArmsInTime(s, t, now)
  {
    hide DueInTime, NextAdvance;
    if NextAdvance(t, now).Some? {
      NextAdvanceInTime(t, now);
    }
  }

  lemma OpenedInTime(db: Db, q: seq<Item>, h: seq<Item>, settings: Settings, scheduled: bool, now: int)
    ensures var t := Opened(db, q, h, settings, scheduled, now); forall a :: a in t.armed ==> DueInTime(t, a, now)
  {
    hide DueInTime, MediaFor, VotesByUser, Reopened;
    var t := Opened(db, q, h, settings, scheduled, now);
    assert t.armed == Armed(NextAdvance(t, now));
    if NextAdvance(t, now).Some? {
      NextAdvanceInTime(t, now);
    }
  }

  // No step arms a timer that fires later than that.
  lemma StepArmsInTime(s: State, c: Cmd, now: int, saved: bool)
    requires Sound(s) && Enabled(s, c, now)
    ensures ArmsInTime(s, Do(s, c, now, saved), now)
  {
    hide Do, DoQuietly, DoAdding, DoReordering, DoDeleting, DoAdvancing, Opened, DueInTime, Synced, KeepsTime, Modes;
    if c.Load? {
      DoLoadIsDo(s, c, now, saved);
      OpenedInTime(s.db, c.listing, c.history, c.settings, c.scheduled, now);
    } else if LeavesQueue(c) {
      QuietTime(s, c, now, saved);
      DoQuietlyIsDo(s, c, now, saved);
      KeptTimeArms(s, Do(s, c, now, saved), now);
    } else if Adds(c) {
      AddingTime(s, c, now, saved);
      DoAddingIsDo(s, c, now, saved);
      KeptTimeArms(s, Do(s, c, now, saved), now);
    } else if Reorders(c) {
      DoReorderingIsDo(s, c, now, saved);
    } else if Deletes(c) {
      DeletingTime(s, c, now, saved);
      DoDeletingIsDo(s, c, now, saved);
      KeptTimeArms(s, Do(s, c, now, saved), now);
    } else {
      AdvancingTime(s, c, now, saved);
      DoAdvancingIsDo(s, c, now, saved);
      KeptTimeArms(s, Do(s, c, now, saved), now);
    }
  }
}
