// The position of the clock and the length of the current item: which steps
// leave the position inside the item, namely all that do not learn of a
// length below it.
module RoomInside {
  import opened Base
  import opened FairTurns
  import opened Moves
  import opened Store
  import opened RoomSpec
  import opened RoomCommands
  import opened RoomCache
  import opened RoomShape
  import opened RoomSaved
  import opened RoomModes
  import opened RoomDrift
  import C = Clock

  // ---------------------------------------------------------------------
  // The length of the current item
  // ---------------------------------------------------------------------

  predicate CurrentUses(s: State, m: MediaId) { CurrentItem(s).Some? && CurrentItem(s).value.media == m }

  // A known length that the clock is past.
  predicate Beyond(c: C.Clock, length: int) { 0 < length < c.positionMs }

  // The step writes a length for the current item that its position is past:
  // a media row is announced, a link to the same media is added, or the media
  // rows are read again after a deletion.
  predicate LearnsShort(s: State, c: Cmd) {
    match c
    case MediaUpdated(m, row) => m in s.media && CurrentUses(s, m) && Beyond(s.clock, row.duration)
    case Add(l, _, _, force) =>
      AddAccepted(s, l, force) && CurrentUses(s, l.media) && Beyond(s.clock, StoredMedia(s.db, l.media).duration)
    case MediaDeleted(_, q, _) =>
      && CurrentItem(s).Some? && IndexOf(q, s.clock.current.value) >= 0
      && Beyond(s.clock, StoredMedia(s.db, CurrentItem(s).value.media).duration)
    case _ => false
  }

  function LengthIn(media: MediaRows, m: MediaId): int { if m in media then media[m].duration else 0 }

  lemma LengthOf(s: State)
    ensures Duration(s) == if CurrentItem(s).None? then 0 else LengthIn(s.media, CurrentItem(s).value.media)
  {
  }

  lemma InsideUnless(c: C.Clock, length: int)
    requires 0 <= c.positionMs
    ensures Inside(c, length) <==> !Beyond(c, length)
  {
  }

  lemma SameItemUses(s: State, t: State)
    requires Cached(s) && Placed(s) && Cached(t) && Placed(t)
    requires s.clock.current.Some? && t.clock.current == s.clock.current && MediaKept(s.db.rows, t.db.rows)
    ensures CurrentItem(s).Some? && CurrentItem(t).Some? && CurrentItem(t).value.media == CurrentItem(s).value.media
  {
    CurrentRow(s);
    CurrentRow(t);
  }

  lemma NobodyCurrent(s: State)
    requires s.clock.current.None?
    ensures CurrentItem(s).None? && Duration(s) == 0
  {
  }

  lemma NoneShort(s: State, c: Cmd)
    requires CurrentItem(s).None?
    ensures !LearnsShort(s, c)
  {
  }

  // ---------------------------------------------------------------------
  // Steps that leave the queue alone
  // ---------------------------------------------------------------------

  lemma ElapsedTime(elapsed: int, rate: C.Rate)
    requires elapsed >= 0
    ensures C.Truncate(elapsed * rate, 4) >= 0
  {
  }

  // Folding time in does not leave the item.
  lemma FoldedInside(s: State, t: State, now: int)
    requires s.clock.positionAt <= now && Inside(s.clock, Duration(s)) && Folded(s, t, now)
    ensures Inside(t.clock, Duration(s))
  {
    ElapsedTime(now - s.clock.positionAt, s.clock.rate);
  }

  lemma QuietLength(s: State, c: Cmd, now: int, saved: bool)
    requires LeavesQueue(c) && !c.MediaUpdated? && Modes(s)
    ensures Duration(DoQuietly(s, c, now, saved)) == Duration(s)
  {
    hide DoQuietly, Duration;
    var t := DoQuietly(s, c, now, saved);
    if !MovesMedia(c) {
      QuietModes(s, c, now, saved);
      SameDuration(s, t);
    } else if c.RetryItem? {
      RetriedLength(s, c.id);
      RetryIs(s, c, now, saved);
    } else {
      SameDuration(s, DoIngest(s, c.media, c.row));
      IngestIs(s, c, now, saved);
    }
  }

  lemma RetryIs(s: State, c: Cmd, now: int, saved: bool)
    requires c.RetryItem?
    ensures DoQuietly(s, c, now, saved) == DoRetry(s, c.id)
  {
  }

  lemma IngestIs(s: State, c: Cmd, now: int, saved: bool)
    requires c.Ingest?
    ensures DoQuietly(s, c, now, saved) == DoIngest(s, c.media, c.row)
    ensures DoIngest(s, c.media, c.row).media == s.media
  {
  }

  lemma SameDuration(s: State, t: State)
    requires t.queue == s.queue && t.media == s.media && t.clock.current == s.clock.current
    ensures Duration(t) == Duration(s)
  {
    SameCurrent(s, t);
  }

  lemma RetriedLength(s: State, id: ItemId)
    ensures Duration(DoRetry(s, id)) == Duration(s)
  {
  }

  lemma QuietInside(s: State, c: Cmd, now: int, saved: bool)
    requires LeavesQueue(c) && !c.MediaUpdated? && Modes(s) && s.clock.positionAt <= now && Inside(s.clock, Duration(s))
    ensures var t := DoQuietly(s, c, now, saved); Inside(t.clock, Duration(t))
  {
    hide DoQuietly, Duration, Cuts, Folded, Inside, Topped, Modes;
    var t := DoQuietly(s, c, now, saved);
    QuietLength(s, c, now, saved);
    if !Cuts(s, c) {
      QuietFolds(s, c, now, saved);
      FoldedInside(s, t, now);
    } else {
      QuietLands(s, c, now, saved);
      if Topped(s, t) {
        ToppedInside(s, t);
      }
    }
  }

  // A clock that stayed, with the length it had, or went to the top.
  lemma ToppedInside(s: State, t: State)
    requires Topped(s, t) && Inside(s.clock, Duration(s)) && (t.clock == s.clock ==> Duration(t) == Duration(s))
    ensures Inside(t.clock, Duration(t))
  {
  }

  lemma UpdatedFields(s: State, m: MediaId, row: Media, now: int, saved: bool)
    requires m in s.media
    ensures var t := DoMediaUpdated(s, m, row, now, saved);
      && t.queue == s.queue && t.clock.current == s.clock.current && t.media == s.media[m := row]
      && (if StartsNow(s, m, row) then t.clock.positionMs == 0 else t.clock == s.clock)
  {
    hide NextAdvance;
  }

  lemma SameItem(s: State, t: State)
    requires t.queue == s.queue && t.clock.current == s.clock.current
    ensures CurrentItem(t) == CurrentItem(s)
  {
  }

  lemma StartsAtTop(s: State, m: MediaId, row: Media)
    requires StartsNow(s, m, row)
    ensures !LearnsShort(s, MediaUpdated(m, row))
  {
  }

  lemma UpdatedInside(s: State, m: MediaId, row: Media, now: int, saved: bool)
    requires Inside(s.clock, Duration(s))
    ensures var t := DoMediaUpdated(s, m, row, now, saved);
      Inside(t.clock, Duration(t)) <==> !LearnsShort(s, MediaUpdated(m, row))
  {
    hide Duration, CurrentItem, StartsNow;
    if m in s.media {
      hide DoMediaUpdated;
      var t := DoMediaUpdated(s, m, row, now, saved);
      UpdatedFields(s, m, row, now, saved);
      if StartsNow(s, m, row) {
        StartsAtTop(s, m, row);
        TopIsInside(t);
      } else {
        SameItem(s, t);
        LengthOf(s);
        LengthOf(t);
      }
    }
  }

  // ---------------------------------------------------------------------
  // Adding
  // ---------------------------------------------------------------------

  lemma AddMedia(s: State, l: Link, user: Option<UserId>, next: bool, force: bool, now: int, saved: bool)
    requires s.clock.current.Some?
    ensures DoAdd(s, l, user, next, force, now, saved).media ==
      if AddAccepted(s, l, force) then s.media[l.media := StoredMedia(s.db, l.media)] else s.media
  {
    hide NewItem, FairOrder, PlaceAfter, InsertLink;
  }

  lemma {:induction false} WithMediaElsewhere(media: MediaRows, db: Db, ls: seq<Link>, m: MediaId)
    requires forall l :: l in ls ==> l.media != m
    ensures LengthIn(WithMedia(media, db, ls), m) == LengthIn(media, m)
  {
    if ls != [] {
      assert ls[|ls| - 1] in ls;
      WithMediaElsewhere(media, db, ls[..|ls| - 1], m);
    }
  }

  // A bulk add takes no link to media that the queue holds.
  lemma AddManyMedia(s: State, links: seq<Link>, user: Option<UserId>, next: bool, now: int, saved: bool, m: MediaId)
    requires s.clock.current.Some? && m in HeldMedia(s)
    ensures LengthIn(DoAddMany(s, links, user, next, now, saved).media, m) == LengthIn(s.media, m)
  {
    hide NewItems, FairOrder, BatchAfterCurrent, InsertLinks, Taken, WithMedia, LengthIn;
    var taken := Taken(links, HeldMedia(s), QUEUE_LIMIT - |s.queue|);
    TakenLinks(links, HeldMedia(s), QUEUE_LIMIT - |s.queue|);
    WithMediaElsewhere(s.media, s.db, taken, m);
  }

  lemma ReplayMedia(s: State, c: Cmd, now: int, saved: bool)
    requires s.clock.current.Some? && c.Replay?
    ensures DoAdding(s, c, now, saved).media == s.media
  {
    hide NewItem, FairOrder, InsertLink;
  }

  lemma AddedLength(s: State, c: Cmd, now: int, saved: bool)
    requires Adds(c) && s.clock.current.Some? && CurrentItem(s).Some?
    ensures var m := CurrentItem(s).value.media;
      LengthIn(DoAdding(s, c, now, saved).media, m) ==
      if c.Add? && AddAccepted(s, c.link, c.force) && c.link.media == m then StoredMedia(s.db, m).duration
      else LengthIn(s.media, m)
  {
    hide DoAdd, DoAddMany, DoReplay, StoredMedia, AddAccepted;
    match c
    case Add(l, user, next, force) => AddMedia(s, l, user, next, force, now, saved);
    case AddMany(ls, user, next) =>
      assert CurrentItem(s).value in s.queue;
      AddManyMedia(s, ls, user, next, now, saved, CurrentItem(s).value.media);
    case Replay(source, user, id, created) => ReplayMedia(s, c, now, saved);
  }

  lemma AddingInside(s: State, c: Cmd, now: int, saved: bool)
    requires Sound(s) && Adds(c) && Enabled(s, c, now) && Inside(s.clock, Duration(s))
    requires Cached(DoAdding(s, c, now, saved)) && Placed(DoAdding(s, c, now, saved))
    ensures var t := DoAdding(s, c, now, saved);
      Inside(t.clock, Duration(t)) <==> !LearnsShort(s, c)
  {
    hide Sound, Enabled, DoAdding, Cached, Placed, Topped, StoredMedia, LengthIn, CurrentItem, Duration, AddAccepted, MediaKept;
    var t := DoAdding(s, c, now, saved);
    if s.clock.current.None? {
      NobodyCurrent(s);
      NoneShort(s, c);
      AddingTops(s, c, now, saved);
      ToppedFromNone(s, t);
    } else {
      AddingKeepsClock(s, c, now, saved);
      AddingSound(s, c, now, saved);
      SoundParts(s);
      SameItemUses(s, t);
      AddedLength(s, c, now, saved);
      LengthOf(s);
      LengthOf(t);
    }
  }

  lemma SoundParts(s: State)
    requires Sound(s)
    ensures Cached(s) && Placed(s) && Modes(s) && Referenced(s.db.rows, s.db.media)
  {
  }

  lemma ToppedFromNone(s: State, t: State)
    requires Topped(s, t) && s.clock.current.None? && Inside(s.clock, 0)
    ensures Inside(t.clock, Duration(t))
  {
  }

  // ---------------------------------------------------------------------
  // Reordering and deleting
  // ---------------------------------------------------------------------

  // The same item with the same media rows, wherever it is queued.
  lemma CarriedInside(s: State, t: State)
    requires Cached(s) && Placed(s) && Cached(t) && Placed(t) && Inside(s.clock, Duration(s))
    requires t.clock == s.clock && t.media == s.media && MediaKept(s.db.rows, t.db.rows)
    ensures Inside(t.clock, Duration(t))
  {
    hide Cached, Placed, MediaKept, CurrentItem, Inside;
    if s.clock.current.Some? {
      SameItemUses(s, t);
      LengthOf(s);
      LengthOf(t);
    } else {
      NobodyCurrent(s);
      NobodyCurrent(t);
    }
  }

  lemma ReorderingInside(s: State, c: Cmd)
    requires Cached(s) && Placed(s) && Reorders(c) && Inside(s.clock, Duration(s))
    requires Cached(DoReordering(s, c)) && Placed(DoReordering(s, c))
    ensures var t := DoReordering(s, c); Inside(t.clock, Duration(t))
  {
    hide Cached, Placed, DoReordering, MediaKept, KeepsRows, Inside, Duration;
    ReorderingKeepsRows(s, c);
    KeptIsMediaKept(s.db.rows, DoReordering(s, c).db.rows);
    CarriedInside(s, DoReordering(s, c));
  }

  lemma MediaDeletedInside(s: State, gone: set<MediaId>, q: seq<Item>, h: seq<Item>, now: int, saved: bool)
    requires Sound(s) && IsListing(WithoutMedia(s.db, gone), q) && Inside(s.clock, Duration(s))
    ensures var t := DoMediaDeleted(s, gone, q, h, now, saved);
      Inside(t.clock, Duration(t)) <==> !LearnsShort(s, MediaDeleted(gone, q, h))
  {
    hide Sound, StoredMedia, LengthIn, Inside, Duration, WithoutMedia, DoMediaDeleted, RereadWithout, Referenced, Lists, Cached, Placed;
    var r := RereadWithout(s, gone, q, h);
    SoundParts(s);
    RereadOrTopped(s, gone, q, h, now, saved);
    if s.clock.current.None? {
      NobodyCurrent(s);
      NobodyCurrent(r);
      NoneShort(s, MediaDeleted(gone, q, h));
    } else if IndexOf(q, s.clock.current.value) < 0 {
      TopIsInside(DoMediaDeleted(s, gone, q, h, now, saved));
    } else {
      RereadLength(s, gone, q, h);
      PositionKnown(s.clock, Duration(s));
      InsideUnless(s.clock, Duration(r));
    }
  }

  lemma RereadOrTopped(s: State, gone: set<MediaId>, q: seq<Item>, h: seq<Item>, now: int, saved: bool)
    ensures var t, r, c := DoMediaDeleted(s, gone, q, h, now, saved), RereadWithout(s, gone, q, h), s.clock.current;
      && r.clock == s.clock
      && (if c.Some? && IndexOf(q, c.value) < 0 then t.clock.positionMs == 0 else t == r)
  {
    hide SetCurrent;
    var r := RereadWithout(s, gone, q, h);
    SwitchTops(r, if q == [] then None else Some(q[0]), now);
  }

  lemma PositionKnown(c: C.Clock, length: int)
    requires Inside(c, length)
    ensures 0 <= c.positionMs
  {
  }

  lemma TopIsInside(t: State)
    requires t.clock.positionMs == 0
    ensures Inside(t.clock, Duration(t))
  {
  }

  // The media of an item that is still listed is stored.
  lemma RereadLength(s: State, gone: set<MediaId>, q: seq<Item>, h: seq<Item>)
    requires Cached(s) && Placed(s) && Referenced(s.db.rows, s.db.media) && IsListing(WithoutMedia(s.db, gone), q)
    requires s.clock.current.Some? && IndexOf(q, s.clock.current.value) >= 0
    ensures CurrentItem(s).Some?
    ensures Duration(RereadWithout(s, gone, q, h)) == StoredMedia(s.db, CurrentItem(s).value.media).duration
  {
    hide Cached, Placed;
    var r := RereadWithout(s, gone, q, h);
    CurrentRow(s);
    var it := q[IndexOf(q, s.clock.current.value)];
    assert it in q && CurrentItem(r) == Some(it);
    assert it.media in MediaIds(q);
  }

  lemma DeletingInside(s: State, c: Cmd, now: int, saved: bool)
    requires Sound(s) && Deletes(c) && Enabled(s, c, now) && Inside(s.clock, Duration(s))
    ensures var t := DoDeleting(s, c, now, saved);
      Inside(t.clock, Duration(t)) <==> !LearnsShort(s, c)
  {
    hide Sound, Inside, Duration, Deleted, DoMediaDeleted;
    match c
    case Clear => ClearLength(s);
    case ClearPlayed => SameDuration(s, DoClearPlayed(s));
    case Purge(ids) => SameDuration(s, DoPurge(s, ids));
    case MediaDeleted(gone, q, h) => MediaDeletedInside(s, gone, q, h, now, saved);
  }

  lemma ClearLength(s: State)
    ensures Duration(DoClear(s)) == Duration(s)
  {
  }

  // ---------------------------------------------------------------------
  // Advances
  // ---------------------------------------------------------------------

  lemma NextInside(s: State, order: seq<ItemId>, now: int, saved: bool)
    requires Inside(s.clock, Duration(s))
    ensures var t := Next(s, order, now, saved); Inside(t.clock, Duration(t))
  {
    hide Advanced;
    if s.clock.current.Some? {
      AdvancedTops(s, order, now);
    }
  }

  lemma RemoveInside(s: State, id: ItemId, order: seq<ItemId>, now: int, saved: bool)
    requires Cached(s) && Placed(s) && Inside(s.clock, Duration(s))
    requires Cached(DoRemove(s, id, order, now, saved)) && Placed(DoRemove(s, id, order, now, saved))
    ensures var t := DoRemove(s, id, order, now, saved); Inside(t.clock, Duration(t))
  {
    hide Cached, Placed, Next, Inside, Duration;
    if RemovesCurrent(s, id) {
      NextInside(s, order, now, saved);
    } else {
      CarriedInside(s, DoRemove(s, id, order, now, saved));
    }
  }

  lemma AdvancingInside(s: State, c: Cmd, now: int, saved: bool)
    requires Cached(s) && Placed(s) && Advances(c) && Inside(s.clock, Duration(s))
    requires Cached(DoAdvancing(s, c, now, saved)) && Placed(DoAdvancing(s, c, now, saved))
    ensures var t := DoAdvancing(s, c, now, saved); Inside(t.clock, Duration(t))
  {
    hide Cached, Placed, Next, DoRemove, SetCurrent, JumpedFrom, MarkAll, Duration, Inside, VotesOut, StillMeant;
    match c
    case Remove(id, order) => RemoveInside(s, id, order, now, saved);
    case Skip(order) => NextInside(s, order, now, saved);
    case Jump(id) =>
      if ItemById(s.queue, id).Some? {
        SwitchTops(JumpedFrom(s, id, now), ItemById(s.queue, id), now);
        TopIsInside(DoJump(s, id, now, saved));
      }
    case SkipVote(user, order) =>
      SameDuration(s, SkipToggled(s, user));
      NextInside(SkipToggled(s, user), order, now, saved);
    case EndSession =>
      SwitchTops(MarkAll(s, Ids(s.queue), now), None, now);
      TopIsInside(DoEndSession(s, now, saved));
    case Ended(t, order) => NextInside(s, order, now, saved);
  }

  // ---------------------------------------------------------------------
  // Every step and every run
  // ---------------------------------------------------------------------

  lemma OthersLearnNothing(s: State, c: Cmd)
    requires !c.MediaUpdated? && !c.Add? && !c.MediaDeleted?
    ensures !LearnsShort(s, c)
  {
  }

  // A position inside the item stays inside exactly when the step does not
  // learn of a length below it.
  lemma StepInside(s: State, c: Cmd, now: int, saved: bool)
    requires Sound(s) && Enabled(s, c, now) && !c.Load? && Inside(s.clock, Duration(s))
    ensures var t := Do(s, c, now, saved);
      Inside(t.clock, Duration(t)) <==> !LearnsShort(s, c)
  {
    hide Do, Enabled, Sound, Cached, Placed, Inside, Duration, LearnsShort, DoQuietly, DoAdding, DoReordering, DoDeleting, DoAdvancing;
    SoundParts(s);
    SoundMirrors(s, c, now, saved);
    TimePasses(s, c, now);
    if !c.MediaUpdated? && !c.Add? && !c.MediaDeleted? {
      OthersLearnNothing(s, c);
    }
    if c.MediaUpdated? {
      UpdatedIs(s, c, now, saved);
      UpdatedInside(s, c.media, c.row, now, saved);
    } else if LeavesQueue(c) {
      DoQuietlyIsDo(s, c, now, saved);
      QuietInside(s, c, now, saved);
    } else if Adds(c) {
      DoAddingIsDo(s, c, now, saved);
      AddingInside(s, c, now, saved);
    } else if Reorders(c) {
      DoReorderingIsDo(s, c, now, saved);
      ReorderingInside(s, c);
    } else if Deletes(c) {
      DoDeletingIsDo(s, c, now, saved);
      DeletingInside(s, c, now, saved);
    } else {
      DoAdvancingIsDo(s, c, now, saved);
      AdvancingInside(s, c, now, saved);
    }
  }

  lemma TimePasses(s: State, c: Cmd, now: int)
    requires Enabled(s, c, now)
    ensures s.clock.positionAt <= now
  {
  }

  lemma UpdatedIs(s: State, c: Cmd, now: int, saved: bool)
    requires c.MediaUpdated?
    ensures Do(s, c, now, saved) == DoMediaUpdated(s, c.media, c.row, now, saved)
  {
    hide DoMediaUpdated;
    DoQuietlyIsDo(s, c, now, saved);
  }

  // A run without loads in which no step learns of such a length.
  ghost predicate LearnsNothingShort(s: State, run: seq<Event>)
    requires IsRun(s, run)
    decreases |run|
  {
    run == [] || (!run[0].cmd.Load? && !LearnsShort(s, run[0].cmd)
                  && LearnsNothingShort(Do(s, run[0].cmd, run[0].now, run[0].saved), run[1..]))
  }

  lemma {:induction false} RunInside(s: State, run: seq<Event>)
    requires Sound(s) && IsRun(s, run) && KeepsModes(s, run) && LearnsNothingShort(s, run) && Inside(s.clock, Duration(s))
    ensures var t := Final(s, run); Sound(t) && Inside(t.clock, Duration(t))
    decreases |run|
  {
    hide Do, Enabled, Sound, Inside, Duration, LearnsShort, StopsUnready, LoadsOrphan;
    if run != [] {
      var e := run[0];
      StepModes(s, e.cmd, e.now, e.saved);
      StepInside(s, e.cmd, e.now, e.saved);
      RunInside(Do(s, e.cmd, e.now, e.saved), run[1..]);
    }
  }

  // ---------------------------------------------------------------------
  // A position outside the item
  // ---------------------------------------------------------------------

  lemma OneQueuedIsSound()
    ensures Sound(OneQueued())
  {
    var s := OneQueued();
    assert VotersIn(s.db.votes, SOLE.id) == {};
    assert SOLE in s.queue;
    assert forall id :: QueuedIn(s.db.rows, id) ==> id == SOLE.id;
    assert IndexOf(s.queue, SOLE.id) == 0;
  }

  const SEEKING := Event(Seek(1000000), 5, true)
  const MEASURED := Event(Ingest(SOLE.media, PLAYABLE), 7, true)
  const LEARNT := Event(MediaUpdated(SOLE.media, PLAYABLE), 7, true)

  // The room paused far into an item of unknown length.
  predicate SoughtFar(s: State) {
    && s.queue == [SOLE] && s.clock.current == Some(SOLE.id) && !s.clock.playing
    && s.clock.positionMs == 1000000 && s.clock.positionAt == 5
    && SOLE.media in s.media && s.media[SOLE.media].status != MediaReady
    && SOLE.media in s.db.media && s.db.media[SOLE.media].status != MediaReady
  }

  lemma Seeks() returns (s: State)
    ensures Enabled(OneQueued(), SEEKING.cmd, SEEKING.now)
    ensures s == Do(OneQueued(), SEEKING.cmd, SEEKING.now, SEEKING.saved) && SoughtFar(s)
  {
    assert IndexOf(OneQueued().queue, SOLE.id) == 0;
    s := DoSeek(OneQueued(), 1000000, 5, true);
    DoQuietlyIsDo(OneQueued(), SEEKING.cmd, SEEKING.now, SEEKING.saved);
  }

  lemma LearnsLength(s: State)
    requires SoughtFar(s)
    ensures IsRun(s, [MEASURED, LEARNT])
    ensures var i, t := DoIngest(s, SOLE.media, PLAYABLE), Final(s, [MEASURED, LEARNT]);
      && i == Do(s, MEASURED.cmd, MEASURED.now, MEASURED.saved) && LearnsShort(i, LEARNT.cmd)
      && !t.clock.playing && t.clock.positionMs == 1000000 && Duration(t) == 60000
  {
    var i := DoIngest(s, SOLE.media, PLAYABLE);
    var t := DoMediaUpdated(i, SOLE.media, PLAYABLE, 7, true);
    assert IndexOf(i.queue, SOLE.id) == 0;
    ReadySteps(s, SOLE.media, PLAYABLE, 7, true);
    RunOfTwo(s, MEASURED, LEARNT, i, t);
  }

  // The length of an item may become known after somebody sought past it; the
  // paused clock of a room that was new three steps before then shows a
  // position outside the item until the next cut.
  lemma LengthComesLate()
    ensures Sound(OneQueued()) && Enabled(NewRoom(), ADDED.cmd, ADDED.now)
    ensures Do(NewRoom(), ADDED.cmd, ADDED.now, ADDED.saved) == OneQueued()
    ensures IsRun(OneQueued(), [SEEKING] + [MEASURED, LEARNT])
    ensures var t := Final(OneQueued(), [SEEKING] + [MEASURED, LEARNT]);
      && !t.clock.playing && Duration(t) > 0 && PositionAt(t, 7) > Duration(t)
      && forall m :: !InStep(m, t.clock, Duration(t))
  {
    hide Sound, Do, Enabled, SoughtFar;
    FirstIsAdded();
    OneQueuedIsSound();
    var s := Seeks();
    LearnsLength(s);
    RunOne(OneQueued(), SEEKING, [MEASURED, LEARNT], s);
    var t := Final(s, [MEASURED, LEARNT]);
    MeterStarts(t.clock, Duration(t));
  }
}
