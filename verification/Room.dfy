// The live room as an object: its methods update its fields and the stored
// rows in place, one atomic step each, and every one of them is proved to
// have exactly the effect that the state machine gives the step.
module Room {
  import opened Base
  import opened Order
  import opened FairTurns
  import opened Moves
  import opened Store
  import opened RoomSpec
  import opened RoomCommands
  import opened RoomCache
  import opened RoomShape
  import opened Repository
  import C = Clock

  // The ids in their new order, and the items with their new ranks.
  method Renumber(ordered: seq<Item>) returns (ids: seq<ItemId>, renumbered: seq<Item>)
    ensures ids == Ids(ordered) && renumbered == Renumbered(ordered)
  {
    ids, renumbered := [], [];
    for i := 0 to |ordered|
      invariant ids == Ids(ordered)[..i] && renumbered == Renumbered(ordered)[..i]
    {
      ids := ids + [ordered[i].id];
      renumbered := renumbered + [ordered[i].(rank := i + 1)];
    }
  }

  class Room {
    const repo: Repo

    var settings: Settings
    var scheduled: bool
    var queue: seq<Item>                    // rank order
    var played: seq<Item>                   // history, newest first
    var media: map<MediaId, Media>
    var votes: map<UserId, set<ItemId>>
    var clock: C.Clock
    var skipVotes: set<UserId>
    var viewers: map<ConnId, Viewer>
    var waiting: Option<set<UserId>>
    var countdown: Option<int>
    var timers: Timers
    var unsaved: bool
    var lastPersist: int
    var closed: bool
    ghost var armed: set<Advance>

    ghost function Snapshot(): State
      reads this, repo
    {
      State(repo.db, settings, scheduled, queue, played, media, votes, clock, skipVotes, viewers, waiting, countdown,
            timers, unsaved, lastPersist, closed, armed)
    }

    // What every handler keeps: the queue in memory is what the store lists,
    // the current item is in it, and the history is bounded.
    ghost predicate Valid()
      reads this, repo
    {
      Cached(Snapshot()) && Placed(Snapshot())
    }

    // A room loaded from what is stored; its clock keeps running from the
    // saved moment.
    constructor (stored: Repo, settings: Settings, scheduled: bool, now: int)
      requires RanksDistinct(stored.db.rows) && IdsUsed(stored.db.rows, stored.db.votes, stored.db.used, map[])
      ensures repo == stored && IsListing(repo.db, queue) && IsHistory(repo.db, played)
      ensures Snapshot() == Opened(stored.db, queue, played, settings, scheduled, now)
      ensures Valid()
    {
      repo, this.settings, this.scheduled := stored, settings, scheduled;
      hide Cached, Placed;
      queue, played, media, votes := [], [], map[], map[];
      clock := C.Restored(stored.db.playback);
      skipVotes, viewers, waiting, countdown, timers := {}, map[], None, None, NO_TIMERS;
      unsaved, lastPersist, closed, armed := false, 0, false, {};
      new;
      RereadQueue();
      if clock.current.Some? {
        var it := FindItem(clock.current.value);
        if it.None? {
          clock := clock.(current := None, playing := false, positionMs := 0);
        }
      }
      if clock.playing {
        ScheduleAdvanceLocked(now);
      }
      ArmEmptyPauseLocked();
      OpenedCached(repo.db, queue, played, settings, scheduled, now);
      LoadShape(Snapshot(), queue, played, settings, scheduled, now);
    }

    // -------------------------------------------------------------------
    // Looking at the room
    // -------------------------------------------------------------------

    method IndexOfItem(id: ItemId) returns (i: int)
      ensures i == IndexOf(queue, id)
    {
      for k := 0 to |queue|
        invariant forall j :: 0 <= j < k ==> queue[j].id != id
      {
        if queue[k].id == id {
          return k;
        }
      }
      return -1;
    }

    method FindItem(id: ItemId) returns (it: Option<Item>)
      ensures it == ItemById(queue, id)
    {
      var i := IndexOfItem(id);
      it := if i < 0 then None else Some(queue[i]);
    }

    method CurrentMediaLocked() returns (m: Option<Media>)
      ensures m == CurrentMedia(Snapshot())
    {
      if clock.current.None? {
        return None;
      }
      var it := FindItem(clock.current.value);
      if it.None? || it.value.media !in media {
        return None;
      }
      return Some(media[it.value.media]);
    }

    method PositionLocked(now: int) returns (p: int)
      ensures p == PositionAt(Snapshot(), now)
    {
      var m := CurrentMediaLocked();
      p := C.Position(clock, now, if m.Some? then m.value.duration else 0);
    }

    // -------------------------------------------------------------------
    // The clock and its timers
    // -------------------------------------------------------------------

    method ScheduleAdvanceLocked(now: int)
      modifies this
      ensures Snapshot() == ScheduleAdvance(old(Snapshot()), now)
    {
      var m := CurrentMediaLocked();
      timers := timers.(advance := None);
      if !clock.playing || m.None? || m.value.duration <= 0 || clock.current.None? {
        return;
      }
      var t := Advance(clock.current.value, clock.version, now + C.Remaining(clock, now, m.value.duration) + C.ADVANCE_MARGIN);
      timers := timers.(advance := Some(t));
      armed := armed + {t};
    }

    method ArmEmptyPauseLocked()
      modifies this
      ensures Snapshot() == ArmEmptyPause(old(Snapshot()))
    {
      if !settings.pauseWhenEmpty || !clock.playing || viewers != map[] || timers.empty {
        return;
      }
      timers := timers.(empty := true);
    }

    method SetPlaybackLocked(playing: bool, positionMs: int, now: int)
      modifies this
      ensures Snapshot() == SetPlayback(old(Snapshot()), playing, positionMs, now)
    {
      clock := C.Restart(clock, playing, positionMs, now);
      ScheduleAdvanceLocked(now);
      ArmEmptyPauseLocked();
    }

    method PersistLocked(now: int, saved: bool) returns (ok: bool)
      modifies this, repo
      ensures ok == saved && Snapshot() == Persist(old(Snapshot()), now, saved).(unsaved := old(unsaved))
    {
      lastPersist := now;
      if clock.playing && scheduled {
        scheduled := false;
      }
      ok := repo.UpdateRoomPlayback(C.Saved(clock), saved);
    }

    method SavePlaybackLocked(now: int, saved: bool)
      modifies this, repo
      ensures Snapshot() == Persist(old(Snapshot()), now, saved)
    {
      var ok := PersistLocked(now, saved);
      unsaved := !ok;
    }

    method RestartLocked(playing: bool, position: int, now: int, saved: bool)
      modifies this, repo
      ensures Snapshot() == Restart(old(Snapshot()), playing, position, now, saved)
    {
      SetPlaybackLocked(playing, position, now);
      SavePlaybackLocked(now, saved);
    }

    method EndWaitLocked(resume: bool, now: int, saved: bool)
      modifies this, repo
      ensures Snapshot() == if resume then Resume(old(Snapshot()), now, saved) else LeaveWait(old(Snapshot()))
    {
      timers := timers.(wait := false);
      if waiting.None? {
        return;
      }
      waiting := None;
      if resume && !clock.playing && clock.current.Some? {
        SetPlaybackLocked(true, clock.positionMs, now);
        SavePlaybackLocked(now, saved);
      }
    }

    method CancelCountdownLocked()
      modifies this
      ensures Snapshot() == CancelCountdown(old(Snapshot()))
    {
      timers := timers.(countdown := false);
      countdown := None;
    }

    method SetCurrentLocked(item: Option<Item>, now: int)
      modifies this, repo
      ensures Snapshot() == SetCurrent(old(Snapshot()), item, now)
    {
      skipVotes := {};
      if item.None? {
        clock := clock.(current := None);
        SetPlaybackLocked(false, 0, now);
        return;
      }
      EndWaitLocked(false, now, true);
      CancelCountdownLocked();
      clock := clock.(current := Some(item.value.id), rate := C.NORMAL_RATE);
      var ready := item.value.media in media && media[item.value.media].status == MediaReady;
      SetPlaybackLocked(ready, 0, now);
    }

    // -------------------------------------------------------------------
    // The queue
    // -------------------------------------------------------------------

    method MarkPlayedLocked(id: ItemId, now: int)
      modifies this, repo
      ensures Snapshot() == MarkPlayed(old(Snapshot()), id, now)
    {
      var found := repo.MarkQueueItemPlayed(id, now);
      var i := IndexOfItem(id);
      if i < 0 {
        return;
      }
      var item := queue[i];
      queue := queue[..i] + queue[i + 1..];
      played := [item.(playedAt := Some(now))] + played;
      if |played| > HISTORY_KEPT {
        played := played[..HISTORY_KEPT];
      }
    }

    method ApplyOrderLocked(ordered: seq<Item>)
      modifies this, repo
      ensures Snapshot() == ApplyOrder(old(Snapshot()), ordered)
    {
      if ordered == queue {
        return;
      }
      var ids, renumbered := Renumber(ordered);
      repo.SetQueueRanks(ids);
      queue := renumbered;
    }

    method ReorderByVotesLocked()
      modifies this, repo
      ensures Snapshot() == VoteReorder(old(Snapshot()))
    {
      var cur, rest := SplitCurrent(queue, clock.current);
      ApplyOrderLocked(WithCurrent(cur, SortByVotes(rest)));
    }

    method FairReorderLocked()
      modifies this, repo
      ensures Snapshot() == FairReorder(old(Snapshot()))
    {
      if !settings.fairQueue || settings.voteMode {
        return;
      }
      var ordered := FairOrderByRounds(queue, clock.current);
      ApplyOrderLocked(ordered);
    }

    method RereadQueue()
      modifies this
      ensures IsListing(repo.db, queue) && IsHistory(repo.db, played)
      ensures Snapshot() == Reread(old(Snapshot()), queue, played)
    {
      hide IsListing, IsHistory, VotesByUser, MediaFor, Flag;
      var items := repo.ListQueue();
      var history := repo.ListPlayed();
      media := repo.GetMediaBatch(MediaIds(items) + MediaIds(history));
      votes := repo.ListQueueVotes();
      queue := items;
      played := history;
    }

    // -------------------------------------------------------------------
    // Advancing
    // -------------------------------------------------------------------

    // order: the history in playing order when the queue restarted from it.
    method NextLocked(now: int, saved: bool) returns (order: seq<ItemId>)
      requires Valid()
      modifies this, repo
      ensures NextReady(old(Snapshot()), order, now) && Snapshot() == Next(old(Snapshot()), order, now, saved)
      ensures Valid()
    {
      hide Advanced, Persist, Cached, Placed;
      if clock.current.None? {
        return [];
      }
      order := AdvanceLocked(now);
      SavePlaybackLocked(now, saved);
      NextCached(old(Snapshot()), order, now, saved);
      NextShape(old(Snapshot()), order, now, saved);
    }

    // The outgoing item and the failed ones behind it leave; then the next
    // one takes over, from the history when the queue ran out and loops.
    method AdvanceLocked(now: int) returns (order: seq<ItemId>)
      requires Cached(Snapshot()) && clock.current.Some?
      modifies this, repo
      ensures NextReady(old(Snapshot()), order, now) && Snapshot() == Advanced(old(Snapshot()), order, now)
    {
      hide Drop, Lap, StopAtTop, SetCurrent, Cached;
      order := [];
      DropCached(Snapshot(), now);
      var next := DropLocked(now);
      if next.None? && settings.loop && played != [] {
        order := RestartQueueLocked();
        next := if queue != [] then Some(queue[0]) else None;
        if viewers == map[] && next.Some? {
          StopAtTopLocked(next.value.id, now);
          return;
        }
      }
      SetCurrentLocked(next, now);
    }

    method DropLocked(now: int) returns (next: Option<Item>)
      requires clock.current.Some?
      modifies this, repo
      ensures Snapshot() == Drop(old(Snapshot()), now)
      ensures next == Following(queue, IndexOf(old(queue), old(clock).current.value))
    {
      var idx := IndexOfItem(clock.current.value);
      MarkPlayedLocked(clock.current.value, now);
      next := SkipFailedLocked(idx, now);
    }

    method StopAtTopLocked(id: ItemId, now: int)
      modifies this
      ensures Snapshot() == StopAtTop(old(Snapshot()), id, now)
    {
      skipVotes := {};
      clock := clock.(current := Some(id), rate := C.NORMAL_RATE);
      SetPlaybackLocked(false, 0, now);
    }

    // Items whose ingest failed go to the history; the first other one is
    // next.
    method SkipFailedLocked(idx: int, now: int) returns (next: Option<Item>)
      modifies this, repo
      ensures Snapshot() == SkipFailed(old(Snapshot()), idx, now) && next == Following(queue, idx)
    {
      ghost var s := Snapshot();
      next := Following(queue, idx);
      while next.Some?
        invariant next == Following(queue, idx)
        invariant SkipFailed(Snapshot(), idx, now) == SkipFailed(s, idx, now)
        decreases |queue|
      {
        if next.value.media !in media || media[next.value.media].status != MediaFailed {
          break;
        }
        assert IndexOf(queue, next.value.id) >= 0;
        MarkPlayedLocked(next.value.id, now);
        next := Following(queue, idx);
      }
    }

    // The queue ran out: the history becomes the queue again.
    method RestartQueueLocked() returns (order: seq<ItemId>)
      requires Cached(Snapshot()) && queue == []
      modifies this, repo
      ensures IsLap(old(repo.db), order) && Snapshot() == Lap(old(Snapshot()), order)
    {
      ghost var d := Snapshot();
      order := repo.RequeuePlayed();
      RereadQueue();
      LapIsReread(d, order, queue, played);
      if settings.voteMode {
        ReorderByVotesLocked();
      }
    }

    method OnEndedLocked(t: Advance, now: int, saved: bool) returns (order: seq<ItemId>)
      requires Valid()
      modifies this, repo
      ensures StillMeant(old(Snapshot()), t) ==> NextReady(old(Snapshot()), order, now)
      ensures Snapshot() == DoEnded(old(Snapshot()), t, order, now, saved)
      ensures Valid()
    {
      hide Cached, Placed;
      order := [];
      if closed || clock.current != Some(t.item) || clock.version != t.version || !clock.playing {
        return;
      }
      order := NextLocked(now, saved);
    }

    method Jump(id: ItemId, now: int, saved: bool)
      requires Valid()
      modifies this, repo
      ensures Snapshot() == DoJump(old(Snapshot()), id, now, saved)
      ensures Valid()
    {
      hide Cached, Placed;
      JumpCached(Snapshot(), id, now, saved);
      JumpShape(Snapshot(), id, now, saved);
      var target := FindItem(id);
      if target.None? {
        return;
      }
      if clock.current.Some? && clock.current.value != id {
        MarkPlayedLocked(clock.current.value, now);
      }
      SetCurrentLocked(target, now);
      SavePlaybackLocked(now, saved);
    }

    // -------------------------------------------------------------------
    // Playback
    // -------------------------------------------------------------------

    method Play(counted: bool, now: int, saved: bool)
      requires Valid()
      modifies this, repo
      ensures Snapshot() == DoPlay(old(Snapshot()), counted, now, saved)
      ensures Valid()
    {
      hide Restart, Cached, Placed, SameQueue, SameItem, Settled, KeepsTime;
      var m := CurrentMediaLocked();
      if m.None? || m.value.status != MediaReady {
        return;
      }
      EndWaitLocked(false, now, saved);
      QuietKeeps(old(Snapshot()), DoPlay(old(Snapshot()), counted, now, saved));
      if clock.playing {
        return;
      }
      var position := C.StartFrom(clock.positionMs, m.value.duration);
      if (counted || scheduled) && countdown.None? {
        countdown := Some(now + COUNTDOWN);
        timers := timers.(countdown := true);
        return;
      }
      CancelCountdownLocked();
      RestartLocked(true, position, now, saved);
    }

    method EndCountdownLocked(now: int, saved: bool)
      requires Valid()
      modifies this, repo
      ensures Snapshot() == DoEndCountdown(old(Snapshot()), now, saved)
      ensures Valid()
    {
      hide Restart, Cached, Placed, SameQueue, SameItem, Settled, KeepsTime;
      QuietKeeps(Snapshot(), DoEndCountdown(Snapshot(), now, saved));
      if closed || countdown.None? {
        return;
      }
      countdown, timers := None, timers.(countdown := false);
      var m := CurrentMediaLocked();
      if m.None? || m.value.status != MediaReady || clock.playing {
        return;
      }
      RestartLocked(true, C.StartFrom(clock.positionMs, m.value.duration), now, saved);
    }

    method FreezeLocked(now: int, saved: bool)
      modifies this, repo
      ensures Snapshot() == Freeze(old(Snapshot()), now, saved)
    {
      hide Restart;
      var position := PositionLocked(now);
      RestartLocked(false, position, now, saved);
    }

    method Pause(now: int, saved: bool)
      requires Valid()
      modifies this, repo
      ensures Snapshot() == DoPause(old(Snapshot()), now, saved)
      ensures Valid()
    {
      hide Cached, Placed, SameQueue, SameItem, Settled, KeepsTime;
      QuietKeeps(Snapshot(), DoPause(Snapshot(), now, saved));
      if clock.current.None? {
        return;
      }
      EndWaitLocked(false, now, saved);
      CancelCountdownLocked();
      if !clock.playing {
        return;
      }
      FreezeLocked(now, saved);
    }

    method Seek(position: int, now: int, saved: bool)
      requires Valid()
      modifies this, repo
      ensures Snapshot() == DoSeek(old(Snapshot()), position, now, saved)
      ensures Valid()
    {
      hide Restart, Cached, Placed, SameQueue, SameItem, Settled, KeepsTime;
      QuietKeeps(Snapshot(), DoSeek(Snapshot(), position, now, saved));
      var m := CurrentMediaLocked();
      if m.None? {
        return;
      }
      RestartLocked(clock.playing && m.value.status == MediaReady, C.ClampSeek(position, m.value.duration), now, saved);
    }

    method SetRate(rate: int, now: int, saved: bool)
      requires Valid()
      modifies this, repo
      ensures Snapshot() == DoSetRate(old(Snapshot()), rate, now, saved)
      ensures Valid()
    {
      hide Restart, Cached, Placed, SameQueue, SameItem, Settled, KeepsTime;
      QuietKeeps(Snapshot(), DoSetRate(Snapshot(), rate, now, saved));
      if clock.current.None? || rate !in C.ALLOWED_RATES || rate == clock.rate {
        return;
      }
      var position := PositionLocked(now);
      clock := clock.(rate := rate);
      RestartLocked(clock.playing, position, now, saved);
    }

    method PauseIfEmptyLocked(now: int, saved: bool)
      requires Valid()
      modifies this, repo
      ensures Snapshot() == DoEmptyPause(old(Snapshot()), now, saved)
      ensures Valid()
    {
      hide Cached, Placed, SameQueue, SameItem, Settled, KeepsTime;
      QuietKeeps(Snapshot(), DoEmptyPause(Snapshot(), now, saved));
      if closed {
        return;
      }
      timers := timers.(empty := false);
      if !settings.pauseWhenEmpty || !clock.playing || viewers != map[] {
        return;
      }
      FreezeLocked(now, saved);
    }

    // -------------------------------------------------------------------
    // Votes and settings
    // -------------------------------------------------------------------

    method QueueVote(user: UserId, id: ItemId)
      requires Valid()
      modifies this, repo
      ensures Snapshot() == DoVote(old(Snapshot()), user, id)
      ensures Valid()
    {
      hide VoteReorder, IndexOf, Cached, Placed, SamePlayback;
      if !settings.voteMode {
        return;
      }
      var i := IndexOfItem(id);
      if i < 0 || clock.current == Some(id) {
        return;
      }
      var it := queue[i];
      var on := repo.ToggleQueueVote(id, user);
      if on {
        queue := queue[i := it.(votes := it.votes + 1)];
        votes := votes[user := (if user in votes then votes[user] else {}) + {id}];
      } else {
        queue := queue[i := it.(votes := if it.votes > 0 then it.votes - 1 else 0)];
        if user in votes {
          votes := votes[user := votes[user] - {id}];
        }
      }
      assert Snapshot() == Toggled(old(Snapshot()), user, id);
      ReorderByVotesLocked();
      VoteCached(old(Snapshot()), user, id);
      VoteShape(old(Snapshot()), user, id);
    }

    method SkipNeededLocked() returns (n: int)
      ensures n == SkipNeeded(Snapshot())
      ensures settings.voteMode ==>
        var share := Share(Snapshot());
        1 <= n && share <= n as real && (n > 1 ==> (n - 1) as real < share)
    {
      if !settings.voteMode {
        return 0;
      }
      var online := set c | c in viewers && viewers[c].user.Some? :: viewers[c].user.value;
      assert online == OnlineUsers(Snapshot());
      n := Ceiling(|online| as real * settings.skipThreshold);
      if n < 1 {
        n := 1;
      }
      SkipNeededIsLeast(Snapshot());
    }

    method SkipVote(user: UserId, now: int, saved: bool) returns (order: seq<ItemId>)
      requires Valid()
      modifies this, repo
      ensures VotesOut(old(Snapshot()), user) ==> NextReady(SkipToggled(old(Snapshot()), user), order, now)
      ensures Snapshot() == DoSkipVote(old(Snapshot()), user, order, now, saved)
      ensures Valid()
    {
      hide Cached, Placed, SkipNeeded, Next, OnlineUsers, NextReady;
      order := [];
      if !settings.voteMode || clock.current.None? {
        return;
      }
      skipVotes := if user in skipVotes then skipVotes - {user} else skipVotes + {user};
      assert Snapshot() == SkipToggled(old(Snapshot()), user);
      QuietKeeps(old(Snapshot()), Snapshot());
      var needed := SkipNeededLocked();
      if |skipVotes| >= needed {
        order := NextLocked(now, saved);
      }
    }

    method SettingsSet(options: Settings, pauseTouched: bool)
      requires Valid()
      modifies this, repo
      ensures Snapshot() == DoSet(old(Snapshot()), options, pauseTouched)
      ensures Valid()
    {
      hide Cached, Placed, SamePlayback, VoteReorder, FairReorder;
      if options.skipThreshold <= 0.0 || options.skipThreshold > 1.0 {
        return;
      }
      if pauseTouched && !options.pauseWhenEmpty {
        timers := timers.(empty := false);
      }
      settings := options;
      if settings.voteMode {
        ReorderByVotesLocked();
      } else {
        skipVotes := {};
        FairReorderLocked();
      }
      SetCached(old(Snapshot()), options, pauseTouched);
      SetShape(old(Snapshot()), options, pauseTouched);
    }

    // -------------------------------------------------------------------
    // Presence
    // -------------------------------------------------------------------

    method StuckLocked() returns (users: set<UserId>)
      ensures users == Stuck(Snapshot())
    {
      users := set c | c in viewers && viewers[c].buffering && !viewers[c].ignored && viewers[c].user.Some? :: viewers[c].user.value;
    }

    method CheckBufferingLocked(now: int, saved: bool)
      modifies this, repo
      ensures Snapshot() == CheckBuffering(old(Snapshot()), now, saved)
    {
      var stuck := StuckLocked();
      if waiting.Some? {
        if stuck == {} {
          EndWaitLocked(true, now, saved);
        } else {
          waiting := Some(stuck);
        }
        return;
      }
      if !settings.waitForBuffering || !clock.playing || stuck == {} {
        timers := timers.(buffer := false);
        return;
      }
      if !timers.buffer {
        timers := timers.(buffer := true);
      }
    }

    method Join(conn: ConnId, user: Option<UserId>)
      requires Valid()
      modifies this
      ensures Snapshot() == DoJoin(old(Snapshot()), conn, user)
      ensures Valid()
    {
      hide Cached, Placed, SameQueue, SameItem, Settled, KeepsTime;
      QuietKeeps(Snapshot(), DoJoin(Snapshot(), conn, user));
      timers := timers.(empty := false);
      viewers := viewers[conn := Viewer(user, false, false)];
    }

    method Leave(conn: ConnId, now: int, saved: bool)
      requires Valid()
      modifies this, repo
      ensures Snapshot() == DoLeave(old(Snapshot()), conn, now, saved)
      ensures Valid()
    {
      hide Cached, Placed, SameQueue, SameItem, Settled, KeepsTime;
      QuietKeeps(Snapshot(), DoLeave(Snapshot(), conn, now, saved));
      if conn !in viewers {
        return;
      }
      viewers := viewers - {conn};
      ArmEmptyPauseLocked();
      CheckBufferingLocked(now, saved);
    }

    method Kick(user: UserId)
      requires Valid()
      modifies this
      ensures Snapshot() == DoKick(old(Snapshot()), user)
      ensures Valid()
    {
      hide Cached, Placed, SameQueue, SameItem, Settled, KeepsTime;
      QuietKeeps(Snapshot(), DoKick(Snapshot(), user));
      viewers := map c | c in viewers && viewers[c].user != Some(user) :: viewers[c];
      ArmEmptyPauseLocked();
    }

    method Report(conn: ConnId, buffering: bool, now: int, saved: bool)
      requires Valid()
      modifies this, repo
      ensures Snapshot() == DoReport(old(Snapshot()), conn, buffering, now, saved)
      ensures Valid()
    {
      hide Cached, Placed, SameQueue, SameItem, Settled, KeepsTime;
      QuietKeeps(Snapshot(), DoReport(Snapshot(), conn, buffering, now, saved));
      if conn !in viewers || viewers[conn].buffering == buffering {
        return;
      }
      viewers := viewers[conn := viewers[conn].(buffering := buffering, ignored := viewers[conn].ignored && buffering)];
      CheckBufferingLocked(now, saved);
    }

    method StartWaitingLocked(now: int, saved: bool)
      requires Valid()
      modifies this, repo
      ensures Snapshot() == DoStartWaiting(old(Snapshot()), now, saved)
      ensures Valid()
    {
      hide Cached, Placed, SameQueue, SameItem, Settled, KeepsTime;
      if closed {
        return;
      }
      timers := timers.(buffer := false);
      var stuck := StuckLocked();
      if !settings.waitForBuffering || !clock.playing || stuck == {} || waiting.Some? {
        QuietKeeps(old(Snapshot()), Snapshot());
        return;
      }
      var position := PositionLocked(now);
      waiting := Some(stuck);
      SetPlaybackLocked(false, position, now);
      timers := timers.(wait := true);
      SavePlaybackLocked(now, saved);
      QuietKeeps(old(Snapshot()), DoStartWaiting(old(Snapshot()), now, saved));
    }

    method StopWaitingLocked(now: int, saved: bool)
      requires Valid()
      modifies this, repo
      ensures Snapshot() == DoStopWaiting(old(Snapshot()), now, saved)
      ensures Valid()
    {
      hide Resume, Cached, Placed, SameQueue, SameItem, Settled, KeepsTime;
      if closed {
        return;
      }
      timers := timers.(wait := false);
      QuietKeeps(old(Snapshot()), DoStopWaiting(old(Snapshot()), now, saved));
      if waiting.None? {
        return;
      }
      viewers := map c | c in viewers :: viewers[c].(ignored := viewers[c].ignored || viewers[c].buffering);
      assert Snapshot() == LeaveBehind(old(Snapshot()));
      EndWaitLocked(true, now, saved);
    }

    // -------------------------------------------------------------------
    // Adding
    // -------------------------------------------------------------------

    method HoldsMedia(m: MediaId) returns (held: bool)
      ensures held == Holds(Snapshot(), m)
    {
      for i := 0 to |queue|
        invariant forall j :: 0 <= j < i ==> queue[j].media != m
      {
        if queue[i].media == m {
          return true;
        }
      }
      for i := 0 to |played|
        invariant forall j :: 0 <= j < i ==> played[j].media != m
      {
        if played[i].media == m {
          return true;
        }
      }
      return false;
    }

    method StartIfIdleLocked(it: Item, now: int, saved: bool)
      modifies this, repo
      ensures Snapshot() == StartIfIdle(old(Snapshot()), it, now, saved)
    {
      if clock.current.None? {
        SetCurrentLocked(Some(it), now);
        SavePlaybackLocked(now, saved);
      }
    }

    // The media row and the queue row of a link, in one transaction.
    method InsertLocked(l: Link, user: Option<UserId>) returns (row: Media, it: Item)
      modifies repo
      ensures repo.db == InsertLink(old(repo.db), l, user)
      ensures row == StoredMedia(old(repo.db), l.media) && it == NewItem(old(repo.db), l, user)
    {
      row := repo.CreateMedia(l.media);
      it := repo.AddQueueItem(l.id, l.media, user, l.created);
    }

    method PlaceNextLocked()
      requires queue != []
      modifies this, repo
      ensures Snapshot() == PlaceNext(old(Snapshot()))
    {
      var ordered := PlaceAfter(queue, |queue| - 1, clock.current, clock.current);
      if ordered.Some? {
        ApplyOrderLocked(ordered.value);
      }
    }

    method AppendLocked(l: Link, user: Option<UserId>) returns (item: Item)
      modifies this, repo
      ensures Snapshot() == Appended(old(Snapshot()), l, user) && item == NewItem(old(repo.db), l, user)
    {
      var row: Media;
      row, item := InsertLocked(l, user);
      queue := queue + [item];
      media := media[l.media := row];
    }

    // The link was admitted before; a duplicate is refused unless forced.
    method QueueAdd(l: Link, user: Option<UserId>, next: bool, force: bool, now: int, saved: bool)
      requires Valid()
      requires l.id !in repo.db.used
      modifies this, repo
      ensures Snapshot() == DoAdd(old(Snapshot()), l, user, next, force, now, saved)
      ensures Valid()
    {
      hide FairReorder, StartIfIdle, PlaceNext, Appended, NewItem, Holds, Cached, Placed;
      PlacedIsUsed(Snapshot());
      AddCached(Snapshot(), l, user, next, force, now, saved);
      AddShape(Snapshot(), l, user, next, force, now, saved);
      var held := HoldsMedia(l.media);
      if closed || |queue| + 1 > QUEUE_LIMIT || (held && !force) {
        return;
      }
      var item := AppendLocked(l, user);
      assert Snapshot() == Appended(old(Snapshot()), l, user);
      if next && !settings.voteMode && !settings.fairQueue && clock.current.Some? && |queue| > 1 {
        PlaceNextLocked();
      }
      assert Snapshot() == AddedAt(Appended(old(Snapshot()), l, user), next);
      FairReorderLocked();
      StartIfIdleLocked(item, now, saved);
    }

    // Links whose media is held or was just taken are skipped, and so is
    // anything past the limit. taken: the links that were added; rows: their
    // media.
    method InsertManyLocked(links: seq<Link>, user: Option<UserId>, held: set<MediaId>, room: int)
      returns (taken: seq<Link>, added: seq<Item>, rows: seq<Media>)
      modifies repo
      ensures taken == Taken(links, held, room) && added == NewItems(old(repo.db), taken, user)
      ensures repo.db == InsertLinks(old(repo.db), taken, user)
      ensures |rows| == |taken| && forall k :: 0 <= k < |rows| ==> rows[k] == StoredMedia(old(repo.db), taken[k].media)
    {
      hide InsertLink, NewItem, StoredMedia, InsertLinks, NewItems, Taken;
      taken, added, rows := [], [], [];
      var seen := held;
      ghost var db := repo.db;
      NothingTaken(db, map[], user, held, room);
      for i := 0 to |links|
        invariant taken == Taken(links[..i], held, room) && |added| == |taken|
        invariant forall m :: m in seen <==> m in held || exists x :: x in taken && x.media == m
        invariant repo.db == InsertLinks(db, taken, user) && added == NewItems(db, taken, user)
        invariant |rows| == |taken| && forall k :: 0 <= k < |rows| ==> rows[k] == StoredMedia(db, taken[k].media)
      {
        var l := links[i];
        TakenOneMore(links, i, held, room);
        if |added| < room && l.media !in seen {
          InsertedOneMore(db, taken, l, user);
          OtherMediaStays(db, taken, user, l.media);
          var row, item := InsertLocked(l, user);
          seen := seen + {l.media};
          taken := taken + [l];
          added := added + [item];
          rows := rows + [row];
        }
      }
      assert links[..|links|] == links;
    }

    // The rows of the added media join the room's.
    method HoldRowsLocked(taken: seq<Link>, rows: seq<Media>, ghost db: Db)
      requires |rows| == |taken| && forall k :: 0 <= k < |rows| ==> rows[k] == StoredMedia(db, taken[k].media)
      modifies this
      ensures Snapshot() == old(Snapshot()).(media := WithMedia(old(media), db, taken))
    {
      for i := 0 to |taken|
        invariant Snapshot() == old(Snapshot()).(media := WithMedia(old(media), db, taken[..i]))
      {
        WithMediaOneMore(old(media), db, taken[..i], taken[i]);
        assert taken[..i + 1] == taken[..i] + [taken[i]];
        media := media[taken[i].media := rows[i]];
      }
      assert taken[..|taken|] == taken;
    }

    // The batch goes behind the current item when asked for, else last.
    method PlaceBatchLocked(added: seq<Item>, next: bool)
      modifies this, repo
      ensures var a := old(Snapshot());
        Snapshot() == if next && !OrderedByRule(a) && a.clock.current.Some?
                      then ApplyOrder(a, BatchAfterCurrent(a.queue, added, a.clock.current))
                      else a.(queue := a.queue + added)
    {
      if next && !settings.voteMode && !settings.fairQueue && clock.current.Some? {
        var cur, rest := SplitCurrent(queue, clock.current);
        ApplyOrderLocked(WithCurrent(cur, added + rest));
      } else {
        queue := queue + added;
      }
    }

    method AddManyLocked(links: seq<Link>, user: Option<UserId>, next: bool) returns (taken: seq<Link>, added: seq<Item>)
      modifies this, repo
      ensures taken == Taken(links, HeldMedia(old(Snapshot())), QUEUE_LIMIT - |old(queue)|)
      ensures added == NewItems(old(repo.db), taken, user)
      ensures Snapshot() == if taken == [] then old(Snapshot()) else AddedMany(old(Snapshot()), taken, user, next)
    {
      hide Taken, NewItems, InsertLinks, WithMedia, ApplyOrder, BatchAfterCurrent;
      var rows: seq<Media>;
      taken, added, rows := InsertManyLocked(links, user, MediaIds(queue) + MediaIds(played), QUEUE_LIMIT - |queue|);
      if taken == [] {
        NothingTaken(old(repo.db), old(media), user, {}, 0);
        return;
      }
      HoldRowsLocked(taken, rows, old(repo.db));
      PlaceBatchLocked(added, next);
    }

    method QueueAddMany(links: seq<Link>, user: Option<UserId>, next: bool, now: int, saved: bool)
      requires Valid()
      requires forall l :: l in links ==> l.id !in repo.db.used
      requires forall i, j :: 0 <= i < j < |links| ==> links[i].id != links[j].id
      modifies this, repo
      ensures Snapshot() == DoAddMany(old(Snapshot()), links, user, next, now, saved)
      ensures Valid()
    {
      hide FairReorder, StartIfIdle, Taken, NewItems, AddedMany, Cached, Placed;
      AddManyCached(Snapshot(), links, user, next, now, saved);
      AddManyShape(Snapshot(), links, user, next, now, saved);
      if closed || |queue| > QUEUE_LIMIT {
        return;
      }
      var taken, added := AddManyLocked(links, user, next);
      if taken == [] {
        return;
      }
      FairReorderLocked();
      StartIfIdleLocked(added[0], now, saved);
    }

    method QueueReplay(source: ItemId, user: Option<UserId>, id: ItemId, created: int, now: int, saved: bool)
      requires Valid()
      requires id !in repo.db.used
      modifies this, repo
      ensures Snapshot() == DoReplay(old(Snapshot()), source, user, id, created, now, saved)
      ensures Valid()
    {
      hide FairReorder, StartIfIdle, Cached, Placed;
      ReplayCached(Snapshot(), source, user, id, created, now, saved);
      ReplayShape(Snapshot(), source, user, id, created, now, saved);
      var k := -1;
      for i := 0 to |played|
        invariant k == -1 && forall j :: 0 <= j < i ==> played[j].id != source
      {
        if played[i].id == source {
          k := i;
          break;
        }
      }
      if k < 0 || |queue| >= QUEUE_LIMIT || played[k].media !in repo.db.media {
        return;
      }
      var row, item := InsertLocked(Link(played[k].media, id, created), user);
      queue := queue + [item];
      FairReorderLocked();
      StartIfIdleLocked(item, now, saved);
    }

    // -------------------------------------------------------------------
    // The rest of the queue commands
    // -------------------------------------------------------------------

    method QueueRemove(id: ItemId, now: int, saved: bool) returns (order: seq<ItemId>)
      requires Valid()
      modifies this, repo
      ensures RemovesCurrent(old(Snapshot()), id) ==> NextReady(old(Snapshot()), order, now)
      ensures Snapshot() == DoRemove(old(Snapshot()), id, order, now, saved)
      ensures Valid()
    {
      hide Next, Cached, Placed;
      order := [];
      var i := IndexOfItem(id);
      if i < 0 {
        return;
      }
      if clock.current == Some(id) {
        order := NextLocked(now, saved);
        return;
      }
      repo.DeleteItems({id});
      queue := queue[..i] + queue[i + 1..];
      RemoveCached(old(Snapshot()), id, order, now, saved);
      RemoveShape(old(Snapshot()), id, order, now, saved);
    }

    method QueueMove(id: ItemId, after: Option<ItemId>)
      requires Valid()
      modifies this, repo
      ensures Snapshot() == DoMove(old(Snapshot()), id, after)
      ensures Valid()
    {
      hide Cached, Placed, SamePlayback;
      MoveCached(Snapshot(), id, after);
      MoveShape(Snapshot(), id, after);
      if settings.voteMode || settings.fairQueue {
        return;
      }
      var i := IndexOfItem(id);
      if i < 0 || clock.current == Some(id) {
        return;
      }
      var ordered := PlaceAfter(queue, i, after, clock.current);
      if ordered.Some? {
        ApplyOrderLocked(ordered.value);
      }
    }

    // rest: the items behind a leading current one, shuffled.
    method QueueShuffle(rest: seq<Item>)
      requires multiset(rest) == multiset(queue[Pinned(Snapshot())..])
      requires Valid()
      modifies this, repo
      ensures Snapshot() == DoShuffle(old(Snapshot()), rest)
      ensures Valid()
    {
      hide Cached, Placed, SamePlayback;
      ShuffleCached(Snapshot(), rest);
      ShuffleShape(Snapshot(), rest);
      if settings.voteMode || settings.fairQueue {
        return;
      }
      var pinned := if queue != [] && clock.current == Some(queue[0].id) then 1 else 0;
      if |queue| - pinned < 2 {
        return;
      }
      ApplyOrderLocked(queue[..pinned] + rest);
    }

    method QueueClear()
      requires Valid()
      modifies this, repo
      ensures Snapshot() == DoClear(old(Snapshot()))
      ensures Valid()
    {
      hide Cached, Placed;
      ClearCached(Snapshot());
      ClearShape(Snapshot());
      repo.ClearQueue(clock.current);
      var kept := None;
      if clock.current.Some? {
        kept := FindItem(clock.current.value);
      }
      queue := if kept.Some? then [kept.value] else [];
    }

    method QueueClearPlayed()
      requires Valid()
      modifies this, repo
      ensures Snapshot() == DoClearPlayed(old(Snapshot()))
      ensures Valid()
    {
      hide Cached, Placed;
      ClearPlayedKeeps(Snapshot());
      repo.ClearPlayed();
      played := [];
    }

    // Re-queuing the ingest resets the stored row and the room's copy.
    method QueueRetry(id: ItemId)
      requires Valid()
      modifies this, repo
      ensures Snapshot() == DoRetry(old(Snapshot()), id)
      ensures Valid()
    {
      hide Cached, Placed, SameQueue, SameItem, Settled, KeepsTime;
      QuietKeeps(Snapshot(), DoRetry(Snapshot(), id));
      var it := FindItem(id);
      if it.None? || it.value.media !in media || media[it.value.media].status != MediaFailed {
        return;
      }
      var m := it.value.media;
      repo.ResetMedia(m);
      media := media[m := media[m].(status := MediaQueued)];
    }

    // -------------------------------------------------------------------
    // Sessions and media
    // -------------------------------------------------------------------

    method EndSession(now: int, saved: bool)
      requires Valid()
      modifies this, repo
      ensures Snapshot() == DoEndSession(old(Snapshot()), now, saved)
      ensures Valid()
    {
      hide SetCurrent, Persist, MarkPlayed, Cached, Placed;
      EndSessionCached(Snapshot(), now, saved);
      EndSessionShape(Snapshot(), now, saved);
      var ids := Ids(queue);
      for i := 0 to |ids|
        invariant Snapshot() == MarkAll(old(Snapshot()), ids[..i], now)
      {
        assert ids[..i + 1][..i] == ids[..i];
        MarkPlayedLocked(ids[i], now);
      }
      assert ids[..|ids|] == ids;
      SetCurrentLocked(None, now);
      SavePlaybackLocked(now, saved);
      viewers := map[];
    }

    // idle: whether the manager may drop the room.
    method Tick(every: int, now: int, saved: bool) returns (idle: bool)
      requires Valid()
      modifies this, repo
      ensures Snapshot() == DoTick(old(Snapshot()), every, now, saved) && idle == Idle(Snapshot())
      ensures Valid()
    {
      hide Cached, Placed, SameQueue, SameItem, Settled, KeepsTime;
      QuietKeeps(Snapshot(), DoTick(Snapshot(), every, now, saved));
      if unsaved || (clock.playing && now - lastPersist >= every) {
        SavePlaybackLocked(now, saved);
      }
      idle := !unsaved && !clock.playing && viewers == map[];
    }

    method Shutdown(now: int, saved: bool)
      requires Valid()
      modifies this, repo
      ensures Snapshot() == DoClose(old(Snapshot()), now, saved)
      ensures Valid()
    {
      hide Cached, Placed, SameQueue, SameItem, Settled, KeepsTime;
      QuietKeeps(Snapshot(), DoClose(Snapshot(), now, saved));
      closed := true;
      timers := NO_TIMERS;
      var ok := PersistLocked(now, saved);
    }

    method MediaUpdatedLocked(m: MediaId, row: Media, now: int, saved: bool)
      requires Valid()
      modifies this, repo
      ensures Snapshot() == DoMediaUpdated(old(Snapshot()), m, row, now, saved)
      ensures Valid()
    {
      hide Restart, Cached, Placed, SameQueue, SameItem, Settled, KeepsTime;
      QuietKeeps(Snapshot(), DoMediaUpdated(Snapshot(), m, row, now, saved));
      if m !in media {
        return;
      }
      var before := media[m];
      media := media[m := row];
      if clock.current.None? {
        return;
      }
      var cur := FindItem(clock.current.value);
      if cur.Some? && cur.value.media == m && row.status == MediaReady && before.status != MediaReady
         && !clock.playing && clock.positionMs == 0 {
        RestartLocked(true, 0, now, saved);
      }
    }

    // Rows changed outside the room: read the queue again.
    method ReloadQueue(now: int, saved: bool) returns (listing: seq<Item>, history: seq<Item>)
      requires RanksDistinct(repo.db.rows) && IdsUsed(repo.db.rows, repo.db.votes, repo.db.used, map[])
      modifies this, repo
      ensures IsListing(old(repo.db), listing) && IsHistory(old(repo.db), history)
      ensures Snapshot() == Rehomed(Reread(old(Snapshot()), listing, history), now, saved)
      ensures Valid()
    {
      hide SetCurrent, Persist, Cached, Placed;
      RereadQueue();
      listing, history := queue, played;
      RereadCached(old(Snapshot()), listing, history);
      RehomedKeeps(Snapshot(), now, saved);
      if clock.current.None? {
        return;
      }
      var cur := FindItem(clock.current.value);
      if cur.None? {
        SetCurrentLocked(if queue == [] then None else Some(queue[0]), now);
        SavePlaybackLocked(now, saved);
      }
    }
  }

  lemma TakenOneMore(links: seq<Link>, i: nat, seen: set<MediaId>, room: int)
    requires i < |links|
    ensures var front := Taken(links[..i], seen, room);
      Taken(links[..i + 1], seen, room) ==
      if |front| >= room || links[i].media in seen || (exists x :: x in front && x.media == links[i].media)
      then front else front + [links[i]]
  {
    assert links[..i + 1][..i] == links[..i];
  }

  lemma InsertedOneMore(db: Db, taken: seq<Link>, l: Link, user: Option<UserId>)
    ensures InsertLinks(db, taken + [l], user) == InsertLink(InsertLinks(db, taken, user), l, user)
    ensures NewItems(db, taken + [l], user) == NewItems(db, taken, user) + [NewItem(InsertLinks(db, taken, user), l, user)]
  {
    assert (taken + [l])[..|taken|] == taken;
  }

  lemma WithMediaOneMore(media: map<MediaId, Media>, db: Db, taken: seq<Link>, l: Link)
    ensures WithMedia(media, db, taken + [l]) == WithMedia(media, db, taken)[l.media := StoredMedia(db, l.media)]
  {
    assert (taken + [l])[..|taken|] == taken;
  }

  // Media of no link that was added is stored as before.
  lemma {:induction false} OtherMediaStays(db: Db, taken: seq<Link>, user: Option<UserId>, m: MediaId)
    requires forall x :: x in taken ==> x.media != m
    ensures StoredMedia(InsertLinks(db, taken, user), m) == StoredMedia(db, m)
  {
    if taken != [] {
      OtherMediaStays(db, taken[..|taken| - 1], user, m);
      assert taken[|taken| - 1] in taken;
    }
  }

  lemma NothingTaken(db: Db, media: map<MediaId, Media>, user: Option<UserId>, seen: set<MediaId>, room: int)
    ensures InsertLinks(db, [], user) == db && WithMedia(media, db, []) == media
    ensures NewItems(db, [], user) == [] && Taken([], seen, room) == []
  {
  }

  // What is read back after the history was queued again.
  lemma LapIsReread(d: State, order: seq<ItemId>, q: seq<Item>, p: seq<Item>)
    requires Cached(d) && d.queue == [] && IsLap(d.db, order)
    requires IsListing(Requeued(d.db, order), q) && IsHistory(Requeued(d.db, order), p)
    ensures q == ItemsOf(Requeued(d.db, order), order) && p == []
  {
    var db := Requeued(d.db, order);
    LapLists(d.db, order);
    LapRanks(d.db, order);
    ListingIsUnique(db, q, ItemsOf(db, order));
    LapLeavesNoHistory(d, order);
    assert forall it :: it in p ==> InHistory(db, it.id);
    assert forall it :: it !in p;
    if p != [] {
      SomeMember(p);
    }
  }

  lemma LapLeavesNoHistory(d: State, order: seq<ItemId>)
    requires Cached(d) && d.queue == [] && IsLap(d.db, order)
    ensures forall id :: !InHistory(Requeued(d.db, order), id)
  {
    EmptyQueueRank(d.db);
    forall id ensures !InHistory(Requeued(d.db, order), id) {
      assert !Queued(d.db, id);
      assert InHistory(d.db, id) <==> id in d.db.rows;
    }
  }
}
