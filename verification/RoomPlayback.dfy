// What the playback commands do to the position that viewers see: where a
// start resumes, what a pause holds, where a seek and a change of speed leave
// the clock, and how a wait for buffering viewers begins and ends.
module RoomPlayback {
  import opened Base
  import opened Store
  import opened RoomSpec
  import opened RoomCommands
  import opened RoomModes
  import C = Clock

  predicate CurrentReady(s: State) { CurrentMedia(s).Some? && CurrentMedia(s).value.status == MediaReady }

  // The same item goes on from here at the same speed.
  predicate GoesOn(s: State, t: State, playing: bool, positionMs: int, now: int) {
    && t.clock.current == s.clock.current && t.clock.rate == s.clock.rate && t.clock.playing == playing
    && t.clock.positionMs == positionMs && t.clock.positionAt == now
  }

  // At every later time viewers see the position of this moment.
  ghost predicate Holds(s: State, t: State, now: int) {
    && t.clock.current == s.clock.current && t.clock.rate == s.clock.rate && !t.clock.playing
    && forall u :: PositionAt(t, u) == PositionAt(s, now)
  }

  // An item that was paused goes on where it was, and from the top once it
  // was through.
  predicate Resumes(s: State, t: State, now: int) {
    GoesOn(s, t, true, if Duration(s) > 0 && s.clock.positionMs >= Duration(s) then 0 else s.clock.positionMs, now)
  }

  // ---------------------------------------------------------------------
  // Starts
  // ---------------------------------------------------------------------

  // A restart of the clock leaves waits, countdowns and viewers alone.
  lemma RestartKeeps(s: State, playing: bool, position: int, now: int, saved: bool)
    ensures var t := Restart(s, playing, position, now, saved);
      && GoesOn(s, t, playing, position, now) && t.queue == s.queue && t.media == s.media && t.viewers == s.viewers
      && t.waiting == s.waiting && t.countdown == s.countdown
      && t.timers.countdown == s.timers.countdown && t.timers.wait == s.timers.wait
  {
    hide NextAdvance;
  }

  lemma StartResumes(s: State, w: State, now: int, saved: bool)
    requires w.clock == s.clock && w.queue == s.queue && w.media == s.media
    ensures var t := Start(w, now, saved);
      && Resumes(s, t, now) && t.waiting == w.waiting && t.countdown == w.countdown && t.timers.countdown == w.timers.countdown
  {
    hide Restart;
    SameDurations(s, w);
    RestartKeeps(w, true, C.StartFrom(w.clock.positionMs, Duration(w)), now, saved);
  }

  // Play: counted down for three seconds, or at once; nothing happens to an
  // item that is not ready or plays already.
  lemma PlayResumes(s: State, counted: bool, now: int, saved: bool)
    ensures var t := DoPlay(s, counted, now, saved);
      if !CurrentReady(s) then t == s
      else if s.clock.playing then t.clock == s.clock && t.waiting.None?
      else if (counted || s.scheduled) && s.countdown.None?
      then t.clock == s.clock && t.waiting.None? && t.countdown == Some(now + 3000) && t.timers.countdown
      else Resumes(s, t, now) && t.waiting.None? && t.countdown.None? && !t.timers.countdown
  {
    hide Start, Resumes, Duration;
    StartResumes(s, CancelCountdown(LeaveWait(s)), now, saved);
  }

  lemma EndCountdownResumes(s: State, now: int, saved: bool)
    ensures var t := DoEndCountdown(s, now, saved);
      if s.closed || s.countdown.None? then t == s
      else t.countdown.None? && !t.timers.countdown
           && if CurrentReady(s) && !s.clock.playing then Resumes(s, t, now) else t.clock == s.clock
  {
    hide Start, Resumes, Duration;
    StartResumes(s, CancelCountdown(s), now, saved);
    SameCurrent(s, CancelCountdown(s));
  }

  // An announced media row starts the item that waits for it at the top.
  lemma MediaUpdatedStarts(s: State, m: MediaId, row: Media, now: int, saved: bool)
    requires m in s.media
    ensures var t := DoMediaUpdated(s, m, row, now, saved);
      && t.media == s.media[m := row]
      && if CurrentItem(s).Some? && CurrentItem(s).value.media == m && row.status == MediaReady
            && s.media[m].status != MediaReady && !s.clock.playing && s.clock.positionMs == 0
         then GoesOn(s, t, true, 0, now) else t.clock == s.clock
  {
    hide NextAdvance;
  }

  // ---------------------------------------------------------------------
  // Pauses
  // ---------------------------------------------------------------------

  lemma FreezeHolds(s: State, w: State, now: int, saved: bool)
    requires w.clock == s.clock && w.queue == s.queue && w.media == s.media
    ensures var t := Freeze(w, now, saved);
      && Holds(s, t, now) && t.waiting == w.waiting && t.countdown == w.countdown && t.timers.countdown == w.timers.countdown
  {
    hide Restart, Duration;
    SameDurations(s, w);
    RestartKeeps(w, false, PositionAt(w, now), now, saved);
  }

  lemma PausedHolds(s: State, t: State, now: int)
    requires !s.clock.playing && t.clock == s.clock
    ensures Holds(s, t, now)
  {
  }

  lemma PauseHolds(s: State, now: int, saved: bool)
    ensures var t := DoPause(s, now, saved);
      if s.clock.current.None? then t == s
      else Holds(s, t, now) && t.waiting.None? && t.countdown.None? && !t.timers.countdown
  {
    hide Freeze, Holds;
    var w := CancelCountdown(LeaveWait(s));
    FreezeHolds(s, w, now, saved);
    if !s.clock.playing {
      PausedHolds(s, w, now);
    }
  }

  lemma EmptyPauseHolds(s: State, now: int, saved: bool)
    ensures var t := DoEmptyPause(s, now, saved);
      if !s.closed && s.settings.pauseWhenEmpty && s.clock.playing && s.viewers == map[] then Holds(s, t, now)
      else t.clock == s.clock
  {
    hide Freeze, Holds;
    FreezeHolds(s, s.(timers := s.timers.(empty := false)), now, saved);
  }

  // ---------------------------------------------------------------------
  // Seeks and speeds
  // ---------------------------------------------------------------------

  // The position that was asked for, or the end of the item it is nearest to.
  lemma SeekGoes(s: State, position: int, now: int, saved: bool)
    ensures var t, d := DoSeek(s, position, now, saved), Duration(s);
      if CurrentMedia(s).None? then t == s
      else GoesOn(s, t, s.clock.playing && CurrentReady(s),
                  if position < 0 then 0 else if 0 < d < position then d else position, now)
  {
  }

  lemma SetRateIs(s: State, rate: int, now: int, saved: bool)
    ensures DoSetRate(s, rate, now, saved) ==
      if s.clock.current.None? || rate !in {2, 3, 4, 5, 6, 8} || rate == s.clock.rate then s
      else Restart(s.(clock := s.clock.(rate := rate)), s.clock.playing, PositionAt(s, now), now, saved)
  {
    hide Restart, PositionAt;
  }

  // Half, three quarters, one, one and a quarter, one and a half, and double:
  // the speed changes and the position viewers see does not.
  lemma RateKeepsPosition(s: State, rate: int, now: int, saved: bool)
    ensures var t := DoSetRate(s, rate, now, saved);
      if s.clock.current.None? || rate !in {2, 3, 4, 5, 6, 8} || rate == s.clock.rate then t == s
      else t.clock.rate == rate && t.clock.playing == s.clock.playing && t.clock.current == s.clock.current
           && t.clock.positionAt == now && PositionAt(t, now) == PositionAt(s, now)
  {
    hide Duration, Restart, GoesOn, DoSetRate, PositionAt;
    SetRateIs(s, rate, now, saved);
    if s.clock.current.Some? && rate in {2, 3, 4, 5, 6, 8} && rate != s.clock.rate {
      var w := s.(clock := s.clock.(rate := rate));
      RestartKeeps(w, s.clock.playing, PositionAt(s, now), now, saved);
      RatedPosition(s, w, DoSetRate(s, rate, now, saved), now);
    }
  }

  lemma RatedPosition(s: State, w: State, t: State, now: int)
    requires w.clock.current == s.clock.current && w.queue == s.queue && w.media == s.media
    requires GoesOn(w, t, s.clock.playing, PositionAt(s, now), now) && t.queue == w.queue && t.media == w.media
    ensures PositionAt(t, now) == PositionAt(s, now) && t.clock.rate == w.clock.rate && t.clock.playing == s.clock.playing
    ensures t.clock.current == s.clock.current && t.clock.positionAt == now
  {
    hide Duration;
    SameDurations(s, t);
  }

  lemma SameDurations(s: State, t: State)
    requires t.queue == s.queue && t.media == s.media && t.clock.current == s.clock.current
    ensures Duration(t) == Duration(s)
  {
    SameCurrent(s, t);
  }

  // ---------------------------------------------------------------------
  // Waits
  // ---------------------------------------------------------------------

  // A wait that is over: playback goes on where it was held.
  lemma ResumeGoesOn(s: State, now: int, saved: bool)
    ensures var t := Resume(s, now, saved);
      && t.waiting.None? && !t.timers.wait
      && if s.waiting.Some? && !s.clock.playing && s.clock.current.Some? then GoesOn(s, t, true, s.clock.positionMs, now)
         else t.clock == s.clock
  {
    hide NextAdvance;
    var w := LeaveWait(s);
    if s.waiting.Some? && !s.clock.playing && s.clock.current.Some? {
      assert Resume(s, now, saved) == Restart(w, true, s.clock.positionMs, now, saved);
      hide Restart;
      RestartKeeps(w, true, s.clock.positionMs, now, saved);
    }
  }

  // Somebody to wait for: a connected user who buffers and was not left
  // behind.
  ghost predicate SomebodyStuck(s: State) {
    exists c :: c in s.viewers && s.viewers[c].buffering && !s.viewers[c].ignored && s.viewers[c].user.Some?
  }

  lemma StuckExactly(s: State)
    ensures Stuck(s) != {} <==> SomebodyStuck(s)
    ensures forall u :: u in Stuck(s) <==>
      exists c :: c in s.viewers && s.viewers[c].buffering && !s.viewers[c].ignored && s.viewers[c].user == Some(u)
  {
    if c :| c in s.viewers && s.viewers[c].buffering && !s.viewers[c].ignored && s.viewers[c].user.Some? {
      assert s.viewers[c].user.value in Stuck(s);
    }
  }

  // A wait begins when somebody is stuck while the room plays: it holds the
  // position and remembers for whom.
  lemma StartWaitingHolds(s: State, now: int, saved: bool)
    ensures var t := DoStartWaiting(s, now, saved);
      if !s.closed && s.settings.waitForBuffering && s.clock.playing && SomebodyStuck(s) && s.waiting.None?
      then Holds(s, t, now) && t.waiting == Some(Stuck(s)) && t.timers.wait
      else t.clock == s.clock && t.waiting == s.waiting
  {
    hide Stuck, SomebodyStuck, NextAdvance, Duration;
    var b := s.(timers := s.timers.(buffer := false));
    StuckExactly(s);
    StuckByViewers(s, b);
    SameDurations(s, b);
    SameDurations(s, DoStartWaiting(s, now, saved));
  }

  lemma StuckByViewers(s: State, t: State)
    requires t.viewers == s.viewers
    ensures Stuck(t) == Stuck(s)
  {
  }

  // It ends when nobody is stuck any more.
  lemma WaitEndsExactly(s: State, now: int, saved: bool)
    ensures var t := CheckBuffering(s, now, saved);
      if s.waiting.None?
      then t.clock == s.clock && t.waiting.None?
           && (t.timers.buffer <==> s.settings.waitForBuffering && s.clock.playing && SomebodyStuck(s))
      else if SomebodyStuck(s) then t.clock == s.clock && t.waiting == Some(Stuck(s))
      else t.waiting.None? && (!s.clock.playing && s.clock.current.Some? ==> GoesOn(s, t, true, s.clock.positionMs, now))
  {
    hide Stuck, SomebodyStuck, Resume;
    StuckExactly(s);
    ResumeGoesOn(s, now, saved);
  }

  // Or when patience runs out: playback goes on, and nobody is stuck until
  // they buffer again.
  lemma StopWaitingLeavesBehind(s: State, now: int, saved: bool)
    requires !s.closed && s.waiting.Some?
    ensures var t := DoStopWaiting(s, now, saved);
      && t.waiting.None? && !SomebodyStuck(t) && t.viewers.Keys == s.viewers.Keys
      && (forall c :: c in s.viewers ==> t.viewers[c].user == s.viewers[c].user && t.viewers[c].buffering == s.viewers[c].buffering)
      && (!s.clock.playing && s.clock.current.Some? ==> GoesOn(s, t, true, s.clock.positionMs, now))
  {
    ResumeGoesOn(LeaveBehind(s), now, saved);
  }

  // Whoever reports buffering anew is stuck, and whoever plays on is not.
  lemma ReportCounts(s: State, c: ConnId, buffering: bool, now: int, saved: bool)
    requires c in s.viewers
    ensures var v, w := s.viewers[c], DoReport(s, c, buffering, now, saved).viewers;
      && w.Keys == s.viewers.Keys && (forall d :: d in s.viewers && d != c ==> w[d] == s.viewers[d])
      && w[c].user == v.user && w[c].buffering == buffering && (w[c].ignored <==> v.ignored && (buffering || !v.buffering))
  {
    hide CheckBuffering;
    var v := s.viewers[c];
    CheckKeepsViewers(s.(viewers := s.viewers[c := v.(buffering := buffering, ignored := v.ignored && buffering)]), now, saved);
  }

  lemma CheckKeepsViewers(s: State, now: int, saved: bool)
    ensures CheckBuffering(s, now, saved).viewers == s.viewers
  {
    hide Resume, Stuck;
  }

  // ---------------------------------------------------------------------
  // Viewers
  // ---------------------------------------------------------------------

  lemma JoinAdds(s: State, c: ConnId, user: Option<UserId>)
    ensures var t := DoJoin(s, c, user);
      && c in t.viewers && t.viewers[c].user == user && !t.viewers[c].buffering && !t.viewers[c].ignored
      && t.viewers.Keys == s.viewers.Keys + {c} && (forall d :: d in s.viewers && d != c ==> t.viewers[d] == s.viewers[d])
      && t.clock == s.clock && !t.timers.empty
  {
  }

  // When the last viewer leaves a room that plays and pauses when empty, the
  // timer for that pause is armed.
  lemma LeaveArms(s: State, c: ConnId, now: int, saved: bool)
    requires c in s.viewers
    ensures var t := DoLeave(s, c, now, saved);
      && t.viewers.Keys == s.viewers.Keys - {c} && (forall d :: d in t.viewers ==> t.viewers[d] == s.viewers[d])
      && (t.viewers == map[] && s.settings.pauseWhenEmpty && s.clock.playing ==> t.timers.empty)
  {
    hide CheckBuffering;
    var w := s.(viewers := s.viewers - {c});
    CheckKeepsViewers(ArmEmptyPause(w), now, saved);
    CheckKeepsEmpty(ArmEmptyPause(w), now, saved);
  }

  lemma CheckKeepsEmpty(s: State, now: int, saved: bool)
    ensures s.timers.empty ==> CheckBuffering(s, now, saved).timers.empty
  {
    hide Stuck, Resume;
    ResumeKeepsEmpty(s, now, saved);
  }

  lemma ResumeKeepsEmpty(s: State, now: int, saved: bool)
    ensures s.timers.empty ==> Resume(s, now, saved).timers.empty
  {
    hide NextAdvance;
    var w := LeaveWait(s);
    if s.waiting.Some? && !s.clock.playing && s.clock.current.Some? {
      assert Resume(s, now, saved) == Restart(w, true, s.clock.positionMs, now, saved);
      hide Restart, Resume;
      RestartKeepsEmpty(w, s.clock.positionMs, now, saved);
    }
  }

  lemma RestartKeepsEmpty(s: State, position: int, now: int, saved: bool)
    ensures s.timers.empty ==> Restart(s, true, position, now, saved).timers.empty
  {
    hide NextAdvance;
  }

  // And when playback starts with nobody there.
  lemma StartArms(s: State, position: int, now: int, saved: bool)
    ensures s.settings.pauseWhenEmpty && s.viewers == map[] ==> Restart(s, true, position, now, saved).timers.empty
  {
    hide NextAdvance;
  }

  // ---------------------------------------------------------------------
  // Saving
  // ---------------------------------------------------------------------

  // A tick writes the clock when the last write failed and, while the room
  // plays, once in every interval; the room knows whether it is written.
  lemma TickSaves(s: State, every: int, now: int, saved: bool)
    ensures var t := DoTick(s, every, now, saved);
      && t.clock == s.clock
      && if s.unsaved || (s.clock.playing && now - s.lastPersist >= every)
         then t.lastPersist == now && t.unsaved == !saved && (saved ==> t.db.playback == C.Saved(s.clock))
         else t == s
  {
  }

  // A closed room has no timers left and its clock written, if it could be.
  lemma CloseSaves(s: State, now: int, saved: bool)
    ensures var t := DoClose(s, now, saved);
      && t.closed && t.clock == s.clock && t.timers == Timers(None, false, false, false, false)
      && t.db.playback == (if saved then C.Saved(s.clock) else s.db.playback)
  {
  }
}
