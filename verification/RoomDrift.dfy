// Drift over whole runs. Between cuts (seeks, new items, starts from the
// top) every step leaves the clock alone or folds the elapsed time into it;
// so the clock is never ahead of the true integral of speed over playing
// time, and behind it by less than a millisecond per fold plus one.
module RoomDrift {
  import opened Base
  import opened FairTurns
  import opened Moves
  import opened Store
  import opened RoomSpec
  import opened RoomCommands
  import opened RoomModes
  import C = Clock

  // The clock is as it was, or holds the position it showed, from now on.
  predicate Folded(s: State, t: State, now: int) {
    || t.clock == s.clock
    || (t.clock.current == s.clock.current && t.clock.positionAt == now && t.clock.positionMs == PositionAt(s, now))
  }

  // The item was through when it was paused.
  predicate StartsFromTop(s: State) { !s.clock.playing && 0 < Duration(s) <= s.clock.positionMs }

  // The steps that put the clock somewhere else.
  predicate Cuts(s: State, c: Cmd) {
    match c
    case Seek(_) => true
    case Play(_) => StartsFromTop(s)
    case EndCountdown => StartsFromTop(s)
    case MediaUpdated(m, row) => StartsNow(s, m, row)
    case MediaDeleted(_, q, _) => s.clock.current.Some? && IndexOf(q, s.clock.current.value) < 0
    case Add(_, _, _, _) => s.clock.current.None?
    case AddMany(_, _, _) => s.clock.current.None?
    case Replay(_, _, _, _) => s.clock.current.None?
    case Remove(id, _) => IsCurrentId(s, id)
    case Skip(_) => s.clock.current.Some?
    case Jump(_) => true
    case SkipVote(user, _) => VotesOut(s, user)
    case EndSession => true
    case Ended(t, _) => StillMeant(s, t)
    case Load(_, _, _, _) => true
    case _ => false
  }

  // ---------------------------------------------------------------------
  // Steps between cuts
  // ---------------------------------------------------------------------

  lemma FreezeFolds(s: State, w: State, now: int, saved: bool)
    requires w.clock == s.clock && w.queue == s.queue && w.media == s.media
    ensures Folded(s, Freeze(w, now, saved), now)
  {
    SameCurrent(s, w);
  }

  lemma StartFolds(s: State, w: State, now: int, saved: bool)
    requires w.clock == s.clock && w.queue == s.queue && w.media == s.media && !s.clock.playing && !StartsFromTop(s)
    ensures Folded(s, Start(w, now, saved), now)
  {
    SameCurrent(s, w);
  }

  lemma ResumeFolds(s: State, w: State, now: int, saved: bool)
    requires w.clock == s.clock
    ensures Folded(s, Resume(w, now, saved), now)
  {
  }

  lemma PlayFolds(s: State, counted: bool, now: int, saved: bool)
    requires !StartsFromTop(s)
    ensures Folded(s, DoPlay(s, counted, now, saved), now)
  {
    if !s.clock.playing {
      StartFolds(s, CancelCountdown(LeaveWait(s)), now, saved);
    }
  }

  lemma EndCountdownFolds(s: State, now: int, saved: bool)
    requires !StartsFromTop(s)
    ensures Folded(s, DoEndCountdown(s, now, saved), now)
  {
    if !s.clock.playing {
      StartFolds(s, CancelCountdown(s), now, saved);
    }
  }

  lemma PauseFolds(s: State, now: int, saved: bool)
    ensures Folded(s, DoPause(s, now, saved), now)
  {
    var w := CancelCountdown(LeaveWait(s));
    FreezeFolds(s, w, now, saved);
  }

  // The elapsed time is folded in at the old speed.
  lemma SetRateFolds(s: State, rate: int, now: int, saved: bool)
    ensures Folded(s, DoSetRate(s, rate, now, saved), now)
  {
    if rate in C.ALLOWED_RATES {
      Restarts(s.(clock := s.clock.(rate := rate)), s.clock.playing, PositionAt(s, now), now, saved);
    }
  }

  lemma EmptyPauseFolds(s: State, now: int, saved: bool)
    ensures Folded(s, DoEmptyPause(s, now, saved), now)
  {
    FreezeFolds(s, s.(timers := s.timers.(empty := false)), now, saved);
  }

  lemma StartWaitingFolds(s: State, now: int, saved: bool)
    ensures Folded(s, DoStartWaiting(s, now, saved), now)
  {
    var b := s.(timers := s.timers.(buffer := false));
    var w := b.(waiting := Some(Stuck(b)));
    SameCurrent(s, b);
    Restarts(w, false, PositionAt(b, now), now, saved);
  }

  lemma CheckFolds(s: State, w: State, now: int, saved: bool)
    requires w.clock == s.clock
    ensures Folded(s, CheckBuffering(w, now, saved), now)
  {
    ResumeFolds(s, w, now, saved);
  }

  lemma LeaveFolds(s: State, conn: ConnId, now: int, saved: bool)
    ensures Folded(s, DoLeave(s, conn, now, saved), now)
  {
    CheckFolds(s, ArmEmptyPause(s.(viewers := s.viewers - {conn})), now, saved);
  }

  lemma ReportFolds(s: State, conn: ConnId, buffering: bool, now: int, saved: bool)
    ensures Folded(s, DoReport(s, conn, buffering, now, saved), now)
  {
    if conn in s.viewers {
      var v := s.viewers[conn];
      CheckFolds(s, s.(viewers := s.viewers[conn := v.(buffering := buffering, ignored := v.ignored && buffering)]), now, saved);
    }
  }

  lemma StopWaitingFolds(s: State, now: int, saved: bool)
    ensures Folded(s, DoStopWaiting(s, now, saved), now)
  {
    ResumeFolds(s, LeaveBehind(s), now, saved);
  }

  // The commands that may move the clock.
  predicate MovesClock(c: Cmd) {
    c.Play? || c.Pause? || c.SetRate? || c.Leave? || c.Report? || c.EndCountdown? || c.EmptyPause? || c.StartWaiting? || c.StopWaiting?
  }

  lemma MovingFolds(s: State, c: Cmd, now: int, saved: bool)
    requires LeavesQueue(c) && MovesClock(c) && !Cuts(s, c)
    ensures Folded(s, DoQuietly(s, c, now, saved), now)
  {
    hide DoPlay, DoPause, DoSetRate, DoLeave, DoReport, DoEndCountdown, DoEmptyPause, DoStartWaiting, DoStopWaiting, Folded, StartsFromTop;
    match c
    case Play(counted) => PlayFolds(s, counted, now, saved);
    case Pause => PauseFolds(s, now, saved);
    case SetRate(rate) => SetRateFolds(s, rate, now, saved);
    case Leave(conn) => LeaveFolds(s, conn, now, saved);
    case Report(conn, buffering) => ReportFolds(s, conn, buffering, now, saved);
    case EndCountdown => EndCountdownFolds(s, now, saved);
    case EmptyPause => EmptyPauseFolds(s, now, saved);
    case StartWaiting => StartWaitingFolds(s, now, saved);
    case StopWaiting => StopWaitingFolds(s, now, saved);
  }

  lemma QuietFolds(s: State, c: Cmd, now: int, saved: bool)
    requires LeavesQueue(c) && !Cuts(s, c)
    ensures Folded(s, DoQuietly(s, c, now, saved), now)
  {
    hide DoPlay, DoPause, DoSetRate, DoLeave, DoReport, DoEndCountdown, DoEmptyPause, DoStartWaiting, DoStopWaiting, DoSeek;
    if MovesClock(c) {
      MovingFolds(s, c, now, saved);
    }
  }

  lemma AddingKeepsClock(s: State, c: Cmd, now: int, saved: bool)
    requires Adds(c) && s.clock.current.Some?
    ensures DoAdding(s, c, now, saved).clock == s.clock
  {
    hide SetCurrent, NewItems, NewItem, InsertLink, InsertLinks, WithMedia, FairOrder, PlaceAfter, BatchAfterCurrent;
  }

  lemma DeletingKeepsClock(s: State, c: Cmd, now: int, saved: bool)
    requires Deletes(c) && !Cuts(s, c)
    ensures DoDeleting(s, c, now, saved).clock == s.clock
  {
    hide SetCurrent, Persist, WithoutMedia, Deleted, History;
  }

  lemma AdvancingKeepsClock(s: State, c: Cmd, now: int, saved: bool)
    requires Advances(c) && !Cuts(s, c)
    ensures DoAdvancing(s, c, now, saved).clock == s.clock
  {
    hide Advanced, SetCurrent, Drop, JumpedFrom, MarkAll, Persist, SkipNeeded, Without, Deleted;
  }

  lemma StepFolds(s: State, c: Cmd, now: int, saved: bool)
    requires !Cuts(s, c)
    ensures Folded(s, Do(s, c, now, saved), now)
  {
    hide Do, Enabled;
    if LeavesQueue(c) {
      QuietFolds(s, c, now, saved);
      DoQuietlyIsDo(s, c, now, saved);
    } else if Adds(c) {
      AddingKeepsClock(s, c, now, saved);
      DoAddingIsDo(s, c, now, saved);
    } else if Reorders(c) {
      DoReorderingIsDo(s, c, now, saved);
    } else if Deletes(c) {
      DeletingKeepsClock(s, c, now, saved);
      DoDeletingIsDo(s, c, now, saved);
    } else {
      AdvancingKeepsClock(s, c, now, saved);
      DoAdvancingIsDo(s, c, now, saved);
    }
  }

  // ---------------------------------------------------------------------
  // Runs
  // ---------------------------------------------------------------------

  // at: when the clock was last looked at; ideal: the true integral of speed
  // over playing time, in quarter milliseconds; folds: how often time was
  // folded in.
  datatype Meter = Meter(at: int, ideal: int, folds: nat)

  function Reading(m: Meter, c: C.Clock, now: int): int {
    m.ideal + if c.playing then (now - m.at) * c.rate else 0
  }

  // Time passes to now, and then the clock changes from c to d or not.
  function Metered(m: Meter, c: C.Clock, d: C.Clock, now: int): Meter {
    Meter(now, Reading(m, c, now), if d == c then m.folds else m.folds + 1)
  }

  ghost function MeterOf(m: Meter, s: State, run: seq<Event>): Meter
    requires IsRun(s, run)
    decreases |run|
  {
    if run == [] then m
    else
      var t := Do(s, run[0].cmd, run[0].now, run[0].saved);
      MeterOf(Metered(m, s.clock, t.clock, run[0].now), t, run[1..])
  }

  // A run without cuts, in which time does not go back and the current item
  // keeps its length.
  ghost predicate Steady(at: int, s: State, run: seq<Event>, duration: int)
    requires IsRun(s, run)
    decreases |run|
  {
    && Duration(s) == duration
    && (run == [] ||
        (at <= run[0].now && !Cuts(s, run[0].cmd)
         && Steady(run[0].now, Do(s, run[0].cmd, run[0].now, run[0].saved), run[1..], duration)))
  }

  predicate InStep(m: Meter, c: C.Clock, duration: int) { C.Tracks(c, m.at, m.ideal, m.folds, duration) }

  lemma StepInStep(m: Meter, s: State, t: State, now: int, duration: int)
    requires InStep(m, s.clock, duration) && Duration(s) == duration && m.at <= now && Folded(s, t, now)
    ensures InStep(Metered(m, s.clock, t.clock, now), t.clock, duration)
  {
    C.TimeTracks(s.clock, m.at, now, m.ideal, m.folds, duration);
    if t.clock != s.clock {
      C.FoldTracks(s.clock, t.clock, now, Reading(m, s.clock, now), m.folds, duration);
    }
  }

  lemma {:induction false} RunInStep(m: Meter, s: State, run: seq<Event>, duration: int)
    requires IsRun(s, run) && Steady(m.at, s, run, duration) && InStep(m, s.clock, duration)
    ensures InStep(MeterOf(m, s, run), Final(s, run).clock, duration)
    decreases |run|
  {
    if run != [] {
      var e := run[0];
      var t := Do(s, e.cmd, e.now, e.saved);
      StepFolds(s, e.cmd, e.now, e.saved);
      StepInStep(m, s, t, e.now, duration);
      RunInStep(Metered(m, s.clock, t.clock, e.now), t, run[1..], duration);
    }
  }

  // ---------------------------------------------------------------------
  // Where a run may start
  // ---------------------------------------------------------------------

  // The position is one of the item.
  predicate Inside(c: C.Clock, duration: int) { 0 <= c.positionMs && (duration > 0 ==> c.positionMs <= duration) }

  // The true integral counted from the position the clock starts at.
  function StartMeter(c: C.Clock): Meter { Meter(c.positionAt, 4 * c.positionMs, 0) }

  // A clock can be metered exactly when its position is one of the item.
  lemma MeterStarts(c: C.Clock, duration: int)
    ensures InStep(StartMeter(c), c, duration) <==> Inside(c, duration)
    ensures forall m :: InStep(m, c, duration) ==> Inside(c, duration)
  {
  }

  // The clock is where it was, or at the top of an item.
  predicate Topped(s: State, t: State) { t.clock == s.clock || t.clock.positionMs == 0 }

  lemma StartIfIdleTops(s: State, a: State, it: Item, now: int, saved: bool)
    requires a.clock == s.clock
    ensures Topped(s, StartIfIdle(a, it, now, saved))
  {
  }

  lemma AddedManyClock(s: State, taken: seq<Link>, user: Option<UserId>, next: bool)
    ensures AddedMany(s, taken, user, next).clock == s.clock
  {
    hide InsertLinks, NewItems, WithMedia, BatchAfterCurrent;
  }

  lemma AddTops(s: State, l: Link, user: Option<UserId>, next: bool, force: bool, now: int, saved: bool)
    ensures Topped(s, DoAdd(s, l, user, next, force, now, saved))
  {
    hide StartIfIdle, NewItem, FairOrder, PlaceAfter, Topped, InsertLink, AddAccepted;
    ToppedSame(s);
    if AddAccepted(s, l, force) {
      StartIfIdleTops(s, FairReorder(AddedAt(Appended(s, l, user), next)), NewItem(s.db, l, user), now, saved);
    }
  }

  lemma AddManyTops(s: State, ls: seq<Link>, user: Option<UserId>, next: bool, now: int, saved: bool)
    ensures Topped(s, DoAddMany(s, ls, user, next, now, saved))
  {
    hide StartIfIdle, NewItems, FairOrder, AddedMany, Taken, Topped;
    ToppedSame(s);
    var taken := Taken(ls, HeldMedia(s), QUEUE_LIMIT - |s.queue|);
    AddedManyClock(s, taken, user, next);
    if !(s.closed || |s.queue| > QUEUE_LIMIT || taken == []) {
      StartIfIdleTops(s, FairReorder(AddedMany(s, taken, user, next)), NewItems(s.db, taken, user)[0], now, saved);
    }
  }

  lemma AddingTops(s: State, c: Cmd, now: int, saved: bool)
    requires Adds(c)
    ensures Topped(s, DoAdding(s, c, now, saved))
  {
    hide StartIfIdle, NewItem, FairOrder, Topped, InsertLink, DoAdd, DoAddMany;
    match c
    case Add(l, user, next, force) => AddTops(s, l, user, next, force, now, saved);
    case AddMany(ls, user, next) => AddManyTops(s, ls, user, next, now, saved);
    case Replay(source, user, id, created) =>
      ToppedSame(s);
      var src := ItemById(s.played, source);
      if !(src.None? || |s.queue| >= QUEUE_LIMIT || src.value.media !in s.db.media) {
        var l := Link(src.value.media, id, created);
        StartIfIdleTops(s, FairReorder(Requeue(s, l, user)), NewItem(s.db, l, user), now, saved);
      }
  }

  lemma ToppedSame(s: State)
    ensures Topped(s, s)
  {
  }

  lemma SwitchTops(s: State, item: Option<Item>, now: int)
    ensures SetCurrent(s, item, now).clock.positionMs == 0
  {
  }

  lemma StopTops(s: State, id: ItemId, now: int)
    ensures StopAtTop(s, id, now).clock.positionMs == 0
  {
  }

  lemma AdvancedTops(s: State, order: seq<ItemId>, now: int)
    requires s.clock.current.Some?
    ensures Advanced(s, order, now).clock.positionMs == 0
  {
    hide Drop, Lap, SetCurrent, StopAtTop;
    var d := Drop(s, now);
    var l := Lap(d, order);
    SwitchTops(d, Following(d.queue, IndexOf(s.queue, s.clock.current.value)), now);
    SwitchTops(l, if l.queue == [] then None else Some(l.queue[0]), now);
    if l.queue != [] {
      StopTops(l, l.queue[0].id, now);
    }
  }

  lemma NextTops(s: State, order: seq<ItemId>, now: int, saved: bool)
    ensures Topped(s, Next(s, order, now, saved))
  {
    hide Advanced;
    if s.clock.current.Some? {
      AdvancedTops(s, order, now);
    }
  }

  lemma AdvancingTops(s: State, c: Cmd, now: int, saved: bool)
    requires Advances(c)
    ensures Topped(s, DoAdvancing(s, c, now, saved))
  {
    hide Next, JumpedFrom, MarkAll, NextAdvance;
    match c
    case Remove(id, order) => NextTops(s, order, now, saved);
    case Skip(order) => NextTops(s, order, now, saved);
    case Jump(id) =>
    case SkipVote(user, order) => NextTops(SkipToggled(s, user), order, now, saved);
    case EndSession =>
    case Ended(t, order) => NextTops(s, order, now, saved);
  }

  lemma DeletingTops(s: State, c: Cmd, now: int, saved: bool)
    requires Deletes(c)
    ensures Topped(s, DoDeleting(s, c, now, saved))
  {
    hide NextAdvance, Reread, WithoutMedia;
  }

  lemma StartTops(s: State, w: State, now: int, saved: bool)
    requires w.clock == s.clock && w.queue == s.queue && w.media == s.media && StartsFromTop(s)
    ensures Start(w, now, saved).clock.positionMs == 0
  {
    SameCurrent(s, w);
  }

  lemma PlayTops(s: State, counted: bool, now: int, saved: bool)
    requires StartsFromTop(s)
    ensures Topped(s, DoPlay(s, counted, now, saved))
  {
    hide Start;
    StartTops(s, CancelCountdown(LeaveWait(s)), now, saved);
  }

  lemma EndCountdownTops(s: State, now: int, saved: bool)
    requires StartsFromTop(s)
    ensures Topped(s, DoEndCountdown(s, now, saved))
  {
    hide Start;
    StartTops(s, CancelCountdown(s), now, saved);
  }

  lemma SeekLands(s: State, position: int, now: int, saved: bool)
    ensures var t := DoSeek(s, position, now, saved); t.clock == s.clock || Inside(t.clock, Duration(t))
  {
    var t := DoSeek(s, position, now, saved);
    SameCurrent(s, t);
  }

  lemma QuietLands(s: State, c: Cmd, now: int, saved: bool)
    requires LeavesQueue(c) && Cuts(s, c)
    ensures var t := DoQuietly(s, c, now, saved); Topped(s, t) || Inside(t.clock, Duration(t))
  {
    hide DoPlay, DoEndCountdown, DoSeek, Inside;
    match c
    case Play(counted) => PlayTops(s, counted, now, saved);
    case EndCountdown => EndCountdownTops(s, now, saved);
    case Seek(position) => SeekLands(s, position, now, saved);
    case MediaUpdated(m, row) =>
  }

  lemma ToppedLands(s: State, t: State, now: int)
    requires Topped(s, t)
    ensures Folded(s, t, now) || Inside(t.clock, Duration(t))
  {
  }

  // Whatever a step does to the clock, loads aside, it holds the position the
  // clock showed or one of the item that is current then.
  lemma StepLands(s: State, c: Cmd, now: int, saved: bool)
    requires !c.Load?
    ensures var t := Do(s, c, now, saved); Folded(s, t, now) || Inside(t.clock, Duration(t))
  {
    hide Do, Enabled, Cuts, Folded, Inside, Topped, DoQuietly, DoAdding, DoReordering, DoDeleting, DoAdvancing;
    var t := Do(s, c, now, saved);
    if !Cuts(s, c) {
      StepFolds(s, c, now, saved);
    } else if LeavesQueue(c) {
      DoQuietlyIsDo(s, c, now, saved);
      QuietLands(s, c, now, saved);
      if Topped(s, t) {
        ToppedLands(s, t, now);
      }
    } else if Adds(c) {
      DoAddingIsDo(s, c, now, saved);
      AddingTops(s, c, now, saved);
      ToppedLands(s, t, now);
    } else if Reorders(c) {
      ReordersCutNothing(s, c);
    } else if Deletes(c) {
      DoDeletingIsDo(s, c, now, saved);
      DeletingTops(s, c, now, saved);
      ToppedLands(s, t, now);
    } else {
      DoAdvancingIsDo(s, c, now, saved);
      AdvancingTops(s, c, now, saved);
      ToppedLands(s, t, now);
    }
  }

  lemma ReordersCutNothing(s: State, c: Cmd)
    requires Reorders(c)
    ensures !Cuts(s, c)
  {
  }

  // At every time after a run without cuts that starts inside the item: never
  // ahead, and behind by less than a millisecond per fold plus one.
  lemma DriftBound(s: State, run: seq<Event>, duration: int, u: int)
    requires IsRun(s, run) && Steady(s.clock.positionAt, s, run, duration) && Inside(s.clock, duration)
    requires MeterOf(StartMeter(s.clock), s, run).at <= u
    ensures var m, c := MeterOf(StartMeter(s.clock), s, run), Final(s, run).clock;
      var ideal := C.Held(Reading(m, c, u), duration);
      4 * C.Position(c, u, duration) <= ideal < 4 * (C.Position(c, u, duration) + m.folds + 1)
  {
    hide Do, Enabled, IsRun, Steady, Final, MeterOf;
    MeterStarts(s.clock, duration);
    RunInStep(StartMeter(s.clock), s, run, duration);
    var m, c := MeterOf(StartMeter(s.clock), s, run), Final(s, run).clock;
    C.TimeTracks(c, m.at, u, m.ideal, m.folds, duration);
    C.TracksBounds(c, u, Reading(m, c, u), m.folds, duration);
  }

  // After every step that moves the clock other than by folding time in, the
  // bound holds until the next such step: seeks, new items and starts from
  // the top all land inside the item.
  lemma DriftAfterCut(s: State, e: Event, run: seq<Event>, duration: int, u: int)
    requires !e.cmd.Load? && !Folded(s, Do(s, e.cmd, e.now, e.saved), e.now)
    requires var t := Do(s, e.cmd, e.now, e.saved);
      IsRun(t, run) && Steady(t.clock.positionAt, t, run, duration) && MeterOf(StartMeter(t.clock), t, run).at <= u
    ensures var t := Do(s, e.cmd, e.now, e.saved);
      var m, c := MeterOf(StartMeter(t.clock), t, run), Final(t, run).clock;
      var ideal := C.Held(Reading(m, c, u), duration);
      4 * C.Position(c, u, duration) <= ideal < 4 * (C.Position(c, u, duration) + m.folds + 1)
  {
    hide Do, Enabled, IsRun, Final, MeterOf, Folded, Inside, Cuts;
    StepLands(s, e.cmd, e.now, e.saved);
    DriftBound(Do(s, e.cmd, e.now, e.saved), run, duration, u);
  }
}
