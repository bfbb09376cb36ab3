// Playback has modes that exclude each other: playing, waiting for viewers
// who buffer, and counting down to a start. Whatever plays is ready, and
// whatever is waited for or counted down to is ready too. Which steps break
// this, and that no other does, is proved.
module RoomModes {
  import opened Base
  import opened Order
  import opened Moves
  import opened Store
  import opened RoomSpec
  import opened RoomCommands
  import opened RoomCache
  import opened RoomShape
  import opened RoomSaved
  import opened RoomVotes
  import opened RoomNext
  import C = Clock

  predicate Current(s: State) { IsReady(CurrentMedia(s)) }

  // ready: whether the current item is.
  predicate ModesOf(clock: C.Clock, waiting: Option<set<UserId>>, countdown: Option<int>, ready: bool) {
    && (clock.playing ==> ready && waiting.None? && countdown.None?)
    && (waiting.Some? ==> countdown.None?)
    && ((waiting.Some? || countdown.Some?) && clock.current.Some? ==> ready)
  }

  predicate Modes(s: State) { ModesOf(s.clock, s.waiting, s.countdown, Current(s)) }

  predicate Pending(s: State) { s.waiting.Some? || s.countdown.Some? }

  // ---------------------------------------------------------------------
  // The media rows
  // ---------------------------------------------------------------------

  type MediaRows = map<MediaId, Media>

  // Every queue row refers to a media row.
  ghost predicate Referenced(rows: Rows, media: MediaRows) {
    forall id :: id in rows ==> rows[id].media in media
  }

  // What is ready in the room is stored as it is.
  ghost predicate Fresh(held: MediaRows, stored: MediaRows) {
    forall m :: m in held && held[m].status == MediaReady ==> m in stored && stored[m] == held[m]
  }

  predicate ReadyRow(db: Db, id: ItemId) {
    id in db.rows && db.rows[id].media in db.media && db.media[db.rows[id].media].status == MediaReady
  }

  // The stored columns play a ready item.
  predicate StoredReady(db: Db) {
    db.playback.playing && db.playback.current.Some? ==> ReadyRow(db, db.playback.current.value)
  }

  ghost predicate Synced(s: State) {
    Referenced(s.db.rows, s.db.media) && Fresh(s.media, s.db.media) && StoredReady(s.db)
  }

  ghost predicate MediaKept(rows: Rows, rows': Rows) {
    forall id :: id in rows && id in rows' ==> rows'[id].media == rows[id].media
  }

  // Ready media stays ready, and as it was.
  ghost predicate ReadyKept(m: MediaRows, m': MediaRows) {
    forall x :: x in m && m[x].status == MediaReady ==> x in m' && m'[x] == m[x]
  }

  // What plays keeps its length: a row its media, and ready media its row.
  ghost predicate Kept(s: State, t: State) {
    && MediaKept(s.db.rows, t.db.rows)
    && (forall m :: m in s.db.media && m in t.db.media && s.db.media[m].status == MediaReady ==> t.db.media[m] == s.db.media[m])
  }

  ghost predicate Sound(s: State) { Cached(s) && Placed(s) && Synced(s) && Modes(s) }

  // ---------------------------------------------------------------------
  // Which media is current
  // ---------------------------------------------------------------------

  lemma CurrentRow(s: State)
    requires Cached(s) && Placed(s) && s.clock.current.Some?
    ensures var id := s.clock.current.value;
      && id in s.db.rows && Queued(s.db, id)
      && CurrentItem(s).Some? && CurrentItem(s).value.media == s.db.rows[id].media
  {
    var id := s.clock.current.value;
    HasIdIndex(s.queue, id);
    assert s.queue[IndexOf(s.queue, id)] in s.queue;
  }

  lemma ReadyCarries(s: State, t: State)
    requires Cached(s) && Placed(s) && Cached(t) && Placed(t)
    requires t.clock.current == s.clock.current && MediaKept(s.db.rows, t.db.rows)
    requires ReadyKept(s.media, t.media) && Current(s)
    ensures Current(t)
  {
    CurrentRow(s);
    CurrentRow(t);
  }

  // ---------------------------------------------------------------------
  // Steps that leave the queue alone
  // ---------------------------------------------------------------------

  // The room's media rows and the stored ones are not touched.
  predicate MovesMedia(c: Cmd) { c.RetryItem? || c.Ingest? || c.MediaUpdated? }

  // What playback and presence do to the modes while queue and media stay.
  ghost predicate Follows(s: State, t: State) {
    t.media == s.media && t.db.media == s.db.media && ModesOf(t.clock, t.waiting, t.countdown, Current(s))
  }

  lemma SameCurrent(s: State, t: State)
    requires t.queue == s.queue && t.media == s.media && t.clock.current == s.clock.current
    ensures CurrentMedia(t) == CurrentMedia(s)
  {
  }

  lemma StartModes(s: State, now: int, saved: bool)
    requires Modes(s.(waiting := None)) && Current(s)
    ensures Follows(s, Start(CancelCountdown(LeaveWait(s)), now, saved))
  {
  }

  lemma PlayModes(s: State, counted: bool, now: int, saved: bool)
    requires Modes(s)
    ensures Follows(s, DoPlay(s, counted, now, saved))
  {
    hide C.Position, C.StartFrom;
    if Current(s) {
      SameCurrent(s, s.(waiting := None));
      StartModes(s, now, saved);
    }
  }

  // A restart of the clock moves nothing else.
  lemma Restarts(s: State, playing: bool, position: int, now: int, saved: bool)
    ensures var t := Persist(SetPlayback(s, playing, position, now), now, saved);
      && t.media == s.media && t.db.media == s.db.media && t.waiting == s.waiting && t.countdown == s.countdown
      && t.clock.playing == playing && t.clock.current == s.clock.current
  {
  }

  lemma PauseModes(s: State, now: int, saved: bool)
    requires Modes(s)
    ensures Follows(s, DoPause(s, now, saved))
  {
    var w := CancelCountdown(LeaveWait(s));
    Restarts(w, false, PositionAt(w, now), now, saved);
    assert w.clock == s.clock && w.waiting.None? && w.countdown.None?;
    assert DoPause(s, now, saved) == if s.clock.current.None? then s else if s.clock.playing then Freeze(w, now, saved) else w;
  }

  lemma SeekModes(s: State, position: int, now: int, saved: bool)
    requires Modes(s)
    ensures Follows(s, DoSeek(s, position, now, saved))
  {
    var m := CurrentMedia(s);
    if m.Some? {
      Restarts(s, s.clock.playing && IsReady(m), C.ClampSeek(position, m.value.duration), now, saved);
    }
  }

  lemma SetRateModes(s: State, rate: int, now: int, saved: bool)
    requires Modes(s)
    ensures Follows(s, DoSetRate(s, rate, now, saved))
  {
    if rate in C.ALLOWED_RATES {
      Restarts(s.(clock := s.clock.(rate := rate)), s.clock.playing, PositionAt(s, now), now, saved);
    }
  }

  lemma EndCountdownModes(s: State, now: int, saved: bool)
    requires Modes(s)
    ensures Follows(s, DoEndCountdown(s, now, saved))
  {
    hide C.StartFrom, NextAdvance, SetPlayback, Persist;
    var c := CancelCountdown(s);
    SameCurrent(s, c);
    Restarts(c, true, C.StartFrom(c.clock.positionMs, Duration(c)), now, saved);
  }

  lemma EmptyPauseModes(s: State, now: int, saved: bool)
    requires Modes(s)
    ensures Follows(s, DoEmptyPause(s, now, saved))
  {
  }

  lemma ResumeModes(s: State, now: int, saved: bool)
    requires Modes(s)
    ensures Follows(s, Resume(s, now, saved))
  {
  }

  lemma CheckModes(s: State, now: int, saved: bool)
    requires Modes(s)
    ensures Follows(s, CheckBuffering(s, now, saved))
  {
    if s.waiting.Some? && Stuck(s) == {} {
      ResumeModes(s, now, saved);
    }
  }

  lemma LeaveModes(s: State, conn: ConnId, now: int, saved: bool)
    requires Modes(s)
    ensures Follows(s, DoLeave(s, conn, now, saved))
  {
    var a := ArmEmptyPause(s.(viewers := s.viewers - {conn}));
    SameCurrent(s, a);
    CheckModes(a, now, saved);
  }

  lemma ReportModes(s: State, conn: ConnId, buffering: bool, now: int, saved: bool)
    requires Modes(s)
    ensures Follows(s, DoReport(s, conn, buffering, now, saved))
  {
    if conn in s.viewers {
      var v := s.viewers[conn];
      var a := s.(viewers := s.viewers[conn := v.(buffering := buffering, ignored := v.ignored && buffering)]);
      SameCurrent(s, a);
      CheckModes(a, now, saved);
    }
  }

  lemma StartWaitingModes(s: State, now: int, saved: bool)
    requires Modes(s)
    ensures Follows(s, DoStartWaiting(s, now, saved))
  {
  }

  lemma StopWaitingModes(s: State, now: int, saved: bool)
    requires Modes(s)
    ensures Follows(s, DoStopWaiting(s, now, saved))
  {
    var a := LeaveBehind(s);
    SameCurrent(s, a);
    ResumeModes(a, now, saved);
  }

  lemma QuietModes(s: State, c: Cmd, now: int, saved: bool)
    requires Modes(s) && LeavesQueue(c) && !MovesMedia(c)
    ensures Follows(s, DoQuietly(s, c, now, saved))
  {
    match c
    case Play(counted) => PlayModes(s, counted, now, saved);
    case Pause => PauseModes(s, now, saved);
    case Seek(position) => SeekModes(s, position, now, saved);
    case SetRate(rate) => SetRateModes(s, rate, now, saved);
    case Join(conn, user) =>
    case Leave(conn) => LeaveModes(s, conn, now, saved);
    case Kick(user) =>
    case Report(conn, buffering) => ReportModes(s, conn, buffering, now, saved);
    case EndCountdown => EndCountdownModes(s, now, saved);
    case EmptyPause => EmptyPauseModes(s, now, saved);
    case StartWaiting => StartWaitingModes(s, now, saved);
    case StopWaiting => StopWaitingModes(s, now, saved);
    case Tick(every) =>
    case Close =>
  }

  // Following keeps the modes, since the same item stays current.
  lemma FollowedModes(s: State, t: State)
    requires Follows(s, t) && t.queue == s.queue && t.clock.current == s.clock.current
    ensures Modes(t)
  {
    SameCurrent(s, t);
  }

  // ---------------------------------------------------------------------
  // Media moves on
  // ---------------------------------------------------------------------

  lemma RetryModes(s: State, id: ItemId)
    requires Modes(s)
    ensures Modes(DoRetry(s, id))
  {
  }

  // The media that starts now was not ready, so nothing was pending for it.
  lemma MediaUpdatedModes(s: State, media: MediaId, row: Media, now: int, saved: bool)
    requires Modes(s) && Enabled(s, MediaUpdated(media, row), now)
    ensures Modes(DoMediaUpdated(s, media, row, now, saved))
  {
    if media in s.media {
      var u := s.(media := s.media[media := row]);
      assert CurrentItem(u) == CurrentItem(s);
      assert Current(s) ==> Current(u);
    }
  }

  lemma MediaModes(s: State, c: Cmd, now: int, saved: bool)
    requires Modes(s) && MovesMedia(c) && Enabled(s, c, now)
    ensures Modes(DoQuietly(s, c, now, saved))
  {
    match c
    case RetryItem(id) => RetryModes(s, id);
    case MediaUpdated(m, row) => MediaUpdatedModes(s, m, row, now, saved);
    case Ingest(m, row) =>
  }

  // ---------------------------------------------------------------------
  // Items come and go
  // ---------------------------------------------------------------------

  lemma CarriedModes(s: State, t: State)
    requires Cached(s) && Placed(s) && Cached(t) && Placed(t) && Modes(s)
    requires t.clock == s.clock && t.waiting == s.waiting && t.countdown == s.countdown
    requires MediaKept(s.db.rows, t.db.rows) && ReadyKept(s.media, t.media)
    ensures Modes(t)
  {
    if Current(s) {
      ReadyCarries(s, t);
    }
  }

  // A newly current item plays if it is ready, and nothing is pending.
  lemma SwitchedModes(s: State, it: Item, now: int, saved: bool)
    requires var t := Persist(SetCurrent(s, Some(it), now), now, saved);
      Cached(t) && Placed(t) && it.id in t.db.rows && t.db.rows[it.id].media == it.media
    ensures Modes(Persist(SetCurrent(s, Some(it), now), now, saved))
  {
    CurrentRow(Persist(SetCurrent(s, Some(it), now), now, saved));
  }

  lemma StoppedModes(s: State, now: int, saved: bool)
    requires !(s.waiting.Some? && s.countdown.Some?)
    ensures Modes(Persist(SetCurrent(s, None, now), now, saved))
  {
  }

  lemma StartedModes(s: State, a: State, it: Item, now: int, saved: bool)
    requires Cached(s) && Placed(s) && Modes(s)
    requires a.clock == s.clock && a.waiting == s.waiting && a.countdown == s.countdown
    requires MediaKept(s.db.rows, a.db.rows) && ReadyKept(s.media, a.media)
    requires it.id in a.db.rows && a.db.rows[it.id].media == it.media
    requires var t := StartIfIdle(a, it, now, saved); Cached(t) && Placed(t)
    ensures Modes(StartIfIdle(a, it, now, saved))
  {
    if s.clock.current.None? {
      SwitchedModes(a, it, now, saved);
    } else {
      CarriedModes(s, a);
    }
  }

  lemma KeptIsMediaKept(rows: Rows, rows': Rows)
    requires KeepsRows(rows, rows')
    ensures MediaKept(rows, rows')
  {
  }

  lemma KeepsThrough(a: Rows, b: Rows, c: Rows)
    requires KeepsRows(a, b) && KeepsRows(b, c)
    ensures KeepsRows(a, c)
  {
  }

  // The room's rows and the stored ones take up new links alike.
  lemma {:induction false} LinksSynced(held: MediaRows, db: Db, ls: seq<Link>, user: Option<UserId>)
    requires Fresh(held, db.media) && Referenced(db.rows, db.media)
    ensures var db' := InsertLinks(db, ls, user);
      && Fresh(WithMedia(held, db, ls), db'.media) && Referenced(db'.rows, db'.media)
      && ReadyKept(held, WithMedia(held, db, ls)) && ReadyKept(db.media, db'.media)
      && (forall m :: m !in db.media && m in db'.media ==> db'.media[m] == StoredMedia(db, m))
      && (forall m :: m in db.media ==> m in db'.media && db'.media[m] == db.media[m])
  {
    if ls != [] {
      LinksSynced(held, db, ls[..|ls| - 1], user);
    }
  }

  lemma NewRow(db: Db, l: Link, user: Option<UserId>)
    ensures var db' := InsertLink(db, l, user); l.id in db'.rows && db'.rows[l.id].media == NewItem(db, l, user).media
  {
  }

  // What the store holds for the items added first, whatever is added after.
  lemma {:induction false} FirstNewRow(db: Db, ls: seq<Link>, user: Option<UserId>)
    requires ls != [] && forall i, j :: 0 <= i < j < |ls| ==> ls[i].id != ls[j].id
    ensures |NewItems(db, ls, user)| == |ls|
    ensures var db', it := InsertLinks(db, ls, user), NewItems(db, ls, user)[0];
      it.id == ls[0].id && it.id in db'.rows && db'.rows[it.id].media == it.media
  {
    var front := ls[..|ls| - 1];
    if front != [] {
      FirstNewRow(db, front, user);
      assert front[0] == ls[0];
    } else {
      assert InsertLinks(db, front, user) == db && NewItems(db, front, user) == [];
      NewRow(db, ls[0], user);
    }
  }

  // ---------------------------------------------------------------------
  // The media rows stay in step
  // ---------------------------------------------------------------------

  lemma SyncedFrom(s: State, t: State)
    requires Synced(s) && Cached(t) && Placed(t) && (t.clock.playing ==> Current(t))
    requires Referenced(t.db.rows, t.db.media) && Fresh(t.media, t.db.media)
    requires s.db.rows.Keys <= t.db.rows.Keys && MediaKept(s.db.rows, t.db.rows) && ReadyKept(s.db.media, t.db.media)
    requires t.db.playback == s.db.playback || t.db.playback == C.Saved(t.clock)
    ensures Synced(t)
  {
    if t.db.playback == C.Saved(t.clock) && t.clock.playing {
      assert t.clock.current.Some? by {
        assert CurrentMedia(t).Some?;
      }
      CurrentRow(t);
    }
  }

  // a: the room with new rows, in order.
  ghost predicate Enlarged(s: State, a: State) {
    && KeepsRows(s.db.rows, a.db.rows) && Referenced(a.db.rows, a.db.media) && Fresh(a.media, a.db.media)
    && ReadyKept(s.media, a.media) && ReadyKept(s.db.media, a.db.media)
    && a.clock == s.clock && a.waiting == s.waiting && a.countdown == s.countdown && a.db.playback == s.db.playback
  }

  lemma EnlargedSynced(s: State, a: State, it: Item, now: int, saved: bool)
    requires Synced(s) && Enlarged(s, a)
    requires var t := StartIfIdle(a, it, now, saved); Cached(t) && Placed(t) && (t.clock.playing ==> Current(t))
    ensures Synced(StartIfIdle(a, it, now, saved))
  {
    KeptIsMediaKept(s.db.rows, a.db.rows);
    KeptKeys(s.db.rows, a.db.rows);
    SyncedFrom(s, StartIfIdle(a, it, now, saved));
  }

  lemma EnlargedSound(s: State, a: State, it: Item, now: int, saved: bool)
    requires Sound(s) && Enlarged(s, a) && it.id in a.db.rows && a.db.rows[it.id].media == it.media
    requires var t := StartIfIdle(a, it, now, saved); Cached(t) && Placed(t)
    ensures Sound(StartIfIdle(a, it, now, saved)) && Kept(s, StartIfIdle(a, it, now, saved))
  {
    KeptIsMediaKept(s.db.rows, a.db.rows);
    StartedModes(s, a, it, now, saved);
    EnlargedSynced(s, a, it, now, saved);
  }

  // Reordering a larger room leaves it larger.
  lemma ReorderedEnlarged(s: State, a: State, b: State)
    requires Enlarged(s, a) && KeepsRows(a.db.rows, b.db.rows) && a.db.rows.Keys == b.db.rows.Keys
    requires b == a.(db := a.db.(rows := b.db.rows), queue := b.queue)
    ensures Enlarged(s, b)
  {
    KeepsThrough(s.db.rows, a.db.rows, b.db.rows);
  }

  lemma FairEnlarged(s: State, a: State)
    requires Enlarged(s, a)
    ensures Enlarged(s, FairReorder(a)) && KeepsRows(a.db.rows, FairReorder(a).db.rows)
  {
    FairReorderKeepsRows(a);
    ReorderedEnlarged(s, a, FairReorder(a));
  }

  lemma AppendedEnlarged(s: State, l: Link, user: Option<UserId>)
    requires Sound(s) && l.id !in s.db.used
    ensures Enlarged(s, Appended(s, l, user))
  {
    InsertLinkKeepsRows(s.db, l, user);
  }

  lemma AppliedEnlarged(s: State, a: State, o: seq<Item>)
    requires Enlarged(s, a)
    ensures Enlarged(s, ApplyOrder(a, o)) && KeepsRows(a.db.rows, ApplyOrder(a, o).db.rows)
  {
    ApplyOrderKeepsRows(a, o);
    ReorderedEnlarged(s, a, ApplyOrder(a, o));
  }

  lemma PlaceNextEnlarged(s: State, a: State)
    requires Enlarged(s, a) && a.queue != []
    ensures Enlarged(s, PlaceNext(a)) && KeepsRows(a.db.rows, PlaceNext(a).db.rows)
  {
    var o := PlaceAfter(a.queue, |a.queue| - 1, a.clock.current, a.clock.current);
    if o.Some? {
      assert PlaceNext(a) == ApplyOrder(a, o.value);
      AppliedEnlarged(s, a, o.value);
    } else {
      assert PlaceNext(a) == a;
    }
  }

  lemma AddedAtEnlarged(s: State, a: State, next: bool)
    requires Enlarged(s, a)
    ensures Enlarged(s, AddedAt(a, next)) && KeepsRows(a.db.rows, AddedAt(a, next).db.rows)
  {
    if next && !OrderedByRule(a) && a.clock.current.Some? && |a.queue| > 1 {
      PlaceNextEnlarged(s, a);
    }
  }

  lemma AddSound(s: State, l: Link, user: Option<UserId>, next: bool, force: bool, now: int, saved: bool)
    requires Sound(s) && l.id !in s.db.used
    requires var t := DoAdd(s, l, user, next, force, now, saved); Cached(t) && Placed(t)
    ensures Sound(DoAdd(s, l, user, next, force, now, saved)) && Kept(s, DoAdd(s, l, user, next, force, now, saved))
  {
    if AddAccepted(s, l, force) {
      var a := Appended(s, l, user);
      var b := AddedAt(a, next);
      AppendedEnlarged(s, l, user);
      NewRow(s.db, l, user);
      AddedAtEnlarged(s, a, next);
      FairEnlarged(s, b);
      EnlargedSound(s, FairReorder(b), NewItem(s.db, l, user), now, saved);
    }
  }

  lemma RequeueEnlarged(s: State, l: Link, user: Option<UserId>)
    requires Sound(s) && l.id !in s.db.used && l.media in s.db.media
    ensures Enlarged(s, Requeue(s, l, user))
  {
    InsertLinkKeepsRows(s.db, l, user);
  }

  lemma ReplaySound(s: State, source: ItemId, user: Option<UserId>, id: ItemId, created: int, now: int, saved: bool)
    requires Sound(s) && id !in s.db.used
    requires var t := DoReplay(s, source, user, id, created, now, saved); Cached(t) && Placed(t)
    ensures Sound(DoReplay(s, source, user, id, created, now, saved)) && Kept(s, DoReplay(s, source, user, id, created, now, saved))
  {
    var src := ItemById(s.played, source);
    if !(src.None? || |s.queue| >= QUEUE_LIMIT || src.value.media !in s.db.media) {
      var l := Link(src.value.media, id, created);
      var a := Requeue(s, l, user);
      RequeueEnlarged(s, l, user);
      NewRow(s.db, l, user);
      FairEnlarged(s, a);
      EnlargedSound(s, FairReorder(a), NewItem(s.db, l, user), now, saved);
    }
  }

  lemma AddedManyEnlarged(s: State, taken: seq<Link>, user: Option<UserId>, next: bool)
    requires Sound(s) && forall l :: l in taken ==> l.id !in s.db.used
    requires taken != [] && forall i, j :: 0 <= i < j < |taken| ==> taken[i].id != taken[j].id
    ensures var b := AddedMany(s, taken, user, next);
      && Enlarged(s, b) && |NewItems(s.db, taken, user)| == |taken|
      && var it := NewItems(s.db, taken, user)[0]; it.id in b.db.rows && b.db.rows[it.id].media == it.media
  {
    var added := NewItems(s.db, taken, user);
    var a := s.(db := InsertLinks(s.db, taken, user), media := WithMedia(s.media, s.db, taken));
    InsertLinksKeepRows(s.db, taken, user);
    LinksSynced(s.media, s.db, taken, user);
    FirstNewRow(s.db, taken, user);
    assert Enlarged(s, a);
    AppliedEnlarged(s, a, BatchAfterCurrent(a.queue, added, a.clock.current));
  }

  lemma AddManySound(s: State, links: seq<Link>, user: Option<UserId>, next: bool, now: int, saved: bool)
    requires Sound(s) && forall l :: l in links ==> l.id !in s.db.used
    requires forall i, j :: 0 <= i < j < |links| ==> links[i].id != links[j].id
    requires var t := DoAddMany(s, links, user, next, now, saved); Cached(t) && Placed(t)
    ensures Sound(DoAddMany(s, links, user, next, now, saved)) && Kept(s, DoAddMany(s, links, user, next, now, saved))
  {
    var taken := Taken(links, HeldMedia(s), QUEUE_LIMIT - |s.queue|);
    TakenLinks(links, HeldMedia(s), QUEUE_LIMIT - |s.queue|);
    if !(s.closed || |s.queue| > QUEUE_LIMIT || taken == []) {
      var b := AddedMany(s, taken, user, next);
      AddedManyEnlarged(s, taken, user, next);
      FairEnlarged(s, b);
      EnlargedSound(s, FairReorder(b), NewItems(s.db, taken, user)[0], now, saved);
    }
  }

  lemma AddingSound(s: State, c: Cmd, now: int, saved: bool)
    requires Sound(s) && Adds(c) && Enabled(s, c, now)
    requires Cached(DoAdding(s, c, now, saved)) && Placed(DoAdding(s, c, now, saved))
    ensures Sound(DoAdding(s, c, now, saved)) && Kept(s, DoAdding(s, c, now, saved))
  {
    match c
    case Add(l, user, next, force) => AddSound(s, l, user, next, force, now, saved);
    case AddMany(ls, user, next) => AddManySound(s, ls, user, next, now, saved);
    case Replay(source, user, id, created) => ReplaySound(s, source, user, id, created, now, saved);
  }

  // ---------------------------------------------------------------------
  // The other groups
  // ---------------------------------------------------------------------

  lemma QuietSound(s: State, c: Cmd, now: int, saved: bool)
    requires Sound(s) && LeavesQueue(c) && Enabled(s, c, now)
    requires Cached(DoQuietly(s, c, now, saved)) && Placed(DoQuietly(s, c, now, saved))
    ensures Sound(DoQuietly(s, c, now, saved))
  {
    var t := DoQuietly(s, c, now, saved);
    if MovesMedia(c) {
      MediaModes(s, c, now, saved);
      MediaStaysFresh(s, c, now, saved);
    } else {
      QuietModes(s, c, now, saved);
      FollowedModes(s, t);
    }
    SyncedFrom(s, t);
  }

  ghost predicate StaysFresh(s: State, t: State) {
    && t.db.rows == s.db.rows && Referenced(t.db.rows, t.db.media) && Fresh(t.media, t.db.media)
    && ReadyKept(s.db.media, t.db.media)
  }

  lemma RetryStaysFresh(s: State, id: ItemId, now: int)
    requires Synced(s) && Enabled(s, RetryItem(id), now)
    ensures StaysFresh(s, DoRetry(s, id))
  {
    var it := ItemById(s.queue, id);
    if it.Some? && it.value.media in s.db.media {
      assert s.db.media[it.value.media].status != MediaReady;
    }
  }

  lemma MediaUpdatedStaysFresh(s: State, m: MediaId, row: Media, now: int, saved: bool)
    requires Synced(s) && Enabled(s, MediaUpdated(m, row), now)
    ensures StaysFresh(s, DoMediaUpdated(s, m, row, now, saved))
  {
    if m in s.media {
      var u := s.(media := s.media[m := row]);
      Restarts(u, true, 0, now, saved);
      assert Fresh(u.media, s.db.media);
    }
  }

  lemma MediaStaysFresh(s: State, c: Cmd, now: int, saved: bool)
    requires Synced(s) && MovesMedia(c) && Enabled(s, c, now)
    ensures StaysFresh(s, DoQuietly(s, c, now, saved))
  {
    match c
    case RetryItem(id) => RetryStaysFresh(s, id, now);
    case MediaUpdated(m, row) => MediaUpdatedStaysFresh(s, m, row, now, saved);
    case Ingest(m, row) =>
  }

  lemma ReorderingSound(s: State, c: Cmd)
    requires Sound(s) && Reorders(c)
    requires Cached(DoReordering(s, c)) && Placed(DoReordering(s, c))
    ensures Sound(DoReordering(s, c))
  {
    var t := DoReordering(s, c);
    ReorderingKeepsRows(s, c);
    KeptIsMediaKept(s.db.rows, t.db.rows);
    KeptKeys(s.db.rows, t.db.rows);
    CarriedModes(s, t);
    SyncedFrom(s, t);
  }

  // ---------------------------------------------------------------------
  // Deletions
  // ---------------------------------------------------------------------

  lemma DeletedStaysSynced(db: Db, ids: set<ItemId>)
    requires Referenced(db.rows, db.media) && StoredReady(db)
    ensures var db' := Deleted(db, ids); Referenced(db'.rows, db'.media) && StoredReady(db')
  {
  }

  lemma ShrunkSound(s: State, ids: set<ItemId>, t: State)
    requires Sound(s) && Cached(t) && Placed(t) && t.db == Deleted(s.db, ids) && t.clock == s.clock && t.media == s.media
    requires t.waiting == s.waiting && t.countdown == s.countdown
    ensures Sound(t)
  {
    DeletedStaysSynced(s.db, ids);
    CarriedModes(s, t);
  }

  lemma ClearSound(s: State)
    requires Sound(s) && Cached(DoClear(s)) && Placed(DoClear(s))
    ensures Sound(DoClear(s))
  {
    var gone := set id | id in s.db.rows && Queued(s.db, id) && !IsCurrentId(s, id);
    ShrunkSound(s, gone, DoClear(s));
  }

  lemma WithoutMediaSynced(db: Db, gone: set<MediaId>)
    requires Referenced(db.rows, db.media) && StoredReady(db)
    ensures var db' := WithoutMedia(db, gone);
      Referenced(db'.rows, db'.media) && StoredReady(db') && MediaKept(db.rows, db'.rows)
  {
    var ids := set id | id in db.rows && db.rows[id].media in gone;
    DeletedStaysSynced(db, ids);
  }

  // The media the room re-reads is what is stored.
  lemma RereadFresh(s: State, q: seq<Item>, h: seq<Item>)
    ensures Fresh(Reread(s, q, h).media, s.db.media)
    ensures forall it :: it in q && it.media in s.db.media ==> MediaOf(Reread(s, q, h), it) == Some(s.db.media[it.media])
  {
  }

  // A current item that is still queued is as ready as before.
  lemma RereadCurrent(s: State, gone: set<MediaId>, q: seq<Item>, h: seq<Item>)
    requires Sound(s) && Current(s)
    requires var r := RereadWithout(s, gone, q, h); Cached(r) && CurrentItem(r).Some?
    ensures Current(RereadWithout(s, gone, q, h))
  {
    var d := s.(db := WithoutMedia(s.db, gone));
    var r := Reread(d, q, h);
    CurrentRow(s);
    HasIdIndex(q, s.clock.current.value);
    CurrentRow(r.(played := []));
    SameCurrent(r, r.(played := []));
    RereadFresh(d, q, h);
    assert CurrentItem(r).value in q;
  }

  lemma MediaDeletedModes(s: State, gone: set<MediaId>, q: seq<Item>, h: seq<Item>, now: int, saved: bool)
    requires Sound(s) && IsListing(WithoutMedia(s.db, gone), q)
    requires var t := DoMediaDeleted(s, gone, q, h, now, saved); Cached(t) && Placed(t)
    ensures Modes(DoMediaDeleted(s, gone, q, h, now, saved))
  {
    var r := RereadWithout(s, gone, q, h);
    MediaDeletedCached(s, gone, q, h);
    if r.clock.current.Some? && CurrentItem(r).None? {
      if q == [] {
        StoppedModes(r, now, saved);
      } else {
        assert q[0] in r.queue;
        SwitchedModes(r, q[0], now, saved);
      }
    } else if Current(s) {
      RereadCurrent(s, gone, q, h);
    }
  }

  lemma MediaDeletedSound(s: State, gone: set<MediaId>, q: seq<Item>, h: seq<Item>, now: int, saved: bool)
    requires Sound(s) && IsListing(WithoutMedia(s.db, gone), q)
    requires var t := DoMediaDeleted(s, gone, q, h, now, saved); Cached(t) && Placed(t)
    ensures Sound(DoMediaDeleted(s, gone, q, h, now, saved))
  {
    var d := s.(db := WithoutMedia(s.db, gone));
    var t := DoMediaDeleted(s, gone, q, h, now, saved);
    MediaDeletedModes(s, gone, q, h, now, saved);
    WithoutMediaSynced(s.db, gone);
    RereadFresh(d, q, h);
    assert t.media == Reread(d, q, h).media && t.db.media == d.db.media && t.db.rows == d.db.rows;
    if t.db.playback != d.db.playback {
      SyncedFrom(d.(media := t.media), t);
    }
  }

  lemma DeletingSound(s: State, c: Cmd, now: int, saved: bool)
    requires Sound(s) && Deletes(c) && Enabled(s, c, now)
    requires Cached(DoDeleting(s, c, now, saved)) && Placed(DoDeleting(s, c, now, saved))
    ensures Sound(DoDeleting(s, c, now, saved))
  {
    match c
    case Clear => ClearSound(s);
    case ClearPlayed => ShrunkSound(s, History(s.db), DoClearPlayed(s));
    case Purge(ids) => ShrunkSound(s, ids, DoPurge(s, ids));
    case MediaDeleted(gone, q, h) => MediaDeletedSound(s, gone, q, h, now, saved);
  }

  // ---------------------------------------------------------------------
  // Advances
  // ---------------------------------------------------------------------

  ghost predicate SameRefs(rows: Rows, rows': Rows) { rows'.Keys == rows.Keys && MediaKept(rows, rows') }

  lemma {:induction false} SkipFailedRefs(s: State, idx: int, now: int)
    ensures SameRefs(s.db.rows, SkipFailed(s, idx, now).db.rows)
    decreases |s.queue|
  {
    var next := Following(s.queue, idx);
    if next.Some? && MediaOf(s, next.value).Some? && MediaOf(s, next.value).value.status == MediaFailed {
      assert IndexOf(s.queue, next.value.id) >= 0;
      SkipFailedRefs(MarkPlayed(s, next.value.id, now), idx, now);
    }
  }

  lemma {:induction false} MarkAllRefs(s: State, ids: seq<ItemId>, now: int)
    ensures var t := MarkAll(s, ids, now);
      && SameRefs(s.db.rows, t.db.rows) && t.db.media == s.db.media && t.db.playback == s.db.playback && t.media == s.media
      && t.waiting == s.waiting && t.countdown == s.countdown
  {
    if ids != [] {
      MarkAllRefs(s, ids[..|ids| - 1], now);
    }
  }

  lemma DropRefs(s: State, now: int)
    requires s.clock.current.Some?
    ensures SameRefs(s.db.rows, Drop(s, now).db.rows)
  {
    var m := MarkPlayed(s, s.clock.current.value, now);
    assert SameRefs(s.db.rows, m.db.rows);
    SkipFailedRefs(m, IndexOf(s.queue, s.clock.current.value), now);
    RefsThrough(s.db.rows, m.db.rows, Drop(s, now).db.rows);
  }

  lemma RefsThrough(a: Rows, b: Rows, c: Rows)
    requires SameRefs(a, b) && SameRefs(b, c)
    ensures SameRefs(a, c)
  {
  }

  lemma LapRefs(s: State, order: seq<ItemId>)
    ensures SameRefs(s.db.rows, Lap(s, order).db.rows) && Fresh(Lap(s, order).media, s.db.media)
  {
    var r := s.(db := Requeued(s.db, order));
    var q := Reread(r, ItemsOf(r.db, order), []);
    RereadFresh(r, ItemsOf(r.db, order), []);
    VoteReorderKeepsRows(q);
  }

  lemma AdvancedRefs(s: State, order: seq<ItemId>, now: int)
    requires s.clock.current.Some? && Fresh(s.media, s.db.media)
    ensures var a := Advanced(s, order, now); SameRefs(s.db.rows, a.db.rows) && Fresh(a.media, s.db.media)
  {
    var d := Drop(s, now);
    DropRefs(s, now);
    AdvancedRows(s, order, now);
    AdvancedLapMedia(s, order, now);
    if Laps(d) {
      LapRefs(d, order);
      RefsThrough(s.db.rows, d.db.rows, Lap(d, order).db.rows);
    }
  }

  lemma AdvancedLapMedia(s: State, order: seq<ItemId>, now: int)
    requires s.clock.current.Some?
    ensures Advanced(s, order, now).media == if Laps(Drop(s, now)) then Lap(Drop(s, now), order).media else s.media
  {
  }

  // The lap of an empty room leads with an item that cannot play while a wait
  // or a countdown is still pending.
  ghost predicate LapsAtUnready(s: State, order: seq<ItemId>, now: int) {
    && s.clock.current.Some? && Pending(s) && Laps(Drop(s, now))
    && var l := Lap(Drop(s, now), order);
       l.queue != [] && l.viewers == map[] && !IsReady(MediaOf(l, l.queue[0]))
  }

  // Whatever waits beside the current item has failed.
  predicate RunsOut(s: State) {
    forall it :: it in s.queue && !IsCurrent(it, s.clock.current) ==> Failed(s.media, it)
  }

  // The room as it is before such a restart: it will loop, nobody is there,
  // something is pending, and what was played first cannot play yet.
  predicate StopsAtUnready(s: State, order: seq<ItemId>) {
    && s.clock.current.Some? && Pending(s) && s.viewers == map[]
    && s.settings.loop && !s.settings.voteMode && RunsOut(s)
    && order != [] && !ReadyRow(s.db, order[0])
  }

  // Stopping at the top leaves waits and countdowns pending.
  lemma TopModes(l: State, now: int, saved: bool)
    requires l.queue != [] && !(l.waiting.Some? && l.countdown.Some?)
    requires var t := Persist(StopAtTop(l, l.queue[0].id, now), now, saved); Cached(t) && Placed(t)
    ensures Modes(Persist(StopAtTop(l, l.queue[0].id, now), now, saved)) <==> (Pending(l) ==> IsReady(MediaOf(l, l.queue[0])))
  {
    var t := Persist(StopAtTop(l, l.queue[0].id, now), now, saved);
    assert IndexOf(t.queue, l.queue[0].id) == 0;
  }

  lemma QueuedRow(s: State, it: Item)
    requires Cached(s) && it in s.queue
    ensures it.id in s.db.rows && s.db.rows[it.id].media == it.media && HasId(s.queue, it.id)
  {
  }

  // The item that takes over in the queue.
  lemma TakenOverModes(s: State, d: State, next: Option<Item>, now: int, saved: bool)
    requires Modes(s) && Cached(d) && d.waiting == s.waiting && d.countdown == s.countdown
    requires next.Some? ==> next.value in d.queue
    requires var t := Persist(SetCurrent(d, next, now), now, saved); Cached(t) && Placed(t)
    ensures Modes(Persist(SetCurrent(d, next, now), now, saved))
  {
    if next.None? {
      StoppedModes(d, now, saved);
    } else {
      QueuedRow(d, next.value);
      SwitchedModes(d, next.value, now, saved);
    }
  }

  lemma LappedModes(s: State, l: State, now: int, saved: bool)
    requires Modes(s) && Cached(l) && l.waiting == s.waiting && l.countdown == s.countdown && l.queue != [] && l.viewers == map[]
    requires var t := Persist(StopAtTop(l, l.queue[0].id, now), now, saved); Cached(t) && Placed(t)
    ensures Modes(Persist(StopAtTop(l, l.queue[0].id, now), now, saved)) <==> (Pending(s) ==> IsReady(MediaOf(l, l.queue[0])))
  {
    TopModes(l, now, saved);
  }

  lemma AdvanceModes(s: State, order: seq<ItemId>, now: int, saved: bool)
    requires Cached(s) && Modes(s) && NextReady(s, order, now)
    requires Cached(Next(s, order, now, saved)) && Placed(Next(s, order, now, saved))
    ensures Modes(Next(s, order, now, saved)) <==> !LapsAtUnready(s, order, now)
  {
    if s.clock.current.Some? {
      var d := Drop(s, now);
      DropCached(s, now);
      if !Laps(d) {
        TakenOverModes(s, d, Following(d.queue, IndexOf(s.queue, s.clock.current.value)), now, saved);
      } else {
        LapCached(d, order);
        LapModes(s, d, order, now, saved);
      }
    }
  }

  lemma LapModes(s: State, d: State, order: seq<ItemId>, now: int, saved: bool)
    requires s.clock.current.Some? && d == Drop(s, now) && Laps(d) && Modes(s) && Cached(Lap(d, order))
    requires Cached(Next(s, order, now, saved)) && Placed(Next(s, order, now, saved))
    ensures Modes(Next(s, order, now, saved)) <==> !LapsAtUnready(s, order, now)
  {
    var l := Lap(d, order);
    if l.queue == [] {
      TakenOverModes(s, l, None, now, saved);
    } else if l.viewers == map[] {
      LappedModes(s, l, now, saved);
    } else {
      TakenOverModes(s, l, Some(l.queue[0]), now, saved);
    }
  }

  // When the queue runs out, told by the queue before the advance.
  lemma RunsOutExactly(s: State, now: int)
    requires Cached(s) && Placed(s) && s.clock.current.Some?
    ensures Laps(Drop(s, now)) <==> s.settings.loop && RunsOut(s)
  {
    hide Cached, Placed, Drop;
    DropRotates(s, now);
    var idx, r, d := IndexOf(s.queue, s.clock.current.value), Successors(s), Drop(s, now);
    SuccessorsAreOthers(s);
    FollowingLeadsRotation(d.queue, idx);
    assert d.queue == [] <==> LeadingFailed(s.media, r) == |r|;
    assert (forall it :: it in r ==> Failed(s.media, it)) <==> LeadingFailed(s.media, r) == |r|;
    NewestIsLong([s.queue[idx]] + r[..LeadingFailed(s.media, r)], now);
  }

  lemma SuccessorsAreOthers(s: State)
    requires Cached(s) && s.clock.current.Some? && IndexOf(s.queue, s.clock.current.value) >= 0
    ensures forall it :: it in Successors(s) <==> it in s.queue && !IsCurrent(it, s.clock.current)
  {
    var idx := IndexOf(s.queue, s.clock.current.value);
    var w := Without(s.queue, idx);
    RotationInside(s.queue, idx);
    FollowingLeadsRotation(w, idx);
    WithoutPermutes(s.queue, idx);
  }

  lemma NewestIsLong(gone: seq<Item>, now: int)
    ensures |NewestFirst(gone, now)| == |gone|
  {
  }

  // What was played first leads the lap, with its stored media.
  lemma LapHead(d: State, order: seq<ItemId>)
    requires Cached(d) && d.queue == [] && IsLap(d.db, order) && !d.settings.voteMode
    ensures var l := Lap(d, order);
      && (l.queue == [] <==> order == [])
      && (order != [] ==> (IsReady(MediaOf(l, l.queue[0])) <==> ReadyRow(d.db, order[0])))
  {
    LapItems(d.db, order);
    var db := Requeued(d.db, order);
    var q := ItemsOf(db, order);
    if order != [] {
      assert order[0] in order;
      assert q[0] in q && q[0].media == d.db.rows[order[0]].media;
    }
  }

  // In vote mode the finished item leads the lap, and it is ready if anything
  // is pending.
  lemma VoteLapHead(s: State, order: seq<ItemId>, now: int)
    requires Sound(s) && s.settings.voteMode && s.clock.current.Some? && Pending(s)
    requires Laps(Drop(s, now)) && IsLap(Drop(s, now).db, order)
    ensures var l := Lap(Drop(s, now), order); l.queue != [] && IsReady(MediaOf(l, l.queue[0]))
  {
    var d := Drop(s, now);
    DropCached(s, now);
    DroppedInHistory(s, now);
    LapLeads(d, order);
    LapCached(d, order);
    DropRefs(s, now);
    LapRefs(d, order);
    RefsThrough(s.db.rows, d.db.rows, Lap(d, order).db.rows);
    CurrentRow(s);
    LapHolds(d, order, s.clock.current.value);
    var l := Lap(d, order);
    assert l.queue[0] in l.queue && l.queue[0].media == CurrentItem(s).value.media;
  }

  // The media of what a lap queues is in the room as it is stored.
  lemma LapHolds(d: State, order: seq<ItemId>, id: ItemId)
    requires Cached(d) && d.queue == [] && IsLap(d.db, order) && id in order
    ensures var m, l := d.db.rows[id].media, Lap(d, order);
      m in d.db.media ==> m in l.media && l.media[m] == d.db.media[m]
  {
    hide VoteReorder, ItemsOf, IsLap;
    LapItems(d.db, order);
    var q := ItemsOf(Requeued(d.db, order), order);
    var i :| 0 <= i < |order| && order[i] == id;
    assert q[i] in q && q[i].media == d.db.rows[id].media;
  }

  lemma LapsAtUnreadyExactly(s: State, order: seq<ItemId>, now: int)
    requires Sound(s) && NextReady(s, order, now)
    ensures LapsAtUnready(s, order, now) <==> StopsAtUnready(s, order)
  {
    if s.clock.current.Some? && Pending(s) {
      RunsOutExactly(s, now);
      if Laps(Drop(s, now)) {
        DropCached(s, now);
        DropRefs(s, now);
        if s.settings.voteMode {
          VoteLapHead(s, order, now);
        } else {
          LapHead(Drop(s, now), order);
        }
      }
    }
  }

  // An advance keeps the modes unless it is that restart.
  lemma NextModes(s: State, order: seq<ItemId>, now: int, saved: bool)
    requires Sound(s) && NextReady(s, order, now)
    requires Cached(Next(s, order, now, saved)) && Placed(Next(s, order, now, saved))
    ensures Modes(Next(s, order, now, saved)) <==> !StopsAtUnready(s, order)
  {
    hide Modes, Cached, Placed, Synced, StopsAtUnready, LapsAtUnready;
    AdvanceModes(s, order, now, saved);
    LapsAtUnreadyExactly(s, order, now);
  }

  lemma NextSynced(s: State, order: seq<ItemId>, now: int, saved: bool)
    requires Synced(s) && Cached(Next(s, order, now, saved)) && Placed(Next(s, order, now, saved))
    requires var t := Next(s, order, now, saved); t.clock.playing ==> Current(t)
    ensures Synced(Next(s, order, now, saved))
  {
    if s.clock.current.Some? {
      AdvancedRefs(s, order, now);
      PersistSettles(s, Advanced(s, order, now), now, saved);
      SyncedFrom(s, Next(s, order, now, saved));
    }
  }

  lemma JumpedRefs(s: State, id: ItemId, now: int)
    ensures SameRefs(s.db.rows, JumpedFrom(s, id, now).db.rows)
  {
  }

  lemma JumpSound(s: State, id: ItemId, now: int, saved: bool)
    requires Sound(s) && Cached(DoJump(s, id, now, saved)) && Placed(DoJump(s, id, now, saved))
    ensures Sound(DoJump(s, id, now, saved))
  {
    var target := ItemById(s.queue, id);
    if target.Some? {
      var d := JumpedFrom(s, id, now);
      QueuedRow(s, target.value);
      JumpedRefs(s, id, now);
      SwitchedModes(d, target.value, now, saved);
      SyncedFrom(s, DoJump(s, id, now, saved));
    }
  }

  lemma EndSessionSound(s: State, now: int, saved: bool)
    requires Sound(s) && Cached(DoEndSession(s, now, saved)) && Placed(DoEndSession(s, now, saved))
    ensures Sound(DoEndSession(s, now, saved))
  {
    var m := MarkAll(s, Ids(s.queue), now);
    MarkAllRefs(s, Ids(s.queue), now);
    StoppedModes(m, now, saved);
    var t := DoEndSession(s, now, saved);
    SyncedFrom(s, t);
  }

  // The steps that break the modes.
  predicate StopsUnready(s: State, c: Cmd) {
    match c
    case Skip(order) => StopsAtUnready(s, order)
    case Remove(id, order) => RemovesCurrent(s, id) && StopsAtUnready(s, order)
    case SkipVote(user, order) => VotesOut(s, user) && StopsAtUnready(s, order)
    case Ended(t, order) => StillMeant(s, t) && StopsAtUnready(s, order)
    case _ => false
  }

  predicate LoadsOrphan(s: State, c: Cmd) { c.Load? && Orphaned(s.db) }

  lemma NextSound(s: State, order: seq<ItemId>, now: int, saved: bool)
    requires Sound(s) && NextReady(s, order, now)
    requires Cached(Next(s, order, now, saved)) && Placed(Next(s, order, now, saved))
    ensures Sound(Next(s, order, now, saved)) <==> !StopsAtUnready(s, order)
  {
    NextModes(s, order, now, saved);
    if !StopsAtUnready(s, order) {
      NextSynced(s, order, now, saved);
    }
  }

  lemma CountedSound(s: State, user: UserId)
    requires Sound(s)
    ensures Sound(SkipToggled(s, user))
  {
    SameCurrent(s, SkipToggled(s, user));
  }

  lemma SkipVoteSound(s: State, user: UserId, order: seq<ItemId>, now: int, saved: bool)
    requires Sound(s) && (VotesOut(s, user) ==> NextReady(SkipToggled(s, user), order, now))
    requires var t := DoSkipVote(s, user, order, now, saved); Cached(t) && Placed(t)
    ensures Sound(DoSkipVote(s, user, order, now, saved)) <==>
      !(VotesOut(s, user) && StopsAtUnready(s, order))
  {
    CountedSound(s, user);
    if VotesOut(s, user) {
      NextSound(SkipToggled(s, user), order, now, saved);
    }
  }

  lemma RemovedSound(s: State, id: ItemId, i: nat)
    requires Sound(s) && i == IndexOf(s.queue, id)
    requires var t := s.(db := Deleted(s.db, {id}), queue := Without(s.queue, i)); Cached(t) && Placed(t)
    ensures Sound(s.(db := Deleted(s.db, {id}), queue := Without(s.queue, i)))
  {
    ShrunkSound(s, {id}, s.(db := Deleted(s.db, {id}), queue := Without(s.queue, i)));
  }

  lemma RemoveSound(s: State, id: ItemId, order: seq<ItemId>, now: int, saved: bool)
    requires Sound(s) && (RemovesCurrent(s, id) ==> NextReady(s, order, now))
    requires Cached(DoRemove(s, id, order, now, saved)) && Placed(DoRemove(s, id, order, now, saved))
    ensures Sound(DoRemove(s, id, order, now, saved)) <==>
      !(RemovesCurrent(s, id) && StopsAtUnready(s, order))
  {
    var i := IndexOf(s.queue, id);
    if i >= 0 {
      if IsCurrentId(s, id) {
        NextSound(s, order, now, saved);
      } else {
        RemovedSound(s, id, i);
      }
    }
  }

  lemma AdvancingSound(s: State, c: Cmd, now: int, saved: bool)
    requires Sound(s) && Advances(c) && Enabled(s, c, now)
    requires Cached(DoAdvancing(s, c, now, saved)) && Placed(DoAdvancing(s, c, now, saved))
    ensures Sound(DoAdvancing(s, c, now, saved)) <==> !StopsUnready(s, c)
  {
    match c
    case Remove(id, order) => RemoveSound(s, id, order, now, saved);
    case Skip(order) => NextSound(s, order, now, saved);
    case Jump(id) => JumpSound(s, id, now, saved);
    case SkipVote(user, order) => SkipVoteSound(s, user, order, now, saved);
    case EndSession => EndSessionSound(s, now, saved);
    case Ended(t, order) =>
      if StillMeant(s, t) {
        NextSound(s, order, now, saved);
      }
  }

  // ---------------------------------------------------------------------
  // Loading
  // ---------------------------------------------------------------------

  lemma LoadSound(s: State, q: seq<Item>, h: seq<Item>, settings: Settings, scheduled: bool, now: int)
    requires Sound(s) && IsListing(s.db, q)
    requires var t := DoLoad(s, q, h, settings, scheduled, now); Cached(t) && Placed(t)
    ensures Sound(DoLoad(s, q, h, settings, scheduled, now)) <==> !Orphaned(s.db)
  {
    var t := DoLoad(s, q, h, settings, scheduled, now);
    RereadFresh(t, q, h);
    assert t.media == Reread(t, q, h).media && t.clock == Reopened(s.db, q);
    if t.clock.playing && t.clock.current.Some? {
      CurrentRow(t);
      assert CurrentItem(t).value in q;
    }
  }

  // ---------------------------------------------------------------------
  // Every step and every run
  // ---------------------------------------------------------------------

  lemma SoundMirrors(s: State, c: Cmd, now: int, saved: bool)
    requires Sound(s) && Enabled(s, c, now)
    ensures Cached(Do(s, c, now, saved)) && Placed(Do(s, c, now, saved))
  {
    PlacedIsUsed(s);
    StepCached(s, c, now, saved);
    StepPlaced(s, c, now, saved);
  }

  lemma OthersSound(s: State, c: Cmd, now: int, saved: bool)
    requires Sound(s) && Enabled(s, c, now) && !Advances(c) && !c.Load?
    ensures Sound(Do(s, c, now, saved))
  {
    SoundMirrors(s, c, now, saved);
    if LeavesQueue(c) {
      QuietSound(s, c, now, saved);
    } else if Adds(c) {
      AddingSound(s, c, now, saved);
    } else if Reorders(c) {
      ReorderingSound(s, c);
    } else {
      DeletingSound(s, c, now, saved);
    }
  }

  lemma AdvancesSound(s: State, c: Cmd, now: int, saved: bool)
    requires Sound(s) && Enabled(s, c, now) && Advances(c)
    ensures Sound(Do(s, c, now, saved)) <==> !StopsUnready(s, c)
  {
    hide Do, DoAdvancing, Enabled, Sound, StopsUnready;
    DoAdvancingIsDo(s, c, now, saved);
    SoundMirrors(s, c, now, saved);
    AdvancingSound(s, c, now, saved);
  }

  lemma LoadsSound(s: State, c: Cmd, now: int, saved: bool)
    requires Sound(s) && Enabled(s, c, now) && c.Load?
    ensures Sound(Do(s, c, now, saved)) <==> !LoadsOrphan(s, c)
  {
    SoundMirrors(s, c, now, saved);
    LoadSound(s, c.listing, c.history, c.settings, c.scheduled, now);
  }

  // The modes survive a step unless it restarts an empty room at an item that
  // is not ready while a start or a wait is pending, or loads an orphan.
  lemma StepModes(s: State, c: Cmd, now: int, saved: bool)
    requires Sound(s) && Enabled(s, c, now)
    ensures Sound(Do(s, c, now, saved)) <==> !StopsUnready(s, c) && !LoadsOrphan(s, c)
  {
    hide Do, Enabled, Sound;
    if Advances(c) {
      AdvancesSound(s, c, now, saved);
    } else if c.Load? {
      LoadsSound(s, c, now, saved);
    } else {
      OthersSound(s, c, now, saved);
    }
  }

  lemma LoopOffNeverStops(s: State, c: Cmd)
    requires !s.settings.loop
    ensures !StopsUnready(s, c)
  {
  }

  // No step of the run is one of those.
  ghost predicate KeepsModes(s: State, run: seq<Event>)
    requires IsRun(s, run)
    decreases |run|
  {
    run == [] || (!StopsUnready(s, run[0].cmd) && !LoadsOrphan(s, run[0].cmd)
                  && KeepsModes(Do(s, run[0].cmd, run[0].now, run[0].saved), run[1..]))
  }

  lemma {:induction false} RunSound(s: State, run: seq<Event>)
    requires Sound(s) && IsRun(s, run) && KeepsModes(s, run)
    ensures Sound(Final(s, run))
    decreases |run|
  {
    if run != [] {
      var e := run[0];
      StepModes(s, e.cmd, e.now, e.saved);
      RunSound(Do(s, e.cmd, e.now, e.saved), run[1..]);
    }
  }

  // Loop is off in every state of the run.
  ghost predicate LoopStaysOff(s: State, run: seq<Event>)
    requires IsRun(s, run)
    decreases |run|
  {
    !s.settings.loop && (run == [] || LoopStaysOff(Do(s, run[0].cmd, run[0].now, run[0].saved), run[1..]))
  }

  lemma {:induction false} LoopOffKeepsModes(s: State, run: seq<Event>)
    requires IsRun(s, run) && LoopStaysOff(s, run) && LoadsWhole(s, run)
    ensures KeepsModes(s, run)
    decreases |run|
  {
    if run != [] {
      LoopOffNeverStops(s, run[0].cmd);
      LoopOffKeepsModes(Do(s, run[0].cmd, run[0].now, run[0].saved), run[1..]);
    }
  }

  // ---------------------------------------------------------------------
  // With loop on, the modes do break
  // ---------------------------------------------------------------------

  const LOOPING := PLAIN.(loop := true)
  const SLOW := Item(2, 8, None, 1, 0, 0, Some(3))

  // A countdown to the only item; an item whose media still downloads is in
  // the history; nobody is connected any more.
  function CountingDown(): State {
    var c := C.Clock(Some(SOLE.id), false, 0, 0, C.NORMAL_RATE, 1);
    var media := map[SOLE.media := Media(MediaReady, 60000), SLOW.media := Media(MediaDownloading, 0)];
    var rows := map[SOLE.id := Row(SOLE.media, None, 1, 0, None), SLOW.id := Row(SLOW.media, None, 1, 0, Some(3))];
    State(Db(rows, {}, media, C.Saved(c), {SOLE.id, SLOW.id}), LOOPING, false, [SOLE], [SLOW], media, map[], c, {}, map[],
          None, Some(9), NO_TIMERS.(countdown := true), false, 0, false, {})
  }

  lemma CountingDownIsSound()
    ensures Sound(CountingDown())
  {
    var s := CountingDown();
    assert VotersIn(s.db.votes, SOLE.id) == {};
    assert SOLE in s.queue;
    assert forall id :: QueuedIn(s.db.rows, id) ==> id == SOLE.id;
    assert IndexOf(s.queue, SOLE.id) == 0;
  }

  const LAPPING := Event(Skip([SLOW.id, SOLE.id]), 5, true)
  const DOWNLOADED := Event(Ingest(SLOW.media, PLAYABLE), 7, true)
  const HEARD := Event(MediaUpdated(SLOW.media, PLAYABLE), 7, true)

  // The room after its restart, counting down to an item that cannot play.
  predicate CountsToUnready(s: State) {
    && s.queue != [] && s.queue[0].id == SLOW.id && s.queue[0].media == SLOW.media
    && SLOW.media in s.media && s.media[SLOW.media].status != MediaReady
    && SLOW.media in s.db.media && s.db.media[SLOW.media].status != MediaReady
    && s.clock.current == Some(SLOW.id) && !s.clock.playing && s.clock.positionMs == 0 && s.clock.positionAt == 5
    && s.countdown.Some?
  }

  lemma DropsSole() returns (d: State)
    ensures CountingDown().clock.current.Some? && d == Drop(CountingDown(), 5)
    ensures d.queue == [] && d.played != [] && d.settings == LOOPING && d.viewers == map[] && d.countdown.Some?
    ensures d.db == CountingDown().db.(rows := d.db.rows)
    ensures d.db.rows == CountingDown().db.rows[SOLE.id := Row(SOLE.media, None, 1, 0, Some(5))]
  {
    var s := CountingDown();
    assert IndexOf(s.queue, SOLE.id) == 0;
    assert Without(s.queue, 0) == [];
    d := MarkPlayed(s, SOLE.id, 5);
    assert SkipFailed(d, 0, 5) == d;
  }

  lemma RestartsAtSlow(d: State)
    requires d.queue == [] && d.settings == LOOPING && d.db == CountingDown().db.(rows := d.db.rows)
    requires d.db.rows == CountingDown().db.rows[SOLE.id := Row(SOLE.media, None, 1, 0, Some(5))]
    ensures IsLap(d.db, [SLOW.id, SOLE.id])
    ensures var l := Lap(d, [SLOW.id, SOLE.id]);
      && l.queue != [] && l.queue[0].id == SLOW.id && l.queue[0].media == SLOW.media
      && SLOW.media in l.media && l.media[SLOW.media].status != MediaReady
  {
    var order := [SLOW.id, SOLE.id];
    assert PlayedNoLater(d.db, order[0], order[1]);
    assert IsLap(d.db, order);
    assert IsListing(d.db, []);
    LapItems(d.db, order);
    var q := ItemsOf(Requeued(d.db, order), order);
    assert q[0].id == SLOW.id && q[0] in q;
  }

  lemma NextStops(s: State, d: State, order: seq<ItemId>, now: int, saved: bool)
    requires s.clock.current.Some? && d == Drop(s, now) && Laps(d) && Lap(d, order).queue != [] && d.viewers == map[]
    ensures Next(s, order, now, saved) == Persist(StopAtTop(Lap(d, order), Lap(d, order).queue[0].id, now), now, saved)
  {
  }

  lemma StopsCounting(l: State)
    requires l.queue != [] && l.queue[0].id == SLOW.id && l.queue[0].media == SLOW.media && l.countdown.Some?
    requires SLOW.media in l.media && l.media[SLOW.media].status != MediaReady
    requires SLOW.media in l.db.media && l.db.media[SLOW.media].status != MediaReady
    ensures CountsToUnready(Persist(StopAtTop(l, SLOW.id, 5), 5, true))
  {
  }

  ghost predicate AboutToLap(s: State, d: State) {
    && s.clock.current.Some? && s.clock.positionAt <= 5 && d == Drop(s, 5) && Laps(d) && d.viewers == map[] && d.countdown.Some?
    && IsLap(d.db, [SLOW.id, SOLE.id])
    && var l := Lap(d, [SLOW.id, SOLE.id]);
       && l.queue != [] && l.queue[0].id == SLOW.id && l.queue[0].media == SLOW.media
       && SLOW.media in l.media && l.media[SLOW.media].status != MediaReady
       && SLOW.media in l.db.media && l.db.media[SLOW.media].status != MediaReady
  }

  lemma LapsFrom(s: State, d: State)
    requires AboutToLap(s, d)
    ensures CountsToUnready(Next(s, [SLOW.id, SOLE.id], 5, true))
  {
    StopsCounting(Lap(d, [SLOW.id, SOLE.id]));
    NextStops(s, d, [SLOW.id, SOLE.id], 5, true);
  }

  lemma LappingEnabled(s: State, d: State)
    requires AboutToLap(s, d)
    ensures Enabled(s, LAPPING.cmd, LAPPING.now)
    ensures Do(s, LAPPING.cmd, LAPPING.now, LAPPING.saved) == Next(s, [SLOW.id, SOLE.id], 5, true)
  {
    SkipStep(s, [SLOW.id, SOLE.id], 5, true);
  }

  lemma SlowStarts(i: State)
    requires i.queue != [] && i.queue[0].id == SLOW.id && i.queue[0].media == SLOW.media && i.clock.current == Some(SLOW.id)
    requires SLOW.media in i.media && i.media[SLOW.media].status != MediaReady
    requires !i.clock.playing && i.clock.positionMs == 0 && i.countdown.Some?
    ensures var t := DoMediaUpdated(i, SLOW.media, PLAYABLE, 7, true); t.clock.playing && t.countdown.Some?
  {
    assert IndexOf(i.queue, SLOW.id) == 0;
  }

  lemma HearsOfSlow(s: State)
    requires CountsToUnready(s)
    ensures IsRun(s, [DOWNLOADED, HEARD])
    ensures var t := Final(s, [DOWNLOADED, HEARD]); t.clock.playing && t.countdown.Some?
  {
    var i := DoIngest(s, SLOW.media, PLAYABLE);
    SlowStarts(i);
    ReadySteps(s, SLOW.media, PLAYABLE, 7, true);
    RunOfTwo(s, DOWNLOADED, HEARD, i, DoMediaUpdated(i, SLOW.media, PLAYABLE, 7, true));
  }

  // Playing, and still counting down to a start.
  lemma ModesBreak()
    ensures Sound(CountingDown()) && IsRun(CountingDown(), [LAPPING] + [DOWNLOADED, HEARD])
    ensures var t := Final(CountingDown(), [LAPPING] + [DOWNLOADED, HEARD]); t.clock.playing && t.countdown.Some?
  {
    CountingDownIsSound();
    var d := DropsSole();
    RestartsAtSlow(d);
    LapsFrom(CountingDown(), d);
    LappingEnabled(CountingDown(), d);
    var t := Next(CountingDown(), [SLOW.id, SOLE.id], 5, true);
    HearsOfSlow(t);
    RunOne(CountingDown(), LAPPING, [DOWNLOADED, HEARD], t);
  }
}
