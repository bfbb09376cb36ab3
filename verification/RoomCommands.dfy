// Every command, timer callback and outside event of a room as a step.
module RoomCommands {
  import opened Base
  import opened Moves
  import opened Store
  import opened RoomSpec
  import C = Clock

  // A link of a playlist import: its media and the id and creation time its
  // row gets if it is added.
  datatype Link = Link(media: MediaId, id: ItemId, created: int)

  // order: the history in playing order, for a step that may restart the
  // queue; listing and history: what the queries return, for a step that
  // re-reads the queue.
  datatype Cmd =
    | Add(link: Link, adder: Option<UserId>, next: bool, force: bool)
    | AddMany(links: seq<Link>, adder: Option<UserId>, next: bool)
    | Replay(source: ItemId, adder: Option<UserId>, id: ItemId, created: int)
    | Remove(id: ItemId, order: seq<ItemId>)
    | Move(id: ItemId, after: Option<ItemId>)
    | Shuffle(rest: seq<Item>)
    | Clear
    | ClearPlayed
    | RetryItem(id: ItemId)
    | Play(counted: bool)
    | Pause
    | Seek(position: int)
    | SetRate(rate: int)
    | Skip(order: seq<ItemId>)
    | Jump(id: ItemId)
    | Vote(user: UserId, id: ItemId)
    | SkipVote(user: UserId, order: seq<ItemId>)
    | Set(settings: Settings, pauseTouched: bool)
    | EndSession
    | Join(conn: ConnId, who: Option<UserId>)
    | Leave(conn: ConnId)
    | Kick(user: UserId)
    | Report(conn: ConnId, buffering: bool)
    // timer callbacks
    | Ended(timer: Advance, order: seq<ItemId>)
    | EndCountdown
    | EmptyPause
    | StartWaiting
    | StopWaiting
    | Tick(every: int)
    // outside the room
    | Ingest(media: MediaId, row: Media)
    | MediaUpdated(media: MediaId, row: Media)
    | MediaDeleted(gone: set<MediaId>, listing: seq<Item>, history: seq<Item>)
    | Purge(ids: set<ItemId>)
    | Close
    | Load(listing: seq<Item>, history: seq<Item>, settings: Settings, scheduled: bool)

  // ---------------------------------------------------------------------
  // Adding
  // ---------------------------------------------------------------------

  function StoredMedia(db: Db, m: MediaId): Media {
    if m in db.media then db.media[m] else Media(MediaQueued, 0)
  }

  // The row a link gets, in the media table and in the queue.
  ghost function InsertLink(db: Db, l: Link, user: Option<UserId>): Db {
    Inserted(db.(media := db.media[l.media := StoredMedia(db, l.media)]), l.id, l.media, user, l.created)
  }

  ghost function NewItem(db: Db, l: Link, user: Option<UserId>): Item {
    Item(l.id, l.media, user, TopRank(db.rows) + 1, 0, l.created, None)
  }

  predicate Holds(s: State, m: MediaId) {
    (exists it :: it in s.queue && it.media == m) || (exists it :: it in s.played && it.media == m)
  }

  // An item that was just added becomes current when nothing is.
  function StartIfIdle(s: State, it: Item, now: int, saved: bool): (r: State)
    ensures SameQueue(s, r) && Settled(s, r) && KeepsTime(s, r, now)
  {
    if s.clock.current.None? then Persist(SetCurrent(s, Some(it), now), now, saved) else s
  }

  predicate AddAccepted(s: State, l: Link, force: bool) {
    !s.closed && |s.queue| + 1 <= QUEUE_LIMIT && (force || !Holds(s, l.media))
  }

  // The new item at the end of the queue, in memory and in the store.
  ghost function Appended(s: State, l: Link, user: Option<UserId>): State {
    s.(db := InsertLink(s.db, l, user),
       queue := s.queue + [NewItem(s.db, l, user)],
       media := s.media[l.media := StoredMedia(s.db, l.media)])
  }

  // Moving the last item right behind the current one.
  function PlaceNext(s: State): State
    requires s.queue != []
  {
    var o := PlaceAfter(s.queue, |s.queue| - 1, s.clock.current, s.clock.current);
    if o.None? then s else ApplyOrder(s, o.value)
  }

  // a, with the item behind the current one when it is asked for.
  ghost function AddedAt(a: State, next: bool): State {
    if next && !OrderedByRule(a) && a.clock.current.Some? && |a.queue| > 1 then PlaceNext(a) else a
  }

  ghost function DoAdd(s: State, l: Link, user: Option<UserId>, next: bool, force: bool, now: int, saved: bool): State {
    if !AddAccepted(s, l, force) then s
    else
      StartIfIdle(FairReorder(AddedAt(Appended(s, l, user), next)), NewItem(s.db, l, user), now, saved)
  }

  // The links a bulk add takes: those not held or seen yet, up to the limit.
  function Taken(links: seq<Link>, seen: set<MediaId>, room: int): seq<Link> {
    if links == [] then []
    else
      var front := Taken(links[..|links| - 1], seen, room);
      var l := links[|links| - 1];
      if |front| >= room || l.media in seen || (exists x :: x in front && x.media == l.media) then front else front + [l]
  }

  ghost function InsertLinks(db: Db, ls: seq<Link>, user: Option<UserId>): Db {
    if ls == [] then db else InsertLink(InsertLinks(db, ls[..|ls| - 1], user), ls[|ls| - 1], user)
  }

  ghost function NewItems(db: Db, ls: seq<Link>, user: Option<UserId>): (r: seq<Item>)
    ensures |r| == |ls|
  {
    if ls == [] then []
    else NewItems(db, ls[..|ls| - 1], user) + [NewItem(InsertLinks(db, ls[..|ls| - 1], user), ls[|ls| - 1], user)]
  }

  function WithMedia(media: map<MediaId, Media>, db: Db, ls: seq<Link>): map<MediaId, Media> {
    if ls == [] then media
    else WithMedia(media, db, ls[..|ls| - 1])[ls[|ls| - 1].media := StoredMedia(db, ls[|ls| - 1].media)]
  }

  function HeldMedia(s: State): set<MediaId> { MediaIds(s.queue) + MediaIds(s.played) }

  // The room after a bulk add, before it takes turns.
  ghost function AddedMany(s: State, taken: seq<Link>, user: Option<UserId>, next: bool): State {
    var added := NewItems(s.db, taken, user);
    var a := s.(db := InsertLinks(s.db, taken, user), media := WithMedia(s.media, s.db, taken));
    if next && !OrderedByRule(a) && a.clock.current.Some?
    then ApplyOrder(a, BatchAfterCurrent(a.queue, added, a.clock.current))
    else a.(queue := a.queue + added)
  }

  ghost function DoAddMany(s: State, links: seq<Link>, user: Option<UserId>, next: bool, now: int, saved: bool): State {
    var taken := Taken(links, HeldMedia(s), QUEUE_LIMIT - |s.queue|);
    if s.closed || |s.queue| > QUEUE_LIMIT || taken == [] then s
    else StartIfIdle(FairReorder(AddedMany(s, taken, user, next)), NewItems(s.db, taken, user)[0], now, saved)
  }

  // An item of the history at the end of the queue, as a new row.
  ghost function Requeue(s: State, l: Link, user: Option<UserId>): State {
    s.(db := InsertLink(s.db, l, user), queue := s.queue + [NewItem(s.db, l, user)])
  }

  ghost function DoReplay(s: State, source: ItemId, user: Option<UserId>, id: ItemId, created: int, now: int, saved: bool): State {
    var src := ItemById(s.played, source);
    if src.None? || |s.queue| >= QUEUE_LIMIT || src.value.media !in s.db.media then s
    else
      var l := Link(src.value.media, id, created);
      StartIfIdle(FairReorder(Requeue(s, l, user)), NewItem(s.db, l, user), now, saved)
  }

  // ---------------------------------------------------------------------
  // The rest of the queue commands
  // ---------------------------------------------------------------------

  predicate RemovesCurrent(s: State, id: ItemId) { IndexOf(s.queue, id) >= 0 && IsCurrentId(s, id) }

  ghost function DoRemove(s: State, id: ItemId, order: seq<ItemId>, now: int, saved: bool): State {
    var i := IndexOf(s.queue, id);
    if i < 0 then s
    else if IsCurrentId(s, id) then Next(s, order, now, saved)
    else s.(db := Deleted(s.db, {id}), queue := Without(s.queue, i))
  }

  function DoMove(s: State, id: ItemId, after: Option<ItemId>): (r: State)
    ensures SamePlayback(s, r)
  {
    var i := IndexOf(s.queue, id);
    if OrderedByRule(s) || i < 0 || IsCurrentId(s, id) then s
    else
      var o := PlaceAfter(s.queue, i, after, s.clock.current);
      if o.None? then s else ApplyOrder(s, o.value)
  }

  // What a shuffle leaves in place at the head.
  function Pinned(s: State): nat {
    if s.queue != [] && IsCurrentId(s, s.queue[0].id) then 1 else 0
  }

  function DoShuffle(s: State, rest: seq<Item>): (r: State)
    ensures SamePlayback(s, r)
  {
    if OrderedByRule(s) || |s.queue| - Pinned(s) < 2 then s
    else ApplyOrder(s, s.queue[..Pinned(s)] + rest)
  }

  function DoClear(s: State): State {
    var gone := set id | id in s.db.rows && Queued(s.db, id) && !IsCurrentId(s, id);
    s.(db := Deleted(s.db, gone), queue := match CurrentItem(s) case None => [] case Some(it) => [it])
  }

  function DoClearPlayed(s: State): State {
    s.(db := Deleted(s.db, History(s.db)), played := [])
  }

  // Re-queuing the ingest of a failed media item.
  function DoRetry(s: State, id: ItemId): (r: State)
    ensures SameQueue(s, r) && SameItem(s, r) && Settled(s, r) && Untouched(s, r)
    ensures r.unsaved == s.unsaved
  {
    var it := ItemById(s.queue, id);
    if it.None? || MediaOf(s, it.value).None? || MediaOf(s, it.value).value.status != MediaFailed then s
    else
      var m := it.value.media;
      s.(media := s.media[m := s.media[m].(status := MediaQueued)],
         db := if m in s.db.media then s.db.(media := s.db.media[m := s.db.media[m].(status := MediaQueued)]) else s.db)
  }

  // ---------------------------------------------------------------------
  // Playback
  // ---------------------------------------------------------------------

  // The clock restarted and was saved, as far as it could be.
  ghost predicate Restarted(s: State, r: State, now: int) {
    && SameQueue(s, r) && Rearmed(s, r, now) && r.clock.current == s.clock.current && r.settings == s.settings
    && (r.db.playback == C.Saved(r.clock) || (r.unsaved && r.db.playback == s.db.playback))
  }

  function Restart(s: State, playing: bool, position: int, now: int, saved: bool): (r: State)
    ensures Restarted(s, r, now) && r.clock.playing == playing && r.unsaved == !saved
  {
    Persist(SetPlayback(s, playing, position, now), now, saved)
  }

  function Start(s: State, now: int, saved: bool): (r: State)
    ensures Restarted(s, r, now) && r.clock.playing && r.unsaved == !saved
  {
    Restart(s, true, C.StartFrom(s.clock.positionMs, Duration(s)), now, saved)
  }

  function Freeze(s: State, now: int, saved: bool): (r: State)
    ensures Restarted(s, r, now) && !r.clock.playing && r.unsaved == !saved
  {
    Restart(s, false, PositionAt(s, now), now, saved)
  }

  function DoPlay(s: State, counted: bool, now: int, saved: bool): (r: State)
    ensures SameQueue(s, r) && SameItem(s, r) && Settled(s, r) && KeepsTime(s, r, now)
    ensures saved && !s.unsaved ==> !r.unsaved
  {
    if !IsReady(CurrentMedia(s)) then s
    else
      var w := LeaveWait(s);
      if w.clock.playing then w
      else if (counted || w.scheduled) && w.countdown.None?
      then w.(countdown := Some(now + COUNTDOWN), timers := w.timers.(countdown := true))
      else Start(CancelCountdown(w), now, saved)
  }

  function DoEndCountdown(s: State, now: int, saved: bool): (r: State)
    ensures SameQueue(s, r) && SameItem(s, r) && Settled(s, r) && KeepsTime(s, r, now)
    ensures saved && !s.unsaved ==> !r.unsaved
  {
    if s.closed || s.countdown.None? then s
    else
      var c := CancelCountdown(s);
      if !IsReady(CurrentMedia(c)) || c.clock.playing then c else Start(c, now, saved)
  }

  function DoPause(s: State, now: int, saved: bool): (r: State)
    ensures SameQueue(s, r) && SameItem(s, r) && Settled(s, r) && KeepsTime(s, r, now)
    ensures saved && !s.unsaved ==> !r.unsaved
  {
    if s.clock.current.None? then s
    else
      var w := CancelCountdown(LeaveWait(s));
      if !w.clock.playing then w else Freeze(w, now, saved)
  }

  function DoSeek(s: State, position: int, now: int, saved: bool): (r: State)
    ensures SameQueue(s, r) && SameItem(s, r) && Settled(s, r) && KeepsTime(s, r, now)
    ensures saved && !s.unsaved ==> !r.unsaved
  {
    var m := CurrentMedia(s);
    if m.None? then s
    else Restart(s, s.clock.playing && IsReady(m), C.ClampSeek(position, m.value.duration), now, saved)
  }

  function DoSetRate(s: State, rate: int, now: int, saved: bool): (r: State)
    ensures SameQueue(s, r) && SameItem(s, r) && Settled(s, r) && KeepsTime(s, r, now)
    ensures saved && !s.unsaved ==> !r.unsaved
  {
    if s.clock.current.None? || rate !in C.ALLOWED_RATES || rate == s.clock.rate then s
    else
      var pos := PositionAt(s, now);
      Restart(s.(clock := s.clock.(rate := rate)), s.clock.playing, pos, now, saved)
  }

  // What a jump leaves behind: the outgoing item goes to the history.
  function JumpedFrom(s: State, id: ItemId, now: int): (r: State)
    ensures r == s.(db := s.db.(rows := r.db.rows), queue := r.queue, played := r.played)
    ensures |s.played| <= HISTORY_KEPT ==> |r.played| <= HISTORY_KEPT
  {
    if s.clock.current.Some? && !IsCurrentId(s, id) then MarkPlayed(s, s.clock.current.value, now) else s
  }

  function DoJump(s: State, id: ItemId, now: int, saved: bool): State {
    var target := ItemById(s.queue, id);
    if target.None? then s else Persist(SetCurrent(JumpedFrom(s, id, now), target, now), now, saved)
  }

  // A callback acts only for the item and clock version it was armed for.
  predicate StillMeant(s: State, t: Advance) {
    !s.closed && IsCurrentId(s, t.item) && s.clock.version == t.version && s.clock.playing
  }

  ghost function DoEnded(s: State, t: Advance, order: seq<ItemId>, now: int, saved: bool): State {
    if StillMeant(s, t) then Next(s, order, now, saved) else s
  }

  function DoEmptyPause(s: State, now: int, saved: bool): (r: State)
    ensures SameQueue(s, r) && SameItem(s, r) && Settled(s, r) && KeepsTime(s, r, now)
    ensures saved && !s.unsaved ==> !r.unsaved
  {
    if s.closed then s
    else
      var e := s.(timers := s.timers.(empty := false));
      if !e.settings.pauseWhenEmpty || !e.clock.playing || e.viewers != map[] then e else Freeze(e, now, saved)
  }

  // ---------------------------------------------------------------------
  // Votes and settings
  // ---------------------------------------------------------------------

  predicate VoteAccepted(s: State, id: ItemId) {
    s.settings.voteMode && IndexOf(s.queue, id) >= 0 && !IsCurrentId(s, id)
  }

  // The toggled vote in the store, in the item's count and in the flags.
  function Toggled(s: State, user: UserId, id: ItemId): State
    requires IndexOf(s.queue, id) >= 0
  {
    var i := IndexOf(s.queue, id);
    var it := s.queue[i];
    var mine := if user in s.votes then s.votes[user] else {};
    var db := Voted(s.db, id, user);
    if (id, user) in db.votes
    then s.(db := db, queue := s.queue[i := it.(votes := it.votes + 1)], votes := s.votes[user := mine + {id}])
    else s.(db := db, queue := s.queue[i := it.(votes := if it.votes > 0 then it.votes - 1 else 0)],
            votes := if user in s.votes then s.votes[user := mine - {id}] else s.votes)
  }

  function DoVote(s: State, user: UserId, id: ItemId): (r: State)
    ensures SamePlayback(s, r)
  {
    if !VoteAccepted(s, id) then s else VoteReorder(Toggled(s, user, id))
  }

  function SkipToggled(s: State, user: UserId): State {
    s.(skipVotes := if user in s.skipVotes then s.skipVotes - {user} else s.skipVotes + {user})
  }

  // This vote is the one that ends the current item.
  predicate VotesOut(s: State, user: UserId) {
    s.settings.voteMode && s.clock.current.Some? && |SkipToggled(s, user).skipVotes| >= SkipNeeded(SkipToggled(s, user))
  }

  ghost function DoSkipVote(s: State, user: UserId, order: seq<ItemId>, now: int, saved: bool): State {
    if !s.settings.voteMode || s.clock.current.None? then s
    else if VotesOut(s, user) then Next(SkipToggled(s, user), order, now, saved)
    else SkipToggled(s, user)
  }

  function DoSet(s: State, settings: Settings, pauseTouched: bool): (r: State)
    ensures SamePlayback(s, r)
  {
    if !(0.0 < settings.skipThreshold <= 1.0) then s
    else
      var s := if pauseTouched && !settings.pauseWhenEmpty then s.(timers := s.timers.(empty := false)) else s;
      var s := s.(settings := settings);
      if settings.voteMode then VoteReorder(s) else FairReorder(s.(skipVotes := {}))
  }

  // ---------------------------------------------------------------------
  // Presence
  // ---------------------------------------------------------------------

  function CheckBuffering(s: State, now: int, saved: bool): (r: State)
    ensures SameQueue(s, r) && SameItem(s, r) && Settled(s, r) && KeepsTime(s, r, now)
    ensures saved && !s.unsaved ==> !r.unsaved
  {
    var stuck := Stuck(s);
    if s.waiting.Some? then (if stuck == {} then Resume(s, now, saved) else s.(waiting := Some(stuck)))
    else s.(timers := s.timers.(buffer := s.settings.waitForBuffering && s.clock.playing && stuck != {}))
  }

  function DoJoin(s: State, conn: ConnId, user: Option<UserId>): (r: State)
    ensures SameQueue(s, r) && SameItem(s, r) && Settled(s, r) && Untouched(s, r)
    ensures r.unsaved == s.unsaved
  {
    s.(timers := s.timers.(empty := false), viewers := s.viewers[conn := Viewer(user, false, false)])
  }

  function DoLeave(s: State, conn: ConnId, now: int, saved: bool): (r: State)
    ensures SameQueue(s, r) && SameItem(s, r) && Settled(s, r) && KeepsTime(s, r, now)
    ensures saved && !s.unsaved ==> !r.unsaved
  {
    if conn !in s.viewers then s
    else CheckBuffering(ArmEmptyPause(s.(viewers := s.viewers - {conn})), now, saved)
  }

  function DoKick(s: State, user: UserId): (r: State)
    ensures SameQueue(s, r) && SameItem(s, r) && Settled(s, r) && Untouched(s, r)
    ensures r.unsaved == s.unsaved
  {
    ArmEmptyPause(s.(viewers := map c | c in s.viewers && s.viewers[c].user != Some(user) :: s.viewers[c]))
  }

  function DoReport(s: State, conn: ConnId, buffering: bool, now: int, saved: bool): (r: State)
    ensures SameQueue(s, r) && SameItem(s, r) && Settled(s, r) && KeepsTime(s, r, now)
    ensures saved && !s.unsaved ==> !r.unsaved
  {
    if conn !in s.viewers || s.viewers[conn].buffering == buffering then s
    else
      var v := s.viewers[conn];
      CheckBuffering(s.(viewers := s.viewers[conn := v.(buffering := buffering, ignored := v.ignored && buffering)]), now, saved)
  }

  function DoStartWaiting(s: State, now: int, saved: bool): (r: State)
    ensures SameQueue(s, r) && SameItem(s, r) && Settled(s, r) && KeepsTime(s, r, now)
    ensures saved && !s.unsaved ==> !r.unsaved
  {
    if s.closed then s
    else
      var b := s.(timers := s.timers.(buffer := false));
      if !b.settings.waitForBuffering || !b.clock.playing || Stuck(b) == {} || b.waiting.Some? then b
      else
        var w := SetPlayback(b.(waiting := Some(Stuck(b))), false, PositionAt(b, now), now);
        Persist(w.(timers := w.timers.(wait := true)), now, saved)
  }

  function IgnoreBuffering(vs: map<ConnId, Viewer>): map<ConnId, Viewer> {
    map c | c in vs :: vs[c].(ignored := vs[c].ignored || vs[c].buffering)
  }

  // The room stops waiting for whoever is still buffering.
  function LeaveBehind(s: State): (r: State)
    ensures r == s.(timers := r.timers, viewers := r.viewers)
    ensures r.timers == s.timers.(wait := false)
  {
    s.(timers := s.timers.(wait := false), viewers := IgnoreBuffering(s.viewers))
  }

  lemma AfterLeavingBehind(s: State, r: State, now: int)
    requires var w := LeaveBehind(s); SameQueue(w, r) && SameItem(w, r) && Settled(w, r) && KeepsTime(w, r, now)
    requires !s.closed
    ensures SameQueue(s, r) && SameItem(s, r) && Settled(s, r) && KeepsTime(s, r, now)
  {
    hide IgnoreBuffering, NextAdvance;
  }

  function DoStopWaiting(s: State, now: int, saved: bool): (r: State)
    ensures SameQueue(s, r) && SameItem(s, r) && Settled(s, r) && KeepsTime(s, r, now)
    ensures saved && !s.unsaved ==> !r.unsaved
  {
    if s.closed then s
    else if s.waiting.None? then s.(timers := s.timers.(wait := false))
    else
      var r := Resume(LeaveBehind(s), now, saved);
      AfterLeavingBehind(s, r, now);
      r
  }

  // ---------------------------------------------------------------------
  // Sessions, media and the store
  // ---------------------------------------------------------------------

  function MarkAll(s: State, ids: seq<ItemId>, now: int): State {
    if ids == [] then s else MarkPlayed(MarkAll(s, ids[..|ids| - 1], now), ids[|ids| - 1], now)
  }

  function DoEndSession(s: State, now: int, saved: bool): State {
    Persist(SetCurrent(MarkAll(s, Ids(s.queue), now), None, now), now, saved).(viewers := map[])
  }

  function DoTick(s: State, every: int, now: int, saved: bool): (r: State)
    ensures SameQueue(s, r) && SameItem(s, r) && Settled(s, r) && KeepsTime(s, r, now)
    ensures saved && !s.unsaved ==> !r.unsaved
  {
    if s.unsaved || (s.clock.playing && now - s.lastPersist >= every) then Persist(s, now, saved) else s
  }

  // Whether the manager may drop the room after this tick, as far as the
  // playback state is concerned.
  predicate Idle(s: State) { !s.unsaved && !s.clock.playing && s.viewers == map[] }

  // The current item's media just became playable.
  predicate StartsNow(s: State, media: MediaId, row: Media) {
    && media in s.media
    && CurrentItem(s).Some? && CurrentItem(s).value.media == media
    && row.status == MediaReady && s.media[media].status != MediaReady
    && !s.clock.playing && s.clock.positionMs == 0
  }

  function DoMediaUpdated(s: State, media: MediaId, row: Media, now: int, saved: bool): (r: State)
    ensures SameQueue(s, r) && SameItem(s, r) && Settled(s, r) && KeepsTime(s, r, now)
    ensures saved && !s.unsaved ==> !r.unsaved
  {
    if media !in s.media then s
    else
      var u := s.(media := s.media[media := row]);
      if StartsNow(s, media, row) then Restart(u, true, 0, now, saved) else u
  }

  function DoIngest(s: State, media: MediaId, row: Media): (r: State)
    ensures SameQueue(s, r) && SameItem(s, r) && Settled(s, r) && Untouched(s, r)
    ensures r.unsaved == s.unsaved
  {
    if media in s.db.media then s.(db := s.db.(media := s.db.media[media := row])) else s
  }

  // The rows of deleted media go with it.
  function WithoutMedia(db: Db, gone: set<MediaId>): Db {
    Deleted(db, set id | id in db.rows && db.rows[id].media in gone).(media := db.media - gone)
  }

  function RereadWithout(s: State, gone: set<MediaId>, listing: seq<Item>, history: seq<Item>): (r: State)
    ensures r == s.(db := WithoutMedia(s.db, gone), queue := listing, played := history, media := r.media, votes := r.votes)
  {
    Reread(s.(db := WithoutMedia(s.db, gone)), listing, history)
  }

  // A current item that is gone gives way to the head of the queue.
  function Rehomed(r: State, now: int, saved: bool): State {
    if r.clock.current.Some? && CurrentItem(r).None?
    then Persist(SetCurrent(r, if r.queue == [] then None else Some(r.queue[0]), now), now, saved)
    else r
  }

  function DoMediaDeleted(s: State, gone: set<MediaId>, listing: seq<Item>, history: seq<Item>, now: int, saved: bool): State {
    Rehomed(RereadWithout(s, gone, listing, history), now, saved)
  }

  function DoPurge(s: State, ids: set<ItemId>): State { s.(db := Deleted(s.db, ids)) }

  function DoClose(s: State, now: int, saved: bool): (r: State)
    ensures SameQueue(s, r) && SameItem(s, r) && Settled(s, r) && KeepsTime(s, r, now)
    ensures saved && !s.unsaved ==> !r.unsaved
  {
    s.(closed := true, timers := NO_TIMERS, lastPersist := now, scheduled := s.scheduled && !s.clock.playing,
       db := if saved then s.db.(playback := C.Saved(s.clock)) else s.db)
  }

  // The clock a room loaded from this store starts with.
  function Reopened(db: Db, listing: seq<Item>): C.Clock {
    var c := C.Restored(db.playback);
    if c.current.Some? && IndexOf(listing, c.current.value) < 0
    then c.(current := None, playing := false, positionMs := 0)
    else c
  }

  // A fresh room over the store as the last one left it, however it ended.
  function Opened(db: Db, listing: seq<Item>, history: seq<Item>, settings: Settings, scheduled: bool, now: int): State {
    var r := State(db, settings, scheduled, [], [], map[], map[], Reopened(db, listing),
                   {}, map[], None, None, NO_TIMERS, false, 0, false, {});
    ArmEmptyPause(ScheduleAdvance(Reread(r, listing, history), now))
  }

  function DoLoad(s: State, listing: seq<Item>, history: seq<Item>, settings: Settings, scheduled: bool, now: int): State {
    Opened(s.db, listing, history, settings, scheduled, now)
  }

  // ---------------------------------------------------------------------
  // Steps and runs
  // ---------------------------------------------------------------------

  // A step that may restart the queue is given the history in order.
  ghost predicate NextReady(s: State, order: seq<ItemId>, now: int) {
    s.clock.current.Some? && Laps(Drop(s, now)) ==> IsLap(Drop(s, now).db, order)
  }

  ghost predicate FreshLink(db: Db, l: Link) {
    l.id !in db.used && forall id :: id in db.rows ==> db.rows[id].createdAt <= l.created
  }

  // What the outside world guarantees: time and creation times do not go
  // back, ids are fresh, a callback runs no earlier than its timer is due,
  // queries return what is stored (the settings among it, which only the room
  // writes), and ready media stays as it is.
  ghost predicate Enabled(s: State, c: Cmd, now: int) {
    && s.clock.positionAt <= now
    && match c
       case Add(l, _, _, _) => FreshLink(s.db, l)
       case AddMany(ls, _, _) =>
         && (forall l :: l in ls ==> FreshLink(s.db, l))
         && (forall i, j :: 0 <= i < j < |ls| ==> ls[i].id != ls[j].id && ls[i].created <= ls[j].created)
       case Replay(_, _, id, created) => FreshLink(s.db, Link(0, id, created))
       case Remove(id, order) => RemovesCurrent(s, id) ==> NextReady(s, order, now)
       case Shuffle(rest) => multiset(rest) == multiset(s.queue[Pinned(s)..])
       case RetryItem(id) =>
         var it := ItemById(s.queue, id);
         it.Some? && it.value.media in s.db.media ==> s.db.media[it.value.media].status != MediaReady
       case Skip(order) => NextReady(s, order, now)
       case SkipVote(user, order) => VotesOut(s, user) ==> NextReady(SkipToggled(s, user), order, now)
       case Ended(t, order) => t in s.armed && t.due <= now && (StillMeant(s, t) ==> NextReady(s, order, now))
       case Ingest(m, row) => m in s.db.media && s.db.media[m].status == MediaReady ==> row == s.db.media[m]
       case MediaUpdated(m, row) =>
         && (row.status == MediaReady ==> m in s.db.media && s.db.media[m] == row)
         && (m in s.media && s.media[m].status == MediaReady ==> row == s.media[m])
       case MediaDeleted(gone, q, h) =>
         IsListing(WithoutMedia(s.db, gone), q) && IsHistory(WithoutMedia(s.db, gone), h)
       case Purge(ids) => forall id :: id in ids ==> InHistory(s.db, id)
       case Load(q, h, settings, _) => IsListing(s.db, q) && IsHistory(s.db, h) && settings == s.settings
       case _ => true
  }

  // Commands, callbacks and events that only move the clock, the timers, the
  // viewers or the media rows.
  predicate LeavesQueue(c: Cmd) {
    c.Play? || c.Pause? || c.Seek? || c.SetRate? || c.EndCountdown? || c.EmptyPause? || c.StartWaiting? || c.StopWaiting?
    || c.Join? || c.Leave? || c.Kick? || c.Report? || c.Tick? || c.Ingest? || c.MediaUpdated? || c.RetryItem? || c.Close?
  }

  function DoQuietly(s: State, c: Cmd, now: int, saved: bool): (r: State)
    requires LeavesQueue(c)
    ensures SameQueue(s, r) && SameItem(s, r) && Settled(s, r) && KeepsTime(s, r, now)
    ensures saved && !s.unsaved ==> !r.unsaved
  {
    match c
    case RetryItem(id) => DoRetry(s, id)
    case Play(counted) => DoPlay(s, counted, now, saved)
    case Pause => DoPause(s, now, saved)
    case Seek(position) => DoSeek(s, position, now, saved)
    case SetRate(rate) => DoSetRate(s, rate, now, saved)
    case Join(conn, user) => DoJoin(s, conn, user)
    case Leave(conn) => DoLeave(s, conn, now, saved)
    case Kick(user) => DoKick(s, user)
    case Report(conn, buffering) => DoReport(s, conn, buffering, now, saved)
    case EndCountdown => DoEndCountdown(s, now, saved)
    case EmptyPause => DoEmptyPause(s, now, saved)
    case StartWaiting => DoStartWaiting(s, now, saved)
    case StopWaiting => DoStopWaiting(s, now, saved)
    case Tick(every) => DoTick(s, every, now, saved)
    case Ingest(m, row) => DoIngest(s, m, row)
    case MediaUpdated(m, row) => DoMediaUpdated(s, m, row, now, saved)
    case Close => DoClose(s, now, saved)
  }

  // Commands that add items.
  predicate Adds(c: Cmd) { c.Add? || c.AddMany? || c.Replay? }

  ghost function DoAdding(s: State, c: Cmd, now: int, saved: bool): State
    requires Adds(c)
  {
    match c
    case Add(l, user, next, force) => DoAdd(s, l, user, next, force, now, saved)
    case AddMany(ls, user, next) => DoAddMany(s, ls, user, next, now, saved)
    case Replay(source, user, id, created) => DoReplay(s, source, user, id, created, now, saved)
  }

  // Commands that reorder the queue.
  predicate Reorders(c: Cmd) { c.Move? || c.Shuffle? || c.Vote? || c.Set? }

  function DoReordering(s: State, c: Cmd): (r: State)
    requires Reorders(c)
    ensures SamePlayback(s, r)
  {
    match c
    case Move(id, after) => DoMove(s, id, after)
    case Shuffle(rest) => DoShuffle(s, rest)
    case Vote(user, id) => DoVote(s, user, id)
    case Set(settings, touched) => DoSet(s, settings, touched)
  }

  // Commands and events that delete rows beside the current one.
  predicate Deletes(c: Cmd) { c.Clear? || c.ClearPlayed? || c.Purge? || c.MediaDeleted? }

  function DoDeleting(s: State, c: Cmd, now: int, saved: bool): State
    requires Deletes(c)
  {
    match c
    case Clear => DoClear(s)
    case ClearPlayed => DoClearPlayed(s)
    case Purge(ids) => DoPurge(s, ids)
    case MediaDeleted(gone, q, h) => DoMediaDeleted(s, gone, q, h, now, saved)
  }

  // Commands and callbacks that may replace the current item.
  predicate Advances(c: Cmd) { c.Remove? || c.Skip? || c.Jump? || c.SkipVote? || c.EndSession? || c.Ended? }

  ghost function DoAdvancing(s: State, c: Cmd, now: int, saved: bool): State
    requires Advances(c)
  {
    match c
    case Remove(id, order) => DoRemove(s, id, order, now, saved)
    case Skip(order) => Next(s, order, now, saved)
    case Jump(id) => DoJump(s, id, now, saved)
    case SkipVote(user, order) => DoSkipVote(s, user, order, now, saved)
    case EndSession => DoEndSession(s, now, saved)
    case Ended(t, order) => DoEnded(s, t, order, now, saved)
  }

  ghost function Do(s: State, c: Cmd, now: int, saved: bool): State {
    if c.Load? then DoLoad(s, c.listing, c.history, c.settings, c.scheduled, now)
    else if LeavesQueue(c) then DoQuietly(s, c, now, saved)
    else if Adds(c) then DoAdding(s, c, now, saved)
    else if Reorders(c) then DoReordering(s, c)
    else if Deletes(c) then DoDeleting(s, c, now, saved)
    else DoAdvancing(s, c, now, saved)
  }

  // A command is in one group, and has the effect of its group.
  lemma DoQuietlyIsDo(s: State, c: Cmd, now: int, saved: bool)
    requires LeavesQueue(c)
    ensures Do(s, c, now, saved) == DoQuietly(s, c, now, saved)
  {
    hide DoLoad, DoQuietly, DoAdding, DoReordering, DoDeleting, DoAdvancing;
  }

  lemma DoAddingIsDo(s: State, c: Cmd, now: int, saved: bool)
    requires Adds(c)
    ensures Do(s, c, now, saved) == DoAdding(s, c, now, saved)
  {
    hide DoLoad, DoQuietly, DoAdding, DoReordering, DoDeleting, DoAdvancing;
  }

  lemma DoReorderingIsDo(s: State, c: Cmd, now: int, saved: bool)
    requires Reorders(c)
    ensures Do(s, c, now, saved) == DoReordering(s, c)
  {
    hide DoLoad, DoQuietly, DoAdding, DoReordering, DoDeleting, DoAdvancing;
  }

  lemma DoDeletingIsDo(s: State, c: Cmd, now: int, saved: bool)
    requires Deletes(c)
    ensures Do(s, c, now, saved) == DoDeleting(s, c, now, saved)
  {
    hide DoLoad, DoQuietly, DoAdding, DoReordering, DoDeleting, DoAdvancing;
  }

  lemma DoAdvancingIsDo(s: State, c: Cmd, now: int, saved: bool)
    requires Advances(c)
    ensures Do(s, c, now, saved) == DoAdvancing(s, c, now, saved)
  {
    hide DoLoad, DoQuietly, DoAdding, DoReordering, DoDeleting, DoAdvancing;
  }

  lemma DoLoadIsDo(s: State, c: Cmd, now: int, saved: bool)
    requires c.Load?
    ensures Do(s, c, now, saved) == DoLoad(s, c.listing, c.history, c.settings, c.scheduled, now)
  {
    hide DoLoad, DoQuietly, DoAdding, DoReordering, DoDeleting, DoAdvancing;
  }

  datatype Event = Event(cmd: Cmd, now: int, saved: bool)

  ghost predicate IsRun(s: State, run: seq<Event>)
    decreases |run|
  {
    run == [] || (Enabled(s, run[0].cmd, run[0].now) && IsRun(Do(s, run[0].cmd, run[0].now, run[0].saved), run[1..]))
  }

  ghost function Final(s: State, run: seq<Event>): State
    requires IsRun(s, run)
    decreases |run|
  {
    if run == [] then s else Final(Do(s, run[0].cmd, run[0].now, run[0].saved), run[1..])
  }

  lemma RunOne(s: State, e: Event, rest: seq<Event>, t: State)
    requires Enabled(s, e.cmd, e.now) && t == Do(s, e.cmd, e.now, e.saved) && IsRun(t, rest)
    ensures IsRun(s, [e] + rest) && Final(s, [e] + rest) == Final(t, rest)
  {
    assert ([e] + rest)[1..] == rest;
  }

  lemma RunOfTwo(s: State, a: Event, b: Event, s1: State, s2: State)
    requires Enabled(s, a.cmd, a.now) && s1 == Do(s, a.cmd, a.now, a.saved)
    requires Enabled(s1, b.cmd, b.now) && s2 == Do(s1, b.cmd, b.now, b.saved)
    ensures IsRun(s, [a, b]) && Final(s, [a, b]) == s2
  {
    RunOne(s1, b, [], s2);
    assert [b] + [] == [b] && [a] + [b] == [a, b];
    RunOne(s, a, [b], s1);
  }

  lemma SkipStep(s: State, order: seq<ItemId>, now: int, saved: bool)
    requires s.clock.positionAt <= now && NextReady(s, order, now)
    ensures Enabled(s, Skip(order), now) && Do(s, Skip(order), now, saved) == Next(s, order, now, saved)
  {
  }

  lemma ClearingStep(s: State, now: int, saved: bool)
    requires s.clock.positionAt <= now
    ensures Enabled(s, ClearPlayed, now) && Do(s, ClearPlayed, now, saved) == DoClearPlayed(s)
  {
    hide DoClearPlayed;
    DoDeletingIsDo(s, ClearPlayed, now, saved);
  }

  lemma EndedStep(s: State, t: Advance, order: seq<ItemId>, now: int, saved: bool)
    requires s.clock.positionAt <= now && t in s.armed && t.due <= now && (StillMeant(s, t) ==> NextReady(s, order, now))
    ensures Enabled(s, Ended(t, order), now) && Do(s, Ended(t, order), now, saved) == DoEnded(s, t, order, now, saved)
  {
  }

  // A media item becomes ready, and the room hears of it.
  lemma ReadySteps(s: State, m: MediaId, row: Media, now: int, saved: bool)
    requires s.clock.positionAt <= now && row.status == MediaReady
    requires m in s.db.media && s.db.media[m].status != MediaReady
    requires m in s.media && s.media[m].status != MediaReady
    ensures var i := DoIngest(s, m, row);
      && Enabled(s, Ingest(m, row), now) && Do(s, Ingest(m, row), now, saved) == i
      && Enabled(i, MediaUpdated(m, row), now) && Do(i, MediaUpdated(m, row), now, saved) == DoMediaUpdated(i, m, row, now, saved)
  {
  }
}
