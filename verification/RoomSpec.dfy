// The live room as a state machine: its state as a value and the effect of
// every command, timer and outside event as a function on it. now is the
// server's clock when the step runs; saved says whether the write of the
// playback columns succeeds.
module RoomSpec {
  import opened Base
  import opened Order
  import opened FairTurns
  import opened Moves
  import opened Store
  import C = Clock

  datatype Settings = Settings(
    voteMode: bool,
    skipThreshold: real,
    loop: bool,
    pauseWhenEmpty: bool,
    waitForBuffering: bool,
    fairQueue: bool)

  datatype Viewer = Viewer(user: Option<UserId>, buffering: bool, ignored: bool)

  // An advance timer: the item and clock version it was armed for, and when
  // it fires at the earliest.
  datatype Advance = Advance(item: ItemId, version: nat, due: int)

  datatype Timers = Timers(advance: Option<Advance>, empty: bool, buffer: bool, wait: bool, countdown: bool)

  const NO_TIMERS := Timers(None, false, false, false, false)
  const QUEUE_LIMIT: nat := 200
  const COUNTDOWN := 3000

  // armed: every advance timer this room ever armed; one that was stopped or
  // replaced may have fired just before, so its callback can still run.
  datatype State = State(
    db: Db,
    settings: Settings,
    scheduled: bool,
    queue: seq<Item>,
    played: seq<Item>,
    media: map<MediaId, Media>,
    votes: map<UserId, set<ItemId>>,
    clock: C.Clock,
    skipVotes: set<UserId>,
    viewers: map<ConnId, Viewer>,
    waiting: Option<set<UserId>>,
    countdown: Option<int>,
    timers: Timers,
    unsaved: bool,
    lastPersist: int,
    closed: bool,
    armed: set<Advance>)

  // ---------------------------------------------------------------------
  // Looking at the room
  // ---------------------------------------------------------------------

  function MediaOf(s: State, it: Item): Option<Media> {
    if it.media in s.media then Some(s.media[it.media]) else None
  }

  function ItemById(q: seq<Item>, id: ItemId): Option<Item> {
    var i := IndexOf(q, id);
    if i < 0 then None else Some(q[i])
  }

  function CurrentItem(s: State): Option<Item> {
    if s.clock.current.None? then None else ItemById(s.queue, s.clock.current.value)
  }

  function CurrentMedia(s: State): Option<Media> {
    match CurrentItem(s)
    case None => None
    case Some(it) => MediaOf(s, it)
  }

  predicate IsReady(m: Option<Media>) { m.Some? && m.value.status == MediaReady }

  function Duration(s: State): int {
    match CurrentMedia(s)
    case None => 0
    case Some(m) => m.duration
  }

  function PositionAt(s: State, now: int): int { C.Position(s.clock, now, Duration(s)) }

  predicate IsCurrentId(s: State, id: ItemId) { s.clock.current == Some(id) }

  function Stuck(s: State): set<UserId> {
    set c | c in s.viewers && s.viewers[c].buffering && !s.viewers[c].ignored && s.viewers[c].user.Some? :: s.viewers[c].user.value
  }

  function OnlineUsers(s: State): set<UserId> {
    set c | c in s.viewers && s.viewers[c].user.Some? :: s.viewers[c].user.value
  }

  function Ceiling(x: real): (n: int)
    ensures x <= n as real && (n - 1) as real < x
  {
    -((-x).Floor)
  }

  // The threshold's share of the online users.
  function Share(s: State): real { |OnlineUsers(s)| as real * s.settings.skipThreshold }

  // The votes that end the current item: the share, rounded up, at least one.
  function SkipNeeded(s: State): int {
    if !s.settings.voteMode then 0
    else
      var n := Ceiling(Share(s));
      if n < 1 then 1 else n
  }

  // In vote mode it is the least whole number, one at least, that is no less
  // than the share; with a valid threshold, never more than are online.
  lemma SkipNeededIsLeast(s: State)
    requires s.settings.voteMode
    ensures var n := SkipNeeded(s);
      && 1 <= n && Share(s) <= n as real && (n > 1 ==> (n - 1) as real < Share(s))
      && (0.0 < s.settings.skipThreshold <= 1.0 && OnlineUsers(s) != {} ==> n <= |OnlineUsers(s)|)
  {
    hide OnlineUsers, Ceiling, Share;
    if s.settings.skipThreshold <= 1.0 {
      ShareIsLess(s);
      CeilingIsLeast(Share(s), |OnlineUsers(s)|);
    }
  }

  lemma CeilingIsLeast(x: real, u: int)
    requires x <= u as real
    ensures Ceiling(x) <= u
  {
    assert (Ceiling(x) - 1) as real < u as real;
  }

  lemma ShareIsLess(s: State)
    requires s.settings.skipThreshold <= 1.0
    ensures Share(s) <= |OnlineUsers(s)| as real
  {
    hide OnlineUsers;
    PartIsLess(|OnlineUsers(s)| as real, s.settings.skipThreshold);
  }

  lemma PartIsLess(all: real, part: real)
    requires 0.0 <= all && part <= 1.0
    ensures all * part <= all
  {
  }

  predicate OrderedByRule(s: State) { s.settings.voteMode || s.settings.fairQueue }

  // Playback, presence and timers leave the queue alone.
  ghost predicate SameQueue(s: State, t: State) {
    && t.db.rows == s.db.rows && t.db.votes == s.db.votes && t.db.used == s.db.used
    && t.queue == s.queue && t.votes == s.votes && t.played == s.played
  }

  // Reordering leaves playback, presence and media alone.
  ghost predicate SamePlayback(s: State, t: State) {
    && t.clock == s.clock && t.db.playback == s.db.playback && t.unsaved == s.unsaved && t.db.rows.Keys == s.db.rows.Keys
    && t.media == s.media && t.db.media == s.db.media && t.db.used == s.db.used && t.played == s.played
    && t.waiting == s.waiting && t.countdown == s.countdown && t.viewers == s.viewers
    && t.timers.advance == s.timers.advance && t.armed == s.armed && t.closed == s.closed
  }

  // The same item stays current, nothing plays without one, and no setting
  // changes.
  predicate SameItem(s: State, t: State) {
    && t.clock.current == s.clock.current && (t.clock.playing ==> s.clock.playing || t.clock.current.Some?)
    && t.settings == s.settings
  }

  // Either nothing that is saved changed, or the change was saved, or the
  // room knows that it was not.
  predicate Settled(s: State, t: State) {
    || (t.db.playback == s.db.playback && (t.unsaved || (t.clock == s.clock && !s.unsaved)))
    || t.db.playback == C.Saved(t.clock)
  }

  // ---------------------------------------------------------------------
  // The clock and its timers
  // ---------------------------------------------------------------------

  // The timer for the end of the current item, if it plays and its length is
  // known.
  function NextAdvance(s: State, now: int): Option<Advance> {
    var m := CurrentMedia(s);
    if !s.clock.playing || m.None? || m.value.duration <= 0 then None
    else Some(Advance(s.clock.current.value, s.clock.version, now + C.Remaining(s.clock, now, m.value.duration) + C.ADVANCE_MARGIN))
  }

  function Armed(a: Option<Advance>): set<Advance> { if a.Some? then {a.value} else {} }

  function ScheduleAdvance(s: State, now: int): (r: State)
    ensures r == s.(timers := r.timers, armed := r.armed)
    ensures r.timers.advance == NextAdvance(s, now) && r.armed == s.armed + Armed(NextAdvance(s, now))
  {
    var a := NextAdvance(s, now);
    s.(timers := s.timers.(advance := a), armed := s.armed + Armed(a))
  }

  function ArmEmptyPause(s: State): (r: State)
    ensures r == s.(timers := r.timers)
    ensures r.timers == s.timers.(empty := r.timers.empty)
  {
    if !s.settings.pauseWhenEmpty || !s.clock.playing || s.viewers != map[] then s
    else s.(timers := s.timers.(empty := true))
  }

  // t has a new clock, and a timer armed for it now.
  ghost predicate Rearmed(s: State, t: State, now: int) {
    && t.clock.version == s.clock.version + 1 && t.clock.positionAt == now
    && (t.clock.rate == s.clock.rate || t.clock.rate in C.ALLOWED_RATES)
    && t.timers.advance == NextAdvance(t, now) && t.armed == s.armed + Armed(t.timers.advance) && t.closed == s.closed
  }

  // t has the same clock and timer, or is closed.
  ghost predicate Untouched(s: State, t: State) {
    && t.clock == s.clock && t.armed == s.armed
    && (t.closed || (t.timers.advance == s.timers.advance && !s.closed))
  }

  ghost predicate KeepsTime(s: State, t: State, now: int) { Rearmed(s, t, now) || Untouched(s, t) }

  function SetPlayback(s: State, playing: bool, positionMs: int, now: int): (r: State)
    ensures r == s.(clock := r.clock, timers := r.timers, armed := r.armed)
    ensures r.clock == C.Restart(s.clock, playing, positionMs, now)
    ensures Rearmed(s, r, now)
  {
    var c := s.(clock := C.Restart(s.clock, playing, positionMs, now));
    var a := ScheduleAdvance(c, now);
    assert NextAdvance(c, now) == NextAdvance(a, now);
    ArmEmptyPause(a)
  }

  // Persisting the clock; the first start of an announced session also
  // clears the announcement.
  function Persist(s: State, now: int, saved: bool): (r: State)
    ensures r == s.(lastPersist := now, scheduled := r.scheduled, unsaved := !saved, db := s.db.(playback := r.db.playback))
    ensures saved ==> r.db.playback == C.Saved(s.clock)
    ensures !saved ==> r.db == s.db
  {
    var s := s.(lastPersist := now, scheduled := s.scheduled && !s.clock.playing);
    if saved then s.(unsaved := false, db := s.db.(playback := C.Saved(s.clock))) else s.(unsaved := true)
  }

  function LeaveWait(s: State): State { s.(waiting := None, timers := s.timers.(wait := false)) }

  function CancelCountdown(s: State): State { s.(countdown := None, timers := s.timers.(countdown := false)) }

  // The end of a wait that resumes playback.
  function Resume(s: State, now: int, saved: bool): (r: State)
    ensures r == s.(clock := r.clock, timers := r.timers, armed := r.armed, waiting := None, lastPersist := r.lastPersist,
                    scheduled := r.scheduled, unsaved := r.unsaved, db := s.db.(playback := r.db.playback))
    ensures SameQueue(s, r) && SameItem(s, r) && Settled(s, r) && KeepsTime(s, r, now)
    ensures saved && !s.unsaved ==> !r.unsaved
  {
    var s' := LeaveWait(s);
    if s.waiting.Some? && !s.clock.playing && s.clock.current.Some?
    then Persist(SetPlayback(s', true, s.clock.positionMs, now), now, saved)
    else s'
  }

  function SetCurrent(s: State, item: Option<Item>, now: int): (r: State)
    ensures r == s.(clock := r.clock, timers := r.timers, armed := r.armed, skipVotes := {}, waiting := r.waiting, countdown := r.countdown)
    ensures Rearmed(s, r, now)
  {
    var s := s.(skipVotes := {});
    match item
    case None => SetPlayback(s.(clock := s.clock.(current := None)), false, 0, now)
    case Some(it) =>
      var s := CancelCountdown(LeaveWait(s));
      SetPlayback(s.(clock := s.clock.(current := Some(it.id), rate := C.NORMAL_RATE)), IsReady(MediaOf(s, it)), 0, now)
  }

  // ---------------------------------------------------------------------
  // The queue
  // ---------------------------------------------------------------------

  function Truncated(p: seq<Item>): seq<Item> {
    if |p| > HISTORY_KEPT then p[..HISTORY_KEPT] else p
  }

  function MarkPlayed(s: State, id: ItemId, now: int): (r: State)
    ensures r == s.(db := s.db.(rows := r.db.rows), queue := r.queue, played := r.played)
  {
    var s := s.(db := MarkedPlayed(s.db, id, now));
    var i := IndexOf(s.queue, id);
    if i < 0 then s
    else s.(queue := Without(s.queue, i), played := Truncated([s.queue[i].(playedAt := Some(now))] + s.played))
  }

  function Renumbered(q: seq<Item>): seq<Item> {
    seq(|q|, i requires 0 <= i < |q| => q[i].(rank := i + 1))
  }

  function Ids(q: seq<Item>): seq<ItemId> {
    seq(|q|, i requires 0 <= i < |q| => q[i].id)
  }

  function ApplyOrder(s: State, ordered: seq<Item>): (r: State)
    ensures r == s.(db := s.db.(rows := r.db.rows), queue := r.queue)
    ensures |r.queue| == |ordered| && r.db.rows.Keys == s.db.rows.Keys
  {
    if ordered == s.queue then s else s.(db := Ranked(s.db, Ids(ordered)), queue := Renumbered(ordered))
  }

  function VoteReorder(s: State): (r: State)
    ensures r == s.(db := s.db.(rows := r.db.rows), queue := r.queue) && r.db.rows.Keys == s.db.rows.Keys
  {
    ApplyOrder(s, VoteOrder(s.queue, s.clock.current))
  }

  function FairReorder(s: State): (r: State)
    ensures r == s.(db := s.db.(rows := r.db.rows), queue := r.queue) && r.db.rows.Keys == s.db.rows.Keys
  {
    if !s.settings.fairQueue || s.settings.voteMode then s else ApplyOrder(s, FairOrder(s.queue, s.clock.current))
  }

  function MediaIds(q: seq<Item>): set<MediaId> { set it | it in q :: it.media }

  // Re-reading queue, history, media and votes.
  function Reread(s: State, q: seq<Item>, p: seq<Item>): State {
    s.(queue := q, played := p, media := MediaFor(s.db, MediaIds(q) + MediaIds(p)), votes := VotesByUser(s.db))
  }

  // Items whose ingest failed are skipped into the history.
  function SkipFailed(s: State, idx: int, now: int): (r: State)
    ensures r == s.(db := s.db.(rows := r.db.rows), queue := r.queue, played := r.played)
    decreases |s.queue|
  {
    var next := Following(s.queue, idx);
    if next.None? then s
    else
      var m := MediaOf(s, next.value);
      if m.None? || m.value.status != MediaFailed then s
      else
        assert IndexOf(s.queue, next.value.id) >= 0;
        SkipFailed(MarkPlayed(s, next.value.id, now), idx, now)
  }

  predicate Laps(s: State) { s.queue == [] && s.settings.loop && s.played != [] }

  // The stored rows of these ids.
  function ItemsOf(db: Db, ids: seq<ItemId>): (r: seq<Item>)
    ensures (forall id :: id in ids ==> id in db.rows) ==>
      |r| == |ids| && forall i :: 0 <= i < |ids| ==> r[i] == ItemOf(db, ids[i])
  {
    if ids == [] then []
    else
      var front, last := ItemsOf(db, ids[..|ids| - 1]), ids[|ids| - 1];
      if last in db.rows then front + [ItemOf(db, last)] else front
  }

  // The queue ran out: the history becomes the queue again, in the order it
  // was played. clock.current still names the finished item here.
  ghost function Lap(s: State, order: seq<ItemId>): (r: State)
    ensures r == s.(db := s.db.(rows := r.db.rows), queue := r.queue, played := [], media := r.media, votes := r.votes)
  {
    var s := s.(db := Requeued(s.db, order));
    var s := Reread(s, ItemsOf(s.db, order), []);
    if s.settings.voteMode then VoteReorder(s) else s
  }

  // Dropping the outgoing item and the failed ones behind it.
  function Drop(s: State, now: int): (r: State)
    requires s.clock.current.Some?
    ensures r == s.(db := s.db.(rows := r.db.rows), queue := r.queue, played := r.played)
  {
    SkipFailed(MarkPlayed(s, s.clock.current.value, now), IndexOf(s.queue, s.clock.current.value), now)
  }

  // Nobody is watching the restart: stop at the top.
  function StopAtTop(s: State, id: ItemId, now: int): (r: State)
    ensures r == s.(clock := r.clock, timers := r.timers, armed := r.armed, skipVotes := {})
    ensures Rearmed(s, r, now)
  {
    SetPlayback(s.(skipVotes := {}, clock := s.clock.(current := Some(id), rate := C.NORMAL_RATE)), false, 0, now)
  }

  // The switch to the item that takes over from the outgoing one. order: the
  // history in the order it was played, used when the queue ran out and loops.
  ghost function Advanced(s: State, order: seq<ItemId>, now: int): (r: State)
    requires s.clock.current.Some?
    ensures r == s.(db := s.db.(rows := r.db.rows), queue := r.queue, played := r.played, media := r.media, votes := r.votes,
                    clock := r.clock, timers := r.timers, armed := r.armed, skipVotes := {}, waiting := r.waiting,
                    countdown := r.countdown)
  {
    var idx := IndexOf(s.queue, s.clock.current.value);
    var d := Drop(s, now);
    if Laps(d) then
      var l := Lap(d, order);
      if l.queue != [] && l.viewers == map[] then StopAtTop(l, l.queue[0].id, now)
      else SetCurrent(l, if l.queue == [] then None else Some(l.queue[0]), now)
    else SetCurrent(d, Following(d.queue, idx), now)
  }

  ghost function Next(s: State, order: seq<ItemId>, now: int, saved: bool): State {
    if s.clock.current.None? then s else Persist(Advanced(s, order, now), now, saved)
  }
}
