// What holds in every state of a room: the current item is in the queue, the
// history in memory is bounded, and playing means there is a current item.
// Loading a room is the one exception, and exactly when it is one is proved.
module RoomShape {
  import opened Base
  import opened Order
  import opened FairTurns
  import opened Moves
  import opened Store
  import opened RoomSpec
  import opened RoomCommands
  import opened RoomCache
  import C = Clock

  predicate HasId(q: seq<Item>, id: ItemId) { exists it :: it in q && it.id == id }

  predicate CurrentQueued(s: State) { s.clock.current.Some? ==> HasId(s.queue, s.clock.current.value) }

  // The current item is nowhere but in the queue; the history is bounded.
  predicate Placed(s: State) { CurrentQueued(s) && |s.played| <= HISTORY_KEPT }

  predicate PlaysSomething(s: State) { s.clock.playing ==> s.clock.current.Some? }

  predicate Shape(s: State) { Placed(s) && PlaysSomething(s) }

  predicate KeepsShape(s: State, t: State) { Placed(t) && (PlaysSomething(s) ==> PlaysSomething(t)) }

  // The stored columns say playing, but the row they referred to is gone.
  predicate Orphaned(db: Db) { db.playback.playing && db.playback.current.None? }

  lemma HasIdIndex(q: seq<Item>, id: ItemId)
    ensures HasId(q, id) <==> IndexOf(q, id) >= 0
  {
    if it :| it in q && it.id == id {
      var j :| 0 <= j < |q| && q[j] == it;
    }
    if IndexOf(q, id) >= 0 {
      assert q[IndexOf(q, id)] in q;
    }
  }

  lemma SameIds(x: seq<Item>, y: seq<Item>)
    requires multiset(x) == multiset(y)
    ensures forall id :: HasId(x, id) <==> HasId(y, id)
  {
    SameMembers(x, y);
  }

  lemma RenumberedIds(q: seq<Item>)
    ensures forall id :: HasId(Renumbered(q), id) <==> HasId(q, id)
  {
    var r := Renumbered(q);
    forall id ensures HasId(r, id) <==> HasId(q, id) {
      if it :| it in r && it.id == id {
        var i :| 0 <= i < |r| && r[i] == it;
        assert q[i] in q && q[i].id == id;
      }
      if it :| it in q && it.id == id {
        var i :| 0 <= i < |q| && q[i] == it;
        assert r[i] in r && r[i].id == id;
      }
    }
  }

  lemma ApplyOrderIds(s: State, ordered: seq<Item>)
    requires multiset(ordered) == multiset(s.queue)
    ensures forall id :: HasId(ApplyOrder(s, ordered).queue, id) <==> HasId(s.queue, id)
  {
    SameIds(ordered, s.queue);
    RenumberedIds(ordered);
  }

  lemma VoteReorderIds(s: State)
    requires Distinct(s.queue)
    ensures forall id :: HasId(VoteReorder(s).queue, id) <==> HasId(s.queue, id)
  {
    SplitPermutes(s.queue, s.clock.current);
    SortByVotesSorts(Waiting(s.queue, s.clock.current));
    ApplyOrderIds(s, VoteOrder(s.queue, s.clock.current));
  }

  lemma FairReorderIds(s: State)
    requires Distinct(s.queue)
    ensures forall id :: HasId(FairReorder(s).queue, id) <==> HasId(s.queue, id)
  {
    FairOrderPermutes(s.queue, s.clock.current);
    ApplyOrderIds(s, FairOrder(s.queue, s.clock.current));
  }

  lemma WithoutIds(q: seq<Item>, i: nat)
    requires Distinct(q) && i < |q|
    ensures forall id :: HasId(Without(q, i), id) <==> HasId(q, id) && id != q[i].id
  {
    WithoutPermutes(q, i);
    assert q[i] in q;
  }

  lemma FollowingIsQueued(q: seq<Item>, idx: int)
    ensures Following(q, idx).Some? ==> HasId(q, Following(q, idx).value.id)
  {
  }

  lemma {:induction false} SkipFailedShape(s: State, idx: int, now: int)
    requires |s.played| <= HISTORY_KEPT
    ensures |SkipFailed(s, idx, now).played| <= HISTORY_KEPT
    decreases |s.queue|
  {
    var next := Following(s.queue, idx);
    if next.Some? && MediaOf(s, next.value).Some? && MediaOf(s, next.value).value.status == MediaFailed {
      SkipFailedShape(MarkPlayed(s, next.value.id, now), idx, now);
    }
  }

  lemma {:induction false} MarkAllShape(s: State, ids: seq<ItemId>, now: int)
    requires |s.played| <= HISTORY_KEPT
    ensures |MarkAll(s, ids, now).played| <= HISTORY_KEPT
  {
    if ids != [] {
      MarkAllShape(s, ids[..|ids| - 1], now);
    }
  }

  // Switching to an item of the queue, or to nothing, and saving.
  lemma SetCurrentShape(s: State, item: Option<Item>, now: int, saved: bool)
    requires |s.played| <= HISTORY_KEPT && (item.Some? ==> HasId(s.queue, item.value.id))
    ensures Shape(Persist(SetCurrent(s, item, now), now, saved))
    ensures Persist(SetCurrent(s, item, now), now, saved).clock.current == if item.Some? then Some(item.value.id) else None
  {
  }

  lemma SwitchedShape(s: State, item: Option<Item>, now: int)
    requires |s.played| <= HISTORY_KEPT && (item.Some? ==> HasId(s.queue, item.value.id))
    ensures Shape(SetCurrent(s, item, now))
  {
  }

  lemma StoppedShape(s: State, id: ItemId, now: int)
    requires |s.played| <= HISTORY_KEPT && HasId(s.queue, id)
    ensures Shape(StopAtTop(s, id, now))
  {
  }

  lemma AdvancedShape(s: State, order: seq<ItemId>, now: int)
    requires |s.played| <= HISTORY_KEPT && s.clock.current.Some?
    ensures Shape(Advanced(s, order, now))
  {
    var d := Drop(s, now);
    DropShape(s, now);
    if !Laps(d) {
      FollowingIsQueued(d.queue, IndexOf(s.queue, s.clock.current.value));
      SwitchedShape(d, Following(d.queue, IndexOf(s.queue, s.clock.current.value)), now);
    } else {
      var l := Lap(d, order);
      if l.queue == [] {
        SwitchedShape(l, None, now);
      } else {
        assert l.queue[0] in l.queue;
        SwitchedShape(l, Some(l.queue[0]), now);
        StoppedShape(l, l.queue[0].id, now);
      }
    }
  }

  lemma DropShape(s: State, now: int)
    requires |s.played| <= HISTORY_KEPT && s.clock.current.Some?
    ensures |Drop(s, now).played| <= HISTORY_KEPT
  {
    SkipFailedShape(MarkPlayed(s, s.clock.current.value, now), IndexOf(s.queue, s.clock.current.value), now);
  }

  lemma NextShape(s: State, order: seq<ItemId>, now: int, saved: bool)
    requires Placed(s)
    ensures KeepsShape(s, Next(s, order, now, saved))
  {
    if s.clock.current.Some? {
      AdvancedShape(s, order, now);
    }
  }

  // ---------------------------------------------------------------------
  // Adding
  // ---------------------------------------------------------------------

  // a: s with the same clock and history and at least the ids of s queued.
  ghost predicate Grown(s: State, a: State) {
    a.clock == s.clock && a.played == s.played && forall id :: HasId(s.queue, id) ==> HasId(a.queue, id)
  }

  lemma StartIfIdleShape(s: State, a: State, it: Item, now: int, saved: bool)
    requires Placed(s) && Grown(s, a) && HasId(a.queue, it.id)
    ensures KeepsShape(s, StartIfIdle(a, it, now, saved))
  {
    SetCurrentShape(a, Some(it), now, saved);
  }

  lemma AppendIds(q: seq<Item>, added: seq<Item>)
    ensures forall id :: HasId(q + added, id) <==> HasId(q, id) || HasId(added, id)
  {
    forall id | HasId(q, id) || HasId(added, id) ensures HasId(q + added, id) {
      var it :| (it in q || it in added) && it.id == id;
      assert it in q + added;
    }
  }

  lemma AddShape(s: State, l: Link, user: Option<UserId>, next: bool, force: bool, now: int, saved: bool)
    requires Cached(s) && Placed(s) && l.id !in s.db.used
    ensures KeepsShape(s, DoAdd(s, l, user, next, force, now, saved))
  {
    if AddAccepted(s, l, force) {
      var n := NewItem(s.db, l, user);
      var b := AddedAt(Appended(s, l, user), next);
      AppendedCached(s, l, user);
      AddedIds(s, Appended(s, l, user), n, next);
      FairReorderIds(b);
      StartIfIdleShape(s, FairReorder(b), n, now, saved);
    }
  }

  lemma AddedIds(s: State, a: State, n: Item, next: bool)
    requires Cached(a) && Placed(s) && a.queue == s.queue + [n] && a.clock == s.clock && a.played == s.played
    ensures var b := AddedAt(a, next); Grown(s, b) && HasId(b.queue, n.id) && Distinct(b.queue)
  {
    AppendIds(s.queue, [n]);
    assert n in [n];
    if next && !OrderedByRule(a) && a.clock.current.Some? && |a.queue| > 1 {
      PlaceNextIds(s, a, n);
    }
  }

  lemma PlaceNextIds(s: State, a: State, n: Item)
    requires Cached(a) && a.queue == s.queue + [n] && Placed(s) && a.clock == s.clock
    ensures Distinct(PlaceNext(a).queue) && forall id :: HasId(PlaceNext(a).queue, id) <==> HasId(a.queue, id)
  {
    assert !IsCurrentId(a, n.id) by {
      if a.clock.current.Some? {
        var it :| it in s.queue && it.id == a.clock.current.value;
        var i :| 0 <= i < |s.queue| && s.queue[i] == it;
        assert a.queue[i].id != a.queue[|s.queue|].id;
      }
    }
    PlaceNextCached(a);
    PlacedAfter(a, |a.queue| - 1, a.clock.current);
  }

  // Placing an item elsewhere keeps the ids.
  lemma PlacedAfter(s: State, i: nat, after: Option<ItemId>)
    requires Distinct(s.queue) && i < |s.queue| && !IsCurrentId(s, s.queue[i].id)
    ensures var o := PlaceAfter(s.queue, i, after, s.clock.current);
      o.Some? ==> forall id :: HasId(ApplyOrder(s, o.value).queue, id) <==> HasId(s.queue, id)
  {
    var o := PlaceAfter(s.queue, i, after, s.clock.current);
    assert o.Some? ==> multiset(o.value) == multiset(s.queue) by {
      PlaceAfterPlaces(s.queue, i, after, s.clock.current);
    }
    if o.Some? {
      ApplyOrderIds(s, o.value);
    }
  }

  lemma AddManyShape(s: State, links: seq<Link>, user: Option<UserId>, next: bool, now: int, saved: bool)
    requires Cached(s) && Placed(s) && forall l :: l in links ==> l.id !in s.db.used
    requires forall i, j :: 0 <= i < j < |links| ==> links[i].id != links[j].id
    ensures KeepsShape(s, DoAddMany(s, links, user, next, now, saved))
  {
    var taken := Taken(links, HeldMedia(s), QUEUE_LIMIT - |s.queue|);
    TakenLinks(links, HeldMedia(s), QUEUE_LIMIT - |s.queue|);
    if !(s.closed || |s.queue| > QUEUE_LIMIT || taken == []) {
      var b := AddedMany(s, taken, user, next);
      AddedManyIds(s, taken, user, next);
      FairReorderIds(b);
      StartIfIdleShape(s, FairReorder(b), NewItems(s.db, taken, user)[0], now, saved);
    }
  }

  lemma AddedManyIds(s: State, taken: seq<Link>, user: Option<UserId>, next: bool)
    requires Cached(s) && taken != [] && forall l :: l in taken ==> l.id !in s.db.used
    requires forall i, j :: 0 <= i < j < |taken| ==> taken[i].id != taken[j].id
    ensures var b := AddedMany(s, taken, user, next);
      Grown(s, b) && Distinct(b.queue) && HasId(b.queue, NewItems(s.db, taken, user)[0].id)
  {
    var added := NewItems(s.db, taken, user);
    var a := s.(db := InsertLinks(s.db, taken, user), media := WithMedia(s.media, s.db, taken));
    InsertLinksMirrors(s.db, s.queue, s.votes, taken, user);
    BatchIds(a, added);
    AppendIds(s.queue, added);
    assert added[0] in added;
  }

  lemma BatchIds(a: State, added: seq<Item>)
    requires Cached(a.(queue := a.queue + added)) && added != []
    ensures var b := ApplyOrder(a, BatchAfterCurrent(a.queue, added, a.clock.current));
      Distinct(b.queue) && forall id :: HasId(b.queue, id) <==> HasId(a.queue + added, id)
  {
    BatchCached(a, added);
    var o := BatchAfterCurrent(a.queue, added, a.clock.current);
    assert multiset(o) == multiset(a.queue + added) by {
      assert forall i :: 0 <= i < |a.queue| ==> a.queue[i] == (a.queue + added)[i];
      BatchPermutes(a.queue, added, a.clock.current);
    }
    assert |o| == |multiset(o)| == |a.queue + added|;
    SameIds(o, a.queue + added);
    RenumberedIds(o);
  }

  lemma AppendedIds(s: State, a: State, n: Item)
    requires Placed(s) && Cached(a) && a.queue == s.queue + [n] && a.clock == s.clock && a.played == s.played
    ensures Grown(s, FairReorder(a)) && HasId(FairReorder(a).queue, n.id)
  {
    AppendIds(s.queue, [n]);
    assert n in [n];
    FairReorderIds(a);
  }

  lemma ReplayShape(s: State, source: ItemId, user: Option<UserId>, id: ItemId, created: int, now: int, saved: bool)
    requires Cached(s) && Placed(s) && id !in s.db.used
    ensures KeepsShape(s, DoReplay(s, source, user, id, created, now, saved))
  {
    var src := ItemById(s.played, source);
    if !(src.None? || |s.queue| >= QUEUE_LIMIT || src.value.media !in s.db.media) {
      var l := Link(src.value.media, id, created);
      var n := NewItem(s.db, l, user);
      InsertMirrors(s.db, s.queue, s.votes, l, user);
      var a := Requeue(s, l, user);
      AppendedIds(s, a, n);
      StartIfIdleShape(s, FairReorder(a), n, now, saved);
    }
  }

  // ---------------------------------------------------------------------
  // The other commands
  // ---------------------------------------------------------------------

  // The same ids queued, the same history and clock.
  lemma ReorderedShape(s: State, t: State)
    requires Placed(s) && t.clock == s.clock && t.played == s.played
    requires forall id :: HasId(t.queue, id) <==> HasId(s.queue, id)
    ensures KeepsShape(s, t)
  {
  }

  lemma RemoveShape(s: State, id: ItemId, order: seq<ItemId>, now: int, saved: bool)
    requires Cached(s) && Placed(s)
    ensures KeepsShape(s, DoRemove(s, id, order, now, saved))
  {
    var i := IndexOf(s.queue, id);
    if i >= 0 {
      if IsCurrentId(s, id) {
        NextShape(s, order, now, saved);
      } else {
        WithoutIds(s.queue, i);
      }
    }
  }

  lemma MoveShape(s: State, id: ItemId, after: Option<ItemId>)
    requires Cached(s) && Placed(s)
    ensures KeepsShape(s, DoMove(s, id, after))
  {
    var i := IndexOf(s.queue, id);
    if !(OrderedByRule(s) || i < 0 || IsCurrentId(s, id)) {
      PlacedAfter(s, i, after);
    }
  }

  lemma ShuffleShape(s: State, rest: seq<Item>)
    requires Placed(s) && multiset(rest) == multiset(s.queue[Pinned(s)..])
    ensures KeepsShape(s, DoShuffle(s, rest))
  {
    assert s.queue == s.queue[..Pinned(s)] + s.queue[Pinned(s)..];
    ApplyOrderIds(s, s.queue[..Pinned(s)] + rest);
  }

  lemma ClearShape(s: State)
    requires Placed(s)
    ensures KeepsShape(s, DoClear(s))
  {
    if s.clock.current.Some? {
      HasIdIndex(s.queue, s.clock.current.value);
      assert DoClear(s).queue[0] in DoClear(s).queue;
    }
  }

  lemma JumpTarget(s: State, id: ItemId, now: int)
    requires Distinct(s.queue) && HasId(s.queue, id)
    ensures HasId(JumpedFrom(s, id, now).queue, id)
  {
    if s.clock.current.Some? && !IsCurrentId(s, id) {
      var i := IndexOf(s.queue, s.clock.current.value);
      if i >= 0 {
        WithoutIds(s.queue, i);
      }
    }
  }

  lemma JumpShape(s: State, id: ItemId, now: int, saved: bool)
    requires Cached(s) && Placed(s)
    ensures KeepsShape(s, DoJump(s, id, now, saved))
  {
    var target := ItemById(s.queue, id);
    if target.Some? {
      assert HasId(s.queue, id) by {
        HasIdIndex(s.queue, id);
      }
      JumpTarget(s, id, now);
      SetCurrentShape(JumpedFrom(s, id, now), target, now, saved);
    }
  }

  lemma VoteShape(s: State, user: UserId, id: ItemId)
    requires Cached(s) && Placed(s)
    ensures KeepsShape(s, DoVote(s, user, id))
  {
    if VoteAccepted(s, id) {
      var i := IndexOf(s.queue, id);
      var t := Toggled(s, user, id);
      ToggledCached(s, user, id);
      ReplacedIds(s.queue, i, t.queue[i]);
      VoteReorderIds(t);
    }
  }

  lemma ReplacedIds(q: seq<Item>, i: nat, it: Item)
    requires i < |q| && it.id == q[i].id
    ensures forall id :: HasId(q[i := it], id) <==> HasId(q, id)
  {
    var r := q[i := it];
    forall id ensures HasId(r, id) <==> HasId(q, id) {
      if x :| x in r && x.id == id {
        var j :| 0 <= j < |r| && r[j] == x;
        assert q[j] in q && q[j].id == id;
      }
      if x :| x in q && x.id == id {
        var j :| 0 <= j < |q| && q[j] == x;
        assert r[j] in r && r[j].id == id;
      }
    }
  }

  lemma SetShape(s: State, settings: Settings, touched: bool)
    requires Cached(s) && Placed(s)
    ensures KeepsShape(s, DoSet(s, settings, touched))
  {
    var t := if touched && !settings.pauseWhenEmpty then s.(timers := s.timers.(empty := false)) else s;
    var u := t.(settings := settings);
    VoteReorderIds(u);
    FairReorderIds(u.(skipVotes := {}));
  }

  lemma EndSessionShape(s: State, now: int, saved: bool)
    requires Placed(s)
    ensures KeepsShape(s, DoEndSession(s, now, saved))
  {
    MarkAllShape(s, Ids(s.queue), now);
    SetCurrentShape(MarkAll(s, Ids(s.queue), now), None, now, saved);
  }

  lemma MediaDeletedShape(s: State, gone: set<MediaId>, q: seq<Item>, h: seq<Item>, now: int, saved: bool)
    requires Placed(s) && |h| <= HISTORY_KEPT
    ensures KeepsShape(s, DoMediaDeleted(s, gone, q, h, now, saved))
  {
    var r := RereadWithout(s, gone, q, h);
    if r.queue != [] {
      assert r.queue[0] in r.queue;
    }
    if r.clock.current.Some? {
      HasIdIndex(r.queue, r.clock.current.value);
    }
    SetCurrentShape(r, if r.queue == [] then None else Some(r.queue[0]), now, saved);
  }

  lemma LoadShape(s: State, q: seq<Item>, h: seq<Item>, settings: Settings, scheduled: bool, now: int)
    requires |h| <= HISTORY_KEPT
    ensures Placed(DoLoad(s, q, h, settings, scheduled, now))
    ensures PlaysSomething(DoLoad(s, q, h, settings, scheduled, now)) <==> !Orphaned(s.db)
  {
    if s.db.playback.current.Some? {
      HasIdIndex(q, s.db.playback.current.value);
    }
  }

  lemma QuietShape(s: State, c: Cmd, now: int, saved: bool)
    requires LeavesQueue(c) && Placed(s)
    ensures KeepsShape(s, DoQuietly(s, c, now, saved))
  {
  }

  lemma AddingShape(s: State, c: Cmd, now: int, saved: bool)
    requires Cached(s) && Placed(s) && Adds(c) && Enabled(s, c, now)
    ensures KeepsShape(s, DoAdding(s, c, now, saved))
  {
    match c
    case Add(l, user, next, force) => AddShape(s, l, user, next, force, now, saved);
    case AddMany(ls, user, next) => AddManyShape(s, ls, user, next, now, saved);
    case Replay(source, user, id, created) => ReplayShape(s, source, user, id, created, now, saved);
  }

  lemma ReorderingShape(s: State, c: Cmd, now: int)
    requires Cached(s) && Placed(s) && Reorders(c) && Enabled(s, c, now)
    ensures KeepsShape(s, DoReordering(s, c))
  {
    match c
    case Move(id, after) => MoveShape(s, id, after);
    case Shuffle(rest) => ShuffleShape(s, rest);
    case Vote(user, id) => VoteShape(s, user, id);
    case Set(settings, touched) => SetShape(s, settings, touched);
  }

  lemma DeletingShape(s: State, c: Cmd, now: int, saved: bool)
    requires Placed(s) && Deletes(c) && Enabled(s, c, now)
    ensures KeepsShape(s, DoDeleting(s, c, now, saved))
  {
    match c
    case Clear => ClearShape(s);
    case ClearPlayed => ReorderedShape(s, DoClearPlayed(s).(played := s.played));
    case Purge(ids) => ReorderedShape(s, DoPurge(s, ids));
    case MediaDeleted(gone, q, h) => MediaDeletedShape(s, gone, q, h, now, saved);
  }

  lemma AdvancingShape(s: State, c: Cmd, now: int, saved: bool)
    requires Cached(s) && Placed(s) && Advances(c)
    ensures KeepsShape(s, DoAdvancing(s, c, now, saved))
  {
    match c
    case Remove(id, order) => RemoveShape(s, id, order, now, saved);
    case Skip(order) => NextShape(s, order, now, saved);
    case Jump(id) => JumpShape(s, id, now, saved);
    case SkipVote(user, order) => NextShape(SkipToggled(s, user), order, now, saved);
    case EndSession => EndSessionShape(s, now, saved);
    case Ended(t, order) => NextShape(s, order, now, saved);
  }

  // ---------------------------------------------------------------------
  // What a handler keeps
  // ---------------------------------------------------------------------

  lemma QuietKeeps(s: State, t: State)
    requires Cached(s) && Placed(s) && SameQueue(s, t) && SameItem(s, t)
    ensures Cached(t) && Placed(t)
  {
    SameQueueCached(s, t);
  }

  lemma ClearPlayedKeeps(s: State)
    requires Cached(s) && Placed(s)
    ensures Cached(DoClearPlayed(s)) && Placed(DoClearPlayed(s))
  {
    HistoryDeletedMirrors(s.db, s.queue, s.votes, History(s.db));
  }

  // The re-read room, once a lost current item has its successor.
  lemma RehomedKeeps(r: State, now: int, saved: bool)
    requires Cached(r) && |r.played| <= HISTORY_KEPT
    ensures Cached(Rehomed(r, now, saved)) && Placed(Rehomed(r, now, saved))
  {
    var head := if r.queue == [] then None else Some(r.queue[0]);
    if r.clock.current.Some? {
      HasIdIndex(r.queue, r.clock.current.value);
    }
    if r.queue != [] {
      assert r.queue[0] in r.queue;
    }
    SetCurrentSame(r, head, now, saved);
    SetCurrentShape(r, head, now, saved);
    SameQueueCached(r, Persist(SetCurrent(r, head, now), now, saved));
  }

  // ---------------------------------------------------------------------
  // Every step and every run
  // ---------------------------------------------------------------------

  lemma StepPlaced(s: State, c: Cmd, now: int, saved: bool)
    requires Cached(s) && Placed(s) && Enabled(s, c, now)
    ensures Placed(Do(s, c, now, saved))
    ensures !c.Load? ==> KeepsShape(s, Do(s, c, now, saved))
  {
    if c.Load? {
      LoadShape(s, c.listing, c.history, c.settings, c.scheduled, now);
    } else if LeavesQueue(c) {
      QuietShape(s, c, now, saved);
    } else if Adds(c) {
      AddingShape(s, c, now, saved);
    } else if Reorders(c) {
      ReorderingShape(s, c, now);
    } else if Deletes(c) {
      DeletingShape(s, c, now, saved);
    } else {
      AdvancingShape(s, c, now, saved);
    }
  }

  lemma PlacedIsUsed(s: State)
    requires Cached(s) && Placed(s)
    ensures CurrentUsed(s)
  {
    if s.clock.current.Some? {
      var it :| it in s.queue && it.id == s.clock.current.value;
    }
  }

  // Playing without a current item comes from loading an orphaned store, and
  // from nothing else.
  lemma StepPlaysSomething(s: State, c: Cmd, now: int, saved: bool)
    requires Cached(s) && Shape(s) && Enabled(s, c, now)
    ensures Shape(Do(s, c, now, saved)) <==> !(c.Load? && Orphaned(s.db))
  {
    StepPlaced(s, c, now, saved);
    if c.Load? {
      LoadShape(s, c.listing, c.history, c.settings, c.scheduled, now);
    }
  }

  // After any run the queue in memory is what the store would list, and the
  // current item is in it.
  lemma {:induction false} RunCached(s: State, run: seq<Event>)
    requires Cached(s) && Placed(s) && IsRun(s, run)
    ensures Cached(Final(s, run)) && Placed(Final(s, run)) && |Final(s, run).played| <= 20
    decreases |run|
  {
    if run != [] {
      var e := run[0];
      PlacedIsUsed(s);
      StepCached(s, e.cmd, e.now, e.saved);
      StepPlaced(s, e.cmd, e.now, e.saved);
      RunCached(Do(s, e.cmd, e.now, e.saved), run[1..]);
    }
  }

  // No store is loaded while orphaned.
  ghost predicate LoadsWhole(s: State, run: seq<Event>)
    requires IsRun(s, run)
    decreases |run|
  {
    run == [] || (!(run[0].cmd.Load? && Orphaned(s.db))
                  && LoadsWhole(Do(s, run[0].cmd, run[0].now, run[0].saved), run[1..]))
  }

  lemma {:induction false} RunShape(s: State, run: seq<Event>)
    requires Cached(s) && Shape(s) && IsRun(s, run) && LoadsWhole(s, run)
    ensures Shape(Final(s, run))
    decreases |run|
  {
    if run != [] {
      var e := run[0];
      PlacedIsUsed(s);
      StepCached(s, e.cmd, e.now, e.saved);
      StepPlaysSomething(s, e.cmd, e.now, e.saved);
      RunShape(Do(s, e.cmd, e.now, e.saved), run[1..]);
    }
  }

  // ---------------------------------------------------------------------
  // How a store gets orphaned
  // ---------------------------------------------------------------------

  const PLAIN := Settings(false, 1.0, false, false, false, false)
  const SOLE := Item(1, 7, None, 1, 0, 0, None)

  const PLAYABLE := Media(MediaReady, 60000)

  // A room that was just opened over an empty store.
  function NewRoom(): State { Opened(EMPTY, [], [], PLAIN, false, 0) }

  // Its first item was added, and is still to be fetched.
  function OneQueued(): State {
    var c := C.Clock(Some(SOLE.id), false, 0, 0, C.NORMAL_RATE, 1);
    var media := map[SOLE.media := Media(MediaQueued, 0)];
    State(Db(map[SOLE.id := Row(SOLE.media, None, 1, 0, None)], {}, media, C.Saved(c), {SOLE.id}),
          PLAIN, false, [SOLE], [], media, map[], c, {}, map[], None, None, NO_TIMERS, false, 0, false, {})
  }

  // The item is ready and plays.
  function OnePlaying(): State {
    var c := C.Clock(Some(SOLE.id), true, 0, 0, C.NORMAL_RATE, 2);
    var media := map[SOLE.media := PLAYABLE];
    var end := Advance(SOLE.id, 2, 60500);
    State(Db(map[SOLE.id := Row(SOLE.media, None, 1, 0, None)], {}, media, C.Saved(c), {SOLE.id}),
          PLAIN, false, [SOLE], [], media, map[], c, {}, map[], None, None, NO_TIMERS.(advance := Some(end)), false, 0, false, {end})
  }

  const ADDED := Event(Add(Link(SOLE.media, SOLE.id, 0), None, false, false), 0, true)
  const FETCHED := Event(Ingest(SOLE.media, PLAYABLE), 0, true)
  const STARTED := Event(MediaUpdated(SOLE.media, PLAYABLE), 0, true)

  lemma NoRank()
    ensures TopRank(map[]) == 0
  {
    assert (set id | id in EMPTY.rows && QueuedIn(EMPTY.rows, id) :: EMPTY.rows[id].rank) == {};
  }

  lemma FirstIsAppended()
    ensures NewRoom().clock == C.Clock(None, false, 0, 0, C.NORMAL_RATE, 0) && NewRoom().queue == []
    ensures AddAccepted(NewRoom(), ADDED.cmd.link, false)
    ensures var a, q := Appended(NewRoom(), ADDED.cmd.link, None), OneQueued();
      && NewItem(NewRoom().db, ADDED.cmd.link, None) == SOLE
      && a == q.(db := q.db.(playback := EMPTY.playback), clock := NewRoom().clock)
  {
    NoRank();
    var s := NewRoom();
    assert s.media == map[] && s.votes == map[];
  }

  lemma FirstIsAdded()
    ensures Enabled(NewRoom(), ADDED.cmd, ADDED.now) && Do(NewRoom(), ADDED.cmd, ADDED.now, ADDED.saved) == OneQueued()
  {
    hide NewRoom, AddAccepted, Appended, NewItem;
    FirstIsAppended();
    var s, l := NewRoom(), ADDED.cmd.link;
    assert FreshLink(s.db, l) by {
      EmptyStore();
    }
    assert Enabled(s, ADDED.cmd, ADDED.now);
    var a := Appended(s, l, None);
    assert FairReorder(AddedAt(a, false)) == a;
    assert StartIfIdle(a, SOLE, 0, true) == OneQueued();
    DoAddingIsDo(s, ADDED.cmd, ADDED.now, ADDED.saved);
  }

  lemma EmptyStore()
    ensures NewRoom().db == EMPTY
  {
  }

  lemma FirstPlays()
    ensures IsRun(OneQueued(), [FETCHED, STARTED]) && Final(OneQueued(), [FETCHED, STARTED]) == OnePlaying()
  {
    hide Do, Enabled, DoMediaUpdated, DoIngest;
    var s := OneQueued();
    var i := DoIngest(s, SOLE.media, PLAYABLE);
    ReadySteps(s, SOLE.media, PLAYABLE, 0, true);
    StartsFirst();
    RunOfTwo(s, FETCHED, STARTED, i, OnePlaying());
  }

  // OneQueued with the item's media ready, here and in the store.
  function OneFetched(): State {
    OneQueued().(media := map[SOLE.media := PLAYABLE], db := OneQueued().db.(media := map[SOLE.media := PLAYABLE]))
  }

  lemma FetchedEnds(c: C.Clock)
    requires c == OnePlaying().clock
    ensures NextAdvance(OneFetched().(clock := c), 0) == OnePlaying().timers.advance
  {
    assert IndexOf(OneFetched().queue, SOLE.id) == 0;
  }

  lemma FetchedStarts()
    ensures Restart(OneFetched(), true, 0, 0, true) == OnePlaying()
  {
    hide NextAdvance;
    FetchedEnds(OnePlaying().clock);
  }

  lemma StartsFirst()
    ensures DoMediaUpdated(DoIngest(OneQueued(), SOLE.media, PLAYABLE), SOLE.media, PLAYABLE, 0, true) == OnePlaying()
  {
    hide Restart;
    var i := DoIngest(OneQueued(), SOLE.media, PLAYABLE);
    assert IndexOf(i.queue, SOLE.id) == 0;
    assert StartsNow(i, SOLE.media, PLAYABLE);
    assert i.(media := i.media[SOLE.media := PLAYABLE]) == OneFetched();
    FetchedStarts();
  }

  // Both are states that a new room comes to.
  lemma OnePlayingIsReached()
    ensures IsRun(NewRoom(), [ADDED] + [FETCHED, STARTED]) && Final(NewRoom(), [ADDED] + [FETCHED, STARTED]) == OnePlaying()
  {
    hide Do, Enabled, NewRoom, OneQueued, OnePlaying;
    FirstIsAdded();
    FirstPlays();
    RunOne(NewRoom(), ADDED, [FETCHED, STARTED], OneQueued());
  }

  lemma OnePlayingIsCached()
    ensures Cached(OnePlaying()) && Shape(OnePlaying())
  {
    var s := OnePlaying();
    assert VotersIn(s.db.votes, SOLE.id) == {};
    assert SOLE in s.queue;
    assert forall id :: QueuedIn(s.db.rows, id) ==> id == SOLE.id;
  }

  // A save fails, the history is cleared, and the process restarts.
  const RESTART := Event(Load([], [], PLAIN, false), 7, true)
  const CLEARING := Event(ClearPlayed, 6, true)
  const SKIPPING := Event(Skip([]), 5, false)

  // The room after its only item left and the save failed.
  predicate SkippedUnsaved(s: State) {
    && s.queue == [] && s.db.playback == OnePlaying().db.playback && s.db.votes == {}
    && s.db.rows == map[SOLE.id := Row(SOLE.media, None, 1, 0, Some(5))]
    && s.clock.current.None? && s.clock.positionAt == 5 && s.settings == PLAIN
  }

  lemma OnePlayingSkipped() returns (s: State)
    ensures Enabled(OnePlaying(), SKIPPING.cmd, SKIPPING.now)
    ensures s == Do(OnePlaying(), SKIPPING.cmd, SKIPPING.now, SKIPPING.saved) && SkippedUnsaved(s)
  {
    assert IndexOf(OnePlaying().queue, SOLE.id) == 0;
    assert Without(OnePlaying().queue, 0) == [];
    s := Next(OnePlaying(), [], 5, false);
  }

  lemma ClearedIsOrphaned(s: State)
    requires SkippedUnsaved(s)
    ensures var t := DoClearPlayed(s);
      t.clock == s.clock && t.settings == s.settings && Orphaned(t.db) && IsListing(t.db, []) && IsHistory(t.db, [])
  {
    var t := DoClearPlayed(s);
    assert SOLE.id in History(s.db);
    assert t.db.rows == map[];
  }

  lemma RestartedOrphan(s: State)
    requires Orphaned(s.db) && IsListing(s.db, []) && IsHistory(s.db, []) && s.clock.positionAt == 5
    requires s.settings == PLAIN
    ensures Enabled(s, RESTART.cmd, RESTART.now) && !Shape(Do(s, RESTART.cmd, RESTART.now, RESTART.saved))
  {
    LoadShape(s, [], [], PLAIN, false, 7);
  }

  lemma ClearedAndRestarted(s: State)
    requires SkippedUnsaved(s)
    ensures IsRun(s, [CLEARING, RESTART]) && !Shape(Final(s, [CLEARING, RESTART]))
  {
    hide Do, Enabled, Shape, IsListing, IsHistory, DoClearPlayed;
    var t := DoClearPlayed(s);
    ClearedIsOrphaned(s);
    RestartedOrphan(t);
    ClearingStep(s, 6, true);
    RunOfTwo(s, CLEARING, RESTART, t, Do(t, RESTART.cmd, RESTART.now, RESTART.saved));
  }

  lemma OrphanRun()
    ensures Cached(OnePlaying()) && Shape(OnePlaying())
    ensures IsRun(OnePlaying(), [SKIPPING] + [CLEARING, RESTART])
    ensures !Shape(Final(OnePlaying(), [SKIPPING] + [CLEARING, RESTART]))
  {
    OnePlayingIsCached();
    var s := OnePlayingSkipped();
    ClearedAndRestarted(s);
    RunOne(OnePlaying(), SKIPPING, [CLEARING, RESTART], s);
  }
}
