// Whatever becomes current starts: an advance, a jump, the first addition, and
// a reload that lost the current item all begin the new one at its top, and it
// plays exactly when its media is ready. Only the restart of an empty room
// stops at the top.
module RoomSwitch {
  import opened Base
  import opened Order
  import opened FairTurns
  import opened Moves
  import opened Store
  import opened RoomSpec
  import opened RoomCommands
  import opened RoomCache
  import opened RoomShape
  import RoomVotes
  import opened RoomNext
  import opened RoomModes
  import opened RoomDrift
  import opened RoomTurns

  // At the top of an item, at normal speed.
  predicate AtTop(t: State, now: int) {
    t.clock.positionMs == 0 && t.clock.positionAt == now && t.clock.rate == 4
  }

  // The current item plays exactly when its media is ready.
  ghost predicate PlaysIfReady(t: State) {
    forall it :: it in t.queue && t.clock.current == Some(it.id) ==>
      (t.clock.playing <==> it.media in t.media && t.media[it.media].status == MediaReady)
  }

  // The item id took over: nothing is pending, nobody voted to skip it.
  ghost predicate Starts(t: State, id: ItemId, now: int) {
    && t.clock.current == Some(id) && AtTop(t, now) && PlaysIfReady(t)
    && t.waiting.None? && t.countdown.None? && t.skipVotes == {}
  }

  predicate Stops(t: State, now: int) { t.clock.current.None? && !t.clock.playing && t.clock.positionMs == 0 && t.clock.positionAt == now }

  // ---------------------------------------------------------------------
  // The switch
  // ---------------------------------------------------------------------

  lemma SwitchStarts(d: State, it: Item, now: int, saved: bool)
    requires Distinct(d.queue) && it in d.queue
    ensures var t := Persist(SetCurrent(d, Some(it), now), now, saved); Starts(t, it.id, now) && t.queue == d.queue
  {
    hide NextAdvance;
    var t := Persist(SetCurrent(d, Some(it), now), now, saved);
    forall x | x in t.queue && x.id == it.id ensures x == it {
      var i :| 0 <= i < |d.queue| && d.queue[i] == x;
      var j :| 0 <= j < |d.queue| && d.queue[j] == it;
    }
  }

  lemma SwitchStops(d: State, now: int, saved: bool)
    ensures var t := Persist(SetCurrent(d, None, now), now, saved); Stops(t, now) && t.queue == d.queue
  {
    hide NextAdvance;
  }

  lemma StopIsAtTop(l: State, id: ItemId, now: int, saved: bool)
    ensures var t := Persist(StopAtTop(l, id, now), now, saved);
      t.clock.current == Some(id) && AtTop(t, now) && !t.clock.playing && t.queue == l.queue
  {
    hide NextAdvance;
  }

  // ---------------------------------------------------------------------
  // Advances
  // ---------------------------------------------------------------------

  // The queue restarts while nobody is there.
  predicate RestartsEmpty(s: State) { s.settings.loop && RunsOut(s) && s.viewers == map[] }

  ghost predicate MovesOn(s: State, t: State, now: int) {
    if t.clock.current.None? then Stops(t, now)
    else if RestartsEmpty(s) then
      t.queue != [] && t.clock.current == Some(t.queue[0].id) && AtTop(t, now) && !t.clock.playing
    else Starts(t, t.clock.current.value, now)
  }

  lemma NextStarts(s: State, order: seq<ItemId>, now: int, saved: bool)
    requires Cached(s) && Placed(s) && s.clock.current.Some? && NextReady(s, order, now)
    ensures MovesOn(s, Next(s, order, now, saved), now)
  {
    hide Cached, Placed, Drop, Lap, SetCurrent, StopAtTop, Persist, Starts, Stops, AtTop, RunsOut, NextReady, Distinct;
    var d, idx := Drop(s, now), IndexOf(s.queue, s.clock.current.value);
    RunsOutExactly(s, now);
    DropCached(s, now);
    DropKeeps(s, now);
    if Laps(d) {
      var l := Lap(d, order);
      LapIsReady(s, order, now);
      CachedIsDistinct(l);
      if l.queue == [] {
        SwitchStops(l, now, saved);
        StopsNone(Persist(SetCurrent(l, None, now), now, saved), now);
      } else if l.viewers == map[] {
        StopIsAtTop(l, l.queue[0].id, now, saved);
      } else {
        SwitchStarts(l, l.queue[0], now, saved);
        StartsSome(Persist(SetCurrent(l, Some(l.queue[0]), now), now, saved), l.queue[0].id, now);
      }
    } else {
      CachedIsDistinct(d);
      var next := Following(d.queue, idx);
      if next.None? {
        SwitchStops(d, now, saved);
        StopsNone(Persist(SetCurrent(d, None, now), now, saved), now);
      } else {
        FollowingIsIn(d.queue, idx);
        SwitchStarts(d, next.value, now, saved);
        StartsSome(Persist(SetCurrent(d, next, now), now, saved), next.value.id, now);
      }
    }
  }

  lemma StopsNone(t: State, now: int)
    requires Stops(t, now)
    ensures t.clock.current.None?
  {
  }

  lemma StartsSome(t: State, id: ItemId, now: int)
    requires Starts(t, id, now)
    ensures t.clock.current == Some(id)
  {
  }

  lemma FollowingIsIn(q: seq<Item>, idx: int)
    ensures Following(q, idx).Some? ==> Following(q, idx).value in q
  {
  }

  lemma DropKeeps(s: State, now: int)
    requires s.clock.current.Some?
    ensures Drop(s, now).viewers == s.viewers && Drop(s, now).settings == s.settings
  {
  }

  lemma LapIsReady(s: State, order: seq<ItemId>, now: int)
    requires s.clock.current.Some? && NextReady(s, order, now) && Laps(Drop(s, now)) && Cached(Drop(s, now))
    ensures var l := Lap(Drop(s, now), order); Cached(l) && l.viewers == Drop(s, now).viewers
  {
    hide Drop, Lap, Cached, IsLap;
    LapCached(Drop(s, now), order);
  }

  // ---------------------------------------------------------------------
  // Jumps, the first addition, and a lost current item
  // ---------------------------------------------------------------------

  lemma JumpStarts(s: State, id: ItemId, now: int, saved: bool)
    requires Cached(s) && Placed(s)
    ensures var t := DoJump(s, id, now, saved);
      if IndexOf(s.queue, id) < 0 then t == s else Starts(t, id, now)
  {
    hide Cached, Placed, SetCurrent, Persist, Starts, JumpedFrom;
    if IndexOf(s.queue, id) >= 0 {
      var it := s.queue[IndexOf(s.queue, id)];
      JumpedHas(s, id, now);
      SwitchStarts(JumpedFrom(s, id, now), it, now, saved);
    }
  }

  lemma JumpedHas(s: State, id: ItemId, now: int)
    requires Cached(s) && IndexOf(s.queue, id) >= 0
    ensures var q := JumpedFrom(s, id, now).queue; Distinct(q) && s.queue[IndexOf(s.queue, id)] in q
  {
    var it := s.queue[IndexOf(s.queue, id)];
    assert it in s.queue;
    if s.clock.current.Some? && !IsCurrentId(s, id) && IndexOf(s.queue, s.clock.current.value) >= 0 {
      WithoutPermutes(s.queue, IndexOf(s.queue, s.clock.current.value));
    }
  }

  // Nothing was current: the added item starts, wherever it is queued.
  lemma IdleStarts(a: State, it: Item, now: int, saved: bool)
    requires a.clock.current.None? && Distinct(a.queue) && HasId(a.queue, it.id)
    requires forall x :: x in a.queue && x.id == it.id ==> x.media == it.media
    ensures Starts(StartIfIdle(a, it, now, saved), it.id, now)
  {
    hide NextAdvance;
  }

  // What the commands that add start: their first new item.
  function FirstAdded(s: State, c: Cmd): ItemId
    requires Adds(c) && Gains(s, c) > 0
  {
    match c
    case Add(l, _, _, _) => l.id
    case AddMany(ls, _, _) => Taken(ls, HeldMedia(s), QUEUE_LIMIT - |s.queue|)[0].id
    case Replay(_, _, id, _) => id
  }

  // Taking turns keeps every item and its media.
  lemma ReorderedMedia(a: State, it: Item)
    requires Distinct(a.queue) && it in a.queue
    ensures var q := FairReorder(a).queue;
      Distinct(q) && HasId(q, it.id) && forall x :: x in q && x.id == it.id ==> x.media == it.media
  {
    hide FairOrder, Distinct;
    var o, q := FairOrder(a.queue, a.clock.current), FairReorder(a).queue;
    FairReorderDistinct(a);
    FairReorderIds(a);
    FairOrderPermutes(a.queue, a.clock.current);
    forall x | x in q && x.id == it.id ensures x.media == it.media {
      var i :| 0 <= i < |q| && q[i] == x;
      if q == a.queue {
        OneOfId(a.queue, x, it);
      } else {
        assert o[i].id == x.id && o[i].media == x.media && o[i] in multiset(o);
        assert o[i] in a.queue;
        OneOfId(a.queue, o[i], it);
      }
    }
  }

  lemma OneOfId(q: seq<Item>, x: Item, y: Item)
    requires Distinct(q) && x in q && y in q && x.id == y.id
    ensures x == y
  {
    var i :| 0 <= i < |q| && q[i] == x;
    var j :| 0 <= j < |q| && q[j] == y;
  }

  lemma AddedStarts(a: State, it: Item, now: int, saved: bool)
    requires a.clock.current.None? && Distinct(a.queue) && it in a.queue
    ensures Starts(StartIfIdle(FairReorder(a), it, now, saved), it.id, now)
  {
    hide Distinct, FairReorder, StartIfIdle, Starts;
    ReorderedMedia(a, it);
    FairReorderDistinct(a);
    IdleStarts(FairReorder(a), it, now, saved);
  }

  lemma AddStarts(s: State, c: Cmd, now: int, saved: bool)
    requires Cached(s) && Placed(s) && s.clock.current.None? && c.Add? && Gains(s, c) > 0 && c.link.id !in s.db.used
    ensures Starts(DoAdding(s, c, now, saved), c.link.id, now)
  {
    hide Cached, Placed, FairReorder, StartIfIdle, Starts, Distinct;
    var l, user := c.link, c.adder;
    var a, it := Appended(s, l, user), NewItem(s.db, l, user);
    AppendedCached(s, l, user);
    CachedIsDistinct(a);
    assert a.queue[|s.queue|] == it;
    AddedStarts(a, it, now, saved);
  }

  lemma {:induction false} NewItemIds(db: Db, ls: seq<Link>, user: Option<UserId>)
    ensures |NewItems(db, ls, user)| == |ls| && forall i :: 0 <= i < |ls| ==> NewItems(db, ls, user)[i].id == ls[i].id
  {
    if ls != [] {
      NewItemIds(db, ls[..|ls| - 1], user);
    }
  }

  lemma AddManyStarts(s: State, c: Cmd, now: int, saved: bool)
    requires Cached(s) && Placed(s) && s.clock.current.None? && c.AddMany? && Gains(s, c) > 0
    requires forall l :: l in c.links ==> l.id !in s.db.used
    requires forall i, j :: 0 <= i < j < |c.links| ==> c.links[i].id != c.links[j].id
    ensures Starts(DoAdding(s, c, now, saved), FirstAdded(s, c), now)
  {
    hide Cached, Placed, FairReorder, StartIfIdle, Starts, Distinct, Taken, NewItems, InsertLinks;
    var links, user, next := c.links, c.adder, c.next;
    var taken := Taken(links, HeldMedia(s), QUEUE_LIMIT - |s.queue|);
    TakenLinks(links, HeldMedia(s), QUEUE_LIMIT - |s.queue|);
    var a := AddedMany(s, taken, user, next);
    AddedManyIds(s, taken, user, next);
    NewItemIds(s.db, taken, user);
    assert a.queue == s.queue + NewItems(s.db, taken, user);
    assert a.queue[|s.queue|] == NewItems(s.db, taken, user)[0];
    RoomVotes.AddedManySettings(s, taken, user, next);
    AddedStarts(a, NewItems(s.db, taken, user)[0], now, saved);
  }

  lemma ReplayStarts(s: State, c: Cmd, now: int, saved: bool)
    requires Cached(s) && s.clock.current.None? && c.Replay? && Gains(s, c) > 0 && c.id !in s.db.used
    ensures Starts(DoAdding(s, c, now, saved), c.id, now)
  {
    hide FairReorder, StartIfIdle, Starts;
    var l := Link(ItemById(s.played, c.source).value.media, c.id, c.created);
    InsertMirrors(s.db, s.queue, s.votes, l, c.adder);
    var a := Requeue(s, l, c.adder);
    assert a.queue[|s.queue|] == NewItem(s.db, l, c.adder);
    AddedStarts(a, NewItem(s.db, l, c.adder), now, saved);
  }

  // The first item that is added while nothing is current starts; while
  // something is, the clock is left alone.
  lemma AddingStarts(s: State, c: Cmd, now: int, saved: bool)
    requires Cached(s) && Placed(s) && Adds(c) && Enabled(s, c, now)
    ensures var t := DoAdding(s, c, now, saved);
      if s.clock.current.None? && Gains(s, c) > 0 then Starts(t, FirstAdded(s, c), now) else t.clock == s.clock
  {
    hide Cached, Placed, DoAdding, Gains, Starts;
    if s.clock.current.Some? {
      AddingKeepsClock(s, c, now, saved);
    } else if Gains(s, c) == 0 {
      NothingAdded(s, c, now, saved);
    } else {
      match c
      case Add(l, user, next, force) => AddStarts(s, c, now, saved);
      case AddMany(ls, user, next) => AddManyStarts(s, c, now, saved);
      case Replay(source, user, id, created) => ReplayStarts(s, c, now, saved);
    }
  }

  lemma NothingAdded(s: State, c: Cmd, now: int, saved: bool)
    requires Adds(c) && Gains(s, c) == 0
    ensures DoAdding(s, c, now, saved) == s
  {
    hide StartIfIdle, FairReorder, AddedMany, NewItems;
  }

  // A current item that is gone gives way to the head of the queue, which
  // starts; one that is still there plays on.
  lemma MediaDeletedStarts(s: State, gone: set<MediaId>, q: seq<Item>, h: seq<Item>, now: int, saved: bool)
    requires IsListing(WithoutMedia(s.db, gone), q)
    ensures var t := DoMediaDeleted(s, gone, q, h, now, saved);
      if s.clock.current.None? || IndexOf(q, s.clock.current.value) >= 0 then t.clock == s.clock
      else if q == [] then Stops(t, now)
      else Starts(t, q[0].id, now)
  {
    hide SetCurrent, Persist, Starts, Stops, WithoutMedia, Reread, MediaFor, VotesByUser;
    var r := RereadWithout(s, gone, q, h);
    RereadClock(s, gone, q, h);
    SwitchStops(r, now, saved);
    if q != [] {
      SwitchStarts(r, q[0], now, saved);
    }
  }

  lemma RereadClock(s: State, gone: set<MediaId>, q: seq<Item>, h: seq<Item>)
    ensures var r := RereadWithout(s, gone, q, h); r.clock == s.clock && r.queue == q
  {
  }

  // ---------------------------------------------------------------------
  // Every step
  // ---------------------------------------------------------------------

  // What is current after a step was so before it, or has just started, or
  // is where an empty room stopped; and nothing is current after a stop.
  ghost predicate SwitchesWell(s: State, t: State, now: int) {
    || t.clock.current == s.clock.current
    || (t.clock.current.None? && Stops(t, now))
    || (t.clock.current.Some? && Starts(t, t.clock.current.value, now))
    || (RestartsEmpty(s) && t.queue != [] && t.clock.current == Some(t.queue[0].id) && AtTop(t, now) && !t.clock.playing)
  }

  lemma EndSessionStops(s: State, now: int, saved: bool)
    ensures Stops(DoEndSession(s, now, saved), now)
  {
    hide MarkAll, NextAdvance;
  }

  lemma NextSwitches(s: State, order: seq<ItemId>, now: int, saved: bool)
    requires Cached(s) && Placed(s) && NextReady(s, order, now)
    ensures SwitchesWell(s, Next(s, order, now, saved), now)
  {
    hide Cached, Placed, Advanced, NextReady, Starts, Stops, AtTop, RestartsEmpty;
    if s.clock.current.Some? {
      NextStarts(s, order, now, saved);
    }
  }

  lemma CountedSwitches(s: State, user: UserId, order: seq<ItemId>, now: int, saved: bool)
    requires Cached(s) && Placed(s) && NextReady(SkipToggled(s, user), order, now)
    ensures SwitchesWell(s, Next(SkipToggled(s, user), order, now, saved), now)
  {
    hide Next, NextReady, Starts, Stops, AtTop;
    NextSwitches(SkipToggled(s, user), order, now, saved);
  }

  lemma AdvancingSwitches(s: State, c: Cmd, now: int, saved: bool)
    requires Cached(s) && Placed(s) && Advances(c) && Enabled(s, c, now)
    ensures SwitchesWell(s, DoAdvancing(s, c, now, saved), now)
  {
    hide Cached, Placed, Next, NextReady, DoJump, DoEndSession, Starts, Stops, AtTop, RestartsEmpty, StillMeant, VotesOut;
    match c
    case Remove(id, order) =>
      if RemovesCurrent(s, id) {
        NextSwitches(s, order, now, saved);
      }
    case Skip(order) => NextSwitches(s, order, now, saved);
    case Jump(id) => JumpStarts(s, id, now, saved); StartsAny(DoJump(s, id, now, saved), id, now);
    case SkipVote(user, order) =>
      if VotesOut(s, user) {
        CountedSwitches(s, user, order, now, saved);
      }
    case EndSession => EndSessionStops(s, now, saved); StopsAny(DoEndSession(s, now, saved), now);
    case Ended(t, order) =>
      if StillMeant(s, t) {
        NextSwitches(s, order, now, saved);
      }
  }

  lemma StartsAny(t: State, id: ItemId, now: int)
    ensures Starts(t, id, now) ==> t.clock.current == Some(id)
  {
  }

  lemma StopsAny(t: State, now: int)
    ensures Stops(t, now) ==> t.clock.current.None?
  {
  }

  // Whatever becomes current starts.
  lemma StepSwitches(s: State, c: Cmd, now: int, saved: bool)
    requires Cached(s) && Placed(s) && Enabled(s, c, now) && !c.Load?
    ensures SwitchesWell(s, Do(s, c, now, saved), now)
  {
    hide Do, DoQuietly, DoAdding, DoReordering, DoAdvancing, Starts, Stops, AtTop, RestartsEmpty, Cached, Placed;
    if LeavesQueue(c) {
      DoQuietlyIsDo(s, c, now, saved);
    } else if Adds(c) {
      DoAddingIsDo(s, c, now, saved);
      AddingStarts(s, c, now, saved);
      if s.clock.current.None? && Gains(s, c) > 0 {
        StartsAny(Do(s, c, now, saved), FirstAdded(s, c), now);
      }
    } else if Reorders(c) {
      DoReorderingIsDo(s, c, now, saved);
    } else if Deletes(c) {
      DoDeletingIsDo(s, c, now, saved);
      DeletingSwitches(s, c, now, saved);
    } else {
      DoAdvancingIsDo(s, c, now, saved);
      AdvancingSwitches(s, c, now, saved);
    }
  }

  lemma DeletingSwitches(s: State, c: Cmd, now: int, saved: bool)
    requires Deletes(c) && Enabled(s, c, now)
    ensures SwitchesWell(s, DoDeleting(s, c, now, saved), now)
  {
    hide Starts, Stops, AtTop, RestartsEmpty, Deleted, DoMediaDeleted;
    match c
    case Clear =>
    case ClearPlayed =>
    case Purge(ids) =>
    case MediaDeleted(gone, q, h) =>
      MediaDeletedStarts(s, gone, q, h, now, saved);
      StopsAny(DoMediaDeleted(s, gone, q, h, now, saved), now);
      if q != [] {
        StartsAny(DoMediaDeleted(s, gone, q, h, now, saved), q[0].id, now);
      }
  }
}
