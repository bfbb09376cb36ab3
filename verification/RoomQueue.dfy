// What the queue commands do to the order that viewers see, when they are
// refused, and when the votes of the viewers end an item.
module RoomQueue {
  import opened Base
  import opened Order
  import opened FairTurns
  import opened Moves
  import opened Store
  import opened RoomSpec
  import opened RoomCommands
  import opened RoomCache
  import opened RoomShape
  import opened RoomTurns
  import RoomSwitch

  // ---------------------------------------------------------------------
  // Moves
  // ---------------------------------------------------------------------

  // t is s with the item at i of its queue at j, and everything else in order.
  ghost predicate Moved(s: seq<Item>, t: seq<Item>, i: nat, j: nat) {
    i < |s| && j < |t| && t[j].id == s[i].id && Ids(Without(t, j)) == Ids(Without(s, i))
  }

  lemma AppliedIds(s: State, o: seq<Item>)
    ensures Ids(ApplyOrder(s, o).queue) == Ids(o)
  {
  }

  lemma IdsOfMoved(q: seq<Item>, o: seq<Item>, r: seq<Item>, i: nat, j: nat)
    requires Distinct(o) && Ids(r) == Ids(o) && i < |q| && j < |o| && o[j] == q[i] && Without(o, j) == Without(q, i)
    ensures Moved(q, r, i, j) && IndexOf(r, q[i].id) == j
  {
    assert |r| == |Ids(r)| == |o| && forall k :: 0 <= k < |o| ==> r[k].id == Ids(r)[k] == o[k].id;
    assert Ids(Without(r, j)) == Ids(Without(o, j));
    assert r[j].id == q[i].id;
  }

  // A move is refused where an order is kept by rule, for an unknown item, for
  // the current one, and behind itself or an unknown one. Else the item comes
  // right behind the one it was placed after, or leads, and nothing else moves.
  lemma MoveLands(s: State, id: ItemId, after: Option<ItemId>)
    requires Cached(s)
    ensures var t, i := DoMove(s, id, after), IndexOf(s.queue, id);
      if s.settings.voteMode || s.settings.fairQueue || i < 0 || s.clock.current == Some(id)
         || (after.Some? && (after.value == id || IndexOf(s.queue, after.value) < 0))
      then t == s
      else var j := IndexOf(t.queue, id);
        && j >= 0 && Moved(s.queue, t.queue, i, j)
        && (after.Some? ==> j > 0 && t.queue[j - 1].id == after.value)
        && (after.None? ==> j == 0 || (j == 1 && s.clock.current == Some(t.queue[0].id)))
        && (s.clock.current == Some(s.queue[0].id) ==> t.queue[0].id == s.queue[0].id)
  {
    hide Cached, ApplyOrder, PlaceAfter, Distinct, Moved;
    CachedIsDistinct(s);
    var i := IndexOf(s.queue, id);
    if !OrderedByRule(s) && i >= 0 && s.clock.current != Some(id) {
      PlaceAfterPlaces(s.queue, i, after, s.clock.current);
      AnchorKnown(s.queue, after);
      if PlaceAfter(s.queue, i, after, s.clock.current).Some? {
        PlacedLands(s, i, after);
      }
    }
  }

  lemma PlacedLands(s: State, i: nat, after: Option<ItemId>)
    requires Distinct(s.queue) && i < |s.queue| && s.clock.current != Some(s.queue[i].id)
    requires PlaceAfter(s.queue, i, after, s.clock.current).Some?
    ensures var q := ApplyOrder(s, PlaceAfter(s.queue, i, after, s.clock.current).value).queue;
      var j := IndexOf(q, s.queue[i].id);
      && j >= 0 && Moved(s.queue, q, i, j)
      && (after.Some? ==> j > 0 && q[j - 1].id == after.value)
      && (after.None? ==> j == 0 || (j == 1 && s.clock.current == Some(q[0].id)))
      && (s.clock.current == Some(s.queue[0].id) ==> q[0].id == s.queue[0].id)
  {
    hide ApplyOrder, PlaceAfter, Distinct, Without, Ids, Moved;
    PlaceAfterPlaces(s.queue, i, after, s.clock.current);
    var o := PlaceAfter(s.queue, i, after, s.clock.current).value;
    AppliedIds(s, o);
    IdsOfMoved(s.queue, o, ApplyOrder(s, o).queue, i, IndexOf(o, s.queue[i].id));
    SameIdAt(o, ApplyOrder(s, o).queue);
  }

  lemma AnchorKnown(q: seq<Item>, after: Option<ItemId>)
    ensures after.Some? ==> (IndexOf(q, after.value) < 0 <==> forall it :: it in q ==> it.id != after.value)
  {
    if after.Some? && IndexOf(q, after.value) >= 0 {
      assert q[IndexOf(q, after.value)] in q;
    }
  }

  lemma SameIdAt(x: seq<Item>, y: seq<Item>)
    requires Ids(y) == Ids(x)
    ensures |x| == |y| && forall i :: 0 <= i < |x| ==> x[i].id == y[i].id
  {
    assert |Ids(x)| == |x| && |Ids(y)| == |y|;
    assert forall i :: 0 <= i < |x| ==> Ids(x)[i] == x[i].id && Ids(y)[i] == y[i].id;
  }

  // ---------------------------------------------------------------------
  // Additions
  // ---------------------------------------------------------------------

  // Up to two hundred items; media that the room has only on demand.
  lemma AdmittedExactly(s: State, l: Link, force: bool)
    ensures AddAccepted(s, l, force) <==>
      && !s.closed && |s.queue| < 200
      && (force || forall it :: it in s.queue || it in s.played ==> it.media != l.media)
  {
  }

  // In a room without an order by rule the new item comes last, or right
  // behind the current one when that is asked for.
  lemma AddLands(s: State, l: Link, user: Option<UserId>, next: bool, force: bool, now: int, saved: bool)
    requires Cached(s) && Placed(s) && l.id !in s.db.used && AddAccepted(s, l, force) && s.clock.current.Some?
    requires !s.settings.voteMode && !s.settings.fairQueue
    ensures var t := DoAdd(s, l, user, next, force, now, saved);
      if next then
        var i, j := IndexOf(t.queue, s.clock.current.value), IndexOf(t.queue, l.id);
        i >= 0 && j == i + 1 && j < |t.queue| && Ids(Without(t.queue, j)) == Ids(s.queue)
      else Ids(t.queue) == Ids(s.queue) + [l.id]
  {
    hide Cached, Placed, Distinct, Without, Ids, InsertLink, PlaceNext, DoAdd, AddAccepted;
    var a, it := Appended(s, l, user), NewItem(s.db, l, user);
    AddedIs(s, l, user, next, force, now, saved);
    AppendedCached(s, l, user);
    CachedIsDistinct(a);
    NewIsLast(s, it);
    if next {
      PlacedNext(s, a, it);
    }
  }

  lemma AddedIs(s: State, l: Link, user: Option<UserId>, next: bool, force: bool, now: int, saved: bool)
    requires AddAccepted(s, l, force) && s.clock.current.Some? && !s.settings.voteMode && !s.settings.fairQueue
    ensures var a := Appended(s, l, user);
      DoAdd(s, l, user, next, force, now, saved).queue == if next && s.queue != [] then PlaceNext(a).queue else a.queue
  {
    hide InsertLink, PlaceNext, NewItem, AddAccepted;
    PlaceNextKeeps(Appended(s, l, user));
  }

  lemma PlaceNextKeeps(a: State)
    requires a.queue != []
    ensures PlaceNext(a).settings == a.settings && PlaceNext(a).clock == a.clock
  {
    hide ApplyOrder, PlaceAfter;
  }

  lemma PlacedNext(s: State, a: State, it: Item)
    requires a.queue == s.queue + [it] && Distinct(a.queue) && Placed(s) && s.clock.current.Some? && a.clock == s.clock
    ensures var q := PlaceNext(a).queue;
      var i, j := IndexOf(q, s.clock.current.value), IndexOf(q, it.id);
      i >= 0 && j == i + 1 && j < |q| && Ids(Without(q, j)) == Ids(s.queue)
  {
    hide Placed, ApplyOrder, PlaceAfter, Distinct, Without, Ids;
    var n, current := |s.queue|, s.clock.current;
    NewIsLast(s, it);
    PlaceAfterPlaces(a.queue, n, current, current);
    AnchorKnown(a.queue, current);
    var o := PlaceAfter(a.queue, n, current, current).value;
    AppliedIds(a, o);
    var j := IndexOf(o, it.id);
    IdsOfMoved(a.queue, o, ApplyOrder(a, o).queue, n, j);
    hide Moved;
    MovedRest(a.queue, ApplyOrder(a, o).queue, n, j);
    SameIdAt(o, ApplyOrder(a, o).queue);
    FirstAt(ApplyOrder(a, o).queue, o, j - 1);
  }

  lemma MovedRest(s: seq<Item>, t: seq<Item>, i: nat, j: nat)
    requires Moved(s, t, i, j)
    ensures i < |s| && j < |t| && Ids(Without(t, j)) == Ids(Without(s, i))
  {
  }

  lemma NewIsLast(s: State, it: Item)
    requires Placed(s) && s.clock.current.Some? && Distinct(s.queue + [it])
    ensures IndexOf(s.queue + [it], s.clock.current.value) >= 0 && s.clock.current.value != it.id && s.queue != []
    ensures Without(s.queue + [it], |s.queue|) == s.queue
    ensures Ids(s.queue + [it]) == Ids(s.queue) + [it.id]
  {
    HasIdIndex(s.queue, s.clock.current.value);
    var i := IndexOf(s.queue, s.clock.current.value);
    assert (s.queue + [it])[i] == s.queue[i] && (s.queue + [it])[|s.queue|] == it;
  }

  lemma FirstAt(r: seq<Item>, o: seq<Item>, i: nat)
    requires Distinct(o) && |r| == |o| && i < |o| && forall k :: 0 <= k < |o| ==> r[k].id == o[k].id
    ensures IndexOf(r, o[i].id) == i
  {
  }

  // ---------------------------------------------------------------------
  // Shuffles and clearing
  // ---------------------------------------------------------------------

  lemma IdsWithout(q: seq<Item>, i: nat)
    requires i < |q|
    ensures multiset(Ids(q)) == multiset(Ids(Without(q, i))) + multiset{q[i].id}
  {
    assert Ids(q) == Ids(q)[..i] + [q[i].id] + Ids(q)[i + 1..];
    assert Ids(Without(q, i)) == Ids(q)[..i] + Ids(q)[i + 1..];
  }

  lemma {:induction false} IdsPermuted(x: seq<Item>, y: seq<Item>)
    requires multiset(x) == multiset(y)
    ensures multiset(Ids(x)) == multiset(Ids(y))
    decreases |x|
  {
    hide Ids, Without;
    assert |x| == |multiset(x)| == |multiset(y)| == |y|;
    if x != [] {
      assert x[0] in multiset(y);
      var i :| 0 <= i < |y| && y[i] == x[0];
      WithoutPermutes(x, 0);
      WithoutPermutes(y, i);
      IdsWithout(x, 0);
      IdsWithout(y, i);
      WithoutShorter(x, 0);
      assert multiset(Without(x, 0)) == multiset(x) - multiset{x[0]} == multiset(Without(y, i));
      IdsPermuted(Without(x, 0), Without(y, i));
    } else {
      assert x == y;
    }
  }

  lemma WithoutShorter(q: seq<Item>, i: nat)
    requires i < |q|
    ensures |Without(q, i)| < |q|
  {
  }

  // A shuffle keeps every item, and a current item that leads in its place;
  // it is refused where an order is kept by rule.
  lemma ShuffleKeeps(s: State, rest: seq<Item>)
    requires multiset(rest) == multiset(s.queue[Pinned(s)..])
    ensures var t := DoShuffle(s, rest);
      && multiset(Ids(t.queue)) == multiset(Ids(s.queue)) && |t.queue| == |s.queue|
      && (s.queue != [] && s.clock.current == Some(s.queue[0].id) ==> t.queue[0].id == s.queue[0].id)
      && (s.settings.voteMode || s.settings.fairQueue ==> t == s)
  {
    hide ApplyOrder, Ids;
    var p := Pinned(s);
    var o := s.queue[..p] + rest;
    assert s.queue == s.queue[..p] + s.queue[p..];
    IdsPermuted(o, s.queue);
    AppliedIds(s, o);
    SameIdAt(o, ApplyOrder(s, o).queue);
    assert |o| == |multiset(o)| == |multiset(s.queue)| == |s.queue|;
  }

  // Clearing leaves the current item, if it is queued, and the history.
  lemma ClearLeaves(s: State)
    requires Cached(s)
    ensures var t := DoClear(s);
      && t.clock == s.clock && t.played == s.played
      && forall it :: it in t.queue <==> it in s.queue && s.clock.current == Some(it.id)
  {
    CachedIsDistinct(s);
    var t := DoClear(s);
    forall it | it in s.queue && s.clock.current == Some(it.id) ensures it in t.queue {
      var i :| 0 <= i < |s.queue| && s.queue[i] == it;
      assert IndexOf(s.queue, it.id) == i;
    }
  }

  // ---------------------------------------------------------------------
  // Votes to skip
  // ---------------------------------------------------------------------

  // The viewers who voted, with this one's vote given or taken back.
  function Voters(s: State, user: UserId): set<UserId> {
    if user in s.skipVotes then s.skipVotes - {user} else s.skipVotes + {user}
  }

  lemma OnlineExactly(s: State)
    ensures forall u :: u in OnlineUsers(s) <==> exists c :: c in s.viewers && s.viewers[c].user == Some(u)
  {
  }

  lemma Reaches(votes: nat, share: real, n: int)
    requires 1 <= n && share <= n as real && (n > 1 ==> (n - 1) as real < share)
    ensures votes >= n <==> votes >= 1 && share <= votes as real
  {
    if votes >= 1 && share <= votes as real && n > 1 {
      assert (n - 1) as real < votes as real;
    }
  }

  lemma VotesOutExactly(s: State, user: UserId)
    requires s.settings.voteMode && s.clock.current.Some?
    ensures VotesOut(s, user) <==> Voters(s, user) != {} && Share(s) <= |Voters(s, user)| as real
  {
    hide OnlineUsers, SkipNeeded, Share;
    var counted := SkipToggled(s, user);
    SkipNeededIsLeast(counted);
    SameOnline(s, counted);
    Reaches(|Voters(s, user)|, Share(counted), SkipNeeded(counted));
  }

  // In vote mode the item ends once somebody voted and the voters are no
  // fewer than the share of the online users that the room asks for.
  lemma SkipVoteEnds(s: State, user: UserId, order: seq<ItemId>, now: int, saved: bool)
    ensures var t, voters := DoSkipVote(s, user, order, now, saved), Voters(s, user);
      var counted := s.(skipVotes := voters);
      if !s.settings.voteMode || s.clock.current.None? then t == s
      else if voters != {} && |OnlineUsers(s)| as real * s.settings.skipThreshold <= |voters| as real
      then t == Next(counted, order, now, saved)
      else t == counted
  {
    hide Next, OnlineUsers, VotesOut;
    if s.settings.voteMode && s.clock.current.Some? {
      VotesOutExactly(s, user);
    }
  }

  lemma SameOnline(s: State, t: State)
    requires t.viewers == s.viewers
    ensures OnlineUsers(t) == OnlineUsers(s) && (t.settings == s.settings ==> Share(t) == Share(s))
  {
  }

  // ---------------------------------------------------------------------
  // Settings and viewers
  // ---------------------------------------------------------------------

  // Settings with a threshold between nothing and everybody are taken whole.
  lemma SettingsAreTaken(s: State, settings: Settings, touched: bool)
    requires Cached(s)
    ensures var t := DoSet(s, settings, touched);
      if 0.0 < settings.skipThreshold <= 1.0 then t.settings == settings && multiset(Ids(t.queue)) == multiset(Ids(s.queue))
      else t == s
  {
    hide VoteReorder, FairReorder, Ids, Distinct, Cached;
    var u := (if touched && !settings.pauseWhenEmpty then s.(timers := s.timers.(empty := false)) else s).(settings := settings);
    CachedIsDistinct(s);
    VoteReorderPermutes(u);
    FairReorderPermutes(u.(skipVotes := {}));
  }

  lemma VoteReorderPermutes(s: State)
    requires Distinct(s.queue)
    ensures multiset(Ids(VoteReorder(s).queue)) == multiset(Ids(s.queue))
  {
    hide ApplyOrder, Ids;
    var w := Waiting(s.queue, s.clock.current);
    SplitPermutes(s.queue, s.clock.current);
    SortByVotesSorts(w);
    var o := VoteOrder(s.queue, s.clock.current);
    assert multiset(o) == multiset(s.queue);
    IdsPermuted(o, s.queue);
    AppliedIds(s, o);
  }

  lemma FairReorderPermutes(s: State)
    requires Distinct(s.queue)
    ensures multiset(Ids(FairReorder(s).queue)) == multiset(Ids(s.queue))
  {
    hide ApplyOrder, Ids;
    var o := FairOrder(s.queue, s.clock.current);
    FairOrderPermutes(s.queue, s.clock.current);
    IdsPermuted(o, s.queue);
    AppliedIds(s, o);
  }

  // A kick ends all connections of one user and no other.
  lemma KickEnds(s: State, user: UserId)
    ensures var t := DoKick(s, user);
      && (forall c :: c in t.viewers ==> t.viewers[c].user != Some(user))
      && (forall c :: c in s.viewers && s.viewers[c].user != Some(user) ==> c in t.viewers && t.viewers[c] == s.viewers[c])
      && t.viewers.Keys <= s.viewers.Keys && t.clock == s.clock
  {
  }

  // ---------------------------------------------------------------------
  // Bulk adds
  // ---------------------------------------------------------------------

  // The first link to each media that is not held yet.
  ghost predicate IsNew(links: seq<Link>, seen: set<MediaId>, i: nat) {
    i < |links| && links[i].media !in seen && forall j :: 0 <= j < i ==> links[j].media != links[i].media
  }

  // The places of the new links, in order: all of them.
  ghost predicate NewPlaces(links: seq<Link>, seen: set<MediaId>, at: seq<nat>) {
    && (forall k :: 0 <= k < |at| ==> IsNew(links, seen, at[k]))
    && (forall k, l :: 0 <= k < l < |at| ==> at[k] < at[l])
    && (forall i: nat :: IsNew(links, seen, i) ==> i in at)
  }

  function LinksAt(links: seq<Link>, at: seq<nat>): seq<Link>
    requires forall k :: 0 <= k < |at| ==> at[k] < |links|
  {
    seq(|at|, k requires 0 <= k < |at| => links[at[k]])
  }

  lemma NewBefore(front: seq<Link>, l: Link, seen: set<MediaId>, i: nat)
    requires i < |front|
    ensures IsNew(front + [l], seen, i) <==> IsNew(front, seen, i)
  {
    var links := front + [l];
    assert links[i] == front[i] && forall j :: 0 <= j < i ==> links[j] == front[j];
  }

  lemma NewOneMore(front: seq<Link>, l: Link, seen: set<MediaId>, at: seq<nat>)
    requires NewPlaces(front, seen, at)
    ensures var links := front + [l];
      NewPlaces(links, seen, if IsNew(links, seen, |front|) then at + [|front|] else at)
  {
    var links, n := front + [l], |front|;
    var more := if IsNew(links, seen, n) then at + [n] else at;
    PlacesInside(front, seen, at);
    forall k | 0 <= k < |more| ensures IsNew(links, seen, more[k]) {
      if k < |at| {
        assert IsNew(front, seen, at[k]);
        NewBefore(front, l, seen, at[k]);
      }
    }
    NewIsPlaced(front, l, seen, at, more);
    hide IsNew;
    assert forall k, j :: 0 <= k < j < |at| ==> at[k] < at[j];
    assert forall k :: 0 <= k < |at| ==> more[k] == at[k] && at[k] < n;
  }

  lemma NewIsPlaced(front: seq<Link>, l: Link, seen: set<MediaId>, at: seq<nat>, more: seq<nat>)
    requires NewPlaces(front, seen, at)
    requires more == if IsNew(front + [l], seen, |front|) then at + [|front|] else at
    ensures forall i: nat :: IsNew(front + [l], seen, i) ==> i in more
  {
    forall i: nat | IsNew(front + [l], seen, i) ensures i in more {
      if i < |front| {
        NewBefore(front, l, seen, i);
        assert i in at;
      } else {
        assert i == |front| && more[|at|] == i;
      }
    }
  }

  // What a bulk add takes: the new links, in order, as far as there is room.
  lemma {:induction false} TakenAreNew(links: seq<Link>, seen: set<MediaId>, room: int) returns (at: seq<nat>)
    ensures NewPlaces(links, seen, at)
    ensures var n := if room < 0 then 0 else if room < |at| then room else |at|;
      Taken(links, seen, room) == LinksAt(links, at)[..n]
  {
    hide NewPlaces;
    if links == [] {
      at := [];
      NothingNew(seen);
    } else {
      var front, l := links[..|links| - 1], links[|links| - 1];
      assert links == front + [l];
      at := TakenAreNew(front, seen, room);
      NewOneMore(front, l, seen, at);
      PlacesInside(front, seen, at);
      TakenMembers(front, seen, at, room);
      assert LinksAt(links, at) == LinksAt(front, at);
      if IsNew(links, seen, |front|) {
        assert LinksAt(links, at + [|front|]) == LinksAt(front, at) + [l];
        NewNotTaken(front, l, seen, room);
        at := at + [|front|];
      } else {
        OldIsHeld(front, l, seen, at);
      }
    }
  }

  lemma NothingNew(seen: set<MediaId>)
    ensures NewPlaces([], seen, [])
  {
  }

  lemma PlacesInside(links: seq<Link>, seen: set<MediaId>, at: seq<nat>)
    requires NewPlaces(links, seen, at)
    ensures forall k :: 0 <= k < |at| ==> at[k] < |links|
  {
  }

  lemma TakenMembers(links: seq<Link>, seen: set<MediaId>, at: seq<nat>, room: int)
    ensures |Taken(links, seen, room)| <= if room < 0 then 0 else room
  {
    TakenLinks(links, seen, room);
  }

  lemma NewNotTaken(front: seq<Link>, l: Link, seen: set<MediaId>, room: int)
    requires IsNew(front + [l], seen, |front|)
    ensures l.media !in seen && forall x :: x in Taken(front, seen, room) ==> x.media != l.media
  {
    TakenLinks(front, seen, room);
    var links := front + [l];
    assert links[|front|] == l;
    forall x | x in front ensures x.media != l.media {
      var j :| 0 <= j < |front| && front[j] == x;
      assert links[j] == x;
    }
  }

  // A link that is not new is to media that is held, or of an earlier new one.
  lemma OldIsHeld(front: seq<Link>, l: Link, seen: set<MediaId>, at: seq<nat>)
    requires NewPlaces(front, seen, at) && !IsNew(front + [l], seen, |front|)
    requires forall k :: 0 <= k < |at| ==> at[k] < |front|
    ensures l.media in seen || exists x :: x in LinksAt(front, at) && x.media == l.media
  {
    if l.media !in seen {
      var links := front + [l];
      assert links[|front|] == l;
      var j :| 0 <= j < |front| && links[j].media == l.media;
      assert front[j] == links[j];
      var i := FirstOf(front, l.media, j);
      assert IsNew(front, seen, i);
      var k :| 0 <= k < |at| && at[k] == i;
      assert LinksAt(front, at)[k] == front[i];
    }
  }

  lemma {:induction false} FirstOf(links: seq<Link>, m: MediaId, j: nat) returns (i: nat)
    requires j < |links| && links[j].media == m
    ensures i <= j && links[i].media == m && forall k :: 0 <= k < i ==> links[k].media != m
    decreases j
  {
    if k :| 0 <= k < j && links[k].media == m {
      i := FirstOf(links, m, k);
    } else {
      i := j;
    }
  }

  function LinkIds(ls: seq<Link>): seq<ItemId> { seq(|ls|, i requires 0 <= i < |ls| => ls[i].id) }

  lemma NewIds(db: Db, ls: seq<Link>, user: Option<UserId>)
    ensures Ids(NewItems(db, ls, user)) == LinkIds(ls)
  {
    RoomSwitch.NewItemIds(db, ls, user);
  }

  lemma WaitingIsRest(q: seq<Item>, current: ItemId)
    requires Distinct(q) && IndexOf(q, current) >= 0
    ensures CurrentOf(q, Some(current)) == Some(q[IndexOf(q, current)])
    ensures Waiting(q, Some(current)) == Without(q, IndexOf(q, current))
  {
    var i := IndexOf(q, current);
    var x, y := q[..i], q[i + 1..];
    assert q == x + [q[i]] + y;
    AllWait(x, Some(current));
    AllWait(y, Some(current));
    WaitingOfSum(x + [q[i]], y, Some(current));
    WaitingOfSum(x, [q[i]], Some(current));
    assert [q[i]][..0] == [];
    CurrentIsThere(q, Some(current));
    var c := CurrentOf(q, Some(current)).value;
    WaitingMembers(q, Some(current));
    var j :| 0 <= j < |q| && q[j] == c;
  }

  lemma IdsOfSum(x: seq<Item>, y: seq<Item>)
    ensures Ids(x + y) == Ids(x) + Ids(y)
  {
  }

  // In a room without an order by rule a batch comes last, or right behind
  // the current item, which then leads.
  lemma AddManyLands(s: State, links: seq<Link>, user: Option<UserId>, next: bool, now: int, saved: bool)
    requires Cached(s) && Placed(s) && s.clock.current.Some? && !s.settings.voteMode && !s.settings.fairQueue
    ensures IndexOf(s.queue, s.clock.current.value) >= 0
    ensures var t := DoAddMany(s, links, user, next, now, saved);
      var taken := Taken(links, HeldMedia(s), 200 - |s.queue|);
      var rest := Without(s.queue, IndexOf(s.queue, s.clock.current.value));
      if s.closed || taken == [] then t == s
      else Ids(t.queue) == if next then [s.clock.current.value] + LinkIds(taken) + Ids(rest) else Ids(s.queue) + LinkIds(taken)
  {
    hide Cached, Placed, Taken, NewItems, InsertLinks, WithMedia, ApplyOrder, Ids, Without, Distinct;
    CachedIsDistinct(s);
    PlacedCurrent(s);
    var taken := Taken(links, HeldMedia(s), 200 - |s.queue|);
    TakenLinks(links, HeldMedia(s), 200 - |s.queue|);
    var added, current := NewItems(s.db, taken, user), s.clock.current.value;
    NewIds(s.db, taken, user);
    WaitingIsRest(s.queue, current);
    var a := s.(db := InsertLinks(s.db, taken, user), media := WithMedia(s.media, s.db, taken));
    var o := BatchAfterCurrent(s.queue, added, Some(current));
    AppliedIds(a, o);
    var cur, rest := s.queue[IndexOf(s.queue, current)], Without(s.queue, IndexOf(s.queue, current));
    assert o == [cur] + (added + rest);
    IdsOfSum([cur], added + rest);
    IdsOfSum(added, rest);
    IdsOfSum(s.queue, added);
    IdsOfOne(cur);
    ManyAddedIs(s, taken, user, next);
  }

  lemma IdsOfOne(it: Item)
    ensures Ids([it]) == [it.id]
  {
  }

  lemma ManyAddedIs(s: State, taken: seq<Link>, user: Option<UserId>, next: bool)
    requires s.clock.current.Some? && !s.settings.voteMode && !s.settings.fairQueue
    ensures var a := s.(db := InsertLinks(s.db, taken, user), media := WithMedia(s.media, s.db, taken));
      var added, b := NewItems(s.db, taken, user), AddedMany(s, taken, user, next);
      && FairReorder(b) == b && b.clock == s.clock
      && b.queue == if next then ApplyOrder(a, BatchAfterCurrent(s.queue, added, s.clock.current)).queue else s.queue + added
  {
    hide NewItems, InsertLinks, WithMedia, ApplyOrder, BatchAfterCurrent;
  }

  // A retry is for failed media of a queued item, and queues it again.
  lemma RetryQueues(s: State, id: ItemId)
    ensures var t, i := DoRetry(s, id), IndexOf(s.queue, id);
      if i >= 0 && s.queue[i].media in s.media && s.media[s.queue[i].media].status == MediaFailed
      then var m := s.queue[i].media;
        && t.media == s.media[m := Media(MediaQueued, s.media[m].duration)]
        && (m in s.db.media ==> m in t.db.media && t.db.media[m].status == MediaQueued)
        && t.queue == s.queue && t.clock == s.clock
      else t == s
  {
  }
}
