// Fair turns over whole runs: exactly which steps leave the queue in turns
// while the fair queue is on.
module RoomTurns {
  import opened Base
  import opened Order
  import opened FairTurns
  import opened FairPattern
  import opened Moves
  import opened Store
  import opened RoomSpec
  import opened RoomCommands
  import opened RoomCache
  import opened RoomShape
  import opened RoomSaved
  import RoomVotes
  import opened RoomNext
  import opened RoomModes
  import C = Clock

  // Taking turns would leave the queue as it is.
  predicate InTurns(q: seq<Item>, current: Option<ItemId>) { FairOrder(q, current) == q }

  predicate ByTurns(s: State) { s.settings.fairQueue && !s.settings.voteMode }

  predicate Turning(s: State) { ByTurns(s) ==> InTurns(s.queue, s.clock.current) }

  // ---------------------------------------------------------------------
  // Turns depend on who added what, not on ranks or votes
  // ---------------------------------------------------------------------

  predicate Alike(x: seq<Item>, y: seq<Item>) {
    |x| == |y| && forall i :: 0 <= i < |x| ==> x[i].id == y[i].id && x[i].addedBy == y[i].addedBy
  }

  lemma {:induction false} WaitingAlike(x: seq<Item>, y: seq<Item>, current: Option<ItemId>)
    requires Alike(x, y)
    ensures Alike(Waiting(x, current), Waiting(y, current))
  {
    if x != [] {
      WaitingAlike(x[..|x| - 1], y[..|y| - 1], current);
    }
  }

  lemma {:induction false} CurrentAlike(x: seq<Item>, y: seq<Item>, current: Option<ItemId>)
    requires Alike(x, y)
    ensures var c, d := CurrentOf(x, current), CurrentOf(y, current);
      (c.None? <==> d.None?) && (c.Some? ==> c.value.id == d.value.id && c.value.addedBy == d.value.addedBy)
  {
    if x != [] {
      CurrentAlike(x[..|x| - 1], y[..|y| - 1], current);
    }
  }

  lemma {:induction false} OfAlike(x: seq<Item>, y: seq<Item>, a: Adder)
    requires Alike(x, y)
    ensures Alike(Of(x, a), Of(y, a))
  {
    if x != [] {
      OfAlike(x[..|x| - 1], y[..|y| - 1], a);
    }
  }

  lemma {:induction false} AddersAlike(x: seq<Item>, y: seq<Item>)
    requires Alike(x, y)
    ensures Adders(x) == Adders(y)
  {
    if x != [] {
      AddersAlike(x[..|x| - 1], y[..|y| - 1]);
    }
  }

  lemma NoneAlike()
    ensures Alike([], [])
  {
  }

  lemma AlikeSum(a: seq<Item>, b: seq<Item>, c: seq<Item>, d: seq<Item>)
    requires Alike(a, c) && Alike(b, d)
    ensures Alike(a + b, c + d)
  {
  }

  lemma {:induction false} RoundAlike(x: seq<Item>, y: seq<Item>, seats: seq<Adder>, r: nat)
    requires Alike(x, y)
    ensures Alike(Round(x, seats, r), Round(y, seats, r))
    decreases |seats|
  {
    if seats != [] {
      var front, a := seats[..|seats| - 1], seats[|seats| - 1];
      RoundAlike(x, y, front, r);
      OfAlike(x, y, a);
      AlikeSum(Round(x, front, r), Turn(x, a, r), Round(y, front, r), Turn(y, a, r));
    }
  }

  lemma {:induction false} RoundsAlike(x: seq<Item>, y: seq<Item>, seats: seq<Adder>, n: nat)
    requires Alike(x, y)
    ensures Alike(Rounds(x, seats, n), Rounds(y, seats, n))
    decreases n
  {
    hide Alike, Round;
    if n > 0 {
      RoundsAlike(x, y, seats, n - 1);
      RoundAlike(x, y, seats, n - 1);
      AlikeSum(Rounds(x, seats, n - 1), Round(x, seats, n - 1), Rounds(y, seats, n - 1), Round(y, seats, n - 1));
    } else {
      NoneAlike();
    }
  }

  lemma FairOrderAlike(x: seq<Item>, y: seq<Item>, current: Option<ItemId>)
    requires Alike(x, y)
    ensures Alike(FairOrder(x, current), FairOrder(y, current))
  {
    hide Alike, Waiting, CurrentOf, Adders, Rounds;
    var v, w := Waiting(x, current), Waiting(y, current);
    WaitingAlike(x, y, current);
    AlikeLength(v, w);
    if |v| >= 2 {
      var c, d := CurrentOf(x, current), CurrentOf(y, current);
      CurrentAlike(x, y, current);
      AddersAlike(v, w);
      var seats := Seats(Adders(v), c);
      assert seats == Seats(Adders(w), d);
      RoundsAlike(v, w, seats, |v|);
      LedAlike(c, d, Turns(v, seats), Turns(w, seats));
    }
  }

  lemma AlikeLength(x: seq<Item>, y: seq<Item>)
    requires Alike(x, y)
    ensures |x| == |y|
  {
  }

  lemma LedAlike(c: Option<Item>, d: Option<Item>, x: seq<Item>, y: seq<Item>)
    requires Alike(x, y) && (c.None? <==> d.None?)
    requires c.Some? ==> c.value.id == d.value.id && c.value.addedBy == d.value.addedBy
    ensures Alike(WithCurrent(c, x), WithCurrent(d, y))
  {
  }

  lemma AlikeIsSame(x: seq<Item>, y: seq<Item>)
    requires Distinct(y) && multiset(x) == multiset(y) && Alike(x, y)
    ensures x == y
  {
    forall i | 0 <= i < |x| ensures x[i] == y[i] {
      assert x[i] in multiset(y);
      var j :| 0 <= j < |y| && y[j] == x[i];
      assert y[j].id == y[i].id;
    }
  }

  // New ranks keep a queue in turns.
  lemma AlikeInTurns(x: seq<Item>, y: seq<Item>, current: Option<ItemId>)
    requires Distinct(y) && Alike(x, y) && InTurns(x, current)
    ensures InTurns(y, current)
  {
    FairOrderAlike(x, y, current);
    FairOrderPermutes(y, current);
    AlikeIsSame(FairOrder(y, current), y);
  }

  lemma FairReorderInTurns(s: State)
    requires Distinct(s.queue) && ByTurns(s)
    ensures InTurns(FairReorder(s).queue, s.clock.current)
    ensures Alike(FairReorder(s).queue, FairOrder(s.queue, s.clock.current))
  {
    hide Distinct, FairOrder;
    var o := FairOrder(s.queue, s.clock.current);
    if o != s.queue {
      FairOrderPermutes(s.queue, s.clock.current);
      PermutationDistinct(s.queue, o);
      FairOrderIsIdempotent(s.queue, s.clock.current);
      assert Alike(o, Renumbered(o));
      AlikeInTurns(o, Renumbered(o), s.clock.current);
    }
  }

  // ---------------------------------------------------------------------
  // Who takes over
  // ---------------------------------------------------------------------

  lemma {:induction false} WaitingIsShorter(q: seq<Item>, current: Option<ItemId>)
    ensures |Waiting(q, current)| <= |q|
    ensures CurrentOf(q, current).Some? ==> |Waiting(q, current)| < |q|
  {
    if q != [] {
      WaitingIsShorter(q[..|q| - 1], current);
    }
  }

  // The current item leads a queue in turns.
  lemma CurrentLeads(q: seq<Item>, current: Option<ItemId>)
    requires Distinct(q) && InTurns(q, current) && |Waiting(q, current)| >= 2
    ensures q == WithCurrent(CurrentOf(q, current), Waiting(q, current))
  {
    WaitingIsTurns(q, current);
  }

  lemma AdvanceInTurns(q: seq<Item>, current: Option<ItemId>)
    requires Distinct(q) && InTurns(q, current) && |Waiting(q, current)| >= 2
    ensures var w := Waiting(q, current); Distinct(w) && InTurns(w, Some(w[0].id))
  {
    WaitingDistinct(q, current);
    FairOrderSurvivesAdvance(q, current);
  }

  lemma TailWaits(w: seq<Item>)
    requires Distinct(w) && w != []
    ensures Waiting(w, Some(w[0].id)) == w[1..]
  {
    WaitingOfSum([w[0]], w[1..], Some(w[0].id));
    AllWait(w[1..], Some(w[0].id));
    assert w == [w[0]] + w[1..];
    assert Waiting([w[0]], Some(w[0].id)) == [];
  }

  lemma ShortInTurns(q: seq<Item>, current: Option<ItemId>)
    requires |q| <= 1
    ensures InTurns(q, current)
  {
    WaitingIsShorter(q, current);
  }

  // Items skipped at the head leave the rest in turns.
  lemma {:induction false} SkippedInTurns(w: seq<Item>, k: nat)
    requires Distinct(w) && k < |w| && InTurns(w, Some(w[0].id))
    ensures InTurns(w[k..], Some(w[k].id))
    decreases k
  {
    hide InTurns, Waiting;
    if k == 0 {
      assert w[0..] == w;
    } else {
      TailWaits(w);
      var v := w[1..];
      if |v| >= 2 {
        AdvanceInTurns(w, Some(w[0].id));
      } else {
        ShortInTurns(v, Some(v[0].id));
      }
      SkippedInTurns(v, k - 1);
      assert v[k - 1..] == w[k..];
    }
  }

  // What is left when the current item and the failed ones behind it go.
  lemma LeftInTurns(s: State)
    requires Cached(s) && InTurns(s.queue, s.clock.current)
    requires s.clock.current.Some? && IndexOf(s.queue, s.clock.current.value) >= 0
    ensures var idx, r := IndexOf(s.queue, s.clock.current.value), Successors(s);
      |r| >= 2 ==> idx == 0 && Distinct(r) && InTurns(r, Some(r[0].id))
  {
    hide InTurns, Waiting, CurrentOf, Cached;
    assert Distinct(s.queue) by {
      CachedIsDistinct(s);
    }
    var w := Waiting(s.queue, s.clock.current);
    CurrentIsThere(s.queue, s.clock.current);
    if |w| >= 2 {
      CurrentLeads(s.queue, s.clock.current);
      AdvanceInTurns(s.queue, s.clock.current);
      assert s.queue[0] == CurrentOf(s.queue, s.clock.current).value;
      assert Successors(s) == w;
    } else {
      OneWaits(s.queue, s.clock.current);
    }
  }

  lemma CachedIsDistinct(s: State)
    requires Cached(s)
    ensures Distinct(s.queue)
  {
  }

  lemma CurrentIsThere(q: seq<Item>, current: Option<ItemId>)
    requires current.Some? && IndexOf(q, current.value) >= 0
    ensures CurrentOf(q, current).Some? && CurrentOf(q, current).value.id == current.value
  {
    WaitingMembers(q, current);
    assert q[IndexOf(q, current.value)] in q;
  }

  lemma OneWaits(q: seq<Item>, current: Option<ItemId>)
    requires Distinct(q) && CurrentOf(q, current).Some?
    ensures |Waiting(q, current)| == |q| - 1
  {
    SplitPermutes(q, current);
    SameSize(WithCurrent(CurrentOf(q, current), Waiting(q, current)), q);
  }

  // The queue restarts from the history.
  predicate Restarts(s: State) { s.clock.current.Some? && s.settings.loop && RunsOut(s) }

  lemma NextKeepsSettings(s: State, order: seq<ItemId>, now: int, saved: bool)
    ensures var t := Next(s, order, now, saved); t.settings == s.settings && (s.clock.current.None? ==> t == s)
  {
    hide Drop, Lap, NextAdvance;
  }

  lemma NextTurns(s: State, order: seq<ItemId>, now: int, saved: bool)
    requires Cached(s) && Placed(s) && Turning(s) && !Restarts(s)
    ensures Turning(Next(s, order, now, saved))
  {
    hide Cached, Next, InTurns, Drop, Gone, RunsOut;
    NextKeepsSettings(s, order, now, saved);
    if s.clock.current.Some? && ByTurns(s) {
      RunsOutExactly(s, now);
      NextTakesTheFirst(s, order, now, saved);
      LeftInTurns(s);
      var idx, r, t := IndexOf(s.queue, s.clock.current.value), Successors(s), Next(s, order, now, saved);
      var k := LeadingFailed(s.media, r);
      FollowingLeadsRotation(t.queue, idx);
      if |r| >= 2 {
        assert Rotation(t.queue, 0) == t.queue;
        if k < |r| {
          SkippedInTurns(r, k);
        }
      }
      if |t.queue| <= 1 {
        ShortInTurns(t.queue, t.clock.current);
      }
    }
  }

  // ---------------------------------------------------------------------
  // Jumps
  // ---------------------------------------------------------------------

  // A jump to whoever is next anyway, or with at most one item left behind.
  predicate JumpsInTurn(s: State, id: ItemId, now: int) {
    IndexOf(s.queue, id) >= 0 && !IsCurrentId(s, id) ==>
      var rest := JumpedFrom(s, id, now).queue;
      |rest| <= 2 || rest[0].id == id
  }

  lemma HeadInTurns(q: seq<Item>)
    requires Distinct(q) && q != [] && InTurns(q, None)
    ensures InTurns(q, Some(q[0].id))
  {
    if |q| < 2 {
      ShortInTurns(q, Some(q[0].id));
    } else {
      WaitingMembers(q, None);
      AllWait(q, None);
      AddersAreExact(q, None);
      HeadTakesOver(q, Seats(Adders(q), None));
    }
  }

  // Where the queue that a jump leaves is in turns: exactly there.
  lemma JumpedInTurns(rest: seq<Item>, id: ItemId)
    requires Distinct(rest) && IndexOf(rest, id) >= 0
    requires |rest| > 2 && rest[0].id == id ==> InTurns(rest, Some(id))
    ensures InTurns(rest, Some(id)) <==> |rest| <= 2 || rest[0].id == id
  {
    CurrentIsThere(rest, Some(id));
    OneWaits(rest, Some(id));
    if |rest| > 2 && InTurns(rest, Some(id)) {
      CurrentLeads(rest, Some(id));
    }
  }

  lemma JumpedStaysQueued(s: State, id: ItemId, now: int)
    requires Cached(s) && IndexOf(s.queue, id) >= 0
    ensures var rest := JumpedFrom(s, id, now).queue; Distinct(rest) && IndexOf(rest, id) >= 0
  {
    var rest := JumpedFrom(s, id, now).queue;
    HasIdIndex(s.queue, id);
    JumpTarget(s, id, now);
    HasIdIndex(rest, id);
    if s.clock.current.Some? && IndexOf(s.queue, s.clock.current.value) >= 0 {
      WithoutPermutes(s.queue, IndexOf(s.queue, s.clock.current.value));
    }
  }

  // Without the current item that led it, a queue in turns is in turns for
  // whoever leads the rest.
  lemma RestInTurns(q: seq<Item>, current: Option<ItemId>)
    requires Distinct(q) && InTurns(q, current) && current.Some? && IndexOf(q, current.value) >= 0
    ensures var rest := Without(q, IndexOf(q, current.value)); |rest| >= 2 ==> InTurns(rest, Some(rest[0].id))
  {
    hide InTurns, Waiting, CurrentOf, Distinct;
    CurrentIsThere(q, current);
    OneWaits(q, current);
    if |q| >= 3 {
      CurrentLeads(q, current);
      assert q[0] == CurrentOf(q, current).value;
      assert Without(q, 0) == Waiting(q, current);
      AdvanceInTurns(q, current);
    }
  }

  lemma JumpedHeadInTurns(s: State, id: ItemId, now: int)
    requires Cached(s) && Placed(s) && InTurns(s.queue, s.clock.current)
    requires IndexOf(s.queue, id) >= 0 && !IsCurrentId(s, id)
    ensures var rest := JumpedFrom(s, id, now).queue;
      |rest| > 2 && rest[0].id == id ==> InTurns(rest, Some(id))
  {
    hide InTurns, Cached, Distinct;
    CachedIsDistinct(s);
    if s.clock.current.Some? {
      HasIdIndex(s.queue, s.clock.current.value);
      RestInTurns(s.queue, s.clock.current);
    } else {
      HeadInTurns(s.queue);
    }
  }

  lemma JumpLands(s: State, id: ItemId, now: int, saved: bool)
    ensures var t := DoJump(s, id, now, saved);
      && t.settings == s.settings
      && (IndexOf(s.queue, id) < 0 ==> t == s)
      && (IndexOf(s.queue, id) >= 0 ==> t.queue == JumpedFrom(s, id, now).queue && t.clock.current == Some(id))
  {
  }

  lemma JumpTurns(s: State, id: ItemId, now: int, saved: bool)
    requires Cached(s) && Placed(s) && ByTurns(s) && Turning(s)
    ensures Turning(DoJump(s, id, now, saved)) <==> JumpsInTurn(s, id, now)
  {
    hide DoJump, Cached, Placed, InTurns;
    JumpLands(s, id, now, saved);
    if IndexOf(s.queue, id) >= 0 && !IsCurrentId(s, id) {
      JumpedStaysQueued(s, id, now);
      JumpedHeadInTurns(s, id, now);
      JumpedInTurns(JumpedFrom(s, id, now).queue, id);
    }
  }

  // ---------------------------------------------------------------------
  // Adding
  // ---------------------------------------------------------------------

  lemma AddersOneMore(s: seq<Item>, it: Item)
    ensures Adders(s + [it]) == if it.addedBy in Adders(s) then Adders(s) else Adders(s) + [it.addedBy]
  {
    assert (s + [it])[..|s|] == s;
  }

  lemma OfOneMore(s: seq<Item>, it: Item, a: Adder)
    ensures Of(s + [it], a) == if it.addedBy == a then Of(s, a) + [it] else Of(s, a)
  {
    assert (s + [it])[..|s|] == s;
  }

  lemma {:induction false} OneAdder(q: seq<Item>, a: Adder)
    requires forall it :: it in q ==> it.addedBy == a
    ensures Of(q, a) == q && Adders(q) == if q == [] then [] else [a]
  {
    if q != [] {
      var front, last := q[..|q| - 1], q[|q| - 1];
      assert last in q && q == front + [last];
      OneAdder(front, a);
      hide Of, Adders;
      OfOneMore(front, last, a);
      AddersOneMore(front, last);
    }
  }

  lemma {:induction false} FirstAdder(q: seq<Item>)
    requires q != []
    ensures Adders(q) != [] && Adders(q)[0] == q[0].addedBy
  {
    if |q| > 1 {
      FirstAdder(q[..|q| - 1]);
    } else {
      assert q[..0] == [];
    }
  }

  // With nothing current, turns leave the head of the queue where it is.
  lemma HeadOfFair(q: seq<Item>)
    requires q != []
    ensures FairOrder(q, None) != [] && FairOrder(q, None)[0] == q[0]
  {
    hide Rounds, Round, Of, Adders;
    AllWait(q, None);
    if |q| >= 2 {
      var seats, a := Adders(q), q[0].addedBy;
      FirstAdder(q);
      OfAt(q, 0);
      assert |Of(q[..0], a)| == 0 by {
        NobodyAdded(q[..0], a);
      }
      RoundHead(q, seats);
      RoundsStart(q, seats, |q|);
    }
  }

  lemma NobodyAdded(q: seq<Item>, a: Adder)
    requires q == []
    ensures Of(q, a) == []
  {
  }

  // Adding n items leaves the queue in turns: something is playing, the queue
  // was empty, nothing was added, or no more than two items are there then.
  predicate AddsInTurn(s: State, n: nat) { s.clock.current.Some? || s.queue == [] || n == 0 || |s.queue| + n <= 2 }

  // The first of the new items starts when nothing is current, so what was
  // queued before it waits, and leads the queue all the same.
  lemma StartedTurns(s: State, a: State, added: seq<Item>, now: int, saved: bool)
    requires Distinct(a.queue) && a.settings == s.settings && a.clock == s.clock && ByTurns(s)
    requires added != [] && a.queue == s.queue + added
    ensures Turning(StartIfIdle(FairReorder(a), added[0], now, saved)) <==> AddsInTurn(s, |added|)
  {
    hide Distinct, InTurns, FairOrder, FairReorder, Turning;
    var f, id := FairReorder(a).queue, added[0].id;
    FairReorderInTurns(a);
    if s.clock.current.Some? {
      TurningIs(FairReorder(a));
    } else {
      FairReorderIds(a);
      FairReorderDistinct(a);
      HeadOfFair(a.queue);
      HasIdIndex(a.queue, id);
      HasIdIndex(f, id);
      assert a.queue[|s.queue|] in a.queue;
      AlikeHead(f, FairOrder(a.queue, None));
      HeadInTurns(f);
      JumpedInTurns(f, id);
      OtherHead(a.queue, |s.queue|);
      StartsIt(FairReorder(a), added[0], now, saved);
      TurningIs(StartIfIdle(FairReorder(a), added[0], now, saved));
    }
  }

  lemma TurningIs(s: State)
    requires ByTurns(s)
    ensures Turning(s) <==> InTurns(s.queue, s.clock.current)
  {
  }

  lemma StartsIt(s: State, it: Item, now: int, saved: bool)
    ensures var t := StartIfIdle(s, it, now, saved);
      t.queue == s.queue && t.settings == s.settings && (s.clock.current.None? ==> t.clock.current == Some(it.id))
  {
  }

  lemma AlikeHead(x: seq<Item>, y: seq<Item>)
    requires Alike(x, y) && y != []
    ensures |x| == |y| && x[0].id == y[0].id
  {
  }

  lemma OtherHead(q: seq<Item>, i: nat)
    requires Distinct(q) && i < |q|
    ensures q[i].id == q[0].id <==> i == 0
  {
  }

  lemma FairReorderDistinct(s: State)
    requires Distinct(s.queue)
    ensures Distinct(FairReorder(s).queue) && |FairReorder(s).queue| == |s.queue|
    ensures FairReorder(s).settings == s.settings && FairReorder(s).clock == s.clock
  {
    hide FairOrder;
    var o := FairOrder(s.queue, s.clock.current);
    FairOrderPermutes(s.queue, s.clock.current);
    PermutationDistinct(s.queue, o);
    SameSize(o, s.queue);
  }

  // How many items a command adds.
  function Gains(s: State, c: Cmd): nat
    requires Adds(c)
  {
    match c
    case Add(l, _, _, force) => if AddAccepted(s, l, force) then 1 else 0
    case AddMany(ls, _, _) => if s.closed then 0 else |Taken(ls, HeldMedia(s), QUEUE_LIMIT - |s.queue|)|
    case Replay(source, _, _, _) => if ReplayRefused(s, source) then 0 else 1
  }

  predicate ReplayRefused(s: State, source: ItemId) {
    var src := ItemById(s.played, source);
    src.None? || |s.queue| >= QUEUE_LIMIT || src.value.media !in s.db.media
  }

  lemma TurnsIgnoreNext(a: State, next: bool)
    ensures a.settings.fairQueue || a.settings.voteMode ==> AddedAt(a, next) == a
    ensures AddedAt(a, next).settings == a.settings
  {
  }

  lemma AddTurns(s: State, c: Cmd, now: int, saved: bool)
    requires Cached(s) && Placed(s) && ByTurns(s) && Turning(s) && c.Add? && c.link.id !in s.db.used
    ensures Turning(DoAdding(s, c, now, saved)) <==> AddsInTurn(s, Gains(s, c))
  {
    hide Cached, Turning, StartIfIdle, FairReorder, Distinct, AddsInTurn;
    var l, user := c.link, c.adder;
    if AddAccepted(s, l, c.force) {
      var a, it := Appended(s, l, user), NewItem(s.db, l, user);
      AppendedCached(s, l, user);
      AddedIds(s, a, it, c.next);
      StartedTurns(s, a, [it], now, saved);
    } else {
      NoneAdded(s);
    }
  }

  lemma NoneAdded(s: State)
    ensures AddsInTurn(s, 0)
  {
  }

  lemma AddManyTurns(s: State, c: Cmd, now: int, saved: bool)
    requires Cached(s) && Placed(s) && ByTurns(s) && Turning(s) && c.AddMany? && forall l :: l in c.links ==> l.id !in s.db.used
    requires forall i, j :: 0 <= i < j < |c.links| ==> c.links[i].id != c.links[j].id
    ensures Turning(DoAdding(s, c, now, saved)) <==> AddsInTurn(s, Gains(s, c))
  {
    hide Cached, Turning, StartIfIdle, FairReorder, AddedMany, Taken, NewItems, Distinct, AddsInTurn;
    var links, user, next := c.links, c.adder, c.next;
    var taken := Taken(links, HeldMedia(s), QUEUE_LIMIT - |s.queue|);
    TakenLinks(links, HeldMedia(s), QUEUE_LIMIT - |s.queue|);
    if s.closed || taken == [] {
      NoneAdded(s);
    } else {
      RoomVotes.AddedManySettings(s, taken, user, next);
      AddedManyIds(s, taken, user, next);
      AddedLast(s, taken, user, next);
      StartedTurns(s, AddedMany(s, taken, user, next), NewItems(s.db, taken, user), now, saved);
    }
  }

  lemma AddedLast(s: State, taken: seq<Link>, user: Option<UserId>, next: bool)
    requires ByTurns(s)
    ensures AddedMany(s, taken, user, next).queue == s.queue + NewItems(s.db, taken, user)
  {
  }

  lemma ReplayTurns(s: State, c: Cmd, now: int, saved: bool)
    requires Cached(s) && ByTurns(s) && Turning(s) && c.Replay? && c.id !in s.db.used
    ensures Turning(DoAdding(s, c, now, saved)) <==> AddsInTurn(s, Gains(s, c))
  {
    hide Turning, StartIfIdle, FairReorder, AddsInTurn;
    if ReplayRefused(s, c.source) {
      NoneAdded(s);
    } else {
      var l := Link(ItemById(s.played, c.source).value.media, c.id, c.created);
      InsertMirrors(s.db, s.queue, s.votes, l, c.adder);
      StartedTurns(s, Requeue(s, l, c.adder), [NewItem(s.db, l, c.adder)], now, saved);
    }
  }

  // Exactly when an addition leaves the queue in turns.
  lemma AddingTurns(s: State, c: Cmd, now: int, saved: bool)
    requires Cached(s) && Placed(s) && ByTurns(s) && Turning(s) && Adds(c) && Enabled(s, c, now)
    ensures Turning(DoAdding(s, c, now, saved)) <==> AddsInTurn(s, Gains(s, c))
  {
    hide Cached, Placed, Turning, DoAdding, Gains, AddsInTurn;
    match c
    case Add(l, user, next, force) => AddTurns(s, c, now, saved);
    case AddMany(ls, user, next) => AddManyTurns(s, c, now, saved);
    case Replay(source, user, id, created) => ReplayTurns(s, c, now, saved);
  }

  // ---------------------------------------------------------------------
  // The other steps
  // ---------------------------------------------------------------------

  lemma SetTurns(s: State, settings: Settings, touched: bool)
    requires Cached(s) && Turning(s)
    ensures Turning(DoSet(s, settings, touched))
  {
    var t := if touched && !settings.pauseWhenEmpty then s.(timers := s.timers.(empty := false)) else s;
    var u := t.(settings := settings).(skipVotes := {});
    if ByTurns(u) {
      FairReorderInTurns(u);
    }
  }

  // Moves, shuffles and votes are refused while the queue is in turns.
  lemma ReorderingTurns(s: State, c: Cmd)
    requires Cached(s) && Turning(s) && Reorders(c)
    ensures Turning(DoReordering(s, c))
  {
    hide Turning, FairReorder, VoteReorder, InTurns;
    if c.Set? {
      SetTurns(s, c.settings, c.pauseTouched);
    } else {
      TurnsRefuse(s, c);
      NoTurnsHeld(DoReordering(s, c));
    }
  }

  lemma TurnsRefuse(s: State, c: Cmd)
    requires c.Move? || c.Shuffle? || c.Vote?
    ensures ByTurns(s) ==> DoReordering(s, c) == s
    ensures DoReordering(s, c).settings == s.settings
  {
  }

  lemma NoTurnsHeld(s: State)
    ensures !ByTurns(s) ==> Turning(s)
  {
  }

  lemma SameTurns(s: State, t: State)
    requires Turning(s) && t.queue == s.queue && t.clock.current == s.clock.current && t.settings == s.settings
    ensures Turning(t)
  {
  }

  lemma ClearedTurns(t: State)
    requires |t.queue| <= 1
    ensures Turning(t)
  {
    ShortInTurns(t.queue, t.clock.current);
  }

  // A queue led by its current item is in turns when its waiting items are.
  lemma LedInTurns(q: seq<Item>, current: Option<ItemId>)
    requires q == WithCurrent(CurrentOf(q, current), Waiting(q, current)) && |Waiting(q, current)| >= 2
    ensures InTurns(q, current) <==> Pattern(Whose(Waiting(q, current)), AdderOf(CurrentOf(q, current)))
  {
    hide Waiting, CurrentOf, Turns, Adders, Seats, Pattern, Whose;
    var w, cur := Waiting(q, current), CurrentOf(q, current);
    TurnsPattern(w, cur);
    SameBehind(cur, Turns(w, Seats(Adders(w), cur)), w);
  }

  lemma SameBehind(cur: Option<Item>, x: seq<Item>, y: seq<Item>)
    ensures WithCurrent(cur, x) == WithCurrent(cur, y) <==> x == y
  {
    if cur.Some? {
      assert WithCurrent(cur, x)[1..] == x && WithCurrent(cur, y)[1..] == y;
    }
  }

  // Taking a waiting item out leaves the queue in turns: it is the last of
  // its adder, or their next one follows at once, or it is their first, nobody
  // before it has two, and the adder of the current item has nothing waiting.
  predicate RemovesInTurn(s: State, id: ItemId) {
    var w := Waiting(s.queue, s.clock.current);
    var i := IndexOf(w, id);
    i < 0 || CanLose(Whose(w), i, AdderOf(CurrentOf(s.queue, s.clock.current)))
  }

  lemma OfTwoAnyGoes(s: seq<Adder>, i: nat, cur: Option<Adder>)
    requires i < |s| <= 2
    ensures CanLose(s, i, cur)
  {
    if LaterItem(s, i, s[i]) {
      assert s[i + 1] == s[i];
    }
  }

  lemma {:induction false} WaitingTogether(q: seq<Item>, i: nat, current: Option<ItemId>)
    requires Distinct(q) && i < |q| && !IsCurrent(q[i], current)
    ensures Waiting(Without(q, i), current) == Waiting(q[..i], current) + Waiting(q[i + 1..], current)
    ensures Waiting(q, current) == Waiting(q[..i], current) + [q[i]] + Waiting(q[i + 1..], current)
    ensures IndexOf(Waiting(q, current), q[i].id) == |Waiting(q[..i], current)|
  {
    var x, y := q[..i], q[i + 1..];
    assert q == x + [q[i]] + y;
    WaitingOfSum(x, y, current);
    WaitingOfSum(x + [q[i]], y, current);
    WaitingOfSum(x, [q[i]], current);
    AllWait([q[i]], current);
    WaitingDistinct(q, current);
    var w, n := Waiting(q, current), |Waiting(x, current)|;
    assert w[n] == q[i];
  }

  lemma WhoseWithout(w: seq<Item>, i: nat)
    requires i < |w|
    ensures Whose(Without(w, i)) == Lose(Whose(w), i)
  {
  }

  // A waiting item leaves a queue in turns.
  lemma LosesInTurns(q: seq<Item>, i: nat, current: Option<ItemId>)
    requires Distinct(q) && i < |q| && !IsCurrent(q[i], current) && InTurns(q, current)
    ensures var w := Waiting(q, current);
      var j := IndexOf(w, q[i].id);
      j >= 0 && (InTurns(Without(q, i), current) <==> CanLose(Whose(w), j, AdderOf(CurrentOf(q, current))))
  {
    hide InTurns, Waiting, CurrentOf, Whose, Pattern, CanLose, Distinct, IsCurrent;
    var w, cur, t := Waiting(q, current), CurrentOf(q, current), Without(q, i);
    WaitingTogether(q, i, current);
    var j := IndexOf(w, q[i].id);
    assert Waiting(t, current) == Without(w, j);
    WhoseLength(w);
    if |w| <= 2 {
      FewWait(t, current);
      OfTwoAnyGoes(Whose(w), j, AdderOf(cur));
    } else {
      CurrentLeads(q, current);
      WithoutLed(q, i, current, j);
      LedInTurns(q, current);
      LedInTurns(t, current);
      WhoseWithout(w, j);
      LosesExactly(Whose(w), j, AdderOf(cur));
    }
  }

  lemma WhoseLength(w: seq<Item>)
    ensures |Whose(w)| == |w|
  {
  }

  lemma FewWait(q: seq<Item>, current: Option<ItemId>)
    requires |Waiting(q, current)| < 2
    ensures InTurns(q, current)
  {
  }

  lemma WithoutLed(q: seq<Item>, i: nat, current: Option<ItemId>, j: nat)
    requires Distinct(q) && i < |q| && !IsCurrent(q[i], current)
    requires q == WithCurrent(CurrentOf(q, current), Waiting(q, current))
    requires j < |Waiting(q, current)| && IndexOf(Waiting(q, current), q[i].id) == j
    ensures var t := Without(q, i);
      CurrentOf(t, current) == CurrentOf(q, current) && t == WithCurrent(CurrentOf(t, current), Without(Waiting(q, current), j))
  {
    hide Waiting, CurrentOf, IsCurrent;
    var w, cur := Waiting(q, current), CurrentOf(q, current);
    var n := if cur.Some? then j + 1 else j;
    WaitingMembers(q, current);
    assert q[n] == w[j];
    assert n == i by {
      SamePlace(q, n, i);
    }
    assert Without(q, i) == WithCurrent(cur, Without(w, j));
    forall it | it in Without(w, j) ensures !IsCurrent(it, current) {
      assert it in w;
    }
    SplitOfWithCurrent(cur, Without(w, j), current);
  }

  lemma SamePlace(q: seq<Item>, i: nat, j: nat)
    requires Distinct(q) && i < |q| && j < |q| && q[i].id == q[j].id
    ensures i == j
  {
  }

  lemma NotWaiting(q: seq<Item>, current: Option<ItemId>, id: ItemId)
    requires IndexOf(q, id) < 0
    ensures IndexOf(Waiting(q, current), id) < 0
  {
    var w := Waiting(q, current);
    WaitingMembers(q, current);
    forall j | 0 <= j < |w| ensures w[j].id != id {
      assert w[j] in w;
    }
  }

  lemma RemoveTurns(s: State, id: ItemId, order: seq<ItemId>, now: int, saved: bool)
    requires Cached(s) && Placed(s) && ByTurns(s) && Turning(s) && !RemovesCurrent(s, id)
    ensures Turning(DoRemove(s, id, order, now, saved)) <==> RemovesInTurn(s, id)
  {
    hide InTurns, Waiting, CurrentOf, CanLose, Cached, Distinct, Next;
    CachedIsDistinct(s);
    var i := IndexOf(s.queue, id);
    if i >= 0 {
      LosesInTurns(s.queue, i, s.clock.current);
    } else {
      NotWaiting(s.queue, s.clock.current, id);
    }
  }

  lemma SkipVoteTurns(s: State, user: UserId, order: seq<ItemId>, now: int, saved: bool)
    requires Turning(s)
    ensures Turning(DoSkipVote(s, user, order, now, saved))
  {
    if ByTurns(s) {
      assert DoSkipVote(s, user, order, now, saved) == s;
    } else {
      assert DoSkipVote(s, user, order, now, saved).settings == s.settings;
    }
  }

  // Which current item a reload finds: the same, none, or another one. The
  // queue is in turns for it exactly when it is the same, or none, or leads,
  // or at most two items are there.
  predicate LoadsInTurn(s: State) {
    var next := Reopened(s.db, s.queue).current;
    next == s.clock.current || next.None? || |s.queue| <= 2 || s.queue[0].id == next.value
  }

  lemma ReopenedIsListed(db: Db, q: seq<Item>)
    ensures var next := Reopened(db, q).current; next.Some? ==> IndexOf(q, next.value) >= 0
  {
  }

  // Without a current item, the former one is the first to wait.
  lemma NobodyPlays(q: seq<Item>, current: Option<ItemId>)
    requires Distinct(q) && InTurns(q, current) && current.Some? && IndexOf(q, current.value) >= 0
    ensures InTurns(q, None)
  {
    hide InTurns, Waiting, CurrentOf, Whose, Pattern, Distinct;
    AllWait(q, None);
    CurrentIsThere(q, current);
    OneWaits(q, current);
    var w, cur := Waiting(q, current), CurrentOf(q, current);
    if |q| >= 3 {
      CurrentLeads(q, current);
      LedInTurns(q, current);
      WhoseOfSum([cur.value], w);
      WhoseOne(cur.value);
      GainsHead(cur.value.addedBy, Whose(w));
      LedInTurns(q, None);
    } else if |q| == 2 {
      LedInTurns(q, None);
      TwoInRounds(q);
    } else {
      ShortInTurns(q, None);
    }
  }

  lemma WhoseOne(it: Item)
    ensures Whose([it]) == [it.addedBy]
  {
  }

  lemma TwoInRounds(q: seq<Item>)
    requires |q| == 2
    ensures Pattern(Whose(q), None)
  {
    var s := Whose(q);
    assert s[..0] == [] && s[..1] == [s[0]];
    CountOne(s[0], s[1]);
  }

  lemma LoadTurns(s: State, q: seq<Item>, h: seq<Item>, scheduled: bool, now: int)
    requires Cached(s) && Placed(s) && ByTurns(s) && Turning(s) && IsListing(s.db, q)
    ensures Turning(DoLoad(s, q, h, s.settings, scheduled, now)) <==> LoadsInTurn(s)
  {
    hide InTurns, Waiting, CurrentOf, Distinct, Reopened, Cached, Placed;
    LoadFields(s, q, h, scheduled, now);
    var current, next := s.clock.current, Reopened(s.db, q).current;
    ReopenedIsListed(s.db, q);
    PlacedCurrent(s);
    if next != current && next.None? {
      NobodyPlays(q, current);
    } else if next != current {
      if |q| > 2 && q[0].id == next.value {
        HeadReopens(q, current);
      }
      JumpedInTurns(q, next.value);
    }
  }

  lemma LoadFields(s: State, q: seq<Item>, h: seq<Item>, scheduled: bool, now: int)
    requires Cached(s) && IsListing(s.db, q)
    ensures var t := DoLoad(s, q, h, s.settings, scheduled, now);
      t.settings == s.settings && t.queue == s.queue == q && t.clock == Reopened(s.db, q) && Distinct(q)
  {
    hide Reopened;
    ListingIsUnique(s.db, q, s.queue);
  }

  lemma PlacedCurrent(s: State)
    requires Placed(s)
    ensures s.clock.current.Some? ==> IndexOf(s.queue, s.clock.current.value) >= 0
  {
    if s.clock.current.Some? {
      HasIdIndex(s.queue, s.clock.current.value);
    }
  }

  // The head of a queue in turns becomes current.
  lemma HeadReopens(q: seq<Item>, current: Option<ItemId>)
    requires Distinct(q) && |q| > 2 && InTurns(q, current)
    requires current.Some? ==> IndexOf(q, current.value) >= 0
    ensures InTurns(q, Some(q[0].id))
  {
    hide InTurns, Waiting, CurrentOf, Distinct;
    if current.Some? {
      CurrentIsThere(q, current);
      OneWaits(q, current);
      CurrentLeads(q, current);
    } else {
      HeadInTurns(q);
    }
  }

  // ---------------------------------------------------------------------
  // Restarts and deleted media
  // ---------------------------------------------------------------------

  // When a queue is in turns, told from where its current item is and who
  // added the waiting ones.
  predicate InPattern(q: seq<Item>, current: Option<ItemId>) {
    var w, cur := Waiting(q, current), CurrentOf(q, current);
    |w| < 2 || (q == WithCurrent(cur, w) && Pattern(Whose(w), AdderOf(cur)))
  }

  lemma InTurnsExactly(q: seq<Item>, current: Option<ItemId>)
    requires Distinct(q)
    ensures InTurns(q, current) <==> InPattern(q, current)
  {
    hide InTurns, Waiting, CurrentOf, Whose, Pattern, Distinct;
    var w, cur := Waiting(q, current), CurrentOf(q, current);
    if |w| < 2 {
      FewWait(q, current);
    } else if q == WithCurrent(cur, w) {
      LedInTurns(q, current);
    } else if InTurns(q, current) {
      CurrentLeads(q, current);
    }
  }

  // Who added the rows of these ids.
  function AddedIn(rows: Rows, order: seq<ItemId>): seq<Adder> {
    seq(|order|, i requires 0 <= i < |order| => if order[i] in rows then rows[order[i]].addedBy else None)
  }

  // A history that was played in turns.
  predicate PlayedInTurns(a: seq<Adder>) { |a| <= 2 || Pattern(a[1..], Some(a[0])) }

  ghost predicate AddersKept(rows: Rows, rows': Rows) {
    rows'.Keys == rows.Keys && forall id :: id in rows ==> rows'[id].addedBy == rows[id].addedBy
  }

  lemma {:induction false} SkipFailedAdders(s: State, idx: int, now: int)
    ensures AddersKept(s.db.rows, SkipFailed(s, idx, now).db.rows)
    decreases |s.queue|
  {
    var next := Following(s.queue, idx);
    if next.Some? && SkipFailed(s, idx, now) != s {
      assert IndexOf(s.queue, next.value.id) >= 0;
      SkipFailedAdders(MarkPlayed(s, next.value.id, now), idx, now);
    }
  }

  lemma DropAdders(s: State, now: int)
    requires s.clock.current.Some?
    ensures AddersKept(s.db.rows, Drop(s, now).db.rows)
  {
    hide SkipFailed;
    SkipFailedAdders(MarkPlayed(s, s.clock.current.value, now), IndexOf(s.queue, s.clock.current.value), now);
  }

  lemma LapWhose(db: Db, order: seq<ItemId>, rows: Rows)
    requires IsListing(db, []) && IsLap(db, order) && AddersKept(rows, db.rows)
    ensures var q := ItemsOf(Requeued(db, order), order); Distinct(q) && Whose(q) == AddedIn(rows, order)
  {
    hide IsLap;
    LapItems(db, order);
    LapLists(db, order);
    var q := ItemsOf(Requeued(db, order), order);
    assert forall i :: 0 <= i < |order| ==> order[i] in order;
    assert forall i :: 0 <= i < |q| ==> q[i].addedBy == AddedIn(rows, order)[i];
  }

  lemma WhoseRest(q: seq<Item>)
    requires q != []
    ensures Whose(q[1..]) == Whose(q)[1..] && Whose(q)[0] == q[0].addedBy
  {
  }

  // The head of a queue is current, the rest waits.
  lemma HeadLeads(q: seq<Item>)
    requires Distinct(q) && q != []
    ensures InTurns(q, Some(q[0].id)) <==> PlayedInTurns(Whose(q))
  {
    hide InTurns, Waiting, CurrentOf, Whose, Pattern;
    var current := Some(q[0].id);
    TailWaits(q);
    WhoseRest(q);
    WhoseLength(q);
    assert q == WithCurrent(Some(q[0]), q[1..]);
    forall it | it in q[1..] ensures !IsCurrent(it, current) {
    }
    SplitOfWithCurrent(Some(q[0]), q[1..], current);
    InTurnsExactly(q, current);
  }

  lemma RestartLeads(s: State, order: seq<ItemId>, now: int, saved: bool)
    requires s.clock.current.Some? && Laps(Drop(s, now)) && ByTurns(s)
    ensures var t, d := Next(s, order, now, saved), Drop(s, now);
      && t.settings == s.settings && t.queue == ItemsOf(Requeued(d.db, order), order)
      && (t.queue != [] ==> t.clock.current == Some(t.queue[0].id))
  {
    hide Drop, NextAdvance, ItemsOf, Requeued, MediaFor, VotesByUser, MediaIds, IsReady;
    var l := Lap(Drop(s, now), order);
    assert l.settings == s.settings && l.queue == ItemsOf(Requeued(Drop(s, now).db, order), order);
    hide Lap;
  }

  // A restart leaves the queue in turns exactly when the history was played
  // in turns.
  lemma RestartTurns(s: State, order: seq<ItemId>, now: int, saved: bool)
    requires Cached(s) && Placed(s) && ByTurns(s) && Restarts(s) && NextReady(s, order, now)
    ensures Turning(Next(s, order, now, saved)) <==> PlayedInTurns(AddedIn(s.db.rows, order))
  {
    hide Cached, Placed, Next, InTurns, Drop, Whose, PlayedInTurns, IsLap, Distinct, AddedIn, AddersKept, ItemsOf, Lists;
    var t, d := Next(s, order, now, saved), Drop(s, now);
    RunsOutExactly(s, now);
    RestartLeads(s, order, now, saved);
    DropCached(s, now);
    CachedLists(d);
    DropAdders(s, now);
    LapWhose(d.db, order, s.db.rows);
    if t.queue == [] {
      ShortInTurns(t.queue, t.clock.current);
      NothingPlayed(t.queue);
    } else {
      HeadLeads(t.queue);
    }
  }

  lemma CachedLists(s: State)
    requires Cached(s)
    ensures IsListing(s.db, s.queue)
  {
  }

  lemma NothingPlayed(q: seq<Item>)
    requires q == []
    ensures PlayedInTurns(Whose(q))
  {
  }

  // Advances, restarts included.
  predicate NextInTurn(s: State, order: seq<ItemId>) { Restarts(s) ==> PlayedInTurns(AddedIn(s.db.rows, order)) }

  lemma AnyNextTurns(s: State, order: seq<ItemId>, now: int, saved: bool)
    requires Cached(s) && Placed(s) && ByTurns(s) && Turning(s) && NextReady(s, order, now)
    ensures Turning(Next(s, order, now, saved)) <==> NextInTurn(s, order)
  {
    hide Cached, Placed, Turning, Next, Restarts, NextReady, PlayedInTurns;
    if Restarts(s) {
      RestartTurns(s, order, now, saved);
    } else {
      NextTurns(s, order, now, saved);
    }
  }

  // The current item after the queue was read again as q.
  function Rehoused(q: seq<Item>, current: Option<ItemId>): Option<ItemId> {
    if current.Some? && IndexOf(q, current.value) < 0 then (if q == [] then None else Some(q[0].id)) else current
  }

  lemma MediaDeletedLeads(s: State, gone: set<MediaId>, q: seq<Item>, h: seq<Item>, now: int, saved: bool)
    ensures var t := DoMediaDeleted(s, gone, q, h, now, saved);
      t.settings == s.settings && t.queue == q && t.clock.current == Rehoused(q, s.clock.current)
  {
    hide NextAdvance, WithoutMedia, MediaFor, VotesByUser, IsReady;
  }

  lemma MediaDeletedTurns(s: State, gone: set<MediaId>, q: seq<Item>, h: seq<Item>, now: int, saved: bool)
    requires ByTurns(s) && Distinct(q)
    ensures Turning(DoMediaDeleted(s, gone, q, h, now, saved)) <==> InPattern(q, Rehoused(q, s.clock.current))
  {
    hide InTurns, InPattern, DoMediaDeleted, Distinct, Rehoused;
    MediaDeletedLeads(s, gone, q, h, now, saved);
    InTurnsExactly(q, Rehoused(q, s.clock.current));
  }

  lemma DeletingTurns(s: State, c: Cmd, now: int, saved: bool)
    requires Cached(s) && Placed(s) && ByTurns(s) && Turning(s) && Deletes(c) && Enabled(s, c, now)
    ensures Turning(DoDeleting(s, c, now, saved)) <==> (c.MediaDeleted? ==> InPattern(c.listing, Rehoused(c.listing, s.clock.current)))
  {
    hide Turning, Cached, InPattern, DoMediaDeleted;
    match c
    case Clear => ClearedTurns(DoClear(s));
    case ClearPlayed => SameTurns(s, DoClearPlayed(s));
    case Purge(ids) => SameTurns(s, DoPurge(s, ids));
    case MediaDeleted(gone, q, h) => MediaDeletedTurns(s, gone, q, h, now, saved);
  }

  // ---------------------------------------------------------------------
  // Which steps keep the turns
  // ---------------------------------------------------------------------

  // Exactly the steps that leave the queue in turns.
  predicate KeepsTurns(s: State, c: Cmd, now: int) {
    ByTurns(s) ==>
      match c
      case Add(_, _, _, _) => AddsInTurn(s, Gains(s, c))
      case AddMany(_, _, _) => AddsInTurn(s, Gains(s, c))
      case Replay(_, _, _, _) => AddsInTurn(s, Gains(s, c))
      case Remove(id, order) => if RemovesCurrent(s, id) then NextInTurn(s, order) else RemovesInTurn(s, id)
      case Skip(order) => NextInTurn(s, order)
      case Ended(t, order) => StillMeant(s, t) ==> NextInTurn(s, order)
      case Jump(id) => JumpsInTurn(s, id, now)
      case MediaDeleted(_, q, _) => InPattern(q, Rehoused(q, s.clock.current))
      case Load(_, _, _, _) => LoadsInTurn(s)
      case _ => true
  }

  lemma AdvancingTurns(s: State, c: Cmd, now: int, saved: bool)
    requires Cached(s) && Placed(s) && ByTurns(s) && Turning(s) && Advances(c) && Enabled(s, c, now)
    ensures Turning(DoAdvancing(s, c, now, saved)) <==> KeepsTurns(s, c, now)
  {
    hide Turning, Cached, Placed, Next, DoJump, DoSkipVote, DoEndSession, JumpsInTurn, RemovesInTurn, NextInTurn, StillMeant, NextReady;
    match c
    case Remove(id, order) =>
      if RemovesCurrent(s, id) {
        AnyNextTurns(s, order, now, saved);
      } else {
        RemoveTurns(s, id, order, now, saved);
      }
    case Skip(order) => AnyNextTurns(s, order, now, saved);
    case Jump(id) => JumpTurns(s, id, now, saved);
    case SkipVote(user, order) => SkipVoteTurns(s, user, order, now, saved);
    case EndSession =>
      RoomVotes.EndSessionEmpties(s, now, saved);
      ClearedTurns(DoEndSession(s, now, saved));
    case Ended(t, order) =>
      if StillMeant(s, t) {
        AnyNextTurns(s, order, now, saved);
      }
  }

  // ---------------------------------------------------------------------
  // Only Set changes the settings
  // ---------------------------------------------------------------------

  lemma AddingSettings(s: State, c: Cmd, now: int, saved: bool)
    requires Adds(c)
    ensures DoAdding(s, c, now, saved).settings == s.settings
  {
    hide NewItems, Taken, AddedMany, FairReorder, StartIfIdle, AddedAt;
    match c
    case Add(l, user, next, force) =>
      var a := AddedAt(Appended(s, l, user), next);
      TurnsIgnoreNext(Appended(s, l, user), next);
      StartsIt(FairReorder(a), NewItem(s.db, l, user), now, saved);
    case AddMany(ls, user, next) =>
      var taken := Taken(ls, HeldMedia(s), QUEUE_LIMIT - |s.queue|);
      RoomVotes.AddedManySettings(s, taken, user, next);
      if taken != [] {
        StartsIt(FairReorder(AddedMany(s, taken, user, next)), NewItems(s.db, taken, user)[0], now, saved);
      }
    case Replay(source, user, id, created) =>
      if !ReplayRefused(s, source) {
        var l := Link(ItemById(s.played, source).value.media, id, created);
        StartsIt(FairReorder(Requeue(s, l, user)), NewItem(s.db, l, user), now, saved);
      }
  }

  lemma {:induction false} MarkAllSettings(s: State, ids: seq<ItemId>, now: int)
    ensures MarkAll(s, ids, now).settings == s.settings
  {
    if ids != [] {
      MarkAllSettings(s, ids[..|ids| - 1], now);
    }
  }

  lemma AdvancingSettings(s: State, c: Cmd, now: int, saved: bool)
    requires Advances(c)
    ensures DoAdvancing(s, c, now, saved).settings == s.settings
  {
    hide Next, DoJump, MarkAll, NextAdvance, StillMeant, VotesOut;
    match c
    case Remove(id, order) => NextKeepsSettings(s, order, now, saved);
    case Skip(order) => NextKeepsSettings(s, order, now, saved);
    case Jump(id) => JumpLands(s, id, now, saved);
    case SkipVote(user, order) => NextKeepsSettings(SkipToggled(s, user), order, now, saved);
    case EndSession => MarkAllSettings(s, Ids(s.queue), now);
    case Ended(t, order) => NextKeepsSettings(s, order, now, saved);
  }

  lemma DeletingSettings(s: State, c: Cmd, now: int, saved: bool)
    requires Deletes(c)
    ensures DoDeleting(s, c, now, saved).settings == s.settings
  {
    hide NextAdvance, WithoutMedia, Deleted, History, MediaFor, VotesByUser;
  }

  lemma StepSettings(s: State, c: Cmd, now: int, saved: bool)
    requires !c.Set? && (c.Load? ==> c.settings == s.settings)
    ensures Do(s, c, now, saved).settings == s.settings
  {
    hide Do, DoQuietly, DoAdding, DoReordering, DoDeleting, DoAdvancing, Reread, Reopened, ScheduleAdvance;
    if c.Load? {
      DoLoadIsDo(s, c, now, saved);
      OpenedSettings(s.db, c.listing, c.history, c.settings, c.scheduled, now);
    } else if LeavesQueue(c) {
      DoQuietlyIsDo(s, c, now, saved);
    } else if Adds(c) {
      DoAddingIsDo(s, c, now, saved);
      AddingSettings(s, c, now, saved);
    } else if Reorders(c) {
      DoReorderingIsDo(s, c, now, saved);
      TurnsRefuse(s, c);
    } else if Deletes(c) {
      DoDeletingIsDo(s, c, now, saved);
      DeletingSettings(s, c, now, saved);
    } else {
      DoAdvancingIsDo(s, c, now, saved);
      AdvancingSettings(s, c, now, saved);
    }
  }

  lemma OpenedSettings(db: Db, q: seq<Item>, h: seq<Item>, settings: Settings, scheduled: bool, now: int)
    ensures Opened(db, q, h, settings, scheduled, now).settings == settings
  {
  }

  // ---------------------------------------------------------------------
  // Every step and every run
  // ---------------------------------------------------------------------

  lemma LoadsTurning(s: State, c: Cmd, now: int, saved: bool)
    requires Cached(s) && Placed(s) && ByTurns(s) && Turning(s) && Enabled(s, c, now) && c.Load?
    ensures Turning(Do(s, c, now, saved)) <==> LoadsInTurn(s)
  {
    hide Cached, Placed, Turning, DoLoad, LoadsInTurn;
    LoadTurns(s, c.listing, c.history, c.scheduled, now);
    DoLoadIsDo(s, c, now, saved);
  }

  lemma StepWithoutTurns(s: State, c: Cmd, now: int, saved: bool)
    requires Cached(s) && Placed(s) && !ByTurns(s) && Enabled(s, c, now)
    ensures Turning(Do(s, c, now, saved))
  {
    hide Do, Cached, Placed, Turning, InTurns, DoReordering;
    if c.Set? {
      NoTurnsHeld(s);
      ReorderingTurns(s, c);
      DoReorderingIsDo(s, c, now, saved);
    } else {
      StepSettings(s, c, now, saved);
      NoTurnsHeld(Do(s, c, now, saved));
    }
  }

  lemma KeptBy(s: State, c: Cmd, now: int)
    requires ByTurns(s)
    ensures LeavesQueue(c) || Reorders(c) ==> KeepsTurns(s, c, now)
    ensures Deletes(c) ==>
      (KeepsTurns(s, c, now) <==> (c.MediaDeleted? ==> InPattern(c.listing, Rehoused(c.listing, s.clock.current))))
    ensures Adds(c) ==> (KeepsTurns(s, c, now) <==> AddsInTurn(s, Gains(s, c)))
    ensures c.Load? ==> (KeepsTurns(s, c, now) <==> LoadsInTurn(s))
  {
    hide AddsInTurn, Gains, LoadsInTurn, RemovesInTurn, JumpsInTurn, NextInTurn, InPattern, ByTurns;
  }

  lemma KeptWithout(s: State, c: Cmd, now: int)
    requires !ByTurns(s)
    ensures KeepsTurns(s, c, now)
  {
  }

  // Which steps leave a queue in turns: exactly those.
  lemma StepTurns(s: State, c: Cmd, now: int, saved: bool)
    requires Cached(s) && Placed(s) && Turning(s) && Enabled(s, c, now)
    ensures Turning(Do(s, c, now, saved)) <==> KeepsTurns(s, c, now)
  {
    hide Do, Enabled, Turning, Cached, Placed, InPattern, Rehoused, LoadsInTurn, AddsInTurn, Gains, ByTurns;
    hide DoQuietly, DoAdding, DoReordering, DoDeleting, DoAdvancing, KeepsTurns;
    if ByTurns(s) {
      KeptBy(s, c, now);
    }
    if !ByTurns(s) {
      StepWithoutTurns(s, c, now, saved);
      KeptWithout(s, c, now);
    } else if c.Load? {
      LoadsTurning(s, c, now, saved);
    } else if LeavesQueue(c) {
      SameTurns(s, DoQuietly(s, c, now, saved));
      DoQuietlyIsDo(s, c, now, saved);
    } else if Adds(c) {
      AddingTurns(s, c, now, saved);
      DoAddingIsDo(s, c, now, saved);
    } else if Reorders(c) {
      ReorderingTurns(s, c);
      DoReorderingIsDo(s, c, now, saved);
    } else if Deletes(c) {
      DeletingTurns(s, c, now, saved);
      DoDeletingIsDo(s, c, now, saved);
    } else {
      AdvancingTurns(s, c, now, saved);
      DoAdvancingIsDo(s, c, now, saved);
    }
  }

  ghost predicate StaysInPlace(s: State, run: seq<Event>)
    requires IsRun(s, run)
    decreases |run|
  {
    run == [] || (KeepsTurns(s, run[0].cmd, run[0].now)
                  && StaysInPlace(Do(s, run[0].cmd, run[0].now, run[0].saved), run[1..]))
  }

  // The queue is in turns before and after every step of the run.
  ghost predicate TurnsThroughout(s: State, run: seq<Event>)
    requires IsRun(s, run)
    decreases |run|
  {
    Turning(s) && (run == [] || TurnsThroughout(Do(s, run[0].cmd, run[0].now, run[0].saved), run[1..]))
  }

  // A run that starts in turns stays in turns exactly when each of its steps
  // keeps them.
  lemma {:induction false} RunStaysInTurns(s: State, run: seq<Event>)
    requires Cached(s) && Placed(s) && Turning(s) && IsRun(s, run)
    ensures TurnsThroughout(s, run) <==> StaysInPlace(s, run)
    decreases |run|
  {
    hide Turning, Do, Enabled, Cached, Placed, KeepsTurns;
    if run != [] {
      var e := run[0];
      var t := Do(s, e.cmd, e.now, e.saved);
      StepMirrors(s, e.cmd, e.now, e.saved);
      StepTurns(s, e.cmd, e.now, e.saved);
      if Turning(t) {
        RunStaysInTurns(t, run[1..]);
      }
    }
  }

  // Then in no prefix of the waiting items has anybody two turns more than
  // somebody who still has items left.
  lemma {:induction false} RunTurns(s: State, run: seq<Event>, p: seq<Item>, a: Adder, b: Adder)
    requires Cached(s) && Placed(s) && Turning(s) && IsRun(s, run) && StaysInPlace(s, run)
    ensures Turning(Final(s, run))
    ensures var t := Final(s, run);
      var w := Waiting(t.queue, t.clock.current);
      ByTurns(t) && |w| >= 2 && p <= w && |Of(p, b)| < |Of(w, b)| ==> |Of(p, a)| <= |Of(p, b)| + 1
    decreases |run|
  {
    hide Turning, Do, Enabled, Cached, Placed, KeepsTurns, ByTurns, Of, Waiting;
    if run == [] {
      TurningIsFair(s, p, a, b);
    } else {
      var e := run[0];
      StepMirrors(s, e.cmd, e.now, e.saved);
      StepTurns(s, e.cmd, e.now, e.saved);
      RunTurns(Do(s, e.cmd, e.now, e.saved), run[1..], p, a, b);
    }
  }

  lemma TurningIsFair(s: State, p: seq<Item>, a: Adder, b: Adder)
    requires Cached(s) && Turning(s)
    ensures var w := Waiting(s.queue, s.clock.current);
      ByTurns(s) && |w| >= 2 && p <= w && |Of(p, b)| < |Of(w, b)| ==> |Of(p, a)| <= |Of(p, b)| + 1
  {
    var w := Waiting(s.queue, s.clock.current);
    if ByTurns(s) && |w| >= 2 && p <= w && |Of(p, b)| < |Of(w, b)| {
      FairOrderIsFair(s.queue, s.clock.current, p, a, b);
    }
  }

  // ---------------------------------------------------------------------
  // Steps that do break turns
  // ---------------------------------------------------------------------

  // Two items of one person lead while somebody else waits.
  lemma TwoInARow(q: seq<Item>, current: Option<ItemId>, w: seq<Item>, it: Item)
    requires Distinct(q) && w == Waiting(q, current) && |w| >= 2
    requires w[0].addedBy == w[1].addedBy && it in w && it.addedBy != w[0].addedBy
    ensures !InTurns(q, current)
  {
    hide FairOrder, Waiting, Of, Distinct;
    PairLeads(w, it);
    if InTurns(q, current) {
      FairOrderIsFair(q, current, w[..2], w[0].addedBy, it.addedBy);
    }
  }

  // Two turns for the one, none yet for the other.
  lemma PairLeads(w: seq<Item>, it: Item)
    requires |w| >= 2 && w[0].addedBy == w[1].addedBy && it in w && it.addedBy != w[0].addedBy
    ensures |Of(w[..2], w[0].addedBy)| == 2 && |Of(w[..2], it.addedBy)| == 0 && |Of(w, it.addedBy)| > 0
  {
    hide Of;
    var p := w[..2];
    OneAdder(p, w[0].addedBy);
    AddersAreDistinct(p);
    OfMembers(w, it.addedBy);
    assert it in Of(w, it.addedBy);
  }

  const FAIR := PLAIN.(fairQueue := true)
  const ANNA: Adder := Some(1)
  const BERT: Adder := Some(2)

  // Anna and Bert take turns behind the current item.
  function Entry(id: nat, adder: Adder): Item { Item(id, 7, adder, id, 0, 0, None) }

  function TakingTurns(): State {
    var media := map[7 := Media(MediaReady, 60000)];
    var c := C.Clock(Some(1), true, 0, 0, C.NORMAL_RATE, 1);
    var rows := map[1 := Row(7, None, 1, 0, None), 2 := Row(7, ANNA, 2, 0, None), 3 := Row(7, BERT, 3, 0, None),
                    4 := Row(7, ANNA, 4, 0, None), 5 := Row(7, BERT, 5, 0, None)];
    var end := Advance(1, 1, 60500);
    State(Db(rows, {}, media, C.Saved(c), {1, 2, 3, 4, 5}), FAIR, false,
          [Entry(1, None), Entry(2, ANNA), Entry(3, BERT), Entry(4, ANNA), Entry(5, BERT)],
          [], media, map[], c, {}, map[], None, None, NO_TIMERS.(advance := Some(end)), false, 0, false, {end})
  }

  lemma NobodyVotes(db: Db, id: ItemId)
    requires db.votes == {}
    ensures VotersIn(db.votes, id) == {}
  {
  }

  lemma EverybodyIsQueued(id: ItemId)
    requires QueuedIn(TakingTurns().db.rows, id)
    ensures exists it :: it in TakingTurns().queue && it.id == id
  {
    var q := TakingTurns().queue;
    assert q[id - 1] in q;
  }

  lemma EntriesAreRows(it: Item)
    requires it in TakingTurns().queue
    ensures var s := TakingTurns(); QueuedIn(s.db.rows, it.id) && it == Show(it.id, s.db.rows[it.id], s.db.votes)
  {
    NobodyVotes(TakingTurns().db, it.id);
  }

  lemma EntriesAreSorted()
    ensures var q := TakingTurns().queue; Distinct(q) && forall i, j :: 0 <= i < j < |q| ==> NoLaterRank(q[i], q[j])
  {
    var q := TakingTurns().queue;
    assert |q| == 5 && forall i :: 0 <= i < 5 ==> q[i].rank == i + 1 && q[i].id == i + 1;
  }

  lemma TakingTurnsIsListed()
    ensures IsListing(TakingTurns().db, TakingTurns().queue)
  {
    hide QueuedIn, Show, NoLaterRank;
    EntriesAreSorted();
    var s := TakingTurns();
    forall it | it in s.queue ensures QueuedIn(s.db.rows, it.id) && it == Show(it.id, s.db.rows[it.id], s.db.votes) {
      EntriesAreRows(it);
    }
    forall id | QueuedIn(s.db.rows, id) ensures exists it :: it in s.queue && it.id == id {
      EverybodyIsQueued(id);
    }
  }

  lemma TakingTurnsIsCached()
    ensures Cached(TakingTurns()) && Placed(TakingTurns())
  {
    hide Lists;
    TakingTurnsIsListed();
    var s := TakingTurns();
    assert s.queue[0] in s.queue;
  }

  // Two by two, Anna first.
  lemma FourAreInTurns(a1: Item, b1: Item, a2: Item, b2: Item)
    requires a1.addedBy == ANNA && a2.addedBy == ANNA && b1.addedBy == BERT && b2.addedBy == BERT
    ensures var w := [] + [a1] + [b1] + [a2] + [b2]; Adders(w) == [ANNA, BERT] && Turns(w, [ANNA, BERT]) == w
  {
    var w := [] + [a1] + [b1] + [a2] + [b2];
    AddersOneMore([], a1);
    AddersOneMore([] + [a1], b1);
    AddersOneMore([] + [a1] + [b1], a2);
    AddersOneMore([] + [a1] + [b1] + [a2], b2);
    forall a: Adder ensures Of(w, a) == if a == ANNA then [a1, a2] else if a == BERT then [b1, b2] else [] {
      OfOneMore([], a1, a);
      OfOneMore([] + [a1], b1, a);
      OfOneMore([] + [a1] + [b1], a2, a);
      OfOneMore([] + [a1] + [b1] + [a2], b2, a);
    }
    TwoSit(w);
  }

  lemma TwoSit(w: seq<Item>)
    requires |w| == 4 && Of(w, ANNA) == [w[0], w[2]] && Of(w, BERT) == [w[1], w[3]]
    ensures Turns(w, [ANNA, BERT]) == w
  {
    hide Of, Rounds;
    forall r: nat ensures Round(w, [ANNA, BERT], r) == Turn(w, ANNA, r) + Turn(w, BERT, r) {
      assert [ANNA, BERT] == [ANNA] + [BERT];
      RoundOfSum(w, [ANNA], [BERT], r);
      RoundOfOne(w, ANNA, r);
      RoundOfOne(w, BERT, r);
    }
    FourRounds(w, [ANNA, BERT]);
  }

  lemma FourRounds(w: seq<Item>, seats: seq<Adder>)
    requires |w| == 4 && Round(w, seats, 0) == [w[0], w[1]] && Round(w, seats, 1) == [w[2], w[3]]
    requires Round(w, seats, 2) == [] && Round(w, seats, 3) == []
    ensures Turns(w, seats) == w
  {
    hide Round;
    assert Rounds(w, seats, 1) == [w[0], w[1]];
    assert Rounds(w, seats, 2) == w && Rounds(w, seats, 3) == w && Rounds(w, seats, 4) == w;
  }

  lemma TheyTakeTurns()
    ensures Turning(TakingTurns())
  {
    hide Turns, Adders;
    var a1, b1, a2, b2 := Entry(2, ANNA), Entry(3, BERT), Entry(4, ANNA), Entry(5, BERT);
    var q, w := TakingTurns().queue, [] + [a1] + [b1] + [a2] + [b2];
    assert q == WithCurrent(Some(Entry(1, None)), w);
    SplitOfWithCurrent(Some(Entry(1, None)), w, Some(1));
    FourAreInTurns(a1, b1, a2, b2);
    assert Seats([ANNA, BERT], Some(Entry(1, None))) == [ANNA, BERT];
  }

  lemma BertIsRemoved() returns (t: State)
    ensures t == DoRemove(TakingTurns(), 3, [], 5, true)
    ensures t.queue == [Entry(1, None), Entry(2, ANNA), Entry(4, ANNA), Entry(5, BERT)]
    ensures t.clock.current == Some(1) && ByTurns(t)
  {
    assert IndexOf(TakingTurns().queue, 3) == 2;
    t := DoRemove(TakingTurns(), 3, [], 5, true);
  }

  // Without Bert's first item, Anna has two turns before his second.
  lemma RemovalBreaksTurns()
    ensures Cached(TakingTurns()) && Placed(TakingTurns()) && Turning(TakingTurns())
    ensures Enabled(TakingTurns(), Remove(3, []), 5) && !Turning(DoRemove(TakingTurns(), 3, [], 5, true))
  {
    hide Cached, Placed, Waiting, InTurns, TakingTurns, DoRemove;
    TakingTurnsIsCached();
    TheyTakeTurns();
    RemovalEnabled();
    var t := BertIsRemoved();
    var w := [Entry(2, ANNA), Entry(4, ANNA), Entry(5, BERT)];
    assert t.queue == WithCurrent(Some(Entry(1, None)), w);
    SplitOfWithCurrent(Some(Entry(1, None)), w, Some(1));
    assert w[2] in w;
    TwoInARow(t.queue, Some(1), w, w[2]);
  }

  lemma RemovalEnabled()
    ensures Enabled(TakingTurns(), Remove(3, []), 5)
  {
  }

  // Bert's item is the last of the queue; three of Anna's were played.
  function AboutToRestart(): State {
    var media := map[7 := Media(MediaReady, 60000)];
    var c := C.Clock(Some(5), true, 0, 0, C.NORMAL_RATE, 1);
    var rows := map[2 := Row(7, ANNA, 2, 0, Some(1)), 3 := Row(7, ANNA, 3, 0, Some(2)),
                    4 := Row(7, ANNA, 4, 0, Some(3)), 5 := Row(7, BERT, 5, 0, None)];
    State(Db(rows, {}, media, C.Saved(c), {2, 3, 4, 5}), FAIR.(loop := true), false, [Entry(5, BERT)],
          [Entry(4, ANNA).(playedAt := Some(3)), Entry(3, ANNA).(playedAt := Some(2)), Entry(2, ANNA).(playedAt := Some(1))],
          media, map[], c, {}, map[], None, None, NO_TIMERS, false, 0, false, {})
  }

  const AS_PLAYED: seq<ItemId> := [2, 3, 4, 5]

  lemma AboutToRestartIsCached()
    ensures Cached(AboutToRestart()) && Placed(AboutToRestart()) && Turning(AboutToRestart())
  {
    var s := AboutToRestart();
    NobodyVotes(s.db, 5);
    assert s.queue[0] in s.queue;
    assert forall id :: QueuedIn(s.db.rows, id) ==> id == 5;
    ShortInTurns(s.queue, s.clock.current);
  }

  // The room once Bert's item went to the history.
  predicate RanOut(d: State) {
    && d.queue == [] && d.played != [] && d.settings == AboutToRestart().settings && d.viewers == map[]
    && d.db == AboutToRestart().db.(rows := d.db.rows)
    && d.db.rows == AboutToRestart().db.rows[5 := Row(7, BERT, 5, 0, Some(5))]
  }

  lemma BertIsDropped() returns (d: State)
    ensures AboutToRestart().clock.current.Some? && d == Drop(AboutToRestart(), 5) && RanOut(d)
  {
    var s := AboutToRestart();
    assert IndexOf(s.queue, 5) == 0;
    assert Without(s.queue, 0) == [];
    d := MarkPlayed(s, 5, 5);
    assert SkipFailed(d, 0, 5) == d;
  }

  lemma HistoryInOrder(d: State)
    requires RanOut(d)
    ensures IsLap(d.db, AS_PLAYED) && IsListing(d.db, [])
  {
    var o := AS_PLAYED;
    assert forall i :: 0 <= i < 4 ==> InHistory(d.db, o[i]) && d.db.rows[o[i]].playedAt == Some(if i == 3 then 5 else i + 1);
    forall id ensures id in o <==> InHistory(d.db, id) {
      assert o[0] == 2 && o[1] == 3 && o[2] == 4 && o[3] == 5;
    }
  }

  lemma RestartedAsPlayed(d: State)
    requires RanOut(d)
    ensures var q := Lap(d, AS_PLAYED).queue;
      && |q| == 4 && Distinct(q) && q[0].id == 2
      && q[1].addedBy == ANNA && q[2].addedBy == ANNA && q[3].addedBy == BERT
  {
    HistoryInOrder(d);
    LapItems(d.db, AS_PLAYED);
    LapLists(d.db, AS_PLAYED);
    var q := ItemsOf(Requeued(d.db, AS_PLAYED), AS_PLAYED);
    assert q[1].id == 3 && q[2].id == 4 && q[3].id == 5;
  }

  // A restart plays the history as it was played, turns or not.
  lemma RestartBreaksTurns()
    ensures Cached(AboutToRestart()) && Placed(AboutToRestart()) && Turning(AboutToRestart())
    ensures NextReady(AboutToRestart(), AS_PLAYED, 5) && !Turning(Next(AboutToRestart(), AS_PLAYED, 5, true))
  {
    hide Cached, Placed, InTurns, Waiting, AboutToRestart, Drop, Lap, IsLap;
    AboutToRestartIsCached();
    var s := AboutToRestart();
    var d := BertIsDropped();
    HistoryInOrder(d);
    RestartedAsPlayed(d);
    RanOutLaps(d);
    NextStops(s, d, AS_PLAYED, 5, true);
    StopsAtHead(Lap(d, AS_PLAYED), 2, 5, true);
    var q := Lap(d, AS_PLAYED).queue;
    TailWaits(q);
    assert q[1..][0] == q[1] && q[1..][1] == q[2] && q[1..][2] == q[3];
    TwoInARow(q, Some(2), q[1..], q[3]);
  }

  lemma RanOutLaps(d: State)
    requires RanOut(d)
    ensures Laps(d) && ByTurns(Lap(d, AS_PLAYED)) && d.viewers == map[]
  {
  }

  lemma StopsAtHead(l: State, id: ItemId, now: int, saved: bool)
    ensures var t := Persist(StopAtTop(l, id, now), now, saved);
      t.queue == l.queue && t.clock.current == Some(id) && t.settings == l.settings
  {
  }
}
