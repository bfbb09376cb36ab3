// Fair turns: the waiting items interleaved by who added them, one item a
// round from each person, starting after the adder of the current item.
module FairTurns {
  import opened Base
  import opened Order

  // a's items of s, in their order.
  function Of(s: seq<Item>, a: Adder): seq<Item> {
    if s == [] then []
    else
      var last := s[|s| - 1];
      if last.addedBy == a then Of(s[..|s| - 1], a) + [last] else Of(s[..|s| - 1], a)
  }

  // The adders in the order of their first item.
  function Adders(s: seq<Item>): seq<Adder> {
    if s == [] then []
    else
      var front := Adders(s[..|s| - 1]);
      var a := s[|s| - 1].addedBy;
      if a in front then front else front + [a]
  }

  function SeatOf(s: seq<Adder>, a: Adder): (i: nat)
    requires a in s
    ensures i < |s| && s[i] == a
    ensures forall j :: 0 <= j < i ==> s[j] != a
  {
    if s[0] == a then 0 else 1 + SeatOf(s[1..], a)
  }

  // Whoever is playing now takes their next turn last.
  function Seats(order: seq<Adder>, cur: Option<Item>): seq<Adder> {
    if cur.Some? && cur.value.addedBy in order then
      var i := SeatOf(order, cur.value.addedBy);
      order[i + 1..] + order[..i + 1]
    else order
  }

  // Turn number r of one person.
  function Turn(s: seq<Item>, a: Adder, r: nat): seq<Item> {
    if r < |Of(s, a)| then [Of(s, a)[r]] else []
  }

  function Round(s: seq<Item>, seats: seq<Adder>, r: nat): seq<Item> {
    if seats == [] then []
    else Round(s, seats[..|seats| - 1], r) + Turn(s, seats[|seats| - 1], r)
  }

  // The first n rounds.
  function Rounds(s: seq<Item>, seats: seq<Adder>, n: nat): seq<Item> {
    if n == 0 then [] else Rounds(s, seats, n - 1) + Round(s, seats, n - 1)
  }

  function Turns(s: seq<Item>, seats: seq<Adder>): seq<Item> { Rounds(s, seats, |s|) }

  function FairOrder(q: seq<Item>, current: Option<ItemId>): seq<Item> {
    var waiting := Waiting(q, current);
    var cur := CurrentOf(q, current);
    if |waiting| < 2 then q else WithCurrent(cur, Turns(waiting, Seats(Adders(waiting), cur)))
  }

  // ---------------------------------------------------------------------
  // Each person's items
  // ---------------------------------------------------------------------

  lemma {:induction false} OfSum(x: seq<Item>, y: seq<Item>, a: Adder)
    ensures Of(x + y, a) == Of(x, a) + Of(y, a)
    decreases |y|
  {
    if y == [] {
      assert x + y == x;
    } else {
      assert (x + y)[..|x + y| - 1] == x + y[..|y| - 1];
      OfSum(x, y[..|y| - 1], a);
    }
  }

  lemma {:induction false} OfMembers(s: seq<Item>, a: Adder)
    ensures forall it :: it in Of(s, a) <==> it in s && it.addedBy == a
    ensures |Of(s, a)| <= |s|
    ensures forall it: Item :: it.addedBy == a ==> multiset(s)[it] == multiset(Of(s, a))[it]
  {
    if s != [] {
      OfMembers(s[..|s| - 1], a);
      assert s == s[..|s| - 1] + [s[|s| - 1]];
    }
  }

  ghost predicate Agree(x: seq<Item>, y: seq<Item>) {
    forall a :: Of(x, a) == Of(y, a)
  }

  lemma SameCount(x: seq<Item>, y: seq<Item>, it: Item)
    requires Of(x, it.addedBy) == Of(y, it.addedBy)
    ensures multiset(x)[it] == multiset(y)[it]
  {
    OfMembers(x, it.addedBy);
    OfMembers(y, it.addedBy);
  }

  lemma SameSize(x: seq<Item>, y: seq<Item>)
    requires multiset(x) == multiset(y)
    ensures |x| == |y|
  {
    assert |x| == |multiset(x)| == |multiset(y)| == |y|;
  }

  // Sequences that agree for every person have the same members.
  lemma AgreeingIsPermutation(x: seq<Item>, y: seq<Item>)
    requires Agree(x, y)
    ensures multiset(x) == multiset(y) && |x| == |y|
  {
    forall it: Item ensures multiset(x)[it] == multiset(y)[it] {
      assert Of(x, it.addedBy) == Of(y, it.addedBy);
      SameCount(x, y, it);
    }
    assert multiset(x) == multiset(y);
    SameSize(x, y);
  }

  ghost predicate DistinctSeats(seats: seq<Adder>) {
    forall i, j :: 0 <= i < j < |seats| ==> seats[i] != seats[j]
  }

  lemma {:induction false} AddersAreDistinct(s: seq<Item>)
    ensures DistinctSeats(Adders(s))
    ensures forall a :: a in Adders(s) <==> Of(s, a) != []
  {
    if s != [] {
      AddersAreDistinct(s[..|s| - 1]);
    }
  }

  lemma SeatsPermute(order: seq<Adder>, cur: Option<Item>)
    requires DistinctSeats(order)
    ensures DistinctSeats(Seats(order, cur)) && |Seats(order, cur)| == |order|
    ensures forall a :: a in Seats(order, cur) <==> a in order
    ensures cur.Some? && cur.value.addedBy in order ==> Seats(order, cur)[|order| - 1] == cur.value.addedBy
  {
    if cur.Some? && cur.value.addedBy in order {
      var i := SeatOf(order, cur.value.addedBy);
      assert order == order[..i + 1] + order[i + 1..];
    }
  }

  // Whoever sits last already keeps that seat.
  lemma SeatsSettle(seats: seq<Adder>, cur: Option<Item>)
    requires DistinctSeats(seats)
    requires cur.Some? && cur.value.addedBy in seats ==> seats[|seats| - 1] == cur.value.addedBy
    ensures Seats(seats, cur) == seats
  {
  }

  // ---------------------------------------------------------------------
  // Rounds
  // ---------------------------------------------------------------------

  lemma OfTurn(s: seq<Item>, b: Adder, r: nat, a: Adder)
    ensures Of(Turn(s, b, r), a) == if a == b then Turn(s, b, r) else []
  {
    if r < |Of(s, b)| {
      OfMembers(s, b);
      assert Of(s, b)[r] in Of(s, b);
      assert Turn(s, b, r)[..0] == [];
    }
  }

  lemma {:induction false} OfRound(s: seq<Item>, seats: seq<Adder>, r: nat, a: Adder)
    requires DistinctSeats(seats)
    ensures Of(Round(s, seats, r), a) == if a in seats then Turn(s, a, r) else []
  {
    if seats != [] {
      var front, b := seats[..|seats| - 1], seats[|seats| - 1];
      assert a in seats <==> a in front || a == b;
      assert b !in front;
      OfRound(s, front, r, a);
      OfTurn(s, b, r, a);
      OfSum(Round(s, front, r), Turn(s, b, r), a);
    }
  }

  lemma OfNextRound(s: seq<Item>, seats: seq<Adder>, n: nat, a: Adder)
    requires n > 0
    ensures Of(Rounds(s, seats, n), a) == Of(Rounds(s, seats, n - 1), a) + Of(Round(s, seats, n - 1), a)
  {
    OfSum(Rounds(s, seats, n - 1), Round(s, seats, n - 1), a);
  }

  function FirstTurns(s: seq<Item>, a: Adder, n: nat): seq<Item> {
    if n < |Of(s, a)| then Of(s, a)[..n] else Of(s, a)
  }

  lemma NoTurns(s: seq<Item>, a: Adder)
    ensures FirstTurns(s, a, 0) == []
  {
  }

  lemma FirstTurnsStep(s: seq<Item>, a: Adder, n: nat)
    ensures FirstTurns(s, a, n) + Turn(s, a, n) == FirstTurns(s, a, n + 1)
  {
  }

  lemma OneMoreRound(s: seq<Item>, seats: seq<Adder>, n: nat, a: Adder)
    requires DistinctSeats(seats) && a in seats && Of(Rounds(s, seats, n), a) == FirstTurns(s, a, n)
    ensures Of(Rounds(s, seats, n + 1), a) == FirstTurns(s, a, n + 1)
  {
    OfNextRound(s, seats, n + 1, a);
    OfRound(s, seats, n, a);
    FirstTurnsStep(s, a, n);
  }

  // n rounds hold exactly the first n items of every person.
  lemma {:induction false} OfRounds(s: seq<Item>, seats: seq<Adder>, n: nat, a: Adder)
    requires DistinctSeats(seats) && a in seats
    ensures Of(Rounds(s, seats, n), a) == FirstTurns(s, a, n)
  {
    if n == 0 {
      NoTurns(s, a);
    } else {
      OfRounds(s, seats, n - 1, a);
      OneMoreRound(s, seats, n - 1, a);
    }
  }

  lemma {:induction false} OfRoundsOutside(s: seq<Item>, seats: seq<Adder>, n: nat, a: Adder)
    requires DistinctSeats(seats) && a !in seats
    ensures Of(Rounds(s, seats, n), a) == []
  {
    if n > 0 {
      OfRoundsOutside(s, seats, n - 1, a);
      OfRound(s, seats, n - 1, a);
      OfNextRound(s, seats, n, a);
    }
  }

  // The seats hold everybody who has an item.
  ghost predicate Seated(s: seq<Item>, seats: seq<Adder>) {
    DistinctSeats(seats) && forall a :: a !in seats ==> Of(s, a) == []
  }

  // Taking turns permutes the items and keeps each person's own order.
  lemma TurnsPermute(s: seq<Item>, seats: seq<Adder>)
    requires Seated(s, seats)
    ensures Agree(Turns(s, seats), s)
    ensures multiset(Turns(s, seats)) == multiset(s) && |Turns(s, seats)| == |s|
  {
    forall a ensures Of(Turns(s, seats), a) == Of(s, a) {
      OfMembers(s, a);
      if a in seats {
        OfRounds(s, seats, |s|, a);
      } else {
        OfRoundsOutside(s, seats, |s|, a);
      }
    }
    AgreeingIsPermutation(Turns(s, seats), s);
  }

  // ---------------------------------------------------------------------
  // Fairness
  // ---------------------------------------------------------------------

  lemma {:induction false} PrefixInRound(s: seq<Item>, seats: seq<Adder>, n: nat, p: seq<Item>) returns (m: nat)
    requires p <= Rounds(s, seats, n) && n > 0
    ensures m < n && Rounds(s, seats, m) <= p <= Rounds(s, seats, m + 1)
    decreases n
  {
    var before := Rounds(s, seats, n - 1);
    if |p| >= |before| {
      m := n - 1;
    } else {
      m := PrefixInRound(s, seats, n - 1, p);
    }
  }

  lemma OfPrefix(x: seq<Item>, y: seq<Item>, a: Adder)
    requires x <= y
    ensures |Of(x, a)| <= |Of(y, a)|
  {
    assert y == x + y[|x|..];
    OfSum(x, y[|x|..], a);
  }

  lemma CountInRounds(s: seq<Item>, seats: seq<Adder>, n: nat, a: Adder)
    requires Seated(s, seats)
    ensures |Of(Rounds(s, seats, n), a)| == if n < |Of(s, a)| then n else |Of(s, a)|
  {
    if a in seats {
      OfRounds(s, seats, n, a);
    } else {
      OfRoundsOutside(s, seats, n, a);
    }
  }

  lemma CountsBetween(s: seq<Item>, seats: seq<Adder>, m: nat, p: seq<Item>, a: Adder, b: Adder)
    requires Seated(s, seats) && Rounds(s, seats, m) <= p <= Rounds(s, seats, m + 1)
    ensures |Of(p, a)| <= m + 1
    ensures |Of(p, b)| >= if m < |Of(s, b)| then m else |Of(s, b)|
  {
    CountInRounds(s, seats, m + 1, a);
    OfPrefix(p, Rounds(s, seats, m + 1), a);
    CountInRounds(s, seats, m, b);
    OfPrefix(Rounds(s, seats, m), p, b);
  }

  lemma PrefixCounts(s: seq<Item>, seats: seq<Adder>, n: nat, p: seq<Item>, a: Adder, b: Adder) returns (m: nat)
    requires Seated(s, seats) && n > 0 && p <= Rounds(s, seats, n)
    ensures |Of(p, a)| <= m + 1
    ensures |Of(p, b)| >= if m < |Of(s, b)| then m else |Of(s, b)|
  {
    m := PrefixInRound(s, seats, n, p);
    CountsBetween(s, seats, m, p, a, b);
  }

  // At no point of the turns has anyone had two more turns than somebody who
  // still has items left.
  lemma TurnsAreFair(s: seq<Item>, seats: seq<Adder>, p: seq<Item>, a: Adder, b: Adder)
    requires Seated(s, seats) && s != [] && p <= Turns(s, seats)
    requires |Of(p, b)| < |Of(s, b)|
    ensures |Of(p, a)| <= |Of(p, b)| + 1
  {
    var m := PrefixCounts(s, seats, |s|, p, a, b);
  }

  // ---------------------------------------------------------------------
  // Taking turns twice
  // ---------------------------------------------------------------------

  lemma {:induction false} RoundsAgree(x: seq<Item>, y: seq<Item>, seats: seq<Adder>, r: nat)
    requires Agree(x, y)
    ensures Round(x, seats, r) == Round(y, seats, r)
  {
    if seats != [] {
      RoundsAgree(x, y, seats[..|seats| - 1], r);
      assert Of(x, seats[|seats| - 1]) == Of(y, seats[|seats| - 1]);
    }
  }

  // The turns depend only on what each person has queued.
  lemma {:induction false} TurnsAgree(x: seq<Item>, y: seq<Item>, seats: seq<Adder>, n: nat)
    requires Agree(x, y)
    ensures Rounds(x, seats, n) == Rounds(y, seats, n)
  {
    if n > 0 {
      TurnsAgree(x, y, seats, n - 1);
      RoundsAgree(x, y, seats, n - 1);
    }
  }

  lemma {:induction false} AddersSum(x: seq<Item>, y: seq<Item>)
    requires forall it :: it in y ==> it.addedBy in Adders(x)
    ensures Adders(x + y) == Adders(x)
    decreases |y|
  {
    if y == [] {
      assert x + y == x;
    } else {
      assert y[|y| - 1] in y;
      assert (x + y)[..|x + y| - 1] == x + y[..|y| - 1];
      AddersSum(x, y[..|y| - 1]);
    }
  }

  // Exactly the people who have something queued, each once.
  ghost predicate ExactSeats(s: seq<Item>, seats: seq<Adder>) {
    DistinctSeats(seats) && forall a :: a in seats <==> Of(s, a) != []
  }

  lemma {:induction false} AddersOfFirstRound(s: seq<Item>, seats: seq<Adder>)
    requires DistinctSeats(seats) && forall a :: a in seats ==> Of(s, a) != []
    ensures Adders(Round(s, seats, 0)) == seats
  {
    if seats != [] {
      var front, b := seats[..|seats| - 1], seats[|seats| - 1];
      assert seats == front + [b];
      AddersOfFirstRound(s, front);
      OfMembers(s, b);
      assert Of(s, b)[0] in Of(s, b);
      assert Round(s, seats, 0) == Round(s, front, 0) + [Of(s, b)[0]];
    }
  }

  lemma {:induction false} RoundsStart(s: seq<Item>, seats: seq<Adder>, n: nat)
    requires n > 0
    ensures Round(s, seats, 0) <= Rounds(s, seats, n)
  {
    if n == 1 {
      assert Rounds(s, seats, 1) == Rounds(s, seats, 0) + Round(s, seats, 0) == Round(s, seats, 0);
    } else {
      RoundsStart(s, seats, n - 1);
    }
  }

  lemma EverybodyOfTurnsSits(s: seq<Item>, seats: seq<Adder>)
    requires ExactSeats(s, seats)
    ensures forall it :: it in Turns(s, seats) ==> it.addedBy in seats
  {
    var all := Turns(s, seats);
    TurnsPermute(s, seats);
    forall it | it in all ensures it.addedBy in seats {
      OfMembers(all, it.addedBy);
      assert it in Of(all, it.addedBy);
      assert Of(all, it.addedBy) == Of(s, it.addedBy);
    }
  }

  // After the turns, people come first in the order they sit.
  lemma AddersOfTurns(s: seq<Item>, seats: seq<Adder>)
    requires ExactSeats(s, seats) && s != []
    ensures Adders(Turns(s, seats)) == seats
  {
    var first, all := Round(s, seats, 0), Turns(s, seats);
    assert first <= all by {
      RoundsStart(s, seats, |s|);
    }
    assert Adders(first) == seats by {
      AddersOfFirstRound(s, seats);
    }
    var rest := all[|first|..];
    assert all == first + rest;
    assert forall it :: it in rest ==> it.addedBy in Adders(first) by {
      EverybodyOfTurnsSits(s, seats);
      assert forall it :: it in rest ==> it in all;
    }
    AddersSum(first, rest);
  }

  lemma AddersAreExact(s: seq<Item>, cur: Option<Item>)
    ensures ExactSeats(s, Adders(s)) && ExactSeats(s, Seats(Adders(s), cur))
    ensures Seated(s, Seats(Adders(s), cur))
  {
    AddersAreDistinct(s);
    SeatsPermute(Adders(s), cur);
  }

  // Splitting a queue that was put together from a current and waiting items.
  lemma SplitOfWithCurrent(cur: Option<Item>, waiting: seq<Item>, current: Option<ItemId>)
    requires cur.Some? ==> IsCurrent(cur.value, current)
    requires forall it :: it in waiting ==> !IsCurrent(it, current)
    ensures Waiting(WithCurrent(cur, waiting), current) == waiting
    ensures CurrentOf(WithCurrent(cur, waiting), current) == cur
    decreases |waiting|
  {
    AllWait(waiting, current);
    if cur.Some? {
      assert [cur.value][..0] == [];
      WaitingOfSum([cur.value], waiting, current);
      CurrentFirst(cur.value, waiting, current);
    }
  }

  lemma {:induction false} CurrentFirst(c: Item, waiting: seq<Item>, current: Option<ItemId>)
    requires IsCurrent(c, current)
    requires forall it :: it in waiting ==> !IsCurrent(it, current)
    ensures CurrentOf([c] + waiting, current) == Some(c)
    decreases |waiting|
  {
    if waiting != [] {
      assert waiting[|waiting| - 1] in waiting;
      assert ([c] + waiting)[..|waiting|] == [c] + waiting[..|waiting| - 1];
      CurrentFirst(c, waiting[..|waiting| - 1], current);
    }
  }

  // ---------------------------------------------------------------------
  // The fair order
  // ---------------------------------------------------------------------

  // What the fair order is: a permutation of the queue with the current item
  // first, that keeps everyone's own order.
  lemma FairOrderPermutes(q: seq<Item>, current: Option<ItemId>)
    requires Distinct(q)
    ensures multiset(FairOrder(q, current)) == multiset(q)
    ensures Agree(Waiting(FairOrder(q, current), current), Waiting(q, current))
    ensures CurrentOf(FairOrder(q, current), current) == CurrentOf(q, current)
    ensures |Waiting(q, current)| >= 2 ==> FairOrder(q, current) == WithCurrent(CurrentOf(q, current), Waiting(FairOrder(q, current), current))
  {
    var w, cur := Waiting(q, current), CurrentOf(q, current);
    WaitingMembers(q, current);
    if |w| >= 2 {
      var seats := Seats(Adders(w), cur);
      AddersAreExact(w, cur);
      TurnsPermute(w, seats);
      forall it | it in Turns(w, seats) ensures !IsCurrent(it, current) {
        assert it in multiset(w);
      }
      SplitOfWithCurrent(cur, Turns(w, seats), current);
      SplitPermutes(q, current);
    }
  }

  // At every point of the waiting part, nobody is two turns ahead of somebody
  // who still has videos left.
  lemma FairOrderIsFair(q: seq<Item>, current: Option<ItemId>, p: seq<Item>, a: Adder, b: Adder)
    requires Distinct(q) && p <= Waiting(FairOrder(q, current), current)
    requires |Of(p, b)| < |Of(Waiting(q, current), b)|
    ensures |Of(p, a)| <= |Of(p, b)| + 1
  {
    var w, cur := Waiting(q, current), CurrentOf(q, current);
    if |w| >= 2 {
      WaitingIsTurns(q, current);
      AddersAreExact(w, cur);
      TurnsAreFair(w, Seats(Adders(w), cur), p, a, b);
    } else {
      OfMembers(p, a);
    }
  }

  lemma WaitingIsTurns(q: seq<Item>, current: Option<ItemId>)
    requires Distinct(q) && |Waiting(q, current)| >= 2
    ensures Waiting(FairOrder(q, current), current) == Turns(Waiting(q, current), Seats(Adders(Waiting(q, current)), CurrentOf(q, current)))
  {
    var w, cur := Waiting(q, current), CurrentOf(q, current);
    var seats := Seats(Adders(w), cur);
    WaitingMembers(q, current);
    AddersAreExact(w, cur);
    TurnsPermute(w, seats);
    forall it | it in Turns(w, seats) ensures !IsCurrent(it, current) {
      assert it in multiset(w);
    }
    SplitOfWithCurrent(cur, Turns(w, seats), current);
  }

  // Turns of turns: the same people in the same seats with the same items.
  lemma TurnsSettle(w: seq<Item>, cur: Option<Item>)
    requires w != []
    ensures var seats := Seats(Adders(w), cur);
      Turns(Turns(w, seats), Seats(Adders(Turns(w, seats)), cur)) == Turns(w, seats)
  {
    var seats := Seats(Adders(w), cur);
    AddersAreExact(w, cur);
    TurnsPermute(w, seats);
    AddersOfTurns(w, seats);
    AddersAreDistinct(w);
    SeatsPermute(Adders(w), cur);
    SeatsSettle(seats, cur);
    TurnsAgree(Turns(w, seats), w, seats, |w|);
  }

  // Ordering fairly twice is ordering fairly once.
  lemma FairOrderIsIdempotent(q: seq<Item>, current: Option<ItemId>)
    requires Distinct(q)
    ensures FairOrder(FairOrder(q, current), current) == FairOrder(q, current)
  {
    var w, cur := Waiting(q, current), CurrentOf(q, current);
    if |w| >= 2 {
      FairOrderPermutes(q, current);
      WaitingIsTurns(q, current);
      AddersAreExact(w, cur);
      TurnsPermute(w, Seats(Adders(w), cur));
      TurnsSettle(w, cur);
    }
  }

  // ---------------------------------------------------------------------
  // The head of the waiting items becomes current
  // ---------------------------------------------------------------------

  lemma {:induction false} RoundOfSum(s: seq<Item>, x: seq<Adder>, y: seq<Adder>, r: nat)
    ensures Round(s, x + y, r) == Round(s, x, r) + Round(s, y, r)
    decreases |y|
  {
    if y == [] {
      assert x + y == x;
    } else {
      assert (x + y)[..|x + y| - 1] == x + y[..|y| - 1];
      RoundOfSum(s, x, y[..|y| - 1], r);
    }
  }

  lemma RoundOfOne(s: seq<Item>, a: Adder, r: nat)
    ensures Round(s, [a], r) == Turn(s, a, r)
  {
    assert [a][..0] == [];
    assert Round(s, [], r) == [];
  }

  lemma {:induction false} RoundPastEnd(s: seq<Item>, seats: seq<Adder>, r: nat)
    requires r >= |s|
    ensures Round(s, seats, r) == []
  {
    if seats != [] {
      RoundPastEnd(s, seats[..|seats| - 1], r);
      OfMembers(s, seats[|seats| - 1]);
    }
  }

  // Rounds after everyone ran out add nothing.
  lemma {:induction false} RoundsPastEnd(s: seq<Item>, seats: seq<Adder>, n: nat)
    requires n >= |s|
    ensures Rounds(s, seats, n) == Turns(s, seats)
    decreases n
  {
    if n > |s| {
      RoundsPastEnd(s, seats, n - 1);
      RoundPastEnd(s, seats, n - 1);
    }
  }

  // t is s without the first item of a.
  ghost predicate Lost(s: seq<Item>, t: seq<Item>, a: Adder) {
    && Of(s, a) != [] && Of(t, a) == Of(s, a)[1..]
    && forall b :: b != a ==> Of(t, b) == Of(s, b)
  }

  lemma {:induction false} SameRound(s: seq<Item>, t: seq<Item>, a: Adder, seats: seq<Adder>, r: nat)
    requires Lost(s, t, a) && a !in seats
    ensures Round(t, seats, r) == Round(s, seats, r)
  {
    if seats != [] {
      assert seats[|seats| - 1] in seats;
      SameRound(s, t, a, seats[..|seats| - 1], r);
    }
  }

  lemma ShiftedRound(s: seq<Item>, t: seq<Item>, a: Adder, rest: seq<Adder>, r: nat)
    requires Lost(s, t, a) && a !in rest
    ensures Round(t, rest + [a], r) == Round(s, rest, r) + Turn(s, a, r + 1)
    ensures Round(s, [a] + rest, r) == Turn(s, a, r) + Round(s, rest, r)
  {
    RoundOfSum(t, rest, [a], r);
    RoundOfOne(t, a, r);
    SameRound(s, t, a, rest, r);
    RoundOfSum(s, [a], rest, r);
    RoundOfOne(s, a, r);
  }

  lemma Regroup(a: seq<Item>, b: seq<Item>, c: seq<Item>, d: seq<Item>, y: seq<Item>, z: seq<Item>)
    requires a + b == c + d
    ensures (a + (b + y)) + z == c + (d + (y + z))
  {
    assert (a + (b + y)) + z == (a + b) + (y + z);
    assert c + (d + (y + z)) == (c + d) + (y + z);
  }

  // Without a's first item, and with a sitting last instead of first, the
  // turns go on as before.
  lemma {:induction false} ShiftedRounds(s: seq<Item>, t: seq<Item>, a: Adder, rest: seq<Adder>, n: nat)
    requires Lost(s, t, a) && a !in rest
    ensures Rounds(s, [a] + rest, n) + Turn(s, a, n) == Turn(s, a, 0) + Rounds(t, rest + [a], n)
  {
    if n == 0 {
      assert Rounds(s, [a] + rest, 0) + Turn(s, a, 0) == Turn(s, a, 0);
      assert Turn(s, a, 0) + Rounds(t, rest + [a], 0) == Turn(s, a, 0);
    } else {
      ShiftedRounds(s, t, a, rest, n - 1);
      var y, z := Round(s, rest, n - 1), Turn(s, a, n);
      Regroup(Rounds(s, [a] + rest, n - 1), Turn(s, a, n - 1), Turn(s, a, 0), Rounds(t, rest + [a], n - 1), y, z);
      NextRounds(s, t, a, rest, n);
    }
  }

  lemma NextRounds(s: seq<Item>, t: seq<Item>, a: Adder, rest: seq<Adder>, n: nat)
    requires Lost(s, t, a) && a !in rest && n > 0
    ensures Rounds(s, [a] + rest, n) == Rounds(s, [a] + rest, n - 1) + (Turn(s, a, n - 1) + Round(s, rest, n - 1))
    ensures Rounds(t, rest + [a], n) == Rounds(t, rest + [a], n - 1) + (Round(s, rest, n - 1) + Turn(s, a, n))
  {
    ShiftedRound(s, t, a, rest, n - 1);
  }

  lemma ShiftedTurns(s: seq<Item>, t: seq<Item>, a: Adder, rest: seq<Adder>)
    requires Lost(s, t, a) && a !in rest && |t| <= |s|
    ensures Turns(s, [a] + rest) == [Of(s, a)[0]] + Turns(t, rest + [a])
  {
    ShiftedRounds(s, t, a, rest, |s|);
    OfMembers(s, a);
    assert Turn(s, a, |s|) == [];
    RoundsPastEnd(t, rest + [a], |s|);
  }

  // A seat for somebody who has nothing queued makes no difference.
  lemma {:induction false} IdleSeat(t: seq<Item>, rest: seq<Adder>, a: Adder, n: nat)
    requires Of(t, a) == []
    ensures Rounds(t, rest + [a], n) == Rounds(t, rest, n)
  {
    if n > 0 {
      IdleSeat(t, rest, a, n - 1);
      RoundOfSum(t, rest, [a], n - 1);
      RoundOfOne(t, a, n - 1);
    }
  }

  // Dropping the head of a sequence drops the first item of its adder.
  lemma TailLosesHead(s: seq<Item>)
    requires s != []
    ensures Lost(s, s[1..], s[0].addedBy) && Of(s, s[0].addedBy)[0] == s[0]
  {
    assert s == [s[0]] + s[1..];
    assert [s[0]][..0] == [];
    forall b ensures Of(s, b) == (if b == s[0].addedBy then [s[0]] else []) + Of(s[1..], b) {
      OfSum([s[0]], s[1..], b);
      assert Of([s[0]], b) == if b == s[0].addedBy then [s[0]] else [];
    }
  }

  lemma RoundHead(w: seq<Item>, seats: seq<Adder>)
    requires seats != [] && Of(w, seats[0]) != []
    ensures Round(w, seats, 0) == [Of(w, seats[0])[0]] + Round(w, seats[1..], 0)
  {
    assert seats == [seats[0]] + seats[1..];
    RoundOfSum(w, [seats[0]], seats[1..], 0);
    RoundOfOne(w, seats[0], 0);
  }

  lemma SomebodySits(w: seq<Item>, seats: seq<Adder>)
    requires ExactSeats(w, seats) && w != []
    ensures seats != [] && Of(w, seats[0]) != []
  {
    OfMembers(w, w[0].addedBy);
    assert w[0] in Of(w, w[0].addedBy);
    assert w[0].addedBy in seats;
    assert seats[0] in seats;
  }

  // The turns begin with the first seat's first item.
  lemma HeadOfTurns(w: seq<Item>, seats: seq<Adder>)
    requires ExactSeats(w, seats) && w != [] && Turns(w, seats) == w
    ensures seats != [] && seats[0] == w[0].addedBy
    ensures [w[0]] + Round(w, seats[1..], 0) <= w
  {
    SomebodySits(w, seats);
    RoundHead(w, seats);
    RoundsStart(w, seats, |w|);
    var h := Of(w, seats[0])[0];
    assert h in Of(w, seats[0]);
    OfMembers(w, seats[0]);
    assert h == w[0];
  }

  lemma EverybodySits(w: seq<Item>, seats: seq<Adder>)
    requires ExactSeats(w, seats)
    ensures forall it :: it in w ==> it.addedBy in seats
  {
    forall it | it in w ensures it.addedBy in seats {
      OfMembers(w, it.addedBy);
      assert it in Of(w, it.addedBy);
    }
  }

  lemma OthersFirst(w: seq<Item>, seats: seq<Adder>)
    requires ExactSeats(w, seats) && seats != []
    ensures Adders(Round(w, seats[1..], 0)) == seats[1..]
  {
    forall a | a in seats[1..] ensures Of(w, a) != [] {
      assert a in seats;
    }
    AddersOfFirstRound(w, seats[1..]);
  }

  // Everybody who comes up after the head of the turns, in order.
  lemma AddersAfterHead(w: seq<Item>, seats: seq<Adder>)
    requires ExactSeats(w, seats) && w != [] && Turns(w, seats) == w
    ensures seats != []
    ensures Adders(w[1..]) == seats[1..] || Adders(w[1..]) == seats[1..] + [seats[0]]
  {
    HeadOfTurns(w, seats);
    OthersFirst(w, seats);
    EverybodySits(w, seats);
    SplitAfter(w, w[0], Round(w, seats[1..], 0));
    AddersOfTail(w, seats, Round(w, seats[1..], 0), w[1..][|Round(w, seats[1..], 0)|..]);
  }

  lemma SplitAfter(w: seq<Item>, h: Item, first: seq<Item>)
    requires [h] + first <= w
    ensures |first| <= |w[1..]| && w[1..] == first + w[1..][|first|..]
    ensures forall it :: it in w[1..][|first|..] ==> it in w
  {
    assert forall i :: 0 <= i < |first| ==> w[1..][i] == ([h] + first)[i + 1];
  }

  // Who sits where once the head of the turns is gone: everyone else as
  // before, then the head's adder if they have more.
  lemma SeatsOfTail(w: seq<Item>, seats: seq<Adder>)
    requires ExactSeats(w, seats) && w != [] && Turns(w, seats) == w
    ensures seats != [] && seats[0] == w[0].addedBy
    ensures Seats(Adders(w[1..]), Some(w[0])) == if Of(w[1..], seats[0]) == [] then seats[1..] else seats[1..] + [seats[0]]
  {
    HeadOfTurns(w, seats);
    AddersAfterHead(w, seats);
    AddersAreDistinct(w[1..]);
    var a, rest := seats[0], seats[1..];
    assert a !in rest;
    assert a in rest + [a];
    SeatsSettle(Adders(w[1..]), Some(w[0]));
  }

  // After a first round of the others, only the head's adder is new.
  lemma {:induction false} AddersOfTail(w: seq<Item>, seats: seq<Adder>, first: seq<Item>, y: seq<Item>)
    requires seats != [] && DistinctSeats(seats) && Adders(first) == seats[1..]
    requires forall it :: it in w ==> it.addedBy in seats
    requires forall it :: it in y ==> it in w
    ensures Adders(first + y) == seats[1..] || Adders(first + y) == seats[1..] + [seats[0]]
    decreases |y|
  {
    if y == [] {
      assert first + y == first;
    } else {
      assert y[|y| - 1] in y;
      assert (first + y)[..|first + y| - 1] == first + y[..|y| - 1];
      AddersOfTail(w, seats, first, y[..|y| - 1]);
      assert seats == [seats[0]] + seats[1..];
    }
  }

  // Fair turns survive an advance: when the current item leaves and the head
  // of the fair order takes over, the rest already is in the fair order.
  lemma FairOrderSurvivesAdvance(q: seq<Item>, current: Option<ItemId>)
    requires Distinct(q) && |Waiting(q, current)| >= 2
    ensures var w := Waiting(FairOrder(q, current), current);
      w != [] && FairOrder(w, Some(w[0].id)) == w
  {
    var s, cur := Waiting(q, current), CurrentOf(q, current);
    var seats := Seats(Adders(s), cur);
    WaitingIsTurns(q, current);
    AddersAreExact(s, cur);
    TurnsPermute(s, seats);
    var w := Turns(s, seats);
    TurnsAgree(w, s, seats, |s|);
    FairOrderPermutes(q, current);
    FairOrderDistinct(q, current);
    HeadTakesOver(w, seats);
  }

  lemma FairOrderDistinct(q: seq<Item>, current: Option<ItemId>)
    requires Distinct(q)
    ensures Distinct(Waiting(FairOrder(q, current), current))
  {
    FairOrderPermutes(q, current);
    PermutationDistinct(q, FairOrder(q, current));
    WaitingDistinct(FairOrder(q, current), current);
  }

  lemma TailTakesTurns(w: seq<Item>, seats: seq<Adder>)
    requires ExactSeats(w, seats) && w != [] && Turns(w, seats) == w && seats != [] && seats[0] == w[0].addedBy
    ensures Turns(w[1..], seats[1..] + [seats[0]]) == w[1..]
  {
    var a, rest := seats[0], seats[1..];
    assert seats == [a] + rest;
    TailLosesHead(w);
    ShiftedTurns(w, w[1..], a, rest);
    assert w == [w[0]] + w[1..];
  }

  // The tail is what its own seating makes of it.
  lemma TailIsFair(w: seq<Item>, seats: seq<Adder>)
    requires ExactSeats(w, seats) && w != [] && Turns(w, seats) == w
    ensures Turns(w[1..], Seats(Adders(w[1..]), Some(w[0]))) == w[1..]
  {
    SeatsOfTail(w, seats);
    TailTakesTurns(w, seats);
    if Of(w[1..], seats[0]) == [] {
      IdleSeat(w[1..], seats[1..], seats[0], |w[1..]|);
    }
  }

  lemma HeadTakesOver(w: seq<Item>, seats: seq<Adder>)
    requires Distinct(w) && ExactSeats(w, seats) && |w| >= 2 && Turns(w, seats) == w
    ensures FairOrder(w, Some(w[0].id)) == w
  {
    var h, t := w[0], w[1..];
    assert w == WithCurrent(Some(h), t);
    SplitOfWithCurrent(Some(h), t, Some(h.id));
    TailIsFair(w, seats);
  }

  // ---------------------------------------------------------------------
  // The loops
  // ---------------------------------------------------------------------

  // What is left of one person's items after n turns.
  function Left(s: seq<Item>, a: Adder, n: nat): seq<Item> {
    if n < |Of(s, a)| then Of(s, a)[n..] else []
  }

  lemma LeftStep(s: seq<Item>, a: Adder, n: nat)
    ensures Left(s, a, n) == Turn(s, a, n) + Left(s, a, n + 1)
    ensures Left(s, a, n) == [] <==> Turn(s, a, n) == []
  {
  }

  lemma {:induction false} RoundsGrow(s: seq<Item>, seats: seq<Adder>, n: nat, m: nat)
    requires n <= m
    ensures Rounds(s, seats, n) <= Rounds(s, seats, m)
    decreases m
  {
    if n < m {
      RoundsGrow(s, seats, n, m - 1);
    }
  }

  method GroupByAdder(waiting: seq<Item>) returns (order: seq<Adder>, groups: map<Adder, seq<Item>>)
    ensures order == Adders(waiting)
    ensures forall a :: a in order ==> a in groups && groups[a] == Of(waiting, a)
  {
    order, groups := [], map[];
    for i := 0 to |waiting|
      invariant order == Adders(waiting[..i])
      invariant forall a :: a in groups <==> a in order
      invariant forall a :: a in groups ==> groups[a] == Of(waiting[..i], a)
    {
      assert waiting[..i + 1][..i] == waiting[..i];
      AddersAreDistinct(waiting[..i]);
      var a := waiting[i].addedBy;
      if a !in groups {
        order := order + [a];
        groups := groups[a := [waiting[i]]];
      } else {
        groups := groups[a := groups[a] + [waiting[i]]];
      }
    }
    assert waiting[..|waiting|] == waiting;
  }

  // One pass over the seats, taking the next item of everyone who has one.
  method TakeRound(waiting: seq<Item>, seats: seq<Adder>, turns: seq<Item>, groups: map<Adder, seq<Item>>, ghost n: nat)
    returns (turns': seq<Item>, groups': map<Adder, seq<Item>>)
    requires DistinctSeats(seats) && forall a :: a in seats ==> a in groups && groups[a] == Left(waiting, a, n)
    ensures turns' == turns + Round(waiting, seats, n)
    ensures forall a :: a in seats ==> a in groups' && groups'[a] == Left(waiting, a, n + 1)
  {
    turns', groups' := turns, groups;
    for j := 0 to |seats|
      invariant turns' == turns + Round(waiting, seats[..j], n)
      invariant forall i :: 0 <= i < |seats| ==> seats[i] in groups'
      invariant forall i :: 0 <= i < |seats| ==> groups'[seats[i]] == Left(waiting, seats[i], if i < j then n + 1 else n)
    {
      assert seats[..j + 1][..j] == seats[..j];
      var a := seats[j];
      LeftStep(waiting, a, n);
      var g := groups'[a];
      if |g| > 0 {
        turns' := turns' + [g[0]];
        groups' := groups'[a := g[1..]];
      }
    }
    assert seats[..|seats|] == seats;
  }

  lemma RoundsDone(s: seq<Item>, seats: seq<Adder>, n: nat)
    requires Seated(s, seats) && n <= |s|
    ensures |Rounds(s, seats, n)| >= |s| ==> Rounds(s, seats, n) == Turns(s, seats)
    ensures |Rounds(s, seats, n)| < |s| ==> n < |s|
  {
    RoundsGrow(s, seats, n, |s|);
    assert |Turns(s, seats)| == |s| by {
      TurnsPermute(s, seats);
    }
    WholePrefix(Rounds(s, seats, n), Turns(s, seats));
  }

  lemma WholePrefix(x: seq<Item>, y: seq<Item>)
    requires x <= y
    ensures |x| >= |y| ==> x == y
  {
  }

  // Round after round until everything is placed.
  method TakeTurns(waiting: seq<Item>, seats: seq<Adder>, groups: map<Adder, seq<Item>>) returns (turns: seq<Item>)
    requires Seated(waiting, seats)
    requires forall a :: a in seats ==> a in groups && groups[a] == Of(waiting, a)
    ensures turns == Turns(waiting, seats)
  {
    turns := [];
    var left := groups;
    ghost var n := 0;
    while |turns| < |waiting|
      invariant n <= |waiting| && turns == Rounds(waiting, seats, n)
      invariant forall a :: a in seats ==> a in left && left[a] == Left(waiting, a, n)
      decreases |waiting| - n
    {
      RoundsDone(waiting, seats, n);
      turns, left := TakeRound(waiting, seats, turns, left, n);
      n := n + 1;
    }
    RoundsDone(waiting, seats, n);
  }

  // The fair order as the program computes it: group by adder, rotate the
  // seats, then take turns.
  method FairOrderByRounds(q: seq<Item>, current: Option<ItemId>) returns (r: seq<Item>)
    ensures r == FairOrder(q, current)
  {
    var cur, waiting := SplitCurrent(q, current);
    if |waiting| < 2 {
      return q;
    }
    var order, groups := GroupByAdder(waiting);
    AddersAreExact(waiting, cur);
    SeatsPermute(order, cur);
    if cur.Some? && cur.value.addedBy in order {
      var i := SeatOf(order, cur.value.addedBy);
      order := order[i + 1..] + order[..i + 1];
    }
    var turns := TakeTurns(waiting, order, groups);
    r := WithCurrent(cur, turns);
  }
}
