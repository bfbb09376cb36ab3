// When a waiting list is in turns, told from who added what: every item comes
// after all items that are an earlier turn of their adder, and a round keeps
// the order of the first one. Also: which item such a list can lose, and which
// it can gain at its head.
module FairPattern {
  import opened Base
  import opened Order
  import opened FairTurns

  // ---------------------------------------------------------------------
  // Adders and their turns
  // ---------------------------------------------------------------------

  function Count(s: seq<Adder>, a: Adder): nat {
    if s == [] then 0 else Count(s[..|s| - 1], a) + if s[|s| - 1] == a then 1 else 0
  }

  // Which turn of its adder the item at j is, counted from 0.
  function Occ(s: seq<Adder>, j: nat): nat
    requires j < |s|
  {
    Count(s[..j], s[j])
  }

  // An earlier turn, or the same turn of somebody with an earlier seat.
  predicate Earlier(s: seq<Adder>, seats: seq<Adder>, j: nat, k: nat)
    requires j < |s| && k < |s| && s[j] in seats && s[k] in seats
  {
    Occ(s, j) < Occ(s, k) || (Occ(s, j) == Occ(s, k) && SeatOf(seats, s[j]) < SeatOf(seats, s[k]))
  }

  predicate AllSit(s: seq<Adder>, seats: seq<Adder>) { forall j :: 0 <= j < |s| ==> s[j] in seats }

  predicate Ordered(s: seq<Adder>, seats: seq<Adder>)
    requires AllSit(s, seats)
  {
    forall j, k :: 0 <= j < k < |s| ==> Earlier(s, seats, j, k)
  }

  // In rounds: seats by first appearance.
  predicate InRounds(s: seq<Adder>) { Ordered(s, s) }

  // Whoever is playing now comes last in the first round.
  predicate SitsLast(s: seq<Adder>, cur: Option<Adder>) {
    cur.Some? && cur.value in s ==> forall a :: a in s ==> SeatOf(s, a) <= SeatOf(s, cur.value)
  }

  predicate Pattern(s: seq<Adder>, cur: Option<Adder>) { InRounds(s) && SitsLast(s, cur) }

  lemma {:induction false} CountSum(s: seq<Adder>, t: seq<Adder>, a: Adder)
    ensures Count(s + t, a) == Count(s, a) + Count(t, a)
    decreases |t|
  {
    if t == [] {
      assert s + t == s;
    } else {
      CountSum(s, t[..|t| - 1], a);
      assert (s + t)[..|s + t| - 1] == s + t[..|t| - 1];
    }
  }

  lemma {:induction false} CountsIn(s: seq<Adder>, a: Adder)
    ensures Count(s, a) > 0 <==> a in s
  {
    if s != [] {
      CountsIn(s[..|s| - 1], a);
      assert s == s[..|s| - 1] + [s[|s| - 1]];
    }
  }

  lemma CountOne(a: Adder, b: Adder)
    ensures Count([a], b) == if a == b then 1 else 0
  {
    assert [a][..0] == [];
  }

  // Later items of a person are later turns.
  lemma OccGrows(s: seq<Adder>, j: nat, k: nat)
    requires j < k < |s| && s[j] == s[k]
    ensures Occ(s, j) < Occ(s, k)
  {
    assert s[..k] == s[..j] + [s[j]] + s[j + 1..k];
    CountSum(s[..j] + [s[j]], s[j + 1..k], s[k]);
    CountSum(s[..j], [s[j]], s[k]);
    CountOne(s[j], s[k]);
  }

  // The first item of a person is their first turn.
  lemma FirstTurn(s: seq<Adder>, j: nat)
    requires j < |s|
    ensures Occ(s, j) == 0 <==> SeatOf(s, s[j]) == j
    ensures SeatOf(s, s[j]) <= j
  {
    CountsIn(s[..j], s[j]);
    var f := SeatOf(s, s[j]);
    if f < j {
      assert s[..j][f] == s[j];
    }
  }

  // Whoever has a turn had every turn before it.
  lemma {:induction false} TurnBefore(s: seq<Adder>, k: nat, r: nat) returns (l: nat)
    requires k < |s| && r <= Occ(s, k)
    ensures l <= k && s[l] == s[k] && Occ(s, l) == r
    decreases k
  {
    if r == Occ(s, k) {
      l := k;
    } else {
      l := TurnAt(s[..k], s[k], r);
      assert s[..k][..l] == s[..l];
    }
  }

  lemma {:induction false} TurnAt(s: seq<Adder>, a: Adder, r: nat) returns (l: nat)
    requires r < Count(s, a)
    ensures l < |s| && s[l] == a && Count(s[..l], a) == r
  {
    var front := s[..|s| - 1];
    if r < Count(front, a) {
      l := TurnAt(front, a, r);
      assert front[..l] == s[..l];
    } else {
      l := |s| - 1;
    }
  }

  // ---------------------------------------------------------------------
  // Seats
  // ---------------------------------------------------------------------

  lemma SeatInPrefix(s: seq<Adder>, t: seq<Adder>, a: Adder)
    requires a in s
    ensures SeatOf(s + t, a) == SeatOf(s, a)
  {
    var i, j := SeatOf(s + t, a), SeatOf(s, a);
    assert (s + t)[j] == a;
    assert forall k :: 0 <= k < j ==> (s + t)[k] == s[k];
  }

  lemma SeatBehind(s: seq<Adder>, t: seq<Adder>, a: Adder)
    requires a !in s && a in t
    ensures SeatOf(s + t, a) == |s| + SeatOf(t, a)
  {
    var i, j := SeatOf(s + t, a), |s| + SeatOf(t, a);
    assert (s + t)[j] == a;
    assert forall k :: 0 <= k < |s| ==> (s + t)[k] == s[k];
    assert forall k :: |s| <= k < j ==> (s + t)[k] == t[k - |s|];
  }

  // Two seatings that put the adders of s in the same order.
  predicate SameSeating(s: seq<Adder>, x: seq<Adder>, y: seq<Adder>)
    requires AllSit(s, x) && AllSit(s, y)
  {
    forall j, k :: 0 <= j < |s| && 0 <= k < |s| ==> (SeatOf(x, s[j]) < SeatOf(x, s[k]) <==> SeatOf(y, s[j]) < SeatOf(y, s[k]))
  }

  lemma SeatingDecides(s: seq<Adder>, x: seq<Adder>, y: seq<Adder>)
    requires AllSit(s, x) && AllSit(s, y) && SameSeating(s, x, y)
    ensures Ordered(s, x) <==> Ordered(s, y)
  {
    forall j, k | 0 <= j < k < |s| ensures Earlier(s, x, j, k) <==> Earlier(s, y, j, k) {
    }
  }

  // ---------------------------------------------------------------------
  // Items and their adders
  // ---------------------------------------------------------------------

  function Whose(w: seq<Item>): seq<Adder> { seq(|w|, i requires 0 <= i < |w| => w[i].addedBy) }

  lemma WhoseOfSum(x: seq<Item>, y: seq<Item>)
    ensures Whose(x + y) == Whose(x) + Whose(y)
  {
  }

  lemma {:induction false} CountIsOf(w: seq<Item>, a: Adder)
    ensures Count(Whose(w), a) == |Of(w, a)|
  {
    if w != [] {
      CountIsOf(w[..|w| - 1], a);
      assert Whose(w)[..|w| - 1] == Whose(w[..|w| - 1]);
    }
  }

  lemma {:induction false} AddersSeat(w: seq<Item>)
    ensures forall a :: a in Adders(w) <==> a in Whose(w)
    ensures forall a, b :: a in Adders(w) && b in Adders(w) ==>
      (SeatOf(Adders(w), a) < SeatOf(Adders(w), b) <==> SeatOf(Whose(w), a) < SeatOf(Whose(w), b))
  {
    if w != [] {
      var front, last := w[..|w| - 1], w[|w| - 1].addedBy;
      AddersSeat(front);
      WhoseOfSum(front, [w[|w| - 1]]);
      assert w == front + [w[|w| - 1]];
      var s, x := Whose(front), Adders(front);
      assert Whose(w) == s + [last];
      forall a, b | a in Adders(w) && b in Adders(w)
        ensures SeatOf(Adders(w), a) < SeatOf(Adders(w), b) <==> SeatOf(Whose(w), a) < SeatOf(Whose(w), b)
      {
        SeatWithLast(s, x, last, a);
        SeatWithLast(s, x, last, b);
      }
    }
  }

  // Where a sits once last joined both lists.
  lemma SeatWithLast(s: seq<Adder>, x: seq<Adder>, last: Adder, a: Adder)
    requires forall b :: b in x <==> b in s
    requires a in s || a == last
    ensures var y := if last in x then x else x + [last];
      && a in y && a in s + [last]
      && (if a in s then SeatOf(s + [last], a) == SeatOf(s, a) < |s| && SeatOf(y, a) == SeatOf(x, a) < |x|
          else SeatOf(s + [last], a) == |s| && SeatOf(y, a) == |x|)
  {
    if a in s {
      SeatInPrefix(s, [last], a);
      SeatInPrefix(x, [last], a);
    } else {
      SeatBehind(s, [last], a);
      SeatBehind(x, [last], a);
    }
  }

  // ---------------------------------------------------------------------
  // Turns are ordered
  // ---------------------------------------------------------------------

  lemma OccInPrefix(s: seq<Adder>, t: seq<Adder>, j: nat)
    requires j < |s|
    ensures Occ(s + t, j) == Occ(s, j)
  {
    assert (s + t)[..j] == s[..j];
  }

  // Everything in s is before turn n of seat m.
  predicate Below(s: seq<Adder>, seats: seq<Adder>, n: nat, m: nat)
    requires AllSit(s, seats)
  {
    forall j :: 0 <= j < |s| ==> Occ(s, j) < n || (Occ(s, j) == n && SeatOf(seats, s[j]) < m)
  }

  lemma OrderedAppend(s: seq<Adder>, seats: seq<Adder>, a: Adder, n: nat, m: nat)
    requires a in seats && AllSit(s, seats) && Ordered(s, seats) && Below(s, seats, n, m)
    requires Count(s, a) == n && SeatOf(seats, a) == m
    ensures AllSit(s + [a], seats) && Ordered(s + [a], seats) && Below(s + [a], seats, n, m + 1)
  {
    var t := s + [a];
    assert t[..|s|] == s && Occ(t, |s|) == n;
    forall j | 0 <= j < |s| ensures Occ(t, j) == Occ(s, j) {
      OccInPrefix(s, [a], j);
    }
    forall j, k | 0 <= j < k < |t| ensures Earlier(t, seats, j, k) {
      if k < |s| {
        assert Earlier(s, seats, j, k);
      }
    }
  }

  // The items of n rounds and of the first m seats of the next.
  function Upto(w: seq<Item>, seats: seq<Adder>, n: nat, m: nat): seq<Item>
    requires m <= |seats|
  {
    Rounds(w, seats, n) + Round(w, seats[..m], n)
  }

  lemma UptoStep(w: seq<Item>, seats: seq<Adder>, n: nat, m: nat)
    requires m < |seats|
    ensures Upto(w, seats, n, m + 1) == Upto(w, seats, n, m) + Turn(w, seats[m], n)
  {
    assert seats[..m + 1][..m] == seats[..m];
  }

  // Before seat m had turn n, its person had n turns, if they have so many.
  lemma CountUpto(w: seq<Item>, seats: seq<Adder>, n: nat, m: nat)
    requires DistinctSeats(seats) && m < |seats| && n <= |Of(w, seats[m])|
    ensures |Of(Upto(w, seats, n, m), seats[m])| == n
  {
    OfSum(Rounds(w, seats, n), Round(w, seats[..m], n), seats[m]);
    OfRounds(w, seats, n, seats[m]);
    OfRound(w, seats[..m], n, seats[m]);
  }

  // One seat more.
  lemma SeatOrdered(w: seq<Item>, seats: seq<Adder>, n: nat, m: nat)
    requires DistinctSeats(seats) && m < |seats|
    requires var s := Whose(Upto(w, seats, n, m)); AllSit(s, seats) && Ordered(s, seats) && Below(s, seats, n, m)
    ensures var s := Whose(Upto(w, seats, n, m + 1)); AllSit(s, seats) && Ordered(s, seats) && Below(s, seats, n, m + 1)
  {
    hide Ordered, Below, AllSit, Of, Upto;
    var a, x := seats[m], Upto(w, seats, n, m);
    UptoStep(w, seats, n, m);
    SeatOfDistinct(seats, m);
    if n < |Of(w, a)| {
      var it := Of(w, a)[n];
      TurnIsBy(w, a, n);
      CountUpto(w, seats, n, m);
      CountIsOf(x, a);
      WhoseOfSum(x, [it]);
      assert Whose([it]) == [a];
      OrderedAppend(Whose(x), seats, a, n, m);
    } else {
      assert Upto(w, seats, n, m + 1) == x;
      BelowMore(Whose(x), seats, n, m);
    }
  }

  lemma {:induction false} UptoOrdered(w: seq<Item>, seats: seq<Adder>, n: nat, m: nat)
    requires DistinctSeats(seats) && m <= |seats|
    ensures var s := Whose(Upto(w, seats, n, m)); AllSit(s, seats) && Ordered(s, seats) && Below(s, seats, n, m)
    decreases n, m
  {
    hide Ordered, Below, AllSit, Of, Whose;
    if m > 0 {
      UptoOrdered(w, seats, n, m - 1);
      SeatOrdered(w, seats, n, m - 1);
    } else if n > 0 {
      UptoOrdered(w, seats, n - 1, |seats|);
      assert seats[..|seats|] == seats && seats[..0] == [];
      assert Upto(w, seats, n, 0) == Upto(w, seats, n - 1, |seats|);
      BelowNext(Whose(Upto(w, seats, n, 0)), seats, n - 1);
    } else {
      assert Upto(w, seats, 0, 0) == [];
      NothingOrdered(seats);
    }
  }

  lemma SeatOfDistinct(seats: seq<Adder>, m: nat)
    requires DistinctSeats(seats) && m < |seats|
    ensures SeatOf(seats, seats[m]) == m
  {
  }

  lemma TurnIsBy(w: seq<Item>, a: Adder, n: nat)
    requires n < |Of(w, a)|
    ensures Of(w, a)[n].addedBy == a
  {
    OfMembers(w, a);
    assert Of(w, a)[n] in Of(w, a);
  }

  lemma BelowMore(s: seq<Adder>, seats: seq<Adder>, n: nat, m: nat)
    requires AllSit(s, seats) && Below(s, seats, n, m)
    ensures Below(s, seats, n, m + 1)
  {
  }

  lemma BelowNext(s: seq<Adder>, seats: seq<Adder>, n: nat)
    requires AllSit(s, seats) && Below(s, seats, n, |seats|)
    ensures Below(s, seats, n + 1, 0)
  {
  }

  lemma NothingOrdered(seats: seq<Adder>)
    ensures AllSit(Whose([]), seats) && Ordered(Whose([]), seats) && Below(Whose([]), seats, 0, 0)
  {
  }

  lemma TurnsOrdered(w: seq<Item>, seats: seq<Adder>)
    requires DistinctSeats(seats)
    ensures AllSit(Whose(Turns(w, seats)), seats) && Ordered(Whose(Turns(w, seats)), seats)
  {
    UptoOrdered(w, seats, |w|, 0);
    assert seats[..0] == [];
    assert Upto(w, seats, |w|, 0) == Turns(w, seats);
  }

  // ---------------------------------------------------------------------
  // One order only
  // ---------------------------------------------------------------------

  // The item at n is the next one of its person.
  lemma OfAt(x: seq<Item>, n: nat)
    requires n < |x|
    ensures var a := x[n].addedBy; |Of(x[..n], a)| < |Of(x, a)| && Of(x, a)[|Of(x[..n], a)|] == x[n]
  {
    var a := x[n].addedBy;
    assert x == x[..n] + [x[n]] + x[n + 1..];
    OfSum(x[..n] + [x[n]], x[n + 1..], a);
    OfSum(x[..n], [x[n]], a);
    assert [x[n]][..0] == [];
    assert Of([x[n]], a) == [x[n]];
  }

  lemma OccIsOf(x: seq<Item>, n: nat)
    requires n < |x|
    ensures Occ(Whose(x), n) == |Of(x[..n], x[n].addedBy)|
  {
    CountIsOf(x[..n], x[n].addedBy);
    assert Whose(x)[..n] == Whose(x[..n]);
  }

  // What x has at n comes in y no earlier, as the same turn.
  lemma ComesLater(x: seq<Item>, y: seq<Item>, n: nat) returns (k: nat)
    requires Agree(x, y) && n < |x| && n <= |y| && x[..n] == y[..n]
    ensures n <= k < |y| && y[k] == x[n] && Occ(Whose(y), k) == Occ(Whose(x), n)
  {
    var a := x[n].addedBy;
    OfAt(x, n);
    OccIsOf(x, n);
    assert Of(x, a) == Of(y, a);
    CountIsOf(y, a);
    k := TurnAt(Whose(y), a, Occ(Whose(x), n));
    OfAt(y, k);
    OccIsOf(y, k);
    if k < n {
      OccGrowsItems(x, y, k, n);
    }
  }

  lemma OccGrowsItems(x: seq<Item>, y: seq<Item>, k: nat, n: nat)
    requires k < n < |x| && n <= |y| && x[..n] == y[..n] && y[k].addedBy == x[n].addedBy
    ensures Occ(Whose(y), k) < Occ(Whose(x), n)
  {
    assert x[k] == x[..n][k] == y[k];
    assert x[..k] == x[..n][..k] == y[..k];
    OccIsOf(x, k);
    OccIsOf(y, k);
    OccGrows(Whose(x), k, n);
  }

  lemma {:induction false} OneOrder(x: seq<Item>, y: seq<Item>, seats: seq<Adder>, n: nat)
    requires Agree(x, y) && n <= |x| == |y|
    requires AllSit(Whose(x), seats) && AllSit(Whose(y), seats) && Ordered(Whose(x), seats) && Ordered(Whose(y), seats)
    ensures x[..n] == y[..n]
    decreases n
  {
    if n > 0 {
      var i := n - 1;
      OneOrder(x, y, seats, i);
      if x[i] != y[i] {
        Differ(x, y, seats, i);
      }
      assert x[..n] == x[..i] + [x[i]] && y[..n] == y[..i] + [y[i]];
    }
  }

  lemma Differ(x: seq<Item>, y: seq<Item>, seats: seq<Adder>, i: nat)
    requires Agree(x, y) && i < |x| == |y| && x[..i] == y[..i]
    requires AllSit(Whose(x), seats) && AllSit(Whose(y), seats) && Ordered(Whose(x), seats) && Ordered(Whose(y), seats)
    ensures x[i] == y[i]
  {
    hide Occ, Of;
    AgreeBack(x, y);
    var k := ComesLater(x, y, i);
    var l := ComesLater(y, x, i);
    assert k > i ==> Earlier(Whose(y), seats, i, k);
    assert l > i ==> Earlier(Whose(x), seats, i, l);
  }

  lemma AgreeBack(x: seq<Item>, y: seq<Item>)
    requires Agree(x, y)
    ensures Agree(y, x)
  {
  }

  // ---------------------------------------------------------------------
  // In turns means in rounds, with the current item's adder last
  // ---------------------------------------------------------------------

  lemma TurnsAreOrder(w: seq<Item>, seats: seq<Adder>)
    requires Seated(w, seats) && AllSit(Whose(w), seats)
    ensures Turns(w, seats) == w <==> Ordered(Whose(w), seats)
  {
    TurnsOrdered(w, seats);
    if Ordered(Whose(w), seats) {
      var t := Turns(w, seats);
      TurnsPermute(w, seats);
      OneOrder(t, w, seats, |w|);
      assert t[..|w|] == t && w[..|w|] == w;
    }
  }

  function AdderOf(cur: Option<Item>): Option<Adder> { if cur.Some? then Some(cur.value.addedBy) else None }

  lemma AddersAllSit(w: seq<Item>)
    ensures AllSit(Whose(w), Adders(w)) && AllSit(Whose(w), Whose(w)) && SameSeating(Whose(w), Adders(w), Whose(w))
    ensures Seated(w, Adders(w))
  {
    AddersSeat(w);
    AddersAreDistinct(w);
    var s := Whose(w);
    forall j | 0 <= j < |s| ensures s[j] in Adders(w) {
      assert s[j] in s;
    }
  }

  lemma LastSeat(w: seq<Item>, cur: Option<Item>)
    ensures SitsLast(Whose(w), AdderOf(cur)) <==>
      (cur.Some? && cur.value.addedBy in Adders(w) ==> Adders(w)[|Adders(w)| - 1] == cur.value.addedBy)
  {
    AddersSeat(w);
    AddersAreDistinct(w);
    if cur.Some? && cur.value.addedBy in Adders(w) {
      var x, c := Adders(w), cur.value.addedBy;
      var last := x[|x| - 1];
      assert last in x;
      SeatOfDistinct(x, |x| - 1);
      if c != last {
        assert SeatOf(x, c) < SeatOf(x, last);
      } else {
        forall a | a in Whose(w) ensures SeatOf(Whose(w), a) <= SeatOf(Whose(w), c) {
          assert a in x;
        }
      }
    }
  }

  // The waiting items w are in turns behind cur.
  lemma TurnsPattern(w: seq<Item>, cur: Option<Item>)
    ensures Turns(w, Seats(Adders(w), cur)) == w <==> Pattern(Whose(w), AdderOf(cur))
  {
    hide Ordered, SitsLast, Turns, Seats;
    AddersAllSit(w);
    SeatingDecides(Whose(w), Adders(w), Whose(w));
    TurnsAreOrder(w, Adders(w));
    FixedSeats(w, cur);
  }

  // Turns that change nothing are those of the seats by first appearance.
  lemma FixedSeats(w: seq<Item>, cur: Option<Item>)
    ensures Turns(w, Seats(Adders(w), cur)) == w <==> Turns(w, Adders(w)) == w && SitsLast(Whose(w), AdderOf(cur))
  {
    hide SitsLast, Turns, Whose;
    var x := Adders(w);
    LastSeat(w, cur);
    AddersAreDistinct(w);
    SeatsPermute(x, cur);
    if w != [] && Turns(w, Seats(x, cur)) == w {
      AddersAreExact(w, cur);
      AddersOfTurns(w, Seats(x, cur));
    }
    if SitsLast(Whose(w), AdderOf(cur)) {
      SeatsSettle(x, cur);
    }
  }

  // ---------------------------------------------------------------------
  // Losing an item
  // ---------------------------------------------------------------------

  function Lose(s: seq<Adder>, i: nat): seq<Adder>
    requires i < |s|
  {
    s[..i] + s[i + 1..]
  }

  // Where the item at j of the shorter list was.
  function Was(i: nat, j: nat): nat { if j < i then j else j + 1 }

  lemma LostOcc(s: seq<Adder>, i: nat, j: nat)
    requires i < |s| && j < |s| - 1
    ensures var t, k := Lose(s, i), Was(i, j);
      t[j] == s[k] && Occ(t, j) == Occ(s, k) - (if j >= i && s[k] == s[i] then 1 else 0)
  {
    var t, k := Lose(s, i), Was(i, j);
    if j < i {
      assert t[..j] == s[..j];
    } else {
      assert t[..j] == s[..i] + s[i + 1..k];
      assert s[..k] == s[..i] + [s[i]] + s[i + 1..k];
      CountSum(s[..i], s[i + 1..k], s[k]);
      CountSum(s[..i] + [s[i]], s[i + 1..k], s[k]);
      CountSum(s[..i], [s[i]], s[k]);
      CountOne(s[i], s[k]);
    }
  }

  // Everybody but the loser keeps their place in the first round.
  lemma LostSeat(s: seq<Adder>, i: nat, b: Adder)
    requires i < |s| && b in s && SeatOf(s, b) != i
    ensures b in Lose(s, i) && SeatOf(Lose(s, i), b) == SeatOf(s, b) - (if SeatOf(s, b) > i then 1 else 0)
  {
    var f, t := SeatOf(s, b), Lose(s, i);
    var g := if f > i then f - 1 else f;
    assert t[g] == b;
    assert forall k :: 0 <= k < g ==> t[k] == s[Was(i, k)];
  }

  // The loser's first item is now what was the second.
  lemma LostFirst(s: seq<Adder>, i: nat, m: nat)
    requires i < m < |s| && s[m] == s[i] && Occ(s, i) == 0 && Occ(s, m) == 1
    ensures s[i] in Lose(s, i) && SeatOf(Lose(s, i), s[i]) == m - 1
  {
    var t := Lose(s, i);
    assert t[m - 1] == s[m];
    LostOcc(s, i, m - 1);
    FirstTurn(t, m - 1);
  }

  predicate LaterItem(s: seq<Adder>, i: nat, a: Adder) { exists k :: i < k < |s| && s[k] == a }

  // Somebody with an item before i has another one.
  predicate TwiceBefore(s: seq<Adder>, i: nat)
    requires i < |s|
  {
    exists j, k :: 0 <= j < i && j < k < |s| && s[k] == s[j]
  }

  // What a list in turns can lose: the last item of a person; one that the
  // same person's next item follows at once; or the first of a person before
  // whom nobody has two items, while nobody who waits is playing now.
  predicate CanLose(s: seq<Adder>, i: nat, cur: Option<Adder>)
    requires i < |s|
  {
    || !LaterItem(s, i, s[i])
    || (i + 1 < |s| && s[i + 1] == s[i])
    || (s[i] !in s[..i] && !(cur.Some? && cur.value in s) && !TwiceBefore(s, i))
  }

  // Losing a last item.
  lemma LosesLast(s: seq<Adder>, i: nat, cur: Option<Adder>)
    requires i < |s| && Pattern(s, cur) && !LaterItem(s, i, s[i])
    ensures Pattern(Lose(s, i), cur)
  {
    hide Occ;
    var t := Lose(s, i);
    forall j, k | 0 <= j < k < |t| ensures Earlier(t, t, j, k) {
      LostOcc(s, i, j);
      LostOcc(s, i, k);
      assert Earlier(s, s, Was(i, j), Was(i, k));
      NotItsSeat(s, i, Was(i, j));
      NotItsSeat(s, i, Was(i, k));
      LostSeat(s, i, t[j]);
      LostSeat(s, i, t[k]);
    }
    LastStays(s, i, cur);
  }

  // The first item of a person who has no later one is only their own.
  lemma NotItsSeat(s: seq<Adder>, i: nat, k: nat)
    requires i < |s| && k < |s| && k != i && !LaterItem(s, i, s[i])
    ensures SeatOf(s, s[k]) != i
  {
    FirstTurn(s, k);
  }

  lemma LastStays(s: seq<Adder>, i: nat, cur: Option<Adder>)
    requires i < |s| && SitsLast(s, cur) && !LaterItem(s, i, s[i])
    ensures SitsLast(Lose(s, i), cur)
  {
    var t := Lose(s, i);
    if cur.Some? && cur.value in t {
      forall a | a in t ensures SeatOf(t, a) <= SeatOf(t, cur.value) {
        PlaceIn(s, i, a);
        PlaceIn(s, i, cur.value);
        LostSeat(s, i, a);
        LostSeat(s, i, cur.value);
      }
    }
  }

  lemma PlaceIn(s: seq<Adder>, i: nat, a: Adder)
    requires i < |s| && a in Lose(s, i) && !LaterItem(s, i, s[i])
    ensures a in s && SeatOf(s, a) != i
  {
    var t := Lose(s, i);
    var j := SeatOf(t, a);
    assert t[j] == s[Was(i, j)];
    NotItsSeat(s, i, Was(i, j));
  }

  // Only the order of the adders matters.
  lemma OneWouldDo(s: seq<Adder>, i: nat, cur: Option<Adder>)
    requires Pattern(s, cur) && i < |s| && forall k :: i <= k < |s| ==> s[k] == s[i]
    ensures Pattern(Lose(s, i), cur)
  {
    var n := |s| - 1;
    assert Lose(s, i) == Lose(s, n) by {
      forall j | 0 <= j < n ensures Lose(s, i)[j] == Lose(s, n)[j] {
      }
    }
    LosesLast(s, n, cur);
  }

  // Two items of one person in a row: only theirs are left.
  lemma AloneAfterTwo(s: seq<Adder>, i: nat, k: nat)
    requires InRounds(s) && i + 1 < |s| && s[i + 1] == s[i] && i < k < |s|
    ensures s[k] == s[i]
  {
    hide Occ;
    if k > i + 1 && s[k] != s[i] {
      NextTurn(s, i, i + 1);
      assert Earlier(s, s, i + 1, k);
      var l := TurnBefore(s, k, Occ(s, i));
      var m := TurnBefore(s, k, Occ(s, i) + 1);
      Squeezed(s, i, l, m);
    }
  }

  lemma NextTurn(s: seq<Adder>, i: nat, k: nat)
    requires i < k < |s| && s[k] == s[i] && forall j :: i < j < k ==> s[j] != s[i]
    ensures Occ(s, k) == Occ(s, i) + 1
  {
    assert s[..k] == s[..i] + [s[i]] + s[i + 1..k];
    CountSum(s[..i] + [s[i]], s[i + 1..k], s[i]);
    CountSum(s[..i], [s[i]], s[i]);
    CountOne(s[i], s[i]);
    CountsIn(s[i + 1..k], s[i]);
  }

  // Between two turns in a row of one person nobody else's turns fit.
  lemma Squeezed(s: seq<Adder>, i: nat, l: nat, m: nat)
    requires InRounds(s) && i + 1 < |s| && s[i + 1] == s[i] && Occ(s, i + 1) == Occ(s, i) + 1
    requires l < |s| && m < |s| && s[l] == s[m] && Occ(s, l) == Occ(s, i) && Occ(s, m) == Occ(s, i) + 1
    ensures s[l] == s[i]
  {
    hide Occ;
    assert l < i ==> Earlier(s, s, l, i);
    assert i < l ==> Earlier(s, s, i, l);
    assert l > i + 1 ==> Earlier(s, s, i + 1, l);
    assert m < i ==> Earlier(s, s, m, i);
    assert m > i + 1 ==> Earlier(s, s, i + 1, m);
  }

  lemma LosesOfTwo(s: seq<Adder>, i: nat, cur: Option<Adder>)
    requires i + 1 < |s| && Pattern(s, cur) && s[i + 1] == s[i]
    ensures Pattern(Lose(s, i), cur)
  {
    forall k | i <= k < |s| ensures s[k] == s[i] {
      if k > i {
        AloneAfterTwo(s, i, k);
      }
    }
    OneWouldDo(s, i, cur);
  }

  // The second item of whoever has a later one.
  lemma SecondItem(s: seq<Adder>, i: nat) returns (m: nat)
    requires i < |s| && LaterItem(s, i, s[i]) && Occ(s, i) == 0
    ensures i < m < |s| && s[m] == s[i] && Occ(s, m) == 1
  {
    var k :| i < k < |s| && s[k] == s[i];
    OccGrows(s, i, k);
    m := TurnBefore(s, k, 1);
    if m < i {
      OccGrows(s, m, i);
    }
  }

  lemma LosesFirst(s: seq<Adder>, i: nat, cur: Option<Adder>)
    requires i < |s| && Pattern(s, cur) && LaterItem(s, i, s[i])
    requires s[i] !in s[..i] && !(cur.Some? && cur.value in s) && !TwiceBefore(s, i)
    ensures Pattern(Lose(s, i), cur)
  {
    hide Occ, TwiceBefore, LaterItem;
    var t := Lose(s, i);
    FirstHere(s, i);
    var m := SecondItem(s, i);
    LostFirst(s, i, m);
    forall j, k | 0 <= j < k < |t| ensures Earlier(t, t, j, k) {
      StillEarlier(s, i, m, j, k);
    }
    NobodyPlays(s, i, cur);
  }

  lemma NobodyPlays(s: seq<Adder>, i: nat, cur: Option<Adder>)
    requires i < |s| && !(cur.Some? && cur.value in s)
    ensures SitsLast(Lose(s, i), cur)
  {
  }

  lemma FirstHere(s: seq<Adder>, i: nat)
    requires i < |s| && s[i] !in s[..i]
    ensures Occ(s, i) == 0 && SeatOf(s, s[i]) == i
  {
    CountsIn(s[..i], s[i]);
    FirstTurn(s, i);
  }

  // Whoever comes before i in the first round has that one item only.
  lemma OnceBefore(s: seq<Adder>, i: nat, k: nat)
    requires i < |s| && k < |s| && !TwiceBefore(s, i) && SeatOf(s, s[k]) < i
    ensures Occ(s, k) == 0
  {
    FirstTurn(s, k);
    assert SeatOf(s, s[k]) == k;
  }

  lemma StillEarlier(s: seq<Adder>, i: nat, m: nat, j: nat, k: nat)
    requires i < m < |s| && InRounds(s) && !TwiceBefore(s, i) && Occ(s, i) == 0 && SeatOf(s, s[i]) == i
    requires s[m] == s[i] && Occ(s, m) == 1
    requires s[i] in Lose(s, i) && SeatOf(Lose(s, i), s[i]) == m - 1
    requires j < k < |s| - 1
    ensures Earlier(Lose(s, i), Lose(s, i), j, k)
  {
    hide Occ, TwiceBefore;
    var t, x, y := Lose(s, i), Was(i, j), Was(i, k);
    LostOcc(s, i, j);
    LostOcc(s, i, k);
    assert Earlier(s, s, x, y);
    NoEarlierItem(s, i, x);
    NoEarlierItem(s, i, y);
    if s[x] == s[i] && s[y] == s[i] {
      OccGrows(s, x, y);
    } else if s[y] == s[i] {
      SeatIsNot(s, i, x);
      LostSeat(s, i, s[x]);
      OccGrows(s, i, y);
      if SeatOf(s, s[x]) < i {
        OnceBefore(s, i, x);
      }
      FirstBeforeSecond(s, m, SeatOf(s, s[x]));
    } else if s[x] != s[i] {
      SeatIsNot(s, i, x);
      SeatIsNot(s, i, y);
      LostSeat(s, i, s[x]);
      LostSeat(s, i, s[y]);
    }
  }

  // Items of whoever lost their first one come after it.
  lemma NoEarlierItem(s: seq<Adder>, i: nat, x: nat)
    requires i < |s| && SeatOf(s, s[i]) == i && x < |s|
    ensures s[x] == s[i] ==> x >= i
  {
  }

  lemma SeatIsNot(s: seq<Adder>, i: nat, x: nat)
    requires i < |s| && x < |s| && s[x] != s[i]
    ensures SeatOf(s, s[x]) != i
  {
  }

  // A first item comes before any second one.
  lemma FirstBeforeSecond(s: seq<Adder>, m: nat, f: nat)
    requires InRounds(s) && m < |s| && f < |s| && SeatOf(s, s[f]) == f && Occ(s, m) == 1
    ensures f < m
  {
    FirstTurn(s, f);
    hide Occ;
    assert m < f ==> Earlier(s, s, m, f);
  }

  // ---------------------------------------------------------------------
  // What it cannot lose
  // ---------------------------------------------------------------------

  lemma LostLength(s: seq<Adder>, i: nat)
    requires i < |s|
    ensures |Lose(s, i)| == |s| - 1
  {
  }

  lemma OrderedAt(s: seq<Adder>, j: nat, k: nat)
    requires InRounds(s) && j < k < |s|
    ensures Earlier(s, s, j, k)
  {
  }

  lemma NotOrderedAt(s: seq<Adder>, j: nat, k: nat)
    requires j < k < |s| && !Earlier(s, s, j, k)
    ensures !InRounds(s)
  {
  }

  // A later turn is lost and an item of somebody else follows it.
  lemma MissesTurn(s: seq<Adder>, i: nat, m: nat)
    requires i + 1 < m < |s| && InRounds(s) && Occ(s, i) > 0
    requires s[m] == s[i] && Occ(s, m) == Occ(s, i) + 1 && s[i + 1] != s[i]
    ensures !InRounds(Lose(s, i))
  {
    hide Occ, InRounds, Ordered, Lose;
    var t := Lose(s, i);
    OrderedAt(s, i, i + 1);
    LostOcc(s, i, i);
    LostOcc(s, i, m - 1);
    FirstTurn(s, i);
    SeatIsNot(s, i, i + 1);
    LostSeat(s, i, s[i]);
    LostSeat(s, i, s[i + 1]);
    LostLength(s, i);
    NotOrderedAt(t, i, m - 1);
  }

  // A first turn is lost, and somebody before has a second one.
  lemma MissesFirst(s: seq<Adder>, i: nat, m: nat)
    requires i < m < |s| && InRounds(s) && Occ(s, i) == 0 && TwiceBefore(s, i)
    requires s[m] == s[i] && Occ(s, m) == 1
    ensures !InRounds(Lose(s, i))
  {
    hide Occ;
    var t := Lose(s, i);
    var j, k :| 0 <= j < i && j < k < |s| && s[k] == s[j];
    FirstTurn(s, j);
    FirstTurn(s, i);
    var f := SeatOf(s, s[j]);
    OccGrows(s, j, k);
    var l := TurnBefore(s, k, 1);
    Comes(s, m, l);
    OtherTurn(s, i, l, m);
    SameTurnHere(s, i, l);
    var x := if l < i then l else l - 1;
    LostOcc(s, i, x);
    LostOcc(s, i, m - 1);
    assert !Earlier(t, t, x, m - 1);
  }

  lemma Comes(s: seq<Adder>, j: nat, k: nat)
    requires InRounds(s) && j < |s| && k < |s| && Occ(s, j) == Occ(s, k)
    ensures j < k ==> SeatOf(s, s[j]) < SeatOf(s, s[k])
  {
    hide Occ;
    assert j < k ==> Earlier(s, s, j, k);
  }

  lemma OtherTurn(s: seq<Adder>, i: nat, l: nat, m: nat)
    requires i < |s| && l < |s| && m < |s| && SeatOf(s, s[i]) == i && SeatOf(s, s[l]) < i && s[m] == s[i]
    ensures l != m && s[l] != s[i]
  {
  }

  lemma SameTurnHere(s: seq<Adder>, i: nat, l: nat)
    requires i < |s| && l < |s| && s[l] != s[i]
    ensures l != i
  {
  }

  // A first turn is lost while the adder of the current item waits.
  lemma MissesLast(s: seq<Adder>, i: nat, m: nat, c: Adder)
    requires i + 1 < m < |s| && Pattern(s, Some(c)) && Occ(s, i) == 0 && !TwiceBefore(s, i) && c in s
    requires s[m] == s[i] && Occ(s, m) == 1 && s[i + 1] != s[i]
    ensures !SitsLast(Lose(s, i), Some(c))
  {
    hide Occ;
    var t := Lose(s, i);
    FirstTurn(s, i);
    LostFirst(s, i, m);
    FirstTurn(s, SeatOf(s, c));
    FirstTurn(s, i + 1);
    SeatIsNot(s, i, i + 1);
    NotTwice(s, i, SeatOf(s, s[i + 1]), i + 1);
    assert SeatOf(s, s[i + 1]) <= SeatOf(s, c);
    if c != s[i] {
      var f := SeatOf(s, c);
      SeatIsNot(s, i, f);
      FirstBeforeSecond(s, m, f);
      LostSeat(s, i, c);
    }
  }

  lemma NotTwice(s: seq<Adder>, i: nat, j: nat, k: nat)
    requires i < |s| && j < |s| && k < |s| && s[j] == s[k] && !TwiceBefore(s, i)
    ensures j < k ==> j >= i
  {
  }

  // Exactly what can be lost.
  lemma LosesExactly(s: seq<Adder>, i: nat, cur: Option<Adder>)
    requires i < |s| && Pattern(s, cur)
    ensures Pattern(Lose(s, i), cur) <==> CanLose(s, i, cur)
  {
    hide Occ, TwiceBefore, Ordered, SitsLast, LaterItem;
    if !LaterItem(s, i, s[i]) {
      LosesLast(s, i, cur);
    } else if i + 1 < |s| && s[i + 1] == s[i] {
      LosesOfTwo(s, i, cur);
    } else if s[i] !in s[..i] && !(cur.Some? && cur.value in s) && !TwiceBefore(s, i) {
      LosesFirst(s, i, cur);
    } else {
      CannotLose(s, i, cur);
    }
  }

  lemma CannotLose(s: seq<Adder>, i: nat, cur: Option<Adder>)
    requires i < |s| && Pattern(s, cur) && !CanLose(s, i, cur)
    ensures !Pattern(Lose(s, i), cur)
  {
    hide TwiceBefore, Ordered, SitsLast;
    var m := NextItem(s, i);
    CountsIn(s[..i], s[i]);
    if s[i] in s[..i] {
      MissesTurn(s, i, m);
    } else if TwiceBefore(s, i) {
      MissesFirst(s, i, m);
    } else {
      MissesLast(s, i, m, cur.value);
    }
  }

  lemma NextItem(s: seq<Adder>, i: nat) returns (m: nat)
    requires i < |s| && LaterItem(s, i, s[i])
    ensures i < m < |s| && s[m] == s[i] && Occ(s, m) == Occ(s, i) + 1
  {
    var k :| i < k < |s| && s[k] == s[i];
    OccGrows(s, i, k);
    m := TurnBefore(s, k, Occ(s, i) + 1);
    hide Occ;
    if m < i {
      OccGrows(s, m, i);
    }
  }

  // ---------------------------------------------------------------------
  // Gaining an item at the head
  // ---------------------------------------------------------------------

  // The current item rejoins the waiting ones at their head.
  lemma GainsHead(c: Adder, s: seq<Adder>)
    requires Pattern(s, Some(c))
    ensures Pattern([c] + s, None)
  {
    hide Occ;
    var t := [c] + s;
    forall j, k | 0 <= j < k < |t| ensures Earlier(t, t, j, k) {
      HeadEarlier(c, s, j, k);
    }
  }

  lemma GainedOcc(c: Adder, s: seq<Adder>, j: nat)
    requires j < |s|
    ensures var t := [c] + s; t[j + 1] == s[j] && Occ(t, j + 1) == Occ(s, j) + if s[j] == c then 1 else 0
  {
    var t := [c] + s;
    assert t[..j + 1] == [c] + s[..j];
    CountSum([c], s[..j], s[j]);
    CountOne(c, s[j]);
  }

  lemma GainedSeat(c: Adder, s: seq<Adder>, a: Adder)
    requires a in [c] + s
    ensures SeatOf([c] + s, a) == if a == c then 0 else 1 + SeatOf(s, a)
  {
    if a == c {
      assert ([c] + s)[0] == c;
    } else {
      SeatBehind([c], s, a);
    }
  }

  lemma HeadOcc(c: Adder, s: seq<Adder>)
    ensures Occ([c] + s, 0) == 0
  {
    assert ([c] + s)[..0] == [];
  }

  lemma LastAt(s: seq<Adder>, c: Adder, a: Adder)
    requires SitsLast(s, Some(c)) && c in s && a in s
    ensures SeatOf(s, a) <= SeatOf(s, c)
  {
  }

  // The new head comes before everything.
  lemma HeadFirst(c: Adder, s: seq<Adder>, y: nat)
    requires y < |s|
    ensures Earlier([c] + s, [c] + s, 0, y + 1)
  {
    hide Occ;
    var t := [c] + s;
    GainedOcc(c, s, y);
    GainedSeat(c, s, t[0]);
    GainedSeat(c, s, t[y + 1]);
    HeadOcc(c, s);
  }

  lemma TailEarlier(c: Adder, s: seq<Adder>, x: nat, y: nat)
    requires Pattern(s, Some(c)) && x < y < |s|
    ensures Earlier([c] + s, [c] + s, x + 1, y + 1)
  {
    hide Occ, Ordered, SitsLast;
    var t := [c] + s;
    GainedOcc(c, s, x);
    GainedOcc(c, s, y);
    GainedSeat(c, s, s[x]);
    GainedSeat(c, s, s[y]);
    OrderedAt(s, x, y);
    if s[x] == c {
      LastAt(s, c, s[y]);
    }
  }

  lemma HeadEarlier(c: Adder, s: seq<Adder>, j: nat, k: nat)
    requires Pattern(s, Some(c)) && j < k <= |s|
    ensures Earlier([c] + s, [c] + s, j, k)
  {
    hide Occ, Pattern;
    if j == 0 {
      HeadFirst(c, s, k - 1);
    } else {
      TailEarlier(c, s, j - 1, k - 1);
    }
  }
}
