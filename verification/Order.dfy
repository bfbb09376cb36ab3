// The order rules of the queue: votes, fair turns, moves, batches. Each is a
// function from a queue to a new queue; what the program writes as a loop is
// a method as well, proved against its function.
module Order {
  import opened Base

  type Adder = Option<UserId>

  // ---------------------------------------------------------------------
  // The current item and the waiting ones
  // ---------------------------------------------------------------------

  predicate IsCurrent(it: Item, current: Option<ItemId>) { current == Some(it.id) }

  function Waiting(q: seq<Item>, current: Option<ItemId>): seq<Item> {
    if q == [] then []
    else
      var last := q[|q| - 1];
      if IsCurrent(last, current) then Waiting(q[..|q| - 1], current) else Waiting(q[..|q| - 1], current) + [last]
  }

  function CurrentOf(q: seq<Item>, current: Option<ItemId>): Option<Item> {
    if q == [] then None
    else
      var last := q[|q| - 1];
      if IsCurrent(last, current) then Some(last) else CurrentOf(q[..|q| - 1], current)
  }

  function WithCurrent(cur: Option<Item>, waiting: seq<Item>): seq<Item> {
    match cur
    case None => waiting
    case Some(c) => [c] + waiting
  }

  method SplitCurrent(q: seq<Item>, current: Option<ItemId>) returns (cur: Option<Item>, waiting: seq<Item>)
    ensures cur == CurrentOf(q, current) && waiting == Waiting(q, current)
  {
    cur, waiting := None, [];
    for i := 0 to |q|
      invariant cur == CurrentOf(q[..i], current) && waiting == Waiting(q[..i], current)
    {
      assert q[..i + 1][..i] == q[..i];
      if current.Some? && q[i].id == current.value {
        cur := Some(q[i]);
      } else {
        waiting := waiting + [q[i]];
      }
    }
    assert q[..|q|] == q;
  }

  predicate Distinct(q: seq<Item>) {
    forall i, j :: 0 <= i < j < |q| ==> q[i].id != q[j].id
  }

  lemma {:induction false} WaitingOfSum(x: seq<Item>, y: seq<Item>, current: Option<ItemId>)
    ensures Waiting(x + y, current) == Waiting(x, current) + Waiting(y, current)
    decreases |y|
  {
    if y == [] {
      assert x + y == x;
    } else {
      assert (x + y)[..|x + y| - 1] == x + y[..|y| - 1];
      WaitingOfSum(x, y[..|y| - 1], current);
    }
  }

  // Nothing in s is current: all of it waits.
  lemma {:induction false} AllWait(s: seq<Item>, current: Option<ItemId>)
    requires forall it :: it in s ==> !IsCurrent(it, current)
    ensures Waiting(s, current) == s && CurrentOf(s, current) == None
  {
    if s != [] {
      assert s[|s| - 1] in s;
      AllWait(s[..|s| - 1], current);
      assert s == s[..|s| - 1] + [s[|s| - 1]];
    }
  }

  lemma {:induction false} WaitingMembers(q: seq<Item>, current: Option<ItemId>)
    ensures forall it :: it in Waiting(q, current) <==> it in q && !IsCurrent(it, current)
    ensures CurrentOf(q, current).Some? ==> CurrentOf(q, current).value in q && IsCurrent(CurrentOf(q, current).value, current)
    ensures CurrentOf(q, current).None? ==> forall it :: it in q ==> !IsCurrent(it, current)
  {
    if q != [] {
      WaitingMembers(q[..|q| - 1], current);
      assert q == q[..|q| - 1] + [q[|q| - 1]];
    }
  }

  // Splitting off the current item and putting it in front permutes the
  // queue.
  lemma {:induction false} SplitPermutes(q: seq<Item>, current: Option<ItemId>)
    requires Distinct(q)
    ensures multiset(WithCurrent(CurrentOf(q, current), Waiting(q, current))) == multiset(q)
  {
    if q != [] {
      var front, last := q[..|q| - 1], q[|q| - 1];
      assert q == front + [last];
      SplitPermutes(front, current);
      if IsCurrent(last, current) {
        WaitingMembers(front, current);
        assert CurrentOf(front, current) == None;
      }
    }
  }

  lemma {:induction false} WaitingDistinct(q: seq<Item>, current: Option<ItemId>)
    requires Distinct(q)
    ensures Distinct(Waiting(q, current))
  {
    if q != [] {
      var front, last := q[..|q| - 1], q[|q| - 1];
      WaitingDistinct(front, current);
      WaitingMembers(front, current);
      forall it | it in Waiting(front, current) ensures it.id != last.id {
        assert it in front;
      }
    }
  }

  lemma CountedTwice(y: seq<Item>, i: nat, j: nat)
    requires i < j < |y| && y[i] == y[j]
    ensures multiset(y)[y[i]] >= 2
  {
    assert y == y[..j] + y[j..];
    assert y[i] in y[..j] && y[i] in y[j..];
  }

  // Reordering keeps the ids distinct.
  lemma PermutationDistinct(x: seq<Item>, y: seq<Item>)
    requires Distinct(x) && multiset(x) == multiset(y)
    ensures Distinct(y)
  {
    forall i, j | 0 <= i < j < |y| ensures y[i].id != y[j].id {
      OncePerItem(x, y[i]);
      if y[i] == y[j] {
        CountedTwice(y, i, j);
      } else {
        assert y[i] in multiset(x) && y[j] in multiset(x);
      }
    }
  }

  lemma {:induction false} OncePerItem(x: seq<Item>, it: Item)
    requires Distinct(x)
    ensures multiset(x)[it] <= 1
  {
    if x != [] {
      var front, last := x[..|x| - 1], x[|x| - 1];
      assert x == front + [last];
      OncePerItem(front, it);
      assert last !in front;
    }
  }

  // ---------------------------------------------------------------------
  // Votes
  // ---------------------------------------------------------------------

  predicate Before(a: Item, b: Item) {
    a.votes > b.votes || (a.votes == b.votes && a.createdAt < b.createdAt)
  }

  // Most votes first, then the oldest.
  predicate ByVotes(s: seq<Item>) {
    forall i, j :: 0 <= i < j < |s| ==> !Before(s[j], s[i])
  }

  function Insert(s: seq<Item>, x: Item): seq<Item> {
    if s == [] || !Before(x, s[|s| - 1]) then s + [x]
    else Insert(s[..|s| - 1], x) + [s[|s| - 1]]
  }

  // The stable sort by votes.
  function SortByVotes(s: seq<Item>): seq<Item> {
    if s == [] then [] else Insert(SortByVotes(s[..|s| - 1]), s[|s| - 1])
  }

  function VoteOrder(q: seq<Item>, current: Option<ItemId>): seq<Item> {
    WithCurrent(CurrentOf(q, current), SortByVotes(Waiting(q, current)))
  }

  // The items that compare equal to k, in their order.
  function Ties(s: seq<Item>, k: Item): seq<Item> {
    if s == [] then []
    else
      var last := s[|s| - 1];
      if Tie(last, k) then Ties(s[..|s| - 1], k) + [last] else Ties(s[..|s| - 1], k)
  }

  predicate Tie(a: Item, b: Item) { a.votes == b.votes && a.createdAt == b.createdAt }

  lemma TiesOfAppend(s: seq<Item>, x: Item, k: Item)
    ensures Ties(s + [x], k) == if Tie(x, k) then Ties(s, k) + [x] else Ties(s, k)
  {
    assert (s + [x])[..|s|] == s;
  }

  lemma {:induction false} InsertSorts(s: seq<Item>, x: Item)
    requires ByVotes(s)
    ensures ByVotes(Insert(s, x)) && multiset(Insert(s, x)) == multiset(s) + multiset{x}
  {
    if s != [] && Before(x, s[|s| - 1]) {
      var front, last := s[..|s| - 1], s[|s| - 1];
      InsertSorts(front, x);
      assert s == front + [last];
      LastStaysLast(front, Insert(front, x), x, last);
    }
  }

  lemma LastStaysLast(front: seq<Item>, t: seq<Item>, x: Item, last: Item)
    requires ByVotes(front + [last]) && ByVotes(t) && multiset(t) == multiset(front) + multiset{x} && !Before(last, x)
    ensures ByVotes(t + [last])
  {
    forall i | 0 <= i < |t| ensures !Before(last, t[i]) {
      assert t[i] in multiset(t);
      if t[i] != x {
        assert t[i] in front;
        var j :| 0 <= j < |front| && front[j] == t[i];
        assert (front + [last])[j] == t[i] && (front + [last])[|front|] == last;
      }
    }
  }

  lemma {:induction false} InsertKeepsTies(s: seq<Item>, x: Item, k: Item)
    ensures Ties(Insert(s, x), k) == Ties(s + [x], k)
  {
    TiesOfAppend(s, x, k);
    if s != [] && Before(x, s[|s| - 1]) {
      var front, last := s[..|s| - 1], s[|s| - 1];
      InsertKeepsTies(front, x, k);
      TiesOfAppend(front, x, k);
      TiesOfAppend(Insert(front, x), last, k);
    }
  }

  lemma {:induction false} SortByVotesSorts(s: seq<Item>)
    ensures ByVotes(SortByVotes(s)) && multiset(SortByVotes(s)) == multiset(s)
  {
    if s != [] {
      var front, last := s[..|s| - 1], s[|s| - 1];
      SortByVotesSorts(front);
      InsertSorts(SortByVotes(front), last);
      assert multiset(s) == multiset(front) + multiset{last} by {
        assert s == front + [last];
      }
    }
  }

  lemma {:induction false} SortByVotesIsStable(s: seq<Item>, k: Item)
    ensures Ties(SortByVotes(s), k) == Ties(s, k)
  {
    if s != [] {
      var front, last := s[..|s| - 1], s[|s| - 1];
      SortByVotesIsStable(front, k);
      InsertKeepsTies(SortByVotes(front), last, k);
      TiesOfAppend(SortByVotes(front), last, k);
    }
  }

  // Sorted sequences with the same members end in items that tie.
  lemma LastsTie(s: seq<Item>, t: seq<Item>)
    requires ByVotes(s) && ByVotes(t) && multiset(s) == multiset(t) && s != []
    ensures t != [] && Tie(s[|s| - 1], t[|t| - 1])
  {
    var a := s[|s| - 1];
    assert a in multiset(t);
    var b := t[|t| - 1];
    assert b in multiset(s);
    var i :| 0 <= i < |t| && t[i] == a;
    var j :| 0 <= j < |s| && s[j] == b;
  }

  ghost predicate SameTies(s: seq<Item>, t: seq<Item>) {
    forall k :: Ties(s, k) == Ties(t, k)
  }

  lemma TiesOfFronts(s: seq<Item>, t: seq<Item>, k: Item)
    requires s != [] && t != [] && Tie(s[|s| - 1], t[|t| - 1]) && SameTies(s, t)
    ensures Ties(s[..|s| - 1], k) == Ties(t[..|t| - 1], k)
  {
    assert Ties(s, k) == Ties(t, k);
    if Tie(s[|s| - 1], k) {
      assert Ties(s[..|s| - 1], k) == Ties(s, k)[..|Ties(s, k)| - 1];
      assert Ties(t[..|t| - 1], k) == Ties(t, k)[..|Ties(t, k)| - 1];
    } else {
      assert Ties(s, k) == Ties(s[..|s| - 1], k) && Ties(t, k) == Ties(t[..|t| - 1], k);
    }
  }

  lemma LastsEqual(s: seq<Item>, t: seq<Item>)
    requires s != [] && t != [] && Tie(s[|s| - 1], t[|t| - 1]) && Ties(s, s[|s| - 1]) == Ties(t, s[|s| - 1])
    ensures s[|s| - 1] == t[|t| - 1]
  {
    var a := s[|s| - 1];
    assert Ties(s, a)[|Ties(s, a)| - 1] == a;
    assert Ties(t, a)[|Ties(t, a)| - 1] == t[|t| - 1];
  }

  lemma SameLasts(s: seq<Item>, t: seq<Item>)
    requires ByVotes(s) && ByVotes(t) && multiset(s) == multiset(t) && SameTies(s, t) && s != []
    ensures t != [] && s[|s| - 1] == t[|t| - 1]
  {
    LastsTie(s, t);
    assert Ties(s, s[|s| - 1]) == Ties(t, s[|s| - 1]);
    LastsEqual(s, t);
  }

  lemma FrontsAlike(s: seq<Item>, t: seq<Item>)
    requires s != [] && t != [] && s[|s| - 1] == t[|t| - 1] && multiset(s) == multiset(t)
    ensures multiset(s[..|s| - 1]) == multiset(t[..|t| - 1])
  {
    var sf, tf, a := s[..|s| - 1], t[..|t| - 1], s[|s| - 1];
    assert s == sf + [a] && t == tf + [a];
    assert multiset(sf) == multiset(s) - multiset{a} == multiset(t) - multiset{a} == multiset(tf);
  }

  // The vote order leaves no choice: two sorted permutations of each other
  // that keep equals in the same order are the same sequence.
  lemma {:induction false} StableSortIsUnique(s: seq<Item>, t: seq<Item>)
    requires ByVotes(s) && ByVotes(t) && multiset(s) == multiset(t) && SameTies(s, t)
    ensures s == t
    decreases |s|
  {
    assert |s| == |multiset(s)| == |multiset(t)| == |t|;
    if s != [] {
      SameLasts(s, t);
      FrontsAlike(s, t);
      var sf, tf := s[..|s| - 1], t[..|t| - 1];
      assert SameTies(sf, tf) by {
        forall k ensures Ties(sf, k) == Ties(tf, k) {
          TiesOfFronts(s, t, k);
        }
      }
      StableSortIsUnique(sf, tf);
      assert s == sf + [s[|s| - 1]] && t == tf + [s[|s| - 1]];
    }
  }

  lemma SortedStays(s: seq<Item>)
    requires ByVotes(s)
    ensures SortByVotes(s) == s
  {
    SortByVotesSorts(s);
    forall k ensures Ties(SortByVotes(s), k) == Ties(s, k) {
      SortByVotesIsStable(s, k);
    }
    StableSortIsUnique(SortByVotes(s), s);
  }
}
