// The client's estimate of the server clock: the sorted middle of the last
// nine offset samples. Times are milliseconds; halves of a round trip are
// exact in the reals as they are in the client's numbers.
module ClientClock {
  datatype Sample = Sample(offset: real, rtt: int)

  // A ping sent at t0 and answered at t2 by the local clock, with the
  // server's reading t1.
  datatype Pong = Pong(t0: int, t1: int, t2: int)

  const KEPT: nat := 9

  function SampleOf(p: Pong): Sample {
    var rtt := p.t2 - p.t0;
    Sample(p.t1 as real - (p.t0 as real + rtt as real / 2.0), rtt)
  }

  function Insert(s: seq<Sample>, x: Sample): seq<Sample> {
    if s == [] || s[|s| - 1].offset <= x.offset then s + [x]
    else Insert(s[..|s| - 1], x) + [s[|s| - 1]]
  }

  // The stable sort by offset.
  function Sort(s: seq<Sample>): seq<Sample> {
    if s == [] then [] else Insert(Sort(s[..|s| - 1]), s[|s| - 1])
  }

  function Pushed(samples: seq<Sample>, x: Sample): seq<Sample> {
    var all := samples + [x];
    if |all| > KEPT then all[1..] else all
  }

  class ClockSync {
    var samples: seq<Sample>
    var offset: real
    var rtt: int

    constructor ()
      ensures samples == [] && offset == 0.0 && rtt == 0
    {
      samples, offset, rtt := [], 0.0, 0;
    }

    method HandlePong(t0: int, t1: int, t2: int)
      modifies this
      ensures samples == Pushed(old(samples), SampleOf(Pong(t0, t1, t2)))
      ensures samples != [] && |Sort(samples)| == |samples|
      ensures offset == Middle(samples).offset && rtt == Middle(samples).rtt
    {
      hide Sort;
      var trip := t2 - t0;
      samples := samples + [Sample(t1 as real - (t0 as real + trip as real / 2.0), trip)];
      if |samples| > KEPT {
        samples := samples[1..];
      }
      var sorted := Sort(samples);
      SortSorts(samples);
      if |sorted| > 0 {
        var mid := sorted[|sorted| / 2];
        offset, rtt := mid.offset, mid.rtt;
      }
    }

    function ServerNow(local: int): (t: real)
      reads this
      ensures t - local as real == offset
    {
      local as real + offset
    }
  }

  // ---------------------------------------------------------------------
  // The sort
  // ---------------------------------------------------------------------

  predicate Sorted(s: seq<Sample>) { forall i, j :: 0 <= i < j < |s| ==> s[i].offset <= s[j].offset }

  lemma {:induction false} InsertSorts(s: seq<Sample>, x: Sample)
    requires Sorted(s)
    ensures Sorted(Insert(s, x)) && multiset(Insert(s, x)) == multiset(s) + multiset{x}
  {
    if s != [] && s[|s| - 1].offset > x.offset {
      var front, last := s[..|s| - 1], s[|s| - 1];
      assert s == front + [last];
      InsertSorts(front, x);
      forall i | 0 <= i < |Insert(front, x)| ensures Insert(front, x)[i].offset <= last.offset {
        assert Insert(front, x)[i] in multiset(Insert(front, x));
        if Insert(front, x)[i] != x {
          assert Insert(front, x)[i] in front;
        }
      }
    }
  }

  lemma {:induction false} SortSorts(s: seq<Sample>)
    ensures Sorted(Sort(s)) && multiset(Sort(s)) == multiset(s) && |Sort(s)| == |s|
  {
    if s != [] {
      SortSorts(s[..|s| - 1]);
      InsertSorts(Sort(s[..|s| - 1]), s[|s| - 1]);
      assert s == s[..|s| - 1] + [s[|s| - 1]];
      assert |Sort(s)| == |multiset(Sort(s))| == |multiset(s)|;
    }
  }

  function Middle(s: seq<Sample>): Sample
    requires s != [] && |Sort(s)| == |s|
  {
    Sort(s)[|s| / 2]
  }

  // ---------------------------------------------------------------------
  // One sample
  // ---------------------------------------------------------------------

  // The server read its clock between send and receive: at the local time
  // read, ahead of the local clock by ahead.
  predicate Honest(p: Pong, ahead: real, read: real) {
    p.t0 as real <= read <= p.t2 as real && p.t1 as real == read + ahead
  }

  predicate ErrsBy(x: Sample, ahead: real, e: real) { -e <= x.offset - ahead <= e }

  lemma SampleErrsByHalf(p: Pong, ahead: real, read: real)
    requires Honest(p, ahead, read)
    ensures ErrsBy(SampleOf(p), ahead, SampleOf(p).rtt as real / 2.0)
  {
  }

  // ---------------------------------------------------------------------
  // The sorted middle
  // ---------------------------------------------------------------------

  predicate Quick(x: Sample, e: real) { x.rtt as real <= 2.0 * e }

  function QuickOnes(s: seq<Sample>, e: real): nat {
    if s == [] then 0
    else if Quick(s[|s| - 1], e) then QuickOnes(s[..|s| - 1], e) + 1
    else QuickOnes(s[..|s| - 1], e)
  }

  lemma {:induction false} QuickOfSum(a: seq<Sample>, b: seq<Sample>, e: real)
    ensures QuickOnes(a + b, e) == QuickOnes(a, e) + QuickOnes(b, e)
    decreases |b|
  {
    if b == [] {
      assert a + b == a;
    } else {
      QuickOfSum(a, b[..|b| - 1], e);
      assert (a + b)[..|a + b| - 1] == a + b[..|b| - 1];
    }
  }

  lemma {:induction false} QuickOfInsert(s: seq<Sample>, x: Sample, e: real)
    ensures QuickOnes(Insert(s, x), e) == QuickOnes(s, e) + QuickOnes([x], e)
  {
    if s == [] || s[|s| - 1].offset <= x.offset {
      QuickOfSum(s, [x], e);
    } else {
      QuickOfInsert(s[..|s| - 1], x, e);
      QuickOfSum(Insert(s[..|s| - 1], x), [s[|s| - 1]], e);
      QuickOfSum(s[..|s| - 1], [s[|s| - 1]], e);
      assert s == s[..|s| - 1] + [s[|s| - 1]];
    }
  }

  lemma {:induction false} QuickOfSort(s: seq<Sample>, e: real)
    ensures QuickOnes(Sort(s), e) == QuickOnes(s, e)
  {
    if s != [] {
      QuickOfSort(s[..|s| - 1], e);
      QuickOfInsert(Sort(s[..|s| - 1]), s[|s| - 1], e);
      QuickOfSum(s[..|s| - 1], [s[|s| - 1]], e);
      assert s == s[..|s| - 1] + [s[|s| - 1]];
    }
  }

  lemma {:induction false} AtMostAll(s: seq<Sample>, e: real)
    ensures QuickOnes(s, e) <= |s|
  {
    if s != [] {
      AtMostAll(s[..|s| - 1], e);
    }
  }

  lemma {:induction false} NoneQuick(s: seq<Sample>, e: real)
    requires forall x :: x in s ==> !Quick(x, e)
    ensures QuickOnes(s, e) == 0
  {
    if s != [] {
      assert s[|s| - 1] in s;
      NoneQuick(s[..|s| - 1], e);
    }
  }

  // Where none of from..to is quick, the quick ones are elsewhere.
  lemma SlowRange(s: seq<Sample>, from: nat, to: nat, e: real)
    requires from <= to <= |s| && forall i :: from <= i < to ==> !Quick(s[i], e)
    ensures QuickOnes(s, e) <= |s| - (to - from)
  {
    assert s == s[..from] + (s[from..to] + s[to..]);
    QuickOfSum(s[..from], s[from..to] + s[to..], e);
    QuickOfSum(s[from..to], s[to..], e);
    NoneQuick(s[from..to], e);
    AtMostAll(s[..from], e);
    AtMostAll(s[to..], e);
  }

  lemma QuickIsRight(x: Sample, ahead: real, e: real)
    requires ErrsBy(x, ahead, x.rtt as real / 2.0) && Quick(x, e)
    ensures ErrsBy(x, ahead, e)
  {
  }

  // A sorted list with its middle too high has no quick one from there on.
  lemma NotTooHigh(t: seq<Sample>, ahead: real, e: real)
    requires Sorted(t) && t != [] && 2 * QuickOnes(t, e) > |t|
    requires forall i :: 0 <= i < |t| && Quick(t[i], e) ==> ErrsBy(t[i], ahead, e)
    ensures t[|t| / 2].offset - ahead <= e
  {
    hide QuickOnes;
    if t[|t| / 2].offset - ahead > e {
      SlowRange(t, |t| / 2, |t|, e);
    }
  }

  lemma NotTooLow(t: seq<Sample>, ahead: real, e: real)
    requires Sorted(t) && t != [] && 2 * QuickOnes(t, e) > |t|
    requires forall i :: 0 <= i < |t| && Quick(t[i], e) ==> ErrsBy(t[i], ahead, e)
    ensures t[|t| / 2].offset - ahead >= -e
  {
    hide QuickOnes;
    if t[|t| / 2].offset - ahead < -e {
      SlowRange(t, 0, |t| / 2 + 1, e);
    }
  }

  // When more than half of the samples took at most 2e, the sorted middle is
  // within e, however wrong the others are.
  lemma MiddleErrsBy(s: seq<Sample>, ahead: real, e: real)
    requires s != [] && |Sort(s)| == |s|
    requires forall x :: x in s ==> ErrsBy(x, ahead, x.rtt as real / 2.0)
    requires 2 * QuickOnes(s, e) > |s|
    ensures ErrsBy(Middle(s), ahead, e)
  {
    hide Sort, QuickOnes;
    var t := Sort(s);
    SortSorts(s);
    QuickOfSort(s, e);
    forall i | 0 <= i < |t| && Quick(t[i], e) ensures ErrsBy(t[i], ahead, e) {
      assert t[i] in multiset(s);
      QuickIsRight(t[i], ahead, e);
    }
    NotTooHigh(t, ahead, e);
    NotTooLow(t, ahead, e);
  }

  // ---------------------------------------------------------------------
  // Any sequence of pongs
  // ---------------------------------------------------------------------

  // What HandlePong keeps after these pongs, in order.
  function After(pongs: seq<Pong>): seq<Sample> {
    if pongs == [] then [] else Pushed(After(pongs[..|pongs| - 1]), SampleOf(pongs[|pongs| - 1]))
  }

  function Samples(pongs: seq<Pong>): seq<Sample> {
    seq(|pongs|, i requires 0 <= i < |pongs| => SampleOf(pongs[i]))
  }

  lemma {:induction false} KeepsTheLatest(pongs: seq<Pong>)
    ensures After(pongs) == Samples(Latest(pongs))
  {
    if pongs != [] {
      var front, last := pongs[..|pongs| - 1], pongs[|pongs| - 1];
      KeepsTheLatest(front);
      var all := Latest(front) + [last];
      assert Samples(all) == Samples(Latest(front)) + [SampleOf(last)];
      assert Latest(pongs) == if |all| > KEPT then all[1..] else all;
    }
  }

  function Latest(pongs: seq<Pong>): seq<Pong> {
    if |pongs| > 9 then pongs[|pongs| - 9..] else pongs
  }

  ghost predicate AllHonest(pongs: seq<Pong>, ahead: real) {
    forall p :: p in pongs ==> exists read :: Honest(p, ahead, read)
  }

  // At every point of any sequence of honest pongs.
  lemma EstimateErrsBy(pongs: seq<Pong>, ahead: real, e: real)
    requires pongs != [] && AllHonest(pongs, ahead) && 2 * QuickOnes(After(pongs), e) > |After(pongs)|
    ensures After(pongs) != [] && |Sort(After(pongs))| == |After(pongs)| && ErrsBy(Middle(After(pongs)), ahead, e)
  {
    KeepsTheLatest(pongs);
    SortSorts(After(pongs));
    forall x | x in After(pongs) ensures ErrsBy(x, ahead, x.rtt as real / 2.0) {
      var i :| 0 <= i < |After(pongs)| && After(pongs)[i] == x;
      var p := Latest(pongs)[i];
      assert p in Latest(pongs) && p in pongs;
      var read :| Honest(p, ahead, read);
      SampleErrsByHalf(p, ahead, read);
    }
    MiddleErrsBy(After(pongs), ahead, e);
  }

  // So what the client takes for the server's time is right up to e.
  lemma ServerNowErrsBy(c: ClockSync, pongs: seq<Pong>, ahead: real, e: real, local: int)
    requires pongs != [] && AllHonest(pongs, ahead) && 2 * QuickOnes(After(pongs), e) > |After(pongs)|
    requires |Sort(After(pongs))| == |After(pongs)| && After(pongs) != [] && c.offset == Middle(After(pongs)).offset
    ensures -e <= c.ServerNow(local) - (local as real + ahead) <= e
  {
    hide Sort, QuickOnes;
    EstimateErrsBy(pongs, ahead, e);
  }

  // Half is not enough: with two samples the middle is the later one, which
  // may be as wrong as its round trip allows.
  lemma HalfIsNotEnough() returns (s: seq<Sample>, ahead: real, e: real)
    ensures |s| == 2 && |Sort(s)| == 2 && 2 * QuickOnes(s, e) == |s|
    ensures forall x :: x in s ==> ErrsBy(x, ahead, x.rtt as real / 2.0)
    ensures !ErrsBy(Middle(s), ahead, e)
  {
    s, ahead, e := [Sample(0.0, 0), Sample(5.0, 10)], 0.0, 0.0;
    assert s[..1] == [Sample(0.0, 0)] && s[..1][..0] == [];
    assert Sort(s[..1]) == [Sample(0.0, 0)];
    assert Sort(s) == s;
    assert QuickOnes(s[..1], e) == 1;
  }
}
