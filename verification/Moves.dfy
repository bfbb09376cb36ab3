// Moves and advances: the order rules that place one item or a batch, and
// the rotation in which items take over from each other.
module Moves {
  import opened Base
  import opened Order

  function IndexOf(q: seq<Item>, id: ItemId): (i: int)
    ensures -1 <= i < |q|
    ensures i >= 0 ==> q[i].id == id
    ensures i < 0 <==> forall j :: 0 <= j < |q| ==> q[j].id != id
    ensures forall j :: 0 <= j < i ==> q[j].id != id
  {
    if q == [] then -1
    else if q[0].id == id then 0
    else
      var i := IndexOf(q[1..], id);
      if i < 0 then -1 else i + 1
  }

  function Without(q: seq<Item>, i: nat): seq<Item>
    requires i < |q|
  {
    q[..i] + q[i + 1..]
  }

  function InsertAt(rest: seq<Item>, at: nat, item: Item): seq<Item>
    requires at <= |rest|
  {
    rest[..at] + [item] + rest[at..]
  }

  // Where an item lands among the rest when it is placed after an anchor
  // (none: the head), never ahead of a leading current item.
  function Landing(rest: seq<Item>, after: Option<ItemId>, current: Option<ItemId>): (at: nat)
    requires after.Some? ==> IndexOf(rest, after.value) >= 0
    ensures at <= |rest|
  {
    if after.Some? then IndexOf(rest, after.value) + 1
    else if current.Some? && |rest| > 0 && rest[0].id == current.value then 1
    else 0
  }

  // None when the anchor is unknown.
  function PlaceAfter(q: seq<Item>, idx: nat, after: Option<ItemId>, current: Option<ItemId>): Option<seq<Item>>
    requires idx < |q|
  {
    var rest := Without(q, idx);
    if after.Some? && IndexOf(rest, after.value) < 0 then None
    else Some(InsertAt(rest, Landing(rest, after, current), q[idx]))
  }

  function BatchAfterCurrent(q: seq<Item>, batch: seq<Item>, current: Option<ItemId>): seq<Item> {
    WithCurrent(CurrentOf(q, current), batch + Waiting(q, current))
  }

  // The one that takes over from the item that was at idx before it left.
  function Following(q: seq<Item>, idx: int): Option<Item> {
    if 0 <= idx < |q| then Some(q[idx])
    else if |q| > 0 then Some(q[0])
    else None
  }

  // The order in which the items of q follow one that left position idx.
  function Rotation(q: seq<Item>, idx: int): seq<Item> {
    if 0 <= idx <= |q| then q[idx..] + q[..idx] else q
  }

  lemma FollowingLeadsRotation(q: seq<Item>, idx: int)
    ensures Following(q, idx).None? <==> q == []
    ensures q != [] ==> Rotation(q, idx) != [] && Following(q, idx) == Some(Rotation(q, idx)[0])
    ensures |Rotation(q, idx)| == |q|
    ensures forall it :: it in Rotation(q, idx) <==> it in q
  {
    if 0 <= idx <= |q| {
      assert q == q[..idx] + q[idx..];
    }
  }

  lemma DistinctIndex(q: seq<Item>, i: nat)
    requires Distinct(q) && i < |q|
    ensures IndexOf(q, q[i].id) == i
  {
  }

  lemma RotationInside(q: seq<Item>, idx: nat)
    requires idx < |q|
    ensures Rotation(Without(q, idx), idx) == Rotation(q, idx)[1..]
  {
    assert Without(q, idx)[idx..] == q[idx + 1..];
    assert Without(q, idx)[..idx] == q[..idx];
  }

  lemma RotationOutside(q: seq<Item>, idx: int)
    requires q != [] && !(0 <= idx < |q|)
    ensures Rotation(Without(q, 0), idx) == Rotation(q, idx)[1..]
  {
    assert Without(q, 0) == q[1..];
    assert Rotation(q, idx) == q;
  }

  // When the first of the rotation leaves too, the rest follow as before.
  lemma RotationAdvances(q: seq<Item>, idx: int)
    requires Distinct(q) && q != [] && idx >= -1
    ensures var i := IndexOf(q, Following(q, idx).value.id);
      i >= 0 && Rotation(Without(q, i), idx) == Rotation(q, idx)[1..]
  {
    if 0 <= idx < |q| {
      DistinctIndex(q, idx);
      RotationInside(q, idx);
    } else {
      DistinctIndex(q, 0);
      RotationOutside(q, idx);
    }
  }

  // ---------------------------------------------------------------------
  // What a placement means
  // ---------------------------------------------------------------------

  lemma WithoutPermutes(q: seq<Item>, i: nat)
    requires i < |q|
    ensures multiset(Without(q, i)) + multiset{q[i]} == multiset(q)
    ensures Distinct(q) ==> Distinct(Without(q, i)) && forall it :: it in Without(q, i) <==> it in q && it.id != q[i].id
  {
    assert q == q[..i] + [q[i]] + q[i + 1..];
  }

  lemma InsertAtPermutes(q: seq<Item>, idx: nat, at: nat)
    requires Distinct(q) && idx < |q| && at <= |q| - 1
    ensures multiset(InsertAt(Without(q, idx), at, q[idx])) == multiset(q)
  {
    var rest := Without(q, idx);
    WithoutPermutes(q, idx);
    assert rest == rest[..at] + rest[at..];
  }

  lemma InsertAtInserts(q: seq<Item>, idx: nat, at: nat)
    requires Distinct(q) && idx < |q| && at <= |q| - 1
    ensures var r := InsertAt(Without(q, idx), at, q[idx]);
      && multiset(r) == multiset(q) && Distinct(r)
      && IndexOf(r, q[idx].id) == at && |r| == |q|
      && r[at] == q[idx] && Without(r, at) == Without(q, idx)
  {
    var r := InsertAt(Without(q, idx), at, q[idx]);
    assert multiset(r) == multiset(q) && Distinct(r) by {
      InsertAtPermutes(q, idx, at);
      PermutationDistinct(q, r);
    }
    DistinctIndex(r, at);
  }

  lemma AnchorIsKnown(q: seq<Item>, idx: nat, anchor: ItemId)
    requires Distinct(q) && idx < |q|
    ensures IndexOf(Without(q, idx), anchor) < 0 <==> anchor == q[idx].id || forall it :: it in q ==> it.id != anchor
  {
    var rest := Without(q, idx);
    WithoutPermutes(q, idx);
    var a := IndexOf(rest, anchor);
    if a >= 0 {
      assert rest[a] in rest;
    } else {
      forall it | it in q && it.id != q[idx].id ensures it.id != anchor {
        assert it in rest;
        var j :| 0 <= j < |rest| && rest[j] == it;
      }
    }
  }

  // The item lands right after its anchor, or at the head behind a leading
  // current item; nothing else moves relative to each other; and a leading
  // current item keeps leading.
  lemma PlaceAfterPlaces(q: seq<Item>, idx: nat, after: Option<ItemId>, current: Option<ItemId>)
    requires Distinct(q) && idx < |q| && current != Some(q[idx].id)
    ensures PlaceAfter(q, idx, after, current).None? <==>
      after.Some? && (after.value == q[idx].id || forall it :: it in q ==> it.id != after.value)
    ensures PlaceAfter(q, idx, after, current).Some? ==>
      var r := PlaceAfter(q, idx, after, current).value;
      var i := IndexOf(r, q[idx].id);
      && multiset(r) == multiset(q) && Distinct(r)
      && i >= 0 && r[i] == q[idx] && Without(r, i) == Without(q, idx)
      && (after.Some? ==> i > 0 && r[i - 1].id == after.value)
      && (after.None? ==> i == 0 || (i == 1 && current == Some(r[0].id)))
      && (current == Some(q[0].id) ==> r[0] == q[0])
  {
    var rest := Without(q, idx);
    if after.Some? {
      AnchorIsKnown(q, idx, after.value);
    }
    if after.None? || IndexOf(rest, after.value) >= 0 {
      InsertAtInserts(q, idx, Landing(rest, after, current));
    }
  }
}
