// keepLease: the renewals of one attempt and the watchdog that cancels its
// handler when they stop succeeding. All times are nanoseconds of one clock
// shared by the worker and the database rows.
module Watchdog {
  import opened Base
  import J = Jobs

  // One renewal: when it was sent, when its answer (or its timeout) came
  // back, and what the answer was. A renewal that failed may still have
  // reached the row.
  datatype Answer = Renewed | Revoked | Error(landed: bool)
  datatype Renewal = Renewal(sent: int, back: int, answer: Answer)

  const RENEW_TIMEOUT := 5_000_000_000

  function Patience(length: int): int {
    if RENEW_TIMEOUT < length / 5 then RENEW_TIMEOUT else length / 5
  }

  function Safety(length: int): int { length * 3 / 5 }

  predicate Reached(a: Answer) { a.Renewed? || (a.Error? && a.landed) }

  // The stored lock time, when the handler is cancelled unless a renewal
  // succeeds first, and whether the loop is over.
  datatype Watch = Watch(lockedAt: int, deadline: int, over: bool)

  // A renewal still under way when the watchdog fires is cut short; its
  // write may have reached the row all the same.
  function Apply(k: Watch, r: Renewal, length: int): Watch {
    if k.over then k
    else if k.deadline <= r.back then
      Watch(if Reached(r.answer) && r.sent < k.deadline then r.sent else k.lockedAt, k.deadline, true)
    else
      match r.answer
      case Renewed => Watch(r.sent, r.back + Safety(length), false)
      case Revoked => Watch(k.lockedAt, r.back, true)
      case Error(landed) => if landed then k.(lockedAt := r.sent) else k
  }

  function Watched(claimed: int, answered: int, rs: seq<Renewal>, length: int): Watch {
    if rs == [] then Watch(claimed, answered + Safety(length), false)
    else Apply(Watched(claimed, answered, rs[..|rs| - 1], length), rs[|rs| - 1], length)
  }

  // Renewals are sent one after the other, the first once the claim is
  // answered, and given up after the patience.
  predicate Spaced(answered: int, rs: seq<Renewal>, length: int) {
    && length > 0
    && (forall i :: 0 <= i < |rs| ==> answered <= rs[i].sent <= rs[i].back <= rs[i].sent + Patience(length))
    && (forall i, j :: 0 <= i < j < |rs| ==> rs[i].back <= rs[j].sent)
  }

  // And the claim's answer took at most a fifth of the lease.
  predicate WellTimed(claimed: int, answered: int, rs: seq<Renewal>, length: int) {
    Spaced(answered, rs, length) && claimed <= answered <= claimed + length / 5
  }

  // The loop of keepLease over any pattern of renewals.
  method KeepLease(length: int, claimed: int, answered: int, renewals: seq<Renewal>) returns (lockedAt: int, cancelledAt: int)
    requires WellTimed(claimed, answered, renewals, length)
    ensures lockedAt == Watched(claimed, answered, renewals, length).lockedAt
    ensures cancelledAt == Watched(claimed, answered, renewals, length).deadline
    ensures 5 * (cancelledAt - lockedAt) <= 4 * length
  {
    var safety := length * 3 / 5;
    lockedAt := claimed;
    var watchdog := answered + safety;
    var over := false;
    var i := 0;
    while i < |renewals| && !over
      invariant 0 <= i <= |renewals|
      invariant Watch(lockedAt, watchdog, over) == Watched(claimed, answered, renewals[..i], length)
    {
      var r := renewals[i];
      assert renewals[..i + 1][..i] == renewals[..i];
      if watchdog <= r.back {
        if (r.answer.Renewed? || (r.answer.Error? && r.answer.landed)) && r.sent < watchdog {
          lockedAt := r.sent;
        }
        over := true;
      } else {
        match r.answer {
          case Renewed =>
            lockedAt := r.sent;
            watchdog := r.back + safety;
          case Revoked =>
            watchdog := r.back;
            over := true;
          case Error(landed) =>
            if landed {
              lockedAt := r.sent;
            }
        }
      }
      i := i + 1;
    }
    cancelledAt := watchdog;
    OverStays(claimed, answered, renewals, length, i);
    WithinFourFifths(claimed, answered, renewals, length);
  }

  lemma {:induction false} OverStays(claimed: int, answered: int, rs: seq<Renewal>, length: int, i: nat)
    requires i <= |rs|
    requires i == |rs| || Watched(claimed, answered, rs[..i], length).over
    ensures Watched(claimed, answered, rs, length) == Watched(claimed, answered, rs[..i], length)
    decreases |rs|
  {
    if i == |rs| {
      assert rs[..i] == rs;
    } else {
      var front := rs[..|rs| - 1];
      assert front[..i] == rs[..i];
      OverStays(claimed, answered, front, length, i);
    }
  }

  // Whatever the renewals do, the handler is cancelled no later than four
  // fifths of a lease after the lock time stored in the row.
  lemma {:induction false} WithinFourFifths(claimed: int, answered: int, rs: seq<Renewal>, length: int)
    requires WellTimed(claimed, answered, rs, length)
    ensures var k := Watched(claimed, answered, rs, length);
      && k.deadline <= k.lockedAt + length / 5 + Safety(length)
      && 5 * (k.deadline - k.lockedAt) <= 4 * length
      && claimed <= k.lockedAt
      && k.lockedAt <= if rs == [] then answered else rs[|rs| - 1].back
    decreases |rs|
  {
    if rs != [] {
      WithinFourFifths(claimed, answered, rs[..|rs| - 1], length);
      var k := Watched(claimed, answered, rs[..|rs| - 1], length);
      assert k.lockedAt <= rs[|rs| - 1].sent;
    }
  }

  // While the handler runs, RecoverStale leaves its job alone. answers: the
  // renewals answered by now; stored: the lock time in the row, which a
  // renewal still under way may already have moved on.
  lemma NeverRecoveredWhileRunning(claimed: int, answered: int, answers: seq<Renewal>, length: int, now: int, row: J.Row)
    requires WellTimed(claimed, answered, answers, length)
    requires row.status == J.Running && row.lockedAt.Some?
    requires row.lockedAt.value >= Watched(claimed, answered, answers, length).lockedAt
    requires now <= Watched(claimed, answered, answers, length).deadline
    ensures !J.Stale(row, now, length)
    ensures 5 * (now - row.lockedAt.value) <= 4 * length
    ensures J.Recover(row, now, length) == row
  {
    WithinFourFifths(claimed, answered, answers, length);
  }

  // Without that bound the distance between the deadline and the stored lock
  // time is the claim's own, or what one renewal can make it.
  lemma {:induction false} AtMostTheClaims(claimed: int, answered: int, rs: seq<Renewal>, length: int)
    requires Spaced(answered, rs, length) && claimed <= answered
    ensures var k := Watched(claimed, answered, rs, length);
      && (k.deadline - k.lockedAt <= answered + Safety(length) - claimed || 5 * (k.deadline - k.lockedAt) <= 4 * length)
      && k.lockedAt <= if rs == [] then answered else rs[|rs| - 1].back
    decreases |rs|
  {
    if rs != [] {
      AtMostTheClaims(claimed, answered, rs[..|rs| - 1], length);
    }
  }

  // The handler still runs, and RecoverStale would take its job.
  predicate Overtaken(k: Watch, now: int, length: int) { now < k.deadline && k.lockedAt < now - length }

  // At no time before its deadline is the handler overtaken, whatever the
  // renewals do.
  ghost predicate NeverStale(claimed: int, answered: int, length: int) {
    forall rs, now :: Spaced(answered, rs, length) ==> !Overtaken(Watched(claimed, answered, rs, length), now, length)
  }

  // How late a claim's answer may be: exactly two fifths of a lease and a
  // nanosecond, as far as the truncated safety time leaves room for it.
  lemma ClaimMayTake(claimed: int, answered: int, length: int)
    requires length > 0 && claimed <= answered
    ensures NeverStale(claimed, answered, length) <==> answered + Safety(length) <= claimed + length + 1
  {
    if answered + Safety(length) > claimed + length + 1 {
      assert Spaced(answered, [], length);
      assert Overtaken(Watched(claimed, answered, [], length), claimed + length + 1, length);
    } else {
      forall rs, now | Spaced(answered, rs, length)
        ensures !Overtaken(Watched(claimed, answered, rs, length), now, length)
      {
        AtMostTheClaims(claimed, answered, rs, length);
      }
    }
  }

  // Past it, a handler that nothing renews still runs while RecoverStale may
  // take its job.
  lemma LateClaimLosesTheMargin(claimed: int, answered: int, length: int, row: J.Row) returns (now: int)
    requires length > 0 && answered + Safety(length) > claimed + length + 1
    requires row.status == J.Running && row.lockedAt == Some(claimed)
    ensures now < Watched(claimed, answered, [], length).deadline && J.Stale(row, now, length)
  {
    now := claimed + length + 1;
  }
}
