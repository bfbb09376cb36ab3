// The room's playback clock as a value. Times are integer milliseconds;
// speeds are integer quarters, since every allowed speed is a multiple of
// 1/4 and the products and quotients are then exact before truncation.
module Clock {
  import opened Base

  const NORMAL_RATE := 4
  const ALLOWED_RATES := {2, 3, 4, 5, 6, 8}
  const ADVANCE_MARGIN := 500

  type Rate = r: int | r > 0 witness NORMAL_RATE

  datatype Clock = Clock(
    current: Option<ItemId>,
    playing: bool,
    positionMs: int,
    positionAt: int,
    rate: Rate,
    version: nat)   // bumped on every change, so stale timers can tell

  // The columns of the rooms row that hold the clock.
  datatype Playback = Playback(current: Option<ItemId>, playing: bool, positionMs: int, positionAt: int, rate: int)

  // Conversion to an integer truncates toward zero.
  function Truncate(n: int, d: int): int
    requires d > 0
  {
    if n >= 0 then n / d else -((-n) / d)
  }

  function Position(c: Clock, t: int, duration: int): int {
    if !c.playing then c.positionMs
    else
      var pos := c.positionMs + Truncate((t - c.positionAt) * c.rate, 4);
      if duration > 0 && pos > duration then duration else pos
  }

  function Restart(c: Clock, playing: bool, positionMs: int, now: int): Clock {
    c.(playing := playing, positionMs := positionMs, positionAt := now, version := c.version + 1)
  }

  // The wall time until the media ends at the current speed.
  function Remaining(c: Clock, now: int, duration: int): int {
    var left := Truncate((duration - Position(c, now, duration)) * 4, c.rate);
    if left < 0 then 0 else left
  }

  function Saved(c: Clock): Playback {
    Playback(c.current, c.playing, c.positionMs, c.positionAt, c.rate)
  }

  function Restored(p: Playback): Clock {
    Clock(p.current, p.playing, p.positionMs, p.positionAt, if p.rate <= 0 then NORMAL_RATE else p.rate, 0)
  }

  function StartFrom(positionMs: int, duration: int): int {
    if duration > 0 && positionMs >= duration then 0 else positionMs
  }

  function ClampSeek(positionMs: int, duration: int): (r: int)
    ensures r >= 0 && (duration > 0 ==> r <= duration)
    ensures positionMs >= 0 && (duration > 0 ==> positionMs <= duration) ==> r == positionMs
  {
    var p := if positionMs < 0 then 0 else positionMs;
    if duration > 0 && p > duration then duration else p
  }

  // ---------------------------------------------------------------------
  // The end of an item
  // ---------------------------------------------------------------------

  // A timer armed at any time for what remains, plus the margin, finds the
  // clock at the end whenever it fires, although the remaining time and the
  // position are both truncated.
  lemma FiresAtTheEnd(c: Clock, armedAt: int, t: int, duration: int)
    requires c.playing && c.rate in ALLOWED_RATES && duration > 0
    requires c.positionAt <= armedAt
    requires t >= armedAt + Remaining(c, armedAt, duration) + ADVANCE_MARGIN
    ensures Position(c, t, duration) == duration
  {
    var r := c.rate;
    var a := (armedAt - c.positionAt) * r;
    var pos := Position(c, armedAt, duration);
    var left := Remaining(c, armedAt, duration);
    Reaches(r, duration - pos, left);
    assert (t - c.positionAt) * r >= a + (left + ADVANCE_MARGIN) * r by {
      assert (t - armedAt) * r >= (left + ADVANCE_MARGIN) * r;
      assert (t - c.positionAt) * r == a + (t - armedAt) * r;
    }
    assert a >= 0;
  }

  // What remains, truncated to milliseconds, plus the margin covers the
  // distance at every allowed speed, with a millisecond to spare.
  lemma Reaches(rate: int, distance: int, left: int)
    requires rate in ALLOWED_RATES
    requires left == if Truncate(distance * 4, rate) < 0 then 0 else Truncate(distance * 4, rate)
    ensures (left + ADVANCE_MARGIN) * rate >= 4 * distance + 4
  {
  }

  // Without the margin the truncations do stop short: at speed 3/4 a timer
  // armed for a two-millisecond rest fires one millisecond before the end.
  lemma MarginIsNeeded() returns (c: Clock, duration: int)
    ensures c.playing && c.rate in ALLOWED_RATES && duration > 0
    ensures Position(c, c.positionAt + Remaining(c, c.positionAt, duration), duration) < duration
  {
    c, duration := Clock(Some(0), true, 0, 0, 3, 0), 2;
  }

  // ---------------------------------------------------------------------
  // Drift
  // ---------------------------------------------------------------------

  // Playing time in quarter milliseconds, held at the end of the media.
  function Held(ideal: int, duration: int): int {
    if duration > 0 && ideal > 4 * duration then 4 * duration else ideal
  }

  // ideal: the true integral of speed over playing time up to t. The clock
  // lost at most three quarters of a millisecond in each of its k folds.
  predicate Tracks(c: Clock, t: int, ideal: int, k: nat, duration: int) {
    && c.positionAt <= t && c.positionMs >= 0
    && var base := Held(if c.playing then ideal - (t - c.positionAt) * c.rate else ideal, duration);
       4 * c.positionMs <= base <= 4 * c.positionMs + 3 * k
  }

  // Never ahead, and behind by less than a millisecond per fold plus one.
  lemma TracksBounds(c: Clock, t: int, ideal: int, k: nat, duration: int)
    requires Tracks(c, t, ideal, k, duration)
    ensures 4 * Position(c, t, duration) <= Held(ideal, duration)
    ensures Held(ideal, duration) - 4 * Position(c, t, duration) <= 3 * k + 3
    ensures Position(c, t, duration) >= 0
  {
    if c.playing {
      assert (t - c.positionAt) * c.rate >= 0;
    }
  }

  // Folding the elapsed time in (a pause, a resume, a change of speed) costs
  // one more truncation.
  lemma FoldTracks(c: Clock, d: Clock, t: int, ideal: int, k: nat, duration: int)
    requires Tracks(c, t, ideal, k, duration)
    requires d.positionAt == t && d.positionMs == Position(c, t, duration)
    ensures Tracks(d, t, ideal, k + 1, duration)
  {
    TracksBounds(c, t, ideal, k, duration);
  }

  // Time passing adds speed times time while playing, and nothing else.
  lemma TimeTracks(c: Clock, t: int, u: int, ideal: int, k: nat, duration: int)
    requires Tracks(c, t, ideal, k, duration) && t <= u
    ensures Tracks(c, u, ideal + if c.playing then (u - t) * c.rate else 0, k, duration)
  {
    assert (u - c.positionAt) * c.rate == (u - t) * c.rate + (t - c.positionAt) * c.rate;
  }

  // ---------------------------------------------------------------------
  // Saving and restoring
  // ---------------------------------------------------------------------

  // Only the counter that clients compare starts over.
  lemma RestoredIsSaved(c: Clock, t: int, duration: int)
    ensures Restored(Saved(c)) == c.(version := 0)
    ensures Position(Restored(Saved(c)), t, duration) == Position(c, t, duration)
  {
  }
}
