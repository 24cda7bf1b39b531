/** The per-tick rule of the playback clock (updateTime) and what repeated
    ticks do to the playhead. */
module Clock {

  datatype ClockState = ClockState(time: real, playing: bool)

  /** One tick of `amount` ms against the limit `constraint`: a playhead already
      at or past the limit is put on it and playback stops; otherwise it moves
      by exactly `amount`, even past the limit. */
  function Step(s: ClockState, amount: real, constraint: real): ClockState
  {
    if s.time >= constraint then ClockState(constraint, false)
    else ClockState(s.time + amount, s.playing)
  }

  /** At most `n` ticks while playing; the interval timer is torn down once
      playback stops. */
  function Run(s: ClockState, amount: real, constraint: real, n: nat): ClockState
    decreases n
  {
    if n == 0 || !s.playing then s
    else Run(Step(s, amount, constraint), amount, constraint, n - 1)
  }

  /** While every tick starts before the limit, `k` ticks move the playhead by
      exactly `k * amount` and playback continues. */
  lemma {:induction false} RunAdvances(t: real, amount: real, constraint: real, k: nat)
    requires k > 0 ==> t + (k - 1) as real * amount < constraint
    requires 0.0 <= amount
    ensures Run(ClockState(t, true), amount, constraint, k) == ClockState(t + k as real * amount, true)
    decreases k
  {
    if k > 0 {
      assert t < constraint by {
        assert 0.0 <= (k - 1) as real * amount;
      }
      assert Step(ClockState(t, true), amount, constraint) == ClockState(t + amount, true);
      RunAdvances(t + amount, amount, constraint, k - 1);
    }
  }

  /** Playing with a positive step always ends: once `(n - 1) * amount` covers the
      distance to the limit, `n` ticks leave the playhead exactly on the limit,
      stopped. */
  lemma {:induction false} RunStopsAtEnd(t: real, amount: real, constraint: real, n: nat)
    requires 0.0 < amount
    requires n >= 1 && (n - 1) as real * amount >= constraint - t
    ensures Run(ClockState(t, true), amount, constraint, n) == ClockState(constraint, false)
    decreases n
  {
    if t >= constraint {
      assert Step(ClockState(t, true), amount, constraint) == ClockState(constraint, false);
    } else {
      assert (n - 1) as real * amount > 0.0;
      assert n >= 2;
      assert (n - 2) as real * amount == (n - 1) as real * amount - amount;
      RunStopsAtEnd(t + amount, amount, constraint, n - 1);
    }
  }

  /** A step that crosses the limit is not clamped: for one tick the playhead
      sits past the end, still playing, and only the following tick pulls it
      back and stops. */
  lemma OvershootThenStop(t: real, amount: real, constraint: real)
    requires t < constraint < t + amount
    ensures Step(ClockState(t, true), amount, constraint).time > constraint
    ensures Step(ClockState(t, true), amount, constraint).playing
    ensures Run(ClockState(t, true), amount, constraint, 2) == ClockState(constraint, false)
  {
    assert Run(ClockState(t + amount, true), amount, constraint, 1) == ClockState(constraint, false);
  }
}
