/** The track registry: clip records, the add-track defaults, the growth of the
    timeline duration, filtered removal and the duration-menu predicates. */
module Tracks {

  datatype Option<T> = None | Some(value: T)

  /** A JavaScript default parameter: the given value, or the default when absent. */
  function OrElse<T>(o: Option<T>, default: T): T
  {
    match o
    case Some(v) => v
    case None => default
  }

  /** What an add-track request supplies; the three placement fields are optional. */
  datatype MinimalTrack = MinimalTrack(
    color: string,
    title: string,
    duration: real,
    source: string,
    startTime: Option<real>,
    startPoint: Option<real>,
    endPoint: Option<real>)

  /** A placed clip. Times are milliseconds: `startTime` on the timeline,
      `startPoint`/`endPoint` inside the clip's own media. */
  datatype Track = Track(
    color: string,
    title: string,
    startTime: real,
    endTime: real,
    duration: real,
    source: string,
    startPoint: real,
    endPoint: real)

  /** The trim invariant the handles are meant to keep. */
  predicate WellTrimmed(t: Track)
  {
    0.0 <= t.startPoint <= t.endPoint <= t.duration
  }

  /** The instant the clip's audible region ends on the timeline. */
  function AudibleEnd(t: Track): real
  {
    t.startTime + t.endPoint
  }

  /** The full record addTrack builds from a request. */
  function Complete(m: MinimalTrack): Track
  {
    Track(m.color, m.title, OrElse(m.startTime, 0.0), m.duration, m.duration, m.source,
          OrElse(m.startPoint, 0.0), OrElse(m.endPoint, m.duration))
  }

  /** Each absent placement field takes its default on its own: start at 0,
      start point 0, end point the clip's duration. `endTime` is always the
      duration. A clip with neither trim point given is well trimmed and its
      audible end is its duration past its start. */
  lemma CompleteDefaults(m: MinimalTrack)
    ensures m.startTime.None? ==> Complete(m).startTime == 0.0
    ensures m.startPoint.None? ==> Complete(m).startPoint == 0.0
    ensures m.endPoint.None? ==> Complete(m).endPoint == m.duration
    ensures Complete(m).endTime == m.duration
    ensures m.startPoint.None? && m.endPoint.None? && 0.0 <= m.duration ==> WellTrimmed(Complete(m))
    ensures m.endPoint.None? ==> AudibleEnd(Complete(m)) == Complete(m).startTime + m.duration
  {
  }

  lemma CompleteKeepsRequest(m: MinimalTrack)
    ensures Complete(m).color == m.color && Complete(m).title == m.title
    ensures Complete(m).source == m.source && Complete(m).duration == m.duration
    ensures m.startTime.Some? ==> Complete(m).startTime == m.startTime.value
    ensures m.startPoint.Some? ==> Complete(m).startPoint == m.startPoint.value
    ensures m.endPoint.Some? ==> Complete(m).endPoint == m.endPoint.value
  {
  }

  /** `endTime` is the clip's own duration, not its end on the timeline: a clip
      placed later than the origin gets an `endTime` before its real end. */
  lemma EndTimeIgnoresPlacement(m: MinimalTrack)
    requires m.startTime.Some? && m.startTime.value > 0.0
    ensures Complete(m).endTime != Complete(m).startTime + Complete(m).duration
  {
  }

  /** Math.ceil on a real. */
  function Ceil(x: real): (c: int)
    ensures x <= c as real < x + 1.0
  {
    -((-x).Floor)
  }

  /** Where a clip starting at `startTime` and lasting `duration` ends on the timeline. */
  function ClipEnd(startTime: real, duration: real): real
  {
    startTime + duration
  }

  /** `b` is the first 30 s boundary at or past `end`. */
  predicate BoundaryPast(b: int, end: real)
  {
    b % 30000 == 0 && end <= b as real && ((b - 30000) as real) < end
  }

  /** Two 30 s boundaries less than 30 s apart are the same one. */
  lemma BoundaryUnique(b: int, c: int, end: real)
    requires BoundaryPast(b, end) && BoundaryPast(c, end)
    ensures b == c
  {
    assert b == 30000 * (b / 30000) && c == 30000 * (c / 30000);
  }

  /** Rounding the clip's end up with Math.ceil gives its first 30 s boundary,
      and no other value is one. */
  lemma CeilBoundary(end: real)
    ensures BoundaryPast(Ceil(end / 30000.0) * 30000, end)
    ensures forall b :: BoundaryPast(b, end) ==> b == Ceil(end / 30000.0) * 30000
  {
    var c := Ceil(end / 30000.0);
    assert end / 30000.0 <= c as real < end / 30000.0 + 1.0;
    assert end <= (c * 30000) as real;
    assert ((c * 30000 - 30000) as real) < end;
    forall b | BoundaryPast(b, end)
      ensures b == c * 30000
    {
      BoundaryUnique(b, c * 30000, end);
    }
  }

  /** A 30 s boundary at or past the clip's end is at least its first one. */
  lemma CeilBelowGrid(current: int, end: real)
    requires current % 30000 == 0 && end <= current as real
    ensures Ceil(end / 30000.0) * 30000 <= current
  {
    var q := current / 30000;
    assert current == 30000 * q;
    assert end / 30000.0 <= q as real;
  }

  /** The timeline duration after adding a clip that starts at `startTime` and
      lasts `duration`: the current one, or the first 30 s boundary at or past
      the clip's end when that is larger. */
  function GrownDuration(current: int, startTime: real, duration: real): (d: int)
    ensures current <= d
    ensures startTime + duration <= d as real
    ensures d != current ==> BoundaryPast(d, startTime + duration)
    ensures forall b :: BoundaryPast(b, ClipEnd(startTime, duration)) ==> b <= d
    ensures current % 30000 == 0 ==> (d == current <==> startTime + duration <= current as real)
  {
    var end := ClipEnd(startTime, duration);
    var boundary := Ceil(end / 30000.0) * 30000;
    CeilBoundary(end);
    if current >= boundary then current
    else
      assert current % 30000 == 0 ==> !(end <= current as real) by {
        if current % 30000 == 0 && end <= current as real { CeilBelowGrid(current, end); }
      }
      boundary
  }

  /** The growth is idempotent: once grown, the same clip does not grow it again. */
  lemma GrownDurationStable(current: int, startTime: real, duration: real)
    ensures GrownDuration(GrownDuration(current, startTime, duration), startTime, duration)
         == GrownDuration(current, startTime, duration)
  {
  }

  /** `tracks.filter((_, idx) => idx != index)`, walking the list with the
      index of its head being `base`. */
  function FilterIndex(s: seq<Track>, index: int, base: int): (r: seq<Track>)
    ensures base <= index < base + |s| ==> r == s[..index - base] + s[index - base + 1..]
    ensures !(base <= index < base + |s|) ==> r == s
    decreases |s|
  {
    if s == [] then []
    else
      var rest := FilterIndex(s[1..], index, base + 1);
      if base == index then rest else [s[0]] + rest
  }

  /** handleRemoveTrack's new list. */
  function RemoveAt(s: seq<Track>, index: int): seq<Track>
  {
    FilterIndex(s, index, 0)
  }

  /** Removal with a valid index drops exactly that clip and keeps every other
      one, unchanged and in order; any other index removes nothing. */
  lemma RemoveAtSpec(s: seq<Track>, index: int)
    ensures 0 <= index < |s| ==> |RemoveAt(s, index)| == |s| - 1
    ensures 0 <= index < |s| ==>
      forall k :: 0 <= k < |s| - 1 ==>
        RemoveAt(s, index)[k] == (if k < index then s[k] else s[k + 1])
    ensures !(0 <= index < |s|) ==> RemoveAt(s, index) == s
  {
    if 0 <= index < |s| {
      var r := RemoveAt(s, index);
      assert r == s[..index] + s[index + 1..];
      forall k | 0 <= k < |s| - 1
        ensures r[k] == (if k < index then s[k] else s[k + 1])
      {
        if k < index {
          assert r[k] == s[..index][k];
        } else {
          assert r[k] == s[index + 1..][k - index];
        }
      }
    }
  }

  /** `tracks.findIndex((tt) => tt.duration >= bound)`: the first clip at least
      as long as `bound`, or -1. */
  function FindLongIndex(s: seq<Track>, bound: real): (r: int)
    ensures -1 <= r < |s|
    ensures 0 <= r ==> s[r].duration >= bound
    ensures forall j :: 0 <= j < |s| && (r < 0 || j < r) ==> s[j].duration < bound
  {
    if s == [] then -1
    else if s[0].duration >= bound then 0
    else
      var k := FindLongIndex(s[1..], bound);
      if k < 0 then -1 else k + 1
  }

  /** The three durations the menu offers when the timeline is `d` long. */
  function Candidates(d: int): seq<int>
  {
    [30000, if d - 30000 >= 60000 then d - 30000 else 60000, d + 60000]
  }

  /** Every option the menu offers is a valid duration: positive for a
      non-negative timeline, at least a minute for the last two, and a
      multiple of 30 s whenever the current duration is one, so choosing from
      the menu keeps the timeline on the 30 s grid that growth uses. */
  lemma CandidatesValid(d: int)
    ensures |Candidates(d)| == 3 && Candidates(d)[0] == 30000
    ensures 0 <= d ==> forall k :: 0 <= k < 3 ==> 0 < Candidates(d)[k]
    ensures 0 <= d ==> forall k :: 1 <= k < 3 ==> 60000 <= Candidates(d)[k]
    ensures d % 30000 == 0 ==> forall k :: 0 <= k < 3 ==> Candidates(d)[k] % 30000 == 0
    ensures 0 < d ==> Candidates(d)[1] < Candidates(d)[2] && d < Candidates(d)[2]
  {
  }

  /** A menu option is disabled iff some clip's raw duration reaches it. */
  function Disabled(tracks: seq<Track>, candidate: int): (b: bool)
    ensures b <==> exists i :: 0 <= i < |tracks| && tracks[i].duration >= candidate as real
  {
    FindLongIndex(tracks, candidate as real) >= 0
  }

  /** The menu check compares raw duration, not the audible end: an enabled
      candidate can still cut off a clip placed late on the timeline. */
  lemma EnabledCandidateMayCutClip()
    ensures var t := Track("c", "t", 20000.0, 20000.0, 20000.0, "s", 0.0, 20000.0);
            !Disabled([t], 30000) && AudibleEnd(t) > 30000.0
  {
    var t := Track("c", "t", 20000.0, 20000.0, 20000.0, "s", 0.0, 20000.0);
    assert FindLongIndex([t], 30000.0) == -1;
  }
}
