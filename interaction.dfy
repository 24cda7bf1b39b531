/** The clamping and mapping arithmetic of the four drag gestures: playhead
    scrub, clip move, trim-start and trim-end. Pixel geometry (pointer x, the
    left edge and width of the elements involved) comes in as arguments; the
    mouse and touch variants of each gesture compute the same thing from
    `clientX` and `touches[0].clientX`. */
module Interaction {
  import opened Tracks
  import opened Audio

  /** Lock a dragged left edge inside the slider: raise it to 0, then lower it
      to the right edge. */
  function ClampLeft(raw: real, rightEdge: real): (x: real)
    ensures 0.0 <= rightEdge ==> 0.0 <= x <= rightEdge
    ensures 0.0 <= raw <= rightEdge ==> x == raw
    ensures raw < 0.0 && 0.0 <= rightEdge ==> x == 0.0
    ensures rightEdge < raw ==> x == rightEdge
    ensures rightEdge < 0.0 ==> x == rightEdge
  {
    var left := if raw < 0.0 then 0.0 else raw;
    if left > rightEdge then rightEdge else left
  }

  /** The time a dragged thumb stands for: its left edge, kept inside
      `[0, width - thumbWidth]`, as a fraction of the container width, times the
      `span` the container shows. The playhead scrub and the clip move both
      use it with the timeline duration as the span. */
  function DragTime(raw: real, width: real, thumbWidth: real, span: real): real
    requires 0.0 < width
  {
    ClampLeft(raw, width - thumbWidth) / width * span
  }

  lemma FractionBounds(x: real, width: real, span: real)
    requires 0.0 < width && 0.0 <= x <= width && 0.0 <= span
    ensures 0.0 <= x / width * span <= span
    ensures x < width && 0.0 < span ==> x / width * span < span
  {
    var q := x / width;
    assert 0.0 <= q <= 1.0;
    assert q * span <= 1.0 * span by {
      assert (1.0 - q) * span >= 0.0;
    }
    if x < width && 0.0 < span {
      assert q < 1.0;
      assert (1.0 - q) * span > 0.0;
    }
  }

  /** A drag never leaves the span: the result lies in `[0, span]`, and strictly
      below `span` when the thumb has a width; inside the slider the pixel offset
      maps linearly onto the span. */
  lemma DragTimeRange(raw: real, width: real, thumbWidth: real, span: real)
    requires 0.0 < width && 0.0 <= thumbWidth <= width && 0.0 <= span
    ensures 0.0 <= DragTime(raw, width, thumbWidth, span) <= span
    ensures 0.0 < thumbWidth && 0.0 < span ==> DragTime(raw, width, thumbWidth, span) < span
    ensures 0.0 <= raw <= width - thumbWidth ==> DragTime(raw, width, thumbWidth, span) == raw / width * span
  {
    FractionBounds(ClampLeft(raw, width - thumbWidth), width, span);
  }

  lemma ScaleMonotone(x: real, y: real, width: real, span: real)
    requires 0.0 < width && x <= y && 0.0 <= span
    ensures x / width * span <= y / width * span
  {
    assert x / width <= y / width;
    assert (y / width - x / width) * span >= 0.0;
  }

  /** Dragging further right never gives an earlier time. */
  lemma DragTimeMonotone(raw1: real, raw2: real, width: real, thumbWidth: real, span: real)
    requires 0.0 < width && raw1 <= raw2 && 0.0 <= span
    ensures DragTime(raw1, width, thumbWidth, span) <= DragTime(raw2, width, thumbWidth, span)
  {
    ScaleMonotone(ClampLeft(raw1, width - thumbWidth), ClampLeft(raw2, width - thumbWidth), width, span);
  }

  /** A clip 200 px wide in a 1000 px container: dragged to -50 px it starts at 0,
      dragged to 900 px it starts where 800 px maps to. */
  lemma ClipMoveExample(span: real)
    ensures DragTime(-50.0, 1000.0, 200.0, span) == 0.0
    ensures DragTime(900.0, 1000.0, 200.0, span) == 800.0 / 1000.0 * span
  {
  }

  /** Trim-start: the handle's offset inside the clip, raised to 0, mapped onto
      the clip's media and capped at the end point (no cap at the clip's width). */
  function TrimStartPoint(raw: real, width: real, duration: real, endPoint: real): (sp: real)
    requires 0.0 < width
    ensures sp <= endPoint
    ensures 0.0 <= duration && 0.0 <= endPoint ==> 0.0 <= sp
    ensures 0.0 <= raw && raw / width * duration <= endPoint ==> sp == raw / width * duration
    ensures 0.0 <= raw && raw / width * duration > endPoint ==> sp == endPoint
    ensures raw < 0.0 && 0.0 <= endPoint ==> sp == 0.0
  {
    var left := if raw < 0.0 then 0.0 else raw;
    var candidate := left / width * duration;
    if candidate > endPoint then endPoint else candidate
  }

  /** Trim-end: the handle's offset, kept inside `[0, width]`, mapped onto the
      clip's media; a candidate before the start point is dropped and the end
      point stays where it was. */
  function TrimEndPoint(raw: real, width: real, duration: real, startPoint: real, endPoint: real): (ep: real)
    requires 0.0 < width
    ensures ep == endPoint || startPoint <= ep
    ensures ep == endPoint || (0.0 <= duration ==> 0.0 <= ep <= duration)
    ensures ClampLeft(raw, width) / width * duration < startPoint ==> ep == endPoint
    ensures startPoint <= ClampLeft(raw, width) / width * duration ==> ep == ClampLeft(raw, width) / width * duration
    ensures width < raw && startPoint <= duration ==> ep == duration
  {
    var candidate := ClampLeft(raw, width) / width * duration;
    TrimEndCandidate(raw, width, duration);
    if candidate < startPoint then endPoint else candidate
  }

  /** The end handle's candidate lies in `[0, duration]` and is `duration`
      once the pointer is past the clip's right edge. */
  lemma TrimEndCandidate(raw: real, width: real, duration: real)
    requires 0.0 < width
    ensures 0.0 <= duration ==> 0.0 <= ClampLeft(raw, width) / width * duration <= duration
    ensures width < raw ==> ClampLeft(raw, width) / width * duration == duration
  {
    if 0.0 <= duration {
      FractionBounds(ClampLeft(raw, width), width, duration);
    }
    if width < raw {
      assert width / width == 1.0;
    }
  }

  /** Both trim handles keep `0 <= startPoint <= endPoint <= duration`. */
  lemma TrimsKeepWellTrimmed(t: Track, raw: real, width: real)
    requires 0.0 < width && WellTrimmed(t)
    ensures WellTrimmed(t.(startPoint := TrimStartPoint(raw, width, t.duration, t.endPoint)))
    ensures WellTrimmed(t.(endPoint := TrimEndPoint(raw, width, t.duration, t.startPoint, t.endPoint)))
  {
  }

  /** The two handles treat an overshoot differently: dragging the start handle
      past the end pins it on the end point, while dragging the end handle
      before the start point leaves the end point where it was. */
  lemma TrimAsymmetry(width: real, duration: real, startPoint: real, endPoint: real)
    requires 0.0 < width && 0.0 < startPoint <= endPoint < duration
    ensures TrimStartPoint(width, width, duration, endPoint) == endPoint
    ensures TrimEndPoint(-1.0, width, duration, startPoint, endPoint) == endPoint
  {
    assert width / width == 1.0;
    assert width / width * duration == duration;
  }

  /** The element of a clip being moved: if the clip, taken at its full
      duration from its new start, covers the playhead, its position follows
      the playhead; otherwise it is paused and rewound to 0. */
  function MovedClipAudio(a: AudioElement, t: Track, time: real): AudioElement
  {
    if t.startTime <= time <= t.startTime + t.duration then a.(offset := (time - t.startTime) / 1000.0)
    else a.(offset := 0.0, paused := true)
  }

  /** While the clip is audible, moving it sets its element to the offset the
      scheduler computes, and leaves it playing or paused as it was. Unlike the
      scheduler, the move also seeks an element that is playing. */
  lemma MovedClipAgreesWhenAudible(a: AudioElement, t: Track, time: real)
    requires WellTrimmed(t) && Audible(t, time)
    ensures MovedClipAudio(a, t, time) == a.(offset := AlignedOffset(t, time))
  {
  }

  /** Elsewhere the drag and the scheduler disagree: a clip trimmed at the end
      is kept aligned past its audible window, and an inaudible clip is parked
      at 0 rather than at its start point. */
  lemma MovedClipDiffersWhenInaudible(a: AudioElement)
    ensures var t := Track("c", "t", 0.0, 10000.0, 10000.0, "s", 2000.0, 5000.0);
      && !Audible(t, 7000.0) && MovedClipAudio(a, t, 7000.0).paused == a.paused
      && MovedClipAudio(a, t, 7000.0).offset == 7.0
      && !Audible(t, 1000.0) && MovedClipAudio(a, t, 1000.0).offset == 1.0
      && MovedClipAudio(a, t, 12000.0).offset == 0.0
      && Scheduled(a, t, 12000.0, false).offset == 2.0
  {
  }
}
