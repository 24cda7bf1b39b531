/** The timeline component's state and its handlers: play/pause, speed, adding
    and removing clips, the duration menu, the clock tick, the drag gestures,
    and the effects that push the state into the clips' audio elements. */
module Timeline {
  import opened Tracks
  import opened Clock
  import opened Audio
  import opened Interaction

  /** Every clip keeps its trim handles in order inside its media. */
  predicate AllWellTrimmed(s: seq<Track>)
  {
    forall k :: 0 <= k < |s| ==> WellTrimmed(s[k])
  }

  class Session {
    /** Length of the timeline in ms; starts at 30 s. */
    var timeLineDuration: int
    /** The playhead, in ms. */
    var time: real
    var playing: bool
    /** Playback speed: 1 or 2. */
    var speed: real
    /** The clips on the timeline, in the order they were added. */
    var tracks: seq<Track>
    /** The clock's tick period in ms; the component never changes it. */
    const intervalDuration: real := 100.0

    predicate Valid()
      reads this
    {
      0 <= timeLineDuration && 0.0 <= time && (speed == 1.0 || speed == 2.0)
    }

    constructor()
      ensures Valid()
      ensures timeLineDuration == 30000 && time == 0.0 && !playing
      ensures speed == 1.0 && tracks == []
    {
      timeLineDuration := 30000;
      time := 0.0;
      playing := false;
      speed := 1.0;
      tracks := [];
    }

    /** handlePlayPause: toggle playback; a playhead parked on the end is first
        put back to the start. */
    method PlayPause()
      requires Valid()
      modifies this
      ensures Valid()
      ensures playing == !old(playing)
      ensures time == if old(time) == old(timeLineDuration) as real then 0.0 else old(time)
      ensures timeLineDuration == old(timeLineDuration) && speed == old(speed) && tracks == old(tracks)
    {
      if time == timeLineDuration as real {
        time := 0.0;
      }
      playing := !playing;
    }

    /** handleSpeed: switch between normal and double speed. */
    method ToggleSpeed()
      requires Valid()
      modifies this
      ensures Valid()
      ensures speed == if old(speed) == 1.0 then 2.0 else 1.0
      ensures speed != old(speed)
      ensures timeLineDuration == old(timeLineDuration) && time == old(time)
      ensures playing == old(playing) && tracks == old(tracks)
    {
      speed := if speed == 1.0 then 2.0 else 1.0;
    }

    /** changeTimelineDuration, followed by the effect that runs when the
        duration changes: playback stops and a playhead beyond the new end is
        pulled back onto it. */
    method ChangeTimelineDuration(value: int)
      requires Valid() && 0 <= value
      modifies this
      ensures Valid()
      ensures !playing && timeLineDuration == value
      ensures time == if value != old(timeLineDuration) && value as real < old(time) then value as real else old(time)
      ensures value != old(timeLineDuration) ==> time <= value as real
      ensures speed == old(speed) && tracks == old(tracks)
    {
      var changed := value != timeLineDuration;
      playing := false;
      timeLineDuration := value;
      if changed && value as real < time {
        time := value as real;
      }
    }

    /** Picking entry `choice` of the duration menu. Only enabled entries can be
        picked, so every clip is shorter than the new duration. The menu is a
        controlled select: re-picking the current value reports no change, so
        changeTimelineDuration runs only for a different value. */
    method SelectDuration(choice: int)
      requires Valid() && 0 <= choice < 3
      requires !Disabled(tracks, Candidates(timeLineDuration)[choice])
      modifies this
      ensures Valid()
      ensures timeLineDuration == Candidates(old(timeLineDuration))[choice]
      ensures playing == (old(playing) && timeLineDuration == old(timeLineDuration))
      ensures forall i :: 0 <= i < |tracks| ==> tracks[i].duration < timeLineDuration as real
      ensures old(timeLineDuration) % 30000 == 0 ==> timeLineDuration % 30000 == 0
      ensures time == if timeLineDuration != old(timeLineDuration) && (timeLineDuration as real) < old(time)
                      then timeLineDuration as real else old(time)
      ensures time <= timeLineDuration as real || time == old(time)
      ensures speed == old(speed) && tracks == old(tracks)
    {
      CandidatesValid(timeLineDuration);
      var value := Candidates(timeLineDuration)[choice];
      if value != timeLineDuration {
        ChangeTimelineDuration(value);
      }
    }

    /** addTrack: complete the request with its defaults, grow the timeline to
        the next 30 s boundary past the new clip when it does not fit, and
        append the clip. */
    method AddTrack(m: MinimalTrack)
      requires Valid()
      modifies this
      ensures Valid()
      ensures tracks == old(tracks) + [Complete(m)]
      ensures timeLineDuration == GrownDuration(old(timeLineDuration), OrElse(m.startTime, 0.0), m.duration)
      ensures Complete(m).startTime + Complete(m).duration <= timeLineDuration as real
      ensures old(timeLineDuration) <= timeLineDuration
      ensures timeLineDuration == old(timeLineDuration) ==> playing == old(playing) && time == old(time)
      ensures timeLineDuration != old(timeLineDuration) ==> !playing
      ensures timeLineDuration != old(timeLineDuration) ==>
        time == if timeLineDuration as real < old(time) then timeLineDuration as real else old(time)
      ensures speed == old(speed)
    {
      var newTrack := Complete(m);
      var newDuration := GrownDuration(timeLineDuration, OrElse(m.startTime, 0.0), m.duration);
      if timeLineDuration != newDuration {
        ChangeTimelineDuration(newDuration);
      }
      tracks := tracks + [newTrack];
    }

    /** handleRemoveTrack: keep every clip whose position is not `index`. */
    method RemoveTrack(index: int)
      requires Valid()
      modifies this
      ensures Valid()
      ensures tracks == RemoveAt(old(tracks), index)
      ensures AllWellTrimmed(old(tracks)) ==> AllWellTrimmed(tracks)
      ensures timeLineDuration == old(timeLineDuration) && time == old(time)
      ensures playing == old(playing) && speed == old(speed)
    {
      RemoveAtSpec(tracks, index);
      tracks := RemoveAt(tracks, index);
    }

    /** updateTime: one clock step against `constraint`. */
    method UpdateTime(amount: real, constraint: real)
      requires Valid() && 0.0 <= amount && 0.0 <= constraint
      modifies this
      ensures Valid()
      ensures ClockState(time, playing) == Step(ClockState(old(time), old(playing)), amount, constraint)
      ensures timeLineDuration == old(timeLineDuration) && speed == old(speed) && tracks == old(tracks)
    {
      if time >= constraint {
        playing := false;
        time := constraint;
      } else {
        time := time + amount;
      }
    }

    /** The interval callback installed while playing: a step of `speed` times
        the interval against the timeline duration. */
    method Tick()
      requires Valid()
      modifies this
      ensures Valid()
      ensures ClockState(time, playing)
           == Step(ClockState(old(time), old(playing)), old(speed) * intervalDuration, old(timeLineDuration) as real)
      ensures timeLineDuration == old(timeLineDuration) && speed == old(speed) && tracks == old(tracks)
    {
      UpdateTime(speed * intervalDuration, timeLineDuration as real);
    }

    /** Pressing any drag handle other than a clip stops playback. */
    method BeginDrag()
      requires Valid()
      modifies this
      ensures Valid()
      ensures !playing
      ensures timeLineDuration == old(timeLineDuration) && time == old(time)
      ensures speed == old(speed) && tracks == old(tracks)
    {
      playing := false;
    }

    /** Moving the playhead thumb: the pointer, less the grab offset and the
        timeline's left edge, clamped inside the timeline and scaled to the
        duration. The thumb's own width keeps the playhead short of the end. */
    method ScrubMove(clientX: real, shiftX: real, timelineLeft: real, timelineWidth: real, thumbWidth: real)
      requires Valid() && 0.0 < timelineWidth && 0.0 <= thumbWidth <= timelineWidth
      modifies this
      ensures Valid()
      ensures time == DragTime(clientX - shiftX - timelineLeft, timelineWidth, thumbWidth, timeLineDuration as real)
      ensures 0.0 <= time <= timeLineDuration as real
      ensures 0.0 < thumbWidth && 0 < timeLineDuration ==> time < timeLineDuration as real
      ensures timeLineDuration == old(timeLineDuration) && playing == old(playing)
      ensures speed == old(speed) && tracks == old(tracks)
    {
      DragTimeRange(clientX - shiftX - timelineLeft, timelineWidth, thumbWidth, timeLineDuration as real);
      time := DragTime(clientX - shiftX - timelineLeft, timelineWidth, thumbWidth, timeLineDuration as real);
    }

    /** Moving a clip: its start follows the pointer inside its lane, and its
        audio element is realigned with the playhead or parked at 0. The move
        listener sees the playhead as it was when the clip was pressed,
        `pressTime`; a clip move does not stop playback, so while playing the
        session's own `time` runs on past it. */
    method MoveClip(index: int, clientX: real, shiftX: real, laneLeft: real, laneWidth: real, clipWidth: real,
                    pressTime: real, audio: array<AudioElement>)
      requires Valid() && 0 <= index < |tracks| <= audio.Length && 0.0 < laneWidth
      modifies this, audio
      ensures Valid()
      ensures |tracks| == |old(tracks)|
      ensures tracks == old(tracks)[index := old(tracks)[index].(startTime :=
        DragTime(clientX - shiftX - laneLeft, laneWidth, clipWidth, old(timeLineDuration) as real))]
      ensures audio[..] == old(audio[..])[index := MovedClipAudio(old(audio[index]), tracks[index], pressTime)]
      ensures AllWellTrimmed(old(tracks)) ==> AllWellTrimmed(tracks)
      ensures timeLineDuration == old(timeLineDuration) && time == old(time)
      ensures playing == old(playing) && speed == old(speed)
    {
      var startTime := DragTime(clientX - shiftX - laneLeft, laneWidth, clipWidth, timeLineDuration as real);
      var moved := tracks[index].(startTime := startTime);
      tracks := tracks[index := moved];
      audio[index] := MovedClipAudio(audio[index], moved, pressTime);
    }

    /** Dragging a clip's start handle. */
    method TrimStartMove(index: int, clientX: real, shiftX: real, clipLeft: real, clipWidth: real)
      requires Valid() && 0 <= index < |tracks| && 0.0 < clipWidth
      modifies this
      ensures Valid()
      ensures tracks == old(tracks)[index := old(tracks)[index].(startPoint :=
        TrimStartPoint(clientX - shiftX - clipLeft, clipWidth, old(tracks)[index].duration, old(tracks)[index].endPoint))]
      ensures AllWellTrimmed(old(tracks)) ==> AllWellTrimmed(tracks)
      ensures timeLineDuration == old(timeLineDuration) && time == old(time)
      ensures playing == old(playing) && speed == old(speed)
    {
      var t := tracks[index];
      if WellTrimmed(t) {
        TrimsKeepWellTrimmed(t, clientX - shiftX - clipLeft, clipWidth);
      }
      tracks := tracks[index := t.(startPoint := TrimStartPoint(clientX - shiftX - clipLeft, clipWidth, t.duration, t.endPoint))];
    }

    /** Dragging a clip's end handle. */
    method TrimEndMove(index: int, clientX: real, shiftX: real, clipLeft: real, clipWidth: real)
      requires Valid() && 0 <= index < |tracks| && 0.0 < clipWidth
      modifies this
      ensures Valid()
      ensures tracks == old(tracks)[index := old(tracks)[index].(endPoint :=
        TrimEndPoint(clientX - shiftX - clipLeft, clipWidth, old(tracks)[index].duration,
                     old(tracks)[index].startPoint, old(tracks)[index].endPoint))]
      ensures AllWellTrimmed(old(tracks)) ==> AllWellTrimmed(tracks)
      ensures timeLineDuration == old(timeLineDuration) && time == old(time)
      ensures playing == old(playing) && speed == old(speed)
    {
      var t := tracks[index];
      if WellTrimmed(t) {
        TrimsKeepWellTrimmed(t, clientX - shiftX - clipLeft, clipWidth);
      }
      tracks := tracks[index := t.(endPoint := TrimEndPoint(clientX - shiftX - clipLeft, clipWidth, t.duration, t.startPoint, t.endPoint))];
    }

    /** The effect run when `playing` or `speed` changes: start the clips that
        should sound, or pause every clip. */
    method SyncPlayback(audio: array<AudioElement>) returns (log: seq<Command>)
      requires |tracks| <= audio.Length
      modifies audio
      ensures playing ==> audio[..] == ScheduledAll(old(audio[..]), tracks, time, true)
      ensures playing ==> log == Commands(old(audio[..]), tracks, time, true)
      ensures !playing ==> log == PauseLog(|tracks|)
      ensures !playing ==> forall k :: 0 <= k < audio.Length ==>
        audio[k] == if k < |tracks| then old(audio[k]).(paused := true) else old(audio[k])
    {
      if playing {
        log := Schedule(time, true, tracks, audio);
      } else {
        log := PauseAll(tracks, audio);
      }
    }

    /** The effect run when `time` changes: align every clip with the playhead,
        letting the audible ones sound only while playing. */
    method SyncTime(audio: array<AudioElement>) returns (log: seq<Command>)
      requires |tracks| <= audio.Length
      modifies audio
      ensures audio[..] == ScheduledAll(old(audio[..]), tracks, time, playing)
      ensures log == Commands(old(audio[..]), tracks, time, playing)
    {
      if playing {
        log := Schedule(time, true, tracks, audio);
      } else {
        log := Schedule(time, false, tracks, audio);
      }
    }

    /** The effect run when the speed or the number of clips changes. */
    method SyncRate(audio: array<AudioElement>)
      requires |tracks| <= audio.Length
      modifies audio
      ensures forall k :: 0 <= k < audio.Length ==>
        audio[k] == if k < |tracks| then old(audio[k]).(rate := speed) else old(audio[k])
    {
      UpdatePlaybackRate(speed, tracks, audio);
    }
  }
}
