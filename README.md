# iSound timeline engine in Dafny

This project models the engine behind the iSound multi-track timeline. A
session holds five pieces of state:

- the playhead `time`;
- the timeline length `timeLineDuration`;
- the `playing` flag;
- the playback `speed`;
- the list of placed clips (`Track` records).

The model covers:

- the handlers that change the session state: play/pause, speed toggle, add
  clip, remove clip, duration change and the clock tick;
- the scheduler that lines each clip's audio element up with the playhead;
- the clamp-and-map arithmetic of the four drag gestures (playhead scrub, clip
  move, trim start, trim end);
- the rule that disables entries of the duration menu;
- the `mm:ss:cc` time display.

Modules, one per part of the program:

- `Tracks`: the clip records (`src/util/types.d.ts`), the add-clip defaults,
  the growth of the timeline, filtered removal and the menu predicates. All of
  it is pure.
- `Clock`: the per-tick rule of `updateTime` and what a run of ticks does.
- `Audio`: the audio elements as records `{paused, offset, rate}` in an
  `array`, and the scheduler as a method with the source's two passes. The
  first pass seeks and pauses; the second plays the flagged clips. The
  scheduler also returns the log of Seek/Pause/Play commands it issued. Then
  `pauseAllTracks` and `updatePlaybackRate` as loops.
- `Interaction`: the clamping and pixel-to-time mapping of the drag
  gestures, as pure functions. Pointer position, element edges and widths
  are arguments. The mouse and touch variants compute the same thing from
  `clientX`.
- `TimeFormat`: the three fields of `Time.tsx` and their join. JavaScript's
  truncating `%`, `Math.round` (halves up) and `padStart` are written out.
- `Timeline`: the class `Session`. Its fields are the component's state and
  its methods are the handlers and effects, each stated against the
  functions above.

Times and pixel positions are `real` (exact), so divisions are exact. The
timeline duration is an `int`: it starts at 30000 and only ever receives
whole numbers, such as menu values or `ceil(...) * 30000`.

## Where the code departs from its apparent intent

The model follows the code in each case below:

- **`endTime`.** `addTrack` sets `endTime` to the clip's `duration`, not to
  `startTime + duration` (`Main.tsx:83`). `Tracks.EndTimeIgnoresPlacement`
  states this.
- **Tick overshoot.** A tick that starts before the end adds the full step,
  even past the end. Only the next tick puts the playhead on the end and stops
  (`Main.tsx:200-205`). See `Clock.OvershootThenStop`.
- **Play/pause reset.** The playhead goes back to 0 whenever it sits exactly
  on the end. This happens on pause as well as on play (`Main.tsx:54-57`).
- **Scrub range.** The scrub clamps the pixel position to
  `[0, width - thumbWidth]`. So with a thumb of non-zero width the playhead
  stays strictly before the end; it is not clamped to `[0, duration]` in time.
- **Clip move.** The live check uses the window
  `[startTime, startTime + duration]`, not the trimmed region. The offset
  follows `(time - startTime) / 1000`. Outside the window the element is
  paused and rewound to 0, not to `startPoint` (`Main.tsx:334-338`). The two
  lemmas `Interaction.MovedClipAgreesWhenAudible` and
  `Interaction.MovedClipDiffersWhenInaudible` state where this agrees with the
  scheduler and where it does not.
- **Duration menu.** A candidate is disabled when some clip's raw `duration`
  is at least the candidate, so equality disables too. The check does not use
  the clip's end on the timeline (`Main.tsx:688, 696, 704`).
  `Tracks.EnabledCandidateMayCutClip` gives a clip that an enabled candidate
  cuts off.
- **Timeline growth.** Growth is computed from `startTime + duration`, not
  from the clip's audible end.
- **Trim asymmetry.** Dragging the start handle past the end point pins it
  on the end point. Dragging the end handle before the start point leaves the
  end point unchanged (`Interaction.TrimAsymmetry`).
- **Re-scheduling is not quiet.** While playing, a re-run of the scheduler
  leaves the elements as they are (`Audio.ScheduleIdempotentWhilePlaying`).
  When paused, the elements settle only after two runs; a third changes
  nothing (`Audio.ScheduleSettles`). A first run pauses a playing audible element
  without seeking it, and the next run seeks it because it is now paused
  (`Main.tsx:173-178`). Either way a re-run still issues commands. While
  playing it calls `play()` again on every audible clip, and in either mode it
  seeks and pauses every inaudible clip again (`Main.tsx:178-187`).
  `Audio.RescheduleReissues` states this.
- **Clip move sees the pressed playhead.** A clip move does not stop
  playback. Its listener still checks the window against the playhead from
  when the clip was pressed (`Main.tsx:299-335`), so during playback the
  element is aligned to a playhead that has since moved on.
  `Timeline.Session.MoveClip` takes that playhead as `pressTime`.
- **Duration-change clamp.** The effect that pulls the playhead back onto a
  shorter timeline runs only when the duration value actually changes
  (`Main.tsx:218-220`).

## Model

| member | source | states |
|---|---|---|
| `Tracks.CompleteDefaults` | src/components/Main/Main.tsx:70-88 | Each absent placement field takes its own default: start 0, start point 0, end point the duration. `endTime` is always the duration. With neither trim point given the clip is well trimmed, and without an end point its audible end is its start plus its duration. |
| `Tracks.CompleteKeepsRequest` | src/components/Main/Main.tsx:70-88 | The new record keeps the request's colour, title, source and duration, and every placement field the request supplies. |
| `Tracks.EndTimeIgnoresPlacement` | src/components/Main/Main.tsx:83 | A clip placed after 0 gets an `endTime` that is not its end on the timeline. |
| `Tracks.Ceil` | src/components/Main/Main.tsx:91 | `Math.ceil`: the least integer not below `x`. |
| `Tracks.GrownDuration` | src/components/Main/Main.tsx:89-92 | The new duration never shrinks and covers `startTime + duration`. It is at least the first multiple of 30000 at or past the clip's end, and when it grows it lands exactly there. So it is the larger of the two, even for a current duration off the 30 s grid. On the grid, it stays put exactly when the clip already fits. |
| `Tracks.GrownDurationStable` | src/components/Main/Main.tsx:89-95 | Adding the same clip again does not grow the timeline further. |
| `Tracks.FilterIndex` | src/components/Main/Main.tsx:104 | `filter` by position: the list without the element at `index`, or the list unchanged when no position matches. |
| `Tracks.RemoveAtSpec` | src/components/Main/Main.tsx:103-106 | A valid index gives a list one shorter, with every other clip unchanged and in order. Any other index leaves the list as it was. |
| `Tracks.FindLongIndex` | src/components/Main/Main.tsx:688 | `findIndex`: the first clip whose duration reaches the bound, or -1 when there is none. |
| `Tracks.CandidatesValid` | src/components/Main/Main.tsx:686-709 | For a non-negative duration every menu value is positive, and the last two are at least a minute. When the current duration is a multiple of 30 s, so is every menu value. For a positive duration the last entry is the largest. |
| `Tracks.Disabled` | src/components/Main/Main.tsx:686-709 | An option is disabled if and only if some clip's duration is at least the option's value. |
| `Tracks.EnabledCandidateMayCutClip` | src/components/Main/Main.tsx:686-692 | The 30 s option stays enabled for a 20 s clip that starts at 20 s, even though the clip ends after 30 s. |
| `Clock.RunAdvances` | src/components/Main/Main.tsx:198-208 | While each tick starts before the limit, `k` ticks advance the playhead by exactly `k * amount` and playback goes on. |
| `Clock.RunStopsAtEnd` | src/components/Main/Main.tsx:198-208 | With a positive step, enough ticks leave the playhead exactly on the limit with playback stopped. |
| `Clock.OvershootThenStop` | src/components/Main/Main.tsx:200-205 | A step that crosses the limit leaves the playhead past it and still playing. The next tick puts it on the limit and stops. |
| `Audio.Schedule` | src/components/Main/Main.tsx:161-189 | The elements end as `ScheduledAll` of the old elements, and the log is the setup commands followed by the plays. Elements beyond the clip list are untouched. |
| `Audio.PrepareElement` | src/components/Main/Main.tsx:168-183 | The first pass on one clip. An audible clip is seeked only if it was paused, and is paused unless playback is on. An inaudible clip is seeked to its start point and paused. The clip is flagged exactly when it is audible and playback is on. |
| `Audio.PlayFlagged` | src/components/Main/Main.tsx:185-187 | The second pass plays exactly the flagged elements, in index order, and changes nothing else. |
| `Audio.PauseAll` | src/components/Main/Main.tsx:136-143 | Every clip's element is paused. Nothing else changes. The commands issued are one pause per clip, in index order. |
| `Audio.PauseLogEffect` | src/components/Main/Main.tsx:140-142 | Replaying the pauses for the first `n` clips pauses exactly those elements and leaves the others as they were. |
| `Audio.UpdatePlaybackRate` | src/components/Main/Main.tsx:148-156 | Every clip's element gets the rate, audible or not. Nothing else changes. |
| `Audio.ScheduledOutcome` | src/components/Main/Main.tsx:169-182 | After scheduling, an element plays if and only if its clip is audible and playback is on. An inaudible clip sits at `startPoint / 1000`. A paused audible clip is aligned to `(time - startTime) / 1000`. A playing audible clip keeps its offset. The rate is untouched. |
| `Audio.ScheduleIdempotentWhilePlaying` | src/components/Main/Main.tsx:161-189 | While playing, running the scheduler again on the same state changes nothing. |
| `Audio.ScheduleSettles` | src/components/Main/Main.tsx:161-189 | Playing or paused, the second run reaches a fixed point. |
| `Audio.SetupLogHasNoPlay` | src/components/Main/Main.tsx:168-183 | The first pass issues no play command. |
| `Audio.PlayLogPlays` | src/components/Main/Main.tsx:185-187 | The second pass issues only plays: one for each clip that is audible while playback is on. |
| `Audio.PlaysComeLast` | src/components/Main/Main.tsx:167-187 | In the whole log every play follows every seek and pause. A clip is played if and only if it is audible and playback is on. |
| `Audio.RescheduleReissues` | src/components/Main/Main.tsx:168-187 | Run again on the elements it left, the scheduler plays every audible clip once more while playing. In either mode it seeks every inaudible clip to its start point and pauses it once more. |
| `Audio.CommandsProduceSchedule` | src/components/Main/Main.tsx:161-189 | Replaying the log on the old elements gives exactly the scheduled elements. |
| `Interaction.ClampLeft` | src/components/Main/Main.tsx:312-326 | The dragged left edge lands in `[0, rightEdge]`. Inside that range it is unchanged; below it becomes 0 and above it becomes `rightEdge`. |
| `Interaction.DragTimeRange` | src/components/Main/Main.tsx:410-425 | A drag maps into `[0, span]`, strictly below `span` when the thumb has a width. Inside the slider the mapping is linear. |
| `Interaction.DragTimeMonotone` | src/components/Main/Main.tsx:410-425 | Dragging further right never gives an earlier time. |
| `Interaction.ClipMoveExample` | src/components/Main/Main.tsx:312-333 | A 200 px clip in a 1000 px lane goes to 0 when dragged to -50 px. Dragged to 900 px, it lands where 800 px maps. |
| `Interaction.TrimStartPoint` | src/components/Main/Main.tsx:482-496 | The new start point never passes the end point. A pointer left of the clip gives 0, and the result is not negative when the duration and the end point are not. Below the end point it follows the pointer; past it, it is pinned to the end point. |
| `Interaction.TrimEndPoint` | src/components/Main/Main.tsx:565-582 | The clamped pointer, mapped onto the media, becomes the new end point when it is not before the start point. When it is before the start point, the end point stays exactly as it was. A pointer past the right edge gives the full duration. A new end point is at least the start point and inside `[0, duration]`. |
| `Interaction.TrimsKeepWellTrimmed` | src/components/Main/Main.tsx:482-590 | Both handles keep `0 <= startPoint <= endPoint <= duration`. |
| `Interaction.TrimAsymmetry` | src/components/Main/Main.tsx:491-582 | Overshooting the start handle pins it on the end point. Undershooting the end handle leaves the end point where it was. |
| `Interaction.MovedClipAgreesWhenAudible` | src/components/Main/Main.tsx:334-335 | For an audible clip, a move sets the element to the offset the scheduler computes and keeps its paused state. Unlike the scheduler, it also seeks an element that is playing. |
| `Interaction.MovedClipDiffersWhenInaudible` | src/components/Main/Main.tsx:334-338 | Outside the audible region a move keeps a clip trimmed at the end aligned, playing or paused as before. It parks an inaudible clip at 0, where the scheduler parks it at its start point. |
| `TimeFormat.PadStart2` | src/components/Main/Time.tsx:8 | `padStart(2, '0')`: at least two characters, ending in the input, with zeros in front. |
| `TimeFormat.PaddedValue` | src/components/Main/Time.tsx:8-10 | A natural number, printed and padded, is all digits and reads back as itself. It is two characters below 100. |
| `TimeFormat.SecondsFieldSpec` | src/components/Main/Time.tsx:8 | The seconds field is `floor(time / 1000) mod 60`, in 0..59, and exactly two digits. |
| `TimeFormat.MinutesFieldSpec` | src/components/Main/Time.tsx:9 | The minutes field reads as `floor(time / 60000)` and has at least two digits. |
| `TimeFormat.FiftiethsFieldSpec` | src/components/Main/Time.tsx:10 | The last field is the rest of the second in fiftieths, rounded half up. It lies in 0..50, shows 50 for the last 10 ms of a second, and is exactly two digits. |
| `TimeFormat.FormatReadsBack` | src/components/Main/Time.tsx:12 | The display splits at its last six characters into minutes, seconds and fiftieths, in that order. Each field reads back as its value. |
| `Timeline.Session.constructor` | src/components/Main/Main.tsx:33-38 | A new session: 30 s timeline, playhead at 0, paused, speed 1, no clips. |
| `Timeline.Session.PlayPause` | src/components/Main/Main.tsx:54-57 | Playback toggles. A playhead sitting on the end goes back to 0; otherwise it stays. |
| `Timeline.Session.ToggleSpeed` | src/components/Main/Main.tsx:62-64 | Speed 1 becomes 2 and anything else becomes 1. Nothing else changes. |
| `Timeline.Session.ChangeTimelineDuration` | src/components/Main/Main.tsx:127-130 | Playback stops and the duration takes the new value. With the effect at lines 218-220, a changed duration pulls the playhead to `min(duration, time)`. |
| `Timeline.Session.SelectDuration` | src/components/Main/Main.tsx:676-709 | Picking an enabled menu entry sets the duration to that entry. Playback stops exactly when the entry differs from the current duration; re-picking the current entry changes nothing. A playhead past a changed, shorter duration is pulled back onto it; otherwise it stays. Every clip is then shorter than the new duration, and a duration on the 30 s grid stays on it. |
| `Timeline.Session.AddTrack` | src/components/Main/Main.tsx:70-97 | The completed clip is appended after the others, which stay unchanged. The duration becomes `GrownDuration`, so the new clip fits. Playback stops exactly when the duration grew. |
| `Timeline.Session.RemoveTrack` | src/components/Main/Main.tsx:103-106 | The clip list becomes `RemoveAt(old, index)` and well-trimmed clips stay well trimmed. Nothing else changes. |
| `Timeline.Session.UpdateTime` | src/components/Main/Main.tsx:198-208 | The playhead and playing flag take one `Clock.Step`. Nothing else changes. |
| `Timeline.Session.Tick` | src/components/Main/Main.tsx:245-250 | The interval callback steps by `speed * 100` against the timeline duration. |
| `Timeline.Session.BeginDrag` | src/components/Main/Main.tsx:400-402 | Pressing the playhead or a trim handle stops playback and changes nothing else. |
| `Timeline.Session.ScrubMove` | src/components/Main/Main.tsx:408-427 | The playhead becomes the clamped pointer position scaled to the duration. It lies in `[0, duration]`, strictly before the end when the thumb has a width. |
| `Timeline.Session.MoveClip` | src/components/Main/Main.tsx:299-343 | Only the dragged clip's `startTime` changes, to the clamped and scaled position. Only that clip's element changes, by `MovedClipAudio` against the playhead at the time of the press. The session's playhead and playing flag are untouched. |
| `Timeline.Session.TrimStartMove` | src/components/Main/Main.tsx:480-505 | Only the dragged clip's `startPoint` changes, to `TrimStartPoint`. Well-trimmed clips stay well trimmed. |
| `Timeline.Session.TrimEndMove` | src/components/Main/Main.tsx:563-591 | Only the dragged clip's `endPoint` changes, to `TrimEndPoint`. Well-trimmed clips stay well trimmed. |
| `Timeline.Session.SyncPlayback` | src/components/Main/Main.tsx:236-258 | On a play/speed change: while playing, the elements are scheduled with playback on; otherwise every clip's element is paused, by one pause command per clip. |
| `Timeline.Session.SyncTime` | src/components/Main/Main.tsx:264-281 | On a time change: the elements are scheduled at the playhead, with playback on exactly when the session is playing. |
| `Timeline.Session.SyncRate` | src/components/Main/Main.tsx:225-229 | Every clip's element takes the session speed as its rate. |

## Left out

- JSX rendering and styling. This covers the markup of `Main.tsx`, `TimelineMarks.tsx`, `TrackList.tsx` and the tooltip. It has no rule beyond passing values through.
- Timer and effect plumbing: `setInterval`/`clearInterval`, interval IDs and effect dependency lists. A tick is the explicit call `Session.Tick`, and each effect is a `Sync...` method the caller runs.
- The effect at `Main.tsx:283-290` that toggles `playing` twice when `time == 0`. It is a render-cycle workaround with no state rule of its own.
- Listener registration and removal in the drag handlers. This includes the touch trim-start handler removing `"mouseup"` instead of `"touchend"` (`Main.tsx:552`), which leaves a listener behind.
- Touch variants. The mouse and touch variants of each gesture share one method, because they differ only in where `clientX` comes from. `getBoundingClientRect` and `offsetWidth` are method arguments.
- `addDemoFiles`. Its dynamic import and `setTimeout` staggering are I/O and timing. It calls the `addTrack` of the render in which Demo was clicked (`Main.tsx:108-123`). So every demo clip grows the timeline from that render's stale `timeLineDuration`, and a later, shorter clip can set the duration back below an earlier clip's boundary. A sequence of `AddTrack` calls never does that, so the demo loader is not a sequence of `AddTrack` calls.
- `Media.tsx`, `src/pages/test.tsx` and `src/util/helper.ts`. File reading, metadata loading and random colours are I/O and randomness. The colour is part of the add request.
- Real `HTMLAudioElement` behaviour, such as decoding, sound and the promise `play()` returns. Only the recorded state and the command log are modelled.
- The menu component. `@/components/ui/select` is not part of this model. `Timeline.Session.SelectDuration` takes it to be a controlled select that reports a pick only when the value differs from the current one (`Main.tsx:676-678`).
- Floating point. Times are exact reals, so rounding error is not modelled. A zero width would give NaN or an infinite value in JavaScript, so the drag methods require positive widths.
- `Timeline.Session.ScrubMove` also requires the thumb to be no wider than the timeline. The source takes any widths, and a wider thumb would give a negative playhead (`Main.tsx:418-425`).
- `Timeline.Session.ChangeTimelineDuration` takes an integer, not a string passed through `parseInt`. It requires a non-negative value, which is what every caller passes: menu values, and a grown duration that is at least the current one.
- Stale closures and aliasing. The drag listeners capture `time`, `timeLineDuration` and the clip list at pointer-down, and they mutate the clip records in place inside `map`. The model passes the captured playhead of a clip move as `pressTime`. Otherwise it reads the session's current duration and clip list and replaces the record in the list. These differ only if the duration changes or a clip is added or removed during a drag. A clip added during a drag, for example by the staggered demo loader, would be dropped by the next move in the source; the model keeps it.
- Re-rendering after a removal. Removing a clip shifts the audio elements rendered for the later clips; the model keeps the element array as the caller passes it.
- `Timeline.Session.MoveClip`, `Timeline.Session.TrimStartMove` and `Timeline.Session.TrimEndMove` require the index of an existing clip. The source reads the clip's rendered element at that index and would throw otherwise.
