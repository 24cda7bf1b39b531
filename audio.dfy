/** The track scheduler: what the engine writes into each clip's audio element
    (handleTrackscurrentTimeAndState, pauseAllTracks, updatePlaybackRate). */
module Audio {
  import opened Tracks

  /** The state of one audio element the engine reads and writes: whether it is
      paused, its playback position `offset` in seconds, and its playback rate. */
  datatype AudioElement = AudioElement(paused: bool, offset: real, rate: real)

  /** A command the scheduler issues to element `index`. */
  datatype Command = Seek(index: nat, seconds: real) | Pause(index: nat) | Play(index: nat)

  /** The clip should sound at `time`: its trimmed region, placed on the timeline, contains it. */
  predicate Audible(t: Track, time: real)
  {
    t.startTime + t.startPoint <= time <= t.startTime + t.endPoint
  }

  /** Position, in seconds, inside the clip's media that corresponds to `time`. */
  function AlignedOffset(t: Track, time: real): real
  {
    (time - (t.startTime + t.startPoint) + t.startPoint) / 1000.0
  }

  /** The commands the first pass issues for one clip. */
  function SetupCommands(i: nat, a: AudioElement, t: Track, time: real, state: bool): seq<Command>
  {
    if Audible(t, time) then
      (if a.paused then [Seek(i, AlignedOffset(t, time))] else [])
      + (if state then [] else [Pause(i)])
    else [Seek(i, t.startPoint / 1000.0), Pause(i)]
  }

  /** An element after the first pass. */
  function Prepared(a: AudioElement, t: Track, time: real, state: bool): AudioElement
  {
    if Audible(t, time) then
      var seeked := if a.paused then a.(offset := AlignedOffset(t, time)) else a;
      if state then seeked else seeked.(paused := true)
    else a.(offset := t.startPoint / 1000.0, paused := true)
  }

  /** The first pass flags the clip for the second pass. */
  predicate Flagged(t: Track, time: real, state: bool)
  {
    state && Audible(t, time)
  }

  /** An element after both passes. */
  function Scheduled(a: AudioElement, t: Track, time: real, state: bool): AudioElement
  {
    var p := Prepared(a, t, time, state);
    if Flagged(t, time, state) then p.(paused := false) else p
  }

  /** The whole array after the scheduler; elements without a clip are untouched. */
  function ScheduledAll(before: seq<AudioElement>, tracks: seq<Track>, time: real, state: bool): (r: seq<AudioElement>)
    requires |tracks| <= |before|
    ensures |r| == |before|
  {
    seq(|before|, k requires 0 <= k < |before| =>
      if k < |tracks| then Scheduled(before[k], tracks[k], time, state) else before[k])
  }

  /** The first-pass commands for the first `n` clips, in order. */
  function SetupLog(before: seq<AudioElement>, tracks: seq<Track>, time: real, state: bool, n: nat): seq<Command>
    requires n <= |tracks| <= |before|
  {
    if n == 0 then []
    else SetupLog(before, tracks, time, state, n - 1)
         + SetupCommands(n - 1, before[n - 1], tracks[n - 1], time, state)
  }

  /** The second-pass commands for the first `n` clips, in order. */
  function PlayLog(tracks: seq<Track>, time: real, state: bool, n: nat): seq<Command>
    requires n <= |tracks|
  {
    if n == 0 then []
    else PlayLog(tracks, time, state, n - 1)
         + (if Flagged(tracks[n - 1], time, state) then [Play(n - 1)] else [])
  }

  /** Everything one run of the scheduler issues: all seeks and pauses, then the plays. */
  function Commands(before: seq<AudioElement>, tracks: seq<Track>, time: real, state: bool): seq<Command>
    requires |tracks| <= |before|
  {
    SetupLog(before, tracks, time, state, |tracks|) + PlayLog(tracks, time, state, |tracks|)
  }

  /** What one command does to the elements. */
  function Exec(c: Command, s: seq<AudioElement>): (r: seq<AudioElement>)
    ensures |r| == |s|
  {
    match c
    case Seek(i, x) => if i < |s| then s[i := s[i].(offset := x)] else s
    case Pause(i) => if i < |s| then s[i := s[i].(paused := true)] else s
    case Play(i) => if i < |s| then s[i := s[i].(paused := false)] else s
  }

  /** Issuing the commands in order. */
  function Apply(cs: seq<Command>, s: seq<AudioElement>): (r: seq<AudioElement>)
    ensures |r| == |s|
  {
    if cs == [] then s else Apply(cs[1..], Exec(cs[0], s))
  }

  // ---------------------------------------------------------------- the scheduler

  /** handleTrackscurrentTimeAndState: a first pass seeks and pauses every
      element and flags the audible clips, then a second pass plays the flagged
      ones. Returns the commands in the order issued. */
  method Schedule(time: real, state: bool, tracks: seq<Track>, audio: array<AudioElement>)
    returns (log: seq<Command>)
    requires |tracks| <= audio.Length
    modifies audio
    ensures audio[..] == ScheduledAll(old(audio[..]), tracks, time, state)
    ensures log == Commands(old(audio[..]), tracks, time, state)
  {
    ghost var before := audio[..];
    var ctr: seq<bool> := [];
    log := [];
    var i := 0;
    while i < |tracks|
      invariant 0 <= i <= |tracks|
      invariant |ctr| == i
      invariant forall k :: 0 <= k < i ==>
        audio[k] == Prepared(before[k], tracks[k], time, state) && ctr[k] == Flagged(tracks[k], time, state)
      invariant forall k :: i <= k < audio.Length ==> audio[k] == before[k]
      invariant log == SetupLog(before, tracks, time, state, i)
    {
      var cmds, flag := PrepareElement(i, time, state, tracks[i], audio);
      assert SetupLog(before, tracks, time, state, i + 1) == log + cmds;
      log := log + cmds;
      ctr := ctr + [flag];
      i := i + 1;
    }
    var plays := PlayFlagged(ctr, audio, tracks, time, state);
    log := log + plays;
    assert log == Commands(before, tracks, time, state);
    assert forall k :: 0 <= k < audio.Length ==> audio[k] == ScheduledAll(before, tracks, time, state)[k];
    assert audio[..] == ScheduledAll(before, tracks, time, state);
  }

  /** The second pass: play every element the first pass flagged. */
  method PlayFlagged(ctr: seq<bool>, audio: array<AudioElement>, ghost tracks: seq<Track>, ghost time: real, ghost state: bool)
    returns (plays: seq<Command>)
    requires |ctr| == |tracks| <= audio.Length
    requires forall k :: 0 <= k < |ctr| ==> ctr[k] == Flagged(tracks[k], time, state)
    modifies audio
    ensures forall k :: 0 <= k < audio.Length ==>
      audio[k] == if k < |ctr| && ctr[k] then old(audio[k]).(paused := false) else old(audio[k])
    ensures plays == PlayLog(tracks, time, state, |ctr|)
  {
    plays := [];
    var j := 0;
    while j < |ctr|
      invariant 0 <= j <= |ctr|
      invariant forall k :: 0 <= k < audio.Length ==>
        audio[k] == if k < j && ctr[k] then old(audio[k]).(paused := false) else old(audio[k])
      invariant plays == PlayLog(tracks, time, state, j)
    {
      if ctr[j] {
        audio[j] := audio[j].(paused := false);
        plays := plays + [Play(j)];
      }
      j := j + 1;
    }
  }

  /** One step of the first pass, for clip `i`: align or park its element and
      decide whether the second pass plays it. */
  method PrepareElement(i: nat, time: real, state: bool, tt: Track, audio: array<AudioElement>)
    returns (cmds: seq<Command>, flag: bool)
    requires i < audio.Length
    modifies audio
    ensures audio[i] == Prepared(old(audio[i]), tt, time, state)
    ensures forall k :: 0 <= k < audio.Length && k != i ==> audio[k] == old(audio[k])
    ensures cmds == SetupCommands(i, old(audio[i]), tt, time, state)
    ensures flag == Flagged(tt, time, state)
  {
    cmds := [];
    if tt.startTime + tt.startPoint <= time && time <= tt.startTime + tt.endPoint {
      if audio[i].paused {
        audio[i] := audio[i].(offset := (time - (tt.startTime + tt.startPoint) + tt.startPoint) / 1000.0);
        cmds := cmds + [Seek(i, AlignedOffset(tt, time))];
      }
      if state {
        flag := true;
      } else {
        audio[i] := audio[i].(paused := true);
        cmds := cmds + [Pause(i)];
        flag := false;
      }
    } else {
      audio[i] := audio[i].(offset := tt.startPoint / 1000.0);
      audio[i] := audio[i].(paused := true);
      cmds := [Seek(i, tt.startPoint / 1000.0), Pause(i)];
      flag := false;
    }
  }

  /** The commands pauseAllTracks issues for `n` clips: one pause per clip, in index order. */
  function PauseLog(n: nat): (cs: seq<Command>)
    ensures |cs| == n && forall k :: 0 <= k < n ==> cs[k] == Pause(k)
  {
    if n == 0 then [] else PauseLog(n - 1) + [Pause(n - 1)]
  }

  /** Replaying the pauses for the first `n` clips pauses exactly their elements. */
  lemma {:induction false} PauseLogEffect(n: nat, s: seq<AudioElement>)
    requires n <= |s|
    ensures forall k :: 0 <= k < |s| ==>
      Apply(PauseLog(n), s)[k] == if k < n then s[k].(paused := true) else s[k]
  {
    if n > 0 {
      PauseLogEffect(n - 1, s);
      ApplyConcat(PauseLog(n - 1), [Pause(n - 1)], s);
      ApplyOne(Pause(n - 1), Apply(PauseLog(n - 1), s));
    }
  }

  /** pauseAllTracks: pause the element of every clip. */
  method PauseAll(tracks: seq<Track>, audio: array<AudioElement>) returns (log: seq<Command>)
    requires |tracks| <= audio.Length
    modifies audio
    ensures forall k :: 0 <= k < audio.Length ==>
      audio[k] == if k < |tracks| then old(audio[k]).(paused := true) else old(audio[k])
    ensures log == PauseLog(|tracks|)
  {
    var i := 0;
    log := [];
    while i < |tracks|
      invariant 0 <= i <= |tracks|
      invariant forall k :: 0 <= k < audio.Length ==>
        audio[k] == if k < i then old(audio[k]).(paused := true) else old(audio[k])
      invariant log == PauseLog(i)
    {
      audio[i] := audio[i].(paused := true);
      log := log + [Pause(i)];
      i := i + 1;
    }
  }

  /** updatePlaybackRate: give the element of every clip, audible or not, the rate. */
  method UpdatePlaybackRate(rate: real, tracks: seq<Track>, audio: array<AudioElement>)
    requires |tracks| <= audio.Length
    modifies audio
    ensures forall k :: 0 <= k < audio.Length ==>
      audio[k] == if k < |tracks| then old(audio[k]).(rate := rate) else old(audio[k])
  {
    var i := 0;
    while i < |tracks|
      invariant 0 <= i <= |tracks|
      invariant forall k :: 0 <= k < audio.Length ==>
        audio[k] == if k < i then old(audio[k]).(rate := rate) else old(audio[k])
    {
      audio[i] := audio[i].(rate := rate);
      i := i + 1;
    }
  }

  // ---------------------------------------------------------------- properties

  /** What the scheduler leaves in each clip's element: it is playing exactly when
      the clip is audible and playback is on; an inaudible clip is parked at its
      start point; an audible clip that was paused is aligned with the playhead;
      an audible clip that was already playing keeps its position; the rate is
      never touched. */
  lemma ScheduledOutcome(before: seq<AudioElement>, tracks: seq<Track>, time: real, state: bool, k: nat)
    requires |tracks| <= |before| && k < |tracks|
    ensures var a, t, r := before[k], tracks[k], ScheduledAll(before, tracks, time, state)[k];
      && (r.paused <==> !(state && Audible(t, time)))
      && (!Audible(t, time) ==> r.offset == t.startPoint / 1000.0)
      && (Audible(t, time) && a.paused ==> r.offset == (time - t.startTime) / 1000.0)
      && (Audible(t, time) && !a.paused ==> r.offset == a.offset)
      && r.rate == a.rate
  {
  }

  /** Running the scheduler again on an unchanged playing state changes nothing. */
  lemma ScheduleIdempotentWhilePlaying(before: seq<AudioElement>, tracks: seq<Track>, time: real)
    requires |tracks| <= |before|
    ensures var once := ScheduledAll(before, tracks, time, true);
            ScheduledAll(once, tracks, time, true) == once
  {
  }

  /** Paused or playing, the second run of the scheduler on an unchanged state is
      a fixed point: a clip that was still sounding is seeked once it has been paused. */
  lemma ScheduleSettles(before: seq<AudioElement>, tracks: seq<Track>, time: real, state: bool)
    requires |tracks| <= |before|
    ensures var twice := ScheduledAll(ScheduledAll(before, tracks, time, state), tracks, time, state);
            ScheduledAll(twice, tracks, time, state) == twice
  {
  }

  lemma {:induction false} SetupLogHasNoPlay(before: seq<AudioElement>, tracks: seq<Track>, time: real, state: bool, n: nat)
    requires n <= |tracks| <= |before|
    ensures forall c :: c in SetupLog(before, tracks, time, state, n) ==> !c.Play?
  {
    if n > 0 {
      SetupLogHasNoPlay(before, tracks, time, state, n - 1);
    }
  }

  lemma {:induction false} PlayLogPlays(tracks: seq<Track>, time: real, state: bool, n: nat)
    requires n <= |tracks|
    ensures forall c :: c in PlayLog(tracks, time, state, n) ==> c.Play?
    ensures forall i: nat :: Play(i) in PlayLog(tracks, time, state, n) <==> i < n && Flagged(tracks[i], time, state)
  {
    if n > 0 {
      PlayLogPlays(tracks, time, state, n - 1);
    }
  }

  /** No play command is issued until every seek and pause of the run has been,
      and a clip is played exactly when it is audible and playback is on. */
  lemma PlaysComeLast(before: seq<AudioElement>, tracks: seq<Track>, time: real, state: bool)
    requires |tracks| <= |before|
    ensures var log := Commands(before, tracks, time, state);
      forall j, k :: 0 <= j < k < |log| && log[j].Play? ==> log[k].Play?
    ensures forall i: nat :: Play(i) in Commands(before, tracks, time, state) <==>
      i < |tracks| && state && Audible(tracks[i], time)
  {
    var setup := SetupLog(before, tracks, time, state, |tracks|);
    var plays := PlayLog(tracks, time, state, |tracks|);
    SetupLogHasNoPlay(before, tracks, time, state, |tracks|);
    PlayLogPlays(tracks, time, state, |tracks|);
    var log := setup + plays;
    forall k | 0 <= k < |setup|
      ensures !log[k].Play?
    {
      assert log[k] == setup[k] && setup[k] in setup;
    }
    forall k | |setup| <= k < |log|
      ensures log[k].Play?
    {
      assert log[k] == plays[k - |setup|] && plays[k - |setup|] in plays;
    }
    forall i: nat
      ensures Play(i) in log <==> i < |tracks| && state && Audible(tracks[i], time)
    {
      assert Play(i) !in setup;
    }
  }

  lemma {:induction false} ApplyConcat(xs: seq<Command>, ys: seq<Command>, s: seq<AudioElement>)
    ensures Apply(xs + ys, s) == Apply(ys, Apply(xs, s))
    decreases |xs|
  {
    if xs == [] {
      assert xs + ys == ys;
    } else {
      assert (xs + ys)[0] == xs[0];
      assert (xs + ys)[1..] == xs[1..] + ys;
      ApplyConcat(xs[1..], ys, Exec(xs[0], s));
    }
  }

  /** The elements once the first `n` clips have been through the first pass. */
  function PreparedUpTo(before: seq<AudioElement>, tracks: seq<Track>, time: real, state: bool, n: nat): (r: seq<AudioElement>)
    requires n <= |tracks| <= |before|
    ensures |r| == |before|
  {
    seq(|before|, k requires 0 <= k < |before| =>
      if k < n then Prepared(before[k], tracks[k], time, state) else before[k])
  }

  lemma ApplyOne(c: Command, s: seq<AudioElement>)
    ensures Apply([c], s) == Exec(c, s)
  {
    assert [c][1..] == [];
  }

  lemma ApplyTwo(c: Command, d: Command, s: seq<AudioElement>)
    ensures Apply([c, d], s) == Exec(d, Exec(c, s))
  {
    assert [c, d][1..] == [d];
    ApplyOne(d, Exec(c, s));
  }

  lemma SeekThenPause(i: nat, s: seq<AudioElement>, x: real)
    requires i < |s|
    ensures Exec(Pause(i), Exec(Seek(i, x), s)) == s[i := s[i].(offset := x, paused := true)]
  {
  }

  lemma SetupCommandsEffect(i: nat, s: seq<AudioElement>, t: Track, time: real, state: bool)
    requires i < |s|
    ensures Apply(SetupCommands(i, s[i], t, time, state), s) == s[i := Prepared(s[i], t, time, state)]
  {
    var a := s[i];
    var cs := SetupCommands(i, a, t, time, state);
    if !Audible(t, time) {
      var x := t.startPoint / 1000.0;
      assert cs == [Seek(i, x), Pause(i)];
      assert Prepared(a, t, time, state) == a.(offset := x, paused := true);
      ApplyTwo(Seek(i, x), Pause(i), s);
      SeekThenPause(i, s, x);
    } else if a.paused && state {
      var x := AlignedOffset(t, time);
      assert cs == [Seek(i, x)];
      assert Prepared(a, t, time, state) == a.(offset := x);
      ApplyOne(Seek(i, x), s);
    } else if a.paused {
      var x := AlignedOffset(t, time);
      assert cs == [Seek(i, x), Pause(i)];
      assert Prepared(a, t, time, state) == a.(offset := x, paused := true);
      ApplyTwo(Seek(i, x), Pause(i), s);
      SeekThenPause(i, s, x);
    } else if state {
      assert cs == [];
      assert Prepared(a, t, time, state) == a;
      assert s[i := a] == s;
    } else {
      assert cs == [Pause(i)];
      assert Prepared(a, t, time, state) == a.(paused := true);
      ApplyOne(Pause(i), s);
    }
  }

  lemma {:induction false} SetupLogEffect(before: seq<AudioElement>, tracks: seq<Track>, time: real, state: bool, n: nat)
    requires n <= |tracks| <= |before|
    ensures Apply(SetupLog(before, tracks, time, state, n), before) == PreparedUpTo(before, tracks, time, state, n)
  {
    if n > 0 {
      var xs := SetupLog(before, tracks, time, state, n - 1);
      var ys := SetupCommands(n - 1, before[n - 1], tracks[n - 1], time, state);
      var mid := PreparedUpTo(before, tracks, time, state, n - 1);
      assert Apply(xs, before) == mid by {
        SetupLogEffect(before, tracks, time, state, n - 1);
      }
      assert Apply(xs + ys, before) == Apply(ys, mid) by {
        ApplyConcat(xs, ys, before);
      }
      assert Apply(ys, mid) == PreparedUpTo(before, tracks, time, state, n) by {
        assert mid[n - 1] == before[n - 1];
        SetupCommandsEffect(n - 1, mid, tracks[n - 1], time, state);
        PreparedUpToStep(before, tracks, time, state, n);
      }
    }
  }

  /** Preparing one more clip is a single-element update. */
  lemma PreparedUpToStep(before: seq<AudioElement>, tracks: seq<Track>, time: real, state: bool, n: nat)
    requires 0 < n <= |tracks| <= |before|
    ensures var mid := PreparedUpTo(before, tracks, time, state, n - 1);
      mid[n - 1 := Prepared(mid[n - 1], tracks[n - 1], time, state)] == PreparedUpTo(before, tracks, time, state, n)
  {
    var mid := PreparedUpTo(before, tracks, time, state, n - 1);
    var r := mid[n - 1 := Prepared(mid[n - 1], tracks[n - 1], time, state)];
    var goal := PreparedUpTo(before, tracks, time, state, n);
    assert forall k :: 0 <= k < |before| ==> r[k] == goal[k];
  }

  /** The elements once the first `n` flagged clips have been played. */
  function PlayedUpTo(before: seq<AudioElement>, tracks: seq<Track>, time: real, state: bool, n: nat): (r: seq<AudioElement>)
    requires n <= |tracks| <= |before|
    ensures |r| == |before|
  {
    seq(|before|, k requires 0 <= k < |before| =>
      if k < n then Scheduled(before[k], tracks[k], time, state)
      else if k < |tracks| then Prepared(before[k], tracks[k], time, state)
      else before[k])
  }

  lemma {:induction false} PlayLogEffect(before: seq<AudioElement>, tracks: seq<Track>, time: real, state: bool, n: nat)
    requires n <= |tracks| <= |before|
    ensures Apply(PlayLog(tracks, time, state, n), PreparedUpTo(before, tracks, time, state, |tracks|))
         == PlayedUpTo(before, tracks, time, state, n)
  {
    var prepared := PreparedUpTo(before, tracks, time, state, |tracks|);
    if n == 0 {
      assert PlayLog(tracks, time, state, 0) == [];
      assert prepared == PlayedUpTo(before, tracks, time, state, 0);
    } else {
      PlayLogEffect(before, tracks, time, state, n - 1);
      var play := if Flagged(tracks[n - 1], time, state) then [Play(n - 1)] else [];
      ApplyConcat(PlayLog(tracks, time, state, n - 1), play, prepared);
      var mid := PlayedUpTo(before, tracks, time, state, n - 1);
      var next := PlayedUpTo(before, tracks, time, state, n);
      if Flagged(tracks[n - 1], time, state) {
        ApplyOne(Play(n - 1), mid);
        assert mid[n - 1 := mid[n - 1].(paused := false)] == next;
      } else {
        assert mid == next;
      }
    }
  }

  /** The commands the scheduler issues, replayed in order from the old
      elements, produce exactly the elements it leaves behind. */
  lemma CommandsProduceSchedule(before: seq<AudioElement>, tracks: seq<Track>, time: real, state: bool)
    requires |tracks| <= |before|
    ensures Apply(Commands(before, tracks, time, state), before) == ScheduledAll(before, tracks, time, state)
  {
    var n := |tracks|;
    ApplyConcat(SetupLog(before, tracks, time, state, n), PlayLog(tracks, time, state, n), before);
    SetupLogEffect(before, tracks, time, state, n);
    PlayLogEffect(before, tracks, time, state, n);
    assert PlayedUpTo(before, tracks, time, state, n) == ScheduledAll(before, tracks, time, state);
  }

  /** The first-pass log of `n` clips holds the commands of every clip before `n`. */
  lemma {:induction false} SetupLogContains(before: seq<AudioElement>, tracks: seq<Track>, time: real, state: bool, n: nat, k: nat)
    requires k < n <= |tracks| <= |before|
    ensures forall c :: c in SetupCommands(k, before[k], tracks[k], time, state) ==>
      c in SetupLog(before, tracks, time, state, n)
  {
    if k < n - 1 {
      SetupLogContains(before, tracks, time, state, n - 1, k);
    }
  }

  /** The scheduler is not quiet on an unchanged state: run again on the
      elements it left, while playing, it plays every audible clip once more,
      and in either mode it seeks and pauses every inaudible clip once more. */
  lemma RescheduleReissues(before: seq<AudioElement>, tracks: seq<Track>, time: real, state: bool, k: nat)
    requires |tracks| <= |before| && k < |tracks|
    ensures var again := Commands(ScheduledAll(before, tracks, time, state), tracks, time, state);
      && (state && Audible(tracks[k], time) ==> Play(k) in again)
      && (!Audible(tracks[k], time) ==> Seek(k, tracks[k].startPoint / 1000.0) in again && Pause(k) in again)
  {
    var once := ScheduledAll(before, tracks, time, state);
    PlaysComeLast(once, tracks, time, state);
    SetupLogContains(once, tracks, time, state, |tracks|, k);
    var cs := SetupCommands(k, once[k], tracks[k], time, state);
    if !Audible(tracks[k], time) {
      assert cs == [Seek(k, tracks[k].startPoint / 1000.0), Pause(k)];
      assert cs[0] in cs && cs[1] in cs;
    }
  }
}
