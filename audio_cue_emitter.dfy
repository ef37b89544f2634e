/**
 * The audio cue recorder: an append-only log of timestamped audio events
 * (narration marks, sound effects, music changes) that the downstream
 * muxer positions clips with. The clock (`performance.now()`) is a parameter.
 */
module AudioCues {
  import opened Wrappers
  import opened JsValues

  datatype CueType = Sfx | Music | NarrationMark

  datatype Cue = Cue(
    beat: int,
    cueType: CueType,
    clip: string,
    wallClockMs: real,
    volume: Option<real>,
    fadeIn: Option<real>)

  const DefaultSfxDelay: real := 0.0
  const DefaultSfxVolume: real := 1.0
  const DefaultMusicVolume: real := 0.5

  /** The clip name of narration beat `i`: "beat_" followed by its decimal digits. */
  function NarrationClip(i: nat): (clip: string)
    ensures |clip| > 5
  {
    "beat_" + DecimalString(i)
  }

  /** A narration clip name is "beat_" followed by decimal digits that spell
      out the beat index. */
  lemma NarrationClipSpellsIndex(i: nat)
    ensures NarrationClip(i)[..5] == "beat_"
    ensures forall k :: 5 <= k < |NarrationClip(i)| ==> '0' <= NarrationClip(i)[k] <= '9'
    ensures ParseDecimal(NarrationClip(i)[5..]) == i
  {
    DecimalRoundTrip(i);
    assert NarrationClip(i)[5..] == DecimalString(i);
  }

  /** Two narration marks share a clip name only when they mark the same beat. */
  lemma NarrationClipInjective(i: nat, j: nat)
    requires NarrationClip(i) == NarrationClip(j)
    ensures i == j
  {
    NarrationClipSpellsIndex(i);
    NarrationClipSpellsIndex(j);
  }

  function MarkCue(beatIndex: nat, wallClockMs: real): Cue
  {
    Cue(beatIndex, NarrationMark, NarrationClip(beatIndex), wallClockMs, None, None)
  }

  function SfxCue(beat: int, clip: string, wallClockMs: real, volume: real): Cue
  {
    Cue(beat, Sfx, clip, wallClockMs, Some(volume), None)
  }

  function MusicChangeCue(beat: int, track: string, wallClockMs: real, volume: real, fadeIn: Option<real>): Cue
  {
    Cue(beat, Music, track, wallClockMs, Some(volume), fadeIn)
  }

  class AudioCueEmitter {
    var log: seq<Cue>
    var startTime: real
    var currentBeat: int

    constructor ()
      ensures log == [] && startTime == 0.0 && currentBeat == 0
    {
      log := [];
      startTime := 0.0;
      currentBeat := 0;
    }

    method SetStartTime(time: real)
      modifies this
      ensures startTime == time
      ensures log == old(log) && currentBeat == old(currentBeat)
    {
      startTime := time;
    }

    /** Milliseconds elapsed since the session origin, at clock reading `clock`. */
    function Now(clock: real): (elapsed: real)
      reads this
      ensures startTime + elapsed == clock
    {
      clock - startTime
    }

    method EmitNarrationMark(beatIndex: nat, wallClockMs: real)
      modifies this
      ensures currentBeat == beatIndex && startTime == old(startTime)
      ensures log == old(log) + [MarkCue(beatIndex, wallClockMs)]
    {
      currentBeat := beatIndex;
      log := log + [Cue(beatIndex, NarrationMark, NarrationClip(beatIndex), wallClockMs, None, None)];
    }

    /** A missing delay or volume takes its default; an explicit 0 is kept. */
    method EmitSfx(clip: string, delay: Option<real>, volume: Option<real>, clock: real)
      modifies this
      ensures currentBeat == old(currentBeat) && startTime == old(startTime)
      ensures log == old(log) + [SfxCue(old(currentBeat), clip,
                                        clock - old(startTime) + Default(delay, DefaultSfxDelay),
                                        Default(volume, DefaultSfxVolume))]
    {
      var d := Default(delay, DefaultSfxDelay);
      var v := Default(volume, DefaultSfxVolume);
      log := log + [Cue(currentBeat, Sfx, clip, Now(clock) + d, Some(v), None)];
    }

    method EmitMusic(track: string, volume: Option<real>, fadeIn: Option<real>, clock: real)
      modifies this
      ensures currentBeat == old(currentBeat) && startTime == old(startTime)
      ensures log == old(log) + [MusicChangeCue(old(currentBeat), track, clock - old(startTime),
                                          Default(volume, DefaultMusicVolume), fadeIn)]
    {
      var v := Default(volume, DefaultMusicVolume);
      log := log + [Cue(currentBeat, Music, track, Now(clock), Some(v), fadeIn)];
    }

    /** A snapshot of the log. A `seq` is a value: later emits, which assign a
        new sequence to `log`, cannot change a snapshot already handed out. */
    method GetCueLog() returns (snapshot: seq<Cue>)
      ensures snapshot == log
    {
      snapshot := log;
    }

    method Reset()
      modifies this
      ensures log == [] && currentBeat == 0
      ensures startTime == old(startTime)
    {
      log := [];
      currentBeat := 0;
    }
  }

  /** A snapshot taken before an emit is a prefix of the log after it, and the
      snapshot itself is left as it was. */
  method SnapshotSurvivesEmit(e: AudioCueEmitter, clip: string, clock: real) returns (before: seq<Cue>, after: seq<Cue>)
    modifies e
    ensures |after| == |before| + 1 && after[..|before|] == before
    ensures before == old(e.log)
  {
    before := e.GetCueLog();
    e.EmitSfx(clip, None, None, clock);
    after := e.GetCueLog();
  }
}
