/**
 * What a play session guarantees, stated about `Session`, the specification
 * that `Timeline.Play` is proved against: every beat is played once, scene by
 * scene in order; each gets one narration mark with its global index; each
 * beat's duration is picked by that index; the next beat starts no earlier
 * than the rendezvous of the previous one; and the cue count is the number of
 * beats plus the emitting actions plus the scenes with music.
 */
module TimelineProperties {
  import opened Tweens
  import opened Models
  import AC = AudioCues
  import opened Scenes
  import opened Timelines

  /** The narration marks of a cue log, in log order. */
  function MarksOf(cues: seq<AC.Cue>): seq<AC.Cue>
    decreases |cues|
  {
    if cues == [] then []
    else MarksOf(cues[..|cues| - 1])
         + (if cues[|cues| - 1].cueType == AC.NarrationMark then [cues[|cues| - 1]] else [])
  }

  /** The marks a list of played beats calls for: beat `g` marked with index
      `g` at its start, measured from `origin`. */
  function MarkSchedule(runs: seq<BeatRun>, origin: real): (marks: seq<AC.Cue>)
    ensures |marks| == |runs|
  {
    seq(|runs|, g requires 0 <= g < |runs| => AC.MarkCue(g, runs[g].start - origin))
  }

  /** The beats a list of runs played, in order. */
  function RunBeats(runs: seq<BeatRun>): (beats: seq<Beat>)
    ensures |beats| == |runs|
  {
    seq(|runs|, g requires 0 <= g < |runs| => runs[g].beat)
  }

  /** The number of emitting actions over a list of beats. */
  function EmitTotal(beats: seq<Beat>): nat
    decreases |beats|
  {
    if beats == [] then 0 else EmitTotal(beats[..|beats| - 1]) + EmittingCount(beats[|beats| - 1].actions)
  }

  /** The number of scenes with music. */
  function MusicCount(scenes: seq<Scene>): nat
    decreases |scenes|
  {
    if scenes == [] then 0 else MusicCount(scenes[..|scenes| - 1]) + (if scenes[|scenes| - 1].music.Some? then 1 else 0)
  }

  lemma {:induction false} MarksOfAppend(a: seq<AC.Cue>, b: seq<AC.Cue>)
    ensures MarksOf(a + b) == MarksOf(a) + MarksOf(b)
    decreases |b|
  {
    if b == [] {
      assert a + b == a;
    } else {
      var init := b[..|b| - 1];
      MarksOfAppend(a, init);
      assert (a + b)[..|a + b| - 1] == a + init;
    }
  }

  lemma {:induction false} NoMarks(cues: seq<AC.Cue>)
    requires forall k :: 0 <= k < |cues| ==> cues[k].cueType != AC.NarrationMark
    ensures MarksOf(cues) == []
    decreases |cues|
  {
    if cues != [] {
      NoMarks(cues[..|cues| - 1]);
    }
  }

  lemma {:induction false} EmitTotalAppend(a: seq<Beat>, b: seq<Beat>)
    ensures EmitTotal(a + b) == EmitTotal(a) + EmitTotal(b)
    decreases |b|
  {
    if b == [] {
      assert a + b == a;
    } else {
      var init := b[..|b| - 1];
      EmitTotalAppend(a, init);
      assert (a + b)[..|a + b| - 1] == a + init;
    }
  }

  /** The bookkeeping a session keeps: one run per counted beat, one mark per
      run with its index and start time, and each run's duration picked by its
      global index. */
  ghost predicate Consistent(p: Progress, ds: seq<real>, origin: real)
  {
    && |p.runs| == p.beatIndex
    && MarksOf(p.cues) == MarkSchedule(p.runs, origin)
    && (forall g :: 0 <= g < |p.runs| ==> p.runs[g].duration == BeatDuration(ds, g))
  }

  /** The timing a session keeps: each beat starts no earlier than the previous
      beat's rendezvous, starts never run backwards, and the clock is past the
      last rendezvous. */
  ghost predicate Ordered(p: Progress)
  {
    OrderedRuns(p.runs, p.now)
  }

  ghost predicate OrderedRuns(runs: seq<BeatRun>, now: real)
  {
    && (forall g :: 0 <= g < |runs| - 1 ==>
          runs[g].start + Max(runs[g].settle, runs[g].duration) <= runs[g + 1].start)
    && (forall g, h :: 0 <= g <= h < |runs| ==> runs[g].start <= runs[h].start)
    && (forall g :: 0 <= g < |runs| ==> runs[g].start <= now)
    && (|runs| > 0 ==> runs[|runs| - 1].start + Max(runs[|runs| - 1].settle, runs[|runs| - 1].duration) <= now)
  }

  /** A run that starts now and whose rendezvous is reached by `later` keeps the
      runs ordered. */
  lemma RunsAppended(runs: seq<BeatRun>, now: real, r: BeatRun, later: real)
    requires OrderedRuns(runs, now)
    requires r.start == now && r.settle >= 0.0 && r.start + Max(r.settle, r.duration) <= later
    ensures OrderedRuns(runs + [r], later)
  {
    var s := runs + [r];
    assert now <= later;
    forall g | 0 <= g < |s| - 1
      ensures s[g].start + Max(s[g].settle, s[g].duration) <= s[g + 1].start
    {
      if g < |runs| - 1 {
        assert s[g] == runs[g] && s[g + 1] == runs[g + 1];
      }
    }
    forall g, h | 0 <= g <= h < |s|
      ensures s[g].start <= s[h].start
    {
      if h < |runs| {
        assert s[g] == runs[g] && s[h] == runs[h];
      } else if g < |runs| {
        assert s[g] == runs[g];
      }
    }
  }

  /** Waiting keeps the runs ordered. */
  lemma RunsWait(runs: seq<BeatRun>, now: real, later: real)
    requires OrderedRuns(runs, now) && now <= later
    ensures OrderedRuns(runs, later)
  {
  }

  lemma MarkScheduleSnoc(runs: seq<BeatRun>, r: BeatRun, origin: real)
    ensures MarkSchedule(runs + [r], origin) == MarkSchedule(runs, origin) + [AC.MarkCue(|runs|, r.start - origin)]
  {
  }

  lemma MarksOfMark(mark: AC.Cue, acted: seq<AC.Cue>)
    requires mark.cueType == AC.NarrationMark
    requires forall k :: 0 <= k < |acted| ==> acted[k].cueType != AC.NarrationMark
    ensures MarksOf([mark] + acted) == [mark]
  {
    NoMarks(acted);
    MarksOfAppend([mark], acted);
    assert [mark][..0] == [];
  }

  /** Appending a beat's mark, for the next index, and cues that are not marks
      extends the mark schedule by that beat. */
  lemma MarkAppended(cues: seq<AC.Cue>, runs: seq<BeatRun>, origin: real, r: BeatRun, acted: seq<AC.Cue>)
    requires MarksOf(cues) == MarkSchedule(runs, origin)
    requires forall k :: 0 <= k < |acted| ==> acted[k].cueType != AC.NarrationMark
    ensures MarksOf(cues + ([AC.MarkCue(|runs|, r.start - origin)] + acted)) == MarkSchedule(runs + [r], origin)
  {
    var mark := AC.MarkCue(|runs|, r.start - origin);
    MarksOfMark(mark, acted);
    MarksOfAppend(cues, [mark] + acted);
    MarkScheduleSnoc(runs, r, origin);
  }

  /** Loading a scene adds no mark and no run. */
  lemma LoadStepConsistent(p: Progress, scene: Scene, index: nat, ds: seq<real>, clock: Clock)
    requires Consistent(p, ds, clock.start)
    ensures var q := LoadStep(p, scene, index, clock);
            Consistent(q, ds, clock.start) && q.runs == p.runs
  {
    var music := SceneMusicCues(scene.music, p.tag,
                   StagedAt(p.now, LoadStall(clock, index), p.sceneIndex == -1) - clock.start);
    MarksOfAppend(p.cues, music);
    NoMarks(music);
  }

  /** Loading a scene only moves the clock forward. */
  lemma LoadStepOrdered(p: Progress, scene: Scene, index: nat, clock: Clock)
    requires Monotone(clock) && Ordered(p)
    ensures Ordered(LoadStep(p, scene, index, clock))
  {
    var q := LoadStep(p, scene, index, clock);
    assert LoadStall(clock, index) >= 0.0;
    RunsWait(p.runs, p.now, q.now);
  }

  /** Playing a beat adds one run, starting at the current clock, and exactly
      one mark, carrying the beat's global index. */
  lemma BeatStepConsistent(p: Progress, scene: Scene, beat: Beat, ds: seq<real>, clock: Clock)
    requires Consistent(p, ds, clock.start)
    ensures var q := BeatStep(p, scene, beat, ds, clock);
            Consistent(q, ds, clock.start) && RunBeats(q.runs) == RunBeats(p.runs) + [beat]
  {
    var q := BeatStep(p, scene, beat, ds, clock);
    var at := p.now - clock.start;
    ActionsCuesUnmarked(beat.actions, p.beatIndex, at);
    MarkAppended(p.cues, p.runs, clock.start, q.runs[|p.runs|], ActionsCues(beat.actions, p.beatIndex, at));
    assert RunBeats(q.runs) == RunBeats(p.runs) + [beat];
  }

  /** Playing a beat moves the clock to no earlier than its rendezvous. */
  lemma BeatStepOrdered(p: Progress, scene: Scene, beat: Beat, ds: seq<real>, clock: Clock)
    requires Monotone(clock) && Ordered(p)
    ensures Ordered(BeatStep(p, scene, beat, ds, clock))
  {
    var q := BeatStep(p, scene, beat, ds, clock);
    assert Overrun(clock, p.beatIndex) >= 0.0;
    var settle := BeatSettle(beat.actions, PlacementIds(scene.characters));
    var r := BeatRun(beat, p.now, settle, BeatDuration(ds, p.beatIndex));
    RunsAppended(p.runs, p.now, r, q.now);
  }

  /** `base` followed by the first `j` elements of `s`, one element at a time. */
  lemma ExtendPrefix<T>(x: seq<T>, y: seq<T>, base: seq<T>, s: seq<T>, j: nat)
    requires 0 < j <= |s|
    requires y == base + s[..j - 1]
    requires x == y + [s[j - 1]]
    ensures x == base + s[..j]
  {
    assert s[..j] == s[..j - 1] + [s[j - 1]];
  }

  lemma PlayBeatsStepConsistent(p: Progress, scene: Scene, j: nat, ds: seq<real>, clock: Clock)
    requires 0 < j <= |scene.beats|
    requires Consistent(PlayBeats(p, scene, j - 1, ds, clock), ds, clock.start)
    requires RunBeats(PlayBeats(p, scene, j - 1, ds, clock).runs) == RunBeats(p.runs) + scene.beats[..j - 1]
    ensures Consistent(PlayBeats(p, scene, j, ds, clock), ds, clock.start)
    ensures RunBeats(PlayBeats(p, scene, j, ds, clock).runs) == RunBeats(p.runs) + scene.beats[..j]
  {
    var r := PlayBeats(p, scene, j - 1, ds, clock);
    BeatStepConsistent(r, scene, scene.beats[j - 1], ds, clock);
    ExtendPrefix(RunBeats(PlayBeats(p, scene, j, ds, clock).runs), RunBeats(r.runs), RunBeats(p.runs), scene.beats, j);
  }

  lemma {:induction false} PlayBeatsConsistent(p: Progress, scene: Scene, j: nat, ds: seq<real>, clock: Clock)
    requires j <= |scene.beats|
    requires Consistent(p, ds, clock.start)
    ensures Consistent(PlayBeats(p, scene, j, ds, clock), ds, clock.start)
    ensures RunBeats(PlayBeats(p, scene, j, ds, clock).runs) == RunBeats(p.runs) + scene.beats[..j]
    decreases j
  {
    if j == 0 {
      assert scene.beats[..0] == [];
    } else {
      PlayBeatsConsistent(p, scene, j - 1, ds, clock);
      PlayBeatsStepConsistent(p, scene, j, ds, clock);
    }
  }

  lemma EmitTotalSnoc(beats: seq<Beat>, j: nat)
    requires 0 < j <= |beats|
    ensures EmitTotal(beats[..j]) == EmitTotal(beats[..j - 1]) + EmittingCount(beats[j - 1].actions)
  {
    assert beats[..j][..j - 1] == beats[..j - 1];
  }

  lemma PlayBeatsStepCount(p: Progress, scene: Scene, j: nat, ds: seq<real>, clock: Clock)
    requires 0 < j <= |scene.beats|
    requires |PlayBeats(p, scene, j - 1, ds, clock).cues| == |p.cues| + (j - 1) + EmitTotal(scene.beats[..j - 1])
    ensures |PlayBeats(p, scene, j, ds, clock).cues| == |p.cues| + j + EmitTotal(scene.beats[..j])
  {
    EmitTotalSnoc(scene.beats, j);
  }

  lemma {:induction false} PlayBeatsCount(p: Progress, scene: Scene, j: nat, ds: seq<real>, clock: Clock)
    requires j <= |scene.beats|
    ensures |PlayBeats(p, scene, j, ds, clock).cues| == |p.cues| + j + EmitTotal(scene.beats[..j])
    decreases j
  {
    if j > 0 {
      PlayBeatsCount(p, scene, j - 1, ds, clock);
      PlayBeatsStepCount(p, scene, j, ds, clock);
    }
  }

  lemma PlayBeatsStepOrdered(p: Progress, scene: Scene, j: nat, ds: seq<real>, clock: Clock)
    requires 0 < j <= |scene.beats|
    requires Monotone(clock) && Ordered(PlayBeats(p, scene, j - 1, ds, clock))
    ensures Ordered(PlayBeats(p, scene, j, ds, clock))
  {
    BeatStepOrdered(PlayBeats(p, scene, j - 1, ds, clock), scene, scene.beats[j - 1], ds, clock);
  }

  lemma {:induction false} PlayBeatsOrdered(p: Progress, scene: Scene, j: nat, ds: seq<real>, clock: Clock)
    requires j <= |scene.beats|
    requires Monotone(clock) && Ordered(p)
    ensures Ordered(PlayBeats(p, scene, j, ds, clock))
    decreases j
  {
    if j > 0 {
      PlayBeatsOrdered(p, scene, j - 1, ds, clock);
      PlayBeatsStepOrdered(p, scene, j, ds, clock);
    }
  }

  /** Appending `b` after `base + a` gives `base + c` when `c` is `a + b`. */
  lemma AppendStep<T>(x: seq<T>, y: seq<T>, base: seq<T>, a: seq<T>, b: seq<T>, c: seq<T>)
    requires y == base + a && x == y + b && c == a + b
    ensures x == base + c
  {
  }

  lemma PlayScenesStepConsistent(p: Progress, scenes: seq<Scene>, k: nat, ds: seq<real>, clock: Clock)
    requires 0 < k <= |scenes|
    requires Consistent(PlayScenes(p, scenes, k - 1, ds, clock), ds, clock.start)
    requires RunBeats(PlayScenes(p, scenes, k - 1, ds, clock).runs) == RunBeats(p.runs) + AllBeats(scenes[..k - 1])
    ensures Consistent(PlayScenes(p, scenes, k, ds, clock), ds, clock.start)
    ensures RunBeats(PlayScenes(p, scenes, k, ds, clock).runs) == RunBeats(p.runs) + AllBeats(scenes[..k])
  {
    var r := PlayScenes(p, scenes, k - 1, ds, clock);
    var scene := scenes[k - 1];
    var loaded := LoadStep(r, scene, k - 1, clock);
    LoadStepConsistent(r, scene, k - 1, ds, clock);
    PlayBeatsConsistent(loaded, scene, |scene.beats|, ds, clock);
    assert scene.beats[..|scene.beats|] == scene.beats;
    AllBeatsSnoc(scenes, k - 1);
    AppendStep(RunBeats(PlayScenes(p, scenes, k, ds, clock).runs), RunBeats(r.runs), RunBeats(p.runs),
               AllBeats(scenes[..k - 1]), scene.beats, AllBeats(scenes[..k]));
  }

  lemma {:induction false} PlayScenesConsistent(p: Progress, scenes: seq<Scene>, k: nat, ds: seq<real>, clock: Clock)
    requires k <= |scenes|
    requires Consistent(p, ds, clock.start)
    ensures Consistent(PlayScenes(p, scenes, k, ds, clock), ds, clock.start)
    ensures RunBeats(PlayScenes(p, scenes, k, ds, clock).runs) == RunBeats(p.runs) + AllBeats(scenes[..k])
    decreases k
  {
    if k == 0 {
      assert scenes[..0] == [];
    } else {
      PlayScenesConsistent(p, scenes, k - 1, ds, clock);
      PlayScenesStepConsistent(p, scenes, k, ds, clock);
    }
  }

  /** The totals over the first `k` scenes, one scene at a time. */
  lemma SceneTotalsSnoc(scenes: seq<Scene>, k: nat)
    requires 0 < k <= |scenes|
    ensures |AllBeats(scenes[..k])| == |AllBeats(scenes[..k - 1])| + |scenes[k - 1].beats|
    ensures EmitTotal(AllBeats(scenes[..k])) == EmitTotal(AllBeats(scenes[..k - 1])) + EmitTotal(scenes[k - 1].beats)
    ensures MusicCount(scenes[..k]) == MusicCount(scenes[..k - 1]) + (if scenes[k - 1].music.Some? then 1 else 0)
  {
    AllBeatsSnoc(scenes, k - 1);
    EmitTotalAppend(AllBeats(scenes[..k - 1]), scenes[k - 1].beats);
    assert scenes[..k][..k - 1] == scenes[..k - 1];
  }

  lemma PlayScenesStepCount(p: Progress, scenes: seq<Scene>, k: nat, ds: seq<real>, clock: Clock)
    requires 0 < k <= |scenes|
    requires |PlayScenes(p, scenes, k - 1, ds, clock).cues|
             == |p.cues| + |AllBeats(scenes[..k - 1])| + EmitTotal(AllBeats(scenes[..k - 1])) + MusicCount(scenes[..k - 1])
    ensures |PlayScenes(p, scenes, k, ds, clock).cues|
            == |p.cues| + |AllBeats(scenes[..k])| + EmitTotal(AllBeats(scenes[..k])) + MusicCount(scenes[..k])
  {
    var r := PlayScenes(p, scenes, k - 1, ds, clock);
    var scene := scenes[k - 1];
    PlayBeatsCount(LoadStep(r, scene, k - 1, clock), scene, |scene.beats|, ds, clock);
    assert scene.beats[..|scene.beats|] == scene.beats;
    SceneTotalsSnoc(scenes, k);
  }

  lemma {:induction false} PlayScenesCount(p: Progress, scenes: seq<Scene>, k: nat, ds: seq<real>, clock: Clock)
    requires k <= |scenes|
    ensures |PlayScenes(p, scenes, k, ds, clock).cues|
            == |p.cues| + |AllBeats(scenes[..k])| + EmitTotal(AllBeats(scenes[..k])) + MusicCount(scenes[..k])
    decreases k
  {
    if k == 0 {
      assert scenes[..0] == [];
    } else {
      PlayScenesCount(p, scenes, k - 1, ds, clock);
      PlayScenesStepCount(p, scenes, k, ds, clock);
    }
  }

  lemma PlayScenesStepOrdered(p: Progress, scenes: seq<Scene>, k: nat, ds: seq<real>, clock: Clock)
    requires 0 < k <= |scenes|
    requires Monotone(clock) && Ordered(PlayScenes(p, scenes, k - 1, ds, clock))
    ensures Ordered(PlayScenes(p, scenes, k, ds, clock))
  {
    var r := PlayScenes(p, scenes, k - 1, ds, clock);
    LoadStepOrdered(r, scenes[k - 1], k - 1, clock);
    PlayBeatsOrdered(LoadStep(r, scenes[k - 1], k - 1, clock), scenes[k - 1], |scenes[k - 1].beats|, ds, clock);
  }

  lemma {:induction false} PlayScenesOrdered(p: Progress, scenes: seq<Scene>, k: nat, ds: seq<real>, clock: Clock)
    requires k <= |scenes|
    requires Monotone(clock) && Ordered(p)
    ensures Ordered(PlayScenes(p, scenes, k, ds, clock))
    decreases k
  {
    if k > 0 {
      PlayScenesOrdered(p, scenes, k - 1, ds, clock);
      PlayScenesStepOrdered(p, scenes, k, ds, clock);
    }
  }

  lemma SessionConsistent(scenes: seq<Scene>, ds: seq<real>, clock: Clock, tag: int, sceneIndex: int)
    ensures var q := Session(scenes, ds, clock, tag, sceneIndex);
            Consistent(q, ds, clock.start) && RunBeats(q.runs) == AllBeats(scenes)
  {
    var p := Initial(clock, tag, sceneIndex);
    assert MarksOf(p.cues) == [] == MarkSchedule(p.runs, clock.start);
    PlayScenesConsistent(p, scenes, |scenes|, ds, clock);
    assert scenes[..|scenes|] == scenes;
    AppendStep(RunBeats(Session(scenes, ds, clock, tag, sceneIndex).runs), RunBeats(p.runs), [], [], AllBeats(scenes), AllBeats(scenes));
  }

  /** The global beat index runs scene-major through every beat: the session
      plays exactly the flattened beat list, in order, and ends with the counter
      at the total number of beats; beat `g` lasts `BeatDuration(ds, g)`. */
  lemma SessionPlaysEveryBeat(scenes: seq<Scene>, ds: seq<real>, clock: Clock, tag: int, sceneIndex: int)
    ensures var q := Session(scenes, ds, clock, tag, sceneIndex);
            && q.beatIndex == |AllBeats(scenes)| == |q.runs|
            && (forall g :: 0 <= g < |q.runs| ==> q.runs[g].beat == AllBeats(scenes)[g])
            && (forall g :: 0 <= g < |q.runs| ==> q.runs[g].duration == BeatDuration(ds, g))
  {
    SessionConsistent(scenes, ds, clock, tag, sceneIndex);
    var q := Session(scenes, ds, clock, tag, sceneIndex);
    forall g | 0 <= g < |q.runs|
      ensures q.runs[g].beat == AllBeats(scenes)[g]
    {
      assert RunBeats(q.runs)[g] == q.runs[g].beat;
    }
  }

  /** Each beat gets exactly one narration mark: the marks of the session log,
      in order, are one per beat, tagged 0, 1, 2, … and stamped with the beat's
      start measured from the session origin. */
  lemma SessionMarksEachBeatOnce(scenes: seq<Scene>, ds: seq<real>, clock: Clock, tag: int, sceneIndex: int)
    ensures var q := Session(scenes, ds, clock, tag, sceneIndex);
            && |MarksOf(q.cues)| == |AllBeats(scenes)| == |q.runs|
            && forall g :: 0 <= g < |MarksOf(q.cues)| ==>
                 MarksOf(q.cues)[g] == AC.MarkCue(g, q.runs[g].start - clock.start)
  {
    SessionConsistent(scenes, ds, clock, tag, sceneIndex);
  }

  /** The cue count of a session is the number of beats plus the number of
      `sfx` and `music_change` actions plus the number of scenes with music. */
  lemma SessionCueCount(scenes: seq<Scene>, ds: seq<real>, clock: Clock, tag: int, sceneIndex: int)
    ensures |Session(scenes, ds, clock, tag, sceneIndex).cues|
            == |AllBeats(scenes)| + EmitTotal(AllBeats(scenes)) + MusicCount(scenes)
  {
    PlayScenesCount(Initial(clock, tag, sceneIndex), scenes, |scenes|, ds, clock);
    assert scenes[..|scenes|] == scenes;
  }

  /** Marks scheduled from starts that never decrease have timestamps that
      never decrease. */
  lemma MarkTimesFollowStarts(runs: seq<BeatRun>, origin: real)
    requires forall g, h :: 0 <= g <= h < |runs| ==> runs[g].start <= runs[h].start
    ensures forall g, h :: 0 <= g <= h < |runs| ==>
              MarkSchedule(runs, origin)[g].wallClockMs <= MarkSchedule(runs, origin)[h].wallClockMs
  {
  }

  /** With a clock whose delays are never negative, each beat starts no earlier
      than the previous beat's start plus the larger of its settle time and its
      duration, and narration-mark timestamps never decrease. */
  lemma SessionRendezvous(scenes: seq<Scene>, ds: seq<real>, clock: Clock, tag: int, sceneIndex: int)
    requires Monotone(clock)
    ensures var q := Session(scenes, ds, clock, tag, sceneIndex);
            && (forall g :: 0 <= g < |q.runs| - 1 ==>
                  q.runs[g].start + Max(q.runs[g].settle, q.runs[g].duration) <= q.runs[g + 1].start)
            && (forall g, h :: 0 <= g <= h < |MarksOf(q.cues)| ==>
                  MarksOf(q.cues)[g].wallClockMs <= MarksOf(q.cues)[h].wallClockMs)
  {
    SessionConsistent(scenes, ds, clock, tag, sceneIndex);
    PlayScenesOrdered(Initial(clock, tag, sceneIndex), scenes, |scenes|, ds, clock);
    MarkTimesFollowStarts(Session(scenes, ds, clock, tag, sceneIndex).runs, clock.start);
  }

  /** Narration lines up with the beats: mark `g` names clip `beat_g` and is the
      mark of the beat whose narration is entry `g` of `AllNarrationTexts`. */
  lemma NarrationLinesUp(scenes: seq<Scene>, ds: seq<real>, clock: Clock, tag: int, sceneIndex: int)
    ensures var q := Session(scenes, ds, clock, tag, sceneIndex);
            && |MarksOf(q.cues)| == |AllNarrationTexts(scenes)| == |q.runs|
            && forall g :: 0 <= g < |MarksOf(q.cues)| ==>
                 MarksOf(q.cues)[g].clip == AC.NarrationClip(g)
                 && q.runs[g].beat.narration == AllNarrationTexts(scenes)[g]
  {
    SessionPlaysEveryBeat(scenes, ds, clock, tag, sceneIndex);
    SessionMarksEachBeatOnce(scenes, ds, clock, tag, sceneIndex);
  }
}
