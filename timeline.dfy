/**
 * The sequencer. `Play` walks the scenes in order, loads each one, and for
 * every beat records a narration mark, dispatches the beat's actions and
 * waits until both the actions have settled and the beat's duration has
 * passed. A global beat counter runs across scenes and picks each beat's
 * duration.
 *
 * Time is explicit: a `Clock` gives the reading taken when play starts, how
 * long each scene's background takes to load, and how late each beat's
 * rendezvous resolves past the earliest moment it could. `Session` is the
 * specification of a whole play: the cues it appends, the beats it plays
 * and when each beat starts.
 */
module Timelines {
  import opened Wrappers
  import opened JsValues
  import opened Tweens
  import opened Models
  import AC = AudioCues
  import opened Scenes

  const DefaultBeatMs: real := 2000.0

  /** The clock readings the environment supplies to one play session. */
  datatype Clock = Clock(start: real, loads: seq<real>, overruns: seq<real>)

  /** The background-load time of scene `s`. */
  function LoadStall(c: Clock, s: nat): real
  {
    if s < |c.loads| then c.loads[s] else 0.0
  }

  /** How late beat `g`'s rendezvous resolves. */
  function Overrun(c: Clock, g: nat): real
  {
    if g < |c.overruns| then c.overruns[g] else 0.0
  }

  /** A clock whose delays never run backwards. */
  ghost predicate Monotone(c: Clock)
  {
    && (forall s :: 0 <= s < |c.loads| ==> c.loads[s] >= 0.0)
    && (forall g :: 0 <= g < |c.overruns| ==> c.overruns[g] >= 0.0)
  }

  /** `beatDurations[g] || 2000`: the supplied duration when there is one and
      it is not 0, else two seconds. */
  function BeatDuration(ds: seq<real>, g: nat): (d: real)
    ensures g < |ds| && ds[g] != 0.0 ==> d == ds[g]
    ensures g >= |ds| || ds[g] == 0.0 ==> d == DefaultBeatMs
  {
    Or(if g < |ds| then Some(ds[g]) else None, DefaultBeatMs)
  }

  /** When all of a beat's actions have settled: the latest of their settle
      times, or at once when there are none. */
  function BeatSettle(actions: seq<Action>, known: set<string>): (t: real)
    ensures t >= 0.0
    decreases |actions|
  {
    if actions == [] then 0.0
    else Max(BeatSettle(actions[..|actions| - 1], known), ActionSettle(actions[|actions| - 1], known))
  }

  /** The beat settles exactly when its slowest action does: no action settles
      later, and unless the beat settles at once some action settles then. */
  lemma {:induction false} BeatSettleIsLatest(actions: seq<Action>, known: set<string>)
    ensures forall k :: 0 <= k < |actions| ==> ActionSettle(actions[k], known) <= BeatSettle(actions, known)
    ensures BeatSettle(actions, known) == 0.0
            || exists k :: 0 <= k < |actions| && BeatSettle(actions, known) == ActionSettle(actions[k], known)
    decreases |actions|
  {
    if actions != [] {
      var init := actions[..|actions| - 1];
      BeatSettleIsLatest(init, known);
      assert forall k :: 0 <= k < |init| ==> init[k] == actions[k];
    }
  }

  /** The number of `sfx` and `music_change` actions. */
  function EmittingCount(actions: seq<Action>): nat
    decreases |actions|
  {
    if actions == [] then 0
    else EmittingCount(actions[..|actions| - 1]) + (if Emits(actions[|actions| - 1]) then 1 else 0)
  }

  /** The cues a beat's actions append, in dispatch order: one per emitting
      action, none of them a narration mark. */
  function ActionsCues(actions: seq<Action>, beat: int, elapsed: real): (cues: seq<AC.Cue>)
    ensures |cues| == EmittingCount(actions)
    decreases |actions|
  {
    if actions == [] then []
    else ActionsCues(actions[..|actions| - 1], beat, elapsed) + ActionCues(actions[|actions| - 1], beat, elapsed)
  }

  lemma AppendAssoc<T>(a: seq<T>, b: seq<T>, c: seq<T>)
    ensures a + b + c == a + (b + c)
  {
  }

  /** Extending a prefix of a beat's actions by one action adds that action's
      cues and folds its settle time into the maximum. */
  lemma ActionsPrefixStep(actions: seq<Action>, k: nat, beat: int, elapsed: real, known: set<string>)
    requires k < |actions|
    ensures ActionsCues(actions[..k + 1], beat, elapsed)
            == ActionsCues(actions[..k], beat, elapsed) + ActionCues(actions[k], beat, elapsed)
    ensures BeatSettle(actions[..k + 1], known) == Max(BeatSettle(actions[..k], known), ActionSettle(actions[k], known))
  {
    var done := actions[..k + 1];
    assert done[..k] == actions[..k] && done[k] == actions[k];
  }

  /** Every cue a beat's actions append carries the beat's tag and none of them
      is a narration mark. */
  lemma {:induction false} ActionsCuesUnmarked(actions: seq<Action>, beat: int, elapsed: real)
    ensures forall k :: 0 <= k < |ActionsCues(actions, beat, elapsed)| ==>
              ActionsCues(actions, beat, elapsed)[k].cueType != AC.NarrationMark
              && ActionsCues(actions, beat, elapsed)[k].beat == beat
    decreases |actions|
  {
    if actions != [] {
      ActionsCuesUnmarked(actions[..|actions| - 1], beat, elapsed);
      ActionCueFields(actions[|actions| - 1], beat, elapsed);
    }
  }

  /** One played beat: which beat, when it started, when its actions settled
      (relative to its start) and its scheduled duration. */
  datatype BeatRun = BeatRun(beat: Beat, start: real, settle: real, duration: real)

  /** The state of a session in progress: the clock, the global beat counter,
      the recorder's current-beat tag, the current scene index, the cues
      appended so far and the beats played so far. */
  datatype Progress = Progress(
    now: real,
    beatIndex: nat,
    tag: int,
    sceneIndex: int,
    cues: seq<AC.Cue>,
    runs: seq<BeatRun>)

  /** Loading scene `index`: fade out unless it is the first load, load the
      background, emit the music cue, fade in. */
  function LoadStep(p: Progress, scene: Scene, index: nat, clock: Clock): Progress
  {
    var first := p.sceneIndex == -1;
    var staged := StagedAt(p.now, LoadStall(clock, index), first);
    p.(now := staged + FadeInTime(first),
       sceneIndex := index,
       cues := p.cues + SceneMusicCues(scene.music, p.tag, staged - clock.start))
  }

  /** Playing one beat of `scene`: a narration mark for the global index, then
      the actions' cues; the next beat starts once both the actions have settled
      and the duration has passed, plus the clock's overrun. */
  function BeatStep(p: Progress, scene: Scene, beat: Beat, ds: seq<real>, clock: Clock): Progress
  {
    var g := p.beatIndex;
    var at := p.now - clock.start;
    var settle := BeatSettle(beat.actions, PlacementIds(scene.characters));
    var d := BeatDuration(ds, g);
    Progress(p.now + Max(settle, d) + Overrun(clock, g), g + 1, g, p.sceneIndex,
             p.cues + ([AC.MarkCue(g, at)] + ActionsCues(beat.actions, g, at)),
             p.runs + [BeatRun(beat, p.now, settle, d)])
  }

  /** The first `j` beats of a loaded scene. */
  function PlayBeats(p: Progress, scene: Scene, j: nat, ds: seq<real>, clock: Clock): Progress
    requires j <= |scene.beats|
    decreases j
  {
    if j == 0 then p else BeatStep(PlayBeats(p, scene, j - 1, ds, clock), scene, scene.beats[j - 1], ds, clock)
  }

  /** Loading and playing one scene. */
  function PlayScene(p: Progress, scene: Scene, index: nat, ds: seq<real>, clock: Clock): Progress
  {
    PlayBeats(LoadStep(p, scene, index, clock), scene, |scene.beats|, ds, clock)
  }

  /** The first `k` scenes. */
  function PlayScenes(p: Progress, scenes: seq<Scene>, k: nat, ds: seq<real>, clock: Clock): Progress
    requires k <= |scenes|
    decreases k
  {
    if k == 0 then p else PlayScene(PlayScenes(p, scenes, k - 1, ds, clock), scenes[k - 1], k - 1, ds, clock)
  }

  /** Where a session starts: at the clock's start reading, beat counter 0,
      nothing appended yet. */
  function Initial(clock: Clock, tag: int, sceneIndex: int): Progress
  {
    Progress(clock.start, 0, tag, sceneIndex, [], [])
  }

  /** A whole play session over `scenes`, given the recorder's current-beat tag
      and the scene manager's scene index before it. */
  function Session(scenes: seq<Scene>, ds: seq<real>, clock: Clock, tag: int, sceneIndex: int): Progress
  {
    PlayScenes(Initial(clock, tag, sceneIndex), scenes, |scenes|, ds, clock)
  }

  function Indices(n: nat): (s: seq<int>)
    ensures |s| == n && forall i :: 0 <= i < n ==> s[i] == i
  {
    seq(n, i => i)
  }

  lemma IndicesSnoc(n: nat)
    ensures Indices(n + 1) == Indices(n) + [n]
  {
  }

  class Timeline {
    const sceneManager: SceneManager
    const emitter: AC.AudioCueEmitter
    var startTime: real

    ghost predicate Valid()
      reads this, sceneManager, sceneManager.camera, sceneManager.fx
    {
      emitter == sceneManager.emitter && sceneManager.Valid()
    }

    constructor (sceneManager: SceneManager, emitter: AC.AudioCueEmitter)
      requires emitter == sceneManager.emitter
      ensures this.sceneManager == sceneManager && this.emitter == emitter && startTime == 0.0
    {
      this.sceneManager := sceneManager;
      this.emitter := emitter;
      startTime := 0.0;
    }

    /** Plays the whole episode. The session origin is the clock's start reading,
        given to the recorder before anything is emitted; every scene is loaded
        once, in order; the cues appended, the final beat count and the final
        clock reading are those of `Session`. */
    method Play(beatDurations: seq<real>, clock: Clock) returns (played: nat, finished: real)
      requires Valid()
      modifies this, sceneManager, sceneManager.camera, sceneManager.fx, sceneManager.propManager, emitter
      modifies sceneManager.characters.Values
      ensures Valid()
      ensures startTime == clock.start && emitter.startTime == clock.start
      ensures sceneManager.loads == old(sceneManager.loads) + Indices(|sceneManager.GetScenes()|)
      ensures var run := Session(sceneManager.GetScenes(), beatDurations, clock,
                                 old(emitter.currentBeat), old(sceneManager.currentSceneIndex));
              && emitter.log == old(emitter.log) + run.cues
              && emitter.currentBeat == run.tag
              && sceneManager.currentSceneIndex == run.sceneIndex
              && played == run.beatIndex
              && finished == run.now
    {
      startTime := clock.start;
      emitter.SetStartTime(startTime);
      var scenes := sceneManager.GetScenes();
      var beatIndex := 0;
      var now := clock.start;
      ghost var log0 := emitter.log;
      ghost var loads0 := sceneManager.loads;
      ghost var p0 := Initial(clock, emitter.currentBeat, sceneManager.currentSceneIndex);
      ghost var q := p0;
      var sceneIdx := 0;
      while sceneIdx < |scenes|
        invariant 0 <= sceneIdx <= |scenes|
        invariant Valid() && startTime == clock.start && emitter.startTime == clock.start
        invariant sceneManager.loads == loads0 + Indices(sceneIdx)
        invariant forall id | id in sceneManager.characters ::
                    sceneManager.characters[id] in old(sceneManager.characters.Values) || fresh(sceneManager.characters[id])
        invariant q == PlayScenes(p0, scenes, sceneIdx, beatDurations, clock)
        invariant now == q.now && beatIndex == q.beatIndex
        invariant emitter.currentBeat == q.tag && sceneManager.currentSceneIndex == q.sceneIndex
        invariant emitter.log == log0 + q.cues
      {
        ghost var loadsBefore := sceneManager.loads;
        now, beatIndex := PlaySceneAt(sceneIdx, beatDurations, clock, now, beatIndex, q, log0);
        q := PlayScene(q, scenes[sceneIdx], sceneIdx, beatDurations, clock);
        IndicesSnoc(sceneIdx);
        AppendAssoc(loads0, Indices(sceneIdx), [sceneIdx]);
        sceneIdx := sceneIdx + 1;
      }
      played, finished := beatIndex, now;
    }

    /** Loads scene `index` and plays its beats in order, carrying the clock and
        the global beat counter; advances the session exactly as `PlayScene`. */
    method PlaySceneAt(index: nat, ds: seq<real>, clock: Clock, now: real, beatIndex: nat,
                       ghost before: Progress, ghost log0: seq<AC.Cue>)
      returns (next: real, nextBeat: nat)
      requires Valid() && index < |sceneManager.GetScenes()|
      requires startTime == clock.start && emitter.startTime == clock.start
      requires now == before.now && beatIndex == before.beatIndex
      requires emitter.currentBeat == before.tag && sceneManager.currentSceneIndex == before.sceneIndex
      requires emitter.log == log0 + before.cues
      modifies sceneManager, sceneManager.camera, sceneManager.fx, sceneManager.propManager, emitter
      modifies sceneManager.characters.Values
      ensures Valid() && emitter.startTime == clock.start
      ensures sceneManager.loads == old(sceneManager.loads) + [index]
      ensures forall id | id in sceneManager.characters :: fresh(sceneManager.characters[id])
      ensures var q := PlayScene(before, sceneManager.GetScenes()[index], index, ds, clock);
              && next == q.now && nextBeat == q.beatIndex
              && emitter.currentBeat == q.tag && sceneManager.currentSceneIndex == q.sceneIndex
              && emitter.log == log0 + q.cues
    {
      var scene := sceneManager.GetScenes()[index];
      next := LoadAt(index, clock, now, before, log0);
      next, nextBeat := PlayLoadedBeats(scene, ds, clock, next, beatIndex,
                                        LoadStep(before, scene, index, clock), log0);
    }

    /** Loads scene `index`, advancing the session by `LoadStep`; the registered
        sprites are the scene's placements, all of them new. */
    method LoadAt(index: nat, clock: Clock, now: real, ghost before: Progress, ghost log0: seq<AC.Cue>)
      returns (next: real)
      requires Valid() && index < |sceneManager.GetScenes()|
      requires startTime == clock.start && emitter.startTime == clock.start
      requires now == before.now
      requires emitter.currentBeat == before.tag && sceneManager.currentSceneIndex == before.sceneIndex
      requires emitter.log == log0 + before.cues
      modifies sceneManager, sceneManager.camera, sceneManager.fx, sceneManager.propManager, emitter
      ensures Valid() && emitter.startTime == clock.start
      ensures sceneManager.loads == old(sceneManager.loads) + [index]
      ensures sceneManager.characters.Keys == PlacementIds(sceneManager.GetScenes()[index].characters)
      ensures forall id | id in sceneManager.characters :: fresh(sceneManager.characters[id])
      ensures var q := LoadStep(before, sceneManager.GetScenes()[index], index, clock);
              && next == q.now && emitter.currentBeat == q.tag && sceneManager.currentSceneIndex == q.sceneIndex
              && emitter.log == log0 + q.cues
    {
      var scene := sceneManager.GetScenes()[index];
      next := sceneManager.LoadScene(index, now, LoadStall(clock, index));
      AppendAssoc(log0, before.cues, SceneMusicCues(scene.music, before.tag,
                  StagedAt(now, LoadStall(clock, index), before.sceneIndex == -1) - clock.start));
    }

    /** Plays every beat of the loaded `scene` in order, advancing the session by
        `PlayBeats`. */
    method PlayLoadedBeats(scene: Scene, ds: seq<real>, clock: Clock, now: real, beatIndex: nat,
                           ghost loaded: Progress, ghost log0: seq<AC.Cue>)
      returns (next: real, nextBeat: nat)
      requires Valid() && startTime == clock.start && emitter.startTime == clock.start
      requires sceneManager.characters.Keys == PlacementIds(scene.characters)
      requires now == loaded.now && beatIndex == loaded.beatIndex
      requires emitter.currentBeat == loaded.tag && sceneManager.currentSceneIndex == loaded.sceneIndex
      requires emitter.log == log0 + loaded.cues
      modifies sceneManager.camera, emitter, sceneManager.characters.Values
      ensures Valid() && emitter.startTime == clock.start
      ensures sceneManager.characters == old(sceneManager.characters)
      ensures sceneManager.loads == old(sceneManager.loads)
      ensures var q := PlayBeats(loaded, scene, |scene.beats|, ds, clock);
              && next == q.now && nextBeat == q.beatIndex
              && emitter.currentBeat == q.tag && sceneManager.currentSceneIndex == q.sceneIndex
              && emitter.log == log0 + q.cues
    {
      next, nextBeat := now, beatIndex;
      ghost var q := loaded;
      var j := 0;
      while j < |scene.beats|
        invariant 0 <= j <= |scene.beats|
        invariant Valid() && startTime == clock.start && emitter.startTime == clock.start
        invariant sceneManager.characters == old(sceneManager.characters)
        invariant sceneManager.loads == old(sceneManager.loads)
        invariant q == PlayBeats(loaded, scene, j, ds, clock)
        invariant next == q.now && nextBeat == q.beatIndex
        invariant emitter.currentBeat == q.tag && sceneManager.currentSceneIndex == q.sceneIndex
        invariant emitter.log == log0 + q.cues
      {
        next, nextBeat := AdvanceBeat(scene, j, ds, clock, next, nextBeat, q, log0);
        q := BeatStep(q, scene, scene.beats[j], ds, clock);
        j := j + 1;
      }
    }

    /** Plays beat `j` of the loaded `scene`, advancing the session by `BeatStep`. */
    method AdvanceBeat(scene: Scene, j: nat, ds: seq<real>, clock: Clock, now: real, beatIndex: nat,
                       ghost q: Progress, ghost log0: seq<AC.Cue>)
      returns (next: real, nextBeat: nat)
      requires j < |scene.beats|
      requires Valid() && startTime == clock.start && emitter.startTime == clock.start
      requires sceneManager.characters.Keys == PlacementIds(scene.characters)
      requires now == q.now && beatIndex == q.beatIndex && emitter.log == log0 + q.cues
      modifies sceneManager.camera, emitter, sceneManager.characters.Values
      ensures Valid() && emitter.startTime == clock.start
      ensures sceneManager.characters == old(sceneManager.characters)
      ensures sceneManager.currentSceneIndex == old(sceneManager.currentSceneIndex)
      ensures sceneManager.loads == old(sceneManager.loads)
      ensures var r := BeatStep(q, scene, scene.beats[j], ds, clock);
              && next == r.now && nextBeat == r.beatIndex
              && emitter.currentBeat == r.tag && emitter.log == log0 + r.cues
    {
      ghost var logMid := emitter.log;
      next := PlayBeat(scene.beats[j], beatIndex, now, BeatDuration(ds, beatIndex), Overrun(clock, beatIndex));
      ghost var added := [AC.MarkCue(q.beatIndex, q.now - clock.start)]
                         + ActionsCues(scene.beats[j].actions, q.beatIndex, q.now - clock.start);
      AppendAssoc(log0, q.cues, added);
      nextBeat := beatIndex + 1;
    }

    /** One beat: the narration mark for `beatIndex` at the beat's start, then
        every action dispatched at that instant; returns the clock reading at
        which both the actions have settled and `duration` has passed (plus the
        overrun). */
    method PlayBeat(beat: Beat, beatIndex: nat, now: real, duration: real, overrun: real) returns (next: real)
      requires Valid() && emitter.startTime == startTime
      modifies sceneManager.camera, emitter, sceneManager.characters.Values
      ensures Valid() && emitter.startTime == startTime
      ensures sceneManager.characters == old(sceneManager.characters)
      ensures sceneManager.currentSceneIndex == old(sceneManager.currentSceneIndex)
      ensures sceneManager.loads == old(sceneManager.loads)
      ensures emitter.log == old(emitter.log) + ([AC.MarkCue(beatIndex, now - startTime)]
                             + ActionsCues(beat.actions, beatIndex, now - startTime))
      ensures emitter.currentBeat == beatIndex
      ensures next == now + Max(BeatSettle(beat.actions, sceneManager.characters.Keys), duration) + overrun
    {
      ghost var log0 := emitter.log;
      emitter.EmitNarrationMark(beatIndex, now - startTime);
      ghost var marked := emitter.log;
      var settle := DispatchAll(beat.actions, now);
      assert log0 + [AC.MarkCue(beatIndex, now - startTime)] + ActionsCues(beat.actions, beatIndex, now - startTime)
          == log0 + ([AC.MarkCue(beatIndex, now - startTime)] + ActionsCues(beat.actions, beatIndex, now - startTime));
      next := now + Max(settle, duration) + overrun;
    }

    /** Dispatches `actions` in order at clock reading `now`; returns when the
        last of them settles, measured from `now`. */
    method DispatchAll(actions: seq<Action>, now: real) returns (settle: real)
      requires Valid() && emitter.startTime == startTime
      modifies sceneManager.camera, emitter, sceneManager.characters.Values
      ensures Valid() && emitter.startTime == startTime
      ensures emitter.currentBeat == old(emitter.currentBeat)
      ensures sceneManager.characters == old(sceneManager.characters)
      ensures sceneManager.currentSceneIndex == old(sceneManager.currentSceneIndex)
      ensures sceneManager.loads == old(sceneManager.loads)
      ensures emitter.log == old(emitter.log) + ActionsCues(actions, emitter.currentBeat, now - startTime)
      ensures settle == BeatSettle(actions, sceneManager.characters.Keys)
    {
      settle := 0.0;
      var k := 0;
      while k < |actions|
        invariant 0 <= k <= |actions|
        invariant Valid() && emitter.startTime == startTime && emitter.currentBeat == old(emitter.currentBeat)
        invariant sceneManager.characters == old(sceneManager.characters)
        invariant sceneManager.currentSceneIndex == old(sceneManager.currentSceneIndex)
        invariant sceneManager.loads == old(sceneManager.loads)
        invariant emitter.log == old(emitter.log) + ActionsCues(actions[..k], emitter.currentBeat, now - startTime)
        invariant settle == BeatSettle(actions[..k], sceneManager.characters.Keys)
      {
        settle := DispatchNext(actions, k, now, settle, old(emitter.log));
        k := k + 1;
      }
      assert actions[..k] == actions;
    }

    /** Dispatches `actions[k]` after the first `k` have been dispatched. */
    method DispatchNext(actions: seq<Action>, k: nat, now: real, settle: real, ghost log0: seq<AC.Cue>)
      returns (settled: real)
      requires k < |actions|
      requires Valid() && emitter.startTime == startTime
      requires emitter.log == log0 + ActionsCues(actions[..k], emitter.currentBeat, now - startTime)
      requires settle == BeatSettle(actions[..k], sceneManager.characters.Keys)
      modifies sceneManager.camera, emitter, sceneManager.characters.Values
      ensures Valid() && emitter.startTime == startTime
      ensures emitter.currentBeat == old(emitter.currentBeat)
      ensures sceneManager.characters == old(sceneManager.characters)
      ensures sceneManager.currentSceneIndex == old(sceneManager.currentSceneIndex)
      ensures sceneManager.loads == old(sceneManager.loads)
      ensures emitter.log == log0 + ActionsCues(actions[..k + 1], emitter.currentBeat, now - startTime)
      ensures settled == BeatSettle(actions[..k + 1], sceneManager.characters.Keys)
    {
      ghost var prior := ActionsCues(actions[..k], emitter.currentBeat, now - startTime);
      ghost var emitted := ActionCues(actions[k], emitter.currentBeat, now - emitter.startTime);
      ActionsPrefixStep(actions, k, emitter.currentBeat, now - startTime, sceneManager.characters.Keys);
      var took := sceneManager.ExecuteAction(actions[k], now);
      AppendAssoc(log0, prior, emitted);
      settled := Max(settle, took);
    }
  }
}
