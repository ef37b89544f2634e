/**
 * The control surface the recording harness drives the page through: it
 * hands over the per-beat durations, starts playback, polls the completion
 * flag and reads back the audio cue log. Booting the canvas and fetching the
 * episode are outside the model; `Attach` stands for the two assignments at
 * the end of that boot sequence.
 */
module ControlSurfaces {
  import opened Wrappers
  import AC = AudioCues
  import opened Scenes
  import opened Timelines

  const NotInitialized: string := "Engine not initialized"

  class ControlSurface {
    var beatDurations: seq<real>
    var sceneManager: SceneManager?
    var timeline: Timeline?
    /** The single recorder shared by the scene manager and the timeline. */
    const emitter: AC.AudioCueEmitter
    var playbackComplete: bool
    /** Every value written to `playbackComplete`, in order. */
    ghost var completionWrites: seq<bool>

    ghost predicate Valid()
      reads this, timeline, sceneManager
      reads if sceneManager == null then {} else {sceneManager.camera, sceneManager.fx}
    {
      && (sceneManager != null ==> sceneManager.emitter == emitter && sceneManager.Valid())
      && (timeline != null ==> timeline.sceneManager == sceneManager && timeline.emitter == emitter && timeline.Valid())
      && |completionWrites| > 0
      && playbackComplete == completionWrites[|completionWrites| - 1]
    }

    /** The page as loaded: no durations yet, nothing attached, the flag down,
        and an empty recorder. */
    constructor ()
      ensures Valid()
      ensures beatDurations == [] && sceneManager == null && timeline == null
      ensures !playbackComplete && completionWrites == [false]
      ensures fresh(emitter) && emitter.log == [] && emitter.currentBeat == 0
    {
      beatDurations := [];
      sceneManager := null;
      timeline := null;
      emitter := new AC.AudioCueEmitter();
      playbackComplete := false;
      completionWrites := [false];
    }

    /** Installs the scene manager and the timeline built over it and over this
        page's recorder. */
    method Attach(sm: SceneManager, tl: Timeline)
      requires Valid()
      requires sm.emitter == emitter && tl.sceneManager == sm && tl.emitter == emitter && tl.Valid()
      modifies this
      ensures Valid()
      ensures sceneManager == sm && timeline == tl
      ensures beatDurations == old(beatDurations) && playbackComplete == old(playbackComplete)
      ensures completionWrites == old(completionWrites)
    {
      sceneManager := sm;
      timeline := tl;
    }

    /** Replaces the stored durations wholesale; nothing else changes. */
    method SetBeatDurations(durations: seq<real>)
      requires Valid()
      modifies this
      ensures Valid()
      ensures beatDurations == durations
      ensures sceneManager == old(sceneManager) && timeline == old(timeline)
      ensures playbackComplete == old(playbackComplete) && completionWrites == old(completionWrites)
    {
      beatDurations := durations;
    }

    /** Plays the episode with the stored durations. Without a timeline or a
        scene manager it fails with "Engine not initialized" and changes
        nothing; otherwise it lowers the completion flag, plays the whole
        session, and raises the flag only once the play has returned. */
    method StartPlayback(clock: Clock) returns (r: Result<(), string>)
      requires Valid()
      modifies this, emitter
      modifies if timeline == null then {} else {timeline}
      modifies if sceneManager == null then {}
               else {sceneManager, sceneManager.camera, sceneManager.fx, sceneManager.propManager}
      modifies if sceneManager == null then {} else sceneManager.characters.Values
      ensures Valid()
      ensures sceneManager == old(sceneManager) && timeline == old(timeline)
      ensures beatDurations == old(beatDurations)
      ensures old(timeline == null || sceneManager == null) ==>
                && r == Failure(NotInitialized)
                // a timeline is only ever attached over a scene manager
                && timeline == null
                && playbackComplete == old(playbackComplete)
                && completionWrites == old(completionWrites)
                && unchanged(this, emitter)
                && (sceneManager != null ==>
                      && unchanged(sceneManager, sceneManager.camera, sceneManager.fx, sceneManager.propManager)
                      && forall id | id in sceneManager.characters :: unchanged(sceneManager.characters[id]))
      ensures old(timeline != null && sceneManager != null) ==>
                && r.Success?
                && playbackComplete
                && completionWrites == old(completionWrites) + [false, true]
                && emitter.startTime == clock.start
                && var run := Session(sceneManager.GetScenes(), beatDurations, clock,
                                      old(emitter.currentBeat), old(sceneManager.currentSceneIndex));
                   && emitter.log == old(emitter.log) + run.cues
                   && emitter.currentBeat == run.tag
                   && sceneManager.currentSceneIndex == run.sceneIndex
    {
      if timeline == null || sceneManager == null {
        return Failure(NotInitialized);
      }
      playbackComplete := false;
      completionWrites := completionWrites + [false];
      var _, _ := timeline.Play(beatDurations, clock);
      playbackComplete := true;
      completionWrites := completionWrites + [true];
      r := Success(());
    }

    /** The recorder's log as it stands. */
    method GetAudioCueLog() returns (cues: seq<AC.Cue>)
      ensures cues == emitter.log
    {
      cues := emitter.GetCueLog();
    }
  }
}
