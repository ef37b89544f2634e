# ramayana-engine playback core, modelled in Dafny

This project models the playback engine of ramayana-engine. That engine is a
browser renderer: it plays an episode script (scenes, beats and beat actions)
while a recorder captures the screen. The engine also produces a log of
timestamped audio cues (narration marks, sound effects, music changes), and a
downstream muxer uses that log to position the audio clips.

Module by module:

- `Timelines`: `Timeline.ts`, the sequencer. `Play` walks every scene and every beat and keeps a global beat counter. For each beat it records a narration mark, dispatches the beat's actions, and waits until the actions have settled and the beat's duration has passed.
- `Scenes`: `SceneManager.ts`. `LoadScene` loads a scene and `ExecuteAction` interprets a beat action.
- `Cameras`, `Characters`, `Transitions`, `Props`, `AudioCues`: The objects those two drive: the camera, the character sprites, the transition overlay, the prop registry and the cue recorder.
- `ControlSurfaces`: The page-level control surface of `main.ts`.
- `Models`: The episode schema of `pipeline/models.py`: field defaults, the one-scene minimum, and the scene-major flattening of beats. The renderer reads the raw document and never applies these defaults (see "## Left out").

Each file keeps the form of its source. Objects whose fields change in place
are classes with `modifies` clauses: camera, sprite, overlay, registry,
recorder, scene manager, timeline and control surface. Their loops carry the
invariants they need. The schema helpers are pure functions with lemmas.

Time is an explicit input. A `Timelines.Clock` supplies three things:
- the reading taken when play starts;
- the time each scene's background takes to load;
- how late each beat's rendezvous resolves.

A tween or timer settles at its target after its duration. `Math.random` is
a value chosen nondeterministically in [0, 1).

`Timelines.Session` is a left fold over scenes and beats. It is the
specification of one play: the cues appended, the beats played, and when each
beat starts and settles. `Timeline.Play` is proved to append exactly
`Session(...).cues` and to end in `Session`'s state. `TimelineProperties`
then proves the following about `Session`:
- every beat is played once, in scene-major order;
- beat `g` gets one narration mark, tagged `g` and clipped `beat_g`, which
  lines up with entry `g` of `all_narration_texts`;
- its duration is `beatDurations[g] || 2000`;
- the next beat never starts before the previous rendezvous;
- mark timestamps never decrease;
- the cue count is the number of beats, plus the `sfx` and `music_change`
  actions, plus the scenes with music.

## Where the code and its description differ

The model follows the code in each of these cases:
- `shake` takes `Math.floor(duration / 50)` steps (renderer/src/engine/Camera.ts:57). A negative duration gives no step.
- `flash` ends on a black overlay at opacity 0, not on the white fill it flashed (renderer/src/engine/TransitionFX.ts:62).
- `loadScene` emits a music cue when the scene has music (renderer/src/engine/SceneManager.ts:126-128). The session's cue count includes those cues.
- `loadScene` never clears the prop registry. Props from earlier scenes stay registered (renderer/src/engine/SceneManager.ts:95-97, 117-120), so the registry only grows (`Scenes.PlacePropsKeys`).
- A scene's music cue carries the recorder's current-beat tag at load time. That is the last beat of the previous scene, or the tag before play for the first scene. It is not the scene's own first beat, because the mark that sets the tag is emitted after the load (renderer/src/engine/Timeline.ts:38, 51).
- Every `||` fallback also replaces an explicit 0: a duration of 0 becomes 2000 ms, and a volume of 0 becomes the default volume. Default parameters of the recorder keep an explicit 0 (`JsValues.ZeroKeptOnlyByDefault`).

## Model

| member | source | states |
|---|---|---|
| `JsValues.Or` | renderer/src/engine/SceneManager.ts:170-171 | `v \|\| fallback` on a number: the value when present and non-zero, else the fallback |
| `JsValues.StringOr` | renderer/src/engine/SceneManager.ts:107 | `s \|\| fallback` on a string: a missing or empty string yields the fallback |
| `JsValues.Default` | renderer/src/engine/AudioCueEmitter.ts:43 | a default parameter replaces only a missing value |
| `JsValues.ZeroKeptOnlyByDefault` | renderer/src/engine/SceneManager.ts:195-196 | 0 survives a default parameter but is replaced by `\|\|` |
| `JsValues.DecimalString` | renderer/src/engine/AudioCueEmitter.ts:37 | the rendering of an index is non-empty, all digits, with no leading zero |
| `JsValues.DecimalRoundTrip` | renderer/src/engine/AudioCueEmitter.ts:37 | reading the rendered digits back gives the index |
| `JsValues.DecimalInjective` | renderer/src/engine/AudioCueEmitter.ts:37 | distinct indices render differently |
| `Tweens.Max` | renderer/src/engine/Timeline.ts:59-62 | the rendezvous of two waits is at least each of them and equals one of them |
| `Tweens.Settle` | renderer/src/engine/Timeline.ts:71-73 | a timer or tween settles after its duration, at once when that is not positive |
| `Tweens.LerpBetween` | renderer/src/engine/TransitionFX.ts:23-28 | a tween stays between its two end values, starting at the first and ending at the second |
| `Models.NewCameraState` | pipeline/models.py:33-36 | a missing camera field takes 0, 0 or 1.0, and given fields are kept |
| `Models.NewMusicCue` | pipeline/models.py:27-30 | volume defaults to 0.5; fade-in stays absent unless given |
| `Models.NewCharacterPlacement` | pipeline/models.py:39-44 | state defaults to "idle", flip to false, ref to absent |
| `Models.NewPropPlacement` | pipeline/models.py:47-50 | scale defaults to 1.0 |
| `Models.NewBeat` | pipeline/models.py:59-61 | narration defaults to "" and actions to none |
| `Models.NewScene` | pipeline/models.py:64-71 | music stays absent unless given; camera defaults to (0, 0, 1.0); character, prop and beat lists default to empty, and a scene without beats adds nothing to the flattened beat list |
| `Models.NewEpisodeScript` | pipeline/models.py:74-77 | a script is accepted exactly when it has at least one scene, and keeps its scenes |
| `Models.AllBeatsSnoc` | pipeline/models.py:79-81 | one more scene appends exactly that scene's beats |
| `Models.AllBeatsAppend` | pipeline/models.py:79-81 | flattening distributes over concatenation of scene lists |
| `Models.AllBeatsLength` | pipeline/models.py:79-81 | the flattened list is as long as the per-scene beat counts added up |
| `Models.AllBeatsAt` | pipeline/models.py:79-81 | beat `j` of scene `i` sits at index offset(i) + j |
| `Models.AllBeatsLocate` | pipeline/models.py:79-81 | every index of the flattened list comes from some (scene, beat) position |
| `Models.AllNarrationTexts` | pipeline/models.py:83-85 | one text per flattened beat; entry `g` is beat `g`'s narration |
| `AudioCues.NarrationClip` | renderer/src/engine/AudioCueEmitter.ts:37 | a narration clip name is longer than its "beat_" prefix |
| `AudioCues.NarrationClipSpellsIndex` | renderer/src/engine/AudioCueEmitter.ts:37 | the clip name is "beat_" followed by digits that read back as the beat index |
| `AudioCues.NarrationClipInjective` | renderer/src/engine/AudioCueEmitter.ts:37 | two marks share a clip name only if they mark the same beat |
| `AudioCues.AudioCueEmitter.constructor` | renderer/src/engine/AudioCueEmitter.ts:19-21 | empty log, origin 0, current beat 0 |
| `AudioCues.AudioCueEmitter.SetStartTime` | renderer/src/engine/AudioCueEmitter.ts:23-25 | sets the origin and leaves the log and beat tag alone |
| `AudioCues.AudioCueEmitter.Now` | renderer/src/engine/AudioCueEmitter.ts:27-29 | elapsed time plus origin is the clock reading |
| `AudioCues.AudioCueEmitter.EmitNarrationMark` | renderer/src/engine/AudioCueEmitter.ts:32-40 | sets the beat tag to the index and appends exactly one mark {index, narration_mark, "beat_i", t} |
| `AudioCues.AudioCueEmitter.EmitSfx` | renderer/src/engine/AudioCueEmitter.ts:43-52 | appends one cue tagged with the current beat, at elapsed time plus delay (default 0), with volume (default 1.0) |
| `AudioCues.AudioCueEmitter.EmitMusic` | renderer/src/engine/AudioCueEmitter.ts:55-65 | appends one cue tagged with the current beat, at elapsed time, with volume (default 0.5) and fade-in as given |
| `AudioCues.AudioCueEmitter.GetCueLog` | renderer/src/engine/AudioCueEmitter.ts:68-70 | the snapshot equals the log |
| `AudioCues.AudioCueEmitter.Reset` | renderer/src/engine/AudioCueEmitter.ts:73-76 | empties the log and zeroes the beat tag; the origin is untouched |
| `AudioCues.SnapshotSurvivesEmit` | renderer/src/engine/AudioCueEmitter.ts:68-70 | a snapshot taken before an emit is unchanged by it and is a prefix of the later log |
| `Cameras.TransformOf` | renderer/src/engine/Camera.ts:75-83 | the stage scale is the zoom |
| `Cameras.CentreIsFixed` | renderer/src/engine/Camera.ts:75-83 | for any zoom the viewport centre (960, 540) shows world point (x+960, y+540), the only such point when zoom is not 0 |
| `Cameras.ShakeSteps` | renderer/src/engine/Camera.ts:57 | the step count is floor(duration / 50), 0 below one step |
| `Cameras.Jitter` | renderer/src/engine/Camera.ts:60-61 | a jitter offset lies in [-intensity, intensity) for a positive intensity |
| `Cameras.PanZoomCommute` | renderer/src/engine/Camera.ts:27-51 | a pan writes only the position and a zoom only the zoom, so their order does not matter |
| `Cameras.Camera.constructor` | renderer/src/engine/Camera.ts:10-16 | starts at pose (0, 0, 1.0) over an untransformed stage |
| `Cameras.Camera.ApplyTransform` | renderer/src/engine/Camera.ts:75-83 | the stage now shows the pose, which is unchanged |
| `Cameras.Camera.SetImmediate` | renderer/src/engine/Camera.ts:19-24 | sets the pose exactly and applies it to the stage |
| `Cameras.Camera.PanTo` | renderer/src/engine/Camera.ts:27-38 | settles at the target position with the zoom unchanged, after the duration |
| `Cameras.Camera.ZoomTo` | renderer/src/engine/Camera.ts:41-51 | settles at the target zoom with the position unchanged, after the duration |
| `Cameras.Camera.Shake` | renderer/src/engine/Camera.ts:54-73 | floor(duration/50) jittered stage positions, each the pose offset within the intensity; the pose is never written and the stage ends on it |
| `Characters.DrawingOf` | renderer/src/engine/CharacterSprite.ts:42-48 | a known id is drawn in its pose; any other id gets the placeholder |
| `Characters.CharacterSprite.constructor` | renderer/src/engine/CharacterSprite.ts:19-35 | a new sprite is idle, at the origin, unflipped and undrawn |
| `Characters.CharacterSprite.Redraw` | renderer/src/engine/CharacterSprite.ts:42-51 | records one drawing of the current pose; nothing else changes |
| `Characters.CharacterSprite.Load` | renderer/src/engine/CharacterSprite.ts:37-40 | draws the sprite once in its current pose |
| `Characters.CharacterSprite.SetPosition` | renderer/src/engine/CharacterSprite.ts:57-59 | moves the sprite; pose, flip and drawings unchanged |
| `Characters.CharacterSprite.SetState` | renderer/src/engine/CharacterSprite.ts:61-66 | the same pose changes nothing; a new pose is taken and drawn exactly once |
| `Characters.CharacterSprite.SetFlip` | renderer/src/engine/CharacterSprite.ts:68-70 | horizontal scale -1 or 1; pose and position untouched |
| `Characters.CharacterSprite.MoveTo` | renderer/src/engine/CharacterSprite.ts:72-89 | ends at the target in the pose held before the call, having drawn "walking" and then that pose (nothing when it was already walking) |
| `Transitions.TweenAlphaInRange` | renderer/src/engine/TransitionFX.ts:33-43 | every opacity a tween shows between two in-range keyframes is in [0, 1] |
| `Transitions.TransitionFX.constructor` | renderer/src/engine/TransitionFX.ts:11-18 | the overlay starts black at opacity 0 |
| `Transitions.TransitionFX.Paint` | renderer/src/engine/TransitionFX.ts:46-51 | sets fill and opacity and records them as a keyframe, keeping every keyframe in [0, 1] |
| `Transitions.TransitionFX.FadeOut` | renderer/src/engine/TransitionFX.ts:21-30 | settles at opacity 1 with the fill unchanged |
| `Transitions.TransitionFX.FadeIn` | renderer/src/engine/TransitionFX.ts:33-43 | forces opacity 1 whatever it was, then settles at 0 |
| `Transitions.TransitionFX.Flash` | renderer/src/engine/TransitionFX.ts:46-67 | white at 1, fades to 0, then a black fill at opacity 0 |
| `Props.AddThenRemove` | renderer/src/engine/PropManager.ts:64-70 | adding a new id and removing it gives back the registry |
| `Props.PropManager.constructor` | renderer/src/engine/PropManager.ts:9-13 | the registry starts empty |
| `Props.PropManager.AddProp` | renderer/src/engine/PropManager.ts:15-62 | the id maps to the given position and scale (default 1.0), replacing any entry; other keys unchanged |
| `Props.PropManager.RemoveProp` | renderer/src/engine/PropManager.ts:64-70 | removes exactly that key; an absent id changes nothing |
| `Props.PropManager.Clear` | renderer/src/engine/PropManager.ts:72-77 | the registry is empty |
| `Scenes.RendererId` | renderer/src/engine/SceneManager.ts:107 | a placement is drawn as its ref, or its id when ref is missing or empty |
| `Scenes.PlacedKeys` | renderer/src/engine/SceneManager.ts:106-115 | the registry built from placements is keyed by exactly the placement ids |
| `Scenes.PlacedLast` | renderer/src/engine/SceneManager.ts:114 | an id's sprite comes from the last placement using that id |
| `Scenes.PlacePropsKeys` | renderer/src/engine/SceneManager.ts:117-120 | placing props keeps every prop already registered and adds the placed ids |
| `Scenes.SceneMusicCues` | renderer/src/engine/SceneManager.ts:126-128 | one music cue exactly when the scene has music, with its track, volume, fade-in, the current tag and the elapsed time |
| `Scenes.ActionCues` | renderer/src/engine/SceneManager.ts:192-206 | `sfx` and `music_change` append one cue each, every other tag none |
| `Scenes.ActionCueFields` | renderer/src/engine/SceneManager.ts:192-206 | the appended cue is tagged with the current beat and carries the clip and the parameters after `\|\|` fallbacks |
| `Scenes.ActionSettle` | renderer/src/engine/SceneManager.ts:152-211 | an action's settle time is never negative |
| `Scenes.InertActions` | renderer/src/engine/SceneManager.ts:175-211 | an unknown tag or an unregistered character changes no pose, sprite, drawing or cue and takes no time |
| `Scenes.FalsyParametersTakeDefaults` | renderer/src/engine/SceneManager.ts:168-206 | missing and 0 parameters both yield shake 5/300, sfx 0/1.0, music 0.5/1000 |
| `Scenes.TransitionKeyframes` | renderer/src/engine/SceneManager.ts:91-135 | a scene change ends forced to full coverage then clear, with one fade-out before only when leaving a scene |
| `Scenes.SceneManager.GetScenes` | renderer/src/engine/SceneManager.ts:80-82 | the document's scenes, or none when it has no scene list |
| `Scenes.SceneManager.constructor` | renderer/src/engine/SceneManager.ts:55-72 | no scene loaded, empty registries, camera at (0, 0, 1), clear black overlay |
| `Scenes.SceneManager.GetCharacter` | renderer/src/engine/SceneManager.ts:144-146 | the sprite registered under an id, absent exactly when unregistered |
| `Scenes.SceneManager.LoadScene` | renderer/src/engine/SceneManager.ts:84-138 | out of range: nothing changes; else registry keys are the placement ids with fresh sprites, props added, camera set, scene index set, music cue emitted, fade-out only after the first scene and fade-in 1000/500 ms |
| `Scenes.SceneManager.StageScene` | renderer/src/engine/SceneManager.ts:95-128 | rebuilds registry, props, camera and music cue for the scene |
| `Scenes.SceneManager.Spawn` | renderer/src/engine/SceneManager.ts:106-113 | a new sprite with the placement's renderer id, position and pose, mirrored only when flip is set |
| `Scenes.SceneManager.PlaceCharacters` | renderer/src/engine/SceneManager.ts:105-115 | one fresh, distinct sprite per placement id, each showing its last placement |
| `Scenes.SceneManager.PlacePropsOnStage` | renderer/src/engine/SceneManager.ts:117-120 | adds the scene's props in order |
| `Scenes.SceneManager.DirectCharacter` | renderer/src/engine/SceneManager.ts:175-190 | a registered character changes pose or walks, and draws as `RedrawEffect` says; every other sprite's view and drawings are unchanged, and an unregistered id is ignored |
| `Scenes.SceneManager.ExecuteAction` | renderer/src/engine/SceneManager.ts:152-211 | the camera, the sprites' views and drawings and the cue log change as the action's tag says (`CameraEffect`, `SpriteEffect`, `RedrawEffect`, `ActionCues`) and in no other way; returns its settle time |
| `Timelines.BeatDuration` | renderer/src/engine/Timeline.ts:42 | `beatDurations[g]` when present and non-zero, else 2000 |
| `Timelines.BeatSettle` | renderer/src/engine/Timeline.ts:59-62 | a beat's actions settle at a non-negative time |
| `Timelines.BeatSettleIsLatest` | renderer/src/engine/Timeline.ts:59-62 | no action settles after the beat does, and unless it settles at once some action settles exactly then |
| `Timelines.ActionsCues` | renderer/src/engine/Timeline.ts:54-56 | a beat's actions append one cue per emitting action |
| `Timelines.ActionsCuesUnmarked` | renderer/src/engine/Timeline.ts:54-56 | no action cue is a narration mark; all carry the beat's tag |
| `Timelines.Timeline.constructor` | renderer/src/engine/Timeline.ts:18-21 | holds the given scene manager and recorder, origin 0 |
| `Timelines.Timeline.Play` | renderer/src/engine/Timeline.ts:27-69 | the origin is the start reading for timeline and recorder before any cue; every scene is loaded once, in order; the log, tag, scene index, beat count and final clock are those of `Session` |
| `Timelines.Timeline.PlaySceneAt` | renderer/src/engine/Timeline.ts:34-66 | loads one scene and plays its beats, advancing as `PlayScene` |
| `Timelines.Timeline.LoadAt` | renderer/src/engine/Timeline.ts:37-38 | loads one scene, advancing as `LoadStep`, with only fresh sprites registered |
| `Timelines.Timeline.PlayLoadedBeats` | renderer/src/engine/Timeline.ts:41-65 | plays a loaded scene's beats in order, advancing as `PlayBeats` |
| `Timelines.Timeline.AdvanceBeat` | renderer/src/engine/Timeline.ts:41-64 | plays one beat with the duration picked by the global counter, advancing as `BeatStep` |
| `Timelines.Timeline.PlayBeat` | renderer/src/engine/Timeline.ts:49-62 | the mark for the beat comes first, then its actions' cues; the next reading is start + max(settle, duration) + overrun |
| `Timelines.Timeline.DispatchAll` | renderer/src/engine/Timeline.ts:53-60 | dispatches every action at the same instant; appends their cues in order and returns when the last settles |
| `Timelines.Timeline.DispatchNext` | renderer/src/engine/Timeline.ts:54-56 | dispatching one more action extends the cues and the settle maximum by that action |
| `TimelineProperties.MarkSchedule` | renderer/src/engine/Timeline.ts:50-51 | one scheduled mark per played beat |
| `TimelineProperties.RunsAppended` | renderer/src/engine/Timeline.ts:59-64 | a beat started now and awaited to its rendezvous keeps the played beats ordered |
| `TimelineProperties.MarkAppended` | renderer/src/engine/Timeline.ts:50-56 | a mark for the next index followed by action cues extends the mark schedule by exactly that beat |
| `TimelineProperties.LoadStepConsistent` | renderer/src/engine/Timeline.ts:38 | loading a scene adds no mark and no played beat |
| `TimelineProperties.LoadStepOrdered` | renderer/src/engine/Timeline.ts:38 | loading a scene only moves the clock forward |
| `TimelineProperties.BeatStepConsistent` | renderer/src/engine/Timeline.ts:50-64 | a beat adds one played beat and exactly one mark with its global index |
| `TimelineProperties.BeatStepOrdered` | renderer/src/engine/Timeline.ts:59-62 | the clock after a beat is past its rendezvous |
| `TimelineProperties.PlayBeatsConsistent` | renderer/src/engine/Timeline.ts:41-65 | a scene's beats are played in order, each marked once with its global index |
| `TimelineProperties.PlayBeatsCount` | renderer/src/engine/Timeline.ts:41-65 | a scene's beats append one mark each plus their emitting actions' cues |
| `TimelineProperties.PlayBeatsOrdered` | renderer/src/engine/Timeline.ts:41-65 | beats within a scene start no earlier than the previous rendezvous |
| `TimelineProperties.PlayScenesConsistent` | renderer/src/engine/Timeline.ts:34-66 | the scenes' beats are played in scene-major order, each marked once |
| `TimelineProperties.PlayScenesCount` | renderer/src/engine/Timeline.ts:34-66 | cues = beats + emitting actions + scenes with music, over the first k scenes |
| `TimelineProperties.PlayScenesOrdered` | renderer/src/engine/Timeline.ts:34-66 | ordering holds across scene boundaries |
| `TimelineProperties.SessionConsistent` | renderer/src/engine/Timeline.ts:27-69 | a whole session plays `all_beats` and marks each beat once with its index |
| `TimelineProperties.SessionPlaysEveryBeat` | renderer/src/engine/Timeline.ts:32-64 | the counter ends at the total beat count; beat `g` of the session is `all_beats[g]` and lasts `BeatDuration(ds, g)` |
| `TimelineProperties.SessionMarksEachBeatOnce` | renderer/src/engine/Timeline.ts:50-51 | the session's marks are one per beat, in order, tagged 0, 1, 2, … and stamped with the beat's start from the origin |
| `TimelineProperties.SessionCueCount` | renderer/src/engine/Timeline.ts:34-64 | the session's cue count is beats + `sfx`/`music_change` actions + scenes with music |
| `TimelineProperties.SessionRendezvous` | renderer/src/engine/Timeline.ts:59-62 | with a monotone clock each beat starts no earlier than start + max(settle, duration) of the previous, and mark times never decrease |
| `TimelineProperties.NarrationLinesUp` | pipeline/models.py:83-85 | mark `g` is clip `beat_g` and belongs to the beat whose narration is `all_narration_texts[g]` |
| `ControlSurfaces.ControlSurface.constructor` | renderer/src/main.ts:32-35 | no durations, nothing attached, an empty recorder, and the completion flag false before any playback |
| `ControlSurfaces.ControlSurface.Attach` | renderer/src/main.ts:62-66 | installs a scene manager and a timeline that share this page's recorder |
| `ControlSurfaces.ControlSurface.SetBeatDurations` | renderer/src/main.ts:73-76 | replaces the stored durations wholesale; nothing else changes |
| `ControlSurfaces.ControlSurface.StartPlayback` | renderer/src/main.ts:78-87 | uninitialised: fails with "Engine not initialized" and leaves the page, the recorder, the scene manager, its camera, overlay, props and sprites unchanged; else writes the flag false, plays the session with the stored durations, then writes it true |
| `ControlSurfaces.ControlSurface.GetAudioCueLog` | renderer/src/main.ts:91-93 | returns the recorder's log |

## Left out

- Pixel drawing: the character and prop artwork, the background layers (`Background.ts`), the Pixi display list (`addChild`, `removeChildren`), sprite `destroy`, and textures. A redraw is recorded as the drawing it would show. The per-character routines under `art/characters` are not part of this model. `Characters.KnownCharacter` stands for "has a drawing routine".
- Loading a background is reduced to the time it takes (`Clock.loads`).
- Easing curves. A tween is its final value plus the fact that eased progress stays in [0, 1] (`Tweens.LerpBetween`, `Transitions.TweenAlphaInRange`).
- Real scheduling. `performance.now`, `setTimeout` and `Promise.all` are replaced by the `Clock` input and the max-rendezvous rule.
- The interleaving of a beat's actions. All of them are dispatched in order at the beat's start instant, and the time spent between statements is zero. Three consequences:
  - When two actions of one beat tween the same camera field or the same sprite, the model keeps the effect of the later-declared action. The source keeps the effect of whichever tween settles last.
  - A `character_move` followed by a `character_state` on the same character in one beat ends in the state action's pose in the model. In the source, the state action runs at once, and the move's completion handler later restores the pose held before the move (renderer/src/engine/CharacterSprite.ts:74, 84). The sprite therefore ends in the pre-move pose.
  - A `camera_shake` that outlasts a shorter `camera_pan` in the same beat restores the x/y it saved before the pan settled (renderer/src/engine/Camera.ts:55-56, 70-72), which undoes the pan. The model applies both actions' final effects in declaration order and does not capture this.
  - The fade-in after a scene load has no overrun in `Timelines.LoadStep`. A scene's first beat therefore starts exactly `FadeInTime` after the moment the scene is staged and its music cue is stamped.
- JavaScript values outside the schema: NaN, Infinity, and fields of the wrong JSON type. Pan, zoom and move actions always carry their `to` and `duration` in the model.
  - In the source, a `camera_pan` or `character_move` without `to` throws when it reads `target.x` (renderer/src/engine/Camera.ts:30, renderer/src/engine/CharacterSprite.ts:79). For a move, the sprite has already switched to "walking" by then (renderer/src/engine/CharacterSprite.ts:75).
  - That error rejects the beat's `Promise.all` (renderer/src/engine/Timeline.ts:59-62), so `play` aborts and `playbackComplete` never becomes true (renderer/src/main.ts:84-85).
  - A missing `duration` reaches GSAP as `NaN`, through `duration / 1000` (renderer/src/engine/Camera.ts:32, 45; renderer/src/engine/CharacterSprite.ts:81).
  - A `camera_zoom` takes its target from the action's `to` (renderer/src/engine/SceneManager.ts:163), so a zoom without `to` reaches GSAP as `zoom: undefined` (renderer/src/engine/Camera.ts:44).
  - The model has no aborted play.
- The schema defaults in the renderer. The recorder opens the renderer on the original script file (pipeline/recorder.py:48), and the renderer fetches the raw JSON (renderer/src/main.ts:54-55). The defaults of pipeline/models.py:27-71 are never applied on that path.
  - A script that the schema accepts only through its defaults throws in the renderer when it leaves out any of these:
    - a scene's `characters_on_stage` (renderer/src/engine/SceneManager.ts:106);
    - a scene's `props_on_stage` (renderer/src/engine/SceneManager.ts:118);
    - a scene's `camera` (renderer/src/engine/SceneManager.ts:123);
    - a scene's `beats` (renderer/src/engine/Timeline.ts:41);
    - a beat's `narration` (renderer/src/engine/Timeline.ts:46);
    - a beat's `actions` (renderer/src/engine/Timeline.ts:54).
  - Each of these throws aborts `play`, and `playbackComplete` stays false.
  - A placement without `state` reaches `setState` as `undefined` (renderer/src/engine/SceneManager.ts:111), not "idle".
  - The renderer's input is typed with every field present. `Timelines.Session`, `TimelineProperties.NarrationLinesUp` and the rest of the timeline properties therefore describe documents that write out every one of these fields.
  - The `Models.New*` functions state the schema's defaults as the pipeline sees them, not what the renderer does with an omitted field.
- JavaScript numbers are IEEE doubles. The model uses exact `real` arithmetic everywhere, so it does not capture rounding:
  - the division and floor in `Cameras.ShakeSteps`;
  - the jitter product in `Cameras.Jitter`;
  - the clock differences that stamp cues;
  - the sums that advance the clock.
- The free-form `BeatAction` record is a tagged union. An unrecognised tag is kept as `Unrecognized`.
- Console logging and the unknown-tag warning.
- `init` in `main.ts` (canvas boot and `fetch` of the script), `SceneManager.preloadAssets` (an empty stub), and the `getCamera`/`getTransitionFX` getters. `ControlSurfaces.ControlSurface.Attach` stands for the two assignments `init` ends with.
- The pipeline's I/O stages (CLI, TTS, recorder, mixer, assembler, script parsing). Also the fields and defaults of `EpisodeMeta`, `Resolution` and `NarrationConfig`, and the free-form `assets` dictionary of `EpisodeScript` (pipeline/models.py:76), which no engine behaviour depends on. `Models.EpisodeScript` keeps an id and a title in place of the metadata record.
- `Timelines.Timeline.Play`: the final camera pose and sprite views are stated per action by `Scenes.SceneManager.ExecuteAction`. They are not folded into `Session`, which tracks cues, counters, timing and played beats.
- `Scenes.SceneManager.Spawn`: states the sprite's view (renderer id, position, pose, flip), not the drawings it records while being set up.
- `Scenes.ActionCues`: its own ensures gives the cue count only. The cue fields are stated by `Scenes.ActionCueFields`.
- `Scenes.ActionSettle`: its own ensures gives non-negativity only. How long each action takes is visible in `Scenes.SceneManager.ExecuteAction`, which returns the settle time of the action it ran.
- `AudioCues.NarrationClip`: its own ensures gives the length only. The "beat_" + digits format is stated by `AudioCues.NarrationClipSpellsIndex`.
- `Cameras.TransformOf`: its own ensures gives the scale only. The position is characterised by `Cameras.CentreIsFixed`.
- `Timelines.BeatSettle`: its own ensures gives non-negativity only. `Timelines.BeatSettleIsLatest` states that it is the latest action settle time.
- `TimelineProperties.MarkSchedule`: its own ensures gives the length only. The schedule's entries are stated by `TimelineProperties.SessionMarksEachBeatOnce`.
- `ControlSurfaces.ControlSurface.StartPlayback`: "false while play runs" is recorded as the ghost history of flag writes (false, then true after play returns). No one can observe the page between the two writes in a sequential model.
