/**
 * The scene manager: loads a scene onto the stage (transition out, rebuild the
 * character registry, place props, set the camera, emit the scene's music cue,
 * transition in) and interprets beat actions against the camera, the
 * characters and the audio cue recorder. The clock reading at which an
 * operation runs is a parameter; awaited operations return how long they took.
 */
module Scenes {
  import opened Wrappers
  import opened JsValues
  import opened Tweens
  import opened Models
  import AC = AudioCues
  import opened Cameras
  import opened Characters
  import opened Transitions
  import opened Props

  // Fallbacks applied with `||`, so that 0 counts as missing too.
  const ShakeIntensityFallback: real := 5.0
  const ShakeDurationFallback: real := 300.0
  const SfxDelayFallback: real := 0.0
  const SfxVolumeFallback: real := 1.0
  const MusicVolumeFallback: real := 0.5
  const MusicFadeInFallback: real := 1000.0

  // Scene transitions
  const FadeOutMs: real := 500.0
  const FirstFadeInMs: real := 1000.0
  const FadeInMs: real := 500.0

  /** The drawing id of a placed character: its archetype, or its placement id
      when the archetype is missing or empty. */
  function RendererId(p: CharacterPlacement): (id: string)
    ensures p.ref.Some? && p.ref.value != "" ==> id == p.ref.value
    ensures p.ref.None? || p.ref.value == "" ==> id == p.id
  {
    StringOr(p.ref, p.id)
  }

  /** What the engine can observe of a sprite apart from its redraws. */
  datatype SpriteView = SpriteView(rendererId: string, position: Point, state: string, scaleX: real)

  function ViewOf(c: CharacterSprite): SpriteView
    reads c
  {
    SpriteView(c.id, c.position, c.state, c.scaleX)
  }

  /** The sprite a placement yields: drawn as RendererId, at the placement's
      position and pose, mirrored only when `flip` is set. */
  function PlacedView(p: CharacterPlacement): SpriteView
  {
    SpriteView(RendererId(p), p.position, p.state, if p.flip then -1.0 else 1.0)
  }

  /** The registry built from a list of placements; a later placement with the
      same id replaces an earlier one. */
  function Placed(ps: seq<CharacterPlacement>): map<string, SpriteView>
    decreases |ps|
  {
    if ps == [] then map[] else Placed(ps[..|ps| - 1])[ps[|ps| - 1].id := PlacedView(ps[|ps| - 1])]
  }

  function PlacementIds(ps: seq<CharacterPlacement>): set<string>
  {
    set p | p in ps :: p.id
  }

  /** The registry is keyed by exactly the placement ids. */
  lemma {:induction false} PlacedKeys(ps: seq<CharacterPlacement>)
    ensures Placed(ps).Keys == PlacementIds(ps)
    decreases |ps|
  {
    if ps != [] {
      var init := ps[..|ps| - 1];
      PlacedKeys(init);
      assert ps == init + [ps[|ps| - 1]];
      assert PlacementIds(ps) == PlacementIds(init) + {ps[|ps| - 1].id};
    }
  }

  /** An id's entry comes from the last placement that uses that id. */
  lemma {:induction false} PlacedLast(ps: seq<CharacterPlacement>, k: nat)
    requires k < |ps|
    requires forall l :: k < l < |ps| ==> ps[l].id != ps[k].id
    ensures ps[k].id in Placed(ps) && Placed(ps)[ps[k].id] == PlacedView(ps[k])
    decreases |ps|
  {
    if k < |ps| - 1 {
      var init := ps[..|ps| - 1];
      PlacedLast(init, k);
    }
  }

  /** Props placed one after another onto an existing registry. */
  function PlaceProps(m: map<string, Prop>, ps: seq<PropPlacement>): map<string, Prop>
    decreases |ps|
  {
    if ps == [] then m
    else
      var p := ps[|ps| - 1];
      PlaceProps(m, ps[..|ps| - 1])[p.id := Prop(p.position, Default(p.scale, DefaultPropScale))]
  }

  /** Placing props never drops a prop already there: the registry only grows. */
  lemma {:induction false} PlacePropsKeys(m: map<string, Prop>, ps: seq<PropPlacement>)
    ensures PlaceProps(m, ps).Keys == m.Keys + set p | p in ps :: p.id
    decreases |ps|
  {
    if ps != [] {
      var init := ps[..|ps| - 1];
      PlacePropsKeys(m, init);
      assert ps == init + [ps[|ps| - 1]];
      assert (set p | p in ps :: p.id) == (set p | p in init :: p.id) + {ps[|ps| - 1].id};
    }
  }

  /** The music cue a scene's music directive yields, if it has one. */
  function SceneMusicCues(music: Option<MusicCue>, beat: int, elapsed: real): (cues: seq<AC.Cue>)
    ensures |cues| == if music.Some? then 1 else 0
    ensures music.Some? ==> cues[0].cueType == AC.Music && cues[0].clip == music.value.track &&
                            cues[0].volume == Some(music.value.volume) && cues[0].fadeIn == music.value.fadeIn &&
                            cues[0].beat == beat && cues[0].wallClockMs == elapsed
  {
    if music.Some? then [AC.MusicChangeCue(beat, music.value.track, elapsed, music.value.volume, music.value.fadeIn)]
    else []
  }

  /** Actions that append an audio cue. */
  predicate Emits(a: Action)
  {
    a.Sfx? || a.MusicChange?
  }

  /** The cues an action appends when processed `elapsed` ms into the session,
      during beat `beat`: one for `sfx` and `music_change`, none otherwise. */
  function ActionCues(a: Action, beat: int, elapsed: real): (cues: seq<AC.Cue>)
    ensures |cues| == if Emits(a) then 1 else 0
  {
    match a
    case Sfx(clip, delay, volume) =>
      [AC.SfxCue(beat, clip, elapsed + Or(delay, SfxDelayFallback), Or(volume, SfxVolumeFallback))]
    case MusicChange(track, volume, fadeIn) =>
      [AC.MusicChangeCue(beat, track, elapsed, Or(volume, MusicVolumeFallback), Some(Or(fadeIn, MusicFadeInFallback)))]
    case _ => []
  }

  /** The cue an emitting action appends: tagged with the current beat, never a
      narration mark, with the clip and the parameters after their fallbacks. */
  lemma ActionCueFields(a: Action, beat: int, elapsed: real)
    ensures forall k :: 0 <= k < |ActionCues(a, beat, elapsed)| ==>
              ActionCues(a, beat, elapsed)[k].cueType != AC.NarrationMark && ActionCues(a, beat, elapsed)[k].beat == beat
    ensures a.Sfx? ==> var c := ActionCues(a, beat, elapsed)[0];
              c.cueType == AC.Sfx && c.clip == a.clip &&
              c.wallClockMs == elapsed + Or(a.delay, SfxDelayFallback) &&
              c.volume == Some(Or(a.volume, SfxVolumeFallback))
    ensures a.MusicChange? ==> var c := ActionCues(a, beat, elapsed)[0];
              c.cueType == AC.Music && c.clip == a.track && c.wallClockMs == elapsed &&
              c.volume == Some(Or(a.volume, MusicVolumeFallback)) &&
              c.fadeIn == Some(Or(a.fadeIn, MusicFadeInFallback))
  {
  }

  /** The camera pose once an action has settled. */
  function CameraEffect(a: Action, p: Pose): Pose
  {
    match a
    case CameraPan(to, _) => Panned(p, to)
    case CameraZoom(zoom, _) => Zoomed(p, zoom)
    case _ => p
  }

  /** A registered sprite once an action has settled. */
  function SpriteEffect(a: Action, id: string, v: SpriteView): SpriteView
  {
    match a
    case CharacterState(c, s) => if c == id then v.(state := s) else v
    case CharacterMove(c, to, _) => if c == id then v.(position := to) else v
    case _ => v
  }

  /** The drawings a registered sprite makes while an action settles: a pose
      change draws the new pose once, a walk draws the walking pose and then
      the pose it started from, and nothing is drawn for a pose already held. */
  function RedrawEffect(a: Action, id: string, v: SpriteView): seq<Drawing>
  {
    match a
    case CharacterState(c, s) =>
      if c == id && s != v.state then [DrawingOf(v.rendererId, s)] else []
    case CharacterMove(c, _, _) =>
      if c == id && v.state != WalkingState
      then [DrawingOf(v.rendererId, WalkingState), DrawingOf(v.rendererId, v.state)]
      else []
    case _ => []
  }

  /** How long an action takes to settle, given the registered character ids. */
  function ActionSettle(a: Action, known: set<string>): (t: real)
    ensures t >= 0.0
  {
    match a
    case CameraPan(_, d) => Settle(d)
    case CameraZoom(_, d) => Settle(d)
    case CameraShake(_, d) => ShakeSteps(Or(d, ShakeDurationFallback)) as real * ShakeStepMs
    case CharacterMove(c, _, d) => if c in known then Settle(d) else 0.0
    case _ => 0.0
  }

  /** An unrecognised tag, or a character action naming an id that is not
      registered, changes no camera pose, no sprite and no cue, and takes no time. */
  lemma InertActions(a: Action, known: set<string>, p: Pose, id: string, v: SpriteView, beat: int, elapsed: real)
    requires a.Unrecognized? || ((a.CharacterState? || a.CharacterMove?) && a.character !in known)
    requires id in known
    ensures CameraEffect(a, p) == p
    ensures SpriteEffect(a, id, v) == v
    ensures RedrawEffect(a, id, v) == []
    ensures ActionCues(a, beat, elapsed) == []
    ensures ActionSettle(a, known) == 0.0
  {
  }

  /** Missing parameters and parameters given as 0 get the same defaults:
      shake 5 / 300 ms, sfx delay 0 / volume 1, music volume 0.5 / fade-in 1000 ms. */
  lemma FalsyParametersTakeDefaults(known: set<string>, clip: string, track: string, beat: int, elapsed: real)
    ensures ActionSettle(CameraShake(None, None), known) == 300.0
    ensures ActionSettle(CameraShake(Some(0.0), Some(0.0)), known) == 300.0
    ensures ActionCues(Sfx(clip, None, None), beat, elapsed)
         == ActionCues(Sfx(clip, Some(0.0), Some(0.0)), beat, elapsed)
         == [AC.SfxCue(beat, clip, elapsed, 1.0)]
    ensures ActionCues(MusicChange(track, None, None), beat, elapsed)
         == ActionCues(MusicChange(track, Some(0.0), Some(0.0)), beat, elapsed)
         == [AC.MusicChangeCue(beat, track, elapsed, 0.5, Some(1000.0))]
  {
    assert ShakeSteps(300.0) == 6 by {
      assert 300.0 / ShakeStepMs == 6.0;
    }
  }

  function FadeOutTime(first: bool): real
  {
    if first then 0.0 else Settle(FadeOutMs)
  }

  function FadeInTime(first: bool): real
  {
    Settle(if first then FirstFadeInMs else FadeInMs)
  }

  function PoseOf(c: CameraState): Pose
  {
    Pose(c.x, c.y, c.zoom)
  }

  /** The clock reading at which a scene is staged: after the fade-out (only
      when a scene was shown before) and the background load. */
  function StagedAt(clock: real, stall: real, first: bool): real
  {
    clock + FadeOutTime(first) + stall
  }

  /** The overlay keyframes of a scene change: to full coverage when leaving a
      scene, then forced to full coverage and faded to clear. */
  function TransitionKeyframes(fill: Fill, first: bool): (frames: seq<Keyframe>)
    ensures |frames| == if first then 2 else 3
    ensures frames[|frames| - 1] == Keyframe(fill, 0.0) && frames[|frames| - 2] == Keyframe(fill, 1.0)
  {
    (if first then [] else [Keyframe(fill, 1.0)]) + [Keyframe(fill, 1.0), Keyframe(fill, 0.0)]
  }

  class SceneManager {
    const episodeScenes: Option<seq<Scene>>
    const emitter: AC.AudioCueEmitter
    const camera: Camera
    const fx: TransitionFX
    const propManager: PropManager
    var characters: map<string, CharacterSprite>
    var currentSceneIndex: int
    /** Every index LoadScene was asked for, in call order. */
    ghost var loads: seq<int>

    ghost predicate Valid()
      reads this, camera, fx
    {
      && camera.Valid()
      && fx.Valid()
      && -1 <= currentSceneIndex < |GetScenes()|
      && forall i, j :: i in characters && j in characters && i != j ==> characters[i] != characters[j]
    }

    /** The episode's scenes; a document without a scene list has none. */
    function GetScenes(): (scenes: seq<Scene>)
      ensures episodeScenes.None? ==> scenes == []
      ensures episodeScenes.Some? ==> scenes == episodeScenes.value
    {
      Default(episodeScenes, [])
    }

    constructor (episodeScenes: Option<seq<Scene>>, emitter: AC.AudioCueEmitter)
      ensures this.episodeScenes == episodeScenes && this.emitter == emitter
      ensures fresh(camera) && fresh(fx) && fresh(propManager)
      ensures characters == map[] && currentSceneIndex == -1 && loads == []
      ensures camera.CurrentPose() == Pose(0.0, 0.0, 1.0)
      ensures fx.fill == Black && fx.alpha == 0.0
      ensures propManager.props == map[]
      ensures Valid()
    {
      this.episodeScenes := episodeScenes;
      this.emitter := emitter;
      camera := new Camera();
      fx := new TransitionFX();
      propManager := new PropManager();
      characters := map[];
      currentSceneIndex := -1;
      loads := [];
    }

    /** The sprite registered under placement id `id`, if any. */
    function GetCharacter(id: string): (c: Option<CharacterSprite>)
      reads this
      ensures c.Some? <==> id in characters
      ensures c.Some? ==> c.value == characters[id]
    {
      if id in characters then Some(characters[id]) else None
    }

    /** Loads scene `index`, starting at clock reading `clock`; `stall` is the
        time the background takes to load. Returns the clock reading once the
        scene has faded in. An index out of range changes nothing. */
    method LoadScene(index: int, clock: real, stall: real) returns (done: real)
      requires Valid()
      modifies this, camera, fx, propManager, emitter
      ensures Valid()
      ensures loads == old(loads) + [index]
      ensures !(0 <= index < |GetScenes()|) ==>
                && done == clock
                && currentSceneIndex == old(currentSceneIndex) && characters == old(characters)
                && unchanged(camera, fx, propManager, emitter)
      ensures 0 <= index < |GetScenes()| ==> currentSceneIndex == index
      ensures 0 <= index < |GetScenes()| ==>
                characters.Keys == Placed(GetScenes()[index].characters).Keys == PlacementIds(GetScenes()[index].characters)
      ensures 0 <= index < |GetScenes()| ==> forall id | id in characters :: fresh(characters[id])
      ensures 0 <= index < |GetScenes()| ==>
                forall id | id in characters :: ViewOf(characters[id]) == Placed(GetScenes()[index].characters)[id]
      ensures 0 <= index < |GetScenes()| ==>
                propManager.props == PlaceProps(old(propManager.props), GetScenes()[index].props)
      ensures 0 <= index < |GetScenes()| ==> camera.CurrentPose() == PoseOf(GetScenes()[index].camera)
      ensures 0 <= index < |GetScenes()| ==>
                fx.fill == old(fx.fill) && fx.alpha == 0.0 &&
                fx.keyframes == old(fx.keyframes) + TransitionKeyframes(old(fx.fill), old(currentSceneIndex) == -1)
      ensures 0 <= index < |GetScenes()| ==>
                emitter.log == old(emitter.log) +
                  SceneMusicCues(GetScenes()[index].music, old(emitter.currentBeat),
                                 StagedAt(clock, stall, old(currentSceneIndex) == -1) - old(emitter.startTime))
      ensures emitter.currentBeat == old(emitter.currentBeat) && emitter.startTime == old(emitter.startTime)
      ensures 0 <= index < |GetScenes()| ==>
                done == StagedAt(clock, stall, old(currentSceneIndex) == -1) + FadeInTime(old(currentSceneIndex) == -1)
    {
      loads := loads + [index];
      var scenes := GetScenes();
      if index < 0 || index >= |scenes| {
        return clock;
      }
      var first := currentSceneIndex == -1;
      var now := clock;
      if !first {
        var took := fx.FadeOut(FadeOutMs);
        now := now + took;
      }
      now := now + stall;
      StageScene(index, now);
      var took := fx.FadeIn(if first then FirstFadeInMs else FadeInMs);
      done := now + took;
    }

    /** Rebuilds the stage for scene `index` at clock reading `now`: character
        registry, props, camera, and the scene's music cue. */
    method StageScene(index: int, now: real)
      requires Valid() && 0 <= index < |GetScenes()|
      modifies this, camera, propManager, emitter
      ensures Valid()
      ensures loads == old(loads) && currentSceneIndex == index
      ensures characters.Keys == Placed(GetScenes()[index].characters).Keys == PlacementIds(GetScenes()[index].characters)
      ensures forall id | id in characters :: fresh(characters[id])
      ensures forall id | id in characters :: ViewOf(characters[id]) == Placed(GetScenes()[index].characters)[id]
      ensures propManager.props == PlaceProps(old(propManager.props), GetScenes()[index].props)
      ensures camera.CurrentPose() == PoseOf(GetScenes()[index].camera)
      ensures emitter.log == old(emitter.log) +
                SceneMusicCues(GetScenes()[index].music, old(emitter.currentBeat), now - old(emitter.startTime))
      ensures emitter.currentBeat == old(emitter.currentBeat) && emitter.startTime == old(emitter.startTime)
    {
      var scene := GetScenes()[index];
      characters := map[];
      currentSceneIndex := index;
      PlaceCharacters(scene.characters);
      PlacePropsOnStage(scene.props);
      camera.SetImmediate(scene.camera.x, scene.camera.y, scene.camera.zoom);
      if scene.music.Some? {
        var m := scene.music.value;
        emitter.EmitMusic(m.track, Some(m.volume), m.fadeIn, now);
      }
    }

    /** A new sprite for one placement: drawn as its renderer id, moved to its
        position, put in its pose and mirrored when the placement says so. */
    static method Spawn(p: CharacterPlacement) returns (sprite: CharacterSprite)
      ensures fresh(sprite)
      ensures ViewOf(sprite) == PlacedView(p)
    {
      sprite := new CharacterSprite(RendererId(p));
      sprite.Load();
      sprite.SetPosition(p.position.x, p.position.y);
      sprite.SetState(p.state);
      if p.flip {
        sprite.SetFlip(true);
      }
    }

    /** Registers a fresh sprite for every placement, in order. */
    method PlaceCharacters(ps: seq<CharacterPlacement>)
      requires characters == map[]
      modifies this`characters
      ensures characters.Keys == Placed(ps).Keys == PlacementIds(ps)
      ensures forall id | id in characters :: fresh(characters[id])
      ensures forall id | id in characters :: ViewOf(characters[id]) == Placed(ps)[id]
      ensures forall i, j :: i in characters && j in characters && i != j ==> characters[i] != characters[j]
    {
      var i := 0;
      while i < |ps|
        invariant 0 <= i <= |ps|
        invariant characters.Keys == Placed(ps[..i]).Keys
        invariant forall id | id in characters :: fresh(characters[id])
        invariant forall id | id in characters :: ViewOf(characters[id]) == Placed(ps[..i])[id]
        invariant forall a, b :: a in characters && b in characters && a != b ==> characters[a] != characters[b]
      {
        var p := ps[i];
        var sprite := Spawn(p);
        characters := characters[p.id := sprite];
        assert ps[..i + 1][..i] == ps[..i];
        i := i + 1;
      }
      assert ps[..i] == ps;
      PlacedKeys(ps);
    }

    method PlacePropsOnStage(ps: seq<PropPlacement>)
      modifies propManager
      ensures propManager.props == PlaceProps(old(propManager.props), ps)
    {
      var j := 0;
      while j < |ps|
        invariant 0 <= j <= |ps|
        invariant propManager.props == PlaceProps(old(propManager.props), ps[..j])
      {
        propManager.AddProp(ps[j].id, ps[j].position, ps[j].scale);
        assert ps[..j + 1][..j] == ps[..j];
        j := j + 1;
      }
      assert ps[..j] == ps;
    }

    /** A character action: the named sprite, when registered, changes pose or
        walks to the target; an unregistered id is ignored. */
    method DirectCharacter(a: Action) returns (took: real)
      requires Valid() && (a.CharacterState? || a.CharacterMove?)
      modifies characters.Values
      ensures forall id | id in characters :: ViewOf(characters[id]) == SpriteEffect(a, id, old(ViewOf(characters[id])))
      ensures forall id | id in characters ::
                characters[id].redraws == old(characters[id].redraws) + RedrawEffect(a, id, old(ViewOf(characters[id])))
      ensures took == ActionSettle(a, characters.Keys)
    {
      took := 0.0;
      if a.character in characters {
        var sprite := characters[a.character];
        if a.CharacterState? {
          sprite.SetState(a.state);
        } else {
          took := sprite.MoveTo(a.to, a.duration);
        }
      }
    }

    /** Interprets one action at clock reading `clock` and returns how long it
        takes to settle. */
    method ExecuteAction(a: Action, clock: real) returns (took: real)
      requires Valid()
      modifies camera, emitter, characters.Values
      ensures Valid()
      ensures characters == old(characters) && currentSceneIndex == old(currentSceneIndex) && loads == old(loads)
      ensures camera.CurrentPose() == CameraEffect(a, old(camera.CurrentPose()))
      ensures forall id | id in characters :: ViewOf(characters[id]) == SpriteEffect(a, id, old(ViewOf(characters[id])))
      ensures forall id | id in characters ::
                characters[id].redraws == old(characters[id].redraws) + RedrawEffect(a, id, old(ViewOf(characters[id])))
      ensures emitter.log == old(emitter.log) + ActionCues(a, old(emitter.currentBeat), clock - old(emitter.startTime))
      ensures emitter.currentBeat == old(emitter.currentBeat) && emitter.startTime == old(emitter.startTime)
      ensures took == ActionSettle(a, characters.Keys)
    {
      match a
      case CameraPan(to, d) =>
        took := camera.PanTo(to, d);
      case CameraZoom(zoom, d) =>
        took := camera.ZoomTo(zoom, d);
      case CameraShake(intensity, d) =>
        var offsets, frames;
        took, offsets, frames := camera.Shake(Or(intensity, ShakeIntensityFallback), Or(d, ShakeDurationFallback));
      case CharacterState(_, _) =>
        took := DirectCharacter(a);
      case CharacterMove(_, _, _) =>
        took := DirectCharacter(a);
      case Sfx(clip, delay, volume) =>
        emitter.EmitSfx(clip, Some(Or(delay, SfxDelayFallback)), Some(Or(volume, SfxVolumeFallback)), clock);
        took := 0.0;
      case MusicChange(track, volume, fadeIn) =>
        emitter.EmitMusic(track, Some(Or(volume, MusicVolumeFallback)), Some(Or(fadeIn, MusicFadeInFallback)), clock);
        took := 0.0;
      case Unrecognized(_) =>
        took := 0.0;
    }
  }
}
