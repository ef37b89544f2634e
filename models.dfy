/**
 * The episode script: scenes, beats and actions, with the field defaults the
 * script schema fills in, and the scene-major flattening of beats that lines
 * narration durations up with the renderer's global beat index.
 */
module Models {
  import opened Wrappers
  import opened JsValues

  datatype Point = Point(x: real, y: real)

  datatype CameraState = CameraState(x: real, y: real, zoom: real)

  datatype MusicCue = MusicCue(track: string, volume: real, fadeIn: Option<real>)

  datatype CharacterPlacement = CharacterPlacement(
    id: string,          // unique placement id within the scene
    ref: Option<string>, // character archetype; the placement id when absent
    position: Point,
    state: string,
    flip: bool)

  datatype PropPlacement = PropPlacement(id: string, position: Point, scale: Option<real>)

  /** A beat action: one of the seven recognised tags with its parameters, or an
      unrecognised tag, which is valid but inert. Optional parameters are `Option`s. */
  datatype Action =
    | CameraPan(to: Point, duration: real)
    | CameraZoom(zoom: real, duration: real)
    | CameraShake(intensity: Option<real>, shakeDuration: Option<real>)
    | CharacterState(character: string, state: string)
    | CharacterMove(character: string, to: Point, duration: real)
    | Sfx(clip: string, delay: Option<real>, volume: Option<real>)
    | MusicChange(track: string, volume: Option<real>, fadeIn: Option<real>)
    | Unrecognized(tag: string)

  datatype Beat = Beat(narration: string, actions: seq<Action>)

  datatype Scene = Scene(
    id: string,
    background: string,
    music: Option<MusicCue>,
    camera: CameraState,
    characters: seq<CharacterPlacement>,
    props: seq<PropPlacement>,
    beats: seq<Beat>)

  /** A validated episode script: at least one scene. */
  datatype EpisodeScript = EpisodeScript(id: string, title: string, scenes: seq<Scene>)

  // ---- Field defaults: a field that is absent from the document takes its default.

  function NewCameraState(x: Option<real>, y: Option<real>, zoom: Option<real>): (c: CameraState)
    ensures c.x == Default(x, 0.0) && c.y == Default(y, 0.0) && c.zoom == Default(zoom, 1.0)
    ensures x.None? && y.None? && zoom.None? ==> c == CameraState(0.0, 0.0, 1.0)
  {
    CameraState(Default(x, 0.0), Default(y, 0.0), Default(zoom, 1.0))
  }

  function NewMusicCue(track: string, volume: Option<real>, fadeIn: Option<real>): (m: MusicCue)
    ensures m.track == track && m.fadeIn == fadeIn
    ensures volume.None? ==> m.volume == 0.5
    ensures volume.Some? ==> m.volume == volume.value
  {
    MusicCue(track, Default(volume, 0.5), fadeIn)
  }

  function NewCharacterPlacement(id: string, ref: Option<string>, position: Point,
                                 state: Option<string>, flip: Option<bool>): (p: CharacterPlacement)
    ensures p.id == id && p.ref == ref && p.position == position
    ensures state.None? ==> p.state == "idle"
    ensures state.Some? ==> p.state == state.value
    ensures p.flip <==> flip == Some(true)
  {
    CharacterPlacement(id, ref, position, Default(state, "idle"), Default(flip, false))
  }

  function NewPropPlacement(id: string, position: Point, scale: Option<real>): (p: PropPlacement)
    ensures p.id == id && p.position == position
    ensures p.scale == Some(Default(scale, 1.0))
  {
    PropPlacement(id, position, Some(Default(scale, 1.0)))
  }

  function NewBeat(narration: Option<string>, actions: Option<seq<Action>>): (b: Beat)
    ensures narration.None? ==> b.narration == ""
    ensures narration.Some? ==> b.narration == narration.value
    ensures actions.None? ==> b.actions == []
    ensures actions.Some? ==> b.actions == actions.value
  {
    Beat(Default(narration, ""), Default(actions, []))
  }

  /** A scene without music stays silent; a missing camera is the default
      camera, and missing character, prop and beat lists are empty. */
  function NewScene(id: string, background: string, music: Option<MusicCue>, camera: Option<CameraState>,
                    characters: Option<seq<CharacterPlacement>>, props: Option<seq<PropPlacement>>,
                    beats: Option<seq<Beat>>): (s: Scene)
    ensures s.id == id && s.background == background && s.music == music
    ensures camera.None? ==> s.camera == NewCameraState(None, None, None)
    ensures camera.Some? ==> s.camera == camera.value
    ensures characters.None? ==> s.characters == []
    ensures characters.Some? ==> s.characters == characters.value
    ensures props.None? ==> s.props == []
    ensures props.Some? ==> s.props == props.value
    ensures beats.None? ==> s.beats == [] && AllBeats([s]) == []
    ensures beats.Some? ==> s.beats == beats.value
  {
    Scene(id, background, music, Default(camera, NewCameraState(None, None, None)),
          Default(characters, []), Default(props, []), Default(beats, []))
  }

  /** An episode script is refused unless it has at least one scene. */
  function NewEpisodeScript(id: string, title: string, scenes: seq<Scene>): (r: Result<EpisodeScript, string>)
    ensures r.Success? <==> |scenes| >= 1
    ensures r.Success? ==> r.value.scenes == scenes
  {
    if |scenes| == 0 then Failure("scenes: at least one scene is required")
    else Success(EpisodeScript(id, title, scenes))
  }

  // ---- Flattening beats scene-major

  /** Every beat of the episode: scene order, then beat order within a scene. */
  function AllBeats(scenes: seq<Scene>): seq<Beat>
    decreases |scenes|
  {
    if scenes == [] then [] else AllBeats(scenes[..|scenes| - 1]) + scenes[|scenes| - 1].beats
  }

  /** The number of beats, counted scene by scene from the front. */
  function BeatCount(scenes: seq<Scene>): nat
    decreases |scenes|
  {
    if scenes == [] then 0 else |scenes[0].beats| + BeatCount(scenes[1..])
  }

  /** The global index of the first beat of scene `i`. */
  function BeatOffset(scenes: seq<Scene>, i: nat): nat
    requires i <= |scenes|
  {
    |AllBeats(scenes[..i])|
  }

  /** Adding a scene at the end appends exactly its beats. */
  lemma AllBeatsSnoc(scenes: seq<Scene>, k: nat)
    requires k < |scenes|
    ensures AllBeats(scenes[..k + 1]) == AllBeats(scenes[..k]) + scenes[k].beats
  {
    assert scenes[..k + 1][..k] == scenes[..k];
  }

  /** Concatenating two scene lists concatenates their beats. */
  lemma {:induction false} AllBeatsAppend(a: seq<Scene>, b: seq<Scene>)
    ensures AllBeats(a + b) == AllBeats(a) + AllBeats(b)
    decreases |b|
  {
    if b == [] {
      assert a + b == a;
    } else {
      var c := b[..|b| - 1];
      AllBeatsAppend(a, c);
      assert (a + b)[..|a + b| - 1] == a + c;
      assert b[..|b| - 1] == c;
    }
  }

  /** The flattened list is as long as the per-scene beat counts added up. */
  lemma {:induction false} AllBeatsLength(scenes: seq<Scene>)
    ensures |AllBeats(scenes)| == BeatCount(scenes)
    decreases |scenes|
  {
    if scenes != [] {
      AllBeatsAppend([scenes[0]], scenes[1..]);
      assert [scenes[0]] + scenes[1..] == scenes;
      assert [scenes[0]][..0] == [];
      AllBeatsLength(scenes[1..]);
    }
  }

  /** Beat `j` of scene `i` sits at global index BeatOffset(scenes, i) + j. */
  lemma AllBeatsAt(scenes: seq<Scene>, i: nat, j: nat)
    requires i < |scenes| && j < |scenes[i].beats|
    ensures BeatOffset(scenes, i) + j < |AllBeats(scenes)|
    ensures AllBeats(scenes)[BeatOffset(scenes, i) + j] == scenes[i].beats[j]
  {
    AllBeatsSnoc(scenes, i);
    assert scenes == scenes[..i + 1] + scenes[i + 1..];
    AllBeatsAppend(scenes[..i + 1], scenes[i + 1..]);
  }

  /** Every global index comes from some (scene, beat) pair: one
      whose block of beats contains it. */
  lemma {:induction false} AllBeatsLocate(scenes: seq<Scene>, g: nat)
    requires g < |AllBeats(scenes)|
    ensures exists i, j :: 0 <= i < |scenes| && 0 <= j < |scenes[i].beats| &&
                           g == BeatOffset(scenes, i) + j && AllBeats(scenes)[g] == scenes[i].beats[j]
    decreases |scenes|
  {
    var n := |scenes| - 1;
    var init := scenes[..n];
    assert AllBeats(scenes) == AllBeats(init) + scenes[n].beats;
    assert scenes[..n + 1] == scenes;
    if g < |AllBeats(init)| {
      AllBeatsLocate(init, g);
      var i, j :| 0 <= i < |init| && 0 <= j < |init[i].beats| &&
                  g == BeatOffset(init, i) + j && AllBeats(init)[g] == init[i].beats[j];
      assert init[..i] == scenes[..i];
      assert BeatOffset(scenes, i) == BeatOffset(init, i);
    } else {
      var j := g - |AllBeats(init)|;
      assert BeatOffset(scenes, n) == |AllBeats(init)|;
      assert AllBeats(scenes)[g] == scenes[n].beats[j];
    }
  }

  /** The narration text of every beat, in the same scene-major order. */
  function AllNarrationTexts(scenes: seq<Scene>): (texts: seq<string>)
    ensures |texts| == |AllBeats(scenes)|
    ensures forall g :: 0 <= g < |texts| ==> texts[g] == AllBeats(scenes)[g].narration
  {
    var beats := AllBeats(scenes);
    seq(|beats|, g requires 0 <= g < |beats| => beats[g].narration)
  }
}
