/**
 * A character on stage: a named pose, a position and a horizontal flip.
 * Every redraw is recorded, so that "changing the pose redraws once" and
 * "a move draws the walking pose, then the pose it started from" are
 * observable. Pixel drawing itself is not modelled.
 */
module Characters {
  import opened Models
  import opened Tweens

  const IdleState: string := "idle"
  const WalkingState: string := "walking"

  /** The character ids that have their own drawing routine. */
  predicate KnownCharacter(id: string)
  {
    id in {"rama", "sita", "janaka", "vishwamitra", "king_generic"}
  }

  /** What a redraw puts on the canvas: the character's figure in a pose, or
      the grey placeholder for an id without a drawing routine. */
  datatype Drawing = Figure(character: string, pose: string) | Placeholder

  function DrawingOf(id: string, state: string): (d: Drawing)
    ensures d.Figure? <==> KnownCharacter(id)
    ensures d.Figure? ==> d.character == id && d.pose == state
  {
    if KnownCharacter(id) then Figure(id, state) else Placeholder
  }

  class CharacterSprite {
    const id: string
    var state: string
    var position: Point
    var scaleX: real
    var redraws: seq<Drawing>

    /** A new sprite is idle, at the origin, unflipped and not yet drawn. */
    constructor (id: string)
      ensures this.id == id && state == IdleState
      ensures position == Point(0.0, 0.0) && scaleX == 1.0 && redraws == []
    {
      this.id := id;
      state := IdleState;
      position := Point(0.0, 0.0);
      scaleX := 1.0;
      redraws := [];
    }

    method Redraw()
      modifies this
      ensures redraws == old(redraws) + [DrawingOf(id, state)]
      ensures state == old(state) && position == old(position) && scaleX == old(scaleX)
    {
      redraws := redraws + [DrawingOf(id, state)];
    }

    /** Loading draws the sprite once in its current pose. */
    method Load()
      modifies this
      ensures redraws == old(redraws) + [DrawingOf(id, state)]
      ensures state == old(state) && position == old(position) && scaleX == old(scaleX)
    {
      Redraw();
    }

    method SetPosition(x: real, y: real)
      modifies this
      ensures position == Point(x, y)
      ensures state == old(state) && scaleX == old(scaleX) && redraws == old(redraws)
    {
      position := Point(x, y);
    }

    /** The same pose again changes nothing; a new pose is taken at once and
        drawn exactly once. */
    method SetState(s: string)
      modifies this
      ensures state == s
      ensures old(state) == s ==> redraws == old(redraws)
      ensures old(state) != s ==> redraws == old(redraws) + [DrawingOf(id, s)]
      ensures position == old(position) && scaleX == old(scaleX)
    {
      if state == s {
        return;
      }
      state := s;
      Redraw();
    }

    /** Mirrors the sprite; the pose and position are not touched. */
    method SetFlip(flipped: bool)
      modifies this
      ensures scaleX == if flipped then -1.0 else 1.0
      ensures state == old(state) && position == old(position) && redraws == old(redraws)
    {
      scaleX := if flipped then -1.0 else 1.0;
    }

    /** Walks to the target: the walking pose is drawn while moving, and the pose
        held just before the call is restored when the move settles, whatever
        that pose was. */
    method MoveTo(target: Point, duration: real) returns (took: real)
      modifies this
      ensures position == target
      ensures state == old(state) && scaleX == old(scaleX)
      ensures old(state) == WalkingState ==> redraws == old(redraws)
      ensures old(state) != WalkingState ==>
                redraws == old(redraws) + [DrawingOf(id, WalkingState), DrawingOf(id, old(state))]
      ensures took == Settle(duration)
    {
      var previous := state;
      SetState(WalkingState);
      position := target;
      SetState(previous);
      took := Settle(duration);
    }
  }
}
