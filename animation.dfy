/**
 * Animations: a list of frames copied out of a spritesheet, a cursor and a
 * time accumulator. Each call to Play adds the elapsed time and moves the
 * cursor on by at most one frame, wrapping to the first frame at the end.
 */
module Animation {
  import opened Sprites

  /** The interval every animation is given at construction, in seconds. */
  const DefaultSwitchTime: real := 0.1

  /** Where playback stands: the frame shown and the time accumulated towards the next. */
  datatype Playhead = Playhead(cursor: nat, time: real)

  /**
   * One call of play on an animation of n frames: the accumulator grows by
   * dt; once it has reached the switch time, one switch time is taken off it
   * and the cursor moves to the next frame, modulo n. A single test, not a
   * loop: however large dt is, the cursor moves by at most one frame.
   */
  function Advance(n: nat, p: Playhead, switchTime: real, dt: real): (q: Playhead)
    requires p.cursor < n
    ensures q.cursor < n
    ensures p.time + dt < switchTime ==> q == Playhead(p.cursor, p.time + dt)
    ensures p.time + dt >= switchTime ==> q == Playhead((p.cursor + 1) % n, p.time + dt - switchTime)
  {
    var t := p.time + dt;
    if t >= switchTime then
      var c := p.cursor + 1;
      Playhead(if c >= n then 0 else c, t - switchTime)
    else
      Playhead(p.cursor, t)
  }

  /** The value of an animation object: what copying it copies. */
  datatype AnimValue = AnimValue(sheet: Spritesheet, frame: seq<Sprite>, head: Playhead, switchTime: real)
  {
    /** The cursor is on a frame, or at 0 while there are no frames yet. */
    predicate Valid()
    {
      if frame == [] then head.cursor == 0 else head.cursor < |frame|
    }

    /** The animation after one call of play. */
    function Played(dt: real): AnimValue
      requires Valid() && frame != []
    {
      AnimValue(sheet, frame, Advance(|frame|, head, switchTime, dt), switchTime)
    }
  }

  class Anim {
    var sheet: Spritesheet
    var frame: seq<Sprite>
    var currentFrame: nat
    var animTime: real
    var switchTime: real

    ghost function Value(): AnimValue
      reads this
    {
      AnimValue(sheet, frame, Playhead(currentFrame, animTime), switchTime)
    }

    ghost predicate Valid()
      reads this
    {
      Value().Valid()
    }

    /** A new animation over a sheet: no frames, cursor and clock at 0, the default interval. */
    constructor (pSheet: Spritesheet)
      ensures Valid()
      ensures Value() == AnimValue(pSheet, [], Playhead(0, 0.0), DefaultSwitchTime)
    {
      sheet := pSheet;
      frame := [];
      currentFrame := 0;
      animTime := 0.0;
      switchTime := DefaultSwitchTime;
    }

    /** The copy constructor: a new object holding the same value. */
    constructor Copy(other: Anim)
      requires other.Valid()
      ensures Valid() && Value() == other.Value()
    {
      sheet := other.sheet;
      frame := other.frame;
      currentFrame := other.currentFrame;
      animTime := other.animTime;
      switchTime := other.switchTime;
    }

    /** Copy assignment: this object takes the other's value, cursor and clock included. */
    method Assign(other: Anim)
      requires other.Valid()
      modifies this
      ensures Valid() && Value() == old(other.Value())
    {
      sheet, frame, currentFrame, animTime, switchTime :=
        other.sheet, other.frame, other.currentFrame, other.animTime, other.switchTime;
    }

    /** Appends frame `index` of the sheet; the index is not checked, so it must be in range. */
    method AddFrame(index: nat)
      requires Valid() && index < |sheet.frame|
      modifies this`frame
      ensures Valid()
      ensures frame == old(frame) + [sheet.frame[index]]
    {
      frame := frame + [sheet.frame[index]];
    }

    /** Advances playback by dt and returns the frame now under the cursor. */
    method Play(dt: real) returns (s: Sprite)
      requires Valid() && frame != []
      modifies this`currentFrame, this`animTime
      ensures Valid()
      ensures Value() == old(Value()).Played(dt)
      ensures s == frame[currentFrame]
      ensures |frame| == 1 ==> s == frame[0]
    {
      animTime := animTime + dt;
      if animTime >= switchTime {
        animTime := animTime - switchTime;
        currentFrame := currentFrame + 1;
        if currentFrame >= |frame| {
          currentFrame := 0;
        }
      }
      s := frame[currentFrame];
    }
  }
}
