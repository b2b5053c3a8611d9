/**
 * The player character: a four-state machine over running and standing,
 * left and right, that moves the character and swaps its animation for the
 * one stored for the new state, only when the state actually changes.
 */
module Character {
  import opened Sprites
  import opened Animation
  import opened Props

  datatype PlayerState = RunningLeft | RunningRight | StandingLeft | StandingRight

  /** What one tick of the main loop asks of the character. */
  datatype Intent = GoLeft | GoRight | Stop

  /** The character's discrete state: the player state and the facing flag. */
  datatype Pose = Pose(state: PlayerState, facingLeft: bool)

  /** A new character stands facing right. */
  const InitialPose := Pose(StandingRight, false)

  /** The player state and the facing flag agree: the left states face left, the right states right. */
  predicate Agrees(p: Pose)
  {
    p.facingLeft <==> (p.state == RunningLeft || p.state == StandingLeft)
  }

  /**
   * The pose after one intent: running sets the state and the facing
   * together; stopping stands on the side already faced and does not turn.
   */
  function Next(p: Pose, i: Intent): (q: Pose)
    ensures Agrees(q)
    ensures q.state == RunningLeft <==> i == GoLeft
    ensures q.state == RunningRight <==> i == GoRight
    ensures i == Stop ==> q.facingLeft == p.facingLeft
    ensures Agrees(p) && i == Stop && (p.state == StandingLeft || p.state == StandingRight) ==> q == p
  {
    match i
    case GoLeft => Pose(RunningLeft, true)
    case GoRight => Pose(RunningRight, false)
    case Stop => Pose(if p.facingLeft then StandingLeft else StandingRight, p.facingLeft)
  }

  /** A tick swaps the active animation exactly when it changes the player state. */
  predicate Swaps(p: Pose, i: Intent)
  {
    Next(p, i).state != p.state
  }

  /** How many animation swaps a run of intents causes, starting from p. */
  function SwapCount(p: Pose, intents: seq<Intent>): (c: nat)
    ensures c <= |intents|
    decreases |intents|
  {
    if intents == [] then 0
    else (if Swaps(p, intents[0]) then 1 else 0) + SwapCount(Next(p, intents[0]), intents[1..])
  }

  /** The same intent for k consecutive ticks: a key held down, or no key at all. */
  function Hold(i: Intent, k: nat): (r: seq<Intent>)
    ensures |r| == k
    ensures forall j :: 0 <= j < k ==> r[j] == i
  {
    if k == 0 then [] else [i] + Hold(i, k - 1)
  }

  /** Once a pose is reached by an intent, repeating that intent never swaps again. */
  lemma {:induction false} FixpointNeverSwaps(p: Pose, i: Intent, k: nat)
    requires Next(p, i) == p
    ensures SwapCount(p, Hold(i, k)) == 0
    decreases k
  {
    if k > 0 {
      assert Hold(i, k)[1..] == Hold(i, k - 1);
      FixpointNeverSwaps(p, i, k - 1);
    }
  }

  /**
   * Holding the same intent for any number of ticks swaps the animation at
   * most once, on the first tick, and not at all when that tick keeps the
   * state: the clip being played is not restarted while a key is held.
   */
  lemma HoldingSwapsAtMostOnce(p: Pose, i: Intent, k: nat)
    ensures SwapCount(p, Hold(i, k)) <= 1
    ensures !Swaps(p, i) ==> SwapCount(p, Hold(i, k)) == 0
  {
    if k > 0 {
      assert Hold(i, k)[1..] == Hold(i, k - 1);
      FixpointNeverSwaps(Next(p, i), i, k - 1);
    }
  }

  /** The main loop's key test: A wins over D, and neither key means stop. */
  function Dispatch(keyA: bool, keyD: bool): (i: Intent)
    ensures i == GoLeft <==> keyA
    ensures i == GoRight <==> !keyA && keyD
    ensures i == Stop <==> !keyA && !keyD
  {
    if keyA then GoLeft else if keyD then GoRight else Stop
  }

  /** The horizontal move an intent makes in dt seconds at the given speed. */
  function Shift(i: Intent, speed: real, dt: real): real
  {
    match i
    case GoLeft => -(speed * dt)
    case GoRight => speed * dt
    case Stop => 0.0
  }

  class Human {
    /** The animated-prop part of the character: size, position, sprite and active animation. */
    const prop: AnimProp
    const aRunL: Anim
    const aRunR: Anim
    const aStandL: Anim
    const aStandR: Anim
    var playerState: PlayerState
    var facingLeft: bool
    const runningSpeed: int := 500

    /** The stored animation each state switches to. */
    function StoredAnim(s: PlayerState): Anim
    {
      match s
      case RunningLeft => aRunL
      case RunningRight => aRunR
      case StandingLeft => aStandL
      case StandingRight => aStandR
    }

    ghost function Current(): Pose
      reads this
    {
      Pose(playerState, facingLeft)
    }

    /** The active animation and the four stored ones are five separate, well-formed objects. */
    ghost predicate Owned()
      reads this, prop.anim, aRunL, aRunR, aStandL, aStandR
    {
      prop.anim != aRunL && prop.anim != aRunR && prop.anim != aStandL && prop.anim != aStandR &&
      aRunL != aRunR && aRunL != aStandL && aRunL != aStandR &&
      aRunR != aStandL && aRunR != aStandR && aStandL != aStandR &&
      prop.anim.Valid() && aRunL.Valid() && aRunR.Valid() && aStandL.Valid() && aStandR.Valid()
    }

    ghost predicate Valid()
      reads this, prop.anim, aRunL, aRunR, aStandL, aStandR
    {
      Owned() && Agrees(Current())
    }

    /** Valid, and every animation has a frame to play. */
    ghost predicate Ready()
      reads this, prop.anim, aRunL, aRunR, aStandL, aStandR
    {
      Valid() && prop.anim.frame != [] &&
      aRunL.frame != [] && aRunR.frame != [] && aStandL.frame != [] && aStandR.frame != []
    }

    /**
     * The state is now s; the active animation is untouched if s was already
     * the state, and otherwise a copy of the animation stored for s.
     */
    twostate predicate Entered(s: PlayerState)
      reads this, prop.anim, aRunL, aRunR, aStandL, aStandR
    {
      playerState == s &&
      (old(playerState) == s ==> prop.anim.Value() == old(prop.anim.Value())) &&
      (old(playerState) != s ==> prop.anim.Value() == StoredAnim(s).Value())
    }

    constructor (pWidth: int, pHeight: int, pX: real, pY: real,
                 pAnim: Anim, paRunL: Anim, paRunR: Anim, paStandL: Anim, paStandR: Anim)
      requires pAnim.Valid() && paRunL.Valid() && paRunR.Valid() && paStandL.Valid() && paStandR.Valid()
      ensures Valid() && Current() == InitialPose
      ensures prop.width == pWidth && prop.height == pHeight && prop.x == pX && prop.y == pY
      ensures prop.sprite == NoSprite
      ensures prop.anim.Value() == pAnim.Value()
      ensures aRunL.Value() == paRunL.Value() && aRunR.Value() == paRunR.Value()
      ensures aStandL.Value() == paStandL.Value() && aStandR.Value() == paStandR.Value()
      ensures fresh(prop) && fresh(prop.anim) && fresh(aRunL) && fresh(aRunR) && fresh(aStandL) && fresh(aStandR)
    {
      prop := new AnimProp(pWidth, pHeight, pX, pY, pAnim);
      aRunL := new Anim.Copy(paRunL);
      aRunR := new Anim.Copy(paRunR);
      aStandL := new Anim.Copy(paStandL);
      aStandR := new Anim.Copy(paStandR);
      playerState := StandingRight;
      facingLeft := false;
    }

    method RunLeft(dt: real)
      requires Valid()
      modifies this`playerState, this`facingLeft, prop`x, prop.anim
      ensures Valid()
      ensures Current() == Next(old(Current()), GoLeft)
      ensures prop.x == old(prop.x) + Shift(GoLeft, runningSpeed as real, dt)
      ensures Entered(RunningLeft)
    {
      prop.x := prop.x - runningSpeed as real * dt;
      SetPlayerState(RunningLeft);
      facingLeft := true;
    }

    method RunRight(dt: real)
      requires Valid()
      modifies this`playerState, this`facingLeft, prop`x, prop.anim
      ensures Valid()
      ensures Current() == Next(old(Current()), GoRight)
      ensures prop.x == old(prop.x) + Shift(GoRight, runningSpeed as real, dt)
      ensures Entered(RunningRight)
    {
      prop.x := prop.x + runningSpeed as real * dt;
      SetPlayerState(RunningRight);
      facingLeft := false;
    }

    method StopRunning()
      requires Valid()
      modifies this`playerState, prop.anim
      ensures Valid()
      ensures Current() == Next(old(Current()), Stop)
      ensures Entered(if facingLeft then StandingLeft else StandingRight)
    {
      if facingLeft {
        SetPlayerState(StandingLeft);
      } else {
        SetPlayerState(StandingRight);
      }
    }

    /** Enters state s; only a change of state copies the stored animation in. */
    method SetPlayerState(s: PlayerState)
      requires Owned()
      modifies this`playerState, prop.anim
      ensures Owned() && Entered(s)
    {
      if playerState != s {
        playerState := s;
        match playerState
        case RunningLeft => prop.anim.Assign(aRunL);
        case RunningRight => prop.anim.Assign(aRunR);
        case StandingLeft => prop.anim.Assign(aStandL);
        case StandingRight => prop.anim.Assign(aStandR);
      }
    }

    /**
     * The prop's update: plays the active animation and shows its frame.
     * Playing needs only the active animation to have a frame; Ready() is
     * required and ensured so that the main loop's tick keeps it from one
     * pass to the next.
     */
    method Update(dt: real)
      requires Ready()
      modifies prop`sprite, prop.anim`currentFrame, prop.anim`animTime
      ensures Ready()
      ensures prop.anim.Value() == old(prop.anim.Value()).Played(dt)
      ensures prop.sprite == prop.anim.frame[prop.anim.currentFrame]
    {
      prop.Update(dt);
    }
  }
}
