/**
 * The game's setup of the player and one pass of its main loop: read the A
 * and D keys, move the character, then update its animation. The window,
 * the clock, event polling and drawing are not modelled; the keys and the
 * elapsed time are parameters.
 */
module Game {
  import opened Sprites
  import opened Animation
  import opened Character

  /** Frame k of the player's 2 × 4 sheet. */
  function PlayerFrame(texWidth: nat, texHeight: nat, k: nat): Sprite
  {
    FrameRect(texWidth, texHeight, 2, 4, k)
  }

  /**
   * A clip as the game authors it: cut from the player's 2 × 4 sheet of the
   * given texture, not yet played (cursor 0, nothing accumulated), switching
   * every DefaultSwitchTime seconds.
   */
  ghost predicate FreshClip(a: Anim, texWidth: nat, texHeight: nat)
    reads a
  {
    a.sheet.width == texWidth && a.sheet.height == texHeight &&
    a.sheet.rows == 2 && a.sheet.columns == 4 &&
    a.currentFrame == 0 && a.animTime == 0.0 && a.switchTime == DefaultSwitchTime
  }

  /** The player's standing clips: frame 0 of the sheet facing left, frame 4 facing right. */
  method StandingClips(ss: Spritesheet) returns (aStandL: Anim, aStandR: Anim)
    requires |ss.frame| == 8
    ensures fresh(aStandL) && fresh(aStandR)
    ensures aStandL.Valid() && aStandL.Value() == AnimValue(ss, [ss.frame[0]], Playhead(0, 0.0), DefaultSwitchTime)
    ensures aStandR.Valid() && aStandR.Value() == AnimValue(ss, [ss.frame[4]], Playhead(0, 0.0), DefaultSwitchTime)
  {
    aStandL := new Anim(ss);
    aStandL.AddFrame(0);

    aStandR := new Anim(ss);
    aStandR.AddFrame(4);
  }

  /** The player's running clips: frames 1 to 3 of the sheet running left, 5 to 7 running right. */
  method RunningClips(ss: Spritesheet) returns (aRunL: Anim, aRunR: Anim)
    requires |ss.frame| == 8
    ensures fresh(aRunL) && fresh(aRunR)
    ensures aRunL.Valid() && aRunL.Value() == AnimValue(ss, ss.frame[1..4], Playhead(0, 0.0), DefaultSwitchTime)
    ensures aRunR.Valid() && aRunR.Value() == AnimValue(ss, ss.frame[5..8], Playhead(0, 0.0), DefaultSwitchTime)
  {
    aRunL := new Anim(ss);
    aRunL.AddFrame(1);
    aRunL.AddFrame(2);
    aRunL.AddFrame(3);

    aRunR := new Anim(ss);
    aRunR.AddFrame(5);
    aRunR.AddFrame(6);
    aRunR.AddFrame(7);
  }

  /**
   * Builds the player as the game does: the texture cut into a 2 × 4 sheet,
   * its four clips, and a 10 × 10 body at (50, 50) holding copies of them,
   * starting on the standing-right clip. The texture's size is a parameter.
   */
  method SetUpPlayer(texWidth: nat, texHeight: nat) returns (player: Human)
    ensures fresh(player) && player.Ready() && player.Current() == InitialPose
    ensures fresh(player.prop) && fresh(player.prop.anim) && player.prop.sprite == NoSprite
    ensures fresh(player.aRunL) && fresh(player.aRunR) && fresh(player.aStandL) && fresh(player.aStandR)
    ensures player.prop.x == 50.0 && player.prop.y == 50.0
    ensures player.prop.width == 10 && player.prop.height == 10
    ensures player.aStandL.frame == [PlayerFrame(texWidth, texHeight, 0)]
    ensures player.aStandR.frame == [PlayerFrame(texWidth, texHeight, 4)]
    ensures player.aRunL.frame ==
      [PlayerFrame(texWidth, texHeight, 1), PlayerFrame(texWidth, texHeight, 2), PlayerFrame(texWidth, texHeight, 3)]
    ensures player.aRunR.frame ==
      [PlayerFrame(texWidth, texHeight, 5), PlayerFrame(texWidth, texHeight, 6), PlayerFrame(texWidth, texHeight, 7)]
    ensures player.prop.anim.Value() == player.aStandR.Value()
    ensures FreshClip(player.aStandL, texWidth, texHeight) && FreshClip(player.aStandR, texWidth, texHeight)
    ensures FreshClip(player.aRunL, texWidth, texHeight) && FreshClip(player.aRunR, texWidth, texHeight)
  {
    var ssPlayer := NewSpritesheet(texWidth, texHeight, 2, 4);
    ghost var f := ssPlayer.frame;
    assert f[0] == PlayerFrame(texWidth, texHeight, 0) && f[4] == PlayerFrame(texWidth, texHeight, 4);
    assert f[1..4] == [PlayerFrame(texWidth, texHeight, 1), PlayerFrame(texWidth, texHeight, 2), PlayerFrame(texWidth, texHeight, 3)];
    assert f[5..8] == [PlayerFrame(texWidth, texHeight, 5), PlayerFrame(texWidth, texHeight, 6), PlayerFrame(texWidth, texHeight, 7)];
    var aPlayerStandL, aPlayerStandR := StandingClips(ssPlayer);
    var aPlayerRunL, aPlayerRunR := RunningClips(ssPlayer);
    player := new Human(10, 10, 50.0, 50.0, aPlayerStandR,
                        aPlayerRunL, aPlayerRunR, aPlayerStandL, aPlayerStandR);
  }

  /**
   * One pass of the main loop: A runs left whatever D says, else D runs
   * right, else the character stops; then the active animation is played for
   * dt and its frame shown. The animation played is the one already active
   * unless the state changed, in which case it is a fresh copy of the clip
   * stored for the new state.
   */
  method Tick(player: Human, keyA: bool, keyD: bool, dt: real)
    requires player.Ready()
    modifies player`playerState, player`facingLeft, player.prop`x, player.prop`sprite, player.prop.anim
    ensures player.Ready()
    ensures player.Current() == Next(old(player.Current()), Dispatch(keyA, keyD))
    ensures player.prop.x == old(player.prop.x) + Shift(Dispatch(keyA, keyD), player.runningSpeed as real, dt)
    ensures player.prop.anim.Value() ==
      (if Swaps(old(player.Current()), Dispatch(keyA, keyD))
       then player.StoredAnim(player.playerState).Value()
       else old(player.prop.anim.Value())).Played(dt)
    ensures player.prop.sprite == player.prop.anim.frame[player.prop.anim.currentFrame]
  {
    if keyA {
      player.RunLeft(dt);
    } else if keyD {
      player.RunRight(dt);
    } else {
      player.StopRunning();
    }
    player.Update(dt);
  }

  /** The pose after one pass of the main loop per key sample (A pressed, D pressed), starting from p. */
  function PoseAfter(p: Pose, keys: seq<(bool, bool)>): Pose
    decreases |keys|
  {
    if keys == [] then p else PoseAfter(Next(p, Dispatch(keys[0].0, keys[0].1)), keys[1..])
  }

  /** The horizontal distance the passes of the main loop cover, one key sample and one dt per pass. */
  function Travel(keys: seq<(bool, bool)>, dts: seq<real>, speed: real): real
    requires |dts| == |keys|
  {
    if keys == [] then 0.0
    else Shift(Dispatch(keys[0].0, keys[0].1), speed, dts[0]) + Travel(keys[1..], dts[1..], speed)
  }

  /**
   * The whole game as far as the player goes: the setup, then one pass of
   * the main loop per key sample and elapsed time. The player ends in the
   * pose the dispatched intents lead to, moved by their shifts, still ready
   * to play.
   */
  method RunGame(texWidth: nat, texHeight: nat, keys: seq<(bool, bool)>, dts: seq<real>) returns (player: Human)
    requires |dts| == |keys|
    ensures player.Ready()
    ensures player.Current() == PoseAfter(InitialPose, keys)
    ensures player.prop.x == 50.0 + Travel(keys, dts, player.runningSpeed as real)
  {
    player := SetUpPlayer(texWidth, texHeight);
    var i := 0;
    while i < |keys|
      invariant 0 <= i <= |keys|
      invariant fresh(player.prop) && fresh(player.prop.anim)
      invariant player.Ready()
      invariant PoseAfter(player.Current(), keys[i..]) == PoseAfter(InitialPose, keys)
      invariant player.prop.x + Travel(keys[i..], dts[i..], player.runningSpeed as real) ==
        50.0 + Travel(keys, dts, player.runningSpeed as real)
    {
      assert keys[i..][1..] == keys[i + 1..] && dts[i..][1..] == dts[i + 1..];
      Tick(player, keys[i].0, keys[i].1, dts[i]);
      i := i + 1;
    }
    assert keys[i..] == [];
  }

  /**
   * A new character runs left for one 0.02 second tick and then stops: it
   * ends up 10 units further left, standing and facing left, playing the
   * standing-left clip from where that clip was stored.
   */
  method RunThenStop(player: Human)
    requires player.Ready() && player.Current() == InitialPose
    modifies player`playerState, player`facingLeft, player.prop`x, player.prop`sprite, player.prop.anim
    ensures player.Current() == Pose(StandingLeft, true)
    ensures player.prop.x == old(player.prop.x) - 10.0
    ensures player.prop.anim.Value() == player.aStandL.Value().Played(0.0)
  {
    Tick(player, true, false, 0.02);
    assert player.prop.anim.frame == player.aRunL.frame;
    Tick(player, false, false, 0.0);
  }
}
