/**
 * Animated props: a sized, positioned body that shows the frame its own
 * animation returned on the last update.
 */
module Props {
  import opened Sprites
  import opened Animation

  class AnimProp {
    var width: int
    var height: int
    var x: real
    var y: real
    var sprite: Sprite
    /** The prop's own animation object; setting an animation copies into it. */
    const anim: Anim

    constructor (pWidth: int, pHeight: int, pX: real, pY: real, pAnim: Anim)
      requires pAnim.Valid()
      ensures width == pWidth && height == pHeight && x == pX && y == pY
      ensures sprite == NoSprite
      ensures fresh(anim) && anim.Valid() && anim.Value() == pAnim.Value()
    {
      width, height, x, y := pWidth, pHeight, pX, pY;
      sprite := NoSprite;
      anim := new Anim.Copy(pAnim);
    }

    /** Plays the animation for dt and shows the frame it returns. */
    method Update(dt: real)
      requires anim.Valid() && anim.frame != []
      modifies this`sprite, anim`currentFrame, anim`animTime
      ensures anim.Valid() && anim.Value() == old(anim.Value()).Played(dt)
      ensures sprite == anim.frame[anim.currentFrame]
    {
      sprite := anim.Play(dt);
    }

    /** Replaces the animation by a copy of pAnim, whose cursor and clock come along. */
    method SetAnim(pAnim: Anim)
      requires pAnim.Valid()
      modifies anim
      ensures anim.Valid() && anim.Value() == old(pAnim.Value())
    {
      anim.Assign(pAnim);
    }
  }
}
