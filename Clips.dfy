/**
 * The clip data the player reads: the two serializable value structs of
 * Assets/Scripts/SpriteAnimation.cs. Reference-typed fields (the name, the
 * frame array and the tag array) may be null in C#, so they are optional here.
 */
module Clips {
  import opened Wrappers

  /** A rendered sprite, identified only by which asset it is. */
  datatype Sprite = Sprite(id: nat)

  /** A label attached to a frame index; the index is not checked against the clip's length. */
  datatype FrameTag = FrameTag(index: int, tag: string)

  /** One animation clip. */
  datatype SpriteAnimation = SpriteAnimation(
    animationName: Option<string>,
    frames: Option<seq<Sprite>>,
    frameTags: Option<seq<FrameTag>>,
    frameRate: real,
    loop: bool,
    unstoppable: bool)

  /** The C# default value of the struct: every reference null, every number 0, every flag false. */
  const Default: SpriteAnimation := SpriteAnimation(None, None, None, 0.0, false, false)

  /** A clip that can be advanced: its frame array exists and is not empty. */
  predicate Playable(c: SpriteAnimation)
  {
    c.frames.Some? && |c.frames.value| > 0
  }

  /** The number of frames of a playable clip. */
  function FrameCount(c: SpriteAnimation): (n: nat)
    requires Playable(c)
    ensures n > 0
  {
    |c.frames.value|
  }
}
