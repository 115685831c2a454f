/**
 * The `SpriteAnimator` component of Assets/Scripts/SpriteAnimator.cs as a
 * class whose methods update its fields step by step, as the C# does. Each
 * public method, and `Animate`, is proved to leave the fields equal to the
 * matching transition of module Playback and to keep the invariant
 * `Valid()`. The two helpers are proved against functions instead:
 * `UpdateFrameTag` leaves `currentFrameTag` equal to `FrameTagAt`, and
 * `Notify` appends exactly `Broadcast(listeners, s)` to `log`.
 *
 * The renderer's sprite is the field `displayed`; listener callbacks are
 * appended to `log`; Unity's `Time.deltaTime` is a parameter of `Update`.
 */
module Animator {
  import opened Wrappers
  import opened Clips
  import opened Playback
  import opened PlaybackProperties

  class SpriteAnimator {
    const animations: seq<SpriteAnimation>
    var displayed: Option<Sprite>
    var currentFrameTag: string
    var currentAnimation: SpriteAnimation
    var currentAnimID: int
    var frameTimer: real
    var currentFrame: int
    var hasAnimationBeenManuallySet: bool
    var listeners: seq<Option<Listener>>
    var frameRateOverride: real
    var log: seq<Call>

    /** The fields as one value. */
    function State(): (st: PlaybackState)
      reads this
    {
      PlaybackState(currentAnimID, currentAnimation, currentFrame, frameTimer, frameRateOverride,
                    hasAnimationBeenManuallySet, currentFrameTag, displayed, listeners, log)
    }

    ghost predicate Valid()
      reads this
    {
      Inv(animations, State())
    }

    /** The component as Unity creates it, with the renderer showing `sprite`. */
    constructor (animations: seq<SpriteAnimation>, sprite: Option<Sprite>)
      requires CatalogOk(animations)
      ensures Valid() && this.animations == animations
      ensures State() == Initial(animations, sprite)
    {
      this.animations := animations;
      displayed := sprite;
      currentFrameTag := NullTag;
      currentAnimation := Default;
      currentAnimID := 0;
      frameTimer := 0.0;
      currentFrame := 0;
      hasAnimationBeenManuallySet := false;
      listeners := [];
      frameRateOverride := NoOverride;
      log := [];
    }

    /** `Start`, with the listeners the scene scan found given as `found`. */
    method Start(found: seq<Option<Listener>>)
      requires Valid()
      modifies this
      ensures Valid() && State() == Started(animations, old(State()), found)
    {
      listeners := found;
      if !hasAnimationBeenManuallySet {
        currentAnimID := 0;
        currentAnimation := animations[0];
        PlayAnimationByName(currentAnimation.animationName);
      }
    }

    /** `Update`: one tick of `deltaTime` seconds. */
    method Update(deltaTime: real)
      requires Valid()
      modifies this
      ensures Valid() && State() == Animated(animations, old(State()), deltaTime)
    {
      if |animations| != 0 {
        Animate(deltaTime);
      }
    }

    /** `Animate`: accumulate time; when a frame is due, step once or end the clip. */
    method Animate(deltaTime: real)
      requires Valid()
      modifies this
      ensures Valid() && State() == Animated(animations, old(State()), deltaTime)
    {
      var spriteAnimation := animations[currentAnimID];
      frameTimer := frameTimer + deltaTime;
      var frameRate := if frameRateOverride > 0.0 then frameRateOverride else spriteAnimation.frameRate;
      // the C# divides 1 by the rate; a zero rate gives +infinity, which the timer never reaches
      if frameRate != 0.0 && frameTimer >= 1.0 / frameRate {
        frameTimer := 0.0;
        var isLastFrame := currentFrame >= |spriteAnimation.frames.value| - 1;
        var shouldEnd := isLastFrame && !spriteAnimation.loop;
        if shouldEnd {
          Notify(AnimationEnd(spriteAnimation.animationName));
          frameRateOverride := NoOverride;
          PlayAnimation(0, true);
        } else {
          currentFrame := (currentFrame + 1) % |spriteAnimation.frames.value|;
          displayed := Some(spriteAnimation.frames.value[currentFrame]);
          UpdateFrameTag();
        }
      }
    }

    /** `UpdateFrameTag`: the first tag whose index is the current frame, else the sentinel. */
    method UpdateFrameTag()
      requires 0 <= currentAnimID < |animations|
      modifies this`currentFrameTag
      ensures currentFrameTag == FrameTagAt(animations[currentAnimID].frameTags, currentFrame)
    {
      var spriteAnimation := animations[currentAnimID];
      currentFrameTag := NullTag;
      if spriteAnimation.frameTags.Some? && |spriteAnimation.frameTags.value| > 0 {
        var frameTags := spriteAnimation.frameTags.value;
        var i := 0;
        while i < |frameTags|
          invariant 0 <= i <= |frameTags|
          invariant currentFrameTag == NullTag
          invariant forall j :: 0 <= j < i ==> frameTags[j].index != currentFrame
        {
          if frameTags[i].index == currentFrame {
            currentFrameTag := frameTags[i].tag;
            FirstTagAt(frameTags, currentFrame, i);
            break;
          }
          i := i + 1;
        }
        if i == |frameTags| {
          FirstTagMissing(frameTags, currentFrame);
        }
      }
    }

    /** `NotifyAnimationStart` and `NotifyAnimationEnd`: call every non-null listener in order. */
    method Notify(s: Signal)
      modifies this`log
      ensures log == old(log) + Broadcast(listeners, s)
    {
      if |listeners| > 0 {
        var i := 0;
        while i < |listeners|
          invariant 0 <= i <= |listeners|
          invariant log == old(log) + Broadcast(listeners[..i], s)
        {
          if listeners[i] != None {
            log := log + [Call(listeners[i].value, s)];
          }
          assert listeners[..i + 1][..i] == listeners[..i];
          i := i + 1;
        }
        assert listeners[..|listeners|] == listeners;
      }
    }

    /** `SetFrameRate`: a temporary rate that leaves the clip data alone. */
    method SetFrameRate(frameRate: int)
      requires Valid()
      modifies this`frameRateOverride
      ensures Valid() && State() == WithFrameRate(old(State()), frameRate)
    {
      frameRateOverride := frameRate as real;
    }

    /** `ClearFrameRateOverride`. */
    method ClearFrameRateOverride()
      requires Valid()
      modifies this`frameRateOverride
      ensures Valid() && State() == WithoutOverride(old(State()))
    {
      frameRateOverride := NoOverride;
    }

    /** `PlayAnimation(int, bool)`. */
    method PlayAnimation(animationID: int, forcePlay: bool := false)
      requires Valid()
      modifies this
      ensures Valid() && State() == Played(animations, old(State()), animationID, forcePlay)
    {
      hasAnimationBeenManuallySet := true;

      if currentAnimation.unstoppable && !forcePlay {
        return;
      }

      if animationID < 0 || animationID >= |animations| {
        return;
      }

      if currentAnimID != animationID || forcePlay {
        currentAnimID := animationID;
        currentAnimation := animations[animationID];
        currentFrame := 0;
        frameTimer := 0.0;

        if |currentAnimation.frames.value| > 0 {
          displayed := Some(currentAnimation.frames.value[currentFrame]);
        }

        UpdateFrameTag();
        Notify(AnimationStart(currentAnimation.animationName));
      }
    }

    /** `PlayAnimation(string, AnimationPlayForce)`. */
    method PlayAnimationByName(animationName: Option<string>, forcePlay: AnimationPlayForce := NotForced)
      requires Valid()
      modifies this
      ensures Valid() && State() == PlayedByName(animations, old(State()), animationName, forcePlay)
    {
      if currentAnimation.unstoppable && forcePlay == NotForced {
        return;
      }

      if currentAnimation.animationName == animationName && forcePlay == Hard {
        return;
      }

      var index := -1;
      var i := 0;
      while i < |animations|
        invariant 0 <= i <= |animations|
        invariant index == -1
        invariant forall j :: 0 <= j < i ==> animations[j].animationName != animationName
      {
        if animations[i].animationName == animationName {
          index := i;
          break;
        }
        i := i + 1;
      }
      assert index == FindIndex(animations, animationName);

      if index != -1 {
        PlayAnimation(index);
      }
    }

    /** `StopAnimation`. */
    method StopAnimation()
      requires Valid()
      modifies this
      ensures Valid() && State() == Stopped(animations, old(State()))
    {
      currentAnimID := 0;
      currentAnimation := animations[0];
      displayed := None;
      currentFrameTag := NullTag;
    }

    /** `GetCurrentAnimIndex`: always a valid catalog index. */
    function GetCurrentAnimIndex(): (r: int)
      reads this
      requires Valid()
      ensures 0 <= r < |animations| && r == currentAnimID
    {
      currentAnimID
    }

    /**
     * `GetCurrentAnimName`: the name of the clip at the current index, or the
     * default struct's null name before the first switch.
     */
    function GetCurrentAnimName(): (r: Option<string>)
      reads this
      requires Valid()
      ensures currentAnimation == Default ==> r == None
      ensures currentAnimation != Default ==> r == animations[currentAnimID].animationName
    {
      currentAnimation.animationName
    }

    /** `GetAnimation`: the first clip with the name, or the struct default. */
    function GetAnimation(animationName: Option<string>): (c: SpriteAnimation)
      ensures FindIndex(animations, animationName) == -1 ==> c == Default
      ensures FindIndex(animations, animationName) != -1 ==>
        c == animations[FindIndex(animations, animationName)]
    {
      FirstOrDefaultIsFirstMatch(animations, animationName);
      FirstOrDefault(animations, animationName)
    }
  }
}
