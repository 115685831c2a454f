/**
 * The playback state machine of Assets/Scripts/SpriteAnimator.cs, as pure
 * functions over a snapshot of the player's fields. Each public operation of
 * the player has one function here giving the state it leaves behind; the
 * class in Animator.dfy is proved to update its fields exactly so.
 *
 * Listener callbacks are recorded in the state's `log`, one `Call` per
 * listener per notification, in the order they are made.
 */
module Playback {
  import opened Wrappers
  import opened Clips

  /** The value `currentFrameTag` holds when no tag applies. */
  const NullTag: string := "null"

  /** The value `_frameRateOverride` holds when no override is set. */
  const NoOverride: real := -1.0

  /** The two force levels of the by-name request (`AnimationPlayForce.None` and `.Hard`). */
  datatype AnimationPlayForce = NotForced | Hard

  /** A registered animation listener. */
  datatype Listener = Listener(id: nat)

  /** What a listener is told. */
  datatype Signal = AnimationStart(name: Option<string>) | AnimationEnd(name: Option<string>)

  /** One callback made on one listener. */
  datatype Call = Call(listener: Listener, signal: Signal)

  /** The player's mutable fields; `displayed` is the renderer's current sprite. */
  datatype PlaybackState = PlaybackState(
    currentAnimID: int,
    currentAnimation: SpriteAnimation,
    currentFrame: int,
    frameTimer: real,
    frameRateOverride: real,
    manuallySet: bool,
    currentFrameTag: string,
    displayed: Option<Sprite>,
    listeners: seq<Option<Listener>>,
    log: seq<Call>)

  // ---------------------------------------------------------------------------
  // Catalog lookups

  /** The index of the first clip named `name`, or -1 (the search loop of the by-name request). */
  function FindIndex(animations: seq<SpriteAnimation>, name: Option<string>): (r: int)
    ensures -1 <= r < |animations|
    ensures 0 <= r ==> animations[r].animationName == name
    ensures 0 <= r ==> forall j :: 0 <= j < r ==> animations[j].animationName != name
    ensures r == -1 <==> forall j :: 0 <= j < |animations| ==> animations[j].animationName != name
    decreases |animations|
  {
    if animations == [] then -1
    else if animations[0].animationName == name then 0
    else
      var r := FindIndex(animations[1..], name);
      if r == -1 then -1 else r + 1
  }

  /** `FirstOrDefault` over the catalog: the first clip named `name`, or the default struct. */
  function FirstOrDefault(animations: seq<SpriteAnimation>, name: Option<string>): (c: SpriteAnimation)
    ensures c == Default || (c in animations && c.animationName == name)
    decreases |animations|
  {
    if animations == [] then Default
    else if animations[0].animationName == name then animations[0]
    else FirstOrDefault(animations[1..], name)
  }

  // ---------------------------------------------------------------------------
  // Frame tags

  /** The tag of the first entry whose index is `frame`, or the sentinel. */
  function FirstTag(tags: seq<FrameTag>, frame: int): (t: string)
    ensures t == NullTag || exists k :: 0 <= k < |tags| && tags[k].index == frame && tags[k].tag == t
    decreases |tags|
  {
    if tags == [] then NullTag
    else if tags[0].index == frame then tags[0].tag
    else FirstTag(tags[1..], frame)
  }

  /** The tag shown at `frame`; a null or empty tag array gives the sentinel. */
  function FrameTagAt(frameTags: Option<seq<FrameTag>>, frame: int): (t: string)
    ensures (frameTags.None? || frameTags.value == []) ==> t == NullTag
    ensures t == NullTag ||
      (frameTags.Some? &&
       exists k :: 0 <= k < |frameTags.value| && frameTags.value[k].index == frame && frameTags.value[k].tag == t)
  {
    if frameTags.Some? && |frameTags.value| > 0 then FirstTag(frameTags.value, frame) else NullTag
  }

  // ---------------------------------------------------------------------------
  // Notification

  /** The callback one list entry receives: none when the entry is null. */
  function Deliver(entry: Option<Listener>, s: Signal): (calls: seq<Call>)
  {
    if entry.Some? then [Call(entry.value, s)] else []
  }

  /** The callbacks a notification makes, in list order, skipping null entries. */
  function Broadcast(listeners: seq<Option<Listener>>, s: Signal): (calls: seq<Call>)
    ensures |calls| <= |listeners|
    ensures forall i :: 0 <= i < |calls| ==> calls[i].signal == s && Some(calls[i].listener) in listeners
    decreases |listeners|
  {
    if listeners == [] then []
    else Broadcast(listeners[..|listeners| - 1], s) + Deliver(listeners[|listeners| - 1], s)
  }

  // ---------------------------------------------------------------------------
  // The invariant

  /** The catalog the player needs: at least one clip, and every clip has frames. */
  predicate CatalogOk(animations: seq<SpriteAnimation>)
  {
    |animations| > 0 && forall i :: 0 <= i < |animations| ==> Playable(animations[i])
  }

  /**
   * The player's invariant. `currentAnimation` is the clip at `currentAnimID`,
   * except before the first switch, when it still holds the struct default
   * and the index is 0. Only a request moves the index off 0. The frame is
   * never negative; it can pass the clip's last index only after a stop (see
   * `InRange`).
   */
  predicate Inv(animations: seq<SpriteAnimation>, s: PlaybackState)
  {
    CatalogOk(animations) &&
    0 <= s.currentAnimID < |animations| &&
    0 <= s.currentFrame &&
    (!s.manuallySet ==> s.currentAnimID == 0) &&
    (s.currentAnimation == animations[s.currentAnimID] ||
     (s.currentAnimID == 0 && s.currentAnimation == Default))
  }

  /** The clip being advanced: the one at `currentAnimID`. */
  function Current(animations: seq<SpriteAnimation>, s: PlaybackState): (c: SpriteAnimation)
    requires Inv(animations, s)
    ensures Playable(c)
  {
    animations[s.currentAnimID]
  }

  /** The current frame lies within the current clip. */
  predicate InRange(animations: seq<SpriteAnimation>, s: PlaybackState)
    requires Inv(animations, s)
  {
    s.currentFrame < FrameCount(Current(animations, s))
  }

  /**
   * The renderer shows the current frame of the current clip, which is in
   * range, and the tag is that frame's tag.
   */
  predicate Showing(animations: seq<SpriteAnimation>, s: PlaybackState)
    requires Inv(animations, s)
  {
    var c := Current(animations, s);
    InRange(animations, s) &&
    s.displayed == Some(c.frames.value[s.currentFrame]) &&
    s.currentFrameTag == FrameTagAt(c.frameTags, s.currentFrame)
  }

  /** The state when the component is created: clip 0 by index, the default struct, no listeners. */
  function Initial(animations: seq<SpriteAnimation>, sprite: Option<Sprite>): (s: PlaybackState)
    requires CatalogOk(animations)
    ensures Inv(animations, s) && InRange(animations, s)
    ensures !s.manuallySet && s.log == [] && s.frameRateOverride <= 0.0
  {
    PlaybackState(0, Default, 0, 0.0, NoOverride, false, NullTag, sprite, [], [])
  }

  // ---------------------------------------------------------------------------
  // Timing

  /** The rate in frames per second: the override when positive, else the clip's own. */
  function EffectiveRate(animations: seq<SpriteAnimation>, s: PlaybackState): (rate: real)
    requires Inv(animations, s)
    ensures rate == s.frameRateOverride || rate == Current(animations, s).frameRate
    ensures s.frameRateOverride > 0.0 ==> rate == s.frameRateOverride
    ensures s.frameRateOverride <= 0.0 ==> rate == Current(animations, s).frameRate
  {
    if s.frameRateOverride > 0.0 then s.frameRateOverride else Current(animations, s).frameRate
  }

  /**
   * Whether an accumulated `timer` has reached one frame duration `1 / rate`.
   * A zero rate makes the duration +infinity in IEEE arithmetic, which no
   * finite timer reaches.
   */
  predicate FrameDue(timer: real, rate: real)
    ensures rate > 0.0 ==> (FrameDue(timer, rate) <==> timer * rate >= 1.0)
    ensures rate < 0.0 && timer >= 0.0 ==> FrameDue(timer, rate)
    ensures rate == 0.0 ==> !FrameDue(timer, rate)
  {
    rate != 0.0 && timer >= 1.0 / rate
  }

  /** A due frame ends the clip instead of advancing it. */
  predicate ShouldEnd(animations: seq<SpriteAnimation>, s: PlaybackState)
    requires Inv(animations, s)
    ensures ShouldEnd(animations, s) ==> !Current(animations, s).loop
    ensures InRange(animations, s) ==>
      (ShouldEnd(animations, s) <==> !Current(animations, s).loop &&
                                     s.currentFrame == FrameCount(Current(animations, s)) - 1)
  {
    var c := Current(animations, s);
    s.currentFrame >= FrameCount(c) - 1 && !c.loop
  }

  // ---------------------------------------------------------------------------
  // Operations

  /** Whether a by-index request actually switches clips. */
  predicate Switches(animations: seq<SpriteAnimation>, s: PlaybackState, id: int, force: bool)
  {
    !(s.currentAnimation.unstoppable && !force) &&
    0 <= id < |animations| &&
    (s.currentAnimID != id || force)
  }

  /** `PlayAnimation(int, bool)`. */
  function Played(animations: seq<SpriteAnimation>, s: PlaybackState, id: int, force: bool): (r: PlaybackState)
    requires Inv(animations, s)
    ensures Inv(animations, r) && r.manuallySet
    ensures InRange(animations, s) ==> InRange(animations, r)
    ensures r.listeners == s.listeners && r.frameRateOverride == s.frameRateOverride
    ensures !Switches(animations, s, id, force) ==> r == s.(manuallySet := true)
    ensures Switches(animations, s, id, force) ==>
      r.currentAnimID == id && r.currentAnimation == animations[id] &&
      r.currentFrame == 0 && r.frameTimer == 0.0 && Showing(animations, r) &&
      r.log == s.log + Broadcast(s.listeners, AnimationStart(animations[id].animationName))
  {
    var s1 := s.(manuallySet := true);
    if s.currentAnimation.unstoppable && !force then s1
    else if id < 0 || id >= |animations| then s1
    else if s.currentAnimID != id || force then
      var c := animations[id];
      var shown := if |c.frames.value| > 0 then Some(c.frames.value[0]) else s.displayed;
      s1.(currentAnimID := id, currentAnimation := c, currentFrame := 0, frameTimer := 0.0,
          displayed := shown, currentFrameTag := FrameTagAt(c.frameTags, 0),
          log := s.log + Broadcast(s.listeners, AnimationStart(c.animationName)))
    else s1
  }

  /** `PlayAnimation(string, AnimationPlayForce)`: the delegation passes no force. */
  function PlayedByName(animations: seq<SpriteAnimation>, s: PlaybackState, name: Option<string>,
                        force: AnimationPlayForce): (r: PlaybackState)
    requires Inv(animations, s)
    ensures Inv(animations, r)
    ensures InRange(animations, s) ==> InRange(animations, r)
    ensures r.listeners == s.listeners && r.frameRateOverride == s.frameRateOverride
  {
    if s.currentAnimation.unstoppable && force == NotForced then s
    else if s.currentAnimation.animationName == name && force == Hard then s
    else
      var index := FindIndex(animations, name);
      if index == -1 then s else Played(animations, s, index, false)
  }

  /** `Animate`: accumulate `deltaTime`, and when a frame is due either step or end the clip. */
  function Animated(animations: seq<SpriteAnimation>, s: PlaybackState, deltaTime: real): (r: PlaybackState)
    requires Inv(animations, s)
    ensures Inv(animations, r)
    ensures InRange(animations, s) ==> InRange(animations, r)
    ensures r.listeners == s.listeners
  {
    var c := Current(animations, s);
    var timer := s.frameTimer + deltaTime;
    if !FrameDue(timer, EffectiveRate(animations, s)) then s.(frameTimer := timer)
    else if ShouldEnd(animations, s) then
      var ending := s.(frameTimer := 0.0,
                       log := s.log + Broadcast(s.listeners, AnimationEnd(c.animationName)),
                       frameRateOverride := NoOverride);
      Played(animations, ending, 0, true)
    else
      var f := (s.currentFrame + 1) % FrameCount(c);
      s.(frameTimer := 0.0, currentFrame := f, displayed := Some(c.frames.value[f]),
         currentFrameTag := FrameTagAt(c.frameTags, f))
  }

  /** `StopAnimation`: back to clip 0's identity, nothing shown; frame, timer and override are kept. */
  function Stopped(animations: seq<SpriteAnimation>, s: PlaybackState): (r: PlaybackState)
    requires Inv(animations, s)
    ensures Inv(animations, r) && r.currentAnimation == animations[0]
  {
    s.(currentAnimID := 0, currentAnimation := animations[0], displayed := None, currentFrameTag := NullTag)
  }

  /** `SetFrameRate(int)`: the integer becomes the override; zero or negative means none. */
  function WithFrameRate(s: PlaybackState, frameRate: int): (r: PlaybackState)
    ensures r.frameRateOverride == frameRate as real
    ensures r.frameRateOverride > 0.0 <==> frameRate > 0
    ensures r.(frameRateOverride := s.frameRateOverride) == s
  {
    s.(frameRateOverride := frameRate as real)
  }

  /** `ClearFrameRateOverride`. */
  function WithoutOverride(s: PlaybackState): (r: PlaybackState)
    ensures r.frameRateOverride <= 0.0
    ensures r.(frameRateOverride := s.frameRateOverride) == s
  {
    s.(frameRateOverride := NoOverride)
  }

  /**
   * The initialising part of `Start`: register the discovered listeners and,
   * unless a request came first, select clip 0 and request it by name.
   */
  function Started(animations: seq<SpriteAnimation>, s: PlaybackState, found: seq<Option<Listener>>): (r: PlaybackState)
    requires Inv(animations, s)
    ensures Inv(animations, r) && r.listeners == found
    ensures InRange(animations, s) ==> InRange(animations, r)
  {
    var s1 := s.(listeners := found);
    if s1.manuallySet then s1
    else
      var s2 := s1.(currentAnimID := 0, currentAnimation := animations[0]);
      PlayedByName(animations, s2, animations[0].animationName, NotForced)
  }
}
