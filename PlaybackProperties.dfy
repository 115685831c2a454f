/**
 * Properties of the playback state machine of module Playback: the lookups,
 * the tag scan, notification order, the timing rules of `Animate`, the
 * precedence of the play requests, `StopAnimation` and `Start`.
 */
module PlaybackProperties {
  import opened Wrappers
  import opened Clips
  import opened Playback

  // ---------------------------------------------------------------------------
  // Lookups

  /** `GetAnimation` returns the clip the by-name search finds, and the default struct otherwise. */
  lemma {:induction false} FirstOrDefaultIsFirstMatch(animations: seq<SpriteAnimation>, name: Option<string>)
    ensures FirstOrDefault(animations, name) ==
      (var i := FindIndex(animations, name); if i == -1 then Default else animations[i])
    decreases |animations|
  {
    if animations != [] && animations[0].animationName != name {
      FirstOrDefaultIsFirstMatch(animations[1..], name);
    }
  }

  /** A missed lookup yields a clip with no name, no frames, and both flags false. */
  lemma MissedLookupIsDefault(animations: seq<SpriteAnimation>, name: Option<string>)
    requires forall j :: 0 <= j < |animations| ==> animations[j].animationName != name
    ensures var c := FirstOrDefault(animations, name);
      c.animationName == None && c.frames == None && !c.loop && !c.unstoppable
  {
    FirstOrDefaultIsFirstMatch(animations, name);
  }

  // ---------------------------------------------------------------------------
  // Frame tags

  /** The first entry whose index is the frame decides the tag. */
  lemma {:induction false} FirstTagAt(tags: seq<FrameTag>, frame: int, k: int)
    requires 0 <= k < |tags| && tags[k].index == frame
    requires forall j :: 0 <= j < k ==> tags[j].index != frame
    ensures FirstTag(tags, frame) == tags[k].tag
    decreases k
  {
    if k > 0 {
      FirstTagAt(tags[1..], frame, k - 1);
    }
  }

  /** When no entry has the frame's index the tag is the sentinel. */
  lemma {:induction false} FirstTagMissing(tags: seq<FrameTag>, frame: int)
    requires forall j :: 0 <= j < |tags| ==> tags[j].index != frame
    ensures FirstTag(tags, frame) == NullTag
    decreases |tags|
  {
    if tags != [] {
      FirstTagMissing(tags[1..], frame);
    }
  }

  /**
   * While the player shows a frame, its tag is the sentinel or the label of
   * an entry whose index is that frame, which lies within the clip; an entry
   * with an index outside the clip is never the tag shown.
   */
  lemma ShownTagBelongsToFrame(animations: seq<SpriteAnimation>, s: PlaybackState)
    requires Inv(animations, s) && Showing(animations, s)
    ensures var c := Current(animations, s);
      s.currentFrameTag == NullTag ||
      exists k :: 0 <= k < |c.frameTags.value| &&
        c.frameTags.value[k].index == s.currentFrame &&
        0 <= c.frameTags.value[k].index < FrameCount(c) &&
        c.frameTags.value[k].tag == s.currentFrameTag
  {
  }

  // ---------------------------------------------------------------------------
  // Notification

  /** A notification calls each non-null listener with that signal and nobody else. */
  lemma {:induction false} BroadcastReaches(listeners: seq<Option<Listener>>, s: Signal)
    ensures |Broadcast(listeners, s)| <= |listeners|
    ensures forall c :: c in Broadcast(listeners, s) <==> c.signal == s && Some(c.listener) in listeners
    decreases |listeners|
  {
    if listeners != [] {
      var init := listeners[..|listeners| - 1];
      BroadcastReaches(init, s);
      assert listeners == init + [listeners[|listeners| - 1]];
      forall c ensures c in Broadcast(listeners, s) <==> c.signal == s && Some(c.listener) in listeners {
        assert Some(c.listener) in listeners <==>
          Some(c.listener) in init || Some(c.listener) == listeners[|listeners| - 1];
      }
    }
  }

  /** Listeners are called in list order: earlier entries' calls come first. */
  lemma {:induction false} BroadcastInOrder(front: seq<Option<Listener>>, back: seq<Option<Listener>>, s: Signal)
    ensures Broadcast(front + back, s) == Broadcast(front, s) + Broadcast(back, s)
    decreases |back|
  {
    if back == [] {
      assert front + back == front;
    } else {
      var init := back[..|back| - 1];
      var last := back[|back| - 1];
      BroadcastInOrder(front, init, s);
      assert (front + back)[..|front + back| - 1] == front + init;
      assert (front + back)[|front + back| - 1] == last;
      calc {
        Broadcast(front + back, s);
        Broadcast(front + init, s) + Deliver(last, s);
        Broadcast(front, s) + Broadcast(init, s) + Deliver(last, s);
        Broadcast(front, s) + (Broadcast(init, s) + Deliver(last, s));
        Broadcast(front, s) + Broadcast(back, s);
      }
    }
  }

  // ---------------------------------------------------------------------------
  // Animate

  /** Without a due frame a tick changes the timer and nothing else. */
  lemma AnimateWaits(animations: seq<SpriteAnimation>, s: PlaybackState, deltaTime: real)
    requires Inv(animations, s)
    requires !FrameDue(s.frameTimer + deltaTime, EffectiveRate(animations, s))
    ensures Animated(animations, s, deltaTime) == s.(frameTimer := s.frameTimer + deltaTime)
  {
  }

  /**
   * However large `deltaTime` is, one tick performs at most one frame step:
   * when a frame is due the timer restarts at 0 and the player shows either
   * the next frame of the same clip or frame 0 of clip 0. A frame left out of
   * range by a stop is back in range.
   */
  lemma AnimateStepsOnce(animations: seq<SpriteAnimation>, s: PlaybackState, deltaTime: real)
    requires Inv(animations, s)
    requires FrameDue(s.frameTimer + deltaTime, EffectiveRate(animations, s))
    ensures var r := Animated(animations, s, deltaTime);
      r.frameTimer == 0.0 && Showing(animations, r) &&
      ((r.currentAnimID == s.currentAnimID &&
        r.currentFrame == (s.currentFrame + 1) % FrameCount(Current(animations, s))) ||
       (r.currentAnimID == 0 && r.currentFrame == 0))
  {
  }

  /**
   * A normal step: unless a non-looping clip is at its last frame, the frame
   * advances by one modulo the frame count, the new frame and its tag are
   * shown, and no listener is called.
   */
  lemma NormalStep(animations: seq<SpriteAnimation>, s: PlaybackState, deltaTime: real)
    requires Inv(animations, s)
    requires FrameDue(s.frameTimer + deltaTime, EffectiveRate(animations, s))
    requires !ShouldEnd(animations, s)
    ensures var r := Animated(animations, s, deltaTime);
      r.currentAnimID == s.currentAnimID && r.currentAnimation == s.currentAnimation &&
      r.currentFrame == (s.currentFrame + 1) % FrameCount(Current(animations, s)) &&
      0 <= r.currentFrame < FrameCount(Current(animations, s)) &&
      Showing(animations, r) && r.frameTimer == 0.0 &&
      r.log == s.log && r.frameRateOverride == s.frameRateOverride && r.manuallySet == s.manuallySet
  {
  }

  /** On a looping clip a due tick at the last frame wraps to frame 0. */
  lemma LoopWraps(animations: seq<SpriteAnimation>, s: PlaybackState, deltaTime: real)
    requires Inv(animations, s) && Current(animations, s).loop
    requires s.currentFrame == FrameCount(Current(animations, s)) - 1
    requires FrameDue(s.frameTimer + deltaTime, EffectiveRate(animations, s))
    ensures var r := Animated(animations, s, deltaTime);
      r.currentFrame == 0 && r.currentAnimID == s.currentAnimID && r.log == s.log
  {
  }

  /**
   * The end transition: a due tick at the last frame of a non-looping clip
   * tells every listener that the clip ended, then that clip 0 started,
   * clears the override, and leaves clip 0 at frame 0 with the timer at 0. It
   * happens whether or not the ending clip is unstoppable.
   */
  lemma EndTransition(animations: seq<SpriteAnimation>, s: PlaybackState, deltaTime: real)
    requires Inv(animations, s)
    requires FrameDue(s.frameTimer + deltaTime, EffectiveRate(animations, s))
    requires ShouldEnd(animations, s)
    ensures var r := Animated(animations, s, deltaTime);
      r.log == s.log + Broadcast(s.listeners, AnimationEnd(Current(animations, s).animationName))
                     + Broadcast(s.listeners, AnimationStart(animations[0].animationName)) &&
      r.frameRateOverride == NoOverride &&
      r.currentAnimID == 0 && r.currentAnimation == animations[0] &&
      r.currentFrame == 0 && r.frameTimer == 0.0 && Showing(animations, r) &&
      r.manuallySet
  {
  }

  /** A tick on a looping clip never calls a listener and never leaves the clip. */
  lemma LoopingClipNeverEnds(animations: seq<SpriteAnimation>, s: PlaybackState, deltaTime: real)
    requires Inv(animations, s) && Current(animations, s).loop
    ensures var r := Animated(animations, s, deltaTime);
      r.log == s.log && r.currentAnimID == s.currentAnimID && r.currentAnimation == s.currentAnimation &&
      r.frameRateOverride == s.frameRateOverride
  {
  }

  /** `k` ticks of `deltaTime` each. */
  function Run(animations: seq<SpriteAnimation>, s: PlaybackState, deltaTime: real, k: nat): (r: PlaybackState)
    requires Inv(animations, s)
    ensures Inv(animations, r) && r.listeners == s.listeners
    decreases k
  {
    if k == 0 then s else Animated(animations, Run(animations, s, deltaTime, k - 1), deltaTime)
  }

  /** Any number of ticks on a looping clip call no listener and stay on that clip at the same rate. */
  lemma {:induction false} LoopingRunNeverEnds(animations: seq<SpriteAnimation>, s: PlaybackState,
                                               deltaTime: real, k: nat)
    requires Inv(animations, s) && Current(animations, s).loop
    ensures var r := Run(animations, s, deltaTime, k);
      r.log == s.log && r.currentAnimID == s.currentAnimID && r.currentAnimation == s.currentAnimation &&
      r.frameRateOverride == s.frameRateOverride
    decreases k
  {
    if k > 0 {
      LoopingRunNeverEnds(animations, s, deltaTime, k - 1);
      LoopingClipNeverEnds(animations, Run(animations, s, deltaTime, k - 1), deltaTime);
    }
  }

  lemma ModSucc(x: int, n: int)
    requires n > 0 && x >= 0
    ensures (x % n + 1) % n == (x + 1) % n
  {
    var q, r := x / n, x % n;
    assert x == q * n + r;
    if r + 1 < n {
      ModUnique(r + 1, n, 0, r + 1);
      ModUnique(x + 1, n, q, r + 1);
    } else {
      assert r + 1 == n;
      ModUnique(n, n, 1, 0);
      assert (q + 1) * n == q * n + n;
      ModUnique(x + 1, n, q + 1, 0);
    }
  }

  lemma ModUnique(x: int, n: int, q: int, r: int)
    requires n > 0 && 0 <= r < n && x == q * n + r
    ensures x % n == r
  {
    var q', r' := x / n, x % n;
    assert (q' - q) * n == r - r';
    if q' > q {
      MulAtLeast(q' - q, n);
    } else if q' < q {
      assert (q - q') * n == r' - r;
      MulAtLeast(q - q', n);
    }
  }

  lemma MulAtLeast(a: int, n: int)
    requires a >= 1 && n > 0
    ensures a * n >= n
  {
  }

  /** One due tick of a run on a looping clip, once the run is known to stay on that clip at that rate. */
  lemma LoopingDueStep(animations: seq<SpriteAnimation>, s: PlaybackState, q: PlaybackState, deltaTime: real)
    requires Inv(animations, s) && Current(animations, s).loop
    requires FrameDue(deltaTime, EffectiveRate(animations, s))
    requires Inv(animations, q) && q.currentAnimID == s.currentAnimID && q.frameTimer == 0.0
    requires q.frameRateOverride == s.frameRateOverride
    ensures var r := Animated(animations, q, deltaTime);
      r.currentAnimID == s.currentAnimID && r.frameTimer == 0.0 &&
      r.currentFrame == (q.currentFrame + 1) % FrameCount(Current(animations, s))
  {
    assert Current(animations, q) == Current(animations, s);
    assert EffectiveRate(animations, q) == EffectiveRate(animations, s);
    assert q.frameTimer + deltaTime == deltaTime;
    NormalStep(animations, q, deltaTime);
  }

  /**
   * With a tick that always makes a frame due, a looping clip visits its
   * frames in cyclic order: after `k` ticks from frame `f` it shows frame
   * `(f + k) mod frame count`.
   */
  lemma {:induction false} LoopingRunCycles(animations: seq<SpriteAnimation>, s: PlaybackState,
                                            deltaTime: real, k: nat)
    requires Inv(animations, s) && InRange(animations, s) && Current(animations, s).loop
    requires s.frameTimer == 0.0 && FrameDue(deltaTime, EffectiveRate(animations, s))
    ensures var r := Run(animations, s, deltaTime, k);
      r.currentAnimID == s.currentAnimID && r.frameTimer == 0.0 &&
      r.currentFrame == (s.currentFrame + k) % FrameCount(Current(animations, s))
    decreases k
  {
    if k > 0 {
      var n := FrameCount(Current(animations, s));
      LoopingRunCycles(animations, s, deltaTime, k - 1);
      LoopingRunNeverEnds(animations, s, deltaTime, k - 1);
      var q := Run(animations, s, deltaTime, k - 1);
      LoopingDueStep(animations, s, q, deltaTime);
      assert Run(animations, s, deltaTime, k) == Animated(animations, q, deltaTime);
      ModSucc(s.currentFrame + (k - 1), n);
    } else {
      ModUnique(s.currentFrame, FrameCount(Current(animations, s)), 0, s.currentFrame);
    }
  }

  /**
   * With a tick that always makes a frame due, a non-looping clip of `n`
   * frames started at frame 0 runs through frames 0 .. n - 1 calling no
   * listener.
   */
  lemma {:induction false} NonLoopingRunAdvances(animations: seq<SpriteAnimation>, s: PlaybackState,
                                                 deltaTime: real, k: nat)
    requires Inv(animations, s) && !Current(animations, s).loop
    requires s.currentFrame == 0 && s.frameTimer == 0.0 && FrameDue(deltaTime, EffectiveRate(animations, s))
    requires k < FrameCount(Current(animations, s))
    ensures var r := Run(animations, s, deltaTime, k);
      r.currentAnimID == s.currentAnimID && r.currentAnimation == s.currentAnimation &&
      r.currentFrame == k && r.frameTimer == 0.0 && r.log == s.log &&
      r.frameRateOverride == s.frameRateOverride
    decreases k
  {
    if k > 0 {
      NonLoopingRunAdvances(animations, s, deltaTime, k - 1);
      var q := Run(animations, s, deltaTime, k - 1);
      assert Run(animations, s, deltaTime, k) == Animated(animations, q, deltaTime);
      assert Current(animations, q) == Current(animations, s);
      assert EffectiveRate(animations, q) == EffectiveRate(animations, s);
      assert q.frameTimer + deltaTime == deltaTime;
      NormalStep(animations, q, deltaTime);
      ModUnique(k, FrameCount(Current(animations, s)), 0, k);
    }
  }

  /**
   * The n-th due tick of a non-looping clip of n frames started at frame 0
   * ends it: the listeners hear that it ended and that clip 0 started, and
   * clip 0 is at frame 0 with no override.
   */
  lemma NonLoopingRunEnds(animations: seq<SpriteAnimation>, s: PlaybackState, deltaTime: real)
    requires Inv(animations, s) && !Current(animations, s).loop
    requires s.currentFrame == 0 && s.frameTimer == 0.0 && FrameDue(deltaTime, EffectiveRate(animations, s))
    ensures var n := FrameCount(Current(animations, s));
      var r := Run(animations, s, deltaTime, n);
      r.log == s.log + Broadcast(s.listeners, AnimationEnd(Current(animations, s).animationName))
                     + Broadcast(s.listeners, AnimationStart(animations[0].animationName)) &&
      r.currentAnimID == 0 && r.currentFrame == 0 && r.frameRateOverride == NoOverride
  {
    var n := FrameCount(Current(animations, s));
    NonLoopingRunAdvances(animations, s, deltaTime, n - 1);
    var q := Run(animations, s, deltaTime, n - 1);
    assert Run(animations, s, deltaTime, n) == Animated(animations, q, deltaTime);
    assert Current(animations, q) == Current(animations, s);
    assert EffectiveRate(animations, q) == EffectiveRate(animations, s);
    assert q.frameTimer + deltaTime == deltaTime;
    EndTransition(animations, q, deltaTime);
  }

  /** An override of 10 frames per second makes a tick of 0.1 seconds step from a fresh timer. */
  lemma OverrideOfTenStepsEveryTenth(animations: seq<SpriteAnimation>, s: PlaybackState)
    requires Inv(animations, s) && s.frameTimer == 0.0
    ensures var o := WithFrameRate(s, 10);
      Inv(animations, o) && EffectiveRate(animations, o) == 10.0 &&
      Animated(animations, o, 0.1).frameTimer == 0.0 && Showing(animations, Animated(animations, o, 0.1))
  {
    var o := WithFrameRate(s, 10);
    assert Inv(animations, o);
    AnimateStepsOnce(animations, o, 0.1);
  }

  /** A zero or negative integer given to `SetFrameRate` is no override: the clip's own rate applies. */
  lemma NonPositiveRateIsNoOverride(animations: seq<SpriteAnimation>, s: PlaybackState, n: int)
    requires Inv(animations, s) && n <= 0
    ensures Inv(animations, WithFrameRate(s, n)) &&
      EffectiveRate(animations, WithFrameRate(s, n)) == Current(animations, s).frameRate
  {
  }

  /** Clearing the override makes the clip's own rate apply again. */
  lemma ClearedOverrideUsesClipRate(animations: seq<SpriteAnimation>, s: PlaybackState)
    requires Inv(animations, s)
    ensures Inv(animations, WithoutOverride(s)) &&
      EffectiveRate(animations, WithoutOverride(s)) == Current(animations, s).frameRate
  {
  }

  // ---------------------------------------------------------------------------
  // Play requests

  /**
   * A by-name request either leaves the player as it was (apart from the
   * manual flag) or is the by-index request, without force, for the first
   * clip with that name.
   */
  lemma ByNameIsUnforcedFirstMatch(animations: seq<SpriteAnimation>, s: PlaybackState, name: Option<string>,
                                   force: AnimationPlayForce)
    requires Inv(animations, s)
    ensures var r := PlayedByName(animations, s, name, force);
      r == s || r == s.(manuallySet := true) ||
      (FindIndex(animations, name) != -1 && Switches(animations, s, FindIndex(animations, name), false) &&
       r == Played(animations, s, FindIndex(animations, name), false))
  {
  }

  /** An unforced by-name request never interrupts an unstoppable clip and changes nothing, not even the manual flag. */
  lemma ByNameUnstoppableNotForced(animations: seq<SpriteAnimation>, s: PlaybackState, name: Option<string>)
    requires Inv(animations, s) && s.currentAnimation.unstoppable
    ensures PlayedByName(animations, s, name, NotForced) == s
  {
  }

  /** A `Hard` request for the name of the clip record in place changes nothing, not even the manual flag. */
  lemma ByNameHardSameName(animations: seq<SpriteAnimation>, s: PlaybackState, name: Option<string>)
    requires Inv(animations, s) && s.currentAnimation.animationName == name
    ensures PlayedByName(animations, s, name, Hard) == s
  {
  }

  /**
   * Past both guards, a by-name request for a known name is exactly the
   * unforced by-index request for the first clip with that name.
   */
  lemma ByNameDelegates(animations: seq<SpriteAnimation>, s: PlaybackState, name: Option<string>,
                        force: AnimationPlayForce)
    requires Inv(animations, s)
    requires !(s.currentAnimation.unstoppable && force == NotForced)
    requires !(s.currentAnimation.animationName == name && force == Hard)
    requires FindIndex(animations, name) != -1
    ensures PlayedByName(animations, s, name, force) == Played(animations, s, FindIndex(animations, name), false)
  {
  }

  /**
   * `Hard` gets past the unstoppable guard, but the delegation drops the
   * force, so on an unstoppable clip a known other name only sets the manual flag.
   */
  lemma ByNameHardOnUnstoppableOnlyFlags(animations: seq<SpriteAnimation>, s: PlaybackState, name: Option<string>)
    requires Inv(animations, s) && s.currentAnimation.unstoppable
    requires s.currentAnimation.animationName != name && FindIndex(animations, name) != -1
    ensures PlayedByName(animations, s, name, Hard) == s.(manuallySet := true)
  {
  }

  /**
   * Before the first switch the guard reads the default struct, whose
   * `unstoppable` is false, so a by-index request made before `Start`
   * switches away from clip 0 even when clip 0 is unstoppable. No listener
   * is registered yet, so no callback is made.
   */
  lemma EarlyRequestIgnoresClip0Unstoppable(animations: seq<SpriteAnimation>, sprite: Option<Sprite>)
    requires CatalogOk(animations) && |animations| > 1 && animations[0].unstoppable
    ensures var r := Played(animations, Initial(animations, sprite), 1, false);
      r.currentAnimID == 1 && r.currentAnimation == animations[1] &&
      r.manuallySet && r.currentFrame == 0 && Showing(animations, r) && r.log == []
  {
  }

  /**
   * Before the first switch an unforced request for index 0 is not a switch,
   * so the clip record stays the default struct and its name stays null.
   */
  lemma EarlyIndexZeroKeepsDefault(animations: seq<SpriteAnimation>, sprite: Option<Sprite>)
    requires CatalogOk(animations)
    ensures var r := Played(animations, Initial(animations, sprite), 0, false);
      r.currentAnimation == Default && r.currentAnimation.animationName == None && r.manuallySet
  {
  }

  /** An unknown name changes nothing, not even the manual flag. */
  lemma ByNameUnknown(animations: seq<SpriteAnimation>, s: PlaybackState, name: Option<string>,
                      force: AnimationPlayForce)
    requires Inv(animations, s)
    requires forall j :: 0 <= j < |animations| ==> animations[j].animationName != name
    ensures PlayedByName(animations, s, name, force) == s
  {
  }

  /** No by-name request interrupts an unstoppable clip, not even a `Hard` one. */
  lemma ByNameNeverInterruptsUnstoppable(animations: seq<SpriteAnimation>, s: PlaybackState,
                                         name: Option<string>, force: AnimationPlayForce)
    requires Inv(animations, s) && s.currentAnimation.unstoppable
    ensures var r := PlayedByName(animations, s, name, force);
      r == s || r == s.(manuallySet := true)
  {
  }

  /** No by-name request restarts the clip that is playing, not even a `Hard` one. */
  lemma ByNameNeverRestarts(animations: seq<SpriteAnimation>, s: PlaybackState, name: Option<string>,
                            force: AnimationPlayForce)
    requires Inv(animations, s) && FindIndex(animations, name) == s.currentAnimID
    ensures var r := PlayedByName(animations, s, name, force);
      r == s || r == s.(manuallySet := true)
  {
  }

  /** By contrast, a forced by-index request for the current clip restarts it and notifies a start. */
  lemma ForcedByIndexRestarts(animations: seq<SpriteAnimation>, s: PlaybackState)
    requires Inv(animations, s)
    ensures var r := Played(animations, s, s.currentAnimID, true);
      r.currentAnimID == s.currentAnimID && r.currentFrame == 0 && r.frameTimer == 0.0 &&
      r.log == s.log + Broadcast(s.listeners, AnimationStart(animations[s.currentAnimID].animationName))
  {
  }

  /** `Hard` never achieves more than `NotForced`: it can only suppress a request. */
  lemma HardNoStrongerThanUnforced(animations: seq<SpriteAnimation>, s: PlaybackState, name: Option<string>)
    requires Inv(animations, s)
    ensures var r := PlayedByName(animations, s, name, Hard);
      r == s || r == s.(manuallySet := true) || r == PlayedByName(animations, s, name, NotForced)
  {
  }

  /** Repeating a by-name request, as a driver does every tick, changes nothing more. */
  lemma ByNameIdempotent(animations: seq<SpriteAnimation>, s: PlaybackState, name: Option<string>,
                         force: AnimationPlayForce)
    requires Inv(animations, s)
    ensures var r := PlayedByName(animations, s, name, force);
      PlayedByName(animations, r, name, force) == r
  {
    var r := PlayedByName(animations, s, name, force);
    var i := FindIndex(animations, name);
    if i != -1 && r == Played(animations, s, i, false) && Switches(animations, s, i, false) {
      assert r.currentAnimation == animations[i];
    }
  }

  /** Repeating an unforced by-index request changes nothing more. */
  lemma ByIndexIdempotent(animations: seq<SpriteAnimation>, s: PlaybackState, id: int)
    requires Inv(animations, s)
    ensures var r := Played(animations, s, id, false);
      Played(animations, r, id, false) == r
  {
  }

  /**
   * A clip whose name an earlier clip already has is never reached by name:
   * a by-name request for it leaves the index where it was or moves it to
   * the earlier clip.
   */
  lemma DuplicateUnreachableByName(animations: seq<SpriteAnimation>, s: PlaybackState, i: int, j: int,
                                   force: AnimationPlayForce)
    requires Inv(animations, s)
    requires 0 <= i < j < |animations| && animations[i].animationName == animations[j].animationName
    ensures var r := PlayedByName(animations, s, animations[j].animationName, force);
      r.currentAnimID != j || s.currentAnimID == j
  {
    ByNameIsUnforcedFirstMatch(animations, s, animations[j].animationName, force);
  }

  // ---------------------------------------------------------------------------
  // Stop and Start

  /**
   * The end test is `>=`, and a stop keeps the frame: when the kept frame is
   * at or past the last frame of a non-looping clip 0, the next due tick ends
   * clip 0 and starts it again, notifying both.
   */
  lemma StopThenDueTickEnds(animations: seq<SpriteAnimation>, s: PlaybackState, deltaTime: real)
    requires Inv(animations, s) && !animations[0].loop
    requires s.currentFrame >= FrameCount(animations[0]) - 1
    requires FrameDue(s.frameTimer + deltaTime, EffectiveRate(animations, Stopped(animations, s)))
    ensures var r := Animated(animations, Stopped(animations, s), deltaTime);
      r.log == s.log + Broadcast(s.listeners, AnimationEnd(animations[0].animationName))
                     + Broadcast(s.listeners, AnimationStart(animations[0].animationName)) &&
      r.currentAnimID == 0 && r.currentFrame == 0 && r.frameRateOverride == NoOverride
  {
  }

  /**
   * A stop selects clip 0, clears the display and the tag, calls no listener,
   * and keeps the frame, the timer, the override and the manual flag.
   */
  lemma StopKeepsPosition(animations: seq<SpriteAnimation>, s: PlaybackState)
    requires Inv(animations, s)
    ensures var r := Stopped(animations, s);
      r.currentAnimID == 0 && r.displayed == None && r.currentFrameTag == NullTag &&
      r.currentFrame == s.currentFrame && r.frameTimer == s.frameTimer &&
      r.frameRateOverride == s.frameRateOverride && r.manuallySet == s.manuallySet &&
      r.log == s.log && r.listeners == s.listeners
  {
  }

  /** Because the frame is kept, a stop can leave it past the end of clip 0. */
  lemma StopCanLeaveFrameOutOfRange()
    ensures var animations := [SpriteAnimation(Some("Idle"), Some([Sprite(0)]), None, 2.0, true, false),
                               SpriteAnimation(Some("Walk"), Some([Sprite(1), Sprite(2), Sprite(3)]), None, 8.0, true, false)];
      var s := PlaybackState(1, animations[1], 2, 0.0, NoOverride, true, NullTag, Some(Sprite(3)), [], []);
      Inv(animations, s) && InRange(animations, s) &&
      Inv(animations, Stopped(animations, s)) && !InRange(animations, Stopped(animations, s))
  {
  }

  /**
   * The automatic play in `Start` is a no-op: it calls no listener, shows
   * nothing new and leaves the tag; it only selects clip 0 and, unless clip 0
   * is unstoppable, sets the manual flag.
   */
  lemma StartIsQuiet(animations: seq<SpriteAnimation>, s: PlaybackState, found: seq<Option<Listener>>)
    requires Inv(animations, s)
    ensures var r := Started(animations, s, found);
      r.log == s.log && r.displayed == s.displayed && r.currentFrameTag == s.currentFrameTag &&
      r.currentFrame == s.currentFrame && r.frameTimer == s.frameTimer &&
      r.frameRateOverride == s.frameRateOverride && r.listeners == found &&
      (s.manuallySet ==> r == s.(listeners := found)) &&
      (!s.manuallySet ==> r.currentAnimID == 0 && r.currentAnimation == animations[0] &&
                          r.manuallySet == !animations[0].unstoppable)
  {
  }

  // ---------------------------------------------------------------------------
  // A worked scenario

  /** A two-clip catalog: a looping idle clip of 2 frames at 2 fps and a looping walk of 4 at 8 fps. */
  function IdleWalk(): (cat: seq<SpriteAnimation>)
    ensures CatalogOk(cat)
  {
    [SpriteAnimation(Some("Idle"), Some([Sprite(0), Sprite(1)]), None, 2.0, true, false),
     SpriteAnimation(Some("Walk"), Some([Sprite(10), Sprite(11), Sprite(12), Sprite(13)]),
                     Some([FrameTag(2, "step")]), 8.0, true, false)]
  }

  /**
   * Start, then a request for "Walk", then four ticks of 1/8 s: the only
   * callback is the start of "Walk", the frames shown are 1, 2, 3 and 0, and
   * the tag is "step" exactly at frame 2. Start itself shows nothing new.
   */
  lemma IdleWalkScenario(sprite: Option<Sprite>)
    ensures var cat := IdleWalk();
      var l := [Some(Listener(7))];
      var s0 := Started(cat, Initial(cat, sprite), l);
      var s1 := PlayedByName(cat, s0, Some("Walk"), NotForced);
      var t1 := Animated(cat, s1, 0.125);
      var t2 := Animated(cat, t1, 0.125);
      var t3 := Animated(cat, t2, 0.125);
      var t4 := Animated(cat, t3, 0.125);
      s0.displayed == sprite && s0.log == [] && s0.currentAnimID == 0 &&
      s1.currentAnimID == 1 && s1.currentFrame == 0 && s1.displayed == Some(Sprite(10)) &&
      s1.log == [Call(Listener(7), AnimationStart(Some("Walk")))] &&
      t1.currentFrame == 1 && t1.currentFrameTag == NullTag &&
      t2.currentFrame == 2 && t2.currentFrameTag == "step" &&
      t3.currentFrame == 3 && t3.currentFrameTag == NullTag &&
      t4.currentFrame == 0 && t4.displayed == Some(Sprite(10)) && t4.log == s1.log
  {
    var cat := IdleWalk();
    var l := [Some(Listener(7))];
    var s0 := Started(cat, Initial(cat, sprite), l);
    assert FindIndex(cat, Some("Idle")) == 0;
    var s1 := PlayedByName(cat, s0, Some("Walk"), NotForced);
    assert FindIndex(cat, Some("Walk")) == 1;
    assert Broadcast(l, AnimationStart(Some("Walk"))) == [Call(Listener(7), AnimationStart(Some("Walk")))];
    var walk := cat[1];
    assert s1.currentAnimation == walk && s1.frameTimer == 0.0 && s1.frameRateOverride <= 0.0;
    assert FrameDue(0.125, 8.0);
    var t1 := Animated(cat, s1, 0.125);
    assert t1 == s1.(currentFrame := 1, displayed := Some(Sprite(11)), currentFrameTag := FrameTagAt(walk.frameTags, 1));
    var t2 := Animated(cat, t1, 0.125);
    assert t2 == s1.(currentFrame := 2, displayed := Some(Sprite(12)), currentFrameTag := FrameTagAt(walk.frameTags, 2));
    var t3 := Animated(cat, t2, 0.125);
    assert t3 == s1.(currentFrame := 3, displayed := Some(Sprite(13)), currentFrameTag := FrameTagAt(walk.frameTags, 3));
    var t4 := Animated(cat, t3, 0.125);
    assert t4 == s1.(currentFrame := 0, displayed := Some(Sprite(10)), currentFrameTag := FrameTagAt(walk.frameTags, 0));
  }
}
