# Sprite animator, modelled and verified in Dafny

This project models the frame-based sprite animation player of a Unity game: the
`SpriteAnimator` component (`Assets/Scripts/SpriteAnimator.cs`) and the clip
records it reads (`Assets/Scripts/SpriteAnimation.cs`). A catalog of clips, each with a
name, frames, frame tags, a rate, a `loop` flag and an `unstoppable` flag, is
played one tick at a time. Each tick waits, steps one frame, or ends a
non-looping clip and falls back to clip 0. Clips are switched by index or by
name under the unstoppable/force/same-clip rules, and listeners are told when a
clip starts or ends.

Files:

- `Wrappers.dfy`: `Option`, standing for C# references that may be null.
- `Clips.dfy`: `FrameTag`, `SpriteAnimation` and the struct default `Default`.
- `Playback.dfy`: the player's fields as one value, `PlaybackState`, and one pure
  transition per operation: `Played`, `PlayedByName`, `Animated`, `Stopped`,
  `Started`, `WithFrameRate`, `WithoutOverride`. It also holds the name search
  `FindIndex`, `FirstOrDefault`, the tag scan `FrameTagAt` and the notification
  `Broadcast`, and the invariant `Inv`.
- `PlaybackProperties.dfy`: lemmas about those functions.
- `Animator.dfy`: the class `SpriteAnimator`. It has the component's fields and
  methods that assign them step by step, with the same loops as the C#. Each
  public method, and `Animate`, ensures `Valid()` and that `State()` equals
  the matching pure transition applied to `old(State())`. The two helpers are
  proved against functions instead: `UpdateFrameTag` leaves `currentFrameTag`
  equal to `FrameTagAt` of the current clip's tags and frame, and `Notify`
  appends exactly `Broadcast(listeners, signal)` to the log.

Modelling choices:

- The renderer's sprite is the field `displayed: Option<Sprite>`. Sprites are
  opaque ids.
- Each listener callback appends a `Call(listener, signal)` to `log`, in call
  order. The signal is `AnimationStart(name)` or `AnimationEnd(name)`. The
  listener list (null entries are skipped) is a parameter of `Start`.
- `Time.deltaTime` is the parameter of `Update`/`Animate`. Times and rates are
  `real`. A rate of 0 makes the frame duration `1f/0 = +infinity`, so no frame
  ever becomes due (`FrameDue`).
- The C# fields that may be null (`animationName`, `frames`, `frameTags`) are
  `Option`s. This makes the `FirstOrDefault` default struct exact.
- The invariant `Inv` requires a well-formed catalog, `CatalogOk`: at least one
  clip, and every clip has a non-null, non-empty frame array. The C# does not
  need all of this. `Update` skips an empty catalog (SpriteAnimator.cs:58).
  `PlayAnimation(int)` skips showing a sprite for an empty frame array (line
  204). A non-looping clip with no frames counts as at its last frame (lines
  78-79), so its first due tick ends it instead of reaching `%`. Only these
  throw: `Start` and `StopAnimation` on an empty catalog (lines 50 and 257),
  the step of a looping clip with no frames (`% 0`, line 102), and a null
  frame array wherever its length is read. The index is in range and the
  frame is never negative. Before the first
  switch, `currentAnimation` may still be the struct default, with index 0. So
  calling `PlayAnimation(0)` before `Start` leaves `GetCurrentAnimName()` null
  (`EarlyIndexZeroKeepsDefault`).
  For the same reason the by-index guard reads the default's `unstoppable`
  (false), so a request made before `Start` switches away from clip 0 even
  when clip 0 is unstoppable (`EarlyRequestIgnoresClip0Unstoppable`).
  Every operation except `StopAnimation` preserves `InRange` (frame < frame
  count). After a stop the frame may be out of range, and it stays so until
  a switch (`Played`) or a due tick (`AnimateStepsOnce`) restores it.

The model follows the code, and these points are proved about it:

- The "no tag" sentinel is the string `"null"`.
- The by-name request drops `Hard` when it delegates to `PlayAnimation(index)`.
  So no by-name request can interrupt an unstoppable clip or restart the
  current one.
- The automatic play in `Start` is a no-op. It logs no start, shows nothing and
  leaves the tag as it was.
- `StopAnimation` keeps the frame, the timer and the override. Because the
  end test is `>=`, a kept frame at or past the last frame of a non-looping
  clip 0 makes the next due tick end clip 0 and start it again.

## Model

| member | source | states |
|---|---|---|
| `Clips.FrameCount` | Assets/Scripts/SpriteAnimation.cs:16 | a playable clip's `frames.Length` is positive |
| `Playback.FirstOrDefault` | Assets/Scripts/SpriteAnimator.cs:277 | `FirstOrDefault` gives the struct default or a catalog clip carrying the name asked for |
| `Playback.FirstTag` | Assets/Scripts/SpriteAnimator.cs:124-131 | the scan's tag is `"null"` or the label of an entry whose index equals the frame |
| `Playback.FrameTagAt` | Assets/Scripts/SpriteAnimator.cs:116-132 | a null or empty tag array gives `"null"`; any other tag is the label of an entry whose index equals the frame |
| `Playback.Broadcast` | Assets/Scripts/SpriteAnimator.cs:139-149 | a notification makes at most one call per list entry, each one to a listener in the list and with the signal given |
| `Playback.EffectiveRate` | Assets/Scripts/SpriteAnimator.cs:70 | the rate is the override when it is positive and the clip's own rate otherwise |
| `Playback.FrameDue` | Assets/Scripts/SpriteAnimator.cs:71-73 | for a positive rate a frame is due exactly when timer × rate ≥ 1; a zero rate is never due; a negative rate is due whenever the accumulated timer is non-negative |
| `Playback.ShouldEnd` | Assets/Scripts/SpriteAnimator.cs:78-79 | only a non-looping clip ends; with the frame in range it ends exactly at its last frame. The test is `>=`, so a frame left past the end by a stop also ends the clip (`StopThenDueTickEnds`) |
| `Playback.WithFrameRate` | Assets/Scripts/SpriteAnimator.cs:169-173 | the override becomes the integer; it is in effect exactly when the integer is positive; nothing else changes |
| `Playback.WithoutOverride` | Assets/Scripts/SpriteAnimator.cs:175-178 | no override is in effect afterwards; nothing else changes |
| `Playback.FindIndex` | Assets/Scripts/SpriteAnimator.cs:234-242 | the result is -1 exactly when no clip has the name; otherwise it is the index of a clip with that name and no earlier clip has it |
| `Playback.Initial` | Assets/Scripts/SpriteAnimator.cs:16-26 | a new player satisfies the invariant: clip index 0, frame in range, no manual request, empty log, no override |
| `Playback.Played` | Assets/Scripts/SpriteAnimator.cs:180-216 | a by-index request always sets the manual flag. It switches only when the current clip is not unstoppable (or force is given), the id is in range, and the id differs (or force is given). A switch shows frame 0 of the new clip with its tag, resets the timer and notifies exactly one start per listener. Any other request changes nothing else. The unstoppable check comes before the range check |
| `Playback.PlayedByName` | Assets/Scripts/SpriteAnimator.cs:218-252 | a by-name request keeps the invariant, keeps the frame range, and never touches the override or the listeners. Its exact outcome in each case is stated by `ByNameUnstoppableNotForced`, `ByNameHardSameName`, `ByNameUnknown` and `ByNameDelegates` |
| `Playback.Animated` | Assets/Scripts/SpriteAnimator.cs:64-112 | a tick keeps the invariant and the listener list, and keeps the frame in range when it was |
| `Playback.Stopped` | Assets/Scripts/SpriteAnimator.cs:254-263 | a stop keeps the invariant and re-synchronises the clip record with clip 0 |
| `Playback.Started` | Assets/Scripts/SpriteAnimator.cs:28-54 | the initialising part of `Start` keeps the invariant and the frame range and installs the found listeners |
| `PlaybackProperties.FirstOrDefaultIsFirstMatch` | Assets/Scripts/SpriteAnimator.cs:275-278 | `GetAnimation` returns the clip at the first index whose name matches, or the struct default when there is none |
| `PlaybackProperties.MissedLookupIsDefault` | Assets/Scripts/SpriteAnimation.cs:12-24 | a lookup with no match yields a null name, null frames, `loop == false` and `unstoppable == false` |
| `PlaybackProperties.FirstTagAt` | Assets/Scripts/SpriteAnimator.cs:114-133 | the tag is that of the first entry whose index equals the frame |
| `PlaybackProperties.FirstTagMissing` | Assets/Scripts/SpriteAnimator.cs:114-133 | when no entry has the frame's index, the tag is `"null"` |
| `PlaybackProperties.ShownTagBelongsToFrame` | Assets/Scripts/SpriteAnimation.cs:5-9 | while a frame is shown, the tag comes from an entry whose index is that frame, which lies in the clip. A tag with an index outside the clip is never shown |
| `PlaybackProperties.BroadcastReaches` | Assets/Scripts/SpriteAnimator.cs:135-150 | a notification calls every non-null listener with that signal and nobody else, at most one call per entry |
| `PlaybackProperties.BroadcastInOrder` | Assets/Scripts/SpriteAnimator.cs:152-167 | callbacks follow list order: notifying `front + back` makes `front`'s calls first, then `back`'s |
| `PlaybackProperties.AnimateWaits` | Assets/Scripts/SpriteAnimator.cs:64-75 | when no frame is due, only the timer changes, by `deltaTime` |
| `PlaybackProperties.AnimateStepsOnce` | Assets/Scripts/SpriteAnimator.cs:64-75 | however large `deltaTime` is, a due tick resets the timer to 0 and makes exactly one step: the next frame of the same clip, or frame 0 of clip 0. Afterwards the shown frame is in range, even after a stop |
| `PlaybackProperties.NormalStep` | Assets/Scripts/SpriteAnimator.cs:99-106 | unless a non-looping clip is at its last frame, the frame becomes `(frame + 1) mod count`, in range. That frame and its tag are shown, and clip, log, override and manual flag are unchanged |
| `PlaybackProperties.LoopWraps` | Assets/Scripts/SpriteAnimator.cs:102 | on a looping clip the last frame wraps to frame 0 with no callback |
| `PlaybackProperties.EndTransition` | Assets/Scripts/SpriteAnimator.cs:78-98 | at the last frame of a non-looping clip the log gains End(old name) for each listener, then Start(clip 0's name). The override is cleared, and the player is at clip 0, frame 0, timer 0, showing that frame, with the manual flag set by `PlayAnimation(0, true)`. This holds whether or not the clip is unstoppable |
| `PlaybackProperties.LoopingClipNeverEnds` | Assets/Scripts/SpriteAnimator.cs:78-84 | a tick on a looping clip makes no callback and keeps the clip and the override |
| `PlaybackProperties.Run` | Assets/Scripts/SpriteAnimator.cs:56-62 | `k` consecutive ticks of equal length keep the invariant and the listener list |
| `PlaybackProperties.LoopingRunNeverEnds` | Assets/Scripts/SpriteAnimator.cs:78-106 | `k` ticks of equal length on a looping clip never log an end (nor anything else) and never leave the clip |
| `PlaybackProperties.LoopingRunCycles` | Assets/Scripts/SpriteAnimator.cs:102 | with a due tick each time, a looping clip shows frame `(f + k) mod count` after `k` ticks from frame `f` |
| `PlaybackProperties.NonLoopingRunAdvances` | Assets/Scripts/SpriteAnimator.cs:99-106 | with a due tick each time, a non-looping clip started at frame 0 is at frame `k` after `k < count` ticks, with no callback |
| `PlaybackProperties.NonLoopingRunEnds` | Assets/Scripts/SpriteAnimator.cs:78-98 | the `count`-th due tick of a non-looping clip started at frame 0 logs its end and clip 0's start, and leaves clip 0 at frame 0 with no override |
| `PlaybackProperties.OverrideOfTenStepsEveryTenth` | Assets/Scripts/SpriteAnimator.cs:169-173 | after `SetFrameRate(10)` the rate is 10, and a 0.1 s tick from a fresh timer steps one frame |
| `PlaybackProperties.NonPositiveRateIsNoOverride` | Assets/Scripts/SpriteAnimator.cs:169-173 | `SetFrameRate(n)` with `n <= 0` is no override: the rate selection at line 70 takes the clip's own rate |
| `PlaybackProperties.ClearedOverrideUsesClipRate` | Assets/Scripts/SpriteAnimator.cs:175-178 | after clearing the override, the clip's own rate applies |
| `PlaybackProperties.ByNameIsUnforcedFirstMatch` | Assets/Scripts/SpriteAnimator.cs:244-251 | a by-name request either changes at most the manual flag, or is the unforced by-index request for the first clip with that name |
| `PlaybackProperties.ByNameUnstoppableNotForced` | Assets/Scripts/SpriteAnimator.cs:220-225 | an unforced by-name request on an unstoppable clip leaves the whole state unchanged, manual flag included |
| `PlaybackProperties.ByNameHardSameName` | Assets/Scripts/SpriteAnimator.cs:227-232 | a `Hard` request for the name the current clip record carries leaves the whole state unchanged, manual flag included |
| `PlaybackProperties.ByNameDelegates` | Assets/Scripts/SpriteAnimator.cs:234-251 | past both guards, a known name gives exactly the unforced by-index request for the first clip with that name |
| `PlaybackProperties.ByNameHardOnUnstoppableOnlyFlags` | Assets/Scripts/SpriteAnimator.cs:218-251 | on an unstoppable clip, a `Hard` request for another known name passes the first guard, but the delegation drops the force: only the manual flag is set |
| `PlaybackProperties.EarlyRequestIgnoresClip0Unstoppable` | Assets/Scripts/SpriteAnimator.cs:180-216 | before the first switch the guard at line 184 reads the default struct of line 20, so a by-index request leaves an unstoppable clip 0 and shows frame 0 of the new clip; no listener is registered yet, so none is called |
| `PlaybackProperties.EarlyIndexZeroKeepsDefault` | Assets/Scripts/SpriteAnimator.cs:180-216 | before the first switch an unforced request for index 0 is not a switch (line 197), so the clip record stays the default struct of line 20 and its name stays null; the manual flag is set |
| `PlaybackProperties.ByNameUnknown` | Assets/Scripts/SpriteAnimator.cs:244-247 | an unknown name leaves the whole state unchanged, manual flag included |
| `PlaybackProperties.ByNameNeverInterruptsUnstoppable` | Assets/Scripts/SpriteAnimator.cs:220-225 | with an unstoppable current clip, a by-name request of either force changes at most the manual flag |
| `PlaybackProperties.ByNameNeverRestarts` | Assets/Scripts/SpriteAnimator.cs:227-232 | a by-name request that resolves to the current clip changes at most the manual flag, even with `Hard` |
| `PlaybackProperties.ForcedByIndexRestarts` | Assets/Scripts/SpriteAnimator.cs:197-211 | a forced by-index request for the current clip restarts it at frame 0 and notifies its start |
| `PlaybackProperties.HardNoStrongerThanUnforced` | Assets/Scripts/SpriteAnimator.cs:218-252 | a `Hard` by-name request has the same result as the unforced one, or changes at most the manual flag |
| `PlaybackProperties.ByNameIdempotent` | Assets/Scripts/SpriteAnimator.cs:218-252 | repeating the same by-name request, as a driver does each tick, changes nothing more |
| `PlaybackProperties.ByIndexIdempotent` | Assets/Scripts/SpriteAnimator.cs:180-216 | repeating the same unforced by-index request changes nothing more |
| `PlaybackProperties.DuplicateUnreachableByName` | Assets/Scripts/SpriteAnimator.cs:235-242 | a clip whose name an earlier clip already has is never reached by a by-name request |
| `PlaybackProperties.StopKeepsPosition` | Assets/Scripts/SpriteAnimator.cs:254-263 | a stop selects clip 0, clears the display, sets the tag to `"null"` and makes no callback. It keeps the frame, timer, override and manual flag |
| `PlaybackProperties.StopThenDueTickEnds` | Assets/Scripts/SpriteAnimator.cs:78-97 | after a stop that keeps a frame at or past the last frame of a non-looping clip 0, the next due tick logs End(clip 0) then Start(clip 0), and leaves clip 0 at frame 0 with no override |
| `PlaybackProperties.StopCanLeaveFrameOutOfRange` | Assets/Scripts/SpriteAnimator.cs:254-263 | a concrete state: after a stop, frame 2 is past the end of a one-frame clip 0 |
| `PlaybackProperties.StartIsQuiet` | Assets/Scripts/SpriteAnimator.cs:47-53 | `Start` makes no callback and leaves the display, tag, frame, timer and override unchanged. With no earlier request it selects clip 0 and sets the manual flag unless clip 0 is unstoppable |
| `PlaybackProperties.IdleWalkScenario` | Assets/Scripts/SpriteAnimator.cs:47-112 | for an Idle(2 frames, 2 fps)/Walk(4 frames, 8 fps) catalog: `Start` shows nothing new; a request for "Walk" logs its start and shows its frame 0; four 1/8 s ticks show frames 1, 2, 3, 0 with no end, and the tag "step" appears exactly at frame 2 |
| `Animator.SpriteAnimator.constructor` | Assets/Scripts/SpriteAnimator.cs:13-26 | the fields start as the C# initialisers give them: the state is `Initial` |
| `Animator.SpriteAnimator.Start` | Assets/Scripts/SpriteAnimator.cs:28-54 | the fields afterwards are `Started` of the fields before |
| `Animator.SpriteAnimator.Update` | Assets/Scripts/SpriteAnimator.cs:56-62 | a tick leaves the fields as `Animated` |
| `Animator.SpriteAnimator.Animate` | Assets/Scripts/SpriteAnimator.cs:64-112 | the step-by-step field updates produce exactly `Animated` and keep `Valid()` |
| `Animator.SpriteAnimator.UpdateFrameTag` | Assets/Scripts/SpriteAnimator.cs:114-133 | the scan loop leaves `currentFrameTag` equal to `FrameTagAt` of the current clip's tags and frame |
| `Animator.SpriteAnimator.Notify` | Assets/Scripts/SpriteAnimator.cs:135-167 | the notification loop appends exactly `Broadcast(listeners, signal)` to the log |
| `Animator.SpriteAnimator.SetFrameRate` | Assets/Scripts/SpriteAnimator.cs:169-173 | only the override changes, to the given integer |
| `Animator.SpriteAnimator.ClearFrameRateOverride` | Assets/Scripts/SpriteAnimator.cs:175-178 | only the override changes, to -1 |
| `Animator.SpriteAnimator.PlayAnimation` | Assets/Scripts/SpriteAnimator.cs:180-216 | the fields afterwards are `Played` of the fields before |
| `Animator.SpriteAnimator.PlayAnimationByName` | Assets/Scripts/SpriteAnimator.cs:218-252 | the search loop finds `FindIndex`, and the fields afterwards are `PlayedByName` of the fields before: unchanged after either guard or an unknown name, else the unforced `PlayAnimation(index)` |
| `Animator.SpriteAnimator.StopAnimation` | Assets/Scripts/SpriteAnimator.cs:254-263 | the fields afterwards are `Stopped` of the fields before |
| `Animator.SpriteAnimator.GetCurrentAnimIndex` | Assets/Scripts/SpriteAnimator.cs:265-268 | the current index, always a valid catalog index |
| `Animator.SpriteAnimator.GetCurrentAnimName` | Assets/Scripts/SpriteAnimator.cs:270-273 | null while the clip record is still the default struct (before the first switch); otherwise the name of the clip at the current index |
| `Animator.SpriteAnimator.GetAnimation` | Assets/Scripts/SpriteAnimator.cs:275-278 | the first clip with the name, or the struct default when none has it |

## Left out

- Listener discovery by scanning the scene (`FindObjectsByType`): the list it finds is the parameter of `Start`. Its order is whatever the host gives.
- Renderer lookup with `GetComponent` and the early return when no renderer exists: the renderer is assumed present, as the field `displayed`.
- `Debug.Log`/`Debug.LogError` messages and the `debug` flag: they do not affect state. The reported failures are the paths that leave the clip alone: an unknown name changes nothing, while an out-of-range `PlayAnimation(int)` (logged at SpriteAnimator.cs:193) still sets the manual flag, set at line 182 before the check.
- IEEE single-precision rounding of `Time.deltaTime`, `1f/frameRate` and the timer comparison: the model uses exact `real` arithmetic. A zero rate is +infinity and never due; a negative rate gives a negative duration.
- Running listener code: callbacks are recorded, not executed. So a listener that calls back into the player during a notification is not modelled.
- A null `FrameTag.tag` string and null entries inside `frames` are not distinguished from other values. A tag whose label is literally `"null"` looks like no tag, as in the code.
- An empty catalog, or a clip with null or empty frames. `CatalogOk` excludes them, so the model also leaves out the paths on which the C# copes with them without throwing: `Update` doing nothing on an empty catalog (SpriteAnimator.cs:58), a switch to a clip with no frames keeping the old sprite (line 204), and a non-looping empty clip ending at its first due tick (lines 78-79). The throwing paths (lines 50, 102 and 257, and a null frame array) are excluded with them.
- Assets/Scripts/PlayerMovement.cs: the input and physics driver that calls `PlayAnimation(name)`; it is not part of this model.
- Unity serialization attributes and sprite contents.
