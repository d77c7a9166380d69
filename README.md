# Avatar animation and expression control, modelled in Dafny

This project models the control layer of a browser VRM avatar:
- the animation sequencer with its randomised "special idle" scheduler;
- the audio-driven lip sync with its smile micro-expressions and end-of-clip smile fade;
- automatic blinking;
- the expression and vowel buttons;
- the chat history;
- the rules that retarget a Mixamo FBX animation onto a VRM skeleton.

The code is modelled module by module:

- `Wrappers`: `Option` and `Result`.
- `Expressions`: the expression manager's weight table.
  - `setValue` writes a registered name and ignores any other name.
  - `ExpressionManager` is a class over that table.
  - Every component below writes through it.
- `ExpressionControls`, `VoiceExpressionControls`: the reset-then-set click handlers.
  - Each handler is a method that updates the manager in place.
  - Each is proved equal to `ResetThenSet`.
- `ChatContext`: `addMessage` as a pure append.
- `BlendShapes`: the blink timer.
  - A pure step function `UpdateBlink` with its start and end rules, and its timing invariant.
  - The `BlinkController` class, whose `UpdateExpression` is proved against it.
- `MouthSync`: the lip sync pipeline.
  - Pure: the per-frame pipeline from spectrum to visemes, and the fade values.
  - The `LipSync` class holds the smoothing state, the smile timer and the callbacks still pending.
  - The `SmileFade` class holds the fade's frame counter.
- `AnimationSpec`: the sequencer as a discrete-event state machine over values.
  - A command, a timeout firing, or a wait ending is each one function on `State`.
  - Lemmas cover the timer invariant, the step rules and the scenarios.
  - `Env` supplies `Math.random()` per timeout handle, and whether the n-th loader call throws.
- `AnimationControl`: the `AnimationSystem` class and the singleton `Registry`.
  - Each method is proved to move `Model()` the way the matching `AnimationSpec` event moves `State`.
  - `playAnimation`'s `for…of` loop is a `while` loop with its invariant.
- `Mixamo`: clip selection, track-name splitting, the keep/drop/fail decision per track, and the VRM0 sign flip and hips scaling.
  - The `forEach` becomes a method with a loop, proved equal to a pure specification.
  - That specification is characterised by independent reference definitions, written as a filter and a first failure.
  - The quaternion `i += 4` loop works in place on an array.

Asynchrony is modelled as events. A `playAnimation` call runs up to its first step wait and records that wait in `walks`. `StepWaitFinished` resumes it. The special-idle callback likewise waits in `specials`, and `SpecialClipFinished` resumes it. Timeouts are handles in a map, and firing is an event on an armed handle. Timeout handles start at 1, as browser timeout handles do, so a stored handle is truthy.

Behaviour of the code worth knowing:
- `stopCurrentAnimation` only clears `currentAnimation`. It cancels no pending step wait. A later `playAnimation` does not cancel one either; see `AnimationSpec.PlayKeepsWalks`.
- The end-of-clip fade has 12 frames each way. The idle clip is requested in the same handler that starts the fade, while the fade is still running.
- `pause` cancels only the next smile attempt. A pending 1000 ms reset of `happy` still fires, and the viseme frame loop never stops.
- When a special clip ends, the timeout callback arms the next timeout without clearing the one the handle holds (see "## Findings"). `AnimationSpec` states both versions of that callback tail, and the `AnimationSystem` class runs the corrected one.

## Model

| member | source | states |
|---|---|---|
| Expressions.WithValue | src/components/ExpressionControls.js:9-27 | `setValue(name, v)` keeps the set of registered names. It gives `name` the weight `v` when registered and leaves every other weight as it was. |
| Expressions.ResetNone | src/components/ExpressionControls.js:9 | Resetting no name leaves the table unchanged. |
| Expressions.ResetNext | src/components/ExpressionControls.js:9-24 | One more `setValue(n, 0)` in list order extends the reset of the earlier names. |
| Expressions.ResetThenSetEffect | src/components/ExpressionControls.js:9-27 | Reset-then-set keeps the registered names. The chosen name gets 1, the other listed names 0, and unlisted names are unchanged. |
| Expressions.ResetThenSetIdempotent | src/components/ExpressionControls.js:9-27 | When the chosen name is listed, applying reset-then-set twice equals applying it once. |
| Expressions.ResetThenSetSingleNonzero | src/components/ExpressionControls.js:9-27 | When the chosen name is listed and registered, it is the only listed name left nonzero. |
| Expressions.ExpressionManager.constructor | src/components/ExpressionControls.js:6 | The manager starts with the avatar's registered weights. |
| Expressions.ExpressionManager.SetValue | src/components/ExpressionControls.js:9 | The in-place `setValue` leaves the table `WithValue` describes. |
| Expressions.Vrm.constructor | src/components/ExpressionControls.js:6 | The avatar's `expressionManager` may be missing. |
| ExpressionControls.HandleExpressionChange | src/components/ExpressionControls.js:5-29 | With a manager, the table becomes the reset of the sixteen names in order followed by setting the chosen name to 1. Without a manager, nothing changes. |
| ExpressionControls.ClickLeavesOneNonzero | src/components/ExpressionControls.js:33-48 | After a click on a button whose name the avatar registers, that expression is 1 and the only one of the sixteen that is nonzero. When the avatar lacks the name, all sixteen registered expressions end at 0. |
| ExpressionControls.ClickTwiceIsClickOnce | src/components/ExpressionControls.js:9-48 | Clicking a button twice leaves the same weights as clicking it once. |
| VoiceExpressionControls.HandleVoiceExpressionChange | src/components/VoiceExpressionControls.js:5-18 | With a manager, the five vowels reset in order, then the chosen name is set to 1. Without a manager, nothing changes. |
| VoiceExpressionControls.VowelClickEffect | src/components/VoiceExpressionControls.js:9-26 | A vowel click gives the chosen vowel 1 when the avatar registers it, and the other four vowels 0. Every non-vowel, such as `smile`, is unchanged, and no name is added. |
| VoiceExpressionControls.VowelClickTwiceIsClickOnce | src/components/VoiceExpressionControls.js:9-26 | Repeating a vowel click is idempotent. |
| ChatContext.InitialHistory | src/context/ChatContext.js:9 | The history starts empty. |
| ChatContext.AddMessage | src/context/ChatContext.js:12-14 | The length grows by one, earlier entries are unchanged and in order, and the last entry is `{text: message, sender}`. |
| ChatContext.AddMessagesAppends | src/context/ChatContext.js:12-14 | n successive adds keep the old history as a prefix and append their messages in call order. |
| BlendShapes.StartRule | src/components/controlBlendShapes.js:21-27 | A blink starts exactly when the eyes are open and the advanced timer reaches 3. It writes 1 and records the timer as its start. It is still blinking after that same update. |
| BlendShapes.EndRule | src/components/controlBlendShapes.js:29-33 | An ongoing blink ends exactly when the timer reaches start + 0.2, writing 0 and resetting the timer. Otherwise it writes nothing and keeps its start. |
| BlendShapes.BlinkWrites | src/components/controlBlendShapes.js:26-30 | `blink` is only written as 1 or 0, and 1 is written exactly on entry to the blinking state. |
| BlendShapes.InitialSatisfiesInvariant | src/components/controlBlendShapes.js:13-15 | The starting variables satisfy the timing invariant. |
| BlendShapes.UpdatePreservesInvariant | src/components/controlBlendShapes.js:20-34 | For a non-negative delta, an update preserves the invariant: open eyes mean timer < 3, and a blink means timer ≥ start ≥ 3. |
| BlendShapes.RunPreservesInvariant | src/components/controlBlendShapes.js:20-44 | After any run of frames with non-negative deltas the invariant holds, so open eyes always have timer < 3. |
| BlendShapes.BlinkController.constructor | src/components/controlBlendShapes.js:11-15 | The blink variables start at 0, not blinking. |
| BlendShapes.BlinkController.UpdateExpression | src/components/controlBlendShapes.js:20-34 | The variables move as `UpdateBlink` says, and the table gets the update's last `blink` write. |
| BlendShapes.ControlBlendShapes | src/components/controlBlendShapes.js:4-18 | Without a manager, nothing is set and no loop starts. Otherwise, `smile` is set to 1 once and blinking starts from zero. |
| MouthSync.Sum | src/utils/syncMouthAnimation.js:49-51 | The `reduce` sum of n bytes lies in [0, 255·n]. |
| MouthSync.RawBandsInRange | src/utils/syncMouthAnimation.js:14-51 | The three band means over bins [0,32), [32,64) and [64,128) each lie in [0, 255]. |
| MouthSync.SmoothBetween | src/utils/syncMouthAnimation.js:40-56 | One smoothing step `0.8·s + 0.2·raw` stays within [0,255] and between the old value and the raw value. |
| MouthSync.SmoothBandsInRange | src/utils/syncMouthAnimation.js:54-56 | The smoothed bands stay in [0, 255] on every frame. |
| MouthSync.SmoothConstantRises | src/utils/syncMouthAnimation.js:41-56 | From 0, under a constant raw input r, the smoothed value rises monotonically and never exceeds r. |
| MouthSync.VisemeBounds | src/utils/syncMouthAnimation.js:25-67 | Each viseme lies between 0 and its cap: aa 0.5, ih 1, ou 0.5, ee 0.6, oh 0.6. Also ee = oh and ih ≥ ou. |
| MouthSync.SumConstant | src/utils/syncMouthAnimation.js:49-51 | The sum of n equal bytes c is c·n. |
| MouthSync.LowToneConverges | src/utils/syncMouthAnimation.js:49-67 | On full low-band frames from a fresh start, aa never decreases, stays ≤ 0.5, and is at its cap from the second frame on. The other visemes stay 0. |
| MouthSync.LowToneReachesCap | src/utils/syncMouthAnimation.js:54-59 | From the second such frame on, the smoothed low band is at least 64. |
| MouthSync.TotalFramesIsTwelve | src/utils/syncMouthAnimation.js:109-111 | `Math.round(200 / (1000 / 60))` is 12. |
| MouthSync.RampUpShape | src/utils/syncMouthAnimation.js:115-121 | The ramp-up values `0.8·k/12` for k < 12 start at 0, strictly increase, and stay below 0.8. |
| MouthSync.RampDownShape | src/utils/syncMouthAnimation.js:124-133 | The ramp-down values `0.8·(1−k/12)` start at 0.8 and strictly decrease. The last is 0.8/12, so `happy` is never set to 0. |
| MouthSync.LipSync.RequestVrma | src/utils/animationUtils.js:43-47 | `loadVRMAnimation` without a VRM returns before the loader is reached, so the log of VRMA loads is unchanged. With one, the path is appended to that log. |
| MouthSync.SmileFade.constructor | src/utils/syncMouthAnimation.js:112 | The fade's frame counter starts at 0, in the ramp-up phase. |
| MouthSync.SmileFade.IncrementSmile | src/utils/syncMouthAnimation.js:115-122 | Before frame 12, it writes `happy` = 0.8·k/12 and advances the counter. At frame 12, it writes nothing and starts the 1500 ms hold. |
| MouthSync.SmileFade.HoldElapsed | src/utils/syncMouthAnimation.js:124-136 | After the hold, the counter restarts and the first ramp-down frame writes 0.8. |
| MouthSync.SmileFade.DecrementSmile | src/utils/syncMouthAnimation.js:126-133 | Before frame 12, it writes `happy` = 0.8·(1−k/12) and advances. At frame 12, it writes nothing and schedules nothing more. |
| MouthSync.LipSync.constructor | src/utils/syncMouthAnimation.js:10-43 | A session makes one `loadAnimation` call, for the talking clip with speed 1.0, and no VRMA load. It starts with zeroed smoothing, no smile timer and no frame loop. |
| MouthSync.LipSync.ArmSmileTimer | src/utils/syncMouthAnimation.js:91-99 | A new smile timeout is armed with a delay of `random·2000 + 1000`, in [1000, 3000). Its handle is stored in `smileTimer`. |
| MouthSync.LipSync.UpdateMouthAnimation | src/utils/syncMouthAnimation.js:45-75 | The bands are smoothed toward this frame's band means. The five visemes of the new smoothed bands are written in source order. |
| MouthSync.LipSync.AnimationFrame | src/utils/syncMouthAnimation.js:77 | Each frame of a live chain runs the same update. The chain re-schedules itself with no condition. |
| MouthSync.LipSync.OnPlay | src/utils/syncMouthAnimation.js:94-100 | `play` runs one frame at once, starts a frame chain and arms the first smile timeout. |
| MouthSync.LipSync.PlaySmileAnimation | src/utils/syncMouthAnimation.js:80-92 | When the draw is > 0.5, `happy` goes to 0.1 and a 1000 ms reset is armed. Otherwise nothing is written. The next attempt is always armed. |
| MouthSync.LipSync.SmileTimerFires | src/utils/syncMouthAnimation.js:80-92 | A smile timeout that fires leaves the pending set and runs `playSmileAnimation`. |
| MouthSync.LipSync.SmileResetFires | src/utils/syncMouthAnimation.js:85-87 | The 1000 ms reset puts `happy` back to 0 and changes nothing else. |
| MouthSync.LipSync.ClearSmileTimer | src/utils/syncMouthAnimation.js:103-107 | `clearTimeout(smileTimer)` cancels only the timeout whose handle the variable holds. |
| MouthSync.LipSync.OnPause | src/utils/syncMouthAnimation.js:102-104 | `pause` cancels only the smile timeout. Pending resets and frame chains go on. |
| MouthSync.LipSync.OnEnded | src/utils/syncMouthAnimation.js:106-145 | `ended` cancels the timeout the handle held before the event. It runs the first fade frame (`happy` = 0) and logs one `loadAnimation` call for the idle clip, with no speed. The VRMA request has no VRM, so the VRMA load log is unchanged. The handle, the smoothing, pending resets and frame chains are untouched. |
| MouthSync.SyncMouthAnimation | src/utils/syncMouthAnimation.js:3-23 | It returns before doing anything exactly when the VRM or its manager is missing. Otherwise it logs one `loadAnimation` call for the talking clip with speed 1.0 and no VRMA load. It starts with zeroed smoothing, no smile timer held or pending, no reset pending and no frame chain. |
| AnimationSpec.DelayInRange | src/utils/AnimationSystem.js:120 | The special-idle delay `random·10000 + 10000` lies in [10000, 20000). |
| AnimationSpec.SpecialIndex | src/utils/AnimationSystem.js:130-133 | `Math.floor(Math.random()·5)` indexes the five-entry special list. |
| AnimationSpec.OneTimerAtMostOne | src/utils/AnimationSystem.js:114-123 | Under the timer invariant at most one special timeout is armed. |
| AnimationSpec.InitialOneTimer | src/utils/AnimationSystem.js:11-13 | A new sequencer has no timeout armed. |
| AnimationSpec.PauseEffect | src/utils/AnimationSystem.js:158-172 | Pause and stop leave the flag true, the handle null and nothing armed. Pause equals stop, and both are idempotent. |
| AnimationSpec.ResumeEffect | src/utils/AnimationSystem.js:174-181 | Resume clears the old handle and sets the flag false. Exactly one timeout is left armed, the new one, with a delay in [10000, 20000). |
| AnimationSpec.ResumeTwiceOneTimer | src/utils/AnimationSystem.js:174-181 | Two resumes in a row still leave a single armed timeout. |
| AnimationSpec.StepGatePreserves | src/utils/AnimationSystem.js:58-64 | Per step, the scheduler is paused exactly when the name is not `idle` and the path is not `/animations/idle.fbx`. The timer invariant is kept. |
| AnimationSpec.RunStepsPreserves | src/utils/AnimationSystem.js:52-93 | Any part of a step walk, including the idle fallback, keeps at most one timeout armed. |
| AnimationSpec.PlayPreserves | src/utils/AnimationSystem.js:32-94 | `playAnimation` keeps at most one timeout armed, so after any alternation of sequences at most one is pending. |
| AnimationSpec.StepWaitDonePreserves | src/utils/AnimationSystem.js:76 | Ending a step wait keeps the timer invariant. |
| AnimationSpec.FireTimerPreserves | src/utils/AnimationSystem.js:123-137 | A firing timeout keeps the timer invariant. |
| AnimationSpec.SpecialWaitDonePreserves | src/utils/AnimationSystem.js:141-151 | With the handle cleared first, finishing a special clip keeps at most one timeout armed. |
| AnimationSpec.AsWrittenLeaksTimer | src/utils/AnimationSystem.js:141-151 | As written, a trace reaches two armed timeouts: play `idle`, let its timeout fire, play `idle` again during the special clip, then let the clip end. |
| AnimationSpec.UnknownSequenceNoChange | src/utils/AnimationSystem.js:33-37 | An unknown name changes nothing: not `currentAnimation`, not the timer, not the flag. |
| AnimationSpec.RunStepsKeepsCleared | src/utils/AnimationSystem.js:52-93 | No step sets `currentAnimation` again. |
| AnimationSpec.PlayClearsCurrentAnimation | src/utils/AnimationSystem.js:32-50 | `currentAnimation` is set and then cleared before any step runs, so a known name leaves it null. |
| AnimationSpec.CatalogueEndsInfinite | src/utils/AnimationSystem.js:16-27 | Every catalogue sequence ends in an infinite step, and only its last step is infinite. |
| AnimationSpec.InfiniteStepReturns | src/utils/AnimationSystem.js:74-80 | After a successful load of an infinite step the walk returns, so neither a later step nor the fallback runs. |
| AnimationSpec.FiniteStepWaits | src/utils/AnimationSystem.js:74-76 | After a successful load of a finite step, the walk suspends in its wait and keeps the later steps. |
| AnimationSpec.ThrowingStepSkipsWait | src/utils/AnimationSystem.js:66-83 | A step whose loader throws is caught. Its wait is skipped and the next step runs. |
| AnimationSpec.IdleRun | src/utils/AnimationSystem.js:32-64 | When its load succeeds, `idle` makes one load, resumes the scheduler and leaves one armed timeout. It allocates two handles. |
| AnimationSpec.TalkingRun | src/utils/AnimationSystem.js:32-64 | When its load succeeds, `talking` makes one load and pauses the scheduler with nothing armed. It does not fall back to idle. |
| AnimationSpec.StartRun | src/utils/AnimationSystem.js:32-80 | `start` pauses on its VRMA step and waits 7000 ms. When the wait ends it resumes on its idle step. Only those two loads are made, and the idle fallback never runs. |
| AnimationSpec.TalkingFailureReachesIdle | src/utils/AnimationSystem.js:45-93 | When `talking`'s only load throws, the walk is left paused with nothing armed and one load logged, and it goes on as `playAnimation('idle')`. |
| AnimationSpec.TalkingLoadFailureFallsBack | src/utils/AnimationSystem.js:81-93 | If the talking clip fails to load, the loop runs off its end and falls back to `idle`, which re-arms the scheduler. |
| AnimationSpec.RunStepsKeepsWalks | src/utils/AnimationSystem.js:52-93 | A walk only appends to the pending step waits. |
| AnimationSpec.PlayKeepsWalks | src/utils/AnimationSystem.js:32-99 | A later `playAnimation` cancels no pending step wait. |
| AnimationSpec.FireWhilePaused | src/utils/AnimationSystem.js:124-127 | A timeout that fires while paused does nothing. |
| AnimationSpec.FireLoadsSpecial | src/utils/AnimationSystem.js:106-143 | Otherwise it loads one of the five special clips and waits for that clip's duration. |
| AnimationSpec.SpecialDoneWhilePaused | src/utils/AnimationSystem.js:145 | If paused when the clip ends, both the as-written and the corrected tail stop without loading idle or re-arming. |
| AnimationSpec.SpecialDoneReArms | src/utils/AnimationSystem.js:149-151 | As written, a clip that ends unpaused loads `/animations/idle.fbx`. A new timeout in [10000, 20000) is armed under the next handle, beside every timeout already armed, and each of those keeps its delay. |
| AnimationSpec.CorrectedSpecialDoneReArms | src/utils/AnimationSystem.js:101-151 | With the held timeout cleared first, as `playIdleWithSpecialAnimations` does, exactly one timeout is left armed: the new one. |
| AnimationSpec.IdleCycle | src/utils/AnimationSystem.js:114-153 | Play idle, fire, finish through the as-written tail: the loads are idle, one special clip, then idle again, and exactly one new timeout is armed, since the held one has already fired. |
| AnimationControl.AnimationSystem.constructor | src/utils/AnimationSystem.js:5-27 | A new sequencer stores its loaders and the catalogue, with nothing current, no handle and the flag false. |
| AnimationControl.AnimationSystem.LoadAnimation | src/utils/AnimationSystem.js:66-72 | A `loadAnimation` call is logged, and it throws as the environment says. |
| AnimationControl.AnimationSystem.LoadVRMAnimation | src/utils/AnimationSystem.js:66-72 | A `loadVRMAnimation` call is logged, and it throws as the environment says. |
| AnimationControl.AnimationSystem.StopCurrentAnimation | src/utils/AnimationSystem.js:96-99 | It clears `currentAnimation`, changes nothing else and keeps the timer invariant. |
| AnimationControl.AnimationSystem.StopSpecialAnimations | src/utils/AnimationSystem.js:158-166 | The object moves as `StopSpecial` says. No timeout is left armed, and the invariant holds. |
| AnimationControl.AnimationSystem.PauseSpecialAnimations | src/utils/AnimationSystem.js:168-172 | The object moves as `PauseSpecial` says. No timeout is left armed, and the invariant holds. |
| AnimationControl.AnimationSystem.ScheduleNextSpecialAnimation | src/utils/AnimationSystem.js:114-123 | Unless paused, one timeout is armed under the next handle and the handle is stored. |
| AnimationControl.AnimationSystem.PlayIdleWithSpecialAnimations | src/utils/AnimationSystem.js:101-156 | Stop, clear the flag, then schedule. At most one timeout stays armed, the one the handle names. |
| AnimationControl.AnimationSystem.ResumeSpecialAnimations | src/utils/AnimationSystem.js:174-181 | The object moves as `ResumeSpecial` says. At most one timeout stays armed, the one the handle names. |
| AnimationControl.AnimationSystem.PlayAnimation | src/utils/AnimationSystem.js:32-94 | `playAnimation` moves the object as `Play` says and keeps the timer invariant. |
| AnimationControl.AnimationSystem.ContinueSteps | src/utils/AnimationSystem.js:52-93 | The `for…of` loop and the idle fallback move the object as `RunSteps` says. |
| AnimationControl.AnimationSystem.GateAndLoad | src/utils/AnimationSystem.js:58-72 | One loop pass up to its load: the step's timer rule, then the loader its kind names. The object moves as `StepGate` then `LoadCall` say, and the timer invariant is kept. |
| AnimationControl.AnimationSystem.PlayStartWithIdleAndSpecialAnimations | src/utils/AnimationSystem.js:183-186 | It is `playAnimation('start')`. |
| AnimationControl.AnimationSystem.StepWaitFinished | src/utils/AnimationSystem.js:76 | When a step wait ends, the suspended loop goes on with its later steps. |
| AnimationControl.AnimationSystem.SpecialTimerFired | src/utils/AnimationSystem.js:123-143 | The timeout callback runs up to its clip wait, as `FireTimer` says. |
| AnimationControl.AnimationSystem.SpecialClipFinished | src/utils/AnimationSystem.js:145-151 | The rest of the callback runs with the corrected re-arm, as `SpecialWaitDone` says, and at most one timeout stays armed. |
| AnimationControl.Registry.constructor | src/utils/AnimationSystem.js:2 | No instance exists yet. |
| AnimationControl.Registry.Construct | src/utils/AnimationSystem.js:5-7 | A second construction returns the first instance unchanged and ignores its new loaders. The first construction creates and records a fresh sequencer. |
| Mixamo.FindByName | src/components/loadMixamoAnimation.js:10 | `findByName` finds the first clip with the name, or reports that none has it. |
| Mixamo.SelectClip | src/components/loadMixamoAnimation.js:10-13 | The asset's own first clip named `mixamo.com` is chosen when one exists, else its first clip. There is none exactly when the asset has no clips. |
| Mixamo.IndexOf | src/components/loadMixamoAnimation.js:37 | The position of the first separator, or that there is none. |
| Mixamo.IndexOfFirst | src/components/loadMixamoAnimation.js:37 | The separator after a dot-free prefix is the first one. |
| Mixamo.SplitJoin | src/components/loadMixamoAnimation.js:37-67 | Splitting `rig.property` on `.` gives back the rig and the property. A renamed track splits to its VRM node. |
| Mixamo.FlipQuaternions | src/components/loadMixamoAnimation.js:69 | The quaternion value map preserves length. |
| Mixamo.ScaleVectors | src/components/loadMixamoAnimation.js:73-75 | The vector value map preserves length. |
| Mixamo.FlipQuaternionsEffect | src/components/loadMixamoAnimation.js:69 | For VRM0, even indices are negated and odd ones kept. Otherwise the values are unchanged. |
| Mixamo.FlipQuaternionsInvolution | src/components/loadMixamoAnimation.js:69 | The VRM0 flip undoes itself. |
| Mixamo.ScaleVectorsEffect | src/components/loadMixamoAnimation.js:73-75 | For VRM0, indices with i mod 3 ≠ 1 are negated. Then every value is multiplied by the hips scale. |
| Mixamo.ScaleVectorsInverse | src/components/loadMixamoAnimation.js:73-75 | A nonzero scale is undone by its reciprocal, and the flip by itself. |
| Mixamo.Corrected | src/components/loadMixamoAnimation.js:56-64 | The rest-pose correction preserves the number of values. |
| Mixamo.CorrectedBlocks | src/components/loadMixamoAnimation.js:56-64 | Each whole block of four values becomes the corrected rotation of that block. |
| Mixamo.CorrectInPlace | src/components/loadMixamoAnimation.js:56-64 | The `i += 4` loop rewrites the array in place to the corrected values. |
| Mixamo.KeptIff | src/components/loadMixamoAnimation.js:40-76 | A track is kept exactly when it is mapped on both sides, is not the hips position, has a parent, and is a quaternion or vector track. It throws exactly when it is mapped, is not the hips position, and lacks a parent. |
| Mixamo.HipsPositionDropped | src/components/loadMixamoAnimation.js:47-50 | A `rig.position` track whose rig maps to `hips` is always dropped. |
| Mixamo.KeptTrackShape | src/components/loadMixamoAnimation.js:65-82 | A kept track keeps its kind, its times and its value count. It is renamed `vrmNodeName.propertyName`. |
| Mixamo.KeptQuaternionValues | src/components/loadMixamoAnimation.js:56-71 | Kept quaternion values are the corrected values, flipped on even indices for VRM0. |
| Mixamo.KeptVectorValues | src/components/loadMixamoAnimation.js:73-82 | Kept vector values are negated off the y axis for VRM0 and scaled by the hips scale. |
| Mixamo.KeptOfAppend | src/components/loadMixamoAnimation.js:36-76 | The kept tracks of a longer list extend those of its prefix. |
| Mixamo.FirstFailureAppend | src/components/loadMixamoAnimation.js:36-53 | The first failure of a longer list is that of its prefix, if the prefix has one. |
| Mixamo.RetargetTracksCharacterized | src/components/loadMixamoAnimation.js:36-85 | The `forEach` rejects with the first throwing track's error. Otherwise it yields exactly the kept tracks in source order. |
| Mixamo.FirstFailureNoneIff | src/components/loadMixamoAnimation.js:36-85 | There is no failure exactly when no track throws. |
| Mixamo.KeptOfOrigin | src/components/loadMixamoAnimation.js:36-85 | There are no more kept tracks than source tracks, and each kept track comes from one of them. |
| Mixamo.HipsPositionScale | src/components/loadMixamoAnimation.js:25-34 | The scale times the motion hips height is \|vrmHipsY − vrmRootY\|. It is non-negative when the motion height is positive. |
| Mixamo.RetargetErrors | src/components/loadMixamoAnimation.js:10-30 | No clip, no `mixamorigHips` node and no VRM `hips` bone each reject with their own error, in that order. |
| Mixamo.RetargetResult | src/components/loadMixamoAnimation.js:86 | A produced clip is named `vrmAnimation` and has the selected clip's duration. It holds the kept tracks in order, and no track threw. |
| Mixamo.RetargetOne | src/components/loadMixamoAnimation.js:37-83 | The callback for one track, with the in-place quaternion loop, computes `RetargetTrack`. |
| Mixamo.RetargetAll | src/components/loadMixamoAnimation.js:36-85 | The `forEach` loop, which pushes each kept track in order and stops at the first throw, computes `RetargetTracks`. |
| Mixamo.LoadMixamoAnimation | src/components/loadMixamoAnimation.js:8-86 | The load with its early exits and its pushing `forEach` computes `Retarget`. |
| Mixamo.FailurePersists | src/components/loadMixamoAnimation.js:36-85 | Once some track has thrown, the whole `forEach` has thrown. |

## Left out

- AnimationControl.AnimationSystem.SpecialClipFinished: runs the corrected tail of the timeout callback, which clears the held timeout before arming the next. The as-written tail, which can leave two timeouts armed, is stated only as `AnimationSpec.SpecialWaitDoneAsWritten` (see "## Findings").
- AnimationSpec.CorrectedSpecialDoneReArms: states the corrected tail, not the code as written; `AnimationSpec.SpecialDoneReArms` states the code as written.
- AnimationSpec.UnknownSequenceNoChange: the name lookup is modelled on the catalogue's own keys only. Names inherited from `Object.prototype`, such as `toString` or `constructor`, find a truthy value in the source. For those it sets `currentAnimation`, pauses the scheduler (clearing the armed timeout), clears `currentAnimation` and rejects with a `TypeError` at the `for…of`. The model treats them as unknown names that change nothing.

- The avatar scene is left out: rendering, camera, post-processing, resizes, the FBX/GLTF loaders and the animation mixer. These are library calls. The loaders appear only as calls that are logged and may throw.
- Web Audio is left out: the audio context, the analyser, the audio element and playback. Each frame's 128-bin byte spectrum is an input.
- `requestAnimationFrame` cadence, the clock and real time are left out. Frames, timeouts and waits are separate events, and the order in which they arrive is free.
- Raced promise resolutions are not modelled. Each loader call resolves or throws before the next event.
- `Math.random` is an input in [0, 1). It is indexed by timeout handle for the special-idle delays, and passed as an argument elsewhere.
- Floating point is left out. Weights and times are exact reals, so IEEE-754 rounding, `Infinity` and `NaN` are not modelled.
- The library's clamp of expression weights to [0, 1] is left out. Every weight the code writes already lies in that range.
- The Mixamo-to-VRM bone table is a parameter. It is not modelled, because its contents are not part of this model.
- The quaternion arithmetic of the rest-pose correction (`getWorldQuaternion`, `invert`, `premultiply`, `multiply`) is an uninterpreted function of the parent rotation, the rest rotation and the key.
- Mixamo.CorrectInPlace: a trailing partial block of fewer than four values is left as it is. The source computes it from missing components, which gives `NaN`.
- Mixamo.HipsPositionScale: a zero motion hips height gives the error `ZeroMotionHipsHeight`. The source divides by zero and goes on with a non-finite scale.
- Mixamo.LoadMixamoAnimation: the quaternion loop writes into a copy of the track's values. The source writes into the source asset's own track, which is not used again.
- Console logging is left out throughout. So are the React components' markup, the microphone recording, the chat API and the proxy.
- MouthSync.LipSync.OnPlay: `audioContext.resume()` is left out. It only affects audio output.

## Findings

| source | as written | input that shows it | evidently intended | confidence | as-written member | corrected member |
|---|---|---|---|---|---|---|
| src/utils/AnimationSystem.js:145-151 | After its special clip has played, the timeout callback loads idle and calls `scheduleNextSpecialAnimation()` without clearing the timeout that `specialAnimationTimer` holds. | Play `idle`. Let its timeout fire. During the special clip's wait, call `playAnimation('idle')`, which arms a new timeout. When the clip ends, a second timeout is armed beside it. | At most one special-idle timeout is live. `playIdleWithSpecialAnimations` stops any existing one before arming. | medium, not executed | AnimationSpec.AsWrittenLeaksTimer | AnimationSpec.SpecialWaitDonePreserves |
