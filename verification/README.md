# Character controller of bevy_3d_playground, in Dafny

This project models the per-frame character controller of the `bevy_3d_playground`
demo: the `keyboard` system that reads key edges and decides which animation clip
the character plays, when a turn, attack or jump may start, and how a turn's
facing direction and visual rotation are sequenced. It also models the small
`setup_scene_once_loaded` system that spawns the character and starts its idle clip.

The system is a pure step function. One call of `Keyboard.Step` is one run of the
system. It maps the system's frame-surviving locals (`KeyboardState`: the busy flag
`somethingPressed`, the action timer, the turn's `RootMotionRotation` and the
current `Direction`) and the frame's input (`FrameInput`: pressed and released
keys, the frame delta in nanoseconds, the lengths of the clips the system reads,
and whether the character exists) to a `Frame`. A `Frame` is either `Panic`, where
the program aborts, or the next state plus the animation command and the transform
motion of that frame.

Modules:

- `Timers`: the engine's one-shot timer, which is not in the repository. Its tick
  rules are stated as the model's assumptions. A paused timer does not advance. A
  finished timer stays finished. `justFinished` holds only on the tick that reaches
  the duration. The default timer has zero duration, so its first tick finishes it.
- `Directions`: the four facings, the left and right turn cycle, and the snap angle
  in quarter turns.
- `Clips`: the clip table, and the playback command sent to the animation player.
- `Input`: the keys, how they group into presses, the stop edge, and the order in
  which presses are checked.
- `Keyboard`: the step function.
- `KeyboardProps`: gating, what each press does, the turn invariant, and runs of
  frames without input.
- `SceneSetup`: the start-up system and its two flags, which only ever turn on.

Time is in whole nanoseconds. One second is `1_000_000_000`.

The model keeps these details of the code's behaviour:

- A turn, an attack and a jump start their clip with a 0.5 s blend and without
  repeat.
- Only a forward or backward press sets the busy flag. A turn, attack or jump is
  gated by the action timer alone.
- The action timer's "just finished" branch reverts to idle whatever started the
  timer.

## Model

| member | source | states |
|---|---|---|
| Timers.Timer.Tick | src/main.rs:290-306 | a paused or finished timer does not move; just-finished holds exactly on the tick that reaches the duration; elapsed time only grows and never passes the duration |
| Timers.NewTimer | src/main.rs:377-381 | a new timer is running, has counted nothing, and has the requested duration |
| Timers.DefaultFinishesOnFirstTick | src/main.rs:256 | the default action timer just finishes on its first tick and on no later tick, after which it stays finished |
| Directions.SnapQuarter | src/main.rs:325-330 | every facing snaps to one of four quarter-turn angles |
| Directions.FromQuarter | src/main.rs:325-330 | any quarter-turn count names the facing whose snap angle equals it modulo a full turn |
| Directions.QuarterRoundTrip | src/main.rs:325-330 | the snap angle determines the facing |
| Directions.LeftOf | src/main.rs:387-392 | a left turn adds one quarter turn to the snap angle, modulo a full turn |
| Directions.RightOf | src/main.rs:413-418 | a right turn takes one quarter turn off the snap angle, modulo a full turn |
| Directions.TurnsAreInverse | src/main.rs:387-418 | left then right, or right then left, is the identity; each turn changes the facing, and the two turns differ |
| Directions.LeftTurnsAdvance | src/main.rs:387-392 | n left turns add n quarter turns to the snap angle |
| Directions.RightTurnsRetreat | src/main.rs:413-418 | n right turns take n quarter turns off the snap angle |
| Directions.FourTurnsReturn | src/main.rs:387-418 | four turns the same way return to the start |
| Clips.Index | src/main.rs:234-242 | every clip has a position below seven in the clip list |
| Clips.AtIndex | src/main.rs:234-242 | exactly positions 0 to 6 hold a clip, and that clip's position is the one asked for |
| Clips.IndexRoundTrip | src/main.rs:234-242 | the table is a bijection: looking up a clip's position gives back the clip |
| Input.Classify | src/main.rs:333-436 | the selected press had one of its keys pressed, and no press checked earlier had any of its keys pressed |
| Input.ClassifyIsFirstHit | src/main.rs:333-436 | whenever an action key was pressed, some press is selected, no later in the order than that one |
| Keyboard.ActionTimer | src/main.rs:374-380 | the action timer lasts the clip minus the one-second overlap; a shorter clip aborts |
| Keyboard.Dispatch | src/main.rs:333-450 | with no action key nothing happens; the press checks abort exactly when the character is missing or the selected clip is too short |
| Keyboard.Step | src/main.rs:250-451 | a stop edge always wins and changes only the busy flag; a busy frame changes nothing; aborts only on a missing character or short clip; facing moves one step and only on a turn press; only stop clears and only a run press sets the busy flag |
| KeyboardProps.ActionTimerFinishing | src/main.rs:288-300 | the frame the action timer runs out plays idle with a one-second blend, unpauses the rotation and changes nothing else (no press is read); without a character it only ticks the action timer |
| KeyboardProps.GatingBlocksActions | src/main.rs:301-321 | while the action timer counts, or the rotation is running, no action starts and facing and busy flag stay |
| KeyboardProps.ActionStartsIff | src/main.rs:259-450 | with long clips, an action starts exactly when: no stop edge, not busy, not gated, the character exists, and an action key was pressed |
| KeyboardProps.TurnPress | src/main.rs:366-420 | a turn press sets a fresh action timer of clip minus one second and a fresh paused one-second rotation timer, records the sense, advances the facing one step, and leaves the busy flag clear |
| KeyboardProps.RunPress | src/main.rs:333-364 | a forward or backward press plays the run on repeat with a quarter-second blend and hip-bone root motion, sets the busy flag, and changes nothing else |
| KeyboardProps.OneShotPress | src/main.rs:422-450 | an attack or a jump only restarts the action timer; facing and rotation stay |
| KeyboardProps.RotationFollowsActionTimer | src/main.rs:305-331 | an incremental rotation only happens after the action timer finished, in the turn's sense; the snap happens when the rotation timer runs out, to the facing's canonical angle |
| KeyboardProps.InitialInv | src/main.rs:244-257 | the default locals satisfy the turn invariant |
| KeyboardProps.StepKeepsInv | src/main.rs:288-420 | every frame keeps both timers well formed and never leaves a paused rotation behind a finished action timer, except a frame without the character while a rotation is paused |
| KeyboardProps.MissingPlayerStrandsRotation | src/main.rs:290-292 | a missing character in the frame the action timer runs out leaves the rotation paused behind a finished action timer |
| KeyboardProps.StrandedUntilNextAction | src/main.rs:290-364 | such a rotation stays paused, and the character is never rotated, over any run without a turn, attack or jump press |
| KeyboardProps.StrandedResumesAfterOneShot | src/main.rs:422-449 | an attack or jump press restarts the action timer, so the paused rotation again waits for it and is unpaused when it runs out |
| KeyboardProps.QuietCountdown | src/main.rs:290-303 | frames without input only count the action timer down and issue nothing |
| KeyboardProps.RunConcat | src/main.rs:250-451 | running two stretches of frames one after the other is running their concatenation |
| KeyboardProps.AutoRevert | src/main.rs:290-300 | a one-shot action reverts to idle by itself in the frame its timer runs out, and not before; that frame finishes the action timer and unpauses the rotation, and nothing else changes |
| KeyboardProps.QuietRotation | src/main.rs:305-321 | after the action timer, including right after the revert frame, frames without input rotate the character in the turn's sense and only count the rotation timer |
| KeyboardProps.RotationEndsInSnap | src/main.rs:305-331 | the rotation ends, in the frame its timer runs out, by snapping to the facing chosen at the turn's start; the rotation timer is then finished |
| KeyboardProps.TurnAfterPress | src/main.rs:288-331 | after a turn press, quiet frames count down, revert to idle, rotate for one second in the turn's sense and snap to the facing |
| KeyboardProps.WholeTurn | src/main.rs:288-420 | a whole turn from the press: the turn clip, the countdown, the revert to idle, one second of rotation, and the snap to the facing one step from the old one |
| SceneSetup.SetupStep | src/main.rs:188-215 | flags only turn on; spawning and playing idle (on repeat, without a blend) each happen exactly when their flag turns on; idle waits for the spawn and for a character |
| SceneSetup.NoPanicOnceSpawned | src/main.rs:203-210 | a character appearing only after the spawning frame never aborts the frame |
| SceneSetup.SpawnAndPlayOnce | src/main.rs:197-214 | over any run the scene is spawned at most once and idle is started at most once |

## Left out

- Scene and world construction (tiles, materials, fog, light): declarative engine setup with no logic.
- Camera follow and light animation: floating-point vector and trigonometry code with no state.
- The incremental rotation amount and the quaternion products: the model keeps only the rotation's sense (`Rotate(left)`) and the snap angle in quarter turns (`Snap(q)`). The fixed local tilt of the rig is not modelled.
- Floating-point seconds: durations are exact nanoseconds. Rounding in the conversion from seconds to a duration is not modelled.
- The engine's `Timer` beyond its one-shot tick rules. Repeating timers are not used by the program.
- The engine's query and resource plumbing. The character's presence is one input flag, and clip lengths are inputs. A present character is assumed to mean that the clip list and the clips are loaded, because the character is spawned from the model file that supplies them.
- Aborts of the program are modelled as a `Panic` outcome, not as a precondition. It happens when the character is missing where the program calls `single_mut`, or when a clip shorter than one second is read. The property lemmas require the character to be present and the clips to be long enough where they need it.
- Keys other than the twelve the program reads: they do not influence the system.
