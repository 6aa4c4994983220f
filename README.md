# Pointer-conducted orchestra: a Dafny model of its motion and trail logic

The original program is a browser script (`script.js`). Moving the pointer over a page of
instrument pictures plays a piece of music. The pointer's speed sets the playback rate.
Moving keeps the volume up. Stopping for 100 ms lowers the volume and shows a hint.
Every animation frame moves each instrument towards a target position, and the pointer
leaves a trail of dots that fade out over one second.

This project models the parts of the script that are plain logic, with numbers as Dafny
`real`s:

- `Rate`: the mapping from pointer speed to playback rate.
- `Trail`: trail points, the per-frame purge of expired points, and the fade opacity.
- `Motion`: one instrument's position step. The step clamps the candidate position to the
  window margins, adds the collision displacement, pushes away from the pointer, and
  smooths towards the result.
- `Conductor`: the script's module-wide state as a class `Session`, with the mousemove
  handler (`Move`), the idle timer (`RestartIdleTimer`, `FireTimer`), the start button
  (`Start`), the trail purge and drawing (`PurgeExpired`, `DrawPoints`), and one `animate`
  frame over an array of instrument records (`Animate`).

The host's event loop is the caller. It delivers pointer moves, fires due timers and runs
frames, and it passes in every clock reading. Timers are a registry that maps each handle
to its due time. `clearTimeout` removes a handle and `setTimeout` adds a fresh one, so the
last timer armed is the only one that can still fire.

In these places the code behaves differently from what a reader might expect; the model follows the code:

- The rate mapping is not continuous and not monotone at speed 2.5. It gives 1.18 at 2.5
  and just over 1.0 just above it (`Rate.DropAtFastThreshold`).
- A speed of 3.0 px/ms gives rate 1.15, not the maximum 2.5 (`Rate.SpeedScenarios`). The
  maximum is reached only from speed 7.5 on (`Rate.FastSegment`).
- The clamp to the margins comes before the collision push and the pointer repulsion, so the
  final target can leave the margins (`Motion.RepulsionCanLeaveMargins`).
- The pointer counts as unknown when `window.mouseX` or `window.mouseY` is 0, as well as
  when it is unset (`Motion.MouseActive`).
- A zero time between two pointer samples is not guarded in the code; the model requires the
  clock to advance (see Left out).

## Model

| member | source | states |
|---|---|---|
| `Rate.Speed` | script.js:131-139 | speed is distance over elapsed milliseconds, non-negative for a non-negative distance |
| `Rate.PlaybackRate` | script.js:142-151 | for every speed the playback rate lies in [0.3, 2.5] |
| `Rate.SlowSegment` | script.js:143-144 | every speed below 0.3 gives exactly the minimum rate 0.3 |
| `Rate.MidSegment` | script.js:148-151 | speeds in [0.3, 2.5] give 0.3 + (speed - 0.3) * 0.4, at most 1.18, and 1.18 only at 2.5 |
| `Rate.FastSegment` | script.js:145-147 | speeds above 2.5 give a rate above 1.0, equal to 1 + (speed - 2.5) * 0.3 below 7.5, and the maximum 2.5 exactly when speed >= 7.5 |
| `Rate.MonotoneWithinSides` | script.js:142-151 | the rate is non-decreasing in speed on (-inf, 2.5] and on (2.5, +inf) separately |
| `Rate.ContinuousAtSlowThreshold` | script.js:143-150 | at 0.3 the slow and middle segments meet: to the right of 0.3 the rate rises at most 0.4 per unit of speed from 0.3 |
| `Rate.DropAtFastThreshold` | script.js:145-150 | every speed in (2.5, 3.1) gets a lower rate than 2.5, and speeds in (2.5, 2.6) more than 0.15 lower: no monotonicity or continuity at 2.5 |
| `Rate.SpeedScenarios` | script.js:139-151 | 300 px in 100 ms is speed 3.0 and gives rate 1.15; 5 px in 100 ms is speed 0.05 and gives 0.3 |
| `Trail.Live` | script.js:375 | the purge's filter test: a point survives exactly while its age is below the 1000 ms lifetime |
| `Trail.Purged` | script.js:375 | the purged trail is no longer than the old one and holds only points younger than 1000 ms |
| `Trail.PurgedAppend` | script.js:375 | purging distributes over concatenation, so the relative order of kept points is preserved |
| `Trail.PurgedMembers` | script.js:375 | a point is kept if and only if it was in the trail and its age is below the lifetime |
| `Trail.PurgedAllLive` | script.js:375 | a trail of live points is unchanged by the purge |
| `Trail.PurgedIdempotent` | script.js:375 | a second purge at the same time removes nothing |
| `Trail.PurgedLater` | script.js:375 | purging at an earlier time and then a later one equals purging at the later time |
| `Trail.Opacity` | script.js:379-380 | opacity is positive exactly for live points, at most 1 exactly when the timestamp is not in the future, and 1 exactly at age 0 |
| `Trail.FadeScenario` | script.js:375-380 | a point recorded at 0 has opacity 1 at 0 and 0.5 at 500, and is purged at any time from 1000 on |
| `Motion.Clamp` | script.js:254-260 | the clamped coordinate is at least the margin 5, at most dimension - 5 when the dimension is at least 10, equal to the input inside that range, and equal to 5 in a narrower window |
| `Motion.ClampNearest` | script.js:257 | the clamped coordinate is the point of [5, dimension - 5] nearest to the input |
| `Motion.Clamped` | script.js:256-260 | both coordinates lie within the margins whenever the window is at least 10 px in that direction |
| `Motion.MouseActive` | script.js:280 | the pointer counts as present only when it is set and both coordinates are non-zero |
| `Motion.RepelFactor` | script.js:285-289 | inside the 500 px radius the factor is in (0, 0.15 * speedFactor] |
| `Motion.RepelFactorFalloff` | script.js:289 | the factor does not grow with distance |
| `Motion.Repel` | script.js:280-293 | no change when the pointer is unset, has a zero coordinate, or is 500 px or more away; otherwise the offset from the pointer is scaled by (1 + factor) |
| `Motion.RepelMovesAway` | script.js:280-293 | inside the radius the point retreats straight away: its distance to the pointer becomes (1 + factor) times the old distance |
| `Motion.SmoothingFactor` | script.js:299 | with a speed factor in [0.3, 2.5] the smoothing factor lies in (0, 1) |
| `Motion.Smooth` | script.js:300-301 | the remaining gap to the target is (1 - smoothing) times the old gap, and the new value lies between the old value and the target when smoothing is in [0, 1] |
| `Motion.SmoothStep` | script.js:299-301 | with a speed factor in [0.3, 2.5] one step ends between the old value and the target and shrinks the distance by the factor 1 - smoothing |
| `Motion.Falsy` | script.js:296-297 | the truthiness test `!instrument.currentX`: a coordinate counts as absent when unset or equal to 0 |
| `Motion.Settle` | script.js:296-301 | an unset or zero coordinate jumps to the target; a set one moves towards it and no farther away |
| `Motion.Target` | script.js:254-293 | without pointer influence the target is the clamped candidate plus the collision displacement |
| `Motion.TargetWithinMarginsUndisturbed` | script.js:254-293 | with no collision displacement and no pointer influence the target respects the margins |
| `Motion.RepulsionCanLeaveMargins` | script.js:254-293 | a candidate at x = 0 is clamped to the margin 5 and, with no collision push and the pointer 95 px to its right, repelled to x = -6.5425, outside the margin |
| `Motion.Step` | script.js:296-301 | after a step both coordinates are set; unset ones equal the target and set ones stay between their old value and the target |
| `Conductor.Session.constructor` | script.js:1-127 | the load-time globals (lines 1-2, 91, 95-97, 127): nothing is playing, the trail is empty, no timer is pending and the last sample is (0, 0) at the load time |
| `Conductor.Session.Start` | script.js:100-111 | after the start button the audio and canvas exist, with volume 1 and rate 1 |
| `Conductor.Session.PlayStarted` | script.js:114-116 | the resolved first play mutes the audio |
| `Conductor.Session.SpeedFactor` | script.js:203 | while playing, the speed factor lies in [0.3, 2.5] |
| `Conductor.Session.Move` | script.js:128-195 | before the start button a move changes nothing; afterwards it sets the rate from the speed, records the sample, appends exactly one trail point at the end, sets volume 1, hides the hint, sets playing, reports that animation starts only on the first move, and leaves exactly one timer pending, due 100 ms later |
| `Conductor.Session.RestartIdleTimer` | script.js:170-194 | the previous idle timer is cancelled and the new one is the only pending timer |
| `Conductor.Session.FireTimer` | script.js:191-194 | a timer fires exactly when it is pending and due; firing sets volume 0.1, shows the hint and removes the timer; otherwise nothing changes |
| `Conductor.Session.PurgeExpired` | script.js:375 | the trail becomes the purged old trail |
| `Conductor.Session.DrawPoints` | script.js:366-389 | without a canvas nothing happens; otherwise the trail is purged and every remaining point gets its fade opacity, positive and, for past timestamps, at most 1 |
| `Conductor.Session.Animate` | script.js:197-320 | when not playing nothing changes; otherwise every instrument takes one smoothing step towards its target with the audio's speed factor, and the trail is drawn |
| `Conductor.IdleScenario` | script.js:170-194 | a second move within 100 ms cancels the first timer; the new timer does not fire early and, once due, sets volume 0.1 and shows the hint |
| `Conductor.NoAudioScenario` | script.js:129 | a move before the start button starts nothing and records no trail point |

## Left out

- Speed computation: the square root for the Euclidean distance is not available on Dafny reals. `Move` takes the distance as an input, and its `requires` ties it to the last sample by its square.
- `Move`: requires that the clock advanced since the last sample. With zero elapsed time the script divides by zero and gets Infinity or NaN, which the model does not represent.
- Collision push-apart (script.js:263-277): it uses `atan2`, `cos` and `sin`, and reads other instruments' partly updated positions. Its total displacement per instrument is an input (`FrameInput.push`).
- Sinusoidal motion field, dispersion circle, rotation and scale (script.js:221-251, 303-307): floating-point trigonometry of wall-clock time. The candidate position is an input (`FrameInput.candidate`), and rotation and scale are not modelled.
- Pointer distance for the repulsion (script.js:283): a square root, so it is an input (`FrameInput.distance`). `Animate` requires it to be the distance.
- The transform and transition strings, and the fallback anchor position (script.js:212-218, 309-315): they only format output for the page.
- Audio playback: `new Audio`, the `play()` retries on move and on click, and the autoplay policy (script.js:103-104, 113-119, 173-181, 330-340) are browser calls. `Start` only records the media element's default volume 1 and rate 1.
- `Start` uses one flag, `started`, for both the audio element and the canvas context, since the start button creates both. Setup errors caught by the handler's `try` are not modelled.
- `showMessage` (script.js:322-328): the hint element is assumed to exist. The model keeps only whether the hint is shown.
- Frame scheduling: `requestAnimationFrame`, including `drawPoints` re-arming itself (script.js:319, 388), is host timing. `Move` reports when `animate` starts, and the host calls `Animate` for each frame. On the first move the script runs the first `animate` frame inside the handler (script.js:186-189); the model has the host call `Animate` right after `Move` returns true.
- Instrument setup, canvas creation, injected style, resize handling and painting (script.js:5-68, 74-88, 343-363, 372, 382-385, 392-397): one-shot page construction and rendering.
- `Date.now()`: every clock reading is a parameter. The trail point's timestamp (script.js:167) is a separate reading from the handler's `currentTime` (script.js:131).
- Floating point: all arithmetic is on mathematical reals, so IEEE rounding and NaN are not modelled.
