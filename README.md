# speechfun free play, modelled in Dafny

This project models the client-side logic of the speechfun speech-therapy page
(`app.js`). Its core is the free-play mode. A field of 200 balls reacts to the
microphone's loudness: each frame averages the analyser's byte buffer and
normalizes it to [0, 1]. The frame turns that into an upward kick for balls
near the floor. It then moves every ball with gravity, Euler integration,
wall and floor collisions, damping and jitter. Around it sit the
listening state machine (start, frame, stop), the creation of the ball field,
the word-list progression of the practice modules and the acceptance rules of
the sign-up and login forms.

All numbers are Dafny `real`. Every `Math.random()` result is a parameter in
[0, 1): `StepDraws` holds those one ball may use in a frame, `SpawnDraws` those used
to create one. Browser state the code writes (the volume bar, the feedback area,
the start/stop buttons, the progress bar, the current word) is kept as plain fields.

Files:
- `constants.dfy`: the constants of app.js:17-29 (`FREQUENCY_BIN_COUNT` = 128 from `fftSize` 256).
- `volume.dfy`: mean, normalization, impulse, volume bar, feedback category.
- `balls.dfy`: the ball record and its per-frame stages, creation and rest.
- `free_play.dfy`: class `Session`, which holds the globals `bouncingBalls`, `isListening`, `audioContext`, `analyser`/`dataArray` and `animationId`.
- `exercise.dfy`: class `Practice`, which holds `currentModule`, `currentWordIndex` and `moduleProgress`.
- `auth.dfy`: the sign-up and login decisions.
- `wrappers.dfy`: `Option` and `Result`.

Notes on the code as written:
- `stopVoiceDetection` never clears `analyser` or `dataArray`. So after the first start, the frame guard depends on `isListening` alone. The model keeps this as `hasAnalyser`.
- Stopping rests every ball even when nothing was listening. So a stop called right after the field was created would park the balls. Only a stop that follows another stop is a no-op (`StopTwice`).
- `nextWord` increments the index before reading `moduleWords[currentModule].length`. With no word list for the module, it throws after the increment. The model returns `NoWordList` and keeps the increment.
- The kick cap `VOICE_IMPULSE_MAX * 1.5` never binds (`KickNeverCapped`).

## Model

| member | source | states |
|---|---|---|
| Volume.SumBounds | app.js:439-442 | the accumulated sum of a byte buffer lies in [0, 255·length] |
| Volume.AverageVolume | app.js:439-443 | the loop computes the mean of the buffer, and it lies in [0, 255] |
| Volume.MeanBounds | app.js:443 | the mean of a non-empty byte buffer lies in [0, 255] |
| Volume.NormalizedVolume | app.js:446-448 | the normalized volume lies in [0, 1]; it is 0 at mean ≤ 10, 1 at mean ≥ 100, and strictly between for means strictly between |
| Volume.NormalizedVolumeMonotone | app.js:446-448 | a louder mean never gives a smaller normalized volume |
| Volume.VoiceImpulse | app.js:451 | the impulse lies in [15, 45] for n in [0, 1], is 15 at n = 0 and 45 at n = 1 |
| Volume.VoiceImpulseMonotone | app.js:451 | the impulse is non-decreasing in n |
| Volume.VolumeBarPercent | app.js:454 | the volume bar width lies in [0, 100] percent for a mean in [0, 255], full at 255 |
| Volume.FeedbackFor | app.js:457-465 | encouragement exactly when n > 0.5, "speak louder" exactly when n ≤ 0, "making a sound" otherwise |
| Volume.FeedbackMonotone | app.js:458-465 | a louder voice never gets a weaker feedback category |
| Volume.FeedbackAtThresholds | app.js:446-465 | a mean at most 10 always asks to speak louder; a mean of 100 or more always encourages |
| Balls.Accelerate | app.js:475-485 | without a kick vy drops by exactly 0.8; a kick (n > 0.1 and bottom within 5 of the floor) replaces vy by impulse·(0.8 + 0.2·k), which lies in [12, 45) for an impulse in [15, 45]; position is untouched |
| Balls.Integrate | app.js:488-489 | position advances by the velocity, velocity and radius unchanged |
| Balls.WallCollision | app.js:492-500 | left hit snaps x to r, else right hit snaps x to W − r, each with vx = −0.9·vx + jitter, jitter in [−0.25, 0.25); no hit changes nothing; for W ≥ 2r the ball ends between the walls |
| Balls.FloorCollision | app.js:503-512 | the ball always ends on or above the floor; on a hit y = 20 + r, vy is −0.8·vy or 0, afterwards vy = 0 or \|vy\| ≥ 1, and vx gains jitter in [−1, 1); without a hit nothing changes |
| Balls.Step | app.js:473-512 | after every frame the ball is on or above the floor, between the walls when W ≥ 2r, with its radius unchanged |
| Balls.KickNeverCapped | app.js:482-484 | a kick's velocity is impulse·(0.8 + 0.2·k) and below the 67.5 cap |
| Balls.KickedBallRises | app.js:480-489 | a kicked ball that starts on or above the floor ends the frame strictly higher |
| Balls.QuietRestingBallStays | app.js:475-512 | a ball resting on the floor in a frame without a kick keeps its height and ends with vy = 0 |
| Balls.AirborneIgnoresVoice | app.js:479-480 | a ball higher than 5 above the floor moves the same whatever the volume |
| Balls.LeftWallBounce | app.js:488-500 | a ball of radius 25 at x = 3 with vx = −5 snaps to x = 25; its new vx is 4.5 plus the wall jitter, within the floor jitter [−1, 1) |
| Balls.LeftWallBounceInFlight | app.js:488-500 | the same bounce with the ball out of the kick gate and clear of the floor gives exactly vx = 4.5 plus the wall jitter |
| Balls.StepAll | app.js:473-517 | every ball of the field is on or above the floor after a frame, between the walls when it fits, with its radius unchanged |
| Balls.BallSize | app.js:332 | the diameter is a whole number in [30, 60] |
| Balls.SpawnX | app.js:341 | the initial centre lies in [r, W − r] whenever the container is at least one diameter wide |
| Balls.SpawnY | app.js:344 | the initial bottom lies in [20, 70) |
| Balls.SpawnVx | app.js:347 | the initial horizontal speed lies in [−3, 3) |
| Balls.SpawnVy | app.js:350 | the initial vertical speed lies in [7.5, 30) |
| Balls.Spawn | app.js:332-350 | a new ball has radius in [15, 30], bottom in [20, 70), vx in [−3, 3), vy in [7.5, 30), and lies between the walls when it fits |
| Balls.SpawnAll | app.js:327-365 | one ball per draw, the i-th being the i-th spawned ball, each with radius in [15, 30], bottom in [20, 70), vx in [−3, 3), vy in [7.5, 30), and between the walls when it fits |
| Balls.Rest | app.js:419-426 | a stopped ball has zero velocity and its bottom on the floor, with x and radius unchanged |
| Balls.RestIdempotent | app.js:419-426 | resting a rested ball changes nothing |
| Balls.RestAll | app.js:419-426 | stopping rests every ball of the field, keeping their number |
| FreePlay.Session.constructor | app.js:7-16 | the page starts with no balls, not listening, no audio context, no analyser, no pending frame |
| FreePlay.Session.CreateBouncingBalls | app.js:317-366 | the field is replaced by exactly 200 spawned balls; listening state unchanged |
| FreePlay.Session.PlayFreeMode | app.js:310-314 | entering free play creates the field; listening state, context, analyser, frame handle, message, volume bar and buttons are unchanged |
| FreePlay.Session.DetectVoice | app.js:430-520 | when not listening only the frame handle is cleared; otherwise every ball takes one step with the frame's normalized volume and impulse, the volume bar and feedback are set, and the next frame handle is stored; the session invariant is kept |
| FreePlay.Session.StartVoiceDetection | app.js:369-395 | a device failure changes only the message, to the microphone error; success sets listening with context and analyser, shows the stop button and runs the first frame at once (balls stepped, volume bar and feedback set, next handle stored) |
| FreePlay.Session.StopVoiceDetection | app.js:398-427 | stopping clears listening, the audio context and the frame handle. It releases the device exactly when a context existed and cancels exactly the pending handle. It rests every ball, keeps the analyser, and resets buttons, message and volume bar |
| FreePlay.Session.BackToDashboardFromFreePlay | app.js:274-285 | leaving free play removes every ball and ends not listening; when it was listening it stops (prompt to play again, volume bar 0, start button shown), otherwise message, volume bar and buttons are unchanged |
| FreePlay.StopTwice | app.js:398-427 | a second stop releases nothing, cancels nothing and moves no ball |
| FreePlay.FrameAfterStop | app.js:398-434 | a frame after a stop leaves the rested balls untouched and the handle cleared |
| Exercise.EveryModuleHasSixWords | app.js:32-37 | there are four modules and each has six words |
| Exercise.WordsOf | app.js:181 | a word list exists exactly for the four module names, with six words |
| Exercise.WordAt | app.js:180-191 | a word is shown exactly when the module has a list and the index is below its length, and it is the word at that index |
| Exercise.ProgressPercent | app.js:241 | progress is 0 at index 0, lies in [0, 100] while index ≤ length, and is 100 exactly at the end |
| Exercise.ProgressIncreases | app.js:240-241 | progress strictly increases with the index |
| Exercise.Practice.constructor | app.js:2-5 | no module, index 0, progress 0 |
| Exercise.Practice.LoadCurrentWord | app.js:180-191 | shows the current word when there is one, else reports completion and leaves the word text as it was |
| Exercise.Practice.UpdateProgress | app.js:247-249 | the bar shows the progress |
| Exercise.Practice.StartModule | app.js:158-177 | the module is selected with index and progress 0, and its first word is shown and becomes the word text (completion, with the text unchanged, for an unknown module) |
| Exercise.Practice.NextWord | app.js:239-244 | the index goes up by one; with a word list progress becomes index/6·100 and strictly grows, the word at the new index is shown and becomes the word text while index < 6, and the exercise completes after; without one nothing else changes |
| Exercise.PracticeRun | app.js:233-244 | a full run of a known module shows its six words in order, then completes with the progress bar at 100 |
| Auth.Signup | app.js:89-107 | accepted exactly when username, email, password and role are non-empty and the role is not "patient" or an age is given; the age message exactly for a patient without age; the created user carries the form's values |
| Auth.Login | app.js:121-132 | accepted exactly when username, password and role are non-empty; otherwise the missing-fields error |
| Auth.SignupImpliesLogin | app.js:89-132 | whatever sign-up accepts, login accepts with the same credentials and username |
| Auth.AgeOnlyForPatients | app.js:89-90 | for a role other than "patient" any two ages give the same acceptance |

## Left out

- DOM work: element creation and removal, CSS positions, colours, tab switching (app.js:40-64), `showDashboard`, `showFeedback` animations, the `viewProgress` alert, `logout`. The display values the code computes are kept as fields or results instead.
- Browser audio: `getUserMedia`, `AudioContext`, `createAnalyser`, track stopping. The sampled buffer is an input of 128 bytes. A device failure is the boolean `deviceOk`. Releasing the device is the `released` result.
- Host scheduling: `requestAnimationFrame` and `cancelAnimationFrame` are modelled by `DetectVoice` as one method call per frame. The handle is an input (`nextId`) and the cancelled handle a result. `setTimeout` callbacks (return to the dashboard, auto-advance after a recording) are not modelled.
- A second `startVoiceDetection` while already listening would start a second frame chain. Two concurrent frame chains are not modelled.
- Text-to-speech (`playWord`), the simulated `recordSpeech`, the random choice among encouraging messages, and the random colour of a ball. These are foreign APIs or random picks with no effect on the state.
- Module names are looked up as plain map keys. A JavaScript property lookup would also find inherited names such as `"constructor"`; no call site passes one.
- IEEE-754 rounding and NaN. All arithmetic is exact real arithmetic, so an empty analyser buffer (0/0) is excluded by the 128-byte buffer.
- Balls.FloorCollision: `Math.abs(vy) > 0` is stated over reals. A NaN velocity is not modelled.
- FreePlay.Session.DetectVoice: the source updates each ball record in place. The model builds the new field as a sequence value and assigns it, so aliasing of the records is not modelled.
