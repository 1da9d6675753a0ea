# Posture monitor core, modelled in Dafny

The web page in `app.js` watches the user through the camera. For every
detector result it does four things:

- it checks that a user is actually in the frame (`isUserVisible`);
- it re-expresses seven keypoints relative to the shoulder midpoint, in
  shoulder widths (`normalizeLandmarks`);
- it scores the deviation from a reference pose, as a weighted point
  distance plus a penalty for leaning toward or away from the screen
  (`checkPosture`);
- it accumulates "bad" seconds and raises an alert once they reach the
  configured delay, at most once per cooldown window (`triggerAlert`).
  When the user leaves the frame, the accumulator is reset
  (`handleUserAway`).

The project has these modules:

| module | file | what it holds |
|---|---|---|
| `Basics` | `basics.dfy` | Helpers: `Option`, absolute value, squares, rounding and ceiling. It also holds `IsSqrt`, the property that the `Math.sqrt` parameter is assumed to have. |
| `Landmarks` | `landmarks.dfy` | Detector keypoints, the presence filter and the normalizer. It proves that the normalizer is invariant under moving in the image, scales with distance to the camera, and loses nothing but the frame of reference. |
| `Scoring` | `scoring.dfy` | Per-point weights, the weighted distance and its `forEach` loop, the lean penalty, the final error and the displayed percentage. |
| `Monitor` | `monitor.dfy` | The page's state as a value. It has one function per event handler and the lemmas about runs of events: the cooldown, sustained-bad-time, away-reset, invariant and colour lemmas. |
| `App` | `session.dfy` | The class `Session`. It holds the same variables as mutable fields, and its methods are the event handlers. Each method is proved to leave exactly the state that the matching `Monitor` function computes. |
| `Scenarios` | `scenarios.dfy` | Worked cases, each proved for every pose of its shape. |

## How the model represents the program

- **Square root.** `Math.sqrt` is a parameter `sqrt: real -> real`. The
  model only assumes `IsSqrt(sqrt)`: for every non-negative `x`, `sqrt(x)`
  is non-negative and its square is `x`.
- **Time.** `Date.now()` is the parameter `now`.
- **Zero shoulder width.** In JavaScript, coinciding shoulders give a
  shoulder width of 0. Every normalized coordinate is then divided by zero:
  a non-zero offset becomes ±Infinity and a zero offset becomes NaN. The
  shoulders' x and y offsets are always zero, so their points hold NaN,
  the total and the final error are NaN, and `NaN > threshold` is false.
  The frame counts as good posture and the display reads "NaN%". The model
  writes this out: the pose is `Unscaled`, the error is `Measure.NaN`, and
  the reading is `NotANumber`.
- **Missing landmarks.** A result with fewer than 13 landmarks makes
  `normalizeLandmarks` read a field of `undefined`. The JavaScript then
  throws before anything in the state changes, and the model returns
  `None` from `Normalize` at that point.
- **The "away" marker.** The status line's text is the `Status`
  datatype. The check for "사용자 없음" in `handleUserAway` and
  `triggerAlert` is `status == Away`.

Behaviours of `app.js` that the model keeps, though a reader might expect
otherwise:

- The elapsed time is not clamped. Only the first scored frame (with
  `lastFrameTime == 0`) gets `dt = 0`.
- Setting a reference does not reset the accumulator
  (`ReferenceKeepsAccumulator`).
- Stop clears only the monitoring flag, the status and the overlay. The
  accumulator, the flag and the reference survive (`StopHalts`).
- An absence keeps `lastFrameTime`, so the first bad frame after the user
  returns counts the whole gap (`AwayGapCountsOnReturn`).
- A zero shoulder width is not rejected. It yields a NaN score, which is
  judged as a good frame.

## Model

| member | source | states |
|---|---|---|
| Landmarks.IsUserVisible | app.js:518-529 | The user is present if and only if a shoulder (index 11 or 12) and one of the nose or ears (0, 7, 8) exist with visibility strictly above 0.75. |
| Landmarks.AnyVisible | app.js:525-526 | `some` over the indices holds if and only if one listed landmark exists and is visible. |
| Landmarks.Normalize | app.js:398-429 | Defined if and only if both shoulders exist. The pose is unscaled exactly when the shoulders coincide in the image plane. Otherwise the squared width equals the squared shoulder distance, and the two shoulders normalize to mirror images. |
| Landmarks.ShoulderSpread | app.js:403-406 | The squared shoulder distance is non-negative, and it is zero if and only if the shoulders coincide in x and y. |
| Landmarks.Relatives | app.js:413-428 | Exactly seven points, in the order nose, eyes, ears, shoulders. Scaling each point back by the width and adding back the midpoint gives the tracked landmark it came from. |
| Landmarks.TranslationInvariant | app.js:398-429 | Moving every landmark by the same offset leaves the normalized pose unchanged. |
| Landmarks.ScaleInvariant | app.js:398-429 | Scaling every coordinate by k > 0 leaves the normalized points unchanged and multiplies the shoulder width by k. |
| Landmarks.NormalizeInverse | app.js:409-417 | Each tracked landmark is recovered from its normalized point: scale it back by the width and add back the midpoint. |
| Scoring.PointDistance | app.js:454-463 | The weighted distance of one point is non-negative, and it is zero if and only if the current and the reference point are equal. |
| Scoring.Total | app.js:449-465 | The sum of the first n distances is non-negative, and it is zero if and only if those n points all match. |
| Scoring.WeightedTotal | app.js:436-465 | The `forEach` loop accumulates exactly the total over all seven points. |
| Scoring.PointDistanceMonotone | app.js:454-463 | Moving a point farther from its reference along at least one axis, and no nearer along any, strictly increases its weighted distance. |
| Scoring.TotalMonotone | app.js:449-465 | Replacing one point by one with a larger distance strictly raises every total that includes it and leaves shorter totals unchanged. |
| Scoring.FinalErrorMonotone | app.js:449-479 | Moving one tracked point farther from its reference, with everything else held fixed, strictly increases the final error. |
| Scoring.ScalePenalty | app.js:470-476 | The penalty is non-negative, and it is zero if and only if the width ratio lies in [0.85, 1.12]. |
| Scoring.ScalePenaltyShape | app.js:472-476 | The penalty grows monotonically outside the dead zone. Leaning forward by d costs twice as much as leaning back by d. |
| Scoring.LeanPenalty | app.js:470-476 | For two scaled poses, `scaleError` is the penalty of the width ratio, and it is never negative. |
| Scoring.FinalError | app.js:478-479 | The error is a number if and only if both poses are scaled, and the number is never negative. |
| Scoring.ZeroDeviationIff | app.js:449-479 | The final error is 0 if and only if every tracked point matches the reference and the width ratio is in the dead zone. |
| Scoring.SamePointsScoreLeanOnly | app.js:470-479 | With matching points, the error is the lean penalty alone. |
| Scoring.DisplayPercent | app.js:481 | NaN stays NaN. Otherwise the percentage is at most 100, is not negative for a non-negative error, and lies within 0.5 of error × 350 unless it is capped at 100. |
| Monitor.DeviationThreshold | app.js:54-56 | The threshold times 350 is exactly the percentage. |
| Monitor.Cooldown | app.js:565-607 | An alert fires if and only if the status is not "away" and more than 3000 ms have passed since the last one. Only a firing alert moves `lastAlertTime`. The overlay comes on unless the away guard returned. Nothing else changes. |
| Monitor.AtMostOneAlertPerWindow | app.js:573-603 | An alert request no later than 3000 ms after one that fired does not fire, even if the clock stepped back in between. |
| Monitor.JudgeOutcome | app.js:486-513 | After a scored frame, `lastFrameTime` is `now`. The accumulator grows by dt on a bad frame and decays by 2·dt, down to 0, on a good one. A good frame clears the flag and the overlay and shows "upright". On a bad frame the flag is up if and only if the accumulator reached the delay; otherwise a countdown of ⌈delay − accumulated⌉ is shown. Only a raised flag fires. Nothing else changes. |
| Monitor.PenaltyIgnoredWhenUnscaled | app.js:490-513 | When either pose is unscaled, the outcome of the threshold logic does not depend on the lean penalty. |
| Monitor.FrameKeepsInv | app.js:335-394 | Every detector result preserves the invariant: monitoring implies a reference, and the status "away" implies no overlay. |
| Monitor.HandlersKeepInv | app.js:272-331 | The reference, stop and slider handlers preserve the same invariant. |
| Monitor.InitialInv | app.js:46-56 | The initial state satisfies the invariant. |
| Monitor.FrameKeepsSettings | app.js:335-394 | A detector result never changes the reference, the monitoring flag, the threshold or the delay. |
| Monitor.ScoredIff | app.js:380-386 | A frame is scored if and only if the page is monitoring with a reference, the result has landmarks, the presence filter accepts them and both shoulders exist. |
| Monitor.ScoredFrame | app.js:431-514 | A scored frame gets the final error of its normalized landmarks, and its outcome is stated in terms of the state before the frame. |
| Monitor.BadPostureOnlyWhenSustained | app.js:490-505 | The bad-posture flag is only raised by a bad frame whose accumulator reached the delay, and is otherwise kept or lowered. An alert fires only with the flag up, after the cooldown, and it stamps `lastAlertTime`. |
| Monitor.AlertsSpaced | app.js:565-607 | Two detector results at most 3000 ms apart raise at most one alert. |
| Monitor.AwayResets | app.js:531-540 | While monitoring, a result without a visible user does five things: it clears the flag and the accumulator, shows "away" without the overlay, scores nothing, fires nothing and keeps `lastFrameTime`. The display shows "-" only on entering "away". |
| Monitor.AwayGapCountsOnReturn | app.js:487-492 | The first bad frame after an absence adds the whole time since the last scored frame before the absence. |
| Monitor.AccumulatorNonNegative | app.js:486-508 | With a clock that does not go back, the accumulator stays non-negative. |
| Monitor.FrameColor | app.js:360-371 | The landmarks are blue if and only if the user is not being watched. For a watched user they are red if and only if the flag was up. Otherwise they are yellow if and only if more than 0.5 bad seconds had accumulated, and green if and only if no more had. |
| Monitor.ReferenceKeepsAccumulator | app.js:322-331 | Setting the reference succeeds (and beeps) if and only if the latest result has both shoulders. It then monitors against that normalized pose and leaves the accumulator, the flag, the clocks and the overlay alone. A failed attempt changes nothing. |
| Monitor.StopHalts | app.js:290-300 | Stop changes only the monitoring flag, the status and the overlay. After it, no frame is scored, no alert fires and the accumulator is kept. |
| Monitor.ReplayBounds | app.js:490-508 | Over any run of scored frames with a forward clock, the accumulator stays between 0 and its start plus the run's bad time. |
| Monitor.ReplayAllBad | app.js:490-492 | A run of bad frames adds exactly the run's durations. |
| Monitor.SustainedBadTime | app.js:490-498 | Starting from an empty accumulator, reaching the alert delay takes at least that many seconds of bad frames. |
| Monitor.RecoveryIsTwiceAsFast | app.js:490-508 | A good frame drains twice what a bad frame of the same length added, but never below zero. |
| App.Session.constructor | app.js:46-56 | The fields start as the page's initial variables and satisfy the invariant. |
| App.Session.ClearAlert | app.js:609-611 | Only the overlay is turned off. |
| App.Session.TriggerAlert | app.js:565-607 | The new state and the fired flag are those of the alert step. |
| App.Session.HandleUserAway | app.js:531-540 | The new state and the reading are those of the away step. |
| App.Session.CheckPosture | app.js:431-514 | The new state, the score, the reading and the fired flag are those of the checkPosture step. |
| App.Session.CheckThresholds | app.js:485-514 | The state after the threshold branch is that of `Judge`. |
| App.Session.TallyFrame | app.js:486-488 | The clock and accumulator update is that of `Tally`. |
| App.Session.OnResults | app.js:335-394 | The invariant is kept, and the handler's effect on every variable, together with the colour, score, reading and alert, is that of `FrameStep`. |
| App.Session.OnLandmarks | app.js:351-386 | The landmark branch of onResults is `PoseStep`. |
| App.Session.SetReference | app.js:322-331 | The invariant is kept, and the effect is the reference step. |
| App.Session.Stop | app.js:290-300 | The invariant is kept, and the effect is the stop step. |
| App.Session.SetThreshold | app.js:304-309 | The invariant is kept, the percentage is stored, and `deviationThreshold` follows it. |
| App.Session.SetDelay | app.js:315-319 | The invariant is kept, and the delay is stored. |
| Scenarios.UnchangedPose | app.js:449-481 | The reference pose scored against itself gives 0, shows 0%, and is good at any non-negative sensitivity. |
| Scenarios.NoseDrop | app.js:437-481 | A nose drop of 0.1 shoulder widths scores 0.12 / 7, shows 6%, and is good at the default 60%. |
| Scenarios.LeanBack | app.js:470-479 | Shrinking to 70% of the reference width adds exactly 0.225. |
| Scenarios.UnsureShoulders | app.js:518-540 | With shoulder visibility 0.5, a monitored frame is treated as an absence. |

## Left out

- Camera acquisition, the MediaPipe model, the timer worker, the frame loop and all drawing are left out. They are platform I/O. A detector result is the parameter `frame`.
- Audio (`playBeep`), notifications and title flashing are left out. The model records only whether a beep or alert fired (`beeped`, `fired`, `alerted`).
- Settings persistence in `localStorage` and `parseInt` are left out. A slider value is taken as an integer, so a non-numeric value (NaN) is not modelled.
- Button texts and enabling, status colours, the `alert()` dialogs, the canvas and the "0%" that the stop button writes to the display are left out as presentation. The status text is the `Status` datatype.
- LeanPenalty: when a pose is unscaled, the model uses 0. In `app.js` the value is 1.275 for an unscaled current pose, +Infinity for an unscaled reference, and NaN, hence 0, for both. The difference never shows, because such a frame scores NaN, is judged good, and a good frame does not read the penalty (`PenaltyIgnoredWhenUnscaled`).
- Floating-point arithmetic is modelled with exact reals. NaN is modelled only where it arises: a zero shoulder width.
- checkPosture and triggerAlert each call `Date.now()`. The model reads the clock once per frame (`now`).
- The page shows a loading text before the first result. It is modelled as the status `Loading`.
- The Session methods CheckThresholds, TallyFrame and OnLandmarks split checkPosture and onResults into parts. TallyFrame performs the accumulator update of both branches before the branch is taken, and the result is the same.
