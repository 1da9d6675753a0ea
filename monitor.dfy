/** The posture state machine and the alert cooldown, as functions from one
    session state to the next. Each function is one event handler of the page:
    a detector result (onResults with checkPosture and handleUserAway), the
    cooldown part of triggerAlert, the reference button, the stop button and
    the two settings sliders. The Session class in session.dfy holds the same
    state in mutable fields and is proved to follow these functions. */
module Monitor {
  import opened Basics
  import opened Landmarks
  import opened Scoring

  /** Minimum time between two beeps/notifications, in milliseconds. */
  const AlertCooldownMs: int := 3000
  /** Good frames drain the accumulator this many times faster than bad frames fill it. */
  const DecayRate: real := 2.0
  /** Accumulated bad seconds above which the landmarks are drawn in the warning colour. */
  const WarningColorSeconds: real := 0.5
  /** Lean penalty above which the alert message blames leaning toward the screen. */
  const TurtleNeckPenalty: real := 0.1
  const DefaultThresholdPercent: int := 60
  const DefaultDelaySeconds: int := 3
  const MillisPerSecond: real := 1000.0

  /** The status line. Only `Away` carries the "user absent" marker that
      handleUserAway and triggerAlert look for. */
  datatype Status =
    | Loading            // whatever the page shows before the first detector result
    | Prompt             // asks the user to sit upright and set the reference
    | Idle               // camera stopped
    | Watching           // reference just set
    | Upright            // good posture
    | Warning(secondsLeft: int)
    | Slouching
    | TurtleNeck         // bad posture with a lean penalty above TurtleNeckPenalty
    | Away

  /** Colour of the drawn landmarks. */
  datatype Color = Blue | Red | Yellow | Green

  /** What the deviation display shows after an event. */
  datatype Reading = Unchanged | Dash | NotANumber | Percent(value: int)

  /** The module-level variables of the page that the core reads and writes. */
  datatype State = State(
    reference: Option<NormalizedPose>,   // referenceLandmarks, None for null
    monitoring: bool,                    // isMonitoring
    badSeconds: real,                    // badPostureDuration
    lastFrameTime: int,                  // lastFrameTime, milliseconds; 0 before the first scored frame
    badPosture: bool,                    // isBadPosture
    lastAlertTime: int,                  // lastAlertTime, milliseconds
    overlayOn: bool,                     // the red alert overlay is shown
    status: Status,                      // statusText
    firstFrameReceived: bool,            // firstFrameReceived
    current: Option<seq<Landmark>>,      // currentResults.poseLandmarks
    thresholdPercent: int,               // userThresholdPercent
    alertDelaySeconds: int)              // alertDelaySeconds

  function Initial(): State
  {
    State(None, false, 0.0, 0, false, 0, false, Loading, false, None,
          DefaultThresholdPercent, DefaultDelaySeconds)
  }

  /** deviationThreshold = userThresholdPercent / UI_SCALE_FACTOR */
  function DeviationThreshold(percent: int): (r: real)
    ensures r * UiScaleFactor as real == percent as real
  {
    percent as real / UiScaleFactor as real
  }

  /** What holds in every reachable state: monitoring implies a reference, and
      the overlay is never on while the status says the user is away. */
  ghost predicate Inv(s: State)
  {
    (s.monitoring ==> s.reference.Some?) && (s.status == Away ==> !s.overlayOn)
  }

  // ------------------------------------------------------------- accumulator

  /** dt = (now - (lastFrameTime || now)) / 1000: zero while lastFrameTime is 0. */
  function Elapsed(last: int, now: int): real
  {
    (now - (if last == 0 then now else last)) as real / MillisPerSecond
  }

  /** badPostureDuration after one scored frame. */
  function Accumulate(seconds: real, dt: real, bad: bool): real
  {
    if bad then seconds + dt else Max(0.0, seconds - dt * DecayRate)
  }

  /** finalError > deviationThreshold; false for NaN. */
  predicate IsBad(e: Measure, threshold: real)
  {
    e.Num? && e.v > threshold
  }

  // ------------------------------------------------------------------ alert

  datatype AlertResult = AlertResult(next: State, fired: bool)

  /** triggerAlert: nothing while the status says the user is away; otherwise
      beep and notify at most once per cooldown window, and show the overlay. */
  function AlertStep(s: State, now: int): AlertResult
  {
    if s.status == Away then AlertResult(s, false)
    else if now - s.lastAlertTime > AlertCooldownMs then
      AlertResult(s.(lastAlertTime := now, overlayOn := true), true)
    else AlertResult(s.(overlayOn := true), false)
  }

  /** The cooldown: an alert fires exactly when the user is not marked away and
      more than the cooldown has passed since the last one; only a firing alert
      moves lastAlertTime; the overlay comes on unless the away guard returned. */
  lemma Cooldown(s: State, now: int)
    ensures AlertStep(s, now).fired <==> (s.status != Away && now - s.lastAlertTime > AlertCooldownMs)
    ensures AlertStep(s, now).next.lastAlertTime == if AlertStep(s, now).fired then now else s.lastAlertTime
    ensures AlertStep(s, now).next.overlayOn == (s.status != Away || s.overlayOn)
    ensures AlertStep(s, now).next.(lastAlertTime := s.lastAlertTime, overlayOn := s.overlayOn) == s
  {
  }

  /** An alert request no more than the cooldown after one that fired does not
      fire, even if the clock stepped back in between. */
  lemma AtMostOneAlertPerWindow(s: State, t1: int, t2: int)
    requires t2 <= t1 + AlertCooldownMs
    ensures !(AlertStep(s, t1).fired && AlertStep(AlertStep(s, t1).next, t2).fired)
  {
  }

  // ------------------------------------------------------------------- away

  datatype AwayResult = AwayResult(next: State, reading: Reading)

  /** handleUserAway: clear the flag and the accumulator; the first time, also
      mark the status away, show "-" and clear the overlay. lastFrameTime is
      left alone. */
  function AwayStep(s: State): AwayResult
  {
    var s' := s.(badPosture := false, badSeconds := 0.0);
    if s.status == Away then AwayResult(s', Unchanged)
    else AwayResult(s'.(status := Away, overlayOn := false), Dash)
  }

  // ----------------------------------------------------------------- scoring

  datatype CheckResult = CheckResult(next: State, score: Option<Measure>, reading: Reading, alerted: bool)

  /** The shown value of a score. */
  function ReadingOf(e: Measure): Reading
  {
    match DisplayPercent(e)
    case None => NotANumber
    case Some(p) => Percent(p)
  }

  /** The clock and accumulator update of checkPosture: lastFrameTime becomes
      now and the time since the previous scored frame is added to, or twice
      over drained from, badPostureDuration. */
  function Tally(s: State, bad: bool, now: int): State
  {
    s.(lastFrameTime := now, badSeconds := Accumulate(s.badSeconds, Elapsed(s.lastFrameTime, now), bad))
  }

  /** The threshold logic of checkPosture once the frame has been scored as
      `e` with lean penalty `penalty`: tally the frame, then a bad frame raises
      the flag and the alert once the accumulator reached the delay and counts
      down before that, and a good frame clears the flag and the overlay. */
  function Judge(s: State, e: Measure, penalty: real, now: int): AlertResult
  {
    var bad := IsBad(e, DeviationThreshold(s.thresholdPercent));
    var t := Tally(s, bad, now);
    if bad then
      if t.badSeconds >= s.alertDelaySeconds as real then
        AlertStep(t.(badPosture := true,
                     status := if penalty > TurtleNeckPenalty then TurtleNeck else Slouching), now)
      else
        AlertResult(t.(badPosture := false,
                       status := Warning(Ceil(s.alertDelaySeconds as real - t.badSeconds))), false)
    else
      AlertResult(t.(badPosture := false, status := Upright, overlayOn := false), false)
  }

  /** checkPosture. A frame missing a landmark that normalization reads makes
      it throw before anything changes; otherwise it is scored against the
      reference and judged. */
  function CheckStep(s: State, lms: seq<Landmark>, now: int, sqrt: real -> real): CheckResult
    requires IsSqrt(sqrt)
    requires s.reference.Some?
  {
    match Normalize(lms, sqrt)
    case None => CheckResult(s, None, Unchanged, false)
    case Some(cur) =>
      var e := FinalError(cur, s.reference.value, sqrt);
      var j := Judge(s, e, LeanPenalty(cur, s.reference.value), now);
      CheckResult(j.next, Some(e), ReadingOf(e), j.fired)
  }

  // ------------------------------------------------------------------ frames

  /** Landmark colour, chosen from the state before this frame is scored. */
  function LandmarkColor(monitoring: bool, present: bool, badPosture: bool, badSeconds: real): Color
  {
    if monitoring && present then
      if badPosture then Red
      else if badSeconds > WarningColorSeconds then Yellow
      else Green
    else Blue
  }

  /** What one detector result produces: the new state, the landmark colour
      (None when there were no landmarks to draw), the score if the frame was
      scored, the deviation display and whether an alert fired. */
  datatype FrameResult = FrameResult(next: State, color: Option<Color>, score: Option<Measure>,
                                     reading: Reading, alerted: bool)

  /** What onResults does before looking at the landmarks: the first result
      replaces the loading status by the prompt, and every result becomes the
      latest one. */
  function Arrive(s: State, frame: Option<seq<Landmark>>): State
  {
    var s1 := if s.firstFrameReceived then s else s.(firstFrameReceived := true, status := Prompt);
    s1.(current := frame)
  }

  /** The part of onResults for a result that has landmarks: choose the
      colour, then score the frame when the user is present and otherwise
      treat the user as away; nothing of that unless monitoring with a
      reference. */
  function PoseStep(s: State, lms: seq<Landmark>, now: int, sqrt: real -> real): FrameResult
    requires IsSqrt(sqrt)
  {
    var present := IsUserVisible(lms);
    var color := LandmarkColor(s.monitoring, present, s.badPosture, s.badSeconds);
    if s.monitoring && s.reference.Some? then
      if present then
        var c := CheckStep(s, lms, now, sqrt);
        FrameResult(c.next, Some(color), c.score, c.reading, c.alerted)
      else
        var a := AwayStep(s);
        FrameResult(a.next, Some(color), None, a.reading, false)
    else FrameResult(s, Some(color), None, Unchanged, false)
  }

  /** onResults: `frame` is the result's poseLandmarks, None when absent; a
      result without landmarks while monitoring means the user is away. */
  function FrameStep(s: State, frame: Option<seq<Landmark>>, now: int, sqrt: real -> real): FrameResult
    requires IsSqrt(sqrt)
  {
    var s2 := Arrive(s, frame);
    match frame
    case None =>
      if s2.monitoring then
        var a := AwayStep(s2);
        FrameResult(a.next, None, None, a.reading, false)
      else FrameResult(s2, None, None, Unchanged, false)
    case Some(lms) => PoseStep(s2, lms, now, sqrt)
  }

  // --------------------------------------------------------- other handlers

  datatype ReferenceResult = ReferenceResult(next: State, beeped: bool)

  /** The reference button: normalize the latest landmarks, store them as the
      reference, start monitoring and beep. Nothing happens without landmarks,
      and a missing landmark makes normalization throw first. */
  function ReferenceStep(s: State, sqrt: real -> real): ReferenceResult
    requires IsSqrt(sqrt)
  {
    match s.current
    case None => ReferenceResult(s, false)
    case Some(lms) =>
      match Normalize(lms, sqrt)
      case None => ReferenceResult(s, false)
      case Some(pose) => ReferenceResult(s.(reference := Some(pose), monitoring := true, status := Watching), true)
  }

  /** The stop button: stop monitoring, show the idle status, clear the overlay. */
  function StopStep(s: State): State
  {
    s.(monitoring := false, status := Idle, overlayOn := false)
  }

  function ThresholdStep(s: State, percent: int): State
  {
    s.(thresholdPercent := percent)
  }

  function DelayStep(s: State, seconds: int): State
  {
    s.(alertDelaySeconds := seconds)
  }

  // --------------------------------------------------------------- lemmas

  /** Every handler keeps Inv, starting from the initial state. */
  lemma InitialInv()
    ensures Inv(Initial())
  {
  }

  lemma FrameKeepsInv(s: State, frame: Option<seq<Landmark>>, now: int, sqrt: real -> real)
    requires IsSqrt(sqrt)
    requires Inv(s)
    ensures Inv(FrameStep(s, frame, now, sqrt).next)
  {
    var s2 := Arrive(s, frame);
    if frame.Some? && s2.monitoring && s2.reference.Some? && IsUserVisible(frame.value) {
      match Normalize(frame.value, sqrt)
      case None =>
      case Some(cur) =>
        JudgeOutcome(s2, FinalError(cur, s2.reference.value, sqrt), LeanPenalty(cur, s2.reference.value), now);
    }
  }

  lemma HandlersKeepInv(s: State, percent: int, seconds: int, sqrt: real -> real)
    requires IsSqrt(sqrt)
    requires Inv(s)
    ensures Inv(ReferenceStep(s, sqrt).next)
    ensures Inv(StopStep(s))
    ensures Inv(ThresholdStep(s, percent)) && Inv(DelayStep(s, seconds))
  {
  }

  /** What judging a scored frame does: lastFrameTime becomes now; the
      accumulator grows by dt on a bad frame and decays by twice dt on a good
      one; a good frame clears the flag and the overlay; a bad frame raises the
      flag exactly when the accumulator reached the delay, and otherwise counts
      down; only a raised flag can fire an alert, and only a fired alert moves
      lastAlertTime. */
  lemma JudgeOutcome(s: State, e: Measure, penalty: real, now: int)
    ensures var r := Judge(s, e, penalty, now);
            var bad := IsBad(e, DeviationThreshold(s.thresholdPercent));
            && r.next.lastFrameTime == now
            && r.next.badSeconds == Accumulate(s.badSeconds, Elapsed(s.lastFrameTime, now), bad)
            && (!bad ==> !r.next.badPosture && !r.next.overlayOn && r.next.status == Upright)
            && (bad ==> (r.next.badPosture <==> r.next.badSeconds >= s.alertDelaySeconds as real))
            && (bad && !r.next.badPosture ==>
                  r.next.status == Warning(Ceil(s.alertDelaySeconds as real - r.next.badSeconds)))
            && (r.next.badPosture ==> r.next.overlayOn && r.next.status in {Slouching, TurtleNeck})
            && (r.fired ==> r.next.badPosture && now - s.lastAlertTime > AlertCooldownMs
                            && r.next.lastAlertTime == now)
            && (!r.fired ==> r.next.lastAlertTime == s.lastAlertTime)
            && (Inv(s) ==> Inv(r.next))
            && r.next.(lastFrameTime := s.lastFrameTime, badSeconds := s.badSeconds, badPosture := s.badPosture,
                       status := s.status, overlayOn := s.overlayOn, lastAlertTime := s.lastAlertTime) == s
  {
  }

  /** The lean penalty passed to Judge matters only when the score is a
      number: a score of an unscaled pose is NaN, so the frame is good and the
      penalty is never read. */
  lemma PenaltyIgnoredWhenUnscaled(s: State, cur: NormalizedPose, ref: NormalizedPose, p1: real, p2: real,
                                   now: int, sqrt: real -> real)
    requires IsSqrt(sqrt)
    requires cur.Unscaled? || ref.Unscaled?
    ensures Judge(s, FinalError(cur, ref, sqrt), p1, now) == Judge(s, FinalError(cur, ref, sqrt), p2, now)
  {
  }

  /** A detector result never changes the reference, the monitoring flag or
      the settings. */
  lemma FrameKeepsSettings(s: State, frame: Option<seq<Landmark>>, now: int, sqrt: real -> real)
    requires IsSqrt(sqrt)
    ensures var n := FrameStep(s, frame, now, sqrt).next;
            && n.reference == s.reference && n.monitoring == s.monitoring
            && n.thresholdPercent == s.thresholdPercent && n.alertDelaySeconds == s.alertDelaySeconds
  {
    var s2 := Arrive(s, frame);
    if frame.Some? && s2.monitoring && s2.reference.Some? && IsUserVisible(frame.value) {
      match Normalize(frame.value, sqrt)
      case None =>
      case Some(cur) =>
        JudgeOutcome(s2, FinalError(cur, s2.reference.value, sqrt), LeanPenalty(cur, s2.reference.value), now);
    }
  }

  /** Scoring happens exactly when monitoring with a reference, the frame has
      landmarks, the presence filter accepts them and both shoulders exist. */
  lemma ScoredIff(s: State, frame: Option<seq<Landmark>>, now: int, sqrt: real -> real)
    requires IsSqrt(sqrt)
    ensures FrameStep(s, frame, now, sqrt).score.Some?
            <==> (s.monitoring && s.reference.Some? && frame.Some? && IsUserVisible(frame.value)
                  && RightShoulderIndex < |frame.value|)
  {
    var s2 := Arrive(s, frame);
    if frame.Some? && s2.monitoring && s2.reference.Some? && IsUserVisible(frame.value) {
      match Normalize(frame.value, sqrt)
      case None =>
      case Some(cur) =>
        JudgeOutcome(s2, FinalError(cur, s2.reference.value, sqrt), LeanPenalty(cur, s2.reference.value), now);
    }
  }

  /** A scored frame is judged against the state as it arrived, with the score
      of its normalized landmarks. */
  lemma ScoredFrame(s: State, lms: seq<Landmark>, now: int, sqrt: real -> real)
    requires IsSqrt(sqrt)
    requires s.monitoring && s.reference.Some? && IsUserVisible(lms) && RightShoulderIndex < |lms|
    ensures var r := FrameStep(s, Some(lms), now, sqrt);
            var cur := Normalize(lms, sqrt).value;
            var e := FinalError(cur, s.reference.value, sqrt);
            var bad := IsBad(e, DeviationThreshold(s.thresholdPercent));
            && r.score == Some(e)
            && r.next.lastFrameTime == now
            && r.next.badSeconds == Accumulate(s.badSeconds, Elapsed(s.lastFrameTime, now), bad)
            && (!bad ==> !r.next.badPosture && !r.next.overlayOn && r.next.status == Upright)
            && (bad ==> (r.next.badPosture <==> r.next.badSeconds >= s.alertDelaySeconds as real))
            && (bad && !r.next.badPosture ==>
                  r.next.status == Warning(Ceil(s.alertDelaySeconds as real - r.next.badSeconds)))
            && (r.next.badPosture ==> r.next.overlayOn && r.next.status in {Slouching, TurtleNeck})
  {
    var s2 := Arrive(s, Some(lms));
    var cur := Normalize(lms, sqrt).value;
    JudgeOutcome(s2, FinalError(cur, s2.reference.value, sqrt), LeanPenalty(cur, s2.reference.value), now);
  }

  /** The flag is only ever raised by a bad frame once the accumulator reached
      the delay; any other event lowers it or leaves it as it was. An alert only
      fires on a frame that raised the flag, and it is what stamps
      lastAlertTime. */
  lemma BadPostureOnlyWhenSustained(s: State, frame: Option<seq<Landmark>>, now: int, sqrt: real -> real)
    requires IsSqrt(sqrt)
    ensures var r := FrameStep(s, frame, now, sqrt);
            && (r.next.badPosture ==>
                  (r.score.Some? && IsBad(r.score.value, DeviationThreshold(s.thresholdPercent))
                   && r.next.badSeconds >= s.alertDelaySeconds as real)
                  || (r.score.None? && s.badPosture))
            && (r.alerted ==> r.next.badPosture && now - s.lastAlertTime > AlertCooldownMs
                              && r.next.lastAlertTime == now)
            && (!r.alerted ==> r.next.lastAlertTime == s.lastAlertTime)
  {
    var s2 := Arrive(s, frame);
    if frame.Some? && s2.monitoring && s2.reference.Some? && IsUserVisible(frame.value) {
      match Normalize(frame.value, sqrt)
      case None =>
      case Some(cur) =>
        JudgeOutcome(s2, FinalError(cur, s2.reference.value, sqrt), LeanPenalty(cur, s2.reference.value), now);
    }
  }

  /** Two detector results no more than the cooldown apart raise at most one alert. */
  lemma AlertsSpaced(s: State, f1: Option<seq<Landmark>>, t1: int, f2: Option<seq<Landmark>>, t2: int,
                     sqrt: real -> real)
    requires IsSqrt(sqrt)
    requires t1 <= t2 <= t1 + AlertCooldownMs
    ensures var r1 := FrameStep(s, f1, t1, sqrt);
            !(r1.alerted && FrameStep(r1.next, f2, t2, sqrt).alerted)
  {
    var r1 := FrameStep(s, f1, t1, sqrt);
    BadPostureOnlyWhenSustained(s, f1, t1, sqrt);
    BadPostureOnlyWhenSustained(r1.next, f2, t2, sqrt);
  }

  /** While monitoring, a frame without a present user resets the flag and the
      accumulator, shows the away status without the overlay, fires nothing and
      keeps lastFrameTime; the display shows "-" the first time only. */
  lemma AwayResets(s: State, frame: Option<seq<Landmark>>, now: int, sqrt: real -> real)
    requires IsSqrt(sqrt)
    requires Inv(s)
    requires s.monitoring
    requires frame.None? || !IsUserVisible(frame.value)
    ensures var r := FrameStep(s, frame, now, sqrt);
            && !r.next.badPosture && r.next.badSeconds == 0.0
            && r.next.status == Away && !r.next.overlayOn
            && r.next.lastFrameTime == s.lastFrameTime
            && r.score.None? && !r.alerted
            && r.reading == if s.firstFrameReceived && s.status == Away then Unchanged else Dash
  {
  }

  /** Because an absence keeps lastFrameTime, the first bad frame after the
      user returns counts the whole time since the last scored frame before
      the absence. */
  lemma AwayGapCountsOnReturn(s: State, t1: int, lms: seq<Landmark>, t2: int, sqrt: real -> real)
    requires IsSqrt(sqrt)
    requires Inv(s) && s.monitoring
    ensures var away := FrameStep(s, None, t1, sqrt).next;
            var r := FrameStep(away, Some(lms), t2, sqrt);
            r.score.Some? && IsBad(r.score.value, DeviationThreshold(s.thresholdPercent))
            ==> r.next.badSeconds == Elapsed(s.lastFrameTime, t2)
  {
    var away := FrameStep(s, None, t1, sqrt).next;
    AwayResets(s, None, t1, sqrt);
    ScoredIff(away, Some(lms), t2, sqrt);
    if FrameStep(away, Some(lms), t2, sqrt).score.Some? {
      ScoredFrame(away, lms, t2, sqrt);
    }
  }

  /** With a clock that does not run backwards the accumulator never goes negative. */
  lemma AccumulatorNonNegative(s: State, frame: Option<seq<Landmark>>, now: int, sqrt: real -> real)
    requires IsSqrt(sqrt)
    requires 0.0 <= s.badSeconds
    requires s.lastFrameTime <= now
    ensures 0.0 <= FrameStep(s, frame, now, sqrt).next.badSeconds
  {
    var s2 := Arrive(s, frame);
    if frame.Some? && s2.monitoring && s2.reference.Some? && IsUserVisible(frame.value) {
      match Normalize(frame.value, sqrt)
      case None =>
      case Some(cur) =>
        JudgeOutcome(s2, FinalError(cur, s2.reference.value, sqrt), LeanPenalty(cur, s2.reference.value), now);
    }
  }

  /** For a watched user the landmark colour is red exactly when the flag was
      up, otherwise yellow exactly when the accumulator passed half a second
      and green when it did not; it is blue exactly when the user is not being
      watched. */
  lemma FrameColor(s: State, lms: seq<Landmark>, now: int, sqrt: real -> real)
    requires IsSqrt(sqrt)
    ensures var c := FrameStep(s, Some(lms), now, sqrt).color;
            && c.Some?
            && (c.value == Blue <==> !(s.monitoring && IsUserVisible(lms)))
            && (c.value == Red <==> s.monitoring && IsUserVisible(lms) && s.badPosture)
            && (c.value == Yellow <==>
                  (s.monitoring && IsUserVisible(lms) && !s.badPosture && s.badSeconds > WarningColorSeconds))
            && (c.value == Green <==>
                  (s.monitoring && IsUserVisible(lms) && !s.badPosture && s.badSeconds <= WarningColorSeconds))
  {
    var s2 := Arrive(s, Some(lms));
    if s2.monitoring && s2.reference.Some? && IsUserVisible(lms) {
      match Normalize(lms, sqrt)
      case None =>
      case Some(cur) =>
        JudgeOutcome(s2, FinalError(cur, s2.reference.value, sqrt), LeanPenalty(cur, s2.reference.value), now);
    }
  }

  /** Setting the reference leaves the accumulator, the flag, the clocks and
      the overlay alone; it succeeds exactly when the latest result has both
      shoulders, and then monitors against that normalized pose. */
  lemma ReferenceKeepsAccumulator(s: State, sqrt: real -> real)
    requires IsSqrt(sqrt)
    ensures var r := ReferenceStep(s, sqrt);
            && r.next.badSeconds == s.badSeconds && r.next.badPosture == s.badPosture
            && r.next.lastFrameTime == s.lastFrameTime && r.next.lastAlertTime == s.lastAlertTime
            && r.next.overlayOn == s.overlayOn
            && (r.beeped <==> s.current.Some? && RightShoulderIndex < |s.current.value|)
            && (r.beeped ==> r.next.monitoring && r.next.reference == Normalize(s.current.value, sqrt))
            && (!r.beeped ==> r.next == s)
  {
  }

  /** Stopping changes only the monitoring flag, the status and the overlay;
      after it no frame is scored and no alert fires. */
  lemma StopHalts(s: State, frame: Option<seq<Landmark>>, now: int, sqrt: real -> real)
    requires IsSqrt(sqrt)
    ensures StopStep(s).(monitoring := s.monitoring, status := s.status, overlayOn := s.overlayOn) == s
    ensures var r := FrameStep(StopStep(s), frame, now, sqrt);
            r.score.None? && !r.alerted && r.next.badSeconds == s.badSeconds
  {
  }

  // ------------------------------------------------- runs of scored frames

  /** One scored frame, as the accumulator sees it: elapsed seconds and whether
      the frame was bad. */
  datatype Tick = Tick(dt: real, bad: bool)

  /** The accumulator after a run of scored frames. */
  function Replay(seconds: real, ticks: seq<Tick>): real
    decreases |ticks|
  {
    if |ticks| == 0 then seconds
    else Replay(Accumulate(seconds, ticks[0].dt, ticks[0].bad), ticks[1..])
  }

  /** Total duration of the bad frames of a run. */
  function BadTime(ticks: seq<Tick>): real
    decreases |ticks|
  {
    if |ticks| == 0 then 0.0
    else (if ticks[0].bad then ticks[0].dt else 0.0) + BadTime(ticks[1..])
  }

  predicate Forward(ticks: seq<Tick>)
  {
    forall k :: 0 <= k < |ticks| ==> 0.0 <= ticks[k].dt
  }

  /** Over a run with a forward clock the accumulator stays non-negative and
      never exceeds its start plus the bad time of the run: good frames only
      ever drain it. */
  lemma {:induction false} ReplayBounds(seconds: real, ticks: seq<Tick>)
    requires 0.0 <= seconds
    requires Forward(ticks)
    ensures 0.0 <= Replay(seconds, ticks) <= seconds + BadTime(ticks)
    decreases |ticks|
  {
    if |ticks| > 0 {
      var next := Accumulate(seconds, ticks[0].dt, ticks[0].bad);
      assert Forward(ticks[1..]) by {
        forall k | 0 <= k < |ticks[1..]| ensures 0.0 <= ticks[1..][k].dt {
          assert ticks[1..][k] == ticks[k + 1];
        }
      }
      ReplayBounds(next, ticks[1..]);
    }
  }

  /** A run of bad frames only adds up its durations. */
  lemma {:induction false} ReplayAllBad(seconds: real, ticks: seq<Tick>)
    requires forall k :: 0 <= k < |ticks| ==> ticks[k].bad
    ensures Replay(seconds, ticks) == seconds + BadTime(ticks)
    decreases |ticks|
  {
    if |ticks| > 0 {
      assert forall k :: 0 <= k < |ticks[1..]| ==> ticks[1..][k].bad by {
        forall k | 0 <= k < |ticks[1..]| ensures ticks[1..][k].bad {
          assert ticks[1..][k] == ticks[k + 1];
        }
      }
      ReplayAllBad(seconds + ticks[0].dt, ticks[1..]);
    }
  }

  /** Starting from an empty accumulator (a fresh session, or the return
      after an absence), reaching the alert delay takes at least that many
      seconds of bad frames. */
  lemma SustainedBadTime(ticks: seq<Tick>, delay: real)
    requires Forward(ticks)
    requires delay <= Replay(0.0, ticks)
    ensures delay <= BadTime(ticks)
  {
    ReplayBounds(0.0, ticks);
  }

  /** A good frame drains what a bad frame of the same length added, twice over. */
  lemma RecoveryIsTwiceAsFast(seconds: real, dt: real)
    requires 0.0 <= seconds && 0.0 <= dt
    ensures Accumulate(Accumulate(seconds, dt, true), dt, false) == Max(0.0, seconds - dt)
  {
  }
}
