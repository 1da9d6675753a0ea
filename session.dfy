/** The page's module-level variables and the handlers that update them in
    place. Each method is proved to leave exactly the state the matching
    function of the Monitor module computes, so every lemma proved there about
    the functions holds of these handlers. */
module App {
  import opened Basics
  import opened Landmarks
  import opened Scoring
  import opened Monitor

  class Session {
    /** The platform's Math.sqrt. */
    const sqrt: real -> real

    var referenceLandmarks: Option<NormalizedPose>
    var isMonitoring: bool
    var badPostureDuration: real
    var lastFrameTime: int
    var isBadPosture: bool
    var lastAlertTime: int
    var overlayOn: bool
    var status: Status
    var firstFrameReceived: bool
    var currentLandmarks: Option<seq<Landmark>>
    var userThresholdPercent: int
    var deviationThreshold: real
    var alertDelaySeconds: int

    /** The variables as one Monitor.State value. */
    function Snapshot(): State
      reads this
    {
      State(referenceLandmarks, isMonitoring, badPostureDuration, lastFrameTime, isBadPosture,
            lastAlertTime, overlayOn, status, firstFrameReceived, currentLandmarks,
            userThresholdPercent, alertDelaySeconds)
    }

    /** deviationThreshold always follows the percentage setting, and the
        variables satisfy Monitor.Inv. */
    ghost predicate Valid()
      reads this
    {
      IsSqrt(sqrt)
      && deviationThreshold == DeviationThreshold(userThresholdPercent)
      && Inv(Snapshot())
    }

    constructor(sqrt: real -> real)
      requires IsSqrt(sqrt)
      ensures Valid()
      ensures this.sqrt == sqrt
      ensures Snapshot() == Initial()
    {
      this.sqrt := sqrt;
      referenceLandmarks := None;
      isMonitoring := false;
      badPostureDuration := 0.0;
      lastFrameTime := 0;
      isBadPosture := false;
      lastAlertTime := 0;
      overlayOn := false;
      status := Loading;
      firstFrameReceived := false;
      currentLandmarks := None;
      userThresholdPercent := DefaultThresholdPercent;
      deviationThreshold := DefaultThresholdPercent as real / UiScaleFactor as real;
      alertDelaySeconds := DefaultDelaySeconds;
    }

    /** clearAlert: hide the overlay. */
    method ClearAlert()
      modifies this
      ensures Snapshot() == old(Snapshot()).(overlayOn := false)
      ensures deviationThreshold == old(deviationThreshold)
    {
      overlayOn := false;
    }

    /** triggerAlert, with `now` the time Date.now() returns. */
    method TriggerAlert(now: int) returns (fired: bool)
      modifies this
      ensures Snapshot() == AlertStep(old(Snapshot()), now).next
      ensures fired == AlertStep(old(Snapshot()), now).fired
      ensures deviationThreshold == old(deviationThreshold)
    {
      if status == Away {
        return false;
      }
      fired := false;
      if now - lastAlertTime > AlertCooldownMs {
        fired := true;
        lastAlertTime := now;
      }
      overlayOn := true;
    }

    /** handleUserAway */
    method HandleUserAway() returns (reading: Reading)
      modifies this
      ensures Snapshot() == AwayStep(old(Snapshot())).next
      ensures reading == AwayStep(old(Snapshot())).reading
      ensures deviationThreshold == old(deviationThreshold)
    {
      isBadPosture := false;
      badPostureDuration := 0.0;
      reading := Unchanged;
      if status != Away {
        status := Away;
        reading := Dash;
        ClearAlert();
      }
    }

    /** checkPosture, with `now` the time Date.now() returns: score the frame
        against the reference, show the percentage, then check the thresholds. */
    method CheckPosture(lms: seq<Landmark>, now: int) returns (score: Option<Measure>, reading: Reading, alerted: bool)
      requires IsSqrt(sqrt)
      requires referenceLandmarks.Some?
      requires deviationThreshold == DeviationThreshold(userThresholdPercent)
      modifies this
      ensures var r := CheckStep(old(Snapshot()), lms, now, sqrt);
              Snapshot() == r.next && score == r.score && reading == r.reading && alerted == r.alerted
      ensures deviationThreshold == old(deviationThreshold)
    {
      var normalized := Normalize(lms, sqrt);
      if normalized.None? {
        return None, Unchanged, false;
      }
      var current := normalized.value;
      var ref := referenceLandmarks.value;

      var finalError: Measure := NaN;
      var scaleError := 0.0;
      if current.Scaled? && ref.Scaled? {
        var totalError := WeightedTotal(current.points, ref.points, sqrt);
        scaleError := ScalePenalty(LeanRatio(current, ref));
        finalError := Num(totalError / PointCount as real + scaleError);
      }
      assert finalError == FinalError(current, ref, sqrt) && scaleError == LeanPenalty(current, ref);
      score := Some(finalError);
      reading := ReadingOf(finalError);
      alerted := CheckThresholds(finalError, scaleError, now);
    }

    /** The second half of checkPosture: tally the frame, then update the
        flag, the status, the alert and the overlay. */
    method CheckThresholds(finalError: Measure, scaleError: real, now: int) returns (alerted: bool)
      requires deviationThreshold == DeviationThreshold(userThresholdPercent)
      modifies this
      ensures Snapshot() == Judge(old(Snapshot()), finalError, scaleError, now).next
      ensures alerted == Judge(old(Snapshot()), finalError, scaleError, now).fired
      ensures deviationThreshold == old(deviationThreshold)
    {
      ghost var judged := Judge(Snapshot(), finalError, scaleError, now);
      var bad := IsBad(finalError, deviationThreshold);
      TallyFrame(bad, now);
      alerted := false;
      if bad {
        if badPostureDuration >= alertDelaySeconds as real {
          isBadPosture := true;
          status := if scaleError > TurtleNeckPenalty then TurtleNeck else Slouching;
          ghost var raised := Snapshot();
          alerted := TriggerAlert(now);
          assert judged == AlertStep(raised, now);
        } else {
          status := Warning(Ceil(alertDelaySeconds as real - badPostureDuration));
          isBadPosture := false;
        }
      } else {
        isBadPosture := false;
        status := Upright;
        ClearAlert();
      }
    }

    /** The dt computation of checkPosture and the accumulator update of
        both of its branches. */
    method TallyFrame(bad: bool, now: int)
      modifies this
      ensures Snapshot() == Tally(old(Snapshot()), bad, now)
      ensures deviationThreshold == old(deviationThreshold)
    {
      var dt := Elapsed(lastFrameTime, now);
      lastFrameTime := now;
      if bad {
        badPostureDuration := badPostureDuration + dt;
      } else {
        badPostureDuration := badPostureDuration - dt * DecayRate;
        if badPostureDuration < 0.0 {
          badPostureDuration := 0.0;
        }
      }
    }

    /** onResults: one detector result, `frame` being its poseLandmarks. */
    method OnResults(frame: Option<seq<Landmark>>, now: int)
      returns (color: Option<Color>, score: Option<Measure>, reading: Reading, alerted: bool)
      requires Valid()
      modifies this
      ensures Valid()
      ensures var r := FrameStep(old(Snapshot()), frame, now, sqrt);
              Snapshot() == r.next && color == r.color && score == r.score
              && reading == r.reading && alerted == r.alerted
    {
      ghost var s := Snapshot();
      if !firstFrameReceived {
        firstFrameReceived := true;
        status := Prompt;
      }
      currentLandmarks := frame;
      assert Snapshot() == Arrive(s, frame);

      match frame {
        case None =>
          color, score, reading, alerted := None, None, Unchanged, false;
          if isMonitoring {
            reading := HandleUserAway();
          }
        case Some(lms) =>
          color, score, reading, alerted := OnLandmarks(lms, now);
      }
      ghost var r := FrameStep(s, frame, now, sqrt);
      assert Snapshot() == r.next;
      FrameKeepsInv(s, frame, now, sqrt);
      FrameKeepsSettings(s, frame, now, sqrt);
    }

    /** The branch of onResults for a result with landmarks. */
    method OnLandmarks(lms: seq<Landmark>, now: int)
      returns (color: Option<Color>, score: Option<Measure>, reading: Reading, alerted: bool)
      requires IsSqrt(sqrt)
      requires deviationThreshold == DeviationThreshold(userThresholdPercent)
      modifies this
      ensures var r := PoseStep(old(Snapshot()), lms, now, sqrt);
              Snapshot() == r.next && color == r.color && score == r.score
              && reading == r.reading && alerted == r.alerted
      ensures deviationThreshold == old(deviationThreshold)
    {
      var isUserPresent := IsUserVisible(lms);
      var landmarkColor := Blue;
      if isMonitoring && isUserPresent {
        if isBadPosture {
          landmarkColor := Red;
        } else if badPostureDuration > WarningColorSeconds {
          landmarkColor := Yellow;
        } else {
          landmarkColor := Green;
        }
      }
      color, score, reading, alerted := Some(landmarkColor), None, Unchanged, false;
      if isMonitoring && referenceLandmarks.Some? {
        if isUserPresent {
          score, reading, alerted := CheckPosture(lms, now);
        } else {
          reading := HandleUserAway();
        }
      }
    }

    /** The reference button's click handler. */
    method SetReference() returns (beeped: bool)
      requires Valid()
      modifies this
      ensures Valid()
      ensures Snapshot() == ReferenceStep(old(Snapshot()), sqrt).next
      ensures beeped == ReferenceStep(old(Snapshot()), sqrt).beeped
    {
      beeped := false;
      if currentLandmarks.Some? {
        var normalized := Normalize(currentLandmarks.value, sqrt);
        if normalized.Some? {
          referenceLandmarks := normalized;
          isMonitoring := true;
          status := Watching;
          beeped := true;
        }
      }
    }

    /** The stop button's click handler. */
    method Stop()
      requires Valid()
      modifies this
      ensures Valid()
      ensures Snapshot() == StopStep(old(Snapshot()))
    {
      isMonitoring := false;
      status := Idle;
      ClearAlert();
    }

    /** The sensitivity slider's input handler. */
    method SetThreshold(percent: int)
      requires Valid()
      modifies this
      ensures Valid()
      ensures Snapshot() == ThresholdStep(old(Snapshot()), percent)
    {
      userThresholdPercent := percent;
      deviationThreshold := percent as real / UiScaleFactor as real;
    }

    /** The delay slider's input handler. */
    method SetDelay(seconds: int)
      requires Valid()
      modifies this
      ensures Valid()
      ensures Snapshot() == DelayStep(old(Snapshot()), seconds)
    {
      alertDelaySeconds := seconds;
    }
  }
}
