/** The main window's share of the logic: the five threshold spin boxes and
    the calibration that rewrites them, the unit shown after a measured
    value, and the background style chosen from a verdict's colour. */
module GuiQt {
  import opened Strings
  import opened PostureDetector
  import opened Calibration

  /** The unit of the value in the status line: pixels for the shoulder
      status, degrees for every other. */
  function Unit(status: string): (u: string)
    ensures u == "px" || u == "°"
  {
    if Contains(status, "Omuz") then "px" else "°"
  }

  /** The status line shows pixels exactly when the shoulder check decided
      the frame, and degrees otherwise. */
  lemma {:induction false} UnitFollowsDecidingCheck(detected: Option<Pose>, w: nat, h: nat, t: Thresholds, angle: AngleFn)
    ensures Unit(Process(detected, w, h, t, angle).status)
            == if DecidingCheck(detected, w, h, t, angle) == ShoulderCheck then "px" else "°"
  {
    RouteFollowsDecidingCheck(detected, w, h, t, angle);
  }

  const GreyStyle := "background-color: #6c757d;"

  /** The background style of each colour code the classifier uses. */
  const StatusStyles: map<string, string> := map[
    Green := "background-color: #28a745;",
    Yellow := "background-color: #ffc107;",
    Red := "background-color: #dc3545;",
    Grey := GreyStyle]

  /** The colour-to-style lookup, falling back to grey for an unknown code. */
  function StatusStyle(color: string): (style: string)
    ensures style in StatusStyles.Values
    ensures color in StatusStyles ==> style == StatusStyles[color]
    ensures color !in StatusStyles ==> style == GreyStyle
  {
    if color in StatusStyles then StatusStyles[color]
    else assert StatusStyles[Grey] == GreyStyle; GreyStyle
  }

  /** Every verdict's colour has a style of its own that sets exactly that
      colour as background, so the grey fallback is never taken for a
      classifier result. */
  lemma VerdictStyleSetsItsColour(detected: Option<Pose>, w: nat, h: nat, t: Thresholds, angle: AngleFn)
    ensures var r := Process(detected, w, h, t, angle);
            r.color in StatusStyles && StatusStyle(r.color) == "background-color: " + r.color + ";"
  {
    var r := Process(detected, w, h, t, angle);
    assert "background-color: " + Green + ";" == "background-color: #28a745;";
    assert "background-color: " + Yellow + ";" == "background-color: #ffc107;";
    assert "background-color: " + Red + ";" == "background-color: #dc3545;";
    assert "background-color: " + Grey + ";" == GreyStyle;
  }

  /** What calibration reported: cancelled by a failed camera read, or done,
      with for each bucket whether it had data (an information box) or not
      (a warning box). */
  datatype CalibrationReport = Aborted | Completed(torsoSet: bool, shoulderSet: bool, neckSet: bool)

  /** The window's threshold state: the values of its five spin boxes. */
  class MainWindow {
    var shoulderBox: int    // shoulder difference limit, range [0, 1000] px
    var angleLowerBox: int  // torso angle lower bound, range [0, 180] degrees
    var angleUpperBox: int  // torso angle upper bound, range [0, 180] degrees
    var neckLowerBox: int   // neck angle lower bound, range [0, 180] degrees
    var neckUpperBox: int   // neck angle upper bound, range [0, 180] degrees

    /** Every spin box holds a value of its range. */
    ghost predicate Valid()
      reads this
    {
      InPanelRanges(CurrentThresholds())
    }

    /** The thresholds each frame is classified with, read off the spin boxes. */
    function CurrentThresholds(): Thresholds
      reads this
    {
      Thresholds(shoulderBox, angleLowerBox, angleUpperBox, neckLowerBox, neckUpperBox)
    }

    /** The window starts with the default thresholds 26 px, 160-180 degrees
        for the torso and 140-180 degrees for the neck. */
    constructor ()
      ensures Valid()
      ensures CurrentThresholds() == Thresholds(26, 160, 180, 140, 180)
    {
      shoulderBox := 26;
      angleLowerBox := 160;
      angleUpperBox := 180;
      neckLowerBox := 140;
      neckUpperBox := 180;
    }

    /** Calibrates on the samples of the sampling window. A failed camera
        read cancels it with nothing changed; otherwise each non-empty
        bucket re-derives its thresholds and an empty one leaves them. */
    method Calibrate(samples: seq<CameraRead>) returns (report: CalibrationReport)
      requires Valid()
      modifies this
      ensures Valid()
      ensures report.Aborted? <==> ReadFailed in samples
      ensures report.Aborted? ==> CurrentThresholds() == old(CurrentThresholds())
      ensures report.Completed? ==>
                CurrentThresholds() == Calibrated(old(CurrentThresholds()), Bucketed(samples, AngleBucket),
                                                  Bucketed(samples, ShoulderBucket), Bucketed(samples, NeckBucket))
      ensures report.Completed? ==>
                && report.torsoSet == (Bucketed(samples, AngleBucket) != [])
                && report.shoulderSet == (Bucketed(samples, ShoulderBucket) != [])
                && report.neckSet == (Bucketed(samples, NeckBucket) != [])
    {
      var ok, angles, shoulders, necks := CollectSamples(samples);
      if !ok {
        return Aborted;
      }
      if angles != [] {
        var avg := Mean(angles);
        angleLowerBox := SpinValue(TorsoLowerFrom(avg), 0, 180);
        angleUpperBox := SpinValue(TorsoUpperFrom(avg), 0, 180);
      }
      if shoulders != [] {
        shoulderBox := SpinValue(ShoulderFrom(Mean(shoulders)), 0, 1000);
      }
      if necks != [] {
        var avg := Mean(necks);
        neckLowerBox := SpinValue(NeckLowerFrom(avg), 0, 180);
        neckUpperBox := SpinValue(NeckUpperFrom(avg), 0, 180);
      }
      report := Completed(angles != [], shoulders != [], necks != []);
    }
  }
}
