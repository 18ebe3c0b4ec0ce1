/** The calibration arithmetic of the main window: frames sampled during
    calibration are sorted into three buckets by their status text, and the
    bucket averages become new thresholds with fixed margins and clamps. */
module Calibration {
  import opened Strings
  import opened PostureDetector

  /** Where a calibration sample goes. */
  datatype Bucket = ShoulderBucket | AngleBucket | NeckBucket | Dropped

  /** Routing by substring, in priority order: "Omuz" first, then any of
      "Sırt", "Eğilme", "Dik", "Yaslanma", then "Boyun"; the rest is dropped. */
  function Route(status: string): (b: Bucket)
    ensures b == ShoulderBucket <==> Contains(status, "Omuz")
    ensures b == AngleBucket ==>
              Contains(status, "Sırt") || Contains(status, "Eğilme") || Contains(status, "Dik")
              || Contains(status, "Yaslanma")
    ensures b == NeckBucket ==> Contains(status, "Boyun")
    ensures b == Dropped ==>
              && !Contains(status, "Omuz") && !Contains(status, "Sırt") && !Contains(status, "Eğilme")
              && !Contains(status, "Dik") && !Contains(status, "Yaslanma") && !Contains(status, "Boyun")
  {
    if Contains(status, "Omuz") then ShoulderBucket
    else if Contains(status, "Sırt") || Contains(status, "Eğilme") || Contains(status, "Dik")
            || Contains(status, "Yaslanma") then AngleBucket
    else if Contains(status, "Boyun") then NeckBucket
    else Dropped
  }

  /** The bucket that collects the samples of each deciding measurement. */
  function BucketFor(c: Check): Bucket {
    match c
    case NoCheck => Dropped
    case ShoulderCheck => ShoulderBucket
    case NeckCheck => NeckBucket
    case TorsoCheck => AngleBucket
  }

  /** A status containing "Omuz" goes to the shoulder bucket, whatever else it contains. */
  lemma RouteToShoulder(s: string)
    requires Contains(s, "Omuz")
    ensures Route(s) == ShoulderBucket
  {
  }

  /** Without "Omuz", a status with any of "Sırt", "Eğilme", "Dik" or
      "Yaslanma" goes to the angle bucket. */
  lemma RouteToAngle(s: string)
    requires !Contains(s, "Omuz")
    requires Contains(s, "Sırt") || Contains(s, "Eğilme") || Contains(s, "Dik") || Contains(s, "Yaslanma")
    ensures Route(s) == AngleBucket
  {
  }

  /** A status with "Boyun" and none of the five earlier keywords goes to the
      neck bucket. */
  lemma RouteToNeck(s: string)
    requires !Contains(s, "Omuz")
    requires !Contains(s, "Sırt") && !Contains(s, "Eğilme") && !Contains(s, "Dik") && !Contains(s, "Yaslanma")
    requires Contains(s, "Boyun")
    ensures Route(s) == NeckBucket
  {
  }

  /** A status with none of the six keywords is dropped. */
  lemma RouteToDropped(s: string)
    requires !Contains(s, "Omuz")
    requires !Contains(s, "Sırt") && !Contains(s, "Eğilme") && !Contains(s, "Dik") && !Contains(s, "Yaslanma")
    requires !Contains(s, "Boyun")
    ensures Route(s) == Dropped
  {
  }

  // The same three routes for texts known only by the letters they lack.

  lemma RouteToAngleWithoutO(s: string)
    requires 'O' !in s
    requires Contains(s, "Sırt") || Contains(s, "Dik")
    ensures Route(s) == AngleBucket
  {
    MissingCharNotContained(s, "Omuz", 'O');
    RouteToAngle(s);
  }

  lemma RouteToNeckWithoutLetters(s: string)
    requires 'O' !in s && 'S' !in s && 'l' !in s && 'D' !in s && 'Y' !in s
    requires Contains(s, "Boyun")
    ensures Route(s) == NeckBucket
  {
    MissingCharNotContained(s, "Omuz", 'O');
    MissingCharNotContained(s, "Sırt", 'S');
    MissingCharNotContained(s, "Eğilme", 'l');
    MissingCharNotContained(s, "Dik", 'D');
    MissingCharNotContained(s, "Yaslanma", 'Y');
    RouteToNeck(s);
  }

  lemma RouteToDroppedWithoutLetters(s: string)
    requires 'O' !in s && 'S' !in s && 'E' !in s && 'D' !in s && 'Y' !in s && 'u' !in s
    ensures Route(s) == Dropped
  {
    MissingCharNotContained(s, "Omuz", 'O');
    MissingCharNotContained(s, "Sırt", 'S');
    MissingCharNotContained(s, "Eğilme", 'E');
    MissingCharNotContained(s, "Dik", 'D');
    MissingCharNotContained(s, "Yaslanma", 'Y');
    MissingCharNotContained(s, "Boyun", 'u');
    RouteToDropped(s);
  }

  lemma RouteShoulderLabel() ensures Route(ShoulderLabel) == ShoulderBucket {
    ContainsAt(ShoulderLabel, "Omuz", 0);
    RouteToShoulder(ShoulderLabel);
  }

  lemma RouteNeckLabels()
    ensures Route(NeckForwardLabel) == NeckBucket && Route(NeckBackwardLabel) == NeckBucket
  {
    NeckForwardLacksEarlierKeywords();
    NeckBackwardLacksEarlierKeywords();
    ContainsAt(NeckForwardLabel, "Boyun", 0);
    RouteToNeckWithoutLetters(NeckForwardLabel);
    ContainsAt(NeckBackwardLabel, "Boyun", 0);
    RouteToNeckWithoutLetters(NeckBackwardLabel);
  }

  lemma RouteTorsoLabels()
    ensures Route(LeanForwardLabel) == AngleBucket && Route(LeanBackwardLabel) == AngleBucket
    ensures Route(UprightLabel) == AngleBucket
  {
    TorsoLabelsLackShoulderKeyword();
    ContainsAt(LeanForwardLabel, "Sırt", 12);
    RouteToAngleWithoutO(LeanForwardLabel);
    ContainsAt(LeanBackwardLabel, "Sırt", 17);
    RouteToAngleWithoutO(LeanBackwardLabel);
    ContainsAt(UprightLabel, "Dik", 0);
    RouteToAngleWithoutO(UprightLabel);
  }

  lemma RouteNeutralLabels()
    ensures Route(NoPersonLabel) == Dropped && Route(WaitingLabel) == Dropped
  {
    NoPersonLacksFirstKeywords();
    NoPersonLacksLastKeywords();
    RouteToDroppedWithoutLetters(NoPersonLabel);
    WaitingLacksKeywords();
    RouteToDroppedWithoutLetters(WaitingLabel);
  }

  /** Where each of the classifier's eight status texts is routed. */
  lemma RouteLabels()
    ensures Route(ShoulderLabel) == ShoulderBucket
    ensures Route(NeckForwardLabel) == NeckBucket && Route(NeckBackwardLabel) == NeckBucket
    ensures Route(LeanForwardLabel) == AngleBucket && Route(LeanBackwardLabel) == AngleBucket
    ensures Route(UprightLabel) == AngleBucket
    ensures Route(NoPersonLabel) == Dropped && Route(WaitingLabel) == Dropped
  {
    RouteShoulderLabel();
    RouteNeckLabels();
    RouteTorsoLabels();
    RouteNeutralLabels();
  }

  /** Cross-check of the routing against the classifier: whatever the
      thresholds, a frame's status text lands in the bucket of the
      measurement that decided it, and frames decided by no measurement are
      dropped. */
  lemma {:induction false} RouteFollowsDecidingCheck(detected: Option<Pose>, w: nat, h: nat, t: Thresholds, angle: AngleFn)
    ensures Route(Process(detected, w, h, t, angle).status) == BucketFor(DecidingCheck(detected, w, h, t, angle))
  {
    RouteLabels();
    StatusNamesDecidingCheck(detected, w, h, t, angle);
  }

  // ---------------------------------------------------------------------
  // Sampling

  /** The thresholds calibration classifies its frames with: a shoulder
      limit of 0, and both angle ranges [0, 180]. */
  const CalibrationThresholds := Thresholds(0, 0, 180, 0, 180)

  /** One pass of the sampling loop: the camera read failed, or it gave a
      frame whose classification had this status and value. */
  datatype CameraRead = ReadFailed | Frame(status: string, value: Option<real>)

  /** A read adds its value to bucket `b`: a frame with a value that is
      present and non-negative, whose status routes to `b`. */
  predicate Collects(r: CameraRead, b: Bucket) {
    r.Frame? && r.value.Some? && r.value.value >= 0.0 && Route(r.status) == b
  }

  /** The values bucket `b` has collected after `samples`, in order. */
  function Bucketed(samples: seq<CameraRead>, b: Bucket): (vals: seq<real>)
    ensures |vals| <= |samples|
    ensures forall k :: 0 <= k < |vals| ==> vals[k] >= 0.0
  {
    if samples == [] then []
    else
      var last := samples[|samples| - 1];
      Bucketed(samples[..|samples| - 1], b) + (if Collects(last, b) then [last.value.value] else [])
  }

  /** Each sample lands in at most one of the three lists. */
  lemma {:induction false} BucketsShareNoRead(samples: seq<CameraRead>)
    ensures |Bucketed(samples, ShoulderBucket)| + |Bucketed(samples, AngleBucket)| + |Bucketed(samples, NeckBucket)|
            <= |samples|
  {
    if samples != [] {
      BucketsShareNoRead(samples[..|samples| - 1]);
    }
  }

  /** The sampling loop. It stops at the first failed read, reporting
      failure; otherwise the three lists hold, in order, the values routed
      to the torso, shoulder and neck buckets. */
  method CollectSamples(samples: seq<CameraRead>)
    returns (ok: bool, angles: seq<real>, shoulders: seq<real>, necks: seq<real>)
    ensures ok <==> ReadFailed !in samples
    ensures ok ==> angles == Bucketed(samples, AngleBucket)
    ensures ok ==> shoulders == Bucketed(samples, ShoulderBucket)
    ensures ok ==> necks == Bucketed(samples, NeckBucket)
  {
    angles, shoulders, necks := [], [], [];
    var i := 0;
    while i < |samples|
      invariant 0 <= i <= |samples|
      invariant ReadFailed !in samples[..i]
      invariant angles == Bucketed(samples[..i], AngleBucket)
      invariant shoulders == Bucketed(samples[..i], ShoulderBucket)
      invariant necks == Bucketed(samples[..i], NeckBucket)
    {
      var r := samples[i];
      if r.ReadFailed? {
        return false, angles, shoulders, necks;
      }
      assert samples[..i + 1][..i] == samples[..i];
      if r.value.Some? && r.value.value >= 0.0 {
        var b := Route(r.status);
        if b == ShoulderBucket {
          shoulders := shoulders + [r.value.value];
        } else if b == AngleBucket {
          angles := angles + [r.value.value];
        } else if b == NeckBucket {
          necks := necks + [r.value.value];
        }
      }
      i := i + 1;
    }
    assert samples[..i] == samples;
    ok := true;
  }

  // ---------------------------------------------------------------------
  // Averages

  /** Left-to-right sum, as Python's `sum`. */
  function Sum(s: seq<real>): real {
    if s == [] then 0.0 else Sum(s[..|s| - 1]) + s[|s| - 1]
  }

  /** The arithmetic mean: it is the value whose |s|-fold multiple is the sum. */
  function Mean(s: seq<real>): (m: real)
    requires s != []
    ensures m * |s| as real == Sum(s)
  {
    Sum(s) / |s| as real
  }

  lemma {:induction false} SumBounds(s: seq<real>, lo: real, hi: real)
    requires forall k :: 0 <= k < |s| ==> lo <= s[k] <= hi
    ensures lo * |s| as real <= Sum(s) <= hi * |s| as real
  {
    if s != [] {
      SumBounds(s[..|s| - 1], lo, hi);
    }
  }

  /** The mean of values in [lo, hi] is in [lo, hi]. */
  lemma MeanBounds(s: seq<real>, lo: real, hi: real)
    requires s != []
    requires forall k :: 0 <= k < |s| ==> lo <= s[k] <= hi
    ensures lo <= Mean(s) <= hi
  {
    SumBounds(s, lo, hi);
    var n := |s| as real;
    assert Mean(s) * n == Sum(s);
  }

  // ---------------------------------------------------------------------
  // Threshold derivation

  function Max(a: int, b: int): int { if a >= b then a else b }
  function Min(a: int, b: int): int { if a <= b then a else b }

  /** Python's `int()` on a float: truncation toward zero. */
  function Trunc(x: real): (n: int)
    ensures 0.0 <= x ==> n as real <= x < n as real + 1.0
    ensures x < 0.0 ==> n as real - 1.0 < x <= n as real
  {
    if x >= 0.0 then x.Floor else -((-x).Floor)
  }

  /** Under `max(0, ...)` truncation and flooring agree, so either reading
      of `int()` gives the same lower thresholds. */
  lemma TruncUnderMaxIsFloor(x: real)
    ensures Max(0, Trunc(x)) == Max(0, x.Floor)
  {
  }

  /** `QSpinBox.setValue`: a value outside the box's range is brought to
      the nearest end of it. */
  function SpinValue(v: int, lo: int, hi: int): (r: int)
    requires lo <= hi
    ensures lo <= r <= hi
    ensures lo <= v <= hi ==> r == v
    ensures v < lo ==> r == lo
    ensures v > hi ==> r == hi
  {
    if v < lo then lo else if v > hi then hi else v
  }

  /** Torso band: seven degrees either side of the average torso angle. */
  function TorsoLowerFrom(avg: real): (lo: int)
    ensures 0 <= lo
    ensures 7.0 <= avg ==> lo as real <= avg - 7.0 < lo as real + 1.0
    ensures avg < 7.0 ==> lo == 0
  {
    Max(0, Trunc(avg - 7.0))
  }

  function TorsoUpperFrom(avg: real): (hi: int)
    ensures hi <= 180
    ensures -7.0 <= avg < 173.0 ==> hi as real <= avg + 7.0 < hi as real + 1.0
    ensures 173.0 <= avg ==> hi == 180
  {
    Min(180, Trunc(avg + 7.0))
  }

  /** Shoulder limit: the average difference plus 20 percent, plus 5 pixels. */
  function ShoulderFrom(avg: real): (limit: int)
    ensures limit <= 1000
    ensures 0.0 <= avg && avg * 1.2 < 996.0 ==> (limit - 5) as real <= avg * 1.2 < (limit - 4) as real
    ensures avg * 1.2 >= 996.0 ==> limit == 1000
  {
    Min(1000, Trunc(avg * 1.2) + 5)
  }

  /** Neck band: five degrees either side of the average neck angle. */
  function NeckLowerFrom(avg: real): (lo: int)
    ensures 0 <= lo
    ensures 5.0 <= avg ==> lo as real <= avg - 5.0 < lo as real + 1.0
    ensures avg < 5.0 ==> lo == 0
  {
    Max(0, Trunc(avg - 5.0))
  }

  function NeckUpperFrom(avg: real): (hi: int)
    ensures hi <= 180
    ensures -5.0 <= avg < 175.0 ==> hi as real <= avg + 5.0 < hi as real + 1.0
    ensures 175.0 <= avg ==> hi == 180
  {
    Min(180, Trunc(avg + 5.0))
  }

  /** For an average in [0, 180] the torso band is a well-formed range of
      [0, 180] that contains the average; away from the ends it is exactly
      14 degrees wide. */
  lemma TorsoBand(avg: real)
    requires 0.0 <= avg <= 180.0
    ensures 0 <= TorsoLowerFrom(avg) <= TorsoUpperFrom(avg) <= 180
    ensures TorsoLowerFrom(avg) as real <= avg <= TorsoUpperFrom(avg) as real
    ensures 7.0 <= avg <= 173.0 ==> TorsoUpperFrom(avg) - TorsoLowerFrom(avg) == 14
  {
  }

  /** For an average in [0, 180] the neck band is a well-formed range of
      [0, 180] that contains the average; away from the ends it is exactly
      10 degrees wide. */
  lemma NeckBand(avg: real)
    requires 0.0 <= avg <= 180.0
    ensures 0 <= NeckLowerFrom(avg) <= NeckUpperFrom(avg) <= 180
    ensures NeckLowerFrom(avg) as real <= avg <= NeckUpperFrom(avg) as real
    ensures 5.0 <= avg <= 175.0 ==> NeckUpperFrom(avg) - NeckLowerFrom(avg) == 10
  {
  }

  /** For a non-negative average the shoulder limit is in [5, 1000], and up
      to 1000 pixels it is at least the average, so a frame at the average
      difference does not trip the shoulder check. */
  lemma ShoulderLimit(avg: real)
    requires 0.0 <= avg
    ensures 5 <= ShoulderFrom(avg) <= 1000
    ensures avg <= 1000.0 ==> avg <= ShoulderFrom(avg) as real
  {
  }

  /** The ranges of the five spin boxes. */
  predicate InPanelRanges(t: Thresholds) {
    && 0 <= t.shoulderThresh <= 1000
    && 0 <= t.angleLower <= 180 && 0 <= t.angleUpper <= 180
    && 0 <= t.neckAngleLower <= 180 && 0 <= t.neckAngleUpper <= 180
  }

  /** The thresholds after calibration: each non-empty list re-derives its
      own thresholds from its mean, through the spin boxes' clamping; an
      empty list leaves its thresholds as they were. */
  function Calibrated(t: Thresholds, angles: seq<real>, shoulders: seq<real>, necks: seq<real>): (c: Thresholds)
    ensures InPanelRanges(t) ==> InPanelRanges(c)
    ensures angles == [] ==> c.angleLower == t.angleLower && c.angleUpper == t.angleUpper
    ensures shoulders == [] ==> c.shoulderThresh == t.shoulderThresh
    ensures necks == [] ==> c.neckAngleLower == t.neckAngleLower && c.neckAngleUpper == t.neckAngleUpper
  {
    Thresholds(
      if shoulders == [] then t.shoulderThresh else SpinValue(ShoulderFrom(Mean(shoulders)), 0, 1000),
      if angles == [] then t.angleLower else SpinValue(TorsoLowerFrom(Mean(angles)), 0, 180),
      if angles == [] then t.angleUpper else SpinValue(TorsoUpperFrom(Mean(angles)), 0, 180),
      if necks == [] then t.neckAngleLower else SpinValue(NeckLowerFrom(Mean(necks)), 0, 180),
      if necks == [] then t.neckAngleUpper else SpinValue(NeckUpperFrom(Mean(necks)), 0, 180))
  }

  /** Torso samples in [0, 180] give a lower bound at most the upper one,
      with their mean in between: a frame at the mean angle is upright. */
  lemma CalibratedTorsoBracketsMean(t: Thresholds, angles: seq<real>, shoulders: seq<real>, necks: seq<real>)
    requires angles != []
    requires forall k :: 0 <= k < |angles| ==> 0.0 <= angles[k] <= 180.0
    ensures var c := Calibrated(t, angles, shoulders, necks);
            c.angleLower <= c.angleUpper
            && c.angleLower as real <= Mean(angles) <= c.angleUpper as real
  {
    MeanBounds(angles, 0.0, 180.0);
    TorsoBand(Mean(angles));
  }

  /** Neck samples in [0, 180] give a lower bound at most the upper one,
      with their mean in between. */
  lemma CalibratedNeckBracketsMean(t: Thresholds, angles: seq<real>, shoulders: seq<real>, necks: seq<real>)
    requires necks != []
    requires forall k :: 0 <= k < |necks| ==> 0.0 <= necks[k] <= 180.0
    ensures var c := Calibrated(t, angles, shoulders, necks);
            c.neckAngleLower <= c.neckAngleUpper
            && c.neckAngleLower as real <= Mean(necks) <= c.neckAngleUpper as real
  {
    MeanBounds(necks, 0.0, 180.0);
    NeckBand(Mean(necks));
  }

  /** Shoulder samples of at most 1000 pixels give a limit in [5, 1000] that
      their mean does not exceed. */
  lemma CalibratedShoulderCoversMean(t: Thresholds, angles: seq<real>, shoulders: seq<real>, necks: seq<real>)
    requires shoulders != []
    requires forall k :: 0 <= k < |shoulders| ==> 0.0 <= shoulders[k] <= 1000.0
    ensures var c := Calibrated(t, angles, shoulders, necks);
            5 <= c.shoulderThresh <= 1000 && Mean(shoulders) <= c.shoulderThresh as real
  {
    MeanBounds(shoulders, 0.0, 1000.0);
    ShoulderLimit(Mean(shoulders));
  }

  // ---------------------------------------------------------------------
  // Calibration fed by the classifier

  /** The sample calibration takes from a frame whose detection is `detected`. */
  function CalibrationRead(detected: Option<Pose>, w: nat, h: nat, angle: AngleFn): (r: CameraRead)
    ensures r.Frame? && r.status in Labels
    ensures r.value.Some? && 0.0 <= r.value.value
  {
    var r := Process(detected, w, h, CalibrationThresholds, angle);
    Frame(r.status, Some(r.value))
  }

  /** With neck bounds [0, 180] an angle in [0, 180] is always in bounds,
      so the neck check never decides a calibration frame. */
  lemma CalibrationNeverDecidesByNeck(detected: Option<Pose>, w: nat, h: nat, angle: AngleFn)
    ensures DecidingCheck(detected, w, h, CalibrationThresholds, angle) != NeckCheck
  {
  }

  /** With a shoulder limit of 0, the torso check decides a calibration
      frame only when the shoulders are exactly level. */
  lemma CalibrationTorsoOnlyWhenLevel(detected: Option<Pose>, w: nat, h: nat, angle: AngleFn)
    requires DecidingCheck(detected, w, h, CalibrationThresholds, angle) == TorsoCheck
    ensures detected.Some? && ShoulderDiff(detected.value, h) == 0.0
  {
  }

  /** What every calibration frame satisfies: the read succeeded, it does
      not add to the neck list, and it adds to the torso list only an
      angle of at most 180 degrees. */
  predicate CalibrationSample(r: CameraRead) {
    && r != ReadFailed
    && !Collects(r, NeckBucket)
    && (Collects(r, AngleBucket) ==> r.value.value <= 180.0)
  }

  lemma CalibrationReadIsCalibrationSample(detected: Option<Pose>, w: nat, h: nat, angle: AngleFn)
    ensures CalibrationSample(CalibrationRead(detected, w, h, angle))
  {
    RouteFollowsDecidingCheck(detected, w, h, CalibrationThresholds, angle);
    ValueIsDecidingMeasurement(detected, w, h, CalibrationThresholds, angle);
    CalibrationNeverDecidesByNeck(detected, w, h, angle);
  }

  /** Over such samples the loop never aborts, the neck list stays empty
      and the torso list holds angles in [0, 180]. */
  lemma {:induction false} CalibrationSamplesBuckets(samples: seq<CameraRead>)
    requires forall k :: 0 <= k < |samples| ==> CalibrationSample(samples[k])
    ensures ReadFailed !in samples
    ensures Bucketed(samples, NeckBucket) == []
    ensures forall k :: 0 <= k < |Bucketed(samples, AngleBucket)| ==> Bucketed(samples, AngleBucket)[k] <= 180.0
  {
    if samples != [] {
      var n := |samples| - 1;
      CalibrationSamplesBuckets(samples[..n]);
      assert CalibrationSample(samples[n]);
      assert samples == samples[..n] + [samples[n]];
    }
  }

  /** Over frames classified by the classifier, sampling never fails, the
      neck list stays empty and every torso sample is an angle in [0, 180]. */
  lemma DetectorSamples(frames: seq<Option<Pose>>, samples: seq<CameraRead>, w: nat, h: nat, angle: AngleFn)
    requires |samples| == |frames|
    requires forall k :: 0 <= k < |frames| ==> samples[k] == CalibrationRead(frames[k], w, h, angle)
    ensures ReadFailed !in samples
    ensures Bucketed(samples, NeckBucket) == []
    ensures forall k :: 0 <= k < |Bucketed(samples, AngleBucket)| ==> Bucketed(samples, AngleBucket)[k] <= 180.0
  {
    forall k | 0 <= k < |samples|
      ensures CalibrationSample(samples[k])
    {
      CalibrationReadIsCalibrationSample(frames[k], w, h, angle);
    }
    CalibrationSamplesBuckets(samples);
  }

  /** End to end: calibrating on classifier output never changes the neck
      bounds, and when it collects torso samples, the new torso bounds are
      ordered and bracket the samples' mean. */
  lemma CalibrationFromDetector(frames: seq<Option<Pose>>, samples: seq<CameraRead>,
                                w: nat, h: nat, angle: AngleFn, t: Thresholds)
    requires |samples| == |frames|
    requires forall k :: 0 <= k < |frames| ==> samples[k] == CalibrationRead(frames[k], w, h, angle)
    ensures var angles := Bucketed(samples, AngleBucket);
            var c := Calibrated(t, angles, Bucketed(samples, ShoulderBucket), Bucketed(samples, NeckBucket));
            && c.neckAngleLower == t.neckAngleLower && c.neckAngleUpper == t.neckAngleUpper
            && (angles != [] ==> c.angleLower <= c.angleUpper
                                 && c.angleLower as real <= Mean(angles) <= c.angleUpper as real)
  {
    DetectorSamples(frames, samples, w, h, angle);
    var angles := Bucketed(samples, AngleBucket);
    if angles != [] {
      CalibratedTorsoBracketsMean(t, angles, Bucketed(samples, ShoulderBucket), Bucketed(samples, NeckBucket));
    }
  }
}

