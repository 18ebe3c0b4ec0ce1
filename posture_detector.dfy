/** The posture classifier: one frame's body landmarks and five thresholds
    in, a verdict (status text, needs-correction flag, colour code,
    measured value, landmarks) out. Rules are tried in priority order and
    the first that fires decides: no person, shoulder height, neck angle,
    torso angle, and otherwise a neutral "waiting" verdict. */
module PostureDetector {

  datatype Option<T> = None | Some(value: T)

  /** A landmark position: normalised to [0, 1] as the detector reports it,
      or in pixels once scaled by the frame size. */
  datatype Point = Point(x: real, y: real)

  /** The five landmarks the classifier reads out of the detector's 33. */
  datatype Pose = Pose(leftEar: Point, leftShoulder: Point, rightShoulder: Point,
                       leftHip: Point, leftKnee: Point)

  /** The angle at vertex `b` between `a` and `c`, in degrees. The geometry
      is not modelled; what is kept is that the cosine is clipped to
      [-1, 1] before `arccos`, so the result lies in [0, 180]. */
  type AngleFn = f: (Point, Point, Point) -> real | forall a, b, c :: 0.0 <= f(a, b, c) <= 180.0
    witness (a: Point, b: Point, c: Point) => 90.0

  /** The five bounds the window passes to every call (its spin-box values). */
  datatype Thresholds = Thresholds(shoulderThresh: int, angleLower: int, angleUpper: int,
                                   neckAngleLower: int, neckAngleUpper: int)

  /** The tuple the classifier returns. `landmarks` is the detection echoed
      back for drawing, `None` when nobody was detected. */
  datatype Verdict = Verdict(status: string, needsCorrection: bool, color: string,
                             value: real, landmarks: Option<Pose>)

  const NoPersonLabel := "Kişi Algılanamadı"
  const ShoulderLabel := "Omuz Hizası Bozuk"
  const NeckForwardLabel := "Boyun Öne Eğik"
  const NeckBackwardLabel := "Boyun Arkaya Eğik"
  const LeanForwardLabel := "Öne Eğilme (Sırt)"
  const LeanBackwardLabel := "Arkaya Yaslanma (Sırt)"
  const UprightLabel := "Dik Durma"
  const WaitingLabel := "Bekleniyor"

  const Grey := "#6c757d"    // neutral: nobody detected, or nothing measurable
  const Red := "#dc3545"     // significant deviation
  const Yellow := "#ffc107"  // backward tilt or lean
  const Green := "#28a745"   // upright

  /** Every status text the classifier can return. */
  const Labels: set<string> := {NoPersonLabel, ShoulderLabel, NeckForwardLabel, NeckBackwardLabel,
                                LeanForwardLabel, LeanBackwardLabel, UprightLabel, WaitingLabel}

  /** The five statuses that describe a deviation the user should correct. */
  const DeviationLabels: set<string> := {ShoulderLabel, NeckForwardLabel, NeckBackwardLabel,
                                         LeanForwardLabel, LeanBackwardLabel}

  function Abs(x: real): real { if x < 0.0 then -x else x }

  /** Scales a normalised landmark by the frame's width and height. */
  function ToPixels(p: Point, w: nat, h: nat): Point {
    Point(p.x * w as real, p.y * h as real)
  }

  /** The zero-vector sentinel: a pixel position counts as detected unless
      both of its coordinates are exactly zero. */
  predicate Detected(p: Point) {
    p.x != 0.0 || p.y != 0.0
  }

  /** Vertical distance in pixels between the two shoulders. */
  function ShoulderDiff(pose: Pose, h: nat): (d: real)
    ensures 0.0 <= d
    ensures d == 0.0 <==> pose.leftShoulder.y * h as real == pose.rightShoulder.y * h as real
  {
    Abs(pose.leftShoulder.y * h as real - pose.rightShoulder.y * h as real)
  }

  predicate ShoulderFires(pose: Pose, h: nat, t: Thresholds) {
    ShoulderDiff(pose, h) > t.shoulderThresh as real
  }

  /** Ear, shoulder and hip are all off the sentinel, so the neck check runs. */
  predicate NeckVisible(pose: Pose, w: nat, h: nat) {
    Detected(ToPixels(pose.leftEar, w, h)) && Detected(ToPixels(pose.leftShoulder, w, h))
    && Detected(ToPixels(pose.leftHip, w, h))
  }

  /** The angle at the shoulder between the ear and the hip. */
  function NeckAngle(pose: Pose, w: nat, h: nat, angle: AngleFn): real {
    angle(ToPixels(pose.leftEar, w, h), ToPixels(pose.leftShoulder, w, h), ToPixels(pose.leftHip, w, h))
  }

  /** Shoulder, hip and knee are all off the sentinel, so the torso check runs. */
  predicate TorsoVisible(pose: Pose, w: nat, h: nat) {
    Detected(ToPixels(pose.leftShoulder, w, h)) && Detected(ToPixels(pose.leftHip, w, h))
    && Detected(ToPixels(pose.leftKnee, w, h))
  }

  /** The angle at the hip between the shoulder and the knee. */
  function TorsoAngle(pose: Pose, w: nat, h: nat, angle: AngleFn): real {
    angle(ToPixels(pose.leftShoulder, w, h), ToPixels(pose.leftHip, w, h), ToPixels(pose.leftKnee, w, h))
  }

  /** The torso check and the neutral default that close the decision chain. */
  function TorsoOutcome(pose: Pose, w: nat, h: nat, t: Thresholds, angle: AngleFn): (r: Verdict)
    ensures r.status in {LeanForwardLabel, LeanBackwardLabel, UprightLabel, WaitingLabel}
    ensures r.landmarks == Some(pose)
  {
    if TorsoVisible(pose, w, h) then
      var a := TorsoAngle(pose, w, h, angle);
      if a < t.angleLower as real then Verdict(LeanForwardLabel, true, Red, a, Some(pose))
      else if a > t.angleUpper as real then Verdict(LeanBackwardLabel, true, Yellow, a, Some(pose))
      else Verdict(UprightLabel, false, Green, a, Some(pose))
    else
      Verdict(WaitingLabel, false, Grey, 0.0, Some(pose))
  }

  /** Classifies one frame. `detected` is the landmark detector's answer for
      it, `w` and `h` the frame's width and height in pixels. */
  function Process(detected: Option<Pose>, w: nat, h: nat, t: Thresholds, angle: AngleFn): (r: Verdict)
    ensures r.status in Labels
    ensures r.landmarks == detected
    ensures 0.0 <= r.value
    ensures r.color in {Red, Yellow, Green, Grey}
    ensures r.needsCorrection <==> r.color == Red || r.color == Yellow
  {
    match detected
    case None => Verdict(NoPersonLabel, false, Grey, 0.0, None)
    case Some(pose) =>
      if ShoulderFires(pose, h, t) then
        Verdict(ShoulderLabel, true, Red, ShoulderDiff(pose, h), detected)
      else if NeckVisible(pose, w, h) && NeckAngle(pose, w, h, angle) < t.neckAngleLower as real then
        Verdict(NeckForwardLabel, true, Red, NeckAngle(pose, w, h, angle), detected)
      else if NeckVisible(pose, w, h) && NeckAngle(pose, w, h, angle) > t.neckAngleUpper as real then
        Verdict(NeckBackwardLabel, true, Yellow, NeckAngle(pose, w, h, angle), detected)
      else
        TorsoOutcome(pose, w, h, t, angle)
  }

  /** The measurement that decides a frame. */
  datatype Check = NoCheck | ShoulderCheck | NeckCheck | TorsoCheck

  /** Reference statement of the priority order, by measurement: the shoulder
      check if it fires, else the neck check if it runs and its angle is out
      of bounds, else the torso check if it runs. */
  function DecidingCheck(detected: Option<Pose>, w: nat, h: nat, t: Thresholds, angle: AngleFn): (c: Check)
    ensures detected.None? ==> c == NoCheck
    ensures c == ShoulderCheck <==> detected.Some? && ShoulderFires(detected.value, h, t)
    ensures c == NeckCheck ==>
              && detected.Some? && NeckVisible(detected.value, w, h)
              && !(t.neckAngleLower as real <= NeckAngle(detected.value, w, h, angle) <= t.neckAngleUpper as real)
    ensures c == TorsoCheck ==> detected.Some? && TorsoVisible(detected.value, w, h)
  {
    match detected
    case None => NoCheck
    case Some(pose) =>
      if ShoulderFires(pose, h, t) then ShoulderCheck
      else if NeckVisible(pose, w, h)
              && !(t.neckAngleLower as real <= NeckAngle(pose, w, h, angle) <= t.neckAngleUpper as real)
      then NeckCheck
      else if TorsoVisible(pose, w, h) then TorsoCheck
      else NoCheck
  }

  /** The value a check measures on a pose. */
  function Measurement(pose: Pose, w: nat, h: nat, c: Check, angle: AngleFn): (m: real)
    ensures 0.0 <= m
    ensures c == NeckCheck || c == TorsoCheck ==> m <= 180.0
    ensures c == NoCheck ==> m == 0.0
  {
    match c
    case NoCheck => 0.0
    case ShoulderCheck => ShoulderDiff(pose, h)
    case NeckCheck => NeckAngle(pose, w, h, angle)
    case TorsoCheck => TorsoAngle(pose, w, h, angle)
  }

  /** The eight status texts are pairwise distinct. */
  lemma LabelsDistinct()
    ensures |Labels| == 8
  {
    assert NoPersonLabel[0] == 'K' && ShoulderLabel[0] == 'O' && NeckForwardLabel[6] == 'Ö'
        && NeckBackwardLabel[6] == 'A' && LeanForwardLabel[0] == 'Ö' && LeanBackwardLabel[0] == 'A'
        && UprightLabel[0] == 'D' && WaitingLabel[0] == 'B';
    assert NeckForwardLabel[0] == 'B' && NeckBackwardLabel[0] == 'B';
  }

  /** With no detection the verdict is the grey "no person" one, value 0 and no landmarks. */
  lemma NoPersonVerdict(w: nat, h: nat, t: Thresholds, angle: AngleFn)
    ensures Process(None, w, h, t, angle) == Verdict(NoPersonLabel, false, Grey, 0.0, None)
  {
  }

  /** The shoulder difference is non-negative and does not depend on which
      shoulder is called left. */
  lemma ShoulderDiffSymmetric(pose: Pose, h: nat)
    ensures ShoulderDiff(pose, h) >= 0.0
    ensures ShoulderDiff(pose, h)
            == ShoulderDiff(pose.(leftShoulder := pose.rightShoulder, rightShoulder := pose.leftShoulder), h)
  {
    var d := pose.leftShoulder.y * h as real - pose.rightShoulder.y * h as real;
    assert pose.rightShoulder.y * h as real - pose.leftShoulder.y * h as real == -d;
  }

  /** Shoulder priority: once the difference exceeds its threshold the verdict
      is the red shoulder one carrying that difference, whatever the ear,
      hip and knee positions and the other four thresholds. */
  lemma ShoulderPriority(pose: Pose, w: nat, h: nat, t: Thresholds, angle: AngleFn)
    requires ShoulderDiff(pose, h) > t.shoulderThresh as real
    ensures Process(Some(pose), w, h, t, angle)
            == Verdict(ShoulderLabel, true, Red, ShoulderDiff(pose, h), Some(pose))
  {
  }

  /** A neck angle inside [neckAngleLower, neckAngleUpper], bounds included,
      never ends classification: the torso check or the default decides. */
  lemma NeckInBoundsDefersToTorso(pose: Pose, w: nat, h: nat, t: Thresholds, angle: AngleFn)
    requires !ShoulderFires(pose, h, t)
    requires t.neckAngleLower as real <= NeckAngle(pose, w, h, angle) <= t.neckAngleUpper as real
    ensures Process(Some(pose), w, h, t, angle) == TorsoOutcome(pose, w, h, t, angle)
  {
  }

  /** Zero sentinel, neck side: a hidden ear, shoulder or hip skips the neck check. */
  lemma HiddenNeckDefersToTorso(pose: Pose, w: nat, h: nat, t: Thresholds, angle: AngleFn)
    requires !ShoulderFires(pose, h, t)
    requires !NeckVisible(pose, w, h)
    ensures Process(Some(pose), w, h, t, angle) == TorsoOutcome(pose, w, h, t, angle)
  {
  }

  /** Zero sentinel, both sides: when neither angle check can run and the
      shoulders are level enough, the verdict is the grey "waiting" one,
      value 0, with the landmarks echoed. */
  lemma NothingVisibleWaits(pose: Pose, w: nat, h: nat, t: Thresholds, angle: AngleFn)
    requires !ShoulderFires(pose, h, t)
    requires !NeckVisible(pose, w, h) && !TorsoVisible(pose, w, h)
    ensures Process(Some(pose), w, h, t, angle) == Verdict(WaitingLabel, false, Grey, 0.0, Some(pose))
  {
  }

  /** In a frame of non-zero size, the pixel-space sentinel test is exactly
      "the normalised landmark is the origin". */
  lemma PixelSentinel(p: Point, w: nat, h: nat)
    requires w > 0 && h > 0
    ensures !Detected(ToPixels(p, w, h)) <==> p == Point(0.0, 0.0)
  {
    if p.x != 0.0 {
      assert p.x * w as real != 0.0;
    }
    if p.y != 0.0 {
      assert p.y * h as real != 0.0;
    }
  }

  /** Torso bounds are inclusive: an angle in [angleLower, angleUpper],
      either end included, is the green upright verdict with that angle. */
  lemma TorsoBoundsInclusive(pose: Pose, w: nat, h: nat, t: Thresholds, angle: AngleFn)
    requires !ShoulderFires(pose, h, t)
    requires !NeckVisible(pose, w, h)
             || t.neckAngleLower as real <= NeckAngle(pose, w, h, angle) <= t.neckAngleUpper as real
    requires TorsoVisible(pose, w, h)
    requires t.angleLower as real <= TorsoAngle(pose, w, h, angle) <= t.angleUpper as real
    ensures Process(Some(pose), w, h, t, angle)
            == Verdict(UprightLabel, false, Green, TorsoAngle(pose, w, h, angle), Some(pose))
  {
  }

  /** A neck angle below the lower bound is the red "neck bent forward" verdict. */
  lemma NeckBelowLower(pose: Pose, w: nat, h: nat, t: Thresholds, angle: AngleFn)
    requires !ShoulderFires(pose, h, t)
    requires NeckVisible(pose, w, h)
    requires NeckAngle(pose, w, h, angle) < t.neckAngleLower as real
    ensures Process(Some(pose), w, h, t, angle)
            == Verdict(NeckForwardLabel, true, Red, NeckAngle(pose, w, h, angle), Some(pose))
  {
  }

  /** A neck angle above the upper bound, and not below the lower one, is the
      yellow "neck bent backward" verdict. */
  lemma NeckAboveUpper(pose: Pose, w: nat, h: nat, t: Thresholds, angle: AngleFn)
    requires !ShoulderFires(pose, h, t)
    requires NeckVisible(pose, w, h)
    requires t.neckAngleLower as real <= NeckAngle(pose, w, h, angle)
    requires NeckAngle(pose, w, h, angle) > t.neckAngleUpper as real
    ensures Process(Some(pose), w, h, t, angle)
            == Verdict(NeckBackwardLabel, true, Yellow, NeckAngle(pose, w, h, angle), Some(pose))
  {
  }

  /** Once the torso check runs, an angle below its lower bound is the red
      "leaning forward" verdict. */
  lemma TorsoBelowLower(pose: Pose, w: nat, h: nat, t: Thresholds, angle: AngleFn)
    requires !ShoulderFires(pose, h, t)
    requires !NeckVisible(pose, w, h)
             || t.neckAngleLower as real <= NeckAngle(pose, w, h, angle) <= t.neckAngleUpper as real
    requires TorsoVisible(pose, w, h)
    requires TorsoAngle(pose, w, h, angle) < t.angleLower as real
    ensures Process(Some(pose), w, h, t, angle)
            == Verdict(LeanForwardLabel, true, Red, TorsoAngle(pose, w, h, angle), Some(pose))
  {
  }

  /** Once the torso check runs, an angle above its upper bound, and not below
      the lower one, is the yellow "leaning back" verdict. */
  lemma TorsoAboveUpper(pose: Pose, w: nat, h: nat, t: Thresholds, angle: AngleFn)
    requires !ShoulderFires(pose, h, t)
    requires !NeckVisible(pose, w, h)
             || t.neckAngleLower as real <= NeckAngle(pose, w, h, angle) <= t.neckAngleUpper as real
    requires TorsoVisible(pose, w, h)
    requires t.angleLower as real <= TorsoAngle(pose, w, h, angle)
    requires TorsoAngle(pose, w, h, angle) > t.angleUpper as real
    ensures Process(Some(pose), w, h, t, angle)
            == Verdict(LeanBackwardLabel, true, Yellow, TorsoAngle(pose, w, h, angle), Some(pose))
  {
  }

  /** The flag is raised exactly for the five deviation statuses. */
  lemma NeedsCorrectionIffDeviation(detected: Option<Pose>, w: nat, h: nat, t: Thresholds, angle: AngleFn)
    ensures Process(detected, w, h, t, angle).needsCorrection
            <==> Process(detected, w, h, t, angle).status in DeviationLabels
  {
    LabelsDistinct();
  }

  /** The status names the deciding check, in both directions: shoulder
      status iff the shoulder check decided, a neck status iff the neck
      check decided, a torso status iff the torso check decided, and a
      neutral status iff no measurement decided. */
  lemma {:induction false} StatusNamesDecidingCheck(detected: Option<Pose>, w: nat, h: nat, t: Thresholds, angle: AngleFn)
    ensures var r := Process(detected, w, h, t, angle);
            var c := DecidingCheck(detected, w, h, t, angle);
            && (c == ShoulderCheck <==> r.status == ShoulderLabel)
            && (c == NeckCheck <==> r.status in {NeckForwardLabel, NeckBackwardLabel})
            && (c == TorsoCheck <==> r.status in {LeanForwardLabel, LeanBackwardLabel, UprightLabel})
            && (c == NoCheck <==> r.status in {NoPersonLabel, WaitingLabel})
  {
    LabelsDistinct();
  }

  /** The returned value is the measurement that decided the verdict:
      shoulder difference, neck angle or torso angle, and 0 when none did. */
  lemma ValueIsDecidingMeasurement(detected: Option<Pose>, w: nat, h: nat, t: Thresholds, angle: AngleFn)
    ensures Process(detected, w, h, t, angle).value
            == match detected
               case None => 0.0
               case Some(pose) => Measurement(pose, w, h, DecidingCheck(detected, w, h, t, angle), angle)
  {
  }

  /** A left shoulder at y = 0.25 and a right one at y = 0.5 in a 400-pixel
      high frame are 100 pixels apart; with a threshold of 26 that is the
      shoulder verdict with value 100. */
  lemma ShoulderExample(w: nat, angle: AngleFn)
    ensures var pose := Pose(Point(0.5, 0.1), Point(0.5, 0.25), Point(0.3, 0.5), Point(0.5, 0.6), Point(0.5, 0.8));
            Process(Some(pose), w, 400, Thresholds(26, 160, 180, 140, 180), angle)
            == Verdict(ShoulderLabel, true, Red, 100.0, Some(pose))
  {
  }

  // Letters absent from the status texts. The window routes on the keywords
  // "Omuz", "Sırt", "Eğilme", "Dik", "Yaslanma" and "Boyun"; a text that lacks
  // a letter of a keyword (O, S, E or l, D, Y, u) cannot contain it.

  lemma NeckForwardLacksEarlierKeywords()
    ensures 'O' !in NeckForwardLabel && 'S' !in NeckForwardLabel && 'l' !in NeckForwardLabel
    ensures 'D' !in NeckForwardLabel && 'Y' !in NeckForwardLabel
  {
  }

  lemma NeckBackwardLacksEarlierKeywords()
    ensures 'O' !in NeckBackwardLabel && 'S' !in NeckBackwardLabel && 'l' !in NeckBackwardLabel
    ensures 'D' !in NeckBackwardLabel && 'Y' !in NeckBackwardLabel
  {
  }

  lemma TorsoLabelsLackShoulderKeyword()
    ensures 'O' !in LeanForwardLabel && 'O' !in LeanBackwardLabel && 'O' !in UprightLabel
  {
  }

  lemma NoPersonLacksFirstKeywords()
    ensures 'O' !in NoPersonLabel && 'S' !in NoPersonLabel && 'E' !in NoPersonLabel
  {
  }

  lemma NoPersonLacksLastKeywords()
    ensures 'D' !in NoPersonLabel && 'Y' !in NoPersonLabel && 'u' !in NoPersonLabel
  {
  }

  lemma WaitingLacksKeywords()
    ensures 'O' !in WaitingLabel && 'S' !in WaitingLabel && 'E' !in WaitingLabel
    ensures 'D' !in WaitingLabel && 'Y' !in WaitingLabel && 'u' !in WaitingLabel
  {
  }
}
