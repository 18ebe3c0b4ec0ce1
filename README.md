# Posture classifier and calibration, modelled in Dafny

The application watches a seated user through a webcam. For each frame a
landmark detector locates the body. A rule chain then turns five body
landmarks and five user thresholds into a verdict: a Turkish status text, a
"needs correction" flag, a colour code, the measured value that decided it,
and the landmarks. The main window shows the verdict, colours the status
line and lets the user set the thresholds in five spin boxes. A calibration
routine samples frames for a few seconds and derives new thresholds from
the bucket averages.

This project models that core:

- `posture_detector.dfy`, module `PostureDetector`. This is
  `PoseDetector.process` as a pure function `Process`. The rules run in their
  source order, with strict comparisons and inclusive bounds:
  - a missing detection;
  - the shoulder-height check;
  - the ear/shoulder/hip neck angle;
  - the shoulder/hip/knee torso angle;
  - the neutral default.

  The eight status texts and four colour codes are the code's own.
  `calculate_angle` is kept abstract. It is a parameter of type `AngleFn`: any
  function of three points whose result lies in [0, 180], which is the range
  of `degrees(arccos(clip(...)))`. Landmarks are normalised points. They are
  turned into pixel points with the frame's width and height, and the
  "landmark missing" test is the code's own: both pixel coordinates zero. No
  separate presence flag is used. So a landmark the detector places at the
  image origin counts as missing (`PixelSentinel`).
- `calibration.dfy`, module `Calibration`. This is the arithmetic of
  `MainWindow.calibrate`:
  - the substring routing of each sample's status into the torso, shoulder
    or neck list (`Route`);
  - the sampling loop (`CollectSamples`, a `while` loop proved against
    `Bucketed`);
  - the averages: Python's left-to-right `sum` divided by the length;
  - `int()` as truncation toward zero;
  - the ±7 and ±5 degree margins and the `*1.2 + 5` pixel margin, with their
    `max`/`min` clamps;
  - the clamping of `QSpinBox.setValue` into each box's range.

  It also proves that routing agrees with the classifier: a status lands in
  the bucket of the measurement that decided it. And it proves what
  calibration does when fed by the classifier with its thresholds
  (0, 0, 180, 0, 180):
  - The neck bounds [0, 180] contain every angle. So the neck list is never
    filled, and calibration never changes the neck thresholds.
  - A shoulder limit of 0 means a frame reaches the torso check only when
    both shoulders are at exactly the same height.

  Both follow from the code as written. The docstring of `calibrate` says
  the neck may need manual setting, but it also names the torso angle and
  the shoulder difference as what calibration is for. With a shoulder limit
  of 0, every frame whose shoulders differ at all in height is classified as
  a shoulder frame, so the torso list is in practice almost never filled and
  the torso thresholds almost never change. The comment beside the call
  speaks of a 0-1000 px shoulder range, yet 0 is what is passed.
- `gui_qt.dfy`, module `GuiQt`:
  - the unit shown after the value (`px` for a status containing "Omuz",
    `°` otherwise);
  - the colour-to-style lookup with its grey fallback;
  - the window's five threshold spin boxes, as the class `MainWindow`.
    `MainWindow` has the default thresholds and the state-changing
    `Calibrate`.
- `strings.dfy`, module `Strings`: Python's `sub in s` on strings.

## Model

| member | source | states |
|---|---|---|
| PostureDetector.Process | posturedetector.py:23-116 | every verdict has one of the eight status texts, echoes the detection result as its landmarks, has a non-negative value and one of the four colours, and needs correction exactly when its colour is red or yellow |
| PostureDetector.NoPersonVerdict | posturedetector.py:41-43 | with no detection the verdict is "Kişi Algılanamadı", no correction, grey, value 0, no landmarks |
| PostureDetector.ShoulderDiff | posturedetector.py:49-51 | the shoulder difference is non-negative, and zero exactly when both shoulders are at the same pixel height |
| PostureDetector.ShoulderDiffSymmetric | posturedetector.py:48-51 | the shoulder difference is non-negative and unchanged when the two shoulders are swapped |
| PostureDetector.ShoulderPriority | posturedetector.py:53-55 | a shoulder difference above the threshold gives the red shoulder verdict with that difference, whatever the other landmarks and thresholds |
| PostureDetector.NeckInBoundsDefersToTorso | posturedetector.py:71-83 | a neck angle within the neck bounds, both ends included, leaves the decision to the torso check or the default |
| PostureDetector.HiddenNeckDefersToTorso | posturedetector.py:64-69 | if the ear, shoulder or hip is at the pixel origin, the neck check is skipped |
| PostureDetector.NothingVisibleWaits | posturedetector.py:90-116 | with the shoulders level enough and neither angle check able to run, the verdict is "Bekleniyor", grey, value 0, with the landmarks |
| PostureDetector.PixelSentinel | posturedetector.py:60-69 | in a frame of non-zero size, the zero test on pixel coordinates holds exactly for a landmark at normalised (0, 0) |
| PostureDetector.TorsoOutcome | posturedetector.py:90-116 | the torso step ends with one of the three torso statuses or "Bekleniyor", and always echoes the landmarks |
| PostureDetector.NeckBelowLower | posturedetector.py:73-75 | a neck angle below the lower bound (shoulders level enough, neck visible) gives the red "Boyun Öne Eğik" verdict carrying that angle |
| PostureDetector.NeckAboveUpper | posturedetector.py:76-78 | a neck angle above the upper bound and not below the lower one gives the yellow "Boyun Arkaya Eğik" verdict carrying that angle |
| PostureDetector.TorsoBelowLower | posturedetector.py:104-105 | once the torso check runs, an angle below its lower bound gives the red "Öne Eğilme (Sırt)" verdict carrying that angle |
| PostureDetector.TorsoAboveUpper | posturedetector.py:106-107 | once the torso check runs, an angle above its upper bound and not below the lower one gives the yellow "Arkaya Yaslanma (Sırt)" verdict carrying that angle |
| PostureDetector.TorsoBoundsInclusive | posturedetector.py:104-109 | a torso angle within [angle_lower, angle_upper], both ends included, gives the green upright verdict with that angle |
| PostureDetector.NeedsCorrectionIffDeviation | posturedetector.py:43-116 | the correction flag is raised exactly for the five deviation statuses |
| PostureDetector.DecidingCheck | posturedetector.py:41-116 | reference priority order: no detection decides nothing; the shoulder check decides exactly when it fires; the neck check only when it runs and its angle is out of bounds; the torso check only when it runs |
| PostureDetector.Measurement | posturedetector.py:51-102 | a measurement is non-negative, an angle measurement is at most 180, and no measurement is 0 |
| PostureDetector.StatusNamesDecidingCheck | posturedetector.py:53-116 | in both directions, the status names the measurement that decided, as an independent priority-order reference `DecidingCheck` describes it: shoulder, neck, torso, or none |
| PostureDetector.ValueIsDecidingMeasurement | posturedetector.py:43-116 | the returned value is the deciding measurement: shoulder difference, neck angle or torso angle, and 0 when none decided |
| PostureDetector.ShoulderExample | posturedetector.py:48-55 | shoulders at heights 0.25 and 0.5 in a 400-pixel frame with the default threshold 26 give the shoulder verdict with value 100 |
| PostureDetector.LabelsDistinct | posturedetector.py:43-116 | the eight status texts are pairwise distinct |
| Calibration.Route | gui_qt.py:356-362 | the shoulder list is chosen exactly for a status containing "Omuz"; the angle list only for one containing "Sırt", "Eğilme", "Dik" or "Yaslanma"; the neck list only for one containing "Boyun"; a status is dropped only if it contains none of the six keywords |
| Calibration.RouteToShoulder | gui_qt.py:357-358 | a status containing "Omuz" goes to the shoulder list, whatever else it contains |
| Calibration.RouteToAngle | gui_qt.py:359-360 | a status without "Omuz" that contains any of "Sırt", "Eğilme", "Dik" or "Yaslanma" goes to the torso list |
| Calibration.RouteToNeck | gui_qt.py:361-362 | a status with "Boyun" and none of the five earlier keywords goes to the neck list |
| Calibration.RouteToDropped | gui_qt.py:356-362 | a status with none of the six keywords is dropped |
| Calibration.RouteLabels | gui_qt.py:356-362 | where each of the eight status texts is routed: shoulder, two neck, three torso, two dropped |
| Calibration.RouteFollowsDecidingCheck | gui_qt.py:356-362 | for any thresholds, a frame's status is routed to the list of the measurement that decided it, and undecided frames are dropped |
| Calibration.Bucketed | gui_qt.py:355-362 | a list never holds more values than there are samples, and all its values are non-negative |
| Calibration.BucketsShareNoRead | gui_qt.py:356-362 | each sample goes to at most one list: the three lengths add up to at most the number of samples |
| Calibration.CollectSamples | gui_qt.py:338-364 | the loop succeeds exactly when no camera read failed; it then returns, in order, the non-negative values routed to each list |
| Calibration.Mean | gui_qt.py:368 | the mean times the number of values is their sum |
| Calibration.SumBounds | gui_qt.py:368 | a sum of n values in [lo, hi] is in [n·lo, n·hi] |
| Calibration.MeanBounds | gui_qt.py:368 | the mean of values in [lo, hi] is in [lo, hi] |
| Calibration.Trunc | gui_qt.py:369-370 | `int()` truncates toward zero, for non-negative and for negative arguments |
| Calibration.TruncUnderMaxIsFloor | gui_qt.py:369 | under `max(0, ...)`, truncation and flooring agree |
| Calibration.SpinValue | gui_qt.py:169-198 | `setValue` keeps an in-range value and clamps others to the nearer end of the box's range |
| Calibration.TorsoLowerFrom | gui_qt.py:369 | the lower torso bound is the whole part of the mean minus 7, or 0 when the mean is below 7 |
| Calibration.TorsoUpperFrom | gui_qt.py:370 | the upper torso bound is the whole part of the mean plus 7, or 180 when the mean is 173 or more |
| Calibration.ShoulderFrom | gui_qt.py:379 | the shoulder limit is the whole part of 1.2 times the mean, plus 5, or 1000 once that would exceed 1000 |
| Calibration.NeckLowerFrom | gui_qt.py:388 | the lower neck bound is the whole part of the mean minus 5, or 0 when the mean is below 5 |
| Calibration.NeckUpperFrom | gui_qt.py:389 | the upper neck bound is the whole part of the mean plus 5, or 180 when the mean is 175 or more |
| Calibration.TorsoBand | gui_qt.py:367-370 | for a mean in [0, 180] the torso bounds satisfy 0 ≤ lower ≤ upper ≤ 180, bracket the mean, and are 14 degrees apart when the mean is in [7, 173] |
| Calibration.ShoulderLimit | gui_qt.py:376-379 | for a non-negative mean the shoulder limit is in [5, 1000] and is at least the mean when that is at most 1000 |
| Calibration.NeckBand | gui_qt.py:385-389 | for a mean in [0, 180] the neck bounds satisfy 0 ≤ lower ≤ upper ≤ 180, bracket the mean, and are 10 degrees apart when the mean is in [5, 175] |
| Calibration.Calibrated | gui_qt.py:366-392 | being within the spin-box ranges is preserved, and an empty list leaves its thresholds unchanged |
| Calibration.CalibratedTorsoBracketsMean | gui_qt.py:367-370 | torso samples in [0, 180] give ordered torso bounds that contain their mean |
| Calibration.CalibratedNeckBracketsMean | gui_qt.py:385-389 | neck samples in [0, 180] give ordered neck bounds that contain their mean |
| Calibration.CalibratedShoulderCoversMean | gui_qt.py:376-379 | shoulder samples of at most 1000 px give a limit in [5, 1000] that is not below their mean |
| Calibration.CalibrationRead | gui_qt.py:352-353 | a frame classified with the calibration thresholds (0, 0, 180, 0, 180) is a successful read carrying one of the eight status texts and a present, non-negative value |
| Calibration.CalibrationNeverDecidesByNeck | gui_qt.py:352-353 | with the calibration thresholds the neck check never decides a frame |
| Calibration.CalibrationTorsoOnlyWhenLevel | gui_qt.py:352-353 | with the calibration thresholds the torso check decides only frames whose shoulders are at exactly the same height |
| Calibration.CalibrationReadIsCalibrationSample | gui_qt.py:345-362 | every sample taken from the classifier succeeds, is not added to the neck list, and adds at most 180 to the torso list |
| Calibration.CalibrationSamplesBuckets | gui_qt.py:344-362 | over such samples the loop does not abort, the neck list stays empty, and torso values are at most 180 |
| Calibration.DetectorSamples | gui_qt.py:344-362 | the same for samples taken from the classifier, frame by frame |
| Calibration.CalibrationFromDetector | gui_qt.py:338-392 | calibrating on classifier output never changes the neck bounds, and torso samples give ordered torso bounds that bracket their mean |
| GuiQt.Unit | gui_qt.py:319 | the unit is "px" or "°" |
| GuiQt.UnitFollowsDecidingCheck | gui_qt.py:319 | the unit is "px" exactly when the shoulder check decided the frame |
| GuiQt.StatusStyle | gui_qt.py:285-291 | the style is one of the four mapped styles: a known colour gets its own entry and an unknown colour the grey style |
| GuiQt.VerdictStyleSetsItsColour | gui_qt.py:285-291 | every verdict colour has its own entry, whose style sets exactly that colour as background |
| GuiQt.MainWindow.constructor | gui_qt.py:34-38 | the window starts with thresholds 26 px, 160–180° torso and 140–180° neck, all within the spin-box ranges |
| GuiQt.MainWindow.Calibrate | gui_qt.py:338-392 | the boxes stay within their ranges; a failed read aborts with nothing changed; otherwise the thresholds become `Calibrated` of the three lists, and the report says which lists had data |

## Left out

- Landmark detection by MediaPipe, the colour conversion and CLAHE contrast
  enhancement with OpenCV, and frame capture. These are foreign libraries.
  A detection result comes in as an `Option<Pose>` and the frame size as
  two naturals.
- `calculate_angle`'s vector geometry. It is floating-point NumPy code. It
  is modelled only by its [0, 180] result range. The NaN it returns for
  coincident points is not modelled, and NaN comparisons are left out with
  it.
- The two `try`/`except` blocks of `process`. Their bodies index a fixed
  landmark list and cannot raise for a detected pose, so only their normal
  paths are modelled.
- Floating point in general. The thresholds are integers, because the spin
  boxes hold integers. Coordinates, angles and averages are exact reals.
- ShoulderFrom: the factor 1.2 is the exact real 1.2, not the nearest binary
  double, so `int(avg * 1.2)` can differ by one from the code's result when
  `avg * 1.2` is within rounding distance of an integer.
- Calibrate: the five-second wall-clock loop becomes a finite sequence of
  camera reads. The clock, `processEvents` and the message boxes are left
  out. Which message box appears is summarised by the returned report.
- The Qt event machinery: the frame timer, pause, the login flow,
  `update_frame`'s camera-error label, skeleton drawing, and the status
  label's text and other style properties (only the unit and the colour
  style are modelled).
- Logging to CSV (`logger.py`), desktop notifications (`notifier.py`),
  `plot_report` and the entry point `main.py`. These are I/O around the
  core.
