# Detection–tracking coordinator of `TrackingMosse`, modelled in Dafny

The program follows one target (class id 0, the "IHA" class) through a video. It
alternates between an object detector and a MOSSE correlation tracker. Each frame is
resized to 640 x 640. A 250-pixel reference square is placed at the frame centre. Then one
of two things happens:

- When a tracker is active, the tracker is updated.
  - If the update succeeds, the centre of the tracked box is classified as inside or
    outside the square.
  - Inside sets the target rate to 15 fps.
  - Outside sets it to 30 fps, draws an arrow from the target towards the square on each
    side it lies beyond, and runs the detector again
    on the same frame.
  - A failed update falls back to the detector.
- When no tracker is active, the detector runs.

The detector's first row of class 0 with confidence above 0.3 (re)initialises the tracker.
It also moves the square's centre onto that detection's centre. The wait between frames is
`int(1000 / fps)` milliseconds.

The model is functional. An immutable `State` record holds the tracker, `tracking_active`,
`confidence`, `fps`, `inside` and the square's corners. Each source method becomes a pure
function of that state. The tracker's update result and the detector's rows are inputs to
each frame.

Modules:

- `Wrappers`: the `Option` type.
- `Geometry`: Python floor division, box centres, the centred square, recentring, the
  inclusive containment test and the arrow directions.
- `Selection`: detector rows, the qualification test, the first-match rule, and the tracker
  box built from a row.
- `Coordinator`: the state, `run_yolo`, `check_inside`, `track_mosse`, the per-frame step,
  the main loop and the invariants of reachable states.

Python's `//` and `int(1000 / fps)` are used only with positive divisors (2, 15 and 30).
For positive divisors they agree with Dafny's Euclidean `/`. `Geometry.FloorDiv` states
this floor property.

## Behaviour as written

The model follows the code as written in these places:

- The square does not drift from frame to frame. `draw_tracking_area` recomputes it from
  the frame size at the start of every frame (mosse.py:36, mosse.py:64-67).
  - A recentring only lasts for the rest of that frame.
  - The tracked centre is therefore always classified against the frame-centred square
    (`Coordinator.ClassifiedAgainstCentredSquare`, `Coordinator.StepIgnoresRegion`).
- A failed tracker update does not clear the tracker or `tracking_active`. It only runs
  the detector (mosse.py:88-90). Once tracking is active it never stops
  (`Coordinator.TrackingNeverStops`).
- Detections with zero or negative width or height are not rejected (mosse.py:100-101).
- `reset_tracking` is indented inside `show_fps` (mosse.py:180-186). It is therefore a local
  function and not a method, so no reset can happen. The `'r'` key branch (mosse.py:53-54)
  would raise `AttributeError`.

## Model

| member | source | states |
|---|---|---|
| Geometry.FloorDiv | mosse.py:64-65 | Python `//` with a positive divisor: `b*q <= a < b*q + b` |
| Geometry.Center | mosse.py:113-116 | box centre `(x + w//2, y + h//2)`: `w` lies in `[2(cx-x), 2(cx-x)+2)` on each axis |
| Geometry.TrackingArea | mosse.py:59-67 | the square has side 250; its left/right (top/bottom) margins are equal, or the right (bottom) one is one pixel larger |
| Geometry.WorkingFrameArea | mosse.py:61-67 | on the 640 x 640 frame the square spans (195,195)-(445,445) |
| Geometry.Recenter | mosse.py:113-130 | recentring is a pure translation: width and height are unchanged and `(tl+br)//2` equals the box centre on both axes |
| Geometry.OutsideSides | mosse.py:154-166 | at most one of LEFT/RIGHT and one of TOP/BOTTOM; no arrow exactly when the point is inside; LEFT iff left of the square, TOP iff above it |
| Geometry.EdgesAreInside | mosse.py:138-139 | containment is inclusive: a centre on an edge or corner is inside and gets no arrow |
| Selection.ToBox | mosse.py:101 | the tracker box `(x1, y1, x2-x1, y2-y1)` gives back the detection's corners exactly |
| Selection.FirstQualifying | mosse.py:97-111 | returns the first row of class 0 with confidence > 0.3: it qualifies and no earlier row does; `None` iff no row qualifies |
| Selection.ScanDetections | mosse.py:97-111 | the in-order scan that breaks at the first qualifying row finds the same row as `FirstQualifying` |
| Selection.LaterDetectionsIgnored | mosse.py:100-111 | rows after a qualifying row never change the choice |
| Selection.SkipNonQualifying | mosse.py:97-100 | non-qualifying rows in front only shift the chosen index |
| Coordinator.Init | mosse.py:14-19 | start-up: no tracker, not tracking, not inside, 30 fps; the reachable-state invariant holds |
| Coordinator.WaitMs | mosse.py:50 | `int(1000/fps)` is the largest wait `ms` with `ms*fps <= 1000` |
| Coordinator.DrawTrackingArea | mosse.py:36 | each frame resets the square to the centred square and changes nothing else |
| Coordinator.RunYolo | mosse.py:92-111 | on a qualifying row: tracker on that row's box, tracking active, its confidence recorded, square's centre on the box centre, size kept; without one: nothing changes; fps and inside are never touched |
| Coordinator.CheckInside | mosse.py:132-152 | inside iff the centre is within the inclusive bounds; `fps == 15 && inside` or `fps == 30 && !inside`; detector runs and arrows appear exactly when outside, and the arrows are those of `OutsideSides` for the centre |
| Coordinator.TrackMosse | mosse.py:73-90 | no tracker: nothing happens; failed update: detector runs and its first qualifying row is applied as in `run_yolo`, tracker kept, state unchanged if nothing qualifies; success: the `check_inside` outcome for the updated box |
| Coordinator.Step | mosse.py:36-43 | the tracker is updated iff tracking is active and a tracker exists, otherwise the detector runs; tracking and the tracker are never dropped |
| Coordinator.Session | mosse.py:22-50 | the main loop computes the fold of the step; every state it reaches keeps the invariant; the wait after frame i is 66 ms if the state after that frame is inside and 33 ms otherwise |
| Coordinator.WaitOfReachable | mosse.py:50 | in a reachable state the wait is 66 ms when inside and 33 ms when outside |
| Coordinator.StepPreservesInv | mosse.py:36-43 | one frame keeps fps in {15, 30}, `fps == 15` iff inside, tracking iff a tracker exists, and the square's size |
| Coordinator.RunPreservesInv | mosse.py:27-43 | the invariant holds after any sequence of frames |
| Coordinator.TrackingNeverStops | mosse.py:104-106 | once tracking is active it stays active for every later frame |
| Coordinator.StepIgnoresRegion | mosse.py:64-67 | a frame's outcome does not depend on where the square was left by earlier frames |
| Coordinator.ClassifiedAgainstCentredSquare | mosse.py:132-149 | after a successful update, inside iff the box centre is in the frame-centred square; fps 15 iff inside; detector runs iff outside, and the arrows are the outside sides of the centre against that square |
| Coordinator.ReacquireAfterFailure | mosse.py:88-90 | a failed update with a qualifying row re-initialises the tracker on that row's box, records its confidence and recentres the centred square on it, on the same frame |
| Coordinator.ReacquireWhenOutside | mosse.py:144-152 | an outside verdict with a qualifying row sets 30 fps and re-initialises the tracker on that row's box, records its confidence and recentres the centred square on it, on the same frame |
| Coordinator.DetectorRunsWhen | mosse.py:39-43 | the detector runs on a frame iff no tracker is active, the update failed, or the updated centre is outside the centred square |
| Coordinator.FailureKeepsTracking | mosse.py:88-90 | a failed update with no qualifying row leaves everything except the per-frame square unchanged |
| Coordinator.AcquireStartsTracking | mosse.py:100-110 | without a tracker, a qualifying row starts tracking on its box, records its confidence and centres the square on it, leaving fps and the inside flag untouched |
| Coordinator.SearchWithoutHit | mosse.py:97-111 | without a tracker and without a qualifying row, the frame changes nothing but the per-frame square (confidence, fps and inside stay as they were) |
| Coordinator.OutsideWithoutHit | mosse.py:144-152 | an outside verdict with no qualifying row sets only 30 fps and clears the inside flag; tracker, tracking flag, confidence and square are kept |
| Coordinator.ArrowsOnlyWhenOutside | mosse.py:144-147 | a frame draws arrows iff a tracker update succeeded and its centre is outside the centred square; searching frames and failed updates draw none |
| Coordinator.InsideKeepsTracker | mosse.py:142-143 | an inside verdict sets only 15 fps and the inside flag; tracker, tracking flag, confidence and square are kept and the detector is not consulted |
| Coordinator.ScenarioInside | mosse.py:138-143 | box (300,300,40,40) is inside: 15 fps, no detector run, no arrows |
| Coordinator.ScenarioOutside | mosse.py:144-152 | box (10,10,20,20) is outside: arrows LEFT and TOP, 30 fps, detector runs on the same frame |
| Coordinator.ScenarioFirstDetection | mosse.py:97-111 | the first class-0 row wins over a later class-1 row; the tracker box is (100,100,50,50), confidence 0.5, and the square moves to (0,0)-(250,250) |

## Left out

- Model loading, video capture, `cv2.resize`, `imshow` and all drawing (rectangles, labels, arrow lines) are I/O. Only the arrow directions are kept. The frame is taken to be 640 x 640 after the resize.
- The detector and the MOSSE correlation filter are external library calls. The tracker's update result and the detector's rows are inputs to each frame. The tracker is represented only by the box it was last initialised with.
- `waitKey` key handling is input. The `'q'` quit is covered only in that a session is a finite sequence of frames; end of stream ends it the same way.
- `reset_tracking` and the `'r'` key are not modelled. The function is nested inside `show_fps`, so no reset is reachable, and the key branch would fail.
- `show_fps` is not modelled. Its measured frame rate uses floating-point wall-clock time and feeds no decision.
- Float-to-int truncation (`int(x1)`, `int(x2 - x1)`, `int(v)` on the tracker box, `int(cls)`) is not modelled. Detector corners, class ids and tracker boxes are taken as integers.
- Confidence is an exact `real` compared strictly with 0.3. The rounding of the detector's 32-bit float confidence is not modelled.
