/** The frame-by-frame decision logic of the tracking program: each frame the reference
    square is placed at the centre of the 640 x 640 working frame; then either the
    correlation tracker is updated (when a tracker is active) or the detector is consulted.
    A successful tracker update is classified inside/outside the square, which sets the
    target frame rate; an outside verdict, or a failed update, consults the detector on the
    same frame. The detector's output and the tracker's update result are inputs. */
module Coordinator {
  import opened Wrappers
  import opened Geometry
  import opened Selection

  /** Every frame is resized to this working resolution before anything else happens. */
  const FrameWidth: int := 640
  const FrameHeight: int := 640

  /** Target frame rate while the target is inside the square. */
  const SlowFps: int := 15

  /** Target frame rate while the target is outside (and at start-up). */
  const FastFps: int := 30

  /** The program's state. `tracker` is the box the correlation tracker was last initialised
      with (its internal filter is not modelled); `None` means no tracker exists. */
  datatype State = State(
    tracker: Option<Box>,
    trackingActive: bool,
    confidence: real,
    fps: int,
    inside: bool,
    region: Region)

  /** What one call produced: the new state, whether the detector was consulted, and the
      arrow directions drawn for an outside target. */
  datatype Outcome = Outcome(state: State, detectorRan: bool, arrows: set<Side>)

  /** What the outside world supplies for one frame: the tracker's update result (`None` for
      a failed update) and the rows the detector returns if it is consulted on this frame. */
  datatype FrameInput = FrameInput(update: Option<Box>, detections: seq<Detection>)

  /** The result of one frame, including whether the tracker was updated. */
  datatype FrameResult = FrameResult(state: State, trackerUpdated: bool, detectorRan: bool, arrows: set<Side>)

  /** The properties every reachable state has: fps is one of the two rates and is slow
      exactly when the target was last seen inside; a tracker exists exactly when tracking is
      active; the square has its fixed size. */
  ghost predicate Inv(s: State) {
    && (s.fps == SlowFps || s.fps == FastFps)
    && (s.fps == SlowFps <==> s.inside)
    && (s.trackingActive <==> s.tracker.Some?)
    && Width(s.region) == SquareSize && Height(s.region) == SquareSize
  }

  /** The state set up by the constructor. The square's corners do not exist until the first
      frame draws them; they are seeded here with the centred square, and `StepIgnoresRegion`
      shows the seed is never read. */
  function Init(): (s: State)
    ensures Inv(s)
    ensures !s.trackingActive && s.tracker.None? && !s.inside && s.fps == FastFps
  {
    State(None, false, 0.0, FastFps, false, TrackingArea(FrameWidth, FrameHeight))
  }

  /** The wait in milliseconds between frames, `int(1000 / fps)`. */
  function WaitMs(fps: int): (ms: int)
    requires fps > 0
    ensures 0 <= ms
    ensures ms * fps <= 1000 < (ms + 1) * fps
  {
    1000 / fps
  }

  /** Placing the square at the centre of the working frame. */
  function DrawTrackingArea(s: State): (r: State)
    ensures r.region == TrackingArea(FrameWidth, FrameHeight)
    ensures r.(region := s.region) == s
  {
    s.(region := TrackingArea(FrameWidth, FrameHeight))
  }

  /** One detector call. The first qualifying row (re)initialises the tracker on its box,
      activates tracking, records its confidence and moves the square's centre onto the box's
      centre; when no row qualifies nothing changes. */
  function RunYolo(s: State, dets: seq<Detection>): (r: State)
    ensures FirstQualifying(dets).None? ==> r == s
    ensures FirstQualifying(dets).Some? ==>
              var d := dets[FirstQualifying(dets).value];
              && r.tracker == Some(ToBox(d))
              && r.trackingActive
              && r.confidence == d.conf
              && Midpoint(r.region) == Center(ToBox(d))
              && Width(r.region) == Width(s.region) && Height(r.region) == Height(s.region)
    ensures r.fps == s.fps && r.inside == s.inside
  {
    match FirstQualifying(dets)
    case None => s
    case Some(i) =>
      var box := ToBox(dets[i]);
      s.(tracker := Some(box), trackingActive := true, confidence := dets[i].conf,
         region := Recenter(s.region, box))
  }

  /** Classifies the centre of the tracked box against the current square. Inside: slow rate.
      Outside: the arrows for the centre are drawn, fast rate, and the detector is consulted
      to re-acquire the target. */
  function CheckInside(s: State, b: Box, dets: seq<Detection>): (o: Outcome)
    ensures o.state.inside <==> Contains(s.region, Center(b))
    ensures (o.state.fps == SlowFps && o.state.inside) || (o.state.fps == FastFps && !o.state.inside)
    ensures o.detectorRan <==> !o.state.inside
    ensures o.arrows == {} <==> o.state.inside
    ensures !o.state.inside ==> o.arrows == OutsideSides(s.region, Center(b))
    ensures o.state.inside ==> o.state == s.(fps := SlowFps, inside := true)
    ensures !o.state.inside ==> o.state == RunYolo(s.(fps := FastFps, inside := false), dets)
  {
    var c := Center(b);
    if Contains(s.region, c) then
      Outcome(s.(fps := SlowFps, inside := true), false, {})
    else
      var arrows := OutsideSides(s.region, c);
      Outcome(RunYolo(s.(fps := FastFps, inside := false), dets), true, arrows)
  }

  /** One tracker update. A successful update is classified by `CheckInside`; a failed one
      falls back to the detector and clears nothing. Without a tracker nothing happens. */
  function TrackMosse(s: State, update: Option<Box>, dets: seq<Detection>): (o: Outcome)
    ensures s.tracker.None? ==> o == Outcome(s, false, {})
    ensures s.tracker.Some? && update.None? ==> o.detectorRan && o.arrows == {}
    ensures s.tracker.Some? && update.None? ==> o.state == RunYolo(s, dets)
    ensures s.tracker.Some? && update.None? && FirstQualifying(dets).None? ==> o.state == s
    ensures s.tracker.Some? && update.Some? ==>
              (o.state.inside <==> Contains(s.region, Center(update.value)))
    ensures s.tracker.Some? && update.Some? ==> o == CheckInside(s, update.value, dets)
    ensures s.tracker.Some? ==> o.state.tracker.Some?
    ensures s.trackingActive ==> o.state.trackingActive
    ensures update.None? ==> o.state.fps == s.fps && o.state.inside == s.inside
  {
    if s.tracker.None? then Outcome(s, false, {})
    else match update
      case Some(b) => CheckInside(s, b, dets)
      case None => Outcome(RunYolo(s, dets), true, {})
  }

  /** The body of the main loop for one frame, from drawing the square to choosing between
      the tracker and the detector. */
  function Step(s: State, input: FrameInput): (r: FrameResult)
    ensures r.trackerUpdated <==> s.trackingActive && s.tracker.Some?
    ensures !r.trackerUpdated ==> r.detectorRan
    ensures s.trackingActive ==> r.state.trackingActive
    ensures s.tracker.Some? ==> r.state.tracker.Some?
  {
    var s0 := DrawTrackingArea(s);
    if s0.trackingActive && s0.tracker.Some? then
      var o := TrackMosse(s0, input.update, input.detections);
      FrameResult(o.state, true, o.detectorRan, o.arrows)
    else
      FrameResult(RunYolo(s0, input.detections), false, true, {})
  }

  /** The state after processing `frames` in order, starting from `s`. */
  function Run(s: State, frames: seq<FrameInput>): State
    decreases |frames|
  {
    if |frames| == 0 then s
    else Step(Run(s, frames[..|frames| - 1]), frames[|frames| - 1]).state
  }

  /** The main loop: processes frames until the stream ends, returning the final state and the
      wait used after each frame. */
  method Session(frames: seq<FrameInput>) returns (s: State, waits: seq<int>)
    ensures s == Run(Init(), frames)
    ensures Inv(s)
    ensures |waits| == |frames|
    ensures forall i :: 0 <= i < |waits| ==> waits[i] == 66 || waits[i] == 33
    ensures forall i :: 0 <= i < |waits| ==>
              waits[i] == (if Run(Init(), frames[..i + 1]).inside then 66 else 33)
  {
    s := Init();
    waits := [];
    var i := 0;
    while i < |frames|
      invariant 0 <= i <= |frames|
      invariant s == Run(Init(), frames[..i])
      invariant Inv(s)
      invariant |waits| == i
      invariant forall j :: 0 <= j < i ==> waits[j] == 66 || waits[j] == 33
      invariant forall j :: 0 <= j < i ==>
                  waits[j] == (if Run(Init(), frames[..j + 1]).inside then 66 else 33)
    {
      StepPreservesInv(s, frames[i]);
      assert frames[..i + 1][..i] == frames[..i];
      s := Step(s, frames[i]).state;
      var ms := WaitMs(s.fps);
      WaitOfReachable(s);
      assert s == Run(Init(), frames[..i + 1]);
      waits := waits + [ms];
      i := i + 1;
    }
    assert frames[..i] == frames;
  }

  /** In every reachable state the wait is 66 ms when the target is inside and 33 ms
      otherwise. */
  lemma WaitOfReachable(s: State)
    requires Inv(s)
    ensures s.fps > 0
    ensures WaitMs(s.fps) == (if s.inside then 66 else 33)
  {
  }

  /** Every frame keeps the invariant. */
  lemma StepPreservesInv(s: State, input: FrameInput)
    requires Inv(s)
    ensures Inv(Step(s, input).state)
  {
  }

  /** Every reachable state satisfies the invariant. */
  lemma {:induction false} RunPreservesInv(s: State, frames: seq<FrameInput>)
    requires Inv(s)
    ensures Inv(Run(s, frames))
    decreases |frames|
  {
    if |frames| > 0 {
      RunPreservesInv(s, frames[..|frames| - 1]);
      StepPreservesInv(Run(s, frames[..|frames| - 1]), frames[|frames| - 1]);
    }
  }

  /** Once tracking is active it stays active for the rest of the session. */
  lemma {:induction false} TrackingNeverStops(s: State, frames: seq<FrameInput>)
    requires s.trackingActive
    ensures Run(s, frames).trackingActive
    decreases |frames|
  {
    if |frames| > 0 {
      TrackingNeverStops(s, frames[..|frames| - 1]);
    }
  }

  /** The square does not carry over between frames: the step's outcome does not depend on
      the square's incoming position. */
  lemma StepIgnoresRegion(s: State, a: Region, input: FrameInput)
    ensures Step(s.(region := a), input) == Step(s, input)
  {
  }

  /** The tracked centre is always classified against the frame-centred square, never
      against a square moved on an earlier frame. */
  lemma ClassifiedAgainstCentredSquare(s: State, input: FrameInput)
    requires s.trackingActive && s.tracker.Some? && input.update.Some?
    ensures Step(s, input).state.inside <==>
              Contains(TrackingArea(FrameWidth, FrameHeight), Center(input.update.value))
    ensures Step(s, input).state.fps == (if Step(s, input).state.inside then SlowFps else FastFps)
    ensures Step(s, input).detectorRan <==> !Step(s, input).state.inside
    ensures !Step(s, input).state.inside ==>
              Step(s, input).arrows ==
                OutsideSides(TrackingArea(FrameWidth, FrameHeight), Center(input.update.value))
  {
  }

  /** The detector is consulted exactly when there is no active tracker, the update failed,
      or the updated box's centre lies outside the centred square. */
  lemma DetectorRunsWhen(s: State, input: FrameInput)
    ensures Step(s, input).detectorRan <==>
              || !(s.trackingActive && s.tracker.Some?)
              || input.update.None?
              || !Contains(TrackingArea(FrameWidth, FrameHeight), Center(input.update.value))
  {
  }

  /** A failed update with no qualifying detection leaves tracker, tracking flag, confidence,
      fps and the inside flag as they were. */
  lemma FailureKeepsTracking(s: State, input: FrameInput)
    requires s.trackingActive && s.tracker.Some?
    requires input.update.None? && FirstQualifying(input.detections).None?
    ensures Step(s, input).state == DrawTrackingArea(s)
    ensures Step(s, input).detectorRan
  {
  }

  /** Without an active tracker, a qualifying detection starts tracking on its box and
      recentres the square on it. */
  lemma AcquireStartsTracking(s: State, input: FrameInput)
    requires !s.trackingActive
    requires FirstQualifying(input.detections).Some?
    ensures var d := input.detections[FirstQualifying(input.detections).value];
            && Step(s, input).state.trackingActive
            && Step(s, input).state.tracker == Some(ToBox(d))
            && Step(s, input).state.region == Recenter(TrackingArea(FrameWidth, FrameHeight), ToBox(d))
            && Step(s, input).state.confidence == d.conf
            && Step(s, input).state.fps == s.fps && Step(s, input).state.inside == s.inside
  {
  }

  /** Without an active tracker and without a qualifying row, a frame changes nothing but the
      per-frame square: the program keeps searching at its current rate. */
  lemma SearchWithoutHit(s: State, input: FrameInput)
    requires !(s.trackingActive && s.tracker.Some?)
    requires FirstQualifying(input.detections).None?
    ensures Step(s, input).state == DrawTrackingArea(s)
    ensures Step(s, input).detectorRan && !Step(s, input).trackerUpdated
  {
  }

  /** An inside verdict sets only the slow rate and the inside flag: the tracker, the tracking
      flag, the confidence and the centred square are kept, and the detector is not consulted. */
  lemma InsideKeepsTracker(s: State, input: FrameInput)
    requires s.trackingActive && s.tracker.Some? && input.update.Some?
    requires Contains(TrackingArea(FrameWidth, FrameHeight), Center(input.update.value))
    ensures Step(s, input).state == DrawTrackingArea(s).(fps := SlowFps, inside := true)
    ensures !Step(s, input).detectorRan && Step(s, input).arrows == {}
  {
  }

  /** An outside verdict with no qualifying row sets only the fast rate and clears the inside
      flag: the tracker, the tracking flag, the confidence and the centred square are kept. */
  lemma OutsideWithoutHit(s: State, input: FrameInput)
    requires s.trackingActive && s.tracker.Some? && input.update.Some?
    requires !Contains(TrackingArea(FrameWidth, FrameHeight), Center(input.update.value))
    requires FirstQualifying(input.detections).None?
    ensures Step(s, input).state == DrawTrackingArea(s).(fps := FastFps, inside := false)
    ensures Step(s, input).detectorRan
  {
  }

  /** Arrows are drawn on a frame exactly when a tracker update succeeded and its centre lies
      outside the centred square; searching frames and failed updates draw none. */
  lemma ArrowsOnlyWhenOutside(s: State, input: FrameInput)
    ensures Step(s, input).arrows != {} <==>
              && s.trackingActive && s.tracker.Some? && input.update.Some?
              && !Contains(TrackingArea(FrameWidth, FrameHeight), Center(input.update.value))
  {
  }

  /** A failed update while tracking re-acquires on the first qualifying row of the same
      frame: the tracker is re-initialised on its box, its confidence recorded, and the
      centred square recentred on it. */
  lemma ReacquireAfterFailure(s: State, input: FrameInput)
    requires s.trackingActive && s.tracker.Some?
    requires input.update.None? && FirstQualifying(input.detections).Some?
    ensures var d := input.detections[FirstQualifying(input.detections).value];
            && Step(s, input).state.trackingActive
            && Step(s, input).state.tracker == Some(ToBox(d))
            && Step(s, input).state.confidence == d.conf
            && Step(s, input).state.region == Recenter(TrackingArea(FrameWidth, FrameHeight), ToBox(d))
            && Step(s, input).state.fps == s.fps && Step(s, input).state.inside == s.inside
  {
  }

  /** A successful update whose centre is outside the centred square re-acquires on the
      first qualifying row of the same frame, after switching to the fast rate. */
  lemma ReacquireWhenOutside(s: State, input: FrameInput)
    requires s.trackingActive && s.tracker.Some? && input.update.Some?
    requires !Contains(TrackingArea(FrameWidth, FrameHeight), Center(input.update.value))
    requires FirstQualifying(input.detections).Some?
    ensures var d := input.detections[FirstQualifying(input.detections).value];
            && Step(s, input).state.tracker == Some(ToBox(d))
            && Step(s, input).state.confidence == d.conf
            && Step(s, input).state.region == Recenter(TrackingArea(FrameWidth, FrameHeight), ToBox(d))
            && Step(s, input).state.fps == FastFps && !Step(s, input).state.inside
  {
  }

  /** A box centred at (320,320) is inside the centred square: slow rate, no detector. */
  lemma ScenarioInside()
    ensures var s := Init().(trackingActive := true, tracker := Some(Box(300, 300, 40, 40)));
            var r := Step(s, FrameInput(Some(Box(300, 300, 40, 40)), []));
            r.state.inside && r.state.fps == SlowFps && !r.detectorRan && r.arrows == {}
  {
  }

  /** A box centred at (20,20) lies left of and above the square: both arrows, fast rate,
      and the detector is consulted on the same frame. */
  lemma ScenarioOutside()
    ensures var s := Init().(trackingActive := true, tracker := Some(Box(300, 300, 40, 40)), fps := SlowFps, inside := true);
            var r := Step(s, FrameInput(Some(Box(10, 10, 20, 20)), []));
            !r.state.inside && r.state.fps == FastFps && r.detectorRan && r.arrows == {Left, Top}
  {
  }

  /** From the initial state, the first of two rows (class 0, confidence 0.5, corners
      (100,100)-(150,150)) is chosen over a later one of another class; the square moves by
      (125 - 320, 125 - 320). */
  lemma ScenarioFirstDetection()
    ensures var dets := [Detection(100, 100, 150, 150, 0.5, 0), Detection(10, 10, 30, 30, 0.9, 1)];
            var r := Step(Init(), FrameInput(None, dets));
            && r.state.trackingActive
            && r.state.tracker == Some(Box(100, 100, 50, 50))
            && r.state.confidence == 0.5
            && r.state.region == Region(Point(0, 0), Point(250, 250))
  {
  }
}
