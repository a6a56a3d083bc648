/** Choice of the detection the tracker is (re)initialised on: the detector's rows are
    scanned in the order it returns them and the first row of the target class with a
    confidence strictly above the threshold wins. */
module Selection {
  import opened Wrappers
  import opened Geometry

  /** Class id of the target (the "IHA" class). */
  const TargetClass: int := 0

  /** Confidence a detection must strictly exceed. */
  const MinConfidence: real := 0.3

  /** One detector row `x1, y1, x2, y2, conf, cls`, with corners already integral. */
  datatype Detection = Detection(x1: int, y1: int, x2: int, y2: int, conf: real, cls: int)

  predicate Qualifies(d: Detection) {
    d.cls == TargetClass && d.conf > MinConfidence
  }

  /** The tracker box `(x1, y1, x2 - x1, y2 - y1)`; the corners are recovered from it
      exactly, and no check is made that the box has positive size. */
  function ToBox(d: Detection): (b: Box)
    ensures b.x == d.x1 && b.y == d.y1
    ensures b.x + b.w == d.x2 && b.y + b.h == d.y2
  {
    Box(d.x1, d.y1, d.x2 - d.x1, d.y2 - d.y1)
  }

  /** Index of the first qualifying detection, or `None` when none qualifies. */
  function FirstQualifying(dets: seq<Detection>): (r: Option<nat>)
    ensures r.Some? ==> r.value < |dets| && Qualifies(dets[r.value])
    ensures r.Some? ==> forall j :: 0 <= j < r.value ==> !Qualifies(dets[j])
    ensures r.None? <==> forall j :: 0 <= j < |dets| ==> !Qualifies(dets[j])
    decreases |dets|
  {
    if |dets| == 0 then None
    else if Qualifies(dets[0]) then Some(0)
    else match FirstQualifying(dets[1..])
      case None => None
      case Some(i) => Some(i + 1)
  }

  /** The `for det in detections: ... break` loop: scans in order and stops at the first
      qualifying row. */
  method ScanDetections(dets: seq<Detection>) returns (found: Option<nat>)
    ensures found == FirstQualifying(dets)
    ensures found.Some? ==> found.value < |dets| && Qualifies(dets[found.value])
  {
    found := None;
    var k := 0;
    while k < |dets|
      invariant 0 <= k <= |dets|
      invariant forall j :: 0 <= j < k ==> !Qualifies(dets[j])
    {
      if Qualifies(dets[k]) {
        found := Some(k);
        return;
      }
      k := k + 1;
    }
  }

  /** Rows appended after a qualifying row never change the choice. */
  lemma {:induction false} LaterDetectionsIgnored(dets: seq<Detection>, more: seq<Detection>)
    requires FirstQualifying(dets).Some?
    ensures FirstQualifying(dets + more) == FirstQualifying(dets)
    decreases |dets|
  {
    assert (dets + more)[0] == dets[0];
    if !Qualifies(dets[0]) {
      assert (dets + more)[1..] == dets[1..] + more;
      LaterDetectionsIgnored(dets[1..], more);
    }
  }

  /** Non-qualifying rows in front only shift the chosen index. */
  lemma {:induction false} SkipNonQualifying(skip: seq<Detection>, dets: seq<Detection>)
    requires forall j :: 0 <= j < |skip| ==> !Qualifies(skip[j])
    ensures FirstQualifying(skip + dets).None? <==> FirstQualifying(dets).None?
    ensures FirstQualifying(dets).Some? ==>
              FirstQualifying(skip + dets) == Some(|skip| + FirstQualifying(dets).value)
    decreases |skip|
  {
    if |skip| > 0 {
      assert (skip + dets)[0] == skip[0];
      assert (skip + dets)[1..] == skip[1..] + dets;
      SkipNonQualifying(skip[1..], dets);
    } else {
      assert skip + dets == dets;
    }
  }
}
