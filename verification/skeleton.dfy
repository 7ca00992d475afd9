/**
 * The PoseNet skeleton drawing (components/Skeleton.js): a circle for each
 * face keypoint and a line for each of twelve fixed body pairs. Each circle
 * and each line endpoint is looked up by part name with `find`, so it sits on
 * the first keypoint of that part.
 */
module Skeleton {
  import opened JsValues
  import opened Seqs

  /** A PoseNet keypoint: its body part and its `position`. */
  datatype Keypoint = Keypoint(part: string, x: real, y: real)

  datatype Circle = Circle(x: real, y: real, radius: nat, fill: string)

  /** A line; `points` is empty when an endpoint was not found. */
  datatype Line = Line(points: seq<real>, stroke: string)

  /** What `Skeleton` renders: one entry per keypoint (null for parts without a circle), then the twelve lines. */
  datatype Figure = Figure(circles: seq<Option<Circle>>, lines: seq<Line>)

  /** The test `kp => kp.part === key`. */
  function HasPart(key: string): Keypoint -> bool
  {
    (kp: Keypoint) => kp.part == key
  }

  /** The colour and radius of the circle drawn for a part, if any: eyes, ears and nose. */
  function CircleStyle(part: string): (style: Option<(string, nat)>)
    ensures style.Some? <==> part in {"leftEye", "rightEye", "leftEar", "rightEar", "nose"}
    ensures part == "leftEye" || part == "rightEye" ==> style == Some(("white", 4))
    ensures part == "leftEar" || part == "rightEar" ==> style == Some(("gray", 3))
    ensures part == "nose" ==> style == Some(("red", 5))
  {
    match part
    case "leftEye" => Some(("white", 4))
    case "rightEye" => Some(("white", 4))
    case "leftEar" => Some(("gray", 3))
    case "rightEar" => Some(("gray", 3))
    case "nose" => Some(("red", 5))
    case _ => None
  }

  /**
   * `renderCircleForKeypoint(key, color, radius)`: a circle on the first
   * keypoint of part `key`; reading the position of a missing keypoint
   * throws a TypeError.
   */
  function RenderCircleForKeypoint(keypoints: seq<Keypoint>, key: string, color: string, radius: nat): (r: Result<Circle>)
    ensures r.Ok? <==> exists j :: 0 <= j < |keypoints| && keypoints[j].part == key
    ensures r.Ok? ==>
      exists j :: IsFirst(keypoints, HasPart(key), j) &&
        r.value == Circle(keypoints[j].x, keypoints[j].y, radius, color)
    ensures r.Thrown? ==> IsTypeError(r.message)
  {
    match Find(keypoints, HasPart(key))
    case None =>
      assert forall j :: 0 <= j < |keypoints| ==> !HasPart(key)(keypoints[j]);
      Thrown(TypeError("cannot read properties of undefined (reading 'position')"))
    case Some(kp) => Ok(Circle(kp.x, kp.y, radius, color))
  }

  /**
   * The entry the keypoint at `i` renders. It is drawn for eyes, ears and the
   * nose only, with the part's colour and radius, on the first keypoint with
   * the same part; the lookup cannot fail because that keypoint is in the list.
   */
  function KeypointCircle(keypoints: seq<Keypoint>, i: nat): (c: Option<Circle>)
    requires i < |keypoints|
    ensures c.Some? <==> CircleStyle(keypoints[i].part).Some?
    ensures c.Some? ==>
      exists j :: j <= i && IsFirst(keypoints, HasPart(keypoints[i].part), j) &&
        c.value == Circle(keypoints[j].x, keypoints[j].y, CircleStyle(keypoints[i].part).value.1,
                          CircleStyle(keypoints[i].part).value.0)
  {
    match CircleStyle(keypoints[i].part)
    case None => None
    case Some(style) =>
      var r := RenderCircleForKeypoint(keypoints, keypoints[i].part, style.0, style.1);
      assert r.Ok?;
      Some(r.value)
  }

  /** When no part occurs twice, every circle sits on its own keypoint. */
  lemma CircleOnOwnKeypoint(keypoints: seq<Keypoint>, i: nat)
    requires i < |keypoints|
    requires forall a, b :: 0 <= a < b < |keypoints| ==> keypoints[a].part != keypoints[b].part
    requires CircleStyle(keypoints[i].part).Some?
    ensures KeypointCircle(keypoints, i).Some?
    ensures KeypointCircle(keypoints, i).value.x == keypoints[i].x
    ensures KeypointCircle(keypoints, i).value.y == keypoints[i].y
  {
    var c := KeypointCircle(keypoints, i);
    var style := CircleStyle(keypoints[i].part).value;
    var j :| j <= i && IsFirst(keypoints, HasPart(keypoints[i].part), j) &&
      c.value == Circle(keypoints[j].x, keypoints[j].y, style.1, style.0);
    assert 0 <= j;
    assert HasPart(keypoints[i].part)(keypoints[j]);
  }

  /**
   * `renderLineForPair(firstKey, secondKey, color)`: the points of the first
   * keypoints of the two parts when both are present, no points otherwise.
   */
  function RenderLineForPair(keypoints: seq<Keypoint>, firstKey: string, secondKey: string, color: string): (line: Line)
    ensures line.stroke == color
    ensures line.points != [] <==>
      (exists i :: 0 <= i < |keypoints| && keypoints[i].part == firstKey) &&
      (exists j :: 0 <= j < |keypoints| && keypoints[j].part == secondKey)
    ensures line.points != [] ==>
      exists i, j :: IsFirst(keypoints, HasPart(firstKey), i) && IsFirst(keypoints, HasPart(secondKey), j) &&
        line.points == [keypoints[i].x, keypoints[i].y, keypoints[j].x, keypoints[j].y]
  {
    var first := Find(keypoints, HasPart(firstKey));
    var second := Find(keypoints, HasPart(secondKey));
    if first.Some? && second.Some? then
      Line([first.value.x, first.value.y, second.value.x, second.value.y], color)
    else
      assert first.None? ==> forall i :: 0 <= i < |keypoints| ==> !HasPart(firstKey)(keypoints[i]);
      assert second.None? ==> forall j :: 0 <= j < |keypoints| ==> !HasPart(secondKey)(keypoints[j]);
      Line([], color)
  }

  /** The twelve pairs drawn, in order, with their colours: torso and arms green, legs cyan. */
  const Pairs: seq<(string, string, string)> := [
    ("leftShoulder", "rightShoulder", "green"),
    ("leftShoulder", "leftElbow", "green"),
    ("leftElbow", "leftWrist", "green"),
    ("rightShoulder", "rightElbow", "green"),
    ("rightElbow", "rightWrist", "green"),
    ("leftHip", "rightHip", "green"),
    ("leftHip", "leftShoulder", "green"),
    ("rightHip", "rightShoulder", "green"),
    ("leftHip", "leftKnee", "cyan"),
    ("leftKnee", "leftAnkle", "cyan"),
    ("rightHip", "rightKnee", "cyan"),
    ("rightKnee", "rightAnkle", "cyan")]

  /**
   * `Skeleton`: one entry per keypoint, in input order, and exactly twelve
   * lines whatever keypoints are present, the first eight green and the last
   * four cyan.
   */
  function Render(keypoints: seq<Keypoint>): (f: Figure)
    ensures |f.circles| == |keypoints|
    ensures forall i :: 0 <= i < |keypoints| ==> f.circles[i] == KeypointCircle(keypoints, i)
    ensures |f.lines| == 12
    ensures forall k :: 0 <= k < 12 ==> f.lines[k] == RenderLineForPair(keypoints, Pairs[k].0, Pairs[k].1, Pairs[k].2)
    ensures forall k :: 0 <= k < 8 ==> f.lines[k].stroke == "green"
    ensures forall k :: 8 <= k < 12 ==> f.lines[k].stroke == "cyan"
  {
    Figure(
      seq(|keypoints|, i requires 0 <= i < |keypoints| => KeypointCircle(keypoints, i)),
      seq(|Pairs|, k requires 0 <= k < |Pairs| => RenderLineForPair(keypoints, Pairs[k].0, Pairs[k].1, Pairs[k].2)))
  }
}
