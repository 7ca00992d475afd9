/**
 * The pose-detection page (src/app/tf-posenet/client.tsx): its reducer, which
 * writes to the computed key `action.type.slice(3)`, the `Skeleton` drawing of
 * keypoints and connections, the detector loading and the timer callback.
 * The state is a JavaScript object, so it is modelled as a map from keys to
 * values: the reducer can add keys the declared state does not have.
 */
module TfPosenet {
  import opened JsValues
  import opened Seqs
  import opened ReducerStore

  type State = map<string, Value>

  /** The fields of the declared `State` interface. */
  const DeclaredFields: set<string> :=
    {"isReady", "model", "detector", "scoreThreshold", "maxPoses", "updateInterval", "poses",
     "useWebcam", "isPlaying", "isTrackingEnabled", "videoConstraints", "size", "message"}

  /** `initialState`. */
  function InitialState(): (s: State)
    ensures s.Keys == DeclaredFields
    ensures s["isReady"] == Bool(false) && s["detector"] == Null && s["poses"] == Arr([])
    ensures s["maxPoses"] == NumValue(1.0) && s["updateInterval"] == NumValue(100.0)
    ensures !TickRuns(s)
  {
    map[
      "isReady" := Bool(false),
      "model" := Str("MoveNet"),
      "detector" := Null,
      "scoreThreshold" := NumValue(0.5),
      "maxPoses" := NumValue(1.0),
      "updateInterval" := NumValue(100.0),
      "poses" := Arr([]),
      "useWebcam" := Bool(false),
      "isPlaying" := Bool(false),
      "isTrackingEnabled" := Bool(false),
      "videoConstraints" := Obj(map["width" := NumValue(640.0), "height" := NumValue(480.0), "facingMode" := Str("user")]),
      "size" := Obj(map["width" := NumValue(640.0), "height" := NumValue(480.0)]),
      "message" := Str("")]
  }

  datatype Action = Action(kind: string, payload: Value)

  /** The action types of the `Action` union, all handled by one case. */
  const ActionTypes: set<string> :=
    {"setReady", "setModel", "setDetector", "setScoreThreshold", "setMaxPoses", "setUpdateInterval",
     "setPoses", "setUseWebcam", "setIsPlaying", "setIsTrackingEnabled", "setMessage"}

  /** `s.slice(start)` for a non-negative start. */
  function Slice(s: string, start: nat): (r: string)
    ensures |r| == if start <= |s| then |s| - start else 0
    ensures forall i :: 0 <= i < |r| ==> r[i] == s[start + i]
  {
    if start <= |s| then s[start..] else ""
  }

  /** The key the reducer writes for an action type: `action.type.slice(3)`. */
  function WrittenKey(kind: string): string
  {
    Slice(kind, 3)
  }

  /**
   * `reducer(state, action)`: every handled type sets the key `kind.slice(3)`
   * to the payload and keeps every other key; other types throw.
   */
  function Reduce(s: State, a: Action): (r: Result<State>)
    ensures r.Ok? <==> a.kind in ActionTypes
    ensures r.Thrown? ==> r.message == "Unexpected action"
    ensures r.Ok? ==> r.value.Keys == s.Keys + {WrittenKey(a.kind)}
    ensures r.Ok? ==> Get(r.value, WrittenKey(a.kind)) == a.payload
    ensures r.Ok? ==> forall k :: k != WrittenKey(a.kind) ==> Get(r.value, k) == Get(s, k)
  {
    if a.kind in ActionTypes then Ok(s[WrittenKey(a.kind) := a.payload])
    else Thrown("Unexpected action")
  }

  /** The keys the reducer writes are capitalised ("Ready", "MaxPoses", ...), so none is a declared field. */
  lemma WrittenKeyNotDeclared(kind: string)
    requires kind in ActionTypes
    ensures WrittenKey(kind) != [] && 'A' <= WrittenKey(kind)[0] <= 'Z'
    ensures WrittenKey(kind) !in DeclaredFields
  {
    assert |kind| > 3 && kind[..3] == "set";
    var key := WrittenKey(kind);
    assert key[0] == kind[3];
    forall f | f in DeclaredFields ensures f != key {
      assert 'a' <= f[0] <= 'z';
    }
  }

  /** No action changes a declared field: whatever is dispatched, those keep their values. */
  lemma {:induction false} DeclaredFieldsNeverChange(s: State, actions: seq<Action>)
    ensures Run(Reduce, s, actions).Ok? ==>
      forall f :: f in DeclaredFields ==> Get(Run(Reduce, s, actions).value, f) == Get(s, f)
    decreases |actions|
  {
    if actions != [] && actions[0].kind in ActionTypes {
      WrittenKeyNotDeclared(actions[0].kind);
      DeclaredFieldsNeverChange(Reduce(s, actions[0]).value, actions[1..]);
    }
  }

  /** The timer callback does its work only when ready, tracking and holding a detector. */
  predicate TickRuns(s: State)
  {
    Truthy(Get(s, "isReady")) && Truthy(Get(s, "isTrackingEnabled")) && Truthy(Get(s, "detector"))
  }

  /** From the initial state no sequence of actions makes the page ready, so detection never runs. */
  lemma TrackingNeverRuns(actions: seq<Action>)
    ensures Run(Reduce, InitialState(), actions).Ok? ==> !TickRuns(Run(Reduce, InitialState(), actions).value)
  {
    DeclaredFieldsNeverChange(InitialState(), actions);
  }

  /** The field each action type evidently means to set. */
  function IntendedField(kind: string): (f: string)
    requires kind in ActionTypes
    ensures f in DeclaredFields
  {
    match kind
    case "setReady" => "isReady"
    case "setModel" => "model"
    case "setDetector" => "detector"
    case "setScoreThreshold" => "scoreThreshold"
    case "setMaxPoses" => "maxPoses"
    case "setUpdateInterval" => "updateInterval"
    case "setPoses" => "poses"
    case "setUseWebcam" => "useWebcam"
    case "setIsPlaying" => "isPlaying"
    case "setIsTrackingEnabled" => "isTrackingEnabled"
    case "setMessage" => "message"
  }

  /** The reducer as evidently intended: each action sets its own declared field. */
  function ReduceFixed(s: State, a: Action): (r: Result<State>)
    ensures r.Ok? <==> a.kind in ActionTypes
    ensures r.Ok? ==> r.value.Keys == s.Keys + {IntendedField(a.kind)}
    ensures r.Ok? ==> Get(r.value, IntendedField(a.kind)) == a.payload
    ensures r.Ok? ==> forall k :: k != IntendedField(a.kind) ==> Get(r.value, k) == Get(s, k)
  {
    if a.kind in ActionTypes then Ok(s[IntendedField(a.kind) := a.payload])
    else Thrown("Unexpected action")
  }

  /** With the intended reducer, loading a detector and ticking the checkbox lets detection run, from any state. */
  lemma FixedReducerCanTrack(s: State, detector: Value)
    requires Truthy(detector)
    ensures var r := Run(ReduceFixed, s, LoadedActions(detector) + [Action("setIsTrackingEnabled", Bool(true))]);
      r.Ok? && TickRuns(r.value)
  {
    var actions := LoadedActions(detector) + [Action("setIsTrackingEnabled", Bool(true))];
    var s1 := ReduceFixed(s, actions[0]).value;
    var s2 := ReduceFixed(s1, actions[1]).value;
    var s3 := ReduceFixed(s2, actions[2]).value;
    assert Get(s1, "detector") == detector;
    assert Get(s2, "detector") == detector && Get(s2, "isReady") == Bool(true);
    assert Get(s3, "detector") == detector && Get(s3, "isReady") == Bool(true);
    assert Get(s3, "isTrackingEnabled") == Bool(true);
    assert Run(ReduceFixed, s2, actions[2..]) == Ok(s3);
    assert Run(ReduceFixed, s1, actions[1..]) == Run(ReduceFixed, s2, actions[2..]);
    assert Run(ReduceFixed, s, actions) == Run(ReduceFixed, s1, actions[1..]);
  }

  /** The detector models the page can load. */
  const SupportedModels: set<string> := {"MoveNet", "BlazePose", "PoseNet"}

  /** What `loadDetector` dispatches once `createDetector` returns `detector`. */
  function LoadedActions(detector: Value): (actions: seq<Action>)
    ensures forall i :: 0 <= i < |actions| ==> actions[i].kind in ActionTypes
  {
    [Action("setDetector", detector), Action("setReady", Bool(true))]
  }

  /**
   * `loadDetector`: for a supported `state.model` it dispatches the new
   * detector and then `setReady`; any other model throws "Unsupported model".
   * With the intended reducer, those dispatches leave the page ready and
   * holding the detector.
   */
  function LoadDetector(s: State, detector: Value): (r: Result<seq<Action>>)
    ensures r.Ok? <==> Get(s, "model").Str? && Get(s, "model").s in SupportedModels
    ensures r.Thrown? ==> r.message == "Unsupported model"
    ensures r.Ok? ==> Run(Reduce, s, r.value).Ok?
    ensures r.Ok? ==>
      var loaded := Run(ReduceFixed, s, r.value);
      loaded.Ok? && Get(loaded.value, "detector") == detector && Get(loaded.value, "isReady") == Bool(true)
  {
    var model := Get(s, "model");
    if model.Str? && model.s in SupportedModels then
      var actions := LoadedActions(detector);
      assert Run(Reduce, s, actions) == Run(Reduce, Reduce(s, actions[0]).value, actions[1..]);
      var s1 := ReduceFixed(s, actions[0]).value;
      var s2 := ReduceFixed(s1, actions[1]).value;
      assert Get(s1, "detector") == detector;
      assert Get(s2, "detector") == detector && Get(s2, "isReady") == Bool(true);
      assert Run(ReduceFixed, s, actions) == Run(ReduceFixed, s1, actions[1..]);
      Ok(actions)
    else Thrown("Unsupported model")
  }

  /** The message the timer stores after a detection. */
  function FoundMessage(n: nat): string
  {
    "Found " + NatToString(n) + " poses"
  }

  /**
   * One timer tick: `currentRef` is `videoRef.current`, `video` what the
   * webcam or player hands over and `poses` what the detector estimates. The
   * result is the list of actions the tick dispatches, in order.
   */
  function TickActions(s: State, currentRef: Value, video: Value, poses: seq<Value>): (actions: seq<Action>)
    ensures actions == [] <==> !TickRuns(s)
    ensures forall i :: 0 <= i < |actions| ==> actions[i].kind in ActionTypes
  {
    if !TickRuns(s) then []
    else if !Truthy(currentRef) then [Action("setMessage", Str("No input image"))]
    else if !Truthy(video) then [Action("setMessage", Str("Video element not available"))]
    else [Action("setPoses", Arr(poses)), Action("setMessage", Str(FoundMessage(|poses|)))]
  }

  // ---------------------------------------------------------------------------
  // Skeleton

  datatype Keypoint = Keypoint(x: real, y: real, score: Option<real>, name: Option<string>)

  datatype Circle = Circle(x: real, y: real, radius: nat, fill: string)

  datatype Line = Line(points: seq<real>, stroke: string, strokeWidth: nat)

  /** What `Skeleton` renders: one entry per connection (null when not drawn), then one circle per keypoint. */
  datatype Figure = Figure(lines: seq<Option<Line>>, circles: seq<Circle>)

  /** The fixed list of connections, in drawing order. */
  const Connections: seq<(string, string)> := [
    ("nose", "left_eye"),
    ("nose", "right_eye"),
    ("left_eye", "left_ear"),
    ("right_eye", "right_ear"),
    ("left_shoulder", "right_shoulder"),
    ("left_shoulder", "left_elbow"),
    ("right_shoulder", "right_elbow"),
    ("left_elbow", "left_wrist"),
    ("right_elbow", "right_wrist"),
    ("left_shoulder", "left_hip"),
    ("right_shoulder", "right_hip"),
    ("left_hip", "right_hip"),
    ("left_hip", "left_knee"),
    ("right_hip", "right_knee"),
    ("left_knee", "left_ankle"),
    ("right_knee", "right_ankle")]

  /** The test `kp => kp.name === name`. */
  function Named(name: string): Keypoint -> bool
  {
    (kp: Keypoint) => kp.name == Some(name)
  }

  /** One connection: a line between the first keypoints named `from` and `to`, or null if either is missing. */
  function ConnectionLine(keypoints: seq<Keypoint>, from: string, to: string): (line: Option<Line>)
    ensures line.Some? <==>
      (exists i :: 0 <= i < |keypoints| && keypoints[i].name == Some(from)) &&
      (exists j :: 0 <= j < |keypoints| && keypoints[j].name == Some(to))
    ensures line.Some? ==>
      exists i, j :: IsFirst(keypoints, Named(from), i) && IsFirst(keypoints, Named(to), j) &&
        line.value == Line([keypoints[i].x, keypoints[i].y, keypoints[j].x, keypoints[j].y], "#00F", 2)
  {
    var first := Find(keypoints, Named(from));
    var second := Find(keypoints, Named(to));
    if first.Some? && second.Some? then
      Some(Line([first.value.x, first.value.y, second.value.x, second.value.y], "#00F", 2))
    else
      assert first.None? ==> forall i :: 0 <= i < |keypoints| ==> !Named(from)(keypoints[i]);
      assert second.None? ==> forall j :: 0 <= j < |keypoints| ==> !Named(to)(keypoints[j]);
      None
  }

  /** `Skeleton`: a line slot for each of the 16 connections, in order, and a red circle of radius 3 on every keypoint. */
  function Skeleton(keypoints: seq<Keypoint>): (f: Figure)
    ensures |f.lines| == |Connections| == 16
    ensures forall c :: 0 <= c < 16 ==> f.lines[c] == ConnectionLine(keypoints, Connections[c].0, Connections[c].1)
    ensures |f.circles| == |keypoints|
    ensures forall i :: 0 <= i < |keypoints| ==>
      f.circles[i] == Circle(keypoints[i].x, keypoints[i].y, 3, "#F00")
  {
    Figure(
      seq(|Connections|, c requires 0 <= c < |Connections| => ConnectionLine(keypoints, Connections[c].0, Connections[c].1)),
      seq(|keypoints|, i requires 0 <= i < |keypoints| => Circle(keypoints[i].x, keypoints[i].y, 3, "#F00")))
  }
}
