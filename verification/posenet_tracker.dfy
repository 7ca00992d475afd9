/**
 * The PoseNet tracker page (components/PosenetTracker.js): its reducer, the
 * controls that dispatch to it, the pose-selection step of `fetchPoses` and
 * the timer callback that stores what was found. The two PoseNet estimators
 * are inputs: what they return for the current frame.
 */
module PosenetTracker {
  import opened JsValues
  import opened Seqs
  import opened ReducerStore

  /** The page state. The reducer stores payloads as given, so every field is a JavaScript value. */
  datatype State = State(
    isReady: Value,
    imageScaleFactor: Value,
    flipHorizontal: Value,
    outputStride: Value,
    maxPoseDetections: Value,
    scoreThreshold: Value,
    nmsRadius: Value,
    updateRateMilis: Value,
    poses: Value,
    foundKeypoints: Value,
    useWebcam: Value,
    isPlaying: Value,
    isTrackingEnabled: Value,
    videoConstraints: Value,
    size: Value,
    message: Value)

  /** The names of the state's fields. */
  datatype FieldId =
    | IsReady | ImageScaleFactor | FlipHorizontal | OutputStride | MaxPoseDetections
    | ScoreThreshold | NmsRadius | UpdateRateMilis | Poses | FoundKeypoints | UseWebcam
    | IsPlaying | IsTrackingEnabled | VideoConstraints | Size | Message

  function Field(s: State, f: FieldId): Value
  {
    match f
    case IsReady => s.isReady
    case ImageScaleFactor => s.imageScaleFactor
    case FlipHorizontal => s.flipHorizontal
    case OutputStride => s.outputStride
    case MaxPoseDetections => s.maxPoseDetections
    case ScoreThreshold => s.scoreThreshold
    case NmsRadius => s.nmsRadius
    case UpdateRateMilis => s.updateRateMilis
    case Poses => s.poses
    case FoundKeypoints => s.foundKeypoints
    case UseWebcam => s.useWebcam
    case IsPlaying => s.isPlaying
    case IsTrackingEnabled => s.isTrackingEnabled
    case VideoConstraints => s.videoConstraints
    case Size => s.size
    case Message => s.message
  }

  /** `initialState`. */
  function InitialState(): (s: State)
    ensures s.isReady == Bool(false) && s.poses == Arr([])
    ensures s.maxPoseDetections == NumValue(5.0) && s.outputStride == NumValue(16.0)
    ensures s.nmsRadius == NumValue(30.0) && s.updateRateMilis == NumValue(60.0)
    ensures !IntervalRuns(s)
  {
    State(
      Bool(false), NumValue(0.5), Bool(false), NumValue(16.0), NumValue(5.0), NumValue(0.85),
      NumValue(30.0), NumValue(60.0), Arr([]), Arr([]), Bool(false), Bool(false), Bool(false),
      Obj(map["width" := NumValue(1280.0), "height" := NumValue(720.0), "facingMode" := Str("user")]),
      Obj(map["width" := NumValue(640.0), "height" := NumValue(360.0)]),
      Str(""))
  }

  /** The action types the reducer handles. */
  const ActionTypes: set<string> :=
    {"setReady", "imageScaleFactor", "flipHorizontal", "outputStride", "maxPoseDetections",
     "scoreThreshold", "nmsRadius", "updateRateMilis", "poses", "foundKeypoints", "useWebcam",
     "isPlaying", "isTrackingEnabled", "setPoses", "setMessage"}

  /** The field each handled action type writes. */
  function Target(kind: string): FieldId
    requires kind in ActionTypes
  {
    match kind
    case "setReady" => IsReady
    case "imageScaleFactor" => ImageScaleFactor
    case "flipHorizontal" => FlipHorizontal
    case "outputStride" => OutputStride
    case "maxPoseDetections" => MaxPoseDetections
    case "scoreThreshold" => ScoreThreshold
    case "nmsRadius" => NmsRadius
    case "updateRateMilis" => UpdateRateMilis
    case "poses" => Poses
    case "foundKeypoints" => FoundKeypoints
    case "useWebcam" => UseWebcam
    case "isPlaying" => IsPlaying
    case "isTrackingEnabled" => IsTrackingEnabled
    case "setPoses" => Poses
    case "setMessage" => Message
  }

  /** `action.type` when it is a string. */
  function ActionType(action: Value): Option<string>
  {
    if action.Obj? && Get(action.fields, "type").Str? then Some(Get(action.fields, "type").s) else None
  }

  /** `action.payload` for an action that is not null or undefined. */
  function Payload(action: Value): Value
  {
    if action.Obj? then Get(action.fields, "payload") else Undefined
  }

  predicate Handled(action: Value)
  {
    ActionType(action).Some? && ActionType(action).value in ActionTypes
  }

  /**
   * `reducer(state, action)`: `setReady` sets `isReady` to true, every other
   * handled type stores the payload in its one field, and anything else
   * throws.
   */
  function Reduce(s: State, action: Value): (r: Result<State>)
    ensures r.Ok? <==> Handled(action)
    ensures r.Ok? ==> Field(r.value, Target(ActionType(action).value))
                        == if ActionType(action).value == "setReady" then Bool(true) else Payload(action)
    ensures r.Ok? ==> forall f :: f != Target(ActionType(action).value) ==> Field(r.value, f) == Field(s, f)
    ensures r.Thrown? && !IsNullish(action) ==> r.message == "Unexpected action"
    ensures IsNullish(action) ==> r.Thrown? && IsTypeError(r.message)
  {
    match Property(action, "type")
    case Thrown(e) => Thrown(e)
    case Ok(kind) =>
      var payload := Payload(action);
      match kind
      case Str("setReady") => Ok(s.(isReady := Bool(true)))
      case Str("imageScaleFactor") => Ok(s.(imageScaleFactor := payload))
      case Str("flipHorizontal") => Ok(s.(flipHorizontal := payload))
      case Str("outputStride") => Ok(s.(outputStride := payload))
      case Str("maxPoseDetections") => Ok(s.(maxPoseDetections := payload))
      case Str("scoreThreshold") => Ok(s.(scoreThreshold := payload))
      case Str("nmsRadius") => Ok(s.(nmsRadius := payload))
      case Str("updateRateMilis") => Ok(s.(updateRateMilis := payload))
      case Str("poses") => Ok(s.(poses := payload))
      case Str("foundKeypoints") => Ok(s.(foundKeypoints := payload))
      case Str("useWebcam") => Ok(s.(useWebcam := payload))
      case Str("isPlaying") => Ok(s.(isPlaying := payload))
      case Str("isTrackingEnabled") => Ok(s.(isTrackingEnabled := payload))
      case Str("setPoses") => Ok(s.(poses := payload))
      case Str("setMessage") => Ok(s.(message := payload))
      case _ => Thrown("Unexpected action")
  }

  /** `poses` and `setPoses` are two names for one update. */
  lemma PosesAliasesSetPoses(s: State, payload: Value)
    ensures Reduce(s, ActionObject("poses", payload)) == Reduce(s, ActionObject("setPoses", payload))
    ensures Reduce(s, ActionObject("poses", payload)).Ok?
  {
  }

  /** `loadPosenet` dispatches `{ type: 'setReady' }` once the net is loaded. */
  const SetReadyAction: Value := Obj(map["type" := Str("setReady")])

  /** After the net loads, `isReady` holds whatever the state was. */
  lemma LoadingMakesReady(s: State)
    ensures Reduce(s, SetReadyAction).Ok? && Truthy(Reduce(s, SetReadyAction).value.isReady)
  {
    assert ActionType(SetReadyAction) == Some("setReady");
  }

  /**
   * The output-stride select's handler: `dispatch({ type: 'outputStride',
   * payload: val } * 1)`. Multiplying the action object by 1 gives NaN.
   */
  function OutputStrideControl(val: Value): (dispatched: Value)
    ensures !dispatched.Obj? && !IsNullish(dispatched)
  {
    Num(Mul(ToNumber(ActionObject("outputStride", val)), Finite(1.0)))
  }

  /** Whatever stride is chosen, the reducer throws on what the control dispatches. */
  lemma OutputStrideControlThrows(s: State, val: Value)
    ensures Reduce(s, OutputStrideControl(val)) == Thrown("Unexpected action")
  {
  }

  /** The control as evidently intended: `dispatch({ type: 'outputStride', payload: val * 1 })`. */
  function OutputStrideControlFixed(val: Value): (dispatched: Value)
    ensures Handled(dispatched) && Target(ActionType(dispatched).value) == OutputStride
  {
    ActionObject("outputStride", Num(Mul(ToNumber(val), Finite(1.0))))
  }

  /** With the intended control, choosing 8, 16 or 32 stores that number as the stride. */
  lemma OutputStrideControlFixedStores(s: State, stride: real)
    ensures Reduce(s, OutputStrideControlFixed(NumValue(stride))) == Ok(s.(outputStride := NumValue(stride)))
  {
    var r := Reduce(s, OutputStrideControlFixed(NumValue(stride)));
    assert Field(r.value, OutputStride) == NumValue(stride);
    forall f | f != OutputStride
      ensures Field(r.value, f) == Field(s.(outputStride := NumValue(stride)), f)
    {
    }
  }

  /** A detected pose: its confidence and its keypoints (kept as the library returns them). */
  datatype Pose = Pose(score: real, keypoints: seq<Value>)

  /** A pose as the object the page stores: `{ score, keypoints }`. */
  function PoseValue(p: Pose): Value
  {
    Obj(map["score" := NumValue(p.score), "keypoints" := Arr(p.keypoints)])
  }

  /**
   * `fetchPoses`: with `maxPoseDetections === 1` the single-pose estimate
   * `single`; otherwise the multi-pose estimates `multiple` whose score
   * exceeds 0.5, in order.
   */
  function FetchPoses(maxPoseDetections: Value, single: Pose, multiple: seq<Pose>): (found: seq<Pose>)
    ensures maxPoseDetections == NumValue(1.0) ==> found == [single]
    ensures maxPoseDetections != NumValue(1.0) ==>
      && IsSubsequence(found, multiple)
      && (forall i :: 0 <= i < |found| ==> found[i].score > 0.5)
      && (forall i :: 0 <= i < |multiple| && multiple[i].score > 0.5 ==> multiple[i] in found)
      && (forall pose :: multiset(found)[pose] == if pose.score > 0.5 then multiset(multiple)[pose] else 0)
  {
    if maxPoseDetections == NumValue(1.0) then [single]
    else Filter(multiple, (pose: Pose) => pose.score > 0.5)
  }

  /** The effect that starts the timer runs it only while the page is ready and tracking. */
  predicate IntervalRuns(s: State)
  {
    Truthy(s.isReady) && Truthy(s.isTrackingEnabled)
  }

  /** The message the timer stores after a detection. */
  function FoundMessage(n: nat): string
  {
    "Found " + NatToString(n) + " poses"
  }

  /**
   * One timer tick. `captured` is the state of the render that started the
   * timer (the callback closes over it); `currentRef` is `videoRef.current`,
   * `imageElement` what the webcam or player hands over, `net` the loaded
   * net, and `single`/`multiple` what the net estimates for this frame.
   * The result is the list of actions the tick dispatches, in order.
   */
  function TickActions(captured: State, currentRef: Value, imageElement: Value, net: Value,
                       single: Pose, multiple: seq<Pose>): (actions: seq<Value>)
    ensures 1 <= |actions| <= 2
    ensures forall i :: 0 <= i < |actions| ==> Handled(actions[i])
  {
    if !Truthy(currentRef) then
      [ActionObject("setMessage", Str("No input image"))]
    else if !Truthy(imageElement) || !Truthy(net) then
      [ActionObject("setMessage", Str("Image element or net not available"))]
    else
      FoundActions(FetchPoses(captured.maxPoseDetections, single, multiple))
  }

  /** What a tick dispatches once the net found `found`: the message with their count, then the poses. */
  function FoundActions(found: seq<Pose>): (actions: seq<Value>)
    ensures |actions| == 2 && Handled(actions[0]) && Handled(actions[1])
  {
    [ActionObject("setMessage", Str(FoundMessage(|found|))),
     ActionObject("setPoses", Arr(seq(|found|, i requires 0 <= i < |found| => PoseValue(found[i]))))]
  }

  /** Storing what the net found sets exactly the message and the poses. */
  lemma FoundOutcome(s: State, found: seq<Pose>)
    ensures var r := Run(Reduce, s, FoundActions(found));
      && r.Ok?
      && (forall f :: f != Poses && f != Message ==> Field(r.value, f) == Field(s, f))
      && r.value.poses == Arr(seq(|found|, i requires 0 <= i < |found| => PoseValue(found[i])))
      && r.value.message == Str(FoundMessage(|found|))
  {
    var actions := FoundActions(found);
    var mid := Reduce(s, actions[0]);
    assert Run(Reduce, s, actions) == Run(Reduce, mid.value, actions[1..]);
  }

  /**
   * A tick never throws. When input and net are there it stores the poses
   * `fetchPoses` keeps and a message with their count; otherwise it only sets
   * the message. No other field changes.
   */
  lemma TickOutcome(s: State, captured: State, currentRef: Value, imageElement: Value, net: Value,
                    single: Pose, multiple: seq<Pose>)
    ensures var r := Run(Reduce, s, TickActions(captured, currentRef, imageElement, net, single, multiple));
      && r.Ok?
      && (forall f :: f != Poses && f != Message ==> Field(r.value, f) == Field(s, f))
      && (Truthy(currentRef) && Truthy(imageElement) && Truthy(net) ==>
            var found := FetchPoses(captured.maxPoseDetections, single, multiple);
            && r.value.poses == Arr(seq(|found|, i requires 0 <= i < |found| => PoseValue(found[i])))
            && r.value.message == Str(FoundMessage(|found|)))
      && (!(Truthy(currentRef) && Truthy(imageElement) && Truthy(net)) ==> r.value.poses == s.poses)
  {
    if Truthy(currentRef) && Truthy(imageElement) && Truthy(net) {
      FoundOutcome(s, FetchPoses(captured.maxPoseDetections, single, multiple));
    }
  }
}
