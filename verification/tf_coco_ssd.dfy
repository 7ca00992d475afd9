/**
 * The COCO-SSD page, TypeScript version (src/components/ml/TfCocoSsd.tsx):
 * a typed reducer, the effect that clears predictions when tracking is
 * switched off, `predict`, which needs a loaded net, and the timer callback.
 */
module TfCocoSsd {
  import opened JsValues
  import opened ReducerStore

  /** A `DetectedObject`: its box `[x, y, width, height]`, class and score. */
  datatype Detection = Detection(bbox: seq<real>, objectClass: string, score: real)

  datatype VideoConstraints = VideoConstraints(width: real, height: real, facingMode: string)

  datatype State = State(
    isReady: bool,
    isTrackingEnabled: bool,
    updateMilis: real,
    predictions: seq<Detection>,
    videoConstraints: VideoConstraints)

  /** The four `type` names of the `Action` union. */
  const ListedTypes: set<string> := {"setReady", "setIsTrackingEnabled", "setUpdateMilis", "setPredictions"}

  /** A `type` name outside the union. */
  type UnlistedType = kind: string | kind !in ListedTypes witness ""

  /**
   * The `Action` union. `Unlisted` stands for an action of any other type,
   * which the type checker rejects but the reducer's default branch handles.
   */
  datatype Action =
    | SetReady
    | SetIsTrackingEnabled(enabled: bool)
    | SetUpdateMilis(milis: real)
    | SetPredictions(predictions: seq<Detection>)
    | Unlisted(kind: UnlistedType)

  datatype FieldId = IsReady | IsTrackingEnabled | UpdateMilis | Predictions | VideoConstraintsField

  /** `s` and `t` agree on field `f`. */
  predicate Agree(s: State, t: State, f: FieldId)
  {
    match f
    case IsReady => s.isReady == t.isReady
    case IsTrackingEnabled => s.isTrackingEnabled == t.isTrackingEnabled
    case UpdateMilis => s.updateMilis == t.updateMilis
    case Predictions => s.predictions == t.predictions
    case VideoConstraintsField => s.videoConstraints == t.videoConstraints
  }

  /** `initialState`. */
  function InitialState(): (s: State)
    ensures !s.isReady && !s.isTrackingEnabled && s.updateMilis == 300.0 && s.predictions == []
    ensures forall input: bool :: !PredictionStarts(s, input)
  {
    State(false, false, 300.0, [], VideoConstraints(640.0, 480.0, "user"))
  }

  /** The field a listed action writes. */
  function Target(a: Action): FieldId
    requires !a.Unlisted?
  {
    match a
    case SetReady => IsReady
    case SetIsTrackingEnabled(_) => IsTrackingEnabled
    case SetUpdateMilis(_) => UpdateMilis
    case SetPredictions(_) => Predictions
  }

  /**
   * `reducer(state, action)`: each listed action sets its own field (`setReady`
   * to true) and keeps the others; any other type throws.
   */
  function Reduce(s: State, a: Action): (r: Result<State>)
    ensures r.Ok? <==> !a.Unlisted?
    ensures r.Thrown? ==> r.message == "Unexpected action"
    ensures r.Ok? ==> forall f :: f != Target(a) ==> Agree(s, r.value, f)
    ensures a.SetReady? ==> r.Ok? && r.value.isReady
    ensures a.SetIsTrackingEnabled? ==> r.Ok? && r.value.isTrackingEnabled == a.enabled
    ensures a.SetUpdateMilis? ==> r.Ok? && r.value.updateMilis == a.milis
    ensures a.SetPredictions? ==> r.Ok? && r.value.predictions == a.predictions
  {
    match a
    case SetReady => Ok(s.(isReady := true))
    case SetIsTrackingEnabled(enabled) => Ok(s.(isTrackingEnabled := enabled))
    case SetUpdateMilis(milis) => Ok(s.(updateMilis := milis))
    case SetPredictions(predictions) => Ok(s.(predictions := predictions))
    case Unlisted(_) => Thrown("Unexpected action")
  }

  /** The effect on `isTrackingEnabled`: when tracking is off, predictions are cleared. */
  function TrackingEffect(s: State): (actions: seq<Action>)
    ensures actions != [] <==> !s.isTrackingEnabled
  {
    if !s.isTrackingEnabled then [SetPredictions([])] else []
  }

  /** Unticking the checkbox and running the effect leaves tracking off and no predictions; nothing else changes. */
  lemma SwitchingTrackingOffClears(s: State)
    ensures var t := Reduce(s, SetIsTrackingEnabled(false)).value;
      var r := Run(Reduce, t, TrackingEffect(t));
      && r.Ok?
      && !r.value.isTrackingEnabled && r.value.predictions == []
      && Agree(s, r.value, IsReady) && Agree(s, r.value, UpdateMilis) && Agree(s, r.value, VideoConstraintsField)
  {
  }

  /** `predict(input)`: dispatches the detections when the net is loaded, nothing otherwise. */
  function Predict(netLoaded: bool, detected: seq<Detection>): (actions: seq<Action>)
    ensures !netLoaded ==> actions == []
    ensures netLoaded ==> actions == [SetPredictions(detected)]
  {
    if netLoaded then [SetPredictions(detected)] else []
  }

  /** The timer callback predicts only when ready, tracking and given the webcam's video element. */
  predicate PredictionStarts(s: State, hasInput: bool)
  {
    s.isReady && s.isTrackingEnabled && hasInput
  }

  /** One timer tick: what it dispatches through `predict`. */
  function TickActions(s: State, hasInput: bool, netLoaded: bool, detected: seq<Detection>): (actions: seq<Action>)
    ensures actions != [] <==> PredictionStarts(s, hasInput) && netLoaded
  {
    if PredictionStarts(s, hasInput) then Predict(netLoaded, detected) else []
  }

  /** A tick replaces the predictions only when a prediction starts with a loaded net; otherwise nothing changes. */
  lemma TickOutcome(s: State, hasInput: bool, netLoaded: bool, detected: seq<Detection>)
    ensures Run(Reduce, s, TickActions(s, hasInput, netLoaded, detected))
      == Ok(if PredictionStarts(s, hasInput) && netLoaded then s.(predictions := detected) else s)
  {
  }
}
