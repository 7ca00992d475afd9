/**
 * The COCO-SSD page, JavaScript version (components/CocoSsd.js): a reducer
 * over `[type, payload]` tuples, the effect that clears predictions when
 * tracking is switched off, and the timer callback that starts a prediction.
 * The detector is an input: what `detect` returns for the current frame.
 */
module CocoSsd {
  import opened JsValues
  import opened ReducerStore

  /** The page state. The reducer stores payloads as given, so the fields are JavaScript values. */
  datatype State = State(
    isReady: Value,
    isTrackingEnabled: Value,
    updateMilis: Value,
    predictions: Value,
    videoConstraints: Value)

  datatype FieldId = IsReady | IsTrackingEnabled | UpdateMilis | Predictions | VideoConstraints

  function Field(s: State, f: FieldId): Value
  {
    match f
    case IsReady => s.isReady
    case IsTrackingEnabled => s.isTrackingEnabled
    case UpdateMilis => s.updateMilis
    case Predictions => s.predictions
    case VideoConstraints => s.videoConstraints
  }

  /** `initialState`. */
  function InitialState(): (s: State)
    ensures s.isReady == Bool(false) && s.isTrackingEnabled == Bool(false)
    ensures s.updateMilis == NumValue(300.0) && s.predictions == Arr([])
    ensures forall input :: !PredictionStarts(s, input)
  {
    State(Bool(false), Bool(false), NumValue(300.0), Arr([]),
          Obj(map["width" := NumValue(640.0), "height" := NumValue(480.0), "facingMode" := Str("user")]))
  }

  /** An action tuple `[type, payload]`; a one-element tuple has an undefined payload. */
  datatype Action = Action(kind: string, payload: Value)

  const ActionTypes: set<string> := {"setReady", "setIsTrackingEnabled", "setUpdateMilis", "setPredictions"}

  /** The field each handled action type writes. */
  function Target(kind: string): FieldId
    requires kind in ActionTypes
  {
    match kind
    case "setReady" => IsReady
    case "setIsTrackingEnabled" => IsTrackingEnabled
    case "setUpdateMilis" => UpdateMilis
    case "setPredictions" => Predictions
  }

  /**
   * `reducer(state, [type, payload])`: `setReady` sets `isReady` to true
   * whatever the payload, the other three store the payload in their field,
   * anything else throws.
   */
  function Reduce(s: State, a: Action): (r: Result<State>)
    ensures r.Ok? <==> a.kind in ActionTypes
    ensures r.Thrown? ==> r.message == "Unexpected action"
    ensures r.Ok? ==> Field(r.value, Target(a.kind)) == if a.kind == "setReady" then Bool(true) else a.payload
    ensures r.Ok? ==> forall f :: f != Target(a.kind) ==> Field(r.value, f) == Field(s, f)
  {
    match a.kind
    case "setReady" => Ok(s.(isReady := Bool(true)))
    case "setIsTrackingEnabled" => Ok(s.(isTrackingEnabled := a.payload))
    case "setUpdateMilis" => Ok(s.(updateMilis := a.payload))
    case "setPredictions" => Ok(s.(predictions := a.payload))
    case _ => Thrown("Unexpected action")
  }

  /** The effect on `isTrackingEnabled`: when tracking is off, predictions are cleared. */
  function TrackingEffect(s: State): (actions: seq<Action>)
    ensures actions != [] <==> !Truthy(s.isTrackingEnabled)
  {
    if !Truthy(s.isTrackingEnabled) then [Action("setPredictions", Arr([]))] else []
  }

  /**
   * Switching tracking off (with any falsy value) and running the effect
   * leaves no predictions and changes nothing but those two fields.
   */
  lemma SwitchingTrackingOffClears(s: State, enabled: Value)
    requires !Truthy(enabled)
    ensures var t := Reduce(s, Action("setIsTrackingEnabled", enabled)).value;
      var r := Run(Reduce, t, TrackingEffect(t));
      && r.Ok?
      && r.value.predictions == Arr([])
      && r.value.isTrackingEnabled == enabled
      && forall f :: f != Predictions && f != IsTrackingEnabled ==> Field(r.value, f) == Field(s, f)
  {
  }

  /** The timer callback starts a prediction only when ready, tracking and given the webcam's video. */
  predicate PredictionStarts(s: State, input: Value)
  {
    Truthy(s.isReady) && Truthy(s.isTrackingEnabled) && Truthy(input)
  }

  /**
   * One timer tick: `input` is `webcamRef.current.video` and `detected` what
   * `detect` returns; a started prediction dispatches `setPredictions`.
   */
  function TickActions(s: State, input: Value, detected: Value): (actions: seq<Action>)
    ensures actions != [] <==> PredictionStarts(s, input)
  {
    if PredictionStarts(s, input) then [Action("setPredictions", detected)] else []
  }

  /** A tick stores the detections exactly when a prediction starts, and otherwise changes nothing. */
  lemma TickOutcome(s: State, input: Value, detected: Value)
    ensures Run(Reduce, s, TickActions(s, input, detected))
      == Ok(if PredictionStarts(s, input) then s.(predictions := detected) else s)
  {
  }

  /** `loadNet` dispatches `['setReady']` once the detector is loaded. */
  function LoadedActions(): (actions: seq<Action>)
    ensures forall i :: 0 <= i < |actions| ==> actions[i].kind in ActionTypes
  {
    [Action("setReady", Undefined)]
  }

  /** Loading makes the page ready from any state. */
  lemma LoadingMakesReady(s: State)
    ensures Run(Reduce, s, LoadedActions()) == Ok(s.(isReady := Bool(true)))
  {
  }
}
