/**
 * The pix2pix eye page (components/Bakarlar.js): a reducer over
 * `[type, payload]` tuples, the timer callback that starts a transfer, the
 * transfer's dispatches and the GUI controls. The pix2pix model and the
 * canvas snapshot are inputs.
 */
module Bakarlar {
  import opened JsValues
  import opened Seqs
  import opened ReducerStore

  /**
   * The page state. `result` is absent from the initial state until
   * `setResult` adds it, so it is optional; the other keys always exist.
   */
  datatype State = State(
    size: Value,
    outerRingSize: Value,
    pupilSize: Value,
    isReady: Value,
    isTransfering: Value,
    mouseVec: Value,
    blurAmount: Value,
    noiseAmount: Value,
    updateMilis: Value,
    isTrackingEnabled: Value,
    result: Option<Value>)

  datatype FieldId =
    | Size | OuterRingSize | PupilSize | IsReady | IsTransfering | MouseVec
    | BlurAmount | NoiseAmount | UpdateMilis | IsTrackingEnabled | ResultField

  /** The value of a key of the state object; `None` when the key is absent. */
  function Field(s: State, f: FieldId): Option<Value>
  {
    match f
    case Size => Some(s.size)
    case OuterRingSize => Some(s.outerRingSize)
    case PupilSize => Some(s.pupilSize)
    case IsReady => Some(s.isReady)
    case IsTransfering => Some(s.isTransfering)
    case MouseVec => Some(s.mouseVec)
    case BlurAmount => Some(s.blurAmount)
    case NoiseAmount => Some(s.noiseAmount)
    case UpdateMilis => Some(s.updateMilis)
    case IsTrackingEnabled => Some(s.isTrackingEnabled)
    case ResultField => s.result
  }

  /** `initialState`; the mouse starts at `(256 / 2, 246 / 2)`. */
  function InitialState(): (s: State)
    ensures s.size == NumValue(256.0) && s.outerRingSize == NumValue(158.0) && s.pupilSize == NumValue(54.0)
    ensures s.updateMilis == NumValue(60.0) && s.isTrackingEnabled == Bool(true) && s.isReady == Bool(false)
    ensures s.result.None? && !ResultShown(s)
    ensures !TransferStarts(s)
  {
    State(NumValue(256.0), NumValue(158.0), NumValue(54.0), Bool(false), Bool(false),
          Obj(map["x" := NumValue(128.0), "y" := NumValue(123.0)]),
          NumValue(3.0), NumValue(1.0), NumValue(60.0), Bool(true), None)
  }

  /** An action tuple `[type, payload]`. */
  datatype Action = Action(kind: string, payload: Value)

  const ActionTypes: set<string> := {
    "setIsReady", "setIsTransfering", "setIsTrackingEnabled", "setMouseVec", "setResult",
    "setOuterRingSize", "setPupilSize", "setBlur", "setNoise"}

  /** The key each handled action type writes. */
  function Target(kind: string): FieldId
    requires kind in ActionTypes
  {
    match kind
    case "setIsReady" => IsReady
    case "setIsTransfering" => IsTransfering
    case "setIsTrackingEnabled" => IsTrackingEnabled
    case "setMouseVec" => MouseVec
    case "setResult" => ResultField
    case "setOuterRingSize" => OuterRingSize
    case "setPupilSize" => PupilSize
    case "setBlur" => BlurAmount
    case "setNoise" => NoiseAmount
  }

  /** `reducer(state, [type, payload])`: each of the nine types stores the payload under its key; any other type throws. */
  function Reduce(s: State, a: Action): (r: Result<State>)
    ensures r.Ok? <==> a.kind in ActionTypes
    ensures r.Thrown? ==> r.message == "unknown action"
    ensures r.Ok? ==> Field(r.value, Target(a.kind)) == Some(a.payload)
    ensures r.Ok? ==> forall f :: f != Target(a.kind) ==> Field(r.value, f) == Field(s, f)
  {
    match a.kind
    case "setIsReady" => Ok(s.(isReady := a.payload))
    case "setIsTransfering" => Ok(s.(isTransfering := a.payload))
    case "setIsTrackingEnabled" => Ok(s.(isTrackingEnabled := a.payload))
    case "setMouseVec" => Ok(s.(mouseVec := a.payload))
    case "setResult" => Ok(s.(result := Some(a.payload)))
    case "setOuterRingSize" => Ok(s.(outerRingSize := a.payload))
    case "setPupilSize" => Ok(s.(pupilSize := a.payload))
    case "setBlur" => Ok(s.(blurAmount := a.payload))
    case "setNoise" => Ok(s.(noiseAmount := a.payload))
    case _ => Thrown("unknown action")
  }

  /** The result image is drawn when `state.result` is truthy; an absent key reads as undefined. */
  predicate ResultShown(s: State)
  {
    s.result.Some? && Truthy(s.result.value)
  }

  /** The result is shown after `setResult` exactly when the image is truthy, whatever came before. */
  lemma SetResultShows(s: State, image: Value)
    ensures Reduce(s, Action("setResult", image)).Ok?
    ensures ResultShown(Reduce(s, Action("setResult", image)).value) <==> Truthy(image)
  {
  }

  /** `modelLoaded`, the model's load callback. */
  function ModelLoadedActions(): (actions: seq<Action>)
    ensures forall i :: 0 <= i < |actions| ==> actions[i].kind in ActionTypes
  {
    [Action("setIsReady", Bool(true))]
  }

  /** Once the model is loaded the page is ready, and nothing else changes. */
  lemma ModelLoadingMakesReady(s: State)
    ensures Run(Reduce, s, ModelLoadedActions()) == Ok(s.(isReady := Bool(true)))
    ensures !TransferStarts(s) && Truthy(s.isTrackingEnabled) ==> TransferStarts(Run(Reduce, s, ModelLoadedActions()).value)
  {
  }

  /** The timer callback returns early unless both `isReady` and `isTrackingEnabled` are truthy. */
  predicate TransferStarts(s: State)
  {
    Truthy(s.isReady) && Truthy(s.isTrackingEnabled)
  }

  /** What a tick dispatches at once: `predict` marks the transfer as running. */
  function TickActions(s: State): (actions: seq<Action>)
    ensures actions != [] <==> TransferStarts(s)
  {
    if TransferStarts(s) then [Action("setIsTransfering", Bool(true))] else []
  }

  /** The transfer's callback: the transfer is over and its image is the result. */
  function TransferDoneActions(image: Value): (actions: seq<Action>)
    ensures forall i :: 0 <= i < |actions| ==> actions[i].kind in ActionTypes
  {
    [Action("setIsTransfering", Bool(false)), Action("setResult", image)]
  }

  /**
   * A tick followed by the transfer's callback: when the transfer starts,
   * it ends with `isTransfering` false and the image as result, nothing else
   * changed; a tick that does not start one changes nothing.
   */
  lemma TransferOutcome(s: State, image: Value)
    ensures Run(Reduce, s, TickActions(s)) == Ok(if TransferStarts(s) then s.(isTransfering := Bool(true)) else s)
    ensures TransferStarts(s) ==>
      Run(Reduce, s, TickActions(s) + TransferDoneActions(image))
        == Ok(s.(isTransfering := Bool(false), result := Some(image)))
  {
    if TransferStarts(s) {
      RunAppend(Reduce, s, TickActions(s), TransferDoneActions(image));
    }
  }

  /** `handleMouseMove` stores the pupil position; the position's arithmetic is an input here. */
  function MouseMoveActions(x: real, y: real): (actions: seq<Action>)
    ensures forall i :: 0 <= i < |actions| ==> actions[i].kind in ActionTypes
  {
    [Action("setMouseVec", Obj(map["x" := NumValue(x), "y" := NumValue(y)]))]
  }

  /** Moving the mouse moves the pupil and nothing else. */
  lemma MouseMoveMovesPupil(s: State, x: real, y: real)
    ensures Run(Reduce, s, MouseMoveActions(x, y))
      == Ok(s.(mouseVec := Obj(map["x" := NumValue(x), "y" := NumValue(y)])))
  {
  }

  /** The "update interval" control's `onChange`. */
  function UpdateIntervalControl(val: Value): (a: Action)
    ensures a.payload == val && a.kind !in ActionTypes
  {
    Action("setUpdateMilis", val)
  }

  /** The reducer has no case for the update interval control's action, so it throws. */
  lemma UpdateIntervalControlThrows(s: State, val: Value)
    ensures Reduce(s, UpdateIntervalControl(val)) == Thrown("unknown action")
  {
  }

  /** Whatever is dispatched, a run that does not throw leaves `updateMilis` as it was. */
  lemma {:induction false} UpdateMilisNeverChanges(s: State, actions: seq<Action>)
    ensures Run(Reduce, s, actions).Ok? ==> Run(Reduce, s, actions).value.updateMilis == s.updateMilis
    decreases |actions|
  {
    if actions != [] {
      match Reduce(s, actions[0])
      case Thrown(_) =>
      case Ok(next) => UpdateMilisNeverChanges(next, actions[1..]);
    }
  }

  /** The reducer with the missing case added: `setUpdateMilis` stores the payload. */
  function ReduceFixed(s: State, a: Action): (r: Result<State>)
    ensures a.kind != "setUpdateMilis" ==> r == Reduce(s, a)
    ensures a.kind == "setUpdateMilis" ==>
      && r.Ok?
      && Field(r.value, UpdateMilis) == Some(a.payload)
      && forall f :: f != UpdateMilis ==> Field(r.value, f) == Field(s, f)
  {
    if a.kind == "setUpdateMilis" then Ok(s.(updateMilis := a.payload)) else Reduce(s, a)
  }

  /** With the missing case, the control sets the update interval and changes nothing else. */
  lemma UpdateIntervalControlFixed(s: State, val: Value)
    ensures ReduceFixed(s, UpdateIntervalControl(val)).Ok?
    ensures var t := ReduceFixed(s, UpdateIntervalControl(val)).value;
      Field(t, UpdateMilis) == Some(val) && forall f :: f != UpdateMilis ==> Field(t, f) == Field(s, f)
  {
  }
}
