/**
 * The drawing surface (components/Drawing.js): a reducer over
 * `[type, payload]` tuples whose `setupCanvas` case spreads its payload into
 * the state, the mouse handlers, the `clear` handle and the effect that calls
 * `onUpdate`. The state is a plain object, so it is a map from keys to values.
 * The canvas, its 2D context and the stage's pointer are inputs.
 */
module Drawing {
  import opened JsValues
  import opened ReducerStore

  type State = map<string, Value>

  /** `initialState`. */
  function InitialState(): (s: State)
    ensures s.Keys == {"canvas", "context", "isDrawing", "isReady", "lastPointerPosition"}
    ensures s["isDrawing"] == Bool(false) && s["isReady"] == Bool(false) && s["lastPointerPosition"] == Null
    ensures !InStroke(s) && !OnUpdateFires(s)
  {
    map["canvas" := Null, "context" := Null, "isDrawing" := Bool(false), "isReady" := Bool(false),
        "lastPointerPosition" := Null]
  }

  /**
   * The own enumerable fields that `...v` contributes to an object literal:
   * an object's fields, the elements of an array or the characters of a string
   * under their index, and nothing for any other value.
   */
  function SpreadFields(v: Value): (fields: map<string, Value>)
    ensures v.Obj? ==> fields == v.fields
    ensures IsNullish(v) || v.Bool? || v.Num? ==> fields == map[]
  {
    match v
    case Obj(fields) => fields
    case Arr(items) => map i | 0 <= i < |items| :: NatToString(i) := items[i]
    case Str(s) => map i | 0 <= i < |s| :: NatToString(i) := Str([s[i]])
    case _ => map[]
  }

  /** An action tuple `[type, payload]`. */
  datatype Action = Action(kind: string, payload: Value)

  const ActionTypes: set<string> := {"setupCanvas", "isDrawing", "updatePointerPosition"}

  /**
   * `reducer(state, [type, payload])`. `setupCanvas` merges the payload's
   * fields over the state and then sets `isReady` to true, whatever the
   * payload said; the two other types store the payload under one key; any
   * other type throws.
   */
  function Reduce(s: State, a: Action): (r: Result<State>)
    ensures r.Ok? <==> a.kind in ActionTypes
    ensures r.Thrown? ==> r.message == "unknown action"
    ensures a.kind == "setupCanvas" ==>
      && r.Ok?
      && r.value.Keys == s.Keys + SpreadFields(a.payload).Keys + {"isReady"}
      && r.value["isReady"] == Bool(true)
      && (forall k :: k != "isReady" && k in SpreadFields(a.payload) ==> r.value[k] == SpreadFields(a.payload)[k])
      && (forall k :: k != "isReady" && k !in SpreadFields(a.payload) ==> Get(r.value, k) == Get(s, k))
    ensures a.kind == "isDrawing" || a.kind == "updatePointerPosition" ==>
      var key := if a.kind == "isDrawing" then "isDrawing" else "lastPointerPosition";
      && r.Ok?
      && r.value.Keys == s.Keys + {key}
      && r.value[key] == a.payload
      && forall k :: k != key ==> Get(r.value, k) == Get(s, k)
  {
    match a.kind
    case "setupCanvas" => Ok((s + SpreadFields(a.payload))["isReady" := Bool(true)])
    case "isDrawing" => Ok(s["isDrawing" := a.payload])
    case "updatePointerPosition" => Ok(s["lastPointerPosition" := a.payload])
    case _ => Thrown("unknown action")
  }

  /** The mount effect: a fresh canvas and its 2D context are handed to `setupCanvas`. */
  function SetupActions(canvas: Value, context: Value): (actions: seq<Action>)
    ensures forall i :: 0 <= i < |actions| ==> actions[i].kind in ActionTypes
  {
    [Action("setupCanvas", Obj(map["canvas" := canvas, "context" := context]))]
  }

  /** After mounting, the surface is ready, holds the canvas and its context, and is not drawing. */
  lemma SetupMakesReady(canvas: Value, context: Value)
    ensures var r := Run(Reduce, InitialState(), SetupActions(canvas, context));
      && r.Ok?
      && r.value == InitialState()["canvas" := canvas]["context" := context]["isReady" := Bool(true)]
      && Ready(r.value) && !InStroke(r.value)
  {
    var payload := Obj(map["canvas" := canvas, "context" := context]);
    var r := Reduce(InitialState(), Action("setupCanvas", payload));
    assert r.value.Keys == InitialState().Keys;
  }

  predicate Ready(s: State)
  {
    Truthy(Get(s, "isReady"))
  }

  /** A stroke is in progress: both `isReady` and `isDrawing` are truthy. */
  predicate InStroke(s: State)
    ensures InStroke(s) ==> Ready(s)
  {
    Ready(s) && Truthy(Get(s, "isDrawing"))
  }

  /** `handleMouseDown`: nothing before the canvas is ready, otherwise start drawing at the pointer. */
  function MouseDownActions(s: State, pointer: Value): (actions: seq<Action>)
    ensures !Ready(s) ==> actions == []
  {
    if !Ready(s) then []
    else [Action("isDrawing", Bool(true)), Action("updatePointerPosition", pointer)]
  }

  /** `handleMouseUp`: always stop drawing. */
  function MouseUpActions(): (actions: seq<Action>)
    ensures forall i :: 0 <= i < |actions| ==> actions[i].kind in ActionTypes
  {
    [Action("isDrawing", Bool(false))]
  }

  /**
   * `handleMouseMove` with the stage pointer at `(px, py)` and the image at
   * `(ix, iy)`: nothing unless a stroke is in progress; then setting the
   * context's stroke style fails when there is no context and reading the
   * last pointer's `x` fails when there is no last pointer; otherwise the
   * pointer, relative to the image, becomes the last pointer. The context is
   * what `getContext('2d')` returned, a host object or null.
   */
  function MouseMoveActions(s: State, px: real, py: real, ix: real, iy: real): (r: Result<seq<Action>>)
    ensures !InStroke(s) ==> r == Ok([])
    ensures r.Thrown? <==> InStroke(s) && (IsNullish(Get(s, "context")) || IsNullish(Get(s, "lastPointerPosition")))
    ensures r.Ok? && InStroke(s) ==>
      r.value == [Action("updatePointerPosition", Obj(map["x" := NumValue(px - ix), "y" := NumValue(py - iy)]))]
  {
    if !InStroke(s) then Ok([])
    else if IsNullish(Get(s, "context")) then Thrown(TypeError("cannot set properties of null"))
    else if IsNullish(Get(s, "lastPointerPosition")) then Thrown(TypeError("cannot read properties of null"))
    else Ok([Action("updatePointerPosition", Obj(map["x" := NumValue(px - ix), "y" := NumValue(py - iy)]))])
  }

  /**
   * The `clear` handle: `Ok(false)` when it returns early because the canvas
   * is not ready, `Ok(true)` when it paints the canvas white, and a throw when
   * there is no context to paint with. The context is what
   * `getContext('2d')` returned, a host object or null.
   */
  function Clear(s: State): (r: Result<bool>)
    ensures r == Ok(false) <==> !Ready(s)
    ensures r == Ok(true) <==> Ready(s) && !IsNullish(Get(s, "context"))
  {
    if !Ready(s) then Ok(false)
    else if IsNullish(Get(s, "context")) then Thrown(TypeError("cannot set properties of null"))
    else Ok(true)
  }

  /**
   * The body of the effect on `isDrawing` and `lastPointerPosition`: when the
   * effect runs, which is after one of the two changed, it calls `onUpdate`
   * exactly when not drawing and a pointer is known.
   */
  predicate OnUpdateFires(s: State)
    ensures OnUpdateFires(s) ==> !InStroke(s)
  {
    !Truthy(Get(s, "isDrawing")) && Truthy(Get(s, "lastPointerPosition"))
  }

  /** Pressing the mouse before the canvas is ready changes nothing. */
  lemma MouseDownBeforeReady(s: State, pointer: Value)
    requires !Ready(s)
    ensures Run(Reduce, s, MouseDownActions(s, pointer)) == Ok(s)
  {
  }

  /**
   * A stroke on a ready surface: pressing starts drawing at the pointer and
   * does not fire `onUpdate`; releasing stops drawing, fires `onUpdate`
   * exactly when the pointer is known, and leaves every other key alone.
   */
  lemma StrokeFiresOnUpdate(s: State, pointer: Value)
    requires Ready(s)
    ensures var down := Run(Reduce, s, MouseDownActions(s, pointer));
      && down.Ok? && InStroke(down.value) && !OnUpdateFires(down.value)
      && Get(down.value, "lastPointerPosition") == pointer
    ensures var up := Run(Reduce, s, MouseDownActions(s, pointer) + MouseUpActions());
      && up.Ok? && !InStroke(up.value)
      && (OnUpdateFires(up.value) <==> Truthy(pointer))
      && forall k :: k != "isDrawing" && k != "lastPointerPosition" ==> Get(up.value, k) == Get(s, k)
  {
    RunAppend(Reduce, s, MouseDownActions(s, pointer), MouseUpActions());
  }

  /** A mouse up always sets `isDrawing` to false, from any state, and changes nothing else. */
  lemma MouseUpStopsDrawing(s: State)
    ensures Run(Reduce, s, MouseUpActions()).Ok?
    ensures var t := Run(Reduce, s, MouseUpActions()).value;
      && Get(t, "isDrawing") == Bool(false) && !InStroke(t)
      && forall k :: k != "isDrawing" ==> Get(t, k) == Get(s, k)
  {
  }
}
