# tfjs-react-playground: the page logic, verified in Dafny

`tfjs-react-playground` is a set of React pages that demonstrate TensorFlow.js
models: pose tracking with PoseNet and MoveNet, COCO-SSD object detection, a
pix2pix "eye" toy, a drawing surface and two small regression demos. Most of
each page is rendering, camera plumbing and calls into ML libraries. What
decides the page's behaviour is a small amount of pure logic, and this project
models that logic and proves properties of it:

- **Reducer state machines.** Each page keeps its settings in a `useReducer`
  record. Every page's reducer is modelled as a function from a state and an
  action to `Ok(new state)` or `Thrown(message)`. Each one carries a frame
  contract: each action type writes exactly its own field and leaves every
  other field alone, and unknown types throw. Event handlers, effects and timer callbacks
  are functions that return the actions they dispatch. `ReducerStore.Run`
  applies such a list, stopping at the first throw, so their effect on the
  state is stated and proved. `ReducerStore.Store` is `useReducer` itself: a
  class whose `Dispatch` replaces the state with the reducer's result.
- **Guards.** A small predicate over the state decides whether a timer tick,
  a mouse handler or an `onUpdate` call does anything. The tick lemmas prove
  that a tick which fails its guard changes nothing.
- **Keypoint-to-skeleton pairing.** Two skeleton renderers look keypoints up
  by name with `find`: `components/Skeleton.js` and the `Skeleton` in the
  pose-detection page. A line is drawn only when both endpoints are found,
  and it runs between the first matches.
- **Row cleaning.** Fetched JSON rows become typed records. The sleep data
  (`"H:MM"` becomes minutes and `"Q%"` becomes a fraction) is a `map`. The
  car data is a `map` followed by a `filter` that drops rows with missing
  values.
- **The training form.** The linear-regression page has a form schema and
  default values. Its `onSubmit` guard ignores a submit while `isTraining` is
  set. The Stop Training button clears that flag without ending the running
  training, so a later submit calls `trainModel` again on the same model;
  what `fit` then does with that call is the library's. A training whose
  promise rejects leaves the flag set, and later submits are then ignored.

Modules:
- `JsValues` holds the JavaScript values the pages handle and the coercions
  they rely on: truthiness, `!= null`, property reads that throw on null,
  `* 1` and `split`. `parseInt` is in `LinearRegression`.
- `Seqs` holds `find` and `filter`.
- `ReducerStore` holds the `Run` fold and the `Store` class.
- There is one module per page file: `PosenetTracker`, `TfPosenet`, `CocoSsd`,
  `TfCocoSsd`, `Bakarlar`, `Drawing`, `Skeleton`, `SleepData` and
  `LinearRegression`.

Numbers are `real` (finite) or `NaN`, without floating-point rounding.
Untyped reducers keep `Value` fields, because they store whatever payload
arrives. The TypeScript COCO-SSD reducer has typed fields. Two states are
plain objects that can gain keys: the pose-detection page (computed key) and
the drawing surface (payload spread). Those two states are maps from key to
value.

## Model

| member | source | states |
|---|---|---|
| JsValues.Property | components/Skeleton.js:10-11 | reading a property throws exactly on null and undefined, and gives an object's own field (undefined when absent) |
| JsValues.ToNumber | components/Predict2dData.js:60 | `v * 1` coerces numbers to themselves, strings by their digits, and objects, host objects and undefined to NaN; an array coerces through its joined text: `[]` is 0, two or more elements are NaN, and one element is that element's number (0 for null or undefined, NaN for a boolean) |
| JsValues.SingletonArrayCoerces | components/Predict2dData.js:60 | a one-element array of a number, a string or an array multiplies like the element itself |
| JsValues.Split | components/Predict2dData.js:48 | `split` gives at least one part, no part contains the separator, and there are at most `length + 1` parts |
| JsValues.SplitJoin | components/Predict2dData.js:48 | joining the parts of a split with the separator gives back the string |
| JsValues.SplitAtFirst | components/Predict2dData.js:48-50 | a prefix without the separator is the first part, and the rest splits on its own |
| JsValues.NatToString | components/PosenetTracker.js:193 | the text of a count is all digits, and its value is the count |
| Seqs.FirstIndex | components/Skeleton.js:6 | the index found holds the first element that passes; none is found only when no element passes |
| Seqs.Find | components/Skeleton.js:6 | `find` gives undefined exactly when no element passes, and otherwise the first element that passes |
| Seqs.Filter | components/PosenetTracker.js:112 | `filter` keeps an order-preserving subsequence of the input in which every passing element occurs exactly as often as in the input and no failing element occurs |
| Seqs.FilterKeepsAll | src/app/tf-linear-regression/client.tsx:84 | when every element passes, filtering returns the input unchanged |
| Seqs.FilterDropsAll | components/PosenetTracker.js:112 | when no element passes, filtering returns the empty list |
| ReducerStore.Run | components/CocoSsd.js:38 | dispatching nothing keeps the state, and dispatching one action gives the reducer's result |
| ReducerStore.RunAppend | components/CocoSsd.js:38 | dispatching `a` and then `b` is the same as dispatching `a + b`, and a throw stops everything after it |
| ReducerStore.Store.constructor | components/CocoSsd.js:38 | the store starts with the initial state |
| ReducerStore.Store.Dispatch | components/CocoSsd.js:38 | `dispatch` replaces the state with the reducer's result, and does nothing once the reducer has thrown |
| ReducerStore.Store.DispatchAll | components/PosenetTracker.js:193-194 | a handler's dispatches in order leave the store where `Run` says |
| PosenetTracker.InitialState | components/PosenetTracker.js:20-44 | the initial state is not ready, has no poses, and has max poses 5, stride 16, NMS radius 30 and update rate 60; the timer does not run |
| PosenetTracker.Reduce | components/PosenetTracker.js:46-82 | it succeeds iff the type is one of the 15 handled types; `setReady` sets `isReady` true and every other type stores the payload in its one field; all other fields are unchanged; any other type throws "Unexpected action", and a null or undefined action throws a TypeError |
| PosenetTracker.PosesAliasesSetPoses | components/PosenetTracker.js:65-66 | `poses` and `setPoses` have the same effect, and neither throws |
| PosenetTracker.LoadingMakesReady | components/PosenetTracker.js:146-150 | after the net loads the page is ready, whatever the state was |
| PosenetTracker.OutputStrideControl | components/PosenetTracker.js:313-314 | the output-stride control dispatches a non-null value that is not an object |
| PosenetTracker.OutputStrideControlThrows | components/PosenetTracker.js:314 | whatever stride is chosen, the reducer throws "Unexpected action" on what the control dispatches |
| PosenetTracker.OutputStrideControlFixed | components/PosenetTracker.js:309-316 | the intended control dispatches a handled action that targets `outputStride` |
| PosenetTracker.OutputStrideControlFixedStores | components/PosenetTracker.js:55-56 | with the intended control, the chosen stride is stored and nothing else changes |
| PosenetTracker.FetchPoses | components/PosenetTracker.js:84-115 | with `maxPoseDetections === 1` the result is exactly the single pose; otherwise it is the order-preserving subsequence of the poses in which each pose scoring above 0.5 occurs as often as among the estimated poses and no other pose occurs |
| PosenetTracker.IntervalRuns | components/PosenetTracker.js:159 | the timer is started only while `isReady` and `isTrackingEnabled` are both truthy |
| PosenetTracker.TickActions | components/PosenetTracker.js:161-197 | a tick dispatches one or two actions, and the reducer handles all of them |
| PosenetTracker.FoundActions | components/PosenetTracker.js:193-194 | once the net has found poses, the tick dispatches two actions, the message and then the poses, and the reducer handles both |
| PosenetTracker.FoundOutcome | components/PosenetTracker.js:193-194 | dispatching what the net found stores exactly those poses and "Found n poses", and changes no other field |
| PosenetTracker.TickOutcome | components/PosenetTracker.js:157-204 | a tick never throws and changes only `poses` and `message`; with input and net it stores the poses `fetchPoses` keeps and "Found n poses"; otherwise the poses stay |
| TfPosenet.InitialState | src/app/tf-posenet/client.tsx:68-89 | the keys are the declared fields; not ready, no detector, no poses, max poses 1, update interval 100; the tick guard fails |
| TfPosenet.Reduce | src/app/tf-posenet/client.tsx:91-108 | it succeeds iff the type is one of the 11 listed; it writes the payload under `type.slice(3)` and only there; the key set grows by that key; other types throw "Unexpected action" |
| TfPosenet.Slice | src/app/tf-posenet/client.tsx:104 | `slice(start)` drops the first `start` characters and keeps the rest in place |
| TfPosenet.WrittenKeyNotDeclared | src/app/tf-posenet/client.tsx:32-53 | every key the reducer writes starts with a capital letter and is not a declared field |
| TfPosenet.DeclaredFieldsNeverChange | src/app/tf-posenet/client.tsx:104 | for any sequence of actions, a run that does not throw leaves every declared field as it was |
| TfPosenet.TrackingNeverRuns | src/app/tf-posenet/client.tsx:219 | from the initial state, no sequence of actions makes the tick guard hold |
| TfPosenet.TickRuns | src/app/tf-posenet/client.tsx:219 | the timer callback proceeds only when `isReady`, `isTrackingEnabled` and `detector` are all truthy |
| TfPosenet.IntendedField | src/app/tf-posenet/client.tsx:55-66 | each listed action type names a declared field |
| TfPosenet.ReduceFixed | src/app/tf-posenet/client.tsx:91-108 | the intended reducer writes the payload to the action's own declared field and changes nothing else |
| TfPosenet.FixedReducerCanTrack | src/app/tf-posenet/client.tsx:210-219 | with the intended reducer, loading a detector and enabling tracking makes the tick guard hold, from any state |
| TfPosenet.LoadedActions | src/app/tf-posenet/client.tsx:210-211 | the load dispatches the detector and then `setReady`, both types the reducer handles |
| TfPosenet.LoadDetector | src/app/tf-posenet/client.tsx:180-212 | it succeeds iff the model is MoveNet, BlazePose or PoseNet, and its dispatches then never throw; with the intended reducer they leave the page ready and holding the new detector; otherwise it throws "Unsupported model" |
| TfPosenet.TickActions | src/app/tf-posenet/client.tsx:218-243 | a tick dispatches nothing iff the guard fails; everything it dispatches is handled |
| TfPosenet.ConnectionLine | src/app/tf-posenet/client.tsx:153-160 | a connection is drawn iff both names occur; its endpoints are the first keypoints with those names; the stroke is `#00F` with width 2 |
| TfPosenet.Skeleton | src/app/tf-posenet/client.tsx:121-172 | one slot per connection (16, in order), and one red circle of radius 3 per keypoint, in order, at the keypoint's position |
| Skeleton.CircleStyle | components/Skeleton.js:36-46 | a circle style exists exactly for the eyes, ears and nose: white radius 4 for the eyes, gray radius 3 for the ears, red radius 5 for the nose |
| Skeleton.RenderCircleForKeypoint | components/Skeleton.js:5-16 | it succeeds iff a keypoint has the part, and the circle sits on the first such keypoint; otherwise reading its position is a TypeError |
| Skeleton.KeypointCircle | components/Skeleton.js:35-48 | an entry is drawn exactly for eyes, ears and nose, on the first keypoint of that part and with that part's colour and radius; the lookup never fails |
| Skeleton.CircleOnOwnKeypoint | components/Skeleton.js:35-48 | when no part repeats, every circle sits on its own keypoint |
| Skeleton.RenderLineForPair | components/Skeleton.js:18-31 | the points are non-empty iff both parts occur, and are `[x1, y1, x2, y2]` of the first matches |
| Skeleton.Render | components/Skeleton.js:33-68 | one entry per keypoint, in order, and always 12 lines for the fixed pairs: the first 8 green, the last 4 cyan |
| CocoSsd.InitialState | components/CocoSsd.js:8-18 | not ready, not tracking, update interval 300, no predictions; no prediction starts, whatever the video input |
| CocoSsd.Reduce | components/CocoSsd.js:20-35 | it succeeds iff the type is one of the 4 handled types; `setReady` sets true whatever the payload; the others store the payload; nothing else changes; any other type throws "Unexpected action" |
| CocoSsd.TrackingEffect | components/CocoSsd.js:51-53 | the effect dispatches something iff tracking is off |
| CocoSsd.SwitchingTrackingOffClears | components/CocoSsd.js:51-53 | switching tracking off with any falsy value clears the predictions and changes no other field |
| CocoSsd.TickActions | components/CocoSsd.js:78-83 | a tick starts a prediction iff the page is ready, tracking and given a video input |
| CocoSsd.PredictionStarts | components/CocoSsd.js:79-80 | a tick predicts only when `isReady`, `isTrackingEnabled` and the webcam's video are all truthy |
| CocoSsd.TickOutcome | components/CocoSsd.js:55-83 | a tick stores the detections iff a prediction starts, and otherwise changes nothing |
| CocoSsd.LoadedActions | components/CocoSsd.js:44 | the load dispatches `['setReady']`, a type the reducer handles |
| CocoSsd.LoadingMakesReady | components/CocoSsd.js:42-45 | after loading, the page is ready and nothing else has changed |
| TfCocoSsd.InitialState | src/components/ml/TfCocoSsd.tsx:33-43 | not ready, not tracking, update interval 300, no predictions; no tick predicts |
| TfCocoSsd.Reduce | src/components/ml/TfCocoSsd.tsx:45-58 | each listed action sets its own field (`setReady` to true) and keeps the others; an unlisted type throws "Unexpected action" |
| TfCocoSsd.TrackingEffect | src/components/ml/TfCocoSsd.tsx:74-78 | the effect dispatches something iff tracking is off |
| TfCocoSsd.SwitchingTrackingOffClears | src/components/ml/TfCocoSsd.tsx:74-78 | after unticking tracking and running the effect, tracking is off, there are no predictions, and the other fields are unchanged |
| TfCocoSsd.Predict | src/components/ml/TfCocoSsd.tsx:80-85 | without a loaded net nothing is dispatched; with one, exactly the detections |
| TfCocoSsd.TickActions | src/components/ml/TfCocoSsd.tsx:102-107 | a tick dispatches something iff the page is ready, tracking, has input, and the net is loaded |
| TfCocoSsd.PredictionStarts | src/components/ml/TfCocoSsd.tsx:103-104 | a tick predicts only when `isReady`, `isTrackingEnabled` and the webcam's video are all there |
| TfCocoSsd.TickOutcome | src/components/ml/TfCocoSsd.tsx:80-107 | a tick replaces the predictions iff it predicts, and otherwise changes nothing |
| Bakarlar.InitialState | components/Bakarlar.js:10-24 | SIZE 256, OUTER_RING_SIZE 158, PUPIL_SIZE 54, update interval 60, tracking on, not ready, no result; no transfer starts and no result is shown |
| Bakarlar.Reduce | components/Bakarlar.js:26-51 | it succeeds iff the type is one of the 9 handled types; each stores the payload under its own key, `setResult` adding the `result` key; nothing else changes; others throw "unknown action" |
| Bakarlar.SetResultShows | components/Bakarlar.js:38-39 | after `setResult`, the result image (drawn at line 155) is shown iff the image is truthy |
| Bakarlar.ModelLoadedActions | components/Bakarlar.js:62-63 | the model's load callback dispatches `setIsReady` with true, a type the reducer handles |
| Bakarlar.ModelLoadingMakesReady | components/Bakarlar.js:62-63 | loading the model makes the page ready and changes nothing else; with tracking on, transfers can then start |
| Bakarlar.TransferStarts | components/Bakarlar.js:89-90 | the timer callback starts a transfer only when `isReady` and `isTrackingEnabled` are both truthy |
| Bakarlar.TickActions | components/Bakarlar.js:88-105 | a tick starts a transfer iff both `isReady` and `isTrackingEnabled` hold |
| Bakarlar.TransferOutcome | components/Bakarlar.js:66-105 | a tick that fails the guard changes nothing; a transfer ends with `isTransfering` false and the image as result, nothing else changed |
| Bakarlar.TransferDoneActions | components/Bakarlar.js:71-72 | the transfer's callback dispatches `setIsTransfering` false and then the result, both types the reducer handles |
| Bakarlar.MouseMoveMovesPupil | components/Bakarlar.js:76-86 | moving the mouse changes only `mouseVec` |
| Bakarlar.MouseMoveActions | components/Bakarlar.js:76-85 | a mouse move dispatches the pupil position as `setMouseVec`, a type the reducer handles |
| Bakarlar.UpdateIntervalControlThrows | components/Bakarlar.js:189 | the update-interval control's action makes the reducer throw "unknown action" |
| Bakarlar.UpdateIntervalControl | components/Bakarlar.js:189 | the control dispatches its value under `setUpdateMilis`, a type the reducer does not handle |
| Bakarlar.UpdateMilisNeverChanges | components/Bakarlar.js:26-51 | for any sequence of actions, a run that does not throw leaves `updateMilis` as it was |
| Bakarlar.ReduceFixed | components/Bakarlar.js:26-51 | the corrected reducer agrees with the original on every other type, and `setUpdateMilis` stores the payload in `updateMilis` and changes no other field |
| Bakarlar.UpdateIntervalControlFixed | components/Bakarlar.js:183-190 | with the missing case, the control sets `updateMilis` and changes nothing else |
| Drawing.InitialState | components/Drawing.js:11-17 | five keys: not drawing, not ready, no last pointer; no stroke is in progress and `onUpdate` does not fire |
| Drawing.SpreadFields | components/Drawing.js:24 | an object spreads its own fields; null, undefined, booleans and numbers spread nothing |
| Drawing.Reduce | components/Drawing.js:19-32 | `setupCanvas` merges the payload's fields over the state and forces `isReady` true; `isDrawing` and `updatePointerPosition` each set one key; nothing else changes; other types throw "unknown action" |
| Drawing.SetupMakesReady | components/Drawing.js:110-119 | after mounting, the state holds the canvas and its context and is ready, not drawing |
| Drawing.SetupActions | components/Drawing.js:118 | the mount effect dispatches `setupCanvas` with the canvas and its context, a type the reducer handles |
| Drawing.Ready | components/Drawing.js:52 | the handlers act only when `isReady` is truthy |
| Drawing.InStroke | components/Drawing.js:65-67 | a stroke is drawn only when `isReady` and `isDrawing` are both truthy, so a stroke implies readiness |
| Drawing.MouseDownActions | components/Drawing.js:51-58 | pressing the mouse before the canvas is ready dispatches nothing |
| Drawing.MouseDownBeforeReady | components/Drawing.js:51-54 | pressing the mouse before the canvas is ready changes nothing |
| Drawing.MouseMoveActions | components/Drawing.js:64-101 | nothing happens unless a stroke is in progress; a missing context or last pointer throws; otherwise the pointer, relative to the image, becomes the last pointer |
| Drawing.Clear | components/Drawing.js:103-145 | `clear` returns early iff the canvas is not ready; it paints iff it is ready and has a context, and otherwise throws |
| Drawing.StrokeFiresOnUpdate | components/Drawing.js:51-62 | pressing starts a stroke and does not fire `onUpdate` (the effect at lines 121-123); releasing ends it and fires `onUpdate` iff the pointer is known; no other key changes |
| Drawing.OnUpdateFires | components/Drawing.js:121-123 | when the effect runs (after `isDrawing` or `lastPointerPosition` changed), `onUpdate` fires iff `isDrawing` is falsy and a last pointer position is known, so never in the middle of a stroke |
| Drawing.MouseUpStopsDrawing | components/Drawing.js:60-62 | releasing the mouse sets `isDrawing` to false from any state, so no stroke is in progress, and changes no other key |
| Drawing.MouseUpActions | components/Drawing.js:60-62 | a mouse up dispatches `isDrawing` false, a type the reducer handles |
| SleepData.SplitValue | components/Predict2dData.js:48 | `split` works on strings and throws on any other value |
| SleepData.Minutes | components/Predict2dData.js:48-51 | the minutes are a number iff both the hours and the minutes part are digit strings |
| SleepData.CleanRow | components/Predict2dData.js:46-62 | a row cleans iff it is not null and both its time and quality fields are strings; start, end, wake-up, heart rate and notes are copied; activity is the step count as a number |
| SleepData.Clean | components/Predict2dData.js:46-68 | one record per row, in order, with no filtering; the map throws iff some row throws |
| SleepData.TimeInBedParses | components/Predict2dData.js:48-51 | in any object row whose quality is a string, a time in bed `"H:MM"` with digit strings gives `H * 60 + MM` minutes |
| SleepData.TimeWithoutColonIsNaN | components/Predict2dData.js:48-51 | in any object row whose quality is a string, a time in bed without `:` gives NaN minutes |
| SleepData.QualityParses | components/Predict2dData.js:55 | in any object row whose time in bed is a string, a quality `"Q%"` followed by any text gives the fraction `Q / 100` |
| LinearRegression.ToCar | src/app/tf-linear-regression/client.tsx:80-83 | `mpg` comes from `Miles_per_Gallon` and `horsepower` from `Horsepower`; a null row throws |
| LinearRegression.ToCars | src/app/tf-linear-regression/client.tsx:79-83 | one car per row, in order; the map throws iff a row is null |
| LinearRegression.CleanedCars | src/app/tf-linear-regression/client.tsx:73-89 | every kept car has both values; the kept cars are an order-preserving subsequence of the mapped cars in which every complete car occurs as often as among the mapped cars and no incomplete car occurs; a throwing map leaves no data |
| LinearRegression.Complete | src/app/tf-linear-regression/client.tsx:84 | the filter keeps a car when neither `mpg` nor `horsepower` is null or undefined |
| LinearRegression.CompleteRowsAllKept | src/app/tf-linear-regression/client.tsx:79-85 | when every row has both values, every row is kept, in order, with its two fields |
| LinearRegression.NullRowLosesAll | src/app/tf-linear-regression/client.tsx:74-88 | a single null row leaves no data at all |
| LinearRegression.Defaults | src/app/tf-linear-regression/client.tsx:26-45 | the defaults are 100 epochs and batch size 58, and both pass the schema |
| LinearRegression.PositiveInt | src/app/tf-linear-regression/client.tsx:27-28 | `z.number().int().positive()` accepts finite whole numbers above zero, which are at least 1 |
| LinearRegression.SchemaAccepts | src/app/tf-linear-regression/client.tsx:26-29 | the schema accepts the form when both epochs and batch size are positive whole numbers |
| LinearRegression.ParseInt | src/app/tf-linear-regression/client.tsx:232 | `parseInt` gives a whole number or NaN; a digit string gives its value; empty text gives NaN |
| LinearRegression.LeadingDigits | src/app/tf-linear-regression/client.tsx:232 | the longest prefix of decimal digits: a digit string that is a prefix of the text and is followed by no digit |
| LinearRegression.TypedCountAccepted | src/app/tf-linear-regression/client.tsx:26-29 | typed digits pass the schema iff they are not zero; empty or negative input never passes |
| LinearRegression.Trainer.constructor | src/app/tf-linear-regression/client.tsx:34 | not training, no `trainModel` calls, none unsettled |
| LinearRegression.Trainer.OnSubmit | src/app/tf-linear-regression/client.tsx:202-213 | a submit starts a run iff `isTraining` was clear: then it sets the flag and appends the values to the runs; while training it changes nothing |
| LinearRegression.Trainer.Submit | src/app/tf-linear-regression/client.tsx:221 | only values that pass the schema reach `onSubmit`, so every run started holds valid values |
| LinearRegression.Trainer.StopTraining | src/app/tf-linear-regression/client.tsx:261-265 | Stop Training clears `isTraining` and leaves the calls made and the unsettled calls as they were |
| LinearRegression.Trainer.TrainingFinished | src/app/tf-linear-regression/client.tsx:209-211 | a resolved call settles one unsettled call and clears `isTraining`, even when another call is unsettled |
| LinearRegression.Trainer.TrainingFailed | src/app/tf-linear-regression/client.tsx:209-211 | a rejected call settles one unsettled call and leaves `isTraining` as it was, since there is no `catch` |
| LinearRegression.StopThenResubmit | src/app/tf-linear-regression/client.tsx:202-265 | submit, Stop Training, submit calls `trainModel` twice, with both value sets, before the first call has settled |
| LinearRegression.RejectedTrainingBlocksSubmits | src/app/tf-linear-regression/client.tsx:202-213 | after a rejected training the flag stays set with nothing unsettled, and the next submit is ignored |

## Left out

- ML inference and training are inputs, not modelled. The model takes as given the poses, detections, detector objects and pix2pix images these calls return. The calls are `posenet.load`, `estimateSinglePose`/`estimateMultiplePoses`, `poseDetection.createDetector`/`estimatePoses`, `cocoSsd.load`/`detect`, the pix2pix `transfer`, and `tf` model building and `fit`.
- Tensor conversion, min-max normalisation and prediction plotting are floating-point tensor work inside library calls. In the linear-regression page this is `convertToTensor`/`trainModel`/`testModel`.
- Rendering is not modelled: Konva shapes and filters, JSX layout, dis-gui and form controls, the COCO-SSD boxes and labels, the canvas path calls in the drawing surface, and `drawImage` of the sample image.
- Timing and async scheduling are not modelled. This covers `setInterval`/`useInterval`, promise ordering, and the `fetch` of JSON (its parsed rows are an input). A tick is one call that returns its dispatches. A detection that resolves after tracking was switched off can still store predictions; that interleaving is not modelled.
- PosenetTracker.TickActions: the timer callback sees the state of the render that created it. This is the `captured` parameter, and the model does not track which render that was.
- The two Python converter scripts are not part of this model. They are thin wrappers over coremltools and shell commands.
- React's error handling is not modelled. A reducer throw ends the store (`Thrown`), and a throw in an async function is reported as a `Thrown` result. Error boundaries and unhandled-rejection reporting are left out.
- TfPosenet.LoadDetector: disposing the previous detector is not modelled.
- JsValues.StringToNumber: only strings of plain decimal digits parse. Decimal points, signs, exponents and surrounding blanks give NaN here but a number in JavaScript. `Infinity` is not modelled at all.
- LinearRegression.ParseInt: leading blanks are not skipped, and a `0x` prefix is not read as hexadecimal. A number input never hands over either.
- Drawing.SpreadFields: a host object (a canvas or a DOM object) spreads no own fields.
- Drawing.MouseMoveActions: any context that is not null or undefined is taken as a working 2D context. Only `getContext('2d')` results (a host object or null) reach it; a primitive or plain object there would throw in JavaScript. The same holds for Drawing.Clear.
- Bakarlar.MouseMoveActions: the position is an input. `mapRange` comes from `lib/utils`, which is not part of this model.
- LinearRegression.Trainer.OnSubmit: the model does not cover two submits arriving before React re-renders with `isTraining` set.
- LinearRegression.Trainer: whether a `trainModel` call trains, or is refused by `fit` because another `fit` on the same model is running, is up to the library. The model records the call and lets its promise resolve (`TrainingFinished`) or reject (`TrainingFailed`) in any order.

## Findings

| source | as written | input that shows it | evidently intended | confidence | as-written member | corrected member |
|---|---|---|---|---|---|---|
| src/app/tf-posenet/client.tsx:104 | the reducer writes the key `action.type.slice(3)` (`Ready`, `Detector`, `IsTrackingEnabled`, ...), never a declared field | `{ type: 'setReady', payload: true }` leaves `isReady` false; the tick guard at line 219 then never holds after any actions | set the declared field the action names (`isReady`, `detector`, ...) | not executed; certain from the model | TfPosenet.TrackingNeverRuns | TfPosenet.FixedReducerCanTrack |
| components/PosenetTracker.js:314 | `dispatch({ type: 'outputStride', payload: val } * 1)` dispatches NaN | choosing stride 8 in the select: the reducer throws "Unexpected action" | `dispatch({ type: 'outputStride', payload: val * 1 })` | not executed; certain from the model | PosenetTracker.OutputStrideControlThrows | PosenetTracker.OutputStrideControlFixedStores |
| components/Bakarlar.js:189 | the update-interval control dispatches `setUpdateMilis`, which the reducer (lines 29-49) does not handle | moving the control to 100: the reducer throws "unknown action", and `updateMilis` stays 60 | a reducer case that stores the payload in `updateMilis` | not executed; certain from the model | Bakarlar.UpdateMilisNeverChanges | Bakarlar.UpdateIntervalControlFixed |
