# CropGenie core, modelled in Dafny

CropGenie monitors a plant. An ESP8266 sends soil moisture, soil temperature
and humidity readings. A classifier labels the plant's health, and the
system suggests how far each reading should move towards the average of
the healthy samples. Viewers get these updates over WebSockets. A browser
page streams camera frames to a disease detector and draws the boxes it
finds. A second page computes Growing Degree Days.

This project models the logic around those parts:

- `health.dfy` (module `Health`) holds the features, the readings and the
  suggestions. It also holds the two recommendation rules the variants use:
  - The difference rule: one suggestion per feature. The direction is
    Increase exactly when healthy − current > 0, so a zero difference gives
    "Decrease by 0". The magnitude is |healthy − current|.
  - The comparison rule: Increase when below the average, Decrease when
    above, nothing when equal.

  Lemmas relate the two rules to each other.
- `app.dfy` (module `App`) models backend/app.py:
  - The prediction step.
  - The module-level `clients` set as a class `Registry` with in-place
    `Add` and `Remove`.
  - The snapshot broadcast loop that prunes failed sends.
  - The whole connection handler, with its `finally` teardown. That
    teardown raises `KeyError` when a broadcast has already pruned the
    handler's own connection.
- `server.dfy` (module `Server`) models backend/server.py:
  - The prediction guarded by "Model Not Loaded".
  - The `health_update` payload.
  - The camera-frame handler: split at the first comma, detection, and
    flattening of the boxes in result-then-box order.
- `plant_health_data.dfy` (module `PlantHealthData`) models the
  three-comparison `predict_and_recommend`.
- `health_status_prediction.dfy` (module `HealthStatusPrediction`) models
  `healthy_label`, which selects the healthy class by its index in the
  label encoder, and the adjustments of `predict_plant_health`.
- `gdd_calculator.dfy` (module `GddCalculator`) models `handleCalculate`:
  the parse guard, the average and the thresholded GDD.
- `disease_detection.dfy` (module `DiseaseDetection`) models:
  - The `isProcessing` gate as a class whose callbacks update it in place.
  - A step function over events. It proves that between two frames one
    page sends, that page receives a `detection_results` event.
  - `getScaleFactors` and the overlay arithmetic for each box.

Some things outside the model become parameters:

- The trained classifiers: `classify`, `predict`.
- The YOLO detector, together with base64 and image decoding: `infer`.
- The detector's class names: `names`.
- Each send's success: `sendOk`.
- The browser's `parseFloat`: an optional parsed value.

Three behaviours of the code are easy to miss:

- Removing an absent connection is not a no-op. The handler's `finally`
  raises `KeyError` when a broadcast has already pruned the handler's own
  connection (`RemoveOutcome.KeyError`).
- A message that does not parse is not skipped. The exception leaves the
  `while True` loop and ends the handler (`App.Registry.Handle`).
- A client whose send fails is removed inside the broadcast loop, not after
  it. This is safe because the loop iterates a copy of the set.

## Model

| member | source | states |
|---|---|---|
| Health.Advise | backend/app.py:76-82 | the suggestion for one feature: Increase exactly when the reading is below the healthy value; the magnitude is non-negative and zero exactly when they are equal; reading plus signed magnitude gives the healthy value |
| Health.AdviseAllAt | backend/server.py:49-55 | the difference rule over a feature list gives one suggestion per feature, entry i being the rule for feature i |
| Health.DiffSuggestions | backend/app.py:74-83 | the suggestion loop yields exactly three suggestions, in the order Soil_Moisture, Soil_Temperature, Humidity, each with its direction and magnitude |
| Health.Compare | plant_health_data.py:72-79 | one if/elif comparison: at most one recommendation, none exactly when the value equals its average, otherwise the difference rule's suggestion with a strictly positive magnitude |
| Health.CompareAllIsNonZeroAdvice | plant_health_data.py:69-99 | the comparison rule's list is the difference rule's list with the zero-magnitude entries removed |
| Health.EqualFeatureRules | backend/app.py:79-81 | on a value equal to its average the difference rule says "Decrease by 0" and the comparison rule says nothing |
| Health.CompareAllBounds | plant_health_data.py:72-99 | the comparison rule gives at most one recommendation per feature; each one names a visited feature, has a positive magnitude and agrees with the difference rule |
| Health.CompareAllFeatures | plant_health_data.py:72-99 | the comparison list is moisture's, then temperature's, then humidity's |
| Health.ExampleIncreaseAll | backend/app.py:79-81 | a reading below every average gets three Increase suggestions by the exact differences |
| App.RecipientsAt | backend/app.py:115-117 | a connection was reached exactly when some delivery went to it |
| App.EachOnceDistinct | backend/app.py:115-117 | in one broadcast no two deliveries go to the same connection |
| App.PredictAndRecommend | backend/app.py:67-83 | the status is the classifier's label; "Healthy" gives no suggestions; otherwise one per feature in order, by the difference rule |
| App.Respond | backend/app.py:105-111 | the payload echoes the reading, carries the label and the suggestions for it |
| App.Registry.constructor | backend/app.py:12 | the registry starts empty |
| App.Registry.Add | backend/app.py:94 | the connection is added, the set grows by at most one and nothing else changes |
| App.Registry.Remove | backend/app.py:124-126 | a present connection is removed; an absent one raises KeyError; either way the set ends without it |
| App.Registry.Broadcast | backend/app.py:115-120 | over a copy of the set: every member with a successful send gets the payload exactly once; a failed send does not stop later ones; the in-loop removal never raises; the set afterwards is the old set minus exactly the failed members |
| App.FailedBeforeSome | backend/app.py:115-120 | a connection has a failed send among the first n broadcasts exactly when some broadcast k < n failed to reach it |
| App.PruneStep | backend/app.py:115-120 | one more broadcast over the members not yet pruned adds exactly its failures to the pruned set, which stays the set of members with a failed send |
| App.Registry.Serve | backend/app.py:100-120 | one pass of the handler's loop: the payload answers the reading, and the set loses exactly the members whose send failed |
| App.Registry.ServeAll | backend/app.py:97-122 | readings are answered in turn until the messages end or one is malformed; the pruned set is exactly the members with a failed send in one of those broadcasts, and the set loses exactly them |
| App.Registry.Handle | backend/app.py:92-127 | the handler adds its connection and answers each reading in turn until the first malformed message; a connection is pruned exactly when it was in the set (or is ws) and one of the handler's broadcasts failed to reach it; teardown raises KeyError exactly when ws was pruned; the set loses ws and exactly the pruned connections |
| App.PrunedViewerTeardown | backend/app.py:115-126 | with three viewers and the second one's send failing, viewers 1 and 3 get the update, the second is pruned, and its own handler's teardown raises KeyError |
| Server.PredictAndRecommend | backend/server.py:37-56 | without the health model the result is ("Model Not Loaded", []) whatever the input; otherwise the label, no suggestions for "Healthy", and three suggestions in feature order by the difference rule |
| Server.HandleSensorData | backend/server.py:71-82 | the payload echoes the received reading unchanged, carries the status and has suggestions exactly when a model is loaded and the label is not "Healthy" |
| Server.SplitFirstComma | backend/server.py:91 | no result exactly when the data has no comma; otherwise the data is header, comma, rest, with no comma in the header |
| Server.SplitAtFirstComma | backend/server.py:91 | the split happens at the first comma and keeps every later comma in the encoded part |
| Server.ConvertAll | backend/server.py:98-105 | one entry per box of a result, entry j made from box j |
| Server.Flatten | backend/server.py:96-105 | the detection list has one entry per box across all results |
| Server.FlattenAt | backend/server.py:96-105 | box j of result i is entry (boxes in the earlier results) + j, so the order is result-then-box |
| Server.CollectDetections | backend/server.py:96-105 | the nested loops build exactly the flattened list |
| Server.HandleProcessFrame | backend/server.py:86-109 | without the detection model nothing is emitted; without a comma the handler raises; otherwise the detector gets everything after the first comma, and its boxes are emitted flattened, or the handler raises when decoding or detection fails |
| PlantHealthData.PredictAndRecommend | plant_health_data.py:55-101 | the label is the classifier's; "Healthy" gives no recommendations; otherwise the comparison rule in feature order: 0 to 3 entries, each with a strictly positive magnitude |
| HealthStatusPrediction.FirstIndex | plant_health_stauts_prediction.py:44 | the first position of a class name, and none exactly when the name is absent |
| HealthStatusPrediction.HealthyLabel | plant_health_stauts_prediction.py:43-47 | with an encoder, the index of "Healthy" among its classes, or IndexError when it has no such class; without an encoder, 1 |
| HealthStatusPrediction.IndexTestIsLabelTest | plant_health_stauts_prediction.py:43-47 | when the classes are distinct, comparing the predicted index with healthy_label is the same as comparing the decoded label with "Healthy" |
| HealthStatusPrediction.PredictPlantHealth | plant_health_stauts_prediction.py:53-78 | the label is the decoded class with an encoder and the raw prediction without one; no adjustments when the prediction is the healthy index; otherwise one per feature in order by the difference rule |
| GddCalculator.Gdd | src/GddCalculator.jsx:20-21 | GDD is never negative, is at least average minus base, and is either 0 or average minus base |
| GddCalculator.HandleCalculate | src/GddCalculator.jsx:9-23 | an unparsable max, min or base leaves the result unchanged; otherwise the result is the day's GDD |
| GddCalculator.GddPositive | src/GddCalculator.jsx:21 | GDD is positive exactly when the average exceeds the base, and then equals the excess |
| GddCalculator.GddSymmetric | src/GddCalculator.jsx:20 | swapping max and min does not change GDD |
| GddCalculator.GddMonotone | src/GddCalculator.jsx:20-21 | GDD does not decrease in max or min and does not increase in base |
| GddCalculator.DefaultBaseExample | src/GddCalculator.jsx:6 | with the initial base of 10, an average of 10 gives 0 and an average of 15 gives 5 |
| DiseaseDetection.Step | src/DiseaseDetection.jsx:38-62 | after an event a frame is outstanding exactly when the event sent one or one was outstanding and the event is not detection_results; results replace the detections (absent gives []), other events keep them |
| DiseaseDetection.BlockedUntilResults | src/DiseaseDetection.jsx:38-51 | while a frame is outstanding and no results arrive, no event sends a frame and the flag stays set, disconnects included |
| DiseaseDetection.NoSecondFrameWithoutResults | src/DiseaseDetection.jsx:45-60 | between any two sent frames there is a detection_results event |
| DiseaseDetection.DetectionPage.constructor | src/DiseaseDetection.jsx:5-10 | the page starts with no frame in flight, no detections, disconnected |
| DiseaseDetection.DetectionPage.OnFrameTick | src/DiseaseDetection.jsx:49-62 | a frame is sent exactly when the video exists, is ready (readyState 4) and none is in flight; sending sets isProcessing; nothing else changes |
| DiseaseDetection.DetectionPage.OnDetectionResults | src/DiseaseDetection.jsx:43-46 | the detections become the event's list, or [] when it is absent, and isProcessing is cleared |
| DiseaseDetection.DetectionPage.OnConnect | src/DiseaseDetection.jsx:34-37 | only the connection flag is set |
| DiseaseDetection.DetectionPage.OnDisconnect | src/DiseaseDetection.jsx:38-41 | only the connection flag is cleared; isProcessing is kept |
| DiseaseDetection.ScaleFactors | src/DiseaseDetection.jsx:77-88 | (1, 1) when an element is missing or the video width is 0; otherwise scales that map the video size onto the container, the vertical one non-finite exactly when the video height is 0 |
| DiseaseDetection.OverlayFor | src/DiseaseDetection.jsx:119-125 | the box's corners scaled to the display; the width and height are non-negative for ordered corners and non-negative scales |
| DiseaseDetection.FullFrameFillsContainer | src/DiseaseDetection.jsx:77-88 | a box covering the whole video frame covers the whole container |

## Left out

- Training and inference of the classifiers are left out: the random forest, the label encoder, CSV loading and the averages of the healthy samples. The classifier is a function parameter, and the healthy averages are a given `Reading`.
- The YOLO detector, base64 decoding and PIL image opening are left out. Together they are the parameter `infer`; None means one of them raised.
- Transport is left out: `ws.send`, `ws.receive`, `socketio.emit` and its fan-out, CORS and the server start-up. A handler's result is what it sends or emits. A send's success is an oracle.
- Concurrency between handlers is left out. Handler steps (add, broadcast, teardown) run one at a time. Connections of other open handlers stay in `clients` meanwhile.
- Number formatting is left out: `:.2f`, `round(d, 3)`, `toFixed(2)` and the suggestion strings. Values are exact `real`s and directions are an enum.
- The printing and `alert` side effects are left out. This includes the `len(clients)` log lines.
- Floating point is left out. Values are exact reals. A division by a zero video height is `NonFinite`, without telling Infinity from NaN.
- `parseFloat` is left out. Each field arrives already parsed, and None stands for NaN.
- The camera, the canvas JPEG encoding and the `setInterval` timing are left out. Each tick is one event.
- src/PlantHealth.jsx, frontend/website/src/App.jsx and realtime_server.py are display, routing or library calls, and are not part of this model.
- HealthStatusPrediction.PredictPlantHealth: the source prints each adjustment and returns only the label. The model returns the adjustments instead of printing them.
- App.Registry.Broadcast: visits the copied members in an unspecified order. The source's `list(clients)` fixes one order at copy time. Which members are reached does not depend on it.
- App.Registry.Handle: runs its steps without other handlers' broadcasts in between. So a viewer handler with no messages of its own always tears down with `Removed`. The main real route to `KeyError` is another route: a viewer blocked in `ws.receive()` (backend/app.py:100) is pruned by the producer's broadcast, and its own teardown then raises. The model shows that route only in the scenario `App.PrunedViewerTeardown`.
- Server.HandleSensorData: has no error path. With a model loaded, a reading holding a value that does not convert to a float raises in `health_model.predict` (backend/server.py:44). A missing feature or a numeric string raises in the suggestion loop (backend/server.py:50-52) when the label is not "Healthy". Either way the raise comes before the emit at backend/server.py:81. Without a model, the source emits even malformed data.
- The inbound JSON object is reduced to its three features (`Reading`). The source's `live_data` is the whole parsed object, extra keys included (backend/app.py:101, 108; backend/server.py:71, 76). So "echoes the reading unchanged" holds for the three-feature projection only.
- DiseaseDetection.NoSecondFrameWithoutResults: covers one page. `socketio.emit("detection_results", …)` names no recipient (backend/server.py:109), so every open page gets every page's results. The model does not match results to the frame that caused them. With two pages open, one page's results clear the other page's flag, and that page can then send again while its own frame is still in flight.
- DiseaseDetection.OverlayFor: covers finite scale factors only. A box under a `NonFinite` vertical scale is not drawn by the model.
