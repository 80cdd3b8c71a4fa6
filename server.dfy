/**
  The Socket.IO server of backend/server.py: a prediction guarded by the
  health model being loaded, the health update built for each sensor
  reading, and the camera-frame handler (split of the data URL at its first
  comma, detection, and flattening of the detected boxes).

  The fan-out of `socketio.emit` happens inside the library; a handler's
  result here is what it emits.
*/
module Server {
  import opened Wrappers
  import opened Health

  /** The status reported when the health model files could not be loaded. */
  const ModelNotLoaded: string := "Model Not Loaded"

  /** predict_and_recommend, with the missing-model guard. */
  method PredictAndRecommend(modelLoaded: bool, classify: Reading -> string, averages: Reading, sensorData: Reading)
    returns (status: string, recs: seq<Suggestion>)
    ensures !modelLoaded ==> status == ModelNotLoaded && recs == []
    ensures modelLoaded ==> status == classify(sensorData)
    ensures modelLoaded && status == Healthy ==> recs == []
    ensures modelLoaded && status != Healthy ==>
      && |recs| == |FeatureOrder|
      && forall i :: 0 <= i < |recs| ==> recs[i] == Advise(FeatureOrder[i], sensorData, averages)
  {
    if !modelLoaded {
      return ModelNotLoaded, [];
    }
    status := classify(sensorData);
    recs := [];
    if status != Healthy {
      recs := DiffSuggestions(sensorData, averages);
    }
  }

  /** handle_sensor_data: the health update emitted to every viewer, echoing the reading. */
  method HandleSensorData(modelLoaded: bool, classify: Reading -> string, averages: Reading, data: Reading)
    returns (payload: HealthPayload)
    ensures payload.liveData == data
    ensures payload.status == if modelLoaded then classify(data) else ModelNotLoaded
    ensures payload.suggestions == [] <==> !modelLoaded || classify(data) == Healthy
    ensures payload.suggestions != [] ==> payload.suggestions == AdviseAll(FeatureOrder, data, averages)
  {
    var status, suggestions := PredictAndRecommend(modelLoaded, classify, averages, data);
    if modelLoaded && status != Healthy {
      AdviseAllAt(FeatureOrder, data, averages);
    }
    payload := HealthPayload(data, status, suggestions);
  }

  // ---------------------------------------------------------------------------
  // Camera frames

  /** A box's corners, as `box.xyxy[0].tolist()` gives them. */
  datatype Box = Box(x1: real, y1: real, x2: real, y2: real)

  /** One box of a detection result: corners, class index and confidence. */
  datatype RawBox = RawBox(xyxy: Box, cls: int, conf: real)

  /** One entry of the emitted `detections` list. */
  datatype Detection = Detection(box: Box, name: string, confidence: real)

  /** Why a frame handler raises instead of emitting. */
  datatype FrameError =
    | NoComma         // `header, encoded = data.split(",", 1)` cannot unpack one part
    | InferenceFailed // decoding the image or running the detector raised

  /** What the frame handler does: return silently, raise, or emit the detections. */
  datatype FrameOutcome = NoModel | Raised(error: FrameError) | Emitted(detections: seq<Detection>)

  /**
    `data.split(",", 1)`: the part before the first comma and everything
    after it; None when there is no comma, where the two-name unpacking raises.
  */
  function SplitFirstComma(data: string): (r: Option<(string, string)>)
    ensures r.None? <==> ',' !in data
    ensures r.Some? ==> data == r.value.0 + [','] + r.value.1 && ',' !in r.value.0
  {
    if data == [] then None
    else if data[0] == ',' then Some(([], data[1..]))
    else match SplitFirstComma(data[1..])
      case None => None
      case Some((header, encoded)) => Some(([data[0]] + header, encoded))
  }

  /** The data URL is split at its first comma whatever follows it. */
  lemma {:induction false} SplitAtFirstComma(header: string, encoded: string)
    requires ',' !in header
    ensures SplitFirstComma(header + [','] + encoded) == Some((header, encoded))
  {
    var data := header + [','] + encoded;
    if header != [] {
      assert data[0] == header[0] && data[1..] == header[1..] + [','] + encoded;
      SplitAtFirstComma(header[1..], encoded);
      assert [header[0]] + header[1..] == header;
    }
  }

  /** The detection entry for one box. */
  function ToDetection(b: RawBox, names: int -> string): Detection
  {
    Detection(b.xyxy, names(b.cls), b.conf)
  }

  /** The entries for the boxes of one result, in box order. */
  function ConvertAll(boxes: seq<RawBox>, names: int -> string): (dets: seq<Detection>)
    ensures |dets| == |boxes|
    ensures forall j :: 0 <= j < |boxes| ==> dets[j] == ToDetection(boxes[j], names)
  {
    if boxes == [] then []
    else ConvertAll(boxes[..|boxes| - 1], names) + [ToDetection(boxes[|boxes| - 1], names)]
  }

  /** The number of boxes over all results. */
  function TotalBoxes(results: seq<seq<RawBox>>): nat
  {
    if results == [] then 0 else TotalBoxes(results[..|results| - 1]) + |results[|results| - 1]|
  }

  /** The entries for all boxes of all results, result by result. */
  function Flatten(results: seq<seq<RawBox>>, names: int -> string): (dets: seq<Detection>)
    ensures |dets| == TotalBoxes(results)
  {
    if results == [] then []
    else Flatten(results[..|results| - 1], names) + ConvertAll(results[|results| - 1], names)
  }

  /** Box j of result i is entry (boxes of results before i) + j: result-then-box order. */
  lemma {:induction false} FlattenAt(results: seq<seq<RawBox>>, names: int -> string, i: nat, j: nat)
    requires i < |results| && j < |results[i]|
    ensures TotalBoxes(results[..i]) + j < |Flatten(results, names)|
    ensures Flatten(results, names)[TotalBoxes(results[..i]) + j] == ToDetection(results[i][j], names)
  {
    var last := |results| - 1;
    var prefix := results[..last];
    if i == last {
      assert results[..i] == prefix;
    } else {
      FlattenAt(prefix, names, i, j);
      assert prefix[..i] == results[..i];
      assert TotalBoxes(prefix) <= TotalBoxes(results);
    }
  }

  /** The nested loops of handle_process_frame that fill `detections`. */
  method CollectDetections(results: seq<seq<RawBox>>, names: int -> string) returns (detections: seq<Detection>)
    ensures detections == Flatten(results, names)
  {
    detections := [];
    for i := 0 to |results|
      invariant detections == Flatten(results[..i], names)
    {
      var boxes := results[i];
      for j := 0 to |boxes|
        invariant detections == Flatten(results[..i], names) + ConvertAll(boxes[..j], names)
      {
        assert boxes[..j + 1][..j] == boxes[..j];
        detections := detections + [ToDetection(boxes[j], names)];
      }
      assert boxes[..|boxes|] == boxes;
      assert results[..i + 1][..i] == results[..i];
    }
    assert results[..|results|] == results;
  }

  /**
    handle_process_frame: nothing without a detection model; otherwise the
    text after the first comma goes to the detector, and the flattened boxes
    are emitted. `infer` stands for base64 decoding, image opening and the
    detector, None when one of them raises.
  */
  method HandleProcessFrame(modelLoaded: bool, data: string, infer: string -> Option<seq<seq<RawBox>>>,
                            names: int -> string)
    returns (outcome: FrameOutcome)
    ensures !modelLoaded ==> outcome == NoModel
    ensures modelLoaded && ',' !in data ==> outcome == Raised(NoComma)
    ensures modelLoaded && ',' in data ==>
      exists header, encoded ::
        && data == header + [','] + encoded && ',' !in header
        && outcome == match infer(encoded)
                      case None => Raised(InferenceFailed)
                      case Some(results) => Emitted(Flatten(results, names))
  {
    if !modelLoaded {
      return NoModel;
    }
    var parts := SplitFirstComma(data);
    if parts.None? {
      return Raised(NoComma);
    }
    var (header, encoded) := parts.value;
    var results := infer(encoded);
    if results.None? {
      return Raised(InferenceFailed);
    }
    var detections := CollectDetections(results.value, names);
    outcome := Emitted(detections);
  }
}
