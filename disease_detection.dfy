/**
  The live disease-detection page of src/DiseaseDetection.jsx: the
  `isProcessing` gate that lets the page send a camera frame only after a
  'detection_results' event since its last one, the handlers that update
  it, and the geometry that places each detection box over the displayed
  video.

  The interval timer, the camera, the canvas and the socket are the
  browser's; each callback invocation is one event here.
*/
module DiseaseDetection {
  import opened Wrappers
  import opened Server

  /** HTMLMediaElement.HAVE_ENOUGH_DATA */
  const HaveEnoughData: int := 4

  /** The video element's state, when `videoRef.current` is set. */
  datatype Video = Video(readyState: int, videoWidth: nat, videoHeight: nat)

  /** The container element's displayed size, when `containerRef.current` is set. */
  datatype Container = Container(clientWidth: nat, clientHeight: nat)

  /** One callback invocation. */
  datatype Event =
    | FrameTick(video: Option<Video>)                         // the 500 ms interval
    | DetectionResults(detections: Option<seq<Detection>>)   // 'detection_results'; None when the field is absent
    | Connect
    | Disconnect

  /** The page's state: the `isProcessing` ref, `detections` and `isConnected`. */
  datatype Page = Page(isProcessing: bool, detections: seq<Detection>, isConnected: bool)

  const InitialPage: Page := Page(false, [], false)

  predicate Ready(video: Option<Video>)
  {
    video.Some? && video.value.readyState == HaveEnoughData
  }

  /** Whether the event sends a frame to the server. */
  predicate Emits(page: Page, e: Event)
  {
    e.FrameTick? && Ready(e.video) && !page.isProcessing
  }

  /** The page after one event. */
  function Step(page: Page, e: Event): (next: Page)
    // a frame is outstanding after the event exactly when one was sent by it,
    // or one was outstanding before and the event is not a 'detection_results'
    ensures next.isProcessing == (Emits(page, e) || (page.isProcessing && !e.DetectionResults?))
    ensures e.DetectionResults? ==> next.detections == e.detections.GetOr([])
    ensures !e.DetectionResults? ==> next.detections == page.detections
  {
    match e
    case FrameTick(video) =>
      if Ready(video) && !page.isProcessing then page.(isProcessing := true) else page
    case DetectionResults(detections) =>
      page.(detections := detections.GetOr([]), isProcessing := false)
    case Connect => page.(isConnected := true)
    case Disconnect => page.(isConnected := false)
  }

  /** The page after a sequence of events. */
  function Run(page: Page, trace: seq<Event>): Page
    decreases |trace|
  {
    if trace == [] then page else Run(Step(page, trace[0]), trace[1..])
  }

  /** Whether event i of the trace sends a frame. */
  predicate EmitsAt(page: Page, trace: seq<Event>, i: nat)
    requires i < |trace|
  {
    Emits(Run(page, trace[..i]), trace[i])
  }

  lemma {:induction false} RunAppend(page: Page, a: seq<Event>, b: seq<Event>)
    ensures Run(page, a + b) == Run(Run(page, a), b)
    decreases |a|
  {
    if a != [] {
      assert (a + b)[0] == a[0] && (a + b)[1..] == a[1..] + b;
      RunAppend(Step(page, a[0]), a[1..], b);
    } else {
      assert a + b == b;
    }
  }

  /**
    While a frame is outstanding and no results arrive, no frame is sent:
    ticks do not send and a disconnect does not clear the flag, so a frame
    whose results are lost blocks the page for good.
  */
  lemma {:induction false} BlockedUntilResults(page: Page, trace: seq<Event>)
    requires page.isProcessing
    requires forall k :: 0 <= k < |trace| ==> !trace[k].DetectionResults?
    ensures Run(page, trace).isProcessing
    ensures forall k :: 0 <= k < |trace| ==> !EmitsAt(page, trace, k)
    decreases |trace|
  {
    if trace != [] {
      var next := Step(page, trace[0]);
      BlockedUntilResults(next, trace[1..]);
      forall k | 0 <= k < |trace|
        ensures !EmitsAt(page, trace, k)
      {
        if k > 0 {
          assert trace[..k] == [trace[0]] + trace[1..][..k - 1];
          RunAppend(page, [trace[0]], trace[1..][..k - 1]);
          assert trace[k] == trace[1..][k - 1];
          assert !EmitsAt(next, trace[1..], k - 1);
        }
      }
    }
  }

  /** Between two frames the page sends, the page receives a 'detection_results' event. */
  lemma NoSecondFrameWithoutResults(page: Page, trace: seq<Event>, i: nat, j: nat)
    requires i < j < |trace|
    requires EmitsAt(page, trace, i)
    requires forall k :: i < k < j ==> !trace[k].DetectionResults?
    ensures !EmitsAt(page, trace, j)
  {
    var before := Run(page, trace[..i]);
    var sent := Step(before, trace[i]);
    assert Run(before, [trace[i]]) == sent;
    assert trace[..i + 1] == trace[..i] + [trace[i]];
    RunAppend(page, trace[..i], [trace[i]]);
    var rest := trace[i + 1..j];
    BlockedUntilResults(sent, rest);
    assert trace[..j] == trace[..i + 1] + rest;
    RunAppend(page, trace[..i + 1], rest);
  }

  /** The page's mutable state, updated in place by the callbacks. */
  class DetectionPage {
    var isProcessing: bool
    var detections: seq<Detection>
    var isConnected: bool

    function State(): Page
      reads this
    {
      Page(isProcessing, detections, isConnected)
    }

    constructor ()
      ensures State() == InitialPage
    {
      isProcessing, detections, isConnected := false, [], false;
    }

    /** The interval callback: send a frame when the video is ready and none is in flight. */
    method OnFrameTick(video: Option<Video>) returns (emitted: bool)
      modifies this
      ensures emitted == (Ready(video) && !old(isProcessing))
      ensures isProcessing == (old(isProcessing) || emitted)
      ensures detections == old(detections) && isConnected == old(isConnected)
      ensures State() == Step(old(State()), FrameTick(video))
    {
      emitted := false;
      if video.Some? && video.value.readyState == HaveEnoughData && !isProcessing {
        isProcessing := true;
        emitted := true;
      }
    }

    /** The 'detection_results' handler: show the detections (or none) and allow the next frame. */
    method OnDetectionResults(data: Option<seq<Detection>>)
      modifies this
      ensures detections == data.GetOr([])
      ensures !isProcessing
      ensures isConnected == old(isConnected)
      ensures State() == Step(old(State()), DetectionResults(data))
    {
      detections := data.GetOr([]);
      isProcessing := false;
    }

    method OnConnect()
      modifies this
      ensures isConnected
      ensures isProcessing == old(isProcessing) && detections == old(detections)
      ensures State() == Step(old(State()), Connect)
    {
      isConnected := true;
    }

    /** The 'disconnect' handler leaves `isProcessing` as it is. */
    method OnDisconnect()
      modifies this
      ensures !isConnected
      ensures isProcessing == old(isProcessing) && detections == old(detections)
      ensures State() == Step(old(State()), Disconnect)
    {
      isConnected := false;
    }
  }

  // ---------------------------------------------------------------------------
  // Overlay geometry

  /** A JavaScript number from a division: finite, or Infinity/NaN after a division by zero. */
  datatype JsNumber = Finite(value: real) | NonFinite

  datatype Scale = Scale(x: JsNumber, y: JsNumber)

  /**
    getScaleFactors: (1, 1) without both elements or with a zero video
    width; otherwise displayed size over video size. The video height is
    not checked, so a zero height gives a non-finite vertical scale.
  */
  function ScaleFactors(video: Option<Video>, container: Option<Container>): (s: Scale)
    ensures video.None? || container.None? || video.value.videoWidth == 0 ==> s == Scale(Finite(1.0), Finite(1.0))
    ensures video.Some? && container.Some? && video.value.videoWidth != 0 ==>
      && s.x.Finite? && s.x.value >= 0.0
      && s.x.value * video.value.videoWidth as real == container.value.clientWidth as real
      && (s.y.Finite? <==> video.value.videoHeight != 0)
      && (s.y.Finite? ==> s.y.value >= 0.0 && s.y.value * video.value.videoHeight as real == container.value.clientHeight as real)
  {
    if video.None? || container.None? || video.value.videoWidth == 0 then Scale(Finite(1.0), Finite(1.0))
    else
      var v, c := video.value, container.value;
      Scale(Finite(c.clientWidth as real / v.videoWidth as real),
            if v.videoHeight == 0 then NonFinite else Finite(c.clientHeight as real / v.videoHeight as real))
  }

  /** The absolutely positioned box drawn for one detection, in display pixels. */
  datatype Overlay = Overlay(left: real, top: real, width: real, height: real)

  /** The style of one detection's box: its corners scaled to the display. */
  function OverlayFor(box: Box, scaleX: real, scaleY: real): (o: Overlay)
    ensures o.left == box.x1 * scaleX && o.top == box.y1 * scaleY
    ensures o.left + o.width == box.x2 * scaleX && o.top + o.height == box.y2 * scaleY
    ensures box.x1 <= box.x2 && scaleX >= 0.0 ==> o.width >= 0.0
    ensures box.y1 <= box.y2 && scaleY >= 0.0 ==> o.height >= 0.0
  {
    Overlay(box.x1 * scaleX, box.y1 * scaleY, (box.x2 - box.x1) * scaleX, (box.y2 - box.y1) * scaleY)
  }

  /** A box covering the whole video frame covers the whole container. */
  lemma FullFrameFillsContainer(v: Video, c: Container)
    requires v.videoWidth != 0 && v.videoHeight != 0
    ensures var s := ScaleFactors(Some(v), Some(c));
      OverlayFor(Box(0.0, 0.0, v.videoWidth as real, v.videoHeight as real), s.x.value, s.y.value)
        == Overlay(0.0, 0.0, c.clientWidth as real, c.clientHeight as real)
  {
    var s := ScaleFactors(Some(v), Some(c));
    assert s.x.value * v.videoWidth as real == c.clientWidth as real;
    assert s.y.value * v.videoHeight as real == c.clientHeight as real;
  }
}
