/**
 * `main` of src/mipi_main_back.c: bring the camera up for a 1920x1080 NV12
 * capture, take one frame, wrap it as an MPP frame, encode it to JPEG, and
 * hand the buffer back to the driver before closing the device.
 */
module MainBack {
  import opened CameraHeader
  import opened Wrappers
  import opened V4l2
  import opened Ownership
  import opened CameraInit
  import opened Bridge
  import opened Encode

  /** The calls `main` makes, in the order it makes them. */
  datatype Step =
    | InitCall | StartCaptureCall | CaptureCall | WrapCall
    | EncodeCall | FrameDeinitCall | RequeueCall | CloseCall

  /** Everything the device, MPP and the C library answer during one run. */
  datatype MainReplies = MainReplies(
    init: InitReplies,
    accepts: nat -> bool,
    streamOnOk: bool,
    select: TimeVal -> int,
    dequeued: Option<BufDesc>,
    wrap: WrapReplies,
    encode: EncodeReplies,
    requeueOk: bool)

  const CaptureTimeoutMs: int := 5000

  /** The number of buffers the driver grants (0 when it refuses). */
  function Granted(o: MainReplies): nat {
    if o.init.reqBufs(RequestedCount).Some? then o.init.reqBufs(RequestedCount).value else 0
  }

  /** Init and start-capture succeed. */
  predicate Started(o: MainReplies) {
    && InitFailure(Width1, Height1, PixFmtNv12, o.init) == None
    && FirstFalse(o.accepts, 0, Granted(o)) == Granted(o)
    && o.streamOnOk
  }

  /** The capture yields a frame: select reports data and DQBUF answers with an index in the ring. */
  predicate Captured(o: MainReplies) {
    && Started(o)
    && o.select(TimeoutSplit(CaptureTimeoutMs)) > 0
    && o.dequeued.Some?
    && o.dequeued.value.index < Granted(o)
  }

  predicate WrapSucceeds(o: MainReplies) {
    o.wrap.frameInitOk && o.wrap.importOk && !o.wrap.importedNull
  }

  /**
   * `encode_frame_to_jpeg` runs to a return: either `mpp_create` set up the
   * encoder handle, or the configuration init fails before the first call
   * through that handle.
   */
  predicate EncodeDefined(o: MainReplies) {
    o.wrap.createOk || !o.encode.cfgInitOk
  }

  /**
   * Steps 1 and 2 of `main`: init the camera, then start capturing, closing
   * the device when start-capture fails. On success the whole granted ring
   * is mapped and queued and the device streams.
   */
  method BringUp(o: MainReplies) returns (cam: Camera, ok: bool, ghost steps: seq<Step>)
    requires o.init.reqBufs(RequestedCount).Some? ==> o.init.reqBufs(RequestedCount).value <= SlotRows
    ensures fresh(cam) && fresh(cam.buffers) && cam.Valid() && cam.variant == Back
    ensures ok <==> Started(o)
    ensures !ok ==> !cam.isOpen
    ensures InitFailure(Width1, Height1, PixFmtNv12, o.init) != None ==> steps == [InitCall]
    ensures InitFailure(Width1, Height1, PixFmtNv12, o.init) == None && !ok ==>
      steps == [InitCall, StartCaptureCall, CloseCall]
    ensures ok ==>
      && cam.isOpen && cam.streaming && steps == [InitCall, StartCaptureCall]
      && cam.nBuffers == Granted(o)
      && cam.owner == AllIn(Granted(o), Queued)
      && cam.requests == EnqueueRequests(Granted(o)) + [StreamOn]
      && forall i :: 0 <= i < cam.nBuffers ==> cam.buffers[i, 0] == MappedAt(o.init, i)
  {
    cam := new Camera(Back);
    steps := [InitCall];
    var r, _ := cam.Init(Width1, Height1, PixFmtNv12, o.init);
    if r != StatusOk {
      return cam, false, steps;
    }
    assert cam.nBuffers == Granted(o);
    steps := steps + [StartCaptureCall];
    r := cam.StartCapture(o.accepts, o.streamOnOk);
    if r != StatusOk {
      cam.CloseDevice();
      steps := steps + [CloseCall];
      return cam, false, steps;
    }
    ok := true;
  }

  /**
   * One run of `main`. It exits with 0 exactly when the camera comes up and
   * a frame is captured and wrapped, whatever the encoder reports, provided
   * the encoder handle is usable. When `mpp_create` failed and encoding gets
   * as far as its first call through the handle, the run has no defined exit
   * (`exit == None`) and the device stays open. A failed init needs no close
   * (init closed the device); every later failure closes it, and a frame that
   * cannot be wrapped is requeued first. On success the frame is encoded
   * before it is released and its buffer requeued, and the ring is fully
   * queued again once the driver takes the buffer back.
   */
  method RunMain(o: MainReplies)
    returns (exit: Option<int>, cam: Camera, ghost steps: seq<Step>, ghost imported: Option<ImportInfo>)
    requires o.init.reqBufs(RequestedCount).Some? ==> o.init.reqBufs(RequestedCount).value <= SlotRows
    ensures cam.variant == Back
    ensures exit.Some? ==> IsStatus(exit.value) && !cam.isOpen
    ensures exit == Some(StatusOk) <==> Captured(o) && WrapSucceeds(o) && EncodeDefined(o)
    ensures exit == None <==> Captured(o) && WrapSucceeds(o) && !EncodeDefined(o)
    ensures InitFailure(Width1, Height1, PixFmtNv12, o.init) != None ==> steps == [InitCall]
    ensures InitFailure(Width1, Height1, PixFmtNv12, o.init) == None && !Started(o) ==>
      steps == [InitCall, StartCaptureCall, CloseCall]
    ensures Started(o) && !Captured(o) ==> steps == [InitCall, StartCaptureCall, CaptureCall, CloseCall]
    ensures Captured(o) && !WrapSucceeds(o) ==>
      steps == [InitCall, StartCaptureCall, CaptureCall, WrapCall, RequeueCall, CloseCall]
    ensures exit == None ==> cam.isOpen && steps == [InitCall, StartCaptureCall, CaptureCall, WrapCall, EncodeCall]
    ensures exit == Some(StatusOk) ==>
      && steps == [InitCall, StartCaptureCall, CaptureCall, WrapCall, EncodeCall, FrameDeinitCall, RequeueCall, CloseCall]
      && var b := o.dequeued.value;
         && imported == Some(ImportRegion(MappedAt(o.init, b.index), b.plane0Bytesused))
         && cam.requests == EnqueueRequests(Granted(o)) + [StreamOn, DQBuf, QBuf(b.index)]
         && (o.requeueOk ==> cam.owner == AllIn(Granted(o), Queued))
  {
    imported := None;
    var started;
    cam, started, steps := BringUp(o);
    if !started {
      return Some(StatusFail), cam, steps, imported;
    }
    steps := steps + [CaptureCall];
    var yuv := cam.Capture(CaptureTimeoutMs, o.select, o.dequeued);
    if yuv == Null {
      cam.CloseDevice();
      steps := steps + [CloseCall];
      return Some(StatusFail), cam, steps, imported;
    }
    var format := MppFormatOf(PixFmtNv12);
    steps := steps + [WrapCall];
    var wrapped := PutYuvData(yuv, FrameBytes(cam.buf), Width1, Height1, format, o.wrap);
    if wrapped.NotWrapped? {
      var _ := cam.Requeue(o.requeueOk);
      cam.CloseDevice();
      steps := steps + [RequeueCall, CloseCall];
      return Some(StatusFail), cam, steps, imported;
    }
    imported := Some(wrapped.frame.buffer);
    steps := steps + [EncodeCall];
    if !o.wrap.createOk && o.encode.cfgInitOk {
      return None, cam, steps, imported;
    }
    var _ := EncodeFrameToJpeg(o.encode);
    steps := steps + [FrameDeinitCall];
    var _ := cam.Requeue(o.requeueOk);
    if o.requeueOk {
      DequeueRequeueRoundTrip(Granted(o), cam.buf.index);
    }
    cam.CloseDevice();
    steps := steps + [RequeueCall, CloseCall];
    exit := Some(StatusOk);
  }
}
