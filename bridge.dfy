/**
 * The bridge from a captured V4L2 frame to a Rockchip MPP frame in
 * src/mipi_main_back.c: the pixel-format translation in `main` and the
 * frame descriptor `put_yuv_data_to_mpp_buffer` builds around the capture
 * memory. The MPP calls become replies handed in.
 */
module Bridge {
  import opened CameraHeader
  import opened V4l2
  import opened CameraInit

  /** The MPP frame formats the translation produces. */
  datatype MppFormat = Yuv420sp | Yuv420p | Yuv422Yuyv

  /**
   * The `switch` in `main`: NV12 is semi-planar 4:2:0, YUV420 is planar
   * 4:2:0, and YUYV and every other V4L2 format become packed YUYV 4:2:2.
   */
  function MppFormatOf(pixelformat: u32): (f: MppFormat)
    ensures f == Yuv420sp <==> pixelformat == PixFmtNv12
    ensures f == Yuv420p <==> pixelformat == PixFmtYuv420
    ensures f == Yuv422Yuyv <==> pixelformat != PixFmtNv12 && pixelformat != PixFmtYuv420
  {
    if pixelformat == PixFmtYuyv then Yuv422Yuyv
    else if pixelformat == PixFmtNv12 then Yuv420sp
    else if pixelformat == PixFmtYuv420 then Yuv420p
    else Yuv422Yuyv
  }

  /** The V4L2 format each MPP format is the image of. */
  function V4l2FormatOf(f: MppFormat): u32 {
    match f
    case Yuv420sp => PixFmtNv12
    case Yuv420p => PixFmtYuv420
    case Yuv422Yuyv => PixFmtYuyv
  }

  /**
   * The table is a bijection between the three named V4L2 formats and the
   * three MPP formats, and YUYV lands where the fallback does.
   */
  lemma FormatTableRoundTrip(f: MppFormat, pixelformat: u32)
    ensures MppFormatOf(V4l2FormatOf(f)) == f
    ensures pixelformat in {PixFmtNv12, PixFmtYuv420, PixFmtYuyv} ==>
      V4l2FormatOf(MppFormatOf(pixelformat)) == pixelformat
    ensures MppFormatOf(PixFmtYuyv) == Yuv422Yuyv
  {
  }

  /** `MppBufferInfo`: an external memory region handed to `mpp_buffer_import`. */
  datatype ImportInfo = ImportInfo(size: int, ptr: Ptr, fd: int, normal: bool)

  /** The MPP frame fields `put_yuv_data_to_mpp_buffer` sets. */
  datatype FrameDesc = FrameDesc(
    width: int, height: int, horStride: int, verStride: int,
    format: MppFormat, eos: bool, buffer: ImportInfo)

  /**
   * The MPP replies: `mpp_create` and `mpp_init` (whose failures are only
   * logged), `mpp_frame_init`, and `mpp_buffer_import` with whether the
   * buffer it hands back is NULL.
   */
  datatype WrapReplies = WrapReplies(
    createOk: bool, initOk: bool, frameInitOk: bool, importOk: bool, importedNull: bool)

  datatype WrapError = FrameInitFailed | ImportRejected

  /** A frame, or NULL together with whether the half-built frame was released. */
  datatype WrapResult = Wrapped(frame: FrameDesc) | NotWrapped(error: WrapError, frameReleased: bool)

  /**
   * The import region: the capture memory itself (nothing is copied), its
   * size the frame size plus `1920*4` bytes of slack, no file descriptor,
   * normal memory.
   */
  function ImportRegion(yuvData: Ptr, yuvSize: int): (info: ImportInfo)
    ensures info.ptr == yuvData && info.fd == -1 && info.normal
    ensures info.size - yuvSize == EncoderSlack && info.size > yuvSize
  {
    ImportInfo(yuvSize + 1920 * 4, yuvData, -1, true)
  }

  /**
   * `put_yuv_data_to_mpp_buffer`. A failed frame init gives NULL with nothing
   * to release; a rejected or NULL import releases the frame before giving
   * NULL. Otherwise the frame has the given geometry and format, strides equal
   * to width and height, the end-of-stream flag, and the import region.
   */
  function PutYuvData(yuvData: Ptr, yuvSize: int, width: int, height: int, format: MppFormat, o: WrapReplies)
    : (r: WrapResult)
    ensures r.Wrapped? <==> o.frameInitOk && o.importOk && !o.importedNull
    ensures r.NotWrapped? ==> (r.error == FrameInitFailed <==> !o.frameInitOk)
    ensures r.NotWrapped? ==> (r.frameReleased <==> r.error == ImportRejected)
    ensures r.Wrapped? ==>
      && r.frame.width == width && r.frame.height == height && r.frame.format == format
      && r.frame.horStride == width && r.frame.verStride == height && r.frame.eos
      && r.frame.buffer == ImportRegion(yuvData, yuvSize)
  {
    if !o.frameInitOk then NotWrapped(FrameInitFailed, false)
    else if !o.importOk || o.importedNull then NotWrapped(ImportRejected, true)
    else Wrapped(FrameDesc(width, height, width, height, format, true, ImportRegion(yuvData, yuvSize)))
  }

  /** The results of `mpp_create` and `mpp_init` are logged and otherwise ignored. */
  lemma ContextRepliesIgnored(
    yuvData: Ptr, yuvSize: int, width: int, height: int, format: MppFormat, o: WrapReplies,
    createOk: bool, initOk: bool)
    ensures PutYuvData(yuvData, yuvSize, width, height, format, o)
         == PutYuvData(yuvData, yuvSize, width, height, format, o.(createOk := createOk, initOk := initOk))
  {
  }

  /**
   * The frame's horizontal stride is the line pitch init asks the driver for,
   * and a whole requested NV12 frame lies inside the import region.
   */
  lemma FrameMatchesCaptureFormat(yuvData: Ptr, width: int, height: int, pixelformat: u32, o: WrapReplies)
    requires width > 0 && height > 0
    requires PutYuvData(yuvData, Nv12Size(width, height), width, height, MppFormatOf(pixelformat), o).Wrapped?
    ensures var r := PutYuvData(yuvData, Nv12Size(width, height), width, height, MppFormatOf(pixelformat), o);
      && r.frame.horStride == RequestedFormat(width, height, pixelformat).plane0.bytesperline
      && r.frame.buffer.size > RequestedFormat(width, height, pixelformat).plane0.sizeimage
  {
  }

  /** At the program's geometry the import region is exactly `buffer_size` bytes. */
  lemma ImportIsBufferSize(yuvData: Ptr)
    ensures ImportRegion(yuvData, YuvSize).size == BufferSize
  {
  }

  /**
   * The frame size `main` passes: `cam.buf.bytesused`, the top-level field of
   * the dequeued descriptor.
   */
  function MainFrameBytesAsWritten(buf: BufDesc): nat {
    buf.bytesused
  }

  /**
   * A multi-planar DQBUF reply: the driver fills the per-plane byte counts
   * and leaves the top-level `bytesused` at the zero the caller cleared it to.
   */
  function MplaneDequeueReply(index: nat, planeBytes: nat): BufDesc {
    BufDesc(index, 0, planeBytes)
  }

  /**
   * As written, a full NV12 frame dequeued through the multi-planar API is
   * imported as a region of only the `1920*4` slack bytes, far short of the
   * frame.
   */
  lemma AsWrittenImportMissesFrame(yuvData: Ptr, index: nat)
    ensures var size := ImportRegion(yuvData, MainFrameBytesAsWritten(MplaneDequeueReply(index, YuvSize))).size;
      size == EncoderSlack && size < YuvSize
  {
  }

  /** The frame size `main` should pass: the bytes the driver filled in plane 0. */
  function FrameBytes(buf: BufDesc): nat {
    buf.plane0Bytesused
  }

  /**
   * With the plane's byte count, a full NV12 frame dequeued through the
   * multi-planar API is imported as `buffer_size` bytes, covering the frame.
   */
  lemma CorrectedImportCoversFrame(yuvData: Ptr, index: nat)
    ensures var size := ImportRegion(yuvData, FrameBytes(MplaneDequeueReply(index, YuvSize))).size;
      size == BufferSize && size > YuvSize
  {
  }
}
