/**
 * The outcome logic of `encode_frame_to_jpeg` (src/mipi_main_back.c): the
 * fixed JPEG encoder configuration, the error branches around configuring
 * the encoder, pushing the frame, collecting the packet and writing it out,
 * and which resources each branch gives back. The MPP and C library calls
 * become replies handed in.
 */
module Encode {
  import opened CameraHeader
  import opened Wrappers
  import opened Bridge

  datatype RcMode = FixQp

  /** The encoder settings written with `mpp_enc_cfg_set_s32`. */
  datatype EncCfg = EncCfg(
    width: int, height: int, horStride: int, verStride: int, format: MppFormat,
    qFactor: int, qfMax: int, qfMin: int, rcMode: RcMode)

  /** The configuration the program sets: 1920x1080 NV12, quality 80 in [1, 99], fixed QP. */
  const JpegCfg: EncCfg := EncCfg(1920, 1080, 1920, 1080, Yuv420sp, 80, 99, 1, FixQp)

  /**
   * The quality factor is the header's `JPEG_QUALITY` and lies in the
   * configured bounds, and the encoder expects exactly the frame `main`
   * builds for an NV12 capture at the header's geometry.
   */
  lemma JpegCfgMatchesFrame(yuvData: Ptr, yuvSize: int, o: WrapReplies)
    requires PutYuvData(yuvData, yuvSize, Width1, Height1, MppFormatOf(V4l2.PixFmtNv12), o).Wrapped?
    ensures JpegCfg.qfMin <= JpegCfg.qFactor <= JpegCfg.qfMax && JpegCfg.qFactor == JpegQuality
    ensures var f := PutYuvData(yuvData, yuvSize, Width1, Height1, MppFormatOf(V4l2.PixFmtNv12), o).frame;
      && f.width == JpegCfg.width && f.height == JpegCfg.height
      && f.horStride == JpegCfg.horStride && f.verStride == JpegCfg.verStride
      && f.format == JpegCfg.format
  {
  }

  /** `MppPacket`: where the JPEG data lies and how long it is. */
  datatype Packet = Packet(data: Ptr, length: nat)

  /**
   * The replies: the second `mpp_enc_cfg_init`, the MPP_ENC_SET_CFG control,
   * `encode_put_frame`, `encode_get_packet` with the packet it yields, the
   * output `fopen`, and the byte count of `fwrite`.
   */
  datatype EncodeReplies = EncodeReplies(
    cfgInitOk: bool, setCfgOk: bool, putFrameOk: bool, getPacketOk: bool,
    packet: Option<Packet>, openOk: bool, written: nat)

  datatype EncodeError =
    | CfgInitFailed
    | ConfigRejected
    | PutFrameFailed
    | GetPacketFailed
    | NullPacket
    | EmptyPacket
    | OutputOpenFailed
    | ShortWrite(written: nat)

  /** What a branch gives back before it returns, in order. */
  datatype Release = CfgDeinit | CtxDestroy | FileClosed | PacketDeinit | BufferPut

  datatype EncodeOutcome = EncodeOutcome(status: int, error: Option<EncodeError>, released: seq<Release>)

  /** The packet holds data: it exists, its data pointer is set and its length is not zero. */
  predicate UsablePacket(o: EncodeReplies) {
    o.packet.Some? && o.packet.value.data != Null && o.packet.value.length > 0
  }

  /** The encoder is configured, takes the frame and hands back a packet. */
  predicate PacketObtained(o: EncodeReplies) {
    o.cfgInitOk && o.setCfgOk && o.putFrameOk && o.getPacketOk && o.packet.Some?
  }

  /**
   * `encode_frame_to_jpeg`: configure the encoder, push the frame, collect
   * the packet and write its data to the output file. Success needs every
   * step to pass and the whole packet to be written; each failure returns
   * -1 at once, giving back only what that branch releases.
   */
  function EncodeFrameToJpeg(o: EncodeReplies): (out: EncodeOutcome)
    ensures IsStatus(out.status) && (out.status == StatusOk <==> out.error == None)
    ensures out.error == None <==>
      PacketObtained(o) && UsablePacket(o) && o.openOk && o.written == o.packet.value.length
    ensures out.error == Some(CfgInitFailed) <==> !o.cfgInitOk
    ensures out.error == Some(ConfigRejected) <==> o.cfgInitOk && !o.setCfgOk
    ensures out.error == Some(PutFrameFailed) <==> o.cfgInitOk && o.setCfgOk && !o.putFrameOk
    ensures out.error == Some(GetPacketFailed) <==> o.cfgInitOk && o.setCfgOk && o.putFrameOk && !o.getPacketOk
    ensures out.error == Some(NullPacket) <==>
      o.cfgInitOk && o.setCfgOk && o.putFrameOk && o.getPacketOk && o.packet.None?
    ensures out.error == Some(EmptyPacket) <==> PacketObtained(o) && !UsablePacket(o)
    ensures out.error == Some(OutputOpenFailed) <==> PacketObtained(o) && UsablePacket(o) && !o.openOk
    ensures (out.error.Some? && out.error.value.ShortWrite?) <==>
      PacketObtained(o) && UsablePacket(o) && o.openOk && o.written != o.packet.value.length
    ensures out.error.Some? && out.error.value.ShortWrite? ==> out.error.value.written == o.written
    ensures out.error == None ==> out.released == [FileClosed, PacketDeinit, BufferPut]
    ensures PacketDeinit in out.released <==> PacketObtained(o)
    ensures BufferPut in out.released <==> out.error == None
    ensures CtxDestroy in out.released <==> out.error in {Some(CfgInitFailed), Some(ConfigRejected)}
  {
    if !o.cfgInitOk then EncodeOutcome(StatusFail, Some(CfgInitFailed), [CtxDestroy])
    else if !o.setCfgOk then EncodeOutcome(StatusFail, Some(ConfigRejected), [CfgDeinit, CtxDestroy])
    else if !o.putFrameOk then EncodeOutcome(StatusFail, Some(PutFrameFailed), [])
    else if !o.getPacketOk then EncodeOutcome(StatusFail, Some(GetPacketFailed), [])
    else if o.packet.None? then EncodeOutcome(StatusFail, Some(NullPacket), [])
    else
      var p := o.packet.value;
      if p.data == Null || p.length == 0 then EncodeOutcome(StatusFail, Some(EmptyPacket), [PacketDeinit])
      else if !o.openOk then EncodeOutcome(StatusFail, Some(OutputOpenFailed), [PacketDeinit])
      else if o.written != p.length then EncodeOutcome(StatusFail, Some(ShortWrite(o.written)), [FileClosed, PacketDeinit])
      else EncodeOutcome(StatusOk, None, [FileClosed, PacketDeinit, BufferPut])
  }

  /**
   * The failures before a packet exists, once the encoder is configured,
   * release nothing: neither the configuration nor the context.
   */
  lemma EarlyEncodeFailuresReleaseNothing(o: EncodeReplies)
    requires o.cfgInitOk && o.setCfgOk && !PacketObtained(o)
    ensures EncodeFrameToJpeg(o).status == StatusFail && EncodeFrameToJpeg(o).released == []
  {
  }
}
