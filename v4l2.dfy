/**
 * The part of the V4L2 multi-planar streaming interface (linux/videodev2.h)
 * that the capture code uses: capability bits, pixel-format codes and the
 * records exchanged with the driver.
 */
module V4l2 {

  type u32 = x: int | 0 <= x < 0x1_0000_0000

  /** `V4L2_CAP_VIDEO_CAPTURE_MPLANE` and `V4L2_CAP_STREAMING`. */
  const CapVideoCaptureMplane: bv32 := 0x0000_1000
  const CapStreaming: bv32 := 0x0400_0000

  /** `v4l2_fourcc(a, b, c, d)`: four characters packed little-endian. */
  function Fourcc(a: char, b: char, c: char, d: char): (code: u32)
    requires a as int < 256 && b as int < 256 && c as int < 256 && d as int < 256
    ensures code % 256 == a as int
    ensures code / 0x100_0000 == d as int
  {
    a as int + b as int * 0x100 + c as int * 0x1_0000 + d as int * 0x100_0000
  }

  const PixFmtNv12: u32 := Fourcc('N', 'V', '1', '2')
  const PixFmtYuyv: u32 := Fourcc('Y', 'U', 'Y', 'V')
  const PixFmtYuv420: u32 := Fourcc('Y', 'U', '1', '2')

  /** `V4L2_FIELD_ANY` (what a zeroed format holds) and `V4L2_FIELD_NONE`. */
  const FieldAny: nat := 0
  const FieldNone: nat := 1

  /** `struct v4l2_plane_pix_format`, the fields the code sets or reads. */
  datatype PlaneFormat = PlaneFormat(sizeimage: int, bytesperline: int)

  /** `struct v4l2_pix_format_mplane`, the fields the code sets or reads. */
  datatype PixFormat = PixFormat(
    width: int,
    height: int,
    pixelformat: u32,
    field: nat,
    numPlanes: nat,
    plane0: PlaneFormat)

  /** Plane 0 as VIDIOC_QUERYBUF reports it: mapping length and device offset. */
  datatype PlaneInfo = PlaneInfo(length: nat, memOffset: nat)

  /**
   * `struct v4l2_buffer` as the code uses it: the slot index, the top-level
   * `bytesused`, and `bytesused` of plane 0, which the driver reports through
   * the plane array that `m.planes` points to.
   */
  datatype BufDesc = BufDesc(index: nat, bytesused: nat, plane0Bytesused: nat)

  /** A descriptor cleared by `memset` and then given a slot index. */
  function Cleared(index: nat): BufDesc {
    BufDesc(index, 0, 0)
  }

  /** The queue and stream requests issued to the driver, in order. */
  datatype QueueRequest = QBuf(index: nat) | DQBuf | StreamOn

  /** `VIDIOC_QBUF` for slots `0 .. n-1`, in that order. */
  function EnqueueRequests(n: nat): (rs: seq<QueueRequest>)
    ensures |rs| == n
    ensures forall i :: 0 <= i < n ==> rs[i] == QBuf(i)
  {
    seq(n, i requires 0 <= i < n => QBuf(i))
  }

  /** Enqueuing one more slot extends the request sequence by that slot. */
  lemma EnqueueOneMore(n: nat)
    ensures EnqueueRequests(n) + [QBuf(n)] == EnqueueRequests(n + 1)
  {
  }
}
