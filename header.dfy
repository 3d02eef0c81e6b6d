/**
 * The constants and the camera record layout declared by inc/camera_init.h,
 * together with the two pieces of C integer semantics the rest of the model
 * needs (truncating division and remainder).
 */
module CameraHeader {

  /** Frame geometry fixed by the header (`width1`, `height1`). */
  const Width1: int := 1920
  const Height1: int := 1080

  /** Slack the encoder side adds beyond the raw frame bytes (`1920*4`). */
  const EncoderSlack: int := 1920 * 4

  /** `YUV_SIZE`: bytes of one NV12 frame at the header geometry. */
  const YuvSize: int := Width1 * Height1 * 3 / 2

  /** `buffer_size`: the encoder-side buffer, a frame plus the slack. */
  const BufferSize: int := YuvSize + EncoderSlack

  /** `JPEG_QUALITY`. */
  const JpegQuality: int := 80

  /** The slot table `void* buffers[4][2]` of `camera_t`: rows and planes per row. */
  const SlotRows: nat := 4
  const PlanesPerSlot: nat := 2

  /** Return codes of every `int` operation the header declares. */
  const StatusOk: int := 0
  const StatusFail: int := -1

  predicate IsStatus(r: int) {
    r == StatusOk || r == StatusFail
  }

  /**
   * A C pointer value as far as the model needs to tell them apart:
   * NULL, mmap's MAP_FAILED, an address inside some mapped region, or the
   * address of a row of the slot table itself.
   */
  datatype Ptr = Null | MapFailed | At(addr: nat) | SlotRow(row: nat)

  /** C's `/` on `int` with a positive divisor: truncates toward zero. */
  function CDiv(a: int, b: int): (q: int)
    requires b > 0
    ensures a >= 0 ==> 0 <= a - q * b < b
    ensures a < 0 ==> -b < a - q * b <= 0
  {
    if a >= 0 then a / b else -((-a) / b)
  }

  /** C's `%` on `int` with a positive divisor: the remainder has the dividend's sign. */
  function CMod(a: int, b: int): (m: int)
    requires b > 0
    ensures a == CDiv(a, b) * b + m
    ensures -b < m < b
    ensures a >= 0 ==> m >= 0
    ensures a <= 0 ==> m <= 0
  {
    a - CDiv(a, b) * b
  }

  /** `width * height * 3 / 2` as C evaluates it: bytes of an NV12 frame. */
  function Nv12Size(width: int, height: int): int {
    CDiv(width * height * 3, 2)
  }

  /**
   * The header's sizes: a 1920x1080 NV12 frame is 3110400 bytes, and the
   * encoder buffer is strictly larger, so copying a whole frame into it fits.
   */
  lemma FrameSizes()
    ensures YuvSize == Nv12Size(Width1, Height1) == 3110400
    ensures BufferSize == YuvSize + 7680 && YuvSize < BufferSize
  {
  }
}
