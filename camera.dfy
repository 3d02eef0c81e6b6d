/**
 * The capture session of lib/camera_init.c: device probing and format
 * negotiation, the buffer request and the mapping of the slot table, the
 * start-capture enqueue loop, the timed dequeue and the requeue.
 *
 * The driver is an oracle: every reply the code reads from `open`, `ioctl`,
 * `mmap` or `select` is a parameter of the operation that issues the call.
 * Per-slot replies inside a loop are total functions of the slot index.
 */
module CameraInit {
  import opened CameraHeader
  import opened Wrappers
  import opened V4l2
  import opened Ownership

  /** The buffer count requested with VIDIOC_REQBUFS, and the least count accepted. */
  const RequestedCount: nat := 4
  const MinBuffers: nat := 2

  /**
   * Which copy of the camera functions: lib/camera_init.c, or the near
   * duplicate at the top of src/mipi_main_back.c. They differ in the
   * plane-count warning and in what capture returns (see BackCaptureResult).
   */
  datatype Variant = Library | Back

  /**
   * What `mmap` can answer for a mapping with no address hint: an address of
   * mapped memory, or MAP_FAILED.
   */
  type MmapReply = p: Ptr | p.At? || p == MapFailed witness MapFailed

  /** The driver's replies to the init sequence. */
  datatype InitReplies = InitReplies(
    fd: int,                                 // open(): a descriptor, negative on failure
    caps: Option<bv32>,                      // VIDIOC_QUERYCAP: capabilities, None if it fails
    setFmt: PixFormat -> Option<PixFormat>,  // VIDIOC_S_FMT: the format written back, None if rejected
    getFmt: Option<PixFormat>,               // VIDIOC_G_FMT: the format in force, None if it fails
    reqBufs: nat -> Option<nat>,             // VIDIOC_REQBUFS: the count granted for a requested count
    queryBuf: nat -> Option<PlaneInfo>,      // VIDIOC_QUERYBUF of a slot: plane 0's length and offset
    mmap: PlaneInfo -> MmapReply)            // mmap() of plane 0

  /** Why init fails, first failing step first. */
  datatype InitError =
    | OpenFailed
    | QueryCapFailed
    | NoMultiplaneCapture
    | NoStreamingIo
    | SetFormatFailed
    | ReqBufsFailed
    | TooFewBuffers(granted: nat)
    | QueryBufFailed(index: nat)
    | MmapFailed(index: nat)

  /** Warnings init reports about the format the driver put in force; none of them fails init. */
  datatype FormatWarning = PixelFormatChanged | FewPlanes(planes: nat) | FormatQueryFailed

  /** `struct timeval`. */
  datatype TimeVal = TimeVal(sec: int, usec: int)

  /** The multi-planar format init asks for: one plane, progressive, NV12-sized. */
  function RequestedFormat(width: int, height: int, pixelformat: u32): PixFormat {
    PixFormat(width, height, pixelformat, FieldNone, 1, PlaneFormat(Nv12Size(width, height), width))
  }

  /**
   * The request is a single progressive plane whose stride is the width and
   * whose size is one and a half bytes per pixel; at the header's geometry it
   * is exactly `YUV_SIZE`.
   */
  lemma RequestedFormatShape(width: int, height: int, pixelformat: u32)
    requires width >= 0 && height >= 0
    ensures var f := RequestedFormat(width, height, pixelformat);
      && f.numPlanes == 1 && f.field == FieldNone
      && f.width == width && f.height == height && f.pixelformat == pixelformat
      && f.plane0.bytesperline == width
      && 2 * f.plane0.sizeimage <= 3 * width * height < 2 * f.plane0.sizeimage + 2
    ensures RequestedFormat(Width1, Height1, pixelformat).plane0.sizeimage == YuvSize
  {
  }

  /** The first `n` slots all satisfy `ok` from `lo` up to the result, which fails `ok` if below `n`. */
  function FirstFalse(ok: nat -> bool, lo: nat, n: nat): (k: nat)
    requires lo <= n
    ensures lo <= k <= n
    ensures forall j :: lo <= j < k ==> ok(j)
    ensures k < n ==> !ok(k)
    decreases n - lo
  {
    if lo == n || !ok(lo) then lo else FirstFalse(ok, lo + 1, n)
  }

  /** FirstFalse depends only on the values of `ok`. */
  lemma {:induction false} FirstFalseRespectsValues(ok: nat -> bool, ok': nat -> bool, lo: nat, n: nat)
    requires lo <= n
    requires forall j :: lo <= j < n ==> ok(j) == ok'(j)
    ensures FirstFalse(ok, lo, n) == FirstFalse(ok', lo, n)
    decreases n - lo
  {
    if lo < n && ok(lo) {
      FirstFalseRespectsValues(ok, ok', lo + 1, n);
    }
  }

  /** Whether slot `i` can be queried and its plane 0 mapped. */
  predicate SlotMaps(o: InitReplies, i: nat) {
    o.queryBuf(i).Some? && o.mmap(o.queryBuf(i).value) != MapFailed
  }

  function SlotCheck(o: InitReplies): nat -> bool {
    (i: nat) => SlotMaps(o, i)
  }

  /** The number of slots mapped before the first one that fails (`n` when none fails). */
  function MappedCount(o: InitReplies, n: nat): nat {
    FirstFalse(SlotCheck(o), 0, n)
  }

  /** The pointer the mapping step stores for slot `i`. */
  function MappedAt(o: InitReplies, i: nat): Ptr {
    match o.queryBuf(i)
    case Some(info) => o.mmap(info)
    case None => Null
  }

  /** Rows of the slot table init writes: the mapped ones, plus a failed mmap's MAP_FAILED. */
  function RowsWritten(o: InitReplies, n: nat): nat {
    var k := MappedCount(o, n);
    if k < n && o.queryBuf(k).Some? then k + 1 else k
  }

  /** The capability check passes: the device does multi-planar capture and streaming I/O. */
  predicate CapsOk(caps: bv32) {
    caps & CapVideoCaptureMplane != 0 && caps & CapStreaming != 0
  }

  /** Init gets as far as setting the format. */
  predicate ReachesSetFormat(o: InitReplies) {
    o.fd >= 0 && o.caps.Some? && CapsOk(o.caps.value)
  }

  /** `cam->fmt` once VIDIOC_S_FMT has run: the driver's write-back, or the request if rejected. */
  function FormatAfterSet(width: int, height: int, pixelformat: u32, o: InitReplies): PixFormat {
    var requested := RequestedFormat(width, height, pixelformat);
    match o.setFmt(requested)
    case Some(f) => f
    case None => requested
  }

  /** The open, capability and format steps of init; None when all pass. */
  function ProbeFailure(width: int, height: int, pixelformat: u32, o: InitReplies): Option<InitError> {
    if o.fd < 0 then Some(OpenFailed)
    else if o.caps.None? then Some(QueryCapFailed)
    else if o.caps.value & CapVideoCaptureMplane == 0 then Some(NoMultiplaneCapture)
    else if o.caps.value & CapStreaming == 0 then Some(NoStreamingIo)
    else if o.setFmt(RequestedFormat(width, height, pixelformat)).None? then Some(SetFormatFailed)
    else None
  }

  /** Init reaches the mapping loop: probing passed and at least two buffers were granted. */
  predicate ReachesMapping(width: int, height: int, pixelformat: u32, o: InitReplies) {
    && ProbeFailure(width, height, pixelformat, o) == None
    && o.reqBufs(RequestedCount).Some?
    && o.reqBufs(RequestedCount).value >= MinBuffers
  }

  /** The first step of init that fails, or None when init succeeds. */
  function InitFailure(width: int, height: int, pixelformat: u32, o: InitReplies): Option<InitError> {
    var probe := ProbeFailure(width, height, pixelformat, o);
    if probe.Some? then probe
    else if o.reqBufs(RequestedCount).None? then Some(ReqBufsFailed)
    else
      var n := o.reqBufs(RequestedCount).value;
      if n < MinBuffers then Some(TooFewBuffers(n))
      else
        var k := MappedCount(o, n);
        if k == n then None
        else if o.queryBuf(k).None? then Some(QueryBufFailed(k))
        else Some(MmapFailed(k))
  }

  /**
   * Init succeeds only on a device that reports both multi-planar capture and
   * streaming I/O; lacking either one, it fails with that reason.
   */
  lemma InitNeedsCapabilities(width: int, height: int, pixelformat: u32, o: InitReplies)
    ensures InitFailure(width, height, pixelformat, o) == None ==> o.caps.Some? && CapsOk(o.caps.value)
    ensures o.fd >= 0 && o.caps.Some? && o.caps.value & CapVideoCaptureMplane == 0 ==>
      InitFailure(width, height, pixelformat, o) == Some(NoMultiplaneCapture)
    ensures (o.fd >= 0 && o.caps.Some? && o.caps.value & CapVideoCaptureMplane != 0
             && o.caps.value & CapStreaming == 0) ==>
      InitFailure(width, height, pixelformat, o) == Some(NoStreamingIo)
  {
  }

  /**
   * Once probing passes and the driver answers the buffer request, init fails
   * for too few buffers exactly when fewer than two are granted; a grant of
   * exactly two whose slots map is a success.
   */
  lemma GrantFloorIsTwo(width: int, height: int, pixelformat: u32, o: InitReplies)
    requires ProbeFailure(width, height, pixelformat, o) == None
    requires o.reqBufs(RequestedCount).Some?
    ensures var g := o.reqBufs(RequestedCount).value;
      InitFailure(width, height, pixelformat, o) == Some(TooFewBuffers(g)) <==> g < MinBuffers
    ensures o.reqBufs(RequestedCount).value == 2 && SlotMaps(o, 0) && SlotMaps(o, 1) ==>
      InitFailure(width, height, pixelformat, o) == None
  {
  }

  /**
   * A mapping failure names the first slot that cannot be queried or mapped;
   * every slot before it was mapped.
   */
  lemma MappingFailureIsFirstBadSlot(width: int, height: int, pixelformat: u32, o: InitReplies, k: nat)
    requires InitFailure(width, height, pixelformat, o) in {Some(QueryBufFailed(k)), Some(MmapFailed(k))}
    ensures ReachesMapping(width, height, pixelformat, o)
    ensures k < o.reqBufs(RequestedCount).value && !SlotMaps(o, k)
    ensures forall j :: 0 <= j < k ==> SlotMaps(o, j)
  {
    var n := o.reqBufs(RequestedCount).value;
    assert k == MappedCount(o, n);
    forall j | 0 <= j < k ensures SlotMaps(o, j) {
      assert SlotCheck(o)(j);
    }
  }

  /**
   * What the driver reports when the format is re-queried never changes
   * whether init succeeds, nor does the content of the format it writes back:
   * divergence from the request is only warned about.
   */
  lemma FormatDivergenceOnlyWarns(
    width: int, height: int, pixelformat: u32, o: InitReplies,
    adjusted: PixFormat -> Option<PixFormat>, requeried: Option<PixFormat>)
    requires adjusted(RequestedFormat(width, height, pixelformat)).Some?
          == o.setFmt(RequestedFormat(width, height, pixelformat)).Some?
    ensures InitFailure(width, height, pixelformat, o)
         == InitFailure(width, height, pixelformat, o.(setFmt := adjusted, getFmt := requeried))
  {
    var o' := o.(setFmt := adjusted, getFmt := requeried);
    if o.reqBufs(RequestedCount).Some? {
      FirstFalseRespectsValues(SlotCheck(o), SlotCheck(o'), 0, o.reqBufs(RequestedCount).value);
    }
  }

  /**
   * The plane-count warning. The library warns when the driver reports fewer
   * planes than `cam->fmt` holds; the copy in src/mipi_main_back.c warns
   * whenever it reports at most one.
   */
  predicate PlaneCountWarns(variant: Variant, stored: PixFormat, actual: PixFormat) {
    match variant
    case Library => actual.numPlanes < stored.numPlanes
    case Back => actual.numPlanes <= 1
  }

  /** The warnings init emits after re-querying the format. */
  function FormatWarnings(variant: Variant, pixelformat: u32, stored: PixFormat, actual: Option<PixFormat>)
    : (w: set<FormatWarning>)
    ensures FormatQueryFailed in w <==> actual.None?
    ensures PixelFormatChanged in w <==> actual.Some? && actual.value.pixelformat != pixelformat
    ensures actual.Some? ==>
      (FewPlanes(actual.value.numPlanes) in w <==> PlaneCountWarns(variant, stored, actual.value))
    ensures forall x :: x in w && x.FewPlanes? ==> actual.Some? && x.planes == actual.value.numPlanes
  {
    match actual
    case None => {FormatQueryFailed}
    case Some(a) =>
      (if a.pixelformat != pixelformat then {PixelFormatChanged} else {})
      + (if PlaneCountWarns(variant, stored, a) then {FewPlanes(a.numPlanes)} else {})
  }

  /**
   * A driver that keeps the one-plane request unchanged draws no warning
   * from the library, but the plane-count warning from the back copy.
   */
  lemma BackWarnsOnHonouredRequest(width: int, height: int, pixelformat: u32)
    ensures var f := RequestedFormat(width, height, pixelformat);
      && FormatWarnings(Library, pixelformat, f, Some(f)) == {}
      && FormatWarnings(Back, pixelformat, f, Some(f)) == {FewPlanes(1)}
  {
  }

  /**
   * The `select` timeout: whole seconds and the remaining microseconds, with
   * C's truncating `/` and `%`. Together they are exactly the timeout, and the
   * microseconds stay below one second.
   */
  function TimeoutSplit(timeoutMs: int): (tv: TimeVal)
    ensures tv.sec * 1000000 + tv.usec == timeoutMs * 1000
    ensures -1000000 < tv.usec < 1000000
    ensures timeoutMs >= 0 ==> tv.sec >= 0 && 0 <= tv.usec < 1000000
  {
    TimeVal(CDiv(timeoutMs, 1000), CMod(timeoutMs, 1000) * 1000)
  }

  /**
   * What `capture_yuv_frame` in src/mipi_main_back.c returns for an accepted
   * index: `cam->buffers[index]`, the address of a row of the slot table,
   * which is never the address of mapped frame memory.
   */
  function BackCaptureResult(index: nat): (p: Ptr)
    ensures p != Null && !p.At?
  {
    SlotRow(index)
  }

  /**
   * For a slot that maps, the back copy's capture result is not what init
   * stored for that slot: init stored mapped memory, and the back copy
   * returns the slot-table row.
   */
  lemma BackCaptureMissesMapping(o: InitReplies, index: nat)
    requires SlotMaps(o, index)
    ensures MappedAt(o, index).At?
    ensures BackCaptureResult(index) != MappedAt(o, index)
  {
  }

  /**
   * The queue requests start-capture issues: QBUF for slots 0, 1, ... up to
   * and including the first one the driver rejects; stream-on only when none
   * is rejected.
   */
  function StartCaptureRequests(accepts: nat -> bool, n: nat): seq<QueueRequest> {
    var k := FirstFalse(accepts, 0, n);
    if k < n then EnqueueRequests(k + 1) else EnqueueRequests(n) + [StreamOn]
  }

  /** `camera_t`: the descriptor, the formats, the current buffer and the slot table. */
  class Camera {
    const variant: Variant
    var isOpen: bool
    var fd: int
    var fmt: PixFormat
    var buf: BufDesc
    const buffers: array2<Ptr>
    var nBuffers: nat
    // The driver's side of the protocol, kept for the proofs.
    ghost var owner: seq<SlotState>
    ghost var requests: seq<QueueRequest>
    ghost var streaming: bool

    /** The slot table is 4 x 2, and the ring it tracks fits in it. */
    ghost predicate Valid()
      reads this
    {
      && buffers.Length0 == SlotRows
      && buffers.Length1 == PlanesPerSlot
      && nBuffers <= SlotRows
      && |owner| == nBuffers
    }

    constructor (variant: Variant)
      ensures Valid() && fresh(buffers)
      ensures this.variant == variant
      ensures !isOpen && !streaming && nBuffers == 0 && owner == [] && requests == []
    {
      this.variant := variant;
      isOpen, fd := false, -1;
      fmt := PixFormat(0, 0, 0, FieldAny, 0, PlaneFormat(0, 0));
      buf := Cleared(0);
      buffers := new Ptr[SlotRows, PlanesPerSlot]((_, _) => Null);
      nBuffers := 0;
      owner, requests, streaming := [], [], false;
    }

    /**
     * `camera_init`: open, check capabilities, set and re-query the format,
     * request buffers and map plane 0 of every granted slot. Any failure
     * closes the device; mappings made before a failed one stay in place.
     */
    method Init(width: int, height: int, pixelformat: u32, o: InitReplies)
      returns (r: int, warnings: set<FormatWarning>)
      requires Valid()
      requires o.reqBufs(RequestedCount).Some? ==> o.reqBufs(RequestedCount).value <= SlotRows
      modifies this, buffers
      ensures Valid()
      ensures requests == old(requests) && streaming == old(streaming)
      ensures IsStatus(r)
      ensures r == StatusOk <==> InitFailure(width, height, pixelformat, o) == None
      ensures fd == o.fd && (isOpen <==> r == StatusOk)
      ensures fmt == if ReachesSetFormat(o) then FormatAfterSet(width, height, pixelformat, o) else old(fmt)
      ensures warnings == if ProbeFailure(width, height, pixelformat, o) == None
                          then FormatWarnings(variant, pixelformat, fmt, o.getFmt) else {}
      ensures !ReachesMapping(width, height, pixelformat, o) ==>
        && nBuffers == old(nBuffers) && owner == old(owner) && buf == old(buf)
        && forall i, j :: 0 <= i < SlotRows && 0 <= j < PlanesPerSlot ==> buffers[i, j] == old(buffers[i, j])
      ensures ReachesMapping(width, height, pixelformat, o) ==>
        && nBuffers == o.reqBufs(RequestedCount).value
        && MappingDone(o, old(owner), old(buf))
        && forall i, j :: 0 <= i < SlotRows && 0 <= j < PlanesPerSlot ==>
             buffers[i, j] == if j == 0 && i < RowsWritten(o, nBuffers) then MappedAt(o, i) else old(buffers[i, j])
      ensures r == StatusOk ==> owner == AllIn(nBuffers, Idle)
    {
      var probed;
      probed, warnings := Probe(width, height, pixelformat, o);
      if !probed {
        return StatusFail, warnings;
      }
      var granted := o.reqBufs(RequestedCount);
      if granted.None? || granted.value < MinBuffers {
        isOpen := false;
        return StatusFail, warnings;
      }
      nBuffers := granted.value;
      var mapped := MapSlots(o);
      if !mapped {
        isOpen := false;
        return StatusFail, warnings;
      }
      r := StatusOk;
    }

    /**
     * The first half of `camera_init`: open the device, check its
     * capabilities, set the format and re-query it. On failure the device
     * is closed again.
     */
    method Probe(width: int, height: int, pixelformat: u32, o: InitReplies)
      returns (ok: bool, warnings: set<FormatWarning>)
      modifies this`isOpen, this`fd, this`fmt
      ensures ok <==> ProbeFailure(width, height, pixelformat, o) == None
      ensures fd == o.fd && isOpen == ok
      ensures fmt == if ReachesSetFormat(o) then FormatAfterSet(width, height, pixelformat, o) else old(fmt)
      ensures warnings == if ok then FormatWarnings(variant, pixelformat, fmt, o.getFmt) else {}
    {
      warnings := {};
      fd := o.fd;
      isOpen := false;
      if fd < 0 || o.caps.None? {
        return false, warnings;
      }
      var caps := o.caps.value;
      if caps & CapVideoCaptureMplane == 0 || caps & CapStreaming == 0 {
        return false, warnings;
      }
      var requested := RequestedFormat(width, height, pixelformat);
      fmt := requested;
      var written := o.setFmt(requested);
      if written.None? {
        return false, warnings;
      }
      fmt := written.value;
      isOpen := true;
      warnings := FormatWarnings(variant, pixelformat, fmt, o.getFmt);
      ok := true;
    }

    /**
     * The state the mapping loop leaves: the slots before the first failing
     * one are mapped and idle, the rest unmapped, and `cam->buf` describes
     * the last slot queried.
     */
    ghost predicate MappingDone(o: InitReplies, owner0: seq<SlotState>, buf0: BufDesc)
      reads this
    {
      var k := MappedCount(o, nBuffers);
      && owner == WithPrefix(AllIn(nBuffers, Unmapped), k, Idle)
      && buf == if nBuffers == 0 then buf0 else Cleared(if k < nBuffers then k else nBuffers - 1)
    }

    /**
     * The mapping loop of `camera_init`: query slot `i` and map its plane 0,
     * for `i` from 0 up to `n_buffers`, stopping at the first failure.
     */
    method MapSlots(o: InitReplies) returns (ok: bool)
      requires buffers.Length0 == SlotRows && buffers.Length1 == PlanesPerSlot && nBuffers <= SlotRows
      modifies this`owner, this`buf, buffers
      ensures Valid()
      ensures ok <==> MappedCount(o, nBuffers) == nBuffers
      ensures MappingDone(o, old(owner), old(buf))
      ensures forall a, b :: 0 <= a < SlotRows && 0 <= b < PlanesPerSlot ==>
        buffers[a, b] == if b == 0 && a < RowsWritten(o, nBuffers) then MappedAt(o, a) else old(buffers[a, b])
    {
      owner := AllIn(nBuffers, Unmapped);
      ghost var unmapped := owner;
      ghost var k := MappedCount(o, nBuffers);
      var i := 0;
      while i < nBuffers
        invariant 0 <= i <= k <= nBuffers
        invariant owner == WithPrefix(unmapped, i, Idle)
        invariant buf == if i == 0 then old(buf) else Cleared(i - 1)
        invariant forall a, b :: 0 <= a < SlotRows && 0 <= b < PlanesPerSlot ==>
          buffers[a, b] == if b == 0 && a < i then MappedAt(o, a) else old(buffers[a, b])
      {
        assert SlotCheck(o)(i) == SlotMaps(o, i);
        buf := Cleared(i);
        var info := o.queryBuf(i);
        if info.None? {
          return false;
        }
        var p := o.mmap(info.value);
        buffers[i, 0] := p;
        if p == MapFailed {
          return false;
        }
        WithPrefixStep(unmapped, i, Idle);
        owner := owner[i := Idle];
        i := i + 1;
      }
      ok := true;
    }

    /**
     * `camera_start_capture`: enqueue slots `0 .. n_buffers-1` in order, then
     * issue stream-on. The first rejected enqueue fails the call at once,
     * and stream-on is then never issued.
     */
    method StartCapture(accepts: nat -> bool, streamOnOk: bool) returns (r: int)
      requires Valid()
      modifies this
      ensures Valid()
      ensures nBuffers == old(nBuffers) && isOpen == old(isOpen) && fd == old(fd) && fmt == old(fmt)
      ensures IsStatus(r)
      ensures r == StatusOk <==> FirstFalse(accepts, 0, nBuffers) == nBuffers && streamOnOk
      ensures requests == old(requests) + StartCaptureRequests(accepts, nBuffers)
      ensures EnqueueDone(accepts, old(owner), old(buf))
      ensures streaming == (old(streaming) || r == StatusOk)
      ensures r == StatusOk ==> owner == AllIn(nBuffers, Queued)
    {
      var queued := EnqueueSlots(accepts);
      if !queued {
        return StatusFail;
      }
      WithPrefixWhole(old(owner), Queued);
      requests := requests + [StreamOn];
      if !streamOnOk {
        return StatusFail;
      }
      streaming := true;
      r := StatusOk;
    }

    /**
     * The state the enqueue loop leaves: the slots before the first rejected
     * one are queued, and `cam->buf` describes the last slot offered.
     */
    ghost predicate EnqueueDone(accepts: nat -> bool, owner0: seq<SlotState>, buf0: BufDesc)
      reads this
    {
      var k := FirstFalse(accepts, 0, nBuffers);
      && |owner0| == nBuffers
      && owner == WithPrefix(owner0, k, Queued)
      && buf == if nBuffers == 0 then buf0 else Cleared(if k < nBuffers then k else nBuffers - 1)
    }

    /**
     * The enqueue loop of `camera_start_capture`: QBUF slot `i` for `i` from 0
     * up to `n_buffers`, stopping at the first rejection.
     */
    method EnqueueSlots(accepts: nat -> bool) returns (ok: bool)
      requires Valid()
      modifies this`owner, this`buf, this`requests
      ensures Valid()
      ensures ok <==> FirstFalse(accepts, 0, nBuffers) == nBuffers
      ensures requests == old(requests) + EnqueueRequests(
        if ok then nBuffers else FirstFalse(accepts, 0, nBuffers) + 1)
      ensures EnqueueDone(accepts, old(owner), old(buf))
    {
      ghost var k := FirstFalse(accepts, 0, nBuffers);
      var i := 0;
      while i < nBuffers
        invariant 0 <= i <= k <= nBuffers
        invariant |owner| == nBuffers
        invariant requests == old(requests) + EnqueueRequests(i)
        invariant owner == WithPrefix(old(owner), i, Queued)
        invariant buf == if i == 0 then old(buf) else Cleared(i - 1)
      {
        buf := Cleared(i);
        EnqueueOneMore(i);
        requests := requests + [QBuf(i)];
        if !accepts(i) {
          return false;
        }
        WithPrefixStep(old(owner), i, Queued);
        owner := owner[i := Queued];
        i := i + 1;
      }
      ok := true;
    }

    /**
     * `capture_yuv_frame`: wait up to `timeoutMs` for a filled buffer, dequeue
     * it and return plane 0 of its slot. On timeout or a `select` error
     * nothing is dequeued and no state changes; a failed dequeue or an index
     * outside the ring returns NULL and hands no slot to the application.
     */
    method Capture(timeoutMs: int, select: TimeVal -> int, dequeued: Option<BufDesc>) returns (p: Ptr)
      requires Valid()
      modifies this
      ensures Valid()
      ensures nBuffers == old(nBuffers) && isOpen == old(isOpen) && fd == old(fd) && fmt == old(fmt)
      ensures streaming == old(streaming)
      ensures select(TimeoutSplit(timeoutMs)) <= 0 ==>
        p == Null && buf == old(buf) && owner == old(owner) && requests == old(requests)
      ensures select(TimeoutSplit(timeoutMs)) > 0 ==>
        && requests == old(requests) + [DQBuf]
        && buf == (if dequeued.Some? then dequeued.value else Cleared(0))
        && if dequeued.Some? && dequeued.value.index < nBuffers
           then p == buffers[dequeued.value.index, 0] && owner == old(owner)[dequeued.value.index := Dequeued]
           else p == Null && owner == old(owner)
    {
      var tv := TimeoutSplit(timeoutMs);
      var ready := select(tv);
      if ready <= 0 {
        return Null;
      }
      buf := Cleared(0);
      requests := requests + [DQBuf];
      if dequeued.None? {
        return Null;
      }
      buf := dequeued.value;
      if buf.index >= nBuffers {
        return Null;
      }
      owner := owner[buf.index := Dequeued];
      p := buffers[buf.index, 0];
    }

    /**
     * `requeue_buffer`: enqueue the descriptor left by the last dequeue again,
     * returning that slot to the device.
     */
    method Requeue(accepted: bool) returns (r: int)
      requires Valid()
      modifies this
      ensures Valid()
      ensures nBuffers == old(nBuffers) && isOpen == old(isOpen) && fd == old(fd) && fmt == old(fmt)
      ensures buf == old(buf) && streaming == old(streaming)
      ensures requests == old(requests) + [QBuf(buf.index)]
      ensures IsStatus(r) && (r == StatusOk <==> accepted)
      ensures owner == if accepted && buf.index < nBuffers then old(owner)[buf.index := Queued] else old(owner)
    {
      requests := requests + [QBuf(buf.index)];
      if !accepted {
        return StatusFail;
      }
      if buf.index < nBuffers {
        owner := owner[buf.index := Queued];
      }
      r := StatusOk;
    }

    /** `close(cam->fd)`. */
    method CloseDevice()
      modifies this`isOpen
      ensures !isOpen
    {
      isOpen := false;
    }
  }
}
