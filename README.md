# Capture ring and MPP JPEG bridge — a Dafny model

This project models the core of `mipi_encode`, a small program for a
Rockchip RK3562 board. It captures one frame from a MIPI camera through the
Linux V4L2 multi-planar streaming-I/O API, wraps the frame memory as a
Rockchip MPP frame without copying it, encodes it to JPEG and writes the
file.

What is modelled:

- `wrappers.dfy` (`Wrappers`): the optional-value type used for replies
  that may be missing.
- `header.dfy` (`CameraHeader`): the constants of `inc/camera_init.h`
  (1920x1080, `YUV_SIZE`, `buffer_size`, `JPEG_QUALITY`, the 4x2 slot
  table), the 0/-1 status convention, and C's truncating `/` and `%`.
- `v4l2.dfy` (`V4l2`): the pieces of the V4L2 interface the code reads:
  capability bits, four-character pixel codes, the multi-planar format, the
  buffer descriptor, and the queue requests QBUF/DQBUF/STREAMON.
- `ownership.dfy` (`Ownership`): who owns each slot of the ring (unmapped,
  idle, queued by the device, dequeued by the application) and the counting
  facts about it.
- `camera.dfy` (`CameraInit`): `camera_t` as the class `Camera`, with the
  slot table as a 4x2 array and ghost fields for slot ownership, the queue
  requests issued so far and whether the device streams. Its methods are
  `camera_init`, `camera_start_capture`, `capture_yuv_frame` and
  `requeue_buffer`. The mapping and enqueue loops are kept as loops with
  invariants. The driver is an oracle: every reply from `open`, `ioctl`,
  `mmap` and `select` is a parameter of the operation that issues the call.
  `mmap` answers either mapped memory or `MAP_FAILED`.
  The near-duplicate camera functions at the top of
  `src/mipi_main_back.c` are the same class with `variant == Back`.
- `bridge.dfy` (`Bridge`): the V4L2-to-MPP pixel-format table in `main` and
  the frame descriptor built by `put_yuv_data_to_mpp_buffer`.
- `encode.dfy` (`Encode`): the fixed JPEG encoder configuration and the error
  branches of `encode_frame_to_jpeg`, with what each branch releases.
- `output.dfy` (`FileOutput`): the outcome logic of `write_data_to_file`,
  including the JPEG start-of-image check (marker FF D8, ITU-T T.81,
  Table B.1), which only warns.
- `pipeline.dfy` (`MainBack`): `main` of `src/mipi_main_back.c`, which drives
  a `Camera` through init, start, capture, wrap, encode, requeue and close.

Three behaviours of the code that a reader might not expect are modelled as
written:

- On a failed QUERYBUF or `mmap` partway through the mapping loop, init closes
  the device but leaves the slots already mapped in place. It never unmaps
  them. `Camera.Init` states that those rows keep their mappings.
- `main` exits with 0 even when `encode_frame_to_jpeg` fails. `RunMain`'s exit
  code does not depend on the encoder's replies. The one exception is a failed
  `mpp_create`, whose result is only logged. Encoding then calls through an
  encoder handle that was never set up (src/mipi_main_back.c:401), and the run
  has no defined exit.
- `write_data_to_file` fails when `fclose` fails; this is not a warning.
  When the file cannot be reopened, it skips the size check and reports
  success.

## Model

| member | source | states |
|---|---|---|
| CameraHeader.FrameSizes | inc/camera_init.h:23-26 | `YUV_SIZE` is the NV12 size of 1920x1080, which is 3110400; `buffer_size` is `YUV_SIZE + 1920*4` and is strictly larger, so a `YUV_SIZE` copy fits |
| CameraHeader.CDiv | lib/camera_init.c:219 | C's `/` truncates toward zero: the remainder has the sign of the dividend and is smaller in magnitude than the divisor |
| CameraHeader.CMod | lib/camera_init.c:220 | C's `%` is the remainder of the truncating division: `a == (a/b)*b + a%b`, with the sign of `a` |
| V4l2.EnqueueRequests | lib/camera_init.c:178-191 | the enqueue loop's requests: QBUF of slot `i` at position `i`, for `i` below `n` |
| Ownership.StartedRing | lib/camera_init.c:178-199 | after start-capture all `n` slots are owned by the device and none by the application |
| Ownership.DequeueRequeueRoundTrip | lib/camera_init.c:241-268 | a dequeue from a fully queued ring hands exactly one slot to the application; requeuing the same slot restores the fully queued ring |
| Ownership.CountUpdate | lib/camera_init.c:246-268 | changing one slot's state moves exactly one unit of count between states |
| CameraInit.RequestedFormatShape | lib/camera_init.c:54-62 | the requested format has one progressive plane, `bytesperline = width` and `sizeimage = width*height*3/2` (C division), which is `YUV_SIZE` at 1920x1080 |
| CameraInit.InitNeedsCapabilities | lib/camera_init.c:27-49 | init succeeds only when the device reports both multi-planar capture and streaming I/O; lacking either, init fails for that reason |
| CameraInit.GrantFloorIsTwo | lib/camera_init.c:104-125 | once the buffer request is answered, init fails for too few buffers exactly when fewer than 2 are granted; a grant of exactly 2 whose slots map succeeds |
| CameraInit.MappingFailureIsFirstBadSlot | lib/camera_init.c:128-165 | a QUERYBUF or `mmap` failure names the first slot that cannot be queried or mapped, and every slot before it mapped |
| CameraInit.FormatDivergenceOnlyWarns | lib/camera_init.c:65-100 | whether init succeeds does not depend on the format the driver writes back or reports on re-query, only on whether S_FMT is accepted |
| CameraInit.FormatWarnings | lib/camera_init.c:78-100 | a failed re-query, a changed pixel format and a short plane count are each warned about exactly when they occur |
| CameraInit.BackWarnsOnHonouredRequest | src/mipi_main_back.c:117-123 | for a driver that honours the one-plane request, the library copy warns about nothing, while the back copy warns about the plane count |
| CameraInit.TimeoutSplit | lib/camera_init.c:219-220 | `tv_sec*10^6 + tv_usec` equals the timeout in microseconds; `tv_usec` is below one second, and both parts are non-negative for a non-negative timeout |
| CameraInit.BackCaptureResult | src/mipi_main_back.c:272-280 | the back copy of capture returns the address of a slot-table row: never NULL and never an address of mapped memory |
| CameraInit.BackCaptureMissesMapping | src/mipi_main_back.c:280 | for any slot that maps, init stored mapped memory for it, and the back copy's capture result is not that pointer |
| CameraInit.Camera.Init | lib/camera_init.c:12-169 | returns 0 exactly when no step fails, and leaves the device open exactly then. The stored format is the driver's write-back. Warnings come only from a successful probe. `n_buffers` is the granted count, not 4. Slot rows hold the mapped plane-0 pointers, or `MAP_FAILED` for the failed slot. The slots before the first failure are idle. On success the whole ring is mapped and idle |
| CameraInit.Camera.Probe | lib/camera_init.c:14-100 | the open, capability and format steps pass exactly when none fails; on failure the device is closed and there are no warnings |
| CameraInit.Camera.MapSlots | lib/camera_init.c:128-165 | maps slots in order up to the first failing one. The result is true exactly when every granted slot maps, and each written row holds that slot's `mmap` result |
| CameraInit.Camera.StartCapture | lib/camera_init.c:175-203 | returns 0 exactly when every slot is accepted and stream-on succeeds. It issues QBUF 0, 1, … up to the first rejection, and stream-on only when none is rejected. The slots before the rejection become device-owned, and the whole ring does on success |
| CameraInit.Camera.EnqueueSlots | lib/camera_init.c:178-191 | queues slots in order until the first rejection; succeeds exactly when none is rejected |
| CameraInit.Camera.Capture | lib/camera_init.c:211-255 | on a timeout or a `select` error it returns NULL and changes nothing: no DQBUF, and `cam->buf` is untouched. Otherwise it issues one DQBUF. An index outside the ring gives NULL. A valid index gives `buffers[index][0]` and hands that slot to the application |
| CameraInit.Camera.Requeue | lib/camera_init.c:262-268 | re-enqueues exactly the last dequeued descriptor; returns 0 exactly when the driver accepts it, and that slot is then device-owned again |
| CameraInit.Camera.CloseDevice | src/mipi_main_back.c:562 | the device is closed |
| Bridge.MppFormatOf | src/mipi_main_back.c:531-543 | NV12 maps to YUV420SP and YUV420 to YUV420P, both in each direction; YUYV and every other code map to YUV422_YUYV |
| Bridge.FormatTableRoundTrip | src/mipi_main_back.c:531-543 | the table is a bijection between the three named V4L2 formats and the three MPP formats |
| Bridge.ImportRegion | src/mipi_main_back.c:343-347 | the import region is the capture memory itself, with no copy. Its size is the frame size plus `1920*4` bytes of slack, it has no fd, and it is normal memory |
| Bridge.PutYuvData | src/mipi_main_back.c:307-371 | a frame is produced exactly when frame init and import both succeed. A failed import releases the frame and a failed frame init releases nothing. A produced frame has the given size and format, strides equal to width and height, and the end-of-stream flag |
| Bridge.ContextRepliesIgnored | src/mipi_main_back.c:316-328 | the results of `mpp_create` and `mpp_init` do not affect the outcome |
| Bridge.FrameMatchesCaptureFormat | src/mipi_main_back.c:335-347 | the frame's horizontal stride is the requested `bytesperline`, and the import region is larger than the requested plane |
| Bridge.ImportIsBufferSize | inc/camera_init.h:25-26 | at 1920x1080 the import region is exactly `buffer_size` bytes |
| Bridge.AsWrittenImportMissesFrame | src/mipi_main_back.c:545-546 | as written, a full NV12 frame dequeued through the multi-planar API is imported as only 7680 bytes, less than the frame |
| Bridge.CorrectedImportCoversFrame | src/mipi_main_back.c:545-546 | with plane 0's byte count, the same frame is imported as `buffer_size` bytes, covering it |
| Encode.JpegCfgMatchesFrame | src/mipi_main_back.c:402-410 | `q_factor` 80 is `JPEG_QUALITY` and lies within `[qf_min=1, qf_max=99]`. The configured geometry, strides and format are those of the frame `main` builds |
| Encode.EncodeFrameToJpeg | src/mipi_main_back.c:378-488 | succeeds exactly when the encoder is configured, takes the frame and yields a non-empty packet that is written in full; each error is reported exactly when its step is the first to fail, and a short write carries the byte count written. The packet is deinitialised exactly when one was obtained. The packet buffer goes back only on success. The context is destroyed only on configuration failures |
| Encode.EarlyEncodeFailuresReleaseNothing | src/mipi_main_back.c:431-453 | a put-frame failure, a get-packet failure or a null packet returns -1 without releasing anything |
| FileOutput.WriteDataToFile | lib/camera_init.c:274-355 | succeeds exactly when name and data are present, the size is non-zero, the file opens, every byte is written, the close succeeds, and the reopened size, if it can be read, equals `size`. A null or empty input fails as an invalid argument. Missing FF D8 and a failed flush each warn exactly when they occur |
| FileOutput.SoiOnlyWarns | lib/camera_init.c:284-295 | the JPEG header check never changes the status or the error |
| FileOutput.FlushOnlyWarns | lib/camera_init.c:324-329 | a failed flush never changes the status or the error |
| FileOutput.UnverifiedSuccess | lib/camera_init.c:339-352 | when the file cannot be reopened, a complete write that closes cleanly is reported as a success without a size check |
| MainBack.BringUp | src/mipi_main_back.c:508-519 | init then start-capture; succeeds exactly when both do. A failed init gives the trace [init] with the device closed by init; a failed start-capture gives [init, start, close]. On success the granted ring is mapped, fully queued and streaming |
| MainBack.RunMain | src/mipi_main_back.c:494-566 | exits with 0 exactly when a frame is captured and wrapped and the encoder handle is usable, whatever the encoder reports. After a failed `mpp_create`, a run whose encode reaches its first call through the handle has no defined exit, and the device stays open. Each failure (init, start, capture, wrap) has its own trace, and the device is closed at every defined exit. A frame that cannot be wrapped is requeued before the close. On success, encode and frame release come before requeue. With the corrected capture and frame size, the import aliases the dequeued slot's mapping, and an accepted requeue restores the fully queued ring |

## Left out

- The system calls `open`, `ioctl`, `mmap`, `select` and `close` are not modelled as kernel operations. Their replies are parameters; per-slot replies are functions of the slot index.
- All Rockchip MPP calls are foreign. Only their success or failure and the descriptor fields set are modelled.
- C file I/O (`fopen`, `fwrite`, `fflush`, `fclose`, `fseek`, `ftell`) becomes abstract replies. `write_data_to_file` takes `size` as the length of the data.
- Diagnostics (`printf`, `perror`) and the `gettimeofday` presentation timestamp of the frame are left out.
- src/mipi_main.c is not part of this model. It is glue over MPP that logs failures and continues past them.
- The test of `ret` before encoding (src/mipi_main_back.c:387) reads a value no call before it assigns, so it can never fail. The results of the buffer-group calls and of the first `mpp_enc_cfg_init`, the GET_CFG control and the `mpp_enc_cfg_set_s32` calls are ignored in the source and are not modelled.
- The back copy of `camera_init` (src/mipi_main_back.c:38-195) is the library one with the `Back` warning rule. Its other lines are not cited separately.
- CameraInit.Camera.Init: requires the granted count to be at most 4. The source checks only the lower bound (lib/camera_init.c:117), and a larger grant would write past the 4x2 table of inc/camera_init.h:34. That overflow is not modelled.
- CameraInit.Camera.Capture: models the corrected return value `buffers[index][0]` for both copies. The back copy as written is BackCaptureResult.
- `cam->buf.m.planes` points at a stack array of the function that filled it. By the time `requeue_buffer` reuses the descriptor, that array is dead. The model's descriptor holds only the index and byte counts, so this dangling pointer is not represented.
- The descriptor fields QUERYBUF writes into `cam->buf` beyond the slot index are not kept. The model records only the index of the last slot queried or queued.
- Plane 1 of each slot row is never written by the source and stays as the constructor left it. Multi-plane formats are not modelled beyond the plane count.
- MainBack.RunMain: uses the corrected capture, which returns `buffers[index][0]` where the back copy returns the slot-table row `cam->buffers[index]` (src/mipi_main_back.c:280), and passes plane 0's byte count as the frame size where the source passes `cam.buf.bytesused` (src/mipi_main_back.c:545); see Findings. As written, `main` hands `mpp_buffer_import` the address of a row of its own `cam`, not the frame.
- MainBack.RunMain: a failed `mpp_create` is not given an outcome beyond "no defined exit". What an uninitialised or NULL `encoder->mpi` does when `encode_frame_to_jpeg` calls through it (src/mipi_main_back.c:401) is left open. When the configuration init fails first, `mpp_destroy` gets the unset context, and the model takes that call to return.
- Widths and heights are unbounded integers. The 32-bit `int` and `size_t` ranges of the source play no role in the constants used, so they are not modelled.

## Findings

| source | as written | input that shows it | evidently intended | confidence | as-written member | corrected member |
|---|---|---|---|---|---|---|
| src/mipi_main_back.c:280 | capture returns `cam->buffers[cam->buf.index]`, the address of a slot-table row | any successful dequeue, e.g. index 0 | return the mapped plane pointer `cam->buffers[index][0]`, as lib/camera_init.c:254 does | high (not executed) | CameraInit.BackCaptureResult | CameraInit.Camera.Capture |
| src/mipi_main_back.c:545 | `main` passes `cam.buf.bytesused` as the frame size | a multi-planar DQBUF of a full NV12 frame: plane 0 reports 3110400 bytes and the top-level `bytesused` stays 0, so 7680 bytes are imported | pass plane 0's `bytesused`, so the import region covers the frame (`buffer_size` bytes) | medium (not executed) | Bridge.AsWrittenImportMissesFrame | Bridge.CorrectedImportCoversFrame |
