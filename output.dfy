/**
 * The outcome logic of `write_data_to_file` (lib/camera_init.c): argument
 * checks, the JPEG start-of-image check, and the write, flush, close and
 * size-verification steps. The C library calls become replies handed in.
 */
module FileOutput {
  import opened CameraHeader
  import opened Wrappers

  newtype byte = x: int | 0 <= x < 256

  /**
   * What the C library answers: whether `fopen(.., "wb")` succeeds, how many
   * bytes `fwrite` reports, whether `fflush` and `fclose` succeed, and the
   * size `ftell` reports after reopening the file (None when the reopen fails).
   */
  datatype WriteReplies = WriteReplies(
    openOk: bool, written: nat, flushed: bool, closed: bool, reopenedSize: Option<int>)

  datatype WriteError =
    | InvalidArgument
    | OpenFailed
    | ShortWrite(written: nat)
    | CloseFailed
    | SizeMismatch(onDisk: int)

  datatype WriteWarning = BadJpegHeader | FlushFailed

  datatype WriteOutcome = WriteOutcome(status: int, error: Option<WriteError>, warnings: set<WriteWarning>)

  /** The start-of-image marker FF D8 opens the data (ITU-T T.81, Table B.1). */
  predicate HasSoi(data: seq<byte>) {
    |data| >= 2 && data[0] == 0xFF && data[1] == 0xD8
  }

  /** The arguments pass the first check: a file name, data, and a non-zero size. */
  predicate ValidArguments(filename: Option<string>, data: Option<seq<byte>>) {
    filename.Some? && data.Some? && |data.value| > 0
  }

  /** The write step is reached and every byte is written. */
  predicate WriteComplete(filename: Option<string>, data: Option<seq<byte>>, o: WriteReplies) {
    ValidArguments(filename, data) && o.openOk && o.written == |data.value|
  }

  /**
   * `write_data_to_file(filename, data, size)` with `size` the length of the
   * data. It fails on a missing name, missing data or zero size, on a failed
   * open, a short write, a failed close, or a reopened file whose size is not
   * `size`; a missing JPEG header and a failed flush only warn, and a failed
   * reopen skips the size check.
   */
  function WriteDataToFile(filename: Option<string>, data: Option<seq<byte>>, o: WriteReplies): (out: WriteOutcome)
    ensures IsStatus(out.status) && (out.status == StatusOk <==> out.error == None)
    ensures out.error == None <==>
      && WriteComplete(filename, data, o) && o.closed
      && (o.reopenedSize.Some? ==> o.reopenedSize.value == |data.value|)
    ensures out.error == Some(InvalidArgument) <==> !ValidArguments(filename, data)
    ensures BadJpegHeader in out.warnings <==>
      ValidArguments(filename, data) && |data.value| >= 2 && !HasSoi(data.value)
    ensures FlushFailed in out.warnings <==> WriteComplete(filename, data, o) && !o.flushed
  {
    if !ValidArguments(filename, data) then
      WriteOutcome(StatusFail, Some(InvalidArgument), {})
    else
      var bytes := data.value;
      var header := if |bytes| >= 2 && !HasSoi(bytes) then {BadJpegHeader} else {};
      if !o.openOk then
        WriteOutcome(StatusFail, Some(OpenFailed), header)
      else if o.written != |bytes| then
        WriteOutcome(StatusFail, Some(ShortWrite(o.written)), header)
      else
        var warnings := header + (if o.flushed then {} else {FlushFailed});
        if !o.closed then
          WriteOutcome(StatusFail, Some(CloseFailed), warnings)
        else if o.reopenedSize.Some? && o.reopenedSize.value != |bytes| then
          WriteOutcome(StatusFail, Some(SizeMismatch(o.reopenedSize.value)), warnings)
        else
          WriteOutcome(StatusOk, None, warnings)
  }

  /**
   * The header check only warns: two inputs of the same length end in the
   * same status and the same error whatever their bytes.
   */
  lemma SoiOnlyWarns(filename: Option<string>, data: seq<byte>, data': seq<byte>, o: WriteReplies)
    requires |data| == |data'|
    ensures WriteDataToFile(filename, Some(data), o).status == WriteDataToFile(filename, Some(data'), o).status
    ensures WriteDataToFile(filename, Some(data), o).error == WriteDataToFile(filename, Some(data'), o).error
  {
  }

  /** A failed flush only warns: it never changes the status or the error. */
  lemma FlushOnlyWarns(filename: Option<string>, data: Option<seq<byte>>, o: WriteReplies, flushed: bool)
    ensures WriteDataToFile(filename, data, o).status == WriteDataToFile(filename, data, o.(flushed := flushed)).status
    ensures WriteDataToFile(filename, data, o).error == WriteDataToFile(filename, data, o.(flushed := flushed)).error
  {
  }

  /**
   * A success vouches for the file only as far as the reopen allows: once the
   * reopen fails, any complete write that closes cleanly succeeds unverified.
   */
  lemma UnverifiedSuccess(filename: string, data: seq<byte>, o: WriteReplies)
    requires |data| > 0 && o.openOk && o.written == |data| && o.closed && o.reopenedSize == None
    ensures WriteDataToFile(Some(filename), Some(data), o).status == StatusOk
  {
  }
}
