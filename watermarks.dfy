/** The watermark file each pipeline keeps: the id and timestamp of the last
    lifelog its sink accepted. */
module Watermarks {

  /** A stored timestamp: the `endTime` text of a lifelog, copied as it is,
      or the ISO rendering of an instant read from the clock (in seconds). */
  datatype Stamp = Text(iso: string) | Instant(seconds: int)

  datatype Watermark = Watermark(lastId: string, lastTimestamp: Stamp)

  /** The file on disk: absent, present but not loadable as JSON, or holding
      a watermark. */
  datatype FileState = Missing | Unreadable | Stored(mark: Watermark)

  /** The watermark a pipeline starts from: no id, and the clock moved back
      by the pipeline's lookback. */
  function Default(lookback: nat, now: int): Watermark
  {
    Watermark("", Instant(now - lookback))
  }

  /** What `get_last_processed` returns for a file in state `file`. */
  function ReadMark(file: FileState, lookback: nat, now: int): Watermark
  {
    if file.Stored? then file.mark else Default(lookback, now)
  }

  /** The watermark file of one pipeline. `save` is a plain overwrite of the
      whole record. */
  class WatermarkStore {
    var file: FileState
    const lookback: nat

    constructor (initial: FileState, lookback: nat)
      ensures file == initial && this.lookback == lookback
    {
      file := initial;
      this.lookback := lookback;
    }

    /** `get_last_processed`: the stored watermark when the file is readable,
        the default otherwise; the default is written only when the file was
        missing, not when reading it failed. */
    method GetLastProcessed(now: int) returns (w: Watermark)
      modifies this`file
      ensures w == ReadMark(old(file), lookback, now)
      ensures old(file).Stored? ==> w == old(file).mark
      ensures !old(file).Stored? ==> w == Default(lookback, now)
      ensures file == if old(file).Missing? then Stored(w) else old(file)
    {
      match file
      case Missing =>
        w := Default(lookback, now);
        file := Stored(w);
      case Unreadable =>
        w := Default(lookback, now);
      case Stored(m) =>
        w := m;
    }

    /** `save_last_processed`: overwrite the file with a new watermark. */
    method SaveLastProcessed(id: string, timestamp: Stamp)
      modifies this`file
      ensures file == Stored(Watermark(id, timestamp))
    {
      file := Stored(Watermark(id, timestamp));
    }
  }

  /** A watermark saved and read back is the one saved. */
  lemma ReadAfterSave(id: string, timestamp: Stamp, lookback: nat, now: int)
    ensures ReadMark(Stored(Watermark(id, timestamp)), lookback, now) == Watermark(id, timestamp)
  {
  }
}
