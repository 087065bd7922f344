/**
 * Shared vocabulary of the recorder: frames, file paths, file contents,
 * the local disk and the two notification channels.
 */
module Common {

  datatype Option<+T> = None | Some(value: T)

  /** A captured frame, as an opaque identifier (pixels are not modelled). */
  type Frame = nat

  /** The container a clip is written in: `.mp4` or, for the XVID codec, `.avi`. */
  datatype Container = Mp4 | Avi

  /**
   * The files the pipeline creates, named from a unix timestamp in whole seconds:
   * `alerta_<stamp>.mp4` / `alerta_<stamp>.avi`, `thumb_<stamp>.jpg`
   * and `mejor_frame_<stamp>.jpg`.
   */
  datatype Path =
    | ClipFile(stamp: int, container: Container)
    | ThumbFile(stamp: int)
    | BestFrameFile(stamp: int)

  /** What a file on disk holds: one still image or the frames of a clip. */
  datatype Content = Image(frame: Frame) | Video(frames: seq<Frame>)

  type Files = map<Path, Content>

  /** The local filesystem, shared by the capture loop and the delivery threads. */
  class Disk {
    var files: Files

    constructor (initial: Files)
      ensures files == initial
    {
      files := initial;
    }
  }

  /** The two delivery channels, in the order the capture loop starts them. */
  datatype Channel = Discord | Telegram

  function Max(a: int, b: int): int { if a < b then b else a }

  function MaxReal(a: real, b: real): real { if a < b then b else a }

  function AbsReal(x: real): real { if x < 0.0 then -x else x }

  /** Python's `int(x)` on a float: truncation toward zero. */
  function Trunc(x: real): (n: int)
    ensures x >= 0.0 ==> n as real <= x < n as real + 1.0
    ensures x < 0.0 ==> n as real - 1.0 < x <= n as real
  {
    if x >= 0.0 then x.Floor else -((-x).Floor)
  }
}
