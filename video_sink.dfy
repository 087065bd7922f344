/**
 * Opening the video writer: an ordered list of codecs is tried until one
 * writer reports itself opened. Only the last candidate, XVID, changes the
 * container (and so the file name) from `.mp4` to `.avi`.
 */
module VideoSink {
  import opened Common

  datatype Codec = H264 | Avc1 | Mp4v | Xvid

  /** The codecs in the order the capture loop tries them. */
  const CodecOrder: seq<Codec> := [H264, Avc1, Mp4v, Xvid]

  /** The writer that was opened: its codec and the file it writes. */
  datatype Opened = Opened(codec: Codec, path: Path)

  /** The file a codec writes for a recording started at `stamp`. */
  function ClipPath(c: Codec, stamp: int): (p: Path)
    ensures p.ClipFile? && p.stamp == stamp
    ensures p.container == Avi <==> c == Xvid
  {
    if c == Xvid then ClipFile(stamp, Avi) else ClipFile(stamp, Mp4)
  }

  /** Whether codec `c` opens a writer on file `p` (the video writer as an oracle). */
  type Opener = (Codec, Path) -> bool

  function Attempt(c: Codec, stamp: int, opens: Opener): bool {
    opens(c, ClipPath(c, stamp))
  }

  /** The first codec of `codecs` whose writer opens, if any. */
  function FirstOpen(codecs: seq<Codec>, stamp: int, opens: Opener): Option<Opened> {
    if codecs == [] then None
    else if Attempt(codecs[0], stamp, opens) then Some(Opened(codecs[0], ClipPath(codecs[0], stamp)))
    else FirstOpen(codecs[1..], stamp, opens)
  }

  /** The writer the capture loop ends up with for a recording started at `stamp`. */
  function OpenedWriter(stamp: int, opens: Opener): Option<Opened> {
    FirstOpen(CodecOrder, stamp, opens)
  }

  /**
   * The fallback picks the first candidate that opens: every earlier candidate
   * failed, the chosen one opened on its own file name, and nothing is opened
   * only when every candidate fails.
   */
  lemma {:induction false} FirstOpenIsFirst(codecs: seq<Codec>, stamp: int, opens: Opener)
    ensures var r := FirstOpen(codecs, stamp, opens);
      && (r.None? <==> forall i :: 0 <= i < |codecs| ==> !Attempt(codecs[i], stamp, opens))
      && (r.Some? ==>
            exists k :: 0 <= k < |codecs|
              && r.value == Opened(codecs[k], ClipPath(codecs[k], stamp))
              && Attempt(codecs[k], stamp, opens)
              && forall i :: 0 <= i < k ==> !Attempt(codecs[i], stamp, opens))
  {
    if codecs != [] {
      FirstOpenIsFirst(codecs[1..], stamp, opens);
      var r := FirstOpen(codecs[1..], stamp, opens);
      if !Attempt(codecs[0], stamp, opens) {
        if r.Some? {
          var k :| 0 <= k < |codecs| - 1
            && r.value == Opened(codecs[1..][k], ClipPath(codecs[1..][k], stamp))
            && Attempt(codecs[1..][k], stamp, opens)
            && forall i :: 0 <= i < k ==> !Attempt(codecs[1..][i], stamp, opens);
          assert forall i :: 0 <= i < k + 1 ==> !Attempt(codecs[i], stamp, opens) by {
            forall i | 0 <= i < k + 1 ensures !Attempt(codecs[i], stamp, opens) {
              if i > 0 { assert codecs[i] == codecs[1..][i - 1]; }
            }
          }
        } else {
          forall i | 0 <= i < |codecs| ensures !Attempt(codecs[i], stamp, opens) {
            if i > 0 { assert codecs[i] == codecs[1..][i - 1]; }
          }
        }
      }
    }
  }

  /**
   * The writer the capture loop keeps: the first of H264, avc1, mp4v, XVID that
   * opens; the file is `.avi` exactly when XVID is used, and there is no writer
   * exactly when all four fail.
   */
  lemma WriterFallback(stamp: int, opens: Opener)
    ensures var r := OpenedWriter(stamp, opens);
      && (r.None? <==> forall c :: c in CodecOrder ==> !Attempt(c, stamp, opens))
      && (r.Some? ==>
            && Attempt(r.value.codec, stamp, opens)
            && r.value.path == ClipPath(r.value.codec, stamp)
            && (r.value.path.container == Avi <==> r.value.codec == Xvid))
      && (r == Some(Opened(Avc1, ClipFile(stamp, Mp4))) ==> !Attempt(H264, stamp, opens))
      && (r == Some(Opened(Mp4v, ClipFile(stamp, Mp4))) ==> !Attempt(H264, stamp, opens) && !Attempt(Avc1, stamp, opens))
      && (r == Some(Opened(Xvid, ClipFile(stamp, Avi))) ==>
            !Attempt(H264, stamp, opens) && !Attempt(Avc1, stamp, opens) && !Attempt(Mp4v, stamp, opens))
  {
    FirstOpenIsFirst(CodecOrder, stamp, opens);
    var r := OpenedWriter(stamp, opens);
    if r.Some? {
      var k :| 0 <= k < 4
        && r.value == Opened(CodecOrder[k], ClipPath(CodecOrder[k], stamp))
        && Attempt(CodecOrder[k], stamp, opens)
        && forall i :: 0 <= i < k ==> !Attempt(CodecOrder[i], stamp, opens);
      assert r.value.codec == CodecOrder[k];
      if k >= 1 { assert !Attempt(CodecOrder[0], stamp, opens); }
      if k >= 2 { assert !Attempt(CodecOrder[1], stamp, opens); }
      if k >= 3 { assert !Attempt(CodecOrder[2], stamp, opens); }
    } else {
      forall c | c in CodecOrder ensures !Attempt(c, stamp, opens) {
        var i :| 0 <= i < 4 && CodecOrder[i] == c;
      }
    }
  }

  /**
   * Opens the video writer as the capture loop does: try each codec in order
   * and stop at the first writer that reports itself opened.
   */
  method OpenWriter(stamp: int, opens: Opener) returns (r: Option<Opened>)
    ensures r == OpenedWriter(stamp, opens)
    ensures r.Some? ==> opens(r.value.codec, r.value.path) && r.value.path == ClipPath(r.value.codec, stamp)
    ensures r.None? ==> forall c :: c in CodecOrder ==> !opens(c, ClipPath(c, stamp))
  {
    var i := 0;
    r := None;
    while i < |CodecOrder|
      invariant 0 <= i <= |CodecOrder|
      invariant FirstOpen(CodecOrder, stamp, opens) == FirstOpen(CodecOrder[i..], stamp, opens)
      invariant forall j :: 0 <= j < i ==> !opens(CodecOrder[j], ClipPath(CodecOrder[j], stamp))
    {
      var c := CodecOrder[i];
      var name := ClipPath(c, stamp);
      if opens(c, name) {
        r := Some(Opened(c, name));
        return;
      }
      i := i + 1;
    }
    forall c | c in CodecOrder ensures !opens(c, ClipPath(c, stamp)) {
      var j :| 0 <= j < 4 && CodecOrder[j] == c;
    }
  }

  /**
   * With candidates H264, avc1, mp4v, XVID and only XVID opening, the writer
   * is opened with XVID on the `.avi` file.
   */
  lemma OnlyLastCandidateOpens(stamp: int, opens: Opener)
    requires forall c :: opens(c, ClipPath(c, stamp)) <==> c == Xvid
    ensures OpenedWriter(stamp, opens) == Some(Opened(Xvid, ClipFile(stamp, Avi)))
  {
    WriterFallback(stamp, opens);
    assert Attempt(Xvid, stamp, opens);
  }
}
