/**
 * Best-frame selection (`encontrar_mejor_frame_objeto`): re-scan a finished
 * clip with a single-image detector and keep the frame whose detection has
 * the highest score `area * confidence * centre factor`. The running best
 * starts at 0 and is replaced only on a strictly greater score, so the
 * earliest maximal frame wins and no score at or below 0 ever wins. Every
 * detection of a frame is scored, each with its first category only.
 */
module BestFrame {
  import opened Common

  /** A bounding box in pixels and the scores of its categories, best first. */
  datatype Detection = Detection(width: int, height: int, originX: int, originY: int, categories: seq<real>)

  /** What the detector made of one decoded frame: its detections, or an exception. */
  datatype Analysis = Detections(items: seq<Detection>) | DetectError

  datatype Decoded = Decoded(frame: Frame, analysis: Analysis)

  /** The loop's variables: best score, best frame, its position, frames counted so far. */
  datatype Search = Search(bestScore: real, bestFrame: Option<Frame>, bestNum: int, frameNum: int)

  /** The selected frame, the position reported for it, and its score. */
  datatype Pick = Pick(frame: Frame, position: int, score: real)

  /** `1 / (1 + d / 100)` for the Manhattan distance `d` between the box centre and the frame centre. */
  function CentreFactor(d: Detection, frameWidth: int, frameHeight: int): (f: real)
    ensures 0.0 < f <= 1.0
  {
    var cx := d.originX as real + d.width as real / 2.0;
    var cy := d.originY as real + d.height as real / 2.0;
    var dist := AbsReal(cx - frameWidth as real / 2.0) + AbsReal(cy - frameHeight as real / 2.0);
    InverseAtMostOne(1.0 + dist / 100.0);
    1.0 / (1.0 + dist / 100.0)
  }

  lemma InverseAtMostOne(y: real)
    requires y >= 1.0
    ensures 0.0 < 1.0 / y <= 1.0
  {
    var f := 1.0 / y;
    assert f * y == 1.0;
  }

  /** The score of a detection, using its first category's confidence. */
  function Score(d: Detection, frameWidth: int, frameHeight: int): real
    requires |d.categories| > 0
  {
    (d.width * d.height) as real * d.categories[0] * CentreFactor(d, frameWidth, frameHeight)
  }

  /** One pass of the inner loop: a detection without categories is skipped. */
  function Consider(st: Search, d: Detection, frame: Frame, frameWidth: int, frameHeight: int): Search {
    if |d.categories| == 0 then st
    else
      var s := Score(d, frameWidth, frameHeight);
      if s > st.bestScore then st.(bestScore := s, bestFrame := Some(frame), bestNum := st.frameNum) else st
  }

  /** The inner loop over a frame's detections. */
  function ScanDetections(st: Search, ds: seq<Detection>, frame: Frame, frameWidth: int, frameHeight: int): Search
    decreases |ds|
  {
    if ds == [] then st
    else Consider(ScanDetections(st, ds[..|ds| - 1], frame, frameWidth, frameHeight), ds[|ds| - 1], frame, frameWidth, frameHeight)
  }

  /**
   * One pass of the outer loop: a detector exception skips the frame without
   * advancing the position counter.
   */
  function ScanFrame(st: Search, dec: Decoded, frameWidth: int, frameHeight: int): Search {
    match dec.analysis
    case DetectError => st
    case Detections(ds) =>
      var after := ScanDetections(st, ds, dec.frame, frameWidth, frameHeight);
      after.(frameNum := after.frameNum + 1)
  }

  /** The outer loop over the decoded frames of the clip. */
  function Scan(clip: seq<Decoded>, frameWidth: int, frameHeight: int): Search
    decreases |clip|
  {
    if clip == [] then Search(0.0, None, 0, 0)
    else ScanFrame(Scan(clip[..|clip| - 1], frameWidth, frameHeight), clip[|clip| - 1], frameWidth, frameHeight)
  }

  /**
   * The selection: nothing when the detector cannot be created or the clip
   * cannot be opened, otherwise the best frame if one beat 0.
   */
  function Select(detectorReady: bool, clipOpened: bool, clip: seq<Decoded>, frameWidth: int, frameHeight: int): Option<Pick> {
    if !detectorReady || !clipOpened then None
    else
      var st := Scan(clip, frameWidth, frameHeight);
      if st.bestFrame.Some? then Some(Pick(st.bestFrame.value, st.bestNum, st.bestScore)) else None
  }

  // ---------------------------------------------------------------------
  // The reference definition: the best score of each frame, taken on its own.

  /** The highest score among a frame's detections, or 0 if none is higher. */
  function DetectionsPeak(ds: seq<Detection>, frameWidth: int, frameHeight: int): (p: real)
    ensures p >= 0.0
    decreases |ds|
  {
    if ds == [] then 0.0
    else
      var last := ds[|ds| - 1];
      var rest := DetectionsPeak(ds[..|ds| - 1], frameWidth, frameHeight);
      if |last.categories| == 0 then rest else MaxReal(rest, Score(last, frameWidth, frameHeight))
  }

  /** The best score a frame can contribute: 0 for a frame the detector failed on. */
  function Peak(dec: Decoded, frameWidth: int, frameHeight: int): (p: real)
    ensures p >= 0.0
  {
    match dec.analysis
    case DetectError => 0.0
    case Detections(ds) => DetectionsPeak(ds, frameWidth, frameHeight)
  }

  /** The highest peak over a clip, or 0. */
  function ClipPeak(clip: seq<Decoded>, frameWidth: int, frameHeight: int): (p: real)
    ensures p >= 0.0
    decreases |clip|
  {
    if clip == [] then 0.0
    else MaxReal(ClipPeak(clip[..|clip| - 1], frameWidth, frameHeight), Peak(clip[|clip| - 1], frameWidth, frameHeight))
  }

  /** The number of frames the detector analysed without an exception. */
  function Analysed(clip: seq<Decoded>): nat
    decreases |clip|
  {
    if clip == [] then 0
    else Analysed(clip[..|clip| - 1]) + (if clip[|clip| - 1].analysis.DetectError? then 0 else 1)
  }

  /**
   * Scanning one frame's detections from a non-negative best raises the best
   * to the frame's peak when that peak is strictly higher, and only then
   * records this frame (at the current position).
   */
  lemma {:induction false} ScanDetectionsPeak(st: Search, ds: seq<Detection>, frame: Frame, frameWidth: int, frameHeight: int)
    requires st.bestScore >= 0.0
    ensures var r := ScanDetections(st, ds, frame, frameWidth, frameHeight);
      var p := DetectionsPeak(ds, frameWidth, frameHeight);
      && r.bestScore == MaxReal(st.bestScore, p)
      && r.frameNum == st.frameNum
      && (p > st.bestScore ==> r.bestFrame == Some(frame) && r.bestNum == st.frameNum)
      && (p <= st.bestScore ==> r.bestFrame == st.bestFrame && r.bestNum == st.bestNum)
    decreases |ds|
  {
    if ds != [] {
      ScanDetectionsPeak(st, ds[..|ds| - 1], frame, frameWidth, frameHeight);
    }
  }

  /** The peak of a prefix bounds the peak of each of its frames. */
  lemma {:induction false} ClipPeakBounds(clip: seq<Decoded>, frameWidth: int, frameHeight: int)
    ensures forall j :: 0 <= j < |clip| ==> Peak(clip[j], frameWidth, frameHeight) <= ClipPeak(clip, frameWidth, frameHeight)
    decreases |clip|
  {
    if clip != [] {
      var init := clip[..|clip| - 1];
      ClipPeakBounds(init, frameWidth, frameHeight);
      forall j | 0 <= j < |clip| - 1 ensures Peak(clip[j], frameWidth, frameHeight) <= ClipPeak(clip, frameWidth, frameHeight) {
        assert clip[j] == init[j];
      }
    }
  }

  /**
   * The scan computes the earliest maximum: its best score is the highest peak
   * of the clip; a frame is kept exactly when that peak is above 0; the kept
   * frame reaches the peak, every earlier frame scores strictly less, and the
   * position reported for it counts only the frames before it that the
   * detector analysed without an exception.
   */
  lemma {:induction false} ScanFindsEarliestMaximum(clip: seq<Decoded>, frameWidth: int, frameHeight: int)
    ensures var r := Scan(clip, frameWidth, frameHeight);
      && r.bestScore == ClipPeak(clip, frameWidth, frameHeight)
      && r.frameNum == Analysed(clip)
      && (r.bestFrame.Some? <==> r.bestScore > 0.0)
      && (r.bestFrame.Some? ==>
            exists k :: 0 <= k < |clip|
              && r.bestFrame.value == clip[k].frame
              && Peak(clip[k], frameWidth, frameHeight) == r.bestScore
              && r.bestNum == Analysed(clip[..k])
              && forall j :: 0 <= j < k ==> Peak(clip[j], frameWidth, frameHeight) < r.bestScore)
    decreases |clip|
  {
    if clip != [] {
      var init := clip[..|clip| - 1];
      var last := clip[|clip| - 1];
      ScanFindsEarliestMaximum(init, frameWidth, frameHeight);
      ClipPeakBounds(init, frameWidth, frameHeight);
      var st := Scan(init, frameWidth, frameHeight);
      var p := Peak(last, frameWidth, frameHeight);
      assert clip[..|clip| - 1] == init;
      if last.analysis.Detections? {
        ScanDetectionsPeak(st, last.analysis.items, last.frame, frameWidth, frameHeight);
      }
      var r := Scan(clip, frameWidth, frameHeight);
      if r.bestFrame.Some? {
        if p > st.bestScore {
          var k := |clip| - 1;
          assert r.bestFrame.value == clip[k].frame;
          assert forall j :: 0 <= j < k ==> Peak(clip[j], frameWidth, frameHeight) < r.bestScore by {
            forall j | 0 <= j < k ensures Peak(clip[j], frameWidth, frameHeight) < r.bestScore {
              assert clip[j] == init[j];
            }
          }
        } else {
          var k :| 0 <= k < |init|
            && st.bestFrame.value == init[k].frame
            && Peak(init[k], frameWidth, frameHeight) == st.bestScore
            && st.bestNum == Analysed(init[..k])
            && forall j :: 0 <= j < k ==> Peak(init[j], frameWidth, frameHeight) < st.bestScore;
          assert clip[..k] == init[..k];
          assert clip[k] == init[k];
          assert forall j :: 0 <= j < k ==> Peak(clip[j], frameWidth, frameHeight) < r.bestScore by {
            forall j | 0 <= j < k ensures Peak(clip[j], frameWidth, frameHeight) < r.bestScore {
              assert clip[j] == init[j];
            }
          }
        }
      }
    }
  }

  /**
   * The selection, stated on its own: nothing is picked unless setup succeeded
   * and some detection scored above 0; a picked frame scores above 0, no frame
   * of the clip scores higher, and no earlier frame scores as high.
   */
  lemma SelectIsEarliestMaximum(detectorReady: bool, clipOpened: bool, clip: seq<Decoded>, frameWidth: int, frameHeight: int)
    ensures var r := Select(detectorReady, clipOpened, clip, frameWidth, frameHeight);
      && (r.Some? <==> detectorReady && clipOpened && exists j :: 0 <= j < |clip| && Peak(clip[j], frameWidth, frameHeight) > 0.0)
      && (r.Some? ==>
            && r.value.score > 0.0
            && (forall j :: 0 <= j < |clip| ==> Peak(clip[j], frameWidth, frameHeight) <= r.value.score)
            && exists k :: 0 <= k < |clip|
                 && r.value.frame == clip[k].frame
                 && Peak(clip[k], frameWidth, frameHeight) == r.value.score
                 && r.value.position == Analysed(clip[..k])
                 && forall j :: 0 <= j < k ==> Peak(clip[j], frameWidth, frameHeight) < r.value.score)
  {
    ScanFindsEarliestMaximum(clip, frameWidth, frameHeight);
    ClipPeakBounds(clip, frameWidth, frameHeight);
    PeakReached(clip, frameWidth, frameHeight);
  }

  /** The clip's peak is 0 or is the peak of one of its frames. */
  lemma {:induction false} PeakReached(clip: seq<Decoded>, frameWidth: int, frameHeight: int)
    ensures ClipPeak(clip, frameWidth, frameHeight) > 0.0 ==>
      exists j :: 0 <= j < |clip| && Peak(clip[j], frameWidth, frameHeight) == ClipPeak(clip, frameWidth, frameHeight)
    decreases |clip|
  {
    if clip != [] {
      var init := clip[..|clip| - 1];
      PeakReached(init, frameWidth, frameHeight);
      if ClipPeak(init, frameWidth, frameHeight) > 0.0 && ClipPeak(clip, frameWidth, frameHeight) == ClipPeak(init, frameWidth, frameHeight) {
        var j :| 0 <= j < |init| && Peak(init[j], frameWidth, frameHeight) == ClipPeak(init, frameWidth, frameHeight);
        assert clip[j] == init[j];
      }
    }
  }

  /**
   * The selection loop: scan the decoded frames, score every detection with its
   * first category, and keep the frame and position of the first strictly best
   * score seen.
   */
  method FindBestFrame(detectorReady: bool, clipOpened: bool, clip: seq<Decoded>, frameWidth: int, frameHeight: int)
    returns (r: Option<Pick>)
    ensures r == Select(detectorReady, clipOpened, clip, frameWidth, frameHeight)
    ensures r.Some? ==> r.value.score > 0.0
    ensures r.Some? ==> forall j :: 0 <= j < |clip| ==> Peak(clip[j], frameWidth, frameHeight) <= r.value.score
  {
    if !detectorReady || !clipOpened {
      return None;
    }
    var bestFrame: Option<Frame> := None;
    var bestScore := 0.0;
    var bestNum := 0;
    var frameNum := 0;
    var i := 0;
    while i < |clip|
      invariant 0 <= i <= |clip|
      invariant Search(bestScore, bestFrame, bestNum, frameNum) == Scan(clip[..i], frameWidth, frameHeight)
    {
      assert clip[..i + 1][..i] == clip[..i];
      match clip[i].analysis {
        case DetectError =>
          // the exception handler continues with the next frame, position unchanged
        case Detections(ds) =>
          ghost var before := Search(bestScore, bestFrame, bestNum, frameNum);
          var j := 0;
          while j < |ds|
            invariant 0 <= j <= |ds|
            invariant Search(bestScore, bestFrame, bestNum, frameNum) == ScanDetections(before, ds[..j], clip[i].frame, frameWidth, frameHeight)
          {
            assert ds[..j + 1][..j] == ds[..j];
            var d := ds[j];
            if |d.categories| > 0 {
              var score := (d.width * d.height) as real * d.categories[0] * CentreFactor(d, frameWidth, frameHeight);
              if score > bestScore {
                bestScore := score;
                bestFrame := Some(clip[i].frame);
                bestNum := frameNum;
              }
            }
            j := j + 1;
          }
          assert ds[..|ds|] == ds;
          frameNum := frameNum + 1;
      }
      i := i + 1;
    }
    assert clip[..|clip|] == clip;
    if bestFrame.Some? {
      r := Some(Pick(bestFrame.value, bestNum, bestScore));
    } else {
      r := None;
    }
    SelectIsEarliestMaximum(detectorReady, clipOpened, clip, frameWidth, frameHeight);
  }

  /**
   * Frames whose detections score 0.2, 0.9 and 0.5: the second frame is picked,
   * at position 1.
   */
  lemma MiddleFrameWins()
    ensures var box := (c: real) => Detection(2, 2, 0, 0, [c]);
      var clip := [Decoded(10, Detections([box(0.05)])), Decoded(11, Detections([box(0.225)])), Decoded(12, Detections([box(0.125)]))];
      Select(true, true, clip, 2, 2) == Some(Pick(11, 1, 0.9))
  {
    var box := (c: real) => Detection(2, 2, 0, 0, [c]);
    var clip := [Decoded(10, Detections([box(0.05)])), Decoded(11, Detections([box(0.225)])), Decoded(12, Detections([box(0.125)]))];
    var s0 := Search(0.0, None, 0, 0);
    OneDetectionFrame(s0, 10, 0.05, 0.2);
    var s1 := Search(0.2, Some(10), 0, 1);
    OneDetectionFrame(s1, 11, 0.225, 0.9);
    var s2 := Search(0.9, Some(11), 1, 2);
    OneDetectionFrame(s2, 12, 0.125, 0.5);
    assert clip[..3] == clip && clip[..3][..2] == clip[..2] && clip[..2][..1] == clip[..1] && clip[..1][..0] == [];
    assert Scan(clip[..1], 2, 2) == s1;
    assert Scan(clip[..2], 2, 2) == s2;
  }

  /** A frame with one centred 2x2 box of confidence `c` in a 2x2 frame scores `4 * c`. */
  lemma OneDetectionFrame(st: Search, f: Frame, c: real, score: real)
    requires score == 4.0 * c
    ensures ScanFrame(st, Decoded(f, Detections([Detection(2, 2, 0, 0, [c])])), 2, 2)
      == if score > st.bestScore then Search(score, Some(f), st.frameNum, st.frameNum + 1) else st.(frameNum := st.frameNum + 1)
  {
    var d := Detection(2, 2, 0, 0, [c]);
    assert CentreFactor(d, 2, 2) == 1.0;
    assert Score(d, 2, 2) == score;
    assert [d][..0] == [];
    assert ScanDetections(st, [d], f, 2, 2) == Consider(st, d, f, 2, 2);
  }

  /**
   * A frame the detector failed on is not counted: when the first frame raises
   * and the second holds the only detection, the second frame is picked but
   * reported at position 0.
   */
  lemma FailedFrameShiftsPosition()
    ensures var clip := [Decoded(20, DetectError), Decoded(21, Detections([Detection(2, 2, 0, 0, [0.5])]))];
      Select(true, true, clip, 2, 2) == Some(Pick(21, 0, 2.0))
  {
    var clip := [Decoded(20, DetectError), Decoded(21, Detections([Detection(2, 2, 0, 0, [0.5])]))];
    OneDetectionFrame(Search(0.0, None, 0, 0), 21, 0.5, 2.0);
    assert clip[..2] == clip && clip[..2][..1] == clip[..1] && clip[..1][..0] == [];
    assert Scan(clip[..1], 2, 2) == Search(0.0, None, 0, 0);
  }
}
