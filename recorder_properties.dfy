/**
 * What the capture loop does over one step and over a run of steps, stated
 * about the specification `Recorder.Next` and `Recorder.Run`, which
 * `Recorder.Recorder.Step` is proved to follow.
 */
module RecorderProperties {
  import opened Common
  import opened VideoSink
  import PreRoll
  import opened Recorder

  /** The frames of a run of inputs, in order. */
  function FramesOf(inputs: seq<Input>): (fs: seq<Frame>)
    ensures |fs| == |inputs|
    ensures forall i :: 0 <= i < |inputs| ==> fs[i] == inputs[i].frame
  {
    if inputs == [] then [] else [inputs[0].frame] + FramesOf(inputs[1..])
  }

  /**
   * The pre-roll buffer never holds more than its size, is appended to only
   * while idle, and is left empty while recording.
   */
  lemma BufferedOnlyWhileIdle(cfg: Config, s: Snapshot, files: Files, input: Input)
    requires WellFormed(cfg, s)
    ensures var t := Next(cfg, s, files, input);
      && |t.after.buffer| <= cfg.bufferSize
      && (s.state == PostRoll ==> t.after.buffer == [])
      && (s.state == Idle && !Triggers(cfg, s, input) ==>
            t.after.buffer == PreRoll.Push(s.buffer, input.frame, cfg.bufferSize))
  {
    NextKeepsWellFormed(cfg, s, files, input);
  }

  /**
   * A step reaches the detector exactly when the sampling counter is even,
   * and starts a recording exactly when, in addition, the detector reported
   * something, the loop is idle, and strictly more than the cooldown has
   * passed since the last alert.
   */
  lemma TriggerConditions(cfg: Config, s: Snapshot, files: Files, input: Input)
    ensures var t := Next(cfg, s, files, input);
      && (t.event.detectorCalled <==> s.clock % 2 == 0)
      && (t.event.triggered <==>
            && s.clock % 2 == 0
            && input.reply.Detections? && input.reply.count > 0
            && s.state == Idle
            && input.now - s.lastAlert > cfg.cooldown)
      && (t.event.triggered ==> t.after.lastAlert == input.now)
      && (!t.event.triggered ==> t.after.lastAlert == s.lastAlert)
  {
  }

  /**
   * The counter only moves on even values, so once it is odd (1 after the
   * first frame) it never moves again: no later frame reaches the detector and
   * none can start a recording.
   */
  lemma {:induction false} StuckCounterNeverDetects(cfg: Config, s: Snapshot, files: Files, inputs: seq<Input>)
    requires s.clock % 2 == 1
    ensures var r := Run(cfg, s, files, inputs);
      && r.after.clock == s.clock && r.after.stamps == s.stamps
      && forall i :: 0 <= i < |inputs| ==> !r.events[i].detectorCalled && !r.events[i].triggered
    decreases |inputs|
  {
    if inputs != [] {
      var t := Next(cfg, s, files, inputs[0]);
      StuckCounterNeverDetects(cfg, t.after, t.files, inputs[1..]);
      var rest := Run(cfg, t.after, t.files, inputs[1..]);
      var r := Run(cfg, s, files, inputs);
      forall i | 0 <= i < |inputs| ensures !r.events[i].detectorCalled && !r.events[i].triggered {
        if i > 0 {
          assert r.events[i] == rest.events[i - 1];
        }
      }
    }
  }

  /**
   * From the start of the program, only the first frame is ever handed to the
   * detector (with timestamp 1), so only the first frame can start a
   * recording.
   */
  lemma DetectorSeesOnlyFirstFrame(cfg: Config, files: Files, inputs: seq<Input>)
    requires |inputs| >= 1
    ensures var r := Run(cfg, Initial, files, inputs);
      && r.after.clock == 1 && r.after.stamps == [1]
      && r.events[0].detectorCalled
      && forall i :: 1 <= i < |inputs| ==> !r.events[i].detectorCalled && !r.events[i].triggered
  {
    var t := Next(cfg, Initial, files, inputs[0]);
    assert t.after.clock == 1 && t.after.stamps == [1];
    StuckCounterNeverDetects(cfg, t.after, t.files, inputs[1..]);
    var rest := Run(cfg, t.after, t.files, inputs[1..]);
    var r := Run(cfg, Initial, files, inputs);
    forall i | 1 <= i < |inputs| ensures !r.events[i].detectorCalled && !r.events[i].triggered {
      assert r.events[i] == rest.events[i - 1];
    }
  }

  /**
   * When no codec opens, the alert time is still consumed and the thumbnail
   * is already written: the loop returns to idle with its buffer intact, the
   * thumbnail left on disk, and the files to send still naming the `.mp4`
   * clip that was never created.
   */
  lemma FailedOpenConsumesCooldown(cfg: Config, s: Snapshot, files: Files, input: Input)
    requires Triggers(cfg, s, input)
    requires forall c :: c in CodecOrder ==> !input.opens(c, ClipPath(c, Trunc(input.now)))
    ensures var t := Next(cfg, s, files, input);
      var stamp := Trunc(input.now);
      && t.after.state == Idle && t.after.writer.None?
      && t.after.lastAlert == input.now
      && t.after.buffer == PreRoll.Push(s.buffer, input.frame, cfg.bufferSize)
      && ThumbFile(stamp) in t.files
      && ClipFile(stamp, Mp4) !in t.files - files.Keys
      && t.after.pending == Some(Artifacts(ClipFile(stamp, Mp4), ThumbFile(stamp)))
      && t.event.triggered && t.event.codec.None? && t.event.dispatch.None?
  {
    WriterFallback(Trunc(input.now), input.opens);
  }

  /**
   * The cooldown on its own: from any state whose last alert is at or after
   * `since`, no frame of a run whose clock reading is within the cooldown of
   * `since` starts a recording, whatever the sampling counter does, and the
   * last alert never moves back before `since` (a trigger only ever moves it
   * forward, the cooldown being non-negative).
   */
  lemma {:induction false} NoRetriggerWithinCooldown(cfg: Config, s: Snapshot, files: Files, inputs: seq<Input>, since: real)
    requires cfg.cooldown >= 0.0 && s.lastAlert >= since
    ensures var r := Run(cfg, s, files, inputs);
      && r.after.lastAlert >= since
      && forall i :: 0 <= i < |inputs| && inputs[i].now - since <= cfg.cooldown ==> !r.events[i].triggered
    decreases |inputs|
  {
    if inputs != [] {
      RunFirst(cfg, s, files, inputs);
      var t := Next(cfg, s, files, inputs[0]);
      TriggerConditions(cfg, s, files, inputs[0]);
      NoRetriggerWithinCooldown(cfg, t.after, t.files, inputs[1..], since);
      var rest := Run(cfg, t.after, t.files, inputs[1..]);
      var r := Run(cfg, s, files, inputs);
      forall i | 0 <= i < |inputs| && inputs[i].now - since <= cfg.cooldown ensures !r.events[i].triggered {
        if i > 0 {
          assert r.events[i] == rest.events[i - 1] && inputs[i] == inputs[1..][i - 1];
        }
      }
    }
  }

  /** A trigger needs an even counter and leaves it odd. */
  lemma TriggerLeavesCounterOdd(cfg: Config, s: Snapshot, files: Files, input: Input)
    ensures var t := Next(cfg, s, files, input);
      t.event.triggered ==> s.clock % 2 == 0 && t.after.clock == s.clock + 1
  {
  }

  /**
   * A run, from any state, starts at most one recording: a trigger needs an
   * even counter and leaves it odd, where it stays.
   */
  lemma {:induction false} AtMostOneTrigger(cfg: Config, s: Snapshot, files: Files, inputs: seq<Input>)
    ensures var r := Run(cfg, s, files, inputs);
      forall i, j :: 0 <= i < j < |inputs| && r.events[i].triggered ==> !r.events[j].triggered
    decreases |inputs|
  {
    if inputs != [] {
      RunFirst(cfg, s, files, inputs);
      var t := Next(cfg, s, files, inputs[0]);
      var rest := Run(cfg, t.after, t.files, inputs[1..]);
      var r := Run(cfg, s, files, inputs);
      if t.event.triggered {
        TriggerLeavesCounterOdd(cfg, s, files, inputs[0]);
        StuckCounterNeverDetects(cfg, t.after, t.files, inputs[1..]);
      } else {
        AtMostOneTrigger(cfg, t.after, t.files, inputs[1..]);
      }
      forall i, j | 0 <= i < j < |inputs| && r.events[i].triggered ensures !r.events[j].triggered {
        assert r.events[j] == rest.events[j - 1];
        if i > 0 {
          assert r.events[i] == rest.events[i - 1];
        }
      }
    }
  }

  /**
   * A start that opens a writer writes the buffered frames oldest first,
   * ending with the trigger frame, which was buffered before the trigger test,
   * and then writes the trigger frame again as the first post-roll frame. The
   * thumbnail is the oldest buffered frame; the buffer is never empty here, so
   * the current-frame fallback is never taken.
   */
  lemma TriggerFrameWrittenTwice(cfg: Config, s: Snapshot, files: Files, input: Input)
    requires WellFormed(cfg, s)
    requires Triggers(cfg, s, input) && cfg.bufferSize > 0
    requires OpenedWriter(Trunc(input.now), input.opens).Some?
    ensures var t := Next(cfg, s, files, input);
      var o := OpenedWriter(Trunc(input.now), input.opens).value;
      var b1 := PreRoll.Push(s.buffer, input.frame, cfg.bufferSize);
      && |b1| > 0 && b1[|b1| - 1] == input.frame
      && t.files[o.path] == Video(b1 + [input.frame])
      && t.files[ThumbFile(Trunc(input.now))] == Image(b1[0])
      && t.after.buffer == []
      && t.event.codec == Some(o.codec)
      && (cfg.postFrames > 1 ==>
            && t.after.state == PostRoll && t.after.post == 1
            && t.after.writer == Some(Sink(o.codec, o.path, b1 + [input.frame])))
  {
    PreRoll.PushBounded(s.buffer, input.frame, cfg.bufferSize);
    WriterFallback(Trunc(input.now), input.opens);
  }

  /** One post-roll step: the frame is written, and either the recording goes on or it is finished and dispatched. */
  lemma PostRollStep(cfg: Config, s: Snapshot, files: Files, input: Input)
    requires WellFormed(cfg, s) && s.state == PostRoll
    ensures var t := Next(cfg, s, files, input);
      var w := s.writer.value;
      && t.files == files[w.path := Video(w.frames + [input.frame])]
      && (s.post + 1 >= cfg.postFrames ==>
            && t.after.state == Idle && t.after.writer.None? && t.after.pending.None? && t.after.buffer == []
            && t.event.dispatch
                 == Some(Dispatch(w.path, ThumbFile(w.path.stamp), ExpectedServices(cfg), StartedChannels(cfg))))
      && (s.post + 1 < cfg.postFrames ==>
            && WellFormed(cfg, t.after) && t.after.state == PostRoll && t.after.post == s.post + 1
            && t.after.writer == Some(w.(frames := w.frames + [input.frame]))
            && t.event.dispatch.None?)
  {
  }

  /** Unfolds one step of a run. */
  lemma RunFirst(cfg: Config, s: Snapshot, files: Files, inputs: seq<Input>)
    requires inputs != []
    ensures var t := Next(cfg, s, files, inputs[0]);
      var rest := Run(cfg, t.after, t.files, inputs[1..]);
      Run(cfg, s, files, inputs) == Outcome(rest.after, rest.files, [t.event] + rest.events)
  {
  }

  /** A run of one input is one step. */
  lemma RunOne(cfg: Config, s: Snapshot, files: Files, inputs: seq<Input>)
    requires |inputs| == 1
    ensures var t := Next(cfg, s, files, inputs[0]);
      Run(cfg, s, files, inputs) == Outcome(t.after, t.files, [t.event])
    ensures FramesOf(inputs) == [inputs[0].frame]
  {
    var t := Next(cfg, s, files, inputs[0]);
    assert Run(cfg, t.after, t.files, inputs[1..]) == Outcome(t.after, t.files, []);
  }

  /** The frames of a run start with the first input's frame. */
  lemma FramesOfFirst(inputs: seq<Input>)
    requires inputs != []
    ensures FramesOf(inputs) == [inputs[0].frame] + FramesOf(inputs[1..])
  {
  }

  /**
   * From a recording in progress, exactly the remaining post-roll frames are
   * written: each frame of the run goes into the clip, and after the last one
   * the writer is released and the loop is idle again with nothing pending.
   */
  lemma {:induction false} PostRollRunsToCompletion(cfg: Config, s: Snapshot, files: Files, inputs: seq<Input>)
    requires WellFormed(cfg, s) && s.state == PostRoll
    requires |inputs| == cfg.postFrames - s.post
    ensures var r := Run(cfg, s, files, inputs);
      var w := s.writer.value;
      && r.after.state == Idle && r.after.writer.None? && r.after.pending.None?
      && r.after.buffer == []
      && r.files == files[w.path := Video(w.frames + FramesOf(inputs))]
    decreases |inputs|
  {
    var w := s.writer.value;
    var t := Next(cfg, s, files, inputs[0]);
    RunFirst(cfg, s, files, inputs);
    PostRollStep(cfg, s, files, inputs[0]);
    FramesOfFirst(inputs);
    if |inputs| == 1 {
      RunOne(cfg, s, files, inputs);
    } else {
      PostRollRunsToCompletion(cfg, t.after, t.files, inputs[1..]);
      assert w.frames + FramesOf(inputs) == (w.frames + [inputs[0].frame]) + FramesOf(inputs[1..]);
      Overwrite(files, w.path, Video(w.frames + [inputs[0].frame]), Video(w.frames + FramesOf(inputs)));
    }
  }

  /** Writing a file twice leaves the second content. */
  lemma Overwrite(m: Files, k: Path, a: Content, b: Content)
    ensures m[k := a][k := b] == m[k := b]
  {
  }

  /**
   * The clip of a recording in progress is dispatched once, on the last
   * post-roll frame, together with its thumbnail and the configured channels.
   */
  lemma {:induction false} PostRollDispatchesOnLastFrame(cfg: Config, s: Snapshot, files: Files, inputs: seq<Input>)
    requires WellFormed(cfg, s) && s.state == PostRoll
    requires |inputs| == cfg.postFrames - s.post
    ensures var r := Run(cfg, s, files, inputs);
      var w := s.writer.value;
      && r.events[|inputs| - 1].dispatch
           == Some(Dispatch(w.path, ThumbFile(w.path.stamp), ExpectedServices(cfg), StartedChannels(cfg)))
      && forall i :: 0 <= i < |inputs| - 1 ==> r.events[i].dispatch.None?
    decreases |inputs|
  {
    var t := Next(cfg, s, files, inputs[0]);
    PostRollStep(cfg, s, files, inputs[0]);
    if |inputs| == 1 {
      RunOne(cfg, s, files, inputs);
    } else {
      RunFirst(cfg, s, files, inputs);
      var rest := Run(cfg, t.after, t.files, inputs[1..]);
      var r := Run(cfg, s, files, inputs);
      PostRollDispatchesOnLastFrame(cfg, t.after, t.files, inputs[1..]);
      assert r.events[|inputs| - 1] == rest.events[|inputs| - 2];
      forall i | 0 <= i < |inputs| - 1 ensures r.events[i].dispatch.None? {
        if i > 0 {
          assert r.events[i] == rest.events[i - 1];
        }
      }
    }
  }

  /** A trigger whose writer opens, in the terms the post-roll lemmas need. */
  lemma TriggerStep(cfg: Config, s: Snapshot, files: Files, input: Input)
    requires WellFormed(cfg, s) && Triggers(cfg, s, input)
    requires OpenedWriter(Trunc(input.now), input.opens).Some?
    ensures var t := Next(cfg, s, files, input);
      var stamp := Trunc(input.now);
      var o := OpenedWriter(stamp, input.opens).value;
      var b1 := PreRoll.Push(s.buffer, input.frame, cfg.bufferSize);
      var clip := b1 + [input.frame];
      && o.path.ClipFile? && o.path.stamp == stamp
      && t.files == files[ThumbFile(stamp) := Image(if |b1| > 0 then b1[0] else input.frame)][o.path := Video(clip)]
      && (cfg.postFrames <= 1 ==>
            && t.after.state == Idle
            && t.event.dispatch == Some(Dispatch(o.path, ThumbFile(stamp), ExpectedServices(cfg), StartedChannels(cfg))))
      && (cfg.postFrames > 1 ==>
            && WellFormed(cfg, t.after) && t.after.state == PostRoll && t.after.post == 1
            && t.after.writer == Some(Sink(o.codec, o.path, clip)))
  {
    WriterFallback(Trunc(input.now), input.opens);
    NextKeepsWellFormed(cfg, s, files, input);
  }

  /**
   * A whole recording: a trigger whose writer opens, followed by the rest of
   * the post-roll, leaves a clip of the buffered frames followed by every
   * frame of the run, the trigger frame included again, so it is
   * `max(FRAMES_A_GRABAR_POST, 1)` frames longer than the buffer.
   */
  lemma OneRecording(cfg: Config, s: Snapshot, files: Files, inputs: seq<Input>)
    requires WellFormed(cfg, s)
    requires |inputs| == Max(cfg.postFrames, 1)
    requires Triggers(cfg, s, inputs[0])
    requires OpenedWriter(Trunc(inputs[0].now), inputs[0].opens).Some?
    ensures var r := Run(cfg, s, files, inputs);
      var o := OpenedWriter(Trunc(inputs[0].now), inputs[0].opens).value;
      var b1 := PreRoll.Push(s.buffer, inputs[0].frame, cfg.bufferSize);
      && o.path in r.files && r.files[o.path] == Video(b1 + FramesOf(inputs))
      && |b1 + FramesOf(inputs)| == |b1| + Max(cfg.postFrames, 1)
  {
    var o := OpenedWriter(Trunc(inputs[0].now), inputs[0].opens).value;
    var b1 := PreRoll.Push(s.buffer, inputs[0].frame, cfg.bufferSize);
    var t := Next(cfg, s, files, inputs[0]);
    TriggerStep(cfg, s, files, inputs[0]);
    FramesOfFirst(inputs);
    if cfg.postFrames <= 1 {
      RunOne(cfg, s, files, inputs);
    } else {
      RunFirst(cfg, s, files, inputs);
      PostRollRunsToCompletion(cfg, t.after, t.files, inputs[1..]);
      assert b1 + FramesOf(inputs) == (b1 + [inputs[0].frame]) + FramesOf(inputs[1..]);
    }
  }

  /** After a whole recording the loop is idle again and the thumbnail is still on disk, holding the oldest buffered frame. */
  lemma OneRecordingLeavesThumbnail(cfg: Config, s: Snapshot, files: Files, inputs: seq<Input>)
    requires WellFormed(cfg, s)
    requires |inputs| == Max(cfg.postFrames, 1)
    requires Triggers(cfg, s, inputs[0])
    requires OpenedWriter(Trunc(inputs[0].now), inputs[0].opens).Some?
    ensures var r := Run(cfg, s, files, inputs);
      var b1 := PreRoll.Push(s.buffer, inputs[0].frame, cfg.bufferSize);
      var thumb := ThumbFile(Trunc(inputs[0].now));
      && r.after.state == Idle && r.after.writer.None?
      && thumb in r.files && r.files[thumb] == Image(if |b1| > 0 then b1[0] else inputs[0].frame)
  {
    var t := Next(cfg, s, files, inputs[0]);
    TriggerStep(cfg, s, files, inputs[0]);
    if cfg.postFrames <= 1 {
      RunOne(cfg, s, files, inputs);
    } else {
      RunFirst(cfg, s, files, inputs);
      PostRollRunsToCompletion(cfg, t.after, t.files, inputs[1..]);
    }
  }

  /** The recording started by a trigger is dispatched on the last frame of its post-roll, with its own clip and thumbnail. */
  lemma OneRecordingDispatch(cfg: Config, s: Snapshot, files: Files, inputs: seq<Input>)
    requires WellFormed(cfg, s)
    requires |inputs| == Max(cfg.postFrames, 1)
    requires Triggers(cfg, s, inputs[0])
    requires OpenedWriter(Trunc(inputs[0].now), inputs[0].opens).Some?
    ensures var r := Run(cfg, s, files, inputs);
      var stamp := Trunc(inputs[0].now);
      var o := OpenedWriter(stamp, inputs[0].opens).value;
      r.events[|inputs| - 1].dispatch
        == Some(Dispatch(o.path, ThumbFile(stamp), ExpectedServices(cfg), StartedChannels(cfg)))
  {
    var t := Next(cfg, s, files, inputs[0]);
    TriggerStep(cfg, s, files, inputs[0]);
    if cfg.postFrames <= 1 {
      RunOne(cfg, s, files, inputs);
    } else {
      RunFirst(cfg, s, files, inputs);
      var rest := Run(cfg, t.after, t.files, inputs[1..]);
      PostRollDispatchesOnLastFrame(cfg, t.after, t.files, inputs[1..]);
      assert Run(cfg, s, files, inputs).events[|inputs| - 1] == rest.events[|inputs| - 2];
    }
  }

  /**
   * The loop expects one callback per configured channel and starts one
   * thread per configured channel, Discord first; with no channel configured
   * nothing is started and nothing is expected, so nothing is ever deleted.
   */
  lemma ExpectedCountsStartedChannels(cfg: Config)
    ensures ExpectedServices(cfg) == |StartedChannels(cfg)|
    ensures Discord in StartedChannels(cfg) <==> cfg.webhookUrl
    ensures Telegram in StartedChannels(cfg) <==> cfg.telegramToken && cfg.telegramChatId
    ensures |StartedChannels(cfg)| == 2 ==> StartedChannels(cfg) == [Discord, Telegram]
    ensures !cfg.webhookUrl && !(cfg.telegramToken && cfg.telegramChatId) ==>
      StartedChannels(cfg) == [] && ExpectedServices(cfg) == 0
  {
  }
}
