/**
 * The body of the capture loop in `main()`: one call of `Recorder.Step` per
 * frame. Per frame it buffers the frame while idle, maybe consults the
 * detector, maybe starts a recording (thumbnail, codec fallback, pre-roll
 * flush), writes post-roll frames, and when the post-roll is complete releases
 * the writer and starts one delivery per configured channel with a shared
 * completion barrier.
 *
 * `Next` is the specification of one step as a function of the old state;
 * `Recorder.Step` is the imperative step proved to agree with it.
 */
module Recorder {
  import opened Common
  import opened VideoSink
  import PreRoll
  import Completion

  /** `estado_grabacion`: "IDLE" or "POSTROLL". */
  datatype RecState = Idle | PostRoll

  /**
   * The settings the loop reads: pre-roll buffer size (`TAMAÑO_BUFFER`),
   * post-roll frame count (`FRAMES_A_GRABAR_POST`), cooldown in seconds, and
   * whether the Discord webhook and the Telegram token and chat id are set.
   */
  datatype Config = Config(
    bufferSize: nat,
    postFrames: nat,
    cooldown: real,
    webhookUrl: bool,
    telegramToken: bool,
    telegramChatId: bool)

  const ExpectedFps: nat := 15
  const PreRollSeconds: real := 1.0
  const PostRollSeconds: real := 9.0
  const CooldownSeconds: real := 20.0

  /** The shipped settings, for given credentials: 15 buffered frames, 135 post-roll frames, 20 s cooldown. */
  function Shipped(webhookUrl: bool, telegramToken: bool, telegramChatId: bool): (cfg: Config)
    ensures cfg.bufferSize == 15 && cfg.postFrames == 135 && cfg.cooldown == 20.0
  {
    Config(
      Trunc(ExpectedFps as real * PreRollSeconds),
      Trunc(ExpectedFps as real * PostRollSeconds),
      CooldownSeconds, webhookUrl, telegramToken, telegramChatId)
  }

  /** What `detect_for_video` gave: a number of detections, or an exception. */
  datatype DetectorReply = Detections(count: nat) | DetectorRaised

  /** The open video writer: its codec, its file, and the frames written to it so far. */
  datatype Sink = Sink(codec: Codec, path: Path, frames: seq<Frame>)

  /** `archivos_para_envio`: the clip and thumbnail to hand to the channels. */
  datatype Artifacts = Artifacts(video: Path, thumb: Path)

  /**
   * The loop's state: the pre-roll buffer, the sampling counter
   * `frame_timestamp_ms`, the timestamps handed to the detector so far, the
   * recording state, `ultima_alerta_tiempo`, `video_out`,
   * `frames_grabados_post` and `archivos_para_envio`.
   */
  datatype Snapshot = Snapshot(
    buffer: seq<Frame>,
    clock: nat,
    stamps: seq<nat>,
    state: RecState,
    lastAlert: real,
    writer: Option<Sink>,
    post: nat,
    pending: Option<Artifacts>)

  /** The deliveries started for a finished clip: files, expected callbacks, and threads started in order. */
  datatype Dispatch = Dispatch(video: Path, thumb: Path, expected: nat, started: seq<Channel>)

  /** What one step did besides changing the state. */
  datatype Event = Event(detectorCalled: bool, triggered: bool, codec: Option<Codec>, dispatch: Option<Dispatch>)

  /** One frame, the detector's reply for it, the clock reading and the video writer oracle. */
  datatype Input = Input(frame: Frame, reply: DetectorReply, now: real, opens: Opener)

  datatype Transition = Transition(after: Snapshot, files: Files, event: Event)

  /** The state before the first frame. */
  const Initial: Snapshot := Snapshot([], 0, [], Idle, 0.0, None, 0, None)

  /** The state the loop maintains between frames. */
  predicate WellFormed(cfg: Config, s: Snapshot) {
    && |s.buffer| <= cfg.bufferSize
    && (s.state == Idle ==> s.writer.None?)
    && (s.state == PostRoll ==>
          && s.writer.Some?
          && s.writer.value.path.ClipFile?
          && s.buffer == []
          && s.post < cfg.postFrames
          && s.pending == Some(Artifacts(s.writer.value.path, ThumbFile(s.writer.value.path.stamp))))
  }

  /** The threads the loop starts: Discord first, then Telegram, each only if configured. */
  function StartedChannels(cfg: Config): seq<Channel> {
    (if cfg.webhookUrl then [Discord] else []) + (if cfg.telegramToken && cfg.telegramChatId then [Telegram] else [])
  }

  /** `servicios_esperados`: one per configured channel, counted separately from the threads. */
  function ExpectedServices(cfg: Config): nat {
    (if cfg.webhookUrl then 1 else 0) + (if cfg.telegramToken && cfg.telegramChatId then 1 else 0)
  }

  /** Writes one post-roll frame and, once the post-roll count is reached, releases the writer and dispatches. */
  function Record(cfg: Config, s: Snapshot, files: Files, frame: Frame): Transition
    requires s.writer.Some?
  {
    var w := s.writer.value.(frames := s.writer.value.frames + [frame]);
    var files1 := files[w.path := Video(w.frames)];
    var post := s.post + 1;
    if post >= cfg.postFrames then
      var d := if s.pending.Some?
        then Some(Dispatch(s.pending.value.video, s.pending.value.thumb, ExpectedServices(cfg), StartedChannels(cfg)))
        else None;
      Transition(s.(writer := None, post := post, state := Idle, pending := None), files1, Event(false, false, None, d))
    else
      Transition(s.(writer := Some(w), post := post), files1, Event(false, false, None, None))
  }

  /** Appends the frame to the pre-roll buffer while idle. */
  function Buffered(cfg: Config, s: Snapshot, frame: Frame): Snapshot {
    if s.state == Idle then s.(buffer := PreRoll.Push(s.buffer, frame, cfg.bufferSize)) else s
  }

  /** Whether the sampling counter lets this frame reach the detector. */
  function Evaluated(s: Snapshot): bool {
    s.clock % 2 == 0
  }

  /** Advances the sampling counter and records the timestamp handed to the detector, on evaluated frames only. */
  function Sampled(s: Snapshot): Snapshot {
    if Evaluated(s) then s.(clock := s.clock + 1, stamps := s.stamps + [s.clock + 1]) else s
  }

  /** `objeto_detectado`: false on skipped frames and when the detector raised. */
  function Detected(s: Snapshot, reply: DetectorReply): bool {
    Evaluated(s) && reply.Detections? && reply.count > 0
  }

  /** The three conditions that start a recording. */
  function Triggers(cfg: Config, s: Snapshot, input: Input): bool {
    Detected(s, input.reply) && s.state == Idle && input.now - s.lastAlert > cfg.cooldown
  }

  /**
   * Starting a recording: stamp the alert, write the thumbnail from the oldest
   * buffered frame, open a writer by codec fallback, and flush the buffer into
   * it. When no codec opens the state goes back to idle with the buffer intact.
   */
  function Start(s: Snapshot, files: Files, frame: Frame, now: real, opens: Opener): Transition {
    var stamp := Trunc(now);
    var thumb := ThumbFile(stamp);
    var files1 := files[thumb := Image(if |s.buffer| > 0 then s.buffer[0] else frame)];
    match OpenedWriter(stamp, opens)
    case None =>
      var s2 := s.(state := Idle, post := 0, lastAlert := now, writer := None,
                   pending := Some(Artifacts(ClipFile(stamp, Mp4), thumb)));
      Transition(s2, files1, Event(true, true, None, None))
    case Some(o) =>
      var s2 := s.(state := PostRoll, post := 0, lastAlert := now, buffer := [],
                   writer := Some(Sink(o.codec, o.path, s.buffer)),
                   pending := Some(Artifacts(o.path, thumb)));
      Transition(s2, files1[o.path := Video(s.buffer)], Event(true, true, Some(o.codec), None))
  }

  /** One pass of the capture loop. */
  function Next(cfg: Config, s: Snapshot, files: Files, input: Input): Transition {
    var s1 := Sampled(Buffered(cfg, s, input.frame));
    if Triggers(cfg, s, input) then
      var t := Start(s1, files, input.frame, input.now, input.opens);
      if t.after.writer.None? then t
      else
        var r := Record(cfg, t.after, t.files, input.frame);
        Transition(r.after, r.files, Event(true, true, t.event.codec, r.event.dispatch))
    else if s.state == PostRoll && s.writer.Some? then
      var r := Record(cfg, s1, files, input.frame);
      Transition(r.after, r.files, Event(Evaluated(s), false, None, r.event.dispatch))
    else
      Transition(s1, files, Event(Evaluated(s), false, None, None))
  }

  /** Leaving the loop (end of stream, error or the 'q' key): an open writer is released, nothing is dispatched. */
  function Stopped(s: Snapshot): Snapshot {
    s.(writer := None)
  }

  datatype Outcome = Outcome(after: Snapshot, files: Files, events: seq<Event>)

  /** The loop run over a sequence of frames. */
  function Run(cfg: Config, s: Snapshot, files: Files, inputs: seq<Input>): (r: Outcome)
    ensures |r.events| == |inputs|
    decreases |inputs|
  {
    if inputs == [] then Outcome(s, files, [])
    else
      var t := Next(cfg, s, files, inputs[0]);
      var rest := Run(cfg, t.after, t.files, inputs[1..]);
      Outcome(rest.after, rest.files, [t.event] + rest.events)
  }

  /** The local variables of `main()` that the capture loop updates. */
  class Recorder {
    const config: Config
    var buffer: seq<Frame>
    var clock: nat
    var detectorStamps: seq<nat>
    var state: RecState
    var lastAlert: real
    var writer: Option<Sink>
    var post: nat
    var pending: Option<Artifacts>

    function View(): Snapshot
      reads this
    {
      Snapshot(buffer, clock, detectorStamps, state, lastAlert, writer, post, pending)
    }

    predicate Valid()
      reads this
    {
      WellFormed(config, View())
    }

    constructor (config: Config)
      ensures Valid() && this.config == config && View() == Initial
    {
      this.config := config;
      buffer := [];
      clock := 0;
      detectorStamps := [];
      state := Idle;
      lastAlert := 0.0;
      writer := None;
      post := 0;
      pending := None;
    }

    /** `video_out.write(frame)`: one more frame in the writer and in its file. */
    method Write(frame: Frame, disk: Disk)
      requires writer.Some?
      modifies this, disk
      ensures writer == Some(old(writer).value.(frames := old(writer).value.frames + [frame]))
      ensures disk.files == old(disk.files)[writer.value.path := Video(writer.value.frames)]
      ensures buffer == old(buffer) && clock == old(clock) && detectorStamps == old(detectorStamps)
      ensures state == old(state) && lastAlert == old(lastAlert) && post == old(post) && pending == old(pending)
    {
      var w := writer.value;
      writer := Some(w.(frames := w.frames + [frame]));
      disk.files := disk.files[w.path := Video(w.frames + [frame])];
    }

    /** Buffering and sampling, the part of the loop body before the trigger test. */
    method Observe(frame: Frame, reply: DetectorReply) returns (evaluated: bool, detected: bool)
      requires Valid()
      modifies this
      ensures View() == Sampled(Buffered(config, old(View()), frame))
      ensures evaluated == Evaluated(old(View())) && detected == Detected(old(View()), reply)
    {
      PreRoll.PushBounded(buffer, frame, config.bufferSize);
      if state == Idle && config.bufferSize > 0 {
        if |buffer| == config.bufferSize {
          buffer := buffer[1..];
        }
        buffer := buffer + [frame];
      }
      evaluated := clock % 2 == 0;
      detected := false;
      if evaluated {
        clock := clock + 1;
        detectorStamps := detectorStamps + [clock];
        detected := reply.Detections? && reply.count > 0;
      }
    }

    /** Writes the buffered frames into the freshly opened writer, oldest first, and empties the buffer. */
    method Flush(disk: Disk)
      requires writer.Some? && writer.value.frames == []
      requires writer.value.path in disk.files && disk.files[writer.value.path] == Video([])
      modifies this, disk
      ensures writer == Some(old(writer).value.(frames := old(buffer)))
      ensures disk.files == old(disk.files)[writer.value.path := Video(old(buffer))]
      ensures buffer == [] && clock == old(clock) && detectorStamps == old(detectorStamps)
      ensures state == old(state) && lastAlert == old(lastAlert) && post == old(post) && pending == old(pending)
    {
      var i := 0;
      while i < |buffer|
        invariant 0 <= i <= |buffer|
        invariant writer == Some(old(writer).value.(frames := buffer[..i]))
        invariant disk.files == old(disk.files)[writer.value.path := Video(buffer[..i])]
        invariant buffer == old(buffer) && clock == old(clock) && detectorStamps == old(detectorStamps)
        invariant state == old(state) && lastAlert == old(lastAlert) && post == old(post) && pending == old(pending)
      {
        Write(buffer[i], disk);
        assert buffer[..i] + [buffer[i]] == buffer[..i + 1];
        i := i + 1;
      }
      assert buffer[..|buffer|] == buffer;
      buffer := [];
    }

    /** The block that starts a recording. */
    method StartRecording(frame: Frame, now: real, opens: Opener, disk: Disk) returns (event: Event)
      modifies this, disk
      ensures var t := Start(old(View()), old(disk.files), frame, now, opens);
        View() == t.after && disk.files == t.files && event == t.event
    {
      state := PostRoll;
      post := 0;
      lastAlert := now;
      var stamp := Trunc(now);
      var thumb := ThumbFile(stamp);
      pending := Some(Artifacts(ClipFile(stamp, Mp4), thumb));
      if |buffer| > 0 {
        disk.files := disk.files[thumb := Image(buffer[0])];
      } else {
        disk.files := disk.files[thumb := Image(frame)];
      }
      var o := OpenWriter(stamp, opens);
      if o.None? {
        state := Idle;
        writer := None;
        event := Event(true, true, None, None);
        return;
      }
      if o.value.codec == Xvid {
        pending := Some(Artifacts(o.value.path, thumb));
      }
      writer := Some(Sink(o.value.codec, o.value.path, []));
      disk.files := disk.files[o.value.path := Video([])];
      Flush(disk);
      event := Event(true, true, Some(o.value.codec), None);
    }

    /** The post-roll block: write the frame and, once enough frames are written, release and dispatch. */
    method RecordFrame(frame: Frame, disk: Disk) returns (dispatch: Option<Dispatch>, barrier: Completion.Barrier?)
      requires writer.Some?
      modifies this, disk
      ensures var t := Record(config, old(View()), old(disk.files), frame);
        View() == t.after && disk.files == t.files && dispatch == t.event.dispatch
      ensures barrier == null <==> dispatch.None?
      ensures barrier != null ==>
        && fresh(barrier) && barrier.Valid() && barrier.count == 0
        && barrier.video == dispatch.value.video
        && barrier.thumb == dispatch.value.thumb
        && barrier.expected == dispatch.value.expected
    {
      dispatch := None;
      barrier := null;
      Write(frame, disk);
      post := post + 1;
      if post >= config.postFrames {
        writer := None;
        state := Idle;
        if pending.Some? {
          var expected := 0;
          if config.webhookUrl {
            expected := expected + 1;
          }
          if config.telegramToken && config.telegramChatId {
            expected := expected + 1;
          }
          var started: seq<Channel> := [];
          if config.webhookUrl {
            started := started + [Discord];
          }
          if config.telegramToken && config.telegramChatId {
            started := started + [Telegram];
          }
          assert started == StartedChannels(config) && expected == ExpectedServices(config);
          dispatch := Some(Dispatch(pending.value.video, pending.value.thumb, expected, started));
          barrier := new Completion.Barrier(pending.value.video, pending.value.thumb, expected);
        }
        pending := None;
      }
    }

    /** One pass of the capture loop for `frame`. */
    method Step(frame: Frame, reply: DetectorReply, now: real, opens: Opener, disk: Disk)
      returns (event: Event, barrier: Completion.Barrier?)
      requires Valid()
      modifies this, disk
      ensures Valid()
      ensures var t := Next(config, old(View()), old(disk.files), Input(frame, reply, now, opens));
        View() == t.after && disk.files == t.files && event == t.event
      ensures barrier == null <==> event.dispatch.None?
      ensures barrier != null ==>
        && fresh(barrier) && barrier.Valid() && barrier.count == 0
        && barrier.video == event.dispatch.value.video
        && barrier.thumb == event.dispatch.value.thumb
        && barrier.expected == event.dispatch.value.expected
    {
      ghost var s0 := View();
      var wasIdle := state == Idle;
      var alertBefore := lastAlert;
      var evaluated, detected := Observe(frame, reply);
      barrier := null;
      var codec: Option<Codec> := None;
      if detected && wasIdle && now - lastAlert > config.cooldown {
        event := StartRecording(frame, now, opens, disk);
        if writer.None? {
          return;
        }
        codec := event.codec;
      }
      var dispatch: Option<Dispatch> := None;
      if state == PostRoll && writer.Some? {
        dispatch, barrier := RecordFrame(frame, disk);
      }
      event := Event(evaluated, detected && wasIdle && now - alertBefore > config.cooldown, codec, dispatch);
      NextKeepsWellFormed(config, s0, old(disk.files), Input(frame, reply, now, opens));
    }

    /** The `finally` block: release an open writer; no delivery is started. */
    method Shutdown()
      requires Valid()
      modifies this
      ensures View() == Stopped(old(View()))
    {
      writer := None;
    }
  }

  /** One pass of the loop keeps the state well formed: the buffer within its size, a writer exactly while recording. */
  lemma NextKeepsWellFormed(cfg: Config, s: Snapshot, files: Files, input: Input)
    requires WellFormed(cfg, s)
    ensures WellFormed(cfg, Next(cfg, s, files, input).after)
  {
    var s1 := Sampled(Buffered(cfg, s, input.frame));
    if s.state == Idle {
      PreRoll.PushBounded(s.buffer, input.frame, cfg.bufferSize);
    }
    if Triggers(cfg, s, input) {
      var stamp := Trunc(input.now);
      WriterFallback(stamp, input.opens);
    }
  }
}
