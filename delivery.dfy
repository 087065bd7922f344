/**
 * The deliveries started for one finished clip, sharing one completion
 * barrier. The threads are replaced by running the started channels one
 * after another; any interleaving of whole channel runs is one such order.
 */
module Delivery {
  import opened Common
  import opened Notifiers
  import Completion
  import Recorder

  /** The channels' runs in order, the files left, and the barrier count. */
  datatype Delivered = Delivered(runs: seq<ChannelRun>, files: Files, count: nat)

  /**
   * The channels of `order` delivering the clip one after another, each
   * started only because it is configured, with a barrier that has already
   * received `count` callbacks.
   */
  function DeliverInOrder(order: seq<Channel>, video: Path, thumb: Path, expected: nat,
                          files: Files, count: nat, world: Channel -> World): (r: Delivered)
    ensures |r.runs| == |order|
    decreases |order|
  {
    if order == [] then Delivered([], files, count)
    else
      var run := AlertOutcome(order[0], true, video, thumb, files, world(order[0]));
      var files1 := Completion.Cleaned(run.files, video, thumb, count, run.callbacks, expected);
      var rest := DeliverInOrder(order[1..], video, thumb, expected, files1, count + run.callbacks, world);
      Delivered([run] + rest.runs, rest.files, rest.count)
  }

  /** The first channel's turn, then the others'. */
  lemma DeliverFirst(order: seq<Channel>, video: Path, thumb: Path, expected: nat,
                     files: Files, count: nat, world: Channel -> World)
    requires order != []
    ensures var run := AlertOutcome(order[0], true, video, thumb, files, world(order[0]));
      var files1 := Completion.Cleaned(run.files, video, thumb, count, run.callbacks, expected);
      var rest := DeliverInOrder(order[1..], video, thumb, expected, files1, count + run.callbacks, world);
      DeliverInOrder(order, video, thumb, expected, files, count, world) == Delivered([run] + rest.runs, rest.files, rest.count)
  {
  }

  /** Delivery so far plus the remaining channels, advanced by one channel. */
  lemma DeliverAdvance(whole: Delivered, runs: seq<ChannelRun>, order: seq<Channel>, i: nat, video: Path, thumb: Path,
                       expected: nat, files: Files, count: nat, world: Channel -> World)
    requires i < |order|
    requires var rest := DeliverInOrder(order[i..], video, thumb, expected, files, count, world);
      whole == Delivered(runs + rest.runs, rest.files, rest.count)
    ensures var run := AlertOutcome(order[i], true, video, thumb, files, world(order[i]));
      var files1 := Completion.Cleaned(run.files, video, thumb, count, run.callbacks, expected);
      var rest := DeliverInOrder(order[i + 1..], video, thumb, expected, files1, count + run.callbacks, world);
      whole == Delivered((runs + [run]) + rest.runs, rest.files, rest.count)
  {
    DeliverFirst(order[i..], video, thumb, expected, files, count, world);
    assert order[i..][0] == order[i] && order[i..][1..] == order[i + 1..];
    var run := AlertOutcome(order[i], true, video, thumb, files, world(order[i]));
    var rest := DeliverInOrder(order[i..], video, thumb, expected, files, count, world);
    assert runs + rest.runs == (runs + [run]) + rest.runs[1..];
  }

  /** The barrier receives every callback of every channel, and each channel makes one or two. */
  lemma {:induction false} CountsEveryCallback(order: seq<Channel>, video: Path, thumb: Path, expected: nat,
                                               files: Files, count: nat, world: Channel -> World)
    ensures var r := DeliverInOrder(order, video, thumb, expected, files, count, world);
      count + |order| <= r.count <= count + 2 * |order|
    decreases |order|
  {
    if order != [] {
      var run := AlertOutcome(order[0], true, video, thumb, files, world(order[0]));
      var files1 := Completion.Cleaned(run.files, video, thumb, count, run.callbacks, expected);
      DeliverFirst(order, video, thumb, expected, files, count, world);
      CountsEveryCallback(order[1..], video, thumb, expected, files1, count + run.callbacks, world);
    }
  }

  /**
   * Once every started channel has finished, the clip and the thumbnail are
   * gone, whatever route each channel took: each channel calls back at least
   * once, so the count reaches the number of started channels.
   */
  lemma {:induction false} FinishedDeliveryRemovesClip(order: seq<Channel>, video: Path, thumb: Path, expected: nat,
                                                       files: Files, count: nat, world: Channel -> World)
    requires order != [] && expected <= count + |order|
    requires video.ClipFile? && thumb.ThumbFile?
    ensures var r := DeliverInOrder(order, video, thumb, expected, files, count, world);
      video !in r.files && thumb !in r.files
    decreases |order|
  {
    var run := AlertOutcome(order[0], true, video, thumb, files, world(order[0]));
    var files1 := Completion.Cleaned(run.files, video, thumb, count, run.callbacks, expected);
    DeliverFirst(order, video, thumb, expected, files, count, world);
    if |order| == 1 {
      assert video !in files1 && thumb !in files1;
      assert DeliverInOrder(order[1..], video, thumb, expected, files1, count + run.callbacks, world).files == files1;
    } else {
      FinishedDeliveryRemovesClip(order[1..], video, thumb, expected, files1, count + run.callbacks, world);
    }
  }

  /**
   * When every started channel uploads the clip as a video, the barrier
   * receives exactly the expected number of callbacks, the cleanup runs
   * exactly once, on the last callback, and it removes the clip and the
   * thumbnail; nothing else is touched.
   */
  lemma {:induction false} VideoRoutesCleanUpOnce(order: seq<Channel>, video: Path, thumb: Path, expected: nat,
                                                  files: Files, count: nat, world: Channel -> World)
    requires |order| >= 1 && count + |order| == expected
    requires video in files
    requires forall i :: 0 <= i < |order| ==> world(order[i]).size <= Limit(order[i])
    ensures var r := DeliverInOrder(order, video, thumb, expected, files, count, world);
      && r.count == expected
      && r.files == files - {video, thumb}
      && (forall i :: 0 <= i < |order| ==> r.runs[i].route == AsVideo)
    decreases |order|
  {
    var run := AlertOutcome(order[0], true, video, thumb, files, world(order[0]));
    assert run.route == AsVideo && run.files == files;
    var files1 := Completion.Cleaned(run.files, video, thumb, count, 1, expected);
    var r := DeliverInOrder(order, video, thumb, expected, files, count, world);
    if |order| > 1 {
      assert files1 == files;
      forall i | 0 <= i < |order| - 1 ensures world(order[1..][i]).size <= Limit(order[1..][i]) {
        assert order[1..][i] == order[i + 1];
      }
      VideoRoutesCleanUpOnce(order[1..], video, thumb, expected, files1, count + 1, world);
      forall i | 0 <= i < |order| ensures r.runs[i].route == AsVideo {
        if i > 0 {
          assert r.runs[i] == DeliverInOrder(order[1..], video, thumb, expected, files1, count + 1, world).runs[i - 1];
        }
      }
    }
  }

  /** With the shipped barrier and both channels on the video path, the cleanup runs exactly once. */
  lemma BothVideoCleanUpOnce(video: Path, thumb: Path, files: Files, world: Channel -> World)
    requires video in files
    requires world(Discord).size <= DiscordLimit && world(Telegram).size <= TelegramLimit
    ensures var r := DeliverInOrder([Discord, Telegram], video, thumb, 2, files, 0, world);
      && r.count == 2 && Completion.CleanupsAfter(r.count, 2) == 1
      && r.files == files - {video, thumb}
  {
    VideoRoutesCleanUpOnce([Discord, Telegram], video, thumb, 2, files, 0, world);
    Completion.CleanupOnceIffExpected(2, 2);
  }

  /**
   * With both channels configured (two expected callbacks), a channel whose
   * clip is over its limit calls back twice and so completes the barrier on
   * its own: the clip and thumbnail are deleted before the other channel has
   * started. That channel then finds no clip, sends nothing, and its own
   * callback runs the cleanup a second time.
   */
  lemma OversizedChannelCompletesBarrierAlone(first: Channel, second: Channel, video: Path, thumb: Path,
                                              files: Files, world: Channel -> World)
    requires video.ClipFile? && thumb.ThumbFile? && video in files
    requires world(first).size > Limit(first)
    ensures var r := DeliverInOrder([first, second], video, thumb, 2, files, 0, world);
      && r.runs[0].route.AsImage? && r.runs[0].callbacks == 2
      && r.runs[1].route == SizeUnknown && !r.runs[1].delivered
      && r.count == 3 && Completion.CleanupsAfter(r.count, 2) == 2
      && video !in r.files && thumb !in r.files
  {
    var run := AlertOutcome(first, true, video, thumb, files, world(first));
    var files1 := Completion.Cleaned(run.files, video, thumb, 0, 2, 2);
    assert video !in files1;
    var rest := DeliverInOrder([second], video, thumb, 2, files1, 2, world);
    assert [first, second][1..] == [second];
    var run2 := AlertOutcome(second, true, video, thumb, files1, world(second));
    assert run2.route == SizeUnknown && run2.files == files1;
    assert [second][1..] == [];
    var files2 := Completion.Cleaned(files1, video, thumb, 2, 1, 2);
    var tail := DeliverInOrder([second][1..], video, thumb, 2, files2, 3, world);
    assert tail == Delivered([], files2, 3);
    assert rest == Delivered([run2] + tail.runs, tail.files, tail.count);
  }

  /**
   * With no channel configured no thread starts, so no callback ever fires:
   * the count stays 0 and the clip and thumbnail are never deleted.
   */
  lemma NoChannelNoCleanup(cfg: Recorder.Config, video: Path, thumb: Path, files: Files, world: Channel -> World)
    requires !cfg.webhookUrl && !(cfg.telegramToken && cfg.telegramChatId)
    ensures var r := DeliverInOrder(Recorder.StartedChannels(cfg), video, thumb, Recorder.ExpectedServices(cfg), files, 0, world);
      && r.runs == [] && r.count == 0 && r.files == files
  {
  }

  /**
   * Delivers a dispatched clip: runs each started channel in turn against the
   * barrier the capture loop built for that dispatch (the one
   * `Recorder.Recorder.Step` returns with it).
   */
  method Deliver(d: Recorder.Dispatch, barrier: Completion.Barrier, world: Channel -> World, disk: Disk)
    returns (runs: seq<ChannelRun>)
    requires barrier.Valid() && barrier.count == 0
    requires barrier.video == d.video && barrier.thumb == d.thumb && barrier.expected == d.expected
    modifies disk, barrier
    ensures barrier.Valid()
    ensures var r := DeliverInOrder(d.started, d.video, d.thumb, d.expected, old(disk.files), 0, world);
      runs == r.runs && disk.files == r.files && barrier.count == r.count
    ensures d.started == [] ==> disk.files == old(disk.files) && barrier.count == 0
  {
    ghost var whole := DeliverInOrder(d.started, d.video, d.thumb, d.expected, disk.files, 0, world);
    assert d.started[0..] == d.started && [] + whole.runs == whole.runs;
    runs := [];
    var i := 0;
    while i < |d.started|
      invariant 0 <= i <= |d.started|
      invariant barrier.Valid()
      invariant barrier.video == d.video && barrier.thumb == d.thumb && barrier.expected == d.expected
      invariant var rest := DeliverInOrder(d.started[i..], d.video, d.thumb, d.expected, disk.files, barrier.count, world);
        whole == Delivered(runs + rest.runs, rest.files, rest.count)
    {
      DeliverAdvance(whole, runs, d.started, i, d.video, d.thumb, d.expected, disk.files, barrier.count, world);
      var ch := d.started[i];
      var run := SendAlert(ch, true, d.video, d.thumb, world(ch), disk, barrier);
      runs := runs + [run];
      i := i + 1;
    }
    assert d.started[i..] == [] && runs + [] == runs;
  }

  /**
   * One pass of the capture loop followed, when that pass dispatched a clip,
   * by the channels' deliveries against the barrier the pass built.
   */
  method StepThenDeliver(rec: Recorder.Recorder, input: Recorder.Input, world: Channel -> World, disk: Disk)
    returns (event: Recorder.Event, runs: seq<ChannelRun>)
    requires rec.Valid()
    modifies rec, disk
    ensures rec.Valid()
    ensures var t := Recorder.Next(rec.config, old(rec.View()), old(disk.files), input);
      && rec.View() == t.after && event == t.event
      && (t.event.dispatch.None? ==> runs == [] && disk.files == t.files)
      && (t.event.dispatch.Some? ==>
            var d := t.event.dispatch.value;
            var r := DeliverInOrder(d.started, d.video, d.thumb, d.expected, t.files, 0, world);
            runs == r.runs && disk.files == r.files)
  {
    var barrier;
    event, barrier := rec.Step(input.frame, input.reply, input.now, input.opens, disk);
    runs := [];
    if barrier != null {
      runs := Deliver(event.dispatch.value, barrier, world, disk);
    }
  }
}
