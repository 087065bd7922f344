# Motion-triggered CCTV recorder: recording and delivery, in Dafny

This project models the recording and delivery pipeline of a small Python
CCTV recorder and proves what that pipeline does. The recorder watches a
camera, records a clip when an object is detected, and sends the clip to
Discord and Telegram. The model follows the code as written, including the
places where the code does not do what its own comments say.

The modules are:

- `Common`: frames as opaque ids, file paths, a disk (`Disk`, a map from path
  to content), the two channels, and Python's `int()` on a float (`Trunc`,
  truncation toward zero).
- `VideoSink`: opening the video writer. The codecs H264, avc1, mp4v and XVID
  are tried in order. Only XVID writes an `.avi` file; the others write `.mp4`.
- `PreRoll`: the pre-roll buffer, a deque with a maximum length.
- `Recorder`: one pass of the capture loop in `main()`. `Next` specifies a pass
  as a function of the loop's state (`Snapshot`). The class
  `Recorder.Recorder` holds the loop's variables as fields, and its `Step`
  method is proved to agree with `Next`. `Run` applies `Next` to a sequence of
  frames.
- `Completion`: the shared completion barrier (`notificar_servicio_terminado`
  and its counter) as a class, with `CleanupsAfter` counting how often the
  cleanup runs.
- `BestFrame`: the best-frame search `encontrar_mejor_frame_objeto`, as a
  nested-loop method proved against a left fold (`Scan`) and against an
  independent reference (the best score per frame, `Peak`).
- `Notifiers`: per-channel delivery (`enviar_alerta_*_con_video`,
  `enviar_solo_imagen`, `enviar_solo_thumbnail`) as pure outcome functions,
  and as procedures that change the disk and call the barrier. Also the
  weekday table of `formatear_fecha_hora`.
- `Delivery`: the channels started for one clip, sharing one barrier, run one
  after another.
- `RecorderProperties`: lemmas about `Next` and `Run`.

The shipped settings are 15 frames per second, 1 s of pre-roll (15 frames),
9 s of post-roll (135 frames) and a 20 s cooldown. The size limits are 24 MiB
for Discord and 50 MiB for Telegram.

## Model

| member | source | states |
|---|---|---|
| Common.Trunc | main.py:106 | `int()` of a timestamp truncates toward zero: the result is within 1 of the input, at or below it for non-negative inputs |
| VideoSink.ClipPath | main.py:109-129 | a codec's clip file carries the alert's stamp and is `.avi` exactly when the codec is XVID |
| VideoSink.FirstOpen | main.py:127-141 | definition: the first candidate codec whose writer opens on its own file; its properties are `FirstOpenIsFirst` |
| VideoSink.OpenedWriter | main.py:119-146 | definition: `FirstOpen` over H264, avc1, mp4v, XVID; its properties are `WriterFallback` and `OnlyLastCandidateOpens` |
| VideoSink.FirstOpenIsFirst | main.py:127-141 | the fallback finds nothing exactly when every candidate fails; otherwise it picks a candidate that opened, and every earlier candidate failed |
| VideoSink.WriterFallback | main.py:119-146 | the writer is the first of H264, avc1, mp4v, XVID that opens, on its own file name; `.avi` exactly for XVID; no writer exactly when all four fail |
| VideoSink.OpenWriter | main.py:126-141 | the codec loop returns the writer `OpenedWriter` specifies; a returned writer opened on its file; no writer means every codec failed |
| VideoSink.OnlyLastCandidateOpens | main.py:129-137 | when only XVID opens, the writer is XVID on `alerta_<ts>.avi` |
| PreRoll.Newest | main.py:16 | a deque of maximum length `n` holding `s` keeps `min(n, \|s\|)` elements |
| PreRoll.Push | main.py:66 | definition: `deque.append` as the newest `maxlen` frames of the buffer plus the frame; its properties are `PushBounded` |
| PreRoll.PushAll | main.py:65-66 | definition: repeated appends; its properties are `PushAllKeepsNewest` and `PushAllFromEmpty` |
| PreRoll.PushBounded | main.py:65-66 | one append never exceeds the maximum length; the new frame is last; the buffer grows when not full and drops its oldest frame when full |
| PreRoll.PushAllKeepsNewest | main.py:65-66 | appending frames one at a time keeps exactly the newest frames, in order, as trimming once at the end would |
| PreRoll.PushAllFromEmpty | main.py:65-66 | after any appends to an empty buffer it holds the last `min(maxlen, k)` frames appended, oldest first |
| Completion.CleanupsAfter | main.py:193-195 | definition: callback `k` runs the cleanup iff the count it sets is at least the expected number; its closed form is `CleanupsClosedForm` |
| Completion.CleanupsClosedForm | main.py:191-205 | after `n` callbacks the cleanup has run `n - max(expected, 1) + 1` times once `n` reaches `max(expected, 1)`, and 0 times before that |
| Completion.CleanupOnceIffExpected | main.py:193-202 | with at least one expected channel, the cleanup runs exactly once iff exactly the expected number of callbacks arrive; never with fewer; more than once with more |
| Completion.Barrier.constructor | main.py:182-184 | a fresh barrier has count 0, no cleanup run yet, and the clip, thumbnail and expected count it was built with |
| Completion.Barrier.Notify | main.py:191-205 | a callback adds 1 to the count; when the count is at or above the expected number it deletes the clip and thumbnail if present; otherwise the disk is unchanged |
| Completion.NotifyAll | main.py:191-205 | any `n` callbacks leave count `n`, `CleanupsAfter(n, expected)` cleanup runs, and the disk without clip and thumbnail iff the cleanup ran |
| BestFrame.CentreFactor | scripts/telegram_notifier.py:162-166 | the centre factor `1 / (1 + d / 100)` lies in (0, 1] |
| BestFrame.Score | scripts/telegram_notifier.py:156-168 | definition: area times the first category's confidence times the centre factor; bounds through `CentreFactor` |
| BestFrame.Consider | scripts/telegram_notifier.py:150-175 | definition: one detection, skipped without categories, kept on a strictly higher score with the current position; properties in `ScanDetectionsPeak` |
| BestFrame.ScanDetections | scripts/telegram_notifier.py:150-175 | definition: the inner loop over a frame's detections; `ScanDetectionsPeak` shows it reaches the frame's peak |
| BestFrame.ScanFrame | scripts/telegram_notifier.py:142-180 | definition: one frame; a frame the detector raised on leaves the search unchanged, not even advancing the position; properties in `ScanFindsEarliestMaximum` |
| BestFrame.Scan | scripts/telegram_notifier.py:131-180 | definition: the outer loop as a left fold over the clip's frames; `ScanFindsEarliestMaximum` relates it to `ClipPeak` |
| BestFrame.Select | scripts/telegram_notifier.py:104-193 | definition: no pick when the detector or the clip fails to open or no score beats 0, else the fold's frame, position and score; `SelectIsEarliestMaximum` states what it returns |
| BestFrame.DetectionsPeak | scripts/telegram_notifier.py:150-175 | reference definition, independent of the loop's state: the best score among a frame's detections with categories, at least 0 |
| BestFrame.Peak | scripts/telegram_notifier.py:147-178 | reference definition: a frame's best score, 0 when the detector raised |
| BestFrame.ClipPeak | scripts/telegram_notifier.py:131-178 | reference definition: the highest frame peak of the clip, at least 0 |
| BestFrame.ScanDetectionsPeak | scripts/telegram_notifier.py:150-175 | scanning a frame's detections raises the best score to the frame's peak; the frame is recorded only if the peak is strictly higher; the position counter does not move |
| BestFrame.ScanFindsEarliestMaximum | scripts/telegram_notifier.py:131-180 | the loop's best score is the clip's highest peak; a frame is kept iff that peak is above 0; the kept frame reaches it and every earlier frame scores strictly less; its position counts only the frames analysed without error before it |
| BestFrame.SelectIsEarliestMaximum | scripts/telegram_notifier.py:120-193 | the search returns a frame iff setup succeeded and some frame scores above 0; that frame scores above 0, no frame scores higher, and it is the earliest frame with that score |
| BestFrame.FindBestFrame | scripts/discord_notifier.py:118-191 | the selection loop returns exactly `Select`: a positive best score that bounds every frame's peak |
| BestFrame.MiddleFrameWins | scripts/telegram_notifier.py:170-173 | frames scoring 0.2, 0.9 and 0.5 give the second frame, at position 1, with score 0.9 |
| BestFrame.FailedFrameShiftsPosition | scripts/discord_notifier.py:174-178 | a frame the detector raised on is not counted, so the next frame is reported at position 0 |
| Notifiers.Limit | scripts/config.py:55-56 | the Discord limit is 25165824 bytes (24 MiB) and the Telegram limit is 52428800 bytes (50 MiB) |
| Notifiers.Accepts | scripts/telegram_notifier.py:88-90 | definition: Discord logs any 2xx as sent (scripts/discord_notifier.py:90), Telegram needs status 200 and `ok`; contrasted in `AcceptanceDiffers` |
| Notifiers.AcceptanceDiffers | scripts/discord_notifier.py:90-93 | Discord accepts any 2xx status, while Telegram needs status 200 with `ok`, so 204 and a 200 without `ok` count as sent only for Discord |
| Notifiers.ImageOutcome | scripts/telegram_notifier.py:201-236 | the image send deletes at most the image, and deletes it iff it is configured and the image exists; it attempts the upload under the same condition; it is delivered iff configured, the image exists and the reply is accepted |
| Notifiers.FallbackImage | scripts/telegram_notifier.py:53-66 | definition: the best-frame file when the search found one and it exists, else the thumbnail; properties in `OversizedSendsBestOrThumbnail` |
| Notifiers.WithBestFrame | scripts/telegram_notifier.py:184-188 | definition: the files after `cv2.imwrite` of the best frame, when a frame was found and the write succeeded; properties in `BestFrameNotLeft` |
| Notifiers.SendImage | scripts/discord_notifier.py:199-228 | the procedure has the outcome `ImageOutcome` specifies and removes exactly the files it reports deleted |
| Notifiers.AlertOutcome | scripts/telegram_notifier.py:26-102 | two callbacks on the image-only route, one on every other route; not configured iff no credentials; image-only iff the clip exists and is strictly over the limit; video route iff it exists and is within the limit; a video counts as delivered iff the reply is accepted; every route but the image route leaves the files unchanged, and the image route leaves the files with the best frame saved and the sent image removed, nothing else |
| Notifiers.SendAlert | scripts/discord_notifier.py:27-100 | the channel procedure has the outcome `AlertOutcome` specifies; the barrier receives exactly its callbacks; the disk is the channel's result with the clip and thumbnail removed if those callbacks reach the expected number |
| Notifiers.ChannelKeepsVideo | scripts/telegram_notifier.py:43-102 | a channel never deletes or changes the clip |
| Notifiers.OversizedSendsBestOrThumbnail | scripts/telegram_notifier.py:46-66 | an oversized clip sends the saved best frame when one was found and saved, keeping the thumbnail; with no best frame it sends the thumbnail and deletes it |
| Notifiers.BestFrameNotLeft | scripts/discord_notifier.py:226-228 | a best-frame image saved by a channel never remains after that channel finishes |
| Notifiers.LimitIsInclusive | scripts/telegram_notifier.py:44-46 | a clip of exactly the limit goes as a video; one byte more takes the image route |
| Notifiers.DayName | scripts/telegram_notifier.py:20-21 | each weekday 0..6 names an entry of the weekday table |
| Notifiers.DayIndex | scripts/telegram_notifier.py:20-21 | a name maps back to a weekday whose table entry is that name, and names outside the table map to nothing |
| Notifiers.DayNameRoundTrip | scripts/telegram_notifier.py:20-21 | reading a weekday's name back gives the same weekday, so the table names each day differently |
| Recorder.Shipped | scripts/config.py:39-54 | the shipped settings are 15 buffered frames, 135 post-roll frames and a 20 s cooldown |
| Recorder.Buffered | main.py:64-66 | definition: the frame is appended to the pre-roll deque only while idle; properties in `BufferedOnlyWhileIdle` |
| Recorder.Sampled | main.py:70-73 | definition: on an even counter the counter is incremented and its new value is the timestamp handed to the detector; properties in `StuckCounterNeverDetects` |
| Recorder.Detected | main.py:70-91 | definition: `objeto_detectado`, true only on an even counter with at least one detection; a detector exception leaves it false |
| Recorder.Triggers | main.py:97-99 | definition: detected, idle, and strictly more than the cooldown since the last alert; properties in `TriggerConditions` |
| Recorder.Start | main.py:97-152 | definition: the start block; properties in `TriggerFrameWrittenTwice`, `FailedOpenConsumesCooldown` and `TriggerStep` |
| Recorder.Record | main.py:154-222 | definition: the post-roll block with its dispatch; properties in `PostRollStep` and `PostRollDispatchesOnLastFrame` |
| Recorder.Next | main.py:55-222 | definition: one pass of the loop: buffer, sample, start or record; properties in `NextKeepsWellFormed` and the `RecorderProperties` lemmas |
| Recorder.StartedChannels | main.py:207-220 | definition: the threads started, Discord then Telegram, each only if configured; properties in `ExpectedCountsStartedChannels` |
| Recorder.ExpectedServices | main.py:184-189 | definition: `servicios_esperados`, one per configured channel; equal to the number of started threads by `ExpectedCountsStartedChannels` |
| Recorder.Stopped | main.py:232-235 | definition: the `finally` releases an open writer and dispatches nothing |
| Recorder.Run | main.py:55-222 | a run yields one event per frame |
| Recorder.NextKeepsWellFormed | main.py:55-174 | a pass keeps the loop state well formed: buffer within its size; a writer exactly while recording; while recording the buffer is empty, the post-roll count is below its target, and the pending files are the clip and its thumbnail |
| Recorder.Recorder.constructor | main.py:42-50 | the loop starts idle, with an empty buffer, counter 0, last alert 0, no writer and nothing pending |
| Recorder.Recorder.Write | main.py:149-156 | writing a frame appends it to the open writer and to its file, and changes nothing else |
| Recorder.Recorder.Observe | main.py:64-91 | buffering and sampling give the state `Next` starts from; the detector is consulted iff the counter is even; a detection is reported only then, and only if the detector returned something |
| Recorder.Recorder.Flush | main.py:148-152 | the buffered frames are written in order into the fresh writer and its file, and the buffer is emptied |
| Recorder.Recorder.StartRecording | main.py:97-152 | starting a recording produces the state, files and event `Start` specifies |
| Recorder.Recorder.RecordFrame | main.py:155-222 | a post-roll pass produces what `Record` specifies; a fresh barrier exists iff a dispatch happened, and it is built for that dispatch's clip, thumbnail and expected count |
| Recorder.Recorder.Step | main.py:55-222 | one pass of the loop produces the state, files and event `Next` specifies, keeps the state well formed, and builds a fresh barrier exactly when it dispatches |
| Recorder.Recorder.Shutdown | main.py:232-235 | leaving the loop releases the writer and changes nothing else |
| Delivery.DeliverInOrder | main.py:207-220 | one channel run per started channel |
| Delivery.CountsEveryCallback | main.py:191-220 | the barrier receives at least one and at most two callbacks per started channel |
| Delivery.FinishedDeliveryRemovesClip | main.py:191-202 | once every started channel has finished, the clip and thumbnail are gone, whatever route each channel took |
| Delivery.VideoRoutesCleanUpOnce | main.py:193-202 | when every channel sends the video, the barrier gets exactly the expected callbacks; the clip and thumbnail are removed and nothing else changes |
| Delivery.BothVideoCleanUpOnce | main.py:184-202 | with both channels configured and both clips within their limits, the cleanup runs exactly once |
| Delivery.OversizedChannelCompletesBarrierAlone | scripts/discord_notifier.py:69-100 | with two channels expected, an oversized channel's two callbacks complete the barrier alone; the second channel finds no clip, sends nothing, and its callback runs the cleanup a second time |
| Delivery.Deliver | main.py:207-220 | the started channels run against the fresh barrier built for the dispatch, with the outcome `DeliverInOrder` specifies; with no channel started the files are untouched and no callback fires |
| Delivery.NoChannelNoCleanup | main.py:184-220 | with no channel configured nothing starts, no callback fires, and the clip and thumbnail stay on disk |
| Delivery.StepThenDeliver | main.py:55-222 | a loop pass followed by the deliveries it starts: the state and event of `Next`, and, when the pass dispatched, the files and runs `DeliverInOrder` gives from the pass's files, using the barrier the pass built |
| RecorderProperties.BufferedOnlyWhileIdle | main.py:64-66 | the buffer stays within its size, is appended to only while idle, and stays empty while recording |
| RecorderProperties.TriggerConditions | main.py:97-104 | the detector runs iff the counter is even; a recording starts iff, in addition, something was detected, the loop is idle and strictly more than the cooldown has passed; a trigger sets the last-alert time, and nothing else does |
| RecorderProperties.StuckCounterNeverDetects | main.py:70-91 | once the counter is odd (1 after the first frame) it never moves: no later frame reaches the detector or starts a recording |
| RecorderProperties.DetectorSeesOnlyFirstFrame | main.py:43-91 | from the start of the program only the first frame reaches the detector, with timestamp 1, so only the first frame can start a recording |
| RecorderProperties.FailedOpenConsumesCooldown | main.py:104-146 | when no codec opens, the alert time is still set and the loop is idle again; the buffer is kept, the thumbnail stays on disk, and the pending files name an `.mp4` that this pass did not create |
| RecorderProperties.NoRetriggerWithinCooldown | main.py:97-104 | from any state whose last alert is at or after `since`, no frame of a run within the cooldown of `since` starts a recording, whatever the counter does; the last alert never moves back before `since` (for a non-negative cooldown) |
| RecorderProperties.TriggerLeavesCounterOdd | main.py:70-73 | a trigger happens only on an even counter and leaves it one higher, hence odd |
| RecorderProperties.AtMostOneTrigger | main.py:68-104 | from any state, a run starts at most one recording: a trigger leaves the counter odd, where it stays |
| RecorderProperties.TriggerFrameWrittenTwice | main.py:113-157 | on a start, the clip holds the buffered frames ending with the trigger frame, then the trigger frame again; the thumbnail is the oldest buffered frame, since the buffer is never empty here |
| RecorderProperties.PostRollStep | main.py:155-174 | a post-roll pass writes the frame and either continues with the count one higher or finishes: writer released, idle, nothing pending, clip dispatched |
| RecorderProperties.PostRollRunsToCompletion | main.py:155-174 | exactly the remaining post-roll frames are written into the clip, and then the loop is idle with no writer and nothing pending |
| RecorderProperties.PostRollDispatchesOnLastFrame | main.py:159-222 | the clip is dispatched with its thumbnail and the configured channels on the last post-roll frame, and on no earlier frame |
| RecorderProperties.TriggerStep | main.py:97-157 | a start whose writer opens writes the thumbnail and the clip so far; it finishes at once when the post-roll target is at most 1, and otherwise records with count 1 |
| RecorderProperties.OneRecording | main.py:97-174 | a whole recording leaves a clip of the buffered frames followed by every frame of the run, `max(post-roll target, 1)` frames longer than the buffer |
| RecorderProperties.OneRecordingLeavesThumbnail | main.py:110-174 | after a whole recording the loop is idle and the thumbnail is still on disk, holding the oldest buffered frame (the trigger frame when nothing is buffered) |
| RecorderProperties.OneRecordingDispatch | main.py:178-222 | the last frame of a whole recording dispatches its clip and thumbnail to the configured channels |
| RecorderProperties.ExpectedCountsStartedChannels | main.py:184-220 | the expected count equals the number of started channels; a channel starts iff it is configured, Discord first; with none configured nothing is expected or started |

## Left out

- Camera capture, resizing, drawing boxes and the preview window are not modelled, nor is the 'q' key. The boxes are drawn on the same array the buffer holds; since frames are opaque, that is not visible in the model. A frame is an opaque id, and leaving the loop is `Shutdown`. The display code that a failed open's `continue` skips is not modelled either.
- MediaPipe inference and detector construction are not modelled (scripts/detector.py is not part of this model). The live detector is an oracle: a number of detections, or an exception. The image-mode detector in the best-frame search is a per-frame list of boxes, or an exception.
- The video writer is an oracle: whether a codec opens on a file name. A writer that fails to open may still leave a file on a real disk; the model does not.
- `cv2.imwrite` of the thumbnail is assumed to succeed. For the best-frame image, success is the parameter `saved`.
- The HTTP calls, their payloads and captions, `formatear_fecha_hora`'s `strftime` formatting and all logging are not modelled. An upload is a `Reply`: a status and an `ok` flag, or an exception.
- File sizes are a parameter of each channel run and are not derived from the clip's frames.
- Threads and the lock are not modelled. Channel runs are taken one after another, so an interleaving inside one channel's run is not covered. An example is the other channel's cleanup landing between `getsize` and `open`.
- The outer `except` of the best-frame search (scripts/telegram_notifier.py:195-199) is not modelled: reading frames from the clip is assumed not to raise.
- Detector exceptions in the main loop are modelled (`DetectorRaised`): an exception from `detect_for_video` leaves `objeto_detectado` false. An exception from `cv2.rectangle` (main.py:82-87) is caught by the same handler at main.py:88-89 after the flag was set, which the model represents as a reply with detections. Exceptions elsewhere in the loop body (resize, `cv2.imwrite`, the writer, starting threads) end the program through main.py:230-235 and are not modelled.
- Timestamps are reals. `time.sleep` is not modelled, and scores are computed in exact real arithmetic rather than IEEE floating point.
- Completion.Barrier fixes the clip, thumbnail, expected count and counter when it is built. The Python callback is a closure over `main()`'s locals `archivos_originales`, `servicios_esperados` and `contador_servicios`, read when it runs, so a second dispatch while the first's threads still run would rebind them for the first callbacks too. The model does not capture that late binding. From the start of the program at most one recording ever starts (`RecorderProperties.DetectorSeesOnlyFirstFrame`, `RecorderProperties.AtMostOneTrigger`), so it cannot arise.
- Credentials are loaded in scripts/config.py; the model takes only "is configured" flags.
- Best-frame files are named by the second they are saved in (`savedAt`). Two channels saving in the same second would share a name; runs taken one after another cannot show that clash.
- Recorder.Run: its own contract states only one event per frame. What a run does is stated by the lemmas in `RecorderProperties`.
- Delivery.DeliverInOrder: its own contract states only one run per channel. The callback counts and cleanup are stated by the `Delivery` lemmas.

## Where the code differs from its comments

- The comment at main.py:69 says every second frame is processed. `frame_timestamp_ms` is incremented only inside the even branch, though, so after the first frame it stays 1. Only the first frame ever reaches the detector, and only the first frame can start a recording (`DetectorSeesOnlyFirstFrame`).
- The comment at scripts/telegram_notifier.py:175 (and scripts/discord_notifier.py:173) says only the first detected object of a frame counts. The `break` leaves only the category loop, so every detection is scored, each with its first category (`BestFrame.Consider`).
- The comment at main.py:196 says the cleanup runs when both services have finished. The `>=` test runs it again on every later callback (`CleanupsClosedForm`). An oversized channel calls back twice, so it completes a two-channel barrier alone (`OversizedChannelCompletesBarrierAlone`).
- The thumbnail fallback at main.py:115-116 is never taken when the buffer size is positive: the current frame is always buffered before the trigger test (`TriggerFrameWrittenTwice`).
- On a failed open, main.py:143-146 returns to idle, but the thumbnail written at main.py:113-116 stays on disk. The pending files still name the `.mp4` that was never written (`FailedOpenConsumesCooldown`).
- The image-only fallback deletes the image it sends. When that image is the original thumbnail, the other channel loses it too (`OversizedSendsBestOrThumbnail`).
- The comment at scripts/config.py:55 and the message at scripts/discord_notifier.py:48 say 25MB. The Discord limit is 24 MiB, which is the value the model uses (`Notifiers.Limit`).
