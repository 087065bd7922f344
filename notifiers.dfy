/**
 * One delivery thread per channel: `enviar_alerta_discord_con_video` and
 * `enviar_alerta_telegram_con_video`, with their image-only fallbacks
 * `enviar_solo_thumbnail` and `enviar_solo_imagen`. The two channels differ
 * only in their size limit and in what counts as an accepted upload.
 *
 * `AlertOutcome` and `ImageOutcome` specify a run as a function of the files
 * present and of what the outside world does (clip size, best-frame search,
 * HTTP replies); `SendAlert` and `SendImage` are the procedures, proved to
 * agree with them, with the completion callback wired to a barrier.
 */
module Notifiers {
  import opened Common
  import BestFrame
  import Completion

  const MiB: nat := 1024 * 1024
  const DiscordLimit: nat := 24 * MiB
  const TelegramLimit: nat := 50 * MiB

  /** The largest clip, in bytes, a channel uploads as a video. */
  function Limit(ch: Channel): (n: nat)
    ensures ch == Discord ==> n == 25165824
    ensures ch == Telegram ==> n == 52428800
  {
    match ch
    case Discord => DiscordLimit
    case Telegram => TelegramLimit
  }

  /** The HTTP exchange of one upload: a status and the JSON `ok` field, or an exception. */
  datatype Reply = Reply(status: int, ok: bool) | Raised

  /** Whether a channel logs an upload as sent: any 2xx for Discord, status 200 with `ok` for Telegram. */
  predicate Accepts(ch: Channel, r: Reply) {
    match ch
    case Discord => r.Reply? && 200 <= r.status < 300
    case Telegram => r.Reply? && r.status == 200 && r.ok
  }

  /** A status Discord accepts and Telegram does not: the two channels disagree on 2xx other than 200. */
  lemma AcceptanceDiffers()
    ensures Accepts(Discord, Reply(204, true)) && !Accepts(Telegram, Reply(204, true))
    ensures Accepts(Discord, Reply(200, false)) && !Accepts(Telegram, Reply(200, false))
  {
  }

  /** What a channel finds when it runs. */
  datatype World = World(
    size: nat,                           // `os.path.getsize` of the clip
    search: Option<BestFrame.Pick>,      // the best-frame search result
    savedAt: int,                        // `int(time.time())` when the best frame is saved
    saved: bool,                         // whether `cv2.imwrite` produced the file
    videoReply: Reply,
    imageReply: Reply)

  /** The file the best frame is saved to. */
  function BestFramePath(w: World): Path {
    BestFrameFile(w.savedAt)
  }

  /** The result of an image send: whether the upload was attempted and accepted, and the file it deleted. */
  datatype ImageRun = ImageRun(attempted: bool, delivered: bool, deleted: set<Path>)

  /**
   * The image-only send. Unconfigured, it returns before its `try` and
   * touches nothing; otherwise its `finally` deletes the image whenever it
   * exists, whether or not the upload went through.
   */
  function ImageOutcome(ch: Channel, configured: bool, image: Path, present: set<Path>, reply: Reply): (r: ImageRun)
    ensures r.deleted <= present && r.deleted <= {image}
    ensures image in r.deleted <==> configured && image in present
    ensures r.attempted <==> configured && image in present
    ensures r.delivered <==> configured && image in present && Accepts(ch, reply)
  {
    if !configured then ImageRun(false, false, {})
    else if image !in present then ImageRun(false, false, {})
    else ImageRun(true, Accepts(ch, reply), {image})
  }

  /** Where a channel routed the clip. */
  datatype Route =
    | NotConfigured      // credentials missing: nothing sent
    | SizeUnknown        // the clip is gone, `getsize` raised
    | AsVideo            // the clip itself was uploaded
    | AsImage(image: Path)  // the clip was too big; one image was sent instead

  /** A channel's run: its route, whether the upload was accepted, how many callbacks it made, and the files it leaves. */
  datatype ChannelRun = ChannelRun(route: Route, delivered: bool, callbacks: nat, files: Files)

  /** The image the oversized path sends: the saved best frame when it exists, else the original thumbnail. */
  function FallbackImage(w: World, thumb: Path, present: set<Path>): Path {
    if w.search.Some? && BestFramePath(w) in present then BestFramePath(w) else thumb
  }

  /** The files after the best-frame search has saved its image. */
  function WithBestFrame(files: Files, w: World): Files {
    if w.search.Some? && w.saved then files[BestFramePath(w) := Image(w.search.value.frame)] else files
  }

  /**
   * One channel's delivery of a clip and its thumbnail. The oversized path
   * calls the completion callback twice (explicitly before `return`, and
   * again in `finally`); every other path calls it once.
   */
  function AlertOutcome(ch: Channel, configured: bool, video: Path, thumb: Path, files: Files, w: World): (r: ChannelRun)
    ensures r.callbacks == if r.route.AsImage? then 2 else 1
    ensures r.route == NotConfigured <==> !configured
    ensures r.route.AsImage? <==> configured && video in files && w.size > Limit(ch)
    ensures r.route == AsVideo <==> configured && video in files && w.size <= Limit(ch)
    ensures r.route == AsVideo ==> (r.delivered <==> Accepts(ch, w.videoReply))
    ensures r.delivered ==> configured && video in files
    ensures !r.route.AsImage? ==> r.files == files
    ensures r.route.AsImage? ==> r.files == WithBestFrame(files, w) - {r.route.image}
  {
    if !configured then ChannelRun(NotConfigured, false, 1, files)
    else if video !in files then ChannelRun(SizeUnknown, false, 1, files)
    else if w.size > Limit(ch) then
      var files1 := WithBestFrame(files, w);
      var image := FallbackImage(w, thumb, files1.Keys);
      var sent := ImageOutcome(ch, true, image, files1.Keys, w.imageReply);
      ChannelRun(AsImage(image), sent.delivered, 2, files1 - sent.deleted)
    else
      ChannelRun(AsVideo, Accepts(ch, w.videoReply), 1, files)
  }

  /**
   * A channel never deletes the clip: whatever happens, the clip is still
   * there, unchanged, when the channel has finished with it (only the barrier
   * removes it).
   */
  lemma ChannelKeepsVideo(ch: Channel, configured: bool, video: Path, thumb: Path, files: Files, w: World)
    requires video.ClipFile? && thumb.ThumbFile? && video in files
    ensures var r := AlertOutcome(ch, configured, video, thumb, files, w);
      video in r.files && r.files[video] == files[video]
  {
  }

  /**
   * On the oversized path the image sent is the saved best frame whenever the
   * search found one and the file exists; otherwise it is the thumbnail, and
   * the channel deletes that thumbnail although the other channel shares it.
   */
  lemma OversizedSendsBestOrThumbnail(ch: Channel, video: Path, thumb: Path, files: Files, w: World)
    requires video in files && w.size > Limit(ch)
    requires thumb.ThumbFile? && thumb in files
    ensures var r := AlertOutcome(ch, true, video, thumb, files, w);
      && (w.search.Some? && w.saved ==> r.route == AsImage(BestFramePath(w)) && thumb in r.files)
      && (w.search.None? ==> r.route == AsImage(thumb) && thumb !in r.files)
      && (r.route == AsImage(thumb) ==> thumb !in r.files)
  {
  }

  /** A saved best-frame image never outlives the channel that saved it. */
  lemma BestFrameNotLeft(ch: Channel, video: Path, thumb: Path, files: Files, w: World)
    requires BestFramePath(w) !in files
    ensures BestFramePath(w) !in AlertOutcome(ch, true, video, thumb, files, w).files
  {
  }

  /** A clip of exactly the limit is still uploaded as a video; one byte more takes the image path. */
  lemma LimitIsInclusive(ch: Channel, video: Path, thumb: Path, files: Files, w: World)
    requires video in files
    ensures AlertOutcome(ch, true, video, thumb, files, w.(size := Limit(ch))).route == AsVideo
    ensures AlertOutcome(ch, true, video, thumb, files, w.(size := Limit(ch) + 1)).route.AsImage?
  {
  }

  /** `enviar_solo_imagen` / `enviar_solo_thumbnail` on the disk. */
  method SendImage(ch: Channel, configured: bool, image: Path, reply: Reply, disk: Disk) returns (r: ImageRun)
    modifies disk
    ensures r == ImageOutcome(ch, configured, image, old(disk.files).Keys, reply)
    ensures disk.files == old(disk.files) - r.deleted
  {
    if !configured {
      return ImageRun(false, false, {});
    }
    var delivered := false;
    var attempted := false;
    if image in disk.files {
      // the file opens and the upload is made
      attempted := true;
      delivered := Accepts(ch, reply);
    }
    // `finally`: remove the image if it exists
    var deleted: set<Path> := {};
    if image in disk.files {
      disk.files := disk.files - {image};
      deleted := {image};
    }
    r := ImageRun(attempted, delivered, deleted);
  }

  /**
   * `enviar_alerta_*_con_video` with `callback` bound to the barrier: the
   * channel's own file changes happen first, then every callback it makes
   * reaches the barrier.
   */
  method SendAlert(ch: Channel, configured: bool, video: Path, thumb: Path, w: World,
                   disk: Disk, callback: Completion.Barrier) returns (r: ChannelRun)
    requires callback.Valid()
    modifies disk, callback
    ensures r == AlertOutcome(ch, configured, video, thumb, old(disk.files), w)
    ensures callback.Valid() && callback.count == old(callback.count) + r.callbacks
    ensures disk.files == Completion.Cleaned(r.files, callback.video, callback.thumb,
                                             old(callback.count), r.callbacks, callback.expected)
  {
    if !configured {
      r := ChannelRun(NotConfigured, false, 1, disk.files);
      callback.Notify(disk);
      return;
    }
    if video !in disk.files {
      // `os.path.getsize` raises; the `finally` clause still calls back
      r := ChannelRun(SizeUnknown, false, 1, disk.files);
      callback.Notify(disk);
      return;
    }
    if w.size > Limit(ch) {
      if w.search.Some? && w.saved {
        disk.files := disk.files[BestFramePath(w) := Image(w.search.value.frame)];
      }
      var image := thumb;
      if w.search.Some? && BestFramePath(w) in disk.files {
        image := BestFramePath(w);
      }
      var sent := SendImage(ch, true, image, w.imageReply, disk);
      r := ChannelRun(AsImage(image), sent.delivered, 2, disk.files);
      callback.Notify(disk);  // explicit call before `return`
      callback.Notify(disk);  // the `finally` clause
      return;
    }
    r := ChannelRun(AsVideo, Accepts(ch, w.videoReply), 1, disk.files);
    callback.Notify(disk);
  }

  /** `dias_semana`, indexed by `weekday()` (Monday is 0). */
  const DayNames: seq<string> := ["Lunes", "Martes", "Miércoles", "Jueves", "Viernes", "Sábado", "Domingo"]

  /** The weekday name that starts the alert caption. */
  function DayName(weekday: nat): (name: string)
    requires weekday < 7
    ensures name in DayNames
  {
    DayNames[weekday]
  }

  /** The weekday a name in the table stands for, if any. */
  function DayIndex(name: string): (r: Option<nat>)
    ensures r.Some? ==> r.value < 7 && DayNames[r.value] == name
    ensures r.None? ==> name !in DayNames
  {
    if name == "Lunes" then Some(0)
    else if name == "Martes" then Some(1)
    else if name == "Miércoles" then Some(2)
    else if name == "Jueves" then Some(3)
    else if name == "Viernes" then Some(4)
    else if name == "Sábado" then Some(5)
    else if name == "Domingo" then Some(6)
    else None
  }

  /** The weekday table names every day differently: the name read back gives the same weekday. */
  lemma DayNameRoundTrip(weekday: nat)
    requires weekday < 7
    ensures DayIndex(DayName(weekday)) == Some(weekday)
  {
  }
}
