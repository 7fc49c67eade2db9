/**
  The driver group's copy of a video: music laid over it, compressed when that makes
  it too large (`prepareDriverVideoBuffer`), and its way to Telegram through a chain
  of fallbacks (`src/driverGroupDelivery.js`). ffmpeg and Telegram answer from outside.
*/
module DriverVideo {
  import opened Wrappers
  import opened Compression

  /** Where the bytes came from. */
  datatype Source = Camera | Overlay | Compressed(pass: Pass)

  datatype Buffer = Buffer(source: Source, size: nat)

  datatype JobStatus = JobSent | JobCompressedSent | JobFallbackSent | JobFailedTooLarge

  datatype Role = Single | Forward | Inward

  datatype MusicConfig = MusicConfig(enabled: bool, hasMusic: bool, speedingMusic: bool, maxVideoSeconds: real)

  /**
    What the process meets: the configuration (none when loading throws), ffmpeg, the
    job row, the temporary files, the length of the clip, and the size of each output;
    an output of none is a run that throws.
  */
  datatype Studio = Studio(config: Option<MusicConfig>, available: bool, jobRecorded: bool, filesWritten: bool,
                           seconds: Option<real>, musicProbed: bool, overlay: Option<nat>,
                            compressed: Pass -> Option<nat>)

  predicate Applies(buffer: Buffer, isSpeeding: bool, role: Role, studio: Studio) {
    && buffer.size > 0 && isSpeeding && !role.Inward?
    && studio.config.Some? && studio.config.value.enabled && studio.config.value.hasMusic
    && studio.config.value.speedingMusic
    && studio.available
  }

  predicate OverCap(studio: Studio)
    requires studio.config.Some?
  {
    var cap := studio.config.value.maxVideoSeconds;
    cap > 0.0 && studio.seconds.Some? && studio.seconds.value > cap
  }

  /** The music could be laid over the clip. */
  predicate OverlayMade(studio: Studio)
    requires studio.config.Some?
  {
    studio.filesWritten && !OverCap(studio) && studio.musicProbed && studio.overlay.Some? && studio.overlay.value > 0
  }

  /** The first pass must reach the target, the second anything Telegram takes. */
  predicate Acceptable(studio: Studio, pass: Pass, target: nat) {
    && studio.compressed(pass).Some?
    && var size := studio.compressed(pass).value;
       size > 0 && (size <= target || (pass.Second? && size <= TELEGRAM_HARD_LIMIT_BYTES))
  }

  /** What is returned, and the status the job row ends with. */
  function Prepared(buffer: Buffer, isSpeeding: bool, role: Role, studio: Studio, target: nat): (Buffer,
                    Option<JobStatus>) {
    if !Applies(buffer, isSpeeding, role, studio) then (buffer, None)
    else
      var job := (status: JobStatus) => if studio.jobRecorded then Some(status) else None;
      if !OverlayMade(studio) then (buffer, job(JobFallbackSent))
      else if studio.overlay.value <= target then (Buffer(Overlay, studio.overlay.value), job(JobSent))
      else if Acceptable(studio, First, target) then
        (Buffer(Compressed(First), studio.compressed(First).value), job(JobCompressedSent))
      else if Acceptable(studio, Second, target) then
        (Buffer(Compressed(Second), studio.compressed(Second).value), job(JobCompressedSent))
      else (buffer, job(if buffer.size <= TELEGRAM_HARD_LIMIT_BYTES then JobFallbackSent else JobFailedTooLarge))
  }

  method PrepareDriverVideoBuffer(buffer: Buffer, isSpeeding: bool, role: Role, studio: Studio, mb: Option<real>)
    returns (out: Buffer, job: Option<JobStatus>)
    ensures (out, job) == Prepared(buffer, isSpeeding, role, studio, ResolveTelegramTargetBytes(mb))
  {
    out, job := buffer, None;
    if buffer.size == 0 || !isSpeeding || role.Inward? {
      return;
    }
    if studio.config.None? || !studio.config.value.enabled || !studio.config.value.hasMusic {
      return;
    }
    if !studio.config.value.speedingMusic || !studio.available {
      return;
    }
    var status := JobFallbackSent;
    var thrown := !studio.filesWritten;
    if !thrown {
      if OverCap(studio) {
        job := if studio.jobRecorded then Some(JobFallbackSent) else None;
        return;
      }
      thrown := !studio.musicProbed || studio.overlay.None? || studio.overlay.value == 0;
    }
    if !thrown {
      var target := ResolveTelegramTargetBytes(mb);
      if studio.overlay.value <= target {
        out, status := Buffer(Overlay, studio.overlay.value), JobSent;
      } else {
        var passes := [First, Second];
        var done := false;
        var i := 0;
        while i < |passes| && !done
          invariant 0 <= i <= 2
          invariant !done ==> out == buffer && forall k :: 0 <= k < i ==> !Acceptable(studio, passes[k], target)
          invariant done ==> i > 0 && Acceptable(studio, passes[i - 1], target)
                             && (forall k :: 0 <= k < i - 1 ==> !Acceptable(studio, passes[k], target))
                             && out == Buffer(Compressed(passes[i - 1]), studio.compressed(passes[i - 1]).value)
                             && status == JobCompressedSent
        {
          var pass := passes[i];
          match studio.compressed(pass) {
            case None =>
            case Some(size) =>
              if size > 0 && (size <= target || (pass.Second? && size <= TELEGRAM_HARD_LIMIT_BYTES)) {
                out, status, done := Buffer(Compressed(pass), size), JobCompressedSent, true;
              }
          }
          i := i + 1;
        }
        assert passes[0] == First && passes[1] == Second;
        if !done {
          status := if buffer.size <= TELEGRAM_HARD_LIMIT_BYTES then JobFallbackSent else JobFailedTooLarge;
        }
      }
    }
    job := if studio.jobRecorded then Some(status) else None;
  }

  /**
    What comes back is the camera's own clip or a file that is not empty and that
    Telegram takes; the job row, if there is one, says which; and the clip goes out
    without its music only when no output could be sent with it.
  */
  lemma PreparedIsSendable(buffer: Buffer, isSpeeding: bool, role: Role, studio: Studio, mb: Option<real>)
    requires buffer.source.Camera?
    ensures var target := ResolveTelegramTargetBytes(mb);
            var (out, job) := Prepared(buffer, isSpeeding, role, studio, target);
      && (out == buffer || (0 < out.size <= TELEGRAM_HARD_LIMIT_BYTES))
      && (out.size > TELEGRAM_HARD_LIMIT_BYTES ==> out == buffer)
      && (out.source.Overlay? || out.source == Compressed(First) ==> out.size <= target)
      && (job == Some(JobSent) ==> out.source.Overlay?)
      && (job == Some(JobCompressedSent) ==> out.source.Compressed?)
      && (job in {Some(JobFallbackSent), Some(JobFailedTooLarge)} ==> out == buffer)
      && (job == Some(JobFailedTooLarge) ==> buffer.size > TELEGRAM_HARD_LIMIT_BYTES)
      && (job.Some? <==> Applies(buffer, isSpeeding, role, studio) && studio.jobRecorded)
      && (out == buffer <==>
            || !Applies(buffer, isSpeeding, role, studio)
            || !OverlayMade(studio)
            || (studio.overlay.value > target && !Acceptable(studio, First, target)
                && !Acceptable(studio, Second, target)))
  {}

  /** Music is for the road's clip of a speeding alert, while it is switched on and set up, and up to its length. */
  lemma MusicIsForSpeeding(buffer: Buffer, isSpeeding: bool, role: Role, studio: Studio, target: nat)
    requires buffer.source.Camera?
    ensures var (out, job) := Prepared(buffer, isSpeeding, role, studio, target);
      && (!out.source.Camera? || job.Some? ==>
            && isSpeeding && role in {Single, Forward} && buffer.size > 0 && studio.available && studio.config.Some?
            && var c := studio.config.value; c.enabled && c.hasMusic && c.speedingMusic)
      && (!out.source.Camera? ==>
            var cap := studio.config.value.maxVideoSeconds;
            cap > 0.0 && studio.seconds.Some? ==> studio.seconds.value <= cap)
  {}

  /** Music is switched on and set up, and the road's clip is not longer than it may be. */
  ghost predicate IsForMusic(buffer: Buffer, role: Role, studio: Studio) {
    && buffer.size > 0 && role in {Single, Forward}
    && studio.available && studio.filesWritten && studio.musicProbed && studio.config.Some?
    && var c := studio.config.value;
    && c.enabled && c.hasMusic && c.speedingMusic
    && (c.maxVideoSeconds <= 0.0 || studio.seconds.None? || studio.seconds.value <= c.maxVideoSeconds)
  }

  /** And it is laid over every such clip for which ffmpeg makes an output of the right size. */
  lemma SpeedingGetsMusic(buffer: Buffer, role: Role, studio: Studio, target: nat)
    requires IsForMusic(buffer, role, studio)
    requires studio.overlay.Some? && 0 < studio.overlay.value <= target
    ensures Prepared(buffer, true, role, studio, target)
            == (Buffer(Overlay, studio.overlay.value), if studio.jobRecorded then Some(JobSent) else None)
  {}

  /**
    An overlay that is too large is compressed, once and if need be twice: the first
    output counts only within the target, the second whenever Telegram takes it. If
    neither does, the camera's clip goes out, and the job says whether it can.
  */
  lemma TooLargeIsCompressed(buffer: Buffer, role: Role, studio: Studio, target: nat)
    requires IsForMusic(buffer, role, studio) && studio.jobRecorded
    requires studio.overlay.Some? && studio.overlay.value > target && target <= 52428800
    ensures var (out, job) := Prepared(buffer, true, role, studio, target);
            var first := if studio.compressed(First).Some? then studio.compressed(First).value else 0;
            var second := if studio.compressed(Second).Some? then studio.compressed(Second).value else 0;
      && (0 < first <= target ==> out == Buffer(Compressed(First), first) && job == Some(JobCompressedSent))
      && (!(0 < first <= target) && 0 < second <= 52428800 ==>
            out == Buffer(Compressed(Second), second) && job == Some(JobCompressedSent))
      && (!(0 < first <= target) && !(0 < second <= 52428800) ==>
            out == buffer && job == Some(if buffer.size > 52428800 then JobFailedTooLarge else JobFallbackSent))
  {}

  // ---- The way to Telegram ---------------------------------------------------------------

  const TELEGRAM_MAX_VIDEO_BYTES := 50 * 1024 * 1024

  datatype Upload = MediaGroup(forward: nat, inward: nat) | Video(size: nat) | Text(tooLargeNote: bool)

  datatype Attempt = Attempt(upload: Upload, accepted: bool)

  /**
    What one alert meets: which links it carries, the size of each download (none when
    it throws), what the preparation makes of it (none when it throws or hands back
    nothing), and what Telegram accepts.
  */
  datatype Way = Way(hasForward: bool, hasInward: bool, forward: Option<nat>, inward: Option<nat>, again: Option<nat>,
                     prepare: (nat, Role) -> Option<nat>, group: bool, video: bool, text: bool)

  /** The prepared clip, or the clip itself. */
  function WithMusic(way: Way, size: nat, role: Role): nat {
    match way.prepare(size, role)
    case Some(made) => if made > 0 then made else size
    case None => size
  }

  predicate TooLarge(size: nat) {
    size > TELEGRAM_MAX_VIDEO_BYTES
  }

  predicate BothDownloaded(way: Way) {
    way.hasForward && way.hasInward && way.forward.Some? && way.inward.Some?
  }

  predicate ForwardTooLarge(way: Way) {
    BothDownloaded(way) && TooLarge(WithMusic(way, way.forward.value, Forward))
  }

  predicate GroupIsTried(way: Way) {
    BothDownloaded(way) && !ForwardTooLarge(way) && !TooLarge(way.inward.value)
  }

  predicate VideoIsReady(way: Way) {
    way.hasForward && !ForwardTooLarge(way) && !(GroupIsTried(way) && way.group) && way.again.Some?
  }

  predicate VideoTooLarge(way: Way) {
    VideoIsReady(way) && TooLarge(WithMusic(way, way.again.value, Single))
  }

  predicate VideoIsTried(way: Way) {
    VideoIsReady(way) && !VideoTooLarge(way)
  }

  method SendDriverGroupAlert(way: Way) returns (sent: bool, attempts: seq<Attempt>)
    // nothing over the limit is ever uploaded
    ensures forall a :: a in attempts && a.upload.Video? ==> !TooLarge(a.upload.size)
    ensures forall a :: a in attempts && a.upload.MediaGroup?
              ==> !TooLarge(a.upload.forward) && !TooLarge(a.upload.inward)
    // one message, the last attempt's, or none and an error
    ensures attempts != [] && attempts[|attempts| - 1].accepted == sent
    ensures forall i :: 0 <= i < |attempts| - 1 ==> !attempts[i].accepted
    ensures !sent ==> attempts[|attempts| - 1].upload.Text?
    // a driver-facing clip that is too large still lets the road's go out alone
    ensures way.hasForward && way.hasInward && way.forward.Some? && way.inward.Some? && way.again.Some?
            && WithMusic(way, way.forward.value, Forward) <= 52428800 && way.inward.value > 52428800
            && WithMusic(way, way.again.value, Single) <= 52428800
            ==> attempts[0] == Attempt(Video(WithMusic(way, way.again.value, Single)), way.video)
    // and only a road's clip that is too large is said to be
    ensures attempts[|attempts| - 1].upload == Text(true)
            ==> || (way.forward.Some? && WithMusic(way, way.forward.value, Forward) > 52428800)
                || (way.again.Some? && WithMusic(way, way.again.value, Single) > 52428800)
    // the chain, in its order
    ensures attempts ==
              (if GroupIsTried(way)
               then [Attempt(MediaGroup(WithMusic(way, way.forward.value, Forward), way.inward.value), way.group)]
               else [])
            + (if VideoIsTried(way) then [Attempt(Video(WithMusic(way, way.again.value, Single)), way.video)] else [])
            + (if (GroupIsTried(way) && way.group) || (VideoIsTried(way) && way.video) then []
               else [Attempt(Text(ForwardTooLarge(way) || VideoTooLarge(way)), way.text)])
  {
    attempts := [];
    var videoTooLarge := false;
    if way.hasForward && way.hasInward && way.forward.Some? && way.inward.Some? {
      var forwardOut := WithMusic(way, way.forward.value, Forward);
      if TooLarge(forwardOut) || TooLarge(way.inward.value) {
        videoTooLarge := TooLarge(forwardOut);
      } else {
        attempts := attempts + [Attempt(MediaGroup(forwardOut, way.inward.value), way.group)];
        if way.group {
          return true, attempts;
        }
      }
    }
    if way.hasForward && !videoTooLarge && way.again.Some? {
      var outBuffer := WithMusic(way, way.again.value, Single);
      if TooLarge(outBuffer) {
        videoTooLarge := true;
      } else {
        attempts := attempts + [Attempt(Video(outBuffer), way.video)];
        if way.video {
          return true, attempts;
        }
      }
    }
    attempts := attempts + [Attempt(Text(videoTooLarge), way.text)];
    sent := way.text;
  }

  /** A prepared clip is sent in place of the camera's unless it is nothing. */
  lemma NothingReplacesNoClip(way: Way, size: nat, role: Role)
    ensures way.prepare(size, role) in {None, Some(0)} ==> WithMusic(way, size, role) == size
    ensures way.prepare(size, role) !in {None, Some(0)} ==> Some(WithMusic(way, size, role)) == way.prepare(size, role)
  {}

  /** The preparation that the driver bot is wired with. */
  ghost predicate PreparedByStudio(way: Way, isSpeeding: bool, studio: Studio, mb: Option<real>) {
    forall size: nat, role: Role ::
      way.prepare(size, role)
      == Some(Prepared(Buffer(Camera, size), isSpeeding, role, studio, ResolveTelegramTargetBytes(mb)).0.size)
  }

  /** The music never costs the driver a video: a clip counts as too large only if the camera's own is. */
  lemma OnlyTheCameraIsTooLarge(way: Way, isSpeeding: bool, studio: Studio, mb: Option<real>, size: nat, role: Role)
    requires PreparedByStudio(way, isSpeeding, studio, mb)
    ensures TooLarge(WithMusic(way, size, role)) ==> TooLarge(size)
  {
    PreparedIsSendable(Buffer(Camera, size), isSpeeding, role, studio, mb);
  }
}
