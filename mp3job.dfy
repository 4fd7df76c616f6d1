/**
 * `download_and_send_mp3`: one download job for one accepted link. It creates
 * a fresh job directory, checks for `cookies.txt`, lets the extractor write
 * the MP3, checks that the MP3 is there and not over Telegram's 50 MiB limit,
 * sends it, and then removes what it can. Each `raise` of the source ends the
 * job with the outcome the handler reports.
 */
module Mp3Job {
  import opened Wrappers
  import opened Text
  import opened Paths
  import opened FileSystem
  import opened Telegram
  import opened Translations

  /** The metadata dictionary the extractor returns, and `prepare_filename` of it. */
  datatype Info = Info(title: Option<string>, uploader: Option<string>,
                       duration: Option<int>, filename: Path)

  /** What `extract_info(url, download=True)` does: return metadata after
      writing files, or raise with a description. */
  datatype Extraction =
    | Extracted(info: Info, written: map<Path, nat>)
    | ExtractFailed(description: string)

  /** What the outside world answers during one job: the fresh `uuid4` name,
      the extractor, and whether Telegram refuses the audio upload (with the
      exception's description). */
  datatype Inputs = Inputs(uid: string, extraction: Extraction, sendError: Option<string>)

  /** How the job ends: returned normally after sending `audio`, raised
      `FileTooBigError`, or raised another exception whose `str` is
      `description`. */
  datatype Outcome = Delivered(audio: Action) | TooBig | Failed(description: string)

  datatype JobEnd = JobEnd(fs: Fs, outcome: Outcome)

  const BaseDir: Path := "downloads"
  const CookiesPath: Path := "cookies.txt"
  const MissingMp3: string := "MP3 not found"
  /** Telegram's upload limit, `50 * 1024 * 1024` bytes. */
  const MaxSize: nat := 50 * 1024 * 1024

  predicate Oversized(size: nat) {
    size > MaxSize
  }

  function JobDir(uid: string): Path {
    JoinPath(BaseDir, uid)
  }

  /** The `answer_audio` call: `bot.py` defaults the title to "Audio" and
      attaches the `.webp` thumbnail when it exists; `bot_clean.py` passes the
      title as it is and no thumbnail. */
  function AudioFor(v: Variant, fs: Fs, u: UserId, info: Info): (a: Action)
    ensures a.Audio? && a.to == u && a.file == Mp3Path(info.filename)
    ensures a.performer == info.uploader.GetOr("") && a.duration == info.duration
    ensures v == Fsm ==> a.title == Some(info.title.GetOr("Audio"))
    ensures v == Clean ==> a.title == info.title && a.thumbnail == None
    ensures v == Fsm ==>
      a.thumbnail == (if Exists(fs, ThumbPath(info.filename)) then Some(ThumbPath(info.filename)) else None)
  {
    var thumb := ThumbPath(info.filename);
    Audio(u, Mp3Path(info.filename),
          if v == Fsm then Some(info.title.GetOr("Audio")) else info.title,
          info.uploader.GetOr(""), info.duration,
          if v == Fsm && Exists(fs, thumb) then Some(thumb) else None)
  }

  /** The best-effort `try: ... except Exception: pass` after a successful
      send: remove the MP3, then (in `bot.py`) the thumbnail if it exists,
      then the job directory, stopping at the first call that raises. */
  function Cleanup(v: Variant, fs: Fs, mp3: Path, thumb: Path, dir: Path): Fs {
    match AfterRemove(fs, mp3)
    case None => fs
    case Some(fs1) =>
      var afterThumb := if v == Fsm && Exists(fs1, thumb) then AfterRemove(fs1, thumb) else Some(fs1);
      match afterThumb
      case None => fs1
      case Some(fs2) => AfterRmdir(fs2, dir).GetOr(fs2)
  }

  /** The job, step by step, as a function of the filesystem it starts from. */
  function Job(v: Variant, fs: Fs, u: UserId, inp: Inputs): JobEnd {
    var dir := JobDir(inp.uid);
    var fs1 := AfterMakedirs(fs, dir);
    if !Exists(fs1, CookiesPath) then JobEnd(fs1, Failed(CookiesMissingText(v)))
    else
      match inp.extraction
      case ExtractFailed(m) => JobEnd(fs1, Failed(m))
      case Extracted(info, written) =>
        var fs2 := AfterWrite(fs1, written);
        var mp3 := Mp3Path(info.filename);
        if !Exists(fs2, mp3) then JobEnd(fs2, Failed(MissingMp3))
        else if Oversized(SizeOf(fs2, mp3)) then JobEnd(fs2, TooBig)
        else if inp.sendError.Some? then JobEnd(fs2, Failed(inp.sendError.value))
        else
          JobEnd(Cleanup(v, fs2, mp3, ThumbPath(info.filename), dir), Delivered(AudioFor(v, fs2, u, info)))
  }

  /** The job, run against a disk and an outbox. */
  method DownloadAndSendMp3(v: Variant, disk: Disk, out: Outbox, u: UserId, inp: Inputs)
      returns (outcome: Outcome)
    modifies disk, out
    ensures var j := Job(v, old(disk.Value()), u, inp);
      disk.Value() == j.fs && outcome == j.outcome
      && out.sent == old(out.sent) + (if j.outcome.Delivered? then [j.outcome.audio] else [])
  {
    var dir := JobDir(inp.uid);
    disk.Makedirs(dir);
    if !Exists(disk.Value(), CookiesPath) {
      return Failed(CookiesMissingText(v));
    }
    match inp.extraction {
      case ExtractFailed(m) =>
        return Failed(m);
      case Extracted(info, written) =>
        disk.Write(written);
        var mp3 := Mp3Path(info.filename);
        var thumb := ThumbPath(info.filename);
        if !Exists(disk.Value(), mp3) {
          return Failed(MissingMp3);
        }
        if Oversized(SizeOf(disk.Value(), mp3)) {
          return TooBig;
        }
        var audio := AudioFor(v, disk.Value(), u, info);
        if inp.sendError.Some? {
          return Failed(inp.sendError.value);
        }
        out.Send(audio);
        var ok := disk.Remove(mp3);
        if ok && v == Fsm && Exists(disk.Value(), thumb) {
          ok := disk.Remove(thumb);
        }
        if ok {
          ok := disk.Rmdir(dir);
        }
        return Delivered(audio);
    }
  }

  /** The job delivers exactly when every check passes, and then it has sent
      the MP3 with the metadata the extractor reported. */
  lemma DeliveredIff(v: Variant, fs: Fs, u: UserId, inp: Inputs)
    ensures var fs1 := AfterMakedirs(fs, JobDir(inp.uid));
      Job(v, fs, u, inp).outcome.Delivered? <==>
        Exists(fs1, CookiesPath) && inp.extraction.Extracted? && inp.sendError.None?
        && var fs2 := AfterWrite(fs1, inp.extraction.written);
           var mp3 := Mp3Path(inp.extraction.info.filename);
           Exists(fs2, mp3) && !Oversized(SizeOf(fs2, mp3))
    ensures Job(v, fs, u, inp).outcome.Delivered? ==>
      inp.extraction.Extracted?
      && Job(v, fs, u, inp).outcome.audio
        == AudioFor(v, AfterWrite(AfterMakedirs(fs, JobDir(inp.uid)), inp.extraction.written), u, inp.extraction.info)
  {
  }

  /** A missing `cookies.txt` is found after the job directory is created and
      before anything is extracted: the directory stays, nothing is written. */
  lemma CookiesCheckedBeforeExtraction(v: Variant, fs: Fs, u: UserId, inp: Inputs)
    requires !Exists(fs, CookiesPath)
    ensures var j := Job(v, fs, u, inp);
      j.outcome == Failed(CookiesMissingText(v))
      && j.fs.files == fs.files && JobDir(inp.uid) in j.fs.dirs && BaseDir in j.fs.dirs
  {
    var dir := JobDir(inp.uid);
    assert dir[|BaseDir|] == '/' && dir[..|BaseDir|] == BaseDir;
    assert BaseDir in Ancestors(dir);
    assert CookiesPath != dir && CookiesPath !in Ancestors(dir);
  }

  /** With cookies present, each remaining `raise` is reported with its own
      description: the extractor's exception (before anything is written),
      the missing MP3, and a refused upload; none of them runs the cleanup,
      so what the extractor wrote stays on disk. */
  lemma FailuresAreReported(v: Variant, fs: Fs, u: UserId, inp: Inputs)
    requires Exists(fs, CookiesPath)
    ensures var j := Job(v, fs, u, inp);
      var fs1 := AfterMakedirs(fs, JobDir(inp.uid));
      (inp.extraction.ExtractFailed? ==>
         j == JobEnd(fs1, Failed(inp.extraction.description)))
      && (inp.extraction.Extracted? ==>
            var fs2 := AfterWrite(fs1, inp.extraction.written);
            var mp3 := Mp3Path(inp.extraction.info.filename);
            (!Exists(fs2, mp3) ==> j == JobEnd(fs2, Failed("MP3 not found")))
            && (Exists(fs2, mp3) && !Oversized(SizeOf(fs2, mp3)) && inp.sendError.Some? ==>
                  j == JobEnd(fs2, Failed(inp.sendError.value))))
  {
  }

  /** An MP3 over the limit is reported as too big and left on disk together
      with its directory; one of exactly the limit is delivered. */
  lemma OversizedIsKept(v: Variant, fs: Fs, u: UserId, info: Info, written: map<Path, nat>, uid: string, sendError: Option<string>)
    requires Exists(fs, CookiesPath)
    requires Mp3Path(info.filename) in written
    ensures var j := Job(v, fs, u, Inputs(uid, Extracted(info, written), sendError));
      var size := written[Mp3Path(info.filename)];
      (j.outcome == TooBig <==> size > 52428800)
      && (j.outcome == TooBig ==>
            Mp3Path(info.filename) in j.fs.files && JobDir(uid) in j.fs.dirs)
      && (size == 52428800 && sendError.None? ==> j.outcome.Delivered?)
  {
  }

  /** Cleanup only ever removes things, so it cannot create or grow a file. */
  lemma CleanupOnlyRemoves(v: Variant, fs: Fs, mp3: Path, thumb: Path, dir: Path)
    ensures var r := Cleanup(v, fs, mp3, thumb, dir);
      r.files.Keys <= fs.files.Keys && r.dirs <= fs.dirs
      && (forall p :: p in r.files ==> r.files[p] == fs.files[p])
      && (forall p :: p in fs.files && p != mp3 && (v == Fsm ==> p != thumb) ==> p in r.files)
      && (forall d :: d in fs.dirs && d != dir ==> d in r.dirs)
  {
  }

  /** When the job directory holds nothing but the MP3 (and, in `bot.py`, its
      thumbnail), cleanup removes all of it and nothing else. */
  lemma CleanupRemovesJob(v: Variant, fs: Fs, mp3: Path, thumb: Path, dir: Path)
    requires mp3 in fs.files && dir in fs.dirs && mp3 != thumb
    requires thumb !in fs.dirs
    requires forall p :: p in fs.files && StartsWith(p, dir + "/") ==> p == mp3 || (v == Fsm && p == thumb)
    requires forall p :: p in fs.dirs ==> !StartsWith(p, dir + "/")
    ensures var r := Cleanup(v, fs, mp3, thumb, dir);
      r.dirs == fs.dirs - {dir}
      && r.files.Keys == fs.files.Keys - {mp3} - (if v == Fsm then {thumb} else {})
  {
    var fs1 := AfterRemove(fs, mp3).value;
    var fs2 := if v == Fsm && Exists(fs1, thumb) then AfterRemove(fs1, thumb).value else fs1;
    assert fs2.files.Keys == fs.files.Keys - {mp3} - (if v == Fsm then {thumb} else {});
    assert !HasEntriesUnder(fs2, dir);
  }

  /** Cleanup after writing only the MP3 (and, in `bot.py`, the thumbnail)
      into a directory `makedirs` just created gives back the files as they
      were, with only the directory's ancestors added. */
  lemma FreshCleanup(v: Variant, fs: Fs, dir: Path, mp3: Path, thumb: Path, written: map<Path, nat>)
    requires dir !in fs.dirs && !HasEntriesUnder(fs, dir)
    requires StartsWith(mp3, dir + "/") && StartsWith(thumb, dir + "/") && mp3 != thumb
    requires mp3 in written && written.Keys <= {mp3, thumb}
    requires v == Clean ==> thumb !in written
    ensures Cleanup(v, AfterWrite(AfterMakedirs(fs, dir), written), mp3, thumb, dir)
      == Fs(fs.files, fs.dirs + Ancestors(dir))
  {
    var fs2 := AfterWrite(AfterMakedirs(fs, dir), written);
    assert mp3 !in fs.files && thumb !in fs.files && thumb !in fs.dirs;
    assert dir !in Ancestors(dir) && thumb !in Ancestors(dir) && thumb != dir;
    assert forall p :: p in Ancestors(dir) ==> |p| < |dir|;
    assert forall p :: p in fs2.dirs ==> !StartsWith(p, dir + "/");
    CleanupRemovesJob(v, fs2, mp3, thumb, dir);
    CleanupOnlyRemoves(v, fs2, mp3, thumb, dir);
    var r := Cleanup(v, fs2, mp3, thumb, dir);
    assert r.files.Keys == fs.files.Keys;
    assert r.files == fs.files;
  }

  /** A job in a fresh directory, whose extractor writes only the MP3 (and,
      in `bot.py`, its thumbnail) under that directory, delivers and leaves
      the files exactly as they were; only the ancestors `makedirs` created,
      such as `downloads`, remain. */
  lemma FreshJobLeavesNoTrace(v: Variant, fs: Fs, u: UserId, uid: string, info: Info, written: map<Path, nat>)
    requires Exists(fs, CookiesPath)
    requires JobDir(uid) !in fs.dirs && !HasEntriesUnder(fs, JobDir(uid))
    requires StartsWith(Mp3Path(info.filename), JobDir(uid) + "/")
    requires StartsWith(ThumbPath(info.filename), JobDir(uid) + "/")
    requires Mp3Path(info.filename) in written && written[Mp3Path(info.filename)] <= MaxSize
    requires written.Keys <= {Mp3Path(info.filename), ThumbPath(info.filename)}
    requires v == Clean ==> ThumbPath(info.filename) !in written
    ensures var j := Job(v, fs, u, Inputs(uid, Extracted(info, written), None));
      j.outcome.Delivered? && j.fs == Fs(fs.files, fs.dirs + Ancestors(JobDir(uid)))
  {
    Mp3IsNotThumb(info.filename);
    FreshCleanup(v, fs, JobDir(uid), Mp3Path(info.filename), ThumbPath(info.filename), written);
  }
}
