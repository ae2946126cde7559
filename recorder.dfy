/// The live-stream recorder (`LiveRecorder`): a status machine around one
/// ffmpeg process that writes the stream straight into the final file.
/// Processes, the file system and the clock are inputs: a spawned process
/// is known by the arguments it was started with, its exit is what a poll
/// reports, and times are milliseconds.
module Recorder {
  import opened Common

  datatype RecordStatus = Idle | Recording | Stopped | Error

  /// `RecordStats`; the start time and the duration in milliseconds.
  datatype RecordStats = RecordStats(startTime: Option<int>, durationMs: nat, fileSize: nat, isRecording: bool)

  const DEFAULT_STATS := RecordStats(None, 0, 0, false)

  /// A spawned ffmpeg process, known by its command-line arguments.
  datatype Process = Process(args: seq<string>)

  /// The piped standard input of a process, kept to ask it to quit.
  datatype Pipe = Pipe

  /// What the system answers while a recording starts: whether the output
  /// directory could be created, whether `ffmpeg -version` succeeded, and
  /// whether the recording process could be spawned.
  datatype Launch = Launch(dirCreated: bool, ffmpegFound: bool, spawned: bool)

  /// The answer of `try_wait` on the process.
  datatype Poll = Running | Exited(success: bool) | WaitFailed(message: string)

  /// The error a start ends with, checked in the order the recorder does.
  function LaunchError(l: Launch): (r: Option<string>)
    ensures r.None? <==> l.dirCreated && l.ffmpegFound && l.spawned
  {
    if !l.dirCreated then Some("创建输出目录失败")
    else if !l.ffmpegFound then Some("FFmpeg不可用，请确保已安装FFmpeg")
    else if !l.spawned then Some("启动FFmpeg失败")
    else None
  }

  // ---------------------------------------------------------------------
  // Output format
  // ---------------------------------------------------------------------

  /// `Path::extension`: what follows the last '.' of the file name, unless
  /// the name has no '.' or its only '.' is its first character.
  function Extension(path: string): (r: Option<string>)
    ensures r.Some? ==> '.' !in r.value && '/' !in r.value
  {
    match FileName(path)
    case None => None
    case Some(name) =>
      match RFindChar(name, '.')
      case None => None
      case Some(i) => if i == 0 then None else Some(name[i + 1..])
  }

  /// The ffmpeg muxer for the output file: chosen by the lower-cased
  /// extension, flv when the extension is missing or unknown.
  function FormatFor(path: string): (r: string)
    ensures r in {"mp4", "flv", "matroska", "mpegts"}
  {
    match Extension(path)
    case None => "flv"
    case Some(e) =>
      var ext := ToLower(e);
      if ext == "mp4" then "mp4"
      else if ext == "mkv" then "matroska"
      else if ext == "ts" then "mpegts"
      else "flv"
  }

  /// A file name ending in ".ext" has extension `ext`.
  lemma {:induction false} ExtensionOfName(dir: string, stem: string, ext: string)
    requires |stem| > 0 && '/' !in stem
    requires |ext| > 0 && '/' !in ext && '.' !in ext
    ensures Extension(JoinPath(dir, stem + "." + ext)) == Some(ext)
  {
    var name := stem + "." + ext;
    assert '/' !in name by {
      forall k | 0 <= k < |name|
        ensures name[k] != '/'
      {
        if k < |stem| { assert name[k] == stem[k]; }
        else if k > |stem| { assert name[k] == ext[k - |stem| - 1]; }
      }
    }
    assert name != ".." by { assert name[|name| - 1] == ext[|ext| - 1]; }
    FileNameOfJoin(dir, name);
    DotBeforeTail(stem, ext);
  }

  /// The last '.' of `stem + "." + ext` is the one put before `ext`.
  lemma DotBeforeTail(stem: string, ext: string)
    requires '.' !in ext
    ensures RFindChar(stem + "." + ext, '.') == Some(|stem|)
    decreases |ext|
  {
    var name := stem + "." + ext;
    if |ext| == 0 {
      assert name[|name| - 1] == '.';
    } else {
      assert name[..|name| - 1] == stem + "." + ext[..|ext| - 1];
      DotBeforeTail(stem, ext[..|ext| - 1]);
    }
  }

  /// The muxer of a file named "stem.ext": mp4, matroska and mpegts for the
  /// extensions mp4, mkv and ts in any case, flv for every other extension.
  lemma FormatOfName(dir: string, stem: string, ext: string)
    requires |stem| > 0 && '/' !in stem
    requires |ext| > 0 && '/' !in ext && '.' !in ext
    ensures FormatFor(JoinPath(dir, stem + "." + ext)) ==
      if ToLower(ext) == "mp4" then "mp4"
      else if ToLower(ext) == "mkv" then "matroska"
      else if ToLower(ext) == "ts" then "mpegts"
      else "flv"
  {
    ExtensionOfName(dir, stem, ext);
  }

  /// A file without an extension is written as flv.
  lemma NoExtensionIsFlv(path: string)
    requires Extension(path).None?
    ensures FormatFor(path) == "flv"
  {
  }

  // ---------------------------------------------------------------------
  // Arguments
  // ---------------------------------------------------------------------

  /// The user agent and referer sent with every request for the stream,
  /// separated as ffmpeg's `-headers` option wants them.
  const BROWSER_HEADERS: string := "User-Agent: Mozilla/5.0 (Windows NT 10.0; Win64; x64) AppleWebKit/537.36 (KHTML, like Gecko) Chrome/91.0.4472.124 Safari/537.36\r\nReferer: https://live.bilibili.com/"

  /// Where "-i" sits in the recorder's arguments.
  const INPUT_AT: nat := 14

  /// The arguments the recorder starts ffmpeg with: progress reporting,
  /// reconnection, headers, the input copied as it is, the muxer and the
  /// output file.
  function RecorderArgs(url: string, muxer: string, path: string): seq<string>
  {
    [ "-progress", "-", "-nostats",
      "-reconnect", "1", "-reconnect_at_eof", "1", "-reconnect_streamed", "1", "-reconnect_delay_max", "10",
      "-headers", BROWSER_HEADERS,
      "-y", "-i", url, "-c", "copy", "-avoid_negative_ts", "make_zero",
      "-f", muxer,
      path ]
  }

  /// `build_ffmpeg_args`: extends the argument list group by group; the
  /// muxer is the one `FormatFor` chooses for the output path.
  method BuildFfmpegArgs(url: string, muxer: string, outputPath: string) returns (args: seq<string>)
    ensures args == RecorderArgs(url, muxer, outputPath)
  {
    args := [];
    args := args + ["-progress", "-", "-nostats"];
    args := args + ["-reconnect", "1", "-reconnect_at_eof", "1", "-reconnect_streamed", "1", "-reconnect_delay_max", "10"];
    args := args + ["-headers", BROWSER_HEADERS];
    args := args + ["-y", "-i", url, "-c", "copy", "-avoid_negative_ts", "make_zero"];
    args := args + ["-f", muxer];
    args := args + [outputPath];
  }

  /// The stream URL is the one input and follows "-i"; the stream is
  /// copied; the muxer flag comes right before the output path, which is
  /// the last argument.
  lemma RecorderArgsShape(url: string, muxer: string, path: string)
    ensures var args := RecorderArgs(url, muxer, path);
      && |args| == INPUT_AT + 9
      && args[INPUT_AT] == "-i" && args[INPUT_AT + 1] == url
      && args[INPUT_AT + 2] == "-c" && args[INPUT_AT + 3] == "copy"
      && args[|args| - 3] == "-f" && args[|args| - 2] == muxer
      && args[|args| - 1] == path
      && "-i" !in args[..INPUT_AT] && (muxer != "-i" ==> "-i" !in args[INPUT_AT + 2..|args| - 1])
  {
    var args := RecorderArgs(url, muxer, path);
    assert args[..INPUT_AT] == ["-progress", "-", "-nostats",
      "-reconnect", "1", "-reconnect_at_eof", "1", "-reconnect_streamed", "1", "-reconnect_delay_max", "10",
      "-headers", BROWSER_HEADERS, "-y"];
    assert args[INPUT_AT + 2..|args| - 1] == ["-c", "copy", "-avoid_negative_ts", "make_zero", "-f", muxer];
  }

  // ---------------------------------------------------------------------
  // The recorder
  // ---------------------------------------------------------------------

  /// Milliseconds since `start`, never negative (`Instant::elapsed`).
  function Elapsed(start: int, now: int): nat
  {
    if now >= start then now - start else 0
  }

  /// Ten minutes, in seconds: the age after which a new URL is suggested.
  const SWITCH_AFTER_SECONDS: nat := 600

  class LiveRecorder {
    const finalOutputPath: string
    var primaryProcess: Option<Process>
    var primaryStdin: Option<Pipe>
    var status: RecordStatus
    var stats: RecordStats
    var currentStreamUrl: Option<string>

    /// The recorder's bookkeeping agrees with its status: it records
    /// exactly while the status says so, a recording has a process, a URL
    /// and a start time, and a stdin pipe belongs to a process.
    ghost predicate Valid()
      reads this
    {
      && (stats.isRecording <==> status == Recording)
      && (status == Recording ==> primaryProcess.Some? && currentStreamUrl.Some? && stats.startTime.Some?)
      && (primaryStdin.Some? ==> primaryProcess.Some?)
    }

    /// `LiveRecorder::new`.
    constructor(outputPath: string)
      ensures finalOutputPath == outputPath
      ensures primaryProcess == None && primaryStdin == None && currentStreamUrl == None
      ensures status == Idle && stats == DEFAULT_STATS
      ensures Valid()
    {
      finalOutputPath := outputPath;
      primaryProcess := None;
      primaryStdin := None;
      status := Idle;
      stats := DEFAULT_STATS;
      currentStreamUrl := None;
    }

    /// `start_with_cdn`: refuses while recording; otherwise spawns ffmpeg
    /// on the stream and, once it runs, records from `now`. A failed start
    /// changes nothing.
    method StartWithCdn(url: string, cdnNode: string, launch: Launch, now: int) returns (r: Result<()>)
      requires Valid()
      modifies this
      ensures Valid()
      ensures old(status) == Recording ==> r == Err("录制器已在录制中")
      ensures r.Ok? <==> old(status) != Recording && LaunchError(launch).None?
      ensures r.Ok? ==> && status == Recording
                        && primaryProcess == Some(Process(RecorderArgs(url, FormatFor(finalOutputPath), finalOutputPath)))
                        && primaryStdin == Some(Pipe)
                        && currentStreamUrl == Some(url)
                        && stats == old(stats).(startTime := Some(now), isRecording := true)
      ensures r.Err? ==> unchanged(this)
    {
      if status == Recording {
        return Err("录制器已在录制中");
      }
      var failure := LaunchError(launch);
      if failure.Some? {
        return Err(failure.value);
      }
      var args := BuildFfmpegArgs(url, FormatFor(finalOutputPath), finalOutputPath);
      primaryStdin := Some(Pipe);
      primaryProcess := Some(Process(args));
      status := Recording;
      currentStreamUrl := Some(url);
      stats := stats.(startTime := Some(now), isRecording := true);
      r := Ok(());
    }

    /// `start`: a start on an unknown CDN node.
    method Start(url: string, launch: Launch, now: int) returns (r: Result<()>)
      requires Valid()
      modifies this
      ensures Valid()
      ensures r.Ok? <==> old(status) != Recording && LaunchError(launch).None?
      ensures r.Ok? ==> status == Recording && currentStreamUrl == Some(url)
                        && primaryProcess == Some(Process(RecorderArgs(url, FormatFor(finalOutputPath), finalOutputPath)))
      ensures r.Err? ==> unchanged(this)
    {
      r := StartWithCdn(url, "unknown", launch, now);
    }

    /// `stop`: nothing to do unless recording; otherwise the process (and
    /// its stdin pipe) is taken and stopped, the status becomes Stopped and
    /// the duration and, when the file can be read, its size are recorded.
    method Stop(now: int, fileSize: Option<nat>)
      requires Valid()
      modifies this
      ensures Valid()
      ensures old(status) != Recording ==> unchanged(this)
      ensures old(status) == Recording ==>
        && status == Stopped
        && primaryProcess == None && primaryStdin == None
        && currentStreamUrl == old(currentStreamUrl)
        && stats.isRecording == false
        && stats.startTime == old(stats.startTime)
        && stats.durationMs == Elapsed(old(stats.startTime.value), now)
        && stats.fileSize == (if fileSize.Some? then fileSize.value else old(stats.fileSize))
    {
      if status != Recording {
        return;
      }
      if primaryProcess.Some? {
        primaryProcess := None;
        primaryStdin := None;
      }
      status := Stopped;
      stats := stats.(isRecording := false);
      if stats.startTime.Some? {
        stats := stats.(durationMs := Elapsed(stats.startTime.value, now));
      }
      if fileSize.Some? {
        stats := stats.(fileSize := fileSize.value);
      }
    }

    /// `check_process_status`: whether ffmpeg still runs. An exited process
    /// leaves the recorder Stopped (clean exit) or Error (failure); a poll
    /// that fails is an Error and is reported; without a process nothing
    /// changes.
    method CheckProcessStatus(poll: Poll) returns (r: Result<bool>)
      requires Valid()
      modifies this
      ensures Valid()
      ensures primaryProcess == old(primaryProcess) && primaryStdin == old(primaryStdin)
      ensures currentStreamUrl == old(currentStreamUrl)
      ensures r == Ok(true) <==> old(primaryProcess).Some? && poll.Running?
      ensures r.Err? <==> old(primaryProcess).Some? && poll.WaitFailed?
      ensures old(primaryProcess).None? || poll.Running? ==> unchanged(this) && r.Ok?
      ensures old(primaryProcess).Some? && !poll.Running? ==>
        && status == (if poll == Exited(true) then Stopped else Error)
        && stats == old(stats).(isRecording := false)
    {
      if primaryProcess.None? {
        return Ok(false);
      }
      match poll {
        case Running =>
          r := Ok(true);
        case Exited(success) =>
          status := if success then Stopped else Error;
          stats := stats.(isRecording := false);
          r := Ok(false);
        case WaitFailed(message) =>
          status := Error;
          stats := stats.(isRecording := false);
          r := Err("检查进程状态失败: " + message);
      }
    }

    /// `should_switch_url`: a running recording older than ten minutes
    /// (whole seconds) should move to a fresh URL.
    function ShouldSwitchUrl(now: int): bool
      reads this
    {
      primaryProcess.Some? && stats.startTime.Some?
        && Elapsed(stats.startTime.value, now) / 1000 > SWITCH_AFTER_SECONDS
    }

    /// `seamless_switch`: stops the recording and starts again on the new
    /// URL.
    method SeamlessSwitch(url: string, cdnNode: string, launch: Launch, now: int, fileSize: Option<nat>)
      returns (r: Result<()>)
      requires Valid()
      modifies this
      ensures Valid()
      ensures r.Ok? <==> LaunchError(launch).None?
      ensures r.Ok? ==> status == Recording && currentStreamUrl == Some(url)
                        && primaryProcess == Some(Process(RecorderArgs(url, FormatFor(finalOutputPath), finalOutputPath)))
      ensures r.Err? && old(status) == Recording ==> status == Stopped && primaryProcess == None
    {
      Stop(now, fileSize);
      r := Start(url, launch, now);
    }
  }

  /// The switch is suggested exactly when the process exists, the start
  /// time is known and at least 601 seconds have passed.
  lemma ShouldSwitchAfterTenMinutes(rec: LiveRecorder, now: int)
    ensures rec.ShouldSwitchUrl(now) <==>
      rec.primaryProcess.Some? && rec.stats.startTime.Some? && now - rec.stats.startTime.value >= 601000
  {
  }
}
