/// The plain ffmpeg recorder (`FFmpegRecorder`): one process writing the
/// stream into the final file, with a fast-failing network timeout and an
/// optional size limit. Unlike `Recorder.LiveRecorder` it keeps no status:
/// the Option fields are the whole state.
module FfmpegRecorder {
  import opened Common
  import Recorder

  /// The `-fs` limit: present only for a positive size.
  function SizeLimitArgs(maxFileSize: int): seq<string>
  {
    if maxFileSize > 0 then ["-fs", IntToString(maxFileSize)] else []
  }

  /// The arguments the recorder starts ffmpeg with: progress reporting, a
  /// three-second network timeout (in microseconds), headers, the input
  /// copied as it is, the muxer, the size limit and the output file.
  function FfmpegArgs(url: string, muxer: string, path: string, maxFileSize: int): seq<string>
  {
    [ "-progress", "-", "-nostats",
      "-rw_timeout", "3000000",
      "-headers", Recorder.BROWSER_HEADERS,
      "-y", "-i", url, "-c", "copy", "-avoid_negative_ts", "make_zero",
      "-f", muxer ]
      + SizeLimitArgs(maxFileSize) + [path]
  }

  /// `build_ffmpeg_args`: extends the argument list group by group; the
  /// muxer is the one `Recorder.FormatFor` chooses for the output path.
  method BuildFfmpegArgs(url: string, muxer: string, outputPath: string, maxFileSize: int) returns (args: seq<string>)
    ensures args == FfmpegArgs(url, muxer, outputPath, maxFileSize)
  {
    args := [];
    args := args + ["-progress", "-", "-nostats"];
    args := args + ["-rw_timeout", "3000000"];
    args := args + ["-headers", Recorder.BROWSER_HEADERS];
    args := args + ["-y", "-i", url, "-c", "copy", "-avoid_negative_ts", "make_zero"];
    args := args + ["-f", muxer];
    if maxFileSize > 0 {
      args := args + ["-fs", IntToString(maxFileSize)];
    }
    args := args + [outputPath];
  }

  /// Where "-i" sits in the arguments.
  const FFMPEG_INPUT_AT: nat := 8

  /// The timeout is always set and the stream URL follows "-i"; "-fs" and
  /// the limit come exactly when the limit is positive, after the muxer
  /// flag and right before the output path, which is the last argument.
  lemma FfmpegArgsShape(url: string, muxer: string, path: string, maxFileSize: int)
    ensures var args := FfmpegArgs(url, muxer, path, maxFileSize);
      && |args| == FFMPEG_INPUT_AT + (if maxFileSize > 0 then 11 else 9)
      && args[3] == "-rw_timeout" && args[4] == "3000000"
      && args[FFMPEG_INPUT_AT] == "-i" && args[FFMPEG_INPUT_AT + 1] == url
      && args[FFMPEG_INPUT_AT + 2] == "-c" && args[FFMPEG_INPUT_AT + 3] == "copy"
      && args[FFMPEG_INPUT_AT + 6] == "-f" && args[FFMPEG_INPUT_AT + 7] == muxer
      && (args[|args| - 3] == "-fs" <==> maxFileSize > 0)
      && (maxFileSize > 0 ==> args[|args| - 2] == IntToString(maxFileSize))
      && args[|args| - 1] == path
  {
  }

  /// The size limit reads back as the configured number of bytes.
  lemma SizeLimitParses(url: string, muxer: string, path: string, maxFileSize: int)
    requires 0 < maxFileSize <= I64_MAX
    ensures var args := FfmpegArgs(url, muxer, path, maxFileSize);
      ParseI64(args[|args| - 2]) == Some(maxFileSize)
  {
    FfmpegArgsShape(url, muxer, path, maxFileSize);
    IntToStringParses(maxFileSize);
  }

  class FfmpegRecorder {
    const finalOutputPath: string
    var primaryProcess: Option<Recorder.Process>
    var primaryStdin: Option<Recorder.Pipe>
    var currentStreamUrl: Option<string>
    /// The size limit in bytes (an `i64`); 0 or less means none.
    const maxFileSize: int

    /// A stdin pipe belongs to a process.
    ghost predicate Valid()
      reads this
    {
      primaryStdin.Some? ==> primaryProcess.Some?
    }

    /// `FFmpegRecorder::new`.
    constructor(outputPath: string, maxSize: int)
      requires I64_MIN <= maxSize <= I64_MAX
      ensures finalOutputPath == outputPath && maxFileSize == maxSize
      ensures primaryProcess == None && primaryStdin == None && currentStreamUrl == None
      ensures Valid()
    {
      finalOutputPath := outputPath;
      primaryProcess := None;
      primaryStdin := None;
      currentStreamUrl := None;
      maxFileSize := maxSize;
    }

    /// `start_with_cdn`: spawns ffmpeg on the stream. There is no guard
    /// against a second start: a running process is replaced. The stream
    /// URL is stored only once the process is spawned; a failed start
    /// changes nothing.
    method StartWithCdn(url: string, cdnNode: string, launch: Recorder.Launch) returns (r: Result<()>)
      requires Valid()
      modifies this
      ensures Valid()
      ensures r.Ok? <==> Recorder.LaunchError(launch).None?
      ensures r.Ok? ==> && primaryProcess == Some(Recorder.Process(FfmpegArgs(url, Recorder.FormatFor(finalOutputPath), finalOutputPath, maxFileSize)))
                        && primaryStdin == Some(Recorder.Pipe)
                        && currentStreamUrl == Some(url)
      ensures r.Err? ==> unchanged(this)
    {
      var failure := Recorder.LaunchError(launch);
      if failure.Some? {
        return Err(failure.value);
      }
      var args := BuildFfmpegArgs(url, Recorder.FormatFor(finalOutputPath), finalOutputPath, maxFileSize);
      primaryStdin := Some(Recorder.Pipe);
      primaryProcess := Some(Recorder.Process(args));
      currentStreamUrl := Some(url);
      r := Ok(());
    }

    /// `stop`: takes the process and its stdin pipe and stops it; the
    /// stream URL is kept.
    method Stop()
      requires Valid()
      modifies this
      ensures Valid()
      ensures primaryProcess == None && primaryStdin == None
      ensures currentStreamUrl == old(currentStreamUrl)
    {
      if primaryProcess.Some? {
        primaryProcess := None;
        primaryStdin := None;
      }
    }

    /// `check_process_status`: whether ffmpeg still runs; changes nothing.
    method CheckProcessStatus(poll: Recorder.Poll) returns (r: Result<bool>)
      ensures r == Ok(true) <==> primaryProcess.Some? && poll.Running?
      ensures r.Err? <==> primaryProcess.Some? && poll.WaitFailed?
    {
      if primaryProcess.None? {
        return Ok(false);
      }
      match poll {
        case Running =>
          r := Ok(true);
        case Exited(_) =>
          r := Ok(false);
        case WaitFailed(message) =>
          r := Err("检查进程状态失败: " + message);
      }
    }
  }
}
