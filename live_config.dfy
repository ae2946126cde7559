/// Live-recording configuration: the recording mode and its text form,
/// the auto-merge, quality and file-management settings with their
/// defaults, the quality-level names and the ffmpeg arguments of each
/// merge quality.
module LiveConfig {
  import opened Common

  // ---------------------------------------------------------------------
  // Recording mode
  // ---------------------------------------------------------------------

  datatype RecordingMode = FFmpeg | Segment

  /// Display of a recording mode.
  function ModeName(m: RecordingMode): (r: string)
    ensures r == ToLower(r)
  {
    match m
    case FFmpeg => "ffmpeg"
    case Segment => "segment"
  }

  /// FromStr of a recording mode: case-insensitive, anything else is an error.
  function ParseRecordingMode(s: string): (r: Result<RecordingMode>)
    ensures r.Err? ==> r.error == "Invalid recording mode: " + s
  {
    var lower := ToLower(s);
    if lower == "ffmpeg" then Ok(FFmpeg)
    else if lower == "segment" then Ok(Segment)
    else Err("Invalid recording mode: " + s)
  }

  lemma ToLowerIdempotent(s: string)
    ensures ToLower(ToLower(s)) == ToLower(s)
  {
  }

  /// Parsing inverts Display, and accepts exactly the strings whose
  /// lower-case form is a mode's name.
  lemma ParseRecordingModeRoundTrip(m: RecordingMode, s: string)
    ensures ParseRecordingMode(ModeName(m)) == Ok(m)
    ensures ParseRecordingMode(s) == Ok(m) <==> ToLower(s) == ModeName(m)
  {
  }

  /// Parsing ignores case.
  lemma ParseRecordingModeIgnoresCase(s: string)
    ensures ParseRecordingMode(ToLower(s)).Ok? == ParseRecordingMode(s).Ok?
    ensures ParseRecordingMode(s).Ok? ==> ParseRecordingMode(ToLower(s)) == ParseRecordingMode(s)
  {
    ToLowerIdempotent(s);
  }

  // ---------------------------------------------------------------------
  // Merge quality and its ffmpeg arguments
  // ---------------------------------------------------------------------

  datatype MergeQuality =
    | StreamCopy
    | Reencode(videoCodec: string, audioCodec: string, bitrate: string)
    | Auto

  const TIMESTAMP_FIX_ARGS: seq<string> := ["-avoid_negative_ts", "make_zero", "-fflags", "+genpts"]

  const STREAM_COPY_ARGS: seq<string> := ["-c", "copy"] + TIMESTAMP_FIX_ARGS

  /// The codec arguments of a merge.
  function FfmpegArgs(q: MergeQuality): (r: seq<string>)
    ensures |r| >= 4 && r[|r| - 4..] == TIMESTAMP_FIX_ARGS
  {
    match q
    case StreamCopy => STREAM_COPY_ARGS
    case Reencode(v, a, b) => ["-c:v", v, "-c:a", a, "-b:v", b] + TIMESTAMP_FIX_ARGS
    case Auto => STREAM_COPY_ARGS
  }

  /// The arguments of the re-encoding retry after a failed merge.
  function FallbackFfmpegArgs(q: MergeQuality): (r: seq<string>)
    ensures |r| == 8 && r[1] == "libx264" && r[3] == "aac"
  {
    ["-c:v", "libx264", "-c:a", "aac"] + TIMESTAMP_FIX_ARGS
  }

  /// Auto first tries a stream copy; Reencode puts each of its settings
  /// right after its flag; the fallback does not depend on the quality.
  lemma MergeArgsShape(q: MergeQuality, p: MergeQuality)
    ensures FfmpegArgs(Auto) == FfmpegArgs(StreamCopy)
    ensures "-c" in FfmpegArgs(StreamCopy) && "copy" in FfmpegArgs(StreamCopy)
    ensures q.Reencode? ==>
      var r := FfmpegArgs(q);
      r[0] == "-c:v" && r[1] == q.videoCodec && r[2] == "-c:a" && r[3] == q.audioCodec
      && r[4] == "-b:v" && r[5] == q.bitrate
    ensures FallbackFfmpegArgs(q) == FallbackFfmpegArgs(p)
  {
    assert FfmpegArgs(StreamCopy)[0] == "-c" && FfmpegArgs(StreamCopy)[1] == "copy";
  }

  // ---------------------------------------------------------------------
  // Configuration records and their defaults
  // ---------------------------------------------------------------------

  datatype AutoMergeConfig = AutoMergeConfig(
    enabled: bool,
    durationThreshold: nat,
    keepSegmentsAfterMerge: bool,
    outputFormat: string,
    outputQuality: MergeQuality)
  {
    /// Whether a recording of `durationMs` milliseconds is due for merging;
    /// the threshold is in seconds.
    predicate ShouldAutoMerge(durationMs: nat)
    {
      enabled && durationMs >= durationThreshold * 1000
    }
  }

  datatype RecordingQualityConfig = RecordingQualityConfig(preferredFormat: string, qualityLevel: nat, frameRate: nat)

  datatype FileManagementConfig = FileManagementConfig(maxSegmentsToKeep: nat, filenameTemplate: string, autoCleanupDays: nat)

  datatype LiveRecordingConfig = LiveRecordingConfig(
    recordingMode: RecordingMode,
    autoMerge: AutoMergeConfig,
    quality: RecordingQualityConfig,
    fileManagement: FileManagementConfig)

  const DEFAULT_AUTO_MERGE := AutoMergeConfig(false, 600, false, "mp4", Auto)
  const DEFAULT_QUALITY := RecordingQualityConfig("flv", ORIGINAL, 30)
  const DEFAULT_FILE_MANAGEMENT := FileManagementConfig(50, "{upper_name}_{room_id}_{date}_{time}_{title}.{ext}", 7)
  const DEFAULT_CONFIG := LiveRecordingConfig(FFmpeg, DEFAULT_AUTO_MERGE, DEFAULT_QUALITY, DEFAULT_FILE_MANAGEMENT)

  /// Merging is monotone in the recorded duration, never happens while
  /// disabled, and starts exactly at the threshold.
  lemma ShouldAutoMergeMonotone(c: AutoMergeConfig, d: nat, e: nat)
    requires d <= e
    ensures c.ShouldAutoMerge(d) ==> c.ShouldAutoMerge(e)
    ensures !c.enabled ==> !c.ShouldAutoMerge(e)
    ensures c.enabled ==> c.ShouldAutoMerge(c.durationThreshold * 1000)
    ensures c.durationThreshold > 0 ==> !c.ShouldAutoMerge(c.durationThreshold * 1000 - 1)
  {
  }

  // ---------------------------------------------------------------------
  // Quality levels
  // ---------------------------------------------------------------------

  const ORIGINAL: nat := 10000
  const UHD_4K: nat := 800
  const BLURAY_DOLBY: nat := 401
  const BLURAY: nat := 400
  const SUPER_HIGH: nat := 250
  const HIGH: nat := 150
  const SMOOTH: nat := 80

  datatype QualityInfo = QualityInfo(qn: nat, name: string, description: string)

  const KNOWN_QUALITY_NAMES: seq<string> := ["原画", "4K", "蓝光杜比", "蓝光", "超清", "高清", "流畅"]

  /// The display name of a quality level; unknown levels read "自定义(n)".
  function QualityName(qn: nat): (r: string)
    ensures r in KNOWN_QUALITY_NAMES <==> qn in {ORIGINAL, UHD_4K, BLURAY_DOLBY, BLURAY, SUPER_HIGH, HIGH, SMOOTH}
  {
    if qn == ORIGINAL then "原画"
    else if qn == UHD_4K then "4K"
    else if qn == BLURAY_DOLBY then "蓝光杜比"
    else if qn == BLURAY then "蓝光"
    else if qn == SUPER_HIGH then "超清"
    else if qn == HIGH then "高清"
    else if qn == SMOOTH then "流畅"
    else CustomName(qn)
  }

  function CustomName(qn: nat): (r: string)
    ensures |r| > 4 && r[..4] == "自定义("
  {
    "自定义(" + NatToString(qn) + ")"
  }

  /// Different quality levels never share a name.
  lemma QualityNameInjective(a: nat, b: nat)
    requires QualityName(a) == QualityName(b)
    ensures a == b
  {
    var known := {ORIGINAL, UHD_4K, BLURAY_DOLBY, BLURAY, SUPER_HIGH, HIGH, SMOOTH};
    if a !in known && b !in known {
      var x := NatToString(a);
      var y := NatToString(b);
      assert CustomName(a) == "自定义(" + x + ")";
      assert x == CustomName(a)[4..|CustomName(a)| - 1];
      assert y == CustomName(b)[4..|CustomName(b)| - 1];
      NatToStringInjective(a, b);
    }
  }

  /// The known levels, best first.
  const QUALITY_LEVELS: seq<nat> := [ORIGINAL, UHD_4K, BLURAY_DOLBY, BLURAY, SUPER_HIGH, HIGH, SMOOTH]

  /// The description shown beside a known level.
  function QualityDescription(qn: nat): string
  {
    if qn == ORIGINAL then "最高画质，原始分辨率"
    else if qn == UHD_4K then "4K超高清画质"
    else if qn == BLURAY_DOLBY then "蓝光画质，支持杜比音效"
    else if qn == BLURAY then "蓝光画质"
    else if qn == SUPER_HIGH then "超清画质，通常为720p或1080p"
    else if qn == HIGH then "高清画质，通常为720p"
    else "流畅画质，通常为480p"
  }

  /// `get_available_qualities`: one entry per known level, in order.
  function AvailableQualities(): (r: seq<QualityInfo>)
    ensures |r| == |QUALITY_LEVELS|
    ensures forall i :: 0 <= i < |r| ==> r[i].qn == QUALITY_LEVELS[i]
    ensures forall i :: 0 <= i < |r| ==> r[i].name == QualityName(r[i].qn)
  {
    seq(|QUALITY_LEVELS|, i requires 0 <= i < |QUALITY_LEVELS| =>
      QualityInfo(QUALITY_LEVELS[i], QualityName(QUALITY_LEVELS[i]), QualityDescription(QUALITY_LEVELS[i])))
  }

  /// The list starts at the original quality, is strictly best first, and
  /// shows every level under one of the known names, no two alike.
  lemma AvailableQualitiesBestFirst()
    ensures var r := AvailableQualities();
      |r| == 7 && r[0].qn == ORIGINAL && r[6].qn == SMOOTH
      && (forall i, j :: 0 <= i < j < |r| ==> r[i].qn > r[j].qn)
      && (forall i :: 0 <= i < |r| ==> r[i].name in KNOWN_QUALITY_NAMES)
      && (forall i, j :: 0 <= i < j < |r| ==> r[i].name != r[j].name)
  {
    var r := AvailableQualities();
    forall i | 0 <= i < |r|
      ensures r[i].name in KNOWN_QUALITY_NAMES
    {
      KnownLevelNamed(i);
    }
    forall i, j | 0 <= i < j < |r|
      ensures r[i].qn > r[j].qn && r[i].name != r[j].name
    {
      LevelsDescending(i, j);
      if r[i].name == r[j].name {
        QualityNameInjective(r[i].qn, r[j].qn);
      }
    }
  }

  lemma KnownLevelNamed(i: nat)
    requires i < |QUALITY_LEVELS|
    ensures QualityName(QUALITY_LEVELS[i]) in KNOWN_QUALITY_NAMES
  {
    assert QUALITY_LEVELS[i] in {ORIGINAL, UHD_4K, BLURAY_DOLBY, BLURAY, SUPER_HIGH, HIGH, SMOOTH};
  }

  lemma LevelsDescending(i: nat, j: nat)
    requires i < j < |QUALITY_LEVELS|
    ensures QUALITY_LEVELS[i] > QUALITY_LEVELS[j]
  {
  }

  /// The defaults: FFmpeg mode, auto-merge off at 600 s into "mp4" with
  /// Auto quality, original quality into "flv".
  lemma Defaults()
    ensures DEFAULT_CONFIG.recordingMode == FFmpeg && ModeName(DEFAULT_CONFIG.recordingMode) == "ffmpeg"
    ensures !DEFAULT_CONFIG.autoMerge.enabled && DEFAULT_CONFIG.autoMerge.durationThreshold == 600
    ensures DEFAULT_CONFIG.autoMerge.outputFormat == "mp4" && DEFAULT_CONFIG.autoMerge.outputQuality == Auto
    ensures DEFAULT_CONFIG.quality.qualityLevel == ORIGINAL && DEFAULT_CONFIG.quality.preferredFormat == "flv"
    ensures QualityName(DEFAULT_CONFIG.quality.qualityLevel) == "原画"
    ensures forall d: nat :: !DEFAULT_CONFIG.autoMerge.ShouldAutoMerge(d)
  {
  }
}
