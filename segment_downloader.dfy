/// The HLS segment downloader (`SegmentDownloader`): it picks a variant
/// stream out of the master playlist (section 4.3.4.2 of RFC 8216),
/// resolves segment URIs against the variant's directory, schedules each
/// media segment by its media sequence number and keeps download counters.
module SegmentDownloader {
  import opened Common
  import M3u8Parser

  datatype DownloadStatus = Idle | Downloading | Error

  /// `DownloadStats`; the start instant is a caller-supplied clock value.
  datatype DownloadStats = DownloadStats(
    totalSegments: nat,
    successfulDownloads: nat,
    failedDownloads: nat,
    totalBytes: nat,
    startTime: Option<int>)

  const EMPTY_STATS := DownloadStats(0, 0, 0, 0, None)

  const STREAM_INF_TAG := "#EXT-X-STREAM-INF:"

  // ---------------------------------------------------------------------
  // Choosing the variant stream of a master playlist
  // ---------------------------------------------------------------------

  /// Line `i` is a `#EXT-X-STREAM-INF:` tag whose next line, trimmed, names
  /// an ".m3u8" playlist.
  predicate IsStreamInfAt(lines: seq<string>, i: nat)
  {
    i + 1 < |lines| && StartsWith(lines[i], STREAM_INF_TAG) && Contains(Trim(lines[i + 1]), ".m3u8")
  }

  /// A trimmed line that is itself an absolute ".m3u8" URL.
  predicate IsDirectPlaylist(line: string)
  {
    StartsWith(Trim(line), "http") && Contains(Trim(line), ".m3u8")
  }

  /// The first stream-inf tag at or after `from` whose next line qualifies.
  function FirstStreamInf(lines: seq<string>, from: nat): (r: Option<nat>)
    ensures r.Some? ==> from <= r.value && IsStreamInfAt(lines, r.value)
    ensures r.Some? ==> forall j :: from <= j < r.value ==> !IsStreamInfAt(lines, j)
    ensures r.None? ==> forall j :: from <= j < |lines| ==> !IsStreamInfAt(lines, j)
    decreases |lines| - from
  {
    if from >= |lines| then None
    else if IsStreamInfAt(lines, from) then Some(from)
    else FirstStreamInf(lines, from + 1)
  }

  /// The first line at or after `from` that is a direct ".m3u8" URL.
  function FirstDirect(lines: seq<string>, from: nat): (r: Option<nat>)
    ensures r.Some? ==> from <= r.value < |lines| && IsDirectPlaylist(lines[r.value])
    ensures r.Some? ==> forall j :: from <= j < r.value ==> !IsDirectPlaylist(lines[j])
    ensures r.None? ==> forall j :: from <= j < |lines| ==> !IsDirectPlaylist(lines[j])
    decreases |lines| - from
  {
    if from >= |lines| then None
    else if IsDirectPlaylist(lines[from]) then Some(from)
    else FirstDirect(lines, from + 1)
  }

  /// The variant URL `refresh_m3u8_url` settles on: the line after the
  /// first qualifying stream-inf tag, else the first direct ".m3u8" URL.
  function VariantUrl(lines: seq<string>): Option<string>
  {
    match FirstStreamInf(lines, 0)
    case Some(i) => Some(Trim(lines[i + 1]))
    case None =>
      match FirstDirect(lines, 0)
      case Some(i) => Some(Trim(lines[i]))
      case None => None
  }

  /// Whatever is chosen names an ".m3u8" playlist, and a stream-inf variant
  /// wins over a direct URL even when the direct URL comes first.
  lemma VariantUrlChoice(lines: seq<string>)
    ensures VariantUrl(lines).Some? ==> Contains(VariantUrl(lines).value, ".m3u8")
    ensures VariantUrl(lines).None? <==>
      (forall j :: 0 <= j < |lines| ==> !IsStreamInfAt(lines, j) && !IsDirectPlaylist(lines[j]))
    ensures forall i :: 0 <= i < |lines| && IsStreamInfAt(lines, i) ==>
      VariantUrl(lines).Some? && VariantUrl(lines).value == Trim(lines[FirstStreamInf(lines, 0).value + 1])
  {
    match FirstStreamInf(lines, 0)
    case Some(i) =>
    case None =>
      match FirstDirect(lines, 0)
      case Some(i) =>
        assert !IsStreamInfAt(lines, i);
      case None =>
  }

  /// The base URL after choosing `url`: everything up to and including its
  /// last '/', or the old base when it has none.
  function BaseAfterVariant(oldBase: string, url: string): (r: string)
  {
    match RFindChar(url, '/')
    case None => oldBase
    case Some(k) => url[..k + 1]
  }

  /// `extract_base_url_from_m3u8`: the text before the last '/' plus "/",
  /// or the whole URL when it has no '/'.
  function ExtractBaseUrl(url: string): (r: string)
  {
    match RFindChar(url, '/')
    case None => url
    case Some(k) => url[..k] + "/"
  }

  /// Both ways of taking a URL's directory agree when it has a '/': a
  /// prefix of the URL ending in '/' with no '/' after it; without a '/'
  /// the refresh keeps the old base while the extractor returns the URL.
  lemma BaseUrlDirectory(oldBase: string, url: string)
    ensures '/' in url ==>
      var b := BaseAfterVariant(oldBase, url);
      b == ExtractBaseUrl(url) && StartsWith(url, b) && b[|b| - 1] == '/' && '/' !in url[|b|..]
    ensures '/' !in url ==> BaseAfterVariant(oldBase, url) == oldBase && ExtractBaseUrl(url) == url
  {
    match RFindChar(url, '/')
    case None =>
    case Some(k) =>
      assert url[..k] + "/" == url[..k + 1];
  }

  // ---------------------------------------------------------------------
  // Segment URLs and file names
  // ---------------------------------------------------------------------

  /// The URL fetched for a segment URI: absolute "http" URIs verbatim,
  /// anything else appended to the base with exactly one '/' between.
  function ResolveSegmentUrl(baseUrl: string, uri: string): (r: string)
  {
    if StartsWith(uri, "http") then uri
    else
      var withSlash := if StartsWith(uri, "/") then uri else "/" + uri;
      TrimEndChar(baseUrl, '/') + withSlash
  }

  /// A relative URI lands right after the base with its trailing slashes
  /// cut, behind exactly one '/'.
  lemma ResolveRelative(baseUrl: string, uri: string)
    requires !StartsWith(uri, "http")
    ensures var stem := TrimEndChar(baseUrl, '/');
      ResolveSegmentUrl(baseUrl, uri) == stem + "/" + (if StartsWith(uri, "/") then uri[1..] else uri)
      && (|stem| == 0 || stem[|stem| - 1] != '/')
  {
    if StartsWith(uri, "/") {
      var stem := TrimEndChar(baseUrl, '/');
      assert uri == "/" + uri[1..];
      assert stem + uri == stem + "/" + uri[1..];
    }
  }

  /// Trailing slashes on the base do not change the resolved URL.
  lemma ResolveIgnoresTrailingSlash(baseUrl: string, uri: string)
    ensures ResolveSegmentUrl(baseUrl + "/", uri) == ResolveSegmentUrl(baseUrl, uri)
  {
    assert (baseUrl + "/")[..|baseUrl + "/"| - 1] == baseUrl;
  }

  /// The local file name of a segment: the last '/'-piece of its URI.
  function SegmentFileName(uri: string): (r: string)
  {
    var pieces := Split(uri, '/');
    pieces[|pieces| - 1]
  }

  /// The file name is the text after the URI's last '/', so the
  /// "{sequence}.m4s" fallback is never reached.
  lemma SegmentFileNameIsLastComponent(uri: string)
    ensures SegmentFileName(uri) == AfterLast(uri, '/')
    ensures '/' !in SegmentFileName(uri) && EndsWith(uri, SegmentFileName(uri))
  {
    LastPieceIsAfterLast(uri, '/');
  }

  // ---------------------------------------------------------------------
  // Scheduling the segments of one media playlist
  // ---------------------------------------------------------------------

  /// A segment of the media playlist, as the playlist library hands it over.
  datatype MediaSegment = MediaSegment(uri: string, durationMs: nat)

  /// A download the round schedules.
  datatype Task = Task(url: string, sequence: nat, path: string, durationMs: nat)

  /// The tasks for entries `0 .. n` of a playlist whose first entry has
  /// sequence `mediaSequence`: entry `i` has sequence `mediaSequence + i`
  /// and is scheduled only when that is above `last`.
  function Planned(entries: seq<MediaSegment>, n: nat, mediaSequence: nat, last: nat, baseUrl: string, workDir: string): (tasks: seq<Task>)
    requires n <= |entries|
    ensures |tasks| <= n
    ensures forall k :: 0 <= k < |tasks| ==> last < tasks[k].sequence < mediaSequence + n
    decreases n
  {
    if n == 0 then []
    else
      var before := Planned(entries, n - 1, mediaSequence, last, baseUrl, workDir);
      var sequence := mediaSequence + n - 1;
      if sequence <= last then before
      else
        before + [TaskFor(entries[n - 1], sequence, baseUrl, workDir)]
  }

  /// The download of one playlist entry: its resolved URL, its sequence,
  /// and its file under the work directory named after the URI.
  function TaskFor(e: MediaSegment, sequence: nat, baseUrl: string, workDir: string): Task
  {
    Task(ResolveSegmentUrl(baseUrl, e.uri), sequence, JoinPath(workDir, SegmentFileName(e.uri)), e.durationMs)
  }

  /// One more entry: scheduled exactly when its sequence is above the
  /// running last sequence, which is never below `last` and, once moved,
  /// below the entry's sequence.
  lemma PlannedStep(entries: seq<MediaSegment>, i: nat, mediaSequence: nat, last: nat, running: nat, baseUrl: string, workDir: string)
    requires i < |entries|
    requires running >= last && (running == last || running < mediaSequence + i)
    ensures Planned(entries, i + 1, mediaSequence, last, baseUrl, workDir)
      == Planned(entries, i, mediaSequence, last, baseUrl, workDir)
         + (if mediaSequence + i > running then [TaskFor(entries[i], mediaSequence + i, baseUrl, workDir)] else [])
  {
  }

  function PlannedAll(entries: seq<MediaSegment>, mediaSequence: nat, last: nat, baseUrl: string, workDir: string): seq<Task>
  {
    Planned(entries, |entries|, mediaSequence, last, baseUrl, workDir)
  }

  /// The running `last_sequence` after the round: the last scheduled
  /// sequence, or the old value when nothing was scheduled.
  function LastAfter(tasks: seq<Task>, last: nat): nat
  {
    if |tasks| > 0 then tasks[|tasks| - 1].sequence else last
  }

  /// Scheduled sequences rise strictly, one per playlist entry above `last`.
  lemma {:induction false} PlannedAscending(entries: seq<MediaSegment>, n: nat, mediaSequence: nat, last: nat, baseUrl: string, workDir: string)
    requires n <= |entries|
    ensures var tasks := Planned(entries, n, mediaSequence, last, baseUrl, workDir);
      (forall i, j :: 0 <= i < j < |tasks| ==> tasks[i].sequence < tasks[j].sequence)
      && |tasks| == (if mediaSequence + n <= last + 1 then 0
                     else if mediaSequence > last then n
                     else mediaSequence + n - last - 1)
    decreases n
  {
    if n > 0 {
      PlannedAscending(entries, n - 1, mediaSequence, last, baseUrl, workDir);
    }
  }

  /// Scheduling the same playlist again, from where the round left off,
  /// schedules nothing; and sequence 0 is never scheduled from `last == 0`.
  lemma {:induction false} ReplanSchedulesNothing(entries: seq<MediaSegment>, n: nat, mediaSequence: nat, last: nat, baseUrl: string, workDir: string)
    requires n <= |entries|
    ensures var tasks := Planned(entries, n, mediaSequence, last, baseUrl, workDir);
      Planned(entries, n, mediaSequence, LastAfter(tasks, last), baseUrl, workDir) == []
      && LastAfter(tasks, last) >= last
    decreases n
  {
    if n > 0 {
      var tasks := Planned(entries, n, mediaSequence, last, baseUrl, workDir);
      var before := Planned(entries, n - 1, mediaSequence, last, baseUrl, workDir);
      ReplanSchedulesNothing(entries, n - 1, mediaSequence, last, baseUrl, workDir);
      PlannedAscending(entries, n, mediaSequence, last, baseUrl, workDir);
      var after := LastAfter(tasks, last);
      if mediaSequence + n - 1 > last {
        assert after == mediaSequence + n - 1;
        NothingAbove(entries, n, mediaSequence, after, baseUrl, workDir);
      } else {
        assert tasks == before;
        NothingAbove(entries, n, mediaSequence, after, baseUrl, workDir);
      }
    }
  }

  lemma {:induction false} NothingAbove(entries: seq<MediaSegment>, n: nat, mediaSequence: nat, last: nat, baseUrl: string, workDir: string)
    requires n <= |entries| && mediaSequence + n <= last + 1
    ensures Planned(entries, n, mediaSequence, last, baseUrl, workDir) == []
    decreases n
  {
    if n > 0 {
      NothingAbove(entries, n - 1, mediaSequence, last, baseUrl, workDir);
    }
  }

  /// The scheduling loop of a round. `last_sequence` moves to each
  /// scheduled sequence as it goes; since sequences rise, comparing
  /// against the moving value skips exactly what comparing against the
  /// round's starting value does.
  method Schedule(entries: seq<MediaSegment>, mediaSequence: nat, last: nat, baseUrl: string, workDir: string)
    returns (newLast: nat, tasks: seq<Task>)
    ensures tasks == PlannedAll(entries, mediaSequence, last, baseUrl, workDir) && newLast == LastAfter(tasks, last)
  {
    tasks := [];
    newLast := last;
    var i := 0;
    while i < |entries|
      invariant 0 <= i <= |entries|
      invariant tasks == Planned(entries, i, mediaSequence, last, baseUrl, workDir)
      invariant newLast == LastAfter(tasks, last)
      invariant newLast >= last && (newLast == last || newLast < mediaSequence + i)
    {
      var sequence := mediaSequence + i;
      PlannedStep(entries, i, mediaSequence, last, newLast, baseUrl, workDir);
      if sequence > newLast {
        tasks := tasks + [TaskFor(entries[i], sequence, baseUrl, workDir)];
        newLast := sequence;
      }
      i := i + 1;
    }
  }

  /// What a spawned download comes back with.
  datatype FetchOutcome = Fetched(size: nat) | NotFound | Failed

  /// The outcomes of `tasks` that are successes, failures, and the bytes fetched.
  function Successes(tasks: seq<Task>, outcome: Task -> FetchOutcome): (r: nat)
    ensures r <= |tasks|
  {
    if |tasks| == 0 then 0
    else Successes(tasks[..|tasks| - 1], outcome) + (if outcome(tasks[|tasks| - 1]).Fetched? then 1 else 0)
  }

  function Failures(tasks: seq<Task>, outcome: Task -> FetchOutcome): (r: nat)
    ensures r + Successes(tasks, outcome) <= |tasks|
  {
    if |tasks| == 0 then 0
    else Failures(tasks[..|tasks| - 1], outcome) + (if outcome(tasks[|tasks| - 1]).Failed? then 1 else 0)
  }

  function BytesFetched(tasks: seq<Task>, outcome: Task -> FetchOutcome): nat
  {
    if |tasks| == 0 then 0
    else
      var last := match outcome(tasks[|tasks| - 1]) case Fetched(size) => size case _ => 0;
      BytesFetched(tasks[..|tasks| - 1], outcome) + last
  }

  /// The segments handed to the callback, in task order: the fetched ones.
  function Delivered(tasks: seq<Task>, outcome: Task -> FetchOutcome): (r: seq<(Task, nat)>)
    ensures |r| == Successes(tasks, outcome)
  {
    if |tasks| == 0 then []
    else
      var t := tasks[|tasks| - 1];
      Delivered(tasks[..|tasks| - 1], outcome) + (match outcome(t) case Fetched(size) => [(t, size)] case _ => [])
  }

  /// A 404 counts as neither success nor failure: successes and failures
  /// add up to the number of tasks exactly when no task came back 404.
  lemma {:induction false} OutcomesPartition(tasks: seq<Task>, outcome: Task -> FetchOutcome)
    ensures Successes(tasks, outcome) + Failures(tasks, outcome) == |tasks|
      <==> forall k :: 0 <= k < |tasks| ==> !outcome(tasks[k]).NotFound?
    decreases |tasks|
  {
    if |tasks| > 0 {
      var n := |tasks| - 1;
      OutcomesPartition(tasks[..n], outcome);
      assert forall k :: 0 <= k < n ==> tasks[..n][k] == tasks[k];
    }
  }

  /// The loop over the joined results of a round: each fetched segment
  /// counts as a success with its bytes and is handed over, each failed
  /// one counts as a failure, and a 404 counts as neither.
  method Tally(tasks: seq<Task>, outcome: Task -> FetchOutcome)
    returns (successes: nat, failures: nat, bytes: nat, delivered: seq<(Task, nat)>)
    ensures successes == Successes(tasks, outcome) && failures == Failures(tasks, outcome)
    ensures bytes == BytesFetched(tasks, outcome) && delivered == Delivered(tasks, outcome)
  {
    successes, failures, bytes, delivered := 0, 0, 0, [];
    var i := 0;
    while i < |tasks|
      invariant 0 <= i <= |tasks|
      invariant successes == Successes(tasks[..i], outcome) && failures == Failures(tasks[..i], outcome)
      invariant bytes == BytesFetched(tasks[..i], outcome) && delivered == Delivered(tasks[..i], outcome)
    {
      assert tasks[..i + 1][..i] == tasks[..i];
      match outcome(tasks[i]) {
        case Fetched(size) =>
          successes := successes + 1;
          bytes := bytes + size;
          delivered := delivered + [(tasks[i], size)];
        case NotFound =>
        case Failed =>
          failures := failures + 1;
      }
      i := i + 1;
    }
    assert tasks[..|tasks|] == tasks;
  }

  /// Every delivered segment was scheduled and fetched, in task order.
  lemma {:induction false} DeliveredAreFetched(tasks: seq<Task>, outcome: Task -> FetchOutcome, k: nat)
    requires k < |Delivered(tasks, outcome)|
    ensures Delivered(tasks, outcome)[k].0 in tasks
    ensures outcome(Delivered(tasks, outcome)[k].0) == Fetched(Delivered(tasks, outcome)[k].1)
    decreases |tasks|
  {
    var n := |tasks| - 1;
    var before := Delivered(tasks[..n], outcome);
    if k < |before| {
      DeliveredAreFetched(tasks[..n], outcome, k);
      assert before[k] == Delivered(tasks, outcome)[k];
    }
  }

  // ---------------------------------------------------------------------
  // The downloader
  // ---------------------------------------------------------------------

  class Downloader {
    var status: DownloadStatus
    var currentM3u8Url: Option<string>
    var baseUrl: string
    var stats: DownloadStats
    var workDir: string
    var parser: M3u8Parser.Parser

    /// Successes and failures never outnumber the segments counted.
    ghost predicate Counted()
      reads this
    {
      stats.successfulDownloads + stats.failedDownloads <= stats.totalSegments
    }

    ghost predicate Valid()
      reads this, parser
    {
      parser.Valid() && Counted()
    }

    constructor (dir: string)
      ensures Valid() && fresh(parser)
      ensures status == Idle && currentM3u8Url.None? && baseUrl == "" && stats == EMPTY_STATS && workDir == dir
    {
      status := Idle;
      currentM3u8Url := None;
      baseUrl := "";
      stats := EMPTY_STATS;
      workDir := dir;
      parser := new M3u8Parser.Parser();
    }

    /// The entry of `start`: refused while already downloading; otherwise
    /// the status becomes Downloading and the start time is recorded,
    /// then the variant URL is fetched. A failed fetch is returned with
    /// the status left at Downloading.
    method Start(now: int, master: Result<string>) returns (r: Result<()>)
      requires Valid()
      modifies this
      ensures Valid() && parser == old(parser)
      ensures old(status) == Downloading ==>
        (r.Err? && status == Downloading && currentM3u8Url == old(currentM3u8Url) && baseUrl == old(baseUrl) && stats == old(stats))
      ensures old(status) != Downloading ==>
        (status == Downloading && stats == old(stats).(startTime := Some(now))
         && (r.Ok? <==> master.Ok? && VariantUrl(Lines(master.value)).Some?))
    {
      if status == Downloading {
        return Err("分片下载器已在运行中");
      }
      status := Downloading;
      stats := stats.(startTime := Some(now));
      r := RefreshM3u8Url(master);
    }

    /// `stop`: only a running downloader returns to Idle.
    method Stop()
      modifies this
      ensures status == (if old(status) == Downloading then Idle else old(status))
      ensures currentM3u8Url == old(currentM3u8Url) && baseUrl == old(baseUrl) && stats == old(stats)
      ensures parser == old(parser) && workDir == old(workDir)
    {
      if status != Downloading {
        return;
      }
      status := Idle;
    }

    /// `refresh_m3u8_url` given the fetched master playlist: the first
    /// qualifying stream-inf variant, else the first direct ".m3u8" URL,
    /// becomes the current URL and sets the base; with neither, an error
    /// and nothing changes.
    method RefreshM3u8Url(master: Result<string>) returns (r: Result<()>)
      modifies this
      ensures status == old(status) && stats == old(stats) && parser == old(parser) && workDir == old(workDir)
      ensures master.Err? ==> r.Err? && currentM3u8Url == old(currentM3u8Url) && baseUrl == old(baseUrl)
      ensures master.Ok? ==>
        match VariantUrl(Lines(master.value))
        case None => r.Err? && currentM3u8Url == old(currentM3u8Url) && baseUrl == old(baseUrl)
        case Some(url) => r.Ok? && currentM3u8Url == Some(url) && baseUrl == BaseAfterVariant(old(baseUrl), url)
    {
      if master.Err? {
        return Err("获取HLS master playlist失败: " + master.error);
      }
      var lines := Lines(master.value);
      var i := 0;
      while i < |lines|
        invariant 0 <= i <= |lines|
        invariant FirstStreamInf(lines, 0) == FirstStreamInf(lines, i)
      {
        if StartsWith(lines[i], STREAM_INF_TAG) && i + 1 < |lines| {
          var variantUrl := Trim(lines[i + 1]);
          if Contains(variantUrl, ".m3u8") {
            assert IsStreamInfAt(lines, i);
            UseVariant(variantUrl);
            return Ok(());
          }
        }
        i := i + 1;
      }
      var j := 0;
      while j < |lines|
        invariant 0 <= j <= |lines|
        invariant FirstDirect(lines, 0) == FirstDirect(lines, j)
      {
        var line := Trim(lines[j]);
        if StartsWith(line, "http") && Contains(line, ".m3u8") {
          UseVariant(line);
          return Ok(());
        }
        j := j + 1;
      }
      return Err("无法从HLS master playlist中提取变体流URL");
    }

    method UseVariant(url: string)
      modifies this
      ensures currentM3u8Url == Some(url) && baseUrl == BaseAfterVariant(old(baseUrl), url)
      ensures status == old(status) && stats == old(stats) && parser == old(parser) && workDir == old(workDir)
    {
      currentM3u8Url := Some(url);
      var slash := RFindChar(url, '/');
      if slash.Some? {
        baseUrl := url[..slash.value + 1];
      }
    }

    /// One pass of the `start` loop over a media playlist: entries above
    /// `last` are scheduled in order (each counted), then each outcome is
    /// tallied and the fetched segments are handed over.
    method StartRound(entries: seq<MediaSegment>, mediaSequence: nat, last: nat, outcome: Task -> FetchOutcome)
      returns (newLast: nat, delivered: seq<(Task, nat)>)
      requires Valid()
      modifies this
      ensures Valid() && parser == old(parser)
      ensures var tasks := PlannedAll(entries, mediaSequence, last, baseUrl, workDir);
        newLast == LastAfter(tasks, last) && delivered == Delivered(tasks, outcome)
        && stats == old(stats).(
             totalSegments := old(stats.totalSegments) + |tasks|,
             successfulDownloads := old(stats.successfulDownloads) + Successes(tasks, outcome),
             failedDownloads := old(stats.failedDownloads) + Failures(tasks, outcome),
             totalBytes := old(stats.totalBytes) + BytesFetched(tasks, outcome))
      ensures status == old(status) && currentM3u8Url == old(currentM3u8Url) && baseUrl == old(baseUrl) && workDir == old(workDir)
    {
      var tasks;
      newLast, tasks := Schedule(entries, mediaSequence, last, baseUrl, workDir);
      stats := stats.(totalSegments := stats.totalSegments + |tasks|);
      delivered := Collect(tasks, outcome);
    }

    /// Tallies the joined results of the scheduled downloads into the counters.
    method Collect(tasks: seq<Task>, outcome: Task -> FetchOutcome) returns (delivered: seq<(Task, nat)>)
      requires parser.Valid() && stats.successfulDownloads + stats.failedDownloads + |tasks| <= stats.totalSegments
      modifies this
      ensures Valid() && parser == old(parser)
      ensures delivered == Delivered(tasks, outcome)
      ensures stats == old(stats).(
        successfulDownloads := old(stats.successfulDownloads) + Successes(tasks, outcome),
        failedDownloads := old(stats.failedDownloads) + Failures(tasks, outcome),
        totalBytes := old(stats.totalBytes) + BytesFetched(tasks, outcome))
      ensures status == old(status) && currentM3u8Url == old(currentM3u8Url) && baseUrl == old(baseUrl) && workDir == old(workDir)
    {
      var successes, failures, bytes;
      successes, failures, bytes, delivered := Tally(tasks, outcome);
      stats := stats.(
        successfulDownloads := stats.successfulDownloads + successes,
        failedDownloads := stats.failedDownloads + failures,
        totalBytes := stats.totalBytes + bytes);
    }

    /// `download_round`: without a current URL, or when the playlist cannot
    /// be fetched, an error and nothing changes; otherwise the parser's new
    /// segments are fetched one by one, each counted once in the total and
    /// once as a success or a failure.
    method DownloadRound(playlist: Result<string>, now: int, fetch: M3u8Parser.SegmentInfo -> Option<nat>)
      returns (r: Result<seq<(M3u8Parser.SegmentInfo, nat)>>)
      requires Valid()
      modifies this, parser
      ensures Valid() && parser == old(parser)
      ensures r.Ok? <==> old(currentM3u8Url).Some? && playlist.Ok?
      ensures r.Err? ==> stats == old(stats)
      ensures r.Ok? ==>
        var segs := NewSegments(old(parser.lastSequence), old(parser.segmentsCache), playlist.value, old(baseUrl), now);
        r.value == Fetches(segs, fetch) && RoundCounted(old(stats), stats, segs, fetch)
      ensures r.Err? ==>
        parser.lastSequence == old(parser.lastSequence) && parser.segmentsCache == old(parser.segmentsCache)
      ensures r.Ok? ==>
        var final := RoundScan(old(parser.lastSequence), old(parser.segmentsCache), playlist.value, old(baseUrl), now);
        parser.segmentsCache == final.cache && parser.lastSequence == LastSequenceAfter(old(parser.lastSequence), final.emitted)
      ensures status == old(status) && currentM3u8Url == old(currentM3u8Url) && baseUrl == old(baseUrl) && workDir == old(workDir)
    {
      if currentM3u8Url.None? {
        return Err("M3U8 URL未初始化");
      }
      if playlist.Err? {
        return Err(playlist.error);
      }
      var segments := ParseRound(playlist.value, now);
      var downloaded := FetchRound(segments, fetch);
      return Ok(downloaded);
    }

    /// The parse at the start of a round: the parser hands out the new
    /// segments of the playlist and moves its last sequence and cache.
    method ParseRound(content: string, now: int) returns (segments: seq<M3u8Parser.SegmentInfo>)
      requires Valid()
      modifies parser
      ensures Valid()
      ensures var final := RoundScan(old(parser.lastSequence), old(parser.segmentsCache), content, baseUrl, now);
        segments == final.emitted && parser.segmentsCache == final.cache
        && parser.lastSequence == LastSequenceAfter(old(parser.lastSequence), segments)
    {
      segments := parser.ParsePlaylist(content, baseUrl, now);
    }

    /// The loop of `download_round` over the new segments, with the
    /// counters `download_round` and `download_segment` keep.
    method FetchRound(segments: seq<M3u8Parser.SegmentInfo>, fetch: M3u8Parser.SegmentInfo -> Option<nat>)
      returns (downloaded: seq<(M3u8Parser.SegmentInfo, nat)>)
      requires Counted()
      modifies this
      ensures Counted()
      ensures downloaded == Fetches(segments, fetch) && RoundCounted(old(stats), stats, segments, fetch)
      ensures status == old(status) && currentM3u8Url == old(currentM3u8Url) && baseUrl == old(baseUrl)
      ensures workDir == old(workDir) && parser == old(parser)
    {
      var bytes;
      downloaded, bytes := FetchAll(segments, fetch);
      ghost var before := stats;
      stats := stats.(
        totalSegments := stats.totalSegments + |segments|,
        successfulDownloads := stats.successfulDownloads + |downloaded|,
        failedDownloads := stats.failedDownloads + (|segments| - |downloaded|),
        totalBytes := stats.totalBytes + bytes);
      CountsOfRound(before, stats, segments, fetch, downloaded, bytes);
    }
  }

  /// The segments a parser in the given state hands out for a playlist.
  function NewSegments(lastSequence: nat, cache: seq<nat>, content: string, baseUrl: string, now: int): seq<M3u8Parser.SegmentInfo>
  {
    RoundScan(lastSequence, cache, content, baseUrl, now).emitted
  }

  /// The parser's scan of one playlist, from its last sequence and cache.
  function RoundScan(lastSequence: nat, cache: seq<nat>, content: string, baseUrl: string, now: int): M3u8Parser.ScanState
  {
    M3u8Parser.Scan(M3u8Parser.ScanState(lastSequence + 1, 0, cache, []), Lines(content), baseUrl, now)
  }

  /// The last sequence the parser keeps after a scan: that of the last
  /// segment handed out, or the previous one when none was.
  function LastSequenceAfter(lastSequence: nat, emitted: seq<M3u8Parser.SegmentInfo>): nat
  {
    if |emitted| > 0 then emitted[|emitted| - 1].sequence else lastSequence
  }

  /// The fetching loop of `download_round`, in segment order;
  /// `download_segment` adds the size of every segment it fetches to the
  /// byte counter, which `bytes` accumulates.
  method FetchAll(segs: seq<M3u8Parser.SegmentInfo>, fetch: M3u8Parser.SegmentInfo -> Option<nat>)
    returns (downloaded: seq<(M3u8Parser.SegmentInfo, nat)>, bytes: nat)
    ensures downloaded == Fetches(segs, fetch)
    ensures bytes == SizeTotal(downloaded)
  {
    downloaded := [];
    bytes := 0;
    var i := 0;
    while i < |segs|
      invariant 0 <= i <= |segs|
      invariant downloaded == Fetches(segs[..i], fetch)
      invariant bytes == SizeTotal(downloaded)
    {
      assert segs[..i + 1][..i] == segs[..i];
      match fetch(segs[i]) {
        case Some(size) =>
          SizeTotalSnoc(downloaded, (segs[i], size));
          downloaded := downloaded + [(segs[i], size)];
          bytes := bytes + size;
        case None =>
      }
      i := i + 1;
    }
    assert segs[..|segs|] == segs;
  }

  /// The bytes of the fetched segments together.
  function SizeTotal(fs: seq<(M3u8Parser.SegmentInfo, nat)>): nat
  {
    if |fs| == 0 then 0 else SizeTotal(fs[..|fs| - 1]) + fs[|fs| - 1].1
  }

  lemma SizeTotalSnoc(fs: seq<(M3u8Parser.SegmentInfo, nat)>, f: (M3u8Parser.SegmentInfo, nat))
    ensures SizeTotal(fs + [f]) == SizeTotal(fs) + f.1
  {
    assert (fs + [f])[..|fs|] == fs;
  }

  /// The segments of a round that were fetched, with their sizes.
  function Fetches(segs: seq<M3u8Parser.SegmentInfo>, fetch: M3u8Parser.SegmentInfo -> Option<nat>): (r: seq<(M3u8Parser.SegmentInfo, nat)>)
    ensures |r| <= |segs|
  {
    if |segs| == 0 then []
    else
      var s := segs[|segs| - 1];
      Fetches(segs[..|segs| - 1], fetch) + (match fetch(s) case Some(size) => [(s, size)] case None => [])
  }

  /// The counters after a `download_round` over `segs`: every segment adds
  /// one to the total and one to exactly one of successes and failures, and
  /// every fetched segment adds its size to the byte counter.
  ghost predicate RoundCounted(before: DownloadStats, after: DownloadStats, segs: seq<M3u8Parser.SegmentInfo>, fetch: M3u8Parser.SegmentInfo -> Option<nat>)
  {
    after == before.(
      totalSegments := before.totalSegments + |segs|,
      successfulDownloads := before.successfulDownloads + |Fetches(segs, fetch)|,
      failedDownloads := before.failedDownloads + |segs| - |Fetches(segs, fetch)|,
      totalBytes := before.totalBytes + SizeTotal(Fetches(segs, fetch)))
  }

  /// The counter updates `DownloadRound` makes are those of `RoundCounted`.
  lemma CountsOfRound(before: DownloadStats, after: DownloadStats, segs: seq<M3u8Parser.SegmentInfo>, fetch: M3u8Parser.SegmentInfo -> Option<nat>,
                downloaded: seq<(M3u8Parser.SegmentInfo, nat)>, bytes: nat)
    requires downloaded == Fetches(segs, fetch) && bytes == SizeTotal(downloaded)
    requires after == before.(
      totalSegments := before.totalSegments + |segs|,
      successfulDownloads := before.successfulDownloads + |downloaded|,
      failedDownloads := before.failedDownloads + (|segs| - |downloaded|),
      totalBytes := before.totalBytes + bytes)
    ensures RoundCounted(before, after, segs, fetch)
  {
  }

  /// The byte total adds up across a concatenation.
  lemma {:induction false} SizeTotalConcat(a: seq<(M3u8Parser.SegmentInfo, nat)>, b: seq<(M3u8Parser.SegmentInfo, nat)>)
    ensures SizeTotal(a + b) == SizeTotal(a) + SizeTotal(b)
    decreases |b|
  {
    if |b| == 0 {
      assert a + b == a;
    } else {
      var b' := b[..|b| - 1];
      assert a + b == (a + b') + [b[|b| - 1]];
      assert b == b' + [b[|b| - 1]];
      SizeTotalSnoc(a + b', b[|b| - 1]);
      SizeTotalSnoc(b', b[|b| - 1]);
      SizeTotalConcat(a, b');
    }
  }

  /// Fetching two lists in turn fetches their concatenation.
  lemma {:induction false} FetchesConcat(a: seq<M3u8Parser.SegmentInfo>, b: seq<M3u8Parser.SegmentInfo>, fetch: M3u8Parser.SegmentInfo -> Option<nat>)
    ensures Fetches(a + b, fetch) == Fetches(a, fetch) + Fetches(b, fetch)
    decreases |b|
  {
    if |b| == 0 {
      assert a + b == a;
    } else {
      var b' := b[..|b| - 1];
      assert (a + b)[..|a + b| - 1] == a + b';
      assert (a + b)[|a + b| - 1] == b[|b| - 1];
      FetchesConcat(a, b', fetch);
    }
  }

  /// Counting round by round is counting the rounds' segments together:
  /// the totals, both outcome counters and the byte counter only add up.
  lemma RoundsCompose(before: DownloadStats, mid: DownloadStats, after: DownloadStats,
                      a: seq<M3u8Parser.SegmentInfo>, b: seq<M3u8Parser.SegmentInfo>, fetch: M3u8Parser.SegmentInfo -> Option<nat>)
    requires RoundCounted(before, mid, a, fetch) && RoundCounted(mid, after, b, fetch)
    ensures RoundCounted(before, after, a + b, fetch)
  {
    FetchesConcat(a, b, fetch);
    SizeTotalConcat(Fetches(a, fetch), Fetches(b, fetch));
  }
}
