/// The file downloader: single-stream downloads, ranged parallel downloads
/// that split a file into contiguous byte ranges, a fallback over several
/// URLs, and the size checks on what arrives. HTTP replies, the file system
/// and the configuration are inputs.
module Downloader {
  import opened Common

  const MIB: nat := 1024 * 1024

  /// Below this size a file is not split.
  const MIN_PARALLEL_SIZE: nat := 4 * MIB

  /// The size that bounds the number of pieces.
  const MIN_SEGMENT_SIZE: nat := MIB

  /// An inclusive byte range, as in a `Range: bytes=start-end` request.
  datatype Range = Range(start: nat, end: nat)

  /// The bytes a range request must deliver: `end - start + 1`, with the
  /// subtraction saturating at zero.
  function ExpectedLength(r: Range): nat
  {
    (if r.end >= r.start then r.end - r.start else 0) + 1
  }

  /// The number of pieces: as many as there are threads, but no more than
  /// the file holds started mebibytes, and at least one.
  function SegmentCount(total: nat, threads: nat): (n: nat)
    ensures n >= 1
    ensures n <= threads || n == 1
    ensures total >= 1 ==> n <= total
  {
    var maxSegments := (total + MIN_SEGMENT_SIZE - 1) / MIN_SEGMENT_SIZE;
    var n := if threads <= maxSegments then threads else maxSegments;
    if n >= 1 then n else 1
  }

  /// The ranges of a file of `total` bytes cut into `count` pieces: every
  /// piece `total / count` bytes long, the last one taking the remainder.
  function Ranges(total: nat, count: nat): (rs: seq<Range>)
    requires 1 <= count <= total
    ensures |rs| == count
  {
    var base := total / count;
    assert base >= 1 by { DivAtLeastOne(total, count); }
    seq(count, i requires 0 <= i < count => Piece(i, count, base, total))
  }

  /// Piece `i` of `count`, each `base` bytes long but the last.
  function Piece(i: nat, count: nat, base: nat, total: nat): Range
    requires base >= 1 && total >= 1
  {
    var start := i * base;
    if i == count - 1 then Range(start, total - 1) else Range(start, start + base - 1)
  }

  /// The piece loop of `fetch_parallel`: each piece starts where the
  /// previous one ended.
  method PartitionRanges(total: nat, count: nat) returns (ranges: seq<Range>)
    requires 1 <= count <= total
    ensures ranges == Ranges(total, count)
  {
    var base := total / count;
    assert base >= 1 by { DivAtLeastOne(total, count); }
    ranges := [];
    var start := 0;
    for i := 0 to count
      invariant |ranges| == i
      invariant i < count ==> start == i * base
      invariant forall k :: 0 <= k < i ==> ranges[k] == Ranges(total, count)[k]
    {
      var end := if i == count - 1 then total - 1 else start + base - 1;
      ranges := ranges + [Range(start, end)];
      start := end + 1;
      if i < count - 1 {
        assert start == (i + 1) * base;
      }
    }
  }

  lemma DivAtLeastOne(total: nat, count: nat)
    requires 1 <= count <= total
    ensures total / count >= 1
  {
  }

  // ---------------------------------------------------------------------
  // The ranges partition the file
  // ---------------------------------------------------------------------

  /// Each range starts right after the previous one ends.
  predicate Contiguous(rs: seq<Range>)
  {
    forall i :: 0 <= i < |rs| - 1 ==> rs[i + 1].start == rs[i].end + 1
  }

  /// No range is empty.
  predicate NonEmpty(rs: seq<Range>)
  {
    forall i :: 0 <= i < |rs| ==> rs[i].start <= rs[i].end
  }

  /// The bytes the ranges request, together.
  function TotalLength(rs: seq<Range>): nat
  {
    if |rs| == 0 then 0 else TotalLength(rs[..|rs| - 1]) + ExpectedLength(rs[|rs| - 1])
  }

  /// The ranges start at byte 0, end at the last byte, follow each other
  /// without gap or overlap, are never empty, and together request exactly
  /// the file.
  lemma RangesPartition(total: nat, count: nat)
    requires 1 <= count <= total
    ensures var rs := Ranges(total, count);
      && rs[0].start == 0 && rs[count - 1].end == total - 1
      && Contiguous(rs) && NonEmpty(rs)
      && TotalLength(rs) == total
  {
    var rs := Ranges(total, count);
    var base := total / count;
    DivAtLeastOne(total, count);
    assert (count - 1) * base + base <= total by {
      assert (count - 1) * base + base == count * base;
    }
    forall i | 0 <= i < count - 1
      ensures rs[i + 1].start == rs[i].end + 1
    {
      assert (i + 1) * base == i * base + base;
    }
    forall i | 0 <= i < count
      ensures rs[i].start <= rs[i].end
    {
      if i < count - 1 {
        assert rs[i] == Range(i * base, i * base + base - 1);
      } else {
        assert i * base <= (count - 1) * base;
      }
    }
    ContiguousLength(rs);
  }

  /// Contiguous, non-empty ranges request the bytes from the first start
  /// to the last end.
  lemma {:induction false} ContiguousLength(rs: seq<Range>)
    requires |rs| >= 1 && Contiguous(rs) && NonEmpty(rs)
    ensures TotalLength(rs) == rs[|rs| - 1].end - rs[0].start + 1
  {
    if |rs| > 1 {
      var init := rs[..|rs| - 1];
      assert Contiguous(init) by {
        forall i | 0 <= i < |init| - 1
          ensures init[i + 1].start == init[i].end + 1
        {
          assert init[i + 1] == rs[i + 1] && init[i] == rs[i];
        }
      }
      ContiguousLength(init);
    }
  }

  /// Contiguous, non-empty ranges never overlap.
  lemma {:induction false} ContiguousDisjoint(rs: seq<Range>, i: nat, j: nat)
    requires Contiguous(rs) && NonEmpty(rs)
    requires i < j < |rs|
    ensures rs[i].end < rs[j].start
    decreases j - i
  {
    if j > i + 1 {
      ContiguousDisjoint(rs, i, j - 1);
    }
  }

  // ---------------------------------------------------------------------
  // Ranged parallel download
  // ---------------------------------------------------------------------

  /// What the server answers to one range request.
  datatype RangeReply =
    | RangeFailed(message: string)
    | RangeAnswered(status: nat, received: nat)

  const PARTIAL_CONTENT: nat := 206

  /// `download_range_to_file`: the bytes of a range, which must come with
  /// status 206 and be exactly as many as the range asks for.
  function DownloadRange(r: Range, reply: RangeReply): (res: Result<nat>)
    ensures res.Ok? <==> reply == RangeAnswered(PARTIAL_CONTENT, ExpectedLength(r))
    ensures res.Ok? ==> res.value == ExpectedLength(r)
  {
    match reply
    case RangeFailed(message) => Err(message)
    case RangeAnswered(status, received) =>
      if status != PARTIAL_CONTENT then Err("Range响应异常")
      else if received != ExpectedLength(r) then Err("Range分片下载不完整")
      else Ok(received)
  }

  /// `try_join_all` followed by the sum: the first failed piece's error,
  /// or the bytes of all pieces.
  function JoinAll(rs: seq<Range>, download: Range -> RangeReply): (res: Result<nat>)
    ensures res.Ok? <==> forall i :: 0 <= i < |rs| ==> DownloadRange(rs[i], download(rs[i])).Ok?
    ensures res.Ok? ==> res.value == TotalLength(rs)
  {
    if |rs| == 0 then Ok(0)
    else
      match JoinAll(rs[..|rs| - 1], download)
      case Err(e) => Err(e)
      case Ok(sum) =>
        match DownloadRange(rs[|rs| - 1], download(rs[|rs| - 1]))
        case Err(e) => Err(e)
        case Ok(n) => Ok(sum + n)
  }

  /// What the preparation of a parallel download finds: the size and
  /// whether ranges are served (already combined from the HEAD request and
  /// the probe), and whether the directory and the file could be made.
  datatype ParallelSetup = ParallelSetup(dirReady: bool, sizeInfo: Result<(nat, bool)>, fileReady: bool)

  /// `fetch_parallel`, as a specification: the gates in the order they are
  /// checked, then the pieces.
  function ParallelOutcome(setup: ParallelSetup, threads: nat, download: Range -> RangeReply): Result<()>
  {
    if !setup.dirReady then Err("创建目录失败")
    else if setup.sizeInfo.Err? then Err(setup.sizeInfo.error)
    else
      var (total, rangeSupported) := setup.sizeInfo.value;
      if total == 0 then Err("无法获取文件大小")
      else if total < MIN_PARALLEL_SIZE then Err("文件过小，不启用分片下载")
      else if !rangeSupported then Err("服务器不支持Range分片下载")
      else
        var count := SegmentCount(total, threads);
        if count <= 1 then Err("分片数不足，跳过多线程下载")
        else if !setup.fileReady then Err("创建文件失败")
        else
          match JoinAll(Ranges(total, count), download)
          case Err(e) => Err(e)
          case Ok(downloaded) => if downloaded == total then Ok(()) else Err("分片下载大小不一致")
  }

  /// `fetch_parallel`: checks the gates, cuts the file into ranges and
  /// downloads them.
  method FetchParallel(setup: ParallelSetup, threads: nat, download: Range -> RangeReply) returns (r: Result<()>)
    ensures r == ParallelOutcome(setup, threads, download)
  {
    if !setup.dirReady {
      return Err("创建目录失败");
    }
    if setup.sizeInfo.Err? {
      return Err(setup.sizeInfo.error);
    }
    var (total, rangeSupported) := setup.sizeInfo.value;
    if total == 0 {
      return Err("无法获取文件大小");
    }
    if total < MIN_PARALLEL_SIZE {
      return Err("文件过小，不启用分片下载");
    }
    if !rangeSupported {
      return Err("服务器不支持Range分片下载");
    }
    var count := SegmentCount(total, threads);
    if count <= 1 {
      return Err("分片数不足，跳过多线程下载");
    }
    if !setup.fileReady {
      return Err("创建文件失败");
    }
    var ranges := PartitionRanges(total, count);
    match JoinAll(ranges, download) {
      case Err(e) =>
        r := Err(e);
      case Ok(downloaded) =>
        r := if downloaded == total then Ok(()) else Err("分片下载大小不一致");
    }
  }

  /// A parallel download succeeds exactly when every gate passes and every
  /// range comes back whole with status 206: the final size check never
  /// rejects pieces that each arrived whole.
  lemma ParallelSucceedsIffPiecesArrive(setup: ParallelSetup, threads: nat, download: Range -> RangeReply)
    ensures ParallelOutcome(setup, threads, download).Ok? <==>
      && setup.dirReady && setup.sizeInfo.Ok? && setup.fileReady
      && var (total, rangeSupported) := setup.sizeInfo.value;
      && total >= MIN_PARALLEL_SIZE && rangeSupported
      && SegmentCount(total, threads) > 1
      && var rs := Ranges(total, SegmentCount(total, threads));
      forall i :: 0 <= i < |rs| ==> download(rs[i]) == RangeAnswered(PARTIAL_CONTENT, ExpectedLength(rs[i]))
  {
    if setup.dirReady && setup.sizeInfo.Ok? {
      var (total, rangeSupported) := setup.sizeInfo.value;
      if total >= MIN_PARALLEL_SIZE && SegmentCount(total, threads) > 1 {
        RangesPartition(total, SegmentCount(total, threads));
      }
    }
  }

  /// Parallel download is attempted only for files of at least 4 MiB and
  /// more than one piece, which needs at least two threads.
  lemma ParallelNeedsTwoThreads(total: nat, threads: nat)
    requires SegmentCount(total, threads) > 1
    ensures threads >= 2 && total > MIN_SEGMENT_SIZE
  {
  }

  // ---------------------------------------------------------------------
  // Size and range support
  // ---------------------------------------------------------------------

  /// `parse_total_size_from_content_range`: the complete length after the
  /// last '/' of a `Content-Range` value (section 14.4 of RFC 9110).
  function ParseTotalSize(value: string): (r: Option<nat>)
    ensures r.Some? ==> r.value < U64_LIMIT
  {
    match RFindChar(value, '/')
    case None => None
    case Some(i) => ParseU64(value[i + 1..])
  }

  /// "bytes first-last/complete" yields the complete length.
  lemma ContentRangeTotal(unit: string, first: nat, last: nat, total: nat)
    requires '/' !in unit && total < U64_LIMIT
    ensures ParseTotalSize(unit + " " + NatToString(first) + "-" + NatToString(last) + "/" + NatToString(total)) == Some(total)
  {
    var digits := NatToString(total);
    var prefix := unit + " " + NatToString(first) + "-" + NatToString(last);
    var value := prefix + "/" + digits;
    assert '/' !in digits by { assert forall k :: 0 <= k < |digits| ==> '0' <= digits[k] <= '9'; }
    LastSlashBefore(prefix, digits);
    assert value[|prefix| + 1..] == digits;
    NatToStringParses(total);
  }

  lemma LastSlashBefore(prefix: string, tail: string)
    requires '/' !in tail
    ensures RFindChar(prefix + "/" + tail, '/') == Some(|prefix|)
    decreases |tail|
  {
    var s := prefix + "/" + tail;
    if |tail| == 0 {
      assert s[|s| - 1] == '/';
    } else {
      assert s[..|s| - 1] == prefix + "/" + tail[..|tail| - 1];
      LastSlashBefore(prefix, tail[..|tail| - 1]);
    }
  }

  /// An unknown complete length ("*") or a value without '/' gives none.
  lemma UnknownTotal(prefix: string)
    ensures ParseTotalSize(prefix + "/*").None?
    ensures '/' !in prefix ==> ParseTotalSize(prefix).None?
  {
    LastSlashBefore(prefix, "*");
    assert (prefix + "/*")[|prefix| + 1..] == "*";
  }

  /// The answer to the HEAD request: failed (or an error status), or its
  /// Content-Length and Accept-Ranges ("" when absent or not text).
  datatype HeadReply = HeadFailed | HeadAnswered(contentLength: Option<nat>, acceptRanges: string)

  /// The answer to the one-byte probe `Range: bytes=0-0`.
  datatype ProbeReply = ProbeFailed(message: string) | ProbeAnswered(status: nat, contentRange: Option<string>)

  /// `probe_range_support_and_size`.
  function Probe(reply: ProbeReply): Result<(bool, Option<nat>)>
  {
    match reply
    case ProbeFailed(message) => Err("Range探测请求失败: " + message)
    case ProbeAnswered(status, contentRange) =>
      if status == PARTIAL_CONTENT then
        Ok((true, if contentRange.Some? then ParseTotalSize(contentRange.value) else None))
      else Ok((false, None))
  }

  /// `get_size_and_range_support`: the HEAD answer first; the probe only
  /// when ranges or the size are still unknown. An unknown size is 0.
  function SizeAndRangeSupport(head: HeadReply, probe: ProbeReply): (r: Result<(nat, bool)>)
    ensures head.HeadAnswered? && head.contentLength.Some? && Contains(ToLower(head.acceptRanges), "bytes")
      ==> r == Ok((head.contentLength.value, true))
    ensures r.Err? ==> probe.ProbeFailed?
  {
    var size := if head.HeadAnswered? then head.contentLength else None;
    var ranges := head.HeadAnswered? && Contains(ToLower(head.acceptRanges), "bytes");
    if !ranges || size.None? then
      match Probe(probe)
      case Err(e) => Err(e)
      case Ok((probeSupported, probeSize)) =>
        var total := if size.None? then probeSize else size;
        Ok((if total.Some? then total.value else 0, ranges || probeSupported))
    else Ok((size.value, ranges))
  }

  // ---------------------------------------------------------------------
  // Single-stream download and the fallbacks
  // ---------------------------------------------------------------------

  /// What a plain GET produces: a failure (directory, file, request or
  /// status), or the announced length and the bytes written.
  datatype SingleReply = SingleFailed(message: string) | SingleBody(contentLength: Option<nat>, received: nat)

  /// `fetch_single`: at least the announced length must arrive; without a
  /// Content-Length any amount is accepted.
  function FetchSingle(reply: SingleReply): (r: Result<()>)
    ensures r.Ok? <==> reply.SingleBody? && (reply.contentLength.None? || reply.received >= reply.contentLength.value)
  {
    match reply
    case SingleFailed(message) => Err(message)
    case SingleBody(contentLength, received) =>
      var expected := if contentLength.Some? then contentLength.value else 0;
      if received >= expected then Ok(()) else Err("received fewer bytes than expected")
  }

  /// `fetch`: the parallel download when it is enabled with more than one
  /// thread, and the single-stream download when that is not tried or
  /// fails.
  function Fetch(enabled: bool, threads: nat, parallel: Result<()>, single: Result<()>): (r: Result<()>)
    ensures r.Ok? <==> (enabled && threads > 1 && parallel.Ok?) || single.Ok?
    ensures !(enabled && threads > 1) ==> r == single
  {
    if enabled && threads > 1 && parallel.Ok? then Ok(()) else single
  }

  /// The index of the first URL whose download succeeds, if any.
  function FirstSuccess(urls: seq<string>, fetch: string -> Result<()>): (r: Option<nat>)
    ensures r.Some? ==> (r.value < |urls| && fetch(urls[r.value]).Ok?
                         && forall j :: 0 <= j < r.value ==> fetch(urls[j]).Err?)
    ensures r.None? ==> forall j :: 0 <= j < |urls| ==> fetch(urls[j]).Err?
  {
    if |urls| == 0 then None
    else if fetch(urls[0]).Ok? then Some(0)
    else match FirstSuccess(urls[1..], fetch)
      case None => None
      case Some(i) => Some(i + 1)
  }

  /// The context `fetch_with_fallback` puts on its error.
  const DOWNLOAD_CONTEXT: string := "failed to download from "

  /// The URLs in Rust's debug format: quoted, comma-separated, in brackets.
  function DebugList(urls: seq<string>): (r: string)
    ensures |r| >= 2 && r[0] == '[' && r[|r| - 1] == ']'
  {
    "[" + DebugItems(urls) + "]"
  }

  function DebugItems(urls: seq<string>): string
  {
    if |urls| == 0 then ""
    else if |urls| == 1 then "\"" + urls[0] + "\""
    else "\"" + urls[0] + "\", " + DebugItems(urls[1..])
  }

  /// An error with `with_context` added, in the alternate display
  /// format: the context, then the cause.
  function WithContext(context: string, cause: string): (r: string)
    ensures |r| == |context| + 2 + |cause|
    ensures r[..|context|] == context && r[|context| + 2..] == cause
  {
    context + ": " + cause
  }

  /// `fetch_with_fallback`: tries the URLs in order and stops at the first
  /// that downloads; when all fail, the last error is reported under the
  /// list of URLs tried.
  method FetchWithFallback(urls: seq<string>, fetch: string -> Result<()>) returns (r: Result<()>, ghost attempts: nat)
    ensures urls == [] ==> r == Err("no urls provided")
    ensures r.Ok? <==> FirstSuccess(urls, fetch).Some?
    ensures FirstSuccess(urls, fetch).Some? ==> attempts == FirstSuccess(urls, fetch).value + 1
    ensures urls != [] && r.Err? ==>
              attempts == |urls|
              && r == Err(WithContext(DOWNLOAD_CONTEXT + DebugList(urls), fetch(urls[|urls| - 1]).error))
  {
    if |urls| == 0 {
      return Err("no urls provided"), 0;
    }
    var lastError: Option<string> := None;
    var i := 0;
    while i < |urls|
      invariant 0 <= i <= |urls|
      invariant forall j :: 0 <= j < i ==> fetch(urls[j]).Err?
      invariant i > 0 <==> lastError.Some?
      invariant i > 0 ==> fetch(urls[i - 1]) == Err(lastError.value)
    {
      match fetch(urls[i]) {
        case Ok(_) =>
          FirstSuccessAt(urls, fetch, i);
          return Ok(()), i + 1;
        case Err(e) =>
          lastError := Some(e);
      }
      i := i + 1;
    }
    NoSuccess(urls, fetch);
    match lastError {
      case Some(e) =>
        r := Err(WithContext(DOWNLOAD_CONTEXT + DebugList(urls), e));
      case None =>
        r := Err("no urls to try");
    }
    attempts := |urls|;
  }

  lemma {:induction false} FirstSuccessAt(urls: seq<string>, fetch: string -> Result<()>, i: nat)
    requires i < |urls| && fetch(urls[i]).Ok?
    requires forall j :: 0 <= j < i ==> fetch(urls[j]).Err?
    ensures FirstSuccess(urls, fetch) == Some(i)
    decreases i
  {
    if i > 0 {
      assert fetch(urls[0]).Err?;
      assert urls[1..][i - 1] == urls[i];
      FirstSuccessAt(urls[1..], fetch, i - 1);
    }
  }

  lemma NoSuccess(urls: seq<string>, fetch: string -> Result<()>)
    requires forall j :: 0 <= j < |urls| ==> fetch(urls[j]).Err?
    ensures FirstSuccess(urls, fetch).None?
  {
  }

  // ---------------------------------------------------------------------
  // Media checks before merging
  // ---------------------------------------------------------------------

  /// What `ffprobe` produced: it could not be run, or its exit status and
  /// its output.
  datatype ProbeRun = ProbeMissing | ProbeRan(success: bool, stdout: string)

  /// `validate_media_file`: an unreadable, empty or sub-kilobyte file is
  /// rejected; so is one ffprobe fails on or finds no streams in. Without
  /// ffprobe only the size is checked.
  function ValidateMedia(size: Option<nat>, probe: ProbeRun): (r: Result<()>)
    ensures r.Ok? ==> size.Some? && size.value >= 1024
    ensures size.Some? && size.value >= 1024 && probe.ProbeMissing? ==> r.Ok?
  {
    if size.None? then Err("无法读取文件元数据")
    else if size.value == 0 then Err("文件为空")
    else if size.value < 1024 then Err("文件过小，可能损坏")
    else match probe
      case ProbeMissing => Ok(())
      case ProbeRan(success, stdout) =>
        if !success then Err("文件格式验证失败")
        else if ByteLen(stdout) < 50 || !Contains(stdout, "streams") then Err("文件缺少有效的媒体流信息")
        else Ok(())
  }
}
