/// The segment store of a segmented live recording (`SegmentManager`): the
/// list of downloaded and failed segments, its statistics, the cleanup
/// policies, the local HLS playlist (RFC 8216) and the `segments.log`
/// journal with one `seq|url|duration|size|timestamp|OK` line per segment.
module SegmentManager {
  import opened Common
  import M3u8Parser
  import LiveConfig

  const MIB: nat := 1024 * 1024

  /// One segment as recorded; durations are in milliseconds.
  datatype SegmentRecord = SegmentRecord(
    url: string,
    sequence: nat,
    durationMs: nat,
    size: nat,
    timestamp: int,
    filePath: string,
    downloaded: bool)

  datatype SegmentStats = SegmentStats(
    totalSegments: nat,
    downloadedSegments: nat,
    totalDurationMs: nat,
    totalSize: nat,
    startTimestamp: Option<int>,
    endTimestamp: Option<int>)

  const EMPTY_STATS := SegmentStats(0, 0, 0, 0, None, None)

  // ---------------------------------------------------------------------
  // Statistics
  // ---------------------------------------------------------------------

  function CountDownloaded(segs: seq<SegmentRecord>): (n: nat)
    ensures n <= |segs|
  {
    if |segs| == 0 then 0
    else CountDownloaded(segs[..|segs| - 1]) + (if segs[|segs| - 1].downloaded then 1 else 0)
  }

  function DownloadedSize(segs: seq<SegmentRecord>): nat
  {
    if |segs| == 0 then 0
    else DownloadedSize(segs[..|segs| - 1]) + (if segs[|segs| - 1].downloaded then segs[|segs| - 1].size else 0)
  }

  function DownloadedDuration(segs: seq<SegmentRecord>): nat
  {
    if |segs| == 0 then 0
    else DownloadedDuration(segs[..|segs| - 1]) + (if segs[|segs| - 1].downloaded then segs[|segs| - 1].durationMs else 0)
  }

  /// The statistics `update_stats` computes from the list.
  function StatsOf(segs: seq<SegmentRecord>): (st: SegmentStats)
    ensures st.totalSegments == |segs| && st.downloadedSegments <= st.totalSegments
    ensures st.startTimestamp.Some? <==> |segs| > 0
    ensures st.endTimestamp.Some? <==> |segs| > 0
  {
    SegmentStats(
      |segs|,
      CountDownloaded(segs),
      DownloadedDuration(segs),
      DownloadedSize(segs),
      if |segs| > 0 then Some(segs[0].timestamp) else None,
      if |segs| > 0 then Some(segs[|segs| - 1].timestamp) else None)
  }

  /// Appending a record moves the statistics by that record alone: a
  /// failed record changes only the count and the end timestamp.
  lemma StatsOfAppend(segs: seq<SegmentRecord>, r: SegmentRecord)
    ensures var before := StatsOf(segs); var after := StatsOf(segs + [r]);
      after.totalSegments == before.totalSegments + 1
      && after.downloadedSegments == before.downloadedSegments + (if r.downloaded then 1 else 0)
      && after.totalSize == before.totalSize + (if r.downloaded then r.size else 0)
      && after.totalDurationMs == before.totalDurationMs + (if r.downloaded then r.durationMs else 0)
      && after.startTimestamp == (if |segs| == 0 then Some(r.timestamp) else before.startTimestamp)
      && after.endTimestamp == Some(r.timestamp)
  {
    assert (segs + [r])[..|segs|] == segs;
  }

  /// Records that were not downloaded contribute nothing but their count:
  /// wherever a failed record sits in the list, taking it out leaves the
  /// downloaded count, `total_size` and the total duration as they are.
  lemma {:induction false} FailedRecordAddsNothing(a: seq<SegmentRecord>, r: SegmentRecord, b: seq<SegmentRecord>)
    requires !r.downloaded
    ensures CountDownloaded(a + [r] + b) == CountDownloaded(a + b)
    ensures DownloadedSize(a + [r] + b) == DownloadedSize(a + b)
    ensures DownloadedDuration(a + [r] + b) == DownloadedDuration(a + b)
    decreases |b|
  {
    if |b| == 0 {
      assert a + [r] + b == a + [r] && a + b == a;
      assert (a + [r])[..|a|] == a;
    } else {
      var b' := b[..|b| - 1];
      var x := b[|b| - 1];
      FailedRecordAddsNothing(a, r, b');
      assert (a + [r] + b)[..|a + [r] + b| - 1] == a + [r] + b' && (a + [r] + b)[|a + [r] + b| - 1] == x;
      assert (a + b)[..|a + b| - 1] == a + b' && (a + b)[|a + b| - 1] == x;
    }
  }

  // ---------------------------------------------------------------------
  // Local playlist
  // ---------------------------------------------------------------------

  /// The longest downloaded duration, in milliseconds.
  function MaxDownloadedDuration(segs: seq<SegmentRecord>): (m: nat)
    ensures forall i :: 0 <= i < |segs| && segs[i].downloaded ==> segs[i].durationMs <= m
    ensures m == 0 || exists i :: 0 <= i < |segs| && segs[i].downloaded && segs[i].durationMs == m
  {
    if |segs| == 0 then 0
    else
      var rest := MaxDownloadedDuration(segs[..|segs| - 1]);
      var last := segs[|segs| - 1];
      if last.downloaded && last.durationMs > rest then last.durationMs else rest
  }

  /// `#EXT-X-TARGETDURATION`: the longest downloaded duration rounded up
  /// to whole seconds.
  function TargetDuration(segs: seq<SegmentRecord>): (t: nat)
    ensures forall i :: 0 <= i < |segs| && segs[i].downloaded ==> segs[i].durationMs <= t * 1000
    ensures t > 0 ==> exists i :: 0 <= i < |segs| && segs[i].downloaded && segs[i].durationMs > (t - 1) * 1000
  {
    (MaxDownloadedDuration(segs) + 999) / 1000
  }

  const EXTINF := "#EXTINF:"
  const END_LIST := "#EXT-X-ENDLIST"

  /// The `#EXTINF` tag of a record's duration, to the millisecond.
  function ExtInf(durationMs: nat): string
  {
    EXTINF + FormatMillis3(durationMs) + ","
  }

  /// The lines of one record: for a downloaded record its `#EXTINF` tag
  /// and, when its path has one, its file name; nothing otherwise.
  function Entry(r: SegmentRecord): seq<string>
  {
    if !r.downloaded then []
    else [ExtInf(r.durationMs)] + (match FileName(r.filePath) case Some(name) => [name] case None => [])
  }

  /// The entries of the records, in order.
  function SegmentLines(segs: seq<SegmentRecord>): seq<string>
  {
    if |segs| == 0 then [] else Entry(segs[0]) + SegmentLines(segs[1..])
  }

  /// The playlist as a list of lines.
  function PlaylistLines(segs: seq<SegmentRecord>, isLive: bool): (lines: seq<string>)
    ensures |lines| >= 3 && lines[0] == "#EXTM3U" && lines[1] == "#EXT-X-VERSION:3"
    ensures lines[2] == (if isLive then "#EXT-X-PLAYLIST-TYPE:EVENT" else "#EXT-X-PLAYLIST-TYPE:VOD")
    ensures |PlaylistHead(segs, isLive)| <= |lines| && lines[..|PlaylistHead(segs, isLive)|] == PlaylistHead(segs, isLive)
    ensures !isLive ==> lines[|lines| - 1] == END_LIST
  {
    var head := PlaylistHead(segs, isLive);
    var lines := head + (SegmentLines(segs) + (if isLive then [] else [END_LIST]));
    assert lines[..|head|] == head;
    lines
  }

  /// The tags before the segments: version, playlist type, target
  /// duration (exactly when positive) and media sequence (the first
  /// record's, exactly when there is a record). None of them is an
  /// `#EXTINF` tag.
  function PlaylistHead(segs: seq<SegmentRecord>, isLive: bool): (head: seq<string>)
    ensures |head| == 3 + (if TargetDuration(segs) > 0 then 1 else 0) + (if |segs| > 0 then 1 else 0)
    ensures TargetDuration(segs) > 0 ==> head[3] == "#EXT-X-TARGETDURATION:" + NatToString(TargetDuration(segs))
    ensures |segs| > 0 ==> head[|head| - 1] == "#EXT-X-MEDIA-SEQUENCE:" + NatToString(segs[0].sequence)
    ensures forall i :: 0 <= i < |head| ==> IsTag(head[i]) && !StartsWith(head[i], EXTINF) && head[i] != END_LIST
  {
    var target := TargetDuration(segs);
    var fixed := ["#EXTM3U", "#EXT-X-VERSION:3", if isLive then "#EXT-X-PLAYLIST-TYPE:EVENT" else "#EXT-X-PLAYLIST-TYPE:VOD"];
    var targetLine := if target > 0 then ["#EXT-X-TARGETDURATION:" + NatToString(target)] else [];
    var sequenceLine := if |segs| > 0 then ["#EXT-X-MEDIA-SEQUENCE:" + NatToString(segs[0].sequence)] else [];
    assert forall i :: 0 <= i < |fixed| ==> IsTag(fixed[i]) && !StartsWith(fixed[i], EXTINF) && fixed[i] != END_LIST by {
      assert "#EXTM3U"[4] != EXTINF[4];
      assert "#EXT-X-VERSION:3"[4] != EXTINF[4];
      assert "#EXT-X-PLAYLIST-TYPE:EVENT"[4] != EXTINF[4];
      assert "#EXT-X-PLAYLIST-TYPE:VOD"[4] != EXTINF[4];
      assert |"#EXT-X-PLAYLIST-TYPE:EVENT"| != |END_LIST| && |"#EXT-X-PLAYLIST-TYPE:VOD"| != |END_LIST|;
    }
    PlainTag("#EXT-X-TARGETDURATION:", NatToString(target));
    PlainTag("#EXT-X-MEDIA-SEQUENCE:", if |segs| > 0 then NatToString(segs[0].sequence) else "");
    fixed + targetLine + sequenceLine
  }

  /// `generate_m3u8`.
  function GenerateM3u8(segs: seq<SegmentRecord>, isLive: bool): string
  {
    Unlines(PlaylistLines(segs, isLive))
  }

  /// A line a player reads as a tag rather than a URI.
  predicate IsTag(line: string)
  {
    |line| > 0 && line[0] == '#'
  }

  /// A `#EXT-X-` tag with a digit-free name is neither `#EXTINF` nor the
  /// end-list tag.
  lemma PlainTag(tag: string, value: string)
    requires |tag| > 7 && tag[..7] == "#EXT-X-" && tag[|tag| - 1] == ':'
    ensures IsTag(tag + value) && !StartsWith(tag + value, EXTINF) && tag + value != END_LIST
  {
    assert (tag + value)[0] == tag[0] == '#';
    assert (tag + value)[4] == tag[4] == '-' != EXTINF[4];
    if |tag + value| == |END_LIST| {
      assert forall i :: 0 <= i < |END_LIST| ==> END_LIST[i] != ':';
      assert (tag + value)[|tag| - 1] != END_LIST[|tag| - 1];
    }
  }

  /// The `#EXTINF` tags among `lines`, in order.
  function InfLines(lines: seq<string>): seq<string>
  {
    if |lines| == 0 then []
    else (if StartsWith(lines[0], EXTINF) then [lines[0]] else []) + InfLines(lines[1..])
  }

  /// The URI lines among `lines` (those that are not tags), in order.
  function UriLines(lines: seq<string>): seq<string>
  {
    if |lines| == 0 then []
    else (if IsTag(lines[0]) then [] else [lines[0]]) + UriLines(lines[1..])
  }

  /// The `#EXTINF` tags the downloaded records call for, in order.
  function DownloadedInfs(segs: seq<SegmentRecord>): seq<string>
  {
    if |segs| == 0 then []
    else (if segs[0].downloaded then [ExtInf(segs[0].durationMs)] else []) + DownloadedInfs(segs[1..])
  }

  /// The file names of the downloaded records that have one, in order.
  function DownloadedNames(segs: seq<SegmentRecord>): seq<string>
  {
    if |segs| == 0 then []
    else
      (if segs[0].downloaded then match FileName(segs[0].filePath) case Some(name) => [name] case None => [] else [])
      + DownloadedNames(segs[1..])
  }

  /// Segment files whose names a player cannot mistake for a tag.
  predicate PlainNames(segs: seq<SegmentRecord>)
  {
    forall i :: 0 <= i < |segs| ==> FileName(segs[i].filePath).None? || !IsTag(FileName(segs[i].filePath).value)
  }

  lemma {:induction false} InfLinesConcat(a: seq<string>, b: seq<string>)
    ensures InfLines(a + b) == InfLines(a) + InfLines(b)
    decreases |a|
  {
    if |a| == 0 {
      assert a + b == b;
    } else {
      assert (a + b)[0] == a[0] && (a + b)[1..] == a[1..] + b;
      InfLinesConcat(a[1..], b);
    }
  }

  lemma {:induction false} UriLinesConcat(a: seq<string>, b: seq<string>)
    ensures UriLines(a + b) == UriLines(a) + UriLines(b)
    decreases |a|
  {
    if |a| == 0 {
      assert a + b == b;
    } else {
      assert (a + b)[0] == a[0] && (a + b)[1..] == a[1..] + b;
      UriLinesConcat(a[1..], b);
    }
  }

  /// Lines that are all tags other than `#EXTINF` contribute nothing to
  /// either list.
  lemma {:induction false} OtherTagsFiltered(lines: seq<string>)
    requires forall i :: 0 <= i < |lines| ==> IsTag(lines[i]) && !StartsWith(lines[i], EXTINF)
    ensures InfLines(lines) == [] && UriLines(lines) == []
    decreases |lines|
  {
    if |lines| > 0 {
      OtherTagsFiltered(lines[1..]);
    }
  }

  /// The end-list tag is neither an `#EXTINF` tag nor a URI line.
  lemma EndListFiltered()
    ensures InfLines([END_LIST]) == [] && UriLines([END_LIST]) == []
  {
    assert END_LIST[..|EXTINF|][4] == '-';
    assert [END_LIST][1..] == [];
  }

  /// A record's entry: its `#EXTINF` tag, then its file name.
  lemma EntryFiltered(r: SegmentRecord)
    requires FileName(r.filePath).None? || !IsTag(FileName(r.filePath).value)
    ensures InfLines(Entry(r)) == (if r.downloaded then [ExtInf(r.durationMs)] else [])
    ensures UriLines(Entry(r)) == (if r.downloaded then match FileName(r.filePath) case Some(name) => [name] case None => [] else [])
  {
    if r.downloaded {
      var line := ExtInf(r.durationMs);
      assert line == EXTINF + (FormatMillis3(r.durationMs) + ",");
      assert line[..|EXTINF|] == EXTINF;
      assert IsTag(line) by { assert line[0] == EXTINF[0]; }
      match FileName(r.filePath)
      case Some(name) =>
        assert Entry(r) == [line, name];
        assert !StartsWith(name, EXTINF) by {
          assert !IsTag(name) && |name| > 0;
          assert |name| < |EXTINF| || name[..|EXTINF|][0] == name[0] != EXTINF[0];
        }
        assert [line, name][1..] == [name] && [name][1..] == [];
        assert InfLines([name]) == [] && UriLines([name]) == [name];
      case None =>
        assert Entry(r) == [line];
        assert [line][1..] == [];
    }
  }

  /// The segment part of the playlist lists, in order, one `#EXTINF` tag
  /// per downloaded record and the file names of those records.
  lemma {:induction false} SegmentLinesList(segs: seq<SegmentRecord>)
    requires PlainNames(segs)
    ensures InfLines(SegmentLines(segs)) == DownloadedInfs(segs)
    ensures UriLines(SegmentLines(segs)) == DownloadedNames(segs)
    decreases |segs|
  {
    if |segs| > 0 {
      assert PlainNames(segs[1..]) by {
        forall i | 0 <= i < |segs[1..]| ensures FileName(segs[1..][i].filePath).None? || !IsTag(FileName(segs[1..][i].filePath).value) {
          assert segs[1..][i] == segs[i + 1];
        }
      }
      SegmentLinesList(segs[1..]);
      EntryFiltered(segs[0]);
      InfLinesConcat(Entry(segs[0]), SegmentLines(segs[1..]));
      UriLinesConcat(Entry(segs[0]), SegmentLines(segs[1..]));
    }
  }

  /// `generate_m3u8` lists the downloaded records in order: its `#EXTINF`
  /// tags are theirs and its URI lines are their file names; failed records
  /// leave no trace. (A file name starting with '#' would itself read as a
  /// tag, hence the hypothesis.)
  lemma PlaylistListsDownloaded(segs: seq<SegmentRecord>, isLive: bool)
    requires PlainNames(segs)
    ensures InfLines(PlaylistLines(segs, isLive)) == DownloadedInfs(segs)
    ensures UriLines(PlaylistLines(segs, isLive)) == DownloadedNames(segs)
  {
    var head := PlaylistHead(segs, isLive);
    var tail: seq<string> := if isLive then [] else [END_LIST];
    var body := SegmentLines(segs);
    assert PlaylistLines(segs, isLive) == head + (body + tail);
    EndListFiltered();
    OtherTagsFiltered(head);
    SegmentLinesList(segs);
    InfLinesConcat(body, tail);
    InfLinesConcat(head, body + tail);
    UriLinesConcat(body, tail);
    UriLinesConcat(head, body + tail);
  }

  /// A live playlist never carries `#EXT-X-ENDLIST` as its last line, so
  /// players keep polling it; a finished one always does. Only a segment
  /// file named like the tag could make a live playlist look finished.
  lemma EndListExactlyWhenFinished(segs: seq<SegmentRecord>, isLive: bool)
    requires forall i :: 0 <= i < |segs| ==> FileName(segs[i].filePath) != Some(END_LIST)
    ensures var lines := PlaylistLines(segs, isLive);
      lines[|lines| - 1] == END_LIST <==> !isLive
  {
    if isLive {
      var head := PlaylistHead(segs, isLive);
      EntriesNotEndList(segs);
      LastNotEndList(head, SegmentLines(segs));
      assert PlaylistLines(segs, isLive) == head + SegmentLines(segs);
    }
  }

  lemma LastNotEndList(head: seq<string>, body: seq<string>)
    requires |head| > 0 && forall i :: 0 <= i < |head| ==> head[i] != END_LIST
    requires forall i :: 0 <= i < |body| ==> body[i] != END_LIST
    ensures (head + body)[|head + body| - 1] != END_LIST
  {
    if |body| == 0 {
      assert (head + body)[|head + body| - 1] == head[|head| - 1];
    } else {
      assert (head + body)[|head + body| - 1] == body[|body| - 1];
    }
  }

  lemma {:induction false} EntriesNotEndList(segs: seq<SegmentRecord>)
    requires forall i :: 0 <= i < |segs| ==> FileName(segs[i].filePath) != Some(END_LIST)
    ensures forall i :: 0 <= i < |SegmentLines(segs)| ==> SegmentLines(segs)[i] != END_LIST
    decreases |segs|
  {
    if |segs| > 0 {
      EntriesNotEndList(segs[1..]);
      EntryNotEndList(segs[0]);
      NoneInConcat(Entry(segs[0]), SegmentLines(segs[1..]), END_LIST);
    }
  }

  lemma EntryNotEndList(r: SegmentRecord)
    requires FileName(r.filePath) != Some(END_LIST)
    ensures forall i :: 0 <= i < |Entry(r)| ==> Entry(r)[i] != END_LIST
  {
    if r.downloaded {
      var line := ExtInf(r.durationMs);
      assert line == EXTINF + (FormatMillis3(r.durationMs) + ",");
      assert line[4] == 'I' != END_LIST[4];
    }
  }

  lemma NoneInConcat(a: seq<string>, b: seq<string>, x: string)
    requires forall i :: 0 <= i < |a| ==> a[i] != x
    requires forall i :: 0 <= i < |b| ==> b[i] != x
    ensures forall i :: 0 <= i < |a + b| ==> (a + b)[i] != x
  {
  }

  // ---------------------------------------------------------------------
  // The segments.log journal
  // ---------------------------------------------------------------------

  /// The six fields of a journal line.
  function LogFields(r: SegmentRecord): (fields: seq<string>)
    ensures |fields| == 6
  {
    [NatToString(r.sequence), r.url, FormatMillis3(r.durationMs), NatToString(r.size),
     IntToString(r.timestamp), if r.downloaded then "OK" else "FAILED"]
  }

  /// The journal line of one record (without its '\n').
  function LogLine(r: SegmentRecord): string
  {
    Join(LogFields(r), "|")
  }

  /// `parse_log_line`: exactly six '|'-separated fields; the file path is
  /// rebuilt from the last '/'-component of the URL.
  function ParseLogLine(workDir: string, line: string): (r: Result<SegmentRecord>)
    ensures r.Ok? ==> |Split(line, '|')| == 6
    ensures r.Ok? ==> (r.value.downloaded <==> Split(line, '|')[5] == "OK")
  {
    var parts := Split(line, '|');
    if |parts| != 6 then Err("日志行格式错误: " + line)
    else match RecordOfFields(workDir, parts)
      case Some(r) => Ok(r)
      case None => Err("日志行格式错误: " + line)
  }

  /// The record the six fields of a journal line describe, if all of its
  /// numbers parse.
  function RecordOfFields(workDir: string, parts: seq<string>): (r: Option<SegmentRecord>)
    requires |parts| == 6
    ensures r.Some? ==> (r.value.downloaded <==> parts[5] == "OK")
  {
    match (ParseU64(parts[0]), ParseSecondsMillis(parts[2]), ParseU64(parts[3]), ParseI64(parts[4]))
    case (Some(sequence), Some(duration), Some(size), Some(timestamp)) =>
      var url := parts[1];
      Some(SegmentRecord(url, sequence, duration, size, timestamp,
                         JoinPath(workDir, AfterLast(url, '/')), parts[5] == "OK"))
    case _ => None
  }

  /// What reading a record back from the journal gives: everything but the
  /// file path, which is rebuilt from the URL.
  function Reloaded(workDir: string, r: SegmentRecord): SegmentRecord
  {
    r.(filePath := JoinPath(workDir, AfterLast(r.url, '/')))
  }

  predicate Journalable(r: SegmentRecord)
  {
    '|' !in r.url && r.sequence < U64_LIMIT && r.size < U64_LIMIT && I64_MIN <= r.timestamp <= I64_MAX
  }

  lemma DigitsHaveNoBar(s: string)
    requires forall i :: 0 <= i < |s| ==> '0' <= s[i] <= '9'
    ensures '|' !in s
  {
  }

  lemma FormatMillis3HasNoBar(ms: nat)
    ensures '|' !in FormatMillis3(ms)
  {
    DigitsHaveNoBar(NatToString(ms / 1000));
    var p := PadNat(ms % 1000, 3);
    forall i | 0 <= i < |p| ensures p[i] != '|' {
      assert DigitIn(p[i], 10).Some?;
    }
  }

  lemma IntToStringHasNoBar(i: int)
    ensures '|' !in IntToString(i)
  {
    var digits := NatToString(if i < 0 then -i else i);
    DigitsHaveNoBar(digits);
    assert i < 0 ==> IntToString(i) == "-" + digits;
  }

  lemma LogFieldsSplit(r: SegmentRecord)
    requires '|' !in r.url
    ensures Split(LogLine(r), '|') == LogFields(r)
  {
    var fields := LogFields(r);
    DigitsHaveNoBar(NatToString(r.sequence));
    DigitsHaveNoBar(NatToString(r.size));
    FormatMillis3HasNoBar(r.durationMs);
    IntToStringHasNoBar(r.timestamp);
    forall i | 0 <= i < |fields| ensures '|' !in fields[i] {
    }
    SplitJoin(fields, '|');
  }

  /// Writing a record to the journal and parsing the line back recovers it
  /// (durations are kept to the millisecond), as long as its URL has no '|'.
  lemma LogLineRoundTrip(workDir: string, r: SegmentRecord)
    requires Journalable(r)
    ensures ParseLogLine(workDir, LogLine(r)) == Ok(Reloaded(workDir, r))
  {
    LogFieldsSplit(r);
    SequenceFieldParses(r);
    DurationFieldParses(r);
    SizeFieldParses(r);
    TimestampFieldParses(r);
    FieldsRoundTrip(workDir, r, Split(LogLine(r), '|'));
  }

  /// Each number field of a record parses back to its value.
  lemma SequenceFieldParses(r: SegmentRecord)
    requires r.sequence < U64_LIMIT
    ensures ParseU64(LogFields(r)[0]) == Some(r.sequence)
  {
    NatToStringParses(r.sequence);
  }

  lemma DurationFieldParses(r: SegmentRecord)
    ensures ParseSecondsMillis(LogFields(r)[2]) == Some(r.durationMs)
  {
    FormatMillis3Parses(r.durationMs);
  }

  lemma SizeFieldParses(r: SegmentRecord)
    requires r.size < U64_LIMIT
    ensures ParseU64(LogFields(r)[3]) == Some(r.size)
  {
    NatToStringParses(r.size);
  }

  lemma TimestampFieldParses(r: SegmentRecord)
    requires I64_MIN <= r.timestamp <= I64_MAX
    ensures ParseI64(LogFields(r)[4]) == Some(r.timestamp)
  {
    IntToStringParses(r.timestamp);
  }

  lemma FieldsRoundTrip(workDir: string, r: SegmentRecord, parts: seq<string>)
    requires |parts| == 6 && ParseU64(parts[0]) == Some(r.sequence) && parts[1] == r.url
    requires ParseSecondsMillis(parts[2]) == Some(r.durationMs) && ParseU64(parts[3]) == Some(r.size)
    requires ParseI64(parts[4]) == Some(r.timestamp) && (parts[5] == "OK" <==> r.downloaded)
    ensures RecordOfFields(workDir, parts) == Some(Reloaded(workDir, r))
  {
  }

  /// Each journal line, parsed.
  function ParseAll(workDir: string, lines: seq<string>): (rs: seq<Result<SegmentRecord>>)
    ensures |rs| == |lines|
  {
    seq(|lines|, k requires 0 <= k < |lines| => ParseLogLine(workDir, lines[k]))
  }

  /// The records among parse results, in order.
  function Oks(rs: seq<Result<SegmentRecord>>): seq<SegmentRecord>
  {
    if |rs| == 0 then [] else Oks(rs[..|rs| - 1]) + OkOf(rs[|rs| - 1])
  }

  function OkOf(r: Result<SegmentRecord>): seq<SegmentRecord>
  {
    match r case Ok(v) => [v] case Err(_) => []
  }

  lemma OksSnoc(rs: seq<Result<SegmentRecord>>, i: nat)
    requires i < |rs|
    ensures Oks(rs[..i + 1]) == Oks(rs[..i]) + OkOf(rs[i])
  {
    assert rs[..i + 1][..i] == rs[..i];
  }

  /// The records `load_existing_segments` keeps from journal lines: the
  /// lines that parse, in order.
  function LoadLines(workDir: string, lines: seq<string>): seq<SegmentRecord>
  {
    Oks(ParseAll(workDir, lines))
  }

  /// The journal lines of `recs`, in order.
  function LogLines(recs: seq<SegmentRecord>): (lines: seq<string>)
    ensures |lines| == |recs|
  {
    seq(|recs|, k requires 0 <= k < |recs| => LogLine(recs[k]))
  }

  function ReloadAll(workDir: string, recs: seq<SegmentRecord>): (out: seq<SegmentRecord>)
    ensures |out| == |recs|
  {
    seq(|recs|, k requires 0 <= k < |recs| => Reloaded(workDir, recs[k]))
  }

  /// A journal written record by record loads back as those records.
  lemma JournalRoundTrip(workDir: string, recs: seq<SegmentRecord>)
    requires forall i :: 0 <= i < |recs| ==> Journalable(recs[i])
    ensures LoadLines(workDir, LogLines(recs)) == ReloadAll(workDir, recs)
  {
    var rs := ParseAll(workDir, LogLines(recs));
    var out := ReloadAll(workDir, recs);
    forall k | 0 <= k < |rs|
      ensures rs[k] == Ok(out[k])
    {
      LogLineRoundTrip(workDir, recs[k]);
    }
    OksOfAllOk(rs, out);
  }

  /// When every parse succeeded, the records are exactly the parsed values.
  lemma {:induction false} OksOfAllOk(rs: seq<Result<SegmentRecord>>, vs: seq<SegmentRecord>)
    requires |rs| == |vs|
    requires forall k :: 0 <= k < |rs| ==> rs[k] == Ok(vs[k])
    ensures Oks(rs) == vs
    decreases |rs|
  {
    if |rs| > 0 {
      var n := |rs| - 1;
      OksOfAllOk(rs[..n], vs[..n]);
      assert vs == vs[..n] + [vs[n]];
    }
  }

  // ---------------------------------------------------------------------
  // Size-based cleanup, as a fold over the list
  // ---------------------------------------------------------------------

  /// State of the size-based cleanup loop: records kept, files removed,
  /// bytes freed.
  datatype SizeCleanup = SizeCleanup(kept: seq<SegmentRecord>, removedCount: nat, removedSize: nat)

  /// One record of the size-based cleanup: once enough bytes are freed
  /// everything is kept; before that a downloaded record whose file is
  /// removed is dropped, and any other record is kept.
  function SizeStep(st: SizeCleanup, r: SegmentRecord, excess: nat, removes: string -> bool): SizeCleanup
  {
    if st.removedSize >= excess then st.(kept := st.kept + [r])
    else if r.downloaded && removes(r.filePath) then
      st.(removedCount := st.removedCount + 1, removedSize := st.removedSize + r.size)
    else st.(kept := st.kept + [r])
  }

  function SizeFold(segs: seq<SegmentRecord>, excess: nat, removes: string -> bool): SizeCleanup
    decreases |segs|
  {
    if |segs| == 0 then SizeCleanup([], 0, 0)
    else SizeStep(SizeFold(segs[..|segs| - 1], excess, removes), segs[|segs| - 1], excess, removes)
  }

  /// The records of `segs` whose flag in `pick` is set, in order.
  function Picked(segs: seq<SegmentRecord>, pick: seq<bool>): seq<SegmentRecord>
    requires |pick| == |segs|
    decreases |segs|
  {
    if |segs| == 0 then []
    else Picked(segs[..|segs| - 1], pick[..|segs| - 1]) + (if pick[|segs| - 1] then [segs[|segs| - 1]] else [])
  }

  /// For each record, whether the size cleanup keeps it.
  function SizePick(segs: seq<SegmentRecord>, excess: nat, removes: string -> bool): (pick: seq<bool>)
    ensures |pick| == |segs|
    decreases |segs|
  {
    if |segs| == 0 then []
    else
      var n := |segs| - 1;
      var f0 := SizeFold(segs[..n], excess, removes);
      SizePick(segs[..n], excess, removes)
        + [!(f0.removedSize < excess && segs[n].downloaded && removes(segs[n].filePath))]
  }

  /// The size cleanup keeps an order-preserving part of the list: the
  /// records `SizePick` flags.
  lemma {:induction false} SizeFoldKeepsOrder(segs: seq<SegmentRecord>, excess: nat, removes: string -> bool)
    ensures SizeFold(segs, excess, removes).kept == Picked(segs, SizePick(segs, excess, removes))
    decreases |segs|
  {
    if |segs| > 0 {
      var n := |segs| - 1;
      SizeFoldKeepsOrder(segs[..n], excess, removes);
      assert SizePick(segs, excess, removes)[..n] == SizePick(segs[..n], excess, removes);
    }
  }

  /// Every record the size cleanup drops was downloaded and had its file
  /// removed.
  lemma SizeFoldDropsRemovable(segs: seq<SegmentRecord>, excess: nat, removes: string -> bool, i: nat)
    requires i < |segs| && !SizePick(segs, excess, removes)[i]
    ensures segs[i].downloaded && removes(segs[i].filePath)
    decreases |segs|
  {
    var n := |segs| - 1;
    if i < n {
      assert SizePick(segs, excess, removes)[i] == SizePick(segs[..n], excess, removes)[i];
      SizeFoldDropsRemovable(segs[..n], excess, removes, i);
    }
  }

  /// Each record is either kept or counted as removed.
  lemma {:induction false} SizeFoldCounts(segs: seq<SegmentRecord>, excess: nat, removes: string -> bool)
    ensures |SizeFold(segs, excess, removes).kept| + SizeFold(segs, excess, removes).removedCount == |segs|
    decreases |segs|
  {
    if |segs| > 0 {
      SizeFoldCounts(segs[..|segs| - 1], excess, removes);
    }
  }

  /// The bytes freed are those of downloaded records, and when they never
  /// reach the excess every removable downloaded record has been dropped.
  lemma {:induction false} SizeFoldFreedBytes(segs: seq<SegmentRecord>, excess: nat, removes: string -> bool)
    ensures SizeFold(segs, excess, removes).removedSize <= DownloadedSize(segs)
    ensures SizeFold(segs, excess, removes).removedSize < excess ==>
      SizeFold(segs, excess, removes).kept == Unremoved(segs, removes)
    decreases |segs|
  {
    if |segs| > 0 {
      SizeFoldFreedBytes(segs[..|segs| - 1], excess, removes);
    }
  }

  /// The records of `segs` whose file the size cleanup would not remove.
  function Unremoved(segs: seq<SegmentRecord>, removes: string -> bool): seq<SegmentRecord>
  {
    if |segs| == 0 then []
    else Unremoved(segs[..|segs| - 1], removes)
         + (if segs[|segs| - 1].downloaded && removes(segs[|segs| - 1].filePath) then [] else [segs[|segs| - 1]])
  }

  /// Nothing is dropped when there is no excess.
  lemma {:induction false} SizeFoldNoExcess(segs: seq<SegmentRecord>, removes: string -> bool)
    ensures SizeFold(segs, 0, removes) == SizeCleanup(segs, 0, 0)
    decreases |segs|
  {
    if |segs| > 0 {
      SizeFoldNoExcess(segs[..|segs| - 1], removes);
      assert segs[..|segs| - 1] + [segs[|segs| - 1]] == segs;
    }
  }

  /// The number of records among `segs` whose file the count cleanup removes.
  function CountRemoved(segs: seq<SegmentRecord>, removes: string -> bool): (n: nat)
    ensures n <= |segs|
  {
    if |segs| == 0 then 0
    else CountRemoved(segs[..|segs| - 1], removes)
         + (if segs[|segs| - 1].downloaded && removes(segs[|segs| - 1].filePath) then 1 else 0)
  }

  // ---------------------------------------------------------------------
  // Auto-merge decision
  // ---------------------------------------------------------------------

  /// `should_auto_merge`: a configuration is needed, merging must be due by
  /// duration, and after a first merge the newest segment must be at least
  /// the threshold past the previous merge.
  predicate AutoMergeDue(config: Option<LiveConfig.AutoMergeConfig>, stats: SegmentStats, lastMerge: Option<int>)
  {
    match config
    case None => false
    case Some(c) =>
      c.enabled && c.ShouldAutoMerge(stats.totalDurationMs) &&
      match lastMerge
      case None => true
      case Some(last) =>
        match stats.endTimestamp
        case None => false
        case Some(latest) => latest - last >= c.durationThreshold * 1000
  }

  /// Both directions of the decision, as the cases of the source.
  lemma AutoMergeDueCases(config: Option<LiveConfig.AutoMergeConfig>, stats: SegmentStats, lastMerge: Option<int>)
    ensures config.None? ==> !AutoMergeDue(config, stats, lastMerge)
    ensures config.Some? && lastMerge.None? ==>
      (AutoMergeDue(config, stats, lastMerge) <==> config.value.ShouldAutoMerge(stats.totalDurationMs))
    ensures config.Some? && lastMerge.Some? ==>
      (AutoMergeDue(config, stats, lastMerge) <==>
         config.value.ShouldAutoMerge(stats.totalDurationMs) && stats.endTimestamp.Some?
         && stats.endTimestamp.value - lastMerge.value >= config.value.durationThreshold * 1000)
  {
  }

  // ---------------------------------------------------------------------
  // The manager
  // ---------------------------------------------------------------------

  /// The file name of a segment that failed to download.
  function FailedSegmentName(sequence: nat): (r: string)
    ensures |r| >= 15 && r[..8] == "segment_" && r[|r| - 3..] == ".ts"
  {
    "segment_" + PadNat(sequence, 6) + ".ts"
  }

  class Manager {
    var segments: seq<SegmentRecord>
    var workDir: string
    var stats: SegmentStats
    var autoMergeConfig: Option<LiveConfig.AutoMergeConfig>
    var lastAutoMergeTimestamp: Option<int>
    /// Lines written to `segments.log`, oldest first.
    var journal: seq<string>

    /// `new`: the journal already on disk is loaded, then the statistics.
    constructor (dir: string, existing: seq<string>)
      ensures workDir == dir && journal == existing
      ensures segments == LoadLines(dir, existing) && stats == StatsOf(segments)
      ensures autoMergeConfig.None? && lastAutoMergeTimestamp.None?
    {
      workDir := dir;
      journal := existing;
      autoMergeConfig := None;
      lastAutoMergeTimestamp := None;
      segments := [];
      stats := EMPTY_STATS;
      new;
      LoadExistingSegments(existing);
    }

    method LoadExistingSegments(lines: seq<string>)
      modifies this
      ensures segments == old(segments) + LoadLines(workDir, lines)
      ensures stats == StatsOf(segments)
      ensures workDir == old(workDir) && journal == old(journal)
      ensures autoMergeConfig == old(autoMergeConfig) && lastAutoMergeTimestamp == old(lastAutoMergeTimestamp)
    {
      ghost var parsed := ParseAll(workDir, lines);
      var i := 0;
      while i < |lines|
        invariant 0 <= i <= |lines|
        invariant segments == old(segments) + Oks(parsed[..i])
        invariant workDir == old(workDir) && journal == old(journal)
        invariant autoMergeConfig == old(autoMergeConfig) && lastAutoMergeTimestamp == old(lastAutoMergeTimestamp)
      {
        OksSnoc(parsed, i);
        LoadLogLine(lines[i], parsed[i]);
        i := i + 1;
      }
      assert parsed[..|lines|] == parsed;
      UpdateStats();
    }

    /// One journal line: its record is appended when the line parses.
    method LoadLogLine(line: string, ghost expected: Result<SegmentRecord>)
      requires expected == ParseLogLine(workDir, line)
      modifies this
      ensures segments == old(segments) + OkOf(expected)
      ensures workDir == old(workDir) && journal == old(journal)
      ensures autoMergeConfig == old(autoMergeConfig) && lastAutoMergeTimestamp == old(lastAutoMergeTimestamp)
    {
      var parsed := ParseLogLine(workDir, line);
      if parsed.Ok? {
        segments := segments + [parsed.value];
      }
    }

    method UpdateStats()
      modifies this
      ensures stats == StatsOf(segments)
      ensures segments == old(segments) && workDir == old(workDir) && journal == old(journal)
      ensures autoMergeConfig == old(autoMergeConfig) && lastAutoMergeTimestamp == old(lastAutoMergeTimestamp)
    {
      stats := StatsOf(segments);
    }

    /// `write_segment_log`; `written` says whether the write succeeded.
    method WriteSegmentLog(r: SegmentRecord, written: bool) returns (ok: bool)
      modifies this
      ensures ok == written
      ensures journal == if written then old(journal) + [LogLine(r)] else old(journal)
      ensures segments == old(segments) && stats == old(stats) && workDir == old(workDir)
      ensures autoMergeConfig == old(autoMergeConfig) && lastAutoMergeTimestamp == old(lastAutoMergeTimestamp)
    {
      if written {
        journal := journal + [LogLine(r)];
      }
      ok := written;
    }

    /// `add_segment`: journal the record, append it as downloaded, refresh
    /// the statistics; a failed journal write changes nothing.
    method AddSegment(info: M3u8Parser.SegmentInfo, fileSize: nat, filePath: string, written: bool) returns (ok: bool)
      modifies this
      ensures ok == written
      ensures var r := SegmentRecord(info.url, info.sequence, info.durationMs, fileSize, info.timestamp, filePath, true);
        if written then
          segments == old(segments) + [r] && journal == old(journal) + [LogLine(r)] && stats == StatsOf(segments)
        else
          segments == old(segments) && journal == old(journal) && stats == old(stats)
      ensures workDir == old(workDir)
      ensures autoMergeConfig == old(autoMergeConfig) && lastAutoMergeTimestamp == old(lastAutoMergeTimestamp)
    {
      var record := SegmentRecord(info.url, info.sequence, info.durationMs, fileSize, info.timestamp, filePath, true);
      ok := WriteSegmentLog(record, written);
      if !ok {
        return;
      }
      segments := segments + [record];
      UpdateStats();
    }

    /// `mark_segment_failed`: journal and append a size-0 record that is
    /// not downloaded; the statistics are not refreshed.
    method MarkSegmentFailed(info: M3u8Parser.SegmentInfo, written: bool) returns (ok: bool)
      modifies this
      ensures ok == written
      ensures var r := SegmentRecord(info.url, info.sequence, info.durationMs, 0, info.timestamp,
                                     JoinPath(workDir, FailedSegmentName(info.sequence)), false);
        if written then segments == old(segments) + [r] && journal == old(journal) + [LogLine(r)]
        else segments == old(segments) && journal == old(journal)
      ensures stats == old(stats) && workDir == old(workDir)
      ensures autoMergeConfig == old(autoMergeConfig) && lastAutoMergeTimestamp == old(lastAutoMergeTimestamp)
    {
      var filePath := JoinPath(workDir, FailedSegmentName(info.sequence));
      var record := SegmentRecord(info.url, info.sequence, info.durationMs, 0, info.timestamp, filePath, false);
      ok := WriteSegmentLog(record, written);
      if !ok {
        return;
      }
      segments := segments + [record];
    }

    /// `cleanup_segments`: keep the newest `keepCount` records; `removes`
    /// says whether a file exists and is deleted.
    method CleanupSegments(keepCount: nat, removes: string -> bool) returns (removed: nat)
      modifies this
      ensures |old(segments)| <= keepCount ==>
        removed == 0 && segments == old(segments) && stats == old(stats)
      ensures |old(segments)| > keepCount ==>
        var toRemove := |old(segments)| - keepCount;
        segments == old(segments)[toRemove..] && |segments| == keepCount
        && removed == CountRemoved(old(segments)[..toRemove], removes) && removed <= toRemove
        && stats == StatsOf(segments)
      ensures workDir == old(workDir) && journal == old(journal)
      ensures autoMergeConfig == old(autoMergeConfig) && lastAutoMergeTimestamp == old(lastAutoMergeTimestamp)
    {
      if |segments| <= keepCount {
        return 0;
      }
      var toRemove := |segments| - keepCount;
      removed := 0;
      var segmentsToRemove := segments[..toRemove];
      var i := 0;
      while i < |segmentsToRemove|
        invariant 0 <= i <= |segmentsToRemove|
        invariant removed == CountRemoved(segmentsToRemove[..i], removes)
      {
        assert segmentsToRemove[..i + 1][..i] == segmentsToRemove[..i];
        var segment := segmentsToRemove[i];
        if segment.downloaded && removes(segment.filePath) {
          removed := removed + 1;
        }
        i := i + 1;
      }
      assert segmentsToRemove[..|segmentsToRemove|] == segmentsToRemove;
      segments := segments[toRemove..];
      UpdateStats();
    }

    /// `cleanup_by_size`: drop the oldest downloaded records until the
    /// bytes freed reach the excess over `maxSizeMb` MiB.
    method CleanupBySize(maxSizeMb: nat, removes: string -> bool) returns (removedCount: nat)
      modifies this
      ensures old(stats).totalSize <= maxSizeMb * MIB ==>
        removedCount == 0 && segments == old(segments) && stats == old(stats)
      ensures old(stats).totalSize > maxSizeMb * MIB ==>
        var f := SizeFold(old(segments), old(stats).totalSize - maxSizeMb * MIB, removes);
        segments == f.kept && removedCount == f.removedCount && stats == StatsOf(segments)
      ensures workDir == old(workDir) && journal == old(journal)
      ensures autoMergeConfig == old(autoMergeConfig) && lastAutoMergeTimestamp == old(lastAutoMergeTimestamp)
    {
      var maxSizeBytes := maxSizeMb * MIB;
      var currentSize := stats.totalSize;
      if currentSize <= maxSizeBytes {
        return 0;
      }
      var sizeToRemove := currentSize - maxSizeBytes;
      var removedSize: nat := 0;
      removedCount := 0;
      var segmentsToKeep := [];
      var i := 0;
      while i < |segments|
        invariant 0 <= i <= |segments|
        invariant SizeFold(segments[..i], sizeToRemove, removes) == SizeCleanup(segmentsToKeep, removedCount, removedSize)
      {
        assert segments[..i + 1][..i] == segments[..i];
        var segment := segments[i];
        if removedSize >= sizeToRemove {
          segmentsToKeep := segmentsToKeep + [segment];
        } else if segment.downloaded && removes(segment.filePath) {
          removedSize := removedSize + segment.size;
          removedCount := removedCount + 1;
        } else {
          segmentsToKeep := segmentsToKeep + [segment];
        }
        i := i + 1;
      }
      assert segments[..|segments|] == segments;
      segments := segmentsToKeep;
      UpdateStats();
    }

    /// `smart_cleanup`: more than 200 records keeps 150; otherwise more than
    /// 500 MiB shrinks to 400 MiB; otherwise more than 100 records keeps 100.
    method SmartCleanup(removes: string -> bool) returns (removed: nat)
      modifies this
      ensures |old(segments)| > 200 ==>
        segments == old(segments)[|old(segments)| - 150..] && stats == StatsOf(segments)
        && removed == CountRemoved(old(segments)[..|old(segments)| - 150], removes)
      ensures |old(segments)| <= 200 && old(stats).totalSize / MIB > 500 ==>
        var f := SizeFold(old(segments), old(stats).totalSize - 400 * MIB, removes);
        segments == f.kept && removed == f.removedCount && stats == StatsOf(segments)
      ensures |old(segments)| <= 200 && old(stats).totalSize / MIB <= 500 && |old(segments)| > 100 ==>
        segments == old(segments)[|old(segments)| - 100..] && stats == StatsOf(segments)
        && removed == CountRemoved(old(segments)[..|old(segments)| - 100], removes)
      ensures |old(segments)| <= 100 && old(stats).totalSize / MIB <= 500 ==>
        removed == 0 && segments == old(segments) && stats == old(stats)
      ensures workDir == old(workDir) && journal == old(journal)
      ensures autoMergeConfig == old(autoMergeConfig) && lastAutoMergeTimestamp == old(lastAutoMergeTimestamp)
    {
      var segmentCount := |segments|;
      var totalSizeMb := stats.totalSize / MIB;
      if segmentCount > 200 {
        removed := CleanupSegments(150, removes);
        return;
      }
      if totalSizeMb > 500 {
        removed := CleanupBySize(400, removes);
        return;
      }
      if segmentCount > 100 {
        removed := CleanupSegments(100, removes);
        return;
      }
      removed := 0;
    }

    /// `emergency_cleanup`: keep only the newest 30 records.
    method EmergencyCleanup(removes: string -> bool) returns (cleaned: nat)
      modifies this
      ensures |segments| == if |old(segments)| < 30 then |old(segments)| else 30
      ensures segments == old(segments)[|old(segments)| - |segments|..]
      ensures cleaned == CountRemoved(old(segments)[..|old(segments)| - |segments|], removes)
      ensures cleaned <= |old(segments)| - |segments|
      ensures |old(segments)| <= 30 ==> stats == old(stats)
      ensures |old(segments)| > 30 ==> stats == StatsOf(segments)
      ensures workDir == old(workDir) && journal == old(journal)
      ensures autoMergeConfig == old(autoMergeConfig) && lastAutoMergeTimestamp == old(lastAutoMergeTimestamp)
    {
      var keepCount := if 30 < |segments| then 30 else |segments|;
      cleaned := CleanupSegments(keepCount, removes);
    }

    predicate ShouldAutoMerge()
      reads this
    {
      AutoMergeDue(autoMergeConfig, stats, lastAutoMergeTimestamp)
    }

    method SetAutoMergeConfig(config: LiveConfig.AutoMergeConfig)
      modifies this
      ensures autoMergeConfig == Some(config)
      ensures segments == old(segments) && stats == old(stats) && workDir == old(workDir) && journal == old(journal)
      ensures lastAutoMergeTimestamp == old(lastAutoMergeTimestamp)
    {
      autoMergeConfig := Some(config);
    }

    /// `perform_auto_merge`; `mergeSucceeds` is the outcome of the ffmpeg
    /// runs. The result is `Ok(true)` when a merge was made, `Ok(false)`
    /// when none was due.
    method PerformAutoMerge(mergeSucceeds: bool) returns (r: Result<bool>)
      modifies this
      ensures !old(ShouldAutoMerge()) ==>
        (r == Ok(false) && segments == old(segments) && stats == old(stats)
         && lastAutoMergeTimestamp == old(lastAutoMergeTimestamp))
      ensures old(ShouldAutoMerge()) && (CountDownloaded(old(segments)) == 0 || !mergeSucceeds) ==>
        (r.Err? && segments == old(segments) && stats == old(stats)
         && lastAutoMergeTimestamp == old(lastAutoMergeTimestamp))
      ensures old(ShouldAutoMerge()) && CountDownloaded(old(segments)) > 0 && mergeSucceeds ==>
        (r == Ok(true) && lastAutoMergeTimestamp == old(stats).endTimestamp
         && (if old(autoMergeConfig).value.keepSegmentsAfterMerge then segments == old(segments) && stats == old(stats)
             else segments == [] && stats == EMPTY_STATS))
      ensures workDir == old(workDir) && journal == old(journal) && autoMergeConfig == old(autoMergeConfig)
    {
      if !ShouldAutoMerge() {
        return Ok(false);
      }
      var config := autoMergeConfig.value;
      if CountDownloaded(segments) == 0 {
        return Err("没有可合并的分片");
      }
      if !mergeSucceeds {
        return Err("FFmpeg合并失败");
      }
      lastAutoMergeTimestamp := stats.endTimestamp;
      if !config.keepSegmentsAfterMerge {
        segments := [];
        UpdateStats();
      }
      return Ok(true);
    }
  }
}
