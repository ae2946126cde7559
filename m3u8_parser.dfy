/// The live-recording media-playlist reader (`M3u8Parser`): it numbers the
/// segments of an HLS media playlist (RFC 8216) by media sequence number,
/// gives each the duration of the `#EXTINF` tag before it, and skips
/// sequence numbers it has already handed out, remembering the last 50.
module M3u8Parser {
  import opened Common

  const CACHE_SIZE_LIMIT: nat := 50
  const MEDIA_SEQUENCE_TAG := "#EXT-X-MEDIA-SEQUENCE:"
  const EXTINF_TAG := "#EXTINF:"
  const BILI_AUX_TAG := "#BILI-AUX:"

  /// A segment handed to the downloader; the duration is in milliseconds.
  datatype SegmentInfo = SegmentInfo(url: string, sequence: nat, durationMs: nat, timestamp: int)

  // ---------------------------------------------------------------------
  // The cache of handed-out sequence numbers
  // ---------------------------------------------------------------------

  /// The cache after marking `sequence`: appended at the back, then the
  /// oldest entries dropped until at most `CACHE_SIZE_LIMIT` remain.
  function Remember(cache: seq<nat>, sequence: nat): (r: seq<nat>)
    ensures 0 < |r| <= CACHE_SIZE_LIMIT && r[|r| - 1] == sequence
  {
    var pushed := cache + [sequence];
    if |pushed| > CACHE_SIZE_LIMIT then pushed[|pushed| - CACHE_SIZE_LIMIT..] else pushed
  }

  /// The cache after marking each of `marks` in turn.
  function RememberAll(cache: seq<nat>, marks: seq<nat>): seq<nat>
    decreases |marks|
  {
    if |marks| == 0 then cache else RememberAll(Remember(cache, marks[0]), marks[1..])
  }

  /// The last `CACHE_SIZE_LIMIT` entries of `s` (all of `s` when shorter).
  function Latest(s: seq<nat>): (r: seq<nat>)
    ensures |r| <= CACHE_SIZE_LIMIT
  {
    if |s| > CACHE_SIZE_LIMIT then s[|s| - CACHE_SIZE_LIMIT..] else s
  }

  lemma LatestOfLongSuffix(s: seq<nat>, k: nat)
    requires k <= |s|
    requires |s| - k >= CACHE_SIZE_LIMIT || k == 0
    ensures Latest(s[k..]) == Latest(s)
  {
    if k > 0 {
      assert s[k..][|s| - k - CACHE_SIZE_LIMIT..] == s[|s| - CACHE_SIZE_LIMIT..];
    } else {
      assert s[k..] == s;
    }
  }

  /// Keeping the latest entries of a list and then appending is the same,
  /// as far as the latest entries go, as appending to the whole list.
  lemma LatestOfLatest(s: seq<nat>, t: seq<nat>)
    ensures Latest(Latest(s) + t) == Latest(s + t)
  {
    if |s| > CACHE_SIZE_LIMIT {
      var k := |s| - CACHE_SIZE_LIMIT;
      assert Latest(s) + t == (s + t)[k..];
      LatestOfLongSuffix(s + t, k);
    }
  }

  lemma RememberThenLatest(cache: seq<nat>, marks: seq<nat>)
    requires |marks| > 0
    ensures Latest(Remember(cache, marks[0]) + marks[1..]) == Latest(cache + marks)
  {
    var pushed := cache + [marks[0]];
    assert Remember(cache, marks[0]) == Latest(pushed);
    LatestOfLatest(pushed, marks[1..]);
    assert pushed + marks[1..] == cache + marks;
  }

  /// The cache always holds exactly the most recent `CACHE_SIZE_LIMIT` marks
  /// (or all of them, when there were fewer): duplicates are only detected
  /// among the last 50 sequence numbers handed out.
  lemma {:induction false} RememberAllKeepsLatest(cache: seq<nat>, marks: seq<nat>)
    requires |cache| <= CACHE_SIZE_LIMIT
    ensures RememberAll(cache, marks) == Latest(cache + marks)
    decreases |marks|
  {
    if |marks| > 0 {
      RememberAllKeepsLatest(Remember(cache, marks[0]), marks[1..]);
      RememberThenLatest(cache, marks);
    } else {
      assert cache + marks == cache;
    }
  }

  // ---------------------------------------------------------------------
  // Reading a playlist, line by line
  // ---------------------------------------------------------------------

  /// Running state of `parse_playlist`: the sequence number the next URI
  /// gets, the pending `#EXTINF` duration, the cache, and the output so far.
  datatype ScanState = ScanState(sequence: nat, durationMs: nat, cache: seq<nat>, emitted: seq<SegmentInfo>)

  /// A trimmed line that names a segment: it starts with "http", or it is
  /// a non-empty line that is not a tag.
  predicate IsUriLine(t: string)
  {
    StartsWith(t, "http") || (!StartsWith(t, "#") && |t| > 0)
  }

  /// The duration announced by a trimmed `#EXTINF:` line, 0 when unreadable.
  function ExtinfMillis(t: string): nat
    requires StartsWith(t, EXTINF_TAG)
  {
    ParseSecondsMillis(Split(t[|EXTINF_TAG|..], ',')[0]).UnwrapOr(0)
  }

  /// The segment URL of a URI line: absolute URLs are kept, anything else
  /// is appended to the playlist's base URL.
  function SegmentUrl(t: string, baseUrl: string): string
  {
    if StartsWith(t, "http") then t else baseUrl + t
  }

  /// What a trimmed playlist line does, in the order the parser tests
  /// it; a URI line carries its text.
  datatype LineKind =
    | SetSequence(number: Option<nat>)
    | Duration(ms: nat)
    | AuxTag
    | Uri(text: string)
    | Ignored

  function Classify(t: string): LineKind
  {
    if StartsWith(t, MEDIA_SEQUENCE_TAG) then SetSequence(ParseU64(t[|MEDIA_SEQUENCE_TAG|..]))
    else if StartsWith(t, EXTINF_TAG) then Duration(ExtinfMillis(t))
    else if StartsWith(t, BILI_AUX_TAG) then AuxTag
    else if IsUriLine(t) then Uri(t)
    else Ignored
  }

  /// The effect of one classified line. A media sequence tag that does not
  /// parse is ignored. A URI is emitted and cached unless its number is
  /// cached already; either way the number advances and the duration resets.
  function StepKind(st: ScanState, k: LineKind, baseUrl: string, now: int): ScanState
  {
    match k
    case SetSequence(n) => if n.Some? then st.(sequence := n.value) else st
    case Duration(ms) => st.(durationMs := ms)
    case Uri(t) =>
      var afterEmit :=
        if st.sequence in st.cache then st
        else st.(cache := Remember(st.cache, st.sequence),
                 emitted := st.emitted + [SegmentInfo(SegmentUrl(t, baseUrl), st.sequence, st.durationMs, now)]);
      afterEmit.(sequence := st.sequence + 1, durationMs := 0)
    case _ => st
  }

  /// The effect of one playlist line, which is trimmed first.
  function Step(st: ScanState, line: string, baseUrl: string, now: int): ScanState
  {
    StepKind(st, Classify(Trim(line)), baseUrl, now)
  }

  /// The state after reading `lines` in order.
  function Scan(st: ScanState, lines: seq<string>, baseUrl: string, now: int): ScanState
    decreases |lines|
  {
    if |lines| == 0 then st
    else Step(Scan(st, lines[..|lines| - 1], baseUrl, now), lines[|lines| - 1], baseUrl, now)
  }

  lemma ScanSnoc(st: ScanState, lines: seq<string>, i: nat, baseUrl: string, now: int)
    requires i < |lines|
    ensures Scan(st, lines[..i + 1], baseUrl, now) == Step(Scan(st, lines[..i], baseUrl, now), lines[i], baseUrl, now)
  {
    assert lines[..i + 1][..i] == lines[..i];
  }

  // ---------------------------------------------------------------------
  // The same reading over classified lines
  // ---------------------------------------------------------------------

  function Kinds(lines: seq<string>): (r: seq<LineKind>)
    ensures |r| == |lines|
    ensures forall i :: 0 <= i < |lines| ==> r[i] == Classify(Trim(lines[i]))
  {
    seq(|lines|, i requires 0 <= i < |lines| => Classify(Trim(lines[i])))
  }

  /// Reading classified lines, peeling the first one.
  function ScanKinds(st: ScanState, ks: seq<LineKind>, baseUrl: string, now: int): ScanState
    decreases |ks|
  {
    if |ks| == 0 then st else ScanKinds(StepKind(st, ks[0], baseUrl, now), ks[1..], baseUrl, now)
  }

  lemma {:induction false} ScanKindsSnoc(st: ScanState, ks: seq<LineKind>, baseUrl: string, now: int)
    requires |ks| > 0
    ensures ScanKinds(st, ks, baseUrl, now)
         == StepKind(ScanKinds(st, ks[..|ks| - 1], baseUrl, now), ks[|ks| - 1], baseUrl, now)
    decreases |ks|
  {
    if |ks| > 1 {
      ScanKindsSnoc(StepKind(st, ks[0], baseUrl, now), ks[1..], baseUrl, now);
      assert ks[1..][..|ks[1..]| - 1] == ks[..|ks| - 1][1..];
    }
  }

  /// Reading the lines is reading their classifications.
  lemma {:induction false} ScanIsScanKinds(st: ScanState, lines: seq<string>, baseUrl: string, now: int)
    ensures Scan(st, lines, baseUrl, now) == ScanKinds(st, Kinds(lines), baseUrl, now)
    decreases |lines|
  {
    if |lines| > 0 {
      var n := |lines|;
      ScanIsScanKinds(st, lines[..n - 1], baseUrl, now);
      assert Kinds(lines[..n - 1]) == Kinds(lines)[..n - 1];
      ScanKindsSnoc(st, Kinds(lines), baseUrl, now);
    }
  }

  // ---------------------------------------------------------------------
  // Numbering, independently of the cache
  // ---------------------------------------------------------------------

  /// The running sequence number after one line.
  function NextNumber(n: nat, k: LineKind): nat
  {
    match k
    case SetSequence(m) => m.UnwrapOr(n)
    case Uri(_) => n + 1
    case _ => n
  }

  /// The sequence number each URI line is given, starting from `n`.
  function UriNumbers(n: nat, ks: seq<LineKind>): seq<nat>
    decreases |ks|
  {
    if |ks| == 0 then []
    else (if ks[0].Uri? then [n] else []) + UriNumbers(NextNumber(n, ks[0]), ks[1..])
  }

  /// A media sequence tag that parses comes before the first URI line.
  predicate StartsNumbering(ks: seq<LineKind>)
    decreases |ks|
  {
    |ks| > 0 &&
    match ks[0]
    case SetSequence(m) => m.Some? || StartsNumbering(ks[1..])
    case Uri(_) => false
    case _ => StartsNumbering(ks[1..])
  }

  /// With a `#EXT-X-MEDIA-SEQUENCE` tag before the first URI, every URI gets
  /// the same number whatever the parser's previous state.
  lemma {:induction false} NumberingIndependent(a: nat, b: nat, ks: seq<LineKind>)
    requires StartsNumbering(ks)
    ensures UriNumbers(a, ks) == UriNumbers(b, ks)
    decreases |ks|
  {
    if ks[0].SetSequence? && ks[0].number.Some? {
      assert NextNumber(a, ks[0]) == NextNumber(b, ks[0]);
    } else {
      NumberingIndependent(NextNumber(a, ks[0]), NextNumber(b, ks[0]), ks[1..]);
    }
  }

  // ---------------------------------------------------------------------
  // Re-reading a playlist
  // ---------------------------------------------------------------------

  /// When every URI number is already cached, reading the lines emits
  /// nothing and leaves the cache as it was.
  lemma {:induction false} AllCachedEmitsNothing(st: ScanState, ks: seq<LineKind>, baseUrl: string, now: int)
    requires forall k :: 0 <= k < |UriNumbers(st.sequence, ks)| ==> UriNumbers(st.sequence, ks)[k] in st.cache
    ensures ScanKinds(st, ks, baseUrl, now).emitted == st.emitted
    ensures ScanKinds(st, ks, baseUrl, now).cache == st.cache
    decreases |ks|
  {
    if |ks| > 0 {
      var next := StepKind(st, ks[0], baseUrl, now);
      var here: seq<nat> := if ks[0].Uri? then [st.sequence] else [];
      var all := UriNumbers(st.sequence, ks);
      var rest := UriNumbers(next.sequence, ks[1..]);
      assert all == here + rest;
      if ks[0].Uri? {
        assert all[0] == st.sequence;
      }
      assert next.emitted == st.emitted && next.cache == st.cache;
      forall k | 0 <= k < |rest| ensures rest[k] in next.cache {
        assert rest[k] == all[k + |here|];
      }
      AllCachedEmitsNothing(next, ks[1..], baseUrl, now);
    }
  }

  /// While the cache does not overflow, every URI number ends up cached.
  lemma {:induction false} ScanCachesAllNumbers(st: ScanState, ks: seq<LineKind>, baseUrl: string, now: int)
    requires |st.cache| + |UriNumbers(st.sequence, ks)| <= CACHE_SIZE_LIMIT
    ensures var final := ScanKinds(st, ks, baseUrl, now);
      (forall k :: 0 <= k < |UriNumbers(st.sequence, ks)| ==> UriNumbers(st.sequence, ks)[k] in final.cache)
      && (forall x :: x in st.cache ==> x in final.cache)
      && |final.cache| <= |st.cache| + |UriNumbers(st.sequence, ks)|
    decreases |ks|
  {
    if |ks| > 0 {
      var next := StepKind(st, ks[0], baseUrl, now);
      var here: seq<nat> := if ks[0].Uri? then [st.sequence] else [];
      var all := UriNumbers(st.sequence, ks);
      assert all == here + UriNumbers(next.sequence, ks[1..]);
      if ks[0].Uri? && st.sequence !in st.cache {
        assert next.cache == st.cache + [st.sequence];
      } else {
        assert next.cache == st.cache;
      }
      ScanCachesAllNumbers(next, ks[1..], baseUrl, now);
      var final := ScanKinds(st, ks, baseUrl, now);
      forall k | 0 <= k < |all| ensures all[k] in final.cache {
        if k < |here| {
          assert all[k] == st.sequence;
          assert st.sequence in next.cache;
        } else {
          assert all[k] == UriNumbers(next.sequence, ks[1..])[k - |here|];
        }
      }
    }
  }

  /// Parsing the same playlist twice hands out no segment the second time,
  /// provided it fixes its own numbering with a media sequence tag and the
  /// cache has room for all of its URIs.
  lemma ReparseEmitsNothing(st: ScanState, lines: seq<string>, baseUrl: string, now: int, again: ScanState)
    requires StartsNumbering(Kinds(lines))
    requires |st.cache| + |UriNumbers(st.sequence, Kinds(lines))| <= CACHE_SIZE_LIMIT
    requires again.cache == Scan(st, lines, baseUrl, now).cache
    ensures Scan(again, lines, baseUrl, now).emitted == again.emitted
    ensures Scan(again, lines, baseUrl, now).cache == again.cache
  {
    var ks := Kinds(lines);
    ScanIsScanKinds(st, lines, baseUrl, now);
    ScanIsScanKinds(again, lines, baseUrl, now);
    ScanCachesAllNumbers(st, ks, baseUrl, now);
    NumberingIndependent(st.sequence, again.sequence, ks);
    AllCachedEmitsNothing(again, ks, baseUrl, now);
  }

  // ---------------------------------------------------------------------
  // The parser object
  // ---------------------------------------------------------------------

  class Parser {
    var lastSequence: nat
    var segmentsCache: seq<nat>

    ghost predicate Valid()
      reads this
    {
      |segmentsCache| <= CACHE_SIZE_LIMIT
    }

    constructor ()
      ensures Valid()
      ensures lastSequence == 0 && segmentsCache == []
    {
      lastSequence := 0;
      segmentsCache := [];
    }

    predicate IsSequenceProcessed(sequence: nat)
      reads this
    {
      sequence in segmentsCache
    }

    method MarkSequenceProcessed(sequence: nat)
      requires Valid()
      modifies this
      ensures Valid()
      ensures segmentsCache == Remember(old(segmentsCache), sequence)
      ensures lastSequence == old(lastSequence)
    {
      ghost var pushed := segmentsCache + [sequence];
      segmentsCache := segmentsCache + [sequence];
      while |segmentsCache| > CACHE_SIZE_LIMIT
        invariant |segmentsCache| >= CACHE_SIZE_LIMIT || segmentsCache == pushed
        invariant segmentsCache == pushed[|pushed| - |segmentsCache|..]
        invariant lastSequence == old(lastSequence)
        decreases |segmentsCache|
      {
        segmentsCache := segmentsCache[1..];
      }
    }

    /// One playlist line: the body of the parsing loop.
    method ReadLine(raw: string, baseUrl: string, now: int, sequence: nat, duration: nat, segments: seq<SegmentInfo>)
      returns (sequence': nat, duration': nat, segments': seq<SegmentInfo>)
      requires Valid()
      modifies this
      ensures Valid() && lastSequence == old(lastSequence)
      ensures ScanState(sequence', duration', segmentsCache, segments')
           == Step(ScanState(sequence, duration, old(segmentsCache), segments), raw, baseUrl, now)
    {
      sequence', duration', segments' := sequence, duration, segments;
      match Classify(Trim(raw))
      case SetSequence(parsed) =>
        if parsed.Some? {
          sequence' := parsed.value;
        }
      case Duration(ms) =>
        duration' := ms;
      case AuxTag =>
        // timestamps are taken from the clock instead
      case Uri(line) =>
        var segmentUrl := if StartsWith(line, "http") then line else baseUrl + line;
        if !IsSequenceProcessed(sequence) {
          segments' := segments + [SegmentInfo(segmentUrl, sequence, duration, now)];
          MarkSequenceProcessed(sequence);
        }
        sequence' := sequence + 1;
        duration' := 0;
      case Ignored =>
    }

    /// Reads a media playlist and returns the segments not handed out before.
    method ParsePlaylist(content: string, baseUrl: string, now: int) returns (segments: seq<SegmentInfo>)
      requires Valid()
      modifies this
      ensures Valid()
      ensures var final := Scan(ScanState(old(lastSequence) + 1, 0, old(segmentsCache), []), Lines(content), baseUrl, now);
        segments == final.emitted && segmentsCache == final.cache
      ensures lastSequence == if |segments| > 0 then segments[|segments| - 1].sequence else old(lastSequence)
    {
      var lines := Lines(content);
      ghost var start := ScanState(lastSequence + 1, 0, segmentsCache, []);
      segments := [];
      var currentDuration: nat := 0;
      var currentSequence: nat := lastSequence + 1;
      var i := 0;
      while i < |lines|
        invariant 0 <= i <= |lines|
        invariant Valid()
        invariant ScanState(currentSequence, currentDuration, segmentsCache, segments) == Scan(start, lines[..i], baseUrl, now)
        invariant lastSequence == old(lastSequence)
      {
        ScanSnoc(start, lines, i, baseUrl, now);
        currentSequence, currentDuration, segments := ReadLine(lines[i], baseUrl, now, currentSequence, currentDuration, segments);
        i := i + 1;
      }
      assert lines[..|lines|] == lines;
      if |segments| > 0 {
        var last := segments[|segments| - 1].sequence;
        lastSequence := last;
        assert lastSequence == segments[|segments| - 1].sequence;
      }
    }
  }

  // ---------------------------------------------------------------------
  // #BILI-AUX timestamps
  // ---------------------------------------------------------------------

  /// The timestamp of a `#BILI-AUX:timestamp|...` line: the first
  /// '|'-field read as hexadecimal `i64`, else as decimal `i64`.
  function ParseBiliAuxTimestamp(line: string): (r: Option<int>)
    ensures !StartsWith(line, BILI_AUX_TAG) ==> r.None?
    ensures r.Some? ==> I64_MIN <= r.value <= I64_MAX
  {
    match StripPrefix(line, BILI_AUX_TAG)
    case None => None
    case Some(content) => ReadTimestamp(Split(content, '|')[0])
  }

  /// A timestamp field: hexadecimal `i64` first, decimal `i64` otherwise.
  function ReadTimestamp(field: string): (r: Option<int>)
    ensures r.Some? ==> I64_MIN <= r.value <= I64_MAX
  {
    match ParseSigned(field, 16, I64_MIN, I64_MAX)
    case Some(t) => Some(t)
    case None => ParseI64(field)
  }

  lemma DecimalDigitsAreHex(s: string)
    requires AllDigitsIn(s, 10)
    ensures AllDigitsIn(s, 16)
    ensures ValueIn(s, 16) >= ValueIn(s, 10)
    decreases |s|
  {
    if |s| > 0 {
      DecimalDigitsAreHex(s[..|s| - 1]);
    }
  }

  lemma HexOfDecimalDigits(field: string)
    requires |field| > 0 && AllDigitsIn(field, 10)
    requires ValueIn(field, 16) <= I64_MAX
    ensures ParseSigned(field, 16, I64_MIN, I64_MAX) == Some(ValueIn(field, 16))
  {
    DecimalDigitsAreHex(field);
    assert DigitIn(field[0], 10).Some?;
    assert !StartsWith(field, "+") && !StartsWith(field, "-");
  }

  lemma FirstField(field: string, rest: string)
    requires AllDigitsIn(field, 10)
    requires |rest| == 0 || rest[0] == '|'
    ensures Split(field + rest, '|')[0] == field
  {
    assert '|' !in field by {
      forall i | 0 <= i < |field| ensures field[i] != '|' {
        assert DigitIn(field[i], 10).Some?;
      }
    }
    if |rest| == 0 {
      assert field + rest == field;
    } else {
      assert field + rest == field + ['|'] + rest[1..];
      SplitCons(field, '|', rest[1..]);
    }
  }

  /// A field of decimal digits is read as hexadecimal whenever that fits
  /// in `i64`: "#BILI-AUX:10|..." gives 16, not 10.
  lemma BiliAuxPrefersHex(field: string, rest: string)
    requires |field| > 0 && AllDigitsIn(field, 10)
    requires ValueIn(field, 16) <= I64_MAX
    requires |rest| == 0 || rest[0] == '|'
    ensures ParseBiliAuxTimestamp(BILI_AUX_TAG + field + rest) == Some(ValueIn(field, 16))
  {
    assert BILI_AUX_TAG + field + rest == BILI_AUX_TAG + (field + rest);
    AuxTimestampOfContent(field + rest);
    FirstField(field, rest);
    HexOfDecimalDigits(field);
  }

  lemma AuxTimestampOfContent(content: string)
    ensures ParseBiliAuxTimestamp(BILI_AUX_TAG + content) == ReadTimestamp(Split(content, '|')[0])
  {
    StripAuxTag(content);
  }

  lemma StripAuxTag(content: string)
    ensures StripPrefix(BILI_AUX_TAG + content, BILI_AUX_TAG) == Some(content)
  {
    var line := BILI_AUX_TAG + content;
    assert line[..|BILI_AUX_TAG|] == BILI_AUX_TAG;
    assert line[|BILI_AUX_TAG|..] == content;
  }
}
