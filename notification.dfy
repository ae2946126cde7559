/// Scan-completion notifications (`utils/notification.rs`): the text
/// clean-up for Server酱, the length limits, the scan report, the gating
/// and retries of a send, and the reading of the services' replies.
module Notification {
  import opened Common
  import opened Json

  // ---------------------------------------------------------------------
  // Cleaning text for Server酱
  // ---------------------------------------------------------------------

  /// The CJK brackets Server酱 cannot store, opening and closing.
  const OPENING_BRACKETS: set<char> := {'「', '【', '〖', '〔'}
  const CLOSING_BRACKETS: set<char> := {'」', '】', '〗', '〕'}

  /// What the clean-up makes of one character: a bracket becomes its ASCII
  /// counterpart, a character outside the Basic Multilingual Plane is
  /// dropped, anything else stays.
  function SanitizeChar(c: char): string
  {
    if c in OPENING_BRACKETS then "["
    else if c in CLOSING_BRACKETS then "]"
    else if c as int < 0x10000 then [c]
    else []
  }

  /// Text Server酱 accepts: none of the brackets and nothing beyond U+FFFF.
  predicate Sanitized(s: string)
  {
    forall i :: 0 <= i < |s| ==> s[i] !in OPENING_BRACKETS && s[i] !in CLOSING_BRACKETS && s[i] as int < 0x10000
  }

  /// `sanitize_for_serverchan`: the eight replacements, then the filter,
  /// character by character.
  function SanitizeForServerchan(text: string): (r: string)
    ensures Sanitized(r)
    ensures |r| <= |text|
    decreases |text|
  {
    if |text| == 0 then ""
    else SanitizeForServerchan(text[..|text| - 1]) + SanitizeChar(text[|text| - 1])
  }

  /// Clean text is left as it is, so cleaning twice is cleaning once.
  lemma {:induction false} SanitizeKeepsClean(s: string)
    requires Sanitized(s)
    ensures SanitizeForServerchan(s) == s
    decreases |s|
  {
    if |s| > 0 {
      SanitizeKeepsClean(s[..|s| - 1]);
      assert s == s[..|s| - 1] + [s[|s| - 1]];
    }
  }

  lemma SanitizeIdempotent(s: string)
    ensures SanitizeForServerchan(SanitizeForServerchan(s)) == SanitizeForServerchan(s)
  {
    SanitizeKeepsClean(SanitizeForServerchan(s));
  }

  /// Cleaning works piece by piece.
  lemma {:induction false} SanitizeAppend(a: string, b: string)
    ensures SanitizeForServerchan(a + b) == SanitizeForServerchan(a) + SanitizeForServerchan(b)
    decreases |b|
  {
    if |b| == 0 {
      assert a + b == a;
    } else {
      assert (a + b)[..|a + b| - 1] == a + b[..|b| - 1];
      SanitizeAppend(a, b[..|b| - 1]);
    }
  }

  // ---------------------------------------------------------------------
  // Length limits
  // ---------------------------------------------------------------------

  /// What a cut message ends with.
  const TRUNCATION_NOTICE: string := "\n\n...内容过长，已截断"

  /// The limits of `format_wecom_content` (bytes, and characters kept).
  const MAX_WECOM_LENGTH: nat := 3900
  /// The limits of `truncate_wecom_markdown`.
  const MAX_MARKDOWN_LENGTH: nat := 4000
  /// The limit on the whole scan report.
  const MAX_CONTENT_LENGTH: nat := 30000

  /// The shape all three limits are written in: the guard measures UTF-8
  /// bytes (`len()`), the cut counts characters (`chars().take(n)`).
  function TruncateAsWritten(content: string, maxBytes: nat, keepChars: nat): string
  {
    if ByteLen(content) > maxBytes then TakeChars(content, keepChars) + TRUNCATION_NOTICE else content
  }

  /// The bytes of the notice.
  lemma NoticeBytes()
    ensures ByteLen(TRUNCATION_NOTICE) == 29
  {
    assert TRUNCATION_NOTICE[5..] == "内容过长，已截断";
    assert ByteLen(TRUNCATION_NOTICE[13..]) == 0;
  }

  /// A line of `n` copies of '中', three bytes each.
  function Cjk(n: nat): (s: string)
    ensures |s| == n && ByteLen(s) == 3 * n
  {
    if n == 0 then "" else "中" + Cjk(n - 1)
  }

  /// As written, Chinese text of 1301 characters (3903 bytes) is over the
  /// WeCom limit, yet all of it is kept and the notice still says it was
  /// cut.
  lemma TruncateAsWrittenMisfires()
    ensures TruncateAsWritten(Cjk(1301), MAX_WECOM_LENGTH, MAX_WECOM_LENGTH - 50) == Cjk(1301) + TRUNCATION_NOTICE
  {
  }

  /// As written, 4001 Chinese characters come out at 11879 bytes, far over
  /// the markdown limit the guard enforces.
  lemma TruncateAsWrittenOverflows()
    ensures ByteLen(TruncateAsWritten(Cjk(4001), MAX_MARKDOWN_LENGTH, MAX_MARKDOWN_LENGTH - 50)) > MAX_MARKDOWN_LENGTH
  {
    var long := TakeChars(Cjk(4001), MAX_MARKDOWN_LENGTH - 50);
    CjkPrefix(4001, MAX_MARKDOWN_LENGTH - 50);
    ByteLenAppend(long, TRUNCATION_NOTICE);
  }

  lemma {:induction false} CjkPrefix(n: nat, k: nat)
    requires k <= n
    ensures Cjk(n)[..k] == Cjk(k)
    decreases n
  {
    if k > 0 {
      CjkPrefix(n - 1, k - 1);
      assert Cjk(n)[..k] == "中" + Cjk(n - 1)[..k - 1];
    }
  }

  lemma {:induction false} ByteLenAppend(a: string, b: string)
    ensures ByteLen(a + b) == ByteLen(a) + ByteLen(b)
    decreases |a|
  {
    if |a| == 0 {
      assert a + b == b;
    } else {
      assert (a + b)[1..] == a[1..] + b;
      ByteLenAppend(a[1..], b);
    }
  }

  /// The longest prefix of `s` that fits in `budget` UTF-8 bytes.
  function TakeBytes(s: string, budget: nat): (r: string)
    ensures StartsWith(s, r)
    ensures ByteLen(r) <= budget
    ensures |r| < |s| ==> ByteLen(r) + Utf8Width(s[|r|]) > budget
    decreases |s|
  {
    if |s| == 0 || Utf8Width(s[0]) > budget then ""
    else [s[0]] + TakeBytes(s[1..], budget - Utf8Width(s[0]))
  }

  /// The limit as the guard means it: a message over `maxBytes` bytes keeps
  /// the longest prefix that fits in `keepBytes` and gets the notice.
  function Truncate(content: string, maxBytes: nat, keepBytes: nat): string
  {
    if ByteLen(content) > maxBytes then TakeBytes(content, keepBytes) + TRUNCATION_NOTICE else content
  }

  /// A message within the limit is kept whole; a longer one loses a
  /// non-empty tail, keeps the rest, gets the notice, and then fits.
  lemma TruncateFits(content: string, maxBytes: nat, keepBytes: nat)
    requires keepBytes + 29 <= maxBytes
    ensures ByteLen(content) <= maxBytes ==> Truncate(content, maxBytes, keepBytes) == content
    ensures ByteLen(content) > maxBytes ==>
      var kept := TakeBytes(content, keepBytes);
      && Truncate(content, maxBytes, keepBytes) == kept + TRUNCATION_NOTICE
      && StartsWith(content, kept) && |kept| < |content|
    ensures ByteLen(Truncate(content, maxBytes, keepBytes)) <= maxBytes
  {
    if ByteLen(content) > maxBytes {
      var kept := TakeBytes(content, keepBytes);
      NoticeBytes();
      ByteLenAppend(kept, TRUNCATION_NOTICE);
      ShortOfWhole(content, kept);
    }
  }

  /// A prefix whose byte length is below the whole's is a proper prefix.
  lemma ShortOfWhole(s: string, r: string)
    requires StartsWith(s, r) && ByteLen(r) < ByteLen(s)
    ensures |r| < |s|
  {
    assert s[..|s|] == s;
  }

  /// `format_wecom_content`.
  function FormatWecomContent(content: string): string
  {
    Truncate(content, MAX_WECOM_LENGTH, MAX_WECOM_LENGTH - 50)
  }

  /// `truncate_wecom_markdown`.
  function TruncateWecomMarkdown(content: string): string
  {
    Truncate(content, MAX_MARKDOWN_LENGTH, MAX_MARKDOWN_LENGTH - 50)
  }

  /// On ASCII text the byte budget and the character count agree, so the
  /// corrected limits cut exactly where the written ones do.
  lemma AsciiTakeBytes(s: string, n: nat)
    requires forall i :: 0 <= i < |s| ==> s[i] as int < 0x80
    ensures TakeBytes(s, n) == TakeChars(s, n)
  {
    var r := TakeBytes(s, n);
    AsciiTakeBytesCount(s, n);
    assert s[..|r|] == r;
    if n > |s| {
      assert s[..|s|] == s;
    }
  }

  /// On ASCII text the byte budget takes as many characters as it has bytes.
  lemma {:induction false} AsciiTakeBytesCount(s: string, n: nat)
    requires forall i :: 0 <= i < |s| ==> s[i] as int < 0x80
    ensures |TakeBytes(s, n)| == if n <= |s| then n else |s|
    decreases |s|
  {
    if |s| > 0 && n > 0 {
      AsciiTakeBytesCount(s[1..], n - 1);
    }
  }

  lemma AsciiTruncateAgrees(content: string, maxBytes: nat, keep: nat)
    requires forall i :: 0 <= i < |content| ==> content[i] as int < 0x80
    ensures Truncate(content, maxBytes, keep) == TruncateAsWritten(content, maxBytes, keep)
  {
    AsciiTakeBytes(content, keep);
  }

  // ---------------------------------------------------------------------
  // Replies of the services
  // ---------------------------------------------------------------------

  /// `deserialize_code`: an integer in the `i32` range, or a string that
  /// parses as one; anything else is refused.
  function DeserializeCode(value: Json): (r: Result<int>)
    ensures r.Ok? ==> I32_MIN <= r.value <= I32_MAX
    ensures r.Ok? <==> (value.JInt? && I32_MIN <= value.i <= I32_MAX) || (value.JString? && ParseI32(value.s).Some?)
  {
    match value
    case JInt(i) =>
      if I64_MIN <= i <= I64_MAX && I32_MIN <= i <= I32_MAX then Ok(i) else Err("code is not a valid i32")
    case JFloat(_) => Err("code is not a valid i32")
    case JString(s) =>
      (match ParseI32(s)
       case Some(v) => Ok(v)
       case None => Err("code string '" + s + "' is not a valid i32"))
    case _ => Err("code must be a number or string")
  }

  /// A code written either way reads back as itself.
  lemma DeserializeCodeRoundTrip(code: int)
    requires I32_MIN <= code <= I32_MAX
    ensures DeserializeCode(JInt(code)) == Ok(code)
    ensures DeserializeCode(JString(IntToString(code))) == Ok(code)
  {
    IntToStringParses(code);
    assert ParseI64(IntToString(code)) == Some(code);
  }

  /// A Server酱 reply is a success when it parses (a code and a message)
  /// and the code is 0.
  predicate ServerChanAccepted(reply: Option<Json>)
  {
    && reply.Some?
    && Get(reply.value, "code").Some?
    && DeserializeCode(Get(reply.value, "code").value) == Ok(0)
    && AsStr(Get(reply.value, "message")).Some?
  }

  /// `WecomResponse::is_success` on a reply that parses: `errcode` (an
  /// `i32`) is 0.
  predicate WecomAccepted(reply: Option<Json>)
  {
    && reply.Some?
    && AsI64(Get(reply.value, "errcode")).Some?
    && I32_MIN <= AsI64(Get(reply.value, "errcode")).value <= I32_MAX
    && AsStr(Get(reply.value, "errmsg")).Some?
    && AsI64(Get(reply.value, "errcode")).value == 0
  }

  // ---------------------------------------------------------------------
  // The scan report
  // ---------------------------------------------------------------------

  /// `NewVideoInfo`.
  datatype NewVideoInfo = NewVideoInfo(
    title: string,
    bvid: string,
    upperName: string,
    sourceType: string,
    sourceName: string,
    pubtime: Option<string>,
    episodeNumber: Option<int>,
    seasonNumber: Option<int>,
    videoId: Option<int>)

  /// `SourceScanResult`.
  datatype SourceScanResult = SourceScanResult(sourceType: string, sourceName: string, newVideos: seq<NewVideoInfo>)

  /// `ScanSummary`; the scan duration is carried as the text `{:.1}` makes
  /// of its minutes.
  datatype ScanSummary = ScanSummary(
    totalSources: nat,
    totalNewVideos: nat,
    durationMinutesText: string,
    sourceResults: seq<SourceScanResult>)

  const SCAN_TITLE: string := "Bili Sync 扫描完成"
  const BANGUMI: string := "番剧"
  const MAX_VIDEOS_PER_SOURCE: nat := 20
  /// Past this many bytes no further source is listed.
  const SOURCES_STOP: nat := MAX_CONTENT_LENGTH - 500
  /// Past this many bytes no further video line is added.
  const VIDEOS_STOP: nat := MAX_CONTENT_LENGTH - 1000
  /// `usize` on the 64-bit targets the program is built for.
  const USIZE_LIMIT: nat := 0x1_0000_0000_0000_0000
  const DETAILS_HEADING: string := "📹 **新增视频详情**\n\n"

  /// Lexicographic order of strings, character by character (`String::cmp`
  /// compares UTF-8 bytes, which orders code points the same way).
  predicate StrLe(a: string, b: string)
    decreases |a|
  {
    |a| == 0 || (|b| > 0 && (a[0] < b[0] || (a[0] == b[0] && StrLe(a[1..], b[1..]))))
  }

  lemma {:induction false} StrLeTotal(a: string, b: string)
    ensures StrLe(a, b) || StrLe(b, a)
    decreases |a|
  {
    if |a| > 0 && |b| > 0 && a[0] == b[0] {
      StrLeTotal(a[1..], b[1..]);
    }
  }

  lemma {:induction false} StrLeTrans(a: string, b: string, c: string)
    requires StrLe(a, b) && StrLe(b, c)
    ensures StrLe(a, c)
    decreases |a|
  {
    if |a| > 0 && a[0] == b[0] && b[0] == c[0] {
      StrLeTrans(a[1..], b[1..], c[1..]);
    }
  }

  /// The episode a bangumi video is ordered by (`unwrap_or(0)`).
  function EpisodeKey(v: NewVideoInfo): int
  {
    v.episodeNumber.UnwrapOr(0)
  }

  /// The time any other video is ordered by (`unwrap_or(String::new())`).
  function PubtimeKey(v: NewVideoInfo): string
  {
    v.pubtime.UnwrapOr("")
  }

  /// `a` may stand before `b` in the newest-first order.
  predicate ListedBefore(a: NewVideoInfo, b: NewVideoInfo, isBangumi: bool)
  {
    if isBangumi then EpisodeKey(b) <= EpisodeKey(a) else StrLe(PubtimeKey(b), PubtimeKey(a))
  }

  lemma ListedBeforeTotal(a: NewVideoInfo, b: NewVideoInfo, isBangumi: bool)
    ensures ListedBefore(a, b, isBangumi) || ListedBefore(b, a, isBangumi)
  {
    StrLeTotal(PubtimeKey(a), PubtimeKey(b));
  }

  lemma ListedBeforeTrans(a: NewVideoInfo, b: NewVideoInfo, c: NewVideoInfo, isBangumi: bool)
    requires ListedBefore(a, b, isBangumi) && ListedBefore(b, c, isBangumi)
    ensures ListedBefore(a, c, isBangumi)
  {
    if !isBangumi {
      StrLeTrans(PubtimeKey(c), PubtimeKey(b), PubtimeKey(a));
    }
  }

  /// Newest first: every video may stand before every later one.
  predicate Descending(s: seq<NewVideoInfo>, isBangumi: bool)
  {
    forall i, j :: 0 <= i < j < |s| ==> ListedBefore(s[i], s[j], isBangumi)
  }

  /// Puts `v` after every video of `s` it does not outrank, so that videos
  /// with equal keys keep their order.
  function InsertVideo(v: NewVideoInfo, s: seq<NewVideoInfo>, isBangumi: bool): (r: seq<NewVideoInfo>)
    ensures |r| == |s| + 1
  {
    if |s| == 0 then [v]
    else if ListedBefore(s[0], v, isBangumi) then [s[0]] + InsertVideo(v, s[1..], isBangumi)
    else [v] + s
  }

  /// Inserting adds the one video and loses none.
  lemma {:induction false} InsertVideoPermutes(v: NewVideoInfo, s: seq<NewVideoInfo>, isBangumi: bool)
    ensures multiset(InsertVideo(v, s, isBangumi)) == multiset(s) + multiset{v}
    decreases |s|
  {
    if |s| > 0 && ListedBefore(s[0], v, isBangumi) {
      InsertVideoPermutes(v, s[1..], isBangumi);
      assert s == [s[0]] + s[1..];
    }
  }

  /// The stable `sort_by` of `format_scan_message`: bangumi by episode,
  /// everything else by publication time, newest first.
  function SortVideos(videos: seq<NewVideoInfo>, isBangumi: bool): (r: seq<NewVideoInfo>)
    ensures |r| == |videos|
  {
    if |videos| == 0 then []
    else InsertVideo(videos[|videos| - 1], SortVideos(videos[..|videos| - 1], isBangumi), isBangumi)
  }

  lemma {:induction false} InsertDescending(v: NewVideoInfo, s: seq<NewVideoInfo>, isBangumi: bool)
    requires Descending(s, isBangumi)
    ensures Descending(InsertVideo(v, s, isBangumi), isBangumi)
    decreases |s|
  {
    if |s| == 0 {
    } else if ListedBefore(s[0], v, isBangumi) {
      var rest := InsertVideo(v, s[1..], isBangumi);
      InsertDescending(v, s[1..], isBangumi);
      InsertVideoPermutes(v, s[1..], isBangumi);
      HeadBeforeInserted(v, s, rest, isBangumi);
      DescendingCons(s[0], rest, isBangumi);
    } else {
      ListedBeforeTotal(s[0], v, isBangumi);
      forall k | 0 <= k < |s|
        ensures ListedBefore(v, s[k], isBangumi)
      {
        if k > 0 {
          ListedBeforeTrans(v, s[0], s[k], isBangumi);
        }
      }
      DescendingCons(v, s, isBangumi);
    }
  }

  /// The head of a descending list outranks what its tail becomes once `v`,
  /// which it outranks too, is inserted.
  lemma HeadBeforeInserted(v: NewVideoInfo, s: seq<NewVideoInfo>, rest: seq<NewVideoInfo>, isBangumi: bool)
    requires |s| > 0 && Descending(s, isBangumi) && ListedBefore(s[0], v, isBangumi)
    requires multiset(rest) == multiset(s[1..]) + multiset{v}
    ensures forall k :: 0 <= k < |rest| ==> ListedBefore(s[0], rest[k], isBangumi)
  {
    forall k | 0 <= k < |rest|
      ensures ListedBefore(s[0], rest[k], isBangumi)
    {
      assert rest[k] in multiset(rest);
      if rest[k] != v {
        assert rest[k] in multiset(s[1..]);
        var idx :| 0 <= idx < |s[1..]| && s[1..][idx] == rest[k];
        assert s[idx + 1] == rest[k];
      }
    }
  }

  /// A video that outranks every video of a descending list heads a
  /// descending list.
  lemma DescendingCons(x: NewVideoInfo, t: seq<NewVideoInfo>, isBangumi: bool)
    requires Descending(t, isBangumi)
    requires forall k :: 0 <= k < |t| ==> ListedBefore(x, t[k], isBangumi)
    ensures Descending([x] + t, isBangumi)
  {
    var r := [x] + t;
    forall i, j | 0 <= i < j < |r|
      ensures ListedBefore(r[i], r[j], isBangumi)
    {
      assert r[j] == t[j - 1];
      if i > 0 {
        assert r[i] == t[i - 1];
      }
    }
  }

  /// The sort orders newest first and loses or adds no video.
  lemma {:induction false} SortVideosDescending(videos: seq<NewVideoInfo>, isBangumi: bool)
    ensures Descending(SortVideos(videos, isBangumi), isBangumi)
    ensures multiset(SortVideos(videos, isBangumi)) == multiset(videos)
    decreases |videos|
  {
    if |videos| > 0 {
      SortVideosDescending(videos[..|videos| - 1], isBangumi);
      InsertDescending(videos[|videos| - 1], SortVideos(videos[..|videos| - 1], isBangumi), isBangumi);
      InsertVideoPermutes(videos[|videos| - 1], SortVideos(videos[..|videos| - 1], isBangumi), isBangumi);
      assert videos == videos[..|videos| - 1] + [videos[|videos| - 1]];
    }
  }

  /// The icon of a source type.
  function Icon(sourceType: string): string
  {
    if sourceType == "收藏夹" then "🎬"
    else if sourceType == "合集" then "📁"
    else if sourceType == "UP主投稿" then "🎯"
    else if sourceType == "稍后再看" then "⏰"
    else if sourceType == BANGUMI then "📺"
    else "📄"
  }

  /// `pubtime.split(' ').next()`: the date in front of the first space.
  function DatePart(pubtime: string): string
  {
    Split(pubtime, ' ')[0]
  }

  /// The date shown is the part of the time before its first space.
  lemma DatePartIsDate(pubtime: string)
    ensures StartsWith(pubtime, DatePart(pubtime))
    ensures ' ' !in DatePart(pubtime)
    ensures ' ' !in pubtime ==> DatePart(pubtime) == pubtime
  {
  }

  /// The line of one video: its link, and the episode and date in brackets.
  function VideoLine(v: NewVideoInfo, isBangumi: bool): string
  {
    var link := "- [" + SanitizeForServerchan(v.title) + "](https://www.bilibili.com/video/" + v.bvid + ")";
    if isBangumi && v.episodeNumber.Some? then
      link + " (第" + IntToString(v.episodeNumber.value) + "集"
      + (if v.pubtime.Some? then ", " + DatePart(v.pubtime.value) else "") + ")"
    else if v.pubtime.Some? then link + " (" + DatePart(v.pubtime.value) + ")"
    else link
  }

  /// The heading of one source.
  function SourceHeading(src: SourceScanResult): string
  {
    Icon(src.sourceType) + " **" + src.sourceType + "** - " + SanitizeForServerchan(src.sourceName)
    + " (" + NatToString(|src.newVideos|) + "个新视频):\n"
  }

  /// The note that ends a source's list once the report is long.
  function OmittedVideosNote(n: nat): string
  {
    "...还有 " + NatToString(n) + " 个视频（内容过长已省略）\n"
  }

  /// The note for the videos past the first twenty.
  function MoreVideosNote(n: nat): string
  {
    "...还有 " + NatToString(n) + " 个视频\n"
  }

  /// The note that ends the report once it is long.
  function OmittedSourcesNote(sources: nat, videos: nat): string
  {
    "\n...还有 " + NatToString(sources) + " 个视频源的 " + NatToString(videos) + " 个新视频（内容过长已省略）\n"
  }

  /// What starts with `a` still does with more text after it.
  lemma ExtendedStartsWith(a: string, c: string, x: string)
    requires StartsWith(c, a)
    ensures StartsWith(c + x, a)
  {
    assert (c + x)[..|a|] == c[..|a|];
  }

  /// The lines of a run of videos, each ended by a newline.
  function Rendered(videos: seq<NewVideoInfo>, isBangumi: bool): (r: seq<string>)
    ensures |r| == |videos|
  {
    if |videos| == 0 then [] else [VideoLine(videos[0], isBangumi) + "\n"] + Rendered(videos[1..], isBangumi)
  }

  /// The `i`-th rendered line is the `i`-th video's.
  lemma {:induction false} RenderedAt(videos: seq<NewVideoInfo>, isBangumi: bool, i: nat)
    requires i < |videos|
    ensures Rendered(videos, isBangumi)[i] == VideoLine(videos[i], isBangumi) + "\n"
    decreases i
  {
    if i > 0 {
      RenderedAt(videos[1..], isBangumi, i - 1);
    }
  }

  /// The lines `idx` up to `toShow` appended to `content`, and how many
  /// were listed: the list stops with a note, counting every line not
  /// listed, as soon as the report is over `VIDEOS_STOP` bytes.
  function ListVideos(content: string, lines: seq<string>, idx: nat, toShow: nat): (r: (string, nat))
    requires idx <= toShow <= |lines|
    ensures idx + r.1 <= toShow
    decreases toShow - idx
  {
    if idx == toShow then (content, 0)
    else if ByteLen(content) > VIDEOS_STOP then (content + OmittedVideosNote(|lines| - idx), 0)
    else
      var r := ListVideos(content + lines[idx], lines, idx + 1, toShow);
      (r.0, r.1 + 1)
  }

  /// Pieces of text, one after another.
  function Concat(parts: seq<string>): string
  {
    if |parts| == 0 then "" else parts[0] + Concat(parts[1..])
  }

  /// The next `n` lines in order, then the note if the list stopped early.
  function ListedLines(content: string, lines: seq<string>, idx: nat, toShow: nat, n: nat): string
    requires idx + n <= toShow <= |lines|
  {
    content + Concat(lines[idx..idx + n]) + (if idx + n < toShow then OmittedVideosNote(|lines| - (idx + n)) else "")
  }

  /// What a source's list holds: the lines it listed, in order, and the
  /// note when it stopped early.
  lemma {:induction false} ListVideosShape(content: string, lines: seq<string>, idx: nat, toShow: nat)
    requires idx <= toShow <= |lines|
    ensures ListVideos(content, lines, idx, toShow).0 == ListedLines(content, lines, idx, toShow, ListVideos(content, lines, idx, toShow).1)
    decreases toShow - idx
  {
    if idx < toShow && ByteLen(content) <= VIDEOS_STOP {
      ListVideosShape(content + lines[idx], lines, idx + 1, toShow);
      ListVideosStep(content, lines, idx, toShow);
    } else {
      ListVideosStopped(content, lines, idx, toShow);
    }
  }

  /// One listed line in front of the rest of the list.
  lemma ListVideosStep(content: string, lines: seq<string>, idx: nat, toShow: nat)
    requires idx < toShow <= |lines| && ByteLen(content) <= VIDEOS_STOP
    requires ListVideos(content + lines[idx], lines, idx + 1, toShow).0
      == ListedLines(content + lines[idx], lines, idx + 1, toShow, ListVideos(content + lines[idx], lines, idx + 1, toShow).1)
    ensures ListVideos(content, lines, idx, toShow).0 == ListedLines(content, lines, idx, toShow, ListVideos(content, lines, idx, toShow).1)
  {
    var r' := ListVideos(content + lines[idx], lines, idx + 1, toShow);
    assert ListVideos(content, lines, idx, toShow) == (r'.0, r'.1 + 1);
    ListedLinesStep(content, lines, idx, toShow, r'.1);
  }

  /// Moving the first listed line into the text before the list.
  lemma ListedLinesStep(content: string, lines: seq<string>, idx: nat, toShow: nat, n: nat)
    requires idx + 1 + n <= toShow <= |lines|
    ensures ListedLines(content + lines[idx], lines, idx + 1, toShow, n) == ListedLines(content, lines, idx, toShow, n + 1)
  {
    var rest := Concat(lines[idx + 1..idx + 1 + n]);
    var note := if idx + 1 + n < toShow then OmittedVideosNote(|lines| - (idx + 1 + n)) else "";
    var run := lines[idx..idx + 1 + n];
    assert run[0] == lines[idx] && run[1..] == lines[idx + 1..idx + 1 + n];
    assert Concat(run) == lines[idx] + rest;
    Regroup(content, lines[idx], rest, note);
  }

  /// A list that ends here holds no line, and the note if lines remain.
  lemma ListVideosStopped(content: string, lines: seq<string>, idx: nat, toShow: nat)
    requires idx <= toShow <= |lines|
    requires idx == toShow || ByteLen(content) > VIDEOS_STOP
    ensures ListVideos(content, lines, idx, toShow).0 == ListedLines(content, lines, idx, toShow, ListVideos(content, lines, idx, toShow).1)
  {
    var r := ListVideos(content, lines, idx, toShow);
    var note := if idx < toShow then OmittedVideosNote(|lines| - idx) else "";
    assert r.1 == 0;
    if idx < toShow {
      assert r.0 == content + note;
    } else {
      assert r.0 == content + note;
    }
    assert Concat(lines[idx..idx]) == "";
    assert content + note == content + "" + note;
  }

  /// Concatenation regrouped.
  lemma Regroup(a: string, b: string, c: string, d: string)
    ensures a + b + c + d == a + (b + c) + d
  {
  }

  function Min(a: nat, b: nat): nat
  {
    if a <= b then a else b
  }

  /// A source as the report shows it: its heading and the lines of all its
  /// videos, newest first.
  datatype RenderedSource = RenderedSource(heading: string, lines: seq<string>)

  function RenderSource(src: SourceScanResult): (r: RenderedSource)
    ensures |r.lines| == |src.newVideos|
  {
    var isBangumi := src.sourceType == BANGUMI;
    RenderedSource(SourceHeading(src), Rendered(SortVideos(src.newVideos, isBangumi), isBangumi))
  }

  function RenderSources(results: seq<SourceScanResult>): (r: seq<RenderedSource>)
    ensures |r| == |results|
  {
    if |results| == 0 then [] else [RenderSource(results[0])] + RenderSources(results[1..])
  }

  lemma {:induction false} RenderSourcesAt(results: seq<SourceScanResult>, i: nat)
    requires i < |results|
    ensures RenderSources(results)[i] == RenderSource(results[i])
    decreases i
  {
    if i > 0 {
      RenderSourcesAt(results[1..], i - 1);
    }
  }

  lemma RenderedCount(results: seq<SourceScanResult>, i: nat)
    requires i < |results|
    ensures |RenderSources(results)[i].lines| == |results[i].newVideos|
  {
    RenderSourcesAt(results, i);
  }

  /// The block of one source appended to `content`, with how many of its
  /// videos were listed: the heading, at most twenty lines, and the notes.
  function SourceBlock(content: string, src: RenderedSource): (string, nat)
  {
    var toShow := Min(|src.lines|, MAX_VIDEOS_PER_SOURCE);
    var listed := ListVideos(content + src.heading, src.lines, 0, toShow);
    (listed.0 + (if |src.lines| > toShow then MoreVideosNote(|src.lines| - toShow) else "") + "\n", listed.1)
  }

  /// A block opens with the source's heading and lists at most twenty of
  /// its videos.
  lemma SourceBlockShape(content: string, src: RenderedSource)
    ensures StartsWith(SourceBlock(content, src).0, content + src.heading)
    ensures SourceBlock(content, src).1 <= MAX_VIDEOS_PER_SOURCE && SourceBlock(content, src).1 <= |src.lines|
  {
    var toShow := Min(|src.lines|, MAX_VIDEOS_PER_SOURCE);
    var more := if |src.lines| > toShow then MoreVideosNote(|src.lines| - toShow) else "";
    ListedExtends(content + src.heading, src.lines, toShow, more, "\n");
  }

  /// A list of lines, and whatever follows it, extends the text before it.
  lemma ListedExtends(head: string, lines: seq<string>, toShow: nat, more: string, end: string)
    requires toShow <= |lines|
    ensures StartsWith(ListVideos(head, lines, 0, toShow).0 + more + end, head)
  {
    var listed := ListVideos(head, lines, 0, toShow);
    ListVideosShape(head, lines, 0, toShow);
    ListedLinesOpen(head, lines, toShow, listed.1, more, end);
    SameStartsWith(listed.0 + more + end, ListedLines(head, lines, 0, toShow, listed.1) + more + end, head);
  }

  lemma ListedLinesOpen(head: string, lines: seq<string>, toShow: nat, n: nat, more: string, end: string)
    requires n <= toShow <= |lines|
    ensures StartsWith(ListedLines(head, lines, 0, toShow, n) + more + end, head)
  {
    var note := if n < toShow then OmittedVideosNote(|lines| - n) else "";
    PrefixOfSum(head, Concat(lines[0..n]), note, more, end);
  }

  lemma SameStartsWith(s: string, t: string, prefix: string)
    requires s == t && StartsWith(t, prefix)
    ensures StartsWith(s, prefix)
  {
  }

  lemma PrefixOfSum(a: string, b: string, c: string, d: string, e: string)
    ensures StartsWith(a + b + c + d + e, a)
  {
    assert (a + b + c + d + e)[..|a|] == a;
  }

  /// The number of sources with videos.
  function NonEmptySources(sources: seq<RenderedSource>): nat
  {
    if |sources| == 0 then 0
    else (if |sources[0].lines| > 0 then 1 else 0) + NonEmptySources(sources[1..])
  }

  /// `usize` subtraction as a release build does it: wrapping below zero.
  function WrappingSub(a: nat, b: nat): (r: nat)
    ensures r < USIZE_LIMIT
    ensures b <= a < USIZE_LIMIT ==> r == a - b
  {
    (a - b) % USIZE_LIMIT
  }

  /// The blocks of the sources from `i` on appended to `content`: the list
  /// stops with a note as soon as the report is over `SOURCES_STOP` bytes.
  function ListSources(content: string, sources: seq<RenderedSource>, i: nat, videosShown: nat, total: nat): string
    requires i <= |sources|
    decreases |sources| - i
  {
    if i == |sources| then content
    else if |sources[i].lines| == 0 then ListSources(content, sources, i + 1, videosShown, total)
    else if ByteLen(content) > SOURCES_STOP then
      content + OmittedSourcesNote(NonEmptySources(sources[i..]), WrappingSub(total, videosShown))
    else
      var block := SourceBlock(content, sources[i]);
      ListSources(block.0, sources, i + 1, videosShown + block.1, total)
  }

  /// The summary at the head of every report.
  function ReportHeader(summary: ScanSummary): string
  {
    "📊 **扫描摘要**\n\n- 扫描视频源: " + NatToString(summary.totalSources)
    + "个\n- 新增视频: " + NatToString(summary.totalNewVideos)
    + "个\n- 扫描耗时: " + summary.durationMinutesText + "分钟\n\n"
  }

  /// The report before its final clean-up and cut.
  function ScanReport(summary: ScanSummary): string
  {
    var header := ReportHeader(summary);
    if summary.totalNewVideos > 0 then
      ListSources(header + DETAILS_HEADING, RenderSources(summary.sourceResults), 0, 0, summary.totalNewVideos)
    else header
  }

  /// The text `format_scan_message` sends: the report cleaned and cut to
  /// the limit.
  function ScanMessage(summary: ScanSummary): string
  {
    Truncate(SanitizeForServerchan(ScanReport(summary)), MAX_CONTENT_LENGTH, MAX_CONTENT_LENGTH - 100)
  }

  /// The cut of clean text is clean.
  lemma TruncateKeepsSanitized(content: string, maxBytes: nat, keepBytes: nat)
    requires Sanitized(content)
    ensures Sanitized(Truncate(content, maxBytes, keepBytes))
  {
    var kept := TakeBytes(content, keepBytes);
    assert forall i :: 0 <= i < |kept| ==> kept[i] == content[i];
    assert Sanitized(TRUNCATION_NOTICE);
  }

  /// The message sent is clean, fits the limit, and is the whole cleaned
  /// report whenever that fits.
  lemma ScanMessageFits(summary: ScanSummary)
    ensures Sanitized(ScanMessage(summary))
    ensures ByteLen(ScanMessage(summary)) <= MAX_CONTENT_LENGTH
    ensures ByteLen(SanitizeForServerchan(ScanReport(summary))) <= MAX_CONTENT_LENGTH
      ==> ScanMessage(summary) == SanitizeForServerchan(ScanReport(summary))
  {
    var clean := SanitizeForServerchan(ScanReport(summary));
    TruncateFits(clean, MAX_CONTENT_LENGTH, MAX_CONTENT_LENGTH - 100);
    TruncateKeepsSanitized(clean, MAX_CONTENT_LENGTH, MAX_CONTENT_LENGTH - 100);
  }

  /// The scan message as `format_scan_message` writes its cut: the guard
  /// counts the bytes of the cleaned report, the cut keeps 29900
  /// characters.
  function ScanMessageAsWritten(summary: ScanSummary): string
  {
    TruncateAsWritten(SanitizeForServerchan(ScanReport(summary)), MAX_CONTENT_LENGTH, MAX_CONTENT_LENGTH - 100)
  }

  /// As written, a cleaned report over 30000 bytes but of at most 29900
  /// characters is kept whole, the notice is appended, and the message
  /// sent is over the limit.
  lemma ScanMessageAsWrittenOverflows(summary: ScanSummary)
    requires ByteLen(SanitizeForServerchan(ScanReport(summary))) > MAX_CONTENT_LENGTH
    requires |SanitizeForServerchan(ScanReport(summary))| <= MAX_CONTENT_LENGTH - 100
    ensures ScanMessageAsWritten(summary) == SanitizeForServerchan(ScanReport(summary)) + TRUNCATION_NOTICE
    ensures ByteLen(ScanMessageAsWritten(summary)) > MAX_CONTENT_LENGTH
    ensures ByteLen(ScanMessage(summary)) <= MAX_CONTENT_LENGTH
  {
    AsWrittenKeepsShort(SanitizeForServerchan(ScanReport(summary)), MAX_CONTENT_LENGTH, MAX_CONTENT_LENGTH - 100);
    ScanMessageFits(summary);
  }

  /// The as-written cut of text over `maxBytes` but of at most `keepChars`
  /// characters keeps it whole and appends the notice, so it grows.
  lemma AsWrittenKeepsShort(content: string, maxBytes: nat, keepChars: nat)
    requires ByteLen(content) > maxBytes
    requires |content| <= keepChars
    ensures TruncateAsWritten(content, maxBytes, keepChars) == content + TRUNCATION_NOTICE
    ensures ByteLen(TruncateAsWritten(content, maxBytes, keepChars)) > maxBytes
  {
    var cut := TakeChars(content, keepChars);
    assert cut == content;
    assert TruncateAsWritten(content, maxBytes, keepChars) == cut + TRUNCATION_NOTICE;
    ByteLenAppend(content, TRUNCATION_NOTICE);
  }

  /// The concrete case: 10001 Chinese characters (30003 bytes) go through
  /// the as-written cut untouched and come out at 30032 bytes.
  lemma ScanCutAsWrittenOverflows()
    ensures TruncateAsWritten(Cjk(10001), MAX_CONTENT_LENGTH, MAX_CONTENT_LENGTH - 100) == Cjk(10001) + TRUNCATION_NOTICE
    ensures ByteLen(TruncateAsWritten(Cjk(10001), MAX_CONTENT_LENGTH, MAX_CONTENT_LENGTH - 100)) == 30032
  {
    ByteLenAppend(Cjk(10001), TRUNCATION_NOTICE);
    NoticeBytes();
  }

  /// The sources with new videos among `results`.
  function NonEmptyResults(results: seq<SourceScanResult>): nat
  {
    if |results| == 0 then 0
    else (if |results[0].newVideos| > 0 then 1 else 0) + NonEmptyResults(results[1..])
  }

  lemma {:induction false} NonEmptyRendered(results: seq<SourceScanResult>)
    ensures NonEmptyResults(results) == NonEmptySources(RenderSources(results))
    decreases |results|
  {
    if |results| > 0 {
      NonEmptyRendered(results[1..]);
      assert RenderSources(results)[1..] == RenderSources(results[1..]);
    }
  }

  lemma ListSourcesSkip(content: string, sources: seq<RenderedSource>, i: nat, videosShown: nat, total: nat)
    requires i < |sources| && |sources[i].lines| == 0
    ensures ListSources(content, sources, i, videosShown, total) == ListSources(content, sources, i + 1, videosShown, total)
  {
  }

  lemma ListSourcesStop(content: string, sources: seq<RenderedSource>, i: nat, videosShown: nat, total: nat)
    requires i < |sources| && |sources[i].lines| > 0 && ByteLen(content) > SOURCES_STOP
    ensures ListSources(content, sources, i, videosShown, total)
      == content + OmittedSourcesNote(NonEmptySources(sources[i..]), WrappingSub(total, videosShown))
  {
  }

  lemma ListSourcesBlock(content: string, sources: seq<RenderedSource>, i: nat, videosShown: nat, total: nat)
    requires i < |sources| && |sources[i].lines| > 0 && ByteLen(content) <= SOURCES_STOP
    ensures ListSources(content, sources, i, videosShown, total)
      == ListSources(SourceBlock(content, sources[i]).0, sources, i + 1, videosShown + SourceBlock(content, sources[i]).1, total)
  {
  }

  /// After a source's block the rest of the list is what the list from
  /// that source on still had to add.
  lemma BlockAdvances(content: string, sources: seq<RenderedSource>, i: nat, videosShown: nat, total: nat, out: string, shown: nat)
    requires i < |sources| && |sources[i].lines| > 0 && ByteLen(content) <= SOURCES_STOP
    requires (out, shown) == SourceBlock(content, sources[i])
    ensures ListSources(content, sources, i, videosShown, total) == ListSources(out, sources, i + 1, videosShown + shown, total)
  {
    ListSourcesBlock(content, sources, i, videosShown, total);
  }

  lemma NonEmptyStep(sources: seq<RenderedSource>, i: nat)
    requires i < |sources|
    ensures NonEmptySources(sources[i..]) == (if |sources[i].lines| > 0 then 1 else 0) + NonEmptySources(sources[i + 1..])
  {
    assert sources[i..][1..] == sources[i + 1..];
  }

  /// `format_scan_message`, one source at a time.
  method FormatScanMessage(summary: ScanSummary) returns (title: string, content: string)
    ensures title == SCAN_TITLE
    ensures content == ScanMessage(summary)
    ensures Sanitized(content) && ByteLen(content) <= MAX_CONTENT_LENGTH
  {
    title := SCAN_TITLE;
    var report := ReportHeader(summary);
    if summary.totalNewVideos > 0 {
      report := AppendSources(report + DETAILS_HEADING, summary.sourceResults, summary.totalNewVideos);
    }
    content := Truncate(SanitizeForServerchan(report), MAX_CONTENT_LENGTH, MAX_CONTENT_LENGTH - 100);
    ScanMessageFits(summary);
  }

  /// The loop over the sources of `format_scan_message`.
  method AppendSources(start: string, results: seq<SourceScanResult>, total: nat) returns (report: string)
    ensures report == ListSources(start, RenderSources(results), 0, 0, total)
  {
    report := start;
    ghost var sources := RenderSources(results);
    ghost var final := ListSources(start, sources, 0, 0, total);
    var videosShown: nat := 0;
    var sourcesShown: nat := 0;
    var i: nat := 0;
    while i < |results|
      invariant i <= |results|
      invariant sourcesShown + NonEmptySources(sources[i..]) == NonEmptySources(sources)
      invariant ListSources(report, sources, i, videosShown, total) == final
    {
      NonEmptyStep(sources, i);
      RenderedCount(results, i);
      if |results[i].newVideos| > 0 {
        if ByteLen(report) > SOURCES_STOP {
          report := AppendStopNote(report, results, i, sources, videosShown, sourcesShown, total);
          return;
        }
        sourcesShown := sourcesShown + 1;
        report, videosShown := AppendBlock(report, results, i, sources, videosShown, total);
      } else {
        ListSourcesSkip(report, sources, i, videosShown, total);
      }
      i := i + 1;
    }
  }

  /// The note that ends the list once the report is too long.
  method AppendStopNote(report: string, results: seq<SourceScanResult>, i: nat, ghost sources: seq<RenderedSource>,
                        videosShown: nat, sourcesShown: nat, total: nat) returns (out: string)
    requires i < |results| && sources == RenderSources(results)
    requires |sources[i].lines| > 0 && ByteLen(report) > SOURCES_STOP
    requires sourcesShown + NonEmptySources(sources[i..]) == NonEmptySources(sources)
    ensures out == ListSources(report, sources, i, videosShown, total)
  {
    NonEmptyRendered(results);
    ListSourcesStop(report, sources, i, videosShown, total);
    var remainingVideos := WrappingSub(total, videosShown);
    var remainingSources := NonEmptyResults(results) - sourcesShown;
    out := report + OmittedSourcesNote(remainingSources, remainingVideos);
  }

  /// One source's block, as a step of the list of sources.
  method AppendBlock(report: string, results: seq<SourceScanResult>, i: nat, ghost sources: seq<RenderedSource>, videosShown: nat, ghost total: nat)
    returns (out: string, shownNow: nat)
    requires i < |results| && sources == RenderSources(results)
    requires |results[i].newVideos| > 0 && ByteLen(report) <= SOURCES_STOP
    ensures ListSources(out, sources, i + 1, shownNow, total) == ListSources(report, sources, i, videosShown, total)
  {
    RenderSourcesAt(results, i);
    var shown;
    out, shown := AppendSource(report, results[i], sources[i]);
    BlockAdvances(report, sources, i, videosShown, total, out, shown);
    shownNow := videosShown + shown;
  }

  lemma ListVideosContinue(content: string, lines: seq<string>, idx: nat, toShow: nat)
    requires idx < toShow <= |lines| && ByteLen(content) <= VIDEOS_STOP
    ensures ListVideos(content, lines, idx, toShow).0 == ListVideos(content + lines[idx], lines, idx + 1, toShow).0
    ensures ListVideos(content, lines, idx, toShow).1 == ListVideos(content + lines[idx], lines, idx + 1, toShow).1 + 1
  {
  }

  lemma ListVideosDone(content: string, lines: seq<string>, toShow: nat)
    requires toShow <= |lines|
    ensures ListVideos(content, lines, toShow, toShow).0 == content
    ensures ListVideos(content, lines, toShow, toShow).1 == 0
  {
  }

  lemma ListVideosBreak(content: string, lines: seq<string>, idx: nat, toShow: nat)
    requires idx < toShow <= |lines| && ByteLen(content) > VIDEOS_STOP
    ensures ListVideos(content, lines, idx, toShow).0 == content + OmittedVideosNote(|lines| - idx)
    ensures ListVideos(content, lines, idx, toShow).1 == 0
  {
  }

  /// One source's block of the report: its heading, up to twenty of its
  /// videos newest first, and the notes.
  method AppendSource(content: string, src: SourceScanResult, ghost rendered: RenderedSource) returns (out: string, shown: nat)
    requires rendered == RenderSource(src)
    ensures (out, shown) == SourceBlock(content, rendered)
  {
    var isBangumi := src.sourceType == BANGUMI;
    var sorted := SortVideos(src.newVideos, isBangumi);
    var toShow := Min(|sorted|, MAX_VIDEOS_PER_SOURCE);
    assert rendered.heading == SourceHeading(src) && |rendered.lines| == |sorted|;
    out, shown := AppendLines(content + SourceHeading(src), sorted, isBangumi, toShow, rendered.lines);
    ghost var listed := out;
    if |sorted| > toShow {
      out := out + MoreVideosNote(|sorted| - toShow);
    } else {
      assert out + "" == out;
    }
    out := out + "\n";
    SourceBlockOf(content, rendered, listed, shown, out);
  }

  lemma SourceBlockOf(content: string, src: RenderedSource, listed: string, shown: nat, out: string)
    requires (listed, shown) == ListVideos(content + src.heading, src.lines, 0, Min(|src.lines|, MAX_VIDEOS_PER_SOURCE))
    requires out == listed + (if |src.lines| > MAX_VIDEOS_PER_SOURCE then MoreVideosNote(|src.lines| - MAX_VIDEOS_PER_SOURCE) else "") + "\n"
    ensures (out, shown) == SourceBlock(content, src)
  {
  }

  /// The loop over the videos of one source: a line per video until
  /// `toShow` of them are listed or the report is over `VIDEOS_STOP` bytes.
  method AppendLines(content: string, sorted: seq<NewVideoInfo>, isBangumi: bool, toShow: nat, ghost lines: seq<string>)
    returns (out: string, shown: nat)
    requires toShow <= |sorted| && lines == Rendered(sorted, isBangumi)
    ensures (out, shown) == ListVideos(content, lines, 0, toShow)
  {
    ghost var final := ListVideos(content, lines, 0, toShow);
    out := content;
    shown := 0;
    while shown < toShow
      invariant shown <= toShow
      invariant ListVideos(out, lines, shown, toShow).0 == final.0
      invariant ListVideos(out, lines, shown, toShow).1 + shown == final.1
    {
      if ByteLen(out) > VIDEOS_STOP {
        ListVideosBreak(out, lines, shown, toShow);
        out := out + OmittedVideosNote(|sorted| - shown);
        PairOf(final, out, shown);
        return;
      }
      var line := NextLine(sorted, isBangumi, shown, lines);
      ListVideosContinue(out, lines, shown, toShow);
      out := out + line;
      shown := shown + 1;
    }
    ListVideosDone(out, lines, toShow);
    PairOf(final, out, shown);
  }

  lemma PairOf(p: (string, nat), a: string, b: nat)
    requires p.0 == a && p.1 == b
    ensures (a, b) == p
  {
  }

  /// The line of the `idx`-th video.
  method NextLine(sorted: seq<NewVideoInfo>, isBangumi: bool, idx: nat, ghost lines: seq<string>) returns (line: string)
    requires idx < |sorted| && lines == Rendered(sorted, isBangumi)
    ensures line == lines[idx]
  {
    RenderedAt(sorted, isBangumi, idx);
    line := VideoLine(sorted[idx], isBangumi) + "\n";
  }

  // ---------------------------------------------------------------------
  // Sending
  // ---------------------------------------------------------------------

  /// The settings `send_scan_completion` reads (the HTTP timeout is left
  /// out with the client).
  datatype NotificationConfig = NotificationConfig(
    enableScanNotifications: bool,
    notificationMinVideos: nat,
    activeChannel: string,
    serverchanKey: Option<string>,
    wecomWebhookUrl: Option<string>,
    wecomMsgtype: string,
    wecomMentionAll: bool,
    wecomMentionedList: Option<seq<string>>,
    notificationRetryCount: nat)

  /// The request one attempt posts.
  datatype Request =
    | ServerChanPost(url: string, title: string, desp: string)
    | WecomText(url: string, content: string, mentionedList: Option<seq<string>>)
    | WecomMarkdown(url: string, content: string)

  /// `send_to_serverchan`'s request.
  function ServerChanRequest(key: string, title: string, content: string): Request
  {
    ServerChanPost("https://sctapi.ftqq.com/" + key + ".send", title, content)
  }

  /// `send_to_wecom`'s request, or nothing when it fails before posting
  /// (no webhook, or a message type other than "text" and "markdown").
  function WecomRequest(config: NotificationConfig, title: string, content: string): Option<Request>
  {
    match config.wecomWebhookUrl
    case None => None
    case Some(url) =>
      if config.wecomMsgtype == "text" then
        var mentioned := if config.wecomMentionAll then Some(["@all"]) else config.wecomMentionedList;
        Some(WecomText(url, title + "\n\n" + content, mentioned))
      else if config.wecomMsgtype == "markdown" then
        Some(WecomMarkdown(url, TruncateWecomMarkdown("# " + title + "\n\n" + content)))
      else None
  }

  /// Whether the service took the request, judged from its reply (nothing
  /// when the post failed or the reply was not JSON).
  predicate Accepted(request: Request, reply: Option<Json>)
  {
    if request.ServerChanPost? then ServerChanAccepted(reply) else WecomAccepted(reply)
  }

  /// The request the active channel makes of a message, if any.
  function ChannelRequest(config: NotificationConfig, title: string, content: string): Option<Request>
  {
    if config.activeChannel == "serverchan" then
      (match config.serverchanKey
       case None => None
       case Some(key) => Some(ServerChanRequest(key, title, content)))
    else if config.activeChannel == "wecom" then
      WecomRequest(config, title, FormatWecomContent(content))
    else None
  }

  /// The request `send_scan_completion` makes of a summary, if any.
  function ScanRequest(config: NotificationConfig, summary: ScanSummary): Option<Request>
  {
    if !config.enableScanNotifications || summary.totalNewVideos < config.notificationMinVideos
       || config.activeChannel == "none" then None
    else ChannelRequest(config, SCAN_TITLE, ScanMessage(summary))
  }

  /// A request is made exactly when notifications are on, the scan found
  /// enough videos, and the active channel is Server酱 with a key or WeCom
  /// with a webhook and a supported message type.
  lemma ScanRequestGating(config: NotificationConfig, summary: ScanSummary)
    ensures ScanRequest(config, summary).Some? <==>
      && config.enableScanNotifications
      && summary.totalNewVideos >= config.notificationMinVideos
      && ((config.activeChannel == "serverchan" && config.serverchanKey.Some?)
          || (config.activeChannel == "wecom" && config.wecomWebhookUrl.Some?
              && (config.wecomMsgtype == "text" || config.wecomMsgtype == "markdown")))
  {
  }

  /// Every request keeps to the service's limits: Server酱 gets the message
  /// itself at its key's URL, a WeCom text message at most 3900 bytes after
  /// the title, a WeCom markdown message at most 4000 bytes.
  lemma ChannelRequestFits(config: NotificationConfig, title: string, content: string)
    requires ChannelRequest(config, title, content).Some?
    ensures var r := ChannelRequest(config, title, content).value;
      && (r.ServerChanPost? ==>
            && config.serverchanKey.Some?
            && r == ServerChanPost("https://sctapi.ftqq.com/" + config.serverchanKey.value + ".send", title, content))
      && (r.WecomText? ==>
            exists body :: r.content == title + "\n\n" + body && ByteLen(body) <= MAX_WECOM_LENGTH)
      && (r.WecomMarkdown? ==> ByteLen(r.content) <= MAX_MARKDOWN_LENGTH)
  {
    if config.activeChannel == "wecom" {
      var body := FormatWecomContent(content);
      if config.wecomMsgtype == "text" {
        TruncateFits(content, MAX_WECOM_LENGTH, MAX_WECOM_LENGTH - 50);
        assert ChannelRequest(config, title, content).value.content == title + "\n\n" + body;
      } else {
        TruncateFits("# " + title + "\n\n" + body, MAX_MARKDOWN_LENGTH, MAX_MARKDOWN_LENGTH - 50);
      }
    }
  }

  /// What a scan sends keeps to the limits, and Server酱 gets clean text of
  /// at most 30000 bytes.
  lemma ScanRequestFits(config: NotificationConfig, summary: ScanSummary)
    requires ScanRequest(config, summary).Some?
    ensures var r := ScanRequest(config, summary).value;
      && (r.ServerChanPost? ==> Sanitized(r.desp) && ByteLen(r.desp) <= MAX_CONTENT_LENGTH)
      && (r.WecomText? ==>
            exists body :: r.content == SCAN_TITLE + "\n\n" + body && ByteLen(body) <= MAX_WECOM_LENGTH)
      && (r.WecomMarkdown? ==> ByteLen(r.content) <= MAX_MARKDOWN_LENGTH)
  {
    ScanMessageFits(summary);
    ChannelRequestFits(config, SCAN_TITLE, ScanMessage(summary));
  }

  /// What the attempts of one notification did: at most `count` posts, all
  /// of the one request; every post but the last was refused; the
  /// notification was delivered exactly when the last post was accepted,
  /// and if it was not, all `count` attempts were used.
  ghost predicate Retried(request: Option<Request>, count: nat, replies: nat -> Option<Json>,
                          sent: seq<Request>, delivered: bool)
  {
    && |sent| <= count
    && (request.None? ==> sent == [] && !delivered)
    && (request.Some? ==>
          && (forall k :: 0 <= k < |sent| ==> sent[k] == request.value)
          && (forall k :: 1 <= k < |sent| ==> !Accepted(request.value, replies(k)))
          && (delivered <==> |sent| > 0 && Accepted(request.value, replies(|sent|)))
          && (!delivered ==> |sent| == count))
  }

  /// The retry loop of `send_scan_completion`: attempt `k` posts the request
  /// and reads `replies(k)`; the loop stops at the first acceptance. A
  /// request that fails before posting uses up its attempts posting nothing.
  method Deliver(request: Option<Request>, count: nat, replies: nat -> Option<Json>) returns (sent: seq<Request>, delivered: bool)
    ensures Retried(request, count, replies, sent, delivered)
  {
    sent := [];
    delivered := false;
    var attempt := 1;
    while attempt <= count
      invariant 1 <= attempt <= count + 1
      invariant request.None? ==> sent == []
      invariant request.Some? ==> |sent| == attempt - 1
      invariant forall k :: 0 <= k < |sent| ==> sent[k] == request.value
      invariant request.Some? ==> forall k :: 1 <= k <= |sent| ==> !Accepted(request.value, replies(k))
    {
      if request.Some? {
        sent := sent + [request.value];
        if Accepted(request.value, replies(attempt)) {
          delivered := true;
          return;
        }
      }
      attempt := attempt + 1;
    }
  }

  /// `send_scan_completion`, with the service's reply to each attempt given.
  method SendScanCompletion(config: NotificationConfig, summary: ScanSummary, replies: nat -> Option<Json>)
    returns (sent: seq<Request>, delivered: bool)
    ensures Retried(ScanRequest(config, summary), config.notificationRetryCount, replies, sent, delivered)
  {
    sent, delivered := [], false;
    if !config.enableScanNotifications {
      return;
    }
    if summary.totalNewVideos < config.notificationMinVideos {
      return;
    }
    if config.activeChannel == "none" {
      return;
    }
    var title, content := FormatScanMessage(summary);
    if config.activeChannel == "serverchan" {
      match config.serverchanKey {
        case None =>
          return;
        case Some(key) =>
          sent, delivered := Deliver(Some(ServerChanRequest(key, title, content)), config.notificationRetryCount, replies);
      }
    } else if config.activeChannel == "wecom" {
      sent, delivered := Deliver(WecomRequest(config, title, FormatWecomContent(content)), config.notificationRetryCount, replies);
    }
  }
}
