/// The favorite-list and uploader-submission video sources: which fetched
/// videos a scan keeps (the incremental cut-off on release time), how a
/// source records its progress, how a video is tied to its source, and the
/// key a source is known by.
module VideoSource {
  import opened Common
  import opened Json

  // ---------------------------------------------------------------------
  // Rust string order
  // ---------------------------------------------------------------------

  /// `a < b` for Rust strings: lexicographic on the UTF-8 bytes, which
  /// orders like the code points.
  predicate StrLess(a: string, b: string)
    decreases |a|
  {
    |b| > 0 && (|a| == 0 || a[0] < b[0] || (a[0] == b[0] && StrLess(a[1..], b[1..])))
  }

  lemma {:induction false} LessIrreflexive(a: string)
    ensures !StrLess(a, a)
    decreases |a|
  {
    if |a| > 0 {
      LessIrreflexive(a[1..]);
    }
  }

  lemma {:induction false} LessAsymmetric(a: string, b: string)
    requires StrLess(a, b)
    ensures !StrLess(b, a)
    decreases |a|
  {
    if |a| > 0 && a[0] == b[0] {
      LessAsymmetric(a[1..], b[1..]);
    }
  }

  lemma {:induction false} LessTransitive(a: string, b: string, c: string)
    requires StrLess(a, b) && StrLess(b, c)
    ensures StrLess(a, c)
    decreases |a|
  {
    if |a| > 0 && a[0] == b[0] && b[0] == c[0] {
      LessTransitive(a[1..], b[1..], c[1..]);
    }
  }

  /// Of two strings of one length, one is smaller or they are equal.
  lemma {:induction false} LessTotal(a: string, b: string)
    requires |a| == |b|
    ensures a == b || StrLess(a, b) || StrLess(b, a)
    decreases |a|
  {
    if |a| > 0 && a[0] == b[0] {
      LessTotal(a[1..], b[1..]);
      if a[1..] == b[1..] {
        assert a == [a[0]] + a[1..] && b == [b[0]] + b[1..];
      }
    }
  }

  /// Comparing two concatenations whose first parts have one length:
  /// the first parts decide unless they are equal.
  lemma {:induction false} LessAppend(a1: string, a2: string, b1: string, b2: string)
    requires |a1| == |b1|
    ensures StrLess(a1 + a2, b1 + b2) <==> StrLess(a1, b1) || (a1 == b1 && StrLess(a2, b2))
    decreases |a1|
  {
    if |a1| == 0 {
      assert a1 + a2 == a2 && b1 + b2 == b2;
    } else {
      assert (a1 + a2)[0] == a1[0] && (a1 + a2)[1..] == a1[1..] + a2;
      assert (b1 + b2)[0] == b1[0] && (b1 + b2)[1..] == b1[1..] + b2;
      LessAppend(a1[1..], a2, b1[1..], b2);
      if a1[0] == b1[0] && a1[1..] == b1[1..] {
        assert a1 == [a1[0]] + a1[1..] && b1 == [b1[0]] + b1[1..];
      }
    }
  }

  /// Digit strings of one length compare like the numbers they spell.
  lemma {:induction false} DigitsLess(a: string, b: string)
    requires AllDigits(a) && AllDigits(b) && |a| == |b|
    ensures StrLess(a, b) <==> ValueIn(a, 10) < ValueIn(b, 10)
    decreases |a|
  {
    if |a| > 0 {
      var a', b' := a[..|a| - 1], b[..|b| - 1];
      var x, y := a[|a| - 1], b[|b| - 1];
      assert a == a' + [x] && b == b' + [y];
      assert AllDigits(a') && AllDigits(b');
      LessAppend(a', [x], b', [y]);
      DigitsLess(a', b');
      DigitsLess(b', a');
      LessTotal(a', b');
      var dx, dy := DigitIn(x, 10).value, DigitIn(y, 10).value;
      assert dx < 10 && dy < 10;
      assert StrLess([x], [y]) <==> dx < dy;
      assert ValueIn(a, 10) == ValueIn(a', 10) * 10 + dx;
      assert ValueIn(b, 10) == ValueIn(b', 10) * 10 + dy;
    }
  }

  // ---------------------------------------------------------------------
  // Release times as `%Y-%m-%d %H:%M:%S`
  // ---------------------------------------------------------------------

  /// A wall-clock time in Beijing time, field by field.
  datatype DateTime = DateTime(year: nat, month: nat, day: nat, hour: nat, minute: nat, second: nat)

  /// Years of four digits and fields within their usual ranges (a leap
  /// second allowed).
  predicate ValidDateTime(t: DateTime)
  {
    t.year <= 9999 && 1 <= t.month <= 12 && 1 <= t.day <= 31
    && t.hour < 24 && t.minute < 60 && t.second <= 60
  }

  function Fields(t: DateTime): seq<nat>
  {
    [t.year, t.month, t.day, t.hour, t.minute, t.second]
  }

  const WIDTHS: seq<nat> := [4, 2, 2, 2, 2, 2]
  const SEPARATORS: seq<string> := ["", "-", "-", " ", ":", ":"]

  /// The value a scan's progress starts from.
  const INITIAL_ROW_AT: string := "1970-01-01 00:00:00"

  function Pow10(n: nat): (r: nat)
    ensures r >= 1
  {
    if n == 0 then 1 else 10 * Pow10(n - 1)
  }

  /// Each field fits its zero-padded width.
  predicate Fit(fields: seq<nat>, widths: seq<nat>)
    requires |fields| == |widths|
  {
    forall i :: 0 <= i < |fields| ==> 1 <= widths[i] && fields[i] < Pow10(widths[i])
  }

  /// Each field zero-padded to its width, after its separator.
  function Render(fields: seq<nat>, widths: seq<nat>, seps: seq<string>): string
    requires |fields| == |widths| == |seps|
  {
    if |fields| == 0 then ""
    else seps[0] + PadNat(fields[0], widths[0]) + Render(fields[1..], widths[1..], seps[1..])
  }

  /// `format("%Y-%m-%d %H:%M:%S")`.
  function FormatDateTime(t: DateTime): string
  {
    Render(Fields(t), WIDTHS, SEPARATORS)
  }

  /// Fields compared one after the other.
  predicate LexLess(fs: seq<nat>, gs: seq<nat>)
    requires |fs| == |gs|
  {
    |fs| > 0 && (fs[0] < gs[0] || (fs[0] == gs[0] && LexLess(fs[1..], gs[1..])))
  }

  /// `a` is strictly earlier than `b`.
  predicate Before(a: DateTime, b: DateTime)
  {
    LexLess(Fields(a), Fields(b))
  }

  lemma {:induction false} NatToStringFits(n: nat, w: nat)
    requires 1 <= w && n < Pow10(w)
    ensures |NatToString(n)| <= w
    decreases w
  {
    if n >= 10 {
      assert w >= 2;
      NatToStringFits(n / 10, w - 1);
    }
  }

  lemma {:induction false} RenderOrder(fs: seq<nat>, gs: seq<nat>, ws: seq<nat>, ss: seq<string>)
    requires |fs| == |gs| == |ws| == |ss|
    requires Fit(fs, ws) && Fit(gs, ws)
    ensures StrLess(Render(fs, ws, ss), Render(gs, ws, ss)) <==> LexLess(fs, gs)
  {
    if |fs| > 0 {
      var pf, pg := PadNat(fs[0], ws[0]), PadNat(gs[0], ws[0]);
      NatToStringFits(fs[0], ws[0]);
      NatToStringFits(gs[0], ws[0]);
      assert |pf| == ws[0] == |pg|;
      var hf, hg := ss[0] + pf, ss[0] + pg;
      var rf, rg := Render(fs[1..], ws[1..], ss[1..]), Render(gs[1..], ws[1..], ss[1..]);
      assert Render(fs, ws, ss) == hf + rf;
      assert Render(gs, ws, ss) == hg + rg;
      LessAppend(hf, rf, hg, rg);
      LessAppend(ss[0], pf, ss[0], pg);
      LessIrreflexive(ss[0]);
      DigitsLess(pf, pg);
      if hf == hg {
        assert pf == hf[|ss[0]|..] == pg;
      }
      assert Fit(fs[1..], ws[1..]) && Fit(gs[1..], ws[1..]) by {
        forall i | 0 <= i < |fs| - 1
          ensures 1 <= ws[1..][i] && fs[1..][i] < Pow10(ws[1..][i]) && gs[1..][i] < Pow10(ws[1..][i])
        {
          assert ws[1..][i] == ws[i + 1];
        }
      }
      RenderOrder(fs[1..], gs[1..], ws[1..], ss[1..]);
    }
  }

  lemma ValidFits(t: DateTime)
    requires ValidDateTime(t)
    ensures Fit(Fields(t), WIDTHS)
  {
    assert Pow10(4) == 10000 && Pow10(2) == 100;
  }

  /// Comparing formatted times as strings is comparing the times: the
  /// incremental cut-off is chronological.
  lemma FormatOrder(a: DateTime, b: DateTime)
    requires ValidDateTime(a) && ValidDateTime(b)
    ensures StrLess(FormatDateTime(a), FormatDateTime(b)) <==> Before(a, b)
  {
    ValidFits(a);
    ValidFits(b);
    RenderOrder(Fields(a), Fields(b), WIDTHS, SEPARATORS);
  }

  lemma FormatNotEmpty(t: DateTime)
    ensures FormatDateTime(t) != ""
  {
    assert |PadNat(t.year, 4)| >= 4;
    assert |FormatDateTime(t)| >= |PadNat(t.year, 4)|;
  }

  // ---------------------------------------------------------------------
  // The two sources and their updates
  // ---------------------------------------------------------------------

  datatype Favorite = Favorite(id: int, fid: int, name: string, path: string,
                               latestRowAt: string, scanDeletedVideos: bool)

  datatype Submission = Submission(id: int, upperId: int, upperName: string, path: string,
                                   latestRowAt: string, selectedVideos: Option<string>,
                                   scanDeletedVideos: bool)

  /// `sea_orm::ActiveValue`: a column to write, one that identifies the
  /// row, or one left alone.
  datatype ActiveValue<T> = NotSet | Set(value: T) | Unchanged(value: T)

  /// The written value of a column: a `Set` one, otherwise what was stored.
  function Written<T>(stored: T, v: ActiveValue<T>): T
  {
    if v.Set? then v.value else stored
  }

  /// The active model `update_latest_row_at` builds; every other column is
  /// left at its default, `NotSet`.
  datatype RowAtChange = RowAtChange(id: ActiveValue<int>, latestRowAt: ActiveValue<string>)

  /// `_ActiveModel`: which table the change is for.
  datatype SourceChange = FavoriteChange(change: RowAtChange) | SubmissionChange(change: RowAtChange)

  /// Writing a change to a stored favorite row by primary key.
  function ApplyToFavorite(row: Favorite, change: RowAtChange): Favorite
  {
    if change.id.Unchanged? && change.id.value == row.id then
      row.(id := Written(row.id, change.id), latestRowAt := Written(row.latestRowAt, change.latestRowAt))
    else row
  }

  function ApplyToSubmission(row: Submission, change: RowAtChange): Submission
  {
    if change.id.Unchanged? && change.id.value == row.id then
      row.(id := Written(row.id, change.id), latestRowAt := Written(row.latestRowAt, change.latestRowAt))
    else row
  }

  /// `update_latest_row_at` of a favorite list.
  function FavoriteUpdateLatestRowAt(source: Favorite, datetime: string): (r: SourceChange)
    ensures r.FavoriteChange?
    ensures forall row :: ApplyToFavorite(row, r.change) ==
              if row.id == source.id then row.(latestRowAt := datetime) else row
  {
    FavoriteChange(RowAtChange(Unchanged(source.id), Set(datetime)))
  }

  /// `update_latest_row_at` of an uploader's submissions.
  function SubmissionUpdateLatestRowAt(source: Submission, datetime: string): (r: SourceChange)
    ensures r.SubmissionChange?
    ensures forall row :: ApplyToSubmission(row, r.change) ==
              if row.id == source.id then row.(latestRowAt := datetime) else row
  {
    SubmissionChange(RowAtChange(Unchanged(source.id), Set(datetime)))
  }

  // ---------------------------------------------------------------------
  // Tying a video to its source
  // ---------------------------------------------------------------------

  /// The source columns of a stored video.
  datatype Video = Video(favoriteId: Option<int>, submissionId: Option<int>, sourceSubmissionId: Option<int>)

  /// The active model of a video being saved: its source columns.
  class VideoModel {
    var favoriteId: ActiveValue<Option<int>>
    var submissionId: ActiveValue<Option<int>>
    var sourceSubmissionId: ActiveValue<Option<int>>

    constructor ()
      ensures favoriteId == NotSet && submissionId == NotSet && sourceSubmissionId == NotSet
    {
      favoriteId := NotSet;
      submissionId := NotSet;
      sourceSubmissionId := NotSet;
    }

    /// The stored video after this model is saved over `stored`.
    function Saved(stored: Video): Video
      reads this
    {
      Video(Written(stored.favoriteId, favoriteId), Written(stored.submissionId, submissionId),
            Written(stored.sourceSubmissionId, sourceSubmissionId))
    }
  }

  /// `filter_expr` of a favorite list: its videos.
  predicate FavoriteFilter(source: Favorite, v: Video)
  {
    v.favoriteId == Some(source.id)
  }

  /// `filter_expr` of a submission source.
  predicate SubmissionFilter(source: Submission, v: Video)
  {
    v.submissionId == Some(source.id)
  }

  /// `set_relation_id` of a favorite list: the saved video is one of the
  /// list's, whatever was stored before; no other column is touched.
  method FavoriteSetRelationId(source: Favorite, video: VideoModel)
    modifies video
    ensures video.favoriteId == Set(Some(source.id))
    ensures video.submissionId == old(video.submissionId)
    ensures video.sourceSubmissionId == old(video.sourceSubmissionId)
    ensures forall stored :: FavoriteFilter(source, video.Saved(stored))
  {
    video.favoriteId := Set(Some(source.id));
  }

  /// `set_relation_id` of a submission source: the video belongs to the
  /// uploader both as a submission and as the source of a co-authored one.
  method SubmissionSetRelationId(source: Submission, video: VideoModel)
    modifies video
    ensures video.submissionId == Set(Some(source.id))
    ensures video.sourceSubmissionId == Set(Some(source.id))
    ensures video.favoriteId == old(video.favoriteId)
    ensures forall stored :: SubmissionFilter(source, video.Saved(stored))
                             && video.Saved(stored).sourceSubmissionId == Some(source.id)
  {
    video.submissionId := Set(Some(source.id));
    video.sourceSubmissionId := Set(Some(source.id));
  }

  // ---------------------------------------------------------------------
  // should_take
  // ---------------------------------------------------------------------

  /// A progress value that means nothing was scanned yet.
  predicate FirstScan(latestRowAt: string)
  {
    latestRowAt == "" || latestRowAt == INITIAL_ROW_AT
  }

  /// `should_take` of a favorite list: everything while deleted videos are
  /// scanned for or on a first scan, otherwise only videos released after
  /// the progress mark, compared as formatted strings.
  function FavoriteShouldTake(source: Favorite, release: DateTime, latestRowAt: string): (r: bool)
    ensures source.scanDeletedVideos ==> r
    ensures FirstScan(latestRowAt) ==> r
    ensures !source.scanDeletedVideos && !FirstScan(latestRowAt) ==>
              (r <==> StrLess(latestRowAt, FormatDateTime(release)))
  {
    if source.scanDeletedVideos then true
    else if FirstScan(latestRowAt) then true
    else StrLess(latestRowAt, FormatDateTime(release))
  }

  /// Once a favorite list has progress from a real scan, a video is taken
  /// exactly when it was released after that scan's newest video.
  lemma FavoriteTakesNewer(source: Favorite, release: DateTime, last: DateTime)
    requires !source.scanDeletedVideos
    requires ValidDateTime(release) && ValidDateTime(last)
    requires FormatDateTime(last) != INITIAL_ROW_AT
    ensures FavoriteShouldTake(source, release, FormatDateTime(last)) <==> Before(last, release)
  {
    FormatNotEmpty(last);
    FormatOrder(last, release);
  }

  /// The list comes newest first, so the videos a scan takes are a prefix
  /// of it: the scan may stop at the first one it does not take.
  lemma FavoriteTakesPrefix(source: Favorite, releases: seq<DateTime>, latestRowAt: string, i: nat, j: nat)
    requires forall k :: 0 <= k < |releases| ==> ValidDateTime(releases[k])
    requires forall k, l :: 0 <= k < l < |releases| ==> !Before(releases[k], releases[l])
    requires i < j < |releases|
    requires FavoriteShouldTake(source, releases[j], latestRowAt)
    ensures FavoriteShouldTake(source, releases[i], latestRowAt)
  {
    if !source.scanDeletedVideos && !FirstScan(latestRowAt) {
      var fi, fj := FormatDateTime(releases[i]), FormatDateTime(releases[j]);
      FormatOrder(releases[i], releases[j]);
      FormatLength(releases[i]);
      FormatLength(releases[j]);
      LessTotal(fi, fj);
      if fi != fj {
        LessTransitive(latestRowAt, fj, fi);
      }
    }
  }

  /// The length of a rendering whose fields fit their widths.
  function RenderWidth(widths: seq<nat>, seps: seq<string>): nat
    requires |widths| == |seps|
  {
    if |widths| == 0 then 0 else |seps[0]| + widths[0] + RenderWidth(widths[1..], seps[1..])
  }

  lemma {:induction false} RenderLength(fs: seq<nat>, ws: seq<nat>, ss: seq<string>)
    requires |fs| == |ws| == |ss| && Fit(fs, ws)
    ensures |Render(fs, ws, ss)| == RenderWidth(ws, ss)
  {
    if |fs| > 0 {
      NatToStringFits(fs[0], ws[0]);
      assert Fit(fs[1..], ws[1..]) by {
        forall i | 0 <= i < |fs| - 1
          ensures 1 <= ws[1..][i] && fs[1..][i] < Pow10(ws[1..][i])
        {
          assert ws[1..][i] == ws[i + 1];
        }
      }
      RenderLength(fs[1..], ws[1..], ss[1..]);
    }
  }

  lemma FormatLength(t: DateTime)
    requires ValidDateTime(t)
    ensures |FormatDateTime(t)| == 19
  {
    ValidFits(t);
    RenderLength(Fields(t), WIDTHS, SEPARATORS);
    assert RenderWidth(WIDTHS, SEPARATORS) == 19;
  }

  /// `should_take` of an uploader's submissions. `checkpoints` are the
  /// uploaders whose interrupted scan is being resumed (the page tracker's
  /// keys) and `incrementalFetch` the current risk-control setting.
  function SubmissionShouldTake(source: Submission, checkpoints: set<string>, incrementalFetch: bool,
                                release: DateTime, latestRowAt: string): (r: bool)
    ensures IntToString(source.upperId) in checkpoints ==> r
    ensures source.selectedVideos.Some? && FirstScan(latestRowAt) ==> r
    ensures IntToString(source.upperId) !in checkpoints && !incrementalFetch && source.selectedVideos.None? ==> r
    ensures IntToString(source.upperId) !in checkpoints
            && (incrementalFetch || source.selectedVideos.Some?)
            && !(source.selectedVideos.Some? && FirstScan(latestRowAt)) ==>
              (r <==> StrLess(latestRowAt, FormatDateTime(release)))
  {
    if IntToString(source.upperId) in checkpoints then true
    else if source.selectedVideos.Some? && FirstScan(latestRowAt) then true
    else if incrementalFetch || source.selectedVideos.Some? then StrLess(latestRowAt, FormatDateTime(release))
    else true
  }

  /// With incremental fetching on and no scan to resume, an uploader's
  /// video is taken exactly when it is newer than the last scan's newest.
  lemma SubmissionTakesNewer(source: Submission, checkpoints: set<string>, release: DateTime, last: DateTime)
    requires IntToString(source.upperId) !in checkpoints
    requires ValidDateTime(release) && ValidDateTime(last)
    requires FormatDateTime(last) != INITIAL_ROW_AT
    ensures SubmissionShouldTake(source, checkpoints, true, release, FormatDateTime(last)) <==> Before(last, release)
  {
    FormatNotEmpty(last);
    FormatOrder(last, release);
  }

  // ---------------------------------------------------------------------
  // Selected videos and source keys
  // ---------------------------------------------------------------------

  /// The strings of a JSON array whose items are all strings.
  function StringsOf(items: seq<Json>): (r: Option<seq<string>>)
    ensures r.Some? <==> forall i :: 0 <= i < |items| ==> items[i].JString?
    ensures r.Some? ==> |r.value| == |items| && forall i :: 0 <= i < |items| ==> items[i] == JString(r.value[i])
  {
    if |items| == 0 then Some([])
    else if !items[0].JString? then None
    else
      match StringsOf(items[1..])
      case None => None
      case Some(rest) => Some([items[0].s] + rest)
  }

  /// `get_selected_videos`: the chosen video ids, when the column holds a
  /// JSON array of strings; nothing when it is absent or holds anything
  /// else. `parse` is the JSON parser.
  function GetSelectedVideos(source: Submission, parse: string -> Option<Json>): (r: Option<seq<string>>)
    ensures r.Some? <==> source.selectedVideos.Some? && parse(source.selectedVideos.value).Some?
                         && parse(source.selectedVideos.value).value.JArray?
                         && forall i :: 0 <= i < |parse(source.selectedVideos.value).value.items| ==>
                              parse(source.selectedVideos.value).value.items[i].JString?
    ensures r.Some? ==> var items := parse(source.selectedVideos.value).value.items;
                        |r.value| == |items| && forall i :: 0 <= i < |items| ==> items[i] == JString(r.value[i])
  {
    match source.selectedVideos
    case None => None
    case Some(text) =>
      match parse(text)
      case Some(JArray(items)) => StringsOf(items)
      case _ => None
  }

  /// `source_key` of a favorite list.
  function FavoriteSourceKey(source: Favorite): (r: string)
    ensures StartsWith(r, "favorite_")
  {
    "favorite_" + IntToString(source.id)
  }

  /// `source_key` of a submission source.
  function SubmissionSourceKey(source: Submission): (r: string)
    ensures StartsWith(r, "submission_")
  {
    "submission_" + IntToString(source.id)
  }

  /// The sign shows in the first character.
  lemma SignChar(a: int)
    ensures |IntToString(a)| > 0
    ensures a < 0 <==> IntToString(a)[0] == '-'
  {
    if a >= 0 {
      assert '0' <= NatToString(a)[0] <= '9';
    }
  }

  lemma IntToStringInjective(a: int, b: int)
    requires IntToString(a) == IntToString(b)
    ensures a == b
  {
    SignChar(a);
    SignChar(b);
    if a < 0 {
      assert IntToString(a)[1..] == NatToString(-a) && IntToString(b)[1..] == NatToString(-b);
      NatToStringInjective(-a, -b);
    } else {
      NatToStringInjective(a, b);
    }
  }

  /// Keys name one source each: two sources share a key only when they
  /// are the same kind with the same id.
  lemma SourceKeysDistinct(f: Favorite, g: Favorite, s: Submission, t: Submission)
    ensures FavoriteSourceKey(f) != SubmissionSourceKey(s)
    ensures FavoriteSourceKey(f) == FavoriteSourceKey(g) ==> f.id == g.id
    ensures SubmissionSourceKey(s) == SubmissionSourceKey(t) ==> s.id == t.id
  {
    assert FavoriteSourceKey(f)[0] == 'f' && SubmissionSourceKey(s)[0] == 's';
    if FavoriteSourceKey(f) == FavoriteSourceKey(g) {
      assert FavoriteSourceKey(f)[9..] == IntToString(f.id);
      assert FavoriteSourceKey(g)[9..] == IntToString(g.id);
      IntToStringInjective(f.id, g.id);
    }
    if SubmissionSourceKey(s) == SubmissionSourceKey(t) {
      assert SubmissionSourceKey(s)[11..] == IntToString(s.id);
      assert SubmissionSourceKey(t)[11..] == IntToString(t.id);
      IntToStringInjective(s.id, t.id);
    }
  }
}
