/// The application configuration (`Config` in `config/mod.rs`): its
/// defaults, the list of video sources it describes, and the start-up
/// check that refuses an unusable configuration.
module ConfigSources {
  import opened Common

  /// A bilibili collection: a season or a series of an uploader.
  datatype CollectionItem = CollectionItem(collectionType: string, upperId: string, collectionId: string)

  datatype FavoriteConfig = FavoriteConfig(fid: string, path: string)
  datatype CollectionConfig = CollectionConfig(collectionType: string, upperId: string, collectionId: string, path: string)
  datatype SubmissionConfig = SubmissionConfig(upperId: string, path: string)
  datatype WatchLaterConfig = WatchLaterConfig(enabled: bool, path: string)
  datatype BangumiConfig = BangumiConfig(seasonId: Option<string>, mediaId: Option<string>, epId: Option<string>, path: string)

  /// The login cookies the check needs.
  datatype Credential = Credential(sessdata: string, biliJct: string, buvid3: string, dedeuserid: string, acTimeValue: string)

  /// The concurrency limits: videos at once and pages per video.
  datatype ConcurrentLimit = ConcurrentLimit(video: nat, page: nat)

  /// The fields of the configuration the sources, the check and the
  /// defaults involve. The legacy lists are maps, iterated in no fixed
  /// order.
  datatype Config = Config(
    bindAddress: string,
    credential: Option<Credential>,
    favoriteListV2: seq<FavoriteConfig>,
    collectionListV2: seq<CollectionConfig>,
    submissionListV2: seq<SubmissionConfig>,
    favoriteList: map<string, string>,
    collectionList: map<CollectionItem, string>,
    submissionList: map<string, string>,
    watchLater: WatchLaterConfig,
    bangumi: seq<BangumiConfig>,
    videoName: string,
    pageName: string,
    multiPageName: string,
    bangumiName: string,
    folderStructure: string,
    interval: nat,
    upperPath: string,
    concurrentLimit: ConcurrentLimit,
    timeFormat: string,
    cdnSorting: bool)

  /// `Path::join` of a relative file name onto a directory.
  function JoinPath(dir: string, name: string): string
  {
    if dir == "" then name
    else if dir[|dir| - 1] == '/' then dir + name
    else dir + "/" + name
  }

  /// A Unix path is absolute when it starts at the root.
  predicate IsAbsolute(path: string)
  {
    |path| > 0 && path[0] == '/'
  }

  /// `Config::default`, under the configuration directory, with the
  /// concurrency and credential defaults of their own types.
  function DefaultConfig(configDir: string, limit: ConcurrentLimit, credential: Credential): Config
  {
    Config(
      "0.0.0.0:12345", Some(credential),
      [], [], [], map[], map[], map[],
      WatchLaterConfig(false, ""), [],
      "{{title}}", "{{title}}", "{{title}}-P{{pid_pad}}", "S{{season_pad}}E{{pid_pad}}-{{pid_pad}}", "Season 1",
      1200, JoinPath(configDir, "upper_face"), limit, "%Y-%m-%d", true)
  }

  // ---------------------------------------------------------------------
  // Video sources
  // ---------------------------------------------------------------------

  /// The scan target of a source.
  datatype Args =
    | Favorite(fid: string)
    | Collection(item: CollectionItem)
    | Submission(upperId: string)
    | WatchLater
    | Bangumi(seasonId: Option<string>, mediaId: Option<string>, epId: Option<string>)

  datatype VideoSource = VideoSource(args: Args, path: string)

  /// The entries of a map in some order, each once.
  predicate ListsMap<K>(entries: seq<(K, string)>, m: map<K, string>)
  {
    && |entries| == |m|
    && (forall i :: 0 <= i < |entries| ==> entries[i].0 in m && m[entries[i].0] == entries[i].1)
    && (set i | 0 <= i < |entries| :: entries[i].0) == m.Keys
  }

  /// The keys of a list of entries.
  function KeysOf<K>(entries: seq<(K, string)>): set<K>
  {
    set i | 0 <= i < |entries| :: entries[i].0
  }

  /// A `HashMap` walk: the entries come out in an order the map does not
  /// fix, each exactly once.
  method Entries<K>(m: map<K, string>) returns (entries: seq<(K, string)>)
    ensures ListsMap(entries, m)
  {
    entries := [];
    var pending := m.Keys;
    while pending != {}
      invariant pending <= m.Keys
      invariant |entries| + |pending| == |m.Keys|
      invariant forall i :: 0 <= i < |entries| ==> entries[i].0 in m && m[entries[i].0] == entries[i].1
      invariant KeysOf(entries) == m.Keys - pending
      decreases |pending|
    {
      var key :| key in pending;
      KeysOfAppend(entries, (key, m[key]));
      entries := entries + [(key, m[key])];
      pending := pending - {key};
    }
    assert |m.Keys| == |m|;
  }

  lemma KeysOfAppend<K>(entries: seq<(K, string)>, e: (K, string))
    ensures KeysOf(entries + [e]) == KeysOf(entries) + {e.0}
  {
    var longer := entries + [e];
    assert longer[|entries|].0 == e.0;
    forall k | k in KeysOf(entries)
      ensures k in KeysOf(longer)
    {
      var i :| 0 <= i < |entries| && entries[i].0 == k;
      assert longer[i].0 == k;
    }
  }

  function FavoriteV2Sources(configs: seq<FavoriteConfig>): seq<VideoSource>
  {
    seq(|configs|, i requires 0 <= i < |configs| => VideoSource(Favorite(configs[i].fid), configs[i].path))
  }

  function SubmissionV2Sources(configs: seq<SubmissionConfig>): seq<VideoSource>
  {
    seq(|configs|, i requires 0 <= i < |configs| => VideoSource(Submission(configs[i].upperId), configs[i].path))
  }

  function FavoriteEntrySources(entries: seq<(string, string)>): seq<VideoSource>
  {
    seq(|entries|, i requires 0 <= i < |entries| => VideoSource(Favorite(entries[i].0), entries[i].1))
  }

  function CollectionEntrySources(entries: seq<(CollectionItem, string)>): seq<VideoSource>
  {
    seq(|entries|, i requires 0 <= i < |entries| => VideoSource(Collection(entries[i].0), entries[i].1))
  }

  function SubmissionEntrySources(entries: seq<(string, string)>): seq<VideoSource>
  {
    seq(|entries|, i requires 0 <= i < |entries| => VideoSource(Submission(entries[i].0), entries[i].1))
  }

  function BangumiSources(bangumi: seq<BangumiConfig>): seq<VideoSource>
  {
    seq(|bangumi|, i requires 0 <= i < |bangumi| =>
      VideoSource(Bangumi(bangumi[i].seasonId, bangumi[i].mediaId, bangumi[i].epId), bangumi[i].path))
  }

  /// Favorites come from the v2 list when it has any, else from every
  /// entry of the legacy map.
  ghost predicate FavoritesListed(config: Config, s: seq<VideoSource>)
  {
    if |config.favoriteListV2| > 0 then s == FavoriteV2Sources(config.favoriteListV2)
    else exists entries: seq<(string, string)> :: ListsMap(entries, config.favoriteList) && s == FavoriteEntrySources(entries)
  }

  /// A non-empty v2 collection list yields no collection at all; otherwise
  /// every entry of the legacy map is one.
  ghost predicate CollectionsListed(config: Config, s: seq<VideoSource>)
  {
    if |config.collectionListV2| > 0 then s == []
    else exists entries: seq<(CollectionItem, string)> :: ListsMap(entries, config.collectionList) && s == CollectionEntrySources(entries)
  }

  /// Submissions come from the v2 list when it has any, else from every
  /// entry of the legacy map.
  ghost predicate SubmissionsListed(config: Config, s: seq<VideoSource>)
  {
    if |config.submissionListV2| > 0 then s == SubmissionV2Sources(config.submissionListV2)
    else exists entries: seq<(string, string)> :: ListsMap(entries, config.submissionList) && s == SubmissionEntrySources(entries)
  }

  function FavoriteCount(config: Config): nat
  {
    if |config.favoriteListV2| > 0 then |config.favoriteListV2| else |config.favoriteList|
  }

  function CollectionCount(config: Config): nat
  {
    if |config.collectionListV2| > 0 then 0 else |config.collectionList|
  }

  function SubmissionCount(config: Config): nat
  {
    if |config.submissionListV2| > 0 then |config.submissionListV2| else |config.submissionList|
  }

  function WatchLaterSources(config: Config): seq<VideoSource>
  {
    if config.watchLater.enabled then [VideoSource(WatchLater, config.watchLater.path)] else []
  }

  /// The sources in the order `as_video_sources` lists them: favorites,
  /// collections, submissions, watch later, then bangumi.
  ghost predicate SourcesListed(config: Config, params: seq<VideoSource>)
  {
    && |params| == WatchLaterEnd(config) + |config.bangumi|
    && FavoritesListed(config, params[..FavoriteCount(config)])
    && CollectionsListed(config, params[FavoriteCount(config)..CollectionsEnd(config)])
    && SubmissionsListed(config, params[CollectionsEnd(config)..SubmissionsEnd(config)])
    && params[SubmissionsEnd(config)..WatchLaterEnd(config)] == WatchLaterSources(config)
    && params[WatchLaterEnd(config)..] == BangumiSources(config.bangumi)
  }

  /// Where the groups end in the list of sources.
  function CollectionsEnd(config: Config): nat
  {
    FavoriteCount(config) + CollectionCount(config)
  }

  function SubmissionsEnd(config: Config): nat
  {
    CollectionsEnd(config) + SubmissionCount(config)
  }

  function WatchLaterEnd(config: Config): nat
  {
    SubmissionsEnd(config) + |WatchLaterSources(config)|
  }

  /// `as_video_sources`: every source the configuration names, group by
  /// group, the v2 lists replacing the legacy maps when not empty.
  method AsVideoSources(config: Config) returns (params: seq<VideoSource>)
    ensures SourcesListed(config, params)
  {
    var favorites: seq<VideoSource>;
    if |config.favoriteListV2| > 0 {
      favorites := FavoriteV2Sources(config.favoriteListV2);
    } else {
      var entries := Entries(config.favoriteList);
      favorites := FavoriteEntrySources(entries);
    }
    var collections: seq<VideoSource> := [];
    if |config.collectionListV2| == 0 {
      var entries := Entries(config.collectionList);
      collections := CollectionEntrySources(entries);
    }
    var submissions: seq<VideoSource>;
    if |config.submissionListV2| > 0 {
      submissions := SubmissionV2Sources(config.submissionListV2);
    } else {
      var entries := Entries(config.submissionList);
      submissions := SubmissionEntrySources(entries);
    }
    var watchLater := WatchLaterSources(config);
    var bangumi := BangumiSources(config.bangumi);
    params := favorites + collections + submissions + watchLater + bangumi;
    GroupsListed(config, favorites, collections, submissions, watchLater, bangumi, params);
  }

  /// Cutting the concatenated groups at the group lengths gives the
  /// groups back.
  lemma GroupsListed(config: Config, favorites: seq<VideoSource>, collections: seq<VideoSource>,
                     submissions: seq<VideoSource>, watchLater: seq<VideoSource>, bangumi: seq<VideoSource>,
                     params: seq<VideoSource>)
    requires FavoritesListed(config, favorites) && |favorites| == FavoriteCount(config)
    requires CollectionsListed(config, collections) && |collections| == CollectionCount(config)
    requires SubmissionsListed(config, submissions) && |submissions| == SubmissionCount(config)
    requires watchLater == WatchLaterSources(config)
    requires bangumi == BangumiSources(config.bangumi)
    requires params == favorites + collections + submissions + watchLater + bangumi
    ensures SourcesListed(config, params)
  {
    ConcatSlices(favorites, collections, submissions, watchLater, bangumi);
  }

  lemma ConcatSlices<T>(a: seq<T>, b: seq<T>, c: seq<T>, d: seq<T>, e: seq<T>)
    ensures var all := a + b + c + d + e;
      && all[..|a|] == a
      && all[|a|..|a| + |b|] == b
      && all[|a| + |b|..|a| + |b| + |c|] == c
      && all[|a| + |b| + |c|..|a| + |b| + |c| + |d|] == d
      && all[|a| + |b| + |c| + |d|..] == e
  {
    var all := a + b + c + d + e;
    assert all[|a|..] == b + c + d + e;
    assert all[|a| + |b|..] == c + d + e;
    assert all[|a| + |b| + |c|..] == d + e;
  }

  // ---------------------------------------------------------------------
  // The start-up check
  // ---------------------------------------------------------------------

  /// Every path of a list of sources is absolute.
  predicate AllAbsolute(s: seq<VideoSource>)
  {
    forall i :: 0 <= i < |s| ==> IsAbsolute(s[i].path)
  }

  /// The configured source paths are all absolute, stated on the
  /// configuration itself: the lists and maps in use, the watch-later
  /// path when it is enabled, and every bangumi path.
  predicate SourcePathsAbsolute(config: Config)
  {
    && FavoritePathsAbsolute(config)
    && CollectionPathsAbsolute(config)
    && SubmissionPathsAbsolute(config)
    && (config.watchLater.enabled ==> IsAbsolute(config.watchLater.path))
    && BangumiPathsAbsolute(config.bangumi)
  }

  predicate FavoritePathsAbsolute(config: Config)
  {
    if |config.favoriteListV2| > 0 then forall c :: c in config.favoriteListV2 ==> IsAbsolute(c.path)
    else forall k :: k in config.favoriteList ==> IsAbsolute(config.favoriteList[k])
  }

  predicate CollectionPathsAbsolute(config: Config)
  {
    |config.collectionListV2| == 0 ==> forall k :: k in config.collectionList ==> IsAbsolute(config.collectionList[k])
  }

  predicate SubmissionPathsAbsolute(config: Config)
  {
    if |config.submissionListV2| > 0 then forall c :: c in config.submissionListV2 ==> IsAbsolute(c.path)
    else forall k :: k in config.submissionList ==> IsAbsolute(config.submissionList[k])
  }

  predicate BangumiPathsAbsolute(bangumi: seq<BangumiConfig>)
  {
    forall b :: b in bangumi ==> IsAbsolute(b.path)
  }

  /// The configuration names something to scan.
  predicate HasSources(config: Config)
  {
    FavoriteCount(config) + CollectionCount(config) + SubmissionCount(config)
      + |WatchLaterSources(config)| + |config.bangumi| > 0
  }

  /// The naming templates are all set.
  predicate TemplatesSet(config: Config)
  {
    && config.videoName != "" && config.pageName != "" && config.multiPageName != ""
    && config.bangumiName != "" && config.folderStructure != ""
  }

  /// A missing credential, or one with an empty cookie, is fatal.
  predicate CredentialIncomplete(credential: Option<Credential>)
  {
    match credential
    case None => true
    case Some(c) => c.sessdata == "" || c.biliJct == "" || c.buvid3 == "" || c.dedeuserid == "" || c.acTimeValue == ""
  }

  /// What the check accepts.
  ghost predicate ConfigAcceptable(config: Config)
  {
    && HasSources(config)
    && SourcePathsAbsolute(config)
    && IsAbsolute(config.upperPath)
    && TemplatesSet(config)
    && !CredentialIncomplete(config.credential)
    && config.concurrentLimit.video > 0 && config.concurrentLimit.page > 0
  }

  /// How the check ends: with a verdict, or with a panic on a fatal error.
  datatype CheckOutcome = Checked(ok: bool) | Panicked

  /// `Config::check`: every problem is reported and clears the verdict; a
  /// credential problem is fatal and panics once all are reported.
  method Check(config: Config) returns (r: CheckOutcome)
    ensures r == Panicked <==> CredentialIncomplete(config.credential)
    ensures r.Checked? ==> (r.ok <==> ConfigAcceptable(config))
  {
    var ok := true;
    var criticalError := false;
    var videoSources := AsVideoSources(config);
    if |videoSources| == 0 && |config.bangumi| == 0 {
      ok := false;
    }
    var sourcePathsOk := PathsAbsolute(videoSources);
    if !sourcePathsOk {
      ok := false;
    }
    var bangumiPathsOk := BangumiAbsolute(config.bangumi);
    if !bangumiPathsOk {
      ok := false;
    }
    SourcesCounted(config, videoSources);
    SourcePathsChecked(config, videoSources);
    if !IsAbsolute(config.upperPath) {
      ok := false;
    }
    if config.videoName == "" {
      ok := false;
    }
    if config.pageName == "" {
      ok := false;
    }
    if config.multiPageName == "" {
      ok := false;
    }
    if config.bangumiName == "" {
      ok := false;
    }
    if config.folderStructure == "" {
      ok := false;
    }
    match config.credential {
      case Some(credential) =>
        if credential.sessdata == "" || credential.biliJct == "" || credential.buvid3 == ""
           || credential.dedeuserid == "" || credential.acTimeValue == "" {
          ok := false;
          criticalError := true;
        }
      case None =>
        ok := false;
        criticalError := true;
    }
    if !(config.concurrentLimit.video > 0 && config.concurrentLimit.page > 0) {
      ok := false;
    }
    if criticalError {
      return Panicked;
    }
    r := Checked(ok);
  }

  /// The loop over the sources of `check`: whether every path is
  /// absolute (each bad one is reported).
  method PathsAbsolute(sources: seq<VideoSource>) returns (ok: bool)
    ensures ok == AllAbsolute(sources)
  {
    ok := true;
    var i: nat := 0;
    while i < |sources|
      invariant i <= |sources|
      invariant ok == AllAbsolute(sources[..i])
    {
      if !IsAbsolute(sources[i].path) {
        ok := false;
      }
      assert sources[..i + 1] == sources[..i] + [sources[i]];
      AllAbsoluteConcat(sources[..i], [sources[i]]);
      i := i + 1;
    }
    assert sources[..i] == sources;
  }

  /// The loop over the bangumi of `check`.
  method BangumiAbsolute(bangumi: seq<BangumiConfig>) returns (ok: bool)
    ensures ok == BangumiPathsAbsolute(bangumi)
  {
    ok := true;
    var i: nat := 0;
    while i < |bangumi|
      invariant i <= |bangumi|
      invariant ok == forall k :: 0 <= k < i ==> IsAbsolute(bangumi[k].path)
    {
      if !IsAbsolute(bangumi[i].path) {
        ok := false;
      }
      i := i + 1;
    }
  }

  /// The listed sources are empty exactly when the configuration names
  /// nothing to scan.
  lemma SourcesCounted(config: Config, params: seq<VideoSource>)
    requires SourcesListed(config, params)
    ensures |params| == 0 <==> !HasSources(config)
  {
  }

  /// A walk over the entries of a map sees every path of the map.
  lemma EntriesAbsolute<K>(entries: seq<(K, string)>, m: map<K, string>)
    requires ListsMap(entries, m)
    ensures (forall i :: 0 <= i < |entries| ==> IsAbsolute(entries[i].1)) <==> (forall k :: k in m ==> IsAbsolute(m[k]))
  {
    if forall i :: 0 <= i < |entries| ==> IsAbsolute(entries[i].1) {
      forall k | k in m
        ensures IsAbsolute(m[k])
      {
        assert k in KeysOf(entries);
        var i :| 0 <= i < |entries| && entries[i].0 == k;
      }
    }
  }

  /// Checking the path of every listed source is checking the paths the
  /// configuration names.
  lemma SourcePathsChecked(config: Config, params: seq<VideoSource>)
    requires SourcesListed(config, params)
    ensures AllAbsolute(params) && BangumiPathsAbsolute(config.bangumi) <==> SourcePathsAbsolute(config)
  {
    var f, c, s, w := FavoriteCount(config), CollectionsEnd(config), SubmissionsEnd(config), WatchLaterEnd(config);
    SlicesCover(params, f, c, s, w);
    FavoritePathsChecked(config, params[..f]);
    CollectionPathsChecked(config, params[f..c]);
    SubmissionPathsChecked(config, params[c..s]);
    WatchLaterPathChecked(config);
    BangumiPathsChecked(config.bangumi);
  }

  lemma WatchLaterPathChecked(config: Config)
    ensures AllAbsolute(WatchLaterSources(config)) <==> (config.watchLater.enabled ==> IsAbsolute(config.watchLater.path))
  {
    if config.watchLater.enabled {
      assert WatchLaterSources(config)[0] == VideoSource(WatchLater, config.watchLater.path);
    }
  }

  /// The paths of a list cut in five are all absolute when those of each
  /// piece are.
  lemma SlicesCover(params: seq<VideoSource>, f: nat, c: nat, s: nat, w: nat)
    requires f <= c <= s <= w <= |params|
    ensures AllAbsolute(params) <==>
      AllAbsolute(params[..f]) && AllAbsolute(params[f..c]) && AllAbsolute(params[c..s])
      && AllAbsolute(params[s..w]) && AllAbsolute(params[w..])
  {
    assert params == params[..f] + params[f..c] + params[c..s] + params[s..w] + params[w..];
    AllAbsoluteConcat(params[..f], params[f..c]);
    AllAbsoluteConcat(params[..f] + params[f..c], params[c..s]);
    AllAbsoluteConcat(params[..f] + params[f..c] + params[c..s], params[s..w]);
    AllAbsoluteConcat(params[..f] + params[f..c] + params[c..s] + params[s..w], params[w..]);
  }

  lemma AllAbsoluteConcat(a: seq<VideoSource>, b: seq<VideoSource>)
    ensures AllAbsolute(a + b) <==> AllAbsolute(a) && AllAbsolute(b)
  {
    if AllAbsolute(a + b) {
      forall i | 0 <= i < |a|
        ensures IsAbsolute(a[i].path)
      {
        assert (a + b)[i] == a[i];
      }
      forall i | 0 <= i < |b|
        ensures IsAbsolute(b[i].path)
      {
        assert (a + b)[|a| + i] == b[i];
      }
    }
    if AllAbsolute(a) && AllAbsolute(b) {
      forall i | 0 <= i < |a + b|
        ensures IsAbsolute((a + b)[i].path)
      {
        if i < |a| {
          assert (a + b)[i] == a[i];
        } else {
          assert (a + b)[i] == b[i - |a|];
        }
      }
    }
  }

  lemma FavoritePathsChecked(config: Config, s: seq<VideoSource>)
    requires FavoritesListed(config, s)
    ensures AllAbsolute(s) <==> FavoritePathsAbsolute(config)
  {
    if |config.favoriteListV2| > 0 {
      var v2 := config.favoriteListV2;
      if AllAbsolute(s) {
        forall c | c in v2
          ensures IsAbsolute(c.path)
        {
          var i :| 0 <= i < |v2| && v2[i] == c;
          assert s[i].path == c.path;
        }
      }
    } else {
      var entries: seq<(string, string)> :| ListsMap(entries, config.favoriteList) && s == FavoriteEntrySources(entries);
      EntriesAbsolute(entries, config.favoriteList);
      assert forall i :: 0 <= i < |s| ==> s[i].path == entries[i].1;
    }
  }

  lemma CollectionPathsChecked(config: Config, s: seq<VideoSource>)
    requires CollectionsListed(config, s)
    ensures AllAbsolute(s) <==> CollectionPathsAbsolute(config)
  {
    if |config.collectionListV2| == 0 {
      var entries: seq<(CollectionItem, string)> :| ListsMap(entries, config.collectionList) && s == CollectionEntrySources(entries);
      EntriesAbsolute(entries, config.collectionList);
      assert forall i :: 0 <= i < |s| ==> s[i].path == entries[i].1;
    }
  }

  lemma SubmissionPathsChecked(config: Config, s: seq<VideoSource>)
    requires SubmissionsListed(config, s)
    ensures AllAbsolute(s) <==> SubmissionPathsAbsolute(config)
  {
    if |config.submissionListV2| > 0 {
      var v2 := config.submissionListV2;
      if AllAbsolute(s) {
        forall c | c in v2
          ensures IsAbsolute(c.path)
        {
          var i :| 0 <= i < |v2| && v2[i] == c;
          assert s[i].path == c.path;
        }
      }
    } else {
      var entries: seq<(string, string)> :| ListsMap(entries, config.submissionList) && s == SubmissionEntrySources(entries);
      EntriesAbsolute(entries, config.submissionList);
      assert forall i :: 0 <= i < |s| ==> s[i].path == entries[i].1;
    }
  }

  lemma BangumiPathsChecked(bangumi: seq<BangumiConfig>)
    ensures AllAbsolute(BangumiSources(bangumi)) <==> BangumiPathsAbsolute(bangumi)
  {
    var s := BangumiSources(bangumi);
    if AllAbsolute(s) {
      forall b | b in bangumi
        ensures IsAbsolute(b.path)
      {
        var i :| 0 <= i < |bangumi| && bangumi[i] == b;
        assert s[i].path == b.path;
      }
    }
  }

  /// The default configuration names nothing to scan, so the check never
  /// accepts it as it is.
  lemma DefaultConfigRejected(configDir: string, limit: ConcurrentLimit, credential: Credential)
    ensures !HasSources(DefaultConfig(configDir, limit, credential))
    ensures !ConfigAcceptable(DefaultConfig(configDir, limit, credential))
    ensures TemplatesSet(DefaultConfig(configDir, limit, credential))
    ensures IsAbsolute(configDir) ==> IsAbsolute(DefaultConfig(configDir, limit, credential).upperPath)
  {
  }
}
