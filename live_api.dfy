/// The live-room API's value types and the stream URL pool: the room
/// status and quality enums, the CDN node read out of a stream URL, and
/// `StreamUrlPool`, a small pool of stream URLs that drops duplicates,
/// evicts the least recently used entry when full and picks the best
/// unexpired URL.
module LiveApi {
  import opened Common

  // ---------------------------------------------------------------------
  // Room status and quality
  // ---------------------------------------------------------------------

  datatype LiveStatus = NotLive | Live

  /// The enum's discriminant.
  function LiveStatusCode(s: LiveStatus): int
  {
    match s
    case NotLive => 0
    case Live => 1
  }

  /// `LiveStatus::from(i32)`: 1 is live; every other value, including 2
  /// (a rebroadcast), is not.
  function LiveStatusFrom(v: int): (r: LiveStatus)
    ensures r == Live <==> v == 1
  {
    if v == 1 then Live else NotLive
  }

  /// Converting a status to its discriminant and back is the identity.
  lemma LiveStatusRoundTrip(s: LiveStatus)
    ensures LiveStatusFrom(LiveStatusCode(s)) == s
  {
  }

  datatype Quality = Fluent | High | SuperClear | BluRay | Original

  /// The `qn` value of each quality.
  function QualityCode(q: Quality): nat
  {
    match q
    case Fluent => 80
    case High => 150
    case SuperClear => 250
    case BluRay => 400
    case Original => 10000
  }

  /// The configuration name each quality is read from.
  function QualityKey(q: Quality): string
  {
    match q
    case Fluent => "fluent"
    case High => "high"
    case SuperClear => "super_clear"
    case BluRay => "blue_ray"
    case Original => "original"
  }

  const QUALITY_KEYS: set<string> := {"fluent", "high", "super_clear", "blue_ray", "original"}

  /// `Quality::from(&str)`: the five names, anything else High.
  function QualityFrom(name: string): (r: Quality)
    ensures name !in QUALITY_KEYS ==> r == High
  {
    if name == "fluent" then Fluent
    else if name == "high" then High
    else if name == "super_clear" then SuperClear
    else if name == "blue_ray" then BluRay
    else if name == "original" then Original
    else High
  }

  /// Every quality is read back from its own name, and the codes rise
  /// with the quality, so no two qualities share a code.
  lemma QualityKeysRoundTrip(q: Quality)
    ensures QualityFrom(QualityKey(q)) == q && QualityKey(q) in QUALITY_KEYS
    ensures forall p: Quality :: QualityCode(p) == QualityCode(q) ==> p == q
  {
  }

  // ---------------------------------------------------------------------
  // The CDN node of a stream URL
  // ---------------------------------------------------------------------

  /// The text before the first `c`, or all of it.
  function BeforeFirst(s: string, c: char): (r: string)
    ensures c !in r && StartsWith(s, r)
  {
    match FindChar(s, c)
    case None => s
    case Some(i) => s[..i]
  }

  /// `extract_cdn_node`: the host between the first "://" and the next
  /// '/', cut at its first '.'; "unknown" without either delimiter.
  function ExtractCdnNode(url: string): (r: string)
    ensures '/' !in r && (r == "unknown" || '.' !in r)
  {
    match Find(url, "://")
    case None => "unknown"
    case Some(start) =>
      var after := url[start + 3..];
      match FindChar(after, '/')
      case None => "unknown"
      case Some(end) => BeforeFirst(after[..end], '.')
  }

  /// For a URL `scheme://host/path` whose scheme has no ':' and whose host
  /// has no '/', the node is the host's first label.
  lemma CdnNodeOfUrl(scheme: string, host: string, path: string)
    requires ':' !in scheme && '/' !in host
    ensures ExtractCdnNode(scheme + "://" + host + "/" + path) == BeforeFirst(host, '.')
  {
    var url := scheme + "://" + host + "/" + path;
    assert url == scheme + ("://" + (host + "/" + path));
    SeparatorFound(scheme, host + "/" + path);
    var after := url[|scheme| + 3..];
    assert after == host + "/" + path;
    FindCharAfterPrefix(host, '/', path);
    assert after[..|host|] == host;
  }

  /// A URL whose text has no "://" has an unknown node.
  lemma CdnNodeWithoutScheme(url: string)
    requires !Contains(url, "://")
    ensures ExtractCdnNode(url) == "unknown"
  {
  }

  lemma {:induction false} SeparatorFound(a: string, b: string)
    requires ':' !in a
    ensures Find(a + ("://" + b), "://") == Some(|a|)
    decreases |a|
  {
    var s := a + ("://" + b);
    if |a| == 0 {
      assert s == "://" + b;
      assert s[..3] == "://";
    } else {
      assert s[0] == a[0];
      assert !StartsWith(s, "://");
      assert s[1..] == a[1..] + ("://" + b);
      SeparatorFound(a[1..], b);
    }
  }

  // ---------------------------------------------------------------------
  // The stream URL pool
  // ---------------------------------------------------------------------

  /// `EnhancedStreamUrl`; instants are whole seconds on the caller's clock.
  datatype PoolUrl = PoolUrl(
    url: string,
    cdnNode: string,
    expiresAt: int,
    quality: Quality,
    lastUsed: Option<int>,
    successRate: real,
    isPrimary: bool)

  const MAX_URLS: nat := 5
  /// A URL never used counts as used this many seconds ago.
  const UNUSED_AGE: int := 3600

  predicate IsExpired(u: PoolUrl, now: int)
  {
    now > u.expiresAt
  }

  predicate HasUrl(urls: seq<PoolUrl>, url: string)
  {
    exists k :: 0 <= k < |urls| && urls[k].url == url
  }

  /// The eviction key: the last use, or an hour ago for a URL never used.
  function LastUsedKey(u: PoolUrl, now: int): int
  {
    match u.lastUsed
    case Some(t) => t
    case None => now - UNUSED_AGE
  }

  ghost predicate SortedByKey(s: seq<PoolUrl>, now: int)
  {
    forall i, j :: 0 <= i < j < |s| ==> LastUsedKey(s[i], now) <= LastUsedKey(s[j], now)
  }

  /// Inserts `x` into `t` after every entry whose key is at most its own.
  function InsertByKey(x: PoolUrl, t: seq<PoolUrl>, now: int): (r: seq<PoolUrl>)
    ensures |r| == |t| + 1
  {
    if |t| == 0 then [x]
    else if LastUsedKey(t[|t| - 1], now) <= LastUsedKey(x, now) then t + [x]
    else InsertByKey(x, t[..|t| - 1], now) + [t[|t| - 1]]
  }

  /// The stable sort `sort_by` performs, ascending by key.
  function SortByKey(s: seq<PoolUrl>, now: int): (r: seq<PoolUrl>)
    ensures |r| == |s|
  {
    if |s| == 0 then [] else InsertByKey(s[|s| - 1], SortByKey(s[..|s| - 1], now), now)
  }

  lemma {:induction false} InsertByKeyPermutes(x: PoolUrl, t: seq<PoolUrl>, now: int)
    ensures multiset(InsertByKey(x, t, now)) == multiset(t) + multiset{x}
    decreases |t|
  {
    if |t| > 0 && LastUsedKey(t[|t| - 1], now) > LastUsedKey(x, now) {
      var init := t[..|t| - 1];
      InsertByKeyPermutes(x, init, now);
      assert t == init + [t[|t| - 1]];
    }
  }

  lemma {:induction false} InsertByKeySorted(x: PoolUrl, t: seq<PoolUrl>, now: int)
    requires SortedByKey(t, now)
    ensures SortedByKey(InsertByKey(x, t, now), now)
    decreases |t|
  {
    if |t| > 0 && LastUsedKey(t[|t| - 1], now) > LastUsedKey(x, now) {
      var init := t[..|t| - 1];
      var last := t[|t| - 1];
      var r' := InsertByKey(x, init, now);
      InsertByKeySorted(x, init, now);
      InsertByKeyPermutes(x, init, now);
      forall k | 0 <= k < |r'|
        ensures LastUsedKey(r'[k], now) <= LastUsedKey(last, now)
      {
        assert r'[k] in multiset(init) + multiset{x};
        if r'[k] != x {
          assert r'[k] in init;
        }
      }
    }
  }

  lemma {:induction false} SortByKeySorts(s: seq<PoolUrl>, now: int)
    ensures SortedByKey(SortByKey(s, now), now)
    ensures multiset(SortByKey(s, now)) == multiset(s)
    decreases |s|
  {
    if |s| > 0 {
      var init, last := s[..|s| - 1], s[|s| - 1];
      var sortedInit := SortByKey(init, now);
      assert SortByKey(s, now) == InsertByKey(last, sortedInit, now);
      SortByKeySorts(init, now);
      InsertByKeySorted(last, sortedInit, now);
      InsertByKeyPermutes(last, sortedInit, now);
      assert multiset(s) == multiset(init) + multiset{last} by {
        FrontLast(s);
      }
    }
  }

  /// The entry an overflowing `add_url` drops: one of the pool's entries
  /// with the smallest key; the others stay.
  lemma EvictsLeastRecentlyUsed(s: seq<PoolUrl>, now: int)
    requires |s| > 0
    ensures var sorted := SortByKey(s, now);
      sorted[0] in s
      && (forall u :: u in s ==> LastUsedKey(sorted[0], now) <= LastUsedKey(u, now))
      && multiset(sorted[1..]) + multiset{sorted[0]} == multiset(s)
  {
    var sorted := SortByKey(s, now);
    SortByKeySorts(s, now);
    assert sorted[0] in multiset(sorted);
    forall u | u in s
      ensures LastUsedKey(sorted[0], now) <= LastUsedKey(u, now)
    {
      assert u in multiset(sorted);
      var k :| 0 <= k < |sorted| && sorted[k] == u;
    }
    assert sorted == [sorted[0]] + sorted[1..];
  }

  /// `retain(|u| !u.is_expired())`.
  function Unexpired(s: seq<PoolUrl>, now: int): (r: seq<PoolUrl>)
    ensures |r| <= |s|
    ensures forall u :: u in r ==> u in s && !IsExpired(u, now)
    ensures forall u :: u in s && !IsExpired(u, now) ==> u in r
  {
    if |s| == 0 then []
    else
      var rest := Unexpired(s[..|s| - 1], now);
      if IsExpired(s[|s| - 1], now) then rest else rest + [s[|s| - 1]]
  }

  /// The ranking score: success rate times the whole seconds left.
  function Score(u: PoolUrl, now: int): real
  {
    u.successRate * (if u.expiresAt > now then u.expiresAt - now else 0) as real
  }

  /// The index `get_best_url` settles on among `i ..`: the best-scoring
  /// unexpired entry, the earliest one on a tie (the sort is stable).
  function BestFrom(urls: seq<PoolUrl>, i: nat, now: int): (r: Option<nat>)
    requires i <= |urls|
    ensures r.None? <==> forall j :: i <= j < |urls| ==> IsExpired(urls[j], now)
    ensures r.Some? ==> i <= r.value < |urls| && !IsExpired(urls[r.value], now)
    ensures r.Some? ==> forall j :: i <= j < |urls| && !IsExpired(urls[j], now) ==> Score(urls[j], now) <= Score(urls[r.value], now)
    ensures r.Some? ==> forall j :: i <= j < r.value && !IsExpired(urls[j], now) ==> Score(urls[j], now) < Score(urls[r.value], now)
    decreases |urls| - i
  {
    if i == |urls| then None
    else
      var rest := BestFrom(urls, i + 1, now);
      if IsExpired(urls[i], now) then rest
      else if rest.None? || Score(urls[i], now) >= Score(urls[rest.value], now) then Some(i)
      else rest
  }

  class StreamUrlPool {
    var urls: seq<PoolUrl>
    var currentIndex: nat
    var maxUrls: nat

    ghost predicate Valid()
      reads this
    {
      maxUrls == MAX_URLS && |urls| <= maxUrls
    }

    constructor ()
      ensures Valid() && urls == [] && currentIndex == 0
    {
      urls := [];
      currentIndex := 0;
      maxUrls := MAX_URLS;
    }

    /// `add_url`: a URL already in the pool changes nothing; otherwise it
    /// is appended, and when that overflows the pool, the entries are
    /// sorted by last use, the first is dropped and the index moves back.
    method AddUrl(u: PoolUrl, now: int)
      requires Valid()
      modifies this
      ensures Valid()
      ensures HasUrl(old(urls), u.url) ==> urls == old(urls) && currentIndex == old(currentIndex)
      ensures !HasUrl(old(urls), u.url) && |old(urls)| < maxUrls ==>
        urls == old(urls) + [u] && currentIndex == old(currentIndex)
      ensures !HasUrl(old(urls), u.url) && |old(urls)| == maxUrls ==>
        urls == SortByKey(old(urls) + [u], now)[1..]
        && currentIndex == (if old(currentIndex) > 0 then old(currentIndex) - 1 else 0)
    {
      var i := 0;
      while i < |urls|
        invariant 0 <= i <= |urls|
        invariant forall k :: 0 <= k < i ==> urls[k].url != u.url
      {
        if urls[i].url == u.url {
          return;
        }
        i := i + 1;
      }
      urls := urls + [u];
      if |urls| > maxUrls {
        urls := SortByKey(urls, now);
        urls := urls[1..];
        if currentIndex > 0 {
          currentIndex := currentIndex - 1;
        }
      }
    }

    /// `get_best_url`: none from an empty pool; the first URL when every
    /// one has expired; otherwise the best unexpired one. The index then
    /// points at the URL returned.
    method GetBestUrl(now: int) returns (r: Option<PoolUrl>)
      modifies this
      ensures urls == old(urls) && maxUrls == old(maxUrls)
      ensures r.None? <==> |urls| == 0
      ensures |urls| == 0 ==> currentIndex == old(currentIndex)
      ensures |urls| > 0 ==> currentIndex < |urls| && r == Some(urls[currentIndex])
      ensures |urls| > 0 ==> currentIndex == match BestFrom(urls, 0, now) case None => 0 case Some(b) => b
    {
      if |urls| == 0 {
        return None;
      }
      var best := BestFrom(urls, 0, now);
      if best.None? {
        currentIndex := 0;
        return Some(urls[0]);
      }
      currentIndex := best.value;
      return Some(urls[currentIndex]);
    }

    /// `cleanup_expired`: exactly the expired URLs go; the index returns
    /// to 0 only when something was removed, it is out of range and the
    /// pool is not empty.
    method CleanupExpired(now: int)
      requires Valid()
      modifies this
      ensures Valid()
      ensures urls == Unexpired(old(urls), now)
      ensures currentIndex == if |urls| != |old(urls)| && old(currentIndex) >= |urls| && |urls| > 0 then 0 else old(currentIndex)
    {
      var originalLen := |urls|;
      urls := Unexpired(urls, now);
      if |urls| != originalLen {
        if currentIndex >= |urls| && |urls| > 0 {
          currentIndex := 0;
        }
      }
    }

    /// `clear`: an empty pool with the index at 0.
    method Clear()
      requires Valid()
      modifies this
      ensures Valid() && urls == [] && currentIndex == 0
    {
      urls := [];
      currentIndex := 0;
    }
  }
}
