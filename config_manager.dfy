/// The database-backed configuration store (`ConfigManager`). Each
/// configuration item is a key -- a top-level field name or a dotted path
/// into one -- holding a JSON value. Loading folds the items back into one
/// JSON object, after resolving clashes between a whole object and dotted
/// keys under it; writing one item refuses dotted notification keys. The
/// single-row legacy configuration is converted to the current layout.
module ConfigManager {
  import opened Common
  import opened Json

  /// A JSON object's members (`serde_json::Map`, or the `HashMap` of items).
  type JsonMap = map<string, Json>

  // ---------------------------------------------------------------------
  // Dotted paths
  // ---------------------------------------------------------------------

  /// `insert_nested`: stores `v` at the path `parts`, creating an empty
  /// object for every missing step. An existing step that is not an object
  /// silently stops the insertion; an empty path changes nothing.
  function InsertNested(m: JsonMap, parts: seq<string>, v: Json): (r: JsonMap)
    ensures parts == [] ==> r == m
    ensures parts != [] ==> r.Keys == m.Keys + {parts[0]}
    ensures forall k :: k in m && (parts == [] || k != parts[0]) ==> r[k] == m[k]
    ensures |parts| >= 2 && parts[0] in m && !m[parts[0]].JObject? ==> r == m
    decreases |parts|
  {
    if parts == [] then m
    else if |parts| == 1 then m[parts[0] := v]
    else
      var key := parts[0];
      var stepped := if key in m then m else m[key := JObject(map[])];
      match stepped[key]
      case JObject(nested) => stepped[key := JObject(InsertNested(nested, parts[1..], v))]
      case _ => stepped
  }

  /// The value at a non-empty path, if every step on the way is an object.
  function Lookup(m: JsonMap, parts: seq<string>): Option<Json>
    requires parts != []
    decreases |parts|
  {
    if parts[0] !in m then None
    else if |parts| == 1 then Some(m[parts[0]])
    else match m[parts[0]]
      case JObject(nested) => Lookup(nested, parts[1..])
      case _ => None
  }

  /// Every step before the last is missing or an object.
  predicate Open(m: JsonMap, parts: seq<string>)
    decreases |parts|
  {
    |parts| <= 1 || parts[0] !in m || (m[parts[0]].JObject? && Open(m[parts[0]].fields, parts[1..]))
  }

  /// Along an open path the inserted value is found again.
  lemma {:induction false} InsertThenLookup(m: JsonMap, parts: seq<string>, v: Json)
    requires parts != [] && Open(m, parts)
    ensures Lookup(InsertNested(m, parts, v), parts) == Some(v)
    decreases |parts|
  {
    if |parts| > 1 {
      var key := parts[0];
      var stepped := if key in m then m else m[key := JObject(map[])];
      var nested := stepped[key].fields;
      assert Open(nested, parts[1..]);
      InsertThenLookup(nested, parts[1..], v);
    }
  }

  /// The first '.'-separated piece of a key (`key.split('.')`'s first).
  function Head(key: string): string
  {
    Split(key, '.')[0]
  }

  /// A key whose head is `p` but which is not `p` itself is a dotted key
  /// under `p`.
  lemma HeadOfDotted(key: string, p: string)
    requires Head(key) == p && key != p
    ensures StartsWith(key, p + ".")
  {
    match FindChar(key, '.')
    case None =>
    case Some(i) =>
      assert key[..i + 1] == key[..i] + ".";
  }

  /// A key with a '.' is split into at least two pieces.
  lemma SplitOfDotted(key: string)
    ensures '.' !in key ==> Split(key, '.') == [key]
    ensures '.' in key ==> |Split(key, '.')| >= 2
  {
  }

  /// `flatten_config_json`: an object's members become the items; anything
  /// else is refused.
  function Flatten(config: Json): (r: Result<JsonMap>)
    ensures r.Ok? <==> config.JObject?
    ensures config.JObject? ==> r == Ok(config.fields)
  {
    match config
    case JObject(fields) => Ok(fields)
    case _ => Err("配置必须是JSON对象")
  }

  /// No key of the map has another key as its head.
  predicate UniqueHead(m: JsonMap, key: string)
  {
    forall k :: k in m && k != key ==> Head(k) != key
  }

  /// `build_config_from_map`'s fold of the items into one object, in the
  /// map's iteration order: `HashMap` order is unspecified, so each step
  /// takes any remaining key. A one-piece key is stored as it is, a dotted
  /// one through `InsertNested`. The object's keys are the items' heads; an
  /// undotted item no other item nests under arrives unchanged, whatever
  /// the order; with no dotted keys the fold gives the items back.
  method NestItems(items: JsonMap) returns (nested: JsonMap)
    ensures nested.Keys == set k | k in items :: Head(k)
    ensures forall k :: k in items && '.' !in k && UniqueHead(items, k) ==> k in nested && nested[k] == items[k]
    ensures (forall k :: k in items ==> '.' !in k) ==> nested == items
  {
    nested := map[];
    var pending := items.Keys;
    while pending != {}
      invariant pending <= items.Keys
      invariant nested.Keys == set k | k in items && k !in pending :: Head(k)
      invariant forall k :: k in items && k !in pending && '.' !in k && UniqueHead(items, k) ==> k in nested && nested[k] == items[k]
      decreases |pending|
    {
      var key :| key in pending;
      ghost var before := nested;
      var parts := Split(key, '.');
      NestStep(nested, key, items[key]);
      if |parts| == 1 {
        nested := nested[key := items[key]];
      } else {
        nested := InsertNested(nested, parts, items[key]);
      }
      HeadsGrow(items, pending, key);
      UniqueKept(items, pending, key, before, nested);
      pending := pending - {key};
    }
    if forall k :: k in items ==> '.' !in k {
      assert forall k :: k in items ==> UniqueHead(items, k);
    }
  }

  /// One step of the fold adds the key's head and changes no other member;
  /// an undotted key is stored as it is.
  lemma NestStep(nested: JsonMap, key: string, v: Json)
    ensures var parts := Split(key, '.');
      var r := if |parts| == 1 then nested[key := v] else InsertNested(nested, parts, v);
      && r.Keys == nested.Keys + {Head(key)}
      && (forall k :: k in nested && k != Head(key) ==> r[k] == nested[k])
      && ('.' !in key ==> r[key] == v)
  {
    SplitOfDotted(key);
  }

  /// Taking `key` out of the pending keys adds its head to the heads seen.
  lemma HeadsGrow(items: JsonMap, pending: set<string>, key: string)
    requires key in pending && pending <= items.Keys
    ensures (set k | k in items && k !in pending - {key} :: Head(k))
         == (set k | k in items && k !in pending :: Head(k)) + {Head(key)}
  {
  }

  /// Members already settled for undotted, unshadowed keys stay settled.
  lemma UniqueKept(items: JsonMap, pending: set<string>, key: string, before: JsonMap, after: JsonMap)
    requires key in pending && key in items
    requires forall k :: k in items && k !in pending && '.' !in k && UniqueHead(items, k) ==> k in before && before[k] == items[k]
    requires after.Keys == before.Keys + {Head(key)}
    requires forall k :: k in before && k != Head(key) ==> after[k] == before[k]
    requires '.' !in key ==> after[key] == items[key]
    ensures forall k :: k in items && k !in pending - {key} && '.' !in k && UniqueHead(items, k) ==> k in after && after[k] == items[k]
  {
    SplitOfDotted(key);
  }

  // ---------------------------------------------------------------------
  // Conflicts between whole objects and dotted keys
  // ---------------------------------------------------------------------

  /// The fields that may be stored either whole or as dotted keys.
  const CONFLICT_PREFIXES: seq<string> := ["notification", "concurrent_limit", "submission_risk_control"]

  /// Some item is a dotted key under `prefix`.
  predicate HasNested(m: JsonMap, prefix: string)
  {
    exists k :: k in m && StartsWith(k, prefix + ".")
  }

  /// The whole object and dotted keys under it are both present.
  predicate Conflicted(m: JsonMap, prefix: string)
  {
    prefix in m && HasNested(m, prefix)
  }

  /// The items `resolve_config_conflicts` drops: the dotted notification
  /// keys when the whole notification object is there too, and the whole
  /// `concurrent_limit` or `submission_risk_control` object when dotted
  /// keys under it are there too.
  predicate Dropped(m: JsonMap, k: string)
  {
    || (StartsWith(k, "notification.") && Conflicted(m, "notification"))
    || (k == "concurrent_limit" && Conflicted(m, "concurrent_limit"))
    || (k == "submission_risk_control" && Conflicted(m, "submission_risk_control"))
  }

  /// One prefix's step of `resolve_config_conflicts`.
  function ResolveOne(m: JsonMap, prefix: string): (r: JsonMap)
    ensures r.Keys <= m.Keys && forall k :: k in r ==> r[k] == m[k]
  {
    if Conflicted(m, prefix) then
      if prefix == "notification" then
        m - (set k | k in m && StartsWith(k, prefix + "."))
      else m - {prefix}
    else m
  }

  /// Two strings both starting with non-empty prefixes share their first
  /// character.
  lemma SameFirst(k: string, a: string, b: string)
    requires |a| > 0 && |b| > 0 && StartsWith(k, a) && StartsWith(k, b)
    ensures a[0] == b[0]
  {
    assert k[..|a|][0] == k[0] == k[..|b|][0];
  }

  /// No key starts with two of the dotted prefixes, and no whole key is
  /// dotted under another prefix.
  lemma PrefixesApart(k: string)
    ensures !(StartsWith(k, "notification.") && StartsWith(k, "concurrent_limit."))
    ensures !(StartsWith(k, "notification.") && StartsWith(k, "submission_risk_control."))
    ensures !(StartsWith(k, "concurrent_limit.") && StartsWith(k, "submission_risk_control."))
    ensures k == "concurrent_limit" || k == "submission_risk_control" ==> !StartsWith(k, "notification.")
    ensures k == "submission_risk_control" ==> !StartsWith(k, "concurrent_limit.")
    ensures k == "concurrent_limit" ==> !StartsWith(k, "submission_risk_control.")
  {
    assert "notification."[0] == 'n';
    assert "concurrent_limit."[0] == 'c';
    assert "submission_risk_control."[0] == 's';
    if StartsWith(k, "notification.") && StartsWith(k, "concurrent_limit.") {
      SameFirst(k, "notification.", "concurrent_limit.");
    }
    if StartsWith(k, "notification.") && StartsWith(k, "submission_risk_control.") {
      SameFirst(k, "notification.", "submission_risk_control.");
    }
    if StartsWith(k, "concurrent_limit.") && StartsWith(k, "submission_risk_control.") {
      SameFirst(k, "concurrent_limit.", "submission_risk_control.");
    }
  }

  /// `resolve_config_conflicts`: for each of the three prefixes in turn,
  /// when both the whole object and dotted keys under it are present, the
  /// dotted keys go (notification) or the whole object goes (the others).
  /// Exactly the `Dropped` items are removed, the rest are untouched, and
  /// afterwards none of the three prefixes is in conflict.
  method ResolveConfigConflicts(m: JsonMap) returns (r: JsonMap)
    ensures forall k :: k in r ==> k in m && r[k] == m[k]
    ensures forall k :: k in m ==> (k !in r <==> Dropped(m, k))
    ensures forall i :: 0 <= i < |CONFLICT_PREFIXES| ==> !Conflicted(r, CONFLICT_PREFIXES[i])
  {
    r := m;
    var i := 0;
    while i < |CONFLICT_PREFIXES|
      invariant 0 <= i <= |CONFLICT_PREFIXES|
      invariant r == ResolveFirst(m, i)
    {
      var prefix := CONFLICT_PREFIXES[i];
      var hasComplete := prefix in r;
      var nestedKeys := set k | k in r && StartsWith(k, prefix + ".");
      if hasComplete && nestedKeys != {} {
        if prefix == "notification" {
          r := r - nestedKeys;
        } else {
          r := r - {prefix};
        }
      }
      i := i + 1;
    }
    ResolvedItems(m);
  }

  /// The map after the first `i` prefixes' steps.
  function ResolveFirst(m: JsonMap, i: nat): JsonMap
    requires i <= |CONFLICT_PREFIXES|
  {
    if i == 0 then m else ResolveOne(ResolveFirst(m, i - 1), CONFLICT_PREFIXES[i - 1])
  }

  /// The notification step drops exactly the dotted notification keys
  /// of a conflict and leaves the other prefixes' conflicts as they were.
  lemma NotificationStep(m: JsonMap)
    ensures var r := ResolveOne(m, "notification");
      && (forall k :: k in m ==> (k !in r <==> StartsWith(k, "notification.") && Conflicted(m, "notification")))
      && !Conflicted(r, "notification")
      && Conflicted(r, "concurrent_limit") == Conflicted(m, "concurrent_limit")
      && Conflicted(r, "submission_risk_control") == Conflicted(m, "submission_risk_control")
  {
    var r := ResolveOne(m, "notification");
    PrefixesApart("concurrent_limit");
    PrefixesApart("submission_risk_control");
    forall k | k in m && (StartsWith(k, "concurrent_limit.") || StartsWith(k, "submission_risk_control."))
      ensures k in r
    {
      PrefixesApart(k);
    }
  }

  /// The step for `concurrent_limit` or `submission_risk_control` drops
  /// at most that whole object and leaves the other prefixes' conflicts as
  /// they were.
  lemma WholeStep(m: JsonMap, p: string)
    requires p == "concurrent_limit" || p == "submission_risk_control"
    ensures var r := ResolveOne(m, p);
      && (forall k :: k in m ==> (k !in r <==> k == p && Conflicted(m, p)))
      && !Conflicted(r, p)
      && forall q :: q in CONFLICT_PREFIXES && q != p ==> Conflicted(r, q) == Conflicted(m, q)
  {
    var r := ResolveOne(m, p);
    PrefixesApart(p);
    forall q | q in CONFLICT_PREFIXES && q != p
      ensures Conflicted(r, q) == Conflicted(m, q)
    {
      if Conflicted(m, q) {
        var k :| k in m && StartsWith(k, q + ".");
        assert k != p;
        assert k in r;
      }
    }
  }

  /// Removing items never creates a conflict.
  lemma NoNewConflict(big: JsonMap, small: JsonMap, p: string)
    requires small.Keys <= big.Keys && !Conflicted(big, p)
    ensures !Conflicted(small, p)
  {
  }

  /// What the three steps together do.
  lemma ResolvedItems(m: JsonMap)
    ensures var r := ResolveFirst(m, 3);
      && (forall k :: k in r ==> k in m && r[k] == m[k])
      && (forall k :: k in m ==> (k !in r <==> Dropped(m, k)))
      && (forall i :: 0 <= i < |CONFLICT_PREFIXES| ==> !Conflicted(r, CONFLICT_PREFIXES[i]))
  {
    var r1 := ResolveOne(m, "notification");
    var r2 := ResolveOne(r1, "concurrent_limit");
    var r3 := ResolveOne(r2, "submission_risk_control");
    assert ResolveFirst(m, 1) == r1;
    assert ResolveFirst(m, 2) == r2;
    assert ResolveFirst(m, 3) == r3;
    NotificationStep(m);
    WholeStep(r1, "concurrent_limit");
    WholeStep(r2, "submission_risk_control");
    NoNewConflict(r1, r3, "notification");
    NoNewConflict(r2, r3, "concurrent_limit");
  }

  /// `build_config_from_map` up to deserialisation: conflicts resolved,
  /// then the items folded into one object. A whole notification object
  /// always survives unchanged; items without dots come back as they are.
  method BuildConfigFromMap(items: JsonMap) returns (config: Json)
    ensures config.JObject?
    ensures "notification" in items ==> "notification" in config.fields && config.fields["notification"] == items["notification"]
    ensures (forall k :: k in items ==> '.' !in k) ==> config == JObject(items)
  {
    var resolved := ResolveConfigConflicts(items);
    var nested := NestItems(resolved);
    NotificationSurvives(items, resolved, nested);
    if forall k :: k in items ==> '.' !in k {
      UndottedUnresolved(items, resolved);
    }
    config := JObject(nested);
  }

  /// Saving a configuration object item by item and loading it back gives
  /// the same object, as long as none of its top-level keys has a dot (a
  /// dotted key would be read as a path on the way back); anything but an
  /// object is refused when saving.
  method FlattenThenBuild(config: Json) returns (r: Result<Json>)
    ensures r.Err? <==> !config.JObject?
    ensures config.JObject? && (forall k :: k in config.fields ==> '.' !in k) ==> r == Ok(config)
  {
    match Flatten(config) {
      case Err(e) =>
        r := Err(e);
      case Ok(items) =>
        var rebuilt := BuildConfigFromMap(items);
        r := Ok(rebuilt);
    }
  }

  /// Resolution keeps a whole notification object and removes every
  /// dotted notification item beside it, so folding keeps it as it is.
  lemma NotificationSurvives(items: JsonMap, resolved: JsonMap, nested: JsonMap)
    requires forall k :: k in resolved ==> k in items && resolved[k] == items[k]
    requires forall k :: k in items ==> (k !in resolved <==> Dropped(items, k))
    requires forall i :: 0 <= i < |CONFLICT_PREFIXES| ==> !Conflicted(resolved, CONFLICT_PREFIXES[i])
    requires forall k :: k in resolved && '.' !in k && UniqueHead(resolved, k) ==> k in nested && nested[k] == resolved[k]
    ensures "notification" in items ==> "notification" in nested && nested["notification"] == items["notification"]
  {
    if "notification" in items {
      assert !StartsWith("notification", "notification.");
      assert "notification" in resolved;
      assert !Conflicted(resolved, CONFLICT_PREFIXES[0]);
      NotificationUnshadowed(resolved);
      assert '.' !in "notification";
    }
  }

  /// A key with the head `p` that is not `p` itself lies under `p`.
  lemma HeadUnder(key: string, p: string)
    ensures Head(key) == p && key != p ==> StartsWith(key, p + ".")
  {
    if Head(key) == p && key != p {
      HeadOfDotted(key, p);
    }
  }

  /// A key without dots lies under no prefix.
  lemma UndottedNotUnder(key: string, p: string)
    requires '.' !in key
    ensures !StartsWith(key, p + ".")
  {
    if |p| + 1 <= |key| {
      assert (p + ".")[|p|] == '.';
      assert key[..|p| + 1][|p|] != '.';
    }
  }

  /// With no notification conflict left, no other item nests under a
  /// surviving whole notification object.
  lemma NotificationUnshadowed(resolved: JsonMap)
    requires "notification" in resolved && !Conflicted(resolved, "notification")
    ensures UniqueHead(resolved, "notification")
  {
    forall k | k in resolved && k != "notification"
      ensures Head(k) != "notification"
    {
      HeadUnder(k, "notification");
    }
  }

  /// Items without dots have no conflicts, so resolution keeps them all.
  lemma UndottedUnresolved(items: JsonMap, resolved: JsonMap)
    requires forall k :: k in items ==> '.' !in k
    requires forall k :: k in resolved ==> k in items && resolved[k] == items[k]
    requires forall k :: k in items ==> (k !in resolved <==> Dropped(items, k))
    ensures resolved == items
  {
    forall p, k | k in items
      ensures !StartsWith(k, p + ".")
    {
      UndottedNotUnder(k, p);
    }
    assert forall k :: k in items ==> !Dropped(items, k);
  }

  // ---------------------------------------------------------------------
  // Writing one item
  // ---------------------------------------------------------------------

  /// A row of the change history: the key, its previous value if any,
  /// and the new value.
  datatype ConfigChange = ConfigChange(key: string, oldValue: Option<Json>, newValue: Json)

  /// The `config_items` table and the `config_changes` history, with
  /// values kept as JSON rather than their text.
  class ConfigStore {
    var items: JsonMap
    var history: seq<ConfigChange>

    constructor()
      ensures items == map[] && history == []
    {
      items := map[];
      history := [];
    }

    /// `update_config_item`: a dotted notification key is silently
    /// refused (Ok, nothing written); any other key is inserted or
    /// replaced, with a history row when recording it succeeds (a failure
    /// there is only logged). Refusing those keys keeps the store free of
    /// dotted notification items once it is.
    method UpdateConfigItem(key: string, value: Json, historyRecorded: bool) returns (r: Result<()>)
      modifies this
      ensures r == Ok(())
      ensures StartsWith(key, "notification.") ==> items == old(items) && history == old(history)
      ensures !StartsWith(key, "notification.") ==> items == old(items)[key := value]
      ensures !StartsWith(key, "notification.") ==>
        history == old(history) + (if historyRecorded then [ConfigChange(key, if key in old(items) then Some(old(items)[key]) else None, value)] else [])
      ensures !HasNested(old(items), "notification") ==> !HasNested(items, "notification")
    {
      if StartsWith(key, "notification.") {
        return Ok(());
      }
      var previous := if key in items then Some(items[key]) else None;
      if historyRecorded {
        history := history + [ConfigChange(key, previous, value)];
      }
      items := items[key := value];
      r := Ok(());
    }
  }

  // ---------------------------------------------------------------------
  // The legacy configuration
  // ---------------------------------------------------------------------

  /// The global skip switches of the legacy configuration, applied to the
  /// video sources afterwards.
  datatype LegacyMigrationMeta = LegacyMigrationMeta(noDanmaku: bool, noSubtitle: bool)

  /// Legacy fields kept aside because they have no direct counterpart.
  const LEGACY_UNMAPPED_KEYS: seq<string> :=
    ["favorite_default_path", "collection_default_path", "submission_default_path", "notifiers", "version"]

  /// The legacy `skip_option` is an object.
  predicate SkipObject(root: JsonMap)
  {
    "skip_option" in root && root["skip_option"].JObject?
  }

  /// A switch of the legacy `skip_option` object, false when missing or
  /// not a boolean.
  function SkipFlag(root: JsonMap, name: string): bool
  {
    SkipObject(root) && AsBool(Get(root["skip_option"], name)).UnwrapOr(false)
  }

  /// `nfo_config` is missing or an object, so it can take new fields.
  predicate NfoOpen(root: JsonMap)
  {
    "nfo_config" !in root || root["nfo_config"].JObject?
  }

  /// The legacy `concurrent_limit.download` is there to convert: the limit
  /// is an object with `download` and without `parallel_download`.
  predicate DownloadToConvert(root: JsonMap)
  {
    && "concurrent_limit" in root && root["concurrent_limit"].JObject?
    && "download" in root["concurrent_limit"].fields
    && "parallel_download" !in root["concurrent_limit"].fields
  }

  /// The `parallel_download` object built from a legacy `download` object.
  function ParallelDownloadOf(download: Json): JsonMap
  {
    var enabled := AsBool(Get(download, "enable")).UnwrapOr(true);
    var threads := AsU64(Get(download, "concurrency")).UnwrapOr(4);
    var base := map["enabled" := JBool(enabled), "threads" := JInt(threads)];
    match AsBool(Get(download, "use_aria2"))
    case Some(useAria2) => base["use_aria2" := JBool(useAria2)]
    case None => base
  }

  /// The fields of `root` other than `key` are those of `out`.
  ghost predicate OnlyChanged(root: JsonMap, out: JsonMap, key: string)
  {
    && (forall k :: k in root && k != key ==> k in out && out[k] == root[k])
    && (forall k :: k in out && k != key ==> k in root)
  }

  /// Legacy `notifiers` stand in for a missing notification object.
  ghost predicate NotifiersMoved(root: JsonMap, out: JsonMap)
  {
    && ("notification" in root ==> "notification" in out && out["notification"] == root["notification"])
    && ("notification" !in root ==>
          ("notification" in out <==> "notifiers" in root)
          && ("notifiers" in root ==> out["notification"] == root["notifiers"]))
  }

  /// The notification step of the conversion.
  method MoveNotifiers(root: JsonMap) returns (out: JsonMap)
    ensures NotifiersMoved(root, out) && OnlyChanged(root, out, "notification")
  {
    out := root;
    if "notification" !in out && "notifiers" in out {
      out := out["notification" := out["notifiers"]];
    }
  }

  /// The new `nfo_config` fields: the skip switches turned into disabled
  /// flags, the legacy time type moved in, the rest kept.
  ghost predicate NfoConverted(root: JsonMap, nfo: JsonMap)
    requires NfoOpen(root)
  {
    var before := if "nfo_config" in root then root["nfo_config"].fields else map[];
    && (SkipFlag(root, "no_video_nfo") ==> "enabled" in nfo && nfo["enabled"] == JBool(false))
    && (SkipFlag(root, "no_upper") ==> "include_actor_info" in nfo && nfo["include_actor_info"] == JBool(false))
    && ("nfo_time_type" in root ==> "time_type" in nfo && nfo["time_type"] == root["nfo_time_type"])
    && (forall k :: k in before && (k == "enabled" ==> !SkipFlag(root, "no_video_nfo"))
                   && (k == "include_actor_info" ==> !SkipFlag(root, "no_upper"))
                   && (k == "time_type" ==> "nfo_time_type" !in root)
                   ==> k in nfo && nfo[k] == before[k])
    && (forall k :: k in nfo ==> k in before || k == "enabled" || k == "include_actor_info" || k == "time_type")
  }

  /// What the conversion does to `nfo_config`: left alone when it is not
  /// an object or when no legacy field targets it; otherwise an object
  /// (created when missing) with the converted fields.
  ghost predicate NfoMoved(root: JsonMap, out: JsonMap)
  {
    && (!NfoOpen(root) ==> "nfo_config" in out && out["nfo_config"] == root["nfo_config"])
    && (NfoOpen(root) && (SkipObject(root) || "nfo_time_type" in root) ==>
          "nfo_config" in out && out["nfo_config"].JObject? && NfoConverted(root, out["nfo_config"].fields))
    && (!SkipObject(root) && "nfo_time_type" !in root ==>
          ("nfo_config" in out <==> "nfo_config" in root)
          && ("nfo_config" in root ==> out["nfo_config"] == root["nfo_config"]))
  }

  /// The skip-option part of the `nfo_config` step: the switches read
  /// from a `skip_option` object, and the fields they disable.
  method ApplySkipOption(root: JsonMap) returns (out: JsonMap, meta: LegacyMigrationMeta)
    ensures meta == LegacyMigrationMeta(SkipFlag(root, "no_danmaku"), SkipFlag(root, "no_subtitle"))
    ensures OnlyChanged(root, out, "nfo_config")
    ensures !SkipObject(root) || !NfoOpen(root) ==> out == root
    ensures SkipObject(root) && NfoOpen(root) ==>
      var before := if "nfo_config" in root then root["nfo_config"].fields else map[];
      && "nfo_config" in out && out["nfo_config"].JObject?
      && out["nfo_config"].fields == SkipDisabled(before, SkipFlag(root, "no_video_nfo"), SkipFlag(root, "no_upper"))
  {
    out := root;
    meta := LegacyMigrationMeta(false, false);
    if "skip_option" in root && root["skip_option"].JObject? {
      var skipOption := root["skip_option"];
      var noVideoNfo := AsBool(Get(skipOption, "no_video_nfo")).UnwrapOr(false);
      var noUpper := AsBool(Get(skipOption, "no_upper")).UnwrapOr(false);
      var noDanmaku := AsBool(Get(skipOption, "no_danmaku")).UnwrapOr(false);
      var noSubtitle := AsBool(Get(skipOption, "no_subtitle")).UnwrapOr(false);
      meta := LegacyMigrationMeta(noDanmaku, noSubtitle);
      if "nfo_config" !in out {
        out := out["nfo_config" := JObject(map[])];
      }
      if out["nfo_config"].JObject? {
        var nfo := out["nfo_config"].fields;
        if noVideoNfo {
          nfo := nfo["enabled" := JBool(false)];
        }
        if noUpper {
          nfo := nfo["include_actor_info" := JBool(false)];
        }
        out := out["nfo_config" := JObject(nfo)];
      }
    }
  }

  /// The `nfo_config` fields with the switches the skip options disable.
  function SkipDisabled(nfo: JsonMap, noVideoNfo: bool, noUpper: bool): JsonMap
  {
    var disabled := if noVideoNfo then nfo["enabled" := JBool(false)] else nfo;
    if noUpper then disabled["include_actor_info" := JBool(false)] else disabled
  }

  /// The time-type part of the `nfo_config` step.
  method MoveTimeType(root: JsonMap) returns (out: JsonMap)
    ensures OnlyChanged(root, out, "nfo_config")
    ensures "nfo_time_type" !in root || !NfoOpen(root) ==> out == root
    ensures "nfo_time_type" in root && NfoOpen(root) ==>
      var before := if "nfo_config" in root then root["nfo_config"].fields else map[];
      && "nfo_config" in out
      && out["nfo_config"] == JObject(before["time_type" := root["nfo_time_type"]])
  {
    out := root;
    if "nfo_time_type" in root {
      var timeType := root["nfo_time_type"];
      if "nfo_config" !in out {
        out := out["nfo_config" := JObject(map[])];
      }
      if out["nfo_config"].JObject? {
        out := out["nfo_config" := JObject(out["nfo_config"].fields["time_type" := timeType])];
      }
    }
  }

  /// The two `nfo_config` steps together convert it as `NfoMoved` says.
  lemma NfoStepsConvert(root: JsonMap, mid: JsonMap, out: JsonMap)
    requires OnlyChanged(root, mid, "nfo_config")
    requires !SkipObject(root) || !NfoOpen(root) ==> mid == root
    requires SkipObject(root) && NfoOpen(root) ==>
      var before := if "nfo_config" in root then root["nfo_config"].fields else map[];
      && "nfo_config" in mid && mid["nfo_config"].JObject?
      && mid["nfo_config"].fields == SkipDisabled(before, SkipFlag(root, "no_video_nfo"), SkipFlag(root, "no_upper"))
    requires OnlyChanged(mid, out, "nfo_config")
    requires "nfo_time_type" !in mid || !NfoOpen(mid) ==> out == mid
    requires "nfo_time_type" in mid && NfoOpen(mid) ==>
      var before := if "nfo_config" in mid then mid["nfo_config"].fields else map[];
      && "nfo_config" in out
      && out["nfo_config"] == JObject(before["time_type" := mid["nfo_time_type"]])
    ensures NfoMoved(root, out) && OnlyChanged(root, out, "nfo_config")
  {
    assert SkipObject(mid) == SkipObject(root);
    assert ("nfo_time_type" in mid) == ("nfo_time_type" in root);
    assert "nfo_time_type" in root ==> mid["nfo_time_type"] == root["nfo_time_type"];
    assert NfoOpen(root) ==> NfoOpen(mid);
  }

  /// What the conversion does to `concurrent_limit`: `download` becomes
  /// `parallel_download` unless that is already there.
  ghost predicate DownloadMoved(root: JsonMap, out: JsonMap)
  {
    && (DownloadToConvert(root) ==>
          "concurrent_limit" in out && out["concurrent_limit"].JObject?
          && LimitConverted(root["concurrent_limit"].fields, out["concurrent_limit"].fields))
    && (!DownloadToConvert(root) ==>
          ("concurrent_limit" in out <==> "concurrent_limit" in root)
          && ("concurrent_limit" in root ==> out["concurrent_limit"] == root["concurrent_limit"]))
  }

  /// The converted limits: no `download` any more, and a
  /// `parallel_download` object when it was an object.
  ghost predicate LimitConverted(limit: JsonMap, out: JsonMap)
    requires "download" in limit
  {
    && "download" !in out
    && (limit["download"].JObject? ==>
          "parallel_download" in out && out["parallel_download"] == JObject(ParallelDownloadOf(limit["download"])))
    && (!limit["download"].JObject? ==> "parallel_download" !in out)
    && (forall k :: k in limit && k != "download" ==> k in out && out[k] == limit[k])
    && (forall k :: k in out ==> k in limit || k == "parallel_download")
  }

  /// The `concurrent_limit` step of the conversion.
  method ConvertDownload(root: JsonMap) returns (out: JsonMap)
    ensures DownloadMoved(root, out) && OnlyChanged(root, out, "concurrent_limit")
  {
    out := root;
    if "concurrent_limit" in root && root["concurrent_limit"].JObject? {
      var limit := root["concurrent_limit"].fields;
      if "parallel_download" !in limit && "download" in limit {
        var download := limit["download"];
        limit := limit - {"download"};
        if download.JObject? {
          limit := limit["parallel_download" := JObject(ParallelDownloadOf(download))];
        }
        out := out["concurrent_limit" := JObject(limit)];
      }
    }
  }

  /// The fields of `LEGACY_UNMAPPED_KEYS` present in the configuration.
  method CollectUnmapped(root: JsonMap) returns (unmapped: JsonMap)
    ensures forall k :: k in unmapped <==> k in LEGACY_UNMAPPED_KEYS && k in root
    ensures forall k :: k in unmapped ==> unmapped[k] == root[k]
  {
    unmapped := map[];
    var i: nat := 0;
    while i < |LEGACY_UNMAPPED_KEYS|
      invariant i <= |LEGACY_UNMAPPED_KEYS|
      invariant forall k :: k in unmapped <==> k in LEGACY_UNMAPPED_KEYS[..i] && k in root
      invariant forall k :: k in unmapped ==> unmapped[k] == root[k]
    {
      var key := LEGACY_UNMAPPED_KEYS[i];
      if key in root {
        unmapped := unmapped[key := root[key]];
      }
      i := i + 1;
    }
    assert LEGACY_UNMAPPED_KEYS[..i] == LEGACY_UNMAPPED_KEYS;
  }

  /// The fields kept aside: those of `LEGACY_UNMAPPED_KEYS` present, the
  /// `skip_option` and a `concurrent_limit.download`, all as they were.
  ghost predicate LegacyKeptAside(root: JsonMap, unmapped: JsonMap)
  {
    var limit := if "concurrent_limit" in root && root["concurrent_limit"].JObject? then root["concurrent_limit"].fields else map[];
    && (forall k :: k in LEGACY_UNMAPPED_KEYS ==> (k in unmapped <==> k in root))
    && ("skip_option" in unmapped <==> "skip_option" in root)
    && ("concurrent_limit.download" in unmapped <==> "download" in limit)
    && (forall k :: k in unmapped ==> k in LEGACY_UNMAPPED_KEYS || k == "skip_option" || k == "concurrent_limit.download")
    && (forall k :: k in unmapped && k in root && k != "concurrent_limit.download" ==> unmapped[k] == root[k])
    && ("download" in limit ==> unmapped["concurrent_limit.download"] == limit["download"])
  }

  /// The converted configuration: the notification, `nfo_config` and
  /// `concurrent_limit` fields converted, every other field untouched.
  ghost predicate LegacyNormalized(root: JsonMap, out: JsonMap)
  {
    && NotifiersMoved(root, out)
    && NfoMoved(root, out)
    && DownloadMoved(root, out)
    && (forall k :: k in root && k != "notification" && k != "nfo_config" && k != "concurrent_limit" ==>
          k in out && out[k] == root[k])
    && (forall k :: k in out ==> k in root || k == "notification" || k == "nfo_config")
  }

  /// `normalize_legacy_config_value`: converts a copy of the legacy
  /// configuration object step by step, and reports the skip switches and
  /// the fields kept aside. Anything but an object comes back unchanged.
  method NormalizeLegacyConfigValue(raw: Json) returns (normalized: Json, meta: LegacyMigrationMeta, unmapped: JsonMap)
    ensures !raw.JObject? ==> normalized == raw && meta == LegacyMigrationMeta(false, false) && unmapped == map[]
    ensures raw.JObject? ==> normalized.JObject?
    ensures raw.JObject? ==> LegacyNormalized(raw.fields, normalized.fields)
    ensures raw.JObject? ==> meta == LegacyMigrationMeta(SkipFlag(raw.fields, "no_danmaku"), SkipFlag(raw.fields, "no_subtitle"))
    ensures raw.JObject? ==> LegacyKeptAside(raw.fields, unmapped)
  {
    if !raw.JObject? {
      return raw, LegacyMigrationMeta(false, false), map[];
    }
    var root;
    root, meta, unmapped := NormalizeLegacyObject(raw.fields);
    normalized := JObject(root);
  }

  /// The conversion of a legacy configuration object, field group by
  /// field group; the fields kept aside are read as the steps reach them.
  method NormalizeLegacyObject(root: JsonMap) returns (out: JsonMap, meta: LegacyMigrationMeta, unmapped: JsonMap)
    ensures LegacyNormalized(root, out)
    ensures meta == LegacyMigrationMeta(SkipFlag(root, "no_danmaku"), SkipFlag(root, "no_subtitle"))
    ensures LegacyKeptAside(root, unmapped)
  {
    var listed := CollectUnmapped(root);
    unmapped := listed;
    var notified := MoveNotifiers(root);
    var skipOption: Option<Json> := None;
    if "skip_option" in notified {
      skipOption := Some(notified["skip_option"]);
      unmapped := unmapped["skip_option" := notified["skip_option"]];
    }
    ghost var withSkip := unmapped;
    var skipped;
    skipped, meta := ApplySkipOption(notified);
    SkipFlagsKept(root, notified);
    var timed := MoveTimeType(skipped);
    NfoStepsConvert(notified, skipped, timed);
    var download: Option<Json> := None;
    if "concurrent_limit" in timed && timed["concurrent_limit"].JObject? && "download" in timed["concurrent_limit"].fields {
      download := Some(timed["concurrent_limit"].fields["download"]);
      unmapped := unmapped["concurrent_limit.download" := timed["concurrent_limit"].fields["download"]];
    }
    KeptAsideCollected(root, notified, timed, listed, skipOption, withSkip, download, unmapped);
    out := ConvertDownload(timed);
    LegacyStepsCompose(root, notified, timed, out);
  }

  /// The notification step leaves the skip options as they were.
  lemma SkipFlagsKept(root: JsonMap, notified: JsonMap)
    requires OnlyChanged(root, notified, "notification")
    ensures SkipFlag(notified, "no_danmaku") == SkipFlag(root, "no_danmaku")
    ensures SkipFlag(notified, "no_subtitle") == SkipFlag(root, "no_subtitle")
  {
    assert SkipObject(notified) == SkipObject(root);
  }

  /// The fields listed in `LEGACY_UNMAPPED_KEYS`, then the skip options
  /// and the legacy download limit, make up what is kept aside.
  lemma KeptAsideCollected(root: JsonMap, notified: JsonMap, timed: JsonMap, listed: JsonMap,
                           skipOption: Option<Json>, withSkip: JsonMap, download: Option<Json>, unmapped: JsonMap)
    requires OnlyChanged(root, notified, "notification") && OnlyChanged(notified, timed, "nfo_config")
    requires forall k :: k in listed <==> k in LEGACY_UNMAPPED_KEYS && k in root
    requires forall k :: k in listed ==> listed[k] == root[k]
    requires skipOption == (if "skip_option" in notified then Some(notified["skip_option"]) else None)
    requires download == (if "concurrent_limit" in timed && timed["concurrent_limit"].JObject? && "download" in timed["concurrent_limit"].fields
                          then Some(timed["concurrent_limit"].fields["download"]) else None)
    requires withSkip == if skipOption.Some? then listed["skip_option" := skipOption.value] else listed
    requires unmapped == if download.Some? then withSkip["concurrent_limit.download" := download.value] else withSkip
    ensures LegacyKeptAside(root, unmapped)
  {
  }

  /// The conversion steps touch disjoint fields, so each one's effect
  /// carries over to the final object.
  lemma LegacyStepsCompose(root: JsonMap, notified: JsonMap, timed: JsonMap, converted: JsonMap)
    requires NotifiersMoved(root, notified) && OnlyChanged(root, notified, "notification")
    requires NfoMoved(notified, timed) && OnlyChanged(notified, timed, "nfo_config")
    requires DownloadMoved(timed, converted) && OnlyChanged(timed, converted, "concurrent_limit")
    ensures LegacyNormalized(root, converted)
  {
    assert SkipObject(notified) == SkipObject(root);
    assert NfoOpen(notified) == NfoOpen(root);
    assert "skip_option" in root ==> notified["skip_option"] == root["skip_option"];
    assert "nfo_time_type" in root ==> notified["nfo_time_type"] == root["nfo_time_type"];
    assert DownloadToConvert(timed) == DownloadToConvert(root);
  }

  /// The converted `parallel_download` object: enabled unless the legacy
  /// switch says otherwise, four threads unless a `u64` concurrency is
  /// given, and `use_aria2` only when the legacy object has that boolean.
  lemma ParallelDownloadDefaults(download: Json)
    ensures var pd := ParallelDownloadOf(download);
      && pd["enabled"] == JBool(AsBool(Get(download, "enable")) != Some(false))
      && pd["threads"] == JInt(AsU64(Get(download, "concurrency")).UnwrapOr(4))
      && ("use_aria2" in pd <==> Get(download, "use_aria2").Some? && Get(download, "use_aria2").value.JBool?)
      && pd.Keys <= {"enabled", "threads", "use_aria2"}
  {
  }

  /// The tables whose download switches the legacy skip options reset.
  const SKIP_TABLES: seq<string> := ["collection", "favorite", "submission", "watch_later", "video_source"]

  /// The assignments `apply_skip_option_to_sources` makes: danmaku and
  /// subtitle downloads switched off as the legacy options say.
  function SkipUpdates(noDanmaku: bool, noSubtitle: bool): (r: seq<string>)
    ensures "download_danmaku = 0" in r <==> noDanmaku
    ensures "download_subtitle = 0" in r <==> noSubtitle
    ensures |r| <= 2
  {
    (if noDanmaku then ["download_danmaku = 0"] else []) + (if noSubtitle then ["download_subtitle = 0"] else [])
  }

  /// `apply_skip_option_to_sources`: nothing to run when neither option is
  /// set; otherwise one `UPDATE ... SET ...` per source table with the
  /// assignments joined by ", ".
  function SkipOptionStatements(noDanmaku: bool, noSubtitle: bool): (r: seq<string>)
    ensures r == [] <==> !noDanmaku && !noSubtitle
    ensures r != [] ==> |r| == |SKIP_TABLES| && forall i :: 0 <= i < |r| ==>
      r[i] == "UPDATE " + SKIP_TABLES[i] + " SET " + Join(SkipUpdates(noDanmaku, noSubtitle), ", ")
  {
    if !noDanmaku && !noSubtitle then []
    else
      var clause := Join(SkipUpdates(noDanmaku, noSubtitle), ", ");
      seq(|SKIP_TABLES|, i requires 0 <= i < |SKIP_TABLES| => "UPDATE " + SKIP_TABLES[i] + " SET " + clause)
  }

  /// The assignment clause is never empty when it is used, and lists both
  /// switches, danmaku first, when both options are set.
  lemma SkipClauseShape(noDanmaku: bool, noSubtitle: bool)
    requires noDanmaku || noSubtitle
    ensures Join(SkipUpdates(noDanmaku, noSubtitle), ", ") != ""
    ensures noDanmaku && noSubtitle ==> Join(SkipUpdates(noDanmaku, noSubtitle), ", ") == "download_danmaku = 0, download_subtitle = 0"
  {
  }
}
