/// AI-assisted renaming: per-source conversation histories that keep the
/// naming style consistent, the chat request for a new file name, the
/// cleaning of the model's reply into a file stem, the detection of names
/// that break the common style, and the renaming of a file's sidecars.
///
/// The chat service is outside the model: each operation takes the reply it
/// would get (the contents of the reply's choices, or an error) as a
/// parameter, and returns the messages it would send.
module AiRename {
  import opened Common

  /// At most this many messages are kept per source (ten exchanges).
  const MAX_HISTORY: nat := 20
  /// New stems are cut to this many characters.
  const MAX_NAME_CHARS: nat := 180

  datatype Message = Message(role: string, content: string)

  datatype AiRenameConfig = AiRenameConfig(
    enabled: bool,
    provider: string,
    baseUrl: string,
    apiKey: Option<string>,
    model: string,
    timeoutSeconds: nat,
    videoPromptHint: string,
    audioPromptHint: string)

  // ---------------------------------------------------------------------
  // Conversation histories
  // ---------------------------------------------------------------------

  /// `add_conversation_message` on one history: once it holds 20 messages
  /// the oldest exchange (two messages) is dropped, then `m` is appended.
  function Remember(history: seq<Message>, m: Message): (r: seq<Message>)
    ensures |history| <= MAX_HISTORY ==> |r| <= MAX_HISTORY
    ensures |r| > 0 && r[|r| - 1] == m
    ensures |history| < MAX_HISTORY ==> r[..|r| - 1] == history
    ensures |history| >= MAX_HISTORY ==> r[..|r| - 1] == history[2..]
  {
    (if |history| >= MAX_HISTORY then history[2..] else history) + [m]
  }

  /// Remembering never loses the newest messages: everything but the two
  /// oldest of a full history survives, in order, before the new message.
  lemma RememberKeepsRecent(history: seq<Message>, m: Message, i: nat)
    requires 2 <= i < |history| || (|history| < MAX_HISTORY && i < |history|)
    ensures var r := Remember(history, m);
            history[i] in r[..|r| - 1]
    ensures var r := Remember(history, m);
            |r| - 1 <= |history| && r[..|r| - 1] == history[|history| - (|r| - 1)..]
    ensures var r := Remember(history, m);
            |history| - (|r| - 1) <= i && r[i - (|history| - (|r| - 1))] == history[i]
  {
    var r := Remember(history, m);
    if |history| >= MAX_HISTORY {
      assert history[i] == history[2..][i - 2];
    }
  }

  /// The process-wide cache of conversation histories, one per source key.
  class ConversationCache {
    var histories: map<string, seq<Message>>

    ghost predicate Valid()
      reads this
    {
      forall key :: key in histories ==> |histories[key]| <= MAX_HISTORY
    }

    constructor ()
      ensures Valid() && histories == map[]
    {
      histories := map[];
    }

    /// `get_conversation_history`: an unknown source has an empty history.
    function History(key: string): (r: seq<Message>)
      reads this
      ensures key !in histories ==> r == []
      ensures key in histories ==> r == histories[key]
    {
      if key in histories then histories[key] else []
    }

    /// `clear_naming_cache`: forgets one source, and only that one.
    method ClearNamingCache(key: string)
      requires Valid()
      modifies this
      ensures Valid()
      ensures histories == old(histories) - {key}
      ensures History(key) == []
      ensures forall other :: other != key ==> History(other) == old(History(other))
    {
      histories := histories - {key};
    }

    /// `clear_all_naming_cache`.
    method ClearAllNamingCache()
      modifies this
      ensures Valid()
      ensures histories == map[]
      ensures forall key :: History(key) == []
    {
      histories := map[];
    }

    /// `add_conversation_message`.
    method AddConversationMessage(key: string, role: string, content: string)
      requires Valid()
      modifies this
      ensures Valid()
      ensures histories == old(histories)[key := Remember(old(History(key)), Message(role, content))]
      ensures |History(key)| <= MAX_HISTORY && History(key)[|History(key)| - 1] == Message(role, content)
      ensures forall other :: other != key ==> History(other) == old(History(other))
    {
      var history := if key in histories then histories[key] else [];
      if |history| >= MAX_HISTORY {
        history := history[2..];
      }
      history := history + [Message(role, content)];
      histories := histories[key := history];
    }
  }

  // ---------------------------------------------------------------------
  // The naming request
  // ---------------------------------------------------------------------

  /// The naming hint: the source's own prompt for the media kind when it is
  /// non-empty, the global hint otherwise.
  function Prompt(cfg: AiRenameConfig, isAudio: bool, videoOverride: string, audioOverride: string): (r: string)
    ensures isAudio && audioOverride != "" ==> r == audioOverride
    ensures isAudio && audioOverride == "" ==> r == cfg.audioPromptHint
    ensures !isAudio && videoOverride != "" ==> r == videoOverride
    ensures !isAudio && videoOverride == "" ==> r == cfg.videoPromptHint
  {
    if isAudio then (if |audioOverride| > 0 then audioOverride else cfg.audioPromptHint)
    else (if |videoOverride| > 0 then videoOverride else cfg.videoPromptHint)
  }

  const FIRST_FILE_SYSTEM: string :=
    "你是一个负责优化文件命名的助手，只输出文件名本身。这是同一视频源的第一个文件，请建立命名风格。"
  const LATER_FILE_SYSTEM: string :=
    "你是一个负责优化文件命名的助手，只输出文件名本身。注意：这是同一视频源的后续文件，必须严格遵循之前已建立的命名风格，保持完全一致的格式。"

  function NamingRequestText(currentFilename: string, title: string, author: string, source: string,
                             quality: string, prompt: string): string
  {
    "根据以下内容生成新的文件名（只输出文件名，不含扩展名，不要解释，不要引号）：\n当前文件名："
    + currentFilename + "\n原视频标题：" + title + "\n作者：" + author + "\n来源：" + source
    + "\n清晰度：" + quality + "\n命名结构提示：" + prompt + "\n"
  }

  /// The messages of a chat request: the system message, the history, and
  /// the new user message.
  method BuildMessages(system: string, history: seq<Message>, user: string) returns (messages: seq<Message>)
    ensures |messages| == |history| + 2
    ensures messages[0] == Message("system", system) && messages[|messages| - 1] == Message("user", user)
    ensures messages[1..|messages| - 1] == history
  {
    messages := [Message("system", system)];
    var i: nat := 0;
    while i < |history|
      invariant i <= |history|
      invariant messages == [Message("system", system)] + history[..i]
    {
      messages := messages + [history[i]];
      i := i + 1;
    }
    assert history[..i] == history;
    messages := messages + [Message("user", user)];
    assert messages[1..|messages| - 1] == history;
  }

  // ---------------------------------------------------------------------
  // Cleaning a reply into a file stem
  // ---------------------------------------------------------------------

  /// Quotes and line breaks removed, spaces turned into '-'.
  function Scrubbed(raw: string): string
  {
    ReplaceChar(RemoveChars(raw, {'"', '\n', '\r'}), ' ', "-")
  }

  predicate IsScrubbed(s: string)
  {
    forall i :: 0 <= i < |s| ==> s[i] !in {'"', '\n', '\r', ' '}
  }

  lemma {:induction false} ReplaceCharKeepsOut(s: string, c: char, replacement: string, d: char)
    requires d !in s && d !in replacement
    ensures d !in ReplaceChar(s, c, replacement)
    decreases |s|
  {
    if |s| > 0 {
      ReplaceCharKeepsOut(s[1..], c, replacement, d);
    }
  }

  /// Scrubbing leaves none of the characters it removes or replaces.
  lemma ScrubbedIsClean(raw: string)
    ensures IsScrubbed(Scrubbed(raw))
  {
    var removed := RemoveChars(raw, {'"', '\n', '\r'});
    assert '"' !in removed && '\n' !in removed && '\r' !in removed;
    ReplaceCharKeepsOut(removed, ' ', "-", '"');
    ReplaceCharKeepsOut(removed, ' ', "-", '\n');
    ReplaceCharKeepsOut(removed, ' ', "-", '\r');
  }

  lemma {:induction false} RemoveCharsKeeps(s: string, drop: set<char>)
    requires forall i :: 0 <= i < |s| ==> s[i] !in drop
    ensures RemoveChars(s, drop) == s
    decreases |s|
  {
    if |s| > 0 {
      RemoveCharsKeeps(s[1..], drop);
      assert s == [s[0]] + s[1..];
    }
  }

  lemma {:induction false} ReplaceCharKeeps(s: string, c: char, replacement: string)
    requires c !in s
    ensures ReplaceChar(s, c, replacement) == s
    decreases |s|
  {
    if |s| > 0 {
      ReplaceCharKeeps(s[1..], c, replacement);
      assert s == [s[0]] + s[1..];
    }
  }

  /// Scrubbing an already clean name changes nothing, so scrubbing twice is
  /// scrubbing once.
  lemma ScrubbedIdempotent(raw: string)
    ensures Scrubbed(Scrubbed(raw)) == Scrubbed(raw)
  {
    var s := Scrubbed(raw);
    ScrubbedIsClean(raw);
    RemoveCharsKeeps(s, {'"', '\n', '\r'});
    ReplaceCharKeeps(s, ' ', "-");
  }

  /// The cleaning shared by the naming and the fixing requests: scrub the
  /// trimmed reply, make it a safe file name, cut it to 180 characters, and
  /// reject an empty result. `filenamify` is the project's file-name
  /// sanitiser.
  function CleanName(raw: string, filenamify: string -> string): (r: Option<string>)
    ensures r.None? <==> filenamify(Scrubbed(Trim(raw))) == ""
    ensures r.Some? ==> 0 < |r.value| <= MAX_NAME_CHARS
    ensures r.Some? ==> StartsWith(filenamify(Scrubbed(Trim(raw))), r.value)
    ensures r.Some? && |filenamify(Scrubbed(Trim(raw)))| <= MAX_NAME_CHARS ==> r.value == filenamify(Scrubbed(Trim(raw)))
  {
    var name := filenamify(Scrubbed(Trim(raw)));
    var short := if |name| > MAX_NAME_CHARS then TakeChars(name, MAX_NAME_CHARS) else name;
    if short == "" then None else Some(short)
  }

  /// The reply's text: the first choice, trimmed, or an error when the
  /// request failed or nothing came back.
  function ReplyText(reply: Result<seq<string>>): (r: Result<string>)
    ensures r.Ok? <==> reply.Ok? && |reply.value| > 0
    ensures r.Ok? ==> r.value == Trim(reply.value[0])
  {
    match reply
    case Err(e) => Err(e)
    case Ok(choices) => if |choices| == 0 then Err("No response") else Ok(Trim(choices[0]))
  }

  /// `ai_generate_filename`: asks for a new stem in the source's style. A
  /// successful answer is remembered, as the user message and the answer;
  /// a failure leaves the history alone.
  method AiGenerateFilename(cache: ConversationCache, cfg: AiRenameConfig, sourceKey: string,
                            title: string, author: string, source: string, quality: string,
                            isAudio: bool, currentFilename: string,
                            videoOverride: string, audioOverride: string,
                            reply: Result<seq<string>>, filenamify: string -> string)
    returns (request: seq<Message>, r: Result<string>)
    requires cache.Valid()
    modifies cache
    ensures cache.Valid()
    ensures cfg.apiKey.None? ==> r == Err("API key missing") && request == []
    ensures var user := NamingRequestText(currentFilename, title, author, source, quality,
                                          Prompt(cfg, isAudio, videoOverride, audioOverride));
            var history := old(cache.History(sourceKey));
            cfg.apiKey.Some? ==>
              request == [Message("system", if history == [] then FIRST_FILE_SYSTEM else LATER_FILE_SYSTEM)]
                         + history + [Message("user", user)]
              && (r.Ok? <==> ReplyText(reply).Ok? && CleanName(ReplyText(reply).value, filenamify).Some?)
              && (r.Ok? ==> r.value == CleanName(ReplyText(reply).value, filenamify).value
                            && cache.History(sourceKey)
                               == Remember(Remember(history, Message("user", user)), Message("assistant", r.value)))
    ensures r.Err? ==> cache.histories == old(cache.histories)
    ensures forall other :: other != sourceKey ==> cache.History(other) == old(cache.History(other))
  {
    request := [];
    if cfg.apiKey.None? {
      return [], Err("API key missing");
    }
    var history := cache.History(sourceKey);
    var prompt := Prompt(cfg, isAudio, videoOverride, audioOverride);
    var user := NamingRequestText(currentFilename, title, author, source, quality, prompt);
    var system := if |history| == 0 then FIRST_FILE_SYSTEM else LATER_FILE_SYSTEM;
    request := BuildMessages(system, history, user);
    assert request == [request[0]] + request[1..|request| - 1] + [request[|request| - 1]];
    var text := ReplyText(reply);
    if text.Err? {
      return request, Err(text.error);
    }
    var name := CleanName(text.value, filenamify);
    if name.None? {
      return request, Err("Empty filename");
    }
    cache.AddConversationMessage(sourceKey, "user", user);
    cache.AddConversationMessage(sourceKey, "assistant", name.value);
    r := Ok(name.value);
  }

  // ---------------------------------------------------------------------
  // Detecting names that break the style
  // ---------------------------------------------------------------------

  /// The characters the reply's index list is split on.
  const INDEX_SEPARATORS: set<char> := {',', '，', ' ', '\n'}

  /// A reply saying that nothing is inconsistent ("无", "none").
  predicate SaysNone(raw: string)
  {
    raw == "无" || raw == "" || Contains(ToLower(raw), "无")
  }

  /// The stems named by the pieces that parse as an index from 1 to the
  /// number of stems, in the order of the pieces.
  function SelectedStems(parts: seq<string>, stems: seq<string>): (r: seq<string>)
    ensures |r| <= |parts|
    ensures forall x :: x in r ==> x in stems
    decreases |parts|
  {
    if |parts| == 0 then [] else SelectedStems(parts[..|parts| - 1], stems) + Pick(parts[|parts| - 1], stems)
  }

  /// The stem one piece names, if any.
  function Pick(part: string, stems: seq<string>): (r: seq<string>)
    ensures |r| <= 1
    ensures forall x :: x in r ==> x in stems
  {
    match ParseU64(Trim(part))
    case Some(idx) => if 1 <= idx <= |stems| then [stems[idx - 1]] else []
    case None => []
  }

  /// Every piece that names an index in range selects that stem.
  lemma {:induction false} SelectedStemsComplete(parts: seq<string>, stems: seq<string>, j: nat, idx: nat)
    requires j < |parts| && ParseU64(Trim(parts[j])) == Some(idx) && 1 <= idx <= |stems|
    ensures stems[idx - 1] in SelectedStems(parts, stems)
    decreases |parts|
  {
    var front := parts[..|parts| - 1];
    if j < |parts| - 1 {
      assert front[j] == parts[j];
      SelectedStemsComplete(front, stems, j, idx);
    } else {
      assert Pick(parts[j], stems) == [stems[idx - 1]];
    }
  }

  /// The stem list sent for checking: "1. name" lines.
  function NumberedList(stems: seq<string>, from: nat): string
    decreases |stems|
  {
    if |stems| == 0 then ""
    else if |stems| == 1 then NatToString(from) + ". " + stems[0]
    else NatToString(from) + ". " + stems[0] + "\n" + NumberedList(stems[1..], from + 1)
  }

  const CHECK_SYSTEM: string :=
    "你是一个文件命名一致性检测助手。分析文件名列表，找出命名格式与多数文件不同的异类。只输出序号或\"无\"。"

  function CheckRequestText(stems: seq<string>): string
  {
    "以下是同一视频源的文件列表，请找出命名格式与大多数不一致的文件（异类）。\n只输出不一致文件的序号，用逗号分隔。如果全部一致则输出\"无\"。\n不要解释，不要其他内容。\n\n文件列表：\n"
    + NumberedList(stems, 1)
  }

  /// `find_inconsistent_filenames`: with fewer than three stems there is
  /// nothing to compare and the model is not asked. A reply saying "none"
  /// selects nothing; otherwise the indices in the reply select stems.
  method FindInconsistentFilenames(cfg: AiRenameConfig, stems: seq<string>, reply: Result<seq<string>>)
    returns (request: seq<Message>, r: Result<seq<string>>)
    ensures |stems| < 3 ==> request == [] && r == Ok([])
    ensures |stems| >= 3 && cfg.apiKey.None? ==> request == [] && r == Err("API key missing")
    ensures |stems| >= 3 && cfg.apiKey.Some? ==>
              request == [Message("system", CHECK_SYSTEM), Message("user", CheckRequestText(stems))]
              && (r.Ok? <==> ReplyText(reply).Ok?)
              && (r.Ok? && SaysNone(ReplyText(reply).value) ==> r.value == [])
              && (r.Ok? && !SaysNone(ReplyText(reply).value) ==>
                    r.value == SelectedStems(SplitAny(ReplyText(reply).value, INDEX_SEPARATORS), stems))
    ensures r.Ok? ==> forall x :: x in r.value ==> x in stems
  {
    if |stems| < 3 {
      return [], Ok([]);
    }
    if cfg.apiKey.None? {
      return [], Err("API key missing");
    }
    request := [Message("system", CHECK_SYSTEM), Message("user", CheckRequestText(stems))];
    var text := ReplyText(reply);
    if text.Err? {
      return request, Err(text.error);
    }
    var raw := text.value;
    if SaysNone(raw) {
      return request, Ok([]);
    }
    var inconsistent := SelectIndices(SplitAny(raw, INDEX_SEPARATORS), stems);
    r := Ok(inconsistent);
  }

  lemma SelectedStemsStep(parts: seq<string>, stems: seq<string>, i: nat)
    requires i < |parts|
    ensures SelectedStems(parts[..i + 1], stems) == SelectedStems(parts[..i], stems) + Pick(parts[i], stems)
  {
    assert parts[..i + 1][..i] == parts[..i];
  }

  lemma PickOf(part: string, stems: seq<string>, idx: Option<nat>)
    requires idx == ParseU64(Trim(part))
    ensures Pick(part, stems) == if idx.Some? && 1 <= idx.value <= |stems| then [stems[idx.value - 1]] else []
  {
  }

  /// The parsing loop of `find_inconsistent_filenames`.
  method SelectIndices(parts: seq<string>, stems: seq<string>) returns (inconsistent: seq<string>)
    ensures inconsistent == SelectedStems(parts, stems)
  {
    inconsistent := [];
    var i: nat := 0;
    while i < |parts|
      invariant i <= |parts|
      invariant inconsistent == SelectedStems(parts[..i], stems)
    {
      SelectedStemsStep(parts, stems, i);
      var idx := ParseU64(Trim(parts[i]));
      PickOf(parts[i], stems, idx);
      if idx.Some? && 1 <= idx.value <= |stems| {
        inconsistent := inconsistent + [stems[idx.value - 1]];
      }
      i := i + 1;
    }
    assert parts[..i] == parts;
  }

  // ---------------------------------------------------------------------
  // Sidecar files
  // ---------------------------------------------------------------------

  /// The main media suffixes that the sidecar pass leaves alone
  /// (case-insensitively).
  predicate IsMediaSuffix(suffix: string)
  {
    StartsWith(suffix, ".") &&
    ToLower(suffix) in {".mp4", ".mkv", ".m4a", ".flv", ".webm", ".avi"}
  }

  datatype Rename = Rename(from: string, to: string)

  /// The sidecar rule of `rename_sidecars` as written: a file starting with
  /// the old stem is renamed to the new stem plus the rest of its name,
  /// unless that rest is a main media extension.
  function SidecarTargetAsWritten(fileName: string, stem: string, newStem: string): (r: Option<string>)
    ensures r.Some? ==> StartsWith(fileName, stem) && !IsMediaSuffix(fileName[|stem|..])
    ensures r.Some? ==> StartsWith(r.value, newStem) && r.value[|newStem|..] == fileName[|stem|..]
    ensures StartsWith(fileName, stem) && !IsMediaSuffix(fileName[|stem|..]) ==> r.Some?
  {
    if !StartsWith(fileName, stem) then None
    else
      var suffix := fileName[|stem|..];
      if IsMediaSuffix(suffix) then None
      else Some(newStem + suffix)
  }

  /// When the new stem extends the old one, the main file that was just
  /// renamed starts with the old stem too, and the rule as written renames
  /// it a second time: `EP1.mp4` becomes `EP1-Title.mp4` and then
  /// `EP1-Title-Title.mp4`, so the path reported to the caller is gone.
  lemma SidecarAsWrittenRenamesMainFile()
    ensures SidecarTargetAsWritten("EP1-Title.mp4", "EP1", "EP1-Title") == Some("EP1-Title-Title.mp4")
  {
    var f := "EP1-Title.mp4";
    assert StartsWith(f, "EP1") by { assert f[..3] == "EP1"; }
    var suffix := f[3..];
    assert suffix == "-Title.mp4";
    assert !IsMediaSuffix(suffix) by { assert suffix[..1][0] == '-'; }
    assert "EP1-Title" + suffix == "EP1-Title-Title.mp4";
  }

  /// The corrected rule: as written, except that a file already carrying
  /// the (longer) new stem, such as the renamed main file, is left alone.
  function SidecarTarget(fileName: string, stem: string, newStem: string): (r: Option<string>)
    ensures r.Some? ==> StartsWith(fileName, stem) && !IsMediaSuffix(fileName[|stem|..])
    ensures r.Some? ==> StartsWith(r.value, newStem) && r.value[|newStem|..] == fileName[|stem|..]
    ensures r.Some? ==> !(|newStem| > |stem| && StartsWith(fileName, newStem))
    ensures (StartsWith(fileName, stem) && !IsMediaSuffix(fileName[|stem|..])
             && !(|newStem| > |stem| && StartsWith(fileName, newStem))) ==> r.Some?
  {
    if |newStem| > |stem| && StartsWith(fileName, newStem) then None
    else SidecarTargetAsWritten(fileName, stem, newStem)
  }

  /// With the corrected rule the renamed main file, whatever its
  /// extension, is never renamed again (unless the old stem itself was the
  /// new stem followed by a dot, where the old name already covers it).
  lemma SidecarKeepsMainFile(stem: string, newStem: string, ext: string)
    requires newStem != stem && !StartsWith(stem, newStem + ".")
    ensures SidecarTarget(newStem + "." + ext, stem, newStem).None?
  {
    var f := newStem + "." + ext;
    assert f[..|newStem|] == newStem;
    assert f[..|newStem| + 1] == newStem + ".";
  }

  /// The renames of a directory listing, in listing order.
  function SidecarRenames(dir: string, entries: seq<string>, stem: string, newStem: string): (r: seq<Rename>)
    ensures |r| <= |entries|
    decreases |entries|
  {
    if |entries| == 0 then []
    else
      var rest := SidecarRenames(dir, entries[..|entries| - 1], stem, newStem);
      var name := entries[|entries| - 1];
      match SidecarTarget(name, stem, newStem)
      case None => rest
      case Some(target) => rest + [Rename(JoinPath(dir, name), JoinPath(dir, target))]
  }

  /// Every rename replaces the old stem with the new one and keeps the rest
  /// of the name.
  lemma {:induction false} SidecarRenamesKeepSuffix(dir: string, entries: seq<string>, stem: string, newStem: string, k: nat)
    requires k < |SidecarRenames(dir, entries, stem, newStem)|
    ensures exists name :: name in entries
              && SidecarTarget(name, stem, newStem).Some?
              && SidecarRenames(dir, entries, stem, newStem)[k]
                 == Rename(JoinPath(dir, name), JoinPath(dir, newStem + name[|stem|..]))
    decreases |entries|
  {
    var front := entries[..|entries| - 1];
    var rest := SidecarRenames(dir, front, stem, newStem);
    if k < |rest| {
      SidecarRenamesKeepSuffix(dir, front, stem, newStem, k);
      var name :| name in front && SidecarTarget(name, stem, newStem).Some?
                  && rest[k] == Rename(JoinPath(dir, name), JoinPath(dir, newStem + name[|stem|..]));
      assert name in entries;
    } else {
      var name := entries[|entries| - 1];
      assert name in entries;
    }
  }

  /// `rename_sidecars`: `parent` and `stem` are the old path's directory
  /// and file stem (absent when the path has none), `entries` the names of
  /// the regular files in that directory. The renames themselves are
  /// returned; a rename that fails is only logged by the source.
  method RenameSidecars(parent: Option<string>, stem: Option<string>, newStem: string, entries: seq<string>)
    returns (r: Result<seq<Rename>>)
    ensures parent.None? ==> r == Err("Invalid path")
    ensures parent.Some? && stem.None? ==> r == Err("Invalid stem")
    ensures parent.Some? && stem.Some? ==> r == Ok(SidecarRenames(parent.value, entries, stem.value, newStem))
  {
    if parent.None? {
      return Err("Invalid path");
    }
    if stem.None? {
      return Err("Invalid stem");
    }
    var dir := parent.value;
    var renames: seq<Rename> := [];
    var i: nat := 0;
    while i < |entries|
      invariant i <= |entries|
      invariant renames == SidecarRenames(dir, entries[..i], stem.value, newStem)
    {
      assert entries[..i + 1][..i] == entries[..i];
      var target := SidecarTarget(entries[i], stem.value, newStem);
      if target.Some? {
        renames := renames + [Rename(JoinPath(dir, entries[i]), JoinPath(dir, target.value))];
      }
      i := i + 1;
    }
    assert entries[..i] == entries;
    r := Ok(renames);
  }

  // ---------------------------------------------------------------------
  // Fixing one inconsistent file
  // ---------------------------------------------------------------------

  /// `Path::file_stem` and `Path::extension` of a file name: split at the
  /// last dot, unless that dot starts the name.
  function StemAndExtension(name: string): (r: (string, Option<string>))
    ensures r.1.None? ==> r.0 == name
    ensures r.1.Some? ==> name == r.0 + "." + r.1.value && |r.0| > 0 && '.' !in r.1.value
  {
    match RFindChar(name, '.')
    case None => (name, None)
    case Some(i) =>
      if i == 0 then (name, None)
      else
        assert name == name[..i] + "." + name[i + 1..];
        (name[..i], Some(name[i + 1..]))
  }

  /// The extensions treated as audio (compared exactly).
  predicate IsAudioExtension(ext: string)
  {
    ext == "m4a" || ext == "mp3" || ext == "flac"
  }

  const FIX_SYSTEM: string :=
    "你是一个文件命名一致性修复助手。根据之前的命名风格，为这个异类文件生成一致的新名称。只输出文件名本身。"

  function FixRequestText(currentStem: string, prompt: string): string
  {
    "这个文件的命名格式与同源其他文件不一致，请根据已有的命名风格重新命名。\n只输出新文件名（不含扩展名），必须严格遵循之前的命名格式。\n\n当前文件名："
    + currentStem + "\n命名结构提示：" + prompt + "\n"
  }

  /// `rename_inconsistent_file`: asks for a stem in the style the source's
  /// history shows and renames the file (keeping its extension, "mp4" when
  /// it has none) and its sidecars. It refuses without a history, and when
  /// the answer is empty or the current stem. `fileName` is the path's file
  /// name, `renamed` whether the file system rename succeeded and `entries`
  /// the directory listing the sidecar pass sees.
  method RenameInconsistentFile(cache: ConversationCache, cfg: AiRenameConfig, sourceKey: string,
                                dir: string, fileName: Option<string>,
                                videoOverride: string, audioOverride: string,
                                reply: Result<seq<string>>, filenamify: string -> string,
                                renamed: bool, entries: seq<string>)
    returns (request: seq<Message>, r: Result<string>, sidecars: seq<Rename>)
    ensures fileName.None? ==> r == Err("Invalid file stem") && request == []
    ensures fileName.Some? && cfg.apiKey.None? ==> r == Err("API key missing") && request == []
    ensures fileName.Some? && cfg.apiKey.Some? && cache.History(sourceKey) == [] ==> r.Err? && request == []
    ensures r.Ok? ==>
              fileName.Some? && cfg.apiKey.Some? && cache.History(sourceKey) != [] && renamed
              && ReplyText(reply).Ok? && CleanName(ReplyText(reply).value, filenamify).Some?
              && var (stem, ext) := StemAndExtension(fileName.value);
                 var newStem := CleanName(ReplyText(reply).value, filenamify).value;
                 newStem != stem
                 && r.value == JoinPath(dir, newStem + "." + ext.UnwrapOr("mp4"))
                 && request == [Message("system", FIX_SYSTEM)] + cache.History(sourceKey)
                    + [Message("user", FixRequestText(stem, Prompt(cfg, IsAudioExtension(ext.UnwrapOr("mp4")), videoOverride, audioOverride)))]
                 && sidecars == SidecarRenames(dir, entries, stem, newStem)
    ensures r.Err? ==> sidecars == []
  {
    request, sidecars := [], [];
    if fileName.None? {
      return [], Err("Invalid file stem"), [];
    }
    var (stem, extension) := StemAndExtension(fileName.value);
    var ext := extension.UnwrapOr("mp4");
    var isAudio := IsAudioExtension(ext);
    if cfg.apiKey.None? {
      return [], Err("API key missing"), [];
    }
    var history := cache.History(sourceKey);
    if |history| == 0 {
      return [], Err("没有对话历史，无法确定一致的命名风格"), [];
    }
    var prompt := Prompt(cfg, isAudio, videoOverride, audioOverride);
    request := BuildMessages(FIX_SYSTEM, history, FixRequestText(stem, prompt));
    assert request == [request[0]] + request[1..|request| - 1] + [request[|request| - 1]];
    var text := ReplyText(reply);
    if text.Err? {
      return request, Err(text.error), [];
    }
    var name := CleanName(text.value, filenamify);
    if name.None? || name.value == stem {
      return request, Err("生成的文件名无效或相同"), [];
    }
    var newStem := name.value;
    if !renamed {
      return request, Err("rename failed"), [];
    }
    var planned := RenameSidecars(Some(dir), Some(stem), newStem, entries);
    sidecars := planned.value;
    r := Ok(JoinPath(dir, newStem + "." + ext));
  }
}
