/// The CSV file logger: log entries are buffered in memory, drained to one
/// "all" file plus one file per level when the buffer reaches 1000 entries or
/// on an explicit flush, and every scan round switches to a fresh set of
/// files whose identifier is made unique against the log directory.
///
/// The log directory is a map from file name to file contents; the writers
/// the source keeps open always point at the five files of `currentLogId`,
/// so appending through a writer is appending to that file's contents.
module FileLogger {
  import opened Common

  /// The buffer is drained as soon as it holds this many entries.
  const BUFFER_LIMIT: nat := 1000

  /// The first line of every log file: a UTF-8 byte order mark and the
  /// column titles (time, level, message, source).
  const HEADER: string := "\U{FEFF}时间,级别,消息,来源\n"

  datatype LogEntry = LogEntry(timestamp: string, level: string, message: string, target: string)

  datatype LogFile = AllLogs | DebugLogs | InfoLogs | WarnLogs | ErrorLogs

  function KindName(f: LogFile): string
  {
    match f
    case AllLogs => "all"
    case DebugLogs => "debug"
    case InfoLogs => "info"
    case WarnLogs => "warn"
    case ErrorLogs => "error"
  }

  /// `logs-<kind>-<id>.csv`.
  function LogFileName(f: LogFile, id: string): string
  {
    "logs-" + KindName(f) + "-" + id + ".csv"
  }

  /// Different kinds or different round identifiers never share a file.
  lemma LogFileNameInjective(f: LogFile, g: LogFile, a: string, b: string)
    requires LogFileName(f, a) == LogFileName(g, b)
    ensures f == g && a == b
  {
    var s := LogFileName(f, a);
    assert s[5] == KindName(f)[0] && s[5] == KindName(g)[0];
    assert f == g;
    var p := "logs-" + KindName(f) + "-";
    assert s == p + a + ".csv" && s == p + b + ".csv";
    assert a == s[|p|..|s| - 4] == b;
  }

  // ---------------------------------------------------------------------
  // CSV escaping (section 2, rules 6 and 7 of RFC 4180)
  // ---------------------------------------------------------------------

  predicate NeedsQuoting(field: string)
  {
    ',' in field || '"' in field || '\n' in field || '\r' in field
  }

  /// `escape_csv`: a field holding a comma, a quote or a line break is
  /// enclosed in quotes with its quotes doubled; any other field is kept.
  function EscapeCsv(field: string): (r: string)
    ensures (|r| > 0 && r[0] == '"') <==> NeedsQuoting(field)
    ensures !NeedsQuoting(field) ==> r == field
    ensures NeedsQuoting(field) ==> |r| >= 2 && r[|r| - 1] == '"'
  {
    if NeedsQuoting(field) then "\"" + ReplaceChar(field, '"', "\"\"") + "\"" else field
  }

  /// Reading a field back: a quoted field loses its quotes and has its
  /// doubled quotes undoubled.
  function UnescapeCsv(r: string): string
  {
    if |r| >= 2 && r[0] == '"' && r[|r| - 1] == '"' then Undoubled(r[1..|r| - 1]) else r
  }

  function Undoubled(s: string): string
    decreases |s|
  {
    if |s| == 0 then ""
    else if |s| >= 2 && s[0] == '"' && s[1] == '"' then "\"" + Undoubled(s[2..])
    else [s[0]] + Undoubled(s[1..])
  }

  lemma {:induction false} UndoubledDoubled(s: string)
    ensures Undoubled(ReplaceChar(s, '"', "\"\"")) == s
    decreases |s|
  {
    if |s| > 0 {
      var t := ReplaceChar(s[1..], '"', "\"\"");
      UndoubledDoubled(s[1..]);
      if s[0] == '"' {
        var u := "\"\"" + t;
        assert ReplaceChar(s, '"', "\"\"") == u;
        assert u[2..] == t;
        assert s == "\"" + s[1..];
      } else {
        var u := [s[0]] + t;
        assert ReplaceChar(s, '"', "\"\"") == u;
        assert u[1..] == t;
        assert s == [s[0]] + s[1..];
      }
    }
  }

  /// Escaping loses nothing: reading the field back gives the original.
  lemma EscapeCsvRoundTrip(field: string)
    ensures UnescapeCsv(EscapeCsv(field)) == field
  {
    if NeedsQuoting(field) {
      var inner := ReplaceChar(field, '"', "\"\"");
      var r := "\"" + inner + "\"";
      assert r[1..|r| - 1] == inner;
      UndoubledDoubled(field);
    } else if |field| >= 2 {
      assert field[0] != '"';
    }
  }

  /// One CSV record: timestamp, level, escaped message, escaped target.
  function LogLine(e: LogEntry): string
  {
    e.timestamp + "," + e.level + "," + EscapeCsv(e.message) + "," + EscapeCsv(e.target) + "\n"
  }

  // ---------------------------------------------------------------------
  // Routing entries to files
  // ---------------------------------------------------------------------

  /// The own file of the four known levels.
  function LevelFile(level: string): Option<LogFile>
  {
    if level == "debug" then Some(DebugLogs)
    else if level == "info" then Some(InfoLogs)
    else if level == "warn" then Some(WarnLogs)
    else if level == "error" then Some(ErrorLogs)
    else None
  }

  /// Where an entry of `level` belongs, case-insensitively: every level but
  /// debug goes to the all-file, and the four known levels to their own file.
  predicate RoutedTo(level: string, f: LogFile)
  {
    Belongs(ToLower(level), f)
  }

  predicate Belongs(level: string, f: LogFile)
  {
    match f
    case AllLogs => level != "debug"
    case DebugLogs => level == "debug"
    case InfoLogs => level == "info"
    case WarnLogs => level == "warn"
    case ErrorLogs => level == "error"
  }

  function Contents(files: map<string, string>, name: string): string
  {
    if name in files then files[name] else ""
  }

  function Append(files: map<string, string>, name: string, text: string): map<string, string>
  {
    files[name := Contents(files, name) + text]
  }

  /// One turn of `write_entries_to_files`.
  function WriteEntry(files: map<string, string>, id: string, e: LogEntry): map<string, string>
  {
    Route(files, id, ToLower(e.level), LogLine(e))
  }

  /// The line goes to the all-file unless the (lower-cased) level is debug,
  /// then to the level's own file if it has one.
  function Route(files: map<string, string>, id: string, level: string, line: string): map<string, string>
  {
    var withAll := if level != "debug" then Append(files, LogFileName(AllLogs, id), line) else files;
    match LevelFile(level)
    case None => withAll
    case Some(f) => Append(withAll, LogFileName(f, id), line)
  }

  /// `write_entries_to_files` over a whole batch, in order.
  function WriteEntries(files: map<string, string>, id: string, entries: seq<LogEntry>): map<string, string>
    decreases |entries|
  {
    if |entries| == 0 then files
    else WriteEntry(WriteEntries(files, id, entries[..|entries| - 1]), id, entries[|entries| - 1])
  }

  /// The lines of `entries` that belong in a file of kind `f`, in order.
  function RoutedLines(entries: seq<LogEntry>, f: LogFile): string
    decreases |entries|
  {
    if |entries| == 0 then ""
    else
      var e := entries[|entries| - 1];
      RoutedLines(entries[..|entries| - 1], f) + (if RoutedTo(e.level, f) then LogLine(e) else "")
  }

  /// Writing one entry appends its line to exactly the files of the round
  /// it is routed to.
  lemma WriteEntryRoutes(files: map<string, string>, id: string, e: LogEntry, f: LogFile)
    ensures Contents(WriteEntry(files, id, e), LogFileName(f, id))
         == Contents(files, LogFileName(f, id)) + (if RoutedTo(e.level, f) then LogLine(e) else "")
  {
    RouteAppends(files, id, ToLower(e.level), LogLine(e), f);
  }

  lemma RouteAppends(files: map<string, string>, id: string, level: string, line: string, f: LogFile)
    ensures Contents(Route(files, id, level, line), LogFileName(f, id))
         == Contents(files, LogFileName(f, id)) + (if Belongs(level, f) then line else "")
  {
    var name := LogFileName(f, id);
    var withAll := if level != "debug" then Append(files, LogFileName(AllLogs, id), line) else files;
    assert Contents(withAll, name) == Contents(files, name) + (if f == AllLogs && level != "debug" then line else "") by {
      if f != AllLogs && level != "debug" {
        NamesDiffer(f, AllLogs, id);
      }
    }
    match LevelFile(level)
    case None =>
    case Some(g) =>
      if g != f {
        NamesDiffer(f, g, id);
      }
  }

  lemma NamesDiffer(f: LogFile, g: LogFile, id: string)
    requires f != g
    ensures LogFileName(f, id) != LogFileName(g, id)
  {
    if LogFileName(f, id) == LogFileName(g, id) {
      LogFileNameInjective(f, g, id, id);
    }
  }

  /// A file that is not one of the round's five is never written.
  lemma {:induction false} WriteEntriesElsewhere(files: map<string, string>, id: string, entries: seq<LogEntry>, name: string)
    requires forall f: LogFile :: name != LogFileName(f, id)
    ensures Contents(WriteEntries(files, id, entries), name) == Contents(files, name)
    decreases |entries|
  {
    if |entries| > 0 {
      var front := entries[..|entries| - 1];
      WriteEntriesElsewhere(files, id, front, name);
      RouteElsewhere(WriteEntries(files, id, front), id, ToLower(entries[|entries| - 1].level), LogLine(entries[|entries| - 1]), name);
    }
  }

  lemma RouteElsewhere(files: map<string, string>, id: string, level: string, line: string, name: string)
    requires forall f: LogFile :: name != LogFileName(f, id)
    ensures Contents(Route(files, id, level, line), name) == Contents(files, name)
  {
  }

  /// Every file of the round receives exactly the lines of the entries
  /// routed to it, in the order they were logged.
  lemma {:induction false} WriteEntriesRoutes(files: map<string, string>, id: string, entries: seq<LogEntry>, f: LogFile)
    ensures Contents(WriteEntries(files, id, entries), LogFileName(f, id))
         == Contents(files, LogFileName(f, id)) + RoutedLines(entries, f)
    decreases |entries|
  {
    if |entries| > 0 {
      var front := entries[..|entries| - 1];
      WriteEntriesRoutes(files, id, front, f);
      WriteEntriesRoutesStep(files, id, entries, f);
      var e := entries[|entries| - 1];
      AppendAssoc(Contents(files, LogFileName(f, id)), RoutedLines(front, f), if RoutedTo(e.level, f) then LogLine(e) else "");
    }
  }

  lemma AppendAssoc(a: string, b: string, c: string)
    ensures a + b + c == a + (b + c)
  {
  }

  /// One more entry: its line, if routed to `f`, follows what the others wrote.
  lemma WriteEntriesRoutesStep(files: map<string, string>, id: string, entries: seq<LogEntry>, f: LogFile)
    requires |entries| > 0
    ensures var front, e := entries[..|entries| - 1], entries[|entries| - 1];
      var line := if RoutedTo(e.level, f) then LogLine(e) else "";
      && Contents(WriteEntries(files, id, entries), LogFileName(f, id))
         == Contents(WriteEntries(files, id, front), LogFileName(f, id)) + line
      && RoutedLines(entries, f) == RoutedLines(front, f) + line
  {
    var front, e := entries[..|entries| - 1], entries[|entries| - 1];
    WriteEntryRoutes(WriteEntries(files, id, front), id, e, f);
  }

  /// Writing never removes a file.
  lemma {:induction false} WriteEntriesKeys(files: map<string, string>, id: string, entries: seq<LogEntry>)
    ensures files.Keys <= WriteEntries(files, id, entries).Keys
    decreases |entries|
  {
    if |entries| > 0 {
      WriteEntriesKeys(files, id, entries[..|entries| - 1]);
    }
  }

  /// Writing a batch in two parts is writing it at once: buffering changes
  /// when lines reach the files, not what they say or their order.
  lemma {:induction false} WriteEntriesConcat(files: map<string, string>, id: string, a: seq<LogEntry>, b: seq<LogEntry>)
    ensures WriteEntries(files, id, a + b) == WriteEntries(WriteEntries(files, id, a), id, b)
    decreases |b|
  {
    if |b| == 0 {
      assert a + b == a;
    } else {
      var ab := a + b;
      var front := b[..|b| - 1];
      assert ab[..|ab| - 1] == a + front;
      assert ab[|ab| - 1] == b[|b| - 1];
      WriteEntriesConcat(files, id, a, front);
      WriteEntriesLast(files, id, ab);
      WriteEntriesLast(WriteEntries(files, id, a), id, b);
    }
  }

  lemma WriteEntriesStep(files: map<string, string>, id: string, entries: seq<LogEntry>, i: nat)
    requires i < |entries|
    ensures WriteEntries(files, id, entries[..i + 1]) == WriteEntry(WriteEntries(files, id, entries[..i]), id, entries[i])
  {
    assert entries[..i + 1][..i] == entries[..i];
  }

  lemma WriteEntriesLast(files: map<string, string>, id: string, entries: seq<LogEntry>)
    requires |entries| > 0
    ensures WriteEntries(files, id, entries)
         == WriteEntry(WriteEntries(files, id, entries[..|entries| - 1]), id, entries[|entries| - 1])
  {
  }

  // ---------------------------------------------------------------------
  // Round files and unique identifiers
  // ---------------------------------------------------------------------

  /// The place of each file in the order `create_round_log_files` creates
  /// them.
  function CreationOrder(f: LogFile): nat
  {
    match f
    case AllLogs => 0
    case DebugLogs => 1
    case InfoLogs => 2
    case WarnLogs => 3
    case ErrorLogs => 4
  }

  /// `create_round_log_files` when only the first `createdFiles` files could be
  /// created: the `?` on the next one returns, and the files created so far
  /// stay, each truncated to the header.
  function CreateFirst(files: map<string, string>, id: string, createdFiles: nat): (r: map<string, string>)
    ensures forall f: LogFile :: CreationOrder(f) < createdFiles ==> LogFileName(f, id) in r && r[LogFileName(f, id)] == HEADER
    ensures files.Keys <= r.Keys
    ensures forall name :: name in files && (forall f: LogFile :: CreationOrder(f) < createdFiles ==> name != LogFileName(f, id))
                           ==> r[name] == files[name]
    ensures forall name :: name in r && name !in files ==> exists f: LogFile :: CreationOrder(f) < createdFiles && name == LogFileName(f, id)
  {
    var all := if createdFiles > 0 then files[LogFileName(AllLogs, id) := HEADER] else files;
    var debug := if createdFiles > 1 then all[LogFileName(DebugLogs, id) := HEADER] else all;
    var info := if createdFiles > 2 then debug[LogFileName(InfoLogs, id) := HEADER] else debug;
    var warn := if createdFiles > 3 then info[LogFileName(WarnLogs, id) := HEADER] else info;
    if createdFiles > 4 then warn[LogFileName(ErrorLogs, id) := HEADER] else warn
  }

  /// The number of files of a round.
  const ROUND_FILES: nat := 5

  /// `create_round_log_files`: the five files of the round, each truncated
  /// to the header.
  function CreateRound(files: map<string, string>, id: string): (r: map<string, string>)
    ensures forall f: LogFile :: LogFileName(f, id) in r && r[LogFileName(f, id)] == HEADER
    ensures files.Keys <= r.Keys
    ensures forall name :: name in files && (forall f: LogFile :: name != LogFileName(f, id)) ==> r[name] == files[name]
  {
    CreateFirst(files, id, ROUND_FILES)
  }

  /// The `k`-th identifier tried for a round starting at `base`:
  /// `base`, then `base-1`, `base-2`, ...
  function Candidate(base: string, k: nat): string
  {
    if k == 0 then base else base + "-" + NatToString(k)
  }

  lemma CandidateInjective(base: string, a: nat, b: nat)
    requires Candidate(base, a) == Candidate(base, b)
    ensures a == b
  {
    if a != 0 && b != 0 {
      var p := base + "-";
      assert Candidate(base, a) == p + NatToString(a);
      assert Candidate(base, b) == p + NatToString(b);
      assert NatToString(a) == Candidate(base, a)[|p|..] == NatToString(b);
      NatToStringInjective(a, b);
    }
  }

  /// The all-file names of the first `k` candidates.
  function Tried(base: string, k: nat): set<string>
  {
    set j | 0 <= j < k :: LogFileName(AllLogs, Candidate(base, j))
  }

  lemma {:induction false} TriedCount(base: string, k: nat)
    ensures |Tried(base, k)| == k
  {
    if k > 0 {
      TriedCount(base, k - 1);
      TriedStep(base, k - 1);
      NotTriedYet(base, k - 1);
    }
  }

  lemma TriedStep(base: string, k: nat)
    ensures Tried(base, k + 1) == Tried(base, k) + {LogFileName(AllLogs, Candidate(base, k))}
  {
  }

  lemma NotTriedYet(base: string, k: nat)
    ensures LogFileName(AllLogs, Candidate(base, k)) !in Tried(base, k)
  {
    var name := LogFileName(AllLogs, Candidate(base, k));
    if name in Tried(base, k) {
      var j :| 0 <= j < k && name == LogFileName(AllLogs, Candidate(base, j));
      LogFileNameInjective(AllLogs, AllLogs, Candidate(base, k), Candidate(base, j));
      CandidateInjective(base, k, j);
    }
  }

  /// Only as many candidates as there are files can be taken.
  lemma TakenBound(base: string, present: set<string>, k: nat)
    requires forall j :: 0 <= j < k ==> LogFileName(AllLogs, Candidate(base, j)) in present
    ensures k <= |present|
  {
    TriedCount(base, k);
    var t := Tried(base, k);
    assert t <= present;
    assert t * present == t;
    assert |present - t| == |present| - |t * present|;
  }

  /// The first candidate from `k` on whose all-file is absent.
  function FirstFreeIndex(base: string, present: set<string>, k: nat): (r: nat)
    requires forall j :: 0 <= j < k ==> LogFileName(AllLogs, Candidate(base, j)) in present
    ensures r >= k
    ensures LogFileName(AllLogs, Candidate(base, r)) !in present
    ensures forall j :: 0 <= j < r ==> LogFileName(AllLogs, Candidate(base, j)) in present
    decreases |present| - k
  {
    if LogFileName(AllLogs, Candidate(base, k)) !in present then k
    else
      TakenBound(base, present, k + 1);
      FirstFreeIndex(base, present, k + 1)
  }

  /// The identifier `generate_unique_log_id` settles on.
  function UniqueLogId(base: string, present: set<string>): string
  {
    Candidate(base, FirstFreeIndex(base, present, 0))
  }

  /// The round's all-file is new, and every earlier candidate was taken.
  lemma UniqueLogIdIsFirstFree(base: string, present: set<string>)
    ensures LogFileName(AllLogs, UniqueLogId(base, present)) !in present
    ensures exists k: nat :: UniqueLogId(base, present) == Candidate(base, k)
                          && forall j :: 0 <= j < k ==> LogFileName(AllLogs, Candidate(base, j)) in present
  {
    var k := FirstFreeIndex(base, present, 0);
    assert UniqueLogId(base, present) == Candidate(base, k);
  }

  /// `generate_unique_log_id`, with the directory's file names as `present`
  /// and the formatted clock as `base`.
  method GenerateUniqueLogId(base: string, present: set<string>) returns (id: string)
    ensures id == UniqueLogId(base, present)
  {
    var candidate := base;
    var index: nat := 1;
    while LogFileName(AllLogs, candidate) in present
      invariant index >= 1 && candidate == Candidate(base, index - 1)
      invariant forall j :: 0 <= j < index - 1 ==> LogFileName(AllLogs, Candidate(base, j)) in present
      invariant FirstFreeIndex(base, present, index - 1) == FirstFreeIndex(base, present, 0)
      invariant index - 1 <= |present|
      decreases |present| - (index - 1)
    {
      TakenBound(base, present, index);
      candidate := base + "-" + NatToString(index);
      index := index + 1;
    }
    id := candidate;
  }

  /// A new round never reuses the current round's identifier, so the
  /// truncating creation of its files leaves the previous round's files as
  /// they were.
  lemma RotationKeepsPreviousRound(files: map<string, string>, oldId: string, base: string, f: LogFile, createdFiles: nat)
    requires LogFileName(AllLogs, oldId) in files
    ensures UniqueLogId(base, files.Keys) != oldId
    ensures Contents(CreateFirst(files, UniqueLogId(base, files.Keys), createdFiles), LogFileName(f, oldId))
         == Contents(files, LogFileName(f, oldId))
  {
    var id := UniqueLogId(base, files.Keys);
    UniqueLogIdIsFirstFree(base, files.Keys);
    forall g: LogFile
      ensures LogFileName(f, oldId) != LogFileName(g, id)
    {
      if LogFileName(f, oldId) == LogFileName(g, id) {
        LogFileNameInjective(f, g, oldId, id);
      }
    }
  }

  // ---------------------------------------------------------------------
  // The writer
  // ---------------------------------------------------------------------

  class FileLogWriter {
    /// Entries logged but not yet written.
    var buffer: seq<LogEntry>
    /// The identifier of the current round's files.
    var currentLogId: string
    /// The log directory: file name to contents.
    var files: map<string, string>

    ghost predicate Valid()
      reads this
    {
      |buffer| < BUFFER_LIMIT &&
      forall f: LogFile :: LogFileName(f, currentLogId) in files
    }

    /// `FileLogWriter::new`: the round named after the start-up time.
    constructor (startupTime: string, directory: map<string, string>)
      ensures Valid()
      ensures buffer == [] && currentLogId == startupTime
      ensures files == CreateRound(directory, startupTime)
    {
      buffer := [];
      currentLogId := startupTime;
      files := CreateRound(directory, startupTime);
    }

    /// `current_log_file_name`: the own file of the four known levels,
    /// matched exactly, and the all-file for anything else.
    function CurrentLogFileName(level: string): (r: string)
      reads this
      ensures level in {"debug", "info", "warn", "error"} ==> r == "logs-" + level + "-" + currentLogId + ".csv"
      ensures level !in {"debug", "info", "warn", "error"} ==> r == "logs-all-" + currentLogId + ".csv"
    {
      match LevelFile(level)
      case Some(f) => LogFileName(f, currentLogId)
      case None => LogFileName(AllLogs, currentLogId)
    }

    /// `write_log`: buffer the entry; at 1000 buffered entries write them
    /// all out and empty the buffer.
    method WriteLog(timestamp: string, level: string, message: string, target: Option<string>)
      requires Valid()
      modifies this
      ensures Valid()
      ensures currentLogId == old(currentLogId)
      ensures var entry := LogEntry(timestamp, level, message, target.UnwrapOr(""));
              if |old(buffer)| + 1 >= BUFFER_LIMIT
              then buffer == [] && files == WriteEntries(old(files), currentLogId, old(buffer) + [entry])
              else buffer == old(buffer) + [entry] && files == old(files)
    {
      var entry := LogEntry(timestamp, level, message, target.UnwrapOr(""));
      buffer := buffer + [entry];
      if |buffer| >= BUFFER_LIMIT {
        var entries := buffer;
        buffer := [];
        WriteEntriesToFiles(entries);
      }
    }

    /// `write_entries_to_files`.
    method WriteEntriesToFiles(entries: seq<LogEntry>)
      requires Valid()
      modifies this
      ensures Valid()
      ensures buffer == old(buffer) && currentLogId == old(currentLogId)
      ensures files == WriteEntries(old(files), currentLogId, entries)
    {
      var i: nat := 0;
      while i < |entries|
        invariant i <= |entries|
        invariant files == WriteEntries(old(files), currentLogId, entries[..i])
        invariant buffer == old(buffer) && currentLogId == old(currentLogId)
      {
        WriteEntriesStep(old(files), currentLogId, entries, i);
        files := WriteEntry(files, currentLogId, entries[i]);
        i := i + 1;
      }
      assert entries[..i] == entries;
      WriteEntriesKeys(old(files), currentLogId, entries);
    }

    /// `flush` / `flush_internal`: write out everything buffered. The
    /// buffer is always empty afterwards.
    method Flush()
      requires Valid()
      modifies this
      ensures Valid()
      ensures buffer == [] && currentLogId == old(currentLogId)
      ensures files == WriteEntries(old(files), currentLogId, old(buffer))
    {
      var entries := buffer;
      buffer := [];
      if |entries| > 0 {
        WriteEntriesToFiles(entries);
      }
    }

    /// `rotate_for_new_round`: flush into the current round's files, then
    /// open the files of a fresh identifier and switch to it. `now` is the
    /// formatted clock and `createdFiles` how many of the new round's files could
    /// be created, in creation order, before one failed (five or more: all).
    method RotateForNewRound(now: string, createdFiles: nat) returns (r: Result<string>)
      requires Valid()
      modifies this
      ensures Valid()
      ensures buffer == []
      ensures var flushed := WriteEntries(old(files), old(currentLogId), old(buffer));
              var id := UniqueLogId(now, flushed.Keys);
              if createdFiles >= ROUND_FILES
              then r == Ok(id) && currentLogId == id && files == CreateRound(flushed, id)
              else r.Err? && currentLogId == old(currentLogId) && files == CreateFirst(flushed, id, createdFiles)
    {
      Flush();
      var id := GenerateUniqueLogId(now, files.Keys);
      if createdFiles < ROUND_FILES {
        files := CreateFirst(files, id, createdFiles);
        return Err("cannot create the log files of the new round");
      }
      files := CreateRound(files, id);
      currentLogId := id;
      r := Ok(id);
    }
  }

  /// The process-wide logger: the writer, absent when it could not be set
  /// up, and the flag that turns the first rotation request into a flush.
  class GlobalLogger {
    const writer: FileLogWriter?
    var skipFirstRoundRotate: bool

    constructor (writer: FileLogWriter?)
      ensures this.writer == writer && skipFirstRoundRotate
    {
      this.writer := writer;
      skipFirstRoundRotate := true;
    }

    /// `get_current_log_file_name`.
    function GetCurrentLogFileName(level: string): (r: Option<string>)
      reads writer
      ensures r.Some? <==> writer != null
      ensures writer != null ==> r.value == writer.CurrentLogFileName(level)
    {
      if writer == null then None else Some(writer.CurrentLogFileName(level))
    }

    /// `rotate_log_files_for_new_round`: the first request after start-up
    /// only flushes (the start-up round is still fresh); later requests
    /// rotate and report the new identifier, or nothing when that fails.
    method RotateLogFilesForNewRound(now: string, createdFiles: nat) returns (r: Option<string>)
      requires writer != null ==> writer.Valid()
      modifies this, writer
      ensures writer != null ==> writer.Valid()
      ensures writer == null ==> r == None && skipFirstRoundRotate == old(skipFirstRoundRotate)
      ensures writer != null ==> !skipFirstRoundRotate && writer.buffer == []
      ensures writer != null && old(skipFirstRoundRotate) ==>
                r == None && writer.currentLogId == old(writer.currentLogId)
                && writer.files == WriteEntries(old(writer.files), old(writer.currentLogId), old(writer.buffer))
      ensures writer != null && !old(skipFirstRoundRotate) ==>
                var flushed := WriteEntries(old(writer.files), old(writer.currentLogId), old(writer.buffer));
                var id := UniqueLogId(now, flushed.Keys);
                if createdFiles >= ROUND_FILES
                then r == Some(id) && writer.currentLogId == id && writer.files == CreateRound(flushed, id)
                else r == None && writer.currentLogId == old(writer.currentLogId)
                     && writer.files == CreateFirst(flushed, id, createdFiles)
    {
      if writer == null {
        return None;
      }
      if skipFirstRoundRotate {
        skipFirstRoundRotate := false;
        writer.Flush();
        return None;
      }
      var rotated := writer.RotateForNewRound(now, createdFiles);
      match rotated
      case Ok(id) => r := Some(id);
      case Err(_) => r := None;
    }
  }
}
