/**
 * The log manager: the bounded in-memory buffer of entries kept per project,
 * the pipeline that reads entries back from a log file, and the rule that
 * rotates a log file once it grows too large. Reading and writing files, the
 * clock and the console are outside the model: file contents, read failures
 * and timestamps are inputs, and JSON is reached only through the `parse`
 * function a caller supplies.
 */
module Logging {
  import opened Wrappers
  import opened Builtins

  /** `maxProjectLogs`: the most entries kept in memory per project. */
  const MaxProjectLogs := 500

  /** A log file is rotated once it holds more than 10 MiB. */
  const RotationThreshold := 10 * 1024 * 1024

  /** One log entry, as `addLog` builds it. */
  datatype LogEntry = LogEntry(
    timestamp: string,
    level: string,
    message: string,
    projectId: Option<string>,
    metadata: map<string, string>)

  /** The outcome of `JSON.parse` on one line: a syntax error, a falsy value (`null`, `0`, `""`, `false`), or a value kept. */
  datatype JsonParse = Malformed | Falsy | Parsed(value: LogEntry)

  // ---------------------------------------------------------------------------
  // Reading entries back
  // ---------------------------------------------------------------------------

  /** The entries one line yields: none for a blank line (`line.trim()` is empty exactly then, by `TrimEmptyIffBlank`) or an unparseable one. */
  function LineEntries(line: string, parse: string -> JsonParse): (entries: seq<LogEntry>)
    ensures |entries| <= 1
  {
    if !Blank(line) && parse(line).Parsed? then [parse(line).value] else []
  }

  /**
   * `lines.filter(line => line.trim()).map(JSON.parse or null).filter(log => log)`:
   * the values of the non-blank lines that parse to something truthy, in the
   * order of the lines.
   */
  function ValidEntries(lines: seq<string>, parse: string -> JsonParse): (entries: seq<LogEntry>)
    ensures |entries| <= |lines|
  {
    if lines == [] then [] else LineEntries(lines[0], parse) + ValidEntries(lines[1..], parse)
  }

  /** Every entry comes from a non-blank line of the file that parses to it. */
  lemma {:induction false} ValidEntriesSound(lines: seq<string>, parse: string -> JsonParse, i: nat)
    requires i < |ValidEntries(lines, parse)|
    ensures exists j :: 0 <= j < |lines| && !Blank(lines[j]) && parse(lines[j]) == Parsed(ValidEntries(lines, parse)[i])
    decreases |lines|
  {
    var head := LineEntries(lines[0], parse);
    var rest := ValidEntries(lines[1..], parse);
    assert ValidEntries(lines, parse) == head + rest;
    if i < |head| {
      assert parse(lines[0]) == Parsed(ValidEntries(lines, parse)[i]);
    } else {
      var k := i - |head|;
      assert ValidEntries(lines, parse)[i] == rest[k];
      ValidEntriesSound(lines[1..], parse, k);
      var j :| 0 <= j < |lines[1..]| && !Blank(lines[1..][j]) && parse(lines[1..][j]) == Parsed(rest[k]);
      assert lines[1..][j] == lines[j + 1];
    }
  }

  /** Every non-blank line that parses to a kept value contributes it. */
  lemma {:induction false} ValidEntriesComplete(lines: seq<string>, parse: string -> JsonParse)
    ensures forall j :: 0 <= j < |lines| && !Blank(lines[j]) && parse(lines[j]).Parsed? ==>
      parse(lines[j]).value in ValidEntries(lines, parse)
    decreases |lines|
  {
    if lines != [] {
      ValidEntriesComplete(lines[1..], parse);
      forall j | 0 <= j < |lines| && !Blank(lines[j]) && parse(lines[j]).Parsed?
        ensures parse(lines[j]).value in ValidEntries(lines, parse)
      {
        if j > 0 {
          assert lines[j] == lines[1..][j - 1];
        }
      }
    }
  }

  /** The entries keep the order of the lines: reading distributes over concatenation. */
  lemma {:induction false} ValidEntriesAppend(a: seq<string>, b: seq<string>, parse: string -> JsonParse)
    ensures ValidEntries(a + b, parse) == ValidEntries(a, parse) + ValidEntries(b, parse)
    decreases |a|
  {
    if a == [] {
      assert a + b == b;
    } else {
      calc {
        ValidEntries(a + b, parse);
        { assert (a + b)[0] == a[0] && (a + b)[1..] == a[1..] + b; }
        LineEntries(a[0], parse) + ValidEntries(a[1..] + b, parse);
        { ValidEntriesAppend(a[1..], b, parse); }
        LineEntries(a[0], parse) + (ValidEntries(a[1..], parse) + ValidEntries(b, parse));
        ValidEntries(a, parse) + ValidEntries(b, parse);
      }
    }
  }

  /**
   * The pipeline of `initialize` and `getRecentLogs`: the valid entries of the
   * file's lines, then `slice(-count)`. For a positive count these are the last
   * `count` valid entries, in file order.
   */
  function LoadEntries(content: string, parse: string -> JsonParse, count: int): (entries: seq<LogEntry>)
    ensures var valid := ValidEntries(SplitOn(content, '\n'), parse);
      count >= 1 ==> |entries| == Min(count, |valid|) && entries == valid[|valid| - |entries|..]
    ensures count == 0 ==> entries == ValidEntries(SplitOn(content, '\n'), parse)
  {
    SliceFromEnd(ValidEntries(SplitOn(content, '\n'), parse), count)
  }

  /** `getRecentLogs(count)`: the last valid entries of the main log file, or none when it cannot be read. */
  function RecentLogs(file: Result<string, string>, parse: string -> JsonParse, count: int): (entries: seq<LogEntry>)
    ensures file.Err? ==> entries == []
    ensures file.Ok? ==> entries == LoadEntries(file.value, parse, count)
    ensures file.Ok? && count >= 1 ==> |entries| <= count
  {
    match file
    case Err(_) => []
    case Ok(content) => LoadEntries(content, parse, count)
  }

  // ---------------------------------------------------------------------------
  // Writing entries and reading them back
  // ---------------------------------------------------------------------------

  /** What appending each entry as one line (`JSON.stringify(entry) + '\n'`) leaves in a fresh file. */
  function WrittenLog(entries: seq<LogEntry>, serialize: LogEntry -> string): string {
    if entries == [] then [] else serialize(entries[0]) + "\n" + WrittenLog(entries[1..], serialize)
  }

  /** The lines of the written entries. */
  function Serialized(entries: seq<LogEntry>, serialize: LogEntry -> string): (lines: seq<string>)
    ensures |lines| == |entries|
    ensures forall i :: 0 <= i < |entries| ==> lines[i] == serialize(entries[i])
  {
    if entries == [] then [] else [serialize(entries[0])] + Serialized(entries[1..], serialize)
  }

  /** A written log is its lines joined by newlines, with the final newline leaving an empty last piece. */
  lemma {:induction false} WrittenLogAsJoin(entries: seq<LogEntry>, serialize: LogEntry -> string)
    ensures WrittenLog(entries, serialize) == JoinWith(Serialized(entries, serialize) + [""], '\n')
    decreases |entries|
  {
    if entries != [] {
      WrittenLogAsJoin(entries[1..], serialize);
      var lines := Serialized(entries, serialize) + [""];
      assert lines[1..] == Serialized(entries[1..], serialize) + [""];
    }
  }

  /** Lines that each parse back to the entry they were written from are read back as those entries. */
  lemma {:induction false} ValidEntriesOfSerialized(entries: seq<LogEntry>, serialize: LogEntry -> string, parse: string -> JsonParse)
    requires forall e :: !Blank(serialize(e)) && parse(serialize(e)) == Parsed(e)
    ensures ValidEntries(Serialized(entries, serialize), parse) == entries
    decreases |entries|
  {
    if entries != [] {
      var e, rest := entries[0], entries[1..];
      var lines := Serialized(entries, serialize);
      calc {
        ValidEntries(lines, parse);
        { assert lines[0] == serialize(e) && lines[1..] == Serialized(rest, serialize); }
        LineEntries(serialize(e), parse) + ValidEntries(Serialized(rest, serialize), parse);
        { ValidEntriesOfSerialized(rest, serialize, parse); }
        LineEntries(serialize(e), parse) + rest;
        { assert !Blank(serialize(e)) && parse(serialize(e)) == Parsed(e); }
        [e] + rest;
      }
    }
  }

  /**
   * Round trip: when every entry is written as one non-blank line without a
   * newline that parses back to the entry, reading the file gives back exactly
   * the entries written, in order; the empty piece after the last newline is
   * dropped as blank.
   */
  lemma ReadBackWrittenLog(entries: seq<LogEntry>, serialize: LogEntry -> string, parse: string -> JsonParse)
    requires forall e :: '\n' !in serialize(e) && !Blank(serialize(e)) && parse(serialize(e)) == Parsed(e)
    ensures ValidEntries(SplitOn(WrittenLog(entries, serialize), '\n'), parse) == entries
    ensures LoadEntries(WrittenLog(entries, serialize), parse, MaxProjectLogs) == SliceFromEnd(entries, MaxProjectLogs)
  {
    var lines := Serialized(entries, serialize) + [""];
    WrittenLogAsJoin(entries, serialize);
    SplitOnOfJoin(lines, '\n');
    ValidEntriesAppend(Serialized(entries, serialize), [""], parse);
    ValidEntriesOfSerialized(entries, serialize, parse);
  }

  // ---------------------------------------------------------------------------
  // Rotation
  // ---------------------------------------------------------------------------

  /** `filePath.replace('.log', '.old.log')`: only the first `.log` is replaced. */
  function BackupPath(path: string): string {
    ReplaceFirst(path, ".log", ".old.log")
  }

  /**
   * The backup path inserts `.old` before the first `.log` of the live path,
   * and so differs from it exactly when the live path contains `.log`.
   */
  lemma BackupPathInsertsOld(path: string)
    ensures IndexOf(path, ".log").None? ==> BackupPath(path) == path
    ensures IndexOf(path, ".log").Some? ==>
      var k := IndexOf(path, ".log").value;
      BackupPath(path) == path[..k] + ".old" + path[k..]
    ensures BackupPath(path) != path <==> Contains(path, ".log")
  {
    if IndexOf(path, ".log").Some? {
      var k := IndexOf(path, ".log").value;
      assert path[k..] == ".log" + path[k + 4..];
      assert |BackupPath(path)| == |path| + 4;
    }
  }

  /** The content of a file, empty when it does not exist. */
  function FileContent(files: map<string, string>, path: string): string {
    if path in files then files[path] else []
  }

  /**
   * `writeToFile(path, entry)` on the files' contents: the line is appended;
   * when the file then holds more than `RotationThreshold`, it is renamed to its
   * backup path and a new file holding only the line takes its place.
   */
  function WriteToFile(files: map<string, string>, path: string, line: string): (after: map<string, string>)
    // the live file ends with the new line, and is small again after a rotation
    ensures path in after
    ensures var grown := FileContent(files, path) + line;
      |grown| <= RotationThreshold ==> after == files[path := grown]
    ensures var grown := FileContent(files, path) + line;
      |grown| > RotationThreshold ==>
        && after[path] == line
        && (BackupPath(path) != path ==> BackupPath(path) in after && after[BackupPath(path)] == grown)
    // no other file changes
    ensures forall p :: p != path && p != BackupPath(path) ==> (p in after <==> p in files)
    ensures forall p :: p in files && p != path && p != BackupPath(path) ==> after[p] == files[p]
  {
    var grown := FileContent(files, path) + line;
    if |grown| <= RotationThreshold then files[path := grown]
    else files[BackupPath(path) := grown][path := line]
  }

  // ---------------------------------------------------------------------------
  // The in-memory buffers
  // ---------------------------------------------------------------------------

  /** `this.projectLogs.get(id) || []` */
  function Buffer(logs: map<string, seq<LogEntry>>, id: string): seq<LogEntry> {
    if id in logs then logs[id] else []
  }

  /**
   * The buffer after `push` and `splice` in `addLog`: the new entry is last,
   * the buffer never exceeds `MaxProjectLogs`, and only the oldest entries are
   * dropped, the others keeping their order.
   */
  function AppendBounded(buffer: seq<LogEntry>, entry: LogEntry): (r: seq<LogEntry>)
    ensures |r| == Min(|buffer| + 1, MaxProjectLogs)
    ensures r[|r| - 1] == entry
    ensures r == (buffer + [entry])[|buffer| + 1 - |r|..]
  {
    var grown := buffer + [entry];
    if |grown| > MaxProjectLogs then grown[|grown| - MaxProjectLogs..] else grown
  }

  /** A buffer below the bound only grows; a full one drops exactly its oldest entry. */
  lemma AppendBoundedShifts(buffer: seq<LogEntry>, entry: LogEntry)
    requires |buffer| <= MaxProjectLogs
    ensures |buffer| < MaxProjectLogs ==> AppendBounded(buffer, entry) == buffer + [entry]
    ensures |buffer| == MaxProjectLogs ==> AppendBounded(buffer, entry) == buffer[1..] + [entry]
  {
    if |buffer| == MaxProjectLogs {
      assert (buffer + [entry])[1..] == buffer[1..] + [entry];
    }
  }

  /** The buffer `initialize` loads for a project from its log file: none when the file cannot be read. */
  function InitialBuffer(file: Result<string, string>, parse: string -> JsonParse): (buffer: seq<LogEntry>)
    ensures |buffer| <= MaxProjectLogs
    ensures file.Err? ==> buffer == []
    ensures file.Ok? ==> buffer == LoadEntries(file.value, parse, MaxProjectLogs)
  {
    match file
    case Err(_) => []
    case Ok(content) => LoadEntries(content, parse, MaxProjectLogs)
  }

  class LogManager {
    /** `projectLogs`: each project's most recent entries, oldest first. */
    var projectLogs: map<string, seq<LogEntry>>

    /** No buffer exceeds its bound. */
    ghost predicate Valid()
      reads this
    {
      forall id :: id in projectLogs ==> |projectLogs[id]| <= MaxProjectLogs
    }

    /**
     * `new LogManager()`, whose `initialize` runs to completion before the
     * constructor returns: a buffer for each configured project, loaded from
     * that project's log file (`read(id)`).
     */
    constructor (ids: seq<string>, read: string -> Result<string, string>, parse: string -> JsonParse)
      ensures Valid()
      ensures forall id :: id in projectLogs <==> id in ids
      ensures forall id :: id in projectLogs ==> projectLogs[id] == InitialBuffer(read(id), parse)
    {
      projectLogs := map[];
      new;
      Initialize(ids, read, parse);
    }

    /** The loop of `initialize`: each project's buffer is replaced by the one loaded from its file. */
    method Initialize(ids: seq<string>, read: string -> Result<string, string>, parse: string -> JsonParse)
      requires Valid()
      modifies this
      ensures Valid()
      ensures forall id :: id in projectLogs <==> id in old(projectLogs) || id in ids
      ensures forall id :: id in ids ==> projectLogs[id] == InitialBuffer(read(id), parse)
      ensures forall id :: id in old(projectLogs) && id !in ids ==> projectLogs[id] == old(projectLogs)[id]
    {
      var computed;
      projectLogs, computed := RefreshEach(ids, projectLogs, id => InitialBuffer(read(id), parse));
    }

    /**
     * `addLog(level, message, projectId, metadata)` at time `timestamp`: the
     * entry is appended to the project's buffer only when `projectId` is
     * truthy, and no other buffer changes.
     */
    method AddLog(level: string, message: string, projectId: Option<string>, metadata: map<string, string>, timestamp: string)
      returns (entry: LogEntry)
      requires Valid()
      modifies this
      ensures Valid()
      ensures entry == LogEntry(timestamp, level, message, projectId, metadata)
      ensures !Truthy(projectId) ==> projectLogs == old(projectLogs)
      ensures Truthy(projectId) ==>
        projectLogs == old(projectLogs)[projectId.value := AppendBounded(Buffer(old(projectLogs), projectId.value), entry)]
    {
      entry := LogEntry(timestamp, level, message, projectId, metadata);
      if Truthy(projectId) {
        var id := projectId.value;
        var buffer := Buffer(projectLogs, id);
        buffer := buffer + [entry];
        if |buffer| > MaxProjectLogs {
          buffer := buffer[|buffer| - MaxProjectLogs..];
        }
        projectLogs := projectLogs[id := buffer];
      }
    }

    /** `getProjectLogs(id, count)`: the last `count` entries of the project's buffer, none for an unknown project. */
    function GetProjectLogs(id: string, count: int): (logs: seq<LogEntry>)
      reads this
      ensures id !in projectLogs ==> logs == []
      ensures var buffer := Buffer(projectLogs, id);
        count >= 1 ==> |logs| == Min(count, |buffer|) && logs == buffer[|buffer| - |logs|..]
      ensures count == 0 ==> logs == Buffer(projectLogs, id)
    {
      SliceFromEnd(Buffer(projectLogs, id), count)
    }

    /**
     * `clearLogs(projectId)`: a truthy id empties that project's buffer; the
     * entry then logged names no project, so the buffer stays empty.
     */
    method ClearLogs(projectId: Option<string>, timestamp: string) returns (entry: LogEntry)
      requires Valid()
      modifies this
      ensures Valid()
      ensures Truthy(projectId) ==> projectLogs == old(projectLogs)[projectId.value := []]
      ensures !Truthy(projectId) ==> projectLogs == old(projectLogs)
      ensures entry.level == "info" && entry.projectId == None
      ensures entry.message ==
        if Truthy(projectId) then "Logs del proyecto " + projectId.value + " limpiados" else "Logs principales limpiados"
    {
      if Truthy(projectId) {
        projectLogs := projectLogs[projectId.value := []];
        entry := AddLog("info", "Logs del proyecto " + projectId.value + " limpiados", None, map[], timestamp);
      } else {
        entry := AddLog("info", "Logs principales limpiados", None, map[], timestamp);
      }
    }
  }
}
