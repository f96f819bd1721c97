/** The log classifier and source resolver of `src/logs.rs`: level names, the six-stage
    text-line classifier, JSON entry extraction, the candidate-path search with its
    directory-scan fallback, the post-load sort, and the filters and counters. */
module Logs {
  import opened Wrappers
  import opened Strings
  import Json
  import opened Errors
  import opened Snapshot
  import Seqs
  import Sorting

  datatype LogLevel = Error | Warning | Info | Debug

  datatype LogEntry = LogEntry(timestamp: string, level: LogLevel, message: string, source: string)

  /** The logs of one component; `totalEntries` is the entry count at load time. */
  datatype ComponentLogs = ComponentLogs(
    componentName: string,
    componentType: string,
    namespace: string,
    entries: seq<LogEntry>,
    totalEntries: nat)

  // ================================================================ level names

  const ErrorAliases: set<string> := {"error", "err", "fatal", "failed"}
  const WarningAliases: set<string> := {"warning", "warn", "w"}
  const InfoAliases: set<string> := {"info", "information", "i"}
  const DebugAliases: set<string> := {"debug", "dbg", "trace", "d"}

  /** The keyword test applied to a lower-cased level name that is not an exact alias. */
  function KeywordLevel(t: string): LogLevel {
    if Contains(t, "error") || Contains(t, "failed") || Contains(t, "fatal") then Error
    else if Contains(t, "warn") then Warning
    else if Contains(t, "info") then Info
    else if Contains(t, "debug") || Contains(t, "trace") then Debug
    else Info
  }

  /** `LogLevel::from_str`: exact aliases first, then keywords, then Info. */
  function LevelFromStr(s: string): LogLevel {
    var t := ToLower(s);
    if t in ErrorAliases then Error
    else if t in WarningAliases then Warning
    else if t in InfoAliases then Info
    else if t in DebugAliases then Debug
    else KeywordLevel(t)
  }

  /** `LogLevel::to_string`. */
  function LevelToString(l: LogLevel): string {
    match l
    case Error => "ERROR"
    case Warning => "WARN"
    case Info => "INFO"
    case Debug => "DEBUG"
  }

  /** Every exact alias, written in lower case, maps to its level. */
  lemma LevelAliases(a: string)
    ensures a in ErrorAliases ==> LevelFromStr(a) == Error
    ensures a in WarningAliases ==> LevelFromStr(a) == Warning
    ensures a in InfoAliases ==> LevelFromStr(a) == Info
    ensures a in DebugAliases ==> LevelFromStr(a) == Debug
  {
    if a in ErrorAliases + WarningAliases + InfoAliases + DebugAliases {
      LowerOfLower(a);
    }
  }

  /** Level names are read without regard to case. */
  lemma LevelFromStrIgnoresCase(s: string)
    ensures LevelFromStr(ToUpper(s)) == LevelFromStr(s)
    ensures LevelFromStr(ToLower(s)) == LevelFromStr(s)
  {
    LowerIgnoresCase(s);
  }

  /** Printing a level and reading it back gives the same level. */
  lemma LevelRoundTrip(l: LogLevel)
    ensures LevelFromStr(LevelToString(l)) == l
  {
    var s := LevelToString(l);
    assert ToLower(s) == ToLower(ToLower(s)) by { LowerIgnoresCase(s); }
    match l
    case Error => assert ToLower(s) == "error";
    case Warning => assert ToLower(s) == "warn";
    case Info => assert ToLower(s) == "info";
    case Debug => assert ToLower(s) == "debug";
  }

  /** `level_priority`: Debug < Info < Warning < Error. */
  function LevelPriority(l: LogLevel): (p: nat)
    ensures p <= 3
  {
    match l
    case Debug => 0
    case Info => 1
    case Warning => 2
    case Error => 3
  }

  /** The priority tells levels apart. */
  lemma LevelPriorityInjective(a: LogLevel, b: LogLevel)
    ensures LevelPriority(a) == LevelPriority(b) <==> a == b
  {
  }

  // ================================================================ text lines

  /** The bracketed tags the first stage looks for, in the order it tries them. */
  const BracketTags: seq<string> := ["ERROR", "WARN", "WARNING", "INFO", "DEBUG", "TRACE"]

  function TagPattern(tag: string): string {
    "[" + tag + "]"
  }

  /** Stage 1 from tag `k` on: the first tag in list order whose `[TAG]` occurs in the line,
      with the trimmed text after it, or the whole line when the tag ends the line. */
  function BracketLevelFrom(line: string, k: nat): (r: Option<(string, string)>)
    requires k <= |BracketTags|
    decreases |BracketTags| - k
    ensures r.Some? ==> r.value.0 in BracketTags[k..]
  {
    if k == |BracketTags| then None
    else
      var pattern := TagPattern(BracketTags[k]);
      match IndexOf(line, pattern)
      case Some(pos) =>
        var message := if pos + |pattern| < |line| then Trim(line[pos + |pattern|..]) else line;
        Some((BracketTags[k], message))
      case None => BracketLevelFrom(line, k + 1)
  }

  /** Stage 1 finds a tag exactly when some `[TAG]` from `k` on occurs in the line, and the
      tag it reports is the first such one in list order. */
  lemma {:induction false} BracketLevelFirstTag(line: string, k: nat)
    requires k <= |BracketTags|
    decreases |BracketTags| - k
    ensures BracketLevelFrom(line, k).Some? <==>
      exists j :: k <= j < |BracketTags| && Contains(line, TagPattern(BracketTags[j]))
    ensures BracketLevelFrom(line, k).Some? ==>
      exists j :: && k <= j < |BracketTags| && BracketLevelFrom(line, k).value.0 == BracketTags[j]
                  && Contains(line, TagPattern(BracketTags[j]))
                  && forall i :: k <= i < j ==> !Contains(line, TagPattern(BracketTags[i]))
  {
    if k < |BracketTags| {
      if Contains(line, TagPattern(BracketTags[k])) {
        assert BracketLevelFrom(line, k).value.0 == BracketTags[k];
      } else {
        BracketLevelFirstTag(line, k + 1);
        assert BracketLevelFrom(line, k) == BracketLevelFrom(line, k + 1);
        if BracketLevelFrom(line, k).Some? {
          var j :| && k + 1 <= j < |BracketTags| && BracketLevelFrom(line, k).value.0 == BracketTags[j]
                   && Contains(line, TagPattern(BracketTags[j]))
                   && forall i :: k + 1 <= i < j ==> !Contains(line, TagPattern(BracketTags[i]));
          assert forall i :: k <= i < j ==> !Contains(line, TagPattern(BracketTags[i]));
        }
      }
    }
  }

  /** `parse_kubernetes_bracket_log`. */
  function BracketLevel(line: string): Option<(string, string)> {
    BracketLevelFrom(line, 0)
  }

  /** The common tail of the ISO and bracketed-timestamp stages: the trimmed rest split at
      its first `:` into a level and a message, both trimmed. */
  function LevelColonMessage(rest: string): Option<(string, string)> {
    match SplitOnce(Trim(rest), ':')
    case None => None
    case Some((level, message)) => Some((Trim(level), Trim(message)))
  }

  /** Without a `:` there is no level to read. */
  lemma LevelNeedsColon(rest: string)
    requires ':' !in rest
    ensures LevelColonMessage(rest).None?
  {
    TrimWithin(rest);
  }

  /** `regex_extract_iso_log`: a `T`, a later `Z` ending the timestamp, and `LEVEL: message`
      after it. It is a loose heuristic, not a check of ISO 8601. */
  function IsoLog(line: string): Option<(string, string, string)> {
    match IndexOfChar(line, 'T')
    case None => None
    case Some(t) =>
      match IndexOfChar(line[t..], 'Z')
      case None => None
      case Some(z) =>
        match LevelColonMessage(line[t + z + 1..])
        case None => None
        case Some((level, message)) => Some((line[..t + z + 1], level, message))
  }

  /** `regex_extract_bracket_log`: `[timestamp]` at the very start, then `LEVEL: message`. */
  function BracketTimestampLog(line: string): Option<(string, string, string)> {
    if |line| == 0 || line[0] != '[' then None
    else match IndexOfChar(line, ']')
      case None => None
      case Some(e) =>
        assert 0 < e < |line| by { assert line[e] == ']'; }
        match LevelColonMessage(line[e + 1..])
        case None => None
        case Some((level, message)) => Some((line[1..e], level, message))
  }

  /** `regex_extract_k8s_log`: `splitn(4, ' ')` yields four parts, read as timestamp,
      stream, partial flag and message; stream `stderr` is ERROR, any other INFO. */
  function ContainerLog(line: string): Option<(string, string, string)> {
    match SplitOnce(line, ' ')
    case None => None
    case Some((timestamp, r1)) =>
      match SplitOnce(r1, ' ')
      case None => None
      case Some((stream, r2)) =>
        match SplitOnce(r2, ' ')
        case None => None
        case Some((_, message)) =>
          Some((timestamp, if stream == "stderr" then "ERROR" else "INFO", message))
  }

  /** The container stage accepts exactly the lines with at least three spaces. */
  lemma ContainerLogIffThreeSpaces(line: string)
    ensures ContainerLog(line).Some? <==> CountChar(line, ' ') >= 3
  {
    CountCharZero(line, ' ');
    if ' ' in line {
      CountCharSplit(line, ' ');
      var r1 := SplitOnce(line, ' ').value.1;
      CountCharZero(r1, ' ');
      if ' ' in r1 {
        CountCharSplit(r1, ' ');
        var r2 := SplitOnce(r1, ' ').value.1;
        CountCharZero(r2, ' ');
      }
    }
  }

  /** The container stage cuts at the first three spaces; the message keeps any later ones. */
  lemma ContainerLogFields(timestamp: string, stream: string, flag: string, message: string)
    requires ' ' !in timestamp && ' ' !in stream && ' ' !in flag
    ensures ContainerLog(timestamp + " " + stream + " " + flag + " " + message)
            == Some((timestamp, if stream == "stderr" then "ERROR" else "INFO", message))
  {
    var r2 := flag + " " + message;
    var r1 := stream + " " + r2;
    assert timestamp + " " + stream + " " + flag + " " + message == timestamp + [' '] + r1;
    SplitOnceAt(timestamp, r1, ' ');
    assert r1 == stream + [' '] + r2;
    SplitOnceAt(stream, r2, ' ');
    assert r2 == flag + [' '] + message;
    SplitOnceAt(flag, message, ' ');
  }

  /** The ISO stage needs a `:` after the `Z` that ends its timestamp. */
  lemma IsoNeedsColon(line: string, t: nat, z: nat)
    requires IndexOfChar(line, 'T') == Some(t)
    requires t <= |line| && IndexOfChar(line[t..], 'Z') == Some(z)
    requires ':' !in line[t + z + 1..]
    ensures IsoLog(line).None?
  {
    LevelNeedsColon(line[t + z + 1..]);
  }

  /** `extract_log_level_from_line`: a level keyword anywhere, upper-cased, by priority. */
  function LevelInLine(line: string): Option<LogLevel> {
    var u := ToUpper(line);
    if Contains(u, "ERROR") || Contains(u, "FAILED") || Contains(u, "FATAL") then Some(Error)
    else if Contains(u, "WARN") || Contains(u, "WARNING") then Some(Warning)
    else if Contains(u, "INFO") then Some(Info)
    else if Contains(u, "DEBUG") || Contains(u, "TRACE") then Some(Debug)
    else None
  }

  /** The synthetic timestamp of the line at 0-based position `lineNum`. */
  function LineTimestamp(lineNum: nat): string {
    "line-" + NatToString(lineNum + 1)
  }

  /** `parse_single_text_log`: the first stage that recognises the line decides the entry. */
  function ParseSingleTextLog(line: string, lineNum: nat): LogEntry {
    match BracketLevel(line)
    case Some((tag, message)) => LogEntry(LineTimestamp(lineNum), LevelFromStr(tag), message, "kubernetes")
    case None =>
      match IsoLog(line)
      case Some((ts, level, message)) => LogEntry(ts, LevelFromStr(level), message, "app")
      case None =>
        match BracketTimestampLog(line)
        case Some((ts, level, message)) => LogEntry(ts, LevelFromStr(level), message, "app")
        case None =>
          match ContainerLog(line)
          case Some((ts, level, message)) => LogEntry(ts, LevelFromStr(level), message, "container")
          case None =>
            match LevelInLine(line)
            case Some(level) => LogEntry(LineTimestamp(lineNum), level, line, "raw")
            case None => LogEntry(LineTimestamp(lineNum), Info, line, "raw")
  }

  /** Stage precedence, read off the entry's source tag: bracket-level, then ISO, then
      bracketed timestamp, then container, then keyword or raw. Keyword and raw entries
      come only from lines with fewer than three spaces; stages 1, 5 and 6 stamp the line
      number. */
  lemma StagePrecedence(line: string, lineNum: nat)
    ensures var e := ParseSingleTextLog(line, lineNum);
      && (e.source == "kubernetes" <==> BracketLevel(line).Some?)
      && (e.source == "app" <==> BracketLevel(line).None? && (IsoLog(line).Some? || BracketTimestampLog(line).Some?))
      && (e.source == "container" <==>
            BracketLevel(line).None? && IsoLog(line).None? && BracketTimestampLog(line).None? && CountChar(line, ' ') >= 3)
      && (e.source == "raw" <==>
            BracketLevel(line).None? && IsoLog(line).None? && BracketTimestampLog(line).None? && CountChar(line, ' ') < 3)
      && (e.source in {"kubernetes", "raw"} ==> e.timestamp == LineTimestamp(lineNum))
      && (e.source == "raw" ==> e.message == line && e.level == LevelInLine(line).GetOr(Info))
  {
    ContainerLogIffThreeSpaces(line);
  }

  /** The container stage gives Error exactly for the `stderr` stream. */
  lemma ContainerStreamLevel(line: string)
    requires ContainerLog(line).Some?
    ensures LevelFromStr(ContainerLog(line).value.1) == if ContainerLog(line).value.1 == "ERROR" then Error else Info
  {
    LevelRoundTrip(Error);
    LevelRoundTrip(Info);
  }

  // ---------------------------------------------------------------- whole text

  /** The entries for `lines`: one per line that is not blank, in order, each classified
      with its 0-based position among all lines (blank ones included). */
  function TextEntries(lines: seq<string>): seq<LogEntry>
    decreases |lines|
  {
    if lines == [] then []
    else
      var n := |lines| - 1;
      TextEntries(lines[..n]) + (if IsBlank(lines[n]) then [] else [ParseSingleTextLog(lines[n], n)])
  }

  /** How many of `lines` are not blank. */
  function NonBlankCount(lines: seq<string>): nat
    decreases |lines|
  {
    if lines == [] then 0
    else NonBlankCount(lines[..|lines| - 1]) + (if IsBlank(lines[|lines| - 1]) then 0 else 1)
  }

  /** One entry per line that is not blank. */
  lemma {:induction false} TextEntriesCount(lines: seq<string>)
    ensures |TextEntries(lines)| == NonBlankCount(lines)
    decreases |lines|
  {
    if lines != [] {
      TextEntriesCount(lines[..|lines| - 1]);
    }
  }

  /** In line order: the k-th line, when not blank, gives the entry at its rank among the
      non-blank lines, classified with line number k. */
  lemma {:induction false} TextEntryOfLine(lines: seq<string>, k: nat)
    requires k < |lines| && !IsBlank(lines[k])
    ensures NonBlankCount(lines[..k]) < |TextEntries(lines)|
    ensures TextEntries(lines)[NonBlankCount(lines[..k])] == ParseSingleTextLog(lines[k], k)
    decreases |lines|
  {
    var n := |lines| - 1;
    var prefix := TextEntries(lines[..n]);
    var last := if IsBlank(lines[n]) then [] else [ParseSingleTextLog(lines[n], n)];
    assert TextEntries(lines) == prefix + last;
    if k < n {
      TextEntryOfLine(lines[..n], k);
      assert lines[..n][..k] == lines[..k];
      assert lines[..n][k] == lines[k];
    } else {
      assert lines[..k] == lines[..n];
      TextEntriesCount(lines[..n]);
    }
  }

  /** `parse_text_logs`. */
  method ParseTextLogs(content: string) returns (entries: seq<LogEntry>)
    ensures entries == TextEntries(Lines(content))
  {
    var lines := Lines(content);
    entries := [];
    var lineNum := 0;
    while lineNum < |lines|
      invariant lineNum <= |lines|
      invariant entries == TextEntries(lines[..lineNum])
    {
      var line := lines[lineNum];
      assert lines[..lineNum + 1][..lineNum] == lines[..lineNum];
      if !IsBlank(line) {
        var entry := ParseSingleTextLog(line, lineNum);
        entries := entries + [entry];
      }
      lineNum := lineNum + 1;
    }
    assert lines[..lineNum] == lines;
  }

  // ================================================================ JSON logs

  const TimestampKeys: seq<string> := ["timestamp", "time", "@timestamp"]
  const LevelKeys: seq<string> := ["level", "severity", "loglevel"]
  const MessageKeys: seq<string> := ["message", "msg", "text"]
  const SourceKeys: seq<string> := ["source", "logger", "component"]

  /** The value of the first key in `keys` whose field is a string, as an
      `v[k1].as_str().or_else(|| v[k2].as_str())...` chain reads it. */
  function FirstStr(v: Json.Value, keys: seq<string>): (r: Option<string>)
    ensures r.None? <==> forall i :: 0 <= i < |keys| ==> !Json.Index(v, keys[i]).Str?
    ensures r.Some? ==>
      exists i :: && 0 <= i < |keys| && Json.Index(v, keys[i]) == Json.Str(r.value)
                  && forall j :: 0 <= j < i ==> !Json.Index(v, keys[j]).Str?
  {
    if keys == [] then None
    else match Json.AsStr(Json.Index(v, keys[0]))
      case Some(s) => Some(s)
      case None =>
        var r := FirstStr(v, keys[1..]);
        if r.Some? then
          var i :| && 0 <= i < |keys[1..]| && Json.Index(v, keys[1..][i]) == Json.Str(r.value)
                   && forall j :: 0 <= j < i ==> !Json.Index(v, keys[1..][j]).Str?;
          assert Json.Index(v, keys[i + 1]) == Json.Str(r.value);
          r
        else r
  }

  /** `parse_single_json_log`: every field by its aliases, with a default; never `None`. */
  function ParseSingleJsonLog(v: Json.Value): (r: Option<LogEntry>)
    ensures r.Some?
  {
    Some(LogEntry(
      FirstStr(v, TimestampKeys).GetOr("unknown"),
      LevelFromStr(FirstStr(v, LevelKeys).GetOr("info")),
      FirstStr(v, MessageKeys).GetOr("No message"),
      FirstStr(v, SourceKeys).GetOr("unknown")))
  }

  /** The entries of the elements of a JSON array: exactly one per element, in order. */
  function ItemEntries(items: seq<Json.Value>): (r: seq<LogEntry>)
    ensures |r| == |items|
    ensures forall i :: 0 <= i < |items| ==> r[i] == ParseSingleJsonLog(items[i]).value
  {
    if items == [] then []
    else ItemEntries(items[..|items| - 1]) + [ParseSingleJsonLog(items[|items| - 1]).value]
  }

  /** What `parse_json_logs` yields for a parsed value: one entry per array element or one
      for an object; any other value is rejected. */
  function JsonEntries(v: Json.Value): Result<seq<LogEntry>, AppError> {
    match v
    case Array(items) => Ok(ItemEntries(items))
    case Object(_) => Ok([ParseSingleJsonLog(v).value])
    case _ => Err(Custom("Invalid JSON log format"))
  }

  /** `parse_json_logs`. */
  method ParseJsonLogs(json: Json.Value) returns (r: Result<seq<LogEntry>, AppError>)
    ensures r == JsonEntries(json)
  {
    var entries: seq<LogEntry> := [];
    match json {
      case Array(logs) =>
        entries := ParseJsonItems(logs);
      case Object(_) =>
        var entry := ParseSingleJsonLog(json);
        if entry.Some? {
          entries := entries + [entry.value];
        }
        assert entries == [ParseSingleJsonLog(json).value];
      case _ =>
        return Err(Custom("Invalid JSON log format"));
    }
    r := Ok(entries);
  }

  /** The loop of `parse_json_logs` over the elements of an array. */
  method ParseJsonItems(logs: seq<Json.Value>) returns (entries: seq<LogEntry>)
    ensures entries == ItemEntries(logs)
  {
    entries := [];
    var k := 0;
    while k < |logs|
      invariant k <= |logs|
      invariant entries == ItemEntries(logs[..k])
    {
      assert logs[..k + 1][..k] == logs[..k];
      var entry := ParseSingleJsonLog(logs[k]);
      if entry.Some? {
        entries := entries + [entry.value];
      }
      k := k + 1;
    }
    assert logs[..k] == logs;
  }


  /** Arrays give exactly one entry per element, objects exactly one, anything else an error. */
  lemma JsonEntriesCount(v: Json.Value)
    ensures JsonEntries(v).Ok? <==> v.Array? || v.Object?
    ensures v.Array? ==> |JsonEntries(v).value| == |v.items|
    ensures v.Object? ==> |JsonEntries(v).value| == 1
    ensures !(v.Array? || v.Object?) ==> Errors.Display(JsonEntries(v).error) == "Invalid JSON log format"
  {
  }

  /** A record with none of the aliases as string fields takes every default. */
  lemma JsonDefaults(v: Json.Value)
    requires forall k :: k in TimestampKeys ==> !Json.Index(v, k).Str?
    requires forall k :: k in LevelKeys ==> !Json.Index(v, k).Str?
    requires forall k :: k in MessageKeys ==> !Json.Index(v, k).Str?
    requires forall k :: k in SourceKeys ==> !Json.Index(v, k).Str?
    ensures ParseSingleJsonLog(v).value == LogEntry("unknown", Info, "No message", "unknown")
  {
    LevelAliases("info");
  }

  /** The primary name wins over its aliases whenever it holds a string. */
  lemma JsonPrimaryKeyWins(v: Json.Value, timestamp: string, message: string)
    requires Json.Index(v, "timestamp") == Json.Str(timestamp)
    requires Json.Index(v, "message") == Json.Str(message)
    ensures ParseSingleJsonLog(v).value.timestamp == timestamp
    ensures ParseSingleJsonLog(v).value.message == message
  {
  }

  /** A single-object log with all four primary fields gives back exactly those fields. */
  lemma JsonObjectExample()
    ensures var v := Json.Object(map[
              "timestamp" := Json.Str("t1"), "level" := Json.Str("ERROR"),
              "message" := Json.Str("m1"), "source" := Json.Str("s1")]);
            JsonEntries(v) == Ok([LogEntry("t1", Error, "m1", "s1")])
  {
    var v := Json.Object(map[
              "timestamp" := Json.Str("t1"), "level" := Json.Str("ERROR"),
              "message" := Json.Str("m1"), "source" := Json.Str("s1")]);
    assert FirstStr(v, LevelKeys) == Some("ERROR");
    assert ToLower("ERROR") == "error";
  }

  // ================================================================ resolving a component's logs

  /** The seven paths `load_component_logs` tries, in the order it tries them. */
  function CandidatePaths(logsPath: string, name: string, componentType: string, namespace: string): (r: seq<string>)
    ensures |r| == 7 && r[0] == logsPath
  {
    var dir := NamespaceDir(namespace);
    [ logsPath,
      Join(Join(dir, name), "logs.txt"),
      Join(Join(dir, name), "log.txt"),
      Join(Join(dir, "logs"), name + ".log"),
      Join(Join(dir, "logs"), name + ".txt"),
      Join(dir, name + "-logs.txt"),
      Join(Join(dir, ToLower(componentType) + "-" + name), "logs.txt") ]
  }

  /** The position of the first path that exists. */
  function FirstExisting(fs: Fs, paths: seq<string>): (r: Option<nat>)
    ensures r.Some? ==> r.value < |paths| && Exists(fs, paths[r.value])
    ensures r.Some? ==> forall j :: 0 <= j < r.value ==> !Exists(fs, paths[j])
    ensures r.None? <==> forall j :: 0 <= j < |paths| ==> !Exists(fs, paths[j])
  {
    if paths == [] then None
    else if Exists(fs, paths[0]) then Some(0)
    else match FirstExisting(fs, paths[1..])
      case None => None
      case Some(i) => Some(i + 1)
  }

  /** The entries of a file's text: the JSON reading when the whole text parses as JSON
      (which fails for a JSON value that is neither array nor object), the line reading
      otherwise. */
  function ContentEntries(fs: Fs, content: string): Result<seq<LogEntry>, AppError> {
    match ParseJson(fs, content)
    case Ok(json) => JsonEntries(json)
    case Err(_) => Ok(TextEntries(Lines(content)))
  }

  /** A file name with extension `txt` or `log`. */
  predicate IsLogFileName(name: string) {
    Extension(name) == Some("txt") || Extension(name) == Some("log")
  }

  /** The directory scan: the text of the first `.txt`/`.log` entry of `dir` that can be read. */
  function FallbackText(fs: Fs, dir: string, entries: seq<DirEntry>): (r: Option<string>)
    ensures r.Some? ==>
      exists i :: 0 <= i < |entries| && IsLogFileName(entries[i].name)
                  && ReadToString(fs, Join(dir, entries[i].name)) == Ok(r.value)
    ensures r.None? ==>
      forall i :: 0 <= i < |entries| && IsLogFileName(entries[i].name)
                  ==> ReadToString(fs, Join(dir, entries[i].name)).Err?
  {
    if entries == [] then None
    else
      var read := ReadToString(fs, Join(dir, entries[0].name));
      if IsLogFileName(entries[0].name) && read.Ok? then Some(read.value)
      else
        var r := FallbackText(fs, dir, entries[1..]);
        assert r.Some? ==>
          exists i :: && 0 <= i < |entries[1..]| && IsLogFileName(entries[1..][i].name)
                      && ReadToString(fs, Join(dir, entries[1..][i].name)) == Ok(r.value);
        r
  }

  /** The directory of one component, scanned when no candidate path exists. */
  function ComponentDir(namespace: string, name: string): string {
    Join(NamespaceDir(namespace), name)
  }

  /** The entries as loaded, before sorting: from the first existing candidate, else from
      the first readable log file of the component's directory (always read as text),
      else none at all. */
  function ResolvedEntries(fs: Fs, logsPath: string, name: string, componentType: string, namespace: string)
    : Result<seq<LogEntry>, AppError>
  {
    var paths := CandidatePaths(logsPath, name, componentType, namespace);
    match FirstExisting(fs, paths)
    case Some(i) =>
      (match ReadToString(fs, paths[i])
       case Err(e) => Err(e)
       case Ok(content) => ContentEntries(fs, content))
    case None =>
      var dir := ComponentDir(namespace, name);
      match ReadDir(fs, dir)
      case Err(_) => Ok([])
      case Ok(listing) =>
        match FallbackText(fs, dir, listing)
        case Some(text) => Ok(TextEntries(Lines(text)))
        case None => Ok([])
  }

  function Timestamp(e: LogEntry): string {
    e.timestamp
  }

  /** The post-load sort: timestamps never parse, so it is the stable sort by timestamp
      text, greatest first. */
  function SortEntries(entries: seq<LogEntry>): seq<LogEntry> {
    Sorting.SortBy(entries, Timestamp, true)
  }

  /** What `load_component_logs` returns. */
  function LoadedLogs(fs: Fs, logsPath: string, name: string, componentType: string, namespace: string)
    : Result<ComponentLogs, AppError>
  {
    match ResolvedEntries(fs, logsPath, name, componentType, namespace)
    case Err(e) => Err(e)
    case Ok(entries) => Ok(ComponentLogs(name, componentType, namespace, SortEntries(entries), |entries|))
  }

  /** `load_component_logs`. */
  method LoadComponentLogs(fs: Fs, logsPath: string, componentName: string, componentType: string, namespace: string)
    returns (r: Result<ComponentLogs, AppError>)
    ensures r == LoadedLogs(fs, logsPath, componentName, componentType, namespace)
  {
    var entries: seq<LogEntry> := [];
    var foundLogs := false;
    var possiblePaths := CandidatePaths(logsPath, componentName, componentType, namespace);
    var k := 0;
    while k < |possiblePaths|
      invariant k <= |possiblePaths|
      invariant !foundLogs
      invariant forall j :: 0 <= j < k ==> !Exists(fs, possiblePaths[j])
    {
      var logPath := possiblePaths[k];
      if Exists(fs, logPath) {
        var read := ReadToString(fs, logPath);
        if read.Err? {
          return Err(read.error);
        }
        var content := read.value;
        var json := ParseJson(fs, content);
        if json.Ok? {
          var parsed := ParseJsonLogs(json.value);
          if parsed.Err? {
            return Err(parsed.error);
          }
          entries := parsed.value;
        } else {
          entries := ParseTextLogs(content);
        }
        foundLogs := true;
        break;
      }
      k := k + 1;
    }

    var componentDir := ComponentDir(namespace, componentName);
    if !foundLogs {
      var listing := ReadDir(fs, componentDir);
      if listing.Ok? {
        var dirEntries := listing.value;
        var i := 0;
        while i < |dirEntries|
          invariant i <= |dirEntries|
          invariant FallbackText(fs, componentDir, dirEntries) == FallbackText(fs, componentDir, dirEntries[i..])
        {
          var entry := dirEntries[i];
          assert dirEntries[i..][1..] == dirEntries[i + 1..];
          if IsLogFileName(entry.name) {
            var read := ReadToString(fs, Join(componentDir, entry.name));
            if read.Ok? {
              entries := ParseTextLogs(read.value);
              foundLogs := true;
              break;
            }
          }
          i := i + 1;
        }
      }
    }

    var totalEntries := |entries|;
    entries := SortEntries(entries);
    r := Ok(ComponentLogs(componentName, componentType, namespace, entries, totalEntries));
  }

  /** The path `load_pod_logs` names first: `output/<namespace>/<pod>/logs.txt`. */
  function PodLogsPath(namespace: string, pod: string): string {
    Join(ComponentDir(namespace, pod), "logs.txt")
  }

  /** `load_pod_logs`. */
  method LoadPodLogs(fs: Fs, namespace: string, pod: string) returns (r: Result<ComponentLogs, AppError>)
    ensures r == LoadedLogs(fs, PodLogsPath(namespace, pod), pod, "Pod", namespace)
  {
    r := LoadComponentLogs(fs, PodLogsPath(namespace, pod), pod, "Pod", namespace);
  }

  /** Loaded entries are a permutation of what was read, sorted with the greatest timestamp
      text first, and the total is the entry count. */
  lemma LoadedLogsSorted(fs: Fs, logsPath: string, name: string, componentType: string, namespace: string)
    requires LoadedLogs(fs, logsPath, name, componentType, namespace).Ok?
    ensures var logs := LoadedLogs(fs, logsPath, name, componentType, namespace).value;
      && Sorting.SortedBy(logs.entries, Timestamp, true)
      && multiset(logs.entries) == multiset(ResolvedEntries(fs, logsPath, name, componentType, namespace).value)
      && logs.totalEntries == |logs.entries|
      && logs.componentName == name && logs.componentType == componentType && logs.namespace == namespace
  {
    Sorting.SortBySorted(ResolvedEntries(fs, logsPath, name, componentType, namespace).value, Timestamp, true);
  }

  /** With no candidate path present and no readable log file in the component's
      directory, loading succeeds with no entries. */
  lemma NothingFoundIsEmpty(fs: Fs, logsPath: string, name: string, componentType: string, namespace: string)
    requires forall p :: p in CandidatePaths(logsPath, name, componentType, namespace) ==> !Exists(fs, p)
    requires ComponentDir(namespace, name) in fs.listings ==>
      forall e :: e in fs.listings[ComponentDir(namespace, name)] && IsLogFileName(e.name)
                  ==> Join(ComponentDir(namespace, name), e.name) !in fs.contents
    ensures LoadedLogs(fs, logsPath, name, componentType, namespace)
            == Ok(ComponentLogs(name, componentType, namespace, [], 0))
  {
    var paths := CandidatePaths(logsPath, name, componentType, namespace);
    assert forall j :: 0 <= j < |paths| ==> paths[j] in paths;
    var dir := ComponentDir(namespace, name);
    if dir in fs.listings {
      FallbackNone(fs, dir, fs.listings[dir]);
    }
  }

  lemma {:induction false} FallbackNone(fs: Fs, dir: string, entries: seq<DirEntry>)
    requires forall e :: e in entries && IsLogFileName(e.name) ==> Join(dir, e.name) !in fs.contents
    ensures FallbackText(fs, dir, entries) == None
  {
    if entries != [] {
      assert entries[0] in entries;
      assert forall e :: e in entries[1..] ==> e in entries;
      FallbackNone(fs, dir, entries[1..]);
    }
  }

  /** Which candidate is taken depends on the existing paths alone. */
  lemma {:induction false} FirstExistingOnlyReadsExisting(fs: Fs, other: Fs, paths: seq<string>)
    requires fs.existing == other.existing
    ensures FirstExisting(fs, paths) == FirstExisting(other, paths)
  {
    if paths != [] {
      FirstExistingOnlyReadsExisting(fs, other, paths[1..]);
    }
  }

  /** The directory scan matters only when no candidate exists: with a candidate present,
      the directory listings of the snapshot play no part. */
  lemma CandidateBeatsScan(fs: Fs, listings: map<string, seq<DirEntry>>,
                           logsPath: string, name: string, componentType: string, namespace: string)
    requires exists p :: p in CandidatePaths(logsPath, name, componentType, namespace) && Exists(fs, p)
    ensures ResolvedEntries(fs, logsPath, name, componentType, namespace)
            == ResolvedEntries(fs.(listings := listings), logsPath, name, componentType, namespace)
  {
    var paths := CandidatePaths(logsPath, name, componentType, namespace);
    var other := fs.(listings := listings);
    var p :| p in paths && Exists(fs, p);
    var i :| 0 <= i < |paths| && paths[i] == p;
    FirstExistingOnlyReadsExisting(fs, other, paths);
    assert FirstExisting(fs, paths).Some?;
    var k := FirstExisting(fs, paths).value;
    assert ReadToString(fs, paths[k]) == ReadToString(other, paths[k]);
    assert forall c :: ContentEntries(fs, c) == ContentEntries(other, c);
  }

  /** Without a candidate, whatever is found is read as text: the result is the line
      reading of some file's text, or no entries at all. */
  lemma ScanReadsText(fs: Fs, logsPath: string, name: string, componentType: string, namespace: string)
    requires forall p :: p in CandidatePaths(logsPath, name, componentType, namespace) ==> !Exists(fs, p)
    ensures var r := ResolvedEntries(fs, logsPath, name, componentType, namespace);
      r == Ok([]) || exists path :: path in fs.contents && r == Ok(TextEntries(Lines(fs.contents[path])))
  {
    var paths := CandidatePaths(logsPath, name, componentType, namespace);
    assert forall j :: 0 <= j < |paths| ==> paths[j] in paths;
    assert FirstExisting(fs, paths).None?;
    var dir := ComponentDir(namespace, name);
    if dir in fs.listings {
      var t := FallbackText(fs, dir, fs.listings[dir]);
      if t.Some? {
        var i :| && 0 <= i < |fs.listings[dir]| && IsLogFileName(fs.listings[dir][i].name)
                 && ReadToString(fs, Join(dir, fs.listings[dir][i].name)) == Ok(t.value);
        assert Join(dir, fs.listings[dir][i].name) in fs.contents;
      }
    }
  }

  /** Loading fails only after a candidate was found: its text could not be read or parsed
      as a JSON value that is neither array nor object. */
  lemma LoadErrorsNeedCandidate(fs: Fs, logsPath: string, name: string, componentType: string, namespace: string)
    requires ResolvedEntries(fs, logsPath, name, componentType, namespace).Err?
    ensures exists p :: p in CandidatePaths(logsPath, name, componentType, namespace) && Exists(fs, p)
  {
    var paths := CandidatePaths(logsPath, name, componentType, namespace);
    var i := FirstExisting(fs, paths).value;
    assert paths[i] in paths;
  }

  // ================================================================ filters and counters

  predicate AtLeast(e: LogEntry, minLevel: LogLevel) {
    LevelPriority(e.level) >= LevelPriority(minLevel)
  }

  /** `filter_logs_by_level`: the entries at or above `minLevel`, in their order. */
  function FilterByLevel(logs: ComponentLogs, minLevel: LogLevel): (r: seq<LogEntry>)
    ensures Seqs.IsSubsequence(r, logs.entries)
    ensures forall e :: e in r <==> e in logs.entries && AtLeast(e, minLevel)
    ensures forall e :: multiset(r)[e] == if AtLeast(e, minLevel) then multiset(logs.entries)[e] else 0
  {
    var keep := (e: LogEntry) => AtLeast(e, minLevel);
    Seqs.FilterIsSubsequence(logs.entries, keep);
    Seqs.FilterMultiplicity(logs.entries, keep);
    Seqs.Filter(logs.entries, keep)
  }

  /** The lowest level keeps every entry. */
  lemma FilterByDebugKeepsAll(logs: ComponentLogs)
    ensures FilterByLevel(logs, Debug) == logs.entries
  {
    Seqs.FilterAll(logs.entries, (e: LogEntry) => AtLeast(e, Debug));
  }

  /** An entry matches a lower-cased query through its message or its source, compared
      lower-cased. */
  predicate EntryMatches(e: LogEntry, q: string) {
    Contains(ToLower(e.message), q) || Contains(ToLower(e.source), q)
  }

  function MatchingEntries(entries: seq<LogEntry>, q: string): seq<LogEntry> {
    Seqs.Filter(entries, (e: LogEntry) => EntryMatches(e, q))
  }

  /** `search_logs`: the entries whose message or source contains the query, ignoring
      case, in their order. */
  function SearchLogs(logs: ComponentLogs, query: string): (r: seq<LogEntry>)
    ensures Seqs.IsSubsequence(r, logs.entries)
    ensures forall e :: e in r <==> e in logs.entries && EntryMatches(e, ToLower(query))
    ensures forall e :: multiset(r)[e] == if EntryMatches(e, ToLower(query)) then multiset(logs.entries)[e] else 0
  {
    Seqs.FilterIsSubsequence(logs.entries, (e: LogEntry) => EntryMatches(e, ToLower(query)));
    Seqs.FilterMultiplicity(logs.entries, (e: LogEntry) => EntryMatches(e, ToLower(query)));
    MatchingEntries(logs.entries, ToLower(query))
  }

  /** The query's case does not matter. */
  lemma SearchIgnoresQueryCase(logs: ComponentLogs, query: string)
    ensures SearchLogs(logs, ToUpper(query)) == SearchLogs(logs, query)
    ensures SearchLogs(logs, ToLower(query)) == SearchLogs(logs, query)
  {
    LowerIgnoresCase(query);
  }

  /** The empty query finds every entry. */
  lemma EmptySearchFindsAll(logs: ComponentLogs)
    ensures SearchLogs(logs, "") == logs.entries
  {
    forall e: LogEntry
      ensures EntryMatches(e, "")
    {
      assert MatchAt(ToLower(e.message), "", 0);
    }
    Seqs.FilterAll(logs.entries, (e: LogEntry) => EntryMatches(e, ""));
  }

  predicate IsErrorEntry(e: LogEntry) {
    e.level == Error
  }

  predicate IsWarningEntry(e: LogEntry) {
    e.level == Warning
  }

  /** `get_error_count`. */
  function ErrorCount(logs: ComponentLogs): nat {
    |Seqs.Filter(logs.entries, IsErrorEntry)|
  }

  /** `get_warning_count`. */
  function WarningCount(logs: ComponentLogs): nat {
    |Seqs.Filter(logs.entries, IsWarningEntry)|
  }

  /** Errors and warnings together never outnumber the entries. */
  lemma CountsWithinEntries(logs: ComponentLogs)
    ensures ErrorCount(logs) + WarningCount(logs) <= |logs.entries|
  {
    Seqs.FilterDisjointCount(logs.entries, IsErrorEntry, IsWarningEntry);
  }

  /** Filtering at the Error level keeps exactly the entries the error counter counts. */
  lemma ErrorFilterMatchesCount(logs: ComponentLogs)
    ensures |FilterByLevel(logs, Error)| == ErrorCount(logs)
  {
    Seqs.FilterEquiv(logs.entries, (e: LogEntry) => AtLeast(e, Error), IsErrorEntry);
  }

  /** `get_recent_logs`: the first `min(count, len)` entries. */
  function RecentLogs(logs: ComponentLogs, count: nat): (r: seq<LogEntry>)
    ensures r <= logs.entries
    ensures |r| == if count < |logs.entries| then count else |logs.entries|
  {
    logs.entries[..if count < |logs.entries| then count else |logs.entries|]
  }

  // ================================================================ worked examples

  /** `[ERROR]` anywhere in a line decides it, whatever tag stands further left: the tags
      are tried in list order, not by position. */
  lemma ErrorTagWins(line: string, lineNum: nat)
    requires Contains(line, TagPattern("ERROR"))
    ensures BracketLevel(line).Some? && BracketLevel(line).value.0 == "ERROR"
    ensures ParseSingleTextLog(line, lineNum).level == Error
    ensures ParseSingleTextLog(line, lineNum).source == "kubernetes"
  {
    LevelRoundTrip(Error);
  }

  /** A line that starts with `[ERROR]` is an Error entry of the bracket stage, stamped with
      its line number and carrying the trimmed rest as its message (so `[ERROR] plugin/foo:
      boom` gives `plugin/foo: boom`). */
  lemma LeadingErrorTag(rest: string, lineNum: nat)
    requires rest != []
    ensures ParseSingleTextLog("[ERROR]" + rest, lineNum)
            == LogEntry(LineTimestamp(lineNum), Error, Trim(rest), "kubernetes")
  {
    var line := "[ERROR]" + rest;
    assert line[0..7] == TagPattern(BracketTags[0]);
    assert MatchAt(line, TagPattern(BracketTags[0]), 0);
    assert line[7..] == rest;
    LevelRoundTrip(Error);
  }
}
