/** The log viewer screen of `src/ui/logs_viewer.rs`: which entries a filter shows, the
    counts behind the statistics gauges, and how timestamps and messages are shortened
    for display. */
module LogsViewer {
  import opened Wrappers
  import opened Strings
  import Seqs
  import L = Logs
  import KeyDispatch
  import opened Snapshot

  // ================================================================ the entry filter

  /** The level a filter name selects: exactly one of the four level names; any other
      name, or no filter, selects no particular level. */
  function FilterLevel(filter: Option<string>): Option<L.LogLevel> {
    match filter
    case None => None
    case Some(f) =>
      if f == "error" then Some(L.Error)
      else if f == "warning" then Some(L.Warning)
      else if f == "info" then Some(L.Info)
      else if f == "debug" then Some(L.Debug)
      else None
  }

  predicate HasLevel(e: L.LogEntry, level: L.LogLevel) {
    e.level == level
  }

  /** `draw_log_entries`: the entries listed under the current filter. */
  function DisplayedEntries(logs: L.ComponentLogs, filter: Option<string>): seq<L.LogEntry> {
    match FilterLevel(filter)
    case None => logs.entries
    case Some(level) => Seqs.Filter(logs.entries, (e: L.LogEntry) => HasLevel(e, level))
  }

  /** A level filter keeps exactly the entries of that level (not those at or above it),
      in their loaded order. */
  lemma ExactLevelFilter(logs: L.ComponentLogs, filter: string, level: L.LogLevel)
    requires FilterLevel(Some(filter)) == Some(level)
    ensures Seqs.IsSubsequence(DisplayedEntries(logs, Some(filter)), logs.entries)
    ensures forall e :: e in DisplayedEntries(logs, Some(filter)) <==> e in logs.entries && e.level == level
    ensures forall e :: multiset(DisplayedEntries(logs, Some(filter)))[e]
                        == if e.level == level then multiset(logs.entries)[e] else 0
  {
    Seqs.FilterIsSubsequence(logs.entries, (e: L.LogEntry) => HasLevel(e, level));
    Seqs.FilterMultiplicity(logs.entries, (e: L.LogEntry) => HasLevel(e, level));
  }

  /** No filter, or a name that is not one of the four levels, lists every entry. */
  lemma UnknownFilterShowsAll(logs: L.ComponentLogs, filter: Option<string>)
    requires filter.Some? ==> filter.value !in {"error", "warning", "info", "debug"}
    ensures DisplayedEntries(logs, filter) == logs.entries
  {
  }

  /** Each filter key of the viewer (e, w, i, d) names a level the list then selects. */
  lemma FilterKeysSelectLevels(c: char)
    requires c in "ewid"
    ensures FilterLevel(Some(KeyDispatch.FilterName(c))).Some?
    ensures L.LevelFromStr(KeyDispatch.FilterName(c)) == FilterLevel(Some(KeyDispatch.FilterName(c))).value
  {
    L.LevelAliases(KeyDispatch.FilterName(c));
  }

  /** The error filter lists as many entries as the error gauge counts. */
  lemma ErrorListMatchesGauge(logs: L.ComponentLogs)
    ensures |DisplayedEntries(logs, Some("error"))| == L.ErrorCount(logs)
  {
    Seqs.FilterEquiv(logs.entries, (e: L.LogEntry) => HasLevel(e, L.Error), L.IsErrorEntry);
  }

  // ================================================================ the statistics gauges

  predicate IsInfoOrDebug(e: L.LogEntry) {
    e.level == L.Info || e.level == L.Debug
  }

  /** `info_count` of `draw_log_stats`, as an unbounded integer; the source computes it in
      unsigned arithmetic, where a negative value would be an overflow. */
  function InfoCount(logs: L.ComponentLogs): int {
    logs.totalEntries - L.ErrorCount(logs) - L.WarningCount(logs)
  }

  /** When the entry count is the one recorded at load time, the subtraction cannot
      underflow, and it counts exactly the info and debug entries the gauge is titled
      after. */
  lemma InfoCountIsInfoAndDebug(logs: L.ComponentLogs)
    requires logs.totalEntries == |logs.entries|
    ensures InfoCount(logs) >= 0
    ensures InfoCount(logs) == |Seqs.Filter(logs.entries, IsInfoOrDebug)|
  {
    Seqs.FilterPartition(logs.entries, L.IsErrorEntry, L.IsWarningEntry, IsInfoOrDebug);
  }

  /** Every set of loaded logs meets that condition, so the gauge never underflows. */
  lemma LoadedInfoCount(fs: Fs, logsPath: string, name: string, componentType: string, namespace: string)
    requires L.LoadedLogs(fs, logsPath, name, componentType, namespace).Ok?
    ensures InfoCount(L.LoadedLogs(fs, logsPath, name, componentType, namespace).value) >= 0
  {
    L.LoadedLogsSorted(fs, logsPath, name, componentType, namespace);
    InfoCountIsInfoAndDebug(L.LoadedLogs(fs, logsPath, name, componentType, namespace).value);
  }

  // ================================================================ shortening

  function Min(a: nat, b: nat): nat {
    if a <= b then a else b
  }

  /** `truncate_timestamp`: a timestamp longer than 19 characters is cut down to the date
      (its first 10 characters), a space, and the up to 8 characters after its first 'T';
      without a 'T' it keeps its first 19 characters. */
  function TruncateTimestamp(timestamp: string): string {
    if |timestamp| > 19 then
      match IndexOfChar(timestamp, 'T')
      case Some(t) => timestamp[..10] + " " + timestamp[t + 1..Min(t + 9, |timestamp|)]
      case None => timestamp[..19]
    else timestamp
  }

  /** A short timestamp is shown as is, and no shown timestamp exceeds 19 characters. */
  lemma TimestampBounded(timestamp: string)
    ensures |TruncateTimestamp(timestamp)| <= 19
    ensures |timestamp| <= 19 ==> TruncateTimestamp(timestamp) == timestamp
  {
  }

  /** Shortening a shortened timestamp changes nothing. */
  lemma TimestampIdempotent(timestamp: string)
    ensures TruncateTimestamp(TruncateTimestamp(timestamp)) == TruncateTimestamp(timestamp)
  {
    TimestampBounded(timestamp);
    TimestampBounded(TruncateTimestamp(timestamp));
  }

  /** An RFC 3339 timestamp with a fractional part or offset, `<date>T<time><rest>`, is
      shown as `<date> <time>`. */
  lemma TimestampIso(date: string, time: string, rest: string)
    requires |date| == 10 && 'T' !in date && |time| == 8 && |rest| > 0
    ensures TruncateTimestamp(date + "T" + time + rest) == date + " " + time
  {
    var s := date + "T" + time + rest;
    IndexOfCharAt(s, 'T', 10);
    assert s[..10] == date;
    assert s[11..19] == time;
  }

  /** Without a 'T', a long timestamp keeps a 19-character prefix. */
  lemma TimestampWithoutT(timestamp: string)
    requires |timestamp| > 19 && 'T' !in timestamp
    ensures TruncateTimestamp(timestamp) == timestamp[..19]
  {
  }

  /** `truncate_message`: a message longer than `maxLen` loses its end to "...". The source
      subtracts 3 from `maxLen` in unsigned arithmetic, so `maxLen` must be at least 3. */
  function TruncateMessage(message: string, maxLen: nat): (r: string)
    requires maxLen >= 3
    ensures |r| <= maxLen
    ensures |message| <= maxLen ==> r == message
    ensures |message| > maxLen ==> |r| == maxLen && IsPrefix(r[..maxLen - 3], message) && r[maxLen - 3..] == "..."
  {
    if |message| > maxLen then message[..maxLen - 3] + "..." else message
  }

  predicate IsPrefix(a: string, b: string) {
    |a| <= |b| && b[..|a|] == a
  }

  /** Shortening a shortened message changes nothing. */
  lemma MessageIdempotent(message: string, maxLen: nat)
    requires maxLen >= 3
    ensures TruncateMessage(TruncateMessage(message, maxLen), maxLen) == TruncateMessage(message, maxLen)
  {
  }

  /** The viewer's limit of 100 characters. */
  const MessageWidth: nat := 100

  /** The pieces of one listed entry: its timestamp and message as shortened for display. */
  function EntryLine(e: L.LogEntry): (r: (string, string))
    ensures |r.0| <= 19 && |r.1| <= MessageWidth
  {
    TimestampBounded(e.timestamp);
    (TruncateTimestamp(e.timestamp), TruncateMessage(e.message, MessageWidth))
  }
}
