/** The logs list screen of `src/ui/logs_list.rs`: the component-type guess made from a
    directory name, and the rows listed for a namespace, with their two fallbacks. */
module LogsList {
  import opened Wrappers
  import opened Strings
  import opened Snapshot
  import Navigation

  // ================================================================ component types

  /** `determine_component_type`: a guess from substrings of the name, case-sensitive and
      tried in a fixed order. The source tests for a '-' before counting them. */
  function ComponentType(name: string): string {
    if Contains(name, "pod") || (Contains(name, "-") && CountChar(name, '-') >= 2) then "Pod"
    else if Contains(name, "deploy") then "Deployment"
    else if Contains(name, "service") || Contains(name, "svc") then "Service"
    else if Contains(name, "manager") then "Manager"
    else if Contains(name, "controller") then "Controller"
    else if Contains(name, "operator") then "Operator"
    else "Component"
  }

  /** Two dashes make a name contain a dash, so the '-' test adds nothing to the count. */
  lemma DashesContainDash(name: string)
    requires CountChar(name, '-') >= 2
    ensures Contains(name, "-")
  {
    CountCharZero(name, '-');
    var k :| 0 <= k < |name| && name[k] == '-';
    assert name == name[..k] + "-" + name[k + 1..];
    ContainsInfix(name[..k], "-", name[k + 1..]);
  }

  /** A name is taken for a pod exactly when it mentions "pod" or has two or more dashes
      (a generated pod name such as `web-7d4b9-x2k8f`). */
  lemma PodNames(name: string)
    ensures ComponentType(name) == "Pod" <==> Contains(name, "pod") || CountChar(name, '-') >= 2
  {
    if CountChar(name, '-') >= 2 {
      DashesContainDash(name);
    }
  }

  /** The guess is one of seven names, and it falls back to "Component" exactly when the
      name matches none of the patterns. */
  lemma ComponentTypeRange(name: string)
    ensures ComponentType(name) in {"Pod", "Deployment", "Service", "Manager", "Controller", "Operator", "Component"}
    ensures ComponentType(name) == "Component" <==>
      && !Contains(name, "pod") && CountChar(name, '-') < 2
      && !Contains(name, "deploy") && !Contains(name, "service") && !Contains(name, "svc")
      && !Contains(name, "manager") && !Contains(name, "controller") && !Contains(name, "operator")
  {
    PodNames(name);
  }

  /** A name that mentions "pod" is a pod whatever else it mentions: the pod test comes
      first. */
  lemma PodTestFirst(left: string, right: string)
    ensures ComponentType(left + "pod" + right) == "Pod"
  {
    ContainsInfix(left, "pod", right);
  }

  // ================================================================ listed rows

  /** One row of the list. Component and log-file rows are built from the listing; help
      rows are fixed text. */
  datatype SourceRow =
    | ComponentRow(componentType: string, name: string)
    | LogFileRow(stem: string)
    | HelpRow(text: string)

  /** A row for each subdirectory of `dir` that holds a log file, in enumeration order. */
  function DirRows(fs: Fs, dir: string, entries: seq<DirEntry>): seq<SourceRow>
    decreases |entries|
  {
    if entries == [] then []
    else
      var e := entries[|entries| - 1];
      var init := DirRows(fs, dir, entries[..|entries| - 1]);
      if e.isDir && Navigation.HasLogs(fs, Join(dir, e.name)) then init + [ComponentRow(ComponentType(e.name), e.name)]
      else init
  }

  predicate IsLogExtension(name: string) {
    Extension(name) == Some("txt") || Extension(name) == Some("log") || Extension(name) == Some("json")
  }

  /** A row for each entry of the listing whose extension is txt, log or json, named by its
      stem. The entry may be a file or a directory. */
  function FileRows(entries: seq<DirEntry>): seq<SourceRow>
    decreases |entries|
  {
    if entries == [] then []
    else
      var e := entries[|entries| - 1];
      FileRows(entries[..|entries| - 1]) + if IsLogExtension(e.name) then [LogFileRow(FileStem(e.name))] else []
  }

  /** The rows listed when nothing was found; the last one names the directory searched. */
  function HelpRows(namespace: Option<string>): seq<SourceRow> {
    [ HelpRow("No log sources found in this namespace"), HelpRow(""), HelpRow("Expected log structure:"),
      HelpRow("  output/{namespace}/{component}/logs.txt"), HelpRow("  output/{namespace}/{component}/log.txt"),
      HelpRow("") ]
    + match namespace
      case Some(ns) => [HelpRow("Checked directory: " + NamespaceDir(ns) + "/")]
      case None => []
  }

  /** The rows found in the namespace directory: its log-holding subdirectories, or, when
      there are none, its log files. An unreadable directory yields nothing. */
  function FoundRows(fs: Fs, namespace: Option<string>): seq<SourceRow> {
    match namespace
    case None => []
    case Some(ns) =>
      match ReadDir(fs, NamespaceDir(ns))
      case Err(_) => []
      case Ok(entries) =>
        var dirs := DirRows(fs, NamespaceDir(ns), entries);
        if dirs != [] then dirs else FileRows(entries)
  }

  /** `log_sources` of `draw_logs_list`: the rows found, or the help text when none are. */
  function LogSources(fs: Fs, namespace: Option<string>): seq<SourceRow> {
    var found := FoundRows(fs, namespace);
    if found == [] then HelpRows(namespace) else found
  }

  /** The construction of `log_sources`: the directory scan, then the file scan when it
      found nothing, then the help text when neither did. */
  method BuildLogSources(fs: Fs, namespace: Option<string>) returns (sources: seq<SourceRow>)
    ensures sources == LogSources(fs, namespace)
  {
    sources := [];
    if namespace.Some? {
      var namespaceDir := NamespaceDir(namespace.value);
      var listing := ReadDir(fs, namespaceDir);
      if listing.Ok? {
        sources := ScanDirectories(fs, namespaceDir, listing.value);
      }
      if sources == [] {
        var listing := ReadDir(fs, namespaceDir);
        if listing.Ok? {
          sources := ScanFiles(listing.value);
        }
      }
    }
    if sources == [] {
      sources := HelpRows(namespace);
    }
  }

  /** The first scan: one row per subdirectory holding logs.txt, log.txt or logs.json. */
  method ScanDirectories(fs: Fs, dir: string, entries: seq<DirEntry>) returns (rows: seq<SourceRow>)
    ensures rows == DirRows(fs, dir, entries)
  {
    rows := [];
    for k := 0 to |entries|
      invariant rows == DirRows(fs, dir, entries[..k])
    {
      assert entries[..k + 1][..k] == entries[..k];
      var entry := entries[k];
      if entry.isDir {
        var componentPath := Join(dir, entry.name);
        var hasLogs := Exists(fs, Join(componentPath, "logs.txt"))
          || Exists(fs, Join(componentPath, "log.txt"))
          || Exists(fs, Join(componentPath, "logs.json"));
        if hasLogs {
          rows := rows + [ComponentRow(ComponentType(entry.name), entry.name)];
        }
      }
    }
    assert entries[..|entries|] == entries;
  }

  /** The second scan: one row per entry with a log extension. */
  method ScanFiles(entries: seq<DirEntry>) returns (rows: seq<SourceRow>)
    ensures rows == FileRows(entries)
  {
    rows := [];
    for k := 0 to |entries|
      invariant rows == FileRows(entries[..k])
    {
      assert entries[..k + 1][..k] == entries[..k];
      var extension := Extension(entries[k].name);
      if extension == Some("txt") || extension == Some("log") || extension == Some("json") {
        rows := rows + [LogFileRow(FileStem(entries[k].name))];
      }
    }
    assert entries[..|entries|] == entries;
  }

  // ================================================================ properties of the list

  /** Directory row `i` names the `i`-th log-holding component, with its guessed type. */
  lemma {:induction false} DirRowsAreLogDirs(fs: Fs, dir: string, entries: seq<DirEntry>)
    ensures |DirRows(fs, dir, entries)| == |Navigation.LogDirs(fs, dir, entries)|
    ensures forall i :: 0 <= i < |DirRows(fs, dir, entries)| ==>
      DirRows(fs, dir, entries)[i] == ComponentRow(ComponentType(Navigation.LogDirs(fs, dir, entries)[i]), Navigation.LogDirs(fs, dir, entries)[i])
    decreases |entries|
  {
    if entries != [] {
      DirRowsAreLogDirs(fs, dir, entries[..|entries| - 1]);
    }
  }

  /** When the namespace has log-holding components, the list shows exactly those, in the
      order Up/Down count and Enter picks them. */
  lemma ListedRowsArePickable(fs: Fs, ns: string)
    requires Navigation.LogComponents(fs, ns) != []
    ensures |LogSources(fs, Some(ns))| == |Navigation.LogComponents(fs, ns)|
    ensures forall i :: 0 <= i < |LogSources(fs, Some(ns))| ==>
      LogSources(fs, Some(ns))[i] == ComponentRow(ComponentType(Navigation.LogComponents(fs, ns)[i]), Navigation.LogComponents(fs, ns)[i])
  {
    DirRowsAreLogDirs(fs, NamespaceDir(ns), ReadDir(fs, NamespaceDir(ns)).value);
  }

  /** Log-file rows appear only when no subdirectory holds logs; Up/Down then count no
      rows, so those rows can be shown but never picked. */
  lemma FileRowsOnlyAsFallback(fs: Fs, ns: string, i: nat)
    requires i < |LogSources(fs, Some(ns))| && LogSources(fs, Some(ns))[i].LogFileRow?
    ensures Navigation.LogComponents(fs, ns) == []
    ensures forall j :: 0 <= j < |LogSources(fs, Some(ns))| ==> !LogSources(fs, Some(ns))[j].ComponentRow?
  {
    var entries := ReadDir(fs, NamespaceDir(ns)).value;
    DirRowsAreLogDirs(fs, NamespaceDir(ns), entries);
    FileRowsAreFiles(entries);
  }

  lemma {:induction false} FileRowsAreFiles(entries: seq<DirEntry>)
    ensures forall i :: 0 <= i < |FileRows(entries)| ==> FileRows(entries)[i].LogFileRow?
    decreases |entries|
  {
    if entries != [] {
      FileRowsAreFiles(entries[..|entries| - 1]);
    }
  }

  lemma {:induction false} DirRowsAreComponents(fs: Fs, dir: string, entries: seq<DirEntry>)
    ensures forall i :: 0 <= i < |DirRows(fs, dir, entries)| ==> DirRows(fs, dir, entries)[i].ComponentRow?
    decreases |entries|
  {
    if entries != [] {
      DirRowsAreComponents(fs, dir, entries[..|entries| - 1]);
    }
  }

  /** The list is never empty; help text appears only when no row was found, and then it
      is all there is. */
  lemma HelpOnlyWhenNothingFound(fs: Fs, namespace: Option<string>)
    ensures |LogSources(fs, namespace)| > 0
    ensures (exists i :: 0 <= i < |LogSources(fs, namespace)| && LogSources(fs, namespace)[i].HelpRow?) <==>
      FoundRows(fs, namespace) == []
    ensures FoundRows(fs, namespace) == [] ==> forall i :: 0 <= i < |LogSources(fs, namespace)| ==> LogSources(fs, namespace)[i].HelpRow?
  {
    var found := FoundRows(fs, namespace);
    if found != [] {
      match namespace
      case Some(ns) =>
        var entries := ReadDir(fs, NamespaceDir(ns)).value;
        DirRowsAreComponents(fs, NamespaceDir(ns), entries);
        FileRowsAreFiles(entries);
    } else {
      assert LogSources(fs, namespace)[0].HelpRow?;
    }
  }

  /** The help text names the directory searched exactly when a namespace is selected. */
  lemma HelpNamesDirectory(namespace: Option<string>)
    ensures |HelpRows(namespace)| == if namespace.Some? then 7 else 6
    ensures namespace.Some? ==> HelpRows(namespace)[6] == HelpRow("Checked directory: output/" + namespace.value + "/")
  {
  }
}
