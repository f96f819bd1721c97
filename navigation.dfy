/** The browser's navigation state machine: the `App` record, selection movement with
    wrap-around, the back-transition table and the Enter handler of every screen. */
module Navigation {
  import opened Wrappers
  import opened Errors
  import opened Snapshot
  import K = Kubernetes
  import L = Logs

  datatype Screen =
    | MainMenu
    | NamespaceList
    | NamespaceDetails
    | ClusterAnalysis
    | ComponentDetails
    | LogsList
    | LogsViewer
    | Capybara
    | PodsList
    | DeploymentsList

  /** Every field of `App` as one value. A `ListState` widget is reduced to its selected
      index, the only part of it the program reads or writes. */
  datatype AppState = AppState(
    namespaces: seq<K.NamespaceInfo>,
    currentScreen: Screen,
    listState: Option<nat>,
    logsScrollState: Option<nat>,
    detailsScrollState: Option<nat>,
    selectedNamespace: Option<string>,
    selectedComponent: Option<(string, string)>,  // (component name, component type)
    pods: seq<K.PodInfo>,
    deployments: seq<K.DeploymentInfo>,
    currentLogs: Option<L.ComponentLogs>,
    clusterAnalysis: Option<K.ClusterAnalysis>,
    logFilter: Option<string>,
    showCapybara: bool)

  /** The state `App::new` builds around the loaded namespaces. */
  function Initial(namespaces: seq<K.NamespaceInfo>): AppState {
    AppState(namespaces, MainMenu, Some(0), Some(0), Some(0), None, None, [], [], None, None, None, false)
  }

  /** Facts every reachable state keeps: the easter egg flag is up exactly on its screen,
      the logs viewer always has logs to show, and a component details screen always knows
      its component. */
  predicate Consistent(s: AppState) {
    && (s.showCapybara <==> s.currentScreen == Capybara)
    && (s.currentScreen == LogsViewer ==> s.currentLogs.Some?)
    && (s.currentScreen == ComponentDetails ==> s.selectedComponent.Some?)
  }

  // ================================================================ selection movement

  /** One step forward in a list of `len` rows: nothing on an empty list, row 0 from no
      selection, otherwise the next row, wrapping after the last. */
  function NextIndex(sel: Option<nat>, len: nat): Option<nat> {
    if len == 0 then sel
    else match sel
      case None => Some(0)
      case Some(i) => Some((i + 1) % len)
  }

  /** One step back, wrapping before the first row. */
  function PrevIndex(sel: Option<nat>, len: nat): Option<nat> {
    if len == 0 then sel
    else match sel
      case None => Some(0)
      case Some(i) => Some((i + len - 1) % len)
  }

  /** `n` steps forward. */
  function NextTimes(sel: Option<nat>, len: nat, n: nat): Option<nat>
    decreases n
  {
    if n == 0 then sel else NextIndex(NextTimes(sel, len, n - 1), len)
  }

  /** A move on an empty list changes nothing; on a non-empty one it always lands on a row. */
  lemma MoveStaysInRange(sel: Option<nat>, len: nat)
    ensures len == 0 ==> NextIndex(sel, len) == sel && PrevIndex(sel, len) == sel
    ensures len > 0 ==> NextIndex(sel, len).Some? && NextIndex(sel, len).value < len
    ensures len > 0 ==> PrevIndex(sel, len).Some? && PrevIndex(sel, len).value < len
  {
  }

  /** On a row of the list, a step back undoes a step forward and the other way round. */
  lemma PreviousUndoesNext(i: nat, len: nat)
    requires i < len
    ensures PrevIndex(NextIndex(Some(i), len), len) == Some(i)
    ensures NextIndex(PrevIndex(Some(i), len), len) == Some(i)
  {
    if i + 1 < len {
      ModUnique(i + 1, len, 0, i + 1);
      ModUnique(i + len, len, 1, i);
    } else {
      ModUnique(len, len, 1, 0);
      ModUnique(len - 1, len, 0, len - 1);
    }
    if i == 0 {
      ModUnique(len - 1, len, 0, len - 1);
      ModUnique(len, len, 1, 0);
    } else {
      ModUnique(i + len - 1, len, 1, i - 1);
      ModUnique(i, len, 0, i);
    }
  }

  /** From a row, `n` steps forward land `n` rows further on, counted round the list. */
  lemma {:induction false} NextTimesWraps(i: nat, len: nat, n: nat)
    requires i < len
    ensures NextTimes(Some(i), len, n) == Some((i + n) % len)
    decreases n
  {
    if n == 0 {
      ModUnique(i, len, 0, i);
    } else {
      NextTimesWraps(i, len, n - 1);
      ModStep(i + n - 1, len);
    }
  }

  /** Pressing Down as many times as the list has rows returns to the same row. */
  lemma FullCycleReturns(i: nat, len: nat)
    requires i < len
    ensures NextTimes(Some(i), len, len) == Some(i)
  {
    NextTimesWraps(i, len, len);
    ModUnique(i + len, len, 1, i);
  }

  /** The remainder is the one value below `len` that completes a multiple of it. */
  lemma ModUnique(x: int, len: int, q: int, r: int)
    requires len > 0 && 0 <= r < len && x == q * len + r
    ensures x % len == r
  {
    var q' := x / len;
    var r' := x % len;
    assert (q - q') * len == r' - r;
    if q > q' {
      MulAtLeast(q - q', len);
    } else if q < q' {
      MulAtLeast(q' - q, len);
    }
  }

  lemma MulAtLeast(a: int, b: int)
    requires a >= 1 && b > 0
    ensures a * b >= b
  {
  }

  /** Taking the remainder before adding one changes nothing once the remainder is taken
      again. */
  lemma ModStep(a: nat, len: nat)
    requires len > 0
    ensures (a % len + 1) % len == (a + 1) % len
  {
    var q := a / len;
    var r := a % len;
    if r + 1 < len {
      ModUnique(a + 1, len, q, r + 1);
      ModUnique(r + 1, len, 0, r + 1);
    } else {
      ModUnique(a + 1, len, q + 1, 0);
      ModUnique(r + 1, len, 1, 0);
    }
  }

  // ================================================================ list lengths

  /** The selectable rows of the cluster analysis: pods and deployments of every namespace. */
  function ComponentCount(analyses: seq<K.NamespaceAnalysis>): nat
    decreases |analyses|
  {
    if analyses == [] then 0
    else
      var last := analyses[|analyses| - 1];
      ComponentCount(analyses[..|analyses| - 1]) + |last.pods| + |last.deployments|
  }

  function PodRefs(pods: seq<K.PodInfo>): (r: seq<(string, string)>)
    ensures |r| == |pods|
    ensures forall i :: 0 <= i < |pods| ==> r[i] == (pods[i].name, "Pod")
    decreases |pods|
  {
    if pods == [] then [] else PodRefs(pods[..|pods| - 1]) + [(pods[|pods| - 1].name, "Pod")]
  }

  function DeploymentRefs(deployments: seq<K.DeploymentInfo>): (r: seq<(string, string)>)
    ensures |r| == |deployments|
    ensures forall i :: 0 <= i < |deployments| ==> r[i] == (deployments[i].name, "Deployment")
    decreases |deployments|
  {
    if deployments == [] then []
    else DeploymentRefs(deployments[..|deployments| - 1]) + [(deployments[|deployments| - 1].name, "Deployment")]
  }

  /** Every component of the analysis as (name, type): per namespace in order, its pods
      and then its deployments. */
  function Components(analyses: seq<K.NamespaceAnalysis>): seq<(string, string)>
    decreases |analyses|
  {
    if analyses == [] then []
    else
      var last := analyses[|analyses| - 1];
      Components(analyses[..|analyses| - 1]) + PodRefs(last.pods) + DeploymentRefs(last.deployments)
  }

  /** The flattened component list is exactly as long as the list the Up/Down keys move
      through on the cluster analysis screen, and records only pods and deployments. */
  lemma {:induction false} ComponentsCounted(analyses: seq<K.NamespaceAnalysis>)
    ensures |Components(analyses)| == ComponentCount(analyses)
    ensures forall c :: c in Components(analyses) ==> c.1 == "Pod" || c.1 == "Deployment"
    decreases |analyses|
  {
    if analyses != [] {
      var last := analyses[|analyses| - 1];
      ComponentsCounted(analyses[..|analyses| - 1]);
      forall c | c in Components(analyses)
        ensures c.1 == "Pod" || c.1 == "Deployment"
      {
        if c !in Components(analyses[..|analyses| - 1]) {
          if c in PodRefs(last.pods) {
            var i :| 0 <= i < |last.pods| && PodRefs(last.pods)[i] == c;
          } else {
            assert c in DeploymentRefs(last.deployments);
            var i :| 0 <= i < |last.deployments| && DeploymentRefs(last.deployments)[i] == c;
          }
        }
      }
    }
  }

  /** A component directory holds logs when one of the three log file names exists in it. */
  predicate HasLogs(fs: Fs, componentPath: string) {
    || Exists(fs, Join(componentPath, "logs.txt"))
    || Exists(fs, Join(componentPath, "log.txt"))
    || Exists(fs, Join(componentPath, "logs.json"))
  }

  /** The names of the subdirectories of `dir` that hold logs, in enumeration order. */
  function LogDirs(fs: Fs, dir: string, entries: seq<DirEntry>): (r: seq<string>)
    ensures |r| <= |entries|
    ensures forall n :: n in r <==>
      exists i :: 0 <= i < |entries| && entries[i].name == n && entries[i].isDir && HasLogs(fs, Join(dir, n))
    decreases |entries|
  {
    if entries == [] then []
    else
      var e := entries[|entries| - 1];
      var init := LogDirs(fs, dir, entries[..|entries| - 1]);
      assert forall i :: 0 <= i < |entries| - 1 ==> entries[..|entries| - 1][i] == entries[i];
      if e.isDir && HasLogs(fs, Join(dir, e.name)) then init + [e.name] else init
  }

  /** The log-holding components of a namespace; an unreadable namespace directory has none. */
  function LogComponents(fs: Fs, namespace: string): seq<string> {
    match ReadDir(fs, NamespaceDir(namespace))
    case Ok(entries) => LogDirs(fs, NamespaceDir(namespace), entries)
    case Err(_) => []
  }

  /** One more directory entry adds its name exactly when it is a directory holding logs. */
  lemma LogDirsSnoc(fs: Fs, dir: string, entries: seq<DirEntry>, e: DirEntry)
    ensures LogDirs(fs, dir, entries + [e])
         == LogDirs(fs, dir, entries) + if e.isDir && HasLogs(fs, Join(dir, e.name)) then [e.name] else []
  {
    assert (entries + [e])[..|entries|] == entries;
  }

  /** `get_list_length`: the number of rows Up and Down move through on each screen. */
  function ListLength(s: AppState, fs: Fs): nat {
    match s.currentScreen
    case MainMenu => 5
    case NamespaceList => |s.namespaces|
    case NamespaceDetails => 3
    case PodsList => |s.pods|
    case DeploymentsList => |s.deployments|
    case ClusterAnalysis =>
      (match s.clusterAnalysis
       case Some(a) => ComponentCount(a.namespaces)
       case None => 0)
    case LogsList =>
      (match s.selectedNamespace
       case Some(ns) => |LogComponents(fs, ns)|
       case None => 0)
    case _ => 0
  }

  // ================================================================ transitions

  function AfterNext(s: AppState, fs: Fs): AppState {
    s.(listState := NextIndex(s.listState, ListLength(s, fs)))
  }

  function AfterPrevious(s: AppState, fs: Fs): AppState {
    s.(listState := PrevIndex(s.listState, ListLength(s, fs)))
  }

  /** The log viewer scrolls through the loaded entries; without logs nothing moves. */
  function AfterScrollLogsDown(s: AppState): AppState {
    match s.currentLogs
    case Some(logs) => s.(logsScrollState := NextIndex(s.logsScrollState, |logs.entries|))
    case None => s
  }

  function AfterScrollLogsUp(s: AppState): AppState {
    match s.currentLogs
    case Some(logs) => s.(logsScrollState := PrevIndex(s.logsScrollState, |logs.entries|))
    case None => s
  }

  /** The details scroll moves through as many rows as the cluster analysis has components. */
  function AfterScrollDetailsDown(s: AppState): AppState {
    match s.clusterAnalysis
    case Some(a) => s.(detailsScrollState := NextIndex(s.detailsScrollState, ComponentCount(a.namespaces)))
    case None => s
  }

  function AfterScrollDetailsUp(s: AppState): AppState {
    match s.clusterAnalysis
    case Some(a) => s.(detailsScrollState := PrevIndex(s.detailsScrollState, ComponentCount(a.namespaces)))
    case None => s
  }

  /** Choosing the active filter again removes it; any other choice replaces it. The log
      scroll goes back to the top either way. */
  function AfterToggleLogFilter(s: AppState, filter: string): AppState {
    s.(logFilter := if s.logFilter == Some(filter) then None else Some(filter), logsScrollState := Some(0))
  }

  /** Where Back leads from component details: to the list the recorded type names, and to
      the cluster analysis for any other type or no component. */
  function ComponentBackTarget(selected: Option<(string, string)>): Screen {
    match selected
    case Some((_, t)) => if t == "Pod" then PodsList else if t == "Deployment" then DeploymentsList else ClusterAnalysis
    case None => ClusterAnalysis
  }

  /** Where Back leads from each screen, and what it forgets on the way: leaving the
      easter egg, the analysis or the namespace list lowers the easter egg flag, leaving
      component details forgets the component, leaving the viewer drops its logs and
      filter. */
  function BackMove(s: AppState): AppState {
    match s.currentScreen
    case NamespaceList => s.(currentScreen := MainMenu, showCapybara := false)
    case ClusterAnalysis => s.(currentScreen := MainMenu, showCapybara := false)
    case Capybara => s.(currentScreen := MainMenu, showCapybara := false)
    case NamespaceDetails => s.(currentScreen := NamespaceList)
    case PodsList => s.(currentScreen := NamespaceDetails)
    case DeploymentsList => s.(currentScreen := NamespaceDetails)
    case ComponentDetails => s.(currentScreen := ComponentBackTarget(s.selectedComponent), selectedComponent := None)
    case LogsList => s.(currentScreen := NamespaceDetails)
    case LogsViewer => s.(currentScreen := LogsList, currentLogs := None, logFilter := None)
    case MainMenu => s
  }

  /** `back`: the move, then every selection back on row 0. */
  function AfterBack(s: AppState): AppState {
    BackMove(s).(listState := Some(0), logsScrollState := Some(0), detailsScrollState := Some(0))
  }

  /** Enter on the main menu: 0 analyses the cluster, 1 browses namespaces, 2 shows the
      easter egg, 4 asks to exit, anything else does nothing. */
  function AfterMainMenuSelection(s: AppState, fs: Fs): (AppState, Result<(), AppError>) {
    match s.listState
    case None => (s, Ok(()))
    case Some(i) =>
      if i == 0 then
        match K.Analysis(fs)
        case Err(e) => (s, Err(e))
        case Ok(a) => (s.(clusterAnalysis := Some(a), currentScreen := ClusterAnalysis), Ok(()))
      else if i == 1 then (s.(currentScreen := NamespaceList), Ok(()))
      else if i == 2 then (s.(currentScreen := Capybara, showCapybara := true), Ok(()))
      else if i == 4 then (s, Err(ExitRequest))
      else (s, Ok(()))
  }

  /** Enter on a namespace: the namespace is recorded first, then its pods and its
      deployments are loaded, each load able to stop the handler with its error. */
  function AfterNamespaceSelection(s: AppState, fs: Fs): (AppState, Result<(), AppError>) {
    match s.listState
    case None => (s, Ok(()))
    case Some(i) =>
      if i < |s.namespaces| then
        var name := s.namespaces[i].name;
        var named := s.(selectedNamespace := Some(name));
        match K.LoadedPods(fs, name)
        case Err(e) => (named, Err(e))
        case Ok(pods) =>
          var withPods := named.(pods := pods);
          match K.LoadedDeployments(fs, name)
          case Err(e) => (withPods, Err(e))
          case Ok(deployments) => (withPods.(deployments := deployments, currentScreen := NamespaceDetails), Ok(()))
      else (s, Ok(()))
  }

  function AfterNamespaceDetailsSelection(s: AppState): AppState {
    match s.listState
    case Some(0) => s.(currentScreen := PodsList)
    case Some(1) => s.(currentScreen := DeploymentsList)
    case Some(2) => s.(currentScreen := LogsList)
    case _ => s
  }

  function AfterPodsListSelection(s: AppState): AppState {
    match s.listState
    case Some(i) =>
      if i < |s.pods| then s.(selectedComponent := Some((s.pods[i].name, "Pod")), currentScreen := ComponentDetails)
      else s
    case None => s
  }

  function AfterDeploymentsListSelection(s: AppState): AppState {
    match s.listState
    case Some(i) =>
      if i < |s.deployments| then
        s.(selectedComponent := Some((s.deployments[i].name, "Deployment")), currentScreen := ComponentDetails)
      else s
    case None => s
  }

  function AfterClusterAnalysisSelection(s: AppState): AppState {
    match s.listState
    case Some(i) =>
      (match s.clusterAnalysis
       case Some(a) =>
         var components := Components(a.namespaces);
         if i < |components| then s.(selectedComponent := Some(components[i]), currentScreen := ComponentDetails)
         else s
       case None => s)
    case None => s
  }

  /** Enter on a log directory: the component is recorded, then its logs are loaded as a
      pod's; a load failure leaves the screen as it was and is not reported. */
  function AfterLogsListSelection(s: AppState, fs: Fs): AppState {
    match s.listState
    case Some(i) =>
      (match s.selectedNamespace
       case Some(ns) =>
         var components := LogComponents(fs, ns);
         if i < |components| then
           var name := components[i];
           var recorded := s.(selectedComponent := Some((name, "Component")));
           match L.LoadedLogs(fs, L.PodLogsPath(ns, name), name, "Pod", ns)
           case Ok(logs) => recorded.(currentLogs := Some(logs), currentScreen := LogsViewer)
           case Err(_) => recorded
         else s
       case None => s)
    case None => s
  }

  /** `select`: Enter, dispatched on the current screen. */
  function AfterSelect(s: AppState, fs: Fs): (AppState, Result<(), AppError>) {
    match s.currentScreen
    case MainMenu => AfterMainMenuSelection(s, fs)
    case NamespaceList => AfterNamespaceSelection(s, fs)
    case NamespaceDetails => (AfterNamespaceDetailsSelection(s), Ok(()))
    case ClusterAnalysis => (AfterClusterAnalysisSelection(s), Ok(()))
    case LogsList => (AfterLogsListSelection(s, fs), Ok(()))
    case PodsList => (AfterPodsListSelection(s), Ok(()))
    case DeploymentsList => (AfterDeploymentsListSelection(s), Ok(()))
    case _ => (s, Ok(()))
  }

  // ================================================================ the App object

  class App {
    var namespaces: seq<K.NamespaceInfo>
    var currentScreen: Screen
    var listState: Option<nat>
    var logsScrollState: Option<nat>
    var detailsScrollState: Option<nat>
    var selectedNamespace: Option<string>
    var selectedComponent: Option<(string, string)>
    var pods: seq<K.PodInfo>
    var deployments: seq<K.DeploymentInfo>
    var currentLogs: Option<L.ComponentLogs>
    var clusterAnalysis: Option<K.ClusterAnalysis>
    var logFilter: Option<string>
    var showCapybara: bool

    /** The object's fields as one value. */
    function View(): AppState
      reads this
    {
      AppState(namespaces, currentScreen, listState, logsScrollState, detailsScrollState,
        selectedNamespace, selectedComponent, pods, deployments, currentLogs, clusterAnalysis,
        logFilter, showCapybara)
    }

    /** The record `App::new` returns once the namespaces are loaded. */
    constructor (namespaces: seq<K.NamespaceInfo>)
      ensures View() == Initial(namespaces)
    {
      this.namespaces := namespaces;
      currentScreen := MainMenu;
      listState := Some(0);
      logsScrollState := Some(0);
      detailsScrollState := Some(0);
      selectedNamespace := None;
      selectedComponent := None;
      pods := [];
      deployments := [];
      currentLogs := None;
      clusterAnalysis := None;
      logFilter := None;
      showCapybara := false;
    }

    /** `App::new`: fails exactly when the namespaces cannot be loaded. */
    static method New(fs: Fs) returns (r: Result<App, AppError>)
      ensures r.Err? <==> K.Namespaces(fs).Err?
      ensures r.Err? ==> r.error == K.Namespaces(fs).error
      ensures r.Ok? ==> fresh(r.value) && r.value.View() == Initial(K.Namespaces(fs).value)
    {
      var loaded := K.LoadNamespaces(fs);
      if loaded.Err? {
        return Err(loaded.error);
      }
      var app := new App(loaded.value);
      return Ok(app);
    }

    /** The pods-plus-deployments total that `get_list_length` and the details scroll
        each count with a loop over the analysed namespaces. */
    static method CountComponents(analyses: seq<K.NamespaceAnalysis>) returns (count: nat)
      ensures count == ComponentCount(analyses)
    {
      count := 0;
      for k := 0 to |analyses|
        invariant count == ComponentCount(analyses[..k])
      {
        assert analyses[..k + 1][..k] == analyses[..k];
        count := count + |analyses[k].pods| + |analyses[k].deployments|;
      }
      assert analyses[..|analyses|] == analyses;
    }

    /** The scan of `output/<namespace>` for subdirectories holding logs. */
    static method ScanLogComponents(fs: Fs, namespace: string) returns (components: seq<string>)
      ensures components == LogComponents(fs, namespace)
    {
      components := [];
      var namespaceDir := NamespaceDir(namespace);
      var listing := ReadDir(fs, namespaceDir);
      if listing.Ok? {
        var entries := listing.value;
        for k := 0 to |entries|
          invariant components == LogDirs(fs, namespaceDir, entries[..k])
        {
          assert entries[..k + 1][..k] == entries[..k];
          var entry := entries[k];
          if entry.isDir {
            var componentPath := Join(namespaceDir, entry.name);
            var hasLogs := Exists(fs, Join(componentPath, "logs.txt"))
              || Exists(fs, Join(componentPath, "log.txt"))
              || Exists(fs, Join(componentPath, "logs.json"));
            if hasLogs {
              components := components + [entry.name];
            }
          }
        }
        assert entries[..|entries|] == entries;
      }
    }

    /** `get_list_length`. */
    method GetListLength(fs: Fs) returns (len: nat)
      ensures len == ListLength(View(), fs)
    {
      match currentScreen
      case MainMenu => len := 5;
      case NamespaceList => len := |namespaces|;
      case NamespaceDetails => len := 3;
      case PodsList => len := |pods|;
      case DeploymentsList => len := |deployments|;
      case ClusterAnalysis =>
        len := 0;
        if clusterAnalysis.Some? {
          len := CountComponents(clusterAnalysis.value.namespaces);
        }
      case LogsList =>
        len := 0;
        if selectedNamespace.Some? {
          len := CountLogComponents(fs, selectedNamespace.value);
        }
      case _ => len := 0;
    }

    /** The log-directory count of `get_list_length`: the subdirectories of the namespace
        directory that hold a log file, or 0 when it cannot be listed. */
    static method CountLogComponents(fs: Fs, namespace: string) returns (len: nat)
      ensures len == |LogComponents(fs, namespace)|
    {
      len := 0;
      var namespaceDir := NamespaceDir(namespace);
      var listing := ReadDir(fs, namespaceDir);
      if listing.Ok? {
        var entries := listing.value;
        for k := 0 to |entries|
          invariant len == |LogDirs(fs, namespaceDir, entries[..k])|
        {
          assert entries[..k + 1] == entries[..k] + [entries[k]];
          LogDirsSnoc(fs, namespaceDir, entries[..k], entries[k]);
          if entries[k].isDir && HasLogs(fs, Join(namespaceDir, entries[k].name)) {
            len := len + 1;
          }
        }
        assert entries[..|entries|] == entries;
      }
    }

    /** `next`. */
    method Next(fs: Fs)
      modifies this
      ensures View() == AfterNext(old(View()), fs)
    {
      var len := GetListLength(fs);
      if len == 0 {
        return;
      }
      var i := match listState case Some(i) => (i + 1) % len case None => 0;
      listState := Some(i);
    }

    /** `previous`. */
    method Previous(fs: Fs)
      modifies this
      ensures View() == AfterPrevious(old(View()), fs)
    {
      var len := GetListLength(fs);
      if len == 0 {
        return;
      }
      var i := match listState case Some(i) => (i + len - 1) % len case None => 0;
      listState := Some(i);
    }

    /** `scroll_logs_down`. */
    method ScrollLogsDown()
      modifies this
      ensures View() == AfterScrollLogsDown(old(View()))
    {
      if currentLogs.Some? {
        var len := |currentLogs.value.entries|;
        if len == 0 {
          return;
        }
        var i := match logsScrollState case Some(i) => (i + 1) % len case None => 0;
        logsScrollState := Some(i);
      }
    }

    /** `scroll_logs_up`. */
    method ScrollLogsUp()
      modifies this
      ensures View() == AfterScrollLogsUp(old(View()))
    {
      if currentLogs.Some? {
        var len := |currentLogs.value.entries|;
        if len == 0 {
          return;
        }
        var i := match logsScrollState case Some(i) => (i + len - 1) % len case None => 0;
        logsScrollState := Some(i);
      }
    }

    /** `scroll_details_down`. */
    method ScrollDetailsDown()
      modifies this
      ensures View() == AfterScrollDetailsDown(old(View()))
    {
      if clusterAnalysis.Some? {
        var totalItems := CountComponents(clusterAnalysis.value.namespaces);
        if totalItems == 0 {
          return;
        }
        var i := match detailsScrollState case Some(i) => (i + 1) % totalItems case None => 0;
        detailsScrollState := Some(i);
      }
    }

    /** `scroll_details_up`. */
    method ScrollDetailsUp()
      modifies this
      ensures View() == AfterScrollDetailsUp(old(View()))
    {
      if clusterAnalysis.Some? {
        var totalItems := CountComponents(clusterAnalysis.value.namespaces);
        if totalItems == 0 {
          return;
        }
        var i := match detailsScrollState case Some(i) => (i + totalItems - 1) % totalItems case None => 0;
        detailsScrollState := Some(i);
      }
    }

    /** `toggle_log_filter`. */
    method ToggleLogFilter(filter: string)
      modifies this
      ensures View() == AfterToggleLogFilter(old(View()), filter)
    {
      if logFilter == Some(filter) {
        logFilter := None;
      } else {
        logFilter := Some(filter);
      }
      logsScrollState := Some(0);
    }

    /** `back`. */
    method Back()
      modifies this
      ensures View() == AfterBack(old(View()))
    {
      ghost var before := View();
      match currentScreen {
        case NamespaceList | ClusterAnalysis | Capybara =>
          currentScreen := MainMenu;
          showCapybara := false;
        case NamespaceDetails =>
          currentScreen := NamespaceList;
        case PodsList | DeploymentsList =>
          currentScreen := NamespaceDetails;
        case ComponentDetails =>
          match selectedComponent {
            case Some((_, componentType)) =>
              if componentType == "Pod" {
                currentScreen := PodsList;
              } else if componentType == "Deployment" {
                currentScreen := DeploymentsList;
              } else {
                currentScreen := ClusterAnalysis;
              }
            case None =>
              currentScreen := ClusterAnalysis;
          }
          selectedComponent := None;
        case LogsList =>
          currentScreen := NamespaceDetails;
        case LogsViewer =>
          currentScreen := LogsList;
          currentLogs := None;
          logFilter := None;
        case MainMenu =>
      }
      assert View() == BackMove(before);
      listState := Some(0);
      logsScrollState := Some(0);
      detailsScrollState := Some(0);
    }

    /** `select`. */
    method Select(fs: Fs) returns (r: Result<(), AppError>)
      modifies this
      ensures (View(), r) == AfterSelect(old(View()), fs)
    {
      match currentScreen
      case MainMenu => r := HandleMainMenuSelection(fs);
      case NamespaceList => r := HandleNamespaceSelection(fs);
      case NamespaceDetails => r := HandleNamespaceDetailsSelection();
      case ClusterAnalysis => r := HandleClusterAnalysisSelection();
      case LogsList => r := HandleLogsListSelection(fs);
      case PodsList => r := HandlePodsListSelection();
      case DeploymentsList => r := HandleDeploymentsListSelection();
      case _ => r := Ok(());
    }

    /** `handle_main_menu_selection`. */
    method HandleMainMenuSelection(fs: Fs) returns (r: Result<(), AppError>)
      modifies this
      ensures (View(), r) == AfterMainMenuSelection(old(View()), fs)
    {
      if listState.Some? {
        var selected := listState.value;
        if selected == 0 {
          var analysis := K.AnalyzeCluster(fs);
          if analysis.Err? {
            return Err(analysis.error);
          }
          clusterAnalysis := Some(analysis.value);
          currentScreen := ClusterAnalysis;
        } else if selected == 1 {
          currentScreen := NamespaceList;
        } else if selected == 2 {
          currentScreen := Capybara;
          showCapybara := true;
        } else if selected == 4 {
          return Err(ExitRequest);
        }
      }
      return Ok(());
    }

    /** `handle_namespace_selection`. */
    method HandleNamespaceSelection(fs: Fs) returns (r: Result<(), AppError>)
      modifies this
      ensures (View(), r) == AfterNamespaceSelection(old(View()), fs)
    {
      if listState.Some? {
        var selected := listState.value;
        if selected < |namespaces| {
          var name := namespaces[selected].name;
          selectedNamespace := Some(name);
          var loadedPods := K.LoadPods(fs, name);
          if loadedPods.Err? {
            return Err(loadedPods.error);
          }
          pods := loadedPods.value;
          var loadedDeployments := K.LoadDeployments(fs, name);
          if loadedDeployments.Err? {
            return Err(loadedDeployments.error);
          }
          deployments := loadedDeployments.value;
          currentScreen := NamespaceDetails;
        }
      }
      return Ok(());
    }

    /** `handle_namespace_details_selection`. */
    method HandleNamespaceDetailsSelection() returns (r: Result<(), AppError>)
      modifies this
      ensures View() == AfterNamespaceDetailsSelection(old(View())) && r == Ok(())
    {
      if listState == Some(0) {
        currentScreen := PodsList;
      } else if listState == Some(1) {
        currentScreen := DeploymentsList;
      } else if listState == Some(2) {
        currentScreen := LogsList;
      }
      return Ok(());
    }

    /** `handle_pods_list_selection`. */
    method HandlePodsListSelection() returns (r: Result<(), AppError>)
      modifies this
      ensures View() == AfterPodsListSelection(old(View())) && r == Ok(())
    {
      if listState.Some? && listState.value < |pods| {
        selectedComponent := Some((pods[listState.value].name, "Pod"));
        currentScreen := ComponentDetails;
      }
      return Ok(());
    }

    /** `handle_deployments_list_selection`. */
    method HandleDeploymentsListSelection() returns (r: Result<(), AppError>)
      modifies this
      ensures View() == AfterDeploymentsListSelection(old(View())) && r == Ok(())
    {
      if listState.Some? && listState.value < |deployments| {
        selectedComponent := Some((deployments[listState.value].name, "Deployment"));
        currentScreen := ComponentDetails;
      }
      return Ok(());
    }

    /** The collection loop of `handle_cluster_analysis_selection`: per namespace, its pods
        and then its deployments, as (name, type) pairs. */
    static method CollectComponents(analyses: seq<K.NamespaceAnalysis>) returns (allComponents: seq<(string, string)>)
      ensures allComponents == Components(analyses)
    {
      allComponents := [];
      for k := 0 to |analyses|
        invariant allComponents == Components(analyses[..k])
      {
        assert analyses[..k + 1][..k] == analyses[..k];
        allComponents := PushPods(allComponents, analyses[k].pods);
        allComponents := PushDeployments(allComponents, analyses[k].deployments);
      }
      assert analyses[..|analyses|] == analyses;
    }

    /** The inner pod loop: one (name, "Pod") pair per pod. */
    static method PushPods(acc: seq<(string, string)>, pods: seq<K.PodInfo>) returns (r: seq<(string, string)>)
      ensures r == acc + PodRefs(pods)
    {
      r := acc;
      for p := 0 to |pods|
        invariant r == acc + PodRefs(pods[..p])
      {
        assert pods[..p + 1][..p] == pods[..p];
        r := r + [(pods[p].name, "Pod")];
      }
      assert pods[..|pods|] == pods;
    }

    /** The inner deployment loop: one (name, "Deployment") pair per deployment. */
    static method PushDeployments(acc: seq<(string, string)>, deployments: seq<K.DeploymentInfo>)
      returns (r: seq<(string, string)>)
      ensures r == acc + DeploymentRefs(deployments)
    {
      r := acc;
      for d := 0 to |deployments|
        invariant r == acc + DeploymentRefs(deployments[..d])
      {
        assert deployments[..d + 1][..d] == deployments[..d];
        r := r + [(deployments[d].name, "Deployment")];
      }
      assert deployments[..|deployments|] == deployments;
    }

    /** `handle_cluster_analysis_selection`. */
    method HandleClusterAnalysisSelection() returns (r: Result<(), AppError>)
      modifies this
      ensures View() == AfterClusterAnalysisSelection(old(View())) && r == Ok(())
    {
      if listState.Some? && clusterAnalysis.Some? {
        var selected := listState.value;
        var allComponents := CollectComponents(clusterAnalysis.value.namespaces);
        if selected < |allComponents| {
          selectedComponent := Some(allComponents[selected]);
          currentScreen := ComponentDetails;
        }
      }
      return Ok(());
    }

    /** `handle_logs_list_selection`. */
    method HandleLogsListSelection(fs: Fs) returns (r: Result<(), AppError>)
      modifies this
      ensures View() == AfterLogsListSelection(old(View()), fs) && r == Ok(())
    {
      if listState.Some? && selectedNamespace.Some? {
        var selected := listState.value;
        var namespace := selectedNamespace.value;
        var logComponents := ScanLogComponents(fs, namespace);
        if selected < |logComponents| {
          var componentName := logComponents[selected];
          selectedComponent := Some((componentName, "Component"));
          var loaded := L.LoadPodLogs(fs, namespace, componentName);
          if loaded.Ok? {
            currentLogs := Some(loaded.value);
            currentScreen := LogsViewer;
          }
        }
      }
      return Ok(());
    }
  }

  // ================================================================ properties

  /** `back` follows the transition table and always puts all three selections on row 0. */
  lemma BackTable(s: AppState)
    ensures AfterBack(s).listState == Some(0) && AfterBack(s).logsScrollState == Some(0)
      && AfterBack(s).detailsScrollState == Some(0)
    ensures s.currentScreen in {NamespaceList, ClusterAnalysis, Capybara} ==>
      AfterBack(s).currentScreen == MainMenu && !AfterBack(s).showCapybara
    ensures s.currentScreen == NamespaceDetails ==> AfterBack(s).currentScreen == NamespaceList
    ensures s.currentScreen in {PodsList, DeploymentsList, LogsList} ==>
      AfterBack(s).currentScreen == NamespaceDetails
    ensures s.currentScreen == LogsViewer ==>
      AfterBack(s).currentScreen == LogsList && AfterBack(s).currentLogs.None? && AfterBack(s).logFilter.None?
    ensures s.currentScreen == ComponentDetails ==>
      AfterBack(s).currentScreen in {PodsList, DeploymentsList, ClusterAnalysis} && AfterBack(s).selectedComponent.None?
    ensures s.currentScreen == ComponentDetails && s.selectedComponent.Some? && s.selectedComponent.value.1 == "Pod" ==>
      AfterBack(s).currentScreen == PodsList
    ensures s.currentScreen == ComponentDetails && s.selectedComponent.Some? && s.selectedComponent.value.1 == "Deployment" ==>
      AfterBack(s).currentScreen == DeploymentsList
    ensures s.currentScreen == ComponentDetails && (s.selectedComponent.None? || s.selectedComponent.value.1 !in {"Pod", "Deployment"}) ==>
      AfterBack(s).currentScreen == ClusterAnalysis
    ensures s.currentScreen == MainMenu ==> AfterBack(s).currentScreen == MainMenu
    ensures s.currentScreen != LogsViewer ==> AfterBack(s).currentLogs == s.currentLogs && AfterBack(s).logFilter == s.logFilter
    ensures AfterBack(s).namespaces == s.namespaces && AfterBack(s).pods == s.pods
      && AfterBack(s).deployments == s.deployments && AfterBack(s).clusterAnalysis == s.clusterAnalysis
      && AfterBack(s).selectedNamespace == s.selectedNamespace
  {
  }

  /** A component picked on the cluster analysis screen is recorded as a pod or a
      deployment, so Back from its details goes to the pods or deployments list rather
      than to the analysis it came from. */
  lemma BackFromAnalysisPick(s: AppState)
    requires s.currentScreen == ClusterAnalysis
    requires AfterClusterAnalysisSelection(s).currentScreen == ComponentDetails
    ensures AfterBack(AfterClusterAnalysisSelection(s)).currentScreen in {PodsList, DeploymentsList}
  {
    var i := s.listState.value;
    var components := Components(s.clusterAnalysis.value.namespaces);
    ComponentsCounted(s.clusterAnalysis.value.namespaces);
    assert components[i] in components;
  }

  /** On the cluster analysis screen, Enter opens the details of a component exactly when
      the selection is one of the rows Up and Down move through, and it opens the component
      at that position of the flattened list. */
  lemma AnalysisSelectionInRange(s: AppState, fs: Fs)
    requires s.currentScreen == ClusterAnalysis && s.clusterAnalysis.Some? && s.listState.Some?
    ensures AfterClusterAnalysisSelection(s).currentScreen == ComponentDetails
      <==> s.listState.value < ListLength(s, fs)
    ensures s.listState.value < ListLength(s, fs) ==>
      AfterClusterAnalysisSelection(s).selectedComponent
        == Some(Components(s.clusterAnalysis.value.namespaces)[s.listState.value])
  {
    ComponentsCounted(s.clusterAnalysis.value.namespaces);
  }

  /** The main menu's Enter changes only the screen, the analysis and the easter egg flag. */
  lemma MainMenuSelectionFrame(s: AppState, fs: Fs)
    ensures var t := AfterMainMenuSelection(s, fs).0;
      t == s.(currentScreen := t.currentScreen, clusterAnalysis := t.clusterAnalysis, showCapybara := t.showCapybara)
  {
  }

  /** Enter on a namespace changes only the recorded namespace, the pod and deployment
      lists and the screen. */
  lemma NamespaceSelectionFrame(s: AppState, fs: Fs)
    ensures var t := AfterNamespaceSelection(s, fs).0;
      t == s.(currentScreen := t.currentScreen, selectedNamespace := t.selectedNamespace, pods := t.pods,
              deployments := t.deployments)
  {
  }

  /** Enter on a log directory changes only the recorded component, the loaded logs and
      the screen. */
  lemma LogsListSelectionFrame(s: AppState, fs: Fs)
    ensures var t := AfterLogsListSelection(s, fs);
      t == s.(currentScreen := t.currentScreen, selectedComponent := t.selectedComponent, currentLogs := t.currentLogs)
  {
  }

  /** Enter never moves a selection or a scroll position, never touches the namespace
      list or the log filter: only Up, Down, Back and the filter keys do. */
  lemma SelectFrame(s: AppState, fs: Fs)
    ensures var t := AfterSelect(s, fs).0;
      t == s.(currentScreen := t.currentScreen, selectedNamespace := t.selectedNamespace,
              selectedComponent := t.selectedComponent, pods := t.pods, deployments := t.deployments,
              currentLogs := t.currentLogs, clusterAnalysis := t.clusterAnalysis, showCapybara := t.showCapybara)
  {
    match s.currentScreen {
      case MainMenu => MainMenuSelectionFrame(s, fs);
      case NamespaceList => NamespaceSelectionFrame(s, fs);
      case LogsList => LogsListSelectionFrame(s, fs);
      case _ =>
    }
  }

  /** `select` reports the exit request exactly for the main menu's fifth item; every other
      error comes from loading data on the main menu or the namespace list. */
  lemma SelectErrors(s: AppState, fs: Fs)
    ensures AfterSelect(s, fs).1 == Err(ExitRequest) <==> s.currentScreen == MainMenu && s.listState == Some(4)
    ensures AfterSelect(s, fs).1.Err? ==> s.currentScreen in {MainMenu, NamespaceList}
  {
  }

  /** Enter on a namespace records it even when loading its pods or deployments fails,
      and only a complete load opens the namespace details. */
  lemma NamespaceRecordedBeforeLoad(s: AppState, fs: Fs)
    requires s.currentScreen == NamespaceList && s.listState.Some? && s.listState.value < |s.namespaces|
    ensures AfterSelect(s, fs).0.selectedNamespace == Some(s.namespaces[s.listState.value].name)
    ensures AfterSelect(s, fs).1.Ok? <==> AfterSelect(s, fs).0.currentScreen == NamespaceDetails
    ensures AfterSelect(s, fs).1.Err? ==> AfterSelect(s, fs).0.currentScreen == NamespaceList
  {
  }

  /** Enter on a log directory records the component even when its logs fail to load;
      then the screen stays on the list and no error is reported. */
  lemma LogsListRecordedBeforeLoad(s: AppState, fs: Fs)
    requires s.currentScreen == LogsList && s.listState.Some? && s.selectedNamespace.Some?
    requires s.listState.value < |LogComponents(fs, s.selectedNamespace.value)|
    ensures AfterSelect(s, fs).1 == Ok(())
    ensures AfterSelect(s, fs).0.selectedComponent
      == Some((LogComponents(fs, s.selectedNamespace.value)[s.listState.value], "Component"))
    ensures AfterSelect(s, fs).0.currentScreen in {LogsList, LogsViewer}
    ensures var ns := s.selectedNamespace.value;
      var name := LogComponents(fs, ns)[s.listState.value];
      AfterSelect(s, fs).0.currentScreen == LogsViewer <==> L.LoadedLogs(fs, L.PodLogsPath(ns, name), name, "Pod", ns).Ok?
  {
  }

  /** Choosing the same filter twice gives back the filter there was, when that was no
      filter or that same filter; only the scroll position is reset. */
  lemma ToggleTwice(s: AppState, filter: string)
    requires s.logFilter.None? || s.logFilter == Some(filter)
    ensures AfterToggleLogFilter(AfterToggleLogFilter(s, filter), filter) == s.(logsScrollState := Some(0))
  {
  }

  /** Up and Down keep the selection on a row whenever the list has rows. */
  lemma NextPreviousInRange(s: AppState, fs: Fs)
    requires ListLength(s, fs) > 0
    ensures AfterNext(s, fs).listState.Some? && AfterNext(s, fs).listState.value < ListLength(s, fs)
    ensures AfterPrevious(s, fs).listState.Some? && AfterPrevious(s, fs).listState.value < ListLength(s, fs)
  {
    MoveStaysInRange(s.listState, ListLength(s, fs));
  }

  /** Back keeps the consistency facts. */
  lemma BackKeepsConsistent(s: AppState)
    requires Consistent(s)
    ensures Consistent(AfterBack(s))
  {
  }

  /** Enter keeps the consistency facts. */
  lemma SelectKeepsConsistent(s: AppState, fs: Fs)
    requires Consistent(s)
    ensures Consistent(AfterSelect(s, fs).0)
  {
    match s.currentScreen {
      case MainMenu =>
        assert AfterSelect(s, fs) == AfterMainMenuSelection(s, fs);
      case NamespaceList =>
        assert AfterSelect(s, fs) == AfterNamespaceSelection(s, fs);
      case LogsList =>
        assert AfterSelect(s, fs).0 == AfterLogsListSelection(s, fs);
      case _ =>
    }
  }

  /** The selection moves, scrolls and filter toggles keep the consistency facts. */
  lemma MovesKeepConsistent(s: AppState, fs: Fs, filter: string)
    requires Consistent(s)
    ensures Consistent(AfterNext(s, fs)) && Consistent(AfterPrevious(s, fs))
    ensures Consistent(AfterScrollLogsDown(s)) && Consistent(AfterScrollLogsUp(s))
    ensures Consistent(AfterScrollDetailsDown(s)) && Consistent(AfterScrollDetailsUp(s))
    ensures Consistent(AfterToggleLogFilter(s, filter))
  {
  }

  lemma InitialConsistent(namespaces: seq<K.NamespaceInfo>)
    ensures Consistent(Initial(namespaces))
    ensures ListLength(Initial(namespaces), Fs(map[], {}, map[], map[])) == 5
  {
  }
}
