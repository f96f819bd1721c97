/** The event loop of `run_app`: each key event is a transition on the `App` state and
    may end the loop. Drawing and reading events from the terminal are not modelled; the
    events arrive as a sequence. */
module KeyDispatch {
  import opened Wrappers
  import opened Errors
  import opened Snapshot
  import K = Kubernetes
  import L = Logs
  import opened Navigation

  /** The key codes the loop tells apart; every other key is `Other`. */
  datatype Key = Char(c: char) | Esc | Up | Down | Enter | Other

  /** `f` on the viewer: no filter, then error, warning, info, debug, and no filter again.
      The step out of debug, and out of any other value, clears the filter without
      resetting the scroll. */
  function CycleFilter(s: AppState): AppState {
    match s.logFilter
    case None => AfterToggleLogFilter(s, "error")
    case Some(f) =>
      if f == "error" then AfterToggleLogFilter(s, "warning")
      else if f == "warning" then AfterToggleLogFilter(s, "info")
      else if f == "info" then AfterToggleLogFilter(s, "debug")
      else s.(logFilter := None)
  }

  /** Whether an analysed namespace holds the component: among its pods for a "Pod", its
      deployments for a "Deployment", and never for any other type. */
  predicate HoldsComponent(a: K.NamespaceAnalysis, name: string, componentType: string) {
    if componentType == "Pod" then exists p :: p in a.pods && p.name == name
    else if componentType == "Deployment" then exists d :: d in a.deployments && d.name == name
    else false
  }

  /** The position of the first analysed namespace holding the component. */
  function FindComponentNamespace(analyses: seq<K.NamespaceAnalysis>, name: string, componentType: string)
    : (r: Option<nat>)
    ensures r.Some? ==>
      && r.value < |analyses|
      && HoldsComponent(analyses[r.value], name, componentType)
      && forall j :: 0 <= j < r.value ==> !HoldsComponent(analyses[j], name, componentType)
    ensures r.None? ==> forall j :: 0 <= j < |analyses| ==> !HoldsComponent(analyses[j], name, componentType)
    decreases |analyses|
  {
    if analyses == [] then None
    else if HoldsComponent(analyses[0], name, componentType) then Some(0)
    else
      match FindComponentNamespace(analyses[1..], name, componentType)
      case None => None
      case Some(i) => Some(i + 1)
  }

  /** `l` on component details: the logs of the selected component, looked up in the first
      analysed namespace that holds it and loaded as a pod's. Without an analysis, a match
      or a successful load nothing changes. */
  function OpenComponentLogs(s: AppState, fs: Fs): AppState {
    if s.currentScreen != ComponentDetails then s
    else match s.selectedComponent
      case None => s
      case Some((name, componentType)) =>
        match s.clusterAnalysis
        case None => s
        case Some(a) =>
          match FindComponentNamespace(a.namespaces, name, componentType)
          case None => s
          case Some(i) => ShowPodLogs(s, fs, a.namespaces[i].name, name)
  }

  /** The logs of pod `name` in namespace `ns` are loaded and shown, the namespace becoming
      the selected one; a load failure changes nothing. */
  function ShowPodLogs(s: AppState, fs: Fs, ns: string, name: string): AppState {
    match L.LoadedLogs(fs, L.PodLogsPath(ns, name), name, "Pod", ns)
    case Ok(logs) => s.(currentLogs := Some(logs), currentScreen := LogsViewer, selectedNamespace := Some(ns))
    case Err(_) => s
  }

  /** A letter key: `q` quits, `l` opens logs, and the filter letters act on the viewer only. */
  function CharStep(s: AppState, fs: Fs, c: char): (AppState, bool) {
    if c == 'q' then (s, true)
    else if c == 'l' then (OpenComponentLogs(s, fs), false)
    else if s.currentScreen != LogsViewer then (s, false)
    else if c == 'f' then (CycleFilter(s), false)
    else if c == 'e' then (AfterToggleLogFilter(s, "error"), false)
    else if c == 'w' then (AfterToggleLogFilter(s, "warning"), false)
    else if c == 'i' then (AfterToggleLogFilter(s, "info"), false)
    else if c == 'd' then (AfterToggleLogFilter(s, "debug"), false)
    else if c == 'a' then (s.(logFilter := None), false)
    else (s, false)
  }

  /** One pass of the loop: the state after the key and whether the loop ends. */
  function KeyStep(s: AppState, fs: Fs, key: Key): (AppState, bool) {
    match key
    case Char(c) => CharStep(s, fs, c)
    case Esc => if s.currentScreen == MainMenu then (s, true) else (AfterBack(s), false)
    case Down =>
      if s.currentScreen == LogsViewer then (AfterScrollLogsDown(s), false)
      else if s.currentScreen == ComponentDetails then (AfterScrollDetailsDown(s), false)
      else (AfterNext(s, fs), false)
    case Up =>
      if s.currentScreen == LogsViewer then (AfterScrollLogsUp(s), false)
      else if s.currentScreen == ComponentDetails then (AfterScrollDetailsUp(s), false)
      else (AfterPrevious(s, fs), false)
    case Enter =>
      var (t, r) := AfterSelect(s, fs);
      (t, r.Err? && Display(r.error) == "exit")
    case Other => (s, false)
  }

  /** The loop over a sequence of events: the final state and how many events were taken
      before it ended (all of them when no event ends it). */
  function Run(s: AppState, fs: Fs, keys: seq<Key>): (r: (AppState, nat))
    ensures r.1 <= |keys|
    decreases |keys|
  {
    if keys == [] then (s, 0)
    else
      var (t, quit) := KeyStep(s, fs, keys[0]);
      if quit then (t, 1)
      else
        var (u, n) := Run(t, fs, keys[1..]);
        (u, n + 1)
  }

  /** The key handling inside the loop of `run_app`. */
  method HandleKey(app: App, fs: Fs, key: Key) returns (quit: bool)
    modifies app
    ensures (app.View(), quit) == KeyStep(old(app.View()), fs, key)
  {
    quit := false;
    match key {
      case Char(c) =>
        if c == 'q' {
          quit := true;
        } else if c == 'l' {
          OpenLogs(app, fs);
        } else if c == 'f' {
          if app.currentScreen == LogsViewer {
            match app.logFilter {
              case None => app.ToggleLogFilter("error");
              case Some(f) =>
                if f == "error" {
                  app.ToggleLogFilter("warning");
                } else if f == "warning" {
                  app.ToggleLogFilter("info");
                } else if f == "info" {
                  app.ToggleLogFilter("debug");
                } else {
                  app.logFilter := None;
                }
            }
          }
        } else if c == 'e' || c == 'w' || c == 'i' || c == 'd' {
          if app.currentScreen == LogsViewer {
            var filter := if c == 'e' then "error" else if c == 'w' then "warning" else if c == 'i' then "info" else "debug";
            app.ToggleLogFilter(filter);
          }
        } else if c == 'a' {
          if app.currentScreen == LogsViewer {
            app.logFilter := None;
          }
        }
      case Esc =>
        if app.currentScreen == MainMenu {
          quit := true;
        } else {
          app.Back();
        }
      case Down =>
        if app.currentScreen == LogsViewer {
          app.ScrollLogsDown();
        } else if app.currentScreen == ComponentDetails {
          app.ScrollDetailsDown();
        } else {
          app.Next(fs);
        }
      case Up =>
        if app.currentScreen == LogsViewer {
          app.ScrollLogsUp();
        } else if app.currentScreen == ComponentDetails {
          app.ScrollDetailsUp();
        } else {
          app.Previous(fs);
        }
      case Enter =>
        var r := app.Select(fs);
        if r.Err? && Display(r.error) == "exit" {
          quit := true;
        }
      case Other =>
    }
  }

  /** The `l` branch: load the logs of the selected component from the first analysed
      namespace that holds it. */
  method OpenLogs(app: App, fs: Fs)
    modifies app
    ensures app.View() == OpenComponentLogs(old(app.View()), fs)
  {
    if app.currentScreen == ComponentDetails && app.selectedComponent.Some? && app.clusterAnalysis.Some? {
      var (name, componentType) := app.selectedComponent.value;
      var analyses := app.clusterAnalysis.value.namespaces;
      var found := FindNamespace(analyses, name, componentType);
      if found.Some? {
        ShowLogs(app, fs, analyses[found.value].name, name);
      }
    }
  }

  method ShowLogs(app: App, fs: Fs, namespace: string, name: string)
    modifies app
    ensures app.View() == ShowPodLogs(old(app.View()), fs, namespace, name)
  {
    var loaded := L.LoadPodLogs(fs, namespace, name);
    if loaded.Ok? {
      app.currentLogs := Some(loaded.value);
      app.currentScreen := LogsViewer;
      app.selectedNamespace := Some(namespace);
    }
  }

  /** The scan of the `l` branch over the analysed namespaces, stopping at the first one
      that holds the component. */
  method FindNamespace(analyses: seq<K.NamespaceAnalysis>, name: string, componentType: string)
    returns (r: Option<nat>)
    ensures r == FindComponentNamespace(analyses, name, componentType)
  {
    var k := 0;
    while k < |analyses|
      invariant k <= |analyses|
      invariant forall j :: 0 <= j < k ==> !HoldsComponent(analyses[j], name, componentType)
    {
      var found := match componentType
        case "Pod" => exists p :: p in analyses[k].pods && p.name == name
        case "Deployment" => exists d :: d in analyses[k].deployments && d.name == name
        case _ => false;
      if found {
        return Some(k);
      }
      k := k + 1;
    }
    return None;
  }

  /** `run_app` without the drawing: handle events in order until one ends the loop;
      `consumed` counts the events taken. */
  method RunApp(app: App, fs: Fs, keys: seq<Key>) returns (consumed: nat)
    modifies app
    ensures (app.View(), consumed) == Run(old(app.View()), fs, keys)
  {
    consumed := 0;
    while consumed < |keys|
      invariant consumed <= |keys|
      invariant Run(old(app.View()), fs, keys) == (Run(app.View(), fs, keys[consumed..]).0,
                                                   Run(app.View(), fs, keys[consumed..]).1 + consumed)
      decreases |keys| - consumed
    {
      assert keys[consumed..][1..] == keys[consumed + 1..];
      var quit := HandleKey(app, fs, keys[consumed]);
      consumed := consumed + 1;
      if quit {
        return;
      }
    }
  }

  // ================================================================ properties

  /** The loop ends on `q` anywhere, on Esc only on the main menu, and on Enter only when
      the main menu's Exit item is selected; every other error from Enter is swallowed. */
  lemma QuitRule(s: AppState, fs: Fs, key: Key)
    ensures KeyStep(s, fs, key).1 <==>
      || key == Char('q')
      || (key == Esc && s.currentScreen == MainMenu)
      || (key == Enter && s.currentScreen == MainMenu && s.listState == Some(4))
  {
    if key == Enter {
      SelectErrors(s, fs);
      var r := AfterSelect(s, fs).1;
      if r.Err? {
        DisplayIsExit(r.error);
      }
    }
  }

  function Press(s: AppState, fs: Fs, key: Key): AppState {
    KeyStep(s, fs, key).0
  }

  /** On the viewer without a filter, `f` walks through error, warning, info and debug,
      and the fifth press clears the filter again. */
  lemma FilterCycle(s: AppState, fs: Fs)
    requires s.currentScreen == LogsViewer && s.logFilter.None?
    ensures var s1 := Press(s, fs, Char('f'));
      var s2 := Press(s1, fs, Char('f'));
      var s3 := Press(s2, fs, Char('f'));
      var s4 := Press(s3, fs, Char('f'));
      var s5 := Press(s4, fs, Char('f'));
      && s1.logFilter == Some("error") && s2.logFilter == Some("warning")
      && s3.logFilter == Some("info") && s4.logFilter == Some("debug")
      && s5.logFilter.None? && s5.currentScreen == LogsViewer
  {
    var s1 := Press(s, fs, Char('f'));
    assert s1.logFilter == Some("error");
    var s2 := Press(s1, fs, Char('f'));
    assert s2.logFilter == Some("warning");
    var s3 := Press(s2, fs, Char('f'));
    assert s3.logFilter == Some("info");
    var s4 := Press(s3, fs, Char('f'));
    assert s4.logFilter == Some("debug");
  }

  /** Off the viewer the filter letters do nothing; on it, `a` and the step out of debug
      clear the filter but keep the scroll, while the other filter letters toggle their
      filter and put the scroll back to the top. */
  lemma FilterKeys(s: AppState, fs: Fs, c: char)
    requires c in "fewida"
    ensures s.currentScreen != LogsViewer ==> KeyStep(s, fs, Char(c)) == (s, false)
    ensures s.currentScreen == LogsViewer && c == 'a' ==> KeyStep(s, fs, Char(c)) == (s.(logFilter := None), false)
    ensures s.currentScreen == LogsViewer && c == 'f' && s.logFilter == Some("debug") ==>
      KeyStep(s, fs, Char(c)) == (s.(logFilter := None), false)
    ensures s.currentScreen == LogsViewer && c in "ewid" ==>
      && Press(s, fs, Char(c)).logsScrollState == Some(0)
      && Press(s, fs, Char(c)).logFilter.Some? != (s.logFilter == Some(FilterName(c)))
  {
  }

  /** The filter each toggle letter names. */
  function FilterName(c: char): string {
    if c == 'e' then "error" else if c == 'w' then "warning" else if c == 'i' then "info" else "debug"
  }

  /** `l` opens the logs found in the first analysed namespace holding the component and
      records that namespace; it acts on component details only. */
  lemma OpenLogsFirstMatch(s: AppState, fs: Fs)
    requires s.currentScreen == ComponentDetails
    requires Press(s, fs, Char('l')).currentScreen == LogsViewer
    ensures var (name, t) := s.selectedComponent.value;
      var i := FindComponentNamespace(s.clusterAnalysis.value.namespaces, name, t).value;
      var ns := s.clusterAnalysis.value.namespaces[i].name;
      && Press(s, fs, Char('l')).selectedNamespace == Some(ns)
      && Press(s, fs, Char('l')).currentLogs == Some(L.LoadedLogs(fs, L.PodLogsPath(ns, name), name, "Pod", ns).value)
      && HoldsComponent(s.clusterAnalysis.value.namespaces[i], name, t)
  {
  }

  /** Every key keeps the consistency facts. */
  lemma KeyStepKeepsConsistent(s: AppState, fs: Fs, key: Key)
    requires Consistent(s)
    ensures Consistent(KeyStep(s, fs, key).0)
  {
    match key {
      case Esc => BackKeepsConsistent(s);
      case Enter => SelectKeepsConsistent(s, fs);
      case Up => MovesKeepConsistent(s, fs, "");
      case Down => MovesKeepConsistent(s, fs, "");
      case _ =>
    }
  }

  /** However many events the loop handles, the consistency facts hold at its end. */
  lemma {:induction false} RunKeepsConsistent(s: AppState, fs: Fs, keys: seq<Key>)
    requires Consistent(s)
    ensures Consistent(Run(s, fs, keys).0)
    decreases |keys|
  {
    if keys != [] {
      KeyStepKeepsConsistent(s, fs, keys[0]);
      var (t, quit) := KeyStep(s, fs, keys[0]);
      if !quit {
        RunKeepsConsistent(t, fs, keys[1..]);
      }
    }
  }

  /** From the start state, every sequence of events leaves a consistent state: the
      viewer always has logs, the details screen always a component, and the easter egg
      flag is up exactly on its screen. */
  lemma ReachableConsistent(namespaces: seq<K.NamespaceInfo>, fs: Fs, keys: seq<Key>)
    ensures Consistent(Run(Initial(namespaces), fs, keys).0)
  {
    InitialConsistent(namespaces);
    RunKeepsConsistent(Initial(namespaces), fs, keys);
  }
}
