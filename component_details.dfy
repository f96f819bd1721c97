/** The component details screen of `src/ui/component_details.rs`: where a selected pod or
    deployment is looked up, and the lines shown for it, with their health verdicts. The
    text of each line is abstracted into a `DetailLine` value that keeps what the line
    says; emoji, labels and colours are presentation. */
module ComponentDetails {
  import opened Wrappers
  import opened Strings
  import K = Kubernetes
  import Navigation

  // ================================================================ lines

  datatype Icon = Green | White | Red

  datatype Health = Healthy | ScaledToZero | Unhealthy

  datatype Issue =
    | NotReady                              // the pod is not ready to serve traffic
    | NotRunning(status: string)            // the pod's status is not "Running"
    | CompleteOutage                        // no replica is ready
    | PartialOutage(ready: nat, desired: nat)

  datatype Section =
    | PodInformation | ResourceInformation | ContainerInformation | HealthStatus | DebugInformation
    | DeploymentInformation | DeploymentStrategy | ContainerImage

  datatype Label =
    | Name | Namespace | CpuUsage | MemoryUsage | RestartCount | Image | UpdateStrategy
    | ImageName | Tag | LoadedFrom | ComponentType | SearchedFor | LoadedCount

  /** One line of the details list. A `Field` whose value is `None` reads "Not available". */
  datatype DetailLine =
    | Heading(section: Section)
    | Blank
    | Field(kind: Label, value: Option<string>)
    | Status(icon: Icon, status: string)
    | Ready(ready: bool)
    | Restarts(warning: bool, count: string)
    | Replicas(icon: Icon, readyReplicas: nat, desiredReplicas: nat)
    | Availability(fraction: Option<(nat, nat)>)   // ready out of desired; `None` when scaled to 0
    | OverallHealth(health: Health)
    | Explanation(health: Health)                  // the sentence under a healthy or scaled-down verdict
    | IssueLine(issue: Issue)
    | NotFound(componentType: string)
    | CurrentNamespace(namespace: Option<string>)
    | NoDetails

  // ================================================================ pods

  predicate PodHealthy(pod: K.PodInfo) {
    pod.ready && pod.status == "Running"
  }

  /** The restart line: a warning exactly when the count reads as an `i32` above zero; a
      count that does not parse counts as zero. */
  function RestartLine(restartCount: Option<string>): DetailLine {
    match restartCount
    case None => Field(RestartCount, None)
    case Some(count) => Restarts(ParseI32(count).GetOr(0) > 0, count)
  }

  /** The health section of a pod: healthy, or one issue per failing condition. */
  function PodHealthLines(pod: K.PodInfo): seq<DetailLine> {
    if pod.ready && pod.status == "Running" then [OverallHealth(Healthy), Explanation(Healthy)]
    else
      [OverallHealth(Unhealthy)]
      + (if !pod.ready then [IssueLine(NotReady)] else [])
      + (if pod.status != "Running" then [IssueLine(NotRunning(pod.status))] else [])
  }

  /** The closing lines of every details list: a blank, the debug heading and where the
      object was loaded from. */
  function DebugLines(namespace: string): seq<DetailLine> {
    [Blank, Heading(DebugInformation), Field(LoadedFrom, Some(namespace))]
  }

  function HealthHeading(): seq<DetailLine> {
    [Blank, Heading(HealthStatus)]
  }

  function PodBasics(pod: K.PodInfo, namespace: string): seq<DetailLine> {
    [ Heading(PodInformation), Blank, Field(Name, Some(pod.name)), Field(Namespace, Some(namespace)),
      Status(if pod.status == "Running" && pod.ready then Green else Red, pod.status), Ready(pod.ready) ]
  }

  function PodResources(pod: K.PodInfo): seq<DetailLine> {
    [ Blank, Heading(ResourceInformation), Field(CpuUsage, pod.cpuUsage), Field(MemoryUsage, pod.memoryUsage),
      RestartLine(pod.restartCount) ]
  }

  function PodContainer(pod: K.PodInfo): seq<DetailLine> {
    [Blank, Heading(ContainerInformation), Field(Image, pod.image)]
  }

  /** `create_pod_detail_lines`. */
  function PodDetailLines(pod: K.PodInfo, namespace: string): seq<DetailLine> {
    PodBasics(pod, namespace) + PodResources(pod) + PodContainer(pod) + HealthHeading() + PodHealthLines(pod)
    + DebugLines(namespace)
  }

  /** The lines are appended group by group, as the source pushes them. */
  method CreatePodDetailLines(pod: K.PodInfo, namespace: string) returns (lines: seq<DetailLine>)
    ensures lines == PodDetailLines(pod, namespace)
  {
    lines := [Heading(PodInformation), Blank, Field(Name, Some(pod.name)), Field(Namespace, Some(namespace))];
    var statusIcon := if pod.status == "Running" && pod.ready then Green else Red;
    lines := lines + [Status(statusIcon, pod.status), Ready(pod.ready)];
    assert lines == PodBasics(pod, namespace);
    var restartLine;
    match pod.restartCount {
      case Some(count) =>
        var parsed := ParseI32(count).GetOr(0);
        restartLine := Restarts(parsed > 0, count);
      case None =>
        restartLine := Field(RestartCount, None);
    }
    lines := lines + [Blank, Heading(ResourceInformation), Field(CpuUsage, pod.cpuUsage), Field(MemoryUsage, pod.memoryUsage), restartLine];
    lines := lines + [Blank, Heading(ContainerInformation), Field(Image, pod.image)];
    lines := lines + [Blank, Heading(HealthStatus)];
    ghost var beforeHealth := lines;
    if pod.ready && pod.status == "Running" {
      lines := lines + [OverallHealth(Healthy), Explanation(Healthy)];
    } else {
      lines := lines + [OverallHealth(Unhealthy)];
      if !pod.ready {
        lines := lines + [IssueLine(NotReady)];
      }
      if pod.status != "Running" {
        lines := lines + [IssueLine(NotRunning(pod.status))];
      }
    }
    assert lines == beforeHealth + PodHealthLines(pod);
    lines := lines + [Blank, Heading(DebugInformation), Field(LoadedFrom, Some(namespace))];
  }

  /** The health verdict, its issues and the status icon all agree: healthy exactly when
      the pod is ready and running, with one issue line for each condition that fails. */
  lemma PodHealthAgrees(pod: K.PodInfo, namespace: string)
    ensures OverallHealth(Healthy) in PodDetailLines(pod, namespace) <==> PodHealthy(pod)
    ensures OverallHealth(Unhealthy) in PodDetailLines(pod, namespace) <==> !PodHealthy(pod)
    ensures IssueLine(NotReady) in PodDetailLines(pod, namespace) <==> !pod.ready
    ensures IssueLine(NotRunning(pod.status)) in PodDetailLines(pod, namespace) <==> pod.status != "Running"
    ensures Status(Green, pod.status) in PodDetailLines(pod, namespace) <==> PodHealthy(pod)
  {
    HealthOnlyInHealthSection(pod, namespace, OverallHealth(Healthy));
    HealthOnlyInHealthSection(pod, namespace, OverallHealth(Unhealthy));
    HealthOnlyInHealthSection(pod, namespace, IssueLine(NotReady));
    HealthOnlyInHealthSection(pod, namespace, IssueLine(NotRunning(pod.status)));
    assert Status(Green, pod.status) in PodDetailLines(pod, namespace) <==> Status(Green, pod.status) in PodBasics(pod, namespace);
  }

  /** Verdicts and issues appear only in the health section. */
  lemma HealthOnlyInHealthSection(pod: K.PodInfo, namespace: string, line: DetailLine)
    requires line.OverallHealth? || line.IssueLine?
    ensures line in PodDetailLines(pod, namespace) <==> line in PodHealthLines(pod)
  {
    assert line !in PodBasics(pod, namespace);
    assert line !in PodResources(pod);
  }

  /** A restart count printed from a number shows the warning icon exactly when the
      number is positive and fits an `i32`; a larger count is unparsable and reads as no
      restart at all. */
  lemma RestartIcon(n: nat)
    ensures RestartLine(Some(NatToString(n))) == Restarts(0 < n <= I32_MAX, NatToString(n))
  {
    ParseI32OfNat(n);
  }

  // ================================================================ deployments

  /** The health verdict of a deployment. */
  function DeploymentHealth(d: K.DeploymentInfo): Health {
    if d.readyReplicas == d.desiredReplicas && d.desiredReplicas > 0 then Healthy
    else if d.desiredReplicas == 0 then ScaledToZero
    else Unhealthy
  }

  /** The icon of the replica line, decided by its own test in the source. */
  function ReplicaIcon(d: K.DeploymentInfo): Icon {
    if d.readyReplicas == d.desiredReplicas && d.desiredReplicas > 0 then Green
    else if d.desiredReplicas == 0 then White
    else Red
  }

  function HealthIcon(h: Health): Icon {
    match h
    case Healthy => Green
    case ScaledToZero => White
    case Unhealthy => Red
  }

  /** Healthy exactly when every desired replica is ready and at least one is desired;
      scaled to zero exactly when none is desired; unhealthy otherwise. */
  lemma DeploymentHealthCases(d: K.DeploymentInfo)
    ensures DeploymentHealth(d) == Healthy <==> d.readyReplicas == d.desiredReplicas && d.desiredReplicas > 0
    ensures DeploymentHealth(d) == ScaledToZero <==> d.desiredReplicas == 0
    ensures DeploymentHealth(d) == Unhealthy <==> d.desiredReplicas > 0 && d.readyReplicas != d.desiredReplicas
  {
  }

  /** The replica icon shows the health verdict. */
  lemma ReplicaIconAgrees(d: K.DeploymentInfo)
    ensures ReplicaIcon(d) == HealthIcon(DeploymentHealth(d))
  {
  }

  /** The health section of a deployment. */
  function DeploymentHealthLines(d: K.DeploymentInfo): seq<DetailLine> {
    match DeploymentHealth(d)
    case Healthy => [OverallHealth(Healthy), Explanation(Healthy)]
    case ScaledToZero => [OverallHealth(ScaledToZero), Explanation(ScaledToZero)]
    case Unhealthy =>
      [ OverallHealth(Unhealthy),
        IssueLine(if d.readyReplicas == 0 then CompleteOutage else PartialOutage(d.readyReplicas, d.desiredReplicas)) ]
  }

  /** An unhealthy deployment reports a complete outage exactly when no replica is ready.
      A partial outage is reported for any other mismatch, including more ready replicas
      than desired. */
  lemma OutageKinds(d: K.DeploymentInfo)
    requires DeploymentHealth(d) == Unhealthy
    ensures IssueLine(CompleteOutage) in DeploymentHealthLines(d) <==> d.readyReplicas == 0
    ensures IssueLine(PartialOutage(d.readyReplicas, d.desiredReplicas)) in DeploymentHealthLines(d) <==>
      d.readyReplicas > 0
  {
  }

  /** The name and tag shown for an image: the part after the last '/' split at its first
      ':'. An image without a '/' (such as `nginx:1.25`) or without a ':' after its last
      '/' gets neither line. */
  function ImageNameTag(image: string): Option<(string, string)> {
    match LastIndexOfChar(image, '/')
    case None => None
    case Some(slash) => SplitOnce(image[slash + 1..], ':')
  }

  /** What the split recovers: a name without ':' or '/', and a tag without '/', that
      together with the registry path rebuild the image. */
  lemma ImageNameTagParts(image: string, name: string, tag: string)
    requires ImageNameTag(image) == Some((name, tag))
    ensures ':' !in name && '/' !in name && '/' !in tag
    ensures exists path :: image == path + "/" + name + ":" + tag
  {
    var slash := LastIndexOfChar(image, '/').value;
    var path := image[..slash];
    var rest := image[slash + 1..];
    assert rest == name + [':'] + tag;
    RestHasNoSlash(image, slash);
    Rebuild(image, slash, name, tag);
  }

  lemma Rebuild(image: string, slash: nat, name: string, tag: string)
    requires slash < |image| && image[slash] == '/' && image[slash + 1..] == name + [':'] + tag
    ensures image == image[..slash] + "/" + name + ":" + tag
  {
    assert image == image[..slash] + [image[slash]] + image[slash + 1..];
  }

  lemma RestHasNoSlash(image: string, slash: nat)
    requires LastIndexOfChar(image, '/') == Some(slash)
    ensures '/' !in image[slash + 1..]
  {
    var rest := image[slash + 1..];
    forall k | 0 <= k < |rest|
      ensures rest[k] != '/'
    {
      assert rest[k] == image[slash + 1 + k];
    }
  }

  /** And the other way round: an image `<path>/<name>:<tag>` shows that name and tag. */
  lemma ImageNameTagOf(path: string, name: string, tag: string)
    requires ':' !in name && '/' !in name && '/' !in tag
    ensures ImageNameTag(path + "/" + name + ":" + tag) == Some((name, tag))
  {
    var rest := name + ":" + tag;
    var image := path + "/" + rest;
    assert path + "/" + name + ":" + tag == image;
    LastSlash(path, rest);
    assert image[|path| + 1..] == rest;
    SplitOnceAt(name, tag, ':');
  }

  /** The last '/' of `<path>/<rest>` is the one before `rest` when `rest` has none. */
  lemma LastSlash(path: string, rest: string)
    requires '/' !in rest
    ensures LastIndexOfChar(path + "/" + rest, '/') == Some(|path|)
  {
    var s := path + "/" + rest;
    assert s[|path|] == '/';
    var r := LastIndexOfChar(s, '/');
    assert r.Some?;
  }

  /** An image without a '/' never shows a name or tag. */
  lemma NoSlashNoTag(image: string)
    requires '/' !in image
    ensures ImageNameTag(image).None?
  {
  }

  function ImageLines(image: Option<string>): seq<DetailLine> {
    match image
    case None => [Field(Image, None)]
    case Some(i) =>
      [Field(Image, Some(i))]
      + match ImageNameTag(i)
        case Some((name, tag)) => [Field(ImageName, Some(name)), Field(Tag, Some(tag))]
        case None => []
  }

  function DeploymentBasics(d: K.DeploymentInfo, namespace: string): seq<DetailLine> {
    [ Heading(DeploymentInformation), Blank, Field(Name, Some(d.name)), Field(Namespace, Some(namespace)),
      Replicas(ReplicaIcon(d), d.readyReplicas, d.desiredReplicas),
      Availability(if d.desiredReplicas > 0 then Some((d.readyReplicas, d.desiredReplicas)) else None) ]
  }

  function StrategyLines(d: K.DeploymentInfo): seq<DetailLine> {
    [Blank, Heading(DeploymentStrategy), Field(UpdateStrategy, d.strategy), Blank, Heading(ContainerImage)]
  }

  /** `create_deployment_detail_lines`. The availability percentage is kept as the
      fraction it is computed from. */
  function DeploymentDetailLines(d: K.DeploymentInfo, namespace: string): seq<DetailLine> {
    DeploymentBasics(d, namespace) + StrategyLines(d) + ImageLines(d.image) + HealthHeading()
    + DeploymentHealthLines(d) + DebugLines(namespace)
  }

  method CreateDeploymentDetailLines(d: K.DeploymentInfo, namespace: string) returns (lines: seq<DetailLine>)
    ensures lines == DeploymentDetailLines(d, namespace)
  {
    lines := [Heading(DeploymentInformation), Blank, Field(Name, Some(d.name)), Field(Namespace, Some(namespace))];
    var replicaIcon := if d.readyReplicas == d.desiredReplicas && d.desiredReplicas > 0 then Green
      else if d.desiredReplicas == 0 then White
      else Red;
    lines := lines + [Replicas(replicaIcon, d.readyReplicas, d.desiredReplicas)];
    var availability;
    if d.desiredReplicas > 0 {
      availability := Availability(Some((d.readyReplicas, d.desiredReplicas)));
    } else {
      availability := Availability(None);
    }
    lines := lines + [availability];
    assert lines == DeploymentBasics(d, namespace);
    lines := lines + [Blank, Heading(DeploymentStrategy), Field(UpdateStrategy, d.strategy), Blank, Heading(ContainerImage)];
    var imageLines := PushImageLines(d.image);
    lines := lines + imageLines;
    lines := lines + [Blank, Heading(HealthStatus)];
    var healthLines;
    if d.readyReplicas == d.desiredReplicas && d.desiredReplicas > 0 {
      healthLines := [OverallHealth(Healthy), Explanation(Healthy)];
    } else if d.desiredReplicas == 0 {
      healthLines := [OverallHealth(ScaledToZero), Explanation(ScaledToZero)];
    } else if d.readyReplicas == 0 {
      healthLines := [OverallHealth(Unhealthy), IssueLine(CompleteOutage)];
    } else {
      healthLines := [OverallHealth(Unhealthy), IssueLine(PartialOutage(d.readyReplicas, d.desiredReplicas))];
    }
    assert healthLines == DeploymentHealthLines(d);
    lines := lines + healthLines;
    lines := lines + [Blank, Heading(DebugInformation), Field(LoadedFrom, Some(namespace))];
  }

  /** The image lines: the image, then its name and tag when they can be split off. */
  method PushImageLines(image: Option<string>) returns (lines: seq<DetailLine>)
    ensures lines == ImageLines(image)
  {
    match image {
      case Some(i) =>
        lines := [Field(Image, Some(i))];
        var lastSlash := LastIndexOfChar(i, '/');
        if lastSlash.Some? {
          var nameTag := i[lastSlash.value + 1..];
          var colon := IndexOfChar(nameTag, ':');
          if colon.Some? {
            lines := lines + [Field(ImageName, Some(nameTag[..colon.value])), Field(Tag, Some(nameTag[colon.value + 1..]))];
          }
        }
      case None =>
        lines := [Field(Image, None)];
    }
  }

  // ================================================================ lookup

  /** `iter().find` by name: the first element with that name. */
  function FirstNamed<T>(xs: seq<T>, nameOf: T -> string, name: string): (r: Option<nat>)
    ensures r.Some? ==> r.value < |xs| && nameOf(xs[r.value]) == name
    ensures r.Some? ==> forall j :: 0 <= j < r.value ==> nameOf(xs[j]) != name
    ensures r.None? ==> forall j :: 0 <= j < |xs| ==> nameOf(xs[j]) != name
  {
    if xs == [] then None
    else if nameOf(xs[0]) == name then Some(0)
    else match FirstNamed(xs[1..], nameOf, name)
      case None => None
      case Some(k) => Some(k + 1)
  }

  function PodName(p: K.PodInfo): string { p.name }
  function DeploymentName(d: K.DeploymentInfo): string { d.name }
  function PodsOf(a: K.NamespaceAnalysis): seq<K.PodInfo> { a.pods }
  function DeploymentsOf(a: K.NamespaceAnalysis): seq<K.DeploymentInfo> { a.deployments }

  /** The first analysed namespace holding an element of that name, with the element. */
  function AnalysisMatch<T>(analyses: seq<K.NamespaceAnalysis>, part: K.NamespaceAnalysis -> seq<T>,
                            nameOf: T -> string, name: string): (r: Option<(T, string)>)
    ensures r.Some? ==> nameOf(r.value.0) == name
    ensures r.None? ==> forall k, j :: 0 <= k < |analyses| && 0 <= j < |part(analyses[k])| ==>
      nameOf(part(analyses[k])[j]) != name
  {
    if analyses == [] then None
    else match FirstNamed(part(analyses[0]), nameOf, name)
      case Some(j) => Some((part(analyses[0])[j], analyses[0].name))
      case None =>
        var r := AnalysisMatch(analyses[1..], part, nameOf, name);
        assert forall k :: 1 <= k < |analyses| ==> analyses[1..][k - 1] == analyses[k];
        r
  }

  /** `draw_pod_details` / `draw_deployment_details`: the loaded list of the browsed
      namespace first (labelled with the selected namespace, or "unknown"), then the
      analysed namespaces in order. */
  function Lookup<T>(loaded: seq<T>, s: Navigation.AppState, part: K.NamespaceAnalysis -> seq<T>,
                     nameOf: T -> string, name: string): Option<(T, string)> {
    match FirstNamed(loaded, nameOf, name)
    case Some(j) => Some((loaded[j], s.selectedNamespace.GetOr("unknown")))
    case None =>
      match s.clusterAnalysis
      case Some(a) => AnalysisMatch(a.namespaces, part, nameOf, name)
      case None => None
  }

  function PodLookup(s: Navigation.AppState, name: string): Option<(K.PodInfo, string)> {
    Lookup(s.pods, s, PodsOf, PodName, name)
  }

  function DeploymentLookup(s: Navigation.AppState, name: string): Option<(K.DeploymentInfo, string)> {
    Lookup(s.deployments, s, DeploymentsOf, DeploymentName, name)
  }

  /** The lines of the details pane for the current selection. */
  function DetailsView(s: Navigation.AppState): seq<DetailLine> {
    match s.selectedComponent
    case None => [NoDetails]
    case Some((name, componentType)) =>
      if componentType == "Pod" then
        match PodLookup(s, name)
        case Some((pod, namespace)) => PodDetailLines(pod, namespace)
        case None => NotFoundLines("Pod", name, s.selectedNamespace, |s.pods|)
      else if componentType == "Deployment" then
        match DeploymentLookup(s, name)
        case Some((d, namespace)) => DeploymentDetailLines(d, namespace)
        case None => NotFoundLines("Deployment", name, s.selectedNamespace, |s.deployments|)
      else
        [Field(ComponentType, Some(componentType)), Field(Name, Some(name)), Blank, NoDetails]
  }

  function NotFoundLines(componentType: string, name: string, namespace: Option<string>, loaded: nat): seq<DetailLine> {
    [NotFound(componentType), Blank, Field(SearchedFor, Some(name)), CurrentNamespace(namespace),
     Field(LoadedCount, Some(NatToString(loaded)))]
  }

  /** The analysed-namespace search of the lookup, as the source's loop over namespaces. */
  method SearchAnalysis<T>(analyses: seq<K.NamespaceAnalysis>, part: K.NamespaceAnalysis -> seq<T>,
                           nameOf: T -> string, name: string) returns (r: Option<(T, string)>)
    ensures r == AnalysisMatch(analyses, part, nameOf, name)
  {
    var k := 0;
    while k < |analyses|
      invariant 0 <= k <= |analyses|
      invariant AnalysisMatch(analyses[k..], part, nameOf, name) == AnalysisMatch(analyses, part, nameOf, name)
    {
      var found := FirstNamed(part(analyses[k]), nameOf, name);
      if found.Some? {
        return Some((part(analyses[k])[found.value], analyses[k].name));
      }
      assert analyses[k..][1..] == analyses[k + 1..];
      k := k + 1;
    }
    return None;
  }

  /** `draw_component_details`, reduced to the lines it shows. */
  method DrawComponentDetails(app: Navigation.App) returns (lines: seq<DetailLine>)
    ensures lines == DetailsView(app.View())
  {
    if app.selectedComponent.None? {
      return [NoDetails];
    }
    var (name, componentType) := app.selectedComponent.value;
    if componentType == "Pod" {
      var found := FirstNamed(app.pods, PodName, name);
      var result: Option<(K.PodInfo, string)> := None;
      if found.Some? {
        result := Some((app.pods[found.value], app.selectedNamespace.GetOr("unknown")));
      } else if app.clusterAnalysis.Some? {
        result := SearchAnalysis(app.clusterAnalysis.value.namespaces, PodsOf, PodName, name);
      }
      if result.Some? {
        lines := CreatePodDetailLines(result.value.0, result.value.1);
      } else {
        lines := NotFoundLines("Pod", name, app.selectedNamespace, |app.pods|);
      }
    } else if componentType == "Deployment" {
      var found := FirstNamed(app.deployments, DeploymentName, name);
      var result: Option<(K.DeploymentInfo, string)> := None;
      if found.Some? {
        result := Some((app.deployments[found.value], app.selectedNamespace.GetOr("unknown")));
      } else if app.clusterAnalysis.Some? {
        result := SearchAnalysis(app.clusterAnalysis.value.namespaces, DeploymentsOf, DeploymentName, name);
      }
      if result.Some? {
        lines := CreateDeploymentDetailLines(result.value.0, result.value.1);
      } else {
        lines := NotFoundLines("Deployment", name, app.selectedNamespace, |app.deployments|);
      }
    } else {
      lines := [Field(ComponentType, Some(componentType)), Field(Name, Some(name)), Blank, NoDetails];
    }
  }

  // ================================================================ lookup properties

  /** A pod of the browsed namespace shadows any pod of that name in the analysis, and is
      labelled with the selected namespace. */
  lemma LoadedPodsFirst(s: Navigation.AppState, name: string, j: nat)
    requires j < |s.pods| && s.pods[j].name == name
    requires forall i :: 0 <= i < j ==> s.pods[i].name != name
    ensures PodLookup(s, name) == Some((s.pods[j], s.selectedNamespace.GetOr("unknown")))
  {
    FirstNamedAt(s.pods, PodName, name, j);
  }

  lemma FirstNamedAt<T>(xs: seq<T>, nameOf: T -> string, name: string, j: nat)
    requires j < |xs| && nameOf(xs[j]) == name
    requires forall i :: 0 <= i < j ==> nameOf(xs[i]) != name
    ensures FirstNamed(xs, nameOf, name) == Some(j)
  {
    var r := FirstNamed(xs, nameOf, name);
    assert r.Some?;
  }

  /** Otherwise the first analysed namespace holding a pod of that name supplies it, with
      its own name as the namespace. */
  lemma AnalysisFallback(s: Navigation.AppState, name: string, k: nat, j: nat)
    requires forall i :: 0 <= i < |s.pods| ==> s.pods[i].name != name
    requires s.clusterAnalysis.Some? && k < |s.clusterAnalysis.value.namespaces|
    requires var a := s.clusterAnalysis.value.namespaces[k];
      j < |a.pods| && a.pods[j].name == name && forall i :: 0 <= i < j ==> a.pods[i].name != name
    requires forall m, i :: 0 <= m < k && 0 <= i < |s.clusterAnalysis.value.namespaces[m].pods| ==>
      s.clusterAnalysis.value.namespaces[m].pods[i].name != name
    ensures PodLookup(s, name) == Some((s.clusterAnalysis.value.namespaces[k].pods[j], s.clusterAnalysis.value.namespaces[k].name))
  {
    var analyses := s.clusterAnalysis.value.namespaces;
    assert FirstNamed(s.pods, PodName, name).None?;
    FirstMatchAt(analyses, name, k, j);
  }

  lemma {:induction false} FirstMatchAt(analyses: seq<K.NamespaceAnalysis>, name: string, k: nat, j: nat)
    requires k < |analyses|
    requires j < |analyses[k].pods| && analyses[k].pods[j].name == name
    requires forall i :: 0 <= i < j ==> analyses[k].pods[i].name != name
    requires forall m, i :: 0 <= m < k && 0 <= i < |analyses[m].pods| ==> analyses[m].pods[i].name != name
    ensures AnalysisMatch(analyses, PodsOf, PodName, name) == Some((analyses[k].pods[j], analyses[k].name))
    decreases k
  {
    if k == 0 {
      FirstNamedAt(analyses[0].pods, PodName, name, j);
    } else {
      assert FirstNamed(PodsOf(analyses[0]), PodName, name).None?;
      assert analyses[1..][k - 1] == analyses[k];
      FirstMatchAt(analyses[1..], name, k - 1, j);
    }
  }

  /** "Not found" is shown for a pod exactly when no loaded or analysed pod has its name. */
  lemma PodNotFound(s: Navigation.AppState, name: string)
    ensures PodLookup(s, name).None? <==>
      (forall i :: 0 <= i < |s.pods| ==> s.pods[i].name != name) &&
      (s.clusterAnalysis.Some? ==>
         forall k, j :: (0 <= k < |s.clusterAnalysis.value.namespaces| && 0 <= j < |s.clusterAnalysis.value.namespaces[k].pods|)
           ==> s.clusterAnalysis.value.namespaces[k].pods[j].name != name)
  {
    var first := FirstNamed(s.pods, PodName, name);
    if first.Some? {
      assert s.pods[first.value].name == name;
    } else {
      forall i | 0 <= i < |s.pods|
        ensures s.pods[i].name != name
      {
        assert PodName(s.pods[i]) != name;
      }
      if s.clusterAnalysis.Some? {
        var analyses := s.clusterAnalysis.value.namespaces;
        var r := AnalysisMatch(analyses, PodsOf, PodName, name);
        if r.Some? {
          MatchIsMember(analyses, PodsOf, PodName, name);
          var k, j :| 0 <= k < |analyses| && 0 <= j < |PodsOf(analyses[k])| && PodsOf(analyses[k])[j] == r.value.0;
          assert analyses[k].pods[j].name == name;
        } else {
          forall k, j | 0 <= k < |analyses| && 0 <= j < |analyses[k].pods|
            ensures analyses[k].pods[j].name != name
          {
            assert PodName(PodsOf(analyses[k])[j]) != name;
          }
        }
      }
    }
  }

  lemma {:induction false} MatchIsMember<T>(analyses: seq<K.NamespaceAnalysis>, part: K.NamespaceAnalysis -> seq<T>,
                                           nameOf: T -> string, name: string)
    requires AnalysisMatch(analyses, part, nameOf, name).Some?
    ensures exists k, j ::
      && 0 <= k < |analyses| && 0 <= j < |part(analyses[k])|
      && part(analyses[k])[j] == AnalysisMatch(analyses, part, nameOf, name).value.0
      && analyses[k].name == AnalysisMatch(analyses, part, nameOf, name).value.1
    decreases |analyses|
  {
    var r := AnalysisMatch(analyses, part, nameOf, name).value;
    match FirstNamed(part(analyses[0]), nameOf, name)
    case Some(j) =>
      assert part(analyses[0])[j] == r.0;
    case None =>
      MatchIsMember(analyses[1..], part, nameOf, name);
      var k, j :| 0 <= k < |analyses[1..]| && 0 <= j < |part(analyses[1..][k])| &&
        part(analyses[1..][k])[j] == r.0 && analyses[1..][k].name == r.1;
      assert analyses[1..][k] == analyses[k + 1];
  }

  // ================================================================ picks from the analysis

  /** Each flattened component of the analysis names a pod or deployment of some analysed
      namespace, of the type it records. */
  lemma {:induction false} ComponentOrigin(analyses: seq<K.NamespaceAnalysis>, i: nat)
    requires i < |Navigation.Components(analyses)|
    ensures Navigation.Components(analyses)[i].1 == "Pod" ==>
      exists k, j :: 0 <= k < |analyses| && 0 <= j < |analyses[k].pods| &&
        analyses[k].pods[j].name == Navigation.Components(analyses)[i].0
    ensures Navigation.Components(analyses)[i].1 == "Deployment" ==>
      exists k, j :: 0 <= k < |analyses| && 0 <= j < |analyses[k].deployments| &&
        analyses[k].deployments[j].name == Navigation.Components(analyses)[i].0
    decreases |analyses|
  {
    var n := |analyses| - 1;
    var init := analyses[..n];
    var last := analyses[n];
    var head := Navigation.Components(init);
    var pods := Navigation.PodRefs(last.pods);
    var c := Navigation.Components(analyses)[i];
    assert Navigation.Components(analyses) == head + pods + Navigation.DeploymentRefs(last.deployments);
    if i < |head| {
      ComponentOrigin(init, i);
      assert c == head[i];
      if c.1 == "Pod" {
        var k, j :| 0 <= k < |init| && 0 <= j < |init[k].pods| && init[k].pods[j].name == c.0;
        assert init[k] == analyses[k];
      }
      if c.1 == "Deployment" {
        var k, j :| 0 <= k < |init| && 0 <= j < |init[k].deployments| && init[k].deployments[j].name == c.0;
        assert init[k] == analyses[k];
      }
    } else if i < |head| + |pods| {
      assert c == pods[i - |head|];
      assert analyses[n].pods[i - |head|].name == c.0;
    } else {
      var j := i - |head| - |pods|;
      assert c == Navigation.DeploymentRefs(last.deployments)[j];
      assert analyses[n].deployments[j].name == c.0;
    }
  }

  /** An element present in some analysed namespace is always found. */
  lemma FoundWhenPresent<T>(loaded: seq<T>, s: Navigation.AppState, part: K.NamespaceAnalysis -> seq<T>,
                            nameOf: T -> string, name: string, k: nat, j: nat)
    requires s.clusterAnalysis.Some? && k < |s.clusterAnalysis.value.namespaces|
    requires j < |part(s.clusterAnalysis.value.namespaces[k])|
    requires nameOf(part(s.clusterAnalysis.value.namespaces[k])[j]) == name
    ensures Lookup(loaded, s, part, nameOf, name).Some?
  {
  }

  /** A component picked with Enter on the cluster analysis screen always has its details
      shown: the lookup never falls back to "not found". */
  lemma PickedComponentFound(s: Navigation.AppState, i: nat)
    requires s.clusterAnalysis.Some? && i < |Navigation.Components(s.clusterAnalysis.value.namespaces)|
    requires s.selectedComponent == Some(Navigation.Components(s.clusterAnalysis.value.namespaces)[i])
    ensures DetailsView(s)[0] in {Heading(PodInformation), Heading(DeploymentInformation)}
  {
    var analyses := s.clusterAnalysis.value.namespaces;
    var (name, componentType) := Navigation.Components(analyses)[i];
    Navigation.ComponentsCounted(analyses);
    assert Navigation.Components(analyses)[i] in Navigation.Components(analyses);
    ComponentOrigin(analyses, i);
    if componentType == "Pod" {
      var k, j :| 0 <= k < |analyses| && 0 <= j < |analyses[k].pods| && analyses[k].pods[j].name == name;
      assert PodName(PodsOf(analyses[k])[j]) == name;
      FoundWhenPresent(s.pods, s, PodsOf, PodName, name, k, j);
    } else {
      var k, j :| 0 <= k < |analyses| && 0 <= j < |analyses[k].deployments| && analyses[k].deployments[j].name == name;
      assert DeploymentName(DeploymentsOf(analyses[k])[j]) == name;
      FoundWhenPresent(s.deployments, s, DeploymentsOf, DeploymentName, name, k, j);
    }
  }
}
