/** The snapshot reader and cluster analyser of `src/kubernetes.rs`: pod and deployment
    records extracted from `pods.json` / `deployments.json`, the namespace list with its
    counts and its order, and the issues and totals of the cluster analysis. */
module Kubernetes {
  import opened Wrappers
  import opened Strings
  import Json
  import opened Errors
  import opened Snapshot
  import Sorting

  // ================================================================ records

  datatype NamespaceInfo = NamespaceInfo(name: string, podCount: nat, deploymentCount: nat)

  /** A pod; the optional fields stay `None` when the record lacks them. */
  datatype PodInfo = PodInfo(
    name: string,
    status: string,
    ready: bool,
    cpuUsage: Option<string>,
    memoryUsage: Option<string>,
    restartCount: Option<string>,
    image: Option<string>)

  /** A deployment; replica counts are `u32` values. */
  datatype DeploymentInfo = DeploymentInfo(
    name: string,
    readyReplicas: nat,
    desiredReplicas: nat,
    strategy: Option<string>,
    image: Option<string>)

  datatype IssueSeverity = Critical | Warning | Info

  datatype ClusterIssue = ClusterIssue(
    severity: IssueSeverity,
    component: string,
    componentType: string,
    namespace: string,
    description: string)

  datatype NamespaceAnalysis = NamespaceAnalysis(
    name: string,
    pods: seq<PodInfo>,
    deployments: seq<DeploymentInfo>,
    issues: seq<ClusterIssue>)

  datatype ClusterAnalysis = ClusterAnalysis(
    namespaces: seq<NamespaceAnalysis>,
    totalPods: nat,
    totalDeployments: nat,
    totalIssues: nat)

  // ================================================================ field extraction

  const U32_LIMIT: nat := 0x1_0000_0000

  /** `n as u32` on a `u64`: the low 32 bits. */
  function AsU32(n: nat): (r: nat)
    ensures r < U32_LIMIT
    ensures n < U32_LIMIT ==> r == n
  {
    n % U32_LIMIT
  }

  /** The first element of `items` whose `type` field is the string `"Ready"`. */
  function FindReady(items: seq<Json.Value>): (r: Option<Json.Value>)
    ensures r.Some? ==>
      exists i :: && 0 <= i < |items| && items[i] == r.value
                  && Json.Index(items[i], "type") == Json.Str("Ready")
                  && forall j :: 0 <= j < i ==> Json.Index(items[j], "type") != Json.Str("Ready")
    ensures r.None? <==> forall i :: 0 <= i < |items| ==> Json.Index(items[i], "type") != Json.Str("Ready")
  {
    if items == [] then None
    else if Json.Index(items[0], "type") == Json.Str("Ready") then Some(items[0])
    else
      var r := FindReady(items[1..]);
      if r.Some? then
        var i :| && 0 <= i < |items[1..]| && items[1..][i] == r.value
                 && Json.Index(items[1..][i], "type") == Json.Str("Ready")
                 && forall j :: 0 <= j < i ==> Json.Index(items[1..][j], "type") != Json.Str("Ready");
        assert items[i + 1] == r.value;
        r
      else r
  }

  /** A pod is ready when its first `Ready` condition has the status string `"True"`. */
  function PodReady(pod: Json.Value): bool {
    match Json.AsArray(Json.At(pod, ["status", "conditions"]))
    case None => false
    case Some(conditions) =>
      match FindReady(conditions)
      case None => false
      case Some(c) => Json.AsStr(Json.Index(c, "status")) == Some("True")
  }

  /** The restart count of the first container status, printed in decimal. */
  function PodRestartCount(pod: Json.Value): Option<string> {
    match Json.FirstItem(Json.At(pod, ["status", "containerStatuses"]))
    case None => None
    case Some(c) =>
      match Json.AsU64(Json.Index(c, "restartCount"))
      case None => None
      case Some(n) => Some(NatToString(n))
  }

  /** The `image` string of the first element of the array at `path`. */
  function FirstImage(v: Json.Value, path: seq<string>): Option<string> {
    match Json.FirstItem(Json.At(v, path))
    case None => None
    case Some(c) => Json.AsStr(Json.Index(c, "image"))
  }

  /** One element of `items` in `pods.json`: kept only when both its name and its phase
      are strings. */
  function PodFromJson(pod: Json.Value): (r: Option<PodInfo>)
    ensures r.Some? <==> Json.At(pod, ["metadata", "name"]).Str? && Json.At(pod, ["status", "phase"]).Str?
    ensures r.Some? ==> r.value.name == Json.At(pod, ["metadata", "name"]).s
    ensures r.Some? ==> r.value.status == Json.At(pod, ["status", "phase"]).s
  {
    match (Json.AsStr(Json.At(pod, ["metadata", "name"])), Json.AsStr(Json.At(pod, ["status", "phase"])))
    case (Some(name), Some(status)) =>
      Some(PodInfo(
        name, status, PodReady(pod),
        Json.AsStr(Json.At(pod, ["usage", "cpu"])),
        Json.AsStr(Json.At(pod, ["usage", "memory"])),
        PodRestartCount(pod),
        FirstImage(pod, ["spec", "containers"])))
    case _ => None
  }

  /** One element of `items` in `deployments.json`: kept only when its name is a string;
      a replica count that is missing or not an unsigned 64-bit integer reads as 0. */
  function DeploymentFromJson(d: Json.Value): (r: Option<DeploymentInfo>)
    ensures r.Some? <==> Json.At(d, ["metadata", "name"]).Str?
    ensures r.Some? ==> r.value.name == Json.At(d, ["metadata", "name"]).s
    ensures r.Some? ==> r.value.readyReplicas < U32_LIMIT && r.value.desiredReplicas < U32_LIMIT
  {
    match Json.AsStr(Json.At(d, ["metadata", "name"]))
    case Some(name) =>
      Some(DeploymentInfo(
        name,
        AsU32(Json.AsU64(Json.At(d, ["status", "readyReplicas"])).GetOr(0)),
        AsU32(Json.AsU64(Json.At(d, ["spec", "replicas"])).GetOr(0)),
        Json.AsStr(Json.At(d, ["spec", "strategy", "type"])),
        FirstImage(d, ["spec", "template", "spec", "containers"])))
    case None => None
  }

  /** Readiness is decided by the first `Ready` condition alone: one whose status is the
      string `"True"` makes the pod ready, any other status does not, and later conditions
      never count. */
  lemma ReadyFromFirstReadyCondition(pod: Json.Value, conditions: seq<Json.Value>, i: nat)
    requires Json.At(pod, ["status", "conditions"]) == Json.Array(conditions)
    requires i < |conditions| && Json.Index(conditions[i], "type") == Json.Str("Ready")
    requires forall j :: 0 <= j < i ==> Json.Index(conditions[j], "type") != Json.Str("Ready")
    ensures PodReady(pod) <==> Json.Index(conditions[i], "status") == Json.Str("True")
  {
    var r := FindReady(conditions);
    var k :| && 0 <= k < |conditions| && conditions[k] == r.value
             && Json.Index(conditions[k], "type") == Json.Str("Ready")
             && forall j :: 0 <= j < k ==> Json.Index(conditions[j], "type") != Json.Str("Ready");
    assert k == i;
  }

  /** Without a conditions array, or without a `Ready` condition, a pod is not ready. */
  lemma NotReadyWithoutCondition(pod: Json.Value)
    requires forall conditions :: Json.At(pod, ["status", "conditions"]) == Json.Array(conditions) ==>
      forall c :: c in conditions ==> Json.Index(c, "type") != Json.Str("Ready")
    ensures !PodReady(pod)
  {
  }

  /** The restart count comes from the first container status, whatever follows it. */
  lemma FirstContainerOnly(pod: Json.Value, first: Json.Value, rest: seq<Json.Value>, n: nat)
    requires Json.At(pod, ["status", "containerStatuses"]) == Json.Array([first] + rest)
    requires Json.Index(first, "restartCount") == Json.Int(n) && n < Json.U64_LIMIT
    ensures PodRestartCount(pod) == Some(NatToString(n))
  {
  }

  /** Missing replica counts read as zero. */
  lemma MissingReplicasAreZero(d: Json.Value)
    requires Json.At(d, ["metadata", "name"]).Str?
    requires Json.At(d, ["status", "readyReplicas"]) == Json.Null
    requires Json.At(d, ["spec", "replicas"]) == Json.Null
    ensures DeploymentFromJson(d).value.readyReplicas == 0
    ensures DeploymentFromJson(d).value.desiredReplicas == 0
  {
  }

  // ================================================================ loading a namespace

  /** The records of `items` that are kept, in order. */
  function PodsFrom(items: seq<Json.Value>): (r: seq<PodInfo>)
    ensures |r| <= |items|
    decreases |items|
  {
    if items == [] then []
    else
      var n := |items| - 1;
      PodsFrom(items[..n]) + match PodFromJson(items[n]) case Some(p) => [p] case None => []
  }

  function DeploymentsFrom(items: seq<Json.Value>): (r: seq<DeploymentInfo>)
    ensures |r| <= |items|
    decreases |items|
  {
    if items == [] then []
    else
      var n := |items| - 1;
      DeploymentsFrom(items[..n]) + match DeploymentFromJson(items[n]) case Some(d) => [d] case None => []
  }

  function PodsFile(namespace: string): string {
    Join(NamespaceDir(namespace), "pods.json")
  }

  function DeploymentsFile(namespace: string): string {
    Join(NamespaceDir(namespace), "deployments.json")
  }

  /** The `items` array of a listing file, if there is one. */
  function Items(data: Json.Value): seq<Json.Value> {
    Json.AsArray(Json.Index(data, "items")).GetOr([])
  }

  /** What `load_pods` returns: no pods when the file is missing, an error when it cannot
      be read or parsed. */
  function LoadedPods(fs: Fs, namespace: string): Result<seq<PodInfo>, AppError> {
    var file := PodsFile(namespace);
    if !Exists(fs, file) then Ok([])
    else match ReadToString(fs, file)
      case Err(e) => Err(e)
      case Ok(content) =>
        match ParseJson(fs, content)
        case Err(e) => Err(e)
        case Ok(data) => Ok(PodsFrom(Items(data)))
  }

  /** What `load_deployments` returns. */
  function LoadedDeployments(fs: Fs, namespace: string): Result<seq<DeploymentInfo>, AppError> {
    var file := DeploymentsFile(namespace);
    if !Exists(fs, file) then Ok([])
    else match ReadToString(fs, file)
      case Err(e) => Err(e)
      case Ok(content) =>
        match ParseJson(fs, content)
        case Err(e) => Err(e)
        case Ok(data) => Ok(DeploymentsFrom(Items(data)))
  }

  /** `load_pods`. */
  method LoadPods(fs: Fs, namespace: string) returns (r: Result<seq<PodInfo>, AppError>)
    ensures r == LoadedPods(fs, namespace)
  {
    var pods: seq<PodInfo> := [];
    var podsFile := PodsFile(namespace);
    if Exists(fs, podsFile) {
      var content := ReadToString(fs, podsFile);
      if content.Err? {
        return Err(content.error);
      }
      var podsData := ParseJson(fs, content.value);
      if podsData.Err? {
        return Err(podsData.error);
      }
      var items := Json.AsArray(Json.Index(podsData.value, "items"));
      if items.Some? {
        var list := items.value;
        for k := 0 to |list|
          invariant pods == PodsFrom(list[..k])
        {
          assert list[..k + 1][..k] == list[..k];
          var pod := PodFromJson(list[k]);
          if pod.Some? {
            pods := pods + [pod.value];
          }
        }
        assert list[..|list|] == list;
      }
    }
    return Ok(pods);
  }

  /** `load_deployments`. */
  method LoadDeployments(fs: Fs, namespace: string) returns (r: Result<seq<DeploymentInfo>, AppError>)
    ensures r == LoadedDeployments(fs, namespace)
  {
    var deployments: seq<DeploymentInfo> := [];
    var deploymentsFile := DeploymentsFile(namespace);
    if Exists(fs, deploymentsFile) {
      var content := ReadToString(fs, deploymentsFile);
      if content.Err? {
        return Err(content.error);
      }
      var deploymentsData := ParseJson(fs, content.value);
      if deploymentsData.Err? {
        return Err(deploymentsData.error);
      }
      var items := Json.AsArray(Json.Index(deploymentsData.value, "items"));
      if items.Some? {
        var list := items.value;
        for k := 0 to |list|
          invariant deployments == DeploymentsFrom(list[..k])
        {
          assert list[..k + 1][..k] == list[..k];
          var deployment := DeploymentFromJson(list[k]);
          if deployment.Some? {
            deployments := deployments + [deployment.value];
          }
        }
        assert list[..|list|] == list;
      }
    }
    return Ok(deployments);
  }

  /** Every pod kept comes from some element, and every element with a string name and
      phase gives a pod. */
  lemma {:induction false} PodsFromElements(items: seq<Json.Value>)
    ensures forall p :: p in PodsFrom(items) ==> exists v :: v in items && PodFromJson(v) == Some(p)
    ensures forall v :: v in items && PodFromJson(v).Some? ==> PodFromJson(v).value in PodsFrom(items)
    decreases |items|
  {
    if items != [] {
      var n := |items| - 1;
      PodsFromElements(items[..n]);
      assert items == items[..n] + [items[n]];
      assert forall v :: v in items[..n] ==> v in items;
    }
  }

  /** Every deployment kept comes from an element of the listing, and every element with a
      string name is kept. */
  lemma {:induction false} DeploymentsFromElements(items: seq<Json.Value>)
    ensures forall d :: d in DeploymentsFrom(items) ==> exists v :: v in items && DeploymentFromJson(v) == Some(d)
    ensures forall v :: v in items && DeploymentFromJson(v).Some? ==> DeploymentFromJson(v).value in DeploymentsFrom(items)
    decreases |items|
  {
    if items != [] {
      var n := |items| - 1;
      DeploymentsFromElements(items[..n]);
      assert items == items[..n] + [items[n]];
      assert forall v :: v in items[..n] ==> v in items;
    }
  }

  /** Only an existing file that cannot be read or parsed makes loading fail. */
  lemma LoadErrorsNeedFile(fs: Fs, namespace: string)
    ensures LoadedPods(fs, namespace).Err? ==> Exists(fs, PodsFile(namespace))
    ensures LoadedDeployments(fs, namespace).Err? ==> Exists(fs, DeploymentsFile(namespace))
    ensures !Exists(fs, PodsFile(namespace)) ==> LoadedPods(fs, namespace) == Ok([])
    ensures !Exists(fs, DeploymentsFile(namespace)) ==> LoadedDeployments(fs, namespace) == Ok([])
  {
  }

  // ================================================================ namespaces

  function NamespaceName(n: NamespaceInfo): string {
    n.name
  }

  /** The namespace row of one directory, with load failures counted as empty lists. */
  function NamespaceRow(fs: Fs, name: string): NamespaceInfo {
    NamespaceInfo(name, |LoadedPods(fs, name).GetOr([])|, |LoadedDeployments(fs, name).GetOr([])|)
  }

  /** One row per directory entry of `output`, in listing order. */
  function NamespaceRows(fs: Fs, entries: seq<DirEntry>): seq<NamespaceInfo>
    decreases |entries|
  {
    if entries == [] then []
    else
      var n := |entries| - 1;
      NamespaceRows(fs, entries[..n]) + if entries[n].isDir then [NamespaceRow(fs, entries[n].name)] else []
  }

  /** What `load_namespaces` returns. */
  function Namespaces(fs: Fs): Result<seq<NamespaceInfo>, AppError> {
    if !Exists(fs, Root) then Err(Custom("Output directory not found"))
    else match ReadDir(fs, Root)
      case Err(e) => Err(e)
      case Ok(entries) => Ok(Sorting.SortBy(NamespaceRows(fs, entries), NamespaceName, false))
  }

  /** `load_namespaces`. */
  method LoadNamespaces(fs: Fs) returns (r: Result<seq<NamespaceInfo>, AppError>)
    ensures r == Namespaces(fs)
  {
    if !Exists(fs, Root) {
      return Err(Custom("Output directory not found"));
    }
    var listing := ReadDir(fs, Root);
    if listing.Err? {
      return Err(listing.error);
    }
    var entries := listing.value;
    var namespaces: seq<NamespaceInfo> := [];
    for k := 0 to |entries|
      invariant namespaces == NamespaceRows(fs, entries[..k])
    {
      assert entries[..k + 1][..k] == entries[..k];
      var entry := entries[k];
      if entry.isDir {
        var pods := LoadPods(fs, entry.name);
        var deployments := LoadDeployments(fs, entry.name);
        namespaces := namespaces + [NamespaceInfo(entry.name, |pods.GetOr([])|, |deployments.GetOr([])|)];
      }
    }
    assert entries[..|entries|] == entries;
    namespaces := Sorting.SortBy(namespaces, NamespaceName, false);
    return Ok(namespaces);
  }

  /** Each row is a directory of `output` and carries the sizes of its pod and deployment
      lists, a list that fails to load counting as empty. */
  lemma {:induction false} NamespaceRowsFaithful(fs: Fs, entries: seq<DirEntry>)
    ensures forall n :: n in NamespaceRows(fs, entries) ==>
      && DirEntry(n.name, true) in entries
      && n.podCount == |LoadedPods(fs, n.name).GetOr([])|
      && n.deploymentCount == |LoadedDeployments(fs, n.name).GetOr([])|
    ensures forall e :: e in entries && e.isDir ==> NamespaceRow(fs, e.name) in NamespaceRows(fs, entries)
    decreases |entries|
  {
    if entries != [] {
      var n := |entries| - 1;
      NamespaceRowsFaithful(fs, entries[..n]);
      assert entries == entries[..n] + [entries[n]];
      assert forall e :: e in entries[..n] ==> e in entries;
    }
  }

  /** The namespaces come out sorted by name, one per directory of `output`, with their
      pod and deployment counts; without `output` loading fails with its own message. */
  lemma NamespacesSortedAndCounted(fs: Fs)
    ensures !Exists(fs, Root) ==> Namespaces(fs).Err? && Display(Namespaces(fs).error) == "Output directory not found"
    ensures Namespaces(fs).Ok? ==>
      var ns := Namespaces(fs).value;
      && Sorting.SortedBy(ns, NamespaceName, false)
      && |ns| == |NamespaceRows(fs, fs.listings[Root])|
      && forall n :: n in ns ==>
           && DirEntry(n.name, true) in fs.listings[Root]
           && n.podCount == |LoadedPods(fs, n.name).GetOr([])|
           && n.deploymentCount == |LoadedDeployments(fs, n.name).GetOr([])|
  {
    if Namespaces(fs).Ok? {
      var rows := NamespaceRows(fs, fs.listings[Root]);
      Sorting.SortBySorted(rows, NamespaceName, false);
      NamespaceRowsFaithful(fs, fs.listings[Root]);
      var ns := Namespaces(fs).value;
      assert multiset(ns) == multiset(rows);
      forall n | n in ns
        ensures n in rows
      {
        assert n in multiset(ns);
      }
    }
  }

  // ================================================================ analysis

  /** A pod needs attention when it is not ready or not running. */
  predicate PodUnhealthy(pod: PodInfo) {
    !pod.ready || pod.status != "Running"
  }

  function PodIssue(pod: PodInfo, namespace: string): ClusterIssue {
    ClusterIssue(Warning, pod.name, "Pod", namespace,
      "Pod " + pod.name + " is not ready or not running (status: " + pod.status + ")")
  }

  /** The severity of a deployment whose ready count differs from its desired count. */
  function ReplicaSeverity(d: DeploymentInfo): IssueSeverity {
    if d.readyReplicas == 0 then Critical else Warning
  }

  function DeploymentIssue(d: DeploymentInfo, namespace: string): ClusterIssue {
    ClusterIssue(ReplicaSeverity(d), d.name, "Deployment", namespace,
      "Deployment " + d.name + " has " + NatToString(d.readyReplicas) + "/"
      + NatToString(d.desiredReplicas) + " replicas ready")
  }

  /** The issues of `pods`: one per pod that needs attention, in order. */
  function PodIssues(pods: seq<PodInfo>, namespace: string): seq<ClusterIssue>
    decreases |pods|
  {
    if pods == [] then []
    else
      var n := |pods| - 1;
      PodIssues(pods[..n], namespace) + if PodUnhealthy(pods[n]) then [PodIssue(pods[n], namespace)] else []
  }

  /** The issues of `deployments`: one per deployment whose ready and desired counts differ. */
  function DeploymentIssues(deployments: seq<DeploymentInfo>, namespace: string): seq<ClusterIssue>
    decreases |deployments|
  {
    if deployments == [] then []
    else
      var n := |deployments| - 1;
      var d := deployments[n];
      DeploymentIssues(deployments[..n], namespace)
      + if d.readyReplicas != d.desiredReplicas then [DeploymentIssue(d, namespace)] else []
  }

  /** The analysis of one namespace, with load failures read as empty lists. */
  function AnalyzeNamespace(fs: Fs, name: string): NamespaceAnalysis {
    var pods := LoadedPods(fs, name).GetOr([]);
    var deployments := LoadedDeployments(fs, name).GetOr([]);
    NamespaceAnalysis(name, pods, deployments, PodIssues(pods, name) + DeploymentIssues(deployments, name))
  }

  /** The analyses of `namespaces`, in the same order. */
  function Analyses(fs: Fs, namespaces: seq<NamespaceInfo>): (r: seq<NamespaceAnalysis>)
    ensures |r| == |namespaces|
    decreases |namespaces|
  {
    if namespaces == [] then []
    else
      var n := |namespaces| - 1;
      Analyses(fs, namespaces[..n]) + [AnalyzeNamespace(fs, namespaces[n].name)]
  }

  function TotalPods(analyses: seq<NamespaceAnalysis>): nat
    decreases |analyses|
  {
    if analyses == [] then 0
    else TotalPods(analyses[..|analyses| - 1]) + |analyses[|analyses| - 1].pods|
  }

  function TotalDeployments(analyses: seq<NamespaceAnalysis>): nat
    decreases |analyses|
  {
    if analyses == [] then 0
    else TotalDeployments(analyses[..|analyses| - 1]) + |analyses[|analyses| - 1].deployments|
  }

  function TotalIssues(analyses: seq<NamespaceAnalysis>): nat
    decreases |analyses|
  {
    if analyses == [] then 0
    else TotalIssues(analyses[..|analyses| - 1]) + |analyses[|analyses| - 1].issues|
  }

  /** What `analyze_cluster` returns. */
  function Analysis(fs: Fs): Result<ClusterAnalysis, AppError> {
    match Namespaces(fs)
    case Err(e) => Err(e)
    case Ok(namespaces) =>
      var analyses := Analyses(fs, namespaces);
      Ok(ClusterAnalysis(analyses, TotalPods(analyses), TotalDeployments(analyses), TotalIssues(analyses)))
  }

  /** The issue scan of one namespace inside `analyze_cluster`: pods first, then
      deployments. */
  method NamespaceIssues(pods: seq<PodInfo>, deployments: seq<DeploymentInfo>, name: string)
    returns (issues: seq<ClusterIssue>)
    ensures issues == PodIssues(pods, name) + DeploymentIssues(deployments, name)
  {
    issues := [];
    for i := 0 to |pods|
      invariant issues == PodIssues(pods[..i], name)
    {
      assert pods[..i + 1][..i] == pods[..i];
      var pod := pods[i];
      if !pod.ready || pod.status != "Running" {
        issues := issues + [PodIssue(pod, name)];
      }
    }
    assert pods[..|pods|] == pods;

    for j := 0 to |deployments|
      invariant issues == PodIssues(pods, name) + DeploymentIssues(deployments[..j], name)
    {
      assert deployments[..j + 1][..j] == deployments[..j];
      var deployment := deployments[j];
      if deployment.readyReplicas != deployment.desiredReplicas {
        var severity := if deployment.readyReplicas == 0 then Critical else Warning;
        issues := issues + [ClusterIssue(severity, deployment.name, "Deployment", name,
          "Deployment " + deployment.name + " has " + NatToString(deployment.readyReplicas) + "/"
          + NatToString(deployment.desiredReplicas) + " replicas ready")];
      }
    }
    assert deployments[..|deployments|] == deployments;
  }

  /** `analyze_cluster`. */
  method AnalyzeCluster(fs: Fs) returns (r: Result<ClusterAnalysis, AppError>)
    ensures r == Analysis(fs)
  {
    var loaded := LoadNamespaces(fs);
    if loaded.Err? {
      return Err(loaded.error);
    }
    var namespaces := loaded.value;
    var namespaceAnalyses: seq<NamespaceAnalysis> := [];
    var totalPods := 0;
    var totalDeployments := 0;
    var totalIssues := 0;

    for k := 0 to |namespaces|
      invariant namespaceAnalyses == Analyses(fs, namespaces[..k])
      invariant totalPods == TotalPods(namespaceAnalyses)
      invariant totalDeployments == TotalDeployments(namespaceAnalyses)
      invariant totalIssues == TotalIssues(namespaceAnalyses)
    {
      assert namespaces[..k + 1][..k] == namespaces[..k];
      var name := namespaces[k].name;
      var loadedPods := LoadPods(fs, name);
      var pods := loadedPods.GetOr([]);
      var loadedDeployments := LoadDeployments(fs, name);
      var deployments := loadedDeployments.GetOr([]);

      var issues := NamespaceIssues(pods, deployments, name);

      totalPods := totalPods + |pods|;
      totalDeployments := totalDeployments + |deployments|;
      totalIssues := totalIssues + |issues|;
      namespaceAnalyses := namespaceAnalyses + [NamespaceAnalysis(name, pods, deployments, issues)];
    }
    assert namespaces[..|namespaces|] == namespaces;
    return Ok(ClusterAnalysis(namespaceAnalyses, totalPods, totalDeployments, totalIssues));
  }

  /** A pod yields exactly one issue, a Warning naming it, when it is not ready or not
      running, and none otherwise. */
  lemma PodIssueRule(pod: PodInfo, namespace: string)
    ensures |PodIssues([pod], namespace)| == if !pod.ready || pod.status != "Running" then 1 else 0
    ensures PodIssues([pod], namespace) != [] ==>
      var issue := PodIssues([pod], namespace)[0];
      issue.severity == Warning && issue.component == pod.name && issue.componentType == "Pod"
  {
    assert [pod][..0] == [];
  }

  /** A deployment yields an issue exactly when its ready and desired counts differ: a
      Critical one when nothing is ready, a Warning otherwise. */
  lemma DeploymentIssueRule(d: DeploymentInfo, namespace: string)
    ensures |DeploymentIssues([d], namespace)| == if d.readyReplicas != d.desiredReplicas then 1 else 0
    ensures DeploymentIssues([d], namespace) != [] ==>
      var issue := DeploymentIssues([d], namespace)[0];
      && (issue.severity == Critical <==> d.readyReplicas == 0)
      && (issue.severity == Warning <==> d.readyReplicas != 0)
      && issue.component == d.name && issue.componentType == "Deployment"
  {
    assert [d][..0] == [];
  }

  /** Ready/desired 0/3 is Critical, 2/3 and 4/3 are Warnings, 3/3 and 0/0 raise nothing. */
  lemma DeploymentIssueExamples(ns: string)
    ensures DeploymentIssues([DeploymentInfo("d", 0, 3, None, None)], ns)[0].severity == Critical
    ensures DeploymentIssues([DeploymentInfo("d", 2, 3, None, None)], ns)[0].severity == Warning
    ensures DeploymentIssues([DeploymentInfo("d", 4, 3, None, None)], ns)[0].severity == Warning
    ensures DeploymentIssues([DeploymentInfo("d", 3, 3, None, None)], ns) == []
    ensures DeploymentIssues([DeploymentInfo("d", 0, 0, None, None)], ns) == []
  {
    DeploymentIssueRule(DeploymentInfo("d", 0, 3, None, None), ns);
    DeploymentIssueRule(DeploymentInfo("d", 2, 3, None, None), ns);
    DeploymentIssueRule(DeploymentInfo("d", 4, 3, None, None), ns);
    DeploymentIssueRule(DeploymentInfo("d", 3, 3, None, None), ns);
    DeploymentIssueRule(DeploymentInfo("d", 0, 0, None, None), ns);
  }

  lemma {:induction false} PodIssuesBound(pods: seq<PodInfo>, namespace: string)
    ensures |PodIssues(pods, namespace)| <= |pods|
    decreases |pods|
  {
    if pods != [] {
      PodIssuesBound(pods[..|pods| - 1], namespace);
    }
  }

  lemma {:induction false} DeploymentIssuesBound(deployments: seq<DeploymentInfo>, namespace: string)
    ensures |DeploymentIssues(deployments, namespace)| <= |deployments|
    decreases |deployments|
  {
    if deployments != [] {
      DeploymentIssuesBound(deployments[..|deployments| - 1], namespace);
    }
  }

  /** A namespace never has more issues than pods and deployments together. */
  lemma NamespaceIssuesBound(fs: Fs, name: string)
    ensures var a := AnalyzeNamespace(fs, name); |a.issues| <= |a.pods| + |a.deployments|
  {
    var a := AnalyzeNamespace(fs, name);
    PodIssuesBound(a.pods, name);
    DeploymentIssuesBound(a.deployments, name);
  }

  lemma {:induction false} AnalysesFaithful(fs: Fs, namespaces: seq<NamespaceInfo>)
    ensures forall i :: 0 <= i < |namespaces| ==> Analyses(fs, namespaces)[i] == AnalyzeNamespace(fs, namespaces[i].name)
    decreases |namespaces|
  {
    if namespaces != [] {
      AnalysesFaithful(fs, namespaces[..|namespaces| - 1]);
    }
  }

  lemma {:induction false} TotalIssuesBound(analyses: seq<NamespaceAnalysis>)
    requires forall a :: a in analyses ==> |a.issues| <= |a.pods| + |a.deployments|
    ensures TotalIssues(analyses) <= TotalPods(analyses) + TotalDeployments(analyses)
    decreases |analyses|
  {
    if analyses != [] {
      var n := |analyses| - 1;
      assert analyses[n] in analyses;
      assert forall a :: a in analyses[..n] ==> a in analyses;
      TotalIssuesBound(analyses[..n]);
    }
  }

  /** The analysis follows the namespace list's order, each entry analysed on its own, and
      the cluster never has more issues than pods and deployments together. */
  lemma AnalysisShape(fs: Fs)
    requires Analysis(fs).Ok?
    ensures var a := Analysis(fs).value; var ns := Namespaces(fs).value;
      && |a.namespaces| == |ns|
      && (forall i :: 0 <= i < |ns| ==> a.namespaces[i] == AnalyzeNamespace(fs, ns[i].name))
      && a.totalIssues <= a.totalPods + a.totalDeployments
  {
    var ns := Namespaces(fs).value;
    var analyses := Analyses(fs, ns);
    AnalysesFaithful(fs, ns);
    forall a | a in analyses
      ensures |a.issues| <= |a.pods| + |a.deployments|
    {
      var i :| 0 <= i < |analyses| && analyses[i] == a;
      NamespaceIssuesBound(fs, ns[i].name);
    }
    TotalIssuesBound(analyses);
  }
}
