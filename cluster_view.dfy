/** The cluster analysis screen: the rows it lists, which of them Enter can pick, and which
    one is highlighted for the current selection. */
module ClusterView {
  import opened Wrappers
  import K = Kubernetes
  import Navigation

  /** One display row. The text of a row is determined by its fields; only the blank
      separator has empty text. */
  datatype DisplayRow =
    | Header(namespace: string, podCount: nat, deploymentCount: nat)
    | PodRow(name: string, status: string, healthy: bool)
    | DeploymentRow(name: string, readyReplicas: nat, desiredReplicas: nat, complete: bool)
    | Blank

  /** Pod and deployment rows can be picked; headers and separators cannot. */
  predicate Selectable(row: DisplayRow) {
    row.PodRow? || row.DeploymentRow?
  }

  /** The row of a pod; its icon is green exactly when the pod is ready and running. */
  function PodLine(pod: K.PodInfo): DisplayRow {
    PodRow(pod.name, pod.status, pod.ready && pod.status == "Running")
  }

  /** The row of a deployment; its icon is green exactly when all desired replicas are ready. */
  function DeploymentLine(d: K.DeploymentInfo): DisplayRow {
    DeploymentRow(d.name, d.readyReplicas, d.desiredReplicas, d.readyReplicas == d.desiredReplicas)
  }

  function PodLines(pods: seq<K.PodInfo>): (r: seq<DisplayRow>)
    ensures |r| == |pods|
    decreases |pods|
  {
    if pods == [] then [] else PodLines(pods[..|pods| - 1]) + [PodLine(pods[|pods| - 1])]
  }

  function DeploymentLines(deployments: seq<K.DeploymentInfo>): (r: seq<DisplayRow>)
    ensures |r| == |deployments|
    decreases |deployments|
  {
    if deployments == [] then []
    else DeploymentLines(deployments[..|deployments| - 1]) + [DeploymentLine(deployments[|deployments| - 1])]
  }

  lemma {:induction false} PodLinesAt(pods: seq<K.PodInfo>)
    ensures forall i :: 0 <= i < |pods| ==> PodLines(pods)[i] == PodLine(pods[i])
    decreases |pods|
  {
    if pods != [] {
      PodLinesAt(pods[..|pods| - 1]);
    }
  }

  lemma {:induction false} DeploymentLinesAt(deployments: seq<K.DeploymentInfo>)
    ensures forall i :: 0 <= i < |deployments| ==> DeploymentLines(deployments)[i] == DeploymentLine(deployments[i])
    decreases |deployments|
  {
    if deployments != [] {
      DeploymentLinesAt(deployments[..|deployments| - 1]);
    }
  }

  /** The rows of one namespace: its header, its pods, its deployments, and a separator
      when it has any pod or deployment. */
  function NamespaceBlock(a: K.NamespaceAnalysis): seq<DisplayRow> {
    [Header(a.name, |a.pods|, |a.deployments|)] + PodLines(a.pods) + DeploymentLines(a.deployments) + BlockTail(a)
  }

  /** The blank separator that closes a namespace with at least one component. */
  function BlockTail(a: K.NamespaceAnalysis): seq<DisplayRow> {
    if |a.pods| > 0 || |a.deployments| > 0 then [Blank] else []
  }

  function RawRows(analyses: seq<K.NamespaceAnalysis>): seq<DisplayRow>
    decreases |analyses|
  {
    if analyses == [] then [] else RawRows(analyses[..|analyses| - 1]) + NamespaceBlock(analyses[|analyses| - 1])
  }

  /** The rows shown: the blocks without a final separator. */
  function DisplayRows(analyses: seq<K.NamespaceAnalysis>): seq<DisplayRow> {
    var raw := RawRows(analyses);
    if |raw| > 0 && raw[|raw| - 1].Blank? then raw[..|raw| - 1] else raw
  }

  /** The (name, type) a selectable row stands for. */
  function RowRef(row: DisplayRow): (string, string)
    requires Selectable(row)
  {
    if row.PodRow? then (row.name, "Pod") else (row.name, "Deployment")
  }

  /** What the selectable rows stand for, in display order. */
  function SelectedRefs(rows: seq<DisplayRow>): seq<(string, string)>
    decreases |rows|
  {
    if rows == [] then []
    else
      var last := rows[|rows| - 1];
      SelectedRefs(rows[..|rows| - 1]) + if Selectable(last) then [RowRef(last)] else []
  }

  /** The number of selectable rows. */
  function SelectableCount(rows: seq<DisplayRow>): nat
    decreases |rows|
  {
    if rows == [] then 0
    else SelectableCount(rows[..|rows| - 1]) + if Selectable(rows[|rows| - 1]) then 1 else 0
  }

  /** `calculate_selectable_index`: how many selectable rows come before row `k`, or 0
      when `k` is past the end. */
  function SelectableIndex(rows: seq<DisplayRow>, k: nat): nat {
    if k < |rows| then SelectableCount(rows[..k]) else 0
  }

  /** A row is highlighted when it is selectable and its selectable index is the
      selection, a missing selection counting as 0. */
  predicate Highlighted(rows: seq<DisplayRow>, selected: Option<nat>, k: nat) {
    k < |rows| && Selectable(rows[k]) && SelectableIndex(rows, k) == selected.GetOr(0)
  }

  // ================================================================ building the rows

  /** The list construction of `draw_cluster_analysis`: display rows and the matching
      (name, type) pairs, built namespace by namespace, then the trailing separator
      dropped. */
  method BuildItems(analyses: seq<K.NamespaceAnalysis>)
    returns (displayItems: seq<DisplayRow>, selectableItems: seq<(string, string)>)
    ensures displayItems == DisplayRows(analyses)
    ensures selectableItems == Navigation.Components(analyses)
  {
    displayItems := [];
    selectableItems := [];
    for k := 0 to |analyses|
      invariant displayItems == RawRows(analyses[..k])
      invariant selectableItems == Navigation.Components(analyses[..k])
    {
      assert analyses[..k + 1][..k] == analyses[..k];
      displayItems, selectableItems := PushBlock(displayItems, selectableItems, analyses[k]);
    }
    assert analyses[..|analyses|] == analyses;
    if |displayItems| > 0 && displayItems[|displayItems| - 1].Blank? {
      displayItems := displayItems[..|displayItems| - 1];
    }
  }

  /** Appends the rows of one namespace and the components it makes selectable. */
  method PushBlock(display: seq<DisplayRow>, selectable: seq<(string, string)>, a: K.NamespaceAnalysis)
    returns (display': seq<DisplayRow>, selectable': seq<(string, string)>)
    ensures display' == display + NamespaceBlock(a)
    ensures selectable' == selectable + Navigation.PodRefs(a.pods) + Navigation.DeploymentRefs(a.deployments)
  {
    display' := display + [Header(a.name, |a.pods|, |a.deployments|)];
    display', selectable' := PushPods(display', selectable, a.pods);
    display', selectable' := PushDeployments(display', selectable', a.deployments);
    display' := display' + BlockTail(a);
  }

  /** The pod loop: one row and one (name, "Pod") pair per pod. */
  method PushPods(display: seq<DisplayRow>, selectable: seq<(string, string)>, pods: seq<K.PodInfo>)
    returns (display': seq<DisplayRow>, selectable': seq<(string, string)>)
    ensures display' == display + PodLines(pods)
    ensures selectable' == selectable + Navigation.PodRefs(pods)
  {
    display', selectable' := display, selectable;
    for p := 0 to |pods|
      invariant display' == display + PodLines(pods[..p])
      invariant selectable' == selectable + Navigation.PodRefs(pods[..p])
    {
      assert pods[..p + 1][..p] == pods[..p];
      var pod := pods[p];
      var healthy := pod.ready && pod.status == "Running";
      display' := display' + [PodRow(pod.name, pod.status, healthy)];
      selectable' := selectable' + [(pod.name, "Pod")];
    }
    assert pods[..|pods|] == pods;
  }

  /** The deployment loop: one row and one (name, "Deployment") pair per deployment. */
  method PushDeployments(display: seq<DisplayRow>, selectable: seq<(string, string)>,
                         deployments: seq<K.DeploymentInfo>)
    returns (display': seq<DisplayRow>, selectable': seq<(string, string)>)
    ensures display' == display + DeploymentLines(deployments)
    ensures selectable' == selectable + Navigation.DeploymentRefs(deployments)
  {
    display', selectable' := display, selectable;
    for d := 0 to |deployments|
      invariant display' == display + DeploymentLines(deployments[..d])
      invariant selectable' == selectable + Navigation.DeploymentRefs(deployments[..d])
    {
      assert deployments[..d + 1][..d] == deployments[..d];
      var deployment := deployments[d];
      var complete := deployment.readyReplicas == deployment.desiredReplicas;
      display' := display' + [DeploymentRow(deployment.name, deployment.readyReplicas, deployment.desiredReplicas, complete)];
      selectable' := selectable' + [(deployment.name, "Deployment")];
    }
    assert deployments[..|deployments|] == deployments;
  }

  /** `calculate_selectable_index`: count selectable rows until the target row is reached. */
  method CalculateSelectableIndex(displayItems: seq<DisplayRow>, target: nat) returns (r: nat)
    ensures r == SelectableIndex(displayItems, target)
  {
    var selectableCount := 0;
    for i := 0 to |displayItems|
      invariant selectableCount == SelectableCount(displayItems[..i])
      invariant i <= target || target >= |displayItems|
    {
      if i == target {
        return selectableCount;
      }
      assert displayItems[..i + 1][..i] == displayItems[..i];
      if Selectable(displayItems[i]) {
        selectableCount := selectableCount + 1;
      }
    }
    return 0;
  }

  // ================================================================ properties

  lemma {:induction false} SelectedRefsAppend(a: seq<DisplayRow>, b: seq<DisplayRow>)
    ensures SelectedRefs(a + b) == SelectedRefs(a) + SelectedRefs(b)
    decreases |b|
  {
    if b == [] {
      assert a + b == a;
    } else {
      var n := |b| - 1;
      assert (a + b)[..|a + b| - 1] == a + b[..n];
      assert (a + b)[|a + b| - 1] == b[n];
      SelectedRefsAppend(a, b[..n]);
    }
  }

  lemma SingleRef(row: DisplayRow)
    ensures SelectedRefs([row]) == if Selectable(row) then [RowRef(row)] else []
  {
    assert [row][..0] == [];
  }

  lemma {:induction false} PodLinesRefs(pods: seq<K.PodInfo>)
    ensures SelectedRefs(PodLines(pods)) == Navigation.PodRefs(pods)
    decreases |pods|
  {
    if pods != [] {
      var n := |pods| - 1;
      PodLinesRefs(pods[..n]);
      SelectedRefsAppend(PodLines(pods[..n]), [PodLine(pods[n])]);
      assert SelectedRefs([PodLine(pods[n])]) == [(pods[n].name, "Pod")] by {
        assert [PodLine(pods[n])][..0] == [];
      }
    }
  }

  lemma {:induction false} DeploymentLinesRefs(deployments: seq<K.DeploymentInfo>)
    ensures SelectedRefs(DeploymentLines(deployments)) == Navigation.DeploymentRefs(deployments)
    decreases |deployments|
  {
    if deployments != [] {
      var n := |deployments| - 1;
      DeploymentLinesRefs(deployments[..n]);
      SelectedRefsAppend(DeploymentLines(deployments[..n]), [DeploymentLine(deployments[n])]);
      assert SelectedRefs([DeploymentLine(deployments[n])]) == [(deployments[n].name, "Deployment")] by {
        assert [DeploymentLine(deployments[n])][..0] == [];
      }
    }
  }

  lemma NamespaceBlockRefs(a: K.NamespaceAnalysis)
    ensures SelectedRefs(NamespaceBlock(a)) == Navigation.PodRefs(a.pods) + Navigation.DeploymentRefs(a.deployments)
  {
    BlockRefs([Header(a.name, |a.pods|, |a.deployments|)], PodLines(a.pods), DeploymentLines(a.deployments), BlockTail(a));
    SingleRef(Header(a.name, |a.pods|, |a.deployments|));
    SingleRef(Blank);
    PodLinesRefs(a.pods);
    DeploymentLinesRefs(a.deployments);
  }

  lemma BlockRefs(header: seq<DisplayRow>, pods: seq<DisplayRow>, deployments: seq<DisplayRow>, tail: seq<DisplayRow>)
    ensures SelectedRefs(header + pods + deployments + tail)
      == SelectedRefs(header) + SelectedRefs(pods) + SelectedRefs(deployments) + SelectedRefs(tail)
  {
    SelectedRefsAppend(header, pods);
    SelectedRefsAppend(header + pods, deployments);
    SelectedRefsAppend(header + pods + deployments, tail);
  }

  lemma {:induction false} RawRowsRefs(analyses: seq<K.NamespaceAnalysis>)
    ensures SelectedRefs(RawRows(analyses)) == Navigation.Components(analyses)
    decreases |analyses|
  {
    if analyses != [] {
      var n := |analyses| - 1;
      RawRowsRefs(analyses[..n]);
      SelectedRefsAppend(RawRows(analyses[..n]), NamespaceBlock(analyses[n]));
      NamespaceBlockRefs(analyses[n]);
    }
  }

  /** The selectable rows stand, in order, for exactly the components Enter picks from: the
      k-th selectable row is the k-th element of the flattened analysis. */
  lemma SelectableRowsAreComponents(analyses: seq<K.NamespaceAnalysis>)
    ensures SelectedRefs(DisplayRows(analyses)) == Navigation.Components(analyses)
  {
    RawRowsRefs(analyses);
    var raw := RawRows(analyses);
    if |raw| > 0 && raw[|raw| - 1].Blank? {
      assert raw == raw[..|raw| - 1] + [Blank];
      SelectedRefsAppend(raw[..|raw| - 1], [Blank]);
      SingleRef(Blank);
    }
  }

  lemma {:induction false} CountIsRefs(rows: seq<DisplayRow>)
    ensures SelectableCount(rows) == |SelectedRefs(rows)|
    decreases |rows|
  {
    if rows != [] {
      CountIsRefs(rows[..|rows| - 1]);
    }
  }

  /** The screen shows as many selectable rows as Up and Down move through. */
  lemma SelectableCountIsListLength(analyses: seq<K.NamespaceAnalysis>)
    ensures SelectableCount(DisplayRows(analyses)) == Navigation.ComponentCount(analyses)
  {
    SelectableRowsAreComponents(analyses);
    CountIsRefs(DisplayRows(analyses));
    Navigation.ComponentsCounted(analyses);
  }

  /** Every separator in the raw rows follows a pod or deployment row. */
  lemma {:induction false} BlankFollowsComponent(analyses: seq<K.NamespaceAnalysis>)
    ensures forall i :: 0 <= i < |RawRows(analyses)| && RawRows(analyses)[i].Blank? ==>
      i > 0 && Selectable(RawRows(analyses)[i - 1])
    decreases |analyses|
  {
    if analyses != [] {
      var n := |analyses| - 1;
      BlankFollowsComponent(analyses[..n]);
      var prefix: seq<DisplayRow> := RawRows(analyses[..n]);
      var a := analyses[n];
      var block: seq<DisplayRow> := NamespaceBlock(a);
      var body: seq<DisplayRow> := [Header(a.name, |a.pods|, |a.deployments|)] + PodLines(a.pods) + DeploymentLines(a.deployments);
      assert RawRows(analyses) == prefix + block;
      PodLinesAt(a.pods);
      DeploymentLinesAt(a.deployments);
      forall i | 0 <= i < |prefix + block| && (prefix + block)[i].Blank?
        ensures i > 0 && Selectable((prefix + block)[i - 1])
      {
        if i >= |prefix| {
          var j := i - |prefix|;
          assert block[j].Blank?;
          assert j == |body| && |body| > 1;
          assert block[j - 1] == body[|body| - 1];
          if |a.deployments| > 0 {
            assert body[|body| - 1] == DeploymentLine(a.deployments[|a.deployments| - 1]);
          } else {
            assert body[|body| - 1] == PodLine(a.pods[|a.pods| - 1]);
          }
        } else {
          assert (prefix + block)[i] == prefix[i];
        }
      }
    }
  }

  /** The list never ends with a separator. */
  lemma NoTrailingBlank(analyses: seq<K.NamespaceAnalysis>)
    ensures |DisplayRows(analyses)| > 0 ==> !DisplayRows(analyses)[|DisplayRows(analyses)| - 1].Blank?
  {
    BlankFollowsComponent(analyses);
  }

  lemma {:induction false} CountPrefixGrows(rows: seq<DisplayRow>, k1: nat, k2: nat)
    requires k1 < k2 <= |rows| && Selectable(rows[k1])
    ensures SelectableCount(rows[..k1]) < SelectableCount(rows[..k2])
    decreases k2
  {
    assert rows[..k2][..k2 - 1] == rows[..k2 - 1];
    if k2 - 1 > k1 {
      CountPrefixGrows(rows, k1, k2 - 1);
    }
  }

  lemma {:induction false} FindSelectable(rows: seq<DisplayRow>, j: nat)
    requires j < SelectableCount(rows)
    ensures exists k :: 0 <= k < |rows| && Selectable(rows[k]) && SelectableCount(rows[..k]) == j
    decreases |rows|
  {
    var n := |rows| - 1;
    assert rows[..n] == rows[..|rows| - 1];
    if j < SelectableCount(rows[..n]) {
      FindSelectable(rows[..n], j);
      var k :| 0 <= k < n && Selectable(rows[..n][k]) && SelectableCount(rows[..n][..k]) == j;
      assert rows[..n][..k] == rows[..k];
    } else {
      assert Selectable(rows[n]) && SelectableCount(rows[..n]) == j;
    }
  }

  /** Exactly one row is highlighted when the selection is below the number of selectable
      rows, and none otherwise. */
  lemma HighlightUnique(rows: seq<DisplayRow>, selected: Option<nat>)
    ensures selected.GetOr(0) < SelectableCount(rows) ==> exists k :: Highlighted(rows, selected, k)
    ensures selected.GetOr(0) >= SelectableCount(rows) ==> forall k :: !Highlighted(rows, selected, k)
    ensures forall k1, k2 :: Highlighted(rows, selected, k1) && Highlighted(rows, selected, k2) ==> k1 == k2
  {
    if selected.GetOr(0) < SelectableCount(rows) {
      FindSelectable(rows, selected.GetOr(0));
      var k :| 0 <= k < |rows| && Selectable(rows[k]) && SelectableCount(rows[..k]) == selected.GetOr(0);
      assert Highlighted(rows, selected, k);
    }
    forall k | Highlighted(rows, selected, k)
      ensures selected.GetOr(0) < SelectableCount(rows)
    {
      assert rows[..|rows|] == rows;
      CountPrefixGrows(rows, k, |rows|);
    }
    forall k1, k2 | Highlighted(rows, selected, k1) && Highlighted(rows, selected, k2)
      ensures k1 == k2
    {
      if k1 < k2 {
        CountPrefixGrows(rows, k1, k2);
      } else if k2 < k1 {
        CountPrefixGrows(rows, k2, k1);
      }
    }
  }

  /** The highlighted row is the one Enter picks: it stands for the selected element of the
      flattened analysis. */
  lemma HighlightIsPick(analyses: seq<K.NamespaceAnalysis>, selected: Option<nat>, k: nat)
    requires Highlighted(DisplayRows(analyses), selected, k)
    ensures selected.GetOr(0) < |Navigation.Components(analyses)|
    ensures RowRef(DisplayRows(analyses)[k]) == Navigation.Components(analyses)[selected.GetOr(0)]
  {
    var rows := DisplayRows(analyses);
    SelectableRowsAreComponents(analyses);
    RefAtIndex(rows, k);
  }

  lemma {:induction false} RefAtIndex(rows: seq<DisplayRow>, k: nat)
    requires k < |rows| && Selectable(rows[k])
    ensures SelectableCount(rows[..k]) < |SelectedRefs(rows)|
    ensures SelectedRefs(rows)[SelectableCount(rows[..k])] == RowRef(rows[k])
    decreases |rows|
  {
    var n := |rows| - 1;
    CountIsRefs(rows[..k]);
    if k == n {
      assert rows[..k] == rows[..|rows| - 1];
    } else {
      assert rows[..n][..k] == rows[..k];
      RefAtIndex(rows[..n], k);
    }
  }
}
