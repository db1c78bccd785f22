/**
 * The AppRun pane (frontend/src/components/AppRunList.tsx): a navigation
 * `View` over clusters, auto-scaling groups, load balancers, applications
 * and versions; the breadcrumb it renders; the loader the view selects; the
 * loaders themselves; clearing an application's active version; and the
 * status shown for versions and nodes. Backend answers are parameters.
 */
module AppRunView {
  import opened Wrappers
  import opened Rejections
  import opened Text

  /** The union of the screens, each carrying what identifies it and what its breadcrumb shows. */
  datatype View =
    | Clusters
    | Cluster(clusterId: string, clusterName: string)
    | Asg(clusterId: string, clusterName: string, asgId: string, asgName: string)
    | Lb(clusterId: string, clusterName: string, asgId: string, asgName: string, lbId: string, lbName: string)
    | App(clusterId: string, clusterName: string, appId: string, appName: string, activeVersion: int)
    | Version(clusterId: string, clusterName: string, appId: string, appName: string, activeVersion: int, version: int)

  const ClustersCaption: string := "クラスタ"

  /** How many screens deep the view is: the length of its breadcrumb. */
  function Depth(v: View): (d: nat)
    ensures 1 <= d <= 4
  {
    match v
    case Clusters => 1
    case Cluster(_, _) => 2
    case Asg(_, _, _, _) => 3
    case App(_, _, _, _, _) => 3
    case Lb(_, _, _, _, _, _) => 4
    case Version(_, _, _, _, _, _) => 4
  }

  /** The screen `i` levels from the top on the way to `v`, built from `v`'s own fields. */
  function AncestorAt(v: View, i: nat): (a: View)
    requires i < Depth(v)
    ensures Depth(a) == i + 1
  {
    if i == 0 then Clusters
    else if i == 1 then Cluster(v.clusterId, v.clusterName)
    else if i == 2 then
      (if v.Asg? || v.Lb? then Asg(v.clusterId, v.clusterName, v.asgId, v.asgName)
       else App(v.clusterId, v.clusterName, v.appId, v.appName, v.activeVersion))
    else v
  }

  /** The label a screen has in the breadcrumb. */
  function Caption(v: View): string {
    match v
    case Clusters => ClustersCaption
    case Cluster(_, name) => name
    case Asg(_, _, _, name) => name
    case Lb(_, _, _, _, _, name) => name
    case App(_, _, _, name, _) => name
    case Version(_, _, _, _, _, version) => "v" + IntToString(version)
  }

  /** The last step of the way to a view is the view itself. */
  lemma AncestorAtDepthIsSelf(v: View)
    ensures AncestorAt(v, Depth(v) - 1) == v
  {
    match v
    case Clusters =>
    case Cluster(_, _) =>
    case Asg(_, _, _, _) =>
    case App(_, _, _, _, _) =>
    case Lb(_, _, _, _, _, _) =>
    case Version(_, _, _, _, _, _) =>
  }

  /** Going up to a screen keeps the way to it: its breadcrumb is a prefix of the current one. */
  lemma AncestorOfAncestor(v: View, i: nat, j: nat)
    requires j <= i < Depth(v)
    ensures AncestorAt(AncestorAt(v, i), j) == AncestorAt(v, j)
  {
  }

  /** An item of the breadcrumb: its label, and the view clicking it opens (`None`: not clickable). */
  datatype BreadcrumbItem = BreadcrumbItem(caption: string, onClick: Option<View>)

  /**
   * `renderBreadcrumb`: one item per screen on the way to the view; every item
   * but the last opens its screen, the last one (the current screen) opens nothing.
   */
  method RenderBreadcrumb(view: View) returns (items: seq<BreadcrumbItem>)
    ensures |items| == Depth(view)
    ensures forall i :: 0 <= i < |items| ==> items[i].caption == Caption(AncestorAt(view, i))
    ensures forall i :: 0 <= i < |items| - 1 ==> items[i].onClick == Some(AncestorAt(view, i))
    ensures items[|items| - 1].onClick.None?
  {
    items := [];
    items := items + [BreadcrumbItem(ClustersCaption, if !view.Clusters? then Some(Clusters) else None)];
    if !view.Clusters? {
      items := items + [BreadcrumbItem(view.clusterName,
                                       if !view.Cluster? then Some(Cluster(view.clusterId, view.clusterName)) else None)];
    }
    if view.Asg? || view.Lb? {
      items := items + [BreadcrumbItem(view.asgName,
                                       if !view.Asg? then Some(Asg(view.clusterId, view.clusterName, view.asgId, view.asgName))
                                       else None)];
    }
    if view.Lb? {
      items := items + [BreadcrumbItem(view.lbName, None)];
    }
    if view.App? || view.Version? {
      items := items + [BreadcrumbItem(view.appName,
                                       if view.Version?
                                       then Some(App(view.clusterId, view.clusterName, view.appId, view.appName, view.activeVersion))
                                       else None)];
    }
    if view.Version? {
      items := items + [BreadcrumbItem("v" + IntToString(view.version), None)];
    }
  }

  /** The loader the view effect calls, with its arguments. */
  datatype Loader =
    | LoadClustersCall
    | LoadClusterDetailsCall(clusterId: string)
    | LoadAppVersionsCall(appId: string)
    | LoadASGDetailsCall(clusterId: string, asgId: string)
    | LoadLBNodesCall(clusterId: string, asgId: string, lbId: string)
    | LoadVersionDetailCall(appId: string, version: int)

  /** The loader dispatch of the view effect: exactly one loader per kind of view, fed from the view's ids. */
  function LoaderFor(v: View): (l: Loader)
    ensures l.LoadClustersCall? <==> v.Clusters?
    ensures l.LoadClusterDetailsCall? <==> v.Cluster?
    ensures l.LoadAppVersionsCall? <==> v.App?
    ensures l.LoadASGDetailsCall? <==> v.Asg?
    ensures l.LoadLBNodesCall? <==> v.Lb?
    ensures l.LoadVersionDetailCall? <==> v.Version?
  {
    match v
    case Clusters => LoadClustersCall
    case Cluster(c, _) => LoadClusterDetailsCall(c)
    case App(_, _, a, _, _) => LoadAppVersionsCall(a)
    case Asg(c, _, g, _) => LoadASGDetailsCall(c, g)
    case Lb(c, _, g, _, b, _) => LoadLBNodesCall(c, g, b)
    case Version(_, _, a, _, _, n) => LoadVersionDetailCall(a, n)
  }

  /** What a view is about: its kind and ids, leaving out the names it only displays. */
  function Target(v: View): (string, seq<string>, int) {
    match v
    case Clusters => ("clusters", [], 0)
    case Cluster(c, _) => ("cluster", [c], 0)
    case App(_, _, a, _, _) => ("app", [a], 0)
    case Asg(c, _, g, _) => ("asg", [c, g], 0)
    case Lb(c, _, g, _, b, _) => ("lb", [c, g, b], 0)
    case Version(_, _, a, _, _, n) => ("version", [a], n)
  }

  /** Views load the same thing exactly when they are about the same thing. */
  lemma LoaderMatchesTarget(v1: View, v2: View)
    ensures LoaderFor(v1) == LoaderFor(v2) <==> Target(v1) == Target(v2)
  {
    match v1
    case Clusters =>
    case Cluster(_, _) =>
    case App(_, _, _, _, _) =>
    case Asg(_, _, _, _) =>
    case Lb(_, _, _, _, _, _) =>
    case Version(_, _, _, _, _, _) =>
  }

  // ----- the status cells

  datatype VersionStatus = Active | Draining | NoStatus

  /** The status cell of a version row. */
  function VersionStatusOf(version: int, activeVersion: int, activeNodeCount: int): (s: VersionStatus)
    ensures s == Active <==> version == activeVersion
    ensures s == Draining <==> version != activeVersion && activeNodeCount > 0
  {
    if version == activeVersion then Active
    else if activeNodeCount > 0 then Draining
    else NoStatus
  }

  /** The "Active" mark of the version screen. */
  predicate VersionScreenShowsActive(v: View)
    requires v.Version?
  {
    v.version == v.activeVersion
  }

  datatype AppVersionInfo = AppVersionInfo(version: int, activeNodeCount: int)

  /** Opening a row of the versions table shows "Active" on the version screen exactly when the row did. */
  lemma OpenedVersionKeepsActiveMark(app: View, row: AppVersionInfo)
    requires app.App?
    ensures var shown := Version(app.clusterId, app.clusterName, app.appId, app.appName, app.activeVersion, row.version);
            VersionScreenShowsActive(shown) <==> VersionStatusOf(row.version, app.activeVersion, row.activeNodeCount) == Active
  {
  }

  /** Among versions with distinct numbers, an "Active" row is the only one. */
  lemma AtMostOneActiveRow(versions: seq<AppVersionInfo>, activeVersion: int, i: nat, j: nat)
    requires forall a, b :: 0 <= a < b < |versions| ==> versions[a].version != versions[b].version
    requires i < |versions| && j < |versions| && i != j
    requires VersionStatusOf(versions[i].version, activeVersion, versions[i].activeNodeCount) == Active
    ensures VersionStatusOf(versions[j].version, activeVersion, versions[j].activeNodeCount) != Active
  {
    if i < j {
      assert versions[i].version != versions[j].version;
    } else {
      assert versions[j].version != versions[i].version;
    }
  }

  /** The health mark of a worker or load-balancer node: "running" or "healthy", in any letter case. */
  predicate NodeHealthy(status: string) {
    ToLower(status) == "running" || ToLower(status) == "healthy"
  }

  /** Lower-casing forgets the letter case the status came in. */
  lemma LowerOfUpper(s: string)
    ensures ToLower(ToUpper(s)) == ToLower(s)
  {
    var a := ToLower(ToUpper(s));
    var b := ToLower(s);
    forall i | 0 <= i < |s| ensures a[i] == b[i] {
      var c := s[i];
      if 'a' <= c <= 'z' {
        assert ToUpperChar(c) as int == c as int - 32;
      }
    }
  }

  lemma NodeHealthIgnoresCase(status: string)
    ensures NodeHealthy(ToUpper(status)) <==> NodeHealthy(status)
  {
    LowerOfUpper(status);
  }

  lemma NodeHealthExamples()
    ensures NodeHealthy("Running") && NodeHealthy("HEALTHY") && !NodeHealthy("stopped")
  {
    assert ToLower("Running") == "running";
    assert ToLower("HEALTHY") == "healthy";
    assert ToLower("stopped")[0] == 's';
  }

  // ----- the pane's lists

  datatype ClusterInfo = ClusterInfo(id: string, name: string)
  datatype AppInfo = AppInfo(id: string, name: string, activeVersion: int)
  datatype ASGInfo = ASGInfo(id: string, name: string)
  datatype LBInfo = LBInfo(id: string, name: string)
  datatype NodeInfo = NodeInfo(id: string, status: string)
  datatype VersionDetail = VersionDetail(version: int, image: string)

  /** Everything the loaders fill in. */
  datatype Lists = Lists(clusters: seq<ClusterInfo>, apps: seq<AppInfo>, versions: seq<AppVersionInfo>,
                         asgs: seq<ASGInfo>, lbs: seq<LBInfo>, workerNodes: seq<NodeInfo>, lbNodes: seq<NodeInfo>,
                         lbNodesMap: map<string, seq<NodeInfo>>, versionDetail: Option<VersionDetail>)

  const NoLists: Lists := Lists([], [], [], [], [], [], [], map[], None)

  /** The nodes a load balancer's answer gives: its list, or none when the call failed. */
  function NodesOf(answer: Result<seq<NodeInfo>, Thrown>): seq<NodeInfo> {
    if answer.Success? then answer.value else []
  }

  /** The node map `loadASGDetails` builds from the answers, one per load balancer, in order. */
  function NodesMapOf(lbs: seq<LBInfo>, answers: seq<Result<seq<NodeInfo>, Thrown>>): map<string, seq<NodeInfo>>
    requires |answers| == |lbs|
    decreases |lbs|
  {
    if lbs == [] then map[]
    else NodesMapOf(lbs[..|lbs| - 1], answers[..|lbs| - 1])[lbs[|lbs| - 1].id := NodesOf(answers[|lbs| - 1])]
  }

  /** The map has an entry for exactly the listed load balancers. */
  lemma {:induction false} NodesMapKeys(lbs: seq<LBInfo>, answers: seq<Result<seq<NodeInfo>, Thrown>>, id: string)
    requires |answers| == |lbs|
    ensures id in NodesMapOf(lbs, answers) <==> exists i :: 0 <= i < |lbs| && lbs[i].id == id
    decreases |lbs|
  {
    if lbs != [] {
      var n := |lbs| - 1;
      NodesMapKeys(lbs[..n], answers[..n], id);
      if id in NodesMapOf(lbs, answers) && id != lbs[n].id {
        var i :| 0 <= i < n && lbs[..n][i].id == id;
        assert lbs[i].id == id;
      }
      if (exists i :: 0 <= i < |lbs| && lbs[i].id == id) && id != lbs[n].id {
        var i :| 0 <= i < |lbs| && lbs[i].id == id;
        assert i < n && lbs[..n][i].id == id;
      }
    }
  }

  /** A load balancer's entry is the answer for it, or for the last load balancer listed with the same id. */
  lemma {:induction false} NodesMapLastWins(lbs: seq<LBInfo>, answers: seq<Result<seq<NodeInfo>, Thrown>>, i: nat)
    requires |answers| == |lbs| && i < |lbs|
    requires forall j :: i < j < |lbs| ==> lbs[j].id != lbs[i].id
    ensures lbs[i].id in NodesMapOf(lbs, answers)
    ensures NodesMapOf(lbs, answers)[lbs[i].id] == NodesOf(answers[i])
    decreases |lbs|
  {
    var n := |lbs| - 1;
    if i < n {
      assert lbs[n].id != lbs[i].id;
      NodesMapLastWins(lbs[..n], answers[..n], i);
    }
  }

  /** `lbNodesMap[lb.id] || []`: the nodes the screen shows under a load balancer. */
  function ShownNodes(m: map<string, seq<NodeInfo>>, lbId: string): seq<NodeInfo> {
    if lbId in m then m[lbId] else []
  }

  /** Under a listed load balancer the screen shows the answer for it (for the last one, when ids repeat). */
  lemma ShownNodesOfListed(lbs: seq<LBInfo>, answers: seq<Result<seq<NodeInfo>, Thrown>>, i: nat)
    requires |answers| == |lbs| && i < |lbs|
    requires forall j :: i < j < |lbs| ==> lbs[j].id != lbs[i].id
    ensures ShownNodes(NodesMapOf(lbs, answers), lbs[i].id) == NodesOf(answers[i])
  {
    NodesMapLastWins(lbs, answers, i);
  }

  /** Under an id that was not listed the screen shows no nodes. */
  lemma ShownNodesOfUnlisted(lbs: seq<LBInfo>, answers: seq<Result<seq<NodeInfo>, Thrown>>, id: string)
    requires |answers| == |lbs|
    requires forall i :: 0 <= i < |lbs| ==> lbs[i].id != id
    ensures ShownNodes(NodesMapOf(lbs, answers), id) == []
  {
    NodesMapKeys(lbs, answers, id);
  }

  const ClearFailedMessage: string := "アクティブバージョンのクリアに失敗しました"

  class AppRunList {
    const profile: string
    var view: View
    var lists: Lists
    /** A `setView` happened that the view effect has not handled yet. */
    var viewChanged: bool

    constructor (profile: string)
      ensures this.profile == profile && view == Clusters && lists == NoLists && viewChanged
    {
      this.profile := profile;
      view, lists, viewChanged := Clusters, NoLists, true;
    }

    // ----- transitions

    /** A cluster row opens the cluster. */
    method SelectCluster(c: ClusterInfo)
      requires view.Clusters?
      modifies this
      ensures view == Cluster(c.id, c.name) && lists == old(lists) && viewChanged
    {
      view, viewChanged := Cluster(c.id, c.name), true;
    }

    /** An application row of the cluster screen opens the application with its active version. */
    method SelectApp(app: AppInfo)
      requires view.Cluster?
      modifies this
      ensures view == App(old(view).clusterId, old(view).clusterName, app.id, app.name, app.activeVersion)
      ensures lists == old(lists) && viewChanged
    {
      view, viewChanged := App(view.clusterId, view.clusterName, app.id, app.name, app.activeVersion), true;
    }

    /** An auto-scaling group row of the cluster screen opens the group. */
    method SelectAsg(asg: ASGInfo)
      requires view.Cluster?
      modifies this
      ensures view == Asg(old(view).clusterId, old(view).clusterName, asg.id, asg.name)
      ensures lists == old(lists) && viewChanged
    {
      view, viewChanged := Asg(view.clusterId, view.clusterName, asg.id, asg.name), true;
    }

    /** A version row of the application screen opens the version, keeping the active version. */
    method SelectVersion(row: AppVersionInfo)
      requires view.App?
      modifies this
      ensures view == Version(old(view).clusterId, old(view).clusterName, old(view).appId, old(view).appName,
                              old(view).activeVersion, row.version)
      ensures lists == old(lists) && viewChanged
    {
      view := Version(view.clusterId, view.clusterName, view.appId, view.appName, view.activeVersion, row.version);
      viewChanged := true;
    }

    /** A clickable breadcrumb item opens a strict ancestor of the current screen. */
    method BreadcrumbClick(i: nat)
      requires i < Depth(view) - 1
      modifies this
      ensures view == AncestorAt(old(view), i) && Depth(view) < Depth(old(view))
      ensures lists == old(lists) && viewChanged
    {
      view, viewChanged := AncestorAt(view, i), true;
    }

    /** The view effect: after a `setView`, the loader the new view selects. */
    method ViewEffect() returns (loader: Option<Loader>)
      modifies this
      ensures old(viewChanged) ==> loader == Some(LoaderFor(view))
      ensures !old(viewChanged) ==> loader.None?
      ensures view == old(view) && lists == old(lists) && !viewChanged
    {
      loader := if viewChanged then Some(LoaderFor(view)) else None;
      viewChanged := false;
    }

    // ----- loaders

    /** `loadClusters`: the clusters, or none when the call fails. */
    method LoadClusters(listed: Result<seq<ClusterInfo>, Thrown>)
      modifies this
      ensures profile == "" ==> lists == old(lists)
      ensures profile != "" ==> lists == old(lists).(clusters := if listed.Success? then listed.value else [])
      ensures view == old(view) && viewChanged == old(viewChanged)
    {
      if profile == "" {
        return;
      }
      lists := lists.(clusters := if listed.Success? then listed.value else []);
    }

    /** `loadClusterDetails`: applications and groups together; if either call fails nothing changes. */
    method LoadClusterDetails(clusterId: string, appsListed: Result<seq<AppInfo>, Thrown>,
                              asgsListed: Result<seq<ASGInfo>, Thrown>)
      modifies this
      ensures profile == "" || appsListed.Failure? || asgsListed.Failure? ==> lists == old(lists)
      ensures profile != "" && appsListed.Success? && asgsListed.Success? ==>
                lists == old(lists).(apps := appsListed.value, asgs := asgsListed.value)
      ensures view == old(view) && viewChanged == old(viewChanged)
    {
      if profile == "" || appsListed.Failure? || asgsListed.Failure? {
        return;
      }
      lists := lists.(apps := appsListed.value, asgs := asgsListed.value);
    }

    /** `loadAppVersions`: the versions; a failure keeps the previous ones. */
    method LoadAppVersions(appId: string, listed: Result<seq<AppVersionInfo>, Thrown>)
      modifies this
      ensures profile == "" || listed.Failure? ==> lists == old(lists)
      ensures profile != "" && listed.Success? ==> lists == old(lists).(versions := listed.value)
      ensures view == old(view) && viewChanged == old(viewChanged)
    {
      if profile == "" || listed.Failure? {
        return;
      }
      lists := lists.(versions := listed.value);
    }

    /**
     * `loadASGDetails`: load balancers and workers together (if either call
     * fails nothing changes), then one node answer per load balancer, in
     * order, a failed answer counting as no nodes.
     */
    method LoadASGDetails(clusterId: string, asgId: string,
                          lbsListed: Result<seq<LBInfo>, Thrown>, workersListed: Result<seq<NodeInfo>, Thrown>,
                          nodeAnswers: seq<Result<seq<NodeInfo>, Thrown>>)
      requires lbsListed.Success? ==> |nodeAnswers| == |lbsListed.value|
      modifies this
      ensures profile == "" || lbsListed.Failure? || workersListed.Failure? ==> lists == old(lists)
      ensures profile != "" && lbsListed.Success? && workersListed.Success? ==>
                lists == old(lists).(lbs := lbsListed.value, workerNodes := workersListed.value,
                                     lbNodesMap := NodesMapOf(lbsListed.value, nodeAnswers))
      ensures view == old(view) && viewChanged == old(viewChanged)
    {
      if profile == "" || lbsListed.Failure? || workersListed.Failure? {
        return;
      }
      var lbList := lbsListed.value;
      var nodesMap: map<string, seq<NodeInfo>> := map[];
      for k := 0 to |lbList|
        invariant nodesMap == NodesMapOf(lbList[..k], nodeAnswers[..k])
      {
        assert lbList[..k + 1][..k] == lbList[..k];
        assert nodeAnswers[..k + 1][..k] == nodeAnswers[..k];
        nodesMap := nodesMap[lbList[k].id := NodesOf(nodeAnswers[k])];
      }
      assert lbList[..|lbList|] == lbList && nodeAnswers[..|lbList|] == nodeAnswers;
      lists := lists.(lbs := lbList, workerNodes := workersListed.value, lbNodesMap := nodesMap);
    }

    /** `loadLBNodes`: the load balancer's nodes; a failure keeps the previous ones. */
    method LoadLBNodes(clusterId: string, asgId: string, lbId: string, listed: Result<seq<NodeInfo>, Thrown>)
      modifies this
      ensures profile == "" || listed.Failure? ==> lists == old(lists)
      ensures profile != "" && listed.Success? ==> lists == old(lists).(lbNodes := listed.value)
      ensures view == old(view) && viewChanged == old(viewChanged)
    {
      if profile == "" || listed.Failure? {
        return;
      }
      lists := lists.(lbNodes := listed.value);
    }

    /** `loadVersionDetail`: the version's detail, or none when the call fails. */
    method LoadVersionDetail(appId: string, version: int, fetched: Result<VersionDetail, Thrown>)
      modifies this
      ensures profile == "" ==> lists == old(lists)
      ensures profile != "" ==> lists == old(lists).(versionDetail := if fetched.Success? then Some(fetched.value) else None)
      ensures view == old(view) && viewChanged == old(viewChanged)
    {
      if profile == "" {
        return;
      }
      lists := lists.(versionDetail := if fetched.Success? then Some(fetched.value) else None);
    }

    /**
     * `handleClearActiveVersion`, offered on an application screen whose
     * active version is set: on success the screen becomes the same
     * application with active version 0 and its versions are reloaded; on
     * failure the screen stays and the alert text is returned.
     */
    method HandleClearActiveVersion(cleared: Outcome<Thrown>, versionsListed: Result<seq<AppVersionInfo>, Thrown>)
      returns (alertMessage: Option<string>)
      requires view.App? && view.activeVersion > 0
      modifies this
      ensures profile == "" ==> alertMessage.None? && view == old(view) && lists == old(lists) && viewChanged == old(viewChanged)
      ensures profile != "" && cleared.Fail? ==>
                alertMessage == Some(ClearFailedMessage) && view == old(view) && lists == old(lists)
                && viewChanged == old(viewChanged)
      ensures profile != "" && cleared.Pass? ==>
                && alertMessage.None?
                && view == App(old(view).clusterId, old(view).clusterName, old(view).appId, old(view).appName, 0) && viewChanged
                && lists == (if versionsListed.Success? then old(lists).(versions := versionsListed.value) else old(lists))
    {
      if profile == "" {
        return None;
      }
      if cleared.Fail? {
        return Some(ClearFailedMessage);
      }
      var appId := view.appId;
      view, viewChanged := App(view.clusterId, view.clusterName, appId, view.appName, 0), true;
      LoadAppVersions(appId, versionsListed);
      alertMessage := None;
    }
  }

  /** After clearing, no version numbered from 1 up is marked "Active". */
  lemma ClearedAppHasNoActiveRow(cleared: View, row: AppVersionInfo)
    requires cleared.App? && cleared.activeVersion == 0 && row.version >= 1
    ensures VersionStatusOf(row.version, cleared.activeVersion, row.activeNodeCount) != Active
  {
  }
}
