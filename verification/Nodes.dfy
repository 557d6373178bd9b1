/** What the controller reads off the node list. */
module Nodes {
  import opened Prelude
  import opened Api

  // ---- selectors ----

  predicate IsControlPlane(node: Node) {
    ControlPlaneLabel in node.labels && node.labels[ControlPlaneLabel] == "true"
  }

  const ControlPlaneSelector: Selector := [Requirement(ControlPlaneLabel, In, ["true"])]
  const WorkerSelector: Selector := [Requirement(ControlPlaneLabel, NotIn, ["true"])]

  predicate Meets(labels: Labels, r: Requirement) {
    match r.operator
    case In => r.key in labels && labels[r.key] in r.values
    case NotIn => r.key !in labels || labels[r.key] !in r.values
  }

  predicate Matches(selector: Selector, labels: Labels) {
    forall r | r in selector :: Meets(labels, r)
  }

  /** `In` and `NotIn` requirements need at least one value. */
  predicate ValidSelector(selector: Selector) {
    forall r | r in selector :: r.values != []
  }

  /** The nodes a selector picks, in list order. */
  function Matching(nodes: seq<Node>, selector: Selector): seq<Node> {
    if nodes == [] then []
    else
      var last := nodes[|nodes| - 1];
      var front := Matching(nodes[..|nodes| - 1], selector);
      if Matches(selector, last.labels) then front + [last] else front
  }

  /** `None` is the error for a selector that does not parse or that no node matches. */
  function Selected(nodes: seq<Node>, selector: Selector): Option<seq<Node>> {
    if !ValidSelector(selector) || Matching(nodes, selector) == [] then None
    else Some(Matching(nodes, selector))
  }

  method FindMatchingNodes(nodeList: seq<Node>, selector: Selector) returns (r: Option<seq<Node>>)
    ensures r == Selected(nodeList, selector)
  {
    if !ValidSelector(selector) {
      return None;
    }
    var targetNodes: seq<Node> := [];
    for i := 0 to |nodeList|
      invariant targetNodes == Matching(nodeList[..i], selector)
    {
      assert nodeList[..i + 1][..i] == nodeList[..i];
      if Matches(selector, nodeList[i].labels) {
        targetNodes := targetNodes + [nodeList[i]];
      }
    }
    assert nodeList[..|nodeList|] == nodeList;
    if targetNodes == [] {
      return None;
    }
    return Some(targetNodes);
  }

  lemma {:induction false} MatchingIsFilter(nodes: seq<Node>, selector: Selector, node: Node)
    ensures node in Matching(nodes, selector) <==> node in nodes && Matches(selector, node.labels)
  {
    if nodes != [] {
      var front := nodes[..|nodes| - 1];
      MatchingIsFilter(front, selector, node);
      assert nodes == front + [nodes[|nodes| - 1]];
    }
  }

  /** Strictly rising places of the list. */
  predicate Rising(places: seq<int>, length: nat) {
    && (forall i | 0 <= i < |places| :: 0 <= places[i] < length)
    && forall i, j | 0 <= i < j < |places| :: places[i] < places[j]
  }

  lemma RisingOn(places: seq<int>, n: nat)
    requires Rising(places, n)
    ensures Rising(places, n + 1) && Rising(places + [n], n + 1)
    ensures forall p | 0 <= p <= n :: p in places + [n] <==> p in places || p == n
    ensures n !in places
  {
  }

  /** The nodes at the places, in order. */
  function NodesAt(nodes: seq<Node>, places: seq<int>): (picked: seq<Node>)
    requires Rising(places, |nodes|)
  {
    seq(|places|, i requires 0 <= i < |places| => nodes[places[i]])
  }

  lemma OneMorePlace(nodes: seq<Node>, before: seq<int>)
    requires nodes != [] && Rising(before, |nodes| - 1)
    ensures Rising(before, |nodes|) && Rising(before + [|nodes| - 1], |nodes|)
    ensures NodesAt(nodes[..|nodes| - 1], before) == NodesAt(nodes, before)
    ensures NodesAt(nodes, before + [|nodes| - 1]) == NodesAt(nodes, before) + [nodes[|nodes| - 1]]
  {
    RisingOn(before, |nodes| - 1);
  }

  /** The nodes are picked in the order of the list, each as often as it is listed. */
  lemma {:induction false} MatchingKeepsOrder(nodes: seq<Node>, selector: Selector) returns (places: seq<int>)
    ensures Rising(places, |nodes|) && Matching(nodes, selector) == NodesAt(nodes, places)
    ensures forall p | 0 <= p < |nodes| :: p in places <==> Matches(selector, nodes[p].labels)
  {
    places := [];
    if nodes != [] {
      var n := |nodes| - 1;
      var before := MatchingKeepsOrder(nodes[..n], selector);
      RisingOn(before, n);
      places := if Matches(selector, nodes[n].labels) then before + [n] else before;
      OneMorePlace(nodes, before);
      forall p | 0 <= p < |nodes| ensures p in places <==> Matches(selector, nodes[p].labels) {
        if p < n { assert nodes[..n][p] == nodes[p]; }
      }
    }
  }

  lemma SelectorsMeanRoles(node: Node)
    ensures Matches(ControlPlaneSelector, node.labels) <==> IsControlPlane(node)
    ensures Matches(WorkerSelector, node.labels) <==> !IsControlPlane(node)
  {
    assert ControlPlaneSelector[0] in ControlPlaneSelector;
    assert WorkerSelector[0] in WorkerSelector;
  }

  /** What the selectors pick, down to the label. */
  lemma SelectorsSpelledOut(labels: Labels)
    ensures Matches(ControlPlaneSelector, labels) <==>
      "node-role.kubernetes.io/control-plane" in labels && labels["node-role.kubernetes.io/control-plane"] == "true"
    ensures Matches(WorkerSelector, labels) <==>
      "node-role.kubernetes.io/control-plane" !in labels || labels["node-role.kubernetes.io/control-plane"] != "true"
  {
    assert ControlPlaneSelector[0] in ControlPlaneSelector;
    assert WorkerSelector[0] in WorkerSelector;
  }

  /** The two selectors split the list: every node, repeated entries included, falls on exactly one side. */
  lemma {:induction false} SelectorsPartition(nodes: seq<Node>)
    ensures multiset(nodes) ==
      multiset(Matching(nodes, ControlPlaneSelector)) + multiset(Matching(nodes, WorkerSelector))
    ensures forall n :: !(n in Matching(nodes, ControlPlaneSelector) && n in Matching(nodes, WorkerSelector))
  {
    forall n ensures !(n in Matching(nodes, ControlPlaneSelector) && n in Matching(nodes, WorkerSelector)) {
      SelectorsMeanRoles(n);
      MatchingIsFilter(nodes, ControlPlaneSelector, n);
      MatchingIsFilter(nodes, WorkerSelector, n);
    }
    if nodes != [] {
      var last := nodes[|nodes| - 1];
      SelectorsPartition(nodes[..|nodes| - 1]);
      SelectorsMeanRoles(last);
      assert nodes == nodes[..|nodes| - 1] + [last];
    }
  }

  predicate ControlPlaneOnly(nodes: seq<Node>) {
    forall n | n in nodes :: IsControlPlane(n)
  }

  method ControlPlaneOnlyCluster(nodeList: seq<Node>) returns (r: bool)
    ensures r <==> ControlPlaneOnly(nodeList)
  {
    for i := 0 to |nodeList|
      invariant forall j | 0 <= j < i :: IsControlPlane(nodeList[j])
    {
      if !IsControlPlane(nodeList[i]) {
        assert nodeList[i] in nodeList;
        return false;
      }
    }
    return true;
  }

  /** Past the control-plane-only check the worker selector always finds a node. */
  lemma WorkersExist(nodes: seq<Node>)
    requires !ControlPlaneOnly(nodes)
    ensures Selected(nodes, WorkerSelector).Some?
  {
    var n :| n in nodes && !IsControlPlane(n);
    SelectorsMeanRoles(n);
    MatchingIsFilter(nodes, WorkerSelector, n);
  }

  // ---- upgrade state of nodes ----

  /** The status of the first `Ready` condition, if there is one. */
  function ReadyStatus(conditions: seq<TypedCondition>): Option<Truth> {
    if conditions == [] then None
    else if conditions[0].ctype == "Ready" then Some(conditions[0].status)
    else ReadyStatus(conditions[1..])
  }

  /** What a stage drives nodes to: an operating system image, or a kubelet version. */
  datatype Target = OsImage(prettyName: string) | KubeletVersion(version: string)

  function Reported(node: Node, target: Target): string {
    if target.OsImage? then node.osImage else node.kubeletVersion
  }

  function Wanted(target: Target): string {
    if target.OsImage? then target.prettyName else target.version
  }

  /** Ready, schedulable and at the target. */
  predicate NodeUpgraded(node: Node, target: Target) {
    ReadyStatus(node.conditions) == Some(True) && !node.unschedulable && Reported(node, target) == Wanted(target)
  }

  predicate AllUpgraded(nodes: seq<Node>, target: Target) {
    forall n | n in nodes :: NodeUpgraded(n, target)
  }

  /** The first condition of type `Ready` says yes; conditions of other types do not matter. */
  ghost predicate SaysReady(conditions: seq<TypedCondition>) {
    exists i | 0 <= i < |conditions| :: conditions[i] == TypedCondition("Ready", True) && NoneReadyBefore(conditions, i)
  }

  ghost predicate NoneReadyBefore(conditions: seq<TypedCondition>, i: nat)
    requires i <= |conditions|
  {
    forall j | 0 <= j < i :: conditions[j].ctype != "Ready"
  }

  /** The node is ready, takes work, and runs what the stage drives it to. */
  ghost predicate NodeAt(node: Node, target: Target) {
    && SaysReady(node.conditions) && !node.unschedulable
    && match target
       case OsImage(prettyName) => node.osImage == prettyName
       case KubeletVersion(version) => node.kubeletVersion == version
  }

  lemma {:induction false} ReadyStatusMeans(conditions: seq<TypedCondition>)
    ensures ReadyStatus(conditions) == Some(True) <==> SaysReady(conditions)
  {
    if conditions != [] {
      var rest := conditions[1..];
      ReadyStatusMeans(rest);
      if conditions[0].ctype == "Ready" {
        assert NoneReadyBefore(conditions, 0);
      } else {
        if SaysReady(rest) {
          var i: nat :| i < |rest| && rest[i] == TypedCondition("Ready", True) && NoneReadyBefore(rest, i);
          assert conditions[i + 1] == rest[i];
          assert forall j | 0 <= j < i + 1 :: j > 0 ==> conditions[j] == rest[j - 1];
          assert NoneReadyBefore(conditions, i + 1);
        }
        if SaysReady(conditions) {
          var i: nat :| i < |conditions| && conditions[i] == TypedCondition("Ready", True) &&
            NoneReadyBefore(conditions, i);
          assert rest[i - 1] == conditions[i] && forall j | 0 <= j < i - 1 :: rest[j] == conditions[j + 1];
          assert NoneReadyBefore(rest, i - 1);
        }
      }
    }
  }

  /** An upgraded node, in terms of its fields. */
  lemma NodeUpgradedMeans(node: Node, target: Target)
    ensures NodeUpgraded(node, target) <==> NodeAt(node, target)
    ensures NodeUpgraded(node, target) <==>
      && (exists i | 0 <= i < |node.conditions| :: node.conditions[i] == TypedCondition("Ready", True) &&
            forall j | 0 <= j < i :: node.conditions[j].ctype != "Ready")
      && !node.unschedulable
      && (target.OsImage? ==> node.osImage == target.prettyName)
      && (target.KubeletVersion? ==> node.kubeletVersion == target.version)
  {
    ReadyStatusMeans(node.conditions);
  }

  /** Every node of the list, by its place in it. */
  ghost predicate AllAt(nodes: seq<Node>, target: Target) {
    forall i | 0 <= i < |nodes| :: NodeAt(nodes[i], target)
  }

  lemma AllUpgradedMeans(nodes: seq<Node>, target: Target)
    ensures AllUpgraded(nodes, target) <==> AllAt(nodes, target)
  {
    forall i | 0 <= i < |nodes| ensures NodeUpgraded(nodes[i], target) <==> NodeAt(nodes[i], target) {
      NodeUpgradedMeans(nodes[i], target);
    }
  }

  method NodeReadyStatus(node: Node) returns (nodeReadyStatus: Option<Truth>)
    ensures nodeReadyStatus == ReadyStatus(node.conditions)
    ensures nodeReadyStatus == Some(True) <==> SaysReady(node.conditions)
  {
    ReadyStatusMeans(node.conditions);
    nodeReadyStatus := None;
    for i := 0 to |node.conditions|
      invariant nodeReadyStatus == None && ReadyStatus(node.conditions) == ReadyStatus(node.conditions[i..])
    {
      if node.conditions[i].ctype == "Ready" {
        nodeReadyStatus := Some(node.conditions[i].status);
        break;
      }
      assert node.conditions[i..][1..] == node.conditions[i + 1..];
    }
  }

  method IsOSUpgraded(nodes: seq<Node>, osPrettyName: string) returns (r: bool)
    ensures r <==> AllUpgraded(nodes, OsImage(osPrettyName))
    ensures r <==> forall i | 0 <= i < |nodes| ::
      SaysReady(nodes[i].conditions) && !nodes[i].unschedulable && nodes[i].osImage == osPrettyName
  {
    AllUpgradedMeans(nodes, OsImage(osPrettyName));
    for i := 0 to |nodes|
      invariant forall j | 0 <= j < i :: NodeAt(nodes[j], OsImage(osPrettyName))
    {
      var nodeReadyStatus := NodeReadyStatus(nodes[i]);
      if nodeReadyStatus != Some(True) || nodes[i].unschedulable || nodes[i].osImage != osPrettyName {
        assert !NodeAt(nodes[i], OsImage(osPrettyName));
        return false;
      }
    }
    return true;
  }

  method IsKubernetesUpgraded(nodes: seq<Node>, kubernetesVersion: string) returns (r: bool)
    ensures r <==> AllUpgraded(nodes, KubeletVersion(kubernetesVersion))
    ensures r <==> forall i | 0 <= i < |nodes| ::
      SaysReady(nodes[i].conditions) && !nodes[i].unschedulable && nodes[i].kubeletVersion == kubernetesVersion
  {
    AllUpgradedMeans(nodes, KubeletVersion(kubernetesVersion));
    for i := 0 to |nodes|
      invariant forall j | 0 <= j < i :: NodeAt(nodes[j], KubeletVersion(kubernetesVersion))
    {
      var nodeReadyStatus := NodeReadyStatus(nodes[i]);
      if nodeReadyStatus != Some(True) || nodes[i].unschedulable || nodes[i].kubeletVersion != kubernetesVersion {
        assert !NodeAt(nodes[i], KubeletVersion(kubernetesVersion));
        return false;
      }
    }
    return true;
  }

  /** Both halves upgraded, or the only half there is: every node of the list is. */
  lemma HalvesMakeAll(nodes: seq<Node>, target: Target)
    requires AllUpgraded(Matching(nodes, ControlPlaneSelector), target)
    requires ControlPlaneOnly(nodes) || AllUpgraded(Matching(nodes, WorkerSelector), target)
    ensures AllUpgraded(nodes, target)
  {
    forall n | n in nodes ensures NodeUpgraded(n, target) {
      SelectorsMeanRoles(n);
      MatchingIsFilter(nodes, ControlPlaneSelector, n);
      MatchingIsFilter(nodes, WorkerSelector, n);
    }
  }

  // ---- target distribution ----

  /** The first node decides; `None` is the error for an empty list or an unknown distribution. */
  function TargetDistribution(nodes: seq<Node>, k: Kubernetes): Option<Distribution> {
    if nodes == [] then None
    else if HasSubstring(nodes[0].kubeletVersion, "k3s") then Some(k.k3s)
    else if HasSubstring(nodes[0].kubeletVersion, "rke2") then Some(k.rke2)
    else None
  }

  // ---- drain options ----

  function ControlPlaneCount(nodes: seq<Node>): nat {
    |Matching(nodes, ControlPlaneSelector)|
  }

  function WorkerCount(nodes: seq<Node>): nat {
    |Matching(nodes, WorkerSelector)|
  }

  /** Drain flags for the control plane and for the workers. */
  function DrainOptions(nodes: seq<Node>, disabled: Option<DisableDrain>): (bool, bool) {
    var cp, w := ControlPlaneCount(nodes), WorkerCount(nodes);
    ((cp > 1 || (cp == 0 && w > 1)) && !(disabled.Some? && disabled.value.controlPlane),
     w > 1 && !(disabled.Some? && disabled.value.worker))
  }

  method ParseDrainOptions(nodeList: seq<Node>, disabled: Option<DisableDrain>)
    returns (drainControlPlane: bool, drainWorker: bool)
    ensures (drainControlPlane, drainWorker) == DrainOptions(nodeList, disabled)
    ensures drainControlPlane <==>
      && !(disabled.Some? && disabled.value.controlPlane)
      && (|ControlPlanePlaces(nodeList)| > 1 || (|ControlPlanePlaces(nodeList)| == 0 && |WorkerPlaces(nodeList)| > 1))
    ensures drainWorker <==> !(disabled.Some? && disabled.value.worker) && |WorkerPlaces(nodeList)| > 1
  {
    DrainOptionsMean(nodeList, disabled);
    var controlPlaneCounter, workerCounter := 0, 0;
    for i := 0 to |nodeList|
      invariant controlPlaneCounter == ControlPlaneCount(nodeList[..i])
      invariant workerCounter == WorkerCount(nodeList[..i])
    {
      assert nodeList[..i + 1][..i] == nodeList[..i];
      SelectorsMeanRoles(nodeList[i]);
      if !IsControlPlane(nodeList[i]) {
        workerCounter := workerCounter + 1;
      } else {
        controlPlaneCounter := controlPlaneCounter + 1;
      }
    }
    assert nodeList[..|nodeList|] == nodeList;

    if controlPlaneCounter > 1 && workerCounter <= 1 {
      drainControlPlane, drainWorker := true, false;
    } else if controlPlaneCounter == 1 && workerCounter > 1 {
      drainControlPlane, drainWorker := false, true;
    } else if controlPlaneCounter <= 1 && workerCounter <= 1 {
      drainControlPlane, drainWorker := false, false;
    } else {
      drainControlPlane, drainWorker := true, true;
    }

    if disabled.Some? {
      if disabled.value.controlPlane {
        drainControlPlane := false;
      }
      if disabled.value.worker {
        drainWorker := false;
      }
    }
  }

  /**
   * Unless the user disables it, a role is drained exactly when it has another node to move work to;
   * the one exception is a list without control plane and with several workers.
   */
  lemma DrainFollowsRedundancy(nodes: seq<Node>)
    ensures DrainOptions(nodes, None).1 <==> WorkerCount(nodes) > 1
    ensures (DrainOptions(nodes, None).0 <==> ControlPlaneCount(nodes) > 1) <==>
            !(ControlPlaneCount(nodes) == 0 && |nodes| > 1)
  {
    SelectorsPartition(nodes);
    assert |nodes| == |multiset(nodes)|;
    assert |nodes| == ControlPlaneCount(nodes) + WorkerCount(nodes);
  }

  /** The places of the control plane in the list, and those of the workers. */
  function ControlPlanePlaces(nodes: seq<Node>): set<nat> {
    set i: nat | i < |nodes| && IsControlPlane(nodes[i])
  }

  function WorkerPlaces(nodes: seq<Node>): set<nat> {
    set i: nat | i < |nodes| && !IsControlPlane(nodes[i])
  }

  lemma PlacesGrow(nodes: seq<Node>)
    requires nodes != []
    ensures var n := |nodes| - 1;
      && n !in ControlPlanePlaces(nodes[..n]) && n !in WorkerPlaces(nodes[..n])
      && ControlPlanePlaces(nodes) == ControlPlanePlaces(nodes[..n]) + (if IsControlPlane(nodes[n]) then {n} else {})
      && WorkerPlaces(nodes) == WorkerPlaces(nodes[..n]) + (if IsControlPlane(nodes[n]) then {} else {n})
  {
    assert forall i | 0 <= i < |nodes| - 1 :: nodes[..|nodes| - 1][i] == nodes[i];
  }

  lemma {:induction false} CountsMeanPlaces(nodes: seq<Node>)
    ensures ControlPlaneCount(nodes) == |ControlPlanePlaces(nodes)| && WorkerCount(nodes) == |WorkerPlaces(nodes)|
  {
    if nodes != [] {
      CountsMeanPlaces(nodes[..|nodes| - 1]);
      SelectorsMeanRoles(nodes[|nodes| - 1]);
      PlacesGrow(nodes);
    }
  }

  /**
   * For any list and any user setting. The control plane is drained exactly when the user has not switched that off and
   * it has several nodes, or none while there are several workers; the workers exactly when they are several and the
   * user has not switched that off.
   */
  lemma DrainOptionsMean(nodes: seq<Node>, disabled: Option<DisableDrain>)
    ensures DrainOptions(nodes, disabled).0 <==>
      && !(disabled.Some? && disabled.value.controlPlane)
      && (|ControlPlanePlaces(nodes)| > 1 || (|ControlPlanePlaces(nodes)| == 0 && |WorkerPlaces(nodes)| > 1))
    ensures DrainOptions(nodes, disabled).1 <==>
      !(disabled.Some? && disabled.value.worker) && |WorkerPlaces(nodes)| > 1
  {
    CountsMeanPlaces(nodes);
  }

  // ---- architectures ----

  function ArchName(a: Arch): string {
    if a.X86? then "x86_64" else "aarch64"
  }

  function Short(a: Arch): string {
    if a.X86? then "amd64" else "arm64"
  }

  /** Both spellings of every listed architecture. */
  function Supported(archs: seq<Arch>): set<string> {
    (set a | a in archs :: ArchName(a)) + (set a | a in archs :: Short(a))
  }

  method SupportedArchitectures(architectures: seq<Arch>) returns (supported: set<string>)
    ensures supported == Supported(architectures)
  {
    supported := {};
    for i := 0 to |architectures|
      invariant supported == Supported(architectures[..i])
    {
      assert architectures[..i + 1] == architectures[..i] + [architectures[i]];
      supported := supported + {ArchName(architectures[i])};
      supported := supported + {Short(architectures[i])};
    }
    assert architectures[..|architectures|] == architectures;
  }

  /** The two spellings of each architecture, written out. */
  lemma SupportedSpelledOut(archs: seq<Arch>)
    ensures "x86_64" in Supported(archs) <==> X86 in archs
    ensures "amd64" in Supported(archs) <==> X86 in archs
    ensures "aarch64" in Supported(archs) <==> Arm in archs
    ensures "arm64" in Supported(archs) <==> Arm in archs
    ensures Supported(archs) <= {"x86_64", "amd64", "aarch64", "arm64"}
  {
    assert |"x86_64"| != |"amd64"| && |"x86_64"| != |"arm64"| && |"x86_64"| != |"aarch64"|;
    assert "amd64"[1] != "arm64"[1] && |"aarch64"| != |"amd64"| && |"aarch64"| != |"arm64"|;
    forall a | a in archs ensures ArchName(a) in Supported(archs) && Short(a) in Supported(archs) {
    }
  }

  /** Names of the nodes outside the supported set, in list order. */
  function Unsupported(nodes: seq<Node>, supported: set<string>): seq<string> {
    if nodes == [] then []
    else
      var last := nodes[|nodes| - 1];
      var front := Unsupported(nodes[..|nodes| - 1], supported);
      if last.architecture in supported then front else front + [last.name]
  }

  method FindUnsupportedNodes(nodeList: seq<Node>, supportedArchitectures: set<string>)
    returns (unsupported: seq<string>)
    ensures unsupported == Unsupported(nodeList, supportedArchitectures)
  {
    unsupported := [];
    for i := 0 to |nodeList|
      invariant unsupported == Unsupported(nodeList[..i], supportedArchitectures)
    {
      assert nodeList[..i + 1][..i] == nodeList[..i];
      if nodeList[i].architecture !in supportedArchitectures {
        unsupported := unsupported + [nodeList[i].name];
      }
    }
    assert nodeList[..|nodeList|] == nodeList;
  }

  /** The report names just the nodes whose architecture is outside the set, in the order of the list. */
  lemma {:induction false} UnsupportedMeans(nodes: seq<Node>, supported: set<string>) returns (places: seq<int>)
    ensures Rising(places, |nodes|) && |Unsupported(nodes, supported)| == |places|
    ensures forall i | 0 <= i < |places| :: Unsupported(nodes, supported)[i] == NodesAt(nodes, places)[i].name
    ensures forall p | 0 <= p < |nodes| :: p in places <==> nodes[p].architecture !in supported
  {
    places := [];
    if nodes != [] {
      var n := |nodes| - 1;
      var before := UnsupportedMeans(nodes[..n], supported);
      RisingOn(before, n);
      places := if nodes[n].architecture in supported then before else before + [n];
      OneMorePlace(nodes, before);
      forall p | 0 <= p < |nodes| ensures p in places <==> nodes[p].architecture !in supported {
        if p < n { assert nodes[..n][p] == nodes[p]; }
      }
    }
  }

  predicate AllSupported(nodes: seq<Node>, archs: seq<Arch>) {
    forall n | n in nodes :: exists a | a in archs :: n.architecture == ArchName(a) || n.architecture == Short(a)
  }

  /** The report is empty exactly when every node runs, under either spelling, a listed architecture. */
  lemma {:induction false} NoneUnsupported(nodes: seq<Node>, archs: seq<Arch>)
    ensures Unsupported(nodes, Supported(archs)) == [] <==> AllSupported(nodes, archs)
  {
    if nodes != [] {
      var front, last := nodes[..|nodes| - 1], nodes[|nodes| - 1];
      NoneUnsupported(front, archs);
      assert nodes == front + [last];
      assert last.architecture in Supported(archs) <==>
        exists a | a in archs :: last.architecture == ArchName(a) || last.architecture == Short(a);
    }
  }
}
