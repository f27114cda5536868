/**
 * Three evaluators of one platform observation: the six-stage causal graph, the four-node DAG and the operator order.
 * Each is proved against what its stages mean, and then they are related to one another.
 */
module Causal {
  import opened Base
  import opened Model

  // ----- what a stage means -----

  datatype Stage = VersionStage | NodeConfig | ControlPlane | VirtOperators | WorkloadExecution | LiveMigration

  const STAGES := 6

  /** The causal chain, upstream first. */
  function StageAt(k: int): Stage
    requires 0 <= k < STAGES
  {
    if k == 0 then VersionStage else if k == 1 then NodeConfig else if k == 2 then ControlPlane
    else if k == 3 then VirtOperators else if k == 4 then WorkloadExecution else LiveMigration
  }

  /** How the graph names a resource. */
  function Res(kind: string, name: string): string { kind + "/" + name }

  predicate PoolBusy(mcp: Pool) { mcp.phase.PoolUpdating? || mcp.phase.PoolDegraded? }

  predicate OperatorBad(co: Operator) { co.degraded || !co.available }

  predicate NotDeployed(op: VirtOperator) { op.phase != "" && op.phase != "Deployed" }

  predicate HandlerDown(v: Virt) { !v.virtHandlerReady && !v.hyperConverged.HcoUnset? }

  predicate StageOk(obs: Platform, s: Stage)
  {
    match s
    case VersionStage => !obs.clusterVersion.progressing
        && (obs.clusterVersion.available || obs.clusterVersion.version == "")
    case NodeConfig => forall p :: p in obs.pools ==> !PoolBusy(p)
    case ControlPlane => forall o :: o in obs.operators ==> !OperatorBad(o)
    case VirtOperators => !NotDeployed(obs.kubeVirt) && !NotDeployed(obs.cdi) && !NotDeployed(obs.ssp)
    case WorkloadExecution => obs.activeMaintenanceNodes <= 0 && !HandlerDown(obs.virtHealth)
    case LiveMigration => obs.virtHealth.stalledMigrations <= 0
  }

  /** The first of several that is in trouble. */
  ghost predicate FirstBusyPool(pools: seq<Pool>, i: int)
  {
    0 <= i < |pools| && PoolBusy(pools[i]) && forall k :: 0 <= k < i ==> !PoolBusy(pools[k])
  }

  ghost predicate FirstBadOperator(ops: seq<Operator>, i: int)
  {
    0 <= i < |ops| && OperatorBad(ops[i]) && forall k :: 0 <= k < i ==> !OperatorBad(ops[k])
  }

  /** `res` names what is wrong with the stage. */
  ghost predicate Culprit(obs: Platform, s: Stage, res: string)
  {
    && !StageOk(obs, s)
    && match s
       case VersionStage => res == Res("ClusterVersion", "version")
       case NodeConfig => exists i :: FirstBusyPool(obs.pools, i) && res == Res("MachineConfigPool", obs.pools[i].name)
       case ControlPlane => exists i ::
           FirstBadOperator(obs.operators, i)
           && res == Res("ClusterOperator", obs.operators[i].name)
       case VirtOperators =>
         res ==
           if NotDeployed(obs.kubeVirt) then Res("KubeVirt", "kubevirt")
           else if NotDeployed(obs.cdi) then Res("CDI", "cdi")
           else Res("SSP", "ssp")
       case WorkloadExecution =>
         res ==
           if obs.activeMaintenanceNodes > 0 then Res("NodeMaintenance", "active")
           else Res("DaemonSet", "virt-handler")
       case LiveMigration => res == Res("VirtualMachineInstanceMigration", "stalled")
  }

  // ----- the causal graph -----

  datatype NodeStatus = NodeHealthy | NodeUpdating | NodeDegraded | NodeMaintenance | NodeStalled

  function PoolStatus(mcp: Pool): NodeStatus { if mcp.phase.PoolUpdating? then NodeUpdating else NodeDegraded }

  /** The status word of a stage. */
  ghost predicate Shows(obs: Platform, s: Stage, st: NodeStatus)
  {
    if StageOk(obs, s) then st == NodeHealthy
    else
      match s
      case VersionStage => st == if obs.clusterVersion.progressing then NodeUpdating else NodeDegraded
      case NodeConfig => exists i :: FirstBusyPool(obs.pools, i) && st == PoolStatus(obs.pools[i])
      case ControlPlane => st == NodeDegraded
      case VirtOperators => st == NodeUpdating
      case WorkloadExecution => st == if obs.activeMaintenanceNodes > 0 then NodeMaintenance else NodeDegraded
      case LiveMigration => st == NodeStalled
  }

  datatype CausalNode = CausalNode(stage: Stage, resource: string, status: NodeStatus, impactedBy: string,
      rootCauseOf: seq<string>)

  datatype Graph = Graph(healthy: bool, rootCauseResource: string, nodes: seq<CausalNode>)

  /**
   * The stages as seen by the graph: which are fine, their status words, and what names the trouble of one that is not.
   */
  datatype Sight = Sight(ok: Stage -> bool, shows: (Stage, NodeStatus) -> bool, culprit: (Stage, string) -> bool)

  ghost function SightOf(obs: Platform): Sight
  {
    Sight(s => StageOk(obs, s), (s, st) => Shows(obs, s, st), (s, res) => Culprit(obs, s, res))
  }

  ghost predicate Fine(v: Sight, k: int)
    requires 0 <= k < STAGES
  {
    v.ok(StageAt(k))
  }

  /** The earliest stage in trouble. */
  ghost predicate Earliest(v: Sight, k: int)
  {
    0 <= k < STAGES && !Fine(v, k) && forall j :: 0 <= j < k ==> Fine(v, j)
  }

  ghost predicate AllFine(v: Sight, n: int)
    requires n <= STAGES
  {
    forall k :: 0 <= k < n ==> Fine(v, k)
  }

  /** Besides its direct predecessor a node looks at one more stage: the second, or for the third node the first. */
  function Farther(k: int): Stage { if k == 2 then VersionStage else NodeConfig }

  /** What `impactedBy` says: the culprit of the first troubled stage among those looked at, or nothing. */
  ghost predicate Blames(v: Sight, k: int, blamed: string)
    requires 0 <= k < STAGES
  {
    if k > 0 && !Fine(v, k - 1) then v.culprit(StageAt(k - 1), blamed)
    else if k > 1 && !v.ok(Farther(k)) then v.culprit(Farther(k), blamed)
    else blamed == ""
  }

  ghost predicate NodeRight(v: Sight, k: int, n: CausalNode)
    requires 0 <= k < STAGES
  {
    && n.stage == StageAt(k) && n.resource == ResourceOf(n.stage)
    && v.shows(n.stage, n.status) && (n.status.NodeHealthy? <==> Fine(v, k))
    && Blames(v, k, n.impactedBy)
    && n.rootCauseOf == if n.impactedBy == "" then [] else ["downstream-workloads"]
  }

  /**
   * The root cause is the culprit of the earliest troubled stage; each node shows its stage and blames what it looks
   * at.
   */
  ghost predicate GraphRight(v: Sight, g: Graph)
  {
    && (g.healthy <==> AllFine(v, STAGES))
    && (if g.healthy then g.rootCauseResource == ""
        else exists k :: Earliest(v, k) && v.culprit(StageAt(k), g.rootCauseResource))
    && |g.nodes| == STAGES
    && forall k :: 0 <= k < STAGES ==> NodeRight(v, k, g.nodes[k])
  }

  /** Only stages in trouble have culprits, and a culprit's name has a slash in it. */
  ghost predicate Sound(v: Sight)
  {
    forall s, res :: v.culprit(s, res) ==> !v.ok(s) && '/' in res
  }

  lemma {:induction false} ResHasSlash(kind: string, name: string)
    ensures '/' in Res(kind, name)
  {
    assert Res(kind, name)[|kind|] == '/';
  }

  lemma {:induction false} CulpritHasSlash(obs: Platform, s: Stage, res: string)
    requires Culprit(obs, s, res)
    ensures '/' in res
  {
    var kind, name := CulpritIsRes(obs, s, res);
    ResHasSlash(kind, name);
  }

  lemma {:induction false} CulpritIsRes(obs: Platform, s: Stage, res: string) returns (kind: string, name: string)
    requires Culprit(obs, s, res)
    ensures res == Res(kind, name)
  {
    match s
    case VersionStage => kind, name := "ClusterVersion", "version";
    case NodeConfig =>
      var i :| FirstBusyPool(obs.pools, i) && res == Res("MachineConfigPool", obs.pools[i].name);
      kind, name := "MachineConfigPool", obs.pools[i].name;
    case ControlPlane =>
      var i :| FirstBadOperator(obs.operators, i) && res == Res("ClusterOperator", obs.operators[i].name);
      kind, name := "ClusterOperator", obs.operators[i].name;
    case VirtOperators =>
      if NotDeployed(obs.kubeVirt) {
        kind, name := "KubeVirt", "kubevirt";
      } else if NotDeployed(obs.cdi) {
        kind, name := "CDI", "cdi";
      } else {
        kind, name := "SSP", "ssp";
      }
    case WorkloadExecution =>
      if obs.activeMaintenanceNodes > 0 {
        kind, name := "NodeMaintenance", "active";
      } else {
        kind, name := "DaemonSet", "virt-handler";
      }
    case LiveMigration => kind, name := "VirtualMachineInstanceMigration", "stalled";
  }

  lemma {:induction false} CulpritsAreSound(obs: Platform)
    ensures Sound(SightOf(obs))
  {
    forall s, res | Culprit(obs, s, res) ensures '/' in res {
      CulpritHasSlash(obs, s, res);
    }
  }

  /** What one stage found out: how it is, and what to blame. */
  datatype Finding = Finding(status: NodeStatus, culprit: string)

  ghost predicate Finds(v: Sight, s: Stage, f: Finding)
  {
    && v.shows(s, f.status) && (f.status.NodeHealthy? <==> v.ok(s))
    && (if v.ok(s) then f.culprit == "" else v.culprit(s, f.culprit))
  }

  method StageVersion(obs: Platform) returns (f: Finding)
    ensures Finds(SightOf(obs), VersionStage, f)
  {
    f := Finding(NodeHealthy, "");
    if obs.clusterVersion.progressing {
      f := Finding(NodeUpdating, Res("ClusterVersion", "version"));
    } else if !obs.clusterVersion.available && obs.clusterVersion.version != "" {
      f := Finding(NodeDegraded, Res("ClusterVersion", "version"));
    }
  }

  method StageNodeConfig(obs: Platform) returns (f: Finding)
    ensures Finds(SightOf(obs), NodeConfig, f)
  {
    f := Finding(NodeHealthy, "");
    var i := 0;
    while i < |obs.pools|
      invariant 0 <= i <= |obs.pools|
      invariant f == Finding(NodeHealthy, "")
      invariant forall k :: 0 <= k < i ==> !PoolBusy(obs.pools[k])
    {
      var mcp := obs.pools[i];
      if mcp.phase.PoolUpdating? || mcp.phase.PoolDegraded? {
        f := Finding(if mcp.phase.PoolUpdating? then NodeUpdating else NodeDegraded,
            Res("MachineConfigPool", mcp.name));
        assert FirstBusyPool(obs.pools, i) && mcp in obs.pools;
        break;
      }
      i := i + 1;
    }
  }

  method StageControlPlane(obs: Platform) returns (f: Finding)
    ensures Finds(SightOf(obs), ControlPlane, f)
  {
    f := Finding(NodeHealthy, "");
    var i := 0;
    while i < |obs.operators|
      invariant 0 <= i <= |obs.operators|
      invariant f == Finding(NodeHealthy, "")
      invariant forall k :: 0 <= k < i ==> !OperatorBad(obs.operators[k])
    {
      var co := obs.operators[i];
      if co.degraded || !co.available {
        f := Finding(NodeDegraded, Res("ClusterOperator", co.name));
        assert FirstBadOperator(obs.operators, i) && co in obs.operators;
        break;
      }
      i := i + 1;
    }
  }

  method StageVirtOperators(obs: Platform) returns (f: Finding)
    ensures Finds(SightOf(obs), VirtOperators, f)
  {
    f := Finding(NodeHealthy, "");
    if obs.kubeVirt.phase != "" && obs.kubeVirt.phase != "Deployed" {
      f := Finding(NodeUpdating, Res("KubeVirt", "kubevirt"));
    } else if obs.cdi.phase != "" && obs.cdi.phase != "Deployed" {
      f := Finding(NodeUpdating, Res("CDI", "cdi"));
    } else if obs.ssp.phase != "" && obs.ssp.phase != "Deployed" {
      f := Finding(NodeUpdating, Res("SSP", "ssp"));
    }
  }

  method StageWorkloads(obs: Platform) returns (f: Finding)
    ensures Finds(SightOf(obs), WorkloadExecution, f)
  {
    f := Finding(NodeHealthy, "");
    if obs.activeMaintenanceNodes > 0 {
      f := Finding(NodeMaintenance, Res("NodeMaintenance", "active"));
    } else if !obs.virtHealth.virtHandlerReady && !obs.virtHealth.hyperConverged.HcoUnset? {
      f := Finding(NodeDegraded, Res("DaemonSet", "virt-handler"));
    }
  }

  method StageMigration(obs: Platform) returns (f: Finding)
    ensures Finds(SightOf(obs), LiveMigration, f)
  {
    f := Finding(NodeHealthy, "");
    if obs.virtHealth.stalledMigrations > 0 {
      f := Finding(NodeStalled, Res("VirtualMachineInstanceMigration", "stalled"));
    }
  }

  /** The root cause after the first `n` stages. */
  ghost predicate RootSoFar(v: Sight, n: int, root: string)
    requires n <= STAGES
  {
    if root == "" then AllFine(v, n) else exists k :: k < n && Earliest(v, k) && v.culprit(StageAt(k), root)
  }

  /** A stage becomes the root cause unless an earlier one is. */
  method KeepRoot(ghost v: Sight, ghost n: int, root: string, f: Finding) returns (r: string)
    requires Sound(v) && 0 <= n < STAGES && RootSoFar(v, n, root) && Finds(v, StageAt(n), f)
    ensures RootSoFar(v, n + 1, r)
  {
    r := root;
    if root == "" && f.culprit != "" {
      r := f.culprit;
      assert Earliest(v, n);
    }
  }

  /** A node blames the nearer stage, else the farther one. */
  method Blame(ghost v: Sight, ghost k: int, near: Finding, far: Finding) returns (blamed: string)
    requires 2 <= k < STAGES && Finds(v, StageAt(k - 1), near) && Finds(v, Farther(k), far)
    ensures Blames(v, k, blamed)
  {
    blamed := "";
    if !near.status.NodeHealthy? {
      blamed := near.culprit;
    } else if !far.status.NodeHealthy? {
      blamed := far.culprit;
    }
  }

  /** The resource a node stands for. */
  function ResourceOf(s: Stage): string
  {
    match s
    case VersionStage => Res("ClusterVersion", "version")
    case NodeConfig => "MachineConfigPools"
    case ControlPlane => "ClusterOperators"
    case VirtOperators => "KubeVirtOperators"
    case WorkloadExecution => "NodeExecutionLayer"
    case LiveMigration => "VMIWorkloads"
  }

  /** A node before the downstream impact of the root cause is linked. */
  ghost predicate Drafted(v: Sight, k: int, n: CausalNode)
    requires 0 <= k < STAGES
  {
    && n.stage == StageAt(k) && n.resource == ResourceOf(n.stage) && n.rootCauseOf == []
    && (k > 0 ==> '/' !in n.resource)
    && v.shows(n.stage, n.status) && (n.status.NodeHealthy? <==> Fine(v, k))
    && Blames(v, k, n.impactedBy)
  }

  /** Culprits' names have a slash; of the nodes' resources only the first does. */
  lemma {:induction false} ResourcesHaveNoSlash(s: Stage)
    requires !s.VersionStage?
    ensures '/' !in ResourceOf(s)
  {
  }

  method Draft(ghost v: Sight, ghost k: int, stage: Stage, f: Finding, blamed: string) returns (n: CausalNode)
    requires 0 <= k < STAGES && stage == StageAt(k) && Finds(v, stage, f) && Blames(v, k, blamed)
    ensures Drafted(v, k, n)
  {
    if !stage.VersionStage? {
      ResourcesHaveNoSlash(stage);
    }
    var resource := ResourceOf(stage);
    assert k > 0 ==> '/' !in resource;
    n := CausalNode(stage, resource, f.status, blamed, []);
  }

  /** The final loop over the nodes. */
  method LinkImpact(ghost v: Sight, drafts: seq<CausalNode>, root: string) returns (nodes: seq<CausalNode>)
    requires Sound(v) && RootSoFar(v, STAGES, root)
    requires |drafts| == STAGES && forall k :: 0 <= k < STAGES ==> Drafted(v, k, drafts[k])
    ensures |nodes| == STAGES && forall k :: 0 <= k < STAGES ==> NodeRight(v, k, nodes[k])
  {
    nodes := drafts;
    if root != "" {
      assert '/' in root;
      for i := 0 to |nodes|
        invariant |nodes| == STAGES
        invariant forall k :: 0 <= k < i ==> NodeRight(v, k, nodes[k])
        invariant forall k :: i <= k < STAGES ==> nodes[k] == drafts[k]
      {
        assert Drafted(v, i, nodes[i]);
        if nodes[i].resource == root || (nodes[i].impactedBy == "" && !nodes[i].status.NodeHealthy?) {
          // the root cause itself
        } else if nodes[i].impactedBy != "" {
          nodes := nodes[i := nodes[i].(rootCauseOf := nodes[i].rootCauseOf + ["downstream-workloads"])];
        }
      }
    } else {
      forall k | 0 <= k < STAGES ensures NodeRight(v, k, nodes[k]) {
        assert Drafted(v, k, drafts[k]) && Fine(v, 0) && Fine(v, 1);
        assert k > 0 ==> Fine(v, k - 1);
      }
    }
  }

  method DraftNodes(ghost v: Sight, f1: Finding, f2: Finding, f3: Finding, f4: Finding, f5: Finding, f6: Finding)
    returns (nodes: seq<CausalNode>)
    requires Finds(v, VersionStage, f1) && Finds(v, NodeConfig, f2) && Finds(v, ControlPlane, f3)
    requires Finds(v, VirtOperators, f4) && Finds(v, WorkloadExecution, f5) && Finds(v, LiveMigration, f6)
    ensures |nodes| == STAGES && forall k :: 0 <= k < STAGES ==> Drafted(v, k, nodes[k])
  {
    var n1 := Draft(v, 0, VersionStage, f1, "");
    var n2 := Draft(v, 1, NodeConfig, f2, if !f1.status.NodeHealthy? then f1.culprit else "");
    var by3 := Blame(v, 2, f2, f1);
    var n3 := Draft(v, 2, ControlPlane, f3, by3);
    var by4 := Blame(v, 3, f3, f2);
    var n4 := Draft(v, 3, VirtOperators, f4, by4);
    var by5 := Blame(v, 4, f4, f2);
    var n5 := Draft(v, 4, WorkloadExecution, f5, by5);
    var by6 := Blame(v, 5, f5, f2);
    var n6 := Draft(v, 5, LiveMigration, f6, by6);
    nodes := [n1, n2, n3, n4, n5, n6];
  }

  /** Root cause and nodes from the six findings. */
  method Assemble(ghost v: Sight, f1: Finding, f2: Finding, f3: Finding, f4: Finding, f5: Finding, f6: Finding)
    returns (g: Graph)
    requires Sound(v)
    requires Finds(v, VersionStage, f1) && Finds(v, NodeConfig, f2) && Finds(v, ControlPlane, f3)
    requires Finds(v, VirtOperators, f4) && Finds(v, WorkloadExecution, f5) && Finds(v, LiveMigration, f6)
    ensures GraphRight(v, g)
  {
    var root := KeepRoot(v, 0, "", f1);
    root := KeepRoot(v, 1, root, f2);
    root := KeepRoot(v, 2, root, f3);
    root := KeepRoot(v, 3, root, f4);
    root := KeepRoot(v, 4, root, f5);
    root := KeepRoot(v, 5, root, f6);
    var drafts := DraftNodes(v, f1, f2, f3, f4, f5, f6);
    var nodes := LinkImpact(v, drafts, root);
    g := Graph(root == "", root, nodes);
  }

  method EvaluatePlatformDependencyGraph(obs: Platform) returns (g: Graph)
    ensures GraphRight(SightOf(obs), g)
  {
    CulpritsAreSound(obs);
    var f1 := StageVersion(obs);
    var f2 := StageNodeConfig(obs);
    var f3 := StageControlPlane(obs);
    var f4 := StageVirtOperators(obs);
    var f5 := StageWorkloads(obs);
    var f6 := StageMigration(obs);
    g := Assemble(SightOf(obs), f1, f2, f3, f4, f5, f6);
  }

  /** Nothing observed is out of order. */
  predicate AllClear(obs: Platform)
  {
    && !obs.clusterVersion.progressing && (obs.clusterVersion.version != "" ==> obs.clusterVersion.available)
    && (forall p :: p in obs.pools ==> p.phase != PoolUpdating && p.phase != PoolDegraded)
    && (forall o :: o in obs.operators ==> o.available && !o.degraded)
    && (forall op :: op in [obs.kubeVirt, obs.cdi, obs.ssp] ==> op.phase in ["", "Deployed"])
    && !(obs.activeMaintenanceNodes > 0) && !(obs.virtHealth.stalledMigrations > 0)
    && (obs.virtHealth.virtHandlerReady || obs.virtHealth.hyperConverged == HcoUnset)
  }

  lemma {:induction false} AllClearMeans(obs: Platform)
    ensures AllClear(obs) <==> forall s: Stage :: StageOk(obs, s)
  {
    var ops := [obs.kubeVirt, obs.cdi, obs.ssp];
    assert obs.kubeVirt in ops && obs.cdi in ops && obs.ssp in ops;
    assert (forall s: Stage :: StageOk(obs, s)) <==>
      && StageOk(obs, VersionStage) && StageOk(obs, NodeConfig) && StageOk(obs, ControlPlane)
      && StageOk(obs, VirtOperators) && StageOk(obs, WorkloadExecution) && StageOk(obs, LiveMigration);
  }

  /** Healthy means that every stage is fine, whichever way the stages are counted: nothing observed is out of order. */
  lemma {:induction false} HealthyMeaning(obs: Platform, g: Graph)
    requires GraphRight(SightOf(obs), g)
    ensures g.healthy <==> forall s: Stage :: StageOk(obs, s)
    ensures g.healthy <==> AllClear(obs)
  {
    var v := SightOf(obs);
    if g.healthy {
      assert Fine(v, 0) && Fine(v, 1) && Fine(v, 2) && Fine(v, 3) && Fine(v, 4) && Fine(v, 5);
    }
    AllClearMeans(obs);
  }

  /** Whatever a node is said to be impacted by is the culprit of a strictly earlier stage in trouble. */
  lemma {:induction false} ImpactIsUpstream(v: Sight, g: Graph, k: int)
    requires GraphRight(v, g) && 0 <= k < STAGES && g.nodes[k].impactedBy != ""
    ensures exists j :: 0 <= j < k && !Fine(v, j) && v.culprit(StageAt(j), g.nodes[k].impactedBy)
  {
    assert NodeRight(v, k, g.nodes[k]);
    var j := if !Fine(v, k - 1) then k - 1 else if k == 2 then 0 else 1;
    assert !Fine(v, j) && v.culprit(StageAt(j), g.nodes[k].impactedBy);
  }

  ghost predicate UpstreamTrouble(v: Sight, k: int)
    requires k <= STAGES
  {
    exists j :: 0 <= j < k && !Fine(v, j)
  }

  /**
   * A node can be silent about upstream trouble: the last three look at two stages only. They name nothing although an
   * earlier stage is in trouble exactly when both stages they look at are fine.
   */
  lemma {:induction false} ImpactIsIncompleteExactly(v: Sight, g: Graph, k: int)
    requires Sound(v) && GraphRight(v, g) && 0 <= k < STAGES && UpstreamTrouble(v, k)
    ensures g.nodes[k].impactedBy == "" <==> k >= 3 && Fine(v, k - 1) && v.ok(NodeConfig)
  {
    assert NodeRight(v, k, g.nodes[k]);
    assert k == 2 ==> !Fine(v, 0) || !Fine(v, 1);
  }

  const UPGRADING := NO_PLATFORM.(clusterVersion := ClusterVersion("4.16", "4.17", true, true))

  /** It happens: during a platform upgrade with everything else fine, the virt operators' node names nothing. */
  lemma {:induction false} UpgradeBlamedOnNothing(g: Graph)
    requires GraphRight(SightOf(UPGRADING), g)
    ensures g.rootCauseResource == Res("ClusterVersion", "version")
    ensures UpstreamTrouble(SightOf(UPGRADING), 3) && g.nodes[3].impactedBy == ""
  {
    var v := SightOf(UPGRADING);
    CulpritsAreSound(UPGRADING);
    assert !Fine(v, 0) && Fine(v, 2);
    ImpactIsIncompleteExactly(v, g, 3);
    var k :| Earliest(v, k) && v.culprit(StageAt(k), g.rootCauseResource);
    assert k == 0;
  }

  // ----- the DAG -----

  datatype DagState = DagHealthy | DagUpdating | DagDegraded | Blocked

  datatype DagNode = DagNode(id: string, state: DagState, blockedBy: string)

  /** `blockedReason` keeps the parent that the reason's text names; empty if nothing is blocked. */
  datatype Dag = Dag(healthy: bool, blockedReason: string, nodes: seq<DagNode>)

  function DagIds(): seq<string> { ["mcp/worker", "mcd/worker", "daemonset/virt-handler", "vmim/active-migrations"] }

  /** A node's own condition; the machine-config daemon has none. */
  predicate OwnOk(obs: Platform, k: int)
  {
    && (k == 0 ==> StageOk(obs, NodeConfig))
    && (k == 2 ==> !HandlerDown(obs.virtHealth))
    && (k == 3 ==> StageOk(obs, LiveMigration))
  }

  /** The state of the first node: that of the first busy pool. */
  ghost predicate PoolState(obs: Platform, st: DagState)
  {
    if StageOk(obs, NodeConfig) then st == DagHealthy
    else exists i :: FirstBusyPool(obs.pools, i) && st == if obs.pools[i].phase.PoolUpdating? then DagUpdating
        else DagDegraded
  }

  /** What a node shows that fails on its own account. */
  ghost predicate FailedState(obs: Platform, k: int, st: DagState)
  {
    if k == 0 then PoolState(obs, st) else st == DagDegraded
  }

  /**
   * The nodes up to `f` are healthy, node `f` fails on its own account, and all below it are blocked by their parents.
   */
  ghost predicate FailsAt(obs: Platform, d: Dag, f: int)
  {
    && 0 <= f <= |DagIds()| && |d.nodes| == |DagIds()|
    && (forall k :: 0 <= k < |d.nodes| ==> d.nodes[k].id == DagIds()[k])
    && (forall k :: 0 <= k < f ==> OwnOk(obs, k) && d.nodes[k].state.DagHealthy? && d.nodes[k].blockedBy == "")
    && (f < |d.nodes| ==> !OwnOk(obs, f) && d.nodes[f].blockedBy == "" && FailedState(obs, f, d.nodes[f].state))
    && (forall k :: f < k < |d.nodes| ==> d.nodes[k].state.Blocked? && d.nodes[k].blockedBy == d.nodes[k - 1].id)
    && (d.healthy <==> f == |d.nodes|)
    && d.blockedReason == if f + 1 < |d.nodes| then d.nodes[f].id else ""
  }

  method DagPools(obs: Platform) returns (mcpState: DagState)
    ensures PoolState(obs, mcpState) && (mcpState.DagHealthy? <==> StageOk(obs, NodeConfig)) && !mcpState.Blocked?
  {
    mcpState := DagHealthy;
    var i := 0;
    while i < |obs.pools|
      invariant 0 <= i <= |obs.pools|
      invariant mcpState == DagHealthy
      invariant forall k :: 0 <= k < i ==> !PoolBusy(obs.pools[k])
    {
      var mcp := obs.pools[i];
      if mcp.phase.PoolUpdating? || mcp.phase.PoolDegraded? {
        mcpState := if mcp.phase.PoolUpdating? then DagUpdating else DagDegraded;
        assert FirstBusyPool(obs.pools, i) && mcp in obs.pools;
        break;
      }
      i := i + 1;
    }
  }

  method EvaluateTopologicalDAG(obs: Platform) returns (d: Dag)
    ensures exists f :: FailsAt(obs, d, f)
  {
    var blockedReason := "";
    var mcpState := DagPools(obs);
    var nodes := [DagNode("mcp/worker", mcpState, "")];

    var mcdState, mcdBlockedBy := DagHealthy, "";
    if mcpState != DagHealthy {
      mcdState, mcdBlockedBy := Blocked, "mcp/worker";
      if blockedReason == "" {
        blockedReason := "mcp/worker";
      }
    }
    nodes := nodes + [DagNode("mcd/worker", mcdState, mcdBlockedBy)];

    var virtState, virtBlockedBy := DagHealthy, "";
    if mcdState != DagHealthy {
      virtState, virtBlockedBy := Blocked, "mcd/worker";
      if blockedReason == "" {
        blockedReason := "mcd/worker";
      }
    } else if !obs.virtHealth.virtHandlerReady && !obs.virtHealth.hyperConverged.HcoUnset? {
      virtState := DagDegraded;
    }
    nodes := nodes + [DagNode("daemonset/virt-handler", virtState, virtBlockedBy)];

    var vmimState, vmimBlockedBy := DagHealthy, "";
    if virtState != DagHealthy {
      vmimState, vmimBlockedBy := Blocked, "daemonset/virt-handler";
      if blockedReason == "" {
        blockedReason := "daemonset/virt-handler";
      }
    } else if obs.virtHealth.stalledMigrations > 0 {
      vmimState := DagDegraded;
    }
    nodes := nodes + [DagNode("vmim/active-migrations", vmimState, vmimBlockedBy)];

    d := Dag(blockedReason == "" && vmimState == DagHealthy, blockedReason, nodes);
    ghost var f := if mcpState != DagHealthy then 0 else if virtState != DagHealthy then 2
        else if vmimState != DagHealthy then 3 else 4;
    assert FailsAt(obs, d, f);
  }

  /** The DAG checks a part of what the graph checks: exactly the stages named here are left to the graph. */
  lemma {:induction false} GraphRefinesDag(obs: Platform, g: Graph, d: Dag, f: int)
    requires GraphRight(SightOf(obs), g) && FailsAt(obs, d, f)
    ensures g.healthy ==> d.healthy
    ensures g.healthy <==> && d.healthy
                           && StageOk(obs, VersionStage) && StageOk(obs, ControlPlane) && StageOk(obs, VirtOperators)
                           && obs.activeMaintenanceNodes <= 0
  {
    HealthyMeaning(obs, g);
    assert (forall s: Stage :: StageOk(obs, s)) <==>
      && StageOk(obs, VersionStage) && StageOk(obs, NodeConfig) && StageOk(obs, ControlPlane)
      && StageOk(obs, VirtOperators) && StageOk(obs, WorkloadExecution) && StageOk(obs, LiveMigration);
    assert d.healthy <==> OwnOk(obs, 0) && OwnOk(obs, 2) && OwnOk(obs, 3) by {
      assert OwnOk(obs, 1);
    }
  }

  // ----- operator order -----

  datatype OrderResult = OrderResult(passed: bool, failedOperator: string, impactedOperators: seq<string>)

  function Order(): seq<string> { ["network", "kube-apiserver", "openshift-apiserver", "storage", "kubevirt"] }

  /** Of several operators with one name, the last listed. */
  function LastNamed(ops: seq<Operator>, name: string): Option<Operator>
  {
    if ops == [] then None
    else if ops[|ops| - 1].name == name then Some(ops[|ops| - 1])
    else LastNamed(ops[..|ops| - 1], name)
  }

  predicate Down(ops: seq<Operator>, name: string)
  {
    LastNamed(ops, name).Some? && OperatorBad(LastNamed(ops, name).value)
  }

  /** The names of `order` that are listed at all. */
  function Present(ops: seq<Operator>, order: seq<string>): seq<string>
  {
    if order == [] then []
    else Present(ops, order[..|order| - 1]) + if LastNamed(ops, order[|order| - 1]).Some? then [order[|order| - 1]]
        else []
  }

  ghost predicate FirstDown(ops: seq<Operator>, order: seq<string>, k: int)
  {
    0 <= k < |order| && Down(ops, order[k]) && forall j :: 0 <= j < k ==> !Down(ops, order[j])
  }

  /** Passed means nothing is down; else the first one down is named, with every listed operator after it. */
  ghost predicate OrderRight(ops: seq<Operator>, r: OrderResult)
  {
    if r.passed then (forall n :: n in Order() ==> !Down(ops, n)) && r.failedOperator == "" && r.impactedOperators == []
    else exists k ::
        FirstDown(ops, Order(), k) && r.failedOperator == Order()[k]
        && r.impactedOperators == Present(ops, Order()[k + 1..])
  }

  method IndexOperators(ops: seq<Operator>) returns (opMap: map<string, Operator>)
    ensures forall n :: n in opMap <==> LastNamed(ops, n).Some?
    ensures forall n :: n in opMap ==> opMap[n] == LastNamed(ops, n).value
  {
    opMap := map[];
    for i := 0 to |ops|
      invariant forall n :: n in opMap <==> LastNamed(ops[..i], n).Some?
      invariant forall n :: n in opMap ==> opMap[n] == LastNamed(ops[..i], n).value
    {
      assert ops[..i + 1][..i] == ops[..i];
      opMap := opMap[ops[i].name := ops[i]];
    }
    assert ops[..|ops|] == ops;
  }

  /** The walk along an order of distinct, non-empty names. */
  method WalkOrder(ops: seq<Operator>, order: seq<string>)
    returns (firstFailed: string, impacted: seq<string>, ghost at: int)
    requires forall i :: 0 <= i < |order| ==> order[i] != ""
    ensures firstFailed == "" ==> impacted == [] && forall j :: 0 <= j < |order| ==> !Down(ops, order[j])
    ensures firstFailed != "" ==>
        FirstDown(ops, order, at) && firstFailed == order[at]
        && impacted == Present(ops, order[at + 1..])
  {
    var opMap := IndexOperators(ops);
    firstFailed, impacted, at := "", [], 0;
    for i := 0 to |order|
      invariant firstFailed == "" ==> impacted == [] && forall j :: 0 <= j < i ==> !Down(ops, order[j])
      invariant firstFailed != "" ==> at < i && FirstDown(ops, order, at) && firstFailed == order[at]
                                      && impacted == Present(ops, order[at + 1..i])
    {
      var name := order[i];
      if firstFailed != "" {
        assert order[at + 1..i + 1][..i - at - 1] == order[at + 1..i];
        if name in opMap {
          impacted := impacted + [name];
        }
      } else if name in opMap && (opMap[name].degraded || !opMap[name].available) {
        firstFailed, at := name, i;
      }
    }
    assert firstFailed != "" ==> order[at + 1..|order|] == order[at + 1..];
  }

  method EvaluateClusterOperatorOrdering(ops: seq<Operator>) returns (r: OrderResult)
    ensures OrderRight(ops, r)
  {
    var firstFailed, impacted, at := WalkOrder(ops, Order());
    r := OrderResult(firstFailed == "", firstFailed, impacted);
  }

  lemma {:induction false} LastNamedIsListed(ops: seq<Operator>, name: string)
    ensures LastNamed(ops, name).Some? ==> LastNamed(ops, name).value in ops && LastNamed(ops, name).value.name == name
  {
    if ops != [] {
      LastNamedIsListed(ops[..|ops| - 1], name);
    }
  }

  /**
   * A failed order always shows in the graph: the control plane is in trouble, and the root cause is there or further
   * up.
   */
  lemma {:induction false} FailedOrderShowsInGraph(obs: Platform, r: OrderResult, g: Graph)
    requires OrderRight(obs.operators, r) && GraphRight(SightOf(obs), g) && !r.passed
    ensures !StageOk(obs, ControlPlane) && !g.nodes[2].status.NodeHealthy?
    ensures exists k :: k <= 2 && Earliest(SightOf(obs), k) && Culprit(obs, StageAt(k), g.rootCauseResource)
  {
    var v := SightOf(obs);
    LastNamedIsListed(obs.operators, r.failedOperator);
    assert !Fine(v, 2) && NodeRight(v, 2, g.nodes[2]);
    var k :| Earliest(v, k) && v.culprit(StageAt(k), g.rootCauseResource);
    assert k <= 2;
  }
}
