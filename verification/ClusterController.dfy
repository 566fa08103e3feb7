/** The cluster controller: the level table, then the monitor, then the agents, then one
    VitastorNode for every node that runs an agent. */
module ClusterController {
  import opened Placement
  import opened StatusLists
  import opened Forest
  import opened Api

  /** An agent pod as the pass meets it: the node it runs on, empty while it is not
      scheduled, and whether the lookup of that node's VitastorNode fails for another reason
      than its absence. */
  datatype Pod = Pod(nodeName: string, lookupFails: bool)

  datatype Outcome = Skipped | Failed | Requeued | Finished

  datatype Pass =
    | WriteLevels(req: string, pods: seq<Pod>)
    | GetCluster(req: string, pods: seq<Pod>)
    | GetMonitor(spec: ClusterSpec, pods: seq<Pod>)
    | CreateMonitor(spec: ClusterSpec)
    | PatchImage(spec: ClusterSpec, pods: seq<Pod>, found: Deployment)
    | PatchReplicas(spec: ClusterSpec, pods: seq<Pod>, found: Deployment)
    | GetAgent(spec: ClusterSpec, pods: seq<Pod>)
    | CreateAgent(spec: ClusterSpec)
    | PatchAgent(spec: ClusterSpec, pods: seq<Pod>, agent: DaemonSet)
    | Adopt(spec: ClusterSpec, pods: seq<Pod>, i: nat)
    | CreateNode(spec: ClusterSpec, pods: seq<Pod>, i: nat)
    | Done(outcome: Outcome)

  /** Go's int32(n). */
  function Int32(n: int): int {
    (n + 0x8000_0000) % 0x1_0000_0000 - 0x8000_0000
  }

  function MonitorFor(spec: ClusterSpec): Deployment {
    Deployment(spec.monitorImage, Int32(spec.monitorReplicaNum))
  }

  function AgentFor(spec: ClusterSpec): DaemonSet {
    DaemonSet(spec.agentImage)
  }

  function NodeFor(name: string, image: string): VitastorNode {
    VitastorNode(name, name, image, NodeStatus(Nil, Nil, Nil))
  }

  function CheckReplicas(spec: ClusterSpec, pods: seq<Pod>, found: Deployment): Pass {
    if found.replicas != Int32(spec.monitorReplicaNum) then PatchReplicas(spec, pods, found)
    else GetAgent(spec, pods)
  }

  function Step(p: Pass, w: World): (Pass, World)
    requires !p.Done?
  {
    match p
    case WriteLevels(req, pods) => (GetCluster(req, pods), w.(levels := Some(LEVELS)))
    case GetCluster(req, pods) =>
      (if req in w.clusters then GetMonitor(w.clusters[req], pods) else Done(Skipped), w)
    case GetMonitor(spec, pods) =>
      (match w.monitor
       case None => CreateMonitor(spec)
       case Some(d) =>
         if d.image != spec.monitorImage then PatchImage(spec, pods, d) else CheckReplicas(spec, pods, d), w)
    case CreateMonitor(spec) =>
      if w.monitor.Some? then (Done(Failed), w) else (Done(Requeued), w.(monitor := Some(MonitorFor(spec))))
    case PatchImage(spec, pods, found) =>
      if w.monitor != Some(found) then (Done(Failed), w)
      else
        var d := found.(image := spec.monitorImage);
        (CheckReplicas(spec, pods, d), w.(monitor := Some(d)))
    case PatchReplicas(spec, pods, found) =>
      if w.monitor != Some(found) then (Done(Failed), w)
      else (GetAgent(spec, pods), w.(monitor := Some(found.(replicas := Int32(spec.monitorReplicaNum)))))
    case GetAgent(spec, pods) =>
      (match w.agent
       case None => CreateAgent(spec)
       case Some(ds) => if ds.image != spec.agentImage then PatchAgent(spec, pods, ds) else Adopt(spec, pods, 0), w)
    case CreateAgent(spec) =>
      if w.agent.Some? then (Done(Failed), w) else (Done(Requeued), w.(agent := Some(AgentFor(spec))))
    case PatchAgent(spec, pods, found) =>
      if w.agent != Some(found) then (Done(Failed), w)
      else (Adopt(spec, pods, 0), w.(agent := Some(AgentFor(spec))))
    case Adopt(spec, pods, i) =>
      (if i >= |pods| then Done(Finished)
       else if pods[i].lookupFails || pods[i].nodeName in w.nodes then Adopt(spec, pods, i + 1)
       else CreateNode(spec, pods, i), w)
    case CreateNode(spec, pods, i) =>
      // an object without a name is refused
      if i >= |pods| || pods[i].nodeName == "" || pods[i].nodeName in w.nodes then (Done(Failed), w)
      else
        var name := pods[i].nodeName;
        (Adopt(spec, pods, i + 1), w.(nodes := w.nodes[name := NodeFor(name, spec.osdImage)]))
  }

  function Run(n: nat, p: Pass, w: World): (Pass, World) {
    if n == 0 || p.Done? then (p, w)
    else
      var (p', w') := Step(p, w);
      Run(n - 1, p', w')
  }

  lemma RunStep(n: nat, p: Pass, w: World)
    requires n > 0 && !p.Done?
    ensures Run(n, p, w) == Run(n - 1, Step(p, w).0, Step(p, w).1)
  {
  }

  class VitastorClusterReconciler {
    const client: Store

    constructor (client: Store)
      ensures this.client == client
    {
      this.client := client;
    }

    method Reconcile(req: string, pods: seq<Pod>, calls: nat) returns (end: Pass)
      modifies client
      ensures (end, client.Snapshot()) == Run(calls, WriteLevels(req, pods), old(client.Snapshot()))
    {
      if calls == 0 { return WriteLevels(req, pods); }
      RunStep(calls, WriteLevels(req, pods), client.Snapshot());
      client.levels := Some(LEVELS);
      if calls == 1 { return GetCluster(req, pods); }
      RunStep(calls - 1, GetCluster(req, pods), client.Snapshot());
      if req !in client.clusters { return Done(Skipped); }
      end := ReconcileMonitor(client.clusters[req], pods, calls - 2);
    }

    method ReconcileMonitor(spec: ClusterSpec, pods: seq<Pod>, calls: nat) returns (end: Pass)
      modifies client
      ensures (end, client.Snapshot()) == Run(calls, GetMonitor(spec, pods), old(client.Snapshot()))
    {
      var left := calls;
      if left == 0 { return GetMonitor(spec, pods); }
      RunStep(left, GetMonitor(spec, pods), client.Snapshot());
      left := left - 1;
      if client.monitor.None? {
        if left == 0 { return CreateMonitor(spec); }
        client.monitor := Some(MonitorFor(spec));
        return Done(Requeued);
      }
      var deployment := client.monitor.value;
      if deployment.image != spec.monitorImage {
        if left == 0 { return PatchImage(spec, pods, deployment); }
        RunStep(left, PatchImage(spec, pods, deployment), client.Snapshot());
        left := left - 1;
        deployment := deployment.(image := spec.monitorImage);
        client.monitor := Some(deployment);
      }
      if deployment.replicas != Int32(spec.monitorReplicaNum) {
        if left == 0 { return PatchReplicas(spec, pods, deployment); }
        RunStep(left, PatchReplicas(spec, pods, deployment), client.Snapshot());
        left := left - 1;
        deployment := deployment.(replicas := Int32(spec.monitorReplicaNum));
        client.monitor := Some(deployment);
      }
      end := ReconcileAgent(spec, pods, left);
    }

    method ReconcileAgent(spec: ClusterSpec, pods: seq<Pod>, calls: nat) returns (end: Pass)
      modifies client
      ensures (end, client.Snapshot()) == Run(calls, GetAgent(spec, pods), old(client.Snapshot()))
    {
      var left := calls;
      if left == 0 { return GetAgent(spec, pods); }
      RunStep(left, GetAgent(spec, pods), client.Snapshot());
      left := left - 1;
      if client.agent.None? {
        if left == 0 { return CreateAgent(spec); }
        client.agent := Some(AgentFor(spec));
        return Done(Requeued);
      }
      var daemonSet := client.agent.value;
      if daemonSet.image != spec.agentImage {
        if left == 0 { return PatchAgent(spec, pods, daemonSet); }
        RunStep(left, PatchAgent(spec, pods, daemonSet), client.Snapshot());
        left := left - 1;
        client.agent := Some(daemonSet.(image := spec.agentImage));
      }
      end := AdoptNodes(spec, pods, left);
    }

    /** The loop over the agent pods. */
    method AdoptNodes(spec: ClusterSpec, pods: seq<Pod>, calls: nat) returns (end: Pass)
      modifies client
      ensures (end, client.Snapshot()) == Run(calls, Adopt(spec, pods, 0), old(client.Snapshot()))
    {
      var left := calls;
      var i := 0;
      ghost var goal := Run(calls, Adopt(spec, pods, 0), client.Snapshot());
      while i < |pods|
        invariant 0 <= i <= |pods|
        invariant Run(left, Adopt(spec, pods, i), client.Snapshot()) == goal
      {
        if left == 0 { return Adopt(spec, pods, i); }
        RunStep(left, Adopt(spec, pods, i), client.Snapshot());
        left := left - 1;
        var name := pods[i].nodeName;
        if !pods[i].lookupFails && name !in client.nodes {
          if left == 0 { return CreateNode(spec, pods, i); }
          RunStep(left, CreateNode(spec, pods, i), client.Snapshot());
          left := left - 1;
          if name == "" { return Done(Failed); }
          client.nodes := client.nodes[name := NodeFor(name, spec.osdImage)];
        }
        i := i + 1;
      }
      if left == 0 { return Adopt(spec, pods, i); }
      end := Done(Finished);
    }
  }

  // -------------------------------------------------------------------- bring-up

  /** A pod that ends every pass: its VitastorNode is not found and cannot be created. */
  predicate IsUnscheduled(pod: Pod) {
    !pod.lookupFails && pod.nodeName == ""
  }

  /** How far the loop over the pods gets: to the first unscheduled one, or to the end. */
  function Reach(pods: seq<Pod>): (n: nat)
    ensures n <= |pods| && (n < |pods| ==> IsUnscheduled(pods[n]))
    ensures forall i :: 0 <= i < n ==> !IsUnscheduled(pods[i])
  {
    if pods == [] || IsUnscheduled(pods[0]) then 0 else 1 + Reach(pods[1..])
  }

  /** The nodes of the first i pods, as far as they can be looked up. */
  ghost function PodNodes(pods: seq<Pod>, i: nat): set<string>
    requires i <= |pods|
  {
    set j | 0 <= j < i && !pods[j].lookupFails :: pods[j].nodeName
  }

  /** Everything the cluster object asks for is there, and the node of every agent pod that
      the loop gets to is known. */
  ghost predicate BroughtUp(w: World, spec: ClusterSpec, pods: seq<Pod>) {
    && w.levels == Some(LEVELS)
    && w.monitor == Some(MonitorFor(spec))
    && w.agent == Some(AgentFor(spec))
    && PodNodes(pods, Reach(pods)) <= w.nodes.Keys
  }

  function Bound(pods: seq<Pod>): nat {
    9 + 2 * |pods|
  }

  /** The nodes once the first i agent pods are adopted: a new one is named after its pod's
      node, in its name and in its spec; existing ones are left alone. */
  ghost predicate Adopted(before: map<string, VitastorNode>, after: map<string, VitastorNode>,
        spec: ClusterSpec, pods: seq<Pod>, i: nat)
    requires i <= |pods|
  {
    && after.Keys == before.Keys + PodNodes(pods, i)
    && (forall k :: k in before && k in after ==> after[k] == before[k])
    && (forall k :: k in after && k !in before ==>
          after[k] == VitastorNode(k, k, spec.osdImage, NodeStatus(Nil, Nil, Nil)))
  }

  function WithPod(nodes: map<string, VitastorNode>, spec: ClusterSpec, pod: Pod): map<string, VitastorNode> {
    if pod.lookupFails || pod.nodeName in nodes then nodes
    else nodes[pod.nodeName := NodeFor(pod.nodeName, spec.osdImage)]
  }

  lemma AdoptedOneMore(before: map<string, VitastorNode>, after: map<string, VitastorNode>, spec: ClusterSpec,
        pods: seq<Pod>, i: nat)
    requires i < |pods| && Adopted(before, after, spec, pods, i)
    ensures Adopted(before, WithPod(after, spec, pods[i]), spec, pods, i + 1)
  {
    assert PodNodes(pods, i + 1) == PodNodes(pods, i) + if pods[i].lookupFails then {} else {pods[i].nodeName};
  }

  lemma AdoptTurn(n: nat, spec: ClusterSpec, pods: seq<Pod>, i: nat, w: World) returns (m: nat)
    requires n >= 2 && i < |pods| && !IsUnscheduled(pods[i])
    ensures n - 2 <= m < n
    ensures Run(n, Adopt(spec, pods, i), w)
      == Run(m, Adopt(spec, pods, i + 1), w.(nodes := WithPod(w.nodes, spec, pods[i])))
  {
    RunStep(n, Adopt(spec, pods, i), w);
    m := n - 1;
    if pods[i].lookupFails || pods[i].nodeName in w.nodes {
      assert w.(nodes := w.nodes) == w;
    } else {
      RunStep(n - 1, CreateNode(spec, pods, i), w);
      m := n - 2;
    }
  }

  lemma AdoptStops(n: nat, spec: ClusterSpec, pods: seq<Pod>, w: World)
    requires n >= 2 && "" !in w.nodes
    ensures Run(n, Adopt(spec, pods, Reach(pods)), w) == (AdoptOutcome(pods), w)
  {
    var i := Reach(pods);
    RunStep(n, Adopt(spec, pods, i), w);
    if i < |pods| {
      RunStep(n - 1, CreateNode(spec, pods, i), w);
    }
  }

  function AdoptOutcome(pods: seq<Pod>): Pass {
    Done(if Reach(pods) == |pods| then Finished else Failed)
  }

  lemma {:induction false} AdoptEnds(n: nat, spec: ClusterSpec, pods: seq<Pod>, i: nat, w: World,
        before: map<string, VitastorNode>)
    requires i <= Reach(pods) && n >= 2 + 2 * (Reach(pods) - i) && "" !in w.nodes
    requires Adopted(before, w.nodes, spec, pods, i)
    ensures var (p, w') := Run(n, Adopt(spec, pods, i), w);
      p == AdoptOutcome(pods) && w' == w.(nodes := w'.nodes) && Adopted(before, w'.nodes, spec, pods, Reach(pods))
    decreases Reach(pods) - i
  {
    if i == Reach(pods) {
      AdoptStops(n, spec, pods, w);
    } else {
      AdoptedOneMore(before, w.nodes, spec, pods, i);
      var m := AdoptTurn(n, spec, pods, i, w);
      AdoptEnds(m, spec, pods, i + 1, w.(nodes := WithPod(w.nodes, spec, pods[i])), before);
    }
  }

  /** What a pass that no call cuts short does with an existing cluster, stage by stage: it
      ends early right after it has created the monitor or the agents, and with an error at
      the first unscheduled pod. */
  ghost predicate PassResult(w: World, outcome: Outcome, w': World, spec: ClusterSpec, pods: seq<Pod>) {
    && w' == w.(levels := Some(LEVELS), monitor := Some(MonitorFor(spec)), agent := w'.agent, nodes := w'.nodes)
    && (w.monitor.None? ==> outcome == Requeued && w'.agent == w.agent && w'.nodes == w.nodes)
    && (w.monitor.Some? ==> w'.agent == Some(AgentFor(spec)))
    && (w.monitor.Some? && w.agent.None? ==> outcome == Requeued && w'.nodes == w.nodes)
    && (w.monitor.Some? && w.agent.Some? ==>
          Done(outcome) == AdoptOutcome(pods) && Adopted(w.nodes, w'.nodes, spec, pods, Reach(pods)))
  }

  ghost predicate AgentResult(w: World, p: Pass, w': World, spec: ClusterSpec, pods: seq<Pod>) {
    && p.Done? && w' == w.(agent := Some(AgentFor(spec)), nodes := w'.nodes)
    && (w.agent.None? ==> p.outcome == Requeued && w'.nodes == w.nodes)
    && (w.agent.Some? ==> p == AdoptOutcome(pods) && Adopted(w.nodes, w'.nodes, spec, pods, Reach(pods)))
  }

  lemma AgentReady(n: nat, spec: ClusterSpec, pods: seq<Pod>, w: World, ready: World)
    requires n >= 2 + 2 * |pods| && "" !in w.nodes
    requires w.agent.Some? && ready == w.(agent := Some(AgentFor(spec)))
    ensures var (p, w') := Run(n, Adopt(spec, pods, 0), ready); AgentResult(w, p, w', spec, pods)
  {
    AdoptEnds(n, spec, pods, 0, ready, w.nodes);
  }

  lemma AgentStage(n: nat, spec: ClusterSpec, pods: seq<Pod>, w: World)
    requires n >= 4 + 2 * |pods| && "" !in w.nodes
    ensures var (p, w') := Run(n, GetAgent(spec, pods), w); AgentResult(w, p, w', spec, pods)
  {
    RunStep(n, GetAgent(spec, pods), w);
    if w.agent.None? {
      RunStep(n - 1, CreateAgent(spec), w);
    } else if w.agent.value.image != spec.agentImage {
      RunStep(n - 1, PatchAgent(spec, pods, w.agent.value), w);
      AgentReady(n - 2, spec, pods, w, w.(agent := Some(AgentFor(spec))));
    } else {
      AgentReady(n - 1, spec, pods, w, w);
    }
  }

  lemma ReplicasStage(n: nat, spec: ClusterSpec, pods: seq<Pod>, w: World, d: Deployment)
    requires n >= 5 + 2 * |pods| && "" !in w.nodes
    requires w.monitor == Some(d) && d.image == spec.monitorImage && w.levels == Some(LEVELS)
    ensures var (p, w') := Run(n, CheckReplicas(spec, pods, d), w); p.Done? && PassResult(w, p.outcome, w', spec, pods)
  {
    if d.replicas != Int32(spec.monitorReplicaNum) {
      RunStep(n, PatchReplicas(spec, pods, d), w);
      AgentStage(n - 1, spec, pods, w.(monitor := Some(MonitorFor(spec))));
    } else {
      AgentStage(n, spec, pods, w);
    }
  }

  lemma ImageStage(n: nat, spec: ClusterSpec, pods: seq<Pod>, w: World, d: Deployment)
    requires n >= 6 + 2 * |pods| && "" !in w.nodes && w.monitor == Some(d) && w.levels == Some(LEVELS)
    ensures var (p, w') := Run(n, PatchImage(spec, pods, d), w); p.Done? && PassResult(w, p.outcome, w', spec, pods)
  {
    var d' := d.(image := spec.monitorImage);
    RunStep(n, PatchImage(spec, pods, d), w);
    ReplicasStage(n - 1, spec, pods, w.(monitor := Some(d')), d');
  }

  lemma MonitorStage(n: nat, spec: ClusterSpec, pods: seq<Pod>, w: World)
    requires n >= 7 + 2 * |pods| && "" !in w.nodes && w.levels == Some(LEVELS)
    ensures var (p, w') := Run(n, GetMonitor(spec, pods), w); p.Done? && PassResult(w, p.outcome, w', spec, pods)
  {
    RunStep(n, GetMonitor(spec, pods), w);
    if w.monitor.None? {
      RunStep(n - 1, CreateMonitor(spec), w);
    } else {
      var d := w.monitor.value;
      if d.image != spec.monitorImage {
        ImageStage(n - 1, spec, pods, w, d);
      } else {
        ReplicasStage(n - 1, spec, pods, w, d);
      }
    }
  }

  lemma CompletePass(n: nat, req: string, pods: seq<Pod>, w: World)
    requires n >= Bound(pods) && req in w.clusters && "" !in w.nodes
    ensures var (p, w') := Run(n, WriteLevels(req, pods), w);
      p.Done? && PassResult(w, p.outcome, w', w.clusters[req], pods) && "" !in w'.nodes
  {
    RunStep(n, WriteLevels(req, pods), w);
    var w1 := w.(levels := Some(LEVELS));
    RunStep(n - 1, GetCluster(req, pods), w1);
    MonitorStage(n - 2, w.clusters[req], pods, w1);
  }

  /** An uncut pass changes nothing exactly when the cluster is brought up. */
  lemma PassIsIdleIffBroughtUp(n: nat, req: string, pods: seq<Pod>, w: World)
    requires n >= Bound(pods) && req in w.clusters && "" !in w.nodes
    ensures Run(n, WriteLevels(req, pods), w).1 == w <==> BroughtUp(w, w.clusters[req], pods)
  {
    CompletePass(n, req, pods, w);
    var w' := Run(n, WriteLevels(req, pods), w).1;
    if BroughtUp(w, w.clusters[req], pods) {
      assert w'.nodes == w.nodes;
    }
  }

  function Passes(count: nat, n: nat, req: string, pods: seq<Pod>, w: World): World {
    if count == 0 then w else Passes(count - 1, n, req, pods, Run(n, WriteLevels(req, pods), w).1)
  }

  /** From any state at all, such as one left by a crash, three uncut passes bring the
      cluster up, with one VitastorNode for every node that runs an agent, however many
      pods it runs; nodes that were there are untouched. An unscheduled pod hides those
      that are listed after it, and only those. */
  lemma ThreePassesBringUp(n: nat, req: string, pods: seq<Pod>, w: World)
    requires n >= Bound(pods) && req in w.clusters && "" !in w.nodes
    ensures var end := Passes(3, n, req, pods, w);
      && BroughtUp(end, w.clusters[req], pods)
      && Adopted(w.nodes, end.nodes, w.clusters[req], pods, Reach(pods))
      && Run(n, WriteLevels(req, pods), end) == (AdoptOutcome(pods), end)
  {
    var w1 := Run(n, WriteLevels(req, pods), w).1;
    var w2 := Run(n, WriteLevels(req, pods), w1).1;
    CompletePass(n, req, pods, w);
    CompletePass(n, req, pods, w1);
    CompletePass(n, req, pods, w2);
    if w.monitor.Some? && w.agent.Some? {
      assert BroughtUp(w1, w.clusters[req], pods);
      PassIsIdleIffBroughtUp(n, req, pods, w1);
      PassIsIdleIffBroughtUp(n, req, pods, w2);
    } else if w.monitor.Some? || w.agent.Some? {
      assert BroughtUp(w2, w.clusters[req], pods);
      PassIsIdleIffBroughtUp(n, req, pods, w2);
    }
    var w3 := Run(n, WriteLevels(req, pods), w2).1;
    assert Passes(3, n, req, pods, w) == w3 by {
      assert Passes(2, n, req, pods, w1) == Passes(1, n, req, pods, w2) == Passes(0, n, req, pods, w3);
    }
    CompletePass(n, req, pods, w3);
    PassIsIdleIffBroughtUp(n, req, pods, w3);
  }

  // -------------------------------------------------------------- in plain numbers

  /** Go's conversion to int32: a number in range, the same modulo 2^32. */
  lemma Int32Is(n: int)
    ensures -0x8000_0000 <= Int32(n) < 0x8000_0000
    ensures (Int32(n) - n) % 0x1_0000_0000 == 0
    ensures -0x8000_0000 <= n < 0x8000_0000 ==> Int32(n) == n
  {
    var m := n + 0x8000_0000;
    assert m % 0x1_0000_0000 - m == -(m / 0x1_0000_0000) * 0x1_0000_0000;
  }

  /** What an uncut pass leaves, in plain values: the level table, the monitor with its image
      and its replicas, which are the spec's if these fit 32 bits, and the agents' image once
      the monitor was there. */
  lemma PassLeaves(n: nat, req: string, pods: seq<Pod>, w: World)
    requires n >= Bound(pods) && req in w.clusters && "" !in w.nodes
    ensures var spec, w' := w.clusters[req], Run(n, WriteLevels(req, pods), w).1;
      && w'.levels == Some(map["dc" := 99, "host" := 100, "osd" := 101])
      && w'.monitor.Some? && w'.monitor.value.image == spec.monitorImage
      && -0x8000_0000 <= w'.monitor.value.replicas < 0x8000_0000
      && (w'.monitor.value.replicas - spec.monitorReplicaNum) % 0x1_0000_0000 == 0
      && (-0x8000_0000 <= spec.monitorReplicaNum < 0x8000_0000 ==>
            w'.monitor == Some(Deployment(spec.monitorImage, spec.monitorReplicaNum)))
      && (w.monitor.Some? ==> w'.agent == Some(DaemonSet(spec.agentImage)))
  {
    CompletePass(n, req, pods, w);
    Int32Is(w.clusters[req].monitorReplicaNum);
  }

  /** A pass for a cluster object that is gone writes the level table and nothing else. */
  lemma PassWithoutCluster(n: nat, req: string, pods: seq<Pod>, w: World)
    requires n >= 2 && req !in w.clusters
    ensures Run(n, WriteLevels(req, pods), w)
      == (Done(Skipped), w.(levels := Some(map["dc" := 99, "host" := 100, "osd" := 101])))
  {
    RunStep(n, WriteLevels(req, pods), w);
    RunStep(n - 1, GetCluster(req, pods), w.(levels := Some(LEVELS)));
  }
}
