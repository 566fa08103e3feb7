/** Cluster bring-up in runs of the whole operator: three completed passes of the cluster
    controller suffice whatever else happens in between, failed calls, restarts and the
    other controllers' work included. */
module BringUp {
  import opened Placement
  import opened Forest
  import opened Api
  import opened ClusterController
  import opened Operator
  import N = NodePass
  import NodeEffects

  // ------------------------------------------------------------ what stays reached

  ghost predicate MonitorIsUp(w: World, spec: ClusterSpec) {
    w.levels == Some(LEVELS) && w.monitor == Some(MonitorFor(spec))
  }

  ghost predicate AgentIsUp(w: World, spec: ClusterSpec) {
    MonitorIsUp(w, spec) && w.agent == Some(AgentFor(spec))
  }

  /** Where a pass of the cluster controller is, and what it has reached by then. */
  ghost predicate IsBuilding(p: Pass, w: World, req: string, spec: ClusterSpec, pods: seq<Pod>) {
    match p
    case WriteLevels(r, ps) => r == req && ps == pods
    case GetCluster(r, ps) => r == req && ps == pods && w.levels == Some(LEVELS)
    case GetMonitor(sp, ps) => sp == spec && ps == pods && w.levels == Some(LEVELS)
    case CreateMonitor(sp) => sp == spec && w.levels == Some(LEVELS) && w.monitor.None?
    case PatchImage(sp, ps, found) => sp == spec && ps == pods && w.levels == Some(LEVELS) && w.monitor == Some(found)
    case PatchReplicas(sp, ps, found) =>
      && sp == spec && ps == pods && w.levels == Some(LEVELS)
      && w.monitor == Some(found) && found.image == spec.monitorImage
    case GetAgent(sp, ps) => sp == spec && ps == pods && MonitorIsUp(w, spec)
    case CreateAgent(sp) => sp == spec && MonitorIsUp(w, spec) && w.agent.None?
    case PatchAgent(sp, ps, found) => sp == spec && ps == pods && MonitorIsUp(w, spec) && w.agent == Some(found)
    case Adopt(sp, ps, i) => sp == spec && ps == pods && AgentIsUp(w, spec) && HasAdopted(w, pods, i)
    case CreateNode(sp, ps, i) =>
      sp == spec && ps == pods && AgentIsUp(w, spec) && HasAdopted(w, pods, i)
      && i < |pods| && !pods[i].lookupFails
    case Done(_) => true
  }

  ghost predicate HasAdopted(w: World, pods: seq<Pod>, i: nat) {
    i <= Reach(pods) && PodNodes(pods, i) <= w.nodes.Keys
  }

  ghost predicate IsOnTheWay(s: System, req: string, spec: ClusterSpec, pods: seq<Pod>) {
    && req in s.w.clusters && s.w.clusters[req] == spec && "" !in s.w.nodes
    && IsBuilding(s.cluster, s.w, req, spec, pods)
  }

  /** The cluster's spec and agent pods are fixed; nobody else touches the level table, the
      monitor or the agents, or removes a VitastorNode. What VitastorNodes say may change. */
  ghost predicate EventBuilds(e: Event, s: System, req: string, pods: seq<Pod>) {
    match e
    case ClusterBegin(r, ps) => r == req && ps == pods
    case Edit(after) =>
      && (req in s.w.clusters ==> req in after.clusters && after.clusters[req] == s.w.clusters[req])
      && after.monitor == s.w.monitor && after.agent == s.w.agent
      && s.w.nodes.Keys <= after.nodes.Keys && "" !in after.nodes
    case _ => true
  }

  ghost predicate EventsBuild(es: seq<Event>, s: System, req: string, pods: seq<Pod>)
    decreases |es|
  {
    es == [] || (EventBuilds(es[0], s, req, pods) && EventsBuild(es[1..], Next(es[0], s), req, pods))
  }

  // ------------------------------------------------------------------- one step

  lemma OneMorePod(w: World, pods: seq<Pod>, i: nat)
    requires HasAdopted(w, pods, i) && i < |pods| && (pods[i].lookupFails || pods[i].nodeName in w.nodes)
    requires "" !in w.nodes
    ensures HasAdopted(w, pods, i + 1)
  {
    assert PodNodes(pods, i + 1) == PodNodes(pods, i) + if pods[i].lookupFails then {} else {pods[i].nodeName};
  }

  /** A pass past its last pod, or at one without a node, has got to all it can get to. */
  lemma AllPods(w: World, pods: seq<Pod>, i: nat)
    requires HasAdopted(w, pods, i) && (i == |pods| || IsUnscheduled(pods[i]))
    ensures i == Reach(pods)
  {
  }

  lemma PodStepBuilds(p: Pass, w: World, req: string, spec: ClusterSpec, pods: seq<Pod>)
    requires p.Adopt? || p.CreateNode?
    requires "" !in w.nodes && IsBuilding(p, w, req, spec, pods)
    ensures var (q, w') := Step(p, w);
      && IsBuilding(q, w', req, spec, pods) && w' == w.(nodes := w'.nodes)
      && w.nodes.Keys <= w'.nodes.Keys && "" !in w'.nodes
      && (q.Done? && (p.Adopt? || IsUnscheduled(pods[p.i])) ==> BroughtUp(w', spec, pods))
  {
    var (q, w') := Step(p, w);
    if q.Done? {
      if p.Adopt? || IsUnscheduled(pods[p.i]) {
        AllPods(w, pods, p.i);
      }
    } else if q.Adopt? {
      OneMorePod(w', pods, p.i);
    }
  }

  lemma WorkloadStepBuilds(p: Pass, w: World, req: string, spec: ClusterSpec, pods: seq<Pod>)
    requires !p.Done? && !p.Adopt? && !p.CreateNode?
    requires req in w.clusters && w.clusters[req] == spec && IsBuilding(p, w, req, spec, pods)
    ensures var (q, w') := Step(p, w);
      && IsBuilding(q, w', req, spec, pods)
      && (q.Done? ==> q == Done(Requeued) && (p.CreateMonitor? || p.CreateAgent?)
                      && (if p.CreateMonitor? then MonitorIsUp(w', spec) else AgentIsUp(w', spec)))
  {
    assert PodNodes(pods, 0) == {};
  }

  lemma WorkloadStepKeeps(p: Pass, w: World, req: string, spec: ClusterSpec, pods: seq<Pod>)
    requires !p.Done? && !p.Adopt? && !p.CreateNode? && IsBuilding(p, w, req, spec, pods)
    ensures var w' := Step(p, w).1;
      && w'.nodes == w.nodes && w'.clusters == w.clusters
      && (w.levels == Some(LEVELS) ==> w'.levels == Some(LEVELS))
      && (w.monitor == Some(MonitorFor(spec)) ==> w'.monitor == w.monitor)
      && (w.agent == Some(AgentFor(spec)) ==> w'.agent == w.agent)
  {
  }

  /** How far the cluster is: the monitor, the agents, the nodes. */
  ghost function Stage(w: World, spec: ClusterSpec, pods: seq<Pod>): nat {
    if BroughtUp(w, spec, pods) then 3 else if AgentIsUp(w, spec) then 2 else if MonitorIsUp(w, spec) then 1 else 0
  }

  /** The step ends an uncut pass: all its work is done, it has just created the monitor or
      the agents, or it has met an unscheduled pod. */
  predicate CompletesCluster(e: Event, s: System) {
    && e.ClusterStep? && !s.cluster.Done?
    && var p := Step(s.cluster, s.w).0;
    && p.Done?
    && (p.outcome.Requeued? || p.outcome.Finished?
        || (s.cluster.CreateNode? && s.cluster.i < |s.cluster.pods| && IsUnscheduled(s.cluster.pods[s.cluster.i])))
  }

  lemma ClusterStepBuilds(s: System, req: string, spec: ClusterSpec, pods: seq<Pod>)
    requires IsOnTheWay(s, req, spec, pods) && !s.cluster.Done?
    ensures var s' := Next(ClusterStep, s);
      && IsOnTheWay(s', req, spec, pods)
      && Stage(s'.w, spec, pods) >= Stage(s.w, spec, pods)
      && (CompletesCluster(ClusterStep, s) ==>
            Stage(s'.w, spec, pods) == 3 || Stage(s'.w, spec, pods) > Stage(s.w, spec, pods))
  {
    if s.cluster.Adopt? || s.cluster.CreateNode? {
      PodStepBuilds(s.cluster, s.w, req, spec, pods);
    } else {
      WorkloadStepBuilds(s.cluster, s.w, req, spec, pods);
      WorkloadStepKeeps(s.cluster, s.w, req, spec, pods);
    }
  }

  /** Other events leave alone what has been reached and what a pass relies on. */
  lemma OtherEventsKeep(e: Event, s: System, req: string, spec: ClusterSpec, pods: seq<Pod>)
    requires IsOnTheWay(s, req, spec, pods) && EventBuilds(e, s, req, pods) && !e.ClusterStep?
    ensures var w, w' := s.w, Next(e, s).w;
      && w'.levels == w.levels && w'.monitor == w.monitor && w'.agent == w.agent
      && w.nodes.Keys <= w'.nodes.Keys && "" !in w'.nodes
      && req in w'.clusters && w'.clusters[req] == spec
  {
    OsdAndPoolFrame(s.osd, s.pool, s.w);
    if e.NodeStep? && !s.node.Done? {
      NodeEffects.StepFrame(s.node, s.w);
      NodeStepKeepsKeys(s.node, s.w);
    }
  }

  lemma NodeStepKeepsKeys(p: N.Pass, w: World)
    requires !p.Done?
    ensures N.Step(p, w).1.nodes.Keys == w.nodes.Keys
  {
    if p.SaveStatus? {
      assert p.c.node.name in w.nodes ==> w.nodes.Keys + {p.c.node.name} == w.nodes.Keys;
    }
  }

  lemma EventBuildsOn(e: Event, s: System, req: string, spec: ClusterSpec, pods: seq<Pod>)
    requires IsOnTheWay(s, req, spec, pods) && EventBuilds(e, s, req, pods)
    ensures var s' := Next(e, s);
      && IsOnTheWay(s', req, spec, pods)
      && Stage(s'.w, spec, pods) >= Stage(s.w, spec, pods)
      && (CompletesCluster(e, s) ==> Stage(s'.w, spec, pods) == 3 || Stage(s'.w, spec, pods) > Stage(s.w, spec, pods))
  {
    if e.ClusterStep? {
      if !s.cluster.Done? {
        ClusterStepBuilds(s, req, spec, pods);
      }
    } else {
      OtherEventsKeep(e, s, req, spec, pods);
    }
  }

  function ClusterCompletions(es: seq<Event>, s: System): nat
    decreases |es|
  {
    if es == [] then 0
    else (if CompletesCluster(es[0], s) then 1 else 0) + ClusterCompletions(es[1..], Next(es[0], s))
  }

  lemma {:induction false} CompletionsRaiseStage(es: seq<Event>, s: System, req: string, spec: ClusterSpec,
        pods: seq<Pod>)
    requires IsOnTheWay(s, req, spec, pods) && EventsBuild(es, s, req, pods)
    ensures var end := RunEvents(es, s);
      && IsOnTheWay(end, req, spec, pods)
      && (Stage(end.w, spec, pods) == 3
          || Stage(end.w, spec, pods) >= Stage(s.w, spec, pods) + ClusterCompletions(es, s))
    decreases |es|
  {
    if es != [] {
      EventBuildsOn(es[0], s, req, spec, pods);
      CompletionsRaiseStage(es[1..], Next(es[0], s), req, spec, pods);
    }
  }

  /** From any state in which the cluster worker is idle, and in any interleaving: once three
      passes have completed, the cluster is brought up. */
  lemma {:induction false} ThreeCompletionsBringUp(es: seq<Event>, s: System, req: string, pods: seq<Pod>)
    requires req in s.w.clusters && s.cluster.Done? && "" !in s.w.nodes
    requires EventsBuild(es, s, req, pods) && ClusterCompletions(es, s) >= 3
    ensures BroughtUp(RunEvents(es, s).w, s.w.clusters[req], pods)
  {
    CompletionsRaiseStage(es, s, req, s.w.clusters[req], pods);
  }
}
