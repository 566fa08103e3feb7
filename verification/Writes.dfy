/** What a single call of the operator may write: fields of its own, and nothing that has
    changed since it was read. A refused call ends the worker's pass and changes nothing. */
module Writes {
  import opened Placement
  import opened Api
  import opened Operator
  import N = NodePass
  import O = OsdController
  import C = ClusterController
  import P = PoolController
  import Naming
  import NodeEffects

  // ----------------------------------------------------------- what may be written

  /** Of a VitastorNode that was there, the status may change. */
  ghost predicate NodesKeepSpecs(w: World, w': World) {
    forall k :: k in w.nodes ==>
      k in w'.nodes && w'.nodes[k] == w.nodes[k].(status := w'.nodes[k].status)
  }

  /** Of a VitastorOSD that was there and still is, the image may change. */
  ghost predicate OsdsKeepPlaces(w: World, w': World) {
    forall k :: k in w.osds && k in w'.osds ==> w'.osds[k] == w.osds[k].(image := w'.osds[k].image)
  }

  ghost predicate SetsKeepPlaces(w: World, w': World) {
    forall k :: k in w.sets ==> k in w'.sets && w'.sets[k] == w.sets[k].(image := w'.sets[k].image)
  }

  ghost predicate ClassesStay(w: World, w': World) {
    forall k :: k in w.classes ==> k in w'.classes && w'.classes[k] == w.classes[k]
  }

  /** Nothing is removed but VitastorOSDs; users' objects are not written at all. */
  ghost predicate WritesOwnFields(w: World, w': World) {
    && NodesKeepSpecs(w, w') && OsdsKeepPlaces(w, w') && SetsKeepPlaces(w, w') && ClassesStay(w, w')
    && w'.clusters == w.clusters && w'.pools == w.pools
    && (w.monitor.Some? ==> w'.monitor.Some?) && (w.agent.Some? ==> w'.agent.Some?)
  }

  lemma DeployWrites(c: N.Context, i: nat, w: World)
    requires KeyedOsds(w.osds)
    ensures OsdsKeepPlaces(w, N.DeployStep(c, i, w).1)
  {
  }

  lemma SweepWrites(c: N.Context, j: nat, w: World)
    ensures OsdsKeepPlaces(w, N.SweepStep(c, j, w).1)
  {
  }

  lemma NodeWrites(p: N.Pass, w: World)
    requires !p.Done? && KeyedOsds(w.osds)
    ensures NodesKeepSpecs(w, N.Step(p, w).1) && OsdsKeepPlaces(w, N.Step(p, w).1)
  {
    match p
    case Deploy(c, i) =>
      DeployWrites(c, i, w);
      NodeEffects.DeployFrame(c, i, w);
    case Sweep(c, j) =>
      SweepWrites(c, j, w);
      NodeEffects.SweepFrame(c, j, w);
    case _ =>
  }

  lemma OsdWrites(p: O.Pass, w: World)
    requires !p.Done?
    ensures SetsKeepPlaces(w, O.Step(p, w).1)
  {
  }

  lemma MonitorStays(p: C.Pass, w: World)
    requires p.CreateMonitor? || p.PatchImage? || p.PatchReplicas?
    ensures w.monitor.Some? ==> C.Step(p, w).1.monitor.Some?
  {
  }

  lemma AgentStays(p: C.Pass, w: World)
    requires p.CreateAgent? || p.PatchAgent?
    ensures w.agent.Some? ==> C.Step(p, w).1.agent.Some?
  {
  }

  lemma ReadsWriteNothing(p: C.Pass, w: World)
    requires p.GetCluster? || p.GetMonitor? || p.GetAgent? || p.Adopt?
    ensures C.Step(p, w).1 == w
  {
  }

  lemma CreateNodeWrites(p: C.Pass, w: World)
    requires p.CreateNode?
    ensures C.Step(p, w).1 == w.(nodes := C.Step(p, w).1.nodes) && NodesKeepSpecs(w, C.Step(p, w).1)
  {
  }

  lemma ClusterWrites(p: C.Pass, w: World)
    requires !p.Done?
    ensures var w' := C.Step(p, w).1;
      && NodesKeepSpecs(w, w') && w'.clusters == w.clusters && w'.pools == w.pools && w'.classes == w.classes
      && (w.monitor.Some? ==> w'.monitor.Some?) && (w.agent.Some? ==> w'.agent.Some?)
  {
    if p.CreateMonitor? || p.PatchImage? || p.PatchReplicas? {
      MonitorFrame(p, w);
      MonitorStays(p, w);
    } else if p.CreateAgent? || p.PatchAgent? {
      AgentFrame(p, w);
      AgentStays(p, w);
    } else if p.CreateNode? {
      CreateNodeWrites(p, w);
    } else if !p.WriteLevels? {
      ReadsWriteNothing(p, w);
    }
  }

  lemma PoolWrites(p: P.Pass, w: World)
    requires !p.Done?
    ensures ClassesStay(w, P.Step(p, w).1)
  {
  }

  /** Whatever was edited meanwhile: no step of the operator takes back what somebody else
      wrote in a VitastorNode's spec, in the place of a VitastorOSD or StatefulSet, or in a
      StorageClass, and none removes any of these but a VitastorOSD. */
  lemma StepsWriteOwnFields(e: Event, s: System)
    requires !e.Edit? && KeyedOsds(s.w.osds)
    ensures WritesOwnFields(s.w, Next(e, s).w)
  {
    OsdAndPoolFrame(s.osd, s.pool, s.w);
    match e {
      case NodeStep =>
        if !s.node.Done? {
          NodeWrites(s.node, s.w);
          NodeEffects.StepFrame(s.node, s.w);
        }
      case OsdStep => if !s.osd.Done? { OsdWrites(s.osd, s.w); }
      case ClusterStep =>
        if !s.cluster.Done? {
          ClusterWrites(s.cluster, s.w);
          ClusterFrame(s.cluster, s.w);
        }
      case PoolStep => if !s.pool.Done? { PoolWrites(s.pool, s.w); }
      case _ =>
    }
  }

  /** The monitor's image and its replicas are written one at a time: a replica count that
      somebody else has set survives the image update, and the other way round. */
  lemma MonitorIsWrittenByField(p: C.Pass, w: World)
    requires (p.PatchImage? || p.PatchReplicas?) && w.monitor.Some?
    ensures var (q, w') := C.Step(p, w);
      && w'.monitor.Some?
      && (p.PatchImage? ==> w'.monitor.value.replicas == w.monitor.value.replicas)
      && (p.PatchReplicas? ==> w'.monitor.value.image == w.monitor.value.image)
  {
  }

  // ------------------------------------------------------------------ refused calls

  /** The node worker is about to update what has changed since it was read, to create what
      exists, or to delete what is gone. */
  predicate NodeIsRefused(p: N.Pass, w: World) {
    match p
    case SaveStatus(c) => !(c.node.name in w.nodes && w.nodes[c.node.name] == c.node)
    case Sweep(c, j) =>
      && j < |c.Listing()|
      && var osd := c.Listing()[j];
      if N.IsLive(c.Report(), osd.path) then
        osd.image != c.node.image && !(osd.name in w.osds && w.osds[osd.name] == osd)
      else osd.name !in w.osds
    case Deploy(c, i) =>
      && i < |c.Report()| && !N.HasPath(c.Listing(), c.Report()[i].dataDevice)
      && Naming.OsdName(c.Report()[i].osdNumber) in w.osds
    case _ => false
  }

  lemma RefusedNodeFails(p: N.Pass, w: World)
    requires NodeIsRefused(p, w)
    ensures N.Step(p, w) == (if p.Deploy? then N.Done(N.Blocked(p.i)) else N.Done(N.Failed), w)
  {
  }

  predicate OsdIsRefused(p: O.Pass, w: World) {
    match p
    case CreateSet(osd) => osd.name in w.sets
    case PatchSet(osd, found) => !(osd.name in w.sets && w.sets[osd.name] == found)
    case _ => false
  }

  lemma RefusedOsdFails(p: O.Pass, w: World)
    requires OsdIsRefused(p, w)
    ensures O.Step(p, w) == (O.Done(O.Failed), w)
  {
  }

  predicate ClusterIsRefused(p: C.Pass, w: World) {
    match p
    case CreateMonitor(_) => w.monitor.Some?
    case PatchImage(_, _, found) => w.monitor != Some(found)
    case PatchReplicas(_, _, found) => w.monitor != Some(found)
    case CreateAgent(_) => w.agent.Some?
    case PatchAgent(_, _, found) => w.agent != Some(found)
    case CreateNode(_, pods, i) => i < |pods| && (pods[i].nodeName == "" || pods[i].nodeName in w.nodes)
    case _ => false
  }

  lemma RefusedClusterFails(p: C.Pass, w: World)
    requires ClusterIsRefused(p, w)
    ensures C.Step(p, w) == (C.Done(C.Failed), w)
  {
  }

  lemma RefusedPoolFails(pool: Pool, w: World)
    requires pool.name in w.classes
    ensures P.Step(P.CreateClass(pool), w) == (P.Done(P.Failed), w)
  {
  }

  /** A refused call ends the pass of its worker and changes no store. */
  lemma RefusedCallsChangeNothing(s: System)
    ensures NodeIsRefused(s.node, s.w) ==> Next(NodeStep, s).w == s.w && Next(NodeStep, s).node.Done?
    ensures OsdIsRefused(s.osd, s.w) ==> Next(OsdStep, s).w == s.w && Next(OsdStep, s).osd.Done?
    ensures ClusterIsRefused(s.cluster, s.w) ==> Next(ClusterStep, s).w == s.w && Next(ClusterStep, s).cluster.Done?
    ensures s.pool.CreateClass? && s.pool.pool.name in s.w.classes ==>
      Next(PoolStep, s).w == s.w && Next(PoolStep, s).pool.Done?
  {
    if NodeIsRefused(s.node, s.w) { RefusedNodeFails(s.node, s.w); }
    if OsdIsRefused(s.osd, s.w) { RefusedOsdFails(s.osd, s.w); }
    if ClusterIsRefused(s.cluster, s.w) { RefusedClusterFails(s.cluster, s.w); }
    if s.pool.CreateClass? && s.pool.pool.name in s.w.classes { RefusedPoolFails(s.pool.pool, s.w); }
  }
}
