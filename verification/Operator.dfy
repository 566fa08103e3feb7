/** The operator as a whole: four controllers with one worker each, interleaved call by
    call with each other, with restarts and with edits from outside. */
module Operator {
  import opened Placement
  import opened Forest
  import opened Naming
  import opened Api
  import N = NodePass
  import O = OsdController
  import C = ClusterController
  import P = PoolController
  import NodeEffects

  /** Each worker is inside a pass or, at Done, waiting for the next request. */
  datatype System = System(w: World, node: N.Pass, osd: O.Pass, cluster: C.Pass, pool: P.Pass)

  /** A worker begins a pass, makes its next call, or has a call fail, which ends its pass
      while the others go on; the operator restarts; somebody else edits API objects. */
  datatype Event =
    | NodeBegin(nodeReq: string, answers: N.Answers)
    | NodeStep
    | NodeFails
    | OsdBegin(osdReq: string)
    | OsdStep
    | OsdFails
    | ClusterBegin(clusterReq: string, pods: seq<C.Pod>)
    | ClusterStep
    | ClusterFails
    | PoolBegin(poolReq: string)
    | PoolStep
    | PoolFails
    | Restart
    | Edit(after: World)

  /** People and other programs change any API object, and no etcd key. */
  predicate IsEdit(w: World, after: World) {
    after.tree == w.tree && after.levels == w.levels && after.poolConfigs == w.poolConfigs
  }

  /** The operator as it starts: no worker has a request. */
  function Idle(w: World): System {
    System(w, N.Done(N.Failed), O.Done(O.Failed), C.Done(C.Failed), P.Done(P.Failed))
  }

  function Next(e: Event, s: System): System {
    match e
    case NodeBegin(req, answers) => if s.node.Done? then s.(node := N.Start(req, answers)) else s
    case NodeStep =>
      if s.node.Done? then s
      else
        var (p, w) := N.Step(s.node, s.w);
        s.(node := p, w := w)
    case OsdBegin(req) => if s.osd.Done? then s.(osd := O.Start(req)) else s
    case OsdStep =>
      if s.osd.Done? then s
      else
        var (p, w) := O.Step(s.osd, s.w);
        s.(osd := p, w := w)
    case ClusterBegin(req, pods) => if s.cluster.Done? then s.(cluster := C.WriteLevels(req, pods)) else s
    case ClusterStep =>
      if s.cluster.Done? then s
      else
        var (p, w) := C.Step(s.cluster, s.w);
        s.(cluster := p, w := w)
    case PoolBegin(req) => if s.pool.Done? then s.(pool := P.Start(req)) else s
    case PoolStep =>
      if s.pool.Done? then s
      else
        var (p, w) := P.Step(s.pool, s.w);
        s.(pool := p, w := w)
    case NodeFails => s.(node := N.Done(N.Failed))
    case OsdFails => s.(osd := O.Done(O.Failed))
    case ClusterFails => s.(cluster := C.Done(C.Failed))
    case PoolFails => s.(pool := P.Done(P.Failed))
    case Restart => Idle(s.w)
    case Edit(after) => if IsEdit(s.w, after) then s.(w := after) else s
  }

  function RunEvents(es: seq<Event>, s: System): System
    decreases |es|
  {
    if es == [] then s else RunEvents(es[1..], Next(es[0], s))
  }

  lemma MonitorFrame(p: C.Pass, w: World)
    requires p.CreateMonitor? || p.PatchImage? || p.PatchReplicas?
    ensures C.Step(p, w).1 == w.(monitor := C.Step(p, w).1.monitor)
  {
  }

  lemma AgentFrame(p: C.Pass, w: World)
    requires p.CreateAgent? || p.PatchAgent?
    ensures C.Step(p, w).1 == w.(agent := C.Step(p, w).1.agent)
  {
  }

  lemma ClusterFrame(p: C.Pass, w: World)
    requires !p.Done?
    ensures var w' := C.Step(p, w).1;
      && w'.osds == w.osds && w'.sets == w.sets && w'.tree == w.tree && w'.poolConfigs == w.poolConfigs
      && w'.levels == if p.WriteLevels? then Some(LEVELS) else w.levels
  {
    if p.CreateMonitor? || p.PatchImage? || p.PatchReplicas? {
      MonitorFrame(p, w);
    } else if p.CreateAgent? || p.PatchAgent? {
      AgentFrame(p, w);
    }
  }

  lemma OsdAndPoolFrame(p: O.Pass, q: P.Pass, w: World)
    ensures !p.Done? ==> O.Step(p, w).1 == w.(sets := O.Step(p, w).1.sets)
    ensures !q.Done? ==>
      P.Step(q, w).1 == w.(poolConfigs := P.Step(q, w).1.poolConfigs, classes := P.Step(q, w).1.classes)
  {
  }

  // --------------------------------------------------------------- no lost updates

  datatype Etcd = Etcd(tree: Option<Tree>, levels: Option<Levels>, pools: Option<P.Configs>)

  function EtcdOf(w: World): Etcd {
    Etcd(w.tree, w.levels, w.poolConfigs)
  }

  /** One read-modify-write of one etcd key, taken as a single action. */
  datatype Update =
    | PutHost(host: string, domains: seq<string>)
    | PutOsd(key: string, host: string)
    | PutLevels
    | PutPool(pool: Pool)

  function ApplyUpdate(u: Update, e: Etcd): Etcd {
    match u
    case PutHost(host, domains) =>
      e.(tree := Some(WithHost(if e.tree.Some? then e.tree.value else map[], host, domains)))
    case PutOsd(key, host) => e.(tree := Some(WithOsd(if e.tree.Some? then e.tree.value else map[], key, host)))
    case PutLevels => e.(levels := Some(LEVELS))
    case PutPool(pool) =>
      e.(pools := Some((if e.pools.Some? then e.pools.value else map[])[pool.id := P.ConfigFor(pool)]))
  }

  function ApplyUpdates(us: seq<Update>, e: Etcd): Etcd
    decreases |us|
  {
    if us == [] then e else ApplyUpdates(us[1..], ApplyUpdate(us[0], e))
  }

  /** Every value a worker is about to Put is the stored value with the worker's own
      entries merged in: nobody else wrote the key since the worker's Get. */
  ghost predicate PendingIsCurrent(s: System) {
    && (match s.node
        case WriteTree(c, t) =>
          c.answers.labels.Some? && t == WithHost(N.TreeOf(s.w), c.node.name, Domains(c.answers.labels.value))
        case WriteEntry(c, i, t) =>
          s.w.tree.Some? && i < |c.Report()|
          && t == WithOsd(s.w.tree.value, Itoa(c.Report()[i].osdNumber), c.node.nodeName)
        case _ => true)
    && (match s.pool
        case WritePools(pool, configs) => configs == P.ConfigsOf(s.w)[pool.id := P.ConfigFor(pool)]
        case _ => true)
  }

  /** The updates an event completes: one at each Put. */
  function UpdatesOf(e: Event, s: System): seq<Update> {
    match e
    case NodeStep =>
      (match s.node
       case WriteTree(c, _) =>
         if c.answers.labels.Some? then [PutHost(c.node.name, Domains(c.answers.labels.value))] else []
       case WriteEntry(c, i, _) =>
         if i < |c.Report()| then [PutOsd(Itoa(c.Report()[i].osdNumber), c.node.nodeName)] else []
       case _ => [])
    case ClusterStep => if s.cluster.WriteLevels? then [PutLevels] else []
    case PoolStep => if s.pool.WritePools? then [PutPool(s.pool.pool)] else []
    case _ => []
  }

  function AllUpdates(es: seq<Event>, s: System): seq<Update>
    decreases |es|
  {
    if es == [] then [] else UpdatesOf(es[0], s) + AllUpdates(es[1..], Next(es[0], s))
  }

  lemma NodeStepIsAtomic(s: System)
    requires PendingIsCurrent(s)
    ensures PendingIsCurrent(Next(NodeStep, s))
    ensures EtcdOf(Next(NodeStep, s).w) == ApplyUpdates(UpdatesOf(NodeStep, s), EtcdOf(s.w))
  {
    if !s.node.Done? {
      NodeEffects.StepFrame(s.node, s.w);
      NodeTreeStep(s.node, s.w);
    }
    var us := UpdatesOf(NodeStep, s);
    assert us != [] ==> us[1..] == [];
  }

  /** A step of a pass writes the tree only at its two Puts. */
  lemma NodeTreeStep(p: N.Pass, w: World)
    requires !p.Done?
    ensures N.Step(p, w).1.tree == match p
      case WriteTree(_, t) => Some(t)
      case WriteEntry(_, _, t) => Some(t)
      case _ => w.tree
    ensures var q := N.Step(p, w).0;
      && (q.WriteTree? ==>
            && q.c.answers.labels.Some?
            && q.tree == WithHost(N.TreeOf(w), q.c.node.name, Domains(q.c.answers.labels.value)))
      && (q.WriteEntry? ==>
            && w.tree.Some? && q.i < |q.c.Report()|
            && q.tree == WithOsd(w.tree.value, Itoa(q.c.Report()[q.i].osdNumber), q.c.node.nodeName))
      && (q.WriteTree? || q.WriteEntry? ==> !p.WriteTree? && !p.WriteEntry?)
  {
  }

  lemma EventIsAtomic(e: Event, s: System)
    requires PendingIsCurrent(s)
    ensures PendingIsCurrent(Next(e, s))
    ensures EtcdOf(Next(e, s).w) == ApplyUpdates(UpdatesOf(e, s), EtcdOf(s.w))
  {
    if e.ClusterStep? && !s.cluster.Done? { ClusterFrame(s.cluster, s.w); }
    OsdAndPoolFrame(s.osd, s.pool, s.w);
    if e.NodeStep? {
      NodeStepIsAtomic(s);
    } else {
      assert ApplyUpdates([], EtcdOf(s.w)) == EtcdOf(s.w);
      var us := UpdatesOf(e, s);
      assert us != [] ==> us[1..] == [];
    }
  }

  lemma {:induction false} UpdatesJoin(us: seq<Update>, vs: seq<Update>, e: Etcd)
    ensures ApplyUpdates(us + vs, e) == ApplyUpdates(vs, ApplyUpdates(us, e))
    decreases |us|
  {
    if us == [] {
      assert us + vs == vs;
    } else {
      assert (us + vs)[0] == us[0] && (us + vs)[1..] == us[1..] + vs;
      UpdatesJoin(us[1..], vs, ApplyUpdate(us[0], e));
    }
  }

  /** No lost updates: however the four controllers are interleaved, wherever restarts cut
      their passes, etcd ends as if each read-modify-write had happened at once, at its Put. */
  lemma {:induction false} InterleavingLosesNothing(es: seq<Event>, s: System)
    requires PendingIsCurrent(s)
    ensures PendingIsCurrent(RunEvents(es, s))
    ensures EtcdOf(RunEvents(es, s).w) == ApplyUpdates(AllUpdates(es, s), EtcdOf(s.w))
    decreases |es|
  {
    if es != [] {
      var s' := Next(es[0], s);
      EventIsAtomic(es[0], s);
      InterleavingLosesNothing(es[1..], s');
      UpdatesJoin(UpdatesOf(es[0], s), AllUpdates(es[1..], s'), EtcdOf(s.w));
    }
  }

  datatype Key = TreeKey | LevelsKey | PoolsKey

  predicate Agree(k: Key, e: Etcd, f: Etcd) {
    match k
    case TreeKey => e.tree == f.tree
    case LevelsKey => e.levels == f.levels
    case PoolsKey => e.pools == f.pools
  }

  /** One worker a controller is what makes this so. Two workers on the node controller:
      both have read the map, both write it back; the first one's host is lost. */
  lemma TwoWorkersLoseAnUpdate(w: World, a: N.Context, b: N.Context)
    requires a.answers.labels == Some([]) && b.answers.labels == Some([])
    requires a.node.name != b.node.name && a.node.name !in N.TreeOf(w)
    ensures
      var (a1, _) := N.Step(N.ReadTree(a), w);
      var (b1, _) := N.Step(N.ReadTree(b), w);
      a1.WriteTree? && b1.WriteTree? &&
      var (_, w1) := N.Step(a1, w);
      var (_, w2) := N.Step(b1, w1);
      a.node.name in N.TreeOf(w1) && a.node.name !in N.TreeOf(w2)
  {
    assert Domains([]) == [];
  }
}
