/** Any interleaved run of the operator leaves etcd as a serial run does: one in which the
    controllers that write etcd run one after the other, each by itself, through the same
    passes. What it finds changed in between are API objects, as if people had edited them. */
module SerialRuns {
  import opened Api
  import opened Operator
  import N = NodePass
  import C = ClusterController
  import P = PoolController
  import NodeEffects

  /** The controllers with an etcd key of their own. */
  datatype Writer = NodeWriter | ClusterWriter | PoolWriter

  function KeyWritten(k: Writer): Key {
    match k
    case NodeWriter => TreeKey
    case ClusterWriter => LevelsKey
    case PoolWriter => PoolsKey
  }

  predicate SameWorker(k: Writer, s: System, t: System) {
    match k
    case NodeWriter => s.node == t.node
    case ClusterWriter => s.cluster == t.cluster
    case PoolWriter => s.pool == t.pool
  }

  predicate IsOwn(e: Event, k: Writer) {
    match k
    case NodeWriter => e.NodeBegin? || e.NodeStep? || e.NodeFails?
    case ClusterWriter => e.ClusterBegin? || e.ClusterStep? || e.ClusterFails?
    case PoolWriter => e.PoolBegin? || e.PoolStep? || e.PoolFails?
  }

  predicate SameObjects(w: World, v: World) {
    && w.nodes == v.nodes && w.osds == v.osds && w.sets == v.sets && w.clusters == v.clusters
    && w.monitor == v.monitor && w.agent == v.agent && w.pools == v.pools && w.classes == v.classes
  }

  /** A controller sees the same in both: API objects, its own key, its own worker. */
  predicate LooksAlike(k: Writer, s: System, t: System) {
    SameObjects(s.w, t.w) && Agree(KeyWritten(k), EtcdOf(s.w), EtcdOf(t.w)) && SameWorker(k, s, t)
  }

  /** The other keys and the other workers are as they were. */
  predicate OthersRest(k: Writer, t: System, t': System) {
    forall j :: j != k ==> Agree(KeyWritten(j), EtcdOf(t.w), EtcdOf(t'.w)) && SameWorker(j, t, t')
  }

  /** The API objects of one world with the etcd contents of another. */
  function Objects(w: World, etcd: World): World {
    w.(tree := etcd.tree, levels := etcd.levels, poolConfigs := etcd.poolConfigs)
  }

  /** How an event of s looks to controller k when it runs by itself, in t. */
  function Alone(e: Event, s: System, t: System, k: Writer): Event {
    if IsOwn(e, k) then e
    else if e.Restart? then Failure(k)
    else Edit(Objects(Next(e, s).w, t.w))
  }

  function Failure(k: Writer): Event {
    match k
    case NodeWriter => NodeFails
    case ClusterWriter => ClusterFails
    case PoolWriter => PoolFails
  }

  /** What controller k's worker does in a run: the passes it begins, its calls, and where
      it is cut short. */
  function Doings(es: seq<Event>, k: Writer): seq<Event> {
    if es == [] then []
    else
      var rest := Doings(es[1..], k);
      if IsOwn(es[0], k) then [es[0]] + rest else if es[0].Restart? then [Failure(k)] + rest else rest
  }

  /** Of a run of the controller alone nothing is left out but the edits; of the others' events
      only the restarts count, each as a failure. */
  lemma {:induction false} DoingsAre(es: seq<Event>, k: Writer)
    ensures (forall i :: 0 <= i < |es| ==> IsOwn(es[i], k)) ==> Doings(es, k) == es
    ensures (forall i :: 0 <= i < |es| ==> !IsOwn(es[i], k) && !es[i].Restart?) ==> Doings(es, k) == []
    ensures es == [Restart] ==> Doings(es, k) == [Failure(k)]
  {
    if es != [] { DoingsAre(es[1..], k); }
  }

  /** What a worker does in one run after the other is what it does in each, in order. */
  lemma {:induction false} DoingsJoin(es: seq<Event>, fs: seq<Event>, k: Writer)
    ensures Doings(es + fs, k) == Doings(es, k) + Doings(fs, k)
  {
    if es == [] {
      assert es + fs == fs;
    } else {
      assert (es + fs)[1..] == es[1..] + fs;
      DoingsJoin(es[1..], fs, k);
    }
  }

  function RunAlone(es: seq<Event>, s: System, t: System, k: Writer): seq<Event>
    decreases |es|
  {
    if es == [] then []
    else
      var e := Alone(es[0], s, t, k);
      [e] + RunAlone(es[1..], Next(es[0], s), Next(e, t), k)
  }

  /** Only controller k runs; the rest are edits. */
  predicate IsRunOf(es: seq<Event>, k: Writer) {
    forall i :: 0 <= i < |es| ==> IsOwn(es[i], k) || es[i].Edit?
  }

  // --------------------------------------------- each controller ignores the others' keys

  lemma DeployReadsOsds(c: N.Context, i: nat, w: World, v: World)
    requires w.osds == v.osds
    ensures var (p, w') := N.DeployStep(c, i, w); var (q, v') := N.DeployStep(c, i, v); p == q && w'.osds == v'.osds
  {
  }

  lemma SweepReadsOsds(c: N.Context, j: nat, w: World, v: World)
    requires w.osds == v.osds
    ensures var (p, w') := N.SweepStep(c, j, w); var (q, v') := N.SweepStep(c, j, v); p == q && w'.osds == v'.osds
  {
  }

  lemma NodeIgnoresOtherKeys(p: N.Pass, w: World, v: World)
    requires !p.Done? && SameObjects(w, v) && w.tree == v.tree
    ensures var (q, w') := N.Step(p, w); var (r, v') := N.Step(p, v);
      q == r && SameObjects(w', v') && w'.tree == v'.tree
  {
    match p
    case Deploy(c, i) =>
      NodeEffects.DeployFrame(c, i, w);
      NodeEffects.DeployFrame(c, i, v);
      DeployReadsOsds(c, i, w, v);
    case Sweep(c, j) =>
      NodeEffects.SweepFrame(c, j, w);
      NodeEffects.SweepFrame(c, j, v);
      SweepReadsOsds(c, j, w, v);
    case _ =>
  }

  lemma ClusterIgnoresOtherKeys(p: C.Pass, w: World, v: World)
    requires !p.Done? && SameObjects(w, v)
    ensures var (q, w') := C.Step(p, w); var (r, v') := C.Step(p, v); q == r && SameObjects(w', v')
  {
  }

  lemma PoolIgnoresOtherKeys(p: P.Pass, w: World, v: World)
    requires !p.Done? && SameObjects(w, v) && w.poolConfigs == v.poolConfigs
    ensures var (q, w') := P.Step(p, w); var (r, v') := P.Step(p, v);
      q == r && SameObjects(w', v') && w'.poolConfigs == v'.poolConfigs
  {
  }

  lemma OwnEventLooksAlike(e: Event, s: System, t: System, k: Writer)
    requires LooksAlike(k, s, t) && IsOwn(e, k)
    ensures LooksAlike(k, Next(e, s), Next(e, t)) && OthersRest(k, t, Next(e, t))
  {
    match e
    case NodeStep =>
      if !s.node.Done? {
        NodeIgnoresOtherKeys(s.node, s.w, t.w);
        NodeEffects.StepFrame(t.node, t.w);
      }
    case ClusterStep =>
      if !s.cluster.Done? {
        ClusterIgnoresOtherKeys(s.cluster, s.w, t.w);
        ClusterFrame(s.cluster, s.w);
        ClusterFrame(t.cluster, t.w);
      }
    case PoolStep =>
      if !s.pool.Done? {
        PoolIgnoresOtherKeys(s.pool, s.w, t.w);
        OsdAndPoolFrame(t.osd, t.pool, t.w);
      }
    case _ =>
  }

  /** No event but its own writes a controller's key or moves its worker, restarts aside. */
  lemma OthersKeepOut(e: Event, s: System, k: Writer)
    requires !IsOwn(e, k) && !e.Restart?
    ensures Agree(KeyWritten(k), EtcdOf(s.w), EtcdOf(Next(e, s).w)) && SameWorker(k, s, Next(e, s))
  {
    OsdAndPoolFrame(s.osd, s.pool, s.w);
    if e.NodeStep? && !s.node.Done? { NodeEffects.StepFrame(s.node, s.w); }
    if e.ClusterStep? && !s.cluster.Done? { ClusterFrame(s.cluster, s.w); }
  }

  lemma {:induction false} AloneLooksAlike(e: Event, s: System, t: System, k: Writer)
    requires LooksAlike(k, s, t)
    ensures var e' := Alone(e, s, t, k);
      LooksAlike(k, Next(e, s), Next(e', t)) && OthersRest(k, t, Next(e', t)) && (IsOwn(e', k) || e'.Edit?)
  {
    if IsOwn(e, k) {
      OwnEventLooksAlike(e, s, t, k);
    } else if !e.Restart? {
      OthersKeepOut(e, s, k);
      EditLooksAlike(Next(e, s), t, k);
    }
  }

  lemma EditLooksAlike(s: System, t: System, k: Writer)
    requires Agree(KeyWritten(k), EtcdOf(s.w), EtcdOf(t.w)) && SameWorker(k, s, t)
    ensures var t' := Next(Edit(Objects(s.w, t.w)), t); LooksAlike(k, s, t') && OthersRest(k, t, t')
  {
  }

  lemma {:induction false} RunAloneLooksAlike(es: seq<Event>, s: System, t: System, k: Writer)
    requires LooksAlike(k, s, t)
    ensures var run := RunAlone(es, s, t, k);
      && IsRunOf(run, k) && Doings(run, k) == Doings(es, k)
      && LooksAlike(k, RunEvents(es, s), RunEvents(run, t)) && OthersRest(k, t, RunEvents(run, t))
    decreases |es|
  {
    if es != [] {
      var e := Alone(es[0], s, t, k);
      var rest := RunAlone(es[1..], Next(es[0], s), Next(e, t), k);
      AloneLooksAlike(es[0], s, t, k);
      RunAloneLooksAlike(es[1..], Next(es[0], s), Next(e, t), k);
      RunFirst(e, rest, t);
      IsRunOfFirst(e, rest, k);
      assert IsOwn(e, k) <==> IsOwn(es[0], k) || es[0].Restart?;
    }
  }

  lemma RunFirst(e: Event, rest: seq<Event>, t: System)
    ensures RunEvents([e] + rest, t) == RunEvents(rest, Next(e, t))
  {
    assert ([e] + rest)[1..] == rest;
  }

  lemma IsRunOfFirst(e: Event, rest: seq<Event>, k: Writer)
    requires (IsOwn(e, k) || e.Edit?) && IsRunOf(rest, k)
    ensures IsRunOf([e] + rest, k)
    ensures Doings([e] + rest, k) == (if IsOwn(e, k) then [e] else []) + Doings(rest, k)
  {
    assert ([e] + rest)[1..] == rest;
  }

  /** One controller's whole history by itself, starting from a state that has the objects
      of s and its own key and worker as in s. */
  lemma OneTurn(es: seq<Event>, s: System, t: System, k: Writer) returns (run: seq<Event>)
    requires Agree(KeyWritten(k), EtcdOf(s.w), EtcdOf(t.w)) && SameWorker(k, s, t)
    ensures IsRunOf(run, k) && Doings(run, k) == Doings(es, k)
    ensures Agree(KeyWritten(k), EtcdOf(RunEvents(es, s).w), EtcdOf(RunEvents(run, t).w))
    ensures OthersRest(k, t, RunEvents(run, t))
  {
    var back := Edit(Objects(s.w, t.w));
    var t0 := Next(back, t);
    EditLooksAlike(s, t, k);
    RunAloneLooksAlike(es, s, t0, k);
    var rest := RunAlone(es, s, t0, k);
    run := [back] + rest;
    RunFirst(back, rest, t);
    IsRunOfFirst(back, rest, k);
  }

  /** The serial run: first the node controller by itself, then the cluster controller,
      then the pool controller. Each does what it did in the interleaved run, pass by pass
      and call by call, and is cut where it was cut; etcd ends the same. */
  lemma {:induction false} InterleavingHasSerialRun(es: seq<Event>, s: System)
    returns (a: seq<Event>, b: seq<Event>, c: seq<Event>)
    ensures IsRunOf(a, NodeWriter) && Doings(a, NodeWriter) == Doings(es, NodeWriter)
    ensures IsRunOf(b, ClusterWriter) && Doings(b, ClusterWriter) == Doings(es, ClusterWriter)
    ensures IsRunOf(c, PoolWriter) && Doings(c, PoolWriter) == Doings(es, PoolWriter)
    ensures EtcdOf(RunEvents(c, RunEvents(b, RunEvents(a, s))).w) == EtcdOf(RunEvents(es, s).w)
  {
    a := OneTurn(es, s, s, NodeWriter);
    var s1 := RunEvents(a, s);
    b := OneTurn(es, s, s1, ClusterWriter);
    var s2 := RunEvents(b, s1);
    c := OneTurn(es, s, s2, PoolWriter);
    var s3 := RunEvents(c, s2);
    assert Agree(TreeKey, EtcdOf(s3.w), EtcdOf(s1.w));
    assert Agree(LevelsKey, EtcdOf(s3.w), EtcdOf(s2.w));
  }
}
