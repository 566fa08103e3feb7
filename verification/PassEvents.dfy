/** The operator's events and the passes they make up: from any state, whatever the workers
    were doing, a failed call or a restart followed by a new request starts a pass afresh, and
    left to itself it does exactly what the step machine does. */
module PassEvents {
  import opened Api
  import opened Operator
  import N = NodePass
  import O = OsdController
  import C = ClusterController
  import P = PoolController

  function Times(e: Event, n: nat): seq<Event> {
    if n == 0 then [] else [e] + Times(e, n - 1)
  }

  lemma RunFirst(e: Event, rest: seq<Event>, s: System)
    ensures RunEvents([e] + rest, s) == RunEvents(rest, Next(e, s))
  {
    assert ([e] + rest)[1..] == rest;
  }

  lemma RunTwo(d: Event, e: Event, rest: seq<Event>, s: System, t: System)
    requires t == Next(e, Next(d, s))
    ensures RunEvents([d, e] + rest, s) == RunEvents(rest, t)
  {
    assert ([d, e] + rest)[1..] == [e] + rest;
    RunFirst(e, rest, Next(d, s));
  }

  // ------------------------------------------------------------ steps of one worker

  function NodeAt(n: nat, p: N.Pass, s: System): System {
    s.(node := N.Run(n, p, s.w).0, w := N.Run(n, p, s.w).1)
  }

  function OsdAt(n: nat, p: O.Pass, s: System): System {
    s.(osd := O.Run(n, p, s.w).0, w := O.Run(n, p, s.w).1)
  }

  function ClusterAt(n: nat, p: C.Pass, s: System): System {
    s.(cluster := C.Run(n, p, s.w).0, w := C.Run(n, p, s.w).1)
  }

  function PoolAt(n: nat, p: P.Pass, s: System): System {
    s.(pool := P.Run(n, p, s.w).0, w := P.Run(n, p, s.w).1)
  }

  lemma {:induction false} NodeSteps(n: nat, s: System)
    ensures RunEvents(Times(NodeStep, n), s) == NodeAt(n, s.node, s)
  {
    if n > 0 {
      RunFirst(NodeStep, Times(NodeStep, n - 1), s);
      NodeSteps(n - 1, Next(NodeStep, s));
      if s.node.Done? {
        N.RunRests(n, s.node, s.w);
        N.RunRests(n - 1, s.node, s.w);
      } else {
        N.RunStep(n, s.node, s.w);
      }
    }
  }

  lemma {:induction false} OsdSteps(n: nat, s: System)
    ensures RunEvents(Times(OsdStep, n), s) == OsdAt(n, s.osd, s)
  {
    if n > 0 {
      RunFirst(OsdStep, Times(OsdStep, n - 1), s);
      OsdSteps(n - 1, Next(OsdStep, s));
    }
  }

  lemma {:induction false} ClusterSteps(n: nat, s: System)
    ensures RunEvents(Times(ClusterStep, n), s) == ClusterAt(n, s.cluster, s)
  {
    if n > 0 {
      RunFirst(ClusterStep, Times(ClusterStep, n - 1), s);
      ClusterSteps(n - 1, Next(ClusterStep, s));
    }
  }

  lemma {:induction false} PoolSteps(n: nat, s: System)
    ensures RunEvents(Times(PoolStep, n), s) == PoolAt(n, s.pool, s)
  {
    if n > 0 {
      RunFirst(PoolStep, Times(PoolStep, n - 1), s);
      PoolSteps(n - 1, Next(PoolStep, s));
    }
  }

  // -------------------------------------------------------------- a pass afresh

  /** A failed call ends the worker's pass; the next request makes a whole new pass. */
  lemma NodePassAfresh(n: nat, req: string, answers: N.Answers, s: System, start: N.Pass)
    requires start == N.Start(req, answers)
    ensures RunEvents([NodeFails, NodeBegin(req, answers)] + Times(NodeStep, n), s) == NodeAt(n, start, s)
  {
    var t := s.(node := start);
    RunTwo(NodeFails, NodeBegin(req, answers), Times(NodeStep, n), s, t);
    NodeSteps(n, t);
  }

  lemma OsdPassAfresh(n: nat, req: string, s: System, start: O.Pass)
    requires start == O.Start(req)
    ensures RunEvents([OsdFails, OsdBegin(req)] + Times(OsdStep, n), s) == OsdAt(n, start, s)
  {
    var t := s.(osd := start);
    RunTwo(OsdFails, OsdBegin(req), Times(OsdStep, n), s, t);
    OsdSteps(n, t);
  }

  lemma ClusterPassAfresh(n: nat, req: string, pods: seq<C.Pod>, s: System, start: C.Pass)
    requires start == C.WriteLevels(req, pods)
    ensures RunEvents([ClusterFails, ClusterBegin(req, pods)] + Times(ClusterStep, n), s) == ClusterAt(n, start, s)
  {
    var t := s.(cluster := start);
    RunTwo(ClusterFails, ClusterBegin(req, pods), Times(ClusterStep, n), s, t);
    ClusterSteps(n, t);
  }

  lemma PoolPassAfresh(n: nat, req: string, s: System, start: P.Pass)
    requires start == P.Start(req)
    ensures RunEvents([PoolFails, PoolBegin(req)] + Times(PoolStep, n), s) == PoolAt(n, start, s)
  {
    var t := s.(pool := start);
    RunTwo(PoolFails, PoolBegin(req), Times(PoolStep, n), s, t);
    PoolSteps(n, t);
  }

  /** A restart ends all passes and changes no store; then every worker takes requests. */
  lemma RestartFreesAll(s: System, req: string, answers: N.Answers, pods: seq<C.Pod>)
    ensures var s' := Next(Restart, s);
      && s'.w == s.w
      && Next(NodeBegin(req, answers), s').node == N.Start(req, answers)
      && Next(OsdBegin(req), s').osd == O.Start(req)
      && Next(ClusterBegin(req, pods), s').cluster == C.WriteLevels(req, pods)
      && Next(PoolBegin(req), s').pool == P.Start(req)
  {
  }

  /** A worker that is inside a pass takes no other request: this is the one worker a
      controller has. */
  lemma BusyWorkersWait(s: System, req: string, answers: N.Answers, pods: seq<C.Pod>)
    ensures !s.node.Done? ==> Next(NodeBegin(req, answers), s) == s
    ensures !s.osd.Done? ==> Next(OsdBegin(req), s) == s
    ensures !s.cluster.Done? ==> Next(ClusterBegin(req, pods), s) == s
    ensures !s.pool.Done? ==> Next(PoolBegin(req), s) == s
  {
  }

  // ------------------------------------------------------------------- the pools

  /** In any state of the operator a pool is published, with its class, by one request that
      its worker gets through. */
  lemma PoolGetsPublished(n: nat, req: string, s: System)
    requires n >= 5 && req in s.w.pools
    ensures var w' := RunEvents([PoolFails, PoolBegin(req)] + Times(PoolStep, n), s).w;
      var pool := s.w.pools[req];
      && pool.id in P.ConfigsOf(w') && P.Mirrors(P.ConfigsOf(w')[pool.id], pool)
      && pool.name in w'.classes
      && w' == s.w.(poolConfigs := w'.poolConfigs, classes := w'.classes)
  {
    PoolPassAfresh(n, req, s, P.Start(req));
    P.WholePass(n, req, s.w);
  }
}
