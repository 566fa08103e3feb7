/** Crash recovery in runs of the whole operator: completed passes of a node leave each of
    its reported partitions with its object and with its placement entry, whatever the other
    controllers do and wherever other passes are cut. */
module OperatorRecovery {
  import opened Placement
  import opened Naming
  import opened Api
  import opened NodeEffects
  import opened OsdPlan
  import opened PassResults
  import opened Recovery
  import opened Operator
  import opened OperatorRuns
  import opened OperatorProgress
  import N = NodePass
  import NodeProgress
  import NodeRuns
  import SerialRuns

  // ------------------------------------------------------- what a pass has written

  /** The first n entries of the pass's report are in the map. */
  ghost predicate WrittenUpTo(t: Tree, c: N.Context, n: nat) {
    n <= |c.Report()| && forall l :: 0 <= l < n ==> IsOsdEntry(t, OsdKey(c.Report()[l]), c.node.name)
  }

  ghost predicate EntriesAlong(p: N.Pass, t: Tree) {
    match p
    case Deploy(c, i) => WrittenUpTo(t, c, i)
    case ReadEntry(c, i) => WrittenUpTo(t, c, i)
    case WriteEntry(c, i, _) => WrittenUpTo(t, c, i)
    case Sweep(c, _) => WrittenUpTo(t, c, |c.Report()|)
    case _ => true
  }

  /** The pass is of a node whose name is not a number. */
  ghost predicate IsNamed(p: N.Pass) {
    match p
    case Start(req, _) => !IsNumeral(req)
    case Done(_) => true
    case _ => !IsNumeral(p.c.node.name)
  }

  ghost predicate AreNamed(es: seq<Event>) {
    forall i :: 0 <= i < |es| && es[i].NodeBegin? ==> !IsNumeral(es[i].nodeReq)
  }

  ghost predicate IsOnCourse(s: System, plan: Plan) {
    SystemFollows(s, plan) && PendingIsCurrent(s) && IsNamed(s.node) && EntriesAlong(s.node, N.TreeOf(s.w))
  }

  // ---------------------------------------------------------------- one write

  lemma HostKeepsEntry(t: Tree, host: string, domains: seq<string>, n: int, owner: string)
    requires !IsNumeral(host) && IsOsdEntry(t, Itoa(n), owner)
    ensures IsOsdEntry(WithHost(t, host, domains), Itoa(n), owner)
  {
    assert IsNumeral(Itoa(n));
  }

  lemma HostKeepsPlaced(t: Tree, host: string, domains: seq<string>, plan: Plan, b: string)
    requires !IsNumeral(host) && Placed(t, plan, b)
    ensures Placed(WithHost(t, host, domains), plan, b)
  {
    forall i | IsEntry(plan, b, i)
      ensures IsOsdEntry(WithHost(t, host, domains), OsdKey(plan[b].report[i]), b)
    {
      HostKeepsEntry(t, host, domains, plan[b].report[i].osdNumber, b);
    }
  }

  /** A node's entry does not take another node's. */
  lemma OsdKeepsPlaced(t: Tree, c: N.Context, j: nat, plan: Plan, b: string)
    requires WellFormed(plan) && NodeProgress.Follows(c, plan) && j < |c.Report()| && Placed(t, plan, b)
    ensures Placed(WithOsd(t, OsdKey(c.Report()[j]), c.node.name), plan, b)
  {
    var after := WithOsd(t, OsdKey(c.Report()[j]), c.node.name);
    forall i | IsEntry(plan, b, i) ensures IsOsdEntry(after, OsdKey(plan[b].report[i]), b) {
      NamesAreDistinct(c.Report()[j].osdNumber, plan[b].report[i].osdNumber);
      assert c.Report()[j] == plan[c.node.name].report[j];
      assert IsOsdEntry(t, OsdKey(plan[b].report[i]), b);
    }
  }

  lemma OsdKeepsWritten(t: Tree, c: N.Context, i: nat)
    requires WrittenUpTo(t, c, i) && i < |c.Report()|
    ensures WrittenUpTo(WithOsd(t, OsdKey(c.Report()[i]), c.node.name), c, i + 1)
  {
  }

  // ------------------------------------------------------------------- one step

  lemma NodeStepKeepsPlaced(s: System, plan: Plan, b: string)
    requires WellFormed(plan) && IsOnCourse(s, plan) && !s.node.Done? && Placed(N.TreeOf(s.w), plan, b)
    ensures Placed(N.TreeOf(Next(NodeStep, s).w), plan, b)
  {
    NodeTreeStep(s.node, s.w);
    match s.node
    case WriteTree(c, _) =>
      HostKeepsPlaced(N.TreeOf(s.w), c.node.name, Domains(c.answers.labels.value), plan, b);
    case WriteEntry(c, i, _) => OsdKeepsPlaced(N.TreeOf(s.w), c, i, plan, b);
    case _ =>
  }

  lemma StepWrites(p: N.Pass, w: World)
    requires !p.Done? && EntriesAlong(p, N.TreeOf(w))
    requires p.WriteEntry? ==>
      p.i < |p.c.Report()| && p.tree == WithOsd(N.TreeOf(w), OsdKey(p.c.Report()[p.i]), p.c.node.name)
    ensures EntriesAlong(N.Step(p, w).0, N.TreeOf(N.Step(p, w).1))
  {
    NodeTreeStep(p, w);
    if p.WriteEntry? {
      OsdKeepsWritten(N.TreeOf(w), p.c, p.i);
    }
  }

  lemma StepIsNamed(p: N.Pass, w: World)
    requires !p.Done? && IsNamed(p) && NamedAlike(w.nodes)
    ensures IsNamed(N.Step(p, w).0)
  {
  }

  lemma OtherEvents(e: Event, s: System)
    requires !e.NodeStep? || s.node.Done?
    ensures var s' := Next(e, s);
      && s'.w.tree == s.w.tree
      && (s'.node == s.node || s'.node.Done? || (e.NodeBegin? && s'.node == N.Start(e.nodeReq, e.answers)))
  {
    if !SerialRuns.IsOwn(e, SerialRuns.NodeWriter) && !e.Restart? {
      SerialRuns.OthersKeepOut(e, s, SerialRuns.NodeWriter);
    }
  }

  lemma EventStaysOnCourse(e: Event, s: System, plan: Plan, b: string)
    requires WellFormed(plan) && IsOnCourse(s, plan) && EventFollows(e, s, plan)
    requires e.NodeBegin? ==> !IsNumeral(e.nodeReq)
    ensures IsOnCourse(Next(e, s), plan)
    ensures Placed(N.TreeOf(s.w), plan, b) ==> Placed(N.TreeOf(Next(e, s).w), plan, b)
  {
    EventDoesNotSetBack(e, s, plan, b);
    EventIsAtomic(e, s);
    if e.NodeStep? && !s.node.Done? {
      StepWrites(s.node, s.w);
      StepIsNamed(s.node, s.w);
      if Placed(N.TreeOf(s.w), plan, b) {
        NodeStepKeepsPlaced(s, plan, b);
      }
    } else {
      OtherEvents(e, s);
    }
  }

  lemma WrittenIsPlaced(t: Tree, c: N.Context, plan: Plan)
    requires NodeProgress.Follows(c, plan) && c.answers.agent.Agent? && WrittenUpTo(t, c, |c.Report()|)
    ensures Placed(t, plan, c.node.name)
  {
    forall i | IsEntry(plan, c.node.name, i) ensures IsOsdEntry(t, OsdKey(plan[c.node.name].report[i]), c.node.name) {
      assert c.Report()[i] == plan[c.node.name].report[i];
    }
  }

  lemma EndsFromSweep(p: N.Pass, w: World)
    requires !p.Done? && N.EndsWell(N.Step(p, w).0)
    ensures p.Sweep? && N.Step(p, w).1.tree == w.tree
  {
  }

  /** A completed pass of a node that finds its names free has written all its entries. */
  lemma CompletionPlaces(s: System, plan: Plan, b: string)
    requires WellFormed(plan) && IsOnCourse(s, plan) && Completes(NodeStep, s, b)
    requires IsFree(s.w.osds, plan, b)
    ensures Placed(N.TreeOf(Next(NodeStep, s).w), plan, b)
  {
    LastStep(s.node, s.w);
    NodeProgress.StepRefines(s.node, s.w, s.node.c, plan);
    EndsFromSweep(s.node, s.w);
    WrittenIsPlaced(N.TreeOf(s.w), s.node.c, plan);
  }

  // ----------------------------------------------------------------- whole runs

  lemma {:induction false} StaysPlacedInterleaved(es: seq<Event>, s: System, plan: Plan, b: string)
    requires WellFormed(plan) && IsOnCourse(s, plan) && EventsFollow(es, s, plan) && AreNamed(es)
    requires IsFree(s.w.osds, plan, b)
    requires Placed(N.TreeOf(s.w), plan, b) || Completions(es, s, b) > 0
    ensures Placed(N.TreeOf(RunEvents(es, s).w), plan, b)
    decreases |es|
  {
    if es != [] {
      EventStaysOnCourse(es[0], s, plan, b);
      EventDoesNotSetBack(es[0], s, plan, b);
      if Completes(es[0], s, b) {
        CompletionPlaces(s, plan, b);
      }
      StaysPlacedInterleaved(es[1..], Next(es[0], s), plan, b);
    }
  }

  /** Whatever a cut pass has left, and in any interleaving: a node that finds its names free
      and has m wrong images has, once m+1 of its passes have completed, an object and a
      placement entry for every reported partition. */
  lemma {:induction false} NodeRecoversInterleaved(es: seq<Event>, s: System, plan: Plan, b: string)
    requires WellFormed(plan) && IsOnCourse(s, plan) && EventsFollow(es, s, plan) && AreNamed(es)
    requires b in plan && IsFree(s.w.osds, plan, b)
    requires Completions(es, s, b) >= 1 + |NodeRuns.WrongOf(s.w.osds, plan, b)|
    ensures Converged(RunEvents(es, s).w.osds, plan, b)
    ensures Placed(N.TreeOf(RunEvents(es, s).w), plan, b)
  {
    NodeConvergesInterleaved(es, s, plan, b);
    StaysPlacedInterleaved(es, s, plan, b);
  }
}
