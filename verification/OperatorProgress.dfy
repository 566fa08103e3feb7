/** Convergence in runs of the whole operator: however the four controllers and the world
    around them are interleaved, completed passes of the node controller are what counts. */
module OperatorProgress {
  import opened Api
  import opened OsdPlan
  import opened Deadlocks
  import opened Operator
  import opened OperatorRuns
  import N = NodePass
  import NodeProgress
  import NodeRuns

  /** The event is the step with which a pass of node b ends, with all work done, after an
      image update, or because a name is taken. */
  predicate Completes(e: Event, s: System, b: string) {
    e.NodeStep? && !s.node.Done? && !s.node.Start? && s.node.c.node.name == b
    && N.EndsComplete(N.Step(s.node, s.w).0)
  }

  function Completions(es: seq<Event>, s: System, b: string): nat
    decreases |es|
  {
    if es == [] then 0
    else (if Completes(es[0], s, b) then 1 else 0) + Completions(es[1..], Next(es[0], s), b)
  }

  // ------------------------------------------------------------------- one event

  /** Nothing is farther from converging, and a node that finds its names free still does. */
  ghost predicate NotSetBack(before: OsdMap, after: OsdMap, plan: Plan, b: string) {
    && Unconverged(after, plan) <= Unconverged(before, plan) && Wrong(after, plan) <= Wrong(before, plan)
    && NodeRuns.PassesLeft(after, plan, b) <= NodeRuns.PassesLeft(before, plan, b)
    && (IsFree(before, plan, b) ==> IsFree(after, plan, b))
  }

  lemma MoveDoesNotSetBack(m: Move, osds: OsdMap, plan: Plan, b: string)
    requires WellFormed(plan) && Enabled(m, osds, plan)
    ensures NotSetBack(osds, Apply(m, osds, plan), plan, b)
  {
    var who, end := {Mover(m, osds, plan)}, Apply(m, osds, plan);
    assert Plays(osds, [m], plan, who, end) by { assert [m][1..] == []; }
    NodeRuns.PlaysDoNotSetBack(osds, [m], plan, who, end, b);
    PlaysKeep(osds, [m], plan, who, end, b);
  }

  lemma EventDoesNotSetBack(e: Event, s: System, plan: Plan, b: string)
    requires WellFormed(plan) && SystemFollows(s, plan) && EventFollows(e, s, plan)
    ensures SystemFollows(Next(e, s), plan)
    ensures NotSetBack(s.w.osds, Next(e, s).w.osds, plan, b)
  {
    var m := EventMoves(e, s, plan);
    if m.Some? {
      MoveDoesNotSetBack(m.value, s.w.osds, plan, b);
    }
  }

  /** The last step of a completed pass of a free node converges it or fixes an image. */
  lemma CompletionProgresses(s: System, plan: Plan, b: string)
    requires WellFormed(plan) && SystemFollows(s, plan) && Completes(NodeStep, s, b)
    requires IsFree(s.w.osds, plan, b)
    ensures var end := Next(NodeStep, s).w.osds;
      Converged(end, plan, b) || (Wrong(end, plan) < Wrong(s.w.osds, plan)
                                  && NodeRuns.WrongOf(end, plan, b) < NodeRuns.WrongOf(s.w.osds, plan, b))
  {
    var (p', w') := N.Step(s.node, s.w);
    LastStep(s.node, s.w);
    NodeProgress.StepRefines(s.node, s.w, s.node.c, plan);
    if p'.outcome.Updated? {
      UpdateFixes(p'.outcome.name, s.w.osds, plan, b);
    }
  }

  /** What the step before the end of a completed pass did. */
  lemma LastStep(p: N.Pass, w: World)
    requires !p.Done? && N.Step(p, w).0.Done?
    ensures var (p', w') := N.Step(p, w);
      && (p'.outcome.Updated? ==> NodeProgress.MoveOf(p, w) == Placement.Some(Update(p'.outcome.name)))
      && (p'.outcome.Blocked? ==> w' == w)
  {
  }

  lemma UpdateFixes(k: string, osds: OsdMap, plan: Plan, b: string)
    requires WellFormed(plan) && Enabled(Update(k), osds, plan) && Mover(Update(k), osds, plan) == b
    ensures var end := Apply(Update(k), osds, plan);
      Wrong(end, plan) < Wrong(osds, plan) && NodeRuns.WrongOf(end, plan, b) < NodeRuns.WrongOf(osds, plan, b)
  {
    var end := Apply(Update(k), osds, plan);
    WrongSettled(Update(k), osds, plan);
    assert k in NodeRuns.WrongOf(osds, plan, b) && k !in NodeRuns.WrongOf(end, plan, b);
  }

  lemma CompletionCounts(s: System, plan: Plan, b: string)
    requires WellFormed(plan) && SystemFollows(s, plan) && Completes(NodeStep, s, b)
    requires IsFree(s.w.osds, plan, b) && !Converged(s.w.osds, plan, b)
    ensures NodeRuns.PassesLeft(Next(NodeStep, s).w.osds, plan, b) < NodeRuns.PassesLeft(s.w.osds, plan, b)
  {
    CompletionProgresses(s, plan, b);
    var end := Next(NodeStep, s).w.osds;
    if !Converged(end, plan, b) {
      NodeRuns.SubsetIsSmaller(NodeRuns.WrongOf(end, plan, b), NodeRuns.WrongOf(s.w.osds, plan, b));
    }
  }

  // ----------------------------------------------------------------- whole runs

  /** The convergence bound in any interleaving: a node that finds its names free and has m
      wrong images has converged once m+1 of its passes have completed, whatever the other
      controllers, other nodes' passes, failed calls, restarts and edits do in between. */
  lemma {:induction false} NodeConvergesInterleaved(es: seq<Event>, s: System, plan: Plan, b: string)
    requires WellFormed(plan) && SystemFollows(s, plan) && EventsFollow(es, s, plan)
    requires IsFree(s.w.osds, plan, b)
    requires Completions(es, s, b) >= NodeRuns.PassesLeft(s.w.osds, plan, b)
    ensures Converged(RunEvents(es, s).w.osds, plan, b)
    decreases |es|
  {
    if es != [] {
      EventDoesNotSetBack(es[0], s, plan, b);
      if Completes(es[0], s, b) && !Converged(s.w.osds, plan, b) {
        CompletionCounts(s, plan, b);
      }
      NodeConvergesInterleaved(es[1..], Next(es[0], s), plan, b);
    }
  }

  /** Every planned node completes a pass in the segment. */
  ghost predicate IsFair(es: seq<Event>, s: System, plan: Plan) {
    EventsFollow(es, s, plan) && forall b :: b in plan ==> Completions(es, s, b) > 0
  }

  ghost predicate AreFair(segments: seq<seq<Event>>, s: System, plan: Plan)
    decreases |segments|
  {
    segments == [] || (IsFair(segments[0], s, plan) && AreFair(segments[1..], RunEvents(segments[0], s), plan))
  }

  function RunSegments(segments: seq<seq<Event>>, s: System): System
    decreases |segments|
  {
    if segments == [] then s else RunSegments(segments[1..], RunEvents(segments[0], s))
  }

  lemma SetsShrink(before: OsdMap, after: OsdMap, plan: Plan, b: string)
    requires NotSetBack(before, after, plan, b)
    ensures NodeRuns.RoundsLeft(after, plan) <= NodeRuns.RoundsLeft(before, plan)
    ensures Unconverged(after, plan) != Unconverged(before, plan) || Wrong(after, plan) != Wrong(before, plan) ==>
      NodeRuns.RoundsLeft(after, plan) < NodeRuns.RoundsLeft(before, plan)
  {
    NodeRuns.SubsetIsSmaller(Unconverged(after, plan), Unconverged(before, plan));
    NodeRuns.SubsetIsSmaller(Wrong(after, plan), Wrong(before, plan));
  }

  lemma {:induction false} SegmentProgresses(es: seq<Event>, s: System, plan: Plan, b: string)
    requires WellFormed(plan) && SystemFollows(s, plan) && EventsFollow(es, s, plan)
    ensures var end := RunEvents(es, s).w.osds;
      && NodeRuns.RoundsLeft(end, plan) <= NodeRuns.RoundsLeft(s.w.osds, plan)
      && (b in Unconverged(s.w.osds, plan) && IsFree(s.w.osds, plan, b) && Completions(es, s, b) > 0 ==>
            NodeRuns.RoundsLeft(end, plan) < NodeRuns.RoundsLeft(s.w.osds, plan))
    decreases |es|
  {
    if es != [] {
      var s' := Next(es[0], s);
      EventDoesNotSetBack(es[0], s, plan, b);
      SetsShrink(s.w.osds, s'.w.osds, plan, b);
      if Completes(es[0], s, b) && IsFree(s.w.osds, plan, b) {
        CompletionProgresses(s, plan, b);
      }
      SegmentProgresses(es[1..], s', plan, b);
    }
  }

  lemma {:induction false} SegmentsConverge(segments: seq<seq<Event>>, s: System, plan: Plan)
    requires WellFormed(plan) && SystemFollows(s, plan) && AreFair(segments, s, plan)
    requires !exists C :: IsDeadlock(s.w.osds, plan, C)
    requires |segments| >= NodeRuns.RoundsLeft(s.w.osds, plan)
    ensures Unconverged(RunSegments(segments, s).w.osds, plan) == {}
    decreases |segments|
  {
    if segments != [] {
      var s' := RunEvents(segments[0], s);
      RunFollows(segments[0], s, plan);
      forall C ensures !IsDeadlock(s'.w.osds, plan, C) {
        InterleavingKeepsDeadlocks(segments[0], s, plan, C);
      }
      var b := if Unconverged(s.w.osds, plan) == {} then "" else SomeFreeNode(s.w.osds, plan);
      SegmentProgresses(segments[0], s, plan, b);
      if Unconverged(s.w.osds, plan) == {} {
        SettledSegment(segments[0], s, plan);
        SettledSegments(segments[1..], s', plan);
      } else {
        SegmentsConverge(segments[1..], s', plan);
      }
    }
  }

  ghost function SomeFreeNode(osds: OsdMap, plan: Plan): (b: string)
    requires Unconverged(osds, plan) != {} && !exists C :: IsDeadlock(osds, plan, C)
    ensures b in Unconverged(osds, plan) && IsFree(osds, plan, b)
  {
    assert exists b :: b in Unconverged(osds, plan) && IsFree(osds, plan, b) by {
      var b := SomeNodeIsFree(osds, plan);
    }
    var b :| b in Unconverged(osds, plan) && IsFree(osds, plan, b);
    b
  }

  lemma {:induction false} SettledSegment(es: seq<Event>, s: System, plan: Plan)
    requires WellFormed(plan) && SystemFollows(s, plan) && EventsFollow(es, s, plan)
    requires Unconverged(s.w.osds, plan) == {}
    ensures Unconverged(RunEvents(es, s).w.osds, plan) == {}
    decreases |es|
  {
    if es != [] {
      EventDoesNotSetBack(es[0], s, plan, "");
      SettledSegment(es[1..], Next(es[0], s), plan);
    }
  }

  lemma {:induction false} SettledSegments(segments: seq<seq<Event>>, s: System, plan: Plan)
    requires WellFormed(plan) && SystemFollows(s, plan) && AreFair(segments, s, plan)
    requires Unconverged(s.w.osds, plan) == {}
    ensures Unconverged(RunSegments(segments, s).w.osds, plan) == {}
    decreases |segments|
  {
    if segments != [] {
      RunFollows(segments[0], s, plan);
      SettledSegment(segments[0], s, plan);
      SettledSegments(segments[1..], RunEvents(segments[0], s), plan);
    }
  }

  lemma {:induction false} DeadlockOutlastsSegments(segments: seq<seq<Event>>, s: System, plan: Plan, D: set<string>)
    requires WellFormed(plan) && SystemFollows(s, plan) && AreFair(segments, s, plan)
    requires IsDeadlock(s.w.osds, plan, D)
    ensures IsDeadlock(RunSegments(segments, s).w.osds, plan, D)
    decreases |segments|
  {
    if segments != [] {
      RunFollows(segments[0], s, plan);
      InterleavingKeepsDeadlocks(segments[0], s, plan, D);
      DeadlockOutlastsSegments(segments[1..], RunEvents(segments[0], s), plan, D);
    }
  }

  /** When disks that moved find their way, in the operator as it runs: after as many fair
      segments of an interleaved run as there are unconverged nodes and wrong images, every
      node has converged if and only if at the start there was neither a cycle of nodes
      that wait for each other nor a name held for good. */
  lemma {:induction false} DiskMovesInterleaved(segments: seq<seq<Event>>, s: System, plan: Plan)
    requires WellFormed(plan) && SystemFollows(s, plan) && AreFair(segments, s, plan)
    requires |segments| >= |Unconverged(s.w.osds, plan)| + |Wrong(s.w.osds, plan)|
    ensures (forall b :: b in plan ==> Converged(RunSegments(segments, s).w.osds, plan, b))
      <==> !IsBlocked(s.w.osds, plan)
  {
    var end := RunSegments(segments, s).w.osds;
    DeadlockIffBlocked(s.w.osds, plan);
    if D :| IsDeadlock(s.w.osds, plan, D) {
      DeadlockOutlastsSegments(segments, s, plan, D);
      DeadlockedNodesLack(end, plan, D);
      var b :| b in D;
      assert b in plan && !Converged(end, plan, b);
    } else {
      SegmentsConverge(segments, s, plan);
      forall b | b in plan ensures Converged(end, plan, b) {
        assert b !in Unconverged(end, plan);
      }
    }
  }
}
