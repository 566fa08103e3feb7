/** From every idle state the operator has a fair segment: the theorems about interleaved
    convergence are about something. */
module FairRuns {
  import opened Api
  import opened OsdPlan
  import opened Operator
  import opened OperatorRuns
  import opened OperatorProgress
  import N = NodePass
  import PassesComplete

  // ------------------------------------------------------- one segment after another

  lemma {:induction false} SegmentsJoin(es: seq<Event>, fs: seq<Event>, s: System, plan: Plan, b: string)
    ensures var mid := RunEvents(es, s);
      && RunEvents(es + fs, s) == RunEvents(fs, mid)
      && (EventsFollow(es + fs, s, plan) <==> EventsFollow(es, s, plan) && EventsFollow(fs, mid, plan))
      && Completions(es + fs, s, b) == Completions(es, s, b) + Completions(fs, mid, b)
    decreases |es|
  {
    if es == [] {
      assert es + fs == fs;
    } else {
      EventsTail(es, fs);
      SegmentsJoin(es[1..], fs, Next(es[0], s), plan, b);
    }
  }

  lemma EventsTail(es: seq<Event>, fs: seq<Event>)
    requires es != []
    ensures (es + fs)[0] == es[0] && (es + fs)[1..] == es[1..] + fs
  {
  }

  // ------------------------------------------------- a pass as a segment of its own

  function Steps(n: nat): seq<Event> {
    if n == 0 then [] else [NodeStep] + Steps(n - 1)
  }

  predicate HasNoEdits(es: seq<Event>) {
    forall i :: 0 <= i < |es| ==> !es[i].Edit?
  }

  lemma {:induction false} StepsAreSteps(n: nat)
    ensures forall i :: 0 <= i < |Steps(n)| ==> Steps(n)[i] == NodeStep
  {
    if n > 0 { StepsAreSteps(n - 1); }
  }

  lemma FirstOfSteps(n: nat)
    requires n > 0
    ensures Steps(n) != [] && Steps(n)[0] == NodeStep && Steps(n)[1..] == Steps(n - 1)
  {
  }

  /** The pass is one of node b. */
  ghost predicate IsPassOf(p: N.Pass, b: string) {
    match p
    case Start(req, _) => req == b
    case Done(_) => false
    case _ => p.c.node.name == b
  }

  lemma StepIsPassOf(p: N.Pass, w: World, b: string)
    requires IsPassOf(p, b) && NamedAlike(w.nodes)
    ensures var q := N.Step(p, w).0; q.Done? || IsPassOf(q, b)
  {
  }

  lemma StepGoesOn(n: nat, s: System, plan: Plan, b: string)
    requires WellFormed(plan) && SystemFollows(s, plan) && IsPassOf(s.node, b) && n > 0
    ensures var s' := Next(NodeStep, s);
      && SystemFollows(s', plan) && (s'.node.Done? || IsPassOf(s'.node, b))
      && N.Run(n, s.node, s.w) == N.Run(n - 1, s'.node, s'.w)
      && (N.EndsComplete(s'.node) ==> Completes(NodeStep, s, b))
  {
    N.RunStep(n, s.node, s.w);
    StepIsPassOf(s.node, s.w, b);
    var m := EventMoves(NodeStep, s, plan);
    if N.EndsComplete(N.Step(s.node, s.w).0) {
      LastStepCompletes(s, b);
    }
  }

  lemma {:induction false} StepsComplete(n: nat, s: System, plan: Plan, b: string)
    requires WellFormed(plan) && SystemFollows(s, plan) && IsPassOf(s.node, b)
    requires N.EndsComplete(N.Run(n, s.node, s.w).0)
    ensures var end := RunEvents(Steps(n), s);
      EventsFollow(Steps(n), s, plan) && Completions(Steps(n), s, b) > 0 && end.node.Done? && SystemFollows(end, plan)
    decreases n
  {
    if n > 0 {
      var s' := Next(NodeStep, s);
      StepGoesOn(n, s, plan, b);
      FirstOfSteps(n);
      if s'.node.Done? {
        N.RunRests(n - 1, s'.node, s'.w);
        StepsRest(n - 1, s', plan, b);
      } else {
        StepsComplete(n - 1, s', plan, b);
      }
    }
  }

  /** No pass ends well with its first step, so this is a completion. */
  lemma LastStepCompletes(s: System, b: string)
    requires IsPassOf(s.node, b) && N.EndsComplete(N.Step(s.node, s.w).0)
    ensures Completes(NodeStep, s, b)
  {
  }

  /** Once the pass is over, further steps are none. */
  lemma {:induction false} StepsRest(n: nat, s: System, plan: Plan, b: string)
    requires s.node.Done? && SystemFollows(s, plan)
    ensures RunEvents(Steps(n), s) == s && EventsFollow(Steps(n), s, plan)
    decreases n
  {
    if n > 0 {
      FirstOfSteps(n);
      StepsRest(n - 1, s, plan, b);
    }
  }

  lemma CompletionExists(s: System, plan: Plan, b: string) returns (es: seq<Event>)
    requires WellFormed(plan) && SystemFollows(s, plan) && s.node.Done? && b in plan
    ensures var end := RunEvents(es, s);
      && EventsFollow(es, s, plan) && Completions(es, s, b) > 0 && end.node.Done? && SystemFollows(end, plan)
      && HasNoEdits(es)
  {
    var v := PassesComplete.CompletedVisitExists(s.w, plan, b);
    var begin := NodeBegin(v.req, v.answers);
    es := [begin] + Steps(v.calls);
    assert es[1..] == Steps(v.calls);
    var m := EventMoves(begin, s, plan);
    StepsComplete(v.calls, Next(begin, s), plan, b);
    StepsAreSteps(v.calls);
  }

  // ------------------------------------------------------------------- all nodes

  lemma {:induction false} SegmentFor(s: System, plan: Plan, nodes: set<string>) returns (es: seq<Event>)
    requires WellFormed(plan) && SystemFollows(s, plan) && s.node.Done? && nodes <= plan.Keys
    ensures EventsFollow(es, s, plan) && forall b :: b in nodes ==> Completions(es, s, b) > 0
    ensures RunEvents(es, s).node.Done? && SystemFollows(RunEvents(es, s), plan) && HasNoEdits(es)
    decreases |nodes|
  {
    if nodes == {} {
      es := [];
    } else {
      var a :| a in nodes;
      var first := CompletionExists(s, plan, a);
      var rest := SegmentFor(RunEvents(first, s), plan, nodes - {a});
      es := first + rest;
      SegmentsJoin(first, rest, s, plan, a);
      forall b | b in nodes ensures Completions(es, s, b) > 0 {
        SegmentsJoin(first, rest, s, plan, b);
      }
    }
  }

  /** Every planned node can complete a pass, one after the other, and then again. */
  lemma FairSegmentExists(s: System, plan: Plan) returns (es: seq<Event>)
    requires WellFormed(plan) && SystemFollows(s, plan) && s.node.Done?
    ensures IsFair(es, s, plan) && RunEvents(es, s).node.Done? && SystemFollows(RunEvents(es, s), plan)
    ensures HasNoEdits(es)
  {
    es := SegmentFor(s, plan, plan.Keys);
  }
}
