/** Whole runs of the node controller: sequences of passes of many nodes, in any order,
    with any listing order, cut anywhere. */
module NodeRuns {
  import opened Placement
  import opened Api
  import opened NodePass
  import opened OsdPlan
  import opened NodeProgress
  import opened Deadlocks

  /** One invocation of Reconcile: the request, what the environment answers, and how many
      steps go through. */
  datatype Visit = Visit(req: string, answers: Answers, calls: nat)

  function VisitEnd(v: Visit, w: World): (Pass, World) {
    Run(v.calls, Start(v.req, v.answers), w)
  }

  function Visits(w: World, vs: seq<Visit>): World
    decreases |vs|
  {
    if vs == [] then w else Visits(VisitEnd(vs[0], w).1, vs[1..])
  }

  /** The world agrees with the plan: node objects are named after their nodes, as the
      cluster controller creates them, and the planned ones carry the planned image. */
  ghost predicate Ready(w: World, plan: Plan) {
    NodesReady(w.nodes, plan) && KeyedOsds(w.osds)
  }

  ghost predicate NodesReady(nodes: map<string, VitastorNode>, plan: Plan) {
    && NamedAlike(nodes)
    && (forall b :: b in plan ==> b in nodes && nodes[b].image == plan[b].image)
  }

  /** An agent that answers reports the planned partitions; other nodes have none. */
  ghost predicate Faithful(v: Visit, plan: Plan) {
    v.answers.agent.Agent? ==> v.req in plan && v.answers.agent.osds == plan[v.req].report
  }

  /** The pass ran to its end without an error other than a taken name. */
  predicate Completed(v: Visit, w: World) {
    EndsComplete(VisitEnd(v, w).0)
  }

  // ----------------------------------------------------------------- one pass

  /** The moves a run makes on the VitastorOSD objects: one for every create, update or
      delete that goes through. */
  function Trace(n: nat, p: Pass, w: World): seq<Move> {
    if n == 0 || p.Done? then []
    else
      AndThen(MoveOf(p, w), Trace(n - 1, Step(p, w).0, Step(p, w).1))
  }

  function AndThen(move: Option<Move>, rest: seq<Move>): seq<Move> {
    if move.Some? then [move.value] + rest else rest
  }

  lemma PlaysStep(osds: OsdMap, move: Option<Move>, mid: OsdMap, rest: seq<Move>, plan: Plan, b: string, end: OsdMap)
    requires StepIs(osds, move, plan, b, mid) && Plays(mid, rest, plan, {b}, end)
    ensures Plays(osds, AndThen(move, rest), plan, {b}, end)
  {
    if move.Some? {
      TailOfJoin([move.value], rest);
    }
  }

  lemma StepKeepsNodes(p: Pass, w: World, plan: Plan)
    requires !p.Done? && NodesReady(w.nodes, plan)
    ensures NodesReady(Step(p, w).1.nodes, plan)
  {
  }

  lemma {:induction false} RunRefines(n: nat, p: Pass, w: World, c: Context, plan: Plan)
    requires WellFormed(plan) && InPass(p, w.osds, c, plan) && Ready(w, plan)
    ensures var (q, v) := Run(n, p, w);
      Plays(w.osds, Trace(n, p, w), plan, {c.node.name}, v.osds) && InPass(q, v.osds, c, plan) && Ready(v, plan)
    decreases n
  {
    if n > 0 && !p.Done? {
      var (p', w') := Step(p, w);
      StepRefines(p, w, c, plan);
      StepKeepsNodes(p, w, plan);
      RunRefines(n - 1, p', w', c, plan);
      PlaysStep(w.osds, MoveOf(p, w), w'.osds, Trace(n - 1, p', w'), plan, c.node.name, Run(n - 1, p', w').1.osds);
    }
  }

  /** Ending on an image update means that the update was a move of the run. */
  lemma {:induction false} UpdatedMoved(n: nat, p: Pass, w: World)
    requires !p.Done? && Run(n, p, w).0.Done? && Run(n, p, w).0.outcome.Updated?
    ensures Update(Run(n, p, w).0.outcome.name) in Trace(n, p, w)
    decreases n
  {
    var (p', w') := Step(p, w);
    RunStep(n, p, w);
    if p'.Done? {
      assert MoveOf(p, w) == Some(Update(p'.outcome.name));
    } else {
      UpdatedMoved(n - 1, p', w');
    }
  }

  /** Any part of any pass is a sequence of moves of its node, and a completed one has
      ended for the reason its outcome says. */
  lemma VisitRefines(v: Visit, w: World, plan: Plan) returns (ms: seq<Move>)
    requires WellFormed(plan) && Ready(w, plan) && Faithful(v, plan)
    ensures var (end, w') := VisitEnd(v, w);
      && Ready(w', plan)
      && Plays(w.osds, ms, plan, {v.req}, w'.osds)
      && (end == Done(Finished) ==> v.req in plan && Converged(w'.osds, plan, v.req))
      && (end.Done? && end.outcome.Blocked? ==> !IsFree(w'.osds, plan, v.req))
      && (end.Done? && end.outcome.Updated? ==> Update(end.outcome.name) in ms)
  {
    ms := [];
    var p := Start(v.req, v.answers);
    if v.calls > 0 {
      var (p', w') := Step(p, w);
      RunStep(v.calls, p, w);
      if p'.ReadTree? {
        RunRefines(v.calls - 1, p', w, p'.c, plan);
        ms := Trace(v.calls - 1, p', w);
        if VisitEnd(v, w).0.Done? && VisitEnd(v, w).0.outcome.Updated? {
          UpdatedMoved(v.calls - 1, p', w);
        }
      }
    }
  }

  /** An image update in a sequence of moves takes its object out of the wrong ones. */
  lemma {:induction false} UpdateCounts(osds: OsdMap, ms: seq<Move>, plan: Plan, who: set<string>, end: OsdMap,
        k: string)
    requires WellFormed(plan) && Plays(osds, ms, plan, who, end) && Update(k) in ms
    ensures k in Wrong(osds, plan) && k !in Wrong(end, plan) && osds[k].nodeName in who
    decreases |ms|
  {
    var next := Apply(ms[0], osds, plan);
    WrongSettled(ms[0], osds, plan);
    PlaysPayDebt(next, ms[1..], plan, who, end);
    if ms[0] != Update(k) {
      UpdateCounts(next, ms[1..], plan, who, end, k);
      assert next[k].nodeName == osds[k].nodeName;
    }
  }

  // --------------------------------------------------------------- many passes

  /** Conservation over any run: the objects' debt to the reports is paid off by exactly
      one for every create, update and delete that goes through, wherever passes are cut. */
  lemma {:induction false} RunsPayDebt(w: World, vs: seq<Visit>, plan: Plan) returns (ms: seq<Move>)
    requires WellFormed(plan) && Ready(w, plan)
    requires forall i :: 0 <= i < |vs| ==> Faithful(vs[i], plan)
    ensures Ready(Visits(w, vs), plan)
    ensures Plays(w.osds, ms, plan, (set i | 0 <= i < |vs| :: vs[i].req), Visits(w, vs).osds)
    ensures Debt(Visits(w, vs).osds, plan) + |ms| == Debt(w.osds, plan)
    decreases |vs|
  {
    if vs == [] {
      ms := [];
    } else {
      var who := set i | 0 <= i < |vs| :: vs[i].req;
      var mid := VisitEnd(vs[0], w).1;
      var first := VisitRefines(vs[0], w, plan);
      var rest := RunsPayDebt(mid, vs[1..], plan);
      assert vs[0].req in who;
      PlaysWider(w.osds, first, plan, {vs[0].req}, who, mid.osds);
      forall i | 0 <= i < |vs[1..]| ensures vs[1..][i].req in who { assert vs[1..][i] == vs[i + 1]; }
      PlaysWider(mid.osds, rest, plan, (set i | 0 <= i < |vs[1..]| :: vs[1..][i].req), who, Visits(w, vs).osds);
      PlaysJoin(w.osds, first, mid.osds, rest, plan, who, Visits(w, vs).osds);
      ms := first + rest;
      PlaysPayDebt(w.osds, ms, plan, who, Visits(w, vs).osds);
    }
  }

  lemma {:induction false} PlaysWider(osds: OsdMap, ms: seq<Move>, plan: Plan, who: set<string>,
        more: set<string>, end: OsdMap)
    requires Plays(osds, ms, plan, who, end) && who <= more
    ensures Plays(osds, ms, plan, more, end)
    decreases |ms|
  {
    if ms != [] {
      PlaysWider(Apply(ms[0], osds, plan), ms[1..], plan, who, more, end);
    }
  }

  /** In any run at all, deadlocked sets of nodes stay deadlocked and no object of a
      deadlocked node is ever updated or deleted; nor does a deadlock come up. */
  lemma {:induction false} DeadlockForEver(w: World, vs: seq<Visit>, plan: Plan, C: set<string>)
    requires WellFormed(plan) && Ready(w, plan)
    requires forall i :: 0 <= i < |vs| ==> Faithful(vs[i], plan)
    ensures var end := Visits(w, vs).osds;
      && (IsDeadlock(w.osds, plan, C) <==> IsDeadlock(end, plan, C))
      && (IsDeadlock(w.osds, plan, C) ==>
            && (forall k :: k in w.osds && w.osds[k].nodeName in C ==> k in end && end[k] == w.osds[k])
            && (forall b :: b in C ==> !Converged(end, plan, b)))
  {
    var ms := RunsPayDebt(w, vs, plan);
    var who := set i | 0 <= i < |vs| :: vs[i].req;
    DeadlocksLast(w.osds, ms, plan, who, Visits(w, vs).osds, C);
    if IsDeadlock(w.osds, plan, C) {
      DeadlockedNodesLack(Visits(w, vs).osds, plan, C);
    }
  }

  // ------------------------------------------------------------------ progress

  ghost function WrongOf(osds: OsdMap, plan: Plan, b: string): set<string> {
    set k | k in Wrong(osds, plan) && osds[k].nodeName == b
  }

  /** How many completed passes node b still needs at most, if nobody holds its names. */
  ghost function PassesLeft(osds: OsdMap, plan: Plan, b: string): nat {
    if Converged(osds, plan, b) then 0 else 1 + |WrongOf(osds, plan, b)|
  }

  /** Moves never add to what any node, or all together, still need. */
  lemma PlaysDoNotSetBack(osds: OsdMap, ms: seq<Move>, plan: Plan, who: set<string>, end: OsdMap, b: string)
    requires WellFormed(plan) && Plays(osds, ms, plan, who, end)
    ensures Unconverged(end, plan) <= Unconverged(osds, plan) && Wrong(end, plan) <= Wrong(osds, plan)
    ensures WrongOf(end, plan, b) <= WrongOf(osds, plan, b)
    ensures PassesLeft(end, plan, b) <= PassesLeft(osds, plan, b)
  {
    PlaysPayDebt(osds, ms, plan, who, end);
    PlaysKeepOwner(osds, ms, plan, who, end);
    PlaysKeep(osds, ms, plan, who, end, b);
    forall a | a in Unconverged(end, plan) ensures a in Unconverged(osds, plan) {
      PlaysKeep(osds, ms, plan, who, end, a);
    }
    SubsetIsSmaller(WrongOf(end, plan, b), WrongOf(osds, plan, b));
  }

  lemma {:induction false} PlaysKeepOwner(osds: OsdMap, ms: seq<Move>, plan: Plan, who: set<string>, end: OsdMap)
    requires WellFormed(plan) && Plays(osds, ms, plan, who, end)
    ensures forall k :: k in Wrong(end, plan) ==> k in Wrong(osds, plan) && end[k] == osds[k]
    decreases |ms|
  {
    if ms != [] {
      var next := Apply(ms[0], osds, plan);
      WrongSettled(ms[0], osds, plan);
      PlaysKeepOwner(next, ms[1..], plan, who, end);
      forall k | k in Wrong(end, plan) ensures k in Wrong(osds, plan) && end[k] == osds[k] {
        assert k in Wrong(next, plan) && ms[0] != Update(k) && next[k] == osds[k];
      }
    }
  }

  lemma SubsetIsSmaller<T>(a: set<T>, b: set<T>)
    requires a <= b
    ensures |a| <= |b| && (a != b ==> |a| < |b|)
  {
    assert b == a + (b - a);
    if a != b {
      var x :| x in b && x !in a;
      assert x in b - a;
    }
  }

  /** A completed pass of a free node that is not there yet changes one image or gets it
      there: both its own count and the overall one go down. */
  lemma VisitProgresses(v: Visit, w: World, plan: Plan)
    requires WellFormed(plan) && Ready(w, plan) && Faithful(v, plan)
    requires Completed(v, w) && v.req in plan
    requires IsFree(w.osds, plan, v.req) && !Converged(w.osds, plan, v.req)
    ensures var end := VisitEnd(v, w).1.osds;
      && PassesLeft(end, plan, v.req) < PassesLeft(w.osds, plan, v.req)
      && (Unconverged(end, plan) < Unconverged(w.osds, plan) || Wrong(end, plan) < Wrong(w.osds, plan))
  {
    var b := v.req;
    var ms := VisitRefines(v, w, plan);
    var (p, w') := VisitEnd(v, w);
    PlaysDoNotSetBack(w.osds, ms, plan, {b}, w'.osds, b);
    PlaysKeep(w.osds, ms, plan, {b}, w'.osds, b);
    if p.outcome.Finished? {
      assert b in Unconverged(w.osds, plan) && b !in Unconverged(w'.osds, plan);
    } else {
      var k := p.outcome.name;
      UpdateCounts(w.osds, ms, plan, {b}, w'.osds, k);
      assert k in WrongOf(w.osds, plan, b) && k !in WrongOf(w'.osds, plan, b);
      SubsetIsSmaller(WrongOf(w'.osds, plan, b), WrongOf(w.osds, plan, b));
    }
  }

  /** The number of completed passes of b in a run. */
  function CompletedVisits(w: World, vs: seq<Visit>, b: string): nat
    decreases |vs|
  {
    if vs == [] then 0
    else (if vs[0].req == b && Completed(vs[0], w) then 1 else 0)
         + CompletedVisits(VisitEnd(vs[0], w).1, vs[1..], b)
  }

  /** The convergence bound: a node whose missing entries find their names free has its
      objects equal to its report after one completed pass more than it has wrong images,
      whatever order each List returns and whatever other passes, whole or cut, run in
      between. */
  lemma {:induction false} NodeConverges(w: World, vs: seq<Visit>, plan: Plan, b: string)
    requires WellFormed(plan) && Ready(w, plan) && b in plan
    requires forall i :: 0 <= i < |vs| ==> Faithful(vs[i], plan)
    requires IsFree(w.osds, plan, b)
    requires CompletedVisits(w, vs, b) >= PassesLeft(w.osds, plan, b)
    ensures Converged(Visits(w, vs).osds, plan, b)
    decreases |vs|
  {
    if vs != [] {
      var w' := VisitEnd(vs[0], w).1;
      var ms := VisitRefines(vs[0], w, plan);
      PlaysDoNotSetBack(w.osds, ms, plan, {vs[0].req}, w'.osds, b);
      PlaysKeep(w.osds, ms, plan, {vs[0].req}, w'.osds, b);
      if vs[0].req == b && Completed(vs[0], w) && !Converged(w.osds, plan, b) {
        VisitProgresses(vs[0], w, plan);
      }
      NodeConverges(w', vs[1..], plan, b);
    }
  }

  // -------------------------------------------------------- disks that move about

  /** A round: error-free passes in which every planned node has its turn. */
  ghost predicate IsRound(w: World, vs: seq<Visit>, plan: Plan) {
    && (forall i :: 0 <= i < |vs| ==> Faithful(vs[i], plan))
    && AllCompleted(w, vs, plan)
    && (forall b :: b in plan ==> IsVisited(b, vs))
  }

  predicate IsVisited(b: string, vs: seq<Visit>) {
    exists i :: 0 <= i < |vs| && vs[i].req == b
  }

  ghost predicate AllCompleted(w: World, vs: seq<Visit>, plan: Plan)
    decreases |vs|
  {
    vs == [] || ((vs[0].req in plan ==> Completed(vs[0], w)) && AllCompleted(VisitEnd(vs[0], w).1, vs[1..], plan))
  }

  function Rounds(w: World, rounds: seq<seq<Visit>>): World
    decreases |rounds|
  {
    if rounds == [] then w else Rounds(Visits(w, rounds[0]), rounds[1..])
  }

  ghost predicate AreRounds(w: World, rounds: seq<seq<Visit>>, plan: Plan)
    decreases |rounds|
  {
    rounds == [] || (IsRound(w, rounds[0], plan) && AreRounds(Visits(w, rounds[0]), rounds[1..], plan))
  }

  ghost function RoundsLeft(osds: OsdMap, plan: Plan): nat {
    |Unconverged(osds, plan)| + |Wrong(osds, plan)|
  }

  lemma {:induction false} RoundProgresses(w: World, vs: seq<Visit>, plan: Plan, b: string)
    requires WellFormed(plan) && Ready(w, plan)
    requires forall i :: 0 <= i < |vs| ==> Faithful(vs[i], plan)
    requires AllCompleted(w, vs, plan)
    ensures RoundsLeft(Visits(w, vs).osds, plan) <= RoundsLeft(w.osds, plan)
    ensures b in Unconverged(w.osds, plan) && IsFree(w.osds, plan, b) && IsVisited(b, vs) ==>
      RoundsLeft(Visits(w, vs).osds, plan) < RoundsLeft(w.osds, plan)
    decreases |vs|
  {
    if vs != [] {
      var w' := VisitEnd(vs[0], w).1;
      var ms := VisitRefines(vs[0], w, plan);
      PlaysDoNotSetBack(w.osds, ms, plan, {vs[0].req}, w'.osds, b);
      PlaysKeep(w.osds, ms, plan, {vs[0].req}, w'.osds, b);
      SubsetIsSmaller(Unconverged(w'.osds, plan), Unconverged(w.osds, plan));
      SubsetIsSmaller(Wrong(w'.osds, plan), Wrong(w.osds, plan));
      RoundProgresses(w', vs[1..], plan, b);
      if vs[0].req == b && b in Unconverged(w.osds, plan) && IsFree(w.osds, plan, b) {
        VisitProgresses(vs[0], w, plan);
      } else if IsVisited(b, vs) {
        var i :| 0 <= i < |vs| && vs[i].req == b;
        if i > 0 { assert vs[1..][i - 1].req == b; }
      }
    }
  }

  lemma {:induction false} RoundsConverge(w: World, rounds: seq<seq<Visit>>, plan: Plan)
    requires WellFormed(plan) && Ready(w, plan) && AreRounds(w, rounds, plan)
    requires !exists C :: IsDeadlock(w.osds, plan, C)
    requires |rounds| >= RoundsLeft(w.osds, plan)
    ensures Unconverged(Rounds(w, rounds).osds, plan) == {}
    decreases |rounds|
  {
    if rounds != [] {
      var w' := Visits(w, rounds[0]);
      var ms := RunsPayDebt(w, rounds[0], plan);
      forall C ensures !IsDeadlock(w'.osds, plan, C) {
        DeadlockForEver(w, rounds[0], plan, C);
      }
      if Unconverged(w.osds, plan) != {} {
        var b := SomeNodeIsFree(w.osds, plan);
        RoundProgresses(w, rounds[0], plan, b);
        RoundsConverge(w', rounds[1..], plan);
      } else {
        RoundProgresses(w, rounds[0], plan, "");
        StaysConverged(w, rounds, plan);
      }
    }
  }

  lemma {:induction false} StaysConverged(w: World, rounds: seq<seq<Visit>>, plan: Plan)
    requires WellFormed(plan) && Ready(w, plan) && AreRounds(w, rounds, plan)
    requires Unconverged(w.osds, plan) == {}
    ensures Unconverged(Rounds(w, rounds).osds, plan) == {}
    decreases |rounds|
  {
    if rounds != [] {
      var ms := RunsPayDebt(w, rounds[0], plan);
      var who := set i | 0 <= i < |rounds[0]| :: rounds[0][i].req;
      PlaysDoNotSetBack(w.osds, ms, plan, who, Visits(w, rounds[0]).osds, "");
      StaysConverged(Visits(w, rounds[0]), rounds[1..], plan);
    }
  }

  lemma {:induction false} DeadlockOutlastsRounds(w: World, rounds: seq<seq<Visit>>, plan: Plan, C: set<string>)
    requires WellFormed(plan) && Ready(w, plan) && AreRounds(w, rounds, plan) && IsDeadlock(w.osds, plan, C)
    ensures Unconverged(Rounds(w, rounds).osds, plan) >= C
    decreases |rounds|
  {
    if rounds == [] {
      DeadlockForEver(w, [], plan, C);
      DeadlockedNodesLack(w.osds, plan, C);
    } else {
      var ms := RunsPayDebt(w, rounds[0], plan);
      DeadlockForEver(w, rounds[0], plan, C);
      DeadlockOutlastsRounds(Visits(w, rounds[0]), rounds[1..], plan, C);
    }
  }

  /** When do disks that moved between nodes, or changed their path on one, find their
      way? After as many fair rounds as there are unconverged nodes and wrong images, every
      node has converged if and only if at the start there was neither a cycle of nodes
      that wait for each other nor a name held for good. */
  lemma {:induction false} DiskMoves(w: World, rounds: seq<seq<Visit>>, plan: Plan)
    requires WellFormed(plan) && Ready(w, plan) && AreRounds(w, rounds, plan)
    requires |rounds| >= |Unconverged(w.osds, plan)| + |Wrong(w.osds, plan)|
    ensures (forall b :: b in plan ==> Converged(Rounds(w, rounds).osds, plan, b)) <==> !IsBlocked(w.osds, plan)
  {
    var end := Rounds(w, rounds).osds;
    DeadlockIffBlocked(w.osds, plan);
    if C :| IsDeadlock(w.osds, plan, C) {
      DeadlockOutlastsRounds(w, rounds, plan, C);
      var b :| b in C;
      assert b in Unconverged(end, plan);
    } else {
      RoundsConverge(w, rounds, plan);
      forall b | b in plan ensures Converged(end, plan, b) {
        assert b !in Unconverged(end, plan);
      }
    }
  }
}
