/** Runs of the whole operator with fixed reports and images: its events are the actions
    of Settling, so the object changes of any interleaving are bounded from the start. */
module OperatorRuns {
  import opened Placement
  import opened Api
  import opened OsdPlan
  import opened Settling
  import opened Operator
  import N = NodePass
  import C = ClusterController
  import NodeEffects
  import NodeProgress
  import NodeRuns

  /** Who owns the StatefulSets, which the stores do not show: which ones are lost, and
      whether the object in the OSD worker's hands has been deleted. */
  datatype Owners = Owners(lost: set<string>, gone: bool)

  function PairOf(s: System, o: Owners): Pair {
    Pair(s.w.osds, s.w.sets, o.lost, s.osd, o.gone)
  }

  function NextOwners(e: Event, s: System, o: Owners): Owners {
    var after := Next(e, s);
    var pair := Then(PairOf(s, o), after.w.osds, after.w.sets, after.osd);
    Owners(pair.lost, pair.gone)
  }

  function RunOwners(es: seq<Event>, s: System, o: Owners): Owners
    decreases |es|
  {
    if es == [] then o else RunOwners(es[1..], Next(es[0], s), NextOwners(es[0], s, o))
  }

  ghost predicate NodeFollows(p: N.Pass, osds: OsdMap, plan: Plan) {
    match p
    case Start(req, answers) => NodeRuns.Faithful(NodeRuns.Visit(req, answers, 0), plan)
    case Done(_) => true
    case _ => NodeProgress.InPass(p, osds, p.c, plan)
  }

  ghost predicate SystemFollows(s: System, plan: Plan) {
    && NodeRuns.NodesReady(s.w.nodes, plan)
    && KeyedOsds(s.w.osds)
    && NodeFollows(s.node, s.w.osds, plan)
  }

  /** Agents report what is planned; from outside, VitastorOSDs and the planned nodes' specs
      stay as they are. */
  ghost predicate EventFollows(e: Event, s: System, plan: Plan) {
    match e
    case NodeBegin(req, answers) => NodeRuns.Faithful(NodeRuns.Visit(req, answers, 0), plan)
    case Edit(after) => after.osds == s.w.osds && NodeRuns.NodesReady(after.nodes, plan)
    case _ => true
  }

  ghost predicate EventsFollow(es: seq<Event>, s: System, plan: Plan)
    decreases |es|
  {
    es == [] || (EventFollows(es[0], s, plan) && EventsFollow(es[1..], Next(es[0], s), plan))
  }

  /** From outside, StatefulSets change only by the garbage collection of lost ones. */
  ghost predicate SetsAreLeft(e: Event, s: System, o: Owners) {
    match e
    case Edit(after) => after.sets == s.w.sets || exists k :: k in o.lost && after.sets == s.w.sets - {k}
    case _ => true
  }

  ghost predicate SetsAreLeftAlone(es: seq<Event>, s: System, o: Owners)
    decreases |es|
  {
    es == [] || (SetsAreLeft(es[0], s, o) && SetsAreLeftAlone(es[1..], Next(es[0], s), NextOwners(es[0], s, o)))
  }

  // ------------------------------------------------------- events as node moves

  /** What an event does to the VitastorOSDs: one enabled move, or nothing. */
  ghost predicate MovesAs(e: Event, s: System, plan: Plan, m: Option<Move>) {
    match m
    case None => Next(e, s).w.osds == s.w.osds
    case Some(move) =>
      e == NodeStep && Enabled(move, s.w.osds, plan) && Apply(move, s.w.osds, plan) == Next(e, s).w.osds
  }

  lemma NodeStepMoves(s: System, plan: Plan) returns (m: Option<Move>)
    requires WellFormed(plan) && SystemFollows(s, plan) && !s.node.Done?
    ensures MovesAs(NodeStep, s, plan, m) && SystemFollows(Next(NodeStep, s), plan)
  {
    m := None;
    NodeRuns.StepKeepsNodes(s.node, s.w, plan);
    if !s.node.Start? {
      NodeProgress.StepRefines(s.node, s.w, s.node.c, plan);
      FollowsOn(s.node, s.w, plan);
      m := NodeProgress.MoveOf(s.node, s.w);
    }
  }

  /** A pass that has begun keeps its context to the end. */
  lemma FollowsOn(p: N.Pass, w: World, plan: Plan)
    requires WellFormed(plan) && !p.Done? && !p.Start? && NodeProgress.InPass(p, w.osds, p.c, plan)
    ensures var (p', w') := N.Step(p, w); NodeFollows(p', w'.osds, plan) && KeyedOsds(w'.osds)
  {
    NodeProgress.StepRefines(p, w, p.c, plan);
  }

  lemma ClusterStepKeepsNodes(p: C.Pass, w: World, plan: Plan)
    requires !p.Done? && NodeRuns.NodesReady(w.nodes, plan)
    ensures NodeRuns.NodesReady(C.Step(p, w).1.nodes, plan)
  {
  }

  /** Every event of the operator is a move on the VitastorOSDs, or nothing to them. */
  lemma EventMoves(e: Event, s: System, plan: Plan) returns (m: Option<Move>)
    requires WellFormed(plan) && SystemFollows(s, plan) && EventFollows(e, s, plan)
    ensures MovesAs(e, s, plan, m) && SystemFollows(Next(e, s), plan)
  {
    m := None;
    OsdAndPoolFrame(s.osd, s.pool, s.w);
    if e.NodeStep? && !s.node.Done? {
      m := NodeStepMoves(s, plan);
    } else if e.ClusterStep? && !s.cluster.Done? {
      ClusterFrame(s.cluster, s.w);
      ClusterStepKeepsNodes(s.cluster, s.w, plan);
    }
  }

  lemma {:induction false} RunFollows(es: seq<Event>, s: System, plan: Plan)
    requires WellFormed(plan) && SystemFollows(s, plan) && EventsFollow(es, s, plan)
    ensures SystemFollows(RunEvents(es, s), plan)
    decreases |es|
  {
    if es != [] {
      var m := EventMoves(es[0], s, plan);
      RunFollows(es[1..], Next(es[0], s), plan);
    }
  }

  // -------------------------------------------- events as actions of both controllers

  /** How an event looks to the pair of object controllers. */
  ghost predicate ActsAs(e: Event, s: System, o: Owners, plan: Plan, a: Option<Action>) {
    var after := PairOf(Next(e, s), NextOwners(e, s, o));
    match a
    case None => after == PairOf(s, o)
    case Some(act) => Can(act, PairOf(s, o), plan) && Do(act, PairOf(s, o), plan) == after
  }

  lemma NothingActs(e: Event, s: System, o: Owners, plan: Plan)
    requires IsSound(PairOf(s, o))
    requires var s' := Next(e, s); s'.w.osds == s.w.osds && s'.w.sets == s.w.sets && s'.osd == s.osd
    ensures ActsAs(e, s, o, plan, None)
  {
    LostStays(PairOf(s, o), s.w.sets);
  }

  lemma OsdStepActs(s: System, o: Owners, plan: Plan)
    requires !s.osd.Done?
    ensures ActsAs(OsdStep, s, o, plan, Some(Work))
  {
    OsdAndPoolFrame(s.osd, s.pool, s.w);
  }

  lemma EditActs(e: Event, s: System, o: Owners, plan: Plan) returns (a: Option<Action>)
    requires e.Edit? && IsSound(PairOf(s, o)) && EventFollows(e, s, plan) && SetsAreLeft(e, s, o)
    ensures ActsAs(e, s, o, plan, a)
  {
    a := None;
    if IsEdit(s.w, e.after) && e.after.sets != s.w.sets {
      var k :| k in o.lost && e.after.sets == s.w.sets - {k};
      a := Some(Collect(k));
    } else {
      NothingActs(e, s, o, plan);
    }
  }

  /** An event of the OSD worker, or one that cuts its pass. */
  predicate IsOsdEvent(e: Event) {
    e.OsdBegin? || e.OsdStep? || e.OsdFails? || e.Restart?
  }

  lemma OsdEventActs(e: Event, s: System, o: Owners, plan: Plan) returns (a: Option<Action>)
    requires IsOsdEvent(e) && IsSound(PairOf(s, o))
    ensures ActsAs(e, s, o, plan, a)
  {
    a := None;
    if e.OsdStep? && !s.osd.Done? {
      OsdStepActs(s, o, plan);
      a := Some(Work);
    } else if e.OsdBegin? && s.osd.Done? {
      a := Some(Begin(e.osdReq));
    } else if e.OsdFails? || e.Restart? {
      a := Some(Drop);
    } else {
      NothingActs(e, s, o, plan);
    }
  }

  /** Only the OSD controller and people write StatefulSets or move the OSD worker. */
  lemma OthersLeaveSets(e: Event, s: System)
    requires !IsOsdEvent(e) && !e.Edit?
    ensures Next(e, s).w.sets == s.w.sets && Next(e, s).osd == s.osd
  {
    OsdAndPoolFrame(s.osd, s.pool, s.w);
    if e.NodeStep? && !s.node.Done? { NodeEffects.StepFrame(s.node, s.w); }
    if e.ClusterStep? && !s.cluster.Done? { ClusterFrame(s.cluster, s.w); }
  }

  /** Every event of the operator is an action of the two object controllers, or nothing
      to them. */
  lemma EventActs(e: Event, s: System, o: Owners, plan: Plan) returns (a: Option<Action>)
    requires WellFormed(plan) && SystemFollows(s, plan) && EventFollows(e, s, plan)
    requires IsSound(PairOf(s, o)) && SetsAreLeft(e, s, o)
    ensures ActsAs(e, s, o, plan, a)
  {
    if IsOsdEvent(e) {
      a := OsdEventActs(e, s, o, plan);
    } else if e.Edit? {
      a := EditActs(e, s, o, plan);
    } else {
      a := None;
      OthersLeaveSets(e, s);
      var m := EventMoves(e, s, plan);
      if m.Some? {
        a := Some(Node(m.value));
      } else {
        NothingActs(e, s, o, plan);
      }
    }
  }

  predicate ObjectsChange(s: System, s': System) {
    s'.w.osds != s.w.osds || s'.w.sets != s.w.sets
  }

  /** The number of calls in a run that change a VitastorOSD or a StatefulSet. */
  function ObjectChanges(es: seq<Event>, s: System): nat
    decreases |es|
  {
    if es == [] then 0
    else (if ObjectsChange(s, Next(es[0], s)) then 1 else 0) + ObjectChanges(es[1..], Next(es[0], s))
  }

  predicate ChangesAt(es: seq<Event>, s: System, i: nat)
    requires i < |es|
  {
    var before, after := RunEvents(es[..i], s).w, RunEvents(es[..i + 1], s).w;
    before.osds != after.osds || before.sets != after.sets
  }

  /** The places in a run at which an object changes. */
  ghost function ChangePlaces(es: seq<Event>, s: System): set<nat> {
    set i: nat | i < |es| && ChangesAt(es, s, i)
  }

  lemma {:induction false} LastEvent(es: seq<Event>, e: Event, s: System)
    ensures RunEvents(es + [e], s) == Next(e, RunEvents(es, s))
    ensures ObjectChanges(es + [e], s)
      == ObjectChanges(es, s) + if ObjectsChange(RunEvents(es, s), RunEvents(es + [e], s)) then 1 else 0
    decreases |es|
  {
    if es == [] {
      assert es + [e] == [e] && [e][1..] == [];
    } else {
      assert (es + [e])[1..] == es[1..] + [e];
      LastEvent(es[1..], e, Next(es[0], s));
    }
  }

  lemma LastPlace(es: seq<Event>, e: Event, s: System)
    ensures ChangePlaces(es + [e], s) == ChangePlaces(es, s)
      + if ObjectsChange(RunEvents(es, s), RunEvents(es + [e], s)) then {|es|} else {}
  {
    var all := es + [e];
    assert all[..|es|] == es && all[..|es| + 1] == all;
    assert forall i: nat :: i <= |es| ==> all[..i] == es[..i];
    assert forall i: nat :: i < |es| ==> (ChangesAt(all, s, i) <==> ChangesAt(es, s, i));
    assert ChangesAt(all, s, |es|) <==> ObjectsChange(RunEvents(es, s), RunEvents(all, s));
  }

  /** The count is the number of places at which the objects before and after the event
      differ. */
  lemma {:induction false} ObjectChangesCount(es: seq<Event>, s: System)
    ensures ObjectChanges(es, s) == |ChangePlaces(es, s)|
    decreases |es|
  {
    if es != [] {
      var front, e := es[..|es| - 1], es[|es| - 1];
      assert es == front + [e];
      ObjectChangesCount(front, s);
      LastEvent(front, e, s);
      LastPlace(front, e, s);
    }
  }

  /** Whatever the interleaving, failed calls and restarts included: the run changes objects
      at most as often as the measure says at its start, less what it still says at its end. */
  lemma {:induction false} ObjectChangesAreBounded(es: seq<Event>, s: System, o: Owners, plan: Plan)
    requires WellFormed(plan) && SystemFollows(s, plan) && EventsFollow(es, s, plan)
    requires IsSound(PairOf(s, o)) && SetsAreLeftAlone(es, s, o)
    ensures IsSound(PairOf(RunEvents(es, s), RunOwners(es, s, o)))
    ensures ObjectChanges(es, s) + Measure(PairOf(RunEvents(es, s), RunOwners(es, s, o)), plan)
      <= Measure(PairOf(s, o), plan)
    decreases |es|
  {
    if es != [] {
      var a := EventActs(es[0], s, o, plan);
      var m := EventMoves(es[0], s, plan);
      if a.Some? {
        ActionDescends(a.value, PairOf(s, o), plan);
      }
      ObjectChangesAreBounded(es[1..], Next(es[0], s), NextOwners(es[0], s, o), plan);
    }
  }

  lemma EventKeepsDeadlocks(e: Event, s: System, plan: Plan, D: set<string>)
    requires WellFormed(plan) && SystemFollows(s, plan) && EventFollows(e, s, plan)
    ensures SystemFollows(Next(e, s), plan)
    ensures var before, after := s.w.osds, Next(e, s).w.osds;
      && (IsDeadlock(before, plan, D) <==> IsDeadlock(after, plan, D))
      && (IsDeadlock(before, plan, D) ==> Untouched(before, after, D))
  {
    var m := EventMoves(e, s, plan);
    if m.Some? {
      MoveKeepsDeadlocks(m.value, s.w.osds, plan, D);
    }
  }

  lemma MoveKeepsDeadlocks(m: Move, osds: OsdMap, plan: Plan, D: set<string>)
    requires WellFormed(plan) && Enabled(m, osds, plan)
    ensures var after := Apply(m, osds, plan);
      && (IsDeadlock(osds, plan, D) <==> IsDeadlock(after, plan, D))
      && (IsDeadlock(osds, plan, D) ==> Untouched(osds, after, D))
  {
    DeadlocksAreInvariant(m, osds, plan, D);
  }

  /** No object of these nodes is gone or different. */
  ghost predicate Untouched(before: OsdMap, after: OsdMap, D: set<string>) {
    forall k :: k in before && before[k].nodeName in D ==> k in after && after[k] == before[k]
  }

  /** The deadlocked sets of nodes are the same all through an interleaved run. */
  lemma {:induction false} InterleavingKeepsDeadlocks(es: seq<Event>, s: System, plan: Plan, D: set<string>)
    requires WellFormed(plan) && SystemFollows(s, plan) && EventsFollow(es, s, plan)
    ensures IsDeadlock(s.w.osds, plan, D) <==> IsDeadlock(RunEvents(es, s).w.osds, plan, D)
    ensures IsDeadlock(s.w.osds, plan, D) ==> Untouched(s.w.osds, RunEvents(es, s).w.osds, D)
    decreases |es|
  {
    if es != [] {
      EventKeepsDeadlocks(es[0], s, plan, D);
      InterleavingKeepsDeadlocks(es[1..], Next(es[0], s), plan, D);
    }
  }
}
