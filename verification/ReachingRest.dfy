/** The whole operator comes to rest: if no node is blocked, every stretch of a run in which
    each worker gets its work done brings the cluster nearer, until nothing is left to do. */
module ReachingRest {
  import opened Api
  import opened OsdPlan
  import opened Settling
  import opened Deadlocks
  import opened Operator
  import opened OperatorRuns
  import opened OperatorProgress
  import O = OsdController
  import NodeRuns

  // -------------------------------------------------- what a stretch of a run does

  /** The step ends a pass of the OSD controller for object k without an error. */
  predicate Serves(e: Event, s: System, k: string) {
    e.OsdStep? && Holds(s.osd) && s.osd.osd.name == k
    && var p := O.Step(s.osd, s.w).0; p.Done? && !p.outcome.Failed?
  }

  ghost predicate IsServed(es: seq<Event>, s: System, k: string)
    decreases |es|
  {
    es != [] && (Serves(es[0], s, k) || IsServed(es[1..], Next(es[0], s), k))
  }

  ghost predicate IsCollected(es: seq<Event>, s: System, k: string)
    decreases |es|
  {
    es != [] && ((k in s.w.sets && k !in Next(es[0], s).w.sets) || IsCollected(es[1..], Next(es[0], s), k))
  }

  /** At some moment the OSD controller has nothing in hand. */
  ghost predicate IsIdleOnce(es: seq<Event>, s: System)
    decreases |es|
  {
    s.osd.Done? || (es != [] && IsIdleOnce(es[1..], Next(es[0], s)))
  }

  /** Every planned node completes a pass, every VitastorOSD there is at the start has one of
      the OSD controller, and every StatefulSet lost by then is collected. */
  ghost predicate IsThorough(es: seq<Event>, s: System, o: Owners, plan: Plan) {
    && IsFair(es, s, plan) && SetsAreLeftAlone(es, s, o)
    && (forall k :: k in s.w.osds ==> IsServed(es, s, k))
    && (forall k :: k in o.lost ==> IsCollected(es, s, k))
    && IsIdleOnce(es, s)
  }

  // ------------------------------------------------------------ quiet stretches

  /** All that a run is assumed to keep to. */
  ghost predicate IsRun(es: seq<Event>, s: System, o: Owners, plan: Plan) {
    && WellFormed(plan) && SystemFollows(s, plan) && IsSound(PairOf(s, o))
    && EventsFollow(es, s, plan) && SetsAreLeftAlone(es, s, o)
  }

  ghost function MeasureAt(s: System, o: Owners, plan: Plan): nat {
    Measure(PairOf(s, o), plan)
  }

  ghost predicate IsQuiet(es: seq<Event>, s: System, o: Owners, plan: Plan) {
    MeasureAt(RunEvents(es, s), RunOwners(es, s, o), plan) == MeasureAt(s, o, plan)
  }

  lemma EventPays(e: Event, s: System, o: Owners, plan: Plan)
    requires WellFormed(plan) && SystemFollows(s, plan) && IsSound(PairOf(s, o))
    requires EventFollows(e, s, plan) && SetsAreLeft(e, s, o)
    ensures var s', o' := Next(e, s), NextOwners(e, s, o);
      && SystemFollows(s', plan) && IsSound(PairOf(s', o'))
      && MeasureAt(s', o', plan) <= MeasureAt(s, o, plan)
      && (ObjectsChange(s, s') ==> MeasureAt(s', o', plan) < MeasureAt(s, o, plan))
  {
    var a := EventActs(e, s, o, plan);
    var m := EventMoves(e, s, plan);
    if a.Some? {
      ActionDescends(a.value, PairOf(s, o), plan);
    }
  }

  lemma SameObjectsSameDebt(s: Pair, s': Pair, plan: Plan)
    requires IsSound(s) && s' == Then(s, s.osds, s.sets, s'.worker)
    requires Measure(s', plan) == Measure(s, plan)
    ensures s'.lost == s.lost && (HoldsStale(s') <==> HoldsStale(s))
  {
    LostStays(s, s.sets);
  }

  /** The first event of a quiet stretch changes no object, and the rest is quiet too. */
  lemma QuietStarts(es: seq<Event>, s: System, o: Owners, plan: Plan)
    requires IsRun(es, s, o, plan) && IsQuiet(es, s, o, plan) && es != []
    ensures var s', o' := Next(es[0], s), NextOwners(es[0], s, o);
      && s'.w.osds == s.w.osds && s'.w.sets == s.w.sets && o'.lost == o.lost
      && (HoldsStale(PairOf(s', o')) <==> HoldsStale(PairOf(s, o)))
      && IsRun(es[1..], s', o', plan) && IsQuiet(es[1..], s', o', plan)
  {
    var s', o' := Next(es[0], s), NextOwners(es[0], s, o);
    EventPays(es[0], s, o, plan);
    ObjectChangesAreBounded(es[1..], s', o', plan);
    SameObjectsSameDebt(PairOf(s, o), PairOf(s', o'), plan);
  }

  lemma {:induction false} QuietChangesNothing(es: seq<Event>, s: System, o: Owners, plan: Plan)
    requires IsRun(es, s, o, plan) && IsQuiet(es, s, o, plan)
    ensures RunEvents(es, s).w.osds == s.w.osds
    decreases |es|
  {
    if es != [] {
      QuietStarts(es, s, o, plan);
      QuietChangesNothing(es[1..], Next(es[0], s), NextOwners(es[0], s, o), plan);
    }
  }

  lemma {:induction false} QuietHoldsNothingStale(es: seq<Event>, s: System, o: Owners, plan: Plan)
    requires IsRun(es, s, o, plan) && IsQuiet(es, s, o, plan) && IsIdleOnce(es, s)
    ensures !HoldsStale(PairOf(s, o))
    decreases |es|
  {
    if !s.osd.Done? {
      QuietStarts(es, s, o, plan);
      QuietHoldsNothingStale(es[1..], Next(es[0], s), NextOwners(es[0], s, o), plan);
    }
  }

  /** A pass that ends without an error and without a change has found the right image. */
  lemma ServedIsRight(s: System, o: Owners, k: string)
    requires Serves(OsdStep, s, k) && k in s.w.osds && !HoldsStale(PairOf(s, o))
    requires Next(OsdStep, s).w.sets == s.w.sets
    ensures k in s.w.sets && s.w.sets[k].image == s.w.osds[k].image
  {
    var (p, w) := O.Step(s.osd, s.w);
    assert s.osd.osd == s.w.osds[k];
    if s.osd.PatchSet? {
      assert w.sets[k].image == s.osd.osd.image;
    }
  }

  lemma {:induction false} QuietIsServed(es: seq<Event>, s: System, o: Owners, plan: Plan, k: string)
    requires IsRun(es, s, o, plan) && IsQuiet(es, s, o, plan) && IsServed(es, s, k)
    requires k in s.w.osds && !HoldsStale(PairOf(s, o))
    ensures k in s.w.sets && s.w.sets[k].image == s.w.osds[k].image
    decreases |es|
  {
    QuietStarts(es, s, o, plan);
    if Serves(es[0], s, k) {
      ServedIsRight(s, o, k);
    } else {
      QuietIsServed(es[1..], Next(es[0], s), NextOwners(es[0], s, o), plan, k);
    }
  }

  lemma {:induction false} QuietCollectsNothing(es: seq<Event>, s: System, o: Owners, plan: Plan, k: string)
    requires IsRun(es, s, o, plan) && IsQuiet(es, s, o, plan)
    ensures !IsCollected(es, s, k)
    decreases |es|
  {
    if es != [] {
      QuietStarts(es, s, o, plan);
      QuietCollectsNothing(es[1..], Next(es[0], s), NextOwners(es[0], s, o), plan, k);
    }
  }

  // ------------------------------------------------------------ thorough stretches

  lemma NoDebtIffConverged(osds: OsdMap, plan: Plan)
    ensures Debt(osds, plan) == 0 <==> Unconverged(osds, plan) == {}
  {
    if Debt(osds, plan) == 0 {
      assert Missing(osds, plan) == {} && Wrong(osds, plan) == {} && Stale(osds, plan) == {};
      forall b | b in plan ensures Converged(osds, plan, b) {
        forall i ensures !IsMissing(osds, plan, b, i) {
          assert (b, i) !in Missing(osds, plan);
        }
        forall k | k in osds && osds[k].nodeName == b ensures !IsWrong(osds, plan, k) && !IsStale(osds, plan, k) {
          assert k !in Wrong(osds, plan) && k !in Stale(osds, plan);
        }
      }
    } else {
      NoDebtIfConverged(osds, plan);
    }
  }

  lemma NoDebtIfConverged(osds: OsdMap, plan: Plan)
    ensures Unconverged(osds, plan) == {} ==> Debt(osds, plan) == 0
  {
    if Unconverged(osds, plan) == {} {
      assert forall b :: b in plan ==> b !in Unconverged(osds, plan);
      assert Missing(osds, plan) == {} && Wrong(osds, plan) == {} && Stale(osds, plan) == {};
    }
  }

  lemma NoSetDebt(osds: OsdMap, sets: SetMap)
    requires IsOwned(osds, sets, {})
    requires forall k :: k in osds ==> k in sets && sets[k].image == osds[k].image
    ensures SetDebt(osds, sets, {}) == 0
  {
    assert Unserved(osds, sets) == {} && Outdated(osds, sets) == {};
    assert Foreign(osds, sets, {}) == {} && Orphaned(osds, sets) == {};
  }

  /** A thorough stretch that leaves the measure as it was has found nothing to do. */
  lemma QuietIsDone(es: seq<Event>, s: System, o: Owners, plan: Plan)
    requires IsRun(es, s, o, plan) && IsQuiet(es, s, o, plan) && IsThorough(es, s, o, plan)
    requires !exists C :: IsDeadlock(s.w.osds, plan, C)
    ensures MeasureAt(s, o, plan) == 0
  {
    QuietHoldsNothingStale(es, s, o, plan);
    forall k | k in o.lost ensures false { QuietCollectsNothing(es, s, o, plan, k); }
    assert o.lost == {};
    forall k | k in s.w.osds ensures k in s.w.sets && s.w.sets[k].image == s.w.osds[k].image {
      QuietIsServed(es, s, o, plan, k);
    }
    NoSetDebt(s.w.osds, s.w.sets);
    QuietChangesNothing(es, s, o, plan);
    QuietIsConverged(es, s, plan);
    NoDebtIfConverged(s.w.osds, plan);
  }

  lemma QuietIsConverged(es: seq<Event>, s: System, plan: Plan)
    requires WellFormed(plan) && SystemFollows(s, plan) && IsFair(es, s, plan)
    requires !exists C :: IsDeadlock(s.w.osds, plan, C)
    requires RunEvents(es, s).w.osds == s.w.osds
    ensures Unconverged(s.w.osds, plan) == {}
  {
    if Unconverged(s.w.osds, plan) != {} {
      var b := SomeNodeIsFree(s.w.osds, plan);
      SegmentProgresses(es, s, plan, b);
    }
  }

  lemma ThoroughPays(es: seq<Event>, s: System, o: Owners, plan: Plan)
    requires IsRun(es, s, o, plan) && IsThorough(es, s, o, plan)
    requires !exists C :: IsDeadlock(s.w.osds, plan, C)
    ensures var end, owners := RunEvents(es, s), RunOwners(es, s, o);
      MeasureAt(end, owners, plan) < MeasureAt(s, o, plan) || MeasureAt(end, owners, plan) == 0
  {
    ObjectChangesAreBounded(es, s, o, plan);
    if IsQuiet(es, s, o, plan) {
      QuietIsDone(es, s, o, plan);
    }
  }

  function OwnersAfter(segments: seq<seq<Event>>, s: System, o: Owners): Owners
    decreases |segments|
  {
    if segments == [] then o
    else OwnersAfter(segments[1..], RunEvents(segments[0], s), RunOwners(segments[0], s, o))
  }

  ghost predicate AreThorough(segments: seq<seq<Event>>, s: System, o: Owners, plan: Plan)
    decreases |segments|
  {
    segments == []
    || (IsThorough(segments[0], s, o, plan)
        && AreThorough(segments[1..], RunEvents(segments[0], s), RunOwners(segments[0], s, o), plan))
  }

  lemma {:induction false} MeasureRunsOut(segments: seq<seq<Event>>, s: System, o: Owners, plan: Plan)
    requires WellFormed(plan) && SystemFollows(s, plan) && IsSound(PairOf(s, o))
    requires AreThorough(segments, s, o, plan) && !exists C :: IsDeadlock(s.w.osds, plan, C)
    requires |segments| >= MeasureAt(s, o, plan)
    ensures var end, owners := RunSegments(segments, s), OwnersAfter(segments, s, o);
      MeasureAt(end, owners, plan) == 0 && IsSound(PairOf(end, owners))
    decreases |segments|
  {
    if segments != [] {
      var es := segments[0];
      var s', o' := RunEvents(es, s), RunOwners(es, s, o);
      ThoroughPays(es, s, o, plan);
      ObjectChangesAreBounded(es, s, o, plan);
      RunFollows(es, s, plan);
      forall C ensures !IsDeadlock(s'.w.osds, plan, C) {
        InterleavingKeepsDeadlocks(es, s, plan, C);
      }
      MeasureRunsOut(segments[1..], s', o', plan);
    }
  }

  lemma NothingLeftMeansRest(s: Pair, plan: Plan)
    requires Measure(s, plan) == 0
    ensures AtRest(s.osds, s.sets, s.lost, plan)
  {
    NoDebtIffConverged(s.osds, plan);
  }

  /** If no node is blocked, the operator comes to rest, in any interleaving: after as many
      thorough stretches as the measure says, every reported partition has its object, every
      object its StatefulSet, with the right node, path and image, and nothing else is left. */
  lemma {:induction false} OperatorComesToRest(segments: seq<seq<Event>>, s: System, o: Owners, plan: Plan)
    requires WellFormed(plan) && SystemFollows(s, plan) && IsSound(PairOf(s, o))
    requires AreThorough(segments, s, o, plan) && !IsBlocked(s.w.osds, plan)
    requires |segments| >= Measure(PairOf(s, o), plan)
    ensures var end := RunSegments(segments, s).w;
      && AtRest(end.osds, end.sets, OwnersAfter(segments, s, o).lost, plan)
      && (forall b, i :: IsEntry(plan, b, i) ==> Covered(end.osds, b, plan[b].report[i].dataDevice))
      && (forall k :: k in end.osds <==> k in end.sets)
      && (forall k :: k in end.osds ==> end.sets[k] == O.SetFor(end.osds[k]))
  {
    DeadlockIffBlocked(s.w.osds, plan);
    MeasureRunsOut(segments, s, o, plan);
    var end, owners := RunSegments(segments, s), OwnersAfter(segments, s, o);
    NothingLeftMeansRest(PairOf(end, owners), plan);
    RestMeansServed(end.w.osds, end.w.sets, owners.lost, plan);
  }
}
