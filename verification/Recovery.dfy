/** Crash recovery of the node controller: whatever passes were cut before, enough complete
    ones leave every reported partition with its object and with its placement entry. */
module Recovery {
  import opened Placement
  import opened Naming
  import opened Api
  import opened NodePass
  import opened NodeEffects
  import opened OsdPlan
  import opened NodeProgress
  import opened NodeRuns
  import opened PassResults

  /** Every reported partition of b has its entry, below b, in the placement map. */
  ghost predicate Placed(t: Tree, plan: Plan, b: string) {
    forall i :: IsEntry(plan, b, i) ==> IsOsdEntry(t, OsdKey(plan[b].report[i]), b)
  }

  /** Any part of any node's merge leaves the entries of b in place. */
  lemma MergeKeepsPlaced(t: Tree, c: Context, n: nat, plan: Plan, b: string)
    requires WellFormed(plan) && Follows(c, plan) && !IsNumeral(c.node.name)
    requires c.answers.labels.Some? && n <= |c.Report()|
    requires Placed(t, plan, b)
    ensures Placed(Merged(t, c, n), plan, b)
  {
    var parts := c.Report()[..n];
    forall i | IsEntry(plan, b, i) ensures IsOsdEntry(Merged(t, c, n), OsdKey(plan[b].report[i]), b) {
      var key := OsdKey(plan[b].report[i]);
      assert IsNumeral(key) && IsOsdEntry(t, key, b);
      WithOsdsIsMerge(WithHost(t, c.node.name, Domains(c.answers.labels.value)), c.node.nodeName, parts, key);
      if j :| 0 <= j < n && OsdKey(parts[j]) == key {
        NamesAreDistinct(parts[j].osdNumber, plan[b].report[i].osdNumber);
        assert parts[j] == plan[c.node.name].report[j];
      }
    }
  }

  lemma VisitKeepsPlaced(v: Visit, w: World, plan: Plan, b: string)
    requires WellFormed(plan) && Ready(w, plan) && Faithful(v, plan) && !IsNumeral(v.req)
    requires Placed(TreeOf(w), plan, b)
    ensures Placed(TreeOf(VisitEnd(v, w).1), plan, b)
  {
    if v.req !in w.nodes || v.answers.labels.None? {
      NothingBegins(v.calls, v.req, v.answers, w);
    } else {
      var c := Context(w.nodes[v.req], v.answers);
      var w' := VisitEnd(v, w).1;
      PassIsOneMerge(v.calls, v.req, v.answers, w);
      if w'.tree != w.tree {
        var n :| TreeAt(w', w, c, n);
        MergeKeepsPlaced(TreeOf(w), c, n, plan, b);
      }
    }
  }

  /** Where a pass gets without an answering agent. */
  predicate Unanswered(p: Pass) {
    match p
    case Start(_, answers) => !answers.agent.Agent?
    case ReadTree(c) => !c.answers.agent.Agent?
    case WriteTree(c, _) => !c.answers.agent.Agent?
    case AskAgent(c) => !c.answers.agent.Agent?
    case Done(o) => o != Finished && !o.Updated?
    case _ => false
  }

  lemma {:induction false} UnansweredDoesNotFinish(n: nat, p: Pass, w: World)
    requires Unanswered(p)
    ensures Unanswered(Run(n, p, w).0)
    decreases n
  {
    if n > 0 && !p.Done? {
      RunStep(n, p, w);
      UnansweredDoesNotFinish(n - 1, Step(p, w).0, Step(p, w).1);
    }
  }

  /** A completed pass of a node whose names are free writes all its entries. */
  lemma CompletedVisitPlaces(v: Visit, w: World, plan: Plan)
    requires WellFormed(plan) && Ready(w, plan) && Faithful(v, plan) && Completed(v, w)
    requires IsFree(w.osds, plan, v.req)
    ensures Placed(TreeOf(VisitEnd(v, w).1), plan, v.req)
  {
    var w' := VisitEnd(v, w).1;
    var ms := VisitRefines(v, w, plan);
    PlaysKeep(w.osds, ms, plan, {v.req}, w'.osds, v.req);
    VisitRan(v, w);
    if Unanswered(Start(v.req, v.answers)) {
      UnansweredDoesNotFinish(v.calls, Start(v.req, v.answers), w);
    }
    var c := Context(w.nodes[v.req], v.answers);
    PassIsOneMerge(v.calls, v.req, v.answers, w);
    forall i | IsEntry(plan, v.req, i) ensures IsOsdEntry(TreeOf(w'), OsdKey(plan[v.req].report[i]), v.req) {
      assert HasKey(c.Report(), OsdKey(c.Report()[i]));
      MergedEntry(TreeOf(w), c, OsdKey(c.Report()[i]));
    }
  }

  lemma {:induction false} StaysPlaced(w: World, vs: seq<Visit>, plan: Plan, b: string)
    requires WellFormed(plan) && Ready(w, plan) && IsFree(w.osds, plan, b)
    requires forall i :: 0 <= i < |vs| ==> Faithful(vs[i], plan) && !IsNumeral(vs[i].req)
    requires Placed(TreeOf(w), plan, b) || CompletedVisits(w, vs, b) > 0
    ensures Placed(TreeOf(Visits(w, vs)), plan, b)
    decreases |vs|
  {
    if vs != [] {
      var w' := VisitEnd(vs[0], w).1;
      var ms := VisitRefines(vs[0], w, plan);
      PlaysKeep(w.osds, ms, plan, {vs[0].req}, w'.osds, b);
      if Placed(TreeOf(w), plan, b) {
        VisitKeepsPlaced(vs[0], w, plan, b);
      } else if vs[0].req == b && Completed(vs[0], w) {
        CompletedVisitPlaces(vs[0], w, plan);
      }
      StaysPlaced(w', vs[1..], plan, b);
    }
  }

  /** From any state, such as one left by a pass cut between creating an object and writing
      its entry, and whatever further passes are cut: one completed pass more than there
      are wrong images leaves every reported partition with its object and its entry. Node
      names are not numbers. */
  lemma {:induction false} CutPassesAreRepaired(w: World, vs: seq<Visit>, plan: Plan, b: string)
    requires WellFormed(plan) && Ready(w, plan) && b in plan && IsFree(w.osds, plan, b)
    requires forall i :: 0 <= i < |vs| ==> Faithful(vs[i], plan) && !IsNumeral(vs[i].req)
    requires CompletedVisits(w, vs, b) >= 1 + |WrongOf(w.osds, plan, b)|
    ensures Converged(Visits(w, vs).osds, plan, b)
    ensures Placed(TreeOf(Visits(w, vs)), plan, b)
  {
    NodeConverges(w, vs, plan, b);
    StaysPlaced(w, vs, plan, b);
  }
}
