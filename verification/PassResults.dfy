/** What one pass of the node controller guarantees, whole or cut after any step. */
module PassResults {
  import opened Placement
  import opened StatusLists
  import opened Naming
  import opened Api
  import opened NodePass
  import opened NodeEffects
  import opened OsdPlan
  import opened NodeRuns

  lemma PassBegins(n: nat, req: string, answers: Answers, w: World)
    requires n > 0 && Keyed(w) && req in w.nodes && answers.labels.Some?
    ensures var c := Context(w.nodes[req], answers);
      && Run(n, Start(req, answers), w) == Run(n - 1, ReadTree(c), w)
      && Along(ReadTree(c), w, w, c) && ObjectsAlong(ReadTree(c), w.osds, w.osds, c)
  {
    RunStep(n, Start(req, answers), w);
  }

  lemma NothingBegins(n: nat, req: string, answers: Answers, w: World)
    requires n == 0 || req !in w.nodes || answers.labels.None?
    ensures Run(n, Start(req, answers), w).1 == w
  {
    if n > 0 { RunStep(n, Start(req, answers), w); }
  }

  /** Delete safety and the rolling update, wherever the pass is cut and however the List
      was ordered: other nodes' objects are untouched; a reported path's object is never
      deleted; what is deleted is one of the node's own objects whose path is not reported;
      at most one object gets another image, the node's, and it is a reported one of the
      node; new objects are for reported partitions and are built from them. */
  lemma PassIsSafe(n: nat, req: string, answers: Answers, w: World)
    requires Keyed(w)
    ensures var (p, w') := Run(n, Start(req, answers), w);
      var report := if answers.agent.Agent? then answers.agent.osds else [];
      && (forall k :: k in w.osds && w.osds[k].nodeName != req ==> k in w'.osds && w'.osds[k] == w.osds[k])
      && (forall k :: k in w.osds && w.osds[k].path in Paths(report) ==> k in w'.osds)
      && (forall k :: k in w.osds && k !in w'.osds ==> w.osds[k].nodeName == req && !IsLive(report, w.osds[k].path))
      && (forall k :: k in w.osds && k in w'.osds && w'.osds[k] != w.osds[k] ==>
            && p == Done(Updated(k)) && req in w.nodes && w.osds[k].nodeName == req && IsLive(report, w.osds[k].path)
            && w'.osds[k] == w.osds[k].(image := w.nodes[req].image))
      && (forall k | k in w'.osds && k !in w.osds :: req in w.nodes &&
            exists i :: 0 <= i < |report| && IsBuiltFor(w'.osds[k], w.nodes[req], report[i])
                        && k == OsdName(report[i].osdNumber))
    ensures Run(n, Start(req, answers), w).1 != w ==> req in w.nodes
  {
    if n == 0 || req !in w.nodes || answers.labels.None? {
      NothingBegins(n, req, answers, w);
    } else {
      var c := Context(w.nodes[req], answers);
      ObjectsAt(n, req, answers, w);
      forall path | path in Paths(c.Report()) ensures IsLive(c.Report(), path) {
        PaddedMembers(Paths(c.Report()), path);
      }
      var w' := Run(n, Start(req, answers), w).1;
      forall k | k in w'.osds && k !in w.osds
        ensures exists i :: 0 <= i < |c.Report()| && IsBuiltFor(w'.osds[k], w.nodes[req], c.Report()[i])
                            && k == OsdName(c.Report()[i].osdNumber)
      {
        assert IsNew(w'.osds[k], c);
      }
    }
  }

  lemma ObjectsAt(n: nat, req: string, answers: Answers, w: World)
    requires n > 0 && Keyed(w) && req in w.nodes && answers.labels.Some?
    ensures var (p, v) := Run(n, Start(req, answers), w);
      ObjectsAlong(p, v.osds, w.osds, Context(w.nodes[req], answers))
  {
    var c := Context(w.nodes[req], answers);
    PassBegins(n, req, answers, w);
    RunObjects(n - 1, ReadTree(c), w, w.osds, c);
  }

  lemma KeptOn(m: nat, d: nat, req: string, answers: Answers, w: World, mid: (Pass, World), k: string)
    requires m > 0 && Keyed(w) && req in w.nodes && answers.labels.Some?
    requires mid == Run(m, Start(req, answers), w) && k !in w.osds && k in mid.1.osds
    ensures k in Run(d, mid.0, mid.1).1.osds && Run(d, mid.0, mid.1).1.osds[k] == mid.1.osds[k]
  {
    ObjectsAt(m, req, answers, w);
    RunObjects(d, mid.0, mid.1, w.osds, Context(w.nodes[req], answers));
  }

  /** What a pass has created by some step it does not delete later. */
  lemma CreatedStays(m: nat, n: nat, req: string, answers: Answers, w: World, k: string)
    requires Keyed(w) && m <= n
    requires k !in w.osds && k in Run(m, Start(req, answers), w).1.osds
    ensures k in Run(n, Start(req, answers), w).1.osds
    ensures Run(n, Start(req, answers), w).1.osds[k] == Run(m, Start(req, answers), w).1.osds[k]
  {
    if m == 0 || req !in w.nodes || answers.labels.None? {
      NothingBegins(m, req, answers, w);
    } else {
      KeptOn(m, n - m, req, answers, w, Run(m, Start(req, answers), w), k);
      RunSplits(m, n - m, Start(req, answers), w);
    }
  }

  /** The write side of a pass is one map merge, of which a cut pass has done a part: the
      host and its datacenters first, then the reported entries in order. Nothing but the
      three stores of the controller changes. */
  lemma PassIsOneMerge(n: nat, req: string, answers: Answers, w: World)
    requires Keyed(w) && req in w.nodes && answers.labels.Some?
    ensures var (p, w') := Run(n, Start(req, answers), w);
      var c := Context(w.nodes[req], answers);
      && (w'.tree == w.tree || exists i :: TreeAt(w', w, c, i))
      && (EndsWell(p) ==>
            TreeAt(w', w, c, |c.Report()|) && w'.nodes == Saved(w.nodes, c))
      && SameElsewhere(w, w')
  {
    RunFrame(n, Start(req, answers), w);
    if n == 0 {
      NothingBegins(n, req, answers, w);
    } else {
      PassBegins(n, req, answers, w);
      RunAlong(n - 1, ReadTree(Context(w.nodes[req], answers)), w, w, Context(w.nodes[req], answers));
    }
  }

  /** Entry by entry, what the merge of a complete pass leaves. */
  lemma MergedEntry(t: Tree, c: Context, key: string)
    requires c.answers.labels.Some?
    ensures var r := Merged(t, c, |c.Report()|); var ds := Domains(c.answers.labels.value);
      && (key in r <==> key in t || key == c.node.name || key in ds || HasKey(c.Report(), key))
      && (key in r ==> r[key] == if HasKey(c.Report(), key) then Entry("osd", c.node.nodeName)
                                 else if key == c.node.name then HostEntry(ds)
                                 else if key in t then t[key] else Entry("dc", ""))
  {
    assert c.Report()[..|c.Report()|] == c.Report();
    WithOsdsIsMerge(WithHost(t, c.node.name, Domains(c.answers.labels.value)), c.node.nodeName, c.Report(), key);
  }

  // ------------------------------------------------------------------- fixpoint

  predicate IsOsdEntry(t: Tree, key: string, host: string) {
    key in t && t[key] == Entry("osd", host)
  }

  /** The entries a node is to have in the placement map: its datacenters and itself, below
      the last of them unless its name is a reported number, and each reported OSD, below
      itself. */
  ghost predicate EntriesAreIn(t: Tree, c: Context)
    requires c.answers.labels.Some?
  {
    var host, domains := c.node.name, Domains(c.answers.labels.value);
    && (forall d :: d in domains ==> d in t)
    && host in t && (!HasKey(c.Report(), host) ==> t[host] == HostEntry(domains))
    && (forall i :: 0 <= i < |c.Report()| ==> IsOsdEntry(t, OsdKey(c.Report()[i]), c.node.nodeName))
  }

  lemma MergeIsIdleIffEntriesAreIn(t: Tree, c: Context)
    requires c.answers.labels.Some?
    ensures Merged(t, c, |c.Report()|) == t <==> EntriesAreIn(t, c)
  {
    var r := Merged(t, c, |c.Report()|);
    if r == t {
      forall d | d in Domains(c.answers.labels.value) ensures d in t { MergedEntry(t, c, d); }
      MergedEntry(t, c, c.node.name);
      forall i | 0 <= i < |c.Report()| ensures IsOsdEntry(t, OsdKey(c.Report()[i]), c.node.nodeName) {
        MergedEntry(t, c, OsdKey(c.Report()[i]));
      }
    }
    if EntriesAreIn(t, c) {
      forall key ensures (key in r <==> key in t) && (key in t ==> r[key] == t[key]) {
        MergedEntry(t, c, key);
      }
    }
  }

  /** Nothing is left to do for a pass: the objects have converged, the node's entries are
      in the map, its status is current. */
  ghost predicate IsSettled(w: World, v: Visit, plan: Plan) {
    && v.req in w.nodes && v.answers.labels.Some?
    && Converged(w.osds, plan, v.req)
    && w.tree.Some? && EntriesAreIn(w.tree.value, Context(w.nodes[v.req], v.answers))
    && StatusIsCurrent(Context(w.nodes[v.req], v.answers))
  }

  lemma {:induction false} ConvergedPlaysNothing(osds: OsdMap, ms: seq<Move>, plan: Plan, b: string, end: OsdMap)
    requires WellFormed(plan) && Plays(osds, ms, plan, {b}, end) && Converged(osds, plan, b)
    ensures ms == [] && end == osds
  {
    if ms != [] {
      ConvergedAfter(ms[0], osds, plan, b);
    }
  }

  /** A pass that ends without an error changes nothing at all if and only if the node was
      settled before it. */
  lemma PassIsIdleIffSettled(v: Visit, w: World, plan: Plan)
    requires WellFormed(plan) && Ready(w, plan) && Faithful(v, plan)
    requires EndsWell(VisitEnd(v, w).0)
    ensures VisitEnd(v, w).1 == w <==> IsSettled(w, v, plan)
  {
    var (p, w') := VisitEnd(v, w);
    var ms := VisitRefines(v, w, plan);
    VisitRan(v, w);
    var c := Context(w.nodes[v.req], v.answers);
    PassIsOneMerge(v.calls, v.req, v.answers, w);
    PlaysPayDebt(w.osds, ms, plan, {v.req}, w'.osds);
    MergeIsIdleIffEntriesAreIn(TreeOf(w), c);
    if w' == w {
      assert ms == [] && p == Done(Finished);
      assert Saved(w.nodes, c) == w.nodes;
      if !StatusIsCurrent(c) {
        assert w.nodes[c.node.name].status == NewStatus(c);
        StatusWriteOnChange(c);
      }
    }
    if IsSettled(w, v, plan) {
      ConvergedPlaysNothing(w.osds, ms, plan, v.req, w'.osds);
      assert w'.tree == w.tree;
    }
  }

  lemma VisitRan(v: Visit, w: World)
    requires EndsWell(VisitEnd(v, w).0)
    ensures v.calls > 0 && v.req in w.nodes && v.answers.labels.Some?
  {
    RunStep(if v.calls > 0 then v.calls else 1, Start(v.req, v.answers), w);
  }

  // -------------------------------------------------------------- rolling update

  lemma {:induction false} LiveStays(osds: OsdMap, ms: seq<Move>, plan: Plan, who: set<string>, end: OsdMap, k: string)
    requires WellFormed(plan) && Plays(osds, ms, plan, who, end)
    requires k in osds && osds[k].nodeName in plan && IsLive(plan[osds[k].nodeName].report, osds[k].path)
    ensures k in end && end[k] == osds[k].(image := end[k].image)
    decreases |ms|
  {
    if ms != [] {
      LiveStays(OsdPlan.Apply(ms[0], osds, plan), ms[1..], plan, who, end, k);
    }
  }

  lemma VisitFixesOneImage(v: Visit, w: World, plan: Plan)
    requires WellFormed(plan) && Ready(w, plan) && Faithful(v, plan)
    ensures |Wrong(w.osds, plan)| <= |Wrong(VisitEnd(v, w).1.osds, plan)| + 1
  {
    var (p, w') := VisitEnd(v, w);
    var ms := VisitRefines(v, w, plan);
    PassIsSafe(v.calls, v.req, v.answers, w);
    var fixed := if p.Done? && p.outcome.Updated? then {p.outcome.name} else {};
    WrongButFixed(w.osds, ms, plan, {v.req}, w'.osds, fixed);
    SubsetIsSmaller(Wrong(w.osds, plan), Wrong(w'.osds, plan) + fixed);
  }

  lemma WrongButFixed(osds: OsdMap, ms: seq<Move>, plan: Plan, who: set<string>, end: OsdMap, fixed: set<string>)
    requires WellFormed(plan) && Plays(osds, ms, plan, who, end)
    requires forall k :: k in osds && k in end && end[k] != osds[k] ==> k in fixed
    ensures Wrong(osds, plan) <= Wrong(end, plan) + fixed
  {
    forall k | k in Wrong(osds, plan) ensures k in Wrong(end, plan) + fixed {
      LiveStays(osds, ms, plan, who, end, k);
    }
  }

  /** Images change one at a time: k of them take at least k passes, whichever nodes they
      are of and however many passes are cut. */
  lemma {:induction false} ImagesChangeOneByOne(w: World, vs: seq<Visit>, plan: Plan)
    requires WellFormed(plan) && Ready(w, plan)
    requires forall i :: 0 <= i < |vs| ==> Faithful(vs[i], plan)
    ensures |Wrong(w.osds, plan)| <= |Wrong(Visits(w, vs).osds, plan)| + |vs|
    decreases |vs|
  {
    if vs != [] {
      var ms := VisitRefines(vs[0], w, plan);
      VisitFixesOneImage(vs[0], w, plan);
      ImagesChangeOneByOne(VisitEnd(vs[0], w).1, vs[1..], plan);
    }
  }
}
