/** The bound m+1 on a node's passes is exact: with m wrong images and one stale object that
    every List puts last, m completed passes leave the stale object where it is. */
module ExactBound {
  import opened Placement
  import opened StatusLists
  import opened Naming
  import opened Api
  import opened NodePass
  import opened NodeEffects
  import opened OsdPlan
  import opened NodeRuns
  import opened PassResults
  import opened PassesComplete
  import Recovery

  // ------------------------------------------- one pass spares what is listed last

  /** The object is one the pass will update, and is still to be looked at. */
  ghost predicate IsAhead(p: Pass, c: Context, osd: VitastorOSD) {
    && IsLive(c.Report(), osd.path) && osd.image != c.node.image
    && (p.Sweep? ==> osd in c.Listing()[if p.j <= |c.Listing()| then p.j else |c.Listing()|..])
  }

  predicate IsLast(listing: seq<VitastorOSD>, x: string) {
    listing != [] && listing[|listing| - 1].name == x
  }

  lemma SweepSpares(c: Context, j: nat, w: World, before: OsdMap, y: VitastorOSD, x: string)
    requires IsListing(c.Listing(), before, c.node.name)
    requires IsAhead(Sweep(c, j), c, y) && IsLast(c.Listing(), x) && y.name != x && x in w.osds
    ensures var (p', w') := SweepStep(c, j, w); x in w'.osds && (p'.Done? || IsAhead(p', c, y))
  {
    var S := c.Listing();
    assert j < |S|;
    if S[j] != y {
      StillAhead(S, j, y);
      assert S[j].name != S[|S| - 1].name;
    }
  }

  lemma StillAhead(S: seq<VitastorOSD>, j: nat, y: VitastorOSD)
    requires j < |S| && y in S[j..] && S[j] != y
    ensures j + 1 < |S| && y in S[j + 1..]
  {
    assert S[j..] == [S[j]] + S[j + 1..];
  }

  lemma {:induction false} RunSpares(n: nat, p: Pass, w: World, before: OsdMap, c: Context, y: string, x: string)
    requires ObjectsAlong(p, w.osds, before, c) && !p.Done? && IsLast(c.Listing(), x)
    requires y in before && x in w.osds && x != y && before[y].name == y && before[y].nodeName == c.node.name
    requires IsAhead(p, c, before[y])
    ensures x in Run(n, p, w).1.osds
    decreases n
  {
    if n > 0 {
      var (p', w') := Step(p, w);
      RunStep(n, p, w);
      StepObjects(p, w, before, c);
      StepSpares(p, w, before, c, y, x);
      if p'.Done? {
        RunRests(n - 1, p', w');
      } else {
        RunSpares(n - 1, p', w', before, c, y, x);
      }
    }
  }

  lemma StepSpares(p: Pass, w: World, before: OsdMap, c: Context, y: string, x: string)
    requires ObjectsAlong(p, w.osds, before, c) && !p.Done? && IsLast(c.Listing(), x)
    requires y in before && x in w.osds && x != y && before[y].name == y && before[y].nodeName == c.node.name
    requires IsAhead(p, c, before[y])
    ensures var (p', w') := Step(p, w); x in w'.osds && (p'.Done? || IsAhead(p', c, before[y]))
  {
    match p
    case Sweep(_, j) => SweepSpares(c, j, w, before, before[y], x);
    case Deploy(_, i) =>
      assert before[y] in c.Listing() && c.Listing()[0..] == c.Listing();
      DeployKeeps(c, i, w, x);
    case _ =>
  }

  lemma DeployKeeps(c: Context, i: nat, w: World, x: string)
    requires x in w.osds
    ensures var (p', w') := DeployStep(c, i, w);
      x in w'.osds && (p'.Done? || p' == Sweep(c, 0) || p' == ReadEntry(c, i))
  {
  }

  /** A pass with a wrong image to update does not get to a stale object listed last. */
  lemma VisitSpares(v: Visit, w: World, plan: Plan, y: string, x: string)
    requires Ready(w, plan) && Faithful(v, plan) && v.req in plan
    requires y in WrongOf(w.osds, plan, v.req) && IsStale(w.osds, plan, x) && IsLast(v.answers.listing, x)
    ensures x in VisitEnd(v, w).1.osds
  {
    if v.calls == 0 || v.req !in w.nodes || v.answers.labels.None? {
      NothingBegins(v.calls, v.req, v.answers, w);
    } else if v.answers.agent.Agent? {
      var c := Context(w.nodes[v.req], v.answers);
      PassBegins(v.calls, v.req, v.answers, w);
      RunSpares(v.calls - 1, ReadTree(c), w, w.osds, c, y, x);
    } else {
      PassIsSafe(v.calls, v.req, v.answers, w);
      UnansweredKeeps(v.calls, Start(v.req, v.answers), w);
    }
  }

  lemma {:induction false} UnansweredKeeps(n: nat, p: Pass, w: World)
    requires Recovery.Unanswered(p)
    ensures Run(n, p, w).1.osds == w.osds
    decreases n
  {
    if n > 0 && !p.Done? {
      RunStep(n, p, w);
      UnansweredKeeps(n - 1, Step(p, w).0, Step(p, w).1);
    }
  }

  // -------------------------------------------------------------- many passes

  /** One pass fixes at most one image of its own node and none of another. */
  lemma VisitFixesOneOf(v: Visit, w: World, plan: Plan, b: string)
    requires WellFormed(plan) && Ready(w, plan) && Faithful(v, plan)
    ensures |WrongOf(w.osds, plan, b)| <= |WrongOf(VisitEnd(v, w).1.osds, plan, b)| + if v.req == b then 1 else 0
  {
    var (p, w') := VisitEnd(v, w);
    var ms := VisitRefines(v, w, plan);
    PassIsSafe(v.calls, v.req, v.answers, w);
    var fixed := if v.req == b && p.Done? && p.outcome.Updated? then {p.outcome.name} else {};
    WrongOfButFixed(w.osds, ms, plan, {v.req}, w'.osds, b, fixed);
    SubsetIsSmaller(WrongOf(w.osds, plan, b), WrongOf(w'.osds, plan, b) + fixed);
  }

  lemma WrongOfButFixed(osds: OsdMap, ms: seq<Move>, plan: Plan, who: set<string>, end: OsdMap, b: string,
        fixed: set<string>)
    requires WellFormed(plan) && Plays(osds, ms, plan, who, end)
    requires forall k :: k in osds && osds[k].nodeName == b && k in end && end[k] != osds[k] ==> k in fixed
    ensures WrongOf(osds, plan, b) <= WrongOf(end, plan, b) + fixed
  {
    forall k | k in WrongOf(osds, plan, b) ensures k in WrongOf(end, plan, b) + fixed {
      LiveStays(osds, ms, plan, who, end, k);
    }
  }

  function VisitsOf(vs: seq<Visit>, b: string): nat {
    if vs == [] then 0 else (if vs[0].req == b then 1 else 0) + VisitsOf(vs[1..], b)
  }

  ghost predicate ListLast(vs: seq<Visit>, b: string, x: string) {
    forall i :: 0 <= i < |vs| && vs[i].req == b ==> IsLast(vs[i].answers.listing, x)
  }

  lemma StaleStays(v: Visit, w: World, plan: Plan, b: string, x: string)
    requires WellFormed(plan) && Ready(w, plan) && Faithful(v, plan)
    requires IsStale(w.osds, plan, x) && w.osds[x].nodeName == b
    requires v.req == b ==> IsLast(v.answers.listing, x) && WrongOf(w.osds, plan, b) != {}
    ensures var end := VisitEnd(v, w).1.osds; x in end && end[x] == w.osds[x]
  {
    PassIsSafe(v.calls, v.req, v.answers, w);
    if v.req == b {
      var y :| y in WrongOf(w.osds, plan, b);
      VisitSpares(v, w, plan, y, x);
    }
  }

  /** As long as a node has had no more passes than it had wrong images, a stale object that
      is always listed last is still there, and the node has not converged. */
  lemma {:induction false} StaleOutlastsUpdates(w: World, vs: seq<Visit>, plan: Plan, b: string, x: string)
    requires WellFormed(plan) && Ready(w, plan)
    requires forall i :: 0 <= i < |vs| ==> Faithful(vs[i], plan)
    requires IsStale(w.osds, plan, x) && w.osds[x].nodeName == b && ListLast(vs, b, x)
    requires VisitsOf(vs, b) <= |WrongOf(w.osds, plan, b)|
    ensures var end := Visits(w, vs).osds; x in end && end[x] == w.osds[x] && !Converged(end, plan, b)
    decreases |vs|
  {
    if vs != [] {
      var ms := VisitRefines(vs[0], w, plan);
      StaleStays(vs[0], w, plan, b, x);
      VisitFixesOneOf(vs[0], w, plan, b);
      StaleOutlastsUpdates(VisitEnd(vs[0], w).1, vs[1..], plan, b, x);
    }
  }

  // ----------------------------------------------------------- such passes exist

  lemma ListingEndingIn(osds: OsdMap, b: string, x: string) returns (items: seq<VitastorOSD>)
    requires KeyedOsds(osds) && x in osds && osds[x].nodeName == b
    ensures IsListing(items, osds, b) && IsLast(items, x)
  {
    var rest := ListingExists(osds - {x}, b);
    items := rest + [osds[x]];
    forall k | k in osds && osds[k].nodeName == b ensures osds[k] in items {
      assert k != x ==> k in osds - {x} && (osds - {x})[k] in rest;
    }
  }

  lemma {:induction false} PassesExist(w: World, plan: Plan, b: string, x: string, m: nat) returns (vs: seq<Visit>)
    requires WellFormed(plan) && Ready(w, plan) && b in plan
    requires IsStale(w.osds, plan, x) && w.osds[x].nodeName == b
    requires m <= |WrongOf(w.osds, plan, b)|
    ensures |vs| == m && CompletedVisits(w, vs, b) == m && VisitsOf(vs, b) == m && ListLast(vs, b, x)
    ensures forall i :: 0 <= i < |vs| ==> vs[i].req == b && Faithful(vs[i], plan)
    decreases m
  {
    if m == 0 {
      vs := [];
    } else {
      var listing := ListingEndingIn(w.osds, b, x);
      var v := CompletedVisitWith(w, plan, b, listing);
      var ms := VisitRefines(v, w, plan);
      StaleStays(v, w, plan, b, x);
      VisitFixesOneOf(v, w, plan, b);
      var rest := PassesExist(VisitEnd(v, w).1, plan, b, x, m - 1);
      vs := [v] + rest;
      assert vs[1..] == rest;
    }
  }

  // ------------------------------------------------------------- a state for every m

  function Part(i: nat): OSDPartition {
    OSDPartition("/dev/" + Itoa(i), i)
  }

  function OldOsd(i: nat): VitastorOSD {
    VitastorOSD(OsdName(i), "n", Part(i).dataDevice, i, "v1")
  }

  /** OSDs 0 to m-1 of node n, with the old image. */
  function OldOsds(m: nat): OsdMap {
    if m == 0 then map[] else OldOsds(m - 1)[OsdName(m - 1) := OldOsd(m - 1)]
  }

  const GONE := VitastorOSD("gone", "n", "/gone", 0, "v2")

  function PlanOf(m: nat): Plan {
    map["n" := Target("v2", seq(m, i requires 0 <= i < m => Part(i)))]
  }

  function WorldFor(m: nat): World {
    World(map["n" := VitastorNode("n", "n", "v2", NodeStatus(Nil, Nil, Nil))], OldOsds(m)["gone" := GONE],
          map[], map[], None, None, map[], map[], None, None, None)
  }

  lemma {:induction false} OldOsdAt(m: nat, i: nat)
    requires i < m
    ensures OsdName(i) in OldOsds(m) && OldOsds(m)[OsdName(i)] == OldOsd(i)
  {
    if i < m - 1 {
      OldOsdAt(m - 1, i);
      NamesAreDistinct(i, m - 1);
    }
  }

  lemma {:induction false} OldOsdOf(m: nat, k: string) returns (i: nat)
    requires k in OldOsds(m)
    ensures i < m && k == OsdName(i) && OldOsds(m)[k] == OldOsd(i)
  {
    if k == OsdName(m - 1) {
      i := m - 1;
    } else {
      i := OldOsdOf(m - 1, k);
    }
  }

  lemma NameIsNew(m: nat)
    ensures OsdName(m) !in OldOsds(m)
  {
    if OsdName(m) in OldOsds(m) {
      var i := OldOsdOf(m, OsdName(m));
      NamesAreDistinct(i, m);
    }
  }

  lemma OneMoreKey(osds: OsdMap, k: string, osd: VitastorOSD)
    requires k !in osds
    ensures |osds[k := osd].Keys| == |osds.Keys| + 1
  {
    assert osds[k := osd].Keys == osds.Keys + {k};
  }

  lemma {:induction false} OldOsdsCount(m: nat)
    ensures |OldOsds(m).Keys| == m
  {
    if m > 0 {
      OldOsdsCount(m - 1);
      NameIsNew(m - 1);
      OneMoreKey(OldOsds(m - 1), OsdName(m - 1), OldOsd(m - 1));
    }
  }

  lemma PlanIsWellFormed(m: nat)
    ensures WellFormed(PlanOf(m))
  {
    forall i, j | 0 <= i < m && 0 <= j < m && Part(i).dataDevice == Part(j).dataDevice ensures i == j {
      assert Part(i).dataDevice[5..] == Itoa(i) && Part(j).dataDevice[5..] == Itoa(j);
      NamesAreDistinct(i, j);
    }
  }

  lemma GoneIsStale(m: nat)
    ensures IsStale(WorldFor(m).osds, PlanOf(m), "gone")
  {
    var names := Paths(PlanOf(m)["n"].report);
    forall i | 0 <= i < |names| ensures names[i] != "/gone" {
      assert names[i][1] == 'd' && "/gone"[1] == 'g';
    }
    PaddedMembers(names, "/gone");
  }

  lemma OldIsWrong(m: nat, i: nat)
    requires i < m
    ensures var osds := WorldFor(m).osds;
      OsdName(i) in osds && osds[OsdName(i)] == OldOsd(i) && OsdName(i) in WrongOf(osds, PlanOf(m), "n")
  {
    OldOsdAt(m, i);
    assert OsdName(i)[0] == 'v' && "gone"[0] == 'g';
    LiveEntry(PlanOf(m), "n", i);
    assert "v1"[1] != "v2"[1];
  }

  lemma OldAreWrong(m: nat)
    ensures WrongOf(WorldFor(m).osds, PlanOf(m), "n") == OldOsds(m).Keys
    ensures |WrongOf(WorldFor(m).osds, PlanOf(m), "n")| == m
  {
    var wrong := WrongOf(WorldFor(m).osds, PlanOf(m), "n");
    OldOsdsCount(m);
    GoneIsStale(m);
    forall k | k in OldOsds(m).Keys ensures k in wrong {
      var i := OldOsdOf(m, k);
      OldIsWrong(m, i);
    }
    forall k | k in wrong ensures k in OldOsds(m).Keys {
      assert k != "gone";
    }
  }

  lemma NothingIsMissing(m: nat)
    ensures IsFree(WorldFor(m).osds, PlanOf(m), "n")
  {
    forall i ensures !IsMissing(WorldFor(m).osds, PlanOf(m), "n", i) {
      if IsEntry(PlanOf(m), "n", i) { OldIsWrong(m, i); }
    }
  }

  lemma WorldIsReady(m: nat)
    ensures Ready(WorldFor(m), PlanOf(m))
  {
    forall k | k in OldOsds(m) ensures OldOsds(m)[k].name == k {
      var i := OldOsdOf(m, k);
    }
  }

  /** For every m there is a node with m wrong images that finds all its names free, and m
      completed passes after which it has not converged. */
  lemma BoundIsExact(m: nat) returns (w: World, plan: Plan, b: string, vs: seq<Visit>)
    ensures WellFormed(plan) && Ready(w, plan) && b in plan && IsFree(w.osds, plan, b)
    ensures |WrongOf(w.osds, plan, b)| == m && CompletedVisits(w, vs, b) == m
    ensures forall i :: 0 <= i < |vs| ==> Faithful(vs[i], plan)
    ensures !Converged(Visits(w, vs).osds, plan, b)
  {
    w, plan, b := WorldFor(m), PlanOf(m), "n";
    PlanIsWellFormed(m);
    GoneIsStale(m);
    OldAreWrong(m);
    NothingIsMissing(m);
    WorldIsReady(m);
    vs := PassesExist(w, plan, b, "gone", m);
    StaleOutlastsUpdates(w, vs, plan, b, "gone");
  }
}
