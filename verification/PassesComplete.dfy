/** In every state, and for every planned node, there is a pass that completes: the
    theorems about completed passes and fair rounds are about something. */
module PassesComplete {
  import opened Placement
  import opened Api
  import opened NodePass
  import opened OsdPlan
  import opened NodeProgress
  import opened NodeRuns

  /** The calls ahead of a pass at p will succeed. */
  ghost predicate Healthy(p: Pass, w: World, c: Context) {
    && c.answers.agent.Agent?
    && match p
       case AskAgent(d) => d == c && Stored(w, c) && w.tree.Some? && IsListing(c.Listing(), w.osds, c.node.name)
       case SaveStatus(d) => d == c && Stored(w, c) && w.tree.Some? && IsListing(c.Listing(), w.osds, c.node.name)
       case ListOsds(d) => d == c && w.tree.Some? && IsListing(c.Listing(), w.osds, c.node.name)
       case Deploy(d, _) => d == c && w.tree.Some?
       case ReadEntry(d, i) => d == c && w.tree.Some? && i < |c.Report()|
       case WriteEntry(d, _, _) => d == c && w.tree.Some?
       case Sweep(d, j) => d == c && (forall i :: j <= i < |c.Listing()| ==> Own(w.osds, c, c.Listing()[i].name))
       case Done(o) => o.Finished? || o.Updated? || o.Blocked?
       case _ => false
  }

  ghost predicate Stored(w: World, c: Context) {
    c.node.name in w.nodes && w.nodes[c.node.name] == c.node
  }

  lemma StepStaysHealthy(p: Pass, w: World, c: Context, plan: Plan)
    requires !p.Done? && Healthy(p, w, c) && InPass(p, w.osds, c, plan)
    ensures Healthy(Step(p, w).0, Step(p, w).1, c)
  {
    match p
    case Deploy(_, i) =>
      var (p', w') := DeployStep(c, i, w);
      assert w'.tree == w.tree;
    case Sweep(_, j) =>
      assert Remaining(w.osds, c, j);
    case _ =>
  }

  lemma {:induction false} RunStaysHealthy(n: nat, p: Pass, w: World, c: Context, plan: Plan)
    requires WellFormed(plan) && Healthy(p, w, c) && InPass(p, w.osds, c, plan)
    ensures Healthy(Run(n, p, w).0, Run(n, p, w).1, c)
    decreases n
  {
    if n > 0 && !p.Done? {
      StepStaysHealthy(p, w, c, plan);
      StepRefines(p, w, c, plan);
      RunStaysHealthy(n - 1, Step(p, w).0, Step(p, w).1, c, plan);
    }
  }

  lemma {:induction false} Enumerate(names: set<string>) returns (s: seq<string>)
    ensures forall k :: k in names <==> k in s
    ensures forall i, j :: 0 <= i < j < |s| ==> s[i] != s[j]
    decreases |names|
  {
    if names == {} {
      s := [];
    } else {
      var k :| k in names;
      var rest := Enumerate(names - {k});
      s := [k] + rest;
    }
  }

  lemma ListingExists(osds: OsdMap, node: string) returns (items: seq<VitastorOSD>)
    requires KeyedOsds(osds)
    ensures IsListing(items, osds, node)
  {
    var own := set k | k in osds && osds[k].nodeName == node;
    var names := Enumerate(own);
    assert forall i :: 0 <= i < |names| ==> names[i] in own;
    items := seq(|names|, i requires 0 <= i < |names| => osds[names[i]]);
    forall k | k in osds && osds[k].nodeName == node ensures osds[k] in items {
      assert k in own && k in names;
      var i :| 0 <= i < |names| && names[i] == k;
      assert items[i] == osds[k];
    }
  }

  /** A planned node always has a faithful pass that completes. */
  lemma CompletedVisitExists(w: World, plan: Plan, b: string) returns (v: Visit)
    requires WellFormed(plan) && Ready(w, plan) && b in plan
    ensures v.req == b && Faithful(v, plan) && Completed(v, w)
  {
    var listing := ListingExists(w.osds, b);
    v := CompletedVisitWith(w, plan, b, listing);
  }

  /** Also with any given order of the listing. */
  lemma CompletedVisitWith(w: World, plan: Plan, b: string, listing: seq<VitastorOSD>) returns (v: Visit)
    requires WellFormed(plan) && Ready(w, plan) && b in plan && IsListing(listing, w.osds, b)
    ensures v.req == b && Faithful(v, plan) && Completed(v, w) && v.answers.listing == listing
  {
    var answers := Answers(Some([]), Agent([], [], plan[b].report), listing);
    v := Visit(b, answers, 3 + StepsLeft(Start(b, answers)));
    var c := Context(w.nodes[b], answers);
    var t := HostTree(TreeOf(w), b, []).value;
    var w2 := w.(tree := Some(t));
    RunStep(v.calls, Start(b, answers), w);
    RunStep(v.calls - 1, ReadTree(c), w);
    RunStep(v.calls - 2, WriteTree(c, t), w);
    assert Run(v.calls, Start(b, answers), w) == Run(v.calls - 3, AskAgent(c), w2);
    assert StepsLeft(AskAgent(c)) <= v.calls - 3;
    PassEnds(v.calls - 3, AskAgent(c), w2);
    RunStaysHealthy(v.calls - 3, AskAgent(c), w2, c, plan);
  }
}
