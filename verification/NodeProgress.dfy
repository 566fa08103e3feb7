/** Passes of the node controller refine the moves of OsdPlan; from that, when and how
    fast repeated passes make the VitastorOSD objects agree with the agents' reports. */
module NodeProgress {
  import opened Placement
  import opened Naming
  import opened Api
  import opened NodePass
  import opened OsdPlan

  // -------------------------------------------------------------- what a pass knows

  /** The report and the image a pass works with are the planned ones. A node outside the
      plan has no answering agent. */
  ghost predicate Follows(c: Context, plan: Plan) {
    && c.node.nodeName == c.node.name
    && (c.answers.agent.Agent? ==>
          c.node.name in plan && plan[c.node.name] == Target(c.node.image, c.Report()))
  }

  ghost predicate Own(osds: OsdMap, c: Context, k: string) {
    k in osds && osds[k].nodeName == c.node.name
  }

  /** The create loop has dealt with the first n entries: each is covered, what the
      listing shows is still there, and the node has nothing else. */
  ghost predicate Deploying(osds: OsdMap, c: Context, plan: Plan, n: nat) {
    && c.answers.agent.Agent? && n <= |c.Report()|
    && KeyedOsds(osds)
    && Remaining(osds, c, 0)
    && (forall i :: 0 <= i < n ==> !IsMissing(osds, plan, c.node.name, i))
    && (forall k :: Own(osds, c, k) ==>
          osds[k] in c.Listing() || exists i :: 0 <= i < n && osds[k] == NewOsd(c.node, c.Report()[i]))
  }

  /** The listed objects from j on are stored as they were listed. */
  ghost predicate Remaining(osds: OsdMap, c: Context, j: nat) {
    && (forall i :: j <= i < |c.Listing()| ==>
          Own(osds, c, c.Listing()[i].name) && osds[c.Listing()[i].name] == c.Listing()[i])
    && (forall i, l :: j <= i < l < |c.Listing()| ==> c.Listing()[i].name != c.Listing()[l].name)
  }

  ghost predicate IsGood(osds: OsdMap, plan: Plan, k: string) {
    !IsWrong(osds, plan, k) && !IsStale(osds, plan, k)
  }

  /** The delete loop has dealt with the first j listed objects: all entries are covered,
      and every own object is good or still to be looked at. */
  ghost predicate Sweeping(osds: OsdMap, c: Context, plan: Plan, j: nat) {
    && c.answers.agent.Agent? && j <= |c.Listing()|
    && KeyedOsds(osds)
    && Remaining(osds, c, j)
    && (forall i :: !IsMissing(osds, plan, c.node.name, i))
    && (forall k :: Own(osds, c, k) ==> osds[k] in c.Listing()[j..] || IsGood(osds, plan, k))
  }

  ghost predicate InPass(p: Pass, osds: OsdMap, c: Context, plan: Plan) {
    && Follows(c, plan)
    && KeyedOsds(osds)
    && match p
       case Start(_, _) => false
       case ReadTree(d) => d == c
       case WriteTree(d, _) => d == c
       case AskAgent(d) => d == c
       case SaveStatus(d) => d == c && c.answers.agent.Agent?
       case ListOsds(d) => d == c && c.answers.agent.Agent?
       case Deploy(d, i) => d == c && Deploying(osds, c, plan, i)
       case ReadEntry(d, i) => d == c && Deploying(osds, c, plan, i + 1)
       case WriteEntry(d, i, _) => d == c && Deploying(osds, c, plan, i + 1)
       case Sweep(d, j) => d == c && Sweeping(osds, c, plan, j)
       case Done(Finished) => c.node.name in plan && Converged(osds, plan, c.node.name)
       case Done(Blocked(i)) =>
         IsMissing(osds, plan, c.node.name, i) && EntryName(plan, c.node.name, i) in osds
       case Done(Updated(k)) => Own(osds, c, k) && !IsWrong(osds, plan, k)
       case Done(_) => true
  }

  /** The object-changing move a step makes, if any. */
  function MoveOf(p: Pass, w: World): Option<Move> {
    match p
    case Deploy(c, i) =>
      if i < |c.Report()| && !HasPath(c.Listing(), c.Report()[i].dataDevice)
         && OsdName(c.Report()[i].osdNumber) !in w.osds
      then Some(Create(c.node.name, i)) else None
    case Sweep(c, j) =>
      if j >= |c.Listing()| then None
      else
        var osd := c.Listing()[j];
        if !IsLive(c.Report(), osd.path) then Some(Delete(osd.name))
        else if osd.image != c.node.image then Some(Update(osd.name)) else None
    case _ => None
  }

  ghost predicate StepIs(osds: OsdMap, move: Option<Move>, plan: Plan, b: string, end: OsdMap) {
    match move
    case None => end == osds
    case Some(m) => Enabled(m, osds, plan) && Mover(m, osds, plan) == b && Apply(m, osds, plan) == end
  }

  lemma ListedPathIsCovered(osds: OsdMap, c: Context, plan: Plan, i: nat)
    requires Follows(c, plan) && Deploying(osds, c, plan, i) && i < |c.Report()|
    requires WellFormed(plan)
    ensures IsMissing(osds, plan, c.node.name, i) <==> !HasPath(c.Listing(), c.Report()[i].dataDevice)
  {
    var b, path := c.node.name, c.Report()[i].dataDevice;
    if HasPath(c.Listing(), path) {
      var j :| 0 <= j < |c.Listing()| && c.Listing()[j].path == path;
      assert Covered(osds, b, path) by { assert osds[c.Listing()[j].name].path == path; }
    } else {
      forall k | Own(osds, c, k) ensures osds[k].path != path {
        if osds[k] !in c.Listing() {
          var l :| 0 <= l < i && osds[k] == NewOsd(c.node, c.Report()[l]);
          assert plan[b].report[l].dataDevice != plan[b].report[i].dataDevice;
        }
      }
      assert forall k :: k in osds && osds[k].nodeName == b ==> Own(osds, c, k);
    }
  }

  /** The create loop is over: what the node has besides the listed objects is good. */
  lemma DeploysAreDone(osds: OsdMap, c: Context, plan: Plan)
    requires Follows(c, plan) && Deploying(osds, c, plan, |c.Report()|)
    ensures Sweeping(osds, c, plan, 0)
  {
    assert c.Listing()[0..] == c.Listing();
    forall k | Own(osds, c, k) && osds[k] !in c.Listing() ensures IsGood(osds, plan, k) {
      var l :| 0 <= l < |c.Report()| && osds[k] == NewOsd(c.node, c.Report()[l]);
      LiveEntry(plan, c.node.name, l);
    }
  }

  lemma CreateGoesOn(osds: OsdMap, c: Context, i: nat, plan: Plan)
    requires WellFormed(plan) && Follows(c, plan) && Deploying(osds, c, plan, i) && i < |c.Report()|
    requires Enabled(Create(c.node.name, i), osds, plan)
    ensures var osd := NewOsd(c.node, c.Report()[i]);
      osd == Fresh(plan, c.node.name, i) && Deploying(osds[osd.name := osd], c, plan, i + 1)
  {
    var b, osd := c.node.name, NewOsd(c.node, c.Report()[i]);
    var next := osds[osd.name := osd];
    assert osd == Fresh(plan, b, i) && next == Apply(Create(b, i), osds, plan);
    forall l | 0 <= l < i + 1 ensures !IsMissing(next, plan, b, l) {
      MissingAfter(Create(b, i), osds, plan, b, l);
    }
    forall k | Own(next, c, k)
      ensures next[k] in c.Listing() || exists l :: 0 <= l < i + 1 && next[k] == NewOsd(c.node, c.Report()[l])
    {
      if k != osd.name { assert Own(osds, c, k); }
    }
  }

  lemma DeployRefines(c: Context, i: nat, w: World, plan: Plan)
    requires WellFormed(plan) && InPass(Deploy(c, i), w.osds, c, plan)
    ensures var (p', w') := DeployStep(c, i, w);
      StepIs(w.osds, MoveOf(Deploy(c, i), w), plan, c.node.name, w'.osds) && InPass(p', w'.osds, c, plan)
  {
    if i == |c.Report()| {
      DeploysAreDone(w.osds, c, plan);
    } else {
      ListedPathIsCovered(w.osds, c, plan, i);
      if MoveOf(Deploy(c, i), w).Some? {
        CreateGoesOn(w.osds, c, i, plan);
      }
    }
  }

  /** The delete loop goes on past a good object, and past one it has deleted. */
  lemma SweptPast(osds: OsdMap, next: OsdMap, c: Context, plan: Plan, j: nat)
    requires Sweeping(osds, c, plan, j) && j < |c.Listing()|
    requires var k := c.Listing()[j].name; (next == osds && IsGood(osds, plan, k)) || next == osds - {k}
    requires forall i :: !IsMissing(next, plan, c.node.name, i)
    ensures Sweeping(next, c, plan, j + 1)
  {
    var S := c.Listing();
    assert S[j..] == [S[j]] + S[j + 1..];
    forall k | Own(next, c, k) ensures next[k] in S[j + 1..] || IsGood(next, plan, k) {
      assert Own(osds, c, k) && next[k] == osds[k];
    }
  }

  lemma SweepRefines(c: Context, j: nat, w: World, plan: Plan)
    requires WellFormed(plan) && InPass(Sweep(c, j), w.osds, c, plan)
    ensures var (p', w') := SweepStep(c, j, w);
      StepIs(w.osds, MoveOf(Sweep(c, j), w), plan, c.node.name, w'.osds) && InPass(p', w'.osds, c, plan)
  {
    var osds := w.osds;
    var (p', w') := SweepStep(c, j, w);
    if j < |c.Listing()| {
      var osd := c.Listing()[j];
      assert Own(osds, c, osd.name) && osds[osd.name] == osd;
      var move := MoveOf(Sweep(c, j), w);
      assert StepIs(osds, move, plan, c.node.name, w'.osds);
      if move.Some? {
        forall i ensures !IsMissing(w'.osds, plan, c.node.name, i) {
          MissingAfter(move.value, osds, plan, c.node.name, i);
        }
      }
      if p'.Sweep? {
        SweptPast(osds, w'.osds, c, plan, j);
      }
    }
  }

  /** Each step of a pass changes no object or makes one enabled move of its own node. */
  lemma {:induction false} StepRefines(p: Pass, w: World, c: Context, plan: Plan)
    requires WellFormed(plan) && !p.Done? && InPass(p, w.osds, c, plan)
    ensures var (p', w') := Step(p, w);
      StepIs(w.osds, MoveOf(p, w), plan, c.node.name, w'.osds) && InPass(p', w'.osds, c, plan)
  {
    match p
    case Deploy(_, i) => DeployRefines(c, i, w, plan);
    case Sweep(_, j) => SweepRefines(c, j, w, plan);
    case ListOsds(_) =>
      assert IsListing(c.Listing(), w.osds, c.node.name) ==> Deploying(w.osds, c, plan, 0);
    case _ =>
  }
}
