/** One pass of the node controller as a machine that does one API call, one etcd call or
    one agent round trip a step. Stopping a run after n steps is a failed call, a crash or
    a moment at which another controller runs. */
module NodePass {
  import opened Placement
  import opened StatusLists
  import opened Naming
  import opened Api

  datatype AgentAnswer =
    | NoAgentPod
    | NoReply
    | Agent(disks: seq<string>, emptyDisks: seq<string>, osds: seq<OSDPartition>)

  /** What the environment answers during a pass: the labels of the Kubernetes node in map
      iteration order (None when the node is gone), the agent's report, and the order in
      which the VitastorOSDs are listed. */
  datatype Answers = Answers(labels: Option<seq<Label>>, agent: AgentAnswer, listing: seq<VitastorOSD>)

  datatype Context = Context(node: VitastorNode, answers: Answers) {
    /** Body decoding never fails a pass: what cannot be decoded is an empty report. */
    function Report(): seq<OSDPartition> {
      if answers.agent.Agent? then answers.agent.osds else []
    }
    function Listing(): seq<VitastorOSD> {
      answers.listing
    }
  }

  datatype Outcome =
    | Skipped                 // the VitastorNode or its Kubernetes node is gone
    | NoAgent
    | Failed
    | Panicked
    | Blocked(entry: nat)     // the name of a reported OSD is taken
    | Updated(name: string)   // one image changed; the rest waits for the next pass
    | Finished

  datatype Pass =
    | Start(req: string, answers: Answers)
    | ReadTree(c: Context)
    | WriteTree(c: Context, tree: Tree)
    | AskAgent(c: Context)
    | SaveStatus(c: Context)
    | ListOsds(c: Context)
    | Deploy(c: Context, i: nat)
    | ReadEntry(c: Context, i: nat)
    | WriteEntry(c: Context, i: nat, tree: Tree)
    | Sweep(c: Context, j: nat)
    | Done(outcome: Outcome)

  /** The pass ended by itself without an error: with all work done, or after an image
      update. */
  predicate EndsWell(p: Pass) {
    p.Done? && (p.outcome.Finished? || p.outcome.Updated?)
  }

  /** The pass ended by itself without an error other than a taken name. */
  predicate EndsComplete(p: Pass) {
    EndsWell(p) || (p.Done? && p.outcome.Blocked?)
  }

  function Paths(report: seq<OSDPartition>): seq<string> {
    seq(|report|, i requires 0 <= i < |report| => report[i].dataDevice)
  }

  predicate HasPath(items: seq<VitastorOSD>, path: string) {
    exists i :: 0 <= i < |items| && items[i].path == path
  }

  /** The path is searched in the padded list, so an empty path counts as reported
      whenever anything is. */
  predicate IsLive(report: seq<OSDPartition>, path: string) {
    path in Padded(Paths(report))
  }

  function NewOsd(node: VitastorNode, part: OSDPartition): VitastorOSD {
    VitastorOSD(OsdName(part.osdNumber), node.nodeName, part.dataDevice, part.osdNumber, node.image)
  }

  function Refresh(stored: GoList, names: seq<string>): GoList {
    if CompareArrays(Items(Padded(names)), stored) then stored else Items(Padded(names))
  }

  function NewStatus(c: Context): NodeStatus {
    match c.answers.agent
    case Agent(disks, emptyDisks, osds) =>
      NodeStatus(Refresh(c.node.status.disks, disks),
                 Refresh(c.node.status.emptyDisks, emptyDisks),
                 Refresh(c.node.status.vitastorDisks, Paths(osds)))
    case _ => c.node.status
  }

  predicate StatusIsCurrent(c: Context) {
    match c.answers.agent
    case Agent(disks, emptyDisks, osds) =>
      && CompareArrays(Items(Padded(disks)), c.node.status.disks)
      && CompareArrays(Items(Padded(emptyDisks)), c.node.status.emptyDisks)
      && CompareArrays(Items(Padded(Paths(osds))), c.node.status.vitastorDisks)
    case _ => true
  }

  function TreeOf(w: World): Tree {
    if w.tree.Some? then w.tree.value else map[]
  }

  function Step(p: Pass, w: World): (Pass, World)
    requires !p.Done?
  {
    match p
    case Start(req, answers) =>
      if req !in w.nodes || answers.labels.None? then (Done(Skipped), w)
      else (ReadTree(Context(w.nodes[req], answers)), w)
    case ReadTree(c) =>
      if c.answers.labels.None? then (Done(Skipped), w)
      else
        (match HostTree(TreeOf(w), c.node.name, c.answers.labels.value)
         case None => (Done(Panicked), w)
         case Some(t) => (WriteTree(c, t), w))
    case WriteTree(c, t) => (AskAgent(c), w.(tree := Some(t)))
    case AskAgent(c) =>
      (match c.answers.agent
       case NoAgentPod => (Done(NoAgent), w)
       case NoReply => (Done(Failed), w)
       case Agent(_, _, _) => (if StatusIsCurrent(c) then ListOsds(c) else SaveStatus(c), w))
    case SaveStatus(c) =>
      // an update is refused when the object has changed since it was read
      if c.node.name in w.nodes && w.nodes[c.node.name] == c.node then
        (ListOsds(c), w.(nodes := w.nodes[c.node.name := c.node.(status := NewStatus(c))]))
      else (Done(Failed), w)
    case ListOsds(c) =>
      (if IsListing(c.Listing(), w.osds, c.node.name) then Deploy(c, 0) else Done(Failed), w)
    case Deploy(c, i) => DeployStep(c, i, w)
    case ReadEntry(c, i) =>
      if w.tree.None? || i >= |c.Report()| then (Done(Panicked), w)
      else (WriteEntry(c, i, WithOsd(w.tree.value, Itoa(c.Report()[i].osdNumber), c.node.nodeName)), w)
    case WriteEntry(c, i, t) => (Deploy(c, i + 1), w.(tree := Some(t)))
    case Sweep(c, j) => SweepStep(c, j, w)
  }

  /** Creates, for the i-th reported partition, what the listing does not show. */
  function DeployStep(c: Context, i: nat, w: World): (Pass, World) {
    if i >= |c.Report()| then (Sweep(c, 0), w)
    else if HasPath(c.Listing(), c.Report()[i].dataDevice) then (ReadEntry(c, i), w)
    else
      var osd := NewOsd(c.node, c.Report()[i]);
      if osd.name in w.osds then (Done(Blocked(i)), w)
      else (ReadEntry(c, i), w.(osds := w.osds[osd.name := osd]))
  }

  /** Updates or deletes the j-th listed object. */
  function SweepStep(c: Context, j: nat, w: World): (Pass, World) {
    if j >= |c.Listing()| then (Done(Finished), w)
    else
      var osd := c.Listing()[j];
      if IsLive(c.Report(), osd.path) then
        if osd.image == c.node.image then (Sweep(c, j + 1), w)
        else if osd.name in w.osds && w.osds[osd.name] == osd then
          (Done(Updated(osd.name)), w.(osds := w.osds[osd.name := osd.(image := c.node.image)]))
        else (Done(Failed), w)
      else if osd.name in w.osds then (Sweep(c, j + 1), w.(osds := w.osds - {osd.name}))
      else (Done(Failed), w)
  }

  /** The first n steps of a pass, or all of them if it is over sooner. */
  function Run(n: nat, p: Pass, w: World): (Pass, World) {
    if n == 0 || p.Done? then (p, w)
    else
      var (p', w') := Step(p, w);
      Run(n - 1, p', w')
  }

  // ---------------------------------------------------------------- basic facts

  /** An upper bound on the steps a pass still takes. */
  function StepsLeft(p: Pass): nat {
    match p
    case Start(_, answers) =>
      var parts := if answers.agent.Agent? then |answers.agent.osds| else 0;
      8 + 3 * parts + |answers.listing|
    case ReadTree(c) => 7 + LoopSteps(c, 0)
    case WriteTree(c, _) => 6 + LoopSteps(c, 0)
    case AskAgent(c) => 5 + LoopSteps(c, 0)
    case SaveStatus(c) => 4 + LoopSteps(c, 0)
    case ListOsds(c) => 3 + LoopSteps(c, 0)
    case Deploy(c, i) => 2 + LoopSteps(c, i)
    case ReadEntry(c, i) => 1 + LoopSteps(c, i)
    case WriteEntry(c, i, _) => if i < |c.Report()| then LoopSteps(c, i) else 3 + |c.Listing()|
    case Sweep(c, j) => if j <= |c.Listing()| then 1 + |c.Listing()| - j else 1
    case Done(_) => 0
  }

  function LoopSteps(c: Context, i: nat): nat {
    |c.Listing()| + if i <= |c.Report()| then 3 * (|c.Report()| - i) else 0
  }

  lemma LoopStepCounts(p: Pass, w: World)
    requires p.Deploy? || p.ReadEntry? || p.WriteEntry? || p.Sweep?
    ensures StepsLeft(Step(p, w).0) < StepsLeft(p)
  {
    match p
    case Deploy(c, i) =>
      var q := DeployStep(c, i, w).0;
      assert q.Done? || q == Sweep(c, 0) || (i < |c.Report()| && q == ReadEntry(c, i));
    case Sweep(c, j) =>
      var q := SweepStep(c, j, w).0;
      assert q.Done? || (j < |c.Listing()| && q == Sweep(c, j + 1));
    case _ =>
  }

  lemma StepCounts(p: Pass, w: World)
    requires !p.Done?
    ensures StepsLeft(Step(p, w).0) < StepsLeft(p)
  {
    if p.Deploy? || p.ReadEntry? || p.WriteEntry? || p.Sweep? {
      LoopStepCounts(p, w);
    }
  }

  lemma RunStep(n: nat, p: Pass, w: World)
    requires n > 0 && !p.Done?
    ensures Run(n, p, w) == Run(n - 1, Step(p, w).0, Step(p, w).1)
  {
  }

  /** Every pass is over after a number of steps known from its answers. */
  lemma {:induction false} PassEnds(n: nat, p: Pass, w: World)
    requires n >= StepsLeft(p)
    ensures Run(n, p, w).0.Done?
    decreases n
  {
    if n > 0 && !p.Done? {
      StepCounts(p, w);
      PassEnds(n - 1, Step(p, w).0, Step(p, w).1);
    }
  }

  lemma RunRests(n: nat, p: Pass, w: World)
    requires n == 0 || p.Done?
    ensures Run(n, p, w) == (p, w)
  {
  }

  lemma {:induction false} RunSplits(m: nat, n: nat, p: Pass, w: World)
    ensures var (q, v) := Run(m, p, w); Run(m + n, p, w) == Run(n, q, v)
    decreases m
  {
    if m == 0 {
      RunRests(m, p, w);
    } else if p.Done? {
      RunRests(m, p, w);
      RunRests(n, p, w);
      RunRests(m + n, p, w);
    } else {
      RunStep(m, p, w);
      RunStep(m + n, p, w);
      RunSplits(m - 1, n, Step(p, w).0, Step(p, w).1);
    }
  }

  /** A status write happens exactly when some stored list was never set or differs from
      the report as a multiset of names. Listed names may be any strings. */
  lemma StatusWriteOnChange(c: Context)
    requires c.answers.agent.Agent?
    ensures var s, a := c.node.status, c.answers.agent;
      StatusIsCurrent(c) <==>
        && s.disks.Items? && multiset(s.disks.items) == multiset(Padded(a.disks))
        && s.emptyDisks.Items? && multiset(s.emptyDisks.items) == multiset(Padded(a.emptyDisks))
        && s.vitastorDisks.Items? && multiset(s.vitastorDisks.items) == multiset(Padded(Paths(a.osds)))
    ensures StatusIsCurrent(c) <==> NewStatus(c) == c.node.status
  {
    var s, a := c.node.status, c.answers.agent;
    CompareIsMultisetEquality(Items(Padded(a.disks)), s.disks);
    CompareIsMultisetEquality(Items(Padded(a.emptyDisks)), s.emptyDisks);
    CompareIsMultisetEquality(Items(Padded(Paths(a.osds))), s.vitastorDisks);
  }

  /** A status the controller wrote itself is current exactly as long as the report's
      three lists keep their names. */
  lemma WrittenStatusIsCurrent(c: Context, d: Context)
    requires c.answers.agent.Agent? && d.answers.agent.Agent? && d.node.status == NewStatus(c)
    ensures var a, b := c.answers.agent, d.answers.agent;
      StatusIsCurrent(d) <==>
        && multiset(a.disks) == multiset(b.disks)
        && multiset(a.emptyDisks) == multiset(b.emptyDisks)
        && multiset(Paths(a.osds)) == multiset(Paths(b.osds))
  {
    var a, b := c.answers.agent, d.answers.agent;
    RefreshedIsCurrent(c.node.status.disks, a.disks, b.disks);
    RefreshedIsCurrent(c.node.status.emptyDisks, a.emptyDisks, b.emptyDisks);
    RefreshedIsCurrent(c.node.status.vitastorDisks, Paths(a.osds), Paths(b.osds));
  }

  lemma RefreshedIsCurrent(stored: GoList, old_: seq<string>, new_: seq<string>)
    ensures CompareArrays(Items(Padded(new_)), Refresh(stored, old_)) <==> multiset(old_) == multiset(new_)
  {
    CompareIsMultisetEquality(Items(Padded(old_)), stored);
    CompareIsMultisetEquality(Items(Padded(new_)), Refresh(stored, old_));
    CompareIsMultisetEquality(Items(Padded(new_)), Items(Padded(old_)));
    PaddingIsHarmless(new_, old_);
  }
}
