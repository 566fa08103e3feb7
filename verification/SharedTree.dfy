/** The placement map in every reachable state of the whole operator. */
module SharedTree {
  import opened Placement
  import opened Forest
  import opened Naming
  import opened Api
  import opened NodePass
  import opened Operator
  import C = ClusterController

  /** Which names are nodes, which are datacenters and which are numbers. */
  datatype Roles = Roles(hosts: iset<string>, dcs: iset<string>, numbers: iset<string>)

  /** Node names, datacenter names and decimal numbers do not overlap. */
  ghost predicate Separate(r: Roles) {
    r.hosts !! r.dcs && r.hosts !! r.numbers && r.dcs !! r.numbers && forall n :: Itoa(n) in r.numbers
  }

  /** The names can be told apart exactly if no name is both a node's and a datacenter's and
      none is written as an OSD number is. */
  lemma SeparateIff(hosts: iset<string>, dcs: iset<string>)
    ensures (exists numbers :: Separate(Roles(hosts, dcs, numbers)))
      <==> hosts !! dcs && forall k :: k in hosts || k in dcs ==> !IsCanonical(k)
  {
    if numbers :| Separate(Roles(hosts, dcs, numbers)) {
      forall k | k in hosts || k in dcs ensures !IsCanonical(k) {
        NumeralIffCanonical(k);
      }
    }
    if hosts !! dcs && forall k :: k in hosts || k in dcs ==> !IsCanonical(k) {
      var numbers := iset k: string | IsCanonical(k);
      forall n ensures Itoa(n) in numbers {
        ItoaIsCanonical(n);
      }
      assert Separate(Roles(hosts, dcs, numbers));
    }
  }

  ghost predicate LevelFits(k: string, e: Entry, r: Roles) {
    && (k in r.hosts ==> e.level == "host")
    && (k in r.dcs ==> e.level == "dc")
    && (k in r.numbers ==> e.level == "osd")
  }

  ghost predicate TreeOk(t: Tree, levels: Levels, r: Roles) {
    IsForest(t, levels) && forall k :: k in t ==> LevelFits(k, t[k], r)
  }

  /** No key is lost, and no datacenter entry is altered, whoever set its parent. */
  ghost predicate Grows(t: Tree, t': Tree, r: Roles) {
    forall k :: k in t ==> k in t' && (k in r.dcs ==> t'[k] == t[k])
  }

  ghost predicate LabelsOk(answers: Answers, r: Roles) {
    answers.labels.Some? ==> forall d :: d in Domains(answers.labels.value) ==> d in r.dcs
  }

  ghost predicate ContextOk(c: Context, r: Roles) {
    c.node.name in r.hosts && c.node.nodeName == c.node.name && LabelsOk(c.answers, r)
  }

  /** What holds while a pass is at p: it only ever puts a map that is in order and that
      extends the stored one, and its own host is there once it was written. */
  ghost predicate NodeOk(p: Pass, w: World, levels: Levels, r: Roles) {
    match p
    case Start(_, answers) => LabelsOk(answers, r)
    case ReadTree(c) => ContextOk(c, r)
    case WriteTree(c, t) => ContextOk(c, r) && PutOk(t, w, c, levels, r)
    case WriteEntry(c, _, t) => ContextOk(c, r) && HostIn(w, c) && PutOk(t, w, c, levels, r)
    case AskAgent(c) => ContextOk(c, r) && HostIn(w, c)
    case SaveStatus(c) => ContextOk(c, r) && HostIn(w, c)
    case ListOsds(c) => ContextOk(c, r) && HostIn(w, c)
    case Deploy(c, _) => ContextOk(c, r) && HostIn(w, c)
    case ReadEntry(c, _) => ContextOk(c, r) && HostIn(w, c)
    case Sweep(c, _) => ContextOk(c, r) && HostIn(w, c)
    case Done(_) => true
  }

  ghost predicate HostIn(w: World, c: Context) {
    w.tree.Some? && c.node.name in w.tree.value
  }

  ghost predicate PutOk(t: Tree, w: World, c: Context, levels: Levels, r: Roles) {
    TreeOk(t, levels, r) && Grows(TreeOf(w), t, r) && c.node.name in t
  }

  ghost predicate NodesOk(nodes: map<string, VitastorNode>, r: Roles) {
    NamedAlike(nodes) && forall k :: k in nodes ==> k in r.hosts
  }

  ghost predicate PodsOk(pods: seq<C.Pod>, r: Roles) {
    forall i :: 0 <= i < |pods| ==> pods[i].nodeName == "" || pods[i].nodeName in r.hosts
  }

  function PodsOf(p: C.Pass): seq<C.Pod> {
    match p
    case CreateMonitor(_) => []
    case CreateAgent(_) => []
    case Done(_) => []
    case _ => p.pods
  }

  ghost predicate SystemOk(s: System, levels: Levels, r: Roles) {
    && TreeOk(TreeOf(s.w), levels, r)
    && NodeOk(s.node, s.w, levels, r)
    && NodesOk(s.w.nodes, r)
    && PodsOk(PodsOf(s.cluster), r)
  }

  /** The environment keeps the three kinds of name apart. */
  ghost predicate EventOk(e: Event, r: Roles) {
    match e
    case NodeBegin(_, answers) => LabelsOk(answers, r)
    case ClusterBegin(_, pods) => PodsOk(pods, r)
    case Edit(after) => NodesOk(after.nodes, r)
    case _ => true
  }

  lemma HostWriteIsOk(t: Tree, c: Context, levels: Levels, r: Roles)
    requires Extends(levels) && Separate(r) && TreeOk(t, levels, r) && ContextOk(c, r) && c.answers.labels.Some?
    ensures var t' := WithHost(t, c.node.name, Domains(c.answers.labels.value));
      TreeOk(t', levels, r) && Grows(t, t', r) && c.node.name in t'
  {
    var host, ds := c.node.name, Domains(c.answers.labels.value);
    var t' := WithHost(t, host, ds);
    assert HostFits(t, levels, host, ds) by {
      forall k | k in t && k != host && host != "" && t[k].parent == host
        ensures t[k].level in levels && levels["host"] < levels[t[k].level]
      {
        assert Fits(t, levels, t[k]) && LevelFits(host, t[host], r);
      }
      var parent := HostEntry(ds).parent;
      assert parent in t && parent in r.dcs ==> LevelFits(parent, t[parent], r);
    }
    HostWriteKeepsForest(t, levels, host, ds);
    forall k | k in t' ensures LevelFits(k, t'[k], r) {
      if k in t { assert LevelFits(k, t[k], r); }
    }
  }

  lemma OsdWriteIsOk(t: Tree, c: Context, n: int, levels: Levels, r: Roles)
    requires Extends(levels) && Separate(r) && TreeOk(t, levels, r) && ContextOk(c, r) && c.node.name in t
    ensures var t' := WithOsd(t, Itoa(n), c.node.nodeName);
      TreeOk(t', levels, r) && Grows(t, t', r) && c.node.name in t'
  {
    var key, host := Itoa(n), c.node.name;
    var t' := WithOsd(t, key, host);
    assert key in r.numbers && LevelFits(host, t[host], r);
    forall k | k in t && k != key && key != "" && t[k].parent == key
      ensures t[k].level in levels && levels["osd"] < levels[t[k].level]
    {
      assert Fits(t, levels, t[k]) && LevelFits(key, t[key], r);
    }
    assert Fits(t, levels, t[host]);
    OsdWriteKeepsForest(t, levels, key, host);
    forall k | k in t' ensures LevelFits(k, t'[k], r) {
      if k != key { assert LevelFits(k, t[k], r); }
    }
  }

  lemma LoopStepOk(p: Pass, w: World, levels: Levels, r: Roles)
    requires p.Deploy? || p.Sweep?
    requires TreeOk(TreeOf(w), levels, r) && NodeOk(p, w, levels, r)
    ensures var (p', w') := Step(p, w); w'.tree == w.tree && NodeOk(p', w', levels, r)
  {
    var (p', w') := Step(p, w);
    assert w'.tree == w.tree && (p'.Done? || p'.c == p.c);
  }

  lemma ReadTreeOk(c: Context, w: World, levels: Levels, r: Roles)
    requires Extends(levels) && Separate(r)
    requires TreeOk(TreeOf(w), levels, r) && ContextOk(c, r)
    ensures var (p', w') := Step(ReadTree(c), w); w' == w && NodeOk(p', w, levels, r)
  {
    if c.answers.labels.Some? {
      HostWriteIsOk(TreeOf(w), c, levels, r);
    }
  }

  lemma ReadEntryOk(c: Context, i: nat, w: World, levels: Levels, r: Roles)
    requires Extends(levels) && Separate(r)
    requires TreeOk(TreeOf(w), levels, r) && ContextOk(c, r) && HostIn(w, c)
    ensures var (p', w') := Step(ReadEntry(c, i), w); w' == w && NodeOk(p', w, levels, r)
  {
    if i < |c.Report()| {
      OsdWriteIsOk(TreeOf(w), c, c.Report()[i].osdNumber, levels, r);
    }
  }

  lemma PutIsOk(p: Pass, w: World, levels: Levels, r: Roles)
    requires p.WriteTree? || p.WriteEntry?
    requires NodeOk(p, w, levels, r)
    ensures var (p', w') := Step(p, w);
      TreeOk(TreeOf(w'), levels, r) && NodeOk(p', w', levels, r) && Grows(TreeOf(w), TreeOf(w'), r)
  {
    assert TreeOf(Step(p, w).1) == p.tree;
  }

  lemma HeadStepOk(p: Pass, w: World, levels: Levels, r: Roles)
    requires p.Start? || p.AskAgent? || p.SaveStatus? || p.ListOsds?
    requires NodeOk(p, w, levels, r) && NodesOk(w.nodes, r)
    ensures var (p', w') := Step(p, w); w'.tree == w.tree && NodeOk(p', w', levels, r)
  {
  }

  lemma NodeStepOk(p: Pass, w: World, levels: Levels, r: Roles)
    requires Extends(levels) && Separate(r) && !p.Done?
    requires TreeOk(TreeOf(w), levels, r) && NodeOk(p, w, levels, r) && NodesOk(w.nodes, r)
    ensures var (p', w') := Step(p, w);
      TreeOk(TreeOf(w'), levels, r) && NodeOk(p', w', levels, r) && Grows(TreeOf(w), TreeOf(w'), r)
  {
    match p
    case ReadTree(c) => ReadTreeOk(c, w, levels, r);
    case ReadEntry(c, i) => ReadEntryOk(c, i, w, levels, r);
    case WriteTree(_, _) => PutIsOk(p, w, levels, r);
    case WriteEntry(_, _, _) => PutIsOk(p, w, levels, r);
    case Deploy(_, _) => LoopStepOk(p, w, levels, r);
    case Sweep(_, _) => LoopStepOk(p, w, levels, r);
    case _ => HeadStepOk(p, w, levels, r);
  }

  lemma NodeStepKeepsNodes(p: Pass, w: World, r: Roles)
    requires !p.Done? && NodesOk(w.nodes, r)
    ensures NodesOk(Step(p, w).1.nodes, r)
  {
  }

  lemma ClusterStepOk(p: C.Pass, w: World, r: Roles)
    requires !p.Done? && NodesOk(w.nodes, r) && PodsOk(PodsOf(p), r)
    ensures NodesOk(C.Step(p, w).1.nodes, r) && PodsOk(PodsOf(C.Step(p, w).0), r)
  {
  }

  lemma {:induction false} StepIsOk(e: Event, s: System, levels: Levels, r: Roles)
    requires Extends(levels) && Separate(r) && SystemOk(s, levels, r) && EventOk(e, r)
    ensures SystemOk(Next(e, s), levels, r) && Grows(TreeOf(s.w), TreeOf(Next(e, s).w), r)
  {
    OsdAndPoolFrame(s.osd, s.pool, s.w);
    if e.NodeStep? && !s.node.Done? {
      NodeStepOk(s.node, s.w, levels, r);
      NodeStepKeepsNodes(s.node, s.w, r);
    } else if e.ClusterStep? && !s.cluster.Done? {
      ClusterStepOk(s.cluster, s.w, r);
      ClusterFrame(s.cluster, s.w);
    } else {
      var s' := Next(e, s);
      assert s'.w.tree == s.w.tree;
      assert NodeOk(s'.node, s'.w, levels, r);
    }
  }

  /** In every reachable state of the interleaved operator, for any number of nodes and
      passes cut anywhere, the map is a forest whose levels ascend from child to parent; no
      key is ever lost and no datacenter entry ever altered. */
  lemma {:induction false} TreeIsAlwaysAForest(es: seq<Event>, s: System, levels: Levels, r: Roles)
    requires Extends(levels) && Separate(r) && SystemOk(s, levels, r)
    requires forall i :: 0 <= i < |es| ==> EventOk(es[i], r)
    ensures SystemOk(RunEvents(es, s), levels, r)
    ensures IsForest(TreeOf(RunEvents(es, s).w), levels)
    ensures Grows(TreeOf(s.w), TreeOf(RunEvents(es, s).w), r)
    decreases |es|
  {
    if es != [] {
      StepIsOk(es[0], s, levels, r);
      TreeIsAlwaysAForest(es[1..], Next(es[0], s), levels, r);
    }
  }

  /** Seen from the start with no map yet, and with the operator's own level table: no walk
      up the tree ever visits more than three entries, so none goes round in a circle. */
  lemma {:induction false} ReachableTreesAreShallow(es: seq<Event>, s: System, r: Roles, ks: seq<string>)
    requires Separate(r) && s == Idle(s.w) && s.w.tree.None? && NodesOk(s.w.nodes, r)
    requires forall i :: 0 <= i < |es| ==> EventOk(es[i], r)
    requires IsClimb(TreeOf(RunEvents(es, s).w), ks)
    ensures |ks| <= 3
  {
    TreeIsAlwaysAForest(es, s, LEVELS, r);
    ForestIsShallow(TreeOf(RunEvents(es, s).w), ks);
  }
}
