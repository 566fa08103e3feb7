/** What a pass of the node controller, whole or cut after any step, does to the stores:
    to other nodes' objects, to the shared placement map and to its own status. */
module NodeEffects {
  import opened Placement
  import opened Naming
  import opened Api
  import opened NodePass

  // ------------------------------------------------------------------ the tree

  function OsdKey(part: OSDPartition): string {
    Itoa(part.osdNumber)
  }

  /** The entries of a report put into a tree one after the other. */
  function WithOsds(t: Tree, host: string, parts: seq<OSDPartition>): Tree {
    if parts == [] then t
    else WithOsd(WithOsds(t, host, parts[..|parts| - 1]), OsdKey(parts[|parts| - 1]), host)
  }

  predicate HasKey(parts: seq<OSDPartition>, key: string) {
    exists i :: 0 <= i < |parts| && OsdKey(parts[i]) == key
  }

  /** Entry by entry: the sequence of writes is one merge. */
  lemma {:induction false} WithOsdsIsMerge(t: Tree, host: string, parts: seq<OSDPartition>, key: string)
    ensures var r := WithOsds(t, host, parts);
      && (key in r <==> key in t || HasKey(parts, key))
      && (key in r ==> r[key] == if HasKey(parts, key) then Entry("osd", host) else t[key])
  {
    if parts != [] {
      WithOsdsIsMerge(t, host, parts[..|parts| - 1], key);
      HasKeyOneMore(parts, key);
    }
  }

  lemma HasKeyOneMore(parts: seq<OSDPartition>, key: string)
    requires parts != []
    ensures HasKey(parts, key) <==> HasKey(parts[..|parts| - 1], key) || OsdKey(parts[|parts| - 1]) == key
  {
    var n := |parts| - 1;
    if HasKey(parts[..n], key) {
      var i :| 0 <= i < n && OsdKey(parts[..n][i]) == key;
      assert OsdKey(parts[i]) == key;
    }
    if HasKey(parts, key) && OsdKey(parts[n]) != key {
      var i :| 0 <= i < |parts| && OsdKey(parts[i]) == key;
      assert OsdKey(parts[..n][i]) == key;
    }
  }

  /** The tree once the host and the first n reported entries are written. */
  function Merged(t: Tree, c: Context, n: nat): Tree
    requires c.answers.labels.Some? && n <= |c.Report()|
  {
    WithOsds(WithHost(t, c.node.name, Domains(c.answers.labels.value)), c.node.nodeName, c.Report()[..n])
  }

  // --------------------------------------------------------- the VitastorOSD objects

  ghost predicate IsOwn(o: VitastorOSD, c: Context) {
    o.nodeName == c.node.name
  }

  /** From the objects before the pass to those after part of it: only own unreported
      objects are gone, only own reported ones have another image, and only reported
      partitions have new objects. */
  ghost predicate OsdEffects(before: OsdMap, after: OsdMap, c: Context) {
    && (forall k :: k in before && k !in after ==> IsOwn(before[k], c) && !IsLive(c.Report(), before[k].path))
    && (forall k :: k in before && k in after && before[k] != after[k] ==>
          IsOwn(before[k], c) && IsLive(c.Report(), before[k].path) && after[k] == before[k].(image := c.node.image))
    && (forall k :: k in after && k !in before ==> IsNew(after[k], c) && after[k].name == k)
  }

  ghost predicate IsNew(o: VitastorOSD, c: Context) {
    exists i :: 0 <= i < |c.Report()| && IsBuiltFor(o, c.node, c.Report()[i])
  }

  /** The object for a partition: named after its number, on the node that the VitastorNode
      names in its spec, with that one's image. */
  predicate IsBuiltFor(o: VitastorOSD, node: VitastorNode, part: OSDPartition) {
    && o.name == "vitastor-osd-" + Itoa(part.osdNumber) && o.number == part.osdNumber
    && o.nodeName == node.nodeName && o.path == part.dataDevice && o.image == node.image
  }

  // ------------------------------------------------- map and status along a pass

  function Saved(nodes: map<string, VitastorNode>, c: Context): map<string, VitastorNode> {
    if StatusIsCurrent(c) then nodes else nodes[c.node.name := c.node.(status := NewStatus(c))]
  }

  ghost predicate TreeAt(w: World, w0: World, c: Context, n: nat)
    requires c.answers.labels.Some?
  {
    n <= |c.Report()| && w.tree == Some(Merged(TreeOf(w0), c, n))
  }

  /** The map and the nodes' status when a pass that began in w0 is at p, in w. */
  ghost predicate Along(p: Pass, w: World, w0: World, c: Context) {
    && c.answers.labels.Some?
    && match p
       case Start(_, _) => false
       case ReadTree(d) => d == c && w.nodes == w0.nodes && w.tree == w0.tree
       case WriteTree(d, t) =>
         && d == c && w.nodes == w0.nodes && w.tree == w0.tree
         && HostTree(TreeOf(w0), c.node.name, c.answers.labels.value) == Some(t)
       case AskAgent(d) => d == c && w.nodes == w0.nodes && TreeAt(w, w0, c, 0)
       case SaveStatus(d) => d == c && w.nodes == w0.nodes && TreeAt(w, w0, c, 0) && !StatusIsCurrent(c)
       case ListOsds(d) => d == c && w.nodes == Saved(w0.nodes, c) && TreeAt(w, w0, c, 0)
       case Deploy(d, i) => d == c && w.nodes == Saved(w0.nodes, c) && TreeAt(w, w0, c, i)
       case ReadEntry(d, i) => d == c && w.nodes == Saved(w0.nodes, c) && TreeAt(w, w0, c, i) && i < |c.Report()|
       case WriteEntry(d, i, t) =>
         && d == c && w.nodes == Saved(w0.nodes, c) && TreeAt(w, w0, c, i)
         && i < |c.Report()| && t == Merged(TreeOf(w0), c, i + 1)
       case Sweep(d, _) => d == c && w.nodes == Saved(w0.nodes, c) && TreeAt(w, w0, c, |c.Report()|)
       case Done(o) =>
         && (w.tree == w0.tree || exists n :: TreeAt(w, w0, c, n))
         && (w.nodes == w0.nodes || w.nodes == Saved(w0.nodes, c))
         && (o.Finished? || o.Updated? ==> w.nodes == Saved(w0.nodes, c) && TreeAt(w, w0, c, |c.Report()|))
  }

  lemma MergedSteps(t: Tree, c: Context, n: nat)
    requires c.answers.labels.Some? && n <= |c.Report()|
    ensures Merged(t, c, 0) == WithHost(t, c.node.name, Domains(c.answers.labels.value))
    ensures n < |c.Report()| ==> Merged(t, c, n + 1) == WithOsd(Merged(t, c, n), OsdKey(c.Report()[n]), c.node.nodeName)
  {
    assert c.Report()[..0] == [];
    assert n < |c.Report()| ==> c.Report()[..n + 1][..n] == c.Report()[..n];
  }

  lemma HeadAlong(p: Pass, w: World, w0: World, c: Context)
    requires p.ReadTree? || p.WriteTree? || p.AskAgent? || p.SaveStatus? || p.ListOsds?
    requires Along(p, w, w0, c)
    ensures Along(Step(p, w).0, Step(p, w).1, w0, c)
  {
    MergedSteps(TreeOf(w0), c, 0);
  }

  lemma ReadEntryAlong(c: Context, i: nat, w: World, w0: World)
    requires Along(ReadEntry(c, i), w, w0, c)
    ensures var (p', w') := Step(ReadEntry(c, i), w); Along(p', w', w0, c)
  {
    var t := Merged(TreeOf(w0), c, i + 1);
    MergedSteps(TreeOf(w0), c, i);
    assert Step(ReadEntry(c, i), w) == (WriteEntry(c, i, t), w);
  }

  lemma WriteEntryAlong(c: Context, i: nat, t: Tree, w: World, w0: World)
    requires Along(WriteEntry(c, i, t), w, w0, c)
    ensures var (p', w') := Step(WriteEntry(c, i, t), w); Along(p', w', w0, c)
  {
    var (p', w') := Step(WriteEntry(c, i, t), w);
    assert p' == Deploy(c, i + 1) && w'.nodes == w.nodes && w'.tree == Some(t);
  }

  lemma DeployFrame(c: Context, i: nat, w: World)
    ensures DeployStep(c, i, w).1 == w.(osds := DeployStep(c, i, w).1.osds)
  {
  }

  lemma SweepFrame(c: Context, j: nat, w: World)
    ensures SweepStep(c, j, w).1 == w.(osds := SweepStep(c, j, w).1.osds)
  {
  }

  lemma DeployAlong(c: Context, i: nat, w: World, w0: World)
    requires Along(Deploy(c, i), w, w0, c)
    ensures Along(DeployStep(c, i, w).0, DeployStep(c, i, w).1, w0, c)
  {
    DeployFrame(c, i, w);
    var (p', w') := DeployStep(c, i, w);
    assert TreeAt(w', w0, c, i);
  }

  lemma SweepAlong(c: Context, j: nat, w: World, w0: World)
    requires Along(Sweep(c, j), w, w0, c)
    ensures Along(SweepStep(c, j, w).0, SweepStep(c, j, w).1, w0, c)
  {
    SweepFrame(c, j, w);
    var (p', w') := SweepStep(c, j, w);
    assert TreeAt(w', w0, c, |c.Report()|);
  }

  lemma StepAlong(p: Pass, w: World, w0: World, c: Context)
    requires !p.Done? && Along(p, w, w0, c)
    ensures Along(Step(p, w).0, Step(p, w).1, w0, c)
  {
    match p
    case Deploy(_, i) => DeployAlong(c, i, w, w0);
    case ReadEntry(_, i) => ReadEntryAlong(c, i, w, w0);
    case WriteEntry(_, i, t) => WriteEntryAlong(c, i, t, w, w0);
    case Sweep(_, j) => SweepAlong(c, j, w, w0);
    case _ => HeadAlong(p, w, w0, c);
  }

  lemma {:induction false} RunAlong(n: nat, p: Pass, w: World, w0: World, c: Context)
    requires Along(p, w, w0, c)
    ensures Along(Run(n, p, w).0, Run(n, p, w).1, w0, c)
    decreases n
  {
    if n > 0 && !p.Done? {
      StepAlong(p, w, w0, c);
      RunAlong(n - 1, Step(p, w).0, Step(p, w).1, w0, c);
    }
  }

  /** The stores the node controller does not write. */
  ghost predicate SameElsewhere(w: World, w': World) {
    && w'.sets == w.sets && w'.clusters == w.clusters && w'.monitor == w.monitor && w'.agent == w.agent
    && w'.pools == w.pools && w'.classes == w.classes && w'.levels == w.levels && w'.poolConfigs == w.poolConfigs
  }

  lemma StepFrame(p: Pass, w: World)
    requires !p.Done?
    ensures SameElsewhere(w, Step(p, w).1)
  {
    if p.Deploy? {
      DeployFrame(p.c, p.i, w);
    } else if p.Sweep? {
      SweepFrame(p.c, p.j, w);
    }
  }

  lemma {:induction false} RunFrame(n: nat, p: Pass, w: World)
    ensures SameElsewhere(w, Run(n, p, w).1)
    decreases n
  {
    if n > 0 && !p.Done? {
      StepFrame(p, w);
      RunFrame(n - 1, Step(p, w).0, Step(p, w).1);
    }
  }

  // ------------------------------------------------------- objects along a pass

  ghost predicate Unchanged(before: OsdMap, after: OsdMap) {
    forall k :: k in before ==> k in after && after[k] == before[k]
  }

  /** The objects when a pass that began with `before` is at p. */
  ghost predicate ObjectsAlong(p: Pass, after: OsdMap, before: OsdMap, c: Context) {
    && OsdEffects(before, after, c)
    && match p
       case Start(_, _) => false
       case ReadTree(d) => d == c && after == before
       case WriteTree(d, _) => d == c && after == before
       case AskAgent(d) => d == c && after == before
       case SaveStatus(d) => d == c && after == before
       case ListOsds(d) => d == c && after == before
       case Deploy(d, _) => d == c && IsListing(c.Listing(), before, c.node.name) && Unchanged(before, after)
       case ReadEntry(d, _) => d == c && IsListing(c.Listing(), before, c.node.name) && Unchanged(before, after)
       case WriteEntry(d, _, _) => d == c && IsListing(c.Listing(), before, c.node.name) && Unchanged(before, after)
       case Sweep(d, _) => d == c && IsListing(c.Listing(), before, c.node.name) && OneNewImage(before, after, None)
       case Done(Updated(k)) => OneNewImage(before, after, Some(k))
       case Done(_) => OneNewImage(before, after, None)
  }

  ghost predicate OneNewImage(before: OsdMap, after: OsdMap, name: Option<string>) {
    forall k :: k in before && k in after && after[k] != before[k] ==> name == Some(k)
  }

  ghost predicate KeepsNew(before: OsdMap, mid: OsdMap, after: OsdMap) {
    forall k :: k in mid && k !in before ==> k in after && after[k] == mid[k]
  }

  lemma DeployObjects(c: Context, i: nat, w: World, before: OsdMap)
    requires ObjectsAlong(Deploy(c, i), w.osds, before, c)
    ensures var (p', w') := DeployStep(c, i, w);
      ObjectsAlong(p', w'.osds, before, c) && KeepsNew(before, w.osds, w'.osds)
  {
    var (p', w') := DeployStep(c, i, w);
    if w'.osds != w.osds {
      var osd := NewOsd(c.node, c.Report()[i]);
      assert IsBuiltFor(osd, c.node, c.Report()[i]);
      assert IsNew(osd, c) && w'.osds == w.osds[osd.name := osd];
      assert OsdEffects(before, w'.osds, c);
    }
  }

  lemma UpdateEffect(before: OsdMap, after: OsdMap, c: Context, k: string)
    requires OsdEffects(before, after, c) && OneNewImage(before, after, None)
    requires k in before && k in after && IsOwn(before[k], c) && IsLive(c.Report(), before[k].path)
    ensures var next := after[k := before[k].(image := c.node.image)];
      OsdEffects(before, next, c) && OneNewImage(before, next, Some(k)) && KeepsNew(before, after, next)
  {
  }

  lemma DeleteEffect(before: OsdMap, after: OsdMap, c: Context, k: string)
    requires OsdEffects(before, after, c) && OneNewImage(before, after, None)
    requires k in before && IsOwn(before[k], c) && !IsLive(c.Report(), before[k].path)
    ensures var next := after - {k};
      OsdEffects(before, next, c) && OneNewImage(before, next, None) && KeepsNew(before, after, next)
  {
  }

  lemma SweepObjects(c: Context, j: nat, w: World, before: OsdMap)
    requires ObjectsAlong(Sweep(c, j), w.osds, before, c)
    ensures var (p', w') := SweepStep(c, j, w);
      ObjectsAlong(p', w'.osds, before, c) && KeepsNew(before, w.osds, w'.osds)
  {
    var (p', w') := SweepStep(c, j, w);
    if j < |c.Listing()| {
      var osd := c.Listing()[j];
      assert osd.name in before && before[osd.name] == osd && IsOwn(osd, c);
      if p' == Done(Updated(osd.name)) {
        UpdateEffect(before, w.osds, c, osd.name);
      } else if !IsLive(c.Report(), osd.path) {
        DeleteEffect(before, w.osds, c, osd.name);
      }
    }
  }

  lemma StepObjects(p: Pass, w: World, before: OsdMap, c: Context)
    requires !p.Done? && ObjectsAlong(p, w.osds, before, c)
    ensures var (p', w') := Step(p, w); ObjectsAlong(p', w'.osds, before, c) && KeepsNew(before, w.osds, w'.osds)
  {
    match p
    case Deploy(_, i) => DeployObjects(c, i, w, before);
    case Sweep(_, j) => SweepObjects(c, j, w, before);
    case _ =>
  }

  lemma {:induction false} RunObjects(n: nat, p: Pass, w: World, before: OsdMap, c: Context)
    requires ObjectsAlong(p, w.osds, before, c)
    ensures var (q, v) := Run(n, p, w); ObjectsAlong(q, v.osds, before, c) && KeepsNew(before, w.osds, v.osds)
    decreases n
  {
    if n > 0 && !p.Done? {
      StepObjects(p, w, before, c);
      RunObjects(n - 1, Step(p, w).0, Step(p, w).1, before, c);
    }
  }
}
