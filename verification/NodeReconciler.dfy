/** The node controller's Reconcile, with the loops and early returns of the Go method,
    proved to do exactly the steps of the pass machine. */
module NodeReconciler {
  import opened Placement
  import opened StatusLists
  import opened Naming
  import opened Api
  import opened NodePass

  method Contains(items: seq<VitastorOSD>, path: string) returns (found: bool)
    ensures found == HasPath(items, path)
  {
    for i := 0 to |items|
      invariant forall k :: 0 <= k < i ==> items[k].path != path
    {
      if items[i].path == path {
        return true;
      }
    }
    return false;
  }

  method ContainsString(list: seq<string>, s: string) returns (found: bool)
    ensures found == (s in list)
  {
    for i := 0 to |list|
      invariant s !in list[..i]
    {
      if list[i] == s {
        return true;
      }
    }
    return false;
  }

  /** The paths the osd loop appends, one partition at a time. */
  method PadPaths(report: seq<OSDPartition>) returns (paths: seq<string>)
    ensures paths == Padded(Paths(report))
  {
    paths := Blanks(|report|);
    for i := 0 to |report|
      invariant paths == Blanks(|report|) + Paths(report)[..i]
    {
      paths := paths + [report[i].dataDevice];
    }
    assert Paths(report)[..|report|] == Paths(report);
  }

  /** The three list comparisons; a list that compares equal keeps its stored order. */
  method CompareStatus(c: Context) returns (status: NodeStatus, updated: bool)
    requires c.answers.agent.Agent?
    ensures status == NewStatus(c) && updated == !StatusIsCurrent(c)
  {
    status, updated := c.node.status, false;
    var disks := PadNames(c.answers.agent.disks);
    if !CompareArrays(Items(disks), status.disks) {
      status := status.(disks := Items(disks));
      updated := true;
    }
    var emptyDisks := PadNames(c.answers.agent.emptyDisks);
    if !CompareArrays(Items(emptyDisks), status.emptyDisks) {
      status := status.(emptyDisks := Items(emptyDisks));
      updated := true;
    }
    var osdPaths := PadPaths(c.answers.agent.osds);
    if !CompareArrays(Items(osdPaths), status.vitastorDisks) {
      status := status.(vitastorDisks := Items(osdPaths));
      updated := true;
    }
  }

  class VitastorNodeReconciler {
    const client: Store

    constructor (client: Store)
      ensures this.client == client
    {
      this.client := client;
    }

    /** `calls` is how many steps of the pass go through before a call fails or the
        process dies. The pass ends where the machine is after that many steps. */
    method Reconcile(req: string, answers: Answers, calls: nat) returns (end: Pass)
      modifies client
      ensures (end, client.Snapshot()) == Run(calls, Start(req, answers), old(client.Snapshot()))
    {
      var left := calls;
      if left == 0 { return Start(req, answers); }
      left := left - 1;
      if req !in client.nodes || answers.labels.None? {
        return Done(Skipped);
      }
      var c := Context(client.nodes[req], answers);
      end := ReconcileTree(c, left);
    }

    method ReconcileTree(c: Context, calls: nat) returns (end: Pass)
      requires c.answers.labels.Some?
      modifies client
      ensures (end, client.Snapshot()) == Run(calls, ReadTree(c), old(client.Snapshot()))
    {
      var left := calls;
      if left == 0 { return ReadTree(c); }
      left := left - 1;
      var tree: Tree := map[];
      if client.tree.Some? {
        tree := client.tree.value;
      }
      var merged := MergeLabels(tree, c.node.name, c.answers.labels.value);
      if merged.None? {
        return Done(Panicked);
      }
      if left == 0 { return WriteTree(c, merged.value); }
      left := left - 1;
      client.tree := Some(merged.value);
      end := ReconcileStatus(c, left);
    }

    method ReconcileStatus(c: Context, calls: nat) returns (end: Pass)
      modifies client
      ensures (end, client.Snapshot()) == Run(calls, AskAgent(c), old(client.Snapshot()))
    {
      var left := calls;
      if left == 0 { return AskAgent(c); }
      left := left - 1;
      if c.answers.agent.NoAgentPod? { return Done(NoAgent); }
      if c.answers.agent.NoReply? { return Done(Failed); }
      var status, statusUpdated := CompareStatus(c);
      ghost var goal := Run(calls, AskAgent(c), client.Snapshot());
      if statusUpdated {
        assert Run(left, SaveStatus(c), client.Snapshot()) == goal;
        if left == 0 { return SaveStatus(c); }
        left := left - 1;
        if c.node.name !in client.nodes || client.nodes[c.node.name] != c.node {
          assert Run(left, Done(Failed), client.Snapshot()) == goal;
          return Done(Failed);
        }
        client.nodes := client.nodes[c.node.name := c.node.(status := status)];
      }
      assert Run(left, ListOsds(c), client.Snapshot()) == goal;
      end := ReconcileObjects(c, left);
    }

    method ReconcileObjects(c: Context, calls: nat) returns (end: Pass)
      modifies client
      ensures (end, client.Snapshot()) == Run(calls, ListOsds(c), old(client.Snapshot()))
    {
      if calls == 0 { return ListOsds(c); }
      RunStep(calls, ListOsds(c), client.Snapshot());
      if !IsListing(c.Listing(), client.osds, c.node.name) {
        return Done(Failed);
      }
      end := DeployOsds(c, calls - 1);
    }

    /** The create loop, over the report, against the listing taken before it. */
    method DeployOsds(c: Context, calls: nat) returns (end: Pass)
      modifies client
      ensures (end, client.Snapshot()) == Run(calls, Deploy(c, 0), old(client.Snapshot()))
    {
      var left := calls;
      var i := 0;
      ghost var goal := Run(calls, Deploy(c, 0), client.Snapshot());
      while i < |c.Report()|
        invariant 0 <= i <= |c.Report()|
        invariant Run(left, Deploy(c, i), client.Snapshot()) == goal
      {
        end, left := DeployOsd(c, i, left);
        if end != Deploy(c, i + 1) { return; }
        i := i + 1;
      }
      if left == 0 { return Deploy(c, i); }
      end := SweepOsds(c, left - 1);
    }

    /** One turn of the create loop; what is left of the calls if it went through. */
    method DeployOsd(c: Context, i: nat, calls: nat) returns (end: Pass, left: nat)
      requires i < |c.Report()|
      modifies client
      ensures end != Deploy(c, i + 1) ==> (end, client.Snapshot()) == Run(calls, Deploy(c, i), old(client.Snapshot()))
      ensures end == Deploy(c, i + 1) ==>
        Run(left, end, client.Snapshot()) == Run(calls, Deploy(c, i), old(client.Snapshot()))
    {
      left := calls;
      var part := c.Report()[i];
      ghost var goal := Run(calls, Deploy(c, i), client.Snapshot());
      if left == 0 { return Deploy(c, i), 0; }
      RunStep(left, Deploy(c, i), client.Snapshot());
      left := left - 1;
      var known := Contains(c.Listing(), part.dataDevice);
      if !known {
        var osd := NewOsd(c.node, part);
        if osd.name in client.osds {
          return Done(Blocked(i)), left;
        }
        client.osds := client.osds[osd.name := osd];
      }
      assert Run(left, ReadEntry(c, i), client.Snapshot()) == goal;
      end, left := RecordOsd(c, i, left);
    }

    /** Reads the tree again, adds the partition's entry and writes it back. */
    method RecordOsd(c: Context, i: nat, calls: nat) returns (end: Pass, left: nat)
      requires i < |c.Report()|
      modifies client
      ensures end != Deploy(c, i + 1) ==>
        (end, client.Snapshot()) == Run(calls, ReadEntry(c, i), old(client.Snapshot()))
      ensures end == Deploy(c, i + 1) ==>
        Run(left, end, client.Snapshot()) == Run(calls, ReadEntry(c, i), old(client.Snapshot()))
    {
      left := calls;
      if left == 0 { return ReadEntry(c, i), 0; }
      RunStep(left, ReadEntry(c, i), client.Snapshot());
      left := left - 1;
      if client.tree.None? {
        return Done(Panicked), left;
      }
      var tree := WithOsd(client.tree.value, Itoa(c.Report()[i].osdNumber), c.node.nodeName);
      if left == 0 { return WriteEntry(c, i, tree), 0; }
      RunStep(left, WriteEntry(c, i, tree), client.Snapshot());
      left := left - 1;
      client.tree := Some(tree);
      end := Deploy(c, i + 1);
    }

    /** The update and delete loop, over the listing: it stops after one image change. */
    method SweepOsds(c: Context, calls: nat) returns (end: Pass)
      modifies client
      ensures (end, client.Snapshot()) == Run(calls, Sweep(c, 0), old(client.Snapshot()))
    {
      var left := calls;
      var j := 0;
      var osdPaths := PadPaths(c.Report());
      ghost var goal := Run(calls, Sweep(c, 0), client.Snapshot());
      while j < |c.Listing()|
        invariant 0 <= j <= |c.Listing()|
        invariant Run(left, Sweep(c, j), client.Snapshot()) == goal
      {
        if left == 0 { return Sweep(c, j); }
        left := left - 1;
        var osd := c.Listing()[j];
        var live := ContainsString(osdPaths, osd.path);
        if live {
          if osd.image != c.node.image {
            if osd.name !in client.osds || client.osds[osd.name] != osd {
              return Done(Failed);
            }
            client.osds := client.osds[osd.name := osd.(image := c.node.image)];
            return Done(Updated(osd.name));
          }
        } else {
          if osd.name !in client.osds {
            return Done(Failed);
          }
          client.osds := client.osds - {osd.name};
        }
        j := j + 1;
      }
      if left == 0 { return Sweep(c, j); }
      end := Done(Finished);
    }
  }
}
