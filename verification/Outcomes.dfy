/** How uncut passes of the node controller end, and what each leaves in the stores. */
module Outcomes {
  import opened Placement
  import opened StatusLists
  import opened Api
  import opened NodePass
  import opened NodeEffects
  import opened NodeRuns
  import opened PassResults
  import Panics

  // ------------------------------------------------------------- passes that end early

  /** A pass without its VitastorNode or its Kubernetes node does nothing. */
  lemma NothingToDo(n: nat, req: string, answers: Answers, w: World)
    requires n >= 1 && (req !in w.nodes || answers.labels.None?)
    ensures Run(n, Start(req, answers), w) == (Done(Skipped), w)
  {
    RunStep(n, Start(req, answers), w);
  }

  /** A pass that trips over a label does nothing either. */
  lemma PanicDoesNothing(n: nat, req: string, answers: Answers, w: World)
    requires n >= 2 && req in w.nodes && Panics.HasBadLabel(answers)
    ensures Run(n, Start(req, answers), w) == (Done(Panicked), w)
  {
    var c := Context(w.nodes[req], answers);
    RunStep(n, Start(req, answers), w);
    RunStep(n - 1, ReadTree(c), w);
    Panics.NoTreeIffBadLabel(TreeOf(w), c.node.name, answers);
  }

  ghost predicate GetsPastLabels(req: string, answers: Answers, w: World) {
    req in w.nodes && answers.labels.Some? && !Panics.HasBadLabel(answers)
  }

  /** The world once the host and its datacenters are written. */
  function HostWritten(req: string, answers: Answers, w: World): World
    requires req in w.nodes && answers.labels.Some?
  {
    w.(tree := Some(WithHost(TreeOf(w), w.nodes[req].name, Domains(answers.labels.value))))
  }

  lemma Head(n: nat, req: string, answers: Answers, w: World)
    requires n >= 3 && GetsPastLabels(req, answers, w)
    ensures Run(n, Start(req, answers), w)
      == Run(n - 3, AskAgent(Context(w.nodes[req], answers)), HostWritten(req, answers, w))
  {
    var c := Context(w.nodes[req], answers);
    RunStep(n, Start(req, answers), w);
    RunStep(n - 1, ReadTree(c), w);
    Panics.NoTreeIffBadLabel(TreeOf(w), c.node.name, answers);
    var t := HostTree(TreeOf(w), c.node.name, answers.labels.value).value;
    RunStep(n - 2, WriteTree(c, t), w);
  }

  /** Without an agent pod the pass waits for one, without its answer the pass fails; either
      way the host has been written and nothing else. */
  lemma NoReport(n: nat, req: string, answers: Answers, w: World)
    requires n >= 4 && GetsPastLabels(req, answers, w) && !answers.agent.Agent?
    ensures Run(n, Start(req, answers), w)
      == (Done(if answers.agent.NoAgentPod? then NoAgent else Failed), HostWritten(req, answers, w))
  {
    Head(n, req, answers, w);
    RunStep(n - 3, AskAgent(Context(w.nodes[req], answers)), HostWritten(req, answers, w));
  }

  lemma StatusStage(n: nat, c: Context, w: World) returns (m: nat)
    requires n >= 2 && c.answers.agent.Agent? && c.node.name in w.nodes && w.nodes[c.node.name] == c.node
    ensures n - 2 <= m < n && Run(n, AskAgent(c), w) == Run(m, ListOsds(c), w.(nodes := Saved(w.nodes, c)))
  {
    RunStep(n, AskAgent(c), w);
    m := n - 1;
    if !StatusIsCurrent(c) {
      RunStep(n - 1, SaveStatus(c), w);
      m := n - 2;
    } else {
      assert w.(nodes := w.nodes) == w;
    }
  }

  /** When the List fails, the pass fails after the host and the status are written. */
  lemma ListFails(n: nat, req: string, answers: Answers, w: World)
    requires n >= 6 && Keyed(w) && GetsPastLabels(req, answers, w) && answers.agent.Agent?
    requires !IsListing(answers.listing, w.osds, w.nodes[req].name)
    ensures var c := Context(w.nodes[req], answers);
      Run(n, Start(req, answers), w) == (Done(Failed), HostWritten(req, answers, w).(nodes := Saved(w.nodes, c)))
  {
    var c, w1 := Context(w.nodes[req], answers), HostWritten(req, answers, w);
    Head(n, req, answers, w);
    var m := StatusStage(n - 3, c, w1);
    ListStage(m, c, w1.(nodes := Saved(w1.nodes, c)));
  }

  lemma ListStage(n: nat, c: Context, w: World)
    requires n >= 1 && !IsListing(c.Listing(), w.osds, c.node.name)
    ensures Run(n, ListOsds(c), w) == (Done(Failed), w)
  {
    RunStep(n, ListOsds(c), w);
  }

  // ------------------------------------------------------------------ what is kept

  /** An object's path counts as reported if a partition has it, or if it is empty and there
      is any partition at all. */
  lemma LiveIs(report: seq<OSDPartition>, path: string)
    ensures IsLive(report, path)
      <==> (exists i :: 0 <= i < |report| && report[i].dataDevice == path) || (path == "" && report != [])
  {
    var paths := Paths(report);
    PaddedMembers(paths, path);
    assert path in paths <==> exists i :: 0 <= i < |report| && report[i].dataDevice == path by {
      if path in paths {
        var i :| 0 <= i < |paths| && paths[i] == path;
        assert report[i].dataDevice == path;
      }
      if i :| 0 <= i < |report| && report[i].dataDevice == path {
        assert paths[i] == path;
      }
    }
  }

  // --------------------------------------------------------------------- the status

  /** A stored list after a pass: left alone if it had the same strings, blanks included, and
      otherwise as many empty strings as there are names, followed by the names. */
  ghost predicate IsRefreshed(after: GoList, before: GoList, names: seq<string>) {
    if before.Items? && multiset(before.items) == multiset(Padded(names)) then after == before
    else after.Items? && IsPadding(after.items, names)
  }

  lemma RefreshIs(stored: GoList, names: seq<string>)
    ensures IsRefreshed(Refresh(stored, names), stored, names)
  {
    CompareIsMultisetEquality(Items(Padded(names)), stored);
    PaddedIsPadding(names);
  }

  ghost predicate StatusIsRefreshed(after: NodeStatus, before: NodeStatus, answers: Answers)
    requires answers.agent.Agent?
  {
    && IsRefreshed(after.disks, before.disks, answers.agent.disks)
    && IsRefreshed(after.emptyDisks, before.emptyDisks, answers.agent.emptyDisks)
    && IsRefreshed(after.vitastorDisks, before.vitastorDisks, Paths(answers.agent.osds))
  }

  lemma NewStatusIs(c: Context)
    requires c.answers.agent.Agent?
    ensures StatusIsRefreshed(NewStatus(c), c.node.status, c.answers)
  {
    RefreshIs(c.node.status.disks, c.answers.agent.disks);
    RefreshIs(c.node.status.emptyDisks, c.answers.agent.emptyDisks);
    RefreshIs(c.node.status.vitastorDisks, Paths(c.answers.agent.osds));
  }

  /** The status write, list by list; the rest of the object is as it was. */
  lemma StatusWrite(c: Context, w: World)
    requires c.answers.agent.Agent? && c.node.name in w.nodes && w.nodes[c.node.name] == c.node
    ensures var (p, w') := Step(SaveStatus(c), w);
      && p == ListOsds(c) && w'.nodes.Keys == w.nodes.Keys
      && (forall k :: k in w.nodes && k != c.node.name ==> w'.nodes[k] == w.nodes[k])
      && var after := w'.nodes[c.node.name];
         after == c.node.(status := after.status) && StatusIsRefreshed(after.status, c.node.status, c.answers)
  {
    NewStatusIs(c);
  }

  /** The same of a whole pass that ends without an error. */
  lemma StatusAfterPass(v: Visit, w: World)
    requires Keyed(w) && EndsWell(VisitEnd(v, w).0) && v.answers.agent.Agent?
    ensures var w' := VisitEnd(v, w).1;
      && v.req in w.nodes && v.req in w'.nodes
      && w'.nodes[v.req] == w.nodes[v.req].(status := w'.nodes[v.req].status)
      && StatusIsRefreshed(w'.nodes[v.req].status, w.nodes[v.req].status, v.answers)
  {
    VisitRan(v, w);
    var c := Context(w.nodes[v.req], v.answers);
    PassIsOneMerge(v.calls, v.req, v.answers, w);
    NewStatusIs(c);
    StatusWriteOnChange(c);
  }

  lemma StatusExample(c: Context, w: World)
    requires c.answers.agent == Agent(["a", "b"], [], []) && c.node.status == NodeStatus(Nil, Nil, Nil)
    requires c.node.name in w.nodes && w.nodes[c.node.name] == c.node
    ensures Step(SaveStatus(c), w).1.nodes[c.node.name].status
      == NodeStatus(Items(["", "", "a", "b"]), Items([]), Items([]))
  {
    PaddedExample();
    assert Padded([]) == [];
  }
}
