/** From every state in which the cluster worker is idle there is a run in which three of its
    passes complete: the theorem about interleaved bring-up is about something. */
module BringUpRuns {
  import opened Api
  import opened ClusterController
  import opened Operator
  import opened BringUp
  import opened PassEvents

  /** One request that the worker gets through, n calls long at most. */
  function Turn(n: nat, req: string, pods: seq<Pod>): seq<Event> {
    [ClusterBegin(req, pods)] + Times(ClusterStep, n)
  }

  lemma {:induction false} RunsJoin(es: seq<Event>, fs: seq<Event>, s: System)
    ensures RunEvents(es + fs, s) == RunEvents(fs, RunEvents(es, s))
    ensures ClusterCompletions(es + fs, s) == ClusterCompletions(es, s) + ClusterCompletions(fs, RunEvents(es, s))
    decreases |es|
  {
    if es == [] {
      assert es + fs == fs;
    } else {
      assert (es + fs)[1..] == es[1..] + fs;
      RunsJoin(es[1..], fs, Next(es[0], s));
    }
  }

  predicate IsTurnEvent(e: Event, req: string, pods: seq<Pod>) {
    e == ClusterBegin(req, pods) || e == ClusterStep
  }

  lemma {:induction false} TurnEventsBuild(es: seq<Event>, s: System, req: string, pods: seq<Pod>)
    requires forall e :: e in es ==> IsTurnEvent(e, req, pods)
    ensures EventsBuild(es, s, req, pods)
    decreases |es|
  {
    if es != [] {
      assert IsTurnEvent(es[0], req, pods);
      TurnEventsBuild(es[1..], Next(es[0], s), req, pods);
    }
  }

  lemma {:induction false} TurnIsOfTurnEvents(n: nat, req: string, pods: seq<Pod>)
    ensures forall e :: e in Turn(n, req, pods) ==> IsTurnEvent(e, req, pods)
  {
    TimesIs(ClusterStep, n);
  }

  lemma {:induction false} TimesIs(e: Event, n: nat)
    ensures forall d :: d in Times(e, n) ==> d == e
  {
    if n > 0 { TimesIs(e, n - 1); }
  }

  // ------------------------------------------------------------------ a completed pass

  /** By itself the worker never tries to create a node that is there. */
  predicate FindsNodeMissing(s: System) {
    s.cluster.CreateNode? && s.cluster.i < |s.cluster.pods| ==> s.cluster.pods[s.cluster.i].nodeName !in s.w.nodes
  }

  lemma StepEndsComplete(s: System, req: string, spec: ClusterSpec, pods: seq<Pod>)
    requires IsOnTheWay(s, req, spec, pods) && !s.cluster.Done? && FindsNodeMissing(s)
    ensures FindsNodeMissing(Next(ClusterStep, s))
    ensures Next(ClusterStep, s).cluster.Done? ==> CompletesCluster(ClusterStep, s)
  {
    if !s.cluster.Adopt? && !s.cluster.CreateNode? {
      WorkloadStepBuilds(s.cluster, s.w, req, spec, pods);
    }
  }

  lemma {:induction false} StepsEndComplete(n: nat, s: System, req: string, spec: ClusterSpec, pods: seq<Pod>)
    requires IsOnTheWay(s, req, spec, pods) && !s.cluster.Done? && FindsNodeMissing(s)
    ensures var es := Times(ClusterStep, n);
      RunEvents(es, s).cluster.Done? ==> ClusterCompletions(es, s) >= 1
  {
    if n > 0 {
      var es := Times(ClusterStep, n);
      var s' := Next(ClusterStep, s);
      assert es[1..] == Times(ClusterStep, n - 1);
      StepEndsComplete(s, req, spec, pods);
      if !s'.cluster.Done? {
        ClusterStepBuilds(s, req, spec, pods);
        StepsEndComplete(n - 1, s', req, spec, pods);
      }
    }
  }

  /** A state in which the cluster controller may take the request up. */
  ghost predicate IsIdle(s: System, req: string, spec: ClusterSpec) {
    s.cluster.Done? && req in s.w.clusters && s.w.clusters[req] == spec && "" !in s.w.nodes
  }

  lemma TurnCompletes(n: nat, s: System, req: string, spec: ClusterSpec, pods: seq<Pod>)
    requires IsIdle(s, req, spec) && n >= Bound(pods)
    ensures var turn := Turn(n, req, pods);
      ClusterCompletions(turn, s) >= 1 && IsIdle(RunEvents(turn, s), req, spec)
  {
    var start := s.(cluster := WriteLevels(req, pods));
    var steps := Times(ClusterStep, n);
    assert Next(ClusterBegin(req, pods), s) == start;
    assert Turn(n, req, pods)[1..] == steps;
    ClusterSteps(n, start);
    CompletePass(n, req, pods, s.w);
    StepsEndComplete(n, start, req, spec, pods);
  }

  function Turns(count: nat, n: nat, req: string, pods: seq<Pod>): seq<Event> {
    if count == 0 then [] else Turn(n, req, pods) + Turns(count - 1, n, req, pods)
  }

  lemma {:induction false} TurnsComplete(count: nat, n: nat, s: System, req: string, spec: ClusterSpec, pods: seq<Pod>)
    requires IsIdle(s, req, spec) && n >= Bound(pods)
    ensures var es := Turns(count, n, req, pods);
      && (forall e :: e in es ==> IsTurnEvent(e, req, pods))
      && ClusterCompletions(es, s) >= count
  {
    if count > 0 {
      var turn := Turn(n, req, pods);
      TurnCompletes(n, s, req, spec, pods);
      TurnIsOfTurnEvents(n, req, pods);
      TurnsComplete(count - 1, n, RunEvents(turn, s), req, spec, pods);
      RunsJoin(turn, Turns(count - 1, n, req, pods), s);
    }
  }

  /** Three requests that the worker gets through are such a run, and bring the cluster up. */
  lemma BringUpExists(s: System, req: string, pods: seq<Pod>) returns (es: seq<Event>)
    requires s.cluster.Done? && req in s.w.clusters && "" !in s.w.nodes
    ensures EventsBuild(es, s, req, pods) && ClusterCompletions(es, s) >= 3
    ensures BroughtUp(RunEvents(es, s).w, s.w.clusters[req], pods)
  {
    es := Turns(3, Bound(pods), req, pods);
    TurnsComplete(3, Bound(pods), s, req, s.w.clusters[req], pods);
    TurnEventsBuild(es, s, req, pods);
    ThreeCompletionsBringUp(es, s, req, pods);
  }
}
