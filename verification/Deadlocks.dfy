/** When nodes are deadlocked, told from the objects and the reports; and how disks that
    change their place get nodes there. */
module Deadlocks {
  import opened StatusLists
  import opened Naming
  import opened Api
  import opened NodePass
  import opened OsdPlan

  // ------------------------------------------------- the wait-for graph of the nodes

  /** b waits for a: a holds the name of one of b's missing entries. Possibly a == b. */
  ghost predicate Waits(osds: OsdMap, plan: Plan, b: string, a: string) {
    exists i :: IsMissing(osds, plan, b, i) && HoldsName(osds, plan, b, i, a)
  }

  ghost predicate HoldsName(osds: OsdMap, plan: Plan, b: string, i: int, a: string)
    requires IsEntry(plan, b, i)
  {
    EntryName(plan, b, i) in osds && osds[EntryName(plan, b, i)].nodeName == a
  }

  /** Each node waits for the next, the last one for the first. */
  ghost predicate IsWaitCycle(osds: OsdMap, plan: Plan, cycle: seq<string>) {
    cycle != [] && IsWaitPath(osds, plan, cycle) && Waits(osds, plan, cycle[|cycle| - 1], cycle[0])
  }

  ghost predicate IsWaitPath(osds: OsdMap, plan: Plan, path: seq<string>) {
    forall j {:trigger IsLink(osds, plan, path, j)} :: 0 < j < |path| ==> IsLink(osds, plan, path, j)
  }

  ghost predicate IsLink(osds: OsdMap, plan: Plan, path: seq<string>, j: nat)
    requires 0 < j < |path|
  {
    Waits(osds, plan, path[j - 1], path[j])
  }

  /** The name of a missing entry is held by an object that its own node reports, or whose
      node nobody reconciles: it will not be deleted. */
  ghost predicate IsHeldForGood(osds: OsdMap, plan: Plan, b: string, i: int) {
    IsMissing(osds, plan, b, i)
    && EntryName(plan, b, i) in osds && !IsStale(osds, plan, EntryName(plan, b, i))
  }

  /** Some nodes cannot move on: they wait for each other in a circle, or a node waits for
      an object that stays. */
  ghost predicate IsBlocked(osds: OsdMap, plan: Plan) {
    (exists cycle :: IsWaitCycle(osds, plan, cycle)) || (exists b, i :: IsHeldForGood(osds, plan, b, i))
  }

  lemma WaiterIsStuck(osds: OsdMap, plan: Plan, C: set<string>, b: string, a: string)
    requires Waits(osds, plan, b, a) && a in C
    ensures IsStuck(osds, plan, C, b)
  {
    var i :| IsMissing(osds, plan, b, i) && HoldsName(osds, plan, b, i, a);
    assert IsJammed(osds, plan, C, b, i);
  }

  lemma WaitCycleIsDeadlock(osds: OsdMap, plan: Plan, cycle: seq<string>)
    requires IsWaitCycle(osds, plan, cycle)
    ensures IsDeadlock(osds, plan, set b | b in cycle)
  {
    var C := set b | b in cycle;
    assert cycle[0] in C;
    forall b | b in C ensures IsStuck(osds, plan, C, b) {
      var j :| 0 <= j < |cycle| && cycle[j] == b;
      if j + 1 < |cycle| {
        assert IsLink(osds, plan, cycle, j + 1);
        WaiterIsStuck(osds, plan, C, b, cycle[j + 1]);
      } else {
        WaiterIsStuck(osds, plan, C, b, cycle[0]);
      }
    }
  }

  lemma HoldIsDeadlock(osds: OsdMap, plan: Plan, b: string, i: int)
    requires IsHeldForGood(osds, plan, b, i)
    ensures IsDeadlock(osds, plan, {b})
  {
    assert IsJammed(osds, plan, {b}, b, i);
    assert IsStuck(osds, plan, {b}, b);
  }

  /** Where no hold is for good, a deadlocked node waits for another one of its set. */
  lemma NextWaiter(osds: OsdMap, plan: Plan, C: set<string>, b: string) returns (a: string)
    requires IsDeadlock(osds, plan, C) && b in C
    requires forall i :: !IsHeldForGood(osds, plan, b, i)
    ensures a in C && Waits(osds, plan, b, a)
  {
    assert IsStuck(osds, plan, C, b);
    var i :| IsJammed(osds, plan, C, b, i);
    assert !IsHeldForGood(osds, plan, b, i);
    a := osds[EntryName(plan, b, i)].nodeName;
    assert HoldsName(osds, plan, b, i, a);
  }

  lemma PathTail(osds: OsdMap, plan: Plan, path: seq<string>, j: nat)
    requires IsWaitPath(osds, plan, path) && j < |path|
    ensures IsWaitPath(osds, plan, path[j..])
  {
    forall l | 0 < l < |path[j..]| ensures IsLink(osds, plan, path[j..], l) {
      assert IsLink(osds, plan, path, j + l);
    }
  }

  lemma PathGrows(osds: OsdMap, plan: Plan, path: seq<string>, a: string)
    requires path != [] && IsWaitPath(osds, plan, path) && Waits(osds, plan, path[|path| - 1], a)
    ensures IsWaitPath(osds, plan, path + [a])
  {
    forall l | 0 < l < |path + [a]| ensures IsLink(osds, plan, path + [a], l) {
      if l < |path| { assert IsLink(osds, plan, path, l); }
    }
  }

  /** Following the holders from node to node, one is met again. */
  lemma {:induction false} FollowHolders(osds: OsdMap, plan: Plan, C: set<string>, path: seq<string>, rest: set<string>)
    returns (cycle: seq<string>)
    requires IsDeadlock(osds, plan, C) && forall b, i :: !IsHeldForGood(osds, plan, b, i)
    requires path != [] && IsWaitPath(osds, plan, path) && path[|path| - 1] in C
    requires forall b :: b in C ==> b in rest || b in path
    ensures IsWaitCycle(osds, plan, cycle)
    decreases |rest|
  {
    var a := NextWaiter(osds, plan, C, path[|path| - 1]);
    if a in path {
      var j :| 0 <= j < |path| && path[j] == a;
      cycle := path[j..];
      PathTail(osds, plan, path, j);
    } else {
      PathGrows(osds, plan, path, a);
      cycle := FollowHolders(osds, plan, C, path + [a], rest - {a});
    }
  }

  /** Some set of nodes is deadlocked exactly when there is a cycle of waiting nodes or a
      name held for good. */
  lemma DeadlockIffBlocked(osds: OsdMap, plan: Plan)
    ensures (exists C :: IsDeadlock(osds, plan, C)) <==> IsBlocked(osds, plan)
  {
    if C :| IsDeadlock(osds, plan, C) {
      if forall b, i :: !IsHeldForGood(osds, plan, b, i) {
        var b :| b in C;
        var cycle := FollowHolders(osds, plan, C, [b], C);
      }
    }
    if cycle :| IsWaitCycle(osds, plan, cycle) {
      WaitCycleIsDeadlock(osds, plan, cycle);
    }
    if b, i :| IsHeldForGood(osds, plan, b, i) {
      HoldIsDeadlock(osds, plan, b, i);
    }
  }

  // ------------------------------------------------------- disks that change their place

  /** b has converged, and each of its reported partitions runs under its own number. */
  ghost predicate RunsItsReport(osds: OsdMap, plan: Plan, b: string) {
    && b in plan && Converged(osds, plan, b)
    && (forall i :: IsEntry(plan, b, i) ==> IsItsObject(osds, plan, b, i))
  }

  ghost predicate IsItsObject(osds: OsdMap, plan: Plan, b: string, i: int)
    requires IsEntry(plan, b, i)
  {
    var name := EntryName(plan, b, i);
    name in osds && osds[name].nodeName == b && osds[name].path == plan[b].report[i].dataDevice
  }

  lemma UnreportedIsUncovered(osds: OsdMap, plan: Plan, b: string, path: string)
    requires b in plan && Converged(osds, plan, b)
    requires path != "" && forall i :: IsEntry(plan, b, i) ==> plan[b].report[i].dataDevice != path
    ensures !Covered(osds, b, path)
  {
    var names := Paths(plan[b].report);
    forall i | 0 <= i < |names| ensures names[i] != path {
      assert IsEntry(plan, b, i);
    }
    PaddedMembers(names, path);
    forall k | k in osds && osds[k].nodeName == b ensures osds[k].path != path {
      assert !IsStale(osds, plan, k);
    }
  }

  /** A disk of b comes back under another path. */
  function WithPath(plan: Plan, b: string, i: nat, path: string): Plan
    requires b in plan && i < |plan[b].report|
  {
    var report := plan[b].report;
    plan[b := Target(plan[b].image, report[i := OSDPartition(path, report[i].osdNumber)])]
  }

  /** One node whose disk comes back under a path it has not used blocks itself: the object
      under the old path has the name, and is deleted only by a pass that gets past it. */
  lemma RenamedDiskDeadlocks(osds: OsdMap, plan: Plan, b: string, i: nat, path: string)
    requires RunsItsReport(osds, plan, b) && i < |plan[b].report|
    requires path != "" && forall l :: IsEntry(plan, b, l) ==> plan[b].report[l].dataDevice != path
    ensures IsDeadlock(osds, WithPath(plan, b, i, path), {b})
  {
    var after := WithPath(plan, b, i, path);
    UnreportedIsUncovered(osds, plan, b, path);
    assert IsEntry(plan, b, i) && IsItsObject(osds, plan, b, i);
    assert IsMissing(osds, after, b, i) && HoldsName(osds, after, b, i, b);
    WaiterIsStuck(osds, after, {b}, b, b);
  }

  /** Nodes a and b exchange a disk each, under the paths these have. */
  function Exchanged(plan: Plan, a: string, i: nat, b: string, j: nat): Plan
    requires a in plan && i < |plan[a].report| && b in plan && j < |plan[b].report|
  {
    var ra, rb := plan[a].report, plan[b].report;
    plan[a := Target(plan[a].image, ra[i := rb[j]])][b := Target(plan[b].image, rb[j := ra[i]])]
  }

  lemma ExchangeJams(osds: OsdMap, plan: Plan, a: string, i: nat, b: string, j: nat, after: Plan, C: set<string>)
    requires a != b && RunsItsReport(osds, plan, a) && RunsItsReport(osds, plan, b)
    requires i < |plan[a].report| && j < |plan[b].report| && b in C
    requires WellFormed(after) && a in after && after[a].report == plan[a].report[i := plan[b].report[j]]
    requires plan[a].report[i].dataDevice != plan[b].report[j].dataDevice
    requires plan[b].report[j].dataDevice != ""
    ensures IsStuck(osds, after, C, a)
  {
    var path := plan[b].report[j].dataDevice;
    forall l | IsEntry(plan, a, l) ensures plan[a].report[l].dataDevice != path {
      if l != i {
        assert after[a].report[l].dataDevice != after[a].report[i].dataDevice;
      }
    }
    UnreportedIsUncovered(osds, plan, a, path);
    assert IsEntry(plan, b, j) && IsItsObject(osds, plan, b, j);
    assert IsMissing(osds, after, a, i) && HoldsName(osds, after, a, i, b);
    WaiterIsStuck(osds, after, C, a, b);
  }

  /** Two running nodes that exchange disks block each other for ever, unless the disks
      have the same path: then each takes the other's disk for its own. */
  lemma ExchangedDisksDeadlock(osds: OsdMap, plan: Plan, a: string, i: nat, b: string, j: nat)
    requires a != b && RunsItsReport(osds, plan, a) && RunsItsReport(osds, plan, b)
    requires i < |plan[a].report| && j < |plan[b].report|
    requires WellFormed(Exchanged(plan, a, i, b, j))
    requires plan[a].report[i].dataDevice != "" && plan[b].report[j].dataDevice != ""
    ensures IsDeadlock(osds, Exchanged(plan, a, i, b, j), {a, b})
      <==> plan[a].report[i].dataDevice != plan[b].report[j].dataDevice
  {
    var after := Exchanged(plan, a, i, b, j);
    if plan[a].report[i].dataDevice != plan[b].report[j].dataDevice {
      ExchangeJams(osds, plan, a, i, b, j, after, {a, b});
      ExchangeJams(osds, plan, b, j, a, i, after, {a, b});
    } else {
      forall l ensures !IsMissing(osds, after, a, l) {
        if IsEntry(after, a, l) {
          assert IsEntry(plan, a, l) && IsItsObject(osds, plan, a, l);
        }
      }
      assert !IsStuck(osds, after, {a, b}, a);
    }
  }

  /** The smallest case: node n has OSD 1 under one path and reports it under another. */
  lemma RenamedDiskExample()
    ensures var osd := VitastorOSD(OsdName(1), "n", "/dev/a", 1, "v1");
      IsDeadlock(map[osd.name := osd], map["n" := Target("v1", [OSDPartition("/dev/b", 1)])], {"n"})
  {
    var osd := VitastorOSD(OsdName(1), "n", "/dev/a", 1, "v1");
    var osds, plan := map[osd.name := osd], map["n" := Target("v1", [OSDPartition("/dev/b", 1)])];
    assert "/dev/a"[5] != "/dev/b"[5];
    assert IsMissing(osds, plan, "n", 0) && HoldsName(osds, plan, "n", 0, "n");
    WaiterIsStuck(osds, plan, {"n"}, "n", "n");
  }

  /** Nodes m and n with the disks of OSD 1 and OSD 2, after these were exchanged. */
  lemma ExchangedDisksExample()
    ensures var one := VitastorOSD(OsdName(1), "m", "/dev/a", 1, "v1");
      var two := VitastorOSD(OsdName(2), "n", "/dev/b", 2, "v1");
      IsWaitCycle(map[one.name := one, two.name := two],
                  map["m" := Target("v1", [OSDPartition("/dev/b", 2)]),
                      "n" := Target("v1", [OSDPartition("/dev/a", 1)])],
                  ["m", "n"])
  {
    var one := VitastorOSD(OsdName(1), "m", "/dev/a", 1, "v1");
    var two := VitastorOSD(OsdName(2), "n", "/dev/b", 2, "v1");
    var osds := map[one.name := one, two.name := two];
    var plan := map["m" := Target("v1", [OSDPartition("/dev/b", 2)]), "n" := Target("v1", [OSDPartition("/dev/a", 1)])];
    NamesAreDistinct(1, 2);
    assert "/dev/a"[5] != "/dev/b"[5] && "m"[0] != "n"[0];
    assert IsMissing(osds, plan, "m", 0) && HoldsName(osds, plan, "m", 0, "n");
    assert IsMissing(osds, plan, "n", 0) && HoldsName(osds, plan, "n", 0, "m");
    assert Waits(osds, plan, "m", "n") && Waits(osds, plan, "n", "m");
  }
}
