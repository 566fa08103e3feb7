/** StatefulSets left over from an earlier VitastorOSD of the same name: the OSD controller
    gives them the new image and nothing else. */
module Leftovers {
  import opened Naming
  import opened Api
  import opened OsdPlan
  import opened Settling
  import NodePass
  import O = OsdController

  /** What an uncut pass leaves: the StatefulSet of its object, and the others as they were. */
  lemma PassLeaves(n: nat, k: string, w: World)
    requires n >= 3 && KeyedOsds(w.osds) && k in w.osds
    ensures var after := O.Run(n, O.Start(k), w).1.sets;
      after == w.sets[k := if k in w.sets then w.sets[k].(image := w.osds[k].image) else O.SetFor(w.osds[k])]
  {
    var osd := w.osds[k];
    O.RunStep(n, O.Start(k), w);
    O.RunStep(n - 1, O.GetSet(osd), w);
    var p := O.Step(O.GetSet(osd), w).0;
    if !p.Done? {
      O.RunStep(n - 2, p, w);
    }
  }

  /** An uncut pass leaves the StatefulSet its object asks for if and only if it found none,
      or one with the object's own node and path. */
  lemma SetIsRightIffItBelongs(n: nat, k: string, w: World)
    requires n >= 3 && KeyedOsds(w.osds) && k in w.osds
    ensures var after := O.Run(n, O.Start(k), w).1.sets;
      k in after && (after[k] == O.SetFor(w.osds[k]) <==> k !in w.sets || BelongsTo(w.sets[k], w.osds[k]))
  {
    PassLeaves(n, k, w);
  }

  /** The pair after a VitastorOSD is deleted and its name taken by another node's disk. */
  ghost function Replaced(s: Pair, plan: Plan, k: string, b: string, i: nat): Pair
    requires Enabled(Delete(k), s.osds, plan)
    requires Enabled(Create(b, i), Apply(Delete(k), s.osds, plan), plan)
  {
    Do(Node(Create(b, i)), Do(Node(Delete(k)), s, plan), plan)
  }

  /** When an OSD's disk moves to another node, and the OSD controller gets to the new object
      before the garbage collector gets to the old StatefulSet, that keeps running on the old
      node, under the old path and with the new image; and it is still lost. */
  lemma LeftoverKeepsItsNode(s: Pair, plan: Plan, k: string, b: string, i: nat, n: nat)
    requires WellFormed(plan) && IsSound(s) && k in s.sets && k !in s.lost && n >= 3
    requires Enabled(Delete(k), s.osds, plan)
    requires Enabled(Create(b, i), Apply(Delete(k), s.osds, plan), plan) && EntryName(plan, b, i) == k
    ensures var t := Replaced(s, plan, k, b, i);
      var after := O.Run(n, O.Start(k), WorldOf(t.osds, t.sets)).1.sets;
      && k in t.lost && k in t.osds && k in after
      && after[k].nodeName == s.osds[k].nodeName != t.osds[k].nodeName
      && after[k].path == s.osds[k].path && after[k].image == plan[b].image
  {
    var mid := Apply(Delete(k), s.osds, plan);
    assert BelongsTo(s.sets[k], s.osds[k]);
    MissingAfter(Delete(k), s.osds, plan, b, i);
    assert s.osds[k].nodeName != b;
    LostAfterMove(s, mid, k);
    var s1 := Do(Node(Delete(k)), s, plan);
    LostAfterMove(s1, Apply(Create(b, i), mid, plan), k);
    var t := Replaced(s, plan, k, b, i);
    NodeMoveDescends(Delete(k), s, plan);
    NodeMoveDescends(Create(b, i), s1, plan);
    PassLeaves(n, k, WorldOf(t.osds, t.sets));
  }

  /** The smallest case: OSD 1 moves from node m to node n, and its StatefulSet stays on m. */
  lemma LeftoverExample()
    ensures var osd := VitastorOSD(OsdName(1), "n", "/dev/b", 1, "v1");
      var left := StatefulSet(OsdName(1), "m", "/dev/a", "v1");
      var w := WorldOf(map[osd.name := osd], map[osd.name := left]);
      O.Run(3, O.Start(osd.name), w).1.sets == map[osd.name := left] && left != O.SetFor(osd)
  {
    var osd := VitastorOSD(OsdName(1), "n", "/dev/b", 1, "v1");
    var left := StatefulSet(OsdName(1), "m", "/dev/a", "v1");
    assert "m"[0] != "n"[0];
    PassLeaves(3, osd.name, WorldOf(map[osd.name := osd], map[osd.name := left]));
  }
}
