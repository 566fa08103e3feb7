/** What the node controller does to the VitastorOSD objects, seen from far enough away
    that only the objects, the agents' reports and the node images are left: an abstract
    machine with three kinds of move, and the sets of nodes that can never move on. */
module OsdPlan {
  import opened Naming
  import opened Api
  import opened NodePass

  /** What one node should end up with. */
  datatype Target = Target(image: string, report: seq<OSDPartition>)

  type Plan = map<string, Target>

  /** Partitions are distinct: no two carry the same OSD number, none is reported twice. */
  ghost predicate WellFormed(plan: Plan) {
    && (forall a, b, i, j | a in plan && b in plan && 0 <= i < |plan[a].report| && 0 <= j < |plan[b].report| ::
          plan[a].report[i].osdNumber == plan[b].report[j].osdNumber ==> a == b && i == j)
    && (forall b, i, j | b in plan && 0 <= i < |plan[b].report| && 0 <= j < |plan[b].report| ::
          plan[b].report[i].dataDevice == plan[b].report[j].dataDevice ==> i == j)
  }

  ghost predicate Covered(osds: OsdMap, node: string, path: string) {
    exists k :: k in osds && osds[k].nodeName == node && osds[k].path == path
  }

  ghost predicate IsEntry(plan: Plan, b: string, i: int) {
    b in plan && 0 <= i < |plan[b].report|
  }

  function EntryName(plan: Plan, b: string, i: nat): string
    requires b in plan && i < |plan[b].report|
  {
    OsdName(plan[b].report[i].osdNumber)
  }

  function Fresh(plan: Plan, b: string, i: nat): VitastorOSD
    requires b in plan && i < |plan[b].report|
  {
    var part := plan[b].report[i];
    VitastorOSD(OsdName(part.osdNumber), b, part.dataDevice, part.osdNumber, plan[b].image)
  }

  ghost predicate IsMissing(osds: OsdMap, plan: Plan, b: string, i: int) {
    IsEntry(plan, b, i) && !Covered(osds, b, plan[b].report[i].dataDevice)
  }

  ghost predicate IsWrong(osds: OsdMap, plan: Plan, k: string) {
    k in osds && osds[k].nodeName in plan
    && IsLive(plan[osds[k].nodeName].report, osds[k].path) && osds[k].image != plan[osds[k].nodeName].image
  }

  ghost predicate IsStale(osds: OsdMap, plan: Plan, k: string) {
    k in osds && osds[k].nodeName in plan && !IsLive(plan[osds[k].nodeName].report, osds[k].path)
  }

  /** Every reported partition has its object; every object is reported and has the image. */
  ghost predicate Converged(osds: OsdMap, plan: Plan, b: string) {
    && (forall i :: !IsMissing(osds, plan, b, i))
    && (forall k :: k in osds && osds[k].nodeName == b ==> !IsWrong(osds, plan, k) && !IsStale(osds, plan, k))
  }

  // -------------------------------------------------------------------- moves

  datatype Move = Create(b: string, i: nat) | Update(k: string) | Delete(k: string)

  ghost predicate Enabled(m: Move, osds: OsdMap, plan: Plan) {
    match m
    case Create(b, i) => IsMissing(osds, plan, b, i) && EntryName(plan, b, i) !in osds
    case Update(k) => IsWrong(osds, plan, k) && forall i :: !IsMissing(osds, plan, osds[k].nodeName, i)
    case Delete(k) => IsStale(osds, plan, k) && forall i :: !IsMissing(osds, plan, osds[k].nodeName, i)
  }

  ghost function Mover(m: Move, osds: OsdMap, plan: Plan): string
    requires Enabled(m, osds, plan)
  {
    match m
    case Create(b, _) => b
    case Update(k) => osds[k].nodeName
    case Delete(k) => osds[k].nodeName
  }

  ghost function Apply(m: Move, osds: OsdMap, plan: Plan): OsdMap
    requires Enabled(m, osds, plan)
  {
    match m
    case Create(b, i) => osds[EntryName(plan, b, i) := Fresh(plan, b, i)]
    case Update(k) => osds[k := osds[k].(image := plan[osds[k].nodeName].image)]
    case Delete(k) => osds - {k}
  }

  /** A sequence of enabled moves of the given nodes. */
  ghost predicate Plays(osds: OsdMap, ms: seq<Move>, plan: Plan, who: set<string>, end: OsdMap)
    decreases |ms|
  {
    if ms == [] then end == osds
    else
      && Enabled(ms[0], osds, plan)
      && Mover(ms[0], osds, plan) in who
      && Plays(Apply(ms[0], osds, plan), ms[1..], plan, who, end)
  }

  lemma TailOfJoin(ms: seq<Move>, ns: seq<Move>)
    requires ms != []
    ensures (ms + ns)[0] == ms[0] && (ms + ns)[1..] == ms[1..] + ns
  {
  }

  lemma {:induction false} PlaysJoin(osds: OsdMap, ms: seq<Move>, mid: OsdMap, ns: seq<Move>, plan: Plan,
        who: set<string>, end: OsdMap)
    requires Plays(osds, ms, plan, who, mid) && Plays(mid, ns, plan, who, end)
    ensures Plays(osds, ms + ns, plan, who, end)
    decreases |ms|
  {
    if ms == [] {
      assert ms + ns == ns;
    } else {
      TailOfJoin(ms, ns);
      PlaysJoin(Apply(ms[0], osds, plan), ms[1..], mid, ns, plan, who, end);
    }
  }

  // -------------------------------------------------- what one move does to coverage

  lemma LiveEntry(plan: Plan, b: string, i: nat)
    requires b in plan && i < |plan[b].report|
    ensures IsLive(plan[b].report, plan[b].report[i].dataDevice)
  {
    var names := Paths(plan[b].report);
    assert names[i] in names;
    StatusLists.PaddedMembers(names, names[i]);
  }

  /** A move covers its own entry, if it is a Create, and changes no other. */
  lemma MissingAfter(m: Move, osds: OsdMap, plan: Plan, b: string, i: int)
    requires WellFormed(plan) && Enabled(m, osds, plan)
    ensures IsMissing(Apply(m, osds, plan), plan, b, i) <==> IsMissing(osds, plan, b, i) && m != Create(b, i)
  {
    if IsEntry(plan, b, i) {
      var path := plan[b].report[i].dataDevice;
      var next := Apply(m, osds, plan);
      if Covered(osds, b, path) {
        var k :| k in osds && osds[k].nodeName == b && osds[k].path == path;
        LiveEntry(plan, b, i);
        assert k in next && next[k].nodeName == b && next[k].path == path;
      }
      if Covered(next, b, path) {
        var k :| k in next && next[k].nodeName == b && next[k].path == path;
        if m != Create(b, i) {
          assert k in osds && osds[k].nodeName == b && osds[k].path == path;
        }
      }
      if m == Create(b, i) {
        assert next[EntryName(plan, b, i)] == Fresh(plan, b, i);
      }
    }
  }

  // ------------------------------------------------------------------ the debt

  ghost function Missing(osds: OsdMap, plan: Plan): set<(string, int)> {
    set b, i | b in plan && 0 <= i < |plan[b].report| && IsMissing(osds, plan, b, i) :: (b, i)
  }

  ghost function Wrong(osds: OsdMap, plan: Plan): set<string> {
    set k | k in osds && IsWrong(osds, plan, k)
  }

  ghost function Stale(osds: OsdMap, plan: Plan): set<string> {
    set k | k in osds && IsStale(osds, plan, k)
  }

  ghost function Debt(osds: OsdMap, plan: Plan): nat {
    |Missing(osds, plan)| + |Wrong(osds, plan)| + |Stale(osds, plan)|
  }

  lemma MissingSettled(m: Move, osds: OsdMap, plan: Plan)
    requires WellFormed(plan) && Enabled(m, osds, plan)
    ensures Missing(Apply(m, osds, plan), plan) == Missing(osds, plan) - if m.Create? then {(m.b, m.i as int)} else {}
    ensures m.Create? ==> (m.b, m.i as int) in Missing(osds, plan)
  {
    var next := Apply(m, osds, plan);
    forall b, i ensures IsMissing(next, plan, b, i) <==> IsMissing(osds, plan, b, i) && m != Create(b, i) {
      MissingAfter(m, osds, plan, b, i);
    }
    assert forall x :: x in Missing(next, plan) <==> x in Missing(osds, plan) && m != Create(x.0, x.1);
  }

  lemma WrongSettled(m: Move, osds: OsdMap, plan: Plan)
    requires Enabled(m, osds, plan)
    ensures Wrong(Apply(m, osds, plan), plan) == Wrong(osds, plan) - if m.Update? then {m.k} else {}
  {
    var next := Apply(m, osds, plan);
    forall k ensures IsWrong(next, plan, k) <==> IsWrong(osds, plan, k) && m != Update(k) {
      if m.Create? && k == EntryName(plan, m.b, m.i) {
        assert next[k] == Fresh(plan, m.b, m.i);
      }
    }
  }

  lemma StaleSettled(m: Move, osds: OsdMap, plan: Plan)
    requires Enabled(m, osds, plan)
    ensures Stale(Apply(m, osds, plan), plan) == Stale(osds, plan) - if m.Delete? then {m.k} else {}
  {
    var next := Apply(m, osds, plan);
    forall k ensures IsStale(next, plan, k) <==> IsStale(osds, plan, k) && m != Delete(k) {
      if m.Create? && k == EntryName(plan, m.b, m.i) {
        LiveEntry(plan, m.b, m.i);
      }
    }
  }

  /** Each move pays off exactly the one thing it is about. */
  lemma MoveSettles(m: Move, osds: OsdMap, plan: Plan)
    requires WellFormed(plan) && Enabled(m, osds, plan)
    ensures Debt(Apply(m, osds, plan), plan) == Debt(osds, plan) - 1
  {
    MissingSettled(m, osds, plan);
    WrongSettled(m, osds, plan);
    StaleSettled(m, osds, plan);
    match m
    case Create(_, _) =>
    case Update(k) => assert k in Wrong(osds, plan);
    case Delete(k) => assert k in Stale(osds, plan);
  }

  /** Over any sequence of moves: the debt left is the debt at the start less the number
      of moves, and the set of wrong images never grows. */
  lemma {:induction false} PlaysPayDebt(osds: OsdMap, ms: seq<Move>, plan: Plan, who: set<string>, end: OsdMap)
    requires WellFormed(plan) && Plays(osds, ms, plan, who, end)
    ensures Debt(end, plan) + |ms| == Debt(osds, plan)
    ensures Wrong(end, plan) <= Wrong(osds, plan)
    decreases |ms|
  {
    if ms != [] {
      MoveSettles(ms[0], osds, plan);
      WrongSettled(ms[0], osds, plan);
      PlaysPayDebt(Apply(ms[0], osds, plan), ms[1..], plan, who, end);
    }
  }

  // --------------------------------------------------- nodes that wait for ever

  /** Nobody outside the set C will ever remove this object: its node is in C, or is not
      reconciled, or reports the object's path. */
  ghost predicate Frozen(o: VitastorOSD, plan: Plan, C: set<string>) {
    o.nodeName in C || o.nodeName !in plan || IsLive(plan[o.nodeName].report, o.path)
  }

  /** Entry i of node b has no object of b, and its name is taken for good. */
  ghost predicate IsJammed(osds: OsdMap, plan: Plan, C: set<string>, b: string, i: int) {
    IsMissing(osds, plan, b, i)
    && EntryName(plan, b, i) in osds && Frozen(osds[EntryName(plan, b, i)], plan, C)
  }

  ghost predicate IsStuck(osds: OsdMap, plan: Plan, C: set<string>, b: string) {
    exists i :: IsJammed(osds, plan, C, b, i)
  }

  /** A set of nodes each of which waits for a name that only the set could free. A node
      that waits for a name it holds itself is such a set on its own. */
  ghost predicate IsDeadlock(osds: OsdMap, plan: Plan, C: set<string>) {
    C != {} && forall b {:trigger IsStuck(osds, plan, C, b)} :: b in C ==> IsStuck(osds, plan, C, b)
  }

  lemma DeadlockedNodesLack(osds: OsdMap, plan: Plan, C: set<string>)
    requires IsDeadlock(osds, plan, C)
    ensures forall b :: b in C ==> exists i :: IsMissing(osds, plan, b, i)
  {
    forall b | b in C ensures exists i :: IsMissing(osds, plan, b, i) {
      assert IsStuck(osds, plan, C, b);
      var i :| IsJammed(osds, plan, C, b, i);
      assert IsMissing(osds, plan, b, i);
    }
  }

  lemma {:induction false} JamsStay(m: Move, osds: OsdMap, plan: Plan, C: set<string>, b: string, i: int)
    requires WellFormed(plan) && Enabled(m, osds, plan) && IsDeadlock(osds, plan, C)
    requires b in C && IsJammed(osds, plan, C, b, i)
    ensures IsJammed(Apply(m, osds, plan), plan, C, b, i)
  {
    MissingAfter(m, osds, plan, b, i);
    DeadlockedNodesLack(osds, plan, C);
    assert m.Delete? ==> osds[m.k].nodeName !in C;
  }

  lemma JamsWereThere(m: Move, osds: OsdMap, plan: Plan, C: set<string>, b: string, i: int)
    requires WellFormed(plan) && Enabled(m, osds, plan)
    requires IsJammed(Apply(m, osds, plan), plan, C, b, i)
    ensures IsJammed(osds, plan, C, b, i)
  {
    MissingAfter(m, osds, plan, b, i);
    if m.Create? {
      var p, q := plan[b].report[i].osdNumber, plan[m.b].report[m.i].osdNumber;
      NamesAreDistinct(p, q);
    }
  }

  /** The deadlocked sets are the same before and after every move of every node. */
  lemma DeadlocksAreInvariant(m: Move, osds: OsdMap, plan: Plan, C: set<string>)
    requires WellFormed(plan) && Enabled(m, osds, plan)
    ensures IsDeadlock(osds, plan, C) <==> IsDeadlock(Apply(m, osds, plan), plan, C)
    ensures IsDeadlock(osds, plan, C) ==> m.Create? || Mover(m, osds, plan) !in C
  {
    var next := Apply(m, osds, plan);
    if IsDeadlock(osds, plan, C) {
      forall b | b in C ensures IsStuck(next, plan, C, b) {
        assert IsStuck(osds, plan, C, b);
        var i :| IsJammed(osds, plan, C, b, i);
        JamsStay(m, osds, plan, C, b, i);
      }
      DeadlockedNodesLack(osds, plan, C);
    }
    if IsDeadlock(next, plan, C) {
      forall b | b in C ensures IsStuck(osds, plan, C, b) {
        assert IsStuck(next, plan, C, b);
        var i :| IsJammed(next, plan, C, b, i);
        JamsWereThere(m, osds, plan, C, b, i);
      }
    }
  }

  lemma {:induction false} DeadlocksLast(osds: OsdMap, ms: seq<Move>, plan: Plan, who: set<string>,
        end: OsdMap, C: set<string>)
    requires WellFormed(plan) && Plays(osds, ms, plan, who, end)
    ensures IsDeadlock(osds, plan, C) <==> IsDeadlock(end, plan, C)
    ensures IsDeadlock(osds, plan, C) ==>
      forall k :: k in osds && osds[k].nodeName in C ==> k in end && end[k] == osds[k]
    decreases |ms|
  {
    if ms != [] {
      var next := Apply(ms[0], osds, plan);
      DeadlocksAreInvariant(ms[0], osds, plan, C);
      DeadlocksLast(next, ms[1..], plan, who, end, C);
      if IsDeadlock(osds, plan, C) {
        forall k | k in osds && osds[k].nodeName in C ensures k in next && next[k] == osds[k] {}
      }
    }
  }

  // ------------------------------------------------------ nodes that can move on

  /** No missing entry of b has its name taken. */
  ghost predicate IsFree(osds: OsdMap, plan: Plan, b: string) {
    forall i :: IsMissing(osds, plan, b, i) ==> EntryName(plan, b, i) !in osds
  }

  ghost function Unconverged(osds: OsdMap, plan: Plan): set<string> {
    set b | b in plan && !Converged(osds, plan, b)
  }

  /** Without a deadlock some unconverged node is free. */
  lemma SomeNodeIsFree(osds: OsdMap, plan: Plan) returns (b: string)
    requires Unconverged(osds, plan) != {}
    requires !exists C :: IsDeadlock(osds, plan, C)
    ensures b in Unconverged(osds, plan) && IsFree(osds, plan, b)
  {
    var D := Unconverged(osds, plan);
    assert !IsDeadlock(osds, plan, D);
    b :| b in D && forall i :: !IsJammed(osds, plan, D, b, i);
    forall i | IsMissing(osds, plan, b, i) ensures EntryName(plan, b, i) !in osds {
      var name := EntryName(plan, b, i);
      assert !IsJammed(osds, plan, D, b, i);
      assert name in osds ==> !Converged(osds, plan, osds[name].nodeName) by {
        assert name in osds && !Frozen(osds[name], plan, D) ==> IsStale(osds, plan, name);
      }
    }
  }

  lemma FreeStays(m: Move, osds: OsdMap, plan: Plan, b: string)
    requires WellFormed(plan) && Enabled(m, osds, plan) && IsFree(osds, plan, b)
    ensures IsFree(Apply(m, osds, plan), plan, b)
  {
    var next := Apply(m, osds, plan);
    forall i | IsMissing(next, plan, b, i) ensures EntryName(plan, b, i) !in next {
      MissingAfter(m, osds, plan, b, i);
      if m.Create? {
        NamesAreDistinct(plan[b].report[i].osdNumber, plan[m.b].report[m.i].osdNumber);
      }
    }
  }

  /** A move of one node neither converges nor unsettles another. */
  lemma ConvergedAfter(m: Move, osds: OsdMap, plan: Plan, b: string)
    requires WellFormed(plan) && Enabled(m, osds, plan)
    ensures Converged(osds, plan, b) ==> Converged(Apply(m, osds, plan), plan, b) && Mover(m, osds, plan) != b
    ensures Mover(m, osds, plan) != b && Converged(Apply(m, osds, plan), plan, b) ==> Converged(osds, plan, b)
  {
    var next := Apply(m, osds, plan);
    forall i ensures IsMissing(next, plan, b, i) <==> IsMissing(osds, plan, b, i) && m != Create(b, i) {
      MissingAfter(m, osds, plan, b, i);
    }
    if Mover(m, osds, plan) != b {
      forall k | (k in osds && osds[k].nodeName == b) || (k in next && next[k].nodeName == b)
        ensures k in osds && k in next && next[k] == osds[k] {}
      if Converged(next, plan, b) {
        forall k | k in osds && osds[k].nodeName == b ensures !IsWrong(osds, plan, k) && !IsStale(osds, plan, k) {
          assert !IsWrong(next, plan, k) && !IsStale(next, plan, k);
        }
      }
    }
  }

  lemma {:induction false} PlaysKeep(osds: OsdMap, ms: seq<Move>, plan: Plan, who: set<string>, end: OsdMap, b: string)
    requires WellFormed(plan) && Plays(osds, ms, plan, who, end)
    ensures IsFree(osds, plan, b) ==> IsFree(end, plan, b)
    ensures Converged(osds, plan, b) ==> Converged(end, plan, b)
    ensures b !in who && Converged(end, plan, b) ==> Converged(osds, plan, b)
    decreases |ms|
  {
    if ms != [] {
      if IsFree(osds, plan, b) { FreeStays(ms[0], osds, plan, b); }
      ConvergedAfter(ms[0], osds, plan, b);
      PlaysKeep(Apply(ms[0], osds, plan), ms[1..], plan, who, end, b);
    }
  }
}
