/** The node and the OSD controller together, interleaved call by call, with fixed reports
    and images: every change of an object brings the cluster nearer to rest, and at rest
    every VitastorOSD runs in its StatefulSet with its path and its node's image. */
module Settling {
  import opened Api
  import opened OsdPlan
  import NodePass
  import O = OsdController

  type SetMap = map<string, StatefulSet>

  // ------------------------------------------------------------------- ownership

  /** A StatefulSet is lost when the VitastorOSD it was made for is deleted: the garbage
      collector will take it, whatever object has that name by then. The set `lost` holds
      the names of such sets; every other one belongs to the present object. */
  ghost predicate IsOwned(osds: OsdMap, sets: SetMap, lost: set<string>) {
    && lost <= sets.Keys
    && (forall k :: k in sets && k !in lost ==> k in osds && BelongsTo(sets[k], osds[k]))
  }

  predicate BelongsTo(set_: StatefulSet, osd: VitastorOSD) {
    set_.name == osd.name && set_.nodeName == osd.nodeName && set_.path == osd.path
  }

  // ------------------------------------------------- the StatefulSets' own debt

  ghost function Unserved(osds: OsdMap, sets: SetMap): set<string> {
    set k | k in osds && k !in sets
  }

  ghost function Outdated(osds: OsdMap, sets: SetMap): set<string> {
    set k | k in osds && k in sets && sets[k].image != osds[k].image
  }

  ghost function Foreign(osds: OsdMap, sets: SetMap, lost: set<string>): set<string> {
    set k | k in osds && k in sets && k in lost
  }

  ghost function Orphaned(osds: OsdMap, sets: SetMap): set<string> {
    set k | k in sets && k !in osds
  }

  ghost function SetDebt(osds: OsdMap, sets: SetMap, lost: set<string>): nat {
    |Unserved(osds, sets)| + |Outdated(osds, sets)| + 2 * |Foreign(osds, sets, lost)| + |Orphaned(osds, sets)|
  }

  /** What one name adds to the debt. */
  function NameDebt(osds: OsdMap, sets: SetMap, lost: set<string>, k: string): nat {
    if k in osds then
      if k !in sets then 1
      else (if sets[k].image != osds[k].image then 1 else 0) + if k in lost then 2 else 0
    else if k in sets then 1 else 0
  }

  lemma CountChange<T>(a: set<T>, b: set<T>, k: T)
    requires forall x :: x != k ==> (x in a <==> x in b)
    ensures |b| + (if k in a then 1 else 0) == |a| + if k in b then 1 else 0
  {
    assert a - {k} == b - {k};
    assert |a - {k}| == |a| - if k in a then 1 else 0;
    assert |b - {k}| == |b| - if k in b then 1 else 0;
  }

  ghost predicate SameBut<T>(a: map<string, T>, b: map<string, T>, k: string) {
    forall x :: x != k ==> (x in a <==> x in b) && (x in a ==> a[x] == b[x])
  }

  lemma SetDebtChange(osds: OsdMap, sets: SetMap, lost: set<string>, osds': OsdMap, sets': SetMap, lost': set<string>,
        k: string)
    requires SameBut(osds, osds', k) && SameBut(sets, sets', k) && lost - {k} == lost' - {k}
    ensures SetDebt(osds', sets', lost') + NameDebt(osds, sets, lost, k)
      == SetDebt(osds, sets, lost) + NameDebt(osds', sets', lost', k)
  {
    assert forall x :: x != k ==> (x in lost <==> x in lost - {k}) && (x in lost' <==> x in lost' - {k});
    CountChange(Unserved(osds, sets), Unserved(osds', sets'), k);
    CountChange(Outdated(osds, sets), Outdated(osds', sets'), k);
    CountChange(Foreign(osds, sets, lost), Foreign(osds', sets', lost'), k);
    CountChange(Orphaned(osds, sets), Orphaned(osds', sets'), k);
  }

  // --------------------------------------------------------------- the pair

  /** The objects of the two controllers, the lost StatefulSets, where the OSD worker is, and
      whether the object it holds has been deleted since it was read. The node controller
      is seen through its moves, which its passes refine. */
  datatype Pair = Pair(osds: OsdMap, sets: SetMap, lost: set<string>, worker: O.Pass, gone: bool)

  datatype Action =
    | Node(m: Move)           // a create, update or delete by some pass of the node controller
    | Begin(req: string)      // the OSD worker takes up a request
    | Work                    // the OSD worker's next call
    | Drop                    // a call fails or the operator restarts
    | Collect(k: string)      // garbage collection of a StatefulSet whose owner is gone

  ghost predicate Can(a: Action, s: Pair, plan: Plan) {
    match a
    case Node(m) => Enabled(m, s.osds, plan)
    case Begin(_) => s.worker.Done?
    case Work => !s.worker.Done?
    case Drop => true
    case Collect(k) => k in s.lost && k in s.sets
  }

  function WorldOf(osds: OsdMap, sets: SetMap): World {
    World(map[], osds, sets, map[], Placement.None, Placement.None, map[], map[],
          Placement.None, Placement.None, Placement.None)
  }

  predicate Holds(p: O.Pass) {
    p.GetSet? || p.CreateSet? || p.PatchSet?
  }

  /** Deleting a VitastorOSD loses its StatefulSet; a new StatefulSet is lost from the start
      if it is made for an object that is gone. */
  function NextLost(s: Pair, osds: OsdMap, sets: SetMap): set<string> {
    var deleted, made := s.osds.Keys - osds.Keys, sets.Keys - s.sets.Keys;
    ((s.lost + deleted) - made + if s.gone then made else {}) * sets.Keys
  }

  function NextGone(s: Pair, osds: OsdMap, worker: O.Pass): bool {
    Holds(worker) && ((Holds(s.worker) && s.gone) || (worker.osd.name in s.osds && worker.osd.name !in osds))
  }

  /** The pair with these objects and this worker next. */
  function Then(s: Pair, osds: OsdMap, sets: SetMap, worker: O.Pass): Pair {
    Pair(osds, sets, NextLost(s, osds, sets), worker, NextGone(s, osds, worker))
  }

  ghost function Do(a: Action, s: Pair, plan: Plan): Pair
    requires Can(a, s, plan)
  {
    match a
    case Node(m) => Then(s, Apply(m, s.osds, plan), s.sets, s.worker)
    case Begin(req) => Then(s, s.osds, s.sets, O.Start(req))
    case Work =>
      var (p, w) := O.Step(s.worker, WorldOf(s.osds, s.sets));
      Then(s, s.osds, w.sets, p)
    case Drop => Then(s, s.osds, s.sets, O.Done(O.Failed))
    case Collect(k) => Then(s, s.osds, s.sets - {k}, s.worker)
  }

  /** What the operator keeps true of who owns what. */
  ghost predicate IsSound(s: Pair) {
    && KeyedOsds(s.osds) && IsOwned(s.osds, s.sets, s.lost)
    && (Holds(s.worker) && !s.gone ==> IsPresent(s.worker.osd, s.osds))
    && (s.gone ==> Holds(s.worker))
  }

  predicate IsPresent(osd: VitastorOSD, osds: OsdMap) {
    osd.name in osds && osds[osd.name] == osd.(image := osds[osd.name].image)
  }

  /** The OSD worker holds an object that has changed since it was read. */
  predicate HoldsStale(s: Pair) {
    Holds(s.worker) && IsBehind(s.worker.osd, s.gone, s.osds)
  }

  /** The object is not stored as it was read, or is another one of that name. */
  predicate IsBehind(osd: VitastorOSD, gone: bool, osds: OsdMap) {
    gone || !(osd.name in osds && osds[osd.name] == osd)
  }

  /** Reports and images left to act on weigh most, then a call the worker is about to
      make with an outdated object, then the StatefulSets. */
  ghost function Measure(s: Pair, plan: Plan): nat {
    5 * Debt(s.osds, plan) + (if HoldsStale(s) then 3 else 0) + SetDebt(s.osds, s.sets, s.lost)
  }

  // ------------------------------------------------------------ one move, one call

  lemma LostStays(s: Pair, sets: SetMap)
    requires s.lost <= s.sets.Keys && sets.Keys == s.sets.Keys
    ensures NextLost(s, s.osds, sets) == s.lost
  {
  }

  lemma LostAfterMove(s: Pair, osds: OsdMap, k: string)
    requires s.lost <= s.sets.Keys && SameBut(s.osds, osds, k)
    ensures NextLost(s, osds, s.sets) == s.lost + if k in s.osds && k !in osds && k in s.sets then {k} else {}
  {
    assert s.osds.Keys - osds.Keys == if k in s.osds && k !in osds then {k} else {};
    assert s.sets.Keys - s.sets.Keys == {};
  }

  lemma LostAfterMake(s: Pair, sets: SetMap, k: string)
    requires s.lost <= s.sets.Keys && k !in s.sets && sets.Keys == s.sets.Keys + {k}
    ensures NextLost(s, s.osds, sets) == s.lost + if s.gone then {k} else {}
  {
    assert sets.Keys - s.sets.Keys == {k} && s.osds.Keys - s.osds.Keys == {};
  }

  lemma LostAfterCollect(s: Pair, k: string)
    requires s.lost <= s.sets.Keys
    ensures NextLost(s, s.osds, s.sets - {k}) == s.lost - {k}
  {
    assert (s.sets - {k}).Keys - s.sets.Keys == {} && s.osds.Keys - s.osds.Keys == {};
  }

  function MovedName(m: Move, plan: Plan): string
    requires m.Create? ==> m.b in plan && m.i < |plan[m.b].report|
  {
    match m case Create(b, i) => EntryName(plan, b, i) case Update(k) => k case Delete(k) => k
  }

  /** The objects one move leaves: one name has another object, whose node and path, if it
      was there before, are the same. */
  ghost predicate IsOneMove(osds: OsdMap, next: OsdMap, k: string) {
    && SameBut(osds, next, k) && (k in osds || k in next)
    && (k in osds && k in next ==> next[k] == osds[k].(image := next[k].image))
    && (k in next ==> next[k].name == k)
  }

  lemma MoveIsOne(m: Move, osds: OsdMap, plan: Plan)
    requires Enabled(m, osds, plan) && KeyedOsds(osds)
    ensures IsOneMove(osds, Apply(m, osds, plan), MovedName(m, plan))
    ensures m.Create? <==> MovedName(m, plan) !in osds
  {
  }

  lemma MoveIsSound(s: Pair, osds: OsdMap, k: string)
    requires IsSound(s) && IsOneMove(s.osds, osds, k)
    ensures IsSound(Then(s, osds, s.sets, s.worker))
  {
    var s' := Then(s, osds, s.sets, s.worker);
    LostAfterMove(s, osds, k);
    forall x | x in s'.sets && x !in s'.lost ensures x in osds && BelongsTo(s'.sets[x], osds[x]) {
      assert x in s.osds && BelongsTo(s.sets[x], s.osds[x]);
    }
  }

  lemma MoveDebt(osds: OsdMap, next: OsdMap, sets: SetMap, lost: set<string>, k: string)
    requires IsOwned(osds, sets, lost) && IsOneMove(osds, next, k)
    ensures SetDebt(next, sets, lost + if k in osds && k !in next && k in sets then {k} else {})
      <= SetDebt(osds, sets, lost) + if k in osds then 1 else 2
  {
    var lost' := lost + if k in osds && k !in next && k in sets then {k} else {};
    SetDebtChange(osds, sets, lost, next, sets, lost', k);
  }

  lemma MoveKeepsStale(s: Pair, osds: OsdMap, k: string)
    requires IsSound(s) && IsOneMove(s.osds, osds, k) && k !in s.osds
    ensures HoldsStale(Then(s, osds, s.sets, s.worker)) ==> HoldsStale(s)
  {
  }

  lemma {:induction false} NodeMoveDescends(m: Move, s: Pair, plan: Plan)
    requires WellFormed(plan) && Enabled(m, s.osds, plan) && IsSound(s)
    ensures IsSound(Do(Node(m), s, plan)) && Measure(Do(Node(m), s, plan), plan) < Measure(s, plan)
  {
    var osds, k := Apply(m, s.osds, plan), MovedName(m, plan);
    MoveIsOne(m, s.osds, plan);
    MoveIsSound(s, osds, k);
    MoveSettles(m, s.osds, plan);
    LostAfterMove(s, osds, k);
    MoveDebt(s.osds, osds, s.sets, s.lost, k);
    if m.Create? {
      MoveKeepsStale(s, osds, k);
    }
  }

  lemma MakeDebt(osd: VitastorOSD, gone: bool, osds: OsdMap, sets: SetMap, lost: set<string>)
    requires lost <= sets.Keys && osd.name !in sets
    ensures SetDebt(osds, sets[osd.name := O.SetFor(osd)], lost + if gone then {osd.name} else {})
      < SetDebt(osds, sets, lost) + if IsBehind(osd, gone, osds) then 3 else 0
  {
    var sets', lost' := sets[osd.name := O.SetFor(osd)], lost + if gone then {osd.name} else {};
    SetDebtChange(osds, sets, lost, osds, sets', lost', osd.name);
  }

  lemma MakeIsOwned(osd: VitastorOSD, gone: bool, osds: OsdMap, sets: SetMap, lost: set<string>)
    requires IsOwned(osds, sets, lost) && osd.name !in sets && (!gone ==> IsPresent(osd, osds))
    ensures IsOwned(osds, sets[osd.name := O.SetFor(osd)], lost + if gone then {osd.name} else {})
  {
  }

  lemma MakeDescends(osd: VitastorOSD, s: Pair, p: O.Pass)
    requires s.worker == O.CreateSet(osd) && osd.name !in s.sets && IsSound(s) && p.Done?
    ensures var s' := Then(s, s.osds, s.sets[osd.name := O.SetFor(osd)], p);
      && IsSound(s')
      && SetDebt(s'.osds, s'.sets, s'.lost) < SetDebt(s.osds, s.sets, s.lost) + if HoldsStale(s) then 3 else 0
  {
    LostAfterMake(s, s.sets[osd.name := O.SetFor(osd)], osd.name);
    MakeDebt(osd, s.gone, s.osds, s.sets, s.lost);
    MakeIsOwned(osd, s.gone, s.osds, s.sets, s.lost);
  }

  lemma PatchDebt(osd: VitastorOSD, osds: OsdMap, sets: SetMap, lost: set<string>, gone: bool)
    requires osd.name in sets && sets[osd.name].image != osd.image
    ensures SetDebt(osds, sets[osd.name := sets[osd.name].(image := osd.image)], lost)
      < SetDebt(osds, sets, lost) + if IsBehind(osd, gone, osds) then 3 else 0
  {
    SetDebtChange(osds, sets, lost, osds, sets[osd.name := sets[osd.name].(image := osd.image)], lost, osd.name);
  }

  lemma PatchDescends(osd: VitastorOSD, found: StatefulSet, s: Pair, p: O.Pass)
    requires s.worker == O.PatchSet(osd, found) && osd.name in s.sets && IsSound(s) && p.Done?
    ensures var s' := Then(s, s.osds, s.sets[osd.name := s.sets[osd.name].(image := osd.image)], p);
      && IsSound(s') && s'.lost == s.lost
      && (s'.sets != s.sets ==>
            SetDebt(s'.osds, s'.sets, s'.lost) < SetDebt(s.osds, s.sets, s.lost) + if HoldsStale(s) then 3 else 0)
  {
    var sets := s.sets[osd.name := s.sets[osd.name].(image := osd.image)];
    LostStays(s, sets);
    if s.sets[osd.name].image == osd.image {
      assert sets == s.sets;
    } else {
      PatchDebt(osd, s.osds, s.sets, s.lost, s.gone);
    }
  }

  /** Nothing but the worker moves on. */
  lemma QuietStep(s: Pair, worker: O.Pass)
    requires IsSound(s)
    requires Holds(worker) ==>
      || (Holds(s.worker) && worker.osd == s.worker.osd)
      || (!Holds(s.worker) && worker.osd.name in s.osds && s.osds[worker.osd.name] == worker.osd)
    ensures var s' := Then(s, s.osds, s.sets, worker);
      IsSound(s') && s'.lost == s.lost && (HoldsStale(s') ==> HoldsStale(s))
  {
    LostStays(s, s.sets);
  }

  /** The calls of the OSD worker, on the two stores they touch. */
  lemma WorkIs(worker: O.Pass, osds: OsdMap, sets: SetMap)
    requires !worker.Done? && KeyedOsds(osds)
    ensures var (p, w) := O.Step(worker, WorldOf(osds, sets));
      match worker
      case CreateSet(osd) =>
        p.Done? && w.sets == if osd.name in sets then sets else sets[osd.name := O.SetFor(osd)]
      case PatchSet(osd, _) =>
        && p.Done?
        && (w.sets == sets
            || (osd.name in sets && w.sets == sets[osd.name := sets[osd.name].(image := osd.image)]))
      case GetSet(osd) => w.sets == sets && (Holds(p) ==> p.osd == osd)
      case Start(_) => w.sets == sets && (Holds(p) ==> p.osd.name in osds && osds[p.osd.name] == p.osd)
  {
  }

  /** The measure does not grow, and shrinks if a StatefulSet has changed. */
  ghost predicate Pays(s: Pair, s': Pair, plan: Plan) {
    && IsSound(s') && Measure(s', plan) <= Measure(s, plan)
    && (s'.sets != s.sets ==> Measure(s', plan) < Measure(s, plan))
  }

  lemma QuietStepPays(s: Pair, worker: O.Pass, plan: Plan)
    requires IsSound(s)
    requires Holds(worker) ==>
      || (Holds(s.worker) && worker.osd == s.worker.osd)
      || (!Holds(s.worker) && worker.osd.name in s.osds && s.osds[worker.osd.name] == worker.osd)
    ensures Pays(s, Then(s, s.osds, s.sets, worker), plan)
  {
    QuietStep(s, worker);
  }

  lemma DebtPays(s: Pair, s': Pair, plan: Plan)
    requires IsSound(s') && s'.osds == s.osds && s'.worker.Done?
    requires SetDebt(s'.osds, s'.sets, s'.lost) < SetDebt(s.osds, s.sets, s.lost) + if HoldsStale(s) then 3 else 0
    ensures Pays(s, s', plan)
  {
  }

  lemma MakePays(osd: VitastorOSD, s: Pair, p: O.Pass, plan: Plan)
    requires s.worker == O.CreateSet(osd) && osd.name !in s.sets && IsSound(s) && p.Done?
    ensures Pays(s, Then(s, s.osds, s.sets[osd.name := O.SetFor(osd)], p), plan)
  {
    MakeDescends(osd, s, p);
    DebtPays(s, Then(s, s.osds, s.sets[osd.name := O.SetFor(osd)], p), plan);
  }

  lemma PatchPays(osd: VitastorOSD, found: StatefulSet, s: Pair, p: O.Pass, plan: Plan)
    requires s.worker == O.PatchSet(osd, found) && osd.name in s.sets && IsSound(s) && p.Done?
    ensures Pays(s, Then(s, s.osds, s.sets[osd.name := s.sets[osd.name].(image := osd.image)], p), plan)
  {
    PatchDescends(osd, found, s, p);
  }

  /** A call that changes a StatefulSet pays for it, out of its own debt or, when the
      worker's object is outdated, out of what that was worth. */
  lemma {:induction false} WorkDescends(s: Pair, plan: Plan)
    requires !s.worker.Done? && IsSound(s)
    ensures Pays(s, Do(Work, s, plan), plan)
  {
    var (p, w) := O.Step(s.worker, WorldOf(s.osds, s.sets));
    WorkIs(s.worker, s.osds, s.sets);
    if w.sets == s.sets {
      QuietStepPays(s, p, plan);
    } else if s.worker.CreateSet? {
      MakePays(s.worker.osd, s, p, plan);
    } else {
      PatchPays(s.worker.osd, s.worker.found, s, p, plan);
    }
  }

  lemma CollectDebt(osds: OsdMap, sets: SetMap, lost: set<string>, k: string)
    requires k in sets && k in lost
    ensures SetDebt(osds, sets - {k}, lost - {k}) < SetDebt(osds, sets, lost)
  {
    SetDebtChange(osds, sets, lost, osds, sets - {k}, lost - {k}, k);
  }

  lemma CollectIsOwned(osds: OsdMap, sets: SetMap, lost: set<string>, k: string)
    requires IsOwned(osds, sets, lost)
    ensures IsOwned(osds, sets - {k}, lost - {k})
  {
  }

  lemma CollectIsQuiet(s: Pair, k: string)
    requires IsSound(s) && k in s.lost
    ensures var s' := Then(s, s.osds, s.sets - {k}, s.worker);
      IsSound(s') && s'.lost == s.lost - {k} && s'.gone == s.gone
  {
    LostAfterCollect(s, k);
    CollectIsOwned(s.osds, s.sets, s.lost, k);
  }

  lemma CollectDescends(k: string, s: Pair, plan: Plan)
    requires Can(Collect(k), s, plan) && IsSound(s)
    ensures IsSound(Do(Collect(k), s, plan)) && Measure(Do(Collect(k), s, plan), plan) < Measure(s, plan)
  {
    CollectIsQuiet(s, k);
    CollectDebt(s.osds, s.sets, s.lost, k);
  }

  /** No action adds to the measure, and one that changes an object lowers it. */
  lemma {:induction false} ActionDescends(a: Action, s: Pair, plan: Plan)
    requires WellFormed(plan) && Can(a, s, plan) && IsSound(s)
    ensures var s' := Do(a, s, plan);
      && IsSound(s') && Measure(s', plan) <= Measure(s, plan)
      && (s'.osds != s.osds || s'.sets != s.sets ==> Measure(s', plan) < Measure(s, plan))
  {
    match a
    case Node(m) => NodeMoveDescends(m, s, plan);
    case Work => WorkDescends(s, plan);
    case Collect(k) => CollectDescends(k, s, plan);
    case Begin(req) => QuietStep(s, O.Start(req));
    case Drop => QuietStep(s, O.Done(O.Failed));
  }

  // -------------------------------------------------------------------- at rest

  ghost predicate AtRest(osds: OsdMap, sets: SetMap, lost: set<string>, plan: Plan) {
    Unconverged(osds, plan) == {} && SetDebt(osds, sets, lost) == 0
  }

  /** The OSD controller would change something if it reconciled this object. */
  ghost predicate WouldReconcile(osds: OsdMap, sets: SetMap, k: string) {
    k in osds && O.Run(3, O.Start(k), WorldOf(osds, sets)).1.sets != sets
  }

  lemma ReconcilesWhatIsOff(osds: OsdMap, sets: SetMap, k: string)
    requires KeyedOsds(osds) && k in osds
    ensures WouldReconcile(osds, sets, k) <==> k !in sets || sets[k].image != osds[k].image
  {
    var w := WorldOf(osds, sets);
    var osd := osds[k];
    O.RunStep(3, O.Start(k), w);
    O.RunStep(2, O.GetSet(osd), w);
    var p := O.Step(O.GetSet(osd), w).0;
    if !p.Done? {
      O.RunStep(1, p, w);
    }
  }

  lemma MoversAreUnconverged(m: Move, osds: OsdMap, plan: Plan)
    requires WellFormed(plan) && Enabled(m, osds, plan)
    ensures Mover(m, osds, plan) in Unconverged(osds, plan)
  {
    ConvergedAfter(m, osds, plan, Mover(m, osds, plan));
  }

  /** The OSD controller and the garbage collector are idle exactly when the StatefulSets
      have no debt. */
  lemma SetsAreQuietIffNoDebt(osds: OsdMap, sets: SetMap, lost: set<string>)
    requires KeyedOsds(osds) && IsOwned(osds, sets, lost)
    ensures SetDebt(osds, sets, lost) == 0 <==> (forall k :: !WouldReconcile(osds, sets, k)) && lost == {}
  {
    forall k ensures WouldReconcile(osds, sets, k) <==> k in Unserved(osds, sets) || k in Outdated(osds, sets) {
      if k in osds { ReconcilesWhatIsOff(osds, sets, k); }
    }
    assert lost == Foreign(osds, sets, lost) + Orphaned(osds, sets);
    if (forall k :: !WouldReconcile(osds, sets, k)) && lost == {} {
      assert Unserved(osds, sets) == {} && Outdated(osds, sets) == {};
    } else if k :| WouldReconcile(osds, sets, k) {
      assert Unserved(osds, sets) != {} || Outdated(osds, sets) != {};
    }
  }

  /** Without deadlocked nodes, the controllers and the garbage collector have nothing to
      change exactly when the cluster is at rest. */
  lemma RestIffNothingToChange(osds: OsdMap, sets: SetMap, lost: set<string>, plan: Plan)
    requires WellFormed(plan) && KeyedOsds(osds) && IsOwned(osds, sets, lost)
    requires !exists C :: IsDeadlock(osds, plan, C)
    ensures AtRest(osds, sets, lost, plan) <==>
      (forall m :: !Enabled(m, osds, plan)) && (forall k :: !WouldReconcile(osds, sets, k)) && lost == {}
  {
    SetsAreQuietIffNoDebt(osds, sets, lost);
    forall m | Enabled(m, osds, plan) ensures Mover(m, osds, plan) in Unconverged(osds, plan) {
      MoversAreUnconverged(m, osds, plan);
    }
    if Unconverged(osds, plan) != {} {
      var m := SomeMoveIsEnabled(osds, plan);
    }
  }

  lemma SomeMoveIsEnabled(osds: OsdMap, plan: Plan) returns (m: Move)
    requires Unconverged(osds, plan) != {} && !exists C :: IsDeadlock(osds, plan, C)
    ensures Enabled(m, osds, plan)
  {
    var b := SomeNodeIsFree(osds, plan);
    if i :| IsMissing(osds, plan, b, i) {
      m := Create(b, i);
    } else {
      var k :| k in osds && osds[k].nodeName == b && (IsWrong(osds, plan, k) || IsStale(osds, plan, k));
      m := if IsWrong(osds, plan, k) then Update(k) else Delete(k);
    }
  }

  /** At rest every VitastorOSD has a StatefulSet made for it, with its path, its node and
      its image; on the reconciled nodes these are reported paths and the node's image. */
  lemma RestMeansServed(osds: OsdMap, sets: SetMap, lost: set<string>, plan: Plan)
    requires AtRest(osds, sets, lost, plan) && KeyedOsds(osds) && IsOwned(osds, sets, lost)
    ensures forall k :: k in osds ==> k in sets && sets[k] == O.SetFor(osds[k])
    ensures forall k :: k in sets ==> k in osds
    ensures forall k :: k in osds && osds[k].nodeName in plan ==>
      sets[k].image == plan[osds[k].nodeName].image && NodePass.IsLive(plan[osds[k].nodeName].report, sets[k].path)
    ensures forall b, i :: IsEntry(plan, b, i) ==> Covered(osds, b, plan[b].report[i].dataDevice)
  {
    assert Unserved(osds, sets) == {} && Outdated(osds, sets) == {};
    assert Foreign(osds, sets, lost) == {} && Orphaned(osds, sets) == {};
    forall k | k in osds ensures k in sets && sets[k] == O.SetFor(osds[k]) {
      assert k !in Unserved(osds, sets) && k !in Outdated(osds, sets) && k !in Foreign(osds, sets, lost);
    }
    forall k | k in sets ensures k in osds {
      assert k !in Orphaned(osds, sets);
    }
    forall k | k in osds && osds[k].nodeName in plan ensures !IsWrong(osds, plan, k) && !IsStale(osds, plan, k) {
      assert osds[k].nodeName !in Unconverged(osds, plan);
    }
    forall b, i | IsEntry(plan, b, i) ensures Covered(osds, b, plan[b].report[i].dataDevice) {
      assert b !in Unconverged(osds, plan);
      assert !IsMissing(osds, plan, b, i);
    }
  }
}
