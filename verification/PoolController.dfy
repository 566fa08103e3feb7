/** The pool controller: one entry of the shared pools map, and one StorageClass, a pool. */
module PoolController {
  import opened Placement
  import opened Api

  datatype Outcome = Skipped | Failed | Requeued | Finished

  type Configs = map<string, PoolConfig>

  datatype Pass =
    | Start(req: string)
    | ReadPools(pool: Pool)
    | WritePools(pool: Pool, configs: Configs)
    | GetClass(pool: Pool)
    | CreateClass(pool: Pool)
    | Done(outcome: Outcome)

  /** Seven fields of the pool are published, the other four stay at their zero values. */
  function ConfigFor(pool: Pool): PoolConfig {
    PoolConfig(pool.name, pool.scheme, pool.pgSize, pool.parityChunks, pool.pgMinSize, pool.pgCount,
               pool.failureDomain, 0, 0, "", "")
  }

  function ClassFor(pool: Pool): StorageClass {
    StorageClass(pool.name, pool.id)
  }

  function ConfigsOf(w: World): Configs {
    if w.poolConfigs.Some? then w.poolConfigs.value else map[]
  }

  function Step(p: Pass, w: World): (Pass, World)
    requires !p.Done?
  {
    match p
    case Start(req) =>
      if req in w.pools then (ReadPools(w.pools[req]), w) else (Done(Skipped), w)
    case ReadPools(pool) => (WritePools(pool, ConfigsOf(w)[pool.id := ConfigFor(pool)]), w)
    case WritePools(pool, configs) => (GetClass(pool), w.(poolConfigs := Some(configs)))
    case GetClass(pool) => (if pool.name in w.classes then Done(Finished) else CreateClass(pool), w)
    case CreateClass(pool) =>
      if pool.name in w.classes then (Done(Failed), w)
      else (Done(Requeued), w.(classes := w.classes[pool.name := ClassFor(pool)]))
  }

  function Run(n: nat, p: Pass, w: World): (Pass, World) {
    if n == 0 || p.Done? then (p, w)
    else
      var (p', w') := Step(p, w);
      Run(n - 1, p', w')
  }

  lemma RunStep(n: nat, p: Pass, w: World)
    requires n > 0 && !p.Done?
    ensures Run(n, p, w) == Run(n - 1, Step(p, w).0, Step(p, w).1)
  {
  }

  class VitastorPoolReconciler {
    const client: Store

    constructor (client: Store)
      ensures this.client == client
    {
      this.client := client;
    }

    method Reconcile(req: string, calls: nat) returns (end: Pass)
      modifies client
      ensures (end, client.Snapshot()) == Run(calls, Start(req), old(client.Snapshot()))
    {
      if calls == 0 { return Start(req); }
      if req !in client.pools { return Done(Skipped); }
      end := ReconcilePools(client.pools[req], calls - 1);
    }

    method ReconcilePools(pool: Pool, calls: nat) returns (end: Pass)
      modifies client
      ensures (end, client.Snapshot()) == Run(calls, ReadPools(pool), old(client.Snapshot()))
    {
      if calls == 0 { return ReadPools(pool); }
      RunStep(calls, ReadPools(pool), client.Snapshot());
      var configs: Configs := map[];
      if client.poolConfigs.Some? {
        configs := client.poolConfigs.value;
      }
      configs := configs[pool.id := ConfigFor(pool)];
      if calls == 1 { return WritePools(pool, configs); }
      RunStep(calls - 1, WritePools(pool, configs), client.Snapshot());
      client.poolConfigs := Some(configs);
      end := ReconcileClass(pool, calls - 2);
    }

    method ReconcileClass(pool: Pool, calls: nat) returns (end: Pass)
      modifies client
      ensures (end, client.Snapshot()) == Run(calls, GetClass(pool), old(client.Snapshot()))
    {
      if calls == 0 { return GetClass(pool); }
      RunStep(calls, GetClass(pool), client.Snapshot());
      if pool.name in client.classes { return Done(Finished); }
      if calls == 1 { return CreateClass(pool); }
      RunStep(calls - 1, CreateClass(pool), client.Snapshot());
      client.classes := client.classes[pool.name := ClassFor(pool)];
      end := Done(Requeued);
    }
  }

  // ------------------------------------------------------------------ whole runs

  /** One invocation: the pool as it is when the pass reads it (users edit pools between
      passes), and how many steps of the pass go through after that. */
  datatype Visit = Visit(pool: Pool, calls: nat)

  function Visits(w: World, vs: seq<Visit>): World
    decreases |vs|
  {
    if vs == [] then w else Visits(Run(vs[0].calls, ReadPools(vs[0].pool), w).1, vs[1..])
  }

  /** The pass got as far as its Put. */
  predicate Publishes(v: Visit) {
    v.calls >= 2
  }

  /** The last publishing pass with the given id, if any. */
  function LastPublisher(vs: seq<Visit>, id: string): Option<Pool> {
    if vs == [] then None
    else
      var v := vs[|vs| - 1];
      if Publishes(v) && v.pool.id == id then Some(v.pool) else LastPublisher(vs[..|vs| - 1], id)
  }

  /** The seven published fields, and nothing in the other four. */
  predicate Mirrors(config: PoolConfig, pool: Pool) {
    && config.name == pool.name && config.scheme == pool.scheme && config.failureDomain == pool.failureDomain
    && config.pgSize == pool.pgSize && config.pgMinSize == pool.pgMinSize && config.pgCount == pool.pgCount
    && config.parityChunks == pool.parityChunks
    && config.maxOSDCombinations == 0 && config.blockSize == 0 && config.immediateCommit == "" && config.osdTags == ""
  }

  lemma VisitPublishes(v: Visit, w: World)
    ensures Run(v.calls, ReadPools(v.pool), w).1.poolConfigs
      == if Publishes(v) then Some(ConfigsOf(w)[v.pool.id := ConfigFor(v.pool)]) else w.poolConfigs
  {
    if Publishes(v) {
      var configs := ConfigsOf(w)[v.pool.id := ConfigFor(v.pool)];
      var w' := w.(poolConfigs := Some(configs));
      assert Run(v.calls, ReadPools(v.pool), w) == Run(v.calls - 2, GetClass(v.pool), w') by {
        assert Run(v.calls, ReadPools(v.pool), w) == Run(v.calls - 1, WritePools(v.pool, configs), w);
      }
      ClassStepsKeepPools(v.calls - 2, GetClass(v.pool), w');
    } else if v.calls == 1 {
      assert Run(0, Step(ReadPools(v.pool), w).0, w) == (Step(ReadPools(v.pool), w).0, w);
    }
  }

  lemma {:induction false} ClassStepsKeepPools(n: nat, p: Pass, w: World)
    requires p.GetClass? || p.CreateClass? || p.Done?
    ensures Run(n, p, w).1.poolConfigs == w.poolConfigs
    decreases n
  {
    if n > 0 && !p.Done? {
      ClassStepsKeepPools(n - 1, Step(p, w).0, Step(p, w).1);
    }
  }

  /** After any sequence of passes, some of them cut, every id holds the published fields
      of the last pass with that id that got to its Put; other ids are as they were. */
  lemma {:induction false} LastWriterWins(w: World, vs: seq<Visit>, id: string)
    ensures var before, after := ConfigsOf(w), ConfigsOf(Visits(w, vs));
      match LastPublisher(vs, id)
      case Some(pool) => id in after && Mirrors(after[id], pool)
      case None => (id in after <==> id in before) && (id in before ==> after[id] == before[id])
    decreases |vs|
  {
    if vs != [] {
      VisitPublishes(vs[0], w);
      LastWriterWins(Run(vs[0].calls, ReadPools(vs[0].pool), w).1, vs[1..], id);
      LastPublisherSplits(vs, id);
    }
  }

  lemma {:induction false} LastPublisherSplits(vs: seq<Visit>, id: string)
    requires vs != []
    ensures LastPublisher(vs, id) == match LastPublisher(vs[1..], id)
      case Some(pool) => Some(pool)
      case None => if Publishes(vs[0]) && vs[0].pool.id == id then Some(vs[0].pool) else None
  {
    var n := |vs| - 1;
    if n > 0 {
      assert vs[1..][..n - 1] == vs[..n][1..] && vs[1..][n - 1] == vs[n];
      LastPublisherSplits(vs[..n], id);
    } else {
      assert vs[..0] == [] && vs[1..] == [];
    }
  }

  lemma {:induction false} LastPublisherIsOne(vs: seq<Visit>, id: string)
    ensures match LastPublisher(vs, id)
      case Some(pool) => pool.id == id && exists v :: v in vs && Publishes(v) && v.pool == pool
      case None => forall v :: v in vs && Publishes(v) ==> v.pool.id != id
  {
    if vs != [] {
      var n := |vs| - 1;
      LastPublisherIsOne(vs[..n], id);
      forall v | v in vs ensures v in vs[..n] || v == vs[n] {}
      assert vs[n] in vs;
      if LastPublisher(vs, id).Some? && !(Publishes(vs[n]) && vs[n].pool.id == id) {
        var v :| v in vs[..n] && Publishes(v) && v.pool == LastPublisher(vs, id).value;
        assert v in vs;
      }
    }
  }

  /** With one pool an id, any order and any repetition of the passes gives the same map. */
  lemma PoolOrderIrrelevant(w: World, vs: seq<Visit>, us: seq<Visit>)
    requires forall v :: v in vs <==> v in us
    requires forall u, v :: u in vs && v in vs && u.pool.id == v.pool.id ==> u.pool == v.pool
    ensures ConfigsOf(Visits(w, vs)) == ConfigsOf(Visits(w, us))
  {
    var a, b := ConfigsOf(Visits(w, vs)), ConfigsOf(Visits(w, us));
    forall id ensures (id in a <==> id in b) && (id in a ==> a[id] == b[id]) {
      LastWriterWins(w, vs, id);
      LastWriterWins(w, us, id);
      LastPublisherIsOne(vs, id);
      LastPublisherIsOne(us, id);
    }
  }

  /** One pass and the StorageClasses: a pass cut before its last call leaves them alone; a
      complete one makes the missing class for its pool, with the pool's id. A class that
      exists is left alone, whatever id it carries. */
  lemma OneClassAPool(v: Visit, w: World)
    ensures var after := Run(v.calls, ReadPools(v.pool), w).1.classes;
      if v.calls >= 4 && v.pool.name !in w.classes
      then after == w.classes[v.pool.name := StorageClass(v.pool.name, v.pool.id)]
      else after == w.classes
  {
    if v.calls > 0 {
      RunStep(v.calls, ReadPools(v.pool), w);
      var (p1, _) := Step(ReadPools(v.pool), w);
      if v.calls > 1 {
        RunStep(v.calls - 1, p1, w);
        var (p2, w2) := Step(p1, w);
        if v.calls > 2 {
          RunStep(v.calls - 2, p2, w2);
          var (p3, _) := Step(p2, w2);
          if v.calls > 3 && !p3.Done? {
            RunStep(v.calls - 3, p3, w2);
          }
        }
      }
    }
  }

  /** So an id changed after the class was made does not reach it: both ids stay published
      and the class keeps the first. */
  lemma ChangedIdLeavesTheClass(w: World, pool: Pool, id: string, m: nat, n: nat)
    requires pool.name !in w.classes && id != pool.id && m >= 4 && n >= 4
    ensures var end := Visits(w, [Visit(pool, m), Visit(pool.(id := id), n)]);
      && pool.name in end.classes && end.classes[pool.name].poolId == pool.id
      && pool.id in ConfigsOf(end) && id in ConfigsOf(end)
  {
    var vs := [Visit(pool, m), Visit(pool.(id := id), n)];
    var w1 := Run(m, ReadPools(pool), w).1;
    OneClassAPool(vs[0], w);
    OneClassAPool(vs[1], w1);
    VisitPublishes(vs[0], w);
    VisitPublishes(vs[1], w1);
    assert vs[1..] == [vs[1]] && vs[1..][1..] == [];
    assert Visits(w, vs) == Visits(w1, vs[1..]) == Run(n, ReadPools(vs[1].pool), w1).1;
  }

  // ------------------------------------------------------------------ a whole pass

  /** From the request on: an uncut pass publishes the pool it is asked for under its id, with
      all its fields, and nothing else; afterwards the pool has its StorageClass, and the
      pass asks for another one exactly if it has just made it. */
  lemma WholePass(n: nat, req: string, w: World)
    requires n >= 5 && req in w.pools
    ensures var (p, w') := Run(n, Start(req), w);
      var pool := w.pools[req];
      && p == Done(if pool.name in w.classes then Finished else Requeued)
      && pool.id in ConfigsOf(w') && Mirrors(ConfigsOf(w')[pool.id], pool)
      && (forall id :: id != pool.id ==>
            (id in ConfigsOf(w') <==> id in ConfigsOf(w))
            && (id in ConfigsOf(w) ==> ConfigsOf(w')[id] == ConfigsOf(w)[id]))
      && w'.classes == (if pool.name in w.classes then w.classes
                        else w.classes[pool.name := StorageClass(pool.name, pool.id)])
      && w' == w.(poolConfigs := w'.poolConfigs, classes := w'.classes)
  {
    var pool := w.pools[req];
    var configs := ConfigsOf(w)[pool.id := ConfigFor(pool)];
    var w2 := w.(poolConfigs := Some(configs));
    RunStep(n, Start(req), w);
    RunStep(n - 1, ReadPools(pool), w);
    RunStep(n - 2, WritePools(pool, configs), w);
    RunStep(n - 3, GetClass(pool), w2);
    if pool.name !in w.classes {
      RunStep(n - 4, CreateClass(pool), w2);
    }
  }

  /** A pass for a pool that is gone does nothing. */
  lemma PassWithoutPool(n: nat, req: string, w: World)
    requires n >= 1 && req !in w.pools
    ensures Run(n, Start(req), w) == (Done(Skipped), w)
  {
    RunStep(n, Start(req), w);
  }

  /** The sample pool of the documentation. */
  lemma SamplePool(n: nat, w: World)
    requires n >= 5 && "test-pool" in w.pools
    requires w.pools["test-pool"] == Pool("test-pool", "1", "ec", 3, 1, 2, 128, "osd", 0, 0, "", "")
    ensures var w' := Run(n, Start("test-pool"), w).1;
      && "1" in ConfigsOf(w')
      && ConfigsOf(w')["1"] == PoolConfig("test-pool", "ec", 3, 1, 2, 128, "osd", 0, 0, "", "")
      && "test-pool" in w'.classes
  {
    WholePass(n, "test-pool", w);
  }
}
